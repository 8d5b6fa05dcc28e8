/**
 * The `protect` middleware of server/middleware/auth.js: the token is taken
 * from the Authorization header, verified, and resolved to a stored user.
 * Signature verification (`jwt.verify`) is a parameter mapping a token to
 * the identity it carries, `None` when it is rejected or carries none.
 */
module Auth {
  import opened Wrappers
  import opened Text
  import opened Models

  const BEARER: string := "Bearer "

  /** `auth.startsWith("Bearer ") ? auth.split(" ")[1] : auth`. */
  function ExtractToken(header: string): (token: string)
    ensures StartsWith(header, BEARER) ==> token == PrefixBefore(header[|BEARER|..], ' ')
    ensures !StartsWith(header, BEARER) ==> token == header
  {
    if StartsWith(header, BEARER) then
      assert header[..7] == BEARER;
      assert header[6] == ' ' && forall j :: 0 <= j < 6 ==> header[j] != ' ';
      SplitSecond(header, ' ', 6);
      Split(header, ' ')[1]
    else header
  }

  /** A token without spaces survives being sent as `Bearer <token>` and also sent bare. */
  lemma TokenRoundTrip(token: string)
    requires ' ' !in token
    ensures ExtractToken(BEARER + token) == token
    ensures !StartsWith(token, BEARER) ==> ExtractToken(token) == token
  {
    var h := BEARER + token;
    assert h[..|BEARER|] == BEARER;
    assert h[|BEARER|..] == token;
    PrefixWithoutSeparator(token, ' ');
  }

  /** Text after a second space is dropped: `Bearer a b` authenticates as token `a`. */
  lemma ExtraSegmentsDropped()
    ensures ExtractToken("Bearer a b") == "a"
  {
    assert StartsWith("Bearer a b", BEARER);
    assert "Bearer a b"[|BEARER|..] == "a b";
    PrefixBeforeAt("a b", ' ', 1);
  }

  datatype AuthError = NotAuthorized
  {
    function Message(): string
    {
      "Not authorized"
    }
  }

  /**
   * Resolving a request to a user: an absent or empty header, a token the
   * verifier rejects and an identity with no stored user all fail alike.
   */
  function Authenticate(header: Option<string>, verify: string -> Option<Id>, users: seq<User>): (r: Result<User, AuthError>)
    ensures r.Success? <==>
      && header.Some? && header.value != ""
      && verify(ExtractToken(header.value)).Some?
      && UserIndex(users, verify(ExtractToken(header.value)).value).Some?
    ensures r.Success? ==> r.value in users && Some(r.value.id) == verify(ExtractToken(header.value))
    ensures r.Failure? ==> r.error == NotAuthorized
  {
    if header.None? || header.value == "" then Failure(NotAuthorized)
    else match verify(ExtractToken(header.value))
      case None => Failure(NotAuthorized)
      case Some(id) =>
        match UserIndex(users, id)
        case None => Failure(NotAuthorized)
        case Some(k) => Success(users[k])
  }

  /** The verifier is consulted on the header's token only: headers with the same token authenticate alike. */
  lemma SameTokenSameUser(h1: string, h2: string, verify: string -> Option<Id>, users: seq<User>)
    requires h1 != "" && h2 != "" && ExtractToken(h1) == ExtractToken(h2)
    ensures Authenticate(Some(h1), verify, users) == Authenticate(Some(h2), verify, users)
  {
  }

  datatype Response = Response(status: int, success: bool, message: string)

  /** One request passing through the middleware: what it has set on `req` and `res`, and how often `next` ran. */
  class Exchange {
    var user: Option<User>
    var response: Option<Response>
    var nextCalls: nat

    constructor ()
      ensures user.None? && response.None? && nextCalls == 0
    {
      user := None;
      response := None;
      nextCalls := 0;
    }

    /** `protect`: on success `req.user` is set and `next` runs once; otherwise the 401 reply and no `next`. */
    method Protect(header: Option<string>, verify: string -> Option<Id>, users: seq<User>)
      modifies this
      ensures var a := Authenticate(header, verify, users);
        && (a.Success? ==> user == Some(a.value) && nextCalls == old(nextCalls) + 1 && response == old(response))
        && (a.Failure? ==>
              && response == Some(Response(401, false, a.error.Message()))
              && nextCalls == old(nextCalls) && user == old(user))
    {
      if header.None? || header.value == "" {
        response := Some(Response(401, false, "Not authorized"));
        return;
      }
      var token := ExtractToken(header.value);
      var decoded := verify(token);
      if decoded.None? {
        response := Some(Response(401, false, "Not authorized"));
        return;
      }
      var found := UserIndex(users, decoded.value);
      if found.None? {
        response := Some(Response(401, false, "Not authorized"));
        return;
      }
      user := Some(users[found.value]);
      nextCalls := nextCalls + 1;
    }
  }
}
