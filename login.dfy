/**
 * The sign-in and sign-up forms (client/src/components/auth/Login.jsx): the
 * field handlers and the checks made before an account is requested. The
 * alert boxes become the returned outcome.
 */
module Login {

  /** `s.length`: JavaScript counts UTF-16 code units, two for a character beyond U+FFFF. */
  function Utf16Length(s: string): (n: nat)
    ensures |s| <= n <= 2 * |s|
    decreases |s|
  {
    if s == [] then 0 else (if s[0] as int > 0xFFFF then 2 else 1) + Utf16Length(s[1..])
  }

  /** For text in the Basic Multilingual Plane the length is the number of characters. */
  lemma {:induction false} Utf16LengthBmp(s: string)
    requires forall i :: 0 <= i < |s| ==> s[i] as int <= 0xFFFF
    ensures Utf16Length(s) == |s|
    decreases |s|
  {
    if s != [] {
      Utf16LengthBmp(s[1..]);
    }
  }

  datatype SignUpResult = PasswordsDiffer | PasswordTooShort | SignUpAccepted
  {
    function Alert(): string
    {
      match this
      case PasswordsDiffer => "Passwords do not match"
      case PasswordTooShort => "Password must be at least 6 characters"
      case SignUpAccepted => ""
    }
  }

  const MIN_PASSWORD_LENGTH: nat := 6

  /** The checks of `handleSignUp`: the confirmation first, then the length. */
  function SignUpCheck(password: string, confirmPassword: string): (r: SignUpResult)
    ensures r == PasswordsDiffer <==> password != confirmPassword
    ensures r == PasswordTooShort <==> password == confirmPassword && Utf16Length(password) < MIN_PASSWORD_LENGTH
    ensures r == SignUpAccepted <==> password == confirmPassword && Utf16Length(password) >= MIN_PASSWORD_LENGTH
  {
    if password != confirmPassword then PasswordsDiffer
    else if Utf16Length(password) < MIN_PASSWORD_LENGTH then PasswordTooShort
    else SignUpAccepted
  }

  /** A mismatch is reported even when the password is also too short; three astral characters already count as six. */
  lemma SignUpExamples()
    ensures SignUpCheck("abc", "abd") == PasswordsDiffer
    ensures SignUpCheck("abcde", "abcde") == PasswordTooShort
    ensures SignUpCheck("abcdef", "abcdef") == SignUpAccepted
    ensures SignUpCheck("\U{1F697}\U{1F697}\U{1F697}", "\U{1F697}\U{1F697}\U{1F697}") == SignUpAccepted
  {
    Utf16LengthBmp("abcde");
    Utf16LengthBmp("abcdef");
  }

  class LoginForm {
    var loginData: map<string, string>
    var registerData: map<string, string>

    /** The sign-up check reads both password fields, which the form always holds. */
    ghost predicate Valid()
      reads this
    {
      "password" in registerData && "confirmPassword" in registerData
    }

    constructor ()
      ensures Valid()
      ensures loginData == map["email" := "", "password" := ""]
      ensures registerData == map["name" := "", "email" := "", "password" := "", "confirmPassword" := ""]
    {
      loginData := map["email" := "", "password" := ""];
      registerData := map["name" := "", "email" := "", "password" := "", "confirmPassword" := ""];
    }

    /** `handleLoginChange`: the named field of the sign-in form takes the value. */
    method HandleLoginChange(name: string, value: string)
      modifies this
      ensures loginData == old(loginData)[name := value]
      ensures forall k :: k in old(loginData) && k != name ==> k in loginData && loginData[k] == old(loginData)[k]
      ensures registerData == old(registerData)
    {
      loginData := loginData[name := value];
    }

    /** `handleRegisterChange`: the named field of the sign-up form takes the value. */
    method HandleRegisterChange(name: string, value: string)
      requires Valid()
      modifies this
      ensures Valid()
      ensures registerData == old(registerData)[name := value]
      ensures forall k :: k in old(registerData) && k != name ==> k in registerData && registerData[k] == old(registerData)[k]
      ensures loginData == old(loginData)
    {
      registerData := registerData[name := value];
    }

    /** `handleSignUp`: the outcome of the checks on the current fields; the form is left as it is. */
    method HandleSignUp() returns (r: SignUpResult)
      requires Valid()
      ensures r == SignUpCheck(registerData["password"], registerData["confirmPassword"])
      ensures r == SignUpAccepted <==>
        (registerData["password"] == registerData["confirmPassword"] &&
         Utf16Length(registerData["password"]) >= MIN_PASSWORD_LENGTH)
    {
      var password := registerData["password"];
      if password != registerData["confirmPassword"] {
        return PasswordsDiffer;
      }
      if Utf16Length(password) < MIN_PASSWORD_LENGTH {
        return PasswordTooShort;
      }
      return SignUpAccepted;
    }
  }
}
