/**
 * The owner's booking list page (client/src/pages/owner/ManageBookings.jsx):
 * the status label and date shown per row, and the in-memory status update
 * behind the approve and cancel buttons.
 */
module ManageBookings {
  import opened Wrappers
  import opened Text

  /**
   * `statusLabel`: a falsy status (absent or "") is "unknown"; otherwise the
   * lower-cased status, with the spelling "canceled" folded into "cancelled".
   */
  function StatusLabel(s: Option<string>): (r: string)
    ensures s.None? || s.value == "" ==> r == "unknown"
    ensures s.Some? && s.value != "" && Lower(s.value) == "canceled" ==> r == "cancelled"
    ensures s.Some? && s.value != "" && Lower(s.value) != "canceled" ==> r == Lower(s.value)
  {
    if s.None? || s.value == "" then "unknown"
    else
      var v := Lower(s.value);
      if v == "confirmed" then "confirmed"
      else if v == "pending" then "pending"
      else if v == "cancelled" || v == "canceled" then "cancelled"
      else v
  }

  /** The label is already in lower case, so labelling a label changes nothing. */
  lemma StatusLabelIdempotent(s: Option<string>)
    ensures IsLower(StatusLabel(s))
    ensures StatusLabel(Some(StatusLabel(s))) == StatusLabel(s)
  {
    if s.Some? && s.value != "" {
      LowerFixesLower(s.value);
      assert Lower("cancelled") == "cancelled" by {
        LowerFixesLower("cancelled");
      }
      assert IsLower("unknown");
    }
    LowerFixesLower(StatusLabel(s));
  }

  /** Case does not matter: a status and its lower-case form get the same label. */
  lemma StatusLabelIgnoresCase(s: string)
    ensures StatusLabel(Some(s)) == StatusLabel(Some(Lower(s)))
  {
    LowerFixesLower(s);
  }

  /** Both spellings of the cancelled status, in any case, show as "cancelled". */
  lemma CancelledSpellings()
    ensures StatusLabel(Some("CANCELED")) == "cancelled"
    ensures StatusLabel(Some("Cancelled")) == "cancelled"
  {
    assert Lower("CANCELED") == "canceled";
    assert Lower("Cancelled") == "cancelled";
  }

  /** `formatDate`: "-" for a falsy date, else what precedes the first "T" (the whole string without one). */
  function FormatDate(d: Option<string>): (r: string)
    ensures d.None? || d.value == "" ==> r == "-"
    ensures d.Some? && d.value != "" ==> r == PrefixBefore(d.value, 'T')
  {
    if d.None? || d.value == "" then "-"
    else
      SplitFirst(d.value, 'T');
      Split(d.value, 'T')[0]
  }

  /** An ISO timestamp shows as its date part. */
  lemma FormatDateOfTimestamp()
    ensures FormatDate(Some("2025-06-13T10:00:00.000Z")) == "2025-06-13"
  {
    var stamp := "2025-06-13T10:00:00.000Z";
    assert stamp[..10] == "2025-06-13";
    assert stamp[10] == 'T';
    assert forall j :: 0 <= j < 10 ==> stamp[j] == "2025-06-13"[j];
    PrefixBeforeAt(stamp, 'T', 10);
  }

  /** A bare date shows unchanged. */
  lemma FormatDateOfDate()
    ensures FormatDate(Some("2025-06-13")) == "2025-06-13"
  {
    PrefixWithoutSeparator("2025-06-13", 'T');
  }

  /** A row of the list: the booking as the page holds it. */
  datatype Row = Row(id: string, car: string, pickupDate: string, returnDate: string, status: string, price: int)

  /** `prev.map(b => b._id === id ? { ...b, status } : b)`. */
  function WithStatus(rows: seq<Row>, id: string, status: string): (r: seq<Row>)
    ensures |r| == |rows|
    ensures forall i :: 0 <= i < |rows| && rows[i].id == id ==> r[i] == rows[i].(status := status)
    ensures forall i :: 0 <= i < |rows| && rows[i].id != id ==> r[i] == rows[i]
  {
    seq(|rows|, i requires 0 <= i < |rows| => if rows[i].id == id then rows[i].(status := status) else rows[i])
  }

  /** A later update of the same rows overrides an earlier one; the identities never change. */
  lemma WithStatusLastWins(rows: seq<Row>, id: string, a: string, b: string)
    ensures WithStatus(WithStatus(rows, id, a), id, b) == WithStatus(rows, id, b)
    ensures forall i :: 0 <= i < |rows| ==> WithStatus(rows, id, a)[i].id == rows[i].id
  {
    var once := WithStatus(rows, id, a);
    assert forall i :: 0 <= i < |rows| ==> once[i].id == rows[i].id;
  }

  class BookingList {
    var bookings: seq<Row>

    constructor ()
      ensures bookings == []
    {
      bookings := [];
    }

    /** `total`, the count in the header. */
    function Total(): nat
      reads this
    {
      |bookings|
    }

    /** `updateStatus`: only the rows with that identity get the new status. */
    method UpdateStatus(id: string, nextStatus: string)
      modifies this
      ensures bookings == WithStatus(old(bookings), id, nextStatus)
      ensures Total() == old(Total())
    {
      bookings := WithStatus(bookings, id, nextStatus);
    }
  }

  /** The header count follows the list: a status update never changes it. */
  lemma TotalKeptByStatusUpdate(rows: seq<Row>, id: string, status: string)
    ensures |WithStatus(rows, id, status)| == |rows|
  {
  }
}
