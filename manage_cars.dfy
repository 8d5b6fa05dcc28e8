/**
 * The owner's car list page (client/src/pages/owner/ManageCars.jsx): the
 * availability badge, the price cell, and the in-memory toggle and removal.
 */
module ManageCars {
  import opened Wrappers
  import opened Seqs
  import opened Text

  /** A row of the list; `isAvailable` is the truthiness of the field. */
  datatype CarRow = CarRow(id: string, brand: string, model: string, category: string, pricePerDay: int, isAvailable: bool)

  /** `prev.map(c => c._id === id ? { ...c, isAvailable: !c.isAvailable } : c)`. */
  function Toggled(cars: seq<CarRow>, id: string): (r: seq<CarRow>)
    ensures |r| == |cars|
    ensures forall i :: 0 <= i < |cars| && cars[i].id == id ==> r[i] == cars[i].(isAvailable := !cars[i].isAvailable)
    ensures forall i :: 0 <= i < |cars| && cars[i].id != id ==> r[i] == cars[i]
  {
    seq(|cars|, i requires 0 <= i < |cars| => if cars[i].id == id then cars[i].(isAvailable := !cars[i].isAvailable) else cars[i])
  }

  /** Toggling the same identity twice restores the list. */
  lemma ToggleTwiceRestores(cars: seq<CarRow>, id: string)
    ensures Toggled(Toggled(cars, id), id) == cars
  {
    var once := Toggled(cars, id);
    assert forall i :: 0 <= i < |cars| ==> once[i].id == cars[i].id;
  }

  /** `prev.filter(c => c._id !== id)`. */
  function Without(cars: seq<CarRow>, id: string): (r: seq<CarRow>)
    ensures forall i :: 0 <= i < |r| ==> r[i].id != id && r[i] in cars
    ensures forall i :: 0 <= i < |cars| && cars[i].id != id ==> cars[i] in r
  {
    Filter(cars, (c: CarRow) => c.id != id)
  }

  /** Removal keeps the order of the rest: removing from a split list removes from each part. */
  lemma WithoutKeepsOrder(a: seq<CarRow>, b: seq<CarRow>, id: string)
    ensures Without(a + b, id) == Without(a, id) + Without(b, id)
    ensures Without(Without(a, id), id) == Without(a, id)
  {
    FilterConcat(a, b, (c: CarRow) => c.id != id);
    FilterIdempotent(a, (c: CarRow) => c.id != id);
  }

  /** A list without that identity is left as it is. */
  lemma WithoutAbsent(cars: seq<CarRow>, id: string)
    requires forall i :: 0 <= i < |cars| ==> cars[i].id != id
    ensures Without(cars, id) == cars
  {
    FilterAll(cars, (c: CarRow) => c.id != id);
  }

  /** `getStatus`. */
  function GetStatus(car: CarRow): (r: string)
    ensures r == "Available" <==> car.isAvailable
    ensures r == "Available" || r == "Unavailable"
  {
    if car.isAvailable then "Available" else "Unavailable"
  }

  const GREEN_BADGE: string := "bg-green-500/10 text-green-700 border-green-500/20 hover:bg-green-500/15"
  const GRAY_BADGE: string := "bg-gray-500/10 text-gray-700 border-gray-500/20 hover:bg-gray-500/15"

  /** `getStatusClasses`: green only for "Available", gray for anything else. */
  function GetStatusClasses(status: string): (r: string)
    ensures r == GREEN_BADGE <==> status == "Available"
    ensures r == GRAY_BADGE <==> status != "Available"
  {
    if status == "Available" then GREEN_BADGE else GRAY_BADGE
  }

  /** A car's badge is green exactly when it is available, also after any number of toggles of other cars. */
  lemma BadgeFollowsAvailability(cars: seq<CarRow>, id: string, k: nat)
    requires k < |cars|
    ensures GetStatusClasses(GetStatus(Toggled(cars, id)[k])) == GREEN_BADGE <==>
      (if cars[k].id == id then !cars[k].isAvailable else cars[k].isAvailable)
  {
  }

  /** `import.meta.env.VITE_CURRENCY || '$'`. */
  function Currency(env: Option<string>): (r: string)
    ensures env.Some? && env.value != "" ==> r == env.value
    ensures env.None? || env.value == "" ==> r == "$"
  {
    if env.Some? && env.value != "" then env.value else "$"
  }

  /** `formatPrice`: the currency, a space, and the decimal digits of the price. */
  function FormatPrice(currency: string, value: int): (r: string)
    ensures |r| > |currency| + 1 && r[..|currency| + 1] == currency + " "
  {
    var digits := IntToDecimal(value);
    assert (currency + " " + digits)[..|currency| + 1] == currency + " ";
    currency + " " + digits
  }

  /** The price cell loses nothing: the amount can be read back after the currency and the space. */
  lemma FormatPriceReadable(currency: string, value: nat)
    ensures var r := FormatPrice(currency, value);
      (forall i :: |currency| + 1 <= i < |r| ==> '0' <= r[i] <= '9')
      && DecimalValue(r[|currency| + 1..]) == value
  {
    var r := FormatPrice(currency, value);
    assert r[|currency| + 1..] == NatToDecimal(value);
    DecimalRoundTrip(value);
  }

  class CarList {
    var cars: seq<CarRow>

    constructor ()
      ensures cars == []
    {
      cars := [];
    }

    /** `toggleAvailability`, and `handleToggleAvailability`, which has the same body. */
    method ToggleAvailability(id: string)
      modifies this
      ensures cars == Toggled(old(cars), id)
    {
      cars := Toggled(cars, id);
    }

    /** `handleDelete`: every row with that identity goes, the rest stay in order. */
    method HandleDelete(id: string)
      modifies this
      ensures cars == Without(old(cars), id)
    {
      cars := Filter(cars, (c: CarRow) => c.id != id);
    }
  }
}
