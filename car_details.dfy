/**
 * The car details page (client/src/pages/CarDetails.jsx): which car is
 * shown, which image is selected, the de-duplicated gallery, and the
 * estimate of days and price shown next to the booking form.
 */
module CarDetails {
  import opened Wrappers
  import opened Seqs
  import opened Models
  import BookingController

  /** A car as the public listing returns it; "" stands for a falsy image, `None` for `images` that is not an array. */
  datatype CarView = CarView(id: string, image: string, images: Option<seq<string>>, pricePerDay: int)

  /** `cars.find(c => c._id === id)`, or `None` when the listing failed (`None`) or holds no such car. */
  function FindCar(response: Option<seq<CarView>>, id: string): (r: Option<CarView>)
    ensures r.Some? <==> response.Some? && exists i :: 0 <= i < |response.value| && response.value[i].id == id
    ensures r.Some? ==> r.value in response.value && r.value.id == id
    ensures r.Some? ==>
      (exists i :: 0 <= i < |response.value| && response.value[i] == r.value &&
                   (forall j :: 0 <= j < i ==> response.value[j].id != id))
  {
    if response.None? then None else Find(response.value, (c: CarView) => c.id == id)
  }

  predicate Truthy(s: string)
  {
    s != ""
  }

  /** `Array.isArray(car.images) ? car.images.filter(Boolean) : []`. */
  function Extras(car: CarView): (r: seq<string>)
    ensures forall i :: 0 <= i < |r| ==> r[i] != ""
  {
    if car.images.Some? then Filter(car.images.value, Truthy) else []
  }

  /** `extra[0] || found.image || null`: the first gallery extra, else the cover, else nothing. */
  function InitialImage(car: CarView): (r: Option<string>)
    ensures r.Some? ==> r.value != ""
    ensures Extras(car) != [] ==> r == Some(Extras(car)[0])
    ensures Extras(car) == [] ==> r == (if car.image != "" then Some(car.image) else None)
  {
    var extra := Extras(car);
    if extra != [] then Some(extra[0])
    else if car.image != "" then Some(car.image)
    else None
  }

  /** `Array.from(new Set(s))`: the first occurrence of every value, in order. */
  function Dedup(s: seq<string>): (r: seq<string>)
    ensures Distinct(r)
    ensures forall i :: 0 <= i < |r| ==> r[i] in s
    ensures forall i :: 0 <= i < |s| ==> s[i] in r
    ensures s != [] ==> r != [] && r[0] == s[0]
    decreases |s|
  {
    if s == [] then []
    else
      var init := s[..|s| - 1];
      var rest := Dedup(init);
      assert forall i :: 0 <= i < |init| ==> init[i] in s;
      if s[|s| - 1] in rest then rest
      else
        assert |init| > 0 ==> init[0] == s[0];
        rest + [s[|s| - 1]]
  }

  /**
   * `new Set` keeps insertion order: the values of `Dedup(s)` appear in the
   * order of their first occurrences in `s`. With `Distinct` and the two
   * membership clauses of `Dedup`, this fixes the result completely.
   */
  lemma {:induction false} DedupFirstOrder(s: seq<string>)
    ensures InFirstOrder(Dedup(s), s)
    decreases |s|
  {
    if s != [] {
      var init := s[..|s| - 1];
      var last := s[|s| - 1];
      var rest := Dedup(init);
      DedupFirstOrder(init);
      assert s == init + [last];
      if last in rest {
        FirstOrderAppend(rest, init, last);
      } else {
        FirstOrderAppendNew(rest, init, last);
      }
    }
  }

  /** A sequence without repetitions is its own de-duplication: nothing but repeats is dropped. */
  lemma {:induction false} DedupOfDistinct(s: seq<string>)
    requires Distinct(s)
    ensures Dedup(s) == s
    decreases |s|
  {
    if s != [] {
      var init := s[..|s| - 1];
      assert Distinct(init);
      DedupOfDistinct(init);
      assert s[|s| - 1] !in init;
      assert init + [s[|s| - 1]] == s;
    }
  }

  /** `gallery`: the cover and the extras, falsy entries dropped, each image once. */
  function Gallery(car: Option<CarView>): (g: seq<string>)
    ensures Distinct(g)
    ensures forall i :: 0 <= i < |g| ==> g[i] != ""
    ensures car.None? ==> g == []
    ensures car.Some? && car.value.image != "" ==> g != [] && g[0] == car.value.image
    ensures car.Some? ==> forall i :: 0 <= i < |Extras(car.value)| ==> Extras(car.value)[i] in g
    ensures car.Some? ==> forall i :: 0 <= i < |g| ==> g[i] == car.value.image || g[i] in Extras(car.value)
    ensures car.Some? ==> g == Dedup(Filter([car.value.image] + Extras(car.value), Truthy))
  {
    if car.None? then []
    else
      CoverAndExtras(car.value.image, Extras(car.value));
      Dedup(Filter([car.value.image] + Extras(car.value), Truthy))
  }

  /** De-duplicating the truthy entries of `[cover, ...extras]` keeps the cover first and every extra, and adds nothing. */
  lemma CoverAndExtras(cover: string, extras: seq<string>)
    requires forall i :: 0 <= i < |extras| ==> extras[i] != ""
    ensures var g := Dedup(Filter([cover] + extras, Truthy));
      && (forall i :: 0 <= i < |g| ==> g[i] != "" && (g[i] == cover || g[i] in extras))
      && (cover != "" ==> g != [] && g[0] == cover)
      && (forall i :: 0 <= i < |extras| ==> extras[i] in g)
  {
    var all := Filter([cover] + extras, Truthy);
    var g := Dedup(all);
    forall i | 0 <= i < |g| ensures g[i] != "" && (g[i] == cover || g[i] in extras) {
      assert g[i] in all;
      var k :| 0 <= k < |all| && all[k] == g[i];
      assert all[k] in [cover] + extras && Truthy(all[k]);
      var m :| 0 <= m < |[cover] + extras| && ([cover] + extras)[m] == g[i];
      if m > 0 {
        assert extras[m - 1] == g[i];
      }
    }
    if cover != "" {
      assert all[0] == cover;
    }
    forall i | 0 <= i < |extras| ensures extras[i] in g {
      assert extras[i] == ([cover] + extras)[i + 1];
      assert extras[i] in all;
      var k :| 0 <= k < |all| && all[k] == extras[i];
    }
  }

  /** The initial image always belongs to the gallery, and there is one exactly when the gallery is not empty. */
  lemma InitialImageInGallery(car: CarView)
    ensures InitialImage(car).Some? <==> Gallery(Some(car)) != []
    ensures InitialImage(car).Some? ==> InitialImage(car).value in Gallery(Some(car))
  {
    var g := Gallery(Some(car));
    if Extras(car) != [] {
      assert Extras(car)[0] in g;
    }
    if g != [] && car.image == "" {
      var all := Filter([car.image] + Extras(car), Truthy);
      assert g[0] in all;
      assert all[0] in [car.image] + Extras(car);
      assert Extras(car) != [];
    }
  }

  /**
   * The image-reset effect: with a car and a non-empty gallery, an empty
   * selection or one no longer in the gallery becomes the gallery's first image.
   */
  function ResetTarget(car: Option<CarView>, image: Option<string>): (r: Option<string>)
    ensures car.Some? && Gallery(car) != [] ==> r.Some? && r.value in Gallery(car)
    ensures car.None? || Gallery(car) == [] ==> r == image
    ensures image.Some? && image.value in Gallery(car) ==> r == image
    ensures car.Some? && Gallery(car) != [] && (image.None? || image.value !in Gallery(car)) ==>
      r == Some(Gallery(car)[0])
  {
    if car.None? then image
    else
      var g := Gallery(car);
      if (image.None? || image.value == "") && |g| > 0 then Some(g[0])
      else if image.Some? && image.value != "" && |g| > 0 && image.value !in g then Some(g[0])
      else image
  }

  /** A second run of the effect changes nothing, so it settles after one step. */
  lemma ResetIdempotent(car: Option<CarView>, image: Option<string>)
    ensures ResetTarget(car, ResetTarget(car, image)) == ResetTarget(car, image)
  {
  }

  /** Right after loading, the effect keeps the chosen initial image. */
  lemma ResetKeepsInitialImage(car: CarView)
    ensures ResetTarget(Some(car), InitialImage(car)) == InitialImage(car)
  {
    InitialImageInGallery(car);
  }

  /**
   * `totalDays`: 0 when a date is empty or unparsable (the difference is NaN)
   * or when the return is not after the pickup; otherwise the difference in
   * days, a fraction when the times of day differ.
   */
  function TotalDays(pickup: string, returnDate: string, parseDate: string -> Option<int>): (r: real)
    ensures r >= 0.0
    ensures r > 0.0 <==>
      pickup != "" && returnDate != "" && parseDate(pickup).Some? && parseDate(returnDate).Some?
      && parseDate(pickup).value < parseDate(returnDate).value
    ensures r > 0.0 ==> r * (MS_PER_DAY as real) == (parseDate(returnDate).value - parseDate(pickup).value) as real
  {
    if pickup == "" || returnDate == "" then 0.0
    else match (parseDate(pickup), parseDate(returnDate))
      case (Some(start), Some(end)) =>
        var diff := (end - start) as real / (MS_PER_DAY as real);
        if diff > 0.0 then diff else 0.0
      case _ => 0.0
  }

  /** `totalPrice`: the days times the daily price; 0 without a car. */
  function TotalPrice(car: Option<CarView>, days: real): (r: real)
    ensures car.None? ==> r == 0.0
    ensures car.Some? ==> r == days * (car.value.pricePerDay as real)
    ensures car.Some? && car.value.pricePerDay >= 0 && days >= 0.0 ==> r >= 0.0
  {
    if car.None? then 0.0 else days * (car.value.pricePerDay as real)
  }

  /**
   * The page's estimate never exceeds what the server charges: the server
   * rounds the same interval up to whole days, so its day count is the
   * estimate rounded up.
   */
  lemma EstimateBelowServerDays(start: int, end: int)
    requires start < end
    ensures var days := (end - start) as real / (MS_PER_DAY as real);
      var charged := BookingController.BookingDays(start, end);
      (charged - 1) as real < days <= charged as real
  {
    var n := end - start;
    var m := MS_PER_DAY;
    var q := BookingController.BookingDays(start, end);
    assert m * (q - 1) < n <= m * q;
    var d := n as real / m as real;
    assert d * m as real == n as real;
    assert (m * q) as real == m as real * q as real;
    assert (m * (q - 1)) as real == m as real * (q - 1) as real;
  }

  /**
   * The price the page shows never exceeds what the server will charge for
   * the same dates, and falls short of it by less than one day's price.
   */
  lemma EstimateBelowServerPrice(car: CarView, pickup: string, returnDate: string, parseDate: string -> Option<int>)
    requires car.pricePerDay >= 0
    requires pickup != "" && returnDate != ""
    requires parseDate(pickup).Some? && parseDate(returnDate).Some?
    requires parseDate(pickup).value < parseDate(returnDate).value
    ensures var start, end := parseDate(pickup).value, parseDate(returnDate).value;
      var estimate := TotalPrice(Some(car), TotalDays(pickup, returnDate, parseDate));
      var charged := car.pricePerDay * BookingController.BookingDays(start, end);
      (charged - car.pricePerDay) as real <= estimate <= charged as real
  {
    var start, end := parseDate(pickup).value, parseDate(returnDate).value;
    var days := TotalDays(pickup, returnDate, parseDate);
    EstimateBelowServerDays(start, end);
    assert days == (end - start) as real / (MS_PER_DAY as real) by {
      assert days * (MS_PER_DAY as real) == (end - start) as real;
    }
    PriceBetween(days, BookingController.BookingDays(start, end), car.pricePerDay);
  }

  /** A day count within one below `q`, at a non-negative daily price, costs within one day's price below `q` days. */
  lemma PriceBetween(days: real, q: int, price: int)
    requires (q - 1) as real < days <= q as real && price >= 0
    ensures (price * q - price) as real <= days * (price as real) <= (price * q) as real
  {
    var p := price as real;
    NonNegativeProduct(q as real - days, p);
    NonNegativeProduct(days - (q - 1) as real, p);
    assert (q as real - days) * p == q as real * p - days * p;
    assert (days - (q - 1) as real) * p == days * p - (q - 1) as real * p;
    assert price * q - price == price * (q - 1);
    assert (price * q) as real == q as real * p;
    assert (price * (q - 1)) as real == (q - 1) as real * p;
  }

  lemma NonNegativeProduct(x: real, y: real)
    requires x >= 0.0 && y >= 0.0
    ensures x * y >= 0.0
  {
  }

  /** The selected image and the booking inputs of the page. */
  class DetailsPage {
    var car: Option<CarView>
    var image: Option<string>
    var pickup: string
    var returnDate: string

    constructor ()
      ensures car.None? && image.None? && pickup == "" && returnDate == ""
    {
      car := None;
      image := None;
      pickup := "";
      returnDate := "";
    }

    /** `fetchCar`: the car with the route's identity, and its initial image; nothing selected otherwise. */
    method LoadCar(response: Option<seq<CarView>>, routeId: string)
      modifies this
      ensures car == FindCar(response, routeId)
      ensures car.Some? ==> image == InitialImage(car.value)
      ensures car.None? ==> image == old(image)
      ensures pickup == old(pickup) && returnDate == old(returnDate)
    {
      var found := FindCar(response, routeId);
      if found.None? {
        car := None;
        return;
      }
      car := found;
      image := InitialImage(found.value);
    }

    /** The effect that keeps the selection inside the gallery. */
    method ResetImage()
      modifies this
      ensures image == ResetTarget(old(car), old(image))
      ensures car == old(car) && pickup == old(pickup) && returnDate == old(returnDate)
    {
      if car.None? {
        return;
      }
      var gallery := Gallery(car);
      if (image.None? || image.value == "") && |gallery| > 0 {
        image := Some(gallery[0]);
        return;
      }
      if image.Some? && image.value != "" && |gallery| > 0 && image.value !in gallery {
        image := Some(gallery[0]);
      }
    }
  }
}
