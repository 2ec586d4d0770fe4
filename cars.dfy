/** The car service: turning an untyped `GET /cars` body into a list of
    raw records, defaulting one raw record into a `Car`, building an image
    URL, and the service-side category filter. */
module Cars {

  import opened Wrappers
  import opened Json
  import opened Text
  import opened Sequences

  /** The record the views display. The fields hold whatever JSON value the
      raw record carried: nothing checks the declared field types at run
      time, so a truthy field of any kind is copied as it is. `id` is
      absent when neither `id` nor `_id` is present. */
  datatype Car = Car(
    id: Option<Json>,
    model: Json,
    year: Json,
    dailyRate: Json,
    imageUrl: Json,
    available: Json,
    category: Json,
    seats: Json,
    doors: Json,
    fuelType: Json,
    transmission: Json,
    description: Json,
    status: Json)

  // ---------------------------------------------------------------------
  // Record defaulting

  /** `v` is the property `raw` when that is truthy, and `default` otherwise. */
  predicate Defaulted(raw: Option<Json>, v: Json, default: Json) {
    (Truthy(raw) && Some(v) == raw) || (!Truthy(raw) && v == default)
  }

  /** The `available` flag: a boolean becomes 1 or 0, any other falsy value
      (absent, `null`, `0`, `""`) becomes 1, anything else is kept. */
  function Availability(raw: Option<Json>): (v: Json)
    ensures raw == Some(Bool(true)) ==> v == Num(1)
    ensures raw == Some(Bool(false)) ==> v == Num(0)
    ensures !Truthy(raw) && raw != Some(Bool(false)) ==> v == Num(1)
    ensures Truthy(raw) && !raw.value.Bool? ==> Some(v) == raw
  {
    match raw
    case Some(Bool(b)) => Num(if b then 1 else 0)
    case _ => OrElse(raw, Num(1))
  }

  /** `car.status !== undefined ? car.status : 1`: kept whenever present,
      even when it is `0` or `null`. */
  function Status(raw: Option<Json>): (v: Json)
    ensures raw.Some? ==> v == raw.value
    ensures raw.None? ==> v == Num(1)
  {
    match raw
    case Some(s) => s
    case None => Num(1)
  }

  /** `transformCarData`. Reading a property of `null` throws, so every
      caller has dealt with a `null` record before it gets here. The
      clock's current year is the parameter `currentYear`. */
  function TransformCar(car: Json, currentYear: int): (c: Car)
    requires car != Null
    ensures c.id == Or(Get(Some(car), "id"), Get(Some(car), "_id"))
    ensures Defaulted(Get(Some(car), "model"), c.model, Str("Unknown Model"))
    ensures Defaulted(Get(Some(car), "year"), c.year, Num(currentYear))
    ensures Defaulted(Or(Get(Some(car), "daily_rate"), Get(Some(car), "price")), c.dailyRate, Str("0"))
    ensures Defaulted(Or(Get(Some(car), "image_url"), Get(Some(car), "image")), c.imageUrl, Str(""))
    ensures c.available == Availability(Get(Some(car), "available"))
    ensures Defaulted(Get(Some(car), "category"), c.category, Str("Unknown"))
    ensures Defaulted(Get(Some(car), "seats"), c.seats, Num(4))
    ensures Defaulted(Get(Some(car), "doors"), c.doors, Num(4))
    ensures Defaulted(Get(Some(car), "fuel_type"), c.fuelType, Str("Gasoline"))
    ensures Defaulted(Get(Some(car), "transmission"), c.transmission, Str("Manual"))
    ensures Defaulted(Get(Some(car), "description"), c.description, Str(""))
    ensures c.status == Status(Get(Some(car), "status"))
  {
    var v := Some(car);
    Car(
      id := Or(Get(v, "id"), Get(v, "_id")),
      model := OrElse(Get(v, "model"), Str("Unknown Model")),
      year := OrElse(Get(v, "year"), Num(currentYear)),
      dailyRate := OrElse(Or(Get(v, "daily_rate"), Get(v, "price")), Str("0")),
      imageUrl := OrElse(Or(Get(v, "image_url"), Get(v, "image")), Str("")),
      available := Availability(Get(v, "available")),
      category := OrElse(Get(v, "category"), Str("Unknown")),
      seats := OrElse(Get(v, "seats"), Num(4)),
      doors := OrElse(Get(v, "doors"), Num(4)),
      fuelType := OrElse(Get(v, "fuel_type"), Str("Gasoline")),
      transmission := OrElse(Get(v, "transmission"), Str("Manual")),
      description := OrElse(Get(v, "description"), Str("")),
      status := Status(Get(v, "status")))
  }

  /** Whatever the raw record holds, the fields a car card prints always
      have a value: model, category, rate, seats, doors, fuel type and
      transmission are never falsy, and the availability flag is never
      falsy unless the record said `false`. */
  lemma TransformComplete(car: Json, currentYear: int)
    requires car != Null
    ensures var c := TransformCar(car, currentYear);
      && Truthy(Some(c.model)) && Truthy(Some(c.category))
      && Truthy(Some(c.dailyRate)) && Truthy(Some(c.seats)) && Truthy(Some(c.doors))
      && Truthy(Some(c.fuelType)) && Truthy(Some(c.transmission))
      && (Truthy(Some(c.available)) || Get(Some(car), "available") == Some(Bool(false)))
  {
  }

  /** A record whose `available` is the number 0 is shown as available (1):
      only the boolean `false` marks a car unavailable. */
  lemma ZeroAvailabilityShownAvailable(currentYear: int)
    ensures TransformCar(Obj([("available", Num(0))]), currentYear).available == Num(1)
    ensures TransformCar(Obj([("available", Bool(false))]), currentYear).available == Num(0)
  {
  }

  // ---------------------------------------------------------------------
  // Image URLs

  const Placeholder := "https://via.placeholder.com/400x300?text=No+Image"
  const DefaultApiUrl := "http://localhost:8000/api/v1"

  /** The API URL with its first "/api/v1" removed; an unset or empty
      environment setting (`envApiUrl == ""`) means the local default. */
  function BaseUrl(envApiUrl: string): (r: string)
  {
    ReplaceFirst(if envApiUrl != "" then envApiUrl else DefaultApiUrl, "/api/v1", "")
  }

  /** `getImageUrl`. Both relative branches of the source (an `upload/`
      path and any other path) build the same string. */
  function ImageUrl(imageUrl: string, envApiUrl: string): (r: string)
    ensures imageUrl == "" ==> r == Placeholder
    ensures imageUrl != "" && ("http://" <= imageUrl || "https://" <= imageUrl) ==> r == imageUrl
    ensures imageUrl != "" && !("http://" <= imageUrl || "https://" <= imageUrl) ==>
      r == BaseUrl(envApiUrl) + "/" + imageUrl
  {
    if imageUrl == "" then Placeholder
    else if "http://" <= imageUrl || "https://" <= imageUrl then imageUrl
    else if "upload/" <= imageUrl then BaseUrl(envApiUrl) + "/" + imageUrl
    else BaseUrl(envApiUrl) + "/" + imageUrl
  }

  // ---------------------------------------------------------------------
  // Envelope shapes

  /** `v?.success === true && v?.data?.data && Array.isArray(v.data.data)`:
      the paginated envelope's list. */
  function PaginatedCars(v: Json): (r: Option<seq<Json>>)
    ensures r.Some? <==>
      && Get(Some(v), "success") == Some(Bool(true))
      && AsArray(Get(Get(Some(v), "data"), "data")).Some?
    ensures r.Some? ==>
      && Get(Some(v), "success") == Some(Bool(true))
      && Get(Get(Some(v), "data"), "data") == Some(Arr(r.value))
  {
    if Get(Some(v), "success") == Some(Bool(true)) then AsArray(Get(Get(Some(v), "data"), "data"))
    else None
  }

  /** `v?.data?.cars`. */
  function CarsField(v: Json): Option<Json> {
    Get(Get(Some(v), "data"), "cars")
  }

  /** `v?.data`. */
  function DataField(v: Json): Option<Json> {
    Get(Some(v), "data")
  }

  /** `r` is `arrays[k]`, and every later array is strictly shorter. */
  predicate LastLongestAt(arrays: seq<seq<Json>>, k: int, r: seq<Json>) {
    0 <= k < |arrays| && arrays[k] == r && forall j :: k < j < |arrays| ==> |arrays[j]| < |r|
  }

  /** `possibleArrays.reduce((a, b) => a.length > b.length ? a : b)`: the
      running choice is replaced unless it is strictly longer, so the last
      of the longest arrays wins. */
  function Longest(arrays: seq<seq<Json>>): (r: seq<Json>)
    requires |arrays| > 0
    ensures forall j :: 0 <= j < |arrays| ==> |arrays[j]| <= |r|
    ensures exists k :: LastLongestAt(arrays, k, r)
  {
    if |arrays| == 1 then
      assert LastLongestAt(arrays, 0, arrays[0]);
      arrays[0]
    else
      var a := Longest(arrays[..|arrays| - 1]);
      var b := arrays[|arrays| - 1];
      if |a| > |b| then
        KeepsLongest(arrays, arrays[..|arrays| - 1], a);
        a
      else
        assert LastLongestAt(arrays, |arrays| - 1, b);
        b
  }

  /** A choice that stays longest when one more, shorter array arrives
      keeps its position. */
  lemma KeepsLongest(arrays: seq<seq<Json>>, init: seq<seq<Json>>, a: seq<Json>)
    requires |arrays| > 1 && init == arrays[..|arrays| - 1] && |a| > |arrays[|arrays| - 1]|
    requires exists k :: LastLongestAt(init, k, a)
    ensures exists k :: LastLongestAt(arrays, k, a)
  {
    var k :| LastLongestAt(init, k, a);
    assert LastLongestAt(arrays, k, a);
  }

  /** `normalizeCarData`: never throws and always yields an array. The
      first matching rule wins:
        1. the paginated envelope's `data.data`;
        2. a truthy `data.cars`, which yields [] when it is not an array;
        3. `data` when it is an array;
        4. the value itself when it is an array;
        5. for any other object, its longest array-valued property (the
           last of equally long ones), or [] without one.
      A falsy value, and a truthy boolean, number or string, yield []. */
  function Normalize(data: Json): (r: seq<Json>)
  {
    if !Truthy(Some(data)) then []
    else if PaginatedCars(data).Some? then PaginatedCars(data).value
    else if Truthy(CarsField(data)) then
      (match AsArray(CarsField(data)) case Some(items) => items case None => [])
    else if AsArray(DataField(data)).Some? then AsArray(DataField(data)).value
    else if data.Arr? then data.items
    else if data.Obj? then
      var arrays := ArraysAmong(OwnValues(data.fields));
      if |arrays| > 0 then Longest(arrays) else []
    else []
  }

  /** The priority order of `Normalize`, rule by rule: each rule applies
      exactly when every earlier one does not, and then decides the result. */
  lemma NormalizePriority(data: Json)
    ensures !Truthy(Some(data)) ==> Normalize(data) == []
    ensures Truthy(Some(data)) && PaginatedCars(data).Some? ==>
      Normalize(data) == PaginatedCars(data).value
    ensures Truthy(Some(data)) && PaginatedCars(data).None? && Truthy(CarsField(data)) ==>
      Normalize(data) == (if CarsField(data).value.Arr? then CarsField(data).value.items else [])
    ensures (Truthy(Some(data)) && PaginatedCars(data).None? && !Truthy(CarsField(data))
             && AsArray(DataField(data)).Some?) ==>
      Normalize(data) == AsArray(DataField(data)).value
    ensures data.Arr? && PaginatedCars(data).None? ==> Normalize(data) == data.items
    ensures data.Bool? || data.Num? || data.Str? ==> Normalize(data) == []
  {
  }

  /** When no envelope rule applies to an object, the result is one of its
      own array-valued properties, at least as long as every other one and
      strictly longer than every later one; without any, it is []. */
  lemma {:induction false} NormalizeFallback(data: Json)
    requires data.Obj?
    requires PaginatedCars(data).None? && !Truthy(CarsField(data))
    requires AsArray(DataField(data)).None?
    ensures var vals := OwnValues(data.fields); var r := Normalize(data);
      (forall x :: x in vals ==> !x.Arr?) ==> r == []
    ensures var arrays := ArraysAmong(OwnValues(data.fields)); var r := Normalize(data);
      |arrays| > 0 ==>
        && Arr(r) in OwnValues(data.fields)
        && (forall a :: a in arrays ==> |a| <= |r|)
        && exists k :: LastLongestAt(arrays, k, r)
  {
    var vals := OwnValues(data.fields);
    var arrays := ArraysAmong(vals);
    if |arrays| > 0 {
      var r := Longest(arrays);
      assert r in arrays;
    } else {
      forall x | x in vals ensures !x.Arr? {
      }
    }
  }

  /** A truthy `data.cars` that is not an array does not fall through to
      the later rules: the result is [] even when `data` or the value
      itself holds a list. */
  lemma CarsFieldBlocksLaterRules(list: seq<Json>)
    requires |list| > 0
    ensures Normalize(Obj([("data", Obj([("cars", Str("x")), ("data", Arr(list))]))])) == []
  {
  }

  // ---------------------------------------------------------------------
  // The service's category filter

  /** `(car.category || '').toLowerCase()`, or `None` where that throws:
      the record is `null`, or its category is truthy but not a string. */
  function CategoryKey(car: Json): (r: Option<string>)
    ensures r.Some? ==> car != Null
    ensures r == Some("") <== car != Null && !Truthy(Get(Some(car), "category"))
    ensures car != Null && Truthy(Get(Some(car), "category")) && Get(Some(car), "category").value.Str? ==>
      r == Some(Lower(Get(Some(car), "category").value.s))
    ensures car != Null && Truthy(Get(Some(car), "category")) && !Get(Some(car), "category").value.Str? ==>
      r.None?
  {
    if car.Null? then None
    else
      var c := Get(Some(car), "category");
      if !Truthy(c) then Some("")
      else if c.value.Str? then Some(Lower(c.value.s))
      else None
  }

  /** Every record of `cars` has a category key that can be computed. */
  predicate Readable(cars: seq<Json>) {
    forall i :: 0 <= i < |cars| ==> CategoryKey(cars[i]).Some?
  }

  /** Equal, or either string contains the other (after lower-casing). */
  predicate LooseMatch(key: string, requested: string) {
    key == requested || Contains(key, requested) || Contains(requested, key)
  }

  predicate MatchesRequest(car: Json, requested: string) {
    CategoryKey(car).Some? && LooseMatch(CategoryKey(car).value, requested)
  }

  /** The extraction of `getCarsByCategory`; `None` where it throws. A
      truthy `data.cars` or `data` that is not an array throws at the
      following `.filter`. */
  function ServiceExtract(v: Json): (r: Option<seq<Json>>)
  {
    if PaginatedCars(v).Some? then PaginatedCars(v)
    else if Truthy(CarsField(v)) then AsArray(CarsField(v))
    else if Truthy(DataField(v)) then AsArray(DataField(v))
    else if v.Arr? then Some(v.items)
    else None
  }

  /** `getCarsByCategory` applied to the body `getAllCars` resolved with;
      `None` where it rethrows. */
  function CarsByCategory(body: Json, category: string): (r: Option<seq<Json>>)
    ensures r.Some? <==> ServiceExtract(body).Some? && Readable(ServiceExtract(body).value)
    ensures r.Some? ==> |r.value| <= |ServiceExtract(body).value|
  {
    match ServiceExtract(body)
    case None => None
    case Some(cars) =>
      if Readable(cars) then Some(Filter(cars, car => MatchesRequest(car, Lower(category)))) else None
  }

  /** The service keeps exactly the records whose lower-cased category
      equals, contains or is contained in the lower-cased request, in their
      original order. */
  lemma CarsByCategoryKeeps(body: Json, category: string)
    requires CarsByCategory(body, category).Some?
    ensures var cars := ServiceExtract(body).value;
      var p := car => MatchesRequest(car, Lower(category));
      SelectsExactly(cars, p, CarsByCategory(body, category).value, Kept(cars, p))
      && forall i :: 0 <= i < |cars| ==>
           (i in Kept(cars, p) <==> LooseMatch(CategoryKey(cars[i]).value, Lower(category)))
  {
    var cars := ServiceExtract(body).value;
    var p := car => MatchesRequest(car, Lower(category));
    FilterKeeps(cars, p);
  }

  /** A record without a category (or with an empty one) matches every
      request, because every string contains "". */
  lemma UncategorisedMatchesAll(car: Json, requested: string)
    requires CategoryKey(car) == Some("")
    ensures MatchesRequest(car, requested)
  {
    assert OccursAt(requested, "", 0);
  }
}
