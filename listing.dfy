/** What the car-listing sections share: the response extraction that
    CategoryCars, RegularCars and Economy each carry a copy of, the
    filter-then-transform pipeline, and the `cars` / `loading` / `error`
    state their fetch effect updates. */
module Listing {

  import opened Wrappers
  import opened Json
  import opened Sequences
  import opened Cars

  /** What `carService.getAllCars()` settles to: the response body, or a
      rejection (network failure, HTTP error status). */
  datatype Fetch = Received(body: Json) | Rejected

  /** The components' extraction; `None` where it throws. The four rules
      are tried in order: the paginated envelope's `data.data`, a truthy
      `data.cars`, an array `data`, an array body. A truthy `data.cars`
      that is not an array is taken and then throws at `.filter`. */
  function ExtractCars(v: Json): (r: Option<seq<Json>>)
    ensures PaginatedCars(v).Some? ==> r == PaginatedCars(v)
    ensures PaginatedCars(v).None? && Truthy(CarsField(v)) ==> r == AsArray(CarsField(v))
    ensures PaginatedCars(v).None? && !Truthy(CarsField(v)) && AsArray(DataField(v)).Some? ==>
      r == AsArray(DataField(v))
    ensures PaginatedCars(v).None? && !Truthy(CarsField(v)) && AsArray(DataField(v)).None? && v.Arr? ==>
      r == Some(v.items)
    ensures r.None? <==>
      && PaginatedCars(v).None?
      && (if Truthy(CarsField(v)) then !CarsField(v).value.Arr?
          else AsArray(DataField(v)).None? && !v.Arr?)
    ensures r.Some? ==> v.Arr? || v.Obj?
  {
    if PaginatedCars(v).Some? then PaginatedCars(v)
    else if Truthy(CarsField(v)) then AsArray(CarsField(v))
    else if AsArray(DataField(v)).Some? then AsArray(DataField(v))
    else if v.Arr? then Some(v.items)
    else None
  }

  /** The service's extraction (which takes any truthy `data` and lets the
      filter throw on a non-array) succeeds on exactly the same bodies,
      with the same list. */
  lemma ExtractAgreesWithService(v: Json)
    ensures ExtractCars(v) == ServiceExtract(v)
  {
  }

  /** Wherever the components' extraction succeeds, `normalizeCarData`
      finds the same list; it differs only where the components throw
      (a falsy body, a non-array `data.cars`, an unknown shape), and there
      it yields a list instead. */
  lemma ExtractAgreesWithNormalize(v: Json)
    ensures ExtractCars(v).Some? ==> Normalize(v) == ExtractCars(v).value
  {
  }

  /** No record of `cars` is `null`. */
  predicate NoNull(cars: seq<Json>) {
    forall i :: 0 <= i < |cars| ==> cars[i] != Null
  }

  /** `cars.map(car => carService.transformCarData(car))`. */
  function TransformAll(cars: seq<Json>, currentYear: int): (r: seq<Car>)
    requires NoNull(cars)
    ensures |r| == |cars|
    ensures forall i :: 0 <= i < |cars| ==> r[i] == TransformCar(cars[i], currentYear)
  {
    if cars == [] then []
    else TransformAll(cars[..|cars| - 1], currentYear) + [TransformCar(cars[|cars| - 1], currentYear)]
  }

  /** `cars.filter(keep).map(transformCarData)`; `None` where reading some
      record's category throws. */
  function Show(cars: seq<Json>, keep: Json -> bool, currentYear: int): (r: Option<seq<Car>>)
    ensures r.Some? <==> Readable(cars)
    ensures r.Some? ==> |r.value| <= |cars|
  {
    if Readable(cars) then
      var kept := Filter(cars, keep);
      assert NoNull(kept) by {
        forall i | 0 <= i < |kept| ensures kept[i] != Null {
          assert kept[i] in cars;
        }
      }
      Some(TransformAll(kept, currentYear))
    else None
  }

  /** The shown list is the transformed records at exactly the positions
      that `keep` accepts, in their original order. */
  lemma {:induction false} ShowSelects(cars: seq<Json>, keep: Json -> bool, currentYear: int)
    requires Readable(cars)
    ensures var r := Show(cars, keep, currentYear).value; var idx := Kept(cars, keep);
      && |r| == |idx|
      && (forall k :: 0 <= k < |idx| ==> idx[k] < |cars| && r[k] == TransformCar(cars[idx[k]], currentYear))
      && (forall k, l :: 0 <= k < l < |idx| ==> idx[k] < idx[l])
      && (forall i :: 0 <= i < |cars| ==> (i in idx <==> keep(cars[i])))
  {
    FilterKeeps(cars, keep);
  }

  /** The state of one listing section. */
  class View {
    var cars: seq<Car>
    var loading: bool
    var error: Option<string>

    /** The initial state: nothing shown, loading. */
    constructor ()
      ensures cars == [] && loading && error == None
    {
      cars := [];
      loading := true;
      error := None;
    }

    /** The end of a fetch effect: `setCars(list)` on success,
        `setError(message)` on a throw, then `setLoading(false)`. A success
        leaves an earlier error in place, and a failure leaves the earlier
        list in place. */
    method Settle(outcome: Option<seq<Car>>, message: string)
      modifies this
      ensures !loading
      ensures outcome.Some? ==> cars == outcome.value && error == old(error)
      ensures outcome.None? ==> cars == old(cars) && error == Some(message)
    {
      match outcome {
        case Some(list) => cars := list;
        case None => error := Some(message);
      }
      loading := false;
    }
  }
}
