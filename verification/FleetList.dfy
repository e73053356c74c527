/**
 The public car list (apps/web/components/public-fleet.tsx): four filters, then one of three
 stable orders. Array.prototype.sort is stable (section 23.1.3.30 of ECMA-262); the list is
 modelled by an insertion sort, and shown to be the only list a stable sort can return.
 */
module FleetList {
  import opened Util

  datatype Car = Car(id: nat, category: string, seats: int, driver: string, dailyRate: real, available: bool)

  /** None is the choice "all". */
  datatype Filters = Filters(
    category: Option<string>, minSeats: Option<int>, driver: Option<string>, maxRate: Option<real>)

  datatype Order = Recommended | PriceLow | PriceHigh

  predicate Passes(f: Filters, car: Car) {
    && (f.category.Some? ==> car.category == f.category.value)
    && (f.minSeats.Some? ==> car.seats >= f.minSeats.value)
    && (f.driver.Some? ==> car.driver == f.driver.value)
    && (f.maxRate.Some? ==> car.dailyRate <= f.maxRate.value)
  }

  /** The comparator is the difference of these keys. */
  function KeyOf(order: Order, car: Car): real {
    match order
    case PriceLow => car.dailyRate
    case PriceHigh => -car.dailyRate
    case Recommended => if car.available then -1.0 else 0.0
  }

  function Compare(order: Order, first: Car, second: Car): real {
    match order
    case PriceLow => first.dailyRate - second.dailyRate
    case PriceHigh => second.dailyRate - first.dailyRate
    case Recommended =>
      (if second.available then 1.0 else 0.0) - (if first.available then 1.0 else 0.0)
  }

  lemma CompareIsKeys(order: Order, first: Car, second: Car)
    ensures Compare(order, first, second) == KeyOf(order, first) - KeyOf(order, second)
  {
  }

  // --------------------------------------------------------------- a stable sort

  function Insert(order: Order, car: Car, cars: seq<Car>): seq<Car> {
    if cars == [] || Compare(order, car, cars[0]) <= 0.0 then [car] + cars
    else [cars[0]] + Insert(order, car, cars[1..])
  }

  function Sort(order: Order, cars: seq<Car>): seq<Car> {
    if cars == [] then [] else Insert(order, cars[0], Sort(order, cars[1..]))
  }

  /** What the page lists. */
  function Listed(f: Filters, order: Order, fleet: seq<Car>): seq<Car> {
    Sort(order, Filter((car: Car) => Passes(f, car), fleet))
  }

  predicate Sorted(order: Order, cars: seq<Car>) {
    forall i, j :: 0 <= i < j < |cars| ==> Compare(order, cars[i], cars[j]) <= 0.0
  }

  function WithKey(order: Order, k: real, cars: seq<Car>): seq<Car> {
    Filter((car: Car) => KeyOf(order, car) == k, cars)
  }

  /** Cars with the same key come in the same order in both lists. */
  ghost predicate SameGroups(order: Order, a: seq<Car>, b: seq<Car>) {
    forall k :: WithKey(order, k, a) == WithKey(order, k, b)
  }

  /** What section 23.1.3.30 of ECMA-262 asks of the result of a sort. */
  ghost predicate IsStableSort(order: Order, cars: seq<Car>, result: seq<Car>) {
    Sorted(order, result) && SameGroups(order, result, cars)
  }

  lemma {:induction false} InsertMembers(order: Order, car: Car, cars: seq<Car>)
    ensures forall x :: x in Insert(order, car, cars) <==> x == car || x in cars
    ensures multiset(Insert(order, car, cars)) == multiset([car] + cars)
  {
    if cars != [] && Compare(order, car, cars[0]) > 0.0 {
      InsertMembers(order, car, cars[1..]);
      assert cars == [cars[0]] + cars[1..];
    }
  }

  lemma {:induction false} InsertSorted(order: Order, car: Car, cars: seq<Car>)
    requires Sorted(order, cars)
    ensures Sorted(order, Insert(order, car, cars))
  {
    if cars != [] && Compare(order, car, cars[0]) > 0.0 {
      var rest := Insert(order, car, cars[1..]);
      InsertSorted(order, car, cars[1..]);
      InsertMembers(order, car, cars[1..]);
      forall j | 0 <= j < |rest| ensures Compare(order, cars[0], rest[j]) <= 0.0 {
        assert rest[j] in rest;
      }
    }
  }

  lemma {:induction false} InsertGroups(order: Order, car: Car, cars: seq<Car>, k: real)
    ensures WithKey(order, k, Insert(order, car, cars)) == WithKey(order, k, [car] + cars)
  {
    var same := (c: Car) => KeyOf(order, c) == k;
    if cars != [] && Compare(order, car, cars[0]) > 0.0 {
      CompareIsKeys(order, car, cars[0]);
      InsertGroups(order, car, cars[1..], k);
      FilterConcat(same, [cars[0]], Insert(order, car, cars[1..]));
      FilterConcat(same, [car], cars[1..]);
      FilterConcat(same, [car], cars);
      FilterConcat(same, [cars[0]], cars[1..]);
      assert cars == [cars[0]] + cars[1..];
    }
  }

  lemma {:induction false} SortGroups(order: Order, cars: seq<Car>, k: real)
    ensures WithKey(order, k, Sort(order, cars)) == WithKey(order, k, cars)
  {
    if cars != [] {
      var same := (c: Car) => KeyOf(order, c) == k;
      var rest := Sort(order, cars[1..]);
      SortGroups(order, cars[1..], k);
      InsertGroups(order, cars[0], rest, k);
      FilterConcat(same, [cars[0]], rest);
      FilterConcat(same, [cars[0]], cars[1..]);
      assert cars == [cars[0]] + cars[1..];
    }
  }

  lemma {:induction false} SortOrdered(order: Order, cars: seq<Car>)
    ensures Sorted(order, Sort(order, cars))
    ensures multiset(Sort(order, cars)) == multiset(cars)
  {
    if cars != [] {
      SortOrdered(order, cars[1..]);
      InsertSorted(order, cars[0], Sort(order, cars[1..]));
      InsertMembers(order, cars[0], Sort(order, cars[1..]));
      assert cars == [cars[0]] + cars[1..];
    }
  }

  lemma SortIsStable(order: Order, cars: seq<Car>)
    ensures IsStableSort(order, cars, Sort(order, cars))
  {
    SortOrdered(order, cars);
    forall k ensures WithKey(order, k, Sort(order, cars)) == WithKey(order, k, cars) {
      SortGroups(order, cars, k);
    }
  }

  // ------------------------------------------------------------- there is only one

  lemma GroupHead(order: Order, cars: seq<Car>)
    requires cars != []
    ensures var g := WithKey(order, KeyOf(order, cars[0]), cars); g != [] && g[0] == cars[0]
  {
  }

  /** The first car of a sorted list has the least key of the list. */
  lemma HeadsAgree(order: Order, a: seq<Car>, b: seq<Car>)
    requires Sorted(order, a) && Sorted(order, b) && SameGroups(order, a, b) && a != []
    ensures b != [] && a[0] == b[0]
  {
    var ka := KeyOf(order, a[0]);
    GroupHead(order, a);
    assert WithKey(order, ka, b) == WithKey(order, ka, a);
    assert WithKey(order, ka, b)[0] in WithKey(order, ka, b);
    var kb := KeyOf(order, b[0]);
    GroupHead(order, b);
    assert WithKey(order, kb, a) == WithKey(order, kb, b);
    assert WithKey(order, kb, a)[0] in WithKey(order, kb, a);
    LeastKey(order, a, b[0]);
    LeastKey(order, b, a[0]);
  }

  lemma LeastKey(order: Order, cars: seq<Car>, car: Car)
    requires Sorted(order, cars) && car in cars
    ensures KeyOf(order, cars[0]) <= KeyOf(order, car)
  {
    var i :| 0 <= i < |cars| && cars[i] == car;
    CompareIsKeys(order, cars[0], car);
  }

  lemma TailGroups(order: Order, a: seq<Car>, b: seq<Car>)
    requires SameGroups(order, a, b) && a != [] && b != [] && a[0] == b[0]
    ensures SameGroups(order, a[1..], b[1..])
  {
    forall k ensures WithKey(order, k, a[1..]) == WithKey(order, k, b[1..]) {
      assert WithKey(order, k, a) == WithKey(order, k, b);
      var head := if KeyOf(order, a[0]) == k then [a[0]] else [];
      assert WithKey(order, k, a) == head + WithKey(order, k, a[1..]);
      assert WithKey(order, k, b) == head + WithKey(order, k, b[1..]);
      assert WithKey(order, k, a)[|head|..] == WithKey(order, k, b)[|head|..];
    }
  }

  /** Two sorted lists with the same groups are the same list: a stable sort has one result. */
  lemma {:induction false} StableSortUnique(order: Order, a: seq<Car>, b: seq<Car>)
    requires Sorted(order, a) && Sorted(order, b) && SameGroups(order, a, b)
    ensures a == b
    decreases |a| + |b|
  {
    if a != [] {
      HeadsAgree(order, a, b);
      TailGroups(order, a, b);
      StableSortUnique(order, a[1..], b[1..]);
      assert a == [a[0]] + a[1..] && b == [b[0]] + b[1..];
    } else if b != [] {
      HeadsAgree(order, b, a);
    }
  }

  /** Whatever stable sort the engine uses, the page lists what Listed says. */
  lemma ListedIsTheSort(f: Filters, order: Order, fleet: seq<Car>, result: seq<Car>)
    ensures IsStableSort(order, Filter((car: Car) => Passes(f, car), fleet), result) <==> result == Listed(f, order, fleet)
  {
    var kept := Filter((car: Car) => Passes(f, car), fleet);
    SortIsStable(order, kept);
    if IsStableSort(order, kept, result) {
      assert forall k :: WithKey(order, k, result) == WithKey(order, k, kept) == WithKey(order, k, Sort(order, kept));
      StableSortUnique(order, result, Sort(order, kept));
    }
  }

  // ------------------------------------------------------ filters and the order

  lemma {:induction false} FilterSwap(p: Car -> bool, q: Car -> bool, cars: seq<Car>)
    ensures Filter(p, Filter(q, cars)) == Filter(q, Filter(p, cars))
  {
    if cars != [] {
      FilterSwap(p, q, cars[1..]);
    }
  }

  lemma {:induction false} FilterKeepsSorted(order: Order, p: Car -> bool, cars: seq<Car>)
    requires Sorted(order, cars)
    ensures Sorted(order, Filter(p, cars))
  {
    if cars != [] {
      var rest := Filter(p, cars[1..]);
      FilterKeepsSorted(order, p, cars[1..]);
      forall j | 0 <= j < |rest| ensures Compare(order, cars[0], rest[j]) <= 0.0 {
        assert rest[j] in rest;
      }
    }
  }

  /** Filtering before or after the sort is the same. */
  lemma FilterCommutes(order: Order, p: Car -> bool, cars: seq<Car>)
    ensures Filter(p, Sort(order, cars)) == Sort(order, Filter(p, cars))
  {
    var late, early := Filter(p, Sort(order, cars)), Sort(order, Filter(p, cars));
    SortIsStable(order, cars);
    SortIsStable(order, Filter(p, cars));
    FilterKeepsSorted(order, p, Sort(order, cars));
    forall k ensures WithKey(order, k, late) == WithKey(order, k, early) {
      var same := (c: Car) => KeyOf(order, c) == k;
      FilterSwap(same, p, Sort(order, cars));
      FilterSwap(same, p, cars);
      assert WithKey(order, k, Sort(order, cars)) == WithKey(order, k, cars);
      assert WithKey(order, k, early) == WithKey(order, k, Filter(p, cars));
    }
    StableSortUnique(order, late, early);
  }

  /** g asks for at least what f asks for, filter by filter. */
  predicate Tighter(f: Filters, g: Filters) {
    && (f.category.Some? ==> g.category == f.category)
    && (f.minSeats.Some? ==> g.minSeats.Some? && g.minSeats.value >= f.minSeats.value)
    && (f.driver.Some? ==> g.driver == f.driver)
    && (f.maxRate.Some? ==> g.maxRate.Some? && g.maxRate.value <= f.maxRate.value)
  }

  /** A car that g lets through, with the given fields where g does not care. */
  function Witness(g: Filters, category: string, seats: int, driver: string, rate: real): Car {
    Car(0, if g.category.Some? then g.category.value else category,
        if g.minSeats.Some? then g.minSeats.value else seats,
        if g.driver.Some? then g.driver.value else driver,
        if g.maxRate.Some? then g.maxRate.value else rate, true)
  }

  /** Tighter is exactly: letting through no car that f keeps out. */
  lemma TighterMeansFewer(f: Filters, g: Filters)
    ensures Tighter(f, g) <==> forall car :: Passes(g, car) ==> Passes(f, car)
  {
    var category := if f.category.Some? then f.category.value + "x" else "";
    var driver := if f.driver.Some? then f.driver.value + "x" else "";
    var seats := if f.minSeats.Some? then f.minSeats.value - 1 else 0;
    var rate := if f.maxRate.Some? then f.maxRate.value + 1.0 else 0.0;
    var car := Witness(g, category, seats, driver, rate);
    assert Passes(g, car);
    if !Tighter(f, g) {
      assert f.category.Some? ==> category != f.category.value by {
        if f.category.Some? { assert |category| == |f.category.value| + 1; }
      }
      assert f.driver.Some? ==> driver != f.driver.value by {
        if f.driver.Some? { assert |driver| == |f.driver.value| + 1; }
      }
      assert !Passes(f, car);
    }
  }

  /**
   Tightening filters under an unchanged order only drops cards: the tighter list is the looser
   one with some cards left out, and no surviving card moves.
   */
  lemma TighteningDrops(f: Filters, g: Filters, order: Order, fleet: seq<Car>)
    requires Tighter(f, g)
    ensures Listed(g, order, fleet) == Filter((car: Car) => Passes(g, car), Listed(f, order, fleet))
  {
    var pf, pg := (car: Car) => Passes(f, car), (car: Car) => Passes(g, car);
    TighterMeansFewer(f, g);
    FilterDrops(pf, pg, pg, fleet);
    FilterCommutes(order, pg, Filter(pf, fleet));
  }

  /** The list is a sorted rearrangement of the cars that pass, whichever order is chosen. */
  lemma ListedIsSorted(f: Filters, order: Order, fleet: seq<Car>)
    ensures Sorted(order, Listed(f, order, fleet))
    ensures multiset(Listed(f, order, fleet)) == multiset(Filter((car: Car) => Passes(f, car), fleet))
    ensures forall car :: car in Listed(f, order, fleet) <==> car in fleet && Passes(f, car)
  {
    var kept := Filter((car: Car) => Passes(f, car), fleet);
    SortOrdered(order, kept);
    forall car ensures car in Sort(order, kept) <==> car in kept {
      assert car in Sort(order, kept) <==> multiset(Sort(order, kept))[car] > 0;
    }
  }
}
