/**
 * The gym list page: the filter-and-sort pipeline that recomputes the shown
 * gyms from the catalog whenever the filter record changes.
 */
module GymsList {
  import opened Common
  import opened Types
  import Catalog

  /** The filter record. `category` is the empty string when unset: the
      source's `undefined` and `''` are both falsy and behave alike. */
  datatype FilterOptions = FilterOptions(
    search: string,
    amenities: seq<string>,
    priceRange: (real, real),
    sortBy: string,
    category: string)

  const InitialFilters: FilterOptions := FilterOptions("", [], (0.0, 200.0), "distance", "")

  // ---------------------------------------------------------------------
  // The four filter predicates

  /** Lower-cased name or address contains the lower-cased search. */
  predicate MatchesSearch(g: Gym, search: string) {
    var q := ToLower(search);
    Contains(ToLower(g.name), q) || Contains(ToLower(g.location.address), q)
  }

  predicate HasAmenities(g: Gym, amenities: seq<string>) {
    forall a :: a in amenities ==> a in g.amenities
  }

  predicate InPriceRange(g: Gym, range: (real, real)) {
    range.0 <= g.price && g.price <= range.1
  }

  function SearchPass(f: FilterOptions): Gym -> bool {
    (g: Gym) => f.search == "" || MatchesSearch(g, f.search)
  }

  function AmenityPass(f: FilterOptions): Gym -> bool {
    (g: Gym) => HasAmenities(g, f.amenities)
  }

  function PricePass(f: FilterOptions): Gym -> bool {
    (g: Gym) => InPriceRange(g, f.priceRange)
  }

  function CategoryPass(f: FilterOptions): Gym -> bool {
    (g: Gym) => f.category == "" || f.category in g.categories
  }

  /** The conjunction of the four predicates: the reference definition. */
  predicate Matches(f: FilterOptions, g: Gym) {
    (f.search == "" || MatchesSearch(g, f.search)) && HasAmenities(g, f.amenities) &&
    InPriceRange(g, f.priceRange) && (f.category == "" || f.category in g.categories)
  }

  function MatchesPass(f: FilterOptions): Gym -> bool {
    (g: Gym) => Matches(f, g)
  }

  // ---------------------------------------------------------------------
  // The pipeline as written: guarded filter steps, then the sort

  function FilterSteps(gyms: seq<Gym>, f: FilterOptions): seq<Gym> {
    var s1 := if f.search != "" then Filter(gyms, SearchPass(f)) else gyms;
    var s2 := if |f.amenities| > 0 then Filter(s1, AmenityPass(f)) else s1;
    var s3 := Filter(s2, PricePass(f));
    if f.category != "" then Filter(s3, CategoryPass(f)) else s3
  }

  /** The comparator `a.price - b.price`, `b.rating - a.rating` or `0`, as the
      key it orders by. */
  function SortKey(sortBy: string, g: Gym): real {
    if sortBy == "price" then g.price
    else if sortBy == "rating" then -g.rating
    else 0.0
  }

  /** The key of the chosen sort order, as a function the sort applies. */
  function Comparator(sortBy: string): (key: Gym -> real)
    ensures sortBy != "price" && sortBy != "rating" ==> forall g :: key(g) == 0.0
  {
    (g: Gym) => SortKey(sortBy, g)
  }

  /** Inserts `g` after every element whose key is not above its own: the
      step of a stable sort. */
  function Insert(key: Gym -> real, s: seq<Gym>, g: Gym): seq<Gym>
    decreases |s|
  {
    if s == [] || key(s[|s| - 1]) <= key(g) then s + [g]
    else Insert(key, s[..|s| - 1], g) + [s[|s| - 1]]
  }

  /** `Array.prototype.sort`, which is stable. */
  function SortGyms(key: Gym -> real, s: seq<Gym>): seq<Gym>
    decreases |s|
  {
    if s == [] then [] else Insert(key, SortGyms(key, s[..|s| - 1]), s[|s| - 1])
  }

  function Pipeline(gyms: seq<Gym>, f: FilterOptions): seq<Gym> {
    SortGyms(Comparator(f.sortBy), FilterSteps(gyms, f))
  }

  /** What the page shows for a filter record. */
  function ShownGyms(f: FilterOptions): seq<Gym> {
    Pipeline(Catalog.MockGyms, f)
  }

  predicate SortedByKey(key: Gym -> real, s: seq<Gym>) {
    forall i, j :: 0 <= i < j < |s| ==> key(s[i]) <= key(s[j])
  }

  // ---------------------------------------------------------------------
  // Filtering

  /** The guarded chain equals one filter by the conjunction, so neither the
      guards nor the order of the steps matter. */
  /** A filter step skipped under a guard that implies every gym passes is
      the same as the step taken. */
  lemma GuardedFilter(s: seq<Gym>, p: Gym -> bool, guard: bool)
    requires !guard ==> forall g :: p(g)
    ensures (if guard then Filter(s, p) else s) == Filter(s, p)
  {
    if !guard {
      FilterAllPass(s, p);
    }
  }

  lemma FilterStepsIsConjunction(gyms: seq<Gym>, f: FilterOptions)
    ensures FilterSteps(gyms, f) == Filter(gyms, MatchesPass(f))
  {
    var sp, ap, pp, cp := SearchPass(f), AmenityPass(f), PricePass(f), CategoryPass(f);
    var sa := (g: Gym) => sp(g) && ap(g);
    var sap := (g: Gym) => sa(g) && pp(g);
    GuardedFilter(gyms, sp, f.search != "");
    var s1 := Filter(gyms, sp);
    GuardedFilter(s1, ap, |f.amenities| > 0);
    FilterFilter(gyms, sp, ap, sa);
    var s3 := Filter(Filter(gyms, sa), pp);
    FilterFilter(gyms, sa, pp, sap);
    GuardedFilter(s3, cp, f.category != "");
    FilterFilter(gyms, sap, cp, MatchesPass(f));
  }

  /** An empty search passes every gym. */
  lemma EmptySearchPassesAll(g: Gym)
    ensures MatchesSearch(g, "")
  {
    ContainsEmpty(ToLower(g.name));
  }

  /** An empty amenity list passes every gym. */
  lemma EmptyAmenitiesPassAll(g: Gym)
    ensures HasAmenities(g, [])
  {
  }

  /** The sort neither adds nor drops gyms, so the shown gyms are the ones
      that pass the conjunction. */
  lemma PipelineMembers(gyms: seq<Gym>, f: FilterOptions, g: Gym)
    ensures g in Pipeline(gyms, f) <==> g in gyms && Matches(f, g)
  {
    var s := FilterSteps(gyms, f);
    FilterStepsIsConjunction(gyms, f);
    SortGymsPermutation(Comparator(f.sortBy), s);
    assert g in Pipeline(gyms, f) <==> g in multiset(Pipeline(gyms, f));
    assert g in s <==> g in multiset(s);
  }

  /** A gym is shown exactly when it is in the catalog and passes the four
      filters: search on name or address, all amenities, the inclusive price
      bounds and the category when one is set. */
  lemma PipelineMembership(gyms: seq<Gym>, f: FilterOptions, g: Gym)
    ensures g in Pipeline(gyms, f) <==>
      g in gyms &&
      (f.search == "" || MatchesSearch(g, f.search)) &&
      (forall a :: a in f.amenities ==> a in g.amenities) &&
      f.priceRange.0 <= g.price <= f.priceRange.1 &&
      (f.category == "" || f.category in g.categories)
  {
    PipelineMembers(gyms, f, g);
  }

  /** A lower bound above the upper bound shows nothing. */
  lemma CrossedPriceRangeIsEmpty(gyms: seq<Gym>, f: FilterOptions)
    requires f.priceRange.0 > f.priceRange.1
    ensures Pipeline(gyms, f) == []
  {
    var r := Pipeline(gyms, f);
    if r != [] {
      PipelineMembership(gyms, f, r[0]);
      assert false;
    }
  }

  /** The result comes from the catalog without repetition, and under any
      sort key other than `price` and `rating` it is the filtered catalog in
      catalog order. */
  lemma PipelineShape(gyms: seq<Gym>, f: FilterOptions)
    ensures NoDup(gyms) ==> NoDup(Pipeline(gyms, f))
    ensures multiset(Pipeline(gyms, f)) == multiset(Filter(gyms, MatchesPass(f)))
    ensures f.sortBy != "price" && f.sortBy != "rating" ==>
      Pipeline(gyms, f) == Filter(gyms, MatchesPass(f)) && IsSubsequence(Pipeline(gyms, f), gyms)
  {
    var s := FilterSteps(gyms, f);
    FilterStepsIsConjunction(gyms, f);
    SortGymsPermutation(Comparator(f.sortBy), s);
    if NoDup(gyms) {
      FilterNoDup(gyms, MatchesPass(f));
      SortGymsNoDup(Comparator(f.sortBy), s);
    }
    if f.sortBy != "price" && f.sortBy != "rating" {
      SortGymsEqualKeys(Comparator(f.sortBy), s);
      FilterIsSubsequence(gyms, MatchesPass(f));
    }
  }

  /** `price` orders by non-decreasing price and `rating` by non-increasing
      rating. */
  lemma PipelineOrder(gyms: seq<Gym>, f: FilterOptions)
    ensures var r := Pipeline(gyms, f);
      (f.sortBy == "price" ==> forall i, j :: 0 <= i < j < |r| ==> r[i].price <= r[j].price) &&
      (f.sortBy == "rating" ==> forall i, j :: 0 <= i < j < |r| ==> r[i].rating >= r[j].rating)
  {
    var r := Pipeline(gyms, f);
    var key := Comparator(f.sortBy);
    SortGymsSorted(key, FilterSteps(gyms, f));
    if f.sortBy == "rating" {
      forall i, j | 0 <= i < j < |r| ensures r[i].rating >= r[j].rating {
        assert key(r[i]) <= key(r[j]);
      }
    }
  }

  // ---------------------------------------------------------------------
  // The stable sort

  lemma {:induction false} InsertPermutation(key: Gym -> real, s: seq<Gym>, g: Gym)
    ensures multiset(Insert(key, s, g)) == multiset(s) + multiset{g}
    decreases |s|
  {
    if !(s == [] || key(s[|s| - 1]) <= key(g)) {
      var init := s[..|s| - 1];
      InsertPermutation(key, init, g);
      assert s == init + [s[|s| - 1]];
    }
  }

  lemma {:induction false} SortGymsPermutation(key: Gym -> real, s: seq<Gym>)
    ensures multiset(SortGyms(key, s)) == multiset(s)
    decreases |s|
  {
    if s != [] {
      var init := s[..|s| - 1];
      SortGymsPermutation(key, init);
      InsertPermutation(key, SortGyms(key, init), s[|s| - 1]);
      assert s == init + [s[|s| - 1]];
    }
  }

  lemma {:induction false} InsertSorted(key: Gym -> real, s: seq<Gym>, g: Gym)
    requires SortedByKey(key, s)
    ensures SortedByKey(key, Insert(key, s, g))
    decreases |s|
  {
    if !(s == [] || key(s[|s| - 1]) <= key(g)) {
      var init := s[..|s| - 1];
      var last := s[|s| - 1];
      InsertSorted(key, init, g);
      var t := Insert(key, init, g);
      InsertPermutation(key, init, g);
      forall x | x in t ensures key(x) <= key(last) {
        assert x in multiset(t);
        if x != g {
          assert x in init;
        }
      }
      forall i, j | 0 <= i < j < |t + [last]| ensures key((t + [last])[i]) <= key((t + [last])[j]) {
        if j == |t| {
          assert (t + [last])[i] == t[i] && t[i] in t;
        }
      }
    }
  }

  lemma {:induction false} SortGymsSorted(key: Gym -> real, s: seq<Gym>)
    ensures SortedByKey(key, SortGyms(key, s))
    decreases |s|
  {
    if s != [] {
      SortGymsSorted(key, s[..|s| - 1]);
      InsertSorted(key, SortGyms(key, s[..|s| - 1]), s[|s| - 1]);
    }
  }

  lemma {:induction false} InsertNoDup(key: Gym -> real, s: seq<Gym>, g: Gym)
    requires NoDup(s) && g !in s
    ensures NoDup(Insert(key, s, g))
    decreases |s|
  {
    if !(s == [] || key(s[|s| - 1]) <= key(g)) {
      var init := s[..|s| - 1];
      var last := s[|s| - 1];
      assert s == init + [last];
      InsertNoDup(key, init, g);
      var t := Insert(key, init, g);
      InsertPermutation(key, init, g);
      assert last !in t by {
        assert last !in init;
        assert last in multiset(t) <==> last in multiset(init) || last == g;
      }
    }
  }

  lemma {:induction false} SortGymsNoDup(key: Gym -> real, s: seq<Gym>)
    requires NoDup(s)
    ensures NoDup(SortGyms(key, s))
    decreases |s|
  {
    if s != [] {
      var init := s[..|s| - 1];
      var last := s[|s| - 1];
      SortGymsNoDup(key, init);
      SortGymsPermutation(key, init);
      assert last !in SortGyms(key, init) by {
        assert last !in init;
        assert last in multiset(SortGyms(key, init)) <==> last in multiset(init);
      }
      InsertNoDup(key, SortGyms(key, init), last);
    }
  }

  /** With a comparator that always returns 0, the sort keeps the order. */
  lemma {:induction false} SortGymsEqualKeys(key: Gym -> real, s: seq<Gym>)
    requires forall g :: key(g) == 0.0
    ensures SortGyms(key, s) == s
    decreases |s|
  {
    if s != [] {
      SortGymsEqualKeys(key, s[..|s| - 1]);
      assert s[..|s| - 1] + [s[|s| - 1]] == s;
    }
  }

  function KeyIs(key: Gym -> real, k: real): Gym -> bool {
    (g: Gym) => key(g) == k
  }

  /** Two singletons that do not both pass a filter can trade places. */
  lemma FilterSwapSingles(a: Gym, b: Gym, p: Gym -> bool)
    requires !(p(a) && p(b))
    ensures Filter([a], p) + Filter([b], p) == Filter([b], p) + Filter([a], p)
  {
    FilterSingle(a, p);
    FilterSingle(b, p);
  }

  lemma {:induction false} InsertStable(key: Gym -> real, s: seq<Gym>, g: Gym, k: real)
    ensures Filter(Insert(key, s, g), KeyIs(key, k)) == Filter(s + [g], KeyIs(key, k))
    decreases |s|
  {
    var p := KeyIs(key, k);
    if !(s == [] || key(s[|s| - 1]) <= key(g)) {
      var init := s[..|s| - 1];
      var last := s[|s| - 1];
      assert s == init + [last];
      var t := Insert(key, init, g);
      assert Insert(key, s, g) == t + [last];
      // `g` and `last` have different keys, so at most one of them has key `k`
      assert !(p(g) && p(last));
      calc {
        Filter(t + [last], p);
        { FilterConcat(t, [last], p); }
        Filter(t, p) + Filter([last], p);
        { InsertStable(key, init, g, k); }
        Filter(init + [g], p) + Filter([last], p);
        { FilterConcat(init, [g], p); }
        Filter(init, p) + (Filter([g], p) + Filter([last], p));
        { FilterSwapSingles(g, last, p); }
        Filter(init, p) + (Filter([last], p) + Filter([g], p));
        Filter(init, p) + Filter([last], p) + Filter([g], p);
        { FilterConcat(init, [last], p); }
        Filter(s, p) + Filter([g], p);
        { FilterConcat(s, [g], p); }
        Filter(s + [g], p);
      }
    }
  }

  /** Stability: the gyms sharing one sort key keep their relative order. */
  lemma {:induction false} SortGymsStable(key: Gym -> real, s: seq<Gym>, k: real)
    ensures Filter(SortGyms(key, s), KeyIs(key, k)) == Filter(s, KeyIs(key, k))
    decreases |s|
  {
    if s != [] {
      var init := s[..|s| - 1];
      var last := s[|s| - 1];
      var p := KeyIs(key, k);
      assert s == init + [last];
      calc {
        Filter(SortGyms(key, s), p);
        Filter(Insert(key, SortGyms(key, init), last), p);
        { InsertStable(key, SortGyms(key, init), last, k); }
        Filter(SortGyms(key, init) + [last], p);
        { FilterConcat(SortGyms(key, init), [last], p); }
        Filter(SortGyms(key, init), p) + Filter([last], p);
        { SortGymsStable(key, init, k); }
        Filter(init, p) + Filter([last], p);
        { FilterConcat(init, [last], p); }
        Filter(s, p);
      }
    }
  }

  // ---------------------------------------------------------------------
  // The catalog under the initial filters

  /** The initial filters keep every gym priced within [0, 200], in order. */
  lemma InitialFiltersKeepAll(gyms: seq<Gym>)
    requires forall g :: g in gyms ==> 0.0 <= g.price <= 200.0
    ensures Pipeline(gyms, InitialFilters) == gyms
  {
    var f := InitialFilters;
    forall g | g in gyms ensures MatchesPass(f)(g) {
      EmptySearchPassesAll(g);
      assert InPriceRange(g, f.priceRange);
    }
    FilterAllPass(gyms, MatchesPass(f));
    FilterStepsIsConjunction(gyms, f);
    SortGymsEqualKeys(Comparator(f.sortBy), FilterSteps(gyms, f));
  }

  /** All three catalog gyms are within the initial price range. */
  lemma InitialFiltersShowAll()
    ensures ShownGyms(InitialFilters) == Catalog.MockGyms
  {
    var gyms := Catalog.MockGyms;
    assert gyms[0].price == 50.0 && gyms[1].price == 75.0 && gyms[2].price == 60.0;
    assert forall g :: g in gyms ==> g == gyms[0] || g == gyms[1] || g == gyms[2];
    InitialFiltersKeepAll(gyms);
  }
}
