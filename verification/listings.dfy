/**
 The dashboard's listing filter: the `Property` and `FilterState` records, the
 predicate the dashboard applies to every catalog entry, the filter over a
 catalog, and the handlers that change the criteria.
 */
module Listings {

  import opened Nullable
  import opened Text
  import opened Selection

  /** The closed set of property categories (the TypeScript union of `type`). */
  datatype PropertyType = SelfCon | Flat | Duplex | Shared | Studio

  /** The string each category is written as, and compared against. */
  function TypeName(t: PropertyType): string {
    match t
    case SelfCon => "Self-Con"
    case Flat => "Flat"
    case Duplex => "Duplex"
    case Shared => "Shared"
    case Studio => "Studio"
  }

  /** Distinct categories are written differently, so comparing names is
      comparing categories. */
  lemma TypeNameInjective(a: PropertyType, b: PropertyType)
    ensures TypeName(a) == TypeName(b) <==> a == b
  {
  }

  /** One listing. The source field `type` is called `kind` here; the floating
      point `rating` is not modelled. Prices are whole naira. */
  datatype Property = Property(
    id: string,
    title: string,
    location: string,
    city: string,
    price: int,
    kind: PropertyType,
    tags: seq<string>,
    imageUrl: string,
    description: string,
    proximity: Option<string>,
    amenities: seq<string>)

  /** The dashboard's criteria. `kind` is the source field `type`. */
  datatype FilterState = FilterState(
    search: string,
    minPrice: int,
    maxPrice: int,
    kind: Option<string>,
    city: Option<string>)

  /** The criteria a fresh dashboard starts with, and the ones "Clear all
      filters" puts back. */
  function InitialFilters(): FilterState {
    FilterState(search := "", minPrice := 0, maxPrice := 5000000, kind := None, city := Some("Dutse"))
  }

  // ---------------------------------------------------------------------------
  // The predicate
  // ---------------------------------------------------------------------------

  /** A `string | null` criterion is applied only when it is truthy: neither
      null nor the empty string. */
  predicate IsActive(criterion: Option<string>) {
    criterion.Some? && criterion.value != ""
  }

  /** Some tag of the listing includes the (already lower-cased) query. */
  predicate SomeTagIncludes(tags: seq<string>, query: string) {
    exists i :: 0 <= i < |tags| && Contains(ToLower(tags[i]), query)
  }

  /** The free-text test on the three fields it reads: the lower-cased
      search term is included in the lower-cased title, location or some
      tag. */
  predicate SearchHits(title: string, location: string, tags: seq<string>, search: string) {
    var query := ToLower(search);
    || Contains(ToLower(title), query)
    || Contains(ToLower(location), query)
    || SomeTagIncludes(tags, query)
  }

  /** The free-text part of the listing predicate. */
  predicate MatchesSearch(p: Property, search: string) {
    SearchHits(p.title, p.location, p.tags, search)
  }

  predicate MatchesType(p: Property, f: FilterState) {
    IsActive(f.kind) ==> TypeName(p.kind) == f.kind.value
  }

  predicate MatchesCity(p: Property, f: FilterState) {
    IsActive(f.city) ==> p.city == f.city.value
  }

  predicate MatchesPrice(p: Property, f: FilterState) {
    p.price <= f.maxPrice
  }

  /** A listing is shown when all four parts hold; `minPrice` plays no part. */
  predicate Matches(p: Property, f: FilterState) {
    MatchesSearch(p, f.search) && MatchesType(p, f) && MatchesCity(p, f) && MatchesPrice(p, f)
  }

  // ---------------------------------------------------------------------------
  // The filter
  // ---------------------------------------------------------------------------

  /** The dashboard's predicate as a function value. */
  function Criteria(f: FilterState): Property -> bool {
    p => Matches(p, f)
  }

  /** `MOCK_PROPERTIES.filter(...)` with criteria f. The result keeps exactly
      the matching entries: nothing that fails the criteria is kept, every
      entry that meets them is kept, and each entry is kept as often as it
      occurs. */
  function Filter(catalog: seq<Property>, f: FilterState): (r: seq<Property>)
    ensures |r| <= |catalog|
    ensures forall p :: p in r ==> p in catalog && Matches(p, f)
    ensures forall p :: p in catalog && Matches(p, f) ==> p in r
    ensures forall p :: multiset(r)[p] == if Matches(p, f) then multiset(catalog)[p] else 0
  {
    Select(catalog, Criteria(f))
  }

  /** The filter's output is exactly the matching catalog entries, in catalog
      order: it is the catalog read at an ascending list of positions, and a
      position is on that list if and only if its entry matches. */
  lemma FilterIsOrderedSelection(catalog: seq<Property>, f: FilterState)
    ensures SelectsInOrder(Filter(catalog, f), catalog, KeptPositions(catalog, Criteria(f), 0))
    ensures forall j :: j in KeptPositions(catalog, Criteria(f), 0) <==> 0 <= j < |catalog| && Matches(catalog[j], f)
  {
    SelectIsOrderedSelection(catalog, Criteria(f));
  }

  /** When exactly one catalog position matches, the filter returns that
      entry alone. */
  lemma FilterSingle(catalog: seq<Property>, f: FilterState, i: int)
    requires 0 <= i < |catalog| && Matches(catalog[i], f)
    requires forall j :: 0 <= j < |catalog| && j != i ==> !Matches(catalog[j], f)
    ensures Filter(catalog, f) == [catalog[i]]
  {
    FilterIsOrderedSelection(catalog, f);
    var positions := KeptPositions(catalog, Criteria(f), 0);
    assert i in positions;
    forall k | 0 <= k < |positions|
      ensures positions[k] == i
    {
      assert positions[k] in positions;
    }
    if |positions| >= 2 {
      AscendingHead(positions);
      assert false;
    }
  }

  /** Filtering again with the same criteria changes nothing. */
  lemma FilterIdempotent(catalog: seq<Property>, f: FilterState)
    ensures Filter(Filter(catalog, f), f) == Filter(catalog, f)
  {
    SelectIdempotent(catalog, Criteria(f));
  }

  /** A listing the filter keeps is one that meets every criterion the
      dashboard has set: within the price ceiling, of the selected type and in
      the selected city whenever those are set. */
  lemma FilterSound(catalog: seq<Property>, f: FilterState, p: Property)
    requires p in Filter(catalog, f)
    ensures p.price <= f.maxPrice
    ensures IsActive(f.kind) ==> TypeName(p.kind) == f.kind.value
    ensures IsActive(f.city) ==> p.city == f.city.value
    ensures MatchesSearch(p, f.search)
  {
  }

  /** `minPrice` never affects the result: criteria that differ only in
      `minPrice` select the same listings. */
  lemma MinPriceIgnored(catalog: seq<Property>, f: FilterState, lo: int)
    ensures Filter(catalog, f.(minPrice := lo)) == Filter(catalog, f)
  {
    SelectAgrees(catalog, Criteria(f.(minPrice := lo)), Criteria(f));
  }

  /** Criteria that agree on every entry of the catalog give the same
      output. */
  lemma FilterAgrees(catalog: seq<Property>, f: FilterState, g: FilterState)
    requires forall p :: p in catalog ==> (Matches(p, f) <==> Matches(p, g))
    ensures Filter(catalog, f) == Filter(catalog, g)
  {
    SelectAgrees(catalog, Criteria(f), Criteria(g));
  }

  /** A catalog every entry of which matches passes the filter unchanged. */
  lemma FilterKeepsAll(catalog: seq<Property>, f: FilterState)
    requires forall p :: p in catalog ==> Matches(p, f)
    ensures Filter(catalog, f) == catalog
  {
    SelectKeepsAll(catalog, Criteria(f));
  }

  /** The empty search term matches every listing. */
  lemma EmptySearchMatchesAll(p: Property)
    ensures MatchesSearch(p, "")
  {
    assert ToLower("") == "";
    IncludesEmpty(ToLower(p.title));
  }

  /** A search misses a listing when each field it reads (title, location,
      every tag) lacks some letter of the lower-cased query; the letters are
      passed as witnesses. */
  lemma SearchMisses(title: string, location: string, tags: seq<string>, search: string,
                     inTitle: char, inLocation: char, inTags: seq<char>)
    requires |inTags| == |tags|
    requires inTitle in ToLower(search) && LacksLetter(title, inTitle)
    requires inLocation in ToLower(search) && LacksLetter(location, inLocation)
    requires forall i :: 0 <= i < |tags| ==> inTags[i] in ToLower(search) && LacksLetter(tags[i], inTags[i])
    ensures !SearchHits(title, location, tags, search)
  {
    var query := ToLower(search);
    MissingCharExcludes(ToLower(title), query, inTitle);
    MissingCharExcludes(ToLower(location), query, inLocation);
    forall i | 0 <= i < |tags|
      ensures !Contains(ToLower(tags[i]), query)
    {
      MissingCharExcludes(ToLower(tags[i]), query, inTags[i]);
    }
  }

  /** Search ignores the case of the query: terms that lower-case alike give
      the same verdict, so a term and its lower-cased form agree. */
  lemma SearchIgnoresCase(p: Property, s: string, t: string)
    requires ToLower(s) == ToLower(t)
    ensures MatchesSearch(p, s) <==> MatchesSearch(p, t)
    ensures MatchesSearch(p, s) <==> MatchesSearch(p, ToLower(s))
  {
    ToLowerIdempotent(s);
  }

  /** Search never looks at the description or the proximity note. */
  lemma SearchIgnoresDescription(p: Property, description: string, proximity: Option<string>, s: string)
    ensures MatchesSearch(p.(description := description, proximity := proximity), s) <==> MatchesSearch(p, s)
  {
  }

  // ---------------------------------------------------------------------------
  // Changing the criteria
  // ---------------------------------------------------------------------------

  /** `handleNavClick(term)` and typing in the search box: replace the search
      term, keep every other criterion. */
  function SetSearch(f: FilterState, term: string): (r: FilterState)
    ensures r.search == term
    ensures r.minPrice == f.minPrice && r.maxPrice == f.maxPrice
    ensures r.kind == f.kind && r.city == f.city
  {
    f.(search := term)
  }

  /** The type select: the empty "Any Type" option becomes null; every other
      criterion is kept. */
  function SelectType(f: FilterState, value: string): (r: FilterState)
    ensures value == "" ==> r.kind == None
    ensures value != "" ==> r.kind == Some(value)
    ensures r.search == f.search && r.minPrice == f.minPrice && r.maxPrice == f.maxPrice && r.city == f.city
  {
    f.(kind := if value == "" then None else Some(value))
  }

  /** "Clear all filters": whatever the criteria were, they become the
      initial ones. */
  function ClearFilters(f: FilterState): (r: FilterState)
    ensures r.search == "" && r.minPrice == 0 && r.maxPrice == 5000000
    ensures r.kind == None && r.city == Some("Dutse")
  {
    InitialFilters()
  }

  /** The logo (`handleNavClick('')`) lifts the search criterion: the result
      is what the other three criteria alone select. */
  lemma ClearedSearchSelects(catalog: seq<Property>, f: FilterState, p: Property)
    ensures p in Filter(catalog, SetSearch(f, "")) <==>
      p in catalog && MatchesType(p, f) && MatchesCity(p, f) && MatchesPrice(p, f)
  {
    EmptySearchMatchesAll(p);
  }

  /** Choosing "Any Type" lifts the type criterion, and choosing a type keeps
      only listings of that type. */
  lemma SelectTypeSelects(catalog: seq<Property>, f: FilterState, value: string, p: Property)
    ensures value == "" ==>
      (p in Filter(catalog, SelectType(f, value)) <==>
        p in catalog && MatchesSearch(p, f.search) && MatchesCity(p, f) && MatchesPrice(p, f))
    ensures value != "" && p in Filter(catalog, SelectType(f, value)) ==> TypeName(p.kind) == value
  {
  }
}
