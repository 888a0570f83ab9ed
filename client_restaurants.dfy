// The restaurant search page (app/restaurants/page.tsx): the filters read from
// and written to the URL, the client-side search and filter pipeline, the cuisine
// list and the active-filter badge.

module RestaurantsPage {
  import opened Common
  import opened Db

  /** The filter panel's state. */
  datatype Filters = Filters(
    cuisine: string,
    priceRange: string,
    isLgbtqFriendly: bool,
    isSmokingAllowed: bool,
    hasOutdoorSeating: bool,
    isWheelchairAccessible: bool,
    hasVeganOptions: bool,
    hasVegetarianOptions: bool)

  /** Whether the panel asks for a feature. */
  function Wants(f: Filters, feature: Feature): bool {
    match feature
    case LgbtqFriendly => f.isLgbtqFriendly
    case SmokingAllowed => f.isSmokingAllowed
    case OutdoorSeating => f.hasOutdoorSeating
    case WheelchairAccessible => f.isWheelchairAccessible
    case VeganOptions => f.hasVeganOptions
    case VegetarianOptions => f.hasVegetarianOptions
  }

  /** The URL parameter of each feature flag. */
  function ParamName(feature: Feature): string {
    match feature
    case LgbtqFriendly => "lgbtq"
    case SmokingAllowed => "smoking"
    case OutdoorSeating => "outdoor"
    case WheelchairAccessible => "wheelchair"
    case VeganOptions => "vegan"
    case VegetarianOptions => "vegetarian"
  }

  // ---- the URL ---------------------------------------------------------------

  /** The names the page sets in its URL. */
  datatype ParamKey = SearchKey | CuisineKey | PriceKey | FlagKey(feature: Feature)

  /** The text of each name in the URL. */
  function KeyText(k: ParamKey): string {
    match k
    case SearchKey => "search"
    case CuisineKey => "cuisine"
    case PriceKey => "price"
    case FlagKey(feature) => ParamName(feature)
  }

  /** A query string as a list of name/value pairs, before percent-encoding. */
  type Query = seq<(ParamKey, string)>

  /** `searchParams.get(name)`: the first value under that name. */
  function Get(q: Query, name: ParamKey): Option<string> {
    if q == [] then None
    else if q[0].0 == name then Some(q[0].1)
    else Get(q[1..], name)
  }

  /** `get` finds a value that was set under that name, and finds nothing only when none was. */
  lemma {:induction false} GetFinds(q: Query, name: ParamKey)
    ensures Get(q, name).Some? ==> (name, Get(q, name).value) in q
    ensures Get(q, name).None? <==> forall i :: 0 <= i < |q| ==> q[i].0 != name
  {
    if q != [] {
      GetFinds(q[1..], name);
      assert forall i :: 1 <= i < |q| ==> q[i] == q[1..][i - 1];
    }
  }

  /** The initial search term: `searchParams.get("search") || ""`. */
  function SearchFromQuery(q: Query): string {
    OrElse(Get(q, SearchKey), "")
  }

  /** The initial filters: text values or "", and a flag only for the exact text "true". */
  function FiltersFromQuery(q: Query): Filters {
    Filters(
      OrElse(Get(q, CuisineKey), ""),
      OrElse(Get(q, PriceKey), ""),
      Get(q, FlagKey(LgbtqFriendly)) == Some("true"),
      Get(q, FlagKey(SmokingAllowed)) == Some("true"),
      Get(q, FlagKey(OutdoorSeating)) == Some("true"),
      Get(q, FlagKey(WheelchairAccessible)) == Some("true"),
      Get(q, FlagKey(VeganOptions)) == Some("true"),
      Get(q, FlagKey(VegetarianOptions)) == Some("true"))
  }

  /** One `params.set(name, value)` guarded by its condition. */
  function Param(present: bool, name: ParamKey, value: string): (r: Query)
    ensures |r| == if present then 1 else 0
  {
    if present then [(name, value)] else []
  }

  /** The pairs the URL effect sets: each of the nine rows that is on, in row order. */
  function QueryParams(searchTerm: string, f: Filters): Query {
    ParamsUpTo(searchTerm, f, 9)
  }

  /** `if (cond) params.set(name, value)` for row `k`, on a list holding the earlier rows. */
  method SetRow(params: Query, searchTerm: string, f: Filters, k: nat) returns (r: Query)
    requires k < 9 && params == ParamsUpTo(searchTerm, f, k)
    ensures r == ParamsUpTo(searchTerm, f, k + 1)
  {
    r := params;
    if On(searchTerm, f, k) {
      r := r + [(KeyAt(k), ValueAt(searchTerm, f, k))];
    }
  }

  /** The URL effect's parameter building, one `set` after another on a fresh list. */
  method BuildParams(searchTerm: string, f: Filters) returns (params: Query)
    ensures params == QueryParams(searchTerm, f)
  {
    params := [];
    params := SetRow(params, searchTerm, f, 0);
    params := SetRow(params, searchTerm, f, 1);
    params := SetRow(params, searchTerm, f, 2);
    params := SetRow(params, searchTerm, f, 3);
    params := SetRow(params, searchTerm, f, 4);
    params := SetRow(params, searchTerm, f, 5);
    params := SetRow(params, searchTerm, f, 6);
    params := SetRow(params, searchTerm, f, 7);
    params := SetRow(params, searchTerm, f, 8);
  }

  function PairTexts(q: Query): (r: seq<string>)
    ensures |r| == |q|
    ensures forall i :: 0 <= i < |q| ==> r[i] == KeyText(q[i].0) + "=" + q[i].1
  {
    seq(|q|, i requires 0 <= i < |q| => KeyText(q[i].0) + "=" + q[i].1)
  }

  /** The pushed URL: the bare page when no parameter is set. */
  function Url(q: Query): (r: string)
    ensures q == [] <==> r == "/restaurants"
    ensures q != [] ==> StartsWith(r, "/restaurants?")
  {
    if q == [] then "/restaurants" else "/restaurants?" + Join(PairTexts(q), "&")
  }

  /** `Object.values(filters)`, in declaration order. */
  function FilterValues(f: Filters): (r: seq<Value>)
    ensures |r| == 8
  {
    seq(8, i requires 0 <= i < 8 => FilterValue(f, i))
  }

  /** The `i`-th member of the filter object. */
  function FilterValue(f: Filters, i: nat): Value
    requires i < 8
  {
    match i
    case 0 => Str(f.cuisine)
    case 1 => Str(f.priceRange)
    case 2 => Bool(f.isLgbtqFriendly)
    case 3 => Bool(f.isSmokingAllowed)
    case 4 => Bool(f.hasOutdoorSeating)
    case 5 => Bool(f.isWheelchairAccessible)
    case 6 => Bool(f.hasVeganOptions)
    case _ => Bool(f.hasVegetarianOptions)
  }

  /** `Object.values(filters).some((value) => value)` */
  predicate AnyActive(f: Filters) {
    exists i :: 0 <= i < |FilterValues(f)| && Truthy(FilterValues(f)[i])
  }

  /** The URL is pushed only when a filter or the search term is set. */
  predicate ShouldPush(searchTerm: string, f: Filters) {
    AnyActive(f) || searchTerm != ""
  }

  /** The badge on the filter button: `Object.values(filters).filter((value) => value).length`. */
  function ActiveFilterCount(f: Filters): (k: nat)
    ensures k <= 8
  {
    |Filter(FilterValues(f), Truthy)|
  }

  function Ind(b: bool): nat {
    if b then 1 else 0
  }

  /** The truthy values among the first `k` of `vs`, counted one by one. */
  function CountUpTo(vs: seq<Value>, k: nat): nat
    requires k <= |vs|
  {
    if k == 0 then 0 else CountUpTo(vs, k - 1) + Ind(Truthy(vs[k - 1]))
  }

  lemma {:induction false} FilterCountUpTo(vs: seq<Value>, k: nat)
    requires k <= |vs|
    ensures |Filter(vs[..k], Truthy)| == CountUpTo(vs, k)
  {
    if k > 0 {
      FilterCountUpTo(vs, k - 1);
      assert vs[..k] == vs[..k - 1] + [vs[k - 1]];
      FilterConcat(vs[..k - 1], [vs[k - 1]], Truthy);
      assert [vs[k - 1]][1..] == [];
    }
  }

  function FlagCount(f: Filters): nat {
    Ind(f.isLgbtqFriendly) + Ind(f.isSmokingAllowed) + Ind(f.hasOutdoorSeating)
    + Ind(f.isWheelchairAccessible) + Ind(f.hasVeganOptions) + Ind(f.hasVegetarianOptions)
  }

  /** The first five values: the two text filters and three flags. */
  lemma {:induction false} CountFirstValues(f: Filters)
    ensures CountUpTo(FilterValues(f), 5) ==
      Ind(f.cuisine != "") + Ind(f.priceRange != "") + Ind(f.isLgbtqFriendly) + Ind(f.isSmokingAllowed) + Ind(f.hasOutdoorSeating)
  {
    var vs := FilterValues(f);
    assert CountUpTo(vs, 1) == Ind(f.cuisine != "") by {
      assert CountUpTo(vs, 0) == 0;
    }
    assert CountUpTo(vs, 2) == CountUpTo(vs, 1) + Ind(f.priceRange != "");
    assert CountUpTo(vs, 3) == CountUpTo(vs, 2) + Ind(f.isLgbtqFriendly);
    assert CountUpTo(vs, 4) == CountUpTo(vs, 3) + Ind(f.isSmokingAllowed);
  }

  /** The badge counts the set text filters and the ticked flags. */
  lemma {:induction false} ActiveFilterCountByField(f: Filters)
    ensures ActiveFilterCount(f) == Ind(f.cuisine != "") + Ind(f.priceRange != "") + FlagCount(f)
    ensures ActiveFilterCount(f) <= 8
  {
    var vs := FilterValues(f);
    FilterCountUpTo(vs, 8);
    assert vs[..8] == vs;
    CountFirstValues(f);
    assert CountUpTo(vs, 6) == CountUpTo(vs, 5) + Ind(f.isWheelchairAccessible);
    assert CountUpTo(vs, 7) == CountUpTo(vs, 6) + Ind(f.hasVeganOptions);
    assert CountUpTo(vs, 8) == CountUpTo(vs, 7) + Ind(f.hasVegetarianOptions);
  }

  /** The URL effect: the URL it pushes, if it pushes one. */
  function UrlEffect(searchTerm: string, f: Filters): Option<string> {
    if ShouldPush(searchTerm, f) then Some(Url(QueryParams(searchTerm, f))) else None
  }

  /** Some filter value is truthy exactly when the badge shows a number. */
  lemma {:induction false} AnyActiveIffCount(f: Filters)
    ensures AnyActive(f) <==> ActiveFilterCount(f) > 0
  {
    var vs := FilterValues(f);
    if ActiveFilterCount(f) > 0 {
      assert Filter(vs, Truthy)[0] in Filter(vs, Truthy);
      var v := Filter(vs, Truthy)[0];
      var i :| 0 <= i < |vs| && vs[i] == v;
      assert Truthy(vs[i]);
    }
    if AnyActive(f) {
      var i :| 0 <= i < |vs| && Truthy(vs[i]);
      FilterMembership(vs, Truthy, vs[i]);
    }
  }

  /** One parameter per set text filter, ticked flag and search term. */
  lemma {:induction false} QueryLength(searchTerm: string, f: Filters)
    ensures |QueryParams(searchTerm, f)| == Ind(searchTerm != "") + ActiveFilterCount(f)
  {
    var vs := FilterValues(f);
    ParamsLength(searchTerm, f, 9);
    FilterCountUpTo(vs, 8);
    assert vs[..8] == vs;
  }

  /** The URL is pushed exactly when it carries a query, and never as the bare page. */
  lemma {:induction false} QueryMatchesBadge(searchTerm: string, f: Filters)
    ensures ShouldPush(searchTerm, f) <==> QueryParams(searchTerm, f) != []
    ensures UrlEffect(searchTerm, f).Some? ==> UrlEffect(searchTerm, f).value != "/restaurants"
  {
    QueryLength(searchTerm, f);
    AnyActiveIffCount(f);
  }

  /** `get` on two lists one after the other: the first list wins. */
  lemma {:induction false} GetAppend(a: Query, b: Query, name: ParamKey)
    ensures Get(a + b, name) == if Get(a, name).Some? then Get(a, name) else Get(b, name)
  {
    if a != [] {
      GetAppend(a[1..], b, name);
      assert (a + b)[0] == a[0];
      assert (a + b)[1..] == a[1..] + b;
    } else {
      assert a + b == b;
    }
  }

  // The nine conditions of the page, in the order the URL effect sets them and the
  // filter effect applies them: search, cuisine, price, then the six flags.

  /** The feature of the `k`-th flag. */
  function FlagAt(k: nat): Feature
    requires k < 6
  {
    match k
    case 0 => LgbtqFriendly
    case 1 => SmokingAllowed
    case 2 => OutdoorSeating
    case 3 => WheelchairAccessible
    case 4 => VeganOptions
    case _ => VegetarianOptions
  }

  /** The URL name of the `i`-th condition. */
  function KeyAt(i: nat): ParamKey
    requires i < 9
  {
    if i == 0 then SearchKey else if i == 1 then CuisineKey else if i == 2 then PriceKey else FlagKey(FlagAt(i - 3))
  }

  /** The position of each name among the conditions. */
  function KeyIndex(name: ParamKey): (i: nat)
    ensures i < 9 && KeyAt(i) == name
    ensures forall j :: 0 <= j < 9 && KeyAt(j) == name ==> j == i
  {
    match name
    case SearchKey => 0
    case CuisineKey => 1
    case PriceKey => 2
    case FlagKey(feature) =>
      match feature
      case LgbtqFriendly => 3
      case SmokingAllowed => 4
      case OutdoorSeating => 5
      case WheelchairAccessible => 6
      case VeganOptions => 7
      case VegetarianOptions => 8
  }

  /** Whether the `i`-th condition is switched on. */
  function On(searchTerm: string, f: Filters, i: nat): bool
    requires i < 9
  {
    if i == 0 then searchTerm != "" else if i == 1 then f.cuisine != "" else if i == 2 then f.priceRange != ""
    else Wants(f, FlagAt(i - 3))
  }

  /** The value the URL carries for the `i`-th condition. */
  function ValueAt(searchTerm: string, f: Filters, i: nat): string
    requires i < 9
  {
    if i == 0 then searchTerm else if i == 1 then f.cuisine else if i == 2 then f.priceRange else "true"
  }

  /** The first `k` guarded `set`s. */
  function ParamsUpTo(searchTerm: string, f: Filters, k: nat): Query
    requires k <= 9
  {
    if k == 0 then [] else ParamsUpTo(searchTerm, f, k - 1) + Param(On(searchTerm, f, k - 1), KeyAt(k - 1), ValueAt(searchTerm, f, k - 1))
  }

  /** After the first `k` `set`s a name holds its value exactly when its row is among them and on. */
  lemma {:induction false} GetParamsUpTo(searchTerm: string, f: Filters, k: nat, name: ParamKey)
    requires k <= 9
    ensures Get(ParamsUpTo(searchTerm, f, k), name) ==
      if KeyIndex(name) < k && On(searchTerm, f, KeyIndex(name)) then Some(ValueAt(searchTerm, f, KeyIndex(name))) else None
  {
    if k > 0 {
      var row := Param(On(searchTerm, f, k - 1), KeyAt(k - 1), ValueAt(searchTerm, f, k - 1));
      GetParamsUpTo(searchTerm, f, k - 1, name);
      GetAppend(ParamsUpTo(searchTerm, f, k - 1), row, name);
      if On(searchTerm, f, k - 1) {
        assert row[1..] == [];
      }
    }
  }

  /** One parameter per row that is on: the search term and then each truthy filter value. */
  lemma {:induction false} ParamsLength(searchTerm: string, f: Filters, k: nat)
    requires 1 <= k <= 9
    ensures |ParamsUpTo(searchTerm, f, k)| == Ind(searchTerm != "") + CountUpTo(FilterValues(f), k - 1)
  {
    if k > 1 {
      ParamsLength(searchTerm, f, k - 1);
      OnIsTruthy(searchTerm, f, k - 2);
    } else {
      assert ParamsUpTo(searchTerm, f, 0) == [];
    }
  }

  /** Row `i + 1` is on exactly when the `i`-th filter value is truthy. */
  lemma {:induction false} OnIsTruthy(searchTerm: string, f: Filters, i: nat)
    requires i < 8
    ensures On(searchTerm, f, i + 1) == Truthy(FilterValues(f)[i])
  {
  }

  /** What the URL holds under each name. */
  function Expected(searchTerm: string, f: Filters, name: ParamKey): Option<string> {
    match name
    case SearchKey => if searchTerm != "" then Some(searchTerm) else None
    case CuisineKey => if f.cuisine != "" then Some(f.cuisine) else None
    case PriceKey => if f.priceRange != "" then Some(f.priceRange) else None
    case FlagKey(feature) => if Wants(f, feature) then Some("true") else None
  }

  /** Every name is set at most once, to the value the page state gives it. */
  lemma {:induction false} GetQueryParams(searchTerm: string, f: Filters, name: ParamKey)
    ensures Get(QueryParams(searchTerm, f), name) == Expected(searchTerm, f, name)
  {
    GetParamsUpTo(searchTerm, f, 9, name);
  }

  /** Reading the URL back gives the same search term and filters. */
  lemma {:induction false} QueryRoundTrip(searchTerm: string, f: Filters)
    ensures SearchFromQuery(QueryParams(searchTerm, f)) == searchTerm
    ensures FiltersFromQuery(QueryParams(searchTerm, f)) == f
  {
    GetQueryParams(searchTerm, f, SearchKey);
    GetQueryParams(searchTerm, f, CuisineKey);
    GetQueryParams(searchTerm, f, PriceKey);
    GetQueryParams(searchTerm, f, FlagKey(LgbtqFriendly));
    GetQueryParams(searchTerm, f, FlagKey(SmokingAllowed));
    GetQueryParams(searchTerm, f, FlagKey(OutdoorSeating));
    GetQueryParams(searchTerm, f, FlagKey(WheelchairAccessible));
    GetQueryParams(searchTerm, f, FlagKey(VeganOptions));
    GetQueryParams(searchTerm, f, FlagKey(VegetarianOptions));
  }

  /** The names are told apart in the URL text as well. */
  lemma KeyTextInjective(a: ParamKey, b: ParamKey)
    requires KeyText(a) == KeyText(b)
    ensures a == b
  {
    var ta, tb := KeyText(a), KeyText(b);
    assert |ta| == |tb|;
    if |ta| > 0 {
      assert ta[0] == tb[0];
    }
    if |ta| > 1 {
      assert ta[1] == tb[1];
    }
  }

  // ---- the search and filter pipeline -----------------------------------------

  /** The search term, lower-cased, occurs in the lower-cased name, cuisine, description or location. */
  predicate MatchesTerm(r: Restaurant, term: string) {
    || Contains(ToLower(r.name), term)
    || Contains(ToLower(r.cuisine), term)
    || Contains(ToLower(r.description), term)
    || Contains(ToLower(r.location), term)
  }

  /** A restaurant the page lists: it meets every condition that is switched on. */
  predicate Matches(r: Restaurant, searchTerm: string, f: Filters) {
    && (searchTerm == "" || MatchesTerm(r, ToLower(searchTerm)))
    && (f.cuisine == "" || Contains(ToLower(r.cuisine), ToLower(f.cuisine)))
    && (f.priceRange == "" || r.priceRange == f.priceRange)
    && (f.isLgbtqFriendly ==> r.isLgbtqFriendly)
    && (f.isSmokingAllowed ==> r.isSmokingAllowed)
    && (f.hasOutdoorSeating ==> r.hasOutdoorSeating)
    && (f.isWheelchairAccessible ==> r.isWheelchairAccessible)
    && (f.hasVeganOptions ==> r.hasVeganOptions)
    && (f.hasVegetarianOptions ==> r.hasVegetarianOptions)
  }

  function Matcher(searchTerm: string, f: Filters): Restaurant -> bool {
    (r: Restaurant) => Matches(r, searchTerm, f)
  }

  // The individual `results.filter(...)` callbacks.

  function SearchKeep(term: string): Restaurant -> bool {
    (r: Restaurant) => MatchesTerm(r, term)
  }

  function CuisineKeep(cuisine: string): Restaurant -> bool {
    (r: Restaurant) => Contains(ToLower(r.cuisine), ToLower(cuisine))
  }

  function PriceKeep(priceRange: string): Restaurant -> bool {
    (r: Restaurant) => r.priceRange == priceRange
  }

  function FeatureKeep(feature: Feature): Restaurant -> bool {
    (r: Restaurant) => HasFeature(r, feature)
  }

  /** The `results.filter(...)` callback of the `i`-th condition. */
  function Keep(searchTerm: string, f: Filters, i: nat): Restaurant -> bool
    requires i < 9
  {
    if i == 0 then SearchKeep(ToLower(searchTerm)) else if i == 1 then CuisineKeep(f.cuisine)
    else if i == 2 then PriceKeep(f.priceRange) else FeatureKeep(FlagAt(i - 3))
  }

  /** The restaurant passes the first `k` steps of the filter effect. */
  predicate PassesUpTo(r: Restaurant, searchTerm: string, f: Filters, k: nat)
    requires k <= 9
  {
    k == 0 || (PassesUpTo(r, searchTerm, f, k - 1) && (On(searchTerm, f, k - 1) ==> Keep(searchTerm, f, k - 1)(r)))
  }

  function Passed(searchTerm: string, f: Filters, k: nat): Restaurant -> bool
    requires k <= 9
  {
    (r: Restaurant) => PassesUpTo(r, searchTerm, f, k)
  }

  /** Step `k` narrows the restaurants passing the first `k` steps to those passing `k + 1`. */
  lemma {:induction false} NarrowStep(rs: seq<Restaurant>, searchTerm: string, f: Filters, k: nat)
    requires k < 9
    ensures (if On(searchTerm, f, k) then Filter(Filter(rs, Passed(searchTerm, f, k)), Keep(searchTerm, f, k))
             else Filter(rs, Passed(searchTerm, f, k)))
            == Filter(rs, Passed(searchTerm, f, k + 1))
  {
    var p, keep := Passed(searchTerm, f, k), Keep(searchTerm, f, k);
    if On(searchTerm, f, k) {
      FilterFilter(rs, p, keep);
      FilterCongruent(rs, Both(p, keep), Passed(searchTerm, f, k + 1));
    } else {
      FilterCongruent(rs, p, Passed(searchTerm, f, k + 1));
    }
  }

  /** Passing the three text steps is matching the search term, the cuisine and the price range. */
  lemma {:induction false} PassesTextSteps(r: Restaurant, searchTerm: string, f: Filters)
    ensures PassesUpTo(r, searchTerm, f, 3) == (
      && (searchTerm == "" || MatchesTerm(r, ToLower(searchTerm)))
      && (f.cuisine == "" || Contains(ToLower(r.cuisine), ToLower(f.cuisine)))
      && (f.priceRange == "" || r.priceRange == f.priceRange))
  {
    assert PassesUpTo(r, searchTerm, f, 1) == (searchTerm == "" || MatchesTerm(r, ToLower(searchTerm))) by {
      assert PassesUpTo(r, searchTerm, f, 0);
    }
    assert PassesUpTo(r, searchTerm, f, 2) ==
      (PassesUpTo(r, searchTerm, f, 1) && (f.cuisine == "" || Contains(ToLower(r.cuisine), ToLower(f.cuisine))));
  }

  /** The first three flag steps, after the text steps. */
  lemma {:induction false} PassesFirstFlags(r: Restaurant, searchTerm: string, f: Filters)
    ensures PassesUpTo(r, searchTerm, f, 6) == (PassesUpTo(r, searchTerm, f, 3)
      && (f.isLgbtqFriendly ==> r.isLgbtqFriendly)
      && (f.isSmokingAllowed ==> r.isSmokingAllowed)
      && (f.hasOutdoorSeating ==> r.hasOutdoorSeating))
  {
    assert PassesUpTo(r, searchTerm, f, 4) == (PassesUpTo(r, searchTerm, f, 3) && (f.isLgbtqFriendly ==> r.isLgbtqFriendly));
    assert PassesUpTo(r, searchTerm, f, 5) == (PassesUpTo(r, searchTerm, f, 4) && (f.isSmokingAllowed ==> r.isSmokingAllowed));
  }

  /** The last three flag steps. */
  lemma {:induction false} PassesLastFlags(r: Restaurant, searchTerm: string, f: Filters)
    ensures PassesUpTo(r, searchTerm, f, 9) == (PassesUpTo(r, searchTerm, f, 6)
      && (f.isWheelchairAccessible ==> r.isWheelchairAccessible)
      && (f.hasVeganOptions ==> r.hasVeganOptions)
      && (f.hasVegetarianOptions ==> r.hasVegetarianOptions))
  {
    assert PassesUpTo(r, searchTerm, f, 7) == (PassesUpTo(r, searchTerm, f, 6) && (f.isWheelchairAccessible ==> r.isWheelchairAccessible));
    assert PassesUpTo(r, searchTerm, f, 8) == (PassesUpTo(r, searchTerm, f, 7) && (f.hasVeganOptions ==> r.hasVeganOptions));
  }

  /** Passing all nine steps is matching every condition. */
  lemma {:induction false} PassesAllMatches(r: Restaurant, searchTerm: string, f: Filters)
    ensures PassesUpTo(r, searchTerm, f, 9) == Matches(r, searchTerm, f)
  {
    PassesTextSteps(r, searchTerm, f);
    PassesFirstFlags(r, searchTerm, f);
    PassesLastFlags(r, searchTerm, f);
  }

  /** What the nine steps leave is the matching restaurants, in the fetched order. */
  lemma {:induction false} PipelineMatches(restaurants: seq<Restaurant>, searchTerm: string, f: Filters)
    ensures Filter(restaurants, Passed(searchTerm, f, 9)) == Filter(restaurants, Matcher(searchTerm, f))
    ensures forall r :: r in Filter(restaurants, Matcher(searchTerm, f)) <==> r in restaurants && Matches(r, searchTerm, f)
  {
    forall r ensures Passed(searchTerm, f, 9)(r) == Matcher(searchTerm, f)(r) {
      PassesAllMatches(r, searchTerm, f);
    }
    FilterCongruent(restaurants, Passed(searchTerm, f, 9), Matcher(searchTerm, f));
    forall r ensures r in Filter(restaurants, Matcher(searchTerm, f)) <==> r in restaurants && Matches(r, searchTerm, f) {
      FilterMembership(restaurants, Matcher(searchTerm, f), r);
    }
  }

  /** One step of the filter effect: `if (on) results = results.filter(keep)` for the `k`-th condition. */
  method Narrow(ghost restaurants: seq<Restaurant>, current: seq<Restaurant>, searchTerm: string, f: Filters, k: nat)
    returns (results: seq<Restaurant>)
    requires k < 9
    requires current == Filter(restaurants, Passed(searchTerm, f, k))
    ensures results == Filter(restaurants, Passed(searchTerm, f, k + 1))
  {
    results := current;
    if On(searchTerm, f, k) {
      results := Filter(results, Keep(searchTerm, f, k));
    }
    NarrowStep(restaurants, searchTerm, f, k);
  }

  /**
   * The filter effect: a copy of the fetched list narrowed by each condition that
   * is switched on, in the order search, cuisine, price, then the six flags. The
   * result is the subsequence, in the fetched order, of the restaurants matching
   * every condition.
   */
  method ApplyFilters(restaurants: seq<Restaurant>, searchTerm: string, f: Filters) returns (results: seq<Restaurant>)
    ensures results == Filter(restaurants, Matcher(searchTerm, f))
    ensures forall r :: r in results <==> r in restaurants && Matches(r, searchTerm, f)
  {
    results := restaurants;
    FilterAll(restaurants, Passed(searchTerm, f, 0));
    results := Narrow(restaurants, results, searchTerm, f, 0);
    results := Narrow(restaurants, results, searchTerm, f, 1);
    results := Narrow(restaurants, results, searchTerm, f, 2);
    results := Narrow(restaurants, results, searchTerm, f, 3);
    results := Narrow(restaurants, results, searchTerm, f, 4);
    results := Narrow(restaurants, results, searchTerm, f, 5);
    results := Narrow(restaurants, results, searchTerm, f, 6);
    results := Narrow(restaurants, results, searchTerm, f, 7);
    results := Narrow(restaurants, results, searchTerm, f, 8);
    PipelineMatches(restaurants, searchTerm, f);
  }

  // ---- clearing, and the cuisine list -------------------------------------------

  /** What clearFilters sets: every filter off and an empty search term. */
  const NoFilters: Filters := Filters("", "", false, false, false, false, false, false)

  /** After clearFilters the page lists every fetched restaurant and shows no badge. */
  lemma {:induction false} ClearedShowsAll(restaurants: seq<Restaurant>)
    ensures Filter(restaurants, Matcher("", NoFilters)) == restaurants
    ensures ActiveFilterCount(NoFilters) == 0 && !ShouldPush("", NoFilters)
    ensures QueryParams("", NoFilters) == [] && Url(QueryParams("", NoFilters)) == "/restaurants"
  {
    FilterAll(restaurants, Matcher("", NoFilters));
    QueryMatchesBadge("", NoFilters);
    ActiveFilterCountByField(NoFilters);
  }

  function CuisineList(restaurants: seq<Restaurant>): (r: seq<string>)
    ensures |r| == |restaurants|
    ensures forall i :: 0 <= i < |r| ==> r[i] == restaurants[i].cuisine
  {
    seq(|restaurants|, i requires 0 <= i < |restaurants| => restaurants[i].cuisine)
  }

  /** `[...new Set(restaurants.map((r) => r.cuisine))].sort()`, or [] before the list arrives. */
  function Cuisines(restaurants: Option<seq<Restaurant>>): (r: seq<string>)
    ensures restaurants.None? ==> r == []
    ensures restaurants.Some? ==>
      && SortedBy(r, LexLe) && Distinct(r)
      && forall c :: c in r <==> exists i :: 0 <= i < |restaurants.value| && restaurants.value[i].cuisine == c
  {
    if restaurants.None? then []
    else
      CuisinesSortedDistinct(restaurants.value);
      SortBy(Dedup(CuisineList(restaurants.value)), LexLe)
  }

  /** Sorting the distinct cuisines lists every cuisine of the list once, in order. */
  lemma {:induction false} CuisinesSortedDistinct(restaurants: seq<Restaurant>)
    ensures var r := SortBy(Dedup(CuisineList(restaurants)), LexLe);
      && SortedBy(r, LexLe) && Distinct(r)
      && forall c :: c in r <==> exists i :: 0 <= i < |restaurants| && restaurants[i].cuisine == c
  {
    var d := Dedup(CuisineList(restaurants));
    LexLeTotalPreorder();
    SortBySorted(d, LexLe);
    PermutationDistinct(d, SortBy(d, LexLe));
    forall c ensures c in d <==> exists i :: 0 <= i < |restaurants| && restaurants[i].cuisine == c {
      if c in d {
        var i :| 0 <= i < |CuisineList(restaurants)| && CuisineList(restaurants)[i] == c;
      }
      if exists i :: 0 <= i < |restaurants| && restaurants[i].cuisine == c {
        var i :| 0 <= i < |restaurants| && restaurants[i].cuisine == c;
        assert CuisineList(restaurants)[i] == c;
      }
    }
  }
}
