/**
 * The distillery filter `@source=warehouse.collection`: either part may be
 * the wildcard `*`. The filter is resolved to the collections of the named
 * warehouses and the collections of that name, and then to the
 * distilleries of those collections. Each step stops at the first error
 * of the steps before it.
 */
module DistilleryFilter {
  import opened Base
  import opened Text
  import opened Patterns
  import opened Catalog

  const FilterInvalidParameter := "Invalid parameter string."
  const FilterValueIsEmpty := "Distillery filter value is empty."
  const InvalidFilter := "Invalid filter value."
  /** Appended as it stands: the source never fills in its placeholder. */
  const NoMatchingDistilleries := "There were no matching distilleries " + "for `{}`."
  const Wildcard := "*"

  /** `CANNOT_FIND_WAREHOUSE.format(name)`. */
  function CannotFindWarehouse(name: string): string
  {
    "Cannot find warehouse that matches name `" + name + "`."
  }

  /** `CANNOT_FIND_COLLECTION.format(name)`. */
  function CannotFindCollection(name: string): string
  {
    "Cannot find collection that matches name `" + name + "`."
  }

  /** `[\w.*]`. */
  predicate IsFilterChar(c: char)
  {
    IsWordOrDot(c) || c == '*'
  }

  const SourcePrefix := "@source="

  /** What FILTER_REGEX `^@source=(?P<filter>[\w.*]+)?$` gives for a parameter. */
  datatype FilterMatch = NoFilterMatch | EmptyFilter | FilterText(filter: string)

  function MatchFilter(parameter: string): FilterMatch
  {
    if |parameter| >= 8 && parameter[..8] == SourcePrefix then
      var rest := parameter[8..];
      if rest == "" then EmptyFilter
      else if forall i :: 0 <= i < |rest| ==> IsFilterChar(rest[i]) then FilterText(rest)
      else NoFilterMatch
    else NoFilterMatch
  }

  /** `\*|\w+`. */
  predicate IsFilterPart(x: string)
  {
    x == Wildcard || (x != "" && AllWord(x))
  }

  /** FILTER_GROUPS_REGEX `^(?P<warehouse>\*|\w+)\.(?P<collection>\*|\w+)$`: the warehouse and collection groups. */
  function MatchFilterGroups(f: string): Option<(string, string)>
  {
    if '.' in f then
      var i := IndexOf(f, '.');
      if IsFilterPart(f[..i]) && IsFilterPart(f[i + 1..]) then Some((f[..i], f[i + 1..])) else None
    else None
  }

  /** The groups are the two sides of the one dot, each a word or the wildcard. */
  lemma FilterGroupsIff(f: string, w: string, c: string)
    ensures MatchFilterGroups(f) == Some((w, c)) <==> f == w + "." + c && IsFilterPart(w) && IsFilterPart(c)
  {
    if f == w + "." + c && IsFilterPart(w) && IsFilterPart(c) {
      assert '.' !in w;
      IndexOfConcat(w, c, '.');
      assert f[..|w|] == w && f[|w| + 1..] == c;
    }
    if MatchFilterGroups(f) == Some((w, c)) {
      var i := IndexOf(f, '.');
      assert f == f[..i] + "." + f[i + 1..];
    }
  }

  /** The keys of the warehouses named `name`. */
  function WarehousePks(t: Tables, name: string): set<nat>
  {
    set w | w in t.warehouses && w.name == name :: w.pk
  }

  /** `_get_collection_pks_of_warehouse_name(warehouse)`: the keys found and the errors added. */
  function CollectionPksOfWarehouse(t: Tables, warehouse: string): (set<nat>, seq<string>)
  {
    if warehouse == Wildcard then ({}, [])
    else
      var whs := WarehousePks(t, warehouse);
      if whs == {} then ({}, [CannotFindWarehouse(warehouse)])
      else (set c | c in t.collections && c.warehouse in whs :: c.pk, [])
  }

  /** `_get_collection_pks_of_collection_name(collection)`: the keys found and the errors added. */
  function CollectionPksOfName(t: Tables, collection: string): (set<nat>, seq<string>)
  {
    if collection == Wildcard then ({}, [])
    else
      var cs := set c | c in t.collections && c.name == collection :: c.pk;
      if cs == {} then ({}, [CannotFindCollection(collection)]) else (cs, [])
  }

  /** The intersection when both lists are non-empty, the union otherwise. */
  function ResolveCollections(fromWarehouses: set<nat>, byName: set<nat>): (r: set<nat>)
    ensures fromWarehouses == {} ==> r == byName
    ensures byName == {} ==> r == fromWarehouses
    ensures fromWarehouses != {} && byName != {} ==> r == fromWarehouses * byName
  {
    if byName != {} && fromWarehouses != {} then fromWarehouses * byName else fromWarehouses + byName
  }

  /** `Distillery.objects.filter(collection__in=collections)`, in table order. */
  function DistilleriesIn(ds: seq<Distillery>, collections: set<nat>): (r: seq<Distillery>)
    ensures forall d :: d in r <==> d in ds && d.collection in collections
    ensures |r| <= |ds|
  {
    if ds == [] then []
    else
      DistilleriesIn(ds[..|ds| - 1], collections)
      + (if ds[|ds| - 1].collection in collections then [ds[|ds| - 1]] else [])
  }

  /**
   * A DistilleryFilterParameter. `warehouse`, `collection` and
   * `distilleries` are `None` where the constructor returned before
   * setting them.
   */
  datatype DistilleryFilterParameter = DistilleryFilterParameter(
    index: nat, parameter: string, filter: Option<string>, warehouse: Option<string>,
    collection: Option<string>, distilleries: Option<seq<Distillery>>, errors: seq<string>)

  predicate FilterIsValid(p: DistilleryFilterParameter)
  {
    p.errors == []
  }

  /** `_get_distilleries(warehouse, collection)`: the distilleries and the errors added. */
  function GetDistilleries(t: Tables, w: string, c: string): (seq<Distillery>, seq<string>)
  {
    var (fromWarehouses, e1) := CollectionPksOfWarehouse(t, w);
    var (byName, e2) := CollectionPksOfName(t, c);
    var collections := ResolveCollections(fromWarehouses, byName);
    if e1 + e2 != [] then ([], e1 + e2)
    else
      var ds := DistilleriesIn(t.distilleries, collections);
      if ds == [] then ([], [NoMatchingDistilleries]) else (ds, [])
  }

  /** What `DistilleryFilterParameter(index, parameter)` holds once built. */
  function DistilleryFilterOf(index: nat, parameter: string, t: Tables): DistilleryFilterParameter
  {
    match MatchFilter(parameter)
    case NoFilterMatch => DistilleryFilterParameter(index, parameter, None, None, None, None, [FilterInvalidParameter])
    case EmptyFilter => DistilleryFilterParameter(index, parameter, None, None, None, None, [FilterValueIsEmpty])
    case FilterText(f) =>
      match MatchFilterGroups(f)
      case None => DistilleryFilterParameter(index, parameter, Some(f), None, None, None, [InvalidFilter])
      case Some((w, c)) =>
        var (ds, errors) := GetDistilleries(t, w, c);
        DistilleryFilterParameter(index, parameter, Some(f), Some(w), Some(c), Some(ds), errors)
  }

  /** `DistilleryFilterParameter.__init__`: each step appends its errors and the constructor returns at the first invalid step. */
  method NewDistilleryFilter(index: nat, parameter: string, t: Tables) returns (r: DistilleryFilterParameter)
    ensures r == DistilleryFilterOf(index, parameter, t)
  {
    var errors: seq<string> := [];
    var m := MatchFilter(parameter);
    if m.NoFilterMatch? {
      errors := errors + [FilterInvalidParameter];
      return DistilleryFilterParameter(index, parameter, None, None, None, None, errors);
    }
    if m.EmptyFilter? {
      errors := errors + [FilterValueIsEmpty];
      return DistilleryFilterParameter(index, parameter, None, None, None, None, errors);
    }
    var filter := m.filter;
    var groups := MatchFilterGroups(filter);
    if groups.None? {
      errors := errors + [InvalidFilter];
      return DistilleryFilterParameter(index, parameter, Some(filter), None, None, None, errors);
    }
    var (w, c) := groups.value;
    var (fromWarehouses, e1) := CollectionPksOfWarehouse(t, w);
    errors := errors + e1;
    var (byName, e2) := CollectionPksOfName(t, c);
    errors := errors + e2;
    var collections := ResolveCollections(fromWarehouses, byName);
    var ds: seq<Distillery> := [];
    if errors == [] {
      ds := DistilleriesIn(t.distilleries, collections);
      if ds == [] {
        errors := errors + [NoMatchingDistilleries];
      }
    }
    r := DistilleryFilterParameter(index, parameter, Some(filter), Some(w), Some(c), Some(ds), errors);
  }

  /** A string not of the form `@source=` + filter characters has exactly INVALID_PARAMETER; `@source=` alone has exactly FILTER_VALUE_IS_EMPTY. */
  lemma FilterEarlyExits(index: nat, parameter: string, t: Tables)
    ensures var p := DistilleryFilterOf(index, parameter, t);
      (MatchFilter(parameter).NoFilterMatch? <==>
         !(|parameter| >= 8 && parameter[..8] == SourcePrefix
           && forall i :: 8 <= i < |parameter| ==> IsFilterChar(parameter[i])))
      && (MatchFilter(parameter).NoFilterMatch? ==> p.errors == [FilterInvalidParameter] && p.distilleries.None?)
      && (parameter == SourcePrefix ==> p.errors == [FilterValueIsEmpty] && p.filter.None? && p.distilleries.None?)
  {
    if |parameter| >= 8 && parameter[..8] == SourcePrefix {
      var rest := parameter[8..];
      assert forall i :: 8 <= i < |parameter| ==> parameter[i] == rest[i - 8];
    }
  }

  /** The filter of `@source=w.c` splits into its warehouse `w` and collection `c`. */
  lemma FilterSplits(index: nat, w: string, c: string, t: Tables)
    requires IsFilterPart(w) && IsFilterPart(c)
    ensures var p := DistilleryFilterOf(index, SourcePrefix + w + "." + c, t);
      p.filter == Some(w + "." + c) && p.warehouse == Some(w) && p.collection == Some(c) && p.distilleries.Some?
  {
    FilterTextOf(w, c);
    FilterGroupsIff(w + "." + c, w, c);
  }

  /** `@source=w.c` matches FILTER_REGEX with filter `w.c`. */
  lemma FilterTextOf(w: string, c: string)
    requires IsFilterPart(w) && IsFilterPart(c)
    ensures MatchFilter(SourcePrefix + w + "." + c) == FilterText(w + "." + c)
  {
    var s := SourcePrefix + w + "." + c;
    assert s[..8] == SourcePrefix;
    assert s[8..] == w + "." + c;
    var f := w + "." + c;
    assert forall i :: 0 <= i < |f| ==> IsFilterChar(f[i]) by {
      forall i | 0 <= i < |f|
        ensures IsFilterChar(f[i])
      {
        if i < |w| {
          assert f[i] == w[i];
        } else if i > |w| {
          assert f[i] == c[i - |w| - 1];
        }
      }
    }
  }

  /**
   * With a well-formed filter the errors are CANNOT_FIND_WAREHOUSE (a named
   * warehouse that does not exist), then CANNOT_FIND_COLLECTION (a named
   * collection that does not exist), and when neither occurred,
   * NO_MATCHING_DISTILLERIES exactly when no distillery's collection is in
   * the resolved set. The distilleries are those whose collection is in
   * that set, and none after an error.
   */
  lemma FilterResolution(index: nat, w: string, c: string, t: Tables)
    requires IsFilterPart(w) && IsFilterPart(c)
    ensures var p := DistilleryFilterOf(index, SourcePrefix + w + "." + c, t);
      var missingW := w != Wildcard && WarehousePks(t, w) == {};
      var missingC := c != Wildcard && (set k | k in t.collections && k.name == c :: k.pk) == {};
      var resolved := ResolveCollections(CollectionPksOfWarehouse(t, w).0, CollectionPksOfName(t, c).0);
      var lookupErrors := (if missingW then [CannotFindWarehouse(w)] else []) + (if missingC then [CannotFindCollection(c)] else []);
      (lookupErrors != [] ==> p.errors == lookupErrors && p.distilleries == Some([]))
      && (lookupErrors == [] ==>
            p.distilleries.Some?
            && (forall d :: d in p.distilleries.value <==> d in t.distilleries && d.collection in resolved)
            && (p.errors == [] <==> exists d :: d in t.distilleries && d.collection in resolved)
            && (p.errors != [] ==> p.errors == [NoMatchingDistilleries]))
  {
    FilterTextOf(w, c);
    FilterGroupsIff(w + "." + c, w, c);
    var resolved := ResolveCollections(CollectionPksOfWarehouse(t, w).0, CollectionPksOfName(t, c).0);
    var ds := DistilleriesIn(t.distilleries, resolved);
    if ds != [] {
      assert ds[0] in ds;
    }
  }

  /** What a wildcard leaves: `*.c` resolves to the collections named `c`, `w.*` to those of the warehouses named `w`. */
  lemma WildcardResolution(t: Tables, w: string, c: string)
    ensures w == Wildcard ==>
      ResolveCollections(CollectionPksOfWarehouse(t, w).0, CollectionPksOfName(t, c).0) == CollectionPksOfName(t, c).0
    ensures c == Wildcard ==>
      ResolveCollections(CollectionPksOfWarehouse(t, w).0, CollectionPksOfName(t, c).0) == CollectionPksOfWarehouse(t, w).0
  {
  }

  /** `@source=*.*` names no collection at all, so it always ends in NO_MATCHING_DISTILLERIES. */
  lemma DoubleWildcardMatchesNothing(index: nat, t: Tables)
    ensures DistilleryFilterOf(index, SourcePrefix + "*.*", t).errors == [NoMatchingDistilleries]
    ensures DistilleryFilterOf(index, SourcePrefix + "*.*", t).distilleries == Some([])
  {
    assert SourcePrefix + "*.*" == SourcePrefix + Wildcard + "." + Wildcard;
    FilterResolution(index, Wildcard, Wildcard, t);
  }
}
