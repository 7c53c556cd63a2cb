/**
 * `DistillerySearchResults` and `DistillerySearchResultsList`: the
 * fieldsets a search query gives for one distillery, the engine search
 * they run, and the per-distillery counts summed over a list.
 *
 * The search engine (`Distillery.find`), the `SearchResults` base class
 * and the field parameters' `is_related_to_distillery` / `create_fieldset`
 * are not part of this model: they enter as function-typed parameters and
 * the base class's starting count as a number.
 */
module DistillerySearch {
  import opened Base
  import opened Text
  import opened Catalog
  import opened Parameter
  import opened SearchQueries

  /** The two field-parameter methods the results use, whose code is not part of this model. */
  datatype FieldOps = FieldOps(related: (FieldSearchParameter, Distillery) -> bool,
                               create: FieldSearchParameter -> Fieldset)

  /** An `EngineQuery`: its subqueries and their joiner. */
  datatype EngineQuery = EngineQuery(subqueries: seq<Fieldset>, joiner: string)

  /** A truthy result of `Distillery.find`: its `count` and its `results`. */
  datatype FindResult = FindResult(count: nat, results: seq<Doc>)

  /** `Distillery.find(engine_query, page=, page_size=)`; `None` stands for a falsy result. */
  type Find = (Distillery, EngineQuery, nat, nat) -> Option<FindResult>

  /* Fieldsets. */

  /** `_get_field_fieldsets(distillery, field_parameters)`: the fieldsets of the parameters related to the distillery, in order. */
  function FieldFieldsets(d: Distillery, params: seq<FieldSearchParameter>, ops: FieldOps): (r: seq<Fieldset>)
    ensures |r| == CountIf(params, p => ops.related(p, d))
    ensures forall f :: f in r <==> exists i :: 0 <= i < |params| && ops.related(params[i], d) && f == ops.create(params[i])
  {
    if params == [] then []
    else
      var n := |params| - 1;
      var front := FieldFieldsets(d, params[..n], ops);
      assert forall i :: 0 <= i < n ==> params[..n][i] == params[i];
      front + (if ops.related(params[n], d) then [ops.create(params[n])] else [])
  }

  /** `_create_keyword_fieldset(text_field, keywords)`. */
  function KeywordFieldset(textField: DataField, keywords: seq<string>): Fieldset
  {
    Fieldset(textField.fieldName, textField.fieldType, "regex", Join(keywords, "|"))
  }

  /**
   * `_get_keyword_fieldsets(distillery, keywords)`: nothing without
   * keywords, else one `regex` fieldset per text field. When no keyword
   * holds a `|` itself, each fieldset's value splits back on `|` into
   * exactly the keywords, in order.
   */
  function KeywordFieldsets(d: Distillery, keywords: Option<seq<string>>): (r: seq<Fieldset>)
    ensures keywords.None? || keywords.value == [] ==> r == []
    ensures keywords.Some? && keywords.value != [] ==>
      |r| == |d.textFields|
      && forall i :: 0 <= i < |r| ==>
           r[i] == Fieldset(d.textFields[i].fieldName, d.textFields[i].fieldType, "regex", Join(keywords.value, "|"))
    ensures keywords.Some? && (forall k :: 0 <= k < |keywords.value| ==> '|' !in keywords.value[k]) ==>
      forall i :: 0 <= i < |r| ==> Split(r[i].value, '|') == keywords.value
  {
    if keywords.None? || keywords.value == [] then []
    else
      assert (forall k :: 0 <= k < |keywords.value| ==> '|' !in keywords.value[k]) ==>
               Split(Join(keywords.value, "|"), '|') == keywords.value by {
        if forall k :: 0 <= k < |keywords.value| ==> '|' !in keywords.value[k] {
          SplitJoin(keywords.value, '|');
        }
      }
      seq(|d.textFields|, i requires 0 <= i < |d.textFields| => KeywordFieldset(d.textFields[i], keywords.value))
  }

  /** `_get_fieldsets(distillery, query)`: the field fieldsets, then the keyword fieldsets. */
  function GetFieldsets(d: Distillery, st: QueryState, ops: FieldOps): seq<Fieldset>
  {
    FieldFieldsets(d, st.fieldParameters, ops) + KeywordFieldsets(d, Keywords(st))
  }

  /**
   * Field fieldsets come first and keyword fieldsets after them; there are
   * none exactly when no field parameter is related to the distillery and
   * the query has no keywords or the distillery no text fields.
   */
  lemma GetFieldsetsOrder(d: Distillery, st: QueryState, ops: FieldOps)
    ensures var r := GetFieldsets(d, st, ops);
      var ff := FieldFieldsets(d, st.fieldParameters, ops);
      |ff| <= |r| && r[..|ff|] == ff && r[|ff|..] == KeywordFieldsets(d, Keywords(st))
    ensures GetFieldsets(d, st, ops) == [] <==>
      (forall i :: 0 <= i < |st.fieldParameters| ==> !ops.related(st.fieldParameters[i], d))
      && (st.keywordParameters == [] || d.textFields == [])
  {
    var ff := FieldFieldsets(d, st.fieldParameters, ops);
    var r := GetFieldsets(d, st, ops);
    assert r[..|ff|] == ff;
    if ff != [] {
      assert ff[0] in ff;
    }
    if exists i :: 0 <= i < |st.fieldParameters| && ops.related(st.fieldParameters[i], d) {
      var i :| 0 <= i < |st.fieldParameters| && ops.related(st.fieldParameters[i], d);
      assert ops.create(st.fieldParameters[i]) in ff;
    }
    var kw := Keywords(st);
    if st.keywordParameters != [] && d.textFields != [] {
      assert |KeywordFieldsets(d, kw)| == |d.textFields|;
    }
  }

  /* One distillery's results. */

  /** What `DistillerySearchResults.__init__` leaves in its fields. */
  datatype Outcome = Outcome(fieldsets: seq<Fieldset>, engineQuery: Option<EngineQuery>, count: int, results: seq<Doc>)

  /**
   * `DistillerySearchResults(query, distillery, page, page_size)`, with
   * `initial` the count the base class starts from: without fieldsets no
   * search runs; otherwise the OR of the fieldsets is searched and its
   * count and results are taken only when the result is truthy and its
   * count non-zero.
   */
  function OutcomeOf(st: QueryState, d: Distillery, page: nat, pageSize: nat, ops: FieldOps, find: Find, initial: int): Outcome
  {
    var fieldsets := GetFieldsets(d, st, ops);
    if fieldsets == [] then Outcome(fieldsets, None, initial, [])
    else
      var q := EngineQuery(fieldsets, "OR");
      var found := find(d, q, page, pageSize);
      if found.Some? && found.value.count != 0 then Outcome(fieldsets, Some(q), initial + found.value.count, found.value.results)
      else Outcome(fieldsets, Some(q), initial, [])
  }

  /** Without fieldsets there is no engine query and no result, whatever the search engine would have answered. */
  lemma NoFieldsetsNoSearch(st: QueryState, d: Distillery, page: nat, pageSize: nat, ops: FieldOps, find: Find, find': Find, initial: int)
    requires GetFieldsets(d, st, ops) == []
    ensures OutcomeOf(st, d, page, pageSize, ops, find, initial) == OutcomeOf(st, d, page, pageSize, ops, find', initial)
    ensures var r := OutcomeOf(st, d, page, pageSize, ops, find, initial);
      r.engineQuery.None? && r.results == [] && r.count == initial
  {
  }

  /**
   * The count never drops below the base count; it rises exactly when the
   * search ran and found a non-zero count, by that count, and only then
   * are the found results kept.
   */
  lemma OutcomeCount(st: QueryState, d: Distillery, page: nat, pageSize: nat, ops: FieldOps, find: Find, initial: int)
    ensures var r := OutcomeOf(st, d, page, pageSize, ops, find, initial);
      var q := EngineQuery(GetFieldsets(d, st, ops), "OR");
      var hit := GetFieldsets(d, st, ops) != [] && find(d, q, page, pageSize).Some? && find(d, q, page, pageSize).value.count != 0;
      r.count >= initial
      && (r.count > initial <==> hit)
      && (hit ==> r.count == initial + find(d, q, page, pageSize).value.count && r.results == find(d, q, page, pageSize).value.results)
      && (!hit ==> r.count == initial && r.results == [])
  {
  }

  /** A `DistillerySearchResults` object. */
  class DistillerySearchResults {
    var count: int
    var results: seq<Doc>
    var distillery: Distillery
    var fieldsets: seq<Fieldset>
    var engineQuery: Option<EngineQuery>

    function Fields(): Outcome
      reads this
    {
      Outcome(fieldsets, engineQuery, count, results)
    }

    /** `DistillerySearchResults.__init__(query, distillery, page, page_size)`. */
    constructor (st: QueryState, d: Distillery, page: nat, pageSize: nat, ops: FieldOps, find: Find, initial: int)
      ensures distillery == d
      ensures Fields() == OutcomeOf(st, d, page, pageSize, ops, find, initial)
    {
      count := initial;
      results := [];
      distillery := d;
      fieldsets := [];
      engineQuery := None;
      new;
      fieldsets := GetFieldsets(d, st, ops);
      if fieldsets == [] {
        return;
      }
      engineQuery := Some(EngineQuery(fieldsets, "OR"));
      var found := find(distillery, engineQuery.value, page, pageSize);
      if found.Some? && found.value.count != 0 {
        count := count + found.value.count;
        results := found.value.results;
      }
    }
  }

  /* The list over distilleries. */

  function Sum(xs: seq<int>): int
  {
    if xs == [] then 0 else Sum(xs[..|xs| - 1]) + xs[|xs| - 1]
  }

  /** A sum of non-negative numbers is zero exactly when every one is zero. */
  lemma {:induction false} SumZero(xs: seq<int>)
    requires forall i :: 0 <= i < |xs| ==> xs[i] >= 0
    ensures Sum(xs) >= 0
    ensures Sum(xs) == 0 <==> forall i :: 0 <= i < |xs| ==> xs[i] == 0
  {
    if xs != [] {
      var front := xs[..|xs| - 1];
      assert forall i :: 0 <= i < |front| ==> front[i] == xs[i];
      SumZero(front);
    }
  }

  /** The counts of a list of results. */
  function Counts(rs: seq<DistillerySearchResults>): (r: seq<int>)
    reads rs
    ensures |r| == |rs| && forall i :: 0 <= i < |rs| ==> r[i] == rs[i].count
  {
    seq(|rs|, i reads rs requires 0 <= i < |rs| => rs[i].count)
  }

  /** `_get_result_count(results)`: the counts added up from 0, one result at a time. */
  method GetResultCount(rs: seq<DistillerySearchResults>) returns (total: int)
    ensures total == Sum(Counts(rs))
  {
    total := 0;
    var i := 0;
    while i < |rs|
      invariant 0 <= i <= |rs|
      invariant total == Sum(Counts(rs)[..i])
    {
      assert Counts(rs)[..i + 1][..i] == Counts(rs)[..i];
      total := total + rs[i].count;
      i := i + 1;
    }
    assert Counts(rs)[..|rs|] == Counts(rs);
  }

  /** The distilleries of the list: the query's when it names any, otherwise all of them. */
  function ListDistilleries(st: QueryState, all: seq<Distillery>): (r: seq<Distillery>)
    ensures Distilleries(st).Some? && Distilleries(st).value != [] ==> r == Distilleries(st).value
    ensures Distilleries(st).None? || Distilleries(st).value == [] ==> r == all
  {
    var ds := Distilleries(st);
    if ds.Some? && ds.value != [] then ds.value else all
  }

  /** Whether `_get_distillery_search_results` searches at all: the query has keywords or field parameters. */
  predicate Searches(st: QueryState)
  {
    Keywords(st).Some? || st.fieldParameters != []
  }

  /** `_get_distillery_search_results(distilleries, query, page, page_size)`: one result per distillery, or none. */
  method GetDistillerySearchResults(st: QueryState, ds: seq<Distillery>, page: nat, pageSize: nat, ops: FieldOps, find: Find, initial: int)
    returns (rs: seq<DistillerySearchResults>)
    ensures Searches(st) ==> |rs| == |ds|
    ensures !Searches(st) ==> rs == []
    ensures forall i :: 0 <= i < |rs| ==>
      fresh(rs[i]) && rs[i].distillery == ds[i] && rs[i].Fields() == OutcomeOf(st, ds[i], page, pageSize, ops, find, initial)
  {
    rs := [];
    if !Searches(st) {
      return;
    }
    var i := 0;
    while i < |ds|
      invariant 0 <= i <= |ds| && |rs| == i
      invariant forall k :: 0 <= k < i ==>
        fresh(rs[k]) && rs[k].distillery == ds[k] && rs[k].Fields() == OutcomeOf(st, ds[k], page, pageSize, ops, find, initial)
    {
      var r := new DistillerySearchResults(st, ds[i], page, pageSize, ops, find, initial);
      rs := rs + [r];
      i := i + 1;
    }
  }

  /** The per-distillery counts the list adds up. */
  function ListCounts(st: QueryState, ds: seq<Distillery>, page: nat, pageSize: nat, ops: FieldOps, find: Find, initial: int): (r: seq<int>)
    ensures |r| == (if Searches(st) then |ds| else 0)
  {
    if Searches(st) then seq(|ds|, i requires 0 <= i < |ds| => OutcomeOf(st, ds[i], page, pageSize, ops, find, initial).count)
    else []
  }

  /** A `DistillerySearchResultsList` object. */
  class DistillerySearchResultsList {
    var count: int
    var distilleries: seq<Distillery>
    var results: seq<DistillerySearchResults>

    /** `DistillerySearchResultsList.__init__(query, page, page_size)`, with `all` the stored distilleries. */
    constructor (st: QueryState, all: seq<Distillery>, page: nat, pageSize: nat, ops: FieldOps, find: Find, initial: int)
      ensures distilleries == ListDistilleries(st, all)
      ensures Counts(results) == ListCounts(st, distilleries, page, pageSize, ops, find, initial)
      ensures count == Sum(Counts(results))
      ensures forall i :: 0 <= i < |results| ==>
        fresh(results[i]) && results[i].distillery == distilleries[i]
        && results[i].Fields() == OutcomeOf(st, distilleries[i], page, pageSize, ops, find, initial)
    {
      count := 0;
      var ds := ListDistilleries(st, all);
      distilleries := ds;
      var rs := GetDistillerySearchResults(st, ds, page, pageSize, ops, find, initial);
      results := rs;
      var total := GetResultCount(rs);
      count := total;
    }

    /** `_get_results_as_dict`'s selection: the results whose count is non-zero, in order. */
    function Shown(): (r: seq<DistillerySearchResults>)
      reads this, results
      ensures forall k :: 0 <= k < |r| ==> r[k] in results && r[k].count != 0
      ensures forall i :: 0 <= i < |results| && results[i].count != 0 ==> results[i] in r
    {
      ShownOf(results)
    }
  }

  /** The results with a non-zero count, in order. */
  function ShownOf(rs: seq<DistillerySearchResults>): (r: seq<DistillerySearchResults>)
    reads rs
    ensures |r| <= |rs|
    ensures forall k :: 0 <= k < |r| ==> r[k] in rs && r[k].count != 0
    ensures forall i :: 0 <= i < |rs| && rs[i].count != 0 ==> rs[i] in r
  {
    if rs == [] then []
    else
      var n := |rs| - 1;
      var front := ShownOf(rs[..n]);
      assert forall i :: 0 <= i < n ==> rs[..n][i] == rs[i];
      front + (if rs[n].count != 0 then [rs[n]] else [])
  }

  /**
   * The results shown are a subsequence of the results: `idx` picks them
   * out at increasing positions, and every result with a non-zero count
   * is picked.
   */
  lemma {:induction false} ShownOfInOrder(rs: seq<DistillerySearchResults>) returns (idx: seq<nat>)
    ensures Picks(rs, ShownOf(rs), idx)
    ensures forall i :: 0 <= i < |rs| && rs[i].count != 0 ==> i in idx
  {
    if rs == [] {
      idx := [];
    } else {
      var n := |rs| - 1;
      var init := rs[..n];
      var front := ShownOfInOrder(init);
      assert rs == init + [rs[n]];
      assert ShownOf(rs) == ShownOf(init) + (if rs[n].count != 0 then [rs[n]] else []);
      idx := front + (if rs[n].count != 0 then [n] else []);
      PickedAppend(init, ShownOf(init), front, rs[n], rs[n].count != 0);
      forall i | 0 <= i < |rs| && rs[i].count != 0
        ensures i in idx
      {
        if i < n {
          assert init[i] == rs[i];
          assert i in front;
        } else {
          assert idx[|front|] == n;
        }
      }
    }
  }

  /** `idx` picks `ys` out of `xs` at increasing positions. */
  ghost predicate Picks<T>(xs: seq<T>, ys: seq<T>, idx: seq<nat>)
  {
    |idx| == |ys|
    && (forall k :: 0 <= k < |idx| ==> idx[k] < |xs| && ys[k] == xs[idx[k]])
    && (forall k, l :: 0 <= k < l < |idx| ==> idx[k] < idx[l])
  }

  /** Picking one more element, or not, after the last one keeps the picks increasing. */
  lemma PickedAppend<T>(xs: seq<T>, ys: seq<T>, idx: seq<nat>, x: T, take: bool)
    requires Picks(xs, ys, idx)
    ensures Picks(xs + [x], ys + (if take then [x] else []), idx + (if take then [|xs|] else []))
  {
    var xs', ys', idx' := xs + [x], ys + (if take then [x] else []), idx + (if take then [|xs|] else []);
    forall k | 0 <= k < |idx'|
      ensures idx'[k] < |xs'| && ys'[k] == xs'[idx'[k]]
    {
      if k < |idx| {
        assert idx'[k] == idx[k] && ys'[k] == ys[k] && xs'[idx[k]] == xs[idx[k]];
      }
    }
  }

  /**
   * Without keywords and field parameters the list is empty and its count
   * is 0; otherwise it holds one result per distillery.
   */
  lemma ListWithoutSearch(st: QueryState, ds: seq<Distillery>, page: nat, pageSize: nat, ops: FieldOps, find: Find, initial: int)
    requires st.keywordParameters == [] && st.fieldParameters == []
    ensures ListCounts(st, ds, page, pageSize, ops, find, initial) == []
    ensures Sum(ListCounts(st, ds, page, pageSize, ops, find, initial)) == 0
  {
  }

  /**
   * When the base count is 0, the list's count is 0 exactly when every
   * distillery's count is 0, that is when no result would be shown.
   */
  lemma ListCountZero(st: QueryState, ds: seq<Distillery>, page: nat, pageSize: nat, ops: FieldOps, find: Find)
    ensures var cs := ListCounts(st, ds, page, pageSize, ops, find, 0);
      Sum(cs) >= 0 && (Sum(cs) == 0 <==> forall i :: 0 <= i < |cs| ==> cs[i] == 0)
  {
    var cs := ListCounts(st, ds, page, pageSize, ops, find, 0);
    forall i | 0 <= i < |cs|
      ensures cs[i] >= 0
    {
      OutcomeCount(st, ds[i], page, pageSize, ops, find, 0);
    }
    SumZero(cs);
  }

  /** The results shown by a list are exactly the ones with a non-zero count; with a zero count none is shown. */
  lemma ShownMatchesCount(rs: seq<DistillerySearchResults>)
    requires forall i :: 0 <= i < |rs| ==> rs[i].count >= 0
    ensures Sum(Counts(rs)) == 0 <==> ShownOf(rs) == []
  {
    var cs := Counts(rs);
    SumZero(cs);
    var sh := ShownOf(rs);
    if sh != [] {
      assert sh[0] in sh;
    }
    if Sum(cs) != 0 {
      var i :| 0 <= i < |cs| && cs[i] != 0;
      assert rs[i] in sh;
    }
  }
}
