/**
 * Database helpers: counting the rows of a query set per option value,
 * and folding a list of query objects into one with OR or AND.
 */
module DbUtils {
  import opened Base

  /** The number of rows whose `column` holds `value`: `queryset.filter(column=value).count()`. */
  function CountEqual(rows: seq<Doc>, column: string, value: Json): (n: nat)
    ensures n <= |rows|
    ensures n == 0 <==> forall i :: 0 <= i < |rows| ==> Get(rows[i], column) != Some(value)
  {
    if rows == [] then 0
    else CountEqual(rows[..|rows| - 1], column, value) + (if Get(rows[|rows| - 1], column) == Some(value) then 1 else 0)
  }

  /** The values of a choices list: the first element of each pair. */
  function OptionValues(options: seq<(Json, string)>): set<Json>
  {
    set i | 0 <= i < |options| :: options[i].0
  }

  /**
   * `count_by_group(queryset, column, options)`: `{column: {v: n}}` with one
   * entry per option value `v`, `n` the number of rows holding `v`.
   */
  method CountByGroup(rows: seq<Doc>, column: string, options: seq<(Json, string)>)
    returns (r: map<string, map<Json, nat>>)
    ensures r.Keys == {column}
    ensures r[column].Keys == OptionValues(options)
    ensures forall v :: v in r[column] ==> r[column][v] == CountEqual(rows, column, v)
  {
    var counts: map<Json, nat> := map[];
    var i := 0;
    while i < |options|
      invariant 0 <= i <= |options|
      invariant counts.Keys == OptionValues(options[..i])
      invariant forall v :: v in counts ==> counts[v] == CountEqual(rows, column, v)
    {
      var value := options[i].0;
      counts := counts[value := CountEqual(rows, column, value)];
      assert OptionValues(options[..i + 1]) == OptionValues(options[..i]) + {options[i].0} by {
        assert forall k :: 0 <= k < i ==> options[..i + 1][k] == options[..i][k];
      }
      i := i + 1;
    }
    assert options[..i] == options;
    r := map[column := counts];
  }

  /** A query object: an atomic lookup, or the `|` / `&` of two queries. */
  datatype Q = Atom(lookup: string) | Or(left: Q, right: Q) | And(left: Q, right: Q)

  /** Whether a row satisfies a query, given which atomic lookups it satisfies. */
  function Eval(q: Q, holds: string -> bool): bool
  {
    match q
    case Atom(l) => holds(l)
    case Or(a, b) => Eval(a, holds) || Eval(b, holds)
    case And(a, b) => Eval(a, holds) && Eval(b, holds)
  }

  datatype Logic = AndLogic | OrLogic

  /** `logic in ['AND', 'OR']`. */
  function ParseLogic(logic: string): (r: Option<Logic>)
    ensures r == Some(AndLogic) <==> logic == "AND"
    ensures r == Some(OrLogic) <==> logic == "OR"
    ensures r.None? <==> logic != "AND" && logic != "OR"
  {
    if logic == "AND" then Some(AndLogic) else if logic == "OR" then Some(OrLogic) else None
  }

  /** `joined |= query` or `joined &= query` for each query in turn. */
  function Fold(acc: Q, qs: seq<Q>, logic: Logic): Q
  {
    if qs == [] then acc
    else
      var front := Fold(acc, qs[..|qs| - 1], logic);
      if logic == OrLogic then Or(front, qs[|qs| - 1]) else And(front, qs[|qs| - 1])
  }

  /** The folded query is the OR of `acc` and all of `qs`, or their AND. */
  lemma {:induction false} FoldEval(acc: Q, qs: seq<Q>, logic: Logic, holds: string -> bool)
    ensures logic == OrLogic ==>
      (Eval(Fold(acc, qs, logic), holds) <==> Eval(acc, holds) || exists i :: 0 <= i < |qs| && Eval(qs[i], holds))
    ensures logic == AndLogic ==>
      (Eval(Fold(acc, qs, logic), holds) <==> Eval(acc, holds) && forall i :: 0 <= i < |qs| ==> Eval(qs[i], holds))
  {
    if qs != [] {
      var front := qs[..|qs| - 1];
      FoldEval(acc, front, logic, holds);
      assert forall i :: 0 <= i < |front| ==> front[i] == qs[i];
    }
  }

  datatype JoinError =
    | AssertionError  // `logic` is neither 'AND' nor 'OR'
    | IndexError      // `pop` on an empty list

  datatype JoinResult = Joined(query: Q) | Failed(error: JoinError)

  /** What `join_query(queries, logic)` returns for the caller's list `qs`. */
  function JoinOf(qs: seq<Q>, logic: string): JoinResult
  {
    match ParseLogic(logic)
    case None => Failed(AssertionError)
    case Some(l) => if qs == [] then Failed(IndexError) else Joined(Fold(qs[|qs| - 1], qs[..|qs| - 1], l))
  }

  /**
   * `join_query` checks the logic before it pops; an empty list fails.
   * Otherwise the result holds exactly when some query (OR) or every query
   * (AND) holds.
   */
  lemma JoinOfMeaning(qs: seq<Q>, logic: string, holds: string -> bool)
    ensures ParseLogic(logic).None? ==> JoinOf(qs, logic) == Failed(AssertionError)
    ensures ParseLogic(logic).Some? && qs == [] ==> JoinOf(qs, logic) == Failed(IndexError)
    ensures logic == "OR" && qs != [] ==>
      (Eval(JoinOf(qs, logic).query, holds) <==> exists i :: 0 <= i < |qs| && Eval(qs[i], holds))
    ensures logic == "AND" && qs != [] ==>
      (Eval(JoinOf(qs, logic).query, holds) <==> forall i :: 0 <= i < |qs| ==> Eval(qs[i], holds))
  {
    if ParseLogic(logic).Some? && qs != [] {
      var front := qs[..|qs| - 1];
      var last := qs[|qs| - 1];
      FoldEval(last, front, ParseLogic(logic).value, holds);
      assert qs == front + [last];
      assert forall i :: 0 <= i < |front| ==> front[i] == qs[i];
    }
  }

  /** The caller's list of query objects, which `join_query` pops. */
  class QueryList {
    var items: seq<Q>

    constructor (items: seq<Q>)
      ensures this.items == items
    {
      this.items := items;
    }

    /** `queries.pop()`. */
    method Pop() returns (q: Q)
      requires items != []
      modifies this
      ensures q == old(items)[|old(items)| - 1] && items == old(items)[..|old(items)| - 1]
    {
      q := items[|items| - 1];
      items := items[..|items| - 1];
    }
  }

  /** `join_query(queries, logic)`: pops the last query, then folds the rest into it in list order. */
  method JoinQuery(queries: QueryList, logic: string) returns (r: JoinResult)
    modifies queries
    ensures r == JoinOf(old(queries.items), logic)
    ensures r.Joined? ==> queries.items == old(queries.items)[..|old(queries.items)| - 1]
    ensures r.Failed? ==> queries.items == old(queries.items)
  {
    var l := ParseLogic(logic);
    if l.None? {
      return Failed(AssertionError);
    }
    if queries.items == [] {
      return Failed(IndexError);
    }
    var joined := queries.Pop();
    var rest := queries.items;
    var i := 0;
    while i < |rest|
      invariant 0 <= i <= |rest|
      invariant joined == Fold(old(queries.items)[|old(queries.items)| - 1], rest[..i], l.value)
    {
      joined := if l.value == OrLogic then Or(joined, rest[i]) else And(joined, rest[i]);
      assert rest[..i + 1][..i] == rest[..i];
      i := i + 1;
    }
    assert rest[..i] == rest;
    r := Joined(joined);
  }
}
