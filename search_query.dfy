/**
 * The SearchQuery of `search_query.py`. Its constructor walks the tokens
 * of a query string and sorts each into the bucket of its type: keyword,
 * field and unknown parameters are collected, and the distillery filter
 * is set once. Invalid parameters and query-level errors are recorded
 * along the way.
 */
module SearchQueries {
  import opened Base
  import opened Text
  import opened Catalog
  import opened ParameterType
  import opened ParameterValue
  import opened Parameter
  import opened DistilleryFilter

  const EmptySearchQuery := "Search query is empty."

  /** `PARSING_ERROR.format(query)`. */
  function ParsingError(query: string): string
  {
    "Could not parse parameters from " + "query string `" + query + "`."
  }

  /** `MULTIPLE_DISTILLERY_FILTERS.format(parameter, index)`. */
  function MultipleDistilleryFilters(parameter: string, index: nat): string
  {
    "Only one distillery filter is only " + "allowed to be used per search query. "
    + "Parameter `" + parameter + "` at index `" + NatToString(index) + "` violates this rule."
  }

  /** Any of the parameters a SearchQuery creates. */
  datatype AnyParameter =
    | AsKeyword(keyword: KeywordSearchParameter)
    | AsField(field: FieldSearchParameter)
    | AsFilter(filter: DistilleryFilterParameter)
    | AsUnknown(unknown: UnknownSearchParameter)

  /** `is_valid()` of each kind: no errors. */
  predicate ParameterIsValid(p: AnyParameter)
  {
    match p
    case AsKeyword(k) => k.errors == []
    case AsField(f) => f.errors == []
    case AsFilter(d) => FilterIsValid(d)
    case AsUnknown(u) => u.errors == []
  }

  /**
   * The parameter classes of the setters, one per type (`unknown` is the
   * class for `None`), and the MULTIPLE_DISTILLERY_FILTERS message.
   */
  datatype Builders = Builders(
    keyword: (nat, string) -> KeywordSearchParameter,
    field: (nat, string) -> FieldSearchParameter,
    filter: (nat, string) -> DistilleryFilterParameter,
    unknown: (nat, string) -> UnknownSearchParameter,
    multipleFilters: (string, nat) -> string)

  /** The classes and the message of `search_query.py`, over the given tables. */
  function Standard(t: Tables): Builders
  {
    Builders((i: nat, s) => KeywordSearchParameterOf(i, s), (i: nat, s) => FieldSearchParameterOf(i, s, t.fields),
             (i: nat, s) => DistilleryFilterOf(i, s, t), (i: nat, s) => UnknownSearchParameterOf(i, s),
             MultipleDistilleryFilters)
  }

  /** The parameter the setter of its type creates for token `i`. */
  function Created(classify: string -> Option<ParamType>, b: Builders, tokens: seq<string>, i: nat): AnyParameter
    requires i < |tokens|
  {
    match classify(tokens[i])
    case Some(KeywordParam) => AsKeyword(b.keyword(i, tokens[i]))
    case Some(FieldParam) => AsField(b.field(i, tokens[i]))
    case Some(DistilleryParam) => AsFilter(b.filter(i, tokens[i]))
    case None => AsUnknown(b.unknown(i, tokens[i]))
  }

  /** An UnknownParameter is never valid. */
  lemma UnknownIsInvalid(tokens: seq<string>, t: Tables, i: nat)
    requires i < |tokens| && ParameterTypeOf(tokens[i]).None?
    ensures Created(ParameterTypeOf, Standard(t), tokens, i).AsUnknown?
    ensures !ParameterIsValid(Created(ParameterTypeOf, Standard(t), tokens, i))
  {
  }

  /** The attributes of a SearchQuery. */
  datatype QueryState = QueryState(
    errors: seq<string>, invalidParameters: seq<AnyParameter>,
    keywordParameters: seq<KeywordSearchParameter>, fieldParameters: seq<FieldSearchParameter>,
    distilleryFilter: Option<DistilleryFilterParameter>, unknownParameters: seq<UnknownSearchParameter>)

  const Initial := QueryState([], [], [], [], None, [])

  /** `_create_search_parameter`'s validity check: an invalid parameter is recorded. */
  function CheckValidity(st: QueryState, p: AnyParameter): QueryState
  {
    if ParameterIsValid(p) then st else st.(invalidParameters := st.invalidParameters + [p])
  }

  /** The setter of the token's type, applied to token `i`. */
  function Setter(st: QueryState, classify: string -> Option<ParamType>, b: Builders, tokens: seq<string>, i: nat): QueryState
    requires i < |tokens|
  {
    var p := Created(classify, b, tokens, i);
    var checked := CheckValidity(st, p);
    match p
    case AsKeyword(k) => checked.(keywordParameters := checked.keywordParameters + [k])
    case AsField(f) => checked.(fieldParameters := checked.fieldParameters + [f])
    case AsUnknown(u) => checked.(unknownParameters := checked.unknownParameters + [u])
    case AsFilter(d) =>
      if checked.distilleryFilter.Some? then checked.(errors := checked.errors + [b.multipleFilters(tokens[i], i)])
      else checked.(distilleryFilter := Some(d))
  }

  /** `_add_search_parameters` over the first `n` tokens: those of an ignored type are skipped. */
  function AddAll(st: QueryState, classify: string -> Option<ParamType>, b: Builders, tokens: seq<string>,
                  ignored: seq<Option<ParamType>>, n: nat): QueryState
    requires n <= |tokens|
  {
    if n == 0 then st
    else
      var before := AddAll(st, classify, b, tokens, ignored, n - 1);
      if classify(tokens[n - 1]) !in ignored then Setter(before, classify, b, tokens, n - 1) else before
  }

  /** What `SearchQuery(query, ignored)` holds, with `tokens` the matches of `PARAMETERS_REGEX` in `query`. */
  function SearchQueryOf(query: string, tokens: seq<string>, ignored: seq<Option<ParamType>>, t: Tables): QueryState
  {
    if query == "" then Initial.(errors := [EmptySearchQuery])
    else if tokens == [] then Initial.(errors := [ParsingError(query)])
    else AddAll(Initial, ParameterTypeOf, Standard(t), tokens, ignored, |tokens|)
  }

  /** A state that extends `AddAll` over `n` tokens by token `n`'s step is `AddAll` over `n + 1` tokens. */
  lemma KeptStep(st: QueryState, before: QueryState, after: QueryState, classify: string -> Option<ParamType>, b: Builders,
                 tokens: seq<string>, ignored: seq<Option<ParamType>>, n: nat)
    requires n < |tokens| && before == AddAll(st, classify, b, tokens, ignored, n)
    requires classify(tokens[n]) !in ignored ==> after == Setter(before, classify, b, tokens, n)
    requires classify(tokens[n]) in ignored ==> after == before
    ensures after == AddAll(st, classify, b, tokens, ignored, n + 1)
  {
  }

  /* A reference description of the buckets, by token position. */

  /** The positions below `n` of the kept tokens of type `ty`, in increasing order. */
  function Positions(classify: string -> Option<ParamType>, tokens: seq<string>, ignored: seq<Option<ParamType>>,
                     ty: Option<ParamType>, n: nat): (r: seq<nat>)
    requires n <= |tokens|
    ensures forall k :: 0 <= k < |r| ==> r[k] < n
  {
    if n == 0 then []
    else Positions(classify, tokens, ignored, ty, n - 1)
         + (if classify(tokens[n - 1]) == ty && ty !in ignored then [n - 1] else [])
  }

  /** `Positions` holds exactly the kept positions of type `ty`. */
  lemma {:induction false} PositionsMembership(classify: string -> Option<ParamType>, tokens: seq<string>, ignored: seq<Option<ParamType>>,
                                               ty: Option<ParamType>, n: nat)
    requires n <= |tokens|
    ensures forall i :: 0 <= i < n ==> (i in Positions(classify, tokens, ignored, ty, n) <==> classify(tokens[i]) == ty && ty !in ignored)
  {
    if n > 0 {
      PositionsMembership(classify, tokens, ignored, ty, n - 1);
      PositionsStep(classify, tokens, ignored, ty, n);
      var ps := Positions(classify, tokens, ignored, ty, n - 1);
      assert n - 1 !in ps;
    }
  }

  /** `Positions` is strictly increasing, so it holds each position once. */
  lemma {:induction false} PositionsIncreasing(classify: string -> Option<ParamType>, tokens: seq<string>, ignored: seq<Option<ParamType>>,
                                               ty: Option<ParamType>, n: nat)
    requires n <= |tokens|
    ensures var r := Positions(classify, tokens, ignored, ty, n);
      forall a, c :: 0 <= a < c < |r| ==> r[a] < r[c]
  {
    if n > 0 {
      PositionsIncreasing(classify, tokens, ignored, ty, n - 1);
      PositionsStep(classify, tokens, ignored, ty, n);
    }
  }

  /** The positions below `n` of the kept tokens whose created parameter is invalid, in increasing order. */
  function InvalidPositions(classify: string -> Option<ParamType>, b: Builders, tokens: seq<string>,
                            ignored: seq<Option<ParamType>>, n: nat): (r: seq<nat>)
    requires n <= |tokens|
    ensures forall k :: 0 <= k < |r| ==> r[k] < n
  {
    if n == 0 then []
    else InvalidPositions(classify, b, tokens, ignored, n - 1)
         + (if classify(tokens[n - 1]) !in ignored && !ParameterIsValid(Created(classify, b, tokens, n - 1)) then [n - 1] else [])
  }

  /** `InvalidPositions` holds exactly the kept positions whose created parameter is invalid, in increasing order. */
  lemma InvalidPositionsMeaning(classify: string -> Option<ParamType>, b: Builders, tokens: seq<string>,
                                ignored: seq<Option<ParamType>>, n: nat)
    requires n <= |tokens|
    ensures var r := InvalidPositions(classify, b, tokens, ignored, n);
      (forall i :: 0 <= i < n ==> (i in r <==> classify(tokens[i]) !in ignored && !ParameterIsValid(Created(classify, b, tokens, i))))
      && (forall a, c :: 0 <= a < c < |r| ==> r[a] < r[c])
  {
    InvalidPositionsMembers(classify, b, tokens, ignored, n);
    InvalidPositionsIncreasing(classify, b, tokens, ignored, n);
  }

  /** A position below `n` is listed exactly when its token is kept and its created parameter is invalid. */
  lemma {:induction false} InvalidPositionsMembers(classify: string -> Option<ParamType>, b: Builders, tokens: seq<string>,
                                                   ignored: seq<Option<ParamType>>, n: nat)
    requires n <= |tokens|
    ensures var r := InvalidPositions(classify, b, tokens, ignored, n);
      forall i :: 0 <= i < n ==> (i in r <==> classify(tokens[i]) !in ignored && !ParameterIsValid(Created(classify, b, tokens, i)))
  {
    if n > 0 {
      InvalidPositionsMembers(classify, b, tokens, ignored, n - 1);
      var ps := InvalidPositions(classify, b, tokens, ignored, n - 1);
      assert n - 1 !in ps;
    }
  }

  /** The listed positions increase. */
  lemma {:induction false} InvalidPositionsIncreasing(classify: string -> Option<ParamType>, b: Builders, tokens: seq<string>,
                                                      ignored: seq<Option<ParamType>>, n: nat)
    requires n <= |tokens|
    ensures var r := InvalidPositions(classify, b, tokens, ignored, n);
      forall a, c :: 0 <= a < c < |r| ==> r[a] < r[c]
  {
    if n > 0 {
      InvalidPositionsIncreasing(classify, b, tokens, ignored, n - 1);
      InvalidPositionsStep(classify, b, tokens, ignored, n);
    }
  }

  /** One more token adds its position exactly when it is kept and its created parameter is invalid. */
  lemma InvalidPositionsStep(classify: string -> Option<ParamType>, b: Builders, tokens: seq<string>,
                             ignored: seq<Option<ParamType>>, n: nat)
    requires 0 < n <= |tokens|
    ensures InvalidPositions(classify, b, tokens, ignored, n)
            == InvalidPositions(classify, b, tokens, ignored, n - 1)
               + (if classify(tokens[n - 1]) !in ignored && !ParameterIsValid(Created(classify, b, tokens, n - 1)) then [n - 1] else [])
  {
  }

  /** One more token adds its position exactly when it is of type `ty` and kept. */
  lemma PositionsStep(classify: string -> Option<ParamType>, tokens: seq<string>, ignored: seq<Option<ParamType>>,
                      ty: Option<ParamType>, n: nat)
    requires 0 < n <= |tokens|
    ensures Positions(classify, tokens, ignored, ty, n)
            == Positions(classify, tokens, ignored, ty, n - 1) + (if classify(tokens[n - 1]) == ty && ty !in ignored then [n - 1] else [])
  {
  }

  /** What one setter call changes: the bucket of the token's type, and the invalid list if the parameter is invalid. */
  lemma SetterEffect(st: QueryState, classify: string -> Option<ParamType>, b: Builders, tokens: seq<string>, i: nat)
    requires i < |tokens|
    ensures var r := Setter(st, classify, b, tokens, i);
      var ty := classify(tokens[i]);
      var p := Created(classify, b, tokens, i);
      r.keywordParameters == st.keywordParameters + (if ty == Some(KeywordParam) then [b.keyword(i, tokens[i])] else [])
      && r.fieldParameters == st.fieldParameters + (if ty == Some(FieldParam) then [b.field(i, tokens[i])] else [])
      && r.unknownParameters == st.unknownParameters + (if ty.None? then [b.unknown(i, tokens[i])] else [])
      && r.invalidParameters == st.invalidParameters + (if !ParameterIsValid(p) then [p] else [])
      && r.distilleryFilter == (if ty == Some(DistilleryParam) && st.distilleryFilter.None? then Some(b.filter(i, tokens[i])) else st.distilleryFilter)
      && r.errors == st.errors + (if ty == Some(DistilleryParam) && st.distilleryFilter.Some? then [b.multipleFilters(tokens[i], i)] else [])
  {
  }

  /** One more token: what `AddAll` adds over the previous prefix, bucket by bucket. */
  lemma AddAllStep(classify: string -> Option<ParamType>, b: Builders, tokens: seq<string>, ignored: seq<Option<ParamType>>, n: nat)
    requires 0 < n <= |tokens|
    ensures var before := AddAll(Initial, classify, b, tokens, ignored, n - 1);
      var after := AddAll(Initial, classify, b, tokens, ignored, n);
      var ty := classify(tokens[n - 1]);
      var kept := ty !in ignored;
      var p := Created(classify, b, tokens, n - 1);
      after.keywordParameters == before.keywordParameters + (if kept && ty == Some(KeywordParam) then [b.keyword(n - 1, tokens[n - 1])] else [])
      && after.fieldParameters == before.fieldParameters + (if kept && ty == Some(FieldParam) then [b.field(n - 1, tokens[n - 1])] else [])
      && after.unknownParameters == before.unknownParameters + (if kept && ty.None? then [b.unknown(n - 1, tokens[n - 1])] else [])
      && after.invalidParameters == before.invalidParameters + (if kept && !ParameterIsValid(p) then [p] else [])
      && after.distilleryFilter == (if kept && ty == Some(DistilleryParam) && before.distilleryFilter.None? then Some(b.filter(n - 1, tokens[n - 1])) else before.distilleryFilter)
      && after.errors == before.errors + (if kept && ty == Some(DistilleryParam) && before.distilleryFilter.Some? then [b.multipleFilters(tokens[n - 1], n - 1)] else [])
  {
    var before := AddAll(Initial, classify, b, tokens, ignored, n - 1);
    if classify(tokens[n - 1]) !in ignored {
      SetterEffect(before, classify, b, tokens, n - 1);
    }
  }

  /** `AddAllStep`, for the filter and the errors only. */
  lemma FilterStep(classify: string -> Option<ParamType>, b: Builders, tokens: seq<string>, ignored: seq<Option<ParamType>>, n: nat)
    requires 0 < n <= |tokens|
    ensures var before := AddAll(Initial, classify, b, tokens, ignored, n - 1);
      var after := AddAll(Initial, classify, b, tokens, ignored, n);
      var added := classify(tokens[n - 1]) !in ignored && classify(tokens[n - 1]) == Some(DistilleryParam);
      after.distilleryFilter == (if added && before.distilleryFilter.None? then Some(b.filter(n - 1, tokens[n - 1])) else before.distilleryFilter)
      && after.errors == before.errors + (if added && before.distilleryFilter.Some? then [b.multipleFilters(tokens[n - 1], n - 1)] else [])
  {
    AddAllStep(classify, b, tokens, ignored, n);
  }

  /** `AddAllStep`, for the invalid parameters only. */
  lemma InvalidStep(classify: string -> Option<ParamType>, b: Builders, tokens: seq<string>, ignored: seq<Option<ParamType>>, n: nat)
    requires 0 < n <= |tokens|
    ensures var p := Created(classify, b, tokens, n - 1);
      AddAll(Initial, classify, b, tokens, ignored, n).invalidParameters
      == AddAll(Initial, classify, b, tokens, ignored, n - 1).invalidParameters
         + (if classify(tokens[n - 1]) !in ignored && !ParameterIsValid(p) then [p] else [])
  {
    AddAllStep(classify, b, tokens, ignored, n);
  }

  /** Bucket contents: the parameter built for each position in `ps`, in order. */
  ghost predicate Bucket<P>(bucket: seq<P>, build: (nat, string) -> P, tokens: seq<string>, ps: seq<nat>)
  {
    |bucket| == |ps| && forall k :: 0 <= k < |ps| ==> ps[k] < |tokens| && bucket[k] == build(ps[k], tokens[ps[k]])
  }

  /** The messages `msg` gives for every position of `ps` after the first, in order. */
  function LaterMessages(msg: (string, nat) -> string, tokens: seq<string>, ps: seq<nat>): (r: seq<string>)
    ensures |r| == if ps == [] then 0 else |ps| - 1
  {
    if ps == [] then []
    else seq(|ps| - 1, k requires 0 <= k < |ps| - 1 => msg(TokenAt(tokens, ps[k + 1]), ps[k + 1]))
  }

  /** Token `i`, or the empty string past the end. */
  function TokenAt(tokens: seq<string>, i: nat): string
  {
    if i < |tokens| then tokens[i] else ""
  }

  /** The `k`th message is about position `k + 1`. */
  lemma LaterMessagesAt(msg: (string, nat) -> string, tokens: seq<string>, ps: seq<nat>)
    requires forall k :: 0 <= k < |ps| ==> ps[k] < |tokens|
    ensures forall k :: 0 < k < |ps| ==> LaterMessages(msg, tokens, ps)[k - 1] == msg(tokens[ps[k]], ps[k])
  {
    forall k | 0 < k < |ps|
      ensures LaterMessages(msg, tokens, ps)[k - 1] == msg(tokens[ps[k]], ps[k])
    {
      assert TokenAt(tokens, ps[k]) == tokens[ps[k]];
    }
  }

  /** Appending a position adds its message unless it is the first. */
  lemma LaterMessagesAppend(msg: (string, nat) -> string, tokens: seq<string>, ps: seq<nat>, i: nat)
    requires i < |tokens|
    ensures LaterMessages(msg, tokens, ps + [i]) == LaterMessages(msg, tokens, ps) + (if ps == [] then [] else [msg(tokens[i], i)])
  {
    var ps2 := ps + [i];
    if ps != [] {
      var l := LaterMessages(msg, tokens, ps);
      var l2 := LaterMessages(msg, tokens, ps2);
      forall k | 0 <= k < |l2|
        ensures l2[k] == (l + [msg(tokens[i], i)])[k]
      {
        if k < |l| {
          assert ps2[k + 1] == ps[k + 1];
          assert l2[k] == l[k];
        } else {
          assert ps2[k + 1] == i && TokenAt(tokens, i) == tokens[i];
        }
      }
    }
  }

  /** The filter is that of the first position in `ps`, and there is none when `ps` is empty. */
  ghost predicate FirstFilter(f: Option<DistilleryFilterParameter>, build: (nat, string) -> DistilleryFilterParameter,
                              tokens: seq<string>, ps: seq<nat>)
  {
    (ps == [] ==> f.None?)
    && (ps != [] ==> ps[0] < |tokens| && f == Some(build(ps[0], tokens[ps[0]])))
  }

  /** The filter is that of the first position in `ps`; each later position has its message, in order. */
  ghost predicate FilterSlot(f: Option<DistilleryFilterParameter>, errors: seq<string>, build: (nat, string) -> DistilleryFilterParameter,
                             msg: (string, nat) -> string, tokens: seq<string>, ps: seq<nat>)
  {
    (forall k :: 0 <= k < |ps| ==> ps[k] < |tokens|)
    && FirstFilter(f, build, tokens, ps)
    && errors == LaterMessages(msg, tokens, ps)
  }

  ghost predicate InvalidList(iv: seq<AnyParameter>, classify: string -> Option<ParamType>, b: Builders, tokens: seq<string>, ps: seq<nat>)
  {
    |iv| == |ps| && forall k :: 0 <= k < |ps| ==> ps[k] < |tokens| && iv[k] == Created(classify, b, tokens, ps[k])
  }

  /** Appending to a bucket and to its positions keeps the bucket described. */
  lemma BucketAppend<P>(bucket: seq<P>, build: (nat, string) -> P, tokens: seq<string>, ps: seq<nat>, i: nat)
    requires Bucket(bucket, build, tokens, ps) && i < |tokens|
    ensures Bucket(bucket + [build(i, tokens[i])], build, tokens, ps + [i])
  {
    var b2 := bucket + [build(i, tokens[i])];
    var p2 := ps + [i];
    forall k | 0 <= k < |p2|
      ensures p2[k] < |tokens| && b2[k] == build(p2[k], tokens[p2[k]])
    {
      if k < |ps| {
        assert p2[k] == ps[k] && b2[k] == bucket[k];
      }
    }
  }

  lemma {:induction false} KeywordsDescribed(classify: string -> Option<ParamType>, b: Builders, tokens: seq<string>,
                                             ignored: seq<Option<ParamType>>, n: nat)
    requires n <= |tokens|
    ensures Bucket(AddAll(Initial, classify, b, tokens, ignored, n).keywordParameters, b.keyword, tokens,
                   Positions(classify, tokens, ignored, Some(KeywordParam), n))
  {
    if n > 0 {
      KeywordsDescribed(classify, b, tokens, ignored, n - 1);
      var before := AddAll(Initial, classify, b, tokens, ignored, n - 1);
      var after := AddAll(Initial, classify, b, tokens, ignored, n);
      AddAllStep(classify, b, tokens, ignored, n);
      var ps := Positions(classify, tokens, ignored, Some(KeywordParam), n - 1);
      var ty := classify(tokens[n - 1]);
      if ty !in ignored {
        if ty == Some(KeywordParam) {
          assert Positions(classify, tokens, ignored, Some(KeywordParam), n) == ps + [n - 1];
          assert after.keywordParameters == before.keywordParameters + [b.keyword(n - 1, tokens[n - 1])];
          BucketAppend(before.keywordParameters, b.keyword, tokens, ps, n - 1);
        } else {
          assert Positions(classify, tokens, ignored, Some(KeywordParam), n) == ps;
          assert after.keywordParameters == before.keywordParameters;
        }
      } else {
        assert Positions(classify, tokens, ignored, Some(KeywordParam), n) == ps;
      }
    }
  }

  lemma {:induction false} FieldsDescribed(classify: string -> Option<ParamType>, b: Builders, tokens: seq<string>,
                                           ignored: seq<Option<ParamType>>, n: nat)
    requires n <= |tokens|
    ensures Bucket(AddAll(Initial, classify, b, tokens, ignored, n).fieldParameters, b.field, tokens,
                   Positions(classify, tokens, ignored, Some(FieldParam), n))
  {
    if n > 0 {
      FieldsDescribed(classify, b, tokens, ignored, n - 1);
      var before := AddAll(Initial, classify, b, tokens, ignored, n - 1);
      var after := AddAll(Initial, classify, b, tokens, ignored, n);
      AddAllStep(classify, b, tokens, ignored, n);
      var ps := Positions(classify, tokens, ignored, Some(FieldParam), n - 1);
      var ty := classify(tokens[n - 1]);
      if ty !in ignored {
        if ty == Some(FieldParam) {
          assert Positions(classify, tokens, ignored, Some(FieldParam), n) == ps + [n - 1];
          assert after.fieldParameters == before.fieldParameters + [b.field(n - 1, tokens[n - 1])];
          BucketAppend(before.fieldParameters, b.field, tokens, ps, n - 1);
        } else {
          assert Positions(classify, tokens, ignored, Some(FieldParam), n) == ps;
          assert after.fieldParameters == before.fieldParameters;
        }
      } else {
        assert Positions(classify, tokens, ignored, Some(FieldParam), n) == ps;
      }
    }
  }

  lemma {:induction false} UnknownsDescribed(classify: string -> Option<ParamType>, b: Builders, tokens: seq<string>,
                                           ignored: seq<Option<ParamType>>, n: nat)
    requires n <= |tokens|
    ensures Bucket(AddAll(Initial, classify, b, tokens, ignored, n).unknownParameters, b.unknown, tokens,
                   Positions(classify, tokens, ignored, None, n))
  {
    if n > 0 {
      UnknownsDescribed(classify, b, tokens, ignored, n - 1);
      var before := AddAll(Initial, classify, b, tokens, ignored, n - 1);
      var after := AddAll(Initial, classify, b, tokens, ignored, n);
      AddAllStep(classify, b, tokens, ignored, n);
      var ps := Positions(classify, tokens, ignored, None, n - 1);
      var ty := classify(tokens[n - 1]);
      if ty !in ignored {
        if ty.None? {
          assert Positions(classify, tokens, ignored, None, n) == ps + [n - 1];
          assert after.unknownParameters == before.unknownParameters + [b.unknown(n - 1, tokens[n - 1])];
          BucketAppend(before.unknownParameters, b.unknown, tokens, ps, n - 1);
        } else {
          assert Positions(classify, tokens, ignored, None, n) == ps;
          assert after.unknownParameters == before.unknownParameters;
        }
      } else {
        assert Positions(classify, tokens, ignored, None, n) == ps;
      }
    }
  }

  /** Adding a filter position: the first one sets the filter, a later one adds its error. */
  lemma {:induction false} FirstFilterDescribed(classify: string -> Option<ParamType>, b: Builders, tokens: seq<string>,
                                                ignored: seq<Option<ParamType>>, n: nat)
    requires n <= |tokens|
    ensures FirstFilter(AddAll(Initial, classify, b, tokens, ignored, n).distilleryFilter, b.filter, tokens,
                        Positions(classify, tokens, ignored, Some(DistilleryParam), n))
  {
    if n > 0 {
      FirstFilterDescribed(classify, b, tokens, ignored, n - 1);
      FilterStep(classify, b, tokens, ignored, n);
      var before := AddAll(Initial, classify, b, tokens, ignored, n - 1).distilleryFilter;
      var after := AddAll(Initial, classify, b, tokens, ignored, n).distilleryFilter;
      var ps := Positions(classify, tokens, ignored, Some(DistilleryParam), n - 1);
      var ty := classify(tokens[n - 1]);
      if ty !in ignored && ty == Some(DistilleryParam) {
        var ps2 := Positions(classify, tokens, ignored, Some(DistilleryParam), n);
        assert ps2 == ps + [n - 1];
        if ps == [] {
          assert ps2[0] == n - 1;
          assert after == Some(b.filter(n - 1, tokens[n - 1]));
        } else {
          assert ps2[0] == ps[0];
          assert after == before;
        }
      } else {
        assert Positions(classify, tokens, ignored, Some(DistilleryParam), n) == ps;
        assert after == before;
      }
    }
  }

  lemma {:induction false} FilterErrorsDescribed(classify: string -> Option<ParamType>, b: Builders, tokens: seq<string>,
                                                 ignored: seq<Option<ParamType>>, n: nat)
    requires n <= |tokens|
    ensures AddAll(Initial, classify, b, tokens, ignored, n).errors
            == LaterMessages(b.multipleFilters, tokens, Positions(classify, tokens, ignored, Some(DistilleryParam), n))
  {
    if n > 0 {
      FilterErrorsDescribed(classify, b, tokens, ignored, n - 1);
      FilterErrorsStep(classify, b, tokens, ignored, n);
    }
  }

  /** One more token keeps the filter errors described. */
  lemma FilterErrorsStep(classify: string -> Option<ParamType>, b: Builders, tokens: seq<string>,
                         ignored: seq<Option<ParamType>>, n: nat)
    requires 0 < n <= |tokens|
    requires AddAll(Initial, classify, b, tokens, ignored, n - 1).errors
             == LaterMessages(b.multipleFilters, tokens, Positions(classify, tokens, ignored, Some(DistilleryParam), n - 1))
    ensures AddAll(Initial, classify, b, tokens, ignored, n).errors
            == LaterMessages(b.multipleFilters, tokens, Positions(classify, tokens, ignored, Some(DistilleryParam), n))
  {
    FilterKept(classify, b, tokens, ignored, n - 1);
    FilterStep(classify, b, tokens, ignored, n);
    PositionsStep(classify, tokens, ignored, Some(DistilleryParam), n);
    FilterErrorsGrow(b.multipleFilters, tokens, Positions(classify, tokens, ignored, Some(DistilleryParam), n - 1),
                     AddAll(Initial, classify, b, tokens, ignored, n - 1).errors,
                     AddAll(Initial, classify, b, tokens, ignored, n - 1).distilleryFilter.Some?,
                     classify(tokens[n - 1]) == Some(DistilleryParam) && Some(DistilleryParam) !in ignored, n - 1);
  }

  /** A filter is kept exactly when some kept token is a filter. */
  lemma FilterKept(classify: string -> Option<ParamType>, b: Builders, tokens: seq<string>,
                   ignored: seq<Option<ParamType>>, n: nat)
    requires n <= |tokens|
    ensures AddAll(Initial, classify, b, tokens, ignored, n).distilleryFilter.Some?
            <==> Positions(classify, tokens, ignored, Some(DistilleryParam), n) != []
  {
    FirstFilterDescribed(classify, b, tokens, ignored, n);
  }

  /** Adding a filter position adds its message exactly when an earlier filter was already kept. */
  lemma FilterErrorsGrow(msg: (string, nat) -> string, tokens: seq<string>, ps: seq<nat>, errors: seq<string>,
                         kept: bool, added: bool, i: nat)
    requires i < |tokens| && errors == LaterMessages(msg, tokens, ps) && (kept <==> ps != [])
    ensures errors + (if added && kept then [msg(tokens[i], i)] else [])
            == LaterMessages(msg, tokens, ps + (if added then [i] else []))
  {
    if added {
      LaterMessagesAppend(msg, tokens, ps, i);
    } else {
      assert ps + [] == ps;
    }
  }

  lemma FilterDescribed(classify: string -> Option<ParamType>, b: Builders, tokens: seq<string>,
                        ignored: seq<Option<ParamType>>, n: nat)
    requires n <= |tokens|
    ensures var st := AddAll(Initial, classify, b, tokens, ignored, n);
      FilterSlot(st.distilleryFilter, st.errors, b.filter, b.multipleFilters, tokens, Positions(classify, tokens, ignored, Some(DistilleryParam), n))
  {
    FirstFilterDescribed(classify, b, tokens, ignored, n);
    FilterErrorsDescribed(classify, b, tokens, ignored, n);
  }

  lemma {:induction false} InvalidDescribed(classify: string -> Option<ParamType>, b: Builders, tokens: seq<string>,
                                            ignored: seq<Option<ParamType>>, n: nat)
    requires n <= |tokens|
    ensures InvalidList(AddAll(Initial, classify, b, tokens, ignored, n).invalidParameters, classify, b, tokens,
                        InvalidPositions(classify, b, tokens, ignored, n))
  {
    if n > 0 {
      InvalidDescribed(classify, b, tokens, ignored, n - 1);
      var before := AddAll(Initial, classify, b, tokens, ignored, n - 1);
      var after := AddAll(Initial, classify, b, tokens, ignored, n);
      InvalidStep(classify, b, tokens, ignored, n);
      var ps := InvalidPositions(classify, b, tokens, ignored, n - 1);
      var iv := before.invalidParameters;
      var p := Created(classify, b, tokens, n - 1);
      if classify(tokens[n - 1]) !in ignored {
        if !ParameterIsValid(p) {
          assert InvalidPositions(classify, b, tokens, ignored, n) == ps + [n - 1];
          assert after.invalidParameters == iv + [p];
          forall k | 0 <= k < |ps| + 1
            ensures (ps + [n - 1])[k] < |tokens| && (iv + [p])[k] == Created(classify, b, tokens, (ps + [n - 1])[k])
          {
            if k < |ps| {
              assert (ps + [n - 1])[k] == ps[k] && (iv + [p])[k] == iv[k];
            }
          }
        } else {
          assert InvalidPositions(classify, b, tokens, ignored, n) == ps;
          assert after.invalidParameters == iv;
        }
      } else {
        assert InvalidPositions(classify, b, tokens, ignored, n) == ps;
      }
    }
  }

  /** What processing the tokens must produce, position by position. */
  ghost predicate Described(st: QueryState, classify: string -> Option<ParamType>, b: Builders, tokens: seq<string>,
                            ignored: seq<Option<ParamType>>)
  {
    var n := |tokens|;
    Bucket(st.keywordParameters, b.keyword, tokens, Positions(classify, tokens, ignored, Some(KeywordParam), n))
    && Bucket(st.fieldParameters, b.field, tokens, Positions(classify, tokens, ignored, Some(FieldParam), n))
    && Bucket(st.unknownParameters, b.unknown, tokens, Positions(classify, tokens, ignored, None, n))
    && FilterSlot(st.distilleryFilter, st.errors, b.filter, b.multipleFilters, tokens, Positions(classify, tokens, ignored, Some(DistilleryParam), n))
    && InvalidList(st.invalidParameters, classify, b, tokens, InvalidPositions(classify, b, tokens, ignored, n))
  }

  /**
   * Each kept token lands in the bucket of its type with its position as
   * index (ignored tokens still count); only the first distillery filter
   * is kept and each later one adds MULTIPLE_DISTILLERY_FILTERS naming its
   * string and index; the invalid parameters are those created and
   * invalid, in query order. Ignored tokens appear nowhere.
   */
  lemma AddAllDescribed(classify: string -> Option<ParamType>, b: Builders, tokens: seq<string>, ignored: seq<Option<ParamType>>)
    ensures Described(AddAll(Initial, classify, b, tokens, ignored, |tokens|), classify, b, tokens, ignored)
  {
    var n := |tokens|;
    KeywordsDescribed(classify, b, tokens, ignored, n);
    FieldsDescribed(classify, b, tokens, ignored, n);
    UnknownsDescribed(classify, b, tokens, ignored, n);
    FilterDescribed(classify, b, tokens, ignored, n);
    InvalidDescribed(classify, b, tokens, ignored, n);
  }

  /** An empty query string has the one error EMPTY_SEARCH_QUERY and no parameters. */
  lemma EmptyQuery(tokens: seq<string>, ignored: seq<Option<ParamType>>, t: Tables)
    ensures SearchQueryOf("", tokens, ignored, t) == QueryState([EmptySearchQuery], [], [], [], None, [])
  {
  }

  /** A query string with no tokens has the one error PARSING_ERROR about it, and no parameters. */
  lemma UnparsedQuery(query: string, ignored: seq<Option<ParamType>>, t: Tables)
    requires query != ""
    ensures SearchQueryOf(query, [], ignored, t) == QueryState([ParsingError(query)], [], [], [], None, [])
  {
  }

  /** The whole query is described by token position. */
  lemma QueryDescribed(query: string, tokens: seq<string>, ignored: seq<Option<ParamType>>, t: Tables)
    requires query != "" && tokens != []
    ensures Described(SearchQueryOf(query, tokens, ignored, t), ParameterTypeOf, Standard(t), tokens, ignored)
  {
    AddAllDescribed(ParameterTypeOf, Standard(t), tokens, ignored);
  }

  /** `is_valid()`: no errors and no invalid parameters. */
  predicate QueryIsValid(st: QueryState)
  {
    st.errors == [] && st.invalidParameters == []
  }

  /** Processing the tokens leaves no error exactly when at most one kept token is a filter and every created parameter is valid. */
  lemma AddAllValidity(classify: string -> Option<ParamType>, b: Builders, tokens: seq<string>, ignored: seq<Option<ParamType>>)
    ensures QueryIsValid(AddAll(Initial, classify, b, tokens, ignored, |tokens|)) <==>
      |Positions(classify, tokens, ignored, Some(DistilleryParam), |tokens|)| <= 1
      && forall i :: 0 <= i < |tokens| && classify(tokens[i]) !in ignored ==> ParameterIsValid(Created(classify, b, tokens, i))
  {
    FilterErrorsDescribed(classify, b, tokens, ignored, |tokens|);
    InvalidDescribed(classify, b, tokens, ignored, |tokens|);
    InvalidPositionsMembers(classify, b, tokens, ignored, |tokens|);
    var iv := InvalidPositions(classify, b, tokens, ignored, |tokens|);
    if iv != [] {
      assert iv[0] in iv;
    }
  }

  /**
   * A query is valid exactly when it is a non-empty string with tokens, at
   * most one of its kept tokens is a distillery filter, and every parameter
   * created for a kept token is valid.
   */
  lemma QueryValidity(query: string, tokens: seq<string>, ignored: seq<Option<ParamType>>, t: Tables)
    ensures QueryIsValid(SearchQueryOf(query, tokens, ignored, t)) <==>
      query != "" && tokens != []
      && |Positions(ParameterTypeOf, tokens, ignored, Some(DistilleryParam), |tokens|)| <= 1
      && forall i :: 0 <= i < |tokens| && ParameterTypeOf(tokens[i]) !in ignored ==>
           ParameterIsValid(Created(ParameterTypeOf, Standard(t), tokens, i))
  {
    AddAllValidity(ParameterTypeOf, Standard(t), tokens, ignored);
  }

  /** `keywords`: the keywords of the keyword parameters, or `None` when there are none. */
  function Keywords(st: QueryState): (r: Option<seq<string>>)
    ensures r.None? <==> st.keywordParameters == []
    ensures r.Some? ==> |r.value| == |st.keywordParameters|
    ensures r.Some? ==> forall k :: 0 <= k < |r.value| ==> r.value[k] == st.keywordParameters[k].keyword
  {
    if st.keywordParameters == [] then None
    else Some(seq(|st.keywordParameters|, k requires 0 <= k < |st.keywordParameters| => st.keywordParameters[k].keyword))
  }

  /** The keywords of a query are its kept keyword tokens with their double quotes stripped, in order. */
  lemma QueryKeywords(query: string, tokens: seq<string>, ignored: seq<Option<ParamType>>, t: Tables)
    requires query != "" && tokens != []
    ensures var kw := Positions(ParameterTypeOf, tokens, ignored, Some(KeywordParam), |tokens|);
      var r := Keywords(SearchQueryOf(query, tokens, ignored, t));
      (r.None? <==> kw == [])
      && (r.Some? ==> |r.value| == |kw| && forall k :: 0 <= k < |kw| ==> kw[k] < |tokens| && r.value[k] == StripChar(tokens[kw[k]], '"'))
  {
    AddAllDescribed(ParameterTypeOf, Standard(t), tokens, ignored);
  }

  /**
   * `distilleries`: those of the distillery filter, `None` when there is
   * none. A filter whose constructor returned early never sets its own
   * `distilleries`; the model assumes the base class `SearchParameter`
   * (search_parameter.py, not part of this model) supplies `None` for it,
   * rather than the read raising AttributeError.
   */
  function Distilleries(st: QueryState): (r: Option<seq<Distillery>>)
    ensures st.distilleryFilter.None? ==> r.None?
    ensures st.distilleryFilter.Some? ==> r == st.distilleryFilter.value.distilleries
  {
    if st.distilleryFilter.Some? then st.distilleryFilter.value.distilleries else None
  }

  /** A query's distilleries are those of its first kept filter token, and `None` when it has none. */
  lemma QueryDistilleries(query: string, tokens: seq<string>, ignored: seq<Option<ParamType>>, t: Tables)
    requires query != "" && tokens != []
    ensures var ds := Positions(ParameterTypeOf, tokens, ignored, Some(DistilleryParam), |tokens|);
      var r := Distilleries(SearchQueryOf(query, tokens, ignored, t));
      (ds == [] ==> r.None?)
      && (ds != [] ==> ds[0] < |tokens| && r == DistilleryFilterOf(ds[0], tokens[ds[0]], t).distilleries)
  {
    AddAllDescribed(ParameterTypeOf, Standard(t), tokens, ignored);
  }

  /**
   * The errors of a query with tokens are MULTIPLE_DISTILLERY_FILTERS for
   * each kept distillery filter token after the first, naming its string
   * and index, in query order; those are exactly its kept tokens of that type.
   */
  lemma QueryFilterErrors(query: string, tokens: seq<string>, ignored: seq<Option<ParamType>>, t: Tables)
    requires query != "" && tokens != []
    ensures var ds := Positions(ParameterTypeOf, tokens, ignored, Some(DistilleryParam), |tokens|);
      var e := SearchQueryOf(query, tokens, ignored, t).errors;
      (forall i :: 0 <= i < |tokens| ==> (i in ds <==> ParameterTypeOf(tokens[i]) == Some(DistilleryParam) && Some(DistilleryParam) !in ignored))
      && |e| == (if ds == [] then 0 else |ds| - 1)
      && (forall k :: 0 < k < |ds| ==> e[k - 1] == MultipleDistilleryFilters(tokens[ds[k]], ds[k]))
  {
    var ds := Positions(ParameterTypeOf, tokens, ignored, Some(DistilleryParam), |tokens|);
    AddAllDescribed(ParameterTypeOf, Standard(t), tokens, ignored);
    PositionsMembership(ParameterTypeOf, tokens, ignored, Some(DistilleryParam), |tokens|);
    LaterMessagesAt(MultipleDistilleryFilters, tokens, ds);
  }

  /** The SearchQuery object: the buckets are fields that the constructor fills in place. */
  class SearchQuery {
    var errors: seq<string>
    var invalidParameters: seq<AnyParameter>
    var keywordParameters: seq<KeywordSearchParameter>
    var fieldParameters: seq<FieldSearchParameter>
    var distilleryFilter: Option<DistilleryFilterParameter>
    var unknownParameters: seq<UnknownSearchParameter>

    function State(): QueryState
      reads this
    {
      QueryState(errors, invalidParameters, keywordParameters, fieldParameters, distilleryFilter, unknownParameters)
    }

    /** `SearchQuery.__init__(query, ignored_parameter_types)`. */
    constructor (query: string, tokens: seq<string>, ignored: seq<Option<ParamType>>, t: Tables)
      ensures State() == SearchQueryOf(query, tokens, ignored, t)
    {
      errors := [];
      invalidParameters := [];
      keywordParameters := [];
      fieldParameters := [];
      distilleryFilter := None;
      unknownParameters := [];
      new;
      if query == "" {
        AddError(EmptySearchQuery);
        return;
      }
      if tokens == [] {
        AddError(ParsingError(query));
        return;
      }
      AddSearchParameters(tokens, ignored, t);
    }

    /** `_add_error(error)`. */
    method AddError(e: string)
      modifies this
      ensures State() == old(State()).(errors := old(errors) + [e])
    {
      errors := errors + [e];
    }

    /** `_add_search_parameters(parameters, ignored_parameter_types)`. */
    method AddSearchParameters(tokens: seq<string>, ignored: seq<Option<ParamType>>, t: Tables)
      modifies this
      ensures State() == AddAll(old(State()), ParameterTypeOf, Standard(t), tokens, ignored, |tokens|)
    {
      ghost var start := State();
      var index := 0;
      while index < |tokens|
        invariant 0 <= index <= |tokens|
        invariant State() == AddAll(start, ParameterTypeOf, Standard(t), tokens, ignored, index)
      {
        AddSearchParameter(start, tokens, ignored, index, t);
        index := index + 1;
      }
    }

    /**
     * One pass of `_add_search_parameters`' loop: a token of an ignored type
     * is skipped, any other goes to its setter, so the state built from the
     * tokens before `index` becomes the one built from those up to `index`.
     */
    method AddSearchParameter(ghost start: QueryState, tokens: seq<string>, ignored: seq<Option<ParamType>>, index: nat, t: Tables)
      requires index < |tokens| && State() == AddAll(start, ParameterTypeOf, Standard(t), tokens, ignored, index)
      modifies this
      ensures State() == AddAll(start, ParameterTypeOf, Standard(t), tokens, ignored, index + 1)
    {
      ghost var before := State();
      var parameterType := GetParameterType(tokens[index]);
      if parameterType !in ignored {
        CallParameterSetter(parameterType, tokens, index, t);
      }
      KeptStep(start, before, State(), ParameterTypeOf, Standard(t), tokens, ignored, index);
    }

    /** `_get_parameter_setter(parameter_type)(index, parameter)`: the setter of the token's type. */
    method CallParameterSetter(parameterType: Option<ParamType>, tokens: seq<string>, index: nat, t: Tables)
      requires index < |tokens| && parameterType == ParameterTypeOf(tokens[index])
      modifies this
      ensures State() == Setter(old(State()), ParameterTypeOf, Standard(t), tokens, index)
    {
      match parameterType
      case Some(KeywordParam) => AddKeywordParameter(tokens, index, t);
      case Some(FieldParam) => AddFieldParameter(tokens, index, t);
      case Some(DistilleryParam) => SetDistilleryFilterParameter(tokens, index, t);
      case None => AddUnknownParameter(tokens, index, t);
    }

    /** `_check_parameter_validity(parameter)`. */
    method CheckParameterValidity(p: AnyParameter)
      modifies this
      ensures State() == CheckValidity(old(State()), p)
    {
      if !ParameterIsValid(p) {
        invalidParameters := invalidParameters + [p];
      }
    }

    /** `_add_keyword_parameter(index, parameter)`. */
    method AddKeywordParameter(tokens: seq<string>, index: nat, t: Tables)
      requires index < |tokens| && ParameterTypeOf(tokens[index]) == Some(KeywordParam)
      modifies this
      ensures State() == Setter(old(State()), ParameterTypeOf, Standard(t), tokens, index)
    {
      var p := KeywordSearchParameterOf(index, tokens[index]);
      CheckParameterValidity(AsKeyword(p));
      keywordParameters := keywordParameters + [p];
    }

    /** `_add_field_parameter(index, parameter)`. */
    method AddFieldParameter(tokens: seq<string>, index: nat, t: Tables)
      requires index < |tokens| && ParameterTypeOf(tokens[index]) == Some(FieldParam)
      modifies this
      ensures State() == Setter(old(State()), ParameterTypeOf, Standard(t), tokens, index)
    {
      var p := NewFieldSearchParameter(index, tokens[index], t.fields);
      CheckParameterValidity(AsField(p));
      fieldParameters := fieldParameters + [p];
    }

    /** `_set_distillery_filter_parameter(index, parameter)`: the filter is created and checked even when one is already set. */
    method SetDistilleryFilterParameter(tokens: seq<string>, index: nat, t: Tables)
      requires index < |tokens| && ParameterTypeOf(tokens[index]) == Some(DistilleryParam)
      modifies this
      ensures State() == Setter(old(State()), ParameterTypeOf, Standard(t), tokens, index)
    {
      var p := NewDistilleryFilter(index, tokens[index], t);
      CheckParameterValidity(AsFilter(p));
      if distilleryFilter.Some? {
        AddError(MultipleDistilleryFilters(tokens[index], index));
      } else {
        distilleryFilter := Some(p);
      }
    }

    /** `_add_unknown_parameter(index, parameter)`. */
    method AddUnknownParameter(tokens: seq<string>, index: nat, t: Tables)
      requires index < |tokens| && ParameterTypeOf(tokens[index]).None?
      modifies this
      ensures State() == Setter(old(State()), ParameterTypeOf, Standard(t), tokens, index)
    {
      var p := UnknownSearchParameterOf(index, tokens[index]);
      CheckParameterValidity(AsUnknown(p));
      unknownParameters := unknownParameters + [p];
    }
  }
}
