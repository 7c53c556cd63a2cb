/**
 * The SearchQuery of `query.py`: its parameters are SearchParameters, one
 * per token, and its errors are collected by SearchQueryErrors. For each
 * distillery it builds keyword fieldsets and field fieldsets.
 */
module Query {
  import opened Base
  import opened Text
  import opened Patterns
  import opened Catalog
  import opened ParameterType
  import opened ParameterValue
  import opened Parameter

  const EmptySearchQuery := "Search query is empty."
  const MultipleDistilleryParameters := "There can only be one instance of " + "the `source=` parameter."

  /** SearchQueryErrors: the query's errors and its invalid parameters. */
  datatype QueryErrors = QueryErrors(query: seq<string>, parameters: seq<SearchParameter>)

  /** The invalid parameters, in order. */
  function InvalidOf(ps: seq<SearchParameter>): (r: seq<SearchParameter>)
    ensures forall p :: p in r <==> p in ps && !IsValid(p)
    ensures |r| <= |ps|
  {
    if ps == [] then []
    else InvalidOf(ps[..|ps| - 1]) + (if !IsValid(ps[|ps| - 1]) then [ps[|ps| - 1]] else [])
  }

  /** The number of parameters of type DISTILLERY. */
  function DistilleryCount(ps: seq<SearchParameter>): nat
  {
    if ps == [] then 0
    else DistilleryCount(ps[..|ps| - 1]) + (if ps[|ps| - 1].ptype == Some(DistilleryParam) then 1 else 0)
  }

  /** What `SearchQueryErrors(parameters)` holds. */
  function ErrorsOf(ps: seq<SearchParameter>): QueryErrors
  {
    if ps == [] then QueryErrors([EmptySearchQuery], [])
    else QueryErrors(if DistilleryCount(ps) > 1 then [MultipleDistilleryParameters] else [], InvalidOf(ps))
  }

  /** `SearchQueryErrors._get_errors(parameters)`: one pass that records invalid parameters and counts filters. */
  method GetErrors(ps: seq<SearchParameter>) returns (r: QueryErrors)
    ensures r == ErrorsOf(ps)
  {
    var query: seq<string> := [];
    var parameters: seq<SearchParameter> := [];
    var count := 0;
    if ps == [] {
      query := query + [EmptySearchQuery];
      return QueryErrors(query, parameters);
    }
    var i := 0;
    while i < |ps|
      invariant 0 <= i <= |ps|
      invariant parameters == InvalidOf(ps[..i]) && count == DistilleryCount(ps[..i])
    {
      parameters, count := CheckParameter(ps, i, parameters, count);
      i := i + 1;
    }
    assert ps[..i] == ps;
    if count > 1 {
      query := query + [MultipleDistilleryParameters];
    }
    r := QueryErrors(query, parameters);
  }

  /** One iteration of `_get_errors`: record parameter `i` if invalid, and count it if it is a filter. */
  method CheckParameter(ps: seq<SearchParameter>, i: nat, parameters: seq<SearchParameter>, count: nat)
    returns (parameters': seq<SearchParameter>, count': nat)
    requires i < |ps| && parameters == InvalidOf(ps[..i]) && count == DistilleryCount(ps[..i])
    ensures parameters' == InvalidOf(ps[..i + 1]) && count' == DistilleryCount(ps[..i + 1])
  {
    assert ps[..i + 1][..i] == ps[..i];
    parameters', count' := parameters, count;
    if !IsValid(ps[i]) {
      parameters' := parameters' + [ps[i]];
    }
    if ps[i].ptype == Some(DistilleryParam) {
      count' := count' + 1;
    }
  }

  /**
   * No parameters give the one query error EMPTY_SEARCH_QUERY. Otherwise
   * every invalid parameter is recorded once, in order, and there is one
   * MULTPIPLE_DISTILLERY_PARAMETERS error exactly when two or more
   * parameters are distillery filters, however many there are.
   */
  lemma ErrorsOfMeaning(ps: seq<SearchParameter>)
    ensures ps == [] ==> ErrorsOf(ps) == QueryErrors([EmptySearchQuery], [])
    ensures ps != [] ==>
      (ErrorsOf(ps).query == [MultipleDistilleryParameters] <==>
         exists i, j :: 0 <= i < j < |ps| && ps[i].ptype == Some(DistilleryParam) && ps[j].ptype == Some(DistilleryParam))
    ensures ps != [] ==> |ErrorsOf(ps).query| <= 1
    ensures forall p :: p in ErrorsOf(ps).parameters <==> p in ps && !IsValid(p)
  {
    if ps != [] {
      DistilleryCountTwo(ps);
    }
  }

  /** Two or more filters are counted exactly when two positions hold one. */
  lemma {:induction false} DistilleryCountTwo(ps: seq<SearchParameter>)
    ensures DistilleryCount(ps) > 1 <==>
      exists i, j :: 0 <= i < j < |ps| && ps[i].ptype == Some(DistilleryParam) && ps[j].ptype == Some(DistilleryParam)
    ensures DistilleryCount(ps) > 0 <==> exists i :: 0 <= i < |ps| && ps[i].ptype == Some(DistilleryParam)
  {
    if ps != [] {
      var front := ps[..|ps| - 1];
      DistilleryCountTwo(front);
      assert forall i :: 0 <= i < |front| ==> front[i] == ps[i];
      if DistilleryCount(ps) > 1 && ps[|ps| - 1].ptype == Some(DistilleryParam) && DistilleryCount(front) == 1 {
        var i :| 0 <= i < |front| && front[i].ptype == Some(DistilleryParam);
        assert ps[i].ptype == Some(DistilleryParam) && ps[|ps| - 1].ptype == Some(DistilleryParam);
      }
      if exists i, j :: 0 <= i < j < |ps| && ps[i].ptype == Some(DistilleryParam) && ps[j].ptype == Some(DistilleryParam) {
        var i, j :| 0 <= i < j < |ps| && ps[i].ptype == Some(DistilleryParam) && ps[j].ptype == Some(DistilleryParam);
        if j < |ps| - 1 {
          assert front[i].ptype == Some(DistilleryParam) && front[j].ptype == Some(DistilleryParam);
        } else {
          assert front[i].ptype == Some(DistilleryParam);
        }
      }
    }
  }

  /** `has_errors()`. */
  predicate HasErrors(e: QueryErrors)
  {
    e.query != [] || e.parameters != []
  }

  /** `_create_parameter_error_dict(parameter)`: its string, type name, index and errors. */
  datatype ParameterErrorDict = ParameterErrorDict(parameter: string, ptype: Option<string>, index: nat, errors: seq<string>)

  /** `as_dict()`: the `query` and `parameters` entries, each present only when its list is non-empty. */
  datatype ErrorDict = ErrorDict(query: Option<seq<string>>, parameters: Option<seq<ParameterErrorDict>>)

  function ParameterErrorDictOf(p: SearchParameter): ParameterErrorDict
  {
    ParameterErrorDict(p.parameter, if p.ptype.Some? then Some(TypeName(p.ptype.value)) else None, p.index, Errors(p))
  }

  function AsDict(e: QueryErrors): (d: ErrorDict)
    ensures d.query.Some? <==> e.query != []
    ensures d.query.Some? ==> d.query.value == e.query
    ensures d.parameters.Some? <==> e.parameters != []
    ensures d.parameters.Some? ==> |d.parameters.value| == |e.parameters|
    ensures d.parameters.Some? ==> forall i :: 0 <= i < |e.parameters| ==>
      d.parameters.value[i] == ParameterErrorDict(e.parameters[i].parameter,
        if e.parameters[i].ptype.Some? then Some(TypeName(e.parameters[i].ptype.value)) else None,
        e.parameters[i].index, Errors(e.parameters[i]))
  {
    ErrorDict(if e.query != [] then Some(e.query) else None,
              if e.parameters != [] then Some(seq(|e.parameters|, i requires 0 <= i < |e.parameters| => ParameterErrorDictOf(e.parameters[i]))) else None)
  }

  /** The dictionary is empty exactly when there is nothing to report. */
  lemma AsDictEmptyIff(e: QueryErrors)
    ensures AsDict(e) == ErrorDict(None, None) <==> !HasErrors(e)
  {
  }

  /** `_get_parameters(query)`: a SearchParameter per token, indexed by position; the first raising one raises. */
  function ParametersFrom(tokens: seq<string>, fields: seq<DataField>): Construction<seq<SearchParameter>>
  {
    if tokens == [] then Built([])
    else
      var n := |tokens| - 1;
      match ParametersFrom(tokens[..n], fields)
      case Raised(m) => Raised(m)
      case Built(ps) =>
        match SearchParameterOf(n, tokens[n], fields)
        case Raised(m) => Raised(m)
        case Built(p) => Built(ps + [p])
  }

  /**
   * Construction raises exactly when some token is a distillery filter;
   * otherwise parameter `i` is built from token `i` with index `i`.
   */
  lemma ParametersFromMeaning(tokens: seq<string>, fields: seq<DataField>)
    ensures ParametersFrom(tokens, fields).Raised? <==>
      exists i :: 0 <= i < |tokens| && ParameterTypeOf(tokens[i]) == Some(DistilleryParam)
    ensures ParametersFrom(tokens, fields).Built? ==>
      var ps := ParametersFrom(tokens, fields).value;
      |ps| == |tokens| && forall i :: 0 <= i < |ps| ==> Built(ps[i]) == SearchParameterOf(i, tokens[i], fields)
  {
    ParametersFromRaises(tokens, fields);
    ParametersFromBuilt(tokens, fields);
  }

  /** Construction raises exactly when some token is a distillery filter. */
  lemma ParametersFromRaises(tokens: seq<string>, fields: seq<DataField>)
    ensures ParametersFrom(tokens, fields).Raised? <==>
      exists i :: 0 <= i < |tokens| && ParameterTypeOf(tokens[i]) == Some(DistilleryParam)
  {
    RaisesOnFilter(tokens, fields);
    AnyOfMeaning(IsFilter, tokens);
  }

  /** The token is a distillery filter. */
  predicate IsFilter(s: string)
  {
    ParameterTypeOf(s) == Some(DistilleryParam)
  }

  /** Some element satisfies `p`, checked from the last element back. */
  predicate AnyOf<T>(p: T -> bool, xs: seq<T>)
  {
    xs != [] && (AnyOf(p, xs[..|xs| - 1]) || p(xs[|xs| - 1]))
  }

  /** Construction raises exactly when some token is a filter, in the recursive form. */
  lemma {:induction false} RaisesOnFilter(tokens: seq<string>, fields: seq<DataField>)
    ensures ParametersFrom(tokens, fields).Raised? <==> AnyOf(IsFilter, tokens)
  {
    if tokens != [] {
      RaisesOnFilter(tokens[..|tokens| - 1], fields);
      SearchParameterShape(|tokens| - 1, tokens[|tokens| - 1], fields);
    }
  }

  /** `AnyOf` holds exactly when some position satisfies `p`. */
  lemma {:induction false} AnyOfMeaning<T>(p: T -> bool, xs: seq<T>)
    ensures AnyOf(p, xs) <==> exists i :: 0 <= i < |xs| && p(xs[i])
  {
    if xs != [] {
      var front := xs[..|xs| - 1];
      AnyOfMeaning(p, front);
      assert forall i :: 0 <= i < |front| ==> front[i] == xs[i];
    }
  }

  /** Built parameters are the tokens' own, each with its position as index. */
  lemma {:induction false} ParametersFromBuilt(tokens: seq<string>, fields: seq<DataField>)
    ensures ParametersFrom(tokens, fields).Built? ==>
      var ps := ParametersFrom(tokens, fields).value;
      |ps| == |tokens| && forall i :: 0 <= i < |ps| ==> Built(ps[i]) == SearchParameterOf(i, tokens[i], fields)
  {
    if tokens != [] {
      var n := |tokens| - 1;
      var front := tokens[..n];
      ParametersFromBuilt(front, fields);
      assert forall i :: 0 <= i < n ==> front[i] == tokens[i];
    }
  }

  /** The SearchQuery of `query.py`: the parameters and, when they could be built, the errors. */
  datatype SearchQuery = SearchQuery(parameters: seq<SearchParameter>, errors: QueryErrors)

  /** `SearchQuery(query)`, with `tokens` the parameter strings `PARAMETERS_REGEX` finds in it. */
  function SearchQueryOf(tokens: seq<string>, fields: seq<DataField>): Construction<SearchQuery>
  {
    match ParametersFrom(tokens, fields)
    case Raised(m) => Raised(m)
    case Built(ps) => Built(SearchQuery(ps, ErrorsOf(ps)))
  }

  /** `is_valid()`. */
  predicate IsValidQuery(q: SearchQuery)
  {
    !HasErrors(q.errors)
  }

  /**
   * A query that can be built holds no distillery filter, since one makes
   * construction raise; so MULTPIPLE_DISTILLERY_PARAMETERS is never
   * reported, and `is_valid` holds exactly when there is a token and every
   * parameter is valid.
   */
  lemma BuiltQueryHasNoFilterError(tokens: seq<string>, fields: seq<DataField>)
    requires SearchQueryOf(tokens, fields).Built?
    ensures var q := SearchQueryOf(tokens, fields).value;
      MultipleDistilleryParameters !in q.errors.query
      && (IsValidQuery(q) <==> tokens != [] && forall i :: 0 <= i < |q.parameters| ==> IsValid(q.parameters[i]))
  {
    BuiltParametersHaveNoFilter(tokens, fields);
    ErrorsWithoutFilters(ParametersFrom(tokens, fields).value);
  }

  /** Built parameters, one per token, none of them a distillery filter. */
  lemma BuiltParametersHaveNoFilter(tokens: seq<string>, fields: seq<DataField>)
    requires ParametersFrom(tokens, fields).Built?
    ensures var ps := ParametersFrom(tokens, fields).value;
      |ps| == |tokens| && forall i :: 0 <= i < |ps| ==> ps[i].ptype != Some(DistilleryParam)
  {
    ParametersFromBuilt(tokens, fields);
    var ps := ParametersFrom(tokens, fields).value;
    forall i | 0 <= i < |ps|
      ensures ps[i].ptype != Some(DistilleryParam)
    {
      SearchParameterShape(i, tokens[i], fields);
    }
  }

  /** Without distillery filters there is no filter error, and no error at all exactly when every parameter is valid. */
  lemma ErrorsWithoutFilters(ps: seq<SearchParameter>)
    requires forall i :: 0 <= i < |ps| ==> ps[i].ptype != Some(DistilleryParam)
    ensures MultipleDistilleryParameters !in ErrorsOf(ps).query
    ensures !HasErrors(ErrorsOf(ps)) <==> ps != [] && forall i :: 0 <= i < |ps| ==> IsValid(ps[i])
  {
    DistilleryCountTwo(ps);
    ErrorsOfMeaning(ps);
    if HasErrors(ErrorsOf(ps)) && ps != [] {
      var p := ErrorsOf(ps).parameters[0];
      assert p in ErrorsOf(ps).parameters;
    }
  }

  /** `'""'` is one invalid keyword parameter at index 0, with EMPTY_VALUE. */
  lemma EmptyQuotesQuery(fields: seq<DataField>)
    ensures SearchQueryOf(["\"\""], fields).Built?
    ensures var q := SearchQueryOf(["\"\""], fields).value;
      |q.parameters| == 1 && q.parameters[0].index == 0 && q.parameters[0].ptype == Some(KeywordParam)
      && Errors(q.parameters[0]) == [KeywordEmptyValue] && q.errors.parameters == q.parameters
  {
    var s := "\"\"";
    assert IsQuoted(s);
    ParameterTypeFirstMatch(s);
    KeywordValueErrors(s);
    assert ["\"\""][..0] == [];
    ParametersFromMeaning(["\"\""], fields);
    var ps := ParametersFrom(["\"\""], fields).value;
    assert ps[..0] == [] && ps == ps[..0] + [ps[0]];
  }

  /* Fieldsets. */

  /**
   * `_get_keyword_fieldsets(distillery, values)`: one `regex` fieldset per
   * text field, on the keywords joined by `|`. When some keyword is given
   * and none holds a `|` itself, each fieldset's value splits back on `|`
   * into exactly the keywords, in order.
   */
  function KeywordFieldsets(d: Distillery, values: seq<KeywordValue>): (r: seq<Fieldset>)
    ensures |r| == |d.textFields|
    ensures forall i :: 0 <= i < |r| ==>
      r[i] == Fieldset(d.textFields[i].fieldName, d.textFields[i].fieldType, "regex",
                       Join(seq(|values|, k requires 0 <= k < |values| => values[k].keyword), "|"))
    ensures values != [] && (forall k :: 0 <= k < |values| ==> '|' !in values[k].keyword) ==>
      forall i :: 0 <= i < |r| ==>
        Split(r[i].value, '|') == seq(|values|, k requires 0 <= k < |values| => values[k].keyword)
  {
    var keywords := seq(|values|, k requires 0 <= k < |values| => values[k].keyword);
    assert values != [] && (forall k :: 0 <= k < |values| ==> '|' !in values[k].keyword) ==>
             Split(Join(keywords, "|"), '|') == keywords by {
      if values != [] && (forall k :: 0 <= k < |values| ==> '|' !in values[k].keyword) {
        SplitJoin(keywords, '|');
      }
    }
    seq(|d.textFields|, i requires 0 <= i < |d.textFields| =>
      Fieldset(d.textFields[i].fieldName, d.textFields[i].fieldType, "regex", Join(keywords, "|")))
  }

  /** What `_is_field_on_distillery` evidently means: the DataField is in the bottle's fields or the label's. */
  predicate IsFieldOnDistillery(d: Distillery, pk: Option<nat>)
  {
    pk.Some? && (pk.value in d.bottleFields || (d.labelFields.Some? && pk.value in d.labelFields.value))
  }

  /**
   * `_is_field_on_distillery` as written: `QuerySet.exists()` takes no
   * argument, so `exists(pk=field_id)` raises TypeError on every call.
   */
  function IsFieldOnDistilleryAsWritten(d: Distillery, pk: Option<nat>): Construction<bool>
  {
    Raised("TypeError: exists() got an unexpected keyword argument 'pk'")
  }

  /** `_get_field_fieldsets(distillery, fields)`, with the membership test as intended: the fields on the distillery, in order. */
  function FieldFieldsets(d: Distillery, fieldValues: seq<FieldValue>): (r: seq<Fieldset>)
    requires forall i :: 0 <= i < |fieldValues| ==> fieldValues[i].parsed.Some?
    ensures |r| <= |fieldValues|
    ensures forall f :: f in r <==>
      (exists i :: 0 <= i < |fieldValues| && IsFieldOnDistillery(d, FieldPk(fieldValues[i])) && f == FieldFieldset(fieldValues[i]))
  {
    if fieldValues == [] then []
    else
      var n := |fieldValues| - 1;
      var front := FieldFieldsets(d, fieldValues[..n]);
      assert forall i :: 0 <= i < n ==> fieldValues[..n][i] == fieldValues[i];
      front + (if IsFieldOnDistillery(d, FieldPk(fieldValues[n])) then [FieldFieldset(fieldValues[n])] else [])
  }

  /** The fieldset of one field value: its DataField's name and type, its operator and its value. */
  function FieldFieldset(v: FieldValue): Fieldset
    requires v.parsed.Some?
  {
    Fieldset(if v.field.Some? then v.field.value.fieldName else "", if v.field.Some? then v.field.value.fieldType else "",
             v.parsed.value.op, v.parsed.value.value)
  }

  /** `_get_field_fieldsets` as written: the first membership test raises. */
  function FieldFieldsetsAsWritten(d: Distillery, fieldValues: seq<FieldValue>): Construction<seq<Fieldset>>
    requires forall i :: 0 <= i < |fieldValues| ==> fieldValues[i].parsed.Some?
  {
    if fieldValues == [] then Built([])
    else
      match IsFieldOnDistilleryAsWritten(d, FieldPk(fieldValues[0]))
      case Raised(m) => Raised(m)
  }

  /** As written, `_get_fieldsets` raises TypeError whenever the query holds a field parameter. */
  lemma FieldFieldsetsAsWrittenRaises(d: Distillery, fieldValues: seq<FieldValue>)
    requires forall i :: 0 <= i < |fieldValues| ==> fieldValues[i].parsed.Some?
    ensures FieldFieldsetsAsWritten(d, fieldValues).Raised? <==> fieldValues != []
  {
  }

  /** `_get_fieldsets(distillery, fields, keywords)`: keyword fieldsets first, then field fieldsets. */
  function GetFieldsets(d: Distillery, fieldValues: seq<FieldValue>, keywords: seq<KeywordValue>): seq<Fieldset>
    requires forall i :: 0 <= i < |fieldValues| ==> fieldValues[i].parsed.Some?
  {
    (if keywords != [] then KeywordFieldsets(d, keywords) else [])
    + (if fieldValues != [] then FieldFieldsets(d, fieldValues) else [])
  }

  /**
   * With keywords, the first `|textFields|` fieldsets are the keyword
   * ones; the rest are the field fieldsets of the fields on the
   * distillery; a field that was not found is never on it.
   */
  lemma GetFieldsetsOrder(d: Distillery, fieldValues: seq<FieldValue>, keywords: seq<KeywordValue>)
    requires forall i :: 0 <= i < |fieldValues| ==> fieldValues[i].parsed.Some?
    ensures var r := GetFieldsets(d, fieldValues, keywords);
      var k := if keywords != [] then |d.textFields| else 0;
      k <= |r| && r[..k] == (if keywords != [] then KeywordFieldsets(d, keywords) else [])
      && r[k..] == FieldFieldsets(d, fieldValues)
    ensures forall i :: 0 <= i < |fieldValues| && fieldValues[i].field.None? ==> !IsFieldOnDistillery(d, FieldPk(fieldValues[i]))
  {
    var r := GetFieldsets(d, fieldValues, keywords);
    if keywords != [] {
      assert r[..|d.textFields|] == KeywordFieldsets(d, keywords);
    }
  }
}
