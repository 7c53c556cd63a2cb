/**
 * `SearchParameterType`: a search parameter's type is that of the first
 * pattern of a fixed table that matches it, or none.
 */
module ParameterType {
  import opened Base
  import opened Patterns

  datatype ParamType = KeywordParam | DistilleryParam | FieldParam

  /** The type's string: `'keyword'`, `'distillery'` or `'field'`. */
  function TypeName(t: ParamType): string
  {
    match t
    case KeywordParam => "keyword"
    case DistilleryParam => "distillery"
    case FieldParam => "field"
  }

  /** The KEYWORD pattern `^\".*\"$|^\w[\w.]*$`. */
  predicate IsKeywordToken(s: string)
  {
    IsQuoted(s) || IsDottedWord(s)
  }

  /** `(?:\*?[\w.]+\*?)?`: empty, or a run of `[\w.]` with an optional star at either end. */
  predicate IsSourceValue(v: string)
  {
    var a := if |v| > 0 && v[0] == '*' then v[1..] else v;
    var b := if |a| > 0 && a[|a| - 1] == '*' then a[..|a| - 1] else a;
    v == [] || (b != [] && AllWordOrDot(b))
  }

  /** The DISTILLERY pattern `^source=(?:\*?[\w.]+\*?)?$`. */
  predicate IsSourceToken(s: string)
  {
    |s| >= 7 && s[..7] == "source=" && IsSourceValue(s[7..])
  }

  /** The FIELD pattern, decided by the field parse. */
  predicate IsFieldToken(s: string)
  {
    ParseField(s).Some?
  }

  /** `TYPE_CHECK_REGEX_MAP`, in its order. */
  const TypeCheckTable: seq<(ParamType, string -> bool)> :=
    [(KeywordParam, IsKeywordToken), (DistilleryParam, IsSourceToken), (FieldParam, IsFieldToken)]

  /** The type `get_parameter_type` returns. */
  function ParameterTypeOf(s: string): Option<ParamType>
  {
    FirstMatch(TypeCheckTable, s)
  }

  /** `SearchParameterType.get_parameter_type(parameter)`. */
  method GetParameterType(parameter: string) returns (t: Option<ParamType>)
    ensures t == ParameterTypeOf(parameter)
  {
    t := FirstMatching(TypeCheckTable, parameter);
  }

  /**
   * First match in the order KEYWORD, DISTILLERY, FIELD: each type is
   * returned exactly when its pattern matches and no earlier one does,
   * and none when no pattern matches.
   */
  lemma ParameterTypeFirstMatch(s: string)
    ensures ParameterTypeOf(s) == Some(KeywordParam) <==> IsKeywordToken(s)
    ensures ParameterTypeOf(s) == Some(DistilleryParam) <==> !IsKeywordToken(s) && IsSourceToken(s)
    ensures ParameterTypeOf(s) == Some(FieldParam) <==> !IsKeywordToken(s) && !IsSourceToken(s) && FieldShape(s)
    ensures ParameterTypeOf(s).None? <==> !IsKeywordToken(s) && !IsSourceToken(s) && !FieldShape(s)
  {
    ParseFieldIff(s);
    var t := TypeCheckTable;
    assert t[1..][1..] == [(FieldParam, IsFieldToken)];
    assert FirstMatch(t, s) == if IsKeywordToken(s) then Some(KeywordParam) else FirstMatch(t[1..], s);
  }

  /**
   * `source=` followed by an empty, starred or plain value is a distillery
   * filter. The plain and the empty ones also fit the FIELD pattern (field
   * `source`, operator `=`): the table's order decides.
   */
  lemma SourceShadowsField(v: string)
    requires IsSourceValue(v)
    ensures ParameterTypeOf("source=" + v) == Some(DistilleryParam)
    ensures AllWordOrDot(v) ==> FieldShape("source=" + v)
  {
    var s := "source=" + v;
    assert s[..7] == "source=" && s[7..] == v;
    assert s[6] == '=';
    assert !IsKeywordToken(s);
    ParameterTypeFirstMatch(s);
    if AllWordOrDot(v) {
      var p := FieldParts("source", "=", v);
      assert ValidParts(p) && s == p.name + p.op + p.value;
    }
  }
}
