/**
 * `SearchQueryParameterType`, the older classifier of the `query` package:
 * the same first-match table as `SearchParameterType`, except that its
 * distillery pattern `^source=\*?[\w.]+$` asks for a non-empty value with
 * at most a leading star. It also checks type names against `ALL`.
 */
module LegacyParameterType {
  import opened Base
  import opened Patterns
  import opened ParameterType

  /** The value of the DISTILLERY pattern `\*?[\w.]+`: an optional leading star, then a non-empty run of `[\w.]`. */
  predicate IsLegacySourceValue(v: string)
  {
    var b := if |v| > 0 && v[0] == '*' then v[1..] else v;
    b != [] && AllWordOrDot(b)
  }

  /** The DISTILLERY pattern `^source=\*?[\w.]+$`. */
  predicate IsLegacySourceToken(s: string)
  {
    |s| >= 7 && s[..7] == "source=" && IsLegacySourceValue(s[7..])
  }

  /** `TYPE_CHECK_REGEX_MAP`, in its order: KEYWORD, DISTILLERY, FIELD. */
  const LegacyTypeCheckTable: seq<(ParamType, string -> bool)> :=
    [(KeywordParam, IsKeywordToken), (DistilleryParam, IsLegacySourceToken), (FieldParam, IsFieldToken)]

  /** The type `get_parameter_type` returns. */
  function LegacyTypeOf(s: string): Option<ParamType>
  {
    FirstMatch(LegacyTypeCheckTable, s)
  }

  /** `SearchQueryParameterType.get_parameter_type(parameter)`: the loop over the table. */
  method GetParameterType(parameter: string) returns (t: Option<ParamType>)
    ensures t == LegacyTypeOf(parameter)
  {
    t := FirstMatching(LegacyTypeCheckTable, parameter);
  }

  /**
   * First match in the order KEYWORD, DISTILLERY, FIELD: each type is
   * returned exactly when its pattern matches and no earlier one does,
   * and none when no pattern matches.
   */
  lemma LegacyTypeFirstMatch(s: string)
    ensures LegacyTypeOf(s) == Some(KeywordParam) <==> IsKeywordToken(s)
    ensures LegacyTypeOf(s) == Some(DistilleryParam) <==> !IsKeywordToken(s) && IsLegacySourceToken(s)
    ensures LegacyTypeOf(s) == Some(FieldParam) <==> !IsKeywordToken(s) && !IsLegacySourceToken(s) && FieldShape(s)
    ensures LegacyTypeOf(s).None? <==> !IsKeywordToken(s) && !IsLegacySourceToken(s) && !FieldShape(s)
  {
    ParseFieldIff(s);
    var t := LegacyTypeCheckTable;
    assert t[1..][1..] == [(FieldParam, IsFieldToken)];
    assert FirstMatch(t, s) == if IsKeywordToken(s) then Some(KeywordParam) else FirstMatch(t[1..], s);
  }

  /**
   * A distillery filter needs a value after `source=` that is not empty
   * once its optional leading star is dropped, and has no star anywhere
   * else.
   */
  lemma LegacySourceNeedsValue(v: string)
    ensures LegacyTypeOf("source=" + v) == Some(DistilleryParam)
            <==> (v != [] && v != "*" && (v[0] == '*' || IsWordOrDot(v[0]))
                  && forall i :: 0 < i < |v| ==> IsWordOrDot(v[i]))
  {
    var s := "source=" + v;
    assert s[..7] == "source=" && s[7..] == v;
    assert s[6] == '=';
    assert !IsKeywordToken(s);
    assert LegacyTypeOf(s) == Some(DistilleryParam) <==> IsLegacySourceToken(s) by {
      LegacyTypeFirstMatch(s);
    }
    LegacySourceValueChars(v);
  }

  /** `\*?[\w.]+` character by character. */
  lemma LegacySourceValueChars(v: string)
    ensures IsLegacySourceValue(v)
            <==> (v != [] && v != "*" && (v[0] == '*' || IsWordOrDot(v[0]))
                  && forall i :: 0 < i < |v| ==> IsWordOrDot(v[i]))
  {
    if v != [] && v[0] == '*' {
      assert forall i :: 0 <= i < |v[1..]| ==> v[1..][i] == v[i + 1];
    }
  }

  /** `ALL`: the three type names. */
  const All: seq<string> := ["keyword", "field", "distillery"]

  /** `is_valid_type(parameter_type)`: the string is in ALL. */
  function IsValidType(parameterType: string): (r: bool)
    ensures r <==> exists t: ParamType :: TypeName(t) == parameterType
  {
    assert TypeName(KeywordParam) == All[0] && TypeName(FieldParam) == All[1] && TypeName(DistilleryParam) == All[2];
    parameterType in All
  }

  /** Every type the classifier returns has a valid name, and the three names are distinct. */
  lemma ClassifiedTypesAreValid(s: string)
    ensures LegacyTypeOf(s).Some? ==> IsValidType(TypeName(LegacyTypeOf(s).value))
    ensures forall t, u: ParamType :: TypeName(t) == TypeName(u) ==> t == u
  {
  }

  /** A legacy distillery filter is also one for the current classifier. */
  lemma LegacySourceIsSource(s: string)
    requires IsLegacySourceToken(s)
    ensures IsSourceToken(s)
  {
    var v := s[7..];
    var b := if |v| > 0 && v[0] == '*' then v[1..] else v;
    assert b[|b| - 1] != '*' by {
      assert IsWordOrDot(b[|b| - 1]);
    }
  }

  /**
   * The two classifiers disagree exactly on the `source=` strings that only
   * the current one takes as distillery filters: an empty value or a
   * trailing star. There the current one says
   * distillery and the legacy one does not.
   */
  lemma ClassifiersDisagreeOnlyOnSource(s: string)
    ensures LegacyTypeOf(s) != ParameterTypeOf(s) <==> IsSourceToken(s) && !IsLegacySourceToken(s)
    ensures LegacyTypeOf(s) != ParameterTypeOf(s) ==>
              ParameterTypeOf(s) == Some(DistilleryParam) && LegacyTypeOf(s) != Some(DistilleryParam)
  {
    LegacyTypeFirstMatch(s);
    ParameterTypeFirstMatch(s);
    if IsLegacySourceToken(s) {
      LegacySourceIsSource(s);
    }
    if IsSourceToken(s) {
      assert s[6] == '=';
      assert !IsKeywordToken(s);
    }
  }

  /** `source=` is a field search of the legacy classifier and a distillery filter of the current one. */
  lemma EmptySourceIsLegacyField()
    ensures LegacyTypeOf("source=") == Some(FieldParam) && ParameterTypeOf("source=") == Some(DistilleryParam)
  {
    SourceShadowsField("");
    assert "source=" + "" == "source=";
    LegacySourceNeedsValue("");
    LegacyTypeFirstMatch("source=");
  }

  /** `source=x*` has no legacy type and is a distillery filter of the current classifier. */
  lemma StarredSourceIsLegacyUnknown()
    ensures LegacyTypeOf("source=x*").None? && ParameterTypeOf("source=x*") == Some(DistilleryParam)
  {
    var s := "source=x*";
    assert s == "source=" + "x*";
    assert IsSourceValue("x*") by {
      assert "x*"[..1] == "x";
    }
    SourceShadowsField("x*");
    assert !IsLegacySourceToken(s) by {
      assert s[7..] == "x*";
      assert !IsWordOrDot(s[7..][1]);
    }
    assert !FieldShape(s) by {
      NotFieldShape();
    }
    LegacyTypeFirstMatch(s);
  }

  /** The value `x*` after `source=` fits no value group of the field pattern. */
  lemma NotFieldShape()
    ensures !FieldShape("source=x*")
  {
    var s := "source=x*";
    WordRunEndAt(s, 0, 6);
    assert s[7..] == "x*";
    assert !IsWordOrDot(s[7..][1]) && s[7..][0] != '"';
    ParseFieldIff(s);
  }
}
