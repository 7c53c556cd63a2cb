/**
 * The values of search parameters. A keyword value is the parameter with
 * its double quotes stripped; a field value is the parameter cut into
 * field name, operator and value, with the DataField of that name. Each
 * collects its errors while it is built, in a fixed order.
 */
module ParameterValue {
  import opened Base
  import opened Text
  import opened Patterns
  import opened Catalog

  const KeywordEmptyValue := "Keyword value is empty."
  const FieldInvalidParameter := "Could not parse parameter " + "into field properties."
  const FieldEmptyValue := "Value is empty."

  /** `FIELD_DOES_NOT_EXIST.format(name)`. */
  function FieldDoesNotExist(name: string): string
  {
    "Field `" + name + "` does not exist."
  }

  /** `INVALID_OPERATOR.format(op)`. */
  function InvalidOperator(op: string): string
  {
    "Operator `" + op + "` is not a valid operator."
  }

  /** `FieldOperators.ALL`. */
  const FieldOperatorsAll: seq<string> := ["=", ">", "<", ">=", "<=", "!="]

  /** `FieldValue.OPERATORS`. */
  const Operators: seq<string> := ["=", "<", ">", "<=", ">=", "!="]

  /** The two operator lists hold the same six distinct operators, in a different order. */
  lemma OperatorListsAgree()
    ensures |FieldOperatorsAll| == |Operators| == 6
    ensures forall op :: op in FieldOperatorsAll <==> op in Operators
    ensures forall i, j :: 0 <= i < j < 6 ==> Operators[i] != Operators[j]
    ensures FieldOperatorsAll != Operators
  {
  }

  /** A KeywordValue: its keyword and its errors. */
  datatype KeywordValue = KeywordValue(keyword: string, errors: seq<string>)

  /** What `KeywordValue(parameter)` holds once built. */
  function KeywordValueOf(parameter: string): KeywordValue
  {
    var keyword := StripChar(parameter, '"');
    KeywordValue(keyword, if keyword == "" then [KeywordEmptyValue] else [])
  }

  /** `KeywordValue.__init__(parameter)`. */
  method NewKeywordValue(parameter: string) returns (v: KeywordValue)
    ensures v == KeywordValueOf(parameter)
  {
    var errors: seq<string> := [];
    var keyword := StripChar(parameter, '"');
    if keyword == "" {
      errors := errors + [KeywordEmptyValue];
    }
    v := KeywordValue(keyword, errors);
  }

  /** `is_valid()`: no errors. */
  predicate KeywordIsValid(v: KeywordValue)
  {
    v.errors == []
  }

  /**
   * A keyword value has at most one error, EMPTY_VALUE, and has it exactly
   * when the parameter holds nothing but double quotes. A phrase in quotes
   * is the phrase.
   */
  lemma KeywordValueErrors(parameter: string)
    ensures var v := KeywordValueOf(parameter);
      (v.errors == [] || v.errors == [KeywordEmptyValue])
      && (!KeywordIsValid(v) <==> forall i :: 0 <= i < |parameter| ==> parameter[i] == '"')
      && v.keyword == StripChar(parameter, '"')
  {
  }

  /** `KeywordValue('"' + m + '"')` has keyword `m` and is valid, for `m` not itself quote-ended. */
  lemma QuotedKeyword(m: string)
    requires m != [] && m[0] != '"' && m[|m| - 1] != '"'
    ensures KeywordValueOf("\"" + m + "\"") == KeywordValue(m, [])
  {
    StripCharWrapped(m, '"');
    assert "\"" + m + "\"" == ['"'] + m + ['"'];
  }

  /**
   * A FieldValue: the parsed groups (none when the parameter does not
   * parse), the DataField named by the field group, and the errors.
   */
  datatype FieldValue = FieldValue(parsed: Option<FieldParts>, field: Option<DataField>, errors: seq<string>)

  /** What `FieldValue(parameter)` holds once built. */
  function FieldValueOf(parameter: string, fields: seq<DataField>): FieldValue
  {
    match ParseField(parameter)
    case None => FieldValue(None, None, [FieldInvalidParameter])
    case Some(p) =>
      var f := FindField(fields, p.name);
      FieldValue(Some(p), f,
        (if f.None? then [FieldDoesNotExist(p.name)] else [])
        + (if p.op !in Operators then [InvalidOperator(p.op)] else [])
        + (if p.value == "" then [FieldEmptyValue] else []))
  }

  /** `FieldValue.__init__(parameter)`: the checks in turn, each appending its error. */
  method NewFieldValue(parameter: string, fields: seq<DataField>) returns (v: FieldValue)
    ensures v == FieldValueOf(parameter, fields)
  {
    var errors: seq<string> := [];
    var parsed := ParseField(parameter);
    if parsed.Some? {
      var p := parsed.value;
      var field := FindField(fields, p.name);
      if field.None? {
        errors := errors + [FieldDoesNotExist(p.name)];
      }
      if p.op !in Operators {
        errors := errors + [InvalidOperator(p.op)];
      }
      if p.value == "" {
        errors := errors + [FieldEmptyValue];
      }
      v := FieldValue(parsed, field, errors);
    } else {
      errors := errors + [FieldInvalidParameter];
      v := FieldValue(None, None, errors);
    }
  }

  predicate FieldIsValid(v: FieldValue)
  {
    v.errors == []
  }

  /**
   * A parameter that does not parse has exactly the one error
   * INVALID_PARAMETER. One that parses is valid exactly when its field
   * exists, its operator is one of the six and its value is not empty;
   * each failed check adds its own error, in that order.
   */
  lemma FieldValueErrors(parameter: string, fields: seq<DataField>)
    ensures var v := FieldValueOf(parameter, fields);
      (!FieldShape(parameter) <==> v.errors == [FieldInvalidParameter])
      && (FieldIsValid(v) <==>
            ParseField(parameter).Some? && v.field.Some? && ParseField(parameter).value.op in Operators
            && ParseField(parameter).value.value != "")
      && |v.errors| <= 3
  {
    ParseFieldIff(parameter);
    var v := FieldValueOf(parameter, fields);
    if ParseField(parameter).Some? {
      var p := ParseField(parameter).value;
      assert FieldInvalidParameter[0] == 'C' && FieldEmptyValue[0] == 'V';
      assert FieldDoesNotExist(p.name)[0] == 'F' && InvalidOperator(p.op)[0] == 'O';
      assert v.errors != [FieldInvalidParameter] by {
        if v.errors != [] {
          assert v.errors[0] != FieldInvalidParameter;
        }
      }
    }
  }

  /**
   * All three errors can occur together: a field name no DataField has,
   * followed by the lone operator `!`, gives them in order.
   */
  lemma AllThreeFieldErrors(name: string, fields: seq<DataField>)
    requires IsDottedWord(name)
    requires forall i :: 0 <= i < |fields| ==> fields[i].fieldName != name
    ensures FieldValueOf(name + "!", fields).errors
            == [FieldDoesNotExist(name), InvalidOperator("!"), FieldEmptyValue]
  {
    var p := FieldParts(name, "!", "");
    assert ValidParts(p) && name + "!" == p.name + p.op + p.value;
    ParseFieldComplete(name + "!", p);
  }

  /** `field_name`: the DataField's name, `None` when no DataField was found. */
  function FieldName(v: FieldValue): (r: Option<string>)
    requires v.parsed.Some?
    ensures r.None? <==> v.field.None?
    ensures r.Some? ==> r.value == v.field.value.fieldName
  {
    if v.field.Some? then Some(v.field.value.fieldName) else None
  }

  /** `field_type`: the DataField's type, `None` when no DataField was found. */
  function FieldType(v: FieldValue): (r: Option<string>)
    requires v.parsed.Some?
    ensures r.None? <==> v.field.None?
    ensures r.Some? ==> r.value == v.field.value.fieldType
  {
    if v.field.Some? then Some(v.field.value.fieldType) else None
  }

  /** `field_pk`: the DataField's key, `None` when no DataField was found. */
  function FieldPk(v: FieldValue): (r: Option<nat>)
    requires v.parsed.Some?
    ensures r.None? <==> v.field.None?
    ensures r.Some? ==> r.value == v.field.value.pk
  {
    if v.field.Some? then Some(v.field.value.pk) else None
  }

  /** A found DataField carries the name the parameter asked for. */
  lemma FoundFieldHasItsName(parameter: string, fields: seq<DataField>)
    requires FieldValueOf(parameter, fields).parsed.Some?
    ensures var v := FieldValueOf(parameter, fields);
      FieldName(v).Some? ==> FieldName(v).value == v.parsed.value.name && v.field.value in fields
  {
  }
}
