/**
 * `SearchQueryParameterValue` of the `query` package and its keyword and
 * field subclasses. One class stands for the three: its named
 * constructors are the subclass constructors and `attrs` holds what each
 * subclass sets besides the errors. Every error is appended through
 * `AddError`, so a value's errors are built in the order its constructor
 * finds them, the same order as the current `KeywordValue` and
 * `FieldValue`.
 */
module LegacyParameterValue {
  import opened Base
  import opened Text
  import opened Patterns
  import opened Catalog
  import opened ParameterValue

  /** What a value sets besides its errors, by subclass; a field value that does not parse sets nothing. */
  datatype ValueAttrs =
    | BaseAttrs
    | KeywordAttrs(keyword: string)
    | FieldAttrs(parsed: Option<FieldParts>, field: Option<DataField>)

  /** An attribute read: its value, or the AttributeError raised by reading it from `None` or a missing attribute. */
  datatype Attribute<T> = Got(value: T) | AttributeError

  class SearchQueryParameterValue {
    var errors: seq<string>
    var attrs: ValueAttrs

    /** `SearchQueryParameterValue.__init__`: a fresh value has no errors. */
    constructor ()
      ensures errors == [] && attrs == BaseAttrs
    {
      errors := [];
      attrs := BaseAttrs;
    }

    /** `is_valid()`. */
    predicate IsValid()
      reads this
    {
      errors == []
    }

    /** `_add_error(error)`: one more message at the end; the value is then invalid. */
    method AddError(error: string)
      modifies this
      ensures errors == old(errors) + [error] && attrs == old(attrs)
      ensures !IsValid()
    {
      errors := errors + [error];
    }

    /**
     * `SearchQueryParameterKeywordValue.__init__(parameter)`: the keyword
     * is the parameter without its surrounding double quotes, and
     * EMPTY_VALUE is its only possible error; the result is the current
     * `KeywordValue` of the same parameter.
     */
    constructor Keyword(parameter: string)
      ensures attrs == KeywordAttrs(StripChar(parameter, '"'))
      ensures errors == (if StripChar(parameter, '"') == "" then [KeywordEmptyValue] else [])
      ensures KeywordValue(attrs.keyword, errors) == KeywordValueOf(parameter)
    {
      errors := [];
      attrs := KeywordAttrs(StripChar(parameter, '"'));
      new;
      if attrs.keyword == "" {
        AddError(KeywordEmptyValue);
      }
    }

    /** `_add_field_does_not_exist_error(field_name)`. */
    method AddFieldDoesNotExistError(fieldName: string)
      modifies this
      ensures errors == old(errors) + [FieldDoesNotExist(fieldName)] && attrs == old(attrs)
    {
      AddError(FieldDoesNotExist(fieldName));
    }

    /** `_add_invalid_operator_error(operator)`. */
    method AddInvalidOperatorError(operator: string)
      modifies this
      ensures errors == old(errors) + [InvalidOperator(operator)] && attrs == old(attrs)
    {
      AddError(InvalidOperator(operator));
    }

    /**
     * `SearchQueryParameterFieldValue.__init__(parameter)`: parse the
     * parameter, look its field up, then add the field-missing, operator
     * and empty-value errors in that order; an unparsed parameter has only
     * INVALID_PARAMETER. The result is the current `FieldValue` of the
     * same parameter.
     */
    constructor Field(parameter: string, fields: seq<DataField>)
      ensures attrs.FieldAttrs?
      ensures FieldValue(attrs.parsed, attrs.field, errors) == FieldValueOf(parameter, fields)
    {
      var parsed := ParseField(parameter);
      var field: Option<DataField> := None;
      if parsed.Some? {
        field := FindField(fields, parsed.value.name);
      }
      errors := [];
      attrs := FieldAttrs(parsed, field);
      new;
      if parsed.Some? {
        var p := parsed.value;
        if field.None? {
          AddFieldDoesNotExistError(p.name);
        }
        if p.op !in Operators {
          AddInvalidOperatorError(p.op);
        }
        if p.value == "" {
          AddError(FieldEmptyValue);
        }
      } else {
        AddError(FieldInvalidParameter);
      }
    }

    /** The `name` property: the DataField's name; reading it raises unless a DataField was found. */
    function Name(): (r: Attribute<string>)
      reads this
      ensures r.Got? <==> attrs.FieldAttrs? && attrs.field.Some?
      ensures r.Got? ==> r.value == attrs.field.value.fieldName
    {
      if attrs.FieldAttrs? && attrs.field.Some? then Got(attrs.field.value.fieldName) else AttributeError
    }

    /** The `type` property: the DataField's type; reading it raises unless a DataField was found. */
    function Type(): (r: Attribute<string>)
      reads this
      ensures r.Got? <==> attrs.FieldAttrs? && attrs.field.Some?
      ensures r.Got? ==> r.value == attrs.field.value.fieldType
    {
      if attrs.FieldAttrs? && attrs.field.Some? then Got(attrs.field.value.fieldType) else AttributeError
    }

    /** The `pk` property: the DataField's key; reading it raises unless a DataField was found. */
    function Pk(): (r: Attribute<nat>)
      reads this
      ensures r.Got? <==> attrs.FieldAttrs? && attrs.field.Some?
      ensures r.Got? ==> r.value == attrs.field.value.pk
    {
      if attrs.FieldAttrs? && attrs.field.Some? then Got(attrs.field.value.pk) else AttributeError
    }
  }

  /**
   * The field properties of a value built from a parameter are defined
   * exactly when the parameter parses and a DataField of its name exists,
   * and then they are that DataField's; a defined property means the
   * parameter named an existing field, which is not an error.
   */
  lemma FieldPropertiesDefined(parameter: string, fields: seq<DataField>, attrs: ValueAttrs, errors: seq<string>)
    requires attrs.FieldAttrs? && FieldValue(attrs.parsed, attrs.field, errors) == FieldValueOf(parameter, fields)
    ensures attrs.field.Some? <==> ParseField(parameter).Some? && FindField(fields, ParseField(parameter).value.name).Some?
    ensures attrs.field.Some? ==> attrs.field.value in fields && attrs.field.value.fieldName == ParseField(parameter).value.name
    ensures attrs.field.Some? ==> FieldDoesNotExist(attrs.parsed.value.name) !in errors
  {
    if attrs.field.Some? {
      var p := ParseField(parameter).value;
      assert FieldDoesNotExist(p.name)[0] == 'F';
      assert FieldInvalidParameter[0] == 'C' && FieldEmptyValue[0] == 'V' && InvalidOperator(p.op)[0] == 'O';
    }
  }
}
