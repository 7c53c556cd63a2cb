/**
 * `SearchQueryParameter` of the `query` package: it classifies its string
 * with the legacy classifier, builds the value object of its type, and
 * copies the value's errors after its own, once, when the value is
 * invalid. A distillery filter has no value class, so building one
 * raises.
 */
module LegacyParameter {
  import opened Base
  import opened Catalog
  import opened ParameterType
  import opened ParameterValue
  import opened Parameter
  import opened LegacyParameterType
  import opened LegacyParameterValue

  /** The errors of the value object of type `t`, or the message of the exception raised for a type without one. */
  function ValueErrorsOf(parameter: string, t: ParamType, fields: seq<DataField>): (r: Construction<seq<string>>)
    ensures r.Raised? <==> t == DistilleryParam
  {
    match t
    case KeywordParam => Built(KeywordValueOf(parameter).errors)
    case FieldParam => Built(FieldValueOf(parameter, fields).errors)
    case DistilleryParam => Raised(MissingParameterClass(TypeName(t)))
  }

  /**
   * The errors of a parameter built from `parameter`, or the message
   * construction raises: UNKNOWN_TYPE for an untyped string, the value's
   * errors for a keyword or field search.
   */
  function ParameterErrorsOf(parameter: string, fields: seq<DataField>): (r: Construction<seq<string>>)
    ensures r.Raised? <==> LegacyTypeOf(parameter) == Some(DistilleryParam)
  {
    match LegacyTypeOf(parameter)
    case None => Built([UnknownType])
    case Some(t) => ValueErrorsOf(parameter, t, fields)
  }

  /** `_get_parameter_value_class(type)(parameter)`: only keywords and fields have a value class. */
  method MakeParameterValue(parameter: string, t: ParamType, fields: seq<DataField>)
    returns (r: Construction<SearchQueryParameterValue>)
    ensures r.Raised? <==> t == DistilleryParam
    ensures r.Raised? ==> r.message == MissingParameterClass(TypeName(t))
    ensures r.Built? ==> fresh(r.value) && Built(r.value.errors) == ValueErrorsOf(parameter, t, fields)
    ensures t == KeywordParam ==> r.Built? && r.value.attrs == KeywordAttrs(KeywordValueOf(parameter).keyword)
    ensures t == FieldParam ==> r.Built? && r.value.attrs == FieldAttrs(FieldValueOf(parameter, fields).parsed,
                                                                        FieldValueOf(parameter, fields).field)
  {
    if t == KeywordParam {
      var v := new SearchQueryParameterValue.Keyword(parameter);
      r := Built(v);
    } else if t == FieldParam {
      var v := new SearchQueryParameterValue.Field(parameter, fields);
      r := Built(v);
    } else {
      r := Raised(MissingParameterClass(TypeName(t)));
    }
  }

  class SearchQueryParameter {
    var errors: seq<string>
    var parameter: string
    var index: nat
    var ptype: Option<ParamType>
    var value: SearchQueryParameterValue?

    /**
     * `SearchQueryParameter.__init__(index, parameter)` for a string that
     * is not a distillery filter: no value and UNKNOWN_TYPE for an untyped
     * string, else the value of its type and that value's errors.
     */
    constructor (index: nat, parameter: string, fields: seq<DataField>)
      requires LegacyTypeOf(parameter) != Some(DistilleryParam)
      ensures this.index == index && this.parameter == parameter && ptype == LegacyTypeOf(parameter)
      ensures ptype.None? <==> value == null
      ensures value != null ==> fresh(value) && errors == value.errors
      ensures Built(errors) == ParameterErrorsOf(parameter, fields)
    {
      errors := [];
      this.parameter := parameter;
      this.index := index;
      var t := LegacyParameterType.GetParameterType(parameter);
      ptype := t;
      value := null;
      new;
      if t.None? {
        AddError(UnknownType);
        assert errors == [UnknownType];
      } else {
        AttachValue(t.value, fields);
      }
    }

    /** The typed half of `__init__`: build the value of type `t`, keep it, and copy its errors when it is invalid. */
    method AttachValue(t: ParamType, fields: seq<DataField>)
      requires t != DistilleryParam && errors == [] && value == null
      modifies this
      ensures value != null && fresh(value) && errors == value.errors
      ensures Built(errors) == ValueErrorsOf(parameter, t, fields)
      ensures parameter == old(parameter) && index == old(index) && ptype == old(ptype)
    {
      var v := MakeParameterValue(parameter, t, fields);
      value := v.value;
      if !v.value.IsValid() {
        AddErrors(v.value.errors);
      }
    }

    /** `is_valid()`. */
    predicate IsValid()
      reads this
    {
      errors == []
    }

    /** `_add_error(error)`: one more message at the end. */
    method AddError(error: string)
      modifies this
      ensures errors == old(errors) + [error]
      ensures parameter == old(parameter) && index == old(index) && ptype == old(ptype) && value == old(value)
    {
      errors := errors + [error];
    }

    /** `_add_errors(errors)`: the messages at the end, in their order. */
    method AddErrors(more: seq<string>)
      modifies this
      ensures errors == old(errors) + more
      ensures parameter == old(parameter) && index == old(index) && ptype == old(ptype) && value == old(value)
    {
      errors := errors + more;
    }
  }

  /** `SearchQueryParameter(index, parameter)`: the parameter, or the exception its constructor raises. */
  method NewSearchQueryParameter(index: nat, parameter: string, fields: seq<DataField>)
    returns (r: Construction<SearchQueryParameter>)
    ensures r.Raised? <==> ParameterErrorsOf(parameter, fields).Raised?
    ensures r.Raised? ==> r.message == ParameterErrorsOf(parameter, fields).message
    ensures r.Built? ==> fresh(r.value) && r.value.index == index && r.value.parameter == parameter
                         && r.value.ptype == LegacyTypeOf(parameter)
                         && Built(r.value.errors) == ParameterErrorsOf(parameter, fields)
  {
    var t := LegacyParameterType.GetParameterType(parameter);
    if t == Some(DistilleryParam) {
      var v := MakeParameterValue(parameter, DistilleryParam, fields);
      return Raised(v.message);
    }
    var p := new SearchQueryParameter(index, parameter, fields);
    r := Built(p);
  }

  /**
   * Construction raises MISSING_PARAMETER_CLASS for `distillery` exactly
   * for distillery filters; an untyped string has the single error
   * UNKNOWN_TYPE; a keyword or field search is valid exactly when its
   * value is.
   */
  lemma ParameterErrorsCases(parameter: string, fields: seq<DataField>)
    ensures var r := ParameterErrorsOf(parameter, fields);
      (r.Raised? ==> r.message == MissingParameterClass("distillery"))
      && (LegacyTypeOf(parameter).None? ==> r == Built([UnknownType]))
      && (LegacyTypeOf(parameter) == Some(KeywordParam) ==>
            (r == Built([]) <==> KeywordIsValid(KeywordValueOf(parameter))))
      && (LegacyTypeOf(parameter) == Some(FieldParam) ==>
            (r == Built([]) <==> FieldIsValid(FieldValueOf(parameter, fields))))
  {
  }

  /**
   * Built from a string both classifiers give the same type, the legacy
   * parameter raises exactly when the current `SearchParameter` does, and
   * otherwise has the same errors.
   */
  lemma AgreesWithSearchParameter(index: nat, parameter: string, fields: seq<DataField>)
    requires LegacyTypeOf(parameter) == ParameterTypeOf(parameter)
    ensures ParameterErrorsOf(parameter, fields).Raised? <==> SearchParameterOf(index, parameter, fields).Raised?
    ensures SearchParameterOf(index, parameter, fields).Built? ==>
              ParameterErrorsOf(parameter, fields).value == Errors(SearchParameterOf(index, parameter, fields).value)
  {
    SearchParameterCases(index, parameter, fields);
  }

  /** A keyword search is valid exactly when it holds something besides double quotes. */
  lemma KeywordValidity(parameter: string, fields: seq<DataField>)
    requires IsKeywordToken(parameter)
    ensures ParameterErrorsOf(parameter, fields) == Built([])
            <==> exists i :: 0 <= i < |parameter| && parameter[i] != '"'
  {
    LegacyTypeFirstMatch(parameter);
    KeywordValueErrors(parameter);
  }
}
