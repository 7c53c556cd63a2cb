/**
 * Search parameters. A SearchParameter classifies its string and builds
 * the value of its type; its errors are its own followed by the value's.
 * The keyword, unknown and field parameters built on SearchParameterBase
 * check their string themselves.
 */
module Parameter {
  import opened Base
  import opened Patterns
  import opened Catalog
  import opened ParameterType
  import opened ParameterValue

  const UnknownType := "Parameter type is unknown."

  /** `MISSING_PARAMETER_CLASS.format(type)`. */
  function MissingParameterClass(t: string): string
  {
    "There is no SearchQueryParameterValue class created to deal with " + "parameter type `" + t + "`."
  }

  /** What a constructor call gives: the object, or the message of the exception it raised. */
  datatype Construction<T> = Built(value: T) | Raised(message: string)

  /** The value object of a parameter. */
  datatype Value = KeywordVal(keyword: KeywordValue) | FieldVal(field: FieldValue)

  function ValueErrors(v: Value): seq<string>
  {
    match v
    case KeywordVal(k) => k.errors
    case FieldVal(f) => f.errors
  }

  /** A SearchParameter: its index, string, type, own errors and value. */
  datatype SearchParameter = SearchParameter(index: nat, parameter: string, ptype: Option<ParamType>,
                                             ownErrors: seq<string>, value: Option<Value>)

  /** `_get_parameter_value(parameter, type)`: only keywords and fields have a value class. */
  function GetParameterValue(parameter: string, t: ParamType, fields: seq<DataField>): (r: Construction<Value>)
    ensures r.Raised? <==> t == DistilleryParam
  {
    match t
    case KeywordParam => Built(KeywordVal(KeywordValueOf(parameter)))
    case FieldParam => Built(FieldVal(FieldValueOf(parameter, fields)))
    case DistilleryParam => Raised(MissingParameterClass(TypeName(t)))
  }

  /** What `SearchParameter(index, parameter)` gives. */
  function SearchParameterOf(index: nat, parameter: string, fields: seq<DataField>): Construction<SearchParameter>
  {
    match ParameterTypeOf(parameter)
    case None => Built(SearchParameter(index, parameter, None, [UnknownType], None))
    case Some(t) =>
      match GetParameterValue(parameter, t, fields)
      case Raised(m) => Raised(m)
      case Built(v) => Built(SearchParameter(index, parameter, Some(t), [], Some(v)))
  }

  /** `SearchParameter.__init__(index, parameter)`. */
  method NewSearchParameter(index: nat, parameter: string, fields: seq<DataField>)
    returns (r: Construction<SearchParameter>)
    ensures r == SearchParameterOf(index, parameter, fields)
  {
    var errors: seq<string> := [];
    var t := GetParameterType(parameter);
    if t.None? {
      errors := errors + [UnknownType];
      assert errors == [UnknownType];
      return Built(SearchParameter(index, parameter, None, errors, None));
    }
    var v := GetParameterValue(parameter, t.value, fields);
    if v.Raised? {
      return Raised(v.message);
    }
    r := Built(SearchParameter(index, parameter, t, errors, Some(v.value)));
  }

  /** The `errors` property: the parameter's own errors, then the value's. */
  function Errors(p: SearchParameter): seq<string>
  {
    p.ownErrors + (if p.value.Some? then ValueErrors(p.value.value) else [])
  }

  predicate IsValid(p: SearchParameter)
  {
    Errors(p) == []
  }

  /**
   * Construction raises, with MISSING_PARAMETER_CLASS for `distillery`,
   * exactly for distillery filters. An untyped parameter has errors
   * `[UNKNOWN_TYPE]` and no value; a keyword or field parameter has no
   * error of its own and its value's errors.
   */
  lemma SearchParameterCases(index: nat, parameter: string, fields: seq<DataField>)
    ensures var r := SearchParameterOf(index, parameter, fields);
      (r.Raised? <==> ParameterTypeOf(parameter) == Some(DistilleryParam))
      && (r.Raised? ==> r.message == MissingParameterClass("distillery"))
      && (r.Built? ==> r.value.index == index && r.value.parameter == parameter
                       && r.value.ptype == ParameterTypeOf(parameter))
      && (ParameterTypeOf(parameter).None? ==> r.Built? && Errors(r.value) == [UnknownType] && r.value.value.None?)
      && (ParameterTypeOf(parameter) == Some(KeywordParam) ==> r.Built? && Errors(r.value) == KeywordValueOf(parameter).errors)
      && (ParameterTypeOf(parameter) == Some(FieldParam) ==> r.Built? && Errors(r.value) == FieldValueOf(parameter, fields).errors)
  {
  }

  /** Only a distillery filter raises, and a built parameter keeps its index, string and type. */
  lemma SearchParameterShape(index: nat, parameter: string, fields: seq<DataField>)
    ensures var r := SearchParameterOf(index, parameter, fields);
      (r.Raised? <==> ParameterTypeOf(parameter) == Some(DistilleryParam))
      && (r.Built? ==> r.value.index == index && r.value.parameter == parameter
                       && r.value.ptype == ParameterTypeOf(parameter))
  {
  }

  /** A keyword parameter is valid exactly when it holds something besides double quotes. */
  lemma KeywordParameterValidity(index: nat, parameter: string, fields: seq<DataField>)
    requires IsKeywordToken(parameter)
    ensures SearchParameterOf(index, parameter, fields).Built?
    ensures IsValid(SearchParameterOf(index, parameter, fields).value)
            <==> exists i :: 0 <= i < |parameter| && parameter[i] != '"'
  {
    ParameterTypeFirstMatch(parameter);
    KeywordValueErrors(parameter);
  }

  /** The `SearchParameterBase` subclass for keywords: the keyword, and EMPTY_VALUE when it is empty. */
  datatype KeywordSearchParameter = KeywordSearchParameter(index: nat, parameter: string, keyword: string, errors: seq<string>)

  /** `KeywordSearchParameter(index, parameter)`: the same keyword and errors as a KeywordValue. */
  function KeywordSearchParameterOf(index: nat, parameter: string): (p: KeywordSearchParameter)
    ensures p.index == index && p.parameter == parameter
    ensures p.keyword == KeywordValueOf(parameter).keyword && p.errors == KeywordValueOf(parameter).errors
  {
    var v := KeywordValueOf(parameter);
    KeywordSearchParameter(index, parameter, v.keyword, v.errors)
  }

  /** The `SearchParameterBase` subclass for strings of no known type. */
  datatype UnknownSearchParameter = UnknownSearchParameter(index: nat, parameter: string, errors: seq<string>)

  /** `UnknownSearchParameter(index, parameter)` and `UnknownParameter(index, parameter)`: never valid. */
  function UnknownSearchParameterOf(index: nat, parameter: string): (p: UnknownSearchParameter)
    ensures p.index == index && p.parameter == parameter && p.errors == [UnknownType]
  {
    UnknownSearchParameter(index, parameter, [UnknownType])
  }

  /** The `SearchParameterBase` subclass for field searches. */
  datatype FieldSearchParameter = FieldSearchParameter(index: nat, parameter: string, parsed: Option<FieldParts>,
                                                       dataField: Option<DataField>, errors: seq<string>)

  /** The operator and value checks of `_check_operator` and `_check_value`, in order. */
  function FieldChecks(p: FieldParts): seq<string>
  {
    (if p.op !in Operators then [InvalidOperator(p.op)] else [])
    + (if p.value == "" then [FieldEmptyValue] else [])
  }

  /** What `FieldSearchParameter(index, parameter)` holds once built. */
  function FieldSearchParameterOf(index: nat, parameter: string, fields: seq<DataField>): FieldSearchParameter
  {
    match ParseField(parameter)
    case None => FieldSearchParameter(index, parameter, None, None, [FieldInvalidParameter])
    case Some(p) =>
      if FieldChecks(p) != [] then FieldSearchParameter(index, parameter, Some(p), None, FieldChecks(p))
      else
        match FindField(fields, p.name)
        case None => FieldSearchParameter(index, parameter, Some(p), None, [FieldDoesNotExist(p.name)])
        case Some(f) => FieldSearchParameter(index, parameter, Some(p), Some(f), [])
  }

  /** `FieldSearchParameter.__init__`: parse, check the operator, check the value, and look the field up only if still valid. */
  method NewFieldSearchParameter(index: nat, parameter: string, fields: seq<DataField>)
    returns (r: FieldSearchParameter)
    ensures r == FieldSearchParameterOf(index, parameter, fields)
  {
    var errors: seq<string> := [];
    var parsed := ParseField(parameter);
    if parsed.None? {
      errors := errors + [FieldInvalidParameter];
      return FieldSearchParameter(index, parameter, None, None, errors);
    }
    var p := parsed.value;
    if p.op !in Operators {
      errors := errors + [InvalidOperator(p.op)];
    }
    if p.value == "" {
      errors := errors + [FieldEmptyValue];
    }
    var dataField: Option<DataField> := None;
    if errors == [] {
      dataField := FindField(fields, p.name);
      if dataField.None? {
        errors := errors + [FieldDoesNotExist(p.name)];
      }
    }
    r := FieldSearchParameter(index, parameter, parsed, dataField, errors);
  }

  /**
   * A field parameter reports the errors of the FieldValue built from the
   * same string, except that it looks the DataField up only when the
   * operator and the value pass, so a missing field is reported last and
   * only alone. Both are valid for the same strings, and a valid one has
   * its DataField.
   */
  lemma FieldParameterMatchesValue(index: nat, parameter: string, fields: seq<DataField>)
    ensures var fp := FieldSearchParameterOf(index, parameter, fields);
      var fv := FieldValueOf(parameter, fields);
      (fp.parsed.None? ==> fp.errors == [FieldInvalidParameter])
      && (fp.parsed.Some? && FieldChecks(fp.parsed.value) != [] ==>
            fp.dataField.None? && fv.errors == (if fv.field.None? then [FieldDoesNotExist(fp.parsed.value.name)] else []) + fp.errors)
      && (fp.parsed.Some? && FieldChecks(fp.parsed.value) == [] ==> fp.errors == fv.errors && fp.dataField == fv.field)
      && (fp.errors == [] <==> FieldIsValid(fv))
      && (fp.errors == [] ==> fp.dataField.Some?)
  {
  }
}
