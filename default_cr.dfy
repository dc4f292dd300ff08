/**
 * `splicectl apply default-cr`: the shape check a default CR must pass before it is
 * posted (validateDefaultCR), and the order of checks in the command's Run.  The legacy
 * command (cmd/apply_default-cr.go) and its replacement (cmd/apply/apply_default-cr.go)
 * carry identical copies of both, modelled once here.
 */
module DefaultCR {
  import opened Wrappers
  import opened Json

  const DataKey: string := "data"

  datatype CRError =
    | Unmarshal(msg: string)
    | NoTopLevelData
    | DataIsWrongType
    | DoubleNestedData

  /** The (interface{}, error) pair validateDefaultCR returns; None stands for nil. */
  datatype Validation = Validation(value: Option<Json>, err: Option<CRError>)

  /**
   * validateDefaultCR over json.Unmarshal's reading of the bytes.  "null" decodes to a nil
   * map without error, which then has no "data" key.
   */
  function ValidateDefaultCR(parsed: Result<Json, string>): (r: Validation)
  {
    match parsed
    case Err(e) => Validation(None, Some(Unmarshal(e)))
    case Ok(Null) => Validation(Some(Object(map[])), Some(NoTopLevelData))
    case Ok(Object(crMap)) =>
      if DataKey !in crMap then Validation(Some(Object(crMap)), Some(NoTopLevelData))
      else if !crMap[DataKey].Object? then Validation(Some(Object(crMap)), Some(DataIsWrongType))
      else if DataKey in crMap[DataKey].fields then Validation(Some(crMap[DataKey]), Some(DoubleNestedData))
      else Validation(Some(Object(crMap)), None)
    case Ok(other) => Validation(None, Some(Unmarshal(NotAMapError(other))))
  }

  /** A well-formed default CR: an object whose "data" is an object without its own "data". */
  predicate WellFormedCR(doc: Json) {
    doc.Object? && DataKey in doc.fields && doc.fields[DataKey].Object?
    && DataKey !in doc.fields[DataKey].fields
  }

  /** Validation passes exactly on well-formed CRs, and then hands back the whole document. */
  lemma ValidateAcceptsExactlyWellFormed(parsed: Result<Json, string>)
    ensures ValidateDefaultCR(parsed).err.None? <==> parsed.Ok? && WellFormedCR(parsed.value)
    ensures ValidateDefaultCR(parsed).err.None? ==> ValidateDefaultCR(parsed).value == Some(parsed.value)
  {
  }

  /** Each failure, in the order the checks run, and the value returned beside it. */
  lemma ValidateFailures(parsed: Result<Json, string>)
    ensures parsed.Err? ==> ValidateDefaultCR(parsed) == Validation(None, Some(Unmarshal(parsed.error)))
    ensures parsed.Ok? && !parsed.value.Object? && !parsed.value.Null? ==>
      ValidateDefaultCR(parsed) == Validation(None, Some(Unmarshal(NotAMapError(parsed.value))))
    ensures parsed.Ok? && parsed.value.Object? && DataKey !in parsed.value.fields ==>
      ValidateDefaultCR(parsed) == Validation(Some(parsed.value), Some(NoTopLevelData))
    ensures parsed.Ok? && parsed.value.Object? && DataKey in parsed.value.fields
            && !parsed.value.fields[DataKey].Object? ==>
      ValidateDefaultCR(parsed) == Validation(Some(parsed.value), Some(DataIsWrongType))
    ensures parsed.Ok? && parsed.value.Object? && DataKey in parsed.value.fields
            && parsed.value.fields[DataKey].Object? && DataKey in parsed.value.fields[DataKey].fields ==>
      ValidateDefaultCR(parsed) == Validation(Some(parsed.value.fields[DataKey]), Some(DoubleNestedData))
  {
  }

  /** The five documents of cmd/apply_test.go, as json.Unmarshal reads them. */
  lemma ValidateTestCases()
    ensures ValidateDefaultCR(Ok(Object(map["data" := Object(map["key" := Str("value")])]))).err.None?
    ensures ValidateDefaultCR(Err("invalid character 'h' in literal true (expecting 'r')")).err.Some?
    ensures ValidateDefaultCR(Ok(Object(map["key" := Str("value")]))).err == Some(NoTopLevelData)
    ensures ValidateDefaultCR(Ok(Object(map["data" := Str("not a map")]))).err == Some(DataIsWrongType)
    ensures ValidateDefaultCR(Ok(Object(map["data" := Object(map["data" := Str("this data is double nested")])]))).err
      == Some(DoubleNestedData)
  {
  }

  /** How `apply default-cr` ends. */
  datatype ApplyOutcome =
    | FormatFatal
    | ValidationFatal(err: CRError)
    | Posted(body: string)

  /**
   * Run: the file goes through WantJSON (`converted`), is validated (`parse` reads the
   * JSON text), and only then posted with setDefaultCR.
   */
  function ApplyDefaultCR(converted: Result<string, string>, parse: string -> Result<Json, string>): (r: ApplyOutcome)
  {
    if converted.Err? then FormatFatal
    else
      var v := ValidateDefaultCR(parse(converted.value));
      if v.err.Some? then ValidationFatal(v.err.value) else Posted(converted.value)
  }

  /** Only a well-formed CR is ever posted, and it is posted as WantJSON returned it. */
  lemma PostOnlyValidated(converted: Result<string, string>, parse: string -> Result<Json, string>)
    ensures ApplyDefaultCR(converted, parse).Posted? <==>
      converted.Ok? && parse(converted.value).Ok? && WellFormedCR(parse(converted.value).value)
    ensures ApplyDefaultCR(converted, parse).Posted? ==> ApplyDefaultCR(converted, parse).body == converted.value
    ensures converted.Err? ==> ApplyDefaultCR(converted, parse) == FormatFatal
  {
    if converted.Ok? {
      ValidateAcceptsExactlyWellFormed(parse(converted.value));
    }
  }
}
