/**
 * A decoded JSON document, as encoding/json hands it to `interface{}` or
 * `map[string]interface{}`: objects are maps from member names to values.
 * Numbers keep their literal text; no decision in the model looks inside them.
 */
module Json {

  datatype Json =
    | Null
    | Bool(b: bool)
    | Number(text: string)
    | Str(s: string)
    | Array(items: seq<Json>)
    | Object(fields: map<string, Json>)

  /** The word encoding/json's UnmarshalTypeError uses for a JSON value of the wrong kind. */
  function KindWord(j: Json): string {
    match j
    case Null => "null"
    case Bool(_) => "bool"
    case Number(_) => "number"
    case Str(_) => "string"
    case Array(_) => "array"
    case Object(_) => "object"
  }

  /**
   * The error json.Unmarshal returns when the target is a map[string]interface{} and
   * the document is neither an object nor null.
   */
  function NotAMapError(j: Json): string {
    "json: cannot unmarshal " + KindWord(j) + " into Go value of type map[string]interface {}"
  }
}
