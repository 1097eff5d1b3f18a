/** The client declaration and the foreign libraries the pipeline calls.

    The libraries (line-schema compiler, JSON codec, gjson path evaluator,
    default merge, JSON-Schema validator) and the transport are not modelled:
    each is a function value handed to the model, so every property proved
    holds for whatever those libraries do.
 */
module Collaborators {
  import opened Base

  /** A parsed line-schema (`jsonschemaline` value). */
  type LineSchema

  /** The caller's own fields, which `json.Marshal` serialises. */
  type Payload

  /** The caller's output object, the target of `json.Unmarshal`. */
  type Output

  /** The call context; only the optional content-type value it can carry
      matters to the client core. */
  datatype Context = Context(contentType: Option<string>)

  /** A client declaration (the `ClientInterface` a caller implements):
      its route, its two line-schema texts, its fields, its output object
      and its context. `Init()` is taken to have run already. */
  datatype Instance = Instance(
    httpMethod: string,
    path: string,
    inputSchema: string,
    outputSchema: string,
    payload: Payload,
    output: Output,
    context: Context)

  /** A compiled JSON-Schema validator: `gojsonschema.NewStringLoader` over
      the JSON-Schema text the line-schema compiles to. */
  datatype Loader = StringLoader(jsonSchema: string)

  /** Which way a format path converts: `Outbound` turns typed fields into
      strings for the wire (`FormatPathFnByFormatOut`), `Inbound` restores
      typed fields for the program (`FormatPathFnByFormatIn`). */
  datatype Direction = Outbound | Inbound

  /** The `jsonschemaline` library as the registry uses it. */
  datatype LineSchemaLib = LineSchemaLib(
    parse: string -> Result<LineSchema>,
    jsonSchema: LineSchema -> Result<string>,
    gjsonPath: (LineSchema, Direction) -> string,
    defaultJson: LineSchema -> Result<string>)

  /** The libraries a call runs through, apart from the transport. */
  datatype Env = Env(
    marshal: Instance -> Result<string>,
    mergeDefault: (string, string) -> Result<string>,
    gjsonGet: (string, string) -> string,
    validate: (string, Loader) -> Option<Error>,
    unmarshal: (Output, string) -> Result<Output>,
    outputError: Output -> Option<Error>)

  /** A `RequestFn`: (context, method, path, body) to response body or error. */
  type Transport = (Context, string, string, string) -> Result<string>
}
