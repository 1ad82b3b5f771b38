/**
 * The parsed OpenAPI document as the endpoint generator reads it.
 * Java's nullable references are `Option`s.
 */
module OpenApiModel {
  import opened Wrappers

  /**
   * A schema node. Only the attributes the generator itself reads or sets
   * are spelled out; `schemaType` stands for the rest of the node.
   */
  datatype Schema = Schema(name: Option<string>, ref: Option<string>, schemaType: Option<string>)

  /** `new Schema()`: every attribute unset. */
  const BlankSchema := Schema(None, None, None)

  /** The entry of a response's content map for one media type. */
  datatype Content = Content(schema: Schema)

  /** A response: its own name and its media-type to content map. */
  datatype Response = Response(name: string, content: map<string, Content>)

  /** One entry of an operation's status-code to response map. */
  datatype ResponseEntry = ResponseEntry(status: string, response: Response)

  /** A parameter; `location` is the declared `in`. */
  datatype Parameter = Parameter(
    name: Option<string>,
    location: Option<string>,
    schema: Option<Schema>,
    ref: Option<string>)

  /** The `x-github` vendor metadata the generator groups by. */
  datatype Github = Github(category: Option<string>, subcategory: Option<string>)

  /**
   * An operation (the generator's `Method`). `responses` lists the entries
   * of the response map in its iteration order.
   */
  datatype Operation = Operation(
    httpMethod: string,
    path: string,
    summary: Option<string>,
    operationId: Option<string>,
    parameters: seq<Parameter>,
    responses: Option<seq<ResponseEntry>>,
    github: Option<Github>)

  /** The whole document: its operations, in the order `getMethods()` streams them. */
  datatype OpenApi = OpenApi(operations: seq<Operation>)
}
