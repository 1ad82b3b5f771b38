/** The generated-code model: fields, classes, endpoint methods and endpoints. */
module CodeModel {
  import opened Wrappers

  /** `Field.In`: where a request field travels. */
  datatype Location = Path | Query | Header | Body | Cookie

  /** A field of a generated class; `location` is null until something sets it. */
  datatype Field = Field(name: Option<string>, typeName: string, location: Option<Location>)

  /** A generated class, or a `ClazzReference` placeholder standing for one. */
  datatype Clazz =
    | Clazz(name: string, fields: seq<Field>)
    | ClazzReference(name: string, ref: string)

  /** One generated client method. */
  datatype EndpointMethod = EndpointMethod(
    httpMethod: string,
    path: string,
    javaMethod: string,
    request: Clazz,
    response: Clazz,
    summary: string,
    operationId: Option<string>,
    category: Option<string>)

  /** A generated client class grouping the methods of one category. */
  datatype Endpoint = Endpoint(className: string, methods: seq<EndpointMethod>)
}
