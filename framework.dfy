/**
  The types of the adapter framework that the connector's GetPage path reads
  and returns: the typed error, the incoming paging request, the entity
  descriptor and the page handed back to the caller. The framework's own
  behaviour is not part of this model.
*/
module Framework {
  import opened Wrappers
  import opened Numbers

  /** The error codes this connector produces; `Other` stands for the codes
      the framework's status classifier may choose (rate limited, unavailable, ...). */
  datatype ErrorCode =
    | InvalidDatasourceConfig
    | InvalidEntityConfig
    | InvalidPageRequestConfig
    | Internal
    | DatasourceFailed
    | Other(name: string)

  /** `framework.Error`: a human-readable message and a code. */
  datatype Error = Error(message: string, code: ErrorCode)

  /** A dynamically typed JSON value, as `encoding/json` decodes into `any`. */
  datatype JsonValue =
    | JNull
    | JBool(b: bool)
    | JNumber(n: real)
    | JString(s: string)
    | JArray(items: seq<JsonValue>)
    | JObject(fields: map<string, JsonValue>)

  /** One record: `map[string]any` on the wire, `framework.Object` after conversion. */
  type JsonObject = map<string, JsonValue>

  /** `framework.EntityConfig`, reduced to what GetPage inspects. */
  datatype EntityConfig = EntityConfig(externalId: string, childEntities: seq<EntityConfig>)

  /** `framework.DatasourceAuthCredentials`, reduced to the header credential. */
  datatype AuthCredentials = AuthCredentials(httpAuthorization: string)

  /**
    `framework.Request[Config]`, passed by pointer. The adapter writes only
    `address` (it forces the https scheme); the other fields are read-only
    for the duration of the call.
  */
  class Request<C> {
    const config: C
    const auth: Option<AuthCredentials>
    const entity: EntityConfig
    const pageSize: Int64
    const cursor: string
    var address: string

    constructor (config: C, auth: Option<AuthCredentials>, entity: EntityConfig,
                 pageSize: Int64, cursor: string, address: string)
      ensures this.config == config && this.auth == auth && this.entity == entity
      ensures this.pageSize == pageSize && this.cursor == cursor && this.address == address
    {
      this.config := config;
      this.auth := auth;
      this.entity := entity;
      this.pageSize := pageSize;
      this.cursor := cursor;
      this.address := address;
    }
  }

  /** `framework.Page`: the converted objects and the cursor of the next page ("" for none). */
  datatype Page = Page(objects: seq<JsonObject>, nextCursor: string)

  /** `framework.Response` as built by `NewGetPageResponseSuccess` / `NewGetPageResponseError`:
      either a complete page or exactly one error. */
  datatype Response = Success(page: Page) | Failure(error: Error)
}
