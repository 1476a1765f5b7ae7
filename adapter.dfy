/**
  `Adapter.GetPage`: validate, then fetch through the client, classify the
  status, convert the records and hand back the page. The framework's status
  classifier and object converter are inputs; every method also returns, as a
  ghost, the trace of collaborator calls it made, in order.
*/
module Adapter {
  import opened Wrappers
  import opened Framework
  import Client
  import Validation

  const HttpsPrefix: string := "https://"

  /** `web.ConvertJSONObjectList` with this adapter's options: converted objects, or the parser's error text. */
  datatype Converted = Converted(objects: seq<JsonObject>, err: Option<string>)

  /** The framework functions GetPage consults. */
  datatype Collaborators<!C> = Collaborators(
    validateConfig: Validation.ConfigValidator<C>,
    httpError: (int, string) -> Option<Error>,
    convert: (EntityConfig, seq<JsonObject>) -> Converted)

  /** One call into a collaborator outside the core. */
  datatype Call =
    | ClientCall(request: Client.Request)
    | HttpErrorCall(statusCode: int, retryAfterHeader: string)
    | ConvertCall(objects: seq<JsonObject>)

  /** The address after the scheme is forced: starts with "https://", and is
      unchanged exactly when it already did. */
  function NormalizeAddress(address: string): (r: string)
    ensures HttpsPrefix <= r
    ensures r == address <==> HttpsPrefix <= address
    ensures r != address ==> r == HttpsPrefix + address
  {
    if HttpsPrefix <= address then address else HttpsPrefix + address
  }

  /** Forcing the scheme twice is forcing it once. */
  lemma NormalizeAddressIdempotent(address: string)
    ensures NormalizeAddress(NormalizeAddress(address)) == NormalizeAddress(address)
  {
  }

  /** The datasource request built from a framework request whose auth is present. */
  function ClientRequestOf<C>(request: Request<C>): (r: Client.Request)
    requires request.auth.Some?
    reads request
    ensures r.baseURL == request.address && r.token == request.auth.value.httpAuthorization
    ensures r.pageSize == request.pageSize && r.entityExternalID == request.entity.externalId
    ensures r.cursor == request.cursor
  {
    Client.Request(request.address, request.auth.value.httpAuthorization, request.pageSize,
                   request.entity.externalId, request.cursor)
  }

  const ConvertFailurePrefix: string := "Failed to convert datasource response objects: "

  /** The error reported when conversion fails: Internal, with the converter's error text embedded. */
  function ConvertFailure(parserErr: string): (e: Error)
    ensures e.code == Internal
    ensures ConvertFailurePrefix <= e.message
    ensures e.message[|ConvertFailurePrefix|..] == parserErr + "."
  {
    Error(ConvertFailurePrefix + parserErr + ".", Internal)
  }

  /**
    What the adapter answers for the client's reply. A client error is
    returned as is; otherwise the status classifier's error, if any; otherwise
    a conversion error as Internal. It is a page exactly when the client, the
    classifier and the converter all succeed, and the page then holds the
    converted objects and the client's cursor unchanged.
  */
  function Outcome<C>(fw: Collaborators<C>, entity: EntityConfig, reply: Client.Reply): (r: Response)
    ensures reply.Err? ==> r == Failure(reply.error)
    ensures reply.Ok? && fw.httpError(reply.response.statusCode, reply.response.retryAfterHeader).Some? ==>
      r == Failure(fw.httpError(reply.response.statusCode, reply.response.retryAfterHeader).value)
    ensures r.Success? <==>
      && reply.Ok?
      && fw.httpError(reply.response.statusCode, reply.response.retryAfterHeader).None?
      && fw.convert(entity, reply.response.objects).err.None?
    ensures r.Success? ==>
      r.page == Page(fw.convert(entity, reply.response.objects).objects, reply.response.nextCursor)
    ensures (reply.Ok? && fw.httpError(reply.response.statusCode, reply.response.retryAfterHeader).None?
             && fw.convert(entity, reply.response.objects).err.Some?) ==>
      r == Failure(ConvertFailure(fw.convert(entity, reply.response.objects).err.value))
  {
    match reply
    case Err(e) => Failure(e)
    case Ok(resp) =>
      match fw.httpError(resp.statusCode, resp.retryAfterHeader)
      case Some(adapterErr) => Failure(adapterErr)
      case None =>
        var converted := fw.convert(entity, resp.objects);
        if converted.err.Some? then Failure(ConvertFailure(converted.err.value))
        else Success(Page(converted.objects, resp.nextCursor))
  }

  class Adapter<C> {
    const client: Client.GetPageFn

    /** `NewAdapter`. */
    constructor (client: Client.GetPageFn)
      ensures this.client == client
    {
      this.client := client;
    }

    /**
      Validate first; a rejected request is answered with the validation error,
      nothing else is called and the request is left as it was. An accepted
      one is fetched by RequestPageFromDatasource.
    */
    method GetPage(fw: Collaborators<C>, request: Request<C>) returns (response: Response, ghost calls: seq<Call>)
      modifies request
      ensures var invalid := Validation.ValidateGetPageRequest(fw.validateConfig, request);
        invalid.Some? ==> response == Failure(invalid.value) && calls == [] && request.address == old(request.address)
      ensures Validation.ValidateGetPageRequest(fw.validateConfig, request).None? ==>
        && request.auth.Some?
        && request.address == NormalizeAddress(old(request.address))
        && |calls| > 0 && calls[0] == ClientCall(ClientRequestOf(request))
        && response == Outcome(fw, request.entity, client(ClientRequestOf(request)))
    {
      var invalid := Validation.ValidateGetPageRequest(fw.validateConfig, request);
      if invalid.Some? {
        return Failure(invalid.value), [];
      }
      assert !Validation.Fails(fw.validateConfig, request, Validation.AuthCheck);
      response, calls := RequestPageFromDatasource(fw, request);
    }

    /**
      Force https on the request's address (in place), copy the request's
      fields into a datasource request, call the client, and answer with
      Outcome. The client is called first; the status classifier only when
      the client succeeds; the converter only when the classifier reports no
      error.
    */
    method RequestPageFromDatasource(fw: Collaborators<C>, request: Request<C>)
      returns (response: Response, ghost calls: seq<Call>)
      requires request.auth.Some?
      modifies request
      ensures request.address == NormalizeAddress(old(request.address))
      ensures HttpsPrefix <= request.address
      ensures response == Outcome(fw, request.entity, client(ClientRequestOf(request)))
      ensures var sent := ClientRequestOf(request);
        match client(sent)
        case Err(_) => calls == [ClientCall(sent)]
        case Ok(resp) =>
          if fw.httpError(resp.statusCode, resp.retryAfterHeader).Some? then
            calls == [ClientCall(sent), HttpErrorCall(resp.statusCode, resp.retryAfterHeader)]
          else
            calls == [ClientCall(sent), HttpErrorCall(resp.statusCode, resp.retryAfterHeader), ConvertCall(resp.objects)]
    {
      if !(HttpsPrefix <= request.address) {
        request.address := HttpsPrefix + request.address;
      }
      var req := Client.Request(request.address, request.auth.value.httpAuthorization,
                                request.pageSize, request.entity.externalId, request.cursor);

      var reply := client(req);
      calls := [ClientCall(req)];
      if reply.Err? {
        return Failure(reply.error), calls;
      }
      var resp := reply.response;

      var adapterErr := fw.httpError(resp.statusCode, resp.retryAfterHeader);
      calls := calls + [HttpErrorCall(resp.statusCode, resp.retryAfterHeader)];
      if adapterErr.Some? {
        return Failure(adapterErr.value), calls;
      }

      var converted := fw.convert(request.entity, resp.objects);
      calls := calls + [ConvertCall(resp.objects)];
      if converted.err.Some? {
        return Failure(ConvertFailure(converted.err.value)), calls;
      }

      var page := Page(converted.objects, "");
      page := page.(nextCursor := resp.nextCursor);
      response := Success(page);
    }
  }
}
