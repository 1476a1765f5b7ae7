/**
  The datasource side of GetPage: the allow-list of entity kinds, the URL and
  headers of the one HTTP GET, the status branch, and the derivation of the
  next-page cursor from the `limit`/`offset`/`more` envelope.

  The HTTP stack and the JSON decoder are inputs: `Transport` says whether a
  URL can be turned into a request and what comes back for a request, and
  `Decoder` says what `json.Unmarshal` makes of a body.
*/
module Datasource {
  import opened Wrappers
  import opened Numbers
  import opened Framework
  import Client

  /** The one supported entity kind. */
  const Teams: string := "teams"

  /** Per-kind metadata: the attribute that identifies a record. */
  datatype Entity = Entity(uniqueIdAttrExternalId: string)

  /** The allow-list of entity external IDs. */
  const ValidEntityExternalIDs: map<string, Entity> := map[Teams := Entity("id")]

  /** The decoded JSON body: `{"teams": [...], "limit": n, "offset": n, "more": b}`. */
  datatype DatasourceResponse = DatasourceResponse(teams: seq<JsonObject>, limit: Int64, offset: Int64, more: bool)

  /** What `json.Unmarshal` makes of a body: an envelope, or the decode error's text. */
  datatype DecodeOutcome = Decoded(envelope: DatasourceResponse) | DecodeFailed(message: string)

  type Decoder = seq<bv8> -> DecodeOutcome

  /** The three results of ParseResponse: objects, next cursor, error. */
  datatype Parsed = Parsed(objects: seq<JsonObject>, nextCursor: string, err: Option<Error>)

  datatype Header = Header(name: string, value: string)

  datatype HttpRequest = HttpRequest(verb: string, url: string, headers: seq<Header>)

  /** Reading the response body either yields its bytes or fails. */
  datatype BodyRead = Body(bytes: seq<bv8>) | BodyReadFailed

  /** The outcome of sending one request. */
  datatype Exchange = SendFailed | Received(statusCode: int, headers: seq<Header>, body: BodyRead)

  /** `http.NewRequestWithContext` (does the URL parse?) and `Client.Do` with the body read. */
  datatype Transport = Transport(urlParses: string -> bool, send: HttpRequest -> Exchange)

  const StatusOK: int := 200
  const AcceptMediaType: string := "application/vnd.pagerduty+json;version=2"
  const JsonContentType: string := "application/json"
  const RetryAfter: string := "Retry-After"

  /** `Header.Get`: the value of the first header stored under `name`, or "" when there is none. */
  function HeaderGet(headers: seq<Header>, name: string): (v: string)
    ensures (forall i :: 0 <= i < |headers| ==> headers[i].name != name) ==> v == ""
    ensures forall i :: 0 <= i < |headers| && headers[i].name == name && NoneNamedBefore(headers, name, i) ==>
      v == headers[i].value
  {
    if headers == [] then ""
    else if headers[0].name == name then headers[0].value
    else
      assert forall i :: 1 <= i < |headers| ==> headers[i] == headers[1..][i - 1];
      assert forall i :: 1 <= i < |headers| && NoneNamedBefore(headers, name, i) ==> NoneNamedBefore(headers[1..], name, i - 1);
      HeaderGet(headers[1..], name)
  }

  /** No header before position `i` is stored under `name`. */
  predicate NoneNamedBefore(headers: seq<Header>, name: string, i: nat)
    requires i <= |headers|
  {
    forall j :: 0 <= j < i ==> headers[j].name != name
  }

  /**
    `fmt.Sprintf("%s/%s?limit=%d&offset=%s", ...)`. The URL is the base URL,
    "/", the entity, "?limit=", then the page size written in decimal (which
    reads back as the page size), then "&offset=" and the cursor as is: not
    percent-encoded, and an empty cursor leaves "offset=" empty.
  */
  function RequestURL(request: Client.Request): (url: string)
    ensures var head := request.baseURL + "/" + request.entityExternalID + "?limit=";
      var size := FormatInt(request.pageSize);
      && head <= url
      && |head| + |size| <= |url|
      && ParseInt(url[|head|..|head| + |size|]) == Some(request.pageSize)
      && url[|head| + |size|..] == "&offset=" + request.cursor
  {
    var head := request.baseURL + "/" + request.entityExternalID + "?limit=";
    var size := FormatInt(request.pageSize);
    var url := head + size + "&offset=" + request.cursor;
    FormatIntRoundTrip(request.pageSize);
    assert url[|head|..|head| + |size|] == size;
    assert url[|head| + |size|..] == "&offset=" + request.cursor;
    url
  }

  /** The three headers GetPage adds, in order. */
  function DatasourceHeaders(token: string): seq<Header> {
    [Header("Accept", AcceptMediaType), Header("Content-Type", JsonContentType), Header("Authorization", token)]
  }

  lemma DatasourceHeadersLookup(token: string)
    ensures HeaderGet(DatasourceHeaders(token), "Authorization") == token
    ensures HeaderGet(DatasourceHeaders(token), "Accept") == AcceptMediaType
    ensures HeaderGet(DatasourceHeaders(token), "Content-Type") == JsonContentType
  {
    var headers := DatasourceHeaders(token);
    assert "Accept" != "Authorization" && "Accept" != "Content-Type" by {
      assert "Accept"[1] != "Authorization"[1] && "Accept"[0] != "Content-Type"[0];
    }
    assert "Content-Type" != "Authorization" by {
      assert "Content-Type"[0] != "Authorization"[0];
    }
    assert NoneNamedBefore(headers, "Authorization", 2);
    assert NoneNamedBefore(headers, "Content-Type", 1);
    assert NoneNamedBefore(headers, "Accept", 0);
  }

  /** The request GetPage hands to the transport: a GET of RequestURL whose
      Authorization header is the token unchanged and whose Accept and
      Content-Type headers are the fixed values. */
  function OutgoingRequest(request: Client.Request): (req: HttpRequest)
    ensures req.verb == "GET" && req.url == RequestURL(request)
    ensures HeaderGet(req.headers, "Authorization") == request.token
    ensures HeaderGet(req.headers, "Accept") == AcceptMediaType
    ensures HeaderGet(req.headers, "Content-Type") == JsonContentType
  {
    DatasourceHeadersLookup(request.token);
    HttpRequest("GET", RequestURL(request), DatasourceHeaders(request.token))
  }

  /** The text after the last `sep` in `s`, or None when `sep` does not occur. */
  function AfterLast(s: string, sep: char): (r: Option<string>)
    ensures r.None? ==> sep !in s
    ensures r.Some? ==>
      && sep !in r.value
      && |r.value| < |s|
      && s[|s| - |r.value| - 1] == sep
      && s[|s| - |r.value|..] == r.value
  {
    if s == [] then None
    else if s[|s| - 1] == sep then Some([])
    else match AfterLast(s[..|s| - 1], sep)
      case None => None
      case Some(t) => Some(t + [s[|s| - 1]])
  }

  /** The raw text of the last `&`-separated field of a URL when that field is
      `offset=...`, with no query decoding (`#`, `%XX` and `+` are left as they are). */
  function OffsetParameter(url: string): Option<string> {
    match AfterLast(url, '&')
    case Some(field) => if "offset=" <= field then Some(field[|"offset="|..]) else None
    case None => None
  }

  /**
    The envelope decoding and cursor derivation. A decode failure gives no
    objects, no cursor and an Internal error naming the decode error. Otherwise
    the objects are the envelope's records unchanged, and the cursor is
    non-empty exactly when `more` is set, in which case it reads back as the
    int64 sum `limit + offset`.
  */
  function ParseResponse(decode: Decoder, body: seq<bv8>): (r: Parsed)
    ensures decode(body).DecodeFailed? ==>
      r == Parsed([], "", Some(Error("Failed to unmarshal the datasource response: "
                                    + decode(body).message + ".", Internal)))
    ensures decode(body).Decoded? ==>
      var d := decode(body).envelope;
      && r.err == None
      && r.objects == d.teams
      && (r.nextCursor != "" <==> d.more)
      && (d.more ==> r.nextCursor == FormatInt(AddInt64(d.limit, d.offset)))
      && (d.more ==> ParseInt(r.nextCursor) == Some(AddInt64(d.limit, d.offset)))
  {
    match decode(body)
    case DecodeFailed(message) =>
      Parsed([], "", Some(Error("Failed to unmarshal the datasource response: " + message + ".", Internal)))
    case Decoded(data) =>
      var nextCursor := if data.more then FormatInt(AddInt64(data.limit, data.offset)) else "";
      FormatIntRoundTrip(AddInt64(data.limit, data.offset));
      Parsed(data.teams, nextCursor, None)
  }

  /**
    `Datasource.GetPage`: one GET against the datasource. It fails with
    Internal when the URL does not make a request or the send fails; answers
    any non-200 status with that status and the Retry-After value, no objects,
    no cursor and no error; fails with DatasourceFailed when the body cannot
    be read; and otherwise returns ParseResponse's objects and cursor, or its
    error.
  */
  method GetPage(transport: Transport, decode: Decoder, request: Client.Request) returns (reply: Client.Reply)
    ensures !transport.urlParses(RequestURL(request)) ==>
      reply == Client.Err(Error("Failed to create HTTP request to datasource.", Internal))
    ensures transport.urlParses(RequestURL(request)) ==>
      var exchange := transport.send(OutgoingRequest(request));
      && (exchange.SendFailed? ==>
            reply == Client.Err(Error("Failed to send request to datasource.", Internal)))
      && (exchange.Received? && exchange.statusCode != StatusOK ==>
            reply == Client.Ok(Client.Response(exchange.statusCode, HeaderGet(exchange.headers, RetryAfter), [], "")))
      && (exchange.Received? && exchange.statusCode == StatusOK && exchange.body.BodyReadFailed? ==>
            reply == Client.Err(Error("Failed to read response body.", DatasourceFailed)))
      && (exchange.Received? && exchange.statusCode == StatusOK && exchange.body.Body? ==>
            var parsed := ParseResponse(decode, exchange.body.bytes);
            reply == if parsed.err.Some? then Client.Err(parsed.err.value)
                     else Client.Ok(Client.Response(StatusOK, HeaderGet(exchange.headers, RetryAfter),
                                                    parsed.objects, parsed.nextCursor)))
  {
    var url := RequestURL(request);
    if !transport.urlParses(url) {
      return Client.Err(Error("Failed to create HTTP request to datasource.", Internal));
    }

    var headers: seq<Header> := [];
    headers := headers + [Header("Accept", AcceptMediaType)];
    headers := headers + [Header("Content-Type", JsonContentType)];
    headers := headers + [Header("Authorization", request.token)];
    var req := HttpRequest("GET", url, headers);
    assert req == OutgoingRequest(request);

    var exchange := transport.send(req);
    if exchange.SendFailed? {
      return Client.Err(Error("Failed to send request to datasource.", Internal));
    }

    var response := Client.Response(exchange.statusCode, HeaderGet(exchange.headers, RetryAfter), [], "");
    if exchange.statusCode != StatusOK {
      return Client.Ok(response);
    }

    if exchange.body.BodyReadFailed? {
      return Client.Err(Error("Failed to read response body.", DatasourceFailed));
    }

    var parsed := ParseResponse(decode, exchange.body.bytes);
    if parsed.err.Some? {
      return Client.Err(parsed.err.value);
    }

    response := response.(objects := parsed.objects, nextCursor := parsed.nextCursor);
    reply := Client.Ok(response);
  }

  // ---------------------------------------------------------------------------
  // Properties of the URL, the headers and the cursor.

  /** The allow-list holds exactly "teams", identified by its "id" attribute. */
  lemma AllowListIsTeams(id: string)
    ensures id in ValidEntityExternalIDs <==> id == Teams
    ensures Teams in ValidEntityExternalIDs && ValidEntityExternalIDs[Teams].uniqueIdAttrExternalId == "id"
  {
  }

  lemma {:induction false} AfterLastOfJoin(prefix: string, sep: char, rest: string)
    requires sep !in rest
    ensures AfterLast(prefix + [sep] + rest, sep) == Some(rest)
    decreases |rest|
  {
    var s := prefix + [sep] + rest;
    if rest != [] {
      var shorter := rest[..|rest| - 1];
      assert s[..|s| - 1] == prefix + [sep] + shorter;
      AfterLastOfJoin(prefix, sep, shorter);
      assert shorter + [s[|s| - 1]] == rest;
    }
  }

  /** A query-safe cursor (decimal digits and minus signs, as `%d` writes) is the
      URL's `offset` parameter unchanged. */
  lemma OffsetCarriesCursor(request: Client.Request)
    requires forall i :: 0 <= i < |request.cursor| ==> IsDigit(request.cursor[i]) || request.cursor[i] == '-'
    ensures OffsetParameter(RequestURL(request)) == Some(request.cursor)
  {
    var url := RequestURL(request);
    var k := |request.baseURL + "/" + request.entityExternalID + "?limit="| + |FormatInt(request.pageSize)|;
    var field := "offset=" + request.cursor;
    assert url[k..] == ['&'] + field;
    assert url == url[..k] + ['&'] + field by {
      assert url == url[..k] + url[k..];
    }
    AfterLastOfJoin(url[..k], '&', field);
    assert field[|"offset="|..] == request.cursor;
  }

  /** A cursor written by `%d` is the next URL's offset parameter and reads back as its number. */
  lemma FormattedCursorInURL(next: Client.Request, n: int)
    requires next.cursor == FormatInt(n)
    ensures OffsetParameter(RequestURL(next)) == Some(next.cursor)
    ensures ParseInt(next.cursor) == Some(n)
  {
    OffsetCarriesCursor(next);
    FormatIntRoundTrip(n);
  }

  /**
    The cursor round trip: feeding a page's non-empty cursor back as the next
    request's cursor puts that same decimal string in the `offset` parameter,
    which reads back as `limit + offset` of the page's envelope (the int64
    sum; the plain sum whenever it fits in int64).
  */
  lemma CursorRoundTrip(decode: Decoder, body: seq<bv8>, next: Client.Request)
    requires decode(body).Decoded? && decode(body).envelope.more
    requires next.cursor == ParseResponse(decode, body).nextCursor
    ensures OffsetParameter(RequestURL(next)) == Some(next.cursor)
    ensures ParseInt(next.cursor) == Some(AddInt64(decode(body).envelope.limit, decode(body).envelope.offset))
    ensures var d := decode(body).envelope;
      MinInt64 <= d.limit + d.offset <= MaxInt64 ==> ParseInt(next.cursor) == Some(d.limit + d.offset)
  {
    var d := decode(body).envelope;
    var sum := AddInt64(d.limit, d.offset);
    var parsed := ParseResponse(decode, body);
    assert parsed.nextCursor == FormatInt(sum);
    FormattedCursorInURL(next, sum);
    assert MinInt64 <= d.limit + d.offset <= MaxInt64 ==> sum == d.limit + d.offset;
  }

  /** The worked example: `more` with limit 50 and offset 100 gives the cursor "150". */
  lemma CursorExample(decode: Decoder, body: seq<bv8>)
    requires decode(body) == Decoded(DatasourceResponse([], 50, 100, true))
    ensures ParseResponse(decode, body).nextCursor == "150"
  {
    assert NatToDecimal(1) == "1";
    assert NatToDecimal(15) == NatToDecimal(1) + "5";
    assert NatToDecimal(150) == NatToDecimal(15) + "0";
  }

  /** The end-to-end example: two team records, limit 2, offset 0, more set give
      the same two records and the cursor "2". */
  lemma FirstPageExample(decode: Decoder, body: seq<bv8>, first: JsonObject, second: JsonObject)
    requires decode(body) == Decoded(DatasourceResponse([first, second], 2, 0, true))
    ensures ParseResponse(decode, body) == Parsed([first, second], "2", None)
  {
    assert NatToDecimal(2) == "2";
  }
}
