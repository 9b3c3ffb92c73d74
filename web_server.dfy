/**
 * The request decisions of the proxy server (web_server.py): the configuration
 * endpoint with its masked key, the validation and target of a proxied
 * `/api/messages` request, the response headers it forwards, and the routing
 * of POST paths. Sockets, the configuration file and the relay of the upstream
 * body are not modelled; their results are parameters.
 */
module Server {
  import opened Wrappers
  import opened Text
  import opened Json

  const DefaultBaseUrl := "https://api.anthropic.com"
  const MessagesPath := "/v1/messages"
  const DefaultVersion := "2023-06-01"

  /**
   * The server configuration after `config.get(name, default)`: a missing key
   * reads as "" (or an empty model list); the allowed models are given by id.
   */
  datatype ServerConfig = ServerConfig(apiKey: string, baseUrl: string, allowedModelIds: seq<string>)

  // ---------------------------------------------------------------------------
  // GET /api/config

  /**
   * The masked key: longer than 12 characters gives the first 8, `...` and the
   * last 4; a shorter non-empty key gives `****`; no key gives "".
   */
  function MaskKey(key: string): (r: string)
    ensures |key| > 12 ==> r == key[..8] + "..." + key[|key| - 4..]
    ensures 0 < |key| <= 12 ==> r == "****"
    ensures key == "" ==> r == ""
  {
    if key != "" && |key| > 12 then key[..8] + "..." + key[|key| - 4..]
    else if key != "" then "****"
    else ""
  }

  /**
   * The mask shows at most the first 8 and the last 4 characters of the key,
   * never the rest: its length is fixed and every key character it shows sits at
   * the same distance from the same end of the key.
   */
  lemma MaskShowsOnlyTheEnds(key: string)
    ensures |MaskKey(key)| <= 15
    ensures key != "" ==> MaskKey(key) != key || |key| <= 4 || |key| == 15
    ensures |key| > 12 ==> forall i :: 0 <= i < 8 ==> MaskKey(key)[i] == key[i]
    ensures |key| > 12 ==> forall i :: 11 <= i < 15 ==> MaskKey(key)[i] == key[|key| - 15 + i]
  {
  }

  /** The body of the `GET /api/config` reply. */
  datatype ConfigView = ConfigView(hasServerKey: bool, apiKeyMasked: string, baseUrl: string, allowedModelIds: seq<string>)

  /** `handle_config()` */
  function ConfigReply(cfg: ServerConfig): (r: ConfigView)
    ensures r.hasServerKey <==> cfg.apiKey != ""
    ensures r.apiKeyMasked == MaskKey(cfg.apiKey)
    ensures r.baseUrl == cfg.baseUrl && r.allowedModelIds == cfg.allowedModelIds
    ensures r.hasServerKey <==> r.apiKeyMasked != ""
  {
    ConfigView(cfg.apiKey != "", MaskKey(cfg.apiKey), cfg.baseUrl, cfg.allowedModelIds)
  }

  // ---------------------------------------------------------------------------
  // POST /api/messages

  /** The request the proxy sends upstream. */
  datatype Upstream = Upstream(url: string, headers: seq<(string, string)>, body: Json)

  /**
   * What `handle_messages` answers before the upstream call: it forwards, or
   * replies with a JSON error; `Forbidden` is the 403 reply naming the requested
   * model; `Dropped` is an uncaught exception (the body does not decode as
   * text, or it is JSON but not an object, so it has no `.get`), after which no
   * reply is sent.
   */
  datatype Decision =
    | Forward(upstream: Upstream)
    | JsonError(code: int, message: string)
    | Forbidden(requested: Json)
    | Dropped

  /** `request_data.get('model', '')` on an object. */
  function RequestedModel(fields: map<string, Json>): Json {
    if "model" in fields then fields["model"] else JString("")
  }

  /** `requested_model in allowed_ids`: only a string can equal one of the (string) ids. */
  predicate Allowed(requested: Json, ids: seq<string>) {
    requested.JString? && requested.s in ids
  }

  /**
   * What `json.loads(body)` makes of the raw request bytes: a JSON value; a text
   * that is not JSON (`JSONDecodeError`); or bytes that do not decode as text
   * (`UnicodeDecodeError`, which the handler does not catch).
   */
  datatype BodyParse = Parsed(json: Json) | NotJson | NotText

  /**
   * `handle_messages()` up to the upstream call, for the parsed body and the
   * client's `x-api-key` and `anthropic-version` headers (`None`: absent).
   */
  function HandleMessages(cfg: ServerConfig, body: BodyParse, clientKey: Option<string>, version: Option<string>)
    : (r: Decision)
    ensures body.NotJson? <==> r == JsonError(400, "Invalid request body")
    ensures r.Forbidden? <==>
      && body.Parsed? && cfg.allowedModelIds != [] && body.json.JObject?
      && !Allowed(RequestedModel(body.json.fields), cfg.allowedModelIds)
    ensures r.Dropped? <==> body.NotText? || (body.Parsed? && cfg.allowedModelIds != [] && !body.json.JObject?)
    ensures r == JsonError(401, "API Key not configured") <==>
      && body.Parsed? && (cfg.allowedModelIds == [] || (body.json.JObject? && Allowed(RequestedModel(body.json.fields), cfg.allowedModelIds)))
      && cfg.apiKey == "" && clientKey.GetOr("") == ""
    ensures r.Forward? ==> body.Parsed? && r.upstream.body == body.json
    ensures r.Forward? ==> cfg.allowedModelIds == [] || Allowed(RequestedModel(body.json.fields), cfg.allowedModelIds)
  {
    match body
    case NotText => Dropped
    case NotJson => JsonError(400, "Invalid request body")
    case Parsed(json) =>
      if cfg.allowedModelIds != [] && !json.JObject? then Dropped
      else if cfg.allowedModelIds != [] && !Allowed(RequestedModel(json.fields), cfg.allowedModelIds) then
        Forbidden(RequestedModel(json.fields))
      else
        var key := if cfg.apiKey != "" then cfg.apiKey else clientKey.GetOr("");
        if key == "" then JsonError(401, "API Key not configured")
        else Forward(Upstream(UpstreamUrl(cfg), UpstreamHeaders(key, version), json))
  }

  /** `base_url or 'https://api.anthropic.com'`, followed by `/v1/messages`. */
  function UpstreamUrl(cfg: ServerConfig): (r: string)
    ensures cfg.baseUrl != "" ==> r == cfg.baseUrl + MessagesPath
    ensures cfg.baseUrl == "" ==> r == DefaultBaseUrl + MessagesPath
  {
    (if cfg.baseUrl != "" then cfg.baseUrl else DefaultBaseUrl) + MessagesPath
  }

  /** The upstream headers: JSON content, the chosen key, and the client's API version or the default. */
  function UpstreamHeaders(key: string, version: Option<string>): seq<(string, string)> {
    [("Content-Type", "application/json"), ("x-api-key", key), ("anthropic-version", version.GetOr(DefaultVersion))]
  }

  /** A forwarded request carries the server's key when one is configured, the client's otherwise. */
  lemma ServerKeyTakesPrecedence(cfg: ServerConfig, body: BodyParse, clientKey: Option<string>, version: Option<string>)
    requires HandleMessages(cfg, body, clientKey, version).Forward?
    ensures var headers := HandleMessages(cfg, body, clientKey, version).upstream.headers;
      && |headers| == 3 && headers[1].0 == "x-api-key"
      && headers[1].1 == (if cfg.apiKey != "" then cfg.apiKey else clientKey.value)
      && headers[1].1 != ""
  {
  }

  /** With no allowed list every model passes: validation only checks the body and the key. */
  lemma EmptyListAcceptsAnyModel(cfg: ServerConfig, fields: map<string, Json>, clientKey: Option<string>, version: Option<string>)
    requires cfg.allowedModelIds == [] && (cfg.apiKey != "" || clientKey.GetOr("") != "")
    ensures HandleMessages(cfg, Parsed(JObject(fields)), clientKey, version).Forward?
  {
  }

  /**
   * The checks run in the order 400, 403, 401: a request failing several gets the
   * first one's answer.
   */
  lemma ValidationOrder(cfg: ServerConfig, body: BodyParse, version: Option<string>)
    requires cfg.apiKey == ""
    ensures body.NotJson? ==> HandleMessages(cfg, body, None, version) == JsonError(400, "Invalid request body")
    ensures body.Parsed? && body.json.JObject? && cfg.allowedModelIds != []
      && !Allowed(RequestedModel(body.json.fields), cfg.allowedModelIds)
      ==> HandleMessages(cfg, body, None, version).Forbidden?
  {
  }

  // ---------------------------------------------------------------------------
  // Reply headers of a forwarded request

  /** `header.lower() in ('content-type', 'transfer-encoding')`. */
  predicate Relayed(name: string) {
    LowerAll(name) == "content-type" || LowerAll(name) == "transfer-encoding"
  }

  /** The upstream headers that are passed on, in their order. */
  function RelayedHeaders(headers: seq<(string, string)>): (r: seq<(string, string)>)
    ensures |r| <= |headers|
  {
    if headers == [] then []
    else (if Relayed(headers[0].0) then [headers[0]] else []) + RelayedHeaders(headers[1..])
  }

  /** Exactly the content-type and transfer-encoding headers, in any letter case, are relayed. */
  lemma {:induction false} RelayedExactly(headers: seq<(string, string)>)
    ensures forall h :: h in RelayedHeaders(headers) <==> h in headers && Relayed(h.0)
  {
    if headers != [] {
      RelayedExactly(headers[1..]);
      assert headers == [headers[0]] + headers[1..];
    }
  }

  /** The headers added after the relayed ones, to keep proxies from buffering the stream. */
  const StreamingHeaders: seq<(string, string)> := [("X-Accel-Buffering", "no"), ("Cache-Control", "no-cache")]

  /** The headers relayed from position `i` on: those of header `i`, then those of the rest. */
  lemma RelayedHeadersAt(headers: seq<(string, string)>, i: nat)
    requires i < |headers|
    ensures RelayedHeaders(headers[i..]) == RelayedHeaders([headers[i]]) + RelayedHeaders(headers[i + 1..])
  {
    assert headers[i..][1..] == headers[i + 1..];
    assert [headers[i]][1..] == [];
  }

  /** One pass of the header loop: the header is sent when its name matches. */
  method RelayHeader(sent: seq<(string, string)>, h: (string, string)) returns (r: seq<(string, string)>)
    ensures r == sent + RelayedHeaders([h])
  {
    var (header, value) := h;
    r := sent;
    if Relayed(header) {
      r := r + [(header, value)];
    }
    assert [h][1..] == [];
  }

  /**
   * The header loop of a successful upstream call: the upstream content type and
   * transfer encoding, in any letter case, then the no-buffering headers.
   */
  method ReplyHeaders(upstream: seq<(string, string)>) returns (sent: seq<(string, string)>)
    ensures sent == RelayedHeaders(upstream) + StreamingHeaders
  {
    sent := [];
    var i := 0;
    while i < |upstream|
      invariant 0 <= i <= |upstream|
      invariant sent + RelayedHeaders(upstream[i..]) == RelayedHeaders(upstream)
    {
      RelayedHeadersAt(upstream, i);
      AppendAssoc(sent, RelayedHeaders([upstream[i]]), RelayedHeaders(upstream[i + 1..]));
      sent := RelayHeader(sent, upstream[i]);
      i := i + 1;
    }
    assert upstream[i..] == [];
    sent := sent + StreamingHeaders;
  }

  /** Letter case does not matter to the header filter. */
  lemma RelayIgnoresCase(name: string)
    ensures Relayed(name) <==> Relayed(LowerAll(name))
  {
    var l := LowerAll(name);
    forall i | 0 <= i < |name| ensures LowerAll(l)[i] == l[i] {
      LowerIdempotent(name[i]);
    }
    assert LowerAll(l) == l;
  }

  // ---------------------------------------------------------------------------
  // Routing

  /** Which handler a request reaches. */
  datatype Route = Messages | ConfigEndpoint | StaticFiles | NotFound

  /** `do_POST`: only the exact path `/api/messages` is handled; anything else is a 404. */
  function PostRoute(path: string): (r: Route)
    ensures r == Messages <==> path == "/api/messages"
    ensures r == NotFound <==> path != "/api/messages"
  {
    if path == "/api/messages" then Messages else NotFound
  }

  /** `do_GET`: the exact path `/api/config`, else the static files. */
  function GetRoute(path: string): (r: Route)
    ensures r == ConfigEndpoint <==> path == "/api/config"
    ensures r == StaticFiles <==> path != "/api/config"
  {
    if path == "/api/config" then ConfigEndpoint else StaticFiles
  }

  /** A query string defeats the exact comparison: such a POST is a 404. */
  lemma QueryStringIsNotFound(query: string)
    ensures PostRoute("/api/messages?" + query) == NotFound
  {
    var p := "/api/messages?" + query;
    assert |p| > |"/api/messages"|;
  }
}
