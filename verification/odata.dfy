/**
 * The OData client of the ERP: its configuration, the quoting of string
 * literals in filters and key paths, the entity endpoint, the guards that run
 * before any request, and the cached access token.
 *
 * The HTTP calls themselves are not modelled: the client records the requests
 * it would send, and the answers it would get (the token the identity provider
 * issues, the response's content type and body) are parameters.
 */
module OData {
  import opened Wrappers
  import opened JsString
  import opened JsValue

  const DEFAULT_ENTITY_NAME: string := "PdSalesVSCostProcesseds"
  const DEFAULT_FILTER_FIELD: string := "SalesId"
  /** A token is reused while it has more than this many seconds left. */
  const TOKEN_MARGIN: real := 60.0
  /** The lifetime assumed for a freshly issued token, in seconds. */
  const TOKEN_LIFETIME: real := 3600.0

  datatype Config = Config(baseUrl: string, entityName: string, filterField: string, dataAreaId: string)

  /** `process.env[name] || fallback`; an unset variable is absent from `env`. */
  function EnvOr(env: map<string, string>, name: string, fallback: string): (r: string)
    ensures name in env && env[name] != "" ==> r == env[name]
    ensures !(name in env && env[name] != "") ==> r == fallback
  {
    if name in env && env[name] != "" then env[name] else fallback
  }

  /** `s.replace(/\/$/, "")`: one trailing slash removed. */
  function DropTrailingSlash(s: string): (r: string)
    ensures s != [] && s[|s| - 1] == '/' ==> r + "/" == s
    ensures !(s != [] && s[|s| - 1] == '/') ==> r == s
  {
    if s != [] && s[|s| - 1] == '/' then s[..|s| - 1] else s
  }

  /** `CFG`, read once from the environment. */
  function ConfigFromEnv(env: map<string, string>): Config {
    Config(
      DropTrailingSlash(EnvOr(env, "BASE_URL", "")),
      EnvOr(env, "ENTITY_NAME", DEFAULT_ENTITY_NAME),
      EnvOr(env, "FILTER_FIELD", DEFAULT_FILTER_FIELD),
      EnvOr(env, "DATAAREAID", ""))
  }

  /** The configured names are never empty: unset or empty variables fall back to the defaults. */
  lemma ConfigDefaults(env: map<string, string>)
    ensures ConfigFromEnv(env).entityName != "" && ConfigFromEnv(env).filterField != ""
    ensures "BASE_URL" !in env ==> ConfigFromEnv(env).baseUrl == ""
    ensures "ENTITY_NAME" !in env ==> ConfigFromEnv(env).entityName == DEFAULT_ENTITY_NAME
    ensures "FILTER_FIELD" !in env ==> ConfigFromEnv(env).filterField == DEFAULT_FILTER_FIELD
  {
  }

  // ---------------------------------------------------------------- quoting

  /** `escapeOData(value)`: `String(value ?? "")` with every single quote doubled. */
  function EscapeOData(value: Value): (r: string)
    ensures Nullish(value) ==> r == ""
    ensures UndoubleChar(r, '\'') == Some(ToStr(Coalesce(value, Str(""))))
  {
    var s := ToStr(Coalesce(value, Str("")));
    UndoubleDouble(s, '\'');
    DoubleChar(s, '\'')
  }

  /** Every single quote of an escaped value belongs to a doubled pair, so none can close the
      surrounding literal: the value's quotes come out exactly twice as many. */
  lemma EscapeODataQuotes(value: Value)
    ensures Count(EscapeOData(value), '\'') == 2 * Count(ToStr(Coalesce(value, Str(""))), '\'')
  {
    DoubledCount(ToStr(Coalesce(value, Str(""))));
  }

  lemma {:induction false} DoubledCount(s: string)
    ensures Count(DoubleChar(s, '\''), '\'') == 2 * Count(s, '\'')
  {
    if s != [] {
      DoubledCount(s[1..]);
      CountAppend(if s[0] == '\'' then "''" else [s[0]], DoubleChar(s[1..], '\''), '\'');
      if s[0] == '\'' {
        assert "''"[1..] == "'";
        assert "'"[1..] == [];
      } else {
        assert [s[0]][1..] == [];
      }
    }
  }

  /** A quoted OData string literal. */
  function Literal(value: Value): string {
    "'" + EscapeOData(value) + "'"
  }

  /** Reading a literal back: strip the quotes and un-double the inner ones. */
  lemma LiteralReadsBack(value: Value)
    ensures var lit := Literal(value);
            |lit| >= 2 && lit[0] == '\'' && lit[|lit| - 1] == '\'' &&
            UndoubleChar(lit[1..|lit| - 1], '\'') == Some(ToStr(Coalesce(value, Str(""))))
  {
    var lit := Literal(value);
    assert lit[1..|lit| - 1] == EscapeOData(value);
  }

  // ---------------------------------------------------------------- endpoint, filter, key path

  /** `/\/data$/i.test(base)` */
  predicate EndsWithDataSegment(base: string) {
    |base| >= 5 && AsciiEqualIgnoreCase(base[|base| - 5..], "/data")
  }

  /** `entityEndpoint()` */
  function EntityEndpoint(cfg: Config): (r: string)
    ensures cfg.baseUrl == "" ==> r == cfg.entityName
    ensures cfg.baseUrl != "" ==>
              && EndsWith(r, "/" + cfg.entityName)
              && StartsWith(r, cfg.baseUrl)
              && EndsWithDataSegment(r[..|r| - |cfg.entityName| - 1])
    ensures cfg.baseUrl != "" && EndsWithDataSegment(cfg.baseUrl) ==> r == cfg.baseUrl + "/" + cfg.entityName
    ensures cfg.baseUrl != "" && !EndsWithDataSegment(cfg.baseUrl) ==> r == cfg.baseUrl + "/data/" + cfg.entityName
  {
    var base := cfg.baseUrl;
    if base == "" then cfg.entityName
    else
      var root := if EndsWithDataSegment(base) then base else base + "/data";
      var r := root + "/" + cfg.entityName;
      assert |r| == |root| + 1 + |cfg.entityName|;
      assert r[..|root|] == root;
      assert root[..|base|] == base;
      assert r[..|base|] == base;
      assert r[|root|..] == "/" + cfg.entityName;
      assert !EndsWithDataSegment(base) ==> root[|root| - 5..] == "/data";
      r
  }

  /** A base URL given with one trailing slash leads to the same endpoint as without it. */
  lemma TrailingSlashIgnored(env: map<string, string>, base: string)
    requires base != "" && base[|base| - 1] != '/'
    ensures EntityEndpoint(ConfigFromEnv(env["BASE_URL" := base + "/"])) == EntityEndpoint(ConfigFromEnv(env["BASE_URL" := base]))
  {
    assert (base + "/")[..|base|] == base;
  }

  /** The `$filter` query of `fetchODataBySalesId`. */
  function FilterQuery(cfg: Config, salesId: Value): string {
    "$filter=" + cfg.filterField + " eq " + Literal(salesId)
  }

  /** The key parts of `patchODataRecord`: the filter field, then `dataAreaId` only when configured. */
  function KeyParts(cfg: Config, salesId: Value): (parts: seq<string>)
    ensures |parts| == if cfg.dataAreaId != "" then 2 else 1
    ensures parts[0] == cfg.filterField + "=" + Literal(salesId)
    ensures cfg.dataAreaId != "" ==> parts[1] == "dataAreaId=" + Literal(Str(cfg.dataAreaId))
  {
    [cfg.filterField + "=" + Literal(salesId)] +
    (if cfg.dataAreaId != "" then ["dataAreaId=" + Literal(Str(cfg.dataAreaId))] else [])
  }

  /** The URL `fetchODataBySalesId` requests: the entity endpoint and the filter on the order id. */
  method BuildFilterUrl(cfg: Config, salesId: Value) returns (url: string)
    ensures url == EntityEndpoint(cfg) + "?" + FilterQuery(cfg, salesId)
  {
    var filtro := "$filter=" + cfg.filterField + " eq " + Literal(salesId);
    url := EntityEndpoint(cfg) + "?" + filtro;
  }

  /** The `keyParts` array `patchODataRecord` fills. */
  method BuildKeyParts(cfg: Config, salesId: Value) returns (keyParts: seq<string>)
    ensures keyParts == KeyParts(cfg, salesId)
  {
    keyParts := [cfg.filterField + "=" + Literal(salesId)];
    if cfg.dataAreaId != "" {
      keyParts := keyParts + ["dataAreaId=" + Literal(Str(cfg.dataAreaId))];
    }
  }

  function KeyPath(cfg: Config, salesId: Value): string {
    EntityEndpoint(cfg) + "(" + Join(KeyParts(cfg, salesId), ",") + ")"
  }

  // ---------------------------------------------------------------- the client

  datatype Request =
    | TokenPost
    | Get(url: string, token: Value)
    | Patch(url: string, token: Value, changes: Value)

  /** A cached token is reused while it is set and expires more than a minute after `now`. */
  predicate Reusable(token: Value, expiry: real, now: real) {
    Truthy(token) && expiry > now + TOKEN_MARGIN
  }

  /** The token request `obtenerToken` sends: none while the cached token is reusable. */
  function TokenRequests(token: Value, expiry: real, now: real): seq<Request> {
    if Reusable(token, expiry, now) then [] else [TokenPost]
  }

  function TokenPosts(requests: seq<Request>): nat {
    if requests == [] then 0 else (if requests[0].TokenPost? then 1 else 0) + TokenPosts(requests[1..])
  }

  lemma {:induction false} TokenPostsAppend(a: seq<Request>, b: seq<Request>)
    ensures TokenPosts(a + b) == TokenPosts(a) + TokenPosts(b)
  {
    if a == [] {
      assert a + b == b;
    } else {
      assert (a + b)[0] == a[0];
      assert (a + b)[1..] == a[1..] + b;
      TokenPostsAppend(a[1..], b);
    }
  }

  class ODataService {
    const cfg: Config
    var token: Value
    var expiry: real
    /** The requests sent so far, oldest first. */
    var sent: seq<Request>

    constructor (env: map<string, string>)
      ensures cfg == ConfigFromEnv(env)
      ensures token == Null && expiry == 0.0 && sent == []
    {
      cfg := ConfigFromEnv(env);
      token := Null;
      expiry := 0.0;
      sent := [];
    }

    /** `obtenerToken()` at time `now` (seconds), where `issued` is the `access_token` the identity
        provider would answer with. */
    method ObtainToken(now: real, issued: Value) returns (t: Value)
      modifies this
      ensures Reusable(old(token), old(expiry), now) ==>
                t == old(token) && token == old(token) && expiry == old(expiry) && sent == old(sent)
      ensures !Reusable(old(token), old(expiry), now) ==>
                t == issued && token == issued && expiry == now + TOKEN_LIFETIME && sent == old(sent) + [TokenPost]
    {
      if Truthy(token) && expiry > now + TOKEN_MARGIN {
        return token;
      }
      sent := sent + [TokenPost];
      token := issued;
      expiry := now + TOKEN_LIFETIME;
      return issued;
    }

    /** `fetchODataBySalesId(salesId)`: `contentType` and `body` stand for the response. */
    method FetchODataBySalesId(salesId: Value, now: real, issued: Value, contentType: string, body: Value)
      returns (r: Result<Value>)
      modifies this
      ensures !Truthy(salesId) ==>
                r == Err("salesId requerido") && sent == old(sent) && token == old(token) && expiry == old(expiry)
      ensures Truthy(salesId) ==>
                && sent == old(sent) + TokenRequests(old(token), old(expiry), now) +
                           [Get(EntityEndpoint(cfg) + "?" + FilterQuery(cfg, salesId), token)]
                && token == (if Reusable(old(token), old(expiry), now) then old(token) else issued)
                && expiry == (if Reusable(old(token), old(expiry), now) then old(expiry) else now + TOKEN_LIFETIME)
                && (r.Ok? <==> Includes(contentType, "application/json"))
                && (r.Ok? ==> r.value == body)
    {
      if !Truthy(salesId) {
        return Err("salesId requerido");
      }
      var t := ObtainToken(now, issued);
      var url := BuildFilterUrl(cfg, salesId);
      sent := sent + [Get(url, t)];
      if !Includes(contentType, "application/json") {
        return Err("Respuesta inesperada de OData: " + contentType);
      }
      return Ok(body);
    }

    /** `patchODataRecord(salesId, changes)`: the key path it patches, or the error it throws. */
    method PatchODataRecord(salesId: Value, changes: Value, now: real, issued: Value) returns (r: Result<string>)
      modifies this
      ensures !Truthy(salesId) ==>
                r == Err("salesId requerido") && sent == old(sent) && token == old(token) && expiry == old(expiry)
      ensures Truthy(salesId) && !(Truthy(changes) && IsObjectLike(changes)) ==>
                r == Err("changes inv\U{00E1}lido") && sent == old(sent) && token == old(token) && expiry == old(expiry)
      ensures Truthy(salesId) && Truthy(changes) && IsObjectLike(changes) ==>
                && r == Ok(KeyPath(cfg, salesId))
                && sent == old(sent) + TokenRequests(old(token), old(expiry), now) + [Patch(KeyPath(cfg, salesId), token, changes)]
                && token == (if Reusable(old(token), old(expiry), now) then old(token) else issued)
                && expiry == (if Reusable(old(token), old(expiry), now) then old(expiry) else now + TOKEN_LIFETIME)
    {
      if !Truthy(salesId) {
        return Err("salesId requerido");
      }
      if !Truthy(changes) || !IsObjectLike(changes) {
        return Err("changes inv\U{00E1}lido");
      }
      var t := ObtainToken(now, issued);
      var keyParts := BuildKeyParts(cfg, salesId);
      var keyPath := EntityEndpoint(cfg) + "(" + Join(keyParts, ",") + ")";
      sent := sent + [Patch(keyPath, t, changes)];
      return Ok(keyPath);
    }
  }

  /** Two fetches within the lifetime of a token the first one obtains: one token is requested, and
      the second fetch sends the same token as the first. */
  method FetchTwice(service: ODataService, salesId: Value, now: real, later: real, issued: Value, contentType: string, body: Value)
    requires Truthy(salesId) && Truthy(issued)
    requires !Reusable(service.token, service.expiry, now)
    requires now <= later < now + TOKEN_LIFETIME - TOKEN_MARGIN
    modifies service
    ensures TokenPosts(service.sent) == TokenPosts(old(service.sent)) + 1
    ensures |service.sent| >= 2 && service.sent[|service.sent| - 1].Get? && service.sent[|service.sent| - 2].Get?
    ensures service.sent[|service.sent| - 1].token == service.sent[|service.sent| - 2].token
  {
    var first := service.FetchODataBySalesId(salesId, now, issued, contentType, body);
    var middle := service.sent;
    assert Reusable(service.token, service.expiry, later);
    var second := service.FetchODataBySalesId(salesId, later, issued, contentType, body);
    var url := EntityEndpoint(service.cfg) + "?" + FilterQuery(service.cfg, salesId);
    assert service.sent == middle + [Get(url, service.token)];
    TokenPostsAppend(old(service.sent) + TokenRequests(old(service.token), old(service.expiry), now), [Get(url, service.token)]);
    TokenPostsAppend(old(service.sent), TokenRequests(old(service.token), old(service.expiry), now));
    TokenPostsAppend(middle, [Get(url, service.token)]);
    assert TokenPosts([Get(url, service.token)]) == 0 by {
      assert [Get(url, service.token)][1..] == [];
    }
  }
}
