/** The request factory `createRequest` and the shared client's interceptor
    stages. The client's transport is not modelled: a request function returns
    the call it hands to the client, and what the transport delivers back is an
    input of the inbound stage. */
module Http {
  import opened JsValues
  import UrlTemplate

  /** A call on the shared client, with its arguments. */
  datatype Call =
    | HttpGet(url: string, config: Record)   // http.get(url, config)
    | HttpPost(url: string, data: Value)     // http.post(url, data)
    | HttpDelete(url: string)                // http.delete(url)
    | HttpRequest(config: Record)            // http.request(config)

  /** The second argument of createRequest: a method name or a base config. */
  datatype Base = MethodName(name: string) | BaseConfig(config: Record)

  /** The default second argument, `'GET'`. */
  const DefaultBase := MethodName("GET")

  /** `typeof configOrMethod === 'string' ? { method: configOrMethod } : configOrMethod`. */
  function BaseRecord(b: Base): Record
  {
    match b
    case MethodName(m) => map["method" := Str(m)]
    case BaseConfig(c) => c
  }

  /** The state of one `AbortController`. */
  datatype Controller = Controller(aborted: bool, reason: Value)

  /** The call one invocation `request(payload, config)` makes, given the
      normalised base, the url it resolved and its fresh signal. */
  function Outgoing(base: Record, url: string, payload: Value, config: Record, signal: nat): Call
  {
    var final := map["signal" := Signal(signal)] + base + config;
    var verb := Get(base, "method");
    if verb == Str("GET") then
      HttpGet(url, final["params" := Obj(Spread(Get(base, "params")) + Spread(payload))])
    else
      var baseData := Get(base, "data");
      var data := if IsObjectType(baseData) then Obj(Spread(baseData) + Spread(payload)) else payload;
      HttpRequest(final + map["method" := verb, "data" := data, "url" := Str(url)])
  }

  /** `controller?.abort(reason)`: only the most recent controller is
      aborted, an already aborted one keeps its first reason, and before the
      first call there is no controller at all. */
  function AbortLatest(cs: seq<Controller>, reason: Value): (r: seq<Controller>)
    ensures |r| == |cs|
    ensures forall i :: 0 <= i < |cs| - 1 ==> r[i] == cs[i]
    ensures cs != [] ==> r[|cs| - 1].aborted
    ensures cs != [] && !cs[|cs| - 1].aborted ==> r[|cs| - 1].reason == reason
    ensures cs != [] && cs[|cs| - 1].aborted ==> r == cs
  {
    if cs == [] || cs[|cs| - 1].aborted then cs
    else cs[|cs| - 1 := Controller(true, reason)]
  }

  /** The function `createRequest(url, configOrMethod)` returns, with the
      three variables its closure reassigns. */
  class RequestFactory {
    /** The closure's `url`: the template at first, overwritten by every call. */
    var url: string
    /** The closure's `configOrMethod`. */
    var base: Base
    /** Every controller created so far, oldest first; the last one is the
        closure's `controller`. */
    var controllers: seq<Controller>

    constructor (url: string, base: Base)
      ensures this.url == url && this.base == base && controllers == []
    {
      this.url := url;
      this.base := base;
      controllers := [];
    }

    /** `request(payload, config)`: normalises the base, allocates a fresh
        controller, overwrites the stored url with its resolution against the
        per-call config, and returns the call it makes. */
    method Request(payload: Value, config: Record) returns (call: Call)
      modifies this
      ensures base == BaseConfig(BaseRecord(old(base)))
      ensures controllers == old(controllers) + [Controller(false, Undefined)]
      ensures url == UrlTemplate.Resolve(old(url), config)
      ensures call == Outgoing(BaseRecord(old(base)), url, payload, config, |old(controllers)|)
    {
      var b := BaseRecord(base);
      base := BaseConfig(b);
      var signal := |controllers|;
      controllers := controllers + [Controller(false, Undefined)];
      var final := map["signal" := Signal(signal)] + b + config;
      var verb := Get(b, "method");
      url := UrlTemplate.TransformUrl(url, config);
      if verb == Str("GET") {
        final := final["params" := Obj(Spread(Get(b, "params")) + Spread(payload))];
        call := HttpGet(url, final);
      } else {
        var baseData := Get(b, "data");
        var data := if IsObjectType(baseData) then Obj(Spread(baseData) + Spread(payload)) else payload;
        call := HttpRequest(final + map["method" := verb, "data" := data, "url" := Str(url)]);
      }
    }

    /** `request.abort(reason)`. */
    method Abort(reason: Value)
      modifies this
      ensures url == old(url) && base == old(base)
      ensures controllers == AbortLatest(old(controllers), reason)
    {
      if controllers != [] && !controllers[|controllers| - 1].aborted {
        controllers := controllers[|controllers| - 1 := Controller(true, reason)];
      }
    }

    /** `request` as it was evidently meant to be: the template is resolved
        into a local for each call and the stored url stays the template. */
    method RequestKeepingTemplate(payload: Value, config: Record) returns (call: Call)
      modifies this
      ensures url == old(url)
      ensures base == BaseConfig(BaseRecord(old(base)))
      ensures controllers == old(controllers) + [Controller(false, Undefined)]
      ensures call == Outgoing(BaseRecord(old(base)), UrlTemplate.Resolve(url, config), payload, config, |old(controllers)|)
    {
      base := BaseConfig(BaseRecord(base));
      controllers := controllers + [Controller(false, Undefined)];
      var resolved := UrlTemplate.TransformUrl(url, config);
      call := Outgoing(BaseRecord(base), resolved, payload, config, |controllers| - 1);
    }
  }

  /** GET: the params sent are the base params overlaid by the payload (the
      payload wins on a shared key), and nothing else: the per-call config's
      params are dropped. */
  lemma GetMergesParams(base: Record, url: string, payload: Value, config: Record, signal: nat)
    requires Get(base, "method") == Str("GET")
    ensures var c := Outgoing(base, url, payload, config, signal);
      var bp := Spread(Get(base, "params"));
      var pp := Spread(payload);
      && c.HttpGet? && c.url == url
      && "params" in c.config && c.config["params"].Obj?
      && c.config["params"].fields.Keys == bp.Keys + pp.Keys
      && (forall k :: k in pp ==> c.config["params"].fields[k] == pp[k])
      && (forall k :: k in bp && k !in pp ==> c.config["params"].fields[k] == bp[k])
  {
  }

  /** GET: whatever params the per-call config carries, the call is the same. */
  lemma GetIgnoresCallParams(base: Record, url: string, payload: Value, config: Record, signal: nat, other: Value)
    requires Get(base, "method") == Str("GET")
    ensures Outgoing(base, url, payload, config["params" := other], signal) == Outgoing(base, url, payload, config, signal)
  {
    var f1 := map["signal" := Signal(signal)] + base + config["params" := other];
    var f2 := map["signal" := Signal(signal)] + base + config;
    var p := Obj(Spread(Get(base, "params")) + Spread(payload));
    assert f1["params" := p] == f2["params" := p];
  }

  /** Any other method: one `http.request` whose method and url are the
      base's and the resolved one, and whose body is the base data overlaid by
      the payload when the base data is an object (null included) and the
      payload alone otherwise; the per-call config cannot override these
      three, and supplies every other field before the base does. */
  lemma OtherMethodsSendBody(base: Record, url: string, payload: Value, config: Record, signal: nat)
    requires Get(base, "method") != Str("GET")
    ensures var c := Outgoing(base, url, payload, config, signal);
      var bd := Get(base, "data");
      && c.HttpRequest?
      && Get(c.config, "method") == Get(base, "method")
      && Get(c.config, "url") == Str(url)
      && Get(c.config, "data") == (if IsObjectType(bd) then Obj(Spread(bd) + Spread(payload)) else payload)
      && (forall k :: k != "method" && k != "data" && k != "url" ==>
            Get(c.config, k) == (if k in config then config[k]
                                 else if k in base then base[k]
                                 else if k == "signal" then Signal(signal) else Undefined))
  {
  }

  // ---------------------------------------------------------------------
  // What the request interceptors receive.

  /** The request config as the interceptors see it. */
  datatype RequestConfig = RequestConfig(url: Option<string>, verb: Option<string>, headers: Record, params: Value, data: Value)

  /** How the client turns a call into the config its request interceptors
      receive: `get`, `post` and `delete` fix the method, the url comes from
      the call, a missing or empty method means `get`, and the method is
      lower-cased before the interceptors run. */
  function Dispatch(c: Call): RequestConfig
  {
    match c
    case HttpGet(url, cfg) => RequestConfig(Some(url), Some("get"), Spread(Get(cfg, "headers")), Get(cfg, "params"), Get(cfg, "data"))
    case HttpPost(url, data) => RequestConfig(Some(url), Some("post"), map[], Undefined, data)
    case HttpDelete(url) => RequestConfig(Some(url), Some("delete"), map[], Undefined, Undefined)
    case HttpRequest(cfg) =>
      var m := Get(cfg, "method");
      var u := Get(cfg, "url");
      RequestConfig(if u.Str? then Some(u.s) else None,
                    if m.Str? && m.s != "" then Some(ToLowerAscii(m.s)) else Some("get"),
                    Spread(Get(cfg, "headers")), Get(cfg, "params"), Get(cfg, "data"))
  }

  /** The method the interceptors see is the call's own in lower case. */
  lemma DispatchLowersMethod(cfg: Record)
    ensures var m := Get(cfg, "method");
      m.Str? && m.s != "" ==> Dispatch(HttpRequest(cfg)).verb == Some(ToLowerAscii(m.s))
    ensures forall i :: 0 <= i < |Dispatch(HttpRequest(cfg)).verb.value| ==>
      !('A' <= Dispatch(HttpRequest(cfg)).verb.value[i] <= 'Z')
  {
  }

  /** Whatever the per-call config says, a factory call goes to the url it
      resolved, and its method is fixed by the base alone. */
  lemma FactoryCallTarget(base: Record, url: string, payload: Value, c1: Record, c2: Record, signal: nat)
    ensures Dispatch(Outgoing(base, url, payload, c1, signal)).url == Some(url)
    ensures Dispatch(Outgoing(base, url, payload, c1, signal)).verb == Dispatch(Outgoing(base, url, payload, c2, signal)).verb
    ensures Outgoing(base, url, payload, c1, signal).HttpGet? <==> Get(base, "method") == Str("GET")
  {
  }

  // ---------------------------------------------------------------------
  // The outbound stage.

  /** Urls under this prefix get the credential and the user. */
  const ApiPrefix := "/chat"

  /** `` `Bearer ${import.meta.env.VITE_CHAT_API_KEY}` ``, which reads
      `Bearer undefined` when the key is not configured. */
  function BearerValue(envKey: Option<string>): string
  {
    "Bearer " + (if envKey.Some? then envKey.value else "undefined")
  }

  /** `config.method?.toLocaleUpperCase() === 'GET'`. */
  predicate IsGetMethod(m: Option<string>)
  {
    m.Some? && ToUpperAscii(m.value) == "GET"
  }

  /** The interceptor's GET test accepts `get` in any letter case, and
      nothing else. */
  lemma IsGetMethodIff(m: string)
    ensures IsGetMethod(Some(m)) <==>
      |m| == 3 && (m[0] == 'g' || m[0] == 'G') && (m[1] == 'e' || m[1] == 'E') && (m[2] == 't' || m[2] == 'T')
  {
    if |m| == 3 {
      var u := ToUpperAscii(m);
      assert u == "GET" <==> u[0] == 'G' && u[1] == 'E' && u[2] == 'T';
    }
  }

  /** Three spellings the client may carry, and a method that is not GET. */
  lemma IsGetMethodExamples()
    ensures IsGetMethod(Some("get")) && IsGetMethod(Some("Get")) && IsGetMethod(Some("GET"))
    ensures !IsGetMethod(Some("post")) && !IsGetMethod(Some("gets"))
  {
    IsGetMethodIff("get");
    IsGetMethodIff("Get");
    IsGetMethodIff("GET");
    IsGetMethodIff("post");
    IsGetMethodIff("gets");
  }

  /** The request interceptor (the store's `user` and the build-time key are
      parameters). */
  function OutboundRule(cfg: RequestConfig, envKey: Option<string>, user: string): RequestConfig
  {
    if cfg.url.Some? && StartsWith(cfg.url.value, ApiPrefix) then
      var headers := cfg.headers["Authorization" := Str(BearerValue(envKey))];
      if IsGetMethod(cfg.verb) then
        cfg.(headers := headers, params := Obj(Spread(cfg.params)["user" := Str(user)]))
      else
        cfg.(headers := headers, data := Obj(Spread(cfg.data)["user" := Str(user)]))
    else cfg
  }

  /** The config object the client passes through the request interceptor,
      which the interceptor edits in place. */
  class AxiosConfig {
    var url: Option<string>
    var verb: Option<string>
    var headers: Record
    var params: Value
    var data: Value

    constructor (c: RequestConfig)
      ensures Snapshot() == c
    {
      url, verb, headers, params, data := c.url, c.verb, c.headers, c.params, c.data;
    }

    function Snapshot(): RequestConfig
      reads this
    {
      RequestConfig(url, verb, headers, params, data)
    }
  }

  /** The request interceptor as the client runs it: `headers.set`, then
      `config.params = …` or `config.data = …`, on the object itself. */
  method Intercept(config: AxiosConfig, envKey: Option<string>, user: string)
    modifies config
    ensures config.Snapshot() == OutboundRule(old(config.Snapshot()), envKey, user)
  {
    if config.url.Some? && StartsWith(config.url.value, ApiPrefix) {
      config.headers := config.headers["Authorization" := Str(BearerValue(envKey))];
      var isGet := IsGetMethod(config.verb);
      if isGet {
        config.params := Obj(Spread(config.params)["user" := Str(user)]);
      } else {
        config.data := Obj(Spread(config.data)["user" := Str(user)]);
      }
    }
  }

  /** `after` is `{...before, user}`: every field of before except `user`
      kept, and `user` set to the store's user. */
  predicate CarriesUser(after: Value, before: Value, user: string)
  {
    && after.Obj?
    && after.fields.Keys == Spread(before).Keys + {"user"}
    && after.fields["user"] == Str(user)
    && forall k :: k in Spread(before) && k != "user" ==> after.fields[k] == Spread(before)[k]
  }

  /** A url starting with `/chat` (any url with that prefix, `/chatx` too)
      gets the bearer header, and the user goes into the params for GET in
      any letter case and into the body for every other method, replacing a
      caller's own `user`; nothing else changes. Every other url passes
      through untouched. */
  lemma OutboundInjects(cfg: RequestConfig, envKey: Option<string>, user: string)
    ensures var r := OutboundRule(cfg, envKey, user);
      if cfg.url.Some? && StartsWith(cfg.url.value, ApiPrefix) then
        && r.url == cfg.url && r.verb == cfg.verb
        && r.headers == cfg.headers["Authorization" := Str(BearerValue(envKey))]
        && (IsGetMethod(cfg.verb) ==> r.data == cfg.data && CarriesUser(r.params, cfg.params, user))
        && (!IsGetMethod(cfg.verb) ==> r.params == cfg.params && CarriesUser(r.data, cfg.data, user))
      else r == cfg
  {
  }

  /** The outbound stage on a non-GET call under `/chat`. */
  lemma OutboundBody(url: string, verb: string, headers: Record, params: Value, data: Value, envKey: Option<string>, user: string)
    requires StartsWith(url, ApiPrefix) && !IsGetMethod(Some(verb))
    ensures OutboundRule(RequestConfig(Some(url), Some(verb), headers, params, data), envKey, user)
         == RequestConfig(Some(url), Some(verb), headers["Authorization" := Str(BearerValue(envKey))], params,
                          Obj(Spread(data)["user" := Str(user)]))
  {
  }

  /** The outbound stage on a GET call under `/chat`. */
  lemma OutboundQuery(url: string, headers: Record, params: Value, data: Value, envKey: Option<string>, user: string)
    requires StartsWith(url, ApiPrefix)
    ensures OutboundRule(RequestConfig(Some(url), Some("get"), headers, params, data), envKey, user)
         == RequestConfig(Some(url), Some("get"), headers["Authorization" := Str(BearerValue(envKey))],
                          Obj(Spread(params)["user" := Str(user)]), data)
  {
    assert ToUpperAscii("get") == "GET";
  }

  /** A caller's own `user` never survives the outbound stage. */
  lemma CallerUserOverwritten(cfg: RequestConfig, envKey: Option<string>, user: string)
    requires cfg.url.Some? && StartsWith(cfg.url.value, ApiPrefix)
    ensures var r := OutboundRule(cfg, envKey, user);
      Prop(if IsGetMethod(cfg.verb) then r.params else r.data, "user") == Str(user)
  {
  }

  // ---------------------------------------------------------------------
  // The inbound stage.

  datatype HttpResponse = HttpResponse(status: int, data: Value)

  /** An `AxiosError`: its code and, when the server answered, the response. */
  datatype HttpError = HttpError(code: Option<string>, response: Option<HttpResponse>)

  /** What the transport delivers for one call. */
  datatype Arrival = Delivered(response: HttpResponse) | Failed(error: HttpError)

  /** How the caller's promise settles. */
  datatype Settled = Resolved(value: Value) | Rejected(error: HttpError)

  /** The settled promise and the text of the error notification, if any. */
  datatype Inbound = Inbound(settled: Settled, notice: Option<Value>)

  const SystemErrorText := "系统错误"
  const TimeoutText := "请求超时"
  const NetworkErrorText := "网络错误"

  /** The message the failure callback chooses. */
  function ErrorMessage(e: HttpError): (msg: Value)
    ensures Truthy(msg)
  {
    var body := if e.response.Some? && Truthy(e.response.value.data) then e.response.value.data else Obj(map[]);
    var msg := if Truthy(Prop(body, "message")) then Prop(body, "message")
               else if Truthy(Prop(body, "msg")) then Prop(body, "msg")
               else Str(SystemErrorText);
    var msg := if e.code == Some("ECONNABORTED") then Str(TimeoutText) else msg;
    if e.code == Some("ERR_NETWORK") then Str(NetworkErrorText) else msg
  }

  /** The response interceptor: success yields the body alone; failure
      notifies and rejects with the very same error. */
  function InboundRule(a: Arrival): (r: Inbound)
    ensures a.Delivered? ==> r == Inbound(Resolved(a.response.data), None)
    ensures a.Failed? ==> r.settled == Rejected(a.error) && r.notice == Some(ErrorMessage(a.error))
    ensures r.notice.Some? ==> Truthy(r.notice.value)
  {
    match a
    case Delivered(resp) => Inbound(Resolved(resp.data), None)
    case Failed(e) => Inbound(Rejected(e), Some(ErrorMessage(e)))
  }

  /** The error message choice: the code `ECONNABORTED` forces the timeout
      text and `ERR_NETWORK` the network text; otherwise the server's
      `message`, else its `msg`, else the generic text. */
  lemma ErrorMessageChoice(e: HttpError)
    ensures e.code == Some("ECONNABORTED") ==> ErrorMessage(e) == Str(TimeoutText)
    ensures e.code == Some("ERR_NETWORK") ==> ErrorMessage(e) == Str(NetworkErrorText)
    ensures e.code != Some("ECONNABORTED") && e.code != Some("ERR_NETWORK") ==>
      var body := if e.response.Some? then e.response.value.data else Undefined;
      ErrorMessage(e) == (if Truthy(Prop(body, "message")) then Prop(body, "message")
                          else if Truthy(Prop(body, "msg")) then Prop(body, "msg")
                          else Str(SystemErrorText))
  {
  }
}
