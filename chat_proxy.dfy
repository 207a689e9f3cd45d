/** The chat-completions proxy: it checks the request, forwards it with web
    search enabled to the DashScope endpoint under the server's API key, and
    passes the upstream answer back. The upstream call is a parameter: it
    either throws, or resolves with a status and a body (non-2xx statuses do
    not throw, since every status is accepted as valid). */
module ChatProxy {
  import opened Wrappers
  import opened Js

  /** How the upstream request ended. `status` is `None` when the response's
      status is not a number. */
  datatype Upstream = Threw(details: string) | Responded(status: Option<int>, data: Value)

  /** What the handler does: the body it forwards upstream, if it gets that
      far, and the status and JSON body it answers with. */
  datatype Outcome = Outcome(forwarded: Option<Value>, status: int, body: Value)

  const MissingParams: string := "缺少必需参数: model 或 messages"
  const NoKey: string := "服务端未配置 DASHSCOPE_API_KEY"
  const UpstreamFailed: string := "DashScope 请求失败"
  const CallFailed: string := "模型调用失败"

  function ErrorBody(message: string): Value {
    Obj(map["error" := Str(message)])
  }

  /** The body sent to DashScope: `{ model, messages, enable_search: true }`. */
  function ForwardBody(model: Value, messages: Value): (r: Value)
    ensures r.Obj? && r.fields.Keys == {"model", "messages", "enable_search"}
    ensures Get(r, "model") == model && Get(r, "messages") == messages
    ensures Get(r, "enable_search") == Bool(true)
  {
    Obj(map["model" := model, "messages" := messages, "enable_search" := Bool(true)])
  }

  /** `typeof response.status === 'number' ? response.status : 0` */
  function StatusCode(status: Option<int>): (code: int)
    ensures status.Some? ==> code == status.value
    ensures status.None? ==> code == 0
  {
    if status.Some? then status.value else 0
  }

  /** The request has a truthy `model` and an array of `messages`. */
  predicate ValidRequest(body: Value) {
    var req := Coalesce(body, Obj(map[]));
    Truthy(Get(req, "model")) && Get(req, "messages").Arr?
  }

  /** A request is valid when its body is an object whose `model` is truthy
      and whose `messages` is an array; a missing body is not. */
  lemma ValidRequestMeans(body: Value)
    ensures ValidRequest(body) <==>
      && body.Obj? && "model" in body.fields && Truthy(body.fields["model"])
      && "messages" in body.fields && body.fields["messages"].Arr?
  {
  }

  /** POST `/chat/completions` with request body `body` and the environment's
      `DASHSCOPE_API_KEY`. */
  function ChatCompletions(body: Value, apiKey: Option<string>, upstream: Upstream): (r: Outcome)
    ensures !ValidRequest(body) ==> r == Outcome(None, 400, ErrorBody(MissingParams))
    ensures ValidRequest(body) && (apiKey.None? || apiKey == Some("")) ==>
      r == Outcome(None, 500, ErrorBody(NoKey))
    ensures r.forwarded.Some? <==> ValidRequest(body) && apiKey.Some? && apiKey.value != ""
    ensures r.forwarded.Some? ==>
      var req := Coalesce(body, Obj(map[]));
      && r.forwarded.value.Obj?
      && r.forwarded.value.fields.Keys == {"model", "messages", "enable_search"}
      && Get(r.forwarded.value, "model") == Get(req, "model")
      && Get(r.forwarded.value, "messages") == Get(req, "messages")
      && Get(r.forwarded.value, "enable_search") == Bool(true)
    ensures r.forwarded.Some? && upstream.Threw? ==>
      r.status == 500 && r.body == Obj(map["error" := Str(CallFailed), "details" := Str(upstream.details)])
    ensures r.forwarded.Some? && upstream.Responded? ==>
      var code := StatusCode(upstream.status);
      if 200 <= code < 300 then
        r.status == 200 && r.body == (if Nullish(upstream.data) then Obj(map[]) else upstream.data)
      else
        && r.status == (if code == 0 then 502 else code)
        && r.body == (if Nullish(upstream.data) then ErrorBody(UpstreamFailed) else upstream.data)
  {
    var req := Coalesce(body, Obj(map[]));
    var model := Get(req, "model");
    var messages := Get(req, "messages");
    if !Truthy(model) || !Truthy(messages) || !messages.Arr? then Outcome(None, 400, ErrorBody(MissingParams))
    else if apiKey.None? || apiKey.value == "" then Outcome(None, 500, ErrorBody(NoKey))
    else
      var sent := Some(ForwardBody(model, messages));
      match upstream
      case Threw(details) =>
        Outcome(sent, 500, Obj(map["error" := Str(CallFailed), "details" := Str(details)]))
      case Responded(status, data) =>
        var code := StatusCode(status);
        if code < 200 || code >= 300 then
          Outcome(sent, if code != 0 then code else 502, Coalesce(data, ErrorBody(UpstreamFailed)))
        else Outcome(sent, 200, Coalesce(data, Obj(map[])))
  }

  /** Nothing is sent upstream unless the request is valid and a key is
      configured, and then the answer does not depend on the upstream. */
  lemma RejectedRequestMakesNoCall(body: Value, apiKey: Option<string>, u: Upstream, u': Upstream)
    requires !ValidRequest(body) || apiKey.None? || apiKey == Some("")
    ensures ChatCompletions(body, apiKey, u) == ChatCompletions(body, apiKey, u')
    ensures ChatCompletions(body, apiKey, u).forwarded.None?
  {
  }

  /** The proxy answers with a 2xx status exactly when the upstream did, and
      then always with 200. */
  lemma SuccessOnlyFromUpstream(body: Value, apiKey: Option<string>, u: Upstream)
    ensures var r := ChatCompletions(body, apiKey, u);
      && (200 <= r.status < 300 <==> r.forwarded.Some? && u.Responded? && 200 <= StatusCode(u.status) < 300)
      && (200 <= r.status < 300 ==> r.status == 200)
  {
  }
}
