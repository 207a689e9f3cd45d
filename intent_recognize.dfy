/** The intent recogniser: it asks a chat model whether the shopper's message
    calls for one of the two tools, and normalises whatever the model answers
    into a decision. The HTTP request and `JSON.parse` are parameters: the
    model's reply arrives as an `Upstream` outcome, and parsing is a partial
    function that yields `None` where `JSON.parse` throws. */
module IntentRecognize {
  import opened Wrappers
  import opened Js

  /** The names the tool allow-list accepts. */
  const QueryDbTool: string := "query_db"
  const CreateOrderTool: string := "create_order"
  const NoTool: string := "none"

  const NoKeyReason: string := "服务端未配置 DASHSCOPE_API_KEY"
  const NoContentReason: string := "模型未返回可解析内容"
  const NotJsonReason: string := "模型返回非 JSON"
  const DefaultReason: string := "没有理由"

  /** A decision object. `tool` and `args` are present only when a tool is to
      be used; `via` names where the decision came from. */
  datatype Decision = Decision(shouldUseTool: bool, tool: Option<string>, args: Option<Value>,
                               via: string, confidence: Value, reason: Value)

  /** What the recogniser throws instead of returning: the upstream request
      was rejected (network error, timeout, non-2xx status), or a property was
      read from `null` or `undefined`, or `map` called on a non-array. */
  datatype Thrown = UpstreamRejected | TypeError

  datatype Outcome = Decided(decision: Decision) | Threw(error: Thrown)

  /** The outcome of the chat-completions request: rejected, or resolved with
      a response body. */
  datatype Upstream = Rejected | Resolved(data: Value)

  /** A decision to answer without a tool. */
  function NoToolDecision(confidence: Value, reason: Value): (d: Decision)
    ensures !d.shouldUseTool && d.tool.None? && d.args.None? && d.via == "model"
  {
    Decision(false, None, None, "model", confidence, reason)
  }

  /** Some `{` comes before some `}` in `s`. */
  predicate HasBracePair(s: string) {
    exists i, j :: 0 <= i < j < |s| && s[i] == '{' && s[j] == '}'
  }

  /** A `{` before a `}` exists exactly when the first `{` precedes the last `}`. */
  lemma BracePairBounds(s: string)
    ensures HasBracePair(s) <==> FirstIndex(s, '{') < |s| && LastIndex(s, '}') > FirstIndex(s, '{')
  {
    if HasBracePair(s) {
      var i, j :| 0 <= i < j < |s| && s[i] == '{' && s[j] == '}';
      assert FirstIndex(s, '{') <= i && j <= LastIndex(s, '}');
    }
  }

  /** `extractJsonObject(s)` for a string: `null` when no `{` precedes a `}`,
      otherwise what parsing the text from the first `{` to the last `}`
      yields; `None` stands for `JSON.parse` throwing. */
  function ExtractJsonObject(s: string, parse: string -> Option<Value>): (r: Option<Value>)
    ensures !HasBracePair(s) ==> r == Some(Null)
    ensures HasBracePair(s) ==>
      var i := FirstIndex(s, '{');
      var j := LastIndex(s, '}');
      && 0 <= i < j < |s| && s[i] == '{' && s[j] == '}'
      && (forall k :: 0 <= k < i ==> s[k] != '{')
      && (forall k :: j < k < |s| ==> s[k] != '}')
      && r == parse(s[i..j + 1])
  {
    var start := FirstIndex(s, '{');
    var end := LastIndex(s, '}');
    BracePairBounds(s);
    if start == |s| || end == -1 || end <= start then Some(Null)
    else parse(s[start..end + 1])
  }

  /** `v?.[0]`: the first element of an array, the first character of a
      string, the property `"0"` of an object, `undefined` otherwise. */
  function First(v: Value): (r: Value)
    ensures v.Arr? && v.items != [] ==> r == v.items[0]
    ensures Nullish(v) ==> r == Undefined
  {
    match v
    case Arr(items) => if items == [] then Undefined else items[0]
    case Str(s) => if s == "" then Undefined else Str([s[0]])
    case Obj(fields) => if "0" in fields then fields["0"] else Undefined
    case _ => Undefined
  }

  /** `response?.data?.choices?.[0]?.message?.content` */
  function ReplyContent(data: Value): (r: Value)
    ensures Nullish(data) ==> r == Undefined
    ensures Get(data, "choices") == Arr([]) ==> r == Undefined
  {
    Get(Get(First(Get(data, "choices")), "message"), "content")
  }

  /** The content read from a chat completion is that of the first choice's
      message. */
  lemma CompletionContent(content: Value, rest: seq<Value>)
    ensures ReplyContent(Obj(map["choices" := Arr([Obj(map["message" := Obj(map["content" := content])])] + rest)]))
            == content
  {
    var choice := Obj(map["message" := Obj(map["content" := content])]);
    assert ([choice] + rest)[0] == choice;
  }

  /** `messages ? messages.map(m => ({ role: m.role, content: m.content })) : []`
      throws: `messages` is truthy but not an array, or one of its elements is
      `null` or `undefined`. */
  predicate HistoryThrows(messages: Value) {
    Truthy(messages) &&
    (!messages.Arr? || exists i :: 0 <= i < |messages.items| && Nullish(messages.items[i]))
  }

  /** A missing history and an array of message objects are mapped; a history
      that is a non-empty string or an object, or that holds a `null` entry,
      makes the mapping throw. */
  lemma HistoryMapping(messages: Value)
    ensures Nullish(messages) ==> !HistoryThrows(messages)
    ensures messages.Arr? && (forall i :: 0 <= i < |messages.items| ==> messages.items[i].Obj?) ==>
      !HistoryThrows(messages)
    ensures (messages.Str? && messages.s != "") || messages.Obj? ==> HistoryThrows(messages)
    ensures messages.Arr? && Null in messages.items ==> HistoryThrows(messages)
  {
    if messages.Arr? && Null in messages.items {
      var i :| 0 <= i < |messages.items| && messages.items[i] == Null;
    }
  }

  /** Lines 86-99 of the recogniser: the allow-listed tool, the defaults for a
      missing confidence, reason and args, and the decision built from them.
      Reading `obj.args` throws when `obj` is `null` or `undefined`. */
  function Normalise(obj: Value): (r: Outcome)
    ensures Nullish(obj) <==> r == Threw(TypeError)
    ensures r.Decided? ==>
      var d := r.decision;
      var t := Get(obj, "tool");
      && d.via == "model"
      && (d.shouldUseTool <==> t == Str(QueryDbTool) || t == Str(CreateOrderTool))
      && (d.shouldUseTool ==> d.tool == Some(t.s) && d.args.Some?)
      && (!d.shouldUseTool ==> d.tool.None? && d.args.None?)
      && (d.confidence == if Nullish(Get(obj, "confidence")) then Number(Fin(0.0)) else Get(obj, "confidence"))
      && (d.reason == if Nullish(Get(obj, "reason")) then Str(DefaultReason) else Get(obj, "reason"))
      && (d.args.Some? ==> d.args.value == if Nullish(Get(obj, "args")) then Obj(map[]) else Get(obj, "args"))
  {
    var t := Get(obj, "tool");
    var tool := if t == Str(QueryDbTool) || t == Str(CreateOrderTool) then t.s else NoTool;
    var confidence := Coalesce(Get(obj, "confidence"), Number(Fin(0.0)));
    var reason := Coalesce(Get(obj, "reason"), Str(DefaultReason));
    if Nullish(obj) then Threw(TypeError)
    else
      var args := Coalesce(Get(obj, "args"), Obj(map[]));
      if tool == NoTool then Decided(NoToolDecision(confidence, reason))
      else Decided(Decision(true, Some(tool), Some(args), "model", confidence, reason))
  }

  /** `callModelForDecision({ text, userId, messages })` with the environment's
      `DASHSCOPE_API_KEY`, the request's outcome and the JSON parser. */
  function CallModelForDecision(messages: Value, apiKey: Option<string>, upstream: Upstream,
                                parse: string -> Option<Value>): (r: Outcome)
    ensures r.Decided? ==>
      var d := r.decision;
      && d.via == "model"
      && (d.shouldUseTool <==> d.tool.Some?)
      && (d.tool.Some? <==> d.args.Some?)
      && (d.tool.Some? ==> d.tool.value == QueryDbTool || d.tool.value == CreateOrderTool)
    ensures apiKey.None? || apiKey == Some("") ==>
      r == Decided(NoToolDecision(Number(Fin(0.0)), Str(NoKeyReason)))
    ensures r == Threw(UpstreamRejected) <==>
      apiKey.Some? && apiKey.value != "" && !HistoryThrows(messages) && upstream.Rejected?
  {
    if apiKey.None? || apiKey.value == "" then
      Decided(NoToolDecision(Number(Fin(0.0)), Str(NoKeyReason)))
    else if HistoryThrows(messages) then Threw(TypeError)
    else if upstream.Rejected? then Threw(UpstreamRejected)
    else
      var content := ReplyContent(upstream.data);
      if !content.Str? then Decided(NoToolDecision(Number(Fin(0.0)), Str(NoContentReason)))
      else
        match ExtractJsonObject(content.s, parse)
        case None => Decided(NoToolDecision(Number(Fin(0.0)), Str(NotJsonReason)))
        case Some(obj) => Normalise(obj)
  }

  /** Without an API key no request is made: the decision is the same whatever
      the upstream would have answered and whatever the history holds. */
  lemma NoKeyMakesNoRequest(messages: Value, messages': Value, apiKey: Option<string>,
                            upstream: Upstream, upstream': Upstream,
                            parse: string -> Option<Value>, parse': string -> Option<Value>)
    requires apiKey.None? || apiKey == Some("")
    ensures CallModelForDecision(messages, apiKey, upstream, parse) ==
            CallModelForDecision(messages', apiKey, upstream', parse')
    ensures var d := CallModelForDecision(messages, apiKey, upstream, parse).decision;
            !d.shouldUseTool && d.confidence == Number(Fin(0.0))
  {
  }

  /** A reply whose content is not a string, or whose JSON does not parse,
      becomes a decision not to use a tool, with confidence 0. */
  lemma UnusableReplyUsesNoTool(messages: Value, apiKey: Option<string>, data: Value,
                                parse: string -> Option<Value>)
    requires apiKey.Some? && apiKey.value != "" && !HistoryThrows(messages)
    requires var c := ReplyContent(data); !c.Str? || ExtractJsonObject(c.s, parse).None?
    ensures var r := CallModelForDecision(messages, apiKey, Resolved(data), parse);
      && r.Decided? && !r.decision.shouldUseTool && r.decision.confidence == Number(Fin(0.0))
      && r.decision.reason == Str(if !ReplyContent(data).Str? then NoContentReason else NotJsonReason)
  {
  }

  /** A string reply without a `{ ... }` span makes the extraction `null`, and
      reading `args` from it throws instead of producing a decision. */
  lemma NoJsonObjectThrows(messages: Value, apiKey: Option<string>, data: Value,
                           parse: string -> Option<Value>)
    requires apiKey.Some? && apiKey.value != "" && !HistoryThrows(messages)
    requires ReplyContent(data).Str? && !HasBracePair(ReplyContent(data).s)
    ensures CallModelForDecision(messages, apiKey, Resolved(data), parse) == Threw(TypeError)
  {
  }

  /** A model that names any tool other than the two allowed ones gets a
      decision not to use a tool. */
  lemma UnknownToolUsesNoTool(messages: Value, apiKey: Option<string>, data: Value,
                              parse: string -> Option<Value>, obj: Value)
    requires apiKey.Some? && apiKey.value != "" && !HistoryThrows(messages)
    requires ReplyContent(data).Str? && ExtractJsonObject(ReplyContent(data).s, parse) == Some(obj)
    requires !Nullish(obj) && Get(obj, "tool") != Str(QueryDbTool) && Get(obj, "tool") != Str(CreateOrderTool)
    ensures var r := CallModelForDecision(messages, apiKey, Resolved(data), parse);
      r.Decided? && !r.decision.shouldUseTool && r.decision.tool.None?
  {
  }

  /** A parsed reply object is normalised: naming an allow-listed tool gets
      that tool, and the defaults fill what the object leaves out. */
  lemma ParsedReplyIsNormalised(messages: Value, apiKey: Option<string>, data: Value,
                                parse: string -> Option<Value>, obj: Value)
    requires apiKey.Some? && apiKey.value != "" && !HistoryThrows(messages)
    requires ReplyContent(data).Str? && ExtractJsonObject(ReplyContent(data).s, parse) == Some(obj)
    ensures CallModelForDecision(messages, apiKey, Resolved(data), parse) == Normalise(obj)
    ensures !Nullish(obj) && (Get(obj, "tool") == Str(QueryDbTool) || Get(obj, "tool") == Str(CreateOrderTool)) ==>
      var d := CallModelForDecision(messages, apiKey, Resolved(data), parse).decision;
      d.shouldUseTool && d.tool == Some(Get(obj, "tool").s)
  {
  }

  /** `recognizeIntent(arg)`: destructuring `null` throws; `undefined` stands
      for the default `{}`; anything else is handed to the decision step. */
  function RecognizeIntent(arg: Value, apiKey: Option<string>, upstream: Upstream,
                           parse: string -> Option<Value>): (r: Outcome)
    ensures arg.Null? ==> r == Threw(TypeError)
    ensures !arg.Null? ==> r == CallModelForDecision(Get(arg, "messages"), apiKey, upstream, parse)
  {
    if arg.Null? then Threw(TypeError)
    else CallModelForDecision(Get(arg, "messages"), apiKey, upstream, parse)
  }

  /** Calling `recognizeIntent()` with no argument is calling it with `{}`. */
  lemma RecognizeIntentDefault(apiKey: Option<string>, upstream: Upstream, parse: string -> Option<Value>)
    ensures RecognizeIntent(Undefined, apiKey, upstream, parse) ==
            RecognizeIntent(Obj(map[]), apiKey, upstream, parse)
  {
  }
}
