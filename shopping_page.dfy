/** The AI shopping page of the client: the helper that picks the products to
    show from a tool result, and the conversation state that `sendMessage`
    updates around one request to the chat endpoint. Rendering, scrolling and
    the HTTP client are not modelled; the clock is a parameter. */
module ShoppingPage {
  import opened Wrappers
  import opened Js
  import Seqs
  import opened Db

  /** The `tool_result` a debug reply may carry. */
  datatype ToolResult = ToolResult(resource: Option<string>, rows: Option<seq<Product>>,
                                   selectedProductIds: Option<seq<int>>)

  /** The rows whose id is among `ids`, in row order. */
  function SelectById(rows: seq<Product>, ids: seq<int>): (r: seq<Product>)
    ensures forall i :: 0 <= i < |r| ==> r[i].id in ids && r[i] in rows
    ensures forall i :: 0 <= i < |rows| && rows[i].id in ids ==> rows[i] in r
    ensures Seqs.IsSubseq(r, rows)
    ensures forall x :: multiset(r)[x] == if x.id in ids then multiset(rows)[x] else 0
  {
    var selected := (p: Product) => p.id in ids;
    Seqs.FilterCounts(rows, selected);
    Seqs.FilterIsSubseq(rows, selected);
    Seqs.FilterMembers(rows, selected);
    Seqs.Filter(rows, selected)
  }

  /** `normalizeProductsFromToolResult`: no products unless the result is a
      non-empty products listing; all its rows when no ids are selected or
      none of the selected ids matches; otherwise the selected rows. */
  function NormalizeProducts(toolResult: Option<ToolResult>): (r: Option<seq<Product>>)
    ensures r.None? <==>
      || toolResult.None?
      || toolResult.value.resource != Some("products")
      || toolResult.value.rows.None? || toolResult.value.rows.value == []
    ensures r.Some? ==> r.value != [] && Seqs.IsSubseq(r.value, toolResult.value.rows.value)
    ensures r.Some? && (toolResult.value.selectedProductIds.None? || toolResult.value.selectedProductIds.value == []) ==>
      r.value == toolResult.value.rows.value
    ensures r.Some? && toolResult.value.selectedProductIds.Some? ==>
      var rows := toolResult.value.rows.value;
      var ids := toolResult.value.selectedProductIds.value;
      if exists i :: 0 <= i < |rows| && rows[i].id in ids then
        && (forall p :: p in r.value ==> p.id in ids)
        && (forall i :: 0 <= i < |rows| && rows[i].id in ids ==> rows[i] in r.value)
        && (forall x :: multiset(r.value)[x] == if x.id in ids then multiset(rows)[x] else 0)
      else r.value == rows
  {
    if toolResult.None? then None
    else if toolResult.value.resource != Some("products") then None
    else if toolResult.value.rows.None? || toolResult.value.rows.value == [] then None
    else
      var rows := toolResult.value.rows.value;
      if toolResult.value.selectedProductIds.None? || toolResult.value.selectedProductIds.value == [] then
        Seqs.SubseqRefl(rows);
        Some(rows)
      else
        var selected := SelectById(rows, toolResult.value.selectedProductIds.value);
        if selected != [] then Some(selected)
        else
          Seqs.SubseqRefl(rows);
          Some(rows)
  }

  /** The largest number of earlier messages sent along with a new one. */
  const HistoryWindow: nat := 10
  /** The largest number of products shown under one reply. */
  const MaxShownProducts: nat := 12

  datatype Role = User | Assistant

  /** A message's id: the welcome message's fixed id, or `String(ms)` for a
      clock reading `ms`. */
  datatype MessageId = WelcomeId | Stamp(ms: int)

  datatype ChatMessage = ChatMessage(id: MessageId, role: Role, content: string, createdAt: int,
                                     products: Option<seq<Product>>)

  /** A message as the request body carries it. */
  datatype WireMessage = WireMessage(role: string, content: string)

  /** The request body `sendMessage` posts to the chat endpoint. */
  datatype ChatRequest = ChatRequest(model: string, debug: bool, messages: seq<WireMessage>)

  const WelcomeText: string := "你好！我是你的 AI 购物助手。你可以告诉我预算、宠物类型和需求，我来帮你推荐并下单。"
  const ErrorPrefix: string := "抱歉，我这边遇到一点问题："
  const DefaultError: string := "请求失败"

  function WireRole(role: Role): string {
    if role == User then "user" else "assistant"
  }

  /** `messages.slice(-10).map(...)`: the last ten messages at most, each with
      its content and its role (`user` stays `user`, anything else is sent as
      `assistant`). */
  function History(messages: seq<ChatMessage>): (r: seq<WireMessage>)
    ensures |r| == if |messages| < HistoryWindow then |messages| else HistoryWindow
    ensures forall i :: 0 <= i < |r| ==>
      var m := messages[|messages| - |r| + i];
      r[i].content == m.content && (r[i].role == "user" <==> m.role == User) &&
      (r[i].role == "user" || r[i].role == "assistant")
  {
    var w := Seqs.TakeLast(messages, HistoryWindow);
    seq(|w|, i requires 0 <= i < |w| => WireMessage(WireRole(w[i].role), w[i].content))
  }

  /** `products && products.length ? products.slice(0, 12) : undefined`: at
      most twelve of the selected products, in order, and none when there are
      none. */
  function ShownProducts(toolResult: Option<ToolResult>): (r: Option<seq<Product>>)
    ensures r.None? <==> NormalizeProducts(toolResult).None?
    ensures r.Some? ==>
      && 1 <= |r.value| <= MaxShownProducts
      && |r.value| <= |NormalizeProducts(toolResult).value|
      && r.value == NormalizeProducts(toolResult).value[..|r.value|]
      && Seqs.IsSubseq(r.value, toolResult.value.rows.value)
    ensures r.Some? ==> var n := |NormalizeProducts(toolResult).value|;
      |r.value| == if n < MaxShownProducts then n else MaxShownProducts
  {
    var products := NormalizeProducts(toolResult);
    if products.None? || products.value == [] then None
    else
      var shown := Seqs.Take(products.value, MaxShownProducts);
      Seqs.PrefixIsSubseq(products.value, |shown|);
      Seqs.SubseqTrans(shown, products.value, toolResult.value.rows.value);
      Some(shown)
  }

  /** How the request ended: the reply's text and optional tool result, or a
      failure carrying the server's `message` and `error` fields and the
      error's own `message` (the empty string where a field is missing, since
      both are falsy). */
  datatype Reply =
    | Answered(content: string, toolResult: Option<ToolResult>)
    | Failed(serverMessage: string, serverError: string, errorMessage: string)

  /** `a || b || c || '请求失败'` over the three messages of a failure. */
  function FailureText(serverMessage: string, serverError: string, errorMessage: string): (r: string)
    ensures r != "" && (r == serverMessage || r == serverError || r == errorMessage || r == DefaultError)
    ensures serverMessage != "" ==> r == serverMessage
    ensures serverMessage == "" && serverError != "" ==> r == serverError
    ensures serverMessage == "" && serverError == "" && errorMessage != "" ==> r == errorMessage
    ensures serverMessage == "" && serverError == "" && errorMessage == "" ==> r == DefaultError
  {
    if serverMessage != "" then serverMessage
    else if serverError != "" then serverError
    else if errorMessage != "" then errorMessage
    else DefaultError
  }

  /** The message a finished request appends to the conversation at time `now`. */
  function ReplyMessage(reply: Reply, now: int): (m: ChatMessage)
    ensures m.role == Assistant
    ensures reply.Answered? ==> m.content == reply.content && m.products == ShownProducts(reply.toolResult)
    ensures reply.Failed? ==>
      m.products.None? &&
      m.content == ErrorPrefix + FailureText(reply.serverMessage, reply.serverError, reply.errorMessage)
  {
    match reply
    case Answered(content, toolResult) =>
      ChatMessage(Stamp(now + 1), Assistant, content, now, ShownProducts(toolResult))
    case Failed(m, e, em) =>
      ChatMessage(Stamp(now + 2), Assistant, ErrorPrefix + FailureText(m, e, em), now, None)
  }

  /** The conversation state of the shopping page. */
  class ShoppingChat {
    var messages: seq<ChatMessage>
    var inputValue: string
    var isLoading: bool

    /** The conversation always starts with the assistant's welcome message. */
    ghost predicate Valid()
      reads this
    {
      messages != [] && messages[0].id == WelcomeId && messages[0].role == Assistant
    }

    constructor (now: int)
      ensures Valid()
      ensures messages == [ChatMessage(WelcomeId, Assistant, WelcomeText, now, None)]
      ensures inputValue == "" && !isLoading
    {
      messages := [ChatMessage(WelcomeId, Assistant, WelcomeText, now, None)];
      inputValue := "";
      isLoading := false;
    }

    /** The part of `sendMessage` before the request: nothing happens for
      blank text or while a request is in flight; otherwise the trimmed text
      is appended as the user's message, the input is cleared, the page is
      marked loading, and the request carries the last ten messages. */
    method Send(text: string, now: int) returns (request: Option<ChatRequest>)
      requires Valid()
      modifies this
      ensures Valid()
      ensures Trim(text) == "" || old(isLoading) ==>
        request.None? && messages == old(messages) && inputValue == old(inputValue) && isLoading == old(isLoading)
      ensures Trim(text) != "" && !old(isLoading) ==>
        && messages == old(messages) + [ChatMessage(Stamp(now), User, Trim(text), now, None)]
        && inputValue == "" && isLoading
        && request == Some(ChatRequest("qwen-plus", true, History(messages)))
    {
      var trimmed := Trim(text);
      if trimmed == "" || isLoading {
        return None;
      }
      var userMsg := ChatMessage(Stamp(now), User, trimmed, now, None);
      var nextMessages := messages + [userMsg];
      messages := nextMessages;
      inputValue := "";
      isLoading := true;
      request := Some(ChatRequest("qwen-plus", true, History(nextMessages)));
    }

    /** The part of `sendMessage` after the request: the reply, or an
      apology naming the failure, is appended, and loading ends. */
    method Settle(reply: Reply, now: int)
      requires Valid()
      modifies this
      ensures Valid()
      ensures messages == old(messages) + [ReplyMessage(reply, now)]
      ensures inputValue == old(inputValue) && !isLoading
    {
      messages := messages + [ReplyMessage(reply, now)];
      isLoading := false;
    }

    /** One whole `sendMessage(text)` whose request ends with `reply`, with the
      clock reading `now` before the request and `later` after it: when a
      request is sent, the conversation grows by the user's message and the
      reply's message and loading is over; otherwise nothing changes. */
    method SendMessage(text: string, now: int, later: int, reply: Reply) returns (request: Option<ChatRequest>)
      requires Valid()
      modifies this
      ensures Valid()
      ensures request.None? <==> Trim(text) == "" || old(isLoading)
      ensures request.None? ==>
        messages == old(messages) && inputValue == old(inputValue) && isLoading == old(isLoading)
      ensures request.Some? ==>
        && messages == old(messages) + [ChatMessage(Stamp(now), User, Trim(text), now, None),
                                        ReplyMessage(reply, later)]
        && inputValue == "" && !isLoading
        && 1 <= |request.value.messages| <= HistoryWindow
        && request.value.messages[|request.value.messages| - 1] == WireMessage("user", Trim(text))
    {
      request := Send(text, now);
      if request.Some? {
        Settle(reply, later);
      }
    }
  }
}
