# Pet-supplies shop: decision logic in Dafny

This project models the decision logic of a pet-supplies web shop, built as
an Express/MySQL server with a React client.

- **Tool executors** (`Tools`). `queryDb` lists products, the caller's
  account or the caller's orders. `createOrder` runs an ordered validation
  chain and then writes one order.
- **Intent recogniser** (`IntentRecognize`). It turns a chat model's reply
  into a tool decision: it cuts the JSON object out of the text, applies the
  tool allow-list and fills in defaults.
- **AI shopping page** (`ShoppingPage`). This covers the tool-result product
  picker, and the conversation state that `sendMessage` updates (guard,
  ten-message history window, twelve-product cap).
- **Cart reducer** (`CartReducer`). Each of its four actions replaces exactly
  one field.
- **Order and cart routes** (`OrderRoutes`, `CartRoutes`). They list the
  caller's rows, delete a row only when the caller owns it, and insert rows
  stamped with the caller's id.
- **Chat proxy** (`ChatProxy`). It maps the request, the presence of an API
  key and the upstream outcome to a status and a body.

The MySQL tables live in one `Db.Store` object. It holds sequences of rows
plus the next auto-increment ids, and its invariant `Valid` says primary
keys are unique. Every insert or delete is a method that states the table's
whole new contents. Queries are functions over the tables.

JavaScript values are modelled by `Js.Value`. The JavaScript operations the
code relies on are written out in `Js`: truthiness, `??`, `?.`, `Number(...)`,
`Math.max`/`Math.min` with NaN, and `String.prototype.trim` with
ECMAScript's whitespace set.

Some things become parameters:
- the clock (`now`);
- the environment's `DASHSCOPE_API_KEY` (`apiKey`);
- the outcome of each upstream HTTP call (`Upstream`);
- `JSON.parse` (a partial function `string -> Option<Value>`, where `None`
  means it throws).

The authenticated account id is a parameter too.

The code is followed where the project's own descriptions differ from it:

- `queryDb` ignores any `category` in its input. The SQL has no `WHERE` clause.
- The recogniser always calls the model. There is no keyword pre-filter.
- `createOrder` reads only `productId`. It has no lookup by product name.
- Nothing composes a reply from tool results.
- `server/index.js:8` loads `./routes`, which resolves to `server/routes.js`.
  That file only defines `/logout`. So the order, cart and chat routers, and
  the executors, are never reached by an HTTP request. They are modelled as
  standalone operations.

## Model

| member | source | states |
|---|---|---|
| Js.Trim | client/src/components/AIShoppingModePage/index.tsx:89 | the result is a contiguous slice of the input, and everything cut off before or after it is ECMAScript whitespace. The result neither starts nor ends with whitespace. It is empty exactly when the input is all whitespace |
| Js.ToNumber | server/utils/tools.js:80-81 | `Number(v)`: numbers are kept, `null` is 0, `undefined` and objects are NaN, booleans are 1 or 0, strings convert as `StringToNumber` says, the empty array is 0, a one-string array converts as its string, and longer arrays are NaN |
| Js.StringToNumber | server/utils/tools.js:80-81 | `Number(s)` for a string: an all-whitespace string is 0, trimmed digits are the whole number they spell, `-` followed by digits its negation, and a negative result needs a leading `-` |
| Js.FirstIndex | server/utils/intentRecognize.js:7 | the first position of the character, with no earlier occurrence |
| Js.LastIndex | server/utils/intentRecognize.js:8 | the last position of the character, with no later occurrence, or -1 when there is none |
| Seqs.TopByDesc | server/utils/tools.js:29-30 | `ORDER BY key DESC LIMIT n`: the result is sorted descending and is a sub-multiset of the table of length min(n, size). No row left out has a larger key than a row kept |
| Db.OwnedBy | server/routes/orders.js:22 | exactly the rows with the caller's `account_id`, in table order, each as often as it occurs in the table |
| Db.Matching | server/routes/orders.js:48-51 | empty exactly when no row has both the id and the caller's account id |
| Db.WithoutId | server/routes/orders.js:60 | the `DELETE ... WHERE id = ?` result keeps no row with that id |
| Db.WithoutIdIsSubseq | server/routes/cart.js:60-62 | deleting keeps the other rows in order and loses none whose id differs |
| Db.WithoutIdRemovesOne | server/routes/orders.js:60 | when the id is unique, deleting it removes exactly that one row |
| Db.Store.InsertOrder | server/utils/tools.js:99-106 | appends exactly one row under a fresh id (the next auto-increment value) and returns that id. Other tables are unchanged and keys stay unique |
| Db.Store.DeleteOrders | server/routes/orders.js:60 | the orders table becomes `WithoutId` of the old one. Keys stay unique |
| Db.Store.InsertCartItem | server/routes/cart.js:90-94 | appends exactly one row under a fresh id and returns it. Other tables are unchanged |
| Db.Store.DeleteCartItems | server/routes/cart.js:60-62 | the cart table becomes `WithoutId` of the old one. Keys stay unique |
| Tools.ClampLimit | server/utils/tools.js:13 | NaN exactly when the requested limit is not a number. Otherwise the result is in [1, 50], is 20 when the limit is absent, and is the requested value moved into [1, 50] (infinities go to 1 or 50) |
| Tools.RequestedLimit | server/utils/tools.js:13 | `limit ?? 20` as a number: 20 when the limit is absent, a number as it is, a string as `Number` reads it |
| Tools.RowLimit | server/utils/tools.js:30 | `LIMIT ?` selects a row count exactly when the bound number is a non-negative whole number, and that count is the number |
| Tools.QueryLimit | server/utils/tools.js:13-17 | the row count of a query is in [1, 50], and is 20 when no limit is given. The statement is refused exactly when the requested limit is NaN or a fraction between 1 and 50. A whole request in [1, 50] is used as it is |
| Tools.LatestProducts | server/utils/tools.js:19-35 | min(n, catalog size) products, sorted by descending id, a sub-multiset of the catalog. No product left out has a larger id than one returned |
| Tools.AccountRows | server/utils/tools.js:40-47 | at most one row, with the caller's id, taken from accounts. Empty exactly when no account has that id |
| Tools.LatestOrders | server/utils/tools.js:55-70 | min(n, their count) of the caller's orders, a sub-multiset of them (no order repeated), sorted by descending date. None of the caller's orders left out is more recent than one returned |
| Tools.QueryDb | server/utils/tools.js:15-74 | 401 exactly for `user`/`orders` without a signed-in caller. 400 exactly for any other resource. A database error exactly when the limit cannot be bound. A success is tagged with the requested resource |
| Tools.SignedInIsTruthyUserId | server/utils/tools.js:78 | `SignedIn`, the guard of the user, orders and order-creation paths, holds exactly when `ctx?.userId` is truthy |
| Tools.ProductQuery | server/utils/tools.js:15-36 | needs no login. When the limit can be bound, it is in [1, 50] and the answer is `LatestProducts` of that many. The answer is the same for any other field of the input (no category filter), any caller and any other table |
| Tools.UserQuery | server/utils/tools.js:38-48 | a signed-in caller's user query succeeds with `AccountRows` of their own id |
| Tools.OrderQuery | server/utils/tools.js:15-71 | a signed-in caller's orders query with a bindable limit uses a limit in [1, 50] and succeeds with `LatestOrders` of their own id |
| Tools.ProductIndex | server/utils/tools.js:87 | the first product with the given id, or none exists |
| Tools.Validate | server/utils/tools.js:78-97 | an anonymous caller gets 401. Every failure has a code in {400, 401, 404, 409}. An accepted order belongs to the caller |
| Tools.CheckOrder | server/utils/tools.js:78-97 | the validation on `Number(input.productId)`, `Number(input.amount)` and `Number(input.price)`: 401 for an anonymous caller, codes in {400, 401, 404, 409}, and an accepted order is the caller's with exactly the converted productId and amount |
| Tools.AcceptedOrder | server/utils/tools.js:80-97 | an accepted order is for an existing product, with a productId > 0 and an amount in (0, 99] within stock. Its price is > 0, and is the given price when that is a finite number and unit price × amount otherwise |
| Tools.ValidateRunsChecksInOrder | server/utils/tools.js:78-97 | accepted exactly when all six checks (auth, productId, amount, existence, stock, price) pass. Otherwise the error is that of the first check in that order that fails |
| Tools.OrderFieldsOf | server/utils/tools.js:102-105 | the written row has status `未完成` and the current date |
| Tools.CreateOrder | server/utils/tools.js:76-109 | on a rejection, returns the error and leaves every table unchanged. On acceptance, appends exactly one order (the caller's, `未完成`, the validated productId, amount and price) and returns its id. Product stock is never changed |
| IntentRecognize.BracePairBounds | server/utils/intentRecognize.js:7-9 | some `{` precedes some `}` exactly when the first `{` precedes the last `}` |
| IntentRecognize.ExtractJsonObject | server/utils/intentRecognize.js:5-11 | `null` exactly when no `{` comes before a `}`. Otherwise the result is the parse of exactly the slice from the first `{` to the last `}` inclusive |
| IntentRecognize.First | server/utils/intentRecognize.js:74 | `?.[0]` yields an array's first element and `undefined` on `null`/`undefined` |
| IntentRecognize.ReplyContent | server/utils/intentRecognize.js:74 | `undefined` for a missing response body or an empty `choices` list |
| IntentRecognize.CompletionContent | server/utils/intentRecognize.js:74 | of a chat completion, the content of the first choice's message is read |
| IntentRecognize.HistoryMapping | server/utils/intentRecognize.js:56-59 | `HistoryThrows`: a missing history and an array of message objects are mapped; a non-empty string, an object, or an array holding `null` throws |
| IntentRecognize.NoToolDecision | server/utils/intentRecognize.js:18-23 | a decision not to use a tool carries neither tool nor args and comes `via` the model |
| IntentRecognize.Normalise | server/utils/intentRecognize.js:86-99 | throws exactly when the extracted object is `null`/`undefined`. Otherwise a tool is used exactly when the model named `query_db` or `create_order`, and only then are `tool` and `args` present. `via` is always `model`. A missing confidence is 0, a missing reason is `没有理由`, and missing args are `{}` |
| IntentRecognize.CallModelForDecision | server/utils/intentRecognize.js:14-100 | every decision has `via` = `model`. `shouldUseTool` holds exactly when a tool is present, and a tool is present exactly when args are, and it is always one of the two allow-listed tools. With no API key the decision is no tool with confidence 0. It throws an upstream error exactly when the key is set, the history maps, and the request is rejected |
| IntentRecognize.NoKeyMakesNoRequest | server/utils/intentRecognize.js:16-23 | without a key the decision does not depend on the upstream, the parser or the history, and is no tool with confidence 0 |
| IntentRecognize.UnusableReplyUsesNoTool | server/utils/intentRecognize.js:74-83 | non-string content or a parse exception gives no tool, confidence 0, and the matching reason |
| IntentRecognize.NoJsonObjectThrows | server/utils/intentRecognize.js:80-89 | string content without a `{ ... }` span makes line 89 throw instead of yielding a decision |
| IntentRecognize.UnknownToolUsesNoTool | server/utils/intentRecognize.js:86-91 | any tool name other than the two allowed becomes no tool |
| IntentRecognize.ParsedReplyIsNormalised | server/utils/intentRecognize.js:78-99 | once the reply's object is extracted, the decision is exactly its normalisation, and naming `query_db` or `create_order` gets that tool |
| IntentRecognize.RecognizeIntent | server/utils/intentRecognize.js:103-105 | a `null` argument throws. Anything else delegates its `messages` to the decision step |
| IntentRecognize.RecognizeIntentDefault | server/utils/intentRecognize.js:103 | no argument behaves as `{}` |
| ShoppingPage.SelectById | client/src/components/AIShoppingModePage/index.tsx:47-48 | exactly the rows whose id is selected, in row order, each as often as it occurs |
| ShoppingPage.NormalizeProducts | client/src/components/AIShoppingModePage/index.tsx:42-50 | undefined exactly when the result is absent, not `products`, or has no rows. A defined result is non-empty and a subsequence of the rows. With no selection it is all rows. With a selection it is exactly the selected rows, each as often as it occurs, or all rows when none matches |
| ShoppingPage.History | client/src/components/AIShoppingModePage/index.tsx:113-116 | min(10, n) messages, the last ones, in order, with content preserved and role `user` exactly for user messages (`assistant` otherwise) |
| ShoppingPage.ShownProducts | client/src/components/AIShoppingModePage/index.tsx:126-133 | none exactly when no products were picked. Otherwise exactly min(12, number picked) products, a prefix of the picked ones and a subsequence of the rows |
| ShoppingPage.FailureText | client/src/components/AIShoppingModePage/index.tsx:138 | the first non-empty of the server's message, the server's error and the error's message, in that order, else `请求失败` |
| ShoppingPage.ReplyMessage | client/src/components/AIShoppingModePage/index.tsx:128-148 | an assistant message holding the reply text and the shown products, or the apology `抱歉，我这边遇到一点问题：` followed by the failure text and no products |
| ShoppingPage.ShoppingChat.constructor | client/src/components/AIShoppingModePage/index.tsx:54-63 | the conversation starts with the welcome message, an empty input and no request in flight |
| ShoppingPage.ShoppingChat.Send | client/src/components/AIShoppingModePage/index.tsx:89-119 | blank text or a request in flight changes nothing and sends nothing. Otherwise it appends the trimmed user message, clears the input, sets loading, and sends the `History` of the new conversation |
| ShoppingPage.ShoppingChat.Settle | client/src/components/AIShoppingModePage/index.tsx:121-151 | appends exactly the `ReplyMessage` and ends loading |
| ShoppingPage.ShoppingChat.SendMessage | client/src/components/AIShoppingModePage/index.tsx:87-154 | a request is sent exactly when the text is not blank and none is in flight. It carries 1 to 10 messages ending with the user's trimmed text, and the conversation grows by the user message stamped before the request and the reply message stamped with the clock reading after it |
| CartReducer.Reduce | client/src/components/ShoppingCart/cartReducer.ts:23-35 | each of the four actions sets its own field to the payload and leaves the three other fields unchanged |
| CartReducer.UnrecognisedKeepsState | client/src/components/ShoppingCart/cartReducer.ts:33-34 | an unknown action returns the state unchanged |
| CartReducer.ReduceIdempotent | client/src/components/ShoppingCart/cartReducer.ts:23-35 | dispatching an action twice equals dispatching it once |
| CartReducer.LaterWriteWins | client/src/components/ShoppingCart/cartReducer.ts:23-35 | of two actions on the same field, the later decides |
| CartReducer.DistinctWritesCommute | client/src/components/ShoppingCart/cartReducer.ts:23-35 | actions on different fields commute |
| OrderRoutes.ListOrders | server/routes/orders.js:7-31 | exactly the caller's orders, in table order, each as often as it occurs |
| OrderRoutes.DeleteOrder | server/routes/orders.js:42-64 | 403 with the table unchanged unless the order exists and is the caller's. Then exactly that one row is removed and nothing else changes |
| OrderRoutes.BindsUndefinedMeans | server/routes/orders.js:77-92 | `BindsUndefined`: an object body fails the insert exactly when `productId`, `amount` or `price` is missing or `undefined`; any other non-nullish body always does |
| OrderRoutes.Buy | server/routes/orders.js:75-98 | appends exactly one order (the caller's, `未完成`, holding the body's productId, amount and price unvalidated) and returns its id. A `null` body or a missing field gives 500 and no row |
| CartRoutes.ListCart | server/routes/cart.js:7-29 | exactly the caller's cart items, in table order, each as often as it occurs |
| CartRoutes.DeleteCartItem | server/routes/cart.js:42-67 | 403 with the table unchanged unless the item exists and is the caller's. Then exactly that one row is removed |
| CartRoutes.RequiredFieldsMeans | server/routes/cart.js:81-83 | `HasRequiredFields`: only an object body with all three fields passes, and an amount or total price of 0 is refused |
| CartRoutes.AddToCart | server/routes/cart.js:78-99 | a falsy productId, amount or totalPrice gives 400 and inserts nothing. Otherwise it appends exactly one item of the caller with those three values |
| ChatProxy.StatusCode | server/routes/ai1.js:49 | a numeric status is kept, anything else becomes 0 |
| ChatProxy.ValidRequestMeans | server/routes/ai1.js:10-11 | `ValidRequest`: the body is an object with a truthy `model` and an array `messages`; a missing body is invalid |
| ChatProxy.ForwardBody | server/routes/ai1.js:26-30 | the forwarded body has exactly the keys `model`, `messages` and `enable_search`, holding the request's model and messages and `true` |
| ChatProxy.ChatCompletions | server/routes/ai1.js:7-66 | a missing/falsy model or non-array messages gives 400, and a missing key gives 500, neither forwarding anything. Otherwise the body forwarded is exactly `{model, messages, enable_search: true}`. A thrown call gives 500 `模型调用失败` with details. A non-2xx reply passes its status through (502 for 0 or non-numeric) with the payload or `DashScope 请求失败`. A 2xx reply gives 200 with the payload or `{}` |
| ChatProxy.RejectedRequestMakesNoCall | server/routes/ai1.js:10-23 | when the request is invalid or there is no key, nothing is forwarded and the answer does not depend on the upstream |
| ChatProxy.SuccessOnlyFromUpstream | server/routes/ai1.js:49-58 | the proxy answers 2xx exactly when the upstream answered 2xx, and then with 200 |

## Left out

- SQL, the MySQL pool, HTTP, Express and React are not modelled.
  - Tables are sequences, handlers are methods or functions, and upstream calls are outcome parameters.
  - A database that fails (connection loss, a constraint) is not modelled. Neither are the generic 500 replies that only such a failure produces.
- Row projections and joins are left out. Queries return whole rows: no selected column lists, no product name joined into orders or cart rows. A product's image is one optional URL, so a product with several images, which the `LEFT JOIN` would repeat, is not modelled.
- Column types are left out. Order and cart rows hold the bound JavaScript values exactly. MySQL's conversion of them to the column types is not modelled.
- Path parameters `:orderId` and `:itemId` are taken as the integer they denote. MySQL's coercion of the path string is not modelled.
- Finite numbers are exact reals. IEEE rounding is not modelled, and neither is the overflow of `unitPrice * amount` to `Infinity`.
- Js.ToNumber: exponent, hexadecimal, octal and binary string forms give NaN in the model.
- IntentRecognize.ExtractJsonObject takes the content as a string, because its only caller passes a string after a `typeof` check. `String(text ?? '')` on other values is not modelled.
- The request the recogniser sends is not modelled: system prompt, tool description, and the `text`/`userId` payload with its `JSON.stringify`. Only the two ways building it can throw are modelled: `messages.map` on a non-array, and a `null` history entry.
- The chat call in `sendMessage` is split into the part before `await` (`Send`) and the part after it (`Settle`).
  - React's asynchronous state updates and stale closures are not modelled.
  - Message ids are modelled as the clock reading they are made from.
  - A reply's text and the failure's three message fields are taken as strings, with the empty string standing for a missing field.
- ChatProxy.ChatCompletions: an upstream status is an integer or absent. Whether Express accepts the status it is given is not modelled.
- Concurrency is not modelled: `createOrder` checks stock and then inserts, and nothing decrements the stock. Operations run one at a time.
- Authentication is not modelled: JWT verification, the Redis token blacklist, the product routes and all UI rendering. They hold no decision logic beyond the cases above.
