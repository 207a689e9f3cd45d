/** The two tool executors the shopping assistant may invoke, `queryDb` and
    `createOrder`, over the in-memory store. A failure that the executors
    raise themselves carries an HTTP status code, as `makeError` attaches one;
    a statement the database refuses fails without one. */
module Tools {
  import opened Wrappers
  import opened Js
  import Seqs
  import opened Db

  /** The message of an executor's error: fixed text, or fixed text followed by
      a value rendered the way JavaScript's `+` renders it. */
  datatype Message = Text(text: string) | TextThen(prefix: string, value: Value)

  /** `makeError(message, statusCode)`, or a failure reported by the database. */
  datatype ToolError = Err(message: Message, code: int) | DbError

  /** What the executors read of their context: `ctx.userId`, absent when the
      caller is anonymous. */
  datatype Ctx = Ctx(userId: Option<int>)

  /** `!ctx?.userId` is false: there is a user id and it is not 0. */
  predicate SignedIn(ctx: Ctx) {
    ctx.userId.Some? && ctx.userId.value != 0
  }

  /** `ctx?.userId` as a JavaScript value. */
  function UserIdValue(ctx: Ctx): Value {
    if ctx.userId.Some? then Number(Fin(ctx.userId.value as real)) else Undefined
  }

  /** `!ctx?.userId` is false exactly when the caller is signed in. */
  lemma SignedInIsTruthyUserId(ctx: Ctx)
    ensures SignedIn(ctx) <==> Truthy(UserIdValue(ctx))
  {
  }

  /** The number of rows a query returns when the caller names none. */
  const DefaultLimit: real := 20.0

  /** The value `Math.max` and `Math.min` clamp: `limit ?? 20` as a number. */
  function RequestedLimit(limit: Value): (r: Num)
    ensures Nullish(limit) ==> r == Fin(DefaultLimit)
    ensures limit.Number? ==> r == limit.n
    ensures limit.Str? ==> r == StringToNumber(limit.s)
  {
    ToNumber(Coalesce(limit, Number(Fin(DefaultLimit))))
  }

  /** `clampLimit`: the requested count moved into [1, 50]; a request that is
      not a number stays NaN. */
  function ClampLimit(limit: Value): (r: Num)
    ensures r.NaN? <==> RequestedLimit(limit).NaN?
    ensures !r.NaN? ==> r.Fin? && 1.0 <= r.v <= 50.0
    ensures Nullish(limit) ==> r == Fin(DefaultLimit)
    ensures RequestedLimit(limit).Fin? ==>
      var x := RequestedLimit(limit).v;
      r == Fin(if x < 1.0 then 1.0 else if x > 50.0 then 50.0 else x)
    ensures RequestedLimit(limit) == Inf(true) ==> r == Fin(50.0)
    ensures RequestedLimit(limit) == Inf(false) ==> r == Fin(1.0)
  {
    Min(Max(RequestedLimit(limit), Fin(1.0)), Fin(50.0))
  }

  /** The row count `LIMIT ?` selects when bound to `n`; `None` when the
      database refuses the statement, because `n` is not a whole number. */
  function RowLimit(n: Num): (r: Option<nat>)
    ensures r.Some? <==> n.Fin? && n.v >= 0.0 && n.v == n.v.Floor as real
    ensures r.Some? ==> r.value as real == n.v
  {
    if n.Fin? && n.v >= 0.0 && n.v == n.v.Floor as real then Some(n.v.Floor) else None
  }

  /** The row count of a query whose `limit` field is `limit`: the clamped
      count, between 1 and 50, and 20 when no limit is given. The database
      refuses the statement when the request is not a number, or is a
      fraction between 1 and 50 (outside that range the clamp yields a whole
      bound). */
  function QueryLimit(limit: Value): (r: Option<nat>)
    ensures r.Some? ==> 1 <= r.value <= 50
    ensures Nullish(limit) ==> r == Some(20)
    ensures var x := RequestedLimit(limit);
      r.None? <==> x.NaN? || (x.Fin? && 1.0 <= x.v <= 50.0 && x.v != x.v.Floor as real)
    ensures var x := RequestedLimit(limit);
      x.Fin? && 1.0 <= x.v <= 50.0 && r.Some? ==> r.value as real == x.v
  {
    RowLimit(ClampLimit(limit))
  }

  /** The rows a successful `queryDb` returns, tagged with their resource. */
  datatype QueryResult =
    | ProductRows(products: seq<Product>)
    | UserRows(users: seq<Account>)
    | OrderRows(orders: seq<Order>)

  /** The sort keys of the products and orders queries. */
  function ProductId(p: Product): int { p.id }
  function OrderDate(o: Order): int { o.fields.date }

  /** The products query (`ORDER BY p.id DESC LIMIT n`): the `n` products
      with the largest ids, or all of them if there are fewer, newest first. */
  function LatestProducts(products: seq<Product>, n: nat): (r: seq<Product>)
    ensures |r| == if n < |products| then n else |products|
    ensures multiset(r) <= multiset(products)
    ensures Seqs.SortedDesc(r, ProductId)
    ensures forall p, q :: p in multiset(products) - multiset(r) && q in r ==> p.id <= q.id
  {
    Seqs.TopByDesc(products, ProductId, n)
  }

  /** The user query (`WHERE id = ? LIMIT 1`): the caller's own account row,
      if there is one, and no other. */
  function AccountRows(accounts: seq<Account>, uid: int): (r: seq<Account>)
    ensures |r| <= 1
    ensures forall i :: 0 <= i < |r| ==> r[i].id == uid && r[i] in accounts
    ensures r == [] <==> forall i :: 0 <= i < |accounts| ==> accounts[i].id != uid
  {
    var own := (a: Account) => a.id == uid;
    var f := Seqs.Filter(accounts, own);
    Seqs.FilterMembers(accounts, own);
    assert f != [] ==> f[0] in accounts && f[0].id == uid;
    Seqs.Take(f, 1)
  }

  /** The orders query (`WHERE o.account_id = ? ORDER BY o.date DESC LIMIT
      n`): only the caller's orders, the `n` most recent of them (all of them
      if there are fewer), newest first. */
  function LatestOrders(orders: seq<Order>, uid: int, n: nat): (r: seq<Order>)
    ensures var m := |OwnedBy(orders, uid)|; |r| == if n < m then n else m
    ensures forall o :: o in r ==> o in orders && o.accountId == uid
    ensures multiset(r) <= multiset(OwnedBy(orders, uid))
    ensures Seqs.SortedDesc(r, OrderDate)
    ensures forall o, q :: o in multiset(OwnedBy(orders, uid)) - multiset(r) && q in r ==>
      o.fields.date <= q.fields.date
  {
    var mine := OwnedBy(orders, uid);
    var r := Seqs.TopByDesc(mine, OrderDate, n);
    OwnedMembers(r, mine, orders, uid);
    r
  }

  /** Elements drawn from the caller's rows are the caller's rows. */
  lemma OwnedMembers(r: seq<Order>, mine: seq<Order>, orders: seq<Order>, uid: int)
    requires mine == OwnedBy(orders, uid) && multiset(r) <= multiset(mine)
    ensures forall o :: o in r ==> o in orders && o.accountId == uid
  {
    forall o | o in r ensures o in orders && o.accountId == uid {
      assert o in multiset(r);
      assert o in multiset(mine);
      var i :| 0 <= i < |mine| && mine[i] == o;
    }
  }

  /** `queryDb(input, ctx)` against the given tables. */
  function QueryDb(input: Value, ctx: Ctx, products: seq<Product>, accounts: seq<Account>,
                   orders: seq<Order>): (r: Result<QueryResult, ToolError>)
    ensures var res := Get(input, "resource");
      (r.Failure? && r.error.Err? && r.error.code == 401) <==>
      ((res == Str("user") || res == Str("orders")) && !SignedIn(ctx))
    ensures var res := Get(input, "resource");
      (r.Failure? && r.error.Err? && r.error.code == 400) <==>
      !(res == Str("products") || res == Str("user") || res == Str("orders"))
    ensures var res := Get(input, "resource");
      r == Failure(DbError) <==>
      ((res == Str("products") || (res == Str("orders") && SignedIn(ctx))) &&
       QueryLimit(Get(input, "limit")).None?)
    ensures r.Success? ==>
      (r.value.ProductRows? <==> Get(input, "resource") == Str("products")) &&
      (r.value.UserRows? <==> Get(input, "resource") == Str("user")) &&
      (r.value.OrderRows? <==> Get(input, "resource") == Str("orders"))
  {
    var res := Get(input, "resource");
    var limit := QueryLimit(Get(input, "limit"));
    if res == Str("products") then
      if limit.None? then Failure(DbError)
      else Success(ProductRows(LatestProducts(products, limit.value)))
    else if res == Str("user") then
      if !SignedIn(ctx) then Failure(Err(Text("需要登录后才能查询用户信息"), 401))
      else Success(UserRows(AccountRows(accounts, ctx.userId.value)))
    else if res == Str("orders") then
      if !SignedIn(ctx) then Failure(Err(Text("需要登录后才能查询订单"), 401))
      else if limit.None? then Failure(DbError)
      else Success(OrderRows(LatestOrders(orders, ctx.userId.value, limit.value)))
    else Failure(Err(TextThen("不支持的 resource: ", res), 400))
  }

  /** A products query needs no login and returns the latest products, up to
      the clamped limit, which lies in [1, 50]. Nothing else in the input (for
      instance a category), the caller and the other tables change the
      answer. */
  lemma ProductQuery(input: Value, ctx: Ctx, products: seq<Product>, accounts: seq<Account>,
                     orders: seq<Order>)
    requires Get(input, "resource") == Str("products")
    requires QueryLimit(Get(input, "limit")).Some?
    ensures var n := QueryLimit(Get(input, "limit")).value;
      && 1 <= n <= 50
      && QueryDb(input, ctx, products, accounts, orders) == Success(ProductRows(LatestProducts(products, n)))
      && QueryDb(input, ctx, products, accounts, orders) ==
         QueryDb(Obj(map["resource" := Str("products"), "limit" := Get(input, "limit")]), Ctx(None), products, [], [])
  {
    var m: map<string, Value> := map["resource" := Str("products"), "limit" := Get(input, "limit")];
    assert Get(Obj(m), "resource") == Str("products");
    assert Get(Obj(m), "limit") == Get(input, "limit");
  }

  /** A signed-in caller's user query returns their own account row. */
  lemma UserQuery(input: Value, ctx: Ctx, products: seq<Product>, accounts: seq<Account>,
                  orders: seq<Order>)
    requires Get(input, "resource") == Str("user") && SignedIn(ctx)
    ensures QueryDb(input, ctx, products, accounts, orders) == Success(UserRows(AccountRows(accounts, ctx.userId.value)))
  {
  }

  /** A signed-in caller's orders query returns their latest orders, up to the
      clamped limit, which lies in [1, 50]. */
  lemma OrderQuery(input: Value, ctx: Ctx, products: seq<Product>, accounts: seq<Account>,
                   orders: seq<Order>)
    requires Get(input, "resource") == Str("orders") && SignedIn(ctx)
    requires QueryLimit(Get(input, "limit")).Some?
    ensures var n := QueryLimit(Get(input, "limit")).value;
      && 1 <= n <= 50
      && QueryDb(input, ctx, products, accounts, orders) ==
         Success(OrderRows(LatestOrders(orders, ctx.userId.value, n)))
  {
  }

  /** The order `createOrder` writes once every check has passed. */
  datatype NewOrder = NewOrder(accountId: int, productId: real, amount: real, price: real)

  /** The index of the first product whose id equals `id` (`WHERE id = ?
      LIMIT 1`), or the number of products when none does. */
  function ProductIndex(products: seq<Product>, id: real): (k: nat)
    ensures k <= |products|
    ensures k < |products| ==> products[k].id as real == id
    ensures forall j :: 0 <= j < k ==> products[j].id as real != id
  {
    if products == [] then 0
    else if products[0].id as real == id then 0
    else 1 + ProductIndex(products[1..], id)
  }

  /** The checks of `createOrder`, in the order it runs them. */
  datatype Check = Auth | ProductIdValid | AmountValid | ProductExists | InStock | PriceValid

  const Checks: seq<Check> := [Auth, ProductIdValid, AmountValid, ProductExists, InStock, PriceValid]

  /** The total the order is written with: the given price when it is a
      finite number, otherwise the unit price times the amount. */
  function OrderPrice(given: Num, p: Product, amount: real): real {
    if IsFinite(given) then given.v else p.price * amount
  }

  /** Whether the numbers `createOrder` read pass check `c`, judged on its
      own. A check about the product passes vacuously when there is no
      product to judge. */
  predicate Passes(c: Check, ctx: Ctx, productId: Num, amount: Num, price: Num, products: seq<Product>) {
    var k := if productId.Fin? then ProductIndex(products, productId.v) else |products|;
    match c
    case Auth => SignedIn(ctx)
    case ProductIdValid => productId.Fin? && productId.v > 0.0
    case AmountValid => amount.Fin? && 0.0 < amount.v <= 99.0
    case ProductExists => k < |products|
    case InStock => !(k < |products| && amount.Fin?) || amount.v <= products[k].stock as real
    case PriceValid => !(k < |products| && amount.Fin?) || OrderPrice(price, products[k], amount.v) > 0.0
  }

  /** The error a failed check raises. */
  function CheckError(c: Check): ToolError {
    match c
    case Auth => Err(Text("需要登录后才能下单"), 401)
    case ProductIdValid => Err(Text("productId 不合法"), 400)
    case AmountValid => Err(Text("amount 不合法"), 400)
    case ProductExists => Err(Text("商品不存在"), 404)
    case InStock => Err(Text("库存不足"), 409)
    case PriceValid => Err(Text("price 不合法"), 400)
  }

  /** The validation of `createOrder` on `Number(input.productId)`,
      `Number(input.amount)` and `Number(input.price)`: the order to write,
      or the error of the first check that fails. */
  function Validate(ctx: Ctx, productId: Num, amount: Num, price: Num, products: seq<Product>)
    : (r: Result<NewOrder, ToolError>)
    ensures !SignedIn(ctx) ==> r == Failure(CheckError(Auth))
    ensures r.Failure? ==> r.error.Err? && r.error.code in {400, 401, 404, 409}
    ensures r.Success? ==> SignedIn(ctx) && r.value.accountId == ctx.userId.value
  {
    if !SignedIn(ctx) then Failure(CheckError(Auth))
    else if !IsFinite(productId) || productId.v <= 0.0 then Failure(CheckError(ProductIdValid))
    else if !IsFinite(amount) || amount.v <= 0.0 || amount.v > 99.0 then Failure(CheckError(AmountValid))
    else
      var k := ProductIndex(products, productId.v);
      if k == |products| then Failure(CheckError(ProductExists))
      else if (products[k].stock as real) < amount.v then Failure(CheckError(InStock))
      else
        var total := OrderPrice(price, products[k], amount.v);
        if total <= 0.0 then Failure(CheckError(PriceValid))
        else Success(NewOrder(ctx.userId.value, productId.v, amount.v, total))
  }

  /** The validation `createOrder` runs on its input. */
  function CheckOrder(input: Value, ctx: Ctx, products: seq<Product>): (r: Result<NewOrder, ToolError>)
    ensures !SignedIn(ctx) ==> r == Failure(CheckError(Auth))
    ensures r.Failure? ==> r.error.Err? && r.error.code in {400, 401, 404, 409}
    ensures r.Success? ==>
      && r.value.accountId == ctx.userId.value
      && ToNumber(Get(input, "productId")) == Fin(r.value.productId)
      && ToNumber(Get(input, "amount")) == Fin(r.value.amount)
  {
    var productId := ToNumber(Get(input, "productId"));
    var amount := ToNumber(Get(input, "amount"));
    var price := ToNumber(Get(input, "price"));
    var v := Validate(ctx, productId, amount, price, products);
    if v.Success? then AcceptedOrder(ctx, productId, amount, price, products); v else v
  }

  /** An accepted order is for a product that exists, with a positive
      productId, an amount in (0, 99] that the stock covers, and a positive
      price: the given price when that is a finite number, unit price times
      amount otherwise. */
  lemma AcceptedOrder(ctx: Ctx, productId: Num, amount: Num, price: Num, products: seq<Product>)
    requires Validate(ctx, productId, amount, price, products).Success?
    ensures var o := Validate(ctx, productId, amount, price, products).value;
      var k := ProductIndex(products, o.productId);
      && productId == Fin(o.productId) && o.productId > 0.0
      && amount == Fin(o.amount) && 0.0 < o.amount <= 99.0
      && k < |products| && products[k].id as real == o.productId
      && o.amount <= products[k].stock as real
      && o.price > 0.0 && o.price == OrderPrice(price, products[k], o.amount)
  {
  }

  /** What each check of `Checks`, in turn, asks of the numbers read. */
  lemma ChecksMean(ctx: Ctx, productId: Num, amount: Num, price: Num, products: seq<Product>)
    ensures Passes(Checks[0], ctx, productId, amount, price, products) == SignedIn(ctx)
    ensures Passes(Checks[1], ctx, productId, amount, price, products) == (productId.Fin? && productId.v > 0.0)
    ensures Passes(Checks[2], ctx, productId, amount, price, products) == (amount.Fin? && 0.0 < amount.v <= 99.0)
    ensures productId.Fin? ==> var k := ProductIndex(products, productId.v);
      && Passes(Checks[3], ctx, productId, amount, price, products) == (k < |products|)
      && (k < |products| && amount.Fin? ==>
          && Passes(Checks[4], ctx, productId, amount, price, products) == (amount.v <= products[k].stock as real)
          && Passes(Checks[5], ctx, productId, amount, price, products) ==
             (OrderPrice(price, products[k], amount.v) > 0.0))
  {
  }

  /** The checks run in sequence: an order is accepted exactly when it passes
      all of them, and a rejected one gets the error of the first check it
      fails. */
  lemma ValidateRunsChecksInOrder(ctx: Ctx, productId: Num, amount: Num, price: Num, products: seq<Product>)
    ensures Validate(ctx, productId, amount, price, products).Success? <==>
      forall i :: 0 <= i < |Checks| ==> Passes(Checks[i], ctx, productId, amount, price, products)
    ensures forall i :: 0 <= i < |Checks| ==>
      ((!Passes(Checks[i], ctx, productId, amount, price, products) &&
        forall j :: 0 <= j < i ==> Passes(Checks[j], ctx, productId, amount, price, products)) ==>
       Validate(ctx, productId, amount, price, products) == Failure(CheckError(Checks[i])))
  {
    ChecksMean(ctx, productId, amount, price, products);
    var p := map i | 0 <= i < |Checks| :: Passes(Checks[i], ctx, productId, amount, price, products);
    if p[0] && p[1] && p[2] {
      var k := ProductIndex(products, productId.v);
      if k < |products| {
        assert p[4] == (amount.v <= products[k].stock as real);
      }
    }
  }

  /** The row `createOrder` inserts for an accepted order at time `now`. */
  function OrderFieldsOf(o: NewOrder, now: int): (f: OrderFields)
    ensures f.status == Unfinished && f.date == now
  {
    OrderFields(now, Unfinished, Number(Fin(o.productId)), Number(Fin(o.amount)), Number(Fin(o.price)))
  }

  /** `createOrder(input, ctx)` at clock reading `now`: an accepted order is
      appended to `orders` and its new id returned; a rejected one changes
      nothing. The product's stock is never decremented. */
  method CreateOrder(db: Store, input: Value, ctx: Ctx, now: int) returns (r: Result<int, ToolError>)
    requires db.Valid()
    modifies db
    ensures db.Valid()
    ensures db.products == old(db.products) && db.accounts == old(db.accounts)
    ensures db.cart == old(db.cart) && db.nextCartId == old(db.nextCartId)
    ensures match CheckOrder(input, ctx, old(db.products))
      case Failure(e) =>
        r == Failure(e) && db.orders == old(db.orders) && db.nextOrderId == old(db.nextOrderId)
      case Success(o) =>
        && r == Success(old(db.nextOrderId))
        && db.orders == old(db.orders) + [Owned(old(db.nextOrderId), o.accountId, OrderFieldsOf(o, now))]
  {
    var checked := CheckOrder(input, ctx, db.products);
    if checked.Failure? {
      return Failure(checked.error);
    }
    var o := checked.value;
    var id := db.InsertOrder(o.accountId, OrderFieldsOf(o, now));
    return Success(id);
  }
}
