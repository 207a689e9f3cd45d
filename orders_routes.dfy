/** The order routes: listing the caller's orders, cancelling one of them, and
    buying, which records an order exactly as the request describes it. The
    caller is the account id that JWT authentication put on the request. */
module OrderRoutes {
  import opened Wrappers
  import opened Js
  import Seqs
  import opened Db
  import opened Http

  const ListedMessage: string := "查询订单成功！"
  const DeniedMessage: string := "无权操作此订单或订单不存在"
  const CancelledMessage: string := "订单已取消"
  const BoughtMessage: string := "购买成功，生成订单数据"
  const ServerErrorMessage: string := "服务器内部错误"

  /** GET `/orders`: the caller's orders and no one else's, in table order. */
  method ListOrders(db: Store, uid: int) returns (reply: Reply<seq<Order>>)
    ensures reply.status == 200 && reply.success && reply.message == ListedMessage && reply.data.Some?
    ensures forall i :: 0 <= i < |reply.data.value| ==>
      reply.data.value[i].accountId == uid && reply.data.value[i] in db.orders
    ensures forall i :: 0 <= i < |db.orders| && db.orders[i].accountId == uid ==>
      db.orders[i] in reply.data.value
    ensures Seqs.IsSubseq(reply.data.value, db.orders)
    ensures forall x :: multiset(reply.data.value)[x] == if x.accountId == uid then multiset(db.orders)[x] else 0
  {
    reply := Reply(200, true, ListedMessage, Some(OwnedBy(db.orders, uid)));
  }

  /** DELETE `/orders/:orderId`: refused with 403, changing nothing, unless
      the order exists and belongs to the caller; then exactly that order is
      removed. */
  method DeleteOrder(db: Store, orderId: int, uid: int) returns (reply: Reply<()>)
    requires db.Valid()
    modifies db
    ensures db.Valid()
    ensures db.products == old(db.products) && db.accounts == old(db.accounts) && db.cart == old(db.cart)
    ensures db.nextOrderId == old(db.nextOrderId) && db.nextCartId == old(db.nextCartId)
    ensures Matching(old(db.orders), orderId, uid) == [] ==>
      reply == Reply(403, false, DeniedMessage, None) && db.orders == old(db.orders)
    ensures Matching(old(db.orders), orderId, uid) != [] ==>
      && reply == Reply(200, true, CancelledMessage, None)
      && exists k :: 0 <= k < |old(db.orders)| && old(db.orders)[k].id == orderId &&
           old(db.orders)[k].accountId == uid && db.orders == old(db.orders)[..k] + old(db.orders)[k + 1..]
  {
    if Matching(db.orders, orderId, uid) == [] {
      return Reply(403, false, DeniedMessage, None);
    }
    var k :| 0 <= k < |db.orders| && db.orders[k].id == orderId && db.orders[k].accountId == uid;
    assert IdOnlyAt(db.orders, k);
    WithoutIdRemovesOne(db.orders, k);
    ghost var before := db.orders;
    db.DeleteOrders(orderId);
    assert db.orders == before[..k] + before[k + 1..];
    reply := Reply(200, true, CancelledMessage, None);
  }

  /** Binding `undefined` to a placeholder of `pool.execute` makes the
      statement fail. */
  predicate BindsUndefined(body: Value) {
    Get(body, "productId").Undefined? || Get(body, "amount").Undefined? || Get(body, "price").Undefined?
  }

  /** For an object body the statement fails exactly when one of the three
      fields is missing or `undefined`; any other non-nullish body binds
      `undefined` for all three. */
  lemma BindsUndefinedMeans(body: Value)
    ensures body.Obj? ==> (BindsUndefined(body) <==>
      || "productId" !in body.fields || body.fields["productId"] == Undefined
      || "amount" !in body.fields || body.fields["amount"] == Undefined
      || "price" !in body.fields || body.fields["price"] == Undefined)
    ensures !Nullish(body) && !body.Obj? ==> BindsUndefined(body)
  {
  }

  /** POST `/buy` at clock reading `now`: the body's `productId`, `amount` and
      `price` are written unchecked into one new unfinished order of the
      caller, and its id is returned. Destructuring a `null` body, or a
      missing field (bound as `undefined`), ends in a 500 and no order. */
  method Buy(db: Store, body: Value, uid: int, now: int) returns (reply: Reply<int>)
    requires db.Valid()
    modifies db
    ensures db.Valid()
    ensures db.products == old(db.products) && db.accounts == old(db.accounts) && db.cart == old(db.cart)
    ensures db.nextCartId == old(db.nextCartId)
    ensures Nullish(body) || BindsUndefined(body) ==>
      && reply == Reply(500, false, ServerErrorMessage, None)
      && db.orders == old(db.orders) && db.nextOrderId == old(db.nextOrderId)
    ensures !Nullish(body) && !BindsUndefined(body) ==>
      && reply == Reply(200, true, BoughtMessage, Some(old(db.nextOrderId)))
      && db.orders == old(db.orders) + [Owned(old(db.nextOrderId), uid,
           OrderFields(now, Unfinished, Get(body, "productId"), Get(body, "amount"), Get(body, "price")))]
  {
    if Nullish(body) || BindsUndefined(body) {
      return Reply(500, false, ServerErrorMessage, None);
    }
    var fields := OrderFields(now, Unfinished, Get(body, "productId"), Get(body, "amount"), Get(body, "price"));
    var id := db.InsertOrder(uid, fields);
    reply := Reply(200, true, BoughtMessage, Some(id));
  }
}
