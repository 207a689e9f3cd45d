/** The cart routes: listing the caller's cart, removing one of its items,
    and adding an item once its three required fields are present. The
    caller is the account id that JWT authentication put on the request. */
module CartRoutes {
  import opened Wrappers
  import opened Js
  import Seqs
  import opened Db
  import opened Http

  const ListedMessage: string := "查询购物车成功！"
  const DeniedMessage: string := "无权操作此购物车项目或项目不存在"
  const RemovedMessage: string := "商品已删除"
  const MissingFieldsMessage: string := "缺少必要参数: productId, amount 或 totalPrice"
  const AddedMessage: string := "加入购物车成功！"
  const AddFailedMessage: string := "服务器错误，添加购物车失败"

  /** GET `/cart`: the caller's cart items and no one else's, in table order. */
  method ListCart(db: Store, uid: int) returns (reply: Reply<seq<CartItem>>)
    ensures reply.status == 200 && reply.success && reply.message == ListedMessage && reply.data.Some?
    ensures forall i :: 0 <= i < |reply.data.value| ==>
      reply.data.value[i].accountId == uid && reply.data.value[i] in db.cart
    ensures forall i :: 0 <= i < |db.cart| && db.cart[i].accountId == uid ==>
      db.cart[i] in reply.data.value
    ensures Seqs.IsSubseq(reply.data.value, db.cart)
    ensures forall x :: multiset(reply.data.value)[x] == if x.accountId == uid then multiset(db.cart)[x] else 0
  {
    reply := Reply(200, true, ListedMessage, Some(OwnedBy(db.cart, uid)));
  }

  /** DELETE `/cart/:itemId`: refused with 403, changing nothing, unless the
      item exists and belongs to the caller; then exactly that item is
      removed. */
  method DeleteCartItem(db: Store, itemId: int, uid: int) returns (reply: Reply<()>)
    requires db.Valid()
    modifies db
    ensures db.Valid()
    ensures db.products == old(db.products) && db.accounts == old(db.accounts) && db.orders == old(db.orders)
    ensures db.nextOrderId == old(db.nextOrderId) && db.nextCartId == old(db.nextCartId)
    ensures Matching(old(db.cart), itemId, uid) == [] ==>
      reply == Reply(403, false, DeniedMessage, None) && db.cart == old(db.cart)
    ensures Matching(old(db.cart), itemId, uid) != [] ==>
      && reply == Reply(200, true, RemovedMessage, None)
      && exists k :: 0 <= k < |old(db.cart)| && old(db.cart)[k].id == itemId &&
           old(db.cart)[k].accountId == uid && db.cart == old(db.cart)[..k] + old(db.cart)[k + 1..]
  {
    if Matching(db.cart, itemId, uid) == [] {
      return Reply(403, false, DeniedMessage, None);
    }
    var k :| 0 <= k < |db.cart| && db.cart[k].id == itemId && db.cart[k].accountId == uid;
    assert IdOnlyAt(db.cart, k);
    WithoutIdRemovesOne(db.cart, k);
    ghost var before := db.cart;
    db.DeleteCartItems(itemId);
    assert db.cart == before[..k] + before[k + 1..];
    reply := Reply(200, true, RemovedMessage, None);
  }

  /** The check of POST `/cart/add`: each of the three fields is truthy. */
  predicate HasRequiredFields(body: Value) {
    Truthy(Get(body, "productId")) && Truthy(Get(body, "amount")) && Truthy(Get(body, "totalPrice"))
  }

  /** Only an object body carrying all three fields can pass, and an amount
      or total price of 0 is refused with the missing ones. */
  lemma RequiredFieldsMeans(body: Value)
    ensures HasRequiredFields(body) ==>
      body.Obj? && "productId" in body.fields && "amount" in body.fields && "totalPrice" in body.fields
    ensures Get(body, "amount") == Number(Fin(0.0)) || Get(body, "totalPrice") == Number(Fin(0.0)) ==>
      !HasRequiredFields(body)
  {
  }

  /** POST `/cart/add`: with a falsy `productId`, `amount` or `totalPrice` the
      request is refused with 400 and nothing is inserted; otherwise exactly
      one item of the caller, holding the three fields, is appended.
      Destructuring a `null` body ends in a 500. */
  method AddToCart(db: Store, body: Value, uid: int) returns (reply: Reply<()>)
    requires db.Valid()
    modifies db
    ensures db.Valid()
    ensures db.products == old(db.products) && db.accounts == old(db.accounts) && db.orders == old(db.orders)
    ensures db.nextOrderId == old(db.nextOrderId)
    ensures Nullish(body) ==>
      reply == Reply(500, false, AddFailedMessage, None) && db.cart == old(db.cart) && db.nextCartId == old(db.nextCartId)
    ensures !Nullish(body) && !HasRequiredFields(body) ==>
      reply == Reply(400, false, MissingFieldsMessage, None) && db.cart == old(db.cart) && db.nextCartId == old(db.nextCartId)
    ensures HasRequiredFields(body) ==>
      && reply == Reply(200, true, AddedMessage, None)
      && db.cart == old(db.cart) + [Owned(old(db.nextCartId), uid,
           CartFields(Get(body, "productId"), Get(body, "amount"), Get(body, "totalPrice")))]
  {
    if Nullish(body) {
      return Reply(500, false, AddFailedMessage, None);
    }
    if !HasRequiredFields(body) {
      return Reply(400, false, MissingFieldsMessage, None);
    }
    var _ := db.InsertCartItem(uid, CartFields(Get(body, "productId"), Get(body, "amount"), Get(body, "totalPrice")));
    reply := Reply(200, true, AddedMessage, None);
  }
}
