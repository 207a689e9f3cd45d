/** The MySQL tables the core reads and writes through the shared connection
    pool, as in-memory sequences held by one store object. A table keeps its
    rows in insertion order; `orders` and `cart` rows carry an auto-increment
    id and the id of the account that owns them. */
module Db {
  import opened Wrappers
  import opened Js
  import Seqs

  /** A catalog row as the products query returns it: the product's columns
      (`category` is the `class` column)
      joined with the URL of its image, if it has one. */
  datatype Product = Product(id: int, name: string, price: real, stock: int, category: string, imgUrl: Option<string>)

  /** An `accounts` row (the columns the user query selects). */
  datatype Account = Account(id: int, name: string, avatarUrl: Option<string>)

  /** A row of a table whose rows belong to one account. */
  datatype Owned<T> = Owned(id: int, accountId: int, fields: T)

  /** The remaining `orders` columns, holding exactly what the inserting code
      bound to them; `date` is the clock reading at insertion. */
  datatype OrderFields = OrderFields(date: int, status: string, productId: Value, amount: Value, price: Value)

  /** The remaining `cart` columns, holding exactly what the inserting code
      bound to them. */
  datatype CartFields = CartFields(productId: Value, amount: Value, totalPrice: Value)

  type Order = Owned<OrderFields>
  type CartItem = Owned<CartFields>

  /** The status every new order starts with ("unfinished"). */
  const Unfinished: string := "未完成"

  predicate UniqueIds<T>(rows: seq<Owned<T>>) {
    forall i, j :: 0 <= i < j < |rows| ==> rows[i].id != rows[j].id
  }

  predicate IdsBelow<T>(rows: seq<Owned<T>>, next: int) {
    forall i :: 0 <= i < |rows| ==> rows[i].id < next
  }

  /** `SELECT ... WHERE account_id = uid`: the caller's rows, in table order. */
  function OwnedBy<T(==)>(rows: seq<Owned<T>>, uid: int): (r: seq<Owned<T>>)
    ensures forall i :: 0 <= i < |r| ==> r[i].accountId == uid && r[i] in rows
    ensures forall i :: 0 <= i < |rows| && rows[i].accountId == uid ==> rows[i] in r
    ensures Seqs.IsSubseq(r, rows)
    ensures forall i :: 0 <= i < |rows| ==>
      multiset(r)[rows[i]] == if rows[i].accountId == uid then multiset(rows)[rows[i]] else 0
  {
    var mine := (o: Owned<T>) => o.accountId == uid;
    Seqs.FilterCounts(rows, mine);
    Seqs.FilterIsSubseq(rows, mine);
    Seqs.FilterMembers(rows, mine);
    Seqs.Filter(rows, mine)
  }

  /** `SELECT id FROM ... WHERE id = ? AND account_id = ?`: the rows that match
      both the id and the owner. */
  function Matching<T(==)>(rows: seq<Owned<T>>, id: int, uid: int): (r: seq<Owned<T>>)
    ensures r == [] <==> forall i :: 0 <= i < |rows| ==> rows[i].id != id || rows[i].accountId != uid
  {
    var both := (o: Owned<T>) => o.id == id && o.accountId == uid;
    var r := Seqs.Filter(rows, both);
    Seqs.FilterMembers(rows, both);
    assert r != [] ==> r[0] in rows;
    r
  }

  /** `DELETE FROM ... WHERE id = ?`: every row except those with that id, in
      table order. */
  function WithoutId<T>(rows: seq<Owned<T>>, id: int): (r: seq<Owned<T>>)
    ensures |r| <= |rows|
    ensures forall i :: 0 <= i < |r| ==> r[i].id != id
  {
    if rows == [] then []
    else (if rows[0].id != id then [rows[0]] else []) + WithoutId(rows[1..], id)
  }

  /** Deleting keeps the remaining rows in order, and only deletes rows with
      the given id. */
  lemma {:induction false} WithoutIdIsSubseq<T>(rows: seq<Owned<T>>, id: int)
    ensures Seqs.IsSubseq(WithoutId(rows, id), rows)
    ensures forall i :: 0 <= i < |rows| && rows[i].id != id ==> rows[i] in WithoutId(rows, id)
  {
    if rows != [] {
      WithoutIdIsSubseq(rows[1..], id);
      var rest := WithoutId(rows[1..], id);
      var r := WithoutId(rows, id);
      if rows[0].id != id {
        assert r == [rows[0]] + rest && r[1..] == rest && r[0] == rows[0];
      } else {
        assert r == rest;
      }
      forall i | 0 <= i < |rows| && rows[i].id != id ensures rows[i] in r {
        if i > 0 { assert rows[i] == rows[1..][i - 1]; }
      }
    }
  }

  /** Every element of a subsequence is an element of the whole. */
  lemma {:induction false} SubseqMembers<T>(xs: seq<T>, ys: seq<T>)
    requires Seqs.IsSubseq(xs, ys)
    ensures forall i :: 0 <= i < |xs| ==> xs[i] in ys
    decreases |ys|
  {
    if xs == [] {
    } else if xs[0] == ys[0] && Seqs.IsSubseq(xs[1..], ys[1..]) {
      SubseqMembers(xs[1..], ys[1..]);
      forall i | 0 <= i < |xs| ensures xs[i] in ys {
        if i > 0 { assert xs[i] == xs[1..][i - 1]; }
      }
    } else {
      SubseqMembers(xs, ys[1..]);
    }
  }

  /** Deleting rows from a table with unique ids leaves its ids unique. */
  lemma {:induction false} SubseqUniqueIds<T>(xs: seq<Owned<T>>, ys: seq<Owned<T>>)
    requires Seqs.IsSubseq(xs, ys) && UniqueIds(ys)
    ensures UniqueIds(xs)
    decreases |ys|
  {
    if xs == [] {
    } else {
      assert UniqueIds(ys[1..]) by {
        forall i, j | 0 <= i < j < |ys| - 1 ensures ys[1..][i].id != ys[1..][j].id {
          assert ys[1..][i] == ys[i + 1] && ys[1..][j] == ys[j + 1];
        }
      }
      if xs[0] == ys[0] && Seqs.IsSubseq(xs[1..], ys[1..]) {
        SubseqUniqueIds(xs[1..], ys[1..]);
        SubseqMembers(xs[1..], ys[1..]);
        forall i, j | 0 <= i < j < |xs| ensures xs[i].id != xs[j].id {
          assert xs[j] == xs[1..][j - 1];
          if i > 0 {
            assert xs[i] == xs[1..][i - 1];
          } else {
            var m :| 0 <= m < |ys[1..]| && ys[1..][m] == xs[j];
            assert ys[m + 1] == xs[j];
          }
        }
      } else {
        SubseqUniqueIds(xs, ys[1..]);
      }
    }
  }

  /** Deleting by id distributes over concatenation. */
  lemma {:induction false} WithoutIdConcat<T>(a: seq<Owned<T>>, b: seq<Owned<T>>, id: int)
    ensures WithoutId(a + b, id) == WithoutId(a, id) + WithoutId(b, id)
  {
    if a != [] {
      assert (a + b)[1..] == a[1..] + b;
      WithoutIdConcat(a[1..], b, id);
    } else {
      assert a + b == b;
    }
  }

  /** No row other than row `k` has row `k`'s id. */
  ghost predicate IdOnlyAt<T>(rows: seq<Owned<T>>, k: nat)
    requires k < |rows|
  {
    forall i :: 0 <= i < |rows| && i != k ==> rows[i].id != rows[k].id
  }

  lemma BeforeKept<T>(rows: seq<Owned<T>>, k: nat)
    requires k < |rows| && IdOnlyAt(rows, k)
    ensures WithoutId(rows[..k], rows[k].id) == rows[..k]
  {
    var before := rows[..k];
    forall i | 0 <= i < |before| ensures before[i].id != rows[k].id {
      assert before[i] == rows[i];
    }
    WithoutIdKeepsAll(before, rows[k].id);
  }

  lemma AfterKept<T>(rows: seq<Owned<T>>, k: nat)
    requires k < |rows| && IdOnlyAt(rows, k)
    ensures WithoutId(rows[k + 1..], rows[k].id) == rows[k + 1..]
  {
    var after := rows[k + 1..];
    forall i | 0 <= i < |after| ensures after[i].id != rows[k].id {
      assert after[i] == rows[k + 1 + i];
    }
    WithoutIdKeepsAll(after, rows[k].id);
  }

  /** When no other row shares row `k`'s id (as in a table with unique ids),
      deleting by that id removes row `k` and no other. */
  lemma WithoutIdRemovesOne<T>(rows: seq<Owned<T>>, k: nat)
    requires k < |rows| && IdOnlyAt(rows, k)
    ensures WithoutId(rows, rows[k].id) == rows[..k] + rows[k + 1..]
  {
    var id := rows[k].id;
    var before, after := rows[..k], rows[k + 1..];
    var w := before + ([rows[k]] + after);
    assert w == rows;
    WithoutIdConcat(before, [rows[k]] + after, id);
    WithoutIdConcat([rows[k]], after, id);
    assert WithoutId([rows[k]], id) == [];
    BeforeKept(rows, k);
    AfterKept(rows, k);
    assert WithoutId(w, id) == before + ([] + after);
    assert [] + after == after;
  }

  /** Deleting an id that no row has changes nothing. */
  lemma {:induction false} WithoutIdKeepsAll<T>(rows: seq<Owned<T>>, id: int)
    requires forall i :: 0 <= i < |rows| ==> rows[i].id != id
    ensures WithoutId(rows, id) == rows
  {
    if rows != [] {
      WithoutIdKeepsAll(rows[1..], id);
      assert rows == [rows[0]] + rows[1..];
    }
  }

  /** The store: the products, accounts, orders and cart tables, and the next
      auto-increment value of the two tables the core inserts into. */
  class Store {
    var products: seq<Product>
    var accounts: seq<Account>
    var orders: seq<Order>
    var cart: seq<CartItem>
    var nextOrderId: int
    var nextCartId: int

    /** Primary keys: ids are unique, and every id is below the next
        auto-increment value. */
    ghost predicate Valid()
      reads this
    {
      UniqueIds(orders) && IdsBelow(orders, nextOrderId) &&
      UniqueIds(cart) && IdsBelow(cart, nextCartId)
    }

    constructor (products: seq<Product>, accounts: seq<Account>)
      ensures Valid()
      ensures this.products == products && this.accounts == accounts
      ensures orders == [] && cart == [] && nextOrderId == 1 && nextCartId == 1
    {
      this.products := products;
      this.accounts := accounts;
      orders := [];
      cart := [];
      nextOrderId := 1;
      nextCartId := 1;
    }

    /** `INSERT INTO orders(...)`: appends one row under the next
        auto-increment id and returns that id (`insertId`). */
    method InsertOrder(accountId: int, fields: OrderFields) returns (id: int)
      requires Valid()
      modifies this
      ensures Valid()
      ensures id == old(nextOrderId) && nextOrderId == id + 1
      ensures forall i :: 0 <= i < |old(orders)| ==> old(orders)[i].id != id
      ensures orders == old(orders) + [Owned(id, accountId, fields)]
      ensures products == old(products) && accounts == old(accounts)
      ensures cart == old(cart) && nextCartId == old(nextCartId)
    {
      id := nextOrderId;
      orders := orders + [Owned(id, accountId, fields)];
      nextOrderId := nextOrderId + 1;
    }

    /** `DELETE FROM orders WHERE id = ?` */
    method DeleteOrders(id: int)
      requires Valid()
      modifies this
      ensures Valid()
      ensures orders == WithoutId(old(orders), id)
      ensures products == old(products) && accounts == old(accounts)
      ensures cart == old(cart) && nextOrderId == old(nextOrderId) && nextCartId == old(nextCartId)
    {
      WithoutIdIsSubseq(orders, id);
      SubseqMembers(WithoutId(orders, id), orders);
      SubseqUniqueIds(WithoutId(orders, id), orders);
      orders := WithoutId(orders, id);
    }

    /** `INSERT INTO cart(...)`: appends one row under the next auto-increment
        id. */
    method InsertCartItem(accountId: int, fields: CartFields) returns (id: int)
      requires Valid()
      modifies this
      ensures Valid()
      ensures id == old(nextCartId) && nextCartId == id + 1
      ensures forall i :: 0 <= i < |old(cart)| ==> old(cart)[i].id != id
      ensures cart == old(cart) + [Owned(id, accountId, fields)]
      ensures products == old(products) && accounts == old(accounts)
      ensures orders == old(orders) && nextOrderId == old(nextOrderId)
    {
      id := nextCartId;
      cart := cart + [Owned(id, accountId, fields)];
      nextCartId := nextCartId + 1;
    }

    /** `DELETE FROM cart WHERE id = ?` */
    method DeleteCartItems(id: int)
      requires Valid()
      modifies this
      ensures Valid()
      ensures cart == WithoutId(old(cart), id)
      ensures products == old(products) && accounts == old(accounts)
      ensures orders == old(orders) && nextOrderId == old(nextOrderId) && nextCartId == old(nextCartId)
    {
      WithoutIdIsSubseq(cart, id);
      SubseqMembers(WithoutId(cart, id), cart);
      SubseqUniqueIds(WithoutId(cart, id), cart);
      cart := WithoutId(cart, id);
    }
  }
}
