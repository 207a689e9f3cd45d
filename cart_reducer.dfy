/** The shopping cart's reducer: each action replaces one field of the cart
    state with its payload, and an action of any other type leaves the state
    as it is. */
module CartReducer {
  import opened Wrappers

  datatype CartItemView = CartItemView(id: string, name: string, amount: real, price: real,
                                       totalPrice: real, key: Option<string>)

  datatype CartState = CartState(cartItem: seq<CartItemView>, loading: bool, deleteLoading: bool,
                                 error: Option<string>)

  /** The four action types, and an action whose type is none of them. */
  datatype CartAction =
    | SetError(error: Option<string>)
    | SetLoading(loading: bool)
    | SetDeleteLoading(deleteLoading: bool)
    | SetCartItems(items: seq<CartItemView>)
    | Unrecognised(actionType: string)

  /** The state field an action writes, if any. */
  datatype Field = Items | Loading | DeleteLoading | Error

  function Writes(a: CartAction): Option<Field> {
    match a
    case SetError(_) => Some(Error)
    case SetLoading(_) => Some(Loading)
    case SetDeleteLoading(_) => Some(DeleteLoading)
    case SetCartItems(_) => Some(Items)
    case Unrecognised(_) => None
  }

  /** `cartReducer(state, action)` */
  function Reduce(s: CartState, a: CartAction): (r: CartState)
    ensures a.SetLoading? ==> r.loading == a.loading
    ensures a.SetDeleteLoading? ==> r.deleteLoading == a.deleteLoading
    ensures a.SetError? ==> r.error == a.error
    ensures a.SetCartItems? ==> r.cartItem == a.items
    ensures Writes(a) != Some(Items) ==> r.cartItem == s.cartItem
    ensures Writes(a) != Some(Loading) ==> r.loading == s.loading
    ensures Writes(a) != Some(DeleteLoading) ==> r.deleteLoading == s.deleteLoading
    ensures Writes(a) != Some(Error) ==> r.error == s.error
  {
    match a
    case SetLoading(b) => s.(loading := b)
    case SetDeleteLoading(b) => s.(deleteLoading := b)
    case SetError(e) => s.(error := e)
    case SetCartItems(items) => s.(cartItem := items)
    case Unrecognised(_) => s
  }

  /** An action of an unrecognised type returns the very same state. */
  lemma UnrecognisedKeepsState(s: CartState, t: string)
    ensures Reduce(s, Unrecognised(t)) == s
  {
  }

  /** Dispatching the same action twice is dispatching it once. */
  lemma ReduceIdempotent(s: CartState, a: CartAction)
    ensures Reduce(Reduce(s, a), a) == Reduce(s, a)
  {
  }

  /** Of two actions writing the same field, the later one wins. */
  lemma LaterWriteWins(s: CartState, a: CartAction, b: CartAction)
    requires Writes(a).Some? && Writes(a) == Writes(b)
    ensures Reduce(Reduce(s, a), b) == Reduce(s, b)
  {
  }

  /** Actions writing different fields can be dispatched in either order. */
  lemma DistinctWritesCommute(s: CartState, a: CartAction, b: CartAction)
    requires Writes(a) != Writes(b)
    ensures Reduce(Reduce(s, a), b) == Reduce(Reduce(s, b), a)
  {
  }
}
