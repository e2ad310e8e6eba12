/**
 * The cart service over its key-value store: one entry per user id,
 * holding the list of items added so far. Store failures are inputs.
 */
module Cart {
  import opened Wrappers
  import opened Messages
  import opened Frontend

  datatype Cart = Cart(userId: string, items: seq<CartItem>)

  /** A failure of the store: reading the entry, decoding it, or writing (setting or deleting) it. */
  datatype StoreError = FetchFailed | DecodeFailed | WriteFailed

  /** The items stored for a user; a user with no entry has none. */
  function ItemsOf(carts: map<string, seq<CartItem>>, userId: string): seq<CartItem>
  {
    if userId in carts then carts[userId] else []
  }

  /** The store after a successful AddItem: the item appended to the user's list. */
  function WithItem(carts: map<string, seq<CartItem>>, userId: string, item: CartItem)
    : (after: map<string, seq<CartItem>>)
    ensures userId in after
    ensures ItemsOf(after, userId) == ItemsOf(carts, userId) + [item]
    ensures forall u :: u != userId ==> ItemsOf(after, u) == ItemsOf(carts, u)
  {
    carts[userId := ItemsOf(carts, userId) + [item]]
  }

  /** The store after a successful EmptyCart: the user's entry deleted. */
  function Without(carts: map<string, seq<CartItem>>, userId: string): (after: map<string, seq<CartItem>>)
    ensures userId !in after
    ensures ItemsOf(after, userId) == []
    ensures forall u :: u != userId ==> ItemsOf(after, u) == ItemsOf(carts, u)
  {
    carts - {userId}
  }

  /** Which step of a store round trip fails, if any: AddItem reads, decodes an existing entry, then writes. */
  function AddItemFailure(carts: map<string, seq<CartItem>>, userId: string, fault: Option<StoreError>)
    : Option<StoreError>
  {
    match fault
    case None => None
    case Some(FetchFailed) => Some(FetchFailed)
    case Some(DecodeFailed) => if userId in carts then Some(DecodeFailed) else None
    case Some(WriteFailed) => Some(WriteFailed)
  }

  class CartService {
    var carts: map<string, seq<CartItem>>

    /** The service starts over whatever carts the store already holds. */
    constructor(stored: map<string, seq<CartItem>>)
      ensures carts == stored
    {
      carts := stored;
    }

    /** `AddItem`: read the user's list, append the item, write the list back; a failed step writes nothing. */
    method AddItem(userId: string, item: CartItem, fault: Option<StoreError>) returns (r: Result<(), StoreError>)
      modifies this
      ensures AddItemFailure(old(carts), userId, fault).None? ==>
        r == Ok(()) && carts == WithItem(old(carts), userId, item)
      ensures AddItemFailure(old(carts), userId, fault).Some? ==>
        r == Err(AddItemFailure(old(carts), userId, fault).value) && carts == old(carts)
    {
      if fault == Some(FetchFailed) {
        return Err(FetchFailed);
      }
      var cart: seq<CartItem>;
      if userId !in carts {
        cart := [];
      } else {
        if fault == Some(DecodeFailed) {
          return Err(DecodeFailed);
        }
        cart := carts[userId];
      }
      cart := cart + [item];
      if fault == Some(WriteFailed) {
        return Err(WriteFailed);
      }
      carts := carts[userId := cart];
      return Ok(());
    }

    /** `GetCart`: the user's stored list, or an empty one tagged with the requested id. */
    method GetCart(userId: string, fault: Option<StoreError>) returns (r: Result<Cart, StoreError>)
      ensures fault == Some(FetchFailed) ==> r == Err(FetchFailed)
      ensures fault == Some(DecodeFailed) && userId in carts ==> r == Err(DecodeFailed)
      ensures fault != Some(FetchFailed) && !(fault == Some(DecodeFailed) && userId in carts) ==>
        r == Ok(Cart(userId, ItemsOf(carts, userId)))
      ensures r.Ok? && userId !in carts ==> r.value.items == []
    {
      if fault == Some(FetchFailed) {
        return Err(FetchFailed);
      }
      if userId !in carts {
        return Ok(Cart(userId, []));
      }
      if fault == Some(DecodeFailed) {
        return Err(DecodeFailed);
      }
      return Ok(Cart(userId, carts[userId]));
    }

    /** `EmptyCart`: delete the user's entry. */
    method EmptyCart(userId: string, fault: Option<StoreError>) returns (r: Result<(), StoreError>)
      modifies this
      ensures fault == Some(WriteFailed) ==> r == Err(WriteFailed) && carts == old(carts)
      ensures fault != Some(WriteFailed) ==> r == Ok(()) && carts == Without(old(carts), userId)
    {
      if fault == Some(WriteFailed) {
        return Err(WriteFailed);
      }
      carts := carts - {userId};
      return Ok(());
    }
  }

  /** AddItem appends: the earlier items stay as they were, and a product already present gets a second entry. */
  lemma AddAppends(carts: map<string, seq<CartItem>>, userId: string, item: CartItem)
    ensures userId !in carts ==> ItemsOf(WithItem(carts, userId, item), userId) == [item]
    ensures var twice := WithItem(WithItem(carts, userId, item), userId, item);
      ItemsOf(twice, userId) == ItemsOf(carts, userId) + [item, item]
    ensures SumQuantities(ItemsOf(WithItem(carts, userId, item), userId))
            == SumQuantities(ItemsOf(carts, userId)) + item.quantity
  {
    var items := ItemsOf(carts, userId);
    assert (items + [item]) + [item] == items + [item, item];
    assert (items + [item])[..|items|] == items;
  }

  /** After EmptyCart the user's cart reads as empty. */
  lemma EmptiedReadsEmpty(carts: map<string, seq<CartItem>>, userId: string)
    ensures ItemsOf(Without(carts, userId), userId) == []
  {
  }

  /** Each operation touches only its own user's entry. */
  lemma OtherUsersUntouched(carts: map<string, seq<CartItem>>, userId: string, other: string, item: CartItem)
    requires other != userId
    ensures ItemsOf(WithItem(carts, userId, item), other) == ItemsOf(carts, other)
    ensures ItemsOf(Without(carts, userId), other) == ItemsOf(carts, other)
    ensures other in carts <==> other in WithItem(carts, userId, item)
    ensures other in carts <==> other in Without(carts, userId)
  {
  }
}
