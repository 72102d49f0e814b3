/** The cart state of `CartProvider` (src/hooks/useCart.tsx:24-114): the
    in-memory cart, the browser-storage slot that mirrors it, and the three
    operations that change both. Remote answers (a product record, a stock
    record, or a failed request) are given to the operations as parameters;
    the notifications become a returned outcome. */
module CartProvider {
  import opened CartItems

  /** The failures the operations report, one per error message of the source. */
  datatype CartError =
    | AddFailed           // the product request failed
    | RemoveFailed        // no product with that id to remove
    | AmountChangeFailed  // no product with that id, or amount 0
    | OutOfStock          // more requested than the stock holds
    | StockRequestFailed  // the stock request failed

  datatype Outcome = Success | Failure(error: CartError)

  /** The cart a page load starts with: the stored cart if the slot holds
      one, otherwise the empty cart. */
  function Restore(slot: Option<Cart>): Cart {
    if slot.Some? then slot.value else []
  }

  /** The checks `updateProductAmount` makes before writing, in their order:
      the id must be in the cart and the amount must not be 0 (checked before
      the stock request), the stock request must succeed, and the stock must
      hold the requested amount. Only amount 0 is rejected, so a negative
      amount passes whenever the stock is at least that amount. */
  function UpdateCheck(cart: Cart, productId: int, amount: int, stock: Option<Stock>): (r: Outcome)
    ensures r.Success? <==>
      HasId(cart, productId) && amount != 0 && stock.Some? && amount <= stock.value.amount
    ensures !HasId(cart, productId) || amount == 0 ==> r == Failure(AmountChangeFailed)
    ensures HasId(cart, productId) && amount != 0 && stock.None?
            ==> r == Failure(StockRequestFailed)
    ensures HasId(cart, productId) && amount != 0 && stock.Some? && stock.value.amount < amount
            ==> r == Failure(OutOfStock)
  {
    if FindIndex(cart, productId).None? || amount == 0 then Failure(AmountChangeFailed)
    else if stock.None? then Failure(StockRequestFailed)
    else if stock.value.amount < amount then Failure(OutOfStock)
    else Success
  }

  /** A negative amount is accepted and stored as it is. */
  lemma NegativeAmountAccepted(cart: Cart, k: nat, amount: int, stock: Stock)
    requires k < |cart|
    requires amount < 0 && stock.amount >= amount
    ensures UpdateCheck(cart, cart[k].id, amount, Some(stock)) == Success
    ensures WithAmount(cart, cart[k].id, amount)[k].amount == amount
  {
  }

  class CartStore {
    /** The in-memory cart (`cart` state). */
    var cart: Cart
    /** The storage slot "@RocketShoes:cart"; None when nothing is stored. */
    var persisted: Option<Cart>

    /** Reloading from the slot gives back the in-memory cart. */
    ghost predicate Valid()
      reads this
    {
      Restore(persisted) == cart
    }

    /** The initial state: read the slot once, do not write it. */
    constructor (stored: Option<Cart>)
      ensures Valid()
      ensures cart == Restore(stored) && persisted == stored
    {
      cart := Restore(stored);
      persisted := stored;
    }

    /** `removeProduct`: fails when no product has that id; otherwise writes
        and keeps the cart without that product. */
    method RemoveProduct(productId: int) returns (outcome: Outcome)
      requires Valid()
      modifies this
      ensures Valid()
      ensures outcome == if HasId(old(cart), productId) then Success else Failure(RemoveFailed)
      ensures outcome.Success? ==> cart == Without(old(cart), productId) && persisted == Some(cart)
      ensures outcome.Failure? ==> cart == old(cart) && persisted == old(persisted)
      ensures UniqueIds(old(cart)) ==> UniqueIds(cart)
    {
      var found := FindIndex(cart, productId);
      if found.None? {
        return Failure(RemoveFailed);
      }
      var newCart := Without(cart, productId);
      if UniqueIds(cart) {
        WithoutKeepsUnique(cart, productId);
      }
      persisted := Some(newCart);
      cart := newCart;
      outcome := Success;
    }

    /** `updateProductAmount`: runs the checks of UpdateCheck; on success
        writes and keeps the cart with that product's amount replaced. */
    method UpdateProductAmount(productId: int, amount: int, stock: Option<Stock>)
      returns (outcome: Outcome)
      requires Valid()
      modifies this
      ensures Valid()
      ensures outcome == UpdateCheck(old(cart), productId, amount, stock)
      ensures outcome.Success? ==>
        cart == WithAmount(old(cart), productId, amount) && persisted == Some(cart)
      ensures outcome.Failure? ==> cart == old(cart) && persisted == old(persisted)
      ensures UniqueIds(old(cart)) ==> UniqueIds(cart)
    {
      var found := FindIndex(cart, productId);
      if found.None? || amount == 0 {
        return Failure(AmountChangeFailed);
      }
      if stock.None? {
        return Failure(StockRequestFailed);
      }
      if stock.value.amount < amount {
        return Failure(OutOfStock);
      }
      var newCart := WithAmount(cart, productId, amount);
      if UniqueIds(cart) {
        WithAmountKeepsUnique(cart, productId, amount);
      }
      persisted := Some(newCart);
      cart := newCart;
      outcome := Success;
    }

    /** `addProduct`: a product already in the cart is handed to
        UpdateProductAmount with its amount plus one; otherwise the fetched
        record is appended with amount 1, or the add fails when the product
        request failed. */
    method AddProduct(productId: int, fetched: Option<Product>, stock: Option<Stock>)
      returns (outcome: Outcome)
      requires Valid()
      modifies this
      ensures Valid()
      ensures HasId(old(cart), productId) ==>
        var n := old(cart)[FindIndex(old(cart), productId).value].amount;
        outcome == UpdateCheck(old(cart), productId, n + 1, stock) &&
        (outcome.Success? ==> cart == WithAmount(old(cart), productId, n + 1))
      ensures !HasId(old(cart), productId) ==>
        outcome == (if fetched.Some? then Success else Failure(AddFailed)) &&
        (outcome.Success? ==> cart == old(cart) + [fetched.value.(amount := 1)])
      ensures outcome.Success? ==> persisted == Some(cart)
      ensures outcome.Failure? ==> cart == old(cart) && persisted == old(persisted)
      ensures UniqueIds(old(cart)) && (fetched.Some? ==> fetched.value.id == productId)
              ==> UniqueIds(cart)
    {
      var found := FindIndex(cart, productId);
      if found.Some? {
        outcome := UpdateProductAmount(productId, cart[found.value].amount + 1, stock);
        return;
      }
      if fetched.None? {
        return Failure(AddFailed);
      }
      var newCart := cart + [fetched.value.(amount := 1)];
      if UniqueIds(cart) && fetched.value.id == productId {
        AppendKeepsUnique(cart, fetched.value.(amount := 1));
      }
      persisted := Some(newCart);
      cart := newCart;
      outcome := Success;
    }
  }
}
