/** Clients of CartStore that walk through the cart's example scenarios
    using only the operations' contracts. */
module CartScenarios {
  import opened CartItems
  import opened CartProvider

  /** Empty cart; adding product 1, which the catalog returns, gives a
      one-item cart with amount 1 that a reload restores. */
  method AddToEmptyCart() {
    var store := new CartStore(None);
    var shoe := Product(1, "Shoe", 10.0, "shoe.png", 0);
    var outcome := store.AddProduct(1, Some(shoe), None);
    assert outcome == Success;
    assert store.cart == [shoe.(amount := 1)];
    assert store.persisted == Some(store.cart);
  }

  /** A cart holding product 1 with amount 2; asking for 5 while the stock
      holds 3 fails and leaves the cart at amount 2. */
  method UpdateBeyondStock() {
    var item := Product(1, "Shoe", 10.0, "shoe.png", 2);
    var store := new CartStore(Some([item]));
    assert FindIndex(store.cart, 1) == Some(0);
    var outcome := store.UpdateProductAmount(1, 5, Some(Stock(1, 3)));
    assert outcome == Failure(OutOfStock);
    assert store.cart == [item];
  }

  /** Adding a product already in the cart goes through the stock check
      with its amount plus one: with amount 3 and stock 3 it fails. */
  method AddExistingBeyondStock() {
    var item := Product(7, "Boot", 99.5, "boot.png", 3);
    var store := new CartStore(Some([item]));
    assert FindIndex(store.cart, 7) == Some(0);
    var outcome := store.AddProduct(7, None, Some(Stock(7, 3)));
    assert outcome == Failure(OutOfStock);
    assert store.cart == [item];
  }

  /** Removing an id that is not in the cart fails and changes nothing. */
  method RemoveAbsent() {
    var a := Product(1, "Shoe", 10.0, "shoe.png", 1);
    var b := Product(2, "Boot", 20.0, "boot.png", 2);
    var store := new CartStore(Some([a, b]));
    var outcome := store.RemoveProduct(9);
    assert outcome == Failure(RemoveFailed);
    assert store.cart == [a, b];
  }

  /** Removing an id that is in the cart keeps the others in order. */
  method RemovePresent() {
    var a := Product(1, "Shoe", 10.0, "shoe.png", 1);
    var b := Product(2, "Boot", 20.0, "boot.png", 2);
    var c := Product(3, "Sock", 5.0, "sock.png", 4);
    var store := new CartStore(Some([a, b, c]));
    assert store.cart[1].id == 2;
    var outcome := store.RemoveProduct(2);
    assert outcome == Success;
    WithoutSplice([a, b, c], 1, 2);
    assert store.cart == [a, c];
  }

  /** Amount -1 with stock 0 is accepted and stored. */
  method NegativeAmountStored() {
    var item := Product(1, "Shoe", 10.0, "shoe.png", 1);
    var store := new CartStore(Some([item]));
    assert store.cart[0].id == 1;
    var outcome := store.UpdateProductAmount(1, -1, Some(Stock(1, 0)));
    assert outcome == Success;
    assert store.cart[0].amount == -1;
  }
}
