/** The values held by the shopping cart and the pure sequence operations
    that build each new cart value: `find`, the spread-append, `filter` and
    `map` of src/hooks/useCart.tsx. */
module CartItems {

  datatype Option<T> = None | Some(value: T)

  /** A product record, as the catalog returns it and as the cart holds it.
      `amount` is the quantity in the cart. */
  datatype Product = Product(id: int, title: string, price: real, image: string, amount: int)

  /** The stock service's answer for one product: how many units are available. */
  datatype Stock = Stock(id: int, amount: int)

  /** The cart is an ordered sequence of products, in insertion order. */
  type Cart = seq<Product>

  predicate HasId(cart: Cart, id: int) {
    exists i :: 0 <= i < |cart| && cart[i].id == id
  }

  /** The cart's intended invariant: at most one item per product id. */
  predicate UniqueIds(cart: Cart) {
    forall i, j :: 0 <= i < j < |cart| ==> cart[i].id != cart[j].id
  }

  /** `cart.find(product => product.id === id)`, giving the position of the
      first product with that id, or None when there is none. */
  function FindIndex(cart: Cart, id: int): (r: Option<nat>)
    ensures r.None? <==> !HasId(cart, id)
    ensures r.Some? ==> r.value < |cart| && cart[r.value].id == id
    ensures r.Some? ==> forall j :: 0 <= j < r.value ==> cart[j].id != id
  {
    if cart == [] then None
    else if cart[0].id == id then Some(0)
    else match FindIndex(cart[1..], id)
      case None =>
        assert forall i :: 1 <= i < |cart| ==> cart[i] == cart[1..][i - 1];
        None
      case Some(k) => Some(k + 1)
  }

  /** `cart.filter(product => product.id !== id)`: every product whose id
      differs, and nothing else. */
  function Without(cart: Cart, id: int): (r: Cart)
    ensures forall p :: p in r <==> p in cart && p.id != id
    ensures |r| <= |cart|
  {
    if cart == [] then []
    else if cart[0].id == id then Without(cart[1..], id)
    else [cart[0]] + Without(cart[1..], id)
  }

  /** Filtering keeps each product whose id differs exactly as often as
      the cart holds it. */
  lemma {:induction false} WithoutCounts(cart: Cart, id: int, p: Product)
    ensures multiset(Without(cart, id))[p] == if p.id == id then 0 else multiset(cart)[p]
  {
    if cart != [] {
      assert cart == [cart[0]] + cart[1..];
      WithoutCounts(cart[1..], id, p);
    }
  }

  /** `cart.map(...)` setting the amount of every product with that id: the
      same positions, the matching ones with the new amount, the others as
      they were. */
  function WithAmount(cart: Cart, id: int, amount: int): (r: Cart)
    ensures |r| == |cart|
    ensures forall i :: 0 <= i < |cart| ==>
      r[i] == if cart[i].id == id then cart[i].(amount := amount) else cart[i]
  {
    if cart == [] then []
    else [if cart[0].id == id then cart[0].(amount := amount) else cart[0]]
         + WithAmount(cart[1..], id, amount)
  }

  /** Filtering out an id that is not in the cart leaves the cart as it was. */
  lemma {:induction false} WithoutAbsent(cart: Cart, id: int)
    requires !HasId(cart, id)
    ensures Without(cart, id) == cart
  {
    if cart != [] {
      assert cart[0].id != id;
      assert !HasId(cart[1..], id) by {
        forall i | 0 <= i < |cart[1..]| ensures cart[1..][i].id != id {
          assert cart[1..][i] == cart[i + 1];
        }
      }
      WithoutAbsent(cart[1..], id);
      assert cart == [cart[0]] + cart[1..];
    }
  }

  /** Filtering a concatenation filters each part and keeps them in order;
      with WithoutAbsent this fixes the order of the filtered cart for any
      cart, repeated ids included. */
  lemma {:induction false} WithoutAppend(x: Cart, y: Cart, id: int)
    ensures Without(x + y, id) == Without(x, id) + Without(y, id)
  {
    if x == [] {
      assert x + y == y;
    } else {
      assert (x + y)[0] == x[0];
      assert (x + y)[1..] == x[1..] + y;
      WithoutAppend(x[1..], y, id);
    }
  }

  /** The tail of a cart with unique ids has unique ids. */
  lemma TailKeepsUnique(cart: Cart)
    requires UniqueIds(cart) && cart != []
    ensures UniqueIds(cart[1..])
  {
    forall i, j | 0 <= i < j < |cart[1..]| ensures cart[1..][i].id != cart[1..][j].id {
      assert cart[1..][i] == cart[i + 1] && cart[1..][j] == cart[j + 1];
    }
  }

  /** With unique ids, the id of the first product does not occur again. */
  lemma HeadIdNotInTail(cart: Cart)
    requires UniqueIds(cart) && cart != []
    ensures !HasId(cart[1..], cart[0].id)
  {
    forall i | 0 <= i < |cart[1..]| ensures cart[1..][i].id != cart[0].id {
      assert cart[1..][i] == cart[i + 1];
    }
  }

  /** With unique ids, removing the product at position k yields the cart
      without exactly that position, the rest in their original order. */
  lemma {:induction false} WithoutSplice(cart: Cart, k: nat, id: int)
    requires UniqueIds(cart)
    requires k < |cart| && cart[k].id == id
    ensures Without(cart, id) == cart[..k] + cart[k + 1..]
  {
    if k == 0 {
      HeadIdNotInTail(cart);
      WithoutAbsent(cart[1..], id);
    } else {
      assert cart[0].id != id && cart[1..][k - 1] == cart[k];
      TailKeepsUnique(cart);
      WithoutSplice(cart[1..], k - 1, id);
      ConsSplice(cart, k);
    }
  }

  /** Removing position k from a tail and putting the head back is removing
      position k + 1 from the whole sequence. */
  lemma ConsSplice(cart: Cart, k: nat)
    requires 0 < k < |cart|
    ensures [cart[0]] + (cart[1..][..k - 1] + cart[1..][k..]) == cart[..k] + cart[k + 1..]
  {
    assert cart[1..][..k - 1] == cart[1..k];
    assert cart[1..][k..] == cart[k + 1..];
    assert cart[..k] == [cart[0]] + cart[1..k];
  }

  /** Filtering keeps ids unique. */
  lemma {:induction false} WithoutKeepsUnique(cart: Cart, id: int)
    requires UniqueIds(cart)
    ensures UniqueIds(Without(cart, id))
  {
    if cart != [] {
      WithoutKeepsUnique(cart[1..], id);
      if cart[0].id != id {
        var rest := Without(cart[1..], id);
        forall j | 0 <= j < |rest| ensures rest[j].id != cart[0].id {
          assert rest[j] in cart[1..];
          var i :| 0 <= i < |cart[1..]| && cart[1..][i] == rest[j];
          assert cart[i + 1] == rest[j];
        }
      }
    }
  }

  /** With unique ids, changing the amount of the product at position k
      keeps the cart's length, order and every other product; only that
      product's amount becomes the new value. */
  lemma WithAmountSplice(cart: Cart, k: nat, amount: int)
    requires UniqueIds(cart)
    requires k < |cart|
    ensures WithAmount(cart, cart[k].id, amount)
            == cart[..k] + [cart[k].(amount := amount)] + cart[k + 1..]
  {
    var r := WithAmount(cart, cart[k].id, amount);
    var s := cart[..k] + [cart[k].(amount := amount)] + cart[k + 1..];
    assert |r| == |s|;
    forall i | 0 <= i < |r| ensures r[i] == s[i] {
      if i < k {
        assert s[i] == cart[i];
      } else if i > k {
        assert s[i] == cart[i];
      }
    }
  }

  /** Changing an amount never changes an id, so ids stay unique. */
  lemma WithAmountKeepsUnique(cart: Cart, id: int, amount: int)
    requires UniqueIds(cart)
    ensures UniqueIds(WithAmount(cart, id, amount))
  {
    var r := WithAmount(cart, id, amount);
    forall i, j | 0 <= i < j < |r| ensures r[i].id != r[j].id {
      assert r[i].id == cart[i].id && r[j].id == cart[j].id;
    }
  }

  /** Appending a product whose id is not yet in the cart keeps ids unique. */
  lemma AppendKeepsUnique(cart: Cart, p: Product)
    requires UniqueIds(cart) && !HasId(cart, p.id)
    ensures UniqueIds(cart + [p])
  {
    var r := cart + [p];
    forall i, j | 0 <= i < j < |r| ensures r[i].id != r[j].id {
      if j == |cart| {
        assert r[i] == cart[i];
      } else {
        assert r[i] == cart[i] && r[j] == cart[j];
      }
    }
  }
}
