/** The shopping cart: an ordered list of lines, one per product id, each
    with a quantity. The provider's updaters are pure functions of the
    previous cart; `CartLedger` holds the cart and applies them in place. */
module CartContext {
  import opened Seqs
  import opened Catalog
  import opened Helpers

  /** No two lines share a product id. */
  ghost predicate DistinctIds(cart: seq<CartItem>)
  {
    DistinctBy(cart, LineId)
  }

  function LineId(item: CartItem): int
  {
    item.product.id
  }

  ghost predicate PositiveQuantities(cart: seq<CartItem>)
  {
    forall i | 0 <= i < |cart| :: cart[i].quantity >= 1
  }

  /** The shape every updater keeps: one line per id, quantities at least 1. */
  ghost predicate ValidCart(cart: seq<CartItem>)
  {
    DistinctIds(cart) && PositiveQuantities(cart)
  }

  function HasId(id: int): CartItem -> bool
  {
    (item: CartItem) => item.product.id == id
  }

  /** `isInCart`: some line has the id. */
  predicate IsInCart(cart: seq<CartItem>, id: int)
  {
    exists i | 0 <= i < |cart| :: cart[i].product.id == id
  }

  /** `getItemQuantity`: the quantity of the first line with the id, or 0. */
  function GetItemQuantity(cart: seq<CartItem>, id: int): (q: int)
    ensures !IsInCart(cart, id) ==> q == 0
    ensures DistinctIds(cart) ==> forall i | 0 <= i < |cart| && cart[i].product.id == id :: q == cart[i].quantity
  {
    match Find(cart, HasId(id))
    case Some(item) => item.quantity
    case None => 0
  }

  /** The line with the id gets quantity `g(quantity)`; other lines are kept. */
  function Requantify(id: int, g: int -> int): CartItem -> CartItem
  {
    (item: CartItem) => if item.product.id == id then item.(quantity := g(item.quantity)) else item
  }

  function Succ(q: int): int { q + 1 }

  /** The new quantity `decreaseQuantity` gives: one less, unless that is 0. */
  function Pred(q: int): int { if q - 1 > 0 then q - 1 else q }

  /** `addToCart`: one more of a product already in the cart, or a new line
      with quantity 1 at the end. */
  function AddedToCart(cart: seq<CartItem>, product: Product): (r: seq<CartItem>)
    ensures IsInCart(cart, product.id) ==> r == Map(cart, Requantify(product.id, Succ))
    ensures !IsInCart(cart, product.id) ==> r == cart + [CartItem(product, 1)]
    ensures ValidCart(cart) ==> ValidCart(r)
  {
    if Find(cart, HasId(product.id)).Some? then
      var r := Map(cart, Requantify(product.id, Succ));
      assert ValidCart(cart) ==> ValidCart(r) by {
        if ValidCart(cart) {
          RequantifyKeepsValid(cart, product.id, Succ);
        }
      }
      r
    else
      cart + [CartItem(product, 1)]
  }

  /** Adding a product already in the cart keeps the length, adds one to its
      line and leaves every other line as it was. */
  lemma AddedToCartLines(cart: seq<CartItem>, product: Product)
    requires IsInCart(cart, product.id)
    ensures var r := AddedToCart(cart, product);
      && |r| == |cart|
      && forall i | 0 <= i < |cart| ::
           r[i] == if cart[i].product.id == product.id then cart[i].(quantity := cart[i].quantity + 1) else cart[i]
  {
    var r := AddedToCart(cart, product);
    forall i | 0 <= i < |cart|
      ensures r[i] == if cart[i].product.id == product.id then cart[i].(quantity := cart[i].quantity + 1) else cart[i]
    {
      var f := Requantify(product.id, Succ);
      assert r == Map(cart, f);
      assert r[i] == f(cart[i]);
      if cart[i].product.id == product.id {
        assert f(cart[i]) == cart[i].(quantity := Succ(cart[i].quantity));
      } else {
        assert f(cart[i]) == cart[i];
      }
    }
  }

  /** `removeFromCart`: drops the lines with the id. */
  function RemovedFromCart(cart: seq<CartItem>, id: int): (r: seq<CartItem>)
    ensures IsSubseq(r, cart)
    ensures forall i | 0 <= i < |r| :: r[i].product.id != id
    ensures forall x: CartItem :: x.product.id != id ==> multiset(r)[x] == multiset(cart)[x]
    ensures ValidCart(cart) ==> ValidCart(r)
  {
    var r := Filter(cart, (item: CartItem) => item.product.id != id);
    FilterIsSubseq(cart, (item: CartItem) => item.product.id != id);
    assert DistinctIds(cart) ==> DistinctIds(r) by {
      if DistinctIds(cart) {
        FilterKeepsDistinct(cart, LineId, (item: CartItem) => item.product.id != id);
      }
    }
    r
  }

  /** `updateQuantity`: a quantity below 1 removes the line; otherwise the
      line with the id gets that quantity. No line is ever added. */
  function WithQuantity(cart: seq<CartItem>, id: int, quantity: int): (r: seq<CartItem>)
    ensures quantity < 1 ==> r == RemovedFromCart(cart, id)
    ensures quantity >= 1 ==> |r| == |cart|
    ensures ValidCart(cart) ==> ValidCart(r)
  {
    if quantity < 1 then RemovedFromCart(cart, id)
    else
      assert ValidCart(cart) ==> ValidCart(Map(cart, Requantify(id, _ => quantity))) by {
        if ValidCart(cart) {
          RequantifyKeepsValid(cart, id, _ => quantity);
        }
      }
      Map(cart, Requantify(id, _ => quantity))
  }

  /** `increaseQuantity`. */
  function Increased(cart: seq<CartItem>, id: int): (r: seq<CartItem>)
    ensures |r| == |cart|
    ensures ValidCart(cart) ==> ValidCart(r)
  {
    assert ValidCart(cart) ==> ValidCart(Map(cart, Requantify(id, Succ))) by {
      if ValidCart(cart) {
        RequantifyKeepsValid(cart, id, Succ);
      }
    }
    Map(cart, Requantify(id, Succ))
  }

  /** `decreaseQuantity`: the line with the id loses one unless it would
      reach 0, then every line whose quantity is not positive is dropped. */
  function Decreased(cart: seq<CartItem>, id: int): (r: seq<CartItem>)
    ensures forall i | 0 <= i < |r| :: r[i].quantity > 0
    ensures PositiveQuantities(cart) ==> r == Map(cart, Requantify(id, Pred))
    ensures ValidCart(cart) ==> ValidCart(r)
  {
    var mapped := Map(cart, Requantify(id, Pred));
    var r := Filter(mapped, (item: CartItem) => item.quantity > 0);
    assert PositiveQuantities(cart) ==> r == mapped by {
      if PositiveQuantities(cart) {
        FilterKeepsAll(mapped, (item: CartItem) => item.quantity > 0);
      }
    }
    assert ValidCart(cart) ==> ValidCart(mapped) by {
      if ValidCart(cart) {
        RequantifyKeepsValid(cart, id, Pred);
      }
    }
    r
  }

  /** Requantifying rewrites the lines with the id in place, keeping their
      product records, and leaves every other line as it was. */
  lemma RequantifyLines(cart: seq<CartItem>, id: int, g: int -> int)
    ensures var r := Map(cart, Requantify(id, g));
      && |r| == |cart|
      && forall i | 0 <= i < |cart| ::
           r[i] == if cart[i].product.id == id then cart[i].(quantity := g(cart[i].quantity)) else cart[i]
  {
    var f := Requantify(id, g);
    var r := Map(cart, f);
    forall i | 0 <= i < |cart|
      ensures r[i] == if cart[i].product.id == id then cart[i].(quantity := g(cart[i].quantity)) else cart[i]
    {
      assert r[i] == f(cart[i]);
    }
  }

  /** `updateQuantity` with a quantity of at least 1 sets the lines with the
      id to it in place; every other line, and every line's product, is kept. */
  lemma WithQuantityLines(cart: seq<CartItem>, id: int, quantity: int)
    requires quantity >= 1
    ensures var r := WithQuantity(cart, id, quantity);
      && |r| == |cart|
      && forall i | 0 <= i < |cart| ::
           r[i] == if cart[i].product.id == id then cart[i].(quantity := quantity) else cart[i]
  {
    RequantifyLines(cart, id, _ => quantity);
  }

  /** `increaseQuantity` adds one to the lines with the id in place; every
      other line, and every line's product, is kept. */
  lemma IncreasedLines(cart: seq<CartItem>, id: int)
    ensures var r := Increased(cart, id);
      && |r| == |cart|
      && forall i | 0 <= i < |cart| ::
           r[i] == if cart[i].product.id == id then cart[i].(quantity := cart[i].quantity + 1) else cart[i]
  {
    RequantifyLines(cart, id, Succ);
  }

  /** On a cart with positive quantities, `decreaseQuantity` takes one off
      the lines with the id that hold more than 1, in place; every other line,
      and every line's product, is kept. */
  lemma DecreasedLines(cart: seq<CartItem>, id: int)
    requires PositiveQuantities(cart)
    ensures var r := Decreased(cart, id);
      && |r| == |cart|
      && forall i | 0 <= i < |cart| ::
           r[i] == if cart[i].product.id == id && cart[i].quantity > 1 then cart[i].(quantity := cart[i].quantity - 1) else cart[i]
  {
    RequantifyLines(cart, id, Pred);
  }

  /** With positive quantities, a product is in the cart exactly when its
      quantity is positive. */
  lemma InCartIffQuantity(cart: seq<CartItem>, id: int)
    requires PositiveQuantities(cart)
    ensures IsInCart(cart, id) <==> GetItemQuantity(cart, id) > 0
  {
    if IsInCart(cart, id) {
      var k := FindIndex(cart, HasId(id));
      assert k >= 0;
      assert cart[k].quantity >= 1;
    }
  }

  /** After requantifying the lines with `id`, the quantity of `id` is `g` of
      the old one; every other id keeps its quantity. */
  lemma QuantityAfterRequantify(cart: seq<CartItem>, id: int, g: int -> int, other: int)
    ensures GetItemQuantity(Map(cart, Requantify(id, g)), other)
         == if other == id && IsInCart(cart, id) then g(GetItemQuantity(cart, id)) else GetItemQuantity(cart, other)
  {
    FindAfterMap(cart, Requantify(id, g), HasId(other), HasId(other));
  }

  /** Adding a product raises its quantity by one and leaves every other
      quantity as it was. */
  lemma AddedToCartQuantity(cart: seq<CartItem>, product: Product, other: int)
    ensures GetItemQuantity(AddedToCart(cart, product), other)
         == if other == product.id then GetItemQuantity(cart, other) + 1 else GetItemQuantity(cart, other)
  {
    if IsInCart(cart, product.id) {
      QuantityAfterRequantify(cart, product.id, Succ, other);
    } else {
      FindIndexAppend(cart, CartItem(product, 1), HasId(other));
    }
  }

  /** Removing a product takes its quantity to 0 and keeps every other. */
  lemma RemovedFromCartQuantity(cart: seq<CartItem>, id: int, other: int)
    ensures GetItemQuantity(RemovedFromCart(cart, id), other) == if other == id then 0 else GetItemQuantity(cart, other)
  {
    var r := RemovedFromCart(cart, id);
    if other == id {
      assert !IsInCart(r, id);
    } else {
      FindAfterFilter(cart, (item: CartItem) => item.product.id != id, HasId(other));
    }
  }

  /** `updateQuantity` with a quantity of at least 1 sets that quantity on a
      line already in the cart and never adds a line. */
  lemma WithQuantityQuantity(cart: seq<CartItem>, id: int, quantity: int, other: int)
    requires quantity >= 1
    ensures GetItemQuantity(WithQuantity(cart, id, quantity), other)
         == if other == id && IsInCart(cart, id) then quantity else GetItemQuantity(cart, other)
  {
    QuantityAfterRequantify(cart, id, _ => quantity, other);
  }

  /** `increaseQuantity` adds one to a line already in the cart. */
  lemma IncreasedQuantity(cart: seq<CartItem>, id: int, other: int)
    ensures GetItemQuantity(Increased(cart, id), other)
         == if other == id && IsInCart(cart, id) then GetItemQuantity(cart, id) + 1 else GetItemQuantity(cart, other)
  {
    QuantityAfterRequantify(cart, id, Succ, other);
  }

  /** `decreaseQuantity` takes one off a line whose quantity is above 1; a
      line at quantity 1 stays in the cart unchanged. */
  lemma DecreasedQuantity(cart: seq<CartItem>, id: int, other: int)
    requires PositiveQuantities(cart)
    ensures GetItemQuantity(Decreased(cart, id), other)
         == if other == id && GetItemQuantity(cart, id) > 1 then GetItemQuantity(cart, id) - 1 else GetItemQuantity(cart, other)
  {
    QuantityAfterRequantify(cart, id, Pred, other);
    InCartIffQuantity(cart, id);
  }

  /** Removing, setting, increasing or decreasing an id that has no line
      leaves the cart as it is; in particular no line is inserted. */
  lemma {:induction false} AbsentIdLeavesCart(cart: seq<CartItem>, id: int, quantity: int)
    requires !IsInCart(cart, id)
    ensures RemovedFromCart(cart, id) == cart
    ensures WithQuantity(cart, id, quantity) == cart
    ensures Increased(cart, id) == cart
    ensures PositiveQuantities(cart) ==> Decreased(cart, id) == cart
  {
    FilterKeepsAll(cart, (item: CartItem) => item.product.id != id);
    forall g: int -> int ensures Map(cart, Requantify(id, g)) == cart {
      var r := Map(cart, Requantify(id, g));
      forall i | 0 <= i < |cart| ensures r[i] == cart[i] {
        assert r[i] == Requantify(id, g)(cart[i]);
      }
    }
  }

  /** At quantity 1, decreasing changes nothing at all. */
  lemma {:induction false} DecreaseAtOneKeepsCart(cart: seq<CartItem>, id: int)
    requires ValidCart(cart) && GetItemQuantity(cart, id) == 1
    ensures Decreased(cart, id) == cart
  {
    var r := Decreased(cart, id);
    assert r == Map(cart, Requantify(id, Pred));
    forall i | 0 <= i < |cart| ensures r[i] == cart[i] {
      assert r[i] == Requantify(id, Pred)(cart[i]);
      if cart[i].product.id == id {
        assert cart[i].quantity == 1;
      }
    }
  }

  /** Changing quantities in a way that keeps them at least 1 keeps the
      cart valid. */
  lemma RequantifyKeepsValid(cart: seq<CartItem>, id: int, g: int -> int)
    requires ValidCart(cart)
    requires forall q: int :: q >= 1 ==> g(q) >= 1
    ensures ValidCart(Map(cart, Requantify(id, g)))
  {
    var r := Map(cart, Requantify(id, g));
    assert forall i | 0 <= i < |cart| :: r[i].product == cart[i].product;
  }

  /** With positive quantities the number of units is at least the number
      of lines: `itemCount >= cartCount`. */
  lemma {:induction false} ItemCountAtLeastLines(cart: seq<CartItem>)
    requires PositiveQuantities(cart)
    ensures ItemCount(cart) >= |cart|
  {
    if cart != [] {
      ItemCountAtLeastLines(cart[1..]);
    }
  }

  /** The provider's state: the cart, as stored between sessions. */
  class CartLedger {
    var cart: seq<CartItem>

    ghost predicate Valid()
      reads this
    {
      ValidCart(cart)
    }

    /** Starts from the stored cart. */
    constructor (stored: seq<CartItem>)
      ensures cart == stored
    {
      cart := stored;
    }

    method AddToCart(product: Product)
      modifies this
      ensures cart == AddedToCart(old(cart), product)
      ensures GetItemQuantity(cart, product.id) == GetItemQuantity(old(cart), product.id) + 1
      ensures old(Valid()) ==> Valid()
    {
      AddedToCartQuantity(cart, product, product.id);
      cart := AddedToCart(cart, product);
    }

    method RemoveFromCart(id: int)
      modifies this
      ensures cart == RemovedFromCart(old(cart), id)
      ensures !IsInCart(cart, id)
      ensures old(Valid()) ==> Valid()
    {
      cart := RemovedFromCart(cart, id);
    }

    method UpdateQuantity(id: int, quantity: int)
      modifies this
      ensures cart == WithQuantity(old(cart), id, quantity)
      ensures old(Valid()) ==> Valid()
    {
      if quantity < 1 {
        RemoveFromCart(id);
        return;
      }
      cart := Map(cart, Requantify(id, _ => quantity));
    }

    method IncreaseQuantity(id: int)
      modifies this
      ensures cart == Increased(old(cart), id)
      ensures old(Valid()) ==> Valid()
    {
      cart := Increased(cart, id);
    }

    method DecreaseQuantity(id: int)
      modifies this
      ensures cart == Decreased(old(cart), id)
      ensures old(Valid()) ==> Valid()
    {
      cart := Decreased(cart, id);
    }

    method ClearCart()
      modifies this
      ensures cart == []
    {
      cart := [];
    }

    /** The totals the provider publishes next to the cart. */
    function Totals(): (r: CartTotals)
      reads this
      ensures r == CalculateCartTotal(cart)
      ensures Valid() ==> r.itemCount >= |cart|
      ensures r.total == r.subtotal + r.tax + r.shipping
    {
      var r := CalculateCartTotal(cart);
      assert ValidCart(cart) ==> r.itemCount >= |cart| by {
        if ValidCart(cart) {
          ItemCountAtLeastLines(cart);
        }
      }
      r
    }
  }
}
