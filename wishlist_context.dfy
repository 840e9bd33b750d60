/** The wishlist: an ordered list of saved products, at most one per id.
    `WishlistStore` holds the list and applies the provider's updaters. */
module WishlistContext {
  import opened Seqs
  import opened Catalog

  function ProductId(p: Product): int
  {
    p.id
  }

  /** `isInWishlist`: some saved product has the id. */
  predicate IsInWishlist(wishlist: seq<Product>, id: int)
  {
    exists i | 0 <= i < |wishlist| :: wishlist[i].id == id
  }

  /** The ids of the saved products. */
  ghost function SavedIds(wishlist: seq<Product>): set<int>
  {
    set i | 0 <= i < |wishlist| :: wishlist[i].id
  }

  /** `addToWishlist`: appends the product unless one with its id is saved. */
  function AddedToWishlist(wishlist: seq<Product>, product: Product): (r: seq<Product>)
    ensures IsInWishlist(wishlist, product.id) ==> r == wishlist
    ensures !IsInWishlist(wishlist, product.id) ==> r == wishlist + [product]
    ensures DistinctBy(wishlist, ProductId) ==> DistinctBy(r, ProductId)
  {
    if Find(wishlist, (item: Product) => item.id == product.id).Some? then wishlist
    else wishlist + [product]
  }

  /** `removeFromWishlist`: drops the products with the id. */
  function RemovedFromWishlist(wishlist: seq<Product>, id: int): (r: seq<Product>)
    ensures IsSubseq(r, wishlist)
    ensures forall x: Product :: multiset(r)[x] == if x.id != id then multiset(wishlist)[x] else 0
    ensures DistinctBy(wishlist, ProductId) ==> DistinctBy(r, ProductId)
  {
    var r := Filter(wishlist, (item: Product) => item.id != id);
    FilterIsSubseq(wishlist, (item: Product) => item.id != id);
    assert DistinctBy(wishlist, ProductId) ==> DistinctBy(r, ProductId) by {
      if DistinctBy(wishlist, ProductId) {
        FilterKeepsDistinct(wishlist, ProductId, (item: Product) => item.id != id);
      }
    }
    r
  }

  /** `toggleWishlist`: removes a saved product, saves an unsaved one. */
  function Toggled(wishlist: seq<Product>, product: Product): (r: seq<Product>)
    ensures IsInWishlist(wishlist, product.id) ==> r == RemovedFromWishlist(wishlist, product.id)
    ensures !IsInWishlist(wishlist, product.id) ==> r == AddedToWishlist(wishlist, product)
  {
    if Find(wishlist, (item: Product) => item.id == product.id).Some? then RemovedFromWishlist(wishlist, product.id)
    else AddedToWishlist(wishlist, product)
  }

  /** Removing an id that is not saved leaves the list as it is. */
  lemma RemoveAbsentLeavesWishlist(wishlist: seq<Product>, id: int)
    requires !IsInWishlist(wishlist, id)
    ensures RemovedFromWishlist(wishlist, id) == wishlist
  {
    FilterKeepsAll(wishlist, (item: Product) => item.id != id);
  }

  /** After adding, the product's id is saved; other ids keep their status. */
  lemma AddedMembership(wishlist: seq<Product>, product: Product, id: int)
    ensures IsInWishlist(AddedToWishlist(wishlist, product), id) <==> id == product.id || IsInWishlist(wishlist, id)
  {
    var r := AddedToWishlist(wishlist, product);
    if id == product.id && !IsInWishlist(wishlist, id) {
      assert r[|wishlist|].id == id;
    }
    if IsInWishlist(wishlist, id) {
      var i :| 0 <= i < |wishlist| && wishlist[i].id == id;
      assert r[i] == wishlist[i];
    }
  }

  /** After removing, the id is not saved; other ids keep their status. */
  lemma RemovedMembership(wishlist: seq<Product>, removed: int, id: int)
    ensures IsInWishlist(RemovedFromWishlist(wishlist, removed), id) <==> id != removed && IsInWishlist(wishlist, id)
  {
    var r := RemovedFromWishlist(wishlist, removed);
    if IsInWishlist(r, id) {
      var i :| 0 <= i < |r| && r[i].id == id;
      assert multiset(r)[r[i]] > 0;
      assert r[i] in wishlist;
    }
    if id != removed && IsInWishlist(wishlist, id) {
      var i :| 0 <= i < |wishlist| && wishlist[i].id == id;
      assert multiset(r)[wishlist[i]] > 0;
      assert wishlist[i] in r;
    }
  }

  /** Toggling flips the product's status and keeps every other id's. */
  lemma ToggleFlips(wishlist: seq<Product>, product: Product, id: int)
    ensures IsInWishlist(Toggled(wishlist, product), id)
        <==> (if id == product.id then !IsInWishlist(wishlist, id) else IsInWishlist(wishlist, id))
  {
    if IsInWishlist(wishlist, product.id) {
      RemovedMembership(wishlist, product.id, id);
    } else {
      AddedMembership(wishlist, product, id);
    }
  }

  /** Toggling twice restores the status of every id. */
  lemma ToggleTwiceMembership(wishlist: seq<Product>, product: Product, id: int)
    ensures IsInWishlist(Toggled(Toggled(wishlist, product), product), id) <==> IsInWishlist(wishlist, id)
  {
    ToggleFlips(wishlist, product, id);
    ToggleFlips(Toggled(wishlist, product), product, id);
    ToggleFlips(wishlist, product, product.id);
  }

  /** Toggling an unsaved product twice restores the list exactly. */
  lemma ToggleTwiceRestoresAbsent(wishlist: seq<Product>, product: Product)
    requires !IsInWishlist(wishlist, product.id)
    ensures Toggled(Toggled(wishlist, product), product) == wishlist
  {
    var keep := (item: Product) => item.id != product.id;
    AddedMembership(wishlist, product, product.id);
    FilterDropsRejectedLast(wishlist, product, keep);
    FilterKeepsAll(wishlist, keep);
  }

  /** With distinct ids, the length is the number of saved ids. */
  lemma {:induction false} SavedIdsCount(wishlist: seq<Product>)
    requires DistinctBy(wishlist, ProductId)
    ensures |SavedIds(wishlist)| == |wishlist|
  {
    if wishlist != [] {
      var t := wishlist[1..];
      assert DistinctBy(t, ProductId) by {
        forall i, j | 0 <= i < j < |t| ensures t[i].id != t[j].id {
          assert t[i] == wishlist[i + 1] && t[j] == wishlist[j + 1];
        }
      }
      SavedIdsCount(t);
      assert SavedIds(wishlist) == {wishlist[0].id} + SavedIds(t) by {
        forall x | x in SavedIds(wishlist) ensures x in {wishlist[0].id} + SavedIds(t) {
          var i :| 0 <= i < |wishlist| && wishlist[i].id == x;
          if i > 0 {
            assert t[i - 1] == wishlist[i];
          }
        }
        forall x | x in SavedIds(t) ensures x in SavedIds(wishlist) {
          var i :| 0 <= i < |t| && t[i].id == x;
          assert wishlist[i + 1] == t[i];
        }
      }
      assert wishlist[0].id !in SavedIds(t) by {
        forall i | 0 <= i < |t| ensures t[i].id != wishlist[0].id {
          assert t[i] == wishlist[i + 1];
        }
      }
    }
  }

  /** The provider's state: the wishlist, as stored between sessions. */
  class WishlistStore {
    var wishlist: seq<Product>

    ghost predicate Valid()
      reads this
    {
      DistinctBy(wishlist, ProductId)
    }

    /** Starts from the stored wishlist. */
    constructor (stored: seq<Product>)
      ensures wishlist == stored
    {
      wishlist := stored;
    }

    method AddToWishlist(product: Product)
      modifies this
      ensures wishlist == AddedToWishlist(old(wishlist), product)
      ensures IsInWishlist(wishlist, product.id)
      ensures old(Valid()) ==> Valid()
    {
      AddedMembership(wishlist, product, product.id);
      wishlist := AddedToWishlist(wishlist, product);
    }

    method RemoveFromWishlist(id: int)
      modifies this
      ensures wishlist == RemovedFromWishlist(old(wishlist), id)
      ensures !IsInWishlist(wishlist, id)
      ensures old(Valid()) ==> Valid()
    {
      RemovedMembership(wishlist, id, id);
      wishlist := RemovedFromWishlist(wishlist, id);
    }

    /** Decides on the current list, then removes or adds. */
    method ToggleWishlist(product: Product)
      modifies this
      ensures wishlist == Toggled(old(wishlist), product)
      ensures IsInWishlist(wishlist, product.id) <==> !old(IsInWishlist(wishlist, product.id))
      ensures old(Valid()) ==> Valid()
    {
      var existing := Find(wishlist, (item: Product) => item.id == product.id);
      if existing.Some? {
        RemoveFromWishlist(product.id);
      } else {
        AddToWishlist(product);
      }
    }

    method ClearWishlist()
      modifies this
      ensures wishlist == []
    {
      wishlist := [];
    }

    /** `wishlistCount`: on a valid list, the number of distinct saved ids. */
    function WishlistCount(): (n: int)
      reads this
      ensures Valid() ==> n == |SavedIds(wishlist)|
    {
      assert Valid() ==> |wishlist| == |SavedIds(wishlist)| by {
        if Valid() {
          SavedIdsCount(wishlist);
        }
      }
      |wishlist|
    }
  }
}
