/** The wishlist engine of src/context/wishlist-context.tsx: the set of product ids the
    signed-in user has saved, flipped optimistically by `toggle` and mirrored by one
    delete or insert on the `wishlist` table. There is no anonymous wishlist. */
module Wishlist {
  import opened Common

  /** A row of `select('product_id')`. */
  datatype WishlistRow = WishlistRow(productId: ProductId)

  /** What awaiting the wishlist query gives: the data it answered with (`None` for
      null), or an exception, which is caught and logged. */
  datatype FetchResult = Answered(data: Option<seq<WishlistRow>>) | Threw

  /** The one remote call `toggle` issues. */
  datatype WishlistOp =
    | InsertRow(user: UserId, product: ProductId)   // insert { user_id, product_id }
    | DeleteRow(user: UserId, product: ProductId)   // delete where user_id and product_id match

  /** The `wishlist` table reduced to its (user, product) pairs. */
  type WishlistTable = set<(UserId, ProductId)>

  /** The set of product ids the fetched rows carry; a repeated id collapses into one. */
  function IdsOf(rows: seq<WishlistRow>): (r: set<ProductId>)
    ensures |r| <= |rows|
  {
    if rows == [] then {} else {rows[0].productId} + IdsOf(rows[1..])
  }

  /** An id is in the fetched set exactly when some row carries it. */
  lemma {:induction false} IdsOfMembers(rows: seq<WishlistRow>, q: ProductId)
    ensures q in IdsOf(rows) <==> exists i :: 0 <= i < |rows| && rows[i].productId == q
  {
    if rows != [] {
      IdsOfMembers(rows[1..], q);
      if exists i :: 0 <= i < |rows| && rows[i].productId == q {
        var i :| 0 <= i < |rows| && rows[i].productId == q;
        if i > 0 {
          assert rows[1..][i - 1].productId == q;
        }
      }
      if exists i :: 0 <= i < |rows[1..]| && rows[1..][i].productId == q {
        var i :| 0 <= i < |rows[1..]| && rows[1..][i].productId == q;
        assert rows[i + 1].productId == q;
      }
    }
  }

  /** The set after `toggle(p)`: a copy with `p` deleted if it was there, added if not. */
  function Flip(ids: set<ProductId>, p: ProductId): (r: set<ProductId>)
    ensures p in r <==> p !in ids
    ensures forall q :: q != p ==> (q in r <==> q in ids)
  {
    if p in ids then ids - {p} else ids + {p}
  }

  /** The call `toggle(p)` sends, chosen by membership before the flip. */
  function ToggleOp(u: UserId, ids: set<ProductId>, p: ProductId): (op: WishlistOp)
    ensures op.user == u && op.product == p
    ensures op.DeleteRow? <==> p in ids
  {
    if p in ids then DeleteRow(u, p) else InsertRow(u, p)
  }

  /** The ids the table holds for user `u`. */
  function Owned(t: WishlistTable, u: UserId): set<ProductId>
  {
    set e | e in t && e.0 == u :: e.1
  }

  /** The effect of one call once it lands. */
  function ApplyWishlistOp(t: WishlistTable, op: WishlistOp): WishlistTable
  {
    match op
    case InsertRow(u, p) => t + {(u, p)}
    case DeleteRow(u, p) => t - {(u, p)}
  }

  /** Two consecutive `toggle(p)` calls give back the original set. */
  lemma FlipTwice(ids: set<ProductId>, p: ProductId)
    ensures Flip(Flip(ids, p), p) == ids
  {
  }

  /** If the table held the user's set before a toggle, the call the toggle sends makes it
      hold the flipped set, and no other user's ids change. */
  lemma ToggleMirrors(t: WishlistTable, u: UserId, ids: set<ProductId>, p: ProductId)
    requires Owned(t, u) == ids
    ensures Owned(ApplyWishlistOp(t, ToggleOp(u, ids, p)), u) == Flip(ids, p)
    ensures forall v :: v != u ==> Owned(ApplyWishlistOp(t, ToggleOp(u, ids, p)), v) == Owned(t, v)
  {
    var t' := ApplyWishlistOp(t, ToggleOp(u, ids, p));
    forall q ensures q in Owned(t', u) <==> q in Flip(ids, p) {
      assert q in Owned(t', u) <==> (u, q) in t';
      assert q in Owned(t, u) <==> (u, q) in t;
    }
    forall v, q | v != u ensures q in Owned(t', v) <==> q in Owned(t, v) {
      assert q in Owned(t', v) <==> (v, q) in t';
      assert q in Owned(t, v) <==> (v, q) in t;
    }
  }

  class WishlistEngine {
    var user: Option<UserId>
    var productIds: set<ProductId>
    var loading: bool
    var remoteLog: seq<WishlistOp>

    /** There is no anonymous wishlist: without a user the set is empty. */
    ghost predicate Valid()
      reads this
    {
      user.None? ==> productIds == {}
    }

    /** `WishlistProvider` on mount, before any identity is known. */
    constructor ()
      ensures Valid()
      ensures user == None && productIds == {} && !loading && remoteLog == []
    {
      user := None;
      productIds := {};
      loading := false;
      remoteLog := [];
    }

    /** `isInWishlist`: whether the product is among the saved ids; never, without a user. */
    predicate IsInWishlist(p: ProductId): (r: bool)
      reads this
      ensures Valid() && user.None? ==> !r
    {
      p in productIds
    }

    /** The part of `fetchWishlist` before its await: with no user the set is emptied and
        nothing else happens; with a user the loading flag goes up. */
    method BeginFetch()
      modifies this`productIds, this`loading
      ensures Valid()
      ensures user.None? ==> productIds == {} && loading == old(loading)
      ensures user.Some? ==> productIds == old(productIds) && loading
    {
      if user.None? {
        productIds := {};
        return;
      }
      loading := true;
    }

    /** The rest of `fetchWishlist`: the answer replaces the set wholesale (null data gives
        the empty set), an exception leaves it as it was, and the flag comes down either way. */
    method CompleteFetch(result: FetchResult)
      requires Valid()
      modifies this`productIds, this`loading
      ensures Valid()
      ensures user.None? ==> productIds == old(productIds) && loading == old(loading)
      ensures user.Some? ==> !loading
      ensures user.Some? && result.Answered? ==>
        productIds == IdsOf(if result.data.Some? then result.data.value else [])
      ensures user.Some? && result.Threw? ==> productIds == old(productIds)
    {
      if user.None? {
        return;
      }
      if result.Answered? {
        productIds := IdsOf(if result.data.Some? then result.data.value else []);
      }
      loading := false;
    }

    /** The identity becomes the user `u`: the wishlist is fetched again. */
    method SignIn(u: UserId, result: FetchResult)
      requires Valid()
      modifies this
      ensures Valid()
      ensures user == Some(u) && !loading && remoteLog == old(remoteLog)
      ensures result.Answered? ==> productIds == IdsOf(if result.data.Some? then result.data.value else [])
      ensures result.Threw? ==> productIds == old(productIds)
    {
      user := Some(u);
      BeginFetch();
      assert loading;
      CompleteFetch(result);
    }

    /** The identity becomes anonymous: the set is emptied. */
    method SignOut()
      modifies this
      ensures Valid()
      ensures user == None && productIds == {} && loading == old(loading) && remoteLog == old(remoteLog)
    {
      user := None;
      BeginFetch();
    }

    /** `toggle`: with no user nothing happens and nothing is sent; otherwise membership of
        `p` flips, every other id stays, and exactly one delete-or-insert is sent. */
    method Toggle(p: ProductId)
      requires Valid()
      modifies this`productIds, this`remoteLog
      ensures Valid()
      ensures user.None? ==> productIds == old(productIds) && remoteLog == old(remoteLog)
      ensures user.Some? ==> productIds == Flip(old(productIds), p)
      ensures user.Some? ==> IsInWishlist(p) == !old(IsInWishlist(p))
      ensures user.Some? ==> remoteLog == old(remoteLog) + [ToggleOp(user.value, old(productIds), p)]
    {
      if user.None? {
        return;
      }
      var inList := p in productIds;
      productIds := if inList then productIds - {p} else productIds + {p};
      if inList {
        remoteLog := remoteLog + [DeleteRow(user.value, p)];
      } else {
        remoteLog := remoteLog + [InsertRow(user.value, p)];
      }
    }
  }
}
