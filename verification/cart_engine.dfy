/** The cart engine of src/context/cart-context.tsx as one object: the state `CartProvider`
    keeps, its four intents, and the mode effect that runs when the identity changes.
    Each intent is one atomic step. Gateway answers arrive as parameters, and what would
    be sent to the gateway is appended to `mirrorLog` instead. */
module CartEngine {
  import opened Common
  import opened CartLines
  import opened LocalCart
  import opened RemoteCart

  class Cart {
    var items: seq<Line>
    var user: Option<UserId>
    var cartId: Option<CartId>
    var syncing: bool
    var localSnapshot: LocalStore
    var mirrorLog: seq<RemoteOp>

    /** Anonymous mode has no remote cart id, and its local store always loads back as the
        lines on show (write-through). */
    ghost predicate Valid()
      reads this
    {
      user.None? ==> cartId.None? && LoadLocalCart(localSnapshot) == items
    }

    /** Exactly one persistence side effect followed an intent `i` issued on the lines
        `before`: a full local snapshot when anonymous, one mirrored operation when a user
        and a cart id are present, and nothing beyond memory when the cart id is missing. */
    ghost predicate PersistedOnce(before: seq<Line>, i: Intent, oldSnapshot: LocalStore, oldLog: seq<RemoteOp>)
      reads this
    {
      if user.None? then
        localSnapshot == SaveLocalCart(items) && mirrorLog == oldLog
      else if cartId.Some? then
        localSnapshot == oldSnapshot && mirrorLog == oldLog + [MirrorOp(cartId.value, before, i)]
      else
        localSnapshot == oldSnapshot && mirrorLog == oldLog
    }

    /** `cartCount`, recomputed from the lines on every render: zero for an empty cart,
        and at least one per line when every quantity is positive. */
    function CartCount(): (n: int)
      reads this
      ensures items == [] ==> n == 0
      ensures AllPositive(items) ==> n >= |items|
    {
      Count(items)
    }

    /** `cartTotal` in cents, recomputed from the lines: zero for an empty cart, never
        negative when no price or quantity is. */
    function CartTotal(): (t: int)
      reads this
      ensures items == [] ==> t == 0
      ensures NonNegative(items) ==> t >= 0
    {
      Total(items)
    }

    /** Mount with no identity: empty state, then the anonymous branch of the mode effect
        loads whatever the local store holds. */
    constructor (stored: LocalStore)
      ensures Valid()
      ensures user == None && cartId == None && !syncing
      ensures items == LoadLocalCart(stored) && localSnapshot == stored && mirrorLog == []
    {
      user := None;
      cartId := None;
      syncing := false;
      localSnapshot := stored;
      mirrorLog := [];
      items := LoadLocalCart(stored);
    }

    /** `addItem` */
    method AddItem(p: Product)
      requires Valid()
      modifies this
      ensures Valid()
      ensures items == AddLine(old(items), p)
      ensures user == old(user) && cartId == old(cartId) && syncing == old(syncing)
      ensures PersistedOnce(old(items), Add(p), old(localSnapshot), old(mirrorLog))
    {
      var existing := Find(items, p.id);
      var next := if existing.Some? then Bump(items, p.id) else items + [NewLine(p)];
      assert next == AddLine(items, p);
      if user.Some? && cartId.Some? {
        var qty := if existing.Some? then existing.value.quantity + 1 else 1;
        assert Upsert(cartId.value, p.id, qty) == MirrorOp(cartId.value, items, Add(p));
        mirrorLog := mirrorLog + [Upsert(cartId.value, p.id, qty)];
      }
      if user.None? {
        localSnapshot := SaveLocalCart(next);
      }
      items := next;
    }

    /** `removeItem` */
    method RemoveItem(id: ProductId)
      requires Valid()
      modifies this
      ensures Valid()
      ensures items == RemoveLine(old(items), id)
      ensures user == old(user) && cartId == old(cartId) && syncing == old(syncing)
      ensures PersistedOnce(old(items), Remove(id), old(localSnapshot), old(mirrorLog))
    {
      var next := RemoveLine(items, id);
      if user.Some? && cartId.Some? {
        mirrorLog := mirrorLog + [Delete(cartId.value, id)];
      }
      if user.None? {
        localSnapshot := SaveLocalCart(next);
      }
      items := next;
    }

    /** `updateQuantity`: below 1 it hands over to `removeItem`. */
    method UpdateQuantity(id: ProductId, q: int)
      requires Valid()
      modifies this
      ensures Valid()
      ensures items == UpdateLines(old(items), id, q)
      ensures user == old(user) && cartId == old(cartId) && syncing == old(syncing)
      ensures PersistedOnce(old(items), SetQuantity(id, q), old(localSnapshot), old(mirrorLog))
    {
      if q < 1 {
        RemoveItem(id);
        return;
      }
      var next := WithQuantity(items, id, q);
      if user.Some? && cartId.Some? {
        mirrorLog := mirrorLog + [Update(cartId.value, id, q)];
      }
      if user.None? {
        localSnapshot := SaveLocalCart(next);
      }
      items := next;
    }

    /** `clearCart` */
    method ClearCart()
      requires Valid()
      modifies this
      ensures Valid()
      ensures items == []
      ensures user == old(user) && cartId == old(cartId) && syncing == old(syncing)
      ensures PersistedOnce(old(items), Clear, old(localSnapshot), old(mirrorLog))
    {
      if user.Some? && cartId.Some? {
        mirrorLog := mirrorLog + [DeleteAll(cartId.value)];
      }
      items := [];
      if user.None? {
        localSnapshot := SaveLocalCart([]);
      }
    }

    /** The mode effect when the identity becomes anonymous: forget the remote cart id and
        replace the lines wholesale with the local snapshot (empty when it cannot be read). */
    method SignOut()
      modifies this
      ensures Valid()
      ensures user == None && cartId == None && items == LoadLocalCart(localSnapshot)
      ensures localSnapshot == old(localSnapshot) && mirrorLog == old(mirrorLog) && syncing == old(syncing)
    {
      user := None;
      cartId := None;
      items := LoadLocalCart(localSnapshot);
    }

    /** The part of `fetchCart` that runs before its first await: with a user, raise the
        loading flag. */
    method BeginFetch()
      modifies this`syncing
      ensures syncing == (old(syncing) || user.Some?)
    {
      if user.Some? {
        syncing := true;
      }
    }

    /** The rest of `fetchCart`, once the gateway has answered. `found` is the user's cart
        row, if the lookup returned one; `created` is the id the insert returned, `None`
        when it reported an error (thrown, then caught and logged); `rows` is the item
        query's data, `None` when it came back null. The flag is cleared on every path. */
    method CompleteFetch(found: Option<CartId>, created: Option<CartId>, rows: Option<seq<RemoteRow>>)
      requires Valid()
      modifies this`syncing, this`cartId, this`items
      ensures Valid()
      ensures user.None? ==> syncing == old(syncing) && cartId == old(cartId) && items == old(items)
      ensures user.Some? ==> !syncing
      ensures user.Some? && (found.Some? || created.Some?) ==>
        cartId == (if found.Some? then found else created) &&
        items == ProjectRows(if rows.Some? then rows.value else [])
      ensures user.Some? && found.None? && created.None? ==> cartId == old(cartId) && items == old(items)
    {
      if user.None? {
        return;
      }
      var cart := found;
      if cart.None? {
        if created.None? {
          syncing := false;
          return;
        }
        cart := created;
      }
      cartId := cart;
      items := ProjectRows(if rows.Some? then rows.value else []);
      syncing := false;
    }

    /** The mode effect when the identity becomes the user `u`: find or create the user's
        cart, record its id, and replace the lines wholesale with the projection of the
        remote rows, never merging the anonymous lines in. `syncing` is up during the load
        and down afterwards, failure included. */
    method SignIn(u: UserId, found: Option<CartId>, created: Option<CartId>, rows: Option<seq<RemoteRow>>)
      requires Valid()
      modifies this
      ensures Valid()
      ensures user == Some(u) && !syncing
      ensures localSnapshot == old(localSnapshot) && mirrorLog == old(mirrorLog)
      ensures found.Some? || created.Some? ==>
        cartId == (if found.Some? then found else created) &&
        items == ProjectRows(if rows.Some? then rows.value else [])
      ensures found.None? && created.None? ==> cartId == old(cartId) && items == old(items)
    {
      user := Some(u);
      BeginFetch();
      assert syncing;
      CompleteFetch(found, created, rows);
    }
  }

  /** An anonymous visitor adds A (10.00) twice and B (5.00) once, for three items and
      25.00; signing in with no remote cart creates an empty one, and the cart on show
      becomes empty: the anonymous lines are discarded, not merged. */
  method SignInDiscardsAnonymousCart(a: Product, b: Product, u: UserId, newCart: CartId)
    returns (countBefore: int, totalBefore: int, linesAfter: seq<Line>, cartAfter: Option<CartId>)
    requires a.id != b.id && a.price == 1000 && b.price == 500
    ensures countBefore == 3 && totalBefore == 2500
    ensures linesAfter == [] && cartAfter == Some(newCart)
  {
    var cart := new Cart(Missing);
    cart.AddItem(a);
    cart.AddItem(a);
    cart.AddItem(b);
    ScenarioTwoAThenB(a, b);
    assert cart.items == Run([], [Add(a), Add(a), Add(b)]) by {
      assert [Add(a), Add(a), Add(b)][1..] == [Add(a), Add(b)];
      assert [Add(a), Add(b)][1..] == [Add(b)];
    }
    countBefore, totalBefore := cart.CartCount(), cart.CartTotal();
    cart.SignIn(u, None, Some(newCart), Some([]));
    linesAfter, cartAfter := cart.items, cart.cartId;
  }

  /** A signed-in user whose remote cart holds A twice removes A: the line goes at once and
      one delete for (cart, A) is sent. Should that delete never land, the table still
      holds A, and when the mode effect runs again for the same user the refetch brings
      the line back with quantity 2. */
  method RemoveWhileSignedIn(a: RemoteProduct, u: UserId, c: CartId)
    returns (linesAfter: seq<Line>, sent: seq<RemoteOp>, stillRemote: bool, linesRefetched: seq<Line>)
    ensures linesAfter == [] && sent == [Delete(c, a.id)]
    ensures stillRemote
    ensures |linesRefetched| == 1 && linesRefetched[0].id == a.id && linesRefetched[0].quantity == 2
  {
    var table: Table := map[c := map[a.id := 2]];
    var cart := new Cart(Missing);
    var rows := FetchedRows(RowsOf(table, c), [a]);
    assert rows == [RemoteRow(2, Some(a))] by {
      var m := RowsOf(table, c);
      assert m == map[a.id := 2];
      assert [a][1..] == [];
      assert FetchedRows(m, []) == [];
      assert FetchedRows(m, [a]) == [RemoteRow(m[a.id], Some(a))] + FetchedRows(m, [a][1..]);
    }
    cart.SignIn(u, Some(c), None, Some(rows));
    var before := cart.items;
    cart.RemoveItem(a.id);
    linesAfter, sent := cart.items, cart.mirrorLog;
    assert Holds(before, a.id) by {
      assert before[0].id == a.id;
    }
    FetchReadsTableBack(table, c, [a]);
    LostDeleteDiverges(table, c, before, a.id);
    stillRemote := a.id in RowsOf(table, c) && a.id !in QtyMap(linesAfter);
    cart.SignIn(u, Some(c), None, Some(rows));
    linesRefetched := cart.items;
  }

  /** When the mode effect runs for a signed-in user, the fetch reads the table back: the
      lines on show then agree with what the table holds for the cart, which is where
      mirrored intents keep agreement from (see `RemoteCart.RunKeepsAgreement`). */
  method RefetchAgrees(cart: Cart, u: UserId, t: Table, c: CartId, catalogue: seq<RemoteProduct>)
    requires cart.Valid()
    requires RowsOf(t, c).Keys <= CatalogueIds(catalogue)
    modifies cart
    ensures cart.Valid() && cart.user == Some(u) && cart.cartId == Some(c)
    ensures QtyMap(cart.items) == RowsOf(t, c)
  {
    cart.SignIn(u, Some(c), None, Some(FetchedRows(RowsOf(t, c), catalogue)));
    FetchReadsTableBack(t, c, catalogue);
  }
}
