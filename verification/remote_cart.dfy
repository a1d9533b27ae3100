/** The remote cart gateway of src/context/cart-context.tsx as the engine sees it: the rows
    `fetchCart` reads back and projects into lines, the one operation each intent mirrors,
    and the `cart_items` table those operations act on, keyed on the (cart, product) pair. */
module RemoteCart {
  import opened Common
  import opened CartLines

  type CartId = string

  /** The joined `products(id, name, price, images)` of a `cart_items` row. */
  datatype RemoteProduct = RemoteProduct(id: ProductId, name: string, price: int, images: Option<seq<string>>)

  /** A row of `select('quantity, products(...)')`; the product is absent when the join
      finds no product. */
  datatype RemoteRow = RemoteRow(quantity: int, product: Option<RemoteProduct>)

  /** The one remote call an intent issues. */
  datatype RemoteOp =
    | Upsert(cart: CartId, product: ProductId, quantity: int)  // upsert, onConflict 'cart_id,product_id'
    | Delete(cart: CartId, product: ProductId)                 // delete where cart_id and product_id match
    | Update(cart: CartId, product: ProductId, quantity: int)  // update quantity where both match
    | DeleteAll(cart: CartId)                                  // delete where cart_id matches

  /** The `cart_items` table reduced to what the engine touches: for each cart, the
      quantity stored under each product id. */
  type Table = map<CartId, map<ProductId, int>>

  /** The image a fetched line shows: the first of the product's images, if it has any. */
  function FirstImage(images: Option<seq<string>>): (r: Option<string>)
    ensures r.Some? <==> images.Some? && |images.value| > 0
    ensures r.Some? ==> r.value == images.value[0]
  {
    match images
    case Some(urls) => if |urls| > 0 then Some(urls[0]) else None
    case None => None
  }

  /** The line `fetchCart` builds from a row that carries a product. */
  function LineOf(row: RemoteRow): Line
    requires row.product.Some?
  {
    var p := row.product.value;
    Line(p.id, p.name, p.price, FirstImage(p.images), row.quantity)
  }

  /** The lines `fetchCart` builds: rows without a joined product are skipped, the others
      become lines in row order. */
  function ProjectRows(rows: seq<RemoteRow>): (r: seq<Line>)
    ensures |r| <= |rows|
  {
    if rows == [] then []
    else if rows[0].product.Some? then [LineOf(rows[0])] + ProjectRows(rows[1..])
    else ProjectRows(rows[1..])
  }

  /** The rows a cart holds, empty for a cart without any. */
  function RowsOf(t: Table, c: CartId): map<ProductId, int>
  {
    if c in t then t[c] else map[]
  }

  /** The effect one operation has on the table once it lands. An update that matches no
      row changes nothing; every operation touches its own cart only. */
  function ApplyOp(t: Table, op: RemoteOp): (r: Table)
    ensures forall c :: c != op.cart ==> RowsOf(r, c) == RowsOf(t, c)
  {
    match op
    case Upsert(c, p, q) => t[c := RowsOf(t, c)[p := q]]
    case Delete(c, p) => t[c := RowsOf(t, c) - {p}]
    case Update(c, p, q) => if p in RowsOf(t, c) then t[c := RowsOf(t, c)[p := q]] else t
    case DeleteAll(c) => t[c := map[]]
  }

  /** Operations landing one after another, in the order they were issued. */
  function ApplyAll(t: Table, ops: seq<RemoteOp>): Table
    decreases |ops|
  {
    if ops == [] then t else ApplyAll(ApplyOp(t, ops[0]), ops[1..])
  }

  /** The operation an intent mirrors to cart `c`, computed from the lines before it. */
  function MirrorOp(c: CartId, items: seq<Line>, i: Intent): (op: RemoteOp)
    ensures op.cart == c
    ensures op.Upsert? <==> i.Add?
    ensures op.DeleteAll? <==> i.Clear?
    ensures op.Delete? <==> i.Remove? || (i.SetQuantity? && i.quantity < 1)
    ensures i.Add? ==> op.product == i.product.id
    ensures i.Remove? || i.SetQuantity? ==> op.product == i.id
  {
    match i
    case Add(p) => Upsert(c, p.id, match Find(items, p.id) case Some(l) => l.quantity + 1 case None => 1)
    case Remove(id) => Delete(c, id)
    case SetQuantity(id, q) => if q < 1 then Delete(c, id) else Update(c, id, q)
    case Clear => DeleteAll(c)
  }

  /** The operations a run of intents mirrors, one per intent. */
  function MirrorOps(c: CartId, items: seq<Line>, intents: seq<Intent>): (ops: seq<RemoteOp>)
    ensures |ops| == |intents|
    decreases |intents|
  {
    if intents == [] then []
    else [MirrorOp(c, items, intents[0])] + MirrorOps(c, Next(items, intents[0]), intents[1..])
  }

  /** The quantities the table should hold for these lines (for a repeated id, the first
      line wins, as `find` does). */
  function QtyMap(items: seq<Line>): map<ProductId, int>
  {
    if items == [] then map[] else QtyMap(items[1..])[items[0].id := items[0].quantity]
  }

  // ---------------------------------------------------------------------------
  // The projection of fetched rows

  /** A line is in the projection exactly when some row carries a product and projects
      to it. */
  lemma {:induction false} ProjectRowsMembers(rows: seq<RemoteRow>, l: Line)
    ensures l in ProjectRows(rows)
        <==> exists i :: 0 <= i < |rows| && rows[i].product.Some? && LineOf(rows[i]) == l
  {
    if rows != [] {
      ProjectRowsMembers(rows[1..], l);
      if exists i :: 0 <= i < |rows| && rows[i].product.Some? && LineOf(rows[i]) == l {
        var i :| 0 <= i < |rows| && rows[i].product.Some? && LineOf(rows[i]) == l;
        if i > 0 {
          assert rows[1..][i - 1] == rows[i];
        }
      }
      if exists i :: 0 <= i < |rows[1..]| && rows[1..][i].product.Some? && LineOf(rows[1..][i]) == l {
        var i :| 0 <= i < |rows[1..]| && rows[1..][i].product.Some? && LineOf(rows[1..][i]) == l;
        assert rows[i + 1] == rows[1..][i];
      }
    }
  }

  /** Projection keeps the order of the rows. */
  lemma {:induction false} ProjectRowsAppend(a: seq<RemoteRow>, b: seq<RemoteRow>)
    ensures ProjectRows(a + b) == ProjectRows(a) + ProjectRows(b)
  {
    if a != [] {
      assert (a + b)[1..] == a[1..] + b;
      ProjectRowsAppend(a[1..], b);
    } else {
      assert a + b == b;
    }
  }

  /** When every row carries a product, the projection is row-for-row. */
  lemma {:induction false} ProjectRowsAllCarry(rows: seq<RemoteRow>)
    requires forall i :: 0 <= i < |rows| ==> rows[i].product.Some?
    ensures |ProjectRows(rows)| == |rows|
    ensures forall k :: 0 <= k < |rows| ==> ProjectRows(rows)[k] == LineOf(rows[k])
  {
    if rows != [] {
      assert forall i :: 0 <= i < |rows[1..]| ==> rows[1..][i] == rows[i + 1];
      ProjectRowsAllCarry(rows[1..]);
    }
  }

  // ---------------------------------------------------------------------------
  // The quantities the table should hold

  lemma {:induction false} QtyMapFind(items: seq<Line>, id: ProductId)
    ensures id in QtyMap(items) <==> Holds(items, id)
    ensures Holds(items, id) ==> QtyMap(items)[id] == Find(items, id).value.quantity
  {
    if items != [] {
      if items[0].id != id {
        HoldsTail(items, id);
        QtyMapFind(items[1..], id);
      }
    }
  }

  lemma {:induction false} QtyMapBump(items: seq<Line>, id: ProductId)
    ensures QtyMap(Bump(items, id))
         == if id in QtyMap(items) then QtyMap(items)[id := QtyMap(items)[id] + 1] else QtyMap(items)
  {
    if items != [] {
      var x, b := items[0], Bump(items, id);
      var m, mb := QtyMap(items[1..]), QtyMap(Bump(items[1..], id));
      assert b[1..] == Bump(items[1..], id);
      QtyMapBump(items[1..], id);
      if x.id == id {
        assert QtyMap(b) == mb[id := x.quantity + 1];
        assert mb[id := x.quantity + 1] == m[id := x.quantity + 1];
      } else {
        assert QtyMap(b) == mb[x.id := x.quantity];
        assert id in QtyMap(items) <==> id in m;
      }
    }
  }

  lemma {:induction false} QtyMapWithQuantity(items: seq<Line>, id: ProductId, q: int)
    ensures QtyMap(WithQuantity(items, id, q))
         == if id in QtyMap(items) then QtyMap(items)[id := q] else QtyMap(items)
  {
    if items != [] {
      assert WithQuantity(items, id, q)[1..] == WithQuantity(items[1..], id, q);
      QtyMapWithQuantity(items[1..], id, q);
    }
  }

  lemma {:induction false} QtyMapRemove(items: seq<Line>, id: ProductId)
    ensures QtyMap(RemoveLine(items, id)) == QtyMap(items) - {id}
  {
    if items != [] {
      QtyMapRemove(items[1..], id);
      if items[0].id != id {
        assert ([items[0]] + RemoveLine(items[1..], id))[1..] == RemoveLine(items[1..], id);
      }
    }
  }

  lemma {:induction false} QtyMapAppend(items: seq<Line>, l: Line)
    requires !Holds(items, l.id)
    ensures QtyMap(items + [l]) == QtyMap(items)[l.id := l.quantity]
  {
    if items != [] {
      HoldsTail(items, l.id);
      assert (items + [l])[1..] == items[1..] + [l];
      QtyMapAppend(items[1..], l);
    } else {
      assert items + [l] == [l];
    }
  }

  // ---------------------------------------------------------------------------
  // Mirroring

  /** The upsert `addItem` sends is keyed on the added product and carries the quantity
      that product's line has in memory afterwards. */
  lemma AddUpsertMatchesLine(c: CartId, items: seq<Line>, p: Product)
    ensures MirrorOp(c, items, Add(p)).Upsert?
    ensures MirrorOp(c, items, Add(p)).cart == c && MirrorOp(c, items, Add(p)).product == p.id
    ensures Find(AddLine(items, p), p.id).Some?
    ensures Find(AddLine(items, p), p.id).value.quantity == MirrorOp(c, items, Add(p)).quantity
  {
    QtyMapFind(items, p.id);
    if Holds(items, p.id) {
      QtyMapBump(items, p.id);
    } else {
      QtyMapAppend(items, NewLine(p));
    }
    QtyMapFind(AddLine(items, p), p.id);
  }

  /** If the table agrees with the lines before an intent, the operation that intent
      mirrors makes it agree with the lines after it. */
  lemma MirrorKeepsAgreement(t: Table, c: CartId, items: seq<Line>, i: Intent)
    requires RowsOf(t, c) == QtyMap(items)
    ensures RowsOf(ApplyOp(t, MirrorOp(c, items, i)), c) == QtyMap(Next(items, i))
  {
    match i
    case Add(p) => MirrorAddKeepsAgreement(t, c, items, p);
    case Remove(id) => QtyMapRemove(items, id);
    case SetQuantity(id, q) =>
      if q < 1 {
        QtyMapRemove(items, id);
      } else {
        QtyMapWithQuantity(items, id, q);
      }
    case Clear =>
  }

  /** The add case of `MirrorKeepsAgreement`: the upsert writes the line's new quantity. */
  lemma MirrorAddKeepsAgreement(t: Table, c: CartId, items: seq<Line>, p: Product)
    requires RowsOf(t, c) == QtyMap(items)
    ensures RowsOf(ApplyOp(t, MirrorOp(c, items, Add(p))), c) == QtyMap(AddLine(items, p))
  {
    var m := QtyMap(items);
    var q := UpsertQuantity(c, items, p);
    assert RowsOf(ApplyOp(t, Upsert(c, p.id, q)), c) == m[p.id := q];
    assert RowsOf(ApplyOp(t, MirrorOp(c, items, Add(p))), c) == m[p.id := q];
    QtyMapFind(items, p.id);
    if Holds(items, p.id) {
      assert p.id in m && q == m[p.id] + 1;
      QtyMapBump(items, p.id);
      assert AddLine(items, p) == Bump(items, p.id);
    } else {
      assert q == 1;
      QtyMapAppend(items, NewLine(p));
      assert AddLine(items, p) == items + [NewLine(p)];
    }
  }

  /** The quantity `addItem` upserts is the line's current quantity plus one, or 1. */
  lemma UpsertQuantity(c: CartId, items: seq<Line>, p: Product) returns (q: int)
    ensures MirrorOp(c, items, Add(p)) == Upsert(c, p.id, q)
    ensures Holds(items, p.id) ==> q == Find(items, p.id).value.quantity + 1
    ensures !Holds(items, p.id) ==> q == 1
  {
    q := match Find(items, p.id) case Some(l) => l.quantity + 1 case None => 1;
  }

  /** Any run of intents, with every mirrored operation landing in issue order, leaves the
      table agreeing with the lines in memory; other carts are not touched. */
  lemma {:induction false} RunKeepsAgreement(t: Table, c: CartId, items: seq<Line>, intents: seq<Intent>)
    requires RowsOf(t, c) == QtyMap(items)
    ensures RowsOf(ApplyAll(t, MirrorOps(c, items, intents)), c) == QtyMap(Run(items, intents))
    ensures forall d :: d != c ==> RowsOf(ApplyAll(t, MirrorOps(c, items, intents)), d) == RowsOf(t, d)
    decreases |intents|
  {
    if intents != [] {
      var op := MirrorOp(c, items, intents[0]);
      MirrorKeepsAgreement(t, c, items, intents[0]);
      RunKeepsAgreement(ApplyOp(t, op), c, Next(items, intents[0]), intents[1..]);
      assert MirrorOps(c, items, intents)[1..] == MirrorOps(c, Next(items, intents[0]), intents[1..]);
    }
  }

  /** Two consecutive `addItem(p)` calls on a cart without `p` leave one row for `p` in the
      table, with quantity 2, not two rows. */
  lemma TwoAddsOneRow(t: Table, c: CartId, items: seq<Line>, p: Product)
    requires RowsOf(t, c) == QtyMap(items) && !Holds(items, p.id)
    ensures var after := RowsOf(ApplyAll(t, MirrorOps(c, items, [Add(p), Add(p)])), c);
      p.id in after && after[p.id] == 2 && after.Keys == QtyMap(items).Keys + {p.id}
  {
    RunKeepsAgreement(t, c, items, [Add(p), Add(p)]);
    var one := AddLine(items, p);
    QtyMapAppend(items, NewLine(p));
    QtyMapFind(one, p.id);
    QtyMapBump(one, p.id);
    calc {
      Run(items, [Add(p), Add(p)]);
      { assert [Add(p), Add(p)][1..] == [Add(p)]; }
      Run(one, [Add(p)]);
      { assert [Add(p)][1..] == []; }
      AddLine(one, p);
    }
  }

  /** Mirror calls are not awaited and failures are not rolled back: if the delete a
      `removeItem` sends never lands, the table still holds the line the cart dropped. */
  lemma LostDeleteDiverges(t: Table, c: CartId, items: seq<Line>, id: ProductId)
    requires RowsOf(t, c) == QtyMap(items) && Holds(items, id)
    ensures id in RowsOf(t, c) && id !in QtyMap(Next(items, Remove(id)))
  {
    QtyMapFind(items, id);
    QtyMapRemove(items, id);
  }

  // ---------------------------------------------------------------------------
  // Reading the table back

  /** The ids of a product catalogue. */
  function CatalogueIds(catalogue: seq<RemoteProduct>): set<ProductId>
  {
    if catalogue == [] then {} else {catalogue[0].id} + CatalogueIds(catalogue[1..])
  }

  /** The rows the `cart_items` query returns for a cart whose rows are `m`: one row per
      catalogue product the cart holds, joined with that product, in catalogue order. */
  function FetchedRows(m: map<ProductId, int>, catalogue: seq<RemoteProduct>): (rows: seq<RemoteRow>)
    ensures forall i :: 0 <= i < |rows| ==> rows[i].product.Some? && rows[i].product.value.id in m
  {
    if catalogue == [] then []
    else if catalogue[0].id in m then
      [RemoteRow(m[catalogue[0].id], Some(catalogue[0]))] + FetchedRows(m, catalogue[1..])
    else FetchedRows(m, catalogue[1..])
  }

  /** Projecting the fetched rows gives back the table's quantities for every product of
      the catalogue. */
  lemma {:induction false} FetchedRowsProject(m: map<ProductId, int>, catalogue: seq<RemoteProduct>)
    ensures QtyMap(ProjectRows(FetchedRows(m, catalogue)))
         == map k | k in m && k in CatalogueIds(catalogue) :: m[k]
  {
    if catalogue != [] {
      var p, rest := catalogue[0], catalogue[1..];
      FetchedRowsProject(m, rest);
      var tail := FetchedRows(m, rest);
      if p.id in m {
        var row := RemoteRow(m[p.id], Some(p));
        assert ([row] + tail)[0] == row && ([row] + tail)[1..] == tail;
        var lines := [LineOf(row)] + ProjectRows(tail);
        assert lines[0] == LineOf(row) && lines[1..] == ProjectRows(tail);
      }
    }
  }

  /** A fetch of a cart whose every product is in the catalogue reads the table back
      exactly: the fetched lines agree with the rows the table holds. */
  lemma FetchReadsTableBack(t: Table, c: CartId, catalogue: seq<RemoteProduct>)
    requires RowsOf(t, c).Keys <= CatalogueIds(catalogue)
    ensures QtyMap(ProjectRows(FetchedRows(RowsOf(t, c), catalogue))) == RowsOf(t, c)
  {
    FetchedRowsProject(RowsOf(t, c), catalogue);
  }
}
