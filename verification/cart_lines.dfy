/** The pure half of the cart engine (src/context/cart-context.tsx): each intent turns the
    current list of lines into the next one with a find/map/filter/append step, and the
    two aggregates are sums over the lines. Prices are integer cents. */
module CartLines {
  import opened Common

  /** What `addItem` is handed: a cart line without its quantity. */
  datatype Product = Product(id: ProductId, name: string, price: int, image: Option<string>)

  /** One cart line (`CartItem`). The quantity is whatever was stored, fetched or set;
      nothing but the intents themselves keeps it positive. */
  datatype Line = Line(id: ProductId, name: string, price: int, image: Option<string>, quantity: int)

  /** The four intents a consumer can issue. */
  datatype Intent =
    | Add(product: Product)
    | Remove(id: ProductId)
    | SetQuantity(id: ProductId, quantity: int)
    | Clear

  /** The line `addItem` appends for a product not yet in the cart: quantity 1. */
  function NewLine(p: Product): Line
  {
    Line(p.id, p.name, p.price, p.image, 1)
  }

  /** At most one line per product id. */
  predicate Distinct(items: seq<Line>)
  {
    forall i, j :: 0 <= i < j < |items| ==> items[i].id != items[j].id
  }

  /** Some line carries this product id. */
  predicate Holds(items: seq<Line>, id: ProductId)
  {
    exists k :: 0 <= k < |items| && items[k].id == id
  }

  /** Every quantity is at least 1. */
  predicate AllPositive(items: seq<Line>)
  {
    forall k :: 0 <= k < |items| ==> items[k].quantity >= 1
  }

  /** The first line carrying the product id, if any: what `addItem`'s `find` sees. */
  function Find(items: seq<Line>, id: ProductId): (r: Option<Line>)
    ensures r.None? <==> !Holds(items, id)
    ensures r.Some? ==> r.value.id == id && r.value in items
  {
    if items == [] then None
    else if items[0].id == id then Some(items[0])
    else
      var r := Find(items[1..], id);
      assert Holds(items, id) ==> Holds(items[1..], id) by {
        if Holds(items, id) {
          var k :| 0 <= k < |items| && items[k].id == id;
          assert items[1..][k - 1].id == id;
        }
      }
      assert Holds(items[1..], id) ==> Holds(items, id) by {
        if Holds(items[1..], id) {
          var k :| 0 <= k < |items[1..]| && items[1..][k].id == id;
          assert items[k + 1].id == id;
        }
      }
      r
  }

  /** Every line carrying the id gets one more unit; lines keep their ids and places. */
  function Bump(items: seq<Line>, id: ProductId): (r: seq<Line>)
    ensures |r| == |items|
    ensures forall k :: 0 <= k < |r| ==> r[k].id == items[k].id
  {
    if items == [] then []
    else
      [if items[0].id == id then items[0].(quantity := items[0].quantity + 1) else items[0]]
      + Bump(items[1..], id)
  }

  /** Every line carrying the id gets quantity `q`; lines keep their ids and places. */
  function WithQuantity(items: seq<Line>, id: ProductId, q: int): (r: seq<Line>)
    ensures |r| == |items|
    ensures forall k :: 0 <= k < |r| ==> r[k].id == items[k].id
  {
    if items == [] then []
    else
      [if items[0].id == id then items[0].(quantity := q) else items[0]]
      + WithQuantity(items[1..], id, q)
  }

  /** The next list of `removeItem`: the lines of every other id, in their order. */
  function RemoveLine(items: seq<Line>, id: ProductId): (r: seq<Line>)
    ensures |r| <= |items|
    ensures forall k :: 0 <= k < |r| ==> r[k].id != id
  {
    if items == [] then []
    else if items[0].id == id then RemoveLine(items[1..], id)
    else [items[0]] + RemoveLine(items[1..], id)
  }

  /** The next list of `addItem`: bump the existing line, or append a fresh one. */
  function AddLine(items: seq<Line>, p: Product): (r: seq<Line>)
    ensures Holds(r, p.id)
    ensures |r| == if Holds(items, p.id) then |items| else |items| + 1
  {
    if Find(items, p.id).Some? then
      var r := Bump(items, p.id);
      assert Holds(r, p.id) by {
        var k :| 0 <= k < |items| && items[k].id == p.id;
        assert r[k].id == p.id;
      }
      r
    else
      var r := items + [NewLine(p)];
      assert r[|items|].id == p.id;
      r
  }

  /** The next list of `updateQuantity`: below 1 it is `removeItem`'s. */
  function UpdateLines(items: seq<Line>, id: ProductId, q: int): (r: seq<Line>)
    ensures |r| <= |items|
    ensures Holds(r, id) <==> q >= 1 && Holds(items, id)
  {
    if q < 1 then RemoveLine(items, id)
    else
      var r := WithQuantity(items, id, q);
      assert Holds(r, id) <==> Holds(items, id) by {
        if Holds(items, id) {
          var k :| 0 <= k < |items| && items[k].id == id;
          assert r[k].id == id;
        }
        if Holds(r, id) {
          var k :| 0 <= k < |r| && r[k].id == id;
          assert items[k].id == id;
        }
      }
      r
  }

  /** The next list for any intent. */
  function Next(items: seq<Line>, i: Intent): seq<Line>
  {
    match i
    case Add(p) => AddLine(items, p)
    case Remove(id) => RemoveLine(items, id)
    case SetQuantity(id, q) => UpdateLines(items, id, q)
    case Clear => []
  }

  /** The list after a run of intents, applied in call order. */
  function Run(items: seq<Line>, intents: seq<Intent>): seq<Line>
    decreases |intents|
  {
    if intents == [] then items else Run(Next(items, intents[0]), intents[1..])
  }

  /** No negative price or quantity. */
  predicate NonNegative(items: seq<Line>)
  {
    forall k :: 0 <= k < |items| ==> items[k].price >= 0 && items[k].quantity >= 0
  }

  /** `cartCount`: the sum of the quantities. Integer addition makes the direction of the
      fold immaterial. With every quantity positive it is at least the number of lines. */
  function Count(items: seq<Line>): (n: int)
    ensures AllPositive(items) ==> n >= |items|
  {
    if items == [] then 0
    else
      assert AllPositive(items) ==> AllPositive(items[1..]) by {
        if AllPositive(items) {
          forall k | 0 <= k < |items[1..]| ensures items[1..][k].quantity >= 1 {
            assert items[1..][k] == items[k + 1];
          }
        }
      }
      items[0].quantity + Count(items[1..])
  }

  /** `cartTotal` in cents: the sum of price times quantity over the lines. It is never
      negative when no price or quantity is. */
  function Total(items: seq<Line>): (t: int)
    ensures NonNegative(items) ==> t >= 0
  {
    if items == [] then 0
    else
      assert NonNegative(items) ==> NonNegative(items[1..]) && items[0].price * items[0].quantity >= 0 by {
        if NonNegative(items) {
          forall k | 0 <= k < |items[1..]| ensures items[1..][k].price >= 0 && items[1..][k].quantity >= 0 {
            assert items[1..][k] == items[k + 1];
          }
        }
      }
      items[0].price * items[0].quantity + Total(items[1..])
  }

  /** `addItem` applied `n` times with the same product. */
  function AddTimes(items: seq<Line>, p: Product, n: nat): seq<Line>
  {
    if n == 0 then items else AddLine(AddTimes(items, p, n - 1), p)
  }

  // ---------------------------------------------------------------------------
  // Small facts about the list shapes

  lemma DistinctTail(items: seq<Line>)
    requires Distinct(items) && items != []
    ensures Distinct(items[1..]) && !Holds(items[1..], items[0].id)
  {
    forall k | 0 <= k < |items[1..]| ensures items[1..][k].id != items[0].id {
      assert items[1..][k] == items[k + 1];
    }
  }

  lemma HoldsTail(items: seq<Line>, id: ProductId)
    requires items != [] && items[0].id != id
    ensures Holds(items, id) <==> Holds(items[1..], id)
  {
    var _ := Find(items, id);
  }

  lemma {:induction false} BumpAt(items: seq<Line>, id: ProductId, k: nat)
    requires k < |items|
    ensures Bump(items, id)[k]
         == if items[k].id == id then items[k].(quantity := items[k].quantity + 1) else items[k]
  {
    if k > 0 {
      BumpAt(items[1..], id, k - 1);
    }
  }

  lemma {:induction false} WithQuantityAt(items: seq<Line>, id: ProductId, q: int, k: nat)
    requires k < |items|
    ensures WithQuantity(items, id, q)[k] == if items[k].id == id then items[k].(quantity := q) else items[k]
  {
    if k > 0 {
      WithQuantityAt(items[1..], id, q, k - 1);
    }
  }

  lemma {:induction false} BumpAbsent(items: seq<Line>, id: ProductId)
    requires !Holds(items, id)
    ensures Bump(items, id) == items
  {
    if items != [] {
      HoldsTail(items, id);
      BumpAbsent(items[1..], id);
    }
  }

  lemma {:induction false} WithQuantityAbsent(items: seq<Line>, id: ProductId, q: int)
    requires !Holds(items, id)
    ensures WithQuantity(items, id, q) == items
  {
    if items != [] {
      HoldsTail(items, id);
      WithQuantityAbsent(items[1..], id, q);
    }
  }

  /** `removeItem` of an absent id is a no-op. */
  lemma {:induction false} RemoveLineAbsent(items: seq<Line>, id: ProductId)
    requires !Holds(items, id)
    ensures RemoveLine(items, id) == items
  {
    if items != [] {
      HoldsTail(items, id);
      RemoveLineAbsent(items[1..], id);
    }
  }

  lemma {:induction false} RemoveLineAppend(a: seq<Line>, b: seq<Line>, id: ProductId)
    ensures RemoveLine(a + b, id) == RemoveLine(a, id) + RemoveLine(b, id)
  {
    if a != [] {
      assert (a + b)[1..] == a[1..] + b;
      RemoveLineAppend(a[1..], b, id);
    } else {
      assert a + b == b;
    }
  }

  // ---------------------------------------------------------------------------
  // The intents, one by one

  /** With an id already present `addItem` raises that line's quantity by one and leaves
      every other line, the order and the length alone; with an absent id it appends a
      line of quantity 1 at the end. */
  lemma AddLineSpec(items: seq<Line>, p: Product)
    ensures Holds(items, p.id) ==>
      |AddLine(items, p)| == |items| &&
      forall k :: 0 <= k < |items| ==>
        AddLine(items, p)[k]
        == if items[k].id == p.id then items[k].(quantity := items[k].quantity + 1) else items[k]
    ensures !Holds(items, p.id) ==> AddLine(items, p) == items + [Line(p.id, p.name, p.price, p.image, 1)]
  {
    if Holds(items, p.id) {
      forall k | 0 <= k < |items|
        ensures AddLine(items, p)[k]
             == if items[k].id == p.id then items[k].(quantity := items[k].quantity + 1) else items[k]
      {
        BumpAt(items, p.id, k);
      }
    }
  }

  /** `removeItem(id)` keeps exactly the lines of another id. */
  lemma {:induction false} RemoveLineMembers(items: seq<Line>, id: ProductId, l: Line)
    ensures l in RemoveLine(items, id) <==> l in items && l.id != id
  {
    if items != [] {
      RemoveLineMembers(items[1..], id, l);
      assert items == [items[0]] + items[1..];
    }
  }

  /** On a cart of distinct ids, no line before or after line `i` carries its id. */
  lemma DistinctAround(items: seq<Line>, i: nat)
    requires Distinct(items) && i < |items|
    ensures !Holds(items[..i], items[i].id) && !Holds(items[i + 1..], items[i].id)
  {
    var id, before, after := items[i].id, items[..i], items[i + 1..];
    forall k | 0 <= k < |before| ensures before[k].id != id {
      assert before[k] == items[k];
    }
    forall k | 0 <= k < |after| ensures after[k].id != id {
      assert after[k] == items[i + 1 + k];
    }
  }

  /** On a cart of distinct ids, `removeItem` cuts out exactly the one line and keeps the
      rest in their original order. */
  lemma RemoveLineAt(items: seq<Line>, i: nat)
    requires Distinct(items) && i < |items|
    ensures RemoveLine(items, items[i].id) == items[..i] + items[i + 1..]
  {
    var before, after := items[..i], items[i + 1..];
    DistinctAround(items, i);
    assert items == before + [items[i]] + after;
    RemoveLineSplice(before, items[i], after);
  }

  /** Removing the id of a line that no other line carries cuts out exactly that line. */
  lemma RemoveLineSplice(before: seq<Line>, x: Line, after: seq<Line>)
    requires !Holds(before, x.id) && !Holds(after, x.id)
    ensures RemoveLine(before + [x] + after, x.id) == before + after
  {
    RemoveLineAbsent(before, x.id);
    RemoveLineAbsent(after, x.id);
    assert RemoveLine([x], x.id) == [] by {
      assert [x][1..] == [];
    }
    RemoveLineAppend(before + [x], after, x.id);
    RemoveLineAppend(before, [x], x.id);
  }

  /** `updateQuantity(id, q)` below 1 is `removeItem(id)`; from 1 up it sets only that
      line's quantity, and never inserts a line or moves one. */
  lemma UpdateLinesSpec(items: seq<Line>, id: ProductId, q: int)
    ensures q < 1 ==> UpdateLines(items, id, q) == RemoveLine(items, id)
    ensures q >= 1 ==>
      |UpdateLines(items, id, q)| == |items| &&
      forall k :: 0 <= k < |items| ==>
        UpdateLines(items, id, q)[k] == if items[k].id == id then items[k].(quantity := q) else items[k]
    ensures q >= 1 && !Holds(items, id) ==> UpdateLines(items, id, q) == items
  {
    if q >= 1 {
      forall k | 0 <= k < |items|
        ensures UpdateLines(items, id, q)[k] == if items[k].id == id then items[k].(quantity := q) else items[k]
      {
        WithQuantityAt(items, id, q, k);
      }
      if !Holds(items, id) {
        WithQuantityAbsent(items, id, q);
      }
    }
  }

  /** `find` returns the first line carrying the id, even when a loaded cart repeats it. */
  lemma {:induction false} FindFirst(items: seq<Line>, id: ProductId, k: nat)
    requires k < |items| && items[k].id == id
    requires forall j :: 0 <= j < k ==> items[j].id != id
    ensures Find(items, id) == Some(items[k])
  {
    if k > 0 {
      FindFirst(items[1..], id, k - 1);
    }
  }

  /** The line `find` returns is the one line with that id, on a cart of distinct ids. */
  lemma FindDistinct(items: seq<Line>, k: nat)
    requires Distinct(items) && k < |items|
    ensures Find(items, items[k].id) == Some(items[k])
  {
    FindFirst(items, items[k].id, k);
  }

  // ---------------------------------------------------------------------------
  // Uniqueness of product ids

  lemma BumpKeepsDistinct(items: seq<Line>, id: ProductId)
    requires Distinct(items)
    ensures Distinct(Bump(items, id))
  {
    forall i, j | 0 <= i < j < |items| ensures Bump(items, id)[i].id != Bump(items, id)[j].id {
      BumpAt(items, id, i);
      BumpAt(items, id, j);
    }
  }

  lemma WithQuantityKeepsDistinct(items: seq<Line>, id: ProductId, q: int)
    requires Distinct(items)
    ensures Distinct(WithQuantity(items, id, q))
  {
    forall i, j | 0 <= i < j < |items|
      ensures WithQuantity(items, id, q)[i].id != WithQuantity(items, id, q)[j].id
    {
      WithQuantityAt(items, id, q, i);
      WithQuantityAt(items, id, q, j);
    }
  }

  lemma {:induction false} RemoveLineKeepsDistinct(items: seq<Line>, id: ProductId)
    requires Distinct(items)
    ensures Distinct(RemoveLine(items, id))
  {
    if items != [] {
      DistinctTail(items);
      RemoveLineKeepsDistinct(items[1..], id);
      if items[0].id != id {
        var rest := RemoveLine(items[1..], id);
        forall j | 0 <= j < |rest| ensures rest[j].id != items[0].id {
          RemoveLineMembers(items[1..], id, rest[j]);
          var k :| 0 <= k < |items[1..]| && items[1..][k] == rest[j];
        }
      }
    }
  }

  /** If line ids are pairwise distinct before an intent, they are distinct after it. */
  lemma NextKeepsDistinct(items: seq<Line>, i: Intent)
    requires Distinct(items)
    ensures Distinct(Next(items, i))
  {
    match i
    case Add(p) =>
      if Holds(items, p.id) {
        BumpKeepsDistinct(items, p.id);
      } else {
        var r := items + [NewLine(p)];
        forall a, b | 0 <= a < b < |r| ensures r[a].id != r[b].id {
          if b == |items| {
            assert r[a] == items[a];
          }
        }
      }
    case Remove(id) => RemoveLineKeepsDistinct(items, id);
    case SetQuantity(id, q) =>
      if q < 1 {
        RemoveLineKeepsDistinct(items, id);
      } else {
        WithQuantityKeepsDistinct(items, id, q);
      }
    case Clear =>
  }

  /** Any run of intents keeps line ids distinct. */
  lemma {:induction false} RunKeepsDistinct(items: seq<Line>, intents: seq<Intent>)
    requires Distinct(items)
    ensures Distinct(Run(items, intents))
    decreases |intents|
  {
    if intents != [] {
      NextKeepsDistinct(items, intents[0]);
      RunKeepsDistinct(Next(items, intents[0]), intents[1..]);
    }
  }

  /** `n` calls of `addItem` with the same product on an empty cart leave exactly one
      line, with quantity `n`. */
  lemma {:induction false} AddRepeated(p: Product, n: nat)
    requires n >= 1
    ensures AddTimes([], p, n) == [Line(p.id, p.name, p.price, p.image, n)]
  {
    if n > 1 {
      AddRepeated(p, n - 1);
      var before := [Line(p.id, p.name, p.price, p.image, n - 1)];
      assert before[1..] == [];
      assert Find(before, p.id) == Some(before[0]);
      assert Bump(before, p.id) == [before[0].(quantity := n)] by {
        assert Bump(before[1..], p.id) == [];
      }
      assert AddTimes([], p, n) == AddLine(before, p);
    }
  }

  // ---------------------------------------------------------------------------
  // Count, total and positivity

  lemma {:induction false} CountAppend(a: seq<Line>, b: seq<Line>)
    ensures Count(a + b) == Count(a) + Count(b)
    ensures Total(a + b) == Total(a) + Total(b)
  {
    if a != [] {
      assert (a + b)[1..] == a[1..] + b;
      CountAppend(a[1..], b);
    } else {
      assert a + b == b;
    }
  }

  /** On distinct ids, `addItem` raises the count by one and the total by the unit price of
      the line it bumps (the snapshot price kept in the cart), or of the new product. */
  lemma {:induction false} AddLineAggregates(items: seq<Line>, p: Product)
    requires Distinct(items)
    ensures Count(AddLine(items, p)) == Count(items) + 1
    ensures Total(AddLine(items, p))
         == Total(items) + match Find(items, p.id) case Some(l) => l.price case None => p.price
  {
    if Holds(items, p.id) {
      BumpAggregates(items, p.id);
    } else {
      CountAppend(items, [NewLine(p)]);
    }
  }

  lemma {:induction false} BumpAggregates(items: seq<Line>, id: ProductId)
    requires Distinct(items) && Holds(items, id)
    ensures Count(Bump(items, id)) == Count(items) + 1
    ensures Total(Bump(items, id)) == Total(items) + Find(items, id).value.price
  {
    DistinctTail(items);
    var x, rest := items[0], items[1..];
    var b := Bump(items, id);
    assert b[1..] == Bump(rest, id);
    if x.id == id {
      BumpAbsent(rest, id);
      assert b[0] == x.(quantity := x.quantity + 1);
      assert x.price * (x.quantity + 1) == x.price * x.quantity + x.price;
    } else {
      assert b[0] == x;
      HoldsTail(items, id);
      BumpAggregates(rest, id);
    }
  }

  /** On distinct ids, `removeItem` takes the removed line's quantity off the count and its
      price times quantity off the total; an absent id changes neither. */
  lemma {:induction false} RemoveLineAggregates(items: seq<Line>, id: ProductId)
    requires Distinct(items)
    ensures Count(RemoveLine(items, id))
         == Count(items) - match Find(items, id) case Some(l) => l.quantity case None => 0
    ensures Total(RemoveLine(items, id))
         == Total(items) - match Find(items, id) case Some(l) => l.price * l.quantity case None => 0
  {
    if items != [] {
      DistinctTail(items);
      if items[0].id == id {
        RemoveLineAbsent(items[1..], id);
      } else {
        HoldsTail(items, id);
        RemoveLineAggregates(items[1..], id);
      }
    }
  }

  /** On distinct ids, setting a present line's quantity to `q` moves the count by the
      difference and the total by the price times the difference. */
  lemma {:induction false} WithQuantityAggregates(items: seq<Line>, id: ProductId, q: int)
    requires Distinct(items) && Holds(items, id)
    ensures Count(WithQuantity(items, id, q)) == Count(items) - Find(items, id).value.quantity + q
    ensures Total(WithQuantity(items, id, q))
         == Total(items) - Find(items, id).value.price * Find(items, id).value.quantity
            + Find(items, id).value.price * q
  {
    DistinctTail(items);
    if items[0].id == id {
      WithQuantityAbsent(items[1..], id, q);
    } else {
      HoldsTail(items, id);
      WithQuantityAggregates(items[1..], id, q);
    }
  }

  /** No intent produces a line of quantity below 1 from a cart that has none. */
  lemma NextKeepsPositive(items: seq<Line>, i: Intent)
    requires AllPositive(items)
    ensures AllPositive(Next(items, i))
  {
    match i
    case Add(p) =>
      if Holds(items, p.id) {
        forall k | 0 <= k < |items| ensures Bump(items, p.id)[k].quantity >= 1 {
          BumpAt(items, p.id, k);
        }
      }
    case Remove(id) =>
      var r := RemoveLine(items, id);
      forall k | 0 <= k < |r| ensures r[k].quantity >= 1 {
        RemoveLineMembers(items, id, r[k]);
      }
    case SetQuantity(id, q) =>
      if q < 1 {
        var r := RemoveLine(items, id);
        forall k | 0 <= k < |r| ensures r[k].quantity >= 1 {
          RemoveLineMembers(items, id, r[k]);
        }
      } else {
        forall k | 0 <= k < |items| ensures WithQuantity(items, id, q)[k].quantity >= 1 {
          WithQuantityAt(items, id, q, k);
        }
      }
    case Clear =>
  }

  /** An anonymous visitor adds product A (10.00) twice and product B (5.00) once: three
      items for 25.00. */
  lemma ScenarioTwoAThenB(a: Product, b: Product)
    requires a.id != b.id && a.price == 1000 && b.price == 500
    ensures var cart := Run([], [Add(a), Add(a), Add(b)]);
      cart == [Line(a.id, a.name, 1000, a.image, 2), Line(b.id, b.name, 500, b.image, 1)]
      && Count(cart) == 3 && Total(cart) == 2500
  {
    var one := AddLine([], a);
    assert one == [NewLine(a)];
    var two := AddLine(one, a);
    assert Find(one, a.id).Some?;
    assert two == [NewLine(a).(quantity := 2)];
    assert Find(two, b.id).None?;
    var three := AddLine(two, b);
    assert three == two + [NewLine(b)];
    calc {
      Run([], [Add(a), Add(a), Add(b)]);
      { assert [Add(a), Add(a), Add(b)][1..] == [Add(a), Add(b)]; }
      Run(one, [Add(a), Add(b)]);
      { assert [Add(a), Add(b)][1..] == [Add(b)]; }
      Run(two, [Add(b)]);
      Run(three, []);
    }
    assert Count(three) == 2 + Count(three[1..]);
    assert Total(three) == 2000 + Total(three[1..]);
  }
}
