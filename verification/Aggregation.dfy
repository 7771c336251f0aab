/** Summing duplicate SKU lines: domain.AggregateLines and the two edge loops around it. */
module Aggregation {
  import opened Validate
  import Collections

  datatype Item = Item(sku: string, qty: int)

  predicate Distinct(items: seq<Item>) {
    forall i, j | 0 <= i < j < |items| :: items[i].sku != items[j].sku
  }

  // The first position from i on that carries sku; |items| when there is none.
  function FindFrom(items: seq<Item>, sku: string, i: nat): (r: nat)
    requires i <= |items|
    ensures i <= r <= |items|
    ensures r < |items| ==> items[r].sku == sku
    ensures forall j | i <= j < r :: items[j].sku != sku
    decreases |items| - i
  {
    if i == |items| || items[i].sku == sku then i else FindFrom(items, sku, i + 1)
  }

  function Find(items: seq<Item>, sku: string): (i: nat)
    ensures i <= |items|
    ensures i < |items| ==> items[i].sku == sku
    ensures forall j | 0 <= j < i :: items[j].sku != sku
  {
    FindFrom(items, sku, 0)
  }

  lemma FindIs(items: seq<Item>, sku: string, i: nat)
    requires i <= |items| && (i < |items| ==> items[i].sku == sku)
    requires forall j | 0 <= j < i :: items[j].sku != sku
    ensures Find(items, sku) == i
  {
  }

  predicate Mentions(items: seq<Item>, sku: string) {
    exists i | 0 <= i < |items| :: items[i].sku == sku
  }

  // Units requested of one SKU over all lines.
  function Total(items: seq<Item>, sku: string): int {
    if items == [] then 0
    else
      var n := |items| - 1;
      Total(items[..n], sku) + if items[n].sku == sku then items[n].qty else 0
  }

  // Two baskets asking for the same units of the same SKUs.
  ghost predicate SameTotals(a: seq<Item>, b: seq<Item>) {
    forall s :: (Mentions(a, s) <==> Mentions(b, s)) && Total(a, s) == Total(b, s)
  }

  // One more line merged into an aggregated list.
  function Absorb(out: seq<Item>, it: Item): seq<Item> {
    var i := Find(out, it.sku);
    if i < |out| then out[i := Item(it.sku, out[i].qty + it.qty)] else out + [it]
  }

  function Aggregate(items: seq<Item>): seq<Item> {
    if items == [] then []
    else Absorb(Aggregate(items[..|items| - 1]), items[|items| - 1])
  }

  // The index has the SKU iff the output has, and then its position.
  predicate IndexAt(index: map<string, int>, out: seq<Item>, s: string) {
    if s in index then index[s] == Find(out, s) < |out| else Find(out, s) == |out|
  }

  // The index map of both loops: SKU to its position in the output.
  ghost predicate Indexed(index: map<string, int>, out: seq<Item>) {
    forall s :: IndexAt(index, out, s)
  }

  // A SKU seen before: its line is where the index says, and no position moves.
  lemma IndexHit(index: map<string, int>, out: seq<Item>, it: Item)
    requires Indexed(index, out) && it.sku in index
    ensures 0 <= index[it.sku] < |out|
    ensures Absorb(out, it) == out[index[it.sku] := Item(out[index[it.sku]].sku, out[index[it.sku]].qty + it.qty)]
    ensures Indexed(index, Absorb(out, it))
  {
    var r := Absorb(out, it);
    assert IndexAt(index, out, it.sku);
    forall s ensures IndexAt(index, r, s) {
      assert IndexAt(index, out, s);
      assert forall j | 0 <= j < |out| :: r[j].sku == out[j].sku;
      FindIs(r, s, Find(out, s));
    }
  }

  // A new SKU goes to the end.
  lemma IndexMiss(index: map<string, int>, out: seq<Item>, it: Item)
    requires Indexed(index, out) && it.sku !in index
    ensures Absorb(out, it) == out + [it]
    ensures Indexed(index[it.sku := |out|], out + [it])
  {
    var r, index' := out + [it], index[it.sku := |out|];
    assert IndexAt(index, out, it.sku);
    forall s ensures IndexAt(index', r, s) {
      assert IndexAt(index, out, s);
      assert forall j | 0 <= j < |out| :: r[j].sku == out[j].sku;
      FindIs(r, s, if s == it.sku || Find(out, s) < |out| then Find(out, s) else |r|);
    }
  }

  // One round of either loop keeps the aggregate and its index.

  lemma RoundHit(items: seq<Item>, n: nat, index: map<string, int>, out: seq<Item>)
    requires n < |items| && out == Aggregate(items[..n]) && Indexed(index, out) && items[n].sku in index
    ensures 0 <= index[items[n].sku] < |out|
    ensures var i := index[items[n].sku];
            var out' := out[i := Item(out[i].sku, out[i].qty + items[n].qty)];
            out' == Aggregate(items[..n + 1]) && Indexed(index, out')
  {
    Collections.Shorter(items, n);
    IndexHit(index, out, items[n]);
  }

  lemma RoundMiss(items: seq<Item>, n: nat, index: map<string, int>, out: seq<Item>)
    requires n < |items| && out == Aggregate(items[..n]) && Indexed(index, out) && items[n].sku !in index
    ensures out + [items[n]] == Aggregate(items[..n + 1]) && Indexed(index[items[n].sku := |out|], out + [items[n]])
  {
    Collections.Shorter(items, n);
    IndexMiss(index, out, items[n]);
  }

  // domain.AggregateLines: an index map over the output slice.
  method AggregateLines(items: seq<Item>) returns (out: seq<Item>)
    ensures out == Aggregate(items)
  {
    out := [];
    var index: map<string, int> := map[];
    for n := 0 to |items|
      invariant out == Aggregate(items[..n]) && Indexed(index, out)
    {
      var it := items[n];
      if it.sku in index {
        RoundHit(items, n, index, out);
        var i := index[it.sku];
        out := out[i := Item(out[i].sku, out[i].qty + it.qty)];
      } else {
        RoundMiss(items, n, index, out);
        index := index[it.sku := |out|];
        out := out + [it];
      }
    }
    Collections.Whole(items);
  }

  predicate ValidItem(it: Item) {
    1 <= it.qty <= MAX_QUANTITY && ValidSku(it.sku)
  }

  predicate AllValid(items: seq<Item>) {
    forall i | 0 <= i < |items| :: ValidItem(items[i])
  }

  lemma AllValidStep(items: seq<Item>, n: nat)
    requires n < |items| && AllValid(items[..n])
    ensures AllValid(items[..n + 1]) <==> ValidItem(items[n])
    ensures !ValidItem(items[n]) ==> !AllValid(items)
  {
    assert forall i | 0 <= i < n :: items[..n + 1][i] == items[..n][i];
    assert items[..n + 1][n] == items[n];
  }

  // What both edges accept: 1..100 lines, each with a bounded quantity and a valid SKU.
  predicate ValidItems(items: seq<Item>) {
    1 <= |items| <= MAX_CHECK_ITEMS && AllValid(items)
  }

  // reservationLines: validate and convert, no aggregation.
  method ReservationLines(items: seq<Item>) returns (ok: bool, out: seq<Item>)
    ensures ok <==> ValidItems(items)
    ensures ok <==> 1 <= |items| <= 100 && forall i | 0 <= i < |items| :: 1 <= items[i].qty <= 10_000 && ValidSku(items[i].sku)
    ensures ok ==> out == items
  {
    out := [];
    if |items| == 0 || |items| > MAX_CHECK_ITEMS {
      return false, [];
    }
    for n := 0 to |items|
      invariant out == items[..n]
      invariant forall i | 0 <= i < n :: ValidItem(items[i])
    {
      var it := items[n];
      if it.qty <= 0 || it.qty > MAX_QUANTITY {
        return false, [];
      }
      if !ValidSku(it.sku) {
        return false, [];
      }
      out := out + [it];
    }
    ok := true;
  }

  // The inline loop of the gRPC CheckAvailability: validation and aggregation in one pass.
  // It accepts what ReservationLines accepts and aggregates as AggregateLines does.
  method CheckItems(items: seq<Item>) returns (ok: bool, out: seq<Item>)
    ensures ok <==> ValidItems(items)
    ensures ok <==> 1 <= |items| <= 100 && forall i | 0 <= i < |items| :: 1 <= items[i].qty <= 10_000 && ValidSku(items[i].sku)
    ensures ok ==> out == Aggregate(items)
  {
    out := [];
    if |items| == 0 || |items| > MAX_CHECK_ITEMS {
      return false, [];
    }
    var index: map<string, int> := map[];
    for n := 0 to |items|
      invariant AllValid(items[..n])
      invariant out == Aggregate(items[..n]) && Indexed(index, out)
    {
      var it := items[n];
      AllValidStep(items, n);
      if it.qty <= 0 || it.qty > MAX_QUANTITY {
        return false, [];
      }
      if !ValidSku(it.sku) {
        return false, [];
      }
      if it.sku in index {
        RoundHit(items, n, index, out);
        var i := index[it.sku];
        out := out[i := Item(out[i].sku, out[i].qty + it.qty)];
      } else {
        RoundMiss(items, n, index, out);
        index := index[it.sku := |out|];
        out := out + [it];
      }
    }
    Collections.Whole(items);
    ok := true;
  }

  // Properties of the aggregation ---------------------------------------------

  lemma {:induction false} TotalAppend(a: seq<Item>, b: seq<Item>, sku: string)
    ensures Total(a + b, sku) == Total(a, sku) + Total(b, sku)
  {
    if b == [] {
      assert a + b == a;
    } else {
      assert (a + b)[..|a + b| - 1] == a + b[..|b| - 1];
      TotalAppend(a, b[..|b| - 1], sku);
    }
  }

  lemma TotalAt(items: seq<Item>, i: nat, q: int, sku: string)
    requires i < |items|
    ensures Total(items[i := Item(items[i].sku, q)], sku)
         == Total(items, sku) + if items[i].sku == sku then q - items[i].qty else 0
  {
    var x, y := items[..i], items[i + 1..];
    var it, it' := items[i], Item(items[i].sku, q);
    assert items == x + ([it] + y) && items[i := it'] == x + ([it'] + y);
    TotalAppend(x, [it] + y, sku);
    TotalAppend(x, [it'] + y, sku);
    TotalAppend([it], y, sku);
    TotalAppend([it'], y, sku);
    assert [it][..0] == [] && [it'][..0] == [];
  }

  lemma AbsorbKeeps(out: seq<Item>, it: Item)
    requires Distinct(out)
    ensures Distinct(Absorb(out, it))
    ensures forall s :: Total(Absorb(out, it), s) == Total(out, s) + if it.sku == s then it.qty else 0
    ensures forall s :: Mentions(Absorb(out, it), s) <==> Mentions(out, s) || s == it.sku
  {
    var i, r := Find(out, it.sku), Absorb(out, it);
    forall s ensures Total(r, s) == Total(out, s) + if it.sku == s then it.qty else 0 {
      if i < |out| {
        TotalAt(out, i, out[i].qty + it.qty, s);
      } else {
        assert r[..|out|] == out;
      }
    }
    forall s ensures Mentions(r, s) <==> Mentions(out, s) || s == it.sku {
      if Mentions(out, s) {
        var j :| 0 <= j < |out| && out[j].sku == s;
        assert r[j].sku == s;
      }
      if s == it.sku { assert r[i].sku == s; }
      if Mentions(r, s) && s != it.sku {
        var j :| 0 <= j < |r| && r[j].sku == s;
        assert out[j].sku == s;
      }
    }
  }

  lemma MentionsSnoc(items: seq<Item>, n: nat, s: string)
    requires |items| == n + 1
    ensures Mentions(items, s) <==> Mentions(items[..n], s) || s == items[n].sku
  {
    if Mentions(items[..n], s) {
      var j :| 0 <= j < n && items[..n][j].sku == s;
      assert items[j].sku == s;
    }
    if s == items[n].sku { assert Mentions(items, s); }
    if Mentions(items, s) && s != items[n].sku {
      var j :| 0 <= j < |items| && items[j].sku == s;
      assert items[..n][j].sku == s;
    }
  }

  // One line per SKU, and no unit of demand lost or invented.
  lemma {:induction false} AggregateTotals(items: seq<Item>)
    ensures Distinct(Aggregate(items))
    ensures SameTotals(Aggregate(items), items)
  {
    if items != [] {
      var n := |items| - 1;
      AggregateTotals(items[..n]);
      AbsorbKeeps(Aggregate(items[..n]), items[n]);
      forall s ensures Mentions(items, s) <==> Mentions(items[..n], s) || s == items[n].sku {
        MentionsSnoc(items, n, s);
      }
    }
  }

  lemma FindPrefix(items: seq<Item>, n: nat, sku: string)
    requires n <= |items|
    ensures Find(items[..n], sku) < n ==> Find(items, sku) == Find(items[..n], sku)
    ensures Find(items[..n], sku) == n ==> Find(items, sku) >= n
  {
    var i, j := Find(items[..n], sku), Find(items, sku);
    assert forall k | 0 <= k < n :: items[..n][k] == items[k];
  }

  // The lines of r stand in the order in which items first mentions their SKUs.
  ghost predicate FirstSeenOrder(items: seq<Item>, r: seq<Item>) {
    && (forall i | 0 <= i < |r| :: Find(items, r[i].sku) < |items|)
    && (forall i, j | 0 <= i < j < |r| :: Find(items, r[i].sku) < Find(items, r[j].sku))
  }

  // A SKU new to the output is new to the lines read so far.
  lemma NewSkuSeenNow(items: seq<Item>, n: nat)
    requires n < |items| && Find(Aggregate(items[..n]), items[n].sku) == |Aggregate(items[..n])|
    ensures Find(items, items[n].sku) == n
  {
    var s := items[n].sku;
    AggregateTotals(items[..n]);
    assert !Mentions(Aggregate(items[..n]), s);
    assert !Mentions(items[..n], s);
    FindIs(items[..n], s, n);
    FindPrefix(items, n, s);
  }

  lemma OrderOfPrefix(items: seq<Item>, n: nat, r: seq<Item>)
    requires n <= |items| && FirstSeenOrder(items[..n], r)
    ensures FirstSeenOrder(items, r)
    ensures forall i | 0 <= i < |r| :: Find(items, r[i].sku) < n
  {
    forall i | 0 <= i < |r| ensures Find(items, r[i].sku) == Find(items[..n], r[i].sku) < n {
      FindPrefix(items, n, r[i].sku);
    }
  }

  // Lines come out in the order their SKUs were first seen.
  lemma {:induction false} AggregateOrder(items: seq<Item>)
    ensures FirstSeenOrder(items, Aggregate(items))
  {
    if items != [] {
      var n := |items| - 1;
      var prev := Aggregate(items[..n]);
      AggregateOrder(items[..n]);
      OrderOfPrefix(items, n, prev);
      if Find(prev, items[n].sku) == |prev| {
        NewSkuSeenNow(items, n);
      } else {
        assert forall i | 0 <= i < |prev| :: Aggregate(items)[i].sku == prev[i].sku;
      }
    }
  }

  // Aggregating an aggregated basket changes nothing, so the hash the transport checks and the
  // hash the repository stores are taken over the same lines however often they are aggregated.
  lemma {:induction false} AggregateIdempotent(items: seq<Item>)
    requires Distinct(items)
    ensures Aggregate(items) == items
  {
    if items != [] {
      var n := |items| - 1;
      AggregateIdempotent(items[..n]);
      FindIs(items[..n], items[n].sku, n);
      assert items == items[..n] + [items[n]];
    }
  }

  lemma {:induction false} TotalBound(items: seq<Item>, sku: string)
    requires forall i | 0 <= i < |items| :: 1 <= items[i].qty <= MAX_QUANTITY
    ensures 0 <= Total(items, sku) <= |items| * MAX_QUANTITY
    ensures Mentions(items, sku) ==> Total(items, sku) >= 1
  {
    if items != [] {
      var n := |items| - 1;
      TotalBound(items[..n], sku);
      if Mentions(items, sku) && items[n].sku != sku {
        var j :| 0 <= j < |items| && items[j].sku == sku;
        assert items[..n][j].sku == sku;
      }
    }
  }

  lemma {:induction false} TotalDistinct(items: seq<Item>, i: nat)
    requires Distinct(items) && i < |items|
    ensures Total(items, items[i].sku) == items[i].qty
  {
    var n := |items| - 1;
    if i < n {
      TotalDistinct(items[..n], i);
    } else {
      TotalAbsent(items[..n], items[n].sku);
    }
  }

  lemma {:induction false} TotalAbsent(items: seq<Item>, sku: string)
    requires forall i | 0 <= i < |items| :: items[i].sku != sku
    ensures Total(items, sku) == 0
  {
    if items != [] { TotalAbsent(items[..|items| - 1], sku); }
  }

  // A basket either edge accepts aggregates to lines of at most 100 * 10_000 units: int64 sums
  // cannot overflow, and every line still asks for at least one unit of a valid SKU.
  lemma AggregateBounds(items: seq<Item>)
    requires ValidItems(items)
    ensures |Aggregate(items)| >= 1
    ensures forall i | 0 <= i < |Aggregate(items)| ::
              1 <= Aggregate(items)[i].qty <= 1_000_000 && ValidSku(Aggregate(items)[i].sku)
  {
    var r := Aggregate(items);
    AggregateTotals(items);
    forall i | 0 <= i < |r| ensures 1 <= r[i].qty <= MAX_CHECK_ITEMS * MAX_QUANTITY && ValidSku(r[i].sku) {
      var s := r[i].sku;
      assert Mentions(r, s);
      TotalDistinct(r, i);
      TotalBound(items, s);
      var j :| 0 <= j < |items| && items[j].sku == s;
      assert ValidItem(items[j]);
    }
    assert Mentions(items, items[0].sku);
    assert Mentions(r, items[0].sku);
  }

  // Reordering lines does not change the totals.
  lemma {:induction false} ReorderKeepsTotals(a: seq<Item>, b: seq<Item>)
    requires multiset(a) == multiset(b)
    ensures SameTotals(a, b)
  {
    forall s ensures Total(a, s) == Total(b, s) { ReorderTotal(a, b, s); }
    forall s ensures Mentions(a, s) <==> Mentions(b, s) {
      if Mentions(a, s) { ReorderMentions(a, b, s); }
      if Mentions(b, s) { ReorderMentions(b, a, s); }
    }
  }

  lemma ReorderMentions(a: seq<Item>, b: seq<Item>, s: string)
    requires multiset(a) == multiset(b) && Mentions(a, s)
    ensures Mentions(b, s)
  {
    var i :| 0 <= i < |a| && a[i].sku == s;
    assert a[i] in multiset(a);
    assert a[i] in b;
    var j :| 0 <= j < |b| && b[j] == a[i];
  }

  lemma CutOut(b: seq<Item>, j: nat)
    requires j < |b|
    ensures b == b[..j] + ([b[j]] + b[j + 1..])
  {
  }

  lemma MultisetWithout(b: seq<Item>, j: nat)
    requires j < |b|
    ensures multiset(b[..j] + b[j + 1..]) == multiset(b) - multiset{b[j]}
  {
    CutOut(b, j);
  }

  lemma TotalWithout(b: seq<Item>, j: nat, s: string)
    requires j < |b|
    ensures Total(b, s) == Total(b[..j] + b[j + 1..], s) + if b[j].sku == s then b[j].qty else 0
  {
    var x, y := b[..j], b[j + 1..];
    CutOut(b, j);
    TotalAppend(x, [b[j]] + y, s);
    TotalAppend([b[j]], y, s);
    TotalAppend(x, y, s);
    assert [b[j]][..0] == [];
  }

  lemma {:induction false} ReorderTotal(a: seq<Item>, b: seq<Item>, s: string)
    requires multiset(a) == multiset(b)
    ensures Total(a, s) == Total(b, s)
    decreases |a|
  {
    if a == [] {
      assert |b| == |multiset(b)|;
    } else {
      var n := |a| - 1;
      assert a[n] in multiset(a);
      assert a[n] in b;
      var j :| 0 <= j < |b| && b[j] == a[n];
      TotalWithout(b, j, s);
      TotalWithout(a, n, s);
      MultisetWithout(b, j);
      MultisetWithout(a, n);
      assert a[..n] + a[n + 1..] == a[..n];
      ReorderTotal(a[..n], b[..j] + b[j + 1..], s);
    }
  }

  // Splitting one line's quantity over two lines of the same SKU does not change the totals.
  lemma SplitKeepsTotals(a: seq<Item>, sku: string, p: int, q: int, b: seq<Item>)
    ensures SameTotals(a + [Item(sku, p + q)] + b, a + [Item(sku, p), Item(sku, q)] + b)
  {
    var one, two := [Item(sku, p + q)], [Item(sku, p), Item(sku, q)];
    forall s ensures Total(a + one + b, s) == Total(a + two + b, s) {
      TotalAppend(a + one, b, s);
      TotalAppend(a, one, s);
      TotalAppend(a + two, b, s);
      TotalAppend(a, two, s);
      TotalAppend([two[0]], [two[1]], s);
      assert two == [two[0]] + [two[1]];
      assert one[..0] == [] && [two[0]][..0] == [] && [two[1]][..0] == [];
    }
    forall s ensures Mentions(a + one + b, s) <==> Mentions(a + two + b, s) {
      MentionsAppend(a + one, b, s);
      MentionsAppend(a, one, s);
      MentionsAppend(a + two, b, s);
      MentionsAppend(a, two, s);
      assert one[0].sku == sku && two[0].sku == sku;
    }
  }

  lemma MentionsAppend(a: seq<Item>, b: seq<Item>, s: string)
    ensures Mentions(a + b, s) <==> Mentions(a, s) || Mentions(b, s)
  {
    if Mentions(a, s) {
      var i :| 0 <= i < |a| && a[i].sku == s;
      assert (a + b)[i].sku == s;
    }
    if Mentions(b, s) {
      var i :| 0 <= i < |b| && b[i].sku == s;
      assert (a + b)[|a| + i].sku == s;
    }
    if Mentions(a + b, s) {
      var i :| 0 <= i < |a + b| && (a + b)[i].sku == s;
      if i < |a| { assert a[i].sku == s; } else { assert b[i - |a|].sku == s; }
    }
  }
}
