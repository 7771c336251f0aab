/** The text domain.CanonicalHash digests, and when two requests share it. */
module Canonical {
  import opened Validate
  import opened Aggregation
  import Ordering
  import Text
  import Collections

  predicate LessItem(a: Item, b: Item) {
    Text.Less(a.sku, b.sku)
  }

  lemma ItemsOrdered(items: seq<Item>)
    requires Distinct(items)
    ensures Ordering.TotalOn(Ordering.Elements(items), LessItem)
  {
    Text.LessIsOrder();
  }

  // sort.Slice by SKU on a copy of an aggregated basket.
  function Sorted(items: seq<Item>): (r: seq<Item>)
    requires Distinct(items)
    ensures Ordering.Ascending(r, LessItem)
    ensures forall it :: it in r <==> it in items
  {
    ItemsOrdered(items);
    Ordering.Sort(Ordering.Elements(items), LessItem)
  }

  function Entry(it: Item): string {
    it.sku + ":" + Text.Dec(it.qty) + "|"
  }

  function Body(items: seq<Item>): string {
    if items == [] then "" else Body(items[..|items| - 1]) + Entry(items[|items| - 1])
  }

  // The digested text of sorted lines.
  function TextOf(items: seq<Item>, region: string): string {
    Body(items) + "dest:" + region
  }

  // The string that is digested.
  function Encode(items: seq<Item>, region: string): string
    requires Distinct(items)
  {
    TextOf(Sorted(items), region)
  }

  lemma BodyStep(items: seq<Item>, n: nat)
    requires n < |items|
    ensures Body(items[..n + 1]) == Body(items[..n]) + Entry(items[n])
  {
    Collections.Shorter(items, n);
  }

  lemma AppendEntry(b: string, it: Item)
    ensures b + it.sku + ":" + Text.Dec(it.qty) + "|" == b + Entry(it)
  {
    var d := Text.Dec(it.qty);
    assert b + it.sku + ":" + d + "|" == b + (it.sku + ":" + d + "|");
  }

  // domain.CanonicalHash up to the digest: a string builder filled in a loop over the sorted copy.
  method CanonicalText(items: seq<Item>, region: string) returns (b: string)
    requires Distinct(items)
    ensures b == Encode(items, region)
  {
    var sorted := Sorted(items);
    b := "";
    for n := 0 to |sorted|
      invariant b == Body(sorted[..n])
    {
      var it := sorted[n];
      AppendEntry(b, it);
      BodyStep(sorted, n);
      b := b + it.sku;
      b := b + ":";
      b := b + Text.Dec(it.qty);
      b := b + "|";
    }
    Collections.Whole(sorted);
    b := b + "dest:";
    b := b + region;
  }

  // Parsing back ----------------------------------------------------------------

  lemma Associative(a: string, b: string, c: string)
    ensures a + b + c == a + (b + c)
  {
  }

  lemma {:induction false} BodyFront(items: seq<Item>)
    requires items != []
    ensures Body(items) == Entry(items[0]) + Body(items[1..])
    decreases |items|
  {
    var n := |items| - 1;
    if n == 0 {
      assert items[..0] == [] && items[1..] == [];
    } else {
      var front := items[..n];
      BodyFront(front);
      assert front[1..] == items[1..][..n - 1];
      Associative(Entry(items[0]), Body(front[1..]), Entry(items[n]));
    }
  }

  lemma TextFront(items: seq<Item>, region: string)
    requires items != []
    ensures TextOf(items, region) == Entry(items[0]) + TextOf(items[1..], region)
  {
    BodyFront(items);
    Associative(Entry(items[0]), Body(items[1..]), "dest:");
    Associative(Entry(items[0]), Body(items[1..]) + "dest:", region);
  }

  // The text read from the left: for each line its SKU, a colon, its quantity in decimal, a bar; then
  // the region.
  ghost predicate Reads(text: string, lines: seq<Item>, region: string)
    decreases |lines|
  {
    if lines == [] then text == "dest:" + region
    else exists number, rest :: Opens(text, lines[0], number, rest) && Reads(rest, lines[1..], region)
  }

  predicate Opens(text: string, it: Item, number: string, rest: string) {
    Text.Denotes(number, it.qty) && text == it.sku + ":" + number + "|" + rest
  }

  lemma {:induction false} TextReads(lines: seq<Item>, region: string)
    ensures Reads(TextOf(lines, region), lines, region)
    decreases |lines|
  {
    if lines == [] {
      assert TextOf([], region) == "dest:" + region;
    } else {
      var number, rest := Text.Dec(lines[0].qty), TextOf(lines[1..], region);
      TextFront(lines, region);
      Text.DecDenotes(lines[0].qty);
      TextReads(lines[1..], region);
      assert Opens(TextOf(lines, region), lines[0], number, rest);
    }
  }

  // The lines of items, bytewise by SKU.
  ghost predicate InByteOrder(lines: seq<Item>, items: seq<Item>) {
    && (forall it :: it in lines <==> it in items)
    && (forall i, j | 0 <= i < j < |lines| :: Text.Before(lines[i].sku, lines[j].sku))
  }

  // What is digested, in a caller's terms: the lines in bytewise order of their SKUs, each read as
  // SKU, colon, decimal quantity, bar, and then the region.
  lemma DigestedText(items: seq<Item>, region: string)
    requires Distinct(items)
    ensures exists lines :: InByteOrder(lines, items) && Reads(Encode(items, region), lines, region)
  {
    var lines := Sorted(items);
    forall i, j | 0 <= i < j < |lines| ensures Text.Before(lines[i].sku, lines[j].sku) {
      assert LessItem(lines[i], lines[j]);
      Text.LessIsBefore(lines[i].sku, lines[j].sku);
    }
    assert InByteOrder(lines, items);
    TextReads(lines, region);
  }

  predicate Plain(s: string) {
    ':' !in s && '|' !in s
  }

  predicate PlainItems(items: seq<Item>) {
    forall i | 0 <= i < |items| :: Plain(items[i].sku)
  }

  lemma EntryParses(a: Item, x: string, b: Item, y: string)
    requires Plain(a.sku) && Plain(b.sku)
    requires Entry(a) + x == Entry(b) + y
    ensures a == b && x == y
  {
    var p, q := a.sku + ":" + Text.Dec(a.qty), b.sku + ":" + Text.Dec(b.qty);
    assert Entry(a) + x == p + ['|'] + x && Entry(b) + y == q + ['|'] + y;
    Text.SplitFirst(p, x, q, y, '|');
    Text.SplitFirst(a.sku, Text.Dec(a.qty), b.sku, Text.Dec(b.qty), ':');
    Text.DecInjective(a.qty, b.qty);
  }

  lemma TextHasBar(items: seq<Item>, region: string)
    requires items != []
    ensures '|' in TextOf(items, region)
  {
    TextFront(items, region);
    var e := Entry(items[0]);
    assert e[|e| - 1] == '|';
    assert TextOf(items, region)[|e| - 1] == '|';
  }

  lemma NoLinesNoBar(region: string)
    requires Plain(region)
    ensures TextOf([], region) == "dest:" + region && '|' !in TextOf([], region)
  {
  }

  // The whole text determines the lines, in order, and the region.
  lemma {:induction false} TextParses(a: seq<Item>, ra: string, b: seq<Item>, rb: string)
    requires PlainItems(a) && PlainItems(b) && Plain(ra) && Plain(rb)
    requires TextOf(a, ra) == TextOf(b, rb)
    ensures a == b && ra == rb
    decreases |a|
  {
    NoLinesNoBar(ra);
    NoLinesNoBar(rb);
    if a != [] { TextHasBar(a, ra); }
    if b != [] { TextHasBar(b, rb); }
    if a == [] {
      assert ("dest:" + ra)[5..] == ra && ("dest:" + rb)[5..] == rb;
    } else {
      TextFront(a, ra);
      TextFront(b, rb);
      EntryParses(a[0], TextOf(a[1..], ra), b[0], TextOf(b[1..], rb));
      TextParses(a[1..], ra, b[1..], rb);
    }
  }

  // Same totals, one line per SKU: the same lines, whatever their order.
  lemma SameTotalsSameLines(a: seq<Item>, b: seq<Item>, it: Item)
    requires Distinct(a) && Distinct(b) && SameTotals(a, b) && it in a
    ensures it in b
  {
    var i :| 0 <= i < |a| && a[i] == it;
    assert Mentions(a, it.sku);
    var j :| 0 <= j < |b| && b[j].sku == it.sku;
    TotalDistinct(a, i);
    TotalDistinct(b, j);
  }

  lemma SameLinesSameTotals(a: seq<Item>, b: seq<Item>)
    requires Distinct(a) && Distinct(b)
    requires forall it :: it in a <==> it in b
    ensures SameTotals(a, b)
  {
    DistinctNoRepeats(a);
    DistinctNoRepeats(b);
    Ordering.SameMembersPermute(a, b);
    ReorderKeepsTotals(a, b);
  }

  lemma DistinctNoRepeats(a: seq<Item>)
    requires Distinct(a)
    ensures Ordering.NoRepeats(a)
  {
    assert forall i, j | 0 <= i < j < |a| :: a[i].sku != a[j].sku;
  }

  lemma SortedPlain(items: seq<Item>)
    requires Distinct(items) && PlainItems(items)
    ensures PlainItems(Sorted(items))
  {
    forall i | 0 <= i < |Sorted(items)| ensures Plain(Sorted(items)[i].sku) {
      assert Sorted(items)[i] in items;
    }
  }

  // Two aggregated requests digest the same text exactly when they ask for the same units of the
  // same SKUs to the same region.
  lemma EncodeInjective(a: seq<Item>, ra: string, b: seq<Item>, rb: string)
    requires Distinct(a) && Distinct(b)
    requires PlainItems(a) && PlainItems(b) && Plain(ra) && Plain(rb)
    ensures Encode(a, ra) == Encode(b, rb) <==> SameTotals(a, b) && ra == rb
  {
    if Encode(a, ra) == Encode(b, rb) {
      SortedPlain(a);
      SortedPlain(b);
      TextParses(Sorted(a), ra, Sorted(b), rb);
      assert forall it :: it in a <==> it in Sorted(a);
      SameLinesSameTotals(a, b);
    }
    if SameTotals(a, b) && ra == rb {
      forall it ensures it in a <==> it in b {
        if it in a { SameTotalsSameLines(a, b, it); }
        if it in b { SameTotalsSameLines(b, a, it); }
      }
      assert Ordering.Elements(a) == Ordering.Elements(b);
    }
  }

  lemma ValidIsPlain(items: seq<Item>, region: string)
    requires (forall i | 0 <= i < |items| :: ValidSku(items[i].sku)) && ValidRegion(region)
    ensures PlainItems(items) && Plain(region)
  {
  }

  lemma AdmittedIsPlain(items: seq<Item>, region: string)
    requires ValidItems(items) && ValidRegion(region)
    ensures Distinct(Aggregate(items)) && PlainItems(Aggregate(items)) && Plain(region)
  {
    AggregateTotals(items);
    AggregateBounds(items);
    ValidIsPlain(Aggregate(items), region);
  }

  lemma AggregateSameTotals(a: seq<Item>, b: seq<Item>)
    ensures SameTotals(Aggregate(a), Aggregate(b)) <==> SameTotals(a, b)
  {
    AggregateTotals(a);
    AggregateTotals(b);
  }

  // For the requests the edge accepts: equal digested text, whatever the order of the lines and
  // however a SKU's quantity is split over them, exactly when totals and region agree.
  lemma CanonicalInjective(a: seq<Item>, ra: string, b: seq<Item>, rb: string)
    requires ValidItems(a) && ValidItems(b) && ValidRegion(ra) && ValidRegion(rb)
    ensures Distinct(Aggregate(a)) && Distinct(Aggregate(b))
    ensures Encode(Aggregate(a), ra) == Encode(Aggregate(b), rb) <==> SameTotals(a, b) && ra == rb
  {
    AggregateSameTotals(a, b);
    AdmittedIsPlain(a, ra);
    AdmittedIsPlain(b, rb);
    EncodeInjective(Aggregate(a), ra, Aggregate(b), rb);
  }

  lemma TwoLines(p: Item, q: Item, region: string)
    ensures TextOf([p, q], region) == Entry(p) + Entry(q) + "dest:" + region
    ensures TextOf([p], region) == Entry(p) + "dest:" + region
  {
    assert [p, q][..1] == [p] && [p][..0] == [];
    assert Body([p]) == Entry(p);
    assert Body([p, q]) == Body([p]) + Entry(q);
  }

  lemma SortedAlready(items: seq<Item>)
    requires Distinct(items) && Ordering.Ascending(items, LessItem)
    ensures Sorted(items) == items
  {
    ItemsOrdered(items);
    assert Ordering.Elements(Sorted(items)) == Ordering.Elements(items);
    Ordering.AscendingUnique(items, Sorted(items), LessItem);
  }

  // The region charset is what makes this true: with '|' and ':' allowed in a region, a basket
  // with a SKU called "dest" digests the same text as the basket without it, for every basket line
  // before it, every quantity and every region.
  lemma RegionCharsetMatters(p: Item, q: int, region: string)
    requires Text.Less(p.sku, "dest")
    ensures Distinct([p, Item("dest", q)]) && Distinct([p])
    ensures !SameTotals([p, Item("dest", q)], [p])
    ensures Encode([p, Item("dest", q)], region) == Encode([p], Text.Dec(q) + "|dest:" + region)
  {
    var d := Item("dest", q);
    Text.LessIrreflexive("dest");
    SortedAlready([p, d]);
    SortedAlready([p]);
    TwoLines(p, d, region);
    TwoLines(p, d, Text.Dec(q) + "|dest:" + region);
    DestReads(Entry(p), Text.Dec(q), region);
    assert [p, d][1].sku == "dest" && Mentions([p, d], "dest");
    assert !Mentions([p], "dest");
  }

  lemma DestReads(e: string, q: string, region: string)
    ensures e + ("dest" + ":" + q + "|") + "dest:" + region == e + "dest:" + (q + "|dest:" + region)
  {
    assert e + ("dest" + ":" + q + "|") + "dest:" + region == e + ("dest:" + (q + ("|dest:" + region)));
  }
}
