/** Cover, refusal and shortage said in the columns of the tables alone. */
module Columns {
  import opened Tables
  import opened Posting
  import opened Aggregation
  import opened Commands

  // Cover --------------------------------------------------------------------------------------------

  // Row k exists and has n units beyond what is reserved and what is kept for safety.
  predicate Gives(balances: map<Key, Balance>, k: Key, n: int) {
    k in balances && balances[k].onHand - balances[k].reserved - balances[k].safety >= n
  }

  // Warehouse wh has every line of the basket.
  predicate Serves(balances: map<Key, Balance>, wh: int, items: seq<Item>) {
    forall i | 0 <= i < |items| && items[i].qty > 0 :: Gives(balances, Key(items[i].sku, wh), items[i].qty)
  }

  // Row k exists, and its safety stock is not reserved.
  predicate KeepsSafety(balances: map<Key, Balance>, k: Key) {
    k in balances && balances[k].reserved + balances[k].safety <= balances[k].onHand
  }

  predicate Open(warehouses: map<int, bool>, wh: int) {
    wh in warehouses && warehouses[wh]
  }

  // wh is the least active warehouse that has every line.
  ghost predicate LeastServing(db: Db, wh: int, items: seq<Item>) {
    && Open(db.warehouses, wh) && Serves(db.balances, wh, items)
    && forall v | Open(db.warehouses, v) && Serves(db.balances, v, items) :: wh <= v
  }

  ghost predicate NoneServes(db: Db, items: seq<Item>) {
    forall v | Open(db.warehouses, v) :: !Serves(db.balances, v, items)
  }

  // n is what row k has beyond reserved and safety, and 0 where that is negative or there is no row.
  predicate IsAtp(balances: map<Key, Balance>, k: Key, n: int) {
    if Gives(balances, k, 0) then n == balances[k].onHand - balances[k].reserved - balances[k].safety else n == 0
  }

  lemma AtpIs(balances: map<Key, Balance>, k: Key)
    ensures IsAtp(balances, k, AtpAt(balances, k))
  {
  }

  lemma FulfillsIff(balances: map<Key, Balance>, wh: int, items: seq<Item>)
    ensures Fulfills(balances, wh, items) <==> Serves(balances, wh, items)
  {
    forall i | 0 <= i < |items|
      ensures AtpAt(balances, Key(items[i].sku, wh)) >= items[i].qty
         <==> items[i].qty <= 0 || Gives(balances, Key(items[i].sku, wh), items[i].qty)
    {
      AtpIs(balances, Key(items[i].sku, wh));
    }
  }

  lemma {:induction false} FirstServes(balances: map<Key, Balance>, ids: seq<int>, items: seq<Item>, wh: int)
    requires forall i, j | 0 <= i < j < |ids| :: ids[i] < ids[j]
    requires FirstFulfilling(balances, ids, items) == Some(wh)
    ensures wh in ids && Serves(balances, wh, items)
    ensures forall v | v in ids && Serves(balances, v, items) :: wh <= v
    decreases |ids|
  {
    FulfillsIff(balances, ids[0], items);
    if !Fulfills(balances, ids[0], items) { FirstServes(balances, ids[1..], items, wh); }
  }

  // What the scan of the active warehouses chooses.
  lemma ChoiceIs(db: Db, items: seq<Item>)
    ensures match FirstFulfilling(db.balances, ActiveIds(db.warehouses), items)
            case Some(wh) => LeastServing(db, wh, items)
            case None => NoneServes(db, items)
  {
    var ids := ActiveIds(db.warehouses);
    match FirstFulfilling(db.balances, ids, items)
    case Some(wh) => FirstServes(db.balances, ids, items, wh);
    case None =>
      forall v | Open(db.warehouses, v) ensures !Serves(db.balances, v, items) {
        assert v in ids;
        FulfillsIff(db.balances, v, items);
      }
  }

  lemma FirstIsLeast(db: Db, items: seq<Item>, wh: int)
    requires FirstFulfilling(db.balances, ActiveIds(db.warehouses), items) == Some(wh)
    ensures Active(db, wh) && Fulfills(db.balances, wh, items) && LeastServing(db, wh, items)
  {
    ChoiceIs(db, items);
  }

  // Refusals --------------------------------------------------------------------------------------------

  // The warehouse shortages are counted against: the least active one, or none.
  ghost predicate LeastOpen(warehouses: map<int, bool>, base: Option<int>) {
    match base
    case Some(w) => Open(warehouses, w) && forall v | Open(warehouses, v) :: w <= v
    case None => forall v :: !Open(warehouses, v)
  }

  lemma BaselineIs(warehouses: map<int, bool>)
    ensures LeastOpen(warehouses, Baseline(ActiveIds(warehouses)))
  {
    var ids := ActiveIds(warehouses);
    if ids == [] {
      forall v ensures !Open(warehouses, v) { assert v !in ids; }
    } else {
      assert ids[0] in ids;
      forall v | Open(warehouses, v) ensures ids[0] <= v {
        assert v in ids;
        var i :| 0 <= i < |ids| && ids[i] == v;
      }
    }
  }

  // Some warehouse, active or not, has a row for the SKU.
  predicate HasRow(balances: map<Key, Balance>, sku: string) {
    exists k | k in balances :: k.sku == sku
  }

  // Line it is short in base, which has n of it.
  predicate ShortBy(balances: map<Key, Balance>, base: Option<int>, it: Item, n: int) {
    n < it.qty && match base case Some(w) => IsAtp(balances, Key(it.sku, w), n) case None => n == 0
  }

  // Strictly rising positions of a sequence of length n.
  predicate Rising(at: seq<nat>, n: nat) {
    && (forall j | 0 <= j < |at| :: at[j] < n)
    && (forall i, j | 0 <= i < j < |at| :: at[i] < at[j])
  }

  // Line it is to be listed with n.
  predicate Listed(balances: map<Key, Balance>, base: Option<int>, known: bool, it: Item, n: int) {
    ShortBy(balances, base, it, n) && (known ==> HasRow(balances, it.sku))
  }

  // The entry for line it.
  predicate Entry(balances: map<Key, Balance>, base: Option<int>, known: bool, it: Item, sh: Shortage) {
    sh.sku == it.sku && sh.requested == it.qty && Listed(balances, base, known, it, sh.atp)
  }

  ghost predicate ListedAt(balances: map<Key, Balance>, base: Option<int>, known: bool, items: seq<Item>, out: seq<Shortage>, at: seq<nat>) {
    && |out| == |at| && Rising(at, |items|)
    && (forall j {:trigger out[j]} | 0 <= j < |at| :: Entry(balances, base, known, items[at[j]], out[j]))
    && (forall i, n {:trigger Listed(balances, base, known, items[i], n)} | 0 <= i < |items| && Listed(balances, base, known, items[i], n) :: i in at)
  }

  // The short lines, in request order, each with its SKU, its quantity and what base has; only those
  // with a row somewhere when known is set.
  ghost predicate Lists(balances: map<Key, Balance>, base: Option<int>, known: bool, items: seq<Item>, out: seq<Shortage>) {
    exists at :: ListedAt(balances, base, known, items, out, at)
  }

  // No warehouse has a row for the line's SKU.
  predicate Unheard(balances: map<Key, Balance>, it: Item) {
    !HasRow(balances, it.sku)
  }

  ghost predicate UnknownAt(balances: map<Key, Balance>, items: seq<Item>, out: seq<string>, at: seq<nat>) {
    && |out| == |at| && Rising(at, |items|)
    && (forall j {:trigger out[j]} | 0 <= j < |at| :: out[j] == items[at[j]].sku && Unheard(balances, items[at[j]]))
    && (forall i {:trigger Unheard(balances, items[i])} | 0 <= i < |items| && Unheard(balances, items[i]) :: i in at)
  }

  // The SKUs of the lines that have no row anywhere, in request order.
  ghost predicate ListsUnknown(balances: map<Key, Balance>, items: seq<Item>, out: seq<string>) {
    exists at :: UnknownAt(balances, items, out, at)
  }

  lemma BaseAtpIs(balances: map<Key, Balance>, base: Option<int>, it: Item, n: int)
    ensures ShortBy(balances, base, it, n) <==> n == BaseAtp(balances, base, it.sku) < it.qty
  {
    if base.Some? { AtpIs(balances, Key(it.sku, base.value)); }
  }

  lemma ListNothing(balances: map<Key, Balance>, base: Option<int>, known: bool)
    ensures Lists(balances, base, known, [], [])
    ensures ListsUnknown(balances, [], [])
  {
    assert ListedAt(balances, base, known, [], [], []);
    assert UnknownAt(balances, [], [], []);
  }

  // One more line, listed or not.

  // b is a with x at its end.
  predicate Adds<T(==)>(a: seq<T>, x: T, b: seq<T>) {
    |b| == |a| + 1 && b[|a|] == x && forall i | 0 <= i < |a| :: b[i] == a[i]
  }

  lemma Appended<T>(a: seq<T>, x: T)
    ensures Adds(a, x, a + [x])
  {
  }

  lemma LastAdded<T>(b: seq<T>)
    requires b != []
    ensures Adds(b[..|b| - 1], b[|b| - 1], b)
  {
  }

  lemma Longer(at: seq<nat>, n: nat, more: seq<nat>)
    requires Rising(at, n) && Adds(at, n, more)
    ensures Rising(at, n + 1) && Rising(more, n + 1)
    ensures forall i | i in at :: i in more
    ensures n in more
  {
    forall i | i in at ensures i in more {
      var j :| 0 <= j < |at| && at[j] == i;
      assert more[j] == i;
    }
    assert more[|at|] == n;
  }

  lemma ListSame(balances: map<Key, Balance>, base: Option<int>, known: bool, front: seq<Item>, items: seq<Item>, out: seq<Shortage>, it: Item)
    requires Lists(balances, base, known, front, out) && Adds(front, it, items)
    requires forall n :: !Listed(balances, base, known, it, n)
    ensures Lists(balances, base, known, items, out)
  {
    var at: seq<nat> :| ListedAt(balances, base, known, front, out, at);
    forall j | 0 <= j < |at| ensures Entry(balances, base, known, items[at[j]], out[j]) {
      assert items[at[j]] == front[at[j]];
    }
    forall i, n | 0 <= i < |items| && Listed(balances, base, known, items[i], n) ensures i in at {
      assert i < |front| && items[i] == front[i];
    }
    assert ListedAt(balances, base, known, items, out, at);
  }

  lemma ListMore(balances: map<Key, Balance>, base: Option<int>, known: bool, front: seq<Item>, items: seq<Item>,
                 out: seq<Shortage>, more: seq<Shortage>, it: Item, sh: Shortage)
    requires Lists(balances, base, known, front, out) && Adds(front, it, items) && Adds(out, sh, more)
    requires Entry(balances, base, known, it, sh)
    ensures Lists(balances, base, known, items, more)
  {
    var at: seq<nat> :| ListedAt(balances, base, known, front, out, at);
    var at': seq<nat> := at + [|front|];
    Appended(at, |front|);
    Longer(at, |front|, at');
    forall j | 0 <= j < |at'| ensures Entry(balances, base, known, items[at'[j]], more[j]) {
      if j < |at| { assert more[j] == out[j] && items[at'[j]] == front[at[j]]; }
    }
    forall i, n | 0 <= i < |items| && Listed(balances, base, known, items[i], n) ensures i in at' {
      if i < |front| { assert items[i] == front[i] && i in at; }
    }
    assert ListedAt(balances, base, known, items, more, at');
  }

  lemma UnknownSame(balances: map<Key, Balance>, front: seq<Item>, items: seq<Item>, out: seq<string>, it: Item)
    requires ListsUnknown(balances, front, out) && Adds(front, it, items) && !Unheard(balances, it)
    ensures ListsUnknown(balances, items, out)
  {
    var at: seq<nat> :| UnknownAt(balances, front, out, at);
    forall j | 0 <= j < |at| ensures out[j] == items[at[j]].sku && Unheard(balances, items[at[j]]) {
      assert items[at[j]] == front[at[j]];
    }
    forall i | 0 <= i < |items| && Unheard(balances, items[i]) ensures i in at {
      assert i < |front| && items[i] == front[i];
    }
    assert UnknownAt(balances, items, out, at);
  }

  lemma UnknownMore(balances: map<Key, Balance>, front: seq<Item>, items: seq<Item>, out: seq<string>, more: seq<string>, it: Item)
    requires ListsUnknown(balances, front, out) && Adds(front, it, items) && Adds(out, it.sku, more) && Unheard(balances, it)
    ensures ListsUnknown(balances, items, more)
  {
    var at: seq<nat> :| UnknownAt(balances, front, out, at);
    var at': seq<nat> := at + [|front|];
    Appended(at, |front|);
    Longer(at, |front|, at');
    forall j | 0 <= j < |at'| ensures more[j] == items[at'[j]].sku && Unheard(balances, items[at'[j]]) {
      if j < |at| { assert more[j] == out[j] && items[at'[j]] == front[at[j]]; }
    }
    forall i | 0 <= i < |items| && Unheard(balances, items[i]) ensures i in at' {
      if i < |front| { assert items[i] == front[i] && i in at; }
    }
    assert UnknownAt(balances, items, more, at');
  }

  // One step of a list of shortages.
  lemma ListStep(balances: map<Key, Balance>, base: Option<int>, known: bool, front: seq<Item>, items: seq<Item>,
                 out: seq<Shortage>, it: Item, atp: int)
    requires Lists(balances, base, known, front, out) && Adds(front, it, items) && atp == BaseAtp(balances, base, it.sku)
    ensures Lists(balances, base, known, items,
                  out + if atp < it.qty && (known ==> HasRow(balances, it.sku)) then [Shortage(it.sku, it.qty, atp)] else [])
  {
    if atp < it.qty && (known ==> HasRow(balances, it.sku)) {
      BaseAtpIs(balances, base, it, atp);
      Appended(out, Shortage(it.sku, it.qty, atp));
      ListMore(balances, base, known, front, items, out, out + [Shortage(it.sku, it.qty, atp)], it, Shortage(it.sku, it.qty, atp));
    } else {
      forall n ensures !Listed(balances, base, known, it, n) { BaseAtpIs(balances, base, it, n); }
      ListSame(balances, base, known, front, items, out, it);
      assert out + [] == out;
    }
  }

  lemma {:induction false} ShortagesAre(balances: map<Key, Balance>, base: Option<int>, items: seq<Item>)
    ensures Lists(balances, base, false, items, Shortages(balances, base, items))
  {
    if items == [] {
      ListNothing(balances, base, false);
    } else {
      var front, it := items[..|items| - 1], items[|items| - 1];
      ShortagesAre(balances, base, front);
      LastAdded(items);
      ListStep(balances, base, false, front, items, Shortages(balances, base, front), it, BaseAtp(balances, base, it.sku));
    }
  }

  lemma UnknownStep(balances: map<Key, Balance>, front: seq<Item>, items: seq<Item>, out: seq<string>, it: Item)
    requires ListsUnknown(balances, front, out) && Adds(front, it, items)
    ensures ListsUnknown(balances, items, out + if HasRow(balances, it.sku) then [] else [it.sku])
  {
    if HasRow(balances, it.sku) {
      UnknownSame(balances, front, items, out, it);
      assert out + [] == out;
    } else {
      Appended(out, it.sku);
      UnknownMore(balances, front, items, out, out + [it.sku], it);
    }
  }

  lemma {:induction false} UntrackedAre(db: Db, items: seq<Item>)
    ensures ListsUnknown(db.balances, items, Untracked(db, items))
  {
    if items == [] {
      ListNothing(db.balances, None, false);
    } else {
      var front, it := items[..|items| - 1], items[|items| - 1];
      UntrackedAre(db, front);
      LastAdded(items);
      UnknownStep(db.balances, front, items, Untracked(db, front), it);
    }
  }

  // The lines the least active warehouse is short of.
  ghost predicate ShortInLeast(db: Db, items: seq<Item>, short: seq<Shortage>) {
    exists base :: LeastOpen(db.warehouses, base) && Lists(db.balances, base, false, items, short)
  }

  // A refused basket: no active warehouse has it; the answer names the SKUs without a row anywhere, or
  // else the lines the least active warehouse is short of.
  ghost predicate RightlyRefused(db: Db, items: seq<Item>, why: Failure) {
    && NoneServes(db, items)
    && match why
       case UnknownSku(skus) => skus != [] && ListsUnknown(db.balances, items, skus)
       case InsufficientStock(short) =>
         ListsUnknown(db.balances, items, []) && ShortInLeast(db, items, short)
       case _ => false
  }

  lemma ShortInLeastIs(db: Db, items: seq<Item>)
    ensures ShortInLeast(db, items, Shortages(db.balances, Baseline(ActiveIds(db.warehouses)), items))
  {
    BaselineIs(db.warehouses);
    ShortagesAre(db.balances, Baseline(ActiveIds(db.warehouses)), items);
  }

  lemma RefusalIs(db: Db, items: seq<Item>)
    requires FirstFulfilling(db.balances, ActiveIds(db.warehouses), items) == None
    ensures RightlyRefused(db, items, Classify(db, items, Shortages(db.balances, Baseline(ActiveIds(db.warehouses)), items)))
  {
    ChoiceIs(db, items);
    UntrackedAre(db, items);
    ShortInLeastIs(db, items);
  }
}
