/** internal/core/repository/reservations.go, statement by statement, with nothing running beside it. */
module Database {
  import opened Tables

  // The connection pool: every repository works on the same committed tables.
  class Pool {
    var db: Db

    constructor (warehouses: map<int, bool>)
      ensures db == EmptyDb(warehouses)
    {
      db := EmptyDb(warehouses);
    }
  }
}

module Reservations {
  import opened Tables
  import opened Posting
  import opened Aggregation
  import opened Commands
  import opened Columns
  import Collections

  // Go's map read: the zero value when the key is absent.
  function Get(m: map<string, int>, s: string): int {
    if s in m then m[s] else 0
  }

  function ShortagesIn(atp: map<string, int>, items: seq<Item>): seq<Shortage> {
    if items == [] then []
    else
      var it := items[|items| - 1];
      ShortagesIn(atp, items[..|items| - 1])
      + if Get(atp, it.sku) < it.qty then [Shortage(it.sku, it.qty, Get(atp, it.sku))] else []
  }

  // The map holds the warehouse's ATP for every requested SKU.
  ghost predicate Snapshot(balances: map<Key, Balance>, wh: Option<int>, items: seq<Item>, atp: map<string, int>) {
    forall i | 0 <= i < |items| :: Get(atp, items[i].sku) == BaseAtp(balances, wh, items[i].sku)
  }

  lemma {:induction false} SnapshotShortages(balances: map<Key, Balance>, wh: Option<int>, items: seq<Item>, atp: map<string, int>)
    requires Snapshot(balances, wh, items, atp)
    ensures ShortagesIn(atp, items) == Shortages(balances, wh, items)
  {
    if items != [] {
      var n := |items| - 1;
      assert forall i | 0 <= i < n :: items[..n][i] == items[i];
      SnapshotShortages(balances, wh, items[..n], atp);
    }
  }

  lemma {:induction false} NoShortage(balances: map<Key, Balance>, wh: int, items: seq<Item>)
    ensures Shortages(balances, Some(wh), items) == [] <==> Fulfills(balances, wh, items)
  {
    if items != [] {
      var n := |items| - 1;
      NoShortage(balances, wh, items[..n]);
      assert forall i | 0 <= i < n :: items[..n][i] == items[i];
    }
  }

  // fulfillsLines
  method FulfillsLines(atp: map<string, int>, items: seq<Item>) returns (ok: bool)
    ensures ok <==> forall i | 0 <= i < |items| :: Get(atp, items[i].sku) >= items[i].qty
  {
    for n := 0 to |items|
      invariant forall i | 0 <= i < n :: Get(atp, items[i].sku) >= items[i].qty
    {
      if Get(atp, items[n].sku) < items[n].qty {
        return false;
      }
    }
    return true;
  }

  // shortagesAgainst
  method ShortagesAgainst(base: map<string, int>, items: seq<Item>) returns (out: seq<Shortage>)
    ensures out == ShortagesIn(base, items)
  {
    out := [];
    for n := 0 to |items|
      invariant out == ShortagesIn(base, items[..n])
    {
      var it := items[n];
      var atp := Get(base, it.sku);
      Collections.Shorter(items, n);
      if atp < it.qty {
        out := out + [Shortage(it.sku, it.qty, atp)];
      }
    }
    Collections.Whole(items);
  }

  // The fold of the joined rows into nested maps.
  method FoldRows(balances: map<Key, Balance>, joined: set<Key>) returns (byWarehouse: map<int, map<string, int>>)
    requires joined <= balances.Keys
    ensures forall w, s :: w in byWarehouse && s in byWarehouse[w] <==> Key(s, w) in joined
    ensures forall w, s | w in byWarehouse && s in byWarehouse[w] :: byWarehouse[w][s] == AtpAt(balances, Key(s, w))
  {
    byWarehouse := map[];
    var rows := joined;
    while rows != {}
      invariant rows <= joined
      invariant forall w, s :: w in byWarehouse && s in byWarehouse[w] <==> Key(s, w) in joined - rows
      invariant forall w, s | w in byWarehouse && s in byWarehouse[w] :: byWarehouse[w][s] == AtpAt(balances, Key(s, w))
      decreases rows
    {
      var k :| k in rows;
      if k.wh !in byWarehouse {
        byWarehouse := byWarehouse[k.wh := map[]];
      }
      byWarehouse := byWarehouse[k.wh := byWarehouse[k.wh][k.sku := balances[k].Atp()]];
      rows := rows - {k};
    }
  }

  // activeATPSnapshot: the active ids and the joined balance rows, folded into nested maps.
  method ActiveAtpSnapshot(tx: Db, items: seq<Item>) returns (byWarehouse: map<int, map<string, int>>, activeIds: seq<int>)
    ensures activeIds == ActiveIds(tx.warehouses)
    ensures forall w | w in activeIds ::
              Snapshot(tx.balances, Some(w), items, if w in byWarehouse then byWarehouse[w] else map[])
    ensures forall w, i | w in activeIds && 0 <= i < |items| ::
              w in byWarehouse && items[i].sku in byWarehouse[w] <==> Key(items[i].sku, w) in tx.balances
    ensures forall w, i | w in activeIds && 0 <= i < |items| ::
              IsAtp(tx.balances, Key(items[i].sku, w), Get(if w in byWarehouse then byWarehouse[w] else map[], items[i].sku))
  {
    activeIds := ActiveIds(tx.warehouses);
    var joined := set k | k in tx.balances && Active(tx, k.wh) && Mentions(items, k.sku);
    byWarehouse := FoldRows(tx.balances, joined);
    forall w, i | w in activeIds && 0 <= i < |items|
      ensures Get(if w in byWarehouse then byWarehouse[w] else map[], items[i].sku) == AtpAt(tx.balances, Key(items[i].sku, w))
      ensures IsAtp(tx.balances, Key(items[i].sku, w), AtpAt(tx.balances, Key(items[i].sku, w)))
      ensures w in byWarehouse && items[i].sku in byWarehouse[w] <==> Key(items[i].sku, w) in tx.balances
    {
      assert Mentions(items, items[i].sku);
      assert Key(items[i].sku, w) in joined <==> Key(items[i].sku, w) in tx.balances;
      AtpIs(tx.balances, Key(items[i].sku, w));
    }
  }

  // lockWarehouseATP: the rows of the chosen warehouse that exist, in (warehouse_id, sku_id) order.
  method LockWarehouseAtp(tx: Db, wh: int, items: seq<Item>) returns (atp: map<string, int>)
    ensures Snapshot(tx.balances, Some(wh), items, atp)
    ensures forall i | 0 <= i < |items| :: IsAtp(tx.balances, Key(items[i].sku, wh), Get(atp, items[i].sku))
  {
    atp := map[];
    var rows := set k | k in tx.balances && k.wh == wh && Mentions(items, k.sku);
    ghost var all := rows;
    while rows != {}
      invariant rows <= all
      invariant forall s :: s in atp <==> Key(s, wh) in all - rows
      invariant forall s | s in atp :: atp[s] == AtpAt(tx.balances, Key(s, wh))
      decreases rows
    {
      var k :| k in rows;
      atp := atp[k.sku := tx.balances[k].Atp()];
      rows := rows - {k};
    }
    forall i | 0 <= i < |items|
      ensures Get(atp, items[i].sku) == AtpAt(tx.balances, Key(items[i].sku, wh))
      ensures IsAtp(tx.balances, Key(items[i].sku, wh), AtpAt(tx.balances, Key(items[i].sku, wh)))
    {
      assert Mentions(items, items[i].sku);
      AtpIs(tx.balances, Key(items[i].sku, wh));
    }
  }

  // classifyReservationFailure
  method ClassifyFailure(tx: Db, items: seq<Item>, short: seq<Shortage>) returns (why: Failure)
    ensures why == Classify(tx, items, short)
  {
    var tracked := set k | k in tx.balances && Mentions(items, k.sku) :: k.sku;
    var unknown: seq<string> := [];
    for n := 0 to |items|
      invariant unknown == Untracked(tx, items[..n])
    {
      var id := items[n].sku;
      Collections.Shorter(items, n);
      assert id in tracked <==> Tracked(tx, id) by { assert Mentions(items, id); }
      if id !in tracked {
        unknown := unknown + [id];
      }
    }
    Collections.Whole(items);
    if |unknown| > 0 {
      return UnknownSku(unknown);
    }
    return InsufficientStock(short);
  }

  lemma {:induction false} FirstIs(balances: map<Key, Balance>, ids: seq<int>, items: seq<Item>, n: nat)
    requires n < |ids| && Fulfills(balances, ids[n], items)
    requires forall m | 0 <= m < n :: !Fulfills(balances, ids[m], items)
    ensures FirstFulfilling(balances, ids, items) == Some(ids[n])
  {
    if n > 0 { FirstIs(balances, ids[1..], items, n - 1); }
  }

  method ToAllocations(items: seq<Item>, wh: int) returns (allocations: seq<Allocation>)
    ensures allocations == AllocateFrom(items, wh)
  {
    allocations := [];
    for i := 0 to |items|
      invariant |allocations| == i
      invariant forall j | 0 <= j < i :: allocations[j] == Allocation(items[j].sku, wh, items[j].qty)
    {
      allocations := allocations + [Allocation(items[i].sku, wh, items[i].qty)];
    }
  }

  // The scan of allocateReservation: the lowest-id active warehouse that covers every line, if any.
  method ChooseWarehouse(tx: Db, items: seq<Item>, byWarehouse: map<int, map<string, int>>, ids: seq<int>)
      returns (found: bool, chosen: int)
    requires forall w | w in ids :: Snapshot(tx.balances, Some(w), items, if w in byWarehouse then byWarehouse[w] else map[])
    ensures FirstFulfilling(tx.balances, ids, items) == if found then Some(chosen) else None
  {
    var n := 0;
    while n < |ids|
      invariant 0 <= n <= |ids|
      invariant forall m | 0 <= m < n :: !Fulfills(tx.balances, ids[m], items)
    {
      var wh := ids[n];
      assert wh in ids;
      var ok := FulfillsLines(if wh in byWarehouse then byWarehouse[wh] else map[], items);
      if ok {
        FirstIs(tx.balances, ids, items, n);
        return true, wh;
      }
      n := n + 1;
    }
    return false, 0;
  }

  datatype Allocated = Chosen(wh: int, allocations: seq<Allocation>) | Refused(why: Failure)

  // allocateReservation: the lowest-id active warehouse that covers every line, re-validated under
  // the row locks; otherwise the shortages of the lowest-id active warehouse.
  method AllocateReservation(tx: Db, items: seq<Item>) returns (r: Allocated)
    ensures var ids := ActiveIds(tx.warehouses);
            r == match FirstFulfilling(tx.balances, ids, items)
                 case Some(wh) => Chosen(wh, AllocateFrom(items, wh))
                 case None => Refused(Classify(tx, items, Shortages(tx.balances, Baseline(ids), items)))
    ensures r.Chosen? ==> LeastServing(tx, r.wh, items) && r.allocations == AllocateFrom(items, r.wh)
    ensures r.Refused? ==> RightlyRefused(tx, items, r.why)
  {
    ChoiceIs(tx, items);
    var byWarehouse, ids := ActiveAtpSnapshot(tx, items);
    var found, chosen := ChooseWarehouse(tx, items, byWarehouse, ids);
    if !found {
      var base: map<string, int> := map[];
      if |ids| > 0 {
        assert ids[0] in ids;
        base := if ids[0] in byWarehouse then byWarehouse[ids[0]] else map[];
      }
      SnapshotShortages(tx.balances, Baseline(ids), items, base);
      var short := ShortagesAgainst(base, items);
      var why := ClassifyFailure(tx, items, short);
      RefusalIs(tx, items);
      return Refused(why);
    }
    var locked := LockWarehouseAtp(tx, chosen, items);
    SnapshotShortages(tx.balances, Some(chosen), items, locked);
    NoShortage(tx.balances, chosen, items);
    var short := ShortagesAgainst(locked, items);
    if |short| > 0 {
      var why := ClassifyFailure(tx, items, short);
      return Refused(why);
    }
    var allocations := ToAllocations(items, chosen);
    return Chosen(chosen, allocations);
  }
}
