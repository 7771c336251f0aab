/** The availability answers: internal/core/repository/availability.go and internal/logic/v1/availability.go. */
module Availability {
  import opened Validate
  import opened CommandIds
  import opened Tables
  import opened Posting
  import opened Sums
  import opened Aggregation
  import opened Invariants
  import opened Columns
  import opened Commands
  import opened Reservations
  import Canonical
  import ReservationWrites
  import Preservation
  import Redeem
  import Collections

  const LOW_STOCK_THRESHOLD := 5

  datatype AvailabilityStatus = Unknown | InStock | LowStock | OutOfStock

  datatype SkuAvailability = SkuAvailability(sku: string, status: AvailabilityStatus, atp: int)

  // statusFor
  function StatusFor(atp: int): AvailabilityStatus {
    if atp <= 0 then OutOfStock else if atp < LOW_STOCK_THRESHOLD then LowStock else InStock
  }

  // Queries ------------------------------------------------------------------------

  function ActiveRows(db: Db, sku: string): set<Key> {
    set k | k in db.balances && Active(db, k.wh) && k.sku == sku
  }

  // SUM over the active warehouses of the ATP floored per warehouse.
  ghost function SummedAtp(db: Db, sku: string): int {
    Sum(ActiveRows(db, sku), k => AtpAt(db.balances, k))
  }

  ghost function SumOf(db: Db, rows: set<Key>, sku: string): int {
    Sum(rows * ActiveRows(db, sku), k => AtpAt(db.balances, k))
  }

  lemma SumOfAdd(db: Db, rows: set<Key>, k: Key, sku: string)
    requires k !in rows && k in ActiveRows(db, k.sku)
    ensures SumOf(db, rows + {k}, sku) == SumOf(db, rows, sku) + if k.sku == sku then AtpAt(db.balances, k) else 0
    ensures (rows + {k}) * ActiveRows(db, sku) == {} <==> rows * ActiveRows(db, sku) == {} && k.sku != sku
  {
    var f := k => AtpAt(db.balances, k);
    var before, after := rows * ActiveRows(db, sku), (rows + {k}) * ActiveRows(db, sku);
    if k.sku == sku {
      assert k in after && after - {k} == before;
      SumRemove(after, f, k);
    } else {
      assert after == before;
    }
  }

  // The units free is what each active row of the SKU has beyond reserved and safety, where positive.
  ghost predicate FreeUnits(db: Db, sku: string, free: Key -> int) {
    forall k | k in db.balances && Open(db.warehouses, k.wh) && k.sku == sku :: IsAtp(db.balances, k, free(k))
  }

  // The active rows of the SKU.
  ghost predicate RowsOf(db: Db, sku: string, rows: set<Key>) {
    forall k :: k in rows <==> k in db.balances && Open(db.warehouses, k.wh) && k.sku == sku
  }

  // The summed view in columns.
  lemma SummedIs(db: Db, sku: string, rows: set<Key>, free: Key -> int)
    requires RowsOf(db, sku, rows) && FreeUnits(db, sku, free)
    ensures SummedAtp(db, sku) == Sum(rows, free)
  {
    assert rows == ActiveRows(db, sku);
    forall k | k in rows ensures AtpAt(db.balances, k) == free(k) { AtpIs(db.balances, k); }
    SumAgree(rows, k => AtpAt(db.balances, k), free);
  }

  // BatchATP: GROUP BY over the joined rows.
  method BatchAtp(db: Db, skus: seq<string>) returns (atp: map<string, int>)
    ensures forall s :: s in atp <==> s in skus && ActiveRows(db, s) != {}
    ensures forall s | s in atp :: atp[s] == SummedAtp(db, s)
  {
    atp := map[];
    var rows := set k | k in db.balances && Active(db, k.wh) && k.sku in skus;
    ghost var done: set<Key> := {};
    while rows != {}
      invariant done + rows == set k | k in db.balances && Active(db, k.wh) && k.sku in skus
      invariant done !! rows
      invariant forall s :: s in atp <==> done * ActiveRows(db, s) != {}
      invariant forall s | s in atp :: atp[s] == SumOf(db, done, s)
      decreases rows
    {
      var k :| k in rows;
      forall s
        ensures SumOf(db, done + {k}, s) == SumOf(db, done, s) + if k.sku == s then AtpAt(db.balances, k) else 0
        ensures (done + {k}) * ActiveRows(db, s) == {} <==> done * ActiveRows(db, s) == {} && k.sku != s
      {
        SumOfAdd(db, done, k, s);
      }
      atp := atp[k.sku := Get(atp, k.sku) + db.balances[k].Atp()];
      rows := rows - {k};
      done := done + {k};
    }
    forall s ensures done * ActiveRows(db, s) == if s in skus then ActiveRows(db, s) else {} {
    }
  }

  // TrackedSKUs
  method TrackedSkus(db: Db, skus: seq<string>) returns (tracked: set<string>)
    ensures forall s :: s in tracked <==> s in skus && Tracked(db, s)
  {
    tracked := set k | k in db.balances && k.sku in skus :: k.sku;
  }

  // BatchGetAvailability ---------------------------------------------------------------

  // A SKU without a row in any active warehouse is out of stock when it is known somewhere, and
  // unknown otherwise.
  ghost function AvailabilityOf(db: Db, sku: string): SkuAvailability {
    if ActiveRows(db, sku) != {} then SkuAvailability(sku, StatusFor(SummedAtp(db, sku)), SummedAtp(db, sku))
    else if Tracked(db, sku) then SkuAvailability(sku, OutOfStock, 0)
    else SkuAvailability(sku, Unknown, 0)
  }

  // The answer for one SKU, in columns: the units are those of its active rows, none where it has no
  // such row; unknown without any row, else out of stock without units, low below five, in stock from
  // five on.
  ghost predicate RightlyAnswered(db: Db, sku: string, a: SkuAvailability) {
    && a.sku == sku && a.atp == SummedAtp(db, sku)
    && ((forall k | k in db.balances && k.sku == sku :: !Open(db.warehouses, k.wh)) ==> a.atp == 0)
    && (a.status == Unknown <==> !HasRow(db.balances, sku))
    && (a.status == OutOfStock <==> HasRow(db.balances, sku) && a.atp <= 0)
    && (a.status == LowStock <==> 1 <= a.atp < 5)
    && (a.status == InStock <==> a.atp >= 5)
  }

  lemma AnswerIs(db: Db, sku: string)
    ensures RightlyAnswered(db, sku, AvailabilityOf(db, sku))
  {
    var f := k => AtpAt(db.balances, k);
    if ActiveRows(db, sku) == {} {
      SumZero(ActiveRows(db, sku), f);
    } else {
      var k :| k in ActiveRows(db, sku);
      assert HasRow(db.balances, sku);
    }
  }

  // Looks up as tracked only the SKUs the first query did not return; the answer is as if it had
  // looked up all of them.
  method BatchGetAvailability(db: Db, skus: seq<string>) returns (out: seq<SkuAvailability>)
    ensures |out| == |skus|
    ensures forall i | 0 <= i < |skus| :: out[i] == AvailabilityOf(db, skus[i])
    ensures forall i | 0 <= i < |skus| :: RightlyAnswered(db, skus[i], out[i])
  {
    var atps := BatchAtp(db, skus);
    var missing: seq<string> := [];
    for n := 0 to |skus|
      invariant forall i | 0 <= i < n :: skus[i] in missing <==> skus[i] !in atps
      invariant forall s | s in missing :: s in skus && s !in atps
    {
      if skus[n] !in atps {
        missing := missing + [skus[n]];
      }
    }
    var tracked: set<string> := {};
    if |missing| > 0 {
      tracked := TrackedSkus(db, missing);
    }
    out := [];
    for n := 0 to |skus|
      invariant |out| == n
      invariant forall i | 0 <= i < n :: out[i] == AvailabilityOf(db, skus[i])
    {
      var id := skus[n];
      if id in atps {
        out := out + [SkuAvailability(id, StatusFor(atps[id]), atps[id])];
      } else if id in tracked {
        out := out + [SkuAvailability(id, OutOfStock, 0)];
      } else {
        out := out + [SkuAvailability(id, Unknown, 0)];
      }
    }
    forall i | 0 <= i < |skus| ensures RightlyAnswered(db, skus[i], out[i]) { AnswerIs(db, skus[i]); }
  }

  // CheckAvailability ------------------------------------------------------------------

  datatype CheckOutcome =
    | Fulfillable
    | Blocked(shortages: seq<Shortage>, unknown: seq<string>)
    | NonPositiveQuantity(sku: string)

  // The lines a baseline cannot serve, among the SKUs known somewhere.
  function KnownShortages(db: Db, base: Option<int>, items: seq<Item>): seq<Shortage> {
    if items == [] then []
    else
      var it := items[|items| - 1];
      var atp := BaseAtp(db.balances, base, it.sku);
      KnownShortages(db, base, items[..|items| - 1])
      + if atp < it.qty && Tracked(db, it.sku) then [Shortage(it.sku, it.qty, atp)] else []
  }

  predicate PositiveLines(items: seq<Item>) {
    forall i | 0 <= i < |items| :: items[i].qty > 0
  }

  // fulfills
  method BasketFulfills(atp: map<string, int>, items: seq<Item>) returns (ok: bool)
    ensures ok <==> forall i | 0 <= i < |items| :: Get(atp, items[i].sku) >= items[i].qty
  {
    for n := 0 to |items|
      invariant forall i | 0 <= i < n :: Get(atp, items[i].sku) >= items[i].qty
    {
      var it := items[n];
      if Get(atp, it.sku) < it.qty {
        return false;
      }
    }
    return true;
  }

  lemma RowMeansTracked(db: Db, base: Option<int>, sku: string)
    ensures base.Some? && Key(sku, base.value) in db.balances ==> Tracked(db, sku)
    ensures !Tracked(db, sku) ==> BaseAtp(db.balances, base, sku) == 0
  {
  }

  // row holds the baseline's ATP of every requested SKU, with an entry exactly where it has a row.
  ghost predicate BaselineRow(db: Db, base: Option<int>, row: map<string, int>, items: seq<Item>) {
    && Snapshot(db.balances, base, items, row)
    && forall i | 0 <= i < |items| :: items[i].sku in row <==> base.Some? && Key(items[i].sku, base.value) in db.balances
  }

  // The classification loops: only the SKUs without a row in the baseline are looked up, yet the
  // shortages are the known lines that are short, and the unknown SKUs are all untracked ones.
  method ClassifyLines(db: Db, base: Option<int>, row: map<string, int>, items: seq<Item>)
      returns (shortages: seq<Shortage>, unknown: seq<string>)
    requires PositiveLines(items) && BaselineRow(db, base, row, items)
    ensures shortages == KnownShortages(db, base, items)
    ensures unknown == Untracked(db, items)
  {
    var missing: seq<string> := [];
    for n := 0 to |items|
      invariant forall i | 0 <= i < n :: items[i].sku in missing <==> items[i].sku !in row
      invariant forall s | s in missing :: s !in row
    {
      if items[n].sku !in row {
        missing := missing + [items[n].sku];
      }
    }
    var tracked: set<string> := {};
    if |missing| > 0 {
      tracked := TrackedSkus(db, missing);
    }
    shortages, unknown := [], [];
    for n := 0 to |items|
      invariant shortages == KnownShortages(db, base, items[..n])
      invariant unknown == Untracked(db, items[..n])
    {
      var it := items[n];
      Collections.Shorter(items, n);
      RowMeansTracked(db, base, it.sku);
      var atp := Get(row, it.sku);
      if atp < it.qty {
        if it.sku in row || it.sku in tracked {
          shortages := shortages + [Shortage(it.sku, it.qty, atp)];
        } else {
          unknown := unknown + [it.sku];
        }
      }
    }
    Collections.Whole(items);
  }

  lemma {:induction false} KnownAre(db: Db, base: Option<int>, items: seq<Item>)
    ensures Lists(db.balances, base, true, items, KnownShortages(db, base, items))
  {
    if items == [] {
      ListNothing(db.balances, base, true);
    } else {
      var front, it := items[..|items| - 1], items[|items| - 1];
      KnownAre(db, base, front);
      LastAdded(items);
      ListStep(db.balances, base, true, front, items, KnownShortages(db, base, front), it, BaseAtp(db.balances, base, it.sku));
      assert Tracked(db, it.sku) <==> HasRow(db.balances, it.sku);
    }
  }

  // The verdict in columns: fulfillable where some active warehouse has every line; otherwise the
  // lines that the least active warehouse is short of, among the SKUs with a row somewhere, and the
  // SKUs without one, each in request order.
  ghost predicate RightlyChecked(db: Db, items: seq<Item>, r: CheckOutcome) {
    match r
    case Fulfillable => exists wh :: Open(db.warehouses, wh) && Serves(db.balances, wh, items)
    case Blocked(shortages, unknown) =>
      && NoneServes(db, items)
      && (exists base :: LeastOpen(db.warehouses, base) && Lists(db.balances, base, true, items, shortages))
      && ListsUnknown(db.balances, items, unknown)
    case NonPositiveQuantity(_) => false
  }

  lemma CheckIs(db: Db, items: seq<Item>)
    ensures RightlyChecked(db, items, Check(db, items))
  {
    var base := Baseline(ActiveIds(db.warehouses));
    ChoiceIs(db, items);
    BaselineIs(db.warehouses);
    KnownAre(db, base, items);
    UntrackedAre(db, items);
  }

  // The scan for a warehouse, and the classification when there is none.
  method CheckBasket(db: Db, items: seq<Item>) returns (r: CheckOutcome)
    requires PositiveLines(items)
    ensures r == Check(db, items)
  {
    var byWarehouse, ids := ActiveAtpSnapshot(db, items);
    for n := 0 to |ids|
      invariant forall m | 0 <= m < n :: !Fulfills(db.balances, ids[m], items)
    {
      var id := ids[n];
      assert id in ids;
      var ok := BasketFulfills(if id in byWarehouse then byWarehouse[id] else map[], items);
      if ok {
        assert Fulfills(db.balances, id, items);
        FirstIs(db.balances, ids, items, n);
        return Fulfillable;
      }
    }
    var base: map<string, int> := map[];
    if |ids| > 0 {
      assert ids[0] in ids;
      base := if ids[0] in byWarehouse then byWarehouse[ids[0]] else map[];
    }
    var shortages, unknown := ClassifyLines(db, Baseline(ids), base, items);
    return Blocked(shortages, unknown);
  }

  method CheckAvailability(db: Db, items: seq<Item>) returns (r: CheckOutcome)
    ensures r.NonPositiveQuantity? <==> !PositiveLines(items)
    ensures r.NonPositiveQuantity? ==>
              exists i :: 0 <= i < |items| && items[i].sku == r.sku && items[i].qty <= 0 && PositiveLines(items[..i])
    ensures PositiveLines(items) ==> r == Check(db, items) && RightlyChecked(db, items, r)
  {
    for n := 0 to |items|
      invariant PositiveLines(items[..n])
    {
      if items[n].qty <= 0 {
        return NonPositiveQuantity(items[n].sku);
      }
    }
    Collections.Whole(items);
    CheckIs(db, items);
    r := CheckBasket(db, items);
  }

  function Check(db: Db, items: seq<Item>): CheckOutcome {
    var ids := ActiveIds(db.warehouses);
    if FirstFulfilling(db.balances, ids, items).Some? then Fulfillable
    else Blocked(KnownShortages(db, Baseline(ids), items), Untracked(db, items))
  }

  // Check and Reserve agree ----------------------------------------------------------------

  // The only statement of a fresh covered line that can fail is its ledger INSERT, and only on an
  // admin row under its command id.
  lemma FreshLineCanPostIff(db: Db, id: string, it: Item, wh: int)
    requires Inv(db) && Redeem.PlainLines(db.lines) && id !in db.headers && ValidReservationId(id)
    requires ValidSku(it.sku) && it.qty > 0 && Active(db, wh) && AtpAt(db.balances, Key(it.sku, wh)) >= it.qty
    ensures ReservationWrites.CanPost(db, Hold, id, Allocation(it.sku, wh, it.qty), "")
            <==> !Redeem.AdminRow(db.movements, CommandId(Hold, id, it.sku))
  {
    if CommandId(Hold, id, it.sku) in db.movements { Redeem.IdTakenByAdmin(db, id, Hold, it.sku); }
    LengthCapIsTight(Hold, id);
    assert db.balances[Key(it.sku, wh)].Ok();
  }

  // No admin row stands under one of the ids res:<id>:<sku> of the basket.
  ghost predicate Unblocked(movements: map<string, Movement>, id: string, items: seq<Item>) {
    forall i | 0 <= i < |items| :: !Redeem.AdminRow(movements, CommandId(Hold, id, items[i].sku))
  }

  // A booking request whose id and order are unused, as the edge admits it.
  ghost predicate Fresh(db: Db, id: string, orderRef: string, items: seq<Item>) {
    && ValidReservationId(id) && |orderRef| <= 255
    && id !in db.headers && !RefTaken(db.headers, orderRef)
    && Distinct(items)
    && forall i | 0 <= i < |items| :: ValidSku(items[i].sku) && items[i].qty > 0
  }

  // A fresh booking on a warehouse that covers it commits exactly when no admin command has used one
  // of its ledger ids.
  lemma FreshReserveIff(db: Db, id: string, orderRef: string, hash: string, items: seq<Item>, wh: int)
    requires Inv(db) && Redeem.PlainLines(db.lines) && Fresh(db, id, orderRef, items)
    requires Active(db, wh) && Fulfills(db.balances, wh, items)
    ensures Step(db, ReserveEv(id, orderRef, hash, wh, LinesMap(AllocateFrom(items, wh)))).Some?
            <==> Unblocked(db.movements, id, items)
  {
    var a := AllocateFrom(items, wh);
    forall i | 0 <= i < |items|
      ensures ReservationWrites.CanPost(db, Hold, id, a[i], "") <==> !Redeem.AdminRow(db.movements, CommandId(Hold, id, items[i].sku))
    {
      FreshLineCanPostIff(db, id, items[i], wh);
    }
    ReservationWrites.AllPostIff(db, Hold, id, a, "");
    ReservationWrites.ReserveLegalIff(db, id, orderRef, hash, items, wh);
  }

  // When every SKU is known, the shortages of the two algorithms are the same lines.
  lemma {:induction false} SameShortages(db: Db, base: Option<int>, items: seq<Item>)
    requires Untracked(db, items) == []
    ensures KnownShortages(db, base, items) == Shortages(db.balances, base, items)
    decreases |items|
  {
    if items != [] {
      SameShortages(db, base, items[..|items| - 1]);
    }
  }

  // What a fresh Reserve decides once the warehouse is chosen.
  lemma FreshDecides(db: Db, id: string, orderRef: string, items: seq<Item>, region: string, wh: int)
    requires Distinct(items) && HeaderFits(id, orderRef) && id !in db.headers && !RefTaken(db.headers, orderRef)
    requires FirstFulfilling(db.balances, ActiveIds(db.warehouses), items) == Some(wh)
    ensures DecideReserve(db, id, orderRef, items, region)
         == Attempt(db, ReserveEv(id, orderRef, Canonical.Encode(items, region), wh, LinesMap(AllocateFrom(items, wh))),
                    Held(Reserved, AllocateFrom(items, wh), false))
  {
  }

  lemma FreshAnswer(db: Db, id: string, orderRef: string, items: seq<Item>, region: string, wh: int)
    requires Inv(db) && Redeem.PlainLines(db.lines) && Fresh(db, id, orderRef, items)
    requires FirstFulfilling(db.balances, ActiveIds(db.warehouses), items) == Some(wh)
    ensures DecideReserve(db, id, orderRef, items, region).1
         == if Unblocked(db.movements, id, items) then Held(Reserved, AllocateFrom(items, wh), false) else Failed(StorageError)
  {
    var ev := ReserveEv(id, orderRef, Canonical.Encode(items, region), wh, LinesMap(AllocateFrom(items, wh)));
    FirstIsLeast(db, items, wh);
    FreshReserveIff(db, id, orderRef, Canonical.Encode(items, region), items, wh);
    FreshDecides(db, id, orderRef, items, region, wh);
    if Unblocked(db.movements, id, items) {
      AttemptSucceeds(db, ev, Held(Reserved, AllocateFrom(items, wh), false));
    } else {
      AttemptFails(db, ev, Held(Reserved, AllocateFrom(items, wh), false));
    }
  }

  // On one state the two independently written algorithms give one verdict. Where the check says
  // yes, a fresh Reserve takes the least active warehouse covering every line, and holds, exactly
  // unless an admin command squats on one of its ledger ids; where the check says no, Reserve fails
  // with the same unknown SKUs, or else the same shortages.
  lemma CheckAgreesWithReserve(db: Db, id: string, orderRef: string, items: seq<Item>, region: string)
    requires Inv(db) && Redeem.PlainLines(db.lines) && Fresh(db, id, orderRef, items)
    ensures var reply := DecideReserve(db, id, orderRef, items, region).1;
            match Check(db, items)
            case Fulfillable =>
              exists wh :: LeastServing(db, wh, items)
                && reply == if Unblocked(db.movements, id, items) then Held(Reserved, AllocateFrom(items, wh), false)
                            else Failed(StorageError)
            case Blocked(shortages, unknown) =>
              && NoneServes(db, items)
              && reply == Failed(if unknown != [] then UnknownSku(unknown) else InsufficientStock(shortages))
            case NonPositiveQuantity(_) => false
  {
    var ids := ActiveIds(db.warehouses);
    ChoiceIs(db, items);
    match FirstFulfilling(db.balances, ids, items)
    case Some(wh) => FreshAnswer(db, id, orderRef, items, region, wh);
    case None =>
      if Untracked(db, items) == [] { SameShortages(db, Baseline(ids), items); }
  }

  // The views agree ---------------------------------------------------------------------

  lemma PartOfSum(db: Db, sku: string, wh: int)
    requires Active(db, wh)
    ensures AtpAt(db.balances, Key(sku, wh)) <= AvailabilityOf(db, sku).atp
    ensures AvailabilityOf(db, sku).atp >= 0
  {
    var f := k => AtpAt(db.balances, k);
    SumNonNegative(ActiveRows(db, sku), f);
    if Key(sku, wh) in db.balances {
      SumAtLeast(ActiveRows(db, sku), f, Key(sku, wh));
    }
  }

  // What one warehouse can ship is promised by the summed view: the floor is taken before the sum.
  lemma FulfillableIsPromised(db: Db, items: seq<Item>, i: nat)
    requires PositiveLines(items) && i < |items| && Check(db, items) == Fulfillable
    ensures AvailabilityOf(db, items[i].sku).atp >= items[i].qty
    ensures AvailabilityOf(db, items[i].sku).status in {InStock, LowStock}
  {
    var w := FirstFulfilling(db.balances, ActiveIds(db.warehouses), items).value;
    PartOfSum(db, items[i].sku, w);
    assert AtpAt(db.balances, Key(items[i].sku, w)) >= items[i].qty;
  }

  // OUT_OF_STOCK and UNKNOWN are exact: a SKU has one of them if and only if not even one unit of
  // it can be booked. So no basket with positive quantities that contains it can be fulfilled.
  lemma UnavailableIsExact(db: Db, sku: string)
    ensures AvailabilityOf(db, sku).status in {OutOfStock, Unknown} <==> Check(db, [Item(sku, 1)]) != Fulfillable
  {
    var one := [Item(sku, 1)];
    if Check(db, one) == Fulfillable {
      FulfillableIsPromised(db, one, 0);
    } else {
      forall k | k in ActiveRows(db, sku) ensures AtpAt(db.balances, k) == 0 {
        assert k.wh in ActiveIds(db.warehouses);
        assert !Fulfills(db.balances, k.wh, one);
        assert one[0] == Item(sku, 1) && k == Key(sku, k.wh);
      }
      SumZero(ActiveRows(db, sku), k => AtpAt(db.balances, k));
    }
  }

  // One line of q units can be booked exactly when a single active row has them.
  lemma OneBookable(db: Db, sku: string, q: int)
    requires q >= 1
    ensures Check(db, [Item(sku, q)]) == Fulfillable <==> exists k :: k in ActiveRows(db, sku) && AtpAt(db.balances, k) >= q
  {
    var one := [Item(sku, q)];
    assert one[0] == Item(sku, q);
    if Check(db, one) == Fulfillable {
      var w := FirstFulfilling(db.balances, ActiveIds(db.warehouses), one).value;
      assert AtpAt(db.balances, Key(sku, w)) >= q && Key(sku, w) in ActiveRows(db, sku);
    }
    if k :| k in ActiveRows(db, sku) && AtpAt(db.balances, k) >= q {
      assert k == Key(sku, k.wh) && k.wh in ActiveIds(db.warehouses);
      assert Fulfills(db.balances, k.wh, one);
    }
  }

  // At most one active warehouse has anything of the SKU to promise.
  ghost predicate OneSource(db: Db, sku: string) {
    forall j, k | j in ActiveRows(db, sku) && k in ActiveRows(db, sku) && AtpAt(db.balances, j) > 0 && AtpAt(db.balances, k) > 0 :: j == k
  }

  lemma OneSourceHoldsAll(db: Db, sku: string)
    requires OneSource(db, sku) && SummedAtp(db, sku) >= 1
    ensures exists k :: k in ActiveRows(db, sku) && AtpAt(db.balances, k) == SummedAtp(db, sku)
  {
    var f := k => AtpAt(db.balances, k);
    if forall k | k in ActiveRows(db, sku) :: f(k) == 0 {
      SumZero(ActiveRows(db, sku), f);
    } else {
      var k :| k in ActiveRows(db, sku) && f(k) != 0;
      SumOnly(ActiveRows(db, sku), f, k);
    }
  }

  // A row that has the whole sum leaves nothing to the others.
  lemma WholeSumIsOneSource(db: Db, sku: string, k: Key)
    requires k in ActiveRows(db, sku) && AtpAt(db.balances, k) >= SummedAtp(db, sku)
    ensures forall j | j in ActiveRows(db, sku) && j != k :: AtpAt(db.balances, j) == 0
  {
    var f := k => AtpAt(db.balances, k);
    var rows := ActiveRows(db, sku);
    SumRemove(rows, f, k);
    forall j | j in rows && j != k ensures AtpAt(db.balances, j) == 0 { SumAtLeast(rows - {k}, f, j); }
  }

  lemma OneSourceBooks(db: Db, sku: string, q: int)
    requires OneSource(db, sku) && 1 <= q <= SummedAtp(db, sku)
    ensures Check(db, [Item(sku, q)]) == Fulfillable
  {
    OneSourceHoldsAll(db, sku);
    OneBookable(db, sku, q);
  }

  lemma BookableSumIsOneSource(db: Db, sku: string)
    requires SummedAtp(db, sku) >= 1 ==> Check(db, [Item(sku, SummedAtp(db, sku))]) == Fulfillable
    ensures OneSource(db, sku)
  {
    var n := SummedAtp(db, sku);
    if n >= 1 {
      OneBookable(db, sku, n);
      var k :| k in ActiveRows(db, sku) && AtpAt(db.balances, k) >= n;
      WholeSumIsOneSource(db, sku, k);
    } else {
      forall j | j in ActiveRows(db, sku) ensures AtpAt(db.balances, j) == 0 {
        SumAtLeast(ActiveRows(db, sku), k => AtpAt(db.balances, k), j);
      }
    }
  }

  // Every part of the summed promise can be booked in one order.
  ghost predicate PromiseBookable(db: Db, sku: string) {
    forall q | 1 <= q <= SummedAtp(db, sku) :: Check(db, [Item(sku, q)]) == Fulfillable
  }

  // The summed promise can be booked in one order, whatever part of it is asked for, exactly when a
  // single active warehouse stands behind it.
  lemma PromiseIsBookableIff(db: Db, sku: string)
    ensures PromiseBookable(db, sku) <==> OneSource(db, sku)
  {
    if OneSource(db, sku) {
      forall q | 1 <= q <= SummedAtp(db, sku) ensures Check(db, [Item(sku, q)]) == Fulfillable {
        OneSourceBooks(db, sku, q);
      }
    }
    if PromiseBookable(db, sku) { BookableSumIsOneSource(db, sku); }
  }

  // So with stock in two active warehouses the summed promise cannot be booked, for every such state.
  lemma PromisedMayNotFulfill(db: Db, sku: string, v: int, w: int)
    requires v != w && Active(db, v) && Active(db, w)
    requires AtpAt(db.balances, Key(sku, v)) > 0 && AtpAt(db.balances, Key(sku, w)) > 0
    ensures AvailabilityOf(db, sku).atp >= 2 && Check(db, [Item(sku, AvailabilityOf(db, sku).atp)]).Blocked?
  {
    var f := k => AtpAt(db.balances, k);
    var rows, n := ActiveRows(db, sku), SummedAtp(db, sku);
    SumRemove(rows, f, Key(sku, v));
    SumAtLeast(rows - {Key(sku, v)}, f, Key(sku, w));
    OneBookable(db, sku, n);
    if k :| k in rows && AtpAt(db.balances, k) >= n {
      WholeSumIsOneSource(db, sku, k);
    }
  }

  // The squatted hold ------------------------------------------------------------------------

  function TwoUnits(sku: string): (items: seq<Item>)
    ensures Distinct(items) && |items| == 1
  {
    [Item(sku, 2)]
  }

  lemma SquattedAnswer(db: Db, id: string, orderRef: string, sku: string, region: string)
    requires Inv(db) && ValidReservationId(id) && |orderRef| <= 255 && ValidSku(sku)
    requires db.headers == map[] && db.lines == map[] && Active(db, 1)
    requires AtpAt(db.balances, Key(sku, 1)) >= 2 && Redeem.AdminRow(db.movements, CommandId(Hold, id, sku))
    ensures Check(db, TwoUnits(sku)) == Fulfillable
    ensures DecideReserve(db, id, orderRef, TwoUnits(sku), region) == (None, Failed(StorageError))
  {
    var items := TwoUnits(sku);
    assert items[0] == Item(sku, 2);
    assert Fulfills(db.balances, 1, items) && 1 in ActiveIds(db.warehouses);
    assert !Unblocked(db.movements, id, items);
    assert Fresh(db, id, orderRef, items);
    var wh := FirstFulfilling(db.balances, ActiveIds(db.warehouses), items).value;
    FirstIsLeast(db, items, wh);
    FreshReserveIff(db, id, orderRef, Canonical.Encode(items, region), items, wh);
    FreshDecides(db, id, orderRef, items, region, wh);
    AttemptFails(db, ReserveEv(id, orderRef, Canonical.Encode(items, region), wh, LinesMap(AllocateFrom(items, wh))),
                 Held(Reserved, AllocateFrom(items, wh), false));
  }

  // Without the naming rule the agreement breaks, for every reservation id, order and SKU: after a
  // receipt whose command id is res:<id>:<sku>, the check promises the basket and Reserve fails.
  lemma SquattedIdBlocksReserve(id: string, orderRef: string, sku: string, region: string)
    requires ValidReservationId(id) && |orderRef| <= 255 && ValidSku(sku)
    ensures var run := Step(EmptyDb(map[1 := true]), StockEv(ReceiveStock, Redeem.Squatter(Hold, id, sku)));
            && run.Some? && Check(run.value, TwoUnits(sku)) == Fulfillable
            && DecideReserve(run.value, id, orderRef, TwoUnits(sku), region) == (None, Failed(StorageError))
  {
    var ev := StockEv(ReceiveStock, Redeem.Squatter(Hold, id, sku));
    Redeem.SquattedTables(Hold, id, sku);
    InvInit(map[1 := true]);
    var db := Step(EmptyDb(map[1 := true]), ev).value;
    Preservation.EventKeepsInv(EmptyDb(map[1 := true]), ev, db);
    SquattedAnswer(db, id, orderRef, sku, region);
  }
}
