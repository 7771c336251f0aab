/** Every interleaving is an atomic run in commit order. */
module Refinement {
  import opened CommandIds
  import opened Tables
  import opened Posting
  import opened Invariants
  import opened Commands
  import opened Machine
  import opened Interleaving
  import opened Progress
  import Collections
  import Idempotency
  import ReservationWrites

  // What a finished posting has written, in closed form ------------------------------------

  lemma {:induction false} MovedIsTouched(balances: map<Key, Balance>, op: Op, ls: seq<Allocation>)
    requires DistinctSkus(ls) && forall i | 0 <= i < |ls| :: Key(ls[i].sku, ls[i].wh) in balances
    ensures MovedRows(balances, op, ls) == TouchedRows(balances, op, LinesMap(ls))
  {
    if ls == [] {
      ReservationWrites.NoTouchedRows(balances, op);
    } else {
      var n := |ls| - 1;
      Collections.Whole(ls);
      MovedIsTouched(balances, op, ls[..n]);
      LinesMapStep(ls, n);
      TouchedRowsStep(balances, op, LinesMap(ls[..n]), ls[n].sku, Line(ls[n].wh, ls[n].qty));
    }
  }

  lemma {:induction false} AttachedIsNew(id: string, ls: seq<Allocation>)
    requires DistinctSkus(ls)
    ensures AttachedLines(id, ls) == NewLines(id, LinesMap(ls))
  {
    if ls == [] {
      ReservationWrites.NoNewLines(id);
    } else {
      var n := |ls| - 1;
      Collections.Whole(ls);
      AttachedIsNew(id, ls[..n]);
      LinesMapStep(ls, n);
      NewLinesStep(id, LinesMap(ls[..n]), ls[n].sku, Line(ls[n].wh, ls[n].qty));
    }
  }

  lemma {:induction false} RecordedIsLedger(op: Op, id: string, reason: string, ls: seq<Allocation>)
    requires DistinctSkus(ls)
    ensures RecordedRows(op, id, reason, ls) == LedgerRows(op, id, LinesMap(ls), reason)
  {
    if ls == [] {
      ReservationWrites.NoLedgerRows(op, id, reason);
    } else {
      var n := |ls| - 1;
      Collections.Whole(ls);
      RecordedIsLedger(op, id, reason, ls[..n]);
      LinesMapStep(ls, n);
      LedgerRowsStep(op, id, LinesMap(ls[..n]), reason, ls[n].sku, Line(ls[n].wh, ls[n].qty));
    }
  }

  lemma PostedWrites(db: Db, held: set<Res>, work: Work, h: Header, ls: seq<Allocation>, w: Writes)
    requires !work.Stocking? && DistinctSkus(ls) && Written(db, held, work, ls, w, |ls|, |ls|, |ls|)
    requires w.headers == map[work.id := h]
    ensures w == OpWrites(db, OpOf(work), work.id, h, LinesMap(ls), ReasonOf(work))
  {
    Collections.Whole(ls);
    forall i | 0 <= i < |ls| ensures Key(ls[i].sku, ls[i].wh) in db.balances {
      assert MovedRow(db.balances, held, OpOf(work), ls[i]);
    }
    MovedIsTouched(db.balances, OpOf(work), ls);
    AttachedIsNew(work.id, ls);
    RecordedIsLedger(OpOf(work), work.id, ReasonOf(work), ls);
  }

  lemma PostedLine(db: Db, held: set<Res>, op: Op, id: string, reason: string, a: Allocation)
    requires MovedRow(db.balances, held, op, a) && NewRow(db.movements, held, op, id, reason, a)
    requires op == Hold ==> a.qty > 0 && LineKey(id, a.sku) !in db.lines && a.wh in db.warehouses
    ensures ReservationWrites.CanPost(db, op, id, a, reason)
  {
  }

  // Every line's statements would succeed on the committed tables.
  lemma PostedLines(db: Db, held: set<Res>, op: Op, id: string, reason: string, ls: seq<Allocation>)
    requires forall i | 0 <= i < |ls| :: MovedRow(db.balances, held, op, ls[i])
    requires forall i | 0 <= i < |ls| :: NewRow(db.movements, held, op, id, reason, ls[i])
    requires op == Hold ==> forall i | 0 <= i < |ls| ::
               ls[i].qty > 0 && LineKey(id, ls[i].sku) !in db.lines && ls[i].wh in db.warehouses
    ensures ReservationWrites.AllPost(db, op, id, ls, reason)
  {
    forall i | 0 <= i < |ls| ensures ReservationWrites.CanPost(db, op, id, ls[i], reason) {
      PostedLine(db, held, op, id, reason, ls[i]);
    }
    ReservationWrites.AllPostIff(db, op, id, ls, reason);
  }

  lemma StepIs(db: Db, ev: Event, w: Writes)
    requires Step(db, ev).Some? && w == EventWrites(db, ev)
    ensures Step(db, ev) == Some(Publish(db, w))
  {
  }

  // Committing -------------------------------------------------------------------------------

  lemma BookingLegal(db: Db, held: set<Res>, work: Work, wh: int, ls: seq<Allocation>, w: Writes)
    requires LinesOk(db.balances, db.headers, db.lines)
    requires work.Booking? && Admitted(work) && LinesReady(db, held, work, wh, ls, w)
    ensures Step(db, EventOf(work, wh, ls)).Some?
  {
    forall i | 0 <= i < |ls|
      ensures ls[i].qty > 0 && LineKey(work.id, ls[i].sku) !in db.lines && ls[i].wh in db.warehouses
      ensures AtpAt(db.balances, Key(work.items[i].sku, wh)) >= work.items[i].qty
    {
      assert Covered(db.balances, held, wh, work.items[i]);
    }
    PostedLines(db, held, Hold, work.id, "", ls);
    ReservationWrites.ReserveLegalIff(db, work.id, work.orderRef, work.hash, work.items, wh);
  }

  lemma BookingCommits(db: Db, held: set<Res>, work: Work, wh: int, ls: seq<Allocation>, w: Writes)
    requires LinesOk(db.balances, db.headers, db.lines)
    requires work.Booking? && Admitted(work) && LinesReady(db, held, work, wh, ls, w)
    ensures Step(db, EventOf(work, wh, ls)) == Some(Publish(db, w))
  {
    BookingLegal(db, held, work, wh, ls, w);
    PlanDistinct(db, held, work, wh, ls);
    PostedWrites(db, held, work, Header(work.orderRef, work.hash, Reserved), ls, w);
    StepIs(db, EventOf(work, wh, ls), w);
  }

  lemma SettlementLegal(db: Db, held: set<Res>, work: Work, wh: int, ls: seq<Allocation>, w: Writes)
    requires work.Settlement? && Admitted(work) && LinesReady(db, held, work, wh, ls, w)
    ensures Step(db, EventOf(work, wh, ls)).Some?
  {
    PostedLines(db, held, work.op, work.id, work.reason, ls);
    ReservationWrites.SettleLegalIff(db, work.op, work.id, work.reason);
  }

  lemma SettlementCommits(db: Db, held: set<Res>, work: Work, wh: int, ls: seq<Allocation>, w: Writes)
    requires work.Settlement? && Admitted(work) && LinesReady(db, held, work, wh, ls, w)
    ensures Step(db, EventOf(work, wh, ls)) == Some(Publish(db, w))
  {
    SettlementLegal(db, held, work, wh, ls, w);
    PlanDistinct(db, held, work, wh, ls);
    PostedWrites(db, held, work, Flipped(db.headers, work.id, work.op), ls, w);
    LoadedLines(db.lines, work.id);
    StepIs(db, EventOf(work, wh, ls), w);
  }

  lemma StockingCommits(db: Db, held: set<Res>, act: StockAction, cmd: StockCommand, w: Writes)
    requires StockReady(db, held, act, cmd, w)
    ensures Step(db, StockEv(act, cmd)) == Some(Publish(db, w))
  {
    assert Legal(db, StockEv(act, cmd));
    assert w == EventWrites(db, StockEv(act, cmd));
  }

  // A transaction that has run all its statements may commit, and commits exactly its event.
  lemma ReadyCommits(db: Db, held: set<Res>, work: Work, wh: int, ls: seq<Allocation>, w: Writes)
    requires LinesOk(db.balances, db.headers, db.lines) && Admitted(work) && ReadyInv(db, held, work, wh, ls, w)
    ensures Step(db, EventOf(work, wh, ls)) == Some(Publish(db, w))
  {
    match work
    case Booking(_, _, _, _) => BookingCommits(db, held, work, wh, ls, w);
    case Settlement(_, _, _) => SettlementCommits(db, held, work, wh, ls, w);
    case Stocking(act, cmd) => StockingCommits(db, held, act, cmd, w);
  }

  // Nobody else's ground ------------------------------------------------------------------------

  // Everything in the write set is on rows and keys the transaction holds.
  ghost predicate Owned(db: Db, held: set<Res>, w: Writes) {
    && (forall k | k in w.balances :: BalanceRow(k) in held)
    && (forall c | c in w.movements :: CommandKey(c) in held)
    && (forall id | id in w.headers ::
          && ReservationId(id) in held
          && (OrderRef(w.headers[id].orderRef) in held || RefTaken(db.headers, w.headers[id].orderRef)))
  }

  lemma {:induction false} RecordedKeys(op: Op, id: string, reason: string, ls: seq<Allocation>, c: string)
    requires c in RecordedRows(op, id, reason, ls)
    ensures exists i :: 0 <= i < |ls| && c == CommandId(op, id, ls[i].sku)
  {
    var n := |ls| - 1;
    if c != CommandId(op, id, ls[n].sku) {
      RecordedKeys(op, id, reason, ls[..n], c);
      var i :| 0 <= i < n && c == CommandId(op, id, ls[..n][i].sku);
      assert ls[..n][i] == ls[i];
    }
  }

  lemma MovedOwned(balances: map<Key, Balance>, held: set<Res>, op: Op, ls: seq<Allocation>, w: map<Key, Balance>)
    requires ShiftedSoFar(balances, held, op, ls, |ls|, w)
    ensures forall k | k in w :: BalanceRow(k) in held
  {
    Collections.Whole(ls);
    forall k | k in w ensures BalanceRow(k) in held {
      MovedKeys(balances, op, ls, k);
      var i :| 0 <= i < |ls| && k == Key(ls[i].sku, ls[i].wh);
      assert MovedRow(balances, held, op, ls[i]);
    }
  }

  lemma RecordedOwned(movements: map<string, Movement>, held: set<Res>, op: Op, id: string, reason: string,
                      ls: seq<Allocation>, w: map<string, Movement>)
    requires RecordedSoFar(movements, held, op, id, reason, ls, |ls|, w)
    ensures forall c | c in w :: CommandKey(c) in held
  {
    Collections.Whole(ls);
    forall c | c in w ensures CommandKey(c) in held {
      RecordedKeys(op, id, reason, ls, c);
      var i :| 0 <= i < |ls| && c == CommandId(op, id, ls[i].sku);
      assert NewRow(movements, held, op, id, reason, ls[i]);
    }
  }

  lemma LinesOwned(db: Db, held: set<Res>, work: Work, wh: int, ls: seq<Allocation>, w: Writes)
    requires !work.Stocking? && LinesReady(db, held, work, wh, ls, w)
    ensures Owned(db, held, w)
  {
    MovedOwned(db.balances, held, OpOf(work), ls, w.balances);
    RecordedOwned(db.movements, held, OpOf(work), work.id, ReasonOf(work), ls, w.movements);
  }

  lemma ReadyOwned(db: Db, held: set<Res>, work: Work, wh: int, ls: seq<Allocation>, w: Writes)
    requires ReadyInv(db, held, work, wh, ls, w)
    ensures Owned(db, held, w)
  {
    if !work.Stocking? { LinesOwned(db, held, work, wh, ls, w); }
  }

  // So a commit leaves alone whatever another transaction holds.
  lemma CommitGuards(db: Db, held: set<Res>, w: Writes, others: set<Res>)
    requires Owned(db, held, w) && held !! others
    ensures Guarded(db, Publish(db, w), others)
  {
    var db' := Publish(db, w);
    forall ref | OrderRef(ref) in others && RefTaken(db'.headers, ref) ensures RefTaken(db.headers, ref) {
      var id :| id in db'.headers && db'.headers[id].orderRef == ref;
    }
  }

  // What a commit answers and which atomic command it is -------------------------------------------

  // The command as one atomic step: settlements and stock commands do what they decide on this
  // state; a booking may take any active warehouse that covers every line.
  ghost predicate Atomic(db: Db, work: Work, ev: Event, reply: Reply) {
    match work
    case Booking(id, orderRef, hash, items) =>
      && ev.ReserveEv? && Active(db, ev.wh) && Fulfills(db.balances, ev.wh, items)
      && ev == ReserveEv(id, orderRef, hash, ev.wh, LinesMap(AllocateFrom(items, ev.wh)))
      && reply == Held(Reserved, AllocateFrom(items, ev.wh), false)
    case Settlement(id, op, reason) => DecideSettle(db, id, op, reason) == (Some(ev), reply)
    case Stocking(act, cmd) => DecideStock(db, act, cmd) == (Some(ev), reply)
  }

  lemma BookingAtomic(db: Db, held: set<Res>, work: Work, wh: int, ls: seq<Allocation>)
    requires work.Booking? && Planned(db, held, work, wh, ls)
    ensures Atomic(db, work, EventOf(work, wh, ls), SuccessOf(work, ls))
  {
    forall i | 0 <= i < |work.items| ensures AtpAt(db.balances, Key(work.items[i].sku, wh)) >= work.items[i].qty {
      assert Covered(db.balances, held, wh, work.items[i]);
    }
  }

  lemma SettlementAtomic(db: Db, held: set<Res>, work: Work)
    requires work.Settlement? && Admitted(work) && Opened(db, held, work)
    requires Step(db, SettleEv(work.id, work.op, work.reason)).Some?
    ensures DecideSettle(db, work.id, work.op, work.reason)
         == (Some(SettleEv(work.id, work.op, work.reason)), Settled(StatusAfter(work.op)))
  {
    SettleDecides(db, work.id, work.op, work.reason);
  }

  lemma StockingAtomic(db: Db, held: set<Res>, act: StockAction, cmd: StockCommand, w: Writes)
    requires StockReady(db, held, act, cmd, w)
    ensures DecideStock(db, act, cmd) == (Some(StockEv(act, cmd)), Applied(true))
  {
  }

  lemma ReadyAtomic(db: Db, held: set<Res>, work: Work, wh: int, ls: seq<Allocation>, w: Writes)
    requires LinesOk(db.balances, db.headers, db.lines) && Admitted(work) && ReadyInv(db, held, work, wh, ls, w)
    ensures Atomic(db, work, EventOf(work, wh, ls), SuccessOf(work, ls))
  {
    match work
    case Booking(_, _, _, _) => BookingAtomic(db, held, work, wh, ls);
    case Settlement(_, _, _) =>
      SettlementCommits(db, held, work, wh, ls, w);
      SettlementAtomic(db, held, work);
    case Stocking(act, cmd) => StockingAtomic(db, held, act, cmd, w);
  }

  lemma BookingAnswer(db: Db, held: set<Res>, work: Work, wh: int, ls: seq<Allocation>, w: Writes)
    requires LinesOk(db.balances, db.headers, db.lines)
    requires work.Booking? && Admitted(work) && LinesReady(db, held, work, wh, ls, w)
    ensures ReplyTrue(Publish(db, w), work, SuccessOf(work, ls))
  {
    PlanDistinct(db, held, work, wh, ls);
    Collections.Whole(ls);
    AttachedIsNew(work.id, ls);
    Idempotency.FreshLinesStored(db.lines, work.id, work.items, wh);
  }

  lemma ReadyAnswer(db: Db, held: set<Res>, work: Work, wh: int, ls: seq<Allocation>, w: Writes)
    requires LinesOk(db.balances, db.headers, db.lines) && Admitted(work) && ReadyInv(db, held, work, wh, ls, w)
    ensures ReplyTrue(Publish(db, w), work, SuccessOf(work, ls))
  {
    match work
    case Booking(_, _, _, _) => BookingAnswer(db, held, work, wh, ls, w);
    case Settlement(_, _, _) =>
    case Stocking(_, _) =>
  }
}
