/** A transaction that nobody disturbs does what the sequential command does. */
module Alone {
  import opened CommandIds
  import opened Tables
  import opened Posting
  import opened Aggregation
  import opened Invariants
  import opened Commands
  import opened Reservations
  import opened Machine
  import opened Interleaving
  import opened Progress
  import opened Refinement
  import opened Concurrency
  import Canonical
  import Collections
  import Deadlock
  import ReservationWrites

  ghost predicate Unseen(db: Db, work: Work)
    requires work.Booking?
  {
    HeaderFits(work.id, work.orderRef) && work.id !in db.headers
  }

  // The unlocked scan of this state chooses wh.
  ghost predicate Chooses(db: Db, work: Work, wh: int)
    requires work.Booking?
  {
    && Unseen(db, work) && !RefTaken(db.headers, work.orderRef)
    && FirstFulfilling(db.balances, ActiveIds(db.warehouses), work.items) == Some(wh)
  }

  ghost predicate Refuses(db: Db, work: Work, short: seq<Shortage>)
    requires work.Booking?
  {
    var ids := ActiveIds(db.warehouses);
    && Unseen(db, work) && !RefTaken(db.headers, work.orderRef)
    && FirstFulfilling(db.balances, ids, work.items) == None
    && short == Shortages(db.balances, Baseline(ids), work.items)
  }

  // Where an undisturbed transaction can stand, the tables being still as it found them.
  ghost predicate Undisturbed(db: Db, tx: Tx) {
    Fits(tx) &&
    match tx.pc
    case Claim | LockHead | LoadHead | ClaimCommand | Flip(_) => true
    case Enter => Unseen(db, tx.work)
    case Refer(clear) => clear && Unseen(db, tx.work)
    case Scan => Unseen(db, tx.work) && !RefTaken(db.headers, tx.work.orderRef)
    case Gather(wh) => Chooses(db, tx.work, wh)
    case LockRows(wh, keys, n, atp) =>
      && Chooses(db, tx.work, wh) && keys == KeysToLock(db.balances, wh, tx.work.items)
      && n <= |keys| && forall i | 0 <= i < n :: keys[i].sku in atp
    case Classify(from, short) => from == None && Refuses(db, tx.work, short)
    case ReplayHead(outside) =>
      && HeaderFits(tx.work.id, tx.work.orderRef)
      && if outside then tx.work.id !in db.headers && RefTaken(db.headers, tx.work.orderRef) else tx.work.id in db.headers
    case ReplayLines(status) =>
      && HeaderFits(tx.work.id, tx.work.orderRef) && tx.work.id in db.headers
      && db.headers[tx.work.id] == Header(tx.work.orderRef, tx.work.hash, status)
    case Post(wh, _, _, _) => tx.work.Booking? ==> Chooses(db, tx.work, wh)
    case Ready(wh, _) => tx.work.Booking? ==> Chooses(db, tx.work, wh)
    case Compare | Move => ValidCommand(tx.work.act, tx.work.cmd) && MovementFits(tx.work.cmd.commandId, StockRow(tx.work.act, tx.work.cmd))
    case Done(_) => false
  }

  // What others hold is nothing this work can ask for.
  predicate Apart(locks: map<Res, nat>, t: nat, work: Work) {
    forall r | r in locks && locks[r] != t :: Elsewhere(r, work)
  }

  predicate Elsewhere(r: Res, work: Work) {
    match r
    case ReservationId(id) => work.Stocking? || id != IdOf(work)
    case OrderRef(orderRef) => !work.Booking? || orderRef != work.orderRef
    case _ => false
  }

  // What the sequential command decides, for the same work.
  function Decided(db: Db, work: Work, region: string): (Option<Event>, Reply)
    requires Admitted(work)
  {
    match work
    case Booking(id, orderRef, _, items) => DecideReserve(db, id, orderRef, items, region)
    case Settlement(id, op, reason) => DecideSettle(db, id, op, reason)
    case Stocking(act, cmd) => DecideStock(db, act, cmd)
  }

  // The work's request text is that of its own basket.
  predicate Digested(work: Work, region: string)
    requires Admitted(work)
  {
    work.Booking? ==> work.hash == Canonical.Encode(work.items, region)
  }

  ghost predicate Follows(db: Db, work: Work, region: string, o: Outcome)
    requires Admitted(work)
  {
    match o
    case Wait(_) => false
    case Go(pc, w, _) => Undisturbed(db, Tx(work, pc, w))
    case Undo(pc) => if pc.Done? then Decided(db, work, region) == (None, pc.reply) else Undisturbed(db, Tx(work, pc, NO_WRITES))
    case Finish(ev, reply) => Decided(db, work, region) == (Some(ev), reply)
  }

  lemma ClaimFollows(db: Db, locks: map<Res, nat>, t: nat, tx: Tx, region: string)
    requires Apart(locks, t, tx.work) && Admitted(tx.work) && Digested(tx.work, region) && Undisturbed(db, tx)
    requires tx.pc.Claim? || tx.pc.Enter? || tx.pc.Refer? || tx.pc.Scan? || tx.pc.Gather?
    ensures Follows(db, tx.work, region, Advance(db, locks, t, tx))
  {
    match tx.pc
    case _ =>
  }

  lemma ReplayFollows(db: Db, locks: map<Res, nat>, t: nat, tx: Tx, region: string)
    requires Apart(locks, t, tx.work) && Admitted(tx.work) && Digested(tx.work, region) && Undisturbed(db, tx)
    requires tx.pc.ReplayHead? || tx.pc.ReplayLines? || tx.pc.Classify?
    ensures Follows(db, tx.work, region, Advance(db, locks, t, tx))
  {
    match tx.pc
    case _ =>
  }

  // With every row read, the locked re-check sees what the scan saw.
  lemma RecheckAgrees(balances: map<Key, Balance>, held: set<Res>, wh: int, items: seq<Item>, keys: seq<Key>, atp: map<string, int>)
    requires LockedSoFar(balances, held, wh, keys, |keys|, atp) && keys == KeysToLock(balances, wh, items)
    requires (forall i | 0 <= i < |keys| :: keys[i].sku in atp) && Fulfills(balances, wh, items)
    ensures ShortagesIn(atp, items) == []
  {
    forall i | 0 <= i < |items| ensures Get(atp, items[i].sku) == AtpAt(balances, Key(items[i].sku, wh)) {
      var k := Key(items[i].sku, wh);
      assert Mentions(items, k.sku);
      if k in balances {
        assert k in keys;
        var j :| 0 <= j < |keys| && keys[j] == k;
        assert keys[j].sku in atp;
      }
      Collections.Whole(keys);
    }
    SnapshotShortages(balances, Some(wh), items, atp);
    NoShortage(balances, wh, items);
  }

  lemma SeenNext(keys: seq<Key>, n: nat, atp: map<string, int>, x: int)
    requires n < |keys| && forall i | 0 <= i < n :: keys[i].sku in atp
    ensures forall i | 0 <= i < n + 1 :: keys[i].sku in atp[keys[n].sku := x]
  {
  }

  lemma NextRow(db: Db, locks: map<Res, nat>, t: nat, tx: Tx, region: string)
    requires Apart(locks, t, tx.work) && Admitted(tx.work) && Undisturbed(db, tx) && tx.pc.LockRows? && tx.pc.n < |tx.pc.keys|
    ensures Follows(db, tx.work, region, LockStep(db, locks, t, tx))
  {
    SeenNext(tx.pc.keys, tx.pc.n, tx.pc.atp, AtpAt(db.balances, tx.pc.keys[tx.pc.n]));
  }

  lemma AllLocked(db: Db, locks: map<Res, nat>, t: nat, tx: Tx, region: string)
    requires Admitted(tx.work) && Undisturbed(db, tx) && tx.pc.LockRows? && tx.pc.n == |tx.pc.keys|
    requires ShortagesIn(tx.pc.atp, tx.work.items) == []
    ensures Follows(db, tx.work, region, LockStep(db, locks, t, tx))
  {
  }

  lemma LockFollows(db: Db, locks: map<Res, nat>, t: nat, held: set<Res>, tx: Tx, region: string)
    requires Apart(locks, t, tx.work) && Admitted(tx.work) && Undisturbed(db, tx) && tx.pc.LockRows?
    requires LockedSoFar(db.balances, held, tx.pc.wh, tx.pc.keys, tx.pc.n, tx.pc.atp)
    ensures Follows(db, tx.work, region, LockStep(db, locks, t, tx))
  {
    if tx.pc.n < |tx.pc.keys| {
      NextRow(db, locks, t, tx, region);
    } else {
      RecheckAgrees(db.balances, held, tx.pc.wh, tx.work.items, tx.pc.keys, tx.pc.atp);
      AllLocked(db, locks, t, tx, region);
    }
  }

  // A failing line is a failing command.

  lemma LineBlocks(db: Db, op: Op, id: string, ls: seq<Allocation>, reason: string, n: nat)
    requires n < |ls| && !ReservationWrites.CanPost(db, op, id, ls[n], reason)
    ensures !ReservationWrites.AllPost(db, op, id, ls, reason)
  {
    ReservationWrites.AllPostIff(db, op, id, ls, reason);
  }

  lemma SettlementBlocked(db: Db, work: Work, ls: seq<Allocation>, n: nat)
    requires work.Settlement? && Admitted(work) && StatusOf(db, work.id) == Some(Reserved) && ls == LoadLines(db.lines, work.id)
    requires n < |ls| && !ReservationWrites.CanPost(db, work.op, work.id, ls[n], work.reason)
    ensures DecideSettle(db, work.id, work.op, work.reason) == (None, Failed(StorageError))
  {
    LineBlocks(db, work.op, work.id, ls, work.reason, n);
    ReservationWrites.SettleLegalIff(db, work.op, work.id, work.reason);
    SettleFails(db, work.id, work.op, work.reason);
  }

  lemma BookingDecides(db: Db, work: Work, wh: int, region: string)
    requires work.Booking? && Admitted(work) && Digested(work, region) && Chooses(db, work, wh)
    ensures DecideReserve(db, work.id, work.orderRef, work.items, region)
         == Attempt(db, EventOf(work, wh, AllocateFrom(work.items, wh)), Held(Reserved, AllocateFrom(work.items, wh), false))
    ensures Active(db, wh) && Fulfills(db.balances, wh, work.items)
  {
  }

  lemma BookingBlocked(db: Db, work: Work, wh: int, n: nat, region: string)
    requires work.Booking? && Admitted(work) && Digested(work, region) && Chooses(db, work, wh)
    requires n < |work.items| && !ReservationWrites.CanPost(db, Hold, work.id, AllocateFrom(work.items, wh)[n], "")
    ensures DecideReserve(db, work.id, work.orderRef, work.items, region) == (None, Failed(StorageError))
  {
    var ls := AllocateFrom(work.items, wh);
    BookingDecides(db, work, wh, region);
    LineBlocks(db, Hold, work.id, ls, "", n);
    ReservationWrites.ReserveLegalIff(db, work.id, work.orderRef, work.hash, work.items, wh);
    AttemptFails(db, EventOf(work, wh, ls), Held(Reserved, ls, false));
  }

  lemma Blocked(db: Db, held: set<Res>, work: Work, wh: int, ls: seq<Allocation>, n: nat, region: string)
    requires !work.Stocking? && Admitted(work) && Digested(work, region) && n < |ls| && Planned(db, held, work, wh, ls)
    requires if work.Booking? then Chooses(db, work, wh) else StatusOf(db, work.id) == Some(Reserved)
    requires !ReservationWrites.CanPost(db, OpOf(work), work.id, ls[n], ReasonOf(work))
    ensures Decided(db, work, region) == (None, Failed(StorageError))
  {
    if work.Booking? {
      BookingBlocked(db, work, wh, n, region);
    } else {
      SettlementBlocked(db, work, ls, n);
    }
  }

  // A posting statement goes on, or fails where the sequential command fails.
  ghost predicate PostsOrFails(db: Db, work: Work, wh: int, region: string, o: Outcome)
    requires Admitted(work)
  {
    match o
    case Go(pc, _, _) => pc.Post? && pc.wh == wh
    case Undo(pc) => pc == Done(Failed(StorageError)) && Decided(db, work, region) == (None, Failed(StorageError))
    case _ => false
  }

  lemma ShiftFollows(db: Db, locks: map<Res, nat>, t: nat, tx: Tx, region: string)
    requires Inv(db) && Apart(locks, t, tx.work) && Admitted(tx.work) && Digested(tx.work, region)
    requires !tx.work.Stocking? && tx.pc.Post? && tx.pc.n < |tx.pc.ls| && tx.pc.stage == Shift
    requires PostingInv(db, LocksOf(locks, t), tx.work, tx.w, tx.pc.wh, tx.pc.ls, tx.pc.n, Shift)
    ensures PostsOrFails(db, tx.work, tx.pc.wh, region, ShiftStep(db, locks, t, tx))
  {
    var Post(wh, ls, n, _) := tx.pc;
    if tx.work.Booking? {
      BookingShifts(db, locks, t, tx);
    } else {
      PlanDistinct(db, LocksOf(locks, t), tx.work, wh, ls);
      ShiftUnseen(db.balances, LocksOf(locks, t), tx.work.op, ls, n, tx.w.balances);
      if !ReservationWrites.CanPost(db, tx.work.op, tx.work.id, ls[n], tx.work.reason) {
        Blocked(db, LocksOf(locks, t), tx.work, wh, ls, n, region);
      }
    }
  }

  lemma RecordFollows(db: Db, locks: map<Res, nat>, t: nat, tx: Tx, region: string)
    requires Apart(locks, t, tx.work) && Admitted(tx.work) && Digested(tx.work, region)
    requires !tx.work.Stocking? && tx.pc.Post? && tx.pc.n < |tx.pc.ls| && tx.pc.stage == Record
    requires tx.work.Booking? ==> Chooses(db, tx.work, tx.pc.wh)
    requires PostingInv(db, LocksOf(locks, t), tx.work, tx.w, tx.pc.wh, tx.pc.ls, tx.pc.n, Record)
    ensures PostsOrFails(db, tx.work, tx.pc.wh, region, RecordStep(db, locks, t, tx))
  {
    var Post(wh, ls, n, _) := tx.pc;
    PlanDistinct(db, LocksOf(locks, t), tx.work, wh, ls);
    Deadlock.OwnRowsFree(OpOf(tx.work), tx.work.id, ReasonOf(tx.work), ls, n);
    if !ReservationWrites.CanPost(db, OpOf(tx.work), tx.work.id, ls[n], ReasonOf(tx.work)) {
      Blocked(db, LocksOf(locks, t), tx.work, wh, ls, n, region);
    }
  }

  lemma LineFollows(db: Db, locks: map<Res, nat>, t: nat, tx: Tx, region: string)
    requires Inv(db) && Apart(locks, t, tx.work) && Admitted(tx.work) && Digested(tx.work, region)
    requires !tx.work.Stocking? && tx.pc.Post? && tx.pc.n < |tx.pc.ls|
    requires tx.work.Booking? ==> Chooses(db, tx.work, tx.pc.wh)
    requires PostingInv(db, LocksOf(locks, t), tx.work, tx.w, tx.pc.wh, tx.pc.ls, tx.pc.n, tx.pc.stage)
    ensures PostsOrFails(db, tx.work, tx.pc.wh, region, PostStep(db, locks, t, tx))
  {
    match tx.pc.stage
    case Shift => ShiftFollows(db, locks, t, tx, region);
    case Attach => Deadlock.AttachGoes(db, LocksOf(locks, t), tx);
    case Record => RecordFollows(db, locks, t, tx, region);
  }

  lemma PostsOn(db: Db, work: Work, wh: int, region: string, o: Outcome)
    requires !work.Stocking? && Admitted(work) && PostsOrFails(db, work, wh, region, o)
    requires work.Booking? ==> Chooses(db, work, wh)
    ensures Follows(db, work, region, o)
  {
  }

  lemma AllPosted(db: Db, tx: Tx, region: string)
    requires Admitted(tx.work) && Undisturbed(db, tx) && tx.pc.Post?
    ensures Follows(db, tx.work, region, Go(if tx.work.Booking? then Ready(tx.pc.wh, tx.pc.ls) else Flip(tx.pc.ls), tx.w, None))
  {
  }

  lemma PostFollows(db: Db, locks: map<Res, nat>, t: nat, tx: Tx, region: string)
    requires Inv(db) && Apart(locks, t, tx.work) && Admitted(tx.work) && Digested(tx.work, region) && Undisturbed(db, tx)
    requires tx.pc.Post? && PostingInv(db, LocksOf(locks, t), tx.work, tx.w, tx.pc.wh, tx.pc.ls, tx.pc.n, tx.pc.stage)
    ensures Follows(db, tx.work, region, PostStep(db, locks, t, tx))
  {
    if tx.pc.n < |tx.pc.ls| {
      LineFollows(db, locks, t, tx, region);
      PostsOn(db, tx.work, tx.pc.wh, region, PostStep(db, locks, t, tx));
    } else {
      AllPosted(db, tx, region);
    }
  }

  lemma HeadFollows(db: Db, locks: map<Res, nat>, t: nat, tx: Tx, region: string)
    requires Apart(locks, t, tx.work) && Admitted(tx.work) && Undisturbed(db, tx)
    requires tx.pc.LockHead? || tx.pc.LoadHead? || tx.pc.Flip?
    ensures Follows(db, tx.work, region, Advance(db, locks, t, tx))
  {
    match tx.pc
    case _ =>
  }

  lemma StockFollows(db: Db, locks: map<Res, nat>, t: nat, held: set<Res>, tx: Tx, region: string)
    requires Apart(locks, t, tx.work) && TxInv(db, held, tx) && Undisturbed(db, tx)
    requires tx.pc.ClaimCommand? || tx.pc.Compare? || tx.pc.Move?
    ensures Follows(db, tx.work, region, Advance(db, locks, t, tx))
  {
    match tx.pc
    case _ =>
  }

  lemma ReadyFollows(db: Db, held: set<Res>, tx: Tx, region: string)
    requires Inv(db) && TxInv(db, held, tx) && Digested(tx.work, region) && Undisturbed(db, tx) && tx.pc.Ready?
    ensures Decided(db, tx.work, region) == (Some(EventOf(tx.work, tx.pc.wh, tx.pc.ls)), SuccessOf(tx.work, tx.pc.ls))
  {
    var Ready(wh, ls) := tx.pc;
    assert ReadyInv(db, held, tx.work, wh, ls, tx.w);
    ReadyCommits(db, held, tx.work, wh, ls, tx.w);
    ReadyAtomic(db, held, tx.work, wh, ls, tx.w);
    if tx.work.Booking? {
      BookingDecides(db, tx.work, wh, region);
      AttemptSucceeds(db, EventOf(tx.work, wh, ls), Held(Reserved, ls, false));
    }
  }

  lemma EarlyFollows(db: Db, locks: map<Res, nat>, t: nat, tx: Tx, region: string)
    requires Apart(locks, t, tx.work) && TxInv(db, LocksOf(locks, t), tx) && Digested(tx.work, region) && Undisturbed(db, tx)
    requires Early(tx.pc)
    ensures Follows(db, tx.work, region, Advance(db, locks, t, tx))
  {
    match tx.pc
    case Claim | Enter | Refer(_) | Scan | Gather(_) => ClaimFollows(db, locks, t, tx, region);
    case Classify(_, _) => ReplayFollows(db, locks, t, tx, region);
    case LockRows(_, _, _, _) => LockFollows(db, locks, t, LocksOf(locks, t), tx, region);
  }

  lemma ReadingFollows(db: Db, locks: map<Res, nat>, t: nat, tx: Tx, region: string)
    requires Apart(locks, t, tx.work) && TxInv(db, LocksOf(locks, t), tx) && Digested(tx.work, region) && Undisturbed(db, tx)
    requires Reading(tx.pc)
    ensures Follows(db, tx.work, region, Advance(db, locks, t, tx))
  {
    match tx.pc
    case ReplayHead(_) | ReplayLines(_) => ReplayFollows(db, locks, t, tx, region);
    case LockHead | LoadHead => HeadFollows(db, locks, t, tx, region);
    case ClaimCommand | Compare => StockFollows(db, locks, t, LocksOf(locks, t), tx, region);
  }

  lemma WritingFollows(db: Db, locks: map<Res, nat>, t: nat, tx: Tx, region: string)
    requires Inv(db) && Apart(locks, t, tx.work) && TxInv(db, LocksOf(locks, t), tx) && Digested(tx.work, region)
    requires Undisturbed(db, tx) && tx.pc.Post?
    ensures Follows(db, tx.work, region, Advance(db, locks, t, tx))
  {
    assert PostingInv(db, LocksOf(locks, t), tx.work, tx.w, tx.pc.wh, tx.pc.ls, tx.pc.n, tx.pc.stage);
    PostFollows(db, locks, t, tx, region);
  }

  lemma EndingFollows(db: Db, locks: map<Res, nat>, t: nat, tx: Tx, region: string)
    requires Inv(db) && Apart(locks, t, tx.work) && TxInv(db, LocksOf(locks, t), tx) && Digested(tx.work, region)
    requires Undisturbed(db, tx) && (tx.pc.Flip? || tx.pc.Move? || tx.pc.Ready?)
    ensures Follows(db, tx.work, region, Advance(db, locks, t, tx))
  {
    match tx.pc
    case Flip(_) => HeadFollows(db, locks, t, tx, region);
    case Move => StockFollows(db, locks, t, LocksOf(locks, t), tx, region);
    case Ready(_, _) => ReadyFollows(db, LocksOf(locks, t), tx, region);
  }

  lemma StepFollows(db: Db, locks: map<Res, nat>, t: nat, tx: Tx, region: string)
    requires Inv(db) && Apart(locks, t, tx.work) && TxInv(db, LocksOf(locks, t), tx) && Digested(tx.work, region) && Undisturbed(db, tx)
    ensures Follows(db, tx.work, region, Advance(db, locks, t, tx))
  {
    if Early(tx.pc) {
      EarlyFollows(db, locks, t, tx, region);
    } else if Reading(tx.pc) {
      ReadingFollows(db, locks, t, tx, region);
    } else if tx.pc.Post? {
      WritingFollows(db, locks, t, tx, region);
    } else {
      EndingFollows(db, locks, t, tx, region);
    }
  }

  // To the end --------------------------------------------------------------------------------------

  function Phase(pc: Pc): nat {
    match pc
    case Claim => 12
    case Enter => 11
    case Refer(_) => 10
    case Scan => 9
    case Gather(_) => 8
    case LockRows(_, _, _, _) => 7
    case LockHead => 7
    case LoadHead => 6
    case Post(_, _, _, _) => 5
    case ClaimCommand => 5
    case Flip(_) => 4
    case Move => 4
    case Ready(_, _) => 3
    case ReplayHead(_) => 3
    case ReplayLines(_) | Classify(_, _) | Compare => 2
    case Done(_) => 0
  }

  // Rows still to lock, or statements still to run.
  function Remaining(pc: Pc): nat {
    match pc
    case LockRows(_, keys, n, _) => if n <= |keys| then |keys| - n else 0
    case Post(_, ls, n, stage) =>
      var left := 3 * (|ls| - n) - (if stage == Shift then 0 else if stage == Attach then 1 else 2);
      if left >= 0 then left else 0
    case _ => 0
  }

  predicate Nearer(pc': Pc, pc: Pc) {
    Phase(pc') < Phase(pc) || (Phase(pc') == Phase(pc) && Remaining(pc') < Remaining(pc))
  }

  lemma BookingNears(db: Db, locks: map<Res, nat>, t: nat, tx: Tx)
    requires Fits(tx) && (tx.pc.Claim? || tx.pc.Enter? || tx.pc == Refer(true) || tx.pc.Scan? || tx.pc.Gather? || tx.pc.Classify?)
    ensures var o := Advance(db, locks, t, tx); (o.Go? || o.Undo?) ==> Nearer(o.pc, tx.pc)
  {
  }

  lemma LockNears(db: Db, locks: map<Res, nat>, t: nat, tx: Tx)
    requires tx.work.Booking? && tx.pc.LockRows? && tx.pc.n <= |tx.pc.keys|
    ensures var o := LockStep(db, locks, t, tx); (o.Go? || o.Undo?) ==> Nearer(o.pc, tx.pc)
  {
  }

  lemma ReadingNears(db: Db, locks: map<Res, nat>, t: nat, tx: Tx)
    requires Fits(tx) && Reading(tx.pc) && !tx.pc.Done?
    ensures var o := Advance(db, locks, t, tx); (o.Go? || o.Undo?) ==> Nearer(o.pc, tx.pc)
  {
  }

  lemma LateNears(db: Db, locks: map<Res, nat>, t: nat, tx: Tx)
    requires Fits(tx) && (tx.pc.Flip? || tx.pc.Move? || tx.pc.Ready?)
    ensures var o := Advance(db, locks, t, tx); (o.Go? || o.Undo?) ==> Nearer(o.pc, tx.pc)
  {
  }

  // Every statement an undisturbed transaction runs brings it nearer to its end.
  lemma StepNears(db: Db, locks: map<Res, nat>, t: nat, held: set<Res>, tx: Tx)
    requires TxInv(db, held, tx) && Undisturbed(db, tx)
    ensures var o := Advance(db, locks, t, tx); (o.Go? || o.Undo?) ==> Nearer(o.pc, tx.pc)
  {
    if tx.pc.LockRows? {
      LockNears(db, locks, t, tx);
    } else if Early(tx.pc) {
      BookingNears(db, locks, t, tx);
    } else if Reading(tx.pc) {
      ReadingNears(db, locks, t, tx);
    } else if tx.pc.Post? {
      PostNears(locks, t, tx, db);
    } else {
      LateNears(db, locks, t, tx);
    }
  }

  lemma PostNears(locks: map<Res, nat>, t: nat, tx: Tx, db: Db)
    requires !tx.work.Stocking? && tx.pc.Post? && tx.pc.n <= |tx.pc.ls| && (tx.pc.stage == Shift || tx.pc.n < |tx.pc.ls|)
    ensures var o := PostStep(db, locks, t, tx); (o.Go? || o.Undo?) ==> Nearer(o.pc, tx.pc)
  {
  }

  function RunFor(s: Sys, t: nat, n: nat): Sys
    decreases n
  {
    if n == 0 then s else RunFor(Act(s, Run(t)), t, n - 1)
  }

  // After n statements transaction t has ended with this answer, on these tables.
  predicate EndsIn(s: Sys, t: nat, n: nat, db: Db, reply: Reply) {
    var s' := RunFor(s, t, n);
    t in s'.txs && s'.txs[t].pc == Done(reply) && s'.db == db
  }

  lemma OneMore(s: Sys, t: nat, n: nat, db: Db, reply: Reply)
    requires EndsIn(Act(s, Run(t)), t, n, db, reply)
    ensures EndsIn(s, t, n + 1, db, reply)
  {
  }

  // Transaction t meets nobody else's locks, and stands where an undisturbed one can.
  ghost predicate OnItsOwn(s: Sys, t: nat, region: string) {
    && SysInv(s) && Live(s, t) && Apart(s.locks, t, s.txs[t].work)
    && Digested(s.txs[t].work, region) && Undisturbed(s.db, s.txs[t])
  }

  lemma LastStep(s: Sys, t: nat, region: string)
    requires OnItsOwn(s, t, region) && s.txs[t].pc.Ready?
    ensures var (ev, reply) := Decided(s.db, s.txs[t].work, region); EndsIn(Act(s, Run(t)), t, 0, After(s.db, ev), reply)
  {
    ReadyFollows(s.db, LocksOf(s.locks, t), s.txs[t], region);
    CommitKeeps(s, t, true);
  }

  lemma Answered(s: Sys, t: nat, region: string, reply: Reply)
    requires OnItsOwn(s, t, region) && Advance(s.db, s.locks, t, s.txs[t]) == Undo(Done(reply))
    ensures var (ev, reply) := Decided(s.db, s.txs[t].work, region); EndsIn(Act(s, Run(t)), t, 0, After(s.db, ev), reply)
  {
    StepFollows(s.db, s.locks, t, s.txs[t], region);
  }

  lemma StillApart(s: Sys, t: nat)
    requires Live(s, t) && !s.txs[t].pc.Ready? && Apart(s.locks, t, s.txs[t].work)
    ensures Apart(Act(s, Run(t)).locks, t, s.txs[t].work)
  {
    OnlyReadyFinishes(s.db, s.locks, t, s.txs[t]);
  }

  lemma StillUndisturbed(db: Db, tx: Tx, region: string, o: Outcome)
    requires Admitted(tx.work) && Follows(db, tx.work, region, o) && !(o.Undo? && o.pc.Done?) && !o.Finish?
    ensures Undisturbed(db, NextTx(o, tx)) && NextTx(o, tx).work == tx.work && (o.Go? || o.Undo?) && NextTx(o, tx).pc == o.pc
  {
  }

  lemma OneStep(s: Sys, t: nat, region: string)
    requires OnItsOwn(s, t, region) && !s.txs[t].pc.Ready?
    requires var o := Advance(s.db, s.locks, t, s.txs[t]); !(o.Undo? && o.pc.Done?)
    ensures var s' := Act(s, Run(t));
            && OnItsOwn(s', t, region) && s'.db == s.db && s'.txs[t].work == s.txs[t].work
            && Nearer(s'.txs[t].pc, s.txs[t].pc)
  {
    var tx, o := s.txs[t], Advance(s.db, s.locks, t, s.txs[t]);
    StepFollows(s.db, s.locks, t, tx, region);
    StepNears(s.db, s.locks, t, LocksOf(s.locks, t), tx);
    OnlyReadyFinishes(s.db, s.locks, t, tx);
    StillUndisturbed(s.db, tx, region, o);
    RunKeeps(s, t);
    RunMoves(s, t);
    StillApart(s, t);
  }

  lemma {:induction false} OnItsOwnEnds(s: Sys, t: nat, region: string)
    requires OnItsOwn(s, t, region)
    ensures var (ev, reply) := Decided(s.db, s.txs[t].work, region); exists n :: EndsIn(s, t, n, After(s.db, ev), reply)
    decreases Phase(s.txs[t].pc), Remaining(s.txs[t].pc)
  {
    var (ev, reply) := Decided(s.db, s.txs[t].work, region);
    var o, s' := Advance(s.db, s.locks, t, s.txs[t]), Act(s, Run(t));
    if s.txs[t].pc.Ready? {
      LastStep(s, t, region);
      OneMore(s, t, 0, After(s.db, ev), reply);
    } else if o.Undo? && o.pc.Done? {
      Answered(s, t, region, o.pc.reply);
      OneMore(s, t, 0, After(s.db, ev), reply);
    } else {
      OneStep(s, t, region);
      OnItsOwnEnds(s', t, region);
      var n :| EndsIn(s', t, n, After(s.db, ev), reply);
      OneMore(s, t, n, After(s.db, ev), reply);
    }
  }

  function RegionOf(c: Command): string {
    if c.Reserve? then c.req.region else ""
  }

  lemma DecidedIsDecide(db: Db, c: Command)
    requires Admitted(WorkOf(c))
    ensures Decided(db, WorkOf(c), RegionOf(c)) == Decide(db, c)
    ensures Digested(WorkOf(c), RegionOf(c))
  {
    if c.Reserve? { AggregateTotals(c.req.items); }
  }

  // Begun while nothing it needs is locked and left to itself, a transaction ends, and ends with the
  // tables and the answer of the sequential command: in particular a Reserve takes the lowest active
  // warehouse id that covers every line.
  lemma AloneIsSequential(s: Sys, t: nat, c: Command)
    requires SysInv(s) && t !in s.txs && Admitted(WorkOf(c)) && Apart(s.locks, t, WorkOf(c))
    ensures exists n :: EndsIn(Act(s, Begin(t, WorkOf(c))), t, n, Exec(s.db, c), Answer(s.db, c))
  {
    var s1 := Act(s, Begin(t, WorkOf(c)));
    BeginKeeps(s, t, WorkOf(c));
    DecidedIsDecide(s.db, c);
    assert s1.txs[t] == Tx(WorkOf(c), Start(WorkOf(c)), NO_WRITES);
    OnItsOwnEnds(s1, t, RegionOf(c));
    var (ev, reply) := Decided(s.db, WorkOf(c), RegionOf(c));
    var n :| EndsIn(s1, t, n, After(s.db, ev), reply);
    assert After(s.db, ev) == Exec(s.db, c) && reply == Answer(s.db, c);
  }
}
