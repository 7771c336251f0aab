/** Why no set of transactions can wait for each other, and why no hold can fail once it is posting. */
module Deadlock {
  import opened Validate
  import opened CommandIds
  import opened Tables
  import opened Posting
  import opened Aggregation
  import opened Invariants
  import opened Redeem
  import opened Commands
  import opened Machine
  import opened Interleaving
  import opened Progress
  import opened Refinement
  import opened Concurrency
  import Ordering
  import Text

  // The one order in which contended things are taken ------------------------------------------

  function Class(r: Res): nat {
    match r
    case ReservationId(_) => 0
    case OrderRef(_) => 1
    case CommandKey(_) => 2
    case BalanceRow(_) => 3
  }

  // Reservation id, order reference, admin command id, then balance rows by (warehouse, sku).
  predicate Before(a: Res, b: Res) {
    Class(a) < Class(b) || (a.BalanceRow? && b.BalanceRow? && LessKey(a.k, b.k))
  }

  lemma BeforeIsStrict(a: Res, b: Res, c: Res)
    ensures !Before(a, a)
    ensures Before(a, b) && Before(b, c) ==> Before(a, c)
  {
    if a.BalanceRow? { Text.LessIrreflexive(a.k.sku); }
    if a.BalanceRow? && b.BalanceRow? && c.BalanceRow? && Text.Less(a.k.sku, b.k.sku) && Text.Less(b.k.sku, c.k.sku) {
      Text.LessTransitive(a.k.sku, b.k.sku, c.k.sku);
    }
  }

  // What a transaction can have locked by the time it stands at a statement -----------------------

  // The ledger id of one of the first n lines.
  predicate Own(c: string, op: Op, id: string, ls: seq<Allocation>, n: nat)
    requires n <= |ls|
  {
    exists i | 0 <= i < n :: c == CommandId(op, id, ls[i].sku)
  }

  predicate RowOf(k: Key, ls: seq<Allocation>, n: nat)
    requires n <= |ls|
  {
    exists i | 0 <= i < n :: k == Key(ls[i].sku, ls[i].wh)
  }

  predicate Lines(pc: Pc) {
    pc.Post? || pc.Flip? || pc.Ready?
  }

  // Lines whose ledger row is written.
  function Recorded(pc: Pc): (n: nat)
    requires Lines(pc)
    ensures n <= |pc.ls|
  {
    if pc.Post? && pc.n <= |pc.ls| then pc.n else |pc.ls|
  }

  predicate MayHold(tx: Tx, r: Res) {
    match r
    case ReservationId(id) =>
      !tx.work.Stocking? && !(tx.pc.Claim? || tx.pc.LockHead?) && id == tx.work.id
    case OrderRef(_) =>
      tx.work.Booking? && !(tx.pc.Claim? || tx.pc.Enter? || tx.pc.Refer?)
    case CommandKey(c) =>
      if tx.work.Stocking? then !tx.pc.ClaimCommand? && c == tx.work.cmd.commandId
      else Lines(tx.pc) && Own(c, OpOf(tx.work), tx.work.id, tx.pc.ls, Recorded(tx.pc))
    case BalanceRow(k) =>
      if tx.work.Stocking? then tx.pc.Ready? || tx.pc.Done?
      else if tx.pc.LockRows? then k in tx.pc.keys[..if tx.pc.n <= |tx.pc.keys| then tx.pc.n else 0]
      else if tx.work.Settlement? then
        if tx.pc.Post? then RowOf(k, tx.pc.ls, if Shifts(tx.pc.n, tx.pc.stage) <= |tx.pc.ls| then Shifts(tx.pc.n, tx.pc.stage) else 0)
        else Lines(tx.pc)
      else
        match tx.pc
        case Classify(from, _) => from.Some? && BasketRow(k, from.value, tx.work.items)
        case Post(wh, _, _, _) => BasketRow(k, wh, tx.work.items)
        case Ready(wh, _) => BasketRow(k, wh, tx.work.items)
        case _ => false
  }

  // Every lock is one its owner may hold where it stands.
  ghost predicate Orderly(s: Sys) {
    forall r | r in s.locks :: s.locks[r] in s.txs && MayHold(s.txs[s.locks[r]], r)
  }

  // Moving on keeps what was locked accounted for, and accounts for what was just locked.
  ghost predicate Accounted(tx: Tx, o: Outcome) {
    o.Go? ==>
      && (forall r :: MayHold(tx, r) ==> MayHold(Tx(tx.work, o.pc, o.w), r))
      && (o.got.Some? ==> MayHold(Tx(tx.work, o.pc, o.w), o.got.value))
  }

  lemma ClaimAccounted(db: Db, locks: map<Res, nat>, t: nat, tx: Tx)
    requires Fits(tx) && Early(tx.pc) && !tx.pc.LockRows?
    ensures Accounted(tx, Advance(db, locks, t, tx))
  {
    match tx.pc
    case _ =>
  }

  lemma ReadingAccounted(db: Db, locks: map<Res, nat>, t: nat, tx: Tx)
    requires Fits(tx) && Reading(tx.pc) && !tx.pc.Done?
    ensures Accounted(tx, Advance(db, locks, t, tx))
  {
    match tx.pc
    case _ =>
  }

  lemma EndAccounted(db: Db, locks: map<Res, nat>, t: nat, tx: Tx)
    requires Fits(tx) && (tx.pc.Flip? || tx.pc.Move? || tx.pc.Ready?)
    ensures Accounted(tx, Advance(db, locks, t, tx))
  {
    match tx.pc
    case _ =>
  }

  lemma LockAccounted(db: Db, locks: map<Res, nat>, t: nat, tx: Tx)
    requires Fits(tx) && tx.pc.LockRows? && tx.pc.n <= |tx.pc.keys| && Listed(tx.pc.keys, tx.pc.wh, tx.work.items)
    ensures Accounted(tx, LockStep(db, locks, t, tx))
  {
    var LockRows(wh, keys, n, _) := tx.pc;
    if n < |keys| {
      assert forall k | k in keys[..n] :: k in keys[..n + 1];
      assert keys[..n + 1][n] == keys[n];
    }
  }

  lemma PostAccounted(db: Db, locks: map<Res, nat>, t: nat, tx: Tx)
    requires !tx.work.Stocking? && tx.pc.Post? && tx.pc.n <= |tx.pc.ls| && (tx.pc.stage == Shift || tx.pc.n < |tx.pc.ls|)
    requires tx.work.Booking? ==> tx.pc.ls == AllocateFrom(tx.work.items, tx.pc.wh)
    ensures Accounted(tx, PostStep(db, locks, t, tx))
  {
    var Post(wh, ls, n, stage) := tx.pc;
    if n < |ls| {
      assert RowOf(Key(ls[n].sku, ls[n].wh), ls, n + 1);
      assert Own(CommandId(OpOf(tx.work), tx.work.id, ls[n].sku), OpOf(tx.work), tx.work.id, ls, n + 1);
      match stage
      case Shift => ShiftAccounted(db, locks, t, tx);
      case Attach =>
      case Record =>
    }
  }

  lemma ShiftAccounted(db: Db, locks: map<Res, nat>, t: nat, tx: Tx)
    requires !tx.work.Stocking? && tx.pc.Post? && tx.pc.n < |tx.pc.ls| && tx.pc.stage == Shift
    requires tx.work.Booking? ==> tx.pc.ls == AllocateFrom(tx.work.items, tx.pc.wh)
    ensures Accounted(tx, ShiftStep(db, locks, t, tx))
  {
    var Post(wh, ls, n, _) := tx.pc;
    if tx.work.Booking? { assert Mentions(tx.work.items, tx.work.items[n].sku); }
    forall k | RowOf(k, ls, n) ensures RowOf(k, ls, n + 1) {
      var i :| 0 <= i < n && k == Key(ls[i].sku, ls[i].wh);
    }
    assert RowOf(Key(ls[n].sku, ls[n].wh), ls, n + 1);
  }

  lemma StepAccounted(db: Db, locks: map<Res, nat>, t: nat, held: set<Res>, tx: Tx)
    requires TxInv(db, held, tx) && !tx.pc.Done?
    ensures Accounted(tx, Advance(db, locks, t, tx))
  {
    if tx.pc.LockRows? {
      LockAccounted(db, locks, t, tx);
    } else if Early(tx.pc) {
      ClaimAccounted(db, locks, t, tx);
    } else if Reading(tx.pc) {
      ReadingAccounted(db, locks, t, tx);
    } else if tx.pc.Post? {
      PostAccounted(db, locks, t, tx);
    } else {
      EndAccounted(db, locks, t, tx);
    }
  }

  lemma SettleOrderly(s: Sys, t: nat, o: Outcome)
    requires Orderly(s) && t in s.txs && Accounted(s.txs[t], o)
    ensures Orderly(Settle(s, t, o))
  {
  }

  lemma ActOrderly(s: Sys, a: Action)
    requires SysInv(s) && Orderly(s)
    ensures Orderly(Act(s, a))
  {
    match a
    case Begin(_, _) =>
    case Abort(_) =>
    case Lose(_) =>
    case Run(t) =>
      if Live(s, t) {
        StepAccounted(s.db, s.locks, t, LocksOf(s.locks, t), s.txs[t]);
        SettleOrderly(s, t, Advance(s.db, s.locks, t, s.txs[t]));
      }
  }

  // What comes through the edge, whatever command ids the admins use -----------------------------------

  // Ids, SKUs and reasons as the edge admits them.
  predicate Edge(work: Work) {
    match work
    case Booking(id, _, _, items) => ValidReservationId(id) && forall i | 0 <= i < |items| :: ValidSku(items[i].sku)
    case Settlement(_, _, reason) => |reason| <= 64
    case Stocking(_, _) => true
  }

  ghost predicate Plain(s: Sys) {
    && SysInv(s) && Orderly(s) && Edged(s.db)
    && forall t | t in s.txs :: Edge(s.txs[t].work)
  }

  // And admin command ids outside the res:/rel:/cmt: forms.
  predicate Nice(work: Work) {
    Edge(work) && (work.Stocking? ==> !ReservationForm(work.cmd.commandId))
  }

  ghost predicate Kept(s: Sys) {
    Plain(s) && AdminsApart(s.db.movements) && forall t | t in s.txs :: Nice(s.txs[t].work)
  }

  lemma EventPlain(db: Db, held: set<Res>, work: Work, wh: int, ls: seq<Allocation>, w: Writes)
    requires Admitted(work) && Edge(work) && ReadyInv(db, held, work, wh, ls, w)
    ensures PlainEvent(EventOf(work, wh, ls))
  {
    if work.Booking? {
      PlanDistinct(db, held, work, wh, ls);
      PlainMap(work.items, wh);
    }
  }

  lemma PlainMap(items: seq<Item>, wh: int)
    requires Distinct(items) && forall i | 0 <= i < |items| :: ValidSku(items[i].sku)
    ensures forall s | s in LinesMap(AllocateFrom(items, wh)) :: ':' !in s
  {
    var a := AllocateFrom(items, wh);
    assert forall i, j | 0 <= i < j < |items| :: items[i].sku != items[j].sku;
    LinesMapMembers(a);
    forall s | s in LinesMap(a) ensures ':' !in s {
      var i :| 0 <= i < |a| && a[i].sku == s;
      assert ValidSku(items[i].sku);
    }
  }

  lemma CommitEdged(s: Sys, t: nat, told: bool)
    requires Plain(s) && Live(s, t) && s.txs[t].pc.Ready?
    ensures var db' := Act(s, Commitment(t, told)).db;
            && Edged(db')
            && (AdminsApart(s.db.movements) && Nice(s.txs[t].work) ==> AdminsApart(db'.movements))
  {
    CommitKeeps(s, t, told);
    var Ready(wh, ls) := s.txs[t].pc;
    EventPlain(s.db, LocksOf(s.locks, t), s.txs[t].work, wh, ls, s.txs[t].w);
    EventKeepsEdged(s.db, EventOf(s.txs[t].work, wh, ls), Act(s, Commitment(t, told)).db);
  }

  // The tables after any action.
  lemma ActEdged(s: Sys, a: Action)
    requires Plain(s)
    ensures Edged(Act(s, a).db)
    ensures Kept(s) ==> AdminsApart(Act(s, a).db.movements)
  {
    if a.Lose? && Live(s, a.t) && s.txs[a.t].pc.Ready? { CommitEdged(s, a.t, false); }
    if a.Run? && Live(s, a.t) {
      if s.txs[a.t].pc.Ready? { CommitEdged(s, a.t, true); } else { RunKeeps(s, a.t); }
    }
  }

  // No action changes what a transaction works on.
  lemma ActWorks(s: Sys, a: Action)
    ensures forall t | t in Act(s, a).txs ::
              if t in s.txs then Act(s, a).txs[t].work == s.txs[t].work else a.Begin? && Act(s, a).txs[t].work == a.work
  {
    if a.Run? && Live(s, a.t) { SettleWorks(s, a.t, Advance(s.db, s.locks, a.t, s.txs[a.t])); }
  }

  lemma SettleWorks(s: Sys, t: nat, o: Outcome)
    requires t in s.txs
    ensures Settle(s, t, o).txs.Keys == s.txs.Keys
    ensures forall u | u in s.txs :: Settle(s, t, o).txs[u].work == s.txs[u].work
  {
  }

  lemma ActPlain(s: Sys, a: Action)
    requires Plain(s) && (a.Begin? ==> Edge(a.work))
    ensures Plain(Act(s, a))
    ensures Kept(s) && (a.Begin? ==> Nice(a.work)) ==> Kept(Act(s, a))
  {
    ActKeeps(s, a);
    ActOrderly(s, a);
    ActEdged(s, a);
    ActWorks(s, a);
  }

  lemma {:induction false} SchedulePlain(warehouses: map<int, bool>, actions: seq<Action>)
    requires forall a | a in actions && a.Begin? :: Edge(a.work)
    ensures Plain(Execute(Boot(warehouses), actions))
  {
    if actions == [] {
      BootIsSound(warehouses);
    } else {
      var n := |actions| - 1;
      SchedulePlain(warehouses, actions[..n]);
      ActPlain(Execute(Boot(warehouses), actions[..n]), actions[n]);
    }
  }

  lemma {:induction false} ScheduleKept(warehouses: map<int, bool>, actions: seq<Action>)
    requires forall a | a in actions && a.Begin? :: Nice(a.work)
    ensures Kept(Execute(Boot(warehouses), actions))
  {
    if actions == [] {
      BootIsSound(warehouses);
    } else {
      var n := |actions| - 1;
      ScheduleKept(warehouses, actions[..n]);
      ActPlain(Execute(Boot(warehouses), actions[..n]), actions[n]);
    }
  }

  lemma PlannedPlain(db: Db, held: set<Res>, work: Work, wh: int, ls: seq<Allocation>, i: nat)
    requires !work.Stocking? && Edge(work) && PlainLines(db.lines) && Planned(db, held, work, wh, ls) && i < |ls|
    ensures ':' !in ls[i].sku
  {
    match work
    case Booking(_, _, _, items) => assert ValidSku(items[i].sku);
    case Settlement(id, _, _) =>
      assert ls[i] in AllocationsOf(db.lines, id);
      assert LineKey(id, ls[i].sku) in db.lines;
  }

  // Ledger ids of reservations are never contended ---------------------------------------------------

  lemma PostsHold(db: Db, held: set<Res>, tx: Tx)
    requires TxInv(db, held, tx) && Lines(tx.pc) && !tx.work.Stocking?
    ensures ReservationId(tx.work.id) in held
    ensures exists wh :: Planned(db, held, tx.work, wh, tx.pc.ls)
  {
    match tx.pc
    case Post(wh, ls, n, stage) => assert Planned(db, held, tx.work, wh, ls);
    case Flip(ls) => assert Planned(db, held, tx.work, 0, ls);
    case Ready(wh, ls) => assert LinesReady(db, held, tx.work, wh, ls, tx.w); assert Planned(db, held, tx.work, wh, ls);
  }

  // Two transactions posting the same ledger id would be posting for the same reservation, and only
  // one can hold its id.
  lemma SamePosting(s: Sys, t: nat, u: nat, c: string)
    requires Plain(s) && t in s.txs && u in s.txs
    requires var x := s.txs[t]; !x.work.Stocking? && Lines(x.pc) && Own(c, OpOf(x.work), x.work.id, x.pc.ls, |x.pc.ls|)
    requires var y := s.txs[u]; !y.work.Stocking? && Lines(y.pc) && Own(c, OpOf(y.work), y.work.id, y.pc.ls, |y.pc.ls|)
    ensures t == u
  {
    var x, y := s.txs[t], s.txs[u];
    PostsHold(s.db, LocksOf(s.locks, t), x);
    PostsHold(s.db, LocksOf(s.locks, u), y);
    var wx :| Planned(s.db, LocksOf(s.locks, t), x.work, wx, x.pc.ls);
    var wy :| Planned(s.db, LocksOf(s.locks, u), y.work, wy, y.pc.ls);
    var i :| 0 <= i < |x.pc.ls| && c == CommandId(OpOf(x.work), x.work.id, x.pc.ls[i].sku);
    var j :| 0 <= j < |y.pc.ls| && c == CommandId(OpOf(y.work), y.work.id, y.pc.ls[j].sku);
    PlannedPlain(s.db, LocksOf(s.locks, t), x.work, wx, x.pc.ls, i);
    PlannedPlain(s.db, LocksOf(s.locks, u), y.work, wy, y.pc.ls, j);
    CommandIdInjective(OpOf(x.work), x.work.id, x.pc.ls[i].sku, OpOf(y.work), y.work.id, y.pc.ls[j].sku);
  }

  lemma RecordNeverWaits(s: Sys, t: nat)
    requires Kept(s) && Live(s, t) && s.txs[t].pc.Post? && s.txs[t].pc.n < |s.txs[t].pc.ls|
    ensures var tx := s.txs[t];
            !Taken(s.locks, t, CommandKey(CommandId(OpOf(tx.work), tx.work.id, tx.pc.ls[tx.pc.n].sku)))
  {
    var tx := s.txs[t];
    var c := CommandId(OpOf(tx.work), tx.work.id, tx.pc.ls[tx.pc.n].sku);
    if Taken(s.locks, t, CommandKey(c)) {
      var u := s.locks[CommandKey(c)];
      CommandIdHasForm(OpOf(tx.work), tx.work.id, tx.pc.ls[tx.pc.n].sku);
      assert Own(c, OpOf(tx.work), tx.work.id, tx.pc.ls, |tx.pc.ls|);
      assert MayHold(s.txs[u], CommandKey(c));
      SamePosting(s, t, u, c);
    }
  }

  // Once it is posting, a transaction cannot fail -----------------------------------------------------

  lemma {:induction false} AttachedKeys(id: string, ls: seq<Allocation>, lk: LineKey)
    requires lk in AttachedLines(id, ls)
    ensures exists i :: 0 <= i < |ls| && lk == LineKey(id, ls[i].sku)
  {
    var n := |ls| - 1;
    if lk != LineKey(id, ls[n].sku) {
      AttachedKeys(id, ls[..n], lk);
      var i :| 0 <= i < n && lk == LineKey(id, ls[..n][i].sku);
      assert ls[..n][i] == ls[i];
    }
  }

  lemma OwnRowsFree(op: Op, id: string, reason: string, ls: seq<Allocation>, n: nat)
    requires DistinctSkus(ls) && n < |ls|
    ensures LineKey(id, ls[n].sku) !in AttachedLines(id, ls[..n])
    ensures CommandId(op, id, ls[n].sku) !in RecordedRows(op, id, reason, ls[..n])
  {
    if LineKey(id, ls[n].sku) in AttachedLines(id, ls[..n]) { AttachedKeys(id, ls[..n], LineKey(id, ls[n].sku)); }
    if CommandId(op, id, ls[n].sku) in RecordedRows(op, id, reason, ls[..n]) {
      RecordedKeys(op, id, reason, ls[..n], CommandId(op, id, ls[n].sku));
      SameReservationInjective(op, id);
    }
  }

  // The committed tables accept the line's ledger row, unless an admin row stands under its id.
  lemma RowAccepted(db: Db, held: set<Res>, work: Work, wh: int, ls: seq<Allocation>, n: nat, headers: map<string, Header>)
    requires Inv(db) && Edged(db) && !work.Stocking? && Admitted(work) && Edge(work) && n < |ls|
    requires Headed(db, held, work, headers) && Planned(db, held, work, wh, ls)
    ensures var c := CommandId(OpOf(work), work.id, ls[n].sku);
            && (c in db.movements <==> AdminRow(db.movements, c))
            && MovementFits(c, LedgerRow(OpOf(work), work.id, ls[n].sku, Line(ls[n].wh, ls[n].qty), ReasonOf(work)))
  {
    PlannedPlain(db, held, work, wh, ls, n);
    if CommandId(OpOf(work), work.id, ls[n].sku) in db.movements { IdTakenByAdmin(db, work.id, OpOf(work), ls[n].sku); }
    match work
    case Booking(id, _, _, items) =>
      assert ValidSku(items[n].sku);
      LengthCapIsTight(Hold, id);
    case Settlement(id, op, reason) =>
      LoadedLine(db.lines, id, n);
      RowFits(db, id, op, ls[n].sku, reason);
  }

  lemma LoadedLine(lines: map<LineKey, Line>, id: string, n: nat)
    requires n < |LoadLines(lines, id)|
    ensures var a := LoadLines(lines, id)[n];
            a.sku in LinesOf(lines, id) && LinesOf(lines, id)[a.sku] == Line(a.wh, a.qty)
  {
    assert LoadLines(lines, id)[n] in AllocationsOf(lines, id);
  }

  // The ledger INSERT of the line a transaction stands at.
  lemma RecordOutcome(s: Sys, t: nat)
    requires Plain(s) && Live(s, t) && s.txs[t].pc.Post? && s.txs[t].pc.n < |s.txs[t].pc.ls| && s.txs[t].pc.stage == Record
    ensures var tx := s.txs[t];
            var c := CommandId(OpOf(tx.work), tx.work.id, tx.pc.ls[tx.pc.n].sku);
            if AdminRow(s.db.movements, c) then RecordStep(s.db, s.locks, t, tx) == End(Failed(StorageError))
            else RecordStep(s.db, s.locks, t, tx).Go? || RecordStep(s.db, s.locks, t, tx) == Wait(CommandKey(c))
  {
    var tx, held := s.txs[t], LocksOf(s.locks, t);
    var Post(wh, ls, n, _) := tx.pc;
    assert PostingInv(s.db, held, tx.work, tx.w, wh, ls, n, Record);
    RowAccepted(s.db, held, tx.work, wh, ls, n, tx.w.headers);
    PlanDistinct(s.db, held, tx.work, wh, ls);
    OwnRowsFree(OpOf(tx.work), tx.work.id, ReasonOf(tx.work), ls, n);
  }

  lemma AttachGoes(db: Db, held: set<Res>, tx: Tx)
    requires Inv(db) && tx.work.Booking? && Admitted(tx.work) && tx.pc.Post? && tx.pc.n < |tx.pc.ls|
    requires PostingInv(db, held, tx.work, tx.w, tx.pc.wh, tx.pc.ls, tx.pc.n, Attach)
    ensures AttachStep(db, tx).Go?
  {
    var Post(wh, ls, n, _) := tx.pc;
    PlanDistinct(db, held, tx.work, wh, ls);
    OwnRowsFree(Hold, tx.work.id, "", ls, n);
  }

  lemma SettlementShifts(db: Db, locks: map<Res, nat>, t: nat, tx: Tx)
    requires Inv(db) && tx.work.Settlement? && Admitted(tx.work) && tx.pc.Post? && tx.pc.n < |tx.pc.ls|
    requires PostingInv(db, LocksOf(locks, t), tx.work, tx.w, tx.pc.wh, tx.pc.ls, tx.pc.n, Shift)
    ensures var k := Key(tx.pc.ls[tx.pc.n].sku, tx.pc.ls[tx.pc.n].wh);
            k in db.balances && (ShiftStep(db, locks, t, tx).Go? || ShiftStep(db, locks, t, tx) == Wait(BalanceRow(k)))
  {
    var Post(wh, ls, n, _) := tx.pc;
    OpenLinesMove(db, tx.work.id, tx.work.op);
    LoadedLine(db.lines, tx.work.id, n);
    PlanDistinct(db, LocksOf(locks, t), tx.work, wh, ls);
    ShiftUnseen(db.balances, LocksOf(locks, t), tx.work.op, ls, n, tx.w.balances);
  }

  // The statement is a ledger INSERT whose id an admin row already carries.
  ghost predicate Collides(s: Sys, t: nat)
    requires t in s.txs && s.txs[t].pc.Post? && !s.txs[t].work.Stocking?
  {
    var tx := s.txs[t];
    && tx.pc.n < |tx.pc.ls| && tx.pc.stage == Record
    && AdminRow(s.db.movements, CommandId(OpOf(tx.work), tx.work.id, tx.pc.ls[tx.pc.n].sku))
  }

  // Once a hold has passed its locked re-check, or a settlement has locked its header, exactly one
  // thing can make a statement of it fail: an admin row under the line's ledger id. No CHECK fails
  // midway and no UPDATE misses its row.
  lemma PostingFailsIff(s: Sys, t: nat)
    requires Plain(s) && Live(s, t) && s.txs[t].pc.Post?
    ensures var o := Advance(s.db, s.locks, t, s.txs[t]);
            if Collides(s, t) then o == End(Failed(StorageError)) else o.Go? || o.Wait?
  {
    var tx, held := s.txs[t], LocksOf(s.locks, t);
    var Post(wh, ls, n, stage) := tx.pc;
    assert PostingInv(s.db, held, tx.work, tx.w, wh, ls, n, stage);
    if n < |ls| {
      match stage
      case Shift =>
        if tx.work.Booking? { BookingShifts(s.db, s.locks, t, tx); } else { SettlementShifts(s.db, s.locks, t, tx); }
      case Attach => AttachGoes(s.db, held, tx);
      case Record => RecordOutcome(s, t);
    }
  }

  lemma RecordNeverCollides(s: Sys, t: nat)
    requires Kept(s) && Live(s, t) && s.txs[t].pc.Post?
    ensures !Collides(s, t)
  {
    var tx := s.txs[t];
    if tx.pc.n < |tx.pc.ls| { CommandIdHasForm(OpOf(tx.work), tx.work.id, tx.pc.ls[tx.pc.n].sku); }
  }

  lemma ShiftingWaitsFor(s: Sys, t: nat)
    requires SysInv(s) && Live(s, t) && s.txs[t].pc.Post? && s.txs[t].pc.n < |s.txs[t].pc.ls| && s.txs[t].pc.stage == Shift
    ensures var o := ShiftStep(s.db, s.locks, t, s.txs[t]); o.Wait? ==> s.txs[t].work.Settlement? && o.on.BalanceRow?
  {
    var tx := s.txs[t];
    assert PostingInv(s.db, LocksOf(s.locks, t), tx.work, tx.w, tx.pc.wh, tx.pc.ls, tx.pc.n, Shift);
    if tx.work.Booking? { BookingShifts(s.db, s.locks, t, tx); } else { ShiftWaitsFor(s.db, s.locks, t, tx); }
  }

  // What a posting statement that goes through can wait for.
  lemma PostingWaitsFor(s: Sys, t: nat)
    requires Kept(s) && Live(s, t) && s.txs[t].pc.Post?
    ensures var o := PostStep(s.db, s.locks, t, s.txs[t]); o.Wait? ==> s.txs[t].work.Settlement? && o.on.BalanceRow?
  {
    if s.txs[t].pc.n < |s.txs[t].pc.ls| {
      match s.txs[t].pc.stage
      case Shift => ShiftingWaitsFor(s, t);
      case Attach =>
      case Record => RecordNeverWaits(s, t);
    }
  }

  // Under the naming rule none fails at all, and a posting only ever waits, as a settlement, for a
  // balance row.
  lemma PostingNeverFails(s: Sys, t: nat)
    requires Kept(s) && Live(s, t) && s.txs[t].pc.Post?
    ensures var o := Advance(s.db, s.locks, t, s.txs[t]);
            o.Go? || (s.txs[t].work.Settlement? && o.Wait? && o.on.BalanceRow?)
  {
    PostingFailsIff(s, t);
    RecordNeverCollides(s, t);
    PostingWaitsFor(s, t);
  }

  // Waiting ------------------------------------------------------------------------------------------

  lemma RowsAscend(keys: seq<Key>, n: nat, k: Key)
    requires Ordering.Ascending(keys, LessKey) && n < |keys| && k in keys[..n]
    ensures LessKey(k, keys[n])
  {
    var i :| 0 <= i < n && keys[..n][i] == k;
    assert LessKey(keys[i], keys[n]);
  }

  lemma LockWaitsFor(db: Db, locks: map<Res, nat>, t: nat, tx: Tx)
    requires tx.work.Booking? && tx.pc.LockRows?
    ensures var o := LockStep(db, locks, t, tx); o.Wait? ==> tx.pc.n < |tx.pc.keys| && o.on == BalanceRow(tx.pc.keys[tx.pc.n])
  {
  }

  lemma LockWaitsUp(db: Db, locks: map<Res, nat>, t: nat, tx: Tx, r: Res)
    requires tx.work.Booking? && tx.pc.LockRows? && Ordering.Ascending(tx.pc.keys, LessKey) && MayHold(tx, r)
    ensures var o := LockStep(db, locks, t, tx); o.Wait? ==> Before(r, o.on)
  {
    LockWaitsFor(db, locks, t, tx);
    if r.BalanceRow? && tx.pc.n < |tx.pc.keys| { RowsAscend(tx.pc.keys, tx.pc.n, r.k); }
  }

  // Lines are posted in (warehouse, sku) order.
  lemma LinesAscend(lines: map<LineKey, Line>, id: string, n: nat, k: Key)
    requires n < |LoadLines(lines, id)| && RowOf(k, LoadLines(lines, id), n)
    ensures LessKey(k, Key(LoadLines(lines, id)[n].sku, LoadLines(lines, id)[n].wh))
  {
    var ls := LoadLines(lines, id);
    var i :| 0 <= i < n && k == Key(ls[i].sku, ls[i].wh);
    assert LessAllocation(ls[i], ls[n]);
  }

  lemma ShiftWaitsFor(db: Db, locks: map<Res, nat>, t: nat, tx: Tx)
    requires tx.pc.Post? && tx.pc.n < |tx.pc.ls|
    ensures var o := ShiftStep(db, locks, t, tx);
            o.Wait? ==> o.on == BalanceRow(Key(tx.pc.ls[tx.pc.n].sku, tx.pc.ls[tx.pc.n].wh))
  {
  }

  lemma SettlementWaitsUp(db: Db, locks: map<Res, nat>, t: nat, tx: Tx, r: Res)
    requires tx.work.Settlement? && tx.pc.Post? && tx.pc.n < |tx.pc.ls| && tx.pc.stage == Shift
    requires tx.pc.ls == LoadLines(db.lines, tx.work.id) && MayHold(tx, r)
    ensures var o := ShiftStep(db, locks, t, tx); o.Wait? ==> Before(r, o.on)
  {
    ShiftWaitsFor(db, locks, t, tx);
    if r.BalanceRow? {
      LinesAscend(db.lines, tx.work.id, tx.pc.n, r.k);
    }
  }

  // Transaction t is about to write a ledger row whose id an admin command holds.
  ghost predicate Squatted(s: Sys, t: nat) {
    && Live(s, t) && s.txs[t].pc.Post? && s.txs[t].pc.n < |s.txs[t].pc.ls| && s.txs[t].pc.stage == Record
    && var c := CommandId(OpOf(s.txs[t].work), IdOf(s.txs[t].work), s.txs[t].pc.ls[s.txs[t].pc.n].sku);
       SquattedBy(s, c)
  }

  ghost predicate SquattedBy(s: Sys, c: string) {
    && CommandKey(c) in s.locks && s.locks[CommandKey(c)] in s.txs
    && s.txs[s.locks[CommandKey(c)]].work.Stocking?
    && s.txs[s.locks[CommandKey(c)]].work.cmd.commandId == c
  }

  // A ledger id is only ever waited for when an admin command holds it.
  lemma RecordWaits(s: Sys, t: nat)
    requires Plain(s) && Live(s, t) && s.txs[t].pc.Post? && s.txs[t].pc.n < |s.txs[t].pc.ls| && s.txs[t].pc.stage == Record
    ensures RecordStep(s.db, s.locks, t, s.txs[t]).Wait? ==> Squatted(s, t)
  {
    var tx := s.txs[t];
    var c := CommandId(OpOf(tx.work), tx.work.id, tx.pc.ls[tx.pc.n].sku);
    if Taken(s.locks, t, CommandKey(c)) {
      var u := s.locks[CommandKey(c)];
      assert Own(c, OpOf(tx.work), tx.work.id, tx.pc.ls, |tx.pc.ls|);
      assert MayHold(s.txs[u], CommandKey(c));
      if !s.txs[u].work.Stocking? { SamePosting(s, t, u, c); }
    }
  }

  lemma ShiftWaits(s: Sys, t: nat)
    requires Plain(s) && Live(s, t) && s.txs[t].pc.Post? && s.txs[t].pc.n < |s.txs[t].pc.ls| && s.txs[t].pc.stage == Shift
    requires ShiftStep(s.db, s.locks, t, s.txs[t]).Wait?
    ensures s.txs[t].work.Settlement? && s.txs[t].pc.ls == LoadLines(s.db.lines, s.txs[t].work.id)
  {
    var tx := s.txs[t];
    assert PostingInv(s.db, LocksOf(s.locks, t), tx.work, tx.w, tx.pc.wh, tx.pc.ls, tx.pc.n, Shift);
    if tx.work.Booking? { BookingShifts(s.db, s.locks, t, tx); }
  }

  lemma PostWaitsUp(s: Sys, t: nat, r: Res)
    requires Plain(s) && Live(s, t) && s.txs[t].pc.Post? && MayHold(s.txs[t], r)
    ensures var o := PostStep(s.db, s.locks, t, s.txs[t]); o.Wait? ==> Before(r, o.on) || Squatted(s, t)
  {
    var tx := s.txs[t];
    if tx.pc.n < |tx.pc.ls| {
      match tx.pc.stage
      case Shift =>
        if ShiftStep(s.db, s.locks, t, tx).Wait? {
          ShiftWaits(s, t);
          SettlementWaitsUp(s.db, s.locks, t, tx, r);
        }
      case Attach =>
      case Record => RecordWaits(s, t);
    }
  }

  // A waiting transaction waits for something later in the order than everything it holds, unless
  // an admin command squats on its next ledger id.
  lemma WaitsUp(s: Sys, t: nat, r: Res)
    requires Plain(s) && Live(s, t) && r in s.locks && s.locks[r] == t
    ensures var o := Advance(s.db, s.locks, t, s.txs[t]); o.Wait? ==> Before(r, o.on) || Squatted(s, t)
  {
    var tx := s.txs[t];
    match tx.pc
    case Post(_, _, _, _) => PostWaitsUp(s, t, r);
    case LockRows(_, _, _, _) => LockWaitsUp(s.db, s.locks, t, tx, r);
    case _ => OtherWaitsUp(s.db, s.locks, t, tx, r);
  }

  lemma OtherWaitsUp(db: Db, locks: map<Res, nat>, t: nat, tx: Tx, r: Res)
    requires Fits(tx) && !tx.pc.Done? && !tx.pc.Post? && !tx.pc.LockRows? && MayHold(tx, r)
    ensures var o := Advance(db, locks, t, tx); o.Wait? ==> Before(r, o.on)
  {
  }

  // No deadlock ----------------------------------------------------------------------------------------

  // Transaction t cannot move until a member of group ends.
  predicate WaitsWithin(s: Sys, t: nat, group: set<nat>) {
    Live(s, t) && var o := Advance(s.db, s.locks, t, s.txs[t]); o.Wait? && o.on in s.locks && s.locks[o.on] in group
  }

  function WaitedFor(s: Sys, t: nat): Res
    requires Live(s, t)
  {
    var o := Advance(s.db, s.locks, t, s.txs[t]);
    if o.Wait? then o.on else ReservationId("")
  }

  ghost predicate Maximal(rs: set<Res>, m: Res) {
    m in rs && forall r | r in rs :: !Before(m, r)
  }

  lemma {:induction false} MaximalExists(rs: set<Res>)
    requires rs != {}
    ensures exists m :: Maximal(rs, m)
  {
    var x :| x in rs;
    BeforeIsStrict(x, x, x);
    if rs == {x} {
      assert Maximal(rs, x);
    } else {
      assert rs == {x} + (rs - {x});
      MaximalExists(rs - {x});
      var m :| Maximal(rs - {x}, m);
      var top := if Before(m, x) then x else m;
      forall r | r in rs ensures !Before(top, r) {
        BeforeIsStrict(m, x, r);
        BeforeIsStrict(top, top, top);
      }
      assert Maximal(rs, top);
    }
  }

  lemma WaiterOwns(s: Sys, t: nat, group: set<nat>)
    requires WaitsWithin(s, t, group)
    ensures WaitedFor(s, t) in s.locks && s.locks[WaitedFor(s, t)] in group
  {
  }

  // Among live transactions, either somebody waits for nobody of the group, or somebody is squatted on.
  lemma NoCycle(s: Sys, group: set<nat>)
    requires Plain(s) && group != {} && forall t | t in group :: Live(s, t)
    ensures exists t :: t in group && (!WaitsWithin(s, t, group) || Squatted(s, t))
  {
    var waiting := set t | t in group && WaitsWithin(s, t, group);
    if waiting == {} {
      var t :| t in group;
      assert t !in waiting;
    } else {
      var wanted := set t | t in waiting :: WaitedFor(s, t);
      var w :| w in waiting;
      assert WaitedFor(s, w) in wanted;
      MaximalExists(wanted);
      var m :| Maximal(wanted, m);
      var t :| t in waiting && WaitedFor(s, t) == m;
      WaiterOwns(s, t, group);
      var u := s.locks[m];
      WaitsUp(s, u, m);
      assert u in waiting ==> WaitedFor(s, u) in wanted;
    }
  }

  // Transaction t is about to write a ledger row whose id the stock command u holds as its own, and u
  // is about to change a balance row that v has locked.
  ghost predicate Entangled(s: Sys, t: nat, u: nat, v: nat) {
    && Live(s, t) && s.txs[t].pc.Post? && s.txs[t].pc.n < |s.txs[t].pc.ls| && s.txs[t].pc.stage == Record
    && Live(s, u) && s.txs[u].pc.Move?
    && Claims(s, u, CommandId(OpOf(s.txs[t].work), IdOf(s.txs[t].work), s.txs[t].pc.ls[s.txs[t].pc.n].sku))
    && Blocks(s, u, v)
  }

  ghost predicate Claims(s: Sys, u: nat, c: string)
    requires u in s.txs && s.txs[u].work.Stocking?
  {
    CommandKey(c) in s.locks && s.locks[CommandKey(c)] == u && s.txs[u].work.cmd.commandId == c
  }

  // The row that stock command u is to change is locked by v.
  ghost predicate Blocks(s: Sys, u: nat, v: nat)
    requires u in s.txs && s.txs[u].work.Stocking?
  {
    var k := Key(s.txs[u].work.cmd.sku, s.txs[u].work.cmd.wh);
    && BalanceRow(k) in s.locks && s.locks[BalanceRow(k)] == v != u
    && (s.txs[u].work.act == ReceiveStock || k in s.db.balances)
  }

  lemma RecordWaitsOn(db: Db, locks: map<Res, nat>, t: nat, tx: Tx)
    requires tx.pc.Post? && tx.pc.n < |tx.pc.ls| && tx.pc.stage == Record
    ensures var o, r := RecordStep(db, locks, t, tx), CommandKey(CommandId(OpOf(tx.work), IdOf(tx.work), tx.pc.ls[tx.pc.n].sku));
            (o.Wait? ==> o.on == r && Taken(locks, t, r)) && (o.Go? ==> !Taken(locks, t, r))
  {
  }

  // A stock command that holds its id waits, if at all, at its balance row.
  lemma ClaimantWaits(s: Sys, u: nat)
    requires Live(s, u) && s.txs[u].work.Stocking? && !s.txs[u].pc.ClaimCommand?
    ensures var o := Advance(s.db, s.locks, u, s.txs[u]);
            o.Wait? ==> s.txs[u].pc.Move? && Blocks(s, u, s.locks[o.on])
  {
  }

  // The claimant of an id is its stock command, which waits for a balance row if it waits.
  lemma ClaimantBlocked(s: Sys, c: string, group: set<nat>)
    requires Orderly(s) && SquattedBy(s, c) && WaitsWithin(s, s.locks[CommandKey(c)], group)
    ensures var u := s.locks[CommandKey(c)];
            s.txs[u].pc.Move? && Claims(s, u, c) && exists v :: v in group && Blocks(s, u, v)
  {
    var u := s.locks[CommandKey(c)];
    assert MayHold(s.txs[u], CommandKey(c));
    ClaimantWaits(s, u);
    assert Blocks(s, u, s.locks[Advance(s.db, s.locks, u, s.txs[u]).on]);
  }

  lemma SquatterInGroup(s: Sys, t: nat, group: set<nat>)
    requires Squatted(s, t) && WaitsWithin(s, t, group)
    ensures var tx := s.txs[t];
            var c := CommandId(OpOf(tx.work), IdOf(tx.work), tx.pc.ls[tx.pc.n].sku);
            SquattedBy(s, c) && s.locks[CommandKey(c)] in group
  {
    RecordWaitsOn(s.db, s.locks, t, s.txs[t]);
  }

  lemma SquatterWaits(s: Sys, t: nat, group: set<nat>)
    requires Orderly(s) && Squatted(s, t) && t in group && forall v | v in group :: WaitsWithin(s, v, group)
    ensures exists u, v :: u in group && v in group && Entangled(s, t, u, v)
  {
    var tx := s.txs[t];
    var c := CommandId(OpOf(tx.work), IdOf(tx.work), tx.pc.ls[tx.pc.n].sku);
    SquatterInGroup(s, t, group);
    var u := s.locks[CommandKey(c)];
    ClaimantBlocked(s, c, group);
    var v :| v in group && Blocks(s, u, v);
    assert Entangled(s, t, u, v);
  }

  ghost predicate EntangledWithin(s: Sys, group: set<nat>) {
    exists t, u, v :: t in group && u in group && v in group && Entangled(s, t, u, v)
  }

  lemma StuckGroup(s: Sys, group: set<nat>)
    requires Plain(s) && group != {} && forall t | t in group :: WaitsWithin(s, t, group)
    ensures EntangledWithin(s, group)
  {
    NoCycle(s, group);
    var t :| t in group && (!WaitsWithin(s, t, group) || Squatted(s, t));
    SquatterWaits(s, t, group);
    var u, v :| u in group && v in group && Entangled(s, t, u, v);
  }

  // In every reachable state, a group of transactions that all wait for each other contains a hold or
  // settlement waiting for a ledger id, the stock command that holds this id as its own, and the
  // owner of the balance row this stock command waits for: there is no other way to deadlock.
  lemma DeadlockNeedsSquatter(warehouses: map<int, bool>, actions: seq<Action>, group: set<nat>)
    requires forall a | a in actions && a.Begin? :: Edge(a.work)
    requires var s := Execute(Boot(warehouses), actions); group != {} && forall t | t in group :: WaitsWithin(s, t, group)
    ensures EntangledWithin(Execute(Boot(warehouses), actions), group)
  {
    SchedulePlain(warehouses, actions);
    StuckGroup(Execute(Boot(warehouses), actions), group);
  }

  lemma {:induction false} WorksBegun(warehouses: map<int, bool>, actions: seq<Action>, t: nat)
    requires t in Execute(Boot(warehouses), actions).txs
    ensures Begin(t, Execute(Boot(warehouses), actions).txs[t].work) in actions
  {
    if actions != [] {
      var n := |actions| - 1;
      var s := Execute(Boot(warehouses), actions[..n]);
      ActWorks(s, actions[n]);
      if t in s.txs {
        WorksBegun(warehouses, actions[..n], t);
      } else {
        assert actions[n].t == t by { OnlyBegun(s, actions[n], t); }
      }
    }
  }

  lemma OnlyBegun(s: Sys, a: Action, t: nat)
    requires t !in s.txs && t in Act(s, a).txs
    ensures a.Begin? && a.t == t
  {
    if a.Run? && Live(s, a.t) { SettleWorks(s, a.t, Advance(s.db, s.locks, a.t, s.txs[a.t])); }
  }

  // c begins res:<id>:, rel:<id>: or cmt:<id>:, as the ledger ids of this hold or settlement do.
  predicate LedgerId(work: Work, c: string) {
    !work.Stocking? && CommandId(OpOf(work), IdOf(work), "") <= c
  }

  lemma EntangledNamesake(s: Sys, t: nat, u: nat, v: nat)
    requires Entangled(s, t, u, v)
    ensures s.txs[u].work.Stocking? && LedgerId(s.txs[t].work, s.txs[u].work.cmd.commandId)
  {
    var tx := s.txs[t];
    var stem, sku := CommandId(OpOf(tx.work), IdOf(tx.work), ""), tx.pc.ls[tx.pc.n].sku;
    assert CommandId(OpOf(tx.work), IdOf(tx.work), sku) == stem + sku;
  }

  // Among the works begun, one stock command carries a ledger id of one hold or settlement.
  ghost predicate Namesakes(actions: seq<Action>) {
    exists t, u, work, other :: Begin(t, work) in actions && Begin(u, other) in actions
                                && other.Stocking? && LedgerId(work, other.cmd.commandId)
  }

  lemma EntangledBegun(warehouses: map<int, bool>, actions: seq<Action>, s: Sys, group: set<nat>)
    requires s == Execute(Boot(warehouses), actions) && EntangledWithin(s, group)
    ensures Namesakes(actions)
  {
    var t, u, v :| t in group && u in group && v in group && Entangled(s, t, u, v);
    EntangledNamesake(s, t, u, v);
    WorksBegun(warehouses, actions, t);
    WorksBegun(warehouses, actions, u);
  }

  // What a caller can check beforehand, for any number of transactions: a deadlock needs, among the
  // works begun, a stock command whose id is a ledger id of one of the holds or settlements.
  lemma DeadlockNeedsNamesake(warehouses: map<int, bool>, actions: seq<Action>, group: set<nat>)
    requires forall a | a in actions && a.Begin? :: Edge(a.work)
    requires var s := Execute(Boot(warehouses), actions); group != {} && forall t | t in group :: WaitsWithin(s, t, group)
    ensures Namesakes(actions)
  {
    DeadlockNeedsSquatter(warehouses, actions, group);
    EntangledBegun(warehouses, actions, Execute(Boot(warehouses), actions), group);
  }

  // Each waits for the other.
  ghost predicate Stuck(s: Sys, t: nat, u: nat) {
    WaitsWithin(s, t, {t, u}) && WaitsWithin(s, u, {t, u})
  }

  lemma EntangledRecordWaits(s: Sys, t: nat, u: nat)
    requires Plain(s) && t != u && Entangled(s, t, u, t)
    ensures WaitsWithin(s, t, {t, u})
  {
    assert TxInv(s.db, LocksOf(s.locks, u), s.txs[u]);
    RecordOutcome(s, t);
    RecordWaitsOn(s.db, s.locks, t, s.txs[t]);
  }

  lemma EntangledMoveWaits(s: Sys, t: nat, u: nat)
    requires t != u && Entangled(s, t, u, t)
    ensures WaitsWithin(s, u, {t, u})
  {
  }

  lemma EntangledIsStuck(s: Sys, t: nat, u: nat)
    requires Plain(s) && t != u && Entangled(s, t, u, t)
    ensures Stuck(s, t, u)
  {
    EntangledRecordWaits(s, t, u);
    EntangledMoveWaits(s, t, u);
  }

  lemma EntangledKinds(s: Sys, t: nat, u: nat, v: nat)
    requires Entangled(s, t, u, v)
    ensures t != u && u != v
  {
  }

  lemma EntangledPair(s: Sys, t: nat, u: nat)
    requires EntangledWithin(s, {t, u})
    ensures Entangled(s, t, u, t) || Entangled(s, u, t, u)
  {
    var a, b, v :| a in {t, u} && b in {t, u} && v in {t, u} && Entangled(s, a, b, v);
    EntangledKinds(s, a, b, v);
  }

  lemma StuckIsEntangled(s: Sys, t: nat, u: nat)
    requires Plain(s) && Stuck(s, t, u)
    ensures Entangled(s, t, u, t) || Entangled(s, u, t, u)
  {
    StuckGroup(s, {t, u});
    EntangledPair(s, t, u);
  }

  // Two transactions, whatever they are, wait for each other exactly when one is a stock command that
  // holds the other's next ledger id and wants a balance row the other has locked.
  lemma StuckIff(s: Sys, t: nat, u: nat)
    requires Plain(s) && t != u
    ensures Stuck(s, t, u) <==> Entangled(s, t, u, t) || Entangled(s, u, t, u)
  {
    if Stuck(s, t, u) {
      StuckIsEntangled(s, t, u);
    } else if Entangled(s, t, u, t) {
      EntangledIsStuck(s, t, u);
    } else if Entangled(s, u, t, u) {
      EntangledIsStuck(s, u, t);
    }
  }

  lemma NeverSquatted(s: Sys, t: nat)
    requires Kept(s)
    ensures !Squatted(s, t)
  {
    if Live(s, t) && s.txs[t].pc.Post? && s.txs[t].pc.n < |s.txs[t].pc.ls| && s.txs[t].pc.stage == Record {
      var tx := s.txs[t];
      CommandIdHasForm(OpOf(tx.work), IdOf(tx.work), tx.pc.ls[tx.pc.n].sku);
      assert !SquattedBy(s, CommandId(OpOf(tx.work), IdOf(tx.work), tx.pc.ls[tx.pc.n].sku));
    }
  }

  // So where callers keep admin ids out of the reservation forms, every group of live transactions
  // has a member that is not waiting for a member of the group: the wait-for graph has no cycle.
  lemma NoDeadlock(warehouses: map<int, bool>, actions: seq<Action>, group: set<nat>)
    requires forall a | a in actions && a.Begin? :: Nice(a.work)
    requires var s := Execute(Boot(warehouses), actions); group != {} && forall t | t in group :: Live(s, t)
    ensures var s := Execute(Boot(warehouses), actions); exists t :: t in group && !WaitsWithin(s, t, group)
  {
    var s := Execute(Boot(warehouses), actions);
    ScheduleKept(warehouses, actions);
    NoCycle(s, group);
    var t :| t in group && (!WaitsWithin(s, t, group) || Squatted(s, t));
    NeverSquatted(s, t);
  }
}
