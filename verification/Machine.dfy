/**
 * Concurrent transactions, one statement at a time. Each transaction keeps its uncommitted rows to
 * itself, reads the latest committed rows (READ COMMITTED), and holds what it has locked until it ends.
 */
module Machine {
  import opened CommandIds
  import opened Tables
  import opened Posting
  import opened Aggregation
  import opened Commands
  import opened Reservations
  import Canonical
  import Ordering
  import Text

  // What a transaction can hold until it ends: an inserted unique key or a locked row.
  datatype Res =
    | ReservationId(id: string)
    | OrderRef(orderRef: string)
    | CommandKey(c: string)
    | BalanceRow(k: Key)

  // The command a transaction runs, its basket aggregated and its request text fixed.
  datatype Work =
    | Booking(id: string, orderRef: string, hash: string, items: seq<Item>)
    | Settlement(id: string, op: Op, reason: string)
    | Stocking(act: StockAction, cmd: StockCommand)

  function WorkOf(c: Command): Work {
    match c
    case Reserve(req) =>
      AggregateTotals(req.items);
      Booking(req.id, req.orderRef, Canonical.Encode(Aggregate(req.items), req.region), Aggregate(req.items))
    case Release(id, reason) => Settlement(id, Unhold, reason)
    case Commit(id) => Settlement(id, Sale, "")
    case Stock(act, cmd) => Stocking(act, cmd)
  }

  // Where a transaction stands: the statement it runs next.
  datatype Pc =
    | Claim                       // INSERT header: look for a conflicting id
    | Enter                       // INSERT header: enter the id in the primary key
    | Refer(clear: bool)          // INSERT header: enter the order in its unique index
    | Scan                        // unlocked ATP snapshot
    | Gather(wh: int)             // SELECT ... FOR UPDATE: the rows to lock
    | LockRows(wh: int, keys: seq<Key>, n: nat, atp: map<string, int>)
    | Classify(from: Option<int>, short: seq<Shortage>)   // from: the warehouse that failed its locked re-check
    | ReplayHead(outside: bool)   // SELECT header of a taken id
    | ReplayLines(status: Status)
    | LockHead                    // SELECT status ... FOR UPDATE
    | LoadHead                    // SELECT lines
    | Post(wh: int, ls: seq<Allocation>, n: nat, stage: Stage)
    | Flip(ls: seq<Allocation>)   // UPDATE header status
    | ClaimCommand                // INSERT movement ON CONFLICT DO NOTHING
    | Compare
    | Move                        // change the balance row
    | Ready(wh: int, ls: seq<Allocation>)
    | Done(reply: Reply)

  // The statements of one line: UPDATE balance, INSERT line (holds only), INSERT movement.
  datatype Stage = Shift | Attach | Record

  datatype Tx = Tx(work: Work, pc: Pc, w: Writes)

  // A commit: whose, what, and whether its caller was told.
  datatype Entry = Entry(t: nat, ev: Event, told: bool)

  // log: the commits in their order.
  datatype Sys = Sys(db: Db, locks: map<Res, nat>, txs: map<nat, Tx>, log: seq<Entry>)

  // What running the next statement comes to.
  datatype Outcome =
    | Wait(on: Res)
    | Go(pc: Pc, w: Writes, got: Option<Res>)
    | Undo(pc: Pc)       // roll back, then stand at pc
    | Finish(ev: Event, reply: Reply)

  function End(reply: Reply): Outcome {
    Undo(Done(reply))
  }

  predicate Taken(locks: map<Res, nat>, t: nat, r: Res) {
    r in locks && locks[r] != t
  }

  predicate LessKey(a: Key, b: Key) {
    a.wh < b.wh || (a.wh == b.wh && Text.Less(a.sku, b.sku))
  }

  // The rows SELECT ... FOR UPDATE visits, in (warehouse_id, sku_id) order.
  function KeysToLock(balances: map<Key, Balance>, wh: int, items: seq<Item>): (r: seq<Key>)
    ensures Ordering.Ascending(r, LessKey)
    ensures forall k :: k in r <==> k in balances && k.wh == wh && Mentions(items, k.sku)
  {
    Text.LessIsOrder();
    Ordering.Sort((set k | k in balances && k.wh == wh && Mentions(items, k.sku)), LessKey)
  }

  // They are rows of one warehouse, bytewise by SKU.
  lemma LockedInOrder(balances: map<Key, Balance>, wh: int, items: seq<Item>, i: nat, j: nat)
    requires i < j < |KeysToLock(balances, wh, items)|
    ensures var a, b := KeysToLock(balances, wh, items)[i], KeysToLock(balances, wh, items)[j];
            a.wh == wh && b.wh == wh && Text.Before(a.sku, b.sku)
  {
    var a, b := KeysToLock(balances, wh, items)[i], KeysToLock(balances, wh, items)[j];
    assert a in KeysToLock(balances, wh, items) && b in KeysToLock(balances, wh, items);
    assert LessKey(a, b);
    Text.LessIsBefore(a.sku, b.sku);
  }

  // Reserve --------------------------------------------------------------------------

  // INSERT ... ON CONFLICT (id) DO NOTHING, first phase: wait out an uncommitted claim of the id.
  function ClaimStep(db: Db, locks: map<Res, nat>, t: nat, work: Work): Outcome
    requires work.Booking?
  {
    if !HeaderFits(work.id, work.orderRef) then End(Failed(StorageError))
    else if work.id in db.headers then Go(ReplayHead(false), NO_WRITES, None)
    else if Taken(locks, t, ReservationId(work.id)) then Wait(ReservationId(work.id))
    else Go(Enter, NO_WRITES, None)
  }

  // Second phase: enter the id, unless somebody got in since; either way the order index is next.
  function EnterStep(db: Db, locks: map<Res, nat>, t: nat, work: Work): Outcome
    requires work.Booking?
  {
    if work.id in db.headers || Taken(locks, t, ReservationId(work.id)) then Go(Refer(false), NO_WRITES, None)
    else Go(Refer(true), NO_WRITES, Some(ReservationId(work.id)))
  }

  // Third phase: a committed row with this order raises 23505, which ends the transaction and sends
  // Reserve to read the committed row outside; an uncommitted one is waited out.
  function ReferStep(db: Db, locks: map<Res, nat>, t: nat, work: Work, clear: bool): Outcome
    requires work.Booking?
  {
    if RefTaken(db.headers, work.orderRef) then Undo(ReplayHead(true))
    else if Taken(locks, t, OrderRef(work.orderRef)) then Wait(OrderRef(work.orderRef))
    else if !clear then Undo(Claim)
    else Go(Scan, NO_WRITES.(headers := map[work.id := Header(work.orderRef, work.hash, Reserved)]),
            Some(OrderRef(work.orderRef)))
  }

  function ScanStep(db: Db, tx: Tx): Outcome
    requires tx.work.Booking?
  {
    var ids := ActiveIds(db.warehouses);
    match FirstFulfilling(db.balances, ids, tx.work.items)
    case Some(wh) => Go(Gather(wh), tx.w, None)
    case None => Go(Classify(None, Shortages(db.balances, Baseline(ids), tx.work.items)), tx.w, None)
  }

  function LockStep(db: Db, locks: map<Res, nat>, t: nat, tx: Tx): Outcome
    requires tx.work.Booking? && tx.pc.LockRows?
  {
    var LockRows(wh, keys, n, atp) := tx.pc;
    if n < |keys| then
      if Taken(locks, t, BalanceRow(keys[n])) then Wait(BalanceRow(keys[n]))
      else Go(LockRows(wh, keys, n + 1, atp[keys[n].sku := AtpAt(db.balances, keys[n])]), tx.w, Some(BalanceRow(keys[n])))
    else
      var short := ShortagesIn(atp, tx.work.items);
      if short != [] then Go(Classify(Some(wh), short), tx.w, None)
      else Go(Post(wh, AllocateFrom(tx.work.items, wh), 0, Shift), tx.w, None)
  }

  function ReplayHeadStep(db: Db, work: Work, outside: bool): Outcome
    requires work.Booking?
  {
    if work.id !in db.headers then End(Failed(if outside then IdempotencyConflict else StorageError))
    else
      var h := db.headers[work.id];
      if h.hash != work.hash || h.orderRef != work.orderRef then End(Failed(IdempotencyConflict))
      else Go(ReplayLines(h.status), NO_WRITES, None)
  }

  // Release and Commit ------------------------------------------------------------------

  // A header that is missing, or not yet committed, is not there to be locked.
  function LockHeadStep(db: Db, locks: map<Res, nat>, t: nat, work: Work): Outcome
    requires work.Settlement?
  {
    if work.id in db.headers && Taken(locks, t, ReservationId(work.id)) then Wait(ReservationId(work.id))
    else
      match DecideStatus(work.op, StatusOf(db, work.id))
      case Some(reply) => End(reply)
      case None => Go(LoadHead, NO_WRITES, Some(ReservationId(work.id)))
  }

  // The lines of one reservation, of either kind --------------------------------------------

  function OpOf(work: Work): Op {
    if work.Settlement? then work.op else Hold
  }

  function IdOf(work: Work): string {
    match work
    case Booking(id, _, _, _) => id
    case Settlement(id, _, _) => id
    case Stocking(_, cmd) => cmd.commandId
  }

  function ReasonOf(work: Work): string {
    if work.Settlement? then work.reason else ""
  }

  // UPDATE inventory_balances. A hold ignores a missing row; a settlement aborts on it.
  function ShiftStep(db: Db, locks: map<Res, nat>, t: nat, tx: Tx): Outcome
    requires tx.pc.Post? && tx.pc.n < |tx.pc.ls|
  {
    var op, a := OpOf(tx.work), tx.pc.ls[tx.pc.n];
    var k, view := Key(a.sku, a.wh), db.balances + tx.w.balances;
    var next := tx.pc.(stage := if op == Hold then Attach else Record);
    if k !in view then (if op == Hold then Go(next, tx.w, None) else End(Failed(StorageError)))
    else if Taken(locks, t, BalanceRow(k)) then Wait(BalanceRow(k))
    else
      var row := Shifted(op, view[k], a.qty);
      if !row.Ok() then End(Failed(StorageError))
      else Go(next, tx.w.(balances := tx.w.balances[k := row]), Some(BalanceRow(k)))
  }

  // INSERT INTO inventory_reservation_lines
  function AttachStep(db: Db, tx: Tx): Outcome
    requires tx.pc.Post? && tx.pc.n < |tx.pc.ls|
  {
    var a := tx.pc.ls[tx.pc.n];
    var lk := LineKey(IdOf(tx.work), a.sku);
    if a.qty <= 0 || lk in db.lines || lk in tx.w.lines || a.wh !in db.warehouses then End(Failed(StorageError))
    else Go(tx.pc.(stage := Record), tx.w.(lines := tx.w.lines[lk := Line(a.wh, a.qty)]), None)
  }

  // INSERT INTO inventory_movements
  function RecordStep(db: Db, locks: map<Res, nat>, t: nat, tx: Tx): Outcome
    requires tx.pc.Post? && tx.pc.n < |tx.pc.ls|
  {
    var op, id, a := OpOf(tx.work), IdOf(tx.work), tx.pc.ls[tx.pc.n];
    var c, row := CommandId(op, id, a.sku), LedgerRow(op, id, a.sku, Line(a.wh, a.qty), ReasonOf(tx.work));
    if !MovementFits(c, row) || c in db.movements || c in tx.w.movements then End(Failed(StorageError))
    else if Taken(locks, t, CommandKey(c)) then Wait(CommandKey(c))
    else Go(Post(tx.pc.wh, tx.pc.ls, tx.pc.n + 1, Shift), tx.w.(movements := tx.w.movements[c := row]), Some(CommandKey(c)))
  }

  function PostStep(db: Db, locks: map<Res, nat>, t: nat, tx: Tx): Outcome
    requires tx.pc.Post?
  {
    if tx.pc.n < |tx.pc.ls| then
      match tx.pc.stage
      case Shift => ShiftStep(db, locks, t, tx)
      case Attach => AttachStep(db, tx)
      case Record => RecordStep(db, locks, t, tx)
    else Go(if tx.work.Booking? then Ready(tx.pc.wh, tx.pc.ls) else Flip(tx.pc.ls), tx.w, None)
  }

  function FlipStep(db: Db, tx: Tx): Outcome
    requires tx.work.Settlement? && tx.pc.Flip?
  {
    var id := tx.work.id;
    Go(Ready(0, tx.pc.ls),
       if id in db.headers then tx.w.(headers := map[id := Flipped(db.headers, id, tx.work.op)]) else tx.w, None)
  }

  // Admin commands ---------------------------------------------------------------------------

  function ClaimCommandStep(db: Db, locks: map<Res, nat>, t: nat, work: Work): Outcome
    requires work.Stocking?
  {
    var cmd, row := work.cmd, StockRow(work.act, work.cmd);
    if !ValidCommand(work.act, cmd) then End(Failed(InvalidCommand))
    else if !MovementFits(cmd.commandId, row) then End(Failed(StorageError))
    else if cmd.commandId in db.movements then Go(Compare, NO_WRITES, None)
    else if Taken(locks, t, CommandKey(cmd.commandId)) then Wait(CommandKey(cmd.commandId))
    else if cmd.wh !in db.warehouses then End(Failed(StorageError))
    else Go(Move, NO_WRITES.(movements := map[cmd.commandId := row]), Some(CommandKey(cmd.commandId)))
  }

  function CompareStep(db: Db, work: Work): Outcome
    requires work.Stocking?
  {
    var c := work.cmd.commandId;
    if c !in db.movements then End(Failed(StorageError))
    else End(if SameCommand(db.movements[c], StockRow(work.act, work.cmd)) then Applied(false) else Failed(CommandConflict))
  }

  function MoveStep(db: Db, locks: map<Res, nat>, t: nat, tx: Tx): Outcome
    requires tx.work.Stocking?
  {
    var act, cmd := tx.work.act, tx.work.cmd;
    var k := Key(cmd.sku, cmd.wh);
    var row := StockShifted(act, BalanceAt(db.balances, k), cmd.qty);
    if act != ReceiveStock && k !in db.balances then End(Failed(BalanceNotFound))
    else if Taken(locks, t, BalanceRow(k)) then Wait(BalanceRow(k))
    else if !row.Ok() then End(Failed(if act == AdjustOnHand then InsufficientOnHand else StorageError))
    else Go(Ready(cmd.wh, []), tx.w.(balances := map[k := row]), Some(BalanceRow(k)))
  }

  // Any transaction ---------------------------------------------------------------------------

  function EventOf(work: Work, wh: int, ls: seq<Allocation>): Event {
    match work
    case Booking(id, orderRef, hash, _) => ReserveEv(id, orderRef, hash, wh, LinesMap(ls))
    case Settlement(id, op, reason) => SettleEv(id, op, reason)
    case Stocking(act, cmd) => StockEv(act, cmd)
  }

  function SuccessOf(work: Work, ls: seq<Allocation>): Reply {
    match work
    case Booking(_, _, _, _) => Held(Reserved, ls, false)
    case Settlement(_, op, _) => Settled(StatusAfter(op))
    case Stocking(_, _) => Applied(true)
  }

  // Each kind of work only ever stands at its own statements.
  predicate Fits(tx: Tx) {
    match tx.pc
    case Claim | Enter | Refer(_) | Scan | Gather(_) | LockRows(_, _, _, _) | Classify(_, _) | ReplayHead(_) | ReplayLines(_) =>
      tx.work.Booking?
    case LockHead | LoadHead | Flip(_) => tx.work.Settlement?
    case Post(_, _, _, _) => !tx.work.Stocking?
    case ClaimCommand | Compare | Move => tx.work.Stocking?
    case Ready(_, _) | Done(_) => true
  }

  function Start(work: Work): Pc {
    match work
    case Booking(_, _, _, _) => Claim
    case Settlement(_, _, _) => LockHead
    case Stocking(_, _) => ClaimCommand
  }

  // The next statement of transaction t.
  function Advance(db: Db, locks: map<Res, nat>, t: nat, tx: Tx): Outcome
    requires Fits(tx) && !tx.pc.Done?
  {
    match tx.pc
    case Claim => ClaimStep(db, locks, t, tx.work)
    case Enter => EnterStep(db, locks, t, tx.work)
    case Refer(clear) => ReferStep(db, locks, t, tx.work, clear)
    case Scan => ScanStep(db, tx)
    case Gather(wh) => Go(LockRows(wh, KeysToLock(db.balances, wh, tx.work.items), 0, map[]), tx.w, None)
    case LockRows(_, _, _, _) => LockStep(db, locks, t, tx)
    case Classify(_, short) => End(Failed(Commands.Classify(db, tx.work.items, short)))
    case ReplayHead(outside) => ReplayHeadStep(db, tx.work, outside)
    case ReplayLines(status) => End(Held(status, LoadLines(db.lines, tx.work.id), true))
    case LockHead => LockHeadStep(db, locks, t, tx.work)
    case LoadHead => Go(Post(0, LoadLines(db.lines, tx.work.id), 0, Shift), tx.w, None)
    case Post(_, _, _, _) => PostStep(db, locks, t, tx)
    case Flip(_) => FlipStep(db, tx)
    case ClaimCommand => ClaimCommandStep(db, locks, t, tx.work)
    case Compare => CompareStep(db, tx.work)
    case Move => MoveStep(db, locks, t, tx)
    case Ready(wh, ls) => Finish(EventOf(tx.work, wh, ls), SuccessOf(tx.work, ls))
  }

  // Schedules --------------------------------------------------------------------------------

  // A transaction begins, runs its next statement, is aborted (timeout, deadlock victim, cancelled
  // request, lost connection), or commits while its answer is lost: the effect stays, the caller
  // gets an error.
  datatype Action = Begin(t: nat, work: Work) | Run(t: nat) | Abort(t: nat) | Lose(t: nat)

  function Free(locks: map<Res, nat>, t: nat): map<Res, nat> {
    map r | r in locks && locks[r] != t :: locks[r]
  }

  function RollBack(s: Sys, t: nat, pc: Pc): Sys
    requires t in s.txs
  {
    s.(locks := Free(s.locks, t), txs := s.txs[t := Tx(s.txs[t].work, pc, NO_WRITES)])
  }

  // COMMIT: the write set becomes visible and the locks go.
  function CommitTx(s: Sys, t: nat, ev: Event, reply: Reply, told: bool): Sys
    requires t in s.txs
  {
    RollBack(s, t, Done(reply)).(db := Publish(s.db, s.txs[t].w), log := s.log + [Entry(t, ev, told)])
  }

  function Settle(s: Sys, t: nat, o: Outcome): Sys
    requires t in s.txs
  {
    var tx := s.txs[t];
    match o
    case Wait(_) => s
    case Go(pc, w, got) =>
      s.(txs := s.txs[t := Tx(tx.work, pc, w)], locks := if got.Some? then s.locks[got.value := t] else s.locks)
    case Undo(pc) => RollBack(s, t, pc)
    case Finish(ev, reply) => CommitTx(s, t, ev, reply, true)
  }

  // What the edge lets through: one line per SKU, each for at least one unit.
  predicate Admitted(work: Work) {
    match work
    case Booking(_, _, _, items) => Distinct(items) && forall i | 0 <= i < |items| :: items[i].qty > 0
    case Settlement(_, op, _) => op != Hold
    case Stocking(_, _) => true
  }

  predicate Live(s: Sys, t: nat) {
    t in s.txs && !s.txs[t].pc.Done? && Fits(s.txs[t])
  }

  function Act(s: Sys, a: Action): Sys {
    match a
    case Begin(t, work) =>
      if t in s.txs || !Admitted(work) then s else s.(txs := s.txs[t := Tx(work, Start(work), NO_WRITES)])
    case Run(t) =>
      if Live(s, t) then Settle(s, t, Advance(s.db, s.locks, t, s.txs[t])) else s
    case Abort(t) =>
      if Live(s, t) then RollBack(s, t, Done(Failed(StorageError))) else s
    case Lose(t) =>
      if Live(s, t) && s.txs[t].pc.Ready? then
        CommitTx(s, t, EventOf(s.txs[t].work, s.txs[t].pc.wh, s.txs[t].pc.ls), Failed(StorageError), false)
      else s
  }

  function Execute(s: Sys, actions: seq<Action>): Sys
    decreases |actions|
  {
    if actions == [] then s
    else Act(Execute(s, actions[..|actions| - 1]), actions[|actions| - 1])
  }

  function Boot(warehouses: map<int, bool>): Sys {
    Sys(EmptyDb(warehouses), map[], map[], [])
  }
}
