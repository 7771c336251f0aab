/** What a transaction standing at each statement may rely on, whatever the others have done. */
module Interleaving {
  import opened CommandIds
  import opened Tables
  import opened Posting
  import opened Aggregation
  import opened Ledger
  import opened Commands
  import opened Machine
  import Idempotency
  import Ordering

  // Lines written so far, table by table ---------------------------------------------------

  function MovedRows(balances: map<Key, Balance>, op: Op, ls: seq<Allocation>): map<Key, Balance> {
    if ls == [] then map[]
    else
      var a := ls[|ls| - 1];
      var k := Key(a.sku, a.wh);
      MovedRows(balances, op, ls[..|ls| - 1])[k := Shifted(op, BalanceAt(balances, k), a.qty)]
  }

  function AttachedLines(id: string, ls: seq<Allocation>): map<LineKey, Line> {
    if ls == [] then map[]
    else
      var a := ls[|ls| - 1];
      AttachedLines(id, ls[..|ls| - 1])[LineKey(id, a.sku) := Line(a.wh, a.qty)]
  }

  function RecordedRows(op: Op, id: string, reason: string, ls: seq<Allocation>): map<string, Movement> {
    if ls == [] then map[]
    else
      var a := ls[|ls| - 1];
      RecordedRows(op, id, reason, ls[..|ls| - 1])
        [CommandId(op, id, a.sku) := LedgerRow(op, id, a.sku, Line(a.wh, a.qty), reason)]
  }

  // The first n lines have moved their balance rows, which exist and are locked.
  ghost predicate ShiftedSoFar(balances: map<Key, Balance>, held: set<Res>, op: Op, ls: seq<Allocation>, n: nat,
                               w: map<Key, Balance>) {
    && n <= |ls|
    && w == MovedRows(balances, op, ls[..n])
    && forall i | 0 <= i < n :: MovedRow(balances, held, op, ls[i])
  }

  ghost predicate MovedRow(balances: map<Key, Balance>, held: set<Res>, op: Op, a: Allocation) {
    var k := Key(a.sku, a.wh);
    k in balances && BalanceRow(k) in held && Shifted(op, balances[k], a.qty).Ok()
  }

  ghost predicate AttachedSoFar(op: Op, id: string, ls: seq<Allocation>, n: nat, w: map<LineKey, Line>) {
    n <= |ls| && w == if op == Hold then AttachedLines(id, ls[..n]) else map[]
  }

  // The first n lines have their ledger rows, whose ids were free and are now held.
  ghost predicate RecordedSoFar(movements: map<string, Movement>, held: set<Res>, op: Op, id: string, reason: string,
                                ls: seq<Allocation>, n: nat, w: map<string, Movement>) {
    && n <= |ls|
    && w == RecordedRows(op, id, reason, ls[..n])
    && forall i | 0 <= i < n :: NewRow(movements, held, op, id, reason, ls[i])
  }

  ghost predicate NewRow(movements: map<string, Movement>, held: set<Res>, op: Op, id: string, reason: string, a: Allocation) {
    var c := CommandId(op, id, a.sku);
    && c !in movements && CommandKey(c) in held
    && MovementFits(c, LedgerRow(op, id, a.sku, Line(a.wh, a.qty), reason))
  }

  // The reservation's header, as its own transaction protects it.

  ghost predicate FreshId(db: Db, held: set<Res>, work: Work)
    requires work.Booking?
  {
    && HeaderFits(work.id, work.orderRef)
    && ReservationId(work.id) in held && work.id !in db.headers
  }

  ghost predicate Claimed(db: Db, held: set<Res>, work: Work, headers: map<string, Header>)
    requires work.Booking?
  {
    && FreshId(db, held, work)
    && OrderRef(work.orderRef) in held && !RefTaken(db.headers, work.orderRef)
    && headers == map[work.id := Header(work.orderRef, work.hash, Reserved)]
  }

  ghost predicate Opened(db: Db, held: set<Res>, work: Work)
    requires work.Settlement?
  {
    ReservationId(work.id) in held && work.id in db.headers && db.headers[work.id].status == Reserved
  }

  // The allocation passed its check under the locks, and the locks are still held.
  ghost predicate Covered(balances: map<Key, Balance>, held: set<Res>, wh: int, it: Item) {
    var k := Key(it.sku, wh);
    k in balances && BalanceRow(k) in held && balances[k].Atp() >= it.qty
  }

  ghost predicate Planned(db: Db, held: set<Res>, work: Work, wh: int, ls: seq<Allocation>)
    requires !work.Stocking?
  {
    match work
    case Booking(_, _, _, items) =>
      Active(db, wh) && ls == AllocateFrom(items, wh) && forall i | 0 <= i < |items| :: Covered(db.balances, held, wh, items[i])
    case Settlement(id, _, _) => ls == LoadLines(db.lines, id)
  }

  ghost predicate Headed(db: Db, held: set<Res>, work: Work, headers: map<string, Header>)
    requires !work.Stocking?
  {
    if work.Booking? then Claimed(db, held, work, headers) else Opened(db, held, work) && headers == map[]
  }

  // Lines written up to (shifted, attached, recorded).
  ghost predicate Written(db: Db, held: set<Res>, work: Work, ls: seq<Allocation>, w: Writes, ns: nat, na: nat, nr: nat) {
    && ShiftedSoFar(db.balances, held, OpOf(work), ls, ns, w.balances)
    && AttachedSoFar(OpOf(work), IdOf(work), ls, na, w.lines)
    && RecordedSoFar(db.movements, held, OpOf(work), IdOf(work), ReasonOf(work), ls, nr, w.movements)
  }

  // The chosen warehouse has a row for every line.
  ghost predicate Present(balances: map<Key, Balance>, wh: int, items: seq<Item>) {
    forall i | 0 <= i < |items| :: Key(items[i].sku, wh) in balances
  }

  // Row k belongs to a line of the basket.
  predicate BasketRow(k: Key, wh: int, items: seq<Item>) {
    k.wh == wh && Mentions(items, k.sku)
  }

  // The rows to lock are those of the lines.
  ghost predicate Listed(keys: seq<Key>, wh: int, items: seq<Item>) {
    && (forall i | 0 <= i < |items| :: Key(items[i].sku, wh) in keys)
    && (forall i | 0 <= i < |keys| :: BasketRow(keys[i], wh, items))
  }

  ghost predicate Pinned(balances: map<Key, Balance>, held: set<Res>, wh: int, it: Item) {
    Key(it.sku, wh) in balances && BalanceRow(Key(it.sku, wh)) in held
  }

  // The re-check failed: the chosen warehouse's rows are locked, and these are its shortages.
  ghost predicate Rechecked(db: Db, held: set<Res>, items: seq<Item>, wh: int, short: seq<Shortage>) {
    && Active(db, wh) && short != []
    && (forall i | 0 <= i < |items| :: Pinned(db.balances, held, wh, items[i]))
    && short == Shortages(db.balances, Some(wh), items)
  }

  // The rows visited so far are locked, and their ATP is still what was read.
  ghost predicate LockedSoFar(balances: map<Key, Balance>, held: set<Res>, wh: int, keys: seq<Key>, n: nat, atp: map<string, int>) {
    && n <= |keys| && Ordering.Ascending(keys, LessKey)
    && (forall i | 0 <= i < |keys| :: keys[i] in balances && keys[i].wh == wh)
    && (forall i | 0 <= i < n :: BalanceRow(keys[i]) in held)
    && (forall i | 0 <= i < n :: keys[i].sku in atp)
    && (forall s | s in atp :: Key(s, wh) in keys[..n] && atp[s] == AtpAt(balances, Key(s, wh)))
  }

  ghost predicate ClaimedCommand(db: Db, held: set<Res>, act: StockAction, cmd: StockCommand, w: Writes) {
    && ValidCommand(act, cmd) && MovementFits(cmd.commandId, StockRow(act, cmd))
    && CommandKey(cmd.commandId) in held && cmd.commandId !in db.movements && cmd.wh in db.warehouses
    && w.movements == map[cmd.commandId := StockRow(act, cmd)]
    && w.headers == map[] && w.lines == map[]
  }

  ghost predicate MovedStock(balances: map<Key, Balance>, held: set<Res>, act: StockAction, cmd: StockCommand, w: map<Key, Balance>) {
    var k := Key(cmd.sku, cmd.wh);
    var row := StockShifted(act, BalanceAt(balances, k), cmd.qty);
    BalanceRow(k) in held && (act == ReceiveStock || k in balances) && row.Ok() && w == map[k := row]
  }

  // A committed header that makes the request a conflict.
  ghost predicate Contradicts(headers: map<string, Header>, work: Work, owner: string)
    requires work.Booking?
  {
    && owner in headers
    && if owner == work.id then headers[owner].hash != work.hash || headers[owner].orderRef != work.orderRef
       else headers[owner].orderRef == work.orderRef
  }

  ghost predicate SameStored(headers: map<string, Header>, work: Work, status: Status)
    requires work.Booking?
  {
    && work.id in headers && headers[work.id].hash == work.hash && headers[work.id].orderRef == work.orderRef
    && StatusStep(status, headers[work.id].status)
  }

  // What an answer asserts about the committed tables, then and ever after.
  ghost predicate ReplyTrue(db: Db, work: Work, reply: Reply) {
    match work
    case Booking(id, _, _, _) =>
      && (reply.Held? ==> SameStored(db.headers, work, reply.status)
                          && multiset(reply.allocations) == multiset(LoadLines(db.lines, id)))
      && (reply == Failed(IdempotencyConflict) ==> exists owner :: Contradicts(db.headers, work, owner))
    case Settlement(id, op, _) =>
      && (reply.Settled? && op == Sale ==> id in db.headers && db.headers[id].status == Committed)
      && (reply == Failed(InvalidTransition) ==>
            id in db.headers && db.headers[id].status != Reserved && db.headers[id].status != StatusAfter(op))
    case Stocking(act, cmd) =>
      var c, row := cmd.commandId, StockRow(act, cmd);
      && (reply.Applied? ==> c in db.movements && SameCommand(db.movements[c], row))
      && (reply == Failed(CommandConflict) ==> c in db.movements && !SameCommand(db.movements[c], row))
  }

  // The transaction invariant, statement by statement. held is what the transaction has locked.

  // Claimed, nothing posted yet.
  ghost predicate Claiming(db: Db, held: set<Res>, work: Work, w: Writes)
    requires work.Booking?
  {
    w == NO_WRITES.(headers := w.headers) && Claimed(db, held, work, w.headers)
  }

  ghost predicate Referring(db: Db, held: set<Res>, work: Work, clear: bool)
    requires work.Booking?
  {
    HeaderFits(work.id, work.orderRef) && (clear ==> FreshId(db, held, work))
  }

  function Shifts(n: nat, stage: Stage): nat {
    if stage == Shift then n else n + 1
  }

  function Attaches(n: nat, stage: Stage): nat {
    if stage == Record then n + 1 else n
  }

  ghost predicate PostingInv(db: Db, held: set<Res>, work: Work, w: Writes, wh: int, ls: seq<Allocation>, n: nat, stage: Stage)
    requires !work.Stocking?
  {
    && Headed(db, held, work, w.headers) && Planned(db, held, work, wh, ls)
    && (stage == Attach ==> work.Booking?)
    && (stage == Shift || n < |ls|)
    && Written(db, held, work, ls, w, Shifts(n, stage), Attaches(n, stage), n)
  }

  // Every line is written and the header as it should be.
  ghost predicate LinesReady(db: Db, held: set<Res>, work: Work, wh: int, ls: seq<Allocation>, w: Writes)
    requires !work.Stocking?
  {
    && Planned(db, held, work, wh, ls)
    && Written(db, held, work, ls, w, |ls|, |ls|, |ls|)
    && if work.Booking? then Claimed(db, held, work, w.headers)
       else Opened(db, held, work) && w.headers == map[work.id := Flipped(db.headers, work.id, work.op)]
  }

  ghost predicate StockReady(db: Db, held: set<Res>, act: StockAction, cmd: StockCommand, w: Writes) {
    ClaimedCommand(db, held, act, cmd, w) && MovedStock(db.balances, held, act, cmd, w.balances)
  }

  ghost predicate ReadyInv(db: Db, held: set<Res>, work: Work, wh: int, ls: seq<Allocation>, w: Writes) {
    if work.Stocking? then StockReady(db, held, work.act, work.cmd, w) else LinesReady(db, held, work, wh, ls, w)
  }

  ghost predicate TxInv(db: Db, held: set<Res>, tx: Tx) {
    && Fits(tx) && Admitted(tx.work)
    && match tx.pc
       case Claim | LockHead | ClaimCommand => tx.w == NO_WRITES
       case Enter => tx.w == NO_WRITES && HeaderFits(tx.work.id, tx.work.orderRef)
       case Refer(clear) => tx.w == NO_WRITES && Referring(db, held, tx.work, clear)
       case Scan => Claiming(db, held, tx.work, tx.w)
       case Classify(from, short) =>
         Claiming(db, held, tx.work, tx.w) && (from.Some? ==> Rechecked(db, held, tx.work.items, from.value, short))
       case Gather(wh) => Claiming(db, held, tx.work, tx.w) && Active(db, wh) && Present(db.balances, wh, tx.work.items)
       case LockRows(wh, keys, n, atp) =>
         && Claiming(db, held, tx.work, tx.w) && Active(db, wh) && Listed(keys, wh, tx.work.items)
         && LockedSoFar(db.balances, held, wh, keys, n, atp)
       case ReplayHead(outside) =>
         tx.w == NO_WRITES && if outside then RefTaken(db.headers, tx.work.orderRef) else tx.work.id in db.headers
       case ReplayLines(status) => tx.w == NO_WRITES && SameStored(db.headers, tx.work, status)
       case LoadHead => tx.w == NO_WRITES && Opened(db, held, tx.work)
       case Post(wh, ls, n, stage) => PostingInv(db, held, tx.work, tx.w, wh, ls, n, stage)
       case Flip(ls) => PostingInv(db, held, tx.work, tx.w, 0, ls, |ls|, Shift)
       case Ready(wh, ls) => ReadyInv(db, held, tx.work, wh, ls, tx.w)
       case Compare => tx.w == NO_WRITES && tx.work.cmd.commandId in db.movements
       case Move => ClaimedCommand(db, held, tx.work.act, tx.work.cmd, tx.w) && tx.w.balances == map[]
       case Done(reply) => held == {} && tx.w == NO_WRITES && ReplyTrue(db, tx.work, reply)
  }

  // Other transactions' commits ----------------------------------------------------------------

  // Nothing that held protects has changed between two committed states.
  ghost predicate Guarded(db: Db, db': Db, held: set<Res>) {
    && (forall k | BalanceRow(k) in held ::
          && (k in db'.balances <==> k in db.balances)
          && (k in db.balances ==> db'.balances[k] == db.balances[k]))
    && (forall id | ReservationId(id) in held ::
          && (id in db'.headers <==> id in db.headers)
          && (id in db.headers ==> db'.headers[id] == db.headers[id]))
    && (forall ref | OrderRef(ref) in held :: RefTaken(db'.headers, ref) ==> RefTaken(db.headers, ref))
    && (forall c | CommandKey(c) in held && c in db'.movements :: c in db.movements)
  }

  lemma ShiftedStays(db: Db, db': Db, held: set<Res>, op: Op, ls: seq<Allocation>, n: nat, w: map<Key, Balance>)
    requires ShiftedSoFar(db.balances, held, op, ls, n, w) && Guarded(db, db', held)
    ensures ShiftedSoFar(db'.balances, held, op, ls, n, w)
  {
    forall i | 0 <= i < n ensures MovedRow(db'.balances, held, op, ls[i]) {
      assert MovedRow(db.balances, held, op, ls[i]);
    }
    forall i | 0 <= i < n
      ensures BalanceAt(db'.balances, Key(ls[..n][i].sku, ls[..n][i].wh)) == BalanceAt(db.balances, Key(ls[..n][i].sku, ls[..n][i].wh))
    {
      assert MovedRow(db.balances, held, op, ls[i]);
    }
    SameMoved(db.balances, db'.balances, op, ls[..n]);
  }

  lemma {:induction false} SameMoved(b: map<Key, Balance>, b': map<Key, Balance>, op: Op, ls: seq<Allocation>)
    requires forall i | 0 <= i < |ls| :: BalanceAt(b', Key(ls[i].sku, ls[i].wh)) == BalanceAt(b, Key(ls[i].sku, ls[i].wh))
    ensures MovedRows(b', op, ls) == MovedRows(b, op, ls)
  {
    if ls != [] {
      var n := |ls| - 1;
      assert forall i | 0 <= i < n :: ls[..n][i] == ls[i];
      SameMoved(b, b', op, ls[..n]);
    }
  }

  lemma RecordedStays(db: Db, db': Db, held: set<Res>, op: Op, id: string, reason: string, ls: seq<Allocation>, n: nat, w: map<string, Movement>)
    requires RecordedSoFar(db.movements, held, op, id, reason, ls, n, w) && Guarded(db, db', held)
    ensures RecordedSoFar(db'.movements, held, op, id, reason, ls, n, w)
  {
    forall i | 0 <= i < n ensures NewRow(db'.movements, held, op, id, reason, ls[i]) {
      assert NewRow(db.movements, held, op, id, reason, ls[i]);
    }
  }

  lemma WrittenStays(db: Db, db': Db, held: set<Res>, work: Work, ls: seq<Allocation>, w: Writes, ns: nat, na: nat, nr: nat)
    requires Written(db, held, work, ls, w, ns, na, nr) && Guarded(db, db', held)
    ensures Written(db', held, work, ls, w, ns, na, nr)
  {
    ShiftedStays(db, db', held, OpOf(work), ls, ns, w.balances);
    RecordedStays(db, db', held, OpOf(work), IdOf(work), ReasonOf(work), ls, nr, w.movements);
  }

  lemma PlanDistinct(db: Db, held: set<Res>, work: Work, wh: int, ls: seq<Allocation>)
    requires !work.Stocking? && Admitted(work) && Planned(db, held, work, wh, ls)
    ensures DistinctSkus(ls)
  {
    match work
    case Booking(_, _, _, items) =>
      assert forall i, j | 0 <= i < j < |items| :: items[i].sku != items[j].sku;
    case Settlement(id, _, _) => LoadedDistinct(db.lines, id);
  }

  lemma PlannedStays(db: Db, db': Db, held: set<Res>, work: Work, wh: int, ls: seq<Allocation>)
    requires !work.Stocking? && Planned(db, held, work, wh, ls) && Guarded(db, db', held) && Evolves(db, db')
    requires work.Settlement? ==> work.id in db.headers
    ensures Planned(db', held, work, wh, ls)
  {
    match work
    case Booking(_, _, _, items) =>
      forall i | 0 <= i < |items| ensures Covered(db'.balances, held, wh, items[i]) {
        assert Covered(db.balances, held, wh, items[i]);
      }
    case Settlement(id, _, _) => Idempotency.LinesStay(db, db', id);
  }

  lemma HeadedStays(db: Db, db': Db, held: set<Res>, work: Work, headers: map<string, Header>)
    requires !work.Stocking? && Headed(db, held, work, headers) && Guarded(db, db', held)
    ensures Headed(db', held, work, headers)
  {
  }

  lemma PostingStays(db: Db, db': Db, held: set<Res>, work: Work, w: Writes, wh: int, ls: seq<Allocation>, n: nat, stage: Stage)
    requires !work.Stocking? && Admitted(work) && PostingInv(db, held, work, w, wh, ls, n, stage)
    requires Guarded(db, db', held) && Evolves(db, db')
    ensures PostingInv(db', held, work, w, wh, ls, n, stage)
  {
    HeadedStays(db, db', held, work, w.headers);
    PlannedStays(db, db', held, work, wh, ls);
    WrittenStays(db, db', held, work, ls, w, Shifts(n, stage), Attaches(n, stage), n);
  }

  lemma LinesReadyStays(db: Db, db': Db, held: set<Res>, work: Work, wh: int, ls: seq<Allocation>, w: Writes)
    requires !work.Stocking? && Admitted(work) && LinesReady(db, held, work, wh, ls, w)
    requires Guarded(db, db', held) && Evolves(db, db')
    ensures LinesReady(db', held, work, wh, ls, w)
  {
    PlannedStays(db, db', held, work, wh, ls);
    WrittenStays(db, db', held, work, ls, w, |ls|, |ls|, |ls|);
    if work.Settlement? {
      assert Flipped(db'.headers, work.id, work.op) == Flipped(db.headers, work.id, work.op);
    }
  }

  lemma CommandStays(db: Db, db': Db, held: set<Res>, act: StockAction, cmd: StockCommand, w: Writes)
    requires ClaimedCommand(db, held, act, cmd, w) && Guarded(db, db', held) && Evolves(db, db')
    ensures ClaimedCommand(db', held, act, cmd, w)
    ensures MovedStock(db.balances, held, act, cmd, w.balances) ==> MovedStock(db'.balances, held, act, cmd, w.balances)
  {
    var k := Key(cmd.sku, cmd.wh);
    if BalanceRow(k) in held {
      assert BalanceAt(db'.balances, k) == BalanceAt(db.balances, k);
    }
  }

  lemma ReadyStays(db: Db, db': Db, held: set<Res>, work: Work, wh: int, ls: seq<Allocation>, w: Writes)
    requires Admitted(work) && ReadyInv(db, held, work, wh, ls, w) && Guarded(db, db', held) && Evolves(db, db')
    ensures ReadyInv(db', held, work, wh, ls, w)
  {
    if work.Stocking? {
      CommandStays(db, db', held, work.act, work.cmd, w);
    } else {
      LinesReadyStays(db, db', held, work, wh, ls, w);
    }
  }

  lemma ClaimingStays(db: Db, db': Db, held: set<Res>, work: Work, w: Writes)
    requires work.Booking? && Claiming(db, held, work, w) && Guarded(db, db', held)
    ensures Claiming(db', held, work, w)
  {
  }

  lemma {:induction false} ShortagesStay(b: map<Key, Balance>, b': map<Key, Balance>, wh: int, items: seq<Item>)
    requires forall i | 0 <= i < |items| :: AtpAt(b', Key(items[i].sku, wh)) == AtpAt(b, Key(items[i].sku, wh))
    ensures Shortages(b', Some(wh), items) == Shortages(b, Some(wh), items)
  {
    if items != [] {
      var n := |items| - 1;
      assert forall i | 0 <= i < n :: items[..n][i] == items[i];
      ShortagesStay(b, b', wh, items[..n]);
    }
  }

  lemma RecheckedStays(db: Db, db': Db, held: set<Res>, items: seq<Item>, wh: int, short: seq<Shortage>)
    requires Rechecked(db, held, items, wh, short) && Guarded(db, db', held) && db'.warehouses == db.warehouses
    ensures Rechecked(db', held, items, wh, short)
  {
    forall i | 0 <= i < |items|
      ensures Pinned(db'.balances, held, wh, items[i])
      ensures AtpAt(db'.balances, Key(items[i].sku, wh)) == AtpAt(db.balances, Key(items[i].sku, wh))
    {
      assert Pinned(db.balances, held, wh, items[i]);
    }
    ShortagesStay(db.balances, db'.balances, wh, items);
  }

  lemma LockedStays(db: Db, db': Db, held: set<Res>, wh: int, keys: seq<Key>, n: nat, atp: map<string, int>)
    requires LockedSoFar(db.balances, held, wh, keys, n, atp) && Guarded(db, db', held) && Evolves(db, db')
    ensures LockedSoFar(db'.balances, held, wh, keys, n, atp)
  {
    forall s | s in atp ensures atp[s] == AtpAt(db'.balances, Key(s, wh)) {
      var i :| 0 <= i < n && keys[..n][i] == Key(s, wh);
      assert BalanceRow(keys[i]) in held;
    }
  }

  lemma ReplyStays(db: Db, db': Db, work: Work, reply: Reply)
    requires ReplyTrue(db, work, reply) && Evolves(db, db')
    ensures ReplyTrue(db', work, reply)
  {
    if work.Booking? {
      if reply.Held? { Idempotency.LinesStay(db, db', work.id); }
      if reply == Failed(IdempotencyConflict) {
        var owner :| Contradicts(db.headers, work, owner);
        assert Contradicts(db'.headers, work, owner);
      }
    }
  }

  lemma RefStays(db: Db, db': Db, ref: string)
    requires RefTaken(db.headers, ref) && Evolves(db, db')
    ensures RefTaken(db'.headers, ref)
  {
    var id :| id in db.headers && db.headers[id].orderRef == ref;
    assert db'.headers[id].orderRef == ref;
  }

  // Before anything is posted.
  predicate Early(pc: Pc) {
    pc.Claim? || pc.Enter? || pc.Refer? || pc.Scan? || pc.Classify? || pc.Gather? || pc.LockRows?
  }

  lemma EarlyStays(db: Db, db': Db, held: set<Res>, tx: Tx)
    requires TxInv(db, held, tx) && Early(tx.pc) && Guarded(db, db', held) && Evolves(db, db')
    ensures TxInv(db', held, tx)
  {
    match tx.pc
    case Scan | Gather(_) => ClaimingStays(db, db', held, tx.work, tx.w);
    case Classify(from, short) =>
      ClaimingStays(db, db', held, tx.work, tx.w);
      if from.Some? { RecheckedStays(db, db', held, tx.work.items, from.value, short); }
    case LockRows(wh, keys, n, atp) =>
      ClaimingStays(db, db', held, tx.work, tx.w);
      LockedStays(db, db', held, wh, keys, n, atp);
    case _ =>
  }

  predicate Reading(pc: Pc) {
    pc.ReplayHead? || pc.ReplayLines? || pc.LockHead? || pc.LoadHead? || pc.ClaimCommand? || pc.Compare? || pc.Done?
  }

  lemma ReadingStays(db: Db, db': Db, held: set<Res>, tx: Tx)
    requires TxInv(db, held, tx) && Reading(tx.pc) && Guarded(db, db', held) && Evolves(db, db')
    ensures TxInv(db', held, tx)
  {
    match tx.pc
    case ReplayHead(outside) => if outside { RefStays(db, db', tx.work.orderRef); }
    case Done(reply) => ReplyStays(db, db', tx.work, reply);
    case _ =>
  }

  // Whatever a transaction may rely on survives the others' commits.
  lemma TxStays(db: Db, db': Db, held: set<Res>, tx: Tx)
    requires TxInv(db, held, tx) && Guarded(db, db', held) && Evolves(db, db')
    ensures TxInv(db', held, tx)
  {
    if Early(tx.pc) {
      EarlyStays(db, db', held, tx);
    } else if Reading(tx.pc) {
      ReadingStays(db, db', held, tx);
    } else {
      match tx.pc
      case Post(wh, ls, n, stage) => PostingStays(db, db', held, tx.work, tx.w, wh, ls, n, stage);
      case Flip(ls) => PostingStays(db, db', held, tx.work, tx.w, 0, ls, |ls|, Shift);
      case Ready(wh, ls) => ReadyStays(db, db', held, tx.work, wh, ls, tx.w);
      case Move => CommandStays(db, db', held, tx.work.act, tx.work.cmd, tx.w);
    }
  }
}
