/** The rows one command writes, in closed form, and when the schema lets it write them. */
module Posting {
  import opened CommandIds
  import opened Tables
  import Collections

  // One allocated line (domain.Allocation).
  datatype Allocation = Allocation(sku: string, wh: int, qty: int)

  function OnHandDelta(op: Op, qty: int): int {
    if op == Sale then -qty else 0
  }

  function ReservedDelta(op: Op, qty: int): int {
    if op == Hold then qty else -qty
  }

  function StatusAfter(op: Op): Status {
    match op
    case Hold => Reserved
    case Unhold => Released
    case Sale => Committed
  }

  function MovementOf(op: Op): MovementType {
    match op
    case Hold => RESERVE
    case Unhold => RELEASE
    case Sale => SALE_COMMITTED
  }

  // The UPDATE inventory_balances of one reservation line.
  function Shifted(op: Op, b: Balance, qty: int): Balance {
    Balance(b.onHand + OnHandDelta(op, qty), b.reserved + ReservedDelta(op, qty), b.safety, b.version + 1)
  }

  function LedgerRow(op: Op, id: string, sku: string, l: Line, reason: string): Movement {
    Movement(Key(sku, l.wh), MovementOf(op), OnHandDelta(op, l.qty), ReservedDelta(op, l.qty), Workflow(id), reason)
  }

  function TouchedRows(balances: map<Key, Balance>, op: Op, ls: map<string, Line>): map<Key, Balance> {
    map k | k in balances && k.sku in ls && ls[k.sku].wh == k.wh :: Shifted(op, balances[k], ls[k.sku].qty)
  }

  function NewLines(id: string, ls: map<string, Line>): map<LineKey, Line> {
    map s | s in ls :: LineKey(id, s) := ls[s]
  }

  function LedgerRows(op: Op, id: string, ls: map<string, Line>, reason: string): (m: map<string, Movement>)
    ensures forall s {:trigger ls[s]} | s in ls :: CommandId(op, id, s) in m && m[CommandId(op, id, s)] == LedgerRow(op, id, s, ls[s], reason)
    ensures forall c | c in m :: exists s :: s in ls && c == CommandId(op, id, s)
  {
    SameReservationInjective(op, id);
    map s | s in ls :: CommandId(op, id, s) := LedgerRow(op, id, s, ls[s], reason)
  }

  predicate DistinctSkus(a: seq<Allocation>) {
    forall i, j | 0 <= i < j < |a| :: a[i].sku != a[j].sku
  }

  function LinesMap(a: seq<Allocation>): map<string, Line> {
    if a == [] then map[]
    else
      var last := a[|a| - 1];
      LinesMap(a[..|a| - 1])[last.sku := Line(last.wh, last.qty)]
  }

  lemma {:induction false} LinesMapMembers(a: seq<Allocation>)
    requires DistinctSkus(a)
    ensures forall i | 0 <= i < |a| :: a[i].sku in LinesMap(a) && LinesMap(a)[a[i].sku] == Line(a[i].wh, a[i].qty)
    ensures forall s | s in LinesMap(a) :: exists i :: 0 <= i < |a| && a[i].sku == s
  {
    if a != [] {
      var n := |a| - 1;
      LinesMapMembers(a[..n]);
      forall i | 0 <= i < n ensures a[i].sku in LinesMap(a) && LinesMap(a)[a[i].sku] == Line(a[i].wh, a[i].qty) {
        assert a[..n][i] == a[i];
      }
      forall s | s in LinesMap(a) ensures exists i :: 0 <= i < |a| && a[i].sku == s {
        if s != a[n].sku {
          var i :| 0 <= i < n && a[..n][i].sku == s;
          assert a[i].sku == s;
        }
      }
    }
  }

  // Processing one more allocation adds exactly one line.
  lemma LinesMapStep(a: seq<Allocation>, n: nat)
    requires DistinctSkus(a) && n < |a|
    ensures a[n].sku !in LinesMap(a[..n])
    ensures LinesMap(a[..n + 1]) == LinesMap(a[..n])[a[n].sku := Line(a[n].wh, a[n].qty)]
  {
    LinesMapMembers(a[..n]);
    Collections.Shorter(a, n);
  }

  lemma TouchedRowsStep(balances: map<Key, Balance>, op: Op, ls: map<string, Line>, sku: string, l: Line)
    requires sku !in ls && Key(sku, l.wh) in balances
    ensures Key(sku, l.wh) !in TouchedRows(balances, op, ls)
    ensures TouchedRows(balances, op, ls[sku := l])
         == TouchedRows(balances, op, ls)[Key(sku, l.wh) := Shifted(op, balances[Key(sku, l.wh)], l.qty)]
  {
  }

  lemma NewLinesStep(id: string, ls: map<string, Line>, sku: string, l: Line)
    requires sku !in ls
    ensures LineKey(id, sku) !in NewLines(id, ls)
    ensures NewLines(id, ls[sku := l]) == NewLines(id, ls)[LineKey(id, sku) := l]
  {
  }

  lemma LedgerRowsGrow(op: Op, id: string, ls: map<string, Line>, reason: string, sku: string, l: Line)
    requires sku !in ls
    ensures CommandId(op, id, sku) !in LedgerRows(op, id, ls, reason)
    ensures LedgerRows(op, id, ls, reason).Keys <= LedgerRows(op, id, ls[sku := l], reason).Keys
  {
    SameReservationInjective(op, id);
    var before, after := LedgerRows(op, id, ls, reason), LedgerRows(op, id, ls[sku := l], reason);
    forall c | c in before ensures c in after && c != CommandId(op, id, sku) {
      var s :| s in ls && c == CommandId(op, id, s);
      assert s in ls[sku := l];
    }
  }

  lemma LedgerRowsNew(op: Op, id: string, ls: map<string, Line>, reason: string, sku: string, l: Line, c: string)
    requires c in LedgerRows(op, id, ls[sku := l], reason)
    ensures c in LedgerRows(op, id, ls, reason) || c == CommandId(op, id, sku)
  {
    var s :| s in ls[sku := l] && c == CommandId(op, id, s);
  }

  lemma LedgerRowsKeys(op: Op, id: string, ls: map<string, Line>, reason: string, sku: string, l: Line)
    requires sku !in ls
    ensures CommandId(op, id, sku) !in LedgerRows(op, id, ls, reason)
    ensures LedgerRows(op, id, ls[sku := l], reason).Keys == LedgerRows(op, id, ls, reason).Keys + {CommandId(op, id, sku)}
  {
    LedgerRowsGrow(op, id, ls, reason, sku, l);
    assert sku in ls[sku := l];
    forall c | c in LedgerRows(op, id, ls[sku := l], reason)
      ensures c in LedgerRows(op, id, ls, reason) || c == CommandId(op, id, sku)
    {
      LedgerRowsNew(op, id, ls, reason, sku, l, c);
    }
  }

  lemma LedgerRowsValues(op: Op, id: string, ls: map<string, Line>, reason: string, sku: string, l: Line)
    requires sku !in ls
    ensures var before, after := LedgerRows(op, id, ls, reason), LedgerRows(op, id, ls[sku := l], reason);
            && (forall c | c in before :: c in after && after[c] == before[c])
            && CommandId(op, id, sku) in after && after[CommandId(op, id, sku)] == LedgerRow(op, id, sku, l, reason)
  {
    var before, after := LedgerRows(op, id, ls, reason), LedgerRows(op, id, ls[sku := l], reason);
    assert sku in ls[sku := l];
    forall c | c in before ensures c in after && after[c] == before[c] {
      var s :| s in ls && c == CommandId(op, id, s);
      assert s in ls[sku := l];
    }
  }

  lemma LedgerRowsStep(op: Op, id: string, ls: map<string, Line>, reason: string, sku: string, l: Line)
    requires sku !in ls
    ensures CommandId(op, id, sku) !in LedgerRows(op, id, ls, reason)
    ensures LedgerRows(op, id, ls[sku := l], reason)
         == LedgerRows(op, id, ls, reason)[CommandId(op, id, sku) := LedgerRow(op, id, sku, l, reason)]
  {
    LedgerRowsKeys(op, id, ls, reason, sku, l);
    LedgerRowsValues(op, id, ls, reason, sku, l);
  }

  // Admin commands.
  datatype StockAction = ReceiveStock | AdjustOnHand | SetSafetyStock

  datatype StockCommand = StockCommand(commandId: string, sku: string, wh: int, qty: int,
                                       reason: string, actor: string)

  function StockDelta(act: StockAction, qty: int): int {
    if act == SetSafetyStock then 0 else qty
  }

  function StockShifted(act: StockAction, b: Balance, qty: int): Balance {
    if act == SetSafetyStock then b.(safety := qty, version := b.version + 1)
    else b.(onHand := b.onHand + qty, version := b.version + 1)
  }

  function StockRow(act: StockAction, cmd: StockCommand): Movement {
    Movement(Key(cmd.sku, cmd.wh),
             match act case ReceiveStock => RECEIVE case AdjustOnHand => ADJUST case SetSafetyStock => SET_SAFETY_STOCK,
             StockDelta(act, cmd.qty), 0, Admin(cmd.actor), cmd.reason)
  }

  // StockCommand.Validate plus the per-operation quantity rule.
  predicate ValidCommand(act: StockAction, cmd: StockCommand) {
    && 1 <= |cmd.commandId| <= 255
    && 1 <= |cmd.sku| <= 64
    && cmd.wh > 0
    && |cmd.actor| <= 64
    && match act
       case ReceiveStock => cmd.qty > 0
       case AdjustOnHand => cmd.qty != 0
       case SetSafetyStock => cmd.qty >= 0
  }

  // The state changes that commit. A Reserve event carries the warehouse it settled on.
  datatype Event =
    | ReserveEv(id: string, orderRef: string, hash: string, wh: int, ls: map<string, Line>)
    | SettleEv(id: string, op: Op, reason: string)
    | StockEv(act: StockAction, cmd: StockCommand)

  // Every line's UPDATE hits a row and passes its CHECK.
  predicate CanMove(balances: map<Key, Balance>, op: Op, ls: map<string, Line>) {
    forall s | s in ls ::
      && Key(s, ls[s].wh) in balances
      && Shifted(op, balances[Key(s, ls[s].wh)], ls[s].qty).Ok()
  }

  // Every line's movement can be inserted: its command id is free and its columns fit.
  predicate CanRecord(movements: map<string, Movement>, op: Op, id: string, ls: map<string, Line>, reason: string) {
    forall s | s in ls ::
      && CommandId(op, id, s) !in movements
      && MovementFits(CommandId(op, id, s), LedgerRow(op, id, s, ls[s], reason))
  }

  // The chosen warehouse's ATP covers every line.
  predicate Covers(balances: map<Key, Balance>, ls: map<string, Line>) {
    forall s | s in ls :: AtpAt(balances, Key(s, ls[s].wh)) >= ls[s].qty
  }

  // When an event may commit on db.
  predicate Legal(db: Db, ev: Event) {
    match ev
    case ReserveEv(id, orderRef, hash, wh, ls) =>
      && HeaderFits(id, orderRef)
      && id !in db.headers
      && !RefTaken(db.headers, orderRef)
      && Active(db, wh)
      && (forall s | s in ls :: ls[s].wh == wh && ls[s].qty > 0 && LineKey(id, s) !in db.lines)
      && Covers(db.balances, ls)
      && CanMove(db.balances, Hold, ls)
      && CanRecord(db.movements, Hold, id, ls, "")
    case SettleEv(id, op, reason) =>
      && op != Hold
      && id in db.headers
      && db.headers[id].status == Reserved
      && CanMove(db.balances, op, LinesOf(db.lines, id))
      && CanRecord(db.movements, op, id, LinesOf(db.lines, id), reason)
    case StockEv(act, cmd) =>
      && ValidCommand(act, cmd)
      && cmd.commandId !in db.movements
      && MovementFits(cmd.commandId, StockRow(act, cmd))
      && cmd.wh in db.warehouses
      && (act == ReceiveStock || Key(cmd.sku, cmd.wh) in db.balances)
      && StockShifted(act, BalanceAt(db.balances, Key(cmd.sku, cmd.wh)), cmd.qty).Ok()
  }

  // Everything one reservation-driven command writes.
  function OpWrites(db: Db, op: Op, id: string, h: Header, ls: map<string, Line>, reason: string): Writes {
    Writes(TouchedRows(db.balances, op, ls), map[id := h],
           if op == Hold then NewLines(id, ls) else map[],
           LedgerRows(op, id, ls, reason))
  }

  function Flipped(headers: map<string, Header>, id: string, op: Op): Header {
    if id in headers then headers[id].(status := StatusAfter(op)) else Header("", "", StatusAfter(op))
  }

  // The rows an event writes. Meaningful only where the event is legal.
  function EventWrites(db: Db, ev: Event): Writes {
    match ev
    case ReserveEv(id, orderRef, hash, wh, ls) =>
      OpWrites(db, Hold, id, Header(orderRef, hash, Reserved), ls, "")
    case SettleEv(id, op, reason) =>
      OpWrites(db, op, id, Flipped(db.headers, id, op), LinesOf(db.lines, id), reason)
    case StockEv(act, cmd) =>
      var k := Key(cmd.sku, cmd.wh);
      Writes(map[k := StockShifted(act, BalanceAt(db.balances, k), cmd.qty)], map[], map[],
             map[cmd.commandId := StockRow(act, cmd)])
  }

  function Apply(db: Db, ev: Event): Db {
    Publish(db, EventWrites(db, ev))
  }

  datatype Option<+T> = None | Some(value: T)

  // One committed event; None when the schema or the command's own checks reject it.
  function Step(db: Db, ev: Event): Option<Db> {
    if Legal(db, ev) then Some(Apply(db, ev)) else None
  }

  // The state after a run of committed events; None when some event was not legal in its state.
  function Replay(db: Db, evs: seq<Event>): Option<Db> {
    if evs == [] then Some(db)
    else
      match Replay(db, evs[..|evs| - 1])
      case None => None
      case Some(d) => Step(d, evs[|evs| - 1])
  }

  lemma ReplaySnoc(db: Db, evs: seq<Event>, mid: Db, ev: Event)
    requires Replay(db, evs) == Some(mid)
    ensures Replay(db, evs + [ev]) == Step(mid, ev)
  {
    Collections.Snoc(evs, ev);
  }

  lemma ReplayTwo(db: Db, e0: Event, mid: Db, e1: Event)
    requires Step(db, e0) == Some(mid)
    ensures Replay(db, [e0, e1]) == Step(mid, e1)
  {
    Collections.PairOf(e0, e1);
    ReplaySnoc(db, [], db, e0);
    ReplaySnoc(db, [e0], mid, e1);
  }
}
