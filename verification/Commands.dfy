/** What each command decides on one database state: the event it commits, if any, and its reply. */
module Commands {
  import opened CommandIds
  import opened Tables
  import opened Posting
  import opened Aggregation
  import Canonical
  import Ordering
  import Text

  datatype Shortage = Shortage(sku: string, requested: int, atp: int)

  datatype Failure =
    | IdempotencyConflict
    | UnknownSku(skus: seq<string>)
    | InsufficientStock(shortages: seq<Shortage>)
    | InvalidTransition
    | ReservationNotFound
    | CommandConflict
    | BalanceNotFound
    | InsufficientOnHand
    | InvalidCommand
    | StorageError

  datatype Reply =
    | Held(status: Status, allocations: seq<Allocation>, replayed: bool)
    | Settled(status: Status)
    | Applied(applied: bool)
    | Failed(why: Failure)

  datatype Request = Request(id: string, orderRef: string, items: seq<Item>, region: string)

  datatype Command =
    | Reserve(req: Request)
    | Release(id: string, reason: string)
    | Commit(id: string)
    | Stock(act: StockAction, cmd: StockCommand)

  // Ordered reads ------------------------------------------------------------

  // SELECT id FROM warehouses WHERE status = 'active' ORDER BY id
  function ActiveIds(warehouses: map<int, bool>): (r: seq<int>)
    ensures forall w :: w in r <==> w in warehouses && warehouses[w]
    ensures forall i, j | 0 <= i < j < |r| :: r[i] < r[j]
  {
    Ordering.Sort(set w | w in warehouses && warehouses[w], (a: int, b: int) => a < b)
  }

  predicate LessAllocation(a: Allocation, b: Allocation) {
    a.wh < b.wh || (a.wh == b.wh && Text.Less(a.sku, b.sku))
  }

  function AllocationsOf(lines: map<LineKey, Line>, id: string): (r: set<Allocation>)
    ensures forall a :: a in r <==> LineKey(id, a.sku) in lines && lines[LineKey(id, a.sku)] == Line(a.wh, a.qty)
  {
    set lk | lk in lines && lk.rid == id :: Allocation(lk.sku, lines[lk].wh, lines[lk].qty)
  }

  lemma AllocationsOrdered(lines: map<LineKey, Line>, id: string)
    ensures Ordering.TotalOn(AllocationsOf(lines, id), LessAllocation)
  {
    Text.LessIsOrder();
  }

  // loadReservationLines: ORDER BY warehouse_id, sku_id.
  function LoadLines(lines: map<LineKey, Line>, id: string): (r: seq<Allocation>)
    ensures Ordering.Ascending(r, LessAllocation)
    ensures forall a :: a in r <==> a in AllocationsOf(lines, id)
  {
    AllocationsOrdered(lines, id);
    Ordering.Sort(AllocationsOf(lines, id), LessAllocation)
  }

  lemma LoadedDistinct(lines: map<LineKey, Line>, id: string)
    ensures DistinctSkus(LoadLines(lines, id))
  {
    var r := LoadLines(lines, id);
    AllocationsOrdered(lines, id);
    forall i, j | 0 <= i < j < |r| ensures r[i].sku != r[j].sku {
      assert r[i] in r && r[j] in r && LessAllocation(r[i], r[j]);
      Text.LessIrreflexive(r[i].sku);
    }
  }

  // They stand by warehouse, then bytewise by SKU.
  lemma LoadedInOrder(lines: map<LineKey, Line>, id: string, i: nat, j: nat)
    requires i < j < |LoadLines(lines, id)|
    ensures var a, b := LoadLines(lines, id)[i], LoadLines(lines, id)[j];
            a.wh <= b.wh && (a.wh == b.wh ==> Text.Before(a.sku, b.sku))
  {
    var a, b := LoadLines(lines, id)[i], LoadLines(lines, id)[j];
    assert LessAllocation(a, b);
    Text.LessIsBefore(a.sku, b.sku);
  }

  // The loaded lines are the lines.
  lemma LoadedLines(lines: map<LineKey, Line>, id: string)
    ensures LinesMap(LoadLines(lines, id)) == LinesOf(lines, id)
  {
    var r, ls := LoadLines(lines, id), LinesOf(lines, id);
    LoadedDistinct(lines, id);
    LinesMapMembers(r);
    forall s | s in ls ensures s in LinesMap(r) && LinesMap(r)[s] == ls[s] {
      var a := Allocation(s, ls[s].wh, ls[s].qty);
      assert a in AllocationsOf(lines, id);
      assert a in r;
      var i :| 0 <= i < |r| && r[i] == a;
    }
    forall s | s in LinesMap(r) ensures s in ls {
      var i :| 0 <= i < |r| && r[i].sku == s;
      assert r[i] in AllocationsOf(lines, id);
    }
  }

  // Allocation ---------------------------------------------------------------

  predicate Fulfills(balances: map<Key, Balance>, wh: int, items: seq<Item>) {
    forall i | 0 <= i < |items| :: AtpAt(balances, Key(items[i].sku, wh)) >= items[i].qty
  }

  // The first warehouse of the list that covers every line.
  function FirstFulfilling(balances: map<Key, Balance>, ids: seq<int>, items: seq<Item>): (r: Option<int>)
    ensures r.Some? ==> r.value in ids && Fulfills(balances, r.value, items)
    ensures r.None? ==> forall w | w in ids :: !Fulfills(balances, w, items)
  {
    if ids == [] then None
    else if Fulfills(balances, ids[0], items) then Some(ids[0])
    else FirstFulfilling(balances, ids[1..], items)
  }

  // ATP in the baseline warehouse; 0 everywhere when there is no active warehouse.
  function BaseAtp(balances: map<Key, Balance>, base: Option<int>, sku: string): (n: int)
    ensures n >= 0
  {
    match base case None => 0 case Some(wh) => AtpAt(balances, Key(sku, wh))
  }

  function Shortages(balances: map<Key, Balance>, base: Option<int>, items: seq<Item>): seq<Shortage> {
    if items == [] then []
    else
      var it := items[|items| - 1];
      var atp := BaseAtp(balances, base, it.sku);
      Shortages(balances, base, items[..|items| - 1]) + if atp < it.qty then [Shortage(it.sku, it.qty, atp)] else []
  }

  function Baseline(ids: seq<int>): Option<int> {
    if ids == [] then None else Some(ids[0])
  }

  function Untracked(db: Db, items: seq<Item>): seq<string> {
    if items == [] then []
    else
      var s := items[|items| - 1].sku;
      Untracked(db, items[..|items| - 1]) + if Tracked(db, s) then [] else [s]
  }

  // classifyReservationFailure: a data gap outranks a shortage.
  function Classify(db: Db, items: seq<Item>, short: seq<Shortage>): Failure {
    if Untracked(db, items) != [] then UnknownSku(Untracked(db, items)) else InsufficientStock(short)
  }

  function AllocateFrom(items: seq<Item>, wh: int): (r: seq<Allocation>)
    ensures |r| == |items|
    ensures forall i | 0 <= i < |r| :: r[i] == Allocation(items[i].sku, wh, items[i].qty)
  {
    seq(|items|, i requires 0 <= i < |items| => Allocation(items[i].sku, wh, items[i].qty))
  }

  // Decisions ----------------------------------------------------------------

  // Commit the event if every one of its statements succeeds; otherwise roll back.
  function Attempt(db: Db, ev: Event, reply: Reply): (r: (Option<Event>, Reply))
    ensures r.0.Some? ==> r.0.value == ev && Step(db, ev) == Some(Apply(db, ev)) && r.1 == reply
    ensures r.0.None? ==> Step(db, ev) == None && r.1 == Failed(StorageError)
  {
    if Legal(db, ev) then (Some(ev), reply) else (None, Failed(StorageError))
  }

  // replayReservation on a taken id; a missing row is the caller's to classify.
  function ReplayReply(db: Db, id: string, orderRef: string, hash: string): Reply {
    if id !in db.headers then Failed(StorageError)
    else if db.headers[id].hash != hash || db.headers[id].orderRef != orderRef then Failed(IdempotencyConflict)
    else Held(db.headers[id].status, LoadLines(db.lines, id), true)
  }

  // Reserve on an aggregated basket, nothing else running.
  function DecideReserve(db: Db, id: string, orderRef: string, items: seq<Item>, region: string): (Option<Event>, Reply)
    requires Distinct(items)
  {
    var hash := Canonical.Encode(items, region);
    if !HeaderFits(id, orderRef) then (None, Failed(StorageError))
    else if id in db.headers then (None, ReplayReply(db, id, orderRef, hash))
    else if RefTaken(db.headers, orderRef) then (None, Failed(IdempotencyConflict))
    else
      var ids := ActiveIds(db.warehouses);
      match FirstFulfilling(db.balances, ids, items)
      case None => (None, Failed(Classify(db, items, Shortages(db.balances, Baseline(ids), items))))
      case Some(wh) =>
        var ev := ReserveEv(id, orderRef, hash, wh, LinesMap(AllocateFrom(items, wh)));
        Attempt(db, ev, Held(Reserved, AllocateFrom(items, wh), false))
  }

  // The decide callbacks of Release and Commit, on the locked status (None for a missing row):
  // a reply that ends the command, or None to proceed.
  function DecideStatus(op: Op, status: Option<Status>): Option<Reply> {
    match status
    case None => Some(if op == Unhold then Settled(Released) else Failed(ReservationNotFound))
    case Some(st) =>
      if st == StatusAfter(op) then Some(Settled(st))
      else if st == Reserved then None
      else Some(Failed(InvalidTransition))
  }

  function StatusOf(db: Db, id: string): Option<Status> {
    if id in db.headers then Some(db.headers[id].status) else None
  }

  function DecideSettle(db: Db, id: string, op: Op, reason: string): (Option<Event>, Reply) {
    match DecideStatus(op, StatusOf(db, id))
    case Some(reply) => (None, reply)
    case None =>
      Attempt(db, SettleEv(id, op, reason), Settled(StatusAfter(op)))
  }

  lemma AttemptSucceeds(db: Db, ev: Event, reply: Reply)
    requires Step(db, ev).Some?
    ensures Attempt(db, ev, reply) == (Some(ev), reply)
  {
  }

  lemma AttemptFails(db: Db, ev: Event, reply: Reply)
    requires Step(db, ev) == None
    ensures Attempt(db, ev, reply) == (None, Failed(StorageError))
  {
  }

  lemma ReservedProceeds(op: Op)
    requires op != Hold
    ensures DecideStatus(op, Some(Reserved)) == None
  {
  }

  // An open reservation whose statements go through is settled.
  lemma SettleDecides(db: Db, id: string, op: Op, reason: string)
    requires op != Hold && StatusOf(db, id) == Some(Reserved) && Step(db, SettleEv(id, op, reason)).Some?
    ensures DecideSettle(db, id, op, reason) == (Some(SettleEv(id, op, reason)), Settled(StatusAfter(op)))
  {
    ReservedProceeds(op);
    AttemptSucceeds(db, SettleEv(id, op, reason), Settled(StatusAfter(op)));
  }

  // One whose statements do not go through is left as it is.
  lemma SettleFails(db: Db, id: string, op: Op, reason: string)
    requires op != Hold && StatusOf(db, id) == Some(Reserved) && Step(db, SettleEv(id, op, reason)) == None
    ensures DecideSettle(db, id, op, reason) == (None, Failed(StorageError))
  {
    ReservedProceeds(op);
    AttemptFails(db, SettleEv(id, op, reason), Settled(StatusAfter(op)));
  }

  // COALESCE(actor, '')
  function ActorOf(o: Origin): string {
    if o.Admin? then o.actor else ""
  }

  // claimCommand's comparison of the stored movement with the intended one.
  predicate SameCommand(stored: Movement, row: Movement) {
    && stored.key == row.key && stored.kind == row.kind
    && stored.onHandDelta == row.onHandDelta && stored.reservedDelta == row.reservedDelta
    && ActorOf(stored.origin) == ActorOf(row.origin) && stored.reason == row.reason
  }

  function DecideStock(db: Db, act: StockAction, cmd: StockCommand): (Option<Event>, Reply) {
    var k, row := Key(cmd.sku, cmd.wh), StockRow(act, cmd);
    if !ValidCommand(act, cmd) then (None, Failed(InvalidCommand))
    else if !MovementFits(cmd.commandId, row) then (None, Failed(StorageError))
    else if cmd.commandId in db.movements then
      (None, if SameCommand(db.movements[cmd.commandId], row) then Applied(false) else Failed(CommandConflict))
    else if cmd.wh !in db.warehouses then (None, Failed(StorageError))
    else if act != ReceiveStock && k !in db.balances then (None, Failed(BalanceNotFound))
    else if !StockShifted(act, BalanceAt(db.balances, k), cmd.qty).Ok() then
      (None, Failed(if act == AdjustOnHand then InsufficientOnHand else StorageError))
    else (Some(StockEv(act, cmd)), Applied(true))
  }

  // The text digested for a request, taken over its aggregated lines.
  function RequestText(req: Request): string {
    AggregateTotals(req.items);
    Canonical.Encode(Aggregate(req.items), req.region)
  }

  // The logic layer aggregates before the repository sees the basket.
  function Decide(db: Db, c: Command): (Option<Event>, Reply) {
    match c
    case Reserve(req) =>
      AggregateTotals(req.items);
      DecideReserve(db, req.id, req.orderRef, Aggregate(req.items), req.region)
    case Release(id, reason) => DecideSettle(db, id, Unhold, reason)
    case Commit(id) => DecideSettle(db, id, Sale, "")
    case Stock(act, cmd) => DecideStock(db, act, cmd)
  }

  function After(db: Db, ev: Option<Event>): Db {
    match ev case None => db case Some(e) => Apply(db, e)
  }

  function Exec(db: Db, c: Command): Db {
    After(db, Decide(db, c).0)
  }

  function Answer(db: Db, c: Command): Reply {
    Decide(db, c).1
  }

  lemma AttemptIsLegal(db: Db, ev: Event, reply: Reply)
    ensures Attempt(db, ev, reply).0.Some? ==> Step(db, Attempt(db, ev, reply).0.value) == Some(Apply(db, Attempt(db, ev, reply).0.value))
  {
  }

  // Reserve commits only through the attempt on the chosen warehouse.
  lemma ReserveAttempts(db: Db, id: string, orderRef: string, items: seq<Item>, region: string)
    requires Distinct(items) && DecideReserve(db, id, orderRef, items, region).0.Some?
    ensures var wh := FirstFulfilling(db.balances, ActiveIds(db.warehouses), items);
            wh.Some? && DecideReserve(db, id, orderRef, items, region)
                        == Attempt(db, ReserveEv(id, orderRef, Canonical.Encode(items, region), wh.value,
                                                 LinesMap(AllocateFrom(items, wh.value))),
                                   Held(Reserved, AllocateFrom(items, wh.value), false))
  {
  }

  lemma ReserveDecisionIsLegal(db: Db, id: string, orderRef: string, items: seq<Item>, region: string)
    requires Distinct(items)
    ensures var ev := DecideReserve(db, id, orderRef, items, region).0;
            ev.Some? ==> Step(db, ev.value) == Some(Apply(db, ev.value))
  {
    if DecideReserve(db, id, orderRef, items, region).0.Some? {
      ReserveAttempts(db, id, orderRef, items, region);
      var wh := FirstFulfilling(db.balances, ActiveIds(db.warehouses), items).value;
      var a := AllocateFrom(items, wh);
      AttemptIsLegal(db, ReserveEv(id, orderRef, Canonical.Encode(items, region), wh, LinesMap(a)), Held(Reserved, a, false));
    }
  }

  lemma SettleDecisionIsLegal(db: Db, id: string, op: Op, reason: string)
    ensures var ev := DecideSettle(db, id, op, reason).0; ev.Some? ==> Step(db, ev.value) == Some(Apply(db, ev.value))
  {
  }

  lemma StockDecisionIsLegal(db: Db, act: StockAction, cmd: StockCommand)
    ensures var ev := DecideStock(db, act, cmd).0; ev.Some? ==> Step(db, ev.value) == Some(Apply(db, ev.value))
  {
    if DecideStock(db, act, cmd).0.Some? {
      assert Legal(db, StockEv(act, cmd));
    }
  }

  // What a decision commits is always something the schema accepts.
  lemma DecisionIsLegal(db: Db, c: Command)
    ensures Decide(db, c).0.Some? ==> Step(db, Decide(db, c).0.value) == Some(Exec(db, c))
  {
    match c
    case Reserve(req) =>
      AggregateTotals(req.items);
      ReserveDecisionIsLegal(db, req.id, req.orderRef, Aggregate(req.items), req.region);
    case Release(id, reason) => SettleDecisionIsLegal(db, id, Unhold, reason);
    case Commit(id) => SettleDecisionIsLegal(db, id, Sale, "");
    case Stock(act, cmd) => StockDecisionIsLegal(db, act, cmd);
  }
}
