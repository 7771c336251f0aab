/** Each command's outcomes on a reachable state, read off without its own case analysis. */
module Outcomes {
  import opened Validate
  import opened CommandIds
  import opened Tables
  import opened Posting
  import opened Aggregation
  import opened Invariants
  import opened Columns
  import opened Commands
  import Availability
  import Canonical
  import Preservation
  import Redeem
  import ReservationWrites
  import StockCommands
  import Text

  // The units reservation id has on row k.
  function UnitsOn(lines: map<LineKey, Line>, id: string, k: Key): int {
    var lk := LineKey(id, k.sku);
    if lk in lines && lines[lk].wh == k.wh then lines[lk].qty else 0
  }

  // q units leave the hold, and with a sale the stock as well.
  predicate RowFreed(b: Balance, b': Balance, q: int, op: Op) {
    && b'.reserved == b.reserved - q && b'.onHand == b.onHand - (if op == Sale then q else 0)
    && b'.safety == b.safety
  }

  // For each of these lines of reservation id the ledger has gained one row, under prefix<id>:<sku>, and
  // it has gained and lost nothing else.
  ghost predicate LedgerGained(movements: map<string, Movement>, movements': map<string, Movement>, prefix: string, id: string,
                               ls: map<string, Line>, kind: MovementType, reason: string) {
    && (forall c | c in movements :: c in movements' && movements'[c] == movements[c])
    && (forall c | c in movements' :: c in movements || exists s :: s in ls && c == prefix + id + ":" + s)
    && (forall s | s in ls :: GainedRow(movements, movements', prefix + id + ":" + s, id, s, ls[s], kind, reason))
  }

  // A RESERVE row adds the units to reserved, a RELEASE row takes them away, a SALE_COMMITTED row takes
  // them from stock as well.
  predicate GainedRow(movements: map<string, Movement>, movements': map<string, Movement>, c: string, id: string, sku: string, l: Line,
                      kind: MovementType, reason: string) {
    && c !in movements && c in movements'
    && movements'[c] == Movement(Key(sku, l.wh), kind, if kind == SALE_COMMITTED then -l.qty else 0,
                                 if kind == RESERVE then l.qty else -l.qty, Workflow(id), reason)
  }

  // The reservation ends released, or committed with a sale: its lines' rows give up their quantities,
  // every other row and header and every line stays, and each of its lines gets its ledger row.
  ghost predicate SettledBy(db: Db, db': Db, id: string, op: Op, reason: string) {
    && id in db.headers
    && db'.headers == db.headers[id := Header(db.headers[id].orderRef, db.headers[id].hash, if op == Sale then Committed else Released)]
    && db'.lines == db.lines && db'.warehouses == db.warehouses
    && (forall k :: RowFreed(BalanceAt(db.balances, k), BalanceAt(db'.balances, k), UnitsOn(db.lines, id, k), op))
    && if op == Sale then LedgerGained(db.movements, db'.movements, "cmt:", id, LinesOf(db.lines, id), SALE_COMMITTED, reason)
       else LedgerGained(db.movements, db'.movements, "rel:", id, LinesOf(db.lines, id), RELEASE, reason)
  }

  lemma RowMoves(balances: map<Key, Balance>, lines: map<LineKey, Line>, id: string, op: Op, k: Key)
    requires op != Hold && CanMove(balances, op, LinesOf(lines, id))
    ensures RowFreed(BalanceAt(balances, k), BalanceAt(balances + TouchedRows(balances, op, LinesOf(lines, id)), k),
                     UnitsOn(lines, id, k), op)
  {
    Preservation.BalanceAfter(balances, op, LinesOf(lines, id), k);
  }

  lemma LedgerGrows(movements: map<string, Movement>, id: string, op: Op, ls: map<string, Line>, reason: string,
                    prefix: string, kind: MovementType)
    requires CanRecord(movements, op, id, ls, reason)
    requires prefix == Prefix(op) && kind == MovementOf(op)
    requires kind == if op == Hold then RESERVE else if op == Sale then SALE_COMMITTED else RELEASE
    ensures LedgerGained(movements, movements + LedgerRows(op, id, ls, reason), prefix, id, ls, kind, reason)
  {
    var rows := LedgerRows(op, id, ls, reason);
    assert rows.Keys !! movements.Keys;
    forall c | c in movements + rows ensures c in movements || exists s :: s in ls && c == prefix + id + ":" + s {
      if c in rows {
        var s :| s in ls && c == CommandId(op, id, s);
      }
    }
    forall s | s in ls ensures GainedRow(movements, movements + rows, prefix + id + ":" + s, id, s, ls[s], kind, reason) {
      assert CommandId(op, id, s) in rows;
    }
  }

  lemma LegalSettles(db: Db, ev: Event)
    requires ev.SettleEv? && Step(db, ev).Some?
    ensures CanMove(db.balances, ev.op, LinesOf(db.lines, ev.id)) && CanRecord(db.movements, ev.op, ev.id, LinesOf(db.lines, ev.id), ev.reason)
  {
  }

  lemma SettledRows(db: Db, id: string, op: Op, reason: string)
    requires op != Hold && CanRecord(db.movements, op, id, LinesOf(db.lines, id), reason)
    ensures var movements' := db.movements + LedgerRows(op, id, LinesOf(db.lines, id), reason);
            if op == Sale then LedgerGained(db.movements, movements', "cmt:", id, LinesOf(db.lines, id), SALE_COMMITTED, reason)
            else LedgerGained(db.movements, movements', "rel:", id, LinesOf(db.lines, id), RELEASE, reason)
  {
    if op == Sale {
      LedgerGrows(db.movements, id, op, LinesOf(db.lines, id), reason, "cmt:", SALE_COMMITTED);
    } else {
      LedgerGrows(db.movements, id, op, LinesOf(db.lines, id), reason, "rel:", RELEASE);
    }
  }

  lemma OpenSettles(db: Db, id: string, op: Op, reason: string)
    requires op != Hold && StatusOf(db, id) == Some(Reserved) && Step(db, SettleEv(id, op, reason)).Some?
    ensures DecideSettle(db, id, op, reason) == (Some(SettleEv(id, op, reason)), Settled(StatusAfter(op)))
    ensures SettledBy(db, Apply(db, SettleEv(id, op, reason)), id, op, reason)
  {
    SettleDecides(db, id, op, reason);
    LegalSettles(db, SettleEv(id, op, reason));
    Preservation.SettleTables(db, SettleEv(id, op, reason));
    forall k
      ensures RowFreed(BalanceAt(db.balances, k), BalanceAt(db.balances + TouchedRows(db.balances, op, LinesOf(db.lines, id)), k),
                       UnitsOn(db.lines, id, k), op)
    {
      RowMoves(db.balances, db.lines, id, op, k);
    }
    SettledRows(db, id, op, reason);
  }

  // A new reservation, table by table: its lines are the basket in warehouse wh, the units are added
  // to reserved there and nothing else moves, and each line gets its ledger row.

  ghost predicate LinesBooked(lines: map<LineKey, Line>, lines': map<LineKey, Line>, id: string, wh: int, items: seq<Item>) {
    && (forall s :: LineKey(id, s) in lines' <==> Mentions(items, s))
    && (forall s | Mentions(items, s) :: lines'[LineKey(id, s)] == Line(wh, Total(items, s)))
    && (forall lk: LineKey | lk.rid != id :: (lk in lines' <==> lk in lines) && (lk in lines ==> lines'[lk] == lines[lk]))
  }

  // Units of the basket on row k.
  function Wanted(items: seq<Item>, wh: int, k: Key): int {
    if k.wh == wh then Total(items, k.sku) else 0
  }

  ghost predicate RowsBooked(balances: map<Key, Balance>, balances': map<Key, Balance>, wh: int, items: seq<Item>) {
    forall k :: RowFreed(BalanceAt(balances, k), BalanceAt(balances', k), -Wanted(items, wh, k), Hold)
  }

  // The booked rows keep their safety stock.
  ghost predicate SafetyKept(balances: map<Key, Balance>, wh: int, items: seq<Item>) {
    forall i | 0 <= i < |items| :: KeepsSafety(balances, Key(items[i].sku, wh))
  }

  ghost predicate Booked(db: Db, db': Db, id: string, h: Header, wh: int, items: seq<Item>) {
    && db'.warehouses == db.warehouses && db'.headers == db.headers[id := h]
    && LinesBooked(db.lines, db'.lines, id, wh, items)
    && RowsBooked(db.balances, db'.balances, wh, items) && SafetyKept(db'.balances, wh, items)
    && LedgerGained(db.movements, db'.movements, "res:", id, LinesOf(db'.lines, id), RESERVE, "")
  }

  // The allocation as a map of lines.
  lemma BookedLines(items: seq<Item>, wh: int, s: string)
    requires Distinct(items)
    ensures var ls := LinesMap(AllocateFrom(items, wh));
            && (s in ls <==> Mentions(items, s))
            && (s in ls ==> ls[s] == Line(wh, Total(items, s)))
            && (s !in ls ==> Total(items, s) == 0)
  {
    var a := AllocateFrom(items, wh);
    ReservationWrites.AllocationsDistinct(items, wh);
    LinesMapMembers(a);
    if Mentions(items, s) {
      var i :| 0 <= i < |items| && items[i].sku == s;
      assert a[i].sku == s;
      TotalDistinct(items, i);
    } else {
      TotalAbsent(items, s);
    }
    if s in LinesMap(a) {
      var i :| 0 <= i < |a| && a[i].sku == s;
      assert items[i].sku == s;
    }
  }

  lemma HoldRow(balances: map<Key, Balance>, items: seq<Item>, wh: int, k: Key)
    requires Distinct(items) && CanMove(balances, Hold, LinesMap(AllocateFrom(items, wh)))
    ensures RowFreed(BalanceAt(balances, k), BalanceAt(balances + TouchedRows(balances, Hold, LinesMap(AllocateFrom(items, wh))), k),
                     -Wanted(items, wh, k), Hold)
  {
    Preservation.BalanceAfter(balances, Hold, LinesMap(AllocateFrom(items, wh)), k);
    BookedLines(items, wh, k.sku);
  }

  lemma HoldRows(balances: map<Key, Balance>, items: seq<Item>, wh: int)
    requires Distinct(items) && CanMove(balances, Hold, LinesMap(AllocateFrom(items, wh)))
    ensures RowsBooked(balances, balances + TouchedRows(balances, Hold, LinesMap(AllocateFrom(items, wh))), wh, items)
  {
    var balances' := balances + TouchedRows(balances, Hold, LinesMap(AllocateFrom(items, wh)));
    forall k ensures RowFreed(BalanceAt(balances, k), BalanceAt(balances', k), -Wanted(items, wh, k), Hold) {
      HoldRow(balances, items, wh, k);
    }
  }

  lemma HoldLines(lines: map<LineKey, Line>, id: string, items: seq<Item>, wh: int)
    requires Distinct(items) && forall s :: LineKey(id, s) !in lines
    ensures LinesBooked(lines, lines + NewLines(id, LinesMap(AllocateFrom(items, wh))), id, wh, items)
  {
    forall s
      ensures s in LinesMap(AllocateFrom(items, wh)) <==> Mentions(items, s)
      ensures Mentions(items, s) ==> LinesMap(AllocateFrom(items, wh))[s] == Line(wh, Total(items, s))
    {
      BookedLines(items, wh, s);
    }
  }

  lemma RowServed(balances: map<Key, Balance>, balances': map<Key, Balance>, wh: int, items: seq<Item>, i: nat)
    requires Distinct(items) && i < |items| && items[i].qty > 0 && balances'.Keys == balances.Keys
    requires Serves(balances, wh, items) && RowsBooked(balances, balances', wh, items)
    ensures KeepsSafety(balances', Key(items[i].sku, wh))
  {
    var k := Key(items[i].sku, wh);
    TotalDistinct(items, i);
    assert Gives(balances, k, items[i].qty);
    assert RowFreed(BalanceAt(balances, k), BalanceAt(balances', k), -Wanted(items, wh, k), Hold);
  }

  lemma HoldSafety(balances: map<Key, Balance>, items: seq<Item>, wh: int)
    requires Distinct(items) && CanMove(balances, Hold, LinesMap(AllocateFrom(items, wh)))
    requires Serves(balances, wh, items) && forall i | 0 <= i < |items| :: items[i].qty > 0
    ensures SafetyKept(balances + TouchedRows(balances, Hold, LinesMap(AllocateFrom(items, wh))), wh, items)
  {
    var balances' := balances + TouchedRows(balances, Hold, LinesMap(AllocateFrom(items, wh)));
    HoldRows(balances, items, wh);
    forall i | 0 <= i < |items| ensures KeepsSafety(balances', Key(items[i].sku, wh)) {
      RowServed(balances, balances', wh, items, i);
    }
  }

  lemma OnlyLines(lines: map<LineKey, Line>, id: string, ls: map<string, Line>)
    requires forall s :: LineKey(id, s) !in lines
    ensures LinesOf(lines + NewLines(id, ls), id) == ls
  {
  }

  lemma FreshLines(db: Db, id: string)
    requires LinesOk(db.balances, db.headers, db.lines) && id !in db.headers
    ensures forall s :: LineKey(id, s) !in db.lines
  {
  }

  lemma BookingBooks(db: Db, id: string, orderRef: string, hash: string, wh: int, items: seq<Item>)
    requires Inv(db) && Distinct(items) && id !in db.headers
    requires Serves(db.balances, wh, items) && forall i | 0 <= i < |items| :: items[i].qty > 0
    requires var ls := LinesMap(AllocateFrom(items, wh)); CanMove(db.balances, Hold, ls) && CanRecord(db.movements, Hold, id, ls, "")
    ensures Booked(db, Apply(db, ReserveEv(id, orderRef, hash, wh, LinesMap(AllocateFrom(items, wh)))), id,
                   Header(orderRef, hash, Reserved), wh, items)
  {
    var ls := LinesMap(AllocateFrom(items, wh));
    FreshLines(db, id);
    Preservation.ReserveTables(db, id, orderRef, hash, wh, ls);
    HoldLines(db.lines, id, items, wh);
    HoldRows(db.balances, items, wh);
    HoldSafety(db.balances, items, wh);
    OnlyLines(db.lines, id, ls);
    LedgerGrows(db.movements, id, Hold, ls, "", "res:", RESERVE);
  }

  lemma LegalPosts(db: Db, ev: Event)
    requires ev.ReserveEv? && Step(db, ev).Some?
    ensures CanMove(db.balances, Hold, ev.ls) && CanRecord(db.movements, Hold, ev.id, ev.ls, "")
  {
  }

  lemma CoveredBooks(db: Db, id: string, orderRef: string, items: seq<Item>, region: string, wh: int)
    requires Inv(db) && Redeem.PlainLines(db.lines) && Availability.Fresh(db, id, orderRef, items)
    requires FirstFulfilling(db.balances, ActiveIds(db.warehouses), items) == Some(wh)
    requires Availability.Unblocked(db.movements, id, items)
    ensures var (ev, reply) := DecideReserve(db, id, orderRef, items, region);
            && reply == Held(Reserved, AllocateFrom(items, wh), false)
            && Booked(db, After(db, ev), id, Header(orderRef, Canonical.Encode(items, region), Reserved), wh, items)
  {
    var hash := Canonical.Encode(items, region);
    var ev := ReserveEv(id, orderRef, hash, wh, LinesMap(AllocateFrom(items, wh)));
    FirstIsLeast(db, items, wh);
    Availability.FreshReserveIff(db, id, orderRef, hash, items, wh);
    Availability.FreshDecides(db, id, orderRef, items, region, wh);
    AttemptSucceeds(db, ev, Held(Reserved, AllocateFrom(items, wh), false));
    LegalPosts(db, ev);
    FulfillsIff(db.balances, wh, items);
    BookingBooks(db, id, orderRef, hash, wh, items);
  }

  lemma BlockedFails(db: Db, id: string, orderRef: string, items: seq<Item>, region: string, wh: int)
    requires Inv(db) && Redeem.PlainLines(db.lines) && Availability.Fresh(db, id, orderRef, items)
    requires FirstFulfilling(db.balances, ActiveIds(db.warehouses), items) == Some(wh)
    requires !Availability.Unblocked(db.movements, id, items)
    ensures DecideReserve(db, id, orderRef, items, region) == (None, Failed(StorageError))
  {
    var ev := ReserveEv(id, orderRef, Canonical.Encode(items, region), wh, LinesMap(AllocateFrom(items, wh)));
    FirstIsLeast(db, items, wh);
    Availability.FreshReserveIff(db, id, orderRef, Canonical.Encode(items, region), items, wh);
    Availability.FreshDecides(db, id, orderRef, items, region, wh);
    AttemptFails(db, ev, Held(Reserved, AllocateFrom(items, wh), false));
  }

  // Some active warehouse has every line.
  ghost predicate Servable(db: Db, items: seq<Item>) {
    exists wh :: LeastServing(db, wh, items)
  }

  // The lines of reservation id, by warehouse and then bytewise by SKU.
  ghost predicate ListsLines(lines: map<LineKey, Line>, id: string, ls: seq<Allocation>) {
    && (forall a :: a in ls <==> LineKey(id, a.sku) in lines && lines[LineKey(id, a.sku)] == Line(a.wh, a.qty))
    && (forall i, j | 0 <= i < j < |ls| :: ls[i].wh <= ls[j].wh && (ls[i].wh == ls[j].wh ==> Text.Before(ls[i].sku, ls[j].sku)))
  }

  // A reservation that is there already: the request is its replay if order and hash agree.
  ghost predicate ReplayedAs(db: Db, id: string, orderRef: string, hash: string, reply: Reply)
    requires id in db.headers
  {
    if db.headers[id].orderRef == orderRef && db.headers[id].hash == hash then
      reply.Held? && reply.replayed && reply.status == db.headers[id].status && ListsLines(db.lines, id, reply.allocations)
    else reply == Failed(IdempotencyConflict)
  }

  // An unused id and order: if some active warehouse has every line, beyond what is reserved and kept
  // for safety, and no admin command squats on a ledger id, the least such warehouse now holds exactly
  // the requested units; otherwise the answer names the unknown SKUs, or else what the least active
  // warehouse is short of.
  ghost predicate NewlyBooked(db: Db, db': Db, id: string, orderRef: string, hash: string, items: seq<Item>, reply: Reply) {
    if !Servable(db, items) then db' == db && reply.Failed? && RightlyRefused(db, items, reply.why)
    else if !Availability.Unblocked(db.movements, id, items) then db' == db && reply == Failed(StorageError)
    else
      exists wh :: LeastServing(db, wh, items)
        && reply == Held(Reserved, AllocateFrom(items, wh), false)
        && Booked(db, db', id, Header(orderRef, hash, Reserved), wh, items)
  }

  // Reserve by what it asks and finds.
  ghost predicate ReserveOutcomes(db: Db, db': Db, id: string, orderRef: string, hash: string, items: seq<Item>, reply: Reply) {
    if |orderRef| > 255 then db' == db && reply == Failed(StorageError)
    else if id in db.headers then db' == db && ReplayedAs(db, id, orderRef, hash, reply)
    else if exists r :: r in db.headers && db.headers[r].orderRef == orderRef then db' == db && reply == Failed(IdempotencyConflict)
    else NewlyBooked(db, db', id, orderRef, hash, items, reply)
  }

  lemma FreshOutcome(db: Db, id: string, orderRef: string, items: seq<Item>, region: string)
    requires Inv(db) && Redeem.PlainLines(db.lines) && Availability.Fresh(db, id, orderRef, items)
    ensures var (ev, reply) := DecideReserve(db, id, orderRef, items, region);
            NewlyBooked(db, After(db, ev), id, orderRef, Canonical.Encode(items, region), items, reply)
  {
    ChoiceIs(db, items);
    match FirstFulfilling(db.balances, ActiveIds(db.warehouses), items)
    case None => RefusalIs(db, items);
    case Some(wh) =>
      if Availability.Unblocked(db.movements, id, items) {
        CoveredBooks(db, id, orderRef, items, region, wh);
      } else {
        BlockedFails(db, id, orderRef, items, region, wh);
      }
  }

  lemma LoadListsLines(lines: map<LineKey, Line>, id: string)
    ensures ListsLines(lines, id, LoadLines(lines, id))
  {
    var ls := LoadLines(lines, id);
    forall i, j | 0 <= i < j < |ls|
      ensures ls[i].wh <= ls[j].wh && (ls[i].wh == ls[j].wh ==> Text.Before(ls[i].sku, ls[j].sku))
    {
      LoadedInOrder(lines, id, i, j);
    }
  }

  lemma UsedAnswers(db: Db, id: string, orderRef: string, items: seq<Item>, region: string)
    requires Distinct(items) && |id| <= 255
    requires |orderRef| > 255 || id in db.headers || RefTaken(db.headers, orderRef)
    ensures DecideReserve(db, id, orderRef, items, region)
         == (None, if |orderRef| > 255 then Failed(StorageError)
                   else if id !in db.headers then Failed(IdempotencyConflict)
                   else if db.headers[id].orderRef == orderRef && db.headers[id].hash == Canonical.Encode(items, region) then
                     Held(db.headers[id].status, LoadLines(db.lines, id), true)
                   else Failed(IdempotencyConflict))
  {
  }

  // Reserve of an admitted basket, whatever its id and order.
  lemma ReserveOutcome(db: Db, id: string, orderRef: string, items: seq<Item>, region: string)
    requires Inv(db) && Redeem.PlainLines(db.lines) && ValidReservationId(id)
    requires Distinct(items) && forall i | 0 <= i < |items| :: ValidSku(items[i].sku) && items[i].qty > 0
    ensures var (ev, reply) := DecideReserve(db, id, orderRef, items, region);
            ReserveOutcomes(db, After(db, ev), id, orderRef, Canonical.Encode(items, region), items, reply)
  {
    assert RefTaken(db.headers, orderRef) <==> exists r :: r in db.headers && db.headers[r].orderRef == orderRef;
    if |orderRef| > 255 || id in db.headers || RefTaken(db.headers, orderRef) {
      UsedAnswers(db, id, orderRef, items, region);
      LoadListsLines(db.lines, id);
    } else {
      FreshOutcome(db, id, orderRef, items, region);
    }
  }

  lemma ClosedAnswers(db: Db, id: string, op: Op, reason: string)
    requires op != Hold && StatusOf(db, id) != Some(Reserved)
    ensures DecideSettle(db, id, op, reason).0 == None
    ensures var reply := DecideSettle(db, id, op, reason).1;
            if id !in db.headers then reply == if op == Unhold then Settled(Released) else Failed(ReservationNotFound)
            else if db.headers[id].status == StatusAfter(op) then reply == Settled(StatusAfter(op))
            else reply == Failed(InvalidTransition)
  {
  }

  // A settlement of op by cases: an open reservation is settled unless an admin command squats on one
  // of its ledger ids, which leaves it open; any other is answered by its status, without effect.
  ghost predicate SettleOutcomes(db: Db, db': Db, id: string, op: Op, reason: string, reply: Reply) {
    var ended := if op == Sale then Committed else Released;
    if id !in db.headers then db' == db && reply == if op == Sale then Failed(ReservationNotFound) else Settled(Released)
    else if db.headers[id].status == ended then db' == db && reply == Settled(ended)
    else if db.headers[id].status != Reserved then db' == db && reply == Failed(InvalidTransition)
    else if Redeem.Unsquatted(db, id, op) then SettledBy(db, db', id, op, reason) && reply == Settled(ended)
    else db' == db && reply == Failed(StorageError)
  }

  lemma SettleOutcome(db: Db, id: string, op: Op, reason: string)
    requires Inv(db) && Redeem.Edged(db) && op != Hold && |reason| <= 64
    ensures var (ev, reply) := DecideSettle(db, id, op, reason); SettleOutcomes(db, After(db, ev), id, op, reason, reply)
  {
    if StatusOf(db, id) != Some(Reserved) {
      ClosedAnswers(db, id, op, reason);
    } else {
      Redeem.SettleableIff(db, id, op, reason);
      if Step(db, SettleEv(id, op, reason)).Some? {
        OpenSettles(db, id, op, reason);
      } else {
        SettleFails(db, id, op, reason);
      }
    }
  }

  // Release: a reserved reservation gives its units back, unless a ledger id is squatted; a missing
  // or released one is a success without effect; a committed one is refused.
  lemma ReleaseOutcome(db: Db, id: string, reason: string)
    requires Inv(db) && Redeem.Edged(db) && |reason| <= 64
    ensures SettleOutcomes(db, Exec(db, Release(id, reason)), id, Unhold, reason, Answer(db, Release(id, reason)))
  {
    SettleOutcome(db, id, Unhold, reason);
  }

  // Commit: the units of a reserved reservation leave stock and hold, unless a ledger id is squatted;
  // a committed one is a success without effect; a missing one is not found; a released one is refused.
  lemma CommitOutcome(db: Db, id: string)
    requires Inv(db) && Redeem.Edged(db)
    ensures SettleOutcomes(db, Exec(db, Commit(id)), id, Sale, "", Answer(db, Commit(id)))
  {
    SettleOutcome(db, id, Sale, "");
  }

  // What a stock command's own fields must satisfy.
  predicate FieldsOk(act: StockAction, cmd: StockCommand) {
    && 1 <= |cmd.commandId| <= 255 && 1 <= |cmd.sku| <= 64 && cmd.wh > 0 && |cmd.actor| <= 64
    && (act == ReceiveStock ==> cmd.qty >= 1)
    && (act == AdjustOnHand ==> cmd.qty <= -1 || cmd.qty >= 1)
    && (act == SetSafetyStock ==> cmd.qty >= 0)
  }

  // The ledger row of a stock command: what it is, how it moves the stock on hand, who did it and why.
  predicate Written(act: StockAction, cmd: StockCommand, m: Movement) {
    && m.key.sku == cmd.sku && m.key.wh == cmd.wh && m.reservedDelta == 0
    && m.origin == Admin(cmd.actor) && m.reason == cmd.reason
    && match act
       case ReceiveStock => m.kind == RECEIVE && m.onHandDelta == cmd.qty
       case AdjustOnHand => m.kind == ADJUST && m.onHandDelta == cmd.qty
       case SetSafetyStock => m.kind == SET_SAFETY_STOCK && m.onHandDelta == 0
  }

  // One balance row has changed, and one ledger row was added.

  ghost predicate OneRowMoved(balances: map<Key, Balance>, balances': map<Key, Balance>, act: StockAction, cmd: StockCommand) {
    var k := Key(cmd.sku, cmd.wh);
    var b := if k in balances then balances[k] else Balance(0, 0, 0, 0);
    && balances'.Keys == balances.Keys + {k}
    && (forall j | j in balances && j != k :: balances'[j] == balances[j])
    && balances'[k].reserved == b.reserved && balances'[k].version == b.version + 1
    && balances'[k].onHand == b.onHand + (if act == SetSafetyStock then 0 else cmd.qty)
    && balances'[k].safety == (if act == SetSafetyStock then cmd.qty else b.safety)
  }

  ghost predicate OneRowAdded(movements: map<string, Movement>, movements': map<string, Movement>, act: StockAction, cmd: StockCommand) {
    var c := cmd.commandId;
    && c !in movements && movements'.Keys == movements.Keys + {c}
    && (forall d | d in movements :: movements'[d] == movements[d])
    && Written(act, cmd, movements'[c])
  }

  ghost predicate StockMoved(db: Db, db': Db, act: StockAction, cmd: StockCommand) {
    && db'.headers == db.headers && db'.lines == db.lines && db'.warehouses == db.warehouses
    && OneRowMoved(db.balances, db'.balances, act, cmd)
    && OneRowAdded(db.movements, db'.movements, act, cmd)
  }

  lemma FieldsAre(act: StockAction, cmd: StockCommand)
    ensures ValidCommand(act, cmd) <==> FieldsOk(act, cmd)
    ensures ValidCommand(act, cmd) ==> (MovementFits(cmd.commandId, StockRow(act, cmd)) <==> |cmd.reason| <= 64)
  {
  }

  // The rows reservations write are none that a stock command writes.
  lemma WorkflowKind(db: Db, c: string)
    requires Inv(db) && c in db.movements && db.movements[c].origin.Workflow?
    ensures db.movements[c].kind in {RESERVE, RELEASE, SALE_COMMITTED}
  {
    var op, lk :| Justifies(db.headers, db.lines, db.movements, c, op, lk);
  }

  lemma SameIsWritten(db: Db, act: StockAction, cmd: StockCommand)
    requires Inv(db) && cmd.commandId in db.movements
    ensures SameCommand(db.movements[cmd.commandId], StockRow(act, cmd)) <==> Written(act, cmd, db.movements[cmd.commandId])
  {
    if db.movements[cmd.commandId].origin.Workflow? { WorkflowKind(db, cmd.commandId); }
  }

  // The row's CHECK after each kind of change.
  lemma RowAllows(db: Db, act: StockAction, cmd: StockCommand)
    requires RowsOk(db.balances, db.warehouses) && FieldsOk(act, cmd)
    ensures var b := BalanceAt(db.balances, Key(cmd.sku, cmd.wh));
            StockShifted(act, b, cmd.qty).Ok() <==> !(act == AdjustOnHand && b.onHand + cmd.qty < b.reserved)
  {
    var k := Key(cmd.sku, cmd.wh);
    if k in db.balances { assert db.balances[k].Ok(); }
  }

  lemma StockDecides(db: Db, act: StockAction, cmd: StockCommand)
    requires Inv(db)
    ensures var k := Key(cmd.sku, cmd.wh);
            DecideStock(db, act, cmd)
            == if !FieldsOk(act, cmd) then (None, Failed(InvalidCommand))
               else if |cmd.reason| > 64 then (None, Failed(StorageError))
               else if cmd.commandId in db.movements then
                 (None, if Written(act, cmd, db.movements[cmd.commandId]) then Applied(false) else Failed(CommandConflict))
               else if cmd.wh !in db.warehouses then (None, Failed(StorageError))
               else if act != ReceiveStock && k !in db.balances then (None, Failed(BalanceNotFound))
               else if act == AdjustOnHand && db.balances[k].onHand + cmd.qty < db.balances[k].reserved then (None, Failed(InsufficientOnHand))
               else (Some(StockEv(act, cmd)), Applied(true))
  {
    FieldsAre(act, cmd);
    if cmd.commandId in db.movements { SameIsWritten(db, act, cmd); }
    if FieldsOk(act, cmd) { RowAllows(db, act, cmd); }
  }

  lemma ShiftMoves(balances: map<Key, Balance>, act: StockAction, cmd: StockCommand)
    ensures OneRowMoved(balances, balances[Key(cmd.sku, cmd.wh) := StockShifted(act, BalanceAt(balances, Key(cmd.sku, cmd.wh)), cmd.qty)], act, cmd)
  {
  }

  lemma RowAdds(movements: map<string, Movement>, act: StockAction, cmd: StockCommand)
    requires cmd.commandId !in movements
    ensures OneRowAdded(movements, movements[cmd.commandId := StockRow(act, cmd)], act, cmd)
  {
  }

  lemma StockApplies(db: Db, act: StockAction, cmd: StockCommand)
    requires Step(db, StockEv(act, cmd)).Some?
    ensures StockMoved(db, Apply(db, StockEv(act, cmd)), act, cmd)
  {
    StockCommands.StockCommits(db, act, cmd);
    ShiftMoves(db.balances, act, cmd);
    RowAdds(db.movements, act, cmd);
  }

  // A stock command, by what it asks and finds: refused for its own fields; a replay of exactly the row
  // it would write, or a conflict, under a used id; refused for a missing warehouse or row, or when an
  // adjustment would leave less than is reserved; and otherwise applied.
  ghost predicate StockOutcomes(db: Db, db': Db, act: StockAction, cmd: StockCommand, reply: Reply) {
    var k := Key(cmd.sku, cmd.wh);
    if !FieldsOk(act, cmd) then db' == db && reply == Failed(InvalidCommand)
    else if |cmd.reason| > 64 then db' == db && reply == Failed(StorageError)
    else if cmd.commandId in db.movements then
      db' == db && reply == if Written(act, cmd, db.movements[cmd.commandId]) then Applied(false) else Failed(CommandConflict)
    else if cmd.wh !in db.warehouses then db' == db && reply == Failed(StorageError)
    else if act != ReceiveStock && k !in db.balances then db' == db && reply == Failed(BalanceNotFound)
    else if act == AdjustOnHand && db.balances[k].onHand + cmd.qty < db.balances[k].reserved then
      db' == db && reply == Failed(InsufficientOnHand)
    else StockMoved(db, db', act, cmd) && reply == Applied(true)
  }

  lemma StockOutcome(db: Db, act: StockAction, cmd: StockCommand)
    requires Inv(db)
    ensures StockOutcomes(db, Exec(db, Stock(act, cmd)), act, cmd, Answer(db, Stock(act, cmd)))
  {
    var (ev, reply) := DecideStock(db, act, cmd);
    StockDecides(db, act, cmd);
    if ev.Some? {
      StockDecisionIsLegal(db, act, cmd);
      StockApplies(db, act, cmd);
    }
    assert Exec(db, Stock(act, cmd)) == After(db, ev);
  }
}
