/** What the invariant means to a caller: accounting, audit and lifecycle over every run from an empty database. */
module Ledger {
  import opened CommandIds
  import opened Tables
  import opened Posting
  import opened Invariants
  import opened Preservation
  import Collections

  ghost predicate Reachable(warehouses: map<int, bool>, evs: seq<Event>, db: Db) {
    Replay(EmptyDb(warehouses), evs) == Some(db)
  }

  lemma ReachableInv(warehouses: map<int, bool>, evs: seq<Event>, db: Db)
    requires Reachable(warehouses, evs, db)
    ensures Inv(db)
  {
    InvInit(warehouses);
    RunKeepsInv(EmptyDb(warehouses), evs, db);
  }

  // reserved is exactly the open holds, and never exceeds the stock on hand.
  lemma HoldAccounting(warehouses: map<int, bool>, evs: seq<Event>, db: Db, k: Key)
    requires Reachable(warehouses, evs, db)
    ensures BalanceAt(db.balances, k).reserved == HeldTotal(db.headers, db.lines, k, Reserved)
    ensures 0 <= BalanceAt(db.balances, k).reserved <= BalanceAt(db.balances, k).onHand
    ensures 0 <= BalanceAt(db.balances, k).safety
  {
    ReachableInv(warehouses, evs, db);
    assert Accounts(db, k);
  }

  // Every balance row is the replay of its ledger rows, one version per row.
  lemma LedgerReplay(warehouses: map<int, bool>, evs: seq<Event>, db: Db, k: Key)
    requires Reachable(warehouses, evs, db)
    ensures BalanceAt(db.balances, k).onHand == LedgerTotal(db.movements, k, OnHandMoved)
    ensures BalanceAt(db.balances, k).reserved == LedgerTotal(db.movements, k, ReservedMoved)
    ensures BalanceAt(db.balances, k).version == LedgerTotal(db.movements, k, RowCount)
  {
    ReachableInv(warehouses, evs, db);
    assert Accounts(db, k);
  }

  // Units promised or sold never exceed units received and adjusted; what is left is on hand.
  lemma NoOversell(warehouses: map<int, bool>, evs: seq<Event>, db: Db, k: Key)
    requires Reachable(warehouses, evs, db)
    ensures HeldTotal(db.headers, db.lines, k, Reserved) + HeldTotal(db.headers, db.lines, k, Committed)
         <= LedgerTotal(db.movements, k, Supplied)
    ensures BalanceAt(db.balances, k).onHand
         == LedgerTotal(db.movements, k, Supplied) - HeldTotal(db.headers, db.lines, k, Committed)
  {
    ReachableInv(warehouses, evs, db);
    assert Accounts(db, k);
  }

  // The command ids of the ledger rows of one kind for one reservation line.
  ghost function RowsFor(movements: map<string, Movement>, rid: string, sku: string, kind: MovementType): set<string> {
    set c | c in movements && movements[c].origin == Workflow(rid) && movements[c].key.sku == sku && movements[c].kind == kind
  }

  lemma JustifiedRow(headers: map<string, Header>, lines: map<LineKey, Line>, movements: map<string, Movement>,
                     c: string, op: Op, lk: LineKey)
    requires Justifies(headers, lines, movements, c, op, lk)
    ensures c in movements && movements[c].origin == Workflow(lk.rid)
    ensures movements[c].key == Key(lk.sku, lines[lk].wh) && movements[c].kind == MovementOf(op)
  {
  }

  lemma OnlyRowFor(headers: map<string, Header>, lines: map<LineKey, Line>, movements: map<string, Movement>, lk: LineKey, op: Op, c: string)
    requires RowsJustified(headers, lines, movements)
    requires lk in lines && lk.rid in headers && c in RowsFor(movements, lk.rid, lk.sku, MovementOf(op))
    ensures c == CommandId(op, lk.rid, lk.sku) && Due(op, headers[lk.rid].status)
  {
    var op', lk' :| Justifies(headers, lines, movements, c, op', lk');
    JustifiedRow(headers, lines, movements, c, op', lk');
    assert op' == op;
  }

  lemma PostedRowCounts(movements: map<string, Movement>, lk: LineKey, l: Line, op: Op)
    requires Posted(movements, op, lk, l)
    ensures CommandId(op, lk.rid, lk.sku) in RowsFor(movements, lk.rid, lk.sku, MovementOf(op))
  {
  }

  lemma RowsForExactly(headers: map<string, Header>, lines: map<LineKey, Line>, movements: map<string, Movement>, lk: LineKey, op: Op)
    requires RowsJustified(headers, lines, movements) && LinesPosted(headers, lines, movements)
    requires lk in lines && lk.rid in headers
    ensures RowsFor(movements, lk.rid, lk.sku, MovementOf(op))
         == if Due(op, headers[lk.rid].status) then {CommandId(op, lk.rid, lk.sku)} else {}
  {
    var rows := RowsFor(movements, lk.rid, lk.sku, MovementOf(op));
    forall c | c in rows
      ensures c == CommandId(op, lk.rid, lk.sku) && Due(op, headers[lk.rid].status)
    {
      OnlyRowFor(headers, lines, movements, lk, op, c);
    }
    if Due(op, headers[lk.rid].status) {
      PostedRowCounts(movements, lk, lines[lk], op);
    }
  }

  // One RESERVE row per line always, one RELEASE row exactly when released, one SALE_COMMITTED
  // row exactly when committed, each under its own id, and no others.
  lemma StatusMatchesLedger(db: Db, lk: LineKey)
    requires Inv(db) && lk in db.lines
    ensures lk.rid in db.headers
    ensures RowsFor(db.movements, lk.rid, lk.sku, RESERVE) == {"res:" + lk.rid + ":" + lk.sku}
    ensures RowsFor(db.movements, lk.rid, lk.sku, RELEASE)
         == if db.headers[lk.rid].status == Released then {"rel:" + lk.rid + ":" + lk.sku} else {}
    ensures RowsFor(db.movements, lk.rid, lk.sku, SALE_COMMITTED)
         == if db.headers[lk.rid].status == Committed then {"cmt:" + lk.rid + ":" + lk.sku} else {}
  {
    LedgerIdsAre(lk.rid, lk.sku, "");
    RowsForExactly(db.headers, db.lines, db.movements, lk, Hold);
    RowsForExactly(db.headers, db.lines, db.movements, lk, Unhold);
    RowsForExactly(db.headers, db.lines, db.movements, lk, Sale);
  }

  // Every reservation-driven ledger row belongs to a line of the reservation it names.
  lemma EveryRowHasItsLine(db: Db, c: string)
    requires Inv(db) && c in db.movements && db.movements[c].origin.Workflow?
    ensures var m := db.movements[c]; var lk := LineKey(m.origin.rid, m.key.sku);
            lk in db.lines && db.lines[lk].wh == m.key.wh && c in RowsFor(db.movements, lk.rid, lk.sku, m.kind)
  {
    var op, lk :| Justifies(db.headers, db.lines, db.movements, c, op, lk);
  }

  // Lifecycle ---------------------------------------------------------------

  predicate StatusStep(st: Status, st': Status) {
    st' == st || (st == Reserved && (st' == Released || st' == Committed))
  }

  // How the state may move: nothing a reader has seen is taken back, except an open status settling once.
  ghost predicate Evolves(db: Db, db': Db) {
    && db'.warehouses == db.warehouses
    && db.balances.Keys <= db'.balances.Keys
    && (forall id | id in db.headers :: id in db'.headers
          && db'.headers[id].orderRef == db.headers[id].orderRef && db'.headers[id].hash == db.headers[id].hash
          && StatusStep(db.headers[id].status, db'.headers[id].status))
    && (forall id, s | id in db.headers && LineKey(id, s) in db.lines ::
          LineKey(id, s) in db'.lines && db'.lines[LineKey(id, s)] == db.lines[LineKey(id, s)])
    && (forall id, s | id in db.headers && LineKey(id, s) in db'.lines :: LineKey(id, s) in db.lines)
    && (forall c | c in db.movements :: c in db'.movements && db'.movements[c] == db.movements[c])
  }

  lemma OpKeepsLines(db: Db, op: Op, id: string, h: Header, ls: map<string, Line>, r: string, s: string)
    requires HeaderStep(db.headers, db.lines, op, id, h, ls) && r in db.headers
    ensures LineKey(r, s) in LinesAfter(db.lines, op, id, ls) <==> LineKey(r, s) in db.lines
    ensures LineKey(r, s) in db.lines ==> LinesAfter(db.lines, op, id, ls)[LineKey(r, s)] == db.lines[LineKey(r, s)]
  {
  }

  lemma OpKeepsRows(movements: map<string, Movement>, op: Op, id: string, ls: map<string, Line>, reason: string)
    requires CanRecord(movements, op, id, ls, reason)
    ensures forall c | c in movements :: c in movements + LedgerRows(op, id, ls, reason)
                                         && (movements + LedgerRows(op, id, ls, reason))[c] == movements[c]
  {
    assert LedgerRows(op, id, ls, reason).Keys !! movements.Keys;
  }

  lemma OpEvolves(db: Db, db': Db, op: Op, id: string, h: Header, ls: map<string, Line>, reason: string)
    requires OpStep(db, db', op, id, h, ls, reason)
    requires op != Hold ==> h == Flipped(db.headers, id, op)
    ensures Evolves(db, db')
  {
    forall r, s | r in db.headers
      ensures LineKey(r, s) in db'.lines <==> LineKey(r, s) in db.lines
      ensures LineKey(r, s) in db.lines ==> db'.lines[LineKey(r, s)] == db.lines[LineKey(r, s)]
    {
      OpKeepsLines(db, op, id, h, ls, r, s);
    }
    OpKeepsRows(db.movements, op, id, ls, reason);
  }

  lemma EventEvolves(db: Db, ev: Event, db': Db)
    requires Inv(db) && Step(db, ev) == Some(db')
    ensures Evolves(db, db')
  {
    match ev
    case ReserveEv(id, orderRef, hash, wh, ls) =>
      ReserveIsOpStep(db, ev);
      OpEvolves(db, db', Hold, id, Header(orderRef, hash, Reserved), ls, "");
    case SettleEv(id, op, reason) =>
      SettleIsOpStep(db, ev);
      OpEvolves(db, db', op, id, Flipped(db.headers, id, op), LinesOf(db.lines, id), reason);
    case StockEv(act, cmd) =>
      StockIsStockStep(db, ev);
  }

  lemma EvolvesReflexive(db: Db)
    ensures Evolves(db, db)
  {
  }

  lemma EvolvesTransitive(a: Db, b: Db, c: Db)
    requires Evolves(a, b) && Evolves(b, c)
    ensures Evolves(a, c)
  {
  }

  // Over any run: a reservation only goes from reserved to one of released or committed, its
  // order, hash and lines never change, and no ledger row is ever rewritten.
  lemma {:induction false} RunEvolves(db: Db, evs: seq<Event>, db': Db)
    requires Inv(db) && Replay(db, evs) == Some(db')
    ensures Evolves(db, db')
  {
    if evs == [] {
      EvolvesReflexive(db);
    } else {
      var n := |evs| - 1;
      var mid := Replay(db, evs[..n]).value;
      RunEvolves(db, evs[..n], mid);
      RunKeepsInv(db, evs[..n], mid);
      EventEvolves(mid, evs[n], db');
      EvolvesTransitive(db, mid, db');
    }
  }

  // GetReservation reads the header and then, without a transaction, the lines: whatever commits
  // in between, the lines are those of the header that was read.
  lemma TwoReadsMatch(db: Db, evs: seq<Event>, db': Db, id: string)
    requires Inv(db) && Replay(db, evs) == Some(db') && id in db.headers
    ensures LinesOf(db'.lines, id) == LinesOf(db.lines, id)
    ensures db.headers[id].status != Expired
  {
    RunEvolves(db, evs, db');
    assert forall s :: LineKey(id, s) in db'.lines <==> LineKey(id, s) in db.lines;
  }

  // Once per run ---------------------------------------------------------------

  // Two commits that would be the same booking, the same order, the settling of the same
  // reservation, or the same admin command.
  predicate SameSubject(a: Event, b: Event) {
    match a
    case ReserveEv(id, orderRef, _, _, _) => b.ReserveEv? && (b.id == id || b.orderRef == orderRef)
    case SettleEv(id, _, _) => b.SettleEv? && b.id == id
    case StockEv(_, cmd) => b.StockEv? && b.cmd.commandId == cmd.commandId
  }

  // What an event leaves behind for good.
  ghost predicate Marked(db: Db, ev: Event) {
    match ev
    case ReserveEv(id, orderRef, _, _, _) => id in db.headers && db.headers[id].orderRef == orderRef
    case SettleEv(id, _, _) => id in db.headers && db.headers[id].status != Reserved
    case StockEv(_, cmd) => cmd.commandId in db.movements
  }

  lemma CommitMarks(db: Db, ev: Event, db': Db)
    requires Step(db, ev) == Some(db')
    ensures Marked(db', ev)
  {
    match ev
    case ReserveEv(id, orderRef, hash, wh, ls) => ReserveTables(db, id, orderRef, hash, wh, ls);
    case SettleEv(_, _, _) => SettleTables(db, ev);
    case StockEv(_, _) => StockIsStockStep(db, ev);
  }

  lemma MarkStays(db: Db, db': Db, ev: Event)
    requires Marked(db, ev) && Evolves(db, db')
    ensures Marked(db', ev)
  {
  }

  lemma MarkBars(db: Db, ev: Event, ev': Event)
    requires Marked(db, ev) && SameSubject(ev, ev')
    ensures Step(db, ev') == None
  {
  }

  lemma {:induction false} ReplayPrefix(db: Db, evs: seq<Event>, k: nat)
    requires k <= |evs| && Replay(db, evs).Some?
    ensures Replay(db, evs[..k]).Some?
  {
    if k < |evs| {
      Collections.Prefixes(evs, k, |evs| - 1);
      ReplayPrefix(db, evs[..|evs| - 1], k);
    } else {
      Collections.Whole(evs);
    }
  }

  lemma LastEvolves(db: Db, evs: seq<Event>, mid: Db, db': Db)
    requires Inv(db) && evs != [] && Replay(db, evs[..|evs| - 1]) == Some(mid) && Replay(db, evs) == Some(db')
    ensures Evolves(mid, db')
  {
    RunKeepsInv(db, evs[..|evs| - 1], mid);
    EventEvolves(mid, evs[|evs| - 1], db');
  }

  // The state after the first k events only evolves on the way to the end.
  lemma {:induction false} PrefixEvolves(db: Db, evs: seq<Event>, k: nat, at: Db, db': Db)
    requires Inv(db) && k <= |evs| && Replay(db, evs[..k]) == Some(at) && Replay(db, evs) == Some(db')
    ensures Evolves(at, db')
  {
    if k == |evs| {
      Collections.Whole(evs);
      EvolvesReflexive(db');
    } else {
      var n := |evs| - 1;
      ReplayPrefix(db, evs, n);
      var mid := Replay(db, evs[..n]).value;
      Collections.Prefixes(evs, k, n);
      PrefixEvolves(db, evs[..n], k, at, mid);
      LastEvolves(db, evs, mid, db');
      EvolvesTransitive(at, mid, db');
    }
  }

  lemma PrefixStep(db: Db, evs: seq<Event>, k: nat)
    requires k < |evs| && Replay(db, evs).Some?
    ensures Replay(db, evs[..k]).Some? && Replay(db, evs[..k + 1]).Some?
    ensures Step(Replay(db, evs[..k]).value, evs[k]) == Replay(db, evs[..k + 1])
  {
    ReplayPrefix(db, evs, k);
    ReplayPrefix(db, evs, k + 1);
    Collections.Shorter(evs, k);
  }

  lemma MarkedLater(db: Db, evs: seq<Event>, i: nat, j: nat)
    requires Inv(db) && Replay(db, evs).Some? && i < j <= |evs|
    ensures Replay(db, evs[..j]).Some? && Marked(Replay(db, evs[..j]).value, evs[i])
  {
    PrefixStep(db, evs, i);
    var marked := Replay(db, evs[..i + 1]).value;
    CommitMarks(Replay(db, evs[..i]).value, evs[i], marked);
    ReplayPrefix(db, evs, j);
    Collections.Prefixes(evs, i + 1, j);
    PrefixEvolves(db, evs[..j], i + 1, marked, Replay(db, evs[..j]).value);
    MarkStays(marked, Replay(db, evs[..j]).value, evs[i]);
  }

  // In any run a reservation id is booked at most once, an order at most once, a reservation settled
  // at most once, an admin command id applied at most once.
  lemma OncePerRun(db: Db, evs: seq<Event>, i: nat, j: nat)
    requires Inv(db) && Replay(db, evs).Some? && i < j < |evs|
    ensures !SameSubject(evs[i], evs[j])
  {
    MarkedLater(db, evs, i, j);
    PrefixStep(db, evs, j);
    if SameSubject(evs[i], evs[j]) { MarkBars(Replay(db, evs[..j]).value, evs[i], evs[j]); }
  }
}
