/** Every legal event keeps the invariant. */
module Preservation {
  import opened CommandIds
  import opened Tables
  import opened Posting
  import opened Invariants
  import Collections

  // What each table looks like after one reservation-driven command has committed.

  function LinesAfter(lines: map<LineKey, Line>, op: Op, id: string, ls: map<string, Line>): map<LineKey, Line> {
    if op == Hold then lines + NewLines(id, ls) else lines
  }

  // What Legal says about the reservation-driven events, in one shape for all three operations.
  ghost predicate HeaderStep(headers: map<string, Header>, lines: map<LineKey, Line>, op: Op, id: string, h: Header, ls: map<string, Line>) {
    && h.status == StatusAfter(op)
    && (op == Hold ==>
          && id !in headers && !RefTaken(headers, h.orderRef)
          && (forall s | s in ls :: ls[s].qty > 0))
    && (op != Hold ==>
          && id in headers && headers[id].status == Reserved && ls == LinesOf(lines, id)
          && h.orderRef == headers[id].orderRef)
  }

  lemma BalanceAfter(balances: map<Key, Balance>, op: Op, ls: map<string, Line>, k: Key)
    requires CanMove(balances, op, ls)
    ensures BalanceAt(balances + TouchedRows(balances, op, ls), k)
         == if Hits(ls, k) then Shifted(op, BalanceAt(balances, k), ls[k.sku].qty) else BalanceAt(balances, k)
  {
    if Hits(ls, k) { assert Key(k.sku, ls[k.sku].wh) == k; }
  }

  lemma RowsAfter(balances: map<Key, Balance>, warehouses: map<int, bool>, op: Op, ls: map<string, Line>)
    requires RowsOk(balances, warehouses) && CanMove(balances, op, ls)
    ensures RowsOk(balances + TouchedRows(balances, op, ls), warehouses)
    ensures (balances + TouchedRows(balances, op, ls)).Keys == balances.Keys
  {
    forall k | k in balances && Hits(ls, k) ensures Shifted(op, balances[k], ls[k.sku].qty).Ok() {
      assert Key(k.sku, ls[k.sku].wh) == k;
    }
  }

  // Other reservations keep their units; id's own units appear, disappear or change column.
  lemma HeldByOther(headers: map<string, Header>, lines: map<LineKey, Line>, op: Op, id: string, h: Header, ls: map<string, Line>,
                    k: Key, st: Status, r: string)
    requires r != id
    ensures HeldBy(headers[id := h], LinesAfter(lines, op, id, ls), k, st, r) == HeldBy(headers, lines, k, st, r)
  {
  }

  lemma HeldBySelf(headers: map<string, Header>, lines: map<LineKey, Line>, op: Op, id: string, h: Header, ls: map<string, Line>,
                   k: Key, st: Status)
    requires HeaderStep(headers, lines, op, id, h, ls)
    requires op == Hold ==> LineKey(id, k.sku) !in lines
    ensures HeldBy(headers, lines, k, st, id) == if op != Hold && st == Reserved && Hits(ls, k) then ls[k.sku].qty else 0
    ensures HeldBy(headers[id := h], LinesAfter(lines, op, id, ls), k, st, id)
         == if st == StatusAfter(op) && Hits(ls, k) then ls[k.sku].qty else 0
  {
  }

  lemma HeldAfter(headers: map<string, Header>, lines: map<LineKey, Line>, op: Op, id: string, h: Header, ls: map<string, Line>,
                  k: Key, st: Status)
    requires HeaderStep(headers, lines, op, id, h, ls)
    requires op == Hold ==> forall s :: LineKey(id, s) !in lines
    ensures HeldTotal(headers[id := h], LinesAfter(lines, op, id, ls), k, st)
         == HeldTotal(headers, lines, k, st)
            + (if st == StatusAfter(op) && Hits(ls, k) then ls[k.sku].qty else 0)
            - (if op != Hold && st == Reserved && Hits(ls, k) then ls[k.sku].qty else 0)
  {
    forall r | r in headers && r != id
      ensures HeldBy(headers[id := h], LinesAfter(lines, op, id, ls), k, st, r) == HeldBy(headers, lines, k, st, r)
    {
      HeldByOther(headers, lines, op, id, h, ls, k, st, r);
    }
    HeldBySelf(headers, lines, op, id, h, ls, k, st);
    HeldChange(headers, lines, headers[id := h], LinesAfter(lines, op, id, ls), id, k, st);
  }

  // db' is db after one reservation-driven command has committed.
  ghost predicate OpStep(db: Db, db': Db, op: Op, id: string, h: Header, ls: map<string, Line>, reason: string) {
    && HeaderStep(db.headers, db.lines, op, id, h, ls)
    && (op == Hold ==> forall s :: LineKey(id, s) !in db.lines)
    && CanMove(db.balances, op, ls)
    && CanRecord(db.movements, op, id, ls, reason)
    && db' == Db(db.warehouses, db.balances + TouchedRows(db.balances, op, ls), db.headers[id := h],
                 LinesAfter(db.lines, op, id, ls), db.movements + LedgerRows(op, id, ls, reason))
  }

  lemma LedgerTotalsAfter(db: Db, db': Db, op: Op, id: string, h: Header, ls: map<string, Line>, reason: string, k: Key)
    requires OpStep(db, db', op, id, h, ls, reason)
    ensures forall m :: LedgerTotal(db'.movements, k, m) == LedgerTotal(db.movements, k, m)
                          + if Hits(ls, k) then Share(m, LedgerRow(op, id, k.sku, ls[k.sku], reason)) else 0
  {
    forall m: Measure
      ensures LedgerTotal(db'.movements, k, m) == LedgerTotal(db.movements, k, m)
                + if Hits(ls, k) then Share(m, LedgerRow(op, id, k.sku, ls[k.sku], reason)) else 0
    {
      OpLedger(db.movements, op, id, ls, reason, k, m);
    }
  }

  lemma HeldTotalsAfter(db: Db, db': Db, op: Op, id: string, h: Header, ls: map<string, Line>, reason: string, k: Key)
    requires OpStep(db, db', op, id, h, ls, reason)
    ensures BalanceAt(db'.balances, k)
         == if Hits(ls, k) then Shifted(op, BalanceAt(db.balances, k), ls[k.sku].qty) else BalanceAt(db.balances, k)
    ensures forall st :: HeldTotal(db'.headers, db'.lines, k, st) == HeldTotal(db.headers, db.lines, k, st)
              + (if st == StatusAfter(op) && Hits(ls, k) then ls[k.sku].qty else 0)
              - (if op != Hold && st == Reserved && Hits(ls, k) then ls[k.sku].qty else 0)
  {
    BalanceAfter(db.balances, op, ls, k);
    forall st: Status
      ensures HeldTotal(db'.headers, db'.lines, k, st) == HeldTotal(db.headers, db.lines, k, st)
                + (if st == StatusAfter(op) && Hits(ls, k) then ls[k.sku].qty else 0)
                - (if op != Hold && st == Reserved && Hits(ls, k) then ls[k.sku].qty else 0)
    {
      HeldAfter(db.headers, db.lines, op, id, h, ls, k, st);
    }
  }

  // The five equations of Accounts, each moved by the same line.
  lemma AccountsShift(db: Db, db': Db, op: Op, id: string, ls: map<string, Line>, reason: string, k: Key,
                      row: Movement, q: int)
    requires Hits(ls, k) && row == LedgerRow(op, id, k.sku, ls[k.sku], reason) && q == ls[k.sku].qty
    requires BalanceAt(db'.balances, k) == Shifted(op, BalanceAt(db.balances, k), q)
    requires LedgerTotal(db'.movements, k, OnHandMoved) == LedgerTotal(db.movements, k, OnHandMoved) + Share(OnHandMoved, row)
    requires LedgerTotal(db'.movements, k, ReservedMoved) == LedgerTotal(db.movements, k, ReservedMoved) + Share(ReservedMoved, row)
    requires LedgerTotal(db'.movements, k, RowCount) == LedgerTotal(db.movements, k, RowCount) + Share(RowCount, row)
    requires LedgerTotal(db'.movements, k, Supplied) == LedgerTotal(db.movements, k, Supplied) + Share(Supplied, row)
    requires HeldTotal(db'.headers, db'.lines, k, Reserved) == HeldTotal(db.headers, db.lines, k, Reserved) + if op == Hold then q else -q
    requires HeldTotal(db'.headers, db'.lines, k, Committed) == HeldTotal(db.headers, db.lines, k, Committed) + if op == Sale then q else 0
    requires Accounts(db, k)
    ensures Accounts(db', k)
  {
  }

  lemma AccountsAfter(db: Db, db': Db, op: Op, id: string, h: Header, ls: map<string, Line>, reason: string, k: Key)
    requires OpStep(db, db', op, id, h, ls, reason) && Accounts(db, k)
    ensures Accounts(db', k)
  {
    LedgerTotalsAfter(db, db', op, id, h, ls, reason, k);
    HeldTotalsAfter(db, db', op, id, h, ls, reason, k);
    if Hits(ls, k) {
      AccountsShift(db, db', op, id, ls, reason, k, LedgerRow(op, id, k.sku, ls[k.sku], reason), ls[k.sku].qty);
    }
  }

  lemma HeadersAfter(headers: map<string, Header>, lines: map<LineKey, Line>, op: Op, id: string, h: Header, ls: map<string, Line>)
    requires HeadersOk(headers) && HeaderStep(headers, lines, op, id, h, ls)
    ensures HeadersOk(headers[id := h])
  {
  }

  lemma LinesOkAfter(db: Db, db': Db, op: Op, id: string, h: Header, ls: map<string, Line>, reason: string)
    requires LinesOk(db.balances, db.headers, db.lines) && OpStep(db, db', op, id, h, ls, reason)
    ensures LinesOk(db'.balances, db'.headers, db'.lines)
  {
  }

  // A ledger row that was there stays there; the lines of id get their new row.
  lemma PostedAfter(movements: map<string, Movement>, op: Op, id: string, ls: map<string, Line>, reason: string,
                    op': Op, lk: LineKey, l: Line)
    requires CanRecord(movements, op, id, ls, reason)
    requires Posted(movements, op', lk, l) || (lk.rid == id && op' == op && lk.sku in ls && l == ls[lk.sku])
    ensures Posted(movements + LedgerRows(op, id, ls, reason), op', lk, l)
  {
    assert LedgerRows(op, id, ls, reason).Keys !! movements.Keys;
  }

  lemma LinePostedAfter(db: Db, op: Op, id: string, h: Header, ls: map<string, Line>, reason: string, lk: LineKey, op': Op)
    requires HeaderStep(db.headers, db.lines, op, id, h, ls)
    requires op == Hold ==> forall s :: LineKey(id, s) !in db.lines
    requires CanRecord(db.movements, op, id, ls, reason)
    requires lk in LinesAfter(db.lines, op, id, ls) && lk.rid in db.headers[id := h]
    requires Due(op', db.headers[id := h][lk.rid].status)
    requires lk in db.lines && lk.rid in db.headers && Due(op', db.headers[lk.rid].status) ==> Posted(db.movements, op', lk, db.lines[lk])
    requires lk in db.lines ==> lk.rid in db.headers
    ensures Posted(db.movements + LedgerRows(op, id, ls, reason), op', lk, LinesAfter(db.lines, op, id, ls)[lk])
  {
    PostedAfter(db.movements, op, id, ls, reason, op', lk, LinesAfter(db.lines, op, id, ls)[lk]);
  }

  lemma LinesPostedAfter(db: Db, db': Db, op: Op, id: string, h: Header, ls: map<string, Line>, reason: string)
    requires LinesOk(db.balances, db.headers, db.lines)
    requires LinesPosted(db.headers, db.lines, db.movements) && OpStep(db, db', op, id, h, ls, reason)
    ensures LinesPosted(db'.headers, db'.lines, db'.movements)
  {
    forall lk, op' | lk in db'.lines && lk.rid in db'.headers && Due(op', db'.headers[lk.rid].status)
      ensures Posted(db'.movements, op', lk, db'.lines[lk])
    {
      LinePostedAfter(db, op, id, h, ls, reason, lk, op');
    }
  }

  lemma JustifiesAfter(db: Db, db': Db, op: Op, id: string, h: Header, ls: map<string, Line>, reason: string,
                       c: string, op': Op, lk: LineKey)
    requires OpStep(db, db', op, id, h, ls, reason)
    requires Justifies(db.headers, db.lines, db.movements, c, op', lk)
    ensures Justifies(db'.headers, db'.lines, db'.movements, c, op', lk)
  {
    PostedAfter(db.movements, op, id, ls, reason, op', lk, db.lines[lk]);
  }

  lemma LineAfter(lines: map<LineKey, Line>, headers: map<string, Header>, op: Op, id: string, h: Header, ls: map<string, Line>, s: string)
    requires HeaderStep(headers, lines, op, id, h, ls) && s in ls
    ensures LineKey(id, s) in LinesAfter(lines, op, id, ls) && LinesAfter(lines, op, id, ls)[LineKey(id, s)] == ls[s]
  {
  }

  lemma NewRowJustified(db: Db, db': Db, op: Op, id: string, h: Header, ls: map<string, Line>, reason: string, s: string)
    requires OpStep(db, db', op, id, h, ls, reason) && s in ls
    ensures Justifies(db'.headers, db'.lines, db'.movements, CommandId(op, id, s), op, LineKey(id, s))
  {
    LineAfter(db.lines, db.headers, op, id, h, ls, s);
    assert Posted(db'.movements, op, LineKey(id, s), ls[s]) by {
      PostedAfter(db.movements, op, id, ls, reason, op, LineKey(id, s), ls[s]);
    }
    assert db'.headers[id].status == StatusAfter(op);
  }

  lemma RowsJustifiedAfter(db: Db, db': Db, op: Op, id: string, h: Header, ls: map<string, Line>, reason: string)
    requires RowsJustified(db.headers, db.lines, db.movements) && OpStep(db, db', op, id, h, ls, reason)
    ensures RowsJustified(db'.headers, db'.lines, db'.movements)
  {
    forall c | c in db'.movements && db'.movements[c].origin.Workflow?
      ensures exists op', lk :: Justifies(db'.headers, db'.lines, db'.movements, c, op', lk)
    {
      if c in LedgerRows(op, id, ls, reason) {
        var s :| s in ls && c == CommandId(op, id, s);
        NewRowJustified(db, db', op, id, h, ls, reason, s);
      } else {
        var op', lk :| Justifies(db.headers, db.lines, db.movements, c, op', lk);
        JustifiesAfter(db, db', op, id, h, ls, reason, c, op', lk);
      }
    }
  }

  lemma OpKeepsInv(db: Db, db': Db, op: Op, id: string, h: Header, ls: map<string, Line>, reason: string)
    requires Inv(db) && OpStep(db, db', op, id, h, ls, reason)
    ensures Inv(db')
  {
    RowsAfter(db.balances, db.warehouses, op, ls);
    HeadersAfter(db.headers, db.lines, op, id, h, ls);
    LinesOkAfter(db, db', op, id, h, ls, reason);
    LinesPostedAfter(db, db', op, id, h, ls, reason);
    RowsJustifiedAfter(db, db', op, id, h, ls, reason);
    forall k ensures Accounts(db', k) {
      AccountsAfter(db, db', op, id, h, ls, reason, k);
    }
  }

  lemma StockTotals(db: Db, act: StockAction, cmd: StockCommand, k: Key)
    requires Legal(db, StockEv(act, cmd))
    ensures forall m :: LedgerTotal(db.movements[cmd.commandId := StockRow(act, cmd)], k, m)
              == LedgerTotal(db.movements, k, m) + if k == Key(cmd.sku, cmd.wh) then Share(m, StockRow(act, cmd)) else 0
  {
    var row := map[cmd.commandId := StockRow(act, cmd)];
    assert db.movements + row == db.movements[cmd.commandId := StockRow(act, cmd)];
    forall m: Measure
      ensures LedgerTotal(db.movements + row, k, m)
           == LedgerTotal(db.movements, k, m) + if k == Key(cmd.sku, cmd.wh) then Share(m, StockRow(act, cmd)) else 0
    {
      LedgerInsert(db.movements, row, k, m);
      Sums.SumOnly(row.Keys, c => ShareAt(row, k, m, c), cmd.commandId);
    }
  }

  // db' is db after one admin command has committed.
  ghost predicate StockStep(db: Db, db': Db, act: StockAction, cmd: StockCommand) {
    var k := Key(cmd.sku, cmd.wh);
    && Legal(db, StockEv(act, cmd))
    && db' == db.(balances := db.balances[k := StockShifted(act, BalanceAt(db.balances, k), cmd.qty)],
                  movements := db.movements[cmd.commandId := StockRow(act, cmd)])
  }

  lemma StockAccounts(db: Db, db': Db, act: StockAction, cmd: StockCommand, k: Key)
    requires StockStep(db, db', act, cmd) && Accounts(db, k)
    ensures Accounts(db', k)
  {
    StockTotals(db, act, cmd, k);
  }

  lemma StockJustified(db: Db, db': Db, act: StockAction, cmd: StockCommand)
    requires StockStep(db, db', act, cmd)
    requires RowsJustified(db.headers, db.lines, db.movements)
    ensures RowsJustified(db'.headers, db'.lines, db'.movements)
  {
    forall c | c in db'.movements && db'.movements[c].origin.Workflow?
      ensures exists op, lk :: Justifies(db'.headers, db'.lines, db'.movements, c, op, lk)
    {
      var op, lk :| Justifies(db.headers, db.lines, db.movements, c, op, lk);
      assert Justifies(db'.headers, db'.lines, db'.movements, c, op, lk);
    }
  }

  lemma StockPosted(db: Db, db': Db, act: StockAction, cmd: StockCommand)
    requires StockStep(db, db', act, cmd)
    requires LinesPosted(db.headers, db.lines, db.movements)
    ensures LinesPosted(db'.headers, db'.lines, db'.movements)
  {
    forall lk, op | lk in db.lines && lk.rid in db.headers && Due(op, db.headers[lk.rid].status)
      ensures Posted(db'.movements, op, lk, db.lines[lk])
    {
      assert Posted(db.movements, op, lk, db.lines[lk]);
    }
  }

  lemma StockKeepsInv(db: Db, db': Db, act: StockAction, cmd: StockCommand)
    requires Inv(db) && StockStep(db, db', act, cmd)
    ensures Inv(db')
  {
    StockPosted(db, db', act, cmd);
    StockJustified(db, db', act, cmd);
    forall k ensures Accounts(db', k) { StockAccounts(db, db', act, cmd, k); }
  }

  lemma ReserveTables(db: Db, id: string, orderRef: string, hash: string, wh: int, ls: map<string, Line>)
    ensures Apply(db, ReserveEv(id, orderRef, hash, wh, ls))
         == Db(db.warehouses, db.balances + TouchedRows(db.balances, Hold, ls),
               db.headers[id := Header(orderRef, hash, Reserved)], db.lines + NewLines(id, ls),
               db.movements + LedgerRows(Hold, id, ls, ""))
  {
    Collections.PlusOne(db.headers, id, Header(orderRef, hash, Reserved));
  }

  lemma ReserveIsOpStep(db: Db, ev: Event)
    requires LinesOk(db.balances, db.headers, db.lines) && ev.ReserveEv? && Legal(db, ev)
    ensures OpStep(db, Apply(db, ev), Hold, ev.id, Header(ev.orderRef, ev.hash, Reserved), ev.ls, "")
  {
    var h := Header(ev.orderRef, ev.hash, Reserved);
    assert forall s :: LineKey(ev.id, s) !in db.lines;
    assert HeaderStep(db.headers, db.lines, Hold, ev.id, h, ev.ls);
    ReserveTables(db, ev.id, ev.orderRef, ev.hash, ev.wh, ev.ls);
  }

  lemma SettleTables(db: Db, ev: Event)
    requires ev.SettleEv? && ev.op != Hold
    ensures Apply(db, ev)
         == Db(db.warehouses, db.balances + TouchedRows(db.balances, ev.op, LinesOf(db.lines, ev.id)),
               db.headers[ev.id := Flipped(db.headers, ev.id, ev.op)], db.lines,
               db.movements + LedgerRows(ev.op, ev.id, LinesOf(db.lines, ev.id), ev.reason))
  {
    Collections.PlusOne(db.headers, ev.id, Flipped(db.headers, ev.id, ev.op));
    Collections.PlusEmpty(db.lines);
  }

  lemma SettleIsOpStep(db: Db, ev: Event)
    requires ev.SettleEv? && Legal(db, ev)
    ensures OpStep(db, Apply(db, ev), ev.op, ev.id, Flipped(db.headers, ev.id, ev.op),
                   LinesOf(db.lines, ev.id), ev.reason)
  {
    SettleTables(db, ev);
    SettleHeaderStep(db, ev);
  }

  lemma SettleHeaderStep(db: Db, ev: Event)
    requires ev.SettleEv? && Legal(db, ev)
    ensures HeaderStep(db.headers, db.lines, ev.op, ev.id, Flipped(db.headers, ev.id, ev.op),
                       LinesOf(db.lines, ev.id))
  {
  }

  lemma StockIsStockStep(db: Db, ev: Event)
    requires ev.StockEv? && Legal(db, ev)
    ensures StockStep(db, Apply(db, ev), ev.act, ev.cmd)
  {
    var k := Key(ev.cmd.sku, ev.cmd.wh);
    Collections.PlusEmpty(db.headers);
    Collections.PlusEmpty(db.lines);
    Collections.PlusOne(db.balances, k, StockShifted(ev.act, BalanceAt(db.balances, k), ev.cmd.qty));
    Collections.PlusOne(db.movements, ev.cmd.commandId, StockRow(ev.act, ev.cmd));
  }

  // The inductive step of every safety result: a committed event keeps the invariant.
  lemma EventKeepsInv(db: Db, ev: Event, db': Db)
    requires Inv(db) && Step(db, ev) == Some(db')
    ensures Inv(db')
  {
    match ev
    case ReserveEv(id, orderRef, hash, wh, ls) =>
      ReserveIsOpStep(db, ev);
      OpKeepsInv(db, db', Hold, id, Header(orderRef, hash, Reserved), ls, "");
    case SettleEv(id, op, reason) =>
      SettleIsOpStep(db, ev);
      OpKeepsInv(db, db', op, id, Flipped(db.headers, id, op), LinesOf(db.lines, id), reason);
    case StockEv(act, cmd) =>
      StockIsStockStep(db, ev);
      StockKeepsInv(db, db', act, cmd);
  }

  lemma {:induction false} RunKeepsInv(db: Db, evs: seq<Event>, db': Db)
    requires Inv(db) && Replay(db, evs) == Some(db')
    ensures Inv(db')
  {
    if evs != [] {
      var n := |evs| - 1;
      var mid := Replay(db, evs[..n]).value;
      RunKeepsInv(db, evs[..n], mid);
      EventKeepsInv(mid, evs[n], db');
    }
  }
}
