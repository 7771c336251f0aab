/** What holds between the tables in every reachable state, and its preservation by every event. */
module Invariants {
  import opened CommandIds
  import opened Tables
  import opened Posting
  import opened Sums

  // Table-wide totals -------------------------------------------------------

  // What one ledger row contributes to a replayed column.
  datatype Measure = OnHandMoved | ReservedMoved | RowCount | Supplied

  function Share(m: Measure, row: Movement): int {
    match m
    case OnHandMoved => row.onHandDelta
    case ReservedMoved => row.reservedDelta
    case RowCount => 1
    case Supplied => if row.kind == RECEIVE || row.kind == ADJUST then row.onHandDelta else 0
  }

  function ShareAt(movements: map<string, Movement>, k: Key, m: Measure, c: string): int {
    if c in movements && movements[c].key == k then Share(m, movements[c]) else 0
  }

  ghost function LedgerTotal(movements: map<string, Movement>, k: Key, m: Measure): int {
    Sum(movements.Keys, c => ShareAt(movements, k, m, c))
  }

  // The units reservation id has on k while it is in status st.
  function HeldBy(headers: map<string, Header>, lines: map<LineKey, Line>, k: Key, st: Status, id: string): int {
    if id in headers && headers[id].status == st && LineKey(id, k.sku) in lines && lines[LineKey(id, k.sku)].wh == k.wh
    then lines[LineKey(id, k.sku)].qty else 0
  }

  ghost function HeldTotal(headers: map<string, Header>, lines: map<LineKey, Line>, k: Key, st: Status): int {
    Sum(headers.Keys, id => HeldBy(headers, lines, k, st, id))
  }

  // The invariant -----------------------------------------------------------

  ghost predicate RowsOk(balances: map<Key, Balance>, warehouses: map<int, bool>) {
    forall k | k in balances :: balances[k].Ok() && k.wh in warehouses
  }

  ghost predicate HeadersOk(headers: map<string, Header>) {
    && (forall id | id in headers :: headers[id].status != Expired)
    && (forall a, b | a in headers && b in headers && headers[a].orderRef == headers[b].orderRef :: a == b)
  }

  ghost predicate LinesOk(balances: map<Key, Balance>, headers: map<string, Header>, lines: map<LineKey, Line>) {
    forall lk | lk in lines :: lk.rid in headers && lines[lk].qty > 0 && Key(lk.sku, lines[lk].wh) in balances
  }

  // The ledger holds the row of op for line lk (whatever free-text reason it carries).
  ghost predicate Posted(movements: map<string, Movement>, op: Op, lk: LineKey, l: Line) {
    var c := CommandId(op, lk.rid, lk.sku);
    c in movements && movements[c] == LedgerRow(op, lk.rid, lk.sku, l, movements[c].reason)
  }

  // The status of a reservation calls for a row of op on each of its lines.
  predicate Due(op: Op, st: Status) {
    op == Hold || st == StatusAfter(op)
  }

  ghost predicate LinesPosted(headers: map<string, Header>, lines: map<LineKey, Line>, movements: map<string, Movement>) {
    forall lk, op | lk in lines && lk.rid in headers && Due(op, headers[lk.rid].status) ::
      Posted(movements, op, lk, lines[lk])
  }

  // Row c is the posting of some line of the reservation it names, in a status that calls for it.
  ghost predicate Justifies(headers: map<string, Header>, lines: map<LineKey, Line>, movements: map<string, Movement>,
                            c: string, op: Op, lk: LineKey) {
    && lk in lines && lk.rid in headers
    && c == CommandId(op, lk.rid, lk.sku)
    && Posted(movements, op, lk, lines[lk])
    && Due(op, headers[lk.rid].status)
  }

  ghost predicate RowsJustified(headers: map<string, Header>, lines: map<LineKey, Line>, movements: map<string, Movement>) {
    forall c | c in movements && movements[c].origin.Workflow? ::
      exists op, lk :: Justifies(headers, lines, movements, c, op, lk)
  }

  // Balances are the replay of the ledger, and agree with the open holds and the sales.
  ghost predicate Accounts(db: Db, k: Key) {
    var b := BalanceAt(db.balances, k);
    && b.onHand == LedgerTotal(db.movements, k, OnHandMoved)
    && b.reserved == LedgerTotal(db.movements, k, ReservedMoved)
    && b.version == LedgerTotal(db.movements, k, RowCount)
    && b.reserved == HeldTotal(db.headers, db.lines, k, Reserved)
    && b.onHand == LedgerTotal(db.movements, k, Supplied) - HeldTotal(db.headers, db.lines, k, Committed)
  }

  ghost predicate Inv(db: Db) {
    && RowsOk(db.balances, db.warehouses)
    && HeadersOk(db.headers)
    && LinesOk(db.balances, db.headers, db.lines)
    && LinesPosted(db.headers, db.lines, db.movements)
    && RowsJustified(db.headers, db.lines, db.movements)
    && (forall k :: Accounts(db, k))
  }

  lemma InvInit(warehouses: map<int, bool>)
    ensures Inv(EmptyDb(warehouses))
  {
  }

  // How totals move ---------------------------------------------------------

  lemma LedgerInsert(old_: map<string, Movement>, new_: map<string, Movement>, k: Key, m: Measure)
    requires old_.Keys !! new_.Keys
    ensures LedgerTotal(old_ + new_, k, m) == LedgerTotal(old_, k, m) + LedgerTotal(new_, k, m)
  {
    var both := old_ + new_;
    var f := c => ShareAt(both, k, m, c);
    SumUnion(old_.Keys, new_.Keys, f);
    assert both.Keys == old_.Keys + new_.Keys;
    SumAgree(old_.Keys, f, c => ShareAt(old_, k, m, c));
    SumAgree(new_.Keys, f, c => ShareAt(new_, k, m, c));
  }

  predicate Hits(ls: map<string, Line>, k: Key) {
    k.sku in ls && ls[k.sku].wh == k.wh
  }

  lemma LedgerRowsTotal(op: Op, id: string, ls: map<string, Line>, reason: string, k: Key, m: Measure)
    ensures LedgerTotal(LedgerRows(op, id, ls, reason), k, m)
         == if Hits(ls, k) then Share(m, LedgerRow(op, id, k.sku, ls[k.sku], reason)) else 0
  {
    var rows := LedgerRows(op, id, ls, reason);
    var f := c => ShareAt(rows, k, m, c);
    forall c | c in rows && rows[c].key == k
      ensures Hits(ls, k) && c == CommandId(op, id, k.sku)
    {
      var s :| s in ls && c == CommandId(op, id, s);
      assert rows[c].key == Key(s, ls[s].wh);
    }
    if Hits(ls, k) {
      SumOnly(rows.Keys, f, CommandId(op, id, k.sku));
    } else {
      SumZero(rows.Keys, f);
    }
  }

  lemma OpLedger(movements: map<string, Movement>, op: Op, id: string, ls: map<string, Line>, reason: string, k: Key, m: Measure)
    requires CanRecord(movements, op, id, ls, reason)
    ensures LedgerTotal(movements + LedgerRows(op, id, ls, reason), k, m)
         == LedgerTotal(movements, k, m)
            + if Hits(ls, k) then Share(m, LedgerRow(op, id, k.sku, ls[k.sku], reason)) else 0
  {
    LedgerInsert(movements, LedgerRows(op, id, ls, reason), k, m);
    LedgerRowsTotal(op, id, ls, reason, k, m);
  }

  // Only reservation id's contribution changes.
  lemma HeldChange(headers: map<string, Header>, lines: map<LineKey, Line>,
                   headers': map<string, Header>, lines': map<LineKey, Line>, id: string, k: Key, st: Status)
    requires headers'.Keys == headers.Keys + {id}
    requires forall r | r in headers && r != id :: HeldBy(headers', lines', k, st, r) == HeldBy(headers, lines, k, st, r)
    ensures HeldTotal(headers', lines', k, st)
         == HeldTotal(headers, lines, k, st) - HeldBy(headers, lines, k, st, id) + HeldBy(headers', lines', k, st, id)
  {
    var f, g := r => HeldBy(headers, lines, k, st, r), r => HeldBy(headers', lines', k, st, r);
    if id in headers {
      assert headers'.Keys == headers.Keys;
      SumChange(headers.Keys, f, g, id);
    } else {
      SumRemove(headers'.Keys, g, id);
      assert headers'.Keys - {id} == headers.Keys;
      SumAgree(headers.Keys, f, g);
    }
  }
}
