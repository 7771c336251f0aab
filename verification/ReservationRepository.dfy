/** The write transactions of reservations.go: a working copy of the tables, committed or dropped. */
module ReservationWrites {
  import opened CommandIds
  import opened Tables
  import opened Posting
  import opened Preservation
  import opened Aggregation
  import opened Commands
  import Collections

  // The transaction's view once the lines ls have been written on top of the tables it started from.

  function BalancesWith(balances: map<Key, Balance>, op: Op, ls: map<string, Line>): map<Key, Balance> {
    balances + TouchedRows(balances, op, ls)
  }

  function LedgerWith(movements: map<string, Movement>, op: Op, id: string, ls: map<string, Line>, reason: string): map<string, Movement> {
    movements + LedgerRows(op, id, ls, reason)
  }

  function Written(tx: Db, op: Op, id: string, ls: map<string, Line>, reason: string): Db {
    Db(tx.warehouses, BalancesWith(tx.balances, op, ls), tx.headers, LinesAfter(tx.lines, op, id, ls),
       LedgerWith(tx.movements, op, id, ls, reason))
  }

  lemma NoTouchedRows(balances: map<Key, Balance>, op: Op)
    ensures TouchedRows(balances, op, map[]) == map[]
  {
  }

  lemma NoNewLines(id: string)
    ensures NewLines(id, map[]) == map[]
  {
  }

  lemma NoLedgerRows(op: Op, id: string, reason: string)
    ensures LedgerRows(op, id, map[], reason) == map[]
  {
    var none: map<string, Line> := map[];
    assert forall c | c in LedgerRows(op, id, none, reason) :: exists s :: s in none && c == CommandId(op, id, s);
  }

  lemma WithNothing(tx: Db, op: Op, id: string, reason: string)
    ensures Written(tx, op, id, map[], reason) == tx
  {
    NoTouchedRows(tx.balances, op);
    NoNewLines(id);
    NoLedgerRows(op, id, reason);
    Collections.PlusEmpty(tx.balances);
    Collections.PlusEmpty(tx.lines);
    Collections.PlusEmpty(tx.movements);
  }

  // The next line's balance row is still as it was, and moves if it exists.
  lemma BalancesStep(balances: map<Key, Balance>, op: Op, ls: map<string, Line>, sku: string, l: Line)
    requires sku !in ls
    ensures var t, t', k := BalancesWith(balances, op, ls), BalancesWith(balances, op, ls[sku := l]), Key(sku, l.wh);
            && (k in t <==> k in balances) && (k in balances ==> t[k] == balances[k])
            && t' == if k in t then t[k := Shifted(op, t[k], l.qty)] else t
  {
    var k := Key(sku, l.wh);
    assert k !in TouchedRows(balances, op, ls);
    if k in balances {
      TouchedRowsStep(balances, op, ls, sku, l);
      Collections.PlusUpdate(balances, TouchedRows(balances, op, ls), k, Shifted(op, balances[k], l.qty));
    } else {
      assert TouchedRows(balances, op, ls[sku := l]) == TouchedRows(balances, op, ls);
    }
  }

  lemma LinesStep(lines: map<LineKey, Line>, id: string, ls: map<string, Line>, sku: string, l: Line)
    requires sku !in ls
    ensures LineKey(id, sku) in LinesAfter(lines, Hold, id, ls) <==> LineKey(id, sku) in lines
    ensures LinesAfter(lines, Hold, id, ls[sku := l]) == LinesAfter(lines, Hold, id, ls)[LineKey(id, sku) := l]
  {
    NewLinesStep(id, ls, sku, l);
    Collections.PlusUpdate(lines, NewLines(id, ls), LineKey(id, sku), l);
  }

  lemma LedgerStep(movements: map<string, Movement>, op: Op, id: string, ls: map<string, Line>, reason: string, sku: string, l: Line)
    requires sku !in ls
    ensures CommandId(op, id, sku) in LedgerWith(movements, op, id, ls, reason) <==> CommandId(op, id, sku) in movements
    ensures LedgerWith(movements, op, id, ls[sku := l], reason)
         == LedgerWith(movements, op, id, ls, reason)[CommandId(op, id, sku) := LedgerRow(op, id, sku, l, reason)]
  {
    LedgerRowsStep(op, id, ls, reason, sku, l);
    Collections.PlusUpdate(movements, LedgerRows(op, id, ls, reason), CommandId(op, id, sku), LedgerRow(op, id, sku, l, reason));
  }

  // One line: the balance UPDATE (plus the line INSERT of a hold) and the movement INSERT, on the
  // transaction's view. A hold ignores how many rows its UPDATE hit; a settlement wants one.

  predicate CanPost(tx: Db, op: Op, id: string, a: Allocation, reason: string) {
    var k, c := Key(a.sku, a.wh), CommandId(op, id, a.sku);
    && (k !in tx.balances ==> op == Hold)
    && (k in tx.balances ==> Shifted(op, tx.balances[k], a.qty).Ok())
    && (op == Hold ==> a.qty > 0 && LineKey(id, a.sku) !in tx.lines && a.wh in tx.warehouses)
    && c !in tx.movements && MovementFits(c, LedgerRow(op, id, a.sku, Line(a.wh, a.qty), reason))
  }

  function AfterPost(tx: Db, op: Op, id: string, a: Allocation, reason: string): Db {
    var k, l := Key(a.sku, a.wh), Line(a.wh, a.qty);
    Db(tx.warehouses,
       if k in tx.balances then tx.balances[k := Shifted(op, tx.balances[k], a.qty)] else tx.balances,
       tx.headers,
       if op == Hold then tx.lines[LineKey(id, a.sku) := l] else tx.lines,
       tx.movements[CommandId(op, id, a.sku) := LedgerRow(op, id, a.sku, l, reason)])
  }

  function PostLine(tx: Db, op: Op, id: string, a: Allocation, reason: string): Option<Db> {
    if CanPost(tx, op, id, a, reason) then Some(AfterPost(tx, op, id, a, reason)) else None
  }

  // The lines one after the other; None as soon as a statement fails.
  function PostAll(tx: Db, op: Op, id: string, ls: seq<Allocation>, reason: string): Option<Db>
    decreases |ls|
  {
    if ls == [] then Some(tx)
    else
      match PostAll(tx, op, id, ls[..|ls| - 1], reason)
      case None => None
      case Some(cur) => PostLine(cur, op, id, ls[|ls| - 1], reason)
  }

  lemma PostStep(tx: Db, op: Op, id: string, ls: seq<Allocation>, reason: string, n: nat, cur: Db)
    requires n < |ls| && PostAll(tx, op, id, ls[..n], reason) == Some(cur)
    ensures PostAll(tx, op, id, ls[..n + 1], reason) == PostLine(cur, op, id, ls[n], reason)
  {
    Collections.Shorter(ls, n);
  }

  lemma {:induction false} PostStops(tx: Db, op: Op, id: string, ls: seq<Allocation>, reason: string, n: nat)
    requires n <= |ls| && PostAll(tx, op, id, ls[..n], reason) == None
    ensures PostAll(tx, op, id, ls, reason) == None
    decreases |ls|
  {
    if n == |ls| {
      assert ls[..n] == ls;
    } else {
      assert ls[..|ls| - 1][..n] == ls[..n];
      PostStops(tx, op, id, ls[..|ls| - 1], reason, n);
    }
  }

  // applyReserve: three statements per allocation.
  method ApplyReserve(tx: Db, id: string, allocations: seq<Allocation>) returns (r: Option<Db>)
    ensures r == PostAll(tx, Hold, id, allocations, "")
  {
    var cur := tx;
    for n := 0 to |allocations|
      invariant PostAll(tx, Hold, id, allocations[..n], "") == Some(cur)
    {
      var a := allocations[n];
      PostStep(tx, Hold, id, allocations, "", n, cur);
      if PostLine(cur, Hold, id, a, "") == None { PostStops(tx, Hold, id, allocations, "", n + 1); }
      var k := Key(a.sku, a.wh);
      var next := cur;
      if k in next.balances {
        var row := Shifted(Hold, next.balances[k], a.qty);
        if !row.Ok() { return None; }
        next := next.(balances := next.balances[k := row]);
      }
      if a.qty <= 0 || LineKey(id, a.sku) in next.lines || a.wh !in next.warehouses { return None; }
      next := next.(lines := next.lines[LineKey(id, a.sku) := Line(a.wh, a.qty)]);
      var c, m := CommandId(Hold, id, a.sku), LedgerRow(Hold, id, a.sku, Line(a.wh, a.qty), "");
      if c in next.movements || !MovementFits(c, m) { return None; }
      next := next.(movements := next.movements[c := m]);
      cur := next;
    }
    Collections.Whole(allocations);
    return Some(cur);
  }

  // The applyLine callbacks of Release and Commit, in (warehouse_id, sku_id) order; any other row
  // count than one aborts.
  method ApplyLines(tx: Db, op: Op, id: string, ls: seq<Allocation>, reason: string) returns (r: Option<Db>)
    requires op != Hold
    ensures r == PostAll(tx, op, id, ls, reason)
  {
    var cur := tx;
    for n := 0 to |ls|
      invariant PostAll(tx, op, id, ls[..n], reason) == Some(cur)
    {
      var a := ls[n];
      PostStep(tx, op, id, ls, reason, n, cur);
      if PostLine(cur, op, id, a, reason) == None { PostStops(tx, op, id, ls, reason, n + 1); }
      var k := Key(a.sku, a.wh);
      if k !in cur.balances { return None; }
      var row := Shifted(op, cur.balances[k], a.qty);
      if !row.Ok() { return None; }
      var next := cur.(balances := cur.balances[k := row]);
      var c, m := CommandId(op, id, a.sku), LedgerRow(op, id, a.sku, Line(a.wh, a.qty), reason);
      if c in next.movements || !MovementFits(c, m) { return None; }
      next := next.(movements := next.movements[c := m]);
      cur := next;
    }
    Collections.Whole(ls);
    return Some(cur);
  }

  // What the whole loop writes, in closed form, and when it gets through. --------------------

  // Other lines' writes leave line a's rows alone.
  lemma PostUntouched(tx: Db, op: Op, id: string, ls: map<string, Line>, a: Allocation, reason: string)
    requires a.sku !in ls
    ensures CanPost(Written(tx, op, id, ls, reason), op, id, a, reason) <==> CanPost(tx, op, id, a, reason)
  {
    BalancesStep(tx.balances, op, ls, a.sku, Line(a.wh, a.qty));
    LedgerStep(tx.movements, op, id, ls, reason, a.sku, Line(a.wh, a.qty));
    if op == Hold { LinesStep(tx.lines, id, ls, a.sku, Line(a.wh, a.qty)); }
  }

  // On top of other lines' writes, line a's statements add its own.
  lemma PostOnTop(tx: Db, op: Op, id: string, ls: map<string, Line>, a: Allocation, reason: string)
    requires a.sku !in ls
    ensures AfterPost(Written(tx, op, id, ls, reason), op, id, a, reason)
         == Written(tx, op, id, ls[a.sku := Line(a.wh, a.qty)], reason)
  {
    BalancesStep(tx.balances, op, ls, a.sku, Line(a.wh, a.qty));
    LedgerStep(tx.movements, op, id, ls, reason, a.sku, Line(a.wh, a.qty));
    if op == Hold { LinesStep(tx.lines, id, ls, a.sku, Line(a.wh, a.qty)); }
  }

  predicate AllPost(tx: Db, op: Op, id: string, ls: seq<Allocation>, reason: string)
    decreases |ls|
  {
    ls == [] || (AllPost(tx, op, id, ls[..|ls| - 1], reason) && CanPost(tx, op, id, ls[|ls| - 1], reason))
  }

  lemma {:induction false} PostAllIs(tx: Db, op: Op, id: string, ls: seq<Allocation>, reason: string)
    requires DistinctSkus(ls)
    ensures PostAll(tx, op, id, ls, reason)
         == if AllPost(tx, op, id, ls, reason) then Some(Written(tx, op, id, LinesMap(ls), reason)) else None
    decreases |ls|
  {
    if ls == [] {
      WithNothing(tx, op, id, reason);
    } else {
      var n := |ls| - 1;
      assert ls[..n + 1] == ls;
      PostAllIs(tx, op, id, ls[..n], reason);
      LinesMapStep(ls, n);
      PostUntouched(tx, op, id, LinesMap(ls[..n]), ls[n], reason);
      PostOnTop(tx, op, id, LinesMap(ls[..n]), ls[n], reason);
    }
  }

  lemma {:induction false} AllPostIff(tx: Db, op: Op, id: string, ls: seq<Allocation>, reason: string)
    ensures AllPost(tx, op, id, ls, reason) <==> forall i | 0 <= i < |ls| :: CanPost(tx, op, id, ls[i], reason)
    decreases |ls|
  {
    if ls != [] {
      var n := |ls| - 1;
      AllPostIff(tx, op, id, ls[..n], reason);
      assert forall i | 0 <= i < n :: ls[..n][i] == ls[i];
    }
  }

  // When the per-line statements succeed, seen from the event.

  lemma AllocationsDistinct(items: seq<Item>, wh: int)
    requires Distinct(items)
    ensures DistinctSkus(AllocateFrom(items, wh))
  {
    assert forall i, j | 0 <= i < j < |items| :: items[i].sku != items[j].sku;
  }

  lemma HoldsMove(tx: Db, id: string, items: seq<Item>, wh: int)
    requires Distinct(items) && Fulfills(tx.balances, wh, items)
    requires forall i | 0 <= i < |items| :: CanPost(tx, Hold, id, AllocateFrom(items, wh)[i], "")
    ensures var ls := LinesMap(AllocateFrom(items, wh));
            && CanMove(tx.balances, Hold, ls) && CanRecord(tx.movements, Hold, id, ls, "") && Covers(tx.balances, ls)
            && forall s | s in ls :: ls[s].wh == wh && ls[s].qty > 0 && LineKey(id, s) !in tx.lines
  {
    var a := AllocateFrom(items, wh);
    AllocationsDistinct(items, wh);
    LinesMapMembers(a);
    forall i | 0 <= i < |items|
      ensures a[i].qty > 0 && AtpAt(tx.balances, Key(a[i].sku, wh)) >= a[i].qty && Key(a[i].sku, wh) in tx.balances
    {
      assert CanPost(tx, Hold, id, a[i], "");
    }
  }

  lemma MovesHold(tx: Db, id: string, items: seq<Item>, wh: int)
    requires Distinct(items) && Active(tx, wh)
    requires var ls := LinesMap(AllocateFrom(items, wh));
             && CanMove(tx.balances, Hold, ls) && CanRecord(tx.movements, Hold, id, ls, "")
             && forall s | s in ls :: ls[s].qty > 0 && LineKey(id, s) !in tx.lines
    ensures forall i | 0 <= i < |items| :: CanPost(tx, Hold, id, AllocateFrom(items, wh)[i], "")
  {
    var a := AllocateFrom(items, wh);
    AllocationsDistinct(items, wh);
    LinesMapMembers(a);
    forall i | 0 <= i < |items| ensures CanPost(tx, Hold, id, a[i], "") {
      assert a[i].sku in LinesMap(a);
    }
  }

  // The line loop gets through exactly when the whole reservation may commit.
  lemma ReserveLegalIff(db: Db, id: string, orderRef: string, hash: string, items: seq<Item>, wh: int)
    requires Distinct(items) && Fulfills(db.balances, wh, items) && Active(db, wh)
    requires HeaderFits(id, orderRef) && id !in db.headers && !RefTaken(db.headers, orderRef)
    ensures Step(db, ReserveEv(id, orderRef, hash, wh, LinesMap(AllocateFrom(items, wh)))).Some?
            <==> AllPost(db, Hold, id, AllocateFrom(items, wh), "")
  {
    AllPostIff(db, Hold, id, AllocateFrom(items, wh), "");
    if forall i | 0 <= i < |items| :: CanPost(db, Hold, id, AllocateFrom(items, wh)[i], "") {
      HoldsMove(db, id, items, wh);
    }
    if Legal(db, ReserveEv(id, orderRef, hash, wh, LinesMap(AllocateFrom(items, wh)))) {
      MovesHold(db, id, items, wh);
    }
  }

  lemma LoadedIndex(lines: map<LineKey, Line>, id: string, s: string)
    ensures s in LinesOf(lines, id)
            <==> exists i :: 0 <= i < |LoadLines(lines, id)| && LoadLines(lines, id)[i].sku == s
    ensures forall i | 0 <= i < |LoadLines(lines, id)| ::
              LoadLines(lines, id)[i].sku in LinesOf(lines, id)
              && LinesOf(lines, id)[LoadLines(lines, id)[i].sku] == Line(LoadLines(lines, id)[i].wh, LoadLines(lines, id)[i].qty)
  {
    LoadedDistinct(lines, id);
    LoadedLines(lines, id);
    LinesMapMembers(LoadLines(lines, id));
  }

  lemma LinesSettle(db: Db, op: Op, id: string, reason: string)
    requires op != Hold
    ensures (CanMove(db.balances, op, LinesOf(db.lines, id)) && CanRecord(db.movements, op, id, LinesOf(db.lines, id), reason))
            <==> forall i | 0 <= i < |LoadLines(db.lines, id)| :: CanPost(db, op, id, LoadLines(db.lines, id)[i], reason)
  {
    var r, ls := LoadLines(db.lines, id), LinesOf(db.lines, id);
    LoadedIndex(db.lines, id, "");
    if CanMove(db.balances, op, ls) && CanRecord(db.movements, op, id, ls, reason) {
      forall i | 0 <= i < |r| ensures CanPost(db, op, id, r[i], reason) {
        assert r[i].sku in ls;
      }
    }
    if forall i | 0 <= i < |r| :: CanPost(db, op, id, r[i], reason) {
      forall s | s in ls
        ensures Key(s, ls[s].wh) in db.balances && Shifted(op, db.balances[Key(s, ls[s].wh)], ls[s].qty).Ok()
        ensures CommandId(op, id, s) !in db.movements
        ensures MovementFits(CommandId(op, id, s), LedgerRow(op, id, s, ls[s], reason))
      {
        LoadedIndex(db.lines, id, s);
        var i :| 0 <= i < |r| && r[i].sku == s;
        assert CanPost(db, op, id, r[i], reason);
      }
    }
  }

  lemma SettleLegalIff(db: Db, op: Op, id: string, reason: string)
    requires op != Hold && id in db.headers && db.headers[id].status == Reserved
    ensures Step(db, SettleEv(id, op, reason)).Some? <==> AllPost(db, op, id, LoadLines(db.lines, id), reason)
  {
    AllPostIff(db, op, id, LoadLines(db.lines, id), reason);
    LinesSettle(db, op, id, reason);
  }
}

/** The repository object: each command is one transaction on the pool. */
module ReservationStore {
  import opened CommandIds
  import opened Tables
  import opened Posting
  import opened Aggregation
  import opened Commands
  import opened Database
  import opened Reservations
  import opened ReservationWrites
  import Canonical
  import Preservation

  datatype Claim = Claimed(tx: Db) | IdTaken | OrderRefTaken | ClaimError

  // The claimed header is invisible to everything the transaction reads or writes afterwards.
  lemma {:induction false} ClaimKeepsPosts(db: Db, headers: map<string, Header>, op: Op, id: string, ls: seq<Allocation>, reason: string)
    ensures AllPost(db.(headers := headers), op, id, ls, reason) <==> AllPost(db, op, id, ls, reason)
    decreases |ls|
  {
    if ls != [] { ClaimKeepsPosts(db, headers, op, id, ls[..|ls| - 1], reason); }
  }

  lemma {:induction false} ClaimKeepsUntracked(db: Db, headers: map<string, Header>, items: seq<Item>)
    ensures Untracked(db.(headers := headers), items) == Untracked(db, items)
    decreases |items|
  {
    if items != [] {
      ClaimKeepsUntracked(db, headers, items[..|items| - 1]);
      assert Tracked(db.(headers := headers), items[|items| - 1].sku) <==> Tracked(db, items[|items| - 1].sku);
    }
  }

  // The rows a whole Reserve leaves behind are those of its event.
  lemma ReserveCommits(db: Db, id: string, orderRef: string, hash: string, wh: int, a: seq<Allocation>)
    ensures Written(db.(headers := db.headers[id := Header(orderRef, hash, Reserved)]), Hold, id, LinesMap(a), "")
         == Apply(db, ReserveEv(id, orderRef, hash, wh, LinesMap(a)))
  {
    Preservation.ReserveTables(db, id, orderRef, hash, wh, LinesMap(a));
  }

  lemma SettleCommits(db: Db, op: Op, id: string, reason: string)
    requires op != Hold && id in db.headers
    ensures Written(db, op, id, LinesMap(LoadLines(db.lines, id)), reason)
            .(headers := db.headers[id := db.headers[id].(status := StatusAfter(op))])
         == Apply(db, SettleEv(id, op, reason))
  {
    LoadedLines(db.lines, id);
    Preservation.SettleTables(db, SettleEv(id, op, reason));
  }

  class ReservationRepository {
    const pool: Pool

    constructor (pool: Pool)
      ensures this.pool == pool
    {
      this.pool := pool;
    }

    // claimReservation: INSERT ... ON CONFLICT (id) DO NOTHING. With the primary key absorbed, only
    // the external_reference index can still raise.
    static method ClaimReservation(tx: Db, id: string, orderRef: string, hash: string) returns (claim: Claim)
      ensures claim == if !HeaderFits(id, orderRef) then ClaimError
                       else if id in tx.headers then IdTaken
                       else if RefTaken(tx.headers, orderRef) then OrderRefTaken
                       else Claimed(tx.(headers := tx.headers[id := Header(orderRef, hash, Reserved)]))
    {
      if !HeaderFits(id, orderRef) { return ClaimError; }
      if id in tx.headers { return IdTaken; }
      var refs := set h | h in tx.headers.Values :: h.orderRef;
      assert orderRef in refs <==> RefTaken(tx.headers, orderRef);
      if orderRef in refs { return OrderRefTaken; }
      return Claimed(tx.(headers := tx.headers[id := Header(orderRef, hash, Reserved)]));
    }

    // replayReservation; missing stands for pgx.ErrNoRows.
    static method ReplayReservation(q: Db, id: string, orderRef: string, hash: string) returns (missing: bool, reply: Reply)
      ensures missing <==> id !in q.headers
      ensures reply == ReplayReply(q, id, orderRef, hash)
    {
      if id !in q.headers { return true, Failed(StorageError); }
      var stored := q.headers[id];
      if stored.hash != hash || stored.orderRef != orderRef { return false, Failed(IdempotencyConflict); }
      return false, Held(stored.status, LoadLines(q.lines, id), true);
    }

    // Reserve, on the aggregated basket its service passes in.
    method Reserve(id: string, orderRef: string, items: seq<Item>, region: string) returns (reply: Reply)
      requires Distinct(items)
      modifies pool
      ensures pool.db == After(old(pool.db), DecideReserve(old(pool.db), id, orderRef, items, region).0)
      ensures reply == DecideReserve(old(pool.db), id, orderRef, items, region).1
    {
      var hash := Canonical.CanonicalText(items, region);
      var db := pool.db;
      var claim := ClaimReservation(db, id, orderRef, hash);
      match claim
      case ClaimError =>
        return Failed(StorageError);
      case OrderRefTaken =>
        var missing, replay := ReplayReservation(pool.db, id, orderRef, hash);
        return if missing then Failed(IdempotencyConflict) else replay;
      case IdTaken =>
        var missing, replay := ReplayReservation(db, id, orderRef, hash);
        return replay;
      case Claimed(tx) =>
        var picked := AllocateReservation(tx, items);
        ClaimKeepsUntracked(db, tx.headers, items);
        if picked.Refused? { return Failed(picked.why); }
        var applied := ApplyReserve(tx, id, picked.allocations);
        AllocationsDistinct(items, picked.wh);
        PostAllIs(tx, Hold, id, picked.allocations, "");
        ClaimKeepsPosts(db, tx.headers, Hold, id, picked.allocations, "");
        ReserveLegalIff(db, id, orderRef, hash, items, picked.wh);
        if applied.None? { return Failed(StorageError); }
        ReserveCommits(db, id, orderRef, hash, picked.wh, picked.allocations);
        pool.db := applied.value;
        return Held(Reserved, picked.allocations, false);
    }

    // transition: lock the header, let decide short-circuit, move every line, flip the status.
    method Transition(id: string, op: Op, reason: string) returns (reply: Reply)
      requires op != Hold
      modifies pool
      ensures pool.db == After(old(pool.db), DecideSettle(old(pool.db), id, op, reason).0)
      ensures reply == DecideSettle(old(pool.db), id, op, reason).1
    {
      var tx := pool.db;
      var status := if id in tx.headers then Some(tx.headers[id].status) else None;
      var done := DecideStatus(op, status);
      if done.Some? { return done.value; }
      var lines := LoadLines(tx.lines, id);
      var applied := ApplyLines(tx, op, id, lines, reason);
      LoadedDistinct(tx.lines, id);
      PostAllIs(tx, op, id, lines, reason);
      SettleLegalIff(tx, op, id, reason);
      if applied.None? { return Failed(StorageError); }
      SettleCommits(tx, op, id, reason);
      var cur := applied.value;
      pool.db := cur.(headers := cur.headers[id := cur.headers[id].(status := StatusAfter(op))]);
      return Settled(StatusAfter(op));
    }

    method Release(id: string, reason: string) returns (reply: Reply)
      modifies pool
      ensures pool.db == Exec(old(pool.db), Commands.Release(id, reason))
      ensures reply == Answer(old(pool.db), Commands.Release(id, reason))
    {
      reply := Transition(id, Unhold, reason);
    }

    method Commit(id: string) returns (reply: Reply)
      modifies pool
      ensures pool.db == Exec(old(pool.db), Commands.Commit(id))
      ensures reply == Answer(old(pool.db), Commands.Commit(id))
    {
      reply := Transition(id, Sale, "");
    }
  }
}
