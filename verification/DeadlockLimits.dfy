/**
 * When exactly a hold or settlement and a stock command can deadlock: the stock command's id is one of
 * the other's ledger ids, and its balance row is one the other locks first.
 */
module DeadlockLimits {
  import opened Validate
  import opened CommandIds
  import opened Tables
  import opened Posting
  import opened Aggregation
  import opened Invariants
  import opened Redeem
  import opened Commands
  import opened Machine
  import opened Interleaving
  import opened Concurrency
  import opened Alone
  import opened Deadlock
  import opened Steering
  import Canonical
  import Preservation
  import RedeliveryLimits

  // What a caller can check beforehand ------------------------------------------------------------------

  // The stock command carries the ledger id of line n and moves the row of line i, which is locked by
  // the time line n is recorded: a hold has all its rows by then, a settlement those up to line n.
  predicate Crossed(work: Work, ls: seq<Allocation>, n: nat, i: nat, cmd: StockCommand)
    requires n < |ls| && i < |ls|
  {
    && cmd.commandId == CommandId(OpOf(work), IdOf(work), ls[n].sku)
    && cmd.sku == ls[i].sku && cmd.wh == ls[i].wh
    && (work.Booking? || i <= n)
  }

  ghost predicate CrossesAt(db: Db, work: Work, ls: seq<Allocation>, n: nat, i: nat, cmd: StockCommand) {
    n < |ls| && i < |ls| && Crossed(work, ls, n, i, cmd) && IdsFree(db.movements, work, ls, 0, n + 1)
  }

  // The ledger takes the stock command's row.
  predicate Claimable(act: StockAction, cmd: StockCommand) {
    ValidCommand(act, cmd) && MovementFits(cmd.commandId, StockRow(act, cmd))
  }

  // The hold or settlement gets to its lines, and the stock command crosses it.
  ghost predicate Crossing(db: Db, work: Work, act: StockAction, cmd: StockCommand) {
    && Claimable(act, cmd)
    && exists wh, ls :: Starts(db, work, wh, ls) && exists n, i :: CrossesAt(db, work, ls, n, i, cmd)
  }

  function Duet(t: nat, work: Work, u: nat, act: StockAction, cmd: StockCommand): map<nat, Work> {
    map[t := work, u := Stocking(act, cmd)]
  }

  // Crossed, they can deadlock ----------------------------------------------------------------------------

  // The row of line i is locked when line n is to be recorded.
  lemma RowLocked(s: Sys, t: nat, i: nat)
    requires SysInv(s) && Live(s, t) && s.txs[t].pc.Post? && s.txs[t].pc.stage == Record
    requires i < |s.txs[t].pc.ls| && (s.txs[t].work.Booking? || i <= s.txs[t].pc.n)
    ensures var a := s.txs[t].pc.ls[i]; var k := Key(a.sku, a.wh);
            k in s.db.balances && BalanceRow(k) in s.locks && s.locks[BalanceRow(k)] == t
  {
    var tx, held := s.txs[t], LocksOf(s.locks, t);
    assert PostingInv(s.db, held, tx.work, tx.w, tx.pc.wh, tx.pc.ls, tx.pc.n, Record);
    if tx.work.Booking? {
      assert Covered(s.db.balances, held, tx.pc.wh, tx.work.items[i]);
    } else {
      assert MovedRow(s.db.balances, held, tx.work.op, tx.pc.ls[i]);
    }
  }

  lemma NotBefore(op: Op, id: string, ls: seq<Allocation>, n: nat)
    requires DistinctSkus(ls) && n < |ls|
    ensures !Own(CommandId(op, id, ls[n].sku), op, id, ls, n)
  {
    SameReservationInjective(op, id);
  }

  lemma PostsDistinct(db: Db, held: set<Res>, tx: Tx)
    requires TxInv(db, held, tx) && tx.pc.Post?
    ensures DistinctSkus(tx.pc.ls)
  {
    assert PostingInv(db, held, tx.work, tx.w, tx.pc.wh, tx.pc.ls, tx.pc.n, tx.pc.stage);
    PlanDistinct(db, held, tx.work, tx.pc.wh, tx.pc.ls);
  }

  lemma MayNotHoldYet(tx: Tx)
    requires !tx.work.Stocking? && tx.pc.Post? && tx.pc.n < |tx.pc.ls| && DistinctSkus(tx.pc.ls)
    ensures !MayHold(tx, CommandKey(CommandId(OpOf(tx.work), IdOf(tx.work), tx.pc.ls[tx.pc.n].sku)))
  {
    NotBefore(OpOf(tx.work), tx.work.id, tx.pc.ls, tx.pc.n);
  }

  // The ledger id of the line to be recorded is still free.
  lemma IdUntaken(s: Sys, t: nat)
    requires Plain(s) && Live(s, t) && s.txs[t].pc.Post? && s.txs[t].pc.n < |s.txs[t].pc.ls|
    requires forall r | r in s.locks :: s.locks[r] == t
    ensures CommandKey(CommandId(OpOf(s.txs[t].work), IdOf(s.txs[t].work), s.txs[t].pc.ls[s.txs[t].pc.n].sku)) !in s.locks
  {
    PostsDistinct(s.db, LocksOf(s.locks, t), s.txs[t]);
    MayNotHoldYet(s.txs[t]);
  }

  // An id that no admin row carries is free, where no ledger row of this line exists yet.
  lemma IdNew(s: Sys, t: nat)
    requires Plain(s) && Live(s, t) && s.txs[t].pc.Post? && s.txs[t].pc.n < |s.txs[t].pc.ls|
    requires var tx := s.txs[t]; !AdminRow(s.db.movements, CommandId(OpOf(tx.work), IdOf(tx.work), tx.pc.ls[tx.pc.n].sku))
    ensures var tx := s.txs[t]; CommandId(OpOf(tx.work), IdOf(tx.work), tx.pc.ls[tx.pc.n].sku) !in s.db.movements
  {
    var tx, held := s.txs[t], LocksOf(s.locks, t);
    assert PostingInv(s.db, held, tx.work, tx.w, tx.pc.wh, tx.pc.ls, tx.pc.n, tx.pc.stage);
    RowAccepted(s.db, held, tx.work, tx.pc.wh, tx.pc.ls, tx.pc.n, tx.w.headers);
  }

  // Stock command u, begun alone, claims its id.
  function Claimed(s: Sys, u: nat, act: StockAction, cmd: StockCommand): Sys {
    Act(Act(s, Begin(u, Stocking(act, cmd))), Run(u))
  }

  lemma StockClaims(s: Sys, u: nat, act: StockAction, cmd: StockCommand)
    requires Claimable(act, cmd) && cmd.commandId !in s.db.movements && cmd.wh in s.db.warehouses
    requires u !in s.txs && CommandKey(cmd.commandId) !in s.locks
    ensures var s' := Claimed(s, u, act, cmd);
            && s'.db == s.db && s'.locks == s.locks[CommandKey(cmd.commandId) := u]
            && Live(s', u) && s'.txs[u].work == Stocking(act, cmd) && s'.txs[u].pc == Move
            && forall v | v != u :: (v in s'.txs <==> v in s.txs) && (v in s.txs ==> s'.txs[v] == s.txs[v])
  {
    var s1 := Act(s, Begin(u, Stocking(act, cmd)));
    assert s1.txs[u] == Tx(Stocking(act, cmd), ClaimCommand, NO_WRITES);
  }

  lemma ClaimedPlain(s: Sys, u: nat, act: StockAction, cmd: StockCommand)
    requires Plain(s)
    ensures Plain(Claimed(s, u, act, cmd))
  {
    ActPlain(s, Begin(u, Stocking(act, cmd)));
    ActPlain(Act(s, Begin(u, Stocking(act, cmd))), Run(u));
  }

  lemma KnownWarehouse(db: Db, k: Key)
    requires Inv(db) && k in db.balances
    ensures k.wh in db.warehouses
  {
  }

  // Stopped before recording line n, with a stock command crossing it.
  ghost predicate Halted(s: Sys, t: nat, n: nat, i: nat, act: StockAction, cmd: StockCommand) {
    && Live(s, t) && s.txs[t].pc.Post? && s.txs[t].pc.stage == Record && s.txs[t].pc.n == n && i < |s.txs[t].pc.ls|
    && n < |s.txs[t].pc.ls| && Crossed(s.txs[t].work, s.txs[t].pc.ls, n, i, cmd) && Claimable(act, cmd)
    && forall r | r in s.locks :: s.locks[r] == t
  }

  lemma HaltedEntangles(s: Sys, t: nat, u: nat, n: nat, i: nat, act: StockAction, cmd: StockCommand)
    requires Halted(s, t, n, i, act, cmd) && t != u && u !in s.txs
    requires cmd.commandId !in s.db.movements && CommandKey(cmd.commandId) !in s.locks
    requires var k := Key(cmd.sku, cmd.wh);
             k in s.db.balances && k.wh in s.db.warehouses && BalanceRow(k) in s.locks && s.locks[BalanceRow(k)] == t
    ensures Entangled(Claimed(s, u, act, cmd), t, u, t)
  {
    StockClaims(s, u, act, cmd);
  }

  lemma HaltedDeadlocks(s: Sys, t: nat, u: nat, n: nat, i: nat, act: StockAction, cmd: StockCommand)
    requires Plain(s) && Halted(s, t, n, i, act, cmd) && t != u && u !in s.txs
    requires !AdminRow(s.db.movements, cmd.commandId)
    ensures Stuck(Claimed(s, u, act, cmd), t, u)
  {
    RowLocked(s, t, i);
    IdUntaken(s, t);
    IdNew(s, t);
    KnownWarehouse(s.db, Key(cmd.sku, cmd.wh));
    HaltedEntangles(s, t, u, n, i, act, cmd);
    ClaimedPlain(s, u, act, cmd);
    EntangledIsStuck(Claimed(s, u, act, cmd), t, u);
  }

  lemma PlacedHalts(s: Sys, s1: Sys, t: nat, work: Work, wh: int, ls: seq<Allocation>, n: nat, i: nat, act: StockAction, cmd: StockCommand)
    requires s.locks == map[] && t !in s.txs && Admitted(work) && Claimable(act, cmd) && CrossesAt(s.db, work, ls, n, i, cmd)
    requires Placed(s, s1, t, work, Post(wh, ls, n, Record))
    ensures Halted(s1, t, n, i, act, cmd) && !AdminRow(s1.db.movements, cmd.commandId)
  {
    BeganAlone(s, s1, t, work);
  }

  lemma ClaimedLeads(s: Sys, u: nat, act: StockAction, cmd: StockCommand, cast: map<nat, Work>)
    requires u in cast && cast[u] == Stocking(act, cmd)
    ensures Leads(s, Claimed(s, u, act, cmd), cast)
  {
    var s1 := Act(s, Begin(u, Stocking(act, cmd)));
    ActLeads(s, Begin(u, Stocking(act, cmd)), cast);
    ActLeads(s1, Run(u), cast);
    LeadsThen(s, s1, Act(s1, Run(u)), cast, cast, cast);
  }

  lemma DuetLeads(s: Sys, s1: Sys, t: nat, work: Work, u: nat, act: StockAction, cmd: StockCommand)
    requires t != u && Began(s, s1, t, work)
    ensures Leads(s, Claimed(s1, u, act, cmd), Duet(t, work, u, act, cmd))
  {
    BeganLeads(s, s1, t, work);
    ClaimedLeads(s1, u, act, cmd, Duet(t, work, u, act, cmd));
    LeadsThen(s, s1, Claimed(s1, u, act, cmd), map[t := work], Duet(t, work, u, act, cmd), Duet(t, work, u, act, cmd));
  }

  lemma CrossedDeadlocks(s: Sys, t: nat, u: nat, work: Work, act: StockAction, cmd: StockCommand,
                         wh: int, ls: seq<Allocation>, n: nat, i: nat)
    requires Plain(s) && s.locks == map[] && t !in s.txs && u !in s.txs && t != u && Admitted(work) && Edge(work)
    requires Claimable(act, cmd) && Starts(s.db, work, wh, ls) && CrossesAt(s.db, work, ls, n, i, cmd)
    ensures exists s' :: Leads(s, s', Duet(t, work, u, act, cmd)) && Stuck(s', t, u)
  {
    ReachesRecord(s, t, work, wh, ls, n);
    var s1 :| Placed(s, s1, t, work, Post(wh, ls, n, Record));
    PlacedHalts(s, s1, t, work, wh, ls, n, i, act, cmd);
    BeganAlone(s, s1, t, work);
    HaltedDeadlocks(s1, t, u, n, i, act, cmd);
    DuetLeads(s, s1, t, work, u, act, cmd);
  }

  // Deadlocked, they cross -----------------------------------------------------------------------------------

  // A booking past its scan of these tables is on its way with the warehouse they choose.
  ghost predicate Aimed(db: Db, tx: Tx) {
    tx.work.Booking? && Target(tx.pc).Some? ==>
      Target(tx.pc) == FirstFulfilling(db.balances, ActiveIds(db.warehouses), tx.work.items)
  }

  lemma StaysAimed(db: Db, locks: map<Res, nat>, t: nat, tx: Tx)
    requires Fits(tx) && !tx.pc.Done? && !tx.pc.Ready? && Aimed(db, tx)
    ensures Aimed(db, NextTx(Advance(db, locks, t, tx), tx))
  {
    if tx.work.Booking? { KeepsTarget(db, locks, t, tx); }
  }

  lemma RunAims(db: Db, s: Sys, t: nat)
    requires SysInv(s) && s.db == db && Live(s, t) && !s.txs[t].pc.Ready? && Aimed(db, s.txs[t])
    ensures Act(s, Run(t)).db == db && t in Act(s, Run(t)).txs && Aimed(db, Act(s, Run(t)).txs[t])
  {
    RunMoves(s, t);
    RunKeeps(s, t);
    StaysAimed(s.db, s.locks, t, s.txs[t]);
  }

  predicate Ended(s: Sys, t: nat) {
    t in s.txs && s.txs[t].pc.Done?
  }

  // Two works on the tables of db: until one of them ends, the tables are the same.
  ghost predicate Duo(db: Db, s: Sys, t: nat, work: Work, u: nat, other: Work) {
    && (t in s.txs ==> s.txs[t].work == work) && (u in s.txs ==> s.txs[u].work == other)
    && (Ended(s, t) || Ended(s, u) || (s.db == db && (t in s.txs ==> Aimed(db, s.txs[t]))))
  }

  lemma EndedStays(s: Sys, a: Action, t: nat)
    requires Ended(s, t)
    ensures Ended(Act(s, a), t)
  {
    if a.Run? && Live(s, a.t) { SettleEnded(s, a.t, Advance(s.db, s.locks, a.t, s.txs[a.t]), t); }
  }

  lemma SettleEnded(s: Sys, t: nat, o: Outcome, v: nat)
    requires t in s.txs && !s.txs[t].pc.Done? && Ended(s, v)
    ensures Ended(Settle(s, t, o), v)
  {
  }

  // One action of transaction x, nobody having ended.
  lemma MoverAims(db: Db, s: Sys, a: Action)
    requires SysInv(s) && s.db == db && (a.t in s.txs ==> !Ended(s, a.t) && Aimed(db, s.txs[a.t]))
    ensures var s' := Act(s, a);
            Ended(s', a.t) || (s'.db == db && (a.t in s'.txs ==> Aimed(db, s'.txs[a.t])))
  {
    if a.Run? && Live(s, a.t) {
      if s.txs[a.t].pc.Ready? {
        CommitKeeps(s, a.t, true);
      } else {
        RunAims(db, s, a.t);
      }
    }
  }

  lemma OthersRest(s: Sys, a: Action, v: nat)
    requires v != a.t
    ensures (v in Act(s, a).txs <==> v in s.txs) && (v in s.txs ==> Act(s, a).txs[v] == s.txs[v])
  {
    if a.Run? && a.t in s.txs { RunStays(s, a.t); }
  }

  lemma ActDuo(db: Db, s: Sys, a: Action, t: nat, work: Work, u: nat, other: Work)
    requires Plain(s) && Duo(db, s, t, work, u, other) && t != u && (a.t == t || a.t == u)
    requires a.Begin? ==> a.work == if a.t == t then work else other
    requires !other.Booking?
    ensures Duo(db, Act(s, a), t, work, u, other)
  {
    ActWorks(s, a);
    if Ended(s, t) {
      EndedStays(s, a, t);
    } else if Ended(s, u) {
      EndedStays(s, a, u);
    } else {
      MoverAims(db, s, a);
      OthersRest(s, a, if a.t == t then u else t);
    }
  }

  lemma {:induction false} PlayedDuo(s: Sys, actions: seq<Action>, t: nat, work: Work, u: nat, other: Work)
    requires Plain(s) && t !in s.txs && u !in s.txs && t != u && Edge(work) && Edge(other) && !other.Booking?
    requires forall a | a in actions :: (a.t == t || a.t == u) && (a.Begin? ==> a.work == if a.t == t then work else other)
    ensures Plain(Execute(s, actions)) && Duo(s.db, Execute(s, actions), t, work, u, other)
    decreases |actions|
  {
    if actions != [] {
      var n := |actions| - 1;
      PlayedDuo(s, actions[..n], t, work, u, other);
      assert actions[n] in actions;
      ActPlain(Execute(s, actions[..n]), actions[n]);
      ActDuo(s.db, Execute(s, actions[..n]), actions[n], t, work, u, other);
    }
  }

  // Row k is that of line i, which the transaction has moved or locked by now.
  predicate LockedLine(tx: Tx, i: nat, k: Key)
    requires tx.pc.Post?
  {
    && i < |tx.pc.ls| && (tx.work.Booking? || i <= tx.pc.n)
    && k.sku == tx.pc.ls[i].sku && k.wh == tx.pc.ls[i].wh
  }

  lemma HeldIsLine(db: Db, held: set<Res>, tx: Tx, k: Key)
    requires TxInv(db, held, tx) && tx.pc.Post? && tx.pc.n < |tx.pc.ls| && tx.pc.stage == Record
    requires MayHold(tx, BalanceRow(k))
    ensures exists i :: LockedLine(tx, i, k)
  {
    assert PostingInv(db, held, tx.work, tx.w, tx.pc.wh, tx.pc.ls, tx.pc.n, Record);
    if tx.work.Booking? {
      var i :| 0 <= i < |tx.work.items| && tx.work.items[i].sku == k.sku;
      assert LockedLine(tx, i, k);
    } else {
      var i :| 0 <= i < tx.pc.n + 1 && k == Key(tx.pc.ls[i].sku, tx.pc.ls[i].wh);
      assert LockedLine(tx, i, k);
    }
  }

  lemma PostingStarts(db: Db, held: set<Res>, tx: Tx)
    requires TxInv(db, held, tx) && Aimed(db, tx) && tx.pc.Post?
    ensures Starts(db, tx.work, if tx.work.Booking? then tx.pc.wh else 0, tx.pc.ls)
  {
    assert PostingInv(db, held, tx.work, tx.w, tx.pc.wh, tx.pc.ls, tx.pc.n, tx.pc.stage);
  }

  lemma RecordedFree(db: Db, held: set<Res>, tx: Tx)
    requires TxInv(db, held, tx) && tx.pc.Post? && tx.pc.n < |tx.pc.ls| && tx.pc.stage == Record
    requires CommandId(OpOf(tx.work), IdOf(tx.work), tx.pc.ls[tx.pc.n].sku) !in db.movements
    ensures IdsFree(db.movements, tx.work, tx.pc.ls, 0, tx.pc.n + 1)
  {
    assert PostingInv(db, held, tx.work, tx.w, tx.pc.wh, tx.pc.ls, tx.pc.n, Record);
    forall m | 0 <= m < tx.pc.n ensures !AdminRow(db.movements, CommandId(OpOf(tx.work), IdOf(tx.work), tx.pc.ls[m].sku)) {
      assert NewRow(db.movements, held, OpOf(tx.work), IdOf(tx.work), ReasonOf(tx.work), tx.pc.ls[m]);
    }
  }

  lemma MoverClaimed(db: Db, held: set<Res>, tx: Tx)
    requires TxInv(db, held, tx) && tx.pc.Move?
    ensures Claimable(tx.work.act, tx.work.cmd) && tx.work.cmd.commandId !in db.movements
  {
  }

  lemma EntangledLine(db: Db, held: set<Res>, tx: Tx, cmd: StockCommand)
    requires TxInv(db, held, tx) && tx.pc.Post? && tx.pc.n < |tx.pc.ls| && tx.pc.stage == Record
    requires cmd.commandId == CommandId(OpOf(tx.work), IdOf(tx.work), tx.pc.ls[tx.pc.n].sku) && cmd.commandId !in db.movements
    requires MayHold(tx, BalanceRow(Key(cmd.sku, cmd.wh)))
    ensures exists i :: CrossesAt(db, tx.work, tx.pc.ls, tx.pc.n, i, cmd)
  {
    RecordedFree(db, held, tx);
    HeldIsLine(db, held, tx, Key(cmd.sku, cmd.wh));
    var i :| LockedLine(tx, i, Key(cmd.sku, cmd.wh));
    assert CrossesAt(db, tx.work, tx.pc.ls, tx.pc.n, i, cmd);
  }

  lemma CrossesBy(db: Db, work: Work, wh: int, ls: seq<Allocation>, n: nat, i: nat, act: StockAction, cmd: StockCommand)
    requires Claimable(act, cmd) && Starts(db, work, wh, ls) && CrossesAt(db, work, ls, n, i, cmd)
    ensures Crossing(db, work, act, cmd)
  {
  }

  lemma EntangledCrosses(s: Sys, t: nat, u: nat, tx: Tx, act: StockAction, cmd: StockCommand)
    requires Plain(s) && Entangled(s, t, u, t) && s.txs[t] == tx && s.txs[u].work == Stocking(act, cmd)
    requires tx.pc.Post? && Aimed(s.db, tx)
    ensures Crossing(s.db, tx.work, act, cmd)
  {
    MoverClaimed(s.db, LocksOf(s.locks, u), s.txs[u]);
    PostingStarts(s.db, LocksOf(s.locks, t), tx);
    EntangledLine(s.db, LocksOf(s.locks, t), tx, cmd);
    var i :| CrossesAt(s.db, tx.work, tx.pc.ls, tx.pc.n, i, cmd);
    CrossesBy(s.db, tx.work, if tx.work.Booking? then tx.pc.wh else 0, tx.pc.ls, tx.pc.n, i, act, cmd);
  }

  lemma StuckCrosses(db: Db, s: Sys, t: nat, u: nat, work: Work, act: StockAction, cmd: StockCommand)
    requires Plain(s) && !work.Stocking? && Duo(db, s, t, work, u, Stocking(act, cmd)) && Stuck(s, t, u)
    ensures Crossing(db, work, act, cmd)
  {
    StuckIsEntangled(s, t, u);
    EntangledCrosses(s, t, u, s.txs[t], act, cmd);
  }

  lemma LeadsCrosses(s: Sys, s': Sys, t: nat, u: nat, work: Work, act: StockAction, cmd: StockCommand)
    requires Plain(s) && t !in s.txs && u !in s.txs && t != u && Edge(work) && !work.Stocking?
    requires Leads(s, s', Duet(t, work, u, act, cmd)) && Stuck(s', t, u)
    ensures Crossing(s.db, work, act, cmd)
  {
    var actions :| Played(actions, Duet(t, work, u, act, cmd)) && Execute(s, actions) == s';
    PlayedDuo(s, actions, t, work, u, Stocking(act, cmd));
    StuckCrosses(s.db, s', t, u, work, act, cmd);
  }

  // From any reachable state with nothing locked, and for any hold or settlement and any stock command:
  // some schedule of these two leaves each waiting for the other if and only if they cross, that is,
  // if the command's id is the ledger id of a line the other will get to, with no admin row before it
  // in the way, and its row is one the other has locked by then.
  lemma DeadlocksIff(s: Sys, t: nat, u: nat, work: Work, act: StockAction, cmd: StockCommand)
    requires Plain(s) && s.locks == map[] && t !in s.txs && u !in s.txs && t != u
    requires !work.Stocking? && Admitted(work) && Edge(work)
    ensures (exists s' :: Leads(s, s', Duet(t, work, u, act, cmd)) && Stuck(s', t, u)) <==> Crossing(s.db, work, act, cmd)
  {
    if s' :| Leads(s, s', Duet(t, work, u, act, cmd)) && Stuck(s', t, u) {
      LeadsCrosses(s, s', t, u, work, act, cmd);
    }
    if Crossing(s.db, work, act, cmd) {
      var wh, ls :| Starts(s.db, work, wh, ls) && exists n, i :: CrossesAt(s.db, work, ls, n, i, cmd);
      var n, i :| CrossesAt(s.db, work, ls, n, i, cmd);
      CrossedDeadlocks(s, t, u, work, act, cmd, wh, ls, n, i);
    }
  }

  // A run into each deadlock ----------------------------------------------------------------------------------

  // What books, releases or commits one unit of sku under id.
  function Victim(id: string, sku: string, op: Op): Work {
    if op == Hold then WorkOf(RedeliveryLimits.Booking(id, sku)) else Settlement(id, op, "")
  }

  // One unit of sku received, added or kept safe under the ledger id of that line.
  function Squatting(id: string, sku: string, op: Op): StockCommand {
    StockCommand(CommandId(op, id, sku), sku, 1, 1, "", "")
  }

  lemma SquattingClaims(id: string, sku: string, op: Op, act: StockAction)
    requires ValidReservationId(id) && ValidSku(sku)
    ensures Claimable(act, Squatting(id, sku, op))
  {
    LengthCapIsTight(op, id);
  }

  lemma VictimIsPlain(id: string, sku: string, op: Op)
    requires ValidReservationId(id) && ValidSku(sku)
    ensures !Victim(id, sku, op).Stocking? && Admitted(Victim(id, sku, op)) && Edge(Victim(id, sku, op))
    ensures OpOf(Victim(id, sku, op)) == op && IdOf(Victim(id, sku, op)) == id
    ensures op == Hold ==> Victim(id, sku, op).Booking? && Victim(id, sku, op).items == RedeliveryLimits.Basket(sku)
                           && Victim(id, sku, op).orderRef == id
  {
    RedeliveryLimits.OneLine(sku);
  }

  lemma HoldStarts(db: Db, id: string, sku: string)
    requires ValidReservationId(id) && RedeliveryLimits.Stocked(db, sku)
    ensures var items := RedeliveryLimits.Basket(sku); Starts(db, Victim(id, sku, Hold), 1, AllocateFrom(items, 1))
  {
    RedeliveryLimits.OneLine(sku);
    RedeliveryLimits.OneActive();
    assert RedeliveryLimits.Basket(sku)[0] == Item(sku, 1);
  }

  lemma HoldIdFree(db: Db, id: string, sku: string)
    requires db.movements.Keys == {"a"}
    ensures CommandId(Hold, id, sku) !in db.movements
  {
    assert |CommandId(Hold, id, sku)| > 1 && |"a"| == 1;
  }

  // With stock received, a hold can be crossed.
  lemma HoldCrossed(db: Db, id: string, sku: string, act: StockAction)
    requires ValidReservationId(id) && ValidSku(sku) && RedeliveryLimits.Stocked(db, sku)
    ensures Crossing(db, Victim(id, sku, Hold), act, Squatting(id, sku, Hold))
  {
    var ls := AllocateFrom(RedeliveryLimits.Basket(sku), 1);
    VictimIsPlain(id, sku, Hold);
    SquattingClaims(id, sku, Hold, act);
    HoldStarts(db, id, sku);
    HoldIdFree(db, id, sku);
    assert ls[0] == Allocation(sku, 1, 1);
    assert CrossesAt(db, Victim(id, sku, Hold), ls, 0, 0, Squatting(id, sku, Hold));
  }

  // An open reservation of tidy tables with a line of sku in warehouse 1 can be crossed.
  lemma SettlementCrossed(db: Db, id: string, sku: string, op: Op, act: StockAction)
    requires ValidReservationId(id) && ValidSku(sku) && op != Hold && Tidy(db)
    requires StatusOf(db, id) == Some(Reserved) && LineKey(id, sku) in db.lines && db.lines[LineKey(id, sku)].wh == 1
    ensures Crossing(db, Victim(id, sku, op), act, Squatting(id, sku, op))
  {
    var work, ls := Victim(id, sku, op), LoadLines(db.lines, id);
    var a := Allocation(sku, 1, db.lines[LineKey(id, sku)].qty);
    SquattingClaims(id, sku, op, act);
    assert a in AllocationsOf(db.lines, id);
    assert a in ls;
    var n :| 0 <= n < |ls| && ls[n] == a;
    forall m | 0 <= m < n + 1 ensures !AdminRow(db.movements, CommandId(op, id, ls[m].sku)) {
      CommandIdHasForm(op, id, ls[m].sku);
    }
    assert Starts(db, work, 0, ls);
    assert CrossesAt(db, work, ls, n, n, Squatting(id, sku, op));
  }

  lemma LineAdded(db: Db, id: string, hash: string, ls: map<string, Line>, sku: string)
    requires sku in ls
    ensures var lines := Apply(db, ReserveEv(id, id, hash, 1, ls)).lines;
            LineKey(id, sku) in lines && lines[LineKey(id, sku)] == ls[sku]
  {
    Preservation.ReserveTables(db, id, id, hash, 1, ls);
  }

  lemma BookedLine(db: Db, id: string, sku: string)
    requires ValidReservationId(id) && ValidSku(sku) && RedeliveryLimits.Stocked(db, sku)
    ensures var lines := Exec(db, RedeliveryLimits.Booking(id, sku)).lines;
            LineKey(id, sku) in lines && lines[LineKey(id, sku)] == Line(1, 1)
  {
    RedeliveryLimits.OneLine(sku);
    RedeliveryLimits.BookingDecides(db, id, sku);
    LineAdded(db, id, Canonical.Encode(RedeliveryLimits.Basket(sku), ""), map[sku := Line(1, 1)], sku);
  }

  // Reached from the empty system, with nothing left under way.
  ghost predicate Calm(s: Sys, db: Db) {
    Reaches(Boot(RedeliveryLimits.WAREHOUSES), s) && Plain(s) && s.locks == map[] && 2 !in s.txs && 3 !in s.txs && s.db == db
  }

  lemma ReceiptRuns(sku: string)
    requires ValidSku(sku)
    ensures exists s :: Calm(s, Exec(EmptyDb(RedeliveryLimits.WAREHOUSES), RedeliveryLimits.Receipt(sku))) && 1 !in s.txs
  {
    var s0, c := Boot(RedeliveryLimits.WAREHOUSES), RedeliveryLimits.Receipt(sku);
    SchedulePlain(RedeliveryLimits.WAREHOUSES, []);
    RunsThrough(s0, 0, c);
    var s1 :| Through(s0, s1, 0, c);
    assert Calm(s1, Exec(s0.db, c)) && 1 !in s1.txs;
  }

  lemma BookingRuns(s: Sys, db: Db, id: string, sku: string)
    requires Calm(s, db) && 1 !in s.txs && ValidReservationId(id) && ValidSku(sku)
    ensures exists s' :: Calm(s', Exec(db, RedeliveryLimits.Booking(id, sku)))
  {
    var c := RedeliveryLimits.Booking(id, sku);
    VictimIsPlain(id, sku, Hold);
    RunsThrough(s, 1, c);
    var s' :| Through(s, s', 1, c);
    ReachesThen(Boot(RedeliveryLimits.WAREHOUSES), s, s');
    assert Calm(s', Exec(db, c));
  }

  // Tables on which the victim can be crossed, reached with nothing left under way.
  lemma CrossableReached(id: string, sku: string, op: Op, act: StockAction)
    requires ValidReservationId(id) && ValidSku(sku)
    ensures exists s: Sys :: Calm(s, s.db) && Crossing(s.db, Victim(id, sku, op), act, Squatting(id, sku, op))
  {
    var db := Exec(EmptyDb(RedeliveryLimits.WAREHOUSES), RedeliveryLimits.Receipt(sku));
    RedeliveryLimits.ReceiptStocks(sku);
    ReceiptRuns(sku);
    var s :| Calm(s, db) && 1 !in s.txs;
    if op == Hold {
      HoldCrossed(db, id, sku, act);
      assert Calm(s, s.db);
    } else {
      BookingRuns(s, db, id, sku);
      var db' := Exec(db, RedeliveryLimits.Booking(id, sku));
      var s' :| Calm(s', db');
      RedeliveryLimits.StockedBooks(db, id, sku);
      BookedLine(db, id, sku);
      SettlementCrossed(db', id, sku, op, act);
      assert Calm(s', s'.db);
    }
  }

  // Each waits for the other, one on this work and the other on that.
  ghost predicate Deadlocked(s: Sys, t: nat, work: Work, u: nat, other: Work) {
    Stuck(s, t, u) && s.txs[t].work == work && s.txs[u].work == other
  }

  lemma DuetWorks(s: Sys, s': Sys, t: nat, u: nat, work: Work, act: StockAction, cmd: StockCommand)
    requires Plain(s) && t !in s.txs && u !in s.txs && t != u && Edge(work)
    requires Leads(s, s', Duet(t, work, u, act, cmd)) && Stuck(s', t, u)
    ensures Deadlocked(s', t, work, u, Stocking(act, cmd))
  {
    var actions :| Played(actions, Duet(t, work, u, act, cmd)) && Execute(s, actions) == s';
    PlayedDuo(s, actions, t, work, u, Stocking(act, cmd));
  }

  // Without the naming rule deadlock freedom is false: for every reservation id and SKU, every kind of
  // hold or settlement and every stock action, a schedule from the empty system leaves the two
  // waiting for each other, the stock command carrying the ledger id res:, rel: or cmt:<id>:<sku>.
  lemma SquattedIdDeadlocks(id: string, sku: string, op: Op, act: StockAction)
    requires ValidReservationId(id) && ValidSku(sku)
    ensures exists actions :: Deadlocked(Execute(Boot(RedeliveryLimits.WAREHOUSES), actions), 2, Victim(id, sku, op),
                                         3, Stocking(act, Squatting(id, sku, op)))
  {
    var work, cmd := Victim(id, sku, op), Squatting(id, sku, op);
    VictimIsPlain(id, sku, op);
    CrossableReached(id, sku, op, act);
    var s: Sys :| Calm(s, s.db) && Crossing(s.db, work, act, cmd);
    DeadlocksIff(s, 2, 3, work, act, cmd);
    var s' :| Leads(s, s', Duet(2, work, 3, act, cmd)) && Stuck(s', 2, 3);
    DuetWorks(s, s', 2, 3, work, act, cmd);
    LeadsReaches(s, s', Duet(2, work, 3, act, cmd));
    ReachesThen(Boot(RedeliveryLimits.WAREHOUSES), s, s');
    var actions :| Execute(Boot(RedeliveryLimits.WAREHOUSES), actions) == s';
  }
}
