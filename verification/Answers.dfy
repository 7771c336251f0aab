/** Why each transaction answered as it did: refusals, not-founds and settlements over whole schedules. */
module Answers {
  import opened CommandIds
  import opened Tables
  import opened Posting
  import opened Ledger
  import opened Commands
  import opened Machine
  import opened Interleaving
  import opened Concurrency
  import opened Aggregation
  import opened Columns
  import Collections

  // What a transaction sees at one moment -------------------------------------------------------

  // At its scan no active warehouse has the basket, and short is what the lowest of them lacks.
  ghost predicate ScanFindsNone(s: Sys, t: nat, short: seq<Shortage>) {
    && t in s.txs && s.txs[t].work.Booking? && s.txs[t].pc == Scan
    && NoneServes(s.db, s.txs[t].work.items) && ShortInLeast(s.db, s.txs[t].work.items, short)
  }

  // held has every row of the basket in the active warehouse wh, and short, not empty, is what wh lacks.
  ghost predicate HeldAndShort(db: Db, held: set<Res>, items: seq<Item>, wh: int, short: seq<Shortage>) {
    && Open(db.warehouses, wh) && short != [] && Lists(db.balances, Some(wh), false, items, short)
    && (forall i | 0 <= i < |items| :: Pinned(db.balances, held, wh, items[i]))
  }

  // Its re-check has failed in the warehouse it had chosen.
  ghost predicate RecheckFails(s: Sys, t: nat, short: seq<Shortage>) {
    && t in s.txs && s.txs[t].work.Booking? && s.txs[t].pc.Classify? && s.txs[t].pc.from.Some?
    && HeldAndShort(s.db, LocksOf(s.locks, t), s.txs[t].work.items, s.txs[t].pc.from.value, short)
  }

  // It is classifying its failure, and the SKUs without a row anywhere are these.
  ghost predicate SeesUntracked(s: Sys, t: nat, skus: seq<string>) {
    && t in s.txs && s.txs[t].work.Booking? && s.txs[t].pc.Classify?
    && ListsUnknown(s.db.balances, s.txs[t].work.items, skus)
  }

  // It is about to lock the header, and finds this status.
  ghost predicate FindsStatus(s: Sys, t: nat, status: Option<Status>) {
    && t in s.txs && s.txs[t].work.Settlement? && s.txs[t].pc == LockHead
    && StatusOf(s.db, s.txs[t].work.id) == status
  }

  // Some moment of a schedule -----------------------------------------------------------------------

  function StateAt(warehouses: map<int, bool>, actions: seq<Action>, k: nat): Sys
    requires k <= |actions|
  {
    Execute(Boot(warehouses), actions[..k])
  }

  ghost predicate ScannedNone(warehouses: map<int, bool>, actions: seq<Action>, t: nat, short: seq<Shortage>) {
    exists k :: 0 <= k <= |actions| && ScanFindsNone(StateAt(warehouses, actions, k), t, short)
  }

  ghost predicate RecheckFailed(warehouses: map<int, bool>, actions: seq<Action>, t: nat, short: seq<Shortage>) {
    exists k :: 0 <= k <= |actions| && RecheckFails(StateAt(warehouses, actions, k), t, short)
  }

  ghost predicate SawUntracked(warehouses: map<int, bool>, actions: seq<Action>, t: nat, skus: seq<string>) {
    exists k :: 0 <= k <= |actions| && SeesUntracked(StateAt(warehouses, actions, k), t, skus)
  }

  ghost predicate FoundStatus(warehouses: map<int, bool>, actions: seq<Action>, t: nat, status: Option<Status>) {
    exists k :: 0 <= k <= |actions| && FindsStatus(StateAt(warehouses, actions, k), t, status)
  }

  lemma StateBefore(warehouses: map<int, bool>, actions: seq<Action>, k: nat)
    requires actions != [] && k < |actions|
    ensures StateAt(warehouses, actions[..|actions| - 1], k) == StateAt(warehouses, actions, k)
  {
    Collections.Prefixes(actions, k, |actions| - 1);
  }

  // What was seen in a shorter schedule was seen in the longer one.
  lemma SeenStays(warehouses: map<int, bool>, actions: seq<Action>, t: nat)
    requires actions != []
    ensures forall short :: ScannedNone(warehouses, actions[..|actions| - 1], t, short) ==> ScannedNone(warehouses, actions, t, short)
    ensures forall short :: RecheckFailed(warehouses, actions[..|actions| - 1], t, short) ==> RecheckFailed(warehouses, actions, t, short)
    ensures forall skus :: SawUntracked(warehouses, actions[..|actions| - 1], t, skus) ==> SawUntracked(warehouses, actions, t, skus)
    ensures forall st :: FoundStatus(warehouses, actions[..|actions| - 1], t, st) ==> FoundStatus(warehouses, actions, t, st)
  {
    var front := actions[..|actions| - 1];
    forall k: nat | k <= |front| ensures StateAt(warehouses, front, k) == StateAt(warehouses, actions, k) {
      StateBefore(warehouses, actions, k);
    }
    forall short | ScannedNone(warehouses, front, t, short) ensures ScannedNone(warehouses, actions, t, short) {
      var k :| 0 <= k <= |front| && ScanFindsNone(StateAt(warehouses, front, k), t, short);
      assert ScanFindsNone(StateAt(warehouses, actions, k), t, short);
    }
    forall short | RecheckFailed(warehouses, front, t, short) ensures RecheckFailed(warehouses, actions, t, short) {
      var k :| 0 <= k <= |front| && RecheckFails(StateAt(warehouses, front, k), t, short);
      assert RecheckFails(StateAt(warehouses, actions, k), t, short);
    }
    forall skus | SawUntracked(warehouses, front, t, skus) ensures SawUntracked(warehouses, actions, t, skus) {
      var k :| 0 <= k <= |front| && SeesUntracked(StateAt(warehouses, front, k), t, skus);
      assert SeesUntracked(StateAt(warehouses, actions, k), t, skus);
    }
    forall st | FoundStatus(warehouses, front, t, st) ensures FoundStatus(warehouses, actions, t, st) {
      var k :| 0 <= k <= |front| && FindsStatus(StateAt(warehouses, front, k), t, st);
      assert FindsStatus(StateAt(warehouses, actions, k), t, st);
    }
  }

  // What is seen just before the last action was seen in the schedule.
  lemma SeenLast(warehouses: map<int, bool>, actions: seq<Action>, t: nat)
    requires actions != []
    ensures var s := StateAt(warehouses, actions, |actions| - 1);
            && (forall short :: ScanFindsNone(s, t, short) ==> ScannedNone(warehouses, actions, t, short))
            && (forall short :: RecheckFails(s, t, short) ==> RecheckFailed(warehouses, actions, t, short))
            && (forall skus :: SeesUntracked(s, t, skus) ==> SawUntracked(warehouses, actions, t, skus))
            && (forall st :: FindsStatus(s, t, st) ==> FoundStatus(warehouses, actions, t, st))
  {
    var n: nat := |actions| - 1;
    var s := StateAt(warehouses, actions, n);
    forall short | ScanFindsNone(s, t, short) ensures ScannedNone(warehouses, actions, t, short) {
      assert 0 <= n <= |actions| && ScanFindsNone(StateAt(warehouses, actions, n), t, short);
    }
    forall short | RecheckFails(s, t, short) ensures RecheckFailed(warehouses, actions, t, short) {
      assert 0 <= n <= |actions| && RecheckFails(StateAt(warehouses, actions, n), t, short);
    }
    forall skus | SeesUntracked(s, t, skus) ensures SawUntracked(warehouses, actions, t, skus) {
      assert 0 <= n <= |actions| && SeesUntracked(StateAt(warehouses, actions, n), t, skus);
    }
    forall st | FindsStatus(s, t, st) ensures FoundStatus(warehouses, actions, t, st) {
      assert 0 <= n <= |actions| && FindsStatus(StateAt(warehouses, actions, n), t, st);
    }
  }

  // Explanations ----------------------------------------------------------------------------------------

  // UnknownSku names exactly the SKUs that had no row anywhere when the failure was classified.
  // InsufficientStock was given with every SKU known, and its shortages are those of the lowest
  // active warehouse at a scan that found none to cover the basket, or those of the chosen warehouse
  // while all its rows of the basket were locked.
  ghost predicate RefusalExplained(warehouses: map<int, bool>, actions: seq<Action>, t: nat, why: Failure) {
    match why
    case UnknownSku(skus) => skus != [] && SawUntracked(warehouses, actions, t, skus)
    case InsufficientStock(short) =>
      && SawUntracked(warehouses, actions, t, [])
      && (ScannedNone(warehouses, actions, t, short) || RecheckFailed(warehouses, actions, t, short))
    case _ => true
  }

  // A settlement reported done is in the log, told, under this transaction or was found already
  // done, and the reservation has that status from then on; or it is a Release that found no such
  // reservation. Not found is the answer of a Commit that found none.
  ghost predicate SettlementExplained(warehouses: map<int, bool>, actions: seq<Action>, s: Sys, t: nat, work: Work, reply: Reply)
    requires work.Settlement?
  {
    var Settlement(id, op, reason) := work;
    match reply
    case Settled(status) =>
      && status == StatusAfter(op)
      && (|| (StatusOf(s.db, id) == Some(status) && Entry(t, SettleEv(id, op, reason), true) in s.log)
          || (StatusOf(s.db, id) == Some(status) && FoundStatus(warehouses, actions, t, Some(status)))
          || (op == Unhold && FoundStatus(warehouses, actions, t, None)))
    case Failed(why) => why == ReservationNotFound ==> op == Sale && FoundStatus(warehouses, actions, t, None)
    case _ => true
  }

  ghost predicate Explained(warehouses: map<int, bool>, actions: seq<Action>, s: Sys, t: nat, tx: Tx) {
    match tx.pc
    case Classify(from, short) => from == None ==> ScannedNone(warehouses, actions, t, short)
    case Done(reply) =>
      && (tx.work.Booking? && reply.Failed? ==> RefusalExplained(warehouses, actions, t, reply.why))
      && (tx.work.Settlement? ==> SettlementExplained(warehouses, actions, s, t, tx.work, reply))
    case _ => true
  }

  // Time only adds to the tables' history and to the log.
  ghost predicate Later(s: Sys, s': Sys) {
    Evolves(s.db, s'.db) && forall e | e in s.log :: e in s'.log
  }

  lemma CommitLater(s: Sys, t: nat, told: bool)
    requires SysInv(s) && Live(s, t) && s.txs[t].pc.Ready?
    ensures Later(s, Act(s, Commitment(t, told)))
  {
    var Ready(wh, ls) := s.txs[t].pc;
    CommitKeeps(s, t, told);
    EventEvolves(s.db, EventOf(s.txs[t].work, wh, ls), Act(s, Commitment(t, told)).db);
  }

  lemma ActLater(s: Sys, a: Action)
    requires SysInv(s)
    ensures Later(s, Act(s, a))
  {
    EvolvesReflexive(s.db);
    if a.Run? && Live(s, a.t) && !s.txs[a.t].pc.Ready? { RunKeeps(s, a.t); }
    if a.Run? && Live(s, a.t) && s.txs[a.t].pc.Ready? { CommitLater(s, a.t, true); }
    if a.Lose? && Live(s, a.t) && s.txs[a.t].pc.Ready? { CommitLater(s, a.t, false); }
  }

  lemma RefusalStays(warehouses: map<int, bool>, actions: seq<Action>, t: nat, why: Failure)
    requires actions != [] && RefusalExplained(warehouses, actions[..|actions| - 1], t, why)
    ensures RefusalExplained(warehouses, actions, t, why)
  {
    SeenStays(warehouses, actions, t);
  }

  lemma SettlementStays(warehouses: map<int, bool>, actions: seq<Action>, s: Sys, s': Sys, t: nat, work: Work, reply: Reply)
    requires actions != [] && work.Settlement? && Admitted(work)
    requires SettlementExplained(warehouses, actions[..|actions| - 1], s, t, work, reply) && Later(s, s')
    ensures SettlementExplained(warehouses, actions, s', t, work, reply)
  {
    SeenStays(warehouses, actions, t);
  }

  // An explanation holds for good.
  lemma ExplainedStays(warehouses: map<int, bool>, actions: seq<Action>, s: Sys, s': Sys, t: nat, tx: Tx)
    requires actions != [] && Explained(warehouses, actions[..|actions| - 1], s, t, tx) && Later(s, s') && Admitted(tx.work)
    ensures Explained(warehouses, actions, s', t, tx)
  {
    match tx.pc
    case Classify(_, _) => SeenStays(warehouses, actions, t);
    case Done(reply) =>
      if tx.work.Booking? && reply.Failed? { RefusalStays(warehouses, actions, t, reply.why); }
      if tx.work.Settlement? { SettlementStays(warehouses, actions, s, s', t, tx.work, reply); }
    case _ =>
  }

  // One step ----------------------------------------------------------------------------------------------

  predicate Refusal(pc: Pc) {
    pc.Done? && pc.reply.Failed? && (pc.reply.why.UnknownSku? || pc.reply.why.InsufficientStock?)
  }

  // Only the scan gives up without a warehouse, and only the classification that follows answers
  // with a shortage or an unknown SKU.
  lemma OthersDoNotRefuse(db: Db, locks: map<Res, nat>, t: nat, tx: Tx)
    requires Fits(tx) && tx.work.Booking? && !tx.pc.Done? && !tx.pc.Classify? && !tx.pc.Scan?
    ensures var pc := NextTx(Advance(db, locks, t, tx), tx).pc; !Refusal(pc) && (pc.Classify? ==> pc.from.Some?)
  {
    match tx.pc
    case Post(_, _, _, _) =>
    case _ =>
  }

  lemma ScanEnds(db: Db, locks: map<Res, nat>, t: nat, tx: Tx)
    requires tx.work.Booking? && tx.pc.Scan?
    ensures var pc := NextTx(Advance(db, locks, t, tx), tx).pc;
            && !Refusal(pc)
            && (pc.Classify? ==>
                  && FirstFulfilling(db.balances, ActiveIds(db.warehouses), tx.work.items) == None
                  && pc.short == Shortages(db.balances, Baseline(ActiveIds(db.warehouses)), tx.work.items))
  {
  }

  lemma ScanRuns(s: Sys, t: nat)
    requires Live(s, t) && s.txs[t].pc.Scan?
    ensures var pc := NextTx(Advance(s.db, s.locks, t, s.txs[t]), s.txs[t]).pc;
            !Refusal(pc) && (pc.Classify? ==> ScanFindsNone(s, t, pc.short))
  {
    ScanEnds(s.db, s.locks, t, s.txs[t]);
    ChoiceIs(s.db, s.txs[t].work.items);
    ShortInLeastIs(s.db, s.txs[t].work.items);
  }

  lemma ClassifyEnds(db: Db, locks: map<Res, nat>, t: nat, tx: Tx)
    requires tx.work.Booking? && tx.pc.Classify?
    ensures Advance(db, locks, t, tx) == Undo(Done(Failed(Commands.Classify(db, tx.work.items, tx.pc.short))))
  {
  }

  lemma RecheckedIs(db: Db, held: set<Res>, items: seq<Item>, wh: int, short: seq<Shortage>)
    requires Rechecked(db, held, items, wh, short)
    ensures HeldAndShort(db, held, items, wh, short)
  {
    ShortagesAre(db.balances, Some(wh), items);
  }

  lemma ClassifyRuns(s: Sys, t: nat)
    requires Live(s, t) && s.txs[t].pc.Classify? && TxInv(s.db, LocksOf(s.locks, t), s.txs[t])
    ensures var tx := s.txs[t];
            var untracked := Untracked(s.db, tx.work.items);
            && SeesUntracked(s, t, untracked) && (tx.pc.from.Some? ==> RecheckFails(s, t, tx.pc.short))
            && Advance(s.db, s.locks, t, tx)
               == Undo(Done(Failed(if untracked != [] then UnknownSku(untracked) else InsufficientStock(tx.pc.short))))
  {
    var tx := s.txs[t];
    UntrackedAre(s.db, tx.work.items);
    ClassifyEnds(s.db, s.locks, t, tx);
    if tx.pc.from.Some? { RecheckedIs(s.db, LocksOf(s.locks, t), tx.work.items, tx.pc.from.value, tx.pc.short); }
  }

  // Short of a commit only the look at the header answers a settlement, save for storage errors.
  lemma OthersDoNotSettle(db: Db, locks: map<Res, nat>, t: nat, tx: Tx)
    requires Fits(tx) && tx.work.Settlement? && !tx.pc.Done? && !tx.pc.LockHead? && !tx.pc.Ready?
    ensures var pc := NextTx(Advance(db, locks, t, tx), tx).pc;
            !pc.Classify? && (pc.Done? ==> pc.reply == Failed(StorageError))
  {
    match tx.pc
    case Post(_, _, _, _) =>
    case _ =>
  }

  // The look at the header answers by the status it finds.
  lemma HeadRuns(s: Sys, t: nat)
    requires Live(s, t) && s.txs[t].pc.LockHead?
    ensures var tx := s.txs[t];
            var pc, st := NextTx(Advance(s.db, s.locks, t, tx), tx).pc, StatusOf(s.db, tx.work.id);
            && FindsStatus(s, t, st) && !pc.Classify?
            && (pc.Done? ==> DecideStatus(tx.work.op, st) == Some(pc.reply))
  {
  }

  // The moves of one transaction, as its explanation needs them.

  lemma RefusalRuns(warehouses: map<int, bool>, actions: seq<Action>, s: Sys, t: nat)
    requires actions != [] && s == StateAt(warehouses, actions, |actions| - 1)
    requires Live(s, t) && s.txs[t].pc.Classify? && TxInv(s.db, LocksOf(s.locks, t), s.txs[t])
    requires Explained(warehouses, actions[..|actions| - 1], s, t, s.txs[t])
    ensures var o := Advance(s.db, s.locks, t, s.txs[t]);
            o.Undo? && o.pc.Done? && o.pc.reply.Failed? && RefusalExplained(warehouses, actions, t, o.pc.reply.why)
  {
    ClassifyRuns(s, t);
    SeenLast(warehouses, actions, t);
    SeenStays(warehouses, actions, t);
  }

  lemma ScanExplained(warehouses: map<int, bool>, actions: seq<Action>, s: Sys, t: nat)
    requires actions != [] && s == StateAt(warehouses, actions, |actions| - 1)
    requires Live(s, t) && s.txs[t].pc.Scan?
    ensures Explained(warehouses, actions, s, t, NextTx(Advance(s.db, s.locks, t, s.txs[t]), s.txs[t]))
  {
    ScanRuns(s, t);
    SeenLast(warehouses, actions, t);
  }

  // Without a refusal there is nothing to explain, and with one its cause is all there is.
  lemma QuietExplained(warehouses: map<int, bool>, actions: seq<Action>, s: Sys, t: nat, tx: Tx)
    requires tx.work.Booking? && !Refusal(tx.pc) && (tx.pc.Classify? ==> tx.pc.from.Some?)
    ensures Explained(warehouses, actions, s, t, tx)
  {
  }

  lemma RefusedExplained(warehouses: map<int, bool>, actions: seq<Action>, s: Sys, t: nat, tx: Tx)
    requires tx.work.Booking? && tx.pc.Done? && tx.pc.reply.Failed?
    requires RefusalExplained(warehouses, actions, t, tx.pc.reply.why)
    ensures Explained(warehouses, actions, s, t, tx)
  {
  }

  lemma BookingRuns(warehouses: map<int, bool>, actions: seq<Action>, s: Sys, t: nat)
    requires actions != [] && s == StateAt(warehouses, actions, |actions| - 1)
    requires Live(s, t) && s.txs[t].work.Booking? && TxInv(s.db, LocksOf(s.locks, t), s.txs[t])
    requires Explained(warehouses, actions[..|actions| - 1], s, t, s.txs[t])
    ensures Explained(warehouses, actions, s, t, NextTx(Advance(s.db, s.locks, t, s.txs[t]), s.txs[t]))
  {
    var tx' := NextTx(Advance(s.db, s.locks, t, s.txs[t]), s.txs[t]);
    if s.txs[t].pc.Scan? {
      ScanExplained(warehouses, actions, s, t);
    } else if s.txs[t].pc.Classify? {
      RefusalRuns(warehouses, actions, s, t);
      RefusedExplained(warehouses, actions, s, t, tx');
    } else {
      OthersDoNotRefuse(s.db, s.locks, t, s.txs[t]);
      QuietExplained(warehouses, actions, s, t, tx');
    }
  }

  lemma HeadExplained(warehouses: map<int, bool>, actions: seq<Action>, s: Sys, t: nat)
    requires actions != [] && s == StateAt(warehouses, actions, |actions| - 1)
    requires Live(s, t) && s.txs[t].pc.LockHead? && Admitted(s.txs[t].work)
    ensures Explained(warehouses, actions, s, t, NextTx(Advance(s.db, s.locks, t, s.txs[t]), s.txs[t]))
  {
    HeadRuns(s, t);
    SeenLast(warehouses, actions, t);
  }

  lemma SettlementRuns(warehouses: map<int, bool>, actions: seq<Action>, s: Sys, t: nat)
    requires actions != [] && s == StateAt(warehouses, actions, |actions| - 1)
    requires Live(s, t) && s.txs[t].work.Settlement? && !s.txs[t].pc.Ready? && Admitted(s.txs[t].work)
    ensures Explained(warehouses, actions, s, t, NextTx(Advance(s.db, s.locks, t, s.txs[t]), s.txs[t]))
  {
    if s.txs[t].pc.LockHead? {
      HeadExplained(warehouses, actions, s, t);
    } else {
      OthersDoNotSettle(s.db, s.locks, t, s.txs[t]);
    }
  }

  lemma StockingRuns(db: Db, locks: map<Res, nat>, t: nat, tx: Tx)
    requires Fits(tx) && tx.work.Stocking? && !tx.pc.Done?
    ensures !NextTx(Advance(db, locks, t, tx), tx).pc.Classify?
  {
  }

  // An explanation only looks at the tables and the log.
  lemma SameExplained(warehouses: map<int, bool>, actions: seq<Action>, s: Sys, s': Sys, t: nat, tx: Tx)
    requires Explained(warehouses, actions, s, t, tx) && s'.db == s.db && s'.log == s.log
    ensures Explained(warehouses, actions, s', t, tx)
  {
  }

  lemma RunExplained(warehouses: map<int, bool>, actions: seq<Action>, s: Sys, t: nat)
    requires actions != [] && s == StateAt(warehouses, actions, |actions| - 1)
    requires Live(s, t) && !s.txs[t].pc.Ready? && TxInv(s.db, LocksOf(s.locks, t), s.txs[t])
    requires Explained(warehouses, actions[..|actions| - 1], s, t, s.txs[t])
    ensures Explained(warehouses, actions, s, t, NextTx(Advance(s.db, s.locks, t, s.txs[t]), s.txs[t]))
  {
    match s.txs[t].work
    case Booking(_, _, _, _) => BookingRuns(warehouses, actions, s, t);
    case Settlement(_, _, _) => SettlementRuns(warehouses, actions, s, t);
    case Stocking(_, _) => StockingRuns(s.db, s.locks, t, s.txs[t]);
  }

  lemma Commits(warehouses: map<int, bool>, actions: seq<Action>, s: Sys, t: nat, told: bool)
    requires SysInv(s) && Live(s, t) && s.txs[t].pc.Ready?
    ensures var s' := Act(s, Commitment(t, told)); Explained(warehouses, actions, s', t, s'.txs[t])
    ensures s.txs[t].work.Settlement? && told ==>
              Entry(t, SettleEv(s.txs[t].work.id, s.txs[t].work.op, s.txs[t].work.reason), true) in Act(s, Commitment(t, told)).log
  {
    var tx := s.txs[t];
    CommitKeeps(s, t, told);
    if tx.work.Settlement? {
      SettledStatus(s.db, LocksOf(s.locks, t), tx);
    }
  }

  lemma SettledStatus(db: Db, held: set<Res>, tx: Tx)
    requires tx.work.Settlement? && tx.pc.Ready? && TxInv(db, held, tx)
    ensures StatusOf(Publish(db, tx.w), tx.work.id) == Some(StatusAfter(tx.work.op))
  {
    assert LinesReady(db, held, tx.work, tx.pc.wh, tx.pc.ls, tx.w);
  }

  lemma MovedExplained(warehouses: map<int, bool>, actions: seq<Action>, s: Sys, t: nat)
    requires actions != [] && s == StateAt(warehouses, actions, |actions| - 1)
    requires SysInv(s) && Live(s, t)
    requires Explained(warehouses, actions[..|actions| - 1], s, t, s.txs[t])
    ensures var s' := Act(s, Run(t)); Explained(warehouses, actions, s', t, s'.txs[t])
  {
    if s.txs[t].pc.Ready? {
      Commits(warehouses, actions, s, t, true);
    } else {
      RunMoves(s, t);
      RunKeeps(s, t);
      RunExplained(warehouses, actions, s, t);
      SameExplained(warehouses, actions, s, Act(s, Run(t)), t, Act(s, Run(t)).txs[t]);
    }
  }

  ghost predicate AllExplained(warehouses: map<int, bool>, actions: seq<Action>, s: Sys) {
    forall t | t in s.txs :: Explained(warehouses, actions, s, t, s.txs[t])
  }

  // An action moves no other transaction, and only Run leaves more than an error behind.
  lemma OthersRest(s: Sys, a: Action, t: nat)
    requires t in Act(s, a).txs && !(a == Run(t) && Live(s, t))
    ensures (t in s.txs && Act(s, a).txs[t] == s.txs[t]) || Plainly(Act(s, a).txs[t].pc)
  {
  }

  predicate Plainly(pc: Pc) {
    pc.Claim? || pc.LockHead? || pc.ClaimCommand? || pc == Done(Failed(StorageError))
  }

  lemma PlainlyExplained(warehouses: map<int, bool>, actions: seq<Action>, s: Sys, t: nat, tx: Tx)
    requires Plainly(tx.pc)
    ensures Explained(warehouses, actions, s, t, tx)
  {
  }

  lemma ActExplained(warehouses: map<int, bool>, actions: seq<Action>, s: Sys, t: nat)
    requires actions != [] && s == StateAt(warehouses, actions, |actions| - 1)
    requires SysInv(s) && AllExplained(warehouses, actions[..|actions| - 1], s)
    requires t in Act(s, actions[|actions| - 1]).txs
    ensures var s' := Act(s, actions[|actions| - 1]); Explained(warehouses, actions, s', t, s'.txs[t])
  {
    var a := actions[|actions| - 1];
    var s' := Act(s, a);
    if a == Run(t) && Live(s, t) {
      MovedExplained(warehouses, actions, s, t);
    } else {
      OthersRest(s, a, t);
      if Plainly(s'.txs[t].pc) {
        PlainlyExplained(warehouses, actions, s', t, s'.txs[t]);
      } else {
        ActLater(s, a);
        assert TxInv(s.db, LocksOf(s.locks, t), s.txs[t]);
        ExplainedStays(warehouses, actions, s, s', t, s.txs[t]);
      }
    }
  }

  lemma {:induction false} EveryAnswerExplained(warehouses: map<int, bool>, actions: seq<Action>)
    ensures AllExplained(warehouses, actions, Execute(Boot(warehouses), actions))
  {
    if actions != [] {
      var n := |actions| - 1;
      var s := Execute(Boot(warehouses), actions[..n]);
      EveryScheduleIsSerial(warehouses, actions[..n]);
      EveryAnswerExplained(warehouses, actions[..n]);
      forall t | t in Act(s, actions[n]).txs ensures Explained(warehouses, actions, Act(s, actions[n]), t, Act(s, actions[n]).txs[t]) {
        ActExplained(warehouses, actions, s, t);
      }
    }
  }

  // A booking refused for want of stock, on any schedule, was refused on what it saw: the SKUs it
  // calls unknown had no row anywhere; its shortages are real ones, of the lowest active warehouse
  // at a moment when no active warehouse covered the basket, or of the warehouse it had chosen while
  // it held all the rows of the basket there. Only the second kind may leave another warehouse that
  // would have done.
  lemma RefusalsHaveCause(warehouses: map<int, bool>, actions: seq<Action>, t: nat)
    requires var s := Execute(Boot(warehouses), actions);
             t in s.txs && s.txs[t].work.Booking? && s.txs[t].pc.Done? && s.txs[t].pc.reply.Failed?
    ensures RefusalExplained(warehouses, actions, t, Execute(Boot(warehouses), actions).txs[t].pc.reply.why)
  {
    EveryAnswerExplained(warehouses, actions);
  }

  // A Release or Commit that answers done has taken its effect, or found it taken, or was a Release
  // of a reservation that did not exist at that moment; a Commit answers not found only then.
  lemma SettlementsHaveCause(warehouses: map<int, bool>, actions: seq<Action>, t: nat)
    requires var s := Execute(Boot(warehouses), actions); t in s.txs && s.txs[t].work.Settlement? && s.txs[t].pc.Done?
    ensures var s := Execute(Boot(warehouses), actions);
            SettlementExplained(warehouses, actions, s, t, s.txs[t].work, s.txs[t].pc.reply)
  {
    EveryAnswerExplained(warehouses, actions);
  }

  // In one statement: what makes a settlement answer done is its own commit, or the status it reads,
  // or, for a Release, that there is nothing to release.
  lemma DoneAtOnce(s: Sys, t: nat)
    requires SysInv(s) && Live(s, t) && s.txs[t].work.Settlement?
    requires Act(s, Run(t)).txs[t].pc == Done(Settled(StatusAfter(s.txs[t].work.op)))
    ensures var Settlement(id, op, reason) := s.txs[t].work;
            || Act(s, Run(t)).log == s.log + [Entry(t, SettleEv(id, op, reason), true)]
            || (Act(s, Run(t)).log == s.log && StatusOf(s.db, id) == Some(StatusAfter(op)))
            || (Act(s, Run(t)).log == s.log && op == Unhold && id !in s.db.headers)
  {
    if s.txs[t].pc.Ready? {
      CommitKeeps(s, t, true);
    } else {
      RunMoves(s, t);
      RunKeeps(s, t);
      if s.txs[t].pc.LockHead? { HeadRuns(s, t); } else { OthersDoNotSettle(s.db, s.locks, t, s.txs[t]); }
    }
  }

  // Which warehouse a new hold gets -------------------------------------------------------------------------

  // At its scan wh is the least active warehouse that has the basket.
  ghost predicate ScanFindsLeast(s: Sys, t: nat, items: seq<Item>, wh: int) {
    && t in s.txs && s.txs[t].work.Booking? && s.txs[t].work.items == items && s.txs[t].pc == Scan
    && LeastServing(s.db, wh, items)
  }

  ghost predicate ScannedLeast(warehouses: map<int, bool>, actions: seq<Action>, t: nat, items: seq<Item>, wh: int) {
    exists k :: 0 <= k <= |actions| && ScanFindsLeast(StateAt(warehouses, actions, k), t, items, wh)
  }

  // The whole basket in one warehouse, which the booking's own scan found to be the least that covers.
  ghost predicate HoldExplained(warehouses: map<int, bool>, actions: seq<Action>, t: nat, items: seq<Item>, ls: seq<Allocation>) {
    exists wh :: ScannedLeast(warehouses, actions, t, items, wh) && ls == AllocateFrom(items, wh)
  }

  predicate FreshHold(pc: Pc) {
    pc.Done? && pc.reply.Held? && !pc.reply.replayed
  }

  ghost predicate Traced(warehouses: map<int, bool>, actions: seq<Action>, t: nat, tx: Tx) {
    tx.work.Booking? ==>
      && (Target(tx.pc).Some? ==> ScannedLeast(warehouses, actions, t, tx.work.items, Target(tx.pc).value))
      && (FreshHold(tx.pc) ==> HoldExplained(warehouses, actions, t, tx.work.items, tx.pc.reply.allocations))
  }

  lemma LeastStays(warehouses: map<int, bool>, actions: seq<Action>, t: nat, items: seq<Item>, wh: int)
    requires actions != [] && ScannedLeast(warehouses, actions[..|actions| - 1], t, items, wh)
    ensures ScannedLeast(warehouses, actions, t, items, wh)
  {
    var front := actions[..|actions| - 1];
    var k: nat :| 0 <= k <= |front| && ScanFindsLeast(StateAt(warehouses, front, k), t, items, wh);
    StateBefore(warehouses, actions, k);
    assert ScanFindsLeast(StateAt(warehouses, actions, k), t, items, wh);
  }

  lemma TracedStays(warehouses: map<int, bool>, actions: seq<Action>, t: nat, tx: Tx)
    requires actions != [] && Traced(warehouses, actions[..|actions| - 1], t, tx)
    ensures Traced(warehouses, actions, t, tx)
  {
    if tx.work.Booking? {
      var front := actions[..|actions| - 1];
      if Target(tx.pc).Some? { LeastStays(warehouses, actions, t, tx.work.items, Target(tx.pc).value); }
      if FreshHold(tx.pc) {
        var wh :| ScannedLeast(warehouses, front, t, tx.work.items, wh) && tx.pc.reply.allocations == AllocateFrom(tx.work.items, wh);
        LeastStays(warehouses, actions, t, tx.work.items, wh);
      }
    }
  }

  lemma LeastSeen(warehouses: map<int, bool>, actions: seq<Action>, s: Sys, t: nat, wh: int)
    requires actions != [] && s == StateAt(warehouses, actions, |actions| - 1)
    requires Live(s, t) && s.txs[t].pc.Scan?
    requires FirstFulfilling(s.db.balances, ActiveIds(s.db.warehouses), s.txs[t].work.items) == Some(wh)
    ensures ScannedLeast(warehouses, actions, t, s.txs[t].work.items, wh)
  {
    var n: nat := |actions| - 1;
    ChoiceIs(s.db, s.txs[t].work.items);
    assert ScanFindsLeast(StateAt(warehouses, actions, n), t, s.txs[t].work.items, wh);
  }

  lemma RunTraced(warehouses: map<int, bool>, actions: seq<Action>, s: Sys, t: nat)
    requires actions != [] && s == StateAt(warehouses, actions, |actions| - 1)
    requires Live(s, t) && !s.txs[t].pc.Ready? && Traced(warehouses, actions[..|actions| - 1], t, s.txs[t])
    ensures Traced(warehouses, actions, t, NextTx(Advance(s.db, s.locks, t, s.txs[t]), s.txs[t]))
  {
    var tx := s.txs[t];
    if tx.work.Booking? {
      var pc := NextTx(Advance(s.db, s.locks, t, tx), tx).pc;
      KeepsTarget(s.db, s.locks, t, tx);
      UndoIsNotFresh(s.db, s.locks, t, tx);
      OnlyReadyFinishes(s.db, s.locks, t, tx);
      if Target(pc).Some? {
        if tx.pc.Scan? {
          LeastSeen(warehouses, actions, s, t, Target(pc).value);
        } else {
          LeastStays(warehouses, actions, t, tx.work.items, Target(pc).value);
        }
      }
    }
  }

  lemma ReadyTraced(warehouses: map<int, bool>, actions: seq<Action>, s: Sys, t: nat, tx: Tx, told: bool)
    requires actions != [] && Traced(warehouses, actions[..|actions| - 1], t, tx)
    requires TxInv(s.db, LocksOf(s.locks, t), tx) && tx.pc.Ready?
    ensures Traced(warehouses, actions, t, Tx(tx.work, Done(Received(SuccessOf(tx.work, tx.pc.ls), told)), NO_WRITES))
  {
    if tx.work.Booking? {
      assert LinesReady(s.db, LocksOf(s.locks, t), tx.work, tx.pc.wh, tx.pc.ls, tx.w);
      LeastStays(warehouses, actions, t, tx.work.items, tx.pc.wh);
    }
  }

  lemma MovedTraced(warehouses: map<int, bool>, actions: seq<Action>, s: Sys, t: nat)
    requires actions != [] && s == StateAt(warehouses, actions, |actions| - 1)
    requires SysInv(s) && Live(s, t) && Traced(warehouses, actions[..|actions| - 1], t, s.txs[t])
    ensures Traced(warehouses, actions, t, Act(s, Run(t)).txs[t])
  {
    if s.txs[t].pc.Ready? {
      CommitKeeps(s, t, true);
      ReadyTraced(warehouses, actions, s, t, s.txs[t], true);
    } else {
      RunMoves(s, t);
      RunTraced(warehouses, actions, s, t);
    }
  }

  ghost predicate AllTraced(warehouses: map<int, bool>, actions: seq<Action>, s: Sys) {
    forall t | t in s.txs :: Traced(warehouses, actions, t, s.txs[t])
  }

  lemma ActTraced(warehouses: map<int, bool>, actions: seq<Action>, s: Sys, t: nat)
    requires actions != [] && s == StateAt(warehouses, actions, |actions| - 1) && SysInv(s)
    requires AllTraced(warehouses, actions[..|actions| - 1], s)
    requires t in Act(s, actions[|actions| - 1]).txs
    ensures Traced(warehouses, actions, t, Act(s, actions[|actions| - 1]).txs[t])
  {
    var a := actions[|actions| - 1];
    if a == Run(t) && Live(s, t) {
      MovedTraced(warehouses, actions, s, t);
    } else {
      OthersRest(s, a, t);
      if !Plainly(Act(s, a).txs[t].pc) { TracedStays(warehouses, actions, t, s.txs[t]); }
    }
  }

  lemma {:induction false} EveryHoldTraced(warehouses: map<int, bool>, actions: seq<Action>)
    ensures AllTraced(warehouses, actions, Execute(Boot(warehouses), actions))
  {
    if actions != [] {
      var n := |actions| - 1;
      var s := Execute(Boot(warehouses), actions[..n]);
      EveryScheduleIsSerial(warehouses, actions[..n]);
      EveryHoldTraced(warehouses, actions[..n]);
      forall t | t in Act(s, actions[n]).txs ensures Traced(warehouses, actions, t, Act(s, actions[n]).txs[t]) {
        ActTraced(warehouses, actions, s, t);
      }
    }
  }

  // A booking answered with a new hold has its whole basket in one warehouse, under every schedule: the
  // one that was, when the booking scanned, the least active warehouse covering the basket.
  lemma HoldsHaveCause(warehouses: map<int, bool>, actions: seq<Action>, t: nat)
    requires var s := Execute(Boot(warehouses), actions); t in s.txs && s.txs[t].work.Booking? && FreshHold(s.txs[t].pc)
    ensures var tx := Execute(Boot(warehouses), actions).txs[t];
            HoldExplained(warehouses, actions, t, tx.work.items, tx.pc.reply.allocations)
  {
    EveryHoldTraced(warehouses, actions);
  }
}
