/** The whole system: what every schedule keeps, and what it amounts to. */
module Concurrency {
  import opened CommandIds
  import opened Tables
  import opened Posting
  import opened Invariants
  import opened Preservation
  import opened Ledger
  import opened Columns
  import opened Commands
  import opened Machine
  import opened Interleaving
  import opened Progress
  import opened Refinement
  import Collections

  function LocksOf(locks: map<Res, nat>, t: nat): set<Res> {
    set r | r in locks && locks[r] == t
  }

  ghost predicate AllTxs(db: Db, locks: map<Res, nat>, txs: map<nat, Tx>) {
    && (forall r | r in locks :: locks[r] in txs)
    && (forall t | t in txs :: TxInv(db, LocksOf(locks, t), txs[t]))
  }

  ghost predicate SysInv(s: Sys) {
    Inv(s.db) && AllTxs(s.db, s.locks, s.txs)
  }

  // Locks ------------------------------------------------------------------------------------

  lemma HeldAfterGet(locks: map<Res, nat>, t: nat, got: Option<Res>, u: nat)
    requires got.Some? ==> !Taken(locks, t, got.value)
    ensures LocksOf(if got.Some? then locks[got.value := t] else locks, u)
         == if u == t then With(LocksOf(locks, t), got) else LocksOf(locks, u)
  {
  }

  lemma HeldAfterFree(locks: map<Res, nat>, t: nat, u: nat)
    ensures LocksOf(Free(locks, t), u) == if u == t then {} else LocksOf(locks, u)
  {
  }

  // A transaction only takes what is free or already its own.
  lemma GotIsFree(db: Db, locks: map<Res, nat>, t: nat, tx: Tx)
    requires Fits(tx) && !tx.pc.Done?
    ensures var o := Advance(db, locks, t, tx); o.Go? && o.got.Some? ==> !Taken(locks, t, o.got.value)
  {
    match tx.pc
    case Post(_, _, _, _) =>
    case _ =>
  }

  // Steps ------------------------------------------------------------------------------------

  // Transaction t moves to tx, now holding held; the others hold what they held.
  lemma ReplaceTx(db: Db, locks: map<Res, nat>, locks': map<Res, nat>, txs: map<nat, Tx>, t: nat, tx: Tx)
    requires AllTxs(db, locks, txs)
    requires forall r | r in locks' :: locks'[r] == t || (r in locks && locks[r] == locks'[r])
    requires forall u | u != t :: LocksOf(locks', u) == LocksOf(locks, u)
    requires TxInv(db, LocksOf(locks', t), tx)
    ensures AllTxs(db, locks', txs[t := tx])
  {
  }

  lemma UndoKeeps(db: Db, locks: map<Res, nat>, txs: map<nat, Tx>, t: nat, tx: Tx)
    requires AllTxs(db, locks, txs) && TxInv(db, {}, tx)
    ensures AllTxs(db, Free(locks, t), txs[t := tx])
  {
    forall u: nat ensures LocksOf(Free(locks, t), u) == if u == t then {} else LocksOf(locks, u) { HeldAfterFree(locks, t, u); }
    ReplaceTx(db, locks, Free(locks, t), txs, t, tx);
  }

  lemma GoKeeps(db: Db, locks: map<Res, nat>, txs: map<nat, Tx>, t: nat, tx: Tx, got: Option<Res>)
    requires AllTxs(db, locks, txs) && (got.Some? ==> !Taken(locks, t, got.value))
    requires TxInv(db, With(LocksOf(locks, t), got), tx)
    ensures AllTxs(db, if got.Some? then locks[got.value := t] else locks, txs[t := tx])
  {
    var locks' := if got.Some? then locks[got.value := t] else locks;
    forall u: nat ensures LocksOf(locks', u) == if u == t then With(LocksOf(locks, t), got) else LocksOf(locks, u) {
      HeldAfterGet(locks, t, got, u);
    }
    ReplaceTx(db, locks, locks', txs, t, tx);
  }

  // A commit by t: the others are left standing, on the new tables.
  lemma OthersStand(db: Db, db': Db, locks: map<Res, nat>, txs: map<nat, Tx>, t: nat, w: Writes)
    requires AllTxs(db, locks, txs) && Evolves(db, db')
    requires db' == Publish(db, w) && Owned(db, LocksOf(locks, t), w)
    ensures forall u | u in txs && u != t :: TxInv(db', LocksOf(locks, u), txs[u])
  {
    forall u | u in txs && u != t ensures TxInv(db', LocksOf(locks, u), txs[u]) {
      CommitGuards(db, LocksOf(locks, t), w, LocksOf(locks, u));
      TxStays(db, db', LocksOf(locks, u), txs[u]);
    }
  }

  lemma DoneStands(db: Db, work: Work, reply: Reply)
    requires Admitted(work) && ReplyTrue(db, work, reply)
    ensures TxInv(db, {}, Tx(work, Done(reply), NO_WRITES))
  {
  }

  lemma FinishKeeps(db: Db, db': Db, locks: map<Res, nat>, txs: map<nat, Tx>, t: nat, w: Writes, tx: Tx)
    requires AllTxs(db, locks, txs) && Evolves(db, db') && t in txs
    requires db' == Publish(db, w) && Owned(db, LocksOf(locks, t), w)
    requires TxInv(db', {}, tx)
    ensures AllTxs(db', Free(locks, t), txs[t := tx])
  {
    OthersStand(db, db', locks, txs, t, w);
    forall u | u in txs[t := tx] ensures TxInv(db', LocksOf(Free(locks, t), u), txs[t := tx][u]) {
      HeldAfterFree(locks, t, u);
    }
  }

  // A Ready transaction commits ------------------------------------------------------------------

  // What the caller of a committed command gets: its answer, or an error when the answer was lost.
  function Received(reply: Reply, told: bool): Reply {
    if told then reply else Failed(StorageError)
  }

  // The action that commits a Ready transaction, with or without its answer arriving.
  function Commitment(t: nat, told: bool): Action {
    if told then Run(t) else Lose(t)
  }

  ghost predicate Commits(s: Sys, t: nat, s': Sys, ev: Event, reply: Reply, told: bool) {
    && t in s.txs && s.txs[t].pc.Ready?
    && Step(s.db, ev) == Some(s'.db)
    && Atomic(s.db, s.txs[t].work, ev, reply)
    && s'.txs == s.txs[t := Tx(s.txs[t].work, Done(Received(reply, told)), NO_WRITES)]
    && s'.log == s.log + [Entry(t, ev, told)]
  }

  lemma ReadyAdvances(s: Sys, t: nat, told: bool)
    requires Live(s, t) && s.txs[t].pc.Ready?
    ensures var tx := s.txs[t]; var Ready(wh, ls) := tx.pc;
            Act(s, Commitment(t, told)) == CommitTx(s, t, EventOf(tx.work, wh, ls), Received(SuccessOf(tx.work, ls), told), told)
  {
  }

  lemma ReadyFacts(db: Db, held: set<Res>, tx: Tx, told: bool)
    requires Inv(db) && TxInv(db, held, tx) && tx.pc.Ready?
    ensures var Ready(wh, ls) := tx.pc;
            var ev, reply, db' := EventOf(tx.work, wh, ls), SuccessOf(tx.work, ls), Publish(db, tx.w);
            && Step(db, ev) == Some(db') && Inv(db') && Evolves(db, db')
            && Atomic(db, tx.work, ev, reply)
            && TxInv(db', {}, Tx(tx.work, Done(Received(reply, told)), NO_WRITES))
            && Owned(db, held, tx.w)
  {
    var Ready(wh, ls) := tx.pc;
    var ev, db' := EventOf(tx.work, wh, ls), Publish(db, tx.w);
    ReadyCommits(db, held, tx.work, wh, ls, tx.w);
    ReadyAtomic(db, held, tx.work, wh, ls, tx.w);
    ReadyAnswer(db, held, tx.work, wh, ls, tx.w);
    ReadyOwned(db, held, tx.work, wh, ls, tx.w);
    EventKeepsInv(db, ev, db');
    EventEvolves(db, ev, db');
    DoneStands(db', tx.work, SuccessOf(tx.work, ls));
    FailureTx(db', tx.work);
  }

  lemma CommitKeeps(s: Sys, t: nat, told: bool)
    requires SysInv(s) && Live(s, t) && s.txs[t].pc.Ready?
    ensures SysInv(Act(s, Commitment(t, told)))
    ensures var Ready(wh, ls) := s.txs[t].pc;
            Commits(s, t, Act(s, Commitment(t, told)), EventOf(s.txs[t].work, wh, ls), SuccessOf(s.txs[t].work, ls), told)
  {
    var tx := s.txs[t];
    ReadyAdvances(s, t, told);
    ReadyFacts(s.db, LocksOf(s.locks, t), tx, told);
    FinishKeeps(s.db, Publish(s.db, tx.w), s.locks, s.txs, t, tx.w,
                Tx(tx.work, Done(Received(SuccessOf(tx.work, tx.pc.ls), told)), NO_WRITES));
  }

  lemma SettleKeeps(s: Sys, t: nat, o: Outcome)
    requires SysInv(s) && t in s.txs && !o.Finish?
    requires Sound(s.db, LocksOf(s.locks, t), s.txs[t].work, o)
    requires o.Go? && o.got.Some? ==> !Taken(s.locks, t, o.got.value)
    ensures SysInv(Settle(s, t, o))
    ensures Settle(s, t, o).db == s.db && Settle(s, t, o).log == s.log
  {
    match o
    case Wait(_) =>
    case Go(pc, w, got) => GoKeeps(s.db, s.locks, s.txs, t, Tx(s.txs[t].work, pc, w), got);
    case Undo(pc) => UndoKeeps(s.db, s.locks, s.txs, t, Tx(s.txs[t].work, pc, NO_WRITES));
  }

  lemma OnlyReadyFinishes(db: Db, locks: map<Res, nat>, t: nat, tx: Tx)
    requires Fits(tx) && !tx.pc.Done? && !tx.pc.Ready?
    ensures !Advance(db, locks, t, tx).Finish?
  {
  }

  // Where its next statement leaves a transaction that does not commit.
  function NextTx(o: Outcome, tx: Tx): Tx {
    match o
    case Wait(_) => tx
    case Go(pc, w, _) => Tx(tx.work, pc, w)
    case Undo(pc) => Tx(tx.work, pc, NO_WRITES)
    case Finish(_, reply) => Tx(tx.work, Done(reply), NO_WRITES)
  }

  lemma RunMoves(s: Sys, t: nat)
    requires Live(s, t) && !s.txs[t].pc.Ready?
    ensures Act(s, Run(t)).txs == s.txs[t := NextTx(Advance(s.db, s.locks, t, s.txs[t]), s.txs[t])]
  {
    OnlyReadyFinishes(s.db, s.locks, t, s.txs[t]);
  }

  lemma RunKeeps(s: Sys, t: nat)
    requires SysInv(s) && Live(s, t) && !s.txs[t].pc.Ready?
    ensures SysInv(Act(s, Run(t)))
    ensures Act(s, Run(t)).db == s.db && Act(s, Run(t)).log == s.log
  {
    var tx := s.txs[t];
    StepSound(s.db, s.locks, t, LocksOf(s.locks, t), tx);
    GotIsFree(s.db, s.locks, t, tx);
    OnlyReadyFinishes(s.db, s.locks, t, tx);
    SettleKeeps(s, t, Advance(s.db, s.locks, t, tx));
  }

  lemma AbortKeeps(s: Sys, t: nat)
    requires SysInv(s) && Live(s, t)
    ensures SysInv(Act(s, Abort(t)))
  {
    FailureTx(s.db, s.txs[t].work);
    UndoKeeps(s.db, s.locks, s.txs, t, Tx(s.txs[t].work, Done(Failed(StorageError)), NO_WRITES));
  }

  lemma BeginKeeps(s: Sys, t: nat, work: Work)
    requires SysInv(s) && t !in s.txs && Admitted(work)
    ensures SysInv(Act(s, Begin(t, work)))
  {
    assert TxInv(s.db, LocksOf(s.locks, t), Tx(work, Start(work), NO_WRITES));
    ReplaceTx(s.db, s.locks, s.locks, s.txs, t, Tx(work, Start(work), NO_WRITES));
  }

  lemma ActKeeps(s: Sys, a: Action)
    requires SysInv(s)
    ensures SysInv(Act(s, a))
  {
    match a
    case Begin(t, work) => if t !in s.txs && Admitted(work) { BeginKeeps(s, t, work); }
    case Run(t) =>
      if Live(s, t) {
        if s.txs[t].pc.Ready? { CommitKeeps(s, t, true); } else { RunKeeps(s, t); }
      }
    case Abort(t) => if Live(s, t) { AbortKeeps(s, t); }
    case Lose(t) => if Live(s, t) && s.txs[t].pc.Ready? { CommitKeeps(s, t, false); }
  }

  // The warehouse a booking is on its way with, from its scan to its commit.
  function Target(pc: Pc): Option<int> {
    match pc
    case Gather(wh) => Some(wh)
    case LockRows(wh, _, _, _) => Some(wh)
    case Post(wh, _, _, _) => Some(wh)
    case Ready(wh, _) => Some(wh)
    case _ => None
  }

  lemma PostKeepsTarget(db: Db, locks: map<Res, nat>, t: nat, tx: Tx)
    requires tx.work.Booking? && tx.pc.Post?
    ensures var pc := NextTx(PostStep(db, locks, t, tx), tx).pc; Target(pc).Some? ==> Target(pc) == Target(tx.pc)
  {
  }

  // Only the scan sets it, to the first warehouse that covers the basket.
  lemma KeepsTarget(db: Db, locks: map<Res, nat>, t: nat, tx: Tx)
    requires Fits(tx) && tx.work.Booking? && !tx.pc.Done? && !tx.pc.Ready?
    ensures var pc := NextTx(Advance(db, locks, t, tx), tx).pc;
            Target(pc).Some? ==>
              Target(pc) == if tx.pc.Scan? then FirstFulfilling(db.balances, ActiveIds(db.warehouses), tx.work.items) else Target(tx.pc)
  {
    if tx.pc.Post? { PostKeepsTarget(db, locks, t, tx); }
  }

  // History ------------------------------------------------------------------------------------

  function Events(log: seq<Entry>): seq<Event> {
    if log == [] then [] else Events(log[..|log| - 1]) + [log[|log| - 1].ev]
  }

  lemma EventsSnoc(log: seq<Entry>, e: Entry)
    ensures Events(log + [e]) == Events(log) + [e.ev]
  {
    Collections.Snoc(log, e);
  }

  // Replies that only a commit gives.
  predicate FreshReply(reply: Reply) {
    (reply.Held? && !reply.replayed) || reply == Applied(true)
  }

  // On at, work committed ev as one atomic command, and its caller got given: the command's own
  // answer, or an error if the answer was lost.
  ghost predicate Gave(at: Db, work: Work, ev: Event, told: bool, given: Reply) {
    exists reply :: Atomic(at, work, ev, reply) && given == Received(reply, told)
  }

  // The i-th commit is the atomic command of its transaction, on the state left by the commits
  // before it, with what that transaction answered.
  ghost predicate SerialAt(init: Db, log: seq<Entry>, txs: map<nat, Tx>, i: nat)
    requires i < |log|
  {
    && log[i].t in txs && txs[log[i].t].pc.Done?
    && var at := Replay(init, Events(log[..i]));
       at.Some? && Gave(at.value, txs[log[i].t].work, log[i].ev, log[i].told, txs[log[i].t].pc.reply)
  }

  ghost predicate Logged(log: seq<Entry>, t: nat) {
    exists i :: 0 <= i < |log| && log[i].t == t
  }

  ghost predicate SerialLog(init: Db, log: seq<Entry>, txs: map<nat, Tx>) {
    && (forall i | 0 <= i < |log| :: SerialAt(init, log, txs, i))
    && (forall i, j | 0 <= i < j < |log| :: log[i].t != log[j].t)
    && (forall t | t in txs && txs[t].pc.Done? && FreshReply(txs[t].pc.reply) :: Logged(log, t))
  }

  ghost predicate History(init: Db, s: Sys) {
    Replay(init, Events(s.log)) == Some(s.db) && SerialLog(init, s.log, s.txs)
  }

  // Nothing a transaction has answered is ever taken back.
  ghost predicate Settles(txs: map<nat, Tx>, txs': map<nat, Tx>) {
    forall t | t in txs && txs[t].pc.Done? :: t in txs' && txs'[t] == txs[t]
  }

  lemma SerialStays(init: Db, log: seq<Entry>, log': seq<Entry>, txs: map<nat, Tx>, txs': map<nat, Tx>, i: nat)
    requires i < |log| <= |log'| && log'[..i] == log[..i] && log'[i] == log[i]
    requires SerialAt(init, log, txs, i) && Settles(txs, txs')
    ensures SerialAt(init, log', txs', i)
  {
  }

  // A transaction moves without committing.
  lemma QuietLog(init: Db, log: seq<Entry>, txs: map<nat, Tx>, t: nat, tx: Tx)
    requires SerialLog(init, log, txs)
    requires t in txs ==> !txs[t].pc.Done?
    requires tx.pc.Done? ==> !FreshReply(tx.pc.reply)
    ensures SerialLog(init, log, txs[t := tx])
  {
    var txs' := txs[t := tx];
    forall i | 0 <= i < |log| ensures SerialAt(init, log, txs', i) {
      SerialStays(init, log, log, txs, txs', i);
    }
  }

  lemma LogGrows(log: seq<Entry>, e: Entry, i: nat)
    requires i < |log|
    ensures (log + [e])[..i] == log[..i] && (log + [e])[i] == log[i]
  {
  }

  lemma LoggedStays(log: seq<Entry>, e: Entry, t: nat)
    requires Logged(log, t) || e.t == t
    ensures Logged(log + [e], t)
  {
    if e.t == t {
      assert (log + [e])[|log|].t == t;
    } else {
      var i :| 0 <= i < |log| && log[i].t == t;
      assert (log + [e])[i].t == t;
    }
  }

  lemma GrownReplay(init: Db, log: seq<Entry>, db: Db, e: Entry, db': Db)
    requires Replay(init, Events(log)) == Some(db) && Step(db, e.ev) == Some(db')
    ensures Replay(init, Events(log + [e])) == Some(db')
  {
    EventsSnoc(log, e);
    ReplaySnoc(init, Events(log), db, e.ev);
  }

  lemma SerialLast(init: Db, log: seq<Entry>, txs: map<nat, Tx>, e: Entry, at: Db)
    requires Replay(init, Events(log)) == Some(at)
    requires e.t in txs && txs[e.t].pc.Done? && Gave(at, txs[e.t].work, e.ev, e.told, txs[e.t].pc.reply)
    ensures SerialAt(init, log + [e], txs, |log|)
  {
    Collections.Snoc(log, e);
  }

  lemma GrownSerial(init: Db, log: seq<Entry>, txs: map<nat, Tx>, txs': map<nat, Tx>, e: Entry)
    requires forall i | 0 <= i < |log| :: SerialAt(init, log, txs, i)
    requires Settles(txs, txs') && SerialAt(init, log + [e], txs', |log|)
    ensures forall i | 0 <= i < |log + [e]| :: SerialAt(init, log + [e], txs', i)
  {
    forall i | 0 <= i < |log| ensures SerialAt(init, log + [e], txs', i) {
      LogGrows(log, e, i);
      SerialStays(init, log, log + [e], txs, txs', i);
    }
  }

  lemma GrownDistinct(init: Db, log: seq<Entry>, txs: map<nat, Tx>, e: Entry)
    requires forall i | 0 <= i < |log| :: SerialAt(init, log, txs, i)
    requires forall i, j | 0 <= i < j < |log| :: log[i].t != log[j].t
    requires e.t in txs && !txs[e.t].pc.Done?
    ensures forall i, j | 0 <= i < j < |log + [e]| :: (log + [e])[i].t != (log + [e])[j].t
  {
    forall i | 0 <= i < |log| ensures log[i].t != e.t { assert SerialAt(init, log, txs, i); }
  }

  lemma GrownLogged(log: seq<Entry>, txs: map<nat, Tx>, txs': map<nat, Tx>, e: Entry)
    requires forall t | t in txs && txs[t].pc.Done? && FreshReply(txs[t].pc.reply) :: Logged(log, t)
    requires forall t | t in txs' && t != e.t :: t in txs && txs'[t] == txs[t]
    ensures forall t | t in txs' && txs'[t].pc.Done? && FreshReply(txs'[t].pc.reply) :: Logged(log + [e], t)
  {
    forall t | t in txs' && txs'[t].pc.Done? && FreshReply(txs'[t].pc.reply) ensures Logged(log + [e], t) {
      LoggedStays(log, e, t);
    }
  }

  lemma CommitLog(init: Db, log: seq<Entry>, txs: map<nat, Tx>, e: Entry, tx: Tx)
    requires SerialLog(init, log, txs) && e.t in txs && !txs[e.t].pc.Done?
    requires SerialAt(init, log + [e], txs[e.t := tx], |log|)
    ensures SerialLog(init, log + [e], txs[e.t := tx])
  {
    GrownSerial(init, log, txs, txs[e.t := tx], e);
    GrownDistinct(init, log, txs, e);
    GrownLogged(log, txs, txs[e.t := tx], e);
  }

  lemma CommitHistory(init: Db, s: Sys, t: nat, told: bool)
    requires SysInv(s) && History(init, s) && Live(s, t) && s.txs[t].pc.Ready?
    ensures History(init, Act(s, Commitment(t, told)))
  {
    CommitKeeps(s, t, told);
    var Ready(wh, ls) := s.txs[t].pc;
    var e := Entry(t, EventOf(s.txs[t].work, wh, ls), told);
    var s' := Act(s, Commitment(t, told));
    GaveOf(s.db, s.txs[t].work, e.ev, SuccessOf(s.txs[t].work, ls), told);
    SerialLast(init, s.log, s'.txs, e, s.db);
    CommitLog(init, s.log, s.txs, e, s'.txs[t]);
    GrownReplay(init, s.log, s.db, e, s'.db);
  }

  lemma GaveOf(at: Db, work: Work, ev: Event, reply: Reply, told: bool)
    requires Atomic(at, work, ev, reply)
    ensures Gave(at, work, ev, told, Received(reply, told))
  {
  }

  lemma PostIsNotFresh(db: Db, locks: map<Res, nat>, t: nat, tx: Tx)
    requires tx.pc.Post?
    ensures var o := PostStep(db, locks, t, tx); (o.Undo? && o.pc.Done? ==> !FreshReply(o.pc.reply)) && (o.Go? ==> !o.pc.Done?)
  {
  }

  // Without a commit no transaction answers as if it had committed.
  lemma UndoIsNotFresh(db: Db, locks: map<Res, nat>, t: nat, tx: Tx)
    requires Fits(tx) && !tx.pc.Done?
    ensures var o := Advance(db, locks, t, tx); o.Undo? && o.pc.Done? ==> !FreshReply(o.pc.reply)
    ensures var o := Advance(db, locks, t, tx); o.Go? ==> !o.pc.Done?
  {
    if tx.pc.Post? { PostIsNotFresh(db, locks, t, tx); }
  }

  lemma SettleLog(init: Db, s: Sys, t: nat, o: Outcome)
    requires SerialLog(init, s.log, s.txs) && t in s.txs && !s.txs[t].pc.Done? && !o.Finish?
    requires o.Undo? && o.pc.Done? ==> !FreshReply(o.pc.reply)
    requires o.Go? ==> !o.pc.Done?
    ensures SerialLog(init, s.log, Settle(s, t, o).txs)
  {
    match o
    case Wait(_) =>
    case Go(pc, w, _) => QuietLog(init, s.log, s.txs, t, Tx(s.txs[t].work, pc, w));
    case Undo(pc) => QuietLog(init, s.log, s.txs, t, Tx(s.txs[t].work, pc, NO_WRITES));
  }

  lemma RunHistory(init: Db, s: Sys, t: nat)
    requires SysInv(s) && History(init, s) && Live(s, t) && !s.txs[t].pc.Ready?
    ensures History(init, Act(s, Run(t)))
  {
    RunKeeps(s, t);
    UndoIsNotFresh(s.db, s.locks, t, s.txs[t]);
    OnlyReadyFinishes(s.db, s.locks, t, s.txs[t]);
    SettleLog(init, s, t, Advance(s.db, s.locks, t, s.txs[t]));
  }

  lemma BeginHistory(init: Db, s: Sys, t: nat, work: Work)
    requires History(init, s)
    ensures History(init, Act(s, Begin(t, work)))
  {
    if t !in s.txs && Admitted(work) { QuietLog(init, s.log, s.txs, t, Tx(work, Start(work), NO_WRITES)); }
  }

  lemma AbortHistory(init: Db, s: Sys, t: nat)
    requires History(init, s)
    ensures History(init, Act(s, Abort(t)))
  {
    if Live(s, t) { QuietLog(init, s.log, s.txs, t, Tx(s.txs[t].work, Done(Failed(StorageError)), NO_WRITES)); }
  }

  lemma ActHistory(init: Db, s: Sys, a: Action)
    requires SysInv(s) && History(init, s)
    ensures History(init, Act(s, a))
  {
    match a
    case Begin(t, work) => BeginHistory(init, s, t, work);
    case Abort(t) => AbortHistory(init, s, t);
    case Run(t) =>
      if Live(s, t) {
        if s.txs[t].pc.Ready? { CommitHistory(init, s, t, true); } else { RunHistory(init, s, t); }
      }
    case Lose(t) => if Live(s, t) && s.txs[t].pc.Ready? { CommitHistory(init, s, t, false); }
  }

  lemma BootIsSound(warehouses: map<int, bool>)
    ensures SysInv(Boot(warehouses)) && History(EmptyDb(warehouses), Boot(warehouses))
  {
    InvInit(warehouses);
  }

  // Any number of transactions, any schedule, aborts anywhere, answers lost anywhere: the committed
  // tables are those of the logged events run one after the other; each logged event is the atomic
  // command of its own transaction, with the answer given or lost; and no transaction is logged
  // twice or, having reported a new hold or an applied command, not at all.
  lemma {:induction false} EveryScheduleIsSerial(warehouses: map<int, bool>, actions: seq<Action>)
    ensures SysInv(Execute(Boot(warehouses), actions))
    ensures History(EmptyDb(warehouses), Execute(Boot(warehouses), actions))
  {
    if actions == [] {
      BootIsSound(warehouses);
    } else {
      var n := |actions| - 1;
      EveryScheduleIsSerial(warehouses, actions[..n]);
      var s := Execute(Boot(warehouses), actions[..n]);
      ActKeeps(s, actions[n]);
      ActHistory(EmptyDb(warehouses), s, actions[n]);
    }
  }

  // An atomic command that commits succeeds.
  lemma AtomicSucceeds(db: Db, work: Work, ev: Event, reply: Reply)
    requires Atomic(db, work, ev, reply)
    ensures !reply.Failed?
  {
  }

  // A remark: a logged transaction answers with an error exactly when its answer was lost.
  lemma OnlyLostAnswersFail(warehouses: map<int, bool>, actions: seq<Action>, i: nat)
    requires i < |Execute(Boot(warehouses), actions).log|
    ensures var s := Execute(Boot(warehouses), actions);
            && s.log[i].t in s.txs && s.txs[s.log[i].t].pc.Done?
            && (s.txs[s.log[i].t].pc.reply.Failed? <==> !s.log[i].told)
  {
    EveryScheduleIsSerial(warehouses, actions);
    var s := Execute(Boot(warehouses), actions);
    var init := EmptyDb(warehouses);
    assert SerialAt(init, s.log, s.txs, i);
    var at := Replay(init, Events(s.log[..i])).value;
    var tx := s.txs[s.log[i].t];
    var reply :| Atomic(at, tx.work, s.log[i].ev, reply) && tx.pc.reply == Received(reply, s.log[i].told);
    AtomicSucceeds(at, tx.work, s.log[i].ev, reply);
  }

  lemma {:induction false} EventsAt(log: seq<Entry>, i: nat)
    requires i < |log|
    ensures |Events(log)| == |log| && Events(log)[i] == log[i].ev
  {
    var n := |log| - 1;
    if n == 0 {
      assert log[..0] == [];
    } else {
      EventsAt(log[..n], if i < n then i else 0);
    }
  }

  // However transactions race, redeliver and abort: a reservation id is booked at most once, an
  // order at most once, a reservation settled at most once, an admin command applied at most once.
  lemma NothingTwice(warehouses: map<int, bool>, actions: seq<Action>, i: nat, j: nat)
    requires i < j < |Execute(Boot(warehouses), actions).log|
    ensures var log := Execute(Boot(warehouses), actions).log; !SameSubject(log[i].ev, log[j].ev)
  {
    EveryScheduleIsSerial(warehouses, actions);
    var log := Execute(Boot(warehouses), actions).log;
    EventsAt(log, i);
    EventsAt(log, j);
    InvInit(warehouses);
    OncePerRun(EmptyDb(warehouses), Events(log), i, j);
  }

  // Whatever a transaction has answered is true of the committed tables from then on.
  lemma AnswersStayTrue(warehouses: map<int, bool>, actions: seq<Action>, t: nat)
    requires var s := Execute(Boot(warehouses), actions); t in s.txs && s.txs[t].pc.Done?
    ensures var s := Execute(Boot(warehouses), actions); ReplyTrue(s.db, s.txs[t].work, s.txs[t].pc.reply)
  {
    EveryScheduleIsSerial(warehouses, actions);
    var s := Execute(Boot(warehouses), actions);
    assert TxInv(s.db, LocksOf(s.locks, t), s.txs[t]);
  }

  lemma {:induction false} MovedAt(balances: map<Key, Balance>, op: Op, ls: seq<Allocation>, i: nat)
    requires DistinctSkus(ls) && i < |ls|
    ensures var k := Key(ls[i].sku, ls[i].wh);
            k in MovedRows(balances, op, ls) && MovedRows(balances, op, ls)[k] == Shifted(op, BalanceAt(balances, k), ls[i].qty)
  {
    var n := |ls| - 1;
    if i < n {
      assert ls[..n][i] == ls[i];
      MovedAt(balances, op, ls[..n], i);
      assert ls[i].sku != ls[n].sku;
    }
  }

  // What a booking publishes leaves the safety stock of its rows alone.
  lemma PublishKeepsSafety(db: Db, held: set<Res>, tx: Tx, i: nat)
    requires tx.work.Booking? && tx.pc.Ready? && TxInv(db, held, tx) && i < |tx.work.items|
    ensures Gives(db.balances, Key(tx.work.items[i].sku, tx.pc.wh), tx.work.items[i].qty)
    ensures KeepsSafety(Publish(db, tx.w).balances, Key(tx.work.items[i].sku, tx.pc.wh))
  {
    var Ready(wh, ls) := tx.pc;
    var k := Key(tx.work.items[i].sku, wh);
    assert LinesReady(db, held, tx.work, wh, ls, tx.w);
    assert Covered(db.balances, held, wh, tx.work.items[i]);
    AtpIs(db.balances, k);
    PlanDistinct(db, held, tx.work, wh, ls);
    Collections.Whole(ls);
    MovedAt(db.balances, Hold, ls, i);
  }

  // The re-check under the locks is what applyReserve's unchecked row counts lean on: whenever a
  // booking is about to update a balance row, that row exists, is locked by this transaction, and
  // the update passes its CHECK; and when it is about to commit, every line's row still has the units
  // beyond what is reserved and kept for safety, and keeps its safety stock when the hold is published.
  lemma LockedRecheckSuffices(s: Sys, t: nat)
    requires SysInv(s) && Live(s, t) && s.txs[t].work.Booking?
    ensures var tx := s.txs[t];
            tx.pc.Post? && tx.pc.n < |tx.pc.ls| && tx.pc.stage == Shift ==>
              var k := Key(tx.pc.ls[tx.pc.n].sku, tx.pc.ls[tx.pc.n].wh);
              && k in s.db.balances && BalanceRow(k) in s.locks && s.locks[BalanceRow(k)] == t
              && Advance(s.db, s.locks, t, tx).Go?
              && Advance(s.db, s.locks, t, tx).w.balances
                 == tx.w.balances[k := Shifted(Hold, s.db.balances[k], tx.pc.ls[tx.pc.n].qty)]
    ensures var tx := s.txs[t];
            tx.pc.Ready? ==> forall i | 0 <= i < |tx.work.items| ::
              && Covered(s.db.balances, LocksOf(s.locks, t), tx.pc.wh, tx.work.items[i])
              && Gives(s.db.balances, Key(tx.work.items[i].sku, tx.pc.wh), tx.work.items[i].qty)
              && KeepsSafety(Publish(s.db, tx.w).balances, Key(tx.work.items[i].sku, tx.pc.wh))
  {
    var tx := s.txs[t];
    var held := LocksOf(s.locks, t);
    assert TxInv(s.db, held, tx);
    if tx.pc.Post? && tx.pc.n < |tx.pc.ls| && tx.pc.stage == Shift {
      BookingShifts(s.db, s.locks, t, tx);
    }
    if tx.pc.Ready? {
      forall i | 0 <= i < |tx.work.items|
        ensures Covered(s.db.balances, held, tx.pc.wh, tx.work.items[i])
        ensures Gives(s.db.balances, Key(tx.work.items[i].sku, tx.pc.wh), tx.work.items[i].qty)
        ensures KeepsSafety(Publish(s.db, tx.w).balances, Key(tx.work.items[i].sku, tx.pc.wh))
      {
        PublishKeepsSafety(s.db, held, tx, i);
      }
    }
  }

  lemma BookingShifts(db: Db, locks: map<Res, nat>, t: nat, tx: Tx)
    requires Inv(db) && tx.work.Booking? && Admitted(tx.work)
    requires tx.pc.Post? && tx.pc.n < |tx.pc.ls| && tx.pc.stage == Shift
    requires PostingInv(db, LocksOf(locks, t), tx.work, tx.w, tx.pc.wh, tx.pc.ls, tx.pc.n, Shift)
    ensures var k := Key(tx.pc.ls[tx.pc.n].sku, tx.pc.ls[tx.pc.n].wh);
            && k in db.balances && BalanceRow(k) in locks && locks[BalanceRow(k)] == t
            && ShiftStep(db, locks, t, tx).Go?
            && ShiftStep(db, locks, t, tx).w.balances == tx.w.balances[k := Shifted(Hold, db.balances[k], tx.pc.ls[tx.pc.n].qty)]
  {
    var Post(wh, ls, n, _) := tx.pc;
    PlanDistinct(db, LocksOf(locks, t), tx.work, wh, ls);
    ShiftUnseen(db.balances, LocksOf(locks, t), Hold, ls, n, tx.w.balances);
    assert Covered(db.balances, LocksOf(locks, t), wh, tx.work.items[n]);
    assert db.balances[Key(ls[n].sku, wh)].Ok();
  }
}
