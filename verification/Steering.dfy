/** Schedules that bring one transaction to a chosen statement while the others stand still. */
module Steering {
  import opened CommandIds
  import opened Tables
  import opened Posting
  import opened Commands
  import opened Reservations
  import opened Machine
  import opened Interleaving
  import opened Progress
  import opened Concurrency
  import opened Alone
  import opened Deadlock
  import opened Redeem
  import Collections

  // One transaction runs ------------------------------------------------------------------------------

  // s' can be reached from s by running transaction t alone.
  ghost predicate Runs(s: Sys, t: nat, s': Sys) {
    exists n: nat :: s' == RunFor(s, t, n)
  }

  lemma RunsOn(s: Sys, t: nat, s': Sys)
    requires Runs(Act(s, Run(t)), t, s')
    ensures Runs(s, t, s')
  {
    var n: nat :| s' == RunFor(Act(s, Run(t)), t, n);
    assert s' == RunFor(s, t, n + 1);
  }

  lemma {:induction false} RunForPlus(s: Sys, t: nat, m: nat, n: nat)
    ensures RunFor(RunFor(s, t, m), t, n) == RunFor(s, t, m + n)
    decreases m
  {
    if m > 0 { RunForPlus(Act(s, Run(t)), t, m - 1, n); }
  }

  lemma RunsThen(s: Sys, t: nat, s1: Sys, s2: Sys)
    requires Runs(s, t, s1) && Runs(s1, t, s2)
    ensures Runs(s, t, s2)
  {
    var m: nat :| s1 == RunFor(s, t, m);
    var n: nat :| s2 == RunFor(s1, t, n);
    RunForPlus(s, t, m, n);
  }

  lemma RunsOnce(s: Sys, t: nat)
    ensures Runs(s, t, Act(s, Run(t))) && Runs(s, t, s)
  {
    assert RunFor(s, t, 0) == s;
    assert Act(s, Run(t)) == RunFor(Act(s, Run(t)), t, 0) == RunFor(s, t, 1);
  }

  // A transaction's statements move nobody else and leave the others' locks.
  ghost predicate Beside(s: Sys, s': Sys, u: nat) {
    && u in s.txs && u in s'.txs && s'.txs[u].work == s.txs[u].work
    && (forall v | v != u :: (v in s'.txs <==> v in s.txs) && (v in s.txs ==> s'.txs[v] == s.txs[v]))
    && Free(s'.locks, u) == Free(s.locks, u)
  }

  lemma GotStaysFree(locks: map<Res, nat>, u: nat, got: Option<Res>)
    requires got.Some? ==> !Taken(locks, u, got.value)
    ensures Free(if got.Some? then locks[got.value := u] else locks, u) == Free(locks, u)
    ensures Free(Free(locks, u), u) == Free(locks, u)
  {
  }

  lemma SettleStays(s: Sys, u: nat, o: Outcome)
    requires u in s.txs && (o.Go? && o.got.Some? ==> !Taken(s.locks, u, o.got.value))
    ensures Beside(s, Settle(s, u, o), u)
  {
    GotStaysFree(s.locks, u, if o.Go? then o.got else None);
  }

  lemma RunStays(s: Sys, u: nat)
    requires u in s.txs
    ensures Beside(s, Act(s, Run(u)), u)
  {
    if Live(s, u) {
      GotIsFree(s.db, s.locks, u, s.txs[u]);
      SettleStays(s, u, Advance(s.db, s.locks, u, s.txs[u]));
    }
  }

  lemma {:induction false} RunForStays(s: Sys, u: nat, n: nat)
    requires u in s.txs
    ensures Beside(s, RunFor(s, u, n), u)
    decreases n
  {
    if n > 0 {
      RunStays(s, u);
      RunForStays(Act(s, Run(u)), u, n - 1);
    }
  }

  lemma {:induction false} RunForKeeps(s: Sys, u: nat, n: nat)
    requires SysInv(s)
    ensures SysInv(RunFor(s, u, n))
    decreases n
  {
    if n > 0 {
      ActKeeps(s, Run(u));
      RunForKeeps(Act(s, Run(u)), u, n - 1);
    }
  }

  lemma {:induction false} RunForPlain(s: Sys, t: nat, n: nat)
    requires Plain(s)
    ensures Plain(RunFor(s, t, n))
    decreases n
  {
    if n > 0 {
      ActPlain(s, Run(t));
      RunForPlain(Act(s, Run(t)), t, n - 1);
    }
  }

  // At its end only the others' locks are left.
  lemma EndFrees(s: Sys, s': Sys, u: nat)
    requires SysInv(s') && Beside(s, s', u) && s'.txs[u].pc.Done?
    ensures s'.locks == Free(s.locks, u)
  {
    assert TxInv(s'.db, LocksOf(s'.locks, u), s'.txs[u]);
    assert forall r | r in s'.locks :: r !in LocksOf(s'.locks, u);
  }

  // Schedules ------------------------------------------------------------------------------------------

  // Only these transactions act, each on its own work.
  predicate Played(actions: seq<Action>, cast: map<nat, Work>) {
    forall a | a in actions :: a.t in cast && (a.Begin? ==> a.work == cast[a.t])
  }

  ghost predicate Leads(s: Sys, s': Sys, cast: map<nat, Work>) {
    exists actions :: Played(actions, cast) && Execute(s, actions) == s'
  }

  lemma {:induction false} ThenExecute(s: Sys, a: seq<Action>, b: seq<Action>)
    ensures Execute(Execute(s, a), b) == Execute(s, a + b)
    decreases |b|
  {
    if b == [] {
      Collections.PlusNothing(a);
    } else {
      var n := |b| - 1;
      Collections.PlusSnoc(a, b);
      ThenExecute(s, a, b[..n]);
    }
  }

  // By whatever transactions.
  ghost predicate Reaches(s: Sys, s': Sys) {
    exists actions :: Execute(s, actions) == s'
  }

  lemma LeadsReaches(s: Sys, s': Sys, cast: map<nat, Work>)
    requires Leads(s, s', cast)
    ensures Reaches(s, s')
  {
    var actions :| Played(actions, cast) && Execute(s, actions) == s';
  }

  lemma ReachesThen(s: Sys, s1: Sys, s2: Sys)
    requires Reaches(s, s1) && Reaches(s1, s2)
    ensures Reaches(s, s2)
  {
    var a :| Execute(s, a) == s1;
    var b :| Execute(s1, b) == s2;
    ThenExecute(s, a, b);
    assert Execute(s, a + b) == s2;
  }

  predicate Within(small: map<nat, Work>, large: map<nat, Work>) {
    forall t | t in small :: t in large && large[t] == small[t]
  }

  lemma LeadsThen(s: Sys, s1: Sys, s2: Sys, a: map<nat, Work>, b: map<nat, Work>, cast: map<nat, Work>)
    requires Leads(s, s1, a) && Leads(s1, s2, b) && Within(a, cast) && Within(b, cast)
    ensures Leads(s, s2, cast)
  {
    var x :| Played(x, a) && Execute(s, x) == s1;
    var y :| Played(y, b) && Execute(s1, y) == s2;
    ThenExecute(s, x, y);
    assert Played(x + y, cast) && Execute(s, x + y) == s2;
  }

  lemma ActLeads(s: Sys, a: Action, cast: map<nat, Work>)
    requires a.t in cast && (a.Begin? ==> a.work == cast[a.t])
    ensures Leads(s, Act(s, a), cast)
  {
    var one := [a];
    assert one[..0] == [];
    assert Played(one, cast) && Execute(s, one) == Act(s, a);
  }

  lemma {:induction false} RunForLeads(s: Sys, t: nat, n: nat, cast: map<nat, Work>)
    requires t in cast
    ensures Leads(s, RunFor(s, t, n), cast)
    decreases n
  {
    if n == 0 {
      assert Played([], cast) && Execute(s, []) == s;
    } else {
      ActLeads(s, Run(t), cast);
      RunForLeads(Act(s, Run(t)), t, n - 1, cast);
      LeadsThen(s, Act(s, Run(t)), RunFor(s, t, n), cast, cast, cast);
    }
  }

  lemma RunForReaches(s: Sys, t: nat, n: nat)
    requires t in s.txs
    ensures Reaches(s, RunFor(s, t, n))
  {
    var cast := map[t := s.txs[t].work];
    RunForLeads(s, t, n, cast);
    LeadsReaches(s, RunFor(s, t, n), cast);
  }

  lemma RunsReach(s: Sys, t: nat, s': Sys)
    requires t in s.txs && Runs(s, t, s')
    ensures Reaches(s, s')
  {
    var n: nat :| s' == RunFor(s, t, n);
    RunForReaches(s, t, n);
  }

  // Transaction t has begun on s and run alone.
  ghost predicate Began(s: Sys, s': Sys, t: nat, work: Work) {
    Runs(Act(s, Begin(t, work)), t, s')
  }

  lemma BeganLeads(s: Sys, s': Sys, t: nat, work: Work)
    requires Began(s, s', t, work)
    ensures Leads(s, s', map[t := work])
  {
    var cast := map[t := work];
    var s1 := Act(s, Begin(t, work));
    var n: nat :| s' == RunFor(s1, t, n);
    ActLeads(s, Begin(t, work), cast);
    RunForLeads(s1, t, n, cast);
    LeadsThen(s, s1, s', cast, cast, cast);
  }

  lemma BeganReaches(s: Sys, s': Sys, t: nat, work: Work)
    requires Began(s, s', t, work)
    ensures Reaches(s, s')
  {
    BeganLeads(s, s', t, work);
    LeadsReaches(s, s', map[t := work]);
  }

  // Transaction u has run command c from begin to end between s and s', the others standing still.
  ghost predicate Through(s: Sys, s': Sys, u: nat, c: Command) {
    && Reaches(s, s') && SysInv(s') && (Plain(s) && Edge(WorkOf(c)) ==> Plain(s'))
    && s'.db == Exec(s.db, c) && s'.locks == s.locks
    && u in s'.txs && s'.txs[u].pc == Done(Answer(s.db, c))
    && forall v | v != u :: (v in s'.txs <==> v in s.txs) && (v in s.txs ==> s'.txs[v] == s.txs[v])
  }

  lemma NothingHeld(s: Sys, u: nat)
    requires SysInv(s) && u !in s.txs
    ensures Free(s.locks, u) == s.locks
  {
  }

  lemma RunsThrough(s: Sys, u: nat, c: Command)
    requires SysInv(s) && u !in s.txs && Admitted(WorkOf(c)) && Apart(s.locks, u, WorkOf(c))
    ensures exists s' :: Through(s, s', u, c)
  {
    var s1 := Act(s, Begin(u, WorkOf(c)));
    AloneIsSequential(s, u, c);
    var n :| EndsIn(s1, u, n, Exec(s.db, c), Answer(s.db, c));
    var s' := RunFor(s1, u, n);
    BeginKeeps(s, u, WorkOf(c));
    RunForKeeps(s1, u, n);
    RunForStays(s1, u, n);
    EndFrees(s1, s', u);
    NothingHeld(s, u);
    BeganReaches(s, s', u, WorkOf(c));
    if Plain(s) && Edge(WorkOf(c)) {
      ActPlain(s, Begin(u, WorkOf(c)));
      RunForPlain(s1, u, n);
    }
    assert Through(s, s', u, c);
  }

  // Up to the chosen warehouse ------------------------------------------------------------------------

  // Nothing is locked but this booking's own id and order.
  predicate OwnClaim(locks: map<Res, nat>, t: nat, work: Work)
    requires work.Booking?
  {
    forall r | r in locks :: locks[r] == t && (r == ReservationId(work.id) || r == OrderRef(work.orderRef))
  }

  // On its way to warehouse wh, alone.
  ghost predicate Choosing(s: Sys, t: nat, wh: int) {
    && SysInv(s) && Live(s, t) && s.txs[t].work.Booking?
    && Chooses(s.db, s.txs[t].work, wh) && OwnClaim(s.locks, t, s.txs[t].work)
    && match s.txs[t].pc
       case Claim | Enter | Scan => true
       case Refer(clear) => clear
       case Gather(w) => w == wh
       case _ => false
  }

  // Arrived, its rows still to lock.
  ghost predicate Arrived(s: Sys, t: nat, wh: int) {
    && SysInv(s) && Live(s, t) && s.txs[t].pc.LockRows? && s.txs[t].pc.wh == wh
    && OwnClaim(s.locks, t, s.txs[t].work)
  }

  lemma ChoiceAdvances(db: Db, locks: map<Res, nat>, t: nat, tx: Tx, wh: int)
    requires Fits(tx) && tx.work.Booking? && Chooses(db, tx.work, wh) && OwnClaim(locks, t, tx.work)
    requires tx.pc.Claim? || tx.pc.Enter? || tx.pc == Refer(true) || tx.pc.Scan? || tx.pc == Gather(wh)
    ensures var o := Advance(db, locks, t, tx);
            && o.Go? && (o.got.Some? ==> o.got.value == ReservationId(tx.work.id) || o.got.value == OrderRef(tx.work.orderRef))
            && o.pc == match tx.pc
                       case Claim => Enter
                       case Enter => Refer(true)
                       case Refer(_) => Scan
                       case Scan => Gather(wh)
                       case _ => LockRows(wh, KeysToLock(db.balances, wh, tx.work.items), 0, map[])
  {
  }

  lemma ClaimStaysOwn(s: Sys, t: nat)
    requires Live(s, t) && s.txs[t].work.Booking? && OwnClaim(s.locks, t, s.txs[t].work)
    requires var o := Advance(s.db, s.locks, t, s.txs[t]);
             o.Go? && (o.got.Some? ==> o.got.value == ReservationId(s.txs[t].work.id) || o.got.value == OrderRef(s.txs[t].work.orderRef))
    ensures OwnClaim(Act(s, Run(t)).locks, t, s.txs[t].work)
  {
  }

  lemma ChoiceStep(s: Sys, t: nat, wh: int)
    requires Choosing(s, t, wh)
    ensures var s', o := Act(s, Run(t)), Advance(s.db, s.locks, t, s.txs[t]);
            && s'.db == s.db && SysInv(s') && Live(s', t) && OwnClaim(s'.locks, t, s.txs[t].work)
            && s'.txs[t].work == s.txs[t].work && o.Go? && s'.txs[t].pc == o.pc
  {
    ChoiceAdvances(s.db, s.locks, t, s.txs[t], wh);
    ClaimStaysOwn(s, t);
    RunMoves(s, t);
    RunKeeps(s, t);
  }

  lemma ChoiceNext(s: Sys, t: nat, wh: int)
    requires Choosing(s, t, wh)
    ensures var s' := Act(s, Run(t));
            && s'.db == s.db && t in s'.txs && s'.txs[t].work == s.txs[t].work
            && (if s.txs[t].pc.Gather? then Arrived(s', t, wh) else Choosing(s', t, wh) && Nearer(s'.txs[t].pc, s.txs[t].pc))
  {
    ChoiceStep(s, t, wh);
    ChoiceAdvances(s.db, s.locks, t, s.txs[t], wh);
  }

  lemma {:induction false} ChoiceArrives(s: Sys, t: nat, wh: int)
    requires Choosing(s, t, wh)
    ensures exists s' :: Runs(s, t, s') && Arrived(s', t, wh) && s'.db == s.db && s'.txs[t].work == s.txs[t].work
    decreases Phase(s.txs[t].pc)
  {
    var s1 := Act(s, Run(t));
    ChoiceNext(s, t, wh);
    if s.txs[t].pc.Gather? {
      assert s1 == RunFor(s1, t, 0);
      RunsOn(s, t, s1);
    } else {
      ChoiceArrives(s1, t, wh);
      var s' :| Runs(s1, t, s') && Arrived(s', t, wh) && s'.db == s1.db && s'.txs[t].work == s1.txs[t].work;
      RunsOn(s, t, s');
    }
  }

  // Booking t, begun alone on s, has chosen warehouse wh and stands before its locks.
  ghost predicate HasChosen(s: Sys, s2: Sys, t: nat, work: Work, wh: int)
    requires work.Booking?
  {
    && Began(s, s2, t, work) && Arrived(s2, t, wh) && s2.db == s.db && s2.txs[t].work == work
    && forall v | v != t :: v in s2.txs <==> v in s.txs
  }

  lemma ReachesChosen(s: Sys, t: nat, work: Work, wh: int)
    requires SysInv(s) && s.locks == map[] && t !in s.txs
    requires work.Booking? && Admitted(work) && Chooses(s.db, work, wh)
    ensures exists s2 :: HasChosen(s, s2, t, work, wh)
  {
    var s1 := Act(s, Begin(t, work));
    BeginKeeps(s, t, work);
    assert s1.txs[t] == Tx(work, Claim, NO_WRITES);
    ChoiceArrives(s1, t, wh);
    var s2 :| Runs(s1, t, s2) && Arrived(s2, t, wh) && s2.db == s1.db && s2.txs[t].work == s1.txs[t].work;
    var n: nat :| s2 == RunFor(s1, t, n);
    RunForStays(s1, t, n);
    assert HasChosen(s, s2, t, work, wh);
  }

  // Through the row locks -----------------------------------------------------------------------------

  // With every row locked, a booking is refused exactly when the warehouse it chose no longer covers
  // the basket, whatever the other warehouses have.
  lemma RecheckRefusesIff(s: Sys, t: nat)
    requires SysInv(s) && Live(s, t) && s.txs[t].pc.LockRows? && s.txs[t].pc.n == |s.txs[t].pc.keys|
    ensures var tx := s.txs[t];
            var o, short := Advance(s.db, s.locks, t, tx), Shortages(s.db.balances, Some(tx.pc.wh), tx.work.items);
            if Fulfills(s.db.balances, tx.pc.wh, tx.work.items) then
              o == Go(Post(tx.pc.wh, AllocateFrom(tx.work.items, tx.pc.wh), 0, Shift), tx.w, None)
            else short != [] && o == Go(Classify(Some(tx.pc.wh), short), tx.w, None)
  {
    var tx := s.txs[t];
    assert TxInv(s.db, LocksOf(s.locks, t), tx);
    AllRead(s.db.balances, LocksOf(s.locks, t), tx.pc.wh, tx.pc.keys, tx.pc.atp, tx.work.items);
    NoShortage(s.db.balances, tx.pc.wh, tx.work.items);
  }

  // Standing where it has its warehouse's rows still to lock.
  ghost predicate Locking(s: Sys, t: nat) {
    SysInv(s) && Live(s, t) && s.txs[t].pc.LockRows? && Apart(s.locks, t, s.txs[t].work)
  }

  lemma NextRowLocked(s: Sys, t: nat)
    requires Locking(s, t) && s.txs[t].pc.n < |s.txs[t].pc.keys|
    ensures var s' := Act(s, Run(t));
            && Locking(s', t) && s'.db == s.db && s'.txs[t].work == s.txs[t].work
            && s'.txs[t].pc.wh == s.txs[t].pc.wh && s'.txs[t].pc.keys == s.txs[t].pc.keys && s'.txs[t].pc.n == s.txs[t].pc.n + 1
  {
    RunMoves(s, t);
    RunKeeps(s, t);
    StillApart(s, t);
  }

  // Statement by statement ----------------------------------------------------------------------------

  // Running alone from s, transaction t has come to stand at pc, the tables untouched.
  ghost predicate Stands(s: Sys, s': Sys, t: nat, pc: Pc) {
    && Runs(s, t, s') && t in s.txs && Plain(s') && Live(s', t) && s'.db == s.db
    && s'.txs[t].work == s.txs[t].work && s'.txs[t].pc == pc && Apart(s'.locks, t, s'.txs[t].work)
  }

  lemma StandsThen(s: Sys, s1: Sys, s2: Sys, t: nat, pc1: Pc, pc2: Pc)
    requires Stands(s, s1, t, pc1) && Stands(s1, s2, t, pc2)
    ensures Stands(s, s2, t, pc2)
  {
    RunsThen(s, t, s1, s2);
  }

  lemma GoesOn(s: Sys, t: nat, pc: Pc)
    requires Plain(s) && Live(s, t) && !s.txs[t].pc.Ready? && Apart(s.locks, t, s.txs[t].work) && !pc.Done?
    requires var o := Advance(s.db, s.locks, t, s.txs[t]); o.Go? && o.pc == pc
    ensures Stands(s, Act(s, Run(t)), t, pc)
  {
    RunMoves(s, t);
    RunKeeps(s, t);
    StillApart(s, t);
    ActPlain(s, Run(t));
    RunsOnce(s, t);
  }

  // The statement after this one of a line.
  function NextLine(pc: Pc, op: Op): Pc
    requires pc.Post?
  {
    match pc.stage
    case Shift => pc.(stage := if op == Hold then Attach else Record)
    case Attach => pc.(stage := Record)
    case Record => Post(pc.wh, pc.ls, pc.n + 1, Shift)
  }

  lemma PostGoes(db: Db, locks: map<Res, nat>, t: nat, tx: Tx)
    requires tx.pc.Post? && tx.pc.n < |tx.pc.ls| && !tx.work.Stocking? && Apart(locks, t, tx.work)
    ensures var o := PostStep(db, locks, t, tx); !o.Wait? && (o.Go? ==> o.pc == NextLine(tx.pc, OpOf(tx.work)))
  {
  }

  // Posting on while no admin row stands in the way.
  ghost predicate Underway(s: Sys, t: nat) {
    Plain(s) && Live(s, t) && s.txs[t].pc.Post? && Apart(s.locks, t, s.txs[t].work)
  }

  lemma PostsOn(s: Sys, t: nat)
    requires Underway(s, t) && s.txs[t].pc.n < |s.txs[t].pc.ls| && !Collides(s, t)
    ensures Stands(s, Act(s, Run(t)), t, NextLine(s.txs[t].pc, OpOf(s.txs[t].work)))
  {
    PostingFailsIff(s, t);
    PostGoes(s.db, s.locks, t, s.txs[t]);
    GoesOn(s, t, NextLine(s.txs[t].pc, OpOf(s.txs[t].work)));
  }

  // To the ledger INSERT of the line it stands at.
  lemma ToRecord(s: Sys, t: nat)
    requires Underway(s, t) && s.txs[t].pc.n < |s.txs[t].pc.ls| && s.txs[t].pc.stage == Shift
    ensures exists s' :: Stands(s, s', t, s.txs[t].pc.(stage := Record))
  {
    var s1 := Act(s, Run(t));
    PostsOn(s, t);
    if OpOf(s.txs[t].work) == Hold {
      PostsOn(s1, t);
      StandsThen(s, s1, Act(s1, Run(t)), t, s.txs[t].pc.(stage := Attach), s.txs[t].pc.(stage := Record));
    }
  }

  // No admin row under the ledger ids of lines m to n.
  predicate IdsFree(movements: map<string, Movement>, work: Work, ls: seq<Allocation>, m: nat, n: nat)
    requires n <= |ls|
  {
    forall i | m <= i < n :: !AdminRow(movements, CommandId(OpOf(work), IdOf(work), ls[i].sku))
  }

  lemma FreeIsClear(s: Sys, t: nat, n: nat)
    requires Live(s, t) && s.txs[t].pc.Post? && s.txs[t].pc.n < n <= |s.txs[t].pc.ls|
    requires IdsFree(s.db.movements, s.txs[t].work, s.txs[t].pc.ls, s.txs[t].pc.n, n)
    ensures !Collides(s, t)
  {
  }

  lemma StandsUnderway(s: Sys, s': Sys, t: nat, pc: Pc)
    requires Stands(s, s', t, pc) && pc.Post?
    ensures Underway(s', t)
  {
  }

  function LineAfter(pc: Pc): Pc
    requires pc.Post?
  {
    Post(pc.wh, pc.ls, pc.n + 1, Shift)
  }

  lemma RecordOn(s: Sys, s1: Sys, t: nat, pc: Pc)
    requires pc.Post? && pc.n < |pc.ls| && Stands(s, s1, t, pc.(stage := Record)) && !Collides(s1, t)
    ensures Stands(s, Act(s1, Run(t)), t, LineAfter(pc))
  {
    StandsUnderway(s, s1, t, pc.(stage := Record));
    PostsOn(s1, t);
    StandsThen(s, s1, Act(s1, Run(t)), t, pc.(stage := Record), LineAfter(pc));
  }

  lemma LineOn(s: Sys, t: nat, n: nat)
    requires Underway(s, t) && s.txs[t].pc.n < n <= |s.txs[t].pc.ls| && s.txs[t].pc.stage == Shift
    requires IdsFree(s.db.movements, s.txs[t].work, s.txs[t].pc.ls, s.txs[t].pc.n, n)
    ensures exists s' :: Stands(s, s', t, LineAfter(s.txs[t].pc))
  {
    ToRecord(s, t);
    var s1 :| Stands(s, s1, t, s.txs[t].pc.(stage := Record));
    FreeIsClear(s1, t, n);
    RecordOn(s, s1, t, s.txs[t].pc);
  }

  lemma {:induction false} LinesOn(s: Sys, t: nat, n: nat)
    requires Underway(s, t) && s.txs[t].pc.stage == Shift && s.txs[t].pc.n <= n <= |s.txs[t].pc.ls|
    requires IdsFree(s.db.movements, s.txs[t].work, s.txs[t].pc.ls, s.txs[t].pc.n, n)
    ensures exists s' :: Stands(s, s', t, Post(s.txs[t].pc.wh, s.txs[t].pc.ls, n, Shift))
    decreases n - s.txs[t].pc.n
  {
    var pc := s.txs[t].pc;
    if pc.n == n {
      RunsOnce(s, t);
      assert Stands(s, s, t, pc);
    } else {
      LineOn(s, t, n);
      var s1 :| Stands(s, s1, t, LineAfter(pc));
      StandsUnderway(s, s1, t, LineAfter(pc));
      LinesOn(s1, t, n);
      var s2 :| Stands(s1, s2, t, Post(pc.wh, pc.ls, n, Shift));
      StandsThen(s, s1, s2, t, LineAfter(pc), Post(pc.wh, pc.ls, n, Shift));
    }
  }

  // From the row locks on ------------------------------------------------------------------------------

  lemma {:induction false} LocksThrough(s: Sys, t: nat)
    requires Plain(s) && Locking(s, t) && Fulfills(s.db.balances, s.txs[t].pc.wh, s.txs[t].work.items)
    ensures exists s' :: Stands(s, s', t, Post(s.txs[t].pc.wh, AllocateFrom(s.txs[t].work.items, s.txs[t].pc.wh), 0, Shift))
    decreases |s.txs[t].pc.keys| - s.txs[t].pc.n
  {
    assert TxInv(s.db, LocksOf(s.locks, t), s.txs[t]);
    var first := Post(s.txs[t].pc.wh, AllocateFrom(s.txs[t].work.items, s.txs[t].pc.wh), 0, Shift);
    if s.txs[t].pc.n < |s.txs[t].pc.keys| {
      var s1 := Act(s, Run(t));
      NextRowLocked(s, t);
      ActPlain(s, Run(t));
      LocksThrough(s1, t);
      var s2 :| Stands(s1, s2, t, first);
      StandsAfter(s, s2, t, first);
    } else {
      RecheckRefusesIff(s, t);
      GoesOn(s, t, first);
    }
  }

  lemma StandsAfter(s: Sys, s2: Sys, t: nat, pc: Pc)
    requires t in s.txs && Stands(Act(s, Run(t)), s2, t, pc)
    requires Act(s, Run(t)).db == s.db && Act(s, Run(t)).txs[t].work == s.txs[t].work
    ensures Stands(s, s2, t, pc)
  {
    RunsOn(s, t, s2);
  }

  // From the beginning -----------------------------------------------------------------------------------

  // Begun on s and run alone, transaction t has come to stand at pc, the tables untouched.
  ghost predicate Placed(s: Sys, s': Sys, t: nat, work: Work, pc: Pc) {
    && Began(s, s', t, work) && Plain(s') && Live(s', t) && s'.db == s.db
    && s'.txs[t].work == work && s'.txs[t].pc == pc && Apart(s'.locks, t, work)
  }

  lemma PlacedThen(s: Sys, s1: Sys, s2: Sys, t: nat, work: Work, pc1: Pc, pc2: Pc)
    requires Placed(s, s1, t, work, pc1) && Stands(s1, s2, t, pc2)
    ensures Placed(s, s2, t, work, pc2)
  {
    RunsThen(Act(s, Begin(t, work)), t, s1, s2);
  }

  // What the work needs of the tables to get to its lines, and the lines it will then post.
  ghost predicate Starts(db: Db, work: Work, wh: int, ls: seq<Allocation>) {
    match work
    case Booking(_, _, _, items) => Chooses(db, work, wh) && ls == AllocateFrom(items, wh)
    case Settlement(id, _, _) => StatusOf(db, id) == Some(Reserved) && wh == 0 && ls == LoadLines(db.lines, id)
    case Stocking(_, _) => false
  }

  lemma Begins(s: Sys, t: nat, work: Work)
    requires Plain(s) && s.locks == map[] && t !in s.txs && Admitted(work) && Edge(work)
    ensures Placed(s, Act(s, Begin(t, work)), t, work, Start(work))
  {
    ActPlain(s, Begin(t, work));
    RunsOnce(Act(s, Begin(t, work)), t);
  }

  lemma SettlerPosts(s: Sys, t: nat, work: Work)
    requires Plain(s) && s.locks == map[] && t !in s.txs && Admitted(work) && Edge(work)
    requires work.Settlement? && StatusOf(s.db, work.id) == Some(Reserved)
    ensures exists s' :: Placed(s, s', t, work, Post(0, LoadLines(s.db.lines, work.id), 0, Shift))
  {
    var s1 := Act(s, Begin(t, work));
    var s2 := Act(s1, Run(t));
    var first := Post(0, LoadLines(s.db.lines, work.id), 0, Shift);
    Begins(s, t, work);
    GoesOn(s1, t, LoadHead);
    PlacedThen(s, s1, s2, t, work, LockHead, LoadHead);
    GoesOn(s2, t, first);
    PlacedThen(s, s2, Act(s2, Run(t)), t, work, LoadHead, first);
  }

  lemma ChosenIsPlaced(s: Sys, s2: Sys, t: nat, work: Work, wh: int)
    requires Plain(s) && t !in s.txs && work.Booking? && Admitted(work) && Edge(work) && HasChosen(s, s2, t, work, wh)
    ensures Plain(s2) && Locking(s2, t) && Placed(s, s2, t, work, s2.txs[t].pc)
  {
    var s1 := Act(s, Begin(t, work));
    ActPlain(s, Begin(t, work));
    var n: nat :| s2 == RunFor(s1, t, n);
    RunForPlain(s1, t, n);
  }

  lemma BookerPosts(s: Sys, t: nat, work: Work, wh: int)
    requires Plain(s) && s.locks == map[] && t !in s.txs && Admitted(work) && Edge(work)
    requires work.Booking? && Chooses(s.db, work, wh)
    ensures exists s' :: Placed(s, s', t, work, Post(wh, AllocateFrom(work.items, wh), 0, Shift))
  {
    var first := Post(wh, AllocateFrom(work.items, wh), 0, Shift);
    ReachesChosen(s, t, work, wh);
    var s2 :| HasChosen(s, s2, t, work, wh);
    ChosenIsPlaced(s, s2, t, work, wh);
    LocksThrough(s2, t);
    var s3 :| Stands(s2, s3, t, first);
    PlacedThen(s, s2, s3, t, work, s2.txs[t].pc, first);
  }

  lemma ReachesPosting(s: Sys, t: nat, work: Work, wh: int, ls: seq<Allocation>)
    requires Plain(s) && s.locks == map[] && t !in s.txs && Admitted(work) && Edge(work) && Starts(s.db, work, wh, ls)
    ensures exists s' :: Placed(s, s', t, work, Post(wh, ls, 0, Shift))
  {
    if work.Booking? { BookerPosts(s, t, work, wh); } else { SettlerPosts(s, t, work); }
  }

  // Up to the ledger INSERT of line n, when the ids of the lines before it are free.
  lemma ReachesRecord(s: Sys, t: nat, work: Work, wh: int, ls: seq<Allocation>, n: nat)
    requires Plain(s) && s.locks == map[] && t !in s.txs && Admitted(work) && Edge(work) && Starts(s.db, work, wh, ls)
    requires n < |ls| && IdsFree(s.db.movements, work, ls, 0, n)
    ensures exists s' :: Placed(s, s', t, work, Post(wh, ls, n, Record))
  {
    ReachesPosting(s, t, work, wh, ls);
    var s1 :| Placed(s, s1, t, work, Post(wh, ls, 0, Shift));
    LinesOn(s1, t, n);
    var s2 :| Stands(s1, s2, t, Post(wh, ls, n, Shift));
    StandsUnderway(s1, s2, t, Post(wh, ls, n, Shift));
    PlacedThen(s, s1, s2, t, work, Post(wh, ls, 0, Shift), Post(wh, ls, n, Shift));
    ToRecord(s2, t);
    var s3 :| Stands(s2, s3, t, Post(wh, ls, n, Record));
    PlacedThen(s, s2, s3, t, work, Post(wh, ls, n, Shift), Post(wh, ls, n, Record));
  }

  lemma NobodyElse(locks: map<Res, nat>, t: nat)
    requires Free(locks, t) == map[]
    ensures forall r | r in locks :: locks[r] == t
  {
    assert forall r | r in locks :: r !in Free(locks, t);
  }

  // Whoever begins where nothing is locked has the only locks.
  lemma BeganAlone(s: Sys, s': Sys, t: nat, work: Work)
    requires s.locks == map[] && t !in s.txs && Admitted(work) && Began(s, s', t, work)
    ensures forall r | r in s'.locks :: s'.locks[r] == t
    ensures forall v | v != t :: v in s'.txs <==> v in s.txs
  {
    var s1 := Act(s, Begin(t, work));
    var n: nat :| s' == RunFor(s1, t, n);
    RunForStays(s1, t, n);
    NobodyElse(s'.locks, t);
  }
}
