/**
 * Why a shortage may be reported while another warehouse would do, and why a hold may stand on a higher
 * warehouse than the lowest that would do: a booking re-checks only the warehouse its unlocked scan chose.
 */
module RefusalLimits {
  import opened Validate
  import opened CommandIds
  import opened Tables
  import opened Posting
  import opened Aggregation
  import opened Invariants
  import opened Commands
  import opened Reservations
  import opened Machine
  import opened Interleaving
  import opened Concurrency
  import opened Alone
  import opened Deadlock
  import opened Redeem
  import opened Steering
  import Availability
  import Canonical
  import Columns
  import Idempotency
  import Outcomes
  import RedeliveryLimits

  // A failed re-check ---------------------------------------------------------------------------------

  lemma {:induction false} PinnedTracked(db: Db, held: set<Res>, wh: int, items: seq<Item>)
    requires forall i | 0 <= i < |items| :: Pinned(db.balances, held, wh, items[i])
    ensures Untracked(db, items) == []
  {
    if items != [] {
      var n := |items| - 1;
      assert Pinned(db.balances, held, wh, items[n]);
      assert forall i | 0 <= i < n :: items[..n][i] == items[i];
      PinnedTracked(db, held, wh, items[..n]);
    }
  }

  function ShortHere(s: Sys, t: nat): seq<Shortage>
    requires t in s.txs && s.txs[t].work.Booking? && s.txs[t].pc.LockRows?
  {
    Shortages(s.db.balances, Some(s.txs[t].pc.wh), s.txs[t].work.items)
  }

  // Classifying a failed re-check.
  lemma RecheckedEnds(s: Sys, t: nat, wh: int, short: seq<Shortage>)
    requires SysInv(s) && Live(s, t) && s.txs[t].pc == Classify(Some(wh), short)
    ensures EndsIn(s, t, 1, s.db, Failed(InsufficientStock(short)))
  {
    var tx := s.txs[t];
    assert TxInv(s.db, LocksOf(s.locks, t), tx);
    PinnedTracked(s.db, LocksOf(s.locks, t), wh, tx.work.items);
    assert Advance(s.db, s.locks, t, tx) == End(Failed(InsufficientStock(short)));
    RunMoves(s, t);
    RunKeeps(s, t);
    assert EndsIn(Act(s, Run(t)), t, 0, s.db, Failed(InsufficientStock(short)));
    OneMore(s, t, 0, s.db, Failed(InsufficientStock(short)));
  }

  lemma LastRecheck(s: Sys, t: nat)
    requires Locking(s, t) && s.txs[t].pc.n == |s.txs[t].pc.keys|
    requires !Fulfills(s.db.balances, s.txs[t].pc.wh, s.txs[t].work.items)
    ensures EndsIn(s, t, 2, s.db, Failed(InsufficientStock(ShortHere(s, t))))
  {
    var s1 := Act(s, Run(t));
    RecheckRefusesIff(s, t);
    RunMoves(s, t);
    RunKeeps(s, t);
    RecheckedEnds(s1, t, s.txs[t].pc.wh, ShortHere(s, t));
    OneMore(s, t, 1, s.db, Failed(InsufficientStock(ShortHere(s, t))));
  }

  lemma {:induction false} LocksThenRefuses(s: Sys, t: nat)
    requires Locking(s, t) && !Fulfills(s.db.balances, s.txs[t].pc.wh, s.txs[t].work.items)
    ensures exists n :: EndsIn(s, t, n, s.db, Failed(InsufficientStock(ShortHere(s, t))))
    decreases |s.txs[t].pc.keys| - s.txs[t].pc.n
  {
    assert TxInv(s.db, LocksOf(s.locks, t), s.txs[t]);
    if s.txs[t].pc.n < |s.txs[t].pc.keys| {
      var s1 := Act(s, Run(t));
      NextRowLocked(s, t);
      LocksThenRefuses(s1, t);
      var n :| EndsIn(s1, t, n, s.db, Failed(InsufficientStock(ShortHere(s1, t))));
      OneMore(s, t, n, s.db, Failed(InsufficientStock(ShortHere(s, t))));
    } else {
      LastRecheck(s, t);
    }
  }

  // A refusal that the comment does not foresee ----------------------------------------------------------

  // Transaction t has been refused, with these shortages.
  predicate Refused(s: Sys, t: nat, work: Work, short: seq<Shortage>) {
    t in s.txs && s.txs[t].work == work && s.txs[t].pc == Done(Failed(InsufficientStock(short)))
  }

  // From s a schedule leads to these tables, with t refused for what warehouse wh lacks there.
  ghost predicate EndsRefused(s: Sys, s': Sys, db: Db, t: nat, work: Work, wh: int)
    requires work.Booking?
  {
    Reaches(s, s') && s'.db == db && Refused(s', t, work, Shortages(db.balances, Some(wh), work.items))
  }

  lemma ThenRefused(s3: Sys, t: nat, work: Work, wh: int)
    requires work.Booking? && Arrived(s3, t, wh) && s3.txs[t].work == work && !Fulfills(s3.db.balances, wh, work.items)
    ensures exists s4 :: EndsRefused(s3, s4, s3.db, t, work, wh)
  {
    LocksThenRefuses(s3, t);
    var n :| EndsIn(s3, t, n, s3.db, Failed(InsufficientStock(ShortHere(s3, t))));
    RunForStays(s3, t, n);
    RunForReaches(s3, t, n);
    assert EndsRefused(s3, RunFor(s3, t, n), s3.db, t, work, wh);
  }

  lemma LedThere(s: Sys, s1: Sys, s': Sys, db: Db, t: nat, work: Work, wh: int)
    requires work.Booking? && Reaches(s, s1) && EndsRefused(s1, s', db, t, work, wh)
    ensures EndsRefused(s, s', db, t, work, wh)
  {
    ReachesThen(s, s1, s');
  }

  lemma StillArrived(s2: Sys, s3: Sys, t: nat, u: nat, wh: int, c: Command)
    requires t != u && Arrived(s2, t, wh) && Through(s2, s3, u, c)
    ensures Arrived(s3, t, wh) && s3.txs[t] == s2.txs[t]
  {
  }

  lemma OthersApart(s2: Sys, t: nat, u: nat, work: Work, wh: int, c: Command)
    requires work.Booking? && Arrived(s2, t, wh) && s2.txs[t].work == work
    requires Elsewhere(ReservationId(work.id), WorkOf(c)) && Elsewhere(OrderRef(work.orderRef), WorkOf(c))
    ensures Apart(s2.locks, u, WorkOf(c))
  {
  }

  lemma ChosenThenRefused(s2: Sys, t: nat, u: nat, work: Work, c: Command, wh: int)
    requires work.Booking? && Arrived(s2, t, wh) && s2.txs[t].work == work && u !in s2.txs
    requires Admitted(WorkOf(c)) && Apart(s2.locks, u, WorkOf(c)) && !Fulfills(Exec(s2.db, c).balances, wh, work.items)
    ensures exists s4 :: EndsRefused(s2, s4, Exec(s2.db, c), t, work, wh)
  {
    RunsThrough(s2, u, c);
    var s3 :| Through(s2, s3, u, c);
    StillArrived(s2, s3, t, u, wh, c);
    ThenRefused(s3, t, work, wh);
    var s4 :| EndsRefused(s3, s4, s3.db, t, work, wh);
    LedThere(s2, s3, s4, s3.db, t, work, wh);
  }

  // On any quiet state: a booking has chosen warehouse wh; before it locks the rows there, any other
  // command that takes away their cover runs from begin to end. The booking is then refused with
  // wh's shortages, whatever any other warehouse could have given.
  lemma LateCommitRefuses(s: Sys, t: nat, u: nat, work: Work, c: Command, wh: int)
    requires SysInv(s) && s.locks == map[] && t !in s.txs && u !in s.txs && t != u
    requires work.Booking? && Admitted(work) && Chooses(s.db, work, wh)
    requires Admitted(WorkOf(c)) && Elsewhere(ReservationId(work.id), WorkOf(c)) && Elsewhere(OrderRef(work.orderRef), WorkOf(c))
    requires !Fulfills(Exec(s.db, c).balances, wh, work.items)
    ensures exists s' :: EndsRefused(s, s', Exec(s.db, c), t, work, wh)
  {
    ReachesChosen(s, t, work, wh);
    var s2 :| HasChosen(s, s2, t, work, wh);
    OthersApart(s2, t, u, work, wh, c);
    ChosenThenRefused(s2, t, u, work, c, wh);
    var s4 :| EndsRefused(s2, s4, Exec(s2.db, c), t, work, wh);
    BeganReaches(s, s2, t, work);
    LedThere(s, s2, s4, Exec(s.db, c), t, work, wh);
  }

  // A hold that the comment does not foresee ------------------------------------------------------------

  // Booking t has run all its statements for warehouse wh; its commit answers with that hold.
  ghost predicate AboutToBook(s: Sys, t: nat, work: Work, wh: int)
    requires work.Booking?
  {
    && Live(s, t) && s.txs[t].work == work && s.txs[t].pc == Ready(wh, AllocateFrom(work.items, wh))
    && Act(s, Run(t)).txs[t].pc == Done(Held(Reserved, AllocateFrom(work.items, wh), false))
  }

  lemma ReadyBooks(s: Sys, t: nat, work: Work, wh: int)
    requires work.Booking? && Live(s, t) && s.txs[t].work == work && s.txs[t].pc == Ready(wh, AllocateFrom(work.items, wh))
    ensures AboutToBook(s, t, work, wh)
  {
    ReadyAdvances(s, t, true);
  }

  lemma PostedIsReady(s: Sys, s1: Sys, t: nat, wh: int, ls: seq<Allocation>)
    requires Stands(s, s1, t, Post(wh, ls, |ls|, Shift)) && s.txs[t].work.Booking?
    ensures Stands(s, Act(s1, Run(t)), t, Ready(wh, ls))
  {
    GoesOn(s1, t, Ready(wh, ls));
    StandsThen(s, s1, Act(s1, Run(t)), t, Post(wh, ls, |ls|, Shift), Ready(wh, ls));
  }

  // With its rows still to lock, covered and with its ledger ids free, a booking gets to its commit.
  lemma LocksThenBooks(s: Sys, t: nat)
    requires Plain(s) && Locking(s, t) && Fulfills(s.db.balances, s.txs[t].pc.wh, s.txs[t].work.items)
    requires var work := s.txs[t].work;
             IdsFree(s.db.movements, work, AllocateFrom(work.items, s.txs[t].pc.wh), 0, |work.items|)
    ensures var wh := s.txs[t].pc.wh; exists s' :: Stands(s, s', t, Ready(wh, AllocateFrom(s.txs[t].work.items, wh)))
  {
    var wh, ls := s.txs[t].pc.wh, AllocateFrom(s.txs[t].work.items, s.txs[t].pc.wh);
    LocksThrough(s, t);
    var s1 :| Stands(s, s1, t, Post(wh, ls, 0, Shift));
    StandsUnderway(s, s1, t, Post(wh, ls, 0, Shift));
    LinesOn(s1, t, |ls|);
    var s2 :| Stands(s1, s2, t, Post(wh, ls, |ls|, Shift));
    StandsThen(s, s1, s2, t, Post(wh, ls, 0, Shift), Post(wh, ls, |ls|, Shift));
    PostedIsReady(s, s2, t, wh, ls);
  }

  // From s a schedule leads to these tables, with t about to book wh.
  ghost predicate EndsBooking(s: Sys, s': Sys, db: Db, t: nat, work: Work, wh: int)
    requires work.Booking?
  {
    Reaches(s, s') && s'.db == db && AboutToBook(s', t, work, wh)
  }

  lemma ThenBooked(s3: Sys, t: nat, work: Work, wh: int)
    requires work.Booking? && Plain(s3) && Arrived(s3, t, wh) && s3.txs[t].work == work && Fulfills(s3.db.balances, wh, work.items)
    requires IdsFree(s3.db.movements, work, AllocateFrom(work.items, wh), 0, |work.items|)
    ensures exists s4 :: EndsBooking(s3, s4, s3.db, t, work, wh)
  {
    LocksThenBooks(s3, t);
    var s4 :| Stands(s3, s4, t, Ready(wh, AllocateFrom(work.items, wh)));
    RunsReach(s3, t, s4);
    ReadyBooks(s4, t, work, wh);
    assert EndsBooking(s3, s4, s3.db, t, work, wh);
  }

  lemma LedToBook(s: Sys, s1: Sys, s': Sys, db: Db, t: nat, work: Work, wh: int)
    requires work.Booking? && Reaches(s, s1) && EndsBooking(s1, s', db, t, work, wh)
    ensures EndsBooking(s, s', db, t, work, wh)
  {
    ReachesThen(s, s1, s');
  }

  lemma ChosenThenBooked(s2: Sys, t: nat, u: nat, work: Work, c: Command, wh: int)
    requires work.Booking? && Plain(s2) && Arrived(s2, t, wh) && s2.txs[t].work == work && u !in s2.txs
    requires Admitted(WorkOf(c)) && Edge(WorkOf(c)) && Apart(s2.locks, u, WorkOf(c))
    requires var db := Exec(s2.db, c);
             && Fulfills(db.balances, wh, work.items)
             && IdsFree(db.movements, work, AllocateFrom(work.items, wh), 0, |work.items|)
    ensures exists s4 :: EndsBooking(s2, s4, Exec(s2.db, c), t, work, wh)
  {
    RunsThrough(s2, u, c);
    var s3 :| Through(s2, s3, u, c);
    StillArrived(s2, s3, t, u, wh, c);
    ThenBooked(s3, t, work, wh);
    var s4 :| EndsBooking(s3, s4, s3.db, t, work, wh);
    LedToBook(s2, s3, s4, s3.db, t, work, wh);
  }

  // The same race when the cover stays: whatever the other command adds elsewhere, the booking goes on
  // with the warehouse it has chosen, unless an admin row now stands under one of its ledger ids.
  lemma LateCommitBooks(s: Sys, t: nat, u: nat, work: Work, c: Command, wh: int)
    requires Plain(s) && s.locks == map[] && t !in s.txs && u !in s.txs && t != u
    requires work.Booking? && Admitted(work) && Edge(work) && Chooses(s.db, work, wh)
    requires Admitted(WorkOf(c)) && Edge(WorkOf(c))
    requires Elsewhere(ReservationId(work.id), WorkOf(c)) && Elsewhere(OrderRef(work.orderRef), WorkOf(c))
    requires Fulfills(Exec(s.db, c).balances, wh, work.items)
    requires IdsFree(Exec(s.db, c).movements, work, AllocateFrom(work.items, wh), 0, |work.items|)
    ensures exists s' :: EndsBooking(s, s', Exec(s.db, c), t, work, wh)
  {
    ReachesChosen(s, t, work, wh);
    var s2 :| HasChosen(s, s2, t, work, wh);
    ChosenIsPlaced(s, s2, t, work, wh);
    OthersApart(s2, t, u, work, wh, c);
    ChosenThenBooked(s2, t, u, work, c, wh);
    var s4 :| EndsBooking(s2, s4, Exec(s2.db, c), t, work, wh);
    BeganReaches(s, s2, t, work);
    LedToBook(s, s2, s4, Exec(s.db, c), t, work, wh);
  }

  // One unit in each of two warehouses ---------------------------------------------------------------------

  const PAIR := map[1 := true, 2 := true]

  // Receive one unit of sku into warehouse wh under command id c.
  function Receipt(c: string, sku: string, wh: int): StockCommand {
    StockCommand(c, sku, wh, 1, "", "")
  }

  ghost predicate OneEach(db: Db, sku: string) {
    && Inv(db) && db.warehouses == PAIR && db.headers == map[] && db.lines == map[]
    && Key(sku, 1) in db.balances && db.balances[Key(sku, 1)] == Balance(1, 0, 0, 1)
    && Key(sku, 2) in db.balances && db.balances[Key(sku, 2)] == Balance(1, 0, 0, 1)
    && db.movements.Keys == {"a", "b"}
  }

  lemma ReceiptLands(db: Db, c: string, sku: string, wh: int)
    requires Inv(db) && db.warehouses == PAIR && (wh == 1 || wh == 2) && ValidSku(sku) && |c| == 1 && c !in db.movements
    ensures var db' := Exec(db, Stock(ReceiveStock, Receipt(c, sku, wh)));
            Inv(db') && Outcomes.StockMoved(db, db', ReceiveStock, Receipt(c, sku, wh))
  {
    Outcomes.StockOutcome(db, ReceiveStock, Receipt(c, sku, wh));
    Idempotency.ExecKeeps(db, Stock(ReceiveStock, Receipt(c, sku, wh)));
  }

  // The lowest of the two is chosen.
  lemma FirstOfPair(db: Db, sku: string)
    requires OneEach(db, sku)
    ensures FirstFulfilling(db.balances, ActiveIds(db.warehouses), RedeliveryLimits.Basket(sku)) == Some(1)
  {
    var items := RedeliveryLimits.Basket(sku);
    assert items[0] == Item(sku, 1);
    assert Fulfills(db.balances, 1, items) && 1 in ActiveIds(db.warehouses);
    Columns.FulfillsIff(db.balances, 1, items);
    Columns.FirstIsLeast(db, items, FirstFulfilling(db.balances, ActiveIds(db.warehouses), items).value);
  }

  // Another booking of the unit is admitted, and nothing squats on its ledger id.
  lemma RivalIsFresh(db: Db, id: string, sku: string)
    requires OneEach(db, sku) && ValidReservationId(id) && ValidSku(sku)
    ensures Availability.Fresh(db, id, id, RedeliveryLimits.Basket(sku))
    ensures Availability.Unblocked(db.movements, id, RedeliveryLimits.Basket(sku))
  {
    RedeliveryLimits.OneLine(sku);
    assert |CommandId(Hold, id, sku)| > 1 && |"a"| == 1 && |"b"| == 1;
  }

  lemma RowsAfterRival(balances: map<Key, Balance>, balances': map<Key, Balance>, sku: string)
    requires Key(sku, 1) in balances && balances[Key(sku, 1)] == Balance(1, 0, 0, 1)
    requires Key(sku, 2) in balances && balances[Key(sku, 2)] == Balance(1, 0, 0, 1)
    requires Outcomes.RowsBooked(balances, balances', 1, RedeliveryLimits.Basket(sku))
    ensures AtpAt(balances', Key(sku, 1)) == 0 && AtpAt(balances', Key(sku, 2)) == 1
  {
    RedeliveryLimits.OneLine(sku);
    TotalDistinct(RedeliveryLimits.Basket(sku), 0);
    assert Outcomes.Wanted(RedeliveryLimits.Basket(sku), 1, Key(sku, 1)) == 1;
    assert Outcomes.Wanted(RedeliveryLimits.Basket(sku), 1, Key(sku, 2)) == 0;
    assert Outcomes.RowFreed(BalanceAt(balances, Key(sku, 1)), BalanceAt(balances', Key(sku, 1)), -1, Hold);
    assert Outcomes.RowFreed(BalanceAt(balances, Key(sku, 2)), BalanceAt(balances', Key(sku, 2)), 0, Hold);
  }

  lemma BookedRows(db: Db, db': Db, id: string, h: Header, wh: int, items: seq<Item>)
    requires Outcomes.Booked(db, db', id, h, wh, items)
    ensures Outcomes.RowsBooked(db.balances, db'.balances, wh, items) && db'.warehouses == db.warehouses
  {
  }

  // It takes warehouse 1 and leaves warehouse 2.
  lemma RivalBooks(db: Db, id: string, sku: string)
    requires OneEach(db, sku) && ValidReservationId(id) && ValidSku(sku)
    ensures var db' := Exec(db, RedeliveryLimits.Booking(id, sku));
            AtpAt(db'.balances, Key(sku, 1)) == 0 && AtpAt(db'.balances, Key(sku, 2)) == 1 && db'.warehouses == PAIR
  {
    var items := RedeliveryLimits.Basket(sku);
    RedeliveryLimits.OneLine(sku);
    FirstOfPair(db, sku);
    RivalIsFresh(db, id, sku);
    Outcomes.CoveredBooks(db, id, id, items, "", 1);
    var db' := After(db, DecideReserve(db, id, id, items, "").0);
    assert db' == Exec(db, RedeliveryLimits.Booking(id, sku));
    BookedRows(db, db', id, Header(id, Canonical.Encode(items, ""), Reserved), 1, items);
    RowsAfterRival(db.balances, db'.balances, sku);
  }

  // The receipt that brings the second unit, into warehouse 1.
  function LateStock(sku: string): Command {
    Stock(ReceiveStock, Receipt("a", sku, 1))
  }

  // One unit in warehouse 2 and none in warehouse 1.
  ghost predicate SecondOnly(db: Db, sku: string) {
    && Inv(db) && db.warehouses == PAIR && db.headers == map[] && db.lines == map[]
    && Key(sku, 2) in db.balances && db.balances[Key(sku, 2)] == Balance(1, 0, 0, 1) && Key(sku, 1) !in db.balances
    && db.movements.Keys == {"b"}
  }

  lemma SecondStocked(db: Db, sku: string)
    requires Inv(db) && db == EmptyDb(PAIR) && ValidSku(sku)
    ensures SecondOnly(Exec(db, Stock(ReceiveStock, Receipt("b", sku, 2))), sku)
  {
    ReceiptLands(db, "b", sku, 2);
  }

  lemma FirstStocked(db: Db, sku: string)
    requires SecondOnly(db, sku) && ValidSku(sku)
    ensures OneEach(Exec(db, LateStock(sku)), sku)
  {
    ReceiptLands(db, "a", sku, 1);
  }

  // A running system with that unit and nothing under way.
  ghost predicate SecondReady(s: Sys, sku: string) {
    Reaches(Boot(PAIR), s) && Plain(s) && s.locks == map[] && SecondOnly(s.db, sku) && 1 !in s.txs && 2 !in s.txs && 3 !in s.txs
  }

  lemma SecondRuns(sku: string)
    requires ValidSku(sku)
    ensures exists s :: SecondReady(s, sku)
  {
    var s0, c := Boot(PAIR), Stock(ReceiveStock, Receipt("b", sku, 2));
    SchedulePlain(PAIR, []);
    RunsThrough(s0, 0, c);
    var s1 :| Through(s0, s1, 0, c);
    SecondStocked(s0.db, sku);
    assert SecondReady(s1, sku);
  }

  // A running system with those two units and nothing under way.
  ghost predicate Prepared(s: Sys, sku: string) {
    Reaches(Boot(PAIR), s) && SysInv(s) && s.locks == map[] && OneEach(s.db, sku) && 2 !in s.txs && 3 !in s.txs
  }

  lemma ReceiptsRun(sku: string)
    requires ValidSku(sku)
    ensures exists s :: Prepared(s, sku)
  {
    SecondRuns(sku);
    var s1 :| SecondReady(s1, sku);
    RunsThrough(s1, 1, LateStock(sku));
    var s2 :| Through(s1, s2, 1, LateStock(sku));
    FirstStocked(s1.db, sku);
    ReachesThen(Boot(PAIR), s1, s2);
    assert Prepared(s2, sku);
  }

  // A valid id that is neither of two given texts.
  function Another(x: string, y: string): (r: string)
    ensures ValidReservationId(r) && r != x && r != y
  {
    if "p" != x && "p" != y then "p" else if "q" != x && "q" != y then "q" else "r"
  }

  lemma UnitShort(balances: map<Key, Balance>, sku: string)
    requires AtpAt(balances, Key(sku, 1)) == 0 && AtpAt(balances, Key(sku, 2)) == 1
    ensures Shortages(balances, Some(1), RedeliveryLimits.Basket(sku)) == [Shortage(sku, 1, 0)]
    ensures !Fulfills(balances, 1, RedeliveryLimits.Basket(sku)) && Fulfills(balances, 2, RedeliveryLimits.Basket(sku))
  {
    var items := RedeliveryLimits.Basket(sku);
    assert items[0] == Item(sku, 1) && items[..0] == [];
  }

  // The booking that will come too late, and the one that is in time.
  function Late(id: string, orderRef: string, sku: string, region: string): Work {
    WorkOf(Reserve(Request(id, orderRef, RedeliveryLimits.Basket(sku), region)))
  }

  function InTime(id: string, orderRef: string, sku: string): Command {
    RedeliveryLimits.Booking(Another(id, orderRef), sku)
  }

  lemma LateWork(id: string, orderRef: string, sku: string, region: string)
    ensures var work := Late(id, orderRef, sku, region);
            && work.Booking? && work.id == id && work.orderRef == orderRef && work.items == RedeliveryLimits.Basket(sku)
            && Admitted(work)
  {
    RedeliveryLimits.OneLine(sku);
  }

  lemma InTimeApart(id: string, orderRef: string, sku: string)
    ensures var work := WorkOf(InTime(id, orderRef, sku));
            Admitted(work) && Elsewhere(ReservationId(id), work) && Elsewhere(OrderRef(orderRef), work)
  {
    LateWork(Another(id, orderRef), Another(id, orderRef), sku, "");
  }

  lemma LateChooses(db: Db, id: string, orderRef: string, sku: string, region: string)
    requires OneEach(db, sku) && ValidReservationId(id) && |orderRef| <= 255
    ensures Late(id, orderRef, sku, region).Booking? && Chooses(db, Late(id, orderRef, sku, region), 1)
  {
    LateWork(id, orderRef, sku, region);
    FirstOfPair(db, sku);
  }

  // Once the other is booked.
  lemma AfterInTime(db: Db, id: string, orderRef: string, sku: string)
    requires OneEach(db, sku) && ValidSku(sku)
    ensures var db', items := Exec(db, InTime(id, orderRef, sku)), RedeliveryLimits.Basket(sku);
            && !Fulfills(db'.balances, 1, items) && Shortages(db'.balances, Some(1), items) == [Shortage(sku, 1, 0)]
            && Fulfills(db'.balances, 2, items) && Active(db', 2)
  {
    RivalBooks(db, Another(id, orderRef), sku);
    UnitShort(Exec(db, InTime(id, orderRef, sku)).balances, sku);
  }

  lemma RaceLost(s: Sys, id: string, orderRef: string, sku: string, region: string)
    requires Prepared(s, sku) && ValidReservationId(id) && |orderRef| <= 255 && ValidSku(sku)
    ensures Late(id, orderRef, sku, region).Booking?
    ensures exists s' :: EndsRefused(s, s', Exec(s.db, InTime(id, orderRef, sku)), 2, Late(id, orderRef, sku, region), 1)
  {
    LateWork(id, orderRef, sku, region);
    InTimeApart(id, orderRef, sku);
    LateChooses(s.db, id, orderRef, sku, region);
    AfterInTime(s.db, id, orderRef, sku);
    LateCommitRefuses(s, 2, 3, Late(id, orderRef, sku, region), InTime(id, orderRef, sku), 1);
  }

  lemma LedFromBoot(s: Sys, s': Sys, db: Db, t: nat, work: Work, wh: int)
    requires work.Booking? && Reaches(Boot(PAIR), s) && EndsRefused(s, s', db, t, work, wh)
    ensures exists actions :: Execute(Boot(PAIR), actions).db == db
                              && Refused(Execute(Boot(PAIR), actions), t, work, Shortages(db.balances, Some(wh), work.items))
  {
    ReachesThen(Boot(PAIR), s, s');
    var actions :| Execute(Boot(PAIR), actions) == s';
  }

  // Insufficient stock is answered although one active warehouse can fulfil the basket: for every
  // id, order and SKU, with one unit in each of two warehouses, a booking of one unit chooses the
  // first; before it locks the row there another booking takes that unit; the first is refused while
  // the second warehouse still has its unit.
  lemma RefusedBesideStock(id: string, orderRef: string, sku: string, region: string)
    requires ValidReservationId(id) && |orderRef| <= 255 && ValidSku(sku)
    ensures exists actions ::
              && Refused(Execute(Boot(PAIR), actions), 2, Late(id, orderRef, sku, region), [Shortage(sku, 1, 0)])
              && Active(Execute(Boot(PAIR), actions).db, 2)
              && Fulfills(Execute(Boot(PAIR), actions).db.balances, 2, RedeliveryLimits.Basket(sku))
  {
    ReceiptsRun(sku);
    var s :| Prepared(s, sku);
    var work, db' := Late(id, orderRef, sku, region), Exec(s.db, InTime(id, orderRef, sku));
    RaceLost(s, id, orderRef, sku, region);
    var s' :| EndsRefused(s, s', db', 2, work, 1);
    AfterInTime(s.db, id, orderRef, sku);
    LateWork(id, orderRef, sku, region);
    LedFromBoot(s, s', db', 2, work, 1);
    var actions :| Execute(Boot(PAIR), actions).db == db'
                   && Refused(Execute(Boot(PAIR), actions), 2, work, Shortages(db'.balances, Some(1), work.items));
  }

  // Stock that comes late to the lowest warehouse ----------------------------------------------------------

  lemma SecondCovers(balances: map<Key, Balance>, sku: string)
    requires Key(sku, 2) in balances && balances[Key(sku, 2)] == Balance(1, 0, 0, 1) && Key(sku, 1) !in balances
    ensures Fulfills(balances, 2, RedeliveryLimits.Basket(sku)) && !Fulfills(balances, 1, RedeliveryLimits.Basket(sku))
  {
    assert RedeliveryLimits.Basket(sku)[0] == Item(sku, 1);
  }

  lemma FirstIsSecond(balances: map<Key, Balance>, items: seq<Item>)
    requires Fulfills(balances, 2, items) && !Fulfills(balances, 1, items)
    ensures FirstFulfilling(balances, ActiveIds(PAIR), items) == Some(2)
  {
    assert 2 in ActiveIds(PAIR);
  }

  lemma SecondChosen(db: Db, id: string, orderRef: string, sku: string, region: string)
    requires SecondOnly(db, sku) && ValidReservationId(id) && |orderRef| <= 255
    ensures Late(id, orderRef, sku, region).Booking? && Chooses(db, Late(id, orderRef, sku, region), 2)
  {
    LateWork(id, orderRef, sku, region);
    SecondCovers(db.balances, sku);
    FirstIsSecond(db.balances, RedeliveryLimits.Basket(sku));
  }

  lemma BothCover(db: Db, work: Work, sku: string)
    requires OneEach(db, sku) && work.Booking? && work.items == RedeliveryLimits.Basket(sku)
    ensures Active(db, 1) && Fulfills(db.balances, 1, work.items) && Fulfills(db.balances, 2, work.items)
    ensures IdsFree(db.movements, work, AllocateFrom(work.items, 2), 0, |work.items|)
  {
    assert work.items[0] == Item(sku, 1);
    forall i | 0 <= i < |work.items| ensures !AdminRow(db.movements, CommandId(Hold, work.id, AllocateFrom(work.items, 2)[i].sku)) {
      assert |CommandId(Hold, work.id, sku)| > 1 && |"a"| == 1 && |"b"| == 1;
    }
  }

  lemma LateStockApart(sku: string, work: Work)
    requires work.Booking?
    ensures var other := WorkOf(LateStock(sku));
            Admitted(other) && Edge(other) && Elsewhere(ReservationId(work.id), other) && Elsewhere(OrderRef(work.orderRef), other)
  {
  }

  lemma LateStockLands(db: Db, work: Work, sku: string)
    requires SecondOnly(db, sku) && ValidSku(sku) && work.Booking? && work.items == RedeliveryLimits.Basket(sku)
    ensures var db' := Exec(db, LateStock(sku));
            && Active(db', 1) && Fulfills(db'.balances, 1, work.items) && Fulfills(db'.balances, 2, work.items)
            && IdsFree(db'.movements, work, AllocateFrom(work.items, 2), 0, |work.items|)
  {
    FirstStocked(db, sku);
    BothCover(Exec(db, LateStock(sku)), work, sku);
  }

  lemma RaceIgnored(s: Sys, id: string, orderRef: string, sku: string, region: string)
    requires SecondReady(s, sku) && ValidReservationId(id) && |orderRef| <= 255 && ValidSku(sku)
    ensures Late(id, orderRef, sku, region).Booking?
    ensures exists s' :: EndsBooking(s, s', Exec(s.db, LateStock(sku)), 2, Late(id, orderRef, sku, region), 2)
  {
    var work := Late(id, orderRef, sku, region);
    LateWork(id, orderRef, sku, region);
    SecondChosen(s.db, id, orderRef, sku, region);
    LateStockApart(sku, work);
    LateStockLands(s.db, work, sku);
    LateCommitBooks(s, 2, 3, work, LateStock(sku), 2);
  }

  // A hold need not stand on the lowest-id active warehouse that can fulfil the basket: for every id,
  // order and SKU, a schedule ends with a booking about to commit, and to answer with, a hold on
  // warehouse 2 while the active warehouse 1 covers the basket too.
  lemma BookedAboveLowest(id: string, orderRef: string, sku: string, region: string)
    requires ValidReservationId(id) && |orderRef| <= 255 && ValidSku(sku)
    ensures Late(id, orderRef, sku, region).Booking?
    ensures exists actions ::
              && AboutToBook(Execute(Boot(PAIR), actions), 2, Late(id, orderRef, sku, region), 2)
              && Active(Execute(Boot(PAIR), actions).db, 1)
              && Fulfills(Execute(Boot(PAIR), actions).db.balances, 1, Late(id, orderRef, sku, region).items)
  {
    SecondRuns(sku);
    var s :| SecondReady(s, sku);
    var work, db' := Late(id, orderRef, sku, region), Exec(s.db, LateStock(sku));
    LateWork(id, orderRef, sku, region);
    RaceIgnored(s, id, orderRef, sku, region);
    var s' :| EndsBooking(s, s', db', 2, work, 2);
    LateStockLands(s.db, work, sku);
    ReachesThen(Boot(PAIR), s, s');
    var actions :| Execute(Boot(PAIR), actions) == s';
  }
}
