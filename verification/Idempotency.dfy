/** Repeating commands: what a second delivery does, over whole runs. */
module Idempotency {
  import opened Validate
  import opened CommandIds
  import opened Tables
  import opened Posting
  import opened Aggregation
  import opened Invariants
  import opened Ledger
  import opened Commands
  import Preservation
  import Canonical
  import Ordering

  // A command is Legal-checked before it commits, so one command is one event or none.
  lemma ExecKeeps(db: Db, c: Command)
    requires Inv(db)
    ensures Inv(Exec(db, c)) && Evolves(db, Exec(db, c))
  {
    DecisionIsLegal(db, c);
    var ev := Decide(db, c).0;
    if ev.Some? {
      Preservation.EventKeepsInv(db, ev.value, Exec(db, c));
      EventEvolves(db, ev.value, Exec(db, c));
    } else {
      EvolvesReflexive(db);
    }
  }

  function Run(db: Db, cs: seq<Command>): Db
    decreases |cs|
  {
    if cs == [] then db else Run(Exec(db, cs[0]), cs[1..])
  }

  lemma {:induction false} RunKeeps(db: Db, cs: seq<Command>)
    requires Inv(db)
    ensures Inv(Run(db, cs)) && Evolves(db, Run(db, cs))
    decreases |cs|
  {
    if cs == [] {
      EvolvesReflexive(db);
    } else {
      ExecKeeps(db, cs[0]);
      RunKeeps(Exec(db, cs[0]), cs[1..]);
      EvolvesTransitive(db, Exec(db, cs[0]), Run(db, cs));
    }
  }

  // Having been applied ---------------------------------------------------------

  // db shows that c has already taken effect.
  predicate AppliedIn(db: Db, c: Command) {
    match c
    case Reserve(req) =>
      AggregateTotals(req.items);
      && HeaderFits(req.id, req.orderRef)
      && req.id in db.headers && db.headers[req.id].orderRef == req.orderRef
      && db.headers[req.id].hash == Canonical.Encode(Aggregate(req.items), req.region)
    case Release(id, _) => id in db.headers && db.headers[id].status == Released
    case Commit(id) => id in db.headers && db.headers[id].status == Committed
    case Stock(act, cmd) =>
      && ValidCommand(act, cmd) && MovementFits(cmd.commandId, StockRow(act, cmd))
      && cmd.commandId in db.movements && SameCommand(db.movements[cmd.commandId], StockRow(act, cmd))
  }

  // The success replies that stand for an effect. Release of a missing id also succeeds, but
  // leaves no trace.
  predicate Took(db: Db, c: Command) {
    !Answer(db, c).Failed? && (c.Release? ==> c.id in db.headers)
  }

  lemma TookMeansApplied(db: Db, c: Command)
    requires Took(db, c)
    ensures AppliedIn(Exec(db, c), c)
  {
    match c
    case Reserve(req) =>
      AggregateTotals(req.items);
      var ev := Decide(db, c).0;
      if ev.Some? {
        Preservation.ReserveTables(db, req.id, req.orderRef, ev.value.hash, ev.value.wh, ev.value.ls);
      }
    case Release(id, reason) =>
      if Decide(db, c).0.Some? { Preservation.SettleTables(db, SettleEv(id, Unhold, reason)); }
    case Commit(id) =>
      if Decide(db, c).0.Some? { Preservation.SettleTables(db, SettleEv(id, Sale, "")); }
    case Stock(act, cmd) =>
      if Decide(db, c).0.Some? { Preservation.StockIsStockStep(db, StockEv(act, cmd)); }
  }

  lemma AppliedStays(db: Db, db': Db, c: Command)
    requires AppliedIn(db, c) && Evolves(db, db')
    ensures AppliedIn(db', c)
  {
  }

  lemma AppliedIsInert(db: Db, c: Command)
    requires AppliedIn(db, c)
    ensures Exec(db, c) == db && Took(db, c)
  {
  }

  // At-least-once delivery --------------------------------------------------------

  // A delivery log: each command the first time, and any later redeliveries.
  datatype Delivery = First(c: Command) | Again(c: Command)

  function Firsts(ds: seq<Delivery>): seq<Command> {
    if ds == [] then []
    else (if ds[0].First? then [ds[0].c] else []) + Firsts(ds[1..])
  }

  // Every redelivery repeats a command that has taken effect.
  predicate Redelivers(db: Db, ds: seq<Delivery>, took: set<Command>)
    decreases |ds|
  {
    if ds == [] then true
    else
      var c := ds[0].c;
      && (ds[0].Again? ==> c in took)
      && Redelivers(Exec(db, c), ds[1..], if Took(db, c) then took + {c} else took)
  }

  function RunAll(db: Db, ds: seq<Delivery>): Db
    decreases |ds|
  {
    if ds == [] then db else RunAll(Exec(db, ds[0].c), ds[1..])
  }

  // The replies to the first deliveries.
  function FirstReplies(db: Db, ds: seq<Delivery>): seq<Reply>
    decreases |ds|
  {
    if ds == [] then []
    else (if ds[0].First? then [Answer(db, ds[0].c)] else []) + FirstReplies(Exec(db, ds[0].c), ds[1..])
  }

  function Replies(db: Db, cs: seq<Command>): seq<Reply>
    decreases |cs|
  {
    if cs == [] then [] else [Answer(db, cs[0])] + Replies(Exec(db, cs[0]), cs[1..])
  }

  // However many redeliveries are interleaved, and wherever: the final state is that of the first
  // deliveries alone, and no other reply changes.
  lemma {:induction false} ExactlyOnceEffect(db: Db, ds: seq<Delivery>, took: set<Command>)
    requires Inv(db) && Redelivers(db, ds, took)
    requires forall c | c in took :: AppliedIn(db, c)
    ensures RunAll(db, ds) == Run(db, Firsts(ds))
    ensures FirstReplies(db, ds) == Replies(db, Firsts(ds))
    decreases |ds|
  {
    if ds != [] {
      var c := ds[0].c;
      var db' := Exec(db, c);
      ExecKeeps(db, c);
      forall d | d in took ensures AppliedIn(db', d) { AppliedStays(db, db', d); }
      if Took(db, c) { TookMeansApplied(db, c); }
      ExactlyOnceEffect(db', ds[1..], if Took(db, c) then took + {c} else took);
      if ds[0].Again? {
        AppliedIsInert(db, c);
        assert Firsts(ds) == Firsts(ds[1..]);
      } else {
        assert Firsts(ds)[1..] == Firsts(ds[1..]);
      }
    }
  }

  // Reserve is idempotent by its id ------------------------------------------------

  predicate ValidRequest(req: Request) {
    && ValidReservationId(req.id) && ValidReservationId(req.orderRef)
    && ValidItems(req.items) && ValidRegion(req.region)
  }

  // The same booking, up to the order of its lines and the splitting of a SKU over several lines.
  ghost predicate SameBooking(a: Request, b: Request) {
    a.id == b.id && a.orderRef == b.orderRef && a.region == b.region && SameTotals(a.items, b.items)
  }

  lemma LinesMapKeys(items: seq<Item>, wh: int, a: Allocation)
    requires Distinct(items)
    ensures DistinctSkus(AllocateFrom(items, wh))
    ensures a in AllocateFrom(items, wh)
            <==> a.sku in LinesMap(AllocateFrom(items, wh)) && LinesMap(AllocateFrom(items, wh))[a.sku] == Line(a.wh, a.qty)
  {
    var r := AllocateFrom(items, wh);
    LinesMapMembers(r);
    if a.sku in LinesMap(r) {
      var i :| 0 <= i < |r| && r[i].sku == a.sku;
      assert r[i] in r;
    }
  }

  // What a first Reserve answers is, as a multiset, what it stored.
  lemma FreshLinesStored(lines: map<LineKey, Line>, id: string, items: seq<Item>, wh: int)
    requires Distinct(items) && forall s :: LineKey(id, s) !in lines
    ensures multiset(LoadLines(lines + NewLines(id, LinesMap(AllocateFrom(items, wh))), id))
         == multiset(AllocateFrom(items, wh))
  {
    var r, lines' := AllocateFrom(items, wh), lines + NewLines(id, LinesMap(AllocateFrom(items, wh)));
    var stored := LoadLines(lines', id);
    forall a ensures a in stored <==> a in r {
      LinesMapKeys(items, wh, a);
      assert a in stored <==> a in AllocationsOf(lines', id);
    }
    LoadedDistinct(lines', id);
    LinesMapKeys(items, wh, Allocation("", 0, 0));
    assert forall i, j | 0 <= i < j < |stored| :: stored[i].sku != stored[j].sku;
    assert forall i, j | 0 <= i < j < |r| :: r[i].sku != r[j].sku;
    Ordering.SameMembersPermute(stored, r);
  }

  lemma FreshHoldStored(db: Db, id: string, orderRef: string, items: seq<Item>, region: string)
    requires Distinct(items) && forall s :: id !in db.headers ==> LineKey(id, s) !in db.lines
    requires DecideReserve(db, id, orderRef, items, region).0.Some?
    ensures var (ev, reply) := DecideReserve(db, id, orderRef, items, region);
            reply.Held? && multiset(LoadLines(Apply(db, ev.value).lines, id)) == multiset(reply.allocations)
  {
    var ev := DecideReserve(db, id, orderRef, items, region).0.value;
    Preservation.ReserveTables(db, id, orderRef, ev.hash, ev.wh, ev.ls);
    FreshLinesStored(db.lines, id, items, ev.wh);
  }

  lemma ReplayedHold(db: Db, id: string, orderRef: string, items: seq<Item>, region: string)
    requires Distinct(items)
    requires var (ev, reply) := DecideReserve(db, id, orderRef, items, region); ev.None? && reply.Held?
    ensures DecideReserve(db, id, orderRef, items, region).1.allocations == LoadLines(db.lines, id)
  {
  }

  lemma HeldMeansStored(db: Db, req: Request)
    requires Inv(db) && Answer(db, Reserve(req)).Held?
    ensures AppliedIn(Exec(db, Reserve(req)), Reserve(req))
    ensures multiset(LoadLines(Exec(db, Reserve(req)).lines, req.id)) == multiset(Answer(db, Reserve(req)).allocations)
  {
    TookMeansApplied(db, Reserve(req));
    AggregateTotals(req.items);
    var items := Aggregate(req.items);
    if DecideReserve(db, req.id, req.orderRef, items, req.region).0.Some? {
      FreshHoldStored(db, req.id, req.orderRef, items, req.region);
    } else {
      ReplayedHold(db, req.id, req.orderRef, items, req.region);
    }
  }

  lemma LinesStay(db: Db, db': Db, id: string)
    requires Evolves(db, db') && id in db.headers
    ensures LoadLines(db'.lines, id) == LoadLines(db.lines, id)
  {
    forall a ensures a in AllocationsOf(db'.lines, id) <==> a in AllocationsOf(db.lines, id) {
      assert LineKey(id, a.sku) in db'.lines <==> LineKey(id, a.sku) in db.lines;
    }
    assert AllocationsOf(db'.lines, id) == AllocationsOf(db.lines, id);
  }

  // A request whose id or order is taken, decided.
  lemma TakenDecision(db: Db, owner: string, id: string, orderRef: string, items: seq<Item>, region: string)
    requires HeadersOk(db.headers) && Distinct(items) && HeaderFits(id, orderRef)
    requires owner in db.headers && (id == owner || orderRef == db.headers[owner].orderRef)
    ensures DecideReserve(db, id, orderRef, items, region)
         == (None, if id == owner && db.headers[owner].orderRef == orderRef && db.headers[owner].hash == Canonical.Encode(items, region)
                   then Held(db.headers[owner].status, LoadLines(db.lines, owner), true) else Failed(IdempotencyConflict))
  {
    if id != owner && id in db.headers {
      assert db.headers[id].orderRef != db.headers[owner].orderRef;
    }
  }

  // How a request that reuses a taken id or order is answered.
  lemma TakenIdAnswer(db: Db, req: Request, req': Request)
    requires HeadersOk(db.headers) && AppliedIn(db, Reserve(req)) && ValidRequest(req) && ValidRequest(req')
    requires req'.id == req.id || req'.orderRef == req.orderRef
    ensures Exec(db, Reserve(req')) == db
    ensures Answer(db, Reserve(req'))
         == if SameBooking(req, req') then Held(db.headers[req.id].status, LoadLines(db.lines, req.id), true)
            else Failed(IdempotencyConflict)
  {
    AggregateTotals(req'.items);
    Canonical.CanonicalInjective(req.items, req.region, req'.items, req'.region);
    TakenDecision(db, req.id, req'.id, req'.orderRef, Aggregate(req'.items), req'.region);
  }

  // Once a Reserve has been answered with a hold, then after any further commands: the same booking
  // again is a replay of the same allocations under the current status, and any other request that
  // reuses its id or its order is a conflict. Neither changes anything.
  lemma ReserveIdempotent(db: Db, req: Request, cs: seq<Command>, req': Request)
    requires Inv(db) && ValidRequest(req) && ValidRequest(req')
    requires Answer(db, Reserve(req)).Held?
    requires req'.id == req.id || req'.orderRef == req.orderRef
    ensures var db' := Run(Exec(db, Reserve(req)), cs);
            && Exec(db', Reserve(req')) == db'
            && req.id in db'.headers
            && if SameBooking(req, req') then
                 var again := Answer(db', Reserve(req'));
                 && again.Held? && again.replayed && again.status == db'.headers[req.id].status
                 && multiset(again.allocations) == multiset(Answer(db, Reserve(req)).allocations)
               else Answer(db', Reserve(req')) == Failed(IdempotencyConflict)
  {
    var db1 := Exec(db, Reserve(req));
    var db' := Run(db1, cs);
    HeldMeansStored(db, req);
    ExecKeeps(db, Reserve(req));
    RunKeeps(db1, cs);
    AppliedStays(db1, db', Reserve(req));
    LinesStay(db1, db', req.id);
    TakenIdAnswer(db', req, req');
  }

  // Order-reference race --------------------------------------------------------------

  // The claim died on the external_reference index, because a committed header already carried the
  // order. The later read by id, in whatever state it then finds, is a replay exactly when that
  // header is this reservation's own with the same hash; otherwise a conflict. It never re-applies.
  lemma OrderRaceVerdict(db: Db, db': Db, owner: string, id: string, orderRef: string, hash: string)
    requires Inv(db) && Inv(db') && Evolves(db, db')
    requires owner in db.headers && db.headers[owner].orderRef == orderRef
    ensures RaceReply(db', id, orderRef, hash)
         == if owner == id && db.headers[owner].hash == hash
            then Held(db'.headers[id].status, LoadLines(db.lines, id), true)
            else Failed(IdempotencyConflict)
  {
    if owner == id {
      LinesStay(db, db', id);
    } else if id in db'.headers {
      assert db'.headers[owner].orderRef == orderRef;
      assert db'.headers[id].orderRef != orderRef;
    }
  }

  // What Reserve returns after its transaction died on the order index: replayReservation on the
  // pool, with a missing row read as a conflict.
  function RaceReply(db: Db, id: string, orderRef: string, hash: string): Reply {
    if id !in db.headers then Failed(IdempotencyConflict) else ReplayReply(db, id, orderRef, hash)
  }
}
