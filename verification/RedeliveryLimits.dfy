/** The two deliveries that ExactlyOnceEffect excludes, each with a run that shows why. */
module RedeliveryLimits {
  import opened Validate
  import opened CommandIds
  import opened Tables
  import opened Posting
  import opened Aggregation
  import opened Invariants
  import opened Commands
  import opened Idempotency
  import Preservation
  import Availability
  import Outcomes
  import Redeem
  import Canonical
  import Ordering

  const WAREHOUSES := map[1 := true]

  function Basket(sku: string): seq<Item> {
    [Item(sku, 1)]
  }

  // Book one unit of sku under id.
  function Booking(id: string, sku: string): Command {
    Reserve(Request(id, id, Basket(sku), ""))
  }

  // Receive five units of sku into warehouse 1.
  function Receipt(sku: string): Command {
    Stock(ReceiveStock, StockCommand("a", sku, 1, 5, "", ""))
  }

  ghost predicate Stocked(db: Db, sku: string) {
    && db.warehouses == WAREHOUSES
    && db.balances == map[Key(sku, 1) := Balance(5, 0, 0, 1)]
    && db.headers == map[] && db.lines == map[]
    && db.movements.Keys == {"a"} && MovementFits("a", db.movements["a"])
  }

  lemma OneLine(sku: string)
    ensures Distinct(Basket(sku)) && Aggregate(Basket(sku)) == Basket(sku)
  {
    AggregateIdempotent(Basket(sku));
  }

  lemma OneActive()
    ensures ActiveIds(WAREHOUSES) == [1]
  {
    var ids := ActiveIds(WAREHOUSES);
    var less := (a: int, b: int) => a < b;
    assert 1 in WAREHOUSES;
    assert Ordering.Elements(ids) == {1} == Ordering.Elements([1]);
    Ordering.AscendingUnique(ids, [1], less);
  }

  lemma EmptyRefuses(id: string, sku: string)
    requires ValidReservationId(id) && ValidSku(sku)
    ensures Answer(EmptyDb(WAREHOUSES), Booking(id, sku)) == Failed(UnknownSku([sku]))
    ensures Exec(EmptyDb(WAREHOUSES), Booking(id, sku)) == EmptyDb(WAREHOUSES)
  {
    var db := EmptyDb(WAREHOUSES);
    OneLine(sku);
    OneActive();
    assert !Fulfills(db.balances, 1, Basket(sku)) by { assert Basket(sku)[0] == Item(sku, 1); }
    assert Basket(sku)[..0] == [];
    assert [sku] == Untracked(db, Basket(sku));
  }

  lemma ReceiptStocks(sku: string)
    requires ValidSku(sku)
    ensures Stocked(Exec(EmptyDb(WAREHOUSES), Receipt(sku)), sku)
    ensures Redeem.Tidy(Exec(EmptyDb(WAREHOUSES), Receipt(sku)))
  {
    var db := EmptyDb(WAREHOUSES);
    var cmd := StockCommand("a", sku, 1, 5, "", "");
    assert Decide(db, Receipt(sku)) == (Some(StockEv(ReceiveStock, cmd)), Applied(true));
    DecisionIsLegal(db, Receipt(sku));
    Preservation.StockIsStockStep(db, StockEv(ReceiveStock, cmd));
    assert !ReservationForm("a");
  }

  lemma BookedRows(db: Db, id: string, sku: string)
    requires ValidReservationId(id) && ValidSku(sku) && Stocked(db, sku)
    ensures CanMove(db.balances, Hold, map[sku := Line(1, 1)])
    ensures CanRecord(db.movements, Hold, id, map[sku := Line(1, 1)], "")
  {
    LengthCapIsTight(Hold, id);
    assert |CommandId(Hold, id, sku)| > 1;
    assert |"a"| == 1;
  }

  lemma BookedEvent(db: Db, id: string, sku: string, hash: string)
    requires ValidReservationId(id) && ValidSku(sku) && Stocked(db, sku)
    ensures Legal(db, ReserveEv(id, id, hash, 1, map[sku := Line(1, 1)]))
  {
    BookedRows(db, id, sku);
    var ls := map[sku := Line(1, 1)];
    assert Covers(db.balances, ls);
    assert Active(db, 1);
  }

  lemma OneAllocation(sku: string)
    ensures LinesMap(AllocateFrom(Basket(sku), 1)) == map[sku := Line(1, 1)]
  {
    var a := AllocateFrom(Basket(sku), 1);
    assert a[..0] == [];
  }

  lemma StockedDecides(db: Db, id: string, sku: string)
    requires ValidReservationId(id) && ValidSku(sku) && Stocked(db, sku)
    requires Distinct(Basket(sku))
    ensures DecideReserve(db, id, id, Basket(sku), "").0
         == Some(ReserveEv(id, id, Canonical.Encode(Basket(sku), ""), 1, map[sku := Line(1, 1)]))
  {
    OneActive();
    OneAllocation(sku);
    assert Fulfills(db.balances, 1, Basket(sku));
    BookedEvent(db, id, sku, Canonical.Encode(Basket(sku), ""));
  }

  lemma BookingDecides(db: Db, id: string, sku: string)
    requires ValidReservationId(id) && ValidSku(sku) && Stocked(db, sku) && Distinct(Basket(sku))
    ensures Decide(db, Booking(id, sku)).0
         == Some(ReserveEv(id, id, Canonical.Encode(Basket(sku), ""), 1, map[sku := Line(1, 1)]))
  {
    OneLine(sku);
    StockedDecides(db, id, sku);
  }

  lemma BookingCommits(db: Db, id: string, sku: string)
    requires ValidReservationId(id) && ValidSku(sku) && Stocked(db, sku) && Distinct(Basket(sku))
    ensures Decide(db, Booking(id, sku)).0.Some? && Redeem.Namespaced(Decide(db, Booking(id, sku)).0.value)
    ensures Exec(db, Booking(id, sku)).headers == map[id := Header(id, Canonical.Encode(Basket(sku), ""), Reserved)]
  {
    BookingDecides(db, id, sku);
    BookedNamespaced(id, sku, Canonical.Encode(Basket(sku), ""));
    BookedHeaders(db, id, sku, Canonical.Encode(Basket(sku), ""));
  }

  lemma BookedNamespaced(id: string, sku: string, hash: string)
    requires ValidSku(sku)
    ensures Redeem.Namespaced(ReserveEv(id, id, hash, 1, map[sku := Line(1, 1)]))
  {
  }

  lemma BookedHeaders(db: Db, id: string, sku: string, hash: string)
    requires db.headers == map[]
    ensures Apply(db, ReserveEv(id, id, hash, 1, map[sku := Line(1, 1)])).headers == map[id := Header(id, hash, Reserved)]
  {
    Preservation.ReserveTables(db, id, id, hash, 1, map[sku := Line(1, 1)]);
  }

  lemma StockedBooks(db: Db, id: string, sku: string)
    requires ValidReservationId(id) && ValidSku(sku) && Stocked(db, sku) && Redeem.Tidy(db) && Inv(db)
    ensures id in Exec(db, Booking(id, sku)).headers && Exec(db, Booking(id, sku)).headers[id].status == Reserved
    ensures Redeem.Tidy(Exec(db, Booking(id, sku))) && Inv(Exec(db, Booking(id, sku)))
  {
    OneLine(sku);
    BookingCommits(db, id, sku);
    ExecKeeps(db, Booking(id, sku));
    DecisionIsLegal(db, Booking(id, sku));
    Redeem.EventKeepsTidy(db, Decide(db, Booking(id, sku)).0.value, Exec(db, Booking(id, sku)));
  }

  lemma OpenReleases(db: Db, id: string)
    requires Inv(db) && Redeem.Tidy(db) && id in db.headers && db.headers[id].status == Reserved
    ensures id in Exec(db, Release(id, "")).headers && Exec(db, Release(id, "")).headers[id].status == Released
  {
    Redeem.SettleOne(db, SettleEv(id, Unhold, ""));
    SettleDecides(db, id, Unhold, "");
  }

  // A Reserve that failed has left no trace, so delivering it again later may book: for every id
  // and SKU, refused, then stocked, then delivered again.
  lemma FailedReserveMayLandLater(id: string, sku: string)
    requires ValidReservationId(id) && ValidSku(sku)
    ensures var db := EmptyDb(WAREHOUSES);
            && Answer(db, Booking(id, sku)).Failed?
            && id !in Run(db, [Booking(id, sku), Receipt(sku)]).headers
            && id in Run(db, [Booking(id, sku), Receipt(sku), Booking(id, sku)]).headers
  {
    var db := EmptyDb(WAREHOUSES);
    var c, r := Booking(id, sku), Receipt(sku);
    EmptyRefuses(id, sku);
    ReceiptStocks(sku);
    InvInit(WAREHOUSES);
    ExecKeeps(db, r);
    StockedBooks(Exec(db, r), id, sku);
    RunTwo(db, c, r);
    RunThree(db, c, r, c);
  }

  // Release of an id that does not exist succeeds without a trace: delivered again after the
  // Reserve has landed, it releases the hold.
  lemma MissingReleaseMayBiteLater(id: string, sku: string)
    requires ValidReservationId(id) && ValidSku(sku)
    ensures var db, rel := EmptyDb(WAREHOUSES), Release(id, "");
            var once, twice := Run(db, [rel, Receipt(sku), Booking(id, sku)]), Run(db, [rel, Receipt(sku), Booking(id, sku), rel]);
            && Answer(db, rel) == Settled(Released)
            && id in once.headers && once.headers[id].status == Reserved
            && id in twice.headers && twice.headers[id].status == Released
  {
    var db, rel := EmptyDb(WAREHOUSES), Release(id, "");
    var r, c := Receipt(sku), Booking(id, sku);
    assert Exec(db, rel) == db;
    ReceiptStocks(sku);
    InvInit(WAREHOUSES);
    ExecKeeps(db, r);
    StockedBooks(Exec(db, r), id, sku);
    OpenReleases(Exec(Exec(db, r), c), id);
    RunThree(db, rel, r, c);
    RunFour(db, rel, r, c, rel);
  }

  lemma RunCons(db: Db, c: Command, cs: seq<Command>)
    ensures Run(db, [c] + cs) == Run(Exec(db, c), cs)
  {
    assert ([c] + cs)[1..] == cs;
  }

  lemma RunTwo(db: Db, a: Command, b: Command)
    ensures Run(db, [a, b]) == Exec(Exec(db, a), b)
  {
    assert [a, b] == [a] + [b] && [b] == [b] + [];
    RunCons(db, a, [b]);
    RunCons(Exec(db, a), b, []);
  }

  lemma RunThree(db: Db, a: Command, b: Command, c: Command)
    ensures Run(db, [a, b, c]) == Exec(Exec(Exec(db, a), b), c)
  {
    assert [a, b, c] == [a] + [b, c];
    RunCons(db, a, [b, c]);
    RunTwo(Exec(db, a), b, c);
  }

  lemma RunFour(db: Db, a: Command, b: Command, c: Command, d: Command)
    ensures Run(db, [a, b, c, d]) == Exec(Exec(Exec(Exec(db, a), b), c), d)
  {
    assert [a, b, c, d] == [a] + [b, c, d];
    RunCons(db, a, [b, c, d]);
    RunThree(Exec(db, a), b, c, d);
  }

  // When exactly a delivery acts -------------------------------------------------------------

  lemma SettledDiffers(db: Db, id: string, op: Op)
    requires op != Hold && StatusOf(db, id) == Some(Reserved)
    ensures forall reason :: Apply(db, SettleEv(id, op, reason)).headers != db.headers
  {
    forall reason ensures Apply(db, SettleEv(id, op, reason)).headers != db.headers {
      Preservation.SettleTables(db, SettleEv(id, op, reason));
    }
  }

  lemma OpenActsIff(db: Db, id: string, reason: string)
    requires StatusOf(db, id) == Some(Reserved)
    ensures After(db, DecideSettle(db, id, Unhold, reason).0) != db <==> Step(db, SettleEv(id, Unhold, reason)).Some?
  {
    if Step(db, SettleEv(id, Unhold, reason)).Some? {
      SettleDecides(db, id, Unhold, reason);
      SettledDiffers(db, id, Unhold);
    } else {
      SettleFails(db, id, Unhold, reason);
    }
  }

  // Whatever has happened since: a Release delivered now changes something if and only if the
  // reservation is open and no admin command squats on its release. So the redelivery of a Release
  // that once found nothing acts exactly when its Reserve has landed in between.
  lemma ReleaseActsIff(db: Db, id: string, reason: string)
    requires Inv(db) && Redeem.Edged(db) && |reason| <= 64
    ensures Exec(db, Release(id, reason)) != db <==> StatusOf(db, id) == Some(Reserved) && Redeem.Unsquatted(db, id, Unhold)
  {
    if StatusOf(db, id) == Some(Reserved) {
      Redeem.SettleableIff(db, id, Unhold, reason);
      OpenActsIff(db, id, reason);
    } else {
      Outcomes.ClosedAnswers(db, id, Unhold, reason);
    }
  }

  // A Reserve that once failed, delivered now with its id and order still unused, books if and only
  // if some active warehouse covers the basket and no admin command squats on its ledger ids.
  lemma ReserveActsIff(db: Db, req: Request)
    requires Inv(db) && Redeem.PlainLines(db.lines) && Availability.Fresh(db, req.id, req.orderRef, Aggregate(req.items))
    ensures Exec(db, Reserve(req)) != db
            <==> Outcomes.Servable(db, Aggregate(req.items)) && Availability.Unblocked(db.movements, req.id, Aggregate(req.items))
  {
    Outcomes.FreshOutcome(db, req.id, req.orderRef, Aggregate(req.items), req.region);
    assert Exec(db, Reserve(req)) == After(db, DecideReserve(db, req.id, req.orderRef, Aggregate(req.items), req.region).0);
  }
}
