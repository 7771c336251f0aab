/** Every hold that was granted can be redeemed: no settlement of an open reservation can fail. */
module Redeem {
  import opened Validate
  import opened CommandIds
  import opened Tables
  import opened Posting
  import opened Sums
  import opened Invariants
  import opened Preservation

  // What the edge checks of the SKUs it lets in.
  predicate PlainEvent(ev: Event) {
    ev.ReserveEv? ==> forall s | s in ev.ls :: ':' !in s
  }

  // What callers must respect for command ids not to collide: SKUs carry no ':' (the edge checks it)
  // and admin ids stay out of the res:/rel:/cmt: forms (nothing in the code checks that).
  predicate Namespaced(ev: Event) {
    PlainEvent(ev) && (ev.StockEv? ==> !ReservationForm(ev.cmd.commandId))
  }

  ghost predicate PlainLines(lines: map<LineKey, Line>) {
    forall lk | lk in lines :: ':' !in lk.sku
  }

  ghost predicate ColumnsFit(movements: map<string, Movement>) {
    forall c | c in movements :: MovementFits(c, movements[c])
  }

  // Tables filled through the edge, whatever command ids the admins used.
  ghost predicate Edged(db: Db) {
    ColumnsFit(db.movements) && PlainLines(db.lines)
  }

  predicate AdminRow(movements: map<string, Movement>, c: string) {
    c in movements && movements[c].origin.Admin?
  }

  ghost predicate AdminsApart(movements: map<string, Movement>) {
    forall c | AdminRow(movements, c) :: !ReservationForm(c)
  }

  // The same, and the naming rule was kept.
  ghost predicate Tidy(db: Db) {
    Edged(db) && AdminsApart(db.movements)
  }

  lemma LedgerRowsFit(movements: map<string, Movement>, op: Op, id: string, ls: map<string, Line>, reason: string)
    requires ColumnsFit(movements) && CanRecord(movements, op, id, ls, reason)
    ensures ColumnsFit(LedgerRows(op, id, ls, reason)) && ColumnsFit(movements + LedgerRows(op, id, ls, reason))
    ensures forall c | AdminRow(movements + LedgerRows(op, id, ls, reason), c) :: AdminRow(movements, c)
  {
    var rows := LedgerRows(op, id, ls, reason);
    forall c | c in rows ensures MovementFits(c, rows[c]) && rows[c].origin.Workflow? {
      var s :| s in ls && c == CommandId(op, id, s);
    }
  }

  lemma EventKeepsEdged(db: Db, ev: Event, db': Db)
    requires Inv(db) && Edged(db) && Step(db, ev) == Some(db') && PlainEvent(ev)
    ensures Edged(db')
    ensures forall c | AdminRow(db'.movements, c) :: AdminRow(db.movements, c) || (ev.StockEv? && c == ev.cmd.commandId)
  {
    match ev
    case ReserveEv(id, orderRef, hash, wh, ls) =>
      ReserveIsOpStep(db, ev);
      LedgerRowsFit(db.movements, Hold, id, ls, "");
    case SettleEv(id, op, reason) =>
      SettleIsOpStep(db, ev);
      LedgerRowsFit(db.movements, op, id, LinesOf(db.lines, id), reason);
    case StockEv(act, cmd) =>
      StockIsStockStep(db, ev);
  }

  // The ledger rows an event writes are rows that may be inserted.
  lemma WrittenFit(db: Db, ev: Event)
    requires ColumnsFit(db.movements) && Legal(db, ev)
    ensures ColumnsFit(EventWrites(db, ev).movements)
  {
    match ev
    case ReserveEv(id, orderRef, hash, wh, ls) => LedgerRowsFit(db.movements, Hold, id, ls, "");
    case SettleEv(id, op, reason) => LedgerRowsFit(db.movements, op, id, LinesOf(db.lines, id), reason);
    case StockEv(act, cmd) =>
  }

  lemma EventFits(db: Db, ev: Event, db': Db)
    requires ColumnsFit(db.movements) && Step(db, ev) == Some(db')
    ensures ColumnsFit(db'.movements)
  {
    WrittenFit(db, ev);
  }

  lemma {:induction false} RunFits(warehouses: map<int, bool>, evs: seq<Event>, db: Db)
    requires Replay(EmptyDb(warehouses), evs) == Some(db)
    ensures ColumnsFit(db.movements)
  {
    if evs != [] {
      var n := |evs| - 1;
      var mid := Replay(EmptyDb(warehouses), evs[..n]).value;
      RunFits(warehouses, evs[..n], mid);
      EventFits(mid, evs[n], db);
    }
  }

  // Whatever has been committed, a ledger row fits its columns.
  lemma LedgerWidths(warehouses: map<int, bool>, evs: seq<Event>, db: Db, c: string)
    requires Replay(EmptyDb(warehouses), evs) == Some(db) && c in db.movements
    ensures |c| <= 255 && |db.movements[c].key.sku| <= 64 && |db.movements[c].reason| <= 64
    ensures db.movements[c].origin.Admin? ==> |db.movements[c].origin.actor| <= 64
    ensures db.movements[c].origin.Workflow? ==> |db.movements[c].origin.rid| <= 255
  {
    RunFits(warehouses, evs, db);
  }

  lemma EventKeepsTidy(db: Db, ev: Event, db': Db)
    requires Inv(db) && Tidy(db) && Step(db, ev) == Some(db') && Namespaced(ev)
    ensures Tidy(db')
  {
    EventKeepsEdged(db, ev, db');
  }

  lemma {:induction false} RunKeepsTidy(db: Db, evs: seq<Event>, db': Db)
    requires Inv(db) && Tidy(db) && Replay(db, evs) == Some(db')
    requires forall ev | ev in evs :: Namespaced(ev)
    ensures Tidy(db')
  {
    if evs != [] {
      var n := |evs| - 1;
      var mid := Replay(db, evs[..n]).value;
      RunKeepsTidy(db, evs[..n], mid);
      RunKeepsInv(db, evs[..n], mid);
      EventKeepsTidy(mid, evs[n], db');
    }
  }

  // The units of one open line are part of its balance row's reserved column.
  lemma ReservedCoversLine(db: Db, lk: LineKey)
    requires Inv(db) && lk in db.lines && db.headers[lk.rid].status == Reserved
    ensures Key(lk.sku, db.lines[lk].wh) in db.balances
    ensures db.balances[Key(lk.sku, db.lines[lk].wh)].reserved >= db.lines[lk].qty > 0
  {
    var k := Key(lk.sku, db.lines[lk].wh);
    assert Accounts(db, k);
    HeldAtLeast(db.headers, db.lines, k, Reserved, lk.rid);
  }

  lemma HeldAtLeast(headers: map<string, Header>, lines: map<LineKey, Line>, k: Key, st: Status, id: string)
    requires id in headers && forall lk | lk in lines :: lines[lk].qty > 0
    ensures HeldTotal(headers, lines, k, st) >= HeldBy(headers, lines, k, st, id)
  {
    SumAtLeast(headers.Keys, r => HeldBy(headers, lines, k, st, r), id);
  }

  lemma OpenLinesMove(db: Db, id: string, op: Op)
    requires Inv(db) && id in db.headers && db.headers[id].status == Reserved && op != Hold
    ensures CanMove(db.balances, op, LinesOf(db.lines, id))
  {
    var ls := LinesOf(db.lines, id);
    forall s | s in ls
      ensures Key(s, ls[s].wh) in db.balances && Shifted(op, db.balances[Key(s, ls[s].wh)], ls[s].qty).Ok()
    {
      ReservedCoversLine(db, LineKey(id, s));
    }
  }

  // A ledger row under a reservation's id that its status does not call for is an admin row.
  lemma IdTakenByAdmin(db: Db, id: string, op: Op, s: string)
    requires Inv(db) && PlainLines(db.lines) && ':' !in s
    requires id in db.headers ==> !Due(op, db.headers[id].status)
    requires CommandId(op, id, s) in db.movements
    ensures AdminRow(db.movements, CommandId(op, id, s))
  {
    var c := CommandId(op, id, s);
    if db.movements[c].origin.Workflow? {
      var op', lk :| Justifies(db.headers, db.lines, db.movements, c, op', lk);
      CommandIdInjective(op, id, s, op', lk.rid, lk.sku);
      assert false;
    }
  }

  // Under the naming rule no such row exists.
  lemma IdFree(db: Db, id: string, op: Op, s: string)
    requires Inv(db) && Tidy(db) && ':' !in s
    requires id in db.headers ==> !Due(op, db.headers[id].status)
    ensures CommandId(op, id, s) !in db.movements
  {
    CommandIdHasForm(op, id, s);
    if CommandId(op, id, s) in db.movements { IdTakenByAdmin(db, id, op, s); }
  }

  lemma RowFits(db: Db, id: string, op: Op, s: string, reason: string)
    requires Inv(db) && ColumnsFit(db.movements) && id in db.headers && LineKey(id, s) in db.lines && |reason| <= 64
    ensures MovementFits(CommandId(op, id, s), LedgerRow(op, id, s, db.lines[LineKey(id, s)], reason))
  {
    assert Posted(db.movements, Hold, LineKey(id, s), db.lines[LineKey(id, s)]);
    assert |CommandId(op, id, s)| == |CommandId(Hold, id, s)|;
  }

  lemma OpenLinesRecord(db: Db, id: string, op: Op, reason: string)
    requires Inv(db) && Tidy(db) && id in db.headers && db.headers[id].status == Reserved && op != Hold
    requires |reason| <= 64
    ensures CanRecord(db.movements, op, id, LinesOf(db.lines, id), reason)
  {
    var ls := LinesOf(db.lines, id);
    forall s | s in ls
      ensures CommandId(op, id, s) !in db.movements
      ensures MovementFits(CommandId(op, id, s), LedgerRow(op, id, s, ls[s], reason))
    {
      assert LineKey(id, s) in db.lines;
      IdFree(db, id, op, s);
      RowFits(db, id, op, s, reason);
    }
  }

  // From a reachable namespaced state, any open reservation can be released or committed.
  lemma OpenIsSettleable(db: Db, id: string, op: Op, reason: string)
    requires Inv(db) && Tidy(db) && id in db.headers && db.headers[id].status == Reserved && op != Hold
    requires |reason| <= 64
    ensures Legal(db, SettleEv(id, op, reason))
  {
    OpenLinesMove(db, id, op);
    OpenLinesRecord(db, id, op, reason);
  }

  // No admin row stands under one of the settlement's ledger ids.
  ghost predicate Unsquatted(db: Db, id: string, op: Op) {
    forall s | LineKey(id, s) in db.lines :: !AdminRow(db.movements, CommandId(op, id, s))
  }

  lemma RecordableIff(db: Db, id: string, op: Op, reason: string)
    requires Inv(db) && Edged(db)
    requires id in db.headers && db.headers[id].status == Reserved && op != Hold && |reason| <= 64
    ensures CanRecord(db.movements, op, id, LinesOf(db.lines, id), reason) <==> Unsquatted(db, id, op)
  {
    var ls := LinesOf(db.lines, id);
    forall s | s in ls
      ensures MovementFits(CommandId(op, id, s), LedgerRow(op, id, s, ls[s], reason))
      ensures CommandId(op, id, s) in db.movements <==> AdminRow(db.movements, CommandId(op, id, s))
    {
      assert LineKey(id, s) in db.lines;
      RowFits(db, id, op, s, reason);
      if CommandId(op, id, s) in db.movements { IdTakenByAdmin(db, id, op, s); }
    }
    assert forall s | LineKey(id, s) in db.lines :: s in ls;
  }

  lemma SettlesIff(db: Db, ev: Event)
    requires ev.SettleEv? && ev.op != Hold && ev.id in db.headers && db.headers[ev.id].status == Reserved
    requires CanMove(db.balances, ev.op, LinesOf(db.lines, ev.id))
    ensures Step(db, ev).Some? <==> CanRecord(db.movements, ev.op, ev.id, LinesOf(db.lines, ev.id), ev.reason)
  {
  }

  // Without the naming rule: an open reservation can be settled exactly when no admin command has
  // used one of the ids rel:<id>:<sku> (to release it) or cmt:<id>:<sku> (to commit it).
  lemma SettleableIff(db: Db, id: string, op: Op, reason: string)
    requires Inv(db) && Edged(db)
    requires id in db.headers && db.headers[id].status == Reserved && op != Hold && |reason| <= 64
    ensures Step(db, SettleEv(id, op, reason)).Some? <==> Unsquatted(db, id, op)
  {
    OpenLinesMove(db, id, op);
    RecordableIff(db, id, op, reason);
    SettlesIff(db, SettleEv(id, op, reason));
  }

  lemma SettleOne(db: Db, ev: Event)
    requires Inv(db) && Tidy(db) && ev.SettleEv? && ev.op != Hold && |ev.reason| <= 64
    requires ev.id in db.headers && db.headers[ev.id].status == Reserved
    ensures Step(db, ev) == Some(Apply(db, ev)) && Inv(Apply(db, ev)) && Tidy(Apply(db, ev))
    ensures Apply(db, ev).headers == db.headers[ev.id := db.headers[ev.id].(status := StatusAfter(ev.op))]
  {
    OpenIsSettleable(db, ev.id, ev.op, ev.reason);
    EventKeepsInv(db, ev, Apply(db, ev));
    EventKeepsTidy(db, ev, Apply(db, ev));
    SettleTables(db, ev);
  }

  // A batch of settlements of distinct open reservations, in any order and any mix.
  ghost predicate Settlements(headers: map<string, Header>, evs: seq<Event>) {
    && (forall i | 0 <= i < |evs| ::
          && evs[i].SettleEv? && evs[i].op != Hold && |evs[i].reason| <= 64
          && evs[i].id in headers && headers[evs[i].id].status == Reserved)
    && (forall i, j | 0 <= i < j < |evs| :: evs[i].id != evs[j].id)
  }

  ghost predicate Settled(headers: map<string, Header>, headers': map<string, Header>, evs: seq<Event>)
    requires Settlements(headers, evs)
  {
    && headers'.Keys == headers.Keys
    && (forall i | 0 <= i < |evs| :: headers'[evs[i].id].status == StatusAfter(evs[i].op))
    && (forall id | id in headers && (forall i | 0 <= i < |evs| :: evs[i].id != id) :: headers'[id] == headers[id])
  }

  // The next event's reservation has not been touched by the events before it.
  lemma NextUntouched(headers: map<string, Header>, mid: map<string, Header>, evs: seq<Event>, n: nat)
    requires Settlements(headers, evs) && |evs| == n + 1
    requires Settlements(headers, evs[..n]) && Settled(headers, mid, evs[..n])
    ensures evs[n].id in mid && mid[evs[n].id] == headers[evs[n].id]
    ensures forall i | 0 <= i < n :: mid[evs[i].id].status == StatusAfter(evs[i].op)
    ensures forall id | id in headers && (forall i | 0 <= i < n :: evs[i].id != id) :: mid[id] == headers[id]
  {
    assert forall i | 0 <= i < n :: evs[..n][i] == evs[i];
  }

  lemma SettledSnoc(headers: map<string, Header>, mid: map<string, Header>, evs: seq<Event>, n: nat)
    requires Settlements(headers, evs) && |evs| == n + 1
    requires Settlements(headers, evs[..n]) && Settled(headers, mid, evs[..n])
    ensures evs[n].id in mid && mid[evs[n].id] == headers[evs[n].id]
    ensures Settled(headers, mid[evs[n].id := mid[evs[n].id].(status := StatusAfter(evs[n].op))], evs)
  {
    NextUntouched(headers, mid, evs, n);
  }

  ghost predicate Redeemed(db: Db, evs: seq<Event>, db': Db)
    requires Settlements(db.headers, evs)
  {
    Inv(db') && Tidy(db') && Settled(db.headers, db'.headers, evs)
  }

  lemma RedeemOneMore(db: Db, mid: Db, evs: seq<Event>, n: nat)
    requires Settlements(db.headers, evs) && |evs| == n + 1
    requires Settlements(db.headers, evs[..n]) && Redeemed(db, evs[..n], mid)
    ensures Step(mid, evs[n]) == Some(Apply(mid, evs[n])) && Redeemed(db, evs, Apply(mid, evs[n]))
  {
    SettledSnoc(db.headers, mid.headers, evs, n);
    SettleOne(mid, evs[n]);
  }

  // All of them succeed, each reaching its own terminal status and touching no other reservation.
  lemma {:induction false} OpenHoldsRedeemable(db: Db, evs: seq<Event>)
    requires Inv(db) && Tidy(db) && Settlements(db.headers, evs)
    ensures Replay(db, evs).Some? && Redeemed(db, evs, Replay(db, evs).value)
  {
    if evs != [] {
      var n := |evs| - 1;
      OpenHoldsRedeemable(db, evs[..n]);
      var mid := Replay(db, evs[..n]).value;
      RedeemOneMore(db, mid, evs, n);
      assert Replay(db, evs) == Some(Apply(mid, evs[n]));
    }
  }

  // Settling every open reservation leaves nothing reserved anywhere.
  lemma FullSettlementFreesAll(db: Db, evs: seq<Event>, k: Key)
    requires Inv(db) && Tidy(db) && Settlements(db.headers, evs)
    requires forall id | id in db.headers && db.headers[id].status == Reserved ::
               exists i :: 0 <= i < |evs| && evs[i].id == id
    ensures Replay(db, evs).Some? && BalanceAt(Replay(db, evs).value.balances, k).reserved == 0
  {
    OpenHoldsRedeemable(db, evs);
    var db' := Replay(db, evs).value;
    assert Accounts(db', k);
    forall id | id in db'.headers ensures db'.headers[id].status != Reserved {
      if db.headers[id].status == Reserved {
        var i :| 0 <= i < |evs| && evs[i].id == id;
      }
    }
    SumZero(db'.headers.Keys, id => HeldBy(db'.headers, db'.lines, k, Reserved, id));
  }

  // A receipt under the ledger id of op for this reservation and SKU.
  function Squatter(op: Op, id: string, sku: string): StockCommand {
    StockCommand(CommandId(op, id, sku), sku, 1, 5, "", "")
  }

  lemma SquattedTables(op: Op, id: string, sku: string)
    requires ValidReservationId(id) && ValidSku(sku)
    ensures Step(EmptyDb(map[1 := true]), StockEv(ReceiveStock, Squatter(op, id, sku)))
         == Some(Db(map[1 := true], map[Key(sku, 1) := Balance(5, 0, 0, 1)], map[], map[],
               map[CommandId(op, id, sku) := StockRow(ReceiveStock, Squatter(op, id, sku))]))
  {
    var ev := StockEv(ReceiveStock, Squatter(op, id, sku));
    var db := EmptyDb(map[1 := true]);
    LengthCapIsTight(op, id);
    assert Legal(db, ev);
    StockIsStockStep(db, ev);
  }

  lemma BookedOnSquatted(db: Db, id: string, sku: string)
    requires ValidReservationId(id) && ValidSku(sku)
    requires db == Db(map[1 := true], map[Key(sku, 1) := Balance(5, 0, 0, 1)], map[], map[],
                      map[CommandId(Unhold, id, sku) := StockRow(ReceiveStock, Squatter(Unhold, id, sku))])
    ensures Legal(db, ReserveEv(id, id, "", 1, map[sku := Line(1, 2)]))
  {
    LengthCapIsTight(Hold, id);
    var ls := map[sku := Line(1, 2)];
    assert CommandId(Hold, id, sku) != CommandId(Unhold, id, sku) by {
      assert CommandId(Hold, id, sku)[2] == 's' && CommandId(Unhold, id, sku)[2] == 'l';
    }
    assert CanMove(db.balances, Hold, ls);
    assert CanRecord(db.movements, Hold, id, ls, "");
  }

  lemma BookedLines(db: Db, id: string, sku: string)
    requires CommandId(Unhold, id, sku) in db.movements
    ensures var db' := Apply(db, ReserveEv(id, id, "", 1, map[sku := Line(1, 2)]));
            && CommandId(Unhold, id, sku) in db'.movements && LineKey(id, sku) in db'.lines
            && id in db'.headers && db'.headers[id].status == Reserved
  {
    ReserveTables(db, id, id, "", 1, map[sku := Line(1, 2)]);
    assert sku in map[sku := Line(1, 2)];
  }

  lemma ReleaseBlocked(movements: map<string, Movement>, lines: map<LineKey, Line>, id: string, sku: string)
    requires CommandId(Unhold, id, sku) in movements && LineKey(id, sku) in lines
    ensures !CanRecord(movements, Unhold, id, LinesOf(lines, id), "")
  {
    assert sku in LinesOf(lines, id);
  }

  // Without the namespace rule the claim is false, for every reservation id and SKU: a receipt
  // whose command id squats on "rel:<id>:<sku>" leaves an open reservation that cannot be released.
  lemma SquattedIdBlocksRelease(id: string, sku: string)
    requires ValidReservationId(id) && ValidSku(sku)
    ensures var evs := [StockEv(ReceiveStock, Squatter(Unhold, id, sku)), ReserveEv(id, id, "", 1, map[sku := Line(1, 2)])];
            var run := Replay(EmptyDb(map[1 := true]), evs);
            && run.Some? && id in run.value.headers && run.value.headers[id].status == Reserved
            && !Legal(run.value, SettleEv(id, Unhold, ""))
  {
    var e0, e1 := StockEv(ReceiveStock, Squatter(Unhold, id, sku)), ReserveEv(id, id, "", 1, map[sku := Line(1, 2)]);
    var d0 := EmptyDb(map[1 := true]);
    SquattedTables(Unhold, id, sku);
    var d1 := Step(d0, e0).value;
    BookedOnSquatted(d1, id, sku);
    BookedLines(d1, id, sku);
    var d2 := Apply(d1, e1);
    ReplayTwo(d0, e0, d1, e1);
    ReleaseBlocked(d2.movements, d2.lines, id, sku);
  }
}
