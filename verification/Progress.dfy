/** One statement at a time: each step of a transaction establishes what the next one relies on. */
module Progress {
  import opened CommandIds
  import opened Tables
  import opened Posting
  import opened Aggregation
  import opened Invariants
  import opened Commands
  import opened Reservations
  import opened Machine
  import opened Interleaving
  import Collections

  function With(held: set<Res>, got: Option<Res>): set<Res> {
    if got.Some? then held + {got.value} else held
  }

  // Posting one line ------------------------------------------------------------------------

  lemma ShiftNext(balances: map<Key, Balance>, held: set<Res>, op: Op, ls: seq<Allocation>, n: nat, w: map<Key, Balance>, k: Key)
    requires n < |ls| && ShiftedSoFar(balances, held, op, ls, n, w)
    requires k == Key(ls[n].sku, ls[n].wh) && k in balances && Shifted(op, balances[k], ls[n].qty).Ok()
    ensures ShiftedSoFar(balances, held + {BalanceRow(k)}, op, ls, n + 1, w[k := Shifted(op, balances[k], ls[n].qty)])
  {
    Collections.Shorter(ls, n);
    forall i | 0 <= i < n + 1 ensures MovedRow(balances, held + {BalanceRow(k)}, op, ls[i]) {
      if i < n { assert MovedRow(balances, held, op, ls[i]); }
    }
  }

  lemma {:induction false} MovedKeys(balances: map<Key, Balance>, op: Op, ls: seq<Allocation>, k: Key)
    requires k in MovedRows(balances, op, ls)
    ensures exists i :: 0 <= i < |ls| && k == Key(ls[i].sku, ls[i].wh)
  {
    var n := |ls| - 1;
    if k != Key(ls[n].sku, ls[n].wh) {
      MovedKeys(balances, op, ls[..n], k);
      var i :| 0 <= i < n && k == Key(ls[..n][i].sku, ls[..n][i].wh);
      assert ls[..n][i] == ls[i];
    }
  }

  // The next line's row has not been written yet.
  lemma ShiftUnseen(balances: map<Key, Balance>, held: set<Res>, op: Op, ls: seq<Allocation>, n: nat, w: map<Key, Balance>)
    requires DistinctSkus(ls) && n < |ls| && ShiftedSoFar(balances, held, op, ls, n, w)
    ensures Key(ls[n].sku, ls[n].wh) !in w
  {
    if Key(ls[n].sku, ls[n].wh) in w {
      MovedKeys(balances, op, ls[..n], Key(ls[n].sku, ls[n].wh));
    }
  }

  lemma AttachNext(id: string, ls: seq<Allocation>, n: nat, w: map<LineKey, Line>)
    requires n < |ls| && AttachedSoFar(Hold, id, ls, n, w)
    ensures AttachedSoFar(Hold, id, ls, n + 1, w[LineKey(id, ls[n].sku) := Line(ls[n].wh, ls[n].qty)])
  {
    Collections.Shorter(ls, n);
  }

  lemma RecordNext(movements: map<string, Movement>, held: set<Res>, op: Op, id: string, reason: string,
                   ls: seq<Allocation>, n: nat, w: map<string, Movement>, c: string, row: Movement)
    requires n < |ls| && RecordedSoFar(movements, held, op, id, reason, ls, n, w)
    requires c == CommandId(op, id, ls[n].sku) && row == LedgerRow(op, id, ls[n].sku, Line(ls[n].wh, ls[n].qty), reason)
    requires c !in movements && MovementFits(c, row)
    ensures RecordedSoFar(movements, held + {CommandKey(c)}, op, id, reason, ls, n + 1, w[c := row])
  {
    Collections.Shorter(ls, n);
    NewRowsNext(movements, held, op, id, reason, ls, n);
  }

  lemma NewRowsNext(movements: map<string, Movement>, held: set<Res>, op: Op, id: string, reason: string, ls: seq<Allocation>, n: nat)
    requires n < |ls| && forall i | 0 <= i < n :: NewRow(movements, held, op, id, reason, ls[i])
    requires NewRow(movements, held + {CommandKey(CommandId(op, id, ls[n].sku))}, op, id, reason, ls[n])
    ensures forall i | 0 <= i < n + 1 :: NewRow(movements, held + {CommandKey(CommandId(op, id, ls[n].sku))}, op, id, reason, ls[i])
  {
  }

  lemma NothingWritten(db: Db, held: set<Res>, work: Work, ls: seq<Allocation>, w: Writes)
    requires w == NO_WRITES.(headers := w.headers)
    ensures Written(db, held, work, ls, w, 0, 0, 0)
  {
    assert ls[..0] == [];
  }

  // Holding more locks never hurts.
  lemma MoreHeld(db: Db, held: set<Res>, more: set<Res>, work: Work, wh: int, ls: seq<Allocation>, w: Writes)
    requires !work.Stocking? && held <= more
    ensures Headed(db, held, work, w.headers) ==> Headed(db, more, work, w.headers)
    ensures Planned(db, held, work, wh, ls) ==> Planned(db, more, work, wh, ls)
  {
    if work.Booking? && Planned(db, held, work, wh, ls) {
      forall i | 0 <= i < |work.items| ensures Covered(db.balances, more, wh, work.items[i]) {
        assert Covered(db.balances, held, wh, work.items[i]);
      }
    }
  }

  lemma MoreShifted(balances: map<Key, Balance>, held: set<Res>, more: set<Res>, op: Op, ls: seq<Allocation>, n: nat, w: map<Key, Balance>)
    requires held <= more && ShiftedSoFar(balances, held, op, ls, n, w)
    ensures ShiftedSoFar(balances, more, op, ls, n, w)
  {
    forall i | 0 <= i < n ensures MovedRow(balances, more, op, ls[i]) {
      assert MovedRow(balances, held, op, ls[i]);
    }
  }

  lemma MoreRecorded(movements: map<string, Movement>, held: set<Res>, more: set<Res>, op: Op, id: string, reason: string,
                     ls: seq<Allocation>, n: nat, w: map<string, Movement>)
    requires held <= more && RecordedSoFar(movements, held, op, id, reason, ls, n, w)
    ensures RecordedSoFar(movements, more, op, id, reason, ls, n, w)
  {
    forall i | 0 <= i < n ensures NewRow(movements, more, op, id, reason, ls[i]) {
      assert NewRow(movements, held, op, id, reason, ls[i]);
    }
  }

  lemma ShiftPosts(db: Db, held: set<Res>, work: Work, w: Writes, wh: int, ls: seq<Allocation>, n: nat, k: Key, row: Balance)
    requires !work.Stocking? && Admitted(work) && n < |ls| && PostingInv(db, held, work, w, wh, ls, n, Shift)
    requires k == Key(ls[n].sku, ls[n].wh) && k in db.balances
    requires row == Shifted(OpOf(work), db.balances[k], ls[n].qty) && row.Ok()
    ensures PostingInv(db, held + {BalanceRow(k)}, work, w.(balances := w.balances[k := row]), wh, ls, n,
                       if work.Booking? then Attach else Record)
  {
    var more := held + {BalanceRow(k)};
    ShiftNext(db.balances, held, OpOf(work), ls, n, w.balances, k);
    MoreHeld(db, held, more, work, wh, ls, w);
    MoreRecorded(db.movements, held, more, OpOf(work), IdOf(work), ReasonOf(work), ls, n, w.movements);
  }

  lemma AttachPosts(db: Db, held: set<Res>, work: Work, w: Writes, wh: int, ls: seq<Allocation>, n: nat)
    requires work.Booking? && Admitted(work) && n < |ls| && PostingInv(db, held, work, w, wh, ls, n, Attach)
    ensures PostingInv(db, held, work, w.(lines := w.lines[LineKey(work.id, ls[n].sku) := Line(ls[n].wh, ls[n].qty)]),
                       wh, ls, n, Record)
  {
    AttachNext(work.id, ls, n, w.lines);
  }

  lemma RecordPosts(db: Db, held: set<Res>, work: Work, w: Writes, wh: int, ls: seq<Allocation>, n: nat, c: string, row: Movement)
    requires !work.Stocking? && Admitted(work) && n < |ls| && PostingInv(db, held, work, w, wh, ls, n, Record)
    requires c == CommandId(OpOf(work), IdOf(work), ls[n].sku)
    requires row == LedgerRow(OpOf(work), IdOf(work), ls[n].sku, Line(ls[n].wh, ls[n].qty), ReasonOf(work))
    requires c !in db.movements && MovementFits(c, row)
    ensures PostingInv(db, held + {CommandKey(c)}, work, w.(movements := w.movements[c := row]), wh, ls, n + 1, Shift)
  {
    var more := held + {CommandKey(c)};
    RecordNext(db.movements, held, OpOf(work), IdOf(work), ReasonOf(work), ls, n, w.movements, c, row);
    MoreHeld(db, held, more, work, wh, ls, w);
    MoreShifted(db.balances, held, more, OpOf(work), ls, n + 1, w.balances);
  }

  lemma FlipReady(db: Db, held: set<Res>, work: Work, w: Writes, ls: seq<Allocation>)
    requires work.Settlement? && PostingInv(db, held, work, w, 0, ls, |ls|, Shift)
    ensures LinesReady(db, held, work, 0, ls, w.(headers := map[work.id := Flipped(db.headers, work.id, work.op)]))
  {
  }

  // Each statement ---------------------------------------------------------------------------

  // What an outcome must establish for the transaction to go on. Committing is a matter of its own.
  ghost predicate Sound(db: Db, held: set<Res>, work: Work, o: Outcome) {
    match o
    case Wait(_) => true
    case Go(pc, w, got) => TxInv(db, With(held, got), Tx(work, pc, w))
    case Undo(pc) => TxInv(db, {}, Tx(work, pc, NO_WRITES))
    case Finish(_, _) => true
  }

  // A posting statement fails, waits, or leaves the posting invariant for the next one.
  ghost predicate Posts(db: Db, held: set<Res>, work: Work, o: Outcome)
    requires !work.Stocking?
  {
    match o
    case Wait(_) => true
    case Go(pc, w, got) => pc.Post? && PostingInv(db, With(held, got), work, w, pc.wh, pc.ls, pc.n, pc.stage)
    case Undo(pc) => pc == Done(Failed(StorageError))
    case Finish(_, _) => false
  }

  // What the balance update comes to when this transaction has not written the row before.
  lemma ShiftOutcome(db: Db, locks: map<Res, nat>, t: nat, tx: Tx, k: Key)
    requires tx.pc.Post? && tx.pc.n < |tx.pc.ls| && k == Key(tx.pc.ls[tx.pc.n].sku, tx.pc.ls[tx.pc.n].wh)
    requires k !in tx.w.balances && (k in db.balances || OpOf(tx.work) != Hold)
    ensures var o := ShiftStep(db, locks, t, tx);
            || o == Wait(BalanceRow(k)) || o == End(Failed(StorageError))
            || (&& k in db.balances
                && var row := Shifted(OpOf(tx.work), db.balances[k], tx.pc.ls[tx.pc.n].qty);
                   row.Ok() && o == Go(tx.pc.(stage := if OpOf(tx.work) == Hold then Attach else Record),
                                       tx.w.(balances := tx.w.balances[k := row]), Some(BalanceRow(k))))
  {
  }

  lemma ShiftSound(db: Db, locks: map<Res, nat>, t: nat, held: set<Res>, tx: Tx)
    requires !tx.work.Stocking? && Admitted(tx.work) && tx.pc.Post? && tx.pc.n < |tx.pc.ls| && tx.pc.stage == Shift
    requires PostingInv(db, held, tx.work, tx.w, tx.pc.wh, tx.pc.ls, tx.pc.n, Shift)
    ensures Posts(db, held, tx.work, ShiftStep(db, locks, t, tx))
  {
    var Post(wh, ls, n, _) := tx.pc;
    var op, k := OpOf(tx.work), Key(ls[n].sku, ls[n].wh);
    PlanDistinct(db, held, tx.work, wh, ls);
    ShiftUnseen(db.balances, held, op, ls, n, tx.w.balances);
    if tx.work.Booking? { assert Covered(db.balances, held, wh, tx.work.items[n]); }
    ShiftOutcome(db, locks, t, tx, k);
    if ShiftStep(db, locks, t, tx).Go? {
      ShiftPosts(db, held, tx.work, tx.w, wh, ls, n, k, Shifted(op, db.balances[k], ls[n].qty));
    }
  }

  lemma AttachSound(db: Db, held: set<Res>, tx: Tx)
    requires tx.work.Booking? && Admitted(tx.work) && tx.pc.Post? && tx.pc.n < |tx.pc.ls| && tx.pc.stage == Attach
    requires PostingInv(db, held, tx.work, tx.w, tx.pc.wh, tx.pc.ls, tx.pc.n, Attach)
    ensures Posts(db, held, tx.work, AttachStep(db, tx))
  {
    AttachPosts(db, held, tx.work, tx.w, tx.pc.wh, tx.pc.ls, tx.pc.n);
  }

  lemma RecordSound(db: Db, locks: map<Res, nat>, t: nat, held: set<Res>, tx: Tx)
    requires !tx.work.Stocking? && Admitted(tx.work) && tx.pc.Post? && tx.pc.n < |tx.pc.ls| && tx.pc.stage == Record
    requires PostingInv(db, held, tx.work, tx.w, tx.pc.wh, tx.pc.ls, tx.pc.n, Record)
    ensures Posts(db, held, tx.work, RecordStep(db, locks, t, tx))
  {
    var a := tx.pc.ls[tx.pc.n];
    var c := CommandId(OpOf(tx.work), IdOf(tx.work), a.sku);
    var row := LedgerRow(OpOf(tx.work), IdOf(tx.work), a.sku, Line(a.wh, a.qty), ReasonOf(tx.work));
    if c !in db.movements && MovementFits(c, row) {
      RecordPosts(db, held, tx.work, tx.w, tx.pc.wh, tx.pc.ls, tx.pc.n, c, row);
    }
  }

  lemma PostsSound(db: Db, held: set<Res>, work: Work, o: Outcome)
    requires !work.Stocking? && Admitted(work) && Posts(db, held, work, o)
    ensures Sound(db, held, work, o)
  {
    match o
    case Wait(_) =>
    case Go(pc, w, got) => PostTx(db, With(held, got), work, w, pc.wh, pc.ls, pc.n, pc.stage);
    case Undo(pc) => FailureTx(db, work);
  }

  lemma PostTx(db: Db, held: set<Res>, work: Work, w: Writes, wh: int, ls: seq<Allocation>, n: nat, stage: Stage)
    requires !work.Stocking? && Admitted(work) && PostingInv(db, held, work, w, wh, ls, n, stage)
    ensures TxInv(db, held, Tx(work, Post(wh, ls, n, stage), w))
  {
  }

  lemma FailureTx(db: Db, work: Work)
    requires Admitted(work)
    ensures TxInv(db, {}, Tx(work, Done(Failed(StorageError)), NO_WRITES))
  {
  }

  lemma PostLineSound(db: Db, locks: map<Res, nat>, t: nat, held: set<Res>, tx: Tx)
    requires !tx.work.Stocking? && Admitted(tx.work) && tx.pc.Post? && tx.pc.n < |tx.pc.ls|
    requires PostingInv(db, held, tx.work, tx.w, tx.pc.wh, tx.pc.ls, tx.pc.n, tx.pc.stage)
    ensures Posts(db, held, tx.work, PostStep(db, locks, t, tx))
  {
    match tx.pc.stage
    case Shift => ShiftSound(db, locks, t, held, tx);
    case Attach => AttachSound(db, held, tx);
    case Record => RecordSound(db, locks, t, held, tx);
  }

  lemma PostSound(db: Db, locks: map<Res, nat>, t: nat, held: set<Res>, tx: Tx)
    requires !tx.work.Stocking? && Admitted(tx.work) && tx.pc.Post?
    requires PostingInv(db, held, tx.work, tx.w, tx.pc.wh, tx.pc.ls, tx.pc.n, tx.pc.stage)
    ensures Sound(db, held, tx.work, PostStep(db, locks, t, tx))
  {
    if tx.pc.n < |tx.pc.ls| {
      PostLineSound(db, locks, t, held, tx);
      PostsSound(db, held, tx.work, PostStep(db, locks, t, tx));
    } else {
      assert tx.pc.n == |tx.pc.ls| && tx.pc.stage == Shift;
      PostedSound(db, held, tx.work, tx.w, tx.pc.wh, tx.pc.ls);
    }
  }

  lemma PostedSound(db: Db, held: set<Res>, work: Work, w: Writes, wh: int, ls: seq<Allocation>)
    requires !work.Stocking? && Admitted(work) && PostingInv(db, held, work, w, wh, ls, |ls|, Shift)
    ensures Sound(db, held, work, Go(if work.Booking? then Ready(wh, ls) else Flip(ls), w, None))
  {
    if work.Booking? {
      ReadyTx(db, held, work, w, wh, ls);
    } else {
      FlipTx(db, held, work, w, wh, ls);
    }
  }

  lemma ReadyTx(db: Db, held: set<Res>, work: Work, w: Writes, wh: int, ls: seq<Allocation>)
    requires work.Booking? && Admitted(work) && PostingInv(db, held, work, w, wh, ls, |ls|, Shift)
    ensures TxInv(db, held, Tx(work, Ready(wh, ls), w))
  {
    assert LinesReady(db, held, work, wh, ls, w);
  }

  lemma FlipTx(db: Db, held: set<Res>, work: Work, w: Writes, wh: int, ls: seq<Allocation>)
    requires work.Settlement? && Admitted(work) && PostingInv(db, held, work, w, wh, ls, |ls|, Shift)
    ensures TxInv(db, held, Tx(work, Flip(ls), w))
  {
    assert PostingInv(db, held, work, w, 0, ls, |ls|, Shift);
  }

  lemma FlippedTx(db: Db, held: set<Res>, work: Work, w: Writes, ls: seq<Allocation>)
    requires work.Settlement? && Admitted(work) && LinesReady(db, held, work, 0, ls, w)
    ensures TxInv(db, held, Tx(work, Ready(0, ls), w))
  {
  }

  lemma FlipSound(db: Db, held: set<Res>, tx: Tx)
    requires TxInv(db, held, tx) && tx.pc.Flip?
    ensures Sound(db, held, tx.work, FlipStep(db, tx))
  {
    assert PostingInv(db, held, tx.work, tx.w, 0, tx.pc.ls, |tx.pc.ls|, Shift);
    FlipReady(db, held, tx.work, tx.w, tx.pc.ls);
    FlippedTx(db, held, tx.work, FlipStep(db, tx).w, tx.pc.ls);
  }

  lemma ClaimSound(db: Db, locks: map<Res, nat>, t: nat, held: set<Res>, tx: Tx)
    requires TxInv(db, held, tx) && (tx.pc.Claim? || tx.pc.Enter? || tx.pc.Refer?)
    ensures Sound(db, held, tx.work, Advance(db, locks, t, tx))
  {
    match tx.pc
    case Claim =>
    case Enter =>
    case Refer(clear) =>
      var w := NO_WRITES.(headers := map[tx.work.id := Header(tx.work.orderRef, tx.work.hash, Reserved)]);
      if clear && !RefTaken(db.headers, tx.work.orderRef) {
        assert Claiming(db, held + {OrderRef(tx.work.orderRef)}, tx.work, w);
      }
  }

  lemma ReplaySound(db: Db, locks: map<Res, nat>, t: nat, held: set<Res>, tx: Tx)
    requires TxInv(db, held, tx) && (tx.pc.ReplayHead? || tx.pc.ReplayLines?)
    ensures Sound(db, held, tx.work, Advance(db, locks, t, tx))
  {
    match tx.pc
    case ReplayHead(outside) =>
      if tx.work.id !in db.headers {
        var owner :| owner in db.headers && db.headers[owner].orderRef == tx.work.orderRef;
        assert Contradicts(db.headers, tx.work, owner);
      } else if db.headers[tx.work.id].hash != tx.work.hash || db.headers[tx.work.id].orderRef != tx.work.orderRef {
        assert Contradicts(db.headers, tx.work, tx.work.id);
      }
    case ReplayLines(_) =>
  }

  // Choosing and locking ------------------------------------------------------------------------

  lemma LockNext(balances: map<Key, Balance>, held: set<Res>, wh: int, keys: seq<Key>, n: nat, atp: map<string, int>)
    requires n < |keys| && LockedSoFar(balances, held, wh, keys, n, atp)
    ensures LockedSoFar(balances, held + {BalanceRow(keys[n])}, wh, keys, n + 1, atp[keys[n].sku := AtpAt(balances, keys[n])])
  {
    assert forall k | k in keys[..n] :: k in keys[..n + 1];
    assert keys[..n + 1][n] == Key(keys[n].sku, wh);
    assert forall i | 0 <= i < n + 1 :: keys[i].sku in atp[keys[n].sku := AtpAt(balances, keys[n])];
  }

  // With every row read, the map answers the ATP under the locks.
  lemma AllRead(balances: map<Key, Balance>, held: set<Res>, wh: int, keys: seq<Key>, atp: map<string, int>, items: seq<Item>)
    requires LockedSoFar(balances, held, wh, keys, |keys|, atp) && Listed(keys, wh, items)
    ensures ShortagesIn(atp, items) == Shortages(balances, Some(wh), items)
    ensures forall i | 0 <= i < |items| :: Pinned(balances, held, wh, items[i])
    ensures forall i | 0 <= i < |items| :: Get(atp, items[i].sku) == AtpAt(balances, Key(items[i].sku, wh))
  {
    forall i | 0 <= i < |items|
      ensures Get(atp, items[i].sku) == AtpAt(balances, Key(items[i].sku, wh))
      ensures Pinned(balances, held, wh, items[i])
    {
      var j :| 0 <= j < |keys| && keys[j] == Key(items[i].sku, wh);
      assert keys[j].sku in atp;
    }
    SnapshotShortages(balances, Some(wh), items, atp);
  }

  // The locked re-check leaves every line on a row that exists, is locked, and covers it.
  lemma CheckedIsCovered(balances: map<Key, Balance>, held: set<Res>, wh: int, keys: seq<Key>, atp: map<string, int>, items: seq<Item>)
    requires LockedSoFar(balances, held, wh, keys, |keys|, atp) && Listed(keys, wh, items) && ShortagesIn(atp, items) == []
    ensures forall i | 0 <= i < |items| :: Covered(balances, held, wh, items[i])
  {
    AllRead(balances, held, wh, keys, atp, items);
    NoShortage(balances, wh, items);
    forall i | 0 <= i < |items| ensures Covered(balances, held, wh, items[i]) {
      assert Pinned(balances, held, wh, items[i]);
    }
  }

  lemma RecheckTx(db: Db, held: set<Res>, work: Work, w: Writes, wh: int, short: seq<Shortage>)
    requires work.Booking? && Admitted(work) && Claiming(db, held, work, w) && Rechecked(db, held, work.items, wh, short)
    ensures TxInv(db, held, Tx(work, Classify(Some(wh), short), w))
  {
  }

  lemma NextRowTx(db: Db, held: set<Res>, work: Work, w: Writes, wh: int, keys: seq<Key>, n: nat, atp: map<string, int>)
    requires work.Booking? && Admitted(work) && Claiming(db, held, work, w) && Active(db, wh) && Listed(keys, wh, work.items)
    requires n < |keys| && LockedSoFar(db.balances, held, wh, keys, n, atp)
    ensures TxInv(db, held + {BalanceRow(keys[n])},
                  Tx(work, LockRows(wh, keys, n + 1, atp[keys[n].sku := AtpAt(db.balances, keys[n])]), w))
  {
    LockNext(db.balances, held, wh, keys, n, atp);
  }

  // The three ways LockStep can go.

  lemma NextRowSound(db: Db, locks: map<Res, nat>, t: nat, held: set<Res>, tx: Tx)
    requires TxInv(db, held, tx) && tx.pc.LockRows? && tx.pc.n < |tx.pc.keys|
    ensures Sound(db, held, tx.work, LockStep(db, locks, t, tx))
  {
    NextRowTx(db, held, tx.work, tx.w, tx.pc.wh, tx.pc.keys, tx.pc.n, tx.pc.atp);
  }

  lemma CoveredTx(db: Db, held: set<Res>, work: Work, w: Writes, wh: int, keys: seq<Key>, atp: map<string, int>)
    requires work.Booking? && Admitted(work) && Claiming(db, held, work, w) && Active(db, wh) && Listed(keys, wh, work.items)
    requires LockedSoFar(db.balances, held, wh, keys, |keys|, atp) && ShortagesIn(atp, work.items) == []
    ensures TxInv(db, held, Tx(work, Post(wh, AllocateFrom(work.items, wh), 0, Shift), w))
  {
    CheckedIsCovered(db.balances, held, wh, keys, atp, work.items);
    NothingWritten(db, held, work, AllocateFrom(work.items, wh), w);
    PostTx(db, held, work, w, wh, AllocateFrom(work.items, wh), 0, Shift);
  }

  lemma ShortTx(db: Db, held: set<Res>, work: Work, w: Writes, wh: int, keys: seq<Key>, atp: map<string, int>)
    requires work.Booking? && Admitted(work) && Claiming(db, held, work, w) && Active(db, wh) && Listed(keys, wh, work.items)
    requires LockedSoFar(db.balances, held, wh, keys, |keys|, atp) && ShortagesIn(atp, work.items) != []
    ensures TxInv(db, held, Tx(work, Classify(Some(wh), ShortagesIn(atp, work.items)), w))
  {
    AllRead(db.balances, held, wh, keys, atp, work.items);
    RecheckTx(db, held, work, w, wh, ShortagesIn(atp, work.items));
  }

  lemma LockSound(db: Db, locks: map<Res, nat>, t: nat, held: set<Res>, tx: Tx)
    requires TxInv(db, held, tx) && tx.pc.LockRows?
    ensures Sound(db, held, tx.work, LockStep(db, locks, t, tx))
  {
    if tx.pc.n < |tx.pc.keys| {
      NextRowSound(db, locks, t, held, tx);
    } else if ShortagesIn(tx.pc.atp, tx.work.items) == [] {
      CoveredTx(db, held, tx.work, tx.w, tx.pc.wh, tx.pc.keys, tx.pc.atp);
    } else {
      ShortTx(db, held, tx.work, tx.w, tx.pc.wh, tx.pc.keys, tx.pc.atp);
    }
  }

  // A warehouse that covers the lines has a row for each.
  lemma CoverIsPresent(balances: map<Key, Balance>, wh: int, items: seq<Item>)
    requires Fulfills(balances, wh, items) && forall i | 0 <= i < |items| :: items[i].qty > 0
    ensures Present(balances, wh, items)
  {
    forall i | 0 <= i < |items| ensures Key(items[i].sku, wh) in balances {
      assert AtpAt(balances, Key(items[i].sku, wh)) >= items[i].qty;
    }
  }

  lemma GatherSound(db: Db, held: set<Res>, tx: Tx)
    requires TxInv(db, held, tx) && tx.pc.Gather?
    ensures Sound(db, held, tx.work, Go(LockRows(tx.pc.wh, KeysToLock(db.balances, tx.pc.wh, tx.work.items), 0, map[]), tx.w, None))
  {
    var wh, items := tx.pc.wh, tx.work.items;
    var keys := KeysToLock(db.balances, wh, items);
    forall i | 0 <= i < |keys| ensures keys[i] in db.balances && keys[i].wh == wh { assert keys[i] in keys; }
    forall i | 0 <= i < |items| ensures Key(items[i].sku, wh) in keys {
      assert Mentions(items, items[i].sku) && Key(items[i].sku, wh) in db.balances;
    }
    assert LockedSoFar(db.balances, held, wh, keys, 0, map[]);
  }

  lemma ScanSound(db: Db, locks: map<Res, nat>, t: nat, held: set<Res>, tx: Tx)
    requires TxInv(db, held, tx) && (tx.pc.Scan? || tx.pc.Gather? || tx.pc.Classify?)
    ensures Sound(db, held, tx.work, Advance(db, locks, t, tx))
  {
    match tx.pc
    case Scan =>
      var r := FirstFulfilling(db.balances, ActiveIds(db.warehouses), tx.work.items);
      if r.Some? { CoverIsPresent(db.balances, r.value, tx.work.items); }
    case Gather(_) => GatherSound(db, held, tx);
    case Classify(_, _) =>
  }

  lemma HeadSound(db: Db, locks: map<Res, nat>, t: nat, held: set<Res>, tx: Tx)
    requires TxInv(db, held, tx) && (tx.pc.LockHead? || tx.pc.LoadHead?)
    requires tx.pc.LockHead? ==> HeadersOk(db.headers)
    ensures Sound(db, held, tx.work, Advance(db, locks, t, tx))
  {
    match tx.pc
    case LockHead =>
    case LoadHead =>
      NothingWritten(db, held, tx.work, LoadLines(db.lines, tx.work.id), tx.w);
      PostTx(db, held, tx.work, tx.w, 0, LoadLines(db.lines, tx.work.id), 0, Shift);
  }

  lemma StockSound(db: Db, locks: map<Res, nat>, t: nat, held: set<Res>, tx: Tx)
    requires TxInv(db, held, tx) && (tx.pc.ClaimCommand? || tx.pc.Compare?)
    ensures Sound(db, held, tx.work, Advance(db, locks, t, tx))
  {
  }

  lemma MoveSound(db: Db, locks: map<Res, nat>, t: nat, held: set<Res>, tx: Tx)
    requires TxInv(db, held, tx) && tx.pc.Move?
    ensures Sound(db, held, tx.work, MoveStep(db, locks, t, tx))
  {
    var o := MoveStep(db, locks, t, tx);
    if o.Go? {
      assert StockReady(db, held + {o.got.value}, tx.work.act, tx.work.cmd, o.w);
    }
  }

  lemma EarlySound(db: Db, locks: map<Res, nat>, t: nat, held: set<Res>, tx: Tx)
    requires TxInv(db, held, tx) && Early(tx.pc)
    ensures Sound(db, held, tx.work, Advance(db, locks, t, tx))
  {
    match tx.pc
    case Claim | Enter | Refer(_) => ClaimSound(db, locks, t, held, tx);
    case Scan | Gather(_) | Classify(_, _) => ScanSound(db, locks, t, held, tx);
    case LockRows(_, _, _, _) => LockSound(db, locks, t, held, tx);
  }

  lemma ReadingSound(db: Db, locks: map<Res, nat>, t: nat, held: set<Res>, tx: Tx)
    requires HeadersOk(db.headers) && TxInv(db, held, tx) && Reading(tx.pc) && !tx.pc.Done?
    ensures Sound(db, held, tx.work, Advance(db, locks, t, tx))
  {
    match tx.pc
    case ReplayHead(_) | ReplayLines(_) => ReplaySound(db, locks, t, held, tx);
    case LockHead | LoadHead => HeadSound(db, locks, t, held, tx);
    case ClaimCommand | Compare => StockSound(db, locks, t, held, tx);
  }

  // Whatever statement a transaction runs, it finds what it relies on for the next one.
  lemma StepSound(db: Db, locks: map<Res, nat>, t: nat, held: set<Res>, tx: Tx)
    requires HeadersOk(db.headers) && TxInv(db, held, tx) && !tx.pc.Done?
    ensures Sound(db, held, tx.work, Advance(db, locks, t, tx))
  {
    if Early(tx.pc) {
      EarlySound(db, locks, t, held, tx);
    } else if Reading(tx.pc) {
      ReadingSound(db, locks, t, held, tx);
    } else {
      match tx.pc
      case Post(_, _, _, _) => PostSound(db, locks, t, held, tx);
      case Flip(_) => FlipSound(db, held, tx);
      case Move => MoveSound(db, locks, t, held, tx);
      case Ready(_, _) =>
    }
  }
}
