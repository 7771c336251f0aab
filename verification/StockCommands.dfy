/** internal/core/repository/stock_commands.go: claim the command id, change the balance, commit or roll back. */
module StockCommands {
  import opened Tables
  import opened Posting
  import opened Commands
  import opened Database
  import opened Invariants
  import Idempotency
  import Preservation

  datatype Claim = Claimed(tx: Db) | Replayed | Rejected(why: Failure)

  // claimCommand: INSERT ... ON CONFLICT (command_id) DO NOTHING, then compare what is stored.
  method ClaimCommand(tx: Db, act: StockAction, cmd: StockCommand) returns (claim: Claim)
    ensures var row := StockRow(act, cmd);
            claim == if !MovementFits(cmd.commandId, row) then Rejected(StorageError)
                     else if cmd.commandId in tx.movements then
                       if SameCommand(tx.movements[cmd.commandId], row) then Replayed else Rejected(CommandConflict)
                     else if cmd.wh !in tx.warehouses then Rejected(StorageError)
                     else Claimed(tx.(movements := tx.movements[cmd.commandId := row]))
  {
    var row := StockRow(act, cmd);
    if !MovementFits(cmd.commandId, row) { return Rejected(StorageError); }
    if cmd.commandId in tx.movements {
      var prev := tx.movements[cmd.commandId];
      if prev.key.sku != cmd.sku || prev.key.wh != cmd.wh || prev.kind != row.kind
         || prev.onHandDelta != row.onHandDelta || prev.reservedDelta != row.reservedDelta
         || ActorOf(prev.origin) != cmd.actor || prev.reason != cmd.reason {
        return Rejected(CommandConflict);
      }
      return Replayed;
    }
    if cmd.wh !in tx.warehouses { return Rejected(StorageError); }
    return Claimed(tx.(movements := tx.movements[cmd.commandId := row]));
  }

  // The three apply callbacks: an upsert for a receipt, an UPDATE that must hit a row otherwise.
  method ApplyStock(tx: Db, act: StockAction, cmd: StockCommand) returns (why: Option<Failure>, cur: Db)
    ensures var k := Key(cmd.sku, cmd.wh); var row := StockShifted(act, BalanceAt(tx.balances, k), cmd.qty);
            if act != ReceiveStock && k !in tx.balances then why == Some(BalanceNotFound)
            else if !row.Ok() then why == Some(if act == AdjustOnHand then InsufficientOnHand else StorageError)
            else why == None && cur == tx.(balances := tx.balances[k := row])
  {
    cur := tx;
    var k := Key(cmd.sku, cmd.wh);
    match act
    case ReceiveStock =>
      var row := if k in tx.balances
                 then tx.balances[k].(onHand := tx.balances[k].onHand + cmd.qty, version := tx.balances[k].version + 1)
                 else Balance(cmd.qty, 0, 0, 1);
      if !row.Ok() { return Some(StorageError), cur; }
      return None, tx.(balances := tx.balances[k := row]);
    case AdjustOnHand =>
      if k !in tx.balances { return Some(BalanceNotFound), cur; }
      var b := tx.balances[k];
      var row := b.(onHand := b.onHand + cmd.qty, version := b.version + 1);
      if !row.Ok() { return Some(InsufficientOnHand), cur; }
      return None, tx.(balances := tx.balances[k := row]);
    case SetSafetyStock =>
      if k !in tx.balances { return Some(BalanceNotFound), cur; }
      var b := tx.balances[k];
      var row := b.(safety := cmd.qty, version := b.version + 1);
      if !row.Ok() { return Some(StorageError), cur; }
      return None, tx.(balances := tx.balances[k := row]);
  }

  lemma StockCommits(db: Db, act: StockAction, cmd: StockCommand)
    requires Legal(db, StockEv(act, cmd))
    ensures Apply(db, StockEv(act, cmd))
         == db.(movements := db.movements[cmd.commandId := StockRow(act, cmd)],
                balances := db.balances[Key(cmd.sku, cmd.wh) :=
                              StockShifted(act, BalanceAt(db.balances, Key(cmd.sku, cmd.wh)), cmd.qty)])
  {
    Preservation.StockIsStockStep(db, StockEv(act, cmd));
  }

  lemma Refuses(db: Db, act: StockAction, cmd: StockCommand)
    ensures !ValidCommand(act, cmd) ==> DecideStock(db, act, cmd) == (None, Failed(InvalidCommand))
  {
  }

  class StockCommandRepository {
    const pool: Pool

    constructor (pool: Pool)
      ensures this.pool == pool
    {
      this.pool := pool;
    }

    // run: any failure after the claim drops the claimed ledger row with the rest of the transaction.
    method Run(act: StockAction, cmd: StockCommand) returns (reply: Reply)
      requires ValidCommand(act, cmd)
      modifies pool
      ensures pool.db == After(old(pool.db), DecideStock(old(pool.db), act, cmd).0)
      ensures reply == DecideStock(old(pool.db), act, cmd).1
    {
      var claim := ClaimCommand(pool.db, act, cmd);
      match claim
      case Rejected(why) => return Failed(why);
      case Replayed => return Applied(false);
      case Claimed(tx) =>
        var why, cur := ApplyStock(tx, act, cmd);
        if why.Some? { return Failed(why.value); }
        StockCommits(pool.db, act, cmd);
        pool.db := cur;
        return Applied(true);
    }

    method ReceiveStock(cmd: StockCommand) returns (reply: Reply)
      modifies pool
      ensures pool.db == After(old(pool.db), DecideStock(old(pool.db), StockAction.ReceiveStock, cmd).0)
      ensures reply == DecideStock(old(pool.db), StockAction.ReceiveStock, cmd).1
    {
      Refuses(pool.db, StockAction.ReceiveStock, cmd);
      if !ValidCommand(StockAction.ReceiveStock, cmd) { return Failed(InvalidCommand); }
      reply := Run(StockAction.ReceiveStock, cmd);
    }

    method AdjustOnHand(cmd: StockCommand) returns (reply: Reply)
      modifies pool
      ensures pool.db == After(old(pool.db), DecideStock(old(pool.db), StockAction.AdjustOnHand, cmd).0)
      ensures reply == DecideStock(old(pool.db), StockAction.AdjustOnHand, cmd).1
    {
      Refuses(pool.db, StockAction.AdjustOnHand, cmd);
      if !ValidCommand(StockAction.AdjustOnHand, cmd) { return Failed(InvalidCommand); }
      reply := Run(StockAction.AdjustOnHand, cmd);
    }

    method SetSafetyStock(cmd: StockCommand) returns (reply: Reply)
      modifies pool
      ensures pool.db == After(old(pool.db), DecideStock(old(pool.db), StockAction.SetSafetyStock, cmd).0)
      ensures reply == DecideStock(old(pool.db), StockAction.SetSafetyStock, cmd).1
    {
      Refuses(pool.db, StockAction.SetSafetyStock, cmd);
      if !ValidCommand(StockAction.SetSafetyStock, cmd) { return Failed(InvalidCommand); }
      reply := Run(StockAction.SetSafetyStock, cmd);
    }
  }

  // Reusing a command id ----------------------------------------------------------------

  // What claimCommand can tell apart: everything but the quantity of a safety stock, which the
  // ledger row does not carry.
  predicate SameIntent(act: StockAction, cmd: StockCommand, act': StockAction, cmd': StockCommand) {
    act' == act && (cmd' == cmd || (act == SetSafetyStock && cmd' == cmd.(qty := cmd'.qty)))
  }

  lemma RowForgetsSafetyStock(act: StockAction, cmd: StockCommand, act': StockAction, cmd': StockCommand)
    requires cmd'.commandId == cmd.commandId
    ensures StockRow(act', cmd') == StockRow(act, cmd) <==> SameIntent(act, cmd, act', cmd')
  {
  }

  // Once a command has applied, then after any further commands a command that reuses its id
  // changes nothing. It is taken for a replay exactly when the two differ in nothing but the
  // quantity of a safety stock: for SetSafetyStock, asking for another level under a used id
  // reports success and leaves the level as it is.
  lemma ReusedId(db: Db, act: StockAction, cmd: StockCommand, cs: seq<Command>, act': StockAction, cmd': StockCommand)
    requires Inv(db) && Answer(db, Stock(act, cmd)) == Applied(true)
    requires ValidCommand(act', cmd') && MovementFits(cmd'.commandId, StockRow(act', cmd')) && cmd'.commandId == cmd.commandId
    ensures var db' := Idempotency.Run(Exec(db, Stock(act, cmd)), cs);
            && Exec(db', Stock(act', cmd')) == db'
            && Answer(db', Stock(act', cmd'))
            == if SameIntent(act, cmd, act', cmd') then Applied(false) else Failed(CommandConflict)
  {
    var db1 := Exec(db, Stock(act, cmd));
    AppliedRow(db, act, cmd);
    Idempotency.ExecKeeps(db, Stock(act, cmd));
    Idempotency.RunKeeps(db1, cs);
    RowForgetsSafetyStock(act, cmd, act', cmd');
    TakenId(Idempotency.Run(db1, cs), StockRow(act, cmd), act', cmd');
  }

  lemma AppliedRow(db: Db, act: StockAction, cmd: StockCommand)
    requires Answer(db, Stock(act, cmd)) == Applied(true)
    ensures var db1 := Exec(db, Stock(act, cmd));
            cmd.commandId in db1.movements && db1.movements[cmd.commandId] == StockRow(act, cmd)
  {
    StockCommits(db, act, cmd);
  }

  lemma TakenId(db: Db, row: Movement, act: StockAction, cmd: StockCommand)
    requires cmd.commandId in db.movements && db.movements[cmd.commandId] == row && row.origin.Admin?
    requires ValidCommand(act, cmd) && MovementFits(cmd.commandId, StockRow(act, cmd))
    ensures Exec(db, Stock(act, cmd)) == db
    ensures Answer(db, Stock(act, cmd)) == if StockRow(act, cmd) == row then Applied(false) else Failed(CommandConflict)
  {
  }
}
