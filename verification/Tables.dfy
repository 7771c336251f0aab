/** The five tables (db/migrations/sql/000002_inventory_schema.up.sql) and a transaction's write set. */
module Tables {

  datatype Key = Key(sku: string, wh: int)

  datatype Balance = Balance(onHand: int, reserved: int, safety: int, version: int) {
    // GREATEST(0, on_hand - reserved - safety_stock)
    function Atp(): (n: int)
      ensures n >= 0 && n + reserved + safety >= onHand
      ensures n > 0 ==> n + reserved + safety == onHand
    {
      if onHand - reserved - safety > 0 then onHand - reserved - safety else 0
    }

    // The row CHECKs, evaluated at the end of every statement that writes the row.
    predicate Ok() {
      0 <= reserved <= onHand && 0 <= safety
    }
  }

  datatype Status = Reserved | Committed | Released | Expired

  datatype Header = Header(orderRef: string, hash: string, status: Status)

  // Primary key (reservation_id, sku_id) of inventory_reservation_lines.
  datatype LineKey = LineKey(rid: string, sku: string)

  datatype Line = Line(wh: int, qty: int)

  datatype MovementType =
    | RECEIVE | ADJUST | SET_SAFETY_STOCK | RESERVE | RELEASE | SALE_COMMITTED | RETURN

  // reference_type 'admin' with its actor, or reference_type 'reservation' with its reference_id.
  datatype Origin = Admin(actor: string) | Workflow(rid: string)

  datatype Movement = Movement(key: Key, kind: MovementType, onHandDelta: int, reservedDelta: int,
                               origin: Origin, reason: string)

  // Maps stand for tables with a primary or unique key: warehouses by id (to "is active"),
  // balances by (sku, warehouse), headers by id, lines by (reservation, sku), movements by command_id.
  datatype Db = Db(warehouses: map<int, bool>,
                   balances: map<Key, Balance>,
                   headers: map<string, Header>,
                   lines: map<LineKey, Line>,
                   movements: map<string, Movement>)

  function EmptyDb(warehouses: map<int, bool>): Db {
    Db(warehouses, map[], map[], map[], map[])
  }

  // Rows a transaction has written but not yet committed.
  datatype Writes = Writes(balances: map<Key, Balance>,
                           headers: map<string, Header>,
                           lines: map<LineKey, Line>,
                           movements: map<string, Movement>)

  const NO_WRITES := Writes(map[], map[], map[], map[])

  function Publish(db: Db, w: Writes): Db {
    Db(db.warehouses, db.balances + w.balances, db.headers + w.headers,
       db.lines + w.lines, db.movements + w.movements)
  }

  // The external_reference UNIQUE index.
  predicate RefTaken(headers: map<string, Header>, orderRef: string) {
    exists id | id in headers :: headers[id].orderRef == orderRef
  }

  predicate Active(db: Db, wh: int) {
    wh in db.warehouses && db.warehouses[wh]
  }

  // A balance row exists for the SKU in some warehouse, active or not.
  predicate Tracked(db: Db, sku: string) {
    exists k | k in db.balances :: k.sku == sku
  }

  // ATP of a (sku, warehouse) pair; an absent row counts as 0.
  function AtpAt(balances: map<Key, Balance>, k: Key): (n: int)
    ensures n >= 0
  {
    if k in balances then balances[k].Atp() else 0
  }

  // The row for k, or the all-zero row that stands for "no row yet".
  function BalanceAt(balances: map<Key, Balance>, k: Key): Balance {
    if k in balances then balances[k] else Balance(0, 0, 0, 0)
  }

  function LinesOf(lines: map<LineKey, Line>, id: string): (ls: map<string, Line>)
    ensures forall s :: s in ls <==> LineKey(id, s) in lines
    ensures forall s | s in ls :: ls[s] == lines[LineKey(id, s)]
  {
    map lk | lk in lines && lk.rid == id :: lk.sku := lines[lk]
  }

  // VARCHAR limits of inventory_movements.
  predicate MovementFits(commandId: string, m: Movement) {
    |commandId| <= 255 && |m.key.sku| <= 64 && |m.reason| <= 64 &&
    match m.origin
    case Admin(actor) => |actor| <= 64
    case Workflow(rid) => |rid| <= 255
  }

  // VARCHAR limits of inventory_reservations.
  predicate HeaderFits(id: string, orderRef: string) {
    |id| <= 255 && |orderRef| <= 255
  }
}
