/** Charset and length bounds enforced at the gRPC edge (internal/grpc/v1/validate.go). */
module Validate {
  const MAX_QUANTITY := 10_000
  const MAX_CHECK_ITEMS := 100

  predicate WordChar(c: char) {
    'A' <= c <= 'Z' || 'a' <= c <= 'z' || '0' <= c <= '9' || c == '_' || c == '-'
  }

  predicate ValidSku(s: string) {
    1 <= |s| <= 64 && forall c | c in s :: WordChar(c) || c == '.'
  }

  predicate ValidReservationId(s: string) {
    1 <= |s| <= 186 && forall c | c in s :: WordChar(c) || c == '.' || c == ':'
  }

  predicate ValidRegion(s: string) {
    |s| <= 64 && forall c | c in s :: WordChar(c)
  }

  // The characters a region is written in; SKUs and reservation ids may hold a few more.
  const UPPER := "ABCDEFGHIJKLMNOPQRSTUVWXYZ"
  const LOWER := "abcdefghijklmnopqrstuvwxyz"
  const REST := "0123456789_-"

  predicate InAlphabet(c: char) {
    c in UPPER || c in LOWER || c in REST
  }

  lemma UpperIs(c: char)
    ensures 'A' <= c <= 'Z' <==> c in UPPER
  {
    if 'A' <= c <= 'Z' { assert UPPER[c as int - 'A' as int] == c; }
  }

  lemma LowerIs(c: char)
    ensures 'a' <= c <= 'z' <==> c in LOWER
  {
    if 'a' <= c <= 'z' { assert LOWER[c as int - 'a' as int] == c; }
  }

  lemma RestIs(c: char)
    ensures '0' <= c <= '9' || c == '_' || c == '-' <==> c in REST
  {
    if '0' <= c <= '9' { assert REST[c as int - '0' as int] == c; }
    if c == '_' { assert REST[10] == c; }
    if c == '-' { assert REST[11] == c; }
  }

  lemma AlphabetIs(c: char)
    ensures WordChar(c) <==> InAlphabet(c)
  {
    UpperIs(c);
    LowerIs(c);
    RestIs(c);
  }

  // The three charsets, spelled out: what lies outside them is refused, separators first.
  lemma CharsetsAre(s: string)
    ensures ValidSku(s) <==> 1 <= |s| <= 64 && forall c | c in s :: InAlphabet(c) || c == '.'
    ensures ValidReservationId(s) <==> 1 <= |s| <= 186 && forall c | c in s :: InAlphabet(c) || c == '.' || c == ':'
    ensures ValidRegion(s) <==> |s| <= 64 && forall c | c in s :: InAlphabet(c)
  {
    forall c | c in s ensures WordChar(c) <==> InAlphabet(c) { AlphabetIs(c); }
  }
}

/** The ledger command ids written by the three reservation-driven movements. */
module CommandIds {
  import opened Validate
  import Text

  datatype Op = Hold | Unhold | Sale

  const MAX_COMMAND_ID := 255

  function Prefix(op: Op): (p: string)
    ensures |p| == 4
  {
    match op
    case Hold => "res:"
    case Unhold => "rel:"
    case Sale => "cmt:"
  }

  function CommandId(op: Op, id: string, sku: string): string {
    Prefix(op) + id + ":" + sku
  }

  // Whether a command id begins like a reservation-driven one. Admin command ids
  // are only bounded in length, so nothing in the code keeps them out of this form.
  predicate ReservationForm(c: string) {
    exists op: Op :: Prefix(op) <= c
  }

  // The ledger ids, and the forms callers are asked to keep clear of, spelled out.
  lemma LedgerIdsAre(id: string, sku: string, c: string)
    ensures CommandId(Hold, id, sku) == "res:" + id + ":" + sku
    ensures CommandId(Unhold, id, sku) == "rel:" + id + ":" + sku
    ensures CommandId(Sale, id, sku) == "cmt:" + id + ":" + sku
    ensures ReservationForm(c) <==> "res:" <= c || "rel:" <= c || "cmt:" <= c
  {
    assert Prefix(Hold) == "res:" && Prefix(Unhold) == "rel:" && Prefix(Sale) == "cmt:";
    if ReservationForm(c) {
      var op :| Prefix(op) <= c;
      match op
      case Hold =>
      case Unhold =>
      case Sale =>
    }
  }

  lemma CommandIdHasForm(op: Op, id: string, sku: string)
    ensures ReservationForm(CommandId(op, id, sku))
  {
    assert CommandId(op, id, sku)[..4] == Prefix(op);
  }

  // Ids may contain ':' themselves; the encoding is still injective because SKUs cannot.
  lemma CommandIdInjective(op: Op, id: string, sku: string, op': Op, id': string, sku': string)
    requires ':' !in sku && ':' !in sku'
    requires CommandId(op, id, sku) == CommandId(op', id', sku')
    ensures op == op' && id == id' && sku == sku'
  {
    var a, b := Prefix(op) + id, Prefix(op') + id';
    assert a + [':'] + sku == CommandId(op, id, sku);
    assert b + [':'] + sku' == CommandId(op', id', sku');
    Text.SplitLast(a, sku, b, sku', ':');
    assert a[..4] == Prefix(op) && b[..4] == Prefix(op');
    assert a[2] == Prefix(op)[2] && b[2] == Prefix(op')[2] && a[0] == Prefix(op)[0] && b[0] == Prefix(op')[0];
    assert a[4..] == id && b[4..] == id';
  }

  // For one reservation, distinct SKUs get distinct command ids whatever the SKUs contain.
  lemma SameReservationInjective(op: Op, id: string)
    ensures forall s, t {:trigger CommandId(op, id, s), CommandId(op, id, t)} ::
              CommandId(op, id, s) == CommandId(op, id, t) ==> s == t
  {
    forall s, t | CommandId(op, id, s) == CommandId(op, id, t) ensures s == t {
      var n := 5 + |id|;
      assert CommandId(op, id, s)[n..] == s;
      assert CommandId(op, id, t)[n..] == t;
    }
  }

  // The id cap of 186 is exactly what VARCHAR(255) allows: at or below it every valid SKU
  // fits, above it some valid SKU does not.
  lemma LengthCapIsTight(op: Op, id: string)
    ensures (forall sku | ValidSku(sku) :: |CommandId(op, id, sku)| <= MAX_COMMAND_ID) <==> |id| <= 186
    ensures forall sku | ValidSku(sku) && ValidReservationId(id) :: |CommandId(op, id, sku)| <= MAX_COMMAND_ID
  {
    if |id| > 186 {
      var widest := seq(64, i => 's');
      assert ValidSku(widest);
      assert |CommandId(op, id, widest)| == 4 + |id| + 1 + 64;
    }
  }

  // The SKU charset is needed: every SKU with a ':' shares its command id with another pair, made of
  // the rest of the SKU and an id one could choose.
  lemma ColonInSkuCollides(op: Op, id: string, x: string, y: string)
    ensures CommandId(op, id, x + ":" + y) == CommandId(op, id + ":" + x, y)
    ensures id + ":" + x != id
  {
    assert Prefix(op) + id + ":" + (x + ":" + y) == Prefix(op) + (id + ":" + x) + ":" + y;
    assert |id + ":" + x| > |id|;
  }
}
