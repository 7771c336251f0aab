/** Character-level facts: bytewise string order, decimal printing, splitting on a separator. */
module Text {

  // Go's < on strings.
  predicate Less(a: string, b: string) {
    if b == [] then false
    else if a == [] then true
    else a[0] < b[0] || (a[0] == b[0] && Less(a[1..], b[1..]))
  }

  lemma {:induction false} LessIrreflexive(a: string)
    ensures !Less(a, a)
  {
    if a != [] { LessIrreflexive(a[1..]); }
  }

  lemma {:induction false} LessTransitive(a: string, b: string, c: string)
    requires Less(a, b) && Less(b, c)
    ensures Less(a, c)
  {
    if a != [] && a[0] == b[0] == c[0] {
      LessTransitive(a[1..], b[1..], c[1..]);
    }
  }

  lemma {:induction false} LessTotal(a: string, b: string)
    requires a != b
    ensures Less(a, b) || Less(b, a)
  {
    if a != [] && b != [] && a[0] == b[0] {
      assert a == [a[0]] + a[1..] && b == [b[0]] + b[1..];
      LessTotal(a[1..], b[1..]);
    }
  }

  lemma LessIsOrder()
    ensures forall a :: !Less(a, a)
    ensures forall a, b | a != b :: Less(a, b) || Less(b, a)
    ensures forall a, b, c | Less(a, b) && Less(b, c) :: Less(a, c)
  {
    forall a ensures !Less(a, a) { LessIrreflexive(a); }
    forall a, b | a != b ensures Less(a, b) || Less(b, a) { LessTotal(a, b); }
    forall a, b, c | Less(a, b) && Less(b, c) ensures Less(a, c) { LessTransitive(a, b, c); }
  }

  // a stands before b byte by byte: it is cut short, or has the smaller byte at their first difference.
  ghost predicate Before(a: string, b: string) {
    exists k: nat :: SplitsAt(a, b, k)
  }

  predicate SplitsAt(a: string, b: string, k: nat) {
    k <= |a| && k < |b| && a[..k] == b[..k] && (k == |a| || a[k] < b[k])
  }

  lemma {:induction false} LessIsBefore(a: string, b: string)
    ensures Less(a, b) <==> Before(a, b)
  {
    if Less(a, b) { FirstDifference(a, b); }
    if Before(a, b) {
      var k: nat :| SplitsAt(a, b, k);
      SplitIsLess(a, b, k);
    }
  }

  lemma {:induction false} FirstDifference(a: string, b: string)
    requires Less(a, b)
    ensures Before(a, b)
  {
    if a == [] || a[0] < b[0] {
      assert SplitsAt(a, b, 0);
    } else {
      FirstDifference(a[1..], b[1..]);
      var k: nat :| SplitsAt(a[1..], b[1..], k);
      assert a[..k + 1] == [a[0]] + a[1..][..k] && b[..k + 1] == [b[0]] + b[1..][..k];
      assert SplitsAt(a, b, k + 1);
    }
  }

  lemma {:induction false} SplitIsLess(a: string, b: string, k: nat)
    requires SplitsAt(a, b, k)
    ensures Less(a, b)
    decreases k
  {
    if k > 0 {
      assert a[0] == a[..k][0] == b[..k][0] == b[0];
      assert a[1..][..k - 1] == a[..k][1..] && b[1..][..k - 1] == b[..k][1..];
      SplitIsLess(a[1..], b[1..], k - 1);
    }
  }

  function Digit(d: nat): (c: char)
    requires d < 10
    ensures '0' <= c <= '9'
  {
    '0' + d as char
  }

  function DecNat(n: nat): (r: string)
    ensures r != []
    ensures forall c | c in r :: '0' <= c <= '9'
  {
    if n < 10 then [Digit(n)] else DecNat(n / 10) + [Digit(n % 10)]
  }

  // strconv.FormatInt(n, 10)
  function Dec(n: int): (r: string)
    ensures forall c | c in r :: '0' <= c <= '9' || c == '-'
  {
    if n < 0 then "-" + DecNat(-n) else DecNat(n)
  }

  // The number a row of decimal digits denotes, the last digit being the units.
  function Value(s: string): int {
    if s == [] then 0 else 10 * Value(s[..|s| - 1]) + (s[|s| - 1] as int - '0' as int)
  }

  // Digits only, no leading zero, and the value is n.
  predicate Numeral(s: string, n: int) {
    && s != [] && (forall c | c in s :: '0' <= c <= '9')
    && (s[0] == '0' ==> |s| == 1)
    && Value(s) == n
  }

  // A signed decimal numeral.
  predicate Denotes(s: string, n: int) {
    if n < 0 then s != [] && s[0] == '-' && Numeral(s[1..], -n) else Numeral(s, n)
  }

  lemma {:induction false} DecNatReads(n: nat)
    ensures Numeral(DecNat(n), n)
    ensures DecNat(n)[0] == '0' ==> n == 0
  {
    var r := DecNat(n);
    if n < 10 {
      assert r[..0] == [];
      assert Value(r[..0]) == 0;
    } else {
      DecNatReads(n / 10);
      assert r[..|r| - 1] == DecNat(n / 10);
      assert r[0] == DecNat(n / 10)[0];
    }
  }

  // What is printed is the decimal numeral of the number.
  lemma DecDenotes(n: int)
    ensures Denotes(Dec(n), n)
  {
    if n < 0 {
      DecNatReads(-n);
      assert Dec(n)[1..] == DecNat(-n);
    } else {
      DecNatReads(n);
    }
  }

  lemma {:induction false} DecNatInjective(m: nat, n: nat)
    requires DecNat(m) == DecNat(n)
    ensures m == n
  {
    var a, b := DecNat(m), DecNat(n);
    if m < 10 && n < 10 {
      assert a[0] == b[0];
    } else if m >= 10 && n >= 10 {
      assert a[..|a| - 1] == DecNat(m / 10) && b[..|b| - 1] == DecNat(n / 10);
      assert a[|a| - 1] == b[|b| - 1];
      DecNatInjective(m / 10, n / 10);
    }
  }

  lemma DecInjective(m: int, n: int)
    requires Dec(m) == Dec(n)
    ensures m == n
  {
    var a, b := Dec(m), Dec(n);
    assert m < 0 ==> a[0] == '-' && a[1..] == DecNat(-m);
    assert n < 0 ==> b[0] == '-' && b[1..] == DecNat(-n);
    assert m >= 0 ==> a[0] in DecNat(m);
    assert n >= 0 ==> b[0] in DecNat(n);
    if m < 0 && n < 0 { DecNatInjective(-m, -n); }
    if m >= 0 && n >= 0 { DecNatInjective(m, n); }
  }

  // The position of the first separator (the length when there is none).
  function First(s: string, sep: char): nat {
    if s == [] || s[0] == sep then 0 else 1 + First(s[1..], sep)
  }

  // The position of the last separator (0 when there is none).
  function Last(s: string, sep: char): nat {
    if s == [] then 0
    else if s[|s| - 1] == sep then |s| - 1
    else Last(s[..|s| - 1], sep)
  }

  lemma {:induction false} FirstAt(a: string, x: string, sep: char)
    requires sep !in a
    ensures First(a + [sep] + x, sep) == |a|
  {
    if a != [] {
      assert (a + [sep] + x)[1..] == a[1..] + [sep] + x;
      FirstAt(a[1..], x, sep);
    }
  }

  lemma {:induction false} LastAt(a: string, x: string, sep: char)
    requires sep !in x
    ensures Last(a + [sep] + x, sep) == |a|
  {
    var s := a + [sep] + x;
    if x != [] {
      assert s[..|s| - 1] == a + [sep] + x[..|x| - 1];
      LastAt(a, x[..|x| - 1], sep);
    }
  }

  // The text before the first separator, and the text after it, are determined by the whole.
  lemma SplitFirst(a: string, x: string, b: string, y: string, sep: char)
    requires sep !in a && sep !in b
    requires a + [sep] + x == b + [sep] + y
    ensures a == b && x == y
  {
    var s := a + [sep] + x;
    FirstAt(a, x, sep);
    FirstAt(b, y, sep);
    assert a == s[..|a|] && b == s[..|b|];
    assert x == s[|a| + 1..] && y == s[|b| + 1..];
  }

  // The text before the last separator, and the text after it, are determined by the whole.
  lemma SplitLast(a: string, x: string, b: string, y: string, sep: char)
    requires sep !in x && sep !in y
    requires a + [sep] + x == b + [sep] + y
    ensures a == b && x == y
  {
    var s := a + [sep] + x;
    LastAt(a, x, sep);
    LastAt(b, y, sep);
    assert a == s[..|a|] && b == s[..|b|];
    assert x == s[|a| + 1..] && y == s[|b| + 1..];
  }
}
