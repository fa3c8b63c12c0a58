// The synthetic Telegram id of a reseller's client, `stableNegativeId` in src/api/reseller-api.ts:579-586.
module StableId {

  /** A string's UTF-16 code units. */
  type Unit = u: nat | u < 0x1_0000

  const TWO_32: int := 0x1_0000_0000
  const TWO_31: int := 0x8000_0000
  const TWO_53: int := 0x20_0000_0000_0000

  /** `x | 0` */
  function Wrap(x: int): (r: int)
    ensures -TWO_31 <= r < TWO_31 && (x - r) % TWO_32 == 0
  {
    (x + TWO_31) % TWO_32 - TWO_31
  }

  /** A JavaScript number that is the exact result of the operation that gave it. */
  function Exact(x: int): int
    requires -TWO_53 < x < TWO_53
  {
    x
  }

  function Power(e: nat): nat {
    if e == 0 then 1 else 31 * Power(e - 1)
  }

  /** The string as a number in base 31, without any overflow. */
  function Polynomial(s: seq<Unit>): nat {
    if s == [] then 0 else s[0] * Power(|s| - 1) + Polynomial(s[1..])
  }

  /** What the id is, in terms of the exact polynomial. */
  function IdOf(s: seq<Unit>): (r: int)
    ensures -TWO_31 <= r <= -1
  {
    var hash := Wrap(Polynomial(s));
    if hash == 0 then -1 else if hash < 0 then hash else -hash
  }

  lemma {:induction false} PowerSplits(a: nat, b: nat)
    ensures Power(a + b) == Power(a) * Power(b)
  {
    if a != 0 {
      PowerSplits(a - 1, b);
      assert 31 * (Power(a - 1) * Power(b)) == (31 * Power(a - 1)) * Power(b);
    }
  }

  lemma {:induction false} PolynomialSplits(a: seq<Unit>, b: seq<Unit>)
    ensures Polynomial(a + b) == Polynomial(a) * Power(|b|) + Polynomial(b)
  {
    if a == [] {
      assert a + b == b;
    } else {
      assert (a + b)[1..] == a[1..] + b;
      PolynomialSplits(a[1..], b);
      PowerSplits(|a| - 1, |b|);
      Regroup(a[0], Power(|a| - 1), Polynomial(a[1..]), Power(|b|));
    }
  }

  lemma Regroup(u: nat, p: nat, q: nat, n: nat)
    ensures u * (p * n) + q * n == (u * p + q) * n
  {
    assert u * (p * n) == (u * p) * n;
  }

  lemma OneMoreUnit(s: seq<Unit>, u: Unit)
    ensures Polynomial(s + [u]) == 31 * Polynomial(s) + u
  {
    PolynomialSplits(s, [u]);
    assert [u][1..] == [];
    assert Power(1) == 31 * Power(0);
  }

  lemma WrapIsPeriodic(x: int, k: int)
    ensures Wrap(x + TWO_32 * k) == Wrap(x)
  {
    var y := x + TWO_31;
    RemainderIs(y + TWO_32 * k, y / TWO_32 + k, y % TWO_32);
  }

  lemma RemainderIs(x: int, q: int, r: int)
    requires x == TWO_32 * q + r && 0 <= r < TWO_32
    ensures x % TWO_32 == r
  {
    assert x / TWO_32 == q;
  }

  /** Wrapping the fold at every step wraps the exact fold. */
  lemma WrapStep(exact: int, u: int)
    ensures Wrap(Wrap(exact) * 31 + u) == Wrap(exact * 31 + u)
  {
    var k := (exact - Wrap(exact)) / TWO_32;
    assert exact == Wrap(exact) + TWO_32 * k;
    hide Wrap;
    WrapIsPeriodic(Wrap(exact) * 31 + u, 31 * k);
  }

  /** Each product and sum on the way is exact, and the result is a negative number of 32 bits: no Telegram user has it. */
  method StableNegativeId(s: seq<Unit>) returns (id: int)
    ensures id == IdOf(s)
  {
    var hash := 0;
    for i := 0 to |s|
      invariant hash == Wrap(Polynomial(s[..i]))
    {
      assert s[..i + 1] == s[..i] + [s[i]];
      OneMoreUnit(s[..i], s[i]);
      WrapStep(Polynomial(s[..i]), s[i]);
      hash := Wrap(Exact(Exact(hash * 31) + s[i]));
    }
    assert s[..|s|] == s;
    var nonZero := if hash == 0 then 1 else hash;
    var magnitude := if nonZero < 0 then -nonZero else nonZero;
    id := -magnitude;
  }

  /** Exactly which strings share an id: their polynomials agree modulo 2^32, or are each other's negatives, or give 0 or 1. */
  lemma SharedIds(a: seq<Unit>, b: seq<Unit>)
    ensures var p, q := Polynomial(a) % TWO_32, Polynomial(b) % TWO_32;
            IdOf(a) == IdOf(b) <==>
              p == q || p + q == TWO_32 || (p in {0, 1, TWO_32 - 1} && q in {0, 1, TWO_32 - 1})
  {
    WrapCases(Polynomial(a));
    WrapCases(Polynomial(b));
    hide Wrap;
  }

  lemma WrapCases(x: int)
    ensures Wrap(x) == if x % TWO_32 < TWO_31 then x % TWO_32 else x % TWO_32 - TWO_32
  {
  }

  /** Which id a string gets: the remainder of its polynomial by 2^32, counted down from 0 or up from -2^32, and -1 for remainder 0. */
  lemma IdFromRemainder(s: seq<Unit>)
    ensures var r := Polynomial(s) % 4_294_967_296;
            IdOf(s) == if r == 0 then -1 else if r <= 2_147_483_648 then -r else r - 4_294_967_296
  {
    WrapCases(Polynomial(s));
    hide Wrap, Polynomial;
  }

  /** "Aa" and "BB" weigh the same, so clients whose names differ only there share an id. */
  lemma SomeClientsShareIds(prefix: seq<Unit>, suffix: seq<Unit>)
    ensures IdOf(prefix + [65, 97] + suffix) == IdOf(prefix + [66, 66] + suffix)
  {
    var a: seq<Unit>, b: seq<Unit> := [65, 97], [66, 66];
    assert Polynomial(a) == Polynomial(b) by {
      OneMoreUnit([65], 97);
      OneMoreUnit([66], 66);
      OneMoreUnit([], 65);
      OneMoreUnit([], 66);
      assert a == [65] + [97] && b == [66] + [66];
      assert [65] == [] + [65] && [66] == [] + [66];
    }
    PolynomialSplits(prefix, a);
    PolynomialSplits(prefix, b);
    PolynomialSplits(prefix + a, suffix);
    PolynomialSplits(prefix + b, suffix);
  }
}
