/** 32-bit serial number arithmetic, and the sense in which it refines the integers.

    The TCP engine only ever sees sequence numbers modulo 2^32. Every proof about it works with
    unwrapped integer positions, and the lemmas of this module carry comparisons from one to the other. */
module SeqNum {

  const MOD: int := 0x1_0000_0000
  const HALF: int := 0x8000_0000

  type u32 = x: int | 0 <= x < MOD

  /** `x & MASK`. Dafny's remainder is never negative, so this is right for negative `x` too. */
  function Wrap(x: int): u32 { x % MOD }

  /** An unsigned difference read as a signed 32-bit number. */
  function S32(x: int): int {
    var y := Wrap(x);
    if y >= HALF then y - MOD else y
  }

  function Add(a: int, n: int): u32 { Wrap(a + n) }

  function Sub(a: int, b: int): u32 { Wrap(a - b) }

  predicate SeqLt(a: int, b: int) { S32(a - b) < 0 }

  predicate SeqLeq(a: int, b: int) { S32(a - b) <= 0 }

  predicate SeqGt(a: int, b: int) { S32(a - b) > 0 }

  predicate SeqGeq(a: int, b: int) { S32(a - b) >= 0 }

  predicate Between(lo: int, x: int, hi: int) { SeqLeq(lo, x) && SeqLeq(x, hi) }

  predicate InWindow(s: int, nxt: int, wnd: nat) { SeqLeq(nxt, s) && SeqLt(s, Add(nxt, wnd)) }

  /** The four-case segment acceptability test of section 3.10.7.4 of RFC 9293. */
  predicate Acceptable(sn: int, len: nat, nxt: int, wnd: nat) {
    if len == 0 then
      if wnd == 0 then sn == nxt else InWindow(sn, nxt, wnd)
    else
      wnd != 0 && (InWindow(sn, nxt, wnd) || InWindow(Add(sn, len - 1), nxt, wnd))
  }

  // ---------------------------------------------------------------------------------------------
  // Refinement of the integers
  // ---------------------------------------------------------------------------------------------

  /** The signed difference of two wrapped positions is their true difference within half the space. */
  lemma SerialDifference(base: int, x: int, y: int)
    requires -HALF <= x - y < HALF
    ensures S32(Wrap(base + x) - Wrap(base + y)) == x - y
  {
    assert Wrap(base + x) - Wrap(base + y) == (x - y) + ((base + y) / MOD - (base + x) / MOD) * MOD;
    RemainderShift(x - y, (base + y) / MOD - (base + x) / MOD);
  }

  lemma RemainderShift(d: int, k: int)
    ensures (d + k * MOD) % MOD == d % MOD
  {
  }

  /** All comparisons agree with integer order whenever the distance is below 2^31. */
  lemma SerialOrder(base: int, x: int, y: int)
    requires -HALF < x - y < HALF
    ensures SeqLt(Wrap(base + x), Wrap(base + y)) <==> x < y
    ensures SeqLeq(Wrap(base + x), Wrap(base + y)) <==> x <= y
    ensures SeqGt(Wrap(base + x), Wrap(base + y)) <==> x > y
    ensures SeqGeq(Wrap(base + x), Wrap(base + y)) <==> x >= y
    ensures Wrap(base + x) == Wrap(base + y) <==> x == y
    ensures S32(Wrap(base + x) - Wrap(base + y)) == x - y
  {
    SerialDifference(base, x, y);
    SerialDifference(base, y, x);
  }

  /** ... and stop agreeing at exactly 2^31, where each of two numbers is below the other. */
  lemma SerialOrderFailsAtHalf(base: int, x: int)
    ensures SeqLt(Wrap(base + x), Wrap(base + x + HALF)) && SeqLt(Wrap(base + x + HALF), Wrap(base + x))
  {
    SerialDifference(base, x, x + HALF);
    assert Wrap(base + x + HALF) - Wrap(base + x) == HALF + ((base + x) / MOD - (base + x + HALF) / MOD) * MOD;
    RemainderShift(HALF, (base + x) / MOD - (base + x + HALF) / MOD);
  }

  lemma AddWraps(base: int, x: int, n: int)
    ensures Add(Wrap(base + x), n) == Wrap(base + x + n)
  {
    assert Wrap(base + x) + n == base + x + n + (-((base + x) / MOD)) * MOD;
    RemainderShift(base + x + n, -((base + x) / MOD));
  }

  lemma SubWraps(base: int, x: int, y: int)
    requires 0 <= x - y < MOD
    ensures Sub(Wrap(base + x), Wrap(base + y)) == x - y
  {
    assert Wrap(base + x) - Wrap(base + y) == (x - y) + ((base + y) / MOD - (base + x) / MOD) * MOD;
    RemainderShift(x - y, (base + y) / MOD - (base + x) / MOD);
  }

  /** Every 32-bit number is `base` moved by its serial distance from `base`. */
  lemma SerialPosition(base: int, x: int, s: u32)
    ensures s == Wrap(base + x + S32(s - Wrap(base + x)))
    ensures s == Wrap(base + x + Sub(s, Wrap(base + x)))
    ensures -HALF <= S32(s - Wrap(base + x)) < HALF
  {
    var b := Wrap(base + x);
    var k := (base + x) / MOD;
    assert b == base + x - k * MOD;
    var q := (s - b) / MOD;
    assert Sub(s, b) == s - b - q * MOD;
    assert base + x + Sub(s, b) == s + (k - q) * MOD;
    RemainderShift(s, k - q);
    if S32(s - b) != Sub(s, b) {
      assert base + x + S32(s - b) == s + (k - q - 1) * MOD;
      RemainderShift(s, k - q - 1);
    }
  }

  /** Above `base` and at most one above it is one above it. */
  lemma JustAbove(base: int, s: u32)
    requires SeqLt(Wrap(base + 0), s) && SeqLeq(s, Wrap(base + 1))
    ensures s == Wrap(base + 1)
  {
    SerialPosition(base, 0, s);
    var d := S32(s - Wrap(base + 0));
    if d == -HALF {
      assert Wrap(base + d) == Wrap(base + HALF) by { RemainderShift(base + HALF, -1); }
      SerialDifference(base, HALF, 1);
      assert false;
    }
    SerialOrder(base, 0, d);
    SerialDifference(base, d, 1);
  }

  /** First or last sequence number in the unwrapped window: what the acceptability test decides. */
  predicate TouchesWindow(s: int, len: nat, nxt: int, wnd: nat) {
    if len == 0 then
      if wnd == 0 then s == nxt else nxt <= s < nxt + wnd
    else
      wnd != 0 && (nxt <= s < nxt + wnd || nxt <= s + len - 1 < nxt + wnd)
  }

  lemma InWindowUnwrapped(base: int, s: int, nxt: int, wnd: nat)
    requires -HALF < s - nxt < HALF && wnd <= HALF
    ensures InWindow(Wrap(base + s), Wrap(base + nxt), wnd) <==> nxt <= s < nxt + wnd
  {
    SerialOrder(base, nxt, s);
    AddWraps(base, nxt, wnd);
    assert base + nxt + wnd == base + (nxt + wnd);
    if nxt <= s { SerialDifference(base, s, nxt + wnd); }
  }

  /** The wrapped test is exactly the unwrapped one for windows up to 2^31 and segments within 2^31. */
  lemma AcceptableUnwrapped(base: int, s: int, len: nat, nxt: int, wnd: nat)
    requires -HALF < s - nxt < HALF && wnd <= HALF
    requires len > 0 ==> -HALF < s + len - 1 - nxt < HALF
    ensures Acceptable(Wrap(base + s), len, Wrap(base + nxt), wnd) <==> TouchesWindow(s, len, nxt, wnd)
  {
    SerialOrder(base, s, nxt);
    InWindowUnwrapped(base, s, nxt, wnd);
    if len > 0 {
      AddWraps(base, s, len - 1);
      assert base + s + (len - 1) == base + (s + len - 1);
      InWindowUnwrapped(base, s + len - 1, nxt, wnd);
    }
  }

  predicate Covers(from: int, len: nat, x: int) { from <= x < from + len }

  ghost predicate Overlaps(s: int, len: nat, nxt: int, wnd: nat) {
    exists x :: Covers(s, len, x) && Covers(nxt, wnd, x)
  }

  /** The segment begins before the window and ends beyond it. */
  predicate Straddles(s: int, len: nat, nxt: int, wnd: nat) { s < nxt && nxt + wnd < s + len }

  /** A segment is accepted exactly if it overlaps the window without beginning before it and ending beyond it too: one
      that does is refused though every number of the window is in it. None of up to the window's length plus one does. */
  lemma AcceptableIsOverlap(base: int, s: int, len: nat, nxt: int, wnd: nat)
    requires -HALF < s - nxt < HALF && -HALF < s + len - 1 - nxt < HALF && wnd <= HALF && len > 0
    ensures Acceptable(Wrap(base + s), len, Wrap(base + nxt), wnd) <==> Overlaps(s, len, nxt, wnd) && !Straddles(s, len, nxt, wnd)
    ensures Straddles(s, len, nxt, wnd) ==> len > wnd + 1
  {
    AcceptableUnwrapped(base, s, len, nxt, wnd);
    if TouchesWindow(s, len, nxt, wnd) {
      var x := if nxt <= s < nxt + wnd then s else s + len - 1;
      assert Covers(s, len, x) && Covers(nxt, wnd, x);
    }
  }
}
