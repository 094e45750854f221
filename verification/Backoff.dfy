/**
 The consumer's retry back-off on signed 64-bit durations, and the loop that
 acknowledges, or waits and requeues, one message after the other.
 */
module Backoff {
  import opened RedisKeys

  const RETRY_BASE: int := SECOND
  const RETRY_MAX: int := 30 * SECOND
  const TWO_63: int := 0x8000_0000_0000_0000
  const TWO_64: int := 0x1_0000_0000_0000_0000

  function Pow2(n: nat): (r: nat)
    ensures r >= 1
  {
    if n == 0 then 1 else 2 * Pow2(n - 1)
  }

  /** The int64 with the same low 64 bits. */
  function Wrap(x: int): int
  {
    var low := x % TWO_64;
    if low >= TWO_63 then low - TWO_64 else low
  }

  /** x << n on int64; bits shifted out are lost. */
  function ShiftLeft(x: int, n: nat): int
  {
    Wrap(x * Pow2(n))
  }

  /** The wait after `failures` failures in a row: 1, 2, 4, 8, 16 and then 30 seconds. */
  function WaitAfter(failures: nat): int
    requires failures >= 1
  {
    if failures <= 5 then Pow2(failures - 1) * SECOND else RETRY_MAX
  }

  // ---- The shift wraps, but never into the accepted range ------------------------------

  lemma {:induction false} Pow2Split(a: nat, b: nat)
    ensures Pow2(a + b) == Pow2(a) * Pow2(b)
  {
    if a > 0 {
      Pow2Split(a - 1, b);
    }
  }

  lemma {:induction false} Pow2Grows(a: nat, b: nat)
    requires a <= b
    ensures Pow2(a) <= Pow2(b)
  {
    if a < b {
      Pow2Grows(a, b - 1);
    }
  }

  lemma Pow2Values()
    ensures Pow2(26) == 0x400_0000 && Pow2(33) == 0x2_0000_0000
  {
    assert Pow2(8) == 256 && Pow2(9) == 512;
    Pow2Split(8, 9);
    Pow2Split(9, 17);
    Pow2Split(8, 8);
    Pow2Split(16, 17);
  }

  /** A wrapped multiple of 2^35 is again a multiple of 2^35, so it is not positive
      or exceeds 30 seconds. */
  lemma WrapKeepsMultiples(k: int)
    ensures var v := Wrap(k * 0x8_0000_0000); v <= 0 || v > RETRY_MAX
  {
    var x := k * 0x8_0000_0000;
    var q := x / TWO_64;
    assert x % TWO_64 == (k - q * 0x2000_0000) * 0x8_0000_0000;
    var j := k - q * 0x2000_0000;
    assert Wrap(x) == j * 0x8_0000_0000 || Wrap(x) == (j - 0x2000_0000) * 0x8_0000_0000;
  }

  lemma FirstShifts(n: nat)
    requires n <= 33
    ensures ShiftLeft(RETRY_BASE, n) == Pow2(n) * SECOND
  {
    Pow2Values();
    Pow2Grows(n, 33);
  }

  lemma LateShifts(n: nat)
    requires n >= 26
    ensures var v := ShiftLeft(RETRY_BASE, n); v <= 0 || v > RETRY_MAX
  {
    Pow2Values();
    Pow2Split(26, n - 26);
    var k := 1953125 * Pow2(n - 26);
    assert RETRY_BASE * Pow2(n) == k * 0x8_0000_0000;
    WrapKeepsMultiples(k);
  }

  /** For every number of failures the clamped shift is min(2^(failures-1), 30) seconds, and a
      shift that lands in (0, 30 s] has not lost a bit. */
  lemma ClampedShiftIsExact(failures: nat)
    requires failures >= 1
    ensures var v := ShiftLeft(RETRY_BASE, failures - 1);
            (if v > RETRY_MAX || v <= 0 then RETRY_MAX else v) == WaitAfter(failures)
    ensures WaitAfter(failures) ==
            if Pow2(failures - 1) <= 30 then Pow2(failures - 1) * SECOND else RETRY_MAX
    ensures var v := ShiftLeft(RETRY_BASE, failures - 1); 0 < v <= RETRY_MAX ==> v == Pow2(failures - 1) * SECOND
  {
    var n := failures - 1;
    if n <= 33 {
      FirstShifts(n);
    } else {
      LateShifts(n);
    }
    assert Pow2(4) == 16 && Pow2(5) == 32;
    if n >= 5 {
      Pow2Grows(5, n);
    } else {
      Pow2Grows(n, 4);
    }
  }

  lemma WaitsNeverShrink(a: nat, b: nat)
    requires 1 <= a <= b
    ensures SECOND <= WaitAfter(a) <= WaitAfter(b) <= RETRY_MAX
  {
    assert Pow2(4) == 16;
    Pow2Grows(0, a - 1);
    Pow2Grows(a - 1, b - 1);
    if b <= 5 {
      Pow2Grows(b - 1, 4);
    } else if a <= 5 {
      Pow2Grows(a - 1, 4);
    }
  }

  // ---- The counter ----------------------------------------------------------------------

  class Counter {
    var failures: nat

    constructor ()
      ensures failures == 0
    {
      failures := 0;
    }

    method Next() returns (wait: int)
      modifies this
      ensures failures == old(failures) + 1
      ensures wait == WaitAfter(failures)
    {
      failures := failures + 1;
      wait := ShiftLeft(RETRY_BASE, failures - 1);
      if wait > RETRY_MAX || wait <= 0 {
        wait := RETRY_MAX;
      }
      ClampedShiftIsExact(failures);
    }

    method Reset()
      modifies this
      ensures failures == 0
    {
      failures := 0;
    }
  }

  // ---- The consume loop --------------------------------------------------------------------

  /** What a handler returned: nil, an error wrapping ErrAck, or any other error. */
  datatype Outcome = Handled | Deterministic | Transient

  datatype Action = Acked | Nacked(wait: int)

  /** Transient failures since the last message that was acknowledged. */
  function Streak(outcomes: seq<Outcome>): nat
  {
    if outcomes == [] || outcomes[|outcomes| - 1] != Transient then 0
    else Streak(outcomes[..|outcomes| - 1]) + 1
  }

  method ConsumeAll(outcomes: seq<Outcome>) returns (actions: seq<Action>)
    ensures |actions| == |outcomes|
    ensures forall i :: 0 <= i < |outcomes| ==>
              actions[i] == if outcomes[i] == Transient then Nacked(WaitAfter(Streak(outcomes[..i + 1]))) else Acked
  {
    var backoff := new Counter();
    actions := [];
    for i := 0 to |outcomes|
      invariant fresh(backoff)
      invariant |actions| == i && backoff.failures == Streak(outcomes[..i])
      invariant forall j :: 0 <= j < i ==>
                  actions[j] == if outcomes[j] == Transient then Nacked(WaitAfter(Streak(outcomes[..j + 1]))) else Acked
    {
      assert outcomes[..i + 1][..i] == outcomes[..i];
      match outcomes[i]
      case Handled =>
        actions := actions + [Acked];
        backoff.Reset();
      case Deterministic =>
        actions := actions + [Acked];
        backoff.Reset();
      case Transient =>
        var wait := backoff.Next();
        actions := actions + [Nacked(wait)];
    }
    assert outcomes[..|outcomes|] == outcomes;
  }

  /** A failure right after an acknowledged message, or at the start, waits one second;
      a failure right after a failure waits at least as long as that one did. */
  lemma StreaksRestart(outcomes: seq<Outcome>, i: nat)
    requires i < |outcomes| && outcomes[i] == Transient
    ensures i == 0 || outcomes[i - 1] != Transient ==> WaitAfter(Streak(outcomes[..i + 1])) == SECOND
    ensures i > 0 && outcomes[i - 1] == Transient ==>
              SECOND <= WaitAfter(Streak(outcomes[..i])) <= WaitAfter(Streak(outcomes[..i + 1])) <= RETRY_MAX
  {
    assert outcomes[..i + 1][..i] == outcomes[..i];
    if i > 0 && outcomes[i - 1] == Transient {
      assert outcomes[..i][i - 1] == Transient;
      WaitsNeverShrink(Streak(outcomes[..i]), Streak(outcomes[..i + 1]));
    }
  }
}
