/**
 The in-memory token-bucket limiter, over real tokens and seconds.

 The reference definition does not mention tokens at all: a call is let through
 exactly when counting it keeps every window that ends now within
 capacity + rate * length.
 */
module TokenBucket {
  import opened Options

  datatype Rules = Rules(rate: real, capacity: real)

  // ---- One key: lazy refill ------------------------------------------------------------

  datatype Level = Level(tokens: real, last: real)

  function Min(a: real, b: real): real { if a < b then a else b }

  /** Tokens added between two moments. */
  function Gain(z: Rules, from: real, to: real): real { (to - from) * z.rate }

  /** Tokens at `now` before the call itself is charged. */
  function Refilled(z: Rules, b: Option<Level>, now: real): real
  {
    match b
    case None => z.capacity
    case Some(l) => Min(z.capacity, l.tokens + Gain(z, l.last, now))
  }

  function Charge(z: Rules, b: Option<Level>, now: real): Level
  {
    var tokens := Refilled(z, b, now);
    Level(if tokens >= 1.0 then tokens - 1.0 else tokens, now)
  }

  /** The bucket after calls at the given times. */
  function BucketAfter(z: Rules, times: seq<real>): Option<Level>
  {
    if times == [] then None
    else Some(Charge(z, BucketAfter(z, times[..|times| - 1]), times[|times| - 1]))
  }

  predicate LazyAllows(z: Rules, times: seq<real>, now: real)
  {
    Refilled(z, BucketAfter(z, times), now) >= 1.0
  }

  // ---- One key: the reference --------------------------------------------------------------

  /** One more call at `now` keeps every window ending now within its allowance. */
  predicate Fits(z: Rules, admitted: seq<real>, now: real)
  {
    && 1.0 <= z.capacity
    && forall j :: 0 <= j < |admitted| ==>
         (|admitted| - j + 1) as real <= z.capacity + Gain(z, admitted[j], now)
  }

  function Admitted(z: Rules, times: seq<real>): seq<real>
  {
    if times == [] then []
    else
      var before := Admitted(z, times[..|times| - 1]);
      var now := times[|times| - 1];
      if Fits(z, before, now) then before + [now] else before
  }

  predicate Ordered(times: seq<real>)
  {
    forall i, j :: 0 <= i <= j < |times| ==> times[i] <= times[j]
  }

  predicate Sensible(z: Rules) { z.rate >= 0.0 && z.capacity >= 0.0 }

  /** Allowance still left in the window that starts at the j-th admitted call. */
  function Left(z: Rules, admitted: seq<real>, j: nat, t: real): real
    requires j < |admitted|
  {
    z.capacity + Gain(z, admitted[j], t) - (|admitted| - j) as real
  }

  /** The level of a bucket filled continuously: the least allowance over all windows. */
  ghost predicate IsLevel(z: Rules, admitted: seq<real>, t: real, level: real)
  {
    && level <= z.capacity
    && (forall j :: 0 <= j < |admitted| ==> level <= Left(z, admitted, j, t))
    && (level == z.capacity || exists j :: 0 <= j < |admitted| && level == Left(z, admitted, j, t))
  }

  lemma GainAdds(z: Rules, a: real, b: real, c: real)
    requires Sensible(z)
    ensures Gain(z, a, c) == Gain(z, a, b) + Gain(z, b, c)
    ensures a <= b ==> Gain(z, a, b) >= 0.0
  {
  }

  lemma LevelLater(z: Rules, admitted: seq<real>, t: real, level: real, now: real)
    requires Sensible(z) && t <= now && IsLevel(z, admitted, t, level)
    ensures IsLevel(z, admitted, now, Min(z.capacity, level + Gain(z, t, now)))
  {
    GainAdds(z, t, now, now);
    forall j | 0 <= j < |admitted| ensures Left(z, admitted, j, now) == Left(z, admitted, j, t) + Gain(z, t, now) {
      GainAdds(z, admitted[j], t, now);
    }
    if level != z.capacity {
      var j :| 0 <= j < |admitted| && level == Left(z, admitted, j, t);
      assert level + Gain(z, t, now) == Left(z, admitted, j, now);
    }
  }

  lemma LevelCharged(z: Rules, admitted: seq<real>, now: real, level: real)
    requires IsLevel(z, admitted, now, level)
    ensures IsLevel(z, admitted + [now], now, level - 1.0)
  {
    var more := admitted + [now];
    forall j | 0 <= j < |admitted| ensures Left(z, more, j, now) == Left(z, admitted, j, now) - 1.0 {
      assert more[j] == admitted[j];
      assert (|more| - j) as real == (|admitted| - j) as real + 1.0;
    }
    assert Gain(z, now, now) == 0.0;
    assert Left(z, more, |admitted|, now) == z.capacity - 1.0;
    if level == z.capacity {
      assert level - 1.0 == Left(z, more, |admitted|, now);
    } else {
      var j :| 0 <= j < |admitted| && level == Left(z, admitted, j, now);
      assert level - 1.0 == Left(z, more, j, now);
    }
  }

  lemma FitsIsOneToken(z: Rules, admitted: seq<real>, now: real, level: real)
    requires IsLevel(z, admitted, now, level)
    ensures Fits(z, admitted, now) <==> level >= 1.0
  {
    if level >= 1.0 {
      forall j | 0 <= j < |admitted|
        ensures (|admitted| - j + 1) as real <= z.capacity + Gain(z, admitted[j], now)
      {
        assert level <= Left(z, admitted, j, now);
      }
    }
  }

  /** One call at t, then time passing until `now`. */
  lemma LevelAfterCall(z: Rules, admitted: seq<real>, b: Option<Level>, t: real, now: real)
    requires Sensible(z) && t <= now && IsLevel(z, admitted, t, Refilled(z, b, t))
    ensures IsLevel(z, if Fits(z, admitted, t) then admitted + [t] else admitted, now,
                    Refilled(z, Some(Charge(z, b, t)), now))
  {
    var level := Refilled(z, b, t);
    FitsIsOneToken(z, admitted, t, level);
    if level >= 1.0 {
      LevelCharged(z, admitted, t, level);
      LevelLater(z, admitted + [t], t, level - 1.0, now);
    } else {
      LevelLater(z, admitted, t, level, now);
    }
  }

  /** A bucket refilled only when it is looked at stands at the continuous level. */
  lemma {:induction false} LazyIsContinuous(z: Rules, times: seq<real>, now: real)
    requires Sensible(z) && Ordered(times) && (forall i :: 0 <= i < |times| ==> times[i] <= now)
    ensures IsLevel(z, Admitted(z, times), now, Refilled(z, BucketAfter(z, times), now))
  {
    if times != [] {
      var n := |times| - 1;
      LazyIsContinuous(z, times[..n], times[n]);
      LevelAfterCall(z, Admitted(z, times[..n]), BucketAfter(z, times[..n]), times[n], now);
    }
  }

  /** The lazily refilled bucket lets a call through exactly when the reference does. */
  lemma LazyAllowsExactlyWhatFits(z: Rules, times: seq<real>, now: real)
    requires Sensible(z) && Ordered(times) && (forall i :: 0 <= i < |times| ==> times[i] <= now)
    ensures LazyAllows(z, times, now) <==> Fits(z, Admitted(z, times), now)
  {
    LazyIsContinuous(z, times, now);
    FitsIsOneToken(z, Admitted(z, times), now, Refilled(z, BucketAfter(z, times), now));
  }

  // ---- Consequences ---------------------------------------------------------------------------

  lemma {:induction false} AdmittedFit(z: Rules, times: seq<real>, i: nat, m: nat)
    requires i <= m < |Admitted(z, times)|
    ensures (m - i + 1) as real <= z.capacity + Gain(z, Admitted(z, times)[i], Admitted(z, times)[m])
  {
    var n := |times| - 1;
    var before := Admitted(z, times[..n]);
    if m < |before| {
      AdmittedFit(z, times[..n], i, m);
    } else {
      assert Fits(z, before, times[n]) && m == |before|;
    }
  }

  lemma {:induction false} AdmittedAreCalls(z: Rules, times: seq<real>)
    requires Ordered(times)
    ensures Ordered(Admitted(z, times)) && (forall x :: x in Admitted(z, times) ==> x in times)
  {
    if times != [] {
      var n := |times| - 1;
      var before := Admitted(z, times[..n]);
      AdmittedAreCalls(z, times[..n]);
      forall i | 0 <= i < |before| ensures before[i] in times && before[i] <= times[n] {
        assert before[i] in before;
      }
    }
  }

  /** Calls in the closed window [s, t]. */
  function CountIn(calls: seq<real>, s: real, t: real): nat
  {
    if calls == [] then 0
    else CountIn(calls[..|calls| - 1], s, t) +
         (if s <= calls[|calls| - 1] <= t then 1 else 0)
  }

  /** In an ordered sequence the calls of a window stand side by side. */
  lemma {:induction false} WindowIsContiguous(calls: seq<real>, s: real, t: real) returns (i: nat, m: nat)
    requires Ordered(calls) && CountIn(calls, s, t) > 0
    ensures i <= m < |calls| && s <= calls[i] && calls[m] <= t && CountIn(calls, s, t) == m - i + 1
    ensures m == |calls| - 1 || calls[m + 1] > t
  {
    var n := |calls| - 1;
    var before := calls[..n];
    if CountIn(before, s, t) == 0 {
      i, m := n, n;
    } else {
      i, m := WindowIsContiguous(before, s, t);
      if s <= calls[n] <= t {
        assert m + 1 < n ==> calls[m + 1] <= calls[n];
        m := n;
      } else if m == n - 1 {
        assert calls[i] <= calls[n];
      }
    }
  }

  lemma ReferenceWindow(z: Rules, times: seq<real>, s: real, t: real)
    requires Sensible(z) && Ordered(times) && s <= t
    ensures CountIn(Admitted(z, times), s, t) as real <= z.capacity + Gain(z, s, t)
  {
    var admitted := Admitted(z, times);
    AdmittedAreCalls(z, times);
    if CountIn(admitted, s, t) > 0 {
      var i, m := WindowIsContiguous(admitted, s, t);
      AdmittedFit(z, times, i, m);
      GainAdds(z, s, admitted[i], t);
      GainAdds(z, admitted[i], admitted[m], t);
      GainAdds(z, admitted[m], t, t);
    } else {
      GainAdds(z, s, t, t);
    }
  }

  lemma {:induction false} ReferenceForgetsRefusals(z: Rules, before: seq<real>, refused: real, rest: seq<real>)
    requires !Fits(z, Admitted(z, before), refused)
    ensures Admitted(z, before + [refused] + rest) == Admitted(z, before + rest)
    decreases |rest|
  {
    if rest == [] {
      assert (before + [refused] + rest)[..|before|] == before;
      assert before + rest == before;
      assert (before + [refused] + rest)[|before|] == refused;
    } else {
      var n := |rest| - 1;
      ReferenceForgetsRefusals(z, before, refused, rest[..n]);
      var long, short := before + [refused] + rest, before + rest;
      assert long[..|long| - 1] == before + [refused] + rest[..n];
      assert short[..|short| - 1] == before + rest[..n];
    }
  }

  // ---- The bucket ---------------------------------------------------------------------------------

  /** The calls that the bucket itself lets through, refilled and charged call by call. */
  function LazyAdmitted(z: Rules, times: seq<real>): seq<real>
  {
    if times == [] then []
    else
      var n := |times| - 1;
      LazyAdmitted(z, times[..n]) + (if LazyAllows(z, times[..n], times[n]) then [times[n]] else [])
  }

  /** The bucket and the reference let the same calls through. */
  lemma {:induction false} LazyAdmitsWhatFits(z: Rules, times: seq<real>)
    requires Sensible(z) && Ordered(times)
    ensures LazyAdmitted(z, times) == Admitted(z, times)
  {
    if times != [] {
      var n := |times| - 1;
      LazyAdmitsWhatFits(z, times[..n]);
      LazyAllowsExactlyWhatFits(z, times[..n], times[n]);
    }
  }

  /** In every window the bucket lets at most capacity + rate * length calls through. */
  lemma WindowBound(z: Rules, times: seq<real>, s: real, t: real)
    requires Sensible(z) && Ordered(times) && s <= t
    ensures CountIn(LazyAdmitted(z, times), s, t) as real <= z.capacity + Gain(z, s, t)
  {
    LazyAdmitsWhatFits(z, times);
    ReferenceWindow(z, times, s, t);
  }

  /** A refused call refills the bucket and moves its clock, and yet no later call, in
      whatever company, fares differently for it. */
  lemma RefusedCallsLeaveNoTrace(z: Rules, before: seq<real>, refused: real, rest: seq<real>, now: real)
    requires Sensible(z) && Ordered(before + [refused] + rest + [now]) && !LazyAllows(z, before, refused)
    ensures LazyAllows(z, before + [refused] + rest, now) <==> LazyAllows(z, before + rest, now)
  {
    var all := before + [refused] + rest + [now];
    var m := |before|;
    forall i | 0 <= i < m ensures before[i] == all[i] && before[i] <= refused {
      assert all[m] == refused;
    }
    var long, short := before + [refused] + rest, before + rest;
    forall i | 0 <= i < |long| ensures long[i] == all[i] && long[i] <= now {
      assert all[|long|] == now;
    }
    forall i | 0 <= i < |short| ensures short[i] == long[if i < m then i else i + 1] {
    }
    LazyAllowsExactlyWhatFits(z, before, refused);
    LazyAllowsExactlyWhatFits(z, long, now);
    LazyAllowsExactlyWhatFits(z, short, now);
    ReferenceForgetsRefusals(z, before, refused, rest);
  }

  // ---- The limiter --------------------------------------------------------------------------------

  class MemoryBucket {
    var tokens: real
    var lastTime: real

    constructor (tokens: real, lastTime: real)
      ensures this.tokens == tokens && this.lastTime == lastTime
    {
      this.tokens := tokens;
      this.lastTime := lastTime;
    }

    method Refill(now: real, rate: real, capacity: real)
      modifies this
      ensures tokens == Refilled(Rules(rate, capacity), Some(old(Level(tokens, lastTime))), now) && lastTime == now
    {
      var elapsed := now - lastTime;
      tokens := tokens + elapsed * rate;
      if tokens > capacity {
        tokens := capacity;
      }
      lastTime := now;
    }
  }

  datatype Request = Request(key: string, time: real)

  /** Times of the calls made for one key. */
  function TimesOf(calls: seq<Request>, key: string): seq<real>
  {
    if calls == [] then []
    else
      var last := calls[|calls| - 1];
      TimesOf(calls[..|calls| - 1], key) + (if last.key == key then [last.time] else [])
  }

  class MemoryLimiter {
    const rate: real
    const capacity: real
    var buckets: map<string, MemoryBucket>

    ghost function Rule(): Rules { Rules(rate, capacity) }

    ghost predicate Valid()
      reads this
    {
      forall j, k :: j in buckets && k in buckets && j != k ==> buckets[j] != buckets[k]
    }

    ghost function LevelOf(key: string): Option<Level>
      reads this, buckets.Values
    {
      if key in buckets then Some(Level(buckets[key].tokens, buckets[key].lastTime)) else None
    }

    constructor (rate: real, capacity: real)
      ensures Valid() && buckets == map[] && this.rate == rate && this.capacity == capacity
    {
      this.rate := rate;
      this.capacity := capacity;
      buckets := map[];
    }

    method Allow(key: string, now: real) returns (ok: bool)
      requires Valid()
      modifies this, buckets.Values
      ensures Valid() && fresh(buckets.Values - old(buckets.Values))
      ensures ok <==> Refilled(Rule(), old(LevelOf(key)), now) >= 1.0
      ensures LevelOf(key) == Some(Charge(Rule(), old(LevelOf(key)), now))
      ensures forall k :: k != key ==> LevelOf(k) == old(LevelOf(k))
    {
      var b;
      if key in buckets {
        b := buckets[key];
        b.Refill(now, rate, capacity);
      } else {
        b := new MemoryBucket(capacity, now);
        buckets := buckets[key := b];
      }
      ok := b.tokens >= 1.0;
      if ok {
        b.tokens := b.tokens - 1.0;
      }
    }
  }

  lemma OneMoreCall(z: Rules, calls: seq<Request>, i: nat, key: string)
    requires i < |calls|
    ensures TimesOf(calls[..i + 1], key) ==
            if calls[i].key == key then TimesOf(calls[..i], key) + [calls[i].time] else TimesOf(calls[..i], key)
    ensures BucketAfter(z, TimesOf(calls[..i], key) + [calls[i].time]) ==
            Some(Charge(z, BucketAfter(z, TimesOf(calls[..i], key)), calls[i].time))
  {
    assert calls[..i + 1][..i] == calls[..i];
    var times := TimesOf(calls[..i], key);
    assert (times + [calls[i].time])[..|times|] == times;
  }

  /** Every bucket stands where the calls made for its key have left it. */
  ghost predicate Tracks(limiter: MemoryLimiter, calls: seq<Request>)
    reads limiter, limiter.buckets.Values
  {
    forall k :: limiter.LevelOf(k) == BucketAfter(limiter.Rule(), TimesOf(calls, k))
  }

  /** The reference answer to the i-th call. */
  ghost predicate Granted(z: Rules, calls: seq<Request>, i: nat)
    requires i < |calls|
  {
    LazyAllows(z, TimesOf(calls[..i], calls[i].key), calls[i].time)
  }

  method ServeOne(limiter: MemoryLimiter, calls: seq<Request>, i: nat) returns (ok: bool)
    requires i < |calls| && limiter.Valid() && Tracks(limiter, calls[..i])
    modifies limiter, limiter.buckets.Values
    ensures limiter.Valid() && fresh(limiter.buckets.Values - old(limiter.buckets.Values))
    ensures Tracks(limiter, calls[..i + 1])
    ensures ok == Granted(limiter.Rule(), calls, i)
  {
    ok := limiter.Allow(calls[i].key, calls[i].time);
    ghost var z := limiter.Rule();
    forall k ensures limiter.LevelOf(k) == BucketAfter(z, TimesOf(calls[..i + 1], k)) {
      assert old(limiter.LevelOf(k)) == BucketAfter(z, TimesOf(calls[..i], k));
      OneMoreCall(z, calls, i, k);
    }
  }

  predicate Chronological(calls: seq<Request>)
  {
    forall i, j :: 0 <= i <= j < |calls| ==> calls[i].time <= calls[j].time
  }

  /** Times of the calls of one key that were answered with true. */
  function GrantedTimes(calls: seq<Request>, oks: seq<bool>, key: string): seq<real>
    requires |calls| == |oks|
  {
    if calls == [] then []
    else
      var n := |calls| - 1;
      GrantedTimes(calls[..n], oks[..n], key) + (if calls[n].key == key && oks[n] then [calls[n].time] else [])
  }

  ghost predicate AnswersOf(z: Rules, calls: seq<Request>, oks: seq<bool>)
  {
    |oks| == |calls| && forall i :: 0 <= i < |calls| ==> oks[i] == Granted(z, calls, i)
  }

  lemma AnswersBefore(z: Rules, calls: seq<Request>, oks: seq<bool>, n: nat)
    requires AnswersOf(z, calls, oks) && n <= |calls|
    ensures AnswersOf(z, calls[..n], oks[..n])
  {
    forall i | 0 <= i < n ensures Granted(z, calls[..n], i) == Granted(z, calls, i) {
      assert calls[..n][..i] == calls[..i];
    }
  }

  /** What the limiter grants a key is what a bucket of its own would. */
  lemma {:induction false} GrantsAreLazy(z: Rules, calls: seq<Request>, oks: seq<bool>, key: string)
    requires AnswersOf(z, calls, oks)
    ensures GrantedTimes(calls, oks, key) == LazyAdmitted(z, TimesOf(calls, key))
    decreases |calls|
  {
    if calls != [] {
      var n := |calls| - 1;
      AnswersBefore(z, calls, oks, n);
      GrantsAreLazy(z, calls[..n], oks[..n], key);
      assert oks[n] == Granted(z, calls, n);
      var times, granted := TimesOf(calls[..n], key), GrantedTimes(calls[..n], oks[..n], key);
      if calls[n].key == key {
        assert TimesOf(calls, key) == times + [calls[n].time] && (times + [calls[n].time])[..|times|] == times;
      } else {
        assert TimesOf(calls, key) == times + [] == times && granted + [] == granted;
      }
    }
  }

  lemma {:induction false} KeyTimesAreOrdered(calls: seq<Request>, key: string, latest: real)
    requires Chronological(calls) && (calls != [] ==> calls[|calls| - 1].time <= latest)
    ensures Ordered(TimesOf(calls, key))
    ensures forall i :: 0 <= i < |TimesOf(calls, key)| ==> TimesOf(calls, key)[i] <= latest
    decreases |calls|
  {
    if calls != [] {
      var n := |calls| - 1;
      KeyTimesAreOrdered(calls[..n], key, calls[n].time);
    }
  }

  /** In every window the limiter grants a key at most capacity + rate * length calls. */
  lemma LimiterWindowBound(z: Rules, calls: seq<Request>, oks: seq<bool>, key: string, s: real, t: real)
    requires Sensible(z) && Chronological(calls) && AnswersOf(z, calls, oks) && s <= t
    ensures CountIn(GrantedTimes(calls, oks, key), s, t) as real <= z.capacity + Gain(z, s, t)
  {
    KeyTimesAreOrdered(calls, key, if calls == [] then 0.0 else calls[|calls| - 1].time);
    GrantsAreLazy(z, calls, oks, key);
    WindowBound(z, TimesOf(calls, key), s, t);
  }

  /** The calls of one key alone. */
  function Only(calls: seq<Request>, key: string): seq<Request>
  {
    if calls == [] then []
    else
      var n := |calls| - 1;
      Only(calls[..n], key) + (if calls[n].key == key then [calls[n]] else [])
  }

  lemma {:induction false} OnlyKeepsTimes(calls: seq<Request>, key: string)
    ensures TimesOf(Only(calls, key), key) == TimesOf(calls, key)
    decreases |calls|
  {
    if calls != [] {
      var n := |calls| - 1;
      OnlyKeepsTimes(calls[..n], key);
      var own := Only(calls[..n], key);
      assert (own + [calls[n]])[..|own|] == own && own + [] == own;
      assert TimesOf(own, key) + [] == TimesOf(own, key);
    }
  }

  /** Where the i-th call ends up when the calls of all other keys are taken out. */
  lemma {:induction false} OnlyKeepsOrder(calls: seq<Request>, key: string, i: nat)
    requires i < |calls| && calls[i].key == key
    ensures var own, j := Only(calls, key), |Only(calls[..i], key)|;
            j < |own| && own[j] == calls[i] && own[..j] == Only(calls[..i], key)
    decreases |calls|
  {
    var n := |calls| - 1;
    if i < n {
      OnlyKeepsOrder(calls[..n], key, i);
      assert calls[..n][..i] == calls[..i];
    }
  }

  /** Taking out all calls of all other keys, wherever they stand, changes no answer of a key. */
  lemma KeysAreIndependent(z: Rules, calls: seq<Request>, oks: seq<bool>, ownOks: seq<bool>, i: nat)
    requires i < |calls| && AnswersOf(z, calls, oks) && AnswersOf(z, Only(calls, calls[i].key), ownOks)
    ensures var j := |Only(calls[..i], calls[i].key)|; j < |ownOks| && ownOks[j] == oks[i]
  {
    var key := calls[i].key;
    OnlyKeepsOrder(calls, key, i);
    OnlyKeepsTimes(calls[..i], key);
  }

  /** The limiter's answers to any sequence of calls, key by key. */
  method Serve(rate: real, capacity: real, calls: seq<Request>) returns (oks: seq<bool>)
    ensures AnswersOf(Rules(rate, capacity), calls, oks)
    ensures Sensible(Rules(rate, capacity)) && Chronological(calls) ==> forall key, s, t :: s <= t ==>
              CountIn(GrantedTimes(calls, oks, key), s, t) as real <= capacity + Gain(Rules(rate, capacity), s, t)
  {
    var limiter := new MemoryLimiter(rate, capacity);
    oks := [];
    for i := 0 to |calls|
      invariant fresh(limiter) && fresh(limiter.buckets.Values)
      invariant limiter.Valid() && limiter.Rule() == Rules(rate, capacity)
      invariant Tracks(limiter, calls[..i]) && |oks| == i
      invariant forall j :: 0 <= j < i ==> oks[j] == Granted(Rules(rate, capacity), calls, j)
    {
      var ok := ServeOne(limiter, calls, i);
      oks := oks + [ok];
    }
    if Sensible(Rules(rate, capacity)) && Chronological(calls) {
      forall key, s, t | s <= t
        ensures CountIn(GrantedTimes(calls, oks, key), s, t) as real <= capacity + Gain(Rules(rate, capacity), s, t)
      {
        LimiterWindowBound(Rules(rate, capacity), calls, oks, key, s, t);
      }
    }
  }
}
