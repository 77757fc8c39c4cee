/** The GCRA rule (limits/gcra.py) as arithmetic on one number per key, the
    theoretical arrival time, and what it promises over any sequence of calls. */
module Gcra {
  import opened Wrappers

  // t is the emission interval, period / rate; tau is the tolerance, how far ahead of
  // schedule a caller may run.
  datatype Rule = Rule(t: real, burst: nat, tau: real)

  /** n * t by repeated addition, which keeps the proofs linear. */
  function Times(n: int, t: real): real
    decreases if n < 0 then -n else n
  {
    if n == 0 then 0.0 else if n > 0 then Times(n - 1, t) + t else Times(n + 1, t) - t
  }

  predicate Sound(c: Rule) {
    c.t > 0.0 && c.burst >= 1 && c.tau == Times(c.burst - 1, c.t)
  }

  lemma {:induction false} TimesIsProduct(n: int, t: real)
    ensures Times(n, t) == n as real * t
    decreases if n < 0 then -n else n
  {
    if n > 0 {
      TimesIsProduct(n - 1, t);
      OneMore(n - 1, t);
    } else if n < 0 {
      TimesIsProduct(n + 1, t);
      OneMore(n, t);
    }
  }

  lemma {:induction false} OneMore(n: int, t: real)
    ensures (n + 1) as real * t == n as real * t + t
  {
    assert (n + 1) as real == n as real + 1.0;
  }

  lemma {:induction false} TimesStep(n: int, t: real)
    ensures Times(n + 1, t) == Times(n, t) + t
  {
  }

  lemma {:induction false} TimesOrder(a: int, b: int, t: real)
    requires a <= b && t > 0.0
    ensures Times(a, t) <= Times(b, t)
    ensures a < b ==> Times(a, t) + t <= Times(b, t)
    decreases b - a
  {
    if a < b {
      TimesStep(b - 1, t);
      TimesOrder(a, b - 1, t);
    }
  }

  lemma {:induction false} TimesSum(a: int, b: int, t: real)
    ensures Times(a + b, t) == Times(a, t) + Times(b, t)
    decreases if b < 0 then -b else b
  {
    if b > 0 {
      TimesSum(a, b - 1, t);
      TimesStep(a + b - 1, t);
    } else if b < 0 {
      TimesSum(a, b + 1, t);
      TimesStep(a + b, t);
    }
  }

  lemma {:induction false} TauIsNotNegative(c: Rule)
    requires Sound(c)
    ensures c.tau >= 0.0
  {
    TimesOrder(0, c.burst - 1, c.t);
  }

  function Max(x: real, y: real): real {
    if x >= y then x else y
  }

  function Base(tat: Option<real>, now: real): real {
    if tat.Some? then tat.value else now
  }

  predicate Admits(c: Rule, tat: Option<real>, now: real) {
    now >= Base(tat, now) - c.tau
  }

  function NewTat(c: Rule, tat: Option<real>, now: real): real {
    Max(now, Base(tat, now)) + c.t
  }

  /** A denied call leaves the arrival time alone. */
  function After(c: Rule, tat: Option<real>, now: real): Option<real> {
    if Admits(c, tat, now) then Some(NewTat(c, tat, now)) else tat
  }

  function RetryAfter(c: Rule, tat: Option<real>, now: real): real {
    Base(tat, now) - c.tau - now
  }

  function Remaining(c: Rule, now: real, tat: real): int
    requires c.t > 0.0
  {
    var n := ((c.tau + c.t - (tat - now)) / c.t).Floor;
    if n > 0 then n else 0
  }

  // ----------------------------------------------------- runs of calls --

  function TatAfter(c: Rule, start: Option<real>, times: seq<real>): Option<real> {
    if times == [] then start
    else After(c, TatAfter(c, start, times[..|times| - 1]), times[|times| - 1])
  }

  predicate Admitted(c: Rule, start: Option<real>, times: seq<real>, i: nat)
    requires i < |times|
  {
    Admits(c, TatAfter(c, start, times[..i]), times[i])
  }

  /** How many of the calls i up to and including j - 1 are admitted. */
  function Count(c: Rule, start: Option<real>, times: seq<real>, i: nat, j: nat): nat
    requires i <= j <= |times|
  {
    if i == j then 0 else Count(c, start, times, i, j - 1) + if Admitted(c, start, times, j - 1) then 1 else 0
  }

  lemma {:induction false} TatStep(c: Rule, start: Option<real>, times: seq<real>, j: nat)
    requires j < |times|
    ensures TatAfter(c, start, times[..j + 1]) == After(c, TatAfter(c, start, times[..j]), times[j])
  {
    assert times[..j + 1][..j] == times[..j];
  }

  /** After an admitted call i, each further admitted call moves the arrival time
      up by the emission interval or more, whatever the clock does. */
  lemma {:induction false} TatGrows(c: Rule, start: Option<real>, times: seq<real>, i: nat, j: nat)
    requires Sound(c) && i < j <= |times| && Admitted(c, start, times, i)
    ensures var tat := TatAfter(c, start, times[..j]);
      tat.Some? && tat.value >= times[i] + Times(Count(c, start, times, i, j), c.t)
    decreases j
  {
    TatStep(c, start, times, j - 1);
    if j == i + 1 {
      assert Count(c, start, times, i, i) == 0;
      assert Times(1, c.t) == c.t;
    } else {
      TatGrows(c, start, times, i, j - 1);
      TimesStep(Count(c, start, times, i, j - 1), c.t);
    }
  }

  lemma {:induction false} SpacedBy(c: Rule, start: Option<real>, times: seq<real>, i: nat, j: nat)
    requires Sound(c) && i < j < |times|
    requires Admitted(c, start, times, i) && Admitted(c, start, times, j)
    ensures times[j] - times[i] >= Times(Count(c, start, times, i + 1, j + 1) - c.burst + 1, c.t)
  {
    TatGrows(c, start, times, i, j);
    CountFrom(c, start, times, i, j + 1);
    TimesSum(Count(c, start, times, i + 1, j + 1) - c.burst + 1, c.burst - 1, c.t);
  }

  /** Any two admitted calls i before j are at least (n - burst + 1) * t apart, when n
      calls are admitted after i up to j: even if the clock steps back. */
  lemma {:induction false} RateBound(c: Rule, start: Option<real>, times: seq<real>, i: nat, j: nat)
    requires Sound(c) && i < j < |times|
    requires Admitted(c, start, times, i) && Admitted(c, start, times, j)
    ensures var n := Count(c, start, times, i + 1, j + 1);
      var k := n - c.burst + 1;
      times[j] - times[i] >= k as real * c.t
  {
    SpacedBy(c, start, times, i, j);
    var k := Count(c, start, times, i + 1, j + 1) - c.burst + 1;
    TimesIsProduct(k, c.t);
    assert Times(k, c.t) == k as real * c.t;
  }

  lemma {:induction false} CountFrom(c: Rule, start: Option<real>, times: seq<real>, i: nat, j: nat)
    requires i < j <= |times| && Admitted(c, start, times, i)
    ensures Count(c, start, times, i, j) == 1 + Count(c, start, times, i + 1, j)
  {
    if j > i + 1 {
      CountFrom(c, start, times, i, j - 1);
    } else {
      assert Count(c, start, times, i, i) == 0;
    }
  }

  // ------------------------------------------------------------ windows --

  predicate Inside(c: Rule, start: Option<real>, times: seq<real>, from: real, width: real, k: nat)
    requires k < |times|
  {
    Admitted(c, start, times, k) && from <= times[k] <= from + width
  }

  /** How many of the first n calls are admitted at a time inside the window. */
  function InWindow(c: Rule, start: Option<real>, times: seq<real>, from: real, width: real, n: nat): nat
    requires n <= |times|
  {
    if n == 0 then 0
    else InWindow(c, start, times, from, width, n - 1) + if Inside(c, start, times, from, width, n - 1) then 1 else 0
  }

  lemma {:induction false} FirstInside(c: Rule, start: Option<real>, times: seq<real>, from: real, width: real, n: nat)
    returns (i: nat)
    requires n <= |times| && InWindow(c, start, times, from, width, n) > 0
    ensures i < n && Inside(c, start, times, from, width, i)
    ensures InWindow(c, start, times, from, width, i) == 0
  {
    if InWindow(c, start, times, from, width, n - 1) > 0 {
      i := FirstInside(c, start, times, from, width, n - 1);
    } else {
      i := n - 1;
    }
  }

  lemma {:induction false} WindowAtMostCount(
      c: Rule, start: Option<real>, times: seq<real>, from: real, width: real, i: nat, n: nat)
    requires i <= n <= |times| && InWindow(c, start, times, from, width, i) == 0
    ensures InWindow(c, start, times, from, width, n) <= Count(c, start, times, i, n)
  {
    if i < n {
      WindowAtMostCount(c, start, times, from, width, i, n - 1);
    }
  }

  lemma {:induction false} FloorBounds(x: real, t: real)
    requires t > 0.0
    ensures var f := (x / t).Floor; Times(f, t) <= x < Times(f, t) + t
  {
    var f := (x / t).Floor;
    FloorTimes(x, t, f);
    TimesIsProduct(f, t);
    TimesIsProduct(f + 1, t);
    TimesStep(f, t);
  }

  lemma {:induction false} FloorTimes(x: real, t: real, n: int)
    requires t > 0.0 && n == (x / t).Floor
    ensures n as real * t <= x < (n + 1) as real * t
  {
    var q := x / t;
    assert q * t == x;
    assert n as real <= q < (n + 1) as real;
    TimesKeeps(n as real, q, t);
    TimesKeepsStrict(q, (n + 1) as real, t);
  }

  lemma {:induction false} TimesKeeps(a: real, b: real, t: real)
    requires a <= b && t > 0.0
    ensures a * t <= b * t
  {
  }

  lemma {:induction false} TimesKeepsStrict(a: real, b: real, t: real)
    requires a < b && t > 0.0
    ensures a * t < b * t
  {
  }

  lemma {:induction false} AtMostFloor(n: int, width: real, t: real)
    requires t > 0.0 && Times(n, t) <= width
    ensures n <= (width / t).Floor
  {
    var f := (width / t).Floor;
    FloorBounds(width, t);
    if f < n {
      TimesOrder(f, n, t);
    }
  }

  lemma {:induction false} SpanBound(c: Rule, start: Option<real>, times: seq<real>, i: nat, j: nat, width: real)
    requires Sound(c) && i <= j < |times| && width >= 0.0
    requires Admitted(c, start, times, i) && Admitted(c, start, times, j) && times[j] - times[i] <= width
    ensures Count(c, start, times, i, j + 1) <= c.burst + (width / c.t).Floor
  {
    CountFrom(c, start, times, i, j + 1);
    if i < j {
      SpacedBy(c, start, times, i, j);
      AtMostFloor(Count(c, start, times, i + 1, j + 1) - c.burst + 1, width, c.t);
    } else {
      AtMostFloor(0, width, c.t);
    }
  }

  /** At most burst + floor(width / t) calls are admitted in any window of time. */
  lemma {:induction false} WindowBound(
      c: Rule, start: Option<real>, times: seq<real>, from: real, width: real, n: nat)
    requires Sound(c) && width >= 0.0 && n <= |times|
    ensures InWindow(c, start, times, from, width, n) <= c.burst + (width / c.t).Floor
  {
    if n == 0 {
      AtMostFloor(0, width, c.t);
    } else if !Inside(c, start, times, from, width, n - 1) {
      WindowBound(c, start, times, from, width, n - 1);
    } else {
      var i := FirstInside(c, start, times, from, width, n);
      WindowAtMostCount(c, start, times, from, width, i, n);
      SpanBound(c, start, times, i, n - 1, width);
    }
  }

  // -------------------------------------------------- at a single instant --

  function Same(now: real, n: nat): (times: seq<real>)
    ensures |times| == n && forall i :: 0 <= i < n ==> times[i] == now
  {
    seq(n, (i: int) => now)
  }

  lemma {:induction false} SamePrefix(now: real, n: nat, k: nat)
    requires k <= n
    ensures Same(now, n)[..k] == Same(now, k)
  {
  }

  /** fits calls still fit the tolerance at this instant, and no more. */
  ghost predicate Fits(c: Rule, tat: real, now: real, fits: nat) {
    && (fits > 0 ==> tat - now + Times(fits - 1, c.t) <= c.tau)
    && tat - now + Times(fits, c.t) > c.tau
  }

  lemma {:induction false} InstantTat(c: Rule, tat: real, now: real, k: nat, fits: nat)
    requires Sound(c) && tat >= now && k <= fits && Fits(c, tat, now, fits)
    ensures TatAfter(c, Some(tat), Same(now, k)) == Some(tat + Times(k, c.t))
  {
    if k > 0 {
      SamePrefix(now, k, k - 1);
      InstantTat(c, tat, now, k - 1, fits);
      TimesOrder(k - 1, fits - 1, c.t);
      TimesOrder(0, k - 1, c.t);
      assert Same(now, k)[k - 1] == now;
    }
  }

  lemma {:induction false} InstantDenied(c: Rule, tat: real, now: real, k: nat, fits: nat)
    requires Sound(c) && tat >= now && k >= fits && Fits(c, tat, now, fits)
    ensures TatAfter(c, Some(tat), Same(now, k)) == Some(tat + Times(fits, c.t))
  {
    if k == fits {
      InstantTat(c, tat, now, k, fits);
    } else {
      SamePrefix(now, k, k - 1);
      InstantDenied(c, tat, now, k - 1, fits);
      assert Same(now, k)[k - 1] == now;
    }
  }

  /** Of n further calls at the same instant, the first fits are admitted and no more. */
  lemma {:induction false} InstantExact(c: Rule, tat: real, now: real, n: nat, k: nat, fits: nat)
    requires Sound(c) && tat >= now && k < n && Fits(c, tat, now, fits)
    ensures Admitted(c, Some(tat), Same(now, n), k) <==> k < fits
  {
    SamePrefix(now, n, k);
    if k < fits {
      InstantTat(c, tat, now, k, fits);
      TimesOrder(k, fits - 1, c.t);
    } else {
      InstantDenied(c, tat, now, k, fits);
    }
  }

  lemma {:induction false} RemainingFits(c: Rule, now: real, next: real)
    requires Sound(c) && next >= now + c.t
    ensures Fits(c, next, now, Remaining(c, now, next))
  {
    var x := c.tau + c.t - (next - now);
    var f := (x / c.t).Floor;
    FloorBounds(x, c.t);
    TimesStep(f - 1, c.t);
    if f < 0 {
      TimesOrder(f + 1, 0, c.t);
      TimesStep(f, c.t);
    }
  }

  /** remaining, as reported with an admitted call, is the number of further calls
      that would be admitted at that same instant. */
  lemma {:induction false} RemainingIsExact(c: Rule, tat: Option<real>, now: real, n: nat, k: nat)
    requires Sound(c) && Admits(c, tat, now) && k < n
    ensures var next := NewTat(c, tat, now);
      Admitted(c, Some(next), Same(now, n), k) <==> k < Remaining(c, now, next)
  {
    var next := NewTat(c, tat, now);
    RemainingFits(c, now, next);
    InstantExact(c, next, now, n, k, Remaining(c, now, next));
  }

  /** A cold key admits exactly burst of the calls made at one instant. */
  lemma {:induction false} ColdKeyAdmitsBurst(c: Rule, now: real, n: nat, k: nat)
    requires Sound(c) && k < n
    ensures Admitted(c, None, Same(now, n), k) <==> k < c.burst
  {
    SamePrefix(now, n, k);
    ColdIsCurrent(c, now, k);
    TimesStep(c.burst - 1, c.t);
    InstantExact(c, now, now, n, k, c.burst);
  }

  /** An absent arrival time and one equal to the clock act alike. */
  lemma {:induction false} ColdIsCurrent(c: Rule, now: real, k: nat)
    requires Sound(c)
    ensures k > 0 ==> TatAfter(c, None, Same(now, k)) == TatAfter(c, Some(now), Same(now, k))
  {
    TauIsNotNegative(c);
    if k > 1 {
      SamePrefix(now, k, k - 1);
      ColdIsCurrent(c, now, k - 1);
    } else if k == 1 {
      assert Same(now, 1)[..0] == [];
    }
  }

  /** A denied caller is admitted from now + retry_after on and at no earlier time,
      however many denied calls come between. */
  lemma {:induction false} RetryIsExact(c: Rule, tat: Option<real>, now: real, between: seq<real>, later: real)
    requires Sound(c) && !Admits(c, tat, now)
    requires forall i :: 0 <= i < |between| ==> between[i] < now + RetryAfter(c, tat, now)
    ensures TatAfter(c, tat, between) == tat
    ensures forall i :: 0 <= i < |between| ==> !Admitted(c, tat, between, i)
    ensures Admits(c, TatAfter(c, tat, between), later) <==> later >= now + RetryAfter(c, tat, now)
  {
    TauIsNotNegative(c);
    assert tat.Some?;
    if between != [] {
      RetryIsExact(c, tat, now, between[..|between| - 1], later);
      assert !Admits(c, tat, between[|between| - 1]);
      forall i | 0 <= i < |between| ensures !Admitted(c, tat, between, i) {
        if i < |between| - 1 {
          assert between[..|between| - 1][..i] == between[..i];
          assert !Admitted(c, tat, between[..|between| - 1], i);
        }
      }
    }
  }

  // --------------------------------------------------------- key expiry --

  /** How long the stored arrival time is kept, in milliseconds. */
  function KeepMs(c: Rule, now: real, next: real): int {
    (Max(next - now + c.tau, c.t) * 1000.0).Floor + 1000
  }

  /** Once an arrival time has expired the clock has passed it by the tolerance
      and most of a second: the key could not have denied anything. */
  lemma {:induction false} ExpiryIsLate(c: Rule, now: real, next: real, writtenAt: real)
    requires Sound(c) && writtenAt >= now
    ensures writtenAt + KeepMs(c, now, next) as real / 1000.0 > next + c.tau + 0.999
  {
    var ttl := Max(next - now + c.tau, c.t);
    assert (ttl * 1000.0).Floor as real > ttl * 1000.0 - 1.0;
  }

  /** An arrival time the clock has passed acts like an absent one. */
  lemma {:induction false} PastActsAbsent(c: Rule, tat: real, now: real)
    requires Sound(c) && now >= tat
    ensures Admits(c, Some(tat), now) && Admits(c, None, now)
    ensures NewTat(c, Some(tat), now) == NewTat(c, None, now)
  {
    TauIsNotNegative(c);
  }

  /** And no later than a second after nothing it says could matter. */
  lemma {:induction false} ExpiryIsSoon(c: Rule, now: real, next: real)
    ensures var ttl := if next - now + c.tau >= c.t then next - now + c.tau else c.t;
      ttl + 0.999 < KeepMs(c, now, next) as real / 1000.0 <= ttl + 1.0
  {
    var ttl := Max(next - now + c.tau, c.t);
    assert (ttl * 1000.0).Floor as real > ttl * 1000.0 - 1.0;
  }
}
