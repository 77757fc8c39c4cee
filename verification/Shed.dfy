/** Tiered load shedding (limits/shed.py): a hysteresis counter moved by pressure
    samples. Pressure is a real number. */
module Shed {
  import opened Sums

  datatype Tier = TestMode | Get | Post | Critical

  function TierValue(t: Tier): int {
    match t
    case TestMode => 0
    case Get => 1
    case Post => 2
    case Critical => 3
  }

  datatype Thresholds = Thresholds(testMode: real, get: real, post: real, critical: real) {
    function Of(t: Tier): real {
      match t
      case TestMode => testMode
      case Get => get
      case Post => post
      case Critical => critical
    }
  }

  const DEFAULT_THRESHOLDS := Thresholds(0.60, 0.75, 0.90, 0.98)

  datatype Settings = Settings(thresholds: Thresholds, escalateAfter: int, recoverAfter: int)

  const DEFAULT_SETTINGS := Settings(DEFAULT_THRESHOLDS, 2, 5)

  /** The tiers whose threshold the pressure reaches. */
  function Target(c: Settings, pressure: real): (n: int)
    ensures 0 <= n <= 4
  {
    (if pressure >= c.thresholds.testMode then 1 else 0)
    + (if pressure >= c.thresholds.get then 1 else 0)
    + (if pressure >= c.thresholds.post then 1 else 0)
    + (if pressure >= c.thresholds.critical then 1 else 0)
  }

  datatype Gauge = Gauge(level: int, hot: int, calm: int)

  const AT_REST := Gauge(0, 0, 0)

  /** One sample: at most one tier up or down, and only on a full streak. */
  function Observed(c: Settings, g: Gauge, pressure: real): Gauge {
    var target := Target(c, pressure);
    if target > g.level then
      if g.hot + 1 >= c.escalateAfter then Gauge(g.level + 1, 0, 0) else Gauge(g.level, g.hot + 1, 0)
    else if target < g.level then
      if g.calm + 1 >= c.recoverAfter then Gauge(g.level - 1, 0, 0) else Gauge(g.level, 0, g.calm + 1)
    else Gauge(g.level, 0, 0)
  }

  function After(c: Settings, g: Gauge, trace: seq<real>): Gauge {
    if trace == [] then g else Observed(c, After(c, g, trace[..|trace| - 1]), trace[|trace| - 1])
  }

  datatype Counter = WouldShed(tier: Tier) | DarkLaunchAllowed(tier: Tier) | ShedCount(tier: Tier) | Allowed(tier: Tier)

  type Counts = map<Counter, int>

  function Bumped(counts: Counts, k: Counter): Counts {
    counts[k := (if k in counts then counts[k] else 0) + 1]
  }

  datatype Reason = KillSwitch | ShedByTier | NoReason

  datatype Decision = Decision(shed: bool, tier: Tier, level: int, pressure: real, enforced: bool, reason: Reason)

  class LoadShedder {
    const settings: Settings
    const enforce: bool
    var level: int
    var pressure: real
    var enabled: bool
    var hot: int
    var calm: int
    var counts: Counts

    function State(): Gauge
      reads this
    {
      Gauge(level, hot, calm)
    }

    constructor (settings: Settings, enforce: bool)
      ensures this.settings == settings && this.enforce == enforce
      ensures State() == AT_REST && enabled && pressure == 0.0 && counts == map[]
    {
      this.settings, this.enforce := settings, enforce;
      level, pressure, enabled, hot, calm, counts := 0, 0.0, true, 0, 0, map[];
    }

    /** The kill switch. */
    method Disable()
      modifies this`enabled, this`level, this`hot, this`calm
      ensures !enabled && State() == AT_REST
    {
      enabled := false;
      level := 0;
      hot, calm := 0, 0;
    }

    method Enable()
      modifies this`enabled
      ensures enabled
    {
      enabled := true;
    }

    method TargetLevel(p: real) returns (n: int)
      ensures n == Target(settings, p)
    {
      n := 0;
      var tiers := [TestMode, Get, Post, Critical];
      for i := 0 to 4
        invariant n == (if i > 0 && p >= settings.thresholds.testMode then 1 else 0)
          + (if i > 1 && p >= settings.thresholds.get then 1 else 0)
          + (if i > 2 && p >= settings.thresholds.post then 1 else 0)
          + (if i > 3 && p >= settings.thresholds.critical then 1 else 0)
      {
        if p >= settings.thresholds.Of(tiers[i]) {
          n := n + 1;
        }
      }
    }

    method Observe(p: real) returns (now: int)
      modifies this`level, this`pressure, this`hot, this`calm
      ensures pressure == p && now == level
      ensures State() == if enabled then Observed(settings, old(State()), p) else old(State())
    {
      pressure := p;
      if !enabled {
        return level;
      }
      var target := TargetLevel(p);
      if target > level {
        hot := hot + 1;
        calm := 0;
        if hot >= settings.escalateAfter {
          level := level + 1;
          hot := 0;
        }
      } else if target < level {
        calm := calm + 1;
        hot := 0;
        if calm >= settings.recoverAfter {
          level := level - 1;
          calm := 0;
        }
      } else {
        hot, calm := 0, 0;
      }
      now := level;
    }

    /** The decision, and its count; a dark launch counts what it lets through. */
    method ShouldShed(tier: Tier) returns (d: Decision)
      modifies this`counts
      ensures d.shed <==> enabled && enforce && TierValue(tier) < level
      ensures !enabled ==> counts == old(counts) && d == Decision(false, tier, level, pressure, false, KillSwitch)
      ensures enabled ==> d == Decision(d.shed, tier, level, pressure, enforce, if TierValue(tier) < level then ShedByTier else NoReason)
      ensures enabled && TierValue(tier) < level ==>
        counts == Bumped(Bumped(old(counts), WouldShed(tier)), if enforce then ShedCount(tier) else DarkLaunchAllowed(tier))
      ensures enabled && TierValue(tier) >= level ==> counts == Bumped(old(counts), Allowed(tier))
    {
      if !enabled {
        return Decision(false, tier, level, pressure, false, KillSwitch);
      }
      var wouldShed := TierValue(tier) < level;
      if wouldShed {
        counts := Bumped(counts, WouldShed(tier));
        if !enforce {
          counts := Bumped(counts, DarkLaunchAllowed(tier));
        } else {
          counts := Bumped(counts, ShedCount(tier));
        }
      } else {
        counts := Bumped(counts, Allowed(tier));
      }
      d := Decision(wouldShed && enforce, tier, level, pressure, enforce, if wouldShed then ShedByTier else NoReason);
    }
  }

  // ---------------------------------------------------------- monotonicity --

  /** What couples a run under more pressure to one under less. */
  predicate Coupled(high: Gauge, low: Gauge) {
    high.level >= low.level && (high.level == low.level ==> high.hot >= low.hot && high.calm <= low.calm)
  }

  predicate Counting(g: Gauge) {
    g.hot >= 0 && g.calm >= 0
  }

  lemma {:induction false} TargetMonotone(c: Settings, p: real, q: real)
    requires p >= q
    ensures Target(c, p) >= Target(c, q)
  {
  }

  /** Two runs with the same settings, one under pointwise at least the pressure
      of the other, stay ordered: it sheds every tier the other sheds, always. */
  lemma {:induction false} MorePressureShedsMore(c: Settings, high: Gauge, low: Gauge, ps: seq<real>, qs: seq<real>)
    requires |ps| == |qs| && forall i :: 0 <= i < |ps| ==> ps[i] >= qs[i]
    requires Coupled(high, low) && Counting(high) && Counting(low)
    ensures Coupled(After(c, high, ps), After(c, low, qs))
    ensures Counting(After(c, high, ps)) && Counting(After(c, low, qs))
    ensures forall t: Tier :: TierValue(t) < After(c, low, qs).level ==> TierValue(t) < After(c, high, ps).level
  {
    if ps != [] {
      var n := |ps| - 1;
      MorePressureShedsMore(c, high, low, ps[..n], qs[..n]);
      TargetMonotone(c, ps[n], qs[n]);
    }
  }

  // ------------------------------------------------------------- hysteresis --

  function Escalations(c: Settings, g: Gauge, trace: seq<real>): nat {
    if trace == [] then 0
    else
      var before := trace[..|trace| - 1];
      Escalations(c, g, before) + if After(c, g, trace).level > After(c, g, before).level then 1 else 0
  }

  function Relaxations(c: Settings, g: Gauge, trace: seq<real>): nat {
    if trace == [] then 0
    else
      var before := trace[..|trace| - 1];
      Relaxations(c, g, before) + if After(c, g, trace).level < After(c, g, before).level then 1 else 0
  }

  /** What the level changes of a run cost in samples. */
  function Cost(c: Settings, g: Gauge, trace: seq<real>): int {
    if trace == [] then 0
    else
      var before := trace[..|trace| - 1];
      var was, now := After(c, g, before).level, After(c, g, trace).level;
      Cost(c, g, before) + if now > was then c.escalateAfter else if now < was then c.recoverAfter else 0
  }

  lemma {:induction false} CostIs(c: Settings, g: Gauge, trace: seq<real>)
    ensures Cost(c, g, trace) == c.escalateAfter * Escalations(c, g, trace) + c.recoverAfter * Relaxations(c, g, trace)
  {
    if trace != [] {
      var before := trace[..|trace| - 1];
      CostIs(c, g, before);
      TimesNext(c.escalateAfter, Escalations(c, g, before));
      TimesNext(c.recoverAfter, Relaxations(c, g, before));
    }
  }

  lemma {:induction false} TimesNext(x: int, n: int)
    ensures x * (n + 1) == x * n + x
  {
  }

  lemma {:induction false} CostBound(c: Settings, g: Gauge, trace: seq<real>)
    requires Counting(g)
    ensures var last := After(c, g, trace);
      && Counting(last)
      && last.level == g.level + Escalations(c, g, trace) - Relaxations(c, g, trace)
      && Cost(c, g, trace) + last.hot + last.calm <= |trace| + g.hot + g.calm
  {
    if trace != [] {
      CostBound(c, g, trace[..|trace| - 1]);
    }
  }

  /** The flap bound: every escalation is paid for by escalateAfter samples and
      every relaxation by recoverAfter, and no sample pays twice. */
  lemma {:induction false} FlapBound(c: Settings, g: Gauge, trace: seq<real>)
    requires Counting(g)
    ensures var last := After(c, g, trace);
      && last.level == g.level + Escalations(c, g, trace) - Relaxations(c, g, trace)
      && c.escalateAfter * Escalations(c, g, trace) + c.recoverAfter * Relaxations(c, g, trace) + last.hot + last.calm
           <= |trace| + g.hot + g.calm
  {
    CostIs(c, g, trace);
    CostBound(c, g, trace);
  }

  lemma {:induction false} LevelInRange(c: Settings, g: Gauge, trace: seq<real>)
    requires 0 <= g.level <= 4
    ensures 0 <= After(c, g, trace).level <= 4
  {
    if trace != [] {
      LevelInRange(c, g, trace[..|trace| - 1]);
    }
  }

  /** The counters are streaks: that many samples just past, without a break, on
      one side of a level that stood still meanwhile. */
  ghost predicate Streak(c: Settings, g: Gauge, trace: seq<real>, from: int, level: int, hot: bool) {
    && 0 <= from <= |trace|
    && forall k :: from <= k < |trace| ==>
         && After(c, g, trace[..k]).level == level
         && if hot then Target(c, trace[k]) > level else Target(c, trace[k]) < level
  }

  /** A streak of the run so far is a streak of the longer run, if it is empty or
      the new sample is on its side of the standing level. */
  lemma {:induction false} StreakExtends(c: Settings, g: Gauge, trace: seq<real>, from: int, level: int, hot: bool)
    requires trace != [] && Streak(c, g, trace[..|trace| - 1], from, level, hot)
    requires After(c, g, trace[..|trace| - 1]).level == level
    requires if hot then Target(c, trace[|trace| - 1]) > level else Target(c, trace[|trace| - 1]) < level
    ensures Streak(c, g, trace, from, level, hot)
  {
    var before := trace[..|trace| - 1];
    forall k | from <= k < |trace| ensures
      && After(c, g, trace[..k]).level == level
      && if hot then Target(c, trace[k]) > level else Target(c, trace[k]) < level
    {
      if k < |before| {
        assert trace[..k] == before[..k] && trace[k] == before[k];
      }
    }
  }

  lemma {:induction false} CountersAreStreaks(c: Settings, g: Gauge, trace: seq<real>)
    requires g.hot == 0 && g.calm == 0
    ensures var last := After(c, g, trace);
      && Counting(last)
      && Streak(c, g, trace, |trace| - last.hot, last.level, true)
      && Streak(c, g, trace, |trace| - last.calm, last.level, false)
  {
    if trace != [] {
      var n := |trace| - 1;
      var mid, last := After(c, g, trace[..n]), After(c, g, trace);
      CountersAreStreaks(c, g, trace[..n]);
      if last.hot > 0 {
        StreakExtends(c, g, trace, n - mid.hot, mid.level, true);
      }
      if last.calm > 0 {
        StreakExtends(c, g, trace, n - mid.calm, mid.level, false);
      }
    }
  }

  /** A level change ends a full streak on the same side of the old level. */
  lemma {:induction false} ChangeIsEarned(c: Settings, g: Gauge, trace: seq<real>)
    requires g.hot == 0 && g.calm == 0 && trace != []
    ensures var was, now := After(c, g, trace[..|trace| - 1]).level, After(c, g, trace).level;
      && now - 1 <= was <= now + 1
      && (now > was ==> exists from :: from <= |trace| - c.escalateAfter && Streak(c, g, trace, from, was, true))
      && (now < was ==> exists from :: from <= |trace| - c.recoverAfter && Streak(c, g, trace, from, was, false))
  {
    var n := |trace| - 1;
    var mid := After(c, g, trace[..n]);
    CountersAreStreaks(c, g, trace[..n]);
    if After(c, g, trace).level > mid.level {
      StreakExtends(c, g, trace, n - mid.hot, mid.level, true);
    } else if After(c, g, trace).level < mid.level {
      StreakExtends(c, g, trace, n - mid.calm, mid.level, false);
    }
  }

  // ------------------------------------------------------ constant pressure --

  function Held(p: real, n: nat): seq<real> {
    seq(n, _ => p)
  }

  lemma {:induction false} HeldSplit(c: Settings, g: Gauge, p: real, m: nat, n: nat)
    ensures After(c, g, Held(p, m + n)) == After(c, After(c, g, Held(p, m)), Held(p, n))
    decreases n
  {
    if n == 0 {
      assert Held(p, m + 0) == Held(p, m);
    } else {
      HeldSplit(c, g, p, m, n - 1);
      assert Held(p, m + n)[..m + n - 1] == Held(p, m + n - 1);
      assert Held(p, n)[..n - 1] == Held(p, n - 1);
    }
  }

  lemma {:induction false} ClimbOne(c: Settings, g: Gauge, p: real, n: nat)
    requires Target(c, p) > g.level && 0 <= g.hot < c.escalateAfter && 0 < n <= c.escalateAfter - g.hot
    ensures After(c, g, Held(p, n)) ==
      if n == c.escalateAfter - g.hot then Gauge(g.level + 1, 0, 0) else Gauge(g.level, g.hot + n, 0)
  {
    assert Held(p, n)[..n - 1] == Held(p, n - 1);
    if n > 1 {
      ClimbOne(c, g, p, n - 1);
    }
  }

  lemma {:induction false} SinkOne(c: Settings, g: Gauge, p: real, n: nat)
    requires Target(c, p) < g.level && 0 <= g.calm < c.recoverAfter && 0 < n <= c.recoverAfter - g.calm
    ensures After(c, g, Held(p, n)) ==
      if n == c.recoverAfter - g.calm then Gauge(g.level - 1, 0, 0) else Gauge(g.level, 0, g.calm + n)
  {
    assert Held(p, n)[..n - 1] == Held(p, n - 1);
    if n > 1 {
      SinkOne(c, g, p, n - 1);
    }
  }

  lemma {:induction false} Stays(c: Settings, g: Gauge, p: real, n: nat)
    requires Target(c, p) == g.level
    ensures After(c, g, Held(p, n)).level == g.level
  {
    if n > 0 {
      assert Held(p, n)[..n - 1] == Held(p, n - 1);
      Stays(c, g, p, n - 1);
    }
  }

  /** The samples it takes to climb to, or sink to, the target. */
  function Climb(c: Settings, g: Gauge, target: int): int {
    (target - g.level) * c.escalateAfter - g.hot
  }

  function Sink(c: Settings, g: Gauge, target: int): int {
    (g.level - target) * c.recoverAfter - g.calm
  }

  lemma {:induction false} ClimbStep(c: Settings, g: Gauge, target: int)
    requires target > g.level && c.escalateAfter > 0
    ensures Climb(c, g, target) == c.escalateAfter - g.hot + Climb(c, Gauge(g.level + 1, 0, 0), target)
    ensures Climb(c, Gauge(g.level + 1, 0, 0), target) >= 0
    ensures target == g.level + 1 ==> Climb(c, Gauge(g.level + 1, 0, 0), target) == 0
  {
    TimesNext(c.escalateAfter, target - g.level - 1);
  }

  lemma {:induction false} SinkStep(c: Settings, g: Gauge, target: int)
    requires target < g.level && c.recoverAfter > 0
    ensures Sink(c, g, target) == c.recoverAfter - g.calm + Sink(c, Gauge(g.level - 1, 0, 0), target)
    ensures Sink(c, Gauge(g.level - 1, 0, 0), target) >= 0
    ensures target == g.level - 1 ==> Sink(c, Gauge(g.level - 1, 0, 0), target) == 0
  {
    TimesNext(c.recoverAfter, g.level - target - 1);
  }

  /** Constant pressure above the level: the target is reached after exactly
      (target - level) * escalateAfter samples less those already counted, not one
      sooner, and then kept. */
  lemma {:induction false} ClimbsOnTime(c: Settings, g: Gauge, p: real, n: nat)
    requires Target(c, p) > g.level && 0 <= g.hot < c.escalateAfter
    ensures After(c, g, Held(p, n)).level <= Target(c, p)
    ensures After(c, g, Held(p, n)).level == Target(c, p) <==> n >= Climb(c, g, Target(c, p))
    decreases Target(c, p) - g.level
  {
    var target, first := Target(c, p), c.escalateAfter - g.hot;
    ClimbStep(c, g, target);
    if n >= first {
      ClimbOne(c, g, p, first);
      var up := Gauge(g.level + 1, 0, 0);
      HeldSplit(c, g, p, first, n - first);
      if up.level == target {
        Stays(c, up, p, n - first);
      } else {
        ClimbsOnTime(c, up, p, n - first);
      }
    } else if n > 0 {
      ClimbOne(c, g, p, n);
    }
  }

  /** And below it, with recoverAfter. */
  lemma {:induction false} SinksOnTime(c: Settings, g: Gauge, p: real, n: nat)
    requires Target(c, p) < g.level && 0 <= g.calm < c.recoverAfter
    ensures After(c, g, Held(p, n)).level >= Target(c, p)
    ensures After(c, g, Held(p, n)).level == Target(c, p) <==> n >= Sink(c, g, Target(c, p))
    decreases g.level - Target(c, p)
  {
    var target, first := Target(c, p), c.recoverAfter - g.calm;
    SinkStep(c, g, target);
    if n >= first {
      SinkOne(c, g, p, first);
      var down := Gauge(g.level - 1, 0, 0);
      HeldSplit(c, g, p, first, n - first);
      if down.level == target {
        Stays(c, down, p, n - first);
      } else {
        SinksOnTime(c, down, p, n - first);
      }
    } else if n > 0 {
      SinkOne(c, g, p, n);
    }
  }

  /** With thresholds in order the target is above a tier exactly when the pressure
      reaches that tier's threshold: the lowest tiers go first. */
  lemma {:induction false} TargetIsReached(c: Settings, pressure: real, tier: Tier)
    requires c.thresholds.testMode <= c.thresholds.get <= c.thresholds.post <= c.thresholds.critical
    ensures Target(c, pressure) > TierValue(tier) <==> pressure >= c.thresholds.Of(tier)
    ensures tier == TestMode ==> c.thresholds.Of(tier) == c.thresholds.testMode
    ensures tier == Get ==> c.thresholds.Of(tier) == c.thresholds.get
    ensures tier == Post ==> c.thresholds.Of(tier) == c.thresholds.post
    ensures tier == Critical ==> c.thresholds.Of(tier) == c.thresholds.critical
  {
  }

  /** In whatever order they stand, it is the number of tiers reached. */
  lemma {:induction false} TargetCounts(c: Settings, pressure: real)
    ensures Target(c, pressure) ==
      Sum([TestMode, Get, Post, Critical], (tier: Tier) => if pressure >= c.thresholds.Of(tier) then 1 else 0)
  {
    var reached := (tier: Tier) => if pressure >= c.thresholds.Of(tier) then 1 else 0;
    SumLast([], TestMode, reached);
    SumLast([TestMode], Get, reached);
    SumLast([TestMode, Get], Post, reached);
    SumLast([TestMode, Get, Post], Critical, reached);
    assert [] + [TestMode] == [TestMode] && [TestMode] + [Get] == [TestMode, Get];
    assert [TestMode, Get] + [Post] == [TestMode, Get, Post];
    assert [TestMode, Get, Post] + [Critical] == [TestMode, Get, Post, Critical];
  }

  /** The tiers in the order they are shed, critical traffic last. */
  lemma {:induction false} CriticalIsLast()
    ensures TierValue(TestMode) < TierValue(Get) < TierValue(Post) < TierValue(Critical)
    ensures TierValue(TestMode) == 0 && TierValue(Critical) == 3
    ensures Target(DEFAULT_SETTINGS, 0.59) == 0 && Target(DEFAULT_SETTINGS, 0.60) == 1
    ensures Target(DEFAULT_SETTINGS, 0.75) == 2 && Target(DEFAULT_SETTINGS, 0.90) == 3 && Target(DEFAULT_SETTINGS, 0.98) == 4
  {
  }
}
