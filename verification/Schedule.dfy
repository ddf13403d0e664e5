/**
 * The billing decision under a patrol schedule: will an idle server ever be destroyed, and
 * before which cycle boundary?
 */
module Schedule {
  import opened Billing
  import opened Arith
  import opened Durations

  lemma DestroysAtExactly(config: ProviderConfig, minLife: nat, unit: nat, safe: nat, age: int)
    requires HasTerms(config, minLife, unit, safe) && minLife > 0 && unit > 0
    ensures DestroysAt(config, age) <==> age >= minLife && age % unit >= unit - safe
  {
  }

  // ---- A patrol with a fixed period -------------------------------------------------------

  /** From phase p, with a check every `gap` seconds, some check decides to destroy the server. */
  ghost predicate SomeCheckDestroys(config: ProviderConfig, phase: nat, gap: nat) {
    exists i: nat :: DestroysAt(config, phase + i * gap)
  }

  predicate RaisesAt(config: ProviderConfig, age: int) {
    NeedDestroy(0, true, config, age, age).Failure?
  }

  /** The i-th check decides to destroy, and no check before it has ended the patrol. */
  predicate DestroyedAtCheck(config: ProviderConfig, phase: nat, gap: nat, i: nat) {
    DestroysAt(config, phase + i * gap) && forall j: nat | j < i :: !RaisesAt(config, phase + j * gap)
  }

  ghost predicate EventuallyDestroyed(config: ProviderConfig, phase: nat, gap: nat) {
    exists i: nat :: DestroyedAtCheck(config, phase, gap, i)
  }

  lemma ReachMinimumLife(minLife: nat, phase: nat, gap: nat) returns (start: nat)
    requires gap > 0
    ensures forall i | i >= start :: phase + i * gap >= minLife
  {
    start := minLife;
    forall i | i >= start ensures phase + i * gap >= minLife {
      assert i * gap == i + i * (gap - 1);
      assert i * (gap - 1) >= 0;
    }
  }

  /**
   * For each single phase: the server is ever destroyed exactly when its place within the
   * patrol's residue class leaves less than the safe time to the boundary.
   */
  lemma PhaseExactly(config: ProviderConfig, minLife: nat, unit: nat, safe: nat, phase: nat, gap: nat)
    requires HasTerms(config, minLife, unit, safe) && minLife > 0 && unit > 0 && gap > 0
    ensures SomeCheckDestroys(config, phase, gap) <==> phase % Gcd(gap, unit) + safe >= Gcd(gap, unit)
    ensures Showable(minLife, unit, safe) ==>
              (EventuallyDestroyed(config, phase, gap) <==> SomeCheckDestroys(config, phase, gap))
  {
    var d := Gcd(gap, unit);
    GcdDivides(gap, unit);
    if i: nat :| DestroysAt(config, phase + i * gap) {
      DestroysAtExactly(config, minLife, unit, safe, phase + i * gap);
      ResidueCeiling(phase, gap, unit, d, i);
    }
    if phase % d + safe >= d {
      var start := ReachMinimumLife(minLife, phase, gap);
      var i := DestroyedWithinOneRound(config, minLife, unit, safe, phase, gap, start);
    }
    if Showable(minLife, unit, safe) {
      NoCheckRaises(config, minLife, unit, safe, phase, gap);
    }
  }

  lemma NoCheckRaises(config: ProviderConfig, minLife: nat, unit: nat, safe: nat, phase: nat, gap: nat)
    requires HasTerms(config, minLife, unit, safe) && unit > 0 && Showable(minLife, unit, safe)
    ensures SomeCheckDestroys(config, phase, gap) ==> EventuallyDestroyed(config, phase, gap)
  {
    if i: nat :| DestroysAt(config, phase + i * gap) {
      forall j: nat | j < i ensures !RaisesAt(config, phase + j * gap) {
        assert j * gap >= 0;
        NeverRaises(config, minLife, unit, safe, phase + j * gap, phase + j * gap);
      }
      assert DestroyedAtCheck(config, phase, gap, i);
    }
  }

  /** A first check that raises is the last one. */
  lemma CutShort(config: ProviderConfig, phase: nat, gap: nat)
    requires RaisesAt(config, phase)
    ensures !EventuallyDestroyed(config, phase, gap)
  {
    assert RaisesAt(config, phase + 0 * gap);
  }

  /** And then the verdict comes within unit / gcd(gap, unit) consecutive checks after the minimum life. */
  lemma DestroyedWithinOneRound(
    config: ProviderConfig, minLife: nat, unit: nat, safe: nat, phase: nat, gap: nat, start: nat) returns (i: nat)
    requires HasTerms(config, minLife, unit, safe) && minLife > 0 && unit > 0 && gap > 0
    requires phase % Gcd(gap, unit) + safe >= Gcd(gap, unit)
    requires forall j | j >= start :: phase + j * gap >= minLife
    ensures start <= i < start + unit / Gcd(gap, unit)
    ensures DestroysAt(config, phase + i * gap)
  {
    i := ReachCeiling(phase, gap, unit, start);
    DestroysAtExactly(config, minLife, unit, safe, phase + i * gap);
  }

  /**
   * The periodic patrol theorem: a patrol every `gap` seconds destroys an idle server from
   * every phase if and only if gcd(gap, unit) <= safe and no check has to show too long a time.
   */
  lemma PeriodicPatrolExactly(config: ProviderConfig, minLife: nat, unit: nat, safe: nat, gap: nat)
    requires HasTerms(config, minLife, unit, safe) && minLife > 0 && unit > 0 && gap > 0
    ensures (forall phase: nat :: EventuallyDestroyed(config, phase, gap))
       <==> Gcd(gap, unit) <= safe && Showable(minLife, unit, safe)
  {
    var d := Gcd(gap, unit);
    if minLife > MAX_TIMEDELTA {
      CutShort(config, 0, gap);
    } else if unit - safe > MAX_TIMEDELTA {
      var age := RaisesAtCycleStart(config, minLife, unit, safe);
      CutShort(config, age, gap);
    } else if d <= safe {
      forall phase: nat ensures EventuallyDestroyed(config, phase, gap) {
        PhaseExactly(config, minLife, unit, safe, phase, gap);
      }
    } else {
      MultipleMod(0, d);
      PhaseExactly(config, minLife, unit, safe, 0, gap);
    }
  }

  /** When the safe time is below the gcd, a server first seen at a whole multiple of it lives for ever. */
  lemma NeverDestroyedPhase(config: ProviderConfig, minLife: nat, unit: nat, safe: nat, gap: nat, turns: nat, i: nat)
    requires HasTerms(config, minLife, unit, safe) && minLife > 0 && unit > 0 && gap > 0
    requires safe < Gcd(gap, unit)
    ensures !DestroysAt(config, turns * Gcd(gap, unit) + i * gap)
  {
    var d := Gcd(gap, unit);
    MultipleMod(turns, d);
    PhaseExactly(config, minLife, unit, safe, turns * d, gap);
  }

  // ---- A patrol with irregular gaps --------------------------------------------------------

  /**
   * The ages at which an idle server is checked: they never go back and no two consecutive
   * checks are more than `gap` seconds apart.
   */
  ghost predicate PatrolAges(ages: seq<int>, gap: nat) {
    forall i | 0 < i < |ages| :: ages[i - 1] <= ages[i] <= ages[i - 1] + gap
  }

  /** The checks start before the window of cycle k ends and go on until it has begun. */
  ghost predicate CoversWindow(ages: seq<int>, first: int, last: int) {
    |ages| > 0 && ages[0] <= last && ages[|ages| - 1] >= first
  }

  /** One of the checks falls into [first, last] when the gaps do not exceed the length of that interval. */
  lemma {:induction false} SomeCheckInside(ages: seq<int>, gap: nat, first: int, last: int) returns (i: nat)
    requires PatrolAges(ages, gap) && CoversWindow(ages, first, last) && gap <= last - first + 1
    ensures i < |ages| && first <= ages[i] <= last
    decreases |ages|
  {
    var n := |ages| - 1;
    if ages[n] <= last {
      i := n;
    } else {
      i := SomeCheckInside(ages[..n], gap, first, last);
    }
  }

  /**
   * Some check decides to destroy before the provider bills the cycle that starts at `boundary`.
   * `lag` is the time by which the recorded creation lags behind the start of billing.
   */
  ghost predicate DestroyedBefore(config: ProviderConfig, ages: seq<int>, lag: nat, boundary: int) {
    exists i | 0 <= i < |ages| :: DestroysAt(config, ages[i]) && ages[i] + lag < boundary
  }

  /** Every patrol with gaps up to `gap` that is running in time destroys the server before the boundary. */
  ghost predicate MeetsDeadline(config: ProviderConfig, k: nat, unit: nat, safe: nat, lag: nat, gap: nat) {
    forall ages: seq<int> | PatrolAges(ages, gap) && CoversWindow(ages, k * unit - safe, k * unit - 1 - lag) ::
      DestroyedBefore(config, ages, lag, k * unit)
  }

  lemma DestroysInWindow(config: ProviderConfig, minLife: nat, unit: nat, safe: nat, k: nat, age: int)
    requires HasTerms(config, minLife, unit, safe) && minLife > 0 && unit > 0 && k * unit - safe >= minLife
    requires InWindow(k, unit, safe, age)
    ensures DestroysAt(config, age)
  {
    CycleOfAge(unit, safe, age);
  }

  lemma JustBeforeWindow(unit: nat, safe: nat, k: nat)
    requires safe < unit
    ensures (k * unit - safe - 1) % unit == unit - safe - 1
  {
    var r := unit - safe - 1;
    assert k * unit - safe - 1 == r + (k - 1) * unit;
    ModPlusMultiple(r, unit, k - 1);
    DivModUnique(r, unit, 0, r);
  }

  /**
   * A late patrol: one check just before the window and the next one just too late. When the lag
   * is not below the safe time, the window is over before it begins, and a check every second is
   * too late.
   */
  lemma LatePatrol(config: ProviderConfig, minLife: nat, unit: nat, safe: nat, k: nat, lag: nat, gap: nat) returns (ages: seq<int>)
    requires HasTerms(config, minLife, unit, safe) && minLife > 0 && unit > 0
    requires k * unit - safe >= minLife && lag < unit && safe < unit && gap > 0 && gap > safe - lag
    ensures PatrolAges(ages, gap) && CoversWindow(ages, k * unit - safe, k * unit - 1 - lag)
    ensures !DestroyedBefore(config, ages, lag, k * unit)
  {
    if lag < safe {
      var before, after := k * unit - safe - 1, k * unit - lag;
      ages := [before, after];
      JustBeforeWindow(unit, safe, k);
      DestroysAtExactly(config, minLife, unit, safe, before);
    } else {
      var first := k * unit - 1 - lag;
      ages := seq(lag - safe + 2, i => first + i);
      JustBeforeWindow(unit, lag, k);
      DestroysAtExactly(config, minLife, unit, safe, first);
    }
  }

  /**
   * The deadline theorem, for every cycle k whose window begins after the minimum life, and so
   * for the first of them: for a safe time and a lag below one unit, some check of every patrol
   * decides to destroy before the provider's next cycle if and only if consecutive checks are at
   * most safe - lag seconds apart. So no patrol will do when the lag reaches the safe time.
   */
  lemma DeadlineExactly(config: ProviderConfig, minLife: nat, unit: nat, safe: nat, k: nat, lag: nat, gap: nat)
    requires HasTerms(config, minLife, unit, safe) && minLife > 0 && unit > 0
    requires k * unit - safe >= minLife && lag < unit && safe < unit && gap > 0
    ensures MeetsDeadline(config, k, unit, safe, lag, gap) <==> gap <= safe - lag
  {
    if gap <= safe - lag {
      forall ages: seq<int> | PatrolAges(ages, gap) && CoversWindow(ages, k * unit - safe, k * unit - 1 - lag)
        ensures DestroyedBefore(config, ages, lag, k * unit)
      {
        DeadlineMet(config, minLife, unit, safe, k, lag, gap, ages);
      }
    } else {
      var ages := LatePatrol(config, minLife, unit, safe, k, lag, gap);
    }
  }

  /** The sufficient half, which needs no upper limit on the safe time. */
  lemma DeadlineMet(
    config: ProviderConfig, minLife: nat, unit: nat, safe: nat, k: nat, lag: nat, gap: nat, ages: seq<int>)
    requires HasTerms(config, minLife, unit, safe) && minLife > 0 && unit > 0
    requires k * unit - safe >= minLife && gap <= safe - lag
    requires PatrolAges(ages, gap) && CoversWindow(ages, k * unit - safe, k * unit - 1 - lag)
    ensures DestroyedBefore(config, ages, lag, k * unit)
  {
    var i := SomeCheckInside(ages, gap, k * unit - safe, k * unit - 1 - lag);
    DestroysInWindow(config, minLife, unit, safe, k, ages[i]);
  }
}
