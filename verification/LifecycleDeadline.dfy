/**
 * The deadline over whole runs: when the patrol's rounds follow each other quickly enough,
 * `destroy_server` is called for an idle server before the provider bills its next cycle.
 */
module LifecycleDeadline {
  import opened Wrappers
  import opened Billing
  import opened ServerFile
  import opened Sessions
  import opened Killer
  import opened Lifecycle
  import opened LifecycleFile
  import opened LifecycleSessions
  import opened LifecycleSafety

  // ---- A round reaches every server it has read ------------------------------------------------------

  function Todo(pc: Pc): seq<Meta> {
    match pc
    case Scanning(todo) => todo
    case Judging(_, todo) => todo
    case Weighing(_, todo) => todo
    case Doomed(_, todo) => todo
    case Waiting(_, todo) => todo
    case Locked(_, todo) => todo
    case Loaded(_, todo, _) => todo
    case Writing(_, todo, _, _) => todo
    case Written(_, todo) => todo
    case _ => []
  }

  /** The patrol still has to weigh the age of the server. */
  predicate Pending(pc: Pc, m: Meta) {
    m in Todo(pc) || ((pc.Judging? || pc.Weighing?) && pc.meta == m)
  }

  predicate PatrolAt(s: State, m: Meta) {
    Patrol in s.pcs && Pending(s.pcs[Patrol], m)
  }

  /** The thread reads the age of the server. */
  predicate Weighs(s: State, l: Label, t: ThreadId, m: Meta) {
    l.thread == t && l.action.Weigh? && t in s.pcs && s.pcs[t].Weighing? && s.pcs[t].meta == m
  }

  predicate IsIdle(s: State, m: Meta) {
    SessionsOf(s.table, m.serverName) == []
  }

  predicate PatrolCrashed(s: State) {
    Patrol in s.pcs && s.pcs[Patrol].Crashed?
  }

  predicate Writes(action: Action) {
    action.Acquire? || action.Reload? || action.Truncate? || action.Write? || action.Release?
  }

  lemma TodoAfterWrite(c: Setting, s: State, action: Action)
    requires Writes(action) && Enabled(s, Label(Patrol, action)) && PatrolStaysOut(s)
    ensures var s' := Step(c, s, Label(Patrol, action));
            PatrolCrashed(s') || (Patrol in s'.pcs && Todo(s'.pcs[Patrol]) == Todo(s.pcs[Patrol]))
  {
  }

  lemma PendingAfterTake(c: Setting, s: State, m: Meta)
    requires Enabled(s, Label(Patrol, TakeNext)) && PatrolAt(s, m)
    ensures PatrolAt(Step(c, s, Label(Patrol, TakeNext)), m)
  {
    var todo := s.pcs[Patrol].todo;
    assert todo == [todo[0]] + todo[1..];
  }

  lemma PendingAfterLook(c: Setting, s: State, m: Meta)
    requires Enabled(s, Label(Patrol, Look)) && PatrolAt(s, m) && IsIdle(s, m) && m.providerName in c.providers
    ensures var s' := Step(c, s, Label(Patrol, Look)); PatrolAt(s', m) || PatrolCrashed(s')
  {
  }

  lemma PendingAfterWeigh(c: Setting, s: State, l: Label, m: Meta)
    requires Enabled(s, l) && l.thread == Patrol && l.action.Weigh? && PatrolAt(s, m) && !Weighs(s, l, Patrol, m)
    ensures PatrolAt(Step(c, s, l), m) || PatrolCrashed(Step(c, s, l))
  {
  }

  lemma PendingAfterCall(c: Setting, s: State, l: Label, m: Meta)
    requires Enabled(s, l) && l.thread == Patrol && l.action.Call? && PatrolAt(s, m)
    ensures PatrolAt(Step(c, s, l), m) || PatrolCrashed(Step(c, s, l))
  {
  }

  /** While the server is idle, the patrol either weighs it, still has it to weigh, or has crashed. */
  lemma PendingStep(c: Setting, s: State, l: Label, m: Meta)
    requires Enabled(s, l) && PatrolStaysOut(s)
    requires PatrolAt(s, m) && IsIdle(s, m) && m.providerName in c.providers && !Weighs(s, l, Patrol, m)
    ensures PatrolAt(Step(c, s, l), m) || PatrolCrashed(Step(c, s, l))
  {
    if l.thread != Patrol || l.action.Tick? {
      StepIsLocal(c, s, l);
    } else if Writes(l.action) {
      TodoAfterWrite(c, s, l.action);
    } else {
      match l.action
      case TakeNext => PendingAfterTake(c, s, m);
      case Look => PendingAfterLook(c, s, m);
      case Weigh(_, _) => PendingAfterWeigh(c, s, l, m);
      case Call(_) => PendingAfterCall(c, s, l, m);
      case _ =>
    }
  }

  lemma {:induction false} CrashedForEver(c: Setting, states: seq<State>, labels: seq<Label>, i: nat, j: nat)
    requires Run(c, states, labels) && i <= j < |states| && PatrolCrashed(states[i])
    ensures PatrolCrashed(states[j])
    decreases j
  {
    if i < j {
      CrashedForEver(c, states, labels, i, j - 1);
      assert StepOk(c, states, labels, j - 1);
      StepIsLocal(c, states[j - 1], labels[j - 1]);
    }
  }

  predicate PatrolSleeps(s: State) {
    Patrol in s.pcs && s.pcs[Patrol].Sleeping?
  }

  lemma {:induction false} WeighedBeforeSleep(c: Setting, states: seq<State>, labels: seq<Label>, m: Meta, i: nat, last: nat)
    returns (w: nat)
    requires Run(c, states, labels) && i <= last < |states| && m.providerName in c.providers
    requires PatrolAt(states[i], m) && PatrolSleeps(states[last])
    requires forall x | i <= x <= last :: IsIdle(states[x], m)
    ensures i <= w < last && Weighs(states[w], labels[w], Patrol, m)
    decreases last - i
  {
    assert i < last;
    assert StepOk(c, states, labels, i);
    if Weighs(states[i], labels[i], Patrol, m) {
      w := i;
    } else {
      SessionInvHolds(c, states, labels, i);
      PendingStep(c, states[i], labels[i], m);
      if PatrolCrashed(states[i + 1]) {
        CrashedForEver(c, states, labels, i + 1, last);
      }
      w := WeighedBeforeSleep(c, states, labels, m, i + 1, last);
    }
  }

  /**
   * A round of the patrol, from its reading of the file to its next sleep. The server is in the
   * file, which is not being rewritten at that moment, and nobody enters it during the round.
   */
  ghost predicate Round(c: Setting, states: seq<State>, labels: seq<Label>, m: Meta, first: nat, last: nat) {
    && first < last <= |labels| < |states|
    && labels[first] == Label(Patrol, Snapshot)
    && !BeingWritten(states[first]) && m in Recorded(c, states[first])
    && PatrolSleeps(states[last])
    && forall x | first <= x <= last :: IsIdle(states[x], m)
  }

  /** Every such round weighs the server. */
  lemma RoundWeighs(c: Setting, states: seq<State>, labels: seq<Label>, m: Meta, first: nat, last: nat) returns (w: nat)
    requires Run(c, states, labels) && m.providerName in c.providers && Round(c, states, labels, m, first, last)
    ensures first < w < last && Weighs(states[w], labels[w], Patrol, m)
  {
    assert StepOk(c, states, labels, first);
    ReadsAreWhole(c, states, labels, first, states[first].clock);
    w := WeighedBeforeSleep(c, states, labels, m, first + 1, last);
  }

  // ---- A destroy verdict leads to the call ---------------------------------------------------------------

  predicate DoomedAt(s: State, t: ThreadId, m: Meta) {
    t in s.pcs && s.pcs[t].Doomed? && s.pcs[t].meta == m
  }

  lemma DoomedStays(c: Setting, s: State, l: Label, t: ThreadId, m: Meta)
    requires Enabled(s, l) && DoomedAt(s, t, m) && !(l.thread == t && Calls(s, l, m))
    ensures DoomedAt(Step(c, s, l), t, m)
  {
    StepIsLocal(c, s, l);
  }

  /** A thread that has sentenced a server gets to nothing else before it has called the provider. */
  lemma {:induction false} CalledFirst(
    c: Setting, states: seq<State>, labels: seq<Label>, t: ThreadId, m: Meta, i: nat, last: nat) returns (j: nat)
    requires Run(c, states, labels) && i <= last < |states|
    requires DoomedAt(states[i], t, m) && !DoomedAt(states[last], t, m)
    ensures i <= j < last && labels[j].thread == t && Calls(states[j], labels[j], m)
    decreases last - i
  {
    assert StepOk(c, states, labels, i);
    if labels[i].thread == t && Calls(states[i], labels[i], m) {
      j := i;
    } else {
      DoomedStays(c, states[i], labels[i], t, m);
      j := CalledFirst(c, states, labels, t, m, i + 1, last);
    }
  }

  // ---- Time ----------------------------------------------------------------------------------------------

  lemma ClockStep(c: Setting, s: State, l: Label)
    requires Enabled(s, l)
    ensures Step(c, s, l).clock
         == s.clock + if l.action.Tick? then l.action.seconds else if l.action.Weigh? then l.action.delay else 0
  {
  }

  lemma {:induction false} ClockRuns(c: Setting, states: seq<State>, labels: seq<Label>, i: nat, j: nat)
    requires Run(c, states, labels) && i <= j < |states|
    ensures states[i].clock <= states[j].clock
    decreases j
  {
    if i < j {
      ClockRuns(c, states, labels, i, j - 1);
      assert StepOk(c, states, labels, j - 1);
      ClockStep(c, states[j - 1], labels[j - 1]);
    }
  }

  function AgeAt(states: seq<State>, m: Meta, i: nat): int
    requires i < |states|
  {
    states[i].clock - m.createdTimestamp
  }

  /** The thread's next state after a verdict to destroy. */
  lemma DoomedByVerdict(c: Setting, s: State, l: Label, t: ThreadId, m: Meta)
    requires Enabled(s, l) && Weighs(s, l, t, m) && l.action.verdict.Success? && l.action.verdict.value.Destroy?
    ensures DoomedAt(Step(c, s, l), t, m)
  {
  }

  /** A weighing step dooms the server if its two readings of the age lead to a destroy verdict. */
  lemma WeighDooms(c: Setting, states: seq<State>, labels: seq<Label>, t: ThreadId, m: Meta, w: nat)
    requires Run(c, states, labels) && w < |labels| && Weighs(states[w], labels[w], t, m)
    requires m.manage && m.providerName in c.providers
    requires IsDestroy(NeedDestroy(0, true, c.providers[m.providerName],
                                   AgeAt(states, m, w), AgeAt(states, m, w) + labels[w].action.delay))
    ensures DoomedAt(states[w + 1], t, m)
  {
    assert StepOk(c, states, labels, w);
    VerdictIsDestroy(c, states[w], labels[w], t, m);
    DoomedByVerdict(c, states[w], labels[w], t, m);
  }

  lemma VerdictIsDestroy(c: Setting, s: State, l: Label, t: ThreadId, m: Meta)
    requires Truthful(c, s, l) && Weighs(s, l, t, m) && m.manage && m.providerName in c.providers
    requires IsDestroy(NeedDestroy(0, true, c.providers[m.providerName],
                                   s.clock - m.createdTimestamp, s.clock - m.createdTimestamp + l.action.delay))
    ensures l.action.verdict.Success? && l.action.verdict.value.Destroy?
  {
    var age := s.clock - m.createdTimestamp;
    assert s.clock + l.action.delay - m.createdTimestamp == age + l.action.delay;
  }

  /** The ages read in a weighing step lie between those before and after it. */
  lemma AgesBetween(
    c: Setting, states: seq<State>, labels: seq<Label>, t: ThreadId, m: Meta, first: nat, w: nat, last: nat)
    requires Run(c, states, labels) && first <= w < last < |states| && Weighs(states[w], labels[w], t, m)
    ensures AgeAt(states, m, first) <= AgeAt(states, m, w) <= AgeAt(states, m, w) + labels[w].action.delay
         <= AgeAt(states, m, last)
  {
    assert StepOk(c, states, labels, w);
    ClockRuns(c, states, labels, first, w);
    ClockRuns(c, states, labels, w + 1, last);
    ClockStep(c, states[w], labels[w]);
  }

  /** At any two ages within these bounds the verdict is to destroy. */
  ghost predicate DueBetween(config: ProviderConfig, low: int, high: int) {
    forall age1, age2 | low <= age1 <= age2 <= high :: IsDestroy(NeedDestroy(0, true, config, age1, age2))
  }

  /** A weighing step dooms a server that is due from a state before it to one after it. */
  lemma DoomedWhenDue(
    c: Setting, states: seq<State>, labels: seq<Label>, t: ThreadId, m: Meta, first: nat, w: nat, last: nat)
    requires Run(c, states, labels) && first <= w < last < |states| && Weighs(states[w], labels[w], t, m)
    requires m.manage && m.providerName in c.providers
    requires DueBetween(c.providers[m.providerName], AgeAt(states, m, first), AgeAt(states, m, last))
    ensures DoomedAt(states[w + 1], t, m)
  {
    AgesBetween(c, states, labels, t, m, first, w, last);
    WeighDooms(c, states, labels, t, m, w);
  }

  /** So a round during which the server is due all the time calls the provider. */
  lemma RoundCalls(c: Setting, states: seq<State>, labels: seq<Label>, m: Meta, first: nat, last: nat) returns (j: nat)
    requires Run(c, states, labels) && Round(c, states, labels, m, first, last)
    requires m.manage && m.providerName in c.providers
    requires DueBetween(c.providers[m.providerName], AgeAt(states, m, first), AgeAt(states, m, last))
    ensures first < j < last && labels[j].thread == Patrol && Calls(states[j], labels[j], m)
  {
    var w := RoundWeighs(c, states, labels, m, first, last);
    DoomedWhenDue(c, states, labels, Patrol, m, first, w, last);
    j := CalledFirst(c, states, labels, Patrol, m, w + 1, last);
  }

  lemma DueInWindow(config: ProviderConfig, minLife: nat, unit: nat, safe: nat, k: nat, low: int, high: int)
    requires HasTerms(config, minLife, unit, safe)
    requires minLife <= k * unit - safe <= low && high < k * unit
    ensures DueBetween(config, low, high)
  {
    forall age1, age2 | low <= age1 <= age2 <= high
      ensures IsDestroy(NeedDestroy(0, true, config, age1, age2))
    {
      assert InWindow(k, unit, safe, age2);
      DestroyVerdictExactly(0, true, config, minLife, unit, safe, age1, age2);
    }
  }

  datatype Span = Span(first: nat, last: nat)

  /** Rounds in a row; each ends at most `gap` seconds after the one before it has begun. */
  ghost predicate Rounds(c: Setting, states: seq<State>, labels: seq<Label>, m: Meta, rounds: seq<Span>, gap: int) {
    && (forall r | 0 <= r < |rounds| :: Round(c, states, labels, m, rounds[r].first, rounds[r].last))
    && (forall r | 0 < r < |rounds| ::
          AgeAt(states, m, rounds[r].last) <= AgeAt(states, m, rounds[r - 1].first) + gap)
  }

  /** One of the rounds begins and ends within the window. */
  lemma {:induction false} SomeRoundInside(
    c: Setting, states: seq<State>, labels: seq<Label>, m: Meta, rounds: seq<Span>, gap: int, low: int, high: int)
    returns (r: nat)
    requires Rounds(c, states, labels, m, rounds, gap) && rounds != [] && gap <= high - low
    requires AgeAt(states, m, rounds[0].last) < high && low <= AgeAt(states, m, rounds[|rounds| - 1].first)
    ensures r < |rounds| && low <= AgeAt(states, m, rounds[r].first) && AgeAt(states, m, rounds[r].last) < high
    decreases |rounds|
  {
    var n := |rounds| - 1;
    if n == 0 || AgeAt(states, m, rounds[n - 1].first) < low {
      r := n;
    } else {
      r := SomeRoundInside(c, states, labels, m, rounds[..n], gap, low, high);
    }
  }

  /**
   * The deadline theorem for whole runs. The window of cycle k begins after the minimum life, the
   * first of these rounds ends before the provider bills the cycle after k, the last one begins
   * when the window has begun, and each round ends at most safe - lag seconds after the one before
   * it has begun. Then the patrol calls `destroy_server` for the server while nobody uses it and
   * before the provider's boundary.
   */
  lemma PatrolMeetsDeadline(
    c: Setting, states: seq<State>, labels: seq<Label>, m: Meta, rounds: seq<Span>,
    minLife: nat, unit: nat, safe: nat, k: nat, lag: nat) returns (j: nat)
    requires Run(c, states, labels) && rounds != [] && Rounds(c, states, labels, m, rounds, safe - lag)
    requires m.manage && m.providerName in c.providers && HasTerms(c.providers[m.providerName], minLife, unit, safe)
    requires k * unit - safe >= minLife
    requires AgeAt(states, m, rounds[0].last) + lag < k * unit
    requires AgeAt(states, m, rounds[|rounds| - 1].first) >= k * unit - safe
    ensures j < |labels| && labels[j].thread == Patrol && Calls(states[j], labels[j], m)
    ensures IsIdle(states[j], m) && AgeAt(states, m, j) + lag < k * unit
  {
    var r := SomeRoundInside(c, states, labels, m, rounds, safe - lag, k * unit - safe, k * unit - lag);
    var first, last := rounds[r].first, rounds[r].last;
    DueInWindow(c.providers[m.providerName], minLife, unit, safe, k, AgeAt(states, m, first), AgeAt(states, m, last));
    j := RoundCalls(c, states, labels, m, first, last);
    ClockRuns(c, states, labels, j, last);
  }
}
