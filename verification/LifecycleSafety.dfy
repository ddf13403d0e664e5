/**
 * Destroy safety over whole runs: what precedes every call of a provider's `destroy_server`, when
 * a session can be registered at that moment, and what an exception in a session leads to.
 */
module LifecycleSafety {
  import opened Wrappers
  import opened Billing
  import opened ServerFile
  import opened Sessions
  import opened Killer
  import opened Lifecycle
  import opened LifecycleSessions

  // ---- Back from the call to the verdict and to the look at the sessions -------------------------

  lemma DoomedOrigin(c: Setting, s: State, l: Label, t: ThreadId)
    requires Enabled(s, l) && t in Step(c, s, l).pcs && Step(c, s, l).pcs[t].Doomed?
    ensures t in s.pcs
    ensures var pc := Step(c, s, l).pcs[t];
            || (s.pcs[t] == pc && (l.thread == t ==> l.action.Tick?))
            || (&& l.thread == t && l.action.Weigh? && l.action.verdict.Success? && l.action.verdict.value.Destroy?
                && s.pcs[t] == Weighing(pc.meta, pc.todo))
  {
    if l.thread != t || l.action.Tick? {
      StepIsLocal(c, s, l);
    } else {
      match l.action
      case Weigh(_, _) =>
      case _ =>
    }
  }

  lemma WeighingOrigin(c: Setting, s: State, l: Label, t: ThreadId)
    requires Enabled(s, l) && t in Step(c, s, l).pcs && Step(c, s, l).pcs[t].Weighing?
    ensures t in s.pcs
    ensures var pc := Step(c, s, l).pcs[t];
            || (s.pcs[t] == pc && (l.thread == t ==> l.action.Tick?))
            || (&& l.thread == t && l.action.Look?
                && s.pcs[t] == Judging(pc.meta, pc.todo)
                && pc.meta.providerName in c.providers
                && SessionsOf(s.table, pc.meta.serverName) == [])
  {
    if l.thread != t || l.action.Tick? {
      StepIsLocal(c, s, l);
    } else {
      match l.action
      case Look =>
      case _ =>
    }
  }

  /** Thread t stays at pc from state `first` to state `last`, so it takes no step in between. */
  ghost predicate Rests(states: seq<State>, labels: seq<Label>, t: ThreadId, pc: Pc, first: nat, last: nat) {
    && first <= last < |states| == |labels| + 1
    && (forall j | first <= j <= last :: t in states[j].pcs && states[j].pcs[t] == pc)
    && (forall j | first <= j < last && labels[j].thread == t :: labels[j].action.Tick?)
  }

  lemma RestsOn(states: seq<State>, labels: seq<Label>, t: ThreadId, pc: Pc, first: nat, last: nat)
    requires Rests(states, labels, t, pc, first, last) && last + 1 < |states|
    requires t in states[last + 1].pcs && states[last + 1].pcs[t] == pc
    requires labels[last].thread == t ==> labels[last].action.Tick?
    ensures Rests(states, labels, t, pc, first, last + 1)
  {
  }

  lemma {:induction false} WhenWeighed(c: Setting, states: seq<State>, labels: seq<Label>, i: nat, t: ThreadId) returns (w: nat)
    requires Run(c, states, labels) && i < |states|
    requires t in states[i].pcs && states[i].pcs[t].Doomed?
    ensures w < i && labels[w].thread == t && t in states[w].pcs
    ensures labels[w].action.Weigh? && labels[w].action.verdict.Success? && labels[w].action.verdict.value.Destroy?
    ensures states[w].pcs[t] == Weighing(states[i].pcs[t].meta, states[i].pcs[t].todo)
    ensures Rests(states, labels, t, states[i].pcs[t], w + 1, i)
  {
    assert i > 0;
    assert StepOk(c, states, labels, i - 1);
    DoomedOrigin(c, states[i - 1], labels[i - 1], t);
    if states[i - 1].pcs[t] == states[i].pcs[t] {
      w := WhenWeighed(c, states, labels, i - 1, t);
      RestsOn(states, labels, t, states[i].pcs[t], w + 1, i - 1);
    } else {
      w := i - 1;
    }
  }

  lemma LookedBefore(c: Setting, states: seq<State>, labels: seq<Label>, i: nat, t: ThreadId)
    requires Run(c, states, labels) && 0 < i < |states|
    requires t in states[i].pcs && states[i].pcs[t].Weighing?
    ensures t in states[i - 1].pcs
    ensures var pc := states[i].pcs[t];
            || (states[i - 1].pcs[t] == pc && (labels[i - 1].thread == t ==> labels[i - 1].action.Tick?))
            || (&& labels[i - 1] == Label(t, Look)
                && states[i - 1].pcs[t] == Judging(pc.meta, pc.todo)
                && pc.meta.providerName in c.providers
                && SessionsOf(states[i - 1].table, pc.meta.serverName) == [])
  {
    assert StepOk(c, states, labels, i - 1);
    WeighingOrigin(c, states[i - 1], labels[i - 1], t);
  }

  lemma {:induction false} WhenLooked(c: Setting, states: seq<State>, labels: seq<Label>, i: nat, t: ThreadId) returns (k: nat)
    requires Run(c, states, labels) && i < |states|
    requires t in states[i].pcs && states[i].pcs[t].Weighing?
    ensures k < i && labels[k] == Label(t, Look) && t in states[k].pcs
    ensures var m := states[i].pcs[t].meta;
            && states[k].pcs[t] == Judging(m, states[i].pcs[t].todo)
            && m.providerName in c.providers
            && SessionsOf(states[k].table, m.serverName) == []
    ensures Rests(states, labels, t, states[i].pcs[t], k + 1, i)
  {
    assert i > 0;
    LookedBefore(c, states, labels, i, t);
    if states[i - 1].pcs[t] == states[i].pcs[t] {
      k := WhenLooked(c, states, labels, i - 1, t);
      RestsOn(states, labels, t, states[i].pcs[t], k + 1, i - 1);
    } else {
      k := i - 1;
    }
  }

  /** The thread calls `destroy_server` for this record. */
  predicate Calls(s: State, l: Label, m: Meta) {
    l.action.Call? && l.thread in s.pcs && s.pcs[l.thread].Doomed? && s.pcs[l.thread].meta == m
  }

  /** The age of the server was read at this step and led to a destroy verdict. */
  predicate Condemns(c: Setting, s: State, l: Label, t: ThreadId, m: Meta) {
    && l.thread == t && l.action.Weigh?
    && m.manage && m.providerName in c.providers
    && IsDestroy(NeedDestroy(0, true, c.providers[m.providerName],
                             s.clock - m.createdTimestamp, s.clock + l.action.delay - m.createdTimestamp))
  }

  /** The thread looked at the sessions of the server and found none. */
  predicate FindsIdle(s: State, l: Label, t: ThreadId, m: Meta) {
    && l == Label(t, Look) && t in s.pcs && s.pcs[t].Judging? && s.pcs[t].meta == m
    && SessionsOf(s.table, m.serverName) == []
  }

  lemma TruthfulDestroy(c: Setting, s: State, l: Label, t: ThreadId, m: Meta)
    requires Truthful(c, s, l) && l.thread == t && t in s.pcs && s.pcs[t].Weighing? && s.pcs[t].meta == m
    requires l.action.Weigh? && l.action.verdict.Success? && l.action.verdict.value.Destroy?
    ensures Condemns(c, s, l, t, m)
  {
  }

  /**
   * Destroy safety: in every run, each call of `destroy_server` is for a managed server. Before
   * it the same thread looked at the sessions of that name and found none, then the age of the
   * server led to a destroy verdict, and the thread did nothing else from the look to the call.
   */
  lemma DestroyIsJustified(c: Setting, states: seq<State>, labels: seq<Label>, i: nat)
    returns (m: Meta, look: nat, weigh: nat)
    requires Run(c, states, labels) && i < |labels| && labels[i].action.Call?
    ensures Calls(states[i], labels[i], m) && look < weigh < i
    ensures FindsIdle(states[look], labels[look], labels[i].thread, m)
    ensures Condemns(c, states[weigh], labels[weigh], labels[i].thread, m)
    ensures forall j | look < j < i && j != weigh && labels[j].thread == labels[i].thread :: labels[j].action.Tick?
  {
    var t := labels[i].thread;
    assert StepOk(c, states, labels, i);
    m := states[i].pcs[t].meta;
    weigh := WhenWeighed(c, states, labels, i, t);
    look := WhenLooked(c, states, labels, weigh, t);
    assert StepOk(c, states, labels, weigh);
    TruthfulDestroy(c, states[weigh], labels[weigh], t, m);
  }

  /** In terms of the settings: no minimum life is asked for, or the paid cycle is about to end. */
  lemma DestroyIsInWindow(c: Setting, s: State, l: Label, t: ThreadId, m: Meta, minLife: nat, unit: nat, safe: nat)
    requires Condemns(c, s, l, t, m) && HasTerms(c.providers[m.providerName], minLife, unit, safe)
    ensures var age1 := s.clock - m.createdTimestamp;
            var age2 := age1 + l.action.delay;
            minLife == 0 || (age1 >= minLife && exists k :: k >= 1 && InWindow(k, unit, safe, age2))
  {
    var age := s.clock - m.createdTimestamp;
    DestroyVerdictExactly(0, true, c.providers[m.providerName], minLife, unit, safe, age, age + l.action.delay);
  }

  // ---- Sessions at the call --------------------------------------------------------------------------

  lemma RegistrationChange(c: Setting, s: State, l: Label, p: Peer, name: string)
    requires PatrolStaysOut(s) && Enabled(s, l)
    ensures RegisteredFor(Step(c, s, l), p, name) <==>
            || Enters(c, s, l, p, name)
            || (RegisteredFor(s, p, name) && l != Label(Handler(p), Leave))
  {
    if Admitted(c, s, l) || l.action.Leave? {
      StepIsLocal(c, s, l);
    } else {
      QuietStep(c, s, l);
    }
  }

  /** A connection thread registers its session for the name. */
  predicate Enters(c: Setting, s: State, l: Label, p: Peer, name: string) {
    && l == Label(Handler(p), Enter) && l.thread in s.pcs && s.pcs[l.thread].Chosen?
    && s.pcs[l.thread].meta.serverName == name && s.pcs[l.thread].meta.providerName in c.providers
  }

  /** Peer p enters the server at step j and has not left it by state `last`. */
  predicate EntersAndStays(c: Setting, states: seq<State>, labels: seq<Label>, p: Peer, name: string, j: nat, last: nat) {
    && j < last <= |labels| < |states|
    && Enters(c, states[j], labels[j], p, name)
    && (forall k | j < k < last :: labels[k] != Label(Handler(p), Leave))
  }

  ghost predicate EnteredSince(
    c: Setting, states: seq<State>, labels: seq<Label>, p: Peer, name: string, first: nat, last: nat) {
    exists j: nat :: first <= j && EntersAndStays(c, states, labels, p, name, j, last)
  }

  lemma EnteredSinceStep(
    c: Setting, states: seq<State>, labels: seq<Label>, p: Peer, name: string, first: nat, n: nat)
    requires first <= n < |labels| < |states|
    ensures EnteredSince(c, states, labels, p, name, first, n + 1) <==>
            || Enters(c, states[n], labels[n], p, name)
            || (EnteredSince(c, states, labels, p, name, first, n) && labels[n] != Label(Handler(p), Leave))
  {
    if EnteredSince(c, states, labels, p, name, first, n + 1) {
      var j: nat :| first <= j && EntersAndStays(c, states, labels, p, name, j, n + 1);
      if j < n {
        assert EntersAndStays(c, states, labels, p, name, j, n);
      }
    }
    if Enters(c, states[n], labels[n], p, name) {
      assert EntersAndStays(c, states, labels, p, name, n, n + 1);
    } else if EnteredSince(c, states, labels, p, name, first, n) && labels[n] != Label(Handler(p), Leave) {
      var j: nat :| first <= j && EntersAndStays(c, states, labels, p, name, j, n);
      assert EntersAndStays(c, states, labels, p, name, j, n + 1);
    }
  }

  lemma {:induction false} RegisteredSince(
    c: Setting, states: seq<State>, labels: seq<Label>, first: nat, last: nat, p: Peer, name: string)
    requires Run(c, states, labels) && first <= last < |states| && !RegisteredFor(states[first], p, name)
    ensures RegisteredFor(states[last], p, name) <==> EnteredSince(c, states, labels, p, name, first, last)
    decreases last
  {
    if first < last {
      RegisteredSince(c, states, labels, first, last - 1, p, name);
      SessionInvHolds(c, states, labels, last - 1);
      assert StepOk(c, states, labels, last - 1);
      RegistrationChange(c, states[last - 1], labels[last - 1], p, name);
      EnteredSinceStep(c, states, labels, p, name, first, last - 1);
    }
  }

  /** Without a session before, the sessions are those of the peers who entered since and stayed. */
  lemma SessionsSince(c: Setting, states: seq<State>, labels: seq<Label>, first: nat, last: nat, name: string)
    requires Run(c, states, labels) && first <= last < |states| && SessionsOf(states[first].table, name) == []
    ensures forall p :: p in SessionsOf(states[last].table, name) <==> EnteredSince(c, states, labels, p, name, first, last)
  {
    SessionInvHolds(c, states, labels, first);
    SessionInvHolds(c, states, labels, last);
    assert ListOk(states[first], name, SessionsOf(states[first].table, name));
    assert ListOk(states[last], name, SessionsOf(states[last].table, name));
    forall p ensures p in SessionsOf(states[last].table, name) <==> EnteredSince(c, states, labels, p, name, first, last) {
      assert !RegisteredFor(states[first], p, name);
      RegisteredSince(c, states, labels, first, last, p, name);
    }
  }

  /**
   * The verdict and the destroy are not atomic: a session is registered for the server at the
   * moment of the call if and only if some thread entered it after the killer's look at the
   * sessions and has not left it by then.
   */
  lemma SessionAtCallExactly(c: Setting, states: seq<State>, labels: seq<Label>, i: nat) returns (m: Meta, look: nat)
    requires Run(c, states, labels) && i < |labels| && labels[i].action.Call?
    ensures Calls(states[i], labels[i], m) && look < i
    ensures FindsIdle(states[look], labels[look], labels[i].thread, m)
    ensures SessionsOf(states[i].table, m.serverName) != [] <==>
            exists p :: EnteredSince(c, states, labels, p, m.serverName, look, i)
  {
    var weigh;
    m, look, weigh := DestroyIsJustified(c, states, labels, i);
    SessionsSince(c, states, labels, look, i, m.serverName);
    if SessionsOf(states[i].table, m.serverName) != [] {
      assert SessionsOf(states[i].table, m.serverName)[0] in SessionsOf(states[i].table, m.serverName);
    }
  }

  // ---- An exception in a session ---------------------------------------------------------------------------

  /** The thread was ended by an exception while its session was registered for the name. */
  predicate StuckOn(s: State, p: Peer, name: string) {
    && Handler(p) in s.pcs && s.pcs[Handler(p)].Crashed?
    && s.pcs[Handler(p)].stuck.Some? && s.pcs[Handler(p)].stuck.value.0 == name
  }

  /** Nobody is between finding the server idle and calling the provider. */
  predicate NobodyCondemns(s: State, name: string) {
    forall t | t in s.pcs ::
      (s.pcs[t].Weighing? || s.pcs[t].Doomed?) ==> s.pcs[t].meta.serverName != name
  }

  lemma StuckStep(c: Setting, s: State, l: Label, p: Peer, name: string)
    requires SessionInv(s) && Enabled(s, l) && StuckOn(s, p, name)
    ensures StuckOn(Step(c, s, l), p, name)
    ensures NobodyCondemns(s, name) ==> NobodyCondemns(Step(c, s, l), name)
  {
    StepIsLocal(c, s, l);
    var s' := Step(c, s, l);
    assert ListOk(s, name, SessionsOf(s.table, name));
    assert RegisteredFor(s, p, name) && p in SessionsOf(s.table, name);
    if NobodyCondemns(s, name) {
      forall t | t in s'.pcs && (s'.pcs[t].Weighing? || s'.pcs[t].Doomed?)
        ensures s'.pcs[t].meta.serverName != name
      {
        if s'.pcs[t].Weighing? {
          WeighingOrigin(c, s, l, t);
        } else {
          DoomedOrigin(c, s, l, t);
        }
      }
    }
  }

  lemma {:induction false} StuckForEver(
    c: Setting, states: seq<State>, labels: seq<Label>, i: nat, j: nat, p: Peer, name: string)
    requires Run(c, states, labels) && i <= j < |states|
    requires StuckOn(states[i], p, name) && NobodyCondemns(states[i], name)
    ensures StuckOn(states[j], p, name) && NobodyCondemns(states[j], name)
    decreases j
  {
    if i < j {
      StuckForEver(c, states, labels, i, j - 1, p, name);
      SessionInvHolds(c, states, labels, j - 1);
      assert StepOk(c, states, labels, j - 1);
      StuckStep(c, states[j - 1], labels[j - 1], p, name);
    }
  }

  /**
   * An exception in a session keeps it registered for ever, and from then on no thread calls
   * `destroy_server` for that name any more, whatever the server costs, unless a thread had
   * already found it idle before.
   */
  lemma StuckServerIsNeverDestroyed(
    c: Setting, states: seq<State>, labels: seq<Label>, i: nat, j: nat, p: Peer, name: string)
    requires Run(c, states, labels) && i <= j < |labels|
    requires StuckOn(states[i], p, name) && NobodyCondemns(states[i], name)
    ensures forall m: Meta | Calls(states[j], labels[j], m) :: m.serverName != name
    ensures p in SessionsOf(states[j].table, name)
  {
    assert StepOk(c, states, labels, j);
    StuckForEver(c, states, labels, i, j, p, name);
    SessionInvHolds(c, states, labels, j);
    assert ListOk(states[j], name, SessionsOf(states[j].table, name));
    assert RegisteredFor(states[j], p, name);
  }
}
