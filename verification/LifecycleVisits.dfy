/**
 * Visits over whole runs: which server a visitor enters, the check when he leaves it, what ends a
 * thread, and that no thread waits for ever.
 */
module LifecycleVisits {
  import opened Wrappers
  import opened Billing
  import opened ServerFile
  import opened Sessions
  import opened Killer
  import opened Lifecycle
  import opened LifecycleFile
  import opened LifecycleSessions
  import opened LifecycleSafety
  import opened LifecycleDeadline

  // ---- Leaving a server ------------------------------------------------------------------------------

  /** Servers in use belong to configured providers. */
  ghost predicate UsersConfigured(c: Setting, s: State) {
    forall t | t in s.pcs && s.pcs[t].Using? :: s.pcs[t].meta.providerName in c.providers
  }

  lemma UsingOrigin(c: Setting, s: State, l: Label, t: ThreadId)
    requires Enabled(s, l) && t in Step(c, s, l).pcs && Step(c, s, l).pcs[t].Using?
    ensures t in s.pcs
    ensures var m := Step(c, s, l).pcs[t].meta;
            || s.pcs[t] == Step(c, s, l).pcs[t]
            || (l == Label(t, Enter) && s.pcs[t] == Chosen(m) && m.providerName in c.providers)
  {
    if l.thread != t || l.action.Tick? {
      StepIsLocal(c, s, l);
    } else {
      match l.action
      case Enter =>
      case _ =>
    }
  }

  lemma {:induction false} UsersAreConfigured(c: Setting, states: seq<State>, labels: seq<Label>, i: nat)
    requires Run(c, states, labels) && i < |states|
    ensures UsersConfigured(c, states[i])
  {
    if i > 0 {
      UsersAreConfigured(c, states, labels, i - 1);
      assert StepOk(c, states, labels, i - 1);
      forall t | t in states[i].pcs && states[i].pcs[t].Using?
        ensures states[i].pcs[t].meta.providerName in c.providers
      {
        UsingOrigin(c, states[i - 1], labels[i - 1], t);
      }
    }
  }

  /** The thread is about to check the server, or has crashed while it was. */
  predicate ChecksOrCrashed(s: State, t: ThreadId, m: Meta) {
    t in s.pcs && (s.pcs[t] == Judging(m, []) || s.pcs[t] == Weighing(m, []) || s.pcs[t].Crashed?)
  }

  lemma CheckStep(c: Setting, s: State, l: Label, t: ThreadId, m: Meta)
    requires Enabled(s, l) && ChecksOrCrashed(s, t, m) && m.providerName in c.providers && IsIdle(s, m)
    requires l != Label(t, Connect) && !Weighs(s, l, t, m)
    ensures ChecksOrCrashed(Step(c, s, l), t, m)
  {
    if l.thread != t || l.action.Tick? {
      StepIsLocal(c, s, l);
    } else {
      match l.action
      case Look =>
      case _ =>
    }
  }

  lemma {:induction false} WeighedBeforeEnd(
    c: Setting, states: seq<State>, labels: seq<Label>, t: ThreadId, m: Meta, i: nat, last: nat) returns (w: nat)
    requires Run(c, states, labels) && i <= last < |states| && m.providerName in c.providers
    requires ChecksOrCrashed(states[i], t, m) && t in states[last].pcs && states[last].pcs[t].Finished?
    requires forall x | i <= x < last :: labels[x] != Label(t, Connect)
    requires forall x | i <= x <= last :: IsIdle(states[x], m)
    ensures i <= w < last && Weighs(states[w], labels[w], t, m)
    decreases last - i
  {
    assert i < last;
    assert StepOk(c, states, labels, i);
    if Weighs(states[i], labels[i], t, m) {
      w := i;
    } else {
      CheckStep(c, states[i], labels[i], t, m);
      w := WeighedBeforeEnd(c, states, labels, t, m, i + 1, last);
    }
  }

  lemma LeaveChecks(c: Setting, s: State, l: Label, p: Peer)
    requires Enabled(s, l) && l == Label(Handler(p), Leave)
    ensures ChecksOrCrashed(Step(c, s, l), Handler(p), s.pcs[Handler(p)].meta)
  {
  }

  /** A thread leaves the server m at step i and has ended by state `last`, while nobody else is there. */
  ghost predicate LeavesAndEnds(states: seq<State>, labels: seq<Label>, p: Peer, m: Meta, i: nat, last: nat) {
    && i < last <= |labels| < |states|
    && labels[i] == Label(Handler(p), Leave)
    && Handler(p) in states[i].pcs && states[i].pcs[Handler(p)].Using? && states[i].pcs[Handler(p)].meta == m
    && Handler(p) in states[last].pcs && states[last].pcs[Handler(p)].Finished?
    && (forall x | i < x < last :: labels[x] != Label(Handler(p), Connect))
    && (forall x | i < x <= last :: IsIdle(states[x], m))
  }

  /** A visitor who leaves a server empty weighs its age before he ends. */
  lemma LeaverWeighs(c: Setting, states: seq<State>, labels: seq<Label>, p: Peer, m: Meta, i: nat, last: nat)
    returns (w: nat)
    requires Run(c, states, labels) && LeavesAndEnds(states, labels, p, m, i, last)
    ensures i < w < last && Weighs(states[w], labels[w], Handler(p), m)
  {
    UsersAreConfigured(c, states, labels, i);
    assert StepOk(c, states, labels, i);
    LeaveChecks(c, states[i], labels[i], p);
    w := WeighedBeforeEnd(c, states, labels, Handler(p), m, i + 1, last);
  }

  /** And he calls the provider if the server is due. */
  lemma LeaverCalls(c: Setting, states: seq<State>, labels: seq<Label>, p: Peer, m: Meta, i: nat, last: nat)
    returns (w: nat, j: nat)
    requires Run(c, states, labels) && LeavesAndEnds(states, labels, p, m, i, last)
    requires m.manage && m.providerName in c.providers
    requires DueBetween(c.providers[m.providerName], AgeAt(states, m, i), AgeAt(states, m, last))
    ensures i < w < j < last && Weighs(states[w], labels[w], Handler(p), m)
    ensures labels[j].thread == Handler(p) && Calls(states[j], labels[j], m) && IsIdle(states[j], m)
  {
    w := LeaverWeighs(c, states, labels, p, m, i, last);
    DoomedWhenDue(c, states, labels, Handler(p), m, i, w, last);
    j := CalledFirst(c, states, labels, Handler(p), m, w + 1, last);
  }

  // ---- Which server a visitor enters -------------------------------------------------------------------

  /** The thread has chosen the server, or is recording it in order to enter it. */
  predicate HasChosen(pc: Pc, m: Meta) {
    match pc
    case Chosen(chosen) => chosen == m
    case Using(used, _) => used == m
    case Waiting(change, _) => change == Add(m)
    case Locked(change, _) => change == Add(m)
    case Loaded(change, _, _) => change == Add(m)
    case Writing(change, _, _, _) => change == Add(m)
    case Written(change, _) => change == Add(m)
    case _ => false
  }

  /** The thread picks the server from its menu, or has it created. */
  predicate Chooses(s: State, l: Label, t: ThreadId, m: Meta) {
    && l.thread == t && t in s.pcs && s.pcs[t].AtMenu?
    && (match l.action
        case Pick(k) => k < |s.pcs[t].snapshot| && s.pcs[t].snapshot[k] == m
        case Create(created) => created == m && m.serverName !in s.used
        case _ => false)
  }

  lemma WritesKeepChange(c: Setting, s: State, l: Label, m: Meta)
    requires Enabled(s, l) && Writes(l.action) && HasChosen(Step(c, s, l).pcs[l.thread], m)
    ensures l.thread in s.pcs && HasChosen(s.pcs[l.thread], m)
  {
  }

  lemma ChosenOrigin(c: Setting, s: State, l: Label, t: ThreadId, m: Meta)
    requires Enabled(s, l) && t in Step(c, s, l).pcs && HasChosen(Step(c, s, l).pcs[t], m)
    ensures Chooses(s, l, t, m) || (t in s.pcs && HasChosen(s.pcs[t], m))
  {
    if l.thread != t || l.action.Tick? {
      StepIsLocal(c, s, l);
    } else if Writes(l.action) {
      WritesKeepChange(c, s, l, m);
    } else if l.action.Create? || l.action.Pick? || l.action.Enter? {
      OwnChoice(c, s, l, m);
    } else {
      NoChoice(c, s, l, m);
    }
  }

  lemma OwnChoice(c: Setting, s: State, l: Label, m: Meta)
    requires Enabled(s, l) && (l.action.Create? || l.action.Pick? || l.action.Enter?)
    requires l.thread in Step(c, s, l).pcs && HasChosen(Step(c, s, l).pcs[l.thread], m)
    ensures Chooses(s, l, l.thread, m) || (l.thread in s.pcs && HasChosen(s.pcs[l.thread], m))
  {
  }

  lemma NoChoice(c: Setting, s: State, l: Label, m: Meta)
    requires Enabled(s, l) && !Writes(l.action) && !l.action.Tick?
    requires !l.action.Create? && !l.action.Pick? && !l.action.Enter?
    requires l.thread in Step(c, s, l).pcs && HasChosen(Step(c, s, l).pcs[l.thread], m)
    ensures l.thread in s.pcs && HasChosen(s.pcs[l.thread], m)
  {
    match l.action
    case Look =>
    case Weigh(_, _) =>
    case Call(_) =>
    case _ =>
  }

  lemma {:induction false} WhenChosen(c: Setting, states: seq<State>, labels: seq<Label>, i: nat, t: ThreadId, m: Meta)
    returns (j: nat)
    requires Run(c, states, labels) && i < |states| && t in states[i].pcs && HasChosen(states[i].pcs[t], m)
    ensures j < i && Chooses(states[j], labels[j], t, m)
  {
    assert i > 0;
    assert StepOk(c, states, labels, i - 1);
    ChosenOrigin(c, states[i - 1], labels[i - 1], t, m);
    if Chooses(states[i - 1], labels[i - 1], t, m) {
      j := i - 1;
    } else {
      j := WhenChosen(c, states, labels, i - 1, t, m);
    }
  }

  lemma MenuOrigin(c: Setting, s: State, l: Label, t: ThreadId)
    requires Enabled(s, l) && t in Step(c, s, l).pcs && Step(c, s, l).pcs[t].AtMenu?
    ensures || (t in s.pcs && s.pcs[t] == Step(c, s, l).pcs[t])
            || (l == Label(t, ReadMenu) && Load(s.disk, s.clock) == Success(Step(c, s, l).pcs[t].snapshot))
  {
    if l.thread != t || l.action.Tick? {
      StepIsLocal(c, s, l);
    } else {
      match l.action
      case ReadMenu =>
      case _ =>
    }
  }

  lemma {:induction false} WhenRead(c: Setting, states: seq<State>, labels: seq<Label>, i: nat, t: ThreadId) returns (j: nat)
    requires Run(c, states, labels) && i < |states| && t in states[i].pcs && states[i].pcs[t].AtMenu?
    ensures j < i && labels[j] == Label(t, ReadMenu)
    ensures states[i].pcs[t].snapshot == if BeingWritten(states[j]) then [] else Recorded(c, states[j])
  {
    assert i > 0;
    assert StepOk(c, states, labels, i - 1);
    MenuOrigin(c, states[i - 1], labels[i - 1], t);
    if t in states[i - 1].pcs && states[i - 1].pcs[t] == states[i].pcs[t] {
      j := WhenRead(c, states, labels, i - 1, t);
    } else {
      j := i - 1;
      ReadsAreWhole(c, states, labels, j, states[j].clock);
    }
  }

  /**
   * The server a visitor uses is the one he picked, by its number in the records that he read, or
   * the one he had created under a new name.
   */
  lemma EntersWhatWasChosen(c: Setting, states: seq<State>, labels: seq<Label>, i: nat, p: Peer)
    returns (j: nat, r: nat)
    requires Run(c, states, labels) && i < |states|
    requires Handler(p) in states[i].pcs && states[i].pcs[Handler(p)].Using?
    ensures var m := states[i].pcs[Handler(p)].meta;
            && r < j < i && labels[r] == Label(Handler(p), ReadMenu) && labels[j].thread == Handler(p)
            && match labels[j].action
               case Create(created) => created == m && m.serverName !in states[j].used
               case Pick(k) =>
                 !BeingWritten(states[r]) && k < |Recorded(c, states[r])| && Recorded(c, states[r])[k] == m
               case _ => false
  {
    var t := Handler(p);
    j := WhenChosen(c, states, labels, i, t, states[i].pcs[t].meta);
    r := WhenRead(c, states, labels, j, t);
  }

  /** At the menu a visitor may pick any server shown and have one created under any new name. */
  lemma MenuIsOpen(c: Setting, s: State, t: ThreadId, k: nat, m: Meta)
    requires t in s.pcs && s.pcs[t].AtMenu?
    ensures k < |s.pcs[t].snapshot| ==>
              && Enabled(s, Label(t, Pick(k)))
              && Step(c, s, Label(t, Pick(k))) == s.(pcs := s.pcs[t := Chosen(s.pcs[t].snapshot[k])])
    ensures m.serverName !in s.used ==> Enabled(s, Label(t, Create(m)))
  {
  }

  // ---- What ends a thread ------------------------------------------------------------------------------

  /** The steps that end a thread with an exception. */
  predicate Raised(c: Setting, s: State, l: Label) {
    && l.thread in s.pcs
    && (|| l.action.Crash?
        || (l.action.Look? && s.pcs[l.thread].Judging? && s.pcs[l.thread].meta.providerName !in c.providers)
        || (l.action.Weigh? && s.pcs[l.thread].Weighing?
            && JudgeServer(c.providers, 0, s.pcs[l.thread].meta, s.clock, s.clock + l.action.delay).Failure?)
        || l.action == Call(Raises))
  }

  /** Outside calls may raise wherever a thread makes them; a session then stays registered. */
  lemma MayRaise(c: Setting, s: State, t: ThreadId)
    requires t in s.pcs
    requires var pc := s.pcs[t]; pc.Choosing? || pc.AtMenu? || pc.Chosen? || pc.Using? || pc.Judging? || pc.Scanning?
    ensures Enabled(s, Label(t, Crash)) && Step(c, s, Label(t, Crash)).table == s.table
    ensures Raised(c, s, Label(t, Crash)) && Step(c, s, Label(t, Crash)).pcs[t].Crashed?
  {
  }

  /** What a thread has sentenced is managed. */
  lemma DoomedIsManaged(c: Setting, states: seq<State>, labels: seq<Label>, i: nat, t: ThreadId)
    requires Run(c, states, labels) && i < |states| && t in states[i].pcs && states[i].pcs[t].Doomed?
    ensures states[i].pcs[t].meta.manage
  {
    var w := WhenWeighed(c, states, labels, i, t);
    assert StepOk(c, states, labels, w);
    TruthfulDestroy(c, states[w], labels[w], t, states[i].pcs[t].meta);
  }

  lemma OwnCrash(c: Setting, s: State, l: Label)
    requires Enabled(s, l) && Truthful(c, s, l) && !l.action.Tick? && !l.action.Connect?
    requires Load(s.disk, s.clock).Success?
    requires s.pcs[l.thread].Doomed? ==> s.pcs[l.thread].meta.manage
    ensures l.thread in Step(c, s, l).pcs
    ensures !s.pcs[l.thread].Crashed? && (Step(c, s, l).pcs[l.thread].Crashed? <==> Raised(c, s, l))
  {
    match l.action
    case Look =>
    case Weigh(_, _) =>
    case Call(_) =>
    case Crash =>
    case _ =>
  }

  /**
   * An exception ends a thread exactly at these steps: where the outside raises, at a record of
   * an unknown provider, at a verdict that cannot be reached, or when the provider raises. No
   * thread ever fails on the server file, and none comes to destroy an unmanaged server.
   */
  lemma CrashesExactly(c: Setting, states: seq<State>, labels: seq<Label>, i: nat, t: ThreadId)
    requires Run(c, states, labels) && i < |labels| && t in states[i].pcs && !states[i].pcs[t].Crashed?
    ensures t in states[i + 1].pcs
    ensures states[i + 1].pcs[t].Crashed? <==> labels[i].thread == t && Raised(c, states[i], labels[i])
  {
    var s, l := states[i], labels[i];
    assert StepOk(c, states, labels, i);
    if l.thread != t || l.action.Tick? || l.action.Connect? {
      StepIsLocal(c, s, l);
    } else {
      ReadsAreWhole(c, states, labels, i, s.clock);
      if s.pcs[t].Doomed? {
        DoomedIsManaged(c, states, labels, i, t);
      }
      OwnCrash(c, s, l);
    }
  }

  /** The steps that end a connection thread without an exception. */
  predicate Ends(c: Setting, s: State, l: Label) {
    && l.thread in s.pcs
    && (var pc := s.pcs[l.thread];
        || (l.action.Quit? && pc.AtMenu?)
        || (l.action.Enter? && pc.Chosen? && pc.meta.providerName !in c.providers)
        || (l.action.Look? && pc.Judging? && pc.meta.providerName in c.providers
            && SessionsOf(s.table, pc.meta.serverName) != [])
        || (l.action.Weigh? && l.action.verdict.Success? && l.action.verdict.value.Keep?)
        || (l.action.Release? && pc.Written? && pc.change.Remove?))
  }

  lemma OwnEnd(c: Setting, s: State, l: Label)
    requires Enabled(s, l) && l.thread.Handler? && !l.action.Tick? && !l.action.Connect?
    ensures l.thread in Step(c, s, l).pcs
    ensures Step(c, s, l).pcs[l.thread].Finished? <==> Ends(c, s, l)
  {
    match l.action
    case Look =>
    case Weigh(_, _) =>
    case Release =>
    case _ =>
  }

  /**
   * A connection thread ends exactly when its visitor leaves the menu, its server has no
   * provider, or the check on leaving keeps the server or has removed its record.
   */
  lemma EndsExactly(c: Setting, states: seq<State>, labels: seq<Label>, i: nat, p: Peer)
    requires Run(c, states, labels) && i < |labels|
    requires Handler(p) in states[i].pcs && !states[i].pcs[Handler(p)].Finished?
    ensures Handler(p) in states[i + 1].pcs
    ensures states[i + 1].pcs[Handler(p)].Finished? <==> labels[i].thread == Handler(p) && Ends(c, states[i], labels[i])
  {
    var s, l := states[i], labels[i];
    assert StepOk(c, states, labels, i);
    if l.thread != Handler(p) || l.action.Tick? || l.action.Connect? {
      StepIsLocal(c, s, l);
    } else {
      OwnEnd(c, s, l);
    }
  }

  // ---- Nobody waits for ever ---------------------------------------------------------------------------

  /** A step that the thread can take where it is. */
  function NextAction(c: Setting, s: State, pc: Pc): Action {
    match pc
    case Sleeping => Snapshot
    case Scanning(_) => TakeNext
    case Choosing => ReadMenu
    case AtMenu(_) => Quit
    case Chosen(_) => Enter
    case Using(_, _) => Leave
    case Judging(_, _) => Look
    case Weighing(m, _) => Weigh(0, JudgeServer(c.providers, 0, m, s.clock, s.clock))
    case Doomed(_, _) => Call(Destroyed)
    case Waiting(_, _) => Acquire
    case Locked(_, _) => Reload
    case Loaded(_, _, _) => Truncate
    case Writing(_, _, text, _) => Write(|text|)
    case Written(_, _) => Release
    case _ => Connect
  }

  lemma CanMove(c: Setting, s: State, t: ThreadId)
    requires t in s.pcs && !s.pcs[t].Finished? && !s.pcs[t].Crashed?
    requires s.pcs[t].Waiting? ==> s.lock == None
    requires s.pcs[t].Writing? ==> s.pcs[t].written < |s.pcs[t].text|
    ensures var l := Label(t, NextAction(c, s, s.pcs[t]));
            Enabled(s, l) && Truthful(c, s, l) && !l.action.Connect? && !l.action.Tick?
  {
  }

  /**
   * No deadlock: in every reachable state each thread that has not ended can take a step of its
   * own, unless it waits for the lock while another thread holds it, and then that one can.
   */
  lemma NoDeadlock(c: Setting, states: seq<State>, labels: seq<Label>, i: nat, t: ThreadId) returns (l: Label)
    requires Run(c, states, labels) && i < |states|
    requires t in states[i].pcs && !states[i].pcs[t].Finished? && !states[i].pcs[t].Crashed?
    ensures Enabled(states[i], l) && Truthful(c, states[i], l) && !l.action.Connect? && !l.action.Tick?
    ensures l.thread == t || (states[i].pcs[t].Waiting? && states[i].lock == Some(l.thread))
  {
    var s := states[i];
    FileInvHolds(c, states, labels, i);
    var mover := if s.pcs[t].Waiting? && s.lock.Some? then s.lock.value else t;
    assert s.lock.Some? ==> Holding(s.pcs[s.lock.value]);
    CanMove(c, s, mover);
    l := Label(mover, NextAction(c, s, s.pcs[mover]));
  }

  // ---- A record of an unknown provider ---------------------------------------------------------------------

  /** The patrol still has to look at the record, or has crashed. */
  predicate ComesTo(s: State, m: Meta) {
    && Patrol in s.pcs
    && (m in Todo(s.pcs[Patrol]) || (s.pcs[Patrol].Judging? && s.pcs[Patrol].meta == m) || s.pcs[Patrol].Crashed?)
  }

  lemma TakeComesTo(c: Setting, s: State, m: Meta)
    requires Enabled(s, Label(Patrol, TakeNext)) && ComesTo(s, m)
    ensures ComesTo(Step(c, s, Label(Patrol, TakeNext)), m)
  {
    var todo := s.pcs[Patrol].todo;
    assert todo == [todo[0]] + todo[1..];
  }

  lemma ComesToStep(c: Setting, s: State, l: Label, m: Meta)
    requires Enabled(s, l) && PatrolStaysOut(s) && ComesTo(s, m) && m.providerName !in c.providers
    ensures ComesTo(Step(c, s, l), m)
  {
    if l.thread != Patrol || l.action.Tick? {
      StepIsLocal(c, s, l);
    } else if Writes(l.action) {
      TodoAfterWrite(c, s, l.action);
    } else {
      match l.action
      case TakeNext => TakeComesTo(c, s, m);
      case Look =>
      case Weigh(_, _) =>
      case Call(_) =>
      case _ =>
    }
  }

  lemma {:induction false} ComesToForEver(
    c: Setting, states: seq<State>, labels: seq<Label>, m: Meta, i: nat, last: nat)
    requires Run(c, states, labels) && i <= last < |states| && ComesTo(states[i], m) && m.providerName !in c.providers
    ensures ComesTo(states[last], m)
    decreases last
  {
    if i < last {
      ComesToForEver(c, states, labels, m, i, last - 1);
      assert StepOk(c, states, labels, last - 1);
      SessionInvHolds(c, states, labels, last - 1);
      ComesToStep(c, states[last - 1], labels[last - 1], m);
    }
  }

  /**
   * One record of a provider that is not configured, and the patrol never completes another
   * round: it crashes when it comes to that record.
   */
  lemma UnknownProviderStopsPatrol(
    c: Setting, states: seq<State>, labels: seq<Label>, m: Meta, first: nat, last: nat)
    requires Run(c, states, labels) && first < last < |states| && labels[first] == Label(Patrol, Snapshot)
    requires !BeingWritten(states[first]) && m in Recorded(c, states[first]) && m.providerName !in c.providers
    ensures !PatrolSleeps(states[last])
  {
    assert StepOk(c, states, labels, first);
    ReadsAreWhole(c, states, labels, first, states[first].clock);
    SnapshotComesTo(c, states[first], m);
    ComesToForEver(c, states, labels, m, first + 1, last);
  }

  lemma SnapshotComesTo(c: Setting, s: State, m: Meta)
    requires Enabled(s, Label(Patrol, Snapshot)) && Load(s.disk, s.clock).Success? && m in Load(s.disk, s.clock).value
    ensures ComesTo(Step(c, s, Label(Patrol, Snapshot)), m)
  {
  }
}
