/** Concrete runs: what the interleavings do lead to. */
module LifecycleRuns {
  import opened Wrappers
  import opened Billing
  import opened ServerFile
  import opened Sessions
  import opened Killer
  import opened Lifecycle
  import opened LifecycleFile
  import opened LifecycleSafety
  import opened LifecycleServers
  import opened LifecycleDeadline

  /** A run goes on by one step. */
  lemma Advance(c: Setting, states: seq<State>, labels: seq<Label>, l: Label)
    returns (states': seq<State>, labels': seq<Label>)
    requires Run(c, states, labels)
    requires Enabled(states[|labels|], l) && Truthful(c, states[|labels|], l)
    ensures Run(c, states', labels')
    ensures states' == states + [Step(c, states[|labels|], l)] && labels' == labels + [l]
  {
    var s, s' := states[|labels|], Step(c, states[|labels|], l);
    states', labels' := states + [s'], labels + [l];
    forall i: nat | i < |labels'| ensures StepOk(c, states', labels', i) {
      if i < |labels| {
        assert StepOk(c, states, labels, i);
      }
    }
  }

  /** The start state of a lobby that knows one server. */
  function StartWith(m: Meta, clock: int): State {
    State(clock, Some(Save([m])), None, map[], {m.serverName}, map[Patrol := Sleeping], 0, [],
          {m.serverName}, {m.serverName}, {})
  }

  lemma StartIsInit(c: Setting, m: Meta, clock: int)
    requires c.initial == [m]
    ensures Init(c, StartWith(m, clock)) && Run(c, [StartWith(m, clock)], [])
    ensures Load(Some(Save([m])), clock) == Success([m])
  {
    assert NameSet([m]) == {m.serverName};
    SaveOnDisk([m]);
  }

  /** The patrol has found the only server idle and is about to weigh its age. */
  lemma PatrolLooks(c: Setting, m: Meta, clock: int) returns (states: seq<State>, labels: seq<Label>)
    requires c.initial == [m] && m.providerName in c.providers
    ensures Run(c, states, labels) && |labels| == 3
    ensures states[3] == StartWith(m, clock).(pcs := map[Patrol := Weighing(m, [])])
  {
    StartIsInit(c, m, clock);
    states, labels := Advance(c, [StartWith(m, clock)], [], Label(Patrol, Snapshot));
    assert states[1].pcs == map[Patrol := Scanning([m])];
    states, labels := Advance(c, states, labels, Label(Patrol, TakeNext));
    assert [m][1..] == [] && states[2].pcs == map[Patrol := Judging(m, [])];
    states, labels := Advance(c, states, labels, Label(Patrol, Look));
    assert states[3].pcs == map[Patrol := Weighing(m, [])];
  }

  /** Then it decides to destroy it. */
  lemma PatrolDooms(c: Setting, m: Meta, clock: int) returns (states: seq<State>, labels: seq<Label>)
    requires c.initial == [m] && m.manage && m.providerName in c.providers
    requires ReadDuration(c.providers[m.providerName].minLifeToLive) == Success(0)
    ensures Run(c, states, labels) && |labels| == 4
    ensures states[4] == StartWith(m, clock).(pcs := map[Patrol := Doomed(m, [])])
  {
    states, labels := PatrolLooks(c, m, clock);
    states, labels := Advance(c, states, labels, Label(Patrol, Weigh(0, Success(Destroy(NoMinimumLife)))));
    assert states[4].pcs == map[Patrol := Doomed(m, [])];
  }

  /** A visitor connects and reads the menu. */
  lemma VisitorReads(c: Setting, servers: seq<Meta>, p: Peer, states: seq<State>, labels: seq<Label>)
    returns (states': seq<State>, labels': seq<Label>)
    requires Run(c, states, labels)
    requires var s := states[|labels|]; Handler(p) !in s.pcs && Load(s.disk, s.clock) == Success(servers)
    ensures Run(c, states', labels') && |labels'| == |labels| + 2 && states <= states' && labels <= labels'
    ensures var s := states[|labels|]; states'[|labels'|] == s.(pcs := s.pcs[Handler(p) := AtMenu(servers)])
  {
    var h, n := Handler(p), |labels|;
    states', labels' := Advance(c, states, labels, Label(h, Connect));
    states', labels' := Advance(c, states', labels', Label(h, ReadMenu));
    assert states'[n + 2].pcs == states[n].pcs[h := AtMenu(servers)];
  }

  /** Then he picks the only server and enters it. */
  lemma VisitorEnters(c: Setting, m: Meta, p: Peer, states: seq<State>, labels: seq<Label>)
    returns (states': seq<State>, labels': seq<Label>)
    requires Run(c, states, labels) && m.providerName in c.providers
    requires var s := states[|labels|];
             && Handler(p) !in s.pcs && Load(s.disk, s.clock) == Success([m]) && s.table == map[]
    ensures Run(c, states', labels') && |labels'| == |labels| + 4
    ensures var s, s' := states[|labels|], states'[|labels'|];
            && SessionsOf(s'.table, m.serverName) == [p] && s'.live == s.live
            && s'.pcs == s.pcs[Handler(p) := Using(m, s.tickets)]
  {
    var h, n := Handler(p), |labels|;
    states', labels' := VisitorReads(c, [m], p, states, labels);
    states', labels' := Advance(c, states', labels', Label(h, Pick(0)));
    assert states'[n + 3].pcs[h] == Chosen(m);
    states', labels' := Advance(c, states', labels', Label(h, Enter));
    assert states'[n + 4].pcs == states[n].pcs[h := Using(m, states[n].tickets)];
  }

  /**
   * The race does happen: for every managed server without minimum life and every visitor there
   * is a run in which the server is destroyed while the visitor's session is registered.
   */
  lemma SessionCanBeKilled(c: Setting, m: Meta, clock: int, p: Peer) returns (states: seq<State>, labels: seq<Label>)
    requires c.initial == [m] && m.manage && m.providerName in c.providers
    requires ReadDuration(c.providers[m.providerName].minLifeToLive) == Success(0)
    ensures Run(c, states, labels) && |labels| == 9 && labels[8] == Label(Patrol, Call(Destroyed))
    ensures SessionsOf(states[8].table, m.serverName) == [p]
    ensures m.serverName in states[8].live && m.serverName !in states[9].live
  {
    StartIsInit(c, m, clock);
    states, labels := PatrolDooms(c, m, clock);
    states, labels := VisitorEnters(c, m, p, states, labels);
    states, labels := Advance(c, states, labels, Label(Patrol, Call(Destroyed)));
  }

  /** A visitor whose session ends with an exception leaves the server registered for ever. */
  lemma SessionCanGetStuck(c: Setting, m: Meta, clock: int, p: Peer) returns (states: seq<State>, labels: seq<Label>)
    requires c.initial == [m] && m.providerName in c.providers
    ensures Run(c, states, labels) && |labels| == 5 && labels[4] == Label(Handler(p), Crash)
    ensures StuckOn(states[5], p, m.serverName) && NobodyCondemns(states[5], m.serverName)
  {
    StartIsInit(c, m, clock);
    states, labels := VisitorEnters(c, m, p, [StartWith(m, clock)], []);
    states, labels := Advance(c, states, labels, Label(Handler(p), Crash));
  }

  // ---- Rewriting the file ----------------------------------------------------------------------------

  /** A thread with a change to make takes the lock. */
  lemma TakeLock(c: Setting, states: seq<State>, labels: seq<Label>, t: ThreadId, change: Change)
    returns (states': seq<State>, labels': seq<Label>)
    requires Run(c, states, labels)
    requires var s := states[|labels|]; t in s.pcs && s.pcs[t] == Waiting(change, []) && s.lock == None
    ensures Run(c, states', labels') && |labels'| == |labels| + 1 && states <= states' && labels <= labels'
    ensures var s := states[|labels|]; states'[|labels'|] == s.(lock := Some(t), pcs := s.pcs[t := Locked(change, [])])
  {
    states', labels' := Advance(c, states, labels, Label(t, Acquire));
  }

  /** It loads the records. */
  lemma LoadRecords(c: Setting, states: seq<State>, labels: seq<Label>, t: ThreadId, change: Change)
    returns (states': seq<State>, labels': seq<Label>)
    requires Run(c, states, labels)
    requires var s := states[|labels|];
             t in s.pcs && s.pcs[t] == Locked(change, []) && Load(s.disk, s.clock) == Success(Recorded(c, s))
    ensures Run(c, states', labels') && |labels'| == |labels| + 1 && states <= states' && labels <= labels'
    ensures var s := states[|labels|];
            states'[|labels'|] == s.(pcs := s.pcs[t := Loaded(change, [], Changed(Recorded(c, s), change))])
  {
    states', labels' := Advance(c, states, labels, Label(t, Reload));
  }

  /** It truncates the file. */
  lemma TruncateFile(c: Setting, states: seq<State>, labels: seq<Label>, t: ThreadId, change: Change, servers: seq<Meta>)
    returns (states': seq<State>, labels': seq<Label>)
    requires Run(c, states, labels)
    requires var s := states[|labels|]; t in s.pcs && s.pcs[t] == Loaded(change, [], servers)
    ensures Run(c, states', labels') && |labels'| == |labels| + 1 && states <= states' && labels <= labels'
    ensures var s := states[|labels|];
            states'[|labels'|] == s.(disk := Some(""), pcs := s.pcs[t := Writing(change, [], Save(servers), 0)])
  {
    states', labels' := Advance(c, states, labels, Label(t, Truncate));
  }

  /** From the waiting for the lock to the records in memory. */
  lemma LockAndLoad(c: Setting, states: seq<State>, labels: seq<Label>, t: ThreadId, change: Change)
    returns (states': seq<State>, labels': seq<Label>)
    requires Run(c, states, labels)
    requires var s := states[|labels|]; t in s.pcs && s.pcs[t] == Waiting(change, []) && s.lock == None
    ensures Run(c, states', labels') && |labels'| == |labels| + 2 && states <= states' && labels <= labels'
    ensures var s := states[|labels|];
            states'[|labels'|]
            == s.(lock := Some(t), pcs := s.pcs[t := Loaded(change, [], Changed(Recorded(c, s), change))])
  {
    var s := states[|labels|];
    states', labels' := TakeLock(c, states, labels, t, change);
    ReadsAreWhole(c, states', labels', |labels'|, s.clock);
    states', labels' := LoadRecords(c, states', labels', t, change);
    assert states'[|labels'|].pcs == s.pcs[t := Loaded(change, [], Changed(Recorded(c, s), change))];
  }

  /** And on to the truncated file. */
  lemma BeginWrite(c: Setting, states: seq<State>, labels: seq<Label>, t: ThreadId, change: Change)
    returns (states': seq<State>, labels': seq<Label>)
    requires Run(c, states, labels)
    requires var s := states[|labels|]; t in s.pcs && s.pcs[t] == Waiting(change, []) && s.lock == None
    ensures Run(c, states', labels') && |labels'| == |labels| + 3 && states <= states' && labels <= labels'
    ensures var s := states[|labels|];
            states'[|labels'|]
            == s.(lock := Some(t), disk := Some(""),
                  pcs := s.pcs[t := Writing(change, [], Save(Changed(Recorded(c, s), change)), 0)])
  {
    var s := states[|labels|];
    var servers := Changed(Recorded(c, s), change);
    states', labels' := LockAndLoad(c, states, labels, t, change);
    states', labels' := TruncateFile(c, states', labels', t, change, servers);
    assert states'[|labels'|].pcs == s.pcs[t := Writing(change, [], Save(servers), 0)];
  }

  /** Everything but the file and its history is as before. */
  predicate SameWorld(s: State, s': State) {
    s'.live == s.live && s'.leaked == s.leaked && s'.table == s.table && s'.clock == s.clock && s'.tickets == s.tickets
  }

  /** It writes the new text in one piece. */
  lemma WriteText(c: Setting, states: seq<State>, labels: seq<Label>, t: ThreadId, change: Change, text: string)
    returns (states': seq<State>, labels': seq<Label>)
    requires Run(c, states, labels) && text != ""
    requires var s := states[|labels|]; t in s.pcs && s.pcs[t] == Writing(change, [], text, 0)
    ensures Run(c, states', labels') && |labels'| == |labels| + 1 && states <= states' && labels <= labels'
    ensures var s, s' := states[|labels|], states'[|labels'|];
            && s'.pcs == s.pcs[t := Written(change, [])]
            && SameWorld(s, s') && s'.log == s.log + [change]
  {
    states', labels' := Advance(c, states, labels, Label(t, Write(|text|)));
  }

  /** It releases the lock. */
  lemma ReleaseLock(c: Setting, states: seq<State>, labels: seq<Label>, t: ThreadId, change: Change)
    returns (states': seq<State>, labels': seq<Label>)
    requires Run(c, states, labels)
    requires var s := states[|labels|]; t in s.pcs && s.pcs[t] == Written(change, [])
    ensures Run(c, states', labels') && |labels'| == |labels| + 1 && states <= states' && labels <= labels'
    ensures var s := states[|labels|];
            states'[|labels'|] == s.(lock := None, pcs := s.pcs[t := Resumed(t, change, [])])
  {
    states', labels' := Advance(c, states, labels, Label(t, Release));
  }

  /** From the waiting for the lock to its release. */
  lemma CompleteChange(c: Setting, states: seq<State>, labels: seq<Label>, t: ThreadId, change: Change)
    returns (states': seq<State>, labels': seq<Label>)
    requires Run(c, states, labels)
    requires var s := states[|labels|]; t in s.pcs && s.pcs[t] == Waiting(change, []) && s.lock == None
    ensures Run(c, states', labels') && |labels'| == |labels| + 5 && states <= states' && labels <= labels'
    ensures var s, s' := states[|labels|], states'[|labels'|];
            && s'.pcs == s.pcs[t := Resumed(t, change, [])] && s'.lock == None
            && SameWorld(s, s') && s'.log == s.log + [change]
  {
    var s := states[|labels|];
    SaveIsText(Changed(Recorded(c, s), change));
    states', labels' := BeginWrite(c, states, labels, t, change);
    states', labels' := WriteText(c, states', labels', t, change, Save(Changed(Recorded(c, s), change)));
    states', labels' := ReleaseLock(c, states', labels', t, change);
    assert states'[|labels'|].pcs == s.pcs[t := Resumed(t, change, [])];
  }

  /** The provider has reported a failure to the patrol, which goes on to remove the record. */
  lemma PatrolFails(c: Setting, m: Meta, clock: int) returns (states: seq<State>, labels: seq<Label>)
    requires c.initial == [m] && m.manage && m.providerName in c.providers
    requires ReadDuration(c.providers[m.providerName].minLifeToLive) == Success(0)
    ensures Run(c, states, labels) && |labels| == 5 && labels[4] == Label(Patrol, Call(ReportsFailure))
    ensures states[5] == StartWith(m, clock).(pcs := map[Patrol := Waiting(Remove(m), [])], leaked := {m.serverName})
  {
    states, labels := PatrolDooms(c, m, clock);
    states, labels := Advance(c, states, labels, Label(Patrol, Call(ReportsFailure)));
    assert states[5].pcs == map[Patrol := Waiting(Remove(m), [])];
    assert states[5].leaked == {m.serverName};
  }

  /**
   * A failure that the provider reports by its return value does leave a living server that the
   * file has forgotten.
   */
  lemma ServerCanLeak(c: Setting, m: Meta, clock: int) returns (states: seq<State>, labels: seq<Label>)
    requires c.initial == [m] && m.manage && m.providerName in c.providers
    requires ReadDuration(c.providers[m.providerName].minLifeToLive) == Success(0)
    ensures Run(c, states, labels) && |labels| == 10 && labels[4] == Label(Patrol, Call(ReportsFailure))
    ensures AtRest(states[10]) && m.serverName in states[10].live
    ensures Load(states[10].disk, clock).Success? && m.serverName !in NameSet(Load(states[10].disk, clock).value)
  {
    states, labels := PatrolFails(c, m, clock);
    states, labels := CompleteChange(c, states, labels, Patrol, Remove(m));
    assert states[10].pcs == map[Patrol := Scanning([])];
    LeakedAtRest(c, states, labels, 10, clock);
    assert m.serverName in states[10].leaked;
  }

  /** A visitor creates a server. */
  lemma VisitorCreates(c: Setting, states: seq<State>, labels: seq<Label>, t: ThreadId, snapshot: seq<Meta>, m: Meta)
    returns (states': seq<State>, labels': seq<Label>)
    requires Run(c, states, labels)
    requires var s := states[|labels|]; t in s.pcs && s.pcs[t] == AtMenu(snapshot) && m.serverName !in s.used
    ensures Run(c, states', labels') && |labels'| == |labels| + 1 && states <= states' && labels <= labels'
    ensures var s, s' := states[|labels|], states'[|labels'|];
            && s'.pcs == s.pcs[t := Waiting(Add(m), [])] && s'.live == s.live + {m.serverName}
            && s'.lock == s.lock && s'.log == s.log && s'.table == s.table && s'.clock == s.clock
  {
    states', labels' := Advance(c, states, labels, Label(t, Create(m)));
  }

  /** A visitor has created a server and is about to write its record to the truncated file. */
  lemma VisitorBeginsWrite(c: Setting, m: Meta, clock: int, p: Peer, created: Meta)
    returns (states: seq<State>, labels: seq<Label>)
    requires c.initial == [m] && created.serverName != m.serverName
    ensures Run(c, states, labels) && |labels| == 6
    ensures var s := states[6];
            && s.pcs.Keys == {Patrol, Handler(p)} && s.pcs[Patrol].Sleeping? && s.disk == Some("")
            && s.pcs[Handler(p)] == Writing(Add(created), [], Save(Update([m], [created], [])), 0)
            && s.lock == Some(Handler(p)) && Recorded(c, s) == [m] && m.serverName in s.live
  {
    var h := Handler(p);
    StartIsInit(c, m, clock);
    states, labels := VisitorReads(c, [m], p, [StartWith(m, clock)], []);
    states, labels := VisitorCreates(c, states, labels, h, [m], created);
    assert states[3].pcs == map[Patrol := Sleeping, h := Waiting(Add(created), [])];
    states, labels := BeginWrite(c, states, labels, h, Add(created));
  }

  /** Any number of characters of the new text may have reached the file. */
  lemma WritePart(c: Setting, states: seq<State>, labels: seq<Label>, t: ThreadId, written: nat)
    returns (states': seq<State>, labels': seq<Label>)
    requires Run(c, states, labels)
    requires var s := states[|labels|];
             t in s.pcs && s.pcs[t].Writing? && s.pcs[t].written < written < |s.pcs[t].text|
    ensures Run(c, states', labels') && |labels'| == |labels| + 1 && states <= states' && labels <= labels'
    ensures var s := states[|labels|];
            states'[|labels'|]
            == s.(disk := Some(s.pcs[t].text[..written]), pcs := s.pcs[t := s.pcs[t].(written := written)])
  {
    states', labels' := Advance(c, states, labels, Label(t, Write(written)));
  }

  /** A patrol that reads the file while another thread rewrites it finds no server and goes to sleep again. */
  lemma PatrolSkips(c: Setting, states: seq<State>, labels: seq<Label>)
    returns (states': seq<State>, labels': seq<Label>)
    requires Run(c, states, labels)
    requires PatrolSleeps(states[|labels|]) && BeingWritten(states[|labels|])
    ensures Run(c, states', labels') && |labels'| == |labels| + 2 && states <= states' && labels <= labels'
    ensures labels'[|labels|] == Label(Patrol, Snapshot)
    ensures PatrolSleeps(states'[|labels'|])
  {
    ReadsAreWhole(c, states, labels, |labels|, states[|labels|].clock);
    states', labels' := Advance(c, states, labels, Label(Patrol, Snapshot));
    assert states'[|labels'|].pcs[Patrol] == Scanning([]);
    states', labels' := Advance(c, states', labels', Label(Patrol, TakeNext));
  }

  /**
   * A whole round may pass over every recorded server, whatever it costs: the patrol reads when
   * the file is truncated, or when any number of characters of the new text are written.
   */
  lemma RoundCanSkip(c: Setting, m: Meta, clock: int, p: Peer, created: Meta, written: nat)
    returns (states: seq<State>, labels: seq<Label>, snapshot: nat)
    requires c.initial == [m] && created.serverName != m.serverName
    requires written < |Save(Update([m], [created], []))|
    ensures Run(c, states, labels) && snapshot + 2 == |labels| && labels[snapshot] == Label(Patrol, Snapshot)
    ensures states[snapshot].disk == Some(Save(Update([m], [created], []))[..written]) && BeingWritten(states[snapshot])
    ensures Recorded(c, states[snapshot]) == [m] && m.serverName in states[snapshot].live
    ensures PatrolSleeps(states[snapshot]) && PatrolSleeps(states[snapshot + 2])
  {
    states, labels := VisitorBeginsWrite(c, m, clock, p, created);
    assert Save(Update([m], [created], []))[..0] == "";
    if written > 0 {
      states, labels := WritePart(c, states, labels, Handler(p), written);
    }
    snapshot := |labels|;
    states, labels := PatrolSkips(c, states, labels);
  }

  // ---- A first visit ---------------------------------------------------------------------------------

  /** The start state of a lobby without a server file. */
  function EmptyStart(clock: int): State {
    State(clock, None, None, map[], {}, map[Patrol := Sleeping], 0, [], {}, {}, {})
  }

  lemma EmptyStartIsInit(c: Setting, clock: int)
    requires c.initial == []
    ensures Init(c, EmptyStart(clock)) && Run(c, [EmptyStart(clock)], [])
    ensures Load(None, clock) == Success([])
  {
    forall now ensures Load(None, now) == Success([]) {
      LoadOfMissing(now);
    }
    assert NameSet([]) == {};
  }

  /** A visitor finds no servers and has one created. */
  lemma FirstCreated(c: Setting, m: Meta, clock: int, p: Peer) returns (states: seq<State>, labels: seq<Label>)
    requires c.initial == []
    ensures Run(c, states, labels) && |labels| == 3 && states[0].disk == None
    ensures var s := states[3];
            && s.pcs == map[Patrol := Sleeping, Handler(p) := Waiting(Add(m), [])] && s.live == {m.serverName}
            && s.lock == None && s.table == map[] && s.log == [] && s.clock == clock
  {
    EmptyStartIsInit(c, clock);
    states, labels := VisitorReads(c, [], p, [EmptyStart(clock)], []);
    states, labels := VisitorCreates(c, states, labels, Handler(p), [], m);
    assert states[3].pcs == map[Patrol := Sleeping, Handler(p) := Waiting(Add(m), [])];
  }

  /** A thread enters the server that it has chosen. */
  lemma VisitorUses(c: Setting, states: seq<State>, labels: seq<Label>, p: Peer, m: Meta)
    returns (states': seq<State>, labels': seq<Label>)
    requires Run(c, states, labels) && m.providerName in c.providers
    requires var s := states[|labels|]; Handler(p) in s.pcs && s.pcs[Handler(p)] == Chosen(m)
    ensures Run(c, states', labels') && |labels'| == |labels| + 1 && states <= states' && labels <= labels'
    ensures var s, s' := states[|labels|], states'[|labels'|];
            && s'.pcs == s.pcs[Handler(p) := Using(m, s.tickets)]
            && s'.table == Attached(s.table, m.serverName, p)
            && s'.disk == s.disk && s'.live == s.live && s'.lock == s.lock && s'.log == s.log && s'.clock == s.clock
  {
    states', labels' := Advance(c, states, labels, Label(Handler(p), Enter));
  }

  lemma FoldOfOne(m: Meta)
    ensures Fold([], [Add(m)]) == [m] && Fold([], [Add(m), Remove(m)]) == []
  {
    var added, log := [Add(m)], [Add(m), Remove(m)];
    assert added[..0] == [] && log[..1] == added;
    UpdateOne([], m);
    UpdateOne([m], m);
    assert [m][1..] == [];
  }

  lemma FirstRecorded(c: Setting, m: Meta, clock: int, p: Peer) returns (states: seq<State>, labels: seq<Label>)
    requires c.initial == []
    ensures Run(c, states, labels) && |labels| == 8 && states[0].disk == None
    ensures var s := states[8];
            && s.pcs == map[Patrol := Sleeping, Handler(p) := Chosen(m)] && s.live == {m.serverName}
            && s.lock == None && s.table == map[] && s.log == [Add(m)] && s.clock == clock
  {
    states, labels := FirstCreated(c, m, clock, p);
    states, labels := CompleteChange(c, states, labels, Handler(p), Add(m));
    assert states[8].pcs == map[Patrol := Sleeping, Handler(p) := Chosen(m)];
  }

  lemma TableOfOne(name: string, p: Peer)
    ensures Attached(map[], name, p) == map[name := [p]]
    ensures Detached(map[name := [p]], name, p) == map[name := []]
  {
    assert [] + [p] == [p] && [p][1..] == [];
    assert Others([p], p) == Others([p][1..], p) == [];
    var table := map[name := [p]];
    assert SessionsOf(table, name) == [p];
    assert table[name := []] == map[name := []];
  }

  /** A lobby in which one visitor uses the only server. */
  predicate OneVisitor(s: State, m: Meta, p: Peer, ticket: nat) {
    && s.pcs == map[Patrol := Sleeping, Handler(p) := Using(m, ticket)]
    && s.table == map[m.serverName := [p]] && s.live == {m.serverName} && s.lock == None && s.log == [Add(m)]
  }

  /** Without a server file, the first server is created, recorded and entered. */
  lemma FirstServer(c: Setting, m: Meta, clock: int, p: Peer)
    returns (states: seq<State>, labels: seq<Label>, ticket: nat)
    requires c.initial == [] && m.providerName in c.providers
    ensures Run(c, states, labels) && |labels| == 9 && states[0].disk == None
    ensures OneVisitor(states[9], m, p, ticket) && Load(states[9].disk, clock) == Success([m])
  {
    states, labels := FirstRecorded(c, m, clock, p);
    ticket := states[8].tickets;
    TableOfOne(m.serverName, p);
    states, labels := VisitorUses(c, states, labels, p, m);
    assert states[9].pcs == map[Patrol := Sleeping, Handler(p) := Using(m, ticket)];
    FoldOfOne(m);
    NoLostUpdates(c, states, labels, 9, clock);
  }

  /** The visitor leaves his server and looks whether anybody else is there. */
  lemma VisitorLeaves(c: Setting, states: seq<State>, labels: seq<Label>, p: Peer, m: Meta, ticket: nat)
    returns (states': seq<State>, labels': seq<Label>)
    requires Run(c, states, labels) && m.providerName in c.providers
    requires var s := states[|labels|];
             && Handler(p) in s.pcs && s.pcs[Handler(p)] == Using(m, ticket) && s.table == map[m.serverName := [p]]
    ensures Run(c, states', labels') && |labels'| == |labels| + 2 && states <= states' && labels <= labels'
    ensures var s := states[|labels|];
            states'[|labels'|] == s.(table := map[m.serverName := []], pcs := s.pcs[Handler(p) := Weighing(m, [])])
  {
    var h, s := Handler(p), states[|labels|];
    states', labels' := Advance(c, states, labels, Label(h, Leave));
    TableOfOne(m.serverName, p);
    assert states'[|labels'|] == s.(table := map[m.serverName := []], pcs := s.pcs[h := Judging(m, [])]);
    states', labels' := Advance(c, states', labels', Label(h, Look));
    assert states'[|labels'|].pcs == s.pcs[h := Weighing(m, [])];
  }

  /** The minimum life is zero, so the visitor's thread calls the provider. */
  lemma VisitorDestroys(c: Setting, states: seq<State>, labels: seq<Label>, t: ThreadId, m: Meta)
    returns (states': seq<State>, labels': seq<Label>)
    requires Run(c, states, labels) && m.manage && m.providerName in c.providers
    requires ReadDuration(c.providers[m.providerName].minLifeToLive) == Success(0)
    requires var s := states[|labels|]; t in s.pcs && s.pcs[t] == Weighing(m, [])
    ensures Run(c, states', labels') && |labels'| == |labels| + 2 && states <= states' && labels <= labels'
    ensures labels'[|labels| + 1] == Label(t, Call(Destroyed))
    ensures var s, s' := states[|labels|], states'[|labels'|];
            && s'.pcs == s.pcs[t := Waiting(Remove(m), [])] && s'.live == s.live - {m.serverName}
            && s'.table == s.table && s'.lock == s.lock && s'.log == s.log && s'.clock == s.clock
  {
    var s := states[|labels|];
    states', labels' := Advance(c, states, labels, Label(t, Weigh(0, Success(Destroy(NoMinimumLife)))));
    assert states'[|labels'|] == s.(pcs := s.pcs[t := Doomed(m, [])]);
    states', labels' := Advance(c, states', labels', Label(t, Call(Destroyed)));
    assert states'[|labels'|].pcs == s.pcs[t := Waiting(Remove(m), [])];
  }

  lemma LastVisitorDestroys(c: Setting, states: seq<State>, labels: seq<Label>, p: Peer, m: Meta, ticket: nat)
    returns (states': seq<State>, labels': seq<Label>)
    requires Run(c, states, labels) && OneVisitor(states[|labels|], m, p, ticket)
    requires m.manage && m.providerName in c.providers
    requires ReadDuration(c.providers[m.providerName].minLifeToLive) == Success(0)
    ensures Run(c, states', labels') && |labels'| == |labels| + 4 && states <= states' && labels <= labels'
    ensures labels'[|labels| + 3] == Label(Handler(p), Call(Destroyed))
    ensures var s := states'[|labels'|];
            && s.pcs == map[Patrol := Sleeping, Handler(p) := Waiting(Remove(m), [])] && s.live == {}
            && s.table == map[m.serverName := []] && s.lock == None && s.log == [Add(m)]
  {
    states', labels' := VisitorLeaves(c, states, labels, p, m, ticket);
    states', labels' := VisitorDestroys(c, states', labels', Handler(p), m);
    assert states'[|labels'|].pcs == map[Patrol := Sleeping, Handler(p) := Waiting(Remove(m), [])];
  }

  /**
   * A whole visit to a lobby without servers: for every managed server without minimum life there
   * is a run in which it is created, used, left and destroyed by the visitor's thread, and in the
   * end the file lists no server, none lives and no session is registered.
   */
  lemma WholeVisit(c: Setting, m: Meta, clock: int, p: Peer) returns (states: seq<State>, labels: seq<Label>)
    requires c.initial == [] && m.manage && m.providerName in c.providers
    requires ReadDuration(c.providers[m.providerName].minLifeToLive) == Success(0)
    ensures Run(c, states, labels) && |labels| == 18 && states[0].disk == None
    ensures Load(states[9].disk, clock) == Success([m]) && SessionsOf(states[9].table, m.serverName) == [p]
    ensures labels[12] == Label(Handler(p), Call(Destroyed))
    ensures var s := states[18];
            && Load(s.disk, clock) == Success([]) && s.live == {} && SessionsOf(s.table, m.serverName) == []
            && s.pcs == map[Patrol := Sleeping, Handler(p) := Finished]
  {
    var ticket;
    states, labels, ticket := FirstServer(c, m, clock, p);
    states, labels := LastVisitorDestroys(c, states, labels, p, m, ticket);
    states, labels := CompleteChange(c, states, labels, Handler(p), Remove(m));
    assert states[18].pcs == map[Patrol := Sleeping, Handler(p) := Finished];
    FoldOfOne(m);
    NoLostUpdates(c, states, labels, 18, clock);
  }
}
