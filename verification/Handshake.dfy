/**
 * The terminal handshake: the transport's callbacks for pty and shell requests (sections 6.2 and
 * 6.5 of RFC 4254) against the connection thread that waits for a shell.
 */
module Handshake {
  import opened Wrappers

  /** One end of a pseudo terminal: `pty` numbers the terminals in the order in which they are opened. */
  datatype Fd = Master(pty: nat) | Slave(pty: nat)

  /** The fields of the server object that the callbacks set. */
  class Server {
    var ptyEvent: bool
    var shellEvent: bool
    var masterFd: Option<Fd>
    var slaveFd: Option<Fd>
    var windowWidth: nat
    var windowHeight: nat

    ghost predicate Valid()
      reads this
    {
      (shellEvent ==> ptyEvent) && (ptyEvent ==> masterFd.Some? && slaveFd.Some?)
    }

    constructor ()
      ensures Valid() && !ptyEvent && !shellEvent && masterFd == slaveFd == None
    {
      ptyEvent, shellEvent := false, false;
      masterFd, slaveFd := None, None;
      windowWidth, windowHeight := 0, 0;
    }

    /** `check_channel_pty_request`; setting the window size may raise, and then the event is not set. */
    method CheckChannelPtyRequest(pty: nat, width: nat, height: nat, resizeRaises: bool) returns (accepted: bool)
      requires Valid()
      modifies this
      ensures Valid()
      ensures masterFd == Some(Master(pty)) && slaveFd == Some(Slave(pty))
      ensures windowWidth == width && windowHeight == height
      ensures accepted == !resizeRaises && ptyEvent == (old(ptyEvent) || accepted) && shellEvent == old(shellEvent)
    {
      masterFd, slaveFd := Some(Master(pty)), Some(Slave(pty));
      windowWidth, windowHeight := width, height;
      if resizeRaises {
        return false;
      }
      ptyEvent := true;
      accepted := true;
    }

    /** `check_channel_shell_request`, when the wait for a terminal is over; false stands for the exception. */
    method CheckChannelShellRequest() returns (accepted: bool)
      requires Valid()
      modifies this`shellEvent
      ensures Valid()
      ensures accepted == ptyEvent && shellEvent == (old(shellEvent) || accepted)
    {
      if !ptyEvent {
        return false;
      }
      shellEvent := true;
      accepted := true;
    }
  }

  // ---- All interleavings -------------------------------------------------------------------------------

  /** A pty callback stores the two ends one after the other, then sets the event. */
  datatype PtyCall = Opened | MasterStored | SlaveStored | PtyDone

  /** A shell callback waits for the event, then sets its own. */
  datatype ShellCall = WaitsForPty | FoundPty | ShellDone

  /** The connection thread: it waits, checks again, hands the slave to the process, then pumps the master. */
  datatype Thread =
    | WaitsForShell
    | Woken
    | EndsWithoutShell
    | Spawned(slave: Option<Fd>)
    | Pumping(slave: Option<Fd>, master: Option<Fd>)

  datatype State = State(
    ptyEvent: bool,
    shellEvent: bool,
    masterFd: Option<Fd>,
    slaveFd: Option<Fd>,
    ptys: map<nat, PtyCall>,
    shells: map<nat, ShellCall>,
    thread: Thread)

  const START := State(false, false, None, None, map[], map[], WaitsForShell)

  datatype Event =
    | RequestPty(pty: nat)
    | StoreMaster(pty: nat)
    | StoreSlave(pty: nat)
    | SetPtyEvent(pty: nat)
    | PtyFails(pty: nat)
    | RequestShell(id: nat)
    | PassPtyWait(id: nat)
    | ShellTimesOut(id: nat)
    | SetShellEvent(id: nat)
    | Wake
    | CheckShell
    | Pump

  predicate Enabled(s: State, e: Event) {
    match e
    case RequestPty(p) => p !in s.ptys
    case StoreMaster(p) => p in s.ptys && s.ptys[p] == Opened
    case StoreSlave(p) => p in s.ptys && s.ptys[p] == MasterStored
    case SetPtyEvent(p) => p in s.ptys && s.ptys[p] == SlaveStored
    case PtyFails(p) => p in s.ptys && s.ptys[p] == SlaveStored
    case RequestShell(i) => i !in s.shells
    case PassPtyWait(i) => i in s.shells && s.shells[i] == WaitsForPty && s.ptyEvent
    case ShellTimesOut(i) => i in s.shells && s.shells[i] == WaitsForPty && !s.ptyEvent
    case SetShellEvent(i) => i in s.shells && s.shells[i] == FoundPty
    case Wake => s.thread.WaitsForShell? && s.shellEvent
    case CheckShell => s.thread.Woken?
    case Pump => s.thread.Spawned?
  }

  function Step(s: State, e: Event): State
    requires Enabled(s, e)
  {
    match e
    case RequestPty(p) => s.(ptys := s.ptys[p := Opened])
    case StoreMaster(p) => s.(ptys := s.ptys[p := MasterStored], masterFd := Some(Master(p)))
    case StoreSlave(p) => s.(ptys := s.ptys[p := SlaveStored], slaveFd := Some(Slave(p)))
    case SetPtyEvent(p) => s.(ptys := s.ptys[p := PtyDone], ptyEvent := true)
    case PtyFails(p) => s.(ptys := s.ptys[p := PtyDone])
    case RequestShell(i) => s.(shells := s.shells[i := WaitsForPty])
    case PassPtyWait(i) => s.(shells := s.shells[i := FoundPty])
    case ShellTimesOut(i) => s.(shells := s.shells[i := ShellDone])
    case SetShellEvent(i) => s.(shells := s.shells[i := ShellDone], shellEvent := true)
    case Wake => s.(thread := Woken)
    case CheckShell => s.(thread := if s.shellEvent then Spawned(s.slaveFd) else EndsWithoutShell)
    case Pump => s.(thread := Pumping(s.thread.slave, s.masterFd))
  }

  ghost predicate StepOk(states: seq<State>, events: seq<Event>, i: nat)
    requires i < |events| < |states|
  {
    Enabled(states[i], events[i]) && states[i + 1] == Step(states[i], events[i])
  }

  ghost predicate Run(states: seq<State>, events: seq<Event>) {
    && |states| == |events| + 1
    && states[0] == START
    && forall i: nat | i < |events| :: StepOk(states, events, i)
  }

  predicate BothStored(s: State) {
    s.masterFd.Some? && s.masterFd.value.Master? && s.slaveFd.Some? && s.slaveFd.value.Slave?
  }

  ghost predicate Inv(s: State) {
    && (forall p | p in s.ptys && s.ptys[p] == MasterStored :: s.masterFd.Some? && s.masterFd.value.Master?)
    && (forall p | p in s.ptys && (s.ptys[p] == SlaveStored || s.ptys[p] == PtyDone) :: BothStored(s))
    && (s.ptyEvent ==> BothStored(s))
    && (forall i | i in s.shells && s.shells[i] == FoundPty :: s.ptyEvent)
    && (s.shellEvent ==> s.ptyEvent)
    && (!s.thread.WaitsForShell? ==> s.shellEvent)
    && !s.thread.EndsWithoutShell?
    && (s.thread.Spawned? ==> s.thread.slave.Some? && s.thread.slave.value.Slave?)
    && (s.thread.Pumping? ==>
          && s.thread.slave.Some? && s.thread.slave.value.Slave?
          && s.thread.master.Some? && s.thread.master.value.Master?)
  }

  lemma InvStep(s: State, e: Event)
    requires Inv(s) && Enabled(s, e)
    ensures Inv(Step(s, e))
  {
  }

  lemma {:induction false} InvHolds(states: seq<State>, events: seq<Event>, i: nat)
    requires Run(states, events) && i < |states|
    ensures Inv(states[i])
  {
    if i > 0 {
      assert StepOk(states, events, i - 1);
      InvHolds(states, events, i - 1);
      InvStep(states[i - 1], events[i - 1]);
    }
  }

  /**
   * Terminal before shell: in every interleaving the connection thread passes its wait only when
   * both ends of a terminal are stored, the process gets the slave end of one, and the branch for
   * a client that never asked for a shell is unreachable.
   */
  lemma PtyBeforeShell(states: seq<State>, events: seq<Event>, i: nat)
    requires Run(states, events) && i < |states|
    ensures var s := states[i];
            && !s.thread.EndsWithoutShell?
            && (!s.thread.WaitsForShell? ==> s.shellEvent && s.ptyEvent && BothStored(s))
            && (s.thread.Spawned? || s.thread.Pumping? ==> exists p :: s.thread.slave == Some(Slave(p)))
            && (s.thread.Pumping? ==> exists p :: s.thread.master == Some(Master(p)))
  {
    InvHolds(states, events, i);
    var s := states[i];
    if s.thread.Spawned? || s.thread.Pumping? {
      assert s.thread.slave == Some(Slave(s.thread.slave.value.pty));
    }
    if s.thread.Pumping? {
      assert s.thread.master == Some(Master(s.thread.master.value.pty));
    }
  }

  predicate SetsPty(e: Event) {
    e.SetPtyEvent?
  }

  predicate SetsShell(e: Event) {
    e.SetShellEvent?
  }

  /** The events are set by successful requests and by nothing else: not by a request that fails or times out. */
  lemma {:induction false} EventsExactly(states: seq<State>, events: seq<Event>, i: nat)
    requires Run(states, events) && i < |states|
    ensures states[i].ptyEvent <==> exists j: nat | j < i :: SetsPty(events[j])
    ensures states[i].shellEvent <==> exists j: nat | j < i :: SetsShell(events[j])
  {
    if i > 0 {
      assert StepOk(states, events, i - 1);
      EventsExactly(states, events, i - 1);
      EventsStep(states[i - 1], events[i - 1]);
    }
  }

  lemma EventsStep(s: State, e: Event)
    requires Enabled(s, e)
    ensures Step(s, e).ptyEvent <==> s.ptyEvent || SetsPty(e)
    ensures Step(s, e).shellEvent <==> s.shellEvent || SetsShell(e)
  {
  }

  predicate ShellIsOver(s: State, id: nat) {
    id in s.shells && s.shells[id] == ShellDone
  }

  lemma {:induction false} ShellStaysOver(states: seq<State>, events: seq<Event>, i: nat, j: nat, id: nat)
    requires Run(states, events) && i <= j < |states| && ShellIsOver(states[i], id)
    ensures ShellIsOver(states[j], id)
    decreases j
  {
    if i < j {
      ShellStaysOver(states, events, i, j - 1, id);
      assert StepOk(states, events, j - 1);
    }
  }

  /** A shell request that has timed out never starts a shell afterwards. */
  lemma TimedOutIsOver(states: seq<State>, events: seq<Event>, i: nat, j: nat, id: nat)
    requires Run(states, events) && i < j < |events| && events[i] == ShellTimesOut(id)
    ensures events[j] != PassPtyWait(id) && events[j] != SetShellEvent(id)
  {
    assert StepOk(states, events, i) && StepOk(states, events, j);
    ShellStaysOver(states, events, i + 1, j, id);
  }

  // ---- Which terminal? ------------------------------------------------------------------------------------

  /** The pump reads the terminal whose other end the process has. */
  predicate Paired(s: State) {
    s.thread.Pumping? && s.thread.slave.Some? && s.thread.master.Some? ==>
      s.thread.slave.value.pty == s.thread.master.value.pty
  }

  /** In every run with at most n pty requests the pump and the process share a terminal. */
  ghost predicate AlwaysPaired(n: nat) {
    forall states: seq<State>, events: seq<Event> |
      Run(states, events) && |states[|events|].ptys| <= n :: Paired(states[|events|])
  }

  /** Every stored end belongs to a terminal that was requested. */
  predicate EndsRequested(s: State) {
    && (s.masterFd.Some? ==> s.masterFd.value.pty in s.ptys)
    && (s.slaveFd.Some? ==> s.slaveFd.value.pty in s.ptys)
    && (s.thread.Spawned? || s.thread.Pumping? ==> s.thread.slave.Some? ==> s.thread.slave.value.pty in s.ptys)
    && (s.thread.Pumping? ==> s.thread.master.Some? ==> s.thread.master.value.pty in s.ptys)
  }

  lemma EndsRequestedStep(s: State, e: Event)
    requires EndsRequested(s) && Enabled(s, e)
    ensures EndsRequested(Step(s, e))
  {
  }

  lemma {:induction false} EndsRequestedHolds(states: seq<State>, events: seq<Event>, i: nat)
    requires Run(states, events) && i < |states|
    ensures EndsRequested(states[i])
  {
    if i > 0 {
      assert StepOk(states, events, i - 1);
      EndsRequestedHolds(states, events, i - 1);
      EndsRequestedStep(states[i - 1], events[i - 1]);
    }
  }

  lemma SingleKey<V>(m: map<nat, V>, a: nat, b: nat)
    requires |m| <= 1 && a in m && b in m
    ensures a == b
  {
    var others := m.Keys - {a};
    assert |others| == |m.Keys| - 1;
    assert others == {};
  }

  lemma Advance(states: seq<State>, events: seq<Event>, e: Event) returns (states': seq<State>, events': seq<Event>)
    requires Run(states, events) && Enabled(states[|events|], e)
    ensures Run(states', events') && states' == states + [Step(states[|events|], e)] && events' == events + [e]
  {
    states', events' := states + [Step(states[|events|], e)], events + [e];
    forall i: nat | i < |events'| ensures StepOk(states', events', i) {
      if i < |events| {
        assert StepOk(states, events, i);
      }
    }
  }

  /** A first terminal is opened, a shell is requested and the process gets the slave end. */
  lemma SpawnedRun() returns (states: seq<State>, events: seq<Event>)
    ensures Run(states, events)
    ensures states[|events|]
         == State(true, true, Some(Master(0)), Some(Slave(0)), map[0 := PtyDone], map[0 := ShellDone], Spawned(Some(Slave(0))))
  {
    states, events := [START], [];
    states, events := Advance(states, events, RequestPty(0));
    states, events := Advance(states, events, StoreMaster(0));
    states, events := Advance(states, events, StoreSlave(0));
    states, events := Advance(states, events, SetPtyEvent(0));
    assert states[4].ptys == map[0 := PtyDone];
    states, events := Advance(states, events, RequestShell(0));
    states, events := Advance(states, events, PassPtyWait(0));
    states, events := Advance(states, events, SetShellEvent(0));
    assert states[7].shells == map[0 := ShellDone];
    states, events := Advance(states, events, Wake);
    states, events := Advance(states, events, CheckShell);
  }

  /** A second pty request between the two reads gives the pump another terminal than the process. */
  lemma SecondPtySplitsThePair() returns (states: seq<State>, events: seq<Event>)
    ensures Run(states, events) && |states[|events|].ptys| == 2 && !Paired(states[|events|])
  {
    states, events := SpawnedRun();
    states, events := Advance(states, events, RequestPty(1));
    states, events := Advance(states, events, StoreMaster(1));
    states, events := Advance(states, events, Pump);
    assert states[|events|].ptys == map[0 := PtyDone, 1 := MasterStored];
  }

  /** The process and the pump are sure to share one terminal if and only if there is at most one pty request. */
  lemma PairedExactly(n: nat)
    ensures AlwaysPaired(n) <==> n <= 1
  {
    if n <= 1 {
      forall states: seq<State>, events: seq<Event> | Run(states, events) && |states[|events|].ptys| <= n
        ensures Paired(states[|events|])
      {
        var s := states[|events|];
        EndsRequestedHolds(states, events, |events|);
        if s.thread.Pumping? && s.thread.slave.Some? && s.thread.master.Some? {
          SingleKey(s.ptys, s.thread.slave.value.pty, s.thread.master.value.pty);
        }
      }
    } else {
      var states, events := SecondPtySplitsThePair();
    }
  }
}
