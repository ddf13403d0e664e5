/**
 * The life of servers as a state machine: one patrol thread and any number of connection
 * threads interleave step by step. They share the server file, the lock that guards its
 * rewriting, the session table and the providers.
 */
module Lifecycle {
  import opened Wrappers
  import opened Billing
  import opened ServerFile
  import opened Sessions
  import opened Killer

  /** A connection thread is known by the peer name of its transport. */
  datatype ThreadId = Patrol | Handler(peer: Peer)

  /** One rewriting of the server file. */
  datatype Change = Add(meta: Meta) | Remove(meta: Meta)

  function Changed(servers: seq<Meta>, change: Change): seq<Meta> {
    match change
    case Add(m) => Update(servers, [m], [])
    case Remove(m) => Update(servers, [], [m])
  }

  /** The records after all these changes, the first one first. */
  function Fold(servers: seq<Meta>, log: seq<Change>): seq<Meta> {
    if log == [] then servers else Changed(Fold(servers, log[..|log| - 1]), log[|log| - 1])
  }

  /**
   * Where a thread is. The patrol keeps the servers it still has to look at in `todo`, which is
   * empty for connection threads.
   */
  datatype Pc =
    | Sleeping
    | Scanning(todo: seq<Meta>)
    | Choosing
    | AtMenu(snapshot: seq<Meta>)
    | Chosen(meta: Meta)
    | Using(meta: Meta, ticket: nat)
    | Judging(meta: Meta, todo: seq<Meta>)
    | Weighing(meta: Meta, todo: seq<Meta>)
    | Doomed(meta: Meta, todo: seq<Meta>)
    | Waiting(change: Change, todo: seq<Meta>)
    | Locked(change: Change, todo: seq<Meta>)
    | Loaded(change: Change, todo: seq<Meta>, servers: seq<Meta>)
    | Writing(change: Change, todo: seq<Meta>, text: string, written: nat)
    | Written(change: Change, todo: seq<Meta>)
    | Finished
    | Crashed(stuck: Option<(string, nat)>)

  /**
   * The shared state. The last five components are a history: the number of sessions so far, from
   * which each session has its ticket, the changes written so far, the names ever given to a
   * server, the names ever recorded, and the living servers whose removal went ahead although the
   * provider reported a failure.
   */
  datatype State = State(
    clock: int,
    disk: Option<string>,
    lock: Option<ThreadId>,
    table: Table,
    live: set<string>,
    pcs: map<ThreadId, Pc>,
    tickets: nat,
    log: seq<Change>,
    used: set<string>,
    known: set<string>,
    leaked: set<string>)

  /** What never changes: the configured providers and the records that the file holds at the start. */
  datatype Setting = Setting(providers: map<string, ProviderConfig>, initial: seq<Meta>)

  function NameSet(servers: seq<Meta>): set<string> {
    set m | m in servers :: m.serverName
  }

  ghost predicate Init(c: Setting, s: State) {
    && (forall now :: Load(s.disk, now) == Success(c.initial))
    && s.lock == None
    && s.table == map[]
    && s.live == NameSet(c.initial)
    && s.pcs == map[Patrol := Sleeping]
    && s.log == []
    && s.used == NameSet(c.initial)
    && s.known == NameSet(c.initial)
    && s.leaked == {}
  }

  datatype Action =
    | Tick(seconds: nat)
    | Connect
    | ReadMenu
    | Create(meta: Meta)
    | Pick(k: nat)
    | Quit
    | Enter
    | Leave
    | Snapshot
    | TakeNext
    | Look
    | Weigh(delay: nat, verdict: Result<Verdict, KillError>)
    | Call(outcome: Outcome)
    | Acquire
    | Reload
    | Truncate
    | Write(written: nat)
    | Release
    | Crash

  datatype Label = Label(thread: ThreadId, action: Action)

  /** Where an exception may end a thread; an exception of the provider is an outcome of Call. */
  predicate MayCrash(pc: Pc) {
    pc.Choosing? || pc.AtMenu? || pc.Chosen? || pc.Using? || pc.Judging? || pc.Scanning?
  }

  predicate EnabledAt(s: State, pc: Pc, action: Action) {
    match action
    case Tick(_) => false
    case Connect => false
    case ReadMenu => pc.Choosing?
    case Create(m) => pc.AtMenu? && m.serverName !in s.used
    case Pick(k) => pc.AtMenu? && k < |pc.snapshot|
    case Quit => pc.AtMenu?
    case Enter => pc.Chosen?
    case Leave => pc.Using?
    case Snapshot => pc.Sleeping?
    case TakeNext => pc.Scanning?
    case Look => pc.Judging?
    case Weigh(_, _) => pc.Weighing?
    case Call(_) => pc.Doomed?
    case Acquire => pc.Waiting? && s.lock.None?
    case Reload => pc.Locked?
    case Truncate => pc.Loaded?
    case Write(n) => pc.Writing? && pc.written < n <= |pc.text|
    case Release => pc.Written?
    case Crash => MayCrash(pc)
  }

  /** A connection may reuse a peer name once the thread that had it is through with it. */
  predicate Enabled(s: State, l: Label) {
    if l.action.Tick? then true
    else if l.action.Connect? then
      l.thread.Handler? && (l.thread !in s.pcs || s.pcs[l.thread].Finished? || s.pcs[l.thread] == Crashed(None))
    else l.thread in s.pcs && EnabledAt(s, s.pcs[l.thread], l.action)
  }

  function Goto(s: State, t: ThreadId, pc: Pc): State {
    s.(pcs := s.pcs[t := pc])
  }

  /** After a verdict to keep the server. */
  function Dismissed(t: ThreadId, todo: seq<Meta>): Pc {
    if t.Patrol? then Scanning(todo) else Finished
  }

  function Sentenced(t: ThreadId, m: Meta, todo: seq<Meta>, verdict: Result<Verdict, KillError>): Pc {
    if verdict.Failure? then Crashed(None)
    else if verdict.value.Keep? then Dismissed(t, todo)
    else Doomed(m, todo)
  }

  /** After the file has been rewritten. */
  function Resumed(t: ThreadId, change: Change, todo: seq<Meta>): Pc {
    if change.Add? then Chosen(change.meta) else Dismissed(t, todo)
  }

  function StuckAt(pc: Pc): Option<(string, nat)> {
    if pc.Using? then Some((pc.meta.serverName, pc.ticket)) else None
  }

  /** The state after a step. */
  function Step(c: Setting, s: State, l: Label): State
    requires Enabled(s, l)
  {
    var t := l.thread;
    if l.action.Tick? then s.(clock := s.clock + l.action.seconds)
    else if l.action.Connect? then Goto(s, t, Choosing)
    else StepAt(c, s, t, s.pcs[t], l.action)
  }

  function StepAt(c: Setting, s: State, t: ThreadId, pc: Pc, action: Action): State
    requires EnabledAt(s, pc, action)
  {
    match action
    case ReadMenu =>
      (match Load(s.disk, s.clock)
       case Failure(_) => Goto(s, t, Crashed(None))
       case Success(servers) => Goto(s, t, AtMenu(servers)))
    case Create(m) =>
      Goto(s, t, Waiting(Add(m), [])).(live := s.live + {m.serverName}, used := s.used + {m.serverName})
    case Pick(k) => Goto(s, t, Chosen(pc.snapshot[k]))
    case Quit => Goto(s, t, Finished)
    case Enter =>
      if t.Patrol? then s
      else if pc.meta.providerName !in c.providers then Goto(s, t, Finished)
      else Goto(s, t, Using(pc.meta, s.tickets)).(
          table := Attached(s.table, pc.meta.serverName, t.peer), tickets := s.tickets + 1)
    case Leave =>
      if t.Patrol? then s
      else Goto(s, t, Judging(pc.meta, [])).(table := Detached(s.table, pc.meta.serverName, t.peer))
    case Snapshot =>
      (match Load(s.disk, s.clock)
       case Failure(_) => Goto(s, t, Crashed(None))
       case Success(servers) => Goto(s, t, Scanning(servers)))
    case TakeNext => Goto(s, t, if pc.todo == [] then Sleeping else Judging(pc.todo[0], pc.todo[1..]))
    case Look =>
      if pc.meta.providerName !in c.providers then Goto(s, t, Crashed(None))
      else if SessionsOf(s.table, pc.meta.serverName) != [] then Goto(s, t, Dismissed(t, pc.todo))
      else Goto(s, t, Weighing(pc.meta, pc.todo))
    case Weigh(delay, verdict) =>
      Goto(s.(clock := s.clock + delay), t, Sentenced(t, pc.meta, pc.todo, verdict))
    case Call(outcome) => CallProvider(s, t, pc.meta, pc.todo, outcome)
    case Acquire => Goto(s, t, Locked(pc.change, pc.todo)).(lock := Some(t))
    case Reload =>
      (match Load(s.disk, s.clock)
       case Failure(_) => Goto(s, t, Crashed(None)).(lock := None)
       case Success(servers) => Goto(s, t, Loaded(pc.change, pc.todo, Changed(servers, pc.change))))
    case Truncate => Goto(s, t, Writing(pc.change, pc.todo, Save(pc.servers), 0)).(disk := Some(""))
    case Write(n) => WriteOn(s, t, pc, n)
    case Release => Goto(s, t, Resumed(t, pc.change, pc.todo)).(lock := None)
    case Crash => Goto(s, t, Crashed(StuckAt(pc)))
    case _ => s
  }

  /** `destroy`: unmanaged servers raise, so does the provider; any answer leads to the removal. */
  function CallProvider(s: State, t: ThreadId, m: Meta, todo: seq<Meta>, outcome: Outcome): State {
    var name := m.serverName;
    if !m.manage || outcome == Raises then Goto(s, t, Crashed(None))
    else if outcome == Destroyed then
      Goto(s, t, Waiting(Remove(m), todo)).(live := s.live - {name}, leaked := s.leaked - {name})
    else
      Goto(s, t, Waiting(Remove(m), todo)).(leaked := s.leaked + ({name} * s.live))
  }

  /** The n-th character of the new text has reached the disk; the last one completes the change. */
  function WriteOn(s: State, t: ThreadId, pc: Pc, n: nat): State
    requires pc.Writing? && pc.written < n <= |pc.text|
  {
    var s' := s.(disk := Some(pc.text[..n]));
    if n < |pc.text| then Goto(s', t, pc.(written := n))
    else Goto(s', t, Written(pc.change, pc.todo)).(
        log := s.log + [pc.change],
        known := if pc.change.Add? then s.known + {pc.change.meta.serverName} else s.known)
  }

  /**
   * The verdict of a weighing step is the one `need_destroy` reaches for a server without
   * sessions, its age being read at the clock before the step and again after the delay.
   */
  predicate Truthful(c: Setting, s: State, l: Label) {
    l.action.Weigh? && l.thread in s.pcs && s.pcs[l.thread].Weighing? ==>
      l.action.verdict == JudgeServer(c.providers, 0, s.pcs[l.thread].meta, s.clock, s.clock + l.action.delay)
  }

  // ---- Runs ------------------------------------------------------------------------------------

  /** The i-th label leads from the i-th state to the next one. */
  ghost predicate StepOk(c: Setting, states: seq<State>, labels: seq<Label>, i: nat)
    requires i < |labels| < |states|
  {
    && Enabled(states[i], labels[i])
    && Truthful(c, states[i], labels[i])
    && states[i + 1] == Step(c, states[i], labels[i])
  }

  /** A run: states joined by steps, from a start state on. */
  ghost predicate Run(c: Setting, states: seq<State>, labels: seq<Label>) {
    && |states| == |labels| + 1
    && Init(c, states[0])
    && forall i: nat | i < |labels| :: StepOk(c, states, labels, i)
  }

  /** What the file stands for once all changes so far are written. */
  function Recorded(c: Setting, s: State): seq<Meta> {
    Fold(c.initial, s.log)
  }

  /** A step moves no other thread than its own. */
  lemma StepIsLocal(c: Setting, s: State, l: Label)
    requires Enabled(s, l)
    ensures l.action.Tick? ==> Step(c, s, l) == s.(clock := s.clock + l.action.seconds)
    ensures !l.action.Tick? ==>
              l.thread in Step(c, s, l).pcs && Step(c, s, l).pcs == s.pcs[l.thread := Step(c, s, l).pcs[l.thread]]
  {
    match l.action
    case Reload =>
    case Write(_) =>
    case Call(_) =>
    case _ =>
  }

  lemma RunPrefix(c: Setting, states: seq<State>, labels: seq<Label>, n: nat)
    requires Run(c, states, labels) && n <= |labels|
    ensures Run(c, states[..n + 1], labels[..n])
  {
    var states', labels' := states[..n + 1], labels[..n];
    forall i: nat | i < n ensures StepOk(c, states', labels', i) {
      assert StepOk(c, states, labels, i);
    }
  }
}
