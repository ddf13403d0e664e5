/** The server file over all interleavings: no update is lost, and no reader sees half a list. */
module LifecycleFile {
  import opened Wrappers
  import opened ServerFile
  import opened Killer
  import opened Lifecycle

  /** A thread between taking and releasing the lock. */
  predicate Holding(pc: Pc) {
    pc.Locked? || pc.Loaded? || pc.Writing? || pc.Written?
  }

  ghost predicate LockInv(s: State) {
    && (s.lock.Some? ==> s.lock.value in s.pcs)
    && forall t | t in s.pcs :: Holding(s.pcs[t]) <==> s.lock == Some(t)
  }

  /** The file stands for these records, whenever it is read. */
  ghost predicate OnDisk(disk: Option<string>, servers: seq<Meta>) {
    forall now :: Load(disk, now) == Success(servers)
  }

  /** What the lock holder has in memory, and what the disk shows meanwhile. */
  ghost predicate HolderOk(recorded: seq<Meta>, disk: Option<string>, pc: Pc) {
    match pc
    case Loaded(change, _, servers) => servers == Changed(recorded, change) && OnDisk(disk, recorded)
    case Writing(change, _, text, written) =>
      text == Save(Changed(recorded, change)) && written < |text| && disk == Some(text[..written])
    case _ => OnDisk(disk, recorded)
  }

  ghost predicate FileInv(c: Setting, s: State) {
    && IsMap(Recorded(c, s))
    && LockInv(s)
    && (if s.lock.None? then OnDisk(s.disk, Recorded(c, s))
        else HolderOk(Recorded(c, s), s.disk, s.pcs[s.lock.value]))
  }

  lemma IsMapChanged(servers: seq<Meta>, change: Change)
    requires IsMap(servers)
    ensures IsMap(Changed(servers, change))
  {
    match change
    case Add(m) => IsMapUpdate(servers, [m], []);
    case Remove(m) => IsMapUpdate(servers, [], [m]);
  }

  lemma SaveOnDisk(servers: seq<Meta>)
    requires IsMap(servers)
    ensures OnDisk(Some(Save(servers)), servers)
  {
    forall now ensures Load(Some(Save(servers)), now) == Success(servers) {
      LoadOfSave(servers, now);
    }
  }

  lemma SaveIsText(servers: seq<Meta>)
    ensures Save(servers) != ""
  {
  }

  lemma FoldSnoc(servers: seq<Meta>, log: seq<Change>, change: Change)
    ensures Fold(servers, log + [change]) == Changed(Fold(servers, log), change)
  {
    var log' := log + [change];
    assert log'[..|log'| - 1] == log;
  }

  lemma LockInvGoto(s: State, s': State, t: ThreadId, pc: Pc)
    requires LockInv(s) && s.lock == Some(t) && Holding(pc)
    requires s'.lock == s.lock && s'.pcs == s.pcs[t := pc]
    ensures LockInv(s')
  {
  }

  lemma WriteStep(c: Setting, s: State, t: ThreadId, n: nat)
    requires FileInv(c, s) && s.lock == Some(t) && EnabledAt(s, s.pcs[t], Write(n)) && n < |s.pcs[t].text|
    ensures FileInv(c, WriteOn(s, t, s.pcs[t], n))
  {
    var pc, s' := s.pcs[t], WriteOn(s, t, s.pcs[t], n);
    LockInvGoto(s, s', t, pc.(written := n));
  }

  lemma LastWriteStep(c: Setting, s: State, t: ThreadId, n: nat)
    requires FileInv(c, s) && s.lock == Some(t) && EnabledAt(s, s.pcs[t], Write(n)) && n == |s.pcs[t].text|
    ensures FileInv(c, WriteOn(s, t, s.pcs[t], n))
  {
    var pc, s' := s.pcs[t], WriteOn(s, t, s.pcs[t], n);
    LockInvGoto(s, s', t, Written(pc.change, pc.todo));
    FoldSnoc(c.initial, s.log, pc.change);
    IsMapChanged(Recorded(c, s), pc.change);
    SaveOnDisk(Recorded(c, s'));
    assert pc.text[..n] == pc.text;
  }

  /** The steps of the thread that holds the lock. */
  lemma HolderStep(c: Setting, s: State, l: Label)
    requires FileInv(c, s) && Enabled(s, l) && s.lock == Some(l.thread)
    requires !l.action.Tick? && !l.action.Connect?
    ensures FileInv(c, Step(c, s, l))
  {
    var recorded := Recorded(c, s);
    var pc := s.pcs[l.thread];
    match l.action
    case Reload =>
      assert Load(s.disk, s.clock) == Success(recorded);
    case Truncate =>
      SaveIsText(Changed(recorded, pc.change));
      assert Save(pc.servers)[..0] == "";
    case Write(n) =>
      if n < |pc.text| {
        WriteStep(c, s, l.thread, n);
      } else {
        LastWriteStep(c, s, l.thread, n);
      }
    case Release =>
    case _ =>
  }

  /** Every other step leaves the file and the lock alone, except that a waiting thread may take the lock. */
  lemma OtherStepEffect(c: Setting, s: State, l: Label)
    requires Enabled(s, l) && !l.action.Tick?
    requires l.action.Connect? || !Holding(s.pcs[l.thread])
    ensures LeavesFile(s, Step(c, s, l), l.thread)
  {
    if l.action.Look? || l.action.Weigh? || l.action.Call? || l.action.Snapshot? || l.action.TakeNext? {
      CheckLeavesFile(c, s, l);
    }
  }

  lemma CheckLeavesFile(c: Setting, s: State, l: Label)
    requires Enabled(s, l)
    requires l.action.Look? || l.action.Weigh? || l.action.Call? || l.action.Snapshot? || l.action.TakeNext?
    ensures LeavesFile(s, Step(c, s, l), l.thread)
  {
  }

  predicate LeavesFile(s: State, s': State, t: ThreadId) {
    && s'.disk == s.disk && s'.log == s.log
    && t in s'.pcs && s'.pcs == s.pcs[t := s'.pcs[t]]
    && (if Holding(s'.pcs[t])
        then s.lock == None && s'.lock == Some(t) && s'.pcs[t].Locked?
        else s'.lock == s.lock)
  }

  lemma OtherStep(c: Setting, s: State, l: Label)
    requires FileInv(c, s) && Enabled(s, l) && !l.action.Tick?
    requires l.action.Connect? || s.lock != Some(l.thread)
    ensures FileInv(c, Step(c, s, l))
  {
    OtherStepEffect(c, s, l);
  }

  lemma FileInvStep(c: Setting, s: State, l: Label)
    requires FileInv(c, s) && Enabled(s, l)
    ensures FileInv(c, Step(c, s, l))
  {
    if l.action.Tick? {
    } else if s.lock == Some(l.thread) && !l.action.Connect? {
      HolderStep(c, s, l);
    } else {
      OtherStep(c, s, l);
    }
  }

  lemma {:induction false} FileInvHolds(c: Setting, states: seq<State>, labels: seq<Label>, i: nat)
    requires Run(c, states, labels) && i < |states|
    ensures FileInv(c, states[i])
  {
    if i > 0 {
      assert StepOk(c, states, labels, i - 1);
      FileInvHolds(c, states, labels, i - 1);
      FileInvStep(c, states[i - 1], labels[i - 1]);
    } else {
      LoadIsMap(states[0].disk, 0);
    }
  }

  /**
   * No lost updates: in every run, whenever the lock is free the file loads as the fold of all
   * changes written so far, in the order in which their threads held the lock.
   */
  lemma NoLostUpdates(c: Setting, states: seq<State>, labels: seq<Label>, i: nat, now: int)
    requires Run(c, states, labels) && i < |states| && states[i].lock == None
    ensures Load(states[i].disk, now) == Success(Fold(c.initial, states[i].log))
  {
    FileInvHolds(c, states, labels, i);
  }

  /** The change that a step completes, if it completes one. */
  function Completes(s: State, l: Label): seq<Change> {
    if l.action.Write? && l.thread in s.pcs && s.pcs[l.thread].Writing? && l.action.written == |s.pcs[l.thread].text|
    then [s.pcs[l.thread].change] else []
  }

  function Completed(states: seq<State>, labels: seq<Label>): seq<Change>
    requires |states| == |labels| + 1
    decreases |labels|
  {
    if labels == [] then []
    else
      var n := |labels| - 1;
      Completed(states[..n + 1], labels[..n]) + Completes(states[n], labels[n])
  }

  lemma CompletesIsLogged(c: Setting, s: State, l: Label)
    requires Enabled(s, l)
    ensures Step(c, s, l).log == s.log + Completes(s, l)
  {
  }

  /** The history of changes is what the steps of the run have completed, in their order. */
  lemma {:induction false} LogIsCompleted(c: Setting, states: seq<State>, labels: seq<Label>)
    requires Run(c, states, labels)
    ensures states[|labels|].log == Completed(states, labels)
    decreases |labels|
  {
    if labels != [] {
      var n := |labels| - 1;
      RunPrefix(c, states, labels, n);
      assert StepOk(c, states, labels, n);
      LogIsCompleted(c, states[..n + 1], labels[..n]);
      CompletesIsLogged(c, states[n], labels[n]);
    }
  }

  /** The last change in the log that concerns a name. */
  function LastChange(log: seq<Change>, name: string): Option<Change> {
    if log == [] then None
    else if log[|log| - 1].meta.serverName == name then Some(log[|log| - 1])
    else LastChange(log[..|log| - 1], name)
  }

  /** So the record of a name is the one of the last change that concerns it. */
  lemma {:induction false} FoldByName(servers: seq<Meta>, log: seq<Change>, name: string)
    ensures Find(Fold(servers, log), name)
         == match LastChange(log, name)
            case None => Find(servers, name)
            case Some(Add(m)) => Some(m)
            case Some(Remove(_)) => None
  {
    if log != [] {
      var n := |log| - 1;
      FoldByName(servers, log[..n], name);
      var before := Fold(servers, log[..n]);
      match log[n]
      case Add(m) => FindUpdate(before, [m], [], name);
      case Remove(m) => FindUpdate(before, [], [m], name);
    }
  }

  /** Some thread has truncated the file and not yet written all of it. */
  predicate BeingWritten(s: State) {
    s.lock.Some? && s.lock.value in s.pcs && s.pcs[s.lock.value].Writing?
  }

  /**
   * Unlocked reads: in every reachable state, also between truncation and the end of a write, a
   * load never raises. It gives the empty map if the file is being written, whatever the file held
   * before, and otherwise the records of all completed changes.
   */
  lemma ReadsAreWhole(c: Setting, states: seq<State>, labels: seq<Label>, i: nat, now: int)
    requires Run(c, states, labels) && i < |states|
    ensures Load(states[i].disk, now)
         == Success(if BeingWritten(states[i]) then [] else Recorded(c, states[i]))
  {
    FileInvHolds(c, states, labels, i);
    InvReads(c, states[i], now);
  }

  lemma InvReads(c: Setting, s: State, now: int)
    requires FileInv(c, s)
    ensures Load(s.disk, now) == Success(if BeingWritten(s) then [] else Recorded(c, s))
  {
    if BeingWritten(s) {
      var pc := s.pcs[s.lock.value];
      LoadOfTornWrite(Changed(Recorded(c, s), pc.change), pc.written, now);
    }
  }
}
