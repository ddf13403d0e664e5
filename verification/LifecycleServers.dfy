/**
 * Conservation of servers over all interleavings: the servers that live at the providers are the
 * recorded ones, with those still to be recorded and without those still to be removed.
 */
module LifecycleServers {
  import opened Wrappers
  import opened Billing
  import opened ServerFile
  import opened Killer
  import opened Lifecycle
  import opened LifecycleFile
  import opened LifecycleSafety

  /** The name of a change that a thread has started and not yet written: an addition or a removal. */
  function OpenName(pc: Pc, adding: bool): Option<string> {
    if (pc.Waiting? || pc.Locked? || pc.Loaded? || pc.Writing?) && pc.change.Add? == adding
    then Some(pc.change.meta.serverName) else None
  }

  /** The names of all open additions, or of all open removals. */
  function Open(pcs: map<ThreadId, Pc>, adding: bool): set<string> {
    set t | t in pcs && OpenName(pcs[t], adding).Some? :: OpenName(pcs[t], adding).value
  }

  /** The names of the servers a thread has in hand, other than one it is adding. */
  function Held(pc: Pc): set<string> {
    match pc
    case Scanning(todo) => NameSet(todo)
    case AtMenu(snapshot) => NameSet(snapshot)
    case Chosen(m) => {m.serverName}
    case Using(m, _) => {m.serverName}
    case Judging(m, todo) => {m.serverName} + NameSet(todo)
    case Weighing(m, todo) => {m.serverName} + NameSet(todo)
    case Doomed(m, todo) => {m.serverName} + NameSet(todo)
    case Waiting(change, todo) => HeldChange(change) + NameSet(todo)
    case Locked(change, todo) => HeldChange(change) + NameSet(todo)
    case Loaded(change, todo, _) => HeldChange(change) + NameSet(todo)
    case Writing(change, todo, _, _) => HeldChange(change) + NameSet(todo)
    case Written(change, todo) => {change.meta.serverName} + NameSet(todo)
    case _ => {}
  }

  function HeldChange(change: Change): set<string> {
    if change.Add? then {} else {change.meta.serverName}
  }

  /** A server that a thread is adding lives, and nobody else knows its name. */
  ghost predicate AddersOk(s: State) {
    && (forall t | t in s.pcs && OpenName(s.pcs[t], true).Some? ::
          && OpenName(s.pcs[t], true).value in s.live
          && OpenName(s.pcs[t], true).value !in s.known)
    && (forall t, u | t in s.pcs && u in s.pcs && t != u && OpenName(s.pcs[t], true).Some? ::
          OpenName(s.pcs[t], true) != OpenName(s.pcs[u], true))
  }

  ghost predicate HistoryOk(recorded: set<string>, s: State) {
    recorded <= s.known <= s.used && s.live <= s.used && s.leaked <= s.live && s.leaked <= s.known
  }

  ghost predicate HeldOk(s: State) {
    forall t | t in s.pcs :: Held(s.pcs[t]) <= s.known
  }

  predicate Balance(recorded: set<string>, live: set<string>, leaked: set<string>, added: set<string>, removed: set<string>) {
    && live == ((recorded + added) - removed) + leaked
    && leaked * recorded <= removed
  }

  ghost predicate Accounts(recorded: set<string>, s: State) {
    && HistoryOk(recorded, s)
    && AddersOk(s)
    && HeldOk(s)
    && Balance(recorded, s.live, s.leaked, Open(s.pcs, true), Open(s.pcs, false))
  }

  ghost predicate ServersInv(c: Setting, s: State) {
    FileInv(c, s) && Accounts(NameSet(Recorded(c, s)), s)
  }

  // ---- Open changes when one thread moves -----------------------------------------------------------

  function OpenAt(pcs: map<ThreadId, Pc>, t: ThreadId, adding: bool): Option<string> {
    if t in pcs then OpenName(pcs[t], adding) else None
  }

  lemma OpenSame(pcs: map<ThreadId, Pc>, t: ThreadId, pc: Pc, adding: bool)
    requires OpenAt(pcs, t, adding) == OpenName(pc, adding)
    ensures Open(pcs[t := pc], adding) == Open(pcs, adding)
  {
    var pcs' := pcs[t := pc];
    forall n ensures n in Open(pcs', adding) <==> n in Open(pcs, adding) {
      if n in Open(pcs, adding) {
        var u :| u in pcs && OpenName(pcs[u], adding) == Some(n);
        assert u in pcs' && OpenName(pcs'[u], adding) == Some(n);
      }
      if n in Open(pcs', adding) {
        var u :| u in pcs' && OpenName(pcs'[u], adding) == Some(n);
        assert u in pcs && OpenName(pcs[u], adding) == Some(n);
      }
    }
  }

  lemma OpenGrows(pcs: map<ThreadId, Pc>, t: ThreadId, pc: Pc, adding: bool, name: string)
    requires OpenAt(pcs, t, adding) == None && OpenName(pc, adding) == Some(name)
    ensures Open(pcs[t := pc], adding) == Open(pcs, adding) + {name}
  {
    var pcs' := pcs[t := pc];
    assert t in pcs' && OpenName(pcs'[t], adding) == Some(name);
    forall n ensures n in Open(pcs', adding) <==> n in Open(pcs, adding) || n == name {
      if n in Open(pcs, adding) {
        var u :| u in pcs && OpenName(pcs[u], adding) == Some(n);
        assert u in pcs' && OpenName(pcs'[u], adding) == Some(n);
      }
    }
  }

  /** When a change is written its name may stay open in another thread; other names are not affected. */
  lemma OpenShrinks(pcs: map<ThreadId, Pc>, t: ThreadId, pc: Pc, adding: bool, name: string)
    requires OpenAt(pcs, t, adding) == Some(name) && OpenName(pc, adding) == None
    ensures Open(pcs, adding) - {name} <= Open(pcs[t := pc], adding) <= Open(pcs, adding)
    ensures (forall u | u in pcs && u != t :: OpenName(pcs[u], adding) != Some(name)) ==> name !in Open(pcs[t := pc], adding)
  {
    var pcs' := pcs[t := pc];
    forall n | n in Open(pcs, adding) && n != name ensures n in Open(pcs', adding) {
      var u :| u in pcs && OpenName(pcs[u], adding) == Some(n);
      assert u in pcs' && OpenName(pcs'[u], adding) == Some(n);
    }
    forall n | n in Open(pcs', adding) ensures n in Open(pcs, adding) {
      var u :| u in pcs' && OpenName(pcs'[u], adding) == Some(n);
      assert u in pcs && OpenName(pcs[u], adding) == Some(n);
    }
  }

  // ---- Names of the records ------------------------------------------------------------------------

  lemma InNameSet(servers: seq<Meta>, n: string)
    ensures n in NameSet(servers) <==> Find(servers, n).Some?
  {
  }

  lemma NamesAfterChange(servers: seq<Meta>, change: Change)
    ensures NameSet(Changed(servers, change))
         == if change.Add? then NameSet(servers) + {change.meta.serverName}
            else NameSet(servers) - {change.meta.serverName}
  {
    var m := change.meta;
    forall n
      ensures n in NameSet(Changed(servers, change)) <==>
              if change.Add? then n in NameSet(servers) || n == m.serverName
              else n in NameSet(servers) && n != m.serverName
    {
      InNameSet(servers, n);
      InNameSet(Changed(servers, change), n);
      if change.Add? {
        FindUpdate(servers, [m], [], n);
      } else {
        FindUpdate(servers, [], [m], n);
      }
    }
  }

  // ---- The books after a move -------------------------------------------------------------------

  /** Only thread t has moved. */
  predicate Moved(s: State, s': State, t: ThreadId) {
    t in s'.pcs && s'.pcs == s.pcs[t := s'.pcs[t]]
  }

  lemma AddersSame(s: State, s': State, t: ThreadId)
    requires AddersOk(s) && Moved(s, s', t) && s'.live == s.live && s'.known == s.known
    requires OpenAt(s.pcs, t, true) == OpenName(s'.pcs[t], true)
    ensures AddersOk(s')
  {
    forall u | u in s'.pcs ensures OpenName(s'.pcs[u], true) == OpenAt(s.pcs, u, true) {
    }
  }

  lemma QuietBooks(recorded: set<string>, s: State, s': State, t: ThreadId)
    requires Accounts(recorded, s) && Moved(s, s', t)
    requires s'.live == s.live && s'.used == s.used && s'.known == s.known && s'.leaked == s.leaked
    requires OpenAt(s.pcs, t, true) == OpenName(s'.pcs[t], true)
    requires OpenAt(s.pcs, t, false) == OpenName(s'.pcs[t], false)
    requires Held(s'.pcs[t]) <= s.known
    ensures Accounts(recorded, s')
  {
    OpenSame(s.pcs, t, s'.pcs[t], true);
    OpenSame(s.pcs, t, s'.pcs[t], false);
    AddersSame(s, s', t);
  }

  /** What is to be removed was recorded once. */
  lemma OpenRemovalIsKnown(s: State, name: string)
    requires HeldOk(s) && name in Open(s.pcs, false)
    ensures name in s.known
  {
    var t :| t in s.pcs && OpenName(s.pcs[t], false) == Some(name);
    assert Held(s.pcs[t]) <= s.known && name in Held(s.pcs[t]);
  }

  /** What is to be added was not. */
  lemma KnownIsNotOpen(s: State, name: string)
    requires AddersOk(s) && name in s.known
    ensures name !in Open(s.pcs, true)
  {
    forall t | t in s.pcs ensures OpenName(s.pcs[t], true) != Some(name) {
    }
  }

  lemma NewAdder(s: State, s': State, t: ThreadId, name: string)
    requires AddersOk(s) && Moved(s, s', t) && s'.known == s.known && s'.live == s.live + {name}
    requires OpenAt(s.pcs, t, true) == None && OpenName(s'.pcs[t], true) == Some(name)
    requires name !in s.live && name !in s.known
    ensures AddersOk(s')
  {
    forall u | u in s'.pcs && u != t ensures OpenName(s'.pcs[u], true) == OpenAt(s.pcs, u, true) {
    }
  }

  lemma CreateBooks(recorded: set<string>, s: State, s': State, t: ThreadId, name: string)
    requires Accounts(recorded, s) && Moved(s, s', t) && name !in s.used
    requires s'.live == s.live + {name} && s'.used == s.used + {name} && s'.known == s.known && s'.leaked == s.leaked
    requires OpenAt(s.pcs, t, true) == None && OpenName(s'.pcs[t], true) == Some(name)
    requires OpenAt(s.pcs, t, false) == None && OpenName(s'.pcs[t], false) == None
    requires Held(s'.pcs[t]) == {}
    ensures Accounts(recorded, s')
  {
    OpenGrows(s.pcs, t, s'.pcs[t], true, name);
    OpenSame(s.pcs, t, s'.pcs[t], false);
    NewAdder(s, s', t, name);
    if name in Open(s.pcs, false) {
      OpenRemovalIsKnown(s, name);
    }
  }

  lemma AddersElsewhere(s: State, s': State, t: ThreadId, name: string)
    requires AddersOk(s) && Moved(s, s', t) && name in s.known && s'.known == s.known && s.live - {name} <= s'.live
    requires OpenAt(s.pcs, t, true) == None && OpenName(s'.pcs[t], true) == None
    ensures AddersOk(s')
  {
    forall u | u in s'.pcs ensures OpenName(s'.pcs[u], true) == OpenAt(s.pcs, u, true) {
    }
  }

  lemma CallBooks(recorded: set<string>, s: State, s': State, t: ThreadId, name: string)
    requires Accounts(recorded, s) && t in s.pcs && Moved(s, s', t) && name in Held(s.pcs[t])
    requires s'.used == s.used && s'.known == s.known
    requires || (s'.live == s.live - {name} && s'.leaked == s.leaked - {name})
             || (s'.live == s.live && s'.leaked == s.leaked + ({name} * s.live))
    requires OpenName(s.pcs[t], true) == None && OpenName(s'.pcs[t], true) == None
    requires OpenName(s.pcs[t], false) == None && OpenName(s'.pcs[t], false) == Some(name)
    requires Held(s'.pcs[t]) == Held(s.pcs[t])
    ensures Accounts(recorded, s')
  {
    assert Held(s.pcs[t]) <= s.known;
    OpenSame(s.pcs, t, s'.pcs[t], true);
    OpenGrows(s.pcs, t, s'.pcs[t], false, name);
    AddersElsewhere(s, s', t, name);
    KnownIsNotOpen(s, name);
  }

  lemma OneAdderLess(s: State, s': State, t: ThreadId, name: string)
    requires AddersOk(s) && t in s.pcs && Moved(s, s', t) && s'.live == s.live && s'.known == s.known + {name}
    requires OpenName(s.pcs[t], true) == Some(name) && OpenName(s'.pcs[t], true) == None
    ensures AddersOk(s') && name !in Open(s'.pcs, true)
  {
    forall u | u in s'.pcs && u != t
      ensures OpenName(s'.pcs[u], true) == OpenAt(s.pcs, u, true) && OpenName(s'.pcs[u], true) != Some(name)
    {
    }
  }

  lemma CommitAddBooks(recorded: set<string>, s: State, s': State, t: ThreadId, name: string)
    requires Accounts(recorded, s) && t in s.pcs && Moved(s, s', t)
    requires s'.live == s.live && s'.used == s.used && s'.known == s.known + {name} && s'.leaked == s.leaked
    requires OpenName(s.pcs[t], true) == Some(name) && OpenName(s'.pcs[t], true) == None
    requires OpenName(s.pcs[t], false) == None && OpenName(s'.pcs[t], false) == None
    requires Held(s'.pcs[t]) == Held(s.pcs[t]) + {name}
    ensures Accounts(recorded + {name}, s')
  {
    assert Held(s.pcs[t]) <= s.known;
    assert name in s.live && name !in s.known;
    OpenShrinks(s.pcs, t, s'.pcs[t], true, name);
    OpenSame(s.pcs, t, s'.pcs[t], false);
    OneAdderLess(s, s', t, name);
    if name in Open(s.pcs, false) {
      OpenRemovalIsKnown(s, name);
    }
    assert name in Open(s.pcs, true);
  }

  lemma CommitRemoveBooks(recorded: set<string>, s: State, s': State, t: ThreadId, name: string)
    requires Accounts(recorded, s) && t in s.pcs && Moved(s, s', t)
    requires s'.live == s.live && s'.used == s.used && s'.known == s.known && s'.leaked == s.leaked
    requires OpenName(s.pcs[t], true) == None && OpenName(s'.pcs[t], true) == None
    requires OpenName(s.pcs[t], false) == Some(name) && OpenName(s'.pcs[t], false) == None
    requires Held(s'.pcs[t]) == Held(s.pcs[t])
    ensures Accounts(recorded - {name}, s')
  {
    assert name in Open(s.pcs, false);
    OpenRemovalIsKnown(s, name);
    KnownIsNotOpen(s, name);
    OpenSame(s.pcs, t, s'.pcs[t], true);
    OpenShrinks(s.pcs, t, s'.pcs[t], false, name);
    AddersSame(s, s', t);
  }

  // ---- The steps -------------------------------------------------------------------------------------

  /** Steps that neither start nor finish a change. */
  predicate Quiet(s: State, l: Label) {
    && !l.action.Create? && !l.action.Call?
    && (l.action.Write? ==> l.thread in s.pcs && s.pcs[l.thread].Writing? && l.action.written < |s.pcs[l.thread].text|)
  }

  lemma ReloadSucceeds(c: Setting, s: State, l: Label)
    requires FileInv(c, s) && Enabled(s, l) && (l.action.Reload? || l.action.ReadMenu? || l.action.Snapshot?)
    ensures Load(s.disk, s.clock).Success?
    ensures NameSet(Load(s.disk, s.clock).value) <= NameSet(Recorded(c, s))
  {
    InvReads(c, s, s.clock);
  }

  lemma QuietEffect(c: Setting, s: State, l: Label)
    requires Enabled(s, l) && Quiet(s, l)
    ensures var s' := Step(c, s, l);
            && s'.log == s.log && s'.live == s.live && s'.used == s.used
            && s'.known == s.known && s'.leaked == s.leaked
  {
    match l.action
    case Look =>
    case Weigh(_, _) =>
    case Reload =>
    case Write(_) =>
    case _ =>
  }

  lemma QuietOpen(c: Setting, s: State, l: Label, adding: bool)
    requires Enabled(s, l) && Quiet(s, l) && !l.action.Tick?
    requires l.action.Reload? ==> Load(s.disk, s.clock).Success?
    ensures l.thread in Step(c, s, l).pcs
    ensures OpenAt(s.pcs, l.thread, adding) == OpenName(Step(c, s, l).pcs[l.thread], adding)
  {
    match l.action
    case Look =>
    case Weigh(_, _) =>
    case Reload =>
    case Write(_) =>
    case _ =>
  }

  lemma NamesOfFirst(todo: seq<Meta>)
    requires todo != []
    ensures {todo[0].serverName} + NameSet(todo[1..]) == NameSet(todo)
  {
  }

  predicate Updates(action: Action) {
    action.Acquire? || action.Reload? || action.Truncate? || action.Write? || action.Release?
  }

  lemma ReleaseHeld(c: Setting, s: State, l: Label)
    requires Enabled(s, l) && l.action.Release?
    ensures l.thread in Step(c, s, l).pcs && Held(Step(c, s, l).pcs[l.thread]) <= Held(s.pcs[l.thread])
  {
  }

  lemma ReloadEffect(c: Setting, s: State, l: Label)
    requires Enabled(s, l) && l.action.Reload?
    ensures l.thread in Step(c, s, l).pcs
    ensures var pc, pc' := s.pcs[l.thread], Step(c, s, l).pcs[l.thread];
            pc' == Crashed(None) || (pc'.Loaded? && pc'.change == pc.change && pc'.todo == pc.todo)
  {
    match Load(s.disk, s.clock)
    case Failure(_) =>
    case Success(_) =>
  }

  lemma ReloadHeld(c: Setting, s: State, l: Label)
    requires Enabled(s, l) && l.action.Reload?
    ensures l.thread in Step(c, s, l).pcs && Held(Step(c, s, l).pcs[l.thread]) <= Held(s.pcs[l.thread])
  {
    ReloadEffect(c, s, l);
    LoadedHeld(s.pcs[l.thread], Step(c, s, l).pcs[l.thread]);
  }

  lemma LoadedHeld(pc: Pc, pc': Pc)
    requires pc.Locked?
    requires pc' == Crashed(None) || (pc'.Loaded? && pc'.change == pc.change && pc'.todo == pc.todo)
    ensures Held(pc') <= Held(pc)
  {
  }

  lemma UpdateHeld(c: Setting, s: State, l: Label)
    requires Enabled(s, l) && Quiet(s, l) && Updates(l.action)
    ensures l.thread in Step(c, s, l).pcs && Held(Step(c, s, l).pcs[l.thread]) <= Held(s.pcs[l.thread])
  {
    if l.action.Release? {
      ReleaseHeld(c, s, l);
    } else if l.action.Reload? {
      ReloadHeld(c, s, l);
    }
  }

  lemma TakeHeld(c: Setting, s: State, l: Label)
    requires Enabled(s, l) && l.action.TakeNext?
    ensures l.thread in Step(c, s, l).pcs && Held(Step(c, s, l).pcs[l.thread]) <= Held(s.pcs[l.thread])
  {
    if s.pcs[l.thread].todo != [] {
      NamesOfFirst(s.pcs[l.thread].todo);
    }
  }

  /** A quiet step leaves a thread with servers it had in hand before, unless it reads the file. */
  lemma QuietHeld(c: Setting, s: State, l: Label)
    requires Enabled(s, l) && Quiet(s, l) && !l.action.Tick? && !l.action.Connect?
    requires !l.action.ReadMenu? && !l.action.Snapshot?
    ensures l.thread in Step(c, s, l).pcs && Held(Step(c, s, l).pcs[l.thread]) <= Held(s.pcs[l.thread])
  {
    if Updates(l.action) {
      UpdateHeld(c, s, l);
    } else if l.action.TakeNext? {
      TakeHeld(c, s, l);
    } else {
      VisitHeld(c, s, l);
    }
  }

  lemma VisitHeld(c: Setting, s: State, l: Label)
    requires Enabled(s, l)
    requires l.action in {Quit, Enter, Leave, Look, Crash} || l.action.Pick? || l.action.Weigh?
    ensures l.thread in Step(c, s, l).pcs && Held(Step(c, s, l).pcs[l.thread]) <= Held(s.pcs[l.thread])
  {
    if l.action.Look? || l.action.Weigh? {
      CheckHeld(c, s, l);
    }
  }

  lemma CheckHeld(c: Setting, s: State, l: Label)
    requires Enabled(s, l) && (l.action.Look? || l.action.Weigh?)
    ensures l.thread in Step(c, s, l).pcs && Held(Step(c, s, l).pcs[l.thread]) <= Held(s.pcs[l.thread])
  {
    match l.action
    case Look =>
    case Weigh(_, _) =>
  }

  lemma ReadHeld(c: Setting, s: State, l: Label)
    requires Enabled(s, l) && (l.action.ReadMenu? || l.action.Snapshot?) && Load(s.disk, s.clock).Success?
    ensures l.thread in Step(c, s, l).pcs && Held(Step(c, s, l).pcs[l.thread]) == NameSet(Load(s.disk, s.clock).value)
  {
  }

  lemma QuietStep(c: Setting, s: State, l: Label)
    requires FileInv(c, s) && Accounts(NameSet(Recorded(c, s)), s) && Enabled(s, l) && Quiet(s, l)
    ensures Accounts(NameSet(Recorded(c, Step(c, s, l))), Step(c, s, l))
  {
    StepIsLocal(c, s, l);
    QuietEffect(c, s, l);
    if !l.action.Tick? {
      if l.action.Reload? || l.action.ReadMenu? || l.action.Snapshot? {
        ReloadSucceeds(c, s, l);
      }
      if l.action.ReadMenu? || l.action.Snapshot? {
        ReadHeld(c, s, l);
      } else if !l.action.Connect? {
        QuietHeld(c, s, l);
        assert Held(s.pcs[l.thread]) <= s.known;
      }
      QuietOpen(c, s, l, true);
      QuietOpen(c, s, l, false);
      QuietBooks(NameSet(Recorded(c, s)), s, Step(c, s, l), l.thread);
    }
  }

  lemma CreateStep(c: Setting, s: State, l: Label)
    requires Accounts(NameSet(Recorded(c, s)), s) && Enabled(s, l) && l.action.Create?
    ensures Accounts(NameSet(Recorded(c, Step(c, s, l))), Step(c, s, l))
  {
    CreateBooks(NameSet(Recorded(c, s)), s, Step(c, s, l), l.thread, l.action.meta.serverName);
  }

  lemma CallStep(c: Setting, s: State, l: Label)
    requires Accounts(NameSet(Recorded(c, s)), s) && Enabled(s, l) && l.action.Call?
    ensures Accounts(NameSet(Recorded(c, Step(c, s, l))), Step(c, s, l))
  {
    var s', m := Step(c, s, l), s.pcs[l.thread].meta;
    if s'.pcs[l.thread].Waiting? {
      CallBooks(NameSet(Recorded(c, s)), s, s', l.thread, m.serverName);
    } else {
      QuietBooks(NameSet(Recorded(c, s)), s, s', l.thread);
    }
  }

  /** The last character of a change is written. */
  lemma CommitEffect(c: Setting, s: State, l: Label)
    requires Enabled(s, l) && l.action.Write? && !Quiet(s, l)
    ensures var s', pc := Step(c, s, l), s.pcs[l.thread];
            && s'.pcs == s.pcs[l.thread := Written(pc.change, pc.todo)]
            && s'.live == s.live && s'.used == s.used && s'.leaked == s.leaked
            && s'.known == (if pc.change.Add? then s.known + {pc.change.meta.serverName} else s.known)
            && s'.log == s.log + [pc.change]
  {
  }

  lemma CommitAdd(c: Setting, s: State, l: Label, recorded: set<string>, m: Meta)
    requires Accounts(recorded, s) && Enabled(s, l) && l.action.Write? && !Quiet(s, l)
    requires s.pcs[l.thread].change == Add(m)
    ensures Accounts(recorded + {m.serverName}, Step(c, s, l))
  {
    CommitEffect(c, s, l);
    CommitAddBooks(recorded, s, Step(c, s, l), l.thread, m.serverName);
  }

  lemma CommitRemove(c: Setting, s: State, l: Label, recorded: set<string>, m: Meta)
    requires Accounts(recorded, s) && Enabled(s, l) && l.action.Write? && !Quiet(s, l)
    requires s.pcs[l.thread].change == Remove(m)
    ensures Accounts(recorded - {m.serverName}, Step(c, s, l))
  {
    CommitEffect(c, s, l);
    CommitRemoveBooks(recorded, s, Step(c, s, l), l.thread, m.serverName);
  }

  lemma CommitStep(c: Setting, s: State, l: Label)
    requires Accounts(NameSet(Recorded(c, s)), s) && Enabled(s, l) && l.action.Write? && !Quiet(s, l)
    ensures Accounts(NameSet(Recorded(c, Step(c, s, l))), Step(c, s, l))
  {
    CommitEffect(c, s, l);
    var change := s.pcs[l.thread].change;
    FoldSnoc(c.initial, s.log, change);
    NamesAfterChange(Recorded(c, s), change);
    match change
    case Add(m) => CommitAdd(c, s, l, NameSet(Recorded(c, s)), m);
    case Remove(m) => CommitRemove(c, s, l, NameSet(Recorded(c, s)), m);
  }

  lemma ServersInvStep(c: Setting, s: State, l: Label)
    requires ServersInv(c, s) && Enabled(s, l)
    ensures ServersInv(c, Step(c, s, l))
  {
    FileInvStep(c, s, l);
    if l.action.Create? {
      CreateStep(c, s, l);
    } else if l.action.Call? {
      CallStep(c, s, l);
    } else if Quiet(s, l) {
      QuietStep(c, s, l);
    } else {
      CommitStep(c, s, l);
    }
  }

  lemma {:induction false} ServersInvHolds(c: Setting, states: seq<State>, labels: seq<Label>, i: nat)
    requires Run(c, states, labels) && i < |states|
    ensures ServersInv(c, states[i])
  {
    if i > 0 {
      assert StepOk(c, states, labels, i - 1);
      ServersInvHolds(c, states, labels, i - 1);
      ServersInvStep(c, states[i - 1], labels[i - 1]);
    } else {
      FileInvHolds(c, states, labels, 0);
    }
  }

  /**
   * Conservation: in every reachable state the living servers are the recorded ones and those
   * created but not yet recorded, without those destroyed but not yet removed, and with those
   * whose destruction the provider reported as failed.
   */
  lemma Conservation(c: Setting, states: seq<State>, labels: seq<Label>, i: nat)
    requires Run(c, states, labels) && i < |states|
    ensures var s := states[i];
            s.live == ((NameSet(Recorded(c, s)) + Open(s.pcs, true)) - Open(s.pcs, false)) + s.leaked
  {
    ServersInvHolds(c, states, labels, i);
  }

  // ---- Which destructions have failed -----------------------------------------------------------------

  /** `destroy_server` is called for a managed server of that name, with that outcome. */
  predicate CallsFor(s: State, l: Label, name: string, outcome: Outcome) {
    && l.action == Call(outcome) && l.thread in s.pcs && s.pcs[l.thread].Doomed?
    && s.pcs[l.thread].meta.manage && s.pcs[l.thread].meta.serverName == name
  }

  /** Step j calls the provider for a living server, gets a failure back, and no call before state `last` succeeds. */
  predicate FailsAndStays(states: seq<State>, labels: seq<Label>, name: string, j: nat, last: nat) {
    && j < last <= |labels| < |states|
    && CallsFor(states[j], labels[j], name, ReportsFailure) && name in states[j].live
    && (forall k | j < k < last :: !CallsFor(states[k], labels[k], name, Destroyed))
  }

  lemma LeakedStep(c: Setting, s: State, l: Label, name: string)
    requires Enabled(s, l)
    ensures name in Step(c, s, l).leaked <==>
            || (CallsFor(s, l, name, ReportsFailure) && name in s.live)
            || (name in s.leaked && !CallsFor(s, l, name, Destroyed))
  {
    if l.action.Call? {
    } else if Quiet(s, l) {
      QuietEffect(c, s, l);
    }
  }

  /**
   * The servers whose failed destruction was ignored: a call for them has reported a failure
   * while they lived, and no call since has destroyed them.
   */
  lemma {:induction false} LeakedExactly(c: Setting, states: seq<State>, labels: seq<Label>, i: nat, name: string)
    requires Run(c, states, labels) && i < |states|
    ensures name in states[i].leaked <==> exists j: nat :: FailsAndStays(states, labels, name, j, i)
  {
    if i > 0 {
      var n := i - 1;
      LeakedExactly(c, states, labels, n, name);
      assert StepOk(c, states, labels, n);
      LeakedStep(c, states[n], labels[n], name);
      if j: nat :| FailsAndStays(states, labels, name, j, i) {
        assert j < n ==> FailsAndStays(states, labels, name, j, n);
      }
      if CallsFor(states[n], labels[n], name, ReportsFailure) && name in states[n].live {
        assert FailsAndStays(states, labels, name, n, i);
      } else if name in states[i].leaked {
        var j: nat :| FailsAndStays(states, labels, name, j, n);
        assert FailsAndStays(states, labels, name, j, i);
      }
    }
  }

  /** As long as no provider reports a failure, every living server is recorded or about to be. */
  lemma ConservationWithoutFailures(c: Setting, states: seq<State>, labels: seq<Label>, i: nat)
    requires Run(c, states, labels) && i < |states|
    requires forall j | 0 <= j < i :: labels[j].action != Call(ReportsFailure)
    ensures var s := states[i];
            s.live == (NameSet(Recorded(c, s)) + Open(s.pcs, true)) - Open(s.pcs, false)
  {
    Conservation(c, states, labels, i);
    forall name ensures name !in states[i].leaked {
      LeakedExactly(c, states, labels, i, name);
    }
  }

  /** No thread is between a provider call and the end of the write it leads to. */
  predicate AtRest(s: State) {
    s.lock == None && forall t | t in s.pcs :: !s.pcs[t].Waiting?
  }

  lemma LeakedAtRest(c: Setting, states: seq<State>, labels: seq<Label>, i: nat, now: int)
    requires Run(c, states, labels) && i < |states| && AtRest(states[i])
    ensures Load(states[i].disk, now).Success?
    ensures states[i].leaked == states[i].live - NameSet(Load(states[i].disk, now).value)
    ensures NameSet(Load(states[i].disk, now).value) <= states[i].live
  {
    ServersInvHolds(c, states, labels, i);
    NoLostUpdates(c, states, labels, i, now);
    assert Open(states[i].pcs, true) == {} && Open(states[i].pcs, false) == {};
  }

  lemma NothingLeft(live: set<string>, listed: set<string>)
    requires listed <= live
    ensures live == listed <==> live - listed == {}
  {
    if live - listed == {} {
      forall n | n in live ensures n in listed {
        assert n !in live - listed;
      }
    }
  }

  /**
   * When no change is open, the file lists exactly the living servers if and only if every call
   * that reported a failure for a living server was followed by one that destroyed it.
   */
  lemma FileIsCompleteExactly(c: Setting, states: seq<State>, labels: seq<Label>, i: nat, now: int)
    requires Run(c, states, labels) && i < |states| && AtRest(states[i])
    ensures Load(states[i].disk, now).Success?
    ensures states[i].live == NameSet(Load(states[i].disk, now).value) <==>
            forall name, j: nat :: !FailsAndStays(states, labels, name, j, i)
  {
    LeakedAtRest(c, states, labels, i, now);
    NothingLeft(states[i].live, NameSet(Load(states[i].disk, now).value));
    NothingFailed(c, states, labels, i);
  }

  lemma NothingFailed(c: Setting, states: seq<State>, labels: seq<Label>, i: nat)
    requires Run(c, states, labels) && i < |states|
    ensures states[i].leaked == {} <==> forall name, j: nat :: !FailsAndStays(states, labels, name, j, i)
  {
    forall name, j: nat | FailsAndStays(states, labels, name, j, i) ensures states[i].leaked != {} {
      LeakedExactly(c, states, labels, i, name);
    }
    if name :| name in states[i].leaked {
      LeakedExactly(c, states, labels, i, name);
      assert exists j: nat :: FailsAndStays(states, labels, name, j, i);
    }
  }
}
