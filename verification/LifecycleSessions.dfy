/** Session accounting over all interleavings. */
module LifecycleSessions {
  import opened Wrappers
  import opened ServerFile
  import opened Sessions
  import opened Killer
  import opened Lifecycle

  /** The server name and the ticket under which a thread's session is registered. */
  function Registration(pc: Pc): Option<(string, nat)> {
    match pc
    case Using(m, ticket) => Some((m.serverName, ticket))
    case Crashed(stuck) => stuck
    case _ => None
  }

  function RegistrationOf(s: State, p: Peer): Option<(string, nat)> {
    if Handler(p) in s.pcs then Registration(s.pcs[Handler(p)]) else None
  }

  predicate RegisteredFor(s: State, p: Peer, name: string) {
    RegistrationOf(s, p).Some? && RegistrationOf(s, p).value.0 == name
  }

  /** Only connection threads use servers. */
  ghost predicate PatrolStaysOut(s: State) {
    Patrol in s.pcs ==>
      var pc := s.pcs[Patrol];
      !pc.Chosen? && !pc.Using? && !pc.AtMenu? && !pc.Choosing? && Registration(pc).None?
      && ((pc.Waiting? || pc.Locked? || pc.Loaded? || pc.Writing? || pc.Written?) ==> pc.change.Remove?)
  }

  function TicketOf(s: State, p: Peer): nat {
    if RegistrationOf(s, p).Some? then RegistrationOf(s, p).value.1 else 0
  }

  /** The list holds exactly the peers registered for the name. */
  ghost predicate Members(s: State, name: string, sessions: seq<Peer>) {
    forall p :: p in sessions <==> RegisteredFor(s, p, name)
  }

  ghost predicate InTicketOrder(s: State, sessions: seq<Peer>) {
    forall i, j | 0 <= i < j < |sessions| :: TicketOf(s, sessions[i]) < TicketOf(s, sessions[j])
  }

  ghost predicate ListOk(s: State, name: string, sessions: seq<Peer>) {
    Members(s, name, sessions) && InTicketOrder(s, sessions)
  }

  ghost predicate SessionInv(s: State) {
    && PatrolStaysOut(s)
    && (forall p | RegistrationOf(s, p).Some? :: TicketOf(s, p) < s.tickets)
    && (forall name :: ListOk(s, name, SessionsOf(s.table, name)))
  }

  lemma PatrolWrites(c: Setting, s: State, action: Action)
    requires PatrolStaysOut(s) && Enabled(s, Label(Patrol, action))
    requires action.Acquire? || action.Reload? || action.Truncate? || action.Write? || action.Release?
    ensures PatrolStaysOut(Step(c, s, Label(Patrol, action)))
  {
  }

  lemma PatrolChecks(c: Setting, s: State, action: Action)
    requires PatrolStaysOut(s) && Enabled(s, Label(Patrol, action))
    requires action.Snapshot? || action.TakeNext? || action.Look? || action.Weigh? || action.Call? || action.Crash?
    ensures PatrolStaysOut(Step(c, s, Label(Patrol, action)))
  {
  }

  lemma PatrolStaysOutStep(c: Setting, s: State, l: Label)
    requires PatrolStaysOut(s) && Enabled(s, l)
    ensures PatrolStaysOut(Step(c, s, l))
  {
    if l.thread != Patrol || l.action.Tick? {
      StepIsLocal(c, s, l);
    } else if l.action.Snapshot? || l.action.TakeNext? || l.action.Look? || l.action.Weigh? || l.action.Call? || l.action.Crash? {
      PatrolChecks(c, s, l.action);
    } else {
      PatrolWrites(c, s, l.action);
    }
  }

  /** A thread enters a server of a configured provider. */
  predicate Admitted(c: Setting, s: State, l: Label)
    requires Enabled(s, l)
  {
    l.action.Enter? && s.pcs[l.thread].meta.providerName in c.providers
  }

  /** A peer may connect unless a thread of that name is on its way or left its session registered. */
  lemma ConnectsExactly(s: State, p: Peer)
    ensures Enabled(s, Label(Handler(p), Connect)) <==>
            Handler(p) in s.pcs ==>
              RegistrationOf(s, p) == None && (s.pcs[Handler(p)].Finished? || s.pcs[Handler(p)].Crashed?)
  {
  }

  /** Only entering a server of a configured provider and leaving change what is registered. */
  lemma QuietStep(c: Setting, s: State, l: Label)
    requires Enabled(s, l) && !Admitted(c, s, l) && !l.action.Leave? && PatrolStaysOut(s)
    ensures Step(c, s, l).table == s.table && Step(c, s, l).tickets == s.tickets
    ensures forall p :: RegistrationOf(Step(c, s, l), p) == RegistrationOf(s, p)
  {
    StepIsLocal(c, s, l);
    var s' := Step(c, s, l);
    if !l.action.Tick? && l.thread.Handler? {
      QuietOwn(c, s, l);
    }
    forall p ensures RegistrationOf(s', p) == RegistrationOf(s, p) {
      if l.action.Tick? || Handler(p) != l.thread {
        assert Handler(p) in s'.pcs <==> Handler(p) in s.pcs;
      }
    }
  }

  lemma QuietOwn(c: Setting, s: State, l: Label)
    requires Enabled(s, l) && !Admitted(c, s, l) && !l.action.Leave? && !l.action.Tick? && l.thread.Handler?
    ensures RegistrationOf(Step(c, s, l), l.thread.peer) == RegistrationOf(s, l.thread.peer)
  {
  }

  lemma SortedIsDistinct(s: State, sessions: seq<Peer>)
    requires InTicketOrder(s, sessions)
    ensures Distinct(sessions)
  {
    forall i, j | 0 <= i < j < |sessions| ensures sessions[i] != sessions[j] {
      assert TicketOf(s, sessions[i]) < TicketOf(s, sessions[j]);
    }
  }

  /** The tickets of listed peers other than p are the same in both states. */
  predicate SameElsewhere(s: State, s': State, p: Peer, q: Peer) {
    q != p ==> RegistrationOf(s', q) == RegistrationOf(s, q)
  }

  lemma EnterList(s: State, s': State, name: string, sessions: seq<Peer>, p: Peer)
    requires ListOk(s, name, sessions)
    requires forall q | RegistrationOf(s, q).Some? :: TicketOf(s, q) < s.tickets
    requires RegistrationOf(s, p) == None && RegistrationOf(s', p) == Some((name, s.tickets))
    requires forall q :: SameElsewhere(s, s', p, q)
    ensures ListOk(s', name, sessions + [p])
  {
    var longer := sessions + [p];
    forall q ensures q in longer <==> RegisteredFor(s', q, name) {
      assert SameElsewhere(s, s', p, q);
      assert q in longer <==> q in sessions || q == p;
    }
    forall i, j | 0 <= i < j < |longer| ensures TicketOf(s', longer[i]) < TicketOf(s', longer[j]) {
      assert longer[i] == sessions[i] && sessions[i] in sessions && SameElsewhere(s, s', p, sessions[i]);
      if j < |sessions| {
        assert longer[j] == sessions[j] && sessions[j] in sessions && SameElsewhere(s, s', p, sessions[j]);
      }
    }
  }

  lemma LeaveMembers(s: State, s': State, name: string, sessions: seq<Peer>, k: nat)
    requires Members(s, name, sessions) && Distinct(sessions) && k < |sessions|
    requires RegistrationOf(s', sessions[k]) == None
    requires forall q :: SameElsewhere(s, s', sessions[k], q)
    ensures Members(s', name, sessions[..k] + sessions[k + 1..])
  {
    var p, others := sessions[k], sessions[..k] + sessions[k + 1..];
    forall q ensures q in others <==> RegisteredFor(s', q, name) {
      assert SameElsewhere(s, s', p, q);
      if q in sessions && q != p {
        var i :| 0 <= i < |sessions| && sessions[i] == q;
        assert others[if i < k then i else i - 1] == q;
      }
      if q in others {
        var i :| 0 <= i < |others| && others[i] == q;
        assert q == sessions[if i < k then i else i + 1];
      }
    }
  }

  lemma LeaveOrder(s: State, s': State, sessions: seq<Peer>, k: nat)
    requires InTicketOrder(s, sessions) && Distinct(sessions) && k < |sessions|
    requires forall q :: SameElsewhere(s, s', sessions[k], q)
    ensures InTicketOrder(s', sessions[..k] + sessions[k + 1..])
  {
    var others := sessions[..k] + sessions[k + 1..];
    forall i, j | 0 <= i < j < |others| ensures TicketOf(s', others[i]) < TicketOf(s', others[j]) {
      var i', j' := if i < k then i else i + 1, if j < k then j else j + 1;
      assert others[i] == sessions[i'] && others[j] == sessions[j'];
      assert TicketOf(s, sessions[i']) < TicketOf(s, sessions[j']);
      assert SameElsewhere(s, s', sessions[k], sessions[i']) && SameElsewhere(s, s', sessions[k], sessions[j']);
    }
  }

  lemma LeaveList(s: State, s': State, name: string, sessions: seq<Peer>, p: Peer)
    requires ListOk(s, name, sessions) && RegisteredFor(s, p, name)
    requires RegistrationOf(s', p) == None
    requires forall q :: SameElsewhere(s, s', p, q)
    ensures ListOk(s', name, Others(sessions, p))
  {
    SortedIsDistinct(s, sessions);
    assert p in sessions;
    var k :| 0 <= k < |sessions| && sessions[k] == p;
    OthersRemovesOne(sessions, k);
    LeaveMembers(s, s', name, sessions, k);
    LeaveOrder(s, s', sessions, k);
  }

  lemma UnconcernedList(s: State, s': State, name: string, sessions: seq<Peer>, p: Peer)
    requires ListOk(s, name, sessions)
    requires !RegisteredFor(s, p, name) && !RegisteredFor(s', p, name)
    requires forall q :: SameElsewhere(s, s', p, q)
    ensures ListOk(s', name, sessions)
  {
    forall q ensures q in sessions <==> RegisteredFor(s', q, name) {
      assert SameElsewhere(s, s', p, q);
    }
    forall i, j | 0 <= i < j < |sessions| ensures TicketOf(s', sessions[i]) < TicketOf(s', sessions[j]) {
      assert sessions[i] in sessions && sessions[j] in sessions;
      assert SameElsewhere(s, s', p, sessions[i]) && SameElsewhere(s, s', p, sessions[j]);
    }
  }

  lemma EnterStep(c: Setting, s: State, l: Label)
    requires SessionInv(s) && Enabled(s, l) && Admitted(c, s, l)
    ensures SessionInv(Step(c, s, l))
  {
    PatrolStaysOutStep(c, s, l);
    var s' := Step(c, s, l);
    var p, name := l.thread.peer, s.pcs[l.thread].meta.serverName;
    assert RegistrationOf(s', p) == Some((name, s.tickets));
    forall q ensures SameElsewhere(s, s', p, q) {
    }
    forall other ensures ListOk(s', other, SessionsOf(s'.table, other)) {
      assert ListOk(s, other, SessionsOf(s.table, other));
      if other == name {
        EnterList(s, s', name, SessionsOf(s.table, name), p);
      } else {
        UnconcernedList(s, s', other, SessionsOf(s.table, other), p);
      }
    }
    forall q | RegistrationOf(s', q).Some? ensures TicketOf(s', q) < s'.tickets {
      assert SameElsewhere(s, s', p, q);
    }
  }

  lemma LeaveStep(c: Setting, s: State, l: Label)
    requires SessionInv(s) && Enabled(s, l) && l.action.Leave?
    ensures SessionInv(Step(c, s, l))
  {
    PatrolStaysOutStep(c, s, l);
    var s' := Step(c, s, l);
    var p, name := l.thread.peer, s.pcs[l.thread].meta.serverName;
    assert RegisteredFor(s, p, name) && RegistrationOf(s', p) == None;
    forall q ensures SameElsewhere(s, s', p, q) {
    }
    forall other ensures ListOk(s', other, SessionsOf(s'.table, other)) {
      assert ListOk(s, other, SessionsOf(s.table, other));
      if other == name {
        assert p in SessionsOf(s.table, name);
        LeaveList(s, s', name, SessionsOf(s.table, name), p);
      } else {
        UnconcernedList(s, s', other, SessionsOf(s.table, other), p);
      }
    }
    forall q | RegistrationOf(s', q).Some? ensures TicketOf(s', q) < s'.tickets {
      assert SameElsewhere(s, s', p, q);
    }
  }

  lemma SessionInvStep(c: Setting, s: State, l: Label)
    requires SessionInv(s) && Enabled(s, l)
    ensures SessionInv(Step(c, s, l))
  {
    if Admitted(c, s, l) {
      EnterStep(c, s, l);
    } else if l.action.Leave? {
      LeaveStep(c, s, l);
    } else {
      PatrolStaysOutStep(c, s, l);
      QuietStep(c, s, l);
      SameRegistrations(s, Step(c, s, l));
    }
  }

  lemma SameRegistrations(s: State, s': State)
    requires SessionInv(s) && PatrolStaysOut(s') && s'.table == s.table && s'.tickets == s.tickets
    requires forall p :: RegistrationOf(s', p) == RegistrationOf(s, p)
    ensures SessionInv(s')
  {
    forall name ensures ListOk(s', name, SessionsOf(s'.table, name)) {
      assert ListOk(s, name, SessionsOf(s.table, name));
    }
  }

  lemma {:induction false} SessionInvHolds(c: Setting, states: seq<State>, labels: seq<Label>, i: nat)
    requires Run(c, states, labels) && i < |states|
    ensures SessionInv(states[i])
  {
    if i > 0 {
      assert StepOk(c, states, labels, i - 1);
      SessionInvHolds(c, states, labels, i - 1);
      SessionInvStep(c, states[i - 1], labels[i - 1]);
    }
  }

  /**
   * Session accounting: in every reachable state the session list of each server holds exactly
   * one entry for each thread between its registration and its removal, in the order of their
   * registrations. Threads that an exception ended in between keep their entry.
   */
  lemma SessionAccounting(c: Setting, states: seq<State>, labels: seq<Label>, i: nat, name: string)
    requires Run(c, states, labels) && i < |states|
    ensures Distinct(SessionsOf(states[i].table, name))
    ensures forall p :: p in SessionsOf(states[i].table, name) <==> UsesOrStuck(states[i], p, name)
    ensures InTicketOrder(states[i], SessionsOf(states[i].table, name))
  {
    SessionInvHolds(c, states, labels, i);
    assert ListOk(states[i], name, SessionsOf(states[i].table, name));
    SortedIsDistinct(states[i], SessionsOf(states[i].table, name));
  }

  /** The thread is using the server, or an exception ended it while it was. */
  predicate UsesOrStuck(s: State, p: Peer, name: string) {
    && Handler(p) in s.pcs
    && (|| (s.pcs[Handler(p)].Using? && s.pcs[Handler(p)].meta.serverName == name)
        || (s.pcs[Handler(p)].Crashed? && s.pcs[Handler(p)].stuck.Some? && s.pcs[Handler(p)].stuck.value.0 == name))
  }
}
