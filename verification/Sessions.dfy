/** The session table: for each server name, the peers attached to it in order. */
module Sessions {

  /** The address a transport's `getpeername` reports. */
  datatype Peer = Peer(host: string, port: nat)

  type Table = map<string, seq<Peer>>

  function SessionsOf(table: Table, name: string): seq<Peer> {
    if name in table then table[name] else []
  }

  function Attached(table: Table, name: string, peer: Peer): Table {
    table[name := SessionsOf(table, name) + [peer]]
  }

  function Others(sessions: seq<Peer>, peer: Peer): seq<Peer> {
    if sessions == [] then []
    else if sessions[0] == peer then Others(sessions[1..], peer)
    else [sessions[0]] + Others(sessions[1..], peer)
  }

  function Detached(table: Table, name: string, peer: Peer): Table {
    if SessionsOf(table, name) == [] then table else table[name := Others(SessionsOf(table, name), peer)]
  }

  predicate Distinct(sessions: seq<Peer>) {
    forall i, j | 0 <= i < j < |sessions| :: sessions[i] != sessions[j]
  }

  lemma {:induction false} OthersOfStranger(sessions: seq<Peer>, peer: Peer)
    requires peer !in sessions
    ensures Others(sessions, peer) == sessions
  {
    if sessions != [] {
      OthersOfStranger(sessions[1..], peer);
    }
  }

  /** Among distinct peers exactly the caller's own entry goes and the order of the others stays. */
  lemma {:induction false} OthersRemovesOne(sessions: seq<Peer>, i: nat)
    requires Distinct(sessions) && i < |sessions|
    ensures Others(sessions, sessions[i]) == sessions[..i] + sessions[i + 1..]
  {
    if i == 0 {
      OthersOfStranger(sessions[1..], sessions[0]);
    } else {
      OthersRemovesOne(sessions[1..], i - 1);
    }
  }

  lemma {:induction false} OthersOfConcat(a: seq<Peer>, b: seq<Peer>, peer: Peer)
    ensures Others(a + b, peer) == Others(a, peer) + Others(b, peer)
  {
    if a == [] {
      assert a + b == b;
    } else {
      assert (a + b)[1..] == a[1..] + b;
      OthersOfConcat(a[1..], b, peer);
    }
  }

  /**
   * Leaving undoes entering, whatever other peers did in between: without the caller's entries
   * the list of every server is what the others made of it.
   */
  lemma DetachUndoesAttach(table: Table, name: string, peer: Peer, later: seq<Peer>, other: string)
    requires peer !in SessionsOf(table, name) && peer !in later
    ensures SessionsOf(
              Detached(table[name := SessionsOf(Attached(table, name, peer), name) + later], name, peer), other)
         == if other == name then SessionsOf(table, name) + later else SessionsOf(table, other)
  {
    var before := SessionsOf(table, name);
    OthersOfConcat(before + [peer], later, peer);
    OthersOfConcat(before, [peer], peer);
    OthersOfStranger(before, peer);
    OthersOfStranger(later, peer);
    assert [peer][1..] == [];
    assert before + [] == before;
  }

  /** The table all connection threads share. */
  class SessionTable {
    var active: Table

    constructor ()
      ensures active == map[]
    {
      active := map[];
    }

    /** `active_session.setdefault(name, []).append(transport)` */
    method Register(name: string, peer: Peer)
      modifies this
      ensures active == Attached(old(active), name, peer)
    {
      if name !in active {
        active := active[name := []];
      }
      active := active[name := active[name] + [peer]];
    }

    /** `remove_server_session` */
    method RemoveServerSession(name: string, peer: Peer)
      modifies this
      ensures active == Detached(old(active), name, peer)
    {
      if name in active && active[name] != [] {
        var sessions, kept := active[name], [];
        assert sessions[0..] == sessions;
        for i := 0 to |sessions|
          invariant Others(sessions, peer) == kept + Others(sessions[i..], peer)
          invariant active == old(active)
        {
          assert sessions[i..] == [sessions[i]] + sessions[i + 1..];
          if sessions[i] != peer {
            kept := kept + [sessions[i]];
          }
        }
        assert sessions[|sessions|..] == [] && kept + [] == kept;
        active := active[name := kept];
      }
    }
  }
}
