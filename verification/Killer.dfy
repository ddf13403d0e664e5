/** The server killer: one patrol pass over the server file, and the destroy step. */
module Killer {
  import opened Wrappers
  import opened Billing
  import opened ServerFile
  import opened Database
  import opened Seqs
  import opened Sessions

  /** What a call of `destroy_server` does: it succeeds, it returns False, or it raises. */
  datatype Outcome = Destroyed | ReportsFailure | Raises

  datatype KillError = UnknownProvider | JudgeFailed(error: JudgeError) | NotManagedByMe | ProviderFailed | BadFile

  /** The servers that exist at the providers. */
  class Cloud {
    var live: set<string>

    constructor (live: set<string>)
      ensures this.live == live
    {
      this.live := live;
    }

    method DestroyServer(name: string, outcome: Outcome)
      modifies this
      ensures live == if outcome == Destroyed then old(live) - {name} else old(live)
    {
      if outcome == Destroyed {
        live := live - {name};
      }
    }
  }

  /** What does not change during one pass: configuration, sessions, the clock and the providers' answers. */
  datatype Env = Env(
    watched: map<string, ProviderConfig>,
    sessions: Table,
    now: int,
    outcomes: map<string, Outcome>)

  /** What a pass changes: the recorded servers and the living ones. */
  datatype World = World(servers: seq<Meta>, live: set<string>)

  function OutcomeFor(env: Env, name: string): Outcome {
    if name in env.outcomes then env.outcomes[name] else Destroyed
  }

  /** The verdict on a server with that many sessions, the clock being read twice. */
  function JudgeServer(watched: map<string, ProviderConfig>, sessions: nat, m: Meta, first: int, second: int)
    : Result<Verdict, KillError>
  {
    if m.providerName !in watched then Failure(UnknownProvider)
    else match NeedDestroy(sessions, m.manage, watched[m.providerName],
                           first - m.createdTimestamp, second - m.createdTimestamp)
      case Failure(e) => Failure(JudgeFailed(e))
      case Success(v) => Success(v)
  }

  function Judge(env: Env, m: Meta): Result<Verdict, KillError> {
    JudgeServer(env.watched, |SessionsOf(env.sessions, m.serverName)|, m, env.now, env.now)
  }

  /** Nobody uses the managed server and its time is up. */
  ghost predicate Due(env: Env, m: Meta) {
    && SessionsOf(env.sessions, m.serverName) == []
    && m.manage
    && m.providerName in env.watched
    && TimeIsUp(env.watched[m.providerName], env.now - m.createdTimestamp)
  }

  /** The check decides to destroy a server exactly when it is due. */
  lemma JudgedExactly(env: Env, m: Meta)
    ensures Judge(env, m).Success? && Judge(env, m).value.Destroy? <==> Due(env, m)
  {
    if m.providerName in env.watched {
      DestroysExactly(|SessionsOf(env.sessions, m.serverName)|, m.manage, env.watched[m.providerName],
                      env.now - m.createdTimestamp);
    }
  }

  /** In terms of the settings. */
  lemma DueExactly(env: Env, m: Meta, minLife: nat, unit: nat, safe: nat)
    requires m.providerName in env.watched && HasTerms(env.watched[m.providerName], minLife, unit, safe)
    ensures var age := env.now - m.createdTimestamp;
            Judge(env, m).Success? && Judge(env, m).value.Destroy? <==>
            && SessionsOf(env.sessions, m.serverName) == []
            && m.manage
            && (minLife == 0 || (age >= minLife && unit > 0 && exists k :: k >= 1 && InWindow(k, unit, safe, age)))
  {
    JudgedExactly(env, m);
    TimeIsUpExactly(env.watched[m.providerName], minLife, unit, safe, env.now - m.createdTimestamp);
  }

  /** Why the check of one server ends the whole pass, if it does. */
  ghost function Stops(env: Env, m: Meta): Option<KillError> {
    if Judge(env, m).Failure? then Some(Judge(env, m).error)
    else if Due(env, m) && OutcomeFor(env, m.serverName) == Raises then Some(ProviderFailed)
    else None
  }

  /**
   * A check goes through exactly when the provider is known, the settings it comes to can be used
   * and the provider does not raise.
   */
  lemma GoesOnExactly(env: Env, m: Meta)
    ensures Stops(env, m) == None <==>
            && m.providerName in env.watched
            && !(Due(env, m) && OutcomeFor(env, m.serverName) == Raises)
            && (SessionsOf(env.sessions, m.serverName) != [] || !m.manage
                || !RaisesForIdle(env.watched[m.providerName], env.now - m.createdTimestamp, env.now - m.createdTimestamp))
  {
    if m.providerName in env.watched {
      var age := env.now - m.createdTimestamp;
      RaisesExactly(|SessionsOf(env.sessions, m.serverName)|, m.manage, env.watched[m.providerName], age, age);
    }
  }

  ghost function CheckOne(env: Env, m: Meta, w: World): World {
    if Stops(env, m).Some? || !Due(env, m) then w else AfterDestroy(m, OutcomeFor(env, m.serverName), w)
  }

  /** The provider has answered without raising: whatever the answer, the record goes. */
  function AfterDestroy(m: Meta, outcome: Outcome, w: World): World {
    World(Update(w.servers, [], [m]), if outcome == Destroyed then w.live - {m.serverName} else w.live)
  }

  /**
   * What the provider's answer does to a server that is due: an exception keeps everything, any
   * other answer removes the record, and only a success ends the server.
   */
  lemma AnswerDecides(env: Env, m: Meta, w: World)
    requires Due(env, m) && m.serverName in env.outcomes
    ensures match env.outcomes[m.serverName]
            case Raises => Stops(env, m) == Some(ProviderFailed) && CheckOne(env, m, w) == w
            case ReportsFailure =>
              Stops(env, m) == None && CheckOne(env, m, w) == World(Pop(w.servers, m.serverName), w.live)
            case Destroyed =>
              && Stops(env, m) == None
              && CheckOne(env, m, w) == World(Pop(w.servers, m.serverName), w.live - {m.serverName})
  {
    JudgedExactly(env, m);
    UpdateOne(w.servers, m);
  }

  /** The loop over the snapshot; it is left when a check raises. */
  ghost function Pass(env: Env, todo: seq<Meta>, w: World): (World, Option<KillError>) {
    if todo == [] then (w, None)
    else if Stops(env, todo[0]).Some? then (CheckOne(env, todo[0], w), Stops(env, todo[0]))
    else Pass(env, todo[1..], CheckOne(env, todo[0], w))
  }

  // ---- One pass is a filter ------------------------------------------------------------------

  ghost function Spared(env: Env, servers: seq<Meta>): seq<Meta> {
    if servers == [] then []
    else (if Due(env, servers[0]) then [] else [servers[0]]) + Spared(env, servers[1..])
  }

  ghost function Killed(env: Env, servers: seq<Meta>): set<string> {
    set m | m in servers && Due(env, m) && OutcomeFor(env, m.serverName) == Destroyed :: m.serverName
  }

  /** Removing the record behind a kept prefix from the file. */
  lemma RemoveNext(kept: seq<Meta>, todo: seq<Meta>)
    requires todo != [] && IsMap(kept + todo)
    ensures Update(kept + todo, [], [todo[0]]) == kept + todo[1..]
    ensures IsMap(kept + todo[1..])
  {
    var servers, m := kept + todo, todo[0];
    UpdateOne(servers, m);
    OthersDiffer(servers, |kept|);
    PopAt(servers, |kept|, m.serverName);
    assert servers[..|kept|] + servers[|kept| + 1..] == kept + todo[1..];
    IsMapPop(servers, m.serverName);
  }

  lemma {:induction false} SparedOfConcat(env: Env, a: seq<Meta>, b: seq<Meta>)
    ensures Spared(env, a + b) == Spared(env, a) + Spared(env, b)
  {
    if a == [] {
      assert a + b == b;
    } else {
      assert (a + b)[1..] == a[1..] + b;
      SparedOfConcat(env, a[1..], b);
    }
  }

  lemma CheckFirst(env: Env, kept: seq<Meta>, todo: seq<Meta>, live: set<string>)
    requires todo != [] && IsMap(kept + todo) && Stops(env, todo[0]).None?
    ensures CheckOne(env, todo[0], World(kept + todo, live))
         == World((kept + Spared(env, [todo[0]])) + todo[1..], live - Killed(env, [todo[0]]))
    ensures IsMap((kept + Spared(env, [todo[0]])) + todo[1..])
  {
    var m := todo[0];
    assert [m][1..] == [];
    if Due(env, m) {
      RemoveNext(kept, todo);
      assert Spared(env, [m]) == [] && kept + [] == kept;
      if OutcomeFor(env, m.serverName) == Destroyed {
        assert Killed(env, [m]) == {m.serverName};
      } else {
        assert Killed(env, [m]) == {};
      }
    } else {
      assert Spared(env, [m]) == [m] && Killed(env, [m]) == {};
      assert (kept + [m]) + todo[1..] == kept + todo;
    }
  }

  /** The first server of a sequence and the others. */
  lemma FirstAndOthers(env: Env, kept: seq<Meta>, todo: seq<Meta>, live: set<string>, i: nat)
    requires 0 < i <= |todo|
    ensures kept + Spared(env, todo[..i]) == (kept + Spared(env, [todo[0]])) + Spared(env, todo[1..][..i - 1])
    ensures live - Killed(env, todo[..i]) == live - Killed(env, [todo[0]]) - Killed(env, todo[1..][..i - 1])
  {
    var first, others := [todo[0]], todo[1..][..i - 1];
    assert todo[..i] == first + others;
    SparedOfConcat(env, first, others);
    Assoc(kept, Spared(env, first), Spared(env, others));
    assert Killed(env, todo[..i]) == Killed(env, first) + Killed(env, others);
  }

  /**
   * A pass that gets as far as the i-th remaining server: behind the records kept before, the
   * file keeps those of the checked servers that are not due, in order, and all unchecked ones.
   */
  lemma {:induction false} PassIsFilter(env: Env, kept: seq<Meta>, todo: seq<Meta>, live: set<string>, i: nat)
    requires IsMap(kept + todo) && i <= |todo|
    requires forall j | 0 <= j < i :: Stops(env, todo[j]).None?
    requires i < |todo| ==> Stops(env, todo[i]).Some?
    ensures Pass(env, todo, World(kept + todo, live))
         == (World((kept + Spared(env, todo[..i])) + todo[i..], live - Killed(env, todo[..i])),
             if i < |todo| then Stops(env, todo[i]) else None)
    decreases i
  {
    if i == 0 {
      assert kept + Spared(env, todo[..0]) == kept && todo[0..] == todo;
      assert live - Killed(env, todo[..0]) == live;
    } else {
      CheckFirst(env, kept, todo, live);
      FirstAndOthers(env, kept, todo, live, i);
      assert todo[1..][i - 1..] == todo[i..];
      PassIsFilter(env, kept + Spared(env, [todo[0]]), todo[1..], live - Killed(env, [todo[0]]), i - 1);
    }
  }

  /**
   * A pass in which nothing raises leaves exactly the servers that are not due, in their order,
   * and destroys the others unless their provider reports a failure.
   */
  lemma CompletePass(env: Env, servers: seq<Meta>, live: set<string>)
    requires IsMap(servers) && forall m | m in servers :: Stops(env, m).None?
    ensures Pass(env, servers, World(servers, live)) == (World(Spared(env, servers), live - Killed(env, servers)), None)
    ensures forall m :: m in Spared(env, servers) <==> m in servers && !Due(env, m)
    ensures forall name :: name in Killed(env, servers) <==>
              exists m | m in servers :: m.serverName == name && Due(env, m) && OutcomeFor(env, name) == Destroyed
  {
    SparedAreNotDue(env, servers);
    assert [] + servers == servers && servers[..|servers|] == servers;
    PassIsFilter(env, [], servers, live, |servers|);
    assert ([] + Spared(env, servers)) + servers[|servers|..] == Spared(env, servers);
  }

  lemma {:induction false} SparedAreNotDue(env: Env, servers: seq<Meta>)
    ensures forall m :: m in Spared(env, servers) <==> m in servers && !Due(env, m)
  {
    if servers != [] {
      SparedAreNotDue(env, servers[1..]);
      forall m ensures m in Spared(env, servers) <==> m in servers && !Due(env, m) {
        assert m in servers <==> m == servers[0] || m in servers[1..];
        assert m in Spared(env, servers) <==> (m == servers[0] && !Due(env, m)) || m in Spared(env, servers[1..]);
      }
    }
  }

  lemma {:induction false} NothingDue(env: Env, todo: seq<Meta>, w: World)
    requires forall m | m in todo :: Stops(env, m).None? && !Due(env, m)
    ensures Pass(env, todo, w) == (w, None)
  {
    if todo != [] {
      assert todo[0] in todo;
      NothingDue(env, todo[1..], w);
    }
  }

  /** A second pass over what the first one left changes nothing. */
  lemma SecondPassChangesNothing(env: Env, servers: seq<Meta>, live: set<string>)
    requires IsMap(servers) && forall m | m in servers :: Stops(env, m).None?
    ensures var (w, _) := Pass(env, servers, World(servers, live)); Pass(env, w.servers, w) == (w, None)
  {
    CompletePass(env, servers, live);
    SparedAreNotDue(env, servers);
    NothingDue(env, Spared(env, servers), World(Spared(env, servers), live - Killed(env, servers)));
  }

  // ---- The killer itself -------------------------------------------------------------------------

  class ServerKiller {
    const db: ServerDb
    const table: SessionTable
    const cloud: Cloud
    const watched: map<string, ProviderConfig>

    constructor (db: ServerDb, table: SessionTable, cloud: Cloud, watched: map<string, ProviderConfig>)
      ensures this.db == db && this.table == table && this.cloud == cloud && this.watched == watched
    {
      this.db, this.table, this.cloud, this.watched := db, table, cloud, watched;
    }

    ghost function WorldNow(now: int): World
      requires Load(db.text, now).Success?
      reads db, cloud
    {
      World(Load(db.text, now).value, cloud.live)
    }

    function EnvNow(now: int, outcomes: map<string, Outcome>): Env
      reads table
    {
      Env(watched, table.active, now, outcomes)
    }

    /**
     * `destroy`: the provider's answer is not looked at; only an exception keeps the record. A
     * file that cannot be loaded raises after the provider has been called.
     */
    method Destroy(m: Meta, outcome: Outcome, now: int) returns (error: Option<KillError>)
      modifies db, cloud
      ensures error == if !m.manage then Some(NotManagedByMe)
                       else if outcome == Raises then Some(ProviderFailed)
                       else if old(Load(db.text, now)).Failure? then Some(BadFile)
                       else None
      ensures error.Some? ==> db.text == old(db.text)
      ensures cloud.live == if m.manage && outcome == Destroyed then old(cloud.live) - {m.serverName} else old(cloud.live)
      ensures error.None? ==>
                && Load(db.text, now).Success?
                && WorldNow(now) == AfterDestroy(m, outcome, old(WorldNow(now)))
                && db.text == Some(Save(WorldNow(now).servers))
    {
      if !m.manage {
        return Some(NotManagedByMe);
      }
      if outcome == Raises {
        return Some(ProviderFailed);
      }
      cloud.DestroyServer(m.serverName, outcome);
      var failure, _ := db.UpdateLocalServers([], [m], now);
      if failure.Some? {
        return Some(BadFile);
      }
      ghost var servers := old(Load(db.text, now)).value;
      LoadIsMap(old(db.text), now);
      IsMapUpdate(servers, [], [m]);
      LoadOfSave(Update(servers, [], [m]), now);
      error := None;
    }

    /** The body of the loop for one server of the snapshot. */
    method CheckServer(m: Meta, now: int, outcomes: map<string, Outcome>) returns (error: Option<KillError>)
      modifies db, cloud
      ensures old(Load(db.text, now)).Success? ==>
                && Load(db.text, now).Success?
                && error == Stops(EnvNow(now, outcomes), m)
                && WorldNow(now) == CheckOne(EnvNow(now, outcomes), m, old(WorldNow(now)))
      ensures old(Load(db.text, now)).Failure? ==>
                var env := EnvNow(now, outcomes);
                && db.text == old(db.text)
                && cloud.live == if Due(env, m) && OutcomeFor(env, m.serverName) == Destroyed
                                 then old(cloud.live) - {m.serverName} else old(cloud.live)
    {
      var env := EnvNow(now, outcomes);
      var verdict := Judge(env, m);
      JudgedExactly(env, m);
      if verdict.Failure? {
        return Some(verdict.error);
      }
      error := None;
      if verdict.value.Destroy? {
        error := Destroy(m, OutcomeFor(env, m.serverName), now);
      }
    }

    /** `check_all_live_servers`, while the clock and the sessions stand still. */
    method CheckAllLiveServers(now: int, outcomes: map<string, Outcome>) returns (error: Option<KillError>)
      modifies db, cloud
      ensures match old(Load(db.text, now))
              case Failure(_) => error == Some(BadFile) && db.text == old(db.text) && cloud.live == old(cloud.live)
              case Success(servers) =>
                var (w, e) := Pass(EnvNow(now, outcomes), servers, World(servers, old(cloud.live)));
                error == e && Load(db.text, now) == Success(w.servers) && cloud.live == w.live
    {
      var failure, metas := db.LoadLocalServers(now);
      if failure.Some? {
        return Some(BadFile);
      }
      var snapshot := metas.values;
      ghost var env, start := EnvNow(now, outcomes), World(snapshot, cloud.live);
      for i := 0 to |snapshot|
        invariant env == EnvNow(now, outcomes)
        invariant Load(db.text, now).Success?
        invariant Pass(env, snapshot, start) == Pass(env, snapshot[i..], WorldNow(now))
      {
        assert snapshot[i..][0] == snapshot[i] && snapshot[i..][1..] == snapshot[i + 1..];
        error := CheckServer(snapshot[i], now, outcomes);
        if error.Some? {
          return;
        }
      }
      error := None;
    }
  }
}
