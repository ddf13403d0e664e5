/**
 * A connection thread on its own: choosing or creating a server, registering the session, and the
 * clean-up with the check whether to destroy the server.
 */
module SocketHandle {
  import opened Wrappers
  import opened Decimal
  import opened Billing
  import opened ServerFile
  import opened Database
  import opened Sessions
  import opened Killer
  import opened Menu

  /** Why a visitor gets no server; `NoInput` stands for a thread that waits in the menu for ever. */
  datatype HandlerError = LeftMenu | NoInput | NoProvider | CreateFailed | BadServerFile

  /** What `create_server` of a provider does: it returns a record or raises. */
  datatype Offer = Creates(meta: Meta) | CannotCreate

  const CREATE_OPTION := "Create a new server..."

  function Describe(table: Table, m: Meta): string {
    "Enter " + m.providerName + " " + m.serverName + " " + m.serverHost
    + " (" + Decimal.Show(|SessionsOf(table, m.serverName)|) + " active sessions)"
  }

  /** The option of a server counts the sessions listed for it. */
  lemma DescribeCounts(table: Table, m: Meta, sessions: seq<Peer>)
    ensures Describe(table[m.serverName := sessions], m)
         == "Enter " + m.providerName + " " + m.serverName + " " + m.serverHost
            + " (" + Show(|sessions|) + " active sessions)"
    ensures m.serverName !in table ==> Describe(table, m) == Describe(table[m.serverName := []], m)
  {
  }

  function Options(table: Table, servers: seq<Meta>): (options: seq<string>)
    ensures |options| == 1 + |servers|
    ensures forall k | 0 < k < |options| :: options[k] == Describe(table, servers[k - 1])
  {
    [CREATE_OPTION] + seq(|servers|, i requires 0 <= i < |servers| => Describe(table, servers[i]))
  }

  /** The world after a visitor has got a server: a new one lives and is recorded. */
  function AfterChoice(m: Meta, created: bool, w: World): World {
    if created then World(Update(w.servers, [m], []), w.live + {m.serverName}) else w
  }

  lemma {:induction false} PopOfPutNew(servers: seq<Meta>, m: Meta)
    requires m.serverName !in Names(servers)
    ensures Pop(Put(servers, m), m.serverName) == servers
  {
    PutNewGoesLast(servers, m);
    var longer := servers + [m];
    forall j | 0 <= j < |longer| && j != |servers| ensures longer[j].serverName != m.serverName {
      assert Names(servers)[j] == servers[j].serverName;
    }
    PopAt(longer, |servers|, m.serverName);
    assert longer[..|servers|] + longer[|servers| + 1..] == servers;
  }

  /** Creating a server and destroying it again leaves no trace in the file or at the provider. */
  lemma DestroyUndoesCreate(m: Meta, w: World)
    requires m.serverName !in Names(w.servers) && m.serverName !in w.live
    ensures AfterDestroy(m, Destroyed, AfterChoice(m, true, w)) == w
  {
    PopOfPutNew(w.servers, m);
    UpdateOne(w.servers, m);
    UpdateOne(Put(w.servers, m), m);
  }

  /** The option at the number selected is the one that shows this server. */
  ghost predicate ShownWhereSelected(m: Meta, table: Table, servers: seq<Meta>, input: string) {
    var options, choice := Options(table, servers), Choose(input, 1 + |servers|, None);
    choice.Selected? && 0 < choice.index < |options| && options[choice.index] == Describe(table, m)
  }

  class SocketHandler {
    const peer: Peer
    const killer: ServerKiller
    const channel: Channel
    const providerNames: seq<string>

    constructor (peer: Peer, killer: ServerKiller, channel: Channel, providerNames: seq<string>)
      ensures this.peer == peer && this.killer == killer && this.channel == channel
      ensures this.providerNames == providerNames
    {
      this.peer, this.killer, this.channel, this.providerNames := peer, killer, channel, providerNames;
    }

    /** A single provider is the default. */
    function DefaultProvider(): Option<int> {
      if |providerNames| == 1 then Some(0) else None
    }

    /** The record that `create_server` of the provider selected by this input returns. */
    function Provided(input: string, offers: map<string, Offer>): Option<Meta> {
      var choice := Choose(input, |providerNames|, DefaultProvider());
      if !choice.Selected? then None
      else
        SelectedInRange(input, |providerNames|, DefaultProvider());
        var name := providerNames[choice.index];
        if name in offers && offers[name].Creates? then Some(offers[name].meta) else None
    }

    /** The number of a provider selects it; an empty first line selects the only one, and none of several. */
    lemma ProviderTyped(input: string)
      ensures forall k: nat, rest | k < |providerNames| && input == Show(k) + ['\r'] + rest ::
                Choose(input, |providerNames|, DefaultProvider()) == Selected(k, rest)
      ensures forall rest | input == ['\r'] + rest ::
                Choose(input, |providerNames|, DefaultProvider())
                == if |providerNames| == 1 then Selected(0, rest) else Choose(rest, |providerNames|, None)
    {
      forall k: nat, rest | k < |providerNames| && input == Show(k) + ['\r'] + rest
        ensures Choose(input, |providerNames|, DefaultProvider()) == Selected(k, rest)
      {
        NumberIsSelected(k, |providerNames|, DefaultProvider(), rest);
      }
      forall rest | input == ['\r'] + rest
        ensures Choose(input, |providerNames|, DefaultProvider())
             == if |providerNames| == 1 then Selected(0, rest) else Choose(rest, |providerNames|, None)
      {
        EmptyLine(|providerNames|, DefaultProvider(), rest);
      }
    }

    predicate Makes(r: Result<Meta, HandlerError>, input: string, offers: map<string, Offer>) {
      if r.Success? then Provided(input, offers) == Some(r.value) else Provided(input, offers).None?
    }

    /** `choose_providers`: a single provider is the default. */
    method ChooseProvider() returns (r: Result<string, HandlerError>)
      modifies channel
      ensures providerNames == [] ==> r == Failure(NoProvider) && channel.input == old(channel.input)
      ensures providerNames != [] ==>
                var choice := Choose(old(channel.input), |providerNames|, DefaultProvider());
                match choice
                case NoMoreInput => r == Failure(NoInput)
                case UserCancelled(rest) => r == Failure(LeftMenu) && channel.input == rest
                case Selected(k, rest) => k < |providerNames| && r == Success(providerNames[k]) && channel.input == rest
      ensures forall k: nat, rest | k < |providerNames| && old(channel.input) == Show(k) + ['\r'] + rest ::
                r == Success(providerNames[k]) && channel.input == rest
      ensures forall rest | |providerNames| == 1 && old(channel.input) == ['\r'] + rest ::
                r == Success(providerNames[0]) && channel.input == rest
    {
      if providerNames == [] {
        return Failure(NoProvider);
      }
      ProviderTyped(channel.input);
      var choice := channel.ChooseOption(providerNames, DefaultProvider());
      match choice
      case NoMoreInput => r := Failure(NoInput);
      case UserCancelled(_) => r := Failure(LeftMenu);
      case Selected(k, _) =>
        SelectedInRange(old(channel.input), |providerNames|, DefaultProvider());
        r := Success(providerNames[k]);
    }

    /**
     * `_ask_user_to_create_server`: creates the server at the provider, then records it. When the
     * file cannot be loaded the new server lives unrecorded.
     */
    method AskUserToCreateServer(offers: map<string, Offer>, now: int) returns (r: Result<Meta, HandlerError>)
      modifies channel, killer.db, killer.cloud
      ensures old(Load(killer.db.text, now)).Failure? ==>
                var made := Provided(old(channel.input), offers);
                && r.Failure? && killer.db.text == old(killer.db.text)
                && killer.cloud.live == old(killer.cloud.live) + if made.Some? then {made.value.serverName} else {}
      ensures old(Load(killer.db.text, now)).Success? ==>
                && Load(killer.db.text, now).Success?
                && Makes(r, old(channel.input), offers)
                && killer.WorldNow(now)
                == if r.Success? then AfterChoice(r.value, true, old(killer.WorldNow(now))) else old(killer.WorldNow(now))
    {
      SelectedInRange(channel.input, |providerNames|, DefaultProvider());
      var provider := ChooseProvider();
      if provider.Failure? {
        return Failure(provider.error);
      }
      if provider.value !in offers || offers[provider.value].CannotCreate? {
        return Failure(CreateFailed);
      }
      var m := offers[provider.value].meta;
      killer.cloud.live := killer.cloud.live + {m.serverName};
      var failure, _ := killer.db.UpdateLocalServers([m], [], now);
      if failure.Some? {
        return Failure(BadServerFile);
      }
      ghost var servers := old(Load(killer.db.text, now)).value;
      LoadIsMap(old(killer.db.text), now);
      IsMapUpdate(servers, [m], []);
      LoadOfSave(Update(servers, [m], []), now);
      r := Success(m);
    }

    /**
     * What `choose_server` gives for these records and this input: without records a new server;
     * otherwise the record shown at the number selected, or a new server for number 0.
     */
    ghost predicate Gives(
      r: Result<Meta, HandlerError>, created: bool, servers: seq<Meta>, input: string, offers: map<string, Offer>)
    {
      var choice := Choose(input, 1 + |servers|, None);
      if servers == [] then created == r.Success? && Makes(r, input, offers)
      else match choice
        case NoMoreInput => r == Failure(NoInput) && !created
        case UserCancelled(_) => r == Failure(LeftMenu) && !created
        case Selected(k, rest) =>
          if k == 0 then created == r.Success? && Makes(r, rest, offers)
          else k <= |servers| && r == Success(servers[k - 1]) && !created
    }

    /** The number of a server gives that server, number 0 what the provider makes of the rest of the input. */
    lemma GivenByNumber(
      r: Result<Meta, HandlerError>, created: bool, servers: seq<Meta>, k: nat, rest: string, offers: map<string, Offer>)
      requires servers != [] && k <= |servers|
      requires Gives(r, created, servers, Show(k) + ['\r'] + rest, offers)
      ensures k > 0 ==> r == Success(servers[k - 1]) && !created
      ensures k == 0 ==> created == r.Success? && Makes(r, rest, offers)
    {
      NumberIsSelected(k, 1 + |servers|, None, rest);
    }

    /** `choose_server`: an existing server is returned only as the one shown at the number selected. */
    method ChooseServer(offers: map<string, Offer>, now: int) returns (r: Result<Meta, HandlerError>, created: bool)
      modifies channel, killer.db, killer.cloud
      ensures old(Load(killer.db.text, now)).Failure? ==>
                && r == Failure(BadServerFile) && !created
                && killer.db.text == old(killer.db.text) && killer.cloud.live == old(killer.cloud.live)
      ensures old(Load(killer.db.text, now)).Success? ==>
                && Load(killer.db.text, now).Success?
                && Gives(r, created, old(Load(killer.db.text, now)).value, old(channel.input), offers)
                && killer.WorldNow(now)
                == if r.Success? then AfterChoice(r.value, created, old(killer.WorldNow(now))) else old(killer.WorldNow(now))
      ensures r.Success? && !created ==>
                ShownWhereSelected(r.value, killer.table.active, old(Load(killer.db.text, now)).value, old(channel.input))
    {
      created := false;
      var failure, available := killer.db.LoadLocalServers(now);
      if failure.Some? {
        return Failure(BadServerFile), false;
      }
      var servers := available.values;
      if servers == [] {
        r := AskUserToCreateServer(offers, now);
        created := r.Success?;
        return;
      }
      var choice := channel.ChooseOption(Options(killer.table.active, servers), None);
      SelectedInRange(old(channel.input), 1 + |servers|, None);
      match choice
      case NoMoreInput => r := Failure(NoInput);
      case UserCancelled(_) => r := Failure(LeftMenu);
      case Selected(k, _) =>
        if k == 0 {
          r := AskUserToCreateServer(offers, now);
          created := r.Success?;
        } else {
          r := Success(servers[k - 1]);
          assert ShownWhereSelected(r.value, killer.table.active, servers, old(channel.input));
        }
    }

    /** `destroy_server_if_needed`; true when an exception leaves it. */
    method DestroyServerIfNeeded(m: Meta, outcome: Outcome, now: int) returns (raised: bool)
      modifies killer.db, killer.cloud
      ensures old(Load(killer.db.text, now)).Success? ==>
                var env := Env(killer.watched, killer.table.active, now, map[m.serverName := outcome]);
                && Load(killer.db.text, now).Success?
                && raised == Stops(env, m).Some?
                && killer.WorldNow(now) == CheckOne(env, m, old(killer.WorldNow(now)))
      ensures old(Load(killer.db.text, now)).Failure? ==> killer.db.text == old(killer.db.text)
    {
      var error := killer.CheckServer(m, now, map[m.serverName := outcome]);
      raised := error.Some?;
    }

    /**
     * `run`, once a shell was asked for: the visitor gets a server and uses it until the session
     * ends, or until an exception leaves it when `breaks` holds. Afterwards the clean-up removes
     * the session and checks the server; after an exception it does neither.
     */
    method Run(offers: map<string, Offer>, breaks: bool, outcome: Outcome, now: int)
      returns (chosen: Option<Meta>, created: bool)
      modifies channel, killer.db, killer.cloud, killer.table
      ensures old(Load(killer.db.text, now)).Failure? ==> chosen.None? && killer.db.text == old(killer.db.text)
      ensures chosen.None? ==> killer.table.active == old(killer.table.active)
      ensures old(Load(killer.db.text, now)).Success? ==> Load(killer.db.text, now).Success?
      ensures old(Load(killer.db.text, now)).Success? ==>
                exists r | Gives(r, created, old(Load(killer.db.text, now)).value, old(channel.input), offers) ::
                  && chosen == (if r.Success? && r.value.providerName in killer.watched then Some(r.value) else None)
                  && (chosen.None? ==>
                        killer.WorldNow(now)
                        == if r.Success? then AfterChoice(r.value, created, old(killer.WorldNow(now))) else old(killer.WorldNow(now)))
      ensures chosen.Some? ==> old(Load(killer.db.text, now)).Success?
      ensures chosen.Some? && breaks ==>
                && killer.table.active == Attached(old(killer.table.active), chosen.value.serverName, peer)
                && killer.WorldNow(now) == AfterChoice(chosen.value, created, old(killer.WorldNow(now)))
      ensures chosen.Some? && !breaks ==>
                var m := chosen.value;
                var attached := Attached(old(killer.table.active), m.serverName, peer);
                && killer.table.active == Detached(attached, m.serverName, peer)
                && killer.WorldNow(now)
                == CheckOne(Env(killer.watched, killer.table.active, now, map[m.serverName := outcome]), m,
                            AfterChoice(m, created, old(killer.WorldNow(now))))
    {
      chosen := None;
      var r;
      r, created := ChooseServer(offers, now);
      if r.Failure? || r.value.providerName !in killer.watched {
        return;
      }
      var m := r.value;
      chosen := Some(m);
      killer.table.Register(m.serverName, peer);
      if breaks {
        return;
      }
      killer.table.RemoveServerSession(m.serverName, peer);
      var _ := DestroyServerIfNeeded(m, outcome, now);
    }
  }

  lemma SelectedInRange(input: string, n: nat, default: Option<int>)
    ensures Choose(input, n, default).Selected? ==> Choose(input, n, default).index < n
    decreases |input|
  {
    var line := ReadLine("", input);
    if line.Typed? && Selection(line.text, n, default).None? {
      ReadLineProgress("", input);
      SelectedInRange(line.rest, n, None);
    }
  }

  /**
   * A visitor who creates a server without minimum life, is alone on it and leaves it normally
   * leaves the lobby as it was: the sessions of every server, the file and the living servers.
   */
  lemma VisitLeavesNoTrace(env: Env, table: Table, m: Meta, peer: Peer, w: World)
    requires m.serverName !in Names(w.servers) && m.serverName !in w.live && SessionsOf(table, m.serverName) == []
    requires m.manage && m.providerName in env.watched
    requires ReadDuration(env.watched[m.providerName].minLifeToLive) == Success(0)
    requires env.sessions == Detached(Attached(table, m.serverName, peer), m.serverName, peer)
    requires OutcomeFor(env, m.serverName) == Destroyed
    ensures CheckOne(env, m, AfterChoice(m, true, w)) == w
    ensures forall name :: SessionsOf(env.sessions, name) == SessionsOf(table, name)
  {
    var attached := Attached(table, m.serverName, peer);
    forall name ensures SessionsOf(env.sessions, name) == SessionsOf(table, name) {
      DetachUndoesAttach(table, m.serverName, peer, [], name);
      assert SessionsOf(attached, m.serverName) + [] == SessionsOf(attached, m.serverName);
      assert table[m.serverName := SessionsOf(attached, m.serverName)] == attached;
    }
    DestroyUndoesCreate(m, w);
  }
}
