/**
 * The server file: a JSON array of server records that stands for an ordered map from
 * server names to records. `Load` and `Update` say what reading and updating it mean.
 */
module ServerFile {
  import opened Wrappers
  import opened Json
  import opened JsonProofs
  import opened Seqs

  /** `LBServerMeta`: one server, with the clock reading at the moment its record was built. */
  datatype Meta = Meta(
    providerName: string,
    workspace: string,
    serverName: string,
    serverHost: string,
    serverUser: string,
    serverPort: int,
    createdTimestamp: int,
    sshExtraArgs: seq<string>,
    manage: bool)

  // ---- Records as JSON objects ---------------------------------------------------------------

  function EncodeTexts(texts: seq<string>): Items {
    if texts == [] then NoItems else Item(Str(texts[0]), EncodeTexts(texts[1..]))
  }

  datatype FieldName =
    | ProviderName | Workspace | ServerName | ServerHost | ServerUser
    | ServerPort | CreatedTimestamp | SshExtraArgs | Manage

  function KeyText(name: FieldName): string {
    match name
    case ProviderName => "provider_name"
    case Workspace => "workspace"
    case ServerName => "server_name"
    case ServerHost => "server_host"
    case ServerUser => "server_user"
    case ServerPort => "server_port"
    case CreatedTimestamp => "created_timestamp"
    case SshExtraArgs => "ssh_extra_args"
    case Manage => "manage"
  }

  function FieldOfKey(key: string): Option<FieldName> {
    if key == "provider_name" then Some(ProviderName)
    else if key == "workspace" then Some(Workspace)
    else if key == "server_name" then Some(ServerName)
    else if key == "server_host" then Some(ServerHost)
    else if key == "server_user" then Some(ServerUser)
    else if key == "server_port" then Some(ServerPort)
    else if key == "created_timestamp" then Some(CreatedTimestamp)
    else if key == "ssh_extra_args" then Some(SshExtraArgs)
    else if key == "manage" then Some(Manage)
    else None
  }

  function Member(name: FieldName, value: Value, rest: Fields): Fields {
    Field(KeyText(name), value, rest)
  }

  function Encode(m: Meta): Value {
    Obj(Member(ProviderName, Str(m.providerName),
        Member(Workspace, Str(m.workspace),
        Member(ServerName, Str(m.serverName),
        Member(ServerHost, Str(m.serverHost),
        Member(ServerUser, Str(m.serverUser),
        Member(ServerPort, Num(m.serverPort),
        Member(CreatedTimestamp, Num(m.createdTimestamp),
        Member(SshExtraArgs, Arr(EncodeTexts(m.sshExtraArgs)),
        Member(Manage, Bool(m.manage), NoFields))))))))))
  }

  function EncodeAll(servers: seq<Meta>): Items {
    if servers == [] then NoItems else Item(Encode(servers[0]), EncodeAll(servers[1..]))
  }

  /** What a rewrite of the file puts into it. */
  function Save(servers: seq<Meta>): string {
    Render(Arr(EncodeAll(servers)))
  }

  /**
   * The members of an object, unless one of them is unknown; of members with the same key the
   * last one counts.
   */
  function AsDict(fields: Fields): Option<map<FieldName, Value>> {
    match fields
    case NoFields => Some(map[])
    case Field(key, value, rest) =>
      var name, others := FieldOfKey(key), AsDict(rest);
      if name.None? || others.None? then None else Some(map[name.value := value] + others.value)
  }

  function GetText(d: map<FieldName, Value>, key: FieldName, default: Option<string>): Option<string> {
    if key !in d then default else match d[key] case Str(s) => Some(s) case _ => None
  }

  function GetInt(d: map<FieldName, Value>, key: FieldName, default: int): Option<int> {
    if key !in d then Some(default) else match d[key] case Num(n) => Some(n) case _ => None
  }

  function GetBool(d: map<FieldName, Value>, key: FieldName, default: bool): Option<bool> {
    if key !in d then Some(default) else match d[key] case Bool(b) => Some(b) case _ => None
  }

  function DecodeTexts(items: Items): Option<seq<string>> {
    match items
    case NoItems => Some([])
    case Item(Str(s), rest) =>
      (match DecodeTexts(rest) case None => None case Some(texts) => Some([s] + texts))
    case Item(_, _) => None
  }

  function GetTexts(d: map<FieldName, Value>, key: FieldName): Option<seq<string>> {
    if key !in d then Some([]) else match d[key] case Arr(items) => DecodeTexts(items) case _ => None
  }

  /**
   * `LBServerMeta(**i)`: unknown keys and missing required ones raise, optional ones have
   * defaults; the default creation time is the clock at the moment of reading.
   */
  function Decode(v: Value, now: int): Option<Meta> {
    if !v.Obj? || AsDict(v.fields).None? then None
    else DecodeDict(AsDict(v.fields).value, now)
  }

  function DecodeDict(d: map<FieldName, Value>, now: int): Option<Meta> {
    var provider, workspace := GetText(d, ProviderName, None), GetText(d, Workspace, None);
    var name, host := GetText(d, ServerName, None), GetText(d, ServerHost, Some("127.0.0.1"));
    var user, port := GetText(d, ServerUser, Some("root")), GetInt(d, ServerPort, 22);
    var created, args := GetInt(d, CreatedTimestamp, now), GetTexts(d, SshExtraArgs);
    var manage := GetBool(d, Manage, true);
    if provider.None? || workspace.None? || name.None? || host.None? || user.None? || port.None?
       || created.None? || args.None? || manage.None?
    then None
    else Some(Meta(provider.value, workspace.value, name.value, host.value, user.value, port.value,
                   created.value, args.value, manage.value))
  }

  function DecodeAll(items: Items, now: int): Option<seq<Meta>> {
    match items
    case NoItems => Some([])
    case Item(head, tail) =>
      match Decode(head, now)
      case None => None
      case Some(m) => match DecodeAll(tail, now) case None => None case Some(ms) => Some([m] + ms)
  }

  // ---- The ordered map -------------------------------------------------------------------------

  /** The record under a name. */
  function Find(servers: seq<Meta>, name: string): (r: Option<Meta>)
    ensures r.Some? ==> r.value in servers && r.value.serverName == name
    ensures r.None? ==> forall m | m in servers :: m.serverName != name
  {
    if servers == [] then None
    else if servers[0].serverName == name then Some(servers[0])
    else Find(servers[1..], name)
  }

  /** A record with a known name replaces the old one in its place, a new name goes last. */
  function Put(servers: seq<Meta>, m: Meta): seq<Meta> {
    if servers == [] then [m]
    else if servers[0].serverName == m.serverName then [m] + servers[1..]
    else [servers[0]] + Put(servers[1..], m)
  }

  function Pop(servers: seq<Meta>, name: string): seq<Meta> {
    if servers == [] then []
    else if servers[0].serverName == name then Pop(servers[1..], name)
    else [servers[0]] + Pop(servers[1..], name)
  }

  function PutAll(servers: seq<Meta>, added: seq<Meta>): seq<Meta>
    decreases |added|
  {
    if added == [] then servers else PutAll(Put(servers, added[0]), added[1..])
  }

  function PopAll(servers: seq<Meta>, deleted: seq<Meta>): seq<Meta>
    decreases |deleted|
  {
    if deleted == [] then servers else PopAll(Pop(servers, deleted[0].serverName), deleted[1..])
  }

  /** The map after one update: additions first, deletions after them. */
  function Update(servers: seq<Meta>, added: seq<Meta>, deleted: seq<Meta>): seq<Meta> {
    PopAll(PutAll(servers, added), deleted)
  }

  /** The names in order. */
  function Names(servers: seq<Meta>): (names: seq<string>)
    ensures |names| == |servers|
    ensures forall i | 0 <= i < |servers| :: names[i] == servers[i].serverName
  {
    seq(|servers|, i requires 0 <= i < |servers| => servers[i].serverName)
  }

  predicate NoDuplicates(names: seq<string>) {
    forall i, j | 0 <= i < j < |names| :: names[i] != names[j]
  }

  predicate IsMap(servers: seq<Meta>) {
    NoDuplicates(Names(servers))
  }

  // ---- Reading -----------------------------------------------------------------------------------

  datatype LoadError = NotServerRecords

  /**
   * `load_local_servers`. A missing file, an empty one and one that is not JSON count as an
   * empty map; JSON of another shape raises, except for an empty object or string.
   */
  function Load(text: Option<string>, now: int): Result<seq<Meta>, LoadError> {
    if text.None? || text.value == "" then Success([])
    else match Loads(text.value)
      case None => Success([])
      case Some(Arr(items)) =>
        (match DecodeAll(items, now)
         case None => Failure(NotServerRecords)
         case Some(metas) => Success(PutAll([], metas)))
      case Some(v) => if v == Obj(NoFields) || v == Str("") then Success([]) else Failure(NotServerRecords)
  }

  // ---- Properties of the ordered map ----------------------------------------------------------

  lemma {:induction false} FindPut(servers: seq<Meta>, m: Meta, name: string)
    ensures Find(Put(servers, m), name) == if name == m.serverName then Some(m) else Find(servers, name)
  {
    if servers != [] {
      FindPut(servers[1..], m, name);
    }
  }

  lemma {:induction false} FindPop(servers: seq<Meta>, key: string, name: string)
    ensures Find(Pop(servers, key), name) == if name == key then None else Find(servers, name)
  {
    if servers != [] {
      FindPop(servers[1..], key, name);
    }
  }

  /** The last of the new records with this name. */
  function FindLast(metas: seq<Meta>, name: string): Option<Meta> {
    if metas == [] then None
    else if FindLast(metas[1..], name).Some? then FindLast(metas[1..], name)
    else if metas[0].serverName == name then Some(metas[0])
    else None
  }

  lemma {:induction false} FindPutAll(servers: seq<Meta>, added: seq<Meta>, name: string)
    ensures Find(PutAll(servers, added), name)
         == if FindLast(added, name).Some? then FindLast(added, name) else Find(servers, name)
    decreases |added|
  {
    if added != [] {
      FindPut(servers, added[0], name);
      FindPutAll(Put(servers, added[0]), added[1..], name);
    }
  }

  lemma {:induction false} FindPopAll(servers: seq<Meta>, deleted: seq<Meta>, name: string)
    ensures Find(PopAll(servers, deleted), name)
         == if Find(deleted, name).Some? then None else Find(servers, name)
    decreases |deleted|
  {
    if deleted != [] {
      FindPop(servers, deleted[0].serverName, name);
      FindPopAll(Pop(servers, deleted[0].serverName), deleted[1..], name);
    }
  }

  /**
   * What one update does to each name: deleted names are absent, even those added by the same
   * update; of several additions the last one counts; every other name keeps its record.
   */
  lemma FindUpdate(servers: seq<Meta>, added: seq<Meta>, deleted: seq<Meta>, name: string)
    ensures Find(Update(servers, added, deleted), name)
         == if Find(deleted, name).Some? then None
            else if FindLast(added, name).Some? then FindLast(added, name)
            else Find(servers, name)
  {
    FindPutAll(servers, added, name);
    FindPopAll(PutAll(servers, added), deleted, name);
  }

  lemma UpdateOne(servers: seq<Meta>, m: Meta)
    ensures Update(servers, [m], []) == Put(servers, m)
    ensures Update(servers, [], [m]) == Pop(servers, m.serverName)
  {
    assert [m][1..] == [];
    assert PutAll(servers, [m]) == PutAll(Put(servers, m), [m][1..]);
    assert PopAll(servers, [m]) == PopAll(Pop(servers, m.serverName), [m][1..]);
    assert PutAll(servers, []) == servers;
  }

  /** The update touches a name. */
  predicate Touches(added: seq<Meta>, deleted: seq<Meta>, name: string) {
    Find(deleted, name).Some? || FindLast(added, name).Some?
  }

  /** Updates that touch different names commute, seen as maps. */
  lemma UpdatesCommute(
    servers: seq<Meta>, added1: seq<Meta>, deleted1: seq<Meta>, added2: seq<Meta>, deleted2: seq<Meta>, name: string)
    requires !(Touches(added1, deleted1, name) && Touches(added2, deleted2, name))
    ensures Find(Update(Update(servers, added1, deleted1), added2, deleted2), name)
         == Find(Update(Update(servers, added2, deleted2), added1, deleted1), name)
  {
    FindUpdate(servers, added1, deleted1, name);
    FindUpdate(servers, added2, deleted2, name);
    FindUpdate(Update(servers, added1, deleted1), added2, deleted2, name);
    FindUpdate(Update(servers, added2, deleted2), added1, deleted1, name);
  }

  lemma NamesOfCons(m: Meta, servers: seq<Meta>)
    ensures Names([m] + servers) == [m.serverName] + Names(servers)
  {
  }

  lemma NamesStep(servers: seq<Meta>)
    requires servers != []
    ensures Names(servers) == [servers[0].serverName] + Names(servers[1..])
  {
    NamesOfCons(servers[0], servers[1..]);
    assert [servers[0]] + servers[1..] == servers;
  }

  /** A record with a known name keeps the order of all names, a new name goes last. */
  lemma {:induction false} NamesPut(servers: seq<Meta>, m: Meta)
    ensures Names(Put(servers, m))
         == if m.serverName in Names(servers) then Names(servers) else Names(servers) + [m.serverName]
  {
    if servers != [] {
      NamesStep(servers);
      if servers[0].serverName == m.serverName {
        NamesOfCons(m, servers[1..]);
      } else {
        NamesPut(servers[1..], m);
        NamesOfCons(servers[0], Put(servers[1..], m));
        Assoc([servers[0].serverName], Names(servers[1..]), [m.serverName]);
      }
    }
  }

  function Without(names: seq<string>, name: string): seq<string> {
    if names == [] then []
    else if names[0] == name then Without(names[1..], name)
    else [names[0]] + Without(names[1..], name)
  }

  lemma {:induction false} NamesPop(servers: seq<Meta>, name: string)
    ensures Names(Pop(servers, name)) == Without(Names(servers), name)
  {
    if servers != [] {
      NamesPop(servers[1..], name);
      NamesStep(servers);
      DropFirst(servers[0].serverName, Names(servers[1..]));
      NamesOfCons(servers[0], Pop(servers[1..], name));
    }
  }

  lemma {:induction false} InWithout(names: seq<string>, name: string, n: string)
    ensures n in Without(names, name) <==> n in names && n != name
  {
    if names != [] {
      InWithout(names[1..], name, n);
    }
  }

  lemma {:induction false} WithoutIsSparse(names: seq<string>, name: string)
    requires NoDuplicates(names)
    ensures NoDuplicates(Without(names, name))
  {
    if names != [] {
      WithoutIsSparse(names[1..], name);
      InWithout(names[1..], name, names[0]);
    }
  }

  lemma IsMapPut(servers: seq<Meta>, m: Meta)
    requires IsMap(servers)
    ensures IsMap(Put(servers, m))
  {
    NamesPut(servers, m);
  }

  lemma IsMapPop(servers: seq<Meta>, name: string)
    requires IsMap(servers)
    ensures IsMap(Pop(servers, name))
  {
    NamesPop(servers, name);
    WithoutIsSparse(Names(servers), name);
  }

  lemma {:induction false} IsMapPutAll(servers: seq<Meta>, added: seq<Meta>)
    requires IsMap(servers)
    ensures IsMap(PutAll(servers, added))
    decreases |added|
  {
    if added != [] {
      IsMapPut(servers, added[0]);
      IsMapPutAll(Put(servers, added[0]), added[1..]);
    }
  }

  lemma {:induction false} IsMapPopAll(servers: seq<Meta>, deleted: seq<Meta>)
    requires IsMap(servers)
    ensures IsMap(PopAll(servers, deleted))
    decreases |deleted|
  {
    if deleted != [] {
      IsMapPop(servers, deleted[0].serverName);
      IsMapPopAll(Pop(servers, deleted[0].serverName), deleted[1..]);
    }
  }

  /** No name occurs twice after an update. */
  lemma IsMapUpdate(servers: seq<Meta>, added: seq<Meta>, deleted: seq<Meta>)
    requires IsMap(servers)
    ensures IsMap(Update(servers, added, deleted))
  {
    IsMapPutAll(servers, added);
    IsMapPopAll(PutAll(servers, added), deleted);
  }

  // ---- Reading back what was written ----------------------------------------------------------

  lemma {:induction false} DecodeTextsOfEncode(texts: seq<string>)
    ensures DecodeTexts(EncodeTexts(texts)) == Some(texts)
  {
    if texts != [] {
      DecodeTextsOfEncode(texts[1..]);
      assert [texts[0]] + texts[1..] == texts;
    }
  }

  lemma FieldOfKeyText(name: FieldName)
    ensures FieldOfKey(KeyText(name)) == Some(name)
  {
  }

  lemma AsDictMember(name: FieldName, value: Value, rest: Fields, others: map<FieldName, Value>)
    requires AsDict(rest) == Some(others) && name !in others
    ensures AsDict(Member(name, value, rest)) == Some(others[name := value])
  {
    FieldOfKeyText(name);
    assert map[name := value] + others == others[name := value];
  }

  /** The last four members of an encoded record. */
  function LastFields(m: Meta): Fields {
    Member(ServerPort, Num(m.serverPort),
    Member(CreatedTimestamp, Num(m.createdTimestamp),
    Member(SshExtraArgs, Arr(EncodeTexts(m.sshExtraArgs)),
    Member(Manage, Bool(m.manage), NoFields))))
  }

  function LastMembers(m: Meta): map<FieldName, Value> {
    map[Manage := Bool(m.manage)]
      [SshExtraArgs := Arr(EncodeTexts(m.sshExtraArgs))]
      [CreatedTimestamp := Num(m.createdTimestamp)]
      [ServerPort := Num(m.serverPort)]
  }

  function AllMembers(m: Meta): map<FieldName, Value> {
    LastMembers(m)
      [ServerUser := Str(m.serverUser)]
      [ServerHost := Str(m.serverHost)]
      [ServerName := Str(m.serverName)]
      [Workspace := Str(m.workspace)]
      [ProviderName := Str(m.providerName)]
  }

  lemma AsDictLast(m: Meta)
    ensures AsDict(LastFields(m)) == Some(LastMembers(m))
  {
    var args := Arr(EncodeTexts(m.sshExtraArgs));
    var f9 := Member(Manage, Bool(m.manage), NoFields);
    var f8 := Member(SshExtraArgs, args, f9);
    var f7 := Member(CreatedTimestamp, Num(m.createdTimestamp), f8);
    var d9: map<FieldName, Value> := map[Manage := Bool(m.manage)];
    var d8 := d9[SshExtraArgs := args];
    AsDictMember(Manage, Bool(m.manage), NoFields, map[]);
    AsDictMember(SshExtraArgs, args, f9, d9);
    AsDictMember(CreatedTimestamp, Num(m.createdTimestamp), f8, d8);
    AsDictMember(ServerPort, Num(m.serverPort), f7, d8[CreatedTimestamp := Num(m.createdTimestamp)]);
  }

  lemma AsDictOfEncode(m: Meta)
    ensures AsDict(Encode(m).fields) == Some(AllMembers(m))
  {
    AsDictLast(m);
    var f5 := Member(ServerUser, Str(m.serverUser), LastFields(m));
    var f4 := Member(ServerHost, Str(m.serverHost), f5);
    var f3 := Member(ServerName, Str(m.serverName), f4);
    var f2 := Member(Workspace, Str(m.workspace), f3);
    var d5 := LastMembers(m)[ServerUser := Str(m.serverUser)];
    var d4 := d5[ServerHost := Str(m.serverHost)];
    var d3 := d4[ServerName := Str(m.serverName)];
    AsDictMember(ServerUser, Str(m.serverUser), LastFields(m), LastMembers(m));
    AsDictMember(ServerHost, Str(m.serverHost), f5, d5);
    AsDictMember(ServerName, Str(m.serverName), f4, d4);
    AsDictMember(Workspace, Str(m.workspace), f3, d3);
    AsDictMember(ProviderName, Str(m.providerName), f2, d3[Workspace := Str(m.workspace)]);
  }

  lemma DecodeMembers(m: Meta, args: Items, d: map<FieldName, Value>, now: int)
    requires d == map[
        ProviderName := Str(m.providerName), Workspace := Str(m.workspace), ServerName := Str(m.serverName),
        ServerHost := Str(m.serverHost), ServerUser := Str(m.serverUser), ServerPort := Num(m.serverPort),
        CreatedTimestamp := Num(m.createdTimestamp), SshExtraArgs := Arr(args), Manage := Bool(m.manage)]
    requires DecodeTexts(args) == Some(m.sshExtraArgs)
    ensures DecodeDict(d, now) == Some(m)
  {
  }

  lemma DecodeOfEncode(m: Meta, now: int)
    ensures Decode(Encode(m), now) == Some(m)
  {
    AsDictOfEncode(m);
    DecodeTextsOfEncode(m.sshExtraArgs);
    DecodeMembers(m, EncodeTexts(m.sshExtraArgs), AllMembers(m), now);
  }

  lemma {:induction false} DecodeAllOfEncodeAll(servers: seq<Meta>, now: int)
    ensures DecodeAll(EncodeAll(servers), now) == Some(servers)
  {
    if servers != [] {
      DecodeOfEncode(servers[0], now);
      DecodeAllOfEncodeAll(servers[1..], now);
      assert [servers[0]] + servers[1..] == servers;
    }
  }

  lemma {:induction false} PutNewGoesLast(servers: seq<Meta>, m: Meta)
    requires m.serverName !in Names(servers)
    ensures Put(servers, m) == servers + [m]
  {
    if servers != [] {
      PutNewGoesLast(servers[1..], m);
    }
  }

  lemma {:induction false} PutAllDistinct(servers: seq<Meta>, added: seq<Meta>)
    requires IsMap(servers + added)
    ensures PutAll(servers, added) == servers + added
    decreases |added|
  {
    if added != [] {
      var all := servers + added;
      forall i | 0 <= i < |servers| ensures Names(servers)[i] != added[0].serverName {
        assert Names(all)[i] != Names(all)[|servers|];
      }
      PutNewGoesLast(servers, added[0]);
      assert (servers + [added[0]]) + added[1..] == all;
      PutAllDistinct(servers + [added[0]], added[1..]);
    } else {
      assert servers + added == servers;
    }
  }

  /** Loading what an update wrote gives back the same records in the same order. */
  lemma LoadOfSave(servers: seq<Meta>, now: int)
    requires IsMap(servers)
    ensures Load(Some(Save(servers)), now) == Success(servers)
  {
    LoadsOfRender(Arr(EncodeAll(servers)));
    DecodeAllOfEncodeAll(servers, now);
    assert [] + servers == servers;
    PutAllDistinct([], servers);
  }

  /** Loading while a write is under way, after any number of characters, gives the empty map. */
  lemma LoadOfTornWrite(servers: seq<Meta>, written: nat, now: int)
    requires written < |Save(servers)|
    ensures Load(Some(Save(servers)[..written]), now) == Success([])
  {
    var text := Save(servers);
    assert text == text[..written] + text[written..];
    NoPrefixLoads(Arr(EncodeAll(servers)), text[..written], text[written..]);
  }

  // ---- Files that no update has written --------------------------------------------------------

  /** Without a file, and with an empty one, there are no servers. */
  lemma LoadOfMissing(now: int)
    ensures Load(None, now) == Success([]) && Load(Some(""), now) == Success([])
  {
  }

  lemma LoadOfNonJson(text: string, now: int)
    requires Loads(text) == None
    ensures Load(Some(text), now) == Success([])
  {
  }

  /** Of the values that are not arrays, the empty object and the empty string count as no servers, all others raise. */
  lemma LoadOfNonArray(v: Value, now: int)
    requires !v.Arr?
    ensures Load(Some(Render(v)), now)
         == if Render(v) in {"{}", "\"\""} then Success([]) else Failure(NotServerRecords)
  {
    RenderStart(v);
    LoadsOfRender(v);
    RenderPlain("", 0);
    assert "\"" + "" + "\"" == "\"\"";
    LoadsOfRender(Obj(NoFields));
    LoadsOfRender(Str(""));
  }

  /** Of several records with one name the last one counts, in the place of the first. */
  lemma LoadOfRecords(servers: seq<Meta>, now: int)
    ensures Load(Some(Save(servers)), now) == Success(PutAll([], servers))
  {
    LoadsOfRender(Arr(EncodeAll(servers)));
    DecodeAllOfEncodeAll(servers, now);
  }

  /** The keys under which a record is written. */
  lemma KeysOfRecord(m: Meta)
    ensures Encode(m)
         == Obj(Field("provider_name", Str(m.providerName),
                Field("workspace", Str(m.workspace),
                Field("server_name", Str(m.serverName),
                Field("server_host", Str(m.serverHost),
                Field("server_user", Str(m.serverUser),
                Field("server_port", Num(m.serverPort),
                Field("created_timestamp", Num(m.createdTimestamp),
                Field("ssh_extra_args", Arr(EncodeTexts(m.sshExtraArgs)),
                Field("manage", Bool(m.manage), NoFields))))))))))
  {
  }

  /** The three fields that a record must have. */
  function BareFields(provider: string, workspace: string, name: string): Fields {
    Field("provider_name", Str(provider), Field("workspace", Str(workspace), Field("server_name", Str(name), NoFields)))
  }

  lemma AsDictOfBare(provider: string, workspace: string, name: string)
    ensures AsDict(BareFields(provider, workspace, name))
         == Some(map[ServerName := Str(name), Workspace := Str(workspace), ProviderName := Str(provider)])
  {
    var d: map<FieldName, Value> := map[ServerName := Str(name)];
    AsDictMember(ServerName, Str(name), NoFields, map[]);
    AsDictMember(Workspace, Str(workspace), Field("server_name", Str(name), NoFields), d);
    AsDictMember(ProviderName, Str(provider),
                 Field("workspace", Str(workspace), Field("server_name", Str(name), NoFields)), d[Workspace := Str(workspace)]);
  }

  lemma DecodeOne(v: Value, now: int)
    ensures DecodeAll(Item(v, NoItems), now) == match Decode(v, now) case None => None case Some(m) => Some([m])
  {
    assert DecodeAll(NoItems, now) == Some([]);
    match Decode(v, now)
    case None =>
    case Some(m) => assert [m] + [] == [m];
  }

  lemma LoadOfOneObject(fields: Fields, now: int)
    ensures Load(Some(Render(Arr(Item(Obj(fields), NoItems)))), now)
         == match Decode(Obj(fields), now)
            case None => Failure(NotServerRecords)
            case Some(m) => Success([m])
  {
    LoadsOfRender(Arr(Item(Obj(fields), NoItems)));
    DecodeOne(Obj(fields), now);
    match Decode(Obj(fields), now)
    case None =>
    case Some(m) => PutAllDistinct([], [m]);
  }

  lemma DecodeBare(provider: string, workspace: string, name: string, now: int)
    ensures DecodeDict(map[ServerName := Str(name), Workspace := Str(workspace), ProviderName := Str(provider)], now)
         == Some(Meta(provider, workspace, name, "127.0.0.1", "root", 22, now, [], true))
  {
  }

  /** A record with these fields only gets the defaults, and its creation is dated at the reading. */
  lemma LoadOfBareRecord(provider: string, workspace: string, name: string, now: int)
    ensures Load(Some(Render(Arr(Item(Obj(BareFields(provider, workspace, name)), NoItems)))), now)
         == Success([Meta(provider, workspace, name, "127.0.0.1", "root", 22, now, [], true)])
  {
    AsDictOfBare(provider, workspace, name);
    DecodeBare(provider, workspace, name, now);
    LoadOfOneObject(BareFields(provider, workspace, name), now);
  }

  /** An unknown key raises. */
  lemma LoadOfUnknownKey(key: string, value: Value, others: Fields, now: int)
    requires key !in {"provider_name", "workspace", "server_name", "server_host", "server_user", "server_port",
                      "created_timestamp", "ssh_extra_args", "manage"}
    ensures Load(Some(Render(Arr(Item(Obj(Field(key, value, others)), NoItems)))), now) == Failure(NotServerRecords)
  {
    LoadOfOneObject(Field(key, value, others), now);
  }

  function KeysOf(fields: Fields): set<string> {
    match fields
    case NoFields => {}
    case Field(key, _, rest) => {key} + KeysOf(rest)
  }

  lemma {:induction false} AsDictKeys(fields: Fields, name: FieldName)
    requires AsDict(fields).Some? && name in AsDict(fields).value
    ensures KeyText(name) in KeysOf(fields)
  {
    var Field(key, _, rest) := fields;
    if FieldOfKey(key).value != name {
      AsDictKeys(rest, name);
    }
  }

  lemma DecodeNeeds(d: map<FieldName, Value>, now: int)
    requires ProviderName !in d || Workspace !in d || ServerName !in d
    ensures DecodeDict(d, now) == None
  {
  }

  /** So does a record that lacks its provider, its workspace or its name. */
  lemma LoadOfIncomplete(fields: Fields, now: int)
    requires !({"provider_name", "workspace", "server_name"} <= KeysOf(fields))
    ensures Load(Some(Render(Arr(Item(Obj(fields), NoItems)))), now) == Failure(NotServerRecords)
  {
    if AsDict(fields).Some? {
      forall name | name in AsDict(fields).value ensures KeyText(name) in KeysOf(fields) {
        AsDictKeys(fields, name);
      }
      DecodeNeeds(AsDict(fields).value, now);
    }
    LoadOfOneObject(fields, now);
  }

  // ---- What an update leaves ---------------------------------------------------------------------

  lemma LoadIsMap(text: Option<string>, now: int)
    requires Load(text, now).Success?
    ensures IsMap(Load(text, now).value)
  {
    forall metas: seq<Meta> ensures IsMap(PutAll([], metas)) {
      IsMapPutAll([], metas);
    }
  }

  /** The text that an update of any readable file writes loads as the updated map at every later reading. */
  lemma LoadOfUpdated(text: Option<string>, added: seq<Meta>, deleted: seq<Meta>, now: int, later: int)
    requires Load(text, now).Success?
    ensures var servers := Update(Load(text, now).value, added, deleted);
            Load(Some(Save(servers)), later) == Success(servers)
  {
    LoadIsMap(text, now);
    IsMapUpdate(Load(text, now).value, added, deleted);
    LoadOfSave(Update(Load(text, now).value, added, deleted), later);
  }
}
