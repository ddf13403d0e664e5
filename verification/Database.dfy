/**
 * The two functions that read and rewrite the server file, working on an insertion-ordered
 * dictionary in place.
 */
module Database {
  import opened Wrappers
  import opened Json
  import opened ServerFile
  import opened Seqs

  lemma {:induction false} PutAt(servers: seq<Meta>, i: nat, m: Meta)
    requires i < |servers| && servers[i].serverName == m.serverName
    requires forall j | 0 <= j < i :: servers[j].serverName != m.serverName
    ensures Put(servers, m) == servers[i := m]
  {
    if i > 0 {
      PutAt(servers[1..], i - 1, m);
    }
  }

  lemma {:induction false} PopUnknown(servers: seq<Meta>, name: string)
    requires forall j | 0 <= j < |servers| :: servers[j].serverName != name
    ensures Pop(servers, name) == servers
  {
    if servers != [] {
      PopUnknown(servers[1..], name);
    }
  }

  lemma {:induction false} PopAt(servers: seq<Meta>, i: nat, name: string)
    requires i < |servers| && servers[i].serverName == name
    requires forall j | 0 <= j < |servers| && j != i :: servers[j].serverName != name
    ensures Pop(servers, name) == servers[..i] + servers[i + 1..]
  {
    if i == 0 {
      PopUnknown(servers[1..], name);
    } else {
      PopAt(servers[1..], i - 1, name);
    }
  }

  lemma {:induction false} PutAllSnoc(servers: seq<Meta>, added: seq<Meta>, m: Meta)
    ensures PutAll(servers, added + [m]) == Put(PutAll(servers, added), m)
    decreases |added|
  {
    if added == [] {
      assert added + [m] == [m];
    } else {
      assert (added + [m])[1..] == added[1..] + [m];
      PutAllSnoc(Put(servers, added[0]), added[1..], m);
    }
  }

  lemma {:induction false} PopAllSnoc(servers: seq<Meta>, deleted: seq<Meta>, m: Meta)
    ensures PopAll(servers, deleted + [m]) == Pop(PopAll(servers, deleted), m.serverName)
    decreases |deleted|
  {
    if deleted == [] {
      assert deleted + [m] == [m];
    } else {
      assert (deleted + [m])[1..] == deleted[1..] + [m];
      PopAllSnoc(Pop(servers, deleted[0].serverName), deleted[1..], m);
    }
  }

  lemma {:induction false} PutTwice(servers: seq<Meta>, x: Meta, m: Meta)
    requires x.serverName == m.serverName
    ensures Put(Put(servers, x), m) == Put(servers, m)
  {
    if servers != [] && servers[0].serverName != m.serverName {
      PutTwice(servers[1..], x, m);
    }
  }

  lemma {:induction false} PutsCommute(servers: seq<Meta>, m: Meta, y: Meta)
    requires m.serverName != y.serverName && m.serverName in Names(servers)
    ensures Put(Put(servers, y), m) == Put(Put(servers, m), y)
  {
    if servers[0].serverName != m.serverName {
      assert Names(servers) == [servers[0].serverName] + Names(servers[1..]);
      if servers[0].serverName != y.serverName {
        PutsCommute(servers[1..], m, y);
      }
    }
  }

  /** A known name may be replaced before or after additions of other names. */
  lemma {:induction false} PutAllThenPut(servers: seq<Meta>, others: seq<Meta>, m: Meta)
    requires m.serverName in Names(servers) && m.serverName !in Names(others)
    ensures Put(PutAll(servers, others), m) == PutAll(Put(servers, m), others)
    decreases |others|
  {
    if others != [] {
      assert Names(others) == [others[0].serverName] + Names(others[1..]);
      NamesPut(servers, others[0]);
      PutAllThenPut(Put(servers, others[0]), others[1..], m);
      PutsCommute(servers, m, others[0]);
    }
  }

  lemma TailIsMap(xs: seq<Meta>)
    requires IsMap(xs) && xs != []
    ensures IsMap(xs[1..])
  {
    DropFirst(xs[0].serverName, Names(xs[1..]));
    assert Names(xs)[1..] == Names(xs[1..]);
  }

  lemma {:induction false} PutAllOfPut(servers: seq<Meta>, xs: seq<Meta>, m: Meta)
    requires IsMap(xs)
    ensures PutAll(servers, Put(xs, m)) == Put(PutAll(servers, xs), m)
    decreases |xs|
  {
    if xs == [] {
    } else if xs[0].serverName == m.serverName {
      forall i | 0 <= i < |xs| - 1 ensures Names(xs[1..])[i] != m.serverName {
        assert Names(xs)[0] != Names(xs)[i + 1];
      }
      assert ([m] + xs[1..])[1..] == xs[1..];
      NamesPut(servers, xs[0]);
      PutAllThenPut(Put(servers, xs[0]), xs[1..], m);
      PutTwice(servers, xs[0], m);
    } else {
      var ys := Put(xs, m);
      assert ys == [xs[0]] + Put(xs[1..], m) && ys[1..] == Put(xs[1..], m);
      TailIsMap(xs);
      PutAllOfPut(Put(servers, xs[0]), xs[1..], m);
    }
  }

  /** Collecting the additions in a dictionary of their own first makes no difference. */
  lemma {:induction false} PutAllOfCollected(servers: seq<Meta>, added: seq<Meta>)
    ensures PutAll(servers, PutAll([], added)) == PutAll(servers, added)
    decreases |added|
  {
    if added != [] {
      var n := |added| - 1;
      assert added == added[..n] + [added[n]];
      PutAllOfCollected(servers, added[..n]);
      PutAllSnoc([], added[..n], added[n]);
      PutAllSnoc(servers, added[..n], added[n]);
      IsMapPutAll([], added[..n]);
      PutAllOfPut(servers, PutAll([], added[..n]), added[n]);
    }
  }

  lemma NamesOfSlice(servers: seq<Meta>, from: nat, to: nat)
    requires from <= to <= |servers|
    ensures Names(servers[from..to]) == Names(servers)[from..to]
  {
  }

  lemma NamesOfConcat(a: seq<Meta>, b: seq<Meta>)
    ensures Names(a + b) == Names(a) + Names(b)
  {
  }

  lemma OthersDiffer(servers: seq<Meta>, i: nat)
    requires IsMap(servers) && i < |servers|
    ensures forall j | 0 <= j < |servers| && j != i :: servers[j].serverName != servers[i].serverName
  {
    forall j | 0 <= j < |servers| && j != i ensures servers[j].serverName != servers[i].serverName {
      assert Names(servers)[j] == servers[j].serverName;
    }
  }

  lemma NamesRemovedAt(servers: seq<Meta>, i: nat)
    requires i < |servers|
    ensures Names(servers[..i] + servers[i + 1..]) == Names(servers)[..i] + Names(servers)[i + 1..]
  {
    NamesOfSlice(servers, 0, i);
    NamesOfSlice(servers, i + 1, |servers|);
    NamesOfConcat(servers[..i], servers[i + 1..]);
  }

  /** An insertion-ordered dictionary: the record under keys[i] is values[i]. */
  class OrderedDict {
    var keys: seq<string>
    var values: seq<Meta>

    /** The keys are distinct, and every key is the name of its record. */
    ghost predicate Valid()
      reads this
    {
      NoDuplicates(keys) && keys == Names(values)
    }

    constructor ()
      ensures Valid() && values == []
    {
      keys, values := [], [];
    }

    method SetItem(m: Meta)
      requires Valid()
      modifies this
      ensures Valid() && values == Put(old(values), m)
    {
      NamesPut(values, m);
      if m.serverName in keys {
        var i :| 0 <= i < |keys| && keys[i] == m.serverName;
        PutAt(values, i, m);
        values := values[i := m];
      } else {
        PutNewGoesLast(values, m);
        keys, values := keys + [m.serverName], values + [m];
      }
    }

    method SetItems(metas: seq<Meta>)
      requires Valid()
      modifies this
      ensures Valid() && values == PutAll(old(values), metas)
    {
      for i := 0 to |metas|
        invariant Valid() && values == PutAll(old(values), metas[..i])
      {
        PutAllSnoc(old(values), metas[..i], metas[i]);
        assert metas[..i + 1] == metas[..i] + [metas[i]];
        SetItem(metas[i]);
      }
      assert metas[..|metas|] == metas;
    }

    /** `pop(name, None)`: an unknown name is ignored. */
    method PopItem(name: string)
      requires Valid()
      modifies this
      ensures Valid() && values == Pop(old(values), name)
    {
      if name in keys {
        var i :| 0 <= i < |keys| && keys[i] == name;
        OthersDiffer(values, i);
        PopAt(values, i, name);
        NamesRemovedAt(values, i);
        IsMapPop(values, name);
        keys, values := keys[..i] + keys[i + 1..], values[..i] + values[i + 1..];
      } else {
        PopUnknown(values, name);
      }
    }
  }

  function AppendDecoded(done: seq<Meta>, rest: Option<seq<Meta>>): Option<seq<Meta>> {
    match rest case None => None case Some(ms) => Some(done + ms)
  }

  lemma AppendDecodedToNone(rest: Option<seq<Meta>>)
    ensures AppendDecoded([], rest) == rest
  {
    if rest.Some? {
      assert [] + rest.value == rest.value;
    }
  }

  /** The server file on disk. */
  class ServerDb {
    var text: Option<string>

    constructor (text: Option<string>)
      ensures this.text == text
    {
      this.text := text;
    }

    /** `load_local_servers` at the clock reading `now`. */
    method LoadLocalServers(now: int) returns (error: Option<LoadError>, d: OrderedDict)
      ensures fresh(d) && d.Valid()
      ensures Load(text, now) == if error.Some? then Failure(error.value) else Success(d.values)
      ensures text == None || text == Some("") ==> error == None && d.values == []
    {
      error := None;
      d := new OrderedDict();
      if text.None? || text.value == "" {
        return;
      }
      var json := Loads(text.value);
      if json.None? || json == Some(Obj(NoFields)) || json == Some(Str("")) {
        return;
      }
      if !json.value.Arr? {
        error := Some(NotServerRecords);
        return;
      }
      var rest := json.value.items;
      ghost var done: seq<Meta> := [];
      AppendDecodedToNone(DecodeAll(rest, now));
      while rest.Item?
        invariant d.Valid() && fresh(d)
        invariant d.values == PutAll([], done)
        invariant AppendDecoded(done, DecodeAll(rest, now)) == DecodeAll(json.value.items, now)
        decreases rest
      {
        var meta := Decode(rest.head, now);
        if meta.None? {
          error := Some(NotServerRecords);
          return;
        }
        PutAllSnoc([], done, meta.value);
        d.SetItem(meta.value);
        ghost var others := DecodeAll(rest.tail, now);
        if others.Some? {
          Assoc(done, [meta.value], others.value);
        }
        done := done + [meta.value];
        rest := rest.tail;
      }
      assert DecodeAll(rest, now) == Some([]) && done + [] == done;
    }

    /**
     * `update_local_servers`: loads, adds, deletes and rewrites the whole file. When the load
     * raises, nothing is written.
     */
    method UpdateLocalServers(added: seq<Meta>, deleted: seq<Meta>, now: int)
      returns (error: Option<LoadError>, d: OrderedDict)
      modifies this
      ensures fresh(d) && d.Valid()
      ensures match old(Load(text, now))
              case Failure(e) => error == Some(e) && text == old(text)
              case Success(servers) =>
                error == None && d.values == Update(servers, added, deleted) && text == Some(Save(d.values))
      ensures error == None ==> forall later :: Load(text, later) == Success(d.values)
      ensures old(text) == None || old(text) == Some("") ==> error == None && d.values == Update([], added, deleted)
    {
      error, d := LoadLocalServers(now);
      if error.Some? {
        return;
      }
      ghost var loaded := d.values;
      var collected := new OrderedDict();
      collected.SetItems(added);
      PutAllOfCollected(loaded, added);
      d.SetItems(collected.values);
      ghost var extended := d.values;
      for i := 0 to |deleted|
        invariant d.Valid() && fresh(d) && d.values == PopAll(extended, deleted[..i])
      {
        PopAllSnoc(extended, deleted[..i], deleted[i]);
        assert deleted[..i + 1] == deleted[..i] + [deleted[i]];
        d.PopItem(deleted[i].serverName);
      }
      assert deleted[..|deleted|] == deleted;
      text := Some("");
      text := Some(Save(d.values));
      forall later ensures Load(text, later) == Success(d.values) {
        LoadOfUpdated(old(text), added, deleted, now, later);
      }
    }
  }
}
