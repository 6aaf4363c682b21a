/**
 * The shared ZTP library (`ixvision_ztp_ntolib.py`): the supported port and connection
 * modes, and `df_connect_via_tags`, which adds tagged ports to one side of a dynamic
 * filter's connections as a set union.
 */
module NtoLib {
  import opened Nto
  import opened Seqs

  /** `port_modes_supported`: the CLI's port mode keys and the device's mode names. */
  const PortModes: map<string, string> := map["net" := "NETWORK", "tool" := "TOOL"]

  /** `df_connection_modes_supported`: a connection side and the port mode it needs. */
  const ConnectionModes: map<string, string> := map["input" := "NETWORK", "output" := "TOOL"]

  /** What `df_connect_via_tags` ends with. */
  datatype Connect =
    | UnsupportedMode   // the connection mode is not a key of the table
    | NoMatchingPorts   // no candidate port carries a tag
    | Unchanged         // every matched port was connected already
    | Updated           // the filter's list was extended
    | Crashed           // a port's keywords could not be searched, or the filter's list read

  /** The search for candidates: enabled ports in no port group, in the mode the side needs. */
  function CandidateQuery(portMode: string): Props {
    map["enabled" := Bool(true), "port_group_id" := Null, "mode" := Str(portMode)]
  }

  function Candidates(d: Device, mode: string): seq<Id>
    requires mode in ConnectionModes
  {
    Search(d.ports, CandidateQuery(ConnectionModes[mode]))
  }

  /** The filter property a connection side updates. */
  function ConnectProperty(mode: string): string {
    if mode == "input" then "source_port_list" else "dest_port_list"
  }

  /**
   * The inner loop over the tags for one readable port: the port is added once if its
   * keywords hold a tag; none when there is a tag to look for and the keywords are not a
   * list, a string or an object.
   */
  function TagStep(rec: Props, id: Id, tags: seq<string>, acc: seq<Id>): Option<seq<Id>> {
    match Keywords(rec)
    case None => if tags == [] then Some(acc) else None
    case Some(kw) => Some(if AnyTagIn(tags, kw) then AppendNew(acc, [id]) else acc)
  }

  /** The matching loop, from `acc`; candidates whose properties cannot be read are skipped. */
  function MatchFrom(ports: map<Id, Props>, cands: seq<Id>, tags: seq<string>, acc: seq<Id>): Option<seq<Id>>
    decreases |cands|
  {
    if cands == [] then Some(acc)
    else if cands[0] !in ports then MatchFrom(ports, cands[1..], tags, acc)
    else match TagStep(ports[cands[0]], cands[0], tags, acc)
      case None => None
      case Some(acc') => MatchFrom(ports, cands[1..], tags, acc')
  }

  /** The filter's current list on that side; none when it is missing or not a list. */
  function CurrentList(d: Device, dfId: Id, prop: string): Option<seq<Value>> {
    if dfId in d.filters.records && prop in d.filters.records[dfId]
       && d.filters.records[dfId][prop].List?
    then Some(d.filters.records[dfId][prop].items)
    else None
  }

  /** The outcome of a run and the writes it issues (at most one). */
  datatype Plan = Plan(outcome: Connect, writes: seq<Write>)

  function ConnectPlan(d: Device, dfId: Id, tags: seq<string>, mode: string): Plan {
    if mode !in ConnectionModes then Plan(UnsupportedMode, [])
    else match MatchFrom(d.ports.records, Candidates(d, mode), tags, [])
      case None => Plan(Crashed, [])
      case Some(m) =>
        if m == [] then Plan(NoMatchingPorts, [])
        else
          var prop := ConnectProperty(mode);
          match CurrentList(d, dfId, prop)
          case None => Plan(Crashed, [])
          case Some(cur) =>
            var next := AppendNew(cur, IdValues(m));
            if |next| != |cur|
            then Plan(Updated, [Modify(FilterKind, ById(dfId), map[prop := List(next)])])
            else Plan(Unchanged, [])
  }

  /** The tag loop for one port (`for keyword in tags: if keyword in port_details['keywords'] ...`). */
  method MatchTags(details: Props, id: Id, tags: seq<string>, matching: seq<Id>) returns (r: Option<seq<Id>>)
    ensures r == TagStep(details, id, tags, matching)
  {
    var acc := matching;
    var j := 0;
    while j < |tags|
      invariant 0 <= j <= |tags|
      invariant j == 0 ==> acc == matching
      invariant j > 0 ==> Keywords(details).Some?
      invariant j > 0 ==> acc == (if AnyTagIn(tags[..j], Keywords(details).value)
                                  then AppendNew(matching, [id]) else matching)
    {
      if Keywords(details).None? {
        return None;
      }
      var kw := Keywords(details).value;
      if HoldsKeyword(kw, tags[j]) && id !in acc {
        acc := acc + [id];
      }
      assert tags[..j + 1] == tags[..j] + [tags[j]];
      assert AnyTagIn(tags[..j + 1], kw) <==> AnyTagIn(tags[..j], kw) || HoldsKeyword(kw, tags[j]);
      j := j + 1;
    }
    assert tags[..j] == tags;
    return Some(acc);
  }

  /** The matching loop over the candidates. */
  method MatchPorts(ports: map<Id, Props>, cands: seq<Id>, tags: seq<string>) returns (r: Option<seq<Id>>)
    ensures r == MatchFrom(ports, cands, tags, [])
  {
    var matching: seq<Id> := [];
    var i := 0;
    while i < |cands|
      invariant 0 <= i <= |cands|
      invariant MatchFrom(ports, cands[i..], tags, matching) == MatchFrom(ports, cands, tags, [])
    {
      var id := cands[i];
      assert cands[i..][1..] == cands[i + 1..];
      if id in ports {
        var step := MatchTags(ports[id], id, tags, matching);
        if step.None? {
          return None;
        }
        matching := step.value;
      }
      i := i + 1;
    }
    return Some(matching);
  }

  /** The extension loop (`for port_id in ...: if port_id not in connect_list: extend`). */
  method Extend(current: seq<Value>, ids: seq<Value>) returns (connect: seq<Value>)
    ensures connect == AppendNew(current, ids)
  {
    connect := current;
    var k := 0;
    while k < |ids|
      invariant 0 <= k <= |ids|
      invariant AppendNew(connect, ids[k..]) == AppendNew(current, ids)
    {
      assert ids[k..][1..] == ids[k + 1..];
      if ids[k] !in connect {
        connect := connect + [ids[k]];
      }
      k := k + 1;
    }
  }

  /** `df_connect_via_tags(nto, df_id, tags, connection_mode)`. */
  method DfConnectViaTags(nto: Client, dfId: Id, tags: seq<string>, mode: string) returns (outcome: Connect)
    modifies nto
    ensures outcome == ConnectPlan(old(nto.dev), dfId, tags, mode).outcome
    ensures nto.Now() == EmitAll(old(nto.Now()), ConnectPlan(old(nto.dev), dfId, tags, mode).writes)
  {
    if mode !in ConnectionModes {
      return UnsupportedMode;
    }
    var cands := Search(nto.dev.ports, CandidateQuery(ConnectionModes[mode]));
    var matching := MatchPorts(nto.dev.ports.records, cands, tags);
    if matching.None? {
      return Crashed;
    }
    if matching.value == [] {
      return NoMatchingPorts;
    }
    var prop := if mode == "input" then "source_port_list" else "dest_port_list";
    var current := CurrentList(nto.dev, dfId, prop);
    if current.None? {
      return Crashed;
    }
    var connect := Extend(current.value, IdValues(matching.value));
    if |connect| != |current.value| {
      nto.ModifyFilter(dfId, map[prop := List(connect)]);
      return Updated;
    }
    return Unchanged;
  }

  // ---------------------------------------------------------------------------------------
  // Properties

  /** The candidates that carry one of the tags, in search order. */
  function Tagged(ports: map<Id, Props>, cands: seq<Id>, tags: seq<string>): (r: seq<Id>)
    ensures forall id :: id in r ==> id in cands
  {
    if cands == [] then []
    else
      var rest := Tagged(ports, cands[1..], tags);
      if cands[0] in ports && Keywords(ports[cands[0]]).Some?
         && AnyTagIn(tags, Keywords(ports[cands[0]]).value)
      then [cands[0]] + rest else rest
  }

  /** Whether some readable candidate has keywords the loop cannot search. */
  predicate Unsearchable(ports: map<Id, Props>, cands: seq<Id>, tags: seq<string>) {
    tags != [] && exists id :: id in cands && id in ports && Keywords(ports[id]).None?
  }

  /**
   * The matching loop crashes exactly on unsearchable keywords; otherwise it adds
   * to the list it starts from the tagged candidates, in search order, each once.
   */
  lemma {:induction false} MatchFromIsUnionWithTagged(ports: map<Id, Props>, cands: seq<Id>, tags: seq<string>, acc: seq<Id>)
    ensures MatchFrom(ports, cands, tags, acc)
         == (if Unsearchable(ports, cands, tags) then None else Some(AppendNew(acc, Tagged(ports, cands, tags))))
    decreases |cands|
  {
    if cands != [] {
      var c := cands[0];
      var rest := cands[1..];
      assert forall id :: id in cands <==> id == c || id in rest;
      assert Unsearchable(ports, cands, tags)
         <==> Unsearchable(ports, rest, tags) || (tags != [] && c in ports && Keywords(ports[c]).None?);
      if c !in ports || Keywords(ports[c]).None? {
        MatchFromIsUnionWithTagged(ports, rest, tags, acc);
      } else {
        var kw := Keywords(ports[c]).value;
        var acc' := if AnyTagIn(tags, kw) then AppendNew(acc, [c]) else acc;
        MatchFromIsUnionWithTagged(ports, rest, tags, acc');
        if AnyTagIn(tags, kw) {
          var t := Tagged(ports, rest, tags);
          assert Tagged(ports, cands, tags) == [c] + t;
          assert ([c] + t)[1..] == t;
          assert AppendNew(acc, [c]) == AppendNew(if c in acc then acc else acc + [c], []);
        }
      }
    }
  }

  /** The matched ids are the candidates carrying a tag, without repeats and in search order. */
  lemma MatchingIsTaggedCandidates(ports: map<Id, Props>, cands: seq<Id>, tags: seq<string>, m: seq<Id>)
    requires MatchFrom(ports, cands, tags, []) == Some(m)
    ensures NoDup(m)
    ensures forall id :: id in m <==> id in Tagged(ports, cands, tags)
    ensures NoDup(cands) ==> m == Tagged(ports, cands, tags)
  {
    MatchFromIsUnionWithTagged(ports, cands, tags, []);
    AppendNewNoDup([], Tagged(ports, cands, tags));
    AppendNewMembers([], Tagged(ports, cands, tags));
    if NoDup(cands) {
      TaggedNoDup(ports, cands, tags);
      AppendNewOfDistinct([], Tagged(ports, cands, tags));
    }
  }

  /** Filtering a list without repeats gives a list without repeats. */
  lemma {:induction false} TaggedNoDup(ports: map<Id, Props>, cands: seq<Id>, tags: seq<string>)
    requires NoDup(cands)
    ensures NoDup(Tagged(ports, cands, tags))
  {
    if cands != [] {
      assert NoDup(cands[1..]) by {
        forall i, j | 0 <= i < j < |cands[1..]| ensures cands[1..][i] != cands[1..][j] {
          assert cands[1..][i] == cands[i + 1] && cands[1..][j] == cands[j + 1];
        }
      }
      TaggedNoDup(ports, cands[1..], tags);
      var rest := Tagged(ports, cands[1..], tags);
      assert cands[0] !in cands[1..] by {
        forall k | 0 <= k < |cands[1..]| ensures cands[1..][k] != cands[0] {
          assert cands[1..][k] == cands[k + 1];
        }
      }
      var r := Tagged(ports, cands, tags);
      if r != rest {
        forall i, j | 0 <= i < j < |r| ensures r[i] != r[j] {
          if i == 0 { assert r[j] == rest[j - 1]; assert r[j] in rest; } else { assert r[i] == rest[i - 1] && r[j] == rest[j - 1]; }
        }
      }
    }
  }

  /** Appending items without repeats, none of which is there yet, is concatenation. */
  lemma {:induction false} AppendNewOfDistinct<T>(acc: seq<T>, xs: seq<T>)
    requires NoDup(acc + xs)
    ensures AppendNew(acc, xs) == acc + xs
    decreases |xs|
  {
    if xs != [] {
      assert xs[0] !in acc by {
        forall k | 0 <= k < |acc| ensures acc[k] != xs[0] {
          assert (acc + xs)[k] == acc[k] && (acc + xs)[|acc|] == xs[0];
        }
      }
      assert acc + [xs[0]] + xs[1..] == acc + xs;
      AppendNewOfDistinct(acc + [xs[0]], xs[1..]);
    }
  }

  /** Every port a run connects is enabled, in no port group and in the mode the side needs. */
  lemma ConnectedPortsQualify(d: Device, tags: seq<string>, mode: string, m: seq<Id>, id: Id)
    requires mode in ConnectionModes
    requires MatchFrom(d.ports.records, Candidates(d, mode), tags, []) == Some(m) && id in m
    ensures id in d.ports.records
    ensures HasField(d.ports.records[id], "enabled", Bool(true))
    ensures HasField(d.ports.records[id], "port_group_id", Null)
    ensures HasField(d.ports.records[id], "mode", Str(if mode == "input" then "NETWORK" else "TOOL"))
  {
    MatchingIsTaggedCandidates(d.ports.records, Candidates(d, mode), tags, m);
    var q := CandidateQuery(ConnectionModes[mode]);
    assert id in Candidates(d, mode);
    assert Matches(d.ports.records[id], q);
    assert "enabled" in q && "port_group_id" in q && "mode" in q;
  }

  /**
   * The single write a run can issue sets the side's list to the current list, kept in
   * order at the front, followed by the matched ids not already in it; it is issued exactly
   * when at least one matched id was missing.
   */
  lemma ConnectWrite(d: Device, dfId: Id, tags: seq<string>, mode: string, m: seq<Id>, cur: seq<Value>)
    requires mode in ConnectionModes
    requires MatchFrom(d.ports.records, Candidates(d, mode), tags, []) == Some(m) && m != []
    requires CurrentList(d, dfId, ConnectProperty(mode)) == Some(cur)
    ensures var p := ConnectPlan(d, dfId, tags, mode);
      (p.writes != [] <==> exists id :: id in m && Int(id) !in cur)
      && (p.writes != [] ==>
            p.writes == [Modify(FilterKind, ById(dfId), map[ConnectProperty(mode) := List(AppendNew(cur, IdValues(m)))])]
            && p.outcome == Updated)
      && (p.writes == [] ==> p.outcome == Unchanged)
    ensures var next := AppendNew(cur, IdValues(m));
      |cur| <= |next| && next[..|cur|] == cur
      && (forall v :: v in next <==> v in cur || exists id :: id in m && v == Int(id))
  {
    var vals := IdValues(m);
    AppendNewPrefix(cur, vals);
    AppendNewMembers(cur, vals);
    AppendNewUnchanged(cur, vals);
    assert forall v :: v in vals <==> exists id :: id in m && v == Int(id) by {
      forall v | v in vals ensures exists id :: id in m && v == Int(id) {
        var i :| 0 <= i < |vals| && vals[i] == v;
        assert m[i] in m;
      }
      forall id | id in m ensures Int(id) in vals {
        var i :| 0 <= i < |m| && m[i] == id;
        assert vals[i] == Int(id);
      }
    }
    var next := AppendNew(cur, vals);
    assert |next| == |cur| ==> next[..|cur|] == next;
  }

  /**
   * Idempotence: once a run's write, if it issued one, is accepted, a second run on the
   * resulting device issues no write.
   */
  lemma SecondRunWritesNothing(d: Device, dfId: Id, tags: seq<string>, mode: string)
    requires var p := ConnectPlan(d, dfId, tags, mode);
      p.writes != [] ==> dfId in d.filters.records && d.accepts(FilterKind, d.filters.records[dfId], p.writes[0].props)
    ensures var d' := if ConnectPlan(d, dfId, tags, mode).writes == [] then d
                      else Apply(d, ConnectPlan(d, dfId, tags, mode).writes[0]);
      ConnectPlan(d', dfId, tags, mode).writes == []
  {
    var p := ConnectPlan(d, dfId, tags, mode);
    if p.writes != [] {
      var m := MatchFrom(d.ports.records, Candidates(d, mode), tags, []).value;
      var prop := ConnectProperty(mode);
      var cur := CurrentList(d, dfId, prop).value;
      var vals := IdValues(m);
      var next := AppendNew(cur, vals);
      var w := Modify(FilterKind, ById(dfId), map[prop := List(next)]);
      assert p.writes[0] == w;
      var d' := Apply(d, w);
      assert d'.ports == d.ports;
      assert d'.filters.records[dfId] == d.filters.records[dfId] + map[prop := List(next)];
      assert CurrentList(d', dfId, prop) == Some(next);
      AppendNewMembers(cur, vals);
      AppendNewUnchanged(next, vals);
      assert AppendNew(next, vals) == next;
    }
  }
}
