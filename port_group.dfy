/**
 * `form_port_groups` (`ixvision_ztp_port_group.py`): find or create the named port group,
 * merge the tags into its keywords, convert tagged free ports to the group's mode and add
 * them to the group.
 */
module PortGroup {
  import opened Nto
  import opened Seqs

  /** The group mode for a mode key: `lb`/`LB` is a tool group, anything else a network group. */
  function GroupMode(key: string): string {
    if key == "lb" || key == "LB" then "TOOL" else "NETWORK"
  }

  function GroupType(key: string): string {
    if key == "lb" || key == "LB" then "LOAD_BALANCE" else "INTERCONNECT"
  }

  /** The keyword every object the ZTP scripts create carries. */
  const ZtpKeyword: string := "_ZTP_LLDP"

  /** The payload of `createPortGroup` for a group that does not exist yet. */
  function NewGroupProps(key: string, name: string, tags: seq<string>): Props {
    map["mode" := Str(GroupMode(key)), "port_group_type" := Str(GroupType(key)),
        "name" := Str(name), "keywords" := List([Str(ZtpKeyword)] + StrValues(tags))]
  }

  /** How a run ends. */
  datatype Outcome =
    | CreateFailed   // no group of that name and the device refused the new one
    | NoMatches      // no free port carries a tag
    | Formed         // the membership write was issued
    | Crashed        // a missing property, the unbound name or the `None` group was dereferenced

  /**
   * After the group lookup: either the run has ended, or it goes on with the group (none
   * after a type or mode mismatch) and the group's current members.
   */
  datatype Phase =
    | Stop(outcome: Outcome, state: State)
    | Proceed(state: State, group: Option<Id>, members: Value)

  function NameQuery(name: string): Props {
    map["name" := Str(name)]
  }

  /** The group lookup and, for a single match of the right kind, the keyword merge. */
  function FindOrCreate(s: State, tags: seq<string>, name: string, key: string): Phase {
    var found := Search(s.dev.groups, NameQuery(name));
    if |found| == 0 then
      var p := NewGroupProps(key, name, tags);
      match Created(s.dev, PortGroupKind, p)
      case None => Stop(CreateFailed, Emit(s, Create(PortGroupKind, p)))
      case Some(id) => Proceed(Emit(s, Create(PortGroupKind, p)), Some(id), List([]))
    else if |found| == 1 then
      var id := found[0];
      var rec := s.dev.groups.records[id];
      if !("default_name" in rec && "type" in rec && "mode" in rec) then Stop(Crashed, s)
      else if rec["type"] == Str(GroupType(key)) && rec["mode"] == Str(GroupMode(key)) then
        if "port_list" !in rec then Stop(Crashed, s)
        else match KeywordList(rec)
          case None => Stop(Crashed, s)
          case Some(kw) =>
            var merged := AppendNew(kw, StrValues(tags));
            if |merged| > |kw|
            then Proceed(Emit(s, Modify(PortGroupKind, ById(id), map["keywords" := List(merged)])), Some(id), rec["port_list"])
            else Proceed(s, Some(id), rec["port_list"])
      else Proceed(s, None, List([]))
    else Stop(Crashed, s)
  }

  /** Free ports: enabled, in no group, with no filter connections. */
  const FreePortQuery: Props :=
    map["enabled" := Bool(true), "port_group_id" := Null,
        "dest_filter_list" := List([]), "source_filter_list" := List([])]

  /** The state of the port matching loop: crashed, or going on with the matched ids. */
  datatype Matching = Failed(state: State) | Found(state: State, ids: seq<Id>)

  /**
   * One candidate: if its keywords hold a tag and it was not matched before, it is matched
   * and, when its mode differs from the group's, converted.
   */
  function PortStep(s: State, id: Id, tags: seq<string>, mode: string, acc: seq<Id>): Matching {
    if id !in s.dev.ports.records then Found(s, acc)
    else
      var rec := s.dev.ports.records[id];
      match Keywords(rec)
      case None => if tags == [] then Found(s, acc) else Failed(s)
      case Some(kw) =>
        if !AnyTagIn(tags, kw) || id in acc then Found(s, acc)
        else if "mode" !in rec then Failed(s)
        else if rec["mode"] != Str(mode) then Found(Emit(s, ModeWrite(id, mode)), acc + [id])
        else Found(s, acc + [id])
  }

  function MatchFrom(s: State, cands: seq<Id>, tags: seq<string>, mode: string, acc: seq<Id>): Matching
    decreases |cands|
  {
    if cands == [] then Found(s, acc)
    else match PortStep(s, cands[0], tags, mode, acc)
      case Failed(s') => Failed(s')
      case Found(s', acc') => MatchFrom(s', cands[1..], tags, mode, acc')
  }

  /** The result of a whole run: how it ended and the state it left. */
  datatype Run = Run(outcome: Outcome, state: State)

  /** The membership write: the matched ids, then the group's existing members. */
  function Finish(s: State, group: Option<Id>, members: Value, m: seq<Id>): Run {
    if m == [] then Run(NoMatches, s)
    else match group
      case None => Run(Crashed, s)
      case Some(g) =>
        if members.List?
        then Run(Formed, Emit(s, Modify(PortGroupKind, ById(g), map["port_list" := List(IdValues(m) + members.items)])))
        else Run(Crashed, s)
  }

  function Form(s: State, tags: seq<string>, name: string, key: string): Run {
    match FindOrCreate(s, tags, name, key)
    case Stop(o, s') => Run(o, s')
    case Proceed(s', g, members) =>
      match MatchFrom(s', Search(s'.dev.ports, FreePortQuery), tags, GroupMode(key), [])
      case Failed(s'') => Run(Crashed, s'')
      case Found(s'', m) => Finish(s'', g, members, m)
  }

  // ---------------------------------------------------------------------------------------
  // The script

  /** The `already_matched` loop: whether the port id is in the list. */
  method Contains(xs: seq<Id>, x: Id) returns (found: bool)
    ensures found <==> x in xs
  {
    found := false;
    for k := 0 to |xs|
      invariant found <==> x in xs[..k]
    {
      assert xs[..k + 1] == xs[..k] + [xs[k]];
      if xs[k] == x {
        found := true;
      }
    }
    assert xs[..|xs|] == xs;
  }

  /** The group lookup, create and keyword merge (lines 42-88). */
  method FindOrCreateGroup(nto: Client, tags: seq<string>, name: string, key: string)
    returns (stop: Option<Outcome>, group: Option<Id>, members: Value)
    modifies nto
    ensures var p := FindOrCreate(old(nto.Now()), tags, name, key);
      nto.Now() == p.state
      && (p.Stop? ==> stop == Some(p.outcome))
      && (p.Proceed? ==> stop == None && group == p.group && members == p.members)
  {
    var mode, gtype := GroupMode(key), GroupType(key);
    var found := Search(nto.dev.groups, NameQuery(name));
    group, members := None, List([]);
    if |found| == 0 {
      var p := map["mode" := Str(mode), "port_group_type" := Str(gtype)];
      p := p + map["name" := Str(name), "keywords" := List([Str(ZtpKeyword)] + StrValues(tags))];
      assert p == NewGroupProps(key, name, tags);
      var created := nto.CreatePortGroup(p);
      if created.None? {
        return Some(CreateFailed), group, members;
      }
      return None, created, members;
    } else if |found| == 1 {
      var id := found[0];
      var details := nto.dev.groups.records[id];
      if !("default_name" in details && "type" in details && "mode" in details) {
        return Some(Crashed), group, members;
      }
      if details["type"] == Str(gtype) && details["mode"] == Str(mode) {
        if "port_list" !in details {
          return Some(Crashed), group, members;
        }
        group, members := Some(id), details["port_list"];
        if KeywordList(details).None? {
          return Some(Crashed), group, members;
        }
        var kw := KeywordList(details).value;
        var updated := kw;
        var k := 0;
        while k < |tags|
          invariant 0 <= k <= |tags|
          invariant AppendNew(updated, StrValues(tags)[k..]) == AppendNew(kw, StrValues(tags))
        {
          assert StrValues(tags)[k..][1..] == StrValues(tags)[k + 1..];
          if Str(tags[k]) !in updated {
            updated := updated + [Str(tags[k])];
          }
          k := k + 1;
        }
        if |updated| > |kw| {
          nto.ModifyPortGroup(id, map["keywords" := List(updated)]);
        }
      }
      return None, group, members;
    } else {
      return Some(Crashed), group, members;
    }
  }

  /** One candidate port (lines 94-109). */
  method MatchPort(nto: Client, id: Id, tags: seq<string>, mode: string, matching: seq<Id>) returns (r: Option<seq<Id>>)
    modifies nto
    ensures var st := PortStep(old(nto.Now()), id, tags, mode, matching);
      nto.Now() == st.state && (r.None? <==> st.Failed?) && (st.Found? ==> r == Some(st.ids))
  {
    if id !in nto.dev.ports.records {
      return Some(matching);
    }
    var details := nto.dev.ports.records[id];
    ghost var s0 := nto.Now();
    var acc := matching;
    var j := 0;
    while j < |tags|
      invariant 0 <= j <= |tags|
      invariant j > 0 ==> Keywords(details).Some?
      invariant if j > 0 && AnyTagIn(tags[..j], Keywords(details).value) && id !in matching
        then acc == matching + [id] && "mode" in details
             && nto.Now() == (if details["mode"] != Str(mode) then Emit(s0, ModeWrite(id, mode)) else s0)
        else acc == matching && nto.Now() == s0
    {
      if Keywords(details).None? {
        return None;
      }
      var kw := Keywords(details).value;
      assert tags[..j + 1] == tags[..j] + [tags[j]];
      assert AnyTagIn(tags[..j + 1], kw) <==> AnyTagIn(tags[..j], kw) || HoldsKeyword(kw, tags[j]);
      if HoldsKeyword(kw, tags[j]) {
        var already := Contains(acc, id);
        if !already {
          acc := acc + [id];
          if "mode" !in details {
            return None;
          }
          if details["mode"] != Str(mode) {
            nto.ModifyPort(ById(id), map["mode" := Str(mode)]);
          }
        }
      }
      j := j + 1;
    }
    assert tags[..j] == tags;
    return Some(acc);
  }

  /** The port matching loop (lines 91-109). */
  method MatchPorts(nto: Client, tags: seq<string>, mode: string) returns (r: Option<seq<Id>>)
    modifies nto
    ensures var st := MatchFrom(old(nto.Now()), Search(old(nto.dev).ports, FreePortQuery), tags, mode, []);
      nto.Now() == st.state && (r.None? <==> st.Failed?) && (st.Found? ==> r == Some(st.ids))
  {
    var cands := Search(nto.dev.ports, FreePortQuery);
    ghost var goal := MatchFrom(nto.Now(), cands, tags, mode, []);
    var matching: seq<Id> := [];
    var i := 0;
    while i < |cands|
      invariant 0 <= i <= |cands|
      invariant MatchFrom(nto.Now(), cands[i..], tags, mode, matching) == goal
    {
      assert cands[i..][1..] == cands[i + 1..];
      var step := MatchPort(nto, cands[i], tags, mode, matching);
      if step.None? {
        return None;
      }
      matching := step.value;
      i := i + 1;
    }
    return Some(matching);
  }

  /** `form_port_groups(host_ip, port, username, password, tags, pg_name, pg_mode_key)`. */
  method FormPortGroups(nto: Client, tags: seq<string>, name: string, key: string) returns (outcome: Outcome)
    modifies nto
    ensures Run(outcome, nto.Now()) == Form(old(nto.Now()), tags, name, key)
  {
    var stop, group, members := FindOrCreateGroup(nto, tags, name, key);
    if stop.Some? {
      return stop.value;
    }
    var matching := MatchPorts(nto, tags, GroupMode(key));
    if matching.None? {
      return Crashed;
    }
    if matching.value == [] {
      return NoMatches;
    }
    if group.None? || !members.List? {
      return Crashed;
    }
    nto.ModifyPortGroup(group.value, map["port_list" := List(IdValues(matching.value) + members.items)]);
    return Formed;
  }

  // ---------------------------------------------------------------------------------------
  // Properties

  /** A write that sets a port's mode to the given one, addressed by id. */
  predicate IsModeWrite(w: Write, mode: string) {
    w.Modify? && w.kind == PortKind && w.target.ById? && w == ModeWrite(w.target.id, mode)
  }

  /**
   * The port loop only appends mode writes: each converts a port, not matched before the
   * loop, whose mode differed from the group's; no port is converted twice; and the
   * matched list extends the one the loop started from, without repeats.
   */
  lemma {:induction false} MatchFromWrites(s: State, cands: seq<Id>, tags: seq<string>, mode: string, acc: seq<Id>)
    ensures var r := MatchFrom(s, cands, tags, mode, acc);
      |s.log| <= |r.state.log| && r.state.log[..|s.log|] == s.log
      && (forall i :: |s.log| <= i < |r.state.log| ==>
            IsModeWrite(r.state.log[i], mode)
            && r.state.log[i].target.id !in acc
            && r.state.log[i].target.id in s.dev.ports.records
            && "mode" in s.dev.ports.records[r.state.log[i].target.id]
            && s.dev.ports.records[r.state.log[i].target.id]["mode"] != Str(mode))
      && (forall i, j :: |s.log| <= i < j < |r.state.log| ==> r.state.log[i].target != r.state.log[j].target)
      && (r.Found? ==> |acc| <= |r.ids| && r.ids[..|acc|] == acc
                       && (forall i :: |s.log| <= i < |r.state.log| ==> r.state.log[i].target.id in r.ids)
                       && (NoDup(acc) ==> NoDup(r.ids)))
  {
    MatchFromLog(s, cands, tags, mode, acc);
    MatchFromIds(s, cands, tags, mode, acc);
  }

  /** One candidate leaves the state and the matched list as they were, or matches it, converting it or not. */
  lemma PortStepCases(s: State, id: Id, tags: seq<string>, mode: string, acc: seq<Id>)
    ensures var r := PortStep(s, id, tags, mode, acc);
      (r.Failed? ==> r.state == s)
      && (r.Found? ==>
            (r.state == s && r.ids == acc)
            || (id !in acc && r.ids == acc + [id]
                && (r.state == s
                    || (r.state == Emit(s, ModeWrite(id, mode)) && id in s.dev.ports.records
                        && "mode" in s.dev.ports.records[id] && s.dev.ports.records[id]["mode"] != Str(mode)))))
  {
  }

  /** The port loop's writes: mode writes of distinct ports that were unmatched and in another mode. */
  lemma {:induction false} MatchFromLog(s: State, cands: seq<Id>, tags: seq<string>, mode: string, acc: seq<Id>)
    ensures var r := MatchFrom(s, cands, tags, mode, acc);
      |s.log| <= |r.state.log| && r.state.log[..|s.log|] == s.log
      && (forall i :: |s.log| <= i < |r.state.log| ==>
            IsModeWrite(r.state.log[i], mode)
            && r.state.log[i].target.id !in acc
            && r.state.log[i].target.id in s.dev.ports.records
            && "mode" in s.dev.ports.records[r.state.log[i].target.id]
            && s.dev.ports.records[r.state.log[i].target.id]["mode"] != Str(mode))
      && (forall i, j :: |s.log| <= i < j < |r.state.log| ==> r.state.log[i].target != r.state.log[j].target)
    decreases |cands|
  {
    if cands != [] {
      var id := cands[0];
      var st := PortStep(s, id, tags, mode, acc);
      PortStepCases(s, id, tags, mode, acc);
      if st.Found? {
        var s', acc' := st.state, st.ids;
        MatchFromLog(s', cands[1..], tags, mode, acc');
        var r := MatchFrom(s', cands[1..], tags, mode, acc');
        assert r == MatchFrom(s, cands, tags, mode, acc);
        if s' != s {
          PortWriteFrame(s.dev, id, map["mode" := Str(mode)]);
          assert r.state.log[|s.log|] == ModeWrite(id, mode) by {
            assert r.state.log[..|s'.log|] == s'.log;
          }
        }
      }
    }
  }

  /** The matched list extends the starting one, names every converted port and has no repeats. */
  lemma {:induction false} MatchFromIds(s: State, cands: seq<Id>, tags: seq<string>, mode: string, acc: seq<Id>)
    ensures var r := MatchFrom(s, cands, tags, mode, acc);
      r.Found? ==> |acc| <= |r.ids| && r.ids[..|acc|] == acc
                   && (forall i :: |s.log| <= i < |r.state.log| && r.state.log[i].Modify? && r.state.log[i].target.ById?
                                   ==> r.state.log[i].target.id in r.ids)
                   && (NoDup(acc) ==> NoDup(r.ids))
    decreases |cands|
  {
    if cands != [] {
      var id := cands[0];
      var st := PortStep(s, id, tags, mode, acc);
      PortStepCases(s, id, tags, mode, acc);
      if st.Found? {
        var s', acc' := st.state, st.ids;
        MatchFromIds(s', cands[1..], tags, mode, acc');
        var r := MatchFrom(s', cands[1..], tags, mode, acc');
        assert r == MatchFrom(s, cands, tags, mode, acc);
        if acc' != acc && r.Found? {
          assert NoDup(acc) ==> NoDup(acc') by {
            if NoDup(acc) {
              forall i, j | 0 <= i < j < |acc'| ensures acc'[i] != acc'[j] {
                if j == |acc| { assert acc'[i] == acc[i]; }
              }
            }
          }
          assert r.ids[..|acc|] == r.ids[..|acc'|][..|acc|];
          assert id == r.ids[|acc|];
          if s' != s {
            MatchFromLog(s', cands[1..], tags, mode, acc');
            assert r.state.log[|s.log|] == ModeWrite(id, mode) by {
              assert r.state.log[..|s'.log|] == s'.log;
            }
          }
        }
      }
    }
  }

  /** A port whose keywords can be searched and hold one of the tags. */
  predicate TaggedPort(rec: Props, tags: seq<string>) {
    Keywords(rec).Some? && AnyTagIn(tags, Keywords(rec).value)
  }

  /** A mode write keeps every port, and every port's keywords; other ports keep their record. */
  lemma ModeWriteFrame(s: State, id: Id, mode: string)
    ensures var d' := Emit(s, ModeWrite(id, mode)).dev;
      d'.ports.records.Keys == s.dev.ports.records.Keys
      && (forall y :: y in s.dev.ports.records ==> Keywords(d'.ports.records[y]) == Keywords(s.dev.ports.records[y]))
      && (forall y :: y in s.dev.ports.records && y != id ==> d'.ports.records[y] == s.dev.ports.records[y])
  {
    var d' := Emit(s, ModeWrite(id, mode)).dev;
    PortWriteFrame(s.dev, id, map["mode" := Str(mode)]);
    if id in s.dev.ports.records && d'.ports.records[id] != s.dev.ports.records[id] {
      assert d'.ports.records[id] == s.dev.ports.records[id] + map["mode" := Str(mode)];
    }
  }

  /**
   * The ports the loop matches are the ones it started with and the candidates whose
   * keywords hold a tag, read before the loop converts anything.
   */
  lemma {:induction false} MatchFromMembers(s: State, cands: seq<Id>, tags: seq<string>, mode: string, acc: seq<Id>)
    ensures var r := MatchFrom(s, cands, tags, mode, acc);
      r.Found? ==> forall id :: id in r.ids <==>
        id in acc || (id in cands && id in s.dev.ports.records && TaggedPort(s.dev.ports.records[id], tags))
    decreases |cands|
  {
    if cands != [] {
      var c := cands[0];
      var st := PortStep(s, c, tags, mode, acc);
      PortStepCases(s, c, tags, mode, acc);
      if st.Found? {
        var s', acc' := st.state, st.ids;
        MatchFromMembers(s', cands[1..], tags, mode, acc');
        if s' != s {
          ModeWriteFrame(s, c, mode);
        }
        assert forall id :: id in cands <==> id == c || id in cands[1..];
      }
    }
  }

  /**
   * Every newly matched port had a mode, and it is converted, by a write of the loop,
   * exactly when that mode differs from the group's.
   */
  lemma {:induction false} MatchFromConverts(s: State, cands: seq<Id>, tags: seq<string>, mode: string, acc: seq<Id>)
    ensures var r := MatchFrom(s, cands, tags, mode, acc);
      r.Found? ==> forall id :: id in r.ids && id !in acc ==>
        id in s.dev.ports.records && "mode" in s.dev.ports.records[id]
        && (s.dev.ports.records[id]["mode"] != Str(mode)
            <==> exists i :: |s.log| <= i < |r.state.log| && r.state.log[i] == ModeWrite(id, mode))
    decreases |cands|
  {
    MatchFromLog(s, cands, tags, mode, acc);
    if cands != [] {
      var c := cands[0];
      var st := PortStep(s, c, tags, mode, acc);
      PortStepCases(s, c, tags, mode, acc);
      if st.Found? {
        var s', acc' := st.state, st.ids;
        var r := MatchFrom(s', cands[1..], tags, mode, acc');
        assert r == MatchFrom(s, cands, tags, mode, acc);
        MatchFromConverts(s', cands[1..], tags, mode, acc');
        MatchFromLog(s', cands[1..], tags, mode, acc');
        if s' != s {
          ModeWriteFrame(s, c, mode);
          assert r.state.log[|s.log|] == ModeWrite(c, mode) by {
            assert r.state.log[..|s'.log|] == s'.log;
          }
        }
        assert r.state.log[..|s'.log|] == s'.log;
        if r.Found? {
          forall id | id in r.ids && id !in acc
            ensures id in s.dev.ports.records && "mode" in s.dev.ports.records[id]
            ensures s.dev.ports.records[id]["mode"] != Str(mode)
                    <==> exists i :: |s.log| <= i < |r.state.log| && r.state.log[i] == ModeWrite(id, mode)
          {
            if id != c || acc' == acc {
              assert id !in acc';
              if exists i :: |s.log| <= i < |r.state.log| && r.state.log[i] == ModeWrite(id, mode) {
                var i :| |s.log| <= i < |r.state.log| && r.state.log[i] == ModeWrite(id, mode);
                assert i >= |s'.log|;
              }
            } else {
              assert c in acc';
              if s' == s {
                assert forall i :: |s.log| <= i < |r.state.log| ==> r.state.log[i].target.id !in acc';
              }
            }
          }
        }
      }
    }
  }

  /**
   * A run that reports no matches found no free port whose keywords hold a tag, and after
   * the lookup it wrote no port group: the membership is not modified.
   */
  lemma NoMatchesKeepsMembership(s: State, tags: seq<string>, name: string, key: string)
    requires Form(s, tags, name, key).outcome == NoMatches
    ensures var p := FindOrCreate(s, tags, name, key);
      p.Proceed?
      && var free := Search(p.state.dev.ports, FreePortQuery);
      var r := Form(s, tags, name, key);
      (forall id :: id in free && id in p.state.dev.ports.records ==> !TaggedPort(p.state.dev.ports.records[id], tags))
      && |p.state.log| <= |r.state.log| && r.state.log[..|p.state.log|] == p.state.log
      && (forall i :: |p.state.log| <= i < |r.state.log| ==> r.state.log[i].kind == PortKind)
  {
    var p := FindOrCreate(s, tags, name, key);
    var free := Search(p.state.dev.ports, FreePortQuery);
    var m := MatchFrom(p.state, free, tags, GroupMode(key), []);
    assert m.Found? && m.ids == [] && Form(s, tags, name, key).state == m.state;
    MatchFromMembers(p.state, free, tags, GroupMode(key), []);
    MatchFromLog(p.state, free, tags, GroupMode(key), []);
  }

  /**
   * With no group of that name, the run first issues exactly one create, with the name,
   * the mode and type of the key and the keywords `_ZTP_LLDP` and the tags; if the device
   * refuses it, that create is the run's only write.
   */
  lemma NewGroupCreated(s: State, tags: seq<string>, name: string, key: string)
    requires |Search(s.dev.groups, NameQuery(name))| == 0
    ensures var r := Form(s, tags, name, key);
      |r.state.log| > |s.log| && r.state.log[|s.log|] == Create(PortGroupKind, NewGroupProps(key, name, tags))
    ensures Created(s.dev, PortGroupKind, NewGroupProps(key, name, tags)).None? ==>
      Form(s, tags, name, key) == Run(CreateFailed, Emit(s, Create(PortGroupKind, NewGroupProps(key, name, tags))))
  {
    var p := FindOrCreate(s, tags, name, key);
    if p.Proceed? {
      var m := MatchFrom(p.state, Search(p.state.dev.ports, FreePortQuery), tags, GroupMode(key), []);
      MatchFromWrites(p.state, Search(p.state.dev.ports, FreePortQuery), tags, GroupMode(key), []);
      assert m.state.log[..|p.state.log|] == p.state.log;
      assert m.state.log[|s.log|] == p.state.log[|s.log|];
    }
  }

  /**
   * A single group of that name with the requested type and mode is reused: its keywords
   * are kept, in order, followed by each tag it lacked, once; it is modified exactly when a
   * tag was missing; and its members are carried on.
   */
  lemma KeywordMerge(s: State, tags: seq<string>, name: string, key: string, id: Id, kw: seq<Value>)
    requires Search(s.dev.groups, NameQuery(name)) == [id]
    requires var rec := s.dev.groups.records[id];
      "default_name" in rec && "port_list" in rec
      && HasField(rec, "type", Str(GroupType(key))) && HasField(rec, "mode", Str(GroupMode(key)))
      && KeywordList(rec) == Some(kw)
    ensures var merged := AppendNew(kw, StrValues(tags));
      FindOrCreate(s, tags, name, key)
      == Proceed(if exists t :: t in tags && Str(t) !in kw
                 then Emit(s, Modify(PortGroupKind, ById(id), map["keywords" := List(merged)]))
                 else s,
                 Some(id), s.dev.groups.records[id]["port_list"])
    ensures var merged := AppendNew(kw, StrValues(tags));
      |kw| <= |merged| && merged[..|kw|] == kw
      && (forall v :: v in merged <==> v in kw || exists t :: t in tags && v == Str(t))
      && (NoDup(kw) ==> NoDup(merged))
  {
    var vals := StrValues(tags);
    var merged := AppendNew(kw, vals);
    AppendNewPrefix(kw, vals);
    AppendNewMembers(kw, vals);
    AppendNewUnchanged(kw, vals);
    if NoDup(kw) { AppendNewNoDup(kw, vals); }
    assert forall v :: v in vals <==> exists t :: t in tags && v == Str(t) by {
      forall v | v in vals ensures exists t :: t in tags && v == Str(t) {
        var i :| 0 <= i < |vals| && vals[i] == v;
        assert tags[i] in tags;
      }
      forall t | t in tags ensures Str(t) in vals {
        var i :| 0 <= i < |tags| && tags[i] == t;
        assert vals[i] == Str(t);
      }
    }
    assert |merged| == |kw| ==> merged[..|kw|] == merged;
  }

  /** More than one group of that name: the run stops without issuing any write. */
  lemma AmbiguousNameWritesNothing(s: State, tags: seq<string>, name: string, key: string)
    requires |Search(s.dev.groups, NameQuery(name))| > 1
    ensures Form(s, tags, name, key) == Run(Crashed, s)
  {
  }

  /**
   * A single group of that name with another type or mode is not used, but the run does
   * not stop: it still converts tagged ports and then, if any matched, crashes on the
   * missing group instead of forming it.
   */
  lemma MismatchFallsThrough(s: State, tags: seq<string>, name: string, key: string, id: Id)
    requires Search(s.dev.groups, NameQuery(name)) == [id]
    requires var rec := s.dev.groups.records[id];
      "default_name" in rec && "type" in rec && "mode" in rec
      && !(rec["type"] == Str(GroupType(key)) && rec["mode"] == Str(GroupMode(key)))
    ensures var m := MatchFrom(s, Search(s.dev.ports, FreePortQuery), tags, GroupMode(key), []);
      Form(s, tags, name, key)
      == if m.Failed? then Run(Crashed, m.state)
         else if m.ids == [] then Run(NoMatches, m.state)
         else Run(Crashed, m.state)
  {
  }

  /**
   * A formed group's membership write is the last write: the matched ports, each once,
   * followed by the members the group had; every earlier write of the port loop converted
   * one matched port to the group's mode; and the matched ports are exactly the free ports
   * whose keywords hold a tag.
   */
  lemma FormedMembership(s: State, tags: seq<string>, name: string, key: string)
    requires Form(s, tags, name, key).outcome == Formed
    ensures var p := FindOrCreate(s, tags, name, key);
      p.Proceed? && p.group.Some? && p.members.List?
      && var m := MatchFrom(p.state, Search(p.state.dev.ports, FreePortQuery), tags, GroupMode(key), []);
      m.Found? && m.ids != [] && NoDup(m.ids)
      && Form(s, tags, name, key).state
         == Emit(m.state, Modify(PortGroupKind, ById(p.group.value),
                                 map["port_list" := List(IdValues(m.ids) + p.members.items)]))
      && (forall i :: |p.state.log| <= i < |m.state.log| ==>
            IsModeWrite(m.state.log[i], GroupMode(key)) && m.state.log[i].target.id in m.ids)
      && (forall id :: id in m.ids <==>
            id in Search(p.state.dev.ports, FreePortQuery) && id in p.state.dev.ports.records
            && TaggedPort(p.state.dev.ports.records[id], tags))
  {
    var p := FindOrCreate(s, tags, name, key);
    MatchFromWrites(p.state, Search(p.state.dev.ports, FreePortQuery), tags, GroupMode(key), []);
    MatchFromMembers(p.state, Search(p.state.dev.ports, FreePortQuery), tags, GroupMode(key), []);
  }
}
