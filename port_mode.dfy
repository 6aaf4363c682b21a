/**
 * `set_port_mode` (`ixvision_ztp_port_mode.py`): convert free ports tagged with one of the
 * keywords to a network or tool port, then re-read each converted port to report on it.
 */
module PortMode {
  import opened Nto
  import opened Seqs
  import opened Text
  import NtoLib

  /** Free ports: enabled, in no group, with no filter connections. */
  const FreePortQuery: Props :=
    map["enabled" := Bool(true), "port_group_id" := Null,
        "dest_filter_list" := List([]), "source_filter_list" := List([])]

  /** Whether the upper-cased form of one of the tags is in the keywords. */
  predicate AnyUpperTagIn(tags: seq<string>, keywords: Value) {
    exists t :: t in tags && HoldsKeyword(keywords, Upper(t))
  }

  /**
   * The tag loop for one readable port: the port is added once when a tag matches and its
   * mode differs from the target; none when the keywords are not a list, a string or an
   * object (and there is a tag), or when a tag matches a new port whose mode is missing or the mode key is unknown.
   */
  function ModeStep(rec: Props, id: Id, tags: seq<string>, mode: string, acc: seq<Id>): Option<seq<Id>> {
    match Keywords(rec)
    case None => if tags == [] then Some(acc) else None
    case Some(kw) =>
      if !AnyUpperTagIn(tags, kw) || id in acc then Some(acc)
      else if "mode" !in rec || mode !in NtoLib.PortModes then None
      else if rec["mode"] != Str(NtoLib.PortModes[mode]) then Some(acc + [id])
      else Some(acc)
  }

  /** The matching loop over the candidates, from `acc`. */
  function MatchFrom(ports: map<Id, Props>, cands: seq<Id>, tags: seq<string>, mode: string, acc: seq<Id>): Option<seq<Id>>
    decreases |cands|
  {
    if cands == [] then Some(acc)
    else if cands[0] !in ports then MatchFrom(ports, cands[1..], tags, mode, acc)
    else match ModeStep(ports[cands[0]], cands[0], tags, mode, acc)
      case None => None
      case Some(acc') => MatchFrom(ports, cands[1..], tags, mode, acc')
  }

  /** How a run ends; a conversion reports, per converted port, whether the re-read shows the new mode. */
  datatype Outcome = NoMatches | Converted(succeeded: seq<bool>) | Crashed

  datatype Run = Run(outcome: Outcome, state: State)

  /**
   * The conversion loop: one mode write per port, then a re-read of its mode and name
   * (a port that cannot be re-read, or lacks either, makes the report raise).
   */
  function ConvertFrom(s: State, ids: seq<Id>, target: string, reports: seq<bool>): Run
    decreases |ids|
  {
    if ids == [] then Run(Converted(reports), s)
    else
      var s' := Emit(s, ModeWrite(ids[0], target));
      if ids[0] !in s'.dev.ports.records then Run(Crashed, s')
      else
        var rec := s'.dev.ports.records[ids[0]];
        if "mode" !in rec || "name" !in rec then Run(Crashed, s')
        else ConvertFrom(s', ids[1..], target, reports + [rec["mode"] == Str(target)])
  }

  function SetMode(s: State, tags: seq<string>, mode: string): Run {
    match MatchFrom(s.dev.ports.records, Search(s.dev.ports, FreePortQuery), tags, mode, [])
    case None => Run(Crashed, s)
    case Some(m) =>
      if m == [] then Run(NoMatches, s)
      else
        MatchedModeKnown(s.dev.ports.records, Search(s.dev.ports, FreePortQuery), tags, mode, []);
        ConvertFrom(s, m, NtoLib.PortModes[mode], [])
  }

  // ---------------------------------------------------------------------------------------
  // The script

  /** The tag loop for one port (lines 40-43). */
  method MatchTags(details: Props, id: Id, tags: seq<string>, mode: string, matching: seq<Id>) returns (r: Option<seq<Id>>)
    ensures r == ModeStep(details, id, tags, mode, matching)
  {
    var acc := matching;
    var j := 0;
    while j < |tags|
      invariant 0 <= j <= |tags|
      invariant j > 0 ==> Keywords(details).Some?
      invariant if j > 0 && AnyUpperTagIn(tags[..j], Keywords(details).value) && id !in matching
        then "mode" in details && mode in NtoLib.PortModes
             && acc == (if details["mode"] != Str(NtoLib.PortModes[mode]) then matching + [id] else matching)
        else acc == matching
    {
      if Keywords(details).None? {
        return None;
      }
      var kw := Keywords(details).value;
      assert tags[..j + 1] == tags[..j] + [tags[j]];
      assert AnyUpperTagIn(tags[..j + 1], kw) <==> AnyUpperTagIn(tags[..j], kw) || HoldsKeyword(kw, Upper(tags[j]));
      if HoldsKeyword(kw, Upper(tags[j])) && id !in acc {
        if "mode" !in details || mode !in NtoLib.PortModes {
          return None;
        }
        if details["mode"] != Str(NtoLib.PortModes[mode]) {
          acc := acc + [id];
        }
      }
      j := j + 1;
    }
    assert tags[..j] == tags;
    return Some(acc);
  }

  /** The matching loop (lines 35-43). */
  method MatchPorts(ports: map<Id, Props>, cands: seq<Id>, tags: seq<string>, mode: string) returns (r: Option<seq<Id>>)
    ensures r == MatchFrom(ports, cands, tags, mode, [])
  {
    var matching: seq<Id> := [];
    var i := 0;
    while i < |cands|
      invariant 0 <= i <= |cands|
      invariant MatchFrom(ports, cands[i..], tags, mode, matching) == MatchFrom(ports, cands, tags, mode, [])
    {
      assert cands[i..][1..] == cands[i + 1..];
      if cands[i] in ports {
        var step := MatchTags(ports[cands[i]], cands[i], tags, mode, matching);
        if step.None? {
          return None;
        }
        matching := step.value;
      }
      i := i + 1;
    }
    return Some(matching);
  }

  /** `set_port_mode(host_ip, port, username, password, tags, mode)`. */
  method SetPortMode(nto: Client, tags: seq<string>, mode: string) returns (outcome: Outcome)
    modifies nto
    ensures Run(outcome, nto.Now()) == SetMode(old(nto.Now()), tags, mode)
  {
    var cands := Search(nto.dev.ports, FreePortQuery);
    var matching := MatchPorts(nto.dev.ports.records, cands, tags, mode);
    if matching.None? {
      return Crashed;
    }
    var ids := matching.value;
    if ids == [] {
      return NoMatches;
    }
    MatchedModeKnown(nto.dev.ports.records, cands, tags, mode, []);
    var target := NtoLib.PortModes[mode];
    ghost var goal := ConvertFrom(nto.Now(), ids, target, []);
    var reports: seq<bool> := [];
    var k := 0;
    while k < |ids|
      invariant 0 <= k <= |ids|
      invariant ConvertFrom(nto.Now(), ids[k..], target, reports) == goal
    {
      assert ids[k..][1..] == ids[k + 1..];
      nto.ModifyPort(ById(ids[k]), map["mode" := Str(target)]);
      if ids[k] !in nto.dev.ports.records {
        return Crashed;
      }
      var details := nto.dev.ports.records[ids[k]];
      if !("mode" in details && "name" in details) {
        return Crashed;
      }
      reports := reports + [details["mode"] == Str(target)];
      k := k + 1;
    }
    return Converted(reports);
  }

  // ---------------------------------------------------------------------------------------
  // Properties

  /** A port is added only once the mode key has been looked up. */
  lemma {:induction false} MatchedModeKnown(ports: map<Id, Props>, cands: seq<Id>, tags: seq<string>, mode: string, acc: seq<Id>)
    requires MatchFrom(ports, cands, tags, mode, acc).Some?
    requires acc == [] || mode in NtoLib.PortModes
    ensures MatchFrom(ports, cands, tags, mode, acc).value != [] ==> mode in NtoLib.PortModes
    decreases |cands|
  {
    if cands != [] {
      if cands[0] in ports {
        MatchedModeKnown(ports, cands[1..], tags, mode, ModeStep(ports[cands[0]], cands[0], tags, mode, acc).value);
      } else {
        MatchedModeKnown(ports, cands[1..], tags, mode, acc);
      }
    }
  }

  /** Whether the port qualifies: its upper-cased tag is a keyword and its mode is not the target. */
  predicate Qualifies(rec: Props, tags: seq<string>, target: string) {
    Keywords(rec).Some? && AnyUpperTagIn(tags, Keywords(rec).value)
    && "mode" in rec && rec["mode"] != Str(target)
  }

  /**
   * The matching loop adds to `acc`, each at most once and in candidate order, exactly the
   * readable candidates that carry an upper-cased tag and are not in the target mode.
   */
  lemma {:induction false} MatchFromQualifying(ports: map<Id, Props>, cands: seq<Id>, tags: seq<string>, mode: string, acc: seq<Id>)
    requires mode in NtoLib.PortModes
    requires MatchFrom(ports, cands, tags, mode, acc).Some?
    ensures var m := MatchFrom(ports, cands, tags, mode, acc).value;
      |acc| <= |m| && m[..|acc|] == acc
      && (NoDup(acc) ==> NoDup(m))
      && (forall id :: id in m <==> (id in acc
                         || (id in cands && id in ports && Qualifies(ports[id], tags, NtoLib.PortModes[mode]))))
    decreases |cands|
  {
    if cands != [] {
      var c := cands[0];
      assert forall id :: id in cands <==> id == c || id in cands[1..];
      var acc' := if c in ports then ModeStep(ports[c], c, tags, mode, acc).value else acc;
      MatchFromQualifying(ports, cands[1..], tags, mode, acc');
      var m := MatchFrom(ports, cands, tags, mode, acc).value;
      if acc' != acc {
        assert acc' == acc + [c];
        assert m[..|acc|] == m[..|acc'|][..|acc|];
        if NoDup(acc) {
          assert NoDup(acc') by {
            forall i, j | 0 <= i < j < |acc'| ensures acc'[i] != acc'[j] {
              if j == |acc| { assert acc'[i] == acc[i]; }
            }
          }
        }
      }
    }
  }

  /** Every matched port is a free port: enabled, in no group, with no filter connections. */
  lemma MatchedPortsFree(s: State, tags: seq<string>, mode: string, id: Id)
    requires mode in NtoLib.PortModes
    requires MatchFrom(s.dev.ports.records, Search(s.dev.ports, FreePortQuery), tags, mode, []).Some?
    requires id in MatchFrom(s.dev.ports.records, Search(s.dev.ports, FreePortQuery), tags, mode, []).value
    ensures id in s.dev.ports.records
    ensures var rec := s.dev.ports.records[id];
      HasField(rec, "enabled", Bool(true)) && HasField(rec, "port_group_id", Null)
      && HasField(rec, "dest_filter_list", List([])) && HasField(rec, "source_filter_list", List([]))
      && Qualifies(rec, tags, NtoLib.PortModes[mode])
  {
    MatchFromQualifying(s.dev.ports.records, Search(s.dev.ports, FreePortQuery), tags, mode, []);
    assert Matches(s.dev.ports.records[id], FreePortQuery);
    assert "enabled" in FreePortQuery && "port_group_id" in FreePortQuery;
    assert "dest_filter_list" in FreePortQuery && "source_filter_list" in FreePortQuery;
  }

  /** The mode writes for a list of ports, in order. */
  function ModeWrites(ids: seq<Id>, target: string): (r: seq<Write>)
    ensures |r| == |ids| && forall i :: 0 <= i < |ids| ==> r[i] == ModeWrite(ids[i], target)
  {
    seq(|ids|, i requires 0 <= i < |ids| => ModeWrite(ids[i], target))
  }

  /**
   * The conversion loop issues the matched ports' mode writes in order and nothing else (a
   * crash stops it after some of them); a completed run reports once per port.
   */
  lemma {:induction false} ConvertWrites(s: State, ids: seq<Id>, target: string, reports: seq<bool>)
    ensures var r := ConvertFrom(s, ids, target, reports);
      r.outcome != NoMatches && |s.log| <= |r.state.log| <= |s.log| + |ids|
      && r.state.log == (s.log + ModeWrites(ids, target))[..|r.state.log|]
    ensures var r := ConvertFrom(s, ids, target, reports);
      r.outcome.Converted? ==>
        |r.state.log| == |s.log| + |ids|
        && |r.outcome.succeeded| == |reports| + |ids| && r.outcome.succeeded[..|reports|] == reports
    decreases |ids|
  {
    if ids != [] {
      var s' := Emit(s, ModeWrite(ids[0], target));
      var all := s.log + ModeWrites(ids, target);
      assert s'.log + ModeWrites(ids[1..], target) == all;
      if ids[0] in s'.dev.ports.records && "mode" in s'.dev.ports.records[ids[0]] && "name" in s'.dev.ports.records[ids[0]] {
        var rec := s'.dev.ports.records[ids[0]];
        var reports' := reports + [rec["mode"] == Str(target)];
        ConvertWrites(s', ids[1..], target, reports');
        var r := ConvertFrom(s, ids, target, reports);
        if r.outcome.Converted? {
          assert r.outcome.succeeded[..|reports'|][..|reports|] == reports;
        }
      } else {
        assert s'.log == all[..|s'.log|];
      }
    }
  }

  /**
   * A run writes nothing when no port matches; otherwise it issues exactly one mode write
   * per matched port (if it completes), each setting the target mode named by the key.
   */
  lemma RunWrites(s: State, tags: seq<string>, mode: string)
    ensures var r := SetMode(s, tags, mode);
      r.outcome == NoMatches ==> r.state == s
    ensures var r := SetMode(s, tags, mode);
      var m := MatchFrom(s.dev.ports.records, Search(s.dev.ports, FreePortQuery), tags, mode, []);
      r.outcome.Converted? ==>
        m.Some? && mode in NtoLib.PortModes && NoDup(m.value)
        && r.state.log == s.log + ModeWrites(m.value, NtoLib.PortModes[mode])
        && |r.outcome.succeeded| == |m.value|
  {
    var cands := Search(s.dev.ports, FreePortQuery);
    var m := MatchFrom(s.dev.ports.records, cands, tags, mode, []);
    if m.Some? && m.value != [] {
      MatchedModeKnown(s.dev.ports.records, cands, tags, mode, []);
      MatchFromQualifying(s.dev.ports.records, cands, tags, mode, []);
      ConvertWrites(s, m.value, NtoLib.PortModes[mode], []);
    }
  }
}
