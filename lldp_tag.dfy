/**
 * `tag_ports` (`ixvision_ztp_lldp_tag.py`, repeated in `ixvision_lldp_tag.py`): for every
 * port the LLDP neighbor table names, add each tag found in a neighbor's port description
 * to the port's keywords, one write per matching (neighbor, tag) pair.
 */
module LldpTag {
  import opened Nto
  import opened Text

  /** The tags found in one port description, in tag order (case-sensitive substring test). */
  function FoundTags(tags: seq<string>, desc: string): seq<string>
    decreases |tags|
  {
    if tags == [] then []
    else FoundTags(tags[..|tags| - 1], desc)
         + (if IsSubstring(tags[|tags| - 1], desc) then [tags[|tags| - 1]] else [])
  }

  /** The tag of each matching (neighbor, tag) pair of one port, neighbor by neighbor. */
  function MatchedTags(nbrs: seq<Neighbor>, tags: seq<string>): seq<string>
    decreases |nbrs|
  {
    if nbrs == [] then []
    else MatchedTags(nbrs[..|nbrs| - 1], tags) + FoundTags(tags, nbrs[|nbrs| - 1].portDescription)
  }

  /** The keywords a write extends: null counts as none; none when they cannot be extended. */
  function BaseKeywords(rec: Props): Option<seq<Value>> {
    if "keywords" !in rec then None
    else match rec["keywords"]
      case Null => Some([])
      case List(xs) => Some(xs)
      case _ => None
  }

  /** The write that appends one tag to a port's fetched keywords. */
  function TagWrite(id: Id, base: seq<Value>, t: string): Write {
    Modify(PortKind, ById(id), map["keywords" := List(base + [Str(t)])])
  }

  /** One keyword write per matched tag, each from the same fetched keywords. */
  function KeywordWrites(id: Id, base: seq<Value>, ts: seq<string>): (r: seq<Write>)
    ensures |r| == |ts|
    ensures forall i :: 0 <= i < |ts| ==> r[i] == Modify(PortKind, ById(id), map["keywords" := List(base + [Str(ts[i])])])
  {
    seq(|ts|, i requires 0 <= i < |ts| => TagWrite(id, base, ts[i]))
  }

  /**
   * The writes for one neighbor-table entry; none when a pair matches but the port cannot
   * be read or its keywords cannot be extended (the first match raises).
   */
  function PortWrites(d: Device, name: string, nbrs: seq<Neighbor>, tags: seq<string>): Option<seq<Write>> {
    var ts := MatchedTags(nbrs, tags);
    if ts == [] then Some([])
    else match PortNamed(d, name)
      case None => None
      case Some(id) =>
        match BaseKeywords(d.ports.records[id])
        case None => None
        case Some(base) => Some(KeywordWrites(id, base, ts))
  }

  datatype Outcome = NoNeighbors | Tagged | Crashed

  datatype Run = Run(outcome: Outcome, state: State)

  function TagFrom(s: State, entries: seq<(string, seq<Neighbor>)>, tags: seq<string>): Run
    decreases |entries|
  {
    if entries == [] then Run(Tagged, s)
    else match PortWrites(s.dev, entries[0].0, entries[0].1, tags)
      case None => Run(Crashed, s)
      case Some(ws) => TagFrom(EmitAll(s, ws), entries[1..], tags)
  }

  function TagPorts(s: State, tags: seq<string>): Run {
    if s.dev.neighbors == [] then Run(NoNeighbors, s) else TagFrom(s, s.dev.neighbors, tags)
  }

  // ---------------------------------------------------------------------------------------
  // The script

  /** The writes of one port so far, for the tags matched so far. */
  ghost function WritesSoFar(port: Option<Id>, rec: Props, ts: seq<string>): seq<Write> {
    if ts == [] || port.None? || BaseKeywords(rec).None? then []
    else KeywordWrites(port.value, BaseKeywords(rec).value, ts)
  }

  /**
   * One matched tag: the port's fetched keywords plus the tag are written; false where the
   * port cannot be read or its keywords cannot be extended.
   */
  method AddTag(nto: Client, port: Option<Id>, rec: Props, tag: string) returns (ok: bool)
    modifies nto
    ensures ok == (port.Some? && BaseKeywords(rec).Some?)
    ensures ok ==> nto.Now() == Emit(old(nto.Now()), TagWrite(port.value, BaseKeywords(rec).value, tag))
    ensures !ok ==> nto.Now() == old(nto.Now())
  {
    var base := BaseKeywords(rec);
    if port.None? || base.None? {
      return false;
    }
    var portKeywords := base.value + [Str(tag)];
    nto.ModifyPort(ById(port.value), map["keywords" := List(portKeywords)]);
    return true;
  }

  /**
   * The tags of one neighbor: each tag found in its port description is appended to the
   * port's fetched keywords and written; false where the first such write raises.
   */
  method TagNeighbor(nto: Client, port: Option<Id>, rec: Props, desc: string, tags: seq<string>,
                     ghost s0: State, ghost before: seq<string>) returns (ok: bool)
    requires before != [] ==> port.Some? && BaseKeywords(rec).Some?
    requires nto.Now() == EmitAll(s0, WritesSoFar(port, rec, before))
    modifies nto
    ensures ok ==> (before + FoundTags(tags, desc) != [] ==> port.Some? && BaseKeywords(rec).Some?)
                   && nto.Now() == EmitAll(s0, WritesSoFar(port, rec, before + FoundTags(tags, desc)))
    ensures !ok ==> before == [] && FoundTags(tags, desc) != [] && (port.None? || BaseKeywords(rec).None?)
                    && nto.Now() == s0
  {
    ghost var found: seq<string> := [];
    assert tags[..0] == [] && before + found == before;
    for j := 0 to |tags|
      invariant found == FoundTags(tags[..j], desc)
      invariant before + found != [] ==> port.Some? && BaseKeywords(rec).Some?
      invariant nto.Now() == EmitAll(s0, WritesSoFar(port, rec, before + found))
    {
      FoundTagsPrefix(tags, j, desc);
      if IsSubstring(tags[j], desc) {
        var added := AddTag(nto, port, rec, tags[j]);
        if !added {
          FoundSome(tags, j, desc);
          return false;
        }
        WritesSoFarStep(s0, port, rec, before + found, tags[j]);
        assert (before + found) + [tags[j]] == before + (found + [tags[j]]);
        found := found + [tags[j]];
      }
    }
    assert tags[..|tags|] == tags;
    return true;
  }

  /** One entry of the neighbor table (lines 54-64). */
  method TagPort(nto: Client, name: string, nbrs: seq<Neighbor>, tags: seq<string>) returns (ok: bool)
    modifies nto
    ensures var ws := PortWrites(old(nto.dev), name, nbrs, tags);
      ok == ws.Some? && nto.Now() == (if ws.Some? then EmitAll(old(nto.Now()), ws.value) else old(nto.Now()))
  {
    var port := PortNamed(nto.dev, name);
    var rec: Props := if port.Some? then nto.dev.ports.records[port.value] else map[];
    ghost var s0 := nto.Now();
    ghost var ms: seq<string> := [];
    assert nbrs[..0] == [];
    for k := 0 to |nbrs|
      invariant ms == MatchedTags(nbrs[..k], tags)
      invariant ms != [] ==> port.Some? && BaseKeywords(rec).Some?
      invariant nto.Now() == EmitAll(s0, WritesSoFar(port, rec, ms))
    {
      MatchedTagsPrefix(nbrs, k, tags);
      ok := TagNeighbor(nto, port, rec, nbrs[k].portDescription, tags, s0, ms);
      if !ok {
        MatchedSome(nbrs, k, tags);
        return false;
      }
      ms := ms + FoundTags(tags, nbrs[k].portDescription);
    }
    assert nbrs[..|nbrs|] == nbrs;
    return true;
  }

  /** `tag_ports(host_ip, port, username, password, tags)`. */
  method TagPortsRun(nto: Client, tags: seq<string>) returns (outcome: Outcome)
    modifies nto
    ensures Run(outcome, nto.Now()) == TagPorts(old(nto.Now()), tags)
  {
    var entries := nto.dev.neighbors;
    if |entries| == 0 {
      return NoNeighbors;
    }
    ghost var goal := TagFrom(nto.Now(), entries, tags);
    var e := 0;
    while e < |entries|
      invariant 0 <= e <= |entries|
      invariant TagFrom(nto.Now(), entries[e..], tags) == goal
    {
      assert entries[e..][1..] == entries[e + 1..];
      var ok := TagPort(nto, entries[e].0, entries[e].1, tags);
      if !ok {
        return Crashed;
      }
      e := e + 1;
    }
    return Tagged;
  }

  // ---------------------------------------------------------------------------------------
  // Properties

  /** How many tags occur in a description. */
  function CountFound(tags: seq<string>, desc: string): nat {
    if tags == [] then 0 else (if IsSubstring(tags[0], desc) then 1 else 0) + CountFound(tags[1..], desc)
  }

  /** How many (neighbor, tag) pairs match. */
  function CountPairs(nbrs: seq<Neighbor>, tags: seq<string>): nat {
    if nbrs == [] then 0 else CountFound(tags, nbrs[0].portDescription) + CountPairs(nbrs[1..], tags)
  }

  lemma {:induction false} FoundTagsCount(tags: seq<string>, desc: string)
    ensures |FoundTags(tags, desc)| == CountFound(tags, desc)
    ensures forall t :: t in FoundTags(tags, desc) <==> t in tags && IsSubstring(t, desc)
    decreases |tags|
  {
    if tags != [] {
      var init := tags[..|tags| - 1];
      FoundTagsCount(init, desc);
      CountFoundSnoc(init, tags[|tags| - 1], desc);
      assert init + [tags[|tags| - 1]] == tags;
      assert forall t :: t in tags <==> t in init || t == tags[|tags| - 1];
    }
  }

  lemma {:induction false} CountFoundSnoc(tags: seq<string>, t: string, desc: string)
    ensures CountFound(tags + [t], desc) == CountFound(tags, desc) + (if IsSubstring(t, desc) then 1 else 0)
    decreases |tags|
  {
    if tags != [] {
      assert (tags + [t])[1..] == tags[1..] + [t];
      CountFoundSnoc(tags[1..], t, desc);
    }
  }

  lemma {:induction false} CountPairsSnoc(nbrs: seq<Neighbor>, n: Neighbor, tags: seq<string>)
    ensures CountPairs(nbrs + [n], tags) == CountPairs(nbrs, tags) + CountFound(tags, n.portDescription)
    decreases |nbrs|
  {
    if nbrs != [] {
      assert (nbrs + [n])[1..] == nbrs[1..] + [n];
      CountPairsSnoc(nbrs[1..], n, tags);
    }
  }

  /**
   * A port gets one write per matching (neighbor, tag) pair, and a tag is written exactly
   * when it occurs, case-sensitively, in the port description of one of the neighbors.
   */
  lemma {:induction false} OneWritePerMatchingPair(nbrs: seq<Neighbor>, tags: seq<string>)
    ensures |MatchedTags(nbrs, tags)| == CountPairs(nbrs, tags)
    ensures forall t :: t in MatchedTags(nbrs, tags)
                        <==> t in tags && exists n :: n in nbrs && IsSubstring(t, n.portDescription)
    decreases |nbrs|
  {
    if nbrs != [] {
      var init := nbrs[..|nbrs| - 1];
      var last := nbrs[|nbrs| - 1];
      OneWritePerMatchingPair(init, tags);
      FoundTagsCount(tags, last.portDescription);
      assert init + [last] == nbrs;
      CountPairsSnoc(init, last, tags);
      assert forall n :: n in nbrs <==> n in init || n == last;
    }
  }

  /**
   * Every write of a port sets its keywords to the fetched keywords (none if they were
   * null) plus one matched tag; with the device taking every port write, the port ends
   * with the fetched keywords plus the last matched tag only, even when that tag was
   * already among them.
   */
  lemma {:induction false} LastTagWins(s: State, id: Id, base: seq<Value>, ts: seq<string>)
    requires id in s.dev.ports.records && ts != []
    requires forall r: Props, p: Props :: s.dev.accepts(PortKind, r, p)
    ensures var d := EmitAll(s, KeywordWrites(id, base, ts)).dev;
      id in d.ports.records
      && HasField(d.ports.records[id], "keywords", List(base + [Str(ts[|ts| - 1])]))
    decreases |ts|
  {
    var ws := KeywordWrites(id, base, ts);
    KeywordWritesCons(id, base, ts);
    var s' := Emit(s, ws[0]);
    assert EmitAll(s, ws) == EmitAll(s', KeywordWrites(id, base, ts[1..]));
    ModifyPortEffect(s.dev, id, map["keywords" := List(base + [Str(ts[0])])]);
    assert s'.dev.accepts == s.dev.accepts;
    if |ts| > 1 {
      LastTagWins(s', id, base, ts[1..]);
      assert ts[1..][|ts[1..]| - 1] == ts[|ts| - 1];
    } else {
      assert KeywordWrites(id, base, ts[1..]) == [];
    }
  }

  /** A port's keyword writes are the first tag's write followed by the rest's. */
  lemma KeywordWritesCons(id: Id, base: seq<Value>, ts: seq<string>)
    requires ts != []
    ensures KeywordWrites(id, base, ts)
         == [Modify(PortKind, ById(id), map["keywords" := List(base + [Str(ts[0])])])] + KeywordWrites(id, base, ts[1..])
  {
  }

  /** A further matched tag adds its own write at the end. */
  lemma KeywordWritesSnoc(id: Id, base: seq<Value>, ts: seq<string>, t: string)
    ensures KeywordWrites(id, base, ts + [t])
         == KeywordWrites(id, base, ts) + [Modify(PortKind, ById(id), map["keywords" := List(base + [Str(t)])])]
  {
  }

  /** One more matched tag issues one more keyword write after those so far. */
  lemma WritesSoFarStep(s0: State, port: Option<Id>, rec: Props, ts: seq<string>, t: string)
    requires port.Some? && BaseKeywords(rec).Some?
    ensures EmitAll(s0, WritesSoFar(port, rec, ts + [t]))
         == Emit(EmitAll(s0, WritesSoFar(port, rec, ts)), TagWrite(port.value, BaseKeywords(rec).value, t))
  {
    var w := TagWrite(port.value, BaseKeywords(rec).value, t);
    KeywordWritesSnoc(port.value, BaseKeywords(rec).value, ts, t);
    assert WritesSoFar(port, rec, ts + [t]) == WritesSoFar(port, rec, ts) + [w];
    EmitAllAppend(s0, WritesSoFar(port, rec, ts), [w]);
  }

  /** Looking at one more neighbor adds the tags found in its port description. */
  lemma MatchedTagsPrefix(nbrs: seq<Neighbor>, k: int, tags: seq<string>)
    requires 0 <= k < |nbrs|
    ensures MatchedTags(nbrs[..k + 1], tags) == MatchedTags(nbrs[..k], tags) + FoundTags(tags, nbrs[k].portDescription)
  {
    assert nbrs[..k + 1][..k] == nbrs[..k];
  }

  /** A neighbor with a found tag makes the port's matched tags non-empty. */
  lemma MatchedSome(nbrs: seq<Neighbor>, k: int, tags: seq<string>)
    requires 0 <= k < |nbrs| && FoundTags(tags, nbrs[k].portDescription) != []
    ensures MatchedTags(nbrs, tags) != []
  {
    FoundTagsCount(tags, nbrs[k].portDescription);
    var t := FoundTags(tags, nbrs[k].portDescription)[0];
    OneWritePerMatchingPair(nbrs, tags);
    assert nbrs[k] in nbrs && t in MatchedTags(nbrs, tags);
  }

  /** Looking at one more tag adds it to the found tags exactly when it occurs. */
  lemma FoundTagsPrefix(tags: seq<string>, j: int, desc: string)
    requires 0 <= j < |tags|
    ensures IsSubstring(tags[j], desc) ==> FoundTags(tags[..j + 1], desc) == FoundTags(tags[..j], desc) + [tags[j]]
    ensures !IsSubstring(tags[j], desc) ==> FoundTags(tags[..j + 1], desc) == FoundTags(tags[..j], desc)
  {
    assert tags[..j + 1][..j] == tags[..j];
  }

  /** A tag found in the description makes the found tags non-empty. */
  lemma FoundSome(tags: seq<string>, j: int, desc: string)
    requires 0 <= j < |tags| && IsSubstring(tags[j], desc)
    ensures FoundTags(tags, desc) != []
  {
    FoundTagsCount(tags, desc);
    assert tags[j] in tags;
  }

  /** A port's keyword writes leave the port name index and the port table's ids as they were. */
  lemma {:induction false} KeywordWritesKeepNames(s: State, id: Id, base: seq<Value>, ts: seq<string>)
    ensures var d := EmitAll(s, KeywordWrites(id, base, ts)).dev;
      d.portNames == s.dev.portNames && d.ports.records.Keys == s.dev.ports.records.Keys
      && d.neighbors == s.dev.neighbors
    decreases |ts|
  {
    if ts != [] {
      var ws := KeywordWrites(id, base, ts);
      PortWriteFrame(s.dev, id, map["keywords" := List(base + [Str(ts[0])])]);
      assert ws[1..] == KeywordWrites(id, base, ts[1..]);
      KeywordWritesKeepNames(Emit(s, ws[0]), id, base, ts[1..]);
    }
  }

  /** A keyword-only write to the port that one of the entries names. */
  predicate NamedKeywordWrite(d: Device, entries: seq<(string, seq<Neighbor>)>, w: Write) {
    w.Modify? && w.kind == PortKind && w.target.ById? && w.props.Keys == {"keywords"}
    && exists e :: e in entries && PortNamed(d, e.0) == Some(w.target.id)
  }

  /** The writes of one entry go to the port its name resolves to, and keep the name index. */
  lemma EntryWrites(s: State, e: (string, seq<Neighbor>), entries: seq<(string, seq<Neighbor>)>, tags: seq<string>)
    requires e in entries && PortWrites(s.dev, e.0, e.1, tags).Some?
    ensures var ws := PortWrites(s.dev, e.0, e.1, tags).value;
      var d := EmitAll(s, ws).dev;
      d.portNames == s.dev.portNames && d.ports.records.Keys == s.dev.ports.records.Keys
      && forall i :: 0 <= i < |ws| ==> NamedKeywordWrite(s.dev, entries, ws[i])
  {
    var ws := PortWrites(s.dev, e.0, e.1, tags).value;
    if ws != [] {
      var id := PortNamed(s.dev, e.0).value;
      var base := BaseKeywords(s.dev.ports.records[id]).value;
      KeywordWritesKeepNames(s, id, base, MatchedTags(e.1, tags));
    }
  }

  /** Resolving a port name depends only on the name index and the port table's ids. */
  lemma SameNames(d: Device, d': Device, entries: seq<(string, seq<Neighbor>)>, w: Write)
    requires d'.portNames == d.portNames && d'.ports.records.Keys == d.ports.records.Keys
    requires NamedKeywordWrite(d', entries, w)
    ensures NamedKeywordWrite(d, entries, w)
  {
    var e :| e in entries && PortNamed(d', e.0) == Some(w.target.id);
    assert PortNamed(d, e.0) == PortNamed(d', e.0);
  }

  /**
   * Only ports the neighbor table names are written, and only their keywords: every new
   * log entry is a keyword write to the port some entry's name resolves to.
   */
  lemma {:induction false} OnlyNamedPortsWritten(s: State, entries: seq<(string, seq<Neighbor>)>, tags: seq<string>)
    ensures var r := TagFrom(s, entries, tags);
      |s.log| <= |r.state.log| && r.state.log[..|s.log|] == s.log
      && r.state.dev.portNames == s.dev.portNames && r.state.dev.ports.records.Keys == s.dev.ports.records.Keys
      && forall i :: |s.log| <= i < |r.state.log| ==> NamedKeywordWrite(s.dev, entries, r.state.log[i])
    decreases |entries|
  {
    if entries != [] {
      var e := entries[0];
      var pw := PortWrites(s.dev, e.0, e.1, tags);
      if pw.Some? {
        var ws := pw.value;
        var s' := EmitAll(s, ws);
        EmitAllLog(s, ws);
        EntryWrites(s, e, entries, tags);
        OnlyNamedPortsWritten(s', entries[1..], tags);
        var r := TagFrom(s, entries, tags);
        assert r == TagFrom(s', entries[1..], tags);
        assert r.state.log[..|s'.log|] == s'.log;
        assert r.state.log[..|s.log|] == s'.log[..|s.log|];
        forall i | |s.log| <= i < |r.state.log|
          ensures NamedKeywordWrite(s.dev, entries, r.state.log[i])
        {
          if i < |s'.log| {
            assert r.state.log[i] == s'.log[i] == ws[i - |s.log|];
          } else {
            assert NamedKeywordWrite(s'.dev, entries[1..], r.state.log[i]);
            SameNames(s.dev, s'.dev, entries[1..], r.state.log[i]);
            var e' :| e' in entries[1..] && PortNamed(s.dev, e'.0) == Some(r.state.log[i].target.id);
            assert e' in entries;
          }
        }
      }
    }
  }
}
