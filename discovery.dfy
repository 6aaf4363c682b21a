/**
 * Per-port discovery (`discover_ports` in `ixvision_ztp_port_discovery.py`, and the same
 * state machine as `portInventory` in `ixvision_ztp.py`): take the disabled ports in scope,
 * enable them as 10G NETWORK ports, let the links settle, turn the ones still down into
 * 1G/AUTO ports, let the links settle again, then tag the ports that came up and reset
 * the ones that did not.
 *
 * The two pauses are oracles `up1`, `up2`: whether each port's link is up after them.
 */
module Discovery {
  import opened Nto
  import opened Seqs

  /** Which of the two copies of the state machine runs; they differ in scope and tag. */
  datatype Script = PortDiscovery | PortInventory

  const TenGig := "SFP_PLUS_10G"
  const OneGig := "SFP_1G"
  const Network := "NETWORK"

  /** Whether the keyword narrows the scope: not None and not empty, or (inventory) not empty. */
  predicate Narrowed(script: Script, keyword: Option<string>) {
    match script
    case PortDiscovery => keyword.Some? && keyword.value != ""
    case PortInventory => keyword != Some("")
  }

  function KeywordValue(keyword: Option<string>): Value {
    if keyword.Some? then Str(keyword.value) else Null
  }

  /** The search for the ports in scope: disabled ports, with the keyword when it narrows. */
  function ScopeQuery(script: Script, keyword: Option<string>): Props {
    if Narrowed(script, keyword)
    then map["keywords" := List([KeywordValue(keyword)]), "enabled" := Bool(false)]
    else map["enabled" := Bool(false)]
  }

  /** The keyword the final pass gives to the ports that came up. */
  function FinalTag(script: Script): string {
    match script
    case PortDiscovery => "ZTP"
    case PortInventory => "_ZTP_LLDP"
  }

  function EnableProps(): Props { map["enabled" := Bool(true)] }
  function TenGigProps(): Props { map["media_type" := Str(TenGig), "link_settings" := Str("10G_FULL")] }
  function NetworkProps(): Props { map["mode" := Str(Network)] }
  function OneGigProps(): Props {
    map["media_type" := Str(OneGig), "link_settings" := Str("AUTO"), "mode" := Str(Network)]
  }
  function LldpProps(tag: string): Props {
    map["lldp_receive_enabled" := Bool(true), "keywords" := List([Str(tag)])]
  }
  function ResetProps(): Props {
    map["enabled" := Bool(false), "media_type" := Str(TenGig), "link_settings" := Str("10G_FULL"),
        "mode" := Str(Network)]
  }

  function PortWrite(id: Id, p: Props): Write {
    Modify(PortKind, ById(id), p)
  }

  /** One entry of the discovered-port table: the port, its ZTP result and its fetched details. */
  datatype Entry = Entry(id: Id, succeeded: bool, details: Props)

  function Ids(es: seq<Entry>): (r: seq<Id>)
    ensures |r| == |es| && forall i :: 0 <= i < |es| ==> r[i] == es[i].id
  {
    seq(|es|, i requires 0 <= i < |es| => es[i].id)
  }

  /** The outcome of one pass: where it got to, and whether it raised on the way. */
  datatype Step = Ok(state: State) | Crash(state: State)

  datatype Outcome = NoScope | Discovered | Crashed

  datatype Run = Run(outcome: Outcome, state: State)

  // ---------------------------------------------------------------------------------------
  // The scope (lines 49-56)

  /**
   * The table built from the search results: one entry per port, in first-seen order; a
   * port seen again is fetched again to the same details. None when a fetch raises.
   */
  function Inventory(d: Device, found: seq<Id>, acc: seq<Entry>): Option<seq<Entry>>
    decreases |found|
  {
    if found == [] then Some(acc)
    else
      var id := found[0];
      if id !in d.ports.records || "default_name" !in d.ports.records[id] then None
      else if id in Ids(acc) then Inventory(d, found[1..], acc)
      else Inventory(d, found[1..], acc + [Entry(id, false, d.ports.records[id])])
  }

  // ---------------------------------------------------------------------------------------
  // Pass 1 (lines 67-89)

  /** The re-read after the conversions: enable if the port now shows 10G and NETWORK. */
  function Recheck(s: State, id: Id, rec: Props): Step {
    if id !in s.dev.ports.records then Crash(s)
    else
      var cur := s.dev.ports.records[id];
      if "media_type" !in cur || (cur["media_type"] == Str(TenGig) && "mode" !in cur) then Crash(s)
      else if cur["media_type"] == Str(TenGig) && cur["mode"] == Str(Network) && "enabled" in rec
      then Ok(Emit(s, PortWrite(id, EnableProps())))
      else Ok(s)
  }

  function PassOneStep(s: State, e: Entry): Step {
    var rec := e.details;
    if "media_type" !in rec || (rec["media_type"] == Str(TenGig) && "mode" !in rec) then Crash(s)
    else if rec["media_type"] == Str(TenGig) && rec["mode"] == Str(Network) then
      Ok(if "enabled" in rec then Emit(s, PortWrite(e.id, EnableProps())) else s)
    else
      var s1 := if rec["media_type"] == Str(OneGig) then Emit(s, PortWrite(e.id, TenGigProps())) else s;
      if "mode" !in rec then Crash(s1)
      else
        var s2 := if rec["mode"] != Str(Network) then Emit(s1, PortWrite(e.id, NetworkProps())) else s1;
        Recheck(s2, e.id, rec)
  }

  function PassOne(s: State, es: seq<Entry>): Step
    decreases |es|
  {
    if es == [] then Ok(s)
    else match PassOneStep(s, es[0])
      case Crash(s') => Crash(s')
      case Ok(s') => PassOne(s', es[1..])
  }

  // ---------------------------------------------------------------------------------------
  // Status collection (lines 96-107, 123-134)

  /** `details['link_status']['link_up']`, or none where reading it raises. */
  function LinkUp(rec: Props): Option<bool> {
    if "link_status" in rec && rec["link_status"].Obj? && "link_up" in rec["link_status"].fields
    then Some(Truthy(rec["link_status"].fields["link_up"]))
    else None
  }

  function StatusEntry(d: Device, id: Id): Option<Entry> {
    if id !in d.ports.records then None
    else
      var rec := d.ports.records[id];
      if "default_name" !in rec then None
      else match LinkUp(rec)
        case None => None
        case Some(up) => Some(Entry(id, up, rec))
  }

  /** A fresh entry for each port of the table, in table order. */
  function Collect(d: Device, ids: seq<Id>): Option<seq<Entry>>
    decreases |ids|
  {
    if ids == [] then Some([])
    else match Collect(d, ids[..|ids| - 1])
      case None => None
      case Some(es) =>
        match StatusEntry(d, ids[|ids| - 1])
        case None => None
        case Some(e) => Some(es + [e])
  }

  /** A pause: links settle as the oracle says; nothing is written. */
  function Pause(s: State, up: Id -> bool): State {
    State(Settled(s.dev, up), s.log)
  }

  // ---------------------------------------------------------------------------------------
  // Pass 2 (lines 110-115) and the final pass (lines 138-149)

  function PassTwoStep(s: State, e: Entry): Step {
    var rec := e.details;
    match LinkUp(rec)
    case None => Crash(s)
    case Some(up) =>
      if up then Ok(s)
      else if "enabled" !in rec then Crash(s)
      else if !Truthy(rec["enabled"]) then Ok(s)
      else if "media_type" !in rec then Crash(s)
      else if rec["media_type"] == Str(TenGig) then Ok(Emit(s, PortWrite(e.id, OneGigProps())))
      else Ok(s)
  }

  function PassTwo(s: State, es: seq<Entry>): Step
    decreases |es|
  {
    if es == [] then Ok(s)
    else match PassTwoStep(s, es[0])
      case Crash(s') => Crash(s')
      case Ok(s') => PassTwo(s', es[1..])
  }

  function FinalStep(s: State, e: Entry, tag: string): State {
    if e.succeeded then
      (if "lldp_receive_enabled" in e.details then Emit(s, PortWrite(e.id, LldpProps(tag))) else s)
    else Emit(s, PortWrite(e.id, ResetProps()))
  }

  function FinalPass(s: State, es: seq<Entry>, tag: string): State
    decreases |es|
  {
    if es == [] then s else FinalPass(FinalStep(s, es[0], tag), es[1..], tag)
  }

  /** After pass 2: the second pause, the second collection and the final pass. */
  function Finish(s2: State, ids: seq<Id>, up2: Id -> bool, tag: string): Run {
    var p2 := Pause(s2, up2);
    match Collect(p2.dev, ids)
    case None => Run(Crashed, p2)
    case Some(es3) => Run(Discovered, FinalPass(p2, es3, tag))
  }

  /** After pass 1: the first pause, the first collection and pass 2, then the rest. */
  function Settle(s1: State, ids: seq<Id>, up1: Id -> bool, up2: Id -> bool, tag: string): Run {
    var p1 := Pause(s1, up1);
    match Collect(p1.dev, ids)
    case None => Run(Crashed, p1)
    case Some(es2) =>
      match PassTwo(p1, es2)
      case Crash(s2) => Run(Crashed, s2)
      case Ok(s2) => Finish(s2, ids, up2, tag)
  }

  /** The whole run, pass by pass. */
  function Discover(s: State, script: Script, keyword: Option<string>, up1: Id -> bool, up2: Id -> bool): Run {
    match Inventory(s.dev, Search(s.dev.ports, ScopeQuery(script, keyword)), [])
    case None => Run(Crashed, s)
    case Some(es) =>
      if es == [] then Run(NoScope, s)
      else match PassOne(s, es)
        case Crash(s1) => Run(Crashed, s1)
        case Ok(s1) => Settle(s1, Ids(es), up1, up2, FinalTag(script))
  }

  // ---------------------------------------------------------------------------------------
  // The script

  method InventoryPorts(d: Device, found: seq<Id>) returns (r: Option<seq<Entry>>)
    ensures r == Inventory(d, found, [])
  {
    var es: seq<Entry> := [];
    ghost var goal := Inventory(d, found, []);
    for i := 0 to |found|
      invariant Inventory(d, found[i..], es) == goal
    {
      assert found[i..][1..] == found[i + 1..];
      var id := found[i];
      if id !in d.ports.records || "default_name" !in d.ports.records[id] {
        return None;
      }
      if id !in Ids(es) {
        es := es + [Entry(id, false, d.ports.records[id])];
      }
    }
    return Some(es);
  }

  method CollectStatus(d: Device, ids: seq<Id>) returns (r: Option<seq<Entry>>)
    ensures r == Collect(d, ids)
  {
    var es: seq<Entry> := [];
    for i := 0 to |ids|
      invariant Collect(d, ids[..i]) == Some(es)
    {
      assert ids[..i + 1][..i] == ids[..i];
      var e := StatusEntry(d, ids[i]);
      if e.None? {
        CollectNoneStays(d, ids, i + 1);
        return None;
      }
      es := es + [e.value];
    }
    assert ids[..|ids|] == ids;
    return Some(es);
  }

  /** Once a prefix of the reads raises, the collection raises. */
  lemma {:induction false} CollectNoneStays(d: Device, ids: seq<Id>, n: nat)
    requires n <= |ids| && Collect(d, ids[..n]).None?
    ensures Collect(d, ids).None?
    decreases |ids| - n
  {
    if n < |ids| {
      assert ids[..n + 1][..n] == ids[..n];
      CollectNoneStays(d, ids, n + 1);
    } else {
      assert ids[..n] == ids;
    }
  }

  method ConvertPort(nto: Client, e: Entry) returns (ok: bool)
    modifies nto
    ensures PassOneStep(old(nto.Now()), e) == (if ok then Ok(nto.Now()) else Crash(nto.Now()))
  {
    var rec := e.details;
    if "media_type" !in rec || (rec["media_type"] == Str(TenGig) && "mode" !in rec) {
      return false;
    }
    if rec["media_type"] == Str(TenGig) && rec["mode"] == Str(Network) {
      if "enabled" in rec {
        nto.ModifyPort(ById(e.id), EnableProps());
      }
      return true;
    }
    if rec["media_type"] == Str(OneGig) {
      nto.ModifyPort(ById(e.id), TenGigProps());
    }
    if "mode" !in rec {
      return false;
    }
    if rec["mode"] != Str(Network) {
      nto.ModifyPort(ById(e.id), NetworkProps());
    }
    if e.id !in nto.dev.ports.records {
      return false;
    }
    var cur := nto.dev.ports.records[e.id];
    if "media_type" !in cur || (cur["media_type"] == Str(TenGig) && "mode" !in cur) {
      return false;
    }
    if cur["media_type"] == Str(TenGig) && cur["mode"] == Str(Network) && "enabled" in rec {
      nto.ModifyPort(ById(e.id), EnableProps());
    }
    return true;
  }

  method RunPassOne(nto: Client, es: seq<Entry>) returns (ok: bool)
    modifies nto
    ensures PassOne(old(nto.Now()), es) == (if ok then Ok(nto.Now()) else Crash(nto.Now()))
  {
    ghost var goal := PassOne(nto.Now(), es);
    for i := 0 to |es|
      invariant PassOne(nto.Now(), es[i..]) == goal
    {
      assert es[i..][1..] == es[i + 1..];
      ok := ConvertPort(nto, es[i]);
      if !ok {
        return false;
      }
    }
    return true;
  }

  method DowngradePort(nto: Client, e: Entry) returns (ok: bool)
    modifies nto
    ensures PassTwoStep(old(nto.Now()), e) == (if ok then Ok(nto.Now()) else Crash(nto.Now()))
  {
    var rec := e.details;
    var up := LinkUp(rec);
    if up.None? {
      return false;
    }
    if !up.value {
      if "enabled" !in rec {
        return false;
      }
      if Truthy(rec["enabled"]) {
        if "media_type" !in rec {
          return false;
        }
        if rec["media_type"] == Str(TenGig) {
          nto.ModifyPort(ById(e.id), OneGigProps());
        }
      }
    }
    return true;
  }

  method RunPassTwo(nto: Client, es: seq<Entry>) returns (ok: bool)
    modifies nto
    ensures PassTwo(old(nto.Now()), es) == (if ok then Ok(nto.Now()) else Crash(nto.Now()))
  {
    ghost var goal := PassTwo(nto.Now(), es);
    for i := 0 to |es|
      invariant PassTwo(nto.Now(), es[i..]) == goal
    {
      assert es[i..][1..] == es[i + 1..];
      ok := DowngradePort(nto, es[i]);
      if !ok {
        return false;
      }
    }
    return true;
  }

  method RunFinalPass(nto: Client, es: seq<Entry>, tag: string)
    modifies nto
    ensures nto.Now() == FinalPass(old(nto.Now()), es, tag)
  {
    ghost var goal := FinalPass(nto.Now(), es, tag);
    for i := 0 to |es|
      invariant FinalPass(nto.Now(), es[i..], tag) == goal
    {
      assert es[i..][1..] == es[i + 1..];
      var e := es[i];
      if e.succeeded {
        if "lldp_receive_enabled" in e.details {
          nto.ModifyPort(ById(e.id), LldpProps(tag));
        }
      } else {
        nto.ModifyPort(ById(e.id), ResetProps());
      }
    }
  }

  /** `discover_ports(host_ip, port, username, password, keyword)` / `portInventory(...)`. */
  method DiscoverPorts(nto: Client, script: Script, keyword: Option<string>, up1: Id -> bool, up2: Id -> bool)
    returns (outcome: Outcome)
    modifies nto
    ensures Run(outcome, nto.Now()) == Discover(old(nto.Now()), script, keyword, up1, up2)
  {
    var found := Search(nto.dev.ports, ScopeQuery(script, keyword));
    var scope := InventoryPorts(nto.dev, found);
    if scope.None? {
      return Crashed;
    }
    var es := scope.value;
    if |es| == 0 {
      return NoScope;
    }
    var ok := RunPassOne(nto, es);
    if !ok {
      return Crashed;
    }
    nto.Pause(up1);
    var status := CollectStatus(nto.dev, Ids(es));
    if status.None? {
      return Crashed;
    }
    ok := RunPassTwo(nto, status.value);
    if !ok {
      return Crashed;
    }
    nto.Pause(up2);
    status := CollectStatus(nto.dev, Ids(es));
    if status.None? {
      return Crashed;
    }
    RunFinalPass(nto, status.value, FinalTag(script));
    return Discovered;
  }

  // ---------------------------------------------------------------------------------------
  // Properties

  /** Table entries that hold each port's current record, before any result is known. */
  predicate Fetched(d: Device, es: seq<Entry>) {
    forall i :: 0 <= i < |es| ==>
      es[i].id in d.ports.records && es[i].details == d.ports.records[es[i].id] && !es[i].succeeded
  }

  /**
   * The table has one entry per port found, in the order first found, each fetched from the
   * device; building it raises exactly when a found port has no default name.
   */
  lemma {:induction false} InventoryIsFoundPorts(d: Device, found: seq<Id>, acc: seq<Entry>)
    requires Fetched(d, acc)
    ensures var r := Inventory(d, found, acc);
      (r.Some? <==> forall id :: id in found ==> id in d.ports.records && "default_name" in d.ports.records[id])
      && (r.Some? ==> Ids(r.value) == AppendNew(Ids(acc), found) && Fetched(d, r.value))
    decreases |found|
  {
    if found != [] {
      var id := found[0];
      assert forall x :: x in found <==> x == id || x in found[1..];
      if id in d.ports.records && "default_name" in d.ports.records[id] {
        if id in Ids(acc) {
          InventoryIsFoundPorts(d, found[1..], acc);
        } else {
          var acc' := acc + [Entry(id, false, d.ports.records[id])];
          assert Ids(acc') == Ids(acc) + [id];
          InventoryIsFoundPorts(d, found[1..], acc');
        }
      }
    }
  }

  /**
   * The scope is the disabled ports (holding the keyword when it narrows the search), each
   * once, and it holds every listed port that qualifies.
   */
  lemma ScopeIsDisabledPorts(d: Device, script: Script, keyword: Option<string>)
    ensures var q := ScopeQuery(script, keyword);
      var r := Inventory(d, Search(d.ports, q), []);
      r.Some? ==>
        var ids := Ids(r.value);
        NoDup(ids)
        && (forall i :: 0 <= i < |ids| ==>
              ids[i] in d.ports.records && r.value[i].details == d.ports.records[ids[i]]
              && HasField(r.value[i].details, "enabled", Bool(false))
              && (Narrowed(script, keyword) ==>
                    "keywords" in r.value[i].details && r.value[i].details["keywords"].List?
                    && KeywordValue(keyword) in r.value[i].details["keywords"].items))
        && (forall id :: id in d.ports.order && id in d.ports.records && Matches(d.ports.records[id], q) ==> id in ids)
  {
    var q := ScopeQuery(script, keyword);
    var found := Search(d.ports, q);
    InventoryIsFoundPorts(d, found, []);
    var r := Inventory(d, found, []);
    if r.Some? {
      var ids := Ids(r.value);
      assert Ids([]) == [];
      AppendNewNoDup([], found);
      AppendNewMembers([], found);
      forall i | 0 <= i < |ids|
        ensures HasField(r.value[i].details, "enabled", Bool(false))
        ensures Narrowed(script, keyword) ==>
                  "keywords" in r.value[i].details && r.value[i].details["keywords"].List?
                  && KeywordValue(keyword) in r.value[i].details["keywords"].items
      {
        assert ids[i] in found;
        var rec := r.value[i].details;
        assert Matches(rec, q);
        assert "enabled" in q;
        if Narrowed(script, keyword) {
          assert "keywords" in q && q["keywords"] == List([KeywordValue(keyword)]);
          assert FieldMatches("keywords", rec["keywords"], q["keywords"]);
        }
      }
      forall id | id in d.ports.order && id in d.ports.records && Matches(d.ports.records[id], q)
        ensures id in ids
      {
        SearchComplete(d.ports.records, d.ports.order, q, id);
      }
    }
  }

  /** A run ends with no scope exactly when the search finds nothing, and then writes nothing. */
  lemma NoScopeIffNothingFound(s: State, script: Script, keyword: Option<string>, up1: Id -> bool, up2: Id -> bool)
    ensures var r := Discover(s, script, keyword, up1, up2);
      (r.outcome == NoScope <==> Search(s.dev.ports, ScopeQuery(script, keyword)) == [])
      && (r.outcome == NoScope ==> r.state == s)
  {
    var found := Search(s.dev.ports, ScopeQuery(script, keyword));
    InventoryIsFoundPorts(s.dev, found, []);
    var inv := Inventory(s.dev, found, []);
    if inv.Some? && inv.value != [] && PassOne(s, inv.value).Ok? {
      SettleNeverNoScope(PassOne(s, inv.value).state, Ids(inv.value), up1, up2, FinalTag(script));
    }
    assert Ids([]) == [];
    AppendNewMembers([], found);
    if found != [] {
      assert found[0] in found;
    }
  }

  /** The passes after the first end discovered or crashed. */
  lemma SettleNeverNoScope(s1: State, ids: seq<Id>, up1: Id -> bool, up2: Id -> bool, tag: string)
    ensures Settle(s1, ids, up1, up2, tag).outcome != NoScope
  {
  }

  /** A collection reads each port once, in table order, and raises if any read raises. */
  lemma {:induction false} CollectReadsEach(d: Device, ids: seq<Id>)
    ensures var r := Collect(d, ids);
      (r.Some? <==> forall i :: 0 <= i < |ids| ==> StatusEntry(d, ids[i]).Some?)
      && (r.Some? ==> |r.value| == |ids| && forall i :: 0 <= i < |ids| ==> r.value[i] == StatusEntry(d, ids[i]).value)
    decreases |ids|
  {
    if ids != [] {
      var init := ids[..|ids| - 1];
      CollectReadsEach(d, init);
      assert forall i :: 0 <= i < |init| ==> init[i] == ids[i];
    }
  }

  /**
   * After a pause, each entry of a collection records whether the oracle brought the
   * port's link up and the port's fresh details.
   */
  lemma CollectAfterPause(d: Device, up: Id -> bool, ids: seq<Id>)
    requires forall i :: 0 <= i < |ids| ==> ids[i] in d.ports.records && "default_name" in d.ports.records[ids[i]]
    ensures var d' := Settled(d, up);
      var r := Collect(d', ids);
      r.Some? && |r.value| == |ids|
      && forall i :: 0 <= i < |ids| ==>
           r.value[i] == Entry(ids[i], up(ids[i]), d'.ports.records[ids[i]])
  {
    var d' := Settled(d, up);
    CollectReadsEach(d', ids);
    forall i | 0 <= i < |ids|
      ensures StatusEntry(d', ids[i]) == Some(Entry(ids[i], up(ids[i]), d'.ports.records[ids[i]]))
    {
      assert LinkUp(d'.ports.records[ids[i]]) == Some(up(ids[i]));
    }
  }

  /** A port pass 2 turns into a 1G/AUTO port: down, enabled and 10G. */
  predicate Downgrades(e: Entry) {
    LinkUp(e.details) == Some(false) && "enabled" in e.details && Truthy(e.details["enabled"])
    && "media_type" in e.details && e.details["media_type"] == Str(TenGig)
  }

  /** Whether pass 2 can read what it needs of an entry without raising. */
  predicate Readable(e: Entry) {
    LinkUp(e.details).Some?
    && (LinkUp(e.details) == Some(false) ==>
          "enabled" in e.details && (Truthy(e.details["enabled"]) ==> "media_type" in e.details))
  }

  function DownPorts(es: seq<Entry>): seq<Id>
    decreases |es|
  {
    if es == [] then [] else (if Downgrades(es[0]) then [es[0].id] else []) + DownPorts(es[1..])
  }

  function OneGigWrites(ids: seq<Id>): (r: seq<Write>)
    ensures |r| == |ids| && forall i :: 0 <= i < |ids| ==> r[i] == PortWrite(ids[i], OneGigProps())
  {
    seq(|ids|, i requires 0 <= i < |ids| => PortWrite(ids[i], OneGigProps()))
  }

  /**
   * Pass 2 completes exactly when every entry is readable, and then it has issued one
   * 1G/AUTO/NETWORK write to each port that is down, enabled and 10G, in table order.
   */
  lemma {:induction false} PassTwoConvertsDownPorts(s: State, es: seq<Entry>)
    ensures PassTwo(s, es).Ok? <==> forall i :: 0 <= i < |es| ==> Readable(es[i])
    ensures PassTwo(s, es).Ok? ==> PassTwo(s, es).state == EmitAll(s, OneGigWrites(DownPorts(es)))
    decreases |es|
  {
    if es != [] {
      var e := es[0];
      assert forall i :: 1 <= i < |es| ==> es[i] == es[1..][i - 1];
      match PassTwoStep(s, e)
      case Crash(_) =>
        assert !Readable(e);
      case Ok(s') =>
        PassTwoConvertsDownPorts(s', es[1..]);
        assert Readable(e);
        var rest := OneGigWrites(DownPorts(es[1..]));
        if Downgrades(e) {
          assert OneGigWrites(DownPorts(es)) == [PortWrite(e.id, OneGigProps())] + rest;
        } else {
          assert OneGigWrites(DownPorts(es)) == rest;
        }
    }
  }

  /** The firmware applies every write. */
  ghost predicate AcceptsAll(d: Device) {
    forall k: Kind, r: Props, p: Props :: d.accepts(k, r, p)
  }

  /** A record holds every property of a payload. */
  predicate Holds(rec: Props, p: Props) {
    forall k :: k in p ==> k in rec && rec[k] == p[k]
  }

  /**
   * Pass 1 on a port whose details are current and that the firmware lets convert: a 1G
   * or 10G port with a mode and an `enabled` property ends enabled, 10G and NETWORK.
   */
  lemma ConvertedPortEnabled(s: State, e: Entry)
    requires AcceptsAll(s.dev) && e.id in s.dev.ports.records && s.dev.ports.records[e.id] == e.details
    requires "media_type" in e.details && e.details["media_type"] in {Str(OneGig), Str(TenGig)}
    requires "mode" in e.details && "enabled" in e.details
    ensures var r := PassOneStep(s, e);
      r.Ok? && e.id in r.state.dev.ports.records
      && Holds(r.state.dev.ports.records[e.id], EnableProps())
      && Holds(r.state.dev.ports.records[e.id], TenGigProps() - {"link_settings"})
      && Holds(r.state.dev.ports.records[e.id], NetworkProps())
  {
    if e.details["media_type"] == Str(TenGig) && e.details["mode"] == Str(Network) {
      EnableOnly(s, e);
    } else {
      ConvertThenEnable(s, e);
    }
    var rec := PassOneStep(s, e).state.dev.ports.records[e.id];
    assert TenGigProps() - {"link_settings"} == map["media_type" := Str(TenGig)];
  }

  /** A port that ends enabled, 10G and NETWORK. */
  predicate EnabledTenGigNetwork(rec: Props) {
    HasField(rec, "enabled", Bool(true)) && HasField(rec, "media_type", Str(TenGig))
    && HasField(rec, "mode", Str(Network))
  }

  /** A 10G NETWORK port is only enabled. */
  lemma EnableOnly(s: State, e: Entry)
    requires AcceptsAll(s.dev) && e.id in s.dev.ports.records && s.dev.ports.records[e.id] == e.details
    requires HasField(e.details, "media_type", Str(TenGig)) && HasField(e.details, "mode", Str(Network))
    requires "enabled" in e.details
    ensures var r := PassOneStep(s, e);
      r.Ok? && e.id in r.state.dev.ports.records && EnabledTenGigNetwork(r.state.dev.ports.records[e.id])
  {
    AcceptedPortWrite(s, e.id, EnableProps());
  }

  /** A 1G port, or a port in another mode, is converted, re-read and then enabled. */
  lemma ConvertThenEnable(s: State, e: Entry)
    requires AcceptsAll(s.dev) && e.id in s.dev.ports.records && s.dev.ports.records[e.id] == e.details
    requires "media_type" in e.details && e.details["media_type"] in {Str(OneGig), Str(TenGig)}
    requires "mode" in e.details && "enabled" in e.details
    requires !(e.details["media_type"] == Str(TenGig) && e.details["mode"] == Str(Network))
    ensures var r := PassOneStep(s, e);
      r.Ok? && e.id in r.state.dev.ports.records && EnabledTenGigNetwork(r.state.dev.ports.records[e.id])
  {
    var rec := e.details;
    var id := e.id;
    var s1 := if rec["media_type"] == Str(OneGig) then Emit(s, PortWrite(id, TenGigProps())) else s;
    if rec["media_type"] == Str(OneGig) {
      AcceptedPortWrite(s, id, TenGigProps());
    }
    assert AcceptsAll(s1.dev) && id in s1.dev.ports.records;
    assert HasField(s1.dev.ports.records[id], "media_type", Str(TenGig)) && "mode" in s1.dev.ports.records[id];
    var s2 := if rec["mode"] != Str(Network) then Emit(s1, PortWrite(id, NetworkProps())) else s1;
    if rec["mode"] != Str(Network) {
      AcceptedPortWrite(s1, id, NetworkProps());
    }
    assert AcceptsAll(s2.dev) && id in s2.dev.ports.records;
    var cur := s2.dev.ports.records[id];
    assert HasField(cur, "media_type", Str(TenGig)) && HasField(cur, "mode", Str(Network));
    assert PassOneStep(s, e) == Recheck(s2, id, rec) == Ok(Emit(s2, PortWrite(id, EnableProps())));
    AcceptedPortWrite(s2, id, EnableProps());
  }

  /** A port write the firmware takes adds its payload to the port's record. */
  lemma AcceptedPortWrite(s: State, id: Id, p: Props)
    requires AcceptsAll(s.dev) && id in s.dev.ports.records
    ensures var d := Emit(s, PortWrite(id, p)).dev;
      AcceptsAll(d) && id in d.ports.records && d.ports.records[id] == s.dev.ports.records[id] + p
  {
    assert s.dev.accepts(PortKind, s.dev.ports.records[id], p);
    ModifyPortEffect(s.dev, id, p);
    PortWriteFrame(s.dev, id, p);
  }

  /** The final pass writes each port at most once, so the next writes keep what one set. */
  lemma {:induction false} FinalPassKeeps(s: State, es: seq<Entry>, tag: string, id: Id)
    requires id in s.dev.ports.records && id !in Ids(es)
    ensures var d := FinalPass(s, es, tag).dev;
      id in d.ports.records && d.ports.records[id] == s.dev.ports.records[id] && d.accepts == s.dev.accepts
    decreases |es|
  {
    if es != [] {
      var e := es[0];
      var p := if e.succeeded then LldpProps(tag) else ResetProps();
      PortWriteFrame(s.dev, e.id, p);
      assert Ids(es[1..]) == Ids(es)[1..];
      FinalPassKeeps(FinalStep(s, e, tag), es[1..], tag, id);
    }
  }

  /**
   * With a firmware that applies every write, the final pass leaves each port that came
   * up and can receive LLDP with LLDP enabled and exactly the tag as keywords, and each
   * port that stayed down disabled, 10G/10G_FULL and NETWORK.
   */
  lemma {:induction false} FinalPortStates(s: State, es: seq<Entry>, tag: string)
    requires AcceptsAll(s.dev) && NoDup(Ids(es))
    requires forall i :: 0 <= i < |es| ==> es[i].id in s.dev.ports.records
    ensures var d := FinalPass(s, es, tag).dev;
      forall i :: 0 <= i < |es| ==>
        es[i].id in d.ports.records
        && (es[i].succeeded && "lldp_receive_enabled" in es[i].details ==> Holds(d.ports.records[es[i].id], LldpProps(tag)))
        && (!es[i].succeeded ==> Holds(d.ports.records[es[i].id], ResetProps()))
    decreases |es|
  {
    if es != [] {
      var e := es[0];
      var s' := FinalStep(s, e, tag);
      var p := if e.succeeded then LldpProps(tag) else ResetProps();
      PortWriteFrame(s.dev, e.id, p);
      if !e.succeeded || "lldp_receive_enabled" in e.details {
        ModifyPortEffect(s.dev, e.id, p);
      }
      assert s'.dev.accepts == s.dev.accepts;
      assert Ids(es[1..]) == Ids(es)[1..];
      assert e.id !in Ids(es[1..]) by {
        forall j | 0 <= j < |es[1..]| ensures Ids(es[1..])[j] != e.id {
          assert Ids(es)[0] != Ids(es)[j + 1];
        }
      }
      FinalPassKeeps(s', es[1..], tag, e.id);
      FinalPortStates(s', es[1..], tag);
      forall i | 1 <= i < |es| ensures es[i] == es[1..][i - 1] { }
    }
  }

  /** From `s` to `s'` the log only grew, by port modifies of the given ports. */
  predicate OnlyWrites(s: State, s': State, ids: seq<Id>) {
    |s.log| <= |s'.log| && s'.log[..|s.log|] == s.log
    && forall i :: |s.log| <= i < |s'.log| ==>
         s'.log[i].Modify? && s'.log[i].kind == PortKind && s'.log[i].target.ById? && s'.log[i].target.id in ids
  }

  lemma OnlyWritesChain(s1: State, s2: State, s3: State, a: seq<Id>, b: seq<Id>, c: seq<Id>)
    requires OnlyWrites(s1, s2, a) && OnlyWrites(s2, s3, b)
    requires forall x :: x in a ==> x in c
    requires forall x :: x in b ==> x in c
    ensures OnlyWrites(s1, s3, c)
  {
    assert s3.log[..|s1.log|] == s3.log[..|s2.log|][..|s1.log|];
    forall i | |s1.log| <= i < |s3.log|
      ensures s3.log[i].Modify? && s3.log[i].kind == PortKind && s3.log[i].target.ById? && s3.log[i].target.id in c
    {
      if i < |s2.log| {
        assert s3.log[i] == s3.log[..|s2.log|][i] == s2.log[i];
      }
    }
  }

  lemma EmitWrites(s: State, id: Id, p: Props)
    ensures OnlyWrites(s, Emit(s, PortWrite(id, p)), [id])
  {
  }

  lemma PassOneStepWrites(s: State, e: Entry)
    ensures OnlyWrites(s, PassOneStep(s, e).state, [e.id])
  {
    var rec := e.details;
    var id := e.id;
    if "media_type" !in rec || (rec["media_type"] == Str(TenGig) && "mode" !in rec) {
    } else if rec["media_type"] == Str(TenGig) && rec["mode"] == Str(Network) {
      EmitWrites(s, id, EnableProps());
    } else {
      var s1 := if rec["media_type"] == Str(OneGig) then Emit(s, PortWrite(id, TenGigProps())) else s;
      EmitWrites(s, id, TenGigProps());
      assert OnlyWrites(s, s1, [id]);
      if "mode" in rec {
        var s2 := if rec["mode"] != Str(Network) then Emit(s1, PortWrite(id, NetworkProps())) else s1;
        EmitWrites(s1, id, NetworkProps());
        assert OnlyWrites(s1, s2, [id]);
        EmitWrites(s2, id, EnableProps());
        assert OnlyWrites(s2, Recheck(s2, id, rec).state, [id]);
        OnlyWritesChain(s1, s2, Recheck(s2, id, rec).state, [id], [id], [id]);
        OnlyWritesChain(s, s1, Recheck(s2, id, rec).state, [id], [id], [id]);
      }
    }
  }

  lemma {:induction false} PassOneWritesScope(s: State, es: seq<Entry>)
    ensures OnlyWrites(s, PassOne(s, es).state, Ids(es))
    decreases |es|
  {
    if es != [] {
      var step := PassOneStep(s, es[0]);
      PassOneStepWrites(s, es[0]);
      if step.Ok? {
        PassOneWritesScope(step.state, es[1..]);
        OnlyWritesChain(s, step.state, PassOne(s, es).state, [es[0].id], Ids(es[1..]), Ids(es));
      } else {
        OnlyWritesChain(s, step.state, step.state, [es[0].id], [], Ids(es));
      }
    }
  }

  lemma {:induction false} PassTwoWritesScope(s: State, es: seq<Entry>)
    ensures OnlyWrites(s, PassTwo(s, es).state, Ids(es))
    decreases |es|
  {
    if es != [] {
      var step := PassTwoStep(s, es[0]);
      EmitWrites(s, es[0].id, OneGigProps());
      assert OnlyWrites(s, step.state, [es[0].id]);
      if step.Ok? {
        PassTwoWritesScope(step.state, es[1..]);
        OnlyWritesChain(s, step.state, PassTwo(s, es).state, [es[0].id], Ids(es[1..]), Ids(es));
      } else {
        OnlyWritesChain(s, step.state, step.state, [es[0].id], [], Ids(es));
      }
    }
  }

  lemma {:induction false} FinalPassWritesScope(s: State, es: seq<Entry>, tag: string)
    ensures OnlyWrites(s, FinalPass(s, es, tag), Ids(es))
    decreases |es|
  {
    if es != [] {
      var s' := FinalStep(s, es[0], tag);
      EmitWrites(s, es[0].id, LldpProps(tag));
      EmitWrites(s, es[0].id, ResetProps());
      assert OnlyWrites(s, s', [es[0].id]);
      FinalPassWritesScope(s', es[1..], tag);
      OnlyWritesChain(s, s', FinalPass(s, es, tag), [es[0].id], Ids(es[1..]), Ids(es));
    }
  }

  lemma FinishWritesScope(s2: State, ids: seq<Id>, up2: Id -> bool, tag: string)
    ensures OnlyWrites(s2, Finish(s2, ids, up2, tag).state, ids)
  {
    var p2 := Pause(s2, up2);
    CollectReadsEach(p2.dev, ids);
    match Collect(p2.dev, ids)
    case None =>
    case Some(es3) =>
      assert Ids(es3) == ids;
      FinalPassWritesScope(p2, es3, tag);
  }

  lemma SettleWritesScope(s1: State, ids: seq<Id>, up1: Id -> bool, up2: Id -> bool, tag: string)
    ensures OnlyWrites(s1, Settle(s1, ids, up1, up2, tag).state, ids)
  {
    var p1 := Pause(s1, up1);
    CollectReadsEach(p1.dev, ids);
    match Collect(p1.dev, ids)
    case None =>
    case Some(es2) =>
      assert Ids(es2) == ids;
      PassTwoWritesScope(p1, es2);
      match PassTwo(p1, es2)
      case Crash(s2) =>
      case Ok(s2) =>
        FinishWritesScope(s2, ids, up2, tag);
        OnlyWritesChain(p1, s2, Finish(s2, ids, up2, tag).state, ids, ids, ids);
  }

  /**
   * A run writes nothing but port properties, and only of ports the scope search found,
   * whatever the links do.
   */
  lemma OnlyScopeWritten(s: State, script: Script, keyword: Option<string>, up1: Id -> bool, up2: Id -> bool)
    ensures OnlyWrites(s, Discover(s, script, keyword, up1, up2).state, Search(s.dev.ports, ScopeQuery(script, keyword)))
  {
    var found := Search(s.dev.ports, ScopeQuery(script, keyword));
    InventoryIsFoundPorts(s.dev, found, []);
    assert Ids([]) == [];
    AppendNewMembers([], found);
    match Inventory(s.dev, found, [])
    case None =>
    case Some(es) =>
      if es != [] {
        var ids := Ids(es);
        PassOneWritesScope(s, es);
        match PassOne(s, es)
        case Crash(s1) =>
          OnlyWritesChain(s, s1, s1, ids, [], found);
        case Ok(s1) =>
          var tag := FinalTag(script);
          SettleWritesScope(s1, ids, up1, up2, tag);
          OnlyWritesChain(s, s1, Settle(s1, ids, up1, up2, tag).state, ids, ids, found);
      }
  }
}
