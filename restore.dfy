/**
 * Snapshot restore (`setConfig` in `set_nto_config_safe.py`): four passes over a parsed
 * snapshot table (icons, ports, port groups, filters). Each pass records on every object it
 * handles the id that object has on the target device (`new_id`), pushes the writable
 * properties one by one, and rewrites cross-references through those new ids.
 *
 * Python's iteration orders over the table and over the whitelist sets are unspecified;
 * they are parameters (`Orders`).
 */
module Restore {
  import opened Nto
  import opened Seqs
  import opened Text

  /** The parsed snapshot: one JSON object per stringified id. */
  type Config = map<string, Props>

  /** The port properties the restore pushes (`mode` included, `custom_icon_id` and `mod_count` not). */
  const PortProperties: set<string> := {
    "mode", "afm_pipeline_direction", "burst_buffer_settings", "connect_in_access_settings",
    "connect_out_access_settings", "copper_link_polling", "data_masking_settings", "dedup_settings",
    "description", "enabled", "erspan_strip_settings", "fabric_path_strip_settings", "filter_criteria",
    "filter_match_count_unit", "filter_mode", "filtering_direction", "force_link_up", "gtp_fd_settings",
    "gtp_strip_settings", "icon_type", "ignore_pause_frames", "is_shared", "keywords",
    "l2gre_strip_settings", "link_settings", "link_up_down_trap_enabled", "media_type",
    "modify_access_settings", "mpls_strip_settings", "name", "packet_length_trailer_settings",
    "resource_access_settings", "snmp_tag", "std_port_tagging_settings", "std_vlan_strip_settings",
    "timestamp_settings", "trailer_strip_settings", "trim_settings", "tunnel_termination_settings",
    "tx_light_status", "vntag_strip_settings", "vxlan_strip_settings"
  }

  /** The port-group properties the restore pushes (no `mode`, `port_list` or `custom_icon_id`). */
  const PortGroupProperties: set<string> := {
    "afm_pipeline_direction", "burst_buffer_settings", "data_masking_settings", "dedup_settings",
    "description", "erspan_strip_settings", "fabric_path_strip_settings", "failover_mode",
    "filter_criteria", "filter_mode", "filtering_direction", "force_link_up", "gtp_strip_settings",
    "icon_type", "interconnect_info", "is_shared", "keywords", "l2gre_strip_settings",
    "mpls_strip_settings", "name", "packet_length_trailer_settings", "snmp_tag",
    "std_vlan_strip_settings", "timestamp_settings", "trailer_strip_settings", "trim_settings",
    "tx_light_status", "vntag_strip_settings", "vxlan_strip_settings"
  }

  /** The filter properties the restore pushes (no `mode`, `criteria` or connection lists). */
  const FilterProperties: set<string> := {
    "application_forwarding_map", "connect_in_access_settings", "connect_out_access_settings",
    "description", "keywords", "match_count_unit", "modify_access_settings", "name",
    "resource_access_settings", "snmp_tag"
  }

  /** A filter's connection lists, in the order the restore rewrites them. */
  const FilterLists: seq<string> := ["dest_port_list", "source_port_list", "dest_port_group_list", "source_port_group_list"]

  /** The port-group types the restore never creates. */
  const SkippedGroupTypes: set<Value> := {Str("NETFLOW"), Str("FABRIC"), Str("INTERNAL")}

  /** Iteration orders: over the table's keys and over each whitelist. */
  datatype Orders = Orders(keys: seq<string>, ports: seq<string>, groups: seq<string>, filters: seq<string>)

  /** A sequence that lists each member of a set once. */
  ghost predicate Enumerates(xs: seq<string>, s: set<string>) {
    (forall i :: 0 <= i < |xs| ==> xs[i] in s) && multiset(xs) == multiset(s)
  }

  lemma EnumeratesMembers(xs: seq<string>, s: set<string>)
    requires Enumerates(xs, s)
    ensures forall x :: x in xs <==> x in s
  {
    forall x ensures x in xs <==> x in s {
      assert x in xs <==> x in multiset(xs);
    }
  }

  lemma EnumeratesNoDup(xs: seq<string>, s: set<string>)
    requires Enumerates(xs, s)
    ensures NoDup(xs)
  {
    forall i, j | 0 <= i < j < |xs| ensures xs[i] != xs[j] {
      if xs[i] == xs[j] {
        CountedTwice(xs, i, j);
        assert false;
      }
    }
  }

  lemma CountedTwice<T>(xs: seq<T>, i: nat, j: nat)
    requires i < j < |xs| && xs[i] == xs[j]
    ensures multiset(xs)[xs[i]] >= 2
  {
    assert xs == xs[..j] + [xs[j]] + xs[j + 1..];
    assert xs[..j][i] == xs[i];
  }

  /** Each whitelist order lists its whitelist, each property once. */
  ghost predicate ValidWhitelists(o: Orders) {
    Enumerates(o.ports, PortProperties) && Enumerates(o.groups, PortGroupProperties)
    && Enumerates(o.filters, FilterProperties)
  }

  /** The orders a Python run can take: every key of the table once, every whitelist entry once. */
  ghost predicate ValidOrders(cfg: Config, o: Orders) {
    Enumerates(o.keys, cfg.Keys) && ValidWhitelists(o)
  }

  /** How a pass or a restore ended: done, one of the handled aborts, or an exception. */
  datatype Outcome = Done | IconMissing | PortMissing | GroupNotCreated | Crashed

  datatype Run = Run(outcome: Outcome, config: Config, state: State)

  datatype Pass = Icons | Ports | PortGroups | Filters

  // ---------------------------------------------------------------------------------------
  // Reading the snapshot

  /** `str(v)` for the ids a snapshot holds: decimal for numbers, the text itself for strings. */
  function KeyOf(v: Value): Option<string> {
    match v
    case Int(i) => Some(Decimal(i))
    case Str(s) => Some(s)
    case _ => None
  }

  /** `config[str(v)]['new_id']`, or none where that raises. */
  function NewId(cfg: Config, v: Value): Option<Value> {
    match KeyOf(v)
    case None => None
    case Some(k) => if k in cfg && "new_id" in cfg[k] then Some(cfg[k]["new_id"]) else None
  }

  /** A list of old ids rewritten through the new ids, in order; none where a lookup raises. */
  function Remap(cfg: Config, xs: seq<Value>): Option<seq<Value>>
    decreases |xs|
  {
    if xs == [] then Some([])
    else match Remap(cfg, xs[..|xs| - 1])
      case None => None
      case Some(ys) =>
        match NewId(cfg, xs[|xs| - 1])
        case None => None
        case Some(y) => Some(ys + [y])
  }

  /** An object's `details`, where it is a JSON object. */
  function Details(obj: Props): Option<Props> {
    if "details" in obj && obj["details"].Obj? then Some(obj["details"].fields) else None
  }

  /** One single-property write for each listed property the details hold, in list order. */
  function Pushes(kind: Kind, target: Target, det: Props, order: seq<string>): seq<Write>
    decreases |order|
  {
    if order == [] then []
    else
      var k := order[|order| - 1];
      Pushes(kind, target, det, order[..|order| - 1])
      + (if k in det then [Modify(kind, target, map[k := det[k]])] else [])
  }

  /** An object's icon link: pushed through the new ids when `custom_icon_id` is truthy. */
  function LinkIcon(kind: Kind, target: Target, cfg: Config, s: State, det: Props): Run {
    if "custom_icon_id" !in det then Run(Crashed, cfg, s)
    else if !Truthy(det["custom_icon_id"]) then Run(Done, cfg, s)
    else match NewId(cfg, det["custom_icon_id"])
      case None => Run(Crashed, cfg, s)
      case Some(v) => Run(Done, cfg, Emit(s, Modify(kind, target, map["custom_icon_id" := v])))
  }

  // ---------------------------------------------------------------------------------------
  // The four passes (lines 146-224)

  /** Icons (lines 146-154): look each one up by name; a missing one ends the restore. */
  function IconStep(s: State, cfg: Config, k: string): (r: Run)
    requires k in cfg
    ensures r.config.Keys == cfg.Keys && r.state == s
    ensures "type" in cfg[k] && cfg[k]["type"] == Str("icon") && "name" !in cfg[k] ==> r.outcome == Crashed
    ensures r.outcome == IconMissing ==> "name" in cfg[k]
  {
    var obj := cfg[k];
    if "type" !in obj then Run(Crashed, cfg, s)
    else if obj["type"] != Str("icon") then Run(Done, cfg, s)
    else if "name" !in obj then Run(Crashed, cfg, s)
    else if obj["name"].Str? && obj["name"].s in s.dev.icons
    then Run(Done, cfg[k := obj["new_id" := Int(s.dev.icons[obj["name"].s])]], s)
    else Run(IconMissing, cfg, s)
  }

  /** The port an object's name resolves to (`getPort(obj['name'])`). */
  function PortOf(d: Device, obj: Props): Option<(string, Id)> {
    if "name" in obj && obj["name"].Str? && PortNamed(d, obj["name"].s).Some?
    then Some((obj["name"].s, PortNamed(d, obj["name"].s).value))
    else None
  }

  /** Ports (lines 157-172): skip internal ones, find the rest by name, push and link. */
  function PortStep(s: State, cfg: Config, k: string, order: seq<string>): (r: Run)
    requires k in cfg
    ensures r.config.Keys == cfg.Keys
  {
    var obj := cfg[k];
    if "type" !in obj then Run(Crashed, cfg, s)
    else if obj["type"] != Str("port") then Run(Done, cfg, s)
    else match Details(obj)
      case None => Run(Crashed, cfg, s)
      case Some(det) =>
        if "type" !in det then Run(Crashed, cfg, s)
        else if det["type"] == Str("G10_INTERNAL") then Run(Done, cfg, s)
        else if "name" !in obj then Run(Crashed, cfg, s)
        else match PortOf(s.dev, obj)
          case None => Run(PortMissing, cfg, s)
          case Some(port) =>
            var cfg' := cfg[k := obj["new_id" := Int(port.1)]];
            LinkIcon(PortKind, ByName(port.0), cfg', EmitAll(s, Pushes(PortKind, ByName(port.0), det, order)), det)
  }

  /** The payload a port group is created with: its original mode and type. */
  function GroupCreateProps(det: Props): Props
    requires "mode" in det && "type" in det
  {
    map["mode" := det["mode"], "type" := det["type"]]
  }

  /** Port groups (lines 175-194): create, push, rewrite `port_list`, link. */
  function GroupStep(s: State, cfg: Config, k: string, order: seq<string>): (r: Run)
    requires k in cfg
    ensures r.config.Keys == cfg.Keys
  {
    var obj := cfg[k];
    if "type" !in obj then Run(Crashed, cfg, s)
    else if obj["type"] != Str("port_group") then Run(Done, cfg, s)
    else match Details(obj)
      case None => Run(Crashed, cfg, s)
      case Some(det) =>
        if "type" !in det then Run(Crashed, cfg, s)
        else if det["type"] in SkippedGroupTypes then Run(Done, cfg, s)
        else if "mode" !in det then Run(Crashed, cfg, s)
        else
          var s1 := Emit(s, Create(PortGroupKind, GroupCreateProps(det)));
          match Created(s.dev, PortGroupKind, GroupCreateProps(det))
          case None => Run(GroupNotCreated, cfg, s1)
          case Some(id) => GroupFill(s1, cfg[k := obj["new_id" := Int(id)]], id, det, order)
  }

  /** A created port group (lines 185-194): push, rewrite `port_list`, link. */
  function GroupFill(s: State, cfg: Config, id: Id, det: Props, order: seq<string>): Run {
    var s1 := EmitAll(s, Pushes(PortGroupKind, ById(id), det, order));
    if "port_list" !in det || !det["port_list"].List? then Run(Crashed, cfg, s1)
    else match Remap(cfg, det["port_list"].items)
      case None => Run(Crashed, cfg, s1)
      case Some(ys) =>
        LinkIcon(PortGroupKind, ById(id), cfg,
                 Emit(s1, Modify(PortGroupKind, ById(id), map["port_list" := List(ys)])), det)
  }

  /** A filter's connection lists rewritten through the new ids, one write per list. */
  function ConnectLists(cfg: Config, s: State, id: Id, det: Props, names: seq<string>): Run
    decreases |names|
  {
    if names == [] then Run(Done, cfg, s)
    else
      var n := names[0];
      if n !in det || !det[n].List? then Run(Crashed, cfg, s)
      else match Remap(cfg, det[n].items)
        case None => Run(Crashed, cfg, s)
        case Some(ys) => ConnectLists(cfg, Emit(s, Modify(FilterKind, ById(id), map[n := List(ys)])), id, det, names[1..])
  }

  /** The payload a filter is created with: its original mode and criteria. */
  function FilterCreateProps(det: Props): Props
    requires "mode" in det && "criteria" in det
  {
    map["mode" := det["mode"], "criteria" := det["criteria"]]
  }

  /** Filters (lines 197-224): create, push, rewrite the four connection lists. */
  function FilterStep(s: State, cfg: Config, k: string, order: seq<string>): (r: Run)
    requires k in cfg
    ensures r.config.Keys == cfg.Keys
  {
    var obj := cfg[k];
    if "type" !in obj then Run(Crashed, cfg, s)
    else if obj["type"] != Str("filter") then Run(Done, cfg, s)
    else match Details(obj)
      case None => Run(Crashed, cfg, s)
      case Some(det) =>
        if "mode" !in det || "criteria" !in det then Run(Crashed, cfg, s)
        else
          var s1 := Emit(s, Create(FilterKind, FilterCreateProps(det)));
          match Created(s.dev, FilterKind, FilterCreateProps(det))
          case None => Run(Crashed, cfg, s1)
          case Some(id) => FilterFill(s1, cfg[k := obj["new_id" := Int(id)]], id, det, order)
  }

  /** A created filter (lines 212-224): push, then rewrite the four connection lists. */
  function FilterFill(s: State, cfg: Config, id: Id, det: Props, order: seq<string>): Run {
    ConnectLists(cfg, EmitAll(s, Pushes(FilterKind, ById(id), det, order)), id, det, FilterLists)
  }

  function Step(p: Pass, s: State, cfg: Config, k: string, o: Orders): (r: Run)
    requires k in cfg
    ensures r.config.Keys == cfg.Keys
  {
    match p
    case Icons => IconStep(s, cfg, k)
    case Ports => PortStep(s, cfg, k, o.ports)
    case PortGroups => GroupStep(s, cfg, k, o.groups)
    case Filters => FilterStep(s, cfg, k, o.filters)
  }

  /** One full scan of the table; the first object that does not finish ends it. */
  function RunPass(p: Pass, s: State, cfg: Config, keys: seq<string>, o: Orders): (r: Run)
    requires forall i :: 0 <= i < |keys| ==> keys[i] in cfg
    ensures r.config.Keys == cfg.Keys
    decreases |keys|
  {
    if keys == [] then Run(Done, cfg, s)
    else
      var r := Step(p, s, cfg, keys[0], o);
      if r.outcome != Done then r else RunPass(p, r.state, r.config, keys[1..], o)
  }

  /** The restore: icons, then ports, then port groups, then filters. */
  function SetConfig(s: State, cfg: Config, o: Orders): Run
    requires forall i :: 0 <= i < |o.keys| ==> o.keys[i] in cfg
  {
    var r1 := RunPass(Icons, s, cfg, o.keys, o);
    if r1.outcome != Done then r1
    else
      var r2 := RunPass(Ports, r1.state, r1.config, o.keys, o);
      if r2.outcome != Done then r2
      else
        var r3 := RunPass(PortGroups, r2.state, r2.config, o.keys, o);
        if r3.outcome != Done then r3
        else RunPass(Filters, r3.state, r3.config, o.keys, o)
  }

  // ---------------------------------------------------------------------------------------
  // The script

  /** One modify call of the right kind. */
  method Issue(nto: Client, kind: Kind, target: Target, p: Props)
    requires kind != PortKind ==> target.ById?
    modifies nto
    ensures nto.Now() == Emit(old(nto.Now()), Modify(kind, target, p))
  {
    match kind
    case PortKind => nto.ModifyPort(target, p);
    case PortGroupKind => nto.ModifyPortGroup(target.id, p);
    case FilterKind => nto.ModifyFilter(target.id, p);
  }

  method PushProperties(nto: Client, kind: Kind, target: Target, det: Props, order: seq<string>)
    requires kind != PortKind ==> target.ById?
    modifies nto
    ensures nto.Now() == EmitAll(old(nto.Now()), Pushes(kind, target, det, order))
  {
    ghost var s0 := nto.Now();
    for i := 0 to |order|
      invariant nto.Now() == EmitAll(s0, Pushes(kind, target, det, order[..i]))
    {
      assert order[..i + 1][..i] == order[..i];
      var property := order[i];
      assert Pushes(kind, target, det, order[..i + 1]) == Pushes(kind, target, det, order[..i])
        + (if property in det then [Modify(kind, target, map[property := det[property]])] else []);
      if property in det {
        ghost var w := Modify(kind, target, map[property := det[property]]);
        EmitAllAppend(s0, Pushes(kind, target, det, order[..i]), [w]);
        assert [w][1..] == [];
        Issue(nto, kind, target, map[property := det[property]]);
        assert nto.Now() == EmitAll(s0, Pushes(kind, target, det, order[..i]) + [w]);
      } else {
        assert Pushes(kind, target, det, order[..i + 1]) == Pushes(kind, target, det, order[..i]);
      }
    }
    assert order[..|order|] == order;
  }

  method RemapIds(cfg: Config, xs: seq<Value>) returns (r: Option<seq<Value>>)
    ensures r == Remap(cfg, xs)
  {
    var ys: seq<Value> := [];
    for i := 0 to |xs|
      invariant Remap(cfg, xs[..i]) == Some(ys)
    {
      assert xs[..i + 1][..i] == xs[..i];
      var y := NewId(cfg, xs[i]);
      if y.None? {
        RemapNoneStays(cfg, xs, i + 1);
        return None;
      }
      ys := ys + [y.value];
    }
    assert xs[..|xs|] == xs;
    return Some(ys);
  }

  lemma {:induction false} RemapNoneStays(cfg: Config, xs: seq<Value>, n: nat)
    requires n <= |xs| && Remap(cfg, xs[..n]).None?
    ensures Remap(cfg, xs).None?
    decreases |xs| - n
  {
    if n < |xs| {
      assert xs[..n + 1][..n] == xs[..n];
      RemapNoneStays(cfg, xs, n + 1);
    } else {
      assert xs[..n] == xs;
    }
  }

  method LinkIconOf(nto: Client, kind: Kind, target: Target, cfg: Config, det: Props) returns (outcome: Outcome)
    requires kind != PortKind ==> target.ById?
    modifies nto
    ensures Run(outcome, cfg, nto.Now()) == LinkIcon(kind, target, cfg, old(nto.Now()), det)
  {
    if "custom_icon_id" !in det {
      return Crashed;
    }
    if Truthy(det["custom_icon_id"]) {
      var v := NewId(cfg, det["custom_icon_id"]);
      if v.None? {
        return Crashed;
      }
      Issue(nto, kind, target, map["custom_icon_id" := v.value]);
    }
    return Done;
  }

  method RestoreIcon(nto: Client, cfg: Config, k: string) returns (outcome: Outcome, cfg': Config)
    requires k in cfg
    ensures Run(outcome, cfg', nto.Now()) == IconStep(nto.Now(), cfg, k)
  {
    var d := nto.dev;
    var obj := cfg[k];
    if "type" !in obj {
      return Crashed, cfg;
    }
    if obj["type"] != Str("icon") {
      return Done, cfg;
    }
    if "name" !in obj {
      return Crashed, cfg;
    }
    if obj["name"].Str? && obj["name"].s in d.icons {
      return Done, cfg[k := obj["new_id" := Int(d.icons[obj["name"].s])]];
    }
    return IconMissing, cfg;
  }

  method RestorePort(nto: Client, cfg: Config, k: string, order: seq<string>) returns (outcome: Outcome, cfg': Config)
    requires k in cfg
    modifies nto
    ensures Run(outcome, cfg', nto.Now()) == PortStep(old(nto.Now()), cfg, k, order)
  {
    var obj := cfg[k];
    cfg' := cfg;
    if "type" !in obj {
      return Crashed, cfg;
    }
    if obj["type"] != Str("port") {
      return Done, cfg;
    }
    var details := Details(obj);
    if details.None? || "type" !in details.value {
      return Crashed, cfg;
    }
    var det := details.value;
    if det["type"] == Str("G10_INTERNAL") {
      return Done, cfg;
    }
    if "name" !in obj {
      return Crashed, cfg;
    }
    var port := PortOf(nto.dev, obj);
    if port.None? {
      return PortMissing, cfg;
    }
    cfg' := cfg[k := obj["new_id" := Int(port.value.1)]];
    PushProperties(nto, PortKind, ByName(port.value.0), det, order);
    outcome := LinkIconOf(nto, PortKind, ByName(port.value.0), cfg', det);
  }

  method RestoreGroup(nto: Client, cfg: Config, k: string, order: seq<string>) returns (outcome: Outcome, cfg': Config)
    requires k in cfg
    modifies nto
    ensures Run(outcome, cfg', nto.Now()) == GroupStep(old(nto.Now()), cfg, k, order)
  {
    var obj := cfg[k];
    cfg' := cfg;
    if "type" !in obj {
      return Crashed, cfg;
    }
    if obj["type"] != Str("port_group") {
      return Done, cfg;
    }
    var details := Details(obj);
    if details.None? || "type" !in details.value {
      return Crashed, cfg;
    }
    var det := details.value;
    if det["type"] in SkippedGroupTypes {
      return Done, cfg;
    }
    if "mode" !in det {
      return Crashed, cfg;
    }
    var portGroup := nto.CreatePortGroup(GroupCreateProps(det));
    if portGroup.None? {
      return GroupNotCreated, cfg;
    }
    var id := portGroup.value;
    cfg' := cfg[k := obj["new_id" := Int(id)]];
    PushProperties(nto, PortGroupKind, ById(id), det, order);
    if "port_list" !in det || !det["port_list"].List? {
      return Crashed, cfg';
    }
    var portList := RemapIds(cfg', det["port_list"].items);
    if portList.None? {
      return Crashed, cfg';
    }
    nto.ModifyPortGroup(id, map["port_list" := List(portList.value)]);
    outcome := LinkIconOf(nto, PortGroupKind, ById(id), cfg', det);
  }

  method ConnectFilter(nto: Client, cfg: Config, id: Id, det: Props) returns (outcome: Outcome)
    modifies nto
    ensures Run(outcome, cfg, nto.Now()) == ConnectLists(cfg, old(nto.Now()), id, det, FilterLists)
  {
    ghost var goal := ConnectLists(cfg, nto.Now(), id, det, FilterLists);
    for i := 0 to |FilterLists|
      invariant ConnectLists(cfg, nto.Now(), id, det, FilterLists[i..]) == goal
    {
      assert FilterLists[i..][1..] == FilterLists[i + 1..];
      var name := FilterLists[i];
      if name !in det || !det[name].List? {
        return Crashed;
      }
      var list := RemapIds(cfg, det[name].items);
      if list.None? {
        return Crashed;
      }
      nto.ModifyFilter(id, map[name := List(list.value)]);
    }
    return Done;
  }

  method RestoreFilter(nto: Client, cfg: Config, k: string, order: seq<string>) returns (outcome: Outcome, cfg': Config)
    requires k in cfg
    modifies nto
    ensures Run(outcome, cfg', nto.Now()) == FilterStep(old(nto.Now()), cfg, k, order)
  {
    var obj := cfg[k];
    cfg' := cfg;
    if "type" !in obj {
      return Crashed, cfg;
    }
    if obj["type"] != Str("filter") {
      return Done, cfg;
    }
    var details := Details(obj);
    if details.None? || "mode" !in details.value || "criteria" !in details.value {
      return Crashed, cfg;
    }
    var det := details.value;
    var filter := nto.CreateFilter(FilterCreateProps(det));
    if filter.None? {
      return Crashed, cfg;
    }
    var id := filter.value;
    cfg' := cfg[k := obj["new_id" := Int(id)]];
    PushProperties(nto, FilterKind, ById(id), det, order);
    outcome := ConnectFilter(nto, cfg', id, det);
  }

  /** One object of a pass. */
  method RestoreObject(nto: Client, p: Pass, cfg: Config, k: string, o: Orders) returns (outcome: Outcome, cfg': Config)
    requires k in cfg
    modifies nto
    ensures Run(outcome, cfg', nto.Now()) == Step(p, old(nto.Now()), cfg, k, o)
  {
    match p {
      case Icons => outcome, cfg' := RestoreIcon(nto, cfg, k);
      case Ports => outcome, cfg' := RestorePort(nto, cfg, k, o.ports);
      case PortGroups => outcome, cfg' := RestoreGroup(nto, cfg, k, o.groups);
      case Filters => outcome, cfg' := RestoreFilter(nto, cfg, k, o.filters);
    }
  }

  /** The loop of one pass: each listed object in turn, until one does not finish. */
  method RunKeys(nto: Client, p: Pass, cfg0: Config, keys: seq<string>, o: Orders) returns (outcome: Outcome, cfg: Config)
    requires forall i :: 0 <= i < |keys| ==> keys[i] in cfg0
    modifies nto
    ensures Run(outcome, cfg, nto.Now()) == RunPass(p, old(nto.Now()), cfg0, keys, o)
  {
    cfg := cfg0;
    ghost var goal := RunPass(p, nto.Now(), cfg0, keys, o);
    for i := 0 to |keys|
      invariant cfg.Keys == cfg0.Keys
      invariant RunPass(p, nto.Now(), cfg, keys[i..], o) == goal
    {
      assert keys[i..][1..] == keys[i + 1..];
      outcome, cfg := RestoreObject(nto, p, cfg, keys[i], o);
      if outcome != Done {
        return;
      }
    }
    return Done, cfg;
  }

  /** One pass over the whole table, in the table's order. */
  method RunPassOver(nto: Client, p: Pass, cfg0: Config, o: Orders) returns (outcome: Outcome, cfg: Config)
    requires ValidOrders(cfg0, o)
    modifies nto
    ensures Run(outcome, cfg, nto.Now()) == RunPass(p, old(nto.Now()), cfg0, o.keys, o)
  {
    outcome, cfg := RunKeys(nto, p, cfg0, o.keys, o);
  }

  /** `setConfig` once the snapshot is parsed: the four passes, each ending the restore on an abort. */
  method RestoreConfig(nto: Client, cfg0: Config, o: Orders) returns (outcome: Outcome, cfg: Config)
    requires ValidOrders(cfg0, o)
    modifies nto
    ensures Run(outcome, cfg, nto.Now()) == SetConfig(old(nto.Now()), cfg0, o)
  {
    outcome, cfg := RunPassOver(nto, Icons, cfg0, o);
    if outcome != Done {
      return;
    }
    outcome, cfg := RunPassOver(nto, Ports, cfg, o);
    if outcome != Done {
      return;
    }
    outcome, cfg := RunPassOver(nto, PortGroups, cfg, o);
    if outcome != Done {
      return;
    }
    outcome, cfg := RunPassOver(nto, Filters, cfg, o);
  }

  // ---------------------------------------------------------------------------------------
  // Properties

  /** The listed properties the details hold, in list order: what the whitelist loop pushes. */
  function Present(det: Props, order: seq<string>): seq<string>
    decreases |order|
  {
    if order == [] then []
    else
      var k := order[|order| - 1];
      Present(det, order[..|order| - 1]) + (if k in det then [k] else [])
  }

  /** The whitelist loop writes exactly the present properties, one single-property write each. */
  lemma {:induction false} PushesArePresent(kind: Kind, target: Target, det: Props, order: seq<string>)
    ensures var ws := Pushes(kind, target, det, order);
      var ks := Present(det, order);
      |ws| == |ks|
      && forall i :: 0 <= i < |ws| ==> ks[i] in det && ws[i] == Modify(kind, target, map[ks[i] := det[ks[i]]])
    decreases |order|
  {
    if order != [] {
      PushesArePresent(kind, target, det, order[..|order| - 1]);
    }
  }

  /**
   * A property is pushed iff the whitelist names it and the details hold it; a whitelist
   * without repeats pushes each property once.
   */
  lemma {:induction false} PresentKeys(det: Props, order: seq<string>)
    ensures var ks := Present(det, order);
      (forall k :: k in ks <==> k in order && k in det)
      && (NoDup(order) ==> NoDup(ks))
    decreases |order|
  {
    if order != [] {
      var init := order[..|order| - 1];
      var last := order[|order| - 1];
      assert order == init + [last];
      PresentKeys(det, init);
      assert forall x :: x in order <==> x in init || x == last;
      if NoDup(order) {
        assert NoDup(init) by {
          forall i, j | 0 <= i < j < |init| ensures init[i] != init[j] {
            assert init[i] == order[i] && init[j] == order[j];
          }
        }
        assert last !in init by {
          forall i | 0 <= i < |init| ensures init[i] != last {
            assert init[i] == order[i];
          }
        }
        var ks0 := Present(det, init);
        var ks := Present(det, order);
        if last in det {
          assert ks == ks0 + [last];
          forall i, j | 0 <= i < j < |ks| ensures ks[i] != ks[j] {
            if j == |ks| - 1 {
              assert ks[i] == ks0[i] && ks0[i] in init;
            } else {
              assert ks[i] == ks0[i] && ks[j] == ks0[j];
            }
          }
        }
      }
    }
  }

  /**
   * Over an order that lists a whitelist once each, the properties pushed are exactly the
   * whitelisted ones the details hold, each once.
   */
  lemma WhitelistPushed(det: Props, order: seq<string>, whitelist: set<string>)
    requires Enumerates(order, whitelist)
    ensures var ks := Present(det, order);
      (forall k :: k in ks <==> k in whitelist && k in det) && NoDup(ks)
  {
    EnumeratesMembers(order, whitelist);
    EnumeratesNoDup(order, whitelist);
    PresentKeys(det, order);
  }

  /** Every write of a whitelist loop modifies the target, setting whitelisted properties to their captured values. */
  lemma PushesWhitelisted(kind: Kind, target: Target, det: Props, order: seq<string>, whitelist: set<string>)
    requires Enumerates(order, whitelist)
    ensures forall w :: w in Pushes(kind, target, det, order) ==>
      w.Modify? && w.kind == kind && w.target == target
      && forall k :: k in w.props ==> k in whitelist && k in det && w.props[k] == det[k]
  {
    var ws := Pushes(kind, target, det, order);
    var ks := Present(det, order);
    PushesArePresent(kind, target, det, order);
    WhitelistPushed(det, order, whitelist);
    forall w | w in ws
      ensures w.Modify? && w.kind == kind && w.target == target
        && forall k :: k in w.props ==> k in whitelist && k in det && w.props[k] == det[k]
    {
      var i :| 0 <= i < |ws| && ws[i] == w;
      assert ks[i] in ks;
    }
  }

  /** The port whitelist loop never pushes `mod_count` or `custom_icon_id`. */
  lemma PortNeverPushed(o: Orders, target: Target, det: Props)
    requires ValidWhitelists(o)
    ensures forall w :: w in Pushes(PortKind, target, det, o.ports) ==>
      "mod_count" !in w.props && "custom_icon_id" !in w.props
  {
    assert "mod_count" !in PortProperties && "custom_icon_id" !in PortProperties;
    PushesWhitelisted(PortKind, target, det, o.ports, PortProperties);
  }

  /** The port-group whitelist loop never pushes `port_list`, `mode` or `custom_icon_id`. */
  lemma GroupNeverPushed(o: Orders, target: Target, det: Props)
    requires ValidWhitelists(o)
    ensures forall w :: w in Pushes(PortGroupKind, target, det, o.groups) ==>
      "port_list" !in w.props && "mode" !in w.props && "custom_icon_id" !in w.props
  {
    assert "port_list" !in PortGroupProperties && "mode" !in PortGroupProperties
      && "custom_icon_id" !in PortGroupProperties;
    PushesWhitelisted(PortGroupKind, target, det, o.groups, PortGroupProperties);
  }

  /** The filter whitelist loop never pushes `mode`, `criteria`, `custom_icon_id` or a connection list. */
  lemma FilterNeverPushed(o: Orders, target: Target, det: Props)
    requires ValidWhitelists(o)
    ensures forall w :: w in Pushes(FilterKind, target, det, o.filters) ==>
      "mode" !in w.props && "criteria" !in w.props && "custom_icon_id" !in w.props
      && forall n :: n in FilterLists ==> n !in w.props
  {
    assert "mode" !in FilterProperties && "criteria" !in FilterProperties && "custom_icon_id" !in FilterProperties
      && forall n :: n in FilterLists ==> n !in FilterProperties;
    PushesWhitelisted(FilterKind, target, det, o.filters, FilterProperties);
  }

  /** The rewritten list is the element-wise image of the original under the new ids. */
  lemma {:induction false} RemapElementwise(cfg: Config, xs: seq<Value>)
    ensures var r := Remap(cfg, xs);
      (r.Some? <==> forall i :: 0 <= i < |xs| ==> NewId(cfg, xs[i]).Some?)
      && (r.Some? ==> |r.value| == |xs| && forall i :: 0 <= i < |xs| ==> r.value[i] == NewId(cfg, xs[i]).value)
    decreases |xs|
  {
    if xs != [] {
      var init := xs[..|xs| - 1];
      RemapElementwise(cfg, init);
      assert forall i :: 0 <= i < |init| ==> init[i] == xs[i];
    }
  }

  /**
   * An icon link is written only for a truthy `custom_icon_id`, as the new id recorded under
   * the original id's key, never the original id itself.
   */
  lemma IconLinkUsesNewId(kind: Kind, target: Target, cfg: Config, s: State, det: Props)
    ensures var r := LinkIcon(kind, target, cfg, s, det);
      r.config == cfg
      && (r.state == s
          || ("custom_icon_id" in det && Truthy(det["custom_icon_id"])
              && KeyOf(det["custom_icon_id"]).Some? && KeyOf(det["custom_icon_id"]).value in cfg
              && r.state == Emit(s, Modify(kind, target, map["custom_icon_id" :=
                   cfg[KeyOf(det["custom_icon_id"]).value]["new_id"]]))))
  {
  }

  /** From `s` to `s'` the log only grew, by modifies of one object. */
  predicate OnlyModifies(s: State, s': State, kind: Kind, target: Target) {
    |s.log| <= |s'.log| && s'.log[..|s.log|] == s.log
    && forall i :: |s.log| <= i < |s'.log| ==>
         s'.log[i].Modify? && s'.log[i].kind == kind && s'.log[i].target == target
  }

  lemma OnlyModifiesChain(s1: State, s2: State, s3: State, kind: Kind, target: Target)
    requires OnlyModifies(s1, s2, kind, target) && OnlyModifies(s2, s3, kind, target)
    ensures OnlyModifies(s1, s3, kind, target)
  {
    assert s3.log[..|s1.log|] == s3.log[..|s2.log|][..|s1.log|];
    forall i | |s1.log| <= i < |s3.log|
      ensures s3.log[i].Modify? && s3.log[i].kind == kind && s3.log[i].target == target
    {
      if i < |s2.log| {
        assert s3.log[i] == s3.log[..|s2.log|][i];
      }
    }
  }

  lemma PushesModify(s: State, kind: Kind, target: Target, det: Props, order: seq<string>)
    ensures OnlyModifies(s, EmitAll(s, Pushes(kind, target, det, order)), kind, target)
  {
    PushesArePresent(kind, target, det, order);
    EmitAllLog(s, Pushes(kind, target, det, order));
  }

  lemma LinkIconModifies(kind: Kind, target: Target, cfg: Config, s: State, det: Props)
    ensures OnlyModifies(s, LinkIcon(kind, target, cfg, s, det).state, kind, target)
    ensures LinkIcon(kind, target, cfg, s, det).config == cfg
  {
  }

  lemma {:induction false} ConnectListsModify(cfg: Config, s: State, id: Id, det: Props, names: seq<string>)
    ensures var r := ConnectLists(cfg, s, id, det, names);
      OnlyModifies(s, r.state, FilterKind, ById(id)) && r.config == cfg
    decreases |names|
  {
    if names != [] {
      var n := names[0];
      if n in det && det[n].List? && Remap(cfg, det[n].items).Some? {
        var s' := Emit(s, Modify(FilterKind, ById(id), map[n := List(Remap(cfg, det[n].items).value)]));
        ConnectListsModify(cfg, s', id, det, names[1..]);
        OnlyModifiesChain(s, s', ConnectLists(cfg, s, id, det, names).state, FilterKind, ById(id));
      }
    }
  }

  /**
   * On success the filter's four connection lists are written in order, each as the
   * element-wise rewrite of the captured list.
   */
  lemma {:induction false} ConnectListsRemapped(cfg: Config, s: State, id: Id, det: Props, names: seq<string>)
    ensures var r := ConnectLists(cfg, s, id, det, names);
      r.outcome == Done ==>
        |r.state.log| == |s.log| + |names|
        && forall j :: 0 <= j < |names| ==>
             names[j] in det && det[names[j]].List? && Remap(cfg, det[names[j]].items).Some?
             && r.state.log[|s.log| + j]
                == Modify(FilterKind, ById(id), map[names[j] := List(Remap(cfg, det[names[j]].items).value)])
    decreases |names|
  {
    if names != [] {
      var n := names[0];
      if n in det && det[n].List? && Remap(cfg, det[n].items).Some? {
        var s' := Emit(s, Modify(FilterKind, ById(id), map[n := List(Remap(cfg, det[n].items).value)]));
        ConnectListsRemapped(cfg, s', id, det, names[1..]);
        ConnectListsModify(cfg, s', id, det, names[1..]);
        var r := ConnectLists(cfg, s, id, det, names);
        if r.outcome == Done {
          assert r.state.log[..|s'.log|] == s'.log;
          assert r.state.log[|s.log|] == s'.log[|s.log|];
          forall j | 1 <= j < |names|
            ensures r.state.log[|s.log| + j]
                    == Modify(FilterKind, ById(id), map[names[j] := List(Remap(cfg, det[names[j]].items).value)])
          {
            assert names[j] == names[1..][j - 1];
          }
        }
      }
    }
  }

  /** From `s` to `s'` the log only grew, by writes to one kind of object. */
  predicate OnlyKind(s: State, s': State, kind: Kind) {
    |s.log| <= |s'.log| && s'.log[..|s.log|] == s.log
    && forall i :: |s.log| <= i < |s'.log| ==> s'.log[i].kind == kind
  }

  /**
   * A port object: internal ports and ports the device lacks are left alone (a missing one
   * aborts); anything written goes to the port found by the captured name, after its new id
   * has been recorded.
   */
  lemma PortStepEffect(s: State, cfg: Config, k: string, order: seq<string>)
    requires k in cfg
    ensures var r := PortStep(s, cfg, k, order);
      var obj := cfg[k];
      OnlyKind(s, r.state, PortKind)
      && (r.outcome == PortMissing ==> r.state == s && r.config == cfg && "name" in obj)
      && (("type" in obj && obj["type"] == Str("port") && Details(obj).Some?
           && "type" in Details(obj).value && Details(obj).value["type"] != Str("G10_INTERNAL")
           && "name" !in obj) ==> r.outcome == Crashed && r.state == s)
      && (|r.state.log| > |s.log| ==>
            "type" in obj && obj["type"] == Str("port") && Details(obj).Some?
            && "type" in Details(obj).value && Details(obj).value["type"] != Str("G10_INTERNAL")
            && PortOf(s.dev, obj).Some?
            && r.config == cfg[k := obj["new_id" := Int(PortOf(s.dev, obj).value.1)]]
            && OnlyModifies(s, r.state, PortKind, ByName(PortOf(s.dev, obj).value.0)))
  {
    var obj := cfg[k];
    if "type" in obj && obj["type"] == Str("port") && Details(obj).Some? {
      var det := Details(obj).value;
      if "type" in det && det["type"] != Str("G10_INTERNAL") && PortOf(s.dev, obj).Some? {
        var port := PortOf(s.dev, obj).value;
        var cfg' := cfg[k := obj["new_id" := Int(port.1)]];
        var s1 := EmitAll(s, Pushes(PortKind, ByName(port.0), det, order));
        PushesModify(s, PortKind, ByName(port.0), det, order);
        LinkIconModifies(PortKind, ByName(port.0), cfg', s1, det);
        OnlyModifiesChain(s, s1, PortStep(s, cfg, k, order).state, PortKind, ByName(port.0));
      }
    }
  }

  /**
   * A created port group is only modified, never re-created, and keeps the table as given;
   * when it finishes, its `port_list` was written as the captured list through the new ids.
   */
  lemma GroupFillEffect(s: State, cfg: Config, id: Id, det: Props, order: seq<string>)
    ensures var r := GroupFill(s, cfg, id, det, order);
      OnlyModifies(s, r.state, PortGroupKind, ById(id)) && r.config == cfg
      && r.outcome in {Done, Crashed}
      && (r.outcome == Done ==>
            "port_list" in det && det["port_list"].List? && Remap(cfg, det["port_list"].items).Some?
            && Modify(PortGroupKind, ById(id), map["port_list" := List(Remap(cfg, det["port_list"].items).value)])
               in r.state.log)
  {
    var r := GroupFill(s, cfg, id, det, order);
    var s1 := EmitAll(s, Pushes(PortGroupKind, ById(id), det, order));
    PushesModify(s, PortGroupKind, ById(id), det, order);
    if "port_list" in det && det["port_list"].List? && Remap(cfg, det["port_list"].items).Some? {
      var w := Modify(PortGroupKind, ById(id), map["port_list" := List(Remap(cfg, det["port_list"].items).value)]);
      var s2 := Emit(s1, w);
      assert OnlyModifies(s1, s2, PortGroupKind, ById(id));
      OnlyModifiesChain(s, s1, s2, PortGroupKind, ById(id));
      LinkIconModifies(PortGroupKind, ById(id), cfg, s2, det);
      OnlyModifiesChain(s, s2, r.state, PortGroupKind, ById(id));
      assert r.state.log[..|s2.log|] == s2.log;
      assert r.state.log[|s2.log| - 1] == w;
    }
  }

  /**
   * A port-group object: nothing is written for a skipped type; otherwise the first write
   * creates the group with its captured mode and type and every later one modifies the
   * created group. A refused create aborts after that one write; a finished group has its
   * new id recorded and its `port_list` written as the captured list through the new ids.
   */
  lemma GroupStepEffect(s: State, cfg: Config, k: string, order: seq<string>)
    requires k in cfg
    ensures var r := GroupStep(s, cfg, k, order);
      var obj := cfg[k];
      OnlyKind(s, r.state, PortGroupKind)
      && (|r.state.log| > |s.log| ==>
            "type" in obj && obj["type"] == Str("port_group") && Details(obj).Some?
            && "type" in Details(obj).value && Details(obj).value["type"] !in SkippedGroupTypes
            && "mode" in Details(obj).value
            && r.state.log[|s.log|] == Create(PortGroupKind, GroupCreateProps(Details(obj).value))
            && (r.outcome == GroupNotCreated <==> Created(s.dev, PortGroupKind, GroupCreateProps(Details(obj).value)).None?)
            && (r.outcome == GroupNotCreated ==> |r.state.log| == |s.log| + 1 && r.config == cfg)
            && (r.outcome != GroupNotCreated ==>
                  var id := Created(s.dev, PortGroupKind, GroupCreateProps(Details(obj).value)).value;
                  r.config == cfg[k := obj["new_id" := Int(id)]]
                  && OnlyModifies(Emit(s, Create(PortGroupKind, GroupCreateProps(Details(obj).value))),
                                  r.state, PortGroupKind, ById(id))))
      && (r.outcome == Done && |r.state.log| > |s.log| ==>
            var det := Details(obj).value;
            var id := Created(s.dev, PortGroupKind, GroupCreateProps(det)).value;
            "port_list" in det && det["port_list"].List? && Remap(r.config, det["port_list"].items).Some?
            && Modify(PortGroupKind, ById(id), map["port_list" := List(Remap(r.config, det["port_list"].items).value)])
               in r.state.log)
  {
    var obj := cfg[k];
    var r := GroupStep(s, cfg, k, order);
    if "type" in obj && obj["type"] == Str("port_group") && Details(obj).Some? {
      var det := Details(obj).value;
      if "type" in det && det["type"] !in SkippedGroupTypes && "mode" in det {
        var s1 := Emit(s, Create(PortGroupKind, GroupCreateProps(det)));
        var c := Created(s.dev, PortGroupKind, GroupCreateProps(det));
        if c.Some? {
          GroupFillEffect(s1, cfg[k := obj["new_id" := Int(c.value)]], c.value, det, order);
          assert r.state.log[..|s.log|] == r.state.log[..|s1.log|][..|s.log|];
          assert r.state.log[|s.log|] == r.state.log[..|s1.log|][|s.log|];
        }
      }
    }
  }

  /**
   * A created filter is only modified and keeps the table as given; when it finishes, its
   * last writes are its four connection lists, in order, each through the new ids.
   */
  lemma FilterFillEffect(s: State, cfg: Config, id: Id, det: Props, order: seq<string>)
    ensures var r := FilterFill(s, cfg, id, det, order);
      OnlyModifies(s, r.state, FilterKind, ById(id)) && r.config == cfg
      && (r.outcome == Done ==>
            |r.state.log| >= |s.log| + |FilterLists|
            && forall j :: 0 <= j < |FilterLists| ==>
                 FilterLists[j] in det && det[FilterLists[j]].List?
                 && Remap(cfg, det[FilterLists[j]].items).Some?
                 && r.state.log[|r.state.log| - |FilterLists| + j]
                    == Modify(FilterKind, ById(id), map[FilterLists[j] := List(Remap(cfg, det[FilterLists[j]].items).value)]))
  {
    var s1 := EmitAll(s, Pushes(FilterKind, ById(id), det, order));
    PushesModify(s, FilterKind, ById(id), det, order);
    ConnectListsModify(cfg, s1, id, det, FilterLists);
    ConnectListsRemapped(cfg, s1, id, det, FilterLists);
    OnlyModifiesChain(s, s1, FilterFill(s, cfg, id, det, order).state, FilterKind, ById(id));
  }

  /**
   * A filter object: the first write creates the filter with its captured mode and criteria
   * (a refused create raises) and every later one modifies the created filter; a finished
   * filter has its new id recorded and ends with its four connection lists, in order, each
   * written as the captured list through the new ids.
   */
  lemma FilterStepEffect(s: State, cfg: Config, k: string, order: seq<string>)
    requires k in cfg
    ensures var r := FilterStep(s, cfg, k, order);
      var obj := cfg[k];
      OnlyKind(s, r.state, FilterKind)
      && (|r.state.log| > |s.log| ==>
            "type" in obj && obj["type"] == Str("filter") && Details(obj).Some?
            && "mode" in Details(obj).value && "criteria" in Details(obj).value
            && r.state.log[|s.log|] == Create(FilterKind, FilterCreateProps(Details(obj).value))
            && (Created(s.dev, FilterKind, FilterCreateProps(Details(obj).value)).None? ==>
                  r.outcome == Crashed && |r.state.log| == |s.log| + 1)
            && (Created(s.dev, FilterKind, FilterCreateProps(Details(obj).value)).Some? ==>
                  var id := Created(s.dev, FilterKind, FilterCreateProps(Details(obj).value)).value;
                  r.config == cfg[k := obj["new_id" := Int(id)]]
                  && OnlyModifies(Emit(s, Create(FilterKind, FilterCreateProps(Details(obj).value))),
                                  r.state, FilterKind, ById(id))))
  {
    var obj := cfg[k];
    var r := FilterStep(s, cfg, k, order);
    if "type" in obj && obj["type"] == Str("filter") && Details(obj).Some? {
      var det := Details(obj).value;
      if "mode" in det && "criteria" in det {
        var s1 := Emit(s, Create(FilterKind, FilterCreateProps(det)));
        var c := Created(s.dev, FilterKind, FilterCreateProps(det));
        if c.Some? {
          FilterFillEffect(s1, cfg[k := obj["new_id" := Int(c.value)]], c.value, det, order);
          assert r.state.log[..|s.log|] == r.state.log[..|s1.log|][..|s.log|];
          assert r.state.log[|s.log|] == r.state.log[..|s1.log|][|s.log|];
        }
      }
    }
  }

  /**
   * A pass writes only its own kind of object (the icon pass writes nothing), and each
   * abort comes from its own pass.
   */
  lemma {:induction false} RunPassWrites(p: Pass, s: State, cfg: Config, keys: seq<string>, o: Orders)
    requires forall i :: 0 <= i < |keys| ==> keys[i] in cfg
    ensures var r := RunPass(p, s, cfg, keys, o);
      (p == Icons ==> r.state == s)
      && (p == Ports ==> OnlyKind(s, r.state, PortKind))
      && (p == PortGroups ==> OnlyKind(s, r.state, PortGroupKind))
      && (p == Filters ==> OnlyKind(s, r.state, FilterKind))
      && (r.outcome == IconMissing ==> p == Icons)
      && (r.outcome == PortMissing ==> p == Ports)
      && (r.outcome == GroupNotCreated ==> p == PortGroups)
    decreases |keys|
  {
    if keys != [] {
      var r := Step(p, s, cfg, keys[0], o);
      StepKind(p, s, cfg, keys[0], o);
      if r.outcome == Done {
        RunPassWrites(p, r.state, r.config, keys[1..], o);
        var r' := RunPass(p, r.state, r.config, keys[1..], o);
        assert RunPass(p, s, cfg, keys, o) == r';
        if p != Icons {
          OnlyKindChain(s, r.state, r'.state, PassKind(p));
        }
      }
    }
  }

  /** The kind of object a pass writes. */
  function PassKind(p: Pass): Kind
    requires p != Icons
  {
    match p
    case Ports => PortKind
    case PortGroups => PortGroupKind
    case Filters => FilterKind
  }

  /** One object of a pass: only that pass's kind is written, and only that pass's abort can occur. */
  lemma StepKind(p: Pass, s: State, cfg: Config, k: string, o: Orders)
    requires k in cfg
    ensures var r := Step(p, s, cfg, k, o);
      (p == Icons ==> r.state == s)
      && (p != Icons ==> OnlyKind(s, r.state, PassKind(p)))
      && (r.outcome == IconMissing ==> p == Icons)
      && (r.outcome == PortMissing ==> p == Ports)
      && (r.outcome == GroupNotCreated ==> p == PortGroups)
  {
    match p {
      case Icons =>
      case Ports => PortStepKind(s, cfg, k, o.ports);
      case PortGroups => GroupStepKind(s, cfg, k, o.groups);
      case Filters => FilterStepKind(s, cfg, k, o.filters);
    }
  }

  lemma PortStepKind(s: State, cfg: Config, k: string, order: seq<string>)
    requires k in cfg
    ensures var r := PortStep(s, cfg, k, order);
      OnlyKind(s, r.state, PortKind) && r.outcome != IconMissing && r.outcome != GroupNotCreated
  {
    PortStepEffect(s, cfg, k, order);
  }

  lemma GroupStepKind(s: State, cfg: Config, k: string, order: seq<string>)
    requires k in cfg
    ensures var r := GroupStep(s, cfg, k, order);
      OnlyKind(s, r.state, PortGroupKind) && r.outcome != IconMissing && r.outcome != PortMissing
  {
    GroupStepEffect(s, cfg, k, order);
  }

  lemma FilterStepKind(s: State, cfg: Config, k: string, order: seq<string>)
    requires k in cfg
    ensures var r := FilterStep(s, cfg, k, order);
      OnlyKind(s, r.state, FilterKind) && r.outcome !in {IconMissing, PortMissing, GroupNotCreated}
  {
    FilterStepEffect(s, cfg, k, order);
  }

  lemma OnlyKindChain(s1: State, s2: State, s3: State, kind: Kind)
    requires OnlyKind(s1, s2, kind) && OnlyKind(s2, s3, kind)
    ensures OnlyKind(s1, s3, kind)
  {
    assert s3.log[..|s1.log|] == s3.log[..|s2.log|][..|s1.log|];
    forall i | |s1.log| <= i < |s3.log| ensures s3.log[i].kind == kind {
      if i < |s2.log| {
        assert s3.log[i] == s3.log[..|s2.log|][i];
      }
    }
  }

  /** The order the passes write in: ports, then port groups, then filters. */
  function Rank(k: Kind): nat {
    match k
    case PortKind => 0
    case PortGroupKind => 1
    case FilterKind => 2
  }

  /** From `s` to `s'` the log only grew, by ports, then port groups, then filters. */
  predicate InPassOrder(s: State, s': State) {
    |s.log| <= |s'.log| && s'.log[..|s.log|] == s.log
    && forall i, j :: |s.log| <= i < j < |s'.log| ==> Rank(s'.log[i].kind) <= Rank(s'.log[j].kind)
  }

  lemma Layers(s: State, s2: State, s3: State, s4: State)
    requires OnlyKind(s, s2, PortKind) && OnlyKind(s2, s3, PortGroupKind) && OnlyKind(s3, s4, FilterKind)
    ensures InPassOrder(s, s4)
  {
    assert s4.log[..|s.log|] == s4.log[..|s3.log|][..|s2.log|][..|s.log|];
    forall i | |s.log| <= i < |s4.log|
      ensures Rank(s4.log[i].kind) == (if i < |s2.log| then 0 else if i < |s3.log| then 1 else 2)
    {
      if i < |s2.log| {
        assert s4.log[i] == s4.log[..|s3.log|][..|s2.log|][i];
      } else if i < |s3.log| {
        assert s4.log[i] == s4.log[..|s3.log|][i];
      }
    }
  }

  /**
   * The restore writes ports first, then port groups, then filters, and adds to the log
   * only; a missing icon ends it before any write, a missing port before any group or
   * filter write, a refused port group before any filter write.
   */
  lemma RestoreOrder(s: State, cfg: Config, o: Orders)
    requires forall i :: 0 <= i < |o.keys| ==> o.keys[i] in cfg
    ensures var r := SetConfig(s, cfg, o);
      InPassOrder(s, r.state)
      && (r.outcome == IconMissing ==> r.state == s)
      && (r.outcome == PortMissing ==> OnlyKind(s, r.state, PortKind))
      && (r.outcome == GroupNotCreated ==> forall i :: |s.log| <= i < |r.state.log| ==> r.state.log[i].kind != FilterKind)
  {
    var r1 := RunPass(Icons, s, cfg, o.keys, o);
    RunPassWrites(Icons, s, cfg, o.keys, o);
    if r1.outcome != Done {
      assert SetConfig(s, cfg, o) == r1;
      assert r1.state.log[..|s.log|] == s.log;
    } else {
      var r2 := RunPass(Ports, r1.state, r1.config, o.keys, o);
      RunPassWrites(Ports, r1.state, r1.config, o.keys, o);
      if r2.outcome != Done {
        assert SetConfig(s, cfg, o) == r2;
        Layers(s, r2.state, r2.state, r2.state);
      } else {
        AfterPorts(s, r2, o);
      }
    }
  }

  lemma AfterPorts(s: State, r2: Run, o: Orders)
    requires forall i :: 0 <= i < |o.keys| ==> o.keys[i] in r2.config
    requires OnlyKind(s, r2.state, PortKind)
    ensures var r3 := RunPass(PortGroups, r2.state, r2.config, o.keys, o);
      var r := if r3.outcome != Done then r3 else RunPass(Filters, r3.state, r3.config, o.keys, o);
      InPassOrder(s, r.state)
      && r.outcome !in {IconMissing, PortMissing}
      && (r.outcome == GroupNotCreated ==> forall i :: |s.log| <= i < |r.state.log| ==> r.state.log[i].kind != FilterKind)
  {
    var r3 := RunPass(PortGroups, r2.state, r2.config, o.keys, o);
    RunPassWrites(PortGroups, r2.state, r2.config, o.keys, o);
    if r3.outcome != Done {
      Layers(s, r2.state, r3.state, r3.state);
      forall i | |s.log| <= i < |r3.state.log| ensures r3.state.log[i].kind != FilterKind {
        if i < |r2.state.log| {
          assert r3.state.log[i] == r3.state.log[..|r2.state.log|][i];
        }
      }
    } else {
      var r4 := RunPass(Filters, r3.state, r3.config, o.keys, o);
      RunPassWrites(Filters, r3.state, r3.config, o.keys, o);
      Layers(s, r2.state, r3.state, r4.state);
    }
  }

  // ---------------------------------------------------------------------------------------
  // Every object reached

  /** The objects a pass records a new id on when it finishes them. */
  predicate Handles(p: Pass, obj: Props) {
    "type" in obj
    && match p
       case Icons => obj["type"] == Str("icon")
       case Ports =>
         obj["type"] == Str("port") && Details(obj).Some? && "type" in Details(obj).value
         && Details(obj).value["type"] != Str("G10_INTERNAL")
       case PortGroups =>
         obj["type"] == Str("port_group") && Details(obj).Some? && "type" in Details(obj).value
         && Details(obj).value["type"] !in SkippedGroupTypes
       case Filters => obj["type"] == Str("filter")
  }

  /** `obj'` is `obj`, or `obj` with its `new_id` set. */
  predicate StampOf(obj: Props, obj': Props) {
    obj' == obj || ("new_id" in obj' && obj' == obj["new_id" := obj'["new_id"]])
  }

  /** The restore changes the table only by recording new ids. */
  predicate Stamped(cfg: Config, cfg': Config) {
    cfg'.Keys == cfg.Keys && forall j :: j in cfg ==> StampOf(cfg[j], cfg'[j])
  }

  lemma StampOfChain(a: Props, b: Props, c: Props)
    requires StampOf(a, b) && StampOf(b, c)
    ensures StampOf(a, c) && ("new_id" in b ==> "new_id" in c)
    ensures forall p :: Handles(p, a) <==> Handles(p, c)
  {
    if c != a && c != b && b != a {
      assert c == a["new_id" := c["new_id"]];
    }
    assert "type" in a <==> "type" in c;
    assert "details" in a <==> "details" in c;
    assert Details(a) == Details(c);
  }

  lemma StampedChain(c1: Config, c2: Config, c3: Config)
    requires Stamped(c1, c2) && Stamped(c2, c3)
    ensures Stamped(c1, c3)
    ensures forall k :: k in c1 && "new_id" in c2[k] ==> "new_id" in c3[k]
    ensures forall p, k :: k in c1 ==> (Handles(p, c1[k]) <==> Handles(p, c3[k]))
  {
    forall k | k in c1
      ensures StampOf(c1[k], c3[k]) && ("new_id" in c2[k] ==> "new_id" in c3[k])
      ensures forall p :: Handles(p, c1[k]) <==> Handles(p, c3[k])
    {
      StampOfChain(c1[k], c2[k], c3[k]);
    }
  }

  /**
   * One object: the table changes at most by that object's `new_id`, and an object the
   * pass handles has it once the step finishes.
   */
  lemma StepStamps(p: Pass, s: State, cfg: Config, k: string, o: Orders)
    requires k in cfg
    ensures var r := Step(p, s, cfg, k, o);
      Stamped(cfg, r.config) && (forall j :: j in cfg && j != k ==> r.config[j] == cfg[j])
      && (r.outcome == Done && Handles(p, cfg[k]) ==> "new_id" in r.config[k])
  {
    StepRecords(p, s, cfg, k, o);
    var r := Step(p, s, cfg, k, o);
    forall j | j in cfg ensures StampOf(cfg[j], r.config[j]) {
      if j != k {
        assert r.config[j] == cfg[j];
      }
    }
  }

  lemma StepRecords(p: Pass, s: State, cfg: Config, k: string, o: Orders)
    requires k in cfg
    ensures var r := Step(p, s, cfg, k, o);
      r.config == cfg[k := r.config[k]] && StampOf(cfg[k], r.config[k])
      && (r.outcome == Done && Handles(p, cfg[k]) ==> "new_id" in r.config[k])
  {
    var obj := cfg[k];
    match p {
      case Icons =>
      case Ports =>
        if "type" in obj && obj["type"] == Str("port") && Details(obj).Some? && PortOf(s.dev, obj).Some? {
          var det := Details(obj).value;
          var port := PortOf(s.dev, obj).value;
          LinkIconModifies(PortKind, ByName(port.0), cfg[k := obj["new_id" := Int(port.1)]],
                           EmitAll(s, Pushes(PortKind, ByName(port.0), det, o.ports)), det);
        }
      case PortGroups =>
        if "type" in obj && obj["type"] == Str("port_group") && Details(obj).Some? {
          var det := Details(obj).value;
          if "type" in det && det["type"] !in SkippedGroupTypes && "mode" in det {
            var c := Created(s.dev, PortGroupKind, GroupCreateProps(det));
            if c.Some? {
              GroupFillEffect(Emit(s, Create(PortGroupKind, GroupCreateProps(det))),
                              cfg[k := obj["new_id" := Int(c.value)]], c.value, det, o.groups);
            }
          }
        }
      case Filters =>
        if "type" in obj && obj["type"] == Str("filter") && Details(obj).Some? {
          var det := Details(obj).value;
          if "mode" in det && "criteria" in det {
            var c := Created(s.dev, FilterKind, FilterCreateProps(det));
            if c.Some? {
              FilterFillEffect(Emit(s, Create(FilterKind, FilterCreateProps(det))),
                               cfg[k := obj["new_id" := Int(c.value)]], c.value, det, o.filters);
            }
          }
        }
    }
  }

  /**
   * A pass changes the table only by recording new ids, and a pass that finishes has
   * recorded one on every listed object it handles.
   */
  lemma {:induction false} PassStamps(p: Pass, s: State, cfg: Config, keys: seq<string>, o: Orders)
    requires forall i :: 0 <= i < |keys| ==> keys[i] in cfg
    ensures var r := RunPass(p, s, cfg, keys, o);
      Stamped(cfg, r.config)
      && (r.outcome == Done ==> forall k :: k in keys && Handles(p, cfg[k]) ==> "new_id" in r.config[k])
    decreases |keys|
  {
    var r := RunPass(p, s, cfg, keys, o);
    if keys == [] {
      assert Stamped(cfg, r.config) by {
        forall j | j in cfg ensures StampOf(cfg[j], r.config[j]) {}
      }
    } else {
      var k := keys[0];
      var r0 := Step(p, s, cfg, k, o);
      StepStamps(p, s, cfg, k, o);
      if r0.outcome != Done {
        assert r == r0;
      } else {
        var rest := RunPass(p, r0.state, r0.config, keys[1..], o);
        PassStamps(p, r0.state, r0.config, keys[1..], o);
        assert r == rest;
        StampedChain(cfg, r0.config, r.config);
        forall j | j in keys && j != k ensures j in keys[1..] {
          var i :| 0 <= i < |keys| && keys[i] == j;
          assert keys[1..][i - 1] == j;
        }
      }
    }
  }

  /** An object some pass of the restore records a new id on. */
  predicate Restorable(obj: Props) {
    Handles(Icons, obj) || Handles(Ports, obj) || Handles(PortGroups, obj) || Handles(Filters, obj)
  }

  /**
   * Over an order that lists every object once, the restore changes the table only by
   * recording new ids, and a finished restore has recorded one on every icon, every
   * non-internal port, every port group of a type it creates and every filter.
   */
  lemma RestoreStamps(s: State, cfg: Config, o: Orders)
    requires ValidOrders(cfg, o)
    ensures var r := SetConfig(s, cfg, o);
      Stamped(cfg, r.config)
      && (r.outcome == Done ==> forall k :: k in cfg && Restorable(cfg[k]) ==> "new_id" in r.config[k])
  {
    EnumeratesMembers(o.keys, cfg.Keys);
    var r1 := RunPass(Icons, s, cfg, o.keys, o);
    PassStamps(Icons, s, cfg, o.keys, o);
    if r1.outcome == Done {
      var r2 := RunPass(Ports, r1.state, r1.config, o.keys, o);
      StampsAcross(cfg, Run(Done, r1.config, r1.state), Ports, o);
      if r2.outcome == Done {
        var r3 := RunPass(PortGroups, r2.state, r2.config, o.keys, o);
        StampsAcross(cfg, Run(Done, r2.config, r2.state), PortGroups, o);
        if r3.outcome == Done {
          StampsAcross(cfg, Run(Done, r3.config, r3.state), Filters, o);
        }
      }
    }
  }

  /** A later pass keeps the ids recorded so far and records its own. */
  lemma StampsAcross(cfg: Config, r: Run, p: Pass, o: Orders)
    requires Stamped(cfg, r.config) && forall k :: k in cfg ==> k in o.keys
    requires forall i :: 0 <= i < |o.keys| ==> o.keys[i] in cfg
    ensures var r' := RunPass(p, r.state, r.config, o.keys, o);
      Stamped(cfg, r'.config)
      && (forall k :: k in cfg && "new_id" in r.config[k] ==> "new_id" in r'.config[k])
      && (r'.outcome == Done ==> forall k :: k in cfg && Handles(p, cfg[k]) ==> "new_id" in r'.config[k])
  {
    var r' := RunPass(p, r.state, r.config, o.keys, o);
    PassStamps(p, r.state, r.config, o.keys, o);
    StampedChain(cfg, r.config, r'.config);
    forall k, q | k in cfg ensures Handles(q, cfg[k]) <==> Handles(q, r.config[k]) {
      StampOfChain(cfg[k], r.config[k], r.config[k]);
    }
  }
}
