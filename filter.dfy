/**
 * `form_dynamic_filter` (`ixvision_ztp_filter.py`): find or create the named dynamic
 * filter, bring its mode and criteria up to date, then connect it either to the named
 * network and tool port groups or, in tag mode, to the ports tagged with those names.
 */
module DynamicFilter {
  import opened Nto
  import opened Seqs
  import NtoLib

  /** `df_modes_supported`: the CLI's filter mode keys and the device's mode names. */
  const DfModes: map<string, string> :=
    map["all" := "PASS_ALL", "none" := "DISABLE", "pbc" := "PASS_BY_CRITERIA",
        "dbc" := "DENY_BY_CRITERIA", "pbcu" := "PBC_UNMATCHED", "dbcm" := "DBC_MATCHED"]

  /** `df_criteria_required`: the two criteria-driven modes need criteria. */
  function CriteriaRequired(key: string): (r: bool)
    ensures r <==> key == "pbc" || key == "dbc"
  {
    key in DfModes && (key == "pbc" || key == "dbc")
  }

  /** The filter mode for a key; an unknown key gives `DISABLE`. */
  function ModeValue(key: string): (r: string)
    ensures r in DfModes.Values
    ensures key !in DfModes ==> r == "DISABLE"
  {
    if key in DfModes then DfModes[key] else assert DfModes["none"] == "DISABLE"; "DISABLE"
  }

  /** A dict with at least one entry. */
  predicate NonEmptyDict(v: Value) {
    v.Obj? && v.fields != map[]
  }

  /** The keyword every object the ZTP scripts create carries. */
  const ZtpKeyword: string := "_ZTP_LLDP"

  /** The payload of `createFilter`: criteria only when they are a non-empty dict. */
  function NewFilterProps(name: string, key: string, criteria: Value): Props {
    var p := map["name" := Str(name), "keywords" := List([Str(ZtpKeyword)]), "mode" := Str(ModeValue(key))];
    if NonEmptyDict(criteria) then p["criteria" := criteria] else p
  }

  /** An empty list or string: `dict.update` accepts it and adds nothing. */
  predicate EmptyIterable(v: Value) {
    v == List([]) || v == Str("")
  }

  /**
   * The update an existing filter gets: its new mode if it differs, and the merged criteria
   * (supplied entries overwritten by existing ones) if they differ. Existing criteria that
   * are an empty list or string add nothing, so the supplied dict differs from them and is
   * the update; none when supplied criteria meet existing criteria of another kind (the
   * merge raises).
   */
  function UpdateParams(rec: Props, key: string, criteria: Value): Option<Props>
    requires "mode" in rec
  {
    var p := if Str(ModeValue(key)) != rec["mode"] then map["mode" := Str(ModeValue(key))] else map[];
    if NonEmptyDict(criteria) then
      if "criteria" in rec && rec["criteria"].Obj? then
        var merged := Obj(criteria.fields + rec["criteria"].fields);
        Some(if merged != rec["criteria"] then p["criteria" := merged] else p)
      else if "criteria" in rec && EmptyIterable(rec["criteria"]) then Some(p["criteria" := criteria])
      else None
    else Some(p)
  }

  /** How a run ends. */
  datatype Outcome =
    | CriteriaMissing   // the mode needs criteria and none were given
    | CreateFailed      // no filter of that name and the device refused the new one
    | Ambiguous         // several filters have that name
    | Connected         // the port group connections were written
    | Tagged            // both tag-mode connection steps ran
    | Crashed           // a property that is missing or of the wrong type was used

  /**
   * After the filter lookup: either the run has ended, or it goes on with the filter, the
   * parameters accumulated so far and the filter's current group connections.
   */
  datatype Phase =
    | Stop(outcome: Outcome, state: State)
    | Proceed(state: State, df: Id, params: Props, sources: Value, dests: Value)

  function NameQuery(name: string): Props {
    map["name" := Str(name)]
  }

  function FindOrCreate(s: State, name: string, key: string, criteria: Value): Phase {
    if CriteriaRequired(key) && !NonEmptyDict(criteria) then Stop(CriteriaMissing, s)
    else
      var found := Search(s.dev.filters, NameQuery(name));
      if |found| == 0 then NewFilter(s, name, key, criteria)
      else if |found| == 1 then ExistingFilter(s, found[0], key, criteria)
      else Stop(if AllNamed(s.dev.filters.records, found) then Ambiguous else Crashed, s)
  }

  /** No filter has the name: one is created. */
  function NewFilter(s: State, name: string, key: string, criteria: Value): Phase {
    var p := NewFilterProps(name, key, criteria);
    match Created(s.dev, FilterKind, p)
    case None => Stop(CreateFailed, Emit(s, Create(FilterKind, p)))
    case Some(id) => Proceed(Emit(s, Create(FilterKind, p)), id, p, List([]), List([]))
  }

  /** One filter has the name: its mode and criteria are brought up to date. */
  function ExistingFilter(s: State, id: Id, key: string, criteria: Value): Phase
    requires id in s.dev.filters.records
  {
    var rec := s.dev.filters.records[id];
    if !("source_port_group_list" in rec && "dest_port_group_list" in rec
         && "default_name" in rec && "mode" in rec) then Stop(Crashed, s)
    else match UpdateParams(rec, key, criteria)
      case None => Stop(Crashed, s)
      case Some(p) =>
        Proceed(if p != map[] then Emit(s, Modify(FilterKind, ById(id), p)) else s,
                id, p, rec["source_port_group_list"], rec["dest_port_group_list"])
  }

  /** Whether each of the records has a `default_name` (the listing of duplicates prints it). */
  predicate AllNamed(recs: map<Id, Props>, ids: seq<Id>) {
    forall i :: 0 <= i < |ids| ==> ids[i] in recs && "default_name" in recs[ids[i]]
  }

  /** Whether a port group has members (`port_list` is a non-empty list). */
  predicate HasMembers(d: Device, id: Id) {
    id in d.groups.records && "port_list" in d.groups.records[id]
    && d.groups.records[id]["port_list"].List? && d.groups.records[id]["port_list"].items != []
  }

  /** `remove_empty_port_groups_from_id_list`, as a specification. */
  function NonEmptyGroups(d: Device, ids: seq<Id>): seq<Id> {
    if ids == [] then []
    else (if HasMembers(d, ids[0]) then [ids[0]] else []) + NonEmptyGroups(d, ids[1..])
  }

  /** The result of a whole run: how it ended and the state it left. */
  datatype Run = Run(outcome: Outcome, state: State)

  /** The connection lists: the current ones extended, without de-duplication. */
  function ConnectGroups(s: State, df: Id, params: Props, sources: Value, dests: Value,
                         input: string, output: string): Run {
    var srcIds := NonEmptyGroups(s.dev, Search(s.dev.groups, NameQuery(input)));
    var dstIds := NonEmptyGroups(s.dev, Search(s.dev.groups, NameQuery(output)));
    if !sources.List? || !dests.List? then Run(Crashed, s)
    else
      Run(Connected, Emit(s, Modify(FilterKind, ById(df),
        params + map["source_port_group_list" := List(sources.items + IdValues(srcIds)),
                     "dest_port_group_list" := List(dests.items + IdValues(dstIds))])))
  }

  /** Tag mode: the input side, then the output side, through `df_connect_via_tags`. */
  function ConnectTags(s: State, df: Id, input: string, output: string): Run {
    var p1 := NtoLib.ConnectPlan(s.dev, df, [input], "input");
    var s1 := EmitAll(s, p1.writes);
    if p1.outcome == NtoLib.Crashed then Run(Crashed, s1)
    else
      var p2 := NtoLib.ConnectPlan(s1.dev, df, [output], "output");
      Run(if p2.outcome == NtoLib.Crashed then Crashed else Tagged, EmitAll(s1, p2.writes))
  }

  function Form(s: State, name: string, input: string, output: string, key: string,
                criteria: Value, useTagMode: bool): Run {
    match FindOrCreate(s, name, key, criteria)
    case Stop(o, s') => Run(o, s')
    case Proceed(s', df, params, sources, dests) =>
      if !useTagMode then ConnectGroups(s', df, params, sources, dests, input, output)
      else ConnectTags(s', df, input, output)
  }

  // ---------------------------------------------------------------------------------------
  // The script

  /** `search_port_group_id_list` for a name query. */
  method SearchPortGroupIds(d: Device, name: string) returns (ids: seq<Id>)
    ensures ids == Search(d.groups, NameQuery(name))
  {
    var found := Search(d.groups, NameQuery(name));
    ids := [];
    for i := 0 to |found|
      invariant ids == found[..i]
    {
      assert found[..i + 1] == found[..i] + [found[i]];
      ids := ids + [found[i]];
    }
    assert found[..|found|] == found;
  }

  /** `remove_empty_port_groups_from_id_list`. */
  method RemoveEmptyPortGroups(d: Device, ids: seq<Id>) returns (kept: seq<Id>)
    ensures kept == NonEmptyGroups(d, ids)
  {
    kept := [];
    var i := 0;
    while i < |ids|
      invariant 0 <= i <= |ids|
      invariant kept + NonEmptyGroups(d, ids[i..]) == NonEmptyGroups(d, ids)
    {
      assert ids[i..][1..] == ids[i + 1..];
      var id := ids[i];
      if id in d.groups.records && "port_list" in d.groups.records[id]
         && d.groups.records[id]["port_list"].List? && |d.groups.records[id]["port_list"].items| > 0 {
        kept := kept + [id];
      }
      i := i + 1;
    }
  }

  /**
   * The update of an existing filter (lines 91-102): the parameters, and whether the
   * filter needs updating, which is exactly when some parameter was set.
   */
  method ExistingUpdate(details: Props, key: string, criteria: Value) returns (r: Option<Props>, needsUpdating: bool)
    requires "mode" in details
    ensures r == UpdateParams(details, key, criteria)
    ensures r.Some? ==> (needsUpdating <==> r.value != map[])
  {
    var modeValue := "DISABLE";
    if key in DfModes {
      modeValue := DfModes[key];
    }
    var params: Props := map[];
    needsUpdating := false;
    if Str(modeValue) != details["mode"] {
      params := params["mode" := Str(modeValue)];
      needsUpdating := true;
    }
    if criteria.Obj? && |criteria.fields| > 0 {
      if !("criteria" in details && (details["criteria"].Obj? || EmptyIterable(details["criteria"]))) {
        return None, needsUpdating;
      }
      var merged := criteria;
      if details["criteria"].Obj? {
        merged := Obj(criteria.fields + details["criteria"].fields);
      }
      if merged != details["criteria"] {
        params := params["criteria" := merged];
        needsUpdating := true;
      }
    }
    if needsUpdating {
      assert "mode" in params || "criteria" in params;
    }
    return Some(params), needsUpdating;
  }

  /** The listing of several filters with the name (lines 108-113): false if one lacks a name. */
  method ListDuplicates(recs: map<Id, Props>, found: seq<Id>) returns (allNamed: bool)
    requires forall i :: 0 <= i < |found| ==> found[i] in recs
    ensures allNamed == AllNamed(recs, found)
  {
    var k := 0;
    while k < |found|
      invariant 0 <= k <= |found|
      invariant AllNamed(recs, found[..k])
    {
      assert found[..k + 1] == found[..k] + [found[k]];
      if "default_name" !in recs[found[k]] {
        return false;
      }
      k := k + 1;
    }
    assert found[..k] == found;
    return true;
  }

  /** The creation of a filter no other has the name of (lines 70-81). */
  method CreateFilter(nto: Client, name: string, key: string, modeValue: string, criteria: Value)
    returns (stop: Option<Outcome>, df: Id, params: Props)
    requires modeValue == ModeValue(key)
    modifies nto
    ensures var p := NewFilter(old(nto.Now()), name, key, criteria);
      nto.Now() == p.state
      && (p.Stop? ==> stop == Some(p.outcome))
      && (p.Proceed? ==> stop == None && df == p.df && params == p.params)
  {
    df := 0;
    params := map["name" := Str(name), "keywords" := List([Str(ZtpKeyword)]), "mode" := Str(modeValue)];
    if criteria.Obj? && |criteria.fields| > 0 {
      params := params["criteria" := criteria];
    }
    var created := nto.CreateFilter(params);
    if created.None? {
      return Some(CreateFailed), df, params;
    }
    return None, created.value, params;
  }

  /** The update of the one filter that has the name (lines 82-103). */
  method UpdateFilter(nto: Client, df: Id, key: string, criteria: Value)
    returns (stop: Option<Outcome>, params: Props, sources: Value, dests: Value)
    requires df in nto.dev.filters.records
    modifies nto
    ensures var p := ExistingFilter(old(nto.Now()), df, key, criteria);
      nto.Now() == p.state
      && (p.Stop? ==> stop == Some(p.outcome))
      && (p.Proceed? ==> stop == None && params == p.params
                         && sources == p.sources && dests == p.dests)
  {
    params, sources, dests := map[], List([]), List([]);
    var details := nto.dev.filters.records[df];
    if !("source_port_group_list" in details && "dest_port_group_list" in details
         && "default_name" in details && "mode" in details) {
      return Some(Crashed), params, sources, dests;
    }
    sources, dests := details["source_port_group_list"], details["dest_port_group_list"];
    var update, needsUpdating := ExistingUpdate(details, key, criteria);
    if update.None? {
      return Some(Crashed), params, sources, dests;
    }
    params := update.value;
    if needsUpdating {
      nto.ModifyFilter(df, params);
    }
    return None, params, sources, dests;
  }

  /** The filter lookup, create and update (lines 54-114). */
  method FindOrCreateFilter(nto: Client, name: string, key: string, criteria: Value)
    returns (stop: Option<Outcome>, df: Id, params: Props, sources: Value, dests: Value)
    modifies nto
    ensures var p := FindOrCreate(old(nto.Now()), name, key, criteria);
      nto.Now() == p.state
      && (p.Stop? ==> stop == Some(p.outcome))
      && (p.Proceed? ==> stop == None && df == p.df && params == p.params
                         && sources == p.sources && dests == p.dests)
  {
    params, df, sources, dests := map[], 0, List([]), List([]);
    var modeValue := "DISABLE";
    if key in DfModes {
      modeValue := DfModes[key];
    }
    if CriteriaRequired(key) && ((criteria.Obj? && |criteria.fields| == 0) || !criteria.Obj?) {
      return Some(CriteriaMissing), df, params, sources, dests;
    }
    var found := Search(nto.dev.filters, NameQuery(name));
    if |found| == 0 {
      stop, df, params := CreateFilter(nto, name, key, modeValue, criteria);
      return stop, df, params, sources, dests;
    } else if |found| == 1 {
      stop, params, sources, dests := UpdateFilter(nto, found[0], key, criteria);
      return stop, found[0], params, sources, dests;
    } else {
      var allNamed := ListDuplicates(nto.dev.filters.records, found);
      return Some(if allNamed then Ambiguous else Crashed), df, params, sources, dests;
    }
  }

  /**
   * `form_dynamic_filter(host_ip, port, username, password, df_name, df_input, df_output,
   * df_mode, df_criteria, use_tag_mode)`.
   */
  method FormDynamicFilter(nto: Client, name: string, input: string, output: string, key: string,
                           criteria: Value, useTagMode: bool) returns (outcome: Outcome)
    modifies nto
    ensures Run(outcome, nto.Now()) == Form(old(nto.Now()), name, input, output, key, criteria, useTagMode)
  {
    var stop, df, params, sources, dests := FindOrCreateFilter(nto, name, key, criteria);
    if stop.Some? {
      return stop.value;
    }
    if !useTagMode {
      var srcGroups := SearchPortGroupIds(nto.dev, input);
      var srcIds := RemoveEmptyPortGroups(nto.dev, srcGroups);
      if !sources.List? {
        return Crashed;
      }
      var dstGroups := SearchPortGroupIds(nto.dev, output);
      var dstIds := RemoveEmptyPortGroups(nto.dev, dstGroups);
      if !dests.List? {
        return Crashed;
      }
      params := params + map["source_port_group_list" := List(sources.items + IdValues(srcIds)),
                             "dest_port_group_list" := List(dests.items + IdValues(dstIds))];
      nto.ModifyFilter(df, params);
      return Connected;
    } else {
      var first := NtoLib.DfConnectViaTags(nto, df, [input], "input");
      if first == NtoLib.Crashed {
        return Crashed;
      }
      var second := NtoLib.DfConnectViaTags(nto, df, [output], "output");
      return if second == NtoLib.Crashed then Crashed else Tagged;
    }
  }

  // ---------------------------------------------------------------------------------------
  // Properties

  /** Missing criteria for a criteria-driven mode end the run before any device call. */
  lemma CriteriaCheckedFirst(s: State, name: string, input: string, output: string, key: string,
                             criteria: Value, useTagMode: bool)
    requires (key == "pbc" || key == "dbc") && !NonEmptyDict(criteria)
    ensures Form(s, name, input, output, key, criteria, useTagMode) == Run(CriteriaMissing, s)
  {
  }

  /**
   * With no filter of that name, the run's first write creates one with the name, the
   * ZTP keyword and the mapped mode, carrying the criteria exactly when they are a
   * non-empty dict; a refused create is the run's only write.
   */
  lemma NewFilterCreated(s: State, name: string, input: string, output: string, key: string,
                         criteria: Value, useTagMode: bool)
    requires !(CriteriaRequired(key) && !NonEmptyDict(criteria))
    requires |Search(s.dev.filters, NameQuery(name))| == 0
    ensures var r := Form(s, name, input, output, key, criteria, useTagMode);
      |r.state.log| > |s.log| && r.state.log[|s.log|] == Create(FilterKind, NewFilterProps(name, key, criteria))
    ensures var p := NewFilterProps(name, key, criteria);
      HasField(p, "name", Str(name)) && HasField(p, "keywords", List([Str(ZtpKeyword)]))
      && HasField(p, "mode", Str(ModeValue(key)))
      && ("criteria" in p <==> NonEmptyDict(criteria)) && ("criteria" in p ==> p["criteria"] == criteria)
    ensures Created(s.dev, FilterKind, NewFilterProps(name, key, criteria)).None? ==>
      Form(s, name, input, output, key, criteria, useTagMode)
      == Run(CreateFailed, Emit(s, Create(FilterKind, NewFilterProps(name, key, criteria))))
  {
    var ph := FindOrCreate(s, name, key, criteria);
    if ph.Proceed? {
      var s1 := ph.state;
      assert s1.log == s.log + [Create(FilterKind, NewFilterProps(name, key, criteria))];
      if useTagMode {
        var p1 := NtoLib.ConnectPlan(s1.dev, ph.df, [input], "input");
        EmitAllLog(s1, p1.writes);
        var s2 := EmitAll(s1, p1.writes);
        EmitAllLog(s2, NtoLib.ConnectPlan(s2.dev, ph.df, [output], "output").writes);
      }
    }
  }

  /**
   * Existing criteria overwrite supplied ones in the merge, so the merged criteria differ
   * from the existing ones exactly when some supplied key is missing from them.
   */
  lemma MergedCriteriaDiffer(supplied: map<string, Value>, existing: map<string, Value>)
    ensures Obj(supplied + existing) != Obj(existing) <==> exists k :: k in supplied && k !in existing
  {
    if exists k :: k in supplied && k !in existing {
      var k :| k in supplied && k !in existing;
      assert k in (supplied + existing).Keys;
    } else {
      assert supplied + existing == existing;
    }
  }

  /**
   * A single filter of that name is updated with its new mode when the mode differs and
   * with the merged criteria when supplied criteria bring a key it lacks; it is modified
   * only when one of these applies, and the update then holds exactly those entries.
   */
  lemma ExistingFilterUpdate(s: State, name: string, key: string, criteria: Value, id: Id)
    requires !(CriteriaRequired(key) && !NonEmptyDict(criteria))
    requires Search(s.dev.filters, NameQuery(name)) == [id]
    requires var rec := s.dev.filters.records[id];
      "source_port_group_list" in rec && "dest_port_group_list" in rec && "default_name" in rec && "mode" in rec
      && (NonEmptyDict(criteria) ==> "criteria" in rec && rec["criteria"].Obj?)
    ensures var rec := s.dev.filters.records[id];
      var ph := FindOrCreate(s, name, key, criteria);
      ph.Proceed? && ph.df == id
      && ("mode" in ph.params <==> rec["mode"] != Str(ModeValue(key)))
      && ("mode" in ph.params ==> ph.params["mode"] == Str(ModeValue(key)))
      && ("criteria" in ph.params <==>
            NonEmptyDict(criteria) && exists k :: k in criteria.fields && k !in rec["criteria"].fields)
      && ("criteria" in ph.params ==> ph.params["criteria"] == Obj(criteria.fields + rec["criteria"].fields))
      && ph.params.Keys <= {"mode", "criteria"}
      && ph.state == (if ph.params == map[] then s else Emit(s, Modify(FilterKind, ById(id), ph.params)))
  {
    var rec := s.dev.filters.records[id];
    if NonEmptyDict(criteria) {
      MergedCriteriaDiffer(criteria.fields, rec["criteria"].fields);
    }
  }

  /**
   * A single filter of that name whose criteria are an empty list or string takes the
   * supplied criteria as they are, and is modified with them.
   */
  lemma EmptyCriteriaReplaced(s: State, name: string, key: string, criteria: Value, id: Id)
    requires NonEmptyDict(criteria)
    requires Search(s.dev.filters, NameQuery(name)) == [id]
    requires var rec := s.dev.filters.records[id];
      "source_port_group_list" in rec && "dest_port_group_list" in rec && "default_name" in rec && "mode" in rec
      && "criteria" in rec && EmptyIterable(rec["criteria"])
    ensures var ph := FindOrCreate(s, name, key, criteria);
      ph.Proceed? && ph.df == id && "criteria" in ph.params && ph.params["criteria"] == criteria
      && ph.state == Emit(s, Modify(FilterKind, ById(id), ph.params))
  {
  }

  /** Several filters of that name: the run issues no write. */
  lemma AmbiguousNameWritesNothing(s: State, name: string, input: string, output: string, key: string,
                                   criteria: Value, useTagMode: bool)
    requires !(CriteriaRequired(key) && !NonEmptyDict(criteria))
    requires |Search(s.dev.filters, NameQuery(name))| > 1
    ensures Form(s, name, input, output, key, criteria, useTagMode).state == s
  {
  }

  /** The kept groups are those of the list that have members, in the list's order. */
  lemma {:induction false} NonEmptyGroupsKept(d: Device, ids: seq<Id>)
    ensures forall id :: id in NonEmptyGroups(d, ids) <==> id in ids && HasMembers(d, id)
    ensures |NonEmptyGroups(d, ids)| <= |ids|
    ensures NonEmptyGroups(d, ids) == ids <==> forall id :: id in ids ==> HasMembers(d, id)
  {
    if ids != [] {
      NonEmptyGroupsKept(d, ids[1..]);
      assert forall id :: id in ids <==> id == ids[0] || id in ids[1..];
      if !HasMembers(d, ids[0]) {
        assert |NonEmptyGroups(d, ids)| < |ids|;
      } else {
        var rest := NonEmptyGroups(d, ids[1..]);
        assert NonEmptyGroups(d, ids) == [ids[0]] + rest;
        assert ([ids[0]] + rest)[1..] == rest;
        assert ids == [ids[0]] + ids[1..];
      }
    }
  }

  /** Pruning keeps the list's order: pruning a concatenation prunes each part in turn. */
  lemma {:induction false} NonEmptyGroupsAppend(d: Device, a: seq<Id>, b: seq<Id>)
    ensures NonEmptyGroups(d, a + b) == NonEmptyGroups(d, a) + NonEmptyGroups(d, b)
  {
    if a != [] {
      assert (a + b)[1..] == a[1..] + b;
      NonEmptyGroupsAppend(d, a[1..], b);
    } else {
      assert a + b == b;
    }
  }

  /** Adding one group to the list adds it to the end of the result iff it has members. */
  lemma {:induction false} NonEmptyGroupsSnoc(d: Device, a: seq<Id>, x: Id)
    ensures NonEmptyGroups(d, a + [x]) == NonEmptyGroups(d, a) + (if HasMembers(d, x) then [x] else [])
  {
    if a != [] {
      assert (a + [x])[1..] == a[1..] + [x];
      NonEmptyGroupsSnoc(d, a[1..], x);
    } else {
      assert a + [x] == [x];
      assert [x][1..] == [];
    }
  }

  /**
   * Outside tag mode the run ends with one filter write that carries the accumulated
   * parameters and both connection lists: the current list followed by every named group
   * with members, with nothing removed, so a group already connected is listed again.
   */
  lemma GroupConnectionsAppended(s: State, name: string, input: string, output: string, key: string,
                                 criteria: Value)
    requires Form(s, name, input, output, key, criteria, false).outcome == Connected
    ensures var ph := FindOrCreate(s, name, key, criteria);
      ph.Proceed? && ph.sources.List? && ph.dests.List?
      && var d := ph.state.dev;
      var src := ph.sources.items + IdValues(NonEmptyGroups(d, Search(d.groups, NameQuery(input))));
      var dst := ph.dests.items + IdValues(NonEmptyGroups(d, Search(d.groups, NameQuery(output))));
      Form(s, name, input, output, key, criteria, false).state
        == Emit(ph.state, Modify(FilterKind, ById(ph.df),
                ph.params + map["source_port_group_list" := List(src), "dest_port_group_list" := List(dst)]))
      && |src| == |ph.sources.items| + |NonEmptyGroups(d, Search(d.groups, NameQuery(input)))|
      && src[..|ph.sources.items|] == ph.sources.items
  {
    var ph := FindOrCreate(s, name, key, criteria);
    var d := ph.state.dev;
    var src := ph.sources.items + IdValues(NonEmptyGroups(d, Search(d.groups, NameQuery(input))));
    assert src[..|ph.sources.items|] == ph.sources.items;
  }
}
