/**
 * Snapshot capture (`getConfig` in `get_nto_config_tagged.py`): a table, keyed by device
 * id, of the ports carrying a keyword and of every AFM, each as
 * `{name: default_name, type: 'port' | 'afm', details: full record}`.
 */
module Capture {
  import opened Nto

  /** The table being built: one JSON object per device id. */
  type Config = map<Id, Props>

  /** The search for the ports to capture. */
  function TaggedQuery(keyword: string): Props {
    map["keywords" := List([Str(keyword)])]
  }

  /** The captured object for a record; none when it has no default name (a `KeyError`). */
  function EntryFor(rec: Props, objType: string): Option<Props> {
    if "default_name" in rec
    then Some(map["name" := rec["default_name"], "type" := Str(objType), "details" := Obj(rec)])
    else None
  }

  /** Fetch each listed object and store it under its id, later ones replacing earlier. */
  function AddFrom(t: Table, ids: seq<Id>, objType: string, cfg: Config): Option<Config>
    decreases |ids|
  {
    if ids == [] then Some(cfg)
    else if ids[0] !in t.records then None
    else match EntryFor(t.records[ids[0]], objType)
      case None => None
      case Some(e) => AddFrom(t, ids[1..], objType, cfg[ids[0] := e])
  }

  /** The table `getConfig` writes out: tagged ports first, then all AFMs. */
  function Captured(d: Device, keyword: string): Option<Config> {
    match AddFrom(d.ports, Search(d.ports, TaggedQuery(keyword)), "port", map[])
    case None => None
    case Some(cfg) => AddFrom(d.afms, d.afms.order, "afm", cfg)
  }

  method AddObjects(t: Table, ids: seq<Id>, objType: string, cfg0: Config) returns (r: Option<Config>)
    ensures r == AddFrom(t, ids, objType, cfg0)
  {
    var cfg := cfg0;
    ghost var goal := AddFrom(t, ids, objType, cfg0);
    for i := 0 to |ids|
      invariant AddFrom(t, ids[i..], objType, cfg) == goal
    {
      assert ids[i..][1..] == ids[i + 1..];
      if ids[i] !in t.records {
        return None;
      }
      var e := EntryFor(t.records[ids[i]], objType);
      if e.None? {
        return None;
      }
      cfg := cfg[ids[i] := e.value];
    }
    return Some(cfg);
  }

  /** `getConfig(host_ip, port, username, password, keyword)`: reads only, then one table. */
  method GetConfig(d: Device, keyword: string) returns (r: Option<Config>)
    ensures r == Captured(d, keyword)
  {
    var config := AddObjects(d.ports, Search(d.ports, TaggedQuery(keyword)), "port", map[]);
    if config.None? {
      return None;
    }
    r := AddObjects(d.afms, d.afms.order, "afm", config.value);
  }

  // ---------------------------------------------------------------------------------------
  // Properties

  /**
   * Adding objects raises exactly when one is missing or has no default name; otherwise
   * each listed id maps to its captured object and every other entry is kept.
   */
  lemma {:induction false} AddFromResult(t: Table, ids: seq<Id>, objType: string, cfg: Config)
    ensures var r := AddFrom(t, ids, objType, cfg);
      (r.Some? <==> forall i :: 0 <= i < |ids| ==> ids[i] in t.records && EntryFor(t.records[ids[i]], objType).Some?)
      && (r.Some? ==>
            (forall id :: id in r.value <==> id in cfg || id in ids)
            && (forall id :: id in ids ==> r.value[id] == EntryFor(t.records[id], objType).value)
            && (forall id :: id in cfg && id !in ids ==> r.value[id] == cfg[id]))
    decreases |ids|
  {
    if ids != [] {
      assert forall x :: x in ids <==> x == ids[0] || x in ids[1..];
      assert forall i :: 1 <= i < |ids| ==> ids[i] == ids[1..][i - 1];
      if ids[0] in t.records && EntryFor(t.records[ids[0]], objType).Some? {
        AddFromResult(t, ids[1..], objType, cfg[ids[0] := EntryFor(t.records[ids[0]], objType).value]);
      }
    }
  }

  /**
   * The captured table holds exactly the ports the keyword search finds and all AFMs; an
   * AFM's entry replaces a port's under the same id; a port entry is only ever a port
   * carrying the keyword, stored with its default name and its full record.
   */
  lemma CapturedTable(d: Device, keyword: string)
    ensures var found := Search(d.ports, TaggedQuery(keyword));
      var r := Captured(d, keyword);
      r.Some? ==>
        (forall id :: id in r.value <==> id in found || id in d.afms.order)
        && (forall id :: id in d.afms.order ==>
              id in d.afms.records && EntryFor(d.afms.records[id], "afm") == Some(r.value[id]))
        && (forall id :: id in r.value && "type" in r.value[id] && r.value[id]["type"] == Str("port") ==>
              id in found && id !in d.afms.order && id in d.ports.records
              && Matches(d.ports.records[id], TaggedQuery(keyword))
              && EntryFor(d.ports.records[id], "port") == Some(r.value[id]))
  {
    var found := Search(d.ports, TaggedQuery(keyword));
    AddFromResult(d.ports, found, "port", map[]);
    var p := AddFrom(d.ports, found, "port", map[]);
    if p.Some? {
      AddFromResult(d.afms, d.afms.order, "afm", p.value);
    }
  }

  /** Capture raises exactly when a found port or a listed AFM cannot be fetched with its default name. */
  lemma CaptureFails(d: Device, keyword: string)
    ensures var found := Search(d.ports, TaggedQuery(keyword));
      Captured(d, keyword).None? <==>
        (exists i :: 0 <= i < |found| && (found[i] !in d.ports.records || "default_name" !in d.ports.records[found[i]]))
        || (exists i :: 0 <= i < |d.afms.order| &&
              (d.afms.order[i] !in d.afms.records || "default_name" !in d.afms.records[d.afms.order[i]]))
  {
    var found := Search(d.ports, TaggedQuery(keyword));
    AddFromResult(d.ports, found, "port", map[]);
    var p := AddFrom(d.ports, found, "port", map[]);
    if p.Some? {
      AddFromResult(d.afms, d.afms.order, "afm", p.value);
    }
  }
}
