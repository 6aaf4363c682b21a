/**
 * The packet broker as the provisioning scripts see it through their REST client:
 * JSON-like property records in id-keyed tables, the writes the scripts issue, and
 * what each write does to the device.
 *
 * Every script method takes a `Client`, the model of one connection: the device state
 * it talks to plus the log of write calls issued so far.
 */
module Nto {
  import Text

  type Id = int

  datatype Option<+T> = None | Some(value: T)

  /** A JSON value, as the REST API and the snapshot files carry it. */
  datatype Value =
    | Null
    | Bool(b: bool)
    | Int(i: int)
    | Str(s: string)
    | List(items: seq<Value>)
    | Obj(fields: map<string, Value>)

  /** One JSON object: a property record or a request payload. */
  type Props = map<string, Value>

  /** Python's truth value of a JSON value (`if v:`). */
  predicate Truthy(v: Value) {
    match v
    case Null => false
    case Bool(b) => b
    case Int(i) => i != 0
    case Str(s) => s != ""
    case List(xs) => xs != []
    case Obj(m) => m != map[]
  }

  /** The kinds of object the scripts write. */
  datatype Kind = PortKind | PortGroupKind | FilterKind

  /** How a write names its object: by id (`str(id)`) or, for ports, by default name. */
  datatype Target = ById(id: Id) | ByName(name: string)

  /** One write call the scripts issue (`createPortGroup`, `modifyFilter`, ...). */
  datatype Write =
    | Create(kind: Kind, props: Props)
    | Modify(kind: Kind, target: Target, props: Props)

  /** An LLDP neighbor reported on a port. */
  datatype Neighbor = Neighbor(systemName: string, portId: string, portDescription: string)

  /** Records of one kind, and the order the device lists them in. */
  datatype Table = Table(records: map<Id, Props>, order: seq<Id>)

  /**
   * The device: ports (with the default names it resolves), port groups, filters, icons
   * by name, AFMs, the LLDP neighbor table, the id its next created object gets, and the
   * firmware's validation: `accepts(kind, current record, change)` says whether a write is
   * applied (for a create the current record is empty).
   */
  datatype Device = Device(
    ports: Table,
    portNames: map<string, Id>,
    groups: Table,
    filters: Table,
    icons: map<string, Id>,
    afms: Table,
    neighbors: seq<(string, seq<Neighbor>)>,
    nextId: Id,
    accepts: (Kind, Props, Props) -> bool)

  /** The device together with the writes issued to it so far. */
  datatype State = State(dev: Device, log: seq<Write>)

  function TableOf(d: Device, k: Kind): Table {
    match k
    case PortKind => d.ports
    case PortGroupKind => d.groups
    case FilterKind => d.filters
  }

  function WithTable(d: Device, k: Kind, t: Table): Device {
    match k
    case PortKind => d.(ports := t)
    case PortGroupKind => d.(groups := t)
    case FilterKind => d.(filters := t)
  }

  /** The object a write names, if the device knows it. */
  function Resolve(d: Device, k: Kind, t: Target): Option<Id> {
    match t
    case ById(id) => if id in TableOf(d, k).records then Some(id) else None
    case ByName(n) =>
      if k == PortKind && n in d.portNames && d.portNames[n] in d.ports.records
      then Some(d.portNames[n]) else None
  }

  /** The id a create call returns: the next id if the firmware accepts the object, else none. */
  function Created(d: Device, k: Kind, p: Props): Option<Id> {
    if k != PortKind && d.accepts(k, map[], p) then Some(d.nextId) else None
  }

  /**
   * What one write does: an accepted modify updates the named record with the payload's
   * keys (a dict update), an accepted create adds a record under the next id; anything
   * else leaves the device as it was. Ports are physical and are never created.
   */
  function Apply(d: Device, w: Write): Device {
    match w
    case Create(k, p) =>
      (match Created(d, k, p)
       case None => d
       case Some(id) =>
         var t := TableOf(d, k);
         WithTable(d, k, Table(t.records[id := p], t.order + [id])).(nextId := d.nextId + 1))
    case Modify(k, target, p) =>
      match Resolve(d, k, target)
      case None => d
      case Some(id) =>
        var t := TableOf(d, k);
        if d.accepts(k, t.records[id], p)
        then WithTable(d, k, t.(records := t.records[id := t.records[id] + p]))
        else d
  }

  /** Issue one write: it joins the log and takes effect on the device. */
  function Emit(s: State, w: Write): State {
    State(Apply(s.dev, w), s.log + [w])
  }

  /** Issue writes one after another. */
  function EmitAll(s: State, ws: seq<Write>): State
    decreases |ws|
  {
    if ws == [] then s else EmitAll(Emit(s, ws[0]), ws[1..])
  }

  /** Issuing writes appends them to the log, in order. */
  lemma {:induction false} EmitAllLog(s: State, ws: seq<Write>)
    ensures EmitAll(s, ws).log == s.log + ws
    decreases |ws|
  {
    if ws != [] {
      EmitAllLog(Emit(s, ws[0]), ws[1..]);
      assert s.log + [ws[0]] + ws[1..] == s.log + ws;
    }
  }

  /** Issuing two batches of writes is issuing them together. */
  lemma {:induction false} EmitAllAppend(s: State, a: seq<Write>, b: seq<Write>)
    ensures EmitAll(s, a + b) == EmitAll(EmitAll(s, a), b)
    decreases |a|
  {
    if a == [] {
      assert a + b == b;
    } else {
      assert (a + b)[0] == a[0] && (a + b)[1..] == a[1..] + b;
      EmitAllAppend(Emit(s, a[0]), a[1..], b);
      assert EmitAll(s, a + b) == EmitAll(Emit(s, a[0]), a[1..] + b);
    }
  }

  /** A record's keywords as a list; none when they are absent or not a list. */
  function KeywordList(rec: Props): Option<seq<Value>> {
    if "keywords" in rec && rec["keywords"].List? then Some(rec["keywords"].items) else None
  }

  /** A record holds a property with that value. */
  predicate HasField(rec: Props, k: string, v: Value) {
    k in rec && rec[k] == v
  }

  /**
   * A port's keywords, where Python's `tag in keywords` is defined on them: a list, a string
   * or an object. None when they are absent, null or of another type (Python raises).
   */
  function Keywords(rec: Props): Option<Value> {
    if "keywords" in rec && (rec["keywords"].List? || rec["keywords"].Str? || rec["keywords"].Obj?)
    then Some(rec["keywords"]) else None
  }

  /** Python's `t in keywords`: list membership, a substring of a string, a key of an object. */
  predicate HoldsKeyword(keywords: Value, t: string) {
    match keywords
    case List(items) => Str(t) in items
    case Str(s) => Text.IsSubstring(t, s)
    case Obj(fields) => t in fields
    case _ => false
  }

  /** Whether one of the tags is in the keywords. */
  predicate AnyTagIn(tags: seq<string>, keywords: Value) {
    exists t :: t in tags && HoldsKeyword(keywords, t)
  }

  /** The JSON list of the given ids. */
  function IdValues(ids: seq<Id>): (r: seq<Value>)
    ensures |r| == |ids| && forall i :: 0 <= i < |ids| ==> r[i] == Int(ids[i])
  {
    seq(|ids|, i requires 0 <= i < |ids| => Int(ids[i]))
  }

  /** The JSON list of the given strings. */
  function StrValues(ss: seq<string>): (r: seq<Value>)
    ensures |r| == |ss| && forall i :: 0 <= i < |ss| ==> r[i] == Str(ss[i])
  {
    seq(|ss|, i requires 0 <= i < |ss| => Str(ss[i]))
  }

  /** A write that sets one port's mode. */
  function ModeWrite(id: Id, mode: string): Write {
    Modify(PortKind, ById(id), map["mode" := Str(mode)])
  }

  /** A write to a port's properties only changes that port's record. */
  lemma PortWriteFrame(d: Device, id: Id, p: Props)
    ensures var d' := Apply(d, Modify(PortKind, ById(id), p));
      d'.ports.records.Keys == d.ports.records.Keys && d'.ports.order == d.ports.order
      && (forall y :: y in d.ports.records && y != id ==> d'.ports.records[y] == d.ports.records[y])
      && d'.groups == d.groups && d'.filters == d.filters && d'.icons == d.icons && d'.afms == d.afms
      && d'.portNames == d.portNames && d'.nextId == d.nextId && d'.accepts == d.accepts
      && d'.neighbors == d.neighbors
  {
  }

  /** The device's record for a port after a modify of it was accepted. */
  lemma ModifyPortEffect(d: Device, id: Id, p: Props)
    requires id in d.ports.records && d.accepts(PortKind, d.ports.records[id], p)
    ensures Apply(d, Modify(PortKind, ById(id), p)).ports.records
         == d.ports.records[id := d.ports.records[id] + p]
    ensures Apply(d, Modify(PortKind, ById(id), p)).ports.order == d.ports.order
  {
  }

  /** A write to one kind of object leaves the other kinds' tables as they were. */
  lemma ApplyKeepsOtherTables(d: Device, w: Write, k: Kind)
    requires w.kind != k
    ensures TableOf(Apply(d, w), k) == TableOf(d, k)
    ensures Apply(d, w).portNames == d.portNames && Apply(d, w).accepts == d.accepts
  {
  }

  /** No write removes a record or changes a listing order, other than a create appending. */
  lemma ApplyKeepsRecords(d: Device, w: Write, k: Kind)
    ensures TableOf(d, k).records.Keys <= TableOf(Apply(d, w), k).records.Keys
    ensures w.Modify? ==> TableOf(Apply(d, w), k).order == TableOf(d, k).order
  {
  }

  // ---------------------------------------------------------------------------------------
  // Searches

  /**
   * Whether a record matches a search query: every queried property equals the record's,
   * except that `keywords: [k, ...]` asks for a keyword list holding each listed keyword.
   */
  predicate Matches(rec: Props, q: Props) {
    forall k :: k in q ==> k in rec && FieldMatches(k, rec[k], q[k])
  }

  predicate FieldMatches(k: string, actual: Value, wanted: Value) {
    if k == "keywords" && wanted.List?
    then actual.List? && forall w :: w in wanted.items ==> w in actual.items
    else actual == wanted
  }

  /** The ids a search returns: the listed records that match, in listing order. */
  function SearchIn(recs: map<Id, Props>, order: seq<Id>, q: Props): (r: seq<Id>)
    ensures forall id :: id in r ==> id in order && id in recs && Matches(recs[id], q)
    ensures |r| <= |order|
  {
    if order == [] then []
    else
      var rest := SearchIn(recs, order[1..], q);
      if order[0] in recs && Matches(recs[order[0]], q) then [order[0]] + rest else rest
  }

  function Search(t: Table, q: Props): seq<Id> {
    SearchIn(t.records, t.order, q)
  }

  /** A search returns every listed record that matches. */
  lemma {:induction false} SearchComplete(recs: map<Id, Props>, order: seq<Id>, q: Props, id: Id)
    requires id in order && id in recs && Matches(recs[id], q)
    ensures id in SearchIn(recs, order, q)
  {
    if order[0] != id {
      SearchComplete(recs, order[1..], q, id);
    }
  }

  /** A search over records that only changed outside the query's fields returns the same ids. */
  lemma {:induction false} SearchUnchanged(recs: map<Id, Props>, recs': map<Id, Props>, order: seq<Id>, q: Props)
    requires recs.Keys == recs'.Keys
    requires forall id :: id in recs ==> (Matches(recs[id], q) <==> Matches(recs'[id], q))
    ensures SearchIn(recs, order, q) == SearchIn(recs', order, q)
  {
    if order != [] {
      SearchUnchanged(recs, recs', order[1..], q);
    }
  }

  /** The port a default name resolves to, as `getPort(name)` finds it. */
  function PortNamed(d: Device, name: string): (r: Option<Id>)
    ensures r.Some? ==> r.value in d.ports.records
  {
    Resolve(d, PortKind, ByName(name))
  }

  /** A link-settling pause: each port's `link_status.link_up` becomes what the oracle says. */
  function Settled(d: Device, up: Id -> bool): Device {
    d.(ports := d.ports.(records := map id | id in d.ports.records ::
         d.ports.records[id]["link_status" := Obj(map["link_up" := Bool(up(id))])]))
  }

  /**
   * One connection to a device (`NtoApiClient`): the device state and the write calls
   * issued so far. Reads are functions of `dev`; each write method appends to `log` and
   * applies the write.
   */
  class Client {
    var dev: Device
    var log: seq<Write>

    constructor (d: Device)
      ensures dev == d && log == []
    {
      dev := d;
      log := [];
    }

    function Now(): State
      reads this
    {
      State(dev, log)
    }

    method ModifyPort(t: Target, p: Props)
      modifies this
      ensures Now() == Emit(old(Now()), Modify(PortKind, t, p))
    {
      dev, log := Apply(dev, Modify(PortKind, t, p)), log + [Modify(PortKind, t, p)];
    }

    method ModifyPortGroup(id: Id, p: Props)
      modifies this
      ensures Now() == Emit(old(Now()), Modify(PortGroupKind, ById(id), p))
    {
      dev, log := Apply(dev, Modify(PortGroupKind, ById(id), p)), log + [Modify(PortGroupKind, ById(id), p)];
    }

    method ModifyFilter(id: Id, p: Props)
      modifies this
      ensures Now() == Emit(old(Now()), Modify(FilterKind, ById(id), p))
    {
      dev, log := Apply(dev, Modify(FilterKind, ById(id), p)), log + [Modify(FilterKind, ById(id), p)];
    }

    /** `createPortGroup`: the new group's id, or none when the device refuses it. */
    method CreatePortGroup(p: Props) returns (r: Option<Id>)
      modifies this
      ensures r == Created(old(dev), PortGroupKind, p)
      ensures Now() == Emit(old(Now()), Create(PortGroupKind, p))
    {
      r := Created(dev, PortGroupKind, p);
      dev, log := Apply(dev, Create(PortGroupKind, p)), log + [Create(PortGroupKind, p)];
    }

    /** `createFilter`: the new filter's id, or none when the device refuses it. */
    method CreateFilter(p: Props) returns (r: Option<Id>)
      modifies this
      ensures r == Created(old(dev), FilterKind, p)
      ensures Now() == Emit(old(Now()), Create(FilterKind, p))
    {
      r := Created(dev, FilterKind, p);
      dev, log := Apply(dev, Create(FilterKind, p)), log + [Create(FilterKind, p)];
    }

    /** A pause for links to settle; no write is issued. */
    method Pause(up: Id -> bool)
      modifies this
      ensures dev == Settled(old(dev), up) && log == old(log)
    {
      dev := Settled(dev, up);
    }
  }
}
