/**
 * System status (`ixvision_ztp_sysinfo.py`): eight facts about a packet broker, returned as
 * a dict in Ansible mode or printed one padded label line at a time otherwise. The two
 * device reads (`getSystem()`, `getLoginInfo()`) are parameters.
 */
module SysInfo {
  import opened Nto
  import opened Text

  /** The column the values start in. */
  const LabelWidth := 16

  /** `sysinfo_strings`: the label printed for each fact. */
  const Labels: map<string, string> := map[
    "name" := "System name:", "location" := "Location:", "contact_info" := "Contact:",
    "ipv4_address" := "Management IP:", "mac_address" := "MAC:",
    "software_version" := "Software ver.:", "part_num" := "Part number:", "serial_num" := "Serial:"
  ]

  /** `' ' * n`: `n` spaces, none when `n` is not positive. */
  function Spaces(n: int): (r: string)
    ensures |r| == (if n > 0 then n else 0)
    ensures forall i :: 0 <= i < |r| ==> r[i] == ' '
  {
    if n <= 0 then "" else seq(n, _ => ' ')
  }

  /** `print_sysinfo(name, value)`: the label, blanks up to column 16, then the value. */
  function LabelLine(name: string, value: string): (line: string)
    ensures |line| == (if |name| < LabelWidth then LabelWidth else |name|) + |value|
    ensures line[..|name|] == name
    ensures forall i :: |name| <= i < LabelWidth ==> line[i] == ' '
    ensures line[|line| - |value|..] == value
  {
    name + Spaces(LabelWidth - |name|) + value
  }

  // ---------------------------------------------------------------------------------------
  // MAC address formatting

  /** `s[i:j]`, with Python's clamping of bounds past the end. */
  function Slice(s: string, i: nat, j: nat): (r: string)
    requires i <= j
    ensures |r| == if j <= |s| then j - i else if i <= |s| then |s| - i else 0
  {
    if i >= |s| then "" else if j >= |s| then s[i..] else s[i..j]
  }

  /** `mac[i:i+2] for i in range(0, 12, 2)`. */
  function MacPairs(mac: string): seq<string> {
    [Slice(mac, 0, 2), Slice(mac, 2, 4), Slice(mac, 4, 6), Slice(mac, 6, 8), Slice(mac, 8, 10), Slice(mac, 10, 12)]
  }

  /** `':'.join(...).upper()` over those pairs. */
  function FormatMac(mac: string): string {
    Upper(Join(MacPairs(mac), ':'))
  }

  /**
   * Twelve or more characters give `XX:XX:XX:XX:XX:XX`: 17 characters, colons at every third
   * position, the first twelve characters upper-cased in between; the rest is dropped.
   */
  lemma MacLayout(mac: string)
    requires |mac| >= 12
    ensures var r := FormatMac(mac);
      |r| == 17
      && (forall k :: 0 <= k < 5 ==> r[3 * k + 2] == ':')
      && (forall k :: 0 <= k < 6 ==> r[3 * k] == UpperChar(mac[2 * k]) && r[3 * k + 1] == UpperChar(mac[2 * k + 1]))
  {
    var flat := MacFlatOf(mac);
    MacJoin(mac);
    var r := FormatMac(mac);
    assert r == Upper(flat);
    forall k | 0 <= k < 5 ensures r[3 * k + 2] == ':' {
      assert flat[3 * k + 2] == ':';
    }
    forall k | 0 <= k < 6 ensures r[3 * k] == UpperChar(mac[2 * k]) && r[3 * k + 1] == UpperChar(mac[2 * k + 1]) {
      assert flat[3 * k] == mac[2 * k] && flat[3 * k + 1] == mac[2 * k + 1];
    }
  }

  /** The first twelve characters in pairs, a colon between pairs. */
  function MacFlatOf(mac: string): string
    requires |mac| >= 12
  {
    [mac[0], mac[1], ':', mac[2], mac[3], ':', mac[4], mac[5], ':', mac[6], mac[7], ':',
     mac[8], mac[9], ':', mac[10], mac[11]]
  }

  /** Joining the pairs of a twelve-character prefix gives exactly that. */
  lemma MacJoin(mac: string)
    requires |mac| >= 12
    ensures Join(MacPairs(mac), ':') == MacFlatOf(mac)
  {
    var ps := MacPairs(mac);
    JoinSix(ps);
    var j5 := ps[4] + [':'] + ps[5];
    assert j5 == [mac[8], mac[9], ':', mac[10], mac[11]];
    var j4 := ps[3] + [':'] + j5;
    assert j4 == [mac[6], mac[7], ':'] + j5;
    var j3 := ps[2] + [':'] + j4;
    assert j3 == [mac[4], mac[5], ':'] + j4;
    var j2 := ps[1] + [':'] + j3;
    assert j2 == [mac[2], mac[3], ':'] + j3;
    assert ps[0] + [':'] + j2 == [mac[0], mac[1], ':'] + j2;
  }

  /** Every pair is at most two characters, so at most 12 characters plus five colons. */
  lemma MacLength(mac: string)
    ensures |FormatMac(mac)| == (if |mac| < 12 then |mac| else 12) + 5
  {
    JoinSix(MacPairs(mac));
  }

  /** `':'.join` of six pieces, written out. */
  lemma JoinSix(ps: seq<string>)
    requires |ps| == 6
    ensures Join(ps, ':') == ps[0] + [':'] + (ps[1] + [':'] + (ps[2] + [':'] + (ps[3] + [':'] + (ps[4] + [':'] + ps[5]))))
  {
    var p1, p2, p3, p4, p5 := ps[1..], ps[2..], ps[3..], ps[4..], ps[5..];
    assert p1[1..] == p2 && p2[1..] == p3 && p3[1..] == p4 && p4[1..] == p5;
    assert p5 == [ps[5]];
    assert Join(p5, ':') == ps[5];
    assert Join(p4, ':') == ps[4] + [':'] + ps[5];
    assert Join(p3, ':') == ps[3] + [':'] + Join(p4, ':');
    assert Join(p2, ':') == ps[2] + [':'] + Join(p3, ':');
    assert Join(p1, ':') == ps[1] + [':'] + Join(p2, ':');
  }

  // ---------------------------------------------------------------------------------------
  // Reading the device's answers

  /** `v[k]` on a JSON value; none where that raises (not a dict, or no such key). */
  function Fetch(v: Value, k: string): Option<Value> {
    if v.Obj? && k in v.fields then Some(v.fields[k]) else None
  }

  /** What `for x in v` visits; none where that raises or the first item cannot be indexed by `'id'`. */
  function Iterate(v: Value): Option<seq<Value>> {
    match v
    case List(xs) => Some(xs)
    case Obj(f) => if f == map[] then Some([]) else None
    case Str(s) => if s == "" then Some([]) else None
    case _ => None
  }

  /** The formatted MAC address; none where the address is not a string. */
  function MacOf(hw: Value): Option<Value> {
    match Fetch(hw, "mac_address")
    case Some(Str(m)) => Some(Str(FormatMac(m)))
    case _ => None
  }

  /** `module['id']['module_type'] == 'MAIN'`; none where a lookup raises. */
  function IsMain(m: Value): Option<bool> {
    match Fetch(m, "id")
    case None => None
    case Some(id) => match Fetch(id, "module_type")
      case None => None
      case Some(t) => Some(t == Str("MAIN"))
  }

  /** A module's part and serial number. */
  datatype Ident = Ident(part: Value, serial: Value)

  function IdentOf(m: Value): Option<Ident> {
    if Fetch(m, "part_num").Some? && Fetch(m, "serial_num").Some?
    then Some(Ident(Fetch(m, "part_num").value, Fetch(m, "serial_num").value))
    else None
  }

  /** The module loop in Ansible mode: every MAIN module overwrites the numbers. */
  function MainIdent(mods: seq<Value>, cur: Ident): Option<Ident>
    decreases |mods|
  {
    if mods == [] then Some(cur)
    else match IsMain(mods[0])
      case None => None
      case Some(main) =>
        if !main then MainIdent(mods[1..], cur)
        else match IdentOf(mods[0])
          case None => None
          case Some(id) => MainIdent(mods[1..], id)
  }

  /** The numbers reported before any MAIN module is seen. */
  const NoIdent := Ident(Str(""), Str(""))

  // ---------------------------------------------------------------------------------------
  // The report

  datatype Line = Labelled(caption: string, value: Value) | Blank

  /** Ansible mode: the facts; display mode: the lines printed; or the lines printed before an exception. */
  datatype Report = Facts(info: map<string, Value>) | Printed(lines: seq<Line>) | Crashed(lines: seq<Line>)

  /** The line for one fact; none where reading the fact raised. */
  function Shown(key: string, v: Option<Value>): Option<Line>
    requires key in Labels
  {
    if v.None? then None else Some(Labelled(Labels[key], v.value))
  }

  /** The header lines in print order (lines 71-81); none where reading raises. */
  function HeaderItems(sysInfo: Value, ipInfo: Value, hw: Value, system: Value): seq<Option<Line>> {
    [Shown("name", Fetch(sysInfo, "name")), Shown("location", Fetch(sysInfo, "location")),
     Shown("contact_info", Fetch(sysInfo, "contact_info")), Some(Blank),
     Shown("ipv4_address", Fetch(ipInfo, "ipv4_address")), Shown("mac_address", MacOf(hw)), Some(Blank),
     Shown("software_version", Fetch(system, "software_version")), Some(Blank)]
  }

  /** The lines one module prints (lines 84-87). */
  function ModuleLines(m: Value): seq<Option<Line>> {
    match IsMain(m)
    case None => [None]
    case Some(main) =>
      if main then [Shown("part_num", Fetch(m, "part_num")), Shown("serial_num", Fetch(m, "serial_num")), Some(Blank)]
      else []
  }

  function ModuleItems(mods: seq<Value>): seq<Option<Line>>
    decreases |mods|
  {
    if mods == [] then [] else ModuleLines(mods[0]) + ModuleItems(mods[1..])
  }

  /** Printing in order: the first line whose value cannot be read ends the output. */
  function PrintFrom(lines: seq<Line>, items: seq<Option<Line>>): Report
    decreases |items|
  {
    if items == [] then Printed(lines)
    else if items[0].None? then Crashed(lines)
    else PrintFrom(lines + [items[0].value], items[1..])
  }

  /** `nto_get_sysinfo` (lines 24-87) after the two device reads. */
  function Sysinfo(system: Value, login: Value, execmode: string): Report {
    if Fetch(system, "system_info").None? || Fetch(system, "ip_config").None? || Fetch(login, "hardware_info").None?
    then Crashed([])
    else
      var sysInfo := Fetch(system, "system_info").value;
      var ipInfo := Fetch(system, "ip_config").value;
      var hw := Fetch(login, "hardware_info").value;
      if execmode == "ansible" then AnsibleFacts(sysInfo, ipInfo, hw, system)
      else
        PrintFrom([], HeaderItems(sysInfo, ipInfo, hw, system) + ModuleListItems(hw))
  }

  /** The module loop's lines (lines 83-87); a missing or unusable list raises before the loop. */
  function ModuleListItems(hw: Value): seq<Option<Line>> {
    if Fetch(hw, "module_list").None? || Iterate(Fetch(hw, "module_list").value).None? then [None]
    else ModuleItems(Iterate(Fetch(hw, "module_list").value).value)
  }

  /** The Ansible branch (lines 55-69): the dict, or an exception. */
  function AnsibleFacts(sysInfo: Value, ipInfo: Value, hw: Value, system: Value): Report {
    if Fetch(sysInfo, "name").None? || Fetch(sysInfo, "location").None? || Fetch(sysInfo, "contact_info").None?
       || Fetch(ipInfo, "ipv4_address").None? || MacOf(hw).None? || Fetch(system, "software_version").None?
       || Fetch(hw, "module_list").None? || Iterate(Fetch(hw, "module_list").value).None?
    then Crashed([])
    else match MainIdent(Iterate(Fetch(hw, "module_list").value).value, NoIdent)
      case None => Crashed([])
      case Some(id) =>
        Facts(map[
          "name" := Fetch(sysInfo, "name").value, "location" := Fetch(sysInfo, "location").value,
          "contact_info" := Fetch(sysInfo, "contact_info").value,
          "ipv4_address" := Fetch(ipInfo, "ipv4_address").value, "mac_address" := MacOf(hw).value,
          "software_version" := Fetch(system, "software_version").value,
          "part_num" := id.part, "serial_num" := id.serial])
  }

  // ---------------------------------------------------------------------------------------
  // The script

  /** The Ansible module loop (lines 64-67). */
  method SelectMain(mods: seq<Value>) returns (r: Option<Ident>)
    ensures r == MainIdent(mods, NoIdent)
  {
    var part := Str("");
    var serial := Str("");
    ghost var goal := MainIdent(mods, NoIdent);
    for i := 0 to |mods|
      invariant MainIdent(mods[i..], Ident(part, serial)) == goal
    {
      assert mods[i..][1..] == mods[i + 1..];
      var main := IsMain(mods[i]);
      if main.None? {
        return None;
      }
      if main.value {
        var p := Fetch(mods[i], "part_num");
        if p.None? {
          return None;
        }
        part := p.value;
        var s := Fetch(mods[i], "serial_num");
        if s.None? {
          return None;
        }
        serial := s.value;
      }
    }
    return Some(Ident(part, serial));
  }

  /** Print lines in order until one cannot be read; what follows is printed after them. */
  method PrintLines(lines0: seq<Line>, items: seq<Option<Line>>, ghost more: seq<Option<Line>>)
    returns (lines: seq<Line>, ok: bool)
    ensures ok ==> PrintFrom(lines0, items + more) == PrintFrom(lines, more)
    ensures !ok ==> PrintFrom(lines0, items + more) == Crashed(lines)
  {
    lines := lines0;
    for i := 0 to |items|
      invariant PrintFrom(lines, items[i..] + more) == PrintFrom(lines0, items + more)
    {
      assert (items[i..] + more)[1..] == items[i + 1..] + more;
      if items[i].None? {
        return lines, false;
      }
      lines := lines + [items[i].value];
    }
    assert items[|items|..] + more == more;
    return lines, true;
  }

  /** The display module loop (lines 83-87). */
  method PrintModules(mods: seq<Value>, lines0: seq<Line>) returns (r: Report)
    ensures r == PrintFrom(lines0, ModuleItems(mods))
  {
    var lines := lines0;
    ghost var goal := PrintFrom(lines0, ModuleItems(mods));
    for i := 0 to |mods|
      invariant PrintFrom(lines, ModuleItems(mods[i..])) == goal
    {
      assert mods[i..][1..] == mods[i + 1..];
      ghost var rest := ModuleItems(mods[i + 1..]);
      var main := IsMain(mods[i]);
      if main.None? {
        assert ModuleItems(mods[i..]) == [None] + rest;
        return Crashed(lines);
      }
      if main.value {
        var part := Fetch(mods[i], "part_num");
        var serial := Fetch(mods[i], "serial_num");
        ghost var items := [Shown("part_num", part), Shown("serial_num", serial), Some(Blank)] + rest;
        assert ModuleItems(mods[i..]) == items;
        assert items[1..] == [Shown("serial_num", serial), Some(Blank)] + rest;
        assert items[1..][1..] == [Some(Blank)] + rest;
        assert items[1..][1..][1..] == rest;
        if part.None? {
          return Crashed(lines);
        }
        assert PrintFrom(lines, items) == PrintFrom(lines + [Labelled(Labels["part_num"], part.value)], items[1..]);
        lines := lines + [Labelled(Labels["part_num"], part.value)];
        if serial.None? {
          return Crashed(lines);
        }
        assert PrintFrom(lines, items[1..])
          == PrintFrom(lines + [Labelled(Labels["serial_num"], serial.value)], items[1..][1..]);
        lines := lines + [Labelled(Labels["serial_num"], serial.value)];
        assert PrintFrom(lines, items[1..][1..]) == PrintFrom(lines + [Blank], rest);
        lines := lines + [Blank];
      } else {
        assert ModuleItems(mods[i..]) == rest;
      }
    }
    return Printed(lines);
  }

  /** `nto_get_sysinfo(host_ip, port, username, password, execmode)` on the two device answers. */
  method GetSysinfo(system: Value, login: Value, execmode: string) returns (r: Report)
    ensures r == Sysinfo(system, login, execmode)
  {
    var sysInfo := Fetch(system, "system_info");
    var ipInfo := Fetch(system, "ip_config");
    var hw := Fetch(login, "hardware_info");
    if sysInfo.None? || ipInfo.None? || hw.None? {
      return Crashed([]);
    }
    if execmode == "ansible" {
      r := AnsibleBranch(sysInfo.value, ipInfo.value, hw.value, system);
    } else {
      ghost var more := ModuleListItems(hw.value);
      var lines, ok := PrintLines([], HeaderItems(sysInfo.value, ipInfo.value, hw.value, system), more);
      if !ok {
        return Crashed(lines);
      }
      var list := Fetch(hw.value, "module_list");
      if list.None? || Iterate(list.value).None? {
        return Crashed(lines);
      }
      r := PrintModules(Iterate(list.value).value, lines);
    }
  }

  /**
   * Lines 55-69: the fields are read in the order the dict is filled in. Every field is
   * set before the dict is returned, so its initial blanks are never seen and the dict
   * is built once, at the end.
   */
  method AnsibleBranch(sysInfo: Value, ipInfo: Value, hw: Value, system: Value) returns (r: Report)
    ensures r == AnsibleFacts(sysInfo, ipInfo, hw, system)
  {
    var name := Fetch(sysInfo, "name");
    var location := Fetch(sysInfo, "location");
    var contact := Fetch(sysInfo, "contact_info");
    if name.None? || location.None? || contact.None? {
      return Crashed([]);
    }
    var ip := Fetch(ipInfo, "ipv4_address");
    var mac := Fetch(hw, "mac_address");
    if ip.None? || mac.None? || !mac.value.Str? {
      assert ip.None? || MacOf(hw).None?;
      return Crashed([]);
    }
    assert MacOf(hw) == Some(Str(FormatMac(mac.value.s)));
    var version := Fetch(system, "software_version");
    if version.None? {
      return Crashed([]);
    }
    var list := Fetch(hw, "module_list");
    if list.None? || Iterate(list.value).None? {
      return Crashed([]);
    }
    var ident := SelectMain(Iterate(list.value).value);
    if ident.None? {
      return Crashed([]);
    }
    return Facts(map[
      "name" := name.value, "location" := location.value, "contact_info" := contact.value,
      "ipv4_address" := ip.value, "mac_address" := Str(FormatMac(mac.value.s)),
      "software_version" := version.value, "part_num" := ident.value.part, "serial_num" := ident.value.serial]);
  }

  // ---------------------------------------------------------------------------------------
  // Properties

  /**
   * The module loop raises iff some module has no readable type, or a MAIN one lacks a part
   * or serial number; otherwise the numbers are the last MAIN module's, or those it started
   * with when there is none.
   */
  lemma {:induction false} LastMainWins(mods: seq<Value>, cur: Ident)
    ensures var r := MainIdent(mods, cur);
      (r.None? <==> exists i :: 0 <= i < |mods| && (IsMain(mods[i]).None? || (IsMain(mods[i]) == Some(true) && IdentOf(mods[i]).None?)))
      && (r.Some? ==>
            ((forall i :: 0 <= i < |mods| ==> IsMain(mods[i]) == Some(false)) && r.value == cur)
            || (exists i :: 0 <= i < |mods| && IsMain(mods[i]) == Some(true) && IdentOf(mods[i]) == r
                 && forall j :: i < j < |mods| ==> IsMain(mods[j]) == Some(false)))
    decreases |mods|
  {
    if mods != [] {
      assert forall i :: 1 <= i < |mods| ==> mods[i] == mods[1..][i - 1];
      var r := MainIdent(mods, cur);
      match IsMain(mods[0]) {
        case None =>
        case Some(main) =>
          if !main {
            LastMainWins(mods[1..], cur);
            if r.Some? && !(forall i :: 0 <= i < |mods| ==> IsMain(mods[i]) == Some(false)) {
              var i :| 0 <= i < |mods[1..]| && IsMain(mods[1..][i]) == Some(true) && IdentOf(mods[1..][i]) == r
                && forall j :: i < j < |mods[1..]| ==> IsMain(mods[1..][j]) == Some(false);
              assert IsMain(mods[i + 1]) == Some(true) && IdentOf(mods[i + 1]) == r;
            }
          } else if IdentOf(mods[0]).Some? {
            LastMainWins(mods[1..], IdentOf(mods[0]).value);
            if r.Some? {
              if forall i :: 0 <= i < |mods[1..]| ==> IsMain(mods[1..][i]) == Some(false) {
                assert IdentOf(mods[0]) == r;
              } else {
                var i :| 0 <= i < |mods[1..]| && IsMain(mods[1..][i]) == Some(true) && IdentOf(mods[1..][i]) == r
                  && forall j :: i < j < |mods[1..]| ==> IsMain(mods[1..][j]) == Some(false);
                assert IsMain(mods[i + 1]) == Some(true) && IdentOf(mods[i + 1]) == r;
              }
            }
          }
      }
    }
  }

  /**
   * Ansible mode prints nothing: it returns the dict, holding exactly the fact keys the
   * labels are defined for, with the formatted MAC address and the MAIN module's numbers.
   */
  lemma AnsibleReport(system: Value, login: Value)
    ensures var r := Sysinfo(system, login, "ansible");
      r == Crashed([])
      || (r.Facts? && r.info.Keys == Labels.Keys
          && var hw := Fetch(login, "hardware_info").value;
             MacOf(hw).Some? && r.info["mac_address"] == MacOf(hw).value
             && MainIdent(Iterate(Fetch(hw, "module_list").value).value, NoIdent)
                == Some(Ident(r.info["part_num"], r.info["serial_num"])))
  {
  }

  /** Printing stops at the first line that cannot be read; when none fails all are printed in order. */
  lemma {:induction false} PrintFromAll(lines: seq<Line>, items: seq<Option<Line>>)
    ensures var r := PrintFrom(lines, items);
      !r.Facts?
      && (r.Printed? <==> forall i :: 0 <= i < |items| ==> items[i].Some?)
      && (r.Printed? ==>
            |r.lines| == |lines| + |items| && r.lines[..|lines|] == lines
            && forall i :: 0 <= i < |items| ==> r.lines[|lines| + i] == items[i].value)
    decreases |items|
  {
    if items != [] && items[0].Some? {
      PrintFromAll(lines + [items[0].value], items[1..]);
      assert forall i :: 1 <= i < |items| ==> items[i] == items[1..][i - 1];
      var r := PrintFrom(lines, items);
      if r.Printed? {
        assert r.lines[..|lines|] == r.lines[..|lines| + 1][..|lines|];
      }
    }
  }

  lemma AllSomeAppend(a: seq<Option<Line>>, b: seq<Option<Line>>)
    ensures AllSome(a + b) <==> AllSome(a) && AllSome(b)
  {
    assert forall i :: 0 <= i < |a + b| ==> (a + b)[i] == if i < |a| then a[i] else b[i - |a|];
    if AllSome(a) && AllSome(b) {
      forall i | 0 <= i < |a + b| ensures (a + b)[i].Some? {
        if i >= |a| {
          assert (a + b)[i] == b[i - |a|];
        }
      }
    }
    if AllSome(a + b) {
      forall i | 0 <= i < |b| ensures b[i].Some? {
        assert (a + b)[|a| + i] == b[i];
      }
    }
  }

  /** The display loop completes exactly when the Ansible loop does. */
  lemma {:induction false} ModuleItemsComplete(mods: seq<Value>, cur: Ident)
    ensures AllSome(ModuleItems(mods)) <==> MainIdent(mods, cur).Some?
    decreases |mods|
  {
    if mods != [] {
      var head := ModuleLines(mods[0]);
      var rest := ModuleItems(mods[1..]);
      assert ModuleItems(mods) == head + rest;
      AllSomeAppend(head, rest);
      if IsMain(mods[0]) == Some(true) && IdentOf(mods[0]).Some? {
        assert head == [Shown("part_num", Fetch(mods[0], "part_num")), Shown("serial_num", Fetch(mods[0], "serial_num")), Some(Blank)];
        assert MainIdent(mods, cur) == MainIdent(mods[1..], IdentOf(mods[0]).value);
        ModuleItemsComplete(mods[1..], IdentOf(mods[0]).value);
      } else if IsMain(mods[0]) == Some(false) {
        assert head == [];
        ModuleItemsComplete(mods[1..], cur);
      } else if IsMain(mods[0]).None? {
        assert head[0] == None;
      } else {
        assert head[0] == None || head[1] == None;
      }
    }
  }

  /** A readable MAIN module's part and serial lines are among the display loop's lines. */
  lemma {:induction false} MainModulePrinted(mods: seq<Value>, i: nat)
    requires i < |mods| && IsMain(mods[i]) == Some(true) && IdentOf(mods[i]).Some?
    ensures Some(Labelled(Labels["part_num"], IdentOf(mods[i]).value.part)) in ModuleItems(mods)
    ensures Some(Labelled(Labels["serial_num"], IdentOf(mods[i]).value.serial)) in ModuleItems(mods)
    decreases |mods|
  {
    var head := ModuleLines(mods[0]);
    var rest := ModuleItems(mods[1..]);
    assert ModuleItems(mods) == head + rest;
    if i == 0 {
      assert head[0] in ModuleItems(mods) && head[1] in ModuleItems(mods);
    } else {
      assert mods[i] == mods[1..][i - 1];
      MainModulePrinted(mods[1..], i - 1);
    }
  }

  /** The display output of header and module lines, line by line. */
  lemma PrintedTwoParts(header: seq<Option<Line>>, mods: seq<Option<Line>>)
    ensures var r := PrintFrom([], header + mods);
      !r.Facts?
      && (r.Printed? <==> (forall i :: 0 <= i < |header| ==> header[i].Some?) && (forall i :: 0 <= i < |mods| ==> mods[i].Some?))
      && (r.Printed? ==>
            |r.lines| == |header| + |mods|
            && (forall i :: 0 <= i < |header| ==> r.lines[i] == header[i].value)
            && (forall i :: 0 <= i < |mods| ==> r.lines[|header| + i] == mods[i].value))
  {
    var items := header + mods;
    PrintFromAll([], items);
    assert forall i :: 0 <= i < |header| ==> items[i] == header[i];
    assert forall i :: 0 <= i < |mods| ==> items[|header| + i] == mods[i];
    assert forall i :: 0 <= i < |items| ==> items[i] == if i < |header| then header[i] else mods[i - |header|];
  }

  /**
   * Both modes raise on the same answers, and report the same facts: every fact but the
   * module numbers is printed under its label with the dict's value, and the numbers are
   * printed too unless they stayed blank.
   */
  lemma ModesAgree(system: Value, login: Value, execmode: string)
    requires execmode != "ansible"
    ensures var a := Sysinfo(system, login, "ansible");
      var p := Sysinfo(system, login, execmode);
      !p.Facts?
      && (a.Facts? <==> p.Printed?)
      && (a.Facts? && p.Printed? ==>
            (forall k :: k in Labels && k != "part_num" && k != "serial_num" ==> Labelled(Labels[k], a.info[k]) in p.lines)
            && ((a.info["part_num"] == Str("") && a.info["serial_num"] == Str(""))
                || (Labelled(Labels["part_num"], a.info["part_num"]) in p.lines
                    && Labelled(Labels["serial_num"], a.info["serial_num"]) in p.lines)))
  {
    if Fetch(system, "system_info").Some? && Fetch(system, "ip_config").Some? && Fetch(login, "hardware_info").Some? {
      var sysInfo := Fetch(system, "system_info").value;
      var ipInfo := Fetch(system, "ip_config").value;
      var hw := Fetch(login, "hardware_info").value;
      assert Sysinfo(system, login, "ansible") == AnsibleFacts(sysInfo, ipInfo, hw, system);
      assert Sysinfo(system, login, execmode) == PrintFrom([], HeaderItems(sysInfo, ipInfo, hw, system) + ModuleListItems(hw));
      ModesAgreeOn(sysInfo, ipInfo, hw, system);
    }
  }

  lemma ModesAgreeOn(sysInfo: Value, ipInfo: Value, hw: Value, system: Value)
    ensures var a := AnsibleFacts(sysInfo, ipInfo, hw, system);
      var p := PrintFrom([], HeaderItems(sysInfo, ipInfo, hw, system) + ModuleListItems(hw));
      !p.Facts?
      && (a.Facts? <==> p.Printed?)
      && (a.Facts? && p.Printed? ==>
            (forall k :: k in Labels && k != "part_num" && k != "serial_num" ==> Labelled(Labels[k], a.info[k]) in p.lines)
            && ((a.info["part_num"] == Str("") && a.info["serial_num"] == Str(""))
                || (Labelled(Labels["part_num"], a.info["part_num"]) in p.lines
                    && Labelled(Labels["serial_num"], a.info["serial_num"]) in p.lines)))
  {
    var header := HeaderItems(sysInfo, ipInfo, hw, system);
    PrintedTwoParts(header, ModuleListItems(hw));
    HeaderComplete(sysInfo, ipInfo, hw, system);
    AnsibleFactsOk(sysInfo, ipInfo, hw, system);
    if Fetch(hw, "module_list").Some? && Iterate(Fetch(hw, "module_list").value).Some? {
      var ms := Iterate(Fetch(hw, "module_list").value).value;
      ModuleItemsComplete(ms, NoIdent);
      var a := AnsibleFacts(sysInfo, ipInfo, hw, system);
      var p := PrintFrom([], header + ModuleItems(ms));
      if a.Facts? && p.Printed? {
        HeaderFacts(sysInfo, ipInfo, hw, system, p.lines);
        ModuleFacts(sysInfo, ipInfo, hw, system, ms, |header|, p.lines);
      }
    } else {
      assert ModuleListItems(hw)[0].None?;
    }
  }

  /** Every item has a line. */
  predicate AllSome(items: seq<Option<Line>>) {
    forall i :: 0 <= i < |items| ==> items[i].Some?
  }

  /** The header prints in full exactly when the six facts it shows can be read. */
  lemma HeaderComplete(sysInfo: Value, ipInfo: Value, hw: Value, system: Value)
    ensures AllSome(HeaderItems(sysInfo, ipInfo, hw, system))
      <==> Fetch(sysInfo, "name").Some? && Fetch(sysInfo, "location").Some? && Fetch(sysInfo, "contact_info").Some?
           && Fetch(ipInfo, "ipv4_address").Some? && MacOf(hw).Some? && Fetch(system, "software_version").Some?
  {
    var header := HeaderItems(sysInfo, ipInfo, hw, system);
    if Fetch(sysInfo, "name").Some? && Fetch(sysInfo, "location").Some? && Fetch(sysInfo, "contact_info").Some?
       && Fetch(ipInfo, "ipv4_address").Some? && MacOf(hw).Some? && Fetch(system, "software_version").Some? {
      forall i | 0 <= i < |header| ensures header[i].Some? {
        assert i == 0 || i == 1 || i == 2 || i == 3 || i == 4 || i == 5 || i == 6 || i == 7 || i == 8;
      }
    } else {
      assert header[0].None? || header[1].None? || header[2].None? || header[4].None? || header[5].None? || header[7].None?;
    }
  }

  /** The Ansible branch returns the dict exactly when every fact and the module loop can be read. */
  lemma AnsibleFactsOk(sysInfo: Value, ipInfo: Value, hw: Value, system: Value)
    ensures AnsibleFacts(sysInfo, ipInfo, hw, system).Facts?
      <==> Fetch(sysInfo, "name").Some? && Fetch(sysInfo, "location").Some? && Fetch(sysInfo, "contact_info").Some?
           && Fetch(ipInfo, "ipv4_address").Some? && MacOf(hw).Some? && Fetch(system, "software_version").Some?
           && Fetch(hw, "module_list").Some? && Iterate(Fetch(hw, "module_list").value).Some?
           && MainIdent(Iterate(Fetch(hw, "module_list").value).value, NoIdent).Some?
  {
  }

  lemma HeaderFacts(sysInfo: Value, ipInfo: Value, hw: Value, system: Value, lines: seq<Line>)
    requires AnsibleFacts(sysInfo, ipInfo, hw, system).Facts?
    requires |lines| >= 9
    requires forall i :: 0 <= i < 9 ==> HeaderItems(sysInfo, ipInfo, hw, system)[i] == Some(lines[i])
    ensures var info := AnsibleFacts(sysInfo, ipInfo, hw, system).info;
      forall k :: k in Labels && k != "part_num" && k != "serial_num" ==> Labelled(Labels[k], info[k]) in lines
  {
    var info := AnsibleFacts(sysInfo, ipInfo, hw, system).info;
    var header := HeaderItems(sysInfo, ipInfo, hw, system);
    assert header[0] == Some(lines[0]) && header[1] == Some(lines[1]) && header[2] == Some(lines[2]);
    assert header[4] == Some(lines[4]) && header[5] == Some(lines[5]) && header[7] == Some(lines[7]);
    assert lines[0] == Labelled(Labels["name"], info["name"]);
    assert lines[1] == Labelled(Labels["location"], info["location"]);
    assert lines[2] == Labelled(Labels["contact_info"], info["contact_info"]);
    assert lines[4] == Labelled(Labels["ipv4_address"], info["ipv4_address"]);
    assert lines[5] == Labelled(Labels["mac_address"], info["mac_address"]);
    assert lines[7] == Labelled(Labels["software_version"], info["software_version"]);
  }

  lemma ModuleFacts(sysInfo: Value, ipInfo: Value, hw: Value, system: Value, ms: seq<Value>, n: nat, lines: seq<Line>)
    requires Fetch(hw, "module_list").Some? && Iterate(Fetch(hw, "module_list").value) == Some(ms)
    requires AnsibleFacts(sysInfo, ipInfo, hw, system).Facts?
    requires |lines| == n + |ModuleItems(ms)|
    requires forall i :: 0 <= i < |ModuleItems(ms)| ==> Some(lines[n + i]) == ModuleItems(ms)[i]
    ensures var info := AnsibleFacts(sysInfo, ipInfo, hw, system).info;
      (info["part_num"] == Str("") && info["serial_num"] == Str(""))
      || (Labelled(Labels["part_num"], info["part_num"]) in lines
          && Labelled(Labels["serial_num"], info["serial_num"]) in lines)
  {
    var info := AnsibleFacts(sysInfo, ipInfo, hw, system).info;
    var mods := ModuleItems(ms);
    LastMainWins(ms, NoIdent);
    if !(forall i :: 0 <= i < |ms| ==> IsMain(ms[i]) == Some(false)) {
      var i :| 0 <= i < |ms| && IsMain(ms[i]) == Some(true) && IdentOf(ms[i]) == MainIdent(ms, NoIdent)
        && forall j :: i < j < |ms| ==> IsMain(ms[j]) == Some(false);
      MainModulePrinted(ms, i);
      var xi :| 0 <= xi < |mods| && mods[xi] == Some(Labelled(Labels["part_num"], info["part_num"]));
      var yi :| 0 <= yi < |mods| && mods[yi] == Some(Labelled(Labels["serial_num"], info["serial_num"]));
      assert lines[n + xi] == Labelled(Labels["part_num"], info["part_num"]);
      assert lines[n + yi] == Labelled(Labels["serial_num"], info["serial_num"]);
    }
  }
}
