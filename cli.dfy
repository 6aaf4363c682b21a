/**
 * The command-line front ends the scripts share: the option loop that follows `getopt`, the
 * usage checks that end a script with exit status 2, tag splitting, and the hosts-file
 * parser whose entries' first fields are the addresses the per-host work is started for.
 */
module Cli {
  import opened Text
  import opened Nto

  /** The five scripts with a command line. */
  datatype Script = LldpTag | Ztp | PortGroup | GetConfig | SetConfig

  /** The variables the option loop assigns, with their initial values. */
  datatype Settings = Settings(
    username: string, password: string, host: string, hostsFile: string, port: string,
    keyword: string, tags: seq<string>, name: string, mode: string)

  const Initial := Settings("", "", "", "", "8000", "", [], "", "")

  /** The option letters a script's `elif` chain handles. */
  function Handled(script: Script): set<char> {
    match script
    case LldpTag => {'u', 'p', 't', 'h', 'f', 'r'}
    case Ztp => {'u', 'p', 'k', 'h', 'f', 'r'}
    case PortGroup => {'u', 'p', 't', 'n', 'm', 'h', 'f', 'r'}
    case GetConfig => {'u', 'p', 'k', 'h', 'f', 'r'}
    case SetConfig => {'u', 'p', 'h', 'f', 'r'}
  }

  /** The long form of each option letter. */
  function LongName(c: char): string {
    match c
    case 'u' => "--username"
    case 'p' => "--password"
    case 't' => "--tags"
    case 'k' => "--keyword"
    case 'n' => "--name"
    case 'm' => "--mode"
    case 'h' => "--host"
    case 'f' => "--hosts_file"
    case 'r' => "--port"
    case _ => ""
  }

  /** The option letter `getopt` reported, in its short (`-u`) or long (`--username`) form. */
  function Letter(opt: string): Option<char> {
    if |opt| == 2 && opt[0] == '-' && opt[1] != '-' then Some(opt[1])
    else if opt == "--username" then Some('u')
    else if opt == "--password" then Some('p')
    else if opt == "--tags" then Some('t')
    else if opt == "--keyword" then Some('k')
    else if opt == "--name" then Some('n')
    else if opt == "--mode" then Some('m')
    else if opt == "--host" then Some('h')
    else if opt == "--hosts_file" then Some('f')
    else if opt == "--port" then Some('r')
    else None
  }

  /** `opt in ("-x", "--long")`. */
  predicate Is(opt: string, c: char) {
    Letter(opt) == Some(c)
  }

  /** `arg.split(",")` for the LLDP tagger, `arg.upper().split(",")` for the port grouper. */
  function SplitTags(script: Script, arg: string): seq<string> {
    if script == PortGroup then SplitOn(Upper(arg), ',') else SplitOn(arg, ',')
  }

  /** The branch of the `elif` chain for option letter `c`. */
  function Set(script: Script, s: Settings, c: char, arg: string): Settings {
    match c
    case 'u' => s.(username := arg)
    case 'p' => s.(password := arg)
    case 'k' => s.(keyword := arg)
    case 't' => s.(tags := SplitTags(script, arg))
    case 'n' => s.(name := arg)
    case 'm' => s.(mode := arg)
    case 'h' => s.(host := arg)
    case 'f' => s.(hostsFile := arg)
    case 'r' => s.(port := arg)
    case _ => s
  }

  /** One pass of the option loop: an option the script's chain does not test changes nothing. */
  function Assign(script: Script, s: Settings, opt: string, arg: string): Settings {
    match Letter(opt)
    case Some(c) => if c in Handled(script) then Set(script, s, c, arg) else s
    case None => s
  }

  /** `for opt, arg in opts:` from settings `s`. */
  function AssignAll(script: Script, s: Settings, opts: seq<(string, string)>): Settings
    decreases |opts|
  {
    if opts == [] then s else AssignAll(script, Assign(script, s, opts[0].0, opts[0].1), opts[1..])
  }

  method ParseOptions(script: Script, opts: seq<(string, string)>) returns (s: Settings)
    ensures s == AssignAll(script, Initial, opts)
  {
    s := Initial;
    var h := Handled(script);
    for i := 0 to |opts|
      invariant AssignAll(script, s, opts[i..]) == AssignAll(script, Initial, opts)
    {
      assert opts[i..][1..] == opts[i + 1..];
      var (opt, arg) := opts[i];
      if Is(opt, 'u') {
        s := s.(username := arg);
      } else if Is(opt, 'p') {
        s := s.(password := arg);
      } else if 'k' in h && Is(opt, 'k') {
        s := s.(keyword := arg);
      } else if 't' in h && Is(opt, 't') {
        s := s.(tags := SplitTags(script, arg));
      } else if 'n' in h && Is(opt, 'n') {
        s := s.(name := arg);
      } else if 'm' in h && Is(opt, 'm') {
        s := s.(mode := arg);
      } else if Is(opt, 'h') {
        s := s.(host := arg);
      } else if Is(opt, 'f') {
        s := s.(hostsFile := arg);
      } else if Is(opt, 'r') {
        s := s.(port := arg);
      }
    }
  }

  /** The argument of the last occurrence of an option, if any. */
  function LastArg(opts: seq<(string, string)>, c: char): Option<string>
    decreases |opts|
  {
    if opts == [] then None
    else if Is(opts[|opts| - 1].0, c) then Some(opts[|opts| - 1].1)
    else LastArg(opts[..|opts| - 1], c)
  }

  /** The checks that print the usage line and exit with status 2. */
  predicate UsageError(script: Script, s: Settings) {
    s.username == "" || s.password == ""
    || (s.host == "" && s.hostsFile == "")
    || ((script == LldpTag || script == PortGroup) && |s.tags| == 0)
    || (script == GetConfig && s.keyword == "")
    || (script == PortGroup && (s.name == "" || (s.mode != "net" && s.mode != "lb")))
  }

  /** The exit status the checks end the script with, or none when it goes on. */
  method CheckUsage(script: Script, s: Settings) returns (exit: Option<int>)
    ensures exit.Some? <==> UsageError(script, s)
    ensures exit.Some? ==> exit.value == 2
  {
    if s.username == "" {
      return Some(2);
    }
    if s.password == "" {
      return Some(2);
    }
    if script == GetConfig && s.keyword == "" {
      return Some(2);
    }
    if s.host == "" && s.hostsFile == "" {
      return Some(2);
    }
    if (script == LldpTag || script == PortGroup) && |s.tags| == 0 {
      return Some(2);
    }
    if script == PortGroup && s.name == "" {
      return Some(2);
    }
    if script == PortGroup && s.mode != "net" && s.mode != "lb" {
      return Some(2);
    }
    return None;
  }

  // ---------------------------------------------------------------------------------------
  // The hosts file

  /** What one line of the hosts file contributes: its fields, unless blank or a comment. */
  function HostEntry(line: string): Option<seq<string>> {
    var t := Strip(line);
    if t == "" || t[0] == '#' then None else Some(SplitOn(t, ' '))
  }

  /** The entries of a hosts file, in file order. */
  function HostEntries(lines: seq<string>): seq<seq<string>>
    decreases |lines|
  {
    if lines == [] then []
    else
      var init := HostEntries(lines[..|lines| - 1]);
      match HostEntry(lines[|lines| - 1])
      case None => init
      case Some(e) => init + [e]
  }

  /** `hosts_list`: the file's entries when a file is named, otherwise the one host twice. */
  function HostsList(s: Settings, fileLines: seq<string>): seq<seq<string>> {
    if s.hostsFile != "" then HostEntries(fileLines) else [[s.host, s.host]]
  }

  /** Building `hosts_list`; the file's lines are a parameter. */
  method ReadHosts(s: Settings, fileLines: seq<string>) returns (hosts: seq<seq<string>>)
    ensures hosts == HostsList(s, fileLines)
  {
    hosts := [];
    if s.hostsFile != "" {
      for i := 0 to |fileLines|
        invariant hosts == HostEntries(fileLines[..i])
      {
        assert fileLines[..i + 1][..i] == fileLines[..i];
        var line := Strip(fileLines[i]);
        if line != "" && line[0] != '#' {
          hosts := hosts + [SplitOn(line, ' ')];
        }
      }
      assert fileLines[..|fileLines|] == fileLines;
    } else {
      hosts := hosts + [[s.host, s.host]];
    }
  }

  /** `host[0]` for each entry: the addresses the work is started for. */
  function Addresses(hosts: seq<seq<string>>): seq<string>
    requires forall i :: 0 <= i < |hosts| ==> |hosts[i]| >= 1
  {
    seq(|hosts|, i requires 0 <= i < |hosts| => hosts[i][0])
  }

  // ---------------------------------------------------------------------------------------
  // Properties

  /** The variable a textual option letter assigns. */
  function Value(s: Settings, c: char): string {
    match c
    case 'u' => s.username
    case 'p' => s.password
    case 'k' => s.keyword
    case 'n' => s.name
    case 'm' => s.mode
    case 'h' => s.host
    case 'f' => s.hostsFile
    case 'r' => s.port
    case _ => ""
  }

  /** The options of a script whose argument is stored as given. */
  predicate Textual(script: Script, c: char) {
    c in Handled(script) && c != 't'
  }

  /** One pass of the chain sets the variable of the option it meets and leaves the others. */
  lemma AssignValue(script: Script, s: Settings, opt: string, arg: string, c: char)
    requires Textual(script, c)
    ensures Value(Assign(script, s, opt, arg), c) == if Is(opt, c) then arg else Value(s, c)
    ensures Assign(script, s, opt, arg).tags
      == if 't' in Handled(script) && Is(opt, 't') then SplitTags(script, arg) else s.tags
  {
  }

  /**
   * The last occurrence of an option decides its variable; without one the variable keeps
   * its value. The tag option does the same through `SplitTags`.
   */
  lemma {:induction false} LastOptionWins(script: Script, s: Settings, opts: seq<(string, string)>, c: char)
    requires Textual(script, c)
    ensures var r := AssignAll(script, s, opts);
      Value(r, c) == (if LastArg(opts, c).Some? then LastArg(opts, c).value else Value(s, c))
      && r.tags == (if 't' in Handled(script) && LastArg(opts, 't').Some?
                    then SplitTags(script, LastArg(opts, 't').value) else s.tags)
    decreases |opts|
  {
    if opts != [] {
      var last := opts[|opts| - 1];
      var init := opts[..|opts| - 1];
      assert init + [last] == opts;
      AssignAllSnoc(script, s, init, last);
      LastOptionWins(script, s, init, c);
      AssignValue(script, AssignAll(script, s, init), last.0, last.1, c);
    }
  }

  lemma {:induction false} AssignAllSnoc(script: Script, s: Settings, opts: seq<(string, string)>, o: (string, string))
    ensures AssignAll(script, s, opts + [o]) == Assign(script, AssignAll(script, s, opts), o.0, o.1)
    decreases |opts|
  {
    if opts == [] {
      assert [o][1..] == [];
    } else {
      assert (opts + [o])[1..] == opts[1..] + [o];
      AssignAllSnoc(script, Assign(script, s, opts[0].0, opts[0].1), opts[1..], o);
    }
  }

  /**
   * Splitting never yields an empty tag list, so the tag check stops the LLDP tagger and the
   * port grouper only when no tag option was given at all: `-t ""` passes it with the one
   * tag `""`.
   */
  lemma TagCheckOnlyWithoutOption(script: Script, opts: seq<(string, string)>)
    requires script == LldpTag || script == PortGroup
    ensures var r := AssignAll(script, Initial, opts);
      |r.tags| == 0 <==> LastArg(opts, 't').None?
  {
    LastOptionWins(script, Initial, opts, 'u');
  }

  /**
   * The LLDP tagger keeps each tag as typed; the port grouper upper-cases them. Either way
   * joining the tags with commas gives back the argument (upper-cased for the grouper), and
   * no tag holds a comma.
   */
  lemma TagsRoundTrip(script: Script, arg: string)
    ensures var ts := SplitTags(script, arg);
      Join(ts, ',') == (if script == PortGroup then Upper(arg) else arg)
      && forall i :: 0 <= i < |ts| ==> ',' !in ts[i]
  {
    if script == PortGroup {
      JoinSplit(Upper(arg), ',');
      SplitPiecesFree(Upper(arg), ',');
    } else {
      JoinSplit(arg, ',');
      SplitPiecesFree(arg, ',');
    }
  }

  /** The port grouper's tags are upper case. */
  lemma GroupTagsUpper(arg: string)
    ensures forall i, j :: 0 <= i < |SplitTags(PortGroup, arg)| && 0 <= j < |SplitTags(PortGroup, arg)[i]| ==>
      UpperChar(SplitTags(PortGroup, arg)[i][j]) == SplitTags(PortGroup, arg)[i][j]
  {
    SplitUpper(Upper(arg), ',');
  }

  lemma {:induction false} SplitUpper(s: string, c: char)
    requires forall k :: 0 <= k < |s| ==> UpperChar(s[k]) == s[k]
    ensures forall i, j :: 0 <= i < |SplitOn(s, c)| && 0 <= j < |SplitOn(s, c)[i]| ==>
      UpperChar(SplitOn(s, c)[i][j]) == SplitOn(s, c)[i][j]
    decreases |s|
  {
    if s != [] {
      SplitUpper(s[1..], c);
      var rest := SplitOn(s[1..], c);
      var r := SplitOn(s, c);
      if s[0] == c {
        assert forall i :: 1 <= i < |r| ==> r[i] == rest[i - 1];
      } else {
        assert r[0] == [s[0]] + rest[0];
        assert forall i :: 1 <= i < |r| ==> r[i] == rest[i];
        forall j | 0 <= j < |r[0]| ensures UpperChar(r[0][j]) == r[0][j] {
          if j > 0 {
            assert r[0][j] == rest[0][j - 1];
          }
        }
      }
    }
  }

  /** The last line contributes at most its own entry. */
  lemma HostEntriesLast(lines: seq<string>)
    requires lines != []
    ensures var last := HostEntry(lines[|lines| - 1]);
      HostEntries(lines) == HostEntries(lines[..|lines| - 1]) + (if last.Some? then [last.value] else [])
  {
  }

  /** Every entry of a hosts file comes from a line that is neither blank nor a comment once stripped. */
  lemma {:induction false} HostEntriesFromLines(lines: seq<string>)
    ensures forall e :: e in HostEntries(lines) ==> exists i :: 0 <= i < |lines| && HostEntry(lines[i]) == Some(e)
    decreases |lines|
  {
    if lines != [] {
      var n := |lines| - 1;
      var init := lines[..n];
      HostEntriesFromLines(init);
      HostEntriesLast(lines);
      forall e | e in HostEntries(lines)
        ensures exists i :: 0 <= i < |lines| && HostEntry(lines[i]) == Some(e)
      {
        if e in HostEntries(init) {
          var i :| 0 <= i < |init| && HostEntry(init[i]) == Some(e);
          assert init[i] == lines[i];
        } else {
          assert HostEntry(lines[n]) == Some(e);
        }
      }
    }
  }

  /** Every line that is neither blank nor a comment once stripped yields an entry: its space-separated fields. */
  lemma {:induction false} LinesGiveHostEntries(lines: seq<string>)
    ensures forall i :: 0 <= i < |lines| && HostEntry(lines[i]).Some? ==> HostEntry(lines[i]).value in HostEntries(lines)
    decreases |lines|
  {
    if lines != [] {
      var n := |lines| - 1;
      var init := lines[..n];
      LinesGiveHostEntries(init);
      HostEntriesLast(lines);
      forall i | 0 <= i < |lines| && HostEntry(lines[i]).Some?
        ensures HostEntry(lines[i]).value in HostEntries(lines)
      {
        if i < n {
          assert init[i] == lines[i];
          assert HostEntry(init[i]).value in HostEntries(init);
        }
      }
    }
  }

  /** A hosts file yields an entry exactly for each line that is neither blank nor a comment once stripped. */
  lemma HostEntriesMembers(lines: seq<string>)
    ensures forall e :: e in HostEntries(lines) <==> exists i :: 0 <= i < |lines| && HostEntry(lines[i]) == Some(e)
  {
    HostEntriesFromLines(lines);
    LinesGiveHostEntries(lines);
  }

  /** Each entry has at least one field, and its fields joined by spaces are a stripped line of the file. */
  lemma HostEntriesRoundTrip(lines: seq<string>)
    ensures forall e :: e in HostEntries(lines) ==>
      |e| >= 1 && exists i :: 0 <= i < |lines| && Join(e, ' ') == Strip(lines[i])
  {
    HostEntriesMembers(lines);
    forall e | e in HostEntries(lines)
      ensures |e| >= 1 && exists i :: 0 <= i < |lines| && Join(e, ' ') == Strip(lines[i])
    {
      var i :| 0 <= i < |lines| && HostEntry(lines[i]) == Some(e);
      JoinSplit(Strip(lines[i]), ' ');
    }
  }

  /**
   * Every address is non-empty and starts with neither whitespace nor `#`; without a hosts
   * file the one address is the `-h` host.
   */
  lemma AddressesWellFormed(s: Settings, fileLines: seq<string>)
    ensures var hosts := HostsList(s, fileLines);
      (forall i :: 0 <= i < |hosts| ==> |hosts[i]| >= 1)
      && (forall i :: 0 <= i < |hosts| ==> s.hostsFile != "" ==>
            hosts[i][0] != "" && !IsSpace(hosts[i][0][0]) && hosts[i][0][0] != '#')
      && (s.hostsFile == "" ==> Addresses(hosts) == [s.host])
  {
    var hosts := HostsList(s, fileLines);
    if s.hostsFile != "" {
      HostEntriesMembers(fileLines);
      forall i | 0 <= i < |hosts|
        ensures |hosts[i]| >= 1 && hosts[i][0] != "" && !IsSpace(hosts[i][0][0]) && hosts[i][0][0] != '#'
      {
        assert hosts[i] in hosts;
        var j :| 0 <= j < |fileLines| && HostEntry(fileLines[j]) == Some(hosts[i]);
        var t := Strip(fileLines[j]);
        assert IsSpace(' ');
        FirstPieceNonEmpty(t, ' ');
      }
    }
  }
}
