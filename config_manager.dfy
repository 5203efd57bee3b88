/**
 * The configuration loader of src/config_manager.cpp: an INI text is read
 * line by line, comments and blank lines are skipped, `[section]` lines
 * switch the current section and `key = value` lines assign the settings the
 * section knows. Finding and opening the file is the environment: the loader
 * is given the file's text, or nothing when the file cannot be opened.
 */
module ConfigManager {
  import opened Text

  /** The characters trimmed from keys and values. */
  const BLANKS: set<char> := {' ', '\t'}
  /** The characters trimmed from `allowed_ips` entries. */
  const SPACE: set<char> := {' '}

  /** The settings `load_config` can assign. */
  datatype Settings = Settings(
    serverHost: string, serverPort: int,
    plcIp: string, plcPort: int,
    logLevel: string,
    basicAuth: bool, username: string, password: string,
    ipWhitelist: bool, allowedIps: seq<string>)

  /**
   * The starting settings: the server, controller and logging values are the
   * member initialisers of include/config_manager.h. The five security
   * members have no declaration in that header; they are taken to start
   * false or empty, as zero-initialisation of the static singleton leaves
   * members without an initialiser.
   */
  const DEFAULTS := Settings("0.0.0.0", 8080, "192.168.1.10", 502, "info", false, "", "", false, [])

  /** The (section, key) pairs `load_config` assigns; any other pair is ignored. */
  const KNOWN_KEYS: set<(string, string)> := {
    ("server", "host"), ("server", "port"), ("plc", "ip"), ("plc", "port"), ("logging", "level"),
    ("security", "basic_auth"), ("security", "username"), ("security", "password"),
    ("security", "ip_whitelist"), ("security", "allowed_ips")}

  // ---------------------------------------------------------------------------
  // One line
  // ---------------------------------------------------------------------------

  /** What one line of the file is. */
  datatype Line = Skipped | Header(section: string) | Pair(key: string, value: string) | NoPair

  /** `line` has its first '=' at `i`, and `key` and `value` are the blank-trimmed text on either side. */
  predicate SplitAt(line: string, i: nat, key: string, value: string)
  {
    i < |line| && line[i] == '=' && '=' !in line[..i]
    && key == Trim(line[..i], BLANKS) && value == Trim(line[i + 1..], BLANKS)
  }

  /** The branches of the loop body of `load_config`, in the order it tests them. */
  function ClassifyLine(line: string): (l: Line)
    ensures l.Skipped? <==> line == [] || line[0] == '#'
    ensures l.Header? <==> line != [] && line[0] == '[' && line[|line| - 1] == ']'
    ensures l.Header? ==> |line| >= 2 && l.section == line[1..|line| - 1]
    ensures l.Pair? ==> exists i :: SplitAt(line, i, l.key, l.value)
    ensures l.NoPair? <==> line != [] && line[0] != '#' && !(line[0] == '[' && line[|line| - 1] == ']') && '=' !in line
  {
    if line == [] || line[0] == '#' then Skipped
    else if line[0] == '[' && line[|line| - 1] == ']' then Header(line[1..|line| - 1])
    else match IndexOf(line, '=')
      case None => NoPair
      case Some(i) =>
        assert SplitAt(line, i, Trim(line[..i], BLANKS), Trim(line[i + 1..], BLANKS));
        Pair(Trim(line[..i], BLANKS), Trim(line[i + 1..], BLANKS))
  }

  /** A line that is neither skipped nor a header, with its first '=' at `i`, is split there. */
  lemma PairLineAt(line: string, i: nat)
    requires line != [] && line[0] != '#' && line[0] != '['
    requires i < |line| && line[i] == '=' && '=' !in line[..i]
    ensures ClassifyLine(line) == Pair(Trim(line[..i], BLANKS), Trim(line[i + 1..], BLANKS))
  {
    assert IndexOf(line, '=') == Some(i);
  }

  /**
   * A key without '=' and a value, each written with any blanks around them,
   * read back as that key and value: the split is at the first '=', so the
   * value may itself contain '='.
   */
  lemma PairLineParses(p1: string, key: string, p2: string, p3: string, value: string, p4: string)
    requires AllIn(p1, BLANKS) && AllIn(p2, BLANKS) && AllIn(p3, BLANKS) && AllIn(p4, BLANKS)
    requires key != [] && key[0] !in BLANKS && key[|key| - 1] !in BLANKS && '=' !in key
    requires value == [] || (value[0] !in BLANKS && value[|value| - 1] !in BLANKS)
    requires key[0] != '#' && key[0] != '['
    ensures ClassifyLine(p1 + key + p2 + "=" + p3 + value + p4) == Pair(key, value)
  {
    var line := p1 + key + p2 + "=" + p3 + value + p4;
    var i := |p1 + key + p2|;
    assert line[..i] == p1 + key + p2;
    assert line[i + 1..] == p3 + value + p4;
    assert line[i] == '=';
    assert '=' !in p1 + key + p2 by {
      assert forall k :: 0 <= k < |p1 + key + p2| ==> (p1 + key + p2)[k] in BLANKS || (p1 + key + p2)[k] in key;
    }
    if p1 != [] {
      assert line[0] == p1[0] && p1[0] in BLANKS;
    } else {
      assert line[0] == key[0];
    }
    PairLineAt(line, i);
    TrimOfPadded(p1, key, p2, BLANKS);
    TrimOfPadded(p3, value, p4, BLANKS);
  }

  /** `[name]` switches to section `name`, exactly as written between the brackets. */
  lemma HeaderLineParses(name: string)
    ensures ClassifyLine("[" + name + "]") == Header(name)
  {
    var line := "[" + name + "]";
    assert line[1..|line| - 1] == name;
  }

  // ---------------------------------------------------------------------------
  // Assigning a setting
  // ---------------------------------------------------------------------------

  /** `value == "true" || value == "1"` */
  predicate Flag(value: string)
  {
    value == "true" || value == "1"
  }

  /** A whitelist entry as the loader keeps it: not empty, and no space at either end. */
  predicate IpEntry(ip: string)
  {
    ip != [] && ip[0] != ' ' && ip[|ip| - 1] != ' '
  }

  /** The entries `allowed_ips` keeps from `items`: each trimmed of spaces, empty ones dropped, in order. */
  function TrimmedItems(items: seq<string>): (r: seq<string>)
    ensures |r| <= |items|
    ensures forall i :: 0 <= i < |r| ==> IpEntry(r[i])
  {
    if items == [] then []
    else
      var t := Trim(items[|items| - 1], SPACE);
      TrimIsMiddle(items[|items| - 1], SPACE);
      TrimmedItems(items[..|items| - 1]) + (if t == [] then [] else [t])
  }

  /** The list an `allowed_ips` value sets: its comma-separated items, trimmed, without empty ones. */
  function AllowedIpList(value: string): seq<string>
  {
    TrimmedItems(GetlineItems(value, ','))
  }

  lemma {:induction false} TrimmedItemsOfTrimmed(items: seq<string>)
    requires forall i :: 0 <= i < |items| ==> IpEntry(items[i])
    ensures TrimmedItems(items) == items
  {
    if items != [] {
      var n := |items| - 1;
      var last := items[n];
      var front := items[..n];
      assert IpEntry(last);
      TrimOfTrimmed(last, SPACE);
      assert TrimmedItems(items) == TrimmedItems(front) + [last];
      assert forall i :: 0 <= i < n ==> IpEntry(front[i]) by {
        assert forall i :: 0 <= i < n ==> front[i] == items[i];
      }
      TrimmedItemsOfTrimmed(front);
      assert front + [last] == items;
    }
  }

  /** A list written as its entries joined by commas reads back as that list. */
  lemma AllowedIpListOfJoin(ips: seq<string>)
    requires |ips| >= 1
    requires forall i :: 0 <= i < |ips| ==> IpEntry(ips[i]) && ',' !in ips[i]
    ensures AllowedIpList(Join(ips, ',')) == ips
  {
    PiecesOfJoin(ips, ',');
    assert GetlineItems(Join(ips, ','), ',') == ips;
    TrimmedItemsOfTrimmed(ips);
  }

  /** What assigning `key = value` in `section` does: the new settings, or `stoi` throwing. */
  datatype Assigned = Assigned(settings: Settings) | StoiThrew

  /** The section and key dispatch of `load_config`. */
  function Assign(s: Settings, section: string, key: string, value: string): (r: Assigned)
    ensures (section, key) !in KNOWN_KEYS ==> r == Assigned(s)
    ensures r.StoiThrew? <==> key == "port" && (section == "server" || section == "plc") && !Stoi(value).Parsed?
  {
    if section == "server" then
      if key == "host" then Assigned(s.(serverHost := value))
      else if key == "port" then
        (match Stoi(value) case Parsed(n) => Assigned(s.(serverPort := n)) case _ => StoiThrew)
      else Assigned(s)
    else if section == "plc" then
      if key == "ip" then Assigned(s.(plcIp := value))
      else if key == "port" then
        (match Stoi(value) case Parsed(n) => Assigned(s.(plcPort := n)) case _ => StoiThrew)
      else Assigned(s)
    else if section == "logging" then
      if key == "level" then Assigned(s.(logLevel := value)) else Assigned(s)
    else if section == "security" then
      if key == "basic_auth" then Assigned(s.(basicAuth := Flag(value)))
      else if key == "username" then Assigned(s.(username := value))
      else if key == "password" then Assigned(s.(password := value))
      else if key == "ip_whitelist" then Assigned(s.(ipWhitelist := Flag(value)))
      else if key == "allowed_ips" then Assigned(s.(allowedIps := AllowedIpList(value)))
      else Assigned(s)
    else Assigned(s)
  }

  /** Assigning the same key twice leaves what the second assignment alone would have: the last one wins. */
  lemma AssignLastWins(s: Settings, section: string, key: string, v1: string, v2: string)
    requires Assign(s, section, key, v1).Assigned?
    ensures Assign(Assign(s, section, key, v1).settings, section, key, v2) == Assign(s, section, key, v2)
  {
    if section == "server" && key == "port" {
      assert Stoi(v1).Parsed?;
    } else if section == "plc" && key == "port" {
      assert Stoi(v1).Parsed?;
    }
  }

  /** The two switches are on exactly when their value is "true" or "1", and nothing else changes. */
  lemma SecurityFlags(s: Settings, value: string)
    ensures Assign(s, "security", "basic_auth", value).Assigned?
    ensures Assign(s, "security", "basic_auth", value).settings.basicAuth <==> value == "true" || value == "1"
    ensures Assign(s, "security", "ip_whitelist", value).Assigned?
    ensures Assign(s, "security", "ip_whitelist", value).settings.ipWhitelist <==> value == "true" || value == "1"
    ensures Assign(s, "security", "basic_auth", value).settings.(basicAuth := s.basicAuth) == s
    ensures Assign(s, "security", "ip_whitelist", value).settings.(ipWhitelist := s.ipWhitelist) == s
  {
  }

  /** A port is the number `stoi` reads from the value; a value it cannot read throws. */
  lemma PortValues(s: Settings, section: string, n: nat)
    requires section == "server" || section == "plc"
    requires n <= INT_MAX
    ensures Assign(s, section, "port", NatToString(n)).Assigned?
    ensures section == "server" ==> Assign(s, section, "port", NatToString(n)).settings == s.(serverPort := n)
    ensures section == "plc" ==> Assign(s, section, "port", NatToString(n)).settings == s.(plcPort := n)
    ensures Assign(s, section, "port", "").StoiThrew?
  {
    StoiOfNatToString(n);
  }

  // ---------------------------------------------------------------------------
  // The whole file
  // ---------------------------------------------------------------------------

  /** The loop's state: the settings so far, the current section, and whether `stoi` threw. */
  datatype Scanned = Scanned(settings: Settings, section: string, threw: bool)

  /** One pass of the `while (std::getline(file, line))` loop on a classified line; after a throw nothing more happens. */
  function Step(sc: Scanned, l: Line): Scanned
  {
    if sc.threw then sc
    else match l
      case Skipped => sc
      case NoPair => sc
      case Header(name) => sc.(section := name)
      case Pair(key, value) =>
        match Assign(sc.settings, sc.section, key, value)
        case Assigned(s) => sc.(settings := s)
        case StoiThrew => sc.(threw := true)
  }

  /** The loop over the classified lines `ls`, in order. */
  function Scan(sc: Scanned, ls: seq<Line>): Scanned
  {
    if ls == [] then sc else Step(Scan(sc, ls[..|ls| - 1]), ls[|ls| - 1])
  }

  /** Each line of `lines`, classified. */
  function Classify(lines: seq<string>): (r: seq<Line>)
    ensures |r| == |lines| && forall i :: 0 <= i < |lines| ==> r[i] == ClassifyLine(lines[i])
  {
    seq(|lines|, i requires 0 <= i < |lines| => ClassifyLine(lines[i]))
  }

  /** How `load_config` ends. */
  datatype Outcome = Loaded | CannotOpen | StoiFailed

  /** After the loop: when the last section seen is not "security", both security switches are turned off. */
  function Finish(sc: Scanned): Settings
  {
    if sc.section != "security" then sc.settings.(basicAuth := false, ipWhitelist := false) else sc.settings
  }

  /**
   * `load_config` on `file` (nothing when it cannot be opened), starting from
   * the settings `start`: how it ends, and the settings it leaves. A throw
   * leaves the assignments made before it in place.
   */
  function Load(start: Settings, file: Option<string>): (Outcome, Settings)
  {
    match file
    case None => (CannotOpen, start)
    case Some(text) =>
      var sc := Scan(Scanned(start, "", false), Classify(GetlineItems(text, '\n')));
      if sc.threw then (StoiFailed, sc.settings) else (Loaded, Finish(sc))
  }

  /** Once `stoi` has thrown, later lines change nothing. */
  lemma {:induction false} ScanStopsAtThrow(sc: Scanned, ls: seq<Line>, i: nat)
    requires i <= |ls| && Scan(sc, ls[..i]).threw
    ensures Scan(sc, ls) == Scan(sc, ls[..i])
    decreases |ls| - i
  {
    if i < |ls| {
      assert ls[..i + 1][..i] == ls[..i];
      ScanStopsAtThrow(sc, ls, i + 1);
    } else {
      assert ls[..i] == ls;
    }
  }

  /** Blank lines, comments and lines without '=' change nothing, wherever they appear. */
  lemma {:induction false} IgnoredLinesChangeNothing(sc: Scanned, ls: seq<Line>, ignored: seq<Line>)
    requires forall k :: 0 <= k < |ignored| ==> ignored[k].Skipped? || ignored[k].NoPair?
    ensures Scan(sc, ls + ignored) == Scan(sc, ls)
  {
    if ignored != [] {
      var n := |ignored| - 1;
      assert (ls + ignored)[..|ls| + n] == ls + ignored[..n];
      assert (ls + ignored)[|ls| + n] == ignored[n];
      IgnoredLinesChangeNothing(sc, ls, ignored[..n]);
    } else {
      assert ls + ignored == ls;
    }
  }

  /** The section after the loop is the one the last header line named, if nothing threw. */
  lemma {:induction false} SectionIsLastHeader(sc: Scanned, ls: seq<Line>, j: nat)
    requires j < |ls| && ls[j].Header?
    requires forall k :: j < k < |ls| ==> !ls[k].Header?
    requires !Scan(sc, ls).threw
    ensures Scan(sc, ls).section == ls[j].section
  {
    var n := |ls| - 1;
    if j < n {
      var prefix := ls[..n];
      assert forall k :: j < k < |prefix| ==> prefix[k] == ls[k];
      SectionIsLastHeader(sc, prefix, j);
    }
  }

  /**
   * A file whose last section header is not `[security]` ends with basic
   * authentication and the IP whitelist off, whatever its security section said.
   */
  lemma SecurityMustComeLast(start: Settings, text: string, j: nat)
    requires var lines := GetlineItems(text, '\n');
      j < |lines| && ClassifyLine(lines[j]).Header? && ClassifyLine(lines[j]).section != "security"
      && forall k :: j < k < |lines| ==> !ClassifyLine(lines[k]).Header?
    requires Load(start, Some(text)).0 == Loaded
    ensures !Load(start, Some(text)).1.basicAuth && !Load(start, Some(text)).1.ipWhitelist
  {
    var ls := Classify(GetlineItems(text, '\n'));
    SectionIsLastHeader(Scanned(start, "", false), ls, j);
  }

  /** The same key assigned on two consecutive lines keeps only the second value. */
  lemma RepeatedKeyLastWins(sc: Scanned, key: string, v1: string, v2: string)
    requires !Step(sc, Pair(key, v1)).threw && !Step(sc, Pair(key, v2)).threw
    ensures Step(Step(sc, Pair(key, v1)), Pair(key, v2)) == Step(sc, Pair(key, v2))
  {
    if !sc.threw {
      AssignLastWins(sc.settings, sc.section, key, v1, v2);
      var s1 := Assign(sc.settings, sc.section, key, v1).settings;
      assert Step(sc, Pair(key, v1)) == sc.(settings := s1);
    }
  }

  /**
   * What `is_ip_allowed` answers: with the whitelist off every address
   * passes; otherwise the address must equal an entry without '/' (entries in
   * CIDR form are passed over, never matched).
   */
  predicate Whitelisted(s: Settings, ip: string)
  {
    !s.ipWhitelist || exists i :: 0 <= i < |s.allowedIps| && '/' !in s.allowedIps[i] && s.allowedIps[i] == ip
  }

  // ---------------------------------------------------------------------------
  // The singleton
  // ---------------------------------------------------------------------------

  class ConfigManager {
    var serverHost: string
    var serverPort: int
    var plcIp: string
    var plcPort: int
    var logLevel: string
    /** `basic_auth_enabled_` */
    var basicAuth: bool
    var username: string
    var password: string
    /** `ip_whitelist_enabled_` */
    var ipWhitelist: bool
    /** `allowed_ips_` */
    var allowedIps: seq<string>

    function Current(): Settings
      reads this
    {
      Settings(serverHost, serverPort, plcIp, plcPort, logLevel, basicAuth, username, password, ipWhitelist, allowedIps)
    }

    /** The singleton as first created: the five declared defaults and the assumed security ones. */
    constructor ()
      ensures Current() == DEFAULTS
    {
      serverHost := "0.0.0.0";
      serverPort := 8080;
      plcIp := "192.168.1.10";
      plcPort := 502;
      logLevel := "info";
      basicAuth := false;
      username := "";
      password := "";
      ipWhitelist := false;
      allowedIps := [];
    }

    /** `allowed_ips_.clear()` and the `getline(iss, ip, ',')` loop that refills it. */
    method SetAllowedIps(value: string)
      modifies this`allowedIps
      ensures allowedIps == AllowedIpList(value)
    {
      var items := GetlineItems(value, ',');
      allowedIps := [];
      var i := 0;
      while i < |items|
        invariant 0 <= i <= |items|
        invariant allowedIps == TrimmedItems(items[..i])
      {
        assert items[..i + 1][..i] == items[..i];
        var ip := Trim(items[i], SPACE);
        if ip != [] {
          allowedIps := allowedIps + [ip];
        }
        i := i + 1;
      }
      assert items[..i] == items;
    }

    /** The assignment part of the loop body; `threw` when `stoi` throws, which changes nothing. */
    method SetPair(section: string, key: string, value: string) returns (threw: bool)
      modifies this
      ensures threw <==> Assign(old(Current()), section, key, value).StoiThrew?
      ensures !threw ==> Current() == Assign(old(Current()), section, key, value).settings
      ensures threw ==> Current() == old(Current())
    {
      threw := false;
      if section == "server" {
        if key == "host" {
          serverHost := value;
        } else if key == "port" {
          var n := Stoi(value);
          if !n.Parsed? {
            return true;
          }
          serverPort := n.value;
        }
      } else if section == "plc" {
        if key == "ip" {
          plcIp := value;
        } else if key == "port" {
          var n := Stoi(value);
          if !n.Parsed? {
            return true;
          }
          plcPort := n.value;
        }
      } else if section == "logging" {
        if key == "level" {
          logLevel := value;
        }
      } else if section == "security" {
        if key == "basic_auth" {
          basicAuth := value == "true" || value == "1";
        } else if key == "username" {
          username := value;
        } else if key == "password" {
          password := value;
        } else if key == "ip_whitelist" {
          ipWhitelist := value == "true" || value == "1";
        } else if key == "allowed_ips" {
          SetAllowedIps(value);
        }
      }
    }

    /** One pass of the loop body on a classified line, in section `section`. */
    method ApplyLine(section: string, l: Line) returns (newSection: string, threw: bool)
      modifies this
      ensures Step(Scanned(old(Current()), section, false), l) == Scanned(Current(), newSection, threw)
    {
      newSection, threw := section, false;
      match l
      case Skipped =>
      case NoPair =>
      case Header(name) =>
        newSection := name;
      case Pair(key, value) =>
        threw := SetPair(section, key, value);
    }

    /** `load_config`, given the file's text, or nothing when it cannot be opened. */
    method LoadConfig(file: Option<string>) returns (outcome: Outcome)
      modifies this
      ensures (outcome, Current()) == Load(old(Current()), file)
    {
      if file.None? {
        return CannotOpen;
      }
      var lines := GetlineItems(file.value, '\n');
      ghost var ls := Classify(lines);
      ghost var start := Scanned(Current(), "", false);
      var section := "";
      var threw := false;
      var i := 0;
      while i < |lines| && !threw
        invariant 0 <= i <= |lines|
        invariant Scan(start, ls[..i]) == Scanned(Current(), section, threw)
      {
        assert ls[..i + 1][..i] == ls[..i];
        var l := ClassifyLine(lines[i]);
        assert ls[i] == l;
        section, threw := ApplyLine(section, l);
        i := i + 1;
      }
      if threw {
        ScanStopsAtThrow(start, ls, i);
        return StoiFailed;
      }
      assert ls[..i] == ls;
      if section != "security" {
        basicAuth := false;
        ipWhitelist := false;
      }
      return Loaded;
    }

    /** `is_ip_allowed`: a search of the whitelist in which entries holding '/' are passed over. */
    method IsIpAllowed(ip: string) returns (allowed: bool)
      ensures allowed <==> Whitelisted(Current(), ip)
      ensures '/' in ip ==> (allowed <==> !ipWhitelist)
    {
      if !ipWhitelist {
        return true;
      }
      var i := 0;
      while i < |allowedIps|
        invariant 0 <= i <= |allowedIps|
        invariant forall k :: 0 <= k < i ==> '/' in allowedIps[k] || allowedIps[k] != ip
      {
        if '/' !in allowedIps[i] && ip == allowedIps[i] {
          return true;
        }
        i := i + 1;
      }
      return false;
    }
  }
}
