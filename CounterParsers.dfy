/** The counter parsers and discovery filters of DataProcessor: each turns the lines a
    shell read printed into a value, with a fixed fallback when nothing was read. The
    shell itself is an input: `Shell` maps a command line to the lines it prints, and an
    unreadable path prints none. */
module CounterParsers {
  import opened JavaLang

  type Shell = string -> seq<string>

  /** DataProcessor.rootAccess, the prefix of every shell command. */
  const RootAccess: string := ""

  /** "%s cat %s" */
  function CatCommand(path: string): string { RootAccess + " cat " + path }

  /** "%s ls %s" */
  function ListCommand(dir: string): string { RootAccess + " ls " + dir }

  /** "%s ls %s | grep 'cpu[0-9]'" */
  function ListCpuCommand(dir: string): string { RootAccess + " ls " + dir + " | grep 'cpu[0-9]'" }

  const TopCommand: string := "top -s 6"

  /** The unchecked exception that ends a sampling pass: an index past the end of a list. */
  datatype Result<T> = Ok(value: T) | IndexOutOfBounds

  // ---------------------------------------------------------------- single-value parsers

  /** What `Integer.parseInt`/`Float.parseFloat` need of a first line that was read. */
  predicate FirstLineNumeric(lines: seq<string>)
  {
    |lines| > 0 ==> IsIntLiteral(lines[0])
  }

  /** getThermalZoneTemp: millidegrees, negative readings clamped to 0, divided by 1000;
      -1 when nothing was read. */
  function ThermalZoneTemp(lines: seq<string>): (celsius: real)
    requires FirstLineNumeric(lines)
    ensures celsius == -1.0 <==> |lines| == 0
    ensures |lines| > 0 ==> celsius >= 0.0 && celsius * 1000.0 == Max(0, IntValue(lines[0])) as real
  {
    if |lines| == 0 then -1.0
    else
      var milli := IntValue(lines[0]);
      (if milli < 0 then 0 else milli) as real / 1000.0
  }

  /** getThermalZoneType: the first line, or "default_zone_type" when nothing was read. */
  function ThermalZoneType(lines: seq<string>): string
  {
    if |lines| > 0 then lines[0] else "default_zone_type"
  }

  /** getCPUFrequency: scaling_cur_freq divided by 1,000,000; 0 when nothing was read. */
  function CpuFrequency(lines: seq<string>): (f: real)
    requires FirstLineNumeric(lines)
    ensures |lines| == 0 ==> f == 0.0
    ensures |lines| > 0 ==> f * 1000000.0 == IntValue(lines[0]) as real
  {
    if |lines| == 0 then 0.0 else IntValue(lines[0]) as real / 1000000.0
  }

  /** getGPUFrequency: the reading divided by 1000; 0 when nothing was read. */
  function GpuFrequency(lines: seq<string>): (f: real)
    requires FirstLineNumeric(lines)
    ensures |lines| == 0 ==> f == 0.0
    ensures |lines| > 0 ==> f * 1000.0 == IntValue(lines[0]) as real
  {
    if |lines| == 0 then 0.0 else IntValue(lines[0]) as real / 1000.0
  }

  /** What `Float.parseFloat(line.split("%")[0])` needs: a first field, and a number in it. */
  predicate UtilizationReadable(lines: seq<string>)
  {
    |lines| > 0 ==>
      var f := Split(lines[0], '%');
      |f| > 0 && IsIntLiteral(f[0])
  }

  /** getGPUUtilization: the number before the first '%' (the whole line when it has none);
      -1 when nothing was read. */
  function GpuUtilization(lines: seq<string>): (u: real)
    requires UtilizationReadable(lines)
    ensures |lines| == 0 ==> u == -1.0
    ensures |lines| > 0 ==> IsIntLiteral(TakeUntil(lines[0], '%')) && u == IntValue(TakeUntil(lines[0], '%')) as real
    ensures |lines| > 0 && '%' !in lines[0] ==> u == IntValue(lines[0]) as real
  {
    if |lines| == 0 then -1.0
    else
      SplitFirst(lines[0], '%');
      IntValue(Split(lines[0], '%')[0]) as real
  }

  // ---------------------------------------------------------------- CPU utilization

  /** The process whose row of `top` is looked for. */
  const ProcessTag: string := "org.tensorflow"

  /** The text with every run of spaces shortened to a single space. */
  function Squeeze(s: string): (r: string)
    ensures |s| > 0 ==> |r| > 0 && r[0] == s[0]
    ensures |r| <= |s|
  {
    if |s| < 2 then s
    else if s[0] == ' ' && s[1] == ' ' then Squeeze(s[1..])
    else [s[0]] + Squeeze(s[1..])
  }

  lemma {:induction false} SqueezeHasNoDoubleSpace(s: string)
    ensures !Contains(Squeeze(s), "  ")
    decreases |s|
  {
    if |s| >= 2 {
      SqueezeHasNoDoubleSpace(s[1..]);
      if !(s[0] == ' ' && s[1] == ' ') {
        var r := Squeeze(s);
        assert r[1..] == Squeeze(s[1..]);
        assert r[..2] != "  " by {
          if |r| >= 2 {
            assert r[1] == s[1];
          }
        }
      }
    }
  }

  lemma {:induction false} SqueezeWithoutDoubleSpace(s: string)
    requires !Contains(s, "  ")
    ensures Squeeze(s) == s
    decreases |s|
  {
    if |s| >= 2 {
      assert s[..2] != "  ";
      assert !Contains(s[1..], "  ");
      SqueezeWithoutDoubleSpace(s[1..]);
      assert [s[0]] + s[1..] == s;
    }
  }

  /** One `replace("  ", " ")` pass shortens the text while it holds a double space. */
  lemma {:induction false} ReplaceShortens(s: string)
    ensures |Replace(s, "  ", " ")| <= |s|
    ensures Contains(s, "  ") ==> |Replace(s, "  ", " ")| < |s|
    decreases |s|
  {
    if |s| >= 2 {
      if s[..2] == "  " {
        ReplaceShortens(s[2..]);
      } else {
        ReplaceShortens(s[1..]);
      }
    }
  }

  lemma SqueezeTwoSpaces(x: string)
    ensures Squeeze("  " + x) == Squeeze(" " + x)
  {
    assert ("  " + x)[1..] == " " + x;
  }

  lemma SqueezeNonSpace(c: char, x: string)
    requires c != ' '
    ensures Squeeze([c] + x) == [c] + Squeeze(x)
  {
    assert ([c] + x)[1..] == x;
  }

  lemma SqueezeSpaceNonSpace(x: string)
    requires |x| > 0 && x[0] != ' '
    ensures Squeeze(" " + x) == " " + Squeeze(x)
  {
    assert (" " + x)[1..] == x;
  }

  lemma ReplaceKeepsNonSpaceHead(t: string)
    requires |t| > 0 && t[0] != ' '
    ensures |Replace(t, "  ", " ")| > 0 && Replace(t, "  ", " ")[0] == t[0]
  {
    if |t| >= 2 {
      assert t[..2] != "  ";
    }
  }

  /** One `replace("  ", " ")` pass does not change what squeezing gives, with or without
      a space in front. */
  lemma {:induction false} SqueezeOfReplace(s: string)
    ensures Squeeze(Replace(s, "  ", " ")) == Squeeze(s)
    ensures Squeeze(" " + Replace(s, "  ", " ")) == Squeeze(" " + s)
    decreases |s|
  {
    if |s| < 2 {
      assert Replace(s, "  ", " ") == s;
    } else if s[..2] == "  " {
      var t := s[2..];
      SqueezeOfReplace(t);
      assert Replace(s, "  ", " ") == " " + Replace(t, "  ", " ");
      assert s == "  " + t;
      SqueezeTwoSpaces(t);
      SqueezeTwoSpaces(Replace(t, "  ", " "));
      assert " " + s == "  " + (" " + t);
      SqueezeTwoSpaces(" " + t);
    } else {
      var t := s[1..];
      var rt := Replace(t, "  ", " ");
      SqueezeOfReplace(t);
      assert Replace(s, "  ", " ") == [s[0]] + rt;
      assert s == [s[0]] + t;
      if s[0] != ' ' {
        SqueezeNonSpace(s[0], rt);
        SqueezeNonSpace(s[0], t);
        SqueezeSpaceNonSpace([s[0]] + rt);
        SqueezeSpaceNonSpace(s);
      } else {
        assert t[0] != ' ';
        ReplaceKeepsNonSpaceHead(t);
        SqueezeSpaceNonSpace(rt);
        SqueezeSpaceNonSpace(t);
        assert " " + Replace(s, "  ", " ") == "  " + rt;
        SqueezeTwoSpaces(rt);
        assert " " + s == "  " + t;
        SqueezeTwoSpaces(t);
      }
    }
  }

  /** Index of the first line holding `tag`, or the number of lines when none does. */
  function FirstContaining(lines: seq<string>, tag: string): (k: nat)
    ensures k <= |lines|
    ensures k < |lines| ==> Contains(lines[k], tag)
    ensures forall j :: 0 <= j < k ==> !Contains(lines[j], tag)
  {
    if |lines| == 0 then 0
    else if Contains(lines[0], tag) then 0
    else 1 + FirstContaining(lines[1..], tag)
  }

  /** `list.get(list.size() - 4)` */
  function FourthFromLast(fields: seq<string>): Result<string>
  {
    if |fields| >= 4 then Ok(fields[|fields| - 4]) else IndexOutOfBounds
  }

  lemma FourthFromLastIsField(fields: seq<string>)
    requires FourthFromLast(fields).Ok?
    ensures FourthFromLast(fields).value in fields
  {
  }

  /** getCPUUtilization stated without its loops: the fourth-from-last comma field of the
      first `top` row naming the process, once runs of spaces are squeezed and spaces
      become commas; "-1" when no row names it. */
  function CpuUtilizationOf(topLines: seq<string>): Result<string>
  {
    var k := FirstContaining(topLines, ProcessTag);
    if k == |topLines| then FourthFromLast(["-1", "-1", "-1", "-1"])
    else FourthFromLast(Split(ReplaceChar(Squeeze(topLines[k]), ' ', ','), ','))
  }

  /** getCPUUtilization over the lines `top -s 6` printed. */
  method CpuUtilization(topLines: seq<string>) returns (r: Result<string>)
    ensures r == CpuUtilizationOf(topLines)
  {
    var i := 0;
    var found := false;
    var row := "";
    while i < |topLines| && !found
      invariant 0 <= i <= |topLines|
      invariant !found ==> forall j :: 0 <= j < i ==> !Contains(topLines[j], ProcessTag)
      invariant found ==> 0 < i && FirstContaining(topLines, ProcessTag) == i - 1
      invariant found ==> row == ReplaceChar(Squeeze(topLines[i - 1]), ' ', ',')
    {
      var line := topLines[i];
      if Contains(line, ProcessTag) {
        // collapse runs of spaces, one replace pass at a time
        while Contains(line, "  ")
          invariant Squeeze(line) == Squeeze(topLines[i])
          decreases |line|
        {
          ReplaceShortens(line);
          SqueezeOfReplace(line);
          line := Replace(line, "  ", " ");
        }
        SqueezeWithoutDoubleSpace(line);
        row := ReplaceChar(line, ' ', ',');
        found := true;
      }
      i := i + 1;
    }
    if found {
      r := FourthFromLast(Split(row, ','));
    } else {
      r := FourthFromLast(["-1", "-1", "-1", "-1"]);
    }
  }

  /** Without a row naming the process the result is "-1". */
  lemma CpuUtilizationFallback(topLines: seq<string>)
    requires forall j :: 0 <= j < |topLines| ==> !Contains(topLines[j], ProcessTag)
    ensures CpuUtilizationOf(topLines) == Ok("-1")
  {
    assert FirstContaining(topLines, ProcessTag) == |topLines|;
  }

  lemma {:induction false} PiecesChars(s: string, d: char, c: char)
    requires c !in s
    ensures forall k :: 0 <= k < |Pieces(s, d)| ==> c !in Pieces(s, d)[k]
    decreases |s|
  {
    if |s| > 0 {
      PiecesChars(s[1..], d, c);
    }
  }

  /** No field of a split holds the delimiter, nor any character the text lacks. */
  lemma SplitFields(s: string, d: char, c: char)
    requires c !in s
    ensures forall k :: 0 <= k < |Split(s, d)| ==> d !in Split(s, d)[k] && c !in Split(s, d)[k]
  {
    if d in s {
      NoDelimiterInPieces(s, d);
      PiecesChars(s, d, c);
    }
  }

  /** A value read from a process row is one whole field: it holds neither a comma nor a
      space. */
  lemma CpuUtilizationIsOneField(topLines: seq<string>)
    requires FirstContaining(topLines, ProcessTag) < |topLines|
    requires CpuUtilizationOf(topLines).Ok?
    ensures ' ' !in CpuUtilizationOf(topLines).value
    ensures ',' !in CpuUtilizationOf(topLines).value
  {
    var k := FirstContaining(topLines, ProcessTag);
    var row := ReplaceChar(Squeeze(topLines[k]), ' ', ',');
    ReplaceCharRemoves(Squeeze(topLines[k]), ' ', ',');
    var fields := Split(row, ',');
    SplitFields(row, ',', ' ');
    assert CpuUtilizationOf(topLines) == FourthFromLast(fields);
    FourthFromLastIsField(fields);
  }

  // ---------------------------------------------------------------- time_in_state tables

  /** A time_in_state line whose second space-separated field parses: what getPolicyTimes needs. */
  predicate ResidencyTimeReadable(line: string)
  {
    var f := Split(line, ' ');
    |f| >= 2 && IsIntLiteral(f[1])
  }

  /** A time_in_state line whose frequency and time both parse: what getCPUPolicyHeaders needs. */
  predicate ResidencyLineReadable(line: string)
  {
    ResidencyTimeReadable(line) && IsIntLiteral(Split(line, ' ')[0])
  }

  /** The time field of a time_in_state line, divided by 1000. */
  function ResidencySeconds(line: string): real
    requires ResidencyTimeReadable(line)
  {
    IntValue(Split(line, ' ')[1]) as real / 1000.0
  }

  /** The frequency field of a time_in_state line, divided by 1,000,000. */
  function ResidencyFrequency(line: string): real
    requires ResidencyLineReadable(line)
  {
    IntValue(Split(line, ' ')[0]) as real / 1000000.0
  }

  /** One cluster's residency: a seconds value per line, then the -1 that marks the end of
      the cluster. */
  function ResidencyTable(lines: seq<string>): (t: seq<real>)
    requires forall k :: 0 <= k < |lines| ==> ResidencyTimeReadable(lines[k])
    ensures |t| == |lines| + 1 && t[|lines|] == -1.0
    ensures forall k :: 0 <= k < |lines| ==> t[k] == ResidencySeconds(lines[k])
  {
    seq(|lines|, k requires 0 <= k < |lines| => ResidencySeconds(lines[k])) + [-1.0]
  }

  /** getPolicyTimes over the lines of one time_in_state file. */
  method PolicyTimes(lines: seq<string>) returns (times: seq<real>)
    requires forall k :: 0 <= k < |lines| ==> ResidencyTimeReadable(lines[k])
    ensures times == ResidencyTable(lines)
  {
    times := [];
    var i := 0;
    while i < |lines|
      invariant 0 <= i <= |lines|
      invariant |times| == i
      invariant forall k :: 0 <= k < i ==> times[k] == ResidencySeconds(lines[k])
    {
      times := times + [ResidencySeconds(lines[i])];
      i := i + 1;
    }
    times := times + [-1.0];
  }

  // ---------------------------------------------------------------- discovery

  /** getThermalZoneFilePaths keeps a directory entry iff its name contains "thermal_zone". */
  predicate IsThermalZoneEntry(name: string)
  {
    Contains(name, "thermal_zone")
  }

  /** getCPUDeviceFiles keeps an entry iff the whole name matches `cpu[0-9]`. */
  predicate IsCpuDeviceEntry(name: string)
  {
    |name| == 4 && name[..3] == "cpu" && IsDigit(name[3])
  }

  /** `dir + "/" + name + "/"` */
  function EntryPath(dir: string, name: string): string
  {
    dir + "/" + name + "/"
  }

  /** The paths of the kept entries, in listing order. */
  function KeptPaths(dir: string, names: seq<string>, keep: string -> bool): seq<string>
  {
    if |names| == 0 then []
    else
      var last := names[|names| - 1];
      KeptPaths(dir, names[..|names| - 1], keep) + (if keep(last) then [EntryPath(dir, last)] else [])
  }

  /** A path is discovered iff it is the path of an entry the filter keeps. */
  lemma {:induction false} KeptPathsMembers(dir: string, names: seq<string>, keep: string -> bool, p: string)
    ensures p in KeptPaths(dir, names, keep) <==>
            exists k :: 0 <= k < |names| && keep(names[k]) && p == EntryPath(dir, names[k])
    decreases |names|
  {
    if |names| > 0 {
      var init := names[..|names| - 1];
      KeptPathsMembers(dir, init, keep, p);
      if p in KeptPaths(dir, init, keep) {
        var k :| 0 <= k < |init| && keep(init[k]) && p == EntryPath(dir, init[k]);
        assert names[k] == init[k];
      }
      if exists k :: 0 <= k < |names| && keep(names[k]) && p == EntryPath(dir, names[k]) {
        var k :| 0 <= k < |names| && keep(names[k]) && p == EntryPath(dir, names[k]);
        if k < |init| {
          assert init[k] == names[k];
        }
      }
    }
  }

  /** Discovery keeps the listing order: the paths of a longer listing extend those of its
      first part. */
  lemma {:induction false} KeptPathsAppend(dir: string, a: seq<string>, b: seq<string>, keep: string -> bool)
    ensures KeptPaths(dir, a + b, keep) == KeptPaths(dir, a, keep) + KeptPaths(dir, b, keep)
    decreases |b|
  {
    if |b| > 0 {
      var b' := b[..|b| - 1];
      assert (a + b)[..|a + b| - 1] == a + b';
      KeptPathsAppend(dir, a, b', keep);
    } else {
      assert a + b == a;
    }
  }

  /** getThermalZoneFilePaths over the listing of `dir`. */
  method ThermalZoneFilePaths(dir: string, shell: Shell) returns (paths: seq<string>)
    ensures paths == KeptPaths(dir, shell(ListCommand(dir)), IsThermalZoneEntry)
  {
    var names := shell(ListCommand(dir));
    paths := [];
    var i := 0;
    while i < |names|
      invariant 0 <= i <= |names|
      invariant paths == KeptPaths(dir, names[..i], IsThermalZoneEntry)
    {
      if Contains(names[i], "thermal_zone") {
        paths := paths + [EntryPath(dir, names[i])];
      }
      assert names[..i + 1][..i] == names[..i];
      i := i + 1;
    }
    assert names[..i] == names;
  }

  /** getCPUDeviceFiles over the listing of `dir`. */
  method CpuDeviceFiles(dir: string, shell: Shell) returns (paths: seq<string>)
    ensures paths == KeptPaths(dir, shell(ListCpuCommand(dir)), IsCpuDeviceEntry)
  {
    var names := shell(ListCpuCommand(dir));
    paths := [];
    var i := 0;
    while i < |names|
      invariant 0 <= i <= |names|
      invariant paths == KeptPaths(dir, names[..i], IsCpuDeviceEntry)
    {
      if IsCpuDeviceEntry(names[i]) {
        paths := paths + [EntryPath(dir, names[i])];
      }
      assert names[..i + 1][..i] == names[..i];
      i := i + 1;
    }
    assert names[..i] == names;
  }

  /** `matches("cpu[0-9]")` is a whole-name match: "cpu" followed by exactly one digit. */
  lemma CpuDeviceEntryShape(name: string)
    ensures IsCpuDeviceEntry(name) <==> exists c :: IsDigit(c) && name == "cpu" + [c]
  {
    if IsCpuDeviceEntry(name) {
      assert name == "cpu" + [name[3]];
    }
  }

  /** The last segment of a directory path (the text after its last '/'). */
  function LastSegment(dir: string): string
  {
    var p := Pieces(dir, '/');
    p[|p| - 1]
  }

  lemma {:induction false} EntryPathSplit(dir: string, name: string)
    requires name != "" && '/' !in name
    ensures Split(EntryPath(dir, name), '/') == Pieces(dir, '/') + [name]
  {
    var path := EntryPath(dir, name);
    assert path == (dir + ['/'] + name) + ['/'] + "";
    PiecesAround(dir + ['/'] + name, '/', "");
    PiecesAround(dir, '/', name);
    PiecesWithout(name, '/');
    assert Pieces(path, '/') == Pieces(dir, '/') + [name] + [""];
    assert path[|dir|] == '/';
    var p := Pieces(dir, '/') + [name] + [""];
    assert DropTrailingEmpty(p) == DropTrailingEmpty(p[..|p| - 1]);
    assert p[..|p| - 1] == Pieces(dir, '/') + [name];
  }

  /** The raw-log column name of a CPU core as DataProcessor builds it: the element at
      `length - 2` of the path split on '/'. */
  function CoreColumnNameAsWritten(cpuPath: string): (name: string)
  {
    var p := Split(cpuPath, '/');
    if |p| >= 2 then p[|p| - 2] else ""
  }

  /** The column name that was evidently meant: the core's own entry, the last element. */
  function CoreColumnName(cpuPath: string): (name: string)
  {
    var p := Split(cpuPath, '/');
    if |p| >= 1 then p[|p| - 1] else ""
  }

  /** As written, every discovered core's column is named after the parent directory. */
  lemma CoreColumnNameAsWrittenIsParent(dir: string, name: string)
    requires IsCpuDeviceEntry(name)
    ensures CoreColumnNameAsWritten(EntryPath(dir, name)) == LastSegment(dir)
  {
    assert '/' !in name by {
      assert forall k :: 0 <= k < 4 ==> name[k] != '/' by {
        assert name[..3] == "cpu";
        assert name[0] == 'c' && name[1] == 'p' && name[2] == 'u';
      }
    }
    EntryPathSplit(dir, name);
  }

  /** The last segment of parent/seg is seg. */
  lemma LastSegmentAfter(parent: string, seg: string)
    requires '/' !in seg
    ensures LastSegment(parent + ['/'] + seg) == seg
  {
    PiecesAround(parent, '/', seg);
    PiecesWithout(seg, '/');
  }

  lemma CpuDirLastSegment()
    ensures LastSegment("/sys/devices/system/cpu") == "cpu"
  {
    assert "/sys/devices/system/cpu" == "/sys/devices/system" + ['/'] + "cpu";
    LastSegmentAfter("/sys/devices/system", "cpu");
  }

  /** On the device directory every core, "cpu0" to "cpu9", is headed "cpu". */
  lemma CoreColumnsAsWrittenAllCpu(name: string)
    requires IsCpuDeviceEntry(name)
    ensures CoreColumnNameAsWritten(EntryPath("/sys/devices/system/cpu", name)) == "cpu"
  {
    CoreColumnNameAsWrittenIsParent("/sys/devices/system/cpu", name);
    CpuDirLastSegment();
  }

  /** Corrected, each core's column is named after its own entry, so two cores never share
      a column name. */
  lemma CoreColumnNameIsEntry(dir: string, name: string)
    requires IsCpuDeviceEntry(name)
    ensures CoreColumnName(EntryPath(dir, name)) == name
  {
    assert '/' !in name by {
      assert name[0] == 'c' && name[1] == 'p' && name[2] == 'u';
    }
    EntryPathSplit(dir, name);
  }
}
