/** DataProcessor, the sampler: at start-up it discovers the thermal zones and CPU cores,
    captures a baseline of the per-cluster time_in_state tables and writes the headers of
    the performance log and the raw log; every pass then reads the counters once more and
    appends one row to each log. The logs are kept as sequences of rows of cells; the
    shell reads are the `Shell` input of the parsers. */
module Sampler {
  import opened JavaLang
  import opened Clock
  import opened CounterParsers

  /** One field of a log row: text, a Float, or the NaN an average over no core gives. */
  datatype Cell = Text(text: string) | Num(value: real) | NaN

  /** The two rows one sampling pass appends. */
  datatype Rows = Rows(performance: seq<Cell>, raw: seq<Cell>)

  /** What a sampling pass depends on besides the shell: the platform, the rooted flag, the
      start time and what discovery and the baseline capture found. */
  datatype Setup = Setup(sdkAtLeastQ: bool, isRooted: bool, startTimeSecs: int,
                         zones: seq<string>, cpus: seq<string>, baseline: seq<real>)

  const ThermalDir: string := "/sys/class/thermal"
  const CpuDir: string := "/sys/devices/system/cpu"
  const ThermalZoneTypesOfInterest: seq<string> := ["BIG", "MID", "LITTLE", "TPU", "G3D"]

  /** The policy directories whose tables the baseline capture reads, and their labels. */
  const PolicyDir: string := "/sys/devices/system/cpu/cpufreq/"
  const PolicyPaths: seq<string> := [PolicyDir + "policy0", PolicyDir + "policy4", PolicyDir + "policy8"]
  const PolicyLabels: seq<string> := ["LITTLE", "MID", "BIG"]

  /** The time_in_state file of a policy directory: getCPUPolicyHeaders reads it once for
      the baseline and processPolicyData on every pass. */
  function ResidencyFile(policyPath: string): string
  {
    policyPath + "/stats/time_in_state"
  }

  /** The files processPolicyData reads on every pass. */
  const SampleFiles: seq<string> := [ResidencyFile(PolicyPaths[0]), ResidencyFile(PolicyPaths[1]),
                                     ResidencyFile(PolicyPaths[2])]

  /** "%s cat %s/stats/time_in_state", the read of getCPUPolicyHeaders. */
  function HeaderCommand(policyPath: string): string
  {
    CatCommand(ResidencyFile(policyPath))
  }

  /** The GPU files: Mali when rooted, Adreno (kgsl) otherwise. */
  function GpuFrequencyCommand(isRooted: bool): string
  {
    if isRooted then CatCommand("/sys/class/misc/mali0/device/" + "/" + "cur_freq")
    else CatCommand("/sys/class/kgsl/kgsl-3d0" + "/" + "clock_mhz")
  }

  function GpuUtilizationCommand(isRooted: bool): string
  {
    if isRooted then CatCommand("/sys/class/misc/mali0/device" + "/" + "utilization")
    else CatCommand("/sys/class/kgsl/kgsl-3d0" + "/" + "gpu_busy_percentage")
  }

  function ZoneTempLines(shell: Shell, zone: string): seq<string> { shell(CatCommand(zone + "temp")) }
  function ZoneTypeLines(shell: Shell, zone: string): seq<string> { shell(CatCommand(zone + "type")) }
  function CoreFreqLines(shell: Shell, cpu: string): seq<string> { shell(CatCommand(cpu + "/cpufreq/scaling_cur_freq")) }
  function ClusterLines(shell: Shell, c: nat): seq<string> requires c < 3 { shell(CatCommand(SampleFiles[c])) }

  // ---------------------------------------------------------------- readability

  predicate ZonesReadable(shell: Shell, zones: seq<string>)
  {
    forall z :: z in zones ==> FirstLineNumeric(ZoneTempLines(shell, z))
  }

  predicate CoresReadable(shell: Shell, cpus: seq<string>)
  {
    forall c :: c in cpus ==> FirstLineNumeric(CoreFreqLines(shell, c))
  }

  predicate TableReadable(lines: seq<string>)
  {
    forall k :: 0 <= k < |lines| ==> ResidencyTimeReadable(lines[k])
  }

  predicate HeaderTableReadable(lines: seq<string>)
  {
    forall k :: 0 <= k < |lines| ==> ResidencyLineReadable(lines[k])
  }

  predicate SamplesReadable(shell: Shell)
  {
    TableReadable(ClusterLines(shell, 0)) && TableReadable(ClusterLines(shell, 1)) &&
    TableReadable(ClusterLines(shell, 2))
  }

  predicate BaselineReadable(shell: Shell)
  {
    HeaderTableReadable(ClusterLines(shell, 0)) && HeaderTableReadable(ClusterLines(shell, 1)) &&
    HeaderTableReadable(ClusterLines(shell, 2))
  }

  /** Every number a pass parses is well formed. */
  predicate TickReadable(s: Setup, shell: Shell)
  {
    ZonesReadable(shell, s.zones) && CoresReadable(shell, s.cpus) &&
    FirstLineNumeric(shell(GpuFrequencyCommand(s.isRooted))) &&
    UtilizationReadable(shell(GpuUtilizationCommand(s.isRooted))) &&
    SamplesReadable(shell)
  }

  // ---------------------------------------------------------------- thermal data

  /** Some type of interest occurs in the zone's type. */
  predicate InterestingZoneType(zoneType: string)
  {
    exists j :: 0 <= j < |ThermalZoneTypesOfInterest| && Contains(zoneType, ThermalZoneTypesOfInterest[j])
  }

  /** The loop over the types of interest, left at the first one the zone's type holds. */
  method HasTypeOfInterest(zoneType: string) returns (found: bool)
    ensures found <==> InterestingZoneType(zoneType)
  {
    var j := 0;
    found := false;
    while j < |ThermalZoneTypesOfInterest| && !found
      invariant 0 <= j <= |ThermalZoneTypesOfInterest|
      invariant !found ==> forall m :: 0 <= m < j ==> !Contains(zoneType, ThermalZoneTypesOfInterest[m])
      invariant found ==> InterestingZoneType(zoneType)
    {
      if Contains(zoneType, ThermalZoneTypesOfInterest[j]) {
        found := true;
      }
      j := j + 1;
    }
  }

  /** What one zone contributes to processThermalData: its temperature, once, when rooted
      or when its type holds a type of interest; nothing otherwise. */
  function ZoneEntry(isRooted: bool, shell: Shell, zone: string): (r: seq<Cell>)
    requires FirstLineNumeric(ZoneTempLines(shell, zone))
    ensures r == [Num(ThermalZoneTemp(ZoneTempLines(shell, zone)))] <==>
            isRooted || InterestingZoneType(ThermalZoneType(ZoneTypeLines(shell, zone)))
    ensures r == [] <==> !isRooted && !InterestingZoneType(ThermalZoneType(ZoneTypeLines(shell, zone)))
  {
    if isRooted || InterestingZoneType(ThermalZoneType(ZoneTypeLines(shell, zone)))
    then [Num(ThermalZoneTemp(ZoneTempLines(shell, zone)))] else []
  }

  /** The temperatures processThermalData lists, in path order. */
  function ZoneEntries(isRooted: bool, shell: Shell, zones: seq<string>): seq<Cell>
    requires ZonesReadable(shell, zones)
  {
    if |zones| == 0 then []
    else ZoneEntries(isRooted, shell, zones[..|zones| - 1]) + ZoneEntry(isRooted, shell, zones[|zones| - 1])
  }

  /** The thermal status the pass records: the shared one from Android Q on, "Unknown" before. */
  function StatusSeen(sdkAtLeastQ: bool, status: string): string
  {
    if sdkAtLeastQ then status else "Unknown"
  }

  function ThermalData(s: Setup, status: string, shell: Shell): (r: seq<Cell>)
    requires ZonesReadable(shell, s.zones)
    ensures |r| > 0 && r[0] == Text(StatusSeen(s.sdkAtLeastQ, status))
  {
    [Text(StatusSeen(s.sdkAtLeastQ, status))] + ZoneEntries(s.isRooted, shell, s.zones)
  }

  lemma ConcatAssoc<T>(x: seq<T>, y: seq<T>, z: seq<T>)
    ensures x + y + z == x + (y + z)
  {
  }

  lemma TakeOneMore<T>(t: seq<T>, i: nat)
    requires i < |t|
    ensures t[..i + 1] == t[..i] + [t[i]]
  {
  }

  lemma {:induction false} ZoneEntriesAppend(isRooted: bool, shell: Shell, a: seq<string>, b: seq<string>)
    requires ZonesReadable(shell, a + b)
    ensures ZonesReadable(shell, a) && ZonesReadable(shell, b)
    ensures ZoneEntries(isRooted, shell, a + b) == ZoneEntries(isRooted, shell, a) + ZoneEntries(isRooted, shell, b)
    decreases |b|
  {
    assert forall z :: z in a ==> z in a + b;
    assert forall z :: z in b ==> z in a + b;
    if |b| == 0 {
      assert a + b == a;
    } else {
      var b', z := b[..|b| - 1], b[|b| - 1];
      assert (a + b)[..|a + b| - 1] == a + b' && (a + b)[|a + b| - 1] == z;
      assert forall y :: y in a + b' ==> y in a + b;
      ZoneEntriesAppend(isRooted, shell, a, b');
      calc {
        ZoneEntries(isRooted, shell, a + b);
        ZoneEntries(isRooted, shell, a + b') + ZoneEntry(isRooted, shell, z);
        ZoneEntries(isRooted, shell, a) + ZoneEntries(isRooted, shell, b') + ZoneEntry(isRooted, shell, z);
        { ConcatAssoc(ZoneEntries(isRooted, shell, a), ZoneEntries(isRooted, shell, b'), ZoneEntry(isRooted, shell, z)); }
        ZoneEntries(isRooted, shell, a) + (ZoneEntries(isRooted, shell, b') + ZoneEntry(isRooted, shell, z));
        ZoneEntries(isRooted, shell, a) + ZoneEntries(isRooted, shell, b);
      }
    }
  }

  /** Rooted, the pass lists exactly one temperature per zone, in path order. */
  lemma {:induction false} RootedZoneEntries(shell: Shell, zones: seq<string>)
    requires ZonesReadable(shell, zones)
    ensures |ZoneEntries(true, shell, zones)| == |zones|
    ensures forall k :: 0 <= k < |zones| ==>
              ZoneEntries(true, shell, zones)[k] == Num(ThermalZoneTemp(ZoneTempLines(shell, zones[k])))
    decreases |zones|
  {
    if |zones| > 0 {
      var init := zones[..|zones| - 1];
      RootedZoneEntries(shell, init);
      assert forall k :: 0 <= k < |init| ==> init[k] == zones[k];
    }
  }

  /** Each zone's contribution sits at its own place among the other zones' entries. */
  lemma ZoneEntriesAround(isRooted: bool, shell: Shell, zones: seq<string>, k: nat)
    requires ZonesReadable(shell, zones) && k < |zones|
    ensures ZonesReadable(shell, zones[..k]) && ZonesReadable(shell, zones[k + 1..])
    ensures ZoneEntries(isRooted, shell, zones) ==
              ZoneEntries(isRooted, shell, zones[..k]) + ZoneEntry(isRooted, shell, zones[k]) +
              ZoneEntries(isRooted, shell, zones[k + 1..])
  {
    var pre, z, post := zones[..k], zones[k], zones[k + 1..];
    assert zones == (pre + [z]) + post;
    ZoneEntriesAppend(isRooted, shell, pre + [z], post);
    ZoneEntriesAppend(isRooted, shell, pre, [z]);
    assert [z][..0] == [];
  }

  /** An unreadable type falls back to "default_zone_type", which holds no type of interest. */
  lemma DefaultZoneTypeNotOfInterest()
    ensures !InterestingZoneType("default_zone_type")
  {
    var d := "default_zone_type";
    forall j | 0 <= j < |ThermalZoneTypesOfInterest|
      ensures !Contains(d, ThermalZoneTypesOfInterest[j])
    {
      var t := ThermalZoneTypesOfInterest[j];
      assert t[0] !in d by {
        assert forall c :: c in d ==> 'a' <= c <= 'z' || c == '_';
      }
      if Contains(d, t) {
        ContainsFirstChar(d, t);
      }
    }
  }

  /** Unrooted, a zone whose type cannot be read is left out. */
  lemma UnreadableTypeLeftOut(shell: Shell, zone: string)
    requires FirstLineNumeric(ZoneTempLines(shell, zone))
    requires ZoneTypeLines(shell, zone) == []
    ensures ZonesReadable(shell, [zone])
    ensures ZoneEntries(false, shell, [zone]) == []
  {
    DefaultZoneTypeNotOfInterest();
    assert [zone][..0] == [];
  }

  // ---------------------------------------------------------------- frequency data

  function Sum(xs: seq<real>): real
  {
    if |xs| == 0 then 0.0 else Sum(xs[..|xs| - 1]) + xs[|xs| - 1]
  }

  lemma {:induction false} SumBounds(xs: seq<real>, lo: real, hi: real)
    requires forall k :: 0 <= k < |xs| ==> lo <= xs[k] <= hi
    ensures |xs| as real * lo <= Sum(xs) <= |xs| as real * hi
    decreases |xs|
  {
    if |xs| > 0 {
      var init := xs[..|xs| - 1];
      var m := |init| as real;
      assert forall k :: 0 <= k < |init| ==> init[k] == xs[k];
      SumBounds(init, lo, hi);
      assert Sum(xs) == Sum(init) + xs[|xs| - 1];
      assert |xs| as real == m + 1.0;
      OneMoreTimes(m, lo);
      OneMoreTimes(m, hi);
    }
  }

  lemma OneMoreTimes(m: real, a: real)
    ensures (m + 1.0) * a == m * a + a
  {
  }

  lemma QuotientBounds(x: real, n: real, lo: real, hi: real)
    requires n > 0.0 && n * lo <= x <= n * hi
    ensures lo <= x / n <= hi
  {
    var q := x / n;
    assert (q - lo) * n == x - n * lo;
    assert (hi - q) * n == n * hi - x;
  }

  /** `avgCPUFreq /= cpuDevicePaths.length`: NaN over no core. */
  function Average(xs: seq<real>): Cell
  {
    if |xs| == 0 then NaN else Num(Sum(xs) / |xs| as real)
  }

  function Nums(xs: seq<real>): (r: seq<Cell>)
    ensures |r| == |xs| && forall k :: 0 <= k < |xs| ==> r[k] == Num(xs[k])
  {
    seq(|xs|, k requires 0 <= k < |xs| => Num(xs[k]))
  }

  function CoreFrequencies(shell: Shell, cpus: seq<string>): (f: seq<real>)
    requires CoresReadable(shell, cpus)
    ensures |f| == |cpus|
    ensures forall k :: 0 <= k < |cpus| ==> f[k] == CpuFrequency(CoreFreqLines(shell, cpus[k]))
  {
    seq(|cpus|, k requires 0 <= k < |cpus| && CoresReadable(shell, cpus) =>
      CpuFrequency(CoreFreqLines(shell, cpus[k])))
  }

  /** [average core frequency, GPU frequency, each core's frequency]: the GPU second and one
      entry per core, in discovery order, after it. */
  function FrequencyData(isRooted: bool, shell: Shell, cpus: seq<string>): (r: seq<Cell>)
    requires CoresReadable(shell, cpus) && FirstLineNumeric(shell(GpuFrequencyCommand(isRooted)))
    ensures |r| == 2 + |cpus|
    ensures r[0] == Average(CoreFrequencies(shell, cpus))
    ensures r[1] == Num(GpuFrequency(shell(GpuFrequencyCommand(isRooted))))
    ensures forall k :: 0 <= k < |cpus| ==> r[2 + k] == Num(CpuFrequency(CoreFreqLines(shell, cpus[k])))
  {
    [Average(CoreFrequencies(shell, cpus)), Num(GpuFrequency(shell(GpuFrequencyCommand(isRooted))))] +
    Nums(CoreFrequencies(shell, cpus))
  }

  /** An average over at least one value lies between their least and greatest. */
  lemma AverageBounds(xs: seq<real>, lo: real, hi: real)
    requires |xs| > 0
    requires forall k :: 0 <= k < |xs| ==> lo <= xs[k] <= hi
    ensures Average(xs).Num? && lo <= Average(xs).value <= hi
  {
    SumBounds(xs, lo, hi);
    QuotientBounds(Sum(xs), |xs| as real, lo, hi);
  }

  /** The first entry of the frequency list, the average, lies between the slowest and the
      fastest core, and is NaN without cores. */
  lemma FrequencyDataShape(isRooted: bool, shell: Shell, cpus: seq<string>, lo: real, hi: real)
    requires CoresReadable(shell, cpus) && FirstLineNumeric(shell(GpuFrequencyCommand(isRooted)))
    requires forall k :: 0 <= k < |cpus| ==> lo <= CpuFrequency(CoreFreqLines(shell, cpus[k])) <= hi
    ensures |cpus| == 0 <==> FrequencyData(isRooted, shell, cpus)[0] == NaN
    ensures |cpus| > 0 ==> lo <= FrequencyData(isRooted, shell, cpus)[0].value <= hi
  {
    var f := CoreFrequencies(shell, cpus);
    if |cpus| > 0 {
      AverageBounds(f, lo, hi);
    }
  }

  // ---------------------------------------------------------------- utilization data

  /** [CPU utilization text, GPU utilization], or the exception getCPUUtilization raises. */
  function UtilizationData(isRooted: bool, shell: Shell): Result<seq<Cell>>
    requires UtilizationReadable(shell(GpuUtilizationCommand(isRooted)))
  {
    var cpu := CpuUtilizationOf(shell(TopCommand));
    if cpu.IndexOutOfBounds? then IndexOutOfBounds
    else Ok([Text(cpu.value), Num(GpuUtilization(shell(GpuUtilizationCommand(isRooted))))])
  }

  // ---------------------------------------------------------------- policy data

  /** The LITTLE, MID and BIG tables one after the other. */
  function PolicySample(shell: Shell): seq<real>
    requires SamplesReadable(shell)
  {
    ResidencyTable(ClusterLines(shell, 0)) + ResidencyTable(ClusterLines(shell, 1)) +
    ResidencyTable(ClusterLines(shell, 2))
  }

  /** The sample minus the baseline, element by element: defined while the sample is no
      longer than the baseline, an index past its end otherwise. */
  function PolicyDelta(sample: seq<real>, baseline: seq<real>): (r: Result<seq<real>>)
    ensures r.Ok? <==> |sample| <= |baseline|
    ensures r.Ok? ==> (|r.value| == |sample| &&
                       forall i :: 0 <= i < |sample| ==> baseline[i] + r.value[i] == sample[i])
  {
    if |sample| <= |baseline| then Ok(seq(|sample|, i requires 0 <= i < |sample| <= |baseline| => sample[i] - baseline[i]))
    else IndexOutOfBounds
  }

  /** A sample equal to the baseline gives zero everywhere, sentinels included. */
  lemma DeltaAtBaseline(baseline: seq<real>)
    ensures PolicyDelta(baseline, baseline).Ok?
    ensures forall i :: 0 <= i < |baseline| ==> PolicyDelta(baseline, baseline).value[i] == 0.0
  {
  }

  /** Where the sample's -1 that closes a cluster meets the baseline's, the delta is 0; and
      a counter that did not go back gives a delta of at least 0. */
  lemma DeltaSigns(sample: seq<real>, baseline: seq<real>, i: nat)
    requires |sample| <= |baseline| && i < |sample|
    ensures sample[i] == -1.0 && baseline[i] == -1.0 ==> PolicyDelta(sample, baseline).value[i] == 0.0
    ensures sample[i] >= baseline[i] ==> PolicyDelta(sample, baseline).value[i] >= 0.0
  {
  }

  /** Headers of one cluster: each line's frequency, then the cluster's label. */
  function PolicyHeaders(lines: seq<string>, clusterLabel: string): (h: seq<Cell>)
    requires HeaderTableReadable(lines)
    ensures |h| == |lines| + 1 && h[|lines|] == Text(clusterLabel)
    ensures forall k :: 0 <= k < |lines| ==> h[k] == Num(ResidencyFrequency(lines[k]))
  {
    seq(|lines|, k requires 0 <= k < |lines| && HeaderTableReadable(lines) => Num(ResidencyFrequency(lines[k]))) +
    [Text(clusterLabel)]
  }

  /** A table whose frequencies parse has times that parse. */
  lemma BaselineSampleReadable(shell: Shell)
    requires BaselineReadable(shell)
    ensures SamplesReadable(shell)
  {
  }

  /** The raw header's policy columns: each cluster's frequencies and its label. There are as
      many as there are baseline entries, one per table line and one per cluster. */
  function BaselineHeaders(shell: Shell): (h: seq<Cell>)
    requires BaselineReadable(shell)
    ensures SamplesReadable(shell) && |h| == |PolicySample(shell)|
  {
    BaselineSampleReadable(shell);
    PolicyHeaders(ClusterLines(shell, 0), PolicyLabels[0]) +
    PolicyHeaders(ClusterLines(shell, 1), PolicyLabels[1]) +
    PolicyHeaders(ClusterLines(shell, 2), PolicyLabels[2])
  }

  // ---------------------------------------------------------------- headers

  /** One column per type of interest, named type + "Temperature". */
  function TemperatureHeaders(types: seq<string>): (h: seq<Cell>)
    ensures |h| == |types| && forall k :: 0 <= k < |types| ==> h[k] == Text(types[k] + "Temperature")
  {
    seq(|types|, k requires 0 <= k < |types| => Text(types[k] + "Temperature"))
  }

  /** time, relativeTime, thermalStatus, BIGTemperature ... G3DTemperature, cpuFrequency,
      gpuFrequency, cpuUtilization, gpuUtilization */
  const PerformanceHeader: seq<Cell> :=
    [Text("time"), Text("relativeTime"), Text("thermalStatus")] +
    TemperatureHeaders(ThermalZoneTypesOfInterest) +
    [Text("cpuFrequency"), Text("gpuFrequency"), Text("cpuUtilization"), Text("gpuUtilization")]

  function ZoneTypeHeaders(shell: Shell, zones: seq<string>): (h: seq<Cell>)
    ensures |h| == |zones| && forall k :: 0 <= k < |zones| ==> h[k] == Text(ThermalZoneType(ZoneTypeLines(shell, zones[k])))
  {
    seq(|zones|, k requires 0 <= k < |zones| => Text(ThermalZoneType(ZoneTypeLines(shell, zones[k]))))
  }

  /** One column per core, named as the constructor names it: after the element at
      `length - 2` of the core's path, which is the parent directory. */
  function CoreHeaders(cpus: seq<string>): (h: seq<Cell>)
    ensures |h| == |cpus| && forall k :: 0 <= k < |cpus| ==> h[k] == Text(CoreColumnNameAsWritten(cpus[k]) + "_freq")
  {
    seq(|cpus|, k requires 0 <= k < |cpus| => Text(CoreColumnNameAsWritten(cpus[k]) + "_freq"))
  }

  /** Every core column of the raw header the constructor writes is "cpu_freq". */
  lemma DiscoveredCoreHeadersAllCpu(listing: seq<string>)
    ensures forall h :: h in CoreHeaders(KeptPaths(CpuDir, listing, IsCpuDeviceEntry)) ==> h == Text("cpu_freq")
  {
    var cpus := KeptPaths(CpuDir, listing, IsCpuDeviceEntry);
    forall k | 0 <= k < |cpus|
      ensures CoreHeaders(cpus)[k] == Text("cpu_freq")
    {
      KeptPathsMembers(CpuDir, listing, IsCpuDeviceEntry, cpus[k]);
      var j :| 0 <= j < |listing| && IsCpuDeviceEntry(listing[j]) && cpus[k] == EntryPath(CpuDir, listing[j]);
      CoreColumnsAsWrittenAllCpu(listing[j]);
    }
  }

  function RawHeader(shell: Shell, zones: seq<string>, cpus: seq<string>, policyHeaders: seq<Cell>): seq<Cell>
  {
    [Text("time"), Text("relativeTime"), Text("thermalStatus")] + ZoneTypeHeaders(shell, zones) +
    CoreHeaders(cpus) + [Text("gpuFrequency"), Text("cpuUtilization"), Text("gpuUtilization")] +
    policyHeaders
  }

  /** The constructor's loop over the types of interest. */
  method TemperatureHeaderCells() returns (h: seq<Cell>)
    ensures h == TemperatureHeaders(ThermalZoneTypesOfInterest)
  {
    h := [];
    var i := 0;
    while i < |ThermalZoneTypesOfInterest|
      invariant 0 <= i <= |ThermalZoneTypesOfInterest|
      invariant h == TemperatureHeaders(ThermalZoneTypesOfInterest[..i])
    {
      h := h + [Text(ThermalZoneTypesOfInterest[i] + "Temperature")];
      i := i + 1;
    }
    assert ThermalZoneTypesOfInterest[..i] == ThermalZoneTypesOfInterest;
  }

  /** The constructor's loop over the zones: one column per zone, named by its type. */
  method ZoneTypeHeaderCells(shell: Shell, zones: seq<string>) returns (h: seq<Cell>)
    ensures h == ZoneTypeHeaders(shell, zones)
  {
    h := [];
    var i := 0;
    while i < |zones|
      invariant 0 <= i <= |zones|
      invariant h == ZoneTypeHeaders(shell, zones[..i])
    {
      h := h + [Text(ThermalZoneType(ZoneTypeLines(shell, zones[i])))];
      i := i + 1;
    }
    assert zones[..i] == zones;
  }

  /** The constructor's loop over the cores: one column per core. */
  method CoreHeaderCells(cpus: seq<string>) returns (h: seq<Cell>)
    ensures h == CoreHeaders(cpus)
  {
    h := [];
    var i := 0;
    while i < |cpus|
      invariant 0 <= i <= |cpus|
      invariant h == CoreHeaders(cpus[..i])
    {
      h := h + [Text(CoreColumnNameAsWritten(cpus[i]) + "_freq")];
      i := i + 1;
    }
    assert cpus[..i] == cpus;
  }

  // ---------------------------------------------------------------- rows

  /** getRelativeTime: the seconds of the day in the clock text, less the start. */
  function RelativeTime(startTimeSecs: int, clock: string): int
    requires HasClockFields(clock)
  {
    SecondsOfDay(clock) - startTimeSecs
  }

  /** For a tick's "HH:mm:ss:SSS" the relative time is h*3600 + m*60 + s less the start;
      the milliseconds play no part, and the written field reads back as that number. */
  lemma RelativeTimeOfReading(startTimeSecs: int, h: nat, m: nat, s: nat, ms: nat)
    requires ValidReading(h, m, s, ms)
    ensures HasClockFields(TickText(h, m, s, ms))
    ensures RelativeTime(startTimeSecs, TickText(h, m, s, ms)) == h * 3600 + m * 60 + s - startTimeSecs
    ensures forall ms' :: 0 <= ms' < 1000 ==>
              HasClockFields(TickText(h, m, s, ms')) &&
              RelativeTime(startTimeSecs, TickText(h, m, s, ms')) == RelativeTime(startTimeSecs, TickText(h, m, s, ms))
    ensures var text := IntToString(RelativeTime(startTimeSecs, TickText(h, m, s, ms)));
            IsIntLiteral(text) && IntValue(text) == h * 3600 + m * 60 + s - startTimeSecs
  {
    TickTextFields(h, m, s, ms);
    forall ms' | 0 <= ms' < 1000
      ensures HasClockFields(TickText(h, m, s, ms')) &&
              RelativeTime(startTimeSecs, TickText(h, m, s, ms')) == RelativeTime(startTimeSecs, TickText(h, m, s, ms))
    {
      TickTextFields(h, m, s, ms');
    }
    ParseIntToString(RelativeTime(startTimeSecs, TickText(h, m, s, ms)));
  }

  /** time, relativeTime, thermal data, average CPU frequency, GPU frequency, CPU and GPU
      utilization */
  function PerformanceRow(clock: string, relativeTime: string, thermal: seq<Cell>, freqs: seq<Cell>,
                          util: seq<Cell>): seq<Cell>
    requires |freqs| >= 2
  {
    [Text(clock), Text(relativeTime)] + thermal + freqs[..2] + util
  }

  /** time, relativeTime, thermal data, each core's frequency, GPU frequency, CPU and GPU
      utilization, the residency deltas */
  function RawRow(clock: string, relativeTime: string, thermal: seq<Cell>, freqs: seq<Cell>,
                  util: seq<Cell>, policy: seq<real>): seq<Cell>
    requires |freqs| >= 2
  {
    [Text(clock), Text(relativeTime)] + thermal + freqs[2..] + [freqs[1]] + util + Nums(policy)
  }

  /** The third cell of both rows is the first of the thermal data. */
  lemma RowsKeepStatus(clock: string, relativeTime: string, thermal: seq<Cell>, freqs: seq<Cell>,
                       util: seq<Cell>, policy: seq<real>)
    requires |freqs| >= 2 && |thermal| > 0
    ensures PerformanceRow(clock, relativeTime, thermal, freqs, util)[2] == thermal[0]
    ensures RawRow(clock, relativeTime, thermal, freqs, util, policy)[2] == thermal[0]
  {
  }

  /** One sampling pass: its performance row and raw row, or the index error that escapes
      the pass before either is written (in the program it also ends the sampling timer). */
  function Tick(s: Setup, status: string, shell: Shell, clock: string): Result<Rows>
    requires TickReadable(s, shell) && HasClockFields(clock)
  {
    var thermal := ThermalData(s, status, shell);
    var freqs := FrequencyData(s.isRooted, shell, s.cpus);
    var util := UtilizationData(s.isRooted, shell);
    var policy := PolicyDelta(PolicySample(shell), s.baseline);
    if util.IndexOutOfBounds? || policy.IndexOutOfBounds? then IndexOutOfBounds
    else
      var relativeTime := IntToString(RelativeTime(s.startTimeSecs, clock));
      Ok(Rows(PerformanceRow(clock, relativeTime, thermal, freqs, util.value),
              RawRow(clock, relativeTime, thermal, freqs, util.value, policy.value)))
  }

  /** Both rows carry the recorded thermal status in their third column. */
  lemma TickStatus(s: Setup, status: string, shell: Shell, clock: string)
    requires TickReadable(s, shell) && HasClockFields(clock)
    requires Tick(s, status, shell, clock).Ok?
    ensures Tick(s, status, shell, clock).value.performance[2] == Text(StatusSeen(s.sdkAtLeastQ, status))
    ensures Tick(s, status, shell, clock).value.raw[2] == Text(StatusSeen(s.sdkAtLeastQ, status))
  {
    TickCases(s, status, shell, clock);
    RowsKeepStatus(clock, IntToString(RelativeTime(s.startTimeSecs, clock)), ThermalData(s, status, shell),
                   FrequencyData(s.isRooted, shell, s.cpus), UtilizationData(s.isRooted, shell).value,
                   PolicyDelta(PolicySample(shell), s.baseline).value);
  }

  /** A pass writes its rows when no table grew since the baseline and the process's `top`
      row, if any, has at least four fields; a table longer than its baseline ends it. */
  lemma TickOutcome(s: Setup, status: string, shell: Shell, clock: string)
    requires TickReadable(s, shell) && HasClockFields(clock)
    ensures |PolicySample(shell)| > |s.baseline| ==> Tick(s, status, shell, clock).IndexOutOfBounds?
    ensures |PolicySample(shell)| <= |s.baseline| &&
            (var top := shell(TopCommand);
             var k := FirstContaining(top, ProcessTag);
             k < |top| ==> |Split(ReplaceChar(Squeeze(top[k]), ' ', ','), ',')| >= 4)
            ==> Tick(s, status, shell, clock).Ok?
  {
  }

  /** Rooted, the performance row has 7 columns besides one per zone, so it lines up with
      the 12-column header exactly when 5 zones were found. */
  lemma PerformanceRowWidth(s: Setup, status: string, shell: Shell, clock: string)
    requires TickReadable(s, shell) && HasClockFields(clock)
    requires s.isRooted && Tick(s, status, shell, clock).Ok?
    ensures |Tick(s, status, shell, clock).value.performance| == 7 + |s.zones|
    ensures |Tick(s, status, shell, clock).value.performance| == |PerformanceHeader| <==> |s.zones| == 5
  {
    RootedZoneEntries(shell, s.zones);
  }

  /** Rooted, the raw row has one column per zone, per core and per baseline entry besides
      six, as the raw header does: the two line up exactly when the sample is as long as the
      baseline. */
  lemma RawRowWidth(s: Setup, status: string, shell: Shell, clock: string, header: seq<Cell>)
    requires TickReadable(s, shell) && HasClockFields(clock)
    requires s.isRooted && Tick(s, status, shell, clock).Ok?
    requires |header| == 6 + |s.zones| + |s.cpus| + |s.baseline|
    ensures |Tick(s, status, shell, clock).value.raw| == 6 + |s.zones| + |s.cpus| + |PolicySample(shell)|
    ensures |Tick(s, status, shell, clock).value.raw| == |header| <==> |PolicySample(shell)| == |s.baseline|
  {
    RootedZoneEntries(shell, s.zones);
  }

  /** A pass fails as soon as the utilization or the policy reads fail, and otherwise
      assembles its two rows from the four reads. */
  lemma TickCases(s: Setup, status: string, shell: Shell, clock: string)
    requires TickReadable(s, shell) && HasClockFields(clock)
    ensures UtilizationData(s.isRooted, shell).IndexOutOfBounds? ==> Tick(s, status, shell, clock) == IndexOutOfBounds
    ensures PolicyDelta(PolicySample(shell), s.baseline).IndexOutOfBounds? ==> Tick(s, status, shell, clock) == IndexOutOfBounds
    ensures UtilizationData(s.isRooted, shell).Ok? && PolicyDelta(PolicySample(shell), s.baseline).Ok? ==>
              var relativeTime := IntToString(RelativeTime(s.startTimeSecs, clock));
              var thermal := ThermalData(s, status, shell);
              var freqs := FrequencyData(s.isRooted, shell, s.cpus);
              var util := UtilizationData(s.isRooted, shell).value;
              Tick(s, status, shell, clock) ==
                Ok(Rows(PerformanceRow(clock, relativeTime, thermal, freqs, util),
                        RawRow(clock, relativeTime, thermal, freqs, util, PolicyDelta(PolicySample(shell), s.baseline).value)))
  {
  }

  /** The loop of processPolicyData: each entry of the sample less the baseline's entry at
      the same index, which fails once the sample runs past the baseline. */
  method SubtractBaseline(freqTimes: seq<real>, baseline: seq<real>) returns (r: Result<seq<real>>)
    ensures r == PolicyDelta(freqTimes, baseline)
  {
    var updated: seq<real> := [];
    var i := 0;
    while i < |freqTimes|
      invariant 0 <= i <= |freqTimes| && i <= |baseline|
      invariant |updated| == i
      invariant forall k :: 0 <= k < i ==> updated[k] == freqTimes[k] - baseline[k]
    {
      if i >= |baseline| {
        return IndexOutOfBounds;
      }
      var next := updated + [freqTimes[i] - baseline[i]];
      assert forall k :: 0 <= k < i ==> next[k] == updated[k];
      updated := next;
      i := i + 1;
    }
    ghost var d := PolicyDelta(freqTimes, baseline);
    assert forall k :: 0 <= k < |updated| ==> updated[k] == d.value[k];
    assert updated == d.value;
    r := Ok(updated);
  }

  /** The loop of processThermalData: every zone's temperature when rooted, otherwise only
      those whose type names a type of interest, in path order. */
  method ZoneTemperatures(isRooted: bool, shell: Shell, zones: seq<string>) returns (temps: seq<Cell>)
    requires ZonesReadable(shell, zones)
    ensures temps == ZoneEntries(isRooted, shell, zones)
  {
    temps := [];
    var i := 0;
    while i < |zones|
      invariant 0 <= i <= |zones|
      invariant ZonesReadable(shell, zones[..i])
      invariant temps == ZoneEntries(isRooted, shell, zones[..i])
    {
      var zone := zones[i];
      var temp := ThermalZoneTemp(ZoneTempLines(shell, zone));
      if isRooted {
        temps := temps + [Num(temp)];
      } else {
        var zoneType := ThermalZoneType(ZoneTypeLines(shell, zone));
        var ofInterest := HasTypeOfInterest(zoneType);
        if ofInterest {
          temps := temps + [Num(temp)];
        }
      }
      assert zones[..i + 1][..i] == zones[..i];
      i := i + 1;
    }
    assert zones[..i] == zones;
  }

  /** MainActivity: holds the thermal status the listener records and the sampler reads. */
  class Activity {
    var currentThermalStatus: string

    constructor ()
      ensures currentThermalStatus == "None"
    {
      currentThermalStatus := "None";
    }
  }

  /** The sampler's state. The two logs are the files' rows, header first. */
  class DataProcessor {
    const activity: Activity
    const sdkAtLeastQ: bool
    var isRooted: bool
    var startTimeSecs: int
    var thermalZonePaths: seq<string>
    var cpuDevicePaths: seq<string>
    var initialFreqTimes: seq<real>
    var performanceLog: seq<seq<Cell>>
    var rawLog: seq<seq<Cell>>

    function Current(): Setup
      reads this`isRooted, this`startTimeSecs, this`thermalZonePaths,
            this`cpuDevicePaths, this`initialFreqTimes
    {
      Setup(sdkAtLeastQ, isRooted, startTimeSecs, thermalZonePaths, cpuDevicePaths, initialFreqTimes)
    }

    /** Each log starts with its header; the raw header has a column per zone, per core and
        per baseline entry besides six. */
    ghost predicate Valid()
      reads this
    {
      |performanceLog| > 0 && performanceLog[0] == PerformanceHeader &&
      |rawLog| > 0 && |rawLog[0]| == 6 + |thermalZonePaths| + |cpuDevicePaths| + |initialFreqTimes|
    }

    /** Discovery, baseline capture and both headers, at the wall-clock reading h:m:s. */
    constructor (activity: Activity, sdkAtLeastQ: bool, h: nat, m: nat, s: nat, shell: Shell)
      requires ValidReading(h, m, s, 0)
      requires BaselineReadable(shell)
      ensures this.activity == activity && this.sdkAtLeastQ == sdkAtLeastQ && isRooted
      ensures startTimeSecs == h * 3600 + m * 60 + s
      ensures thermalZonePaths == KeptPaths(ThermalDir, shell(ListCommand(ThermalDir)), IsThermalZoneEntry)
      ensures cpuDevicePaths == KeptPaths(CpuDir, shell(ListCpuCommand(CpuDir)), IsCpuDeviceEntry)
      ensures SamplesReadable(shell) && initialFreqTimes == PolicySample(shell)
      ensures performanceLog == [PerformanceHeader]
      ensures rawLog == [RawHeader(shell, thermalZonePaths, cpuDevicePaths, BaselineHeaders(shell))]
      ensures Valid()
    {
      this.activity := activity;
      this.sdkAtLeastQ := sdkAtLeastQ;
      isRooted := true;
      var fileSeries := StartText(h, m, s);
      StartTextFields(h, m, s);
      startTimeSecs := SecondsOfDay(fileSeries);
      new;
      thermalZonePaths := ThermalZoneFilePaths(ThermalDir, shell);
      cpuDevicePaths := CpuDeviceFiles(CpuDir, shell);
      CreatePerformanceLog();
      initialFreqTimes := [];
      CreateRawLog(shell);
    }

    /** The performance file's creation: its header row, with a column per zone type of
        interest. */
    method CreatePerformanceLog()
      modifies this`performanceLog
      ensures performanceLog == [PerformanceHeader]
    {
      var temperatureHeaders := TemperatureHeaderCells();
      performanceLog := [[Text("time"), Text("relativeTime"), Text("thermalStatus")] + temperatureHeaders +
                         [Text("cpuFrequency"), Text("gpuFrequency"), Text("cpuUtilization"), Text("gpuUtilization")]];
    }

    /** The raw file's creation: the baseline is captured while its header row is built,
        with a column per discovered zone, per core and per baseline entry. */
    method CreateRawLog(shell: Shell)
      requires BaselineReadable(shell) && initialFreqTimes == []
      modifies this`initialFreqTimes, this`rawLog
      ensures SamplesReadable(shell) && initialFreqTimes == PolicySample(shell)
      ensures rawLog == [RawHeader(shell, thermalZonePaths, cpuDevicePaths, BaselineHeaders(shell))]
    {
      var zoneTypes := ZoneTypeHeaderCells(shell, thermalZonePaths);
      var coreColumns := CoreHeaderCells(cpuDevicePaths);
      var policyHeaders := CaptureBaseline(shell);
      rawLog := [[Text("time"), Text("relativeTime"), Text("thermalStatus")] + zoneTypes + coreColumns +
                 [Text("gpuFrequency"), Text("cpuUtilization"), Text("gpuUtilization")] + policyHeaders];
    }

    /** The three getCPUPolicyHeaders calls of the constructor, LITTLE, MID and BIG. */
    method CaptureBaseline(shell: Shell) returns (policyHeaders: seq<Cell>)
      requires BaselineReadable(shell) && initialFreqTimes == []
      modifies this`initialFreqTimes
      ensures SamplesReadable(shell) && initialFreqTimes == PolicySample(shell)
      ensures policyHeaders == BaselineHeaders(shell)
    {
      BaselineSampleReadable(shell);
      ghost var l0, l1, l2 := ClusterLines(shell, 0), ClusterLines(shell, 1), ClusterLines(shell, 2);
      var little := CapturePolicyHeaders(PolicyPaths[0], PolicyLabels[0], shell);
      assert initialFreqTimes == ResidencyTable(l0);
      var mid := CapturePolicyHeaders(PolicyPaths[1], PolicyLabels[1], shell);
      assert initialFreqTimes == ResidencyTable(l0) + ResidencyTable(l1);
      var big := CapturePolicyHeaders(PolicyPaths[2], PolicyLabels[2], shell);
      assert initialFreqTimes == ResidencyTable(l0) + ResidencyTable(l1) + ResidencyTable(l2);
      policyHeaders := little + mid + big;
    }

    /** getCPUPolicyHeaders: appends the table of `policyPath` and its -1 to the baseline and
        returns the table's frequencies followed by the cluster's label. */
    method CapturePolicyHeaders(policyPath: string, policyType: string, shell: Shell) returns (headers: seq<Cell>)
      requires HeaderTableReadable(shell(HeaderCommand(policyPath)))
      modifies this`initialFreqTimes
      ensures initialFreqTimes == old(initialFreqTimes) + ResidencyTable(shell(HeaderCommand(policyPath)))
      ensures headers == PolicyHeaders(shell(HeaderCommand(policyPath)), policyType)
      ensures |headers| == |initialFreqTimes| - |old(initialFreqTimes)|
    {
      var lines := shell(HeaderCommand(policyPath));
      ghost var table := ResidencyTable(lines);
      ghost var cells := PolicyHeaders(lines, policyType);
      headers := [];
      var i := 0;
      while i < |lines|
        invariant 0 <= i <= |lines|
        invariant headers == cells[..i]
        invariant initialFreqTimes == old(initialFreqTimes) + table[..i]
      {
        TakeOneMore(table, i);
        ConcatAssoc(old(initialFreqTimes), table[..i], [table[i]]);
        TakeOneMore(cells, i);
        initialFreqTimes := initialFreqTimes + [ResidencySeconds(lines[i])];
        headers := headers + [Num(ResidencyFrequency(lines[i]))];
        i := i + 1;
      }
      initialFreqTimes := initialFreqTimes + [-1.0];
      headers := headers + [Text(policyType)];
      TakeOneMore(table, i);
      TakeOneMore(cells, i);
    }

    /** processThermalData: the recorded status, then the temperatures of interest. The
        `isRaw` argument plays no part. */
    method ProcessThermalData(isRaw: bool, shell: Shell) returns (data: seq<Cell>)
      requires ZonesReadable(shell, thermalZonePaths)
      ensures data == ThermalData(Current(), activity.currentThermalStatus, shell)
    {
      var status := "Unknown";
      if sdkAtLeastQ {
        status := activity.currentThermalStatus;
      }
      var temps := ZoneTemperatures(isRooted, shell, thermalZonePaths);
      data := [Text(status)] + temps;
    }

    /** processFrequencyData: [average, GPU, each core]. */
    method ProcessFrequencyData(shell: Shell) returns (freqs: seq<Cell>)
      requires CoresReadable(shell, cpuDevicePaths) && FirstLineNumeric(shell(GpuFrequencyCommand(isRooted)))
      ensures freqs == FrequencyData(isRooted, shell, cpuDevicePaths)
    {
      var cpus := cpuDevicePaths;
      var avgCpuFreq := 0.0;
      var cpuFreqs: seq<real> := [];
      var i := 0;
      while i < |cpus|
        invariant 0 <= i <= |cpus|
        invariant cpuFreqs == CoreFrequencies(shell, cpus)[..i]
        invariant avgCpuFreq == Sum(cpuFreqs)
      {
        var f := CpuFrequency(CoreFreqLines(shell, cpus[i]));
        assert (cpuFreqs + [f])[..i] == cpuFreqs;
        cpuFreqs := cpuFreqs + [f];
        avgCpuFreq := avgCpuFreq + f;
        i := i + 1;
      }
      assert cpuFreqs == CoreFrequencies(shell, cpus);
      var avg := if |cpus| == 0 then NaN else Num(avgCpuFreq / |cpus| as real);
      var gpuFreq := GpuFrequency(shell(GpuFrequencyCommand(isRooted)));
      freqs := [avg, Num(gpuFreq)] + Nums(cpuFreqs);
    }

    /** processUtilizationData */
    method ProcessUtilizationData(shell: Shell) returns (r: Result<seq<Cell>>)
      requires UtilizationReadable(shell(GpuUtilizationCommand(isRooted)))
      ensures r == UtilizationData(isRooted, shell)
    {
      var cpu := CpuUtilization(shell(TopCommand));
      if cpu.IndexOutOfBounds? {
        return IndexOutOfBounds;
      }
      var gpu := GpuUtilization(shell(GpuUtilizationCommand(isRooted)));
      r := Ok([Text(cpu.value), Num(gpu)]);
    }

    /** processPolicyData: the three tables read again, less the baseline. */
    method ProcessPolicyData(shell: Shell) returns (r: Result<seq<real>>)
      requires SamplesReadable(shell)
      ensures r == PolicyDelta(PolicySample(shell), initialFreqTimes)
    {
      var little := PolicyTimes(ClusterLines(shell, 0));
      var mid := PolicyTimes(ClusterLines(shell, 1));
      var big := PolicyTimes(ClusterLines(shell, 2));
      var freqTimes := little + mid + big;
      assert freqTimes == PolicySample(shell);
      r := SubtractBaseline(freqTimes, initialFreqTimes);
    }

    /** The reads and the row assembly of processDataCollection at the wall-clock reading
        h:m:s.ms. The second processThermalData call, made for the raw row, reads the same
        zones and gives the same list as the first. */
    method SamplePass(shell: Shell, h: nat, m: nat, s: nat, ms: nat) returns (r: Result<Rows>)
      requires TickReadable(Current(), shell) && ValidReading(h, m, s, ms)
      ensures HasClockFields(TickText(h, m, s, ms))
      ensures r == Tick(Current(), activity.currentThermalStatus, shell, TickText(h, m, s, ms))
    {
      TickTextFields(h, m, s, ms);
      TickCases(Current(), activity.currentThermalStatus, shell, TickText(h, m, s, ms));
      var thermal := ProcessThermalData(false, shell);
      var freqs := ProcessFrequencyData(shell);
      var util := ProcessUtilizationData(shell);
      if util.IndexOutOfBounds? {
        return IndexOutOfBounds;
      }
      var policy := ProcessPolicyData(shell);
      if policy.IndexOutOfBounds? {
        return IndexOutOfBounds;
      }
      var currTime := TickText(h, m, s, ms);
      var relativeTime := IntToString(RelativeTime(startTimeSecs, currTime));
      var performance := PerformanceRow(currTime, relativeTime, thermal, freqs, util.value);
      var rawThermal := ProcessThermalData(true, shell);
      var raw := RawRow(currTime, relativeTime, rawThermal, freqs, util.value, policy.value);
      r := Ok(Rows(performance, raw));
    }

    /** processDataCollection: appends one row to each log, or, when the pass ends in an
        exception, neither. */
    method ProcessDataCollection(shell: Shell, h: nat, m: nat, s: nat, ms: nat) returns (r: Result<Rows>)
      requires Valid() && TickReadable(Current(), shell) && ValidReading(h, m, s, ms)
      modifies this`performanceLog, this`rawLog
      ensures HasClockFields(TickText(h, m, s, ms))
      ensures r == Tick(old(Current()), old(activity.currentThermalStatus), shell, TickText(h, m, s, ms))
      ensures Current() == old(Current())
      ensures r.Ok? ==> performanceLog == old(performanceLog) + [r.value.performance] &&
                        rawLog == old(rawLog) + [r.value.raw]
      ensures r.IndexOutOfBounds? ==> performanceLog == old(performanceLog) && rawLog == old(rawLog)
      ensures Valid()
    {
      r := SamplePass(shell, h, m, s, ms);
      if r.Ok? {
        WriteRows(r.value);
      }
    }

    /** The two appends of processDataCollection: the performance row, then the raw row;
        each log keeps its header. */
    method WriteRows(rows: Rows)
      requires Valid()
      modifies this`performanceLog, this`rawLog
      ensures performanceLog == old(performanceLog) + [rows.performance]
      ensures rawLog == old(rawLog) + [rows.raw]
      ensures Valid()
    {
      ghost var perfHeader, rawHeader := performanceLog[0], rawLog[0];
      performanceLog := performanceLog + [rows.performance];
      rawLog := rawLog + [rows.raw];
      assert performanceLog[0] == perfHeader && rawLog[0] == rawHeader;
    }
  }
}
