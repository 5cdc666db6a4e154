/** Host samplers (`get_disk`, `get_ram`, `get_cpu`). Every psutil
    capability the source probes with `hasattr` is an `Option` input: `None`
    when the capability is missing, `Some` with what the call returned
    otherwise. `to_gb` is a parameter, so its rounding is not modelled. */
module Samplers {
  import opened Wrappers
  import opened Stats
  import opened Records

  /** `psutil.disk_usage('/')`, in bytes. */
  datatype DiskStats = DiskStats(total: nat, used: nat, free: nat)

  /** The parts of `psutil.virtual_memory()` that matter here, in bytes.
      `active` is reported on Linux and macOS but not on every platform. */
  datatype MemStats = MemStats(total: nat, available: nat, used: nat, free: nat, active: Option<nat>)

  /** `psutil.getloadavg()`: the 1, 5 and 15 minute load averages. */
  datatype LoadAvg = LoadAvg(one: real, five: real, fifteen: real)

  /** One sensor channel; psutil reports a missing threshold as `None`. */
  datatype Channel = Channel(current: real, high: Option<real>, critical: Option<real>)

  /** What the host offers, one entry per probed capability. */
  datatype Host = Host(
    diskUsage: Option<DiskStats>,
    virtualMemory: Option<MemStats>,
    cpuCount: Option<nat>,
    loadAvg: Option<LoadAvg>,
    sensorsTemperatures: Option<map<string, seq<Channel>>>)

  /** The Python exception that aborts the memory sampler: reading a
      statistic the platform does not report. */
  datatype RamError = AttributeError(attr: string)

  /** The Python exception that aborts the CPU sampler. */
  datatype CpuError =
    | ZeroDivisionError        // a division by a zero core or channel count
    | KeyError(key: string)    // the sensor group is not reported
    | TypeError                // a `None` threshold reached `sum`

  /** The sensor group whose channels are averaged. */
  const SensorGroup := "coretemp"

  /** `get_disk`: each field is `to_gb` of the matching byte count, or all
      zero when the capability is missing. */
  function GetDisk(host: Host, toGb: int -> real): (r: DiskUsage)
    ensures host.diskUsage.None? ==> r == DefaultDisk
    ensures host.diskUsage.Some? ==>
      && r.total == toGb(host.diskUsage.value.total)
      && r.used == toGb(host.diskUsage.value.used)
      && r.free == toGb(host.diskUsage.value.free)
  {
    match host.diskUsage
    case None => DefaultDisk
    case Some(d) => DiskUsage(toGb(d.total), toGb(d.used), toGb(d.free))
  }

  /** `get_ram`: like `get_disk`, except that `free` is converted from the
      `active` statistic, and raises where the platform lacks it. */
  function GetRam(host: Host, toGb: int -> real): (r: Result<Ram, RamError>)
    ensures host.virtualMemory.None? ==> r == Success(DefaultRam)
    ensures host.virtualMemory.Some? ==>
      (r.Failure? <==> host.virtualMemory.value.active.None?)
    ensures r.Failure? ==> r.error == AttributeError("active")
    ensures host.virtualMemory.Some? && r.Success? ==>
      && r.value.total == toGb(host.virtualMemory.value.total)
      && r.value.used == toGb(host.virtualMemory.value.used)
      && host.virtualMemory.value.active.Some?
      && r.value.free == toGb(host.virtualMemory.value.active.value)
  {
    match host.virtualMemory
    case None => Success(DefaultRam)
    case Some(m) =>
      match m.active
      case None => Failure(AttributeError("active"))
      case Some(active) => Success(Ram(toGb(m.total), toGb(m.used), toGb(active)))
  }

  /** The reported `free` memory does not depend on the free or available
      statistics at all: two hosts that differ only there report the same. */
  lemma RamIgnoresFreeStatistic(m1: MemStats, m2: MemStats, h: Host, toGb: int -> real)
    requires m1.total == m2.total && m1.used == m2.used && m1.active == m2.active
    ensures GetRam(h.(virtualMemory := Some(m1)), toGb) == GetRam(h.(virtualMemory := Some(m2)), toGb)
  {
  }

  /** The `cpu_usage` list of `get_cpu`: `x / cpu_count() * 100` for each
      load average, or three zeros unless both capabilities exist. */
  function LoadPercent(count: Option<nat>, load: Option<LoadAvg>): (r: Result<UsageCpu, CpuError>)
    ensures r.Failure? <==> count == Some(0) && load.Some?
    ensures r.Failure? ==> r.error == ZeroDivisionError
    ensures r.Success? && (count.None? || load.None?) ==> r.value == DefaultUsage
    ensures r.Success? && count.Some? && load.Some? ==>
      var n := count.value as real;
      && r.value.lastMinute * n == load.value.one * 100.0
      && r.value.lastFiveMinute * n == load.value.five * 100.0
      && r.value.lastFifteenMinute * n == load.value.fifteen * 100.0
  {
    match (count, load)
    case (Some(n), Some(l)) =>
      if n == 0 then Failure(ZeroDivisionError)
      else
        var c := n as real;
        Success(UsageCpu(l.one / c * 100.0, l.five / c * 100.0, l.fifteen / c * 100.0))
    case _ => Success(DefaultUsage)
  }

  /** The values of a sequence of optional readings, as `sum` would see
      them: `None` as soon as one reading is missing. */
  function AllPresent(xs: seq<Option<real>>): (r: Option<seq<real>>)
    ensures r.Some? <==> forall i :: 0 <= i < |xs| ==> xs[i].Some?
    ensures r.Some? ==> |r.value| == |xs| && forall i :: 0 <= i < |xs| ==> xs[i] == Some(r.value[i])
  {
    if |xs| == 0 then Some([])
    else
      match xs[0]
      case None => None
      case Some(x) =>
        var rest :- AllPresent(xs[1..]);
        Some([x] + rest)
  }

  function Currents(chs: seq<Channel>): (r: seq<real>)
    ensures |r| == |chs| && forall i :: 0 <= i < |chs| ==> r[i] == chs[i].current
  {
    seq(|chs|, i requires 0 <= i < |chs| => chs[i].current)
  }

  function Highs(chs: seq<Channel>): (r: seq<Option<real>>)
    ensures |r| == |chs| && forall i :: 0 <= i < |chs| ==> r[i] == chs[i].high
  {
    seq(|chs|, i requires 0 <= i < |chs| => chs[i].high)
  }

  function Criticals(chs: seq<Channel>): (r: seq<Option<real>>)
    ensures |r| == |chs| && forall i :: 0 <= i < |chs| ==> r[i] == chs[i].critical
  {
    seq(|chs|, i requires 0 <= i < |chs| => chs[i].critical)
  }

  /** True when every channel reports both thresholds. */
  predicate HasThresholds(chs: seq<Channel>)
  {
    forall i :: 0 <= i < |chs| ==> chs[i].high.Some? && chs[i].critical.Some?
  }

  /** `sum(xs) / len(xs)`, which raises on an empty list. */
  function Average(xs: seq<real>): (r: Result<real, CpuError>)
    ensures r.Failure? <==> |xs| == 0
    ensures r.Failure? ==> r.error == ZeroDivisionError
    ensures r.Success? ==> r.value == Mean(xs)
  {
    if |xs| == 0 then Failure(ZeroDivisionError) else Success(Mean(xs))
  }

  /** The `for temp in ...` loop of `get_cpu` and its three
      `sum(...) / len(...)` divisions, for one channel list: the mean of each field. An empty list raises when `current` is
      divided; a missing threshold raises inside `sum`. */
  function GroupMeans(chs: seq<Channel>): (r: Result<TempCpu, CpuError>)
    ensures r.Success? <==> |chs| > 0 && HasThresholds(chs)
    ensures |chs| == 0 ==> r == Failure(ZeroDivisionError)
    ensures |chs| > 0 && !HasThresholds(chs) ==> r == Failure(TypeError)
    ensures r.Success? ==>
      && r.value.current == Mean(Currents(chs))
      && r.value.high == Mean(AllPresent(Highs(chs)).value)
      && r.value.critical == Mean(AllPresent(Criticals(chs)).value)
  {
    var current :- Average(Currents(chs));
    var highs :- AllPresent(Highs(chs)).ToResult(TypeError);
    var criticals :- AllPresent(Criticals(chs)).ToResult(TypeError);
    Success(TempCpu(current, Mean(highs), Mean(criticals)))
  }

  /** The `temp` record of `get_cpu`: the channel means of the sensor
      group, zeros when the capability is missing, a `KeyError` when the group is not reported. */
  function Temperature(temps: Option<map<string, seq<Channel>>>): (r: Result<TempCpu, CpuError>)
    ensures temps.None? ==> r == Success(DefaultTemp)
    ensures temps.Some? && SensorGroup !in temps.value ==> r == Failure(KeyError(SensorGroup))
    ensures temps.Some? && SensorGroup in temps.value ==> r == GroupMeans(temps.value[SensorGroup])
  {
    match temps
    case None => Success(DefaultTemp)
    case Some(groups) =>
      if SensorGroup !in groups then Failure(KeyError(SensorGroup))
      else GroupMeans(groups[SensorGroup])
  }

  /** `get_cpu`. The load and the temperature are computed first, so their
      exceptions propagate; only then is a missing core count turned into
      the all-default record, discarding what was read. */
  function GetCpu(host: Host): (r: Result<Cpu, CpuError>)
    ensures r.Success? <==>
      LoadPercent(host.cpuCount, host.loadAvg).Success? && Temperature(host.sensorsTemperatures).Success?
    ensures r.Success? && host.cpuCount.None? ==> r.value == DefaultCpu
    ensures r.Success? && host.cpuCount.Some? ==>
      && r.value.count == host.cpuCount.value
      && Success(r.value.percentUsage) == LoadPercent(host.cpuCount, host.loadAvg)
      && Success(r.value.sensorsTemperatures) == Temperature(host.sensorsTemperatures)
    ensures r.Success? && host.loadAvg.None? ==> r.value.percentUsage == DefaultUsage
    ensures r.Success? && host.sensorsTemperatures.None? ==> r.value.sensorsTemperatures == DefaultTemp
  {
    var usage :- LoadPercent(host.cpuCount, host.loadAvg);
    var temp :- Temperature(host.sensorsTemperatures);
    match host.cpuCount
    case None => Success(DefaultCpu)
    case Some(n) => Success(Cpu(n, usage, temp))
  }

  /** Without a core count the record is all default, even when the
      temperatures were read successfully and a load was available. */
  lemma NoCountDiscardsReadings(host: Host)
    requires host.cpuCount.None?
    requires host.sensorsTemperatures.Some? && SensorGroup in host.sensorsTemperatures.value
    requires var chs := host.sensorsTemperatures.value[SensorGroup];
      |chs| > 0 && HasThresholds(chs)
    ensures GetCpu(host) == Success(DefaultCpu)
  {
  }

  /** Each averaged field stays within the range of that field's channel
      readings: `lo` and `hi` bound the three fields separately. */
  lemma TemperatureWithinReadings(chs: seq<Channel>, lo: TempCpu, hi: TempCpu)
    requires |chs| > 0 && HasThresholds(chs)
    requires forall i :: 0 <= i < |chs| ==>
      && lo.current <= chs[i].current <= hi.current
      && lo.high <= chs[i].high.value <= hi.high
      && lo.critical <= chs[i].critical.value <= hi.critical
    ensures GroupMeans(chs).Success?
    ensures var t := GroupMeans(chs).value;
      && lo.current <= t.current <= hi.current
      && lo.high <= t.high <= hi.high
      && lo.critical <= t.critical <= hi.critical
  {
    MeanBounds(Currents(chs), lo.current, hi.current);
    MeanBounds(AllPresent(Highs(chs)).value, lo.high, hi.high);
    MeanBounds(AllPresent(Criticals(chs)).value, lo.critical, hi.critical);
  }

  /** Two channels (50, 80, 90) and (60, 90, 100) average to (55, 85, 95). */
  lemma TwoChannelMeans()
    ensures GroupMeans([Channel(50.0, Some(80.0), Some(90.0)),
                        Channel(60.0, Some(90.0), Some(100.0))])
            == Success(TempCpu(55.0, 85.0, 95.0))
  {
  }
}
