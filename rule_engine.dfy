/** The alarm rule engine of `process_instance`: which alarms one EC2
    instance gets, under which names and with which parameters. The
    `list_metrics` call it makes for Linux instances is a parameter,
    `listing`, giving for an instance id what that call returns. */
module RuleEngine {
  import opened AlarmTypes

  /** The run-wide values every alarm is built from: the alarm-name prefix
      (the module global `alarm_prefix`), the account alias and the ARN of
      the notification topic. */
  datatype Context = Context(prefix: string, accountAlias: string, topicArn: string)

  const StatusCheckSuffix: string := "status-check"
  const CpuSuffix: string := "cpu-used"
  const MemSuffix: string := "mem-used"
  const DiskSuffix: string := "disk-used"

  const LinuxPlatform: string := "linux"
  const WindowsPlatform: string := "windows"

  /** `{alarm_prefix}_{account_alias}_ec2_{instance_name}_{suffix}` */
  function AlarmName(ctx: Context, instanceName: string, suffix: string): string {
    ctx.prefix + "_" + ctx.accountAlias + "_ec2_" + instanceName + "_" + suffix
  }

  /** The names the alarms of an instance with this display name can have. */
  function InstanceAlarmNames(ctx: Context, instanceName: string): set<string> {
    {AlarmName(ctx, instanceName, StatusCheckSuffix), AlarmName(ctx, instanceName, CpuSuffix),
     AlarmName(ctx, instanceName, MemSuffix), AlarmName(ctx, instanceName, DiskSuffix)}
  }

  /** The value of the first `Name` tag, `"UnnamedInstance"` when there is none. */
  function DisplayName(tags: seq<Tag>): (name: string)
    ensures (forall k | 0 <= k < |tags| :: tags[k].key != "Name") ==> name == "UnnamedInstance"
    ensures forall k | 0 <= k < |tags| && tags[k].key == "Name" && (forall j | 0 <= j < k :: tags[j].key != "Name") ::
              name == tags[k].value
  {
    if tags == [] then "UnnamedInstance"
    else if tags[0].key == "Name" then tags[0].value
    else
      assert forall k | 1 <= k < |tags| :: tags[1..][k - 1] == tags[k];
      DisplayName(tags[1..])
  }

  /** `ImageId`, `"UnknownImage"` when the record has none. */
  function ImageIdOf(inst: Instance): string {
    inst.imageId.GetOr("UnknownImage")
  }

  /** `str.lower` on the ASCII letters. */
  function LowerChar(c: char): char {
    if 'A' <= c <= 'Z' then (c as int + 32) as char else c
  }

  function Lower(s: string): (r: string)
    ensures |r| == |s|
    ensures forall i | 0 <= i < |s| :: r[i] == LowerChar(s[i])
  {
    if s == [] then [] else [LowerChar(s[0])] + Lower(s[1..])
  }

  /** `instance.get('Platform', 'linux').lower()` */
  function PlatformOf(inst: Instance): string {
    Lower(inst.platform.GetOr(LinuxPlatform))
  }

  /** `{**base_alarm, ...}`: an alarm carrying the parameters all alarms share. */
  function NewAlarm(ctx: Context, name: string, metricName: string, namespace: string,
                    dimensions: seq<Dimension>, threshold: int, cmp: Comparison): AlarmConfig
  {
    AlarmConfig(name, metricName, namespace, dimensions, threshold, cmp,
                true, [ctx.topicArn], [ctx.topicArn], "Average", 60, 5, "breaching")
  }

  /** The parameters of `base_alarm`, as a property of an alarm. */
  predicate SharesBaseParameters(ctx: Context, a: AlarmConfig) {
    && a.actionsEnabled
    && a.alarmActions == [ctx.topicArn]
    && a.okActions == [ctx.topicArn]
    && a.statistic == "Average"
    && a.period == 60
    && a.evaluationPeriods == 5
    && a.treatMissingData == "breaching"
  }

  function InstanceIdDimensions(inst: Instance): seq<Dimension> {
    [Dimension("InstanceId", inst.instanceId)]
  }

  function StatusCheckAlarm(ctx: Context, inst: Instance): AlarmConfig {
    NewAlarm(ctx, AlarmName(ctx, DisplayName(inst.tags), StatusCheckSuffix), "StatusCheckFailed", "AWS/EC2",
             InstanceIdDimensions(inst), 1, GreaterThanOrEqualToThreshold)
  }

  function CpuAlarm(ctx: Context, inst: Instance): AlarmConfig {
    NewAlarm(ctx, AlarmName(ctx, DisplayName(inst.tags), CpuSuffix), "CPUUtilization", "AWS/EC2",
             InstanceIdDimensions(inst), 95, GreaterThanOrEqualToThreshold)
  }

  function BaselineAlarms(ctx: Context, inst: Instance): seq<AlarmConfig> {
    [StatusCheckAlarm(ctx, inst), CpuAlarm(ctx, inst)]
  }

  // ---------------------------------------------------------------- Linux

  /** The alarm for a `mem_used_percent` sample with these dimensions. */
  function MemAlarm(ctx: Context, inst: Instance, dims: seq<Dimension>): AlarmConfig {
    NewAlarm(ctx, AlarmName(ctx, DisplayName(inst.tags), MemSuffix), "mem_used_percent", "CWAgent",
             dims, 95, GreaterThanOrEqualToThreshold)
  }

  /** The alarm for a `disk_used_percent` sample with these dimensions. */
  function DiskAlarm(ctx: Context, inst: Instance, dims: seq<Dimension>): AlarmConfig {
    NewAlarm(ctx, AlarmName(ctx, DisplayName(inst.tags), DiskSuffix), "disk_used_percent", "CWAgent",
             dims, 95, GreaterThanOrEqualToThreshold)
  }

  const RootPath: Dimension := Dimension("path", "/")

  predicate IsRootPath(d: Dimension) {
    d.name == "path" && d.value == "/"
  }

  /** One disk alarm over all of `dims` for each root-path dimension in `seen`. */
  function RootPathAlarms(ctx: Context, inst: Instance, seen: seq<Dimension>, dims: seq<Dimension>): seq<AlarmConfig> {
    if seen == [] then []
    else
      RootPathAlarms(ctx, inst, seen[..|seen| - 1], dims)
      + (if IsRootPath(seen[|seen| - 1]) then [DiskAlarm(ctx, inst, dims)] else [])
  }

  /** The alarms one agent metric sample gives rise to. */
  function SampleAlarms(ctx: Context, inst: Instance, m: Metric): seq<AlarmConfig> {
    (if m.metricName == "mem_used_percent" then [MemAlarm(ctx, inst, m.dimensions)] else [])
    + (if m.metricName == "disk_used_percent" then RootPathAlarms(ctx, inst, m.dimensions, m.dimensions) else [])
  }

  /** The optional alarms of a Linux instance whose agent publishes `ms`. */
  function LinuxAlarms(ctx: Context, inst: Instance, ms: seq<Metric>): seq<AlarmConfig> {
    if ms == [] then []
    else LinuxAlarms(ctx, inst, ms[..|ms| - 1]) + SampleAlarms(ctx, inst, ms[|ms| - 1])
  }

  /** Alarm `a` is one that sample `m` calls for. */
  ghost predicate ProducedBy(ctx: Context, inst: Instance, m: Metric, a: AlarmConfig) {
    || (m.metricName == "mem_used_percent" && a == MemAlarm(ctx, inst, m.dimensions))
    || (m.metricName == "disk_used_percent" && RootPath in m.dimensions && a == DiskAlarm(ctx, inst, m.dimensions))
  }

  // -------------------------------------------------------------- Windows

  function WindowsMemAlarm(ctx: Context, inst: Instance): AlarmConfig {
    NewAlarm(ctx, AlarmName(ctx, DisplayName(inst.tags), MemSuffix), "Memory % Committed Bytes In Use", "CWAgent",
             [Dimension("InstanceId", inst.instanceId), Dimension("ImageId", ImageIdOf(inst)),
              Dimension("objectname", "Memory"), Dimension("InstanceType", inst.instanceType)],
             95, GreaterThanOrEqualToThreshold)
  }

  function WindowsDiskAlarm(ctx: Context, inst: Instance): AlarmConfig {
    NewAlarm(ctx, AlarmName(ctx, DisplayName(inst.tags), DiskSuffix), "LogicalDisk % Free Space", "CWAgent",
             [Dimension("InstanceId", inst.instanceId), Dimension("ImageId", ImageIdOf(inst)),
              Dimension("objectname", "LogicalDisk"), Dimension("InstanceType", inst.instanceType),
              Dimension("instance", "C:")],
             5, LessThanOrEqualToThreshold)
  }

  // --------------------------------------------------------- the engine

  /** What `process_instance` returns for `inst`, or the exception it raises. */
  function InstanceAlarms(ctx: Context, inst: Instance, listing: string -> MetricListing): Result<seq<AlarmConfig>, Error> {
    var base := BaselineAlarms(ctx, inst);
    if PlatformOf(inst) == LinuxPlatform then
      match listing(inst.instanceId)
      case ListingFailed => Failure(MetricListingFailed(inst.instanceId))
      case Listed(ms) => Success(base + LinuxAlarms(ctx, inst, ms))
    else if PlatformOf(inst) == WindowsPlatform then
      Success(base + [WindowsMemAlarm(ctx, inst), WindowsDiskAlarm(ctx, inst)])
    else
      Success(base)
  }

  /** `process_instance` raises exactly when the instance is Linux and its
      metrics cannot be listed. */
  lemma InstanceAlarmsFailure(ctx: Context, inst: Instance, listing: string -> MetricListing)
    ensures var r := InstanceAlarms(ctx, inst, listing);
      && (r.Failure? <==> PlatformOf(inst) == LinuxPlatform && listing(inst.instanceId).ListingFailed?)
      && (r.Failure? ==> r.error == MetricListingFailed(inst.instanceId))
  {
  }

  /** Otherwise the list starts with the status check and CPU alarms, and
      every alarm carries the base parameters and one of the instance's
      four names. */
  lemma InstanceAlarmsShape(ctx: Context, inst: Instance, listing: string -> MetricListing)
    ensures var r := InstanceAlarms(ctx, inst, listing);
      r.Success? ==>
      && |r.value| >= 2
      && r.value[0].alarmName == AlarmName(ctx, DisplayName(inst.tags), StatusCheckSuffix)
      && r.value[0].metricName == "StatusCheckFailed" && r.value[0].namespace == "AWS/EC2"
      && r.value[0].dimensions == [Dimension("InstanceId", inst.instanceId)]
      && r.value[0].threshold == 1 && r.value[0].comparisonOperator == GreaterThanOrEqualToThreshold
      && r.value[1].alarmName == AlarmName(ctx, DisplayName(inst.tags), CpuSuffix)
      && r.value[1].metricName == "CPUUtilization" && r.value[1].namespace == "AWS/EC2"
      && r.value[1].dimensions == [Dimension("InstanceId", inst.instanceId)]
      && r.value[1].threshold == 95 && r.value[1].comparisonOperator == GreaterThanOrEqualToThreshold
    ensures var r := InstanceAlarms(ctx, inst, listing);
      r.Success? ==> forall a | a in r.value ::
        SharesBaseParameters(ctx, a) && a.alarmName in InstanceAlarmNames(ctx, DisplayName(inst.tags))
  {
    var r := InstanceAlarms(ctx, inst, listing);
    var base := BaselineAlarms(ctx, inst);
    if r.Success? {
      var extra := r.value[2..];
      assert r.value == base + extra;
      if PlatformOf(inst) == LinuxPlatform {
        LinuxAlarmsSound(ctx, inst, listing(inst.instanceId).metrics);
        assert extra == LinuxAlarms(ctx, inst, listing(inst.instanceId).metrics);
      } else if PlatformOf(inst) == WindowsPlatform {
        assert extra == [WindowsMemAlarm(ctx, inst), WindowsDiskAlarm(ctx, inst)];
      } else {
        assert extra == [];
      }
      forall a | a in r.value
        ensures SharesBaseParameters(ctx, a) && a.alarmName in InstanceAlarmNames(ctx, DisplayName(inst.tags))
      {
        assert a in base || a in extra;
      }
    }
  }

  lemma LinuxAlarmsSnoc(ctx: Context, inst: Instance, ms: seq<Metric>, i: int)
    requires 0 <= i < |ms|
    ensures LinuxAlarms(ctx, inst, ms[..i + 1]) == LinuxAlarms(ctx, inst, ms[..i]) + SampleAlarms(ctx, inst, ms[i])
  {
    assert ms[..i + 1][..i] == ms[..i];
  }

  lemma RootPathAlarmsSnoc(ctx: Context, inst: Instance, dims: seq<Dimension>, j: int)
    requires 0 <= j < |dims|
    ensures IsRootPath(dims[j]) ==>
      RootPathAlarms(ctx, inst, dims[..j + 1], dims) == RootPathAlarms(ctx, inst, dims[..j], dims) + [DiskAlarm(ctx, inst, dims)]
    ensures !IsRootPath(dims[j]) ==> RootPathAlarms(ctx, inst, dims[..j + 1], dims) == RootPathAlarms(ctx, inst, dims[..j], dims)
  {
    assert dims[..j + 1][..j] == dims[..j];
  }

  /** The Linux branch of `InstanceAlarms` once the listing has answered. */
  lemma InstanceAlarmsLinux(ctx: Context, inst: Instance, listing: string -> MetricListing, ms: seq<Metric>)
    requires PlatformOf(inst) == LinuxPlatform && listing(inst.instanceId) == Listed(ms)
    ensures InstanceAlarms(ctx, inst, listing) == Success(BaselineAlarms(ctx, inst) + LinuxAlarms(ctx, inst, ms))
  {
  }

  /** The other branches of `InstanceAlarms`. */
  lemma InstanceAlarmsNotLinux(ctx: Context, inst: Instance, listing: string -> MetricListing)
    requires PlatformOf(inst) != LinuxPlatform
    ensures PlatformOf(inst) == WindowsPlatform ==>
      InstanceAlarms(ctx, inst, listing) == Success(BaselineAlarms(ctx, inst) + [WindowsMemAlarm(ctx, inst), WindowsDiskAlarm(ctx, inst)])
    ensures PlatformOf(inst) != WindowsPlatform ==> InstanceAlarms(ctx, inst, listing) == Success(BaselineAlarms(ctx, inst))
  {
  }

  /** The `for dimension in dimensions` loop of a `disk_used_percent`
      sample: one disk alarm appended to `configs` per root-path dimension. */
  method AppendRootPathAlarms(ctx: Context, inst: Instance, dims: seq<Dimension>, configs: seq<AlarmConfig>)
    returns (r: seq<AlarmConfig>)
    ensures r == configs + RootPathAlarms(ctx, inst, dims, dims)
  {
    r := configs;
    var j := 0;
    while j < |dims|
      invariant 0 <= j <= |dims|
      invariant r == configs + RootPathAlarms(ctx, inst, dims[..j], dims)
    {
      var dimension := dims[j];
      RootPathAlarmsSnoc(ctx, inst, dims, j);
      if dimension.name == "path" && dimension.value == "/" {
        AppendAssoc(configs, RootPathAlarms(ctx, inst, dims[..j], dims), [DiskAlarm(ctx, inst, dims)]);
        r := r + [DiskAlarm(ctx, inst, dims)];
      }
      j := j + 1;
    }
    assert dims[..j] == dims;
  }

  /** The body of the `for metric in metrics_available` loop: the memory
      alarm of a `mem_used_percent` sample, then the disk alarms of a
      `disk_used_percent` sample, appended to `configs`. */
  method AppendSampleAlarms(ctx: Context, inst: Instance, metric: Metric, configs: seq<AlarmConfig>)
    returns (r: seq<AlarmConfig>)
    ensures r == configs + SampleAlarms(ctx, inst, metric)
  {
    var dims := metric.dimensions;
    ghost var memPart := if metric.metricName == "mem_used_percent" then [MemAlarm(ctx, inst, dims)] else [];
    ghost var diskPart := if metric.metricName == "disk_used_percent" then RootPathAlarms(ctx, inst, dims, dims) else [];
    r := configs;
    if metric.metricName == "mem_used_percent" {
      r := r + [MemAlarm(ctx, inst, dims)];
    }
    if metric.metricName == "disk_used_percent" {
      r := AppendRootPathAlarms(ctx, inst, dims, r);
    }
    AppendAssoc(configs, memPart, diskPart);
  }

  /** The `for metric in metrics_available` loop: the alarms each agent
      sample calls for, appended to `configs` in listing order. */
  method AppendAgentAlarms(ctx: Context, inst: Instance, metrics: seq<Metric>, configs: seq<AlarmConfig>)
    returns (r: seq<AlarmConfig>)
    ensures r == configs + LinuxAlarms(ctx, inst, metrics)
  {
    r := configs;
    var i := 0;
    assert LinuxAlarms(ctx, inst, metrics[..0]) == [];
    while i < |metrics|
      invariant 0 <= i <= |metrics|
      invariant r == configs + LinuxAlarms(ctx, inst, metrics[..i])
    {
      r := AppendSampleAlarms(ctx, inst, metrics[i], r);
      LinuxAlarmsSnoc(ctx, inst, metrics, i);
      AppendAssoc(configs, LinuxAlarms(ctx, inst, metrics[..i]), SampleAlarms(ctx, inst, metrics[i]));
      i := i + 1;
    }
    assert metrics[..i] == metrics;
  }

  /** `process_instance`: builds the alarm list by appending, as the source does. */
  method ProcessInstance(ctx: Context, inst: Instance, listing: string -> MetricListing)
    returns (r: Result<seq<AlarmConfig>, Error>)
    ensures r == InstanceAlarms(ctx, inst, listing)
  {
    var platform := PlatformOf(inst);
    var configs := [StatusCheckAlarm(ctx, inst), CpuAlarm(ctx, inst)];
    if platform == LinuxPlatform {
      var reply := listing(inst.instanceId);
      if reply.ListingFailed? {
        return Failure(MetricListingFailed(inst.instanceId));
      }
      configs := AppendAgentAlarms(ctx, inst, reply.metrics, configs);
      InstanceAlarmsLinux(ctx, inst, listing, reply.metrics);
    } else if platform == WindowsPlatform {
      configs := configs + [WindowsMemAlarm(ctx, inst)];
      configs := configs + [WindowsDiskAlarm(ctx, inst)];
      assert configs == BaselineAlarms(ctx, inst) + [WindowsMemAlarm(ctx, inst), WindowsDiskAlarm(ctx, inst)];
      InstanceAlarmsNotLinux(ctx, inst, listing);
    } else {
      InstanceAlarmsNotLinux(ctx, inst, listing);
    }
    return Success(configs);
  }

  // ------------------------------------------------------------- lemmas

  /** Every optional Linux alarm comes from a sample of the listing, and
      shares the base parameters. */
  lemma {:induction false} LinuxAlarmsSound(ctx: Context, inst: Instance, ms: seq<Metric>)
    ensures forall a | a in LinuxAlarms(ctx, inst, ms) ::
      && SharesBaseParameters(ctx, a)
      && a.alarmName in InstanceAlarmNames(ctx, DisplayName(inst.tags))
      && exists m | m in ms :: ProducedBy(ctx, inst, m, a)
  {
    if ms != [] {
      var init, last := ms[..|ms| - 1], ms[|ms| - 1];
      LinuxAlarmsSound(ctx, inst, init);
      RootPathAlarmsAreDiskAlarms(ctx, inst, last.dimensions, last.dimensions);
      forall a | a in LinuxAlarms(ctx, inst, ms)
        ensures exists m | m in ms :: ProducedBy(ctx, inst, m, a)
      {
        if a in LinuxAlarms(ctx, inst, init) {
          var m :| m in init && ProducedBy(ctx, inst, m, a);
          assert m in ms;
        } else {
          assert ProducedBy(ctx, inst, last, a);
        }
      }
    }
  }

  /** Every alarm a sample of the listing calls for is emitted. */
  lemma {:induction false} LinuxAlarmsComplete(ctx: Context, inst: Instance, ms: seq<Metric>)
    ensures forall m, a | m in ms && ProducedBy(ctx, inst, m, a) :: a in LinuxAlarms(ctx, inst, ms)
  {
    if ms != [] {
      var init, last := ms[..|ms| - 1], ms[|ms| - 1];
      LinuxAlarmsComplete(ctx, inst, init);
      RootPathAlarmsCount(ctx, inst, last.dimensions, last.dimensions);
      forall m, a | m in ms && ProducedBy(ctx, inst, m, a)
        ensures a in LinuxAlarms(ctx, inst, ms)
      {
        if m in init {
          assert a in LinuxAlarms(ctx, inst, init);
        } else {
          assert m == last;
          if m.metricName == "disk_used_percent" {
            assert multiset(m.dimensions)[RootPath] > 0;
            var rp := RootPathAlarms(ctx, inst, m.dimensions, m.dimensions);
            assert rp[0] == a;
            assert a in SampleAlarms(ctx, inst, m);
          } else {
            assert a in SampleAlarms(ctx, inst, m);
          }
        }
      }
    }
  }

  /** The optional alarms follow the order of the listing. */
  lemma {:induction false} LinuxAlarmsAppend(ctx: Context, inst: Instance, xs: seq<Metric>, ys: seq<Metric>)
    ensures LinuxAlarms(ctx, inst, xs + ys) == LinuxAlarms(ctx, inst, xs) + LinuxAlarms(ctx, inst, ys)
    decreases |ys|
  {
    if ys == [] {
      assert xs + ys == xs;
    } else {
      var n := |ys| - 1;
      assert (xs + ys)[..|xs + ys| - 1] == xs + ys[..n];
      LinuxAlarmsAppend(ctx, inst, xs, ys[..n]);
    }
  }

  lemma RootPathAlarmsAreDiskAlarms(ctx: Context, inst: Instance, seen: seq<Dimension>, dims: seq<Dimension>)
    ensures forall a | a in RootPathAlarms(ctx, inst, seen, dims) :: a == DiskAlarm(ctx, inst, dims) && RootPath in seen
  {
    RootPathAlarmsCount(ctx, inst, seen, dims);
  }

  /** One disk alarm, over all the sample's dimensions, per root-path dimension. */
  lemma {:induction false} RootPathAlarmsCount(ctx: Context, inst: Instance, seen: seq<Dimension>, dims: seq<Dimension>)
    ensures |RootPathAlarms(ctx, inst, seen, dims)| == multiset(seen)[RootPath]
    ensures forall k | 0 <= k < |RootPathAlarms(ctx, inst, seen, dims)| ::
              RootPathAlarms(ctx, inst, seen, dims)[k] == DiskAlarm(ctx, inst, dims)
  {
    if seen != [] {
      var n := |seen| - 1;
      assert seen == seen[..n] + [seen[n]];
      assert multiset(seen) == multiset(seen[..n]) + multiset{seen[n]};
      assert IsRootPath(seen[n]) <==> seen[n] == RootPath;
      RootPathAlarmsCount(ctx, inst, seen[..n], dims);
    }
  }

  /** A sample gives one mem-used alarm if it is `mem_used_percent`, and one
      disk-used alarm per `path="/"` dimension if it is `disk_used_percent`. */
  lemma SampleAlarmsCount(ctx: Context, inst: Instance, m: Metric)
    ensures |SampleAlarms(ctx, inst, m)| ==
      (if m.metricName == "mem_used_percent" then 1 else 0)
      + (if m.metricName == "disk_used_percent" then multiset(m.dimensions)[RootPath] else 0)
  {
    RootPathAlarmsCount(ctx, inst, m.dimensions, m.dimensions);
  }

  /** A disk sample without a `path="/"` dimension gives no alarm. */
  lemma NoRootPathNoDiskAlarm(ctx: Context, inst: Instance, m: Metric)
    requires m.metricName == "disk_used_percent"
    requires RootPath !in m.dimensions
    ensures SampleAlarms(ctx, inst, m) == []
  {
    RootPathAlarmsCount(ctx, inst, m.dimensions, m.dimensions);
    assert multiset(m.dimensions)[RootPath] == 0;
  }

  /** A Linux instance whose agent publishes nothing gets the two baseline alarms. */
  lemma EmptyListingBaselineOnly(ctx: Context, inst: Instance, listing: string -> MetricListing)
    requires PlatformOf(inst) == LinuxPlatform && listing(inst.instanceId) == Listed([])
    ensures InstanceAlarms(ctx, inst, listing) == Success(BaselineAlarms(ctx, inst))
  {
    assert BaselineAlarms(ctx, inst) + LinuxAlarms(ctx, inst, []) == BaselineAlarms(ctx, inst);
  }

  /** Windows: four alarms with fixed content, whatever the listing says. */
  lemma WindowsFixedAlarms(ctx: Context, inst: Instance, l1: string -> MetricListing, l2: string -> MetricListing)
    requires PlatformOf(inst) == WindowsPlatform
    ensures InstanceAlarms(ctx, inst, l1) == InstanceAlarms(ctx, inst, l2)
    ensures var r := InstanceAlarms(ctx, inst, l1);
      && r.Success? && |r.value| == 4
      && r.value[2].alarmName == AlarmName(ctx, DisplayName(inst.tags), MemSuffix)
      && r.value[2].metricName == "Memory % Committed Bytes In Use" && r.value[2].namespace == "CWAgent"
      && r.value[2].dimensions == [Dimension("InstanceId", inst.instanceId), Dimension("ImageId", ImageIdOf(inst)),
                                   Dimension("objectname", "Memory"), Dimension("InstanceType", inst.instanceType)]
      && r.value[2].threshold == 95 && r.value[2].comparisonOperator == GreaterThanOrEqualToThreshold
      && r.value[3].alarmName == AlarmName(ctx, DisplayName(inst.tags), DiskSuffix)
      && r.value[3].metricName == "LogicalDisk % Free Space" && r.value[3].namespace == "CWAgent"
      && r.value[3].dimensions == [Dimension("InstanceId", inst.instanceId), Dimension("ImageId", ImageIdOf(inst)),
                                   Dimension("objectname", "LogicalDisk"), Dimension("InstanceType", inst.instanceType),
                                   Dimension("instance", "C:")]
      && r.value[3].threshold == 5 && r.value[3].comparisonOperator == LessThanOrEqualToThreshold
  {
  }

  /** A platform other than linux or windows gets the two baseline alarms only. */
  lemma OtherPlatformBaselineOnly(ctx: Context, inst: Instance, listing: string -> MetricListing)
    requires PlatformOf(inst) != LinuxPlatform && PlatformOf(inst) != WindowsPlatform
    ensures InstanceAlarms(ctx, inst, listing) == Success(BaselineAlarms(ctx, inst))
  {
  }

  /** The four suffixes give one instance four different names. */
  lemma SuffixesGiveDistinctNames(ctx: Context, instanceName: string)
    ensures |InstanceAlarmNames(ctx, instanceName)| == 4
  {
    var stem := ctx.prefix + "_" + ctx.accountAlias + "_ec2_" + instanceName + "_";
    var suffixes := [StatusCheckSuffix, CpuSuffix, MemSuffix, DiskSuffix];
    forall i, j | 0 <= i < j < 4 ensures AlarmName(ctx, instanceName, suffixes[i]) != AlarmName(ctx, instanceName, suffixes[j]) {
      assert AlarmName(ctx, instanceName, suffixes[i]) == stem + suffixes[i];
      assert AlarmName(ctx, instanceName, suffixes[j]) == stem + suffixes[j];
      assert (stem + suffixes[i])[|stem|..] == suffixes[i];
      assert (stem + suffixes[j])[|stem|..] == suffixes[j];
    }
    var s := AlarmName(ctx, instanceName, StatusCheckSuffix);
    var c := AlarmName(ctx, instanceName, CpuSuffix);
    var m := AlarmName(ctx, instanceName, MemSuffix);
    var d := AlarmName(ctx, instanceName, DiskSuffix);
    assert s != c && s != m && s != d && c != m && c != d && m != d by {
      assert s == AlarmName(ctx, instanceName, suffixes[0]);
      assert c == AlarmName(ctx, instanceName, suffixes[1]);
      assert m == AlarmName(ctx, instanceName, suffixes[2]);
      assert d == AlarmName(ctx, instanceName, suffixes[3]);
    }
    assert InstanceAlarmNames(ctx, instanceName) == {s} + {c} + {m} + {d};
  }

  /** Names are not made unique across instances: two instances with the
      same display name get the same baseline alarm names. */
  lemma SameDisplayNameSameNames(ctx: Context, i1: Instance, i2: Instance, l1: string -> MetricListing, l2: string -> MetricListing)
    requires DisplayName(i1.tags) == DisplayName(i2.tags)
    requires InstanceAlarms(ctx, i1, l1).Success? && InstanceAlarms(ctx, i2, l2).Success?
    ensures InstanceAlarms(ctx, i1, l1).value[0].alarmName == InstanceAlarms(ctx, i2, l2).value[0].alarmName
    ensures InstanceAlarms(ctx, i1, l1).value[1].alarmName == InstanceAlarms(ctx, i2, l2).value[1].alarmName
  {
    InstanceAlarmsShape(ctx, i1, l1);
    InstanceAlarmsShape(ctx, i2, l2);
  }

  /** Nor within one instance: two `mem_used_percent` samples give two
      alarms of the same name. */
  lemma RepeatedSampleRepeatsName(ctx: Context, inst: Instance, d1: seq<Dimension>, d2: seq<Dimension>)
    ensures var alarms := LinuxAlarms(ctx, inst, [Metric("mem_used_percent", d1), Metric("mem_used_percent", d2)]);
      |alarms| == 2 && alarms[0].alarmName == alarms[1].alarmName
  {
    var ms := [Metric("mem_used_percent", d1), Metric("mem_used_percent", d2)];
    assert ms[..1] == [ms[0]];
    assert [ms[0]][..0] == [];
    assert LinuxAlarms(ctx, inst, [ms[0]]) == [MemAlarm(ctx, inst, d1)];
    assert LinuxAlarms(ctx, inst, ms) == [MemAlarm(ctx, inst, d1), MemAlarm(ctx, inst, d2)];
  }
  /** `AlarmName` with its parts concatenated left to right. */
  lemma AlarmNameSpelled(ctx: Context, instanceName: string, suffix: string, stem: string)
    requires stem == ctx.prefix + "_" + ctx.accountAlias + "_ec2_" + instanceName + "_"
    ensures AlarmName(ctx, instanceName, suffix) == stem + suffix
  {
  }

  /** The names of the web1 alarms, spelled out. */
  lemma Web1Names(topicArn: string)
    ensures var ctx := Context("gl", "acme", topicArn);
      && AlarmName(ctx, "web1", StatusCheckSuffix) == "gl_acme_ec2_web1_status-check"
      && AlarmName(ctx, "web1", CpuSuffix) == "gl_acme_ec2_web1_cpu-used"
      && AlarmName(ctx, "web1", MemSuffix) == "gl_acme_ec2_web1_mem-used"
      && AlarmName(ctx, "web1", DiskSuffix) == "gl_acme_ec2_web1_disk-used"
  {
    var ctx := Context("gl", "acme", topicArn);
    var stem := "gl_acme_ec2_web1_";
    assert stem == ctx.prefix + "_" + ctx.accountAlias + "_ec2_" + "web1" + "_";
    AlarmNameSpelled(ctx, "web1", StatusCheckSuffix, stem);
    AlarmNameSpelled(ctx, "web1", CpuSuffix, stem);
    AlarmNameSpelled(ctx, "web1", MemSuffix, stem);
    AlarmNameSpelled(ctx, "web1", DiskSuffix, stem);
  }

  /** The names of the db1 alarms, spelled out. */
  lemma Db1Names(topicArn: string)
    ensures var ctx := Context("gl", "acme", topicArn);
      && AlarmName(ctx, "db1", StatusCheckSuffix) == "gl_acme_ec2_db1_status-check"
      && AlarmName(ctx, "db1", CpuSuffix) == "gl_acme_ec2_db1_cpu-used"
      && AlarmName(ctx, "db1", MemSuffix) == "gl_acme_ec2_db1_mem-used"
      && AlarmName(ctx, "db1", DiskSuffix) == "gl_acme_ec2_db1_disk-used"
  {
    var ctx := Context("gl", "acme", topicArn);
    var stem := "gl_acme_ec2_db1_";
    assert stem == ctx.prefix + "_" + ctx.accountAlias + "_ec2_" + "db1" + "_";
    AlarmNameSpelled(ctx, "db1", StatusCheckSuffix, stem);
    AlarmNameSpelled(ctx, "db1", CpuSuffix, stem);
    AlarmNameSpelled(ctx, "db1", MemSuffix, stem);
    AlarmNameSpelled(ctx, "db1", DiskSuffix, stem);
  }

  /** A Linux instance named web1 whose agent publishes memory and root-disk
      usage gets exactly four alarms, in this order. */
  lemma LinuxScenario(topicArn: string, id: string, instanceType: string, listing: string -> MetricListing)
    requires listing(id) == Listed([Metric("mem_used_percent", [Dimension("InstanceId", id)]),
                                    Metric("disk_used_percent", [Dimension("InstanceId", id), RootPath])])
    ensures var r := InstanceAlarms(Context("gl", "acme", topicArn),
                                    Instance(id, instanceType, [Tag("Name", "web1")], None, None), listing);
      && r.Success? && |r.value| == 4
      && r.value[0].alarmName == "gl_acme_ec2_web1_status-check"
      && r.value[1].alarmName == "gl_acme_ec2_web1_cpu-used"
      && r.value[2].alarmName == "gl_acme_ec2_web1_mem-used"
      && r.value[3].alarmName == "gl_acme_ec2_web1_disk-used"
  {
    var ctx := Context("gl", "acme", topicArn);
    var inst := Instance(id, instanceType, [Tag("Name", "web1")], None, None);
    Web1Names(topicArn);
    assert DisplayName(inst.tags) == "web1";
    assert PlatformOf(inst) == LinuxPlatform;
    var mem := Metric("mem_used_percent", [Dimension("InstanceId", id)]);
    var disk := Metric("disk_used_percent", [Dimension("InstanceId", id), RootPath]);
    var dims := disk.dimensions;
    assert dims[..1] == [dims[0]] && [dims[0]][..0] == [] && dims[..|dims| - 1] == dims[..1];
    assert !IsRootPath(dims[0]) by { assert dims[0].name[0] == 'I'; }
    assert RootPathAlarms(ctx, inst, dims[..1], dims) == [];
    assert RootPathAlarms(ctx, inst, dims, dims) == [DiskAlarm(ctx, inst, dims)];
    assert [mem, disk][..1] == [mem] && [mem][..0] == [];
    assert LinuxAlarms(ctx, inst, [mem]) == [MemAlarm(ctx, inst, mem.dimensions)];
    assert LinuxAlarms(ctx, inst, [mem, disk]) == [MemAlarm(ctx, inst, mem.dimensions), DiskAlarm(ctx, inst, dims)];
  }

  lemma LowerWindows()
    ensures Lower("Windows") == WindowsPlatform
  {
    var r := Lower("Windows");
    assert |r| == 7;
    assert r[0] == 'w' && r[1] == 'i' && r[2] == 'n' && r[3] == 'd' && r[4] == 'o' && r[5] == 'w' && r[6] == 's';
  }

  /** A Windows instance named db1 gets the four fixed alarms, the disk one
      firing at or below 5 % free space. */
  lemma WindowsScenario(topicArn: string, id: string, instanceType: string, listing: string -> MetricListing)
    ensures var r := InstanceAlarms(Context("gl", "acme", topicArn),
                                    Instance(id, instanceType, [Tag("Name", "db1")], None, Some("Windows")), listing);
      && r.Success? && |r.value| == 4
      && r.value[0].alarmName == "gl_acme_ec2_db1_status-check"
      && r.value[1].alarmName == "gl_acme_ec2_db1_cpu-used"
      && r.value[2].alarmName == "gl_acme_ec2_db1_mem-used"
      && r.value[3].alarmName == "gl_acme_ec2_db1_disk-used"
      && r.value[3].comparisonOperator == LessThanOrEqualToThreshold && r.value[3].threshold == 5
      && forall k | 0 <= k < 3 :: r.value[k].comparisonOperator == GreaterThanOrEqualToThreshold
  {
    var inst := Instance(id, instanceType, [Tag("Name", "db1")], None, Some("Windows"));
    Db1Names(topicArn);
    assert DisplayName(inst.tags) == "db1";
    LowerWindows();
    assert PlatformOf(inst) == WindowsPlatform;
  }
}
