/** Values exchanged by the EC2 alarm pipeline: instance records as discovery
    returns them, agent metric samples, alarm definitions, tags, and the
    exceptions that end a run. */
module AlarmTypes {

  datatype Option<+T> = None | Some(value: T) {
    /** The value, or `default` when absent (Python's `dict.get(key, default)`). */
    function GetOr(default: T): T {
      match this
      case Some(v) => v
      case None => default
    }
  }

  datatype Result<+T, +E> = Success(value: T) | Failure(error: E) {
    predicate IsFailure() {
      Failure?
    }

    function PropagateFailure<U>(): Result<U, E>
      requires Failure?
    {
      Failure(error)
    }

    function Extract(): T
      requires Success?
    {
      value
    }
  }

  /** The exceptions that escape `create_ec2_alarms`. */
  datatype Error =
    | NoAccountAlias                                  // `[0]` on an empty alias list
    | TopicNotFound(topicName: string, region: string)
    | InvalidSelection                                // neither instance ids nor a full tag pair
    | DiscoveryFailed                                 // `describe_instances` raised
    | MetricListingFailed(instanceId: string)         // `list_metrics` raised for this instance

  /** A `{'Key': ..., 'Value': ...}` pair, on instances and on alarms alike. */
  datatype Tag = Tag(key: string, value: string)

  /** A `{'Name': ..., 'Value': ...}` metric dimension. */
  datatype Dimension = Dimension(name: string, value: string)

  /** An instance record from `describe_instances`; the optional keys are
      `Option`s, a missing `Tags` key is the empty sequence. */
  datatype Instance = Instance(
    instanceId: string,
    instanceType: string,
    tags: seq<Tag>,
    imageId: Option<string>,
    platform: Option<string>)

  /** One entry of `list_metrics(...)['Metrics']`. */
  datatype Metric = Metric(metricName: string, dimensions: seq<Dimension>)

  /** What `list_metrics` gives for one instance: its metrics, or an exception. */
  datatype MetricListing = Listed(metrics: seq<Metric>) | ListingFailed

  datatype Comparison = GreaterThanOrEqualToThreshold | LessThanOrEqualToThreshold

  /** The keyword arguments of one `put_metric_alarm` call. */
  datatype AlarmConfig = AlarmConfig(
    alarmName: string,
    metricName: string,
    namespace: string,
    dimensions: seq<Dimension>,
    threshold: int,
    comparisonOperator: Comparison,
    actionsEnabled: bool,
    alarmActions: seq<string>,
    okActions: seq<string>,
    statistic: string,
    period: int,
    evaluationPeriods: int,
    treatMissingData: string)

  lemma AppendAssoc<T>(a: seq<T>, b: seq<T>, c: seq<T>)
    ensures (a + b) + c == a + (b + c)
  {
  }

  lemma TakeSnoc<T>(s: seq<T>, k: int)
    requires 0 <= k < |s|
    ensures s[..k + 1] == s[..k] + [s[k]]
  {
  }

  /** Concatenation of a sequence of sequences, left to right. */
  function Flatten<T>(ss: seq<seq<T>>): seq<T> {
    if ss == [] then [] else Flatten(ss[..|ss| - 1]) + ss[|ss| - 1]
  }

  lemma {:induction false} FlattenAppend<T>(xs: seq<seq<T>>, ys: seq<seq<T>>)
    ensures Flatten(xs + ys) == Flatten(xs) + Flatten(ys)
    decreases |ys|
  {
    if ys == [] {
      assert xs + ys == xs;
    } else {
      var n := |ys| - 1;
      var zs := xs + ys;
      assert zs[..|zs| - 1] == xs + ys[..n];
      assert zs[|zs| - 1] == ys[n];
      calc {
        Flatten(zs);
        Flatten(xs + ys[..n]) + ys[n];
        { FlattenAppend(xs, ys[..n]); }
        (Flatten(xs) + Flatten(ys[..n])) + ys[n];
        { AppendAssoc(Flatten(xs), Flatten(ys[..n]), ys[n]); }
        Flatten(xs) + Flatten(ys);
      }
    }
  }

  lemma FlattenSnoc<T>(ss: seq<seq<T>>, i: nat)
    requires i < |ss|
    ensures Flatten(ss[..i + 1]) == Flatten(ss[..i]) + ss[i]
  {
    assert ss[..i + 1][..i] == ss[..i];
  }
}
