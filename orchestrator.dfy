/** `create_ec2_alarms`: the account alias, the notification topic, the
    selection check, paged discovery, the rule engine applied to every
    instance, and the submission in batches of ten. What AWS answers during
    a run is an input, `Environment`. */
module Orchestrator {
  import opened AlarmTypes
  import opened RuleEngine
  import opened TopicLookup
  import opened Submission

  const DefaultAccountAlias: string := "default-account"
  const BatchSize: int := 10

  /** `iam.list_account_aliases().get('AccountAliases', ['default-account'])[0]`,
      where `aliases` is the `AccountAliases` entry, `None` when the key is missing. */
  function AccountAlias(aliases: Option<seq<string>>): (r: Result<string, Error>)
    ensures r.Failure? <==> aliases == Some([])
    ensures r.Failure? ==> r.error == NoAccountAlias
    ensures aliases.None? ==> r == Success(DefaultAccountAlias)
    ensures aliases.Some? && aliases.value != [] ==> r == Success(aliases.value[0])
  {
    match aliases
    case None => Success(DefaultAccountAlias)
    case Some(names) => if names == [] then Failure(NoAccountAlias) else Success(names[0])
  }

  /** How `describe_instances` is asked for the instances of the run. */
  datatype Query =
    | ByInstanceIds(instanceIds: seq<string>)
    | ByFilter(filterName: string, filterValues: seq<string>)

  /** The selection check, then the choice between the id list and the tag filter. */
  function SelectQuery(instanceIds: seq<string>, tagName: string, tagValue: string): (r: Result<Query, Error>)
    ensures r.Failure? <==> instanceIds == [] && (tagName == "" || tagValue == "")
    ensures r.Failure? ==> r.error == InvalidSelection
    ensures r.Success? ==> (r.value.ByFilter? <==> instanceIds == [])
    ensures r.Success? && r.value.ByFilter? ==> r.value == ByFilter("tag:" + tagName, [tagValue])
    ensures r.Success? && r.value.ByInstanceIds? ==> r.value.instanceIds == instanceIds
  {
    if instanceIds == [] && (tagName == "" || tagValue == "") then Failure(InvalidSelection)
    else if instanceIds == [] then Success(ByFilter("tag:" + tagName, [tagValue]))
    else Success(ByInstanceIds(instanceIds))
  }

  datatype Reservation = Reservation(instances: seq<Instance>)

  /** What the `describe_instances` paginator does: the pages it yields, in
      order, and whether fetching the page after them raised instead of the
      pagination ending. Pages are fetched lazily, so a raising fetch comes
      after the instances of every earlier page were processed. */
  datatype Discovery = Discovery(pages: seq<seq<Reservation>>, fetchFails: bool)

  /** The instances of one page, reservation by reservation. */
  function PageInstances(page: seq<Reservation>): seq<Instance> {
    if page == [] then [] else PageInstances(page[..|page| - 1]) + page[|page| - 1].instances
  }

  /** The instances of a run, page by page. */
  function RunInstances(pages: seq<seq<Reservation>>): seq<Instance> {
    if pages == [] then [] else RunInstances(pages[..|pages| - 1]) + PageInstances(pages[|pages| - 1])
  }

  lemma {:induction false} RunInstancesAppend(xs: seq<seq<Reservation>>, ys: seq<seq<Reservation>>)
    ensures RunInstances(xs + ys) == RunInstances(xs) + RunInstances(ys)
    decreases |ys|
  {
    if ys == [] {
      assert xs + ys == xs;
    } else {
      var n := |ys| - 1;
      var zs := xs + ys;
      assert zs[..|zs| - 1] == xs + ys[..n];
      assert zs[|zs| - 1] == ys[n];
      calc {
        RunInstances(zs);
        RunInstances(zs[..|zs| - 1]) + PageInstances(zs[|zs| - 1]);
        RunInstances(xs + ys[..n]) + PageInstances(ys[n]);
        { RunInstancesAppend(xs, ys[..n]); }
        (RunInstances(xs) + RunInstances(ys[..n])) + PageInstances(ys[n]);
        { AppendAssoc(RunInstances(xs), RunInstances(ys[..n]), PageInstances(ys[n])); }
        RunInstances(xs) + (RunInstances(ys[..n]) + PageInstances(ys[n]));
        RunInstances(xs) + RunInstances(ys);
      }
    }
  }

  /** The rule engine of a run, as a function of the instance. */
  function Engine(ctx: Context, listing: string -> MetricListing): Instance -> Result<seq<AlarmConfig>, Error> {
    inst => InstanceAlarms(ctx, inst, listing)
  }

  /** The futures of one page: the engine's outcome per instance, in submission order. */
  function Results(engine: Instance -> Result<seq<AlarmConfig>, Error>, insts: seq<Instance>): seq<Result<seq<AlarmConfig>, Error>> {
    seq(|insts|, i requires 0 <= i < |insts| => engine(insts[i]))
  }

  /** `all_alarm_configs` after extending it with each instance's result in
      turn, or the first exception a result re-raises. */
  function AlarmsFor(engine: Instance -> Result<seq<AlarmConfig>, Error>, insts: seq<Instance>): Result<seq<AlarmConfig>, Error> {
    if insts == [] then Success([])
    else
      var earlier := AlarmsFor(engine, insts[..|insts| - 1]);
      var mine := engine(insts[|insts| - 1]);
      if earlier.Failure? then earlier
      else if mine.Failure? then Failure(mine.error)
      else Success(earlier.value + mine.value)
  }

  /** The aggregate of a whole discovery: the instances of the pages read
      come first, and only when none of them raised does a failing page
      fetch end the run. */
  function Discovered(engine: Instance -> Result<seq<AlarmConfig>, Error>, d: Discovery): Result<seq<AlarmConfig>, Error> {
    var alarms :- AlarmsFor(engine, RunInstances(d.pages));
    if d.fetchFails then Failure(DiscoveryFailed) else Success(alarms)
  }

  /** The aggregate of two runs of instances is the concatenation of their
      aggregates; an exception in the first run wins over one in the second. */
  lemma {:induction false} AlarmsForAppend(engine: Instance -> Result<seq<AlarmConfig>, Error>, xs: seq<Instance>, ys: seq<Instance>)
    ensures AlarmsFor(engine, xs + ys) ==
      if AlarmsFor(engine, xs).Failure? then AlarmsFor(engine, xs)
      else if AlarmsFor(engine, ys).Failure? then Failure(AlarmsFor(engine, ys).error)
      else Success(AlarmsFor(engine, xs).value + AlarmsFor(engine, ys).value)
    decreases |ys|
  {
    if ys == [] {
      assert xs + ys == xs;
      assert AlarmsFor(engine, xs).Success? ==> AlarmsFor(engine, xs).value + [] == AlarmsFor(engine, xs).value;
    } else {
      var n := |ys| - 1;
      assert (xs + ys)[..|xs + ys| - 1] == xs + ys[..n];
      assert (xs + ys)[|xs + ys| - 1] == ys[n];
      AlarmsForAppend(engine, xs, ys[..n]);
      if AlarmsFor(engine, xs).Success? && AlarmsFor(engine, ys).Success? {
        var a, b, c := AlarmsFor(engine, xs).value, AlarmsFor(engine, ys[..n]).value,
                       engine(ys[n]).value;
        assert a + b + c == a + (b + c);
      }
    }
  }

  lemma AlarmsForOne(engine: Instance -> Result<seq<AlarmConfig>, Error>, inst: Instance)
    ensures AlarmsFor(engine, [inst]) == engine(inst)
  {
    assert [inst][..0] == [];
    var r := engine(inst);
    if r.Success? {
      assert [] + r.value == r.value;
    }
  }

  /** Instance errors are not isolated: the aggregate exists exactly when
      every instance's rule engine succeeds, and otherwise the run stops with
      the error of the first instance, in order, that failed. */
  lemma {:induction false} AlarmsForFirstFailure(engine: Instance -> Result<seq<AlarmConfig>, Error>, insts: seq<Instance>)
    ensures AlarmsFor(engine, insts).Success? <==>
              forall k | 0 <= k < |insts| :: engine(insts[k]).Success?
    ensures AlarmsFor(engine, insts).Failure? ==>
      exists k | 0 <= k < |insts| ::
        && engine(insts[k]) == Failure(AlarmsFor(engine, insts).error)
        && forall j | 0 <= j < k :: engine(insts[j]).Success?
  {
    if insts != [] {
      var n := |insts| - 1;
      var init := insts[..n];
      AlarmsForFirstFailure(engine, init);
      assert forall k | 0 <= k < n :: init[k] == insts[k];
      if AlarmsFor(engine, init).Failure? {
        var k :| 0 <= k < |init| && engine(init[k]) == Failure(AlarmsFor(engine, init).error)
                 && forall j | 0 <= j < k :: engine(init[j]).Success?;
        assert engine(insts[k]) == Failure(AlarmsFor(engine, insts).error);
      } else if engine(insts[n]).Failure? {
        assert engine(insts[n]) == Failure(AlarmsFor(engine, insts).error);
      }
    }
  }

  lemma ResultsSnoc(engine: Instance -> Result<seq<AlarmConfig>, Error>, insts: seq<Instance>, inst: Instance)
    ensures Results(engine, insts + [inst]) == Results(engine, insts) + [engine(inst)]
  {
  }

  /** The futures submitted for the instances of one reservation, after
      those already submitted for the instances `done`. */
  method SubmitReservation(ctx: Context, listing: string -> MetricListing, ghost done: seq<Instance>,
                           instances: seq<Instance>, futures: seq<Result<seq<AlarmConfig>, Error>>)
    returns (r: seq<Result<seq<AlarmConfig>, Error>>)
    requires futures == Results(Engine(ctx, listing), done)
    ensures r == Results(Engine(ctx, listing), done + instances)
  {
    ghost var engine := Engine(ctx, listing);
    r := futures;
    var k := 0;
    assert done + instances[..k] == done;
    while k < |instances|
      invariant 0 <= k <= |instances|
      invariant r == Results(engine, done + instances[..k])
    {
      var result := ProcessInstance(ctx, instances[k], listing);
      ResultsSnoc(engine, done + instances[..k], instances[k]);
      r := r + [result];
      TakeSnoc(instances, k);
      AppendAssoc(done, instances[..k], [instances[k]]);
      k := k + 1;
    }
    assert instances[..k] == instances;
  }

  lemma PageInstancesSnoc(page: seq<Reservation>, q: int)
    requires 0 <= q < |page|
    ensures PageInstances(page[..q + 1]) == PageInstances(page[..q]) + page[q].instances
  {
    assert page[..q + 1][..q] == page[..q];
  }

  /** One `ThreadPoolExecutor` block of `create_ec2_alarms`: a future per
      instance of the page, in reservation and instance order. */
  method SubmitPage(ctx: Context, page: seq<Reservation>, listing: string -> MetricListing)
    returns (futures: seq<Result<seq<AlarmConfig>, Error>>)
    ensures futures == Results(Engine(ctx, listing), PageInstances(page))
  {
    futures := [];
    var q := 0;
    while q < |page|
      invariant 0 <= q <= |page|
      invariant futures == Results(Engine(ctx, listing), PageInstances(page[..q]))
    {
      futures := SubmitReservation(ctx, listing, PageInstances(page[..q]), page[q].instances, futures);
      PageInstancesSnoc(page, q);
      q := q + 1;
    }
    assert page[..q] == page;
  }

  lemma RunInstancesSnoc(pages: seq<seq<Reservation>>, p: int)
    requires 0 <= p < |pages|
    ensures RunInstances(pages[..p + 1]) == RunInstances(pages[..p]) + PageInstances(pages[p])
  {
    assert pages[..p + 1][..p] == pages[..p];
  }

  /** The instances of a run split around instance `f` of page `p`. */
  lemma RunInstancesAround(pages: seq<seq<Reservation>>, p: int, f: int)
    requires 0 <= p < |pages| && 0 <= f < |PageInstances(pages[p])|
    ensures var pageInsts := PageInstances(pages[p]);
      RunInstances(pages) ==
        (RunInstances(pages[..p]) + pageInsts[..f] + [pageInsts[f]]) + (pageInsts[f + 1..] + RunInstances(pages[p + 1..]))
  {
    var pageInsts := PageInstances(pages[p]);
    var before, after := RunInstances(pages[..p]), RunInstances(pages[p + 1..]);
    calc {
      RunInstances(pages);
      { assert pages == pages[..p + 1] + pages[p + 1..]; RunInstancesAppend(pages[..p + 1], pages[p + 1..]); }
      RunInstances(pages[..p + 1]) + after;
      { RunInstancesSnoc(pages, p); }
      before + pageInsts + after;
      { assert pageInsts == pageInsts[..f] + [pageInsts[f]] + pageInsts[f + 1..]; }
      before + (pageInsts[..f] + [pageInsts[f]] + pageInsts[f + 1..]) + after;
      (before + pageInsts[..f] + [pageInsts[f]]) + (pageInsts[f + 1..] + after);
    }
  }

  /** Reading back future `f` of page `p`: it extends the aggregate, or it
      raises and the run's aggregate is that exception. */
  lemma ReadBackStep(engine: Instance -> Result<seq<AlarmConfig>, Error>, pages: seq<seq<Reservation>>, p: int, f: int, all: seq<AlarmConfig>)
    requires 0 <= p < |pages| && 0 <= f < |PageInstances(pages[p])|
    requires AlarmsFor(engine, RunInstances(pages[..p]) + PageInstances(pages[p])[..f]) == Success(all)
    ensures var x := PageInstances(pages[p])[f];
      && (engine(x).Failure? ==> AlarmsFor(engine, RunInstances(pages)) == Failure(engine(x).error))
      && (engine(x).Success? ==>
            AlarmsFor(engine, RunInstances(pages[..p]) + PageInstances(pages[p])[..f + 1]) == Success(all + engine(x).value))
  {
    var pageInsts := PageInstances(pages[p]);
    var done := RunInstances(pages[..p]) + pageInsts[..f];
    var x := pageInsts[f];
    assert done + [x] == RunInstances(pages[..p]) + pageInsts[..f + 1];
    AlarmsForAppend(engine, done, [x]);
    AlarmsForOne(engine, x);
    if engine(x).Failure? {
      RunInstancesAround(pages, p, f);
      AlarmsForAppend(engine, done + [x], pageInsts[f + 1..] + RunInstances(pages[p + 1..]));
    }
  }

  /** The inner aggregation loop of `create_ec2_alarms` over the futures of
      page `p`: each result is appended to `all`, and the first one that
      raises ends the run. */
  method ReadBackPage(ghost engine: Instance -> Result<seq<AlarmConfig>, Error>, ghost pages: seq<seq<Reservation>>, ghost p: int,
                      futures: seq<Result<seq<AlarmConfig>, Error>>, all: seq<AlarmConfig>)
    returns (r: Result<seq<AlarmConfig>, Error>)
    requires 0 <= p < |pages|
    requires futures == Results(engine, PageInstances(pages[p]))
    requires AlarmsFor(engine, RunInstances(pages[..p])) == Success(all)
    ensures r.Failure? ==> r == AlarmsFor(engine, RunInstances(pages))
    ensures r.Failure? ==> AlarmsFor(engine, RunInstances(pages[..p + 1])).Failure?
    ensures r.Success? ==> r == AlarmsFor(engine, RunInstances(pages[..p + 1]))
  {
    ghost var pageInsts := PageInstances(pages[p]);
    var acc := all;
    var f := 0;
    assert RunInstances(pages[..p]) + pageInsts[..f] == RunInstances(pages[..p]);
    while f < |futures|
      invariant 0 <= f <= |futures| == |pageInsts|
      invariant AlarmsFor(engine, RunInstances(pages[..p]) + pageInsts[..f]) == Success(acc)
    {
      ReadBackStep(engine, pages, p, f, acc);
      var result := futures[f];
      if result.Failure? {
        assert pages[..p + 1][..p] == pages[..p] && pages[..p + 1][p] == pages[p];
        ReadBackStep(engine, pages[..p + 1], p, f, acc);
        return Failure(result.error);
      }
      acc := acc + result.value;
      f := f + 1;
    }
    assert pageInsts[..f] == pageInsts;
    RunInstancesSnoc(pages, p);
    return Success(acc);
  }

  /** The aggregation loops of `create_ec2_alarms`: per page, the futures
      are read back in submission order and their alarm lists appended to
      the run-wide list; the first one that raises ends the run, and so does
      a page fetch that raises. */
  method CollectAlarms(ctx: Context, discovery: Discovery, listing: string -> MetricListing)
    returns (r: Result<seq<AlarmConfig>, Error>)
    ensures r == Discovered(Engine(ctx, listing), discovery)
  {
    ghost var engine := Engine(ctx, listing);
    var pages := discovery.pages;
    var all: seq<AlarmConfig> := [];
    var p := 0;
    while p < |pages|
      invariant 0 <= p <= |pages|
      invariant AlarmsFor(engine, RunInstances(pages[..p])) == Success(all)
    {
      var futures := SubmitPage(ctx, pages[p], listing);
      var pageResult := ReadBackPage(engine, pages, p, futures, all);
      if pageResult.Failure? {
        return pageResult;
      }
      all := pageResult.value;
      p := p + 1;
    }
    assert pages[..p] == pages;
    if discovery.fetchFails {
      return Failure(DiscoveryFailed);
    }
    return Success(all);
  }

  // ------------------------------------------------------------ batching

  function Min(a: int, b: int): int {
    if a <= b then a else b
  }

  /** `all_alarm_configs[i:i + 10]` for `i` in `range(0, len(all_alarm_configs), 10)`. */
  function Batches<T>(s: seq<T>): seq<seq<T>> {
    seq((|s| + BatchSize - 1) / BatchSize,
        k requires 0 <= k < (|s| + BatchSize - 1) / BatchSize => s[BatchSize * k..Min(BatchSize * k + BatchSize, |s|)])
  }

  lemma {:induction false} FlattenBatchesPrefix<T>(s: seq<T>, k: nat)
    requires k <= |Batches(s)|
    ensures Flatten(Batches(s)[..k]) == s[..Min(BatchSize * k, |s|)]
  {
    if k > 0 {
      FlattenBatchesPrefix(s, k - 1);
      FlattenSnoc(Batches(s), k - 1);
      assert s[..Min(BatchSize * (k - 1), |s|)] + s[BatchSize * (k - 1)..Min(BatchSize * k, |s|)] == s[..Min(BatchSize * k, |s|)];
    }
  }

  /** `ceil(N / 10)` batches, each of one to ten alarms, all but the last
      of exactly ten, whose concatenation is the whole list. */
  lemma BatchesPartition<T>(s: seq<T>)
    ensures |Batches(s)| == (|s| + BatchSize - 1) / BatchSize
    ensures forall k | 0 <= k < |Batches(s)| :: 1 <= |Batches(s)[k]| <= BatchSize
    ensures forall k | 0 <= k < |Batches(s)| - 1 :: |Batches(s)[k]| == BatchSize
    ensures Flatten(Batches(s)) == s
  {
    FlattenBatchesPrefix(s, |Batches(s)|);
    assert Batches(s)[..|Batches(s)|] == Batches(s);
  }

  /** Slice `b` of a list whose first `10 * b` alarms are already batched. */
  lemma NextBatch<T>(s: seq<T>, b: int)
    requires 0 <= b && 10 * b < |s|
    ensures b < |Batches(s)|
    ensures Batches(s)[b] == s[10 * b..Min(10 * b + 10, |s|)]
  {
    assert (|s| + 9) / 10 > b;
  }

  /** Once `10 * b` reaches the length, `b` slices were taken: all of them. */
  lemma LastBatch<T>(s: seq<T>, b: int)
    requires 0 <= b && |s| <= 10 * b < |s| + 10
    ensures b == |Batches(s)|
  {
    assert (|s| + 9) / 10 == b;
  }

  /** Submitting the slice from `i` extends the calls of the alarms before it. */
  lemma NextBatchCalls(t: Tagging, o: Outcomes, alarms: seq<AlarmConfig>, i: int)
    requires 0 <= i < |alarms|
    ensures BatchCalls(t, o, 0, alarms[..Min(i + BatchSize, |alarms|)]) ==
      BatchCalls(t, o, 0, alarms[..Min(i, |alarms|)]) + BatchCalls(t, o, i, alarms[i..Min(i + BatchSize, |alarms|)])
  {
    var end := Min(i + BatchSize, |alarms|);
    assert alarms[..i] + alarms[i..end] == alarms[..end];
    BatchCallsAppend(t, o, 0, alarms[..i], alarms[i..end]);
  }

  /** The batching loop of `create_ec2_alarms` with one
      `create_cloudwatch_alarm_batch` per slice. */
  method SubmitInBatches(t: Tagging, o: Outcomes, alarms: seq<AlarmConfig>)
    returns (batches: seq<seq<AlarmConfig>>, calls: seq<Call>)
    ensures batches == Batches(alarms)
    ensures calls == BatchCalls(t, o, 0, alarms)
  {
    batches, calls := [], [];
    var i := 0;
    while i < |alarms|
      invariant 0 <= i == 10 * |batches| < |alarms| + 10
      invariant |batches| <= |Batches(alarms)|
      invariant batches == Batches(alarms)[..|batches|]
      invariant calls == BatchCalls(t, o, 0, alarms[..Min(i, |alarms|)])
      decreases |alarms| - i
    {
      var end := Min(i + BatchSize, |alarms|);
      var batch := alarms[i..end];
      var batchCalls := SubmitBatch(t, o, i, batch);
      NextBatchCalls(t, o, alarms, i);
      calls := calls + batchCalls;
      NextBatch(alarms, |batches|);
      TakeSnoc(Batches(alarms), |batches|);
      batches := batches + [batch];
      i := i + BatchSize;
    }
    LastBatch(alarms, |batches|);
    assert alarms[..Min(i, |alarms|)] == alarms;
  }

  // ----------------------------------------------------------- the run

  /** The arguments of `create_ec2_alarms` and the globals of the script. */
  datatype RunConfig = RunConfig(
    region: string,
    topicName: string,
    instanceIds: seq<string>,
    alarmPrefix: string,
    alarmTag: string,
    instanceTagName: string,
    instanceTagValue: string)

  /** What AWS answers during a run: the `AccountAliases` entry, the pages of
      `list_topics`, `describe_instances` per query, `list_metrics` per
      instance id, the caller's account id, today's date, and the outcome of
      each create and tag call. */
  datatype Environment = Environment(
    accountAliases: Option<seq<string>>,
    topicPages: seq<seq<string>>,
    describe: Query -> Discovery,
    listing: string -> MetricListing,
    accountId: string,
    today: string,
    outcomes: Outcomes)

  /** The batches handed to `create_cloudwatch_alarm_batch` and the calls made. */
  datatype Submitted = Submitted(batches: seq<seq<AlarmConfig>>, calls: seq<Call>)

  function RunTagging(cfg: RunConfig, env: Environment): Tagging {
    Tagging(cfg.region, env.accountId, cfg.alarmTag, env.today)
  }

  /** What a run of `create_ec2_alarms` does, or the exception it ends with. */
  function Run(cfg: RunConfig, env: Environment): Result<Submitted, Error> {
    var alias :- AccountAlias(env.accountAliases);
    var topicArn :- TopicArn(cfg.topicName, cfg.region, env.topicPages);
    var query :- SelectQuery(cfg.instanceIds, cfg.instanceTagName, cfg.instanceTagValue);
    var alarms :- Discovered(Engine(Context(cfg.alarmPrefix, alias, topicArn), env.listing), env.describe(query));
    Success(Submitted(Batches(alarms), BatchCalls(RunTagging(cfg, env), env.outcomes, 0, alarms)))
  }

  /** `create_ec2_alarms` */
  method CreateEc2Alarms(cfg: RunConfig, env: Environment) returns (r: Result<Submitted, Error>)
    ensures r == Run(cfg, env)
  {
    var alias :- AccountAlias(env.accountAliases);
    var topicArn :- FindTopicArn(cfg.topicName, cfg.region, env.topicPages);
    var query :- SelectQuery(cfg.instanceIds, cfg.instanceTagName, cfg.instanceTagValue);
    var discovery := env.describe(query);
    var ctx := Context(cfg.alarmPrefix, alias, topicArn);
    var alarms :- CollectAlarms(ctx, discovery, env.listing);
    var batches, calls := SubmitInBatches(RunTagging(cfg, env), env.outcomes, alarms);
    return Success(Submitted(batches, calls));
  }

  // ------------------------------------------------------------ lemmas

  /** The alias and topic lookups come before the selection check: their
      errors win, and a bad selection fails before any instance is listed. */
  lemma LookupsBeforeSelection(cfg: RunConfig, env: Environment)
    ensures env.accountAliases == Some([]) ==> Run(cfg, env) == Failure(NoAccountAlias)
    ensures AccountAlias(env.accountAliases).Success? && FirstMatch(cfg.topicName, Flatten(env.topicPages)).None? ==>
              Run(cfg, env) == Failure(TopicNotFound(cfg.topicName, cfg.region))
    ensures && AccountAlias(env.accountAliases).Success? && FirstMatch(cfg.topicName, Flatten(env.topicPages)).Some?
            && cfg.instanceIds == [] && (cfg.instanceTagName == "" || cfg.instanceTagValue == "") ==>
              Run(cfg, env) == Failure(InvalidSelection)
  {
  }

  /** One Linux instance whose metrics cannot be listed, on a page that was
      read, sinks the whole run with a metric-listing exception, whether or
      not a later page fetch raises: nothing is submitted. */
  lemma ListingFailureAbortsRun(cfg: RunConfig, env: Environment, pages: seq<seq<Reservation>>, k: int)
    requires AccountAlias(env.accountAliases).Success?
    requires TopicArn(cfg.topicName, cfg.region, env.topicPages).Success?
    requires SelectQuery(cfg.instanceIds, cfg.instanceTagName, cfg.instanceTagValue).Success?
    requires env.describe(SelectQuery(cfg.instanceIds, cfg.instanceTagName, cfg.instanceTagValue).value).pages == pages
    requires 0 <= k < |RunInstances(pages)|
    requires PlatformOf(RunInstances(pages)[k]) == LinuxPlatform
    requires env.listing(RunInstances(pages)[k].instanceId) == ListingFailed
    ensures Run(cfg, env).Failure? && Run(cfg, env).error.MetricListingFailed?
  {
    var ctx := Context(cfg.alarmPrefix, AccountAlias(env.accountAliases).value,
                       TopicArn(cfg.topicName, cfg.region, env.topicPages).value);
    var engine, insts := Engine(ctx, env.listing), RunInstances(pages);
    InstanceAlarmsFailure(ctx, insts[k], env.listing);
    assert engine(insts[k]).Failure?;
    AlarmsForFirstFailure(engine, insts);
    var agg := AlarmsFor(engine, insts);
    var first :| 0 <= first < |insts| && engine(insts[first]) == Failure(agg.error)
                 && forall j | 0 <= j < first :: engine(insts[j]).Success?;
    InstanceAlarmsFailure(ctx, insts[first], env.listing);
    assert agg.error.MetricListingFailed?;
    assert Run(cfg, env) == Failure(agg.error);
  }

  /** A page fetch that raises ends the run with the discovery exception
      when every instance of the pages read before it was processed without
      exception. */
  lemma FetchFailureFailsRun(cfg: RunConfig, env: Environment, d: Discovery)
    requires AccountAlias(env.accountAliases).Success?
    requires TopicArn(cfg.topicName, cfg.region, env.topicPages).Success?
    requires SelectQuery(cfg.instanceIds, cfg.instanceTagName, cfg.instanceTagValue).Success?
    requires env.describe(SelectQuery(cfg.instanceIds, cfg.instanceTagName, cfg.instanceTagValue).value) == d
    requires d.fetchFails
    requires forall k | 0 <= k < |RunInstances(d.pages)| ::
      PlatformOf(RunInstances(d.pages)[k]) != LinuxPlatform || env.listing(RunInstances(d.pages)[k].instanceId).Listed?
    ensures Run(cfg, env) == Failure(DiscoveryFailed)
  {
    var ctx := Context(cfg.alarmPrefix, AccountAlias(env.accountAliases).value,
                       TopicArn(cfg.topicName, cfg.region, env.topicPages).value);
    var engine, insts := Engine(ctx, env.listing), RunInstances(d.pages);
    forall k | 0 <= k < |insts| ensures engine(insts[k]).Success? {
      InstanceAlarmsFailure(ctx, insts[k], env.listing);
    }
    AlarmsForFirstFailure(engine, insts);
  }

  /** A successful run submits every alarm of the aggregate, in order and
      in ceil(N/10) batches of at most ten, and tags exactly the alarms
      whose creation succeeded. */
  lemma RunSubmitsEveryAlarm(cfg: RunConfig, env: Environment)
    requires Run(cfg, env).Success?
    ensures var s := Run(cfg, env).value;
      var agg := Discovered(Engine(Context(cfg.alarmPrefix, AccountAlias(env.accountAliases).value,
                                           TopicArn(cfg.topicName, cfg.region, env.topicPages).value), env.listing),
                            env.describe(SelectQuery(cfg.instanceIds, cfg.instanceTagName, cfg.instanceTagValue).value)).value;
      && Flatten(s.batches) == agg
      && Attempted(s.calls) == agg
      && |s.batches| == (|agg| + BatchSize - 1) / BatchSize
      && (forall k | 0 <= k < |s.batches| :: 1 <= |s.batches[k]| <= BatchSize)
      && (forall k | 0 <= k < |s.batches| - 1 :: |s.batches[k]| == BatchSize)
      && TagsFollowCreates(RunTagging(cfg, env), s.calls)
  {
    var alias := AccountAlias(env.accountAliases).value;
    var topicArn := TopicArn(cfg.topicName, cfg.region, env.topicPages).value;
    var query := SelectQuery(cfg.instanceIds, cfg.instanceTagName, cfg.instanceTagValue).value;
    var pages := env.describe(query).pages;
    var alarms := AlarmsFor(Engine(Context(cfg.alarmPrefix, alias, topicArn), env.listing), RunInstances(pages)).value;
    BatchesPartition(alarms);
    EveryCreateAttempted(RunTagging(cfg, env), env.outcomes, 0, alarms);
    BatchCallsTagAfterCreate(RunTagging(cfg, env), env.outcomes, 0, alarms);
  }
}
