# EC2 alarm provisioning, modelled in Dafny

`auto_ec2_alarms.py` creates CloudWatch alarms for a set of EC2 instances. A run
does the following, in order:

1. It resolves the account alias (IAM).
2. It finds the SNS topic whose ARN contains the configured topic name.
3. It checks that the instances are selected either by id or by a tag pair.
4. It discovers the instances page by page (`describe_instances`).
5. It runs the per-instance rule engine `process_instance` on every instance:
   - every instance gets a status-check alarm and a CPU alarm;
   - Linux instances get a memory alarm per `mem_used_percent` sample and a disk alarm per `path="/"` dimension of each `disk_used_percent` sample;
   - Windows instances get fixed memory and `C:` free-space alarms.
6. It concatenates all alarm definitions into one list.
7. It submits that list in slices of ten. Each alarm is created, and it is tagged with the provenance tag and the date only if its creation succeeded.

The model has five modules:

- `AlarmTypes` (`types.dfy`) holds the records a run exchanges:
  - instances, metric samples and alarm definitions;
  - tags and dimensions;
  - the exceptions a run can end with.
- `RuleEngine` (`rule_engine.dfy`) models `process_instance`:
  - the function `InstanceAlarms` states what it returns or raises;
  - the method `ProcessInstance` is the source's loops, appending one alarm at a time and proved equal to `InstanceAlarms`.
- `TopicLookup` (`topic_lookup.dfy`) models `get_sns_topic_arn`:
  - a nested scan with an early return, proved equal to "the first ARN, in page order, that contains the name";
  - Python's `in` on strings, proved to mean "occurs at some position".
- `Submission` (`submission.dfy`) models `create_cloudwatch_alarm_batch` and `tag_alarm`:
  - the monitoring service is an oracle that says, for the n-th alarm of the run, whether its create call and its tag call succeed;
  - the calls made are recorded as a trace of `Call`s.
- `Orchestrator` (`orchestrator.dfy`) models `create_ec2_alarms`:
  - the alias fallback and the selection check;
  - the page / reservation / future loops;
  - the slicing into batches of ten;
  - the whole run, as the function `Run` and the method `CreateEc2Alarms` proved equal to it.

Everything AWS answers during a run is an input (`Environment`):

- the `AccountAliases` entry;
- the pages of `list_topics`;
- `describe_instances` for each query;
- `list_metrics` for each instance id;
- the caller's account id;
- the date;
- the outcome of each create and tag call.

Two behaviours of the code are modelled as written, and both are easy to miss:

- **Instance errors are not isolated.** `list_metrics` is called without a `try`, so its exception escapes `process_instance`. `future.result()` re-raises it, and the whole run ends before anything is submitted (`ListingFailureAbortsRun`, `AlarmsForFirstFailure`). Only errors of the create and tag calls are isolated, one alarm at a time (`OnlyOwnOutcomesMatter`).
- **The selection check is not the first thing a run does.** It comes after the alias lookup and the topic lookup, both of which call AWS and can end the run first (`LookupsBeforeSelection`).

## Model

| member | source | states |
|---|---|---|
| `RuleEngine.AlarmName` | auto_ec2_alarms.py:109-186 | an alarm name is `<prefix>_<account alias>_ec2_<instance name>_<suffix>` |
| `RuleEngine.ImageIdOf` | auto_ec2_alarms.py:90 | the image id is the record's `ImageId`, or `UnknownImage` when it has none |
| `RuleEngine.PlatformOf` | auto_ec2_alarms.py:93 | the platform is the lowercased `Platform`, or `linux` when the record has none |
| `RuleEngine.InstanceAlarms` | auto_ec2_alarms.py:84-200 | the alarms `process_instance` returns for one instance (the two baseline alarms, then the Linux agent alarms or the two fixed Windows alarms), or the exception of its `list_metrics` call; its properties are the `InstanceAlarms*` and `*Scenario` lemmas |
| `RuleEngine.DisplayName` | auto_ec2_alarms.py:88-89 | the instance name is the value of the first `Name` tag, and `UnnamedInstance` when no tag is a `Name` tag |
| `RuleEngine.Lower` | auto_ec2_alarms.py:93 | lowercasing keeps the length and maps every ASCII capital to its small letter, character by character |
| `RuleEngine.InstanceAlarmsFailure` | auto_ec2_alarms.py:129-135 | the rule engine raises exactly when the platform is `linux` and `list_metrics` fails, and the exception names that instance |
| `RuleEngine.InstanceAlarmsShape` | auto_ec2_alarms.py:95-200 | on success the list starts with the status-check alarm (`StatusCheckFailed` >= 1) and the CPU alarm (`CPUUtilization` >= 95) with their names, namespace and dimensions; every alarm carries all base parameters and one of the instance's four names |
| `RuleEngine.ProcessInstance` | auto_ec2_alarms.py:84-200 | building the list by appending one alarm at a time yields exactly what `InstanceAlarms` prescribes, or the same exception |
| `RuleEngine.AppendSampleAlarms` | auto_ec2_alarms.py:138-163 | one pass of the metric loop appends the memory alarm of a `mem_used_percent` sample, then the disk alarms of a `disk_used_percent` sample, and nothing for any other sample |
| `RuleEngine.AppendAgentAlarms` | auto_ec2_alarms.py:137-163 | the metric loop appends, in listing order, exactly the alarms each sample calls for |
| `RuleEngine.AppendRootPathAlarms` | auto_ec2_alarms.py:152-163 | the dimension loop appends one disk alarm per `path="/"` dimension and nothing else |
| `RuleEngine.LinuxAlarmsSound` | auto_ec2_alarms.py:137-163 | every optional Linux alarm comes from a listed sample (a mem alarm from `mem_used_percent`, a disk alarm from a `disk_used_percent` sample with a root path), uses that sample's dimensions, shares the base parameters and has one of the instance's names |
| `RuleEngine.LinuxAlarmsComplete` | auto_ec2_alarms.py:137-163 | conversely, every alarm that some listed sample calls for is emitted |
| `RuleEngine.LinuxAlarmsAppend` | auto_ec2_alarms.py:137 | the optional alarms of two listings one after the other are those of the first followed by those of the second (listing order is kept) |
| `RuleEngine.RootPathAlarmsCount` | auto_ec2_alarms.py:152-163 | a disk sample gives as many disk alarms as it has `path="/"` dimensions, each over all of the sample's dimensions |
| `RuleEngine.RootPathAlarmsAreDiskAlarms` | auto_ec2_alarms.py:153-155 | every alarm of the dimension loop is the disk alarm, and it only exists when a root-path dimension is present |
| `RuleEngine.SampleAlarmsCount` | auto_ec2_alarms.py:141-163 | one sample gives one mem alarm if it is `mem_used_percent`, and one disk alarm per root path if it is `disk_used_percent` |
| `RuleEngine.NoRootPathNoDiskAlarm` | auto_ec2_alarms.py:152-154 | a disk sample without a `path="/"` dimension gives no alarm |
| `RuleEngine.EmptyListingBaselineOnly` | auto_ec2_alarms.py:129-137 | a Linux instance whose agent publishes nothing gets exactly the two baseline alarms |
| `RuleEngine.WindowsFixedAlarms` | auto_ec2_alarms.py:166-198 | a Windows instance gets four alarms, whatever the metric listing says; the third is the committed-bytes memory alarm (>= 95) and the fourth the `C:` free-space alarm (<= 5), with their exact dimension lists |
| `RuleEngine.OtherPlatformBaselineOnly` | auto_ec2_alarms.py:129-166 | a platform other than `linux` or `windows` gets exactly the two baseline alarms |
| `RuleEngine.SuffixesGiveDistinctNames` | auto_ec2_alarms.py:109-186 | the four suffixes give one instance four distinct alarm names |
| `RuleEngine.SameDisplayNameSameNames` | auto_ec2_alarms.py:109-120 | two instances with the same `Name` tag get the same baseline alarm names (names are not made unique across instances) |
| `RuleEngine.RepeatedSampleRepeatsName` | auto_ec2_alarms.py:141-150 | two `mem_used_percent` samples of one instance give two alarms with the same name |
| `RuleEngine.LinuxScenario` | auto_ec2_alarms.py:84-163 | Linux `web1` of account `acme` with prefix `gl`, publishing memory and root-disk usage, gets exactly `gl_acme_ec2_web1_status-check`, `_cpu-used`, `_mem-used`, `_disk-used`, in that order |
| `RuleEngine.WindowsScenario` | auto_ec2_alarms.py:84-198 | Windows `db1` gets exactly the four `gl_acme_ec2_db1_*` alarms; the disk one is `<= 5` and the other three `>=` |
| `TopicLookup.ContainsOccurs` | auto_ec2_alarms.py:47 | `name in arn` holds exactly when the name occurs in the ARN at some position |
| `TopicLookup.PartialNameMatches` | auto_ec2_alarms.py:47 | a name matches every ARN it is part of, so `Infra` matches the topic `Infrastructure_Topic` too |
| `TopicLookup.FirstMatchIsFirst` | auto_ec2_alarms.py:45-49 | the found ARN contains the name and no earlier ARN does; nothing is found exactly when no ARN contains the name |
| `TopicLookup.FirstMatchAppend` | auto_ec2_alarms.py:45-46 | a match on an earlier page wins over any match on a later page |
| `TopicLookup.ScanStep` | auto_ec2_alarms.py:47-48 | when no earlier topic matched, a matching topic is the overall answer |
| `TopicLookup.TopicArn` | auto_ec2_alarms.py:39-52 | the first ARN over all pages that contains the name, or "topic not found" for that name and region |
| `TopicLookup.FindTopicArn` | auto_ec2_alarms.py:39-52 | the nested scan returns the first matching ARN in page order, or raises "topic not found" for that name and region |
| `Submission.AlarmArn` | auto_ec2_alarms.py:58 | the tagged resource is `arn:aws:cloudwatch:<region>:<account>:alarm:<name>` |
| `Submission.BatchCalls` | auto_ec2_alarms.py:65-82 | the calls for a list of alarms: per alarm in order, a create call, then a tag call when the create succeeded |
| `Submission.SubmitBatch` | auto_ec2_alarms.py:65-82 | one batch makes, per alarm and in order, a create call, followed by a tag call only when the create succeeded |
| `Submission.BatchCallsAppend` | auto_ec2_alarms.py:67 | submitting two lists one after the other makes the calls of the first followed by those of the second |
| `Submission.EveryCreateAttempted` | auto_ec2_alarms.py:67-82 | creation is attempted for every alarm, in order, whatever fails |
| `Submission.BatchCallsTagAfterCreate` | auto_ec2_alarms.py:54-82 | every tag call comes right after a successful create and tags that alarm's ARN `arn:aws:cloudwatch:<region>:<account>:alarm:<name>` with the provenance tag; every successful create is followed by its tag call |
| `Submission.OnlyOwnOutcomesMatter` | auto_ec2_alarms.py:68-82 | the calls for a list of alarms depend only on the outcomes at those alarms' own positions, so a failure of one alarm changes nothing for another |
| `Submission.CallsOfOneAlarm` | auto_ec2_alarms.py:67-82 | the calls of alarm k sit between those of the alarms before it and those of the alarms after it |
| `Orchestrator.AccountAlias` | auto_ec2_alarms.py:210 | a missing alias key gives `default-account`, a non-empty list gives its first alias, and an empty list raises |
| `Orchestrator.SelectQuery` | auto_ec2_alarms.py:219-245 | the run refuses exactly when there are no ids and the tag name or value is empty; otherwise it queries by tag filter `tag:<name>` = [value] exactly when there are no ids, and by the given ids otherwise |
| `Orchestrator.RunInstancesAppend` | auto_ec2_alarms.py:227-231 | the instances of two runs of pages are those of the first followed by those of the second |
| `Orchestrator.AlarmsFor` | auto_ec2_alarms.py:242-243 | the rule engine's alarms for a list of instances concatenated in order, or the first exception in that order |
| `Orchestrator.Discovered` | auto_ec2_alarms.py:227-261 | the aggregate of the pages read, or its first exception; when none was raised and a later page fetch fails, the discovery exception |
| `Orchestrator.AlarmsForAppend` | auto_ec2_alarms.py:242-243 | aggregating two instance lists concatenates their alarms, and an exception in the first list wins over one in the second |
| `Orchestrator.AlarmsForFirstFailure` | auto_ec2_alarms.py:242-243 | the aggregate exists exactly when every instance succeeds; otherwise the run stops with the exception of the first failing instance in order |
| `Orchestrator.SubmitReservation` | auto_ec2_alarms.py:231-240 | one future per instance of a reservation, appended in order, each holding the rule engine's outcome for that instance |
| `Orchestrator.SubmitPage` | auto_ec2_alarms.py:228-240 | the futures of a page are the rule engine's outcomes for its instances, in reservation and instance order |
| `Orchestrator.ReadBackStep` | auto_ec2_alarms.py:242-243 | reading one future either extends the aggregate with its alarms or makes the run's aggregate that future's exception |
| `Orchestrator.ReadBackPage` | auto_ec2_alarms.py:242-243 | reading back one page's futures extends the aggregate by that page, or ends with the run's first exception, and then only when an instance of this page raised |
| `Orchestrator.CollectAlarms` | auto_ec2_alarms.py:224-261 | the page and future loops compute the ordered aggregate of the instances of the pages read, or the first exception; a page fetch that fails after them, with no earlier exception, ends with the discovery exception |
| `Orchestrator.Batches` | auto_ec2_alarms.py:264-266 | the slices `[10k, min(10k+10, N))` of the alarm list, for k from 0 to ceil(N/10)-1 |
| `Orchestrator.FlattenBatchesPrefix` | auto_ec2_alarms.py:265-266 | the first k slices together are the first 10k alarms (or all of them) |
| `Orchestrator.BatchesPartition` | auto_ec2_alarms.py:263-266 | there are ceil(N/10) slices, each of one to ten alarms, all but the last of exactly ten, and together they are the whole list in order |
| `Orchestrator.SubmitInBatches` | auto_ec2_alarms.py:263-267 | the batching loop hands exactly those slices to the batch submitter, and the calls made are those of submitting the whole list in order |
| `Orchestrator.Run` | auto_ec2_alarms.py:202-267 | a run: alias, topic, selection, discovery and aggregation in that order, each of which can end it with its exception; otherwise the batches and calls of submitting the aggregate |
| `Orchestrator.CreateEc2Alarms` | auto_ec2_alarms.py:202-267 | a run ends with the exception `Run` prescribes, or submits exactly the batches and makes exactly the calls `Run` prescribes |
| `Orchestrator.LookupsBeforeSelection` | auto_ec2_alarms.py:209-221 | an empty alias list fails the run first, then a missing topic, and only then an invalid selection |
| `Orchestrator.ListingFailureAbortsRun` | auto_ec2_alarms.py:129-261 | one Linux instance on a page that was read whose metrics cannot be listed makes the whole run fail with a metric-listing exception, whether or not a later page fetch raises, so nothing is submitted |
| `Orchestrator.FetchFailureFailsRun` | auto_ec2_alarms.py:227-245 | a page fetch that raises, after pages whose instances were all processed without exception, ends the run with the discovery exception |
| `Orchestrator.RunSubmitsEveryAlarm` | auto_ec2_alarms.py:263-267 | a successful run hands over the aggregate, in order, in ceil(N/10) slices of one to ten alarms (all but the last full), attempts to create every aggregated alarm in order, and tags exactly the alarms whose creation succeeded |

## Left out

- AWS clients, sessions and the `Config` with its retries and timeouts are not modelled. Each AWS answer is an input of `Environment`, and paginators are the sequence of pages they yield.
- `ThreadPoolExecutor` is not modelled as concurrency. Futures are computed in submission order and read back in that order, which is the order the source reads them in. `process_instance` only reads, so the order in which workers run does not change any result. The pool size of 10 has no effect on results.
- `logging` (file and console handlers, every `logger` call) is not modelled. It has no effect on the returned values or the calls made.
- The `__main__` block is not modelled. Its globals `alarm_prefix` and `alarm_tag` are `RunConfig` fields.
- The `region` argument of `process_instance` only selects the client for `list_metrics`, so it is not modelled.
- Malformed AWS records are not modelled. The source raises `KeyError` when one of these keys is missing where it is read:
  - `InstanceId` or `InstanceType` of any instance;
  - `Reservations` of a page, or `Instances` of a reservation;
  - a tag's `Key`, on the tags up to and including the first `Name` tag, and `Value` on that first `Name` tag only;
  - `MetricName` or `Dimensions` of a sample of a Linux instance;
  - a dimension's `Name`, on every dimension of a `disk_used_percent` sample, and its `Value` only when the `Name` is `path`;
  - `TopicArn` of every topic scanned, up to and including the first match.
  Here the record types always have these fields. Missing optional keys (`Tags`, `ImageId`, `Platform`, `Metrics`, `Topics`) are modelled as absent values.
- Exceptions raised by `list_account_aliases` and by `list_topics` itself are not modelled. Only the empty alias list and "topic not found" are error paths. The `except ... raise` in `get_sns_topic_arn` only logs and re-raises.
- `describe_instances` failing is modelled by its position only: a discovery is the pages fetched successfully plus whether the next fetch raises. Pages are fetched lazily, after the futures of the previous page were read, so an instance exception on a page read first wins over the fetch failure. Either way the run ends before anything is submitted. The exception's own content is not modelled.
- STS `get_caller_identity` is modelled as the input `accountId`. If it fails, the failure happens inside `tag_alarm`'s `try`, so it is one of the tag-call outcomes of the oracle. The same holds for any rejection of a create or tag request.
- `Submission.ProvenanceTags`: the date is one value per run. The source calls `datetime.utcnow()` once per alarm, so a run that crosses midnight UTC could tag with two dates; this is not modelled.
- `RuleEngine.Lower`: only ASCII letters are lowercased. Python's `str.lower` also maps non-ASCII capitals. The lowercase of a non-ASCII character is either non-ASCII (`İ` gives `i` followed by a combining dot) or `k` (from the Kelvin sign, which is not in `linux` or `windows`), so a platform string containing one is neither `linux` nor `windows` under either lowercasing, and the branch taken is the same.
- `list_metrics` pagination: the source uses only the first response. `listing` is that first response, so the model does the same.
