/** The submission loop of `create_cloudwatch_alarm_batch` and `tag_alarm`:
    each alarm is created, and tagged only when its creation succeeded. The
    monitoring service is an oracle saying whether the create call and the
    tag call for the n-th alarm of the run succeed; the calls made are
    recorded as a trace. */
module Submission {
  import opened AlarmTypes

  /** Where the alarms live and how they are tagged: the client's region,
      the caller's account id, the provenance tag key (`alarm_tag`) and the
      creation date as `YYYY-MM-DD`. */
  datatype Tagging = Tagging(region: string, accountId: string, tagKey: string, date: string)

  /** Whether the create call and the tag call for the alarm at a given
      position of the run succeed. */
  datatype Outcomes = Outcomes(createSucceeds: int -> bool, tagSucceeds: int -> bool)

  /** A call to the monitoring service and whether it succeeded. */
  datatype Call =
    | PutMetricAlarm(alarm: AlarmConfig, ok: bool)
    | TagResource(resourceArn: string, tags: seq<Tag>, ok: bool)

  /** The resource name `tag_alarm` tags. */
  function AlarmArn(region: string, accountId: string, alarmName: string): string {
    "arn:aws:cloudwatch:" + region + ":" + accountId + ":alarm:" + alarmName
  }

  /** The tag list passed to `tag_alarm`. */
  function ProvenanceTags(t: Tagging): seq<Tag> {
    [Tag(t.tagKey, t.date)]
  }

  /** The calls made for alarm `a`, the n-th of the run. */
  function AlarmCalls(t: Tagging, o: Outcomes, n: int, a: AlarmConfig): seq<Call> {
    if o.createSucceeds(n) then
      [PutMetricAlarm(a, true), TagResource(AlarmArn(t.region, t.accountId, a.alarmName), ProvenanceTags(t), o.tagSucceeds(n))]
    else
      [PutMetricAlarm(a, false)]
  }

  /** The calls made for `alarms`, the first of which is the alarm at
      position `start` of the run. */
  function BatchCalls(t: Tagging, o: Outcomes, start: int, alarms: seq<AlarmConfig>): seq<Call> {
    if alarms == [] then []
    else
      var n := |alarms| - 1;
      BatchCalls(t, o, start, alarms[..n]) + AlarmCalls(t, o, start + n, alarms[n])
  }

  /** `create_cloudwatch_alarm_batch` for a batch starting at position `start`. */
  method SubmitBatch(t: Tagging, o: Outcomes, start: int, batch: seq<AlarmConfig>) returns (calls: seq<Call>)
    ensures calls == BatchCalls(t, o, start, batch)
  {
    calls := [];
    var i := 0;
    while i < |batch|
      invariant 0 <= i <= |batch|
      invariant calls == BatchCalls(t, o, start, batch[..i])
    {
      var alarm := batch[i];
      var created := o.createSucceeds(start + i);
      calls := calls + [PutMetricAlarm(alarm, created)];
      if created {
        var arn := AlarmArn(t.region, t.accountId, alarm.alarmName);
        var tagged := o.tagSucceeds(start + i);
        calls := calls + [TagResource(arn, ProvenanceTags(t), tagged)];
      }
      assert batch[..i + 1][..i] == batch[..i];
      i := i + 1;
    }
    assert batch[..i] == batch;
  }

  // ------------------------------------------------------------- lemmas

  /** Submitting two lists one after the other makes the calls of submitting both. */
  lemma {:induction false} BatchCallsAppend(t: Tagging, o: Outcomes, start: int, xs: seq<AlarmConfig>, ys: seq<AlarmConfig>)
    ensures BatchCalls(t, o, start, xs + ys) == BatchCalls(t, o, start, xs) + BatchCalls(t, o, start + |xs|, ys)
    decreases |ys|
  {
    if ys == [] {
      assert xs + ys == xs;
    } else {
      var n := |ys| - 1;
      assert (xs + ys)[..|xs + ys| - 1] == xs + ys[..n];
      BatchCallsAppend(t, o, start, xs, ys[..n]);
    }
  }

  /** The alarms whose creation was attempted, in order. */
  function Attempted(calls: seq<Call>): seq<AlarmConfig> {
    if calls == [] then []
    else (if calls[0].PutMetricAlarm? then [calls[0].alarm] else []) + Attempted(calls[1..])
  }

  lemma {:induction false} AttemptedAppend(xs: seq<Call>, ys: seq<Call>)
    ensures Attempted(xs + ys) == Attempted(xs) + Attempted(ys)
  {
    if xs == [] {
      assert xs + ys == ys;
    } else {
      assert (xs + ys)[1..] == xs[1..] + ys;
      AttemptedAppend(xs[1..], ys);
      AppendAssoc(if xs[0].PutMetricAlarm? then [xs[0].alarm] else [], Attempted(xs[1..]), Attempted(ys));
    }
  }

  lemma AttemptedOneAlarm(t: Tagging, o: Outcomes, n: int, a: AlarmConfig)
    ensures Attempted(AlarmCalls(t, o, n, a)) == [a]
  {
    var mine := AlarmCalls(t, o, n, a);
    if o.createSucceeds(n) {
      assert mine[1..][1..] == [];
      assert Attempted(mine[1..]) == [];
    } else {
      assert mine[1..] == [];
    }
  }

  /** Creation is attempted for every alarm, in order, whatever fails. */
  lemma {:induction false} EveryCreateAttempted(t: Tagging, o: Outcomes, start: int, alarms: seq<AlarmConfig>)
    ensures Attempted(BatchCalls(t, o, start, alarms)) == alarms
  {
    if alarms != [] {
      var n := |alarms| - 1;
      var before := BatchCalls(t, o, start, alarms[..n]);
      var mine := AlarmCalls(t, o, start + n, alarms[n]);
      assert BatchCalls(t, o, start, alarms) == before + mine;
      EveryCreateAttempted(t, o, start, alarms[..n]);
      AttemptedOneAlarm(t, o, start + n, alarms[n]);
      AttemptedAppend(before, mine);
      assert alarms[..n] + [alarms[n]] == alarms;
    }
  }

  /** Tagging follows exactly the successful creates: each tag call comes
      right after the successful creation of the alarm whose ARN it tags,
      and every successful creation is followed by its tag call. */
  ghost predicate TagsFollowCreates(t: Tagging, calls: seq<Call>) {
    && (forall j | 0 <= j < |calls| && calls[j].TagResource? ::
          && j > 0 && calls[j - 1].PutMetricAlarm? && calls[j - 1].ok
          && calls[j].resourceArn == AlarmArn(t.region, t.accountId, calls[j - 1].alarm.alarmName)
          && calls[j].tags == ProvenanceTags(t))
    && (forall j | 0 <= j < |calls| && calls[j].PutMetricAlarm? && calls[j].ok ::
          j + 1 < |calls| && calls[j + 1].TagResource?)
  }

  /** Two traces that each keep tags after creates still do so end to end,
      when the second starts with a create. */
  lemma TagsFollowCreatesAppend(t: Tagging, xs: seq<Call>, ys: seq<Call>)
    requires TagsFollowCreates(t, xs) && TagsFollowCreates(t, ys)
    requires ys != [] ==> ys[0].PutMetricAlarm?
    ensures TagsFollowCreates(t, xs + ys)
  {
    var calls := xs + ys;
    forall j | 0 <= j < |calls| && calls[j].TagResource?
      ensures && j > 0 && calls[j - 1].PutMetricAlarm? && calls[j - 1].ok
              && calls[j].resourceArn == AlarmArn(t.region, t.accountId, calls[j - 1].alarm.alarmName)
              && calls[j].tags == ProvenanceTags(t)
    {
      if j < |xs| {
        assert calls[j] == xs[j] && calls[j - 1] == xs[j - 1];
      } else {
        assert calls[j] == ys[j - |xs|];
        assert calls[j - 1] == ys[j - |xs| - 1];
      }
    }
    forall j | 0 <= j < |calls| && calls[j].PutMetricAlarm? && calls[j].ok
      ensures j + 1 < |calls| && calls[j + 1].TagResource?
    {
      if j < |xs| {
        assert calls[j] == xs[j] && calls[j + 1] == xs[j + 1];
      } else {
        assert calls[j] == ys[j - |xs|] && calls[j + 1] == ys[j + 1 - |xs|];
      }
    }
  }

  lemma AlarmCallsTagAfterCreate(t: Tagging, o: Outcomes, n: int, a: AlarmConfig)
    ensures TagsFollowCreates(t, AlarmCalls(t, o, n, a))
    ensures AlarmCalls(t, o, n, a)[0].PutMetricAlarm?
  {
  }

  lemma {:induction false} BatchCallsTagAfterCreate(t: Tagging, o: Outcomes, start: int, alarms: seq<AlarmConfig>)
    ensures TagsFollowCreates(t, BatchCalls(t, o, start, alarms))
  {
    if alarms != [] {
      var n := |alarms| - 1;
      BatchCallsTagAfterCreate(t, o, start, alarms[..n]);
      AlarmCallsTagAfterCreate(t, o, start + n, alarms[n]);
      TagsFollowCreatesAppend(t, BatchCalls(t, o, start, alarms[..n]), AlarmCalls(t, o, start + n, alarms[n]));
      assert BatchCalls(t, o, start, alarms) == BatchCalls(t, o, start, alarms[..n]) + AlarmCalls(t, o, start + n, alarms[n]);
    }
  }

  /** Failures are isolated: the calls made for a list of alarms depend
      only on the outcomes at those alarms' own positions. In particular a
      failed create or tag of alarm k changes nothing for any other alarm. */
  lemma {:induction false} OnlyOwnOutcomesMatter(t: Tagging, o1: Outcomes, o2: Outcomes, start: int, alarms: seq<AlarmConfig>)
    requires forall n: int | start <= n < start + |alarms| ::
               o1.createSucceeds(n) == o2.createSucceeds(n) && o1.tagSucceeds(n) == o2.tagSucceeds(n)
    ensures BatchCalls(t, o1, start, alarms) == BatchCalls(t, o2, start, alarms)
  {
    if alarms != [] {
      var n := |alarms| - 1;
      OnlyOwnOutcomesMatter(t, o1, o2, start, alarms[..n]);
      assert o1.createSucceeds(start + n) == o2.createSucceeds(start + n);
    }
  }

  /** The calls of alarm k sit between those of the alarms before it and
      those of the alarms after it. */
  lemma CallsOfOneAlarm(t: Tagging, o: Outcomes, start: int, alarms: seq<AlarmConfig>, k: int)
    requires 0 <= k < |alarms|
    ensures BatchCalls(t, o, start, alarms) ==
      BatchCalls(t, o, start, alarms[..k]) + AlarmCalls(t, o, start + k, alarms[k])
      + BatchCalls(t, o, start + k + 1, alarms[k + 1..])
  {
    assert alarms == alarms[..k + 1] + alarms[k + 1..];
    BatchCallsAppend(t, o, start, alarms[..k + 1], alarms[k + 1..]);
    assert alarms[..k + 1][..k] == alarms[..k];
  }
}
