/** internal/metrics/metrics.go: the in-process registry. */
module Metrics {
  import opened Protocol

  datatype Counter = SubmittedTotal | StartedTotal | SucceededTotal | FailedTotal | RetriedTotal | DeadTotal

  datatype SummaryName = WaitDuration | ExecutionDuration

  /** Observations and their sum, in nanoseconds. */
  datatype Summary = Summary(count: nat, sum: int)

  function AllCounters(): set<Counter> {
    {SubmittedTotal, StartedTotal, SucceededTotal, FailedTotal, RetriedTotal, DeadTotal}
  }

  class Registry {
    var counters: map<Counter, nat>
    var summaries: map<SummaryName, Summary>

    /** Every run that started was observed waiting once, every run that ended was observed executing once. */
    ghost predicate Valid()
      reads this
    {
      && counters.Keys == AllCounters() && summaries.Keys == {WaitDuration, ExecutionDuration}
      && summaries[WaitDuration].count == counters[StartedTotal]
      && summaries[ExecutionDuration].count == counters[SucceededTotal] + counters[FailedTotal]
      && summaries[WaitDuration].sum >= 0 && summaries[ExecutionDuration].sum >= 0
    }

    ghost function View(): Counters
      requires Valid()
      reads this
    {
      Counters(counters[SubmittedTotal], counters[StartedTotal], counters[SucceededTotal],
               counters[FailedTotal], counters[RetriedTotal], counters[DeadTotal])
    }

    constructor ()
      ensures Valid() && View() == Counters(0, 0, 0, 0, 0, 0)
    {
      counters := map c | c in AllCounters() :: 0;
      summaries := map[WaitDuration := Summary(0, 0), ExecutionDuration := Summary(0, 0)];
    }

    method AddCounter(c: Counter)
      requires c in counters
      modifies this`counters
      ensures counters == old(counters)[c := old(counters)[c] + 1]
    {
      counters := counters[c := counters[c] + 1];
    }

    /** A negative duration, which a clock that was set back can give, counts as zero. */
    method Observe(name: SummaryName, duration: int)
      requires name in summaries
      modifies this`summaries
      ensures
        var was := old(summaries)[name];
        summaries == old(summaries)[name := Summary(was.count + 1, was.sum + if duration < 0 then 0 else duration)]
    {
      var d := if duration < 0 then 0 else duration;
      summaries := summaries[name := Summary(summaries[name].count + 1, summaries[name].sum + d)];
    }

    method TaskSubmitted()
      requires Valid()
      modifies this
      ensures Valid() && View() == old(View()).(submitted := old(View()).submitted + 1)
      ensures summaries == old(summaries)
    {
      AddCounter(SubmittedTotal);
    }

    method TaskStarted(wait: int)
      requires Valid()
      modifies this
      ensures Valid() && View() == old(View()).(started := old(View()).started + 1)
      ensures summaries.Keys == old(summaries).Keys && summaries[ExecutionDuration] == old(summaries)[ExecutionDuration]
      ensures summaries[WaitDuration].sum == old(summaries)[WaitDuration].sum + if wait > 0 then wait else 0
    {
      AddCounter(StartedTotal);
      Observe(WaitDuration, wait);
    }

    method TaskSucceeded(execution: int)
      requires Valid()
      modifies this
      ensures Valid() && View() == old(View()).(succeeded := old(View()).succeeded + 1)
      ensures summaries.Keys == old(summaries).Keys && summaries[WaitDuration] == old(summaries)[WaitDuration]
      ensures summaries[ExecutionDuration].sum == old(summaries)[ExecutionDuration].sum + if execution > 0 then execution else 0
    {
      AddCounter(SucceededTotal);
      Observe(ExecutionDuration, execution);
    }

    method TaskFailed(execution: int)
      requires Valid()
      modifies this
      ensures Valid() && View() == old(View()).(failed := old(View()).failed + 1)
      ensures summaries.Keys == old(summaries).Keys && summaries[WaitDuration] == old(summaries)[WaitDuration]
      ensures summaries[ExecutionDuration].sum == old(summaries)[ExecutionDuration].sum + if execution > 0 then execution else 0
    {
      AddCounter(FailedTotal);
      Observe(ExecutionDuration, execution);
    }

    method TaskRetried()
      requires Valid()
      modifies this
      ensures Valid() && View() == old(View()).(retried := old(View()).retried + 1)
      ensures summaries == old(summaries)
    {
      AddCounter(RetriedTotal);
    }

    method TaskDead()
      requires Valid()
      modifies this
      ensures Valid() && View() == old(View()).(dead := old(View()).dead + 1)
      ensures summaries == old(summaries)
    {
      AddCounter(DeadTotal);
    }
  }
}
