/** ImageClassifierHelperKotlin, the per-worker throughput tracker: every completed inference
    adds its turnaround time, the period it occupied and the throughput that period gives to
    running totals, and the averages the throughput log reports divide those totals by the
    number of completions. Inference itself and the coroutine that drives it are not
    modelled: a completion comes in as its turnaround time in milliseconds. */
module Throughput {
  import opened JavaLang
  import opened CounterParsers

  // ---------------------------------------------------------------- name mappings

  /** delegateName: 0 CPU, 1 GPU, 2 NNAPI (reported as "NPU"), anything else "unknown". */
  function DelegateName(delegate: int): string
  {
    if delegate == 0 then "CPU"
    else if delegate == 1 then "GPU"
    else if delegate == 2 then "NPU"
    else "unknown"
  }

  /** modelName: the four bundled models, MobileNet V1 for any other choice. */
  function ModelName(model: int): string
  {
    if model == 1 then "efficientnet-lite0.tflite"
    else if model == 2 then "efficientnet-lite1.tflite"
    else if model == 3 then "efficientnet-lite2.tflite"
    else "mobilenetv1.tflite"
  }

  /** Exactly the three known delegates have a name of their own, and no two share one. */
  lemma DelegateNames(d: int, e: int)
    ensures DelegateName(d) == "unknown" <==> d !in {0, 1, 2}
    ensures d in {0, 1, 2} && e in {0, 1, 2} && DelegateName(d) == DelegateName(e) ==> d == e
  {
  }

  /** Models 0 to 3 have distinct files; any other choice loads model 0's. */
  lemma ModelNames(m: int, n: int)
    ensures m !in {0, 1, 2, 3} ==> ModelName(m) == ModelName(0)
    ensures m in {0, 1, 2, 3} && n in {0, 1, 2, 3} && ModelName(m) == ModelName(n) ==> m == n
  {
  }

  // ---------------------------------------------------------------- the counters

  /** The counters classify updates. */
  datatype Counters = Counters(executionCount: int, totalTurnAroundTime: int,
                               totalMeasuredPeriod: int, totalThroughputTime: int,
                               currentThroughput: int, measuredPeriod: int)

  const Zero: Counters := Counters(0, 0, 0, 0, 0, 0)

  /** The wait classify adds after an inference that finished early in its period. */
  function Delay(taskPeriod: int, turnAroundTime: int): int
  {
    var timeLeftInPeriod := taskPeriod - turnAroundTime;
    if timeLeftInPeriod > 0 then timeLeftInPeriod else 0
  }

  /** The bookkeeping of one classify call with the given turnaround time. */
  function Complete(c: Counters, taskPeriod: int, turnAroundTime: int): Counters
  {
    var timeLeftInPeriod := taskPeriod - turnAroundTime;
    var measured := if timeLeftInPeriod >= 0 then taskPeriod else turnAroundTime;
    var throughput := if measured == 0 then 0 else Quot(1000, measured);
    Counters(c.executionCount + 1,
             c.totalTurnAroundTime + turnAroundTime,
             c.totalMeasuredPeriod + measured,
             c.totalThroughputTime + throughput,
             throughput,
             measured)
  }

  /** A completion counts once and occupies the longer of the task period and its own
      turnaround, which is its turnaround plus the wait; it waits exactly when it finished
      before the period was over. */
  lemma CompletionPeriod(c: Counters, taskPeriod: int, t: int)
    ensures Complete(c, taskPeriod, t).executionCount == c.executionCount + 1
    ensures Complete(c, taskPeriod, t).measuredPeriod == Max(taskPeriod, t)
    ensures Complete(c, taskPeriod, t).measuredPeriod == t + Delay(taskPeriod, t)
    ensures Delay(taskPeriod, t) > 0 <==> t < taskPeriod
    ensures Delay(taskPeriod, t) >= 0
  {
  }

  lemma MulCancel(x: int, y: int, p: int)
    requires p > 0 && x * p < y * p
    ensures x < y
  {
    assert (y - x) * p == y * p - x * p;
  }

  /** Integer division by a larger divisor gives no more. */
  lemma DivAntitone(a: int, m: int, p: int)
    requires a >= 0 && m >= p > 0
    ensures 0 <= a / m <= a / p
  {
    var q, r := a / m, a / p;
    assert q >= 0;
    assert q * p <= q * m by {
      assert q * m - q * p == q * (m - p);
    }
    assert q * m <= a;
    assert a < (r + 1) * p;
    MulCancel(q, r + 1, p);
  }

  /** With a positive task period and a turnaround that is not negative, the throughput a
      completion records is at most 1000 / taskPeriod, and never negative. */
  lemma ThroughputBound(c: Counters, taskPeriod: int, t: int)
    requires taskPeriod > 0 && t >= 0
    ensures 0 <= Complete(c, taskPeriod, t).currentThroughput <= 1000 / taskPeriod
  {
    var m := Complete(c, taskPeriod, t).measuredPeriod;
    assert m >= taskPeriod;
    DivAntitone(1000, m, taskPeriod);
  }

  /** The counters after a run of completions. */
  function Run(c: Counters, taskPeriod: int, ts: seq<int>): Counters
    decreases |ts|
  {
    if |ts| == 0 then c else Run(Complete(c, taskPeriod, ts[0]), taskPeriod, ts[1..])
  }

  function SumOf(xs: seq<int>): int
  {
    if |xs| == 0 then 0 else xs[0] + SumOf(xs[1..])
  }

  function Periods(taskPeriod: int, ts: seq<int>): (ps: seq<int>)
    ensures |ps| == |ts| && forall k :: 0 <= k < |ts| ==> ps[k] == Max(taskPeriod, ts[k])
  {
    seq(|ts|, k requires 0 <= k < |ts| => Max(taskPeriod, ts[k]))
  }

  /** After a run the count has grown by the number of completions and the turnaround and
      period totals by their sums. */
  lemma {:induction false} RunTotals(c: Counters, taskPeriod: int, ts: seq<int>)
    ensures Run(c, taskPeriod, ts).executionCount == c.executionCount + |ts|
    ensures Run(c, taskPeriod, ts).totalTurnAroundTime == c.totalTurnAroundTime + SumOf(ts)
    ensures Run(c, taskPeriod, ts).totalMeasuredPeriod == c.totalMeasuredPeriod + SumOf(Periods(taskPeriod, ts))
    decreases |ts|
  {
    if |ts| > 0 {
      RunTotals(Complete(c, taskPeriod, ts[0]), taskPeriod, ts[1..]);
      assert Periods(taskPeriod, ts)[1..] == Periods(taskPeriod, ts[1..]);
    }
  }

  /** Each completion of a run adds at most 1000 / taskPeriod to the throughput total. */
  lemma {:induction false} RunThroughputTotal(c: Counters, taskPeriod: int, ts: seq<int>)
    requires taskPeriod > 0 && forall k :: 0 <= k < |ts| ==> ts[k] >= 0
    ensures c.totalThroughputTime <= Run(c, taskPeriod, ts).totalThroughputTime
    ensures Run(c, taskPeriod, ts).totalThroughputTime <= c.totalThroughputTime + |ts| * (1000 / taskPeriod)
    decreases |ts|
  {
    if |ts| > 0 {
      ThroughputBound(c, taskPeriod, ts[0]);
      RunThroughputTotal(Complete(c, taskPeriod, ts[0]), taskPeriod, ts[1..]);
      assert |ts| * (1000 / taskPeriod) == (1000 / taskPeriod) + (|ts| - 1) * (1000 / taskPeriod);
    }
  }

  /** The average getters: the total over max(1, count), so that with no completion they
      give the total itself. */
  function PerExecution(total: int, count: int): (avg: int)
    ensures count <= 0 ==> avg == total
    ensures count > 0 && total >= 0 ==> avg * count <= total < (avg + 1) * count
  {
    Quot(total, Max(1, count))
  }

  /** An average over one or more completions is no more than a bound each of them keeps. */
  lemma AverageAtMost(total: int, count: int, bound: int)
    requires count > 0 && 0 <= total <= count * bound
    ensures 0 <= PerExecution(total, count) <= bound
  {
    var avg := PerExecution(total, count);
    assert avg * count <= total;
    assert avg >= 0;
    assert count * bound < (bound + 1) * count;
    MulCancel(avg, bound + 1, count);
  }

  /** Over a run from zero, with a positive task period, the average throughput is at most
      1000 / taskPeriod. */
  lemma AverageThroughputBound(taskPeriod: int, ts: seq<int>)
    requires taskPeriod > 0 && |ts| > 0 && forall k :: 0 <= k < |ts| ==> ts[k] >= 0
    ensures 0 <= PerExecution(Run(Zero, taskPeriod, ts).totalThroughputTime, Run(Zero, taskPeriod, ts).executionCount)
              <= 1000 / taskPeriod
  {
    RunTotals(Zero, taskPeriod, ts);
    RunThroughputTotal(Zero, taskPeriod, ts);
    AverageAtMost(Run(Zero, taskPeriod, ts).totalThroughputTime, |ts|, 1000 / taskPeriod);
  }

  // ---------------------------------------------------------------- the tracker

  class ImageClassifierHelper {
    const index: int
    const periodOptions: seq<string>
    var numThreads: int
    var maxResults: int
    var currentDelegate: int
    var currentModel: int
    var currentThroughput: int
    var measuredPeriod: int
    var currentTaskPeriod: int
    var taskPeriod: int
    var run: bool
    var totalTurnAroundTime: int
    var totalThroughputTime: int
    var totalMeasuredPeriod: int
    var executionCount: int

    function Snapshot(): Counters
      reads this
    {
      Counters(executionCount, totalTurnAroundTime, totalMeasuredPeriod, totalThroughputTime,
               currentThroughput, measuredPeriod)
    }

    /** Two threads, three results, the CPU delegate, the first model, every counter zero. */
    constructor (index: int, periodOptions: seq<string>)
      ensures this.index == index && this.periodOptions == periodOptions
      ensures numThreads == 2 && maxResults == 3 && currentDelegate == 0 && currentModel == 0
      ensures currentTaskPeriod == 0 && taskPeriod == 0 && !run
      ensures Snapshot() == Zero
    {
      this.index := index;
      this.periodOptions := periodOptions;
      numThreads := 2;
      maxResults := 3;
      currentDelegate := 0;
      currentModel := 0;
      currentThroughput := 0;
      measuredPeriod := 0;
      currentTaskPeriod := 0;
      taskPeriod := 0;
      run := false;
      totalTurnAroundTime := 0;
      totalThroughputTime := 0;
      totalMeasuredPeriod := 0;
      executionCount := 0;
    }

    method SetCurrentDelegate(currentDelegate: int)
      modifies this`currentDelegate
      ensures this.currentDelegate == currentDelegate
    {
      this.currentDelegate := currentDelegate;
    }

    method SetCurrentModel(currentModel: int)
      modifies this`currentModel
      ensures this.currentModel == currentModel
    {
      this.currentModel := currentModel;
    }

    function CurrentDelegateName(): string
      reads this`currentDelegate
    {
      DelegateName(currentDelegate)
    }

    function CurrentModelName(): string
      reads this`currentModel
    {
      ModelName(currentModel)
    }

    /** setCurrentPeriod: records the option, then reads its period from the option list.
        An option past the list leaves the period as it was and ends in an index error;
        no counter changes either way. */
    method SetCurrentPeriod(currOption: int) returns (r: Result<int>)
      requires forall k :: 0 <= k < |periodOptions| ==> IsIntLiteral(periodOptions[k])
      modifies this`currentTaskPeriod, this`taskPeriod
      ensures currentTaskPeriod == currOption
      ensures 0 <= currOption < |periodOptions| ==>
                r == Ok(IntValue(periodOptions[currOption])) && taskPeriod == IntValue(periodOptions[currOption])
      ensures !(0 <= currOption < |periodOptions|) ==> r == IndexOutOfBounds && taskPeriod == old(taskPeriod)
    {
      currentTaskPeriod := currOption;
      if !(0 <= currentTaskPeriod < |periodOptions|) {
        return IndexOutOfBounds;
      }
      taskPeriod := IntValue(periodOptions[currentTaskPeriod]);
      r := Ok(taskPeriod);
    }

    function CalculateAverageThroughput(): int
      reads this`totalThroughputTime, this`executionCount
    {
      PerExecution(totalThroughputTime, executionCount)
    }

    function CalculateAvgTAT(): int
      reads this`totalTurnAroundTime, this`executionCount
    {
      PerExecution(totalTurnAroundTime, executionCount)
    }

    function GetAvgMeasuredPeriod(): int
      reads this`totalMeasuredPeriod, this`executionCount
    {
      PerExecution(totalMeasuredPeriod, executionCount)
    }

    /** resetRtData: the count and the current throughput start again; the totals stay. */
    method ResetRtData()
      modifies this`executionCount, this`currentThroughput
      ensures executionCount == 0 && currentThroughput == 0
    {
      executionCount := 0;
      currentThroughput := 0;
    }

    /** startCollect: marks the worker running and resets its live counters. */
    method StartCollect()
      modifies this`run, this`executionCount, this`currentThroughput
      ensures run && executionCount == 0 && currentThroughput == 0
    {
      run := true;
      ResetRtData();
    }

    method PauseCollect()
      modifies this`run
      ensures !run
    {
      run := false;
    }

    /** The bookkeeping of classify for an inference that took `turnAroundTime` ms; the
        result is how long classify then waits before the next one. */
    method Classify(turnAroundTime: int) returns (delay: int)
      modifies this`executionCount, this`measuredPeriod, this`totalMeasuredPeriod,
               this`totalTurnAroundTime, this`currentThroughput, this`totalThroughputTime
      ensures Snapshot() == Complete(old(Snapshot()), taskPeriod, turnAroundTime)
      ensures delay == Delay(taskPeriod, turnAroundTime)
    {
      executionCount := executionCount + 1;
      var timeLeftInPeriod := taskPeriod - turnAroundTime;
      measuredPeriod := if timeLeftInPeriod >= 0 then taskPeriod else turnAroundTime;
      delay := 0;
      if timeLeftInPeriod > 0 {
        delay := timeLeftInPeriod;
      }
      totalMeasuredPeriod := totalMeasuredPeriod + measuredPeriod;
      totalTurnAroundTime := totalTurnAroundTime + turnAroundTime;
      currentThroughput := if measuredPeriod == 0 then 0 else Quot(1000, measuredPeriod);
      totalThroughputTime := totalThroughputTime + currentThroughput;
    }
  }

  /** A restart clears the count but not the totals: the completions after it are averaged
      together with every turnaround recorded before it. */
  lemma RestartKeepsTotals(c: Counters, taskPeriod: int, ts: seq<int>)
    ensures var restarted := Counters(0, c.totalTurnAroundTime, c.totalMeasuredPeriod,
                                      c.totalThroughputTime, 0, c.measuredPeriod);
            Run(restarted, taskPeriod, ts).executionCount == |ts| &&
            Run(restarted, taskPeriod, ts).totalTurnAroundTime == c.totalTurnAroundTime + SumOf(ts)
  {
    var restarted := Counters(0, c.totalTurnAroundTime, c.totalMeasuredPeriod,
                              c.totalThroughputTime, 0, c.measuredPeriod);
    RunTotals(restarted, taskPeriod, ts);
  }
}
