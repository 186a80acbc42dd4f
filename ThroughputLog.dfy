/** CameraFragment's side of the throughput experiment: it starts and stops the test, owns
    the workers the test runs, appends one CSV row per worker to the throughput log on every
    tick, switches worker 0's period on a fixed schedule and ends the test after thirty
    minutes. The camera, the UI widgets, the timer and the file are not modelled: ticks come
    in as the uptime in milliseconds and one wall-clock reading per worker, and the log is a
    field holding the rows. */
module ThroughputLog {
  import opened JavaLang
  import opened Clock
  import opened CounterParsers
  import opened Throughput
  import Sampler

  const ThroughputHeader: seq<string> :=
    ["time", "relativeTime", "modelIndex", "model", "delegate", "throughput", "avgThroughput",
     "turnAroundTime", "idleTime", "avgMeasuredPeriod", "measuredPeriod", "targetPeriod"]

  datatype Reading = Reading(h: nat, m: nat, s: nat, ms: nat)

  predicate ReadingsValid(readings: seq<Reading>)
  {
    forall k :: 0 <= k < |readings| ==> ValidReading(readings[k].h, readings[k].m, readings[k].s, readings[k].ms)
  }

  /** Clock text whose fourth ':'-separated field `Long.parseLong` also accepts. */
  predicate HasMillisField(text: string)
  {
    HasClockFields(text) && |Split(text, ':')| >= 4 && IsIntLiteral(Split(text, ':')[3])
  }

  /** "HH:mm:ss:SSS" for a reading. */
  function ReadingText(r: Reading): string
    requires ValidReading(r.h, r.m, r.s, r.ms)
  {
    TickText(r.h, r.m, r.s, r.ms)
  }

  // ---------------------------------------------------------------- one row

  /** getRelativeTime: seconds of the day plus the milliseconds field divided by 1000, less
      the start time. */
  function RelativeTime(startTime: int, clock: string): int
    requires HasMillisField(clock)
  {
    SecondsOfDay(clock) + Quot(IntValue(Split(clock, ':')[3]), 1000) - startTime
  }

  /** The milliseconds never reach a whole second, so both logs give a reading the same
      relative time: h*3600 + m*60 + s less the start. */
  lemma RelativeTimeOfReading(startTime: int, h: nat, m: nat, s: nat, ms: nat)
    requires ValidReading(h, m, s, ms)
    ensures HasMillisField(TickText(h, m, s, ms))
    ensures RelativeTime(startTime, TickText(h, m, s, ms)) == h * 3600 + m * 60 + s - startTime
    ensures RelativeTime(startTime, TickText(h, m, s, ms)) == Sampler.RelativeTime(startTime, TickText(h, m, s, ms))
  {
    TickTextFields(h, m, s, ms);
  }

  /** max(0, period - turnaround): the part of the period left after the average inference. */
  function IdleTime(period: int, turnAroundTime: int): (idle: int)
    ensures idle >= 0
    ensures idle == 0 <==> turnAroundTime >= period
    ensures idle > 0 ==> turnAroundTime + idle == period
  {
    Max(0, period - turnAroundTime)
  }

  /** What a tick reads from one worker: the row's values and the period option the
      schedule looks at. */
  datatype WorkerStats = WorkerStats(index: int, model: string, delegate: string,
                                     throughput: int, avgThroughput: int, avgTurnAroundTime: int,
                                     avgMeasuredPeriod: int, measuredPeriod: int, period: int,
                                     option: int)

  function Stats(w: ImageClassifierHelper): WorkerStats
    reads w
  {
    WorkerStats(w.index, w.CurrentModelName(), w.CurrentDelegateName(), w.currentThroughput,
                w.CalculateAverageThroughput(), w.CalculateAvgTAT(), w.GetAvgMeasuredPeriod(),
                w.measuredPeriod, w.taskPeriod, w.currentTaskPeriod)
  }

  /** One line of the throughput log, before it is written out. */
  datatype Record = Record(time: string, relativeTime: int, stats: WorkerStats)

  /** The fields of a line, in the header's order. The turnaround column is the average
      turnaround, calculateAvgTAT. */
  function RowFields(rec: Record): seq<string>
  {
    var st := rec.stats;
    [rec.time, IntToString(rec.relativeTime), IntToString(st.index), st.model,
     st.delegate, IntToString(st.throughput), IntToString(st.avgThroughput),
     IntToString(st.avgTurnAroundTime), IntToString(IdleTime(st.period, st.avgTurnAroundTime)),
     IntToString(st.avgMeasuredPeriod), IntToString(st.measuredPeriod), IntToString(st.period)]
  }

  /** The line due for a wall-clock reading: its text, and the seconds from the start to it. */
  function ReadingRecord(startTime: int, r: Reading, st: WorkerStats): Record
    requires ValidReading(r.h, r.m, r.s, r.ms)
  {
    Record(ReadingText(r), r.h * 3600 + r.m * 60 + r.s - startTime, st)
  }

  /** The model and delegate names carry no ',' to break a row. */
  lemma NamesHaveNoComma(model: int, delegate: int)
    ensures ',' !in ModelName(model) && ',' !in DelegateName(delegate)
  {
    if model == 1 {
      assert ',' !in "efficientnet-lite0.tflite";
    } else if model == 2 {
      assert ',' !in "efficientnet-lite1.tflite";
    } else if model == 3 {
      assert ',' !in "efficientnet-lite2.tflite";
    } else {
      assert ',' !in "mobilenetv1.tflite";
    }
    var d := DelegateName(delegate);
    assert forall k :: 0 <= k < |d| ==> d[k] != ',';
  }

  lemma NumberHasNoComma(n: int)
    ensures ',' !in IntToString(n)
  {
    IntToStringChars(n);
  }

  /** No field of a line holds a ',' when its time and names hold none. */
  lemma RowHasNoComma(rec: Record)
    requires ',' !in rec.time && ',' !in rec.stats.model && ',' !in rec.stats.delegate
    ensures forall k :: 0 <= k < |RowFields(rec)| ==> ',' !in RowFields(rec)[k]
  {
    var st := rec.stats;
    NumberHasNoComma(rec.relativeTime);
    NumberHasNoComma(st.index);
    NumberHasNoComma(st.throughput);
    NumberHasNoComma(st.avgThroughput);
    NumberHasNoComma(st.avgTurnAroundTime);
    NumberHasNoComma(IdleTime(st.period, st.avgTurnAroundTime));
    NumberHasNoComma(st.avgMeasuredPeriod);
    NumberHasNoComma(st.measuredPeriod);
    NumberHasNoComma(st.period);
  }

  /** A line written for a reading splits back on ',' into its twelve fields, one per header
      column; the relative time and the target period read back as numbers. */
  lemma RowFieldsReadBack(startTime: int, r: Reading, st: WorkerStats)
    requires ValidReading(r.h, r.m, r.s, r.ms)
    requires ',' !in st.model && ',' !in st.delegate
    ensures var row := RowFields(ReadingRecord(startTime, r, st));
            |row| == |ThroughputHeader| &&
            Split(Join(row, ','), ',') == row &&
            IntValue(row[1]) == r.h * 3600 + r.m * 60 + r.s - startTime &&
            IntValue(row[11]) == st.period
  {
    var relativeTime := r.h * 3600 + r.m * 60 + r.s - startTime;
    TickTextFields(r.h, r.m, r.s, r.ms);
    var row := RowFields(ReadingRecord(startTime, r, st));
    RowHasNoComma(ReadingRecord(startTime, r, st));
    SplitJoin(row, ',');
    ParseIntToString(relativeTime);
    ParseIntToString(st.period);
  }

  /** The lines of one tick: worker k's, for its own reading. */
  function Records(readings: seq<Reading>, startTime: int, stats: seq<WorkerStats>): (recs: seq<Record>)
    requires |readings| == |stats| && ReadingsValid(readings)
    ensures |recs| == |readings|
  {
    if |readings| == 0 then []
    else Records(readings[..|readings| - 1], startTime, stats[..|stats| - 1]) +
         [ReadingRecord(startTime, readings[|readings| - 1], stats[|stats| - 1])]
  }

  /** Line k of a tick is worker k's line for reading k. */
  lemma {:induction false} RecordsAt(readings: seq<Reading>, startTime: int, stats: seq<WorkerStats>)
    requires |readings| == |stats| && ReadingsValid(readings)
    ensures forall k :: 0 <= k < |readings| ==>
              Records(readings, startTime, stats)[k] == ReadingRecord(startTime, readings[k], stats[k])
  {
    if |readings| > 0 {
      var n := |readings| - 1;
      RecordsAt(readings[..n], startTime, stats[..n]);
      assert forall k :: 0 <= k < n ==> readings[..n][k] == readings[k] && stats[..n][k] == stats[k];
    }
  }

  lemma RecordsSnoc(readings: seq<Reading>, startTime: int, stats: seq<WorkerStats>, i: int)
    requires |readings| == |stats| && ReadingsValid(readings) && 0 <= i < |readings|
    ensures Records(readings[..i + 1], startTime, stats[..i + 1]) ==
            Records(readings[..i], startTime, stats[..i]) + [ReadingRecord(startTime, readings[i], stats[i])]
  {
    assert readings[..i + 1][..i] == readings[..i] && stats[..i + 1][..i] == stats[..i];
  }

  /** Every line of a tick has one field per header column and reads back from its text. */
  lemma RecordsReadBack(readings: seq<Reading>, startTime: int, stats: seq<WorkerStats>)
    requires |readings| == |stats| && ReadingsValid(readings)
    requires forall k :: 0 <= k < |stats| ==> ',' !in stats[k].model && ',' !in stats[k].delegate
    ensures forall k :: 0 <= k < |readings| ==>
              var row := RowFields(Records(readings, startTime, stats)[k]);
              |row| == |ThroughputHeader| && Split(Join(row, ','), ',') == row
  {
    RecordsAt(readings, startTime, stats);
    forall k | 0 <= k < |readings|
      ensures var row := RowFields(Records(readings, startTime, stats)[k]);
              |row| == |ThroughputHeader| && Split(Join(row, ','), ',') == row
    {
      RowFieldsReadBack(startTime, readings[k], stats[k]);
    }
  }

  // ---------------------------------------------------------------- schedule and stop rule

  function ElapsedSeconds(nowMs: int, testStartMs: int): int
  {
    Quot(nowMs - testStartMs, 1000)
  }

  /** Worker 0's period option after a tick: option 11 drops to option 5 between the tenth
      and the eleventh minute, option 5 goes back to 11 after the twentieth. */
  function ScriptedOption(index: int, option: int, elapsedS: int): int
  {
    var afterFirst := if 600 < elapsedS < 660 && index == 0 && option == 11 then 5 else option;
    if elapsedS > 1200 && index == 0 && afterFirst == 5 then 11 else afterFirst
  }

  /** Only worker 0 is switched, only between options 11 and 5, and exactly in those windows. */
  lemma ScriptedSwitch(index: int, option: int, elapsedS: int)
    ensures index != 0 ==> ScriptedOption(index, option, elapsedS) == option
    ensures option != 5 && option != 11 ==> ScriptedOption(index, option, elapsedS) == option
    ensures index == 0 && option == 11 ==>
              (ScriptedOption(index, option, elapsedS) == 5 <==> 600 < elapsedS < 660)
    ensures index == 0 && option == 11 && !(600 < elapsedS < 660) ==> ScriptedOption(index, option, elapsedS) == 11
    ensures index == 0 && option == 5 ==>
              (ScriptedOption(index, option, elapsedS) == 11 <==> elapsedS > 1200)
    ensures index == 0 && option == 5 && elapsedS <= 1200 ==> ScriptedOption(index, option, elapsedS) == 5
  {
  }

  /** elapsedTimeMin > 30, with both divisions truncating. */
  predicate ShouldStop(nowMs: int, testStartMs: int)
  {
    Quot(ElapsedSeconds(nowMs, testStartMs), 60) > 30
  }

  /** The test ends from the thirty-first full minute on: at 1,860,000 ms and not before. */
  lemma StopAfterThirtyOneMinutes(nowMs: int, testStartMs: int)
    requires nowMs >= testStartMs
    ensures ShouldStop(nowMs, testStartMs) <==> nowMs - testStartMs >= 1860000
  {
  }

  // ---------------------------------------------------------------- the fragment

  predicate OptionsReadable(periodOptions: seq<string>)
  {
    |periodOptions| > 11 && forall k :: 0 <= k < |periodOptions| ==> IsIntLiteral(periodOptions[k])
  }

  /** After a tick, a worker holds the option the schedule gives it, and its period is the one
      read for that option when the option changed, the earlier one otherwise. */
  predicate Switched(currentTaskPeriod: int, taskPeriod: int, before: WorkerStats, elapsedS: int,
                     periodOptions: seq<string>)
    requires OptionsReadable(periodOptions)
  {
    var option := ScriptedOption(before.index, before.option, elapsedS);
    currentTaskPeriod == option &&
    taskPeriod == (if option == before.option || !(0 <= option < |periodOptions|) then before.period
                     else IntValue(periodOptions[option]))
  }

  predicate Distinct(ws: seq<ImageClassifierHelper>)
  {
    forall i, j :: 0 <= i < j < |ws| ==> ws[i] != ws[j]
  }

  function StatsOf(ws: seq<ImageClassifierHelper>): (stats: seq<WorkerStats>)
    reads set w | w in ws
    ensures |stats| == |ws|
    ensures forall k :: 0 <= k < |ws| ==> stats[k] == Stats(ws[k])
  {
    if |ws| == 0 then [] else StatsOf(ws[..|ws| - 1]) + [Stats(ws[|ws| - 1])]
  }

  class CameraFragment {
    const periodOptions: seq<string>
    const startTime: int
    const mainHelper: ImageClassifierHelper
    var helpers: seq<ImageClassifierHelper>
    var testStatus: bool
    var testStartTime: int
    /** The lines written after the header. */
    var throughputLog: seq<Record>

    ghost predicate Valid()
      reads this
    {
      OptionsReadable(periodOptions) &&
      mainHelper.periodOptions == periodOptions &&
      (forall k :: 0 <= k < |helpers| ==> helpers[k].periodOptions == periodOptions) &&
      Distinct(helpers)
    }

    /** onViewCreated: the main worker with index 0, no test workers, the start time read
        from "HH:mm:ss", and the log holding its header. */
    constructor (periodOptions: seq<string>, h: nat, m: nat, s: nat, uptimeMs: int)
      requires OptionsReadable(periodOptions) && ValidReading(h, m, s, 0)
      ensures this.periodOptions == periodOptions
      ensures startTime == h * 3600 + m * 60 + s
      ensures fresh(mainHelper) && mainHelper.index == 0 && mainHelper.Snapshot() == Zero
      ensures helpers == [] && !testStatus
      ensures throughputLog == []
      ensures Valid()
    {
      this.periodOptions := periodOptions;
      mainHelper := new ImageClassifierHelper(0, periodOptions);
      helpers := [];
      StartTextFields(h, m, s);
      startTime := SecondsOfDay(StartText(h, m, s));
      testStatus := false;
      testStartTime := uptimeMs;
      throughputLog := [];
    }

    // ------------------------------------------------------------ controls on the main worker

    method MaxResultsMinus()
      modifies mainHelper`maxResults
      ensures mainHelper.maxResults == if old(mainHelper.maxResults) > 1 then old(mainHelper.maxResults) - 1
                                       else old(mainHelper.maxResults)
      ensures 1 <= old(mainHelper.maxResults) <= 3 ==> 1 <= mainHelper.maxResults <= 3
    {
      var maxResults := mainHelper.maxResults;
      if maxResults > 1 {
        mainHelper.maxResults := maxResults - 1;
      }
    }

    method MaxResultsPlus()
      modifies mainHelper`maxResults
      ensures mainHelper.maxResults == if old(mainHelper.maxResults) < 3 then old(mainHelper.maxResults) + 1
                                       else old(mainHelper.maxResults)
      ensures 1 <= old(mainHelper.maxResults) <= 3 ==> 1 <= mainHelper.maxResults <= 3
    {
      var maxResults := mainHelper.maxResults;
      if maxResults < 3 {
        mainHelper.maxResults := maxResults + 1;
      }
    }

    method ThreadsMinus()
      modifies mainHelper`numThreads
      ensures mainHelper.numThreads == if old(mainHelper.numThreads) > 1 then old(mainHelper.numThreads) - 1
                                       else old(mainHelper.numThreads)
      ensures 1 <= old(mainHelper.numThreads) <= 4 ==> 1 <= mainHelper.numThreads <= 4
    {
      var numThreads := mainHelper.numThreads;
      if numThreads > 1 {
        mainHelper.numThreads := numThreads - 1;
      }
    }

    method ThreadsPlus()
      modifies mainHelper`numThreads
      ensures mainHelper.numThreads == if old(mainHelper.numThreads) < 4 then old(mainHelper.numThreads) + 1
                                       else old(mainHelper.numThreads)
      ensures 1 <= old(mainHelper.numThreads) <= 4 ==> 1 <= mainHelper.numThreads <= 4
    {
      var numThreads := mainHelper.numThreads;
      if numThreads < 4 {
        mainHelper.numThreads := numThreads + 1;
      }
    }

    method OnDelegateSelected(position: int)
      modifies mainHelper`currentDelegate
      ensures mainHelper.currentDelegate == position
    {
      mainHelper.SetCurrentDelegate(position);
    }

    /** The period spinner: the main worker's option and, when the option exists, its period. */
    method OnPeriodSelected(position: int) returns (r: Result<int>)
      requires Valid()
      modifies mainHelper`currentTaskPeriod, mainHelper`taskPeriod
      ensures mainHelper.currentTaskPeriod == position
      ensures 0 <= position < |periodOptions| ==> mainHelper.taskPeriod == IntValue(periodOptions[position]) && r.Ok?
      ensures !(0 <= position < |periodOptions|) ==> mainHelper.taskPeriod == old(mainHelper.taskPeriod) && r.IndexOutOfBounds?
    {
      r := mainHelper.SetCurrentPeriod(position);
    }

    // ------------------------------------------------------------ test workers

    /** Builds workers 0, 1, 2 and 4 on the NNAPI delegate with period option 11 and keeps
        0, 1 and 4; with the test off the list is left empty. */
    method ConfigureImageClassifiers()
      requires Valid()
      modifies this`helpers
      ensures !testStatus ==> helpers == []
      ensures testStatus ==> (|helpers| == 3 &&
                helpers[0].index == 0 && helpers[1].index == 1 && helpers[2].index == 4)
      ensures forall k :: 0 <= k < |helpers| ==>
                fresh(helpers[k]) && helpers[k].currentDelegate == 2 && helpers[k].currentTaskPeriod == 11 &&
                helpers[k].taskPeriod == IntValue(periodOptions[11]) && helpers[k].Snapshot() == Zero &&
                !helpers[k].run
      ensures Valid()
    {
      helpers := [];
      if testStatus {
        var classifier1 := NewWorker(0);
        var classifier2 := NewWorker(1);
        var classifier3 := NewWorker(2);
        var segmenter := NewWorker(4);
        helpers := [classifier1, classifier2, segmenter];
      }
    }

    method NewWorker(index: int) returns (w: ImageClassifierHelper)
      requires OptionsReadable(periodOptions)
      ensures fresh(w) && w.index == index && w.periodOptions == periodOptions
      ensures w.currentDelegate == 2 && w.currentTaskPeriod == 11 && w.taskPeriod == IntValue(periodOptions[11])
      ensures w.Snapshot() == Zero && !w.run
    {
      w := new ImageClassifierHelper(index, periodOptions);
      w.SetCurrentDelegate(2);
      var _ := w.SetCurrentPeriod(11);
    }

    /** startCollect on every worker. */
    method RunImageClassifiers()
      requires Distinct(helpers)
      modifies helpers`run, helpers`executionCount, helpers`currentThroughput
      ensures forall k :: 0 <= k < |helpers| ==>
                helpers[k].run && helpers[k].executionCount == 0 && helpers[k].currentThroughput == 0
    {
      for i := 0 to |helpers|
        invariant forall k :: 0 <= k < i ==>
                    helpers[k].run && helpers[k].executionCount == 0 && helpers[k].currentThroughput == 0
      {
        helpers[i].StartCollect();
      }
    }

    /** pauseCollect on every worker. */
    method PauseImageClassifiers()
      modifies helpers`run
      ensures forall k :: 0 <= k < |helpers| ==> !helpers[k].run
    {
      for i := 0 to |helpers|
        invariant forall k :: 0 <= k < i ==> !helpers[k].run
      {
        helpers[i].PauseCollect();
      }
    }

    /** The test button: switching off pauses and drops every worker; switching on records
        the start, builds the workers and starts them. */
    method ToggleTest(uptimeMs: int)
      requires Valid()
      modifies this`testStatus, this`testStartTime, this`helpers, helpers`run
      ensures testStatus == !old(testStatus)
      ensures !testStatus ==> (helpers == [] && testStartTime == old(testStartTime) &&
                forall k :: 0 <= k < |old(helpers)| ==> !old(helpers)[k].run)
      ensures testStatus ==> (testStartTime == uptimeMs && |helpers| == 3 &&
                helpers[0].index == 0 && helpers[1].index == 1 && helpers[2].index == 4)
      ensures forall k :: 0 <= k < |helpers| ==>
                fresh(helpers[k]) && helpers[k].currentDelegate == 2 && helpers[k].currentTaskPeriod == 11 &&
                helpers[k].taskPeriod == IntValue(periodOptions[11]) && helpers[k].run &&
                helpers[k].executionCount == 0 && helpers[k].currentThroughput == 0
      ensures Valid()
    {
      testStatus := !testStatus;
      if !testStatus {
        PauseImageClassifiers();
        helpers := [];
      } else {
        testStartTime := uptimeMs;
        ConfigureImageClassifiers();
        RunImageClassifiers();
      }
    }

    // ------------------------------------------------------------ the tick

    /** One worker's part of a tick: its row, then the scheduled period switch. */
    method LogWorker(w: ImageClassifierHelper, r: Reading, elapsedS: int)
      requires ValidReading(r.h, r.m, r.s, r.ms) && w.periodOptions == periodOptions
      requires OptionsReadable(periodOptions)
      modifies this`throughputLog, w`currentTaskPeriod, w`taskPeriod
      ensures throughputLog == old(throughputLog) + [ReadingRecord(startTime, r, old(Stats(w)))]
      ensures Switched(w.currentTaskPeriod, w.taskPeriod, old(Stats(w)), elapsedS, periodOptions)
    {
      var clock := ReadingText(r);
      RelativeTimeOfReading(startTime, r.h, r.m, r.s, r.ms);
      var relativeTime := RelativeTime(startTime, clock);
      var stats := Stats(w);
      assert Record(clock, relativeTime, stats) == ReadingRecord(startTime, r, stats);
      throughputLog := throughputLog + [Record(clock, relativeTime, stats)];
      if 600 < elapsedS < 660 && w.index == 0 && w.currentTaskPeriod == 11 {
        var _ := w.SetCurrentPeriod(5);
      }
      if elapsedS > 1200 && w.index == 0 && w.currentTaskPeriod == 5 {
        var _ := w.SetCurrentPeriod(11);
      }
    }

    /** Workers before i have written their line and taken their switch; the rest are as
        the tick found them. */
    ghost predicate Progress(i: int, readings: seq<Reading>, elapsedS: int, before: seq<WorkerStats>,
                             log0: seq<Record>)
      reads this, set w | w in helpers
    {
      0 <= i <= |helpers| && |readings| == |helpers| == |before| && ReadingsValid(readings) &&
      OptionsReadable(periodOptions) && Distinct(helpers) &&
      (forall k :: 0 <= k < |helpers| ==> helpers[k].periodOptions == periodOptions) &&
      throughputLog == log0 + Records(readings[..i], startTime, before[..i]) &&
      (forall k :: 0 <= k < i ==>
         Switched(helpers[k].currentTaskPeriod, helpers[k].taskPeriod, before[k], elapsedS, periodOptions)) &&
      (forall k :: i <= k < |helpers| ==> Stats(helpers[k]) == before[k])
    }

    /** Worker i's turn in a tick. */
    method TickStep(i: int, readings: seq<Reading>, elapsedS: int, ghost before: seq<WorkerStats>,
                    ghost log0: seq<Record>)
      requires Progress(i, readings, elapsedS, before, log0) && i < |helpers|
      modifies this`throughputLog, helpers`currentTaskPeriod, helpers`taskPeriod
      ensures Progress(i + 1, readings, elapsedS, before, log0)
    {
      var w := helpers[i];
      ghost var log := throughputLog;
      label Row:
      LogWorker(w, readings[i], elapsedS);
      assert throughputLog == log + [ReadingRecord(startTime, readings[i], before[i])];
      assert forall k :: 0 <= k < |helpers| && k != i ==>
               helpers[k].currentTaskPeriod == old@Row(helpers[k].currentTaskPeriod) &&
               helpers[k].taskPeriod == old@Row(helpers[k].taskPeriod);
      RecordsSnoc(readings, startTime, before, i);
    }

    /** processDataCollection: one line per worker, read before that worker's own switch;
        the scheduled switches; and whether the test is due to stop. */
    method ProcessDataCollection(uptimeMs: int, readings: seq<Reading>) returns (stop: bool)
      requires Valid() && |readings| == |helpers| && ReadingsValid(readings)
      modifies this`throughputLog, helpers`currentTaskPeriod, helpers`taskPeriod
      ensures throughputLog == old(throughputLog) + Records(readings, startTime, old(StatsOf(helpers)))
      ensures forall k :: 0 <= k < |helpers| ==>
                Switched(helpers[k].currentTaskPeriod, helpers[k].taskPeriod, old(StatsOf(helpers))[k],
                         ElapsedSeconds(uptimeMs, testStartTime), periodOptions)
      ensures stop == ShouldStop(uptimeMs, testStartTime)
      ensures Valid()
    {
      var elapsedS := ElapsedSeconds(uptimeMs, testStartTime);
      ghost var before := StatsOf(helpers);
      ghost var log0 := throughputLog;
      assert readings[..0] == [] && before[..0] == [];
      for i := 0 to |helpers|
        invariant Progress(i, readings, elapsedS, before, log0)
      {
        TickStep(i, readings, elapsedS, before, log0);
      }
      assert readings[..|helpers|] == readings && before[..|helpers|] == before;
      stop := ShouldStop(uptimeMs, testStartTime);
    }
  }
}
