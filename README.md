# Thermal and throughput bookkeeping of the image-classification benchmark

This Android app runs several TensorFlow Lite image classifiers side by side. While they run, it
writes three CSV logs:

- **the performance log and the raw log**, written by `DataProcessor`. Every sampling pass reads
  the thermal zones, the core and GPU frequencies, the CPU and GPU utilization and the per-cluster
  `time_in_state` residency tables through a shell, and appends one row to each log. The
  thermal-status listener `PFManager` records the status name the rows carry and triggers a pass
  itself.
- **the throughput log**, written by `CameraFragment`. On every tick it appends one row per
  worker. That row is built from the counters each `ImageClassifierHelperKotlin` updates after
  every inference: execution count, turnaround, measured period and throughput. The fragment also
  switches worker 0's period on a fixed schedule and ends the test after thirty minutes.

The Dafny project models that core. Each part follows the source's own form:

- The parsers and the row layout are functions over values.
- The loops of the source become methods with loop invariants, each proved equal to a function.
- `DataProcessor`, `ImageClassifierHelperKotlin`, `CameraFragment` and `PFManager` become
  classes. Their fields are updated in place, and their methods state the new state.

The modules:

- `JavaLang`: the Java and Kotlin library behaviour the core relies on:
  - `String.split`, which drops trailing empty strings;
  - joining with a delimiter;
  - `contains` and `replace`;
  - `Long.parseLong` / `Long.toString`;
  - truncating `long` division;
  - zero-padded clock digits.
- `Clock`: the `HH:mm:ss` and `HH:mm:ss:SSS` texts, and the seconds of the day read back from them.
- `CounterParsers`: the `get*` readers of `DataProcessor`. The shell is an input: a function from
  a command line to the lines it prints.
- `Sampler`: the `DataProcessor` class. This covers:
  - discovery and the baseline capture;
  - the two headers;
  - one sampling pass, which gives both rows or the index error that escapes it (in the
    program that error also stops the sampling timer for good; see "## Left out").
- `Throughput`: the `ImageClassifierHelperKotlin` counters, plus the pure specification of one
  completion and of a run of completions.
- `ThroughputLog`: the `CameraFragment` class. This covers the test workers, the rows of the
  throughput log, the period schedule and the stop rule.
- `ThermalStatus`: `PFManager` and the thermal status names.

Floats are modelled as `real` and integers as unbounded `int`; "## Left out" lists what that
drops. Four things the code does differently from what its comments and surrounding design
suggest. The model follows the code in each case:

- The test stops once `elapsedTimeMin > 30`, so from the 31st minute on, not at 30 minutes
  (`ThroughputLog.StopAfterThirtyOneMinutes`).
- A GPU utilization line without `%` is parsed whole, with no fallback to 0
  (`CounterParsers.GpuUtilization`).
- The throughput log's `turnAroundTime` column is meant to come from `getMeasuredTurnAround()`,
  which `ImageClassifierHelperKotlin` does not define. The model uses the average turnaround,
  `calculateAvgTAT()`, which the same loop computes and which the commented-out alternative names.
- The raw log's core columns are named after the element at `length - 2` of each core's path
  split on '/'. For "/sys/devices/system/cpu/cpu3/" that is the parent directory, "cpu", so
  every core column is "cpu_freq" rather than "cpu3_freq" (`Sampler.DiscoveredCoreHeadersAllCpu`).
  "## Findings" records the corrected naming.

## Model

| member | source | states |
|---|---|---|
| Clock.StartTextFields | app/src/main/java/org/tensorflow/lite/examples/imageclassification/DataProcessor.java:44-49 | the start text "HH:mm:ss" splits back into three fields worth h*3600 + m*60 + s seconds |
| Clock.TickTextFields | app/src/main/java/org/tensorflow/lite/examples/imageclassification/DataProcessor.java:191-192 | a "HH:mm:ss:SSS" reading splits on ':' into its four zero-padded fields, which parse back to h, m, s and ms; it holds no ',' |
| CounterParsers.ThermalZoneTemp | app/src/main/java/org/tensorflow/lite/examples/imageclassification/DataProcessor.java:481-493 | -1 exactly when nothing was read; otherwise the first line in millidegrees, negative values clamped to 0, divided by 1000 |
| CounterParsers.CpuFrequency | app/src/main/java/org/tensorflow/lite/examples/imageclassification/DataProcessor.java:516-528 | 0 when nothing was read; otherwise the first line's kHz value divided by 1000000 |
| CounterParsers.GpuFrequency | app/src/main/java/org/tensorflow/lite/examples/imageclassification/DataProcessor.java:530-542 | 0 when nothing was read; otherwise the first line divided by 1000 |
| CounterParsers.GpuUtilization | app/src/main/java/org/tensorflow/lite/examples/imageclassification/DataProcessor.java:568-582 | -1 when nothing was read; otherwise the number before the first '%'; the whole line when it has no '%' |
| CounterParsers.SqueezeHasNoDoubleSpace | app/src/main/java/org/tensorflow/lite/examples/imageclassification/DataProcessor.java:552-554 | the collapsed line has no two spaces in a row, which is when the replace loop stops |
| CounterParsers.SqueezeWithoutDoubleSpace | app/src/main/java/org/tensorflow/lite/examples/imageclassification/DataProcessor.java:552-554 | a line without two spaces in a row is left as it is |
| CounterParsers.ReplaceShortens | app/src/main/java/org/tensorflow/lite/examples/imageclassification/DataProcessor.java:552-554 | each replace of "  " by " " shortens a line that still holds "  ", so the loop ends |
| CounterParsers.SqueezeOfReplace | app/src/main/java/org/tensorflow/lite/examples/imageclassification/DataProcessor.java:552-554 | one replace step does not change what the loop ends with |
| CounterParsers.FirstContaining | app/src/main/java/org/tensorflow/lite/examples/imageclassification/DataProcessor.java:550-558 | the index of the first line of `top` holding "org.tensorflow", or the line count when none does |
| CounterParsers.CpuUtilization | app/src/main/java/org/tensorflow/lite/examples/imageclassification/DataProcessor.java:544-566 | the read loop with its replace loop gives the fourth field from the end of the app's collapsed, comma-separated line, or an index error when it has fewer than four |
| CounterParsers.CpuUtilizationFallback | app/src/main/java/org/tensorflow/lite/examples/imageclassification/DataProcessor.java:560-565 | when no line belongs to the app, the result is "-1" |
| CounterParsers.CpuUtilizationIsOneField | app/src/main/java/org/tensorflow/lite/examples/imageclassification/DataProcessor.java:555-565 | the value taken from the app's line holds no space and no ',' |
| CounterParsers.ResidencyTable | app/src/main/java/org/tensorflow/lite/examples/imageclassification/DataProcessor.java:427-444 | one time in seconds per table line, in order, then -1 |
| CounterParsers.PolicyTimes | app/src/main/java/org/tensorflow/lite/examples/imageclassification/DataProcessor.java:427-444 | the read loop gives that table |
| CounterParsers.KeptPathsMembers | app/src/main/java/org/tensorflow/lite/examples/imageclassification/DataProcessor.java:446-467 | a discovered path is dir + "/" + name + "/" for a listed name the filter keeps, and every such name gives one |
| CounterParsers.KeptPathsAppend | app/src/main/java/org/tensorflow/lite/examples/imageclassification/DataProcessor.java:456-462 | discovery over two listings is discovery over each, in listing order |
| CounterParsers.ThermalZoneFilePaths | app/src/main/java/org/tensorflow/lite/examples/imageclassification/DataProcessor.java:446-467 | the loop keeps exactly the listed names holding "thermal_zone", as paths, in order |
| CounterParsers.CpuDeviceFiles | app/src/main/java/org/tensorflow/lite/examples/imageclassification/DataProcessor.java:495-514 | the loop keeps exactly the listed names matching cpu[0-9], as paths, in order |
| CounterParsers.CpuDeviceEntryShape | app/src/main/java/org/tensorflow/lite/examples/imageclassification/DataProcessor.java:505 | a kept name is "cpu" followed by exactly one digit, and every such name is kept |
| CounterParsers.EntryPathSplit | app/src/main/java/org/tensorflow/lite/examples/imageclassification/DataProcessor.java:116 | splitting a core path on '/' gives the directory's segments and then the core's name; the trailing '/' leaves no field |
| CounterParsers.CoreColumnNameAsWrittenIsParent | app/src/main/java/org/tensorflow/lite/examples/imageclassification/DataProcessor.java:116-118 | the field at length - 2 is the directory's last segment, not the core |
| CounterParsers.CoreColumnsAsWrittenAllCpu | app/src/main/java/org/tensorflow/lite/examples/imageclassification/DataProcessor.java:115-120 | as written, every core column is named after "cpu" |
| CounterParsers.CoreColumnNameIsEntry | app/src/main/java/org/tensorflow/lite/examples/imageclassification/DataProcessor.java:115-120 | corrected, each core column is named after its own core |
| Sampler.HasTypeOfInterest | app/src/main/java/org/tensorflow/lite/examples/imageclassification/DataProcessor.java:360-367 | the loop over the types of interest finds one exactly when the zone's type contains one of BIG, MID, LITTLE, TPU, G3D |
| Sampler.ZoneEntry | app/src/main/java/org/tensorflow/lite/examples/imageclassification/DataProcessor.java:355-369 | a zone contributes its temperature once when the device is rooted or its type is of interest, and nothing otherwise |
| Sampler.ThermalData | app/src/main/java/org/tensorflow/lite/examples/imageclassification/DataProcessor.java:338-372 | the thermal data start with the status: the shared one from Android Q on, "Unknown" before |
| Sampler.ZoneEntriesAppend | app/src/main/java/org/tensorflow/lite/examples/imageclassification/DataProcessor.java:355-369 | the temperatures of two lists of zones are those of each, in order |
| Sampler.RootedZoneEntries | app/src/main/java/org/tensorflow/lite/examples/imageclassification/DataProcessor.java:357-358 | rooted, there is one temperature per zone, zone k's at position k |
| Sampler.ZoneEntriesAround | app/src/main/java/org/tensorflow/lite/examples/imageclassification/DataProcessor.java:355-369 | the temperatures split around any one zone into those before it, its own and those after it |
| Sampler.DefaultZoneTypeNotOfInterest | app/src/main/java/org/tensorflow/lite/examples/imageclassification/DataProcessor.java:478 | the fallback type "default_zone_type" holds no type of interest |
| Sampler.UnreadableTypeLeftOut | app/src/main/java/org/tensorflow/lite/examples/imageclassification/DataProcessor.java:469-479 | unrooted, a zone whose type cannot be read contributes no temperature |
| Sampler.SumBounds | app/src/main/java/org/tensorflow/lite/examples/imageclassification/DataProcessor.java:305-313 | the summed core frequencies lie between n*lo and n*hi when each lies between lo and hi |
| Sampler.Nums | app/src/main/java/org/tensorflow/lite/examples/imageclassification/DataProcessor.java:226-228 | one numeric cell per value, in order |
| Sampler.CoreFrequencies | app/src/main/java/org/tensorflow/lite/examples/imageclassification/DataProcessor.java:305-313 | core k's frequency at position k |
| Sampler.FrequencyData | app/src/main/java/org/tensorflow/lite/examples/imageclassification/DataProcessor.java:296-336 | [average CPU frequency, GPU frequency] followed by each core's frequency in core order |
| Sampler.AverageBounds | app/src/main/java/org/tensorflow/lite/examples/imageclassification/DataProcessor.java:309-314 | over one or more cores the average lies within any bounds every core keeps |
| Sampler.FrequencyDataShape | app/src/main/java/org/tensorflow/lite/examples/imageclassification/DataProcessor.java:314 | the average is NaN exactly when no core was found, and within the cores' bounds otherwise |
| Sampler.PolicyDelta | app/src/main/java/org/tensorflow/lite/examples/imageclassification/DataProcessor.java:396-399 | defined exactly when the sample is no longer than the baseline; then it has the sample's length and baseline + delta == sample elementwise |
| Sampler.DeltaAtBaseline | app/src/main/java/org/tensorflow/lite/examples/imageclassification/DataProcessor.java:396-399 | a sample equal to the baseline gives 0 everywhere |
| Sampler.DeltaSigns | app/src/main/java/org/tensorflow/lite/examples/imageclassification/DataProcessor.java:396-399 | the -1 separators give 0, and a counter that did not decrease gives a delta of 0 or more |
| Sampler.PolicyHeaders | app/src/main/java/org/tensorflow/lite/examples/imageclassification/DataProcessor.java:404-425 | one frequency column per table line, in order, then the cluster's label |
| Sampler.BaselineHeaders | app/src/main/java/org/tensorflow/lite/examples/imageclassification/DataProcessor.java:122-133 | the policy columns of the raw header are as many as the baseline's entries |
| Sampler.TemperatureHeaders | app/src/main/java/org/tensorflow/lite/examples/imageclassification/DataProcessor.java:71-74 | one column per type of interest, named type + "Temperature" |
| Sampler.ZoneTypeHeaders | app/src/main/java/org/tensorflow/lite/examples/imageclassification/DataProcessor.java:102-110 | one column per zone, named after the zone's type |
| Sampler.CoreHeaders | app/src/main/java/org/tensorflow/lite/examples/imageclassification/DataProcessor.java:111-120 | one column per core, named as the code names it: the element at `length - 2` of the core's path + "_freq" |
| Sampler.TemperatureHeaderCells | app/src/main/java/org/tensorflow/lite/examples/imageclassification/DataProcessor.java:71-74 | the header loop builds those columns |
| Sampler.ZoneTypeHeaderCells | app/src/main/java/org/tensorflow/lite/examples/imageclassification/DataProcessor.java:102-110 | the header loop builds those columns |
| Sampler.CoreHeaderCells | app/src/main/java/org/tensorflow/lite/examples/imageclassification/DataProcessor.java:115-120 | the header loop builds exactly those columns, in core order |
| Sampler.DiscoveredCoreHeadersAllCpu | app/src/main/java/org/tensorflow/lite/examples/imageclassification/DataProcessor.java:111-120 | every core column of the raw header over the discovered cores of /sys/devices/system/cpu is "cpu_freq" |
| Sampler.RelativeTimeOfReading | app/src/main/java/org/tensorflow/lite/examples/imageclassification/DataProcessor.java:584-590 | a reading's relative time is h*3600 + m*60 + s less the start, whatever its milliseconds, and its text parses back to that number |
| Sampler.TickStatus | app/src/main/java/org/tensorflow/lite/examples/imageclassification/DataProcessor.java:195-199 | both rows of a pass carry the status the pass saw in their third column |
| Sampler.RowsKeepStatus | app/src/main/java/org/tensorflow/lite/examples/imageclassification/DataProcessor.java:193-249 | the third cell of both the performance row and the raw row is the first entry of the thermal data, its status |
| Sampler.TickOutcome | app/src/main/java/org/tensorflow/lite/examples/imageclassification/DataProcessor.java:178-252 | a pass fails when the residency sample outgrows the baseline; it succeeds when the sample fits and the app's top line, if any, has four fields |
| Sampler.PerformanceRowWidth | app/src/main/java/org/tensorflow/lite/examples/imageclassification/DataProcessor.java:195-207 | rooted, the performance row has 7 columns besides one per zone, so it matches its 12-column header exactly when there are 5 zones |
| Sampler.RawRowWidth | app/src/main/java/org/tensorflow/lite/examples/imageclassification/DataProcessor.java:233-246 | rooted, the raw row has as many columns as its header exactly when the residency sample is as long as the baseline |
| Sampler.Activity.constructor | app/src/main/java/org/tensorflow/lite/examples/imageclassification/MainActivity.java:48 | the shared status starts as "None" |
| Sampler.DataProcessor.constructor | app/src/main/java/org/tensorflow/lite/examples/imageclassification/DataProcessor.java:38-160 | rooted; start time from the clock; zones and cores discovered; baseline captured; each log holds its header |
| Sampler.DataProcessor.CreatePerformanceLog | app/src/main/java/org/tensorflow/lite/examples/imageclassification/DataProcessor.java:70-97 | the performance log starts with its header: time, relative time, status, one temperature column per zone type of interest, then the four frequency and utilization columns |
| Sampler.DataProcessor.CreateRawLog | app/src/main/java/org/tensorflow/lite/examples/imageclassification/DataProcessor.java:100-157 | the baseline is captured and the raw log starts with its header: a column per discovered zone, one per core named as written ("cpu_freq"), the GPU and utilization columns, and the policy headers |
| Sampler.DataProcessor.CaptureBaseline | app/src/main/java/org/tensorflow/lite/examples/imageclassification/DataProcessor.java:122-133 | the LITTLE, MID and BIG captures leave the baseline equal to a pass's sample layout and give the policy headers |
| Sampler.DataProcessor.CapturePolicyHeaders | app/src/main/java/org/tensorflow/lite/examples/imageclassification/DataProcessor.java:404-425 | appends the cluster's times and -1 to the baseline, one per header column it returns |
| Sampler.DataProcessor.ProcessThermalData | app/src/main/java/org/tensorflow/lite/examples/imageclassification/DataProcessor.java:338-372 | the recorded status ("Unknown" before Android Q) followed by the zone temperatures: the thermal data of the current setup and status |
| Sampler.ZoneTemperatures | app/src/main/java/org/tensorflow/lite/examples/imageclassification/DataProcessor.java:355-368 | the loop lists every zone's temperature when rooted, otherwise exactly the zones whose type is of interest, in path order |
| Sampler.DataProcessor.ProcessFrequencyData | app/src/main/java/org/tensorflow/lite/examples/imageclassification/DataProcessor.java:296-336 | the loop gives the frequency data |
| Sampler.DataProcessor.ProcessUtilizationData | app/src/main/java/org/tensorflow/lite/examples/imageclassification/DataProcessor.java:254-294 | [CPU utilization, GPU utilization], or getCPUUtilization's index error |
| Sampler.DataProcessor.ProcessPolicyData | app/src/main/java/org/tensorflow/lite/examples/imageclassification/DataProcessor.java:374-402 | the three tables read again, less the stored baseline: the delta of the current sample, or the index error |
| Sampler.SubtractBaseline | app/src/main/java/org/tensorflow/lite/examples/imageclassification/DataProcessor.java:396-401 | the loop yields exactly the elementwise delta of PolicyDelta, and fails with the index error exactly when the sample outruns the baseline |
| Sampler.DataProcessor.SamplePass | app/src/main/java/org/tensorflow/lite/examples/imageclassification/DataProcessor.java:178-252 | the rows one pass computes, or the exception that ends it |
| Sampler.DataProcessor.ProcessDataCollection | app/src/main/java/org/tensorflow/lite/examples/imageclassification/DataProcessor.java:178-252 | a successful pass appends its performance row and raw row to the two logs; a failed one changes neither; the setup and the headers stay |
| Sampler.DataProcessor.WriteRows | app/src/main/java/org/tensorflow/lite/examples/imageclassification/DataProcessor.java:193-249 | the performance row is appended to the performance log and the raw row to the raw log; both logs keep their headers |
| Throughput.DelegateNames | app/src/main/java/org/tensorflow/lite/examples/imageclassification/ImageClassifierHelperKotlin.kt:252-261 | "unknown" exactly for a delegate other than 0, 1, 2; the three known ones have distinct names |
| Throughput.ModelNames | app/src/main/java/org/tensorflow/lite/examples/imageclassification/ImageClassifierHelperKotlin.kt:240-250 | any model other than 0 to 3 loads model 0's file; models 0 to 3 have distinct files |
| Throughput.CompletionPeriod | app/src/main/java/org/tensorflow/lite/examples/imageclassification/ImageClassifierHelperKotlin.kt:209-222 | a completion counts once and occupies max(period, turnaround) = turnaround + wait; it waits exactly when it finished before the period ended |
| Throughput.DivAntitone | app/src/main/java/org/tensorflow/lite/examples/imageclassification/ImageClassifierHelperKotlin.kt:223-224 | a longer measured period gives no more throughput |
| Throughput.ThroughputBound | app/src/main/java/org/tensorflow/lite/examples/imageclassification/ImageClassifierHelperKotlin.kt:213-225 | with a positive period, one completion's throughput is between 0 and 1000 / period |
| Throughput.Periods | app/src/main/java/org/tensorflow/lite/examples/imageclassification/ImageClassifierHelperKotlin.kt:214 | each completion's measured period is max(period, turnaround) |
| Throughput.RunTotals | app/src/main/java/org/tensorflow/lite/examples/imageclassification/ImageClassifierHelperKotlin.kt:211-222 | after a run, the count grows by the run's length and the turnaround and period totals by their sums |
| Throughput.RunThroughputTotal | app/src/main/java/org/tensorflow/lite/examples/imageclassification/ImageClassifierHelperKotlin.kt:223-225 | the throughput total never falls, and grows by at most 1000 / period per completion |
| Throughput.PerExecution | app/src/main/java/org/tensorflow/lite/examples/imageclassification/ImageClassifierHelperKotlin.kt:99-116 | with no completion, the total itself; otherwise the floor of total / count |
| Throughput.AverageAtMost | app/src/main/java/org/tensorflow/lite/examples/imageclassification/ImageClassifierHelperKotlin.kt:99-116 | an average over completions that each keep a bound keeps it too |
| Throughput.AverageThroughputBound | app/src/main/java/org/tensorflow/lite/examples/imageclassification/ImageClassifierHelperKotlin.kt:99-101 | after a run from zero, the average throughput is between 0 and 1000 / period |
| Throughput.RestartKeepsTotals | app/src/main/java/org/tensorflow/lite/examples/imageclassification/ImageClassifierHelperKotlin.kt:160-171 | after a restart, the count covers only the new completions while the turnaround total keeps the old ones |
| Throughput.ImageClassifierHelper.constructor | app/src/main/java/org/tensorflow/lite/examples/imageclassification/ImageClassifierHelperKotlin.kt:48-62 | 2 threads, 3 results, delegate 0, model 0, period option 0, not running, every counter 0 |
| Throughput.ImageClassifierHelper.SetCurrentDelegate | app/src/main/java/org/tensorflow/lite/examples/imageclassification/ImageClassifierHelperKotlin.kt:70-72 | sets the delegate and nothing else |
| Throughput.ImageClassifierHelper.SetCurrentModel | app/src/main/java/org/tensorflow/lite/examples/imageclassification/ImageClassifierHelperKotlin.kt:82-84 | sets the model and nothing else |
| Throughput.ImageClassifierHelper.SetCurrentPeriod | app/src/main/java/org/tensorflow/lite/examples/imageclassification/ImageClassifierHelperKotlin.kt:90-93 | records the option; an option in the list sets the period to its value; any other leaves the period and raises the index error |
| Throughput.ImageClassifierHelper.ResetRtData | app/src/main/java/org/tensorflow/lite/examples/imageclassification/ImageClassifierHelperKotlin.kt:160-163 | clears the count and the current throughput and nothing else |
| Throughput.ImageClassifierHelper.StartCollect | app/src/main/java/org/tensorflow/lite/examples/imageclassification/ImageClassifierHelperKotlin.kt:165-171 | marks the worker running and clears its live counters |
| Throughput.ImageClassifierHelper.PauseCollect | app/src/main/java/org/tensorflow/lite/examples/imageclassification/ImageClassifierHelperKotlin.kt:173-176 | marks the worker stopped |
| Throughput.ImageClassifierHelper.Classify | app/src/main/java/org/tensorflow/lite/examples/imageclassification/ImageClassifierHelperKotlin.kt:209-225 | the counters become one completion's update of the old counters, and the wait is the time left in the period |
| ThroughputLog.RelativeTimeOfReading | app/src/main/java/org/tensorflow/lite/examples/imageclassification/fragments/CameraFragment.java:696-704 | the ms / 1000 term is always 0, so the relative time is h*3600 + m*60 + s less the start, the same as the sampler's |
| ThroughputLog.IdleTime | app/src/main/java/org/tensorflow/lite/examples/imageclassification/fragments/CameraFragment.java:637 | never negative; 0 exactly when the average turnaround reaches the period; otherwise turnaround + idle == period |
| ThroughputLog.NamesHaveNoComma | app/src/main/java/org/tensorflow/lite/examples/imageclassification/ImageClassifierHelperKotlin.kt:240-261 | model and delegate names hold no ',' |
| ThroughputLog.RowHasNoComma | app/src/main/java/org/tensorflow/lite/examples/imageclassification/fragments/CameraFragment.java:644-667 | every field of a row is free of ',' once its clock text and its model and delegate names are |
| ThroughputLog.RowFieldsReadBack | app/src/main/java/org/tensorflow/lite/examples/imageclassification/fragments/CameraFragment.java:644-667 | a row has one field per header column, splits back on ',' into its fields, and its relative-time and target-period fields parse back to their values |
| ThroughputLog.Records | app/src/main/java/org/tensorflow/lite/examples/imageclassification/fragments/CameraFragment.java:630-682 | one line per worker |
| ThroughputLog.RecordsAt | app/src/main/java/org/tensorflow/lite/examples/imageclassification/fragments/CameraFragment.java:630-667 | line k of a tick is worker k's line for reading k |
| ThroughputLog.RecordsReadBack | app/src/main/java/org/tensorflow/lite/examples/imageclassification/fragments/CameraFragment.java:640-668 | every line of a tick has one field per header column and reads back from its text |
| ThroughputLog.ScriptedSwitch | app/src/main/java/org/tensorflow/lite/examples/imageclassification/fragments/CameraFragment.java:674-680 | only worker 0 is switched and only between options 11 and 5; 11 becomes 5 exactly between 600 s and 660 s, and 5 becomes 11 exactly after 1200 s |
| ThroughputLog.StopAfterThirtyOneMinutes | app/src/main/java/org/tensorflow/lite/examples/imageclassification/fragments/CameraFragment.java:624-626 | the test stops exactly from 1860000 ms (31 minutes) after its start |
| ThroughputLog.StatsOf | app/src/main/java/org/tensorflow/lite/examples/imageclassification/fragments/CameraFragment.java:631-637 | worker k's values at position k |
| ThroughputLog.CameraFragment.constructor | app/src/main/java/org/tensorflow/lite/examples/imageclassification/fragments/CameraFragment.java:146-230 | a fresh main worker with index 0 and zero counters, no test workers, test off, the start time in seconds of the day, nothing logged after the header |
| ThroughputLog.CameraFragment.MaxResultsMinus | app/src/main/java/org/tensorflow/lite/examples/imageclassification/fragments/CameraFragment.java:262-272 | decrements maxResults above 1 only, so it stays within 1 to 3 |
| ThroughputLog.CameraFragment.MaxResultsPlus | app/src/main/java/org/tensorflow/lite/examples/imageclassification/fragments/CameraFragment.java:276-286 | increments maxResults below 3 only, so it stays within 1 to 3 |
| ThroughputLog.CameraFragment.ThreadsMinus | app/src/main/java/org/tensorflow/lite/examples/imageclassification/fragments/CameraFragment.java:288-295 | decrements numThreads above 1 only, so it stays within 1 to 4 |
| ThroughputLog.CameraFragment.ThreadsPlus | app/src/main/java/org/tensorflow/lite/examples/imageclassification/fragments/CameraFragment.java:298-305 | increments numThreads below 4 only, so it stays within 1 to 4 |
| ThroughputLog.CameraFragment.OnDelegateSelected | app/src/main/java/org/tensorflow/lite/examples/imageclassification/fragments/CameraFragment.java:309-326 | the main worker's delegate becomes the position chosen |
| ThroughputLog.CameraFragment.OnPeriodSelected | app/src/main/java/org/tensorflow/lite/examples/imageclassification/fragments/CameraFragment.java:350-367 | the main worker's option becomes the position chosen, with its period when the option exists |
| ThroughputLog.CameraFragment.ConfigureImageClassifiers | app/src/main/java/org/tensorflow/lite/examples/imageclassification/fragments/CameraFragment.java:538-593 | with the test on, three fresh workers with indices 0, 1 and 4, on delegate 2 with option 11's period and zero counters; with it off, none |
| ThroughputLog.CameraFragment.NewWorker | app/src/main/java/org/tensorflow/lite/examples/imageclassification/fragments/CameraFragment.java:542-585 | a fresh worker with the given index, delegate 2 and option 11's period |
| ThroughputLog.CameraFragment.RunImageClassifiers | app/src/main/java/org/tensorflow/lite/examples/imageclassification/fragments/CameraFragment.java:595-599 | every worker is running with cleared live counters |
| ThroughputLog.CameraFragment.PauseImageClassifiers | app/src/main/java/org/tensorflow/lite/examples/imageclassification/fragments/CameraFragment.java:601-605 | every worker is stopped |
| ThroughputLog.CameraFragment.ToggleTest | app/src/main/java/org/tensorflow/lite/examples/imageclassification/fragments/CameraFragment.java:392-413 | the test flips; switching off stops and drops every worker; switching on records the start and starts three fresh workers |
| ThroughputLog.CameraFragment.LogWorker | app/src/main/java/org/tensorflow/lite/examples/imageclassification/fragments/CameraFragment.java:631-680 | appends the worker's line built from its values before the switch, then applies the scheduled switch |
| ThroughputLog.CameraFragment.TickStep | app/src/main/java/org/tensorflow/lite/examples/imageclassification/fragments/CameraFragment.java:630-682 | one more worker has written its line and taken its switch; later workers are untouched |
| ThroughputLog.CameraFragment.ProcessDataCollection | app/src/main/java/org/tensorflow/lite/examples/imageclassification/fragments/CameraFragment.java:623-694 | appends one line per worker from the values the tick found, switches each worker as scheduled, and reports whether the test is due to stop |
| ThermalStatus.ThermalStatusNames | app/src/main/java/org/tensorflow/lite/examples/imageclassification/PFManager.java:76-102 | statuses 0 to 6 have the names None to Shutdown, in order and all distinct; "Unknown" is given exactly to every other value |
| ThermalStatus.PFManager.constructor | app/src/main/java/org/tensorflow/lite/examples/imageclassification/PFManager.java:29-37 | keeps the activity and the activity's own sampler |
| ThermalStatus.PFManager.OnThermalStatusChanged | app/src/main/java/org/tensorflow/lite/examples/imageclassification/PFManager.java:40-48 | records the status's name, then runs one pass whose rows carry that name, appended to both logs on success |

## Left out

- File output, timers and threads are not modelled:
  - the sampler's 2000 ms timer and the fragment's 500 ms timer (`dataCollection`, `timedDataCollection`) are left out; a pass or tick is one method call;
  - the logs are sequences of rows, not files;
  - concurrency between the timers, the listener and the inference coroutine is left out, including the `synchronized` block around stopping.
- TensorFlow Lite inference, the camera, the bitmap stream and the UI are not modelled:
  - `classify` is modelled from the measured turnaround on;
  - the inference's turnaround is an input;
  - `collectStream`, `setupImageClassifier`, `clearImageClassifier`, `updateControlsUi` and the result adapter are left out.
- Floating point is modelled as exact `real` arithmetic, and `Float.toString` is not modelled. Rows hold numeric cells rather than their decimal text.
- Reads that do not parse are preconditions rather than modelled errors. `Integer.parseInt`, `Float.parseFloat` and `Long.parseLong` on a line that is not an integer literal would throw `NumberFormatException`; the model requires a readable line instead. Decimal-point inputs to `parseFloat` are not modelled.
- `IOException`, `InterruptedException` and the `RuntimeException`s they are wrapped in are not modelled. The shell is a total function from a command to its lines, and an unreadable file prints no line.
- The shell answers the same command the same way within a pass. The second `processThermalData(true)` call therefore sees the first call's readings, and its unused `isRaw` argument is dropped.
- CounterParsers.GpuUtilization: a first line made only of '%' splits into no field, and `currentUtilization[0]` would throw `ArrayIndexOutOfBoundsException`; `UtilizationReadable` requires a field, so that index error is not modelled.
- Sampler.DataProcessor.ProcessUtilizationData: inherits that precondition, so the GPU index error above is not modelled there either.
- CounterParsers.ResidencyTable: a time_in_state line without a space has no field `[1]`, and processPolicyData would throw `ArrayIndexOutOfBoundsException`; `ResidencyTimeReadable` requires two fields, so that index error is not modelled.
- CounterParsers.PolicyTimes: same precondition and same unmodelled index error as `ResidencyTable`.
- Sampler.PolicyHeaders: getCPUPolicyHeaders reads `[1]` of each line as well; `ResidencyLineReadable` requires two fields, so that index error is not modelled.
- Sampler.DataProcessor.CapturePolicyHeaders: inherits that precondition, so the same index error is not modelled.
- ThroughputLog.CameraFragment.NewWorker: `setCurrentPeriod(11)` throws inside `periodOption` when there are 11 or fewer period options; `OptionsReadable` requires more than 11, so that index error is not modelled, and the `Result` the call returns is discarded.
- ThroughputLog.CameraFragment.ConfigureImageClassifiers: builds its workers with `NewWorker`; its `Valid()` precondition includes more than 11 period options, so the same index error is not modelled.
- ThroughputLog.CameraFragment.constructor: requires more than 11 period options, because the class invariant `Valid()` carries that requirement for the test workers that `ToggleTest` and `ConfigureImageClassifiers` build. The source's `onViewCreated` accepts any list and never indexes it; with 11 or fewer options the app starts normally and throws only when the test is switched on and `configureImageClassifiers` calls `setCurrentPeriod(11)`. The model does not cover that start-up with a short list.
- Sampler.DataProcessor.ProcessDataCollection: an index error (the `top` line with fewer than four fields, or a residency sample longer than the baseline) escapes `processDataCollection` outside any `try`; the `TimerTask` catches only `IOException`, so the exception ends the sampling timer's thread and no later pass runs. The model returns `IndexOutOfBounds` and leaves both logs unchanged, and does not model that no later pass runs.
- ThermalStatus.PFManager.OnThermalStatusChanged: the same index error escapes the thermal listener; the model returns it as `IndexOutOfBounds` and does not model the exception leaving the listener.
- Throughput.ImageClassifierHelper.Classify: does not model the 64-bit `Long` and 32-bit `Int` wrap-around of the counters, because unbounded integers are used.
- Throughput.PerExecution: does not model `Long` overflow, because unbounded integers are used.
- `threshold` and its two buttons are not modelled: they only configure inference.
- The model spinner is not modelled: its handler's `setCurrentModel` call is commented out, so it only refreshes the UI.
- `registerListener` / `unregisterListener` are not modelled: they register with `PowerManager`. Instead, the `PFManager` constructor requires the sampler to be on Android Q or later, which stands for `@RequiresApi(Q)`.
- The bitmap source's `startStream`/`pauseStream`, which the test button calls, are not modelled.
- The stop rule's button click, posted to the UI thread, is not performed. `ThroughputLog.CameraFragment.ProcessDataCollection` returns it as `stop`, and `ToggleTest` is the handler a caller runs for it.
- Wall-clock readings are inputs: a `Reading` per worker, and the uptime in milliseconds. `SystemClock` and `new Date()` are not read.
- The unused fourth worker built by `configureImageClassifiers` (index 2, never added to the list) is built and discarded, as in the source. Its classifier resources are not modelled.
- The constructor arguments the model does not need are dropped: the context, the listener, the bitmap source and the Java caller's extra integer argument.
- Several getters are left out: the Kotlin getters that only return a field (`getIndex`, `getCurrentThroughput`, `getMeasuredPeriod`, `getCurrentDelegateNum`), read directly as fields, and the missing `getMeasuredTurnAround`, for which the average turnaround is used.
- The unrooted (`isRooted == false`) GPU and temperature-filter paths are modelled. The constructor always sets `isRooted` to true, so they are reachable only if that assignment changes.

## Findings

| source | as written | input that shows it | evidently intended | confidence | as-written member | corrected member |
|---|---|---|---|---|---|---|
| app/src/main/java/org/tensorflow/lite/examples/imageclassification/DataProcessor.java:115-120 | each raw-header core column is named after `split("/")[length - 2]`, which for "/sys/devices/system/cpu/cpu3/" is "cpu", the parent directory | any discovered core, e.g. "cpu3": its column is "cpu_freq" | the column named after the core itself, "cpu3_freq" (`length - 1`, the last field, since the trailing '/' leaves no empty field) | not executed | CounterParsers.CoreColumnsAsWrittenAllCpu | CounterParsers.CoreColumnNameIsEntry |
