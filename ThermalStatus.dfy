/** PFManager: the listener Android calls when the device's thermal status changes. It
    records the status's name where DataProcessor reads it and takes a sample at once. The
    registration with PowerManager is not modelled. */
module ThermalStatus {
  import opened CounterParsers
  import opened Clock
  import opened Sampler

  /** The names of PowerManager's THERMAL_STATUS_NONE (0) to THERMAL_STATUS_SHUTDOWN (6). */
  const StatusNames: seq<string> := ["None", "Light", "Moderate", "Severe", "Critical", "Emergency", "Shutdown"]

  /** getThermalStatusName: the status's name, "Unknown" for a value outside 0 to 6. */
  function ThermalStatusName(status: int): string
  {
    if status == 0 then "None"
    else if status == 1 then "Light"
    else if status == 2 then "Moderate"
    else if status == 3 then "Severe"
    else if status == 4 then "Critical"
    else if status == 5 then "Emergency"
    else if status == 6 then "Shutdown"
    else "Unknown"
  }

  /** Each of the seven statuses has its own name, in PowerManager's order, and every other
      value is reported as "Unknown", which no status is named. */
  lemma ThermalStatusNames(status: int, other: int)
    ensures 0 <= status < |StatusNames| ==> ThermalStatusName(status) == StatusNames[status]
    ensures ThermalStatusName(status) == "Unknown" <==> !(0 <= status < |StatusNames|)
    ensures (0 <= status < |StatusNames| && 0 <= other < |StatusNames| &&
             ThermalStatusName(status) == ThermalStatusName(other)) ==> status == other
  {
  }

  class PFManager {
    const activity: Activity
    const dataProcessor: DataProcessor

    /** The listener is only built from Android Q on, for the activity's own processor. */
    constructor (activity: Activity, dataProcessor: DataProcessor)
      requires dataProcessor.activity == activity && dataProcessor.sdkAtLeastQ
      ensures this.activity == activity && this.dataProcessor == dataProcessor
    {
      this.activity := activity;
      this.dataProcessor := dataProcessor;
    }

    /** onThermalStatusChanged: stores the new status's name, then runs one sample pass,
        whose rows carry that name in their third column. */
    method OnThermalStatusChanged(i: int, shell: Shell, h: nat, m: nat, s: nat, ms: nat) returns (r: Result<Rows>)
      requires dataProcessor.activity == activity && dataProcessor.sdkAtLeastQ
      requires dataProcessor.Valid() && TickReadable(dataProcessor.Current(), shell) && ValidReading(h, m, s, ms)
      modifies activity`currentThermalStatus, dataProcessor`performanceLog, dataProcessor`rawLog
      ensures HasClockFields(TickText(h, m, s, ms))
      ensures activity.currentThermalStatus == ThermalStatusName(i)
      ensures r == Tick(old(dataProcessor.Current()), ThermalStatusName(i), shell, TickText(h, m, s, ms))
      ensures r.Ok? ==> r.value.performance[2] == Text(ThermalStatusName(i)) &&
                        r.value.raw[2] == Text(ThermalStatusName(i))
      ensures r.Ok? ==> dataProcessor.performanceLog == old(dataProcessor.performanceLog) + [r.value.performance] &&
                        dataProcessor.rawLog == old(dataProcessor.rawLog) + [r.value.raw]
      ensures r.IndexOutOfBounds? ==> dataProcessor.performanceLog == old(dataProcessor.performanceLog) &&
                                      dataProcessor.rawLog == old(dataProcessor.rawLog)
      ensures dataProcessor.Valid()
    {
      activity.currentThermalStatus := ThermalStatusName(i);
      r := dataProcessor.ProcessDataCollection(shell, h, m, s, ms);
      if r.Ok? {
        TickStatus(old(dataProcessor.Current()), ThermalStatusName(i), shell, TickText(h, m, s, ms));
      }
    }
  }
}
