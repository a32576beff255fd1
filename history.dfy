/**
 * The read side of `PowerMeter.History`, the sample buffer the graph engine
 * displays. Only what the engine reads is modelled: the number of samples
 * and the plain lookup by index. The engine never writes to it; other code
 * (the fetch loop) may replace its contents between two engine calls, which
 * is why the fields are mutable.
 */
module PowerHistory {
  import opened Wrappers

  /** One sample: its time in whole seconds and the reading, absent for a gap. */
  datatype PowerSample = PowerSample(timestamp: int, value: Option<int>)

  class History {
    /** Time of `data[0]`; samples are one second apart. */
    var startTimestamp: int
    var data: seq<Option<int>>

    constructor (startTimestamp: int, data: seq<Option<int>>)
      ensures this.startTimestamp == startTimestamp && this.data == data
    {
      this.startTimestamp := startTimestamp;
      this.data := data;
    }

    /** `history.count` */
    function Count(): nat
      reads this
    {
      |data|
    }

    /** `history.getSample(index)`: no sample at or past the end. */
    function GetSample(index: int): (r: Option<PowerSample>)
      reads this
      requires index >= 0
      ensures r.None? <==> index >= |data|
      ensures r.Some? ==> r.value.timestamp == startTimestamp + index && r.value.value == data[index]
    {
      if index < |data| then Some(PowerSample(startTimestamp + index, data[index])) else None
    }
  }
}
