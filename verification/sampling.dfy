/**
 * The sampling phase of the fixed-count logger: `num_iterations` rounds of
 * stamping the time, reading the derived registers and waiting for the next
 * interval, stopped by the first exception; then the record with its
 * 'T unit' column.
 *
 * The clock, the device and the interval timer are not modelled: each round
 * is given a `Tick` that says what they produced in it.
 */
module Sampling {
  import opened Registers
  import opened ReadPlan
  import opened WritePlan
  import opened Configure

  /** What eReadNames gave in one round: the values of the read list, or an exception. */
  datatype ReadOutcome = ReadOk(values: seq<real>) | ReadFailed

  /**
   * One round as the environment lets it happen: the formatted current time,
   * the seconds since the start, the read, and whether waitForNextInterval
   * returned normally.
   */
  datatype Tick = Tick(formattedTime: string, dt: real, read: ReadOutcome, waitOk: bool)

  /** A cell of the record: a reading or elapsed time, or a formatted time or unit. */
  datatype Cell = Num(x: real) | Str(s: string)

  type Row = seq<Cell>

  /** Whether the loop ran every round, or broke out in round `iteration`. */
  datatype LoopEnd = AllIterations | BrokeAt(iteration: nat)

  /** The loop's accumulators: `times`, `delta_times`, `data`, and how it ended. */
  datatype SampleLog = SampleLog(times: seq<string>, deltaTimes: seq<real>, data: seq<Row>, end: LoopEnd)

  /** `data_in` after the formatted time and dt are appended to it. */
  function DataRow(values: seq<real>, formattedTime: string, dt: real): Row {
    seq(|values|, i requires 0 <= i < |values| => Num(values[i])) + [Str(formattedTime), Num(dt)]
  }

  /** A round that raises: the read failed, or the wait after it did. */
  predicate Fails(t: Tick) {
    t.read.ReadFailed? || !t.waitOk
  }

  /** `len(range(n))` */
  function Bound(n: int): nat {
    if n < 0 then 0 else n
  }

  /**
   * One round of the loop body: the time and dt are appended first, then
   * the row if the read succeeded; an exception in the read or the wait
   * breaks out of the loop.
   */
  function Round(log: SampleLog, t: Tick, i: nat): SampleLog {
    var times := log.times + [t.formattedTime];
    var deltaTimes := log.deltaTimes + [t.dt];
    match t.read
    case ReadFailed => SampleLog(times, deltaTimes, log.data, BrokeAt(i))
    case ReadOk(values) =>
      var data := log.data + [DataRow(values, t.formattedTime, t.dt)];
      SampleLog(times, deltaTimes, data, if t.waitOk then AllIterations else BrokeAt(i))
  }

  /** The loop over the given rounds: once it has broken out, later rounds change nothing. */
  function Sample(ticks: seq<Tick>): SampleLog
    decreases |ticks|
  {
    if ticks == [] then SampleLog([], [], [], AllIterations)
    else
      var before := Sample(ticks[..|ticks| - 1]);
      if before.end.BrokeAt? then before else Round(before, ticks[|ticks| - 1], |ticks| - 1)
  }

  /** After the loop breaks out, running it over more rounds gives the same log. */
  lemma {:induction false} SampleStopped(ticks: seq<Tick>, i: nat, j: nat)
    requires i <= j <= |ticks|
    requires Sample(ticks[..i]).end.BrokeAt?
    ensures Sample(ticks[..j]) == Sample(ticks[..i])
    decreases j
  {
    if j > i {
      SampleStopped(ticks, i, j - 1);
      assert ticks[..j][..j - 1] == ticks[..j - 1];
    }
  }

  /**
   * The sampling loop of the fixed-count logger, one round per iteration of
   * `range(num_iterations)`, leaving the loop at the first exception.
   */
  method SampleLoop(numIterations: int, ticks: seq<Tick>) returns (log: SampleLog)
    requires Bound(numIterations) <= |ticks|
    ensures log == Sample(ticks[..Bound(numIterations)])
  {
    var n := Bound(numIterations);
    var times: seq<string> := [];
    var deltaTimes: seq<real> := [];
    var data: seq<Row> := [];
    var i := 0;
    while i < n
      invariant 0 <= i <= n
      invariant Sample(ticks[..i]) == SampleLog(times, deltaTimes, data, AllIterations)
    {
      var t := ticks[i];
      assert ticks[..i + 1][..i] == ticks[..i];
      times := times + [t.formattedTime];
      deltaTimes := deltaTimes + [t.dt];
      if t.read.ReadFailed? {
        log := SampleLog(times, deltaTimes, data, BrokeAt(i));
        SampleStopped(ticks, i + 1, n);
        return;
      }
      data := data + [DataRow(t.read.values, t.formattedTime, t.dt)];
      if !t.waitOk {
        log := SampleLog(times, deltaTimes, data, BrokeAt(i));
        SampleStopped(ticks, i + 1, n);
        return;
      }
      i := i + 1;
    }
    log := SampleLog(times, deltaTimes, data, AllIterations);
  }

  /** Round k of the loop contributes times[k] and delta_times[k]; no round after the break contributes anything. */
  lemma {:induction false} SampleTimes(ticks: seq<Tick>)
    ensures var log := Sample(ticks);
            && |log.times| == |log.deltaTimes| <= |ticks|
            && forall k :: 0 <= k < |log.times| ==>
                 log.times[k] == ticks[k].formattedTime && log.deltaTimes[k] == ticks[k].dt
    decreases |ticks|
  {
    if ticks != [] {
      var n := |ticks| - 1;
      SampleTimes(ticks[..n]);
      SampleEnd(ticks[..n]);
      var before := Sample(ticks[..n]);
      var log := Sample(ticks);
      if !before.end.BrokeAt? {
        assert log.times == before.times + [ticks[n].formattedTime];
        assert log.deltaTimes == before.deltaTimes + [ticks[n].dt];
      }
      forall k | 0 <= k < |log.times|
        ensures log.times[k] == ticks[k].formattedTime && log.deltaTimes[k] == ticks[k].dt
      {
        if k < |before.times| {
          assert ticks[..n][k] == ticks[k];
          assert log.times[k] == before.times[k] && log.deltaTimes[k] == before.deltaTimes[k];
        }
      }
    }
  }

  /** Row k of the data is the read of round k with that round's time and dt appended; a failed read leaves no row. */
  lemma {:induction false} SampleRows(ticks: seq<Tick>)
    ensures var log := Sample(ticks);
            && |log.data| <= |log.times| <= |ticks|
            && forall k :: 0 <= k < |log.data| ==>
                 ticks[k].read.ReadOk? &&
                 log.data[k] == DataRow(ticks[k].read.values, ticks[k].formattedTime, ticks[k].dt)
    decreases |ticks|
  {
    if ticks != [] {
      var n := |ticks| - 1;
      SampleRows(ticks[..n]);
      SampleTimes(ticks[..n]);
      SampleEnd(ticks[..n]);
      var before := Sample(ticks[..n]);
      var log := Sample(ticks);
      forall k | 0 <= k < |log.data|
        ensures ticks[k].read.ReadOk?
        ensures log.data[k] == DataRow(ticks[k].read.values, ticks[k].formattedTime, ticks[k].dt)
      {
        if k < |before.data| {
          assert ticks[..n][k] == ticks[k];
          assert log.data[k] == before.data[k];
        } else {
          assert !before.end.BrokeAt? && k == n && ticks[n].read.ReadOk?;
        }
      }
    }
  }

  /**
   * The loop runs every round exactly when no round raises, and then has one
   * time and one row per round. Otherwise it breaks out in the first round k
   * that raises: it has k + 1 times, and k rows if the read of round k failed
   * or k + 1 if only the wait after it did.
   */
  lemma {:induction false} SampleEnd(ticks: seq<Tick>)
    ensures var log := Sample(ticks);
            && (log.end == AllIterations <==> forall k :: 0 <= k < |ticks| ==> !Fails(ticks[k]))
            && (log.end == AllIterations ==> |log.times| == |log.data| == |ticks|)
            && (log.end.BrokeAt? ==>
                  var k := log.end.iteration;
                  && k < |ticks| && Fails(ticks[k])
                  && (forall j :: 0 <= j < k ==> !Fails(ticks[j]))
                  && |log.times| == k + 1
                  && |log.data| == (if ticks[k].read.ReadFailed? then k else k + 1))
    decreases |ticks|
  {
    if ticks != [] {
      var n := |ticks| - 1;
      SampleEnd(ticks[..n]);
      var before := Sample(ticks[..n]);
      if before.end.BrokeAt? {
        assert !(forall k :: 0 <= k < |ticks| ==> !Fails(ticks[k])) by {
          assert Fails(ticks[..n][before.end.iteration]);
        }
      }
    }
  }

  /** When every successful read has one value per read register, every row has those values plus the time and dt. */
  lemma SampleRowWidth(ticks: seq<Tick>, width: nat)
    requires forall k :: 0 <= k < |ticks| ==> ticks[k].read.ReadOk? ==> |ticks[k].read.values| == width
    ensures forall k :: 0 <= k < |Sample(ticks).data| ==> |Sample(ticks).data[k]| == width + 2
  {
    SampleRows(ticks);
  }

  /** The saved record: the columns with 'T unit' added, and each row with the unit added. */
  datatype Record = Record(columns: seq<string>, rows: seq<Row>)

  /** What a logging session leaves: its plan, the record, and how the loop ended. */
  datatype Logged = Logged(plan: Plan, record: Record, end: LoopEnd)

  /** `data['T unit'] = temp_unit` on the frame built from the rows and the columns. */
  function WithUnit(columns: seq<string>, data: seq<Row>, tempUnit: string): Record {
    Record(columns + ["T unit"], seq(|data|, k requires 0 <= k < |data| => data[k] + [Str(tempUnit)]))
  }

  /**
   * A whole session of the fixed-count logger up to saving: configuration,
   * then the sampling loop, then the unit column.
   */
  function LogSession(device: Device, channels: seq<int>, tcType: string, tempUnit: string,
                      numIterations: int, ticks: seq<Tick>): (s: Emitted<Logged>)
    requires Bound(numIterations) <= |ticks|
    ensures s.writes == Configuration(device, channels, tcType, tempUnit).writes
    ensures s.result.Ok? <==> Configuration(device, channels, tcType, tempUnit).result.Ok?
    ensures s.result.Err? ==> s.result.error == Configuration(device, channels, tcType, tempUnit).result.error
  {
    var c := Configuration(device, channels, tcType, tempUnit);
    match c.result
    case Err(e) => Emitted(Err(e), c.writes)
    case Ok(plan) =>
      var log := Sample(ticks[..Bound(numIterations)]);
      Emitted(Ok(Logged(plan, WithUnit(plan.columns, log.data, tempUnit), log.end)), c.writes)
  }

  /**
   * When every read returns one value per read register, every row of the
   * saved record has exactly one cell per column: the 3n readings, the time,
   * dt, and the unit last.
   */
  lemma LogSessionRowsFitColumns(device: Device, channels: seq<int>, tcType: string, tempUnit: string,
                                 numIterations: int, ticks: seq<Tick>)
    requires Bound(numIterations) <= |ticks|
    requires forall k :: 0 <= k < |ticks| ==> ticks[k].read.ReadOk? ==> |ticks[k].read.values| == 3 * |channels|
    requires LogSession(device, channels, tcType, tempUnit, numIterations, ticks).result.Ok?
    ensures var record := LogSession(device, channels, tcType, tempUnit, numIterations, ticks).result.value.record;
            && |record.columns| == 3 * |channels| + 3
            && record.columns[3 * |channels|..] == ["time", "dt", "T unit"]
            && forall k :: 0 <= k < |record.rows| ==>
                 |record.rows[k]| == |record.columns| && record.rows[k][3 * |channels| + 2] == Str(tempUnit)
  {
    var names := ChannelNames(channels);
    var ticksRun := ticks[..Bound(numIterations)];
    ColumnsLayout(names);
    SampleRowWidth(ticksRun, 3 * |channels|);
  }

  /**
   * `read_and_log_thermocouple` up to saving: configure, run the loop and
   * add the unit column.
   */
  method ReadAndLogThermocouple(device: Device, channels: seq<int>, tcType: string, tempUnit: string,
                                numIterations: int, ticks: seq<Tick>)
    returns (r: Result<Logged>, writes: seq<Batch>)
    requires Bound(numIterations) <= |ticks|
    ensures Emitted(r, writes) == LogSession(device, channels, tcType, tempUnit, numIterations, ticks)
  {
    var plan;
    plan, writes := ConfigureThermocouples(device, channels, tcType, tempUnit);
    if plan.Err? {
      return Err(plan.error), writes;
    }
    var log := SampleLoop(numIterations, ticks);
    r := Ok(Logged(plan.value, WithUnit(plan.value.columns, log.data, tempUnit), log.end));
  }
}
