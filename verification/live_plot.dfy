/**
 * The state of the live-plotting logger that each animation frame extends:
 * the data rows, the plot times and one temperature series per channel
 * name, and the record saved from them when the window closes.
 */
module LivePlot {
  import opened Registers
  import opened ReadPlan
  import opened Sampling

  /** The values whose channel name is `key`, in channel order. */
  function Picks(names: seq<string>, values: seq<real>, key: string): seq<real>
    requires |names| == |values|
    decreases |names|
  {
    if names == [] then []
    else
      var n := |names| - 1;
      Picks(names[..n], values[..n], key) + (if names[n] == key then [values[n]] else [])
  }

  /** A name that is not among the channels picks nothing. */
  lemma {:induction false} PicksAbsent(names: seq<string>, values: seq<real>, key: string)
    requires |names| == |values|
    requires key !in names
    ensures Picks(names, values, key) == []
    decreases |names|
  {
    if names != [] {
      var n := |names| - 1;
      assert key !in names[..n];
      PicksAbsent(names[..n], values[..n], key);
    }
  }

  /** With distinct channel names, the series of channel j receives exactly value j. */
  lemma {:induction false} PicksDistinct(names: seq<string>, values: seq<real>, j: nat)
    requires |names| == |values|
    requires Distinct(names)
    requires j < |names|
    ensures Picks(names, values, names[j]) == [values[j]]
    decreases |names|
  {
    var n := |names| - 1;
    if j == n {
      assert names[j] !in names[..n];
      PicksAbsent(names[..n], values[..n], names[j]);
    } else {
      assert Distinct(names[..n]) by {
        forall a, b | 0 <= a < b < n
          ensures names[..n][a] != names[..n][b]
        {
          assert names[a] != names[b];
        }
      }
      assert names[..n][j] == names[j];
      PicksDistinct(names[..n], values[..n], j);
      assert names[n] != names[j];
    }
  }

  /** Extending the picked channels by one picks that channel's value into its own series only. */
  lemma PicksStep(names: seq<string>, values: seq<real>, j: nat, key: string)
    requires |names| == |values|
    requires j < |names|
    ensures Picks(names[..j + 1], values[..j + 1], key) ==
            Picks(names[..j], values[..j], key) + (if names[j] == key then [values[j]] else [])
  {
    assert names[..j + 1][..j] == names[..j];
    assert values[..j + 1][..j] == values[..j];
  }

  /** Every series extended by the values of the channels with its name. */
  function Appended(series: map<string, seq<real>>, names: seq<string>, values: seq<real>): map<string, seq<real>>
    requires |names| == |values|
  {
    map key | key in series :: series[key] + Picks(names, values, key)
  }

  /** With distinct channel names, each channel's series grows by that channel's value alone. */
  lemma AppendedDistinct(series: map<string, seq<real>>, names: seq<string>, values: seq<real>)
    requires |names| == |values|
    requires Distinct(names)
    requires forall j :: 0 <= j < |names| ==> names[j] in series
    ensures forall j :: 0 <= j < |names| ==>
              Appended(series, names, values)[names[j]] == series[names[j]] + [values[j]]
  {
    forall j | 0 <= j < |names|
      ensures Appended(series, names, values)[names[j]] == series[names[j]] + [values[j]]
    {
      PicksDistinct(names, values, j);
    }
  }

  /** With distinct channel names, series that all had t values and are keyed by the channels all have t + 1. */
  lemma AppendedInStep(series: map<string, seq<real>>, names: seq<string>, values: seq<real>, t: nat)
    requires |names| == |values|
    requires Distinct(names)
    requires forall key :: key in series <==> key in names
    requires forall key :: key in series ==> |series[key]| == t
    ensures forall key :: key in Appended(series, names, values) ==> |Appended(series, names, values)[key]| == t + 1
  {
    AppendedDistinct(series, names, values);
    forall key | key in Appended(series, names, values)
      ensures |Appended(series, names, values)[key]| == t + 1
    {
      var j :| 0 <= j < |names| && names[j] == key;
    }
  }

  /**
   * The variables the animation callback appends to: `all_data`, `times`
   * and `thermocouple_temps`, together with the fixed channel names, read
   * list and thermocouple index it reads.
   */
  class LiveLog {
    const channelNames: seq<string>
    const readList: seq<string>
    const thermocoupleIndex: seq<int>
    var allData: seq<Row>
    var times: seq<real>
    var temps: map<string, seq<real>>

    /**
     * The read list and index belong to the channel names, there is one
     * series per channel name, and each frame added one row of the read
     * values plus the time and dt, and one plot time.
     */
    ghost predicate Valid()
      reads this
    {
      && readList == ReadList(channelNames)
      && |readList| == 3 * |channelNames|
      && thermocoupleIndex == ThermocoupleIndex(|channelNames|)
      && (forall key :: key in temps <==> key in channelNames)
      && |allData| == |times|
      && (forall k :: 0 <= k < |allData| ==> |allData[k]| == |readList| + 2)
    }

    /** With distinct channel names, every series has one temperature per frame. */
    ghost predicate InStep()
      reads this
    {
      forall key :: key in temps ==> |temps[key]| == |times|
    }

    /** The set-up before the animation starts: names, read list, index, and empty series. */
    constructor (channels: seq<int>)
      ensures Valid() && InStep()
      ensures channelNames == ChannelNames(channels)
      ensures allData == [] && times == []
      ensures forall key :: key in temps ==> temps[key] == []
    {
      var names := ChannelNames(channels);
      channelNames := names;
      readList := ReadList(names);
      ReadListLayout(names);
      thermocoupleIndex := ThermocoupleIndex(|names|);
      allData := [];
      times := [];
      temps := map key | key in names :: [];
    }

    /** The enumerate loop of `animate`: append temperature j to the series of channel j's name. */
    method AppendTemperatures(temperatures: seq<real>)
      requires |temperatures| == |channelNames|
      requires forall key :: key in temps <==> key in channelNames
      modifies this
      ensures temps == Appended(old(temps), channelNames, temperatures)
      ensures allData == old(allData) && times == old(times)
    {
      assert channelNames[..0] == [] && temperatures[..0] == [];
      var j := 0;
      while j < |temperatures|
        invariant 0 <= j <= |temperatures|
        invariant forall key :: key in temps <==> key in old(temps)
        invariant forall key :: key in old(temps) ==>
                    temps[key] == old(temps)[key] + Picks(channelNames[..j], temperatures[..j], key)
        invariant allData == old(allData) && times == old(times)
      {
        var name := channelNames[j];
        temps := temps[name := temps[name] + [temperatures[j]]];
        forall key | key in old(temps)
          ensures temps[key] == old(temps)[key] + Picks(channelNames[..j + 1], temperatures[..j + 1], key)
        {
          PicksStep(channelNames, temperatures, j, key);
        }
        j := j + 1;
      }
      assert channelNames[..j] == channelNames && temperatures[..j] == temperatures;
    }

    /**
     * `animate`: read the registers, add the row with the time and dt, add
     * the plot time, and append each channel's temperature (position 3j of
     * the read) to the series of its name. A failed read raises before
     * anything is appended.
     */
    method Animate(formattedTime: string, dateNum: real, dt: real, read: ReadOutcome)
      requires Valid()
      requires read.ReadOk? ==> |read.values| == |readList|
      modifies this
      ensures Valid()
      ensures read.ReadFailed? ==> allData == old(allData) && times == old(times) && temps == old(temps)
      ensures read.ReadOk? ==>
                && allData == old(allData) + [DataRow(read.values, formattedTime, dt)]
                && times == old(times) + [dateNum]
                && temps == Appended(old(temps), channelNames, Temperatures(read.values, thermocoupleIndex))
      ensures read.ReadOk? && Distinct(channelNames) ==>
                forall j :: 0 <= j < |channelNames| ==>
                  temps[channelNames[j]] == old(temps)[channelNames[j]] + [read.values[3 * j]]
      ensures Distinct(channelNames) && old(InStep()) ==> InStep()
    {
      if read.ReadFailed? {
        return;
      }
      var dataIn := read.values;
      var row := DataRow(dataIn, formattedTime, dt);
      assert |row| == |readList| + 2;
      ThermocoupleIndexPicksTemperatures(channelNames, dataIn);
      var temperatures := Temperatures(dataIn, thermocoupleIndex);
      if Distinct(channelNames) {
        AppendedDistinct(temps, channelNames, temperatures);
        if InStep() {
          AppendedInStep(temps, channelNames, temperatures, |times|);
        }
      }
      allData := allData + [row];
      times := times + [dateNum];
      AppendTemperatures(temperatures);
    }

    /**
     * The record saved after the window closes: the columns with 'T unit'
     * and every row with the unit added; each row has one cell per column.
     */
    function SavedRecord(tempUnit: string): (r: Record)
      requires Valid()
      reads this
      ensures |r.columns| == 3 * |channelNames| + 3 && r.columns[3 * |channelNames| + 2] == "T unit"
      ensures |r.rows| == |allData|
      ensures forall k :: 0 <= k < |r.rows| ==>
                |r.rows[k]| == |r.columns| && r.rows[k][|r.columns| - 1] == Str(tempUnit)
    {
      ColumnsLayout(channelNames);
      ReadListLayout(channelNames);
      WithUnit(Columns(channelNames), allData, tempUnit)
    }
  }
}
