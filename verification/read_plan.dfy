/**
 * The read side of the plan: the channel names, the flattened list of
 * derived read registers handed to eReadNames every tick, the column labels
 * of the record, and the positions of the temperature readings in it.
 */
module ReadPlan {
  import opened Registers

  predicate Distinct<T(==)>(s: seq<T>) {
    forall i, j :: 0 <= i < j < |s| ==> s[i] != s[j]
  }

  /** `[i for row in rows for i in row]`: the rows one after another. */
  function Flatten<T>(rows: seq<seq<T>>): seq<T>
    decreases |rows|
  {
    if rows == [] then [] else Flatten(rows[..|rows| - 1]) + rows[|rows| - 1]
  }

  /** The nested append loops that flatten the per-channel lists in the logging script. */
  method FlattenRows<T>(rows: seq<seq<T>>) returns (flat: seq<T>)
    ensures flat == Flatten(rows)
  {
    flat := [];
    var r := 0;
    while r < |rows|
      invariant 0 <= r <= |rows|
      invariant flat == Flatten(rows[..r])
    {
      var i := 0;
      while i < |rows[r]|
        invariant 0 <= i <= |rows[r]|
        invariant flat == Flatten(rows[..r]) + rows[r][..i]
      {
        flat := flat + [rows[r][i]];
        i := i + 1;
      }
      assert rows[..r + 1][..r] == rows[..r];
      assert rows[r][..i] == rows[r];
      r := r + 1;
    }
    assert rows[..|rows|] == rows;
  }

  /** Flattening rows of three puts element i of row j at position 3j + i. */
  lemma {:induction false} FlattenTriples<T>(rows: seq<seq<T>>)
    requires forall j :: 0 <= j < |rows| ==> |rows[j]| == 3
    ensures |Flatten(rows)| == 3 * |rows|
    ensures forall p :: 0 <= p < 3 * |rows| ==> Flatten(rows)[p] == rows[p / 3][p % 3]
    decreases |rows|
  {
    if rows != [] {
      var n := |rows| - 1;
      FlattenTriples(rows[..n]);
      forall p | 0 <= p < 3 * |rows|
        ensures Flatten(rows)[p] == rows[p / 3][p % 3]
      {
        if p < 3 * n {
          assert rows[..n][p / 3] == rows[p / 3];
        } else {
          assert p / 3 == n;
        }
      }
    }
  }

  /** `[create_analog_channel(channel) for channel in channels]` */
  function ChannelNames(channels: seq<int>): seq<string> {
    seq(|channels|, j requires 0 <= j < |channels| => ChannelName(channels[j]))
  }

  /** Distinct channel numbers give distinct channel names. */
  lemma ChannelNamesDistinct(channels: seq<int>)
    requires Distinct(channels)
    ensures Distinct(ChannelNames(channels))
  {
    var names := ChannelNames(channels);
    forall i, j | 0 <= i < j < |names|
      ensures names[i] != names[j]
    {
      if names[i] == names[j] {
        ChannelNameInjective(channels[i], channels[j]);
      }
    }
  }

  /** The flattened read registers: the A, B, C registers of each channel in channel order. */
  function ReadList(names: seq<string>): seq<string> {
    Flatten(seq(|names|, j requires 0 <= j < |names| => ReadABC(names[j]).0))
  }

  /** The record's columns: the three labels of each channel in channel order, then 'time' and 'dt'. */
  function Columns(names: seq<string>): seq<string> {
    Flatten(seq(|names|, j requires 0 <= j < |names| => ReadABC(names[j]).1)) + ["time", "dt"]
  }

  /** The read list has 3n entries and position 3j + i is register i (A, B, C) of channel j. */
  lemma ReadListLayout(names: seq<string>)
    ensures |ReadList(names)| == 3 * |names|
    ensures forall p :: 0 <= p < 3 * |names| ==> ReadList(names)[p] == names[p / 3] + READ_SUFFIXES[p % 3]
  {
    FlattenTriples(seq(|names|, j requires 0 <= j < |names| => ReadABC(names[j]).0));
  }

  /** The columns are 3n channel labels, label i of channel j at 3j + i, followed by 'time' and 'dt'. */
  lemma ColumnsLayout(names: seq<string>)
    ensures |Columns(names)| == 3 * |names| + 2
    ensures forall p :: 0 <= p < 3 * |names| ==> Columns(names)[p] == LABEL_STEMS[p % 3] + "_" + names[p / 3]
    ensures Columns(names)[3 * |names|] == "time" && Columns(names)[3 * |names| + 1] == "dt"
  {
    FlattenTriples(seq(|names|, j requires 0 <= j < |names| => ReadABC(names[j]).1));
  }

  /** `[3*i for i in range(n)]` */
  function ThermocoupleIndex(n: nat): seq<int> {
    seq(n, i requires 0 <= i < n => 3 * i)
  }

  /** `[data_in[i] for i in index]` */
  function Temperatures(dataIn: seq<real>, index: seq<int>): seq<real>
    requires forall k :: 0 <= k < |index| ==> 0 <= index[k] < |dataIn|
  {
    seq(|index|, k requires 0 <= k < |index| => dataIn[index[k]])
  }

  /**
   * The thermocouple index points, for each channel in order, at that
   * channel's AIN#_EF_READ_A register in the read list, so the picked values
   * are one temperature reading per channel.
   */
  lemma ThermocoupleIndexPicksTemperatures(names: seq<string>, dataIn: seq<real>)
    requires |dataIn| == 3 * |names|
    ensures |ReadList(names)| == |dataIn|
    ensures forall k :: 0 <= k < |names| ==> 0 <= ThermocoupleIndex(|names|)[k] < |dataIn|
    ensures |Temperatures(dataIn, ThermocoupleIndex(|names|))| == |names|
    ensures forall k :: 0 <= k < |names| ==>
              ReadList(names)[ThermocoupleIndex(|names|)[k]] == names[k] + "_EF_READ_A" &&
              Temperatures(dataIn, ThermocoupleIndex(|names|))[k] == dataIn[3 * k]
  {
    ReadListLayout(names);
    forall k | 0 <= k < |names|
      ensures ReadList(names)[3 * k] == names[k] + "_EF_READ_A"
    {
      assert (3 * k) / 3 == k && (3 * k) % 3 == 0;
    }
  }
}
