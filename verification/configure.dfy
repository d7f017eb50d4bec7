/**
 * The configuration phase of a logging session: look up the type and unit
 * indices and the CJC slope/offset, name the channels, write the negative
 * channels, resolution indices and AIN_EF registers, and prepare the read
 * list and the record's columns.
 */
module Configure {
  import opened Text
  import opened Registers
  import opened ReadPlan
  import opened WritePlan

  /** Everything the configuration phase leaves behind for the sampling loop. */
  datatype Plan = Plan(
    channelNames: seq<string>,
    negChannelValues: seq<Value>,
    negChannelRegisters: seq<string>,
    cjcAddresses: seq<int>,
    readList: seq<string>,
    columns: seq<string>)

  /** One CJC address per channel, in channel order. */
  function CjcAddresses(device: Device, channels: seq<int>): seq<int> {
    seq(|channels|, j requires 0 <= j < |channels| => CjcAddress(device, channels[j]))
  }

  function NegChannelRegisters(names: seq<string>): seq<string> {
    seq(|names|, j requires 0 <= j < |names| => names[j] + "_NEGATIVE_CH")
  }

  /** The eWriteName calls of the negative-channel loop on a T7: GND to each AIN#_NEGATIVE_CH in channel order. */
  function NegChannelWrites(names: seq<string>): seq<Batch> {
    seq(|names|, j requires 0 <= j < |names| => [Write(names[j] + "_NEGATIVE_CH", Gnd)])
  }

  /**
   * What configuring a session returns or raises, with the batches written
   * to the device. The checks run in the source's order: the type lookup,
   * the unpacking of the CJC slope/offset, the unit lookup, then the
   * negative-channel step of the first channel.
   */
  function Configuration(device: Device, channels: seq<int>, tcType: string, tempUnit: string): (c: Emitted<Plan>)
    ensures c.result.Ok? <==>
              Lower(tcType) == "k" && TempUnitIndex(tempUnit).Ok? && (channels == [] || device == T7)
    ensures c.result.Err? ==> c.writes == []
  {
    match TcIndex(tcType)
    case Err(e) => Emitted(Err(e), [])
    case Ok(tcIndex) =>
      match CjcSlopeOffset(tcType)
      case None => Emitted(Err(NotUnpackable), [])
      case Some(slopeOffset) =>
        match TempUnitIndex(tempUnit)
        case Err(e) => Emitted(Err(e), [])
        case Ok(unitIndex) =>
          var names := ChannelNames(channels);
          if |names| > 0 && device != T7 then
            Emitted(Err(GetChannelValueRegister(device, names[0]).result.error), [])
          else
            var cjcAddresses := CjcAddresses(device, channels);
            var settings := EfSettings(tcIndex, unitIndex, slopeOffset.0, slopeOffset.1);
            var plan := Plan(names, seq(|names|, _ => Gnd), NegChannelRegisters(names), cjcAddresses,
                             ReadList(names), Columns(names));
            Emitted(Ok(plan), NegChannelWrites(names) + ResolutionWrites(names, channels) +
                              EfBatches(names, cjcAddresses, settings))
  }

  /**
   * Which failure ends configuration, in the source's order: an unknown type
   * is a KeyError, a known type other than K cannot be unpacked, an unknown
   * unit is a KeyError, and with at least one channel a T4 exits while a T8
   * or any other non-T7 device fails on the unbound negative-channel value.
   */
  lemma ConfigurationFailures(device: Device, channels: seq<int>, tcType: string, tempUnit: string)
    ensures var c := Configuration(device, channels, tcType, tempUnit);
            && (Lower(tcType) !in EF_INDICES ==> c.result == Err(KeyError(Lower(tcType))))
            && (Lower(tcType) in EF_INDICES && Lower(tcType) != "k" ==> c.result == Err(NotUnpackable))
            && (Lower(tcType) == "k" && Lower(tempUnit) !in TEMP_UNIT_INDICES ==> c.result == Err(KeyError(Lower(tempUnit))))
            && (Lower(tcType) == "k" && Lower(tempUnit) in TEMP_UNIT_INDICES && channels != [] ==>
                  (device == T4 ==> c.result == Err(SystemExit(0))) &&
                  (device == T8 || device == Other ==> c.result == Err(UnboundName("neg_channel_value"))))
  {
  }

  /** An accepted configuration is type K on a T7 (or has no channels) and writes the plan of the three write steps. */
  lemma AcceptedConfiguration(device: Device, channels: seq<int>, tcType: string, tempUnit: string)
    requires Configuration(device, channels, tcType, tempUnit).result.Ok?
    ensures channels == [] || device == T7
    ensures TcIndex(tcType) == Ok(22) && CjcSlopeOffset(tcType) == Some((1.0, 0.0))
    ensures Configuration(device, channels, tcType, tempUnit).writes ==
            NegChannelWrites(ChannelNames(channels)) + ResolutionWrites(ChannelNames(channels), channels) +
            EfBatches(ChannelNames(channels), CjcAddresses(device, channels),
                      EfSettings(22, TempUnitIndex(tempUnit).value, 1.0, 0.0))
  {
  }

  /**
   * An accepted configuration writes, in this order: GND to each channel's
   * NEGATIVE_CH, each channel's number to its RESOLUTION_INDEX, and one
   * cumulative AIN_EF batch per channel (batch k with 5(k + 1) entries).
   */
  lemma AcceptedConfigurationWrites(device: Device, channels: seq<int>, tcType: string, tempUnit: string)
    requires Configuration(device, channels, tcType, tempUnit).result.Ok?
    ensures var c := Configuration(device, channels, tcType, tempUnit);
            var n := |channels|;
            && |c.writes| == 3 * n
            && (forall j :: 0 <= j < n ==> c.writes[j] == [Write(ChannelName(channels[j]) + "_NEGATIVE_CH", Gnd)])
            && (forall j :: 0 <= j < n ==>
                  c.writes[n + j] == [Write(ChannelName(channels[j]) + "_RESOLUTION_INDEX", IntVal(channels[j]))])
            && (forall k :: 2 * n <= k < 3 * n ==> |c.writes[k]| == 5 * (k - 2 * n + 1))
  {
    var n := |channels|;
    var names := ChannelNames(channels);
    var settings := EfSettings(22, TempUnitIndex(tempUnit).value, 1.0, 0.0);
    var cjcAddresses := CjcAddresses(device, channels);
    AcceptedConfiguration(device, channels, tcType, tempUnit);
    var ef := EfBatches(names, cjcAddresses, settings);
    EfBatchesCumulative(names, cjcAddresses, settings);
    ThreeParts(NegChannelWrites(names), ResolutionWrites(names, channels), ef, n);
  }

  /** Proof helper (sequences): in three lists of n batches one after the other, position j, n + j and 2n + j hold batch j of each. */
  lemma ThreeParts(a: seq<Batch>, b: seq<Batch>, c: seq<Batch>, n: nat)
    requires |a| == n && |b| == n && |c| == n
    ensures |a + b + c| == 3 * n
    ensures forall j :: 0 <= j < n ==> (a + b + c)[j] == a[j] && (a + b + c)[n + j] == b[j]
    ensures forall k :: 2 * n <= k < 3 * n ==> (a + b + c)[k] == c[k - 2 * n]
  {
  }

  /**
   * The last batch of an accepted configuration with n > 0 channels holds
   * all 5n AIN_EF entries: entry 5j + i is register i of channel j, with type
   * index 22 (type K), the unit index, TEMPERATURE_DEVICE_K as CJC address,
   * slope 1.0 and offset 0.0.
   */
  lemma AcceptedConfigurationLastBatch(device: Device, channels: seq<int>, tcType: string, tempUnit: string)
    requires Configuration(device, channels, tcType, tempUnit).result.Ok?
    requires channels != []
    ensures var c := Configuration(device, channels, tcType, tempUnit);
            var n := |channels|;
            var settings := EfSettings(22, TempUnitIndex(tempUnit).value, 1.0, 0.0);
            && |c.writes| == 3 * n
            && |c.writes[3 * n - 1]| == 5 * n
            && forall p :: 0 <= p < 5 * n ==>
                 c.writes[3 * n - 1][p] ==
                 Write(ChannelName(channels[p / 5]) + EF_SUFFIXES[p % 5], EfValue(settings, 60052, p % 5))
  {
    var n := |channels|;
    var settings := EfSettings(22, TempUnitIndex(tempUnit).value, 1.0, 0.0);
    var names := ChannelNames(channels);
    var cjcAddresses := CjcAddresses(device, channels);
    AcceptedConfiguration(device, channels, tcType, tempUnit);
    LastBatchIsWholePlan(device, channels, settings);
    var plan := EfPlan(names, cjcAddresses, settings, n);
    EfPlanLayout(names, cjcAddresses, settings, n);
    forall p | 0 <= p < 5 * n
      ensures plan[p] == Write(ChannelName(channels[p / 5]) + EF_SUFFIXES[p % 5], EfValue(settings, 60052, p % 5))
    {
      var q := p / 5;
      assert 0 <= q < n;
      assert names[q] == ChannelName(channels[q]) && cjcAddresses[q] == 60052;
    }
  }

  /** The last of the three write steps is the AIN_EF plan of all the channels. */
  lemma LastBatchIsWholePlan(device: Device, channels: seq<int>, settings: EfSettings)
    requires channels != [] && device != T8
    ensures var names := ChannelNames(channels);
            var w := NegChannelWrites(names) + ResolutionWrites(names, channels) +
                     EfBatches(names, CjcAddresses(device, channels), settings);
            var n := |channels|;
            && |w| == 3 * n
            && w[3 * n - 1] == EfPlan(names, CjcAddresses(device, channels), settings, n)
  {
    var n := |channels|;
    var names := ChannelNames(channels);
    var cjcAddresses := CjcAddresses(device, channels);
    assert |names| == n && |cjcAddresses| == n;
    var ef := EfBatches(names, cjcAddresses, settings);
    assert ef[n - 1] == EfPlan(names, cjcAddresses, settings, n);
    LastOfThree(NegChannelWrites(names), ResolutionWrites(names, channels), ef, n);
  }

  /** Proof helper (sequences): in three lists of n batches one after the other, the last batch is the last of the third. */
  lemma LastOfThree(a: seq<Batch>, b: seq<Batch>, c: seq<Batch>, n: nat)
    requires |a| == n && |b| == n && |c| == n && n > 0
    ensures |a + b + c| == 3 * n && (a + b + c)[3 * n - 1] == c[n - 1]
  {
  }

  /**
   * Channels 0 and 2, type K, unit C on a T7: six writes, GND to AIN0 first
   * and channel 2 to AIN2's resolution index fourth. The register names are
   * spelled as channel name plus suffix, the form the configuration builds,
   * so that they are matched without comparing whole literals character by
   * character.
   */
  lemma ConfigurationExampleTwoChannels()
    ensures var c := Configuration(T7, [0, 2], "k", "C");
            && c.result.Ok?
            && |c.writes| == 6
            && c.writes[0] == [Write("AIN0" + "_NEGATIVE_CH", Gnd)]
            && c.writes[3] == [Write("AIN2" + "_RESOLUTION_INDEX", IntVal(2))]
  {
    var channels := [0, 2];
    var names := ChannelNames(channels);
    assert Lower("k") == "k";
    assert Lower("C") == "c";
    assert ChannelName(0) == "AIN0";
    assert ChannelName(2) == "AIN2";
    assert names == ["AIN0", "AIN2"];
    AcceptedConfiguration(T7, channels, "k", "C");
  }

  /**
   * The same session's last batch: the five AIN_EF entries of AIN0 then
   * those of AIN2, with type index 22, unit index 1, CJC source 60052,
   * slope 1.0 and offset 0.0.
   */
  lemma ConfigurationExampleLastBatch()
    ensures var c := Configuration(T7, [0, 2], "k", "C");
            var settings := EfSettings(22, 1, 1.0, 0.0);
            && |c.writes| == 6
            && c.writes[5] == EfEntries("AIN0", 60052, settings) + EfEntries("AIN2", 60052, settings)
  {
    var channels := [0, 2];
    var names := ChannelNames(channels);
    assert Lower("k") == "k";
    assert Lower("C") == "c";
    assert ChannelName(0) == "AIN0";
    assert ChannelName(2) == "AIN2";
    assert names == ["AIN0", "AIN2"];
    var settings := EfSettings(22, 1, 1.0, 0.0);
    var cjcAddresses := CjcAddresses(T7, channels);
    AcceptedConfiguration(T7, channels, "k", "C");
    LastBatchIsWholePlan(T7, channels, settings);
    assert cjcAddresses == [60052, 60052];
    assert EfPlan(names, cjcAddresses, settings, 1) == EfEntries("AIN0", 60052, settings);
  }

  /** The negative-channel loop: one `get_channel_value_register` step per channel name, stopping at the first that fails. */
  method NegativeChannels(device: Device, names: seq<string>)
    returns (r: Result<(seq<Value>, seq<string>)>, writes: seq<Batch>)
    ensures names == [] || device == T7 ==>
              r == Ok((seq(|names|, _ => Gnd), NegChannelRegisters(names))) && writes == NegChannelWrites(names)
    ensures names != [] && device != T7 ==>
              r == Err(GetChannelValueRegister(device, names[0]).result.error) && writes == []
  {
    var negValues: seq<Value> := [];
    var negRegisters: seq<string> := [];
    writes := [];
    var i := 0;
    while i < |names|
      invariant 0 <= i <= |names|
      invariant i > 0 ==> device == T7
      invariant |negValues| == i && forall j :: 0 <= j < i ==> negValues[j] == Gnd
      invariant negRegisters == NegChannelRegisters(names[..i])
      invariant writes == NegChannelWrites(names[..i])
    {
      var step := GetChannelValueRegister(device, names[i]);
      writes := writes + step.writes;
      if step.result.Err? {
        return Err(step.result.error), writes;
      }
      negValues := negValues + [step.result.value.value];
      negRegisters := negRegisters + [step.result.value.register];
      i := i + 1;
    }
    assert names[..i] == names;
    assert negValues == seq(|names|, _ => Gnd);
    r := Ok((negValues, negRegisters));
  }

  /** The loop that collects `get_cjc_address` for each channel. */
  method CollectCjcAddresses(device: Device, channels: seq<int>) returns (cjcAddresses: seq<int>)
    ensures cjcAddresses == CjcAddresses(device, channels)
  {
    cjcAddresses := [];
    var i := 0;
    while i < |channels|
      invariant 0 <= i <= |channels|
      invariant cjcAddresses == CjcAddresses(device, channels[..i])
    {
      cjcAddresses := cjcAddresses + [CjcAddress(device, channels[i])];
      i := i + 1;
    }
    assert channels[..i] == channels;
  }

  /** The loops that gather each channel's read registers and labels and flatten them into the read list and the columns. */
  method ReadListAndColumns(names: seq<string>) returns (readList: seq<string>, columns: seq<string>)
    ensures readList == ReadList(names)
    ensures columns == Columns(names)
  {
    var abcs: seq<seq<string>> := [];
    var labels: seq<seq<string>> := [];
    var i := 0;
    while i < |names|
      invariant 0 <= i <= |names|
      invariant abcs == seq(i, j requires 0 <= j < i => ReadABC(names[j]).0)
      invariant labels == seq(i, j requires 0 <= j < i => ReadABC(names[j]).1)
    {
      var abcLabel := ReadABC(names[i]);
      abcs := abcs + [abcLabel.0];
      labels := labels + [abcLabel.1];
      i := i + 1;
    }
    readList := FlattenRows(abcs);
    columns := FlattenRows(labels);
    columns := columns + ["time"];
    columns := columns + ["dt"];
  }

  /**
   * `read_and_log_thermocouple` up to the start of sampling: the lookups,
   * then the negative channels, the CJC addresses, the resolution indices,
   * the AIN_EF registers, and the read list and columns.
   */
  method ConfigureThermocouples(device: Device, channels: seq<int>, tcType: string, tempUnit: string)
    returns (r: Result<Plan>, writes: seq<Batch>)
    ensures Emitted(r, writes) == Configuration(device, channels, tcType, tempUnit)
  {
    var tcIndex := TcIndex(tcType);
    if tcIndex.Err? {
      return Err(tcIndex.error), [];
    }
    var slopeOffset := CjcSlopeOffset(tcType);
    if slopeOffset.None? {
      return Err(NotUnpackable), [];
    }
    var cjcSlope, cjcOffset := slopeOffset.value.0, slopeOffset.value.1;
    var unitIndex := TempUnitIndex(tempUnit);
    if unitIndex.Err? {
      return Err(unitIndex.error), [];
    }
    var names := ChannelNames(channels);
    var negChannels;
    negChannels, writes := NegativeChannels(device, names);
    if negChannels.Err? {
      return Err(negChannels.error), writes;
    }
    var cjcAddresses := CollectCjcAddresses(device, channels);
    var resolutionWrites := SetResolutionIndexRegisters(names, channels);
    writes := writes + resolutionWrites;
    var efWrites := ConfigureAinEfRegisters(names, tcIndex.value, unitIndex.value, cjcAddresses, cjcSlope, cjcOffset);
    writes := writes + efWrites;
    var readList, columns := ReadListAndColumns(names);
    r := Ok(Plan(names, negChannels.value.0, negChannels.value.1, cjcAddresses, readList, columns));
  }
}
