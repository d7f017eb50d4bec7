/**
 * The write side of the plan, as a log of the batches sent to the device:
 * the single-ended negative-channel write, one resolution-index write per
 * channel, and the AIN_EF configuration, which is re-sent cumulatively once
 * per channel.
 */
module WritePlan {
  import opened Registers
  import opened ReadPlan

  /** The `(neg_channel_value, neg_channel_register)` pair of one channel. */
  datatype NegChannel = NegChannel(value: Value, register: string)

  /** What a step returned (or raised) together with the batches it sent before that. */
  datatype Emitted<T> = Emitted(result: Result<T>, writes: seq<Batch>)

  /**
   * `get_channel_value_register`: only the T7 path binds the returned pair,
   * after writing GND to AIN#_NEGATIVE_CH; the T4 path exits the process, and
   * on every other device (the T8 included) the return reads a local that was
   * never bound.
   */
  function GetChannelValueRegister(device: Device, name: string): (e: Emitted<NegChannel>)
    ensures e.result.Ok? <==> device == T7
    ensures e.result.Ok? ==> e.result.value == NegChannel(Gnd, name + "_NEGATIVE_CH")
    ensures e.result.Ok? ==> e.writes == [[Write(e.result.value.register, e.result.value.value)]]
    ensures e.result.Err? ==> e.writes == []
    ensures device == T4 ==> e.result == Err(SystemExit(0))
    ensures device == T8 || device == Other ==> e.result == Err(UnboundName("neg_channel_value"))
  {
    match device
    case T7 =>
      var register := name + "_NEGATIVE_CH";
      Emitted(Ok(NegChannel(Gnd, register)), [[Write(register, Gnd)]])
    case T4 => Emitted(Err(SystemExit(0)), [])
    case _ => Emitted(Err(UnboundName("neg_channel_value")), [])
  }

  function Min(a: int, b: int): int {
    if a <= b then a else b
  }

  /** The writes of `set_resolution_index_registers`: for each zipped pair, AIN#_RESOLUTION_INDEX set to the channel number. */
  function ResolutionWrites(names: seq<string>, channels: seq<int>): seq<Batch> {
    var n := Min(|names|, |channels|);
    seq(n, j requires 0 <= j < n => [Write(names[j] + "_RESOLUTION_INDEX", IntVal(channels[j]))])
  }

  /** `set_resolution_index_registers`: one eWriteName per (name, channel) pair, in order, stopping at the shorter list. */
  method SetResolutionIndexRegisters(names: seq<string>, channels: seq<int>) returns (writes: seq<Batch>)
    ensures |writes| == Min(|names|, |channels|)
    ensures forall j :: 0 <= j < |writes| ==>
              writes[j] == [Write(names[j] + "_RESOLUTION_INDEX", IntVal(channels[j]))]
    ensures writes == ResolutionWrites(names, channels)
  {
    writes := [];
    var j := 0;
    while j < |names| && j < |channels|
      invariant 0 <= j <= Min(|names|, |channels|)
      invariant |writes| == j
      invariant forall i :: 0 <= i < j ==> writes[i] == [Write(names[i] + "_RESOLUTION_INDEX", IntVal(channels[i]))]
    {
      var register := names[j] + "_RESOLUTION_INDEX";
      writes := writes + [[Write(register, IntVal(channels[j]))]];
      j := j + 1;
    }
  }

  /** The session-wide AIN_EF settings: type index, unit index, CJC slope and CJC offset. */
  datatype EfSettings = EfSettings(tcIndex: int, unitIndex: int, cjcSlope: real, cjcOffset: real)

  /** The five AIN_EF registers of a channel, in the order they are configured. */
  const EF_SUFFIXES: seq<string> := ["_EF_INDEX", "_EF_CONFIG_A", "_EF_CONFIG_B", "_EF_CONFIG_D", "_EF_CONFIG_E"]

  /** The value of AIN_EF register `slot` (an index into EF_SUFFIXES) of a channel with this CJC address. */
  function EfValue(s: EfSettings, cjcAddress: int, slot: nat): Value
    requires slot < 5
  {
    [IntVal(s.tcIndex), IntVal(s.unitIndex), IntVal(cjcAddress), RealVal(s.cjcSlope), RealVal(s.cjcOffset)][slot]
  }

  /** The five entries one channel adds to the accumulated names and values. */
  function EfEntries(name: string, cjcAddress: int, s: EfSettings): seq<Write> {
    [ Write(name + "_EF_INDEX", IntVal(s.tcIndex)),
      Write(name + "_EF_CONFIG_A", IntVal(s.unitIndex)),
      Write(name + "_EF_CONFIG_B", IntVal(cjcAddress)),
      Write(name + "_EF_CONFIG_D", RealVal(s.cjcSlope)),
      Write(name + "_EF_CONFIG_E", RealVal(s.cjcOffset)) ]
  }

  /** The accumulated entries after the first k channels. */
  function EfPlan(names: seq<string>, cjcAddresses: seq<int>, s: EfSettings, k: nat): (plan: seq<Write>)
    requires k <= |names| && k <= |cjcAddresses|
    ensures |plan| == 5 * k
    decreases k
  {
    if k == 0 then []
    else EfPlan(names, cjcAddresses, s, k - 1) + EfEntries(names[k - 1], cjcAddresses[k - 1], s)
  }

  /**
   * After k channels there are 5k entries; entry 5j + i is AIN_EF register i
   * (INDEX, CONFIG_A, B, D, E) of channel j, holding the type index, the unit
   * index, channel j's CJC address, the slope and the offset.
   */
  lemma {:induction false} EfPlanLayout(names: seq<string>, cjcAddresses: seq<int>, s: EfSettings, k: nat)
    requires k <= |names| && k <= |cjcAddresses|
    ensures |EfPlan(names, cjcAddresses, s, k)| == 5 * k
    ensures forall p :: 0 <= p < 5 * k ==>
              EfPlan(names, cjcAddresses, s, k)[p] ==
              Write(names[p / 5] + EF_SUFFIXES[p % 5], EfValue(s, cjcAddresses[p / 5], p % 5))
    decreases k
  {
    if k > 0 {
      EfPlanLayout(names, cjcAddresses, s, k - 1);
      var plan := EfPlan(names, cjcAddresses, s, k);
      forall p | 0 <= p < 5 * k
        ensures plan[p] == Write(names[p / 5] + EF_SUFFIXES[p % 5], EfValue(s, cjcAddresses[p / 5], p % 5))
      {
        if p >= 5 * (k - 1) {
          assert p / 5 == k - 1;
        }
      }
    }
  }

  /** The entries after k channels are a prefix of the entries after m >= k channels. */
  lemma {:induction false} EfPlanPrefix(names: seq<string>, cjcAddresses: seq<int>, s: EfSettings, k: nat, m: nat)
    requires k <= m <= |names| && m <= |cjcAddresses|
    ensures EfPlan(names, cjcAddresses, s, k) <= EfPlan(names, cjcAddresses, s, m)
    decreases m
  {
    if k < m {
      EfPlanPrefix(names, cjcAddresses, s, k, m - 1);
    }
  }

  /** One eWriteNames batch per zipped channel, batch k holding everything accumulated up to channel k. */
  function EfBatches(names: seq<string>, cjcAddresses: seq<int>, s: EfSettings): seq<Batch> {
    var n := Min(|names|, |cjcAddresses|);
    seq(n, k requires 0 <= k < n => EfPlan(names, cjcAddresses, s, k + 1))
  }

  /**
   * `configure_ain_ef_registers`: append the five entries of each zipped
   * (name, CJC address) pair and send the whole accumulated list after each
   * channel.
   */
  method ConfigureAinEfRegisters(names: seq<string>, tcIndex: int, unitIndex: int, cjcAddresses: seq<int>,
                                 cjcSlope: real, cjcOffset: real)
    returns (batches: seq<Batch>)
    ensures |batches| == Min(|names|, |cjcAddresses|)
    ensures batches == EfBatches(names, cjcAddresses, EfSettings(tcIndex, unitIndex, cjcSlope, cjcOffset))
  {
    ghost var s := EfSettings(tcIndex, unitIndex, cjcSlope, cjcOffset);
    var entries: seq<Write> := [];
    batches := [];
    var k := 0;
    while k < |names| && k < |cjcAddresses|
      invariant 0 <= k <= Min(|names|, |cjcAddresses|)
      invariant entries == EfPlan(names, cjcAddresses, s, k)
      invariant |batches| == k
      invariant forall j :: 0 <= j < k ==> batches[j] == EfPlan(names, cjcAddresses, s, j + 1)
    {
      var name, cjcAddress := names[k], cjcAddresses[k];
      entries := entries + [Write(name + "_EF_INDEX", IntVal(tcIndex))];
      entries := entries + [Write(name + "_EF_CONFIG_A", IntVal(unitIndex))];
      entries := entries + [Write(name + "_EF_CONFIG_B", IntVal(cjcAddress))];
      entries := entries + [Write(name + "_EF_CONFIG_D", RealVal(cjcSlope))];
      entries := entries + [Write(name + "_EF_CONFIG_E", RealVal(cjcOffset))];
      batches := batches + [entries];
      k := k + 1;
    }
  }

  /**
   * The batches are cumulative: batch k carries 5(k + 1) entries, each batch
   * starts with the previous one, and the last one is the whole plan.
   */
  lemma EfBatchesCumulative(names: seq<string>, cjcAddresses: seq<int>, s: EfSettings)
    ensures forall k :: 0 <= k < |EfBatches(names, cjcAddresses, s)| ==> |EfBatches(names, cjcAddresses, s)[k]| == 5 * (k + 1)
    ensures forall k :: 0 < k < |EfBatches(names, cjcAddresses, s)| ==>
              EfBatches(names, cjcAddresses, s)[k - 1] <= EfBatches(names, cjcAddresses, s)[k]
    ensures |EfBatches(names, cjcAddresses, s)| > 0 ==>
              EfBatches(names, cjcAddresses, s)[|EfBatches(names, cjcAddresses, s)| - 1] ==
              EfPlan(names, cjcAddresses, s, Min(|names|, |cjcAddresses|))
  {
    var b := EfBatches(names, cjcAddresses, s);
    forall k | 0 <= k < |b|
      ensures |b[k]| == 5 * (k + 1)
    {
      EfPlanLayout(names, cjcAddresses, s, k + 1);
    }
    forall k | 0 < k < |b|
      ensures b[k - 1] <= b[k]
    {
      EfPlanPrefix(names, cjcAddresses, s, k, k + 1);
    }
  }

  /** The register names of a list of entries. */
  function RegistersOf(entries: seq<Write>): seq<string> {
    seq(|entries|, i requires 0 <= i < |entries| => entries[i].register)
  }

  lemma EfSuffixesDistinct()
    ensures Distinct(EF_SUFFIXES)
  {
    forall i, j | 0 <= i < j < 5
      ensures EF_SUFFIXES[i] != EF_SUFFIXES[j]
    {
      assert EF_SUFFIXES[i][|EF_SUFFIXES[i]| - 1] != EF_SUFFIXES[j][|EF_SUFFIXES[j]| - 1];
    }
  }

  /** Proof helper (arithmetic): a natural is fixed by its quotient and remainder by 5. */
  lemma SameQuotientAndRemainder(p: nat, q: nat)
    requires p / 5 == q / 5 && p % 5 == q % 5
    ensures p == q
  {
  }

  /** Entry p of the plan for named channels names channel p / 5 and AIN_EF register p % 5. */
  lemma EfRegisterAt(channels: seq<int>, cjcAddresses: seq<int>, s: EfSettings, k: nat, p: nat)
    requires k <= |channels| && k <= |cjcAddresses| && p < 5 * k
    ensures |EfPlan(ChannelNames(channels), cjcAddresses, s, k)| == 5 * k
    ensures EfPlan(ChannelNames(channels), cjcAddresses, s, k)[p].register ==
            ChannelName(channels[p / 5]) + EF_SUFFIXES[p % 5]
  {
    EfPlanLayout(ChannelNames(channels), cjcAddresses, s, k);
  }

  /** Proof helper: each AIN_EF suffix starts with the separator '_'. */
  lemma EfSuffixShape(i: nat)
    requires i < 5
    ensures |EF_SUFFIXES[i]| > 0 && EF_SUFFIXES[i][0] == '_'
  {
  }

  /** Two different entries of the plan name different registers, when the channels are distinct. */
  lemma EfRegistersDiffer(channels: seq<int>, cjcAddresses: seq<int>, s: EfSettings, k: nat, p: nat, q: nat)
    requires Distinct(channels)
    requires k <= |channels| && k <= |cjcAddresses| && p < q < 5 * k
    ensures EfPlan(ChannelNames(channels), cjcAddresses, s, k)[p].register !=
            EfPlan(ChannelNames(channels), cjcAddresses, s, k)[q].register
  {
    EfRegisterAt(channels, cjcAddresses, s, k, p);
    EfRegisterAt(channels, cjcAddresses, s, k, q);
    var a, i := p / 5, p % 5;
    var b, j := q / 5, q % 5;
    assert a < |channels| && b < |channels| && i < 5 && j < 5;
    EfSuffixShape(i);
    EfSuffixShape(j);
    var sp, sq := EF_SUFFIXES[i], EF_SUFFIXES[j];
    if ChannelName(channels[a]) + sp == ChannelName(channels[b]) + sq {
      RegisterNameInjective(channels[a], channels[b], sp, sq);
      assert a == b;
      EfSuffixesDistinct();
      SameQuotientAndRemainder(p, q);
    }
  }

  /**
   * For distinct channels every register in the AIN_EF plan is named once:
   * no register is configured twice with different values, and no register
   * of another channel appears.
   */
  lemma EfPlanRegistersDistinct(channels: seq<int>, cjcAddresses: seq<int>, s: EfSettings, k: nat)
    requires Distinct(channels)
    requires k <= |channels| && k <= |cjcAddresses|
    ensures Distinct(RegistersOf(EfPlan(ChannelNames(channels), cjcAddresses, s, k)))
  {
    var regs := RegistersOf(EfPlan(ChannelNames(channels), cjcAddresses, s, k));
    forall p, q | 0 <= p < q < |regs|
      ensures regs[p] != regs[q]
    {
      EfRegistersDiffer(channels, cjcAddresses, s, k, p, q);
    }
  }
}
