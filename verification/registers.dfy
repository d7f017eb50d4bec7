/**
 * Register vocabulary of the LabJack T-series thermocouple extended feature
 * (AIN_EF) and the small lookup helpers of the logging scripts: thermocouple
 * type index, temperature-unit index, CJC source address, CJC slope/offset,
 * channel names and the names of the three derived read registers.
 */
module Registers {
  import opened Text

  /** The device variant reported by the handle. `Other` is every code that is none of the three constants. */
  datatype Device = T4 | T7 | T8 | Other

  /**
   * A value written to a register: an integer, a float constant (the CJC
   * slope and offset) or the library's GND constant, whose number is not
   * part of this model.
   */
  datatype Value = IntVal(i: int) | RealVal(r: real) | Gnd

  /** One `(name, value)` pair sent to the device. */
  datatype Write = Write(register: string, value: Value)

  /** What one eWriteName (a batch of one) or one eWriteNames call sends. */
  type Batch = seq<Write>

  /** The Python exceptions (and process exit) the core can end in. */
  datatype Failure =
    | KeyError(key: string)         // a dictionary lookup on an unknown key
    | NotUnpackable                 // unpacking the None of a non-K CJC lookup
    | UnboundName(name: string)     // returning a local that was never bound
    | SystemExit(code: int)         // exit(code)
    | LjmError                      // an exception raised by the LJM library
    | ValueError                    // a path operation given an argument it refuses
    | AttributeError(attr: string)  // a method called on a value that does not have it

  datatype Result<T> = Ok(value: T) | Err(error: Failure)

  datatype Option<T> = None | Some(value: T)

  /** Thermocouple AIN_EF type indices, keyed by the lower-cased type letter. */
  const EF_INDICES: map<string, int> :=
    map["e" := 20, "j" := 21, "k" := 22, "r" := 23, "t" := 24,
        "s" := 25, "n" := 27, "b" := 28, "c" := 30]

  /** Temperature reading units: 0 = K, 1 = C, 2 = F. */
  const TEMP_UNIT_INDICES: map<string, int> := map["k" := 0, "c" := 1, "f" := 2]

  /** First CJC register of the T8 (TEMPERATURE0); TEMPERATURE<n> follows every two addresses. */
  const T8_TEMPERATURE0_ADDRESS: int := 600

  /** TEMPERATURE_DEVICE_K, the CJC source of every device but the T8. */
  const TEMPERATURE_DEVICE_K_ADDRESS: int := 60052

  /** `set_tc_index`: look the lower-cased type up in the type-index table. */
  function TcIndex(tcType: string): (r: Result<int>)
    ensures r.Ok? <==> Lower(tcType) in EF_INDICES
    ensures r.Err? ==> r.error == KeyError(Lower(tcType))
    ensures r.Ok? ==> 20 <= r.value <= 30 && r.value != 26 && r.value != 29
  {
    var key := Lower(tcType);
    if key in EF_INDICES then Ok(EF_INDICES[key]) else Err(KeyError(key))
  }

  /** The inverse of the type-index table: which type letter an index stands for. */
  function TcLetter(index: int): Option<char> {
    match index
    case 20 => Some('e')
    case 21 => Some('j')
    case 22 => Some('k')
    case 23 => Some('r')
    case 24 => Some('t')
    case 25 => Some('s')
    case 27 => Some('n')
    case 28 => Some('b')
    case 30 => Some('c')
    case _ => None
  }

  /**
   * `set_tc_index` accepts exactly the one-character strings whose lower case
   * is one of e, j, k, r, t, s, n, b, c, and gives each its own index.
   */
  lemma TcIndexTable(tcType: string, index: int)
    ensures TcIndex(tcType) == Ok(index) <==> |tcType| == 1 && TcLetter(index) == Some(LowerChar(tcType[0]))
  {
    if |tcType| == 1 {
      var c := LowerChar(tcType[0]);
      assert Lower(tcType) == [c];
      if c in "ejkrtsnbc" {
        assert [c] in EF_INDICES;
      } else {
        assert [c] !in EF_INDICES;
      }
    } else {
      assert |Lower(tcType)| != 1;
    }
  }

  /** Upper and lower case name the same thermocouple type. */
  lemma TcIndexCaseInsensitive(tcType: string)
    ensures TcIndex(Lower(tcType)) == TcIndex(tcType)
  {
    LowerIdempotent(tcType);
  }

  /** `get_temp_unit_index`: look the lower-cased unit up in the unit table. */
  function TempUnitIndex(unitName: string): (r: Result<int>)
    ensures r.Ok? <==> Lower(unitName) in TEMP_UNIT_INDICES
    ensures r.Err? ==> r.error == KeyError(Lower(unitName))
    ensures r.Ok? ==> 0 <= r.value <= 2
  {
    var key := Lower(unitName);
    if key in TEMP_UNIT_INDICES then Ok(TEMP_UNIT_INDICES[key]) else Err(KeyError(key))
  }

  /** The inverse of the unit table. */
  function UnitLetter(index: int): Option<char> {
    match index
    case 0 => Some('k')
    case 1 => Some('c')
    case 2 => Some('f')
    case _ => None
  }

  /** `get_temp_unit_index` accepts exactly k, c, f in either case and numbers them 0, 1, 2. */
  lemma TempUnitIndexTable(unitName: string, index: int)
    ensures TempUnitIndex(unitName) == Ok(index) <==> |unitName| == 1 && UnitLetter(index) == Some(LowerChar(unitName[0]))
  {
    if |unitName| == 1 {
      var c := LowerChar(unitName[0]);
      assert Lower(unitName) == [c];
      if c in "kcf" {
        assert [c] in TEMP_UNIT_INDICES;
      } else {
        assert [c] !in TEMP_UNIT_INDICES;
      }
    } else {
      assert |Lower(unitName)| != 1;
    }
  }

  /** `get_cjc_address`: the T8 uses its per-channel TEMPERATURE<channel> register, every other device TEMPERATURE_DEVICE_K. */
  function CjcAddress(device: Device, channel: int): int {
    if device == T8 then T8_TEMPERATURE0_ADDRESS + 2 * channel else TEMPERATURE_DEVICE_K_ADDRESS
  }

  /** Which T8 channel's temperature register an address names, if any. */
  function T8CjcChannel(address: int): Option<int> {
    if (address - T8_TEMPERATURE0_ADDRESS) % 2 == 0 then Some((address - T8_TEMPERATURE0_ADDRESS) / 2) else None
  }

  /** On a T8 the CJC address is even and gives back its channel, so distinct channels get distinct addresses. */
  lemma CjcAddressT8(channel: int, other: int)
    ensures CjcAddress(T8, channel) % 2 == 0
    ensures T8CjcChannel(CjcAddress(T8, channel)) == Some(channel)
    ensures channel != other ==> CjcAddress(T8, channel) != CjcAddress(T8, other)
  {
  }

  /** On any device but the T8 the CJC address is TEMPERATURE_DEVICE_K whatever the channel. */
  lemma CjcAddressShared(device: Device, channel: int, other: int)
    requires device != T8
    ensures CjcAddress(device, channel) == CjcAddress(device, other) == 60052
  {
  }

  /** `set_cjc_slope_offset`: (1.0, 0.0) for a type K thermocouple and no pair (None) otherwise. */
  function CjcSlopeOffset(tcType: string): (r: Option<(real, real)>)
    ensures r.Some? <==> Lower(tcType) == "k"
    ensures r.Some? ==> r.value == (1.0, 0.0)
  {
    if Lower(tcType) == "k" then Some((1.0, 0.0)) else None
  }

  /** A type that has a CJC slope and offset is type K, whose AIN_EF index is 22. */
  lemma CjcSlopeOffsetOnlyTypeK(tcType: string)
    requires CjcSlopeOffset(tcType).Some?
    ensures TcIndex(tcType) == Ok(22)
  {
  }

  /** `create_analog_channel`: "AIN" followed by the channel number in decimal. */
  function ChannelName(channel: int): (name: string)
    ensures |name| >= 4 && name[..3] == "AIN"
    ensures '_' !in name
  {
    "AIN" + IntToString(channel)
  }

  /** Distinct channels get distinct names. */
  lemma ChannelNameInjective(a: int, b: int)
    requires ChannelName(a) == ChannelName(b)
    ensures a == b
  {
    assert IntToString(a) == ChannelName(a)[3..] == ChannelName(b)[3..] == IntToString(b);
    IntToStringInjective(a, b);
  }

  /**
   * Register names "<channel name><suffix>" with suffixes that start with
   * '_' determine both the channel and the suffix: the first '_' is where
   * the suffix begins.
   */
  lemma RegisterNameInjective(a: int, b: int, suffixA: string, suffixB: string)
    requires |suffixA| > 0 && suffixA[0] == '_'
    requires |suffixB| > 0 && suffixB[0] == '_'
    requires ChannelName(a) + suffixA == ChannelName(b) + suffixB
    ensures a == b && suffixA == suffixB
  {
    var x := ChannelName(a) + suffixA;
    FindAtJoin(ChannelName(a), suffixA, '_');
    FindAtJoin(ChannelName(b), suffixB, '_');
    var n := |ChannelName(a)|;
    assert ChannelName(a) == x[..n] == ChannelName(b);
    assert suffixA == x[n..] == suffixB;
    ChannelNameInjective(a, b);
  }

  /** The derived read registers of a channel: temperature, voltage and CJC temperature. */
  const READ_SUFFIXES: seq<string> := ["_EF_READ_A", "_EF_READ_B", "_EF_READ_C"]

  /** Column label stems for the three readings of a channel. */
  const LABEL_STEMS: seq<string> := ["T_thermocouple", "V_thermocouple", "T_cold_junction"]

  /** `get_read_ABC`: the three read registers of a channel and their column labels, in A, B, C order. */
  function ReadABC(name: string): (r: (seq<string>, seq<string>))
    ensures |r.0| == 3 && |r.1| == 3
    ensures forall i :: 0 <= i < 3 ==> r.0[i] == name + READ_SUFFIXES[i] && r.1[i] == LABEL_STEMS[i] + "_" + name
  {
    var abcs := [name + "_EF_READ_A", name + "_EF_READ_B", name + "_EF_READ_C"];
    var labels := seq(3, i requires 0 <= i < 3 => LABEL_STEMS[i] + "_" + name);
    (abcs, labels)
  }
}
