/**
 * The earlier PLC manager, plc_manager.cpp at the repository root. It reads
 * each VB cell as eight coil bits, packs some of them into a byte, decodes
 * the cells through value tables, builds a concatenated alarm text, and
 * writes by parsing a two-word command line into a cell address and a code.
 */
module LegacyPlcManager {
  import opened Text
  import opened RegisterImage
  import PlcManager

  // ---------------------------------------------------------------------------
  // Packing coil bits into a byte
  // ---------------------------------------------------------------------------

  /** Sum of 2^i over the first `n` coil values that are non-zero. */
  function BitSum(bits: seq<bv8>, n: nat): nat
    requires n <= |bits|
  {
    if n == 0 then 0 else BitSum(bits, n - 1) + (if bits[n - 1] != 0 then Pow2(n - 1) else 0)
  }

  /** OR-ing in the single-bit mask `m` of a byte below `m` adds `m`. */
  lemma OrAddsMask(s: bv8, m: bv8)
    requires m == 1 || m == 2 || m == 4 || m == 8 || m == 16 || m == 32 || m == 64 || m == 128
    requires s < m
    ensures (s | m) as int == s as int + m as int
  {
    assert s | m == s + m;
  }

  /** The mask `1 << i` of a bit position is the single-bit byte worth 2^i. */
  lemma BitMask(i: nat)
    requires i < 8
    ensures var m: bv8 := 1 << i;
      && m as int == Pow2(i)
      && (m == 1 || m == 2 || m == 4 || m == 8 || m == 16 || m == 32 || m == 64 || m == 128)
  {
    var m: bv8 := 1 << i;
    match i
    case 0 => assert m == 1 && Pow2(i) == 1;
    case 1 => assert m == 2 && Pow2(i) == 2;
    case 2 => assert m == 4 && Pow2(i) == 4;
    case 3 => assert m == 8 && Pow2(i) == 8;
    case 4 => assert m == 16 && Pow2(i) == 16;
    case 5 => assert m == 32 && Pow2(i) == 32;
    case 6 => assert m == 64 && Pow2(i) == 64;
    case 7 => assert m == 128 && Pow2(i) == 128;
  }

  /** OR-ing in bit `i` of a byte whose value is below 2^i adds 2^i. */
  lemma OrAddsPow2(s: bv8, i: nat)
    requires i < 8 && s as int < Pow2(i)
    ensures (s | (1 << i)) as int == s as int + Pow2(i)
  {
    BitMask(i);
    var m: bv8 := 1 << i;
    assert s < m;
    OrAddsMask(s, m);
  }

  /**
   * The packing loop of `read_plc_data`: bit `i` of the result is set for
   * each of the first `width` coil values that is non-zero. The result is
   * the sum of those powers of two, so the five-bit alarm byte stays below 32.
   */
  method PackBits(bits: seq<bv8>, width: nat) returns (packed: bv8)
    requires width <= 8 <= |bits|
    ensures forall b :: 0 <= b < 8 ==> (TestBit(packed, b) <==> b < width && bits[b] != 0)
    ensures packed as int == BitSum(bits, width)
    ensures packed as int < Pow2(width)
  {
    packed := 0;
    var i := 0;
    while i < width
      invariant 0 <= i <= width
      invariant forall b :: 0 <= b < 8 ==> (TestBit(packed, b) <==> b < i && bits[b] != 0)
      invariant packed as int == BitSum(bits, i) && packed as int < Pow2(i)
    {
      if bits[i] != 0 {
        OrAddsPow2(packed, i);
        forall b | 0 <= b < 8
          ensures TestBit(packed | (1 << i), b) <==> b < i + 1 && bits[b] != 0
        {
          if b == i {
            WithBitSetsBit(packed, i, true);
          } else {
            WithBitKeepsOtherBits(packed, i, b, true);
          }
        }
        packed := packed | (1 << i);
      }
      i := i + 1;
    }
  }

  // ---------------------------------------------------------------------------
  // Value tables
  // ---------------------------------------------------------------------------

  const UNKNOWN := "未知"

  /** The two-valued cells: 1 and 2 have a label each, every other value is unknown. */
  function TwoValued(v: bv8, first: string, second: string): (r: string)
    requires first != second && first != UNKNOWN && second != UNKNOWN
    ensures r == first <==> v == 1
    ensures r == second <==> v == 2
    ensures r == UNKNOWN <==> v != 1 && v != 2
  {
    if v == 1 then first else if v == 2 then second else UNKNOWN
  }

  /** The legacy cylinder table: 4 and 8 share one label. */
  function DecodeCylinder(v: bv8): string
  {
    if v == 1 then "下降停止"
    else if v == 2 then "下降加压"
    else if v == 4 then "上升停止"
    else if v == 8 then "上升停止"
    else PlcManager.UNKNOWN_STATE
  }

  /** The cylinder table is not injective: two codes read as "rising stopped". */
  lemma CylinderTableMergesFourAndEight(v: bv8)
    ensures DecodeCylinder(v) == "上升停止" <==> v == 4 || v == 8
    ensures DecodeCylinder(v) == PlcManager.UNKNOWN_STATE <==> !PlcManager.IsStateCode(v)
  {
  }

  /** The alarm words for bits 0..k-1: each set bit contributes its label and a space. */
  function AlarmWords(v: bv8, k: nat): string
    requires k <= 4
  {
    if k == 0 then ""
    else AlarmWords(v, k - 1) + (if TestBit(v, k - 1) then PlcManager.ALARM_BIT_LABELS[k - 1] + " " else "")
  }

  /** No words at all exactly when none of the four alarm bits is set. */
  lemma {:induction false} AlarmWordsEmpty(v: bv8, k: nat)
    requires k <= 4
    ensures AlarmWords(v, k) == "" <==> forall b :: 0 <= b < k ==> !TestBit(v, b)
  {
    if k > 0 {
      AlarmWordsEmpty(v, k - 1);
    }
  }

  /** The alarm text: the in-order words of the set alarm bits, or "oil temperature low" when there are none. */
  function AlarmText(v: bv8): string
  {
    var words := AlarmWords(v, 4);
    if words == "" then PlcManager.NO_ALARM else words
  }

  /** The alarm text is "oil temperature low" exactly when the low four bits are all clear. */
  lemma AlarmTextNoAlarm(v: bv8)
    ensures AlarmText(v) == PlcManager.NO_ALARM <==> v & 0x0F == 0
  {
    AlarmWordsEmpty(v, 4);
    assert v & 0x0F == 0 <==> !TestBit(v, 0) && !TestBit(v, 1) && !TestBit(v, 2) && !TestBit(v, 3);
    AlarmWordsEndInSpace(v, 4);
  }

  /** Every label is followed by a space, so non-empty words never spell the no-alarm label. */
  lemma {:induction false} AlarmWordsEndInSpace(v: bv8, k: nat)
    requires k <= 4
    ensures AlarmWords(v, k) == "" || AlarmWords(v, k)[|AlarmWords(v, k)| - 1] == ' '
  {
    if k > 0 {
      AlarmWordsEndInSpace(v, k - 1);
    }
  }

  /** `alarm_details +=` for each set bit, then the fallback when nothing was appended. */
  method BuildAlarmText(v: bv8) returns (text: string)
    ensures text == AlarmText(v)
  {
    var details := "";
    assert TestBit(v, 0) == (v & 0x01 != 0) && TestBit(v, 1) == (v & 0x02 != 0);
    assert TestBit(v, 2) == (v & 0x04 != 0) && TestBit(v, 3) == (v & 0x08 != 0);
    if v & 0x01 != 0 { details := details + "油温高 "; }
    assert details == AlarmWords(v, 1);
    if v & 0x02 != 0 { details := details + "液位低 "; }
    assert details == AlarmWords(v, 2);
    if v & 0x04 != 0 { details := details + "液位高 "; }
    assert details == AlarmWords(v, 3);
    if v & 0x08 != 0 { details := details + "滤芯堵 "; }
    assert details == AlarmWords(v, 4);
    text := if details == "" then PlcManager.NO_ALARM else details;
  }

  /** The readable fields the legacy `parse_raw_values` assigns; the scaled doubles stay raw words. */
  datatype LegacyState = LegacyState(
    operationMode: string, emergencyStop: string, oilPumpStatus: string, cylinderState: string,
    platform1State: string, platform2State: string, heaterStatus: string, coolingStatus: string,
    alarmStatus: string, levelingStatus: string,
    cylinderPressure: int16, platform1Pressure: int16, platform2Pressure: int16, tiltAngle: int16,
    platformPosition: int)

  function Parse(vb: seq<bv8>, vw: seq<int16>): LegacyState
    requires |vb| == VB_SIZE && |vw| == VW_SIZE
  {
    LegacyState(
      TwoValued(vb[VB_OPERATION_MODE], "手动", "自动"),
      TwoValued(vb[VB_EMERGENCY_STOP], "复位", "急停"),
      TwoValued(vb[VB_OIL_PUMP], "停止", "启动"),
      DecodeCylinder(vb[VB_CYLINDER_STATE]),
      PlcManager.DecodePlatform(vb[VB_LIFT_PLATFORM1]),
      PlcManager.DecodePlatform(vb[VB_LIFT_PLATFORM2]),
      TwoValued(vb[VB_HEATER], "停止", "启动"),
      TwoValued(vb[VB_AIR_COOLING], "停止", "启动"),
      AlarmText(vb[VB_ALARM]),
      TwoValued(vb[VB_LEVELING], "停止", "启动"),
      vw[VW_CYLINDER_PRESSURE], vw[VW_PLATFORM1_PRESSURE], vw[VW_PLATFORM2_PRESSURE],
      vw[VW_TILT_ANGLE], vw[VW_POSITION] as int)
  }

  // ---------------------------------------------------------------------------
  // Write commands
  // ---------------------------------------------------------------------------

  /** What a recognised command computes: the VB cell it targets and the code for it. */
  datatype PlcWrite = PlcWrite(address: nat, code: nat)

  /** `(state == "start") ? 2 : 1` */
  function StartStopCode(arg: string): nat { if arg == "start" then 2 else 1 }

  /** The cylinder action codes; an unknown action gives 0. */
  function CylinderActionCode(action: string): nat
  {
    if action == "down_stop" then 1
    else if action == "down_pressure" then 2
    else if action == "up_stop" then 4
    else if action == "up" then 8
    else 0
  }

  /** The platform action codes; an unknown action gives 0. */
  function PlatformActionCode(action: string): nat
  {
    if action == "up" then 1
    else if action == "up_stop" then 2
    else if action == "down" then 4
    else if action == "down_stop" then 8
    else 0
  }

  /** The platform label each known action stands for. */
  function PlatformActionLabel(action: string): string
  {
    if action == "up" then "上升"
    else if action == "up_stop" then "上升停止"
    else if action == "down" then "下降"
    else if action == "down_stop" then "下降停止"
    else PlcManager.UNKNOWN_STATE
  }

  /**
   * The platform encode table inverts the decode table: the code an action
   * writes decodes to the label of that action, and an unknown action
   * encodes to 0, which decodes as unknown.
   */
  lemma PlatformEncodeDecode(action: string)
    ensures PlcManager.DecodePlatform(PlatformActionCode(action) as bv8) == PlatformActionLabel(action)
  {
  }

  /** The other direction: each known platform code is written by exactly one action. */
  lemma PlatformDecodeEncode(v: bv8)
    requires PlcManager.IsStateCode(v)
    ensures exists action :: (PlatformActionCode(action) == v as int
      && PlatformActionLabel(action) == PlcManager.DecodePlatform(v))
    ensures forall a, b :: PlatformActionCode(a) == PlatformActionCode(b) == v as int ==> a == b
  {
    var action := if v == 1 then "up" else if v == 2 then "up_stop" else if v == 4 then "down" else "down_stop";
    assert PlatformActionCode(action) == v as int;
  }

  /** The cell and code `write_plc_data` selects from the first two words; None for an unknown first word. */
  function TargetOfWords(op: string, arg: string): (r: Option<PlcWrite>)
    ensures r.Some? ==> VB_OPERATION_MODE <= r.value.address <= VB_LEVELING && r.value.code <= 8
  {
    if op == "SET_MODE" then Some(PlcWrite(VB_OPERATION_MODE, if arg == "manual" then 1 else 2))
    else if op == "EMERGENCY_STOP" then Some(PlcWrite(VB_EMERGENCY_STOP, 2))
    else if op == "RESET" then Some(PlcWrite(VB_EMERGENCY_STOP, 1))
    else if op == "OIL_PUMP" then Some(PlcWrite(VB_OIL_PUMP, StartStopCode(arg)))
    else if op == "CYLINDER" then Some(PlcWrite(VB_CYLINDER_STATE, CylinderActionCode(arg)))
    else if op == "PLATFORM1" then Some(PlcWrite(VB_LIFT_PLATFORM1, PlatformActionCode(arg)))
    else if op == "PLATFORM2" then Some(PlcWrite(VB_LIFT_PLATFORM2, PlatformActionCode(arg)))
    else if op == "HEATER" then Some(PlcWrite(VB_HEATER, StartStopCode(arg)))
    else if op == "COOLING" then Some(PlcWrite(VB_AIR_COOLING, StartStopCode(arg)))
    else if op == "LEVELING" then Some(PlcWrite(VB_LEVELING, StartStopCode(arg)))
    else None
  }

  /**
   * `write_plc_data`'s parse of a command line: the first word read from
   * the stream selects the cell, the second (empty when absent) the code.
   */
  function CommandTarget(cmd: string): Option<PlcWrite>
  {
    var words := TwoWords(cmd);
    TargetOfWords(words.0, words.1)
  }

  /** A two-word command line selects what its two words select. */
  lemma CommandTargetOfWords(op: string, arg: string)
    requires op != [] && arg != [] && NoSpace(op) && NoSpace(arg)
    ensures CommandTarget(op + " " + arg) == TargetOfWords(op, arg)
  {
    TwoWordsOfCommand(op, arg);
  }

  /**
   * The command line `execute_operation` hands to `write_plc_data`: the
   * operation word, then a space and the argument word when there is one.
   */
  function CommandLine(words: (string, string)): string
  {
    if words.1 == [] then words.0 else words.0 + " " + words.1
  }

  /** A command line built from two words parses back into those words' target. */
  lemma CommandLineParses(op: string, arg: string)
    requires op != [] && NoSpace(op) && NoSpace(arg)
    ensures CommandTarget(CommandLine((op, arg))) == TargetOfWords(op, arg)
  {
    if arg == [] {
      TwoWordsOfSingleWord(op);
    } else {
      CommandTargetOfWords(op, arg);
    }
  }

  /** `SET_MODE manual` gives 1 and any other mode word 2. */
  lemma SetModeCodes(mode: string)
    requires NoSpace(mode)
    ensures CommandTarget(CommandLine(("SET_MODE", mode))) == Some(PlcWrite(VB_OPERATION_MODE, if mode == "manual" then 1 else 2))
  {
    CommandLineParses("SET_MODE", mode);
  }

  /** For the pump, heater, cooling and leveling cells, `start` gives 2 and any other word 1. */
  lemma StartStopCommandCodes(op: string, arg: string)
    requires op == "OIL_PUMP" || op == "HEATER" || op == "COOLING" || op == "LEVELING"
    ensures TargetOfWords(op, arg).Some?
    ensures TargetOfWords(op, arg).value.code == if arg == "start" then 2 else 1
  {
  }

  /** A coil write as it goes on the wire: Write Single Coil carries only ON or OFF. */
  datatype CoilWrite = CoilWrite(address: nat, on: bool)

  /** `modbus_write_bit(ctx, address, code)` switches the coil ON for any non-zero code. */
  function OnWire(w: PlcWrite): CoilWrite
  {
    CoilWrite(w.address, w.code != 0)
  }

  // ---------------------------------------------------------------------------
  // Operation names
  // ---------------------------------------------------------------------------

  /**
   * `execute_operation`'s chain of comparisons as a table: the 24 operation
   * names in the order they are tried, each with the two words of the
   * command line it writes (the second empty for a one-word command).
   */
  const OPERATIONS: seq<(string, (string, string))> := [
    ("自动模式", ("SET_MODE", "auto")),
    ("手动模式", ("SET_MODE", "manual")),
    ("急停", ("EMERGENCY_STOP", "")),
    ("复位", ("RESET", "")),
    ("油泵启动", ("OIL_PUMP", "start")),
    ("油泵停止", ("OIL_PUMP", "stop")),
    ("刚柔缸下降停止", ("CYLINDER", "down_stop")),
    ("刚柔缸下降加压", ("CYLINDER", "down_pressure")),
    ("刚柔缸上升停止", ("CYLINDER", "up_stop")),
    ("刚柔缸上升", ("CYLINDER", "up")),
    ("平台1上升", ("PLATFORM1", "up")),
    ("平台1上升停止", ("PLATFORM1", "up_stop")),
    ("平台1下降", ("PLATFORM1", "down")),
    ("平台1下降停止", ("PLATFORM1", "down_stop")),
    ("平台2上升", ("PLATFORM2", "up")),
    ("平台2上升停止", ("PLATFORM2", "up_stop")),
    ("平台2下降", ("PLATFORM2", "down")),
    ("平台2下降停止", ("PLATFORM2", "down_stop")),
    ("电加热启动", ("HEATER", "start")),
    ("电加热停止", ("HEATER", "stop")),
    ("风冷启动", ("COOLING", "start")),
    ("风冷停止", ("COOLING", "stop")),
    ("调平启动", ("LEVELING", "start")),
    ("调平停止", ("LEVELING", "stop"))
  ]

  /** The first entry of `table` from `k` on whose name is `op`, as the comparison chain finds it. */
  function FindOperation(table: seq<(string, (string, string))>, op: string, k: nat): (r: Option<nat>)
    requires k <= |table|
    ensures r.Some? ==> k <= r.value < |table| && table[r.value].0 == op
    ensures r.Some? ==> forall j :: k <= j < r.value ==> table[j].0 != op
    ensures r.None? ==> forall j :: k <= j < |table| ==> table[j].0 != op
    decreases |table| - k
  {
    if k == |table| then None
    else if table[k].0 == op then Some(k)
    else FindOperation(table, op, k + 1)
  }

  /** The command words `execute_operation` writes for a name; None for a name it does not implement. */
  function CommandFor(op: string): (r: Option<(string, string)>)
    ensures r.Some? <==> exists i :: 0 <= i < |OPERATIONS| && OPERATIONS[i].0 == op
    ensures r.Some? ==> exists i :: 0 <= i < |OPERATIONS| && OPERATIONS[i] == (op, r.value)
  {
    var i := FindOperation(OPERATIONS, op, 0);
    if i.Some? then Some(OPERATIONS[i.value].1) else None
  }

  /** Words `write_plc_data` reads back as they are and whose first word selects a cell. */
  predicate KnownCommand(words: (string, string))
  {
    words.0 != [] && NoSpace(words.0) && NoSpace(words.1) && TargetOfWords(words.0, words.1).Some?
  }

  lemma OperationWordsHaveNoSpace()
    ensures NoSpace("SET_MODE") && NoSpace("EMERGENCY_STOP") && NoSpace("RESET") && NoSpace("OIL_PUMP")
    ensures NoSpace("CYLINDER") && NoSpace("PLATFORM1") && NoSpace("PLATFORM2")
    ensures NoSpace("HEATER") && NoSpace("COOLING") && NoSpace("LEVELING")
  {
  }

  lemma ArgumentWordsHaveNoSpace()
    ensures NoSpace("auto") && NoSpace("manual") && NoSpace("start") && NoSpace("stop") && NoSpace("")
    ensures NoSpace("down_stop") && NoSpace("down_pressure") && NoSpace("up_stop") && NoSpace("up") && NoSpace("down")
  {
  }

  /** Every command line of the table is two words whose first one selects a cell. */
  lemma OperationsAreKnownCommands()
    ensures forall i :: 0 <= i < |OPERATIONS| ==> KnownCommand(OPERATIONS[i].1)
  {
    OperationWordsHaveNoSpace();
    ArgumentWordsHaveNoSpace();
  }

  /** The cell and code the command line of a known operation name selects; None for an unknown name. */
  function OperationTarget(op: string): Option<PlcWrite>
  {
    if CommandFor(op).None? then None else CommandTarget(CommandLine(CommandFor(op).value))
  }

  /** Every command line of the table parses to a known target: what its two words select. */
  lemma CommandsParse(op: string)
    requires CommandFor(op).Some?
    ensures var w := CommandFor(op).value;
      OperationTarget(op) == TargetOfWords(w.0, w.1) && OperationTarget(op).Some?
  {
    var w := CommandFor(op).value;
    OperationsAreKnownCommands();
    CommandLineParses(w.0, w.1);
  }

  /**
   * For the pump, heater, cooling and leveling cells, start and stop both
   * switch the same coil ON: the wire cannot tell them apart.
   */
  lemma StartAndStopLookAlike(op: string, a: string, b: string)
    requires op == "OIL_PUMP" || op == "HEATER" || op == "COOLING" || op == "LEVELING"
    ensures TargetOfWords(op, a).Some? && TargetOfWords(op, b).Some?
    ensures OnWire(TargetOfWords(op, a).value) == OnWire(TargetOfWords(op, b).value)
  {
  }

  /** `CYLINDER` followed by an action word writes that action's code to the cylinder cell. */
  lemma CylinderCommandCodes(action: string)
    requires NoSpace(action)
    ensures CommandTarget(CommandLine(("CYLINDER", action))) == Some(PlcWrite(VB_CYLINDER_STATE, CylinderActionCode(action)))
  {
    CommandLineParses("CYLINDER", action);
  }

  /** "Cylinder up" writes code 8, which the legacy table reads back as "rising stopped", like code 4. */
  lemma CylinderUpReadsAsRisingStopped()
    ensures CylinderActionCode("up") == 8 && CylinderActionCode("up_stop") == 4
    ensures DecodeCylinder(8) == DecodeCylinder(4) == "上升停止"
  {
  }

  // ---------------------------------------------------------------------------
  // Reading the image
  // ---------------------------------------------------------------------------

  /** How a VB cell is filled from its eight coil bits. */
  datatype ByteRead = FirstCoil | Packed(width: nat)

  const VB_READS: seq<(nat, ByteRead)> := [
    (VB_OPERATION_MODE, FirstCoil), (VB_EMERGENCY_STOP, FirstCoil), (VB_OIL_PUMP, FirstCoil),
    (VB_CYLINDER_STATE, Packed(8)), (VB_LIFT_PLATFORM1, Packed(8)), (VB_LIFT_PLATFORM2, Packed(8)),
    (VB_HEATER, FirstCoil), (VB_AIR_COOLING, FirstCoil), (VB_ALARM, Packed(5)), (VB_LEVELING, FirstCoil)]

  /** Coil replies carry the eight values `modbus_read_bits` fills in. */
  predicate CoilRepliesShaped(replies: seq<Option<seq<bv8>>>)
  {
    forall i :: 0 <= i < |replies| && replies[i].Some? ==> |replies[i].value| == 8
  }

  /** The byte stored for one read. */
  function StoredByte(how: ByteRead, bits: seq<bv8>): bv8
    requires |bits| == 8
  {
    match how
    case FirstCoil => bits[0]
    case Packed(width) =>
      if width <= 8 then
        BitSumBelow(bits, width);
        Pow2AtMost256(width);
        BitSum(bits, width) as bv8
      else 0
  }

  lemma Pow2AtMost256(n: nat)
    requires n <= 8
    ensures Pow2(n) <= 256
  {
    assert Pow2(0) == 1 && Pow2(1) == 2 && Pow2(2) == 4 && Pow2(3) == 8 && Pow2(4) == 16;
    assert Pow2(5) == 32 && Pow2(6) == 64 && Pow2(7) == 128 && Pow2(8) == 256;
  }

  lemma {:induction false} BitSumBelow(bits: seq<bv8>, n: nat)
    requires n <= |bits|
    ensures BitSum(bits, n) < Pow2(n)
  {
    if n > 0 {
      BitSumBelow(bits, n - 1);
    }
  }

  /** The byte bank after the first `n` coil replies are stored. */
  function StoreCoilPrefix(cells: seq<bv8>, replies: seq<Option<seq<bv8>>>, n: nat): (r: seq<bv8>)
    requires |cells| == VB_SIZE && |replies| == |VB_READS| && CoilRepliesShaped(replies)
    requires n <= PlcManager.Answered(replies)
    ensures |r| == VB_SIZE
  {
    if n == 0 then cells
    else StoreCoilPrefix(cells, replies, n - 1)[VB_READS[n - 1].0 := StoredByte(VB_READS[n - 1].1, replies[n - 1].value)]
  }

  /** The coil blocks are read into consecutive cells, VB1000 first. */
  lemma VbReadAddresses()
    ensures forall i :: 0 <= i < |VB_READS| ==> VB_READS[i].0 == VB_OPERATION_MODE + i
  {
  }

  /** Each answered coil block's cell holds its stored byte, and no other cell changes. */
  lemma {:induction false} StoreCoilPrefixStores(cells: seq<bv8>, replies: seq<Option<seq<bv8>>>, n: nat)
    requires |cells| == VB_SIZE && |replies| == |VB_READS| && CoilRepliesShaped(replies)
    requires n <= PlcManager.Answered(replies)
    ensures forall i :: 0 <= i < n ==>
      StoreCoilPrefix(cells, replies, n)[VB_READS[i].0] == StoredByte(VB_READS[i].1, replies[i].value)
    ensures forall a :: 0 <= a < VB_SIZE && (forall i :: 0 <= i < n ==> VB_READS[i].0 != a) ==>
      StoreCoilPrefix(cells, replies, n)[a] == cells[a]
  {
    if n > 0 {
      StoreCoilPrefixStores(cells, replies, n - 1);
      VbReadAddresses();
    }
  }

  /** `static_cast<int16_t>` of a 16-bit register: values from 0x8000 up wrap to negatives. */
  function ToInt16(r: uint16): (v: int16)
    ensures v >= 0 <==> r < 0x8000
    ensures (v as int) % 0x10000 == r as int
  {
    if r < 0x8000 then r as int as int16 else (r as int - 0x10000) as int16
  }

  /** The word bank after the first `n` register replies are stored. */
  function StoreRegisterPrefix(cells: seq<int16>, replies: seq<Option<uint16>>, n: nat): (r: seq<int16>)
    requires |cells| == VW_SIZE && |replies| == |VW_ADDRESSES| && n <= PlcManager.Answered(replies)
    ensures |r| == VW_SIZE
  {
    if n == 0 then cells
    else StoreRegisterPrefix(cells, replies, n - 1)[VW_ADDRESSES[n - 1] := ToInt16(replies[n - 1].value)]
  }

  /** The registers are read into every fourth word cell, VW100 first. */
  lemma VwAddresses()
    ensures forall j :: 0 <= j < |VW_ADDRESSES| ==> VW_ADDRESSES[j] == VW_CYLINDER_PRESSURE + 4 * j
  {
  }

  /** Each answered register's cell holds its signed value, and no other cell changes. */
  lemma {:induction false} StoreRegisterPrefixStores(cells: seq<int16>, replies: seq<Option<uint16>>, n: nat)
    requires |cells| == VW_SIZE && |replies| == |VW_ADDRESSES| && n <= PlcManager.Answered(replies)
    ensures forall j :: 0 <= j < n ==>
      StoreRegisterPrefix(cells, replies, n)[VW_ADDRESSES[j]] == ToInt16(replies[j].value)
    ensures forall a :: 0 <= a < VW_SIZE && (forall j :: 0 <= j < n ==> VW_ADDRESSES[j] != a) ==>
      StoreRegisterPrefix(cells, replies, n)[a] == cells[a]
  {
    if n > 0 {
      StoreRegisterPrefixStores(cells, replies, n - 1);
      VwAddresses();
    }
  }

  predicate ReadSucceeds(coils: seq<Option<seq<bv8>>>, registers: seq<Option<uint16>>)
  {
    PlcManager.Answered(coils) == |coils| && PlcManager.Answered(registers) == |registers|
  }

  class LegacyPlcManager {
    var connected: bool
    var hasContext: bool
    const image: RawData
    var state: LegacyState

    ghost predicate Valid()
      reads this, image
    {
      image.Valid()
    }

    predicate LinkUp()
      reads this
    {
      connected && hasContext
    }

    /**
     * The constructor zeroes both banks and makes one connection attempt;
     * `connect_plc` is the current revision's, so the link is up exactly when
     * both of its steps (`newTcpOk`, `connectOk`) succeed.
     */
    constructor (newTcpOk: bool, connectOk: bool)
      ensures Valid() && fresh(image)
      ensures forall a :: 0 <= a < VB_SIZE ==> image.vb[a] == 0
      ensures forall a :: 0 <= a < VW_SIZE ==> image.vw[a] == 0
      ensures connected == hasContext == (newTcpOk && connectOk)
    {
      connected := newTcpOk && connectOk;
      hasContext := newTcpOk && connectOk;
      image := new RawData();
      state := LegacyState("", "", "", "", "", "", "", "", "", "", 0, 0, 0, 0, 0);
    }

    /**
     * The legacy `read_plc_data`: ten coil reads fill the VB cells (packed
     * where the cell is a bit field), then five register reads fill the VW
     * cells; the first failure ends the pass with false. It does not parse.
     */
    method ReadPlcData(coils: seq<Option<seq<bv8>>>, registers: seq<Option<uint16>>) returns (ok: bool)
      requires Valid() && |coils| == |VB_READS| && CoilRepliesShaped(coils) && |registers| == |VW_ADDRESSES|
      modifies image.vb, image.vw
      ensures ok <==> LinkUp() && ReadSucceeds(coils, registers)
      ensures image.vb[..] == if LinkUp() then StoreCoilPrefix(old(image.vb[..]), coils, PlcManager.Answered(coils))
                              else old(image.vb[..])
      ensures image.vw[..] == if LinkUp() && PlcManager.Answered(coils) == |coils|
                              then StoreRegisterPrefix(old(image.vw[..]), registers, PlcManager.Answered(registers))
                              else old(image.vw[..])
    {
      if !connected || !hasContext {
        return false;
      }
      var answered := ReadCoils(coils);
      if answered < |VB_READS| {
        return false;
      }
      answered := ReadRegisters(registers);
      return answered == |VW_ADDRESSES|;
    }

    /** The VB half of `read_plc_data`: each coil block is stored as its byte until the first failure. */
    method ReadCoils(coils: seq<Option<seq<bv8>>>) returns (answered: nat)
      requires Valid() && |coils| == |VB_READS| && CoilRepliesShaped(coils)
      modifies image.vb
      ensures answered == PlcManager.Answered(coils)
      ensures image.vb[..] == StoreCoilPrefix(old(image.vb[..]), coils, answered)
      ensures image.vw[..] == old(image.vw[..])
    {
      ghost var vb0 := image.vb[..];
      var i := 0;
      while i < |VB_READS|
        invariant 0 <= i <= |VB_READS| && i <= PlcManager.Answered(coils)
        invariant image.vb[..] == StoreCoilPrefix(vb0, coils, i)
        invariant image.vw[..] == old(image.vw[..])
      {
        if coils[i].None? {
          return i;
        }
        var bits := coils[i].value;
        var (address, how) := VB_READS[i];
        var value: bv8;
        if how.FirstCoil? {
          value := bits[0];
        } else {
          value := PackBits(bits, how.width);
        }
        image.SetVB(address, value);
        i := i + 1;
      }
      return i;
    }

    /** The VW half of `read_plc_data`: each register is stored, reinterpreted as signed, until the first failure. */
    method ReadRegisters(registers: seq<Option<uint16>>) returns (answered: nat)
      requires Valid() && |registers| == |VW_ADDRESSES|
      modifies image.vw
      ensures answered == PlcManager.Answered(registers)
      ensures image.vw[..] == StoreRegisterPrefix(old(image.vw[..]), registers, answered)
      ensures image.vb[..] == old(image.vb[..])
    {
      ghost var vw0 := image.vw[..];
      var j := 0;
      while j < |VW_ADDRESSES|
        invariant 0 <= j <= |VW_ADDRESSES| && j <= PlcManager.Answered(registers)
        invariant image.vw[..] == StoreRegisterPrefix(vw0, registers, j)
        invariant image.vb[..] == old(image.vb[..])
      {
        if registers[j].None? {
          return j;
        }
        image.SetVW(VW_ADDRESSES[j], ToInt16(registers[j].value));
        j := j + 1;
      }
      return j;
    }

    /** The legacy `parse_raw_values`. */
    method ParseRawValues()
      requires Valid()
      modifies this`state
      ensures state == Parse(image.vb[..], image.vw[..])
    {
      var alarm := BuildAlarmText(image.GetVB(VB_ALARM));
      state := LegacyState(
        TwoValued(image.GetVB(VB_OPERATION_MODE), "手动", "自动"),
        TwoValued(image.GetVB(VB_EMERGENCY_STOP), "复位", "急停"),
        TwoValued(image.GetVB(VB_OIL_PUMP), "停止", "启动"),
        DecodeCylinder(image.GetVB(VB_CYLINDER_STATE)),
        PlcManager.DecodePlatform(image.GetVB(VB_LIFT_PLATFORM1)),
        PlcManager.DecodePlatform(image.GetVB(VB_LIFT_PLATFORM2)),
        TwoValued(image.GetVB(VB_HEATER), "停止", "启动"),
        TwoValued(image.GetVB(VB_AIR_COOLING), "停止", "启动"),
        alarm,
        TwoValued(image.GetVB(VB_LEVELING), "停止", "启动"),
        image.GetVW(VW_CYLINDER_PRESSURE), image.GetVW(VW_PLATFORM1_PRESSURE),
        image.GetVW(VW_PLATFORM2_PRESSURE), image.GetVW(VW_TILT_ANGLE),
        image.GetVW(VW_POSITION) as int);
    }

    /**
     * `write_plc_data`: no link, or an unknown first word, writes nothing and
     * fails; otherwise the computed code goes out as one coil write (ON for
     * any non-zero code); a failed write fails, and a good one is followed
     * by a full read whose result is returned.
     */
    method WritePlcData(cmd: string, writeResult: int, coils: seq<Option<seq<bv8>>>, registers: seq<Option<uint16>>)
      returns (ok: bool, sent: Option<CoilWrite>)
      requires Valid() && |coils| == |VB_READS| && CoilRepliesShaped(coils) && |registers| == |VW_ADDRESSES|
      modifies image.vb, image.vw
      ensures sent == if LinkUp() && CommandTarget(cmd).Some? then Some(OnWire(CommandTarget(cmd).value)) else None
      ensures ok <==> sent.Some? && writeResult != -1 && ReadSucceeds(coils, registers)
      ensures sent.Some? && writeResult != -1 ==> image.vb[..] == StoreCoilPrefix(old(image.vb[..]), coils, PlcManager.Answered(coils))
      ensures sent.Some? && writeResult != -1 ==>
                image.vw[..] == if PlcManager.Answered(coils) == |coils|
                                then StoreRegisterPrefix(old(image.vw[..]), registers, PlcManager.Answered(registers))
                                else old(image.vw[..])
      ensures !(sent.Some? && writeResult != -1) ==> image.vb[..] == old(image.vb[..]) && image.vw[..] == old(image.vw[..])
    {
      if !connected || !hasContext {
        return false, None;
      }
      var target := CommandTarget(cmd);
      if target.None? {
        return false, None;
      }
      sent := Some(OnWire(target.value));
      if writeResult == -1 {
        return false, sent;
      }
      ok := ReadPlcData(coils, registers);
    }

    /**
     * The legacy `execute_operation`: a known name is written as its command
     * line, an unknown one writes nothing. The outcome is only logged.
     */
    method ExecuteOperation(op: string, writeResult: int, coils: seq<Option<seq<bv8>>>, registers: seq<Option<uint16>>)
      returns (success: bool, sent: Option<CoilWrite>)
      requires Valid() && |coils| == |VB_READS| && CoilRepliesShaped(coils) && |registers| == |VW_ADDRESSES|
      modifies image.vb, image.vw
      ensures sent == if LinkUp() && OperationTarget(op).Some? then Some(OnWire(OperationTarget(op).value)) else None
      ensures OperationTarget(op).Some? <==> exists i :: 0 <= i < |OPERATIONS| && OPERATIONS[i].0 == op
      ensures success <==> sent.Some? && writeResult != -1 && ReadSucceeds(coils, registers)
      ensures sent.Some? && writeResult != -1 ==> image.vb[..] == StoreCoilPrefix(old(image.vb[..]), coils, PlcManager.Answered(coils))
      ensures sent.Some? && writeResult != -1 ==>
                image.vw[..] == if PlcManager.Answered(coils) == |coils|
                                then StoreRegisterPrefix(old(image.vw[..]), registers, PlcManager.Answered(registers))
                                else old(image.vw[..])
      ensures !(sent.Some? && writeResult != -1) ==> image.vb[..] == old(image.vb[..]) && image.vw[..] == old(image.vw[..])
    {
      var command := CommandFor(op);
      if command.None? {
        return false, None;
      }
      CommandsParse(op);
      success, sent := WritePlcData(CommandLine(command.value), writeResult, coils, registers);
    }
  }
}
