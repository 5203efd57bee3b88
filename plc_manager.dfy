/**
 * The current PLC manager of src/plc_manager.cpp: the control-byte flag
 * decoding, the state tables for the cylinder and the two lift platforms,
 * the alarm priority chain, the merge of two 16-bit registers into one
 * 32-bit word, the operation-name to M-coil table, and the connection and
 * read/re-read policy around them.
 *
 * Every Modbus call is an oracle: a read is a reply that is either a value
 * or a failure, a coil write is the integer the library returns, and
 * creating and connecting a context are two booleans.
 */
module PlcManager {
  import opened Text
  import opened RegisterImage

  // ---------------------------------------------------------------------------
  // The control byte
  // ---------------------------------------------------------------------------

  /** The seven flags packed into the control byte. */
  datatype Flag = OperationMode | EmergencyStop | OilPump | Heater | AirCooling | Leveling1 | Leveling2

  /** The text shown for a flag when its bit is set (`on`) or clear. */
  function FlagLabel(f: Flag, on: bool): string
  {
    match f
    case OperationMode => if on then "自动" else "手动"
    case EmergencyStop => if on then "正常" else "急停"
    case OilPump => if on then "启动" else "停止"
    case Heater => if on then "加热" else "停止"
    case AirCooling => if on then "启动" else "停止"
    case Leveling1 => if on then "启动" else "停止"
    case Leveling2 => if on then "启动" else "停止"
  }

  /**
   * Where the control byte lives and which bit holds each flag. The header
   * that the current revision compiles against does not declare these
   * constants, so they are parameters; `WellFormed` is all the code needs of
   * them, and `DEFAULT_LAYOUT` is the layout the comments describe.
   */
  datatype ControlLayout = ControlLayout(controlByte: nat, modeBit: nat, emergencyBit: nat,
    pumpBit: nat, heaterBit: nat, coolingBit: nat, leveling1Bit: nat, leveling2Bit: nat)
  {
    function BitOf(f: Flag): nat
    {
      match f
      case OperationMode => modeBit
      case EmergencyStop => emergencyBit
      case OilPump => pumpBit
      case Heater => heaterBit
      case AirCooling => coolingBit
      case Leveling1 => leveling1Bit
      case Leveling2 => leveling2Bit
    }

    predicate WellFormed()
    {
      && controlByte < VB_SIZE
      && controlByte != VB_CYLINDER_STATE && controlByte != VB_LIFT_PLATFORM1
      && controlByte != VB_LIFT_PLATFORM2 && controlByte != VB_ALARM
      && modeBit < 8 && emergencyBit < 8 && pumpBit < 8 && heaterBit < 8
      && coolingBit < 8 && leveling1Bit < 8 && leveling2Bit < 8
      && (forall f, g :: f != g ==> BitOf(f) != BitOf(g))
    }
  }

  /** Control byte at VB1000, flags in bits 0 to 6 in declaration order. */
  const DEFAULT_LAYOUT := ControlLayout(VB_OPERATION_MODE, 0, 1, 2, 3, 4, 5, 6)

  lemma DefaultLayoutWellFormed()
    ensures DEFAULT_LAYOUT.WellFormed()
  {
  }

  // ---------------------------------------------------------------------------
  // State tables
  // ---------------------------------------------------------------------------

  const UNKNOWN_STATE := "未知状态"

  predicate IsStateCode(v: bv8) { v == 1 || v == 2 || v == 4 || v == 8 }

  /** The cylinder label of a known code, read backwards. */
  function CylinderCode(name: string): Option<bv8>
  {
    if name == "下降停止" then Some(1)
    else if name == "下降加压" then Some(2)
    else if name == "上升停止" then Some(4)
    else if name == "上升加压" then Some(8)
    else None
  }

  /** The rigid/flexible cylinder byte: four known codes, everything else unknown. */
  function DecodeCylinder(v: bv8): (r: string)
    ensures r == UNKNOWN_STATE <==> !IsStateCode(v)
    ensures CylinderCode(r) == if IsStateCode(v) then Some(v) else None
  {
    if v == 1 then "下降停止"
    else if v == 2 then "下降加压"
    else if v == 4 then "上升停止"
    else if v == 8 then "上升加压"
    else UNKNOWN_STATE
  }

  /** A platform label of a known code, read backwards. */
  function PlatformCode(name: string): Option<bv8>
  {
    if name == "上升" then Some(1)
    else if name == "上升停止" then Some(2)
    else if name == "下降" then Some(4)
    else if name == "下降停止" then Some(8)
    else None
  }

  /** The table both lift platforms share. */
  function DecodePlatform(v: bv8): (r: string)
    ensures r == UNKNOWN_STATE <==> !IsStateCode(v)
    ensures PlatformCode(r) == if IsStateCode(v) then Some(v) else None
  {
    if v == 1 then "上升"
    else if v == 2 then "上升停止"
    else if v == 4 then "下降"
    else if v == 8 then "下降停止"
    else UNKNOWN_STATE
  }

  // ---------------------------------------------------------------------------
  // The alarm byte
  // ---------------------------------------------------------------------------

  const NO_ALARM := "油温低"
  const UNKNOWN_ALARM := "未知报警"

  /** Labels of the alarm bits 0x01, 0x02, 0x04 and 0x08, in priority order. */
  const ALARM_BIT_LABELS := ["油温高", "液位低", "液位高", "滤芯堵"]

  /** The lowest of bits `from`..3 that is set in `v`, if any. */
  function LowestAlarmBit(v: bv8, from: nat): (r: Option<nat>)
    requires from <= 4
    ensures r.Some? ==> from <= r.value < 4 && TestBit(v, r.value)
    ensures r.Some? ==> forall b :: from <= b < r.value ==> !TestBit(v, b)
    ensures r.None? ==> forall b :: from <= b < 4 ==> !TestBit(v, b)
    decreases 4 - from
  {
    if from == 4 then None
    else if TestBit(v, from) then Some(from)
    else LowestAlarmBit(v, from + 1)
  }

  /** The alarm status text: zero is "oil temperature low", otherwise the lowest of the four alarm bits decides. */
  function DecodeAlarm(v: bv8): (r: string)
    ensures v == 0 ==> r == NO_ALARM
    ensures v != 0 ==> r == match LowestAlarmBit(v, 0)
                            case Some(b) => ALARM_BIT_LABELS[b]
                            case None => UNKNOWN_ALARM
  {
    if v == 0 then NO_ALARM
    else if v & 0x01 != 0 then "油温高"
    else if v & 0x02 != 0 then "液位低"
    else if v & 0x04 != 0 then "液位高"
    else if v & 0x08 != 0 then "滤芯堵"
    else UNKNOWN_ALARM
  }

  /** A non-zero byte with none of the four alarm bits is an unknown alarm, whatever its upper bits. */
  lemma UnknownAlarmExactly(v: bv8)
    ensures DecodeAlarm(v) == UNKNOWN_ALARM <==> v != 0 && v & 0x0F == 0
  {
    var r := LowestAlarmBit(v, 0);
    if v != 0 && v & 0x0F != 0 {
      assert TestBit(v, 0) || TestBit(v, 1) || TestBit(v, 2) || TestBit(v, 3);
      assert r.Some?;
    }
    if v != 0 && v & 0x0F == 0 {
      assert !TestBit(v, 0) && !TestBit(v, 1) && !TestBit(v, 2) && !TestBit(v, 3);
    }
  }

  // ---------------------------------------------------------------------------
  // Merging two registers
  // ---------------------------------------------------------------------------

  /** The two 16-bit registers of one VD read, in the order they arrive. */
  datatype RegisterPair = RegisterPair(high: bv16, low: bv16)

  /** `(register_values[0] << 16) | register_values[1]`: the first register is the high half. */
  function CombineRegisters(high: bv16, low: bv16): bv32
  {
    (high as bv32 << 16) | low as bv32
  }

  function SplitWord(w: bv32): RegisterPair
  {
    RegisterPair((w >> 16) as bv16, (w & 0xFFFF) as bv16)
  }

  /** The upper half of the merged word is the first register and the lower half the second. */
  lemma CombineHalves(high: bv16, low: bv16)
    ensures CombineRegisters(high, low) >> 16 == high as bv32
    ensures CombineRegisters(high, low) & 0xFFFF == low as bv32
  {
  }

  lemma HighHalfReadsBack(high: bv16, low: bv16)
    ensures (CombineRegisters(high, low) >> 16) as bv16 == high
  {
  }

  lemma LowHalfReadsBack(high: bv16, low: bv16)
    ensures (CombineRegisters(high, low) & 0xFFFF) as bv16 == low
  {
  }

  /** Merging loses nothing: both registers can be read back from the word. */
  lemma SplitCombine(high: bv16, low: bv16)
    ensures SplitWord(CombineRegisters(high, low)) == RegisterPair(high, low)
  {
    HighHalfReadsBack(high, low);
    LowHalfReadsBack(high, low);
  }

  /** Every 32-bit word is the merge of exactly one register pair. */
  lemma CombineSplit(w: bv32)
    ensures CombineRegisters(SplitWord(w).high, SplitWord(w).low) == w
  {
  }

  // ---------------------------------------------------------------------------
  // Operation names and M coils
  // ---------------------------------------------------------------------------

  /** The Modbus coil number of Siemens bit Mbyte.bit. */
  function MCoil(byteIndex: nat, bit: nat): nat
    requires bit < 8
  {
    byteIndex * 8 + bit
  }

  const FIRST_COIL := MCoil(22, 1)
  const LAST_COIL := MCoil(23, 2)

  /** The name of each coil from M22.1 to M23.2, in coil order. */
  const COIL_COMMANDS := ["刚性支撑", "柔性复位", "平台1上升", "平台1下降", "平台2上升",
    "平台2下降", "平台1调平", "平台1调平复位", "平台2调平", "平台2调平复位"]

  /** The second name each coil answers to (the same name where there is none). */
  const COIL_SYNONYMS := ["刚性支撑", "柔性复位", "平台1升高", "平台1复位", "平台2升高",
    "平台2复位", "1号平台调平", "1号平台调平复位", "2号平台调平", "2号平台调平复位"]

  /** The coil `execute_operation` writes for an operation name, or None when it has no such operation. */
  function CoilFor(op: string): (r: Option<nat>)
    ensures r.Some? ==> FIRST_COIL <= r.value <= LAST_COIL
    ensures r.Some? ==> op == COIL_COMMANDS[r.value - FIRST_COIL] || op == COIL_SYNONYMS[r.value - FIRST_COIL]
  {
    if op == "刚性支撑" then Some(MCoil(22, 1))
    else if op == "柔性复位" then Some(MCoil(22, 2))
    else if op == "平台1上升" || op == "平台1升高" then Some(MCoil(22, 3))
    else if op == "平台1下降" || op == "平台1复位" then Some(MCoil(22, 4))
    else if op == "平台2上升" || op == "平台2升高" then Some(MCoil(22, 5))
    else if op == "平台2下降" || op == "平台2复位" then Some(MCoil(22, 6))
    else if op == "平台1调平" || op == "1号平台调平" then Some(MCoil(22, 7))
    else if op == "平台1调平复位" || op == "1号平台调平复位" then Some(MCoil(23, 0))
    else if op == "平台2调平" || op == "2号平台调平" then Some(MCoil(23, 1))
    else if op == "平台2调平复位" || op == "2号平台调平复位" then Some(MCoil(23, 2))
    else None
  }

  /** The first name of every coil in the range is recognised and reaches that coil. */
  lemma CoilCommandsReachCoil(coil: nat)
    requires FIRST_COIL <= coil <= LAST_COIL
    ensures CoilFor(COIL_COMMANDS[coil - FIRST_COIL]) == Some(coil)
  {
    var i := coil - FIRST_COIL;
    if i == 0 {} else if i == 1 {} else if i == 2 {} else if i == 3 {} else if i == 4 {}
    else if i == 5 {} else if i == 6 {} else if i == 7 {} else if i == 8 {} else {}
  }

  /** The second name of every coil in the range is recognised and reaches that coil. */
  lemma CoilSynonymsReachCoil(coil: nat)
    requires FIRST_COIL <= coil <= LAST_COIL
    ensures CoilFor(COIL_SYNONYMS[coil - FIRST_COIL]) == Some(coil)
  {
    var i := coil - FIRST_COIL;
    if i == 0 {} else if i == 1 {} else if i == 2 {} else if i == 3 {} else if i == 4 {}
    else if i == 5 {} else if i == 6 {} else if i == 7 {} else if i == 8 {} else {}
  }

  /** Two operation names that reach the same coil are that coil's two names. */
  lemma SameCoilSameCommand(a: string, b: string)
    requires CoilFor(a).Some? && CoilFor(a) == CoilFor(b)
    ensures var i := CoilFor(a).value - FIRST_COIL;
      {a, b} <= {COIL_COMMANDS[i], COIL_SYNONYMS[i]}
  {
  }

  // ---------------------------------------------------------------------------
  // The parsed device state
  // ---------------------------------------------------------------------------

  /** Number of 32-bit VD words the manager keeps (VD1010 to VD1030, four bytes apart). */
  const VD_COUNT := 6
  const VD_CYLINDER_PRESSURE := 0
  const VD_LIFT_PRESSURE := 1
  const VD_PLATFORM1_TILT := 2
  const VD_PLATFORM2_TILT := 3
  const VD_PLATFORM1_POS := 4
  const VD_PLATFORM2_POS := 5

  /**
   * The readable fields of `DeviceState` that `parse_raw_values` assigns.
   * The six measurements stop at the raw 32-bit word.
   */
  datatype ParsedState = ParsedState(
    operationMode: string, emergencyStop: string, oilPumpStatus: string, heaterStatus: string,
    coolingStatus: string, leveling1Status: string, leveling2Status: string,
    cylinderState: string, platform1State: string, platform2State: string, alarmStatus: string,
    cylinderPressure: bv32, liftPressure: bv32, platform1TiltAngle: bv32,
    platform2TiltAngle: bv32, platform1Position: bv32, platform2Position: bv32)
  {
    function FlagText(f: Flag): string
    {
      match f
      case OperationMode => operationMode
      case EmergencyStop => emergencyStop
      case OilPump => oilPumpStatus
      case Heater => heaterStatus
      case AirCooling => coolingStatus
      case Leveling1 => leveling1Status
      case Leveling2 => leveling2Status
    }
  }

  const EMPTY_STATE := ParsedState("", "", "", "", "", "", "", "", "", "", "", 0, 0, 0, 0, 0, 0)

  /** What `parse_raw_values` derives from the byte bank and the VD words. */
  function Parse(vb: seq<bv8>, vd: seq<bv32>, layout: ControlLayout): ParsedState
    requires |vb| == VB_SIZE && |vd| == VD_COUNT && layout.WellFormed()
  {
    var control := vb[layout.controlByte];
    ParsedState(
      FlagLabel(OperationMode, TestBit(control, layout.modeBit)),
      FlagLabel(EmergencyStop, TestBit(control, layout.emergencyBit)),
      FlagLabel(OilPump, TestBit(control, layout.pumpBit)),
      FlagLabel(Heater, TestBit(control, layout.heaterBit)),
      FlagLabel(AirCooling, TestBit(control, layout.coolingBit)),
      FlagLabel(Leveling1, TestBit(control, layout.leveling1Bit)),
      FlagLabel(Leveling2, TestBit(control, layout.leveling2Bit)),
      DecodeCylinder(vb[VB_CYLINDER_STATE]),
      DecodePlatform(vb[VB_LIFT_PLATFORM1]),
      DecodePlatform(vb[VB_LIFT_PLATFORM2]),
      DecodeAlarm(vb[VB_ALARM]),
      vd[VD_CYLINDER_PRESSURE], vd[VD_LIFT_PRESSURE], vd[VD_PLATFORM1_TILT],
      vd[VD_PLATFORM2_TILT], vd[VD_PLATFORM1_POS], vd[VD_PLATFORM2_POS])
  }

  lemma ParseFlagText(vb: seq<bv8>, vd: seq<bv32>, layout: ControlLayout, f: Flag)
    requires |vb| == VB_SIZE && |vd| == VD_COUNT && layout.WellFormed()
    ensures Parse(vb, vd, layout).FlagText(f) == FlagLabel(f, TestBit(vb[layout.controlByte], layout.BitOf(f)))
  {
  }

  /**
   * Each flag's text depends on its own bit only: setting or clearing the bit
   * of flag `f` in the control byte sets `f`'s text to the matching label and
   * leaves every other text and every measurement as it was.
   */
  lemma FlagDependsOnOwnBit(vb: seq<bv8>, vd: seq<bv32>, layout: ControlLayout, f: Flag, on: bool)
    requires |vb| == VB_SIZE && |vd| == VD_COUNT && layout.WellFormed()
    ensures var cb := layout.controlByte;
      var before := Parse(vb, vd, layout);
      var after := Parse(vb[cb := WithBit(vb[cb], layout.BitOf(f), on)], vd, layout);
      && after.FlagText(f) == FlagLabel(f, on)
      && (forall g :: g != f ==> after.FlagText(g) == before.FlagText(g))
      && after.(operationMode := "", emergencyStop := "", oilPumpStatus := "", heaterStatus := "",
                coolingStatus := "", leveling1Status := "", leveling2Status := "")
         == before.(operationMode := "", emergencyStop := "", oilPumpStatus := "", heaterStatus := "",
                coolingStatus := "", leveling1Status := "", leveling2Status := "")
  {
    var cb := layout.controlByte;
    var v := vb[cb];
    var vb' := vb[cb := WithBit(v, layout.BitOf(f), on)];
    assert layout.BitOf(f) < 8;
    ParseFlagText(vb', vd, layout, f);
    WithBitSetsBit(v, layout.BitOf(f), on);
    forall g | g != f
      ensures Parse(vb', vd, layout).FlagText(g) == Parse(vb, vd, layout).FlagText(g)
    {
      assert layout.BitOf(g) < 8 && layout.BitOf(g) != layout.BitOf(f);
      WithBitKeepsOtherBits(v, layout.BitOf(f), layout.BitOf(g), on);
      ParseFlagText(vb', vd, layout, g);
      ParseFlagText(vb, vd, layout, g);
    }
  }

  // ---------------------------------------------------------------------------
  // Reading: the replies of one `read_plc_data` pass
  // ---------------------------------------------------------------------------

  /** The byte cells read, in the order they are requested. */
  function ByteAddresses(layout: ControlLayout): seq<nat>
  {
    [layout.controlByte, VB_CYLINDER_STATE, VB_LIFT_PLATFORM1, VB_LIFT_PLATFORM2, VB_ALARM]
  }

  const BYTE_READS := 5

  /** How many replies succeed before the first failure. */
  function Answered<T>(replies: seq<Option<T>>): (n: nat)
    ensures n <= |replies|
    ensures forall i :: 0 <= i < n ==> replies[i].Some?
    ensures n < |replies| ==> replies[n].None?
  {
    if replies == [] || replies[0].None? then 0
    else
      var n := 1 + Answered(replies[1..]);
      assert forall i :: 1 <= i < n ==> replies[i] == replies[1..][i - 1];
      n
  }

  /** The byte bank after the first `n` replies are stored at their addresses. */
  function StorePrefix(cells: seq<bv8>, addrs: seq<nat>, replies: seq<Option<bv8>>, n: nat): (r: seq<bv8>)
    requires |addrs| == |replies| && n <= Answered(replies)
    requires forall i :: 0 <= i < |addrs| ==> addrs[i] < |cells|
    ensures |r| == |cells|
  {
    if n == 0 then cells
    else StorePrefix(cells, addrs, replies, n - 1)[addrs[n - 1] := replies[n - 1].value]
  }

  /** Stored values stay stored: every answered address holds its reply and no other cell changes. */
  lemma {:induction false} StorePrefixStores(cells: seq<bv8>, addrs: seq<nat>, replies: seq<Option<bv8>>, n: nat)
    requires |addrs| == |replies| && n <= Answered(replies)
    requires forall i :: 0 <= i < |addrs| ==> addrs[i] < |cells|
    requires forall i, j :: 0 <= i < j < |addrs| ==> addrs[i] != addrs[j]
    ensures forall i :: 0 <= i < n ==> StorePrefix(cells, addrs, replies, n)[addrs[i]] == replies[i].value
    ensures forall a :: 0 <= a < |cells| && a !in addrs[..n] ==> StorePrefix(cells, addrs, replies, n)[a] == cells[a]
  {
    if n > 0 {
      StorePrefixStores(cells, addrs, replies, n - 1);
      assert addrs[..n] == addrs[..n - 1] + [addrs[n - 1]];
    }
  }

  /** The VD words after the first `n` register pairs are merged into their slots. */
  function WordPrefix(vd: seq<bv32>, replies: seq<Option<RegisterPair>>, n: nat): (r: seq<bv32>)
    requires n <= Answered(replies) && n <= |vd|
    ensures |r| == |vd|
  {
    if n == 0 then vd
    else WordPrefix(vd, replies, n - 1)[n - 1 := CombineRegisters(replies[n - 1].value.high, replies[n - 1].value.low)]
  }

  lemma {:induction false} WordPrefixStores(vd: seq<bv32>, replies: seq<Option<RegisterPair>>, n: nat)
    requires n <= Answered(replies) && n <= |vd|
    ensures forall i :: 0 <= i < n ==> WordPrefix(vd, replies, n)[i] == CombineRegisters(replies[i].value.high, replies[i].value.low)
    ensures forall i :: n <= i < |vd| ==> WordPrefix(vd, replies, n)[i] == vd[i]
  {
    if n > 0 {
      WordPrefixStores(vd, replies, n - 1);
    }
  }

  /** Number of Modbus read requests one pass sends when the link is up: it stops after the first failure. */
  function RequestsSent(bytes: seq<Option<bv8>>, words: seq<Option<RegisterPair>>): nat
  {
    if Answered(bytes) < |bytes| then Answered(bytes) + 1
    else if Answered(words) < |words| then |bytes| + Answered(words) + 1
    else |bytes| + |words|
  }

  predicate ReadSucceeds(bytes: seq<Option<bv8>>, words: seq<Option<RegisterPair>>)
  {
    Answered(bytes) == |bytes| && Answered(words) == |words|
  }

  /** The byte bank after one pass over the replies `bytes`; with the link down nothing is read. */
  function BytesAfterPass(vb: seq<bv8>, layout: ControlLayout, linkUp: bool, bytes: seq<Option<bv8>>): seq<bv8>
    requires |vb| == VB_SIZE && layout.WellFormed() && |bytes| == BYTE_READS
  {
    if linkUp then StorePrefix(vb, ByteAddresses(layout), bytes, Answered(bytes)) else vb
  }

  /** The VD words after one pass: the register pairs are read only once every byte read succeeded. */
  function WordsAfterPass(vd: seq<bv32>, linkUp: bool, bytes: seq<Option<bv8>>, words: seq<Option<RegisterPair>>): seq<bv32>
    requires |vd| == VD_COUNT && |words| == VD_COUNT
  {
    if linkUp && Answered(bytes) == |bytes| then WordPrefix(vd, words, Answered(words)) else vd
  }

  // ---------------------------------------------------------------------------
  // The manager
  // ---------------------------------------------------------------------------

  class PlcManager {
    /** `m_is_connected` */
    var connected: bool
    /** `m_modbus_ctx != nullptr` */
    var hasContext: bool
    const layout: ControlLayout
    /** The raw banks of `m_current_state`. */
    const image: RawData
    /** The VD words of `m_current_state`, as raw 32-bit words. */
    var vd: seq<bv32>
    /** The readable fields of `m_current_state`. */
    var state: ParsedState

    ghost predicate Valid()
      reads this, image
    {
      image.Valid() && |vd| == VD_COUNT && layout.WellFormed()
    }

    predicate LinkUp()
      reads this
    {
      connected && hasContext
    }

    /** The constructor zeroes the image, starts disconnected and tries one connection. */
    constructor (layout: ControlLayout, newTcpOk: bool, connectOk: bool)
      requires layout.WellFormed()
      ensures Valid() && fresh(image) && this.layout == layout
      ensures forall a :: 0 <= a < VB_SIZE ==> image.vb[a] == 0
      ensures forall a :: 0 <= a < VW_SIZE ==> image.vw[a] == 0
      ensures connected == hasContext == (newTcpOk && connectOk)
    {
      this.layout := layout;
      image := new RawData();
      vd := [0, 0, 0, 0, 0, 0];
      state := EMPTY_STATE;
      connected := false;
      hasContext := false;
      new;
      var _ := Connect(newTcpOk, connectOk);
    }

    /**
     * `connect_plc`: any old context is released first. When the library
     * cannot create a context the call fails and leaves the connected flag
     * as it was; when the connection attempt fails both are cleared.
     */
    method Connect(newTcpOk: bool, connectOk: bool) returns (ok: bool)
      modifies this`connected, this`hasContext
      ensures ok == (newTcpOk && connectOk)
      ensures hasContext == ok
      ensures connected == if newTcpOk then ok else old(connected)
    {
      hasContext := false;
      if !newTcpOk {
        return false;
      }
      hasContext := true;
      if !connectOk {
        hasContext := false;
        connected := false;
        return false;
      }
      connected := true;
      return true;
    }

    /** `disconnect_plc`: only an existing context is closed, and only then is the flag cleared. */
    method Disconnect()
      modifies this`connected, this`hasContext
      ensures !hasContext && !LinkUp()
      ensures connected == (old(connected) && !old(hasContext))
    {
      if hasContext {
        hasContext := false;
        connected := false;
      }
    }

    /** `parse_raw_values`: every readable field is recomputed from the image. */
    method ParseRawValues()
      requires Valid()
      modifies this`state
      ensures state == Parse(image.vb[..], vd, layout)
    {
      var cb := layout.controlByte;
      state := state.(operationMode := FlagLabel(OperationMode, image.IsBitSet(cb, layout.modeBit)));
      state := state.(emergencyStop := FlagLabel(EmergencyStop, image.IsBitSet(cb, layout.emergencyBit)));
      state := state.(oilPumpStatus := FlagLabel(OilPump, image.IsBitSet(cb, layout.pumpBit)));
      state := state.(heaterStatus := FlagLabel(Heater, image.IsBitSet(cb, layout.heaterBit)));
      state := state.(coolingStatus := FlagLabel(AirCooling, image.IsBitSet(cb, layout.coolingBit)));
      state := state.(leveling1Status := FlagLabel(Leveling1, image.IsBitSet(cb, layout.leveling1Bit)));
      state := state.(leveling2Status := FlagLabel(Leveling2, image.IsBitSet(cb, layout.leveling2Bit)));
      state := state.(cylinderState := DecodeCylinder(image.GetVB(VB_CYLINDER_STATE)));
      state := state.(platform1State := DecodePlatform(image.GetVB(VB_LIFT_PLATFORM1)));
      state := state.(platform2State := DecodePlatform(image.GetVB(VB_LIFT_PLATFORM2)));
      state := state.(alarmStatus := DecodeAlarm(image.GetVB(VB_ALARM)));
      state := state.(cylinderPressure := vd[VD_CYLINDER_PRESSURE]);
      state := state.(liftPressure := vd[VD_LIFT_PRESSURE]);
      state := state.(platform1TiltAngle := vd[VD_PLATFORM1_TILT]);
      state := state.(platform2TiltAngle := vd[VD_PLATFORM2_TILT]);
      state := state.(platform1Position := vd[VD_PLATFORM1_POS]);
      state := state.(platform2Position := vd[VD_PLATFORM2_POS]);
    }

    /**
     * `read_plc_data`: five byte reads, then six two-register reads, each
     * stored as soon as it arrives; the first failing read ends the pass with
     * false and nothing after it is requested. A complete pass parses.
     * `bytes` and `words` are the link's replies to those requests.
     */
    method ReadPlcData(bytes: seq<Option<bv8>>, words: seq<Option<RegisterPair>>) returns (ok: bool, requests: nat)
      requires Valid() && |bytes| == BYTE_READS && |words| == VD_COUNT
      modifies image.vb, this`vd, this`state
      ensures Valid()
      ensures ok <==> LinkUp() && ReadSucceeds(bytes, words)
      ensures requests == if LinkUp() then RequestsSent(bytes, words) else 0
      ensures image.vb[..] == if LinkUp() then StorePrefix(old(image.vb[..]), ByteAddresses(layout), bytes, Answered(bytes))
                              else old(image.vb[..])
      ensures vd == if LinkUp() && Answered(bytes) == BYTE_READS then WordPrefix(old(vd), words, Answered(words))
                    else old(vd)
      ensures state == if ok then Parse(image.vb[..], vd, layout) else old(state)
      ensures image.vw[..] == old(image.vw[..])
    {
      if !connected || !hasContext {
        return false, 0;
      }
      var answered := ReadBytes(bytes);
      if answered < BYTE_READS {
        return false, answered + 1;
      }
      answered := ReadWords(words);
      if answered < VD_COUNT {
        return false, BYTE_READS + answered + 1;
      }
      ParseRawValues();
      return true, BYTE_READS + VD_COUNT;
    }

    /** The byte half of `read_plc_data`: each reply is stored at its address until the first failure. */
    method ReadBytes(bytes: seq<Option<bv8>>) returns (answered: nat)
      requires Valid() && |bytes| == BYTE_READS
      modifies image.vb
      ensures answered == Answered(bytes)
      ensures image.vb[..] == StorePrefix(old(image.vb[..]), ByteAddresses(layout), bytes, answered)
      ensures image.vw[..] == old(image.vw[..])
    {
      ghost var cells := image.vb[..];
      var addrs := ByteAddresses(layout);
      var i := 0;
      while i < BYTE_READS
        invariant 0 <= i <= BYTE_READS && i <= Answered(bytes)
        invariant image.vb[..] == StorePrefix(cells, addrs, bytes, i)
        invariant image.vw[..] == old(image.vw[..])
      {
        if bytes[i].None? {
          return i;
        }
        image.SetVB(addrs[i], bytes[i].value);
        i := i + 1;
      }
      return i;
    }

    /** The word half of `read_plc_data`: each register pair is merged into its slot until the first failure. */
    method ReadWords(words: seq<Option<RegisterPair>>) returns (answered: nat)
      requires |vd| == VD_COUNT && |words| == VD_COUNT
      modifies this`vd
      ensures answered == Answered(words)
      ensures vd == WordPrefix(old(vd), words, answered)
    {
      ghost var vd0 := vd;
      var j := 0;
      while j < VD_COUNT
        invariant 0 <= j <= VD_COUNT && j <= Answered(words) && |vd| == VD_COUNT
        invariant vd == WordPrefix(vd0, words, j)
      {
        if words[j].None? {
          return j;
        }
        vd := vd[j := CombineRegisters(words[j].value.high, words[j].value.low)];
        j := j + 1;
      }
      return j;
    }

    /**
     * `get_current_state`: one read; if it fails, one reconnection and, only
     * if that succeeds, one more read; then the image is parsed in every case.
     */
    method GetCurrentState(first: seq<Option<bv8>>, firstWords: seq<Option<RegisterPair>>,
                           newTcpOk: bool, connectOk: bool,
                           second: seq<Option<bv8>>, secondWords: seq<Option<RegisterPair>>)
      returns (s: ParsedState, passes: nat, reconnects: nat)
      requires Valid()
      requires |first| == |second| == BYTE_READS && |firstWords| == |secondWords| == VD_COUNT
      modifies image.vb, this`vd, this`state, this`connected, this`hasContext
      ensures Valid()
      ensures s == state == Parse(image.vb[..], vd, layout)
      ensures reconnects == if old(LinkUp()) && ReadSucceeds(first, firstWords) then 0 else 1
      ensures passes == 1 + (if reconnects == 1 && newTcpOk && connectOk then 1 else 0)
      ensures passes <= 2 && reconnects <= 1
      ensures image.vb[..] == if reconnects == 0 then BytesAfterPass(old(image.vb[..]), layout, old(LinkUp()), first)
                              else BytesAfterPass(BytesAfterPass(old(image.vb[..]), layout, old(LinkUp()), first),
                                                  layout, newTcpOk && connectOk, second)
      ensures vd == if reconnects == 0 then WordsAfterPass(old(vd), old(LinkUp()), first, firstWords)
                    else WordsAfterPass(WordsAfterPass(old(vd), old(LinkUp()), first, firstWords),
                                        newTcpOk && connectOk, second, secondWords)
      ensures image.vw[..] == old(image.vw[..])
      ensures reconnects == 0 ==> connected == old(connected) && hasContext == old(hasContext)
      ensures reconnects == 1 ==> hasContext == (newTcpOk && connectOk)
                                  && connected == if newTcpOk then connectOk else old(connected)
    {
      passes, reconnects := Refresh(first, firstWords, newTcpOk, connectOk, second, secondWords);
      ParseRawValues();
      s := state;
    }

    /** The reading half of `get_current_state`: one pass and, when it fails, the retry. */
    method Refresh(first: seq<Option<bv8>>, firstWords: seq<Option<RegisterPair>>,
                   newTcpOk: bool, connectOk: bool,
                   second: seq<Option<bv8>>, secondWords: seq<Option<RegisterPair>>)
      returns (passes: nat, reconnects: nat)
      requires Valid()
      requires |first| == |second| == BYTE_READS && |firstWords| == |secondWords| == VD_COUNT
      modifies image.vb, this`vd, this`state, this`connected, this`hasContext
      ensures Valid()
      ensures reconnects == if old(LinkUp()) && ReadSucceeds(first, firstWords) then 0 else 1
      ensures passes == 1 + (if reconnects == 1 && newTcpOk && connectOk then 1 else 0)
      ensures passes <= 2 && reconnects <= 1
      ensures image.vb[..] == if reconnects == 0 then BytesAfterPass(old(image.vb[..]), layout, old(LinkUp()), first)
                              else BytesAfterPass(BytesAfterPass(old(image.vb[..]), layout, old(LinkUp()), first),
                                                  layout, newTcpOk && connectOk, second)
      ensures vd == if reconnects == 0 then WordsAfterPass(old(vd), old(LinkUp()), first, firstWords)
                    else WordsAfterPass(WordsAfterPass(old(vd), old(LinkUp()), first, firstWords),
                                        newTcpOk && connectOk, second, secondWords)
      ensures image.vw[..] == old(image.vw[..])
      ensures reconnects == 0 ==> connected == old(connected) && hasContext == old(hasContext)
      ensures reconnects == 1 ==> hasContext == (newTcpOk && connectOk)
                                  && connected == if newTcpOk then connectOk else old(connected)
    {
      var ok, _ := ReadPlcData(first, firstWords);
      passes, reconnects := 1, 0;
      if !ok {
        reconnects := 1;
        passes := Reconnect(newTcpOk, connectOk, second, secondWords);
      }
    }

    /** The retry half of `get_current_state`: reconnect, and read once more only if that succeeded. */
    method Reconnect(newTcpOk: bool, connectOk: bool, second: seq<Option<bv8>>, secondWords: seq<Option<RegisterPair>>)
      returns (passes: nat)
      requires Valid() && |second| == BYTE_READS && |secondWords| == VD_COUNT
      modifies image.vb, this`vd, this`state, this`connected, this`hasContext
      ensures Valid()
      ensures passes == if newTcpOk && connectOk then 2 else 1
      ensures image.vb[..] == BytesAfterPass(old(image.vb[..]), layout, newTcpOk && connectOk, second)
      ensures vd == WordsAfterPass(old(vd), newTcpOk && connectOk, second, secondWords)
      ensures image.vw[..] == old(image.vw[..])
      ensures hasContext == (newTcpOk && connectOk) && connected == if newTcpOk then connectOk else old(connected)
    {
      passes := 1;
      var linked := Connect(newTcpOk, connectOk);
      if linked {
        var _, _ := ReadPlcData(second, secondWords);
        passes := 2;
      }
    }

    /**
     * `execute_operation`: with no link nothing is written; a name outside
     * the table writes nothing; otherwise the one coil of that name is
     * switched on, and the result is whether the write did not return -1.
     * Every branch writes the value 1 (ON), so a write is fully described by
     * its coil: `written` is the coil set to 1, if any, and no other coil and
     * no other value is ever written.
     */
    method ExecuteOperation(op: string, writeResult: int) returns (ok: bool, written: Option<nat>)
      ensures written == if LinkUp() then CoilFor(op) else None
      ensures ok <==> written.Some? && writeResult != -1
    {
      if !connected || !hasContext {
        return false, None;
      }
      var coil := CoilFor(op);
      if coil.None? {
        return false, None;
      }
      written := coil;
      ok := writeResult != -1;
    }
  }

  /** Every byte address a pass stores to is inside the bank, and no two coincide. */
  lemma ByteAddressesDistinct(layout: ControlLayout)
    requires layout.WellFormed()
    ensures forall i :: 0 <= i < |ByteAddresses(layout)| ==> ByteAddresses(layout)[i] < VB_SIZE
    ensures forall i, j :: 0 <= i < j < |ByteAddresses(layout)| ==> ByteAddresses(layout)[i] != ByteAddresses(layout)[j]
  {
  }
}
