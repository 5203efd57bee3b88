/**
 * The raw register image of include/common.h: a bank of 2000 byte (VB) cells
 * and a bank of 200 signed 16-bit word (VW) cells, the fixed addresses the
 * controller's memory map assigns to them, and the accessors that read a
 * cell, write a cell, test one bit of a byte cell and set or clear it.
 */
module RegisterImage {

  const VB_SIZE := 2000
  const VW_SIZE := 200

  // VB (byte) addresses
  const VB_OPERATION_MODE := 1000
  const VB_EMERGENCY_STOP := 1001
  const VB_OIL_PUMP := 1002
  const VB_CYLINDER_STATE := 1003
  const VB_LIFT_PLATFORM1 := 1004
  const VB_LIFT_PLATFORM2 := 1005
  const VB_HEATER := 1006
  const VB_AIR_COOLING := 1007
  const VB_ALARM := 1008
  const VB_LEVELING := 1009

  // VW (word) addresses
  const VW_CYLINDER_PRESSURE := 100
  const VW_PLATFORM1_PRESSURE := 104
  const VW_PLATFORM2_PRESSURE := 108
  const VW_TILT_ANGLE := 112
  const VW_POSITION := 116

  const VB_ADDRESSES: seq<nat> := [VB_OPERATION_MODE, VB_EMERGENCY_STOP, VB_OIL_PUMP,
    VB_CYLINDER_STATE, VB_LIFT_PLATFORM1, VB_LIFT_PLATFORM2, VB_HEATER, VB_AIR_COOLING,
    VB_ALARM, VB_LEVELING]
  const VW_ADDRESSES: seq<nat> := [VW_CYLINDER_PRESSURE, VW_PLATFORM1_PRESSURE,
    VW_PLATFORM2_PRESSURE, VW_TILT_ANGLE, VW_POSITION]

  /** Every named address lies inside its bank, so no accessor call on one is out of bounds. */
  lemma AddressesInBounds()
    ensures forall i :: 0 <= i < |VB_ADDRESSES| ==> VB_ADDRESSES[i] < VB_SIZE
    ensures forall i :: 0 <= i < |VW_ADDRESSES| ==> VW_ADDRESSES[i] < VW_SIZE
  {
  }

  /** `int16_t`: the type of a VW cell. */
  newtype int16 = x: int | -0x8000 <= x < 0x8000

  /** `uint8_t` as a number, the type of an alarm reading. */
  newtype uint8 = x: int | 0 <= x < 0x100

  /** `uint16_t`: a Modbus holding register as it arrives. */
  newtype uint16 = x: int | 0 <= x < 0x10000

  // ---------------------------------------------------------------------------
  // Bits of a byte
  // ---------------------------------------------------------------------------

  function Pow2(n: nat): (p: nat)
    ensures p >= 1
  {
    if n == 0 then 1 else 2 * Pow2(n - 1)
  }

  /** Bit `b` of `v` in the ordinary binary expansion of the number `v`. */
  predicate BinaryDigitIsOne(v: bv8, b: nat)
  {
    (v as int / Pow2(b)) % 2 == 1
  }

  /** `(v & (1 << b)) != 0`, the test `isBitSet` applies to a byte cell. */
  predicate TestBit(v: bv8, b: nat)
    requires b < 8
  {
    v & (1 << b) != 0
  }

  /** `v | (1 << b)` when setting, `v & ~(1 << b)` when clearing, as `setBit` does. */
  function WithBit(v: bv8, b: nat, on: bool): bv8
    requires b < 8
  {
    if on then v | (1 << b) else v & !(1 << b)
  }

  lemma Weight0(v: bv8) ensures v & 1 != 0 <==> (v as int / 1) % 2 == 1 {}
  lemma Weight1(v: bv8) ensures v & 2 != 0 <==> (v as int / 2) % 2 == 1 {}
  lemma Weight2(v: bv8) ensures v & 4 != 0 <==> (v as int / 4) % 2 == 1 {}
  lemma Weight3(v: bv8) ensures v & 8 != 0 <==> (v as int / 8) % 2 == 1 {}
  lemma Weight4(v: bv8) ensures v & 16 != 0 <==> (v as int / 16) % 2 == 1 {}
  lemma Weight5(v: bv8) ensures v & 32 != 0 <==> (v as int / 32) % 2 == 1 {}
  lemma Weight6(v: bv8) ensures v & 64 != 0 <==> (v as int / 64) % 2 == 1 {}
  lemma Weight7(v: bv8) ensures v & 128 != 0 <==> (v as int / 128) % 2 == 1 {}

  /** The mask test of `isBitSet` is exactly "binary digit `b` of the byte is 1". */
  lemma TestBitIsBinaryDigit(v: bv8, b: nat)
    requires b < 8
    ensures TestBit(v, b) <==> BinaryDigitIsOne(v, b)
  {
    assert Pow2(0) == 1 && Pow2(1) == 2 && Pow2(2) == 4 && Pow2(3) == 8;
    assert Pow2(4) == 16 && Pow2(5) == 32 && Pow2(6) == 64 && Pow2(7) == 128;
    if b == 0 { Weight0(v); } else if b == 1 { Weight1(v); }
    else if b == 2 { Weight2(v); } else if b == 3 { Weight3(v); }
    else if b == 4 { Weight4(v); } else if b == 5 { Weight5(v); }
    else if b == 6 { Weight6(v); } else { Weight7(v); }
  }

  /** After setting or clearing bit `b`, the test of bit `b` reports exactly that. */
  lemma WithBitSetsBit(v: bv8, b: nat, on: bool)
    requires b < 8
    ensures TestBit(WithBit(v, b, on), b) == on
  {
  }

  /** Setting or clearing bit `b` leaves the other seven bits as they were. */
  lemma WithBitKeepsOtherBits(v: bv8, b: nat, c: nat, on: bool)
    requires b < 8 && c < 8 && b != c
    ensures TestBit(WithBit(v, b, on), c) == TestBit(v, c)
  {
  }

  /** Setting (or clearing) a bit twice is the same as doing it once. */
  lemma WithBitIdempotent(v: bv8, b: nat, on: bool)
    requires b < 8
    ensures WithBit(WithBit(v, b, on), b, on) == WithBit(v, b, on)
  {
  }

  /** A byte is determined by its eight bits. */
  lemma BitsDetermineByte(v: bv8, w: bv8)
    requires forall b :: 0 <= b < 8 ==> TestBit(v, b) == TestBit(w, b)
    ensures v == w
  {
    assert TestBit(v, 0) == TestBit(w, 0) && TestBit(v, 1) == TestBit(w, 1);
    assert TestBit(v, 2) == TestBit(w, 2) && TestBit(v, 3) == TestBit(w, 3);
    assert TestBit(v, 4) == TestBit(w, 4) && TestBit(v, 5) == TestBit(w, 5);
    assert TestBit(v, 6) == TestBit(w, 6) && TestBit(v, 7) == TestBit(w, 7);
  }

  // ---------------------------------------------------------------------------
  // DeviceState::RawData and its accessors
  // ---------------------------------------------------------------------------

  class RawData {
    var vb: array<bv8>
    var vw: array<int16>

    ghost predicate Valid()
      reads this
    {
      vb.Length == VB_SIZE && vw.Length == VW_SIZE
    }

    /** A fresh image is all zeros. */
    constructor ()
      ensures Valid() && fresh(vb) && fresh(vw)
      ensures forall a :: 0 <= a < VB_SIZE ==> vb[a] == 0
      ensures forall a :: 0 <= a < VW_SIZE ==> vw[a] == 0
    {
      vb := new bv8[VB_SIZE](_ => 0);
      vw := new int16[VW_SIZE](_ => 0);
    }

    function GetVB(address: nat): bv8
      requires Valid() && address < VB_SIZE
      reads this, vb
    {
      vb[address]
    }

    function GetVW(address: nat): int16
      requires Valid() && address < VW_SIZE
      reads this, vw
    {
      vw[address]
    }

    predicate IsBitSet(address: nat, bit: nat)
      requires Valid() && address < VB_SIZE && bit < 8
      reads this, vb
    {
      TestBit(vb[address], bit)
    }

    method SetVB(address: nat, value: bv8)
      requires Valid() && address < VB_SIZE
      modifies vb
      ensures GetVB(address) == value
      ensures vb[..] == old(vb[..])[address := value]
      ensures vw[..] == old(vw[..])
    {
      vb[address] := value;
    }

    method SetVW(address: nat, value: int16)
      requires Valid() && address < VW_SIZE
      modifies vw
      ensures GetVW(address) == value
      ensures vw[..] == old(vw[..])[address := value]
      ensures vb[..] == old(vb[..])
    {
      vw[address] := value;
    }

    method SetBit(address: nat, bit: nat, value: bool)
      requires Valid() && address < VB_SIZE && bit < 8
      modifies vb
      ensures IsBitSet(address, bit) == value
      ensures forall c :: 0 <= c < 8 && c != bit ==> IsBitSet(address, c) == old(IsBitSet(address, c))
      ensures vb[..] == old(vb[..])[address := WithBit(old(vb[address]), bit, value)]
      ensures vw[..] == old(vw[..])
    {
      if value {
        vb[address] := vb[address] | (1 << bit);
      } else {
        vb[address] := vb[address] & !(1 << bit);
      }
      WithBitSetsBit(old(vb[address]), bit, value);
      forall c | 0 <= c < 8 && c != bit
        ensures IsBitSet(address, c) == old(IsBitSet(address, c))
      {
        WithBitKeepsOtherBits(old(vb[address]), bit, c, value);
      }
    }
  }
}
