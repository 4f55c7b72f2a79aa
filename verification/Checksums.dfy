/** The CRC that ENet can put on its datagrams: table-driven, and as the division it stands for. */
module Checksums {
  import opened Collections
  import opened Shifts

  const ALL_ONES: bv32 := 0xFFFF_FFFF

  // ----- words

  function Xor(a: bv32, b: bv32): bv32 {
    a ^ b
  }

  function Or(a: bv32, b: bv32): bv32 {
    a | b
  }

  function Up(a: bv32): bv32 {
    a << 1
  }

  function Up8(a: bv32): bv32 {
    a << 8
  }

  function Up16(a: bv32): bv32 {
    a << 16
  }

  function Up24(a: bv32): bv32 {
    a << 24
  }

  function Down8(a: bv32): bv32 {
    a >> 8
  }

  function Down16(a: bv32): bv32 {
    a >> 16
  }

  function Down24(a: bv32): bv32 {
    a >> 24
  }

  predicate Low(a: bv32) {
    a & 1 != 0
  }

  predicate Top(a: bv32) {
    a & 0x8000_0000 != 0
  }

  /** The word with just this bit. */
  function Single(i: bv32): bv32
    requires i < 32
  {
    1 << i
  }

  /** C shifts its int to the right and keeps the sign. */
  function Halved(u: bv32): bv32 {
    (u >> 1) | (u & 0x8000_0000)
  }

  /** The lowest 8 bits of u, in reverse order. */
  function Reflected8(u: bv32): bv32 {
    var a := ((u & 0xF0) >> 4) | ((u & 0x0F) << 4);
    var b := ((a & 0xCC) >> 2) | ((a & 0x33) << 2);
    ((b & 0xAA) >> 1) | ((b & 0x55) << 1)
  }

  function Reflected32(u: bv32): bv32 {
    var a := (u >> 16) | (u << 16);
    var b := ((a & 0xFF00_FF00) >> 8) | ((a & 0x00FF_00FF) << 8);
    var c := ((b & 0xF0F0_F0F0) >> 4) | ((b & 0x0F0F_0F0F) << 4);
    var d := ((c & 0xCCCC_CCCC) >> 2) | ((c & 0x3333_3333) << 2);
    ((d & 0xAAAA_AAAA) >> 1) | ((d & 0x5555_5555) << 1)
  }

  /** Bit i of a reflected word is bit 31 - i of the word. */
  lemma Reflected32At(u: bv32, i: bv32)
    requires i < 32
    ensures (Reflected32(u) >> i) & 1 == (u >> (31 - i)) & 1
  {
  }

  lemma Reflected8At(u: bv32, i: bv32)
    requires i < 8
    ensures (Reflected8(u) >> i) & 1 == (u >> (7 - i)) & 1 && Reflected8(u) < 0x100
  {
  }

  lemma XorSwaps(a: bv32, b: bv32)
    ensures Xor(a, b) == Xor(b, a)
  {
  }

  lemma XorCancels(a: bv32, b: bv32)
    ensures Xor(Xor(a, b), b) == a && Xor(a, 0) == a
  {
  }

  lemma OrGroups(a: bv32, b: bv32, c: bv32)
    ensures Or(a, Or(b, c)) == Or(Or(a, b), c)
  {
  }

  lemma OrZero(a: bv32)
    ensures Or(a, 0) == a && Or(0, a) == a
  {
  }

  // ----- reflection

  /** What a loop over the lowest n bits of v, lowest first, puts together. */
  function Gathered(v: bv32, n: nat): bv32
    requires n <= 32
    decreases n
  {
    if n == 0 then 0 else Or(if Low(v) then Bit(n - 1) else 0, Gathered(Halved(v), n - 1))
  }

  function Bit(i: nat): bv32
    requires i < 32
  {
    Single(i as bv32)
  }

  function Pick(c: bool, a: bv32): bv32 {
    if c then a else 0
  }

  function Or8(a: bv32, b: bv32, c: bv32, d: bv32, e: bv32, f: bv32, g: bv32, h: bv32): bv32 {
    Or(Or(Or(Or(Or(Or(Or(a, b), c), d), e), f), g), h)
  }

  /** What eight rounds add: each of the lowest eight bits of v in its place. */
  function Fan(v: bv32, a: bv32, b: bv32, c: bv32, d: bv32, e: bv32, f: bv32, g: bv32, h: bv32): bv32 {
    Or8(Pick(v & 0x1 != 0, a), Pick(v & 0x2 != 0, b), Pick(v & 0x4 != 0, c), Pick(v & 0x8 != 0, d),
        Pick(v & 0x10 != 0, e), Pick(v & 0x20 != 0, f), Pick(v & 0x40 != 0, g), Pick(v & 0x80 != 0, h))
  }

  lemma Fan0(v: bv32)
    ensures Fan(v, 0x80, 0x40, 0x20, 0x10, 0x8, 0x4, 0x2, 0x1) == Reflected8(v) << 0
  {
  }

  lemma Fan8(v: bv32)
    ensures Fan(v, 0x8000, 0x4000, 0x2000, 0x1000, 0x800, 0x400, 0x200, 0x100) == Reflected8(v) << 8
  {
  }

  lemma Fan16(v: bv32)
    ensures Fan(v, 0x800000, 0x400000, 0x200000, 0x100000, 0x80000, 0x40000, 0x20000, 0x10000) == Reflected8(v) << 16
  {
  }

  lemma Fan24(v: bv32)
    ensures Reflected8(v) << 24 ==
            Fan(v, 0x80000000, 0x40000000, 0x20000000, 0x10000000, 0x8000000, 0x4000000, 0x2000000, 0x1000000)
  {
  }

  lemma BitsFrom0()
    ensures Bit(0) == 0x1 && Bit(1) == 0x2 && Bit(2) == 0x4 && Bit(3) == 0x8
    ensures Bit(4) == 0x10 && Bit(5) == 0x20 && Bit(6) == 0x40 && Bit(7) == 0x80
  {
  }

  lemma BitsFrom8()
    ensures Bit(8) == 0x100 && Bit(9) == 0x200 && Bit(10) == 0x400 && Bit(11) == 0x800
    ensures Bit(12) == 0x1000 && Bit(13) == 0x2000 && Bit(14) == 0x4000 && Bit(15) == 0x8000
  {
  }

  lemma BitsFrom16()
    ensures Bit(16) == 0x10000 && Bit(17) == 0x20000 && Bit(18) == 0x40000 && Bit(19) == 0x80000
    ensures Bit(20) == 0x100000 && Bit(21) == 0x200000 && Bit(22) == 0x400000 && Bit(23) == 0x800000
  {
  }

  lemma BitsFrom24()
    ensures Bit(24) == 0x1000000 && Bit(25) == 0x2000000 && Bit(26) == 0x4000000 && Bit(27) == 0x8000000
    ensures Bit(28) == 0x10000000 && Bit(29) == 0x20000000 && Bit(30) == 0x40000000 && Bit(31) == 0x80000000
  {
  }

  function Halved8(v: bv32): bv32 {
    Halved(Halved(Halved(Halved(Halved(Halved(Halved(Halved(v))))))))
  }

  lemma LowBits(v: bv32)
    ensures var v1 := Halved(v); var v2 := Halved(v1); var v3 := Halved(v2); var v4 := Halved(v3);
            var v5 := Halved(v4); var v6 := Halved(v5); var v7 := Halved(v6);
            && Low(v) == (v & 0x1 != 0) && Low(v1) == (v & 0x2 != 0) && Low(v2) == (v & 0x4 != 0)
            && Low(v3) == (v & 0x8 != 0) && Low(v4) == (v & 0x10 != 0) && Low(v5) == (v & 0x20 != 0)
            && Low(v6) == (v & 0x40 != 0) && Low(v7) == (v & 0x80 != 0)
  {
  }

  lemma OrEight(a: bv32, b: bv32, c: bv32, d: bv32, e: bv32, f: bv32, g: bv32, h: bv32, z: bv32)
    ensures Or(a, Or(b, Or(c, Or(d, Or(e, Or(f, Or(g, Or(h, z)))))))) == Or(Or8(a, b, c, d, e, f, g, h), z)
  {
    hide Or;
    var x7 := Or(h, z);
    var x6 := Or(g, x7);
    var x5 := Or(f, x6);
    var x4 := Or(e, x5);
    var x3 := Or(d, x4);
    var x2 := Or(c, x3);
    var y1 := Or(a, b);
    var y2 := Or(y1, c);
    var y3 := Or(y2, d);
    var y4 := Or(y3, e);
    var y5 := Or(y4, f);
    var y6 := Or(y5, g);
    OrGroups(a, b, x2);
    OrGroups(y1, c, x3);
    OrGroups(y2, d, x4);
    OrGroups(y3, e, x5);
    OrGroups(y4, f, x6);
    OrGroups(y5, g, x7);
    OrGroups(y6, h, z);
  }

  function Fanned(v: bv32, n: nat): bv32
    requires n <= 24
  {
    Fan(v, Bit(n + 7), Bit(n + 6), Bit(n + 5), Bit(n + 4), Bit(n + 3), Bit(n + 2), Bit(n + 1), Bit(n))
  }

  /** Eight rounds at a time. */
  lemma GatheredByte(v: bv32, n: nat)
    requires n <= 24
    ensures Gathered(v, n + 8) == Or(Fanned(v, n), Gathered(Halved8(v), n))
  {
    hide Halved, Low, Bit, Or, Or8;
    var v1 := Halved(v);
    var v2 := Halved(v1);
    var v3 := Halved(v2);
    var v4 := Halved(v3);
    var v5 := Halved(v4);
    var v6 := Halved(v5);
    var v7 := Halved(v6);
    var z := Gathered(Halved(v7), n);
    LowBits(v);
    assert Gathered(v6, n + 2) == Or(Pick(Low(v6), Bit(n + 1)), Or(Pick(Low(v7), Bit(n)), z));
    assert Gathered(v4, n + 4) == Or(Pick(Low(v4), Bit(n + 3)), Or(Pick(Low(v5), Bit(n + 2)), Gathered(v6, n + 2)));
    assert Gathered(v2, n + 6) == Or(Pick(Low(v2), Bit(n + 5)), Or(Pick(Low(v3), Bit(n + 4)), Gathered(v4, n + 4)));
    assert Gathered(v, n + 8) == Or(Pick(Low(v), Bit(n + 7)), Or(Pick(Low(v1), Bit(n + 6)), Gathered(v2, n + 6)));
    OrEight(Pick(Low(v), Bit(n + 7)), Pick(Low(v1), Bit(n + 6)), Pick(Low(v2), Bit(n + 5)), Pick(Low(v3), Bit(n + 4)),
            Pick(Low(v4), Bit(n + 3)), Pick(Low(v5), Bit(n + 2)), Pick(Low(v6), Bit(n + 1)), Pick(Low(v7), Bit(n)), z);
  }

  lemma Fanned0(v: bv32)
    ensures Fanned(v, 0) == Reflected8(v)
  {
    hide Fan, Bit, Reflected8;
    BitsFrom0();
    Fan0(v);
  }

  lemma Fanned8(v: bv32)
    ensures Fanned(v, 8) == Up8(Reflected8(v))
  {
    hide Fan, Bit, Reflected8;
    BitsFrom8();
    Fan8(v);
  }

  lemma Fanned16(v: bv32)
    ensures Fanned(v, 16) == Up16(Reflected8(v))
  {
    hide Fan, Bit, Reflected8;
    BitsFrom16();
    Fan16(v);
  }

  lemma Fanned24(v: bv32)
    ensures Fanned(v, 24) == Up24(Reflected8(v))
  {
    hide Fan, Bit, Reflected8;
    BitsFrom24();
    Fan24(v);
  }

  lemma OneByte(v: bv32)
    ensures Reflected8(v) == Down24(Reflected32(v))
  {
  }

  lemma TwoBytes(v: bv32)
    ensures Or(Up8(Reflected8(v)), Down24(Reflected32(Halved8(v)))) == Down16(Reflected32(v))
  {
  }

  lemma ThreeBytesTogether(v: bv32)
    ensures Or(Up16(Reflected8(v)), Down16(Reflected32(Halved8(v)))) == Down8(Reflected32(v))
  {
  }

  lemma FourBytes(v: bv32)
    ensures Or(Up24(Reflected8(v)), Down8(Reflected32(Halved8(v)))) == Reflected32(v)
  {
  }

  lemma GatheredByteIs(v: bv32)
    ensures Gathered(v, 8) == Reflected8(v)
  {
    hide Fanned, Or, Reflected8, Halved8;
    GatheredByte(v, 0);
    Fanned0(v);
    OrZero(Reflected8(v));
  }

  /** The loop reverses the bits. */
  lemma GatheredWordIs(v: bv32)
    ensures Gathered(v, 32) == Reflected32(v)
  {
    hide Fanned, Or, Reflected8, Halved8, Reflected32, Up8, Up16, Up24, Down8, Down16, Down24, Gathered;
    var v1 := Halved8(v);
    var v2 := Halved8(v1);
    var v3 := Halved8(v2);
    GatheredByte(v, 24);
    GatheredByte(v1, 16);
    GatheredByte(v2, 8);
    GatheredByteIs(v3);
    Fanned24(v);
    Fanned16(v1);
    Fanned8(v2);
    OneByte(v3);
    TwoBytes(v2);
    ThreeBytesTogether(v1);
    FourBytes(v);
  }

  /** reflect_crc. */
  method ReflectCrc(val: bv32, bits: nat) returns (result: bv32)
    requires bits <= 32
    ensures result == Gathered(val, bits)
    ensures bits == 8 ==> result == Reflected8(val)
    ensures bits == 32 ==> result == Reflected32(val)
  {
    hide Halved, Low, Bit, Or, Reflected8, Reflected32;
    var v := val;
    result := 0;
    OrZero(Gathered(val, bits));
    for bit := 0 to bits
      invariant Or(result, Gathered(v, bits - bit)) == Gathered(val, bits)
    {
      var one := if Low(v) then Bit(bits - 1 - bit) else 0;
      OrGroups(result, one, Gathered(Halved(v), bits - bit - 1));
      OrZero(result);
      if Low(v) { result := Or(result, Bit(bits - 1 - bit)); }
      v := Halved(v);
    }
    OrZero(result);
    GatheredByteIs(val);
    GatheredWordIs(val);
  }

  // ----- division

  /** The generator is subtracted: without carries. */
  function Subtracted(a: bv32): bv32 {
    a ^ 0x04c11db7
  }

  /** One bit enters the register: shift it, and subtract the generator when a one falls out. */
  function Divide(reg: bv32, bit: bool): bv32 {
    if Top(reg) != bit then Subtracted(Up(reg)) else Up(reg)
  }

  function Divided(reg: bv32, bits: seq<bool>): bv32
    decreases |bits|
  {
    if bits == [] then reg else Divided(Divide(reg, bits[0]), bits[1..])
  }

  predicate BitOf(b: bv8, k: bv8)
  {
    b & k != 0
  }

  /** The bits of a byte in the order in which a serial line sends them: the lowest first. */
  function BitsOf(b: bv8): seq<bool> {
    [BitOf(b, 1), BitOf(b, 2), BitOf(b, 4), BitOf(b, 8)] + [BitOf(b, 16), BitOf(b, 32), BitOf(b, 64), BitOf(b, 128)]
  }

  function Serial(data: seq<bv8>): seq<bool> {
    if data == [] then [] else BitsOf(data[0]) + Serial(data[1..])
  }

  function Inverted(a: bv32): bv32 {
    !a
  }

  /** The checksum by definition: the remainder of the data's bits, reflected and inverted. */
  function Checksum(data: seq<bv8>): bv32 {
    Inverted(Reflected32(Divided(ALL_ONES, Serial(data))))
  }

  function Shifted(crc: bv32): bv32 {
    if Top(crc) then Subtracted(Up(crc)) else Up(crc)
  }

  function Shifted8(crc: bv32): bv32 {
    Shifted(Shifted(Shifted(Shifted(Shifted(Shifted(Shifted(Shifted(crc))))))))
  }

  /** The table's entry for a byte. */
  function Entry(b: bv32): bv32 {
    Reflected32(Shifted8(Up24(Reflected8(b))))
  }

  function DividedByte(reg: bv32, b: bv8): bv32 {
    var r1 := Divide(reg, BitOf(b, 1));
    var r2 := Divide(r1, BitOf(b, 2));
    var r3 := Divide(r2, BitOf(b, 4));
    var r4 := Divide(r3, BitOf(b, 8));
    var r5 := Divide(r4, BitOf(b, 16));
    var r6 := Divide(r5, BitOf(b, 32));
    var r7 := Divide(r6, BitOf(b, 64));
    Divide(r7, BitOf(b, 128))
  }

  lemma SubtractedXor(a: bv32, b: bv32)
    ensures Subtracted(Xor(a, b)) == Xor(Subtracted(a), b)
  {
  }

  lemma UpXor(y: bv32, z: bv32)
    ensures Up(Xor(y, z)) == Xor(Up(y), Up(z))
  {
  }

  lemma TopXor(y: bv32, z: bv32)
    ensures Top(Xor(y, z)) == (Top(y) != Top(z))
  {
  }

  /** Dividing y + z by the bit that falls out of z shifts both. */
  lemma DivideBoth(y: bv32, z: bv32)
    ensures Divide(Xor(y, z), Top(z)) == Xor(Shifted(y), Up(z))
    ensures !Top(z) ==> Shifted(Xor(y, z)) == Xor(Shifted(y), Up(z))
  {
    hide Xor, Up, Top, Subtracted;
    UpXor(y, z);
    TopXor(y, z);
    SubtractedXor(Up(y), Up(z));
  }

  function Entering(b: bv8): bv32 {
    Reflected8(b as bv32) << 24
  }

  lemma EnteringBits(b: bv8)
    ensures var z := Entering(b); var z1 := Up(z); var z2 := Up(z1); var z3 := Up(z2);
            var z4 := Up(z3); var z5 := Up(z4); var z6 := Up(z5); var z7 := Up(z6);
            && Top(z) == BitOf(b, 1) && Top(z1) == BitOf(b, 2) && Top(z2) == BitOf(b, 4) && Top(z3) == BitOf(b, 8)
            && Top(z4) == BitOf(b, 16) && Top(z5) == BitOf(b, 32) && Top(z6) == BitOf(b, 64) && Top(z7) == BitOf(b, 128)
            && Up(z7) == 0
  {
  }

  /** Eight divisions are eight shifts of the register with the whole byte in it. */
  lemma ByteEnters(reg: bv32, b: bv8)
    ensures DividedByte(reg, b) == Shifted8(Xor(reg, Entering(b)))
  {
    hide Divide, Shifted, Top, Entering, Xor, Up, BitOf;
    var z := Entering(b);
    EnteringBits(b);
    var x0 := Xor(reg, z);
    XorCancels(reg, z);
    var x1, z1 := Shifted(x0), Up(z);
    var x2, z2 := Shifted(x1), Up(z1);
    var x3, z3 := Shifted(x2), Up(z2);
    var x4, z4 := Shifted(x3), Up(z3);
    var x5, z5 := Shifted(x4), Up(z4);
    var x6, z6 := Shifted(x5), Up(z5);
    var x7, z7 := Shifted(x6), Up(z6);
    DivideBoth(x0, z);
    DivideBoth(x1, z1);
    DivideBoth(x2, z2);
    DivideBoth(x3, z3);
    DivideBoth(x4, z4);
    DivideBoth(x5, z5);
    DivideBoth(x6, z6);
    DivideBoth(x7, z7);
    XorCancels(Shifted(x7), 0);
  }

  predicate ThreeBytes(z: bv32) {
    z & 0xFF00_0000 == 0
  }

  lemma LowBitsStayLow(z: bv32)
    requires ThreeBytes(z)
    ensures var z1 := Up(z); var z2 := Up(z1); var z3 := Up(z2); var z4 := Up(z3); var z5 := Up(z4); var z6 := Up(z5);
            var z7 := Up(z6);
            && !Top(z) && !Top(z1) && !Top(z2) && !Top(z3) && !Top(z4) && !Top(z5) && !Top(z6) && !Top(z7)
            && Up(z7) == Up8(z)
  {
  }

  /** Only the top byte decides what is subtracted in eight shifts. */
  lemma TopByteDecides(y: bv32, z: bv32)
    requires ThreeBytes(z)
    ensures Shifted8(Xor(y, z)) == Xor(Shifted8(y), Up8(z))
  {
    hide Shifted, Top, Xor, Up, Up8, ThreeBytes;
    LowBitsStayLow(z);
    var y1, z1 := Shifted(y), Up(z);
    var y2, z2 := Shifted(y1), Up(z1);
    var y3, z3 := Shifted(y2), Up(z2);
    var y4, z4 := Shifted(y3), Up(z3);
    var y5, z5 := Shifted(y4), Up(z4);
    var y6, z6 := Shifted(y5), Up(z5);
    var y7, z7 := Shifted(y6), Up(z6);
    DivideBoth(y, z);
    DivideBoth(y1, z1);
    DivideBoth(y2, z2);
    DivideBoth(y3, z3);
    DivideBoth(y4, z4);
    DivideBoth(y5, z5);
    DivideBoth(y6, z6);
    DivideBoth(y7, z7);
  }

  function TopByte(x: bv32): bv32 {
    x & 0xFF00_0000
  }

  function Rest(x: bv32): bv32 {
    x & 0x00FF_FFFF
  }

  lemma TopAndRest(x: bv32)
    ensures x == Xor(TopByte(x), Rest(x)) && ThreeBytes(Rest(x)) && Up8(Rest(x)) == Up8(x)
  {
  }

  lemma ReflectedXor(x: bv32, y: bv32)
    ensures Reflected32(Xor(x, y)) == Xor(Reflected32(x), Reflected32(y))
  {
  }

  /** The table's index for the next byte. */
  function Index(crc: bv32, b: bv8): bv32 {
    (crc & 0xFF) ^ (b as bv32)
  }

  lemma IndexIsTop(reg: bv32, b: bv8)
    ensures TopByte(Xor(reg, Entering(b))) == Up24(Reflected8(Index(Reflected32(reg), b)))
  {
  }

  lemma RestIsShifted(reg: bv32, b: bv8)
    ensures Reflected32(Up8(Xor(reg, Entering(b)))) == Down8(Reflected32(reg))
  {
    hide Xor, Entering, Up8, Down8, Reflected32;
    ReflectedUp(Xor(reg, Entering(b)));
    ReflectedXor(reg, Entering(b));
    Down8Xor(Reflected32(reg), Reflected32(Entering(b)));
    EnteringIsLast(b);
    XorCancels(Down8(Reflected32(reg)), 0);
  }

  lemma ReflectedUp(x: bv32)
    ensures Reflected32(Up8(x)) == Down8(Reflected32(x))
  {
    hide Reflected32;
    ReflectedShift(x);
  }

  lemma ReflectedShift(x: bv32)
    ensures Reflected32(x << 8) == Reflected32(x) >> 8
  {
  }

  lemma Down8Xor(x: bv32, y: bv32)
    ensures Down8(Xor(x, y)) == Xor(Down8(x), Down8(y))
  {
  }

  lemma EnteringIsLast(b: bv8)
    ensures Down8(Reflected32(Entering(b))) == 0
  {
  }

  /** One look-up does the work of eight divisions. */
  lemma ByteAtOnce(reg: bv32, b: bv8)
    ensures var crc := Reflected32(reg); Reflected32(DividedByte(reg, b)) == Xor(Down8(crc), Entry(Index(crc, b)))
  {
    hide DividedByte, Shifted8, Entering, Reflected32, Reflected8, Xor, Up8, Up24, Down8, TopByte, Rest, Index,
         ThreeBytes;
    var x := Xor(reg, Entering(b));
    ByteEnters(reg, b);
    TopAndRest(x);
    TopByteDecides(TopByte(x), Rest(x));
    ReflectedXor(Shifted8(TopByte(x)), Up8(x));
    IndexIsTop(reg, b);
    RestIsShifted(reg, b);
    XorSwaps(Reflected32(Shifted8(TopByte(x))), Reflected32(Up8(x)));
  }

  // ----- the table and the checksum

  /** The entry for each byte. */
  predicate Tabled(table: seq<bv32>) {
    |table| == 256 && forall i :: 0 <= i < 256 ==> table[i] == Entry(i as bv32)
  }

  lemma ShiftedIs(crc: bv32)
    ensures Shifted(crc) == if Top(crc) then Subtracted(Up(crc)) else Up(crc)
  {
  }

  /** initialize_crc32. */
  method InitializeCrc32(table: array<bv32>)
    requires table.Length == 256
    modifies table
    ensures Tabled(table[..])
  {
    hide Entry;
    for byte := 0 to 256
      invariant forall i :: 0 <= i < byte ==> table[i] == Entry(i as bv32)
    {
      var entry := TableEntry(byte as bv32);
      table[byte] := entry;
    }
  }

  method TableEntry(byte: bv32) returns (entry: bv32)
    ensures entry == Entry(byte)
  {
    hide Reflected8, Reflected32, Shifted8, Up24;
    var low := ReflectCrc(byte, 8);
    var crc := EightShifts(Up24(low));
    entry := ReflectCrc(crc, 32);
  }

  method EightShifts(start: bv32) returns (crc: bv32)
    ensures crc == Shifted8(start)
  {
    hide Shifted, Top, Subtracted, Up;
    crc := start;
    for offset := 0 to 8
      invariant crc == ShiftedTimes(start, offset)
    {
      ShiftedIs(crc);
      crc := Up(crc);
      if Top(ShiftedTimes(start, offset)) { crc := Subtracted(crc); }
    }
    EightTimes(start);
  }

  function ShiftedTimes(crc: bv32, n: nat): bv32
    decreases n
  {
    if n == 0 then crc else Shifted(ShiftedTimes(crc, n - 1))
  }

  lemma EightTimes(crc: bv32)
    ensures ShiftedTimes(crc, 8) == Shifted8(crc)
  {
    hide Shifted;
    assert ShiftedTimes(crc, 2) == Shifted(Shifted(crc));
    assert ShiftedTimes(crc, 4) == Shifted(Shifted(ShiftedTimes(crc, 2)));
    assert ShiftedTimes(crc, 6) == Shifted(Shifted(ShiftedTimes(crc, 4)));
  }

  lemma {:induction false} DividedTwice(reg: bv32, a: seq<bool>, b: seq<bool>)
    ensures Divided(reg, a + b) == Divided(Divided(reg, a), b)
    decreases |a|
  {
    hide Divide;
    if a == [] {
      assert a + b == b;
    } else {
      assert (a + b)[1..] == a[1..] + b;
      DividedTwice(Divide(reg, a[0]), a[1..], b);
    }
  }

  lemma {:induction false} SerialTwice(a: seq<bv8>, b: seq<bv8>)
    ensures Serial(a + b) == Serial(a) + Serial(b)
  {
    hide BitsOf;
    if a == [] {
      assert a + b == b;
    } else {
      assert (a + b)[1..] == a[1..] + b;
      SerialTwice(a[1..], b);
      assert BitsOf(a[0]) + (Serial(a[1..]) + Serial(b)) == BitsOf(a[0]) + Serial(a[1..]) + Serial(b);
    }
  }

  lemma FirstDivided(reg: bv32, bit: bool, rest: seq<bool>)
    ensures Divided(reg, [bit] + rest) == Divided(Divide(reg, bit), rest)
  {
    hide Divide;
    assert ([bit] + rest)[1..] == rest;
  }

  lemma FourDivided(reg: bv32, a: bool, b: bool, c: bool, d: bool, rest: seq<bool>)
    ensures Divided(reg, [a, b, c, d] + rest) == Divided(Divide(Divide(Divide(Divide(reg, a), b), c), d), rest)
  {
    hide Divide, Divided;
    FirstDivided(reg, a, [b, c, d] + rest);
    FirstDivided(Divide(reg, a), b, [c, d] + rest);
    FirstDivided(Divide(Divide(reg, a), b), c, [d] + rest);
    FirstDivided(Divide(Divide(Divide(reg, a), b), c), d, rest);
    assert [a] + ([b, c, d] + rest) == [a, b, c, d] + rest;
    assert [b] + ([c, d] + rest) == [b, c, d] + rest;
    assert [c] + ([d] + rest) == [c, d] + rest;
  }

  lemma DividedNothing(reg: bv32)
    ensures Divided(reg, []) == reg
  {
  }

  lemma DividedBits(reg: bv32, b: bv8)
    ensures Divided(reg, BitsOf(b)) == DividedByte(reg, b)
  {
    hide Divide, BitOf, Divided;
    var r := Divide(Divide(Divide(Divide(reg, BitOf(b, 1)), BitOf(b, 2)), BitOf(b, 4)), BitOf(b, 8));
    var high := [BitOf(b, 16), BitOf(b, 32), BitOf(b, 64), BitOf(b, 128)];
    FourDivided(reg, BitOf(b, 1), BitOf(b, 2), BitOf(b, 4), BitOf(b, 8), high);
    FourDivided(r, BitOf(b, 16), BitOf(b, 32), BitOf(b, 64), BitOf(b, 128), []);
    assert high + [] == high;
    DividedNothing(Divide(Divide(Divide(Divide(r, high[0]), high[1]), high[2]), high[3]));
  }

  /** The register of the division after these bytes, reflected: what the code's `crc` holds. */
  function Running(data: seq<bv8>): bv32 {
    Reflected32(Divided(ALL_ONES, Serial(data)))
  }

  lemma RunningEnds(data: seq<bv8>)
    ensures Checksum(data) == Inverted(Running(data))
  {
  }

  lemma RunningStarts()
    ensures Running([]) == ALL_ONES
  {
  }

  lemma RunningStep(data: seq<bv8>, b: bv8)
    ensures Running(data + [b]) == Xor(Down8(Running(data)), Entry(Index(Running(data), b)))
  {
    hide Divide, Entry, Index, Xor, Down8, Reflected32, BitsOf, DividedByte;
    SerialTwice(data, [b]);
    assert Serial([b]) == BitsOf(b) by {
      assert [b][1..] == [];
      assert BitsOf(b) + [] == BitsOf(b);
    }
    var reg := Divided(ALL_ONES, Serial(data));
    DividedTwice(ALL_ONES, Serial(data), BitsOf(b));
    DividedBits(reg, b);
    ByteAtOnce(reg, b);
  }

  lemma IndexFits(crc: bv32, b: bv8)
    ensures Index(crc, b) < 256 && 0 <= Index(crc, b) as int < 256 && (Index(crc, b) as int) as bv32 == Index(crc, b)
  {
  }

  method AddBuffer(table: array<bv32>, data: seq<bv8>, start: bv32, ghost done: seq<bv8>) returns (crc: bv32)
    requires Tabled(table[..]) && start == Running(done)
    ensures crc == Running(done + data)
  {
    hide Entry, Index, Xor, Down8, Running;
    crc := start;
    assert done + data[..0] == done;
    for i := 0 to |data|
      invariant crc == Running(done + data[..i])
    {
      var at := Index(crc, data[i]);
      IndexFits(crc, data[i]);
      RunningStep(done + data[..i], data[i]);
      assert done + data[..i] + [data[i]] == done + data[..i + 1];
      crc := Xor(Down8(crc), table[at as int]);
    }
    assert data[..|data|] == data;
  }

  // ----- the order of the bytes

  function Swapped(a: bv32): bv32 {
    (a << 24) | ((a & 0xFF00) << 8) | ((a >> 8) & 0xFF00) | (a >> 24)
  }

  /** ENET_HOST_TO_NET_32. */
  function ToNetwork(a: bv32, littleEndian: bool): bv32 {
    if littleEndian then Swapped(a) else a
  }

  /** The bits from bit i on that make a byte. */
  function ByteFrom(a: bv32, i: bv32): bv32
    requires i < 32
  {
    (a >> i) & 0xFF
  }

  /** The byte at address k of a word in memory. */
  function InMemory(a: bv32, k: bv32, littleEndian: bool): bv32
    requires k < 4
  {
    if littleEndian then ByteFrom(a, 8 * k) else ByteFrom(a, 24 - 8 * k)
  }

  /** On any host the word lies in memory with its highest byte first, and back it is the word it was. */
  lemma NetworkOrder(a: bv32, k: bv32, littleEndian: bool)
    requires k < 4
    ensures InMemory(ToNetwork(a, littleEndian), k, littleEndian) == ByteFrom(a, 24 - 8 * k)
    ensures ToNetwork(ToNetwork(a, littleEndian), littleEndian) == a
  {
  }

  /** enet_crc32: one table look-up a byte, through all buffers. */
  method Crc32(table: array<bv32>, buffers: seq<seq<bv8>>, littleEndian: bool) returns (crc: bv32)
    requires Tabled(table[..])
    ensures crc == ToNetwork(Checksum(Joined(buffers)), littleEndian)
  {
    hide Entry, Index, Xor, Down8, Running, Inverted, ToNetwork, Swapped;
    crc := ALL_ONES;
    RunningStarts();
    ghost var done: seq<bv8> := [];
    var k := 0;
    while k < |buffers|
      invariant k <= |buffers| && crc == Running(done) && done + Joined(buffers[k..]) == Joined(buffers)
    {
      assert buffers[k..][1..] == buffers[k + 1..];
      var data := buffers[k];
      assert done + (data + Joined(buffers[k + 1..])) == (done + data) + Joined(buffers[k + 1..]);
      crc := AddBuffer(table, data, crc, done);
      done := done + data;
      k := k + 1;
    }
    assert done + [] == done;
    crc := ToNetwork(Inverted(crc), littleEndian);
    RunningEnds(done);
  }

  // ----- what the checksum is for

  lemma ShiftKeepsApart(r: bv32, s: bv32)
    requires Up(r) == Up(s) && Top(r) == Top(s)
    ensures r == s
  {
  }

  lemma SubtractedOdd(r: bv32, s: bv32)
    ensures Low(Subtracted(r)) != Low(r) && !Low(Up(r)) && (Subtracted(r) == Subtracted(s) ==> r == s)
  {
  }

  /** From different registers the same bit leads to different registers. */
  lemma DivideInjective(r: bv32, s: bv32, bit: bool)
    requires Divide(r, bit) == Divide(s, bit)
    ensures r == s
  {
    hide Up, Top, Subtracted, Low;
    SubtractedOdd(Up(r), Up(s));
    SubtractedOdd(Up(s), Up(r));
    SubtractedOdd(r, s);
    SubtractedOdd(s, r);
    if Up(r) == Up(s) && Top(r) == Top(s) { ShiftKeepsApart(r, s); }
  }

  lemma {:induction false} DividedInjective(r: bv32, s: bv32, bits: seq<bool>)
    requires r != s
    ensures Divided(r, bits) != Divided(s, bits)
    decreases |bits|
  {
    hide Divide;
    if bits != [] {
      if Divide(r, bits[0]) == Divide(s, bits[0]) { DivideInjective(r, s, bits[0]); }
      DividedInjective(Divide(r, bits[0]), Divide(s, bits[0]), bits[1..]);
    }
  }

  /** After n shifts nothing is left. */
  predicate GoneAfter(d: bv32, n: bv32)
    requires n <= 32
  {
    d << n == 0
  }

  lemma GoneHasNoLow(d: bv32, n: bv32)
    requires n < 32 && GoneAfter(d, n)
    ensures !Low(d)
  {
  }

  lemma GoneLater(d: bv32, n: bv32)
    requires n < 32 && GoneAfter(Up(d), n)
    ensures GoneAfter(d, n + 1)
  {
  }

  lemma NoneIsGone(n: bv32)
    requires n <= 32
    ensures GoneAfter(0, n)
  {
  }

  lemma LowXor(r: bv32, s: bv32)
    ensures Low(Xor(r, s)) == (Low(r) != Low(s)) && Xor(r, r) == 0
  {
  }

  lemma SubtractedBoth(r: bv32, s: bv32)
    ensures Xor(Subtracted(r), Subtracted(s)) == Xor(r, s)
  {
  }

  /** When a bit each made two registers alike but for bits that will be gone after n more shifts, the generator, which
      is odd, was subtracted from both or from neither. */
  lemma SameWasSubtracted(r: bv32, s: bv32, p: bool, q: bool, n: bv32)
    requires n < 32 && GoneAfter(Xor(Divide(r, p), Divide(s, q)), n)
    ensures (Top(r) != p) == (Top(s) != q) && GoneAfter(Xor(r, s), n + 1)
  {
    hide Top, Up, Subtracted, Xor, Low, GoneAfter;
    var r', s' := Divide(r, p), Divide(s, q);
    GoneHasNoLow(Xor(r', s'), n);
    LowXor(r', s');
    SubtractedOdd(Up(r), Up(s));
    SubtractedOdd(Up(s), Up(r));
    SubtractedOdd(r, s);
    SubtractedOdd(s, r);
    SubtractedBoth(Up(r), Up(s));
    UpXor(r, s);
    GoneLater(Xor(r, s), n);
  }

  /** Registers that n bits each make equal differ in no more than their top n bits. */
  lemma {:induction false} MadeEqual(r: bv32, s: bv32, x: seq<bool>, y: seq<bool>)
    requires |x| == |y| <= 32 && Divided(r, x) == Divided(s, y)
    ensures GoneAfter(Xor(r, s), Times(|x|))
    decreases |x|
  {
    hide Divide, Xor, GoneAfter, Top, Times;
    if x == [] {
      LowXor(r, r);
      NoneIsGone(Times(0));
    } else {
      MadeEqual(Divide(r, x[0]), Divide(s, y[0]), x[1..], y[1..]);
      TimesAt(|x| - 1);
      SameWasSubtracted(r, s, x[0], y[0], Times(|x| - 1));
    }
  }

  lemma FirstIsSame(r: bv32, x: seq<bool>, y: seq<bool>)
    requires 0 < |x| == |y| <= 32 && Divided(r, x) == Divided(r, y)
    ensures x[0] == y[0]
  {
    hide Divide, Xor, GoneAfter, Top, Times;
    MadeEqual(Divide(r, x[0]), Divide(r, y[0]), x[1..], y[1..]);
    TimesAt(|x| - 1);
    SameWasSubtracted(r, r, x[0], y[0], Times(|x| - 1));
  }

  lemma RestDiffers(x: seq<bool>, y: seq<bool>)
    requires |x| == |y| && x != y
    ensures x != [] && (x[0] == y[0] ==> x[1..] != y[1..])
  {
    if x != [] {
      assert x == [x[0]] + x[1..] && y == [y[0]] + y[1..];
    }
  }

  /** From one register, different sequences of at most 32 bits lead to different registers. */
  lemma {:induction false} ShortRunsDiffer(r: bv32, x: seq<bool>, y: seq<bool>)
    requires |x| == |y| <= 32 && x != y
    ensures Divided(r, x) != Divided(r, y)
    decreases |x|
  {
    hide Divide;
    RestDiffers(x, y);
    if Divided(r, x) == Divided(r, y) {
      FirstIsSame(r, x, y);
      ShortRunsDiffer(Divide(r, x[0]), x[1..], y[1..]);
    }
  }

  lemma ChecksumInjective(r: bv32, s: bv32)
    requires Inverted(Reflected32(r)) == Inverted(Reflected32(s))
    ensures r == s
  {
    hide Reflected32;
    ReflectedTwice(r);
    ReflectedTwice(s);
  }

  lemma ReflectedTwice(r: bv32)
    ensures Reflected32(Reflected32(r)) == r
  {
  }

  /** The checksum tells any two messages apart that differ only within 32 successive bits. */
  lemma BurstIsDetected(d: seq<bv8>, e: seq<bv8>, before: seq<bool>, x: seq<bool>, y: seq<bool>, after: seq<bool>)
    requires Serial(d) == before + x + after && Serial(e) == before + y + after && |x| == |y| <= 32 && x != y
    ensures Checksum(d) != Checksum(e)
  {
    hide Divide, Inverted, Reflected32, Serial, Divided;
    var r := Divided(ALL_ONES, before);
    DividedTwice(ALL_ONES, before, x);
    DividedTwice(ALL_ONES, before, y);
    DividedTwice(ALL_ONES, before + x, after);
    DividedTwice(ALL_ONES, before + y, after);
    ShortRunsDiffer(r, x, y);
    DividedInjective(Divided(r, x), Divided(r, y), after);
    if Checksum(d) == Checksum(e) {
      ChecksumInjective(Divided(ALL_ONES, Serial(d)), Divided(ALL_ONES, Serial(e)));
    }
  }

  // ----- a known checksum

  const DIGITS: seq<bv8> := [49, 50, 51, 52, 53, 54, 55, 56, 57]

  /** From register to register by one digit. */
  lemma NextDigit(k: nat, from: bv32, index: bv32, entry: bv32, to: bv32)
    requires k < 9 && Running(DIGITS[..k]) == from && Index(from, DIGITS[k]) == index && Entry(index) == entry
    requires Xor(Down8(from), entry) == to
    ensures Running(DIGITS[..k + 1]) == to
  {
    hide Running, Entry, Index, Xor, Down8;
    RunningStep(DIGITS[..k], DIGITS[k]);
    assert DIGITS[..k] + [DIGITS[k]] == DIGITS[..k + 1];
  }

  lemma Digit1()
    requires Running(DIGITS[..0]) == 0xFFFFFFFF
    ensures Running(DIGITS[..1]) == 0x7C231048
  {
    Entry1();
    hide Running, Entry, Index, Xor, Down8;
    NextDigit(0, 0xFFFFFFFF, 206, 0x7CDCEFB7, 0x7C231048);
  }

  lemma Entry1()
    ensures Index(0xFFFFFFFF, 49) == 206 && Entry(206) == 0x7CDCEFB7 && Xor(Down8(0xFFFFFFFF), 0x7CDCEFB7) == 0x7C231048
  {
  }

  lemma Digit2()
    requires Running(DIGITS[..1]) == 0x7C231048
    ensures Running(DIGITS[..2]) == 0xB0ACBB32
  {
    Entry2();
    hide Running, Entry, Index, Xor, Down8;
    NextDigit(1, 0x7C231048, 122, 0xB0D09822, 0xB0ACBB32);
  }

  lemma Entry2()
    ensures Index(0x7C231048, 50) == 122 && Entry(122) == 0xB0D09822 && Xor(Down8(0x7C231048), 0xB0D09822) == 0xB0ACBB32
  {
  }

  lemma Digit3()
    requires Running(DIGITS[..2]) == 0xB0ACBB32
    ensures Running(DIGITS[..3]) == 0x77B79C2D
  {
    Entry3();
    hide Running, Entry, Index, Xor, Down8;
    NextDigit(2, 0xB0ACBB32, 1, 0x77073096, 0x77B79C2D);
  }

  lemma Entry3()
    ensures Index(0xB0ACBB32, 51) == 1 && Entry(1) == 0x77073096 && Xor(Down8(0xB0ACBB32), 0x77073096) == 0x77B79C2D
  {
  }

  lemma Digit4()
    requires Running(DIGITS[..3]) == 0x77B79C2D
    ensures Running(DIGITS[..4]) == 0x641C1F5C
  {
    Entry4();
    hide Running, Entry, Index, Xor, Down8;
    NextDigit(3, 0x77B79C2D, 25, 0x646BA8C0, 0x641C1F5C);
  }

  lemma Entry4()
    ensures Index(0x77B79C2D, 52) == 25 && Entry(25) == 0x646BA8C0 && Xor(Down8(0x77B79C2D), 0x646BA8C0) == 0x641C1F5C
  {
  }

  lemma Digit5()
    requires Running(DIGITS[..4]) == 0x641C1F5C
    ensures Running(DIGITS[..5]) == 0x340AC5E3
  {
    Entry5();
    hide Running, Entry, Index, Xor, Down8;
    NextDigit(4, 0x641C1F5C, 105, 0x346ED9FC, 0x340AC5E3);
  }

  lemma Entry5()
    ensures Index(0x641C1F5C, 53) == 105 && Entry(105) == 0x346ED9FC && Xor(Down8(0x641C1F5C), 0x346ED9FC) == 0x340AC5E3
  {
  }

  lemma Digit6()
    requires Running(DIGITS[..5]) == 0x340AC5E3
    ensures Running(DIGITS[..6]) == 0xF68D2C9E
  {
    Entry6();
    hide Running, Entry, Index, Xor, Down8;
    NextDigit(5, 0x340AC5E3, 213, 0xF6B9265B, 0xF68D2C9E);
  }

  lemma Entry6()
    ensures Index(0x340AC5E3, 54) == 213 && Entry(213) == 0xF6B9265B && Xor(Down8(0x340AC5E3), 0xF6B9265B) == 0xF68D2C9E
  {
  }

  lemma Digit7()
    requires Running(DIGITS[..6]) == 0xF68D2C9E
    ensures Running(DIGITS[..7]) == 0xAFFC9660
  {
    Entry7();
    hide Running, Entry, Index, Xor, Down8;
    NextDigit(6, 0xF68D2C9E, 169, 0xAF0A1B4C, 0xAFFC9660);
  }

  lemma Entry7()
    ensures Index(0xF68D2C9E, 55) == 169 && Entry(169) == 0xAF0A1B4C && Xor(Down8(0xF68D2C9E), 0xAF0A1B4C) == 0xAFFC9660
  {
  }

  lemma Digit8()
    requires Running(DIGITS[..7]) == 0xAFFC9660
    ensures Running(DIGITS[..8]) == 0x651F2550
  {
    Entry8();
    hide Running, Entry, Index, Xor, Down8;
    NextDigit(7, 0xAFFC9660, 88, 0x65B0D9C6, 0x651F2550);
  }

  lemma Entry8()
    ensures Index(0xAFFC9660, 56) == 88 && Entry(88) == 0x65B0D9C6 && Xor(Down8(0xAFFC9660), 0x65B0D9C6) == 0x651F2550
  {
  }

  lemma Digit9()
    requires Running(DIGITS[..8]) == 0x651F2550
    ensures Running(DIGITS[..9]) == 0x340BC6D9
  {
    Entry9();
    hide Running, Entry, Index, Xor, Down8;
    NextDigit(8, 0x651F2550, 105, 0x346ED9FC, 0x340BC6D9);
  }

  lemma Entry9()
    ensures Index(0x651F2550, 57) == 105 && Entry(105) == 0x346ED9FC && Xor(Down8(0x651F2550), 0x346ED9FC) == 0x340BC6D9
  {
  }

  /** The check value of this CRC: that of the digits 1 to 9. */
  lemma CheckValue()
    ensures Checksum(DIGITS) == 0xCBF4_3926
  {
    hide Running, Inverted, Checksum;
    RunningStarts();
    assert DIGITS[..0] == [] && DIGITS[..9] == DIGITS;
    Digit1();
    Digit2();
    Digit3();
    Digit4();
    Digit5();
    Digit6();
    Digit7();
    Digit8();
    Digit9();
    RunningEnds(DIGITS);
    LastInverted();
  }

  lemma LastInverted()
    ensures Inverted(0x340BC6D9) == 0xCBF4_3926
  {
  }
}
