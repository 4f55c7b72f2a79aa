/** Two small inputs and the bytes that the compressor makes of them. */
module Vectors {
  import opened Bytes
  import opened RangeCoding
  import opened Ppm
  import opened Histories

  /** From this state on the steps after the first `k` make these bytes. */
  ghost predicate From(c: Coder, steps: seq<Step>, k: nat, out: seq<byte>) {
    k <= |steps| && Ready(c) && ValidSteps(steps[k..]) && Stream(c, steps[k..]) == out
  }

  lemma StreamOf(c: Coder, steps: seq<Step>, k: nat)
    requires k < |steps| && Ready(c) && ValidStep(steps[k]) && ValidSteps(steps[k + 1..])
    ensures ValidSteps(steps[k..]) && Ready(Advance(c, steps[k]))
    ensures Stream(c, steps[k..]) == Emitted(c, steps[k]) + Stream(Advance(c, steps[k]), steps[k + 1..])
  {
    hide Emitted, Advance;
    AdvanceIsReady(c, steps[k]);
    assert steps[k..][1..] == steps[k + 1..] && steps[k..][0] == steps[k];
    assert forall i :: 0 <= i < |steps[k..]| ==> steps[k..][i] == if i == 0 then steps[k] else steps[k + 1..][i - 1];
  }

  /** A step after which the range is still large. */
  lemma Stays(c: Coder, steps: seq<Step>, k: nat, d: Coder, out: seq<byte>)
    requires k < |steps| && Ready(c) && ValidStep(steps[k]) && Scale(c, steps[k]) == d && Settled(d)
    requires From(d, steps, k + 1, out)
    ensures From(c, steps, k, out)
  {
    StreamOf(c, steps, k);
  }

  /** A step after which one byte comes out. */
  lemma ShiftsOnce(c: Coder, steps: seq<Step>, k: nat, d: Coder, e: Coder, out: seq<byte>, more: seq<byte>)
    requires k < |steps| && Ready(c) && ValidStep(steps[k]) && Scale(c, steps[k]) == d && !Settled(d)
    requires Squeeze(d) == e && Settled(e) && d.low < WORD && From(e, steps, k + 1, out)
    requires more == [d.low / 0x100_0000] + out
    ensures From(c, steps, k, more)
  {
    ScaleIsLive(c, steps[k]);
    Turn(d);
    Turn(e);
    StreamOf(c, steps, k);
  }

  // ----- the coder on the steps for "ababab", from the last to the first

  const SIX_STEPS: seq<Step> :=
    [Step(98, 1, 257), Step(102, 1, 260), Step(98, 4, 263), Step(5, 2, 7), Step(5, 2, 7), Step(5, 2, 7)]

  lemma Ababab6()
    ensures From(Coder(3748724878, 382531436), SIX_STEPS, 6, [0xDF, 0x71, 0x00, 0x8E])
  {
    assert Flush(2382364672) == [0x8E];
    assert Flush(9306112) == [0x00, 0x8E];
    assert Flush(1895861760) == [0x71, 0x00, 0x8E];
    assert Flush(3748724878) == [0xDF, 0x71, 0x00, 0x8E];
  }

  lemma Ababab5()
    ensures From(Coder(2792396288, 1338860032), SIX_STEPS, 5, [0xDF, 0x71, 0x00, 0x8E])
  {
    hide From;
    Ababab6();
    Stays(Coder(2792396288, 1338860032), SIX_STEPS, 5, Coder(3748724878, 382531436), [0xDF, 0x71, 0x00, 0x8E]);
  }

  lemma Ababab4()
    ensures From(Coder(3420385057, 18304730), SIX_STEPS, 4, [0xCC, 0xDF, 0x71, 0x00, 0x8E])
  {
    hide From;
    Ababab5();
    ShiftsOnce(Coder(3420385057, 18304730), SIX_STEPS, 4,
               Coder(3433459862, 5229922), Coder(2792396288, 1338860032), [0xDF, 0x71, 0x00, 0x8E],
               [0xCC, 0xDF, 0x71, 0x00, 0x8E]);
  }

  lemma Ababab3()
    ensures From(Coder(3374623232, 64066560), SIX_STEPS, 3, [0xCC, 0xDF, 0x71, 0x00, 0x8E])
  {
    hide From;
    Ababab4();
    Stays(Coder(3374623232, 64066560), SIX_STEPS, 3, Coder(3420385057, 18304730), [0xCC, 0xDF, 0x71, 0x00, 0x8E]);
  }

  lemma Ababab2()
    ensures From(Coder(40605184, 16454656), SIX_STEPS, 2, [0x02, 0xCC, 0xDF, 0x71, 0x00, 0x8E])
  {
    hide From;
    Ababab3();
    ShiftsOnce(Coder(40605184, 16454656), SIX_STEPS, 2,
               Coder(46736554, 250260), Coder(3374623232, 64066560), [0xCC, 0xDF, 0x71, 0x00, 0x8E],
               [0x02, 0xCC, 0xDF, 0x71, 0x00, 0x8E]);
  }

  lemma Ababab1()
    ensures From(Coder(1637769630, 16711935), SIX_STEPS, 1, [0x62, 0x02, 0xCC, 0xDF, 0x71, 0x00, 0x8E])
  {
    hide From;
    Ababab2();
    ShiftsOnce(Coder(1637769630, 16711935), SIX_STEPS, 1,
               Coder(1644325782, 64276), Coder(40605184, 16454656), [0x02, 0xCC, 0xDF, 0x71, 0x00, 0x8E],
               [0x62, 0x02, 0xCC, 0xDF, 0x71, 0x00, 0x8E]);
  }

  lemma Ababab0()
    ensures From(START, SIX_STEPS, 0, [0x62, 0x02, 0xCC, 0xDF, 0x71, 0x00, 0x8E])
  {
    hide From;
    Ababab1();
    Stays(START, SIX_STEPS, 0, Coder(1637769630, 16711935), [0x62, 0x02, 0xCC, 0xDF, 0x71, 0x00, 0x8E]);
  }

  // ----- and on three steps of which the last makes the range small, so that the upper end is cut

  const THREE_STEPS: seq<Step> :=
    [Step(1, 1, 257), Step(24, 1, 260), Step(122, 1, 263)]

  lemma Cut3()
    ensures From(Coder(4283900416, 11066880), THREE_STEPS, 3, [0xFF, 0x57, 0x22])
  {
    assert Flush(570425344) == [0x22];
    assert Flush(1461846016) == [0x57, 0x22];
    assert Flush(4283900416) == [0xFF, 0x57, 0x22];
  }

  lemma Cut2()
    ensures From(Coder(378199808, 16454656), THREE_STEPS, 2, [0x16, 0xFF, 0x57, 0x22])
  {
    hide From;
    Cut3();
    ShiftsOnce(Coder(378199808, 16454656), THREE_STEPS, 2,
               Coder(385832738, 62565), Coder(4283900416, 11066880), [0xFF, 0x57, 0x22],
               [0x16, 0xFF, 0x57, 0x22]);
  }

  lemma Cut1()
    ensures From(Coder(16711935, 16711935), THREE_STEPS, 1, [0x01, 0x16, 0xFF, 0x57, 0x22])
  {
    hide From;
    Cut2();
    ShiftsOnce(Coder(16711935, 16711935), THREE_STEPS, 1,
               Coder(18254559, 64276), Coder(378199808, 16454656), [0x16, 0xFF, 0x57, 0x22],
               [0x01, 0x16, 0xFF, 0x57, 0x22]);
  }

  lemma Cut0()
    ensures From(START, THREE_STEPS, 0, [0x01, 0x16, 0xFF, 0x57, 0x22])
  {
    hide From;
    Cut1();
    Stays(START, THREE_STEPS, 0, Coder(16711935, 16711935), [0x01, 0x16, 0xFF, 0x57, 0x22]);
  }

  // ----- the steps themselves

  /** The context `n` learns `v` next, or does not. */
  lemma Learnt(h: seq<byte>, v: byte, n: Name)
    requires Learns(h, n, v)
    ensures Lessons(h + [v], n) == Lessons(h, n) + [v]
  {
    LessonsMore(h, v, n);
  }

  lemma NotLearnt(h: seq<byte>, v: byte, n: Name)
    requires !EndsWith(h, n)
    ensures Lessons(h + [v], n) == Lessons(h, n)
  {
    LessonsMore(h, v, n);
    assert Lessons(h, n) + [] == Lessons(h, n);
  }

  /** Nothing is coded in the contexts of two new bytes; the root codes them. */
  lemma FirstByte(v: byte)
    ensures Reference([], LastTwo([]), v) == [Step(1 + v, 1, 257)]
  {
    hide Teach;
    assert Lessons([], []) == [];
    ShortIsFew(true, []);
    RootCodes([], v);
  }

  lemma RootAfterOne(a: byte)
    ensures Lessons([a], []) == [a] && Lessons([a], [a]) == []
  {
    hide Teach;
    assert [] + [a] == [a];
    Learnt([], a, []);
    NotLearnt([], a, [a]);
  }

  lemma SecondByte(a: byte, b: byte)
    requires a < b
    ensures Reference([a], LastTwo([a]), b) == [Step(4 + b, 1, 260)]
  {
    hide Teach, Lessons, Few, Kinds;
    RootAfterOne(a);
    ShortIsFew(true, [a]);
    ShortIsFew(false, []);
    ContextCodes([a], [a], b);
    assert [a][1..] == [];
    RootCodes([a], b);
    assert [a][..0] == [];
  }

  lemma AfterTwo(a: byte, b: byte)
    requires a < b
    ensures Lessons([a, b], []) == [a, b] && Lessons([a, b], [b]) == [] && Lessons([a, b], [a, b]) == []
    ensures Lessons([a, b], [a]) == [b] && Lessons([a, b], [b, a]) == []
  {
    hide Teach;
    RootAfterOne(a);
    assert [a] + [b] == [a, b] && [] + [a] == [a] && [] + [b] == [b];
    assert [a][..0] == [] && !Occurs([a, b], [a]);
    assert Learns([a], [], b) by { assert [a][0..] == [a]; }
    Learnt([a], b, []);
    NotLearnt([], a, [b]);
    NotLearnt([a], b, [b]);
    NotLearnt([], a, [a, b]);
    NotLearnt([a], b, [a, b]);
    NotLearnt([], a, [b, a]);
    NotLearnt([a], b, [b, a]);
    assert [a][0..] == [a];
    Learnt([a], b, [a]);
  }

  lemma ThirdByte(a: byte, b: byte, v: byte)
    requires a < b
    ensures Reference([a, b], LastTwo([a, b]), v) ==
      [Step(1 + v + (if b < v then 6 else if a < v then 3 else 0), if v == a || v == b then 4 else 1, 263)]
  {
    hide Teach, Lessons, Few, Kinds;
    AfterTwo(a, b);
    ShortIsFew(true, [a, b]);
    ShortIsFew(false, []);
    ContextCodes([a, b], [a, b], v);
    assert [a, b][1..] == [b] && [b][1..] == [];
    ContextCodes([a, b], [b], v);
    RootCodes([a, b], v);
    assert [a, b][..1] == [a] && [a][..0] == [];
    assert Times([a], v) == (if a == v then 1 else 0) && Below([a], v) == if a < v then 1 else 0;
  }

  /** A byte that its context has learnt once, and nothing else. */
  lemma KnownByte(h: seq<byte>, n: Name, v: byte)
    requires n != [] && Lessons(h, n) == [v]
    ensures Reference(h, n, v) == [Step(5, 2, 7)]
  {
    hide Teach, Lessons, Few;
    ShortIsFew(false, [v]);
    ContextCodes(h, n, v);
    assert Different([v]) == {v};
    assert [v][..0] == [];
  }

  lemma FourthByte(a: byte, b: byte)
    requires a < b
    ensures Reference([a, b, a], LastTwo([a, b, a]), b) == [Step(5, 2, 7)]
    ensures Lessons([a, b, a], [b, a]) == [] && Lessons([a, b, a], [a, b]) == [a]
  {
    hide Teach, Lessons, Few;
    AfterTwo(a, b);
    assert [a, b] + [a] == [a, b, a] && [a, b][1..] == [b] && [a, b][0..] == [a, b];
    NotLearnt([a, b], a, [b, a]);
    NotLearnt([a, b], a, [a]);
    Learnt([a, b], a, [a, b]);
    assert [] + [a] == [a];
    assert LastTwo([a, b, a]) == [b, a] && [b, a][1..] == [a];
    ShortIsFew(false, []);
    ContextCodes([a, b, a], [b, a], b);
    KnownByte([a, b, a], [a], b);
  }

  lemma FifthByte(a: byte, b: byte)
    requires a < b
    ensures Reference([a, b, a, b], LastTwo([a, b, a, b]), a) == [Step(5, 2, 7)]
    ensures Lessons([a, b, a, b], [b, a]) == [b]
  {
    hide Teach, Lessons, Few;
    FourthByte(a, b);
    assert [a, b, a] + [b] == [a, b, a, b] && [a, b, a][1..] == [b, a] && [] + [b] == [b];
    NotLearnt([a, b, a], b, [a, b]);
    Learnt([a, b, a], b, [b, a]);
    assert LastTwo([a, b, a, b]) == [a, b];
    KnownByte([a, b, a, b], [a, b], a);
  }

  lemma SixthByte(a: byte, b: byte)
    requires a < b
    ensures Reference([a, b, a, b, a], LastTwo([a, b, a, b, a]), b) == [Step(5, 2, 7)]
  {
    hide Teach, Lessons, Few;
    FifthByte(a, b);
    assert [a, b, a, b] + [a] == [a, b, a, b, a] && [a, b, a, b][2..] == [a, b];
    NotLearnt([a, b, a, b], a, [b, a]);
    assert LastTwo([a, b, a, b, a]) == [b, a];
    KnownByte([a, b, a, b, a], [b, a], b);
  }

  lemma ReferenceAt(data: seq<byte>, i: nat)
    requires i < |data| <= 1300
    ensures References(data, i) == Reference(data[..i], LastTwo(data[..i]), data[i]) + References(data, i + 1)
  {
    hide Reference, Recent;
    ShortIsRecent(data[..i]);
  }

  const ABABAB: seq<byte> := [97, 98, 97, 98, 97, 98]

  lemma ReferencesEnd(data: seq<byte>)
    ensures References(data, |data|) == []
  {
  }

  lemma ReferencesOfAbabab()
    ensures References(ABABAB, 0) == SIX_STEPS
  {
    hide Reference, References, LastTwo;
    LastOfAbabab();
    assert ABABAB[..0] == [] && ABABAB[..1] == [97] && ABABAB[..2] == [97, 98];
    ReferenceAt(ABABAB, 2);
    ThirdByte(97, 98, 97);
    ReferenceAt(ABABAB, 1);
    SecondByte(97, 98);
    ReferenceAt(ABABAB, 0);
    FirstByte(97);
  }

  lemma LastOfAbabab()
    ensures References(ABABAB, 3) == [Step(5, 2, 7), Step(5, 2, 7), Step(5, 2, 7)]
  {
    hide Reference, References, LastTwo;
    assert ABABAB[..3] == [97, 98, 97] && ABABAB[..4] == [97, 98, 97, 98] && ABABAB[..5] == [97, 98, 97, 98, 97];
    ReferencesEnd(ABABAB);
    ReferenceAt(ABABAB, 5);
    SixthByte(97, 98);
    ReferenceAt(ABABAB, 4);
    FifthByte(97, 98);
    ReferenceAt(ABABAB, 3);
    FourthByte(97, 98);
  }

  lemma ReferencesOfThree()
    ensures References([0, 20, 115], 0) == THREE_STEPS
  {
    hide Reference, References, LastTwo;
    var data: seq<byte> := [0, 20, 115];
    assert data[..0] == [] && data[..1] == [0] && data[..2] == [0, 20];
    ReferencesEnd(data);
    ReferenceAt(data, 2);
    ThirdByte(0, 20, 115);
    ReferenceAt(data, 1);
    SecondByte(0, 20);
    ReferenceAt(data, 0);
    FirstByte(0);
  }

  /** "ababab", whose last three bytes are coded in contexts of two bytes and of one. */
  lemma CompressedAbabab()
    ensures Compressed(ABABAB) == [0x62, 0x02, 0xCC, 0xDF, 0x71, 0x00, 0x8E]
  {
    hide Stream, References;
    ReferencesOfAbabab();
    CompressedIsReference(ABABAB);
    Ababab0();
    assert SIX_STEPS[0..] == SIX_STEPS;
  }

  lemma CompressedThree()
    ensures Compressed([0, 20, 115]) == [0x01, 0x16, 0xFF, 0x57, 0x22]
  {
    hide Stream, References;
    ReferencesOfThree();
    CompressedIsReference([0, 20, 115]);
    Cut0();
    assert THREE_STEPS[0..] == THREE_STEPS;
  }
}
