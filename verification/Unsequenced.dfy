/** Unsequenced packets: a group number of 16 bits, a base that moves in whole windows, and a bitmap of the groups of
    the base's window that were received. */
module Unsequenced {
  import opened Bytes
  import opened Shifts

  const WINDOW_SIZE := 1024
  const FREE_WINDOWS := 32
  const WORDS := WINDOW_SIZE / 32
  const GROUPS := 0x1_0000

  /** How far ahead of the base a group may be. */
  const REACH := FREE_WINDOWS * WINDOW_SIZE

  // ----- bits

  predicate BitAt(u: bv32, k: bv32)
    requires k < 32
  {
    (u >> k) & 1 == 1
  }

  /** The code's test of a bit. */
  predicate Tests(u: bv32, k: bv32)
    requires k < 32
  {
    u & (1 << k) != 0
  }

  lemma TestsBit(u: bv32, k: bv32)
    requires k < 32
    ensures Tests(u, k) == BitAt(u, k)
  {
  }

  function WithBit(u: bv32, k: bv32): bv32
    requires k < 32
  {
    u | (1 << k)
  }

  lemma WithBitAt(u: bv32, k: bv32, j: bv32)
    requires k < 32 && j < 32
    ensures BitAt(WithBit(u, k), j) <==> j == k || BitAt(u, j)
  {
  }

  lemma NoBitAt(j: bv32)
    requires j < 32
    ensures !BitAt(0, j)
  {
  }

  lemma AmountsDiffer(i: nat, j: nat)
    requires i < 32 && j < 32
    ensures Times(i) < 32 && (Times(i) == Times(j) <==> i == j)
  {
    hide Times;
    TimesAt(i);
    TimesValue(i);
    TimesValue(j);
  }

  /** Bit i of a bitmap. */
  predicate Marked(words: seq<bv32>, i: nat)
    requires |words| == WORDS && i < WINDOW_SIZE
  {
    Times(i % 32) < 32 && BitAt(words[i / 32], Times(i % 32))
  }

  lemma MarkedAfter(words: seq<bv32>, i: nat, j: nat)
    requires |words| == WORDS && i < WINDOW_SIZE && j < WINDOW_SIZE && Times(i % 32) < 32
    ensures Marked(words[i / 32 := WithBit(words[i / 32], Times(i % 32))], j) <==> j == i || Marked(words, j)
  {
    hide BitAt, WithBit, Times;
    AmountsDiffer(j % 32, i % 32);
    if i / 32 == j / 32 { WithBitAt(words[i / 32], Times(i % 32), Times(j % 32)); }
  }

  // ----- groups

  /** A copy arrives in time: not more than the free windows behind the base, nor a whole round ahead. */
  predicate InTime(top: nat, number: nat) {
    top <= number + REACH && number < top + GROUPS
  }

  /** What the code compares: the wire's number, brought above the base. */
  function Raised(base: u16, group: u16): nat {
    if group < base then group + GROUPS else group
  }

  /** Where a window of 1024 groups begins, and what lies within 32 of them. */
  lemma ReachIs(top: nat, number: nat)
    ensures top <= number < top + REACH <==> top <= number < top + 32 * 1024
    ensures number - number % WINDOW_SIZE == number / 1024 * 1024
  {
  }

  /** Any copy at all passes for one that is within reach exactly when it is so around the circle of 16-bit numbers. */
  lemma LooksNewExactly(top: nat, number: nat)
    ensures Raised(top % GROUPS, number % GROUPS) < top % GROUPS + REACH <==> (number - top) % 65536 < 32768
  {
    var q, r := top / GROUPS, number / GROUPS;
    assert top == q * GROUPS + top % GROUPS && number == r * GROUPS + number % GROUPS;
    var d := number % GROUPS - top % GROUPS;
    assert number - top == (r - q) * GROUPS + d;
    assert ((r - q) * GROUPS + d) % GROUPS == d % GROUPS;
  }

  lemma RaisedIs(top: nat, number: nat)
    requires top <= number + GROUPS && number < top + GROUPS
    ensures var base, group := top % GROUPS, number % GROUPS;
            Raised(base, group) - base == if number < top then number - top + GROUPS else number - top
  {
    var q := top / GROUPS;
    assert top == q * GROUPS + top % GROUPS;
    Rounds(number, q);
  }

  /** So a copy from before the base, but not from more than a round before it, does exactly when it is older than the
      free windows: then it is queued again, and the base moves on by almost a round. */
  lemma OldCopyLooksNewExactly(top: nat, number: nat)
    requires number < top <= number + GROUPS
    ensures Raised(top % GROUPS, number % GROUPS) < top % GROUPS + REACH <==> number + 32 * 1024 < top
  {
    RaisedIs(top, number);
  }

  /** A number at most a round away from round q is in that round or a neighbour. */
  lemma Rounds(number: nat, q: nat)
    requires q * GROUPS - GROUPS <= number < q * GROUPS + 2 * GROUPS
    ensures number % GROUPS == number - q * GROUPS
         || number % GROUPS == number - q * GROUPS + GROUPS
         || number % GROUPS == number - q * GROUPS - GROUPS
  {
  }

  /** The window of an accepted group starts at the wire's number of its true start. */
  lemma StartOnWire(number: nat)
    ensures var start := number - number % WINDOW_SIZE;
            && start % GROUPS == number % GROUPS - (number % GROUPS) % WINDOW_SIZE
            && (number % GROUPS) % WINDOW_SIZE == number % WINDOW_SIZE && start % WINDOW_SIZE == 0
  {
    var q, r := number / GROUPS, number % GROUPS;
    assert number == q * GROUPS + r;
    assert (q * 64 * WINDOW_SIZE + r) % WINDOW_SIZE == r % WINDOW_SIZE;
  }

  lemma SameStart(top: nat, number: nat)
    requires top % WINDOW_SIZE == 0 && top <= number < top + GROUPS
    ensures var start := number - number % WINDOW_SIZE;
            (start % GROUPS == top % GROUPS <==> start == top) && top <= start
  {
    var start := number - number % WINDOW_SIZE;
    assert start % WINDOW_SIZE == 0;
    assert number - top >= number % WINDOW_SIZE by { Multiples(top, number); }
    if start % GROUPS == top % GROUPS {
      assert (start - top) % GROUPS == 0;
    }
  }

  lemma Multiples(top: nat, number: nat)
    requires top % WINDOW_SIZE == 0 && top <= number
    ensures top <= number - number % WINDOW_SIZE
  {
    var a := top / WINDOW_SIZE;
    var b := number / WINDOW_SIZE;
    assert top == a * WINDOW_SIZE && number == b * WINDOW_SIZE + number % WINDOW_SIZE;
    assert a <= b;
  }

  /** The code's tests on 16-bit numbers mean what they should. */
  lemma Arrival(top: nat, number: nat)
    requires InTime(top, number) && top % WINDOW_SIZE == 0
    ensures var base, group, start := top % GROUPS, number % GROUPS, number - number % WINDOW_SIZE;
            var index := group % WINDOW_SIZE;
            && (Raised(base, group) < base + REACH <==> top <= number < top + REACH)
            && Raised(base, group) % GROUPS == group
            && index == number - start && group - index == start % GROUPS && start % WINDOW_SIZE == 0
            && (top <= number ==> top <= start && (group - index == base <==> start == top))
  {
    RaisedIs(top, number);
    StartOnWire(number);
    if top <= number { SameStart(top, number); }
  }

  // ----- the receiver

  /** `top` is the base as a number that never wraps, `queued` the groups that were queued. */
  class Window {
    var incomingUnsequencedGroup: u16
    const unsequencedWindow: array<bv32>
    ghost var top: nat
    ghost var queued: set<nat>

    /** The bitmap shows which groups of the base's window were queued; none was queued beyond it. */
    ghost predicate Valid()
      reads this, unsequencedWindow
    {
      && unsequencedWindow.Length == WORDS
      && top % WINDOW_SIZE == 0 && incomingUnsequencedGroup == top % GROUPS
      && (forall n :: n in queued ==> n < top + WINDOW_SIZE)
      && (forall i :: 0 <= i < WINDOW_SIZE ==> (Marked(unsequencedWindow[..], i) <==> top + i in queued))
    }

    constructor ()
      ensures Valid() && top == 0 && queued == {} && fresh(unsequencedWindow)
    {
      incomingUnsequencedGroup := 0;
      unsequencedWindow := new bv32[WORDS](_ => 0);
      top, queued := 0, {};
      new;
      NothingMarked(unsequencedWindow[..]);
    }

    /** enet_protocol_handle_send_unsequenced, for a copy of group `number`.  A group is queued when it is within the
        free windows from the base on, was not queued before, and there is memory for it; never twice. */
    method HandleSendUnsequenced(unsequencedGroup: u16, ghost number: nat, memory: bool) returns (result: bool)
      requires Valid() && unsequencedGroup == number % GROUPS && InTime(top, number)
      modifies this, unsequencedWindow
      ensures Valid()
      ensures result <==> old(top) <= number < old(top) + REACH && number !in old(queued) && memory
      ensures queued == if result then old(queued) + {number} else old(queued)
      ensures top == if old(top) <= number < old(top) + REACH && number !in old(queued)
                     then number - number % WINDOW_SIZE else old(top)
    {
      hide Valid, Marked, Tests, BitAt, WithBit, Times, Raised, InTime;
      Base(number);
      Arrival(top, number);
      var index := unsequencedGroup % WINDOW_SIZE;
      var group := Raised(incomingUnsequencedGroup, unsequencedGroup);
      if group >= incomingUnsequencedGroup + REACH { return false; }
      group := group % GROUPS;
      if group - index != incomingUnsequencedGroup {
        Clear(group - index, number - number % WINDOW_SIZE);
      } else {
        var seen := Check(index);
        if seen { return false; }
      }
      if !memory { return false; }
      Mark(index, number);
      result := true;
    }

    /** The base on the wire; and a later window begins beyond every group that was queued. */
    lemma Base(number: nat)
      requires Valid()
      ensures top % WINDOW_SIZE == 0 && incomingUnsequencedGroup == top % GROUPS
      ensures unsequencedWindow.Length == WORDS
      ensures var start := number - number % WINDOW_SIZE;
              top < start ==> forall n :: n in queued ==> n < start
    {
      hide Marked;
      var start := number - number % WINDOW_SIZE;
      if top < start {
        var a, b := top / WINDOW_SIZE, number / WINDOW_SIZE;
        assert top == a * WINDOW_SIZE && start == b * WINDOW_SIZE;
        assert a + 1 <= b;
      }
    }

    method Check(index: nat) returns (seen: bool)
      requires Valid() && index < WINDOW_SIZE
      ensures seen <==> top + index in queued
    {
      hide Marked, Tests, BitAt, WithBit, Times;
      TimesAt(index % 32);
      TestsBit(unsequencedWindow[index / 32], Times(index % 32));
      MarkedIs(unsequencedWindow[..], index);
      seen := Tests(unsequencedWindow[index / 32], Times(index % 32));
    }

    /** The base moves on, and the bitmap is cleared. */
    method Clear(group: u16, ghost start: nat)
      requires unsequencedWindow.Length == WORDS && start % WINDOW_SIZE == 0 && group == start % GROUPS
      requires forall n :: n in queued ==> n < start
      modifies this`incomingUnsequencedGroup, this`top, unsequencedWindow
      ensures Valid() && top == start
    {
      incomingUnsequencedGroup := group;
      top := start;
      forall i | 0 <= i < WORDS { unsequencedWindow[i] := 0; }
      NothingMarked(unsequencedWindow[..]);
    }

    method Mark(index: nat, ghost number: nat)
      requires Valid() && index < WINDOW_SIZE && number == top + index
      modifies this`queued, unsequencedWindow
      ensures Valid() && queued == old(queued) + {number}
    {
      hide Marked, BitAt, WithBit, Times;
      TimesAt(index % 32);
      ghost var words := unsequencedWindow[..];
      unsequencedWindow[index / 32] := WithBit(unsequencedWindow[index / 32], Times(index % 32));
      queued := queued + {number};
      assert unsequencedWindow[..] == words[index / 32 := WithBit(words[index / 32], Times(index % 32))];
      forall i | 0 <= i < WINDOW_SIZE ensures Marked(unsequencedWindow[..], i) <==> top + i in queued {
        MarkedAfter(words, index, i);
      }
    }
  }

  lemma MarkedIs(words: seq<bv32>, i: nat)
    requires |words| == WORDS && i < WINDOW_SIZE && Times(i % 32) < 32
    ensures Marked(words, i) == BitAt(words[i / 32], Times(i % 32))
  {
    hide Times, BitAt;
  }

  lemma NothingMarked(words: seq<bv32>)
    requires |words| == WORDS && forall i :: 0 <= i < WORDS ==> words[i] == 0
    ensures forall i :: 0 <= i < WINDOW_SIZE ==> !Marked(words, i)
  {
    hide BitAt, Times;
    forall i | 0 <= i < WINDOW_SIZE ensures !Marked(words, i) {
      TimesAt(i % 32);
      NoBitAt(Times(i % 32));
    }
  }
}
