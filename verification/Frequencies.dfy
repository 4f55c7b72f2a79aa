/** One context of the model as a plain table of symbol frequencies: what the tree of a context in
    compress.c stands for.  `m` is the weight every byte has before it is seen: 1 in the root
    context, 0 in every other. */
module Frequencies {
  import opened Bytes
  import opened RangeCoding

  const SYMBOL_DELTA := 3
  const SUB_SYMBOL_DELTA := 2
  const SUB_ESCAPE_DELTA := 5
  const ESCAPE_MINIMUM := 1
  const MAX_TOTAL := BOTTOM - 0x100

  /** The tree of a context without its numbers: which byte has which below it depends on the order in which they
      came. */
  datatype Skeleton = Bare | Joint(left: Skeleton, value: byte, right: Skeleton)

  datatype Table = Table(escapes: nat, counts: seq<nat>, skeleton: Skeleton)

  /** A byte takes its place, unless it has one. */
  function Placed(k: Skeleton, v: byte): Skeleton {
    match k
    case Bare => Joint(Bare, v, Bare)
    case Joint(left, value, right) =>
      if v < value then Joint(Placed(left, v), value, right)
      else if v > value then Joint(left, value, Placed(right, v))
      else k
  }

  function Delta(m: nat): nat {
    if m == 0 then SUB_SYMBOL_DELTA else SYMBOL_DELTA
  }

  /** The largest count (with its minimum) that is not halved after the next update. */
  function CountLimit(m: nat): nat {
    0xFF - 2 * Delta(m) + m
  }

  function Empty(m: nat): Table {
    Table(if m == 0 then 0 else ESCAPE_MINIMUM, seq(256, _ => 0), Bare)
  }

  function Sum(counts: seq<nat>, lo: nat, hi: nat): nat
    requires lo <= hi <= |counts|
  {
    if lo == hi then 0 else Sum(counts, lo, hi - 1) + counts[hi - 1]
  }

  /** x -= x >> 1, the halving of every rescale: half, rounded up. */
  function Half(x: nat): (h: nat)
    ensures x <= 2 * h <= x + 1
  {
    x - x / 2
  }

  function Halved(counts: seq<nat>): seq<nat> {
    seq(|counts|, i requires 0 <= i < |counts| => Half(counts[i]))
  }

  function Total(t: Table, m: nat): nat
    requires |t.counts| == 256
  {
    t.escapes + 256 * m + Sum(t.counts, 0, 256)
  }

  /** under = value * minimum: the weight of all smaller bytes before any was seen. */
  function Weight(v: byte, m: nat): nat {
    v * m
  }

  /** Coding byte `v` in this context. */
  function SymbolStep(t: Table, v: byte, m: nat): Step
    requires |t.counts| == 256
  {
    Step(t.escapes + Weight(v, m) + Sum(t.counts, 0, v), t.counts[v] + m, Total(t, m))
  }

  /** Leaving this context for the next shorter one. */
  function EscapeStep(t: Table, m: nat): Step
    requires |t.counts| == 256
  {
    Step(0, t.escapes, Total(t, m))
  }

  function Raised(t: Table, v: byte, m: nat): Table
    requires |t.counts| == 256
  {
    Table(if m == 0 && t.counts[v] == 0 then t.escapes + SUB_ESCAPE_DELTA else t.escapes,
          t.counts[v := t.counts[v] + Delta(m)], Placed(t.skeleton, v))
  }

  predicate MustHalve(t: Table, v: byte, m: nat)
    requires |t.counts| == 256
  {
    t.counts[v] + m > CountLimit(m) || Total(Raised(t, v, m), m) > MAX_TOTAL
  }

  /** Seeing `v` once more in this context. */
  function Bump(t: Table, v: byte, m: nat): Table
    requires |t.counts| == 256
  {
    var r := Raised(t, v, m);
    if MustHalve(t, v, m) then Table(Half(r.escapes), Halved(r.counts), r.skeleton) else r
  }

  /** What holds of every context between two inputs. */
  ghost predicate Fit(t: Table, m: nat) {
    && m <= 1
    && |t.counts| == 256
    && (forall v :: 0 <= v < 256 ==> t.counts[v] <= 253)
    && Total(t, m) <= MAX_TOTAL
    && (if m == 1 then t.escapes == ESCAPE_MINIMUM
        else t.escapes <= 5 * Sum(t.counts, 0, 256) && (Sum(t.counts, 0, 256) > 0 ==> t.escapes > 0))
  }

  // ----- sums

  lemma {:induction false} SumSplit(counts: seq<nat>, lo: nat, mid: nat, hi: nat)
    requires lo <= mid <= hi <= |counts|
    ensures Sum(counts, lo, hi) == Sum(counts, lo, mid) + Sum(counts, mid, hi)
    decreases hi
  {
    if mid < hi {
      SumSplit(counts, lo, mid, hi - 1);
    }
  }

  lemma {:induction false} SumChange(counts: seq<nat>, lo: nat, hi: nat, v: nat, x: nat)
    requires lo <= hi <= |counts| && v < |counts|
    ensures Sum(counts[v := x], lo, hi) + (if lo <= v < hi then counts[v] else 0)
         == Sum(counts, lo, hi) + (if lo <= v < hi then x else 0)
    decreases hi
  {
    if lo < hi {
      SumChange(counts, lo, hi - 1, v, x);
    }
  }

  lemma {:induction false} SumZero(counts: seq<nat>, lo: nat, hi: nat)
    requires lo <= hi <= |counts| && forall v :: lo <= v < hi ==> counts[v] == 0
    ensures Sum(counts, lo, hi) == 0
    decreases hi
  {
    if lo < hi {
      SumZero(counts, lo, hi - 1);
    }
  }

  lemma {:induction false} SumHalved(counts: seq<nat>, lo: nat, hi: nat)
    requires lo <= hi <= |counts|
    ensures Sum(counts, lo, hi) <= 2 * Sum(Halved(counts), lo, hi) <= Sum(counts, lo, hi) + (hi - lo)
    ensures Sum(Halved(counts), lo, hi) <= Sum(counts, lo, hi)
    decreases hi
  {
    if lo < hi {
      SumHalved(counts, lo, hi - 1);
    }
  }

  /** A count and the sums on either side of it make up the whole. */
  lemma SumAround(counts: seq<nat>, v: nat)
    requires |counts| == 256 && v < 256
    ensures Sum(counts, 0, v) + counts[v] <= Sum(counts, 0, 256)
  {
    SumSplit(counts, 0, v + 1, 256);
  }

  // ----- the steps of a fit context are valid, and updating keeps it fit

  lemma EmptyIsFit(m: nat)
    requires m <= 1
    ensures Fit(Empty(m), m)
  {
    SumZero(Empty(m).counts, 0, 256);
  }

  lemma SymbolStepIsValid(t: Table, v: byte, m: nat)
    requires Fit(t, m) && t.counts[v] + m > 0
    ensures ValidStep(SymbolStep(t, v, m))
  {
    SumAround(t.counts, v);
  }

  lemma EscapeStepIsValid(t: Table, m: nat)
    requires Fit(t, m) && t.escapes > 0
    ensures ValidStep(EscapeStep(t, m)) && t.escapes < Total(t, m)
  {
  }

  lemma RaisedSum(t: Table, v: byte, m: nat)
    requires |t.counts| == 256
    ensures Sum(Raised(t, v, m).counts, 0, 256) == Sum(t.counts, 0, 256) + Delta(m)
  {
    SumChange(t.counts, 0, 256, v, t.counts[v] + Delta(m));
  }

  lemma BumpIsFit(t: Table, v: byte, m: nat)
    requires Fit(t, m)
    ensures Fit(Bump(t, v, m), m)
  {
    RaisedSum(t, v, m);
    SumAround(t.counts, v);
    SumHalved(Raised(t, v, m).counts, 0, 256);
  }
}
