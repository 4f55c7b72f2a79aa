/** The search tree of one context, as a value.  A node remembers the array slot it lives in; its
    `under` is its own count plus all counts in its left subtree, so a walk from the top finds
    prefix sums without visiting every node.

    `Sound` says nothing about the order of values: it also holds of the trees a decoder builds
    from bytes that no encoder produced.  `Stands` adds the order, and says which table of
    frequencies the tree stands for. */
module Trees {
  import opened Bytes
  import opened RangeCoding
  import opened Frequencies

  datatype Tree =
    | Leaf
    | Node(slot: nat, value: byte, count: nat, under: nat, left: Tree, right: Tree)

  /** A walk from the top: to a node, or to a missing child. */
  datatype Path = Stop | GoLeft(next: Path) | GoRight(next: Path)

  // ----- measures

  ghost function Mass(t: Tree): nat {
    if t.Leaf? then 0 else t.count + Mass(t.left) + Mass(t.right)
  }

  ghost function Size(t: Tree): nat {
    if t.Leaf? then 0 else 1 + Size(t.left) + Size(t.right)
  }

  ghost function Slots(t: Tree): set<nat> {
    if t.Leaf? then {} else {t.slot} + Slots(t.left) + Slots(t.right)
  }

  ghost predicate Distinct(t: Tree) {
    t.Node? ==>
      && Distinct(t.left) && Distinct(t.right)
      && t.slot !in Slots(t.left) && t.slot !in Slots(t.right)
      && Slots(t.left) !! Slots(t.right)
  }

  /** Counts are positive and at most `cap`, and `under` is what it should be. */
  ghost predicate Sound(t: Tree, cap: nat) {
    t.Node? ==>
      && 0 < t.count <= cap
      && t.under == t.count + Mass(t.left)
      && Sound(t.left, cap) && Sound(t.right, cap)
  }

  // ----- walking and updating

  ghost predicate Fits(t: Tree, p: Path) {
    match p
    case Stop => true
    case GoLeft(q) => t.Node? && Fits(t.left, q)
    case GoRight(q) => t.Node? && Fits(t.right, q)
  }

  /** Where the path ends: a subtree, or Leaf for a missing child. */
  ghost function Target(t: Tree, p: Path): Tree
    requires Fits(t, p)
  {
    match p
    case Stop => t
    case GoLeft(q) => Target(t.left, q)
    case GoRight(q) => Target(t.right, q)
  }

  /** The tree after the update macros: `d` more for the node at the end of the path, which is
      created in `slot` with value `v` when it is missing. */
  ghost function Update(t: Tree, p: Path, v: byte, d: nat, slot: nat): Tree
    requires Fits(t, p)
  {
    match p
    case Stop =>
      if t.Leaf? then Node(slot, v, d, d, Leaf, Leaf) else t.(count := t.count + d, under := t.under + d)
    case GoLeft(q) => t.(under := t.under + d, left := Update(t.left, q, v, d, slot))
    case GoRight(q) => t.(right := Update(t.right, q, v, d, slot))
  }

  /** enet_symbol_rescale: every count is halved (rounding up) and every `under` recomputed. */
  ghost function Halve(t: Tree): Tree {
    if t.Leaf? then Leaf
    else
      var left := Halve(t.left);
      var count := Half(t.count);
      Node(t.slot, t.value, count, count + Mass(left), left, Halve(t.right))
  }

  /** The path the encoder takes, led by the value. */
  ghost function ByValue(t: Tree, v: byte): (p: Path)
    ensures Fits(t, p)
  {
    if t.Leaf? || v == t.value then Stop
    else if v < t.value then GoLeft(ByValue(t.left, v)) else GoRight(ByValue(t.right, v))
  }

  /** What the encoder's walk adds up in `under`, and finds as `count`. */
  ghost function Before(t: Tree, v: byte): nat {
    if t.Leaf? then 0
    else if v < t.value then Before(t.left, v)
    else if v > t.value then t.under + Before(t.right, v)
    else if t.under >= t.count then t.under - t.count else 0
  }

  ghost function CountOf(t: Tree, v: byte): nat {
    var target := Target(t, ByValue(t, v));
    if target.Leaf? then 0 else target.count
  }

  /** The path the decoder takes, led by the code; `acc` is what lies to the left of `t`. */
  ghost function ByCode(t: Tree, code: nat, m: nat, acc: nat): (p: Path)
    ensures Fits(t, p)
  {
    if t.Leaf? then Stop
    else
      var after := acc + t.under + (t.value + 1) * m;
      if code >= after then GoRight(ByCode(t.right, code, m, acc + t.under))
      else if code + t.count + m < after then GoLeft(ByCode(t.left, code, m, acc))
      else Stop
  }

  /** What the decoder concludes at the end of that path. */
  datatype Landing = Landing(value: byte, under: nat, count: nat)

  ghost function Land(t: Tree, code: nat, m: nat, acc: nat): Landing
    requires acc <= code
  {
    if t.Leaf? then Landing((code - acc) % 256, code, m)
    else
      var after := acc + t.under + (t.value + 1) * m;
      if code >= after then Land(t.right, code, m, acc + t.under)
      else if code + t.count + m < after then Land(t.left, code, m, acc)
      else Landing(t.value, if after >= t.count + m then after - (t.count + m) else 0, t.count + m)
  }

  // ----- what the operations keep

  lemma Loosen(t: Tree, cap: nat, wide: nat)
    requires Sound(t, cap) && cap <= wide
    ensures Sound(t, wide)
  {
  }

  lemma {:induction false} UpdateKeeps(t: Tree, p: Path, v: byte, d: nat, slot: nat, cap: nat, wide: nat)
    requires Fits(t, p) && Sound(t, cap) && cap <= wide && d > 0
    requires var target := Target(t, p); (if target.Leaf? then 0 else target.count) + d <= wide
    ensures Mass(Update(t, p, v, d, slot)) == Mass(t) + d
    ensures Sound(Update(t, p, v, d, slot), wide)
    decreases p
  {
    if t.Node? {
      Loosen(t.left, cap, wide);
      Loosen(t.right, cap, wide);
    }
    match p
    case Stop =>
    case GoLeft(q) => UpdateKeeps(t.left, q, v, d, slot, cap, wide);
    case GoRight(q) => UpdateKeeps(t.right, q, v, d, slot, cap, wide);
  }

  lemma {:induction false} UpdateSlots(t: Tree, p: Path, v: byte, d: nat, slot: nat)
    requires Fits(t, p) && Distinct(t) && slot !in Slots(t)
    ensures var u := Update(t, p, v, d, slot);
            Distinct(u) && Slots(u) == (if Target(t, p).Leaf? then Slots(t) + {slot} else Slots(t))
    decreases p
  {
    match p
    case Stop =>
    case GoLeft(q) => UpdateSlots(t.left, q, v, d, slot);
    case GoRight(q) => UpdateSlots(t.right, q, v, d, slot);
  }

  lemma {:induction false} HalveKeeps(t: Tree, cap: nat)
    requires Sound(t, cap)
    ensures Sound(Halve(t), Half(cap))
    ensures Mass(t) <= 2 * Mass(Halve(t)) <= Mass(t) + Size(t)
    ensures Mass(Halve(t)) <= Mass(t)
    ensures Slots(Halve(t)) == Slots(t) && Size(Halve(t)) == Size(t)
    ensures Distinct(t) ==> Distinct(Halve(t))
  {
    if t.Node? {
      HalveKeeps(t.left, cap);
      HalveKeeps(t.right, cap);
    }
  }

  lemma {:induction false} SizeIsSlots(t: Tree)
    requires Distinct(t)
    ensures Size(t) == |Slots(t)|
  {
    if t.Node? {
      SizeIsSlots(t.left);
      SizeIsSlots(t.right);
      assert |{t.slot} + Slots(t.left)| == 1 + |Slots(t.left)|;
      assert |{t.slot} + Slots(t.left) + Slots(t.right)| == |{t.slot} + Slots(t.left)| + |Slots(t.right)|;
    }
  }

  lemma {:induction false} FewBelow(s: set<nat>, n: nat)
    requires forall x :: x in s ==> x < n
    ensures |s| <= n
  {
    if n > 0 {
      FewBelow(s - {n - 1}, n - 1);
      if n - 1 in s {
        assert s == (s - {n - 1}) + {n - 1};
      } else {
        assert s - {n - 1} == s;
      }
    } else {
      assert s == {};
    }
  }

  // ----- trees that stand for a table

  /** The tree holds exactly the non-zero counts of the values in [lo, hi), in order. */
  ghost predicate Stands(t: Tree, counts: seq<nat>, lo: nat, hi: nat)
    requires |counts| == 256
    decreases t
  {
    if t.Leaf? then forall v :: lo <= v < hi && v < 256 ==> counts[v] == 0
    else
      && lo <= t.value < hi <= 256
      && t.count == counts[t.value]
      && Stands(t.left, counts, lo, t.value)
      && Stands(t.right, counts, t.value + 1, hi)
  }

  lemma {:induction false} StandsMass(t: Tree, counts: seq<nat>, lo: nat, hi: nat)
    requires |counts| == 256 && lo <= hi <= 256 && Stands(t, counts, lo, hi)
    ensures Mass(t) == Sum(counts, lo, hi)
  {
    if t.Leaf? {
      SumZero(counts, lo, hi);
    } else {
      StandsMass(t.left, counts, lo, t.value);
      StandsMass(t.right, counts, t.value + 1, hi);
      SumSplit(counts, lo, t.value, hi);
      SumSplit(counts, t.value, t.value + 1, hi);
    }
  }

  /** The sums of the encoder's walk are the prefix sums of the table. */
  lemma {:induction false} WalkFindsSums(t: Tree, counts: seq<nat>, lo: nat, hi: nat, v: byte, cap: nat)
    requires |counts| == 256 && lo <= v < hi <= 256 && Stands(t, counts, lo, hi) && Sound(t, cap)
    ensures Before(t, v) == Sum(counts, lo, v)
    ensures CountOf(t, v) == counts[v]
    ensures Target(t, ByValue(t, v)).Leaf? <==> counts[v] == 0
  {
    if t.Leaf? {
      SumZero(counts, lo, v);
    } else if v < t.value {
      WalkFindsSums(t.left, counts, lo, t.value, v, cap);
    } else if v > t.value {
      WalkFindsSums(t.right, counts, t.value + 1, hi, v, cap);
      StandsMass(t.left, counts, lo, t.value);
      SumSplit(counts, lo, t.value, v);
      SumSplit(counts, t.value, t.value + 1, v);
    } else {
      StandsMass(t.left, counts, lo, t.value);
    }
  }

  /** At each node the code turns the same way as the value. */
  lemma CodeTurns(t: Tree, counts: seq<nat>, lo: nat, hi: nat, v: byte, cap: nat, offset: nat, m: nat)
    requires |counts| == 256 && lo <= v < hi <= 256 && Stands(t, counts, lo, hi) && Sound(t, cap) && m <= 1
    requires t.Node? && v * m + Sum(counts, lo, v) <= offset < v * m + Sum(counts, lo, v) + counts[v] + m
    ensures v > t.value <==> offset >= t.under + (t.value + 1) * m
    ensures v < t.value <==> offset + t.count + m < t.under + (t.value + 1) * m
    ensures v > t.value ==> Sum(counts, lo, v) == t.under + Sum(counts, t.value + 1, v)
    ensures v == t.value ==> t.under == Sum(counts, lo, v) + counts[v]
  {
    StandsMass(t.left, counts, lo, t.value);
    if v < t.value {
      SumSplit(counts, lo, v + 1, t.value);
    } else if v > t.value {
      SumSplit(counts, lo, t.value, v);
      SumSplit(counts, t.value, t.value + 1, v);
    }
  }

  lemma CodeLands(t: Tree, counts: seq<nat>, lo: nat, hi: nat, v: byte, cap: nat, code: nat, m: nat, acc: nat)
    requires |counts| == 256 && lo <= v < hi <= 256 && Stands(t, counts, lo, hi) && Sound(t, cap) && m <= 1
    requires acc + v * m + Sum(counts, lo, v) <= code < acc + v * m + Sum(counts, lo, v) + counts[v] + m
    requires t.Leaf? || t.value == v
    ensures Land(t, code, m, acc) == Landing(v, acc + v * m + Sum(counts, lo, v), counts[v] + m)
    ensures ByCode(t, code, m, acc) == Stop
  {
    if t.Leaf? {
      SumZero(counts, lo, v);
      assert m == 1 && counts[v] == 0;
    } else {
      CodeTurns(t, counts, lo, hi, v, cap, code - acc, m);
      assert (v + 1) * m == v * m + m;
    }
  }

  /** The decoder's walk, led by any code in the interval of `v`, takes the encoder's path for `v`
      and reconstructs the value, the start and the size of that interval. */
  lemma {:induction false} CodeFindsValue(t: Tree, counts: seq<nat>, lo: nat, hi: nat, v: byte, cap: nat,
                                         code: nat, m: nat, acc: nat)
    requires |counts| == 256 && lo <= v < hi <= 256 && Stands(t, counts, lo, hi) && Sound(t, cap) && m <= 1
    requires acc + v * m + Sum(counts, lo, v) <= code < acc + v * m + Sum(counts, lo, v) + counts[v] + m
    ensures ByCode(t, code, m, acc) == ByValue(t, v)
    ensures Land(t, code, m, acc) == Landing(v, acc + v * m + Sum(counts, lo, v), counts[v] + m)
  {
    if t.Leaf? || t.value == v {
      CodeLands(t, counts, lo, hi, v, cap, code, m, acc);
    } else {
      CodeTurns(t, counts, lo, hi, v, cap, code - acc, m);
      var after := acc + t.under + (t.value + 1) * m;
      if v < t.value {
        assert code + t.count + m < after;
        CodeFindsValue(t.left, counts, lo, t.value, v, cap, code, m, acc);
      } else {
        assert code >= after;
        CodeFindsValue(t.right, counts, t.value + 1, hi, v, cap, code, m, acc + t.under);
      }
    }
  }

  /** The code lies in the interval of `v`. */
  predicate Covers(counts: seq<nat>, m: nat, v: byte, code: nat)
    requires |counts| == 256
  {
    v * m + Sum(counts, 0, v) <= code < v * m + Sum(counts, 0, v) + counts[v] + m
  }

  /** The intervals leave no gap. */
  lemma {:induction false} SomeoneCovers(counts: seq<nat>, m: nat, hi: nat, code: nat) returns (v: byte)
    requires |counts| == 256 && m <= 1 && 0 < hi <= 256 && code < hi * m + Sum(counts, 0, hi)
    ensures v < hi && Covers(counts, m, v, code)
  {
    if code >= (hi - 1) * m + Sum(counts, 0, hi - 1) {
      v := hi - 1;
    } else {
      v := SomeoneCovers(counts, m, hi - 1, code);
    }
  }

  /** Every code below the context's symbol mass lies in the interval of exactly one byte, and the decoder's walk finds
      that byte. */
  lemma EveryCodeFindsItsByte(t: Tree, counts: seq<nat>, cap: nat, code: nat, m: nat) returns (v: byte)
    requires |counts| == 256 && Stands(t, counts, 0, 256) && Sound(t, cap) && m <= 1 && code < 256 * m + Mass(t)
    ensures forall u: byte :: Covers(counts, m, u, code) <==> u == v
    ensures ByCode(t, code, m, 0) == ByValue(t, v)
    ensures Land(t, code, m, 0) == Landing(v, v * m + Sum(counts, 0, v), counts[v] + m)
  {
    StandsMass(t, counts, 0, 256);
    v := SomeoneCovers(counts, m, 256, code);
    CodeFindsValue(t, counts, 0, 256, v, cap, code, m, 0);
    hide Stands, Sound, Land, ByCode, ByValue, Sum, Mass;
    forall u: byte | Covers(counts, m, u, code) ensures u == v {
      CodeFindsValue(t, counts, 0, 256, u, cap, code, m, 0);
    }
  }

  lemma {:induction false} StandsFrame(t: Tree, counts: seq<nat>, other: seq<nat>, lo: nat, hi: nat)
    requires |counts| == |other| == 256 && hi <= 256 && Stands(t, counts, lo, hi)
    requires forall v :: lo <= v < hi ==> counts[v] == other[v]
    ensures Stands(t, other, lo, hi)
  {
    if t.Node? {
      StandsFrame(t.left, counts, other, lo, t.value);
      StandsFrame(t.right, counts, other, t.value + 1, hi);
    }
  }

  lemma {:induction false} UpdateStands(t: Tree, counts: seq<nat>, lo: nat, hi: nat, v: byte, d: nat, slot: nat)
    requires |counts| == 256 && lo <= v < hi <= 256 && Stands(t, counts, lo, hi)
    ensures Stands(Update(t, ByValue(t, v), v, d, slot), counts[v := counts[v] + d], lo, hi)
  {
    var other := counts[v := counts[v] + d];
    if t.Leaf? {
      assert counts[v] == 0;
      assert Stands(Leaf, other, lo, v) && Stands(Leaf, other, v + 1, hi);
    } else {
      if v < t.value {
        UpdateStands(t.left, counts, lo, t.value, v, d, slot);
        StandsFrame(t.right, counts, other, t.value + 1, hi);
      } else if v > t.value {
        UpdateStands(t.right, counts, t.value + 1, hi, v, d, slot);
        StandsFrame(t.left, counts, other, lo, t.value);
      } else {
        StandsFrame(t.left, counts, other, lo, t.value);
        StandsFrame(t.right, counts, other, t.value + 1, hi);
      }
    }
  }

  lemma {:induction false} HalveStands(t: Tree, counts: seq<nat>, lo: nat, hi: nat)
    requires |counts| == 256 && hi <= 256 && Stands(t, counts, lo, hi)
    ensures Stands(Halve(t), Halved(counts), lo, hi)
  {
    if t.Node? {
      HalveStands(t.left, counts, lo, t.value);
      HalveStands(t.right, counts, t.value + 1, hi);
    }
  }

  // ----- what a tree looks like without its numbers

  ghost function SkeletonOf(t: Tree): Skeleton {
    if t.Leaf? then Bare else Joint(SkeletonOf(t.left), t.value, SkeletonOf(t.right))
  }

  lemma {:induction false} UpdateSkeleton(t: Tree, v: byte, d: nat, slot: nat)
    ensures SkeletonOf(Update(t, ByValue(t, v), v, d, slot)) == Placed(SkeletonOf(t), v)
  {
    if t.Node? {
      if v < t.value {
        UpdateSkeleton(t.left, v, d, slot);
      } else if v > t.value {
        UpdateSkeleton(t.right, v, d, slot);
      }
    }
  }

  lemma {:induction false} HalveSkeleton(t: Tree)
    ensures SkeletonOf(Halve(t)) == SkeletonOf(t)
  {
    if t.Node? {
      HalveSkeleton(t.left);
      HalveSkeleton(t.right);
    }
  }
}
