/** The symbol array of compress.c as a sequence, and how a tree lies in it.  Children are stored as
    forward offsets from their parent; 0 means none.  The functions below are what the walking
    and rescaling macros leave in the array; the lemmas say which tree that is. */
module Symbols {
  import opened Bytes
  import opened RangeCoding
  import opened Frequencies
  import opened Trees

  datatype Symbol = Symbol(
    value: byte, count: byte, under: u16, left: u16, right: u16,
    symbols: u16, escapes: u16, total: u16, parent: u16)

  /** ENET_SYMBOL_CREATE */
  function Fresh(value: byte, count: byte): Symbol {
    Symbol(value, count, count, 0, 0, 0, 0, 0, 0)
  }

  function Offset(t: Tree, base: nat): int {
    if t.Leaf? then 0 else t.slot - base
  }

  ghost predicate After(t: Tree, base: nat) {
    t.Node? ==> base < t.slot
  }

  ghost predicate Below(t: Tree, n: nat) {
    t.Node? ==> t.slot < n && Below(t.left, n) && Below(t.right, n)
  }

  lemma {:induction false} SlotsBelow(t: Tree, n: nat)
    requires Below(t, n)
    ensures forall x :: x in Slots(t) ==> x < n
  {
    if t.Node? {
      SlotsBelow(t.left, n);
      SlotsBelow(t.right, n);
    }
  }

  lemma {:induction false} BelowMore(t: Tree, n: nat, more: nat)
    requires Below(t, n) && n <= more
    ensures Below(t, more)
  {
    if t.Node? {
      BelowMore(t.left, n, more);
      BelowMore(t.right, n, more);
    }
  }

  /** The nodes of `t` are in the array, each in its slot. */
  ghost predicate Stored(s: seq<Symbol>, t: Tree) {
    t.Node? ==>
      && t.slot < |s|
      && s[t.slot].value == t.value && s[t.slot].count == t.count && s[t.slot].under == t.under
      && s[t.slot].left == Offset(t.left, t.slot) && s[t.slot].right == Offset(t.right, t.slot)
      && After(t.left, t.slot) && After(t.right, t.slot)
      && Stored(s, t.left) && Stored(s, t.right)
  }

  /** The fields that belong to the node's place in a tree. */
  predicate SameNode(a: Symbol, b: Symbol) {
    a.value == b.value && a.count == b.count && a.under == b.under && a.left == b.left && a.right == b.right
  }

  /** The fields that belong to the context the symbol defines. */
  predicate SameContext(a: Symbol, b: Symbol) {
    a.symbols == b.symbols && a.escapes == b.escapes && a.total == b.total && a.parent == b.parent
  }

  lemma {:induction false} StoredFrame(s: seq<Symbol>, other: seq<Symbol>, t: Tree)
    requires Stored(s, t) && |s| <= |other|
    requires forall x :: x in Slots(t) && x < |s| ==> SameNode(s[x], other[x])
    ensures Stored(other, t)
  {
    if t.Node? {
      StoredFrame(s, other, t.left);
      StoredFrame(s, other, t.right);
    }
  }

  lemma {:induction false} StoredBelow(s: seq<Symbol>, t: Tree)
    requires Stored(s, t)
    ensures Below(t, |s|)
  {
    if t.Node? {
      StoredBelow(s, t.left);
      StoredBelow(s, t.right);
    }
  }

  // ----- walking along a path

  /** The array after a walk from node `t` along `p`, `d` being added at its end. */
  ghost function Walked(s: seq<Symbol>, t: Tree, p: Path, v: byte, d: byte, next: nat): (after: seq<Symbol>)
    requires t.Node? && Fits(t, p) && Below(t, |s|) && next < |s|
    ensures |after| == |s|
    decreases p
  {
    var i := t.slot;
    match p
    case Stop =>
      s[i := s[i].(under := (s[i].under + d) % 0x1_0000, count := (s[i].count + d) % 256)]
    case GoLeft(q) =>
      var s1 := s[i := s[i].(under := (s[i].under + d) % 0x1_0000)];
      if t.left.Node? then Walked(s1, t.left, q, v, d, next)
      else var s2 := s1[next := Fresh(v, d)]; s2[i := s2[i].(left := (next - i) % 0x1_0000)]
    case GoRight(q) =>
      if t.right.Node? then Walked(s, t.right, q, v, d, next)
      else var s2 := s[next := Fresh(v, d)]; s2[i := s2[i].(right := (next - i) % 0x1_0000)]
  }

  ghost predicate Room(t: Tree, p: Path, d: byte, cap: nat)
    requires Fits(t, p)
  {
    && d > 0 && Sound(t, cap) && Mass(t) + d < 0x1_0000
    && (if Target(t, p).Leaf? then 0 else Target(t, p).count) + d < 256
  }

  /** What a walk leaves alone. */
  ghost predicate Untouched(s: seq<Symbol>, after: seq<Symbol>, slots: set<nat>, next: nat)
    requires |s| == |after|
  {
    && (forall j :: 0 <= j < |s| && j !in slots && j != next ==> after[j] == s[j])
    && (forall j :: 0 <= j < |s| && j != next ==> SameContext(after[j], s[j]))
  }

  lemma StoredElsewhere(s: seq<Symbol>, after: seq<Symbol>, t: Tree, slots: set<nat>, next: nat)
    requires |s| == |after| && Untouched(s, after, slots, next)
    requires Stored(s, t) && Below(t, next) && Slots(t) !! slots
    ensures Stored(after, t)
  {
    SlotsBelow(t, next);
    StoredFrame(s, after, t);
  }

  lemma {:induction false} WalkedStores(s: seq<Symbol>, t: Tree, p: Path, v: byte, d: byte, next: nat, cap: nat)
    requires t.Node? && Fits(t, p) && Stored(s, t) && Distinct(t) && Below(t, next) && next < |s| <= 0x1_0000
    requires Room(t, p, d, cap)
    ensures Below(t, |s|)
    ensures var after := Walked(s, t, p, v, d, next);
      && Stored(after, Update(t, p, v, d, next))
      && Untouched(s, after, Slots(t), next)
      && after[next] == (if Target(t, p).Leaf? then Fresh(v, d) else s[next])
    decreases p, 0
  {
    BelowMore(t, next, |s|);
    SlotsBelow(t, next);
    match p
    case Stop =>
      StoredFrame(s, Walked(s, t, p, v, d, next), t.left);
      StoredFrame(s, Walked(s, t, p, v, d, next), t.right);
    case GoLeft(q) => WalkedLeft(s, t, q, v, d, next, cap);
    case GoRight(q) => WalkedRight(s, t, q, v, d, next, cap);
  }

  lemma {:induction false} WalkedLeft(s: seq<Symbol>, t: Tree, q: Path, v: byte, d: byte, next: nat, cap: nat)
    requires var p := GoLeft(q);
      && t.Node? && Fits(t, p) && Stored(s, t) && Distinct(t) && Below(t, next) && next < |s| <= 0x1_0000
      && Room(t, p, d, cap) && Below(t, |s|) && forall x :: x in Slots(t) ==> x < next
    ensures var p := GoLeft(q); var after := Walked(s, t, p, v, d, next);
      && Stored(after, Update(t, p, v, d, next))
      && Untouched(s, after, Slots(t), next)
      && after[next] == (if Target(t, p).Leaf? then Fresh(v, d) else s[next])
    decreases q, 1
  {
    var i := t.slot;
    var s1 := s[i := s[i].(under := (s[i].under + d) % 0x1_0000)];
    StoredFrame(s, s1, t.left);
    var after := Walked(s, t, GoLeft(q), v, d, next);
    if t.left.Node? {
      WalkedStores(s1, t.left, q, v, d, next, cap);
      assert after == Walked(s1, t.left, q, v, d, next);
    } else {
      assert Stored(after, Update(t.left, q, v, d, next));
    }
    assert Untouched(s, after, Slots(t.left) + {i}, next);
    StoredElsewhere(s, after, t.right, Slots(t.left) + {i}, next);
  }

  lemma {:induction false} WalkedRight(s: seq<Symbol>, t: Tree, q: Path, v: byte, d: byte, next: nat, cap: nat)
    requires var p := GoRight(q);
      && t.Node? && Fits(t, p) && Stored(s, t) && Distinct(t) && Below(t, next) && next < |s| <= 0x1_0000
      && Room(t, p, d, cap) && Below(t, |s|) && forall x :: x in Slots(t) ==> x < next
    ensures var p := GoRight(q); var after := Walked(s, t, p, v, d, next);
      && Stored(after, Update(t, p, v, d, next))
      && Untouched(s, after, Slots(t), next)
      && after[next] == (if Target(t, p).Leaf? then Fresh(v, d) else s[next])
    decreases q, 1
  {
    var after := Walked(s, t, GoRight(q), v, d, next);
    if t.right.Node? {
      WalkedStores(s, t.right, q, v, d, next, cap);
      assert after == Walked(s, t.right, q, v, d, next);
    } else {
      assert Stored(after, Update(t.right, q, v, d, next));
    }
    assert Untouched(s, after, Slots(t.right) + {t.slot}, next);
    StoredElsewhere(s, after, t.left, Slots(t.right) + {t.slot}, next);
  }

  // ----- rescaling

  /** The array after enet_symbol_rescale on the subtree `t`. */
  ghost function Shrunken(s: seq<Symbol>, t: Tree): (after: seq<Symbol>)
    requires Below(t, |s|)
    ensures |after| == |s|
    decreases t
  {
    if t.Leaf? then s
    else
      var s1 := Shrunken(ShrunkenNode(s, t.slot), t.left);
      var s2 := s1[t.slot := s1[t.slot].(under := (s1[t.slot].under + Mass(Halve(t.left))) % 0x1_0000)];
      Shrunken(s2, t.right)
  }

  function ShrunkenNode(s: seq<Symbol>, i: nat): (after: seq<Symbol>)
    requires i < |s|
  {
    var count := Half(s[i].count);
    s[i := s[i].(count := count, under := count)]
  }

  /** The node and its left subtree, rescaled. */
  ghost function ShrunkenHalf(s: seq<Symbol>, t: Tree): (after: seq<Symbol>)
    requires t.Node? && Below(t, |s|)
    ensures |after| == |s|
  {
    var s1 := Shrunken(ShrunkenNode(s, t.slot), t.left);
    s1[t.slot := s1[t.slot].(under := (s1[t.slot].under + Mass(Halve(t.left))) % 0x1_0000)]
  }

  lemma {:induction false} HalveBelow(t: Tree, n: nat)
    requires Below(t, n)
    ensures Below(Halve(t), n)
  {
    if t.Node? {
      HalveBelow(t.left, n);
      HalveBelow(t.right, n);
    }
  }

  lemma UntouchedTwice(s: seq<Symbol>, mid: seq<Symbol>, after: seq<Symbol>, a: set<nat>, b: set<nat>, next: nat)
    requires |s| == |mid| == |after| && Untouched(s, mid, a, next) && Untouched(mid, after, b, next)
    ensures Untouched(s, after, a + b, next)
  {
  }

  lemma ShrunkenSplits(s: seq<Symbol>, t: Tree)
    requires t.Node? && Below(t, |s|)
    ensures Shrunken(s, t) == Shrunken(ShrunkenHalf(s, t), t.right)
  {
    hide Below, Mass, Halve, ShrunkenNode;
  }

  /** The node's own numbers do not overflow. */
  lemma HalvedNode(t: Tree, cap: nat)
    requires t.Node? && Sound(t, cap) && Mass(t) < 0x1_0000
    ensures Halve(t).count == Half(t.count) && Halve(t).under == Half(t.count) + Mass(Halve(t.left)) < 0x1_0000
    ensures Mass(t.left) < 0x1_0000 && Sound(t.left, cap)
  {
    HalveKeeps(t.left, cap);
  }

  lemma NodeWritten(s: seq<Symbol>, t: Tree)
    requires t.Node? && Stored(s, t) && Distinct(t) && Below(t, |s|)
    ensures t.slot < |s| && Untouched(s, ShrunkenNode(s, t.slot), {t.slot}, |s|)
    ensures t.slot !in Slots(t.left) && Distinct(t.left) && Below(t.left, |s|)
    ensures Stored(ShrunkenNode(s, t.slot), t.left)
    ensures s[t.slot].value == t.value && s[t.slot].count == t.count
  {
    StoredFrame(s, ShrunkenNode(s, t.slot), t.left);
  }

  /** Writing `under` of a node outside a subtree. */
  lemma UnderWritten(s: seq<Symbol>, i: nat, under: u16, u: Tree)
    requires i < |s| && Stored(s, u) && i !in Slots(u) && Below(u, |s|)
    ensures var after := s[i := s[i].(under := under)]; Stored(after, u) && Untouched(s, after, {i}, |s|)
  {
    StoredFrame(s, s[i := s[i].(under := under)], u);
  }

  /** The left half: the node and its left subtree are done, the right subtree is as it was. */
  lemma {:induction false} ShrunkenLeft(s: seq<Symbol>, t: Tree, cap: nat) returns (mid: seq<Symbol>)
    requires t.Node? && Stored(s, t) && Distinct(t) && Below(t, |s|) && Sound(t, cap) && Mass(t) < 0x1_0000
    ensures mid == ShrunkenHalf(s, t) && Shrunken(s, t) == Shrunken(mid, t.right)
    ensures Untouched(s, mid, Slots(t.left) + {t.slot}, |s|)
    ensures Stored(mid, Halve(t.left))
    ensures var n := mid[t.slot];
            && n.value == t.value && n.count == Halve(t).count && n.under == Halve(t).under
            && n.left == s[t.slot].left && n.right == s[t.slot].right
    decreases t, 0
  {
    hide Sound, Mass, Halve, Half, Shrunken, Slots, Below, Distinct, Stored;
    var i := t.slot;
    NodeWritten(s, t);
    HalvedNode(t, cap);
    ShrunkenSplits(s, t);
    var s0 := ShrunkenNode(s, i);
    ShrunkenStores(s0, t.left, cap);
    var s1 := Shrunken(s0, t.left);
    HalveKeeps(t.left, cap);
    HalveBelow(t.left, |s|);
    assert s1[i] == s0[i];
    mid := ShrunkenHalf(s, t);
    UnderWritten(s1, i, (s1[i].under + Mass(Halve(t.left))) % 0x1_0000, Halve(t.left));
    UntouchedTwice(s, s0, s1, {i}, Slots(t.left), |s|);
    UntouchedTwice(s, s1, mid, {i} + Slots(t.left), {i}, |s|);
    assert {i} + Slots(t.left) + {i} == Slots(t.left) + {i};
  }

  lemma {:induction false} ShrunkenStores(s: seq<Symbol>, t: Tree, cap: nat)
    requires Stored(s, t) && Distinct(t) && Below(t, |s|) && Sound(t, cap) && Mass(t) < 0x1_0000
    ensures Stored(Shrunken(s, t), Halve(t))
    ensures Untouched(s, Shrunken(s, t), Slots(t), |s|)
    decreases t, 1
  {
    if t.Node? {
      var mid := ShrunkenLeft(s, t, cap);
      StoredElsewhere(s, mid, t.right, Slots(t.left) + {t.slot}, |s|);
      ShrunkenStores(mid, t.right, cap);
      HalveKeeps(t.left, cap);
      HalveBelow(t.left, |s|);
      var after := Shrunken(mid, t.right);
      StoredElsewhere(mid, after, Halve(t.left), Slots(t.right), |s|);
      assert Slots(t) == Slots(t.left) + {t.slot} + Slots(t.right);
      hide Sound, Mass, Slots, Shrunken, Distinct, Below;
      UntouchedTwice(s, mid, after, Slots(t.left) + {t.slot}, Slots(t.right), |s|);
    }
  }
}
