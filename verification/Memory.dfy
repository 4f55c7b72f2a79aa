/** All contexts together: the trees that lie in the symbol array, the bytes that lead to each slot,
    and the links from every context to the next shorter one. */
module Memory {
  import opened Bytes
  import opened RangeCoding
  import opened Frequencies
  import opened Trees
  import opened Symbols
  import opened Contexts
  import opened Ppm

  /** For every slot in use: the tree of the context it defines, and the bytes that lead to it. */
  datatype Shadow = Shadow(trees: seq<Tree>, names: seq<Name>)

  ghost predicate Named(t: Tree, names: seq<Name>, prefix: Name) {
    t.Node? ==>
      && t.slot < |names| && names[t.slot] == prefix + [t.value]
      && Named(t.left, names, prefix) && Named(t.right, names, prefix)
  }

  /** Context `c` has tree `t`. */
  ghost predicate Housed(s: seq<Symbol>, c: nat, t: Tree, names: seq<Name>)
    requires c < |names| <= |s|
  {
    && s[c].symbols == Offset(t, c) && After(t, c)
    && Stored(s, t) && Distinct(t) && Below(t, |names|) && Named(t, names, names[c])
  }

  ghost predicate Shape(s: seq<Symbol>, sh: Shadow) {
    && |s| == SYMBOLS && 0 < |sh.trees| == |sh.names| <= SYMBOLS
    && (forall c :: 0 <= c < |sh.trees| ==> Housed(s, c, sh.trees[c], sh.names))
    && (forall b, c :: 0 <= b < c < |sh.trees| ==> Slots(sh.trees[b]) !! Slots(sh.trees[c]))
  }

  lemma ShapeSizes(s: seq<Symbol>, sh: Shadow)
    requires Shape(s, sh)
    ensures |s| == SYMBOLS && 0 < |sh.trees| == |sh.names| <= SYMBOLS
  {
  }

  function MinimumAt(c: nat): nat {
    if c == 0 then 1 else 0
  }

  ghost predicate Numbers(s: seq<Symbol>, sh: Shadow)
    requires |sh.trees| <= |s|
  {
    forall c :: 0 <= c < |sh.trees| ==> Balanced(s[c].escapes, s[c].total, sh.trees[c], MinimumAt(c))
  }

  /** Every slot but the root links to the slot whose name is one byte shorter at the front; slot
      `except` may not be linked yet. */
  ghost predicate Linked(s: seq<Symbol>, names: seq<Name>, except: int)
    requires |names| <= |s|
  {
    && 0 < |names| && names[0] == []
    && forall x :: 0 < x < |names| ==>
         && names[x] != []
         && (x != except ==> s[x].parent < |names| && names[s[x].parent] == names[x][1..])
  }

  // ----- replacing the tree of one context

  /** The shadow when context `c` gets tree `t`; with `created`, one more slot is in use. */
  ghost function Replace(sh: Shadow, c: nat, t: Tree, created: bool, v: byte): Shadow
    requires c < |sh.trees| == |sh.names|
  {
    if created then Shadow(sh.trees[c := t] + [Leaf], sh.names + [sh.names[c] + [v]])
    else Shadow(sh.trees[c := t], sh.names)
  }

  lemma {:induction false} NamedMore(t: Tree, names: seq<Name>, more: seq<Name>, prefix: Name)
    requires Named(t, names, prefix) && |names| <= |more|
    requires forall x :: 0 <= x < |names| ==> more[x] == names[x]
    ensures Named(t, more, prefix)
  {
    if t.Node? {
      NamedMore(t.left, names, more, prefix);
      NamedMore(t.right, names, more, prefix);
    }
  }

  /** What may differ when only the tree of context `c` changes. */
  ghost predicate OnlyTree(s: seq<Symbol>, after: seq<Symbol>, sh: Shadow, c: nat)
    requires c < |sh.trees| <= |s| == |after|
  {
    && (forall j :: 0 <= j < |sh.trees| && j !in Slots(sh.trees[c]) ==> SameNode(after[j], s[j]))
    && (forall j :: 0 <= j < |sh.trees| && j != c ==> after[j].symbols == s[j].symbols)
  }

  lemma HousedElsewhere(s: seq<Symbol>, after: seq<Symbol>, sh: Shadow, c: nat, b: nat, names: seq<Name>)
    requires Shape(s, sh) && |after| == |s| && c < |sh.trees| && b < |sh.trees| && b != c
    requires OnlyTree(s, after, sh, c)
    requires |sh.names| <= |names| <= |s| && forall x :: 0 <= x < |sh.names| ==> names[x] == sh.names[x]
    ensures Housed(after, b, sh.trees[b], names)
  {
    var t := sh.trees[b];
    assert Housed(s, b, t, sh.names);
    assert Slots(sh.trees[c]) !! Slots(t);
    SlotsBelow(t, |sh.names|);
    StoredFrame(s, after, t);
    BelowMore(t, |sh.names|, |names|);
    NamedMore(t, sh.names, names, names[b]);
  }

  lemma ShapeReplaced(s: seq<Symbol>, after: seq<Symbol>, sh: Shadow, c: nat, t: Tree, created: bool, v: byte)
    requires Shape(s, sh) && |after| == |s| && c < |sh.trees| && OnlyTree(s, after, sh, c)
    requires created ==> |sh.trees| < SYMBOLS && after[|sh.trees|].symbols == 0
    requires var sh' := Replace(sh, c, t, created, v); Housed(after, c, t, sh'.names)
    requires Slots(t) == (if created then Slots(sh.trees[c]) + {|sh.trees|} else Slots(sh.trees[c]))
    ensures Shape(after, Replace(sh, c, t, created, v))
  {
    var n := |sh.trees|;
    var sh' := Replace(sh, c, t, created, v);
    forall b | 0 <= b < |sh'.trees| ensures Housed(after, b, sh'.trees[b], sh'.names) {
      if b != c && b < n {
        HousedElsewhere(s, after, sh, c, b, sh'.names);
      }
    }
    forall b | 0 <= b < n && b != c ensures n !in Slots(sh.trees[b]) && Slots(t) !! Slots(sh.trees[b]) {
      assert Housed(s, b, sh.trees[b], sh.names);
      SlotsBelow(sh.trees[b], n);
      assert Slots(sh.trees[c]) !! Slots(sh.trees[b]);
    }
  }

  // ----- coding a byte in one context

  lemma {:induction false} UpdateNamed(t: Tree, p: Path, v: byte, d: nat, slot: nat, names: seq<Name>, prefix: Name)
    requires Fits(t, p) && Named(t, names, prefix)
    requires Target(t, p).Leaf? ==> slot < |names| && names[slot] == prefix + [v]
    ensures Named(Update(t, p, v, d, slot), names, prefix)
    decreases p
  {
    match p
    case Stop =>
    case GoLeft(q) => UpdateNamed(t.left, q, v, d, slot, names, prefix);
    case GoRight(q) => UpdateNamed(t.right, q, v, d, slot, names, prefix);
  }

  lemma {:induction false} UpdateBelow(t: Tree, p: Path, v: byte, d: nat, slot: nat, n: nat)
    requires Fits(t, p) && Below(t, n) && (Target(t, p).Leaf? ==> slot < n)
    ensures Below(Update(t, p, v, d, slot), n)
    decreases p
  {
    match p
    case Stop =>
    case GoLeft(q) => UpdateBelow(t.left, q, v, d, slot, n);
    case GoRight(q) => UpdateBelow(t.right, q, v, d, slot, n);
  }

  lemma {:induction false} HalveNamed(t: Tree, names: seq<Name>, prefix: Name)
    requires Named(t, names, prefix)
    ensures Named(Halve(t), names, prefix)
  {
    if t.Node? {
      HalveNamed(t.left, names, prefix);
      HalveNamed(t.right, names, prefix);
    }
  }

  /** The array after the walk from context `c`. */
  ghost function WalkedFrom(s: seq<Symbol>, c: nat, t: Tree, p: Path, v: byte, d: byte, next: nat): (after: seq<Symbol>)
    requires c < |s| && Fits(t, p) && Below(t, |s|) && next < |s|
    ensures |after| == |s|
  {
    if t.Node? then Walked(s, t, p, v, d, next)
    else var s1 := s[next := Fresh(v, d)]; s1[c := s1[c].(symbols := (next - c) % 0x1_0000)]
  }

  ghost function Created(t: Tree, p: Path): bool
    requires Fits(t, p)
  {
    Target(t, p).Leaf?
  }

  ghost function Grown(sh: Shadow, c: nat, p: Path, v: byte): Shadow
    requires c < |sh.trees| == |sh.names| && Fits(sh.trees[c], p)
  {
    var t := sh.trees[c];
    Replace(sh, c, Raise(t, p, v, MinimumAt(c), |sh.trees|), Created(t, p), v)
  }

  /** What the walk from context `c` may change besides the nodes on its way. */
  ghost predicate OnlyWalk(s: seq<Symbol>, after: seq<Symbol>, c: nat, slots: set<nat>, next: nat)
    requires |s| == |after|
  {
    && (forall j :: 0 <= j < |s| && j !in slots && j != next ==> SameNode(after[j], s[j]))
    && (forall j :: 0 <= j < |s| && j != next && j != c ==> after[j].symbols == s[j].symbols)
    && (forall j :: 0 <= j < |s| && j != next ==>
          after[j].escapes == s[j].escapes && after[j].total == s[j].total && after[j].parent == s[j].parent)
  }

  lemma WalkedFromStores(s: seq<Symbol>, c: nat, t: Tree, p: Path, v: byte, d: byte, next: nat, cap: nat)
    requires c < next < |s| <= 0x1_0000 && s[c].symbols == Offset(t, c) && After(t, c)
    requires Fits(t, p) && Stored(s, t) && Distinct(t) && Below(t, next) && Room(t, p, d, cap)
    ensures Below(t, |s|)
    ensures var after := WalkedFrom(s, c, t, p, v, d, next); var u := Update(t, p, v, d, next);
      && after[c].symbols == Offset(u, c) && After(u, c) && Stored(after, u)
      && OnlyWalk(s, after, c, Slots(t), next)
      && (Created(t, p) ==> after[next] == Fresh(v, d))
  {
    BelowMore(t, next, |s|);
    if t.Node? {
      WalkedStores(s, t, p, v, d, next, cap);
    }
  }

  lemma GrownIsNamed(sh: Shadow, c: nat, p: Path, v: byte, n: nat)
    requires c < |sh.trees| == |sh.names| == n && Fits(sh.trees[c], p)
    requires Distinct(sh.trees[c]) && Below(sh.trees[c], n) && Named(sh.trees[c], sh.names, sh.names[c])
    ensures var g := Grown(sh, c, p, v); var t := sh.trees[c]; var u := Raise(t, p, v, MinimumAt(c), n);
      && Distinct(u) && Below(u, |g.names|) && Named(u, g.names, g.names[c])
      && Slots(u) == (if Created(t, p) then Slots(t) + {n} else Slots(t))
  {
    var t := sh.trees[c];
    var d := Delta(MinimumAt(c));
    var names := Grown(sh, c, p, v).names;
    NamedMore(t, sh.names, names, names[c]);
    UpdateNamed(t, p, v, d, n, names, names[c]);
    BelowMore(t, n, |names|);
    UpdateBelow(t, p, v, d, n, |names|);
    SlotsBelow(t, n);
    UpdateSlots(t, p, v, d, n);
  }

  lemma HasRoom(s: seq<Symbol>, sh: Shadow, c: nat, p: Path)
    requires |sh.trees| <= |s| && Numbers(s, sh) && c < |sh.trees| && Fits(sh.trees[c], p)
    ensures var m := MinimumAt(c); Room(sh.trees[c], p, Delta(m), Cap(m))
  {
    var m := MinimumAt(c);
    assert Balanced(s[c].escapes, s[c].total, sh.trees[c], m);
    TargetFound(sh.trees[c], p, Cap(m));
  }

  /** The context's totals do not count the new byte yet; once they do, all is balanced. */
  ghost predicate Due(s: seq<Symbol>, sh: Shadow, c: nat, count: nat)
    requires c < |sh.trees| <= |s|
  {
    && (forall b :: 0 <= b < |sh.trees| && b != c ==> Balanced(s[b].escapes, s[b].total, sh.trees[b], MinimumAt(b)))
    && Owing(s[c].escapes, s[c].total, sh.trees[c], MinimumAt(c), count)
  }

  lemma SizeFits(t: Tree, n: nat)
    requires Distinct(t) && Below(t, n)
    ensures Size(t) <= n
  {
    SizeIsSlots(t);
    SlotsBelow(t, n);
    FewBelow(Slots(t), n);
  }

  /** After the walk the trees are in place again, and the totals are due. */
  lemma WalkKeepsShape(s: seq<Symbol>, sh: Shadow, c: nat, p: Path, v: byte)
    requires Shape(s, sh) && Numbers(s, sh) && c < |sh.trees| < SYMBOLS && Fits(sh.trees[c], p)
    ensures Below(sh.trees[c], |s|)
    ensures var t := sh.trees[c]; var n := |sh.trees|; var m := MinimumAt(c);
            var after := WalkedFrom(s, c, t, p, v, Delta(m), n);
      && Shape(after, Grown(sh, c, p, v))
      && OnlyWalk(s, after, c, Slots(t), n)
      && (Created(t, p) ==> after[n] == Fresh(v, Delta(m)))
  {
    var t := sh.trees[c];
    var n := |sh.trees|;
    var m := MinimumAt(c);
    assert Housed(s, c, t, sh.names);
    HasRoom(s, sh, c, p);
    WalkedFromStores(s, c, t, p, v, Delta(m), n, Cap(m));
    GrownIsNamed(sh, c, p, v, n);
    SlotsBelow(t, n);
    ShapeReplaced(s, WalkedFrom(s, c, t, p, v, Delta(m), n), sh, c, Raise(t, p, v, m, n), Created(t, p), v);
  }

  lemma GrownOwes(s: seq<Symbol>, sh: Shadow, c: nat, p: Path, v: byte)
    requires Shape(s, sh) && Numbers(s, sh) && c < |sh.trees| < SYMBOLS && Fits(sh.trees[c], p)
    ensures var m := MinimumAt(c);
            Owing(s[c].escapes, s[c].total, Raise(sh.trees[c], p, v, m, |sh.trees|), m, Found(sh.trees[c], p, m))
  {
    var m := MinimumAt(c);
    assert Housed(s, c, sh.trees[c], sh.names);
    assert Balanced(s[c].escapes, s[c].total, sh.trees[c], m);
    GrownIsNamed(sh, c, p, v, |sh.trees|);
    SizeFits(Raise(sh.trees[c], p, v, m, |sh.trees|), |Grown(sh, c, p, v).names|);
    RaiseOwes(s[c].escapes, s[c].total, sh.trees[c], p, v, m, |sh.trees|);
  }

  lemma WalkIsDue(s: seq<Symbol>, sh: Shadow, c: nat, p: Path, v: byte, after: seq<Symbol>)
    requires Shape(s, sh) && Numbers(s, sh) && c < |sh.trees| < SYMBOLS && Fits(sh.trees[c], p)
    requires |after| == |s| && OnlyWalk(s, after, c, Slots(sh.trees[c]), |sh.trees|)
    requires Created(sh.trees[c], p) ==> after[|sh.trees|] == Fresh(v, Delta(MinimumAt(c)))
    ensures Due(after, Grown(sh, c, p, v), c, Found(sh.trees[c], p, MinimumAt(c)))
  {
    var g := Grown(sh, c, p, v);
    GrownOwes(s, sh, c, p, v);
    forall b | 0 <= b < |g.trees| && b != c
      ensures Balanced(after[b].escapes, after[b].total, g.trees[b], MinimumAt(b))
    {
      if b < |sh.trees| {
        assert Balanced(s[b].escapes, s[b].total, sh.trees[b], MinimumAt(b));
      }
    }
  }

  // ----- settling the totals

  /** The totals of context `c` with the new byte. */
  function Counted(s: seq<Symbol>, c: nat, count: nat, m: nat): (after: seq<Symbol>)
    requires c < |s|
    ensures |after| == |s|
  {
    s[c := s[c].(escapes := (s[c].escapes + Extra(count)) % 0x1_0000,
                 total := (s[c].total + Extra(count) + Delta(m)) % 0x1_0000)]
  }

  /** ENET_CONTEXT_RESCALE */
  ghost function Rescaled(s: seq<Symbol>, c: nat, t: Tree, m: nat): (after: seq<Symbol>)
    requires c < |s| && Below(t, |s|)
    ensures |after| == |s|
  {
    var s1 := Shrunken(s, t);
    var e := Half(s1[c].escapes);
    s1[c := s1[c].(escapes := e, total := (Mass(Halve(t)) + e + 256 * m) % 0x1_0000)]
  }

  /** The array after the totals of context `c` were brought up to date. */
  ghost function Adapted(s: seq<Symbol>, c: nat, t: Tree, count: nat, m: nat): (after: seq<Symbol>)
    requires c < |s| && Below(t, |s|)
    ensures |after| == |s|
  {
    var s1 := Counted(s, c, count, m);
    if Overflows(count, s1[c].total, m) then Rescaled(s1, c, t, m) else s1
  }

  ghost function AdaptedTree(s: seq<Symbol>, c: nat, t: Tree, count: nat, m: nat): Tree
    requires c < |s|
  {
    if Overflows(count, s[c].total + Extra(count) + Delta(m), m) then Halve(t) else t
  }

  ghost function AdaptedEscapes(s: seq<Symbol>, c: nat, count: nat, m: nat): nat
    requires c < |s|
  {
    var e := s[c].escapes + Extra(count);
    if Overflows(count, s[c].total + Extra(count) + Delta(m), m) then Half(e) else e
  }

  /** What settling may change besides the nodes of the context's own tree. */
  ghost predicate OnlyTotals(s: seq<Symbol>, after: seq<Symbol>, c: nat, slots: set<nat>)
    requires |s| == |after|
  {
    && (forall j :: 0 <= j < |s| && j !in slots ==> SameNode(after[j], s[j]))
    && (forall j :: 0 <= j < |s| ==> after[j].symbols == s[j].symbols && after[j].parent == s[j].parent)
    && (forall j :: 0 <= j < |s| && j != c ==> after[j].escapes == s[j].escapes && after[j].total == s[j].total)
  }

  /** Writing two context fields of one slot. */
  lemma ContextWritten(s: seq<Symbol>, mid: seq<Symbol>, after: seq<Symbol>, c: nat, u: Tree, slots: set<nat>)
    requires c < |s| == |mid| == |after| && Stored(mid, u) && Untouched(s, mid, slots, |s|)
    requires after == mid[c := mid[c].(escapes := after[c].escapes, total := after[c].total)]
    ensures Stored(after, u) && OnlyTotals(s, after, c, slots)
  {
    StoredFrame(mid, after, u);
  }

  lemma RescaledStores(s: seq<Symbol>, c: nat, t: Tree, m: nat)
    requires c < |s| && Stored(s, t) && Distinct(t) && Below(t, |s|) && Sound(t, 255) && Mass(t) < BOTTOM
    ensures Stored(Rescaled(s, c, t, m), Halve(t)) && OnlyTotals(s, Rescaled(s, c, t, m), c, Slots(t))
  {
    hide Stored, Distinct, Below, Sound, Halve, Half;
    ShrunkenStores(s, t, 255);
    ContextWritten(s, Shrunken(s, t), Rescaled(s, c, t, m), c, Halve(t), Slots(t));
  }

  lemma RescaledTotals(s: seq<Symbol>, c: nat, t: Tree, m: nat, mass: nat)
    requires c < |s| && Stored(s, t) && Distinct(t) && Below(t, |s|) && Sound(t, 255) && Mass(t) < BOTTOM
    requires mass == Mass(Halve(t)) && Half(s[c].escapes) + 256 * m + mass < BOTTOM
    ensures Rescaled(s, c, t, m)[c].escapes == Half(s[c].escapes)
    ensures Rescaled(s, c, t, m)[c].total == Half(s[c].escapes) + 256 * m + mass
  {
    hide Stored, Distinct, Sound, Below, Halve, Mass, Half, Shrunken;
    ShrunkenStores(s, t, 255);
  }

  lemma TotalsCompose(s: seq<Symbol>, s1: seq<Symbol>, after: seq<Symbol>, c: nat, slots: set<nat>)
    requires c < |s| == |s1| == |after| && OnlyTotals(s, s1, c, {}) && OnlyTotals(s1, after, c, slots)
    ensures OnlyTotals(s, after, c, slots)
  {
  }

  lemma AdaptedStores(s: seq<Symbol>, c: nat, t: Tree, count: nat, m: nat)
    requires c < |s| && Stored(s, t) && Distinct(t) && Below(t, |s|)
    requires Owing(s[c].escapes, s[c].total, t, m, count)
    ensures var after := Adapted(s, c, t, count, m);
            Stored(after, AdaptedTree(s, c, t, count, m)) && OnlyTotals(s, after, c, Slots(t))
  {
    hide Stored, Distinct, Below, Sound, Mass, Halve, Half, Balanced;
    var s1 := Counted(s, c, count, m);
    ContextWritten(s, s, s1, c, t, {});
    if Overflows(count, s1[c].total, m) {
      RescaledStores(s1, c, t, m);
      TotalsCompose(s, s1, Rescaled(s1, c, t, m), c, Slots(t));
    }
  }

  lemma AdaptedIsBalanced(s: seq<Symbol>, c: nat, t: Tree, count: nat, m: nat)
    requires c < |s| && Stored(s, t) && Distinct(t) && Below(t, |s|)
    requires Owing(s[c].escapes, s[c].total, t, m, count)
    ensures var after := Adapted(s, c, t, count, m);
            Balanced(after[c].escapes, after[c].total, AdaptedTree(s, c, t, count, m), m)
            && after[c].escapes == AdaptedEscapes(s, c, count, m)
  {
    hide Stored, Distinct, Below, Sound, Mass, Halve, Half;
    var s1 := Counted(s, c, count, m);
    if Overflows(count, s1[c].total, m) {
      ContextWritten(s, s, s1, c, t, {});
      RescaledTotals(s1, c, t, m, Mass(Halve(t)));
    }
  }

  ghost function AdaptedShadow(sh: Shadow, s: seq<Symbol>, c: nat, count: nat): Shadow
    requires c < |sh.trees| <= |s|
  {
    sh.(trees := sh.trees[c := AdaptedTree(s, c, sh.trees[c], count, MinimumAt(c))])
  }

  /** Settling the totals of a context keeps all trees in place and balances the context. */
  lemma AdaptKeepsShape(s: seq<Symbol>, sh: Shadow, c: nat, count: nat)
    requires Shape(s, sh) && c < |sh.trees| && Due(s, sh, c, count)
    ensures Below(sh.trees[c], |s|)
    ensures var after := Adapted(s, c, sh.trees[c], count, MinimumAt(c));
      && Shape(after, AdaptedShadow(sh, s, c, count))
      && OnlyTotals(s, after, c, Slots(sh.trees[c]))
      && Numbers(after, AdaptedShadow(sh, s, c, count))
      && after[c].escapes == AdaptedEscapes(s, c, count, MinimumAt(c))
  {
    var t := sh.trees[c];
    var m := MinimumAt(c);
    var u := AdaptedTree(s, c, t, count, m);
    assert Housed(s, c, t, sh.names);
    BelowMore(t, |sh.names|, |s|);
    AdaptedStores(s, c, t, count, m);
    AdaptedIsBalanced(s, c, t, count, m);
    HalveKeeps(t, 255);
    HalveBelow(t, |sh.names|);
    HalveNamed(t, sh.names, sh.names[c]);
    AdaptReplaces(s, Adapted(s, c, t, count, m), sh, c, u);
  }

  lemma AdaptReplaces(s: seq<Symbol>, after: seq<Symbol>, sh: Shadow, c: nat, u: Tree)
    requires Shape(s, sh) && c < |sh.trees| && |after| == |s| && OnlyTotals(s, after, c, Slots(sh.trees[c]))
    requires Stored(after, u) && Distinct(u) && Below(u, |sh.names|) && Named(u, sh.names, sh.names[c])
    requires Slots(u) == Slots(sh.trees[c]) && Offset(u, c) == Offset(sh.trees[c], c) && After(u, c)
    ensures Shape(after, sh.(trees := sh.trees[c := u]))
  {
    assert Housed(s, c, sh.trees[c], sh.names);
    assert Housed(after, c, u, sh.names);
    ShapeReplaced(s, after, sh, c, u, false, 0);
  }

  // ----- one context between walk and settling

  /** Context `c` has walked along `p` for byte `v` and found or made `symbol`; its totals are due. */
  ghost predicate Descended(s: seq<Symbol>, sh: Shadow, c: nat, p: Path, v: byte,
                            after: seq<Symbol>, sh': Shadow, symbol: nat, next: nat)
    requires c < |sh.trees| == |sh.names| < |s| && Fits(sh.trees[c], p)
  {
    var t := sh.trees[c];
    var n := |sh.trees|;
    && sh' == Grown(sh, c, p, v) && c < |sh'.trees| == |sh'.names| <= |after| == |s|
    && OnlyWalk(s, after, c, Slots(t), n)
    && (Created(t, p) ==> after[n] == Fresh(v, Delta(MinimumAt(c))))
    && symbol == (if Created(t, p) then n else Target(t, p).slot)
    && 0 < symbol < |sh'.names| == next && sh'.names[symbol] == sh.names[c] + [v]
  }

  lemma {:induction false} TargetNamed(s: seq<Symbol>, t: Tree, p: Path, names: seq<Name>, prefix: Name, c: nat)
    requires Fits(t, p) && Named(t, names, prefix) && Stored(s, t) && After(t, c) && Target(t, p).Node?
    ensures var u := Target(t, p); c < u.slot < |names| && names[u.slot] == prefix + [u.value]
    decreases p
  {
    match p
    case Stop =>
    case GoLeft(q) => TargetNamed(s, t.left, q, names, prefix, c);
    case GoRight(q) => TargetNamed(s, t.right, q, names, prefix, c);
  }

  lemma DescendsTo(s: seq<Symbol>, sh: Shadow, c: nat, p: Path, v: byte, after: seq<Symbol>, symbol: nat, next: nat)
    requires c < |sh.trees| == |sh.names| < |s| == SYMBOLS && Housed(s, c, sh.trees[c], sh.names)
    requires Fits(sh.trees[c], p)
    requires |after| == |s| && OnlyWalk(s, after, c, Slots(sh.trees[c]), |sh.trees|)
    requires Created(sh.trees[c], p) ==> after[|sh.trees|] == Fresh(v, Delta(MinimumAt(c)))
    requires Target(sh.trees[c], p).Node? ==> Target(sh.trees[c], p).value == v
    requires if Created(sh.trees[c], p) then symbol == |sh.trees| && next == |sh.trees| + 1
             else symbol == Target(sh.trees[c], p).slot && next == |sh.trees|
    ensures Descended(s, sh, c, p, v, after, Grown(sh, c, p, v), symbol, next)
  {
    if !Created(sh.trees[c], p) {
      TargetNamed(s, sh.trees[c], p, sh.names, sh.names[c], c);
    }
    hide OnlyWalk, Stored, Distinct, Below, Named, Fits;
  }

  lemma Descends(s: seq<Symbol>, sh: Shadow, c: nat, p: Path, v: byte, after: seq<Symbol>, symbol: nat, next: nat)
    requires Shape(s, sh) && Numbers(s, sh) && c < |sh.trees| < SYMBOLS && Fits(sh.trees[c], p)
    requires Below(sh.trees[c], |s|)
    requires after == WalkedFrom(s, c, sh.trees[c], p, v, Delta(MinimumAt(c)), |sh.trees|)
    requires Target(sh.trees[c], p).Node? ==> Target(sh.trees[c], p).value == v
    requires if Created(sh.trees[c], p) then symbol == |sh.trees| && next == |sh.trees| + 1
             else symbol == Target(sh.trees[c], p).slot && next == |sh.trees|
    ensures Descended(s, sh, c, p, v, after, Grown(sh, c, p, v), symbol, next)
    ensures Shape(after, Grown(sh, c, p, v))
    ensures Due(after, Grown(sh, c, p, v), c, Found(sh.trees[c], p, MinimumAt(c)))
  {
    assert Housed(s, c, sh.trees[c], sh.names);
    hide Numbers, OnlyWalk, Due, Housed, Below, Fits, WalkedFrom;
    WalkKeepsShape(s, sh, c, p, v);
    WalkIsDue(s, sh, c, p, v, after);
    DescendsTo(s, sh, c, p, v, after, symbol, next);
  }

  lemma DescendedSizes(s: seq<Symbol>, sh: Shadow, c: nat, p: Path, v: byte,
                       after: seq<Symbol>, sh': Shadow, symbol: nat, next: nat)
    requires c < |sh.trees| == |sh.names| < |s| && Fits(sh.trees[c], p)
    requires Descended(s, sh, c, p, v, after, sh', symbol, next)
    ensures c < |sh'.trees| == |sh'.names| == next <= |after| == |s| && symbol < next
  {
    hide OnlyWalk, Grown, Fits, Target;
  }
}
