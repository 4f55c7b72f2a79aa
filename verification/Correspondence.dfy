/** Two arrays that stand for the same model correspond slot by slot, although compressor and
    decompressor create their symbols in different orders. */
module Correspondence {
  import opened Bytes
  import opened RangeCoding
  import opened Frequencies
  import opened Trees
  import opened Symbols
  import opened Contexts
  import opened Ppm
  import opened Memory
  import opened Naming
  import opened Inputs

  /** An offset from slot x and one from slot y lead to slots with the same name, or both nowhere. */
  ghost predicate SameChild(names: seq<Name>, x: nat, o: int, names': seq<Name>, y: nat, o': int) {
    && (o == 0 <==> o' == 0)
    && (o != 0 ==> 0 <= x + o < |names| && 0 <= y + o' < |names'| && names[x + o] == names'[y + o'])
  }

  lemma ChildrenAgree(t: Tree, base: nat, names: seq<Name>, t': Tree, base': nat, names': seq<Name>, prefix: Name)
    requires SkeletonOf(t) == SkeletonOf(t') && After(t, base) && After(t', base')
    requires Named(t, names, prefix) && Named(t', names', prefix)
    ensures SameChild(names, base, Offset(t, base), names', base', Offset(t', base'))
  {
  }

  /** Two slots are nodes with the same byte and numbers, and the same bytes below them. */
  ghost predicate SameNodes(s: seq<Symbol>, names: seq<Name>, x: nat, other: seq<Symbol>, names': seq<Name>, y: nat) {
    && x < |s| && y < |other|
    && other[y].value == s[x].value && other[y].count == s[x].count && other[y].under == s[x].under
    && SameChild(names, x, s[x].left, names', y, other[y].left)
    && SameChild(names, x, s[x].right, names', y, other[y].right)
  }

  /** What is known of a tree in an array. */
  ghost predicate Grows(s: seq<Symbol>, t: Tree, names: seq<Name>, prefix: Name, counts: seq<nat>, lo: nat, hi: nat,
                        cap: nat)
    requires |counts| == 256
  {
    Stands(t, counts, lo, hi) && Stored(s, t) && Named(t, names, prefix) && Sound(t, cap)
  }

  /** In two trees of the same shape that stand for the same counts, a byte that was counted has nodes that agree. */
  lemma {:induction false} NodesAgree(s: seq<Symbol>, t: Tree, names: seq<Name>, other: seq<Symbol>, t': Tree,
                                      names': seq<Name>, prefix: Name, counts: seq<nat>, lo: nat, hi: nat, v: byte,
                                      cap: nat)
    returns (x: nat, y: nat)
    requires |counts| == 256 && lo <= v < hi <= 256 && counts[v] > 0 && SkeletonOf(t) == SkeletonOf(t')
    requires Grows(s, t, names, prefix, counts, lo, hi, cap) && Grows(other, t', names', prefix, counts, lo, hi, cap)
    ensures x < |names| && y < |names'| && names[x] == names'[y] == prefix + [v]
    ensures SameNodes(s, names, x, other, names', y)
    decreases t
  {
    hide SameNodes, SameChild, Sum;
    if v < t.value {
      x, y := NodesAgree(s, t.left, names, other, t'.left, names', prefix, counts, lo, t.value, v, cap);
    } else if v > t.value {
      x, y := NodesAgree(s, t.right, names, other, t'.right, names', prefix, counts, t.value + 1, hi, v, cap);
    } else {
      x, y := t.slot, t'.slot;
      TopsAgree(s, t, names, other, t', names', prefix, counts, lo, hi, cap);
    }
  }

  lemma TopsAgree(s: seq<Symbol>, t: Tree, names: seq<Name>, other: seq<Symbol>, t': Tree, names': seq<Name>,
                  prefix: Name, counts: seq<nat>, lo: nat, hi: nat, cap: nat)
    requires |counts| == 256 && t.Node? && SkeletonOf(t) == SkeletonOf(t')
    requires Grows(s, t, names, prefix, counts, lo, hi, cap) && Grows(other, t', names', prefix, counts, lo, hi, cap)
    ensures t'.Node? && SameNodes(s, names, t.slot, other, names', t'.slot)
  {
    hide SameChild, Sum;
    StandsMass(t.left, counts, lo, t.value);
    StandsMass(t'.left, counts, lo, t.value);
    ChildrenAgree(t.left, t.slot, names, t'.left, t'.slot, names', prefix);
    ChildrenAgree(t.right, t.slot, names, t'.right, t'.slot, names', prefix);
  }

  /** The slot of a context that has counted something. */
  lemma ContextOf(s: seq<Symbol>, sh: Shadow, model: Model, n: Name, v: byte) returns (c: nat)
    requires |sh.trees| == |sh.names| <= |s| && Models(s, sh, model)
    requires |Lookup(model, n).counts| == 256 && Lookup(model, n).counts[v] > 0
    ensures c < |sh.names| && sh.names[c] == n && Matches(s, c, sh.trees[c], Lookup(model, n))
  {
    assert n in sh.names;
    c :| 0 <= c < |sh.names| && sh.names[c] == n;
  }

  /** The tree of a context, as the model and the array know it. */
  lemma GrowsAt(s: seq<Symbol>, sh: Shadow, c: nat, table: Table)
    requires c < |sh.trees| == |sh.names| <= |s| && Standing(s, sh, -1) && Matches(s, c, sh.trees[c], table)
    ensures |table.counts| == 256 && SkeletonOf(sh.trees[c]) == table.skeleton
    ensures Grows(s, sh.trees[c], sh.names, sh.names[c], table.counts, 0, 256, 255)
  {
    hide Stands;
    StandingShape(s, sh, -1);
    HousedAt(s, sh, c);
    SoundAt(s, sh, c);
  }

  lemma SoundAt(s: seq<Symbol>, sh: Shadow, c: nat)
    requires c < |sh.trees| == |sh.names| <= |s| && Standing(s, sh, -1)
    ensures Sound(sh.trees[c], 255)
  {
    hide Shape, Linked;
    assert Balanced(s[c].escapes, s[c].total, sh.trees[c], MinimumAt(c));
    Loosen(sh.trees[c], Cap(MinimumAt(c)), 255);
  }

  /** The array is in order, and stands for `model`. */
  ghost predicate StandsFor(s: seq<Symbol>, sh: Shadow, model: Model) {
    0 < |sh.trees| == |sh.names| <= |s| && Models(s, sh, model) && Standing(s, sh, -1)
  }

  /** The slots that a name leads to in two arrays. */
  lemma SlotsOf(s: seq<Symbol>, sh: Shadow, other: seq<Symbol>, sh': Shadow, model: Model, n: Name, v: byte)
    returns (x: nat, y: nat)
    requires StandsFor(s, sh, model) && StandsFor(other, sh', model)
    requires |Lookup(model, n).counts| == 256 && Lookup(model, n).counts[v] > 0
    ensures x < |sh.names| && y < |sh'.names| && sh.names[x] == sh'.names[y] == n + [v]
    ensures SameNodes(s, sh.names, x, other, sh'.names, y)
  {
    hide Models, Standing, Matches, Lookup, Grows, SameNodes, SkeletonOf;
    var c := ContextOf(s, sh, model, n, v);
    var c' := ContextOf(other, sh', model, n, v);
    var table := Lookup(model, n);
    GrowsAt(s, sh, c, table);
    GrowsAt(other, sh', c', table);
    x, y := NodesAgree(s, sh.trees[c], sh.names, other, sh'.trees[c'], sh'.names, n, table.counts, 0, 256, v, 255);
  }

  lemma HousedAt(s: seq<Symbol>, sh: Shadow, c: nat)
    requires Shape(s, sh) && c < |sh.trees|
    ensures c < |sh.names| <= |s| && Stored(s, sh.trees[c]) && Named(sh.trees[c], sh.names, sh.names[c])
  {
    assert Housed(s, c, sh.trees[c], sh.names);
  }

  lemma SeenAt(s: seq<Symbol>, sh: Shadow, model: Model, x: nat)
    requires |sh.trees| == |sh.names| <= |s| && Models(s, sh, model) && 0 < x < |sh.names|
    ensures sh.names[x] != []
    ensures var n := sh.names[x][..|sh.names[x]| - 1]; var v := sh.names[x][|n|];
            |Lookup(model, n).counts| == 256 && Lookup(model, n).counts[v] > 0 && sh.names[x] == n + [v]
  {
  }

  lemma SameName(s: seq<Symbol>, sh: Shadow, model: Model, x: nat, y: nat)
    requires |sh.trees| == |sh.names| <= |s| && Models(s, sh, model)
    requires x < |sh.names| && y < |sh.names| && sh.names[x] == sh.names[y]
    ensures x == y
  {
    assert Injective(sh.names);
    hide Models;
  }

  /** Two slots with the same name agree: the same byte, numbers and children; the same totals and the same first symbol
      for the context they define; and their links lead to slots with the same name. */
  ghost predicate Agree(s: seq<Symbol>, names: seq<Name>, x: nat, other: seq<Symbol>, names': seq<Name>, y: nat) {
    && x < |names| <= |s| && y < |names'| <= |other| && names'[y] == names[x] && (x == 0 <==> y == 0)
    && other[y].escapes == s[x].escapes && other[y].total == s[x].total
    && SameChild(names, x, s[x].symbols, names', y, other[y].symbols)
    && (x > 0 ==>
          && SameNodes(s, names, x, other, names', y)
          && s[x].parent < |names| && other[y].parent < |names'|
          && names'[other[y].parent] == names[s[x].parent])
  }

  lemma StandsForAt(s: seq<Symbol>, sh: Shadow, model: Model, x: nat)
    requires StandsFor(s, sh, model) && x < |sh.names|
    ensures 0 < |sh.trees| == |sh.names| <= |s| && sh.names[0] == [] && Models(s, sh, model) && Standing(s, sh, -1)
    ensures |Lookup(model, sh.names[x]).counts| == 256 && MinimumAt(x) == Minimum(sh.names[x])
    ensures s[x].escapes == Lookup(model, sh.names[x]).escapes
    ensures s[x].total == Total(Lookup(model, sh.names[x]), MinimumAt(x))
  {
    hide Models, Standing, Total, Fit, Sane, Sum, Before, Lookup;
    StandingAt(s, sh, -1, x);
    NumbersAgree(s, sh, x, 0, model, -1);
  }

  /** The slot with the same name in another array for the same model agrees with the slot. */
  lemma Counterpart(s: seq<Symbol>, sh: Shadow, other: seq<Symbol>, sh': Shadow, model: Model, x: nat) returns (y: nat)
    requires StandsFor(s, sh, model) && StandsFor(other, sh', model) && x < |sh.names|
    ensures Agree(s, sh.names, x, other, sh'.names, y)
  {
    hide Models, Standing, Total, Lookup, Sum, SameNodes, SameChild;
    assert |sh'.names| > 0;
    hide StandsFor;
    StandsForAt(s, sh, model, x);
    StandsForAt(other, sh', model, 0);
    y := 0;
    if x > 0 {
      SeenAt(s, sh, model, x);
      var n := sh.names[x][..|sh.names[x]| - 1];
      var v := sh.names[x][|n|];
      var x';
      x', y := SlotsOf(s, sh, other, sh', model, n, v);
      SameName(s, sh, model, x, x');
      ParentAt(s, sh, -1, x);
      ParentAt(other, sh', -1, y);
    }
    StandsForAt(other, sh', model, y);
    ContextsAgree(s, sh, other, sh', model, x, y);
  }

  /** Two contexts with the same name begin with the same byte. */
  lemma ContextsAgree(s: seq<Symbol>, sh: Shadow, other: seq<Symbol>, sh': Shadow, model: Model, x: nat, y: nat)
    requires StandsFor(s, sh, model) && StandsFor(other, sh', model)
    requires x < |sh.names| && y < |sh'.names| && sh.names[x] == sh'.names[y]
    ensures SameChild(sh.names, x, s[x].symbols, sh'.names, y, other[y].symbols)
  {
    hide SameChild, Stands, Linked, Numbers, Lookup;
    assert Housed(s, x, sh.trees[x], sh.names) && Housed(other, y, sh'.trees[y], sh'.names);
    assert Matches(s, x, sh.trees[x], Lookup(model, sh.names[x]));
    assert Matches(other, y, sh'.trees[y], Lookup(model, sh'.names[y]));
    ChildrenAgree(sh.trees[x], x, sh.names, sh'.trees[y], y, sh'.names, sh.names[x]);
  }

  ghost predicate HasCounterpart(s: seq<Symbol>, names: seq<Name>, x: nat, other: seq<Symbol>, names': seq<Name>) {
    exists y: nat :: Agree(s, names, x, other, names', y)
  }

  /** Two arrays correspond: they have as many symbols, with different names, and every slot has a counterpart on the
      other side. */
  ghost predicate Corresponding(a: Moment, b: Moment) {
    && a.next == b.next == |a.sh.names| == |b.sh.names| && a.order == b.order
    && a.predicted < a.next && b.predicted < b.next && a.sh.names[a.predicted] == b.sh.names[b.predicted]
    && Injective(a.sh.names) && Injective(b.sh.names)
    && (forall x :: 0 <= x < a.next ==> HasCounterpart(a.s, a.sh.names, x, b.s, b.sh.names))
    && (forall y :: 0 <= y < b.next ==> HasCounterpart(b.s, b.sh.names, y, a.s, a.sh.names))
  }

  lemma SameStateCorresponds(a: Moment, b: Moment, st: State)
    requires AtMoment(a, st) && AtMoment(b, st)
    ensures Corresponding(a, b) && a.next == st.used
  {
    hide Standing;
    assert Injective(a.sh.names) && Injective(b.sh.names);
    hide Models, Agree, Injective;
    assert StandsFor(a.s, a.sh, st.model) && StandsFor(b.s, b.sh, st.model);
    forall x | 0 <= x < a.next ensures HasCounterpart(a.s, a.sh.names, x, b.s, b.sh.names) {
      var y := Counterpart(a.s, a.sh, b.s, b.sh, st.model, x);
    }
    forall y | 0 <= y < b.next ensures HasCounterpart(b.s, b.sh.names, y, a.s, a.sh.names) {
      var x := Counterpart(b.s, b.sh, a.s, a.sh, st.model, y);
    }
  }

  /** Before the first byte and after every byte, the arrays of compressor and decompressor correspond. */
  lemma Isomorphic(trace: seq<Moment>, trace': seq<Moment>, data: seq<byte>)
    requires Traced(trace, data) && Traced(trace', data)
    ensures |trace| == |trace'| == |data| + 1 && forall i :: 0 <= i <= |data| ==> Corresponding(trace[i], trace'[i])
  {
    hide AtMoment, Corresponding;
    forall i | 0 <= i <= |data| ensures Corresponding(trace[i], trace'[i]) {
      SameStateCorresponds(trace[i], trace'[i], Reached(data[..i]));
    }
  }

  /** Only the start, and a fresh start, has one symbol. */
  lemma {:induction false} OneSymbolIsStart(data: seq<byte>)
    ensures Reached(data).used >= 1 && (Reached(data).used == 1 ==> Reached(data) == INITIAL)
    decreases |data|
  {
    if data != [] {
      var st, v := Reached(data[..|data| - 1]), data[|data| - 1];
      OneSymbolIsStart(data[..|data| - 1]);
      if st == INITIAL { FirstByteGrows(v); }
    }
  }

  lemma FirstByteGrows(v: byte)
    ensures Good(INITIAL) && Growth(INITIAL.model, INITIAL.context, v) == 1
  {
  }

  /** Both models start afresh after the same bytes. */
  lemma ResetTogether(trace: seq<Moment>, trace': seq<Moment>, data: seq<byte>, i: nat)
    requires Traced(trace, data) && Traced(trace', data) && i <= |data|
    ensures trace[i].next == 1 <==> Reached(data[..i]) == INITIAL
    ensures trace[i].next == 1 <==> trace'[i].next == 1
  {
    hide AtMoment, Corresponding;
    OneSymbolIsStart(data[..i]);
    SameStateCorresponds(trace[i], trace'[i], Reached(data[..i]));
    SameStateCorresponds(trace'[i], trace[i], Reached(data[..i]));
  }
}
