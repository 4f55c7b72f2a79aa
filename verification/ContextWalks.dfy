/** The walking, rescaling and totalling macros of compress.c, in place on the symbol array. */
module ContextWalks {
  import opened Bytes
  import opened RangeCoding
  import opened Frequencies
  import opened Trees
  import opened Symbols
  import opened Contexts
  import opened Ppm
  import opened Memory

  ghost predicate InPlace(s: seq<Symbol>, t: Tree, next: nat) {
    t.Node? && Stored(s, t) && Distinct(t) && Below(t, next) && Below(t, |s|)
  }

  /** One step down to the left: the node has been raised, and its subtree is still in place. */
  lemma StepLeft(s: seq<Symbol>, t: Tree, next: nat, after: seq<Symbol>)
    requires InPlace(s, t, next) && t.left.Node? && |after| == |s|
    requires forall j :: 0 <= j < |s| && j != t.slot ==> after[j] == s[j]
    ensures InPlace(after, t.left, next)
  {
    StoredFrame(s, after, t.left);
  }

  lemma NodeFields(s: seq<Symbol>, t: Tree, next: nat)
    requires InPlace(s, t, next)
    ensures t.Node? && t.slot < |s| && t.slot < next
    ensures var n := s[t.slot];
      && n.value == t.value && n.count == t.count && n.under == t.under
      && n.left == Offset(t.left, t.slot) && n.right == Offset(t.right, t.slot)
      && (n.left == 0 <==> t.left.Leaf?) && (n.right == 0 <==> t.right.Leaf?)
    ensures t.right.Node? ==> InPlace(s, t.right, next)
    ensures Below(t.left, |s|) && Below(t.right, |s|)
  {
  }

  function WithLeft(s: seq<Symbol>, i: nat, next: nat, child: Symbol): seq<Symbol>
    requires i < |s| && next < |s|
  {
    var s2 := s[next := child];
    s2[i := s2[i].(left := (next - i) % 0x1_0000)]
  }

  function WithRight(s: seq<Symbol>, i: nat, next: nat, child: Symbol): seq<Symbol>
    requires i < |s| && next < |s|
  {
    var s2 := s[next := child];
    s2[i := s2[i].(right := (next - i) % 0x1_0000)]
  }

  /** The first symbol of context `c`. */
  function FirstSymbol(s: seq<Symbol>, c: nat, next: nat, symbol: Symbol): seq<Symbol>
    requires c < next < |s|
  {
    var s1 := s[next := symbol];
    s1[c := s1[c].(symbols := (next - c) % 0x1_0000)]
  }

  function RaisedUnder(s: seq<Symbol>, i: nat, d: byte): seq<Symbol>
    requires i < |s|
  {
    s[i := s[i].(under := (s[i].under + d) % 0x1_0000)]
  }

  /** What a walk brings back. */
  datatype Outcome = Outcome(symbol: nat, next: nat, under: int, count: nat)

  /** What the encoder's walk brings back, starting at the top of `t` with `under` and `count`. */
  ghost function EncodeOutcome(t: Tree, v: byte, under: int, count: nat, next: nat): Outcome {
    if t.Leaf? then Outcome(next, next + 1, under, count)
    else if v < t.value then EncodeOutcome(t.left, v, under, count, next)
    else if v > t.value then EncodeOutcome(t.right, v, (under + t.under) % 0x1_0000, count, next)
    else Outcome(t.slot, next, (under + t.under - t.count) % 0x1_0000, count + t.count)
  }

  /** The array and the outcome of the encoder's walk. */
  ghost predicate EncodeLeads(s: seq<Symbol>, t: Tree, v: byte, d: byte, under: int, count: nat, next: nat,
                              after: seq<Symbol>, outcome: Outcome)
    requires t.Node? && Below(t, |s|) && next < |s|
  {
    Walked(s, t, ByValue(t, v), v, d, next) == after && EncodeOutcome(t, v, under, count, next) == outcome
  }

  /** The walk stands at the top of `t`, in place, and will bring back `outcome` and leave `after`. */
  ghost predicate EncodeFrom(s: seq<Symbol>, t: Tree, v: byte, d: byte, under: int, count: nat, next: nat,
                             after: seq<Symbol>, outcome: Outcome) {
    InPlace(s, t, next) && next < |s| && EncodeLeads(s, t, v, d, under, count, next, after, outcome)
  }

  lemma EncodeTurn(s: seq<Symbol>, t: Tree, v: byte, d: byte, under: int, count: nat, next: nat,
                   after: seq<Symbol>, outcome: Outcome)
    requires EncodeFrom(s, t, v, d, under, count, next, after, outcome)
    ensures t.slot < next
    ensures var i := t.slot; var n := s[i]; var s1 := RaisedUnder(s, i, d);
      if v < n.value then
        if n.left != 0 then
          t.left.Node? && i + n.left == t.left.slot
          && EncodeFrom(s1, t.left, v, d, under, count, next, after, outcome)
        else
          after == WithLeft(s1, i, next, Fresh(v, d)) && outcome == Outcome(next, next + 1, under, count)
      else if v > n.value then
        if n.right != 0 then
          t.right.Node? && i + n.right == t.right.slot
          && EncodeFrom(s, t.right, v, d, (under + n.under) % 0x1_0000, count, next, after, outcome)
        else
          after == WithRight(s, i, next, Fresh(v, d))
          && outcome == Outcome(next, next + 1, (under + n.under) % 0x1_0000, count)
      else
        after == s[i := n.(under := (n.under + d) % 0x1_0000, count := (n.count + d) % 256)]
        && outcome == Outcome(i, next, (under + n.under - n.count) % 0x1_0000, count + n.count)
  {
    NodeFields(s, t, next);
    if v < t.value && t.left.Node? {
      StepLeft(s, t, next, RaisedUnder(s, t.slot, d));
    }
    assert t.left.Leaf? ==> EncodeOutcome(t.left, v, under, count, next) == Outcome(next, next + 1, under, count);
    var beyond := (under + t.under) % 0x1_0000;
    assert t.right.Leaf? ==> EncodeOutcome(t.right, v, beyond, count, next) == Outcome(next, next + 1, beyond, count);
  }

  lemma {:induction false} EncodeBrings(t: Tree, v: byte, under: nat, count: nat, next: nat, cap: nat)
    requires Sound(t, cap) && under + Mass(t) < 0x1_0000
    ensures var target := Target(t, ByValue(t, v));
      EncodeOutcome(t, v, under, count, next)
      == if target.Leaf? then Outcome(next, next + 1, under + Before(t, v), count)
         else Outcome(target.slot, next, under + Before(t, v), count + target.count)
    ensures var target := Target(t, ByValue(t, v)); target.Node? ==> target.value == v
  {
    if t.Node? {
      if v < t.value {
        EncodeBrings(t.left, v, under, count, next, cap);
      } else if v > t.value {
        EncodeBrings(t.right, v, under + t.under, count, next, cap);
      }
    }
  }

  /** Everything the encoder's walk in context `c` needs and brings. */
  lemma EncodeReady(s: seq<Symbol>, sh: Shadow, c: nat, v: byte)
    requires Shape(s, sh) && Numbers(s, sh) && c < |sh.trees| < SYMBOLS
    ensures var t := sh.trees[c]; var m := MinimumAt(c); var n := |sh.trees|; var p := ByValue(t, v);
      && Below(t, |s|) && s[c].symbols == Offset(t, c) && (s[c].symbols == 0 <==> t.Leaf?)
      && (t.Node? ==>
            EncodeFrom(s, t, v, Delta(m), Weight(v, m), m, n, WalkedFrom(s, c, t, p, v, Delta(m), n),
                       Outcome(if Created(t, p) then n else Target(t, p).slot, if Created(t, p) then n + 1 else n,
                               Weight(v, m) + Before(t, v), Found(t, p, m))))
      && (Target(t, p).Node? ==> Target(t, p).value == v)
      && (t.Leaf? ==> p == Stop && Created(t, p) && Before(t, v) == 0 && Found(t, p, m) == m)
  {
    var t := sh.trees[c];
    var m := MinimumAt(c);
    assert Housed(s, c, t, sh.names);
    assert Balanced(s[c].escapes, s[c].total, t, m);
    BelowMore(t, |sh.trees|, |s|);
    EncodeBrings(t, v, Weight(v, m), m, |sh.trees|, Cap(m));
  }

  // ----- the decoder's walk

  datatype Decoding = Missing | Decoding(value: byte, outcome: Outcome)

  /** No 16-bit sum of the walk overflows. */
  ghost predicate Bounded(t: Tree, acc: nat, m: nat, cap: nat) {
    m <= 1 && Sound(t, cap) && acc + Mass(t) + 256 * m < 0x1_0000
  }

  ghost function DecodeOutcome(t: Tree, code: nat, m: nat, acc: nat, next: nat): Decoding
    requires acc <= code
  {
    var target := Target(t, ByCode(t, code, m, acc));
    var land := Land(t, code, m, acc);
    if target.Node? then Decoding(land.value, Outcome(target.slot, next, land.under, land.count))
    else if m == 0 then Missing
    else Decoding(land.value, Outcome(next, next + 1, land.under, land.count))
  }

  /** The array and the outcome of the decoder's walk; when it fails the array no longer matters. */
  ghost predicate DecodeLeads(s: seq<Symbol>, t: Tree, code: nat, d: byte, m: nat, acc: nat, next: nat,
                              after: seq<Symbol>, result: Decoding)
    requires t.Node? && Below(t, |s|) && next < |s|
  {
    && acc <= code && DecodeOutcome(t, code, m, acc, next) == result
    && (result.Decoding? ==> Walked(s, t, ByCode(t, code, m, acc), result.value, d, next) == after)
  }

  /** The walk stands at the top of `t`, in place, and will bring back `outcome` and leave `result`. */
  ghost predicate DecodeFrom(s: seq<Symbol>, t: Tree, code: nat, d: byte, m: nat, acc: nat, next: nat, cap: nat,
                             result: seq<Symbol>, outcome: Decoding) {
    && InPlace(s, t, next) && next < |s| && Bounded(t, acc, m, cap)
    && DecodeLeads(s, t, code, d, m, acc, next, result, outcome)
  }

  lemma MissingChild(code: nat, m: nat, acc: nat, next: nat)
    requires acc <= code
    ensures ByCode(Leaf, code, m, acc) == Stop
    ensures DecodeOutcome(Leaf, code, m, acc, next)
         == if m == 0 then Missing else Decoding((code - acc) % 256, Outcome(next, next + 1, code, m))
  {
  }

  lemma DecodeStepRight(s: seq<Symbol>, t: Tree, code: nat, d: byte, m: nat, acc: nat, next: nat, cap: nat,
                        result: seq<Symbol>, outcome: Decoding)
    requires DecodeFrom(s, t, code, d, m, acc, next, cap, result, outcome)
    requires code >= acc + t.under + (t.value + 1) * m
    ensures t.slot < |s|
    ensures var i := t.slot; var n := s[i]; var after := acc + n.under + (n.value + 1) * m;
      if n.right != 0 then
        t.right.Node? && i + n.right == t.right.slot
        && DecodeFrom(s, t.right, code, d, m, acc + n.under, next, cap, result, outcome)
      else if m == 0 then outcome == Missing
      else
        var value := (n.value + 1 + (code - after)) % 256;
        result == WithRight(s, i, next, Fresh(value, d))
        && outcome == Decoding(value, Outcome(next, next + 1, code, m))
  {
    NodeFields(s, t, next);
    assert t.right.Leaf? ==> t.right == Leaf;
    MissingChild(code, m, acc + t.under, next);
    assert Bounded(t.right, acc + t.under, m, cap);
    hide Stored, Distinct, Below, InPlace, Bounded, Sound, Mass;
  }

  /** The value a new left child gets is the distance of the code from the left end. */
  lemma LeftChildValue(t: Tree, code: nat, acc: nat, cap: nat)
    requires t.Node? && t.left.Leaf? && Sound(t, cap)
    ensures t.value - 1 - (acc + t.under + (t.value + 1) * 1 - (t.count + 1) - code - 1) == code - acc
  {
  }

  lemma DecodeMissingLeft(s: seq<Symbol>, t: Tree, code: nat, d: byte, m: nat, acc: nat, next: nat, cap: nat,
                          result: seq<Symbol>, outcome: Decoding)
    requires DecodeFrom(s, t, code, d, m, acc, next, cap, result, outcome) && t.left.Leaf?
    requires code + t.count + m < acc + t.under + (t.value + 1) * m
    ensures t.slot < |s| && acc <= code
    ensures if m == 0 then outcome == Missing
            else result == WithLeft(RaisedUnder(s, t.slot, d), t.slot, next, Fresh((code - acc) % 256, d))
                 && outcome == Decoding((code - acc) % 256, Outcome(next, next + 1, code, m))
  {
    NodeFields(s, t, next);
    MissingChild(code, m, acc, next);
    assert t.left == Leaf;
    assert ByCode(t, code, m, acc) == GoLeft(Stop);
    assert DecodeOutcome(t, code, m, acc, next) == DecodeOutcome(Leaf, code, m, acc, next);
    hide Stored, Distinct, Below, InPlace, Bounded, Sound, Mass, ByCode, DecodeOutcome;
  }

  lemma DecodeLowerLeft(s: seq<Symbol>, t: Tree, code: nat, d: byte, m: nat, acc: nat, next: nat, cap: nat,
                        result: seq<Symbol>, outcome: Decoding)
    requires DecodeFrom(s, t, code, d, m, acc, next, cap, result, outcome) && t.left.Node?
    requires code + t.count + m < acc + t.under + (t.value + 1) * m
    ensures t.slot < |s| && DecodeFrom(RaisedUnder(s, t.slot, d), t.left, code, d, m, acc, next, cap, result, outcome)
  {
    NodeFields(s, t, next);
    StepLeft(s, t, next, RaisedUnder(s, t.slot, d));
    assert Bounded(t.left, acc, m, cap);
    hide Stored, Distinct, Below, InPlace, Bounded, Sound, Mass;
  }

  lemma DecodeStepLeft(s: seq<Symbol>, t: Tree, code: nat, d: byte, m: nat, acc: nat, next: nat, cap: nat,
                       result: seq<Symbol>, outcome: Decoding)
    requires DecodeFrom(s, t, code, d, m, acc, next, cap, result, outcome)
    requires code + t.count + m < acc + t.under + (t.value + 1) * m
    ensures t.slot < |s|
    ensures var i := t.slot; var n := s[i]; var s1 := RaisedUnder(s, i, d);
      var after := acc + n.under + (n.value + 1) * m; var before := n.count + m;
      if n.left != 0 then
        t.left.Node? && i + n.left == t.left.slot
        && DecodeFrom(s1, t.left, code, d, m, acc, next, cap, result, outcome)
      else if m == 0 then outcome == Missing
      else
        var value := (n.value - 1 - (after - before - code - 1)) % 256;
        result == WithLeft(s1, i, next, Fresh(value, d))
        && outcome == Decoding(value, Outcome(next, next + 1, code, m))
  {
    NodeFields(s, t, next);
    assert m <= 1 && Sound(t, cap);
    hide DecodeFrom, Sound, Stored, Distinct, Below, InPlace;
    if t.left.Node? {
      DecodeLowerLeft(s, t, code, d, m, acc, next, cap, result, outcome);
    } else {
      DecodeMissingLeft(s, t, code, d, m, acc, next, cap, result, outcome);
      LeftChildValue(t, code, acc, cap);
    }
  }

  lemma DecodeStepHere(s: seq<Symbol>, t: Tree, code: nat, d: byte, m: nat, acc: nat, next: nat, cap: nat,
                       result: seq<Symbol>, outcome: Decoding)
    requires DecodeFrom(s, t, code, d, m, acc, next, cap, result, outcome)
    requires var after := acc + t.under + (t.value + 1) * m; after - (t.count + m) <= code < after
    ensures t.slot < |s|
    ensures var i := t.slot; var n := s[i];
      var after := acc + n.under + (n.value + 1) * m; var before := n.count + m;
      && after >= before
      && result == s[i := n.(under := (n.under + d) % 0x1_0000, count := (n.count + d) % 256)]
      && outcome == Decoding(n.value, Outcome(i, next, after - before, m + n.count))
  {
    NodeFields(s, t, next);
    assert (t.value + 1) * m >= m;
  }

  /** The node's fields, and no wrap-around in what the walk computes from them. */
  lemma DecodeNode(s: seq<Symbol>, t: Tree, acc: nat, m: nat, next: nat, cap: nat)
    requires InPlace(s, t, next) && Bounded(t, acc, m, cap)
    ensures t.slot < |s| && t.slot < next && Below(t.left, |s|) && Below(t.right, |s|)
    ensures var n := s[t.slot]; n.value == t.value && n.count == t.count && n.under == t.under
    ensures 0 <= (t.value + 1) * m && acc + t.under + (t.value + 1) * m < 0x1_0000
  {
    NodeFields(s, t, next);
    assert (t.value + 1) * m <= 256 * m;
  }

  lemma DecodeAt(s: seq<Symbol>, t: Tree, code: nat, d: byte, m: nat, acc: nat, next: nat, cap: nat,
                 result: seq<Symbol>, outcome: Decoding)
    requires DecodeFrom(s, t, code, d, m, acc, next, cap, result, outcome)
    ensures t.Node? && t.slot < |s| && t.slot < next < |s| && acc <= code
    ensures var n := s[t.slot]; n.value == t.value && n.count == t.count && n.under == t.under
    ensures 0 <= (t.value + 1) * m && acc + t.under + (t.value + 1) * m < 0x1_0000
  {
    DecodeNode(s, t, acc, m, next, cap);
  }

  lemma TryStep(s: seq<Symbol>, t: Tree, code: nat, d: byte, acc: nat, next: nat, cap: nat,
                result: seq<Symbol>, outcome: Decoding)
    requires DecodeFrom(s, t, code, d, 0, acc, next, cap, result, outcome)
    ensures t.slot < next
    ensures var i := t.slot; var n := s[i]; var s1 := RaisedUnder(s, i, d);
      var after := acc + n.under; var before := n.count;
      after < 0x1_0000 &&
      if code >= after then
        if n.right == 0 then outcome == Missing
        else
          t.right.Node? && i + n.right == t.right.slot
          && DecodeFrom(s, t.right, code, d, 0, after, next, cap, result, outcome)
      else if code < after - before then
        if n.left == 0 then outcome == Missing
        else
          t.left.Node? && i + n.left == t.left.slot
          && DecodeFrom(s1, t.left, code, d, 0, acc, next, cap, result, outcome)
      else
        && after >= before
        && result == s[i := n.(under := (n.under + d) % 0x1_0000, count := (n.count + d) % 256)]
        && outcome == Decoding(n.value, Outcome(i, next, after - before, n.count))
  {
    hide DecodeFrom;
    DecodeAt(s, t, code, d, 0, acc, next, cap, result, outcome);
    if code >= acc + t.under {
      DecodeStepRight(s, t, code, d, 0, acc, next, cap, result, outcome);
    } else if code + t.count < acc + t.under {
      DecodeStepLeft(s, t, code, d, 0, acc, next, cap, result, outcome);
    } else {
      DecodeStepHere(s, t, code, d, 0, acc, next, cap, result, outcome);
    }
  }

  lemma RootStep(s: seq<Symbol>, t: Tree, code: nat, d: byte, acc: nat, next: nat, cap: nat,
                 result: seq<Symbol>, outcome: Decoding)
    requires DecodeFrom(s, t, code, d, 1, acc, next, cap, result, outcome)
    ensures t.slot < next
    ensures var i := t.slot; var n := s[i]; var s1 := RaisedUnder(s, i, d);
      var after := acc + n.under + n.value + 1; var before := n.count + 1;
      after < 0x1_0000 &&
      if code >= after then
        if n.right == 0 then
          var value := (n.value + 1 + (code - after)) % 256;
          && result == WithRight(s, i, next, Fresh(value, d))
          && outcome == Decoding(value, Outcome(next, next + 1, code, 1))
        else
          t.right.Node? && i + n.right == t.right.slot
          && DecodeFrom(s, t.right, code, d, 1, acc + n.under, next, cap, result, outcome)
      else if code < after - before then
        if n.left == 0 then
          var value := (n.value - 1 - (after - before - code - 1)) % 256;
          && result == WithLeft(s1, i, next, Fresh(value, d))
          && outcome == Decoding(value, Outcome(next, next + 1, code, 1))
        else
          t.left.Node? && i + n.left == t.left.slot
          && DecodeFrom(s1, t.left, code, d, 1, acc, next, cap, result, outcome)
      else
        && after >= before
        && result == s[i := n.(under := (n.under + d) % 0x1_0000, count := (n.count + d) % 256)]
        && outcome == Decoding(n.value, Outcome(i, next, after - before, 1 + n.count))
  {
    hide DecodeFrom, WithLeft, WithRight;
    DecodeAt(s, t, code, d, 1, acc, next, cap, result, outcome);
    if code >= acc + t.under + t.value + 1 {
      DecodeStepRight(s, t, code, d, 1, acc, next, cap, result, outcome);
    } else if code + t.count < acc + t.under + t.value {
      DecodeStepLeft(s, t, code, d, 1, acc, next, cap, result, outcome);
    } else {
      DecodeStepHere(s, t, code, d, 1, acc, next, cap, result, outcome);
    }
  }

  lemma {:induction false} DecodeBrings(t: Tree, code: nat, m: nat, acc: nat, cap: nat)
    requires acc <= code && Bounded(t, acc, m, cap)
    ensures var p := ByCode(t, code, m, acc); var land := Land(t, code, m, acc);
      land.count == Found(t, p, m) && (Target(t, p).Node? ==> Target(t, p).value == land.value)
  {
    if t.Node? {
      var after := acc + t.under + (t.value + 1) * m;
      if code >= after {
        assert (t.value + 1) * m >= 0;
        DecodeBrings(t.right, code, m, acc + t.under, cap);
      } else if code + t.count + m < after {
        DecodeBrings(t.left, code, m, acc, cap);
      }
    }
  }

  ghost function DecodeResult(s: seq<Symbol>, sh: Shadow, c: nat, code: nat): seq<Symbol>
    requires c < |sh.trees| < |s| && Below(sh.trees[c], |s|)
  {
    var t := sh.trees[c];
    var m := MinimumAt(c);
    WalkedFrom(s, c, t, ByCode(t, code, m, 0), Land(t, code, m, 0).value, Delta(m), |sh.trees|)
  }

  /** Everything the decoder's walk in context `c` needs and brings. */
  lemma DecodeReady(s: seq<Symbol>, sh: Shadow, c: nat, code: nat)
    requires Shape(s, sh) && Numbers(s, sh) && c < |sh.trees| < SYMBOLS
    ensures var t := sh.trees[c]; var m := MinimumAt(c); var n := |sh.trees|;
      var p := ByCode(t, code, m, 0); var land := Land(t, code, m, 0); var outcome := DecodeOutcome(t, code, m, 0, n);
      && Below(t, |s|) && s[c].symbols == Offset(t, c) && (s[c].symbols == 0 <==> t.Leaf?)
      && (t.Node? ==> DecodeFrom(s, t, code, Delta(m), m, 0, n, Cap(m), DecodeResult(s, sh, c, code), outcome))
      && outcome == (if Target(t, p).Node? then
                       Decoding(land.value, Outcome(Target(t, p).slot, n, land.under, land.count))
                     else if m == 0 then Missing
                     else Decoding(land.value, Outcome(n, n + 1, land.under, land.count)))
      && land.count == Found(t, p, m) && (Target(t, p).Node? ==> Target(t, p).value == land.value)
      && (t.Leaf? ==> Created(t, p) && p == Stop && land == Landing(code % 256, code, m))
  {
    var t := sh.trees[c];
    var m := MinimumAt(c);
    assert Housed(s, c, t, sh.names);
    assert Balanced(s[c].escapes, s[c].total, t, m);
    BelowMore(t, |sh.trees|, |s|);
    DecodeBrings(t, code, m, 0, Cap(m));
  }

  // ----- rescaling

  ghost predicate Shrinkable(s: seq<Symbol>, t: Tree, cap: nat) {
    Stored(s, t) && Distinct(t) && Below(t, |s|) && Sound(t, cap) && Mass(t) < 0x1_0000
  }

  /** The rescale stands at the top of `t` with `total` so far, and will leave `result` and return `sum`. */
  ghost predicate RescaleFrom(s: seq<Symbol>, t: Tree, cap: nat, total: nat, result: seq<Symbol>, sum: nat) {
    t.Node? && Shrinkable(s, t, cap) && Shrunken(s, t) == result && total + Mass(Halve(t)) == sum < 0x1_0000
  }

  lemma RescaleLeft(s: seq<Symbol>, t: Tree, cap: nat)
    requires t.Node? && Shrinkable(s, t, cap)
    ensures Below(t, |s|) && Below(t.left, |s|) && t.slot < |s|
    ensures s[t.slot].left == 0 <==> t.left.Leaf?
    ensures var s1 := ShrunkenNode(s, t.slot); t.left.Node? ==>
              && t.slot + s[t.slot].left == t.left.slot && Size(t.left) < Size(t)
              && RescaleFrom(s1, t.left, cap, 0, Shrunken(s1, t.left), Mass(Halve(t.left)))
    ensures t.left.Leaf? ==> ShrunkenHalf(s, t) == ShrunkenNode(s, t.slot)
  {
    StoredFrame(s, ShrunkenNode(s, t.slot), t.left);
    HalveKeeps(t.left, cap);
  }

  lemma RescaleRight(s: seq<Symbol>, t: Tree, cap: nat, total: nat, result: seq<Symbol>, sum: nat, mid: seq<Symbol>)
    requires RescaleFrom(s, t, cap, total, result, sum) && Below(t, |s|) && mid == ShrunkenHalf(s, t)
    ensures t.slot < |mid| && total + mid[t.slot].under < 0x1_0000
    ensures if mid[t.slot].right == 0 then mid == result && total + mid[t.slot].under == sum
            else
              t.right.Node? && t.slot + mid[t.slot].right == t.right.slot && Size(t.right) < Size(t)
              && RescaleFrom(mid, t.right, cap, total + mid[t.slot].under, result, sum)
  {
    var m := ShrunkenLeft(s, t, cap);
    ShrinkParts(s, t, cap, mid);
    assert Mass(Halve(t)) == Halve(t).under + Mass(Halve(t.right));
  }

  lemma ShrinkParts(s: seq<Symbol>, t: Tree, cap: nat, mid: seq<Symbol>)
    requires t.Node? && Shrinkable(s, t, cap) && |mid| == |s| && Untouched(s, mid, Slots(t.left) + {t.slot}, |s|)
    ensures Shrinkable(ShrunkenNode(s, t.slot), t.left, cap) && Shrinkable(mid, t.right, cap)
  {
    StoredFrame(s, ShrunkenNode(s, t.slot), t.left);
    StoredElsewhere(s, mid, t.right, Slots(t.left) + {t.slot}, |s|);
  }

  lemma RescaleReady(s: seq<Symbol>, t: Tree)
    requires Shrinkable(s, t, 255)
    ensures Below(t, |s|)
    ensures t.Leaf? ==> Shrunken(s, t) == s && Mass(Halve(t)) == 0
    ensures t.Node? ==> RescaleFrom(s, t, 255, 0, Shrunken(s, t), Mass(Halve(t)))
  {
    HalveKeeps(t, 255);
  }

  lemma SettleReady(s: seq<Symbol>, sh: Shadow, c: nat, count: nat)
    requires Shape(s, sh) && c < |sh.trees| && Due(s, sh, c, count)
    ensures var t := sh.trees[c]; var s1 := Counted(s, c, count, MinimumAt(c));
      After(t, c) && s1[c].symbols == Offset(t, c) && Shrinkable(s1, t, 255) && Below(t, |s|)
  {
    var t := sh.trees[c];
    assert Housed(s, c, t, sh.names);
    BelowMore(t, |sh.names|, |s|);
    StoredFrame(s, Counted(s, c, count, MinimumAt(c)), t);
  }
}
