/** How the decompressor gets from the context that decoded a byte to the same model as the compressor:
    it learns the byte in that context first, and in the longer ones, which only escaped, afterwards. */
module Patching {
  import opened Bytes
  import opened RangeCoding
  import opened Frequencies
  import opened Symbols
  import opened Contexts
  import opened Ppm
  import opened Memory
  import opened Naming
  import opened Inputs
  import opened Decodable
  import opened RangeLoops

  // ----- the model

  /** The contexts from `n` down to, but not including, `m` do not know `sym`. */
  ghost predicate Missed(model: Model, n: Name, m: Name, sym: Sym)
    requires Sane(model)
    decreases |n|
  {
    SaneLookup(model, n);
    n == m || (n != [] && !Coded(model, n, sym) && Missed(model, n[1..], m, sym))
  }

  ghost predicate CodedAt(model: Model, n: Name, sym: Sym)
    requires Sane(model)
  {
    SaneLookup(model, n); Coded(model, n, sym)
  }

  lemma {:induction false} MissedMore(model: Model, n: Name, m: Name, sym: Sym)
    requires Sane(model) && Missed(model, n, m, sym) && !CodedAt(model, m, sym) && m != []
    ensures Missed(model, n, m[1..], sym)
    decreases |n|
  {
    if n != m {
      MissedMore(model, n[1..], m, sym);
    }
  }

  lemma {:induction false} MissedIsShorter(model: Model, n: Name, m: Name, sym: Sym)
    requires Sane(model) && Missed(model, n, m, sym)
    ensures |m| <= |n| && (n != m ==> |m| < |n|)
    decreases |n|
  {
    if n != m {
      MissedIsShorter(model, n[1..], m, sym);
    }
  }

  lemma LookupElsewhere(model: Model, n: Name, v: byte, m: Name)
    requires Sane(model) && n != m
    ensures Lookup(Learn1(model, n, v), m) == Lookup(model, m)
  {
  }

  lemma {:induction false} MissedIgnoresLonger(model: Model, n: Name, v: byte, shorter: Name, m: Name, sym: Sym)
    requires Sane(model) && |shorter| < |n| && Missed(model, shorter, m, sym)
    ensures Sane(Learn1(model, n, v)) && Missed(Learn1(model, n, v), shorter, m, sym)
    decreases |shorter|
  {
    Learn1IsSane(model, n, v);
    LookupElsewhere(model, n, v, shorter);
    hide Learn1, Lookup, Sane;
    if shorter != m {
      MissedIgnoresLonger(model, n, v, shorter[1..], m, sym);
    }
  }

  /** The number of symbols the byte adds: one in every context that missed it. */
  lemma {:induction false} MissedGrowth(model: Model, n: Name, m: Name, v: byte)
    requires Sane(model) && Missed(model, n, m, Char(v)) && CodedAt(model, m, Char(v))
    ensures |m| <= |n| && |Lookup(model, m).counts| == 256
    ensures Growth(model, n, v) == |n| - |m| + (if Lookup(model, m).counts[v] == 0 then 1 else 0)
    decreases |n|
  {
    SaneLookup(model, m);
    SaneLookup(model, n);
    hide Lookup, Sane, Fit;
    if n != m {
      MissedGrowth(model, n[1..], m, v);
    }
  }

  /** Learning in two contexts commutes. */
  lemma LearningCommutes(model: Model, a: Name, b: Name, v: byte)
    requires Sane(model) && a != b
    ensures Sane(Learn1(model, a, v)) && Sane(Learn1(model, b, v))
    ensures Learn1(Learn1(model, a, v), b, v) == Learn1(Learn1(model, b, v), a, v)
  {
    hide Lookup, Sane, Bump;
    Learn1IsSane(model, a, v);
    Learn1IsSane(model, b, v);
    LookupElsewhere(model, a, v, b);
    LookupElsewhere(model, b, v, a);
  }

  // ----- the way down

  /** Following the links from slot `x` leads to slot `m`, one byte shorter each time. */
  ghost predicate Reaches(s: seq<Symbol>, names: seq<Name>, x: nat, m: nat)
    decreases if x < |names| then |names[x]| else 0
  {
    && x < |names| <= |s|
    && (x == m
        || (&& 0 < x && names[x] != []
            && s[x].parent < |names| && names[s[x].parent] == names[x][1..] && Reaches(s, names, s[x].parent, m)))
  }

  lemma {:induction false} ReachesMore(s: seq<Symbol>, names: seq<Name>, x: nat, m: nat)
    requires Reaches(s, names, x, m) && 0 < m < |names| && names[m] != []
    requires s[m].parent < |names| && names[s[m].parent] == names[m][1..]
    ensures Reaches(s, names, x, s[m].parent)
    decreases |names[x]|
  {
    if x != m {
      ReachesMore(s, names, s[x].parent, m);
    } else {
      assert Reaches(s, names, s[m].parent, s[m].parent);
    }
  }

  lemma {:induction false} ReachesIsShorter(s: seq<Symbol>, names: seq<Name>, x: nat, m: nat)
    requires Reaches(s, names, x, m)
    ensures m < |names| && |names[m]| <= |names[x]| && (x != m ==> |names[m]| < |names[x]|)
    decreases |names[x]|
  {
    if x != m {
      ReachesIsShorter(s, names, s[x].parent, m);
    }
  }

  lemma {:induction false} ReachesFrame(s: seq<Symbol>, names: seq<Name>, after: seq<Symbol>, names': seq<Name>,
                                        x: nat, m: nat, link: int)
    requires Reaches(s, names, x, m) && names <= names' && |names'| <= |after|
    requires forall j :: 0 <= j < |names| && j != link ==> after[j].parent == s[j].parent
    requires 0 <= link < |names| ==> |names[x]| < |names[link]|
    ensures Reaches(after, names', x, m)
    decreases |names[x]|
  {
    if x != m {
      ReachesFrame(s, names, after, names', s[x].parent, m, link);
    }
  }

  // ----- the contexts that escaped, from the longest down

  /** Slot `x` is the next context to learn `v`, slot `m` the one that has decoded it as `bottom`. */
  ghost predicate Patchable(s: seq<Symbol>, sh: Shadow, x: nat, m: nat, v: byte, link: int, bottom: nat,
                            predicted: nat, name: Name) {
    && |s| == SYMBOLS && |sh.trees| == |sh.names| <= SYMBOLS && -1 <= link < |sh.names| && Standing(s, sh, link)
    && Reaches(s, sh.names, x, m) && |sh.names[x]| <= ORDER && x != link && Awaits(sh.names, link, sh.names[x] + [v])
    && m < |sh.names| && |sh.names| + |sh.names[x]| - |sh.names[m]| <= SYMBOLS
    && 0 < bottom < |sh.names| && sh.names[bottom] == sh.names[m] + [v]
    && if link < 0 then x == predicted && sh.names[x] == name
       else predicted < |sh.names| && sh.names[predicted] == name + [v]
  }

  lemma PatchableAt(s: seq<Symbol>, sh: Shadow, x: nat, m: nat, v: byte, link: int, bottom: nat, predicted: nat,
                    name: Name)
    requires Patchable(s, sh, x, m, v, link, bottom, predicted, name)
    ensures |s| == SYMBOLS && x < |sh.trees| == |sh.names| <= SYMBOLS && m < |sh.names| && -1 <= link < |sh.names|
    ensures x != link && |sh.names[x]| <= ORDER && bottom < |sh.names|
    ensures Awaits(sh.names, link, sh.names[x] + [v]) && Standing(s, sh, link)
    ensures x != m ==> 0 < x && |sh.trees| < SYMBOLS
  {
    hide Standing;
    ReachesIsShorter(s, sh.names, x, m);
  }

  lemma PatchTurn(s: seq<Symbol>, sh: Shadow, x: nat, m: nat, v: byte, link: int, bottom: nat, predicted: nat,
                  name: Name, after: seq<Symbol>, sh': Shadow, symbol: nat, next: nat, predicted': nat)
    requires Patchable(s, sh, x, m, v, link, bottom, predicted, name) && x != m
    requires Stood(s, sh, x, v, link, after, sh', symbol, next)
    requires predicted' == if link < 0 then symbol else predicted
    ensures x < |after| && x < |sh.names| && after[x].parent < |sh'.names| == next && symbol < next
    ensures sh.names[x] != [] && sh'.names[after[x].parent] == sh.names[x][1..]
    ensures Patchable(after, sh', after[x].parent, m, v, symbol, bottom, predicted', name)
  {
    hide Standing;
    var parent := s[x].parent;
    assert after[x].parent == parent;
    ReachesFrame(s, sh.names, after, sh'.names, parent, m, link);
    ReachesIsShorter(s, sh.names, x, m);
    NextLinks(sh'.names, symbol, parent, sh.names[x], v);
  }

  lemma LinkAt(s: seq<Symbol>, names: seq<Name>, open: int, x: nat)
    requires 0 < x < |names| <= |s| && Linked(s, names, open)
    ensures names[0] == [] && names[x] != []
    ensures x != open ==> s[x].parent < |names| && names[s[x].parent] == names[x][1..]
  {
  }

  /** Linked, slot by slot. */
  ghost predicate LinkedTo(s: seq<Symbol>, names: seq<Name>, x: nat, parent: nat)
    requires x < |names| <= |s|
  {
    names[x] != [] && s[x].parent == parent < |names| && names[parent] == names[x][1..]
  }

  lemma LinkedFrom(s: seq<Symbol>, names: seq<Name>, parents: seq<nat>)
    requires 0 < |names| == |parents| <= |s| && names[0] == []
    requires forall x :: 0 < x < |names| ==> LinkedTo(s, names, x, parents[x])
    ensures Linked(s, names, -1)
  {
    forall x | 0 < x < |names| ensures names[x] != [] && s[x].parent < |names| && names[s[x].parent] == names[x][1..] {
      assert LinkedTo(s, names, x, parents[x]);
    }
  }

  lemma LinkCloses(s: seq<Symbol>, names: seq<Name>, link: int, bottom: nat)
    requires |names| <= |s| && |names| <= SYMBOLS && 0 < link < |names| && bottom < |names|
    requires Linked(s, names, link) && names[link] != [] && names[bottom] == names[link][1..]
    ensures |WithParent(s, link, bottom)| == |s| && Linked(WithParent(s, link, bottom), names, -1)
  {
    hide Linked;
    var after := WithParent(s, link, bottom);
    var parents: seq<nat> := seq(|names|, x requires 0 <= x < |names| => if x == link then bottom else s[x].parent);
    LinkAt(s, names, link, link);
    forall x | 0 < x < |names| ensures LinkedTo(after, names, x, parents[x]) {
      LinkAt(s, names, link, x);
    }
    LinkedFrom(after, names, parents);
  }

  lemma NumbersIgnoreParents(s: seq<Symbol>, sh: Shadow, link: int, symbol: nat)
    requires |sh.trees| <= |s| && link < |s| && Numbers(s, sh)
    ensures |WithParent(s, link, symbol)| == |s| && Numbers(WithParent(s, link, symbol), sh)
  {
    hide Balanced;
  }

  lemma StandingLinked(s: seq<Symbol>, sh: Shadow, link: int, bottom: nat)
    requires |sh.trees| == |sh.names| && 0 < link < |sh.names| && bottom < |sh.names| && Standing(s, sh, link)
    requires sh.names[link] != [] && sh.names[bottom] == sh.names[link][1..]
    ensures link < |s| && Standing(WithParent(s, link, bottom), sh, -1)
  {
    hide Standing, Shape, Numbers, Linked, Balanced, WithParent;
    StandingAt(s, sh, link, 0);
    StandingShape(s, sh, link);
    ShapeIgnoresParents(s, sh, link, bottom);
    NumbersIgnoreParents(s, sh, link, bottom);
    LinkCloses(s, sh.names, link, bottom);
    forall x | 0 <= x < |sh.names| ensures |sh.names[x]| <= ORDER + 1 {
      StandingAt(s, sh, link, x);
    }
    StandingFrom(WithParent(s, link, bottom), sh, -1);
  }

  /** All contexts have learnt the byte; the last link goes to the symbol that was decoded. */
  lemma PatchEnds(s: seq<Symbol>, sh: Shadow, x: nat, v: byte, link: int, bottom: nat, predicted: nat, name: Name,
                  predicted': nat)
    requires Patchable(s, sh, x, x, v, link, bottom, predicted, name)
    requires predicted' == if link < 0 then bottom else predicted
    ensures link < |s| && Poised(WithParent(s, link, bottom), sh, predicted', name + [v])
  {
    hide Standing;
    if link >= 0 {
      StandingLinked(s, sh, link, bottom);
    }
  }

  lemma ModelsIgnoreParents(s: seq<Symbol>, sh: Shadow, link: int, symbol: nat, model: Model)
    requires |sh.trees| == |sh.names| <= |s| && link < |s| && Models(s, sh, model)
    ensures Models(WithParent(s, link, symbol), sh, model)
  {
    var after := WithParent(s, link, symbol);
    forall c | 0 <= c < |sh.trees| ensures Matches(after, c, sh.trees[c], Lookup(model, sh.names[c])) {
      assert Matches(s, c, sh.trees[c], Lookup(model, sh.names[c]));
    }
  }

  /** On the compressor's output: what the array stands for, and what is still to be learnt. */
  ghost predicate Mending(s: seq<Symbol>, sh: Shadow, base: Model, n: Name, m: Name, v: byte, goal: Model, used: int) {
    && Sane(base) && |sh.trees| == |sh.names| <= |s|
    && Missed(base, n, m, Char(v)) && CodedAt(base, m, Char(v)) && goal == Learn(base, n, v)
    && Models(s, sh, Learn1(base, m, v)) && used == |sh.names| + |n| - |m|
  }

  lemma MendingAt(s: seq<Symbol>, sh: Shadow, base: Model, n: Name, m: Name, v: byte, goal: Model, used: int)
    requires Mending(s, sh, base, n, m, v, goal, used)
    ensures Sane(base) && Sane(Learn1(base, m, v)) && |sh.trees| == |sh.names| <= |s|
    ensures Models(s, sh, Learn1(base, m, v))
  {
    Learn1IsSane(base, m, v);
    hide Models, Sane, Learn1, Learn, Missed, CodedAt;
  }

  /** Learning in one more context. */
  lemma MendingTurn(s: seq<Symbol>, sh: Shadow, base: Model, c: nat, m: Name, v: byte, goal: Model, used: int,
                    after: seq<Symbol>, sh': Shadow, symbol: nat, next: nat, found: bool)
    requires c < |sh.names| && sh.names[c] != m && Mending(s, sh, base, sh.names[c], m, v, goal, used)
    requires Sane(Learn1(base, m, v))
    requires AfterContext(s, sh, c, v, Learn1(base, m, v), after, sh', symbol, next, found)
    ensures Sane(base) && sh.names[c] != []
    ensures Mending(after, sh', Learn1(base, sh.names[c], v), sh.names[c][1..], m, v, goal, used)
  {
    hide Models, Standing, Sane, Learn1, Learn, Lookup, Fit;
    var n := sh.names[c];
    MissedIsShorter(base, n, m, Char(v));
    LearningCommutes(base, m, n, v);
    LookupElsewhere(base, m, v, n);
    LookupElsewhere(base, n, v, m);
    MissedIgnoresLonger(base, n, v, n[1..], m, Char(v));
    SaneLookup(base, n);
    LearnTurn(base, n, v, false);
  }

  lemma MendingEnds(s: seq<Symbol>, sh: Shadow, base: Model, m: Name, v: byte, goal: Model, used: int)
    requires Mending(s, sh, base, m, m, v, goal, used)
    ensures |sh.trees| == |sh.names| <= |s| && Models(s, sh, goal) && used == |sh.names|
  {
    hide Models;
  }

  lemma PatchableName(s: seq<Symbol>, sh: Shadow, x: nat, m: nat, v: byte, bottom: nat, predicted: nat, name: Name)
    requires Patchable(s, sh, x, m, v, -1, bottom, predicted, name)
    ensures x < |sh.names| && sh.names[x] == name
  {
    hide Standing;
  }

  /** The next context to learn has a longer name than the one that decoded. */
  lemma PatchableNames(s: seq<Symbol>, sh: Shadow, x: nat, m: nat, v: byte, link: int, bottom: nat, predicted: nat,
                       name: Name)
    requires Patchable(s, sh, x, m, v, link, bottom, predicted, name) && x != m
    ensures x < |sh.names| && m < |sh.names| && sh.names[x] != sh.names[m]
  {
    hide Standing;
    ReachesIsShorter(s, sh.names, x, m);
  }

  lemma StoodNames(s: seq<Symbol>, sh: Shadow, c: nat, v: byte, link: int,
                   after: seq<Symbol>, sh': Shadow, symbol: nat, next: nat)
    requires Stood(s, sh, c, v, link, after, sh', symbol, next)
    ensures c < |sh.names| <= |sh'.names| == |sh'.trees| == next && symbol < next && sh.names <= sh'.names
  {
    hide Standing;
  }

  // ----- the search for the context that decodes

  ghost function RestOf(model: Model, n: Name, sym: Sym): seq<Step>
    requires Sane(model)
  {
    if n == [] || CodedAt(model, n, sym) then [] else Steps(model, n[1..], sym)
  }

  /** The contexts from `name` down to `n` have escaped; the steps from `n` on are what is read next. */
  ghost predicate Offered(s: seq<Symbol>, sh: Shadow, model: Model, name: Name, n: Name, sym: Sym,
                          input: seq<byte>, k: nat, coder: Coder, later: seq<Step>) {
    && Sane(model) && |sh.trees| == |sh.names| <= |s| && Models(s, sh, model)
    && Missed(model, name, n, sym) && Genuine(input, k, coder, Steps(model, n, sym) + later)
  }

  /** Context `m` has decoded the byte and learnt it, and the rest of the input is still to come. */
  ghost predicate Located(model: Model, name: Name, m: Name, sym: Sym, input: seq<byte>, k: nat, coder: Coder,
                          later: seq<Step>, after: seq<Symbol>, sh': Shadow, value: byte, size: nat) {
    && Sane(model) && sym == Char(value) && Missed(model, name, m, sym) && CodedAt(model, m, sym)
    && Genuine(input, k, coder, later)
    && |sh'.trees| == |sh'.names| <= |after| && Models(after, sh', Learn1(model, m, value))
    && |Lookup(model, m).counts| == 256
    && |sh'.names| == size + (if Lookup(model, m).counts[value] == 0 then 1 else 0)
  }

  lemma OfferedPromise(s: seq<Symbol>, sh: Shadow, model: Model, name: Name, c: nat, sym: Sym,
                       input: seq<byte>, k: nat, coder: Coder, later: seq<Step>)
    requires c < |sh.names| && Offered(s, sh, model, name, sh.names[c], sym, input, k, coder, later)
    ensures Sane(model) && Promised(s, sh, c, model, sym, input, k, coder, RestOf(model, sh.names[c], sym) + later)
  {
    hide Models, Sane, Genuine, Lookup, Fit, ContextSteps, Coded, Missed, ValidSteps, IsEscape;
    var n := sh.names[c];
    SaneLookup(model, n);
    assert Steps(model, n, sym) + later == ContextSteps(model, n, sym) + (RestOf(model, n, sym) + later);
  }

  lemma OfferedTurn(s: seq<Symbol>, sh: Shadow, model: Model, name: Name, n: Name, sym: Sym,
                    input: seq<byte>, k: nat, coder: Coder, later: seq<Step>, k': nat, coder': Coder)
    requires Offered(s, sh, model, name, n, sym, input, k, coder, later) && n != [] && Sane(model)
    requires Unknown(model, n, sym, input, k', coder', RestOf(model, n, sym) + later)
    ensures Offered(s, sh, model, name, n[1..], sym, input, k', coder', later)
  {
    hide Models, Sane, Genuine, Lookup, Fit, ContextSteps, Coded, Missed, ValidSteps, IsEscape;
    MissedMore(model, name, n, sym);
  }

  lemma OfferedEnd(s: seq<Symbol>, sh: Shadow, model: Model, name: Name, sym: Sym,
                   input: seq<byte>, k: nat, coder: Coder, later: seq<Step>, k': nat, coder': Coder)
    requires Sane(model) && Offered(s, sh, model, name, [], sym, input, k, coder, later)
    requires Unknown(model, [], sym, input, k', coder', RestOf(model, [], sym) + later)
    ensures sym == End
  {
    hide Models, Sane, Genuine, Lookup, Fit, ContextSteps, Missed, ValidSteps, IsEscape;
  }

  lemma OfferedKnown(s: seq<Symbol>, sh: Shadow, model: Model, name: Name, n: Name, sym: Sym,
                     input: seq<byte>, k: nat, coder: Coder, later: seq<Step>, k': nat, coder': Coder,
                     after: seq<Symbol>, sh': Shadow, value: byte)
    requires Sane(model) && Offered(s, sh, model, name, n, sym, input, k, coder, later)
    requires Known(model, n, sym, input, k', coder', RestOf(model, n, sym) + later, after, sh', value, |sh.names|)
    ensures Located(model, name, n, sym, input, k', coder', later, after, sh', value, |sh.names|)
  {
    hide Models, Sane, Genuine, Lookup, Fit, ContextSteps, Missed, Steps, ValidSteps, IsEscape, Learn1;
    assert RestOf(model, n, sym) + later == later;
  }

  // ----- one byte in the decompressor

  lemma PatchStarts(s: seq<Symbol>, sh: Shadow, predicted: nat, name: Name, m: nat, v: byte,
                    after: seq<Symbol>, sh': Shadow, bottom: nat, next: nat)
    requires Poised(s, sh, predicted, name) && |name| <= ORDER && |sh.names| < SYMBOLS - ORDER
    requires m < |sh.names| && Reaches(s, sh.names, predicted, m) && (next == |sh.names| || m == 0)
    requires Stood(s, sh, m, v, -1, after, sh', bottom, next)
    ensures |sh'.trees| == |sh'.names| == next && sh.names <= sh'.names
    ensures Patchable(after, sh', predicted, m, v, -1, bottom, predicted, name)
  {
    hide Standing;
    StandingAt(s, sh, -1, 0);
    ReachesFrame(s, sh.names, after, sh'.names, predicted, m, -1);
    ReachesIsShorter(s, sh.names, predicted, m);
  }

  lemma MendStarts(model: Model, name: Name, m: Name, sym: Sym, input: seq<byte>, k: nat, coder: Coder,
                   later: seq<Step>, after: seq<Symbol>, sh': Shadow, value: byte, size: nat)
    requires Located(model, name, m, sym, input, k, coder, later, after, sh', value, size)
    ensures Sane(model) && sym == Char(value) && Genuine(input, k, coder, later)
    ensures Mending(after, sh', model, name, m, value, Learn(model, name, value), size + Growth(model, name, value))
  {
    hide Models, Learn, Growth, Sane, Genuine, Lookup, Learn1;
    MissedGrowth(model, name, m, value);
  }

  lemma IdleAt(s: seq<Symbol>, sh: Shadow, predicted: nat, order: nat, next: nat)
    requires Idle(s, sh, predicted, order, next)
    ensures predicted < |sh.names| == next < SYMBOLS - ORDER && order == |sh.names[predicted]| <= ORDER
    ensures Poised(s, sh, predicted, sh.names[predicted])
  {
  }

  // ----- the whole input

  lemma ReadsAlike(input: seq<byte>, k: nat, y: seq<byte>, z: seq<byte>)
    requires Reads(input, k, y) && Alike(z, y)
    ensures Reads(input, k, z)
  {
    forall i: nat ensures At(input, k + i) == At(z, i) {
      assert At(z, i) == At(y, i);
    }
  }

  /** The end of the data reads like escapes in all contexts. */
  lemma EndIsGenuine(input: seq<byte>, k: nat, c: Coder, escapes: seq<Step>)
    requires Genuine(input, k, c, []) && forall i :: 0 <= i < |escapes| ==> IsEscape(escapes[i])
    ensures Genuine(input, k, c, escapes)
  {
    hide Tight, Live, Settled, IsEscape, Reads;
    EndReadsAsEscapes(c, escapes);
    ReadsAlike(input, k, Stream(c, []), Stream(c, escapes));
  }

  /** In front of every byte, and of the end of the data, the decoder is where the compressor was. */
  lemma OfferStarts(s: seq<Symbol>, sh: Shadow, st: State, predicted: nat, order: nat, next: nat,
                    input: seq<byte>, k: nat, c: Coder, rest: seq<byte>, sym: Sym, later: seq<Step>)
    requires Good(st) && AtInput(s, sh, st, predicted, order, next)
    requires Genuine(input, k, c, AllSteps(st, rest))
    requires sym == if rest == [] then End else Char(rest[0])
    requires later == if rest == [] then [] else AllSteps(Next(st, rest[0]), rest[1..])
    ensures predicted < |sh.names| == next == st.used && sh.names[predicted] == st.context
    ensures Offered(s, sh, st.model, st.context, st.context, sym, input, k, c, later)
  {
    hide Standing, Models, Genuine, Steps, Next, Sane;
    if rest == [] {
      EndIsGenuine(input, k, c, Steps(st.model, st.context, End));
      assert Steps(st.model, st.context, End) + [] == Steps(st.model, st.context, End);
    }
  }

  lemma DecodingStarts(input: seq<byte>, original: seq<byte>, code: nat, inPos: nat)
    requires code == Window(input, 0) && inPos == Cursor(input, 0)
    ensures Good(INITIAL) && Tuned(input, 0, START, code, inPos)
    ensures input == Compressed(original) ==> Genuine(input, 0, START, AllSteps(INITIAL, original))
  {
    StartIsReady();
    hide AllSteps, Stream, Window;
  }

  lemma OneMore(out: seq<byte>, v: byte, rest: seq<byte>)
    requires rest != [] && rest[0] == v
    ensures out + rest == out + [v] + rest[1..]
  {
  }

  /** The first byte is coded in the root, above its escape. */
  lemma FirstStep(data: seq<byte>)
    requires data != []
    ensures AllSteps(INITIAL, data) != [] && AllSteps(INITIAL, data)[0].under > 0
  {
  }

  lemma ZeroReadsZero(total: nat)
    requires 0 < total < BOTTOM
    ensures Window([], 0) == 0 && Read(START, 0, total) == 0
  {
  }

  /** Something is emitted for every byte string but the empty one. */
  lemma NothingCompressed(data: seq<byte>)
    requires Compressed(data) == []
    ensures data == []
  {
    StartIsReady();
    if data != [] {
      var steps := AllSteps(INITIAL, data);
      FirstStep(data);
      assert ValidStep(steps[0]);
      hide Window, Read, AllSteps;
      ZeroReadsZero(steps[0].total);
      ReadFindsStep(START, steps, 0);
    }
  }
}
