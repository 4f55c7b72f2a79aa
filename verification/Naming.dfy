/** The symbol array stands for a model: every context in it has the table that the model gives to the
    bytes that lead there.  Coding a byte in a context keeps that so. */
module Naming {
  import opened Bytes
  import opened RangeCoding
  import opened Frequencies
  import opened Trees
  import opened Symbols
  import opened Contexts
  import opened Ppm
  import opened Memory

  ghost predicate Matches(s: seq<Symbol>, c: nat, t: Tree, table: Table)
    requires c < |s|
  {
    && |table.counts| == 256 && Stands(t, table.counts, 0, 256) && s[c].escapes == table.escapes
    && SkeletonOf(t) == table.skeleton
  }

  /** The context was entered before: its last byte has been counted in the context before it. */
  ghost predicate Seen(model: Model, n: Name)
    requires n != []
  {
    var t := Lookup(model, n[..|n| - 1]);
    |t.counts| == 256 && t.counts[n[|n| - 1]] > 0
  }

  ghost predicate Injective(names: seq<Name>) {
    forall a, b :: 0 <= a < b < |names| ==> names[a] != names[b]
  }

  /** The array stands for `model`. */
  ghost predicate Models(s: seq<Symbol>, sh: Shadow, model: Model)
    requires |sh.trees| == |sh.names| <= |s|
  {
    && Sane(model) && Injective(sh.names)
    && (forall c :: 0 <= c < |sh.trees| ==> Matches(s, c, sh.trees[c], Lookup(model, sh.names[c])))
    && (forall x :: 0 < x < |sh.names| ==> sh.names[x] != [] && Seen(model, sh.names[x]))
    && (forall n :: n in model ==> n in sh.names)
  }

  // ----- one context learns one byte

  ghost function Rescales(s: seq<Symbol>, c: nat, count: nat): bool
    requires c < |s|
  {
    var m := MinimumAt(c);
    Overflows(count, s[c].total + Extra(count) + Delta(m), m)
  }

  ghost function TreeLearnt(s: seq<Symbol>, sh: Shadow, c: nat, v: byte): Tree
    requires c < |sh.trees| <= |s|
  {
    var t := sh.trees[c];
    var p := ByValue(t, v);
    var raised := Raise(t, p, v, MinimumAt(c), |sh.trees|);
    if Rescales(s, c, Found(t, p, MinimumAt(c))) then Halve(raised) else raised
  }

  ghost function EscapesLearnt(s: seq<Symbol>, c: nat, count: nat): nat
    requires c < |s|
  {
    var e := s[c].escapes + Extra(count);
    if Rescales(s, c, count) then Half(e) else e
  }

  /** The trees and escapes after context `c` has learnt `v`. */
  ghost predicate Learnt(s: seq<Symbol>, sh: Shadow, c: nat, v: byte, after: seq<Symbol>, sh': Shadow)
    requires c < |sh.trees| == |sh.names| <= |s| <= |after|
  {
    var t := sh.trees[c];
    var p := ByValue(t, v);
    var n := |sh.trees|;
    && sh' == Replace(sh, c, TreeLearnt(s, sh, c, v), Created(t, p), v)
    && after[c].escapes == EscapesLearnt(s, c, Found(t, p, MinimumAt(c)))
    && (forall b :: 0 <= b < n && b != c ==> after[b].escapes == s[b].escapes)
    && (Created(t, p) ==> n < |after| && after[n].escapes == 0)
  }

  /** The walk's count, and whether the context must be rescaled, agree with the table. */
  lemma CountsAgree(s: seq<Symbol>, c: nat, t: Tree, v: byte, table: Table)
    requires c < |s| && Matches(s, c, t, table) && Balanced(s[c].escapes, s[c].total, t, MinimumAt(c))
    ensures var p := ByValue(t, v); var m := MinimumAt(c);
      && Found(t, p, m) == table.counts[v] + m
      && (Created(t, p) <==> table.counts[v] == 0)
      && s[c].total == Total(table, m)
      && Before(t, v) == Sum(table.counts, 0, v)
      && (Rescales(s, c, Found(t, p, m)) <==> MustHalve(table, v, m))
  {
    WalkFindsSums(t, table.counts, 0, 256, v, Cap(MinimumAt(c)));
    StandsMass(t, table.counts, 0, 256);
    RaisedSum(table, v, MinimumAt(c));
  }

  /** Context `c` has the bumped table. */
  lemma LearntMatches(s: seq<Symbol>, sh: Shadow, c: nat, v: byte, after: seq<Symbol>, table: Table)
    requires c < |sh.trees| <= |s| == |after| && Matches(s, c, sh.trees[c], table)
    requires Balanced(s[c].escapes, s[c].total, sh.trees[c], MinimumAt(c))
    requires after[c].escapes == EscapesLearnt(s, c, Found(sh.trees[c], ByValue(sh.trees[c], v), MinimumAt(c)))
    ensures Matches(after, c, TreeLearnt(s, sh, c, v), Bump(table, v, MinimumAt(c)))
  {
    var m := MinimumAt(c);
    var t := sh.trees[c];
    CountsAgree(s, c, t, v, table);
    UpdateStands(t, table.counts, 0, 256, v, Delta(m), |sh.trees|);
    HalveStands(Raise(t, ByValue(t, v), v, m, |sh.trees|), Raised(table, v, m).counts, 0, 256);
    UpdateSkeleton(t, v, Delta(m), |sh.trees|);
    HalveSkeleton(Raise(t, ByValue(t, v), v, m, |sh.trees|));
  }

  lemma BumpKeepsCounted(t: Table, v: byte, m: nat, u: byte)
    requires |t.counts| == 256
    ensures |Bump(t, v, m).counts| == 256
    ensures t.counts[u] > 0 || u == v ==> Bump(t, v, m).counts[u] > 0
  {
  }

  lemma LearnKeepsSeen(model: Model, n: Name, v: byte, x: Name)
    requires Sane(model) && x != []
    requires Seen(model, x) || x == n + [v]
    ensures Seen(Learn1(model, n, v), x)
  {
    SaneLookup(model, n);
    SaneLookup(model, x[..|x| - 1]);
    BumpKeepsCounted(Lookup(model, n), v, Minimum(n), x[|x| - 1]);
  }

  /** A new symbol's name is new. */
  lemma FreshName(sh: Shadow, model: Model, c: nat, v: byte)
    requires |sh.trees| == |sh.names| && c < |sh.names| && sh.names[0] == []
    requires forall x :: 0 < x < |sh.names| ==> sh.names[x] != [] && Seen(model, sh.names[x])
    requires |Lookup(model, sh.names[c]).counts| == 256 && Lookup(model, sh.names[c]).counts[v] == 0
    ensures sh.names[c] + [v] !in sh.names
  {
    var n := sh.names[c] + [v];
    assert n[..|n| - 1] == sh.names[c];
  }

  /** The other contexts are as before, and so is the model's view of them. */
  lemma LearntOther(s: seq<Symbol>, sh: Shadow, model: Model, c: nat, v: byte, after: seq<Symbol>, sh': Shadow, b: nat)
    requires |sh.trees| == |sh.names| <= |s| == |after| && c < |sh.trees| && Models(s, sh, model)
    requires Learnt(s, sh, c, v, after, sh') && b < |sh.trees| && b != c
    ensures |sh'.trees| == |sh'.names| >= |sh.trees| && sh'.names[b] == sh.names[b]
    ensures Matches(after, b, sh'.trees[b], Lookup(Learn1(model, sh.names[c], v), sh'.names[b]))
  {
    assert sh.names[b] != sh.names[c];
    assert Matches(s, b, sh.trees[b], Lookup(model, sh.names[b]));
    hide Stands, Bump, Rescales, TreeLearnt, EscapesLearnt, Balanced, Sane, Seen, Fit, ByValue, Injective;
  }

  /** The new context, if any, is empty, and unknown to the model. */
  lemma LearntNew(s: seq<Symbol>, sh: Shadow, model: Model, c: nat, v: byte, after: seq<Symbol>, sh': Shadow)
    requires |sh.trees| == |sh.names| <= |s| == |after| && c < |sh.trees| && Models(s, sh, model)
    requires Learnt(s, sh, c, v, after, sh') && sh.names[0] == [] && Created(sh.trees[c], ByValue(sh.trees[c], v))
    requires Balanced(s[c].escapes, s[c].total, sh.trees[c], MinimumAt(c))
    ensures var n := |sh.trees|; var name := sh.names[c] + [v];
      && |sh'.trees| == |sh'.names| == n + 1 && sh'.names[n] == name && name !in sh.names
      && Matches(after, n, sh'.trees[n], Lookup(Learn1(model, sh.names[c], v), name))
  {
    assert Matches(s, c, sh.trees[c], Lookup(model, sh.names[c]));
    CountsAgree(s, c, sh.trees[c], v, Lookup(model, sh.names[c]));
    FreshName(sh, model, c, v);
    hide Bump, Rescales, TreeLearnt, EscapesLearnt, Balanced, Sane, Seen, Fit, ByValue, Injective;
  }

  lemma LearntSelf(s: seq<Symbol>, sh: Shadow, model: Model, c: nat, v: byte, after: seq<Symbol>, sh': Shadow)
    requires |sh.trees| == |sh.names| <= |s| == |after| && c < |sh.trees| && Models(s, sh, model)
    requires Learnt(s, sh, c, v, after, sh') && MinimumAt(c) == Minimum(sh.names[c])
    requires Balanced(s[c].escapes, s[c].total, sh.trees[c], MinimumAt(c))
    ensures |sh'.trees| == |sh'.names| >= |sh.trees| && sh'.names[c] == sh.names[c]
    ensures Matches(after, c, sh'.trees[c], Lookup(Learn1(model, sh.names[c], v), sh.names[c]))
  {
    assert Matches(s, c, sh.trees[c], Lookup(model, sh.names[c]));
    hide Stands, Bump, Rescales, Balanced, Sane, Seen, Fit, ByValue, Injective;
    LearntMatches(s, sh, c, v, after, Lookup(model, sh.names[c]));
  }

  lemma LearntNames(s: seq<Symbol>, sh: Shadow, model: Model, c: nat, v: byte, after: seq<Symbol>, sh': Shadow)
    requires |sh.trees| == |sh.names| <= |s| == |after| && c < |sh.trees| && Models(s, sh, model)
    requires Learnt(s, sh, c, v, after, sh') && sh.names[0] == []
    requires Balanced(s[c].escapes, s[c].total, sh.trees[c], MinimumAt(c))
    ensures var model' := Learn1(model, sh.names[c], v);
      && Injective(sh'.names)
      && (forall x :: 0 < x < |sh'.names| ==> sh'.names[x] != [] && Seen(model', sh'.names[x]))
      && (forall n :: n in model' ==> n in sh'.names)
  {
    var model' := Learn1(model, sh.names[c], v);
    if Created(sh.trees[c], ByValue(sh.trees[c], v)) {
      LearntNew(s, sh, model, c, v, after, sh');
    }
    forall x | 0 < x < |sh'.names| ensures sh'.names[x] != [] && Seen(model', sh'.names[x]) {
      LearnKeepsSeen(model, sh.names[c], v, sh'.names[x]);
    }
    hide Seen, Bump, Balanced, Sane, Fit, ByValue, Stands, TreeLearnt, EscapesLearnt, Matches;
    forall n | n in model' ensures n in sh'.names {
      assert n == sh.names[c] || n in sh.names;
      var x :| 0 <= x < |sh.names| && sh.names[x] == n;
      assert sh'.names[x] == n;
    }
  }

  /** The whole array stands for the model that has learnt the byte. */
  lemma LearntModels(s: seq<Symbol>, sh: Shadow, model: Model, c: nat, v: byte, after: seq<Symbol>, sh': Shadow)
    requires |sh.trees| == |sh.names| <= |s| == |after| && c < |sh.trees| && Models(s, sh, model)
    requires Learnt(s, sh, c, v, after, sh') && sh.names[0] == [] && MinimumAt(c) == Minimum(sh.names[c])
    requires Balanced(s[c].escapes, s[c].total, sh.trees[c], MinimumAt(c))
    ensures |sh'.trees| == |sh'.names| <= |s| && Models(after, sh', Learn1(model, sh.names[c], v))
  {
    Learn1IsSane(model, sh.names[c], v);
    LearntNames(s, sh, model, c, v, after, sh');
    LearntSelf(s, sh, model, c, v, after, sh');
    forall b | 0 <= b < |sh'.trees|
      ensures Matches(after, b, sh'.trees[b], Lookup(Learn1(model, sh.names[c], v), sh'.names[b]))
    {
      if b == |sh.trees| {
        LearntNew(s, sh, model, c, v, after, sh');
      } else if b != c {
        LearntOther(s, sh, model, c, v, after, sh', b);
      }
    }
  }

  // ----- links between contexts

  /** The invariant of both directions between two contexts, on any input: slot `open` may still lack
      its link. */
  ghost predicate Standing(s: seq<Symbol>, sh: Shadow, open: int) {
    && Shape(s, sh) && Numbers(s, sh) && Linked(s, sh.names, open)
    && forall x :: 0 <= x < |sh.names| ==> |sh.names[x]| <= ORDER + 1
  }

  function WithParent(s: seq<Symbol>, link: int, symbol: nat): seq<Symbol>
    requires link < |s|
  {
    if link < 0 then s else s[link := s[link].(parent := symbol % 0x1_0000)]
  }

  /** Context `c` has walked for `v` and `link` has been pointed at the symbol. */
  ghost predicate Entered(s: seq<Symbol>, sh: Shadow, c: nat, p: Path, v: byte, link: int,
                          after: seq<Symbol>, sh': Shadow, symbol: nat, next: nat)
    requires c < |sh.trees| == |sh.names| < |s| && Fits(sh.trees[c], p)
  {
    var t := sh.trees[c];
    var n := |sh.trees|;
    && sh' == Grown(sh, c, p, v) && c < |sh'.trees| == |sh'.names| <= |after| == |s|
    && (forall j :: 0 <= j < n ==>
          && after[j].escapes == s[j].escapes && after[j].total == s[j].total
          && after[j].parent == (if j == link then symbol else s[j].parent))
    && (Created(t, p) ==> after[n].escapes == 0 && after[n].parent == 0)
    && symbol == (if Created(t, p) then n else Target(t, p).slot)
    && 0 < symbol < |sh'.names| == next && sh'.names[symbol] == sh.names[c] + [v]
  }

  lemma ShapeIgnoresParents(s: seq<Symbol>, sh: Shadow, link: int, symbol: nat)
    requires Shape(s, sh) && link < |s|
    ensures Shape(WithParent(s, link, symbol), sh)
  {
    var after := WithParent(s, link, symbol);
    forall c | 0 <= c < |sh.trees| ensures Housed(after, c, sh.trees[c], sh.names) {
      assert Housed(s, c, sh.trees[c], sh.names);
      StoredFrame(s, after, sh.trees[c]);
    }
  }

  lemma DueIgnoresParents(s: seq<Symbol>, sh: Shadow, c: nat, count: nat, link: int, symbol: nat)
    requires c < |sh.trees| <= |s| && link < |s| && Due(s, sh, c, count)
    ensures Due(WithParent(s, link, symbol), sh, c, count)
  {
    hide Balanced, Owing;
  }

  lemma Enters(s: seq<Symbol>, sh: Shadow, c: nat, p: Path, v: byte, link: int,
               walked: seq<Symbol>, sh': Shadow, symbol: nat, next: nat)
    requires c < |sh.trees| == |sh.names| < |s| == SYMBOLS && Fits(sh.trees[c], p) && link < |sh.trees|
    requires Descended(s, sh, c, p, v, walked, sh', symbol, next)
    ensures Entered(s, sh, c, p, v, link, WithParent(walked, link, symbol), sh', symbol, next)
  {
    hide Grown, Fits, Created, ByValue, Target;
  }

  /** Where the context stands once `link` points at the symbol. */
  lemma LinkedUp(s: seq<Symbol>, sh: Shadow, c: nat, p: Path, v: byte, link: int,
                 walked: seq<Symbol>, sh1: Shadow, symbol: nat, next: nat, count: nat, mid: seq<Symbol>)
    requires c < |sh.trees| == |sh.names| < |s| == |walked| == SYMBOLS && Fits(sh.trees[c], p) && link < |sh.trees|
    requires mid == WithParent(walked, link, symbol) && c < |sh1.trees| == |sh1.names| <= |s|
    requires Descended(s, sh, c, p, v, walked, sh1, symbol, next)
    requires Due(walked, sh1, c, count) && Shape(walked, sh1)
    ensures |mid| == |s| && mid[c].escapes == s[c].escapes && mid[c].total == s[c].total
    ensures Entered(s, sh, c, p, v, link, mid, sh1, symbol, next)
    ensures Shape(mid, sh1) && Due(mid, sh1, c, count)
  {
    hide Shape, Due, Descended, Grown, Fits, Created, Target;
    Enters(s, sh, c, p, v, link, walked, sh1, symbol, next);
    ShapeIgnoresParents(walked, sh1, link, symbol);
    DueIgnoresParents(walked, sh1, c, count, link, symbol);
  }

  /** Everything about the links after a context was entered and settled. */
  lemma LinksAfter(s: seq<Symbol>, sh: Shadow, c: nat, p: Path, v: byte, link: int,
                   mid: seq<Symbol>, sh1: Shadow, symbol: nat, next: nat, after: seq<Symbol>)
    requires c < |sh.trees| == |sh.names| < |s| && Fits(sh.trees[c], p) && link < |sh.trees| && c != link
    requires Entered(s, sh, c, p, v, link, mid, sh1, symbol, next) && Linked(s, sh.names, link)
    requires link >= 0 ==> 0 < link && sh.names[link][1..] == sh.names[c] + [v]
    requires |after| == |mid| && forall j :: 0 <= j < |mid| ==> after[j].parent == mid[j].parent
    ensures |sh1.names| <= |after| && Linked(after, sh1.names, symbol)
    ensures sh.names[c] == [] || !Created(sh.trees[c], p) ==> Linked(after, sh1.names, -1)
  {
    hide Fits, Target;
    var names := sh1.names;
    forall x | 0 < x < |names|
      ensures names[x] != []
      ensures x != symbol || sh.names[c] == [] || !Created(sh.trees[c], p) ==>
                after[x].parent < |names| && names[after[x].parent] == names[x][1..]
    {
      if x < |sh.names| {
        assert names[x] == sh.names[x];
      }
    }
  }

  lemma LearntAfter(s: seq<Symbol>, sh: Shadow, c: nat, v: byte, link: int,
                    mid: seq<Symbol>, sh1: Shadow, symbol: nat, next: nat, after: seq<Symbol>)
    requires c < |sh.trees| == |sh.names| < |s|
    requires var p := ByValue(sh.trees[c], v); Entered(s, sh, c, p, v, link, mid, sh1, symbol, next)
    requires |after| == |mid| && OnlyTotals(mid, after, c, Slots(sh1.trees[c]))
    requires var count := Found(sh.trees[c], ByValue(sh.trees[c], v), MinimumAt(c));
             after[c].escapes == AdaptedEscapes(mid, c, count, MinimumAt(c))
    ensures var count := Found(sh.trees[c], ByValue(sh.trees[c], v), MinimumAt(c));
            Learnt(s, sh, c, v, after, AdaptedShadow(sh1, mid, c, count))
  {
    hide Fits, Found, Overflows, Halve, Raise, Target;
  }

  lemma StandingFrom(s: seq<Symbol>, sh: Shadow, open: int)
    requires |sh.trees| == |sh.names| <= |s| && Shape(s, sh) && Numbers(s, sh) && Linked(s, sh.names, open)
    requires forall x :: 0 <= x < |sh.names| ==> |sh.names[x]| <= ORDER + 1
    ensures Standing(s, sh, open)
  {
  }

  lemma StandingAt(s: seq<Symbol>, sh: Shadow, open: int, c: nat)
    requires Standing(s, sh, open) && c < |sh.trees|
    ensures Linked(s, sh.names, open)
    ensures |s| == SYMBOLS && |sh.trees| == |sh.names| <= SYMBOLS && sh.names[0] == []
    ensures MinimumAt(c) == Minimum(sh.names[c]) && |sh.names[c]| <= ORDER + 1
    ensures Balanced(s[c].escapes, s[c].total, sh.trees[c], MinimumAt(c))
  {
  }

  /** The link of a slot other than the open one. */
  lemma ParentAt(s: seq<Symbol>, sh: Shadow, open: int, x: nat)
    requires Standing(s, sh, open) && 0 < x < |sh.names| && x != open
    ensures |sh.trees| == |sh.names| <= |s| && x < |s| && sh.names[x] != []
    ensures s[x].parent < |sh.names| && sh.names[s[x].parent] == sh.names[x][1..]
  {
  }

  lemma StandingShape(s: seq<Symbol>, sh: Shadow, open: int)
    requires Standing(s, sh, open)
    ensures Shape(s, sh) && |sh.trees| <= |s| && Numbers(s, sh)
  {
  }

  /** The invariant after a context was entered and settled. */
  lemma StandingAfter(s: seq<Symbol>, sh: Shadow, c: nat, p: Path, v: byte, link: int,
                      mid: seq<Symbol>, sh1: Shadow, symbol: nat, next: nat, after: seq<Symbol>, count: nat)
    requires Standing(s, sh, link) && c < |sh.trees| < SYMBOLS && |sh.names[c]| <= ORDER && Fits(sh.trees[c], p)
    requires link < |sh.trees| && c != link && (link >= 0 ==> 0 < link && sh.names[link][1..] == sh.names[c] + [v])
    requires Entered(s, sh, c, p, v, link, mid, sh1, symbol, next)
    requires |after| == |mid| && OnlyTotals(mid, after, c, Slots(sh1.trees[c]))
    requires Shape(after, AdaptedShadow(sh1, mid, c, count)) && Numbers(after, AdaptedShadow(sh1, mid, c, count))
    ensures var sh3 := AdaptedShadow(sh1, mid, c, count);
      && Standing(after, sh3, symbol)
      && (sh.names[c] == [] || !Created(sh.trees[c], p) ==> Standing(after, sh3, -1))
  {
    hide Standing, Shape, Numbers, Linked, Fits, Target, Raise, Created, AdaptedTree;
    StandingAt(s, sh, link, c);
    LinksAfter(s, sh, c, p, v, link, mid, sh1, symbol, next, after);
    var sh3 := AdaptedShadow(sh1, mid, c, count);
    forall x | 0 <= x < |sh3.names| ensures |sh3.names[x]| <= ORDER + 1 {
      if x < |sh.names| {
        StandingAt(s, sh, link, x);
      }
    }
    StandingFrom(after, sh3, symbol);
    if sh.names[c] == [] || !Created(sh.trees[c], p) {
      StandingFrom(after, sh3, -1);
    }
  }

  lemma ModelsAfter(s: seq<Symbol>, sh: Shadow, c: nat, v: byte, link: int,
                    mid: seq<Symbol>, sh1: Shadow, symbol: nat, next: nat, after: seq<Symbol>, model: Model)
    requires c < |sh.trees| == |sh.names| <= |s| && Standing(s, sh, link) && Models(s, sh, model)
    requires |sh.trees| < |s|
    requires var p := ByValue(sh.trees[c], v); Entered(s, sh, c, p, v, link, mid, sh1, symbol, next)
    requires |after| == |mid| && OnlyTotals(mid, after, c, Slots(sh1.trees[c]))
    requires var count := Found(sh.trees[c], ByValue(sh.trees[c], v), MinimumAt(c));
             after[c].escapes == AdaptedEscapes(mid, c, count, MinimumAt(c))
    ensures var count := Found(sh.trees[c], ByValue(sh.trees[c], v), MinimumAt(c));
            var sh3 := AdaptedShadow(sh1, mid, c, count);
            |sh3.trees| == |sh3.names| <= |after| && Models(after, sh3, Learn1(model, sh.names[c], v))
  {
    hide Standing, Models;
    StandingAt(s, sh, link, c);
    LearntAfter(s, sh, c, v, link, mid, sh1, symbol, next, after);
    hide Learnt, Balanced, OnlyTotals, Found, ByValue;
    LearntModels(s, sh, model, c, v, after,
                 AdaptedShadow(sh1, mid, c, Found(sh.trees[c], ByValue(sh.trees[c], v), MinimumAt(c))));
  }

  lemma ModelsAt(s: seq<Symbol>, sh: Shadow, model: Model, c: nat)
    requires |sh.trees| == |sh.names| <= |s| && Models(s, sh, model) && c < |sh.trees|
    ensures Sane(model) && Matches(s, c, sh.trees[c], Lookup(model, sh.names[c]))
  {
  }

  /** The numbers the encoder codes with are those of the model's table. */
  lemma NumbersAgree(s: seq<Symbol>, sh: Shadow, c: nat, v: byte, model: Model, link: int)
    requires |sh.trees| == |sh.names| <= |s| && Standing(s, sh, link) && Models(s, sh, model) && c < |sh.trees|
    ensures var n := sh.names[c]; var table := Lookup(model, n); var m := MinimumAt(c); var t := sh.trees[c];
      && Sane(model) && Fit(table, m) && |table.counts| == 256 && m == Minimum(n)
      && s[c].escapes == table.escapes && s[c].total == Total(table, m)
      && Found(t, ByValue(t, v), m) == table.counts[v] + m
      && (Created(t, ByValue(t, v)) <==> table.counts[v] == 0)
      && Before(t, v) == Sum(table.counts, 0, v)
  {
    hide Standing, Models, Sane, Balanced, Fit, Sum, Before, Linked, ByValue, Stands;
    StandingAt(s, sh, link, c);
    ModelsAt(s, sh, model, c);
    SaneLookup(model, sh.names[c]);
    CountsAgree(s, c, sh.trees[c], v, Lookup(model, sh.names[c]));
  }

  /** The slot `link`, if any, still needs its link, to the slot named `n`. */
  ghost predicate Awaits(names: seq<Name>, link: int, n: Name) {
    0 <= link < |names| ==> 0 < link && names[link] != [] && names[link][1..] == n
  }

  /** The array before context `c` deals with byte `v`; `link` is the symbol that the longer context found. */
  ghost predicate BeforeContext(s: seq<Symbol>, sh: Shadow, c: nat, v: byte, model: Model, link: int) {
    && |s| == SYMBOLS && c < |sh.trees| == |sh.names| < SYMBOLS && link < |sh.trees| && c != link
    && |sh.names[c]| <= ORDER && Awaits(sh.names, link, sh.names[c] + [v])
    && Models(s, sh, model) && Standing(s, sh, link)
  }

  /** The array after context `c` has dealt with byte `v`; `symbol` is `v` in that context, and `found`
      says whether the context could code it. */
  ghost predicate AfterContext(s: seq<Symbol>, sh: Shadow, c: nat, v: byte, model: Model,
                               after: seq<Symbol>, sh': Shadow, symbol: nat, next: nat, found: bool) {
    && Sane(model) && c < |sh.names|
    && var n := sh.names[c];
    SaneLookup(model, n);
    && |after| == |s| && |sh'.trees| == |sh'.names| <= |after|
    && Standing(after, sh', symbol) && (n == [] || found ==> Standing(after, sh', -1))
    && Models(after, sh', Learn1(model, n, v))
    && 0 < symbol < |sh'.names| == next && sh'.names[symbol] == n + [v] && sh.names <= sh'.names
    && next == |sh.names| + (if Lookup(model, n).counts[v] == 0 then 1 else 0)
    && (found <==> Coded(model, n, Char(v)))
  }

  lemma ContextDone(s: seq<Symbol>, sh: Shadow, c: nat, v: byte, link: int, mid: seq<Symbol>, sh1: Shadow,
                    symbol: nat, next: nat, after: seq<Symbol>, sh3: Shadow, count: nat, model: Model)
    requires |s| == |mid| == |after| && c < |sh.trees| == |sh.names| < |s| && link < |sh.trees| && c != link
    requires |sh.names[c]| <= ORDER && Awaits(sh.names, link, sh.names[c] + [v])
    requires c < |sh1.trees| <= |s| && |sh3.trees| == |sh3.names| <= |s|
    requires OnlyTotals(mid, after, c, Slots(sh1.trees[c]))
    requires after[c].escapes == AdaptedEscapes(mid, c, count, MinimumAt(c)) && sh3 == AdaptedShadow(sh1, mid, c, count)
    requires count == Found(sh.trees[c], ByValue(sh.trees[c], v), MinimumAt(c))
    requires Entered(s, sh, c, ByValue(sh.trees[c], v), v, link, mid, sh1, symbol, next)
    requires Numbers(after, sh3) && Shape(after, sh3)
    requires Models(s, sh, model) && Standing(s, sh, link)
    ensures Sane(model) && AfterContext(s, sh, c, v, model, after, sh3, symbol, next, count > 0)
  {
    hide Standing, Models, Shape, Numbers, Fits, Target, OnlyTotals, Raise, Sane, Fit, ByValue, Found, Learn1, Before,
         AdaptedTree, AdaptedEscapes;
    NumbersAgree(s, sh, c, v, model, link);
    StandingAt(s, sh, link, c);
    StandingAfter(s, sh, c, ByValue(sh.trees[c], v), v, link, mid, sh1, symbol, next, after, count);
    ModelsAfter(s, sh, c, v, link, mid, sh1, symbol, next, after, model);
    assert |Lookup(model, sh.names[c]).counts| == 256;
    assert count > 0 <==> Coded(model, sh.names[c], Char(v));
    assert sh.names <= sh3.names;
    hide Created;
  }

  // ----- what holds on any input, produced by the compressor or not

  /** The array after context `c` has dealt with byte `v`, whatever the model; `symbol` is `v` in that context. */
  ghost predicate Stood(s: seq<Symbol>, sh: Shadow, c: nat, v: byte, link: int,
                        after: seq<Symbol>, sh': Shadow, symbol: nat, next: nat) {
    && c < |sh.names| <= |s| == |after| && |sh'.trees| == |sh'.names| <= |s|
    && Standing(after, sh', symbol) && (next == |sh.names| || sh.names[c] == [] ==> Standing(after, sh', -1))
    && 0 < symbol < |sh'.names| == next <= |sh.names| + 1 && sh'.names[symbol] == sh.names[c] + [v]
    && sh.names <= sh'.names
    && forall j :: 0 <= j < |sh.names| && j != link ==> after[j].parent == s[j].parent
  }

  lemma ContextStood(s: seq<Symbol>, sh: Shadow, c: nat, p: Path, v: byte, link: int, mid: seq<Symbol>, sh1: Shadow,
                     symbol: nat, next: nat, after: seq<Symbol>, sh3: Shadow, count: nat)
    requires |s| == |mid| == |after| && c < |sh.trees| == |sh.names| < |s| && link < |sh.trees| && c != link
    requires |sh.names[c]| <= ORDER && Awaits(sh.names, link, sh.names[c] + [v])
    requires c < |sh1.trees| <= |s| && |sh3.trees| == |sh3.names| <= |s|
    requires OnlyTotals(mid, after, c, Slots(sh1.trees[c])) && sh3 == AdaptedShadow(sh1, mid, c, count)
    requires Fits(sh.trees[c], p) && Entered(s, sh, c, p, v, link, mid, sh1, symbol, next)
    requires Numbers(after, sh3) && Shape(after, sh3)
    requires Standing(s, sh, link)
    ensures Stood(s, sh, c, v, link, after, sh3, symbol, next)
  {
    hide Standing, Shape, Numbers, Fits, Target, Raise, AdaptedTree;
    StandingAt(s, sh, link, c);
    StandingAfter(s, sh, c, p, v, link, mid, sh1, symbol, next, after, count);
    assert sh.names <= sh3.names;
    hide Created;
  }
}
