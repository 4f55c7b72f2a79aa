/** What the model of compress.c has come to, told by the bytes it has seen: which bytes each context has learnt, and
    with what numbers it codes the next one. */
module Histories {
  import opened Bytes
  import opened RangeCoding
  import opened Frequencies
  import opened Ppm

  // ----- the bytes seen

  predicate EndsWith(h: seq<byte>, p: seq<byte>) {
    |p| <= |h| && h[|h| - |p|..] == p
  }

  /** `p` is somewhere in `h`. */
  predicate Occurs(p: seq<byte>, h: seq<byte>) {
    EndsWith(h, p) || (h != [] && Occurs(p, h[..|h| - 1]))
  }

  /** The last two bytes, or as many as there are. */
  function LastTwo(h: seq<byte>): (c: seq<byte>)
    ensures |c| <= 2 && |c| <= |h|
  {
    if |h| <= 2 then h else h[|h| - 2..]
  }

  /** The pieces of one, two and three bytes at the end. */
  function Ends(h: seq<byte>): set<seq<byte>>
    requires h != []
  {
    {h[|h| - 1..]} + (if |h| >= 2 then {h[|h| - 2..]} else {}) + (if |h| >= 3 then {h[|h| - 3..]} else {})
  }

  /** All pieces of one, two and three bytes. */
  function Pieces(h: seq<byte>): set<seq<byte>> {
    if h == [] then {} else Pieces(h[..|h| - 1]) + Ends(h)
  }

  /** The bytes since the model was last made anew: that is done when the pieces, and the root, leave fewer than three
      of the 4096 slots. */
  function Recent(data: seq<byte>): seq<byte> {
    if data == [] then []
    else
      var h := Recent(data[..|data| - 1]) + [data[|data| - 1]];
      if 1 + |Pieces(h)| >= 4094 then [] else h
  }

  // ----- what a context has learnt

  /** After `h` the byte `v` is learnt by the context `n`: it consists of the last bytes, at most two, and it is the
      longest, or the next longer context has never been followed by `v`. */
  predicate Learns(h: seq<byte>, n: Name, v: byte) {
    && |n| <= 2 && EndsWith(h, n)
    && (|n| == 2 || |n| == |h| || !Occurs(h[|h| - |n| - 1..] + [v], h))
  }

  /** The bytes that context `n` has learnt, in turn. */
  function Lessons(h: seq<byte>, n: Name): seq<byte> {
    if h == [] then []
    else
      var d, v := h[..|h| - 1], h[|h| - 1];
      Lessons(d, n) + if Learns(d, n, v) then [v] else []
  }

  /** A context's numbers. */
  datatype Numbers = Numbers(escapes: nat, counts: seq<nat>)

  function HalfUp(x: nat): nat {
    x - x / 2
  }

  /** One more lesson: 2 for the byte, and 5 escapes for its first time; in the root 3, and no escapes.  All are halved
      when the byte has come too often, or there are too many. */
  function Lesson(root: bool, t: Numbers, v: byte): (r: Numbers)
    requires |t.counts| == 256
    ensures |r.counts| == 256
  {
    var c := t.counts[v];
    var escapes := t.escapes + if !root && c == 0 then 5 else 0;
    var counts := t.counts[v := c + if root then 3 else 2];
    if c > (if root then 249 else 251) || escapes + (if root then 256 else 0) + Sum(counts, 0, 256) > 65280 then
      Numbers(HalfUp(escapes), seq(256, i requires 0 <= i < 256 => HalfUp(counts[i])))
    else Numbers(escapes, counts)
  }

  /** The numbers after these lessons; the root has 1 escape from the beginning. */
  function Teach(root: bool, ls: seq<byte>): (t: Numbers)
    ensures |t.counts| == 256
  {
    if ls == [] then Numbers(if root then 1 else 0, seq(256, _ => 0))
    else Lesson(root, Teach(root, ls[..|ls| - 1]), ls[|ls| - 1])
  }

  // ----- how the next byte is coded

  /** In context `n`, after `h`: in its interval if the context knows it, and in the root always; else an escape, unless
      the context knows nothing, and then in the next shorter context. */
  function Reference(h: seq<byte>, n: Name, v: byte): seq<Step>
    decreases |n|
  {
    var t := Teach(n == [], Lessons(h, n));
    var below, all := Sum(t.counts, 0, v), Sum(t.counts, 0, 256);
    if n == [] then [Step(t.escapes + v + below, t.counts[v] + 1, t.escapes + 256 + all)]
    else if t.counts[v] > 0 then [Step(t.escapes + below, t.counts[v], t.escapes + all)]
    else
      (if t.escapes > 0 then [Step(0, t.escapes, t.escapes + all)] else []) + Reference(h, n[1..], v)
  }

  /** All steps for the bytes of `data` after the first `i`. */
  function References(data: seq<byte>, i: nat): seq<Step>
    requires i <= |data|
    decreases |data| - i
  {
    if i == |data| then []
    else
      var h := Recent(data[..i]);
      Reference(h, LastTwo(h), data[i]) + References(data, i + 1)
  }

  // ----- occurrences

  lemma {:induction false} OccursShorter(p: seq<byte>, q: seq<byte>, h: seq<byte>)
    requires Occurs(p, h) && EndsWith(p, q)
    ensures Occurs(q, h)
    decreases |h|
  {
    if EndsWith(h, p) {
      assert h[|h| - |q|..] == p[|p| - |q|..];
    } else {
      OccursShorter(p, q, h[..|h| - 1]);
    }
  }

  lemma OccursMore(p: seq<byte>, h: seq<byte>, v: byte)
    ensures Occurs(p, h + [v]) <==> Occurs(p, h) || EndsWith(h + [v], p)
  {
    assert (h + [v])[..|h|] == h;
  }

  lemma EndsMore(h: seq<byte>, v: byte, n: seq<byte>, u: byte)
    ensures EndsWith(h + [v], n + [u]) <==> u == v && EndsWith(h, n)
  {
    if |n| <= |h| {
      assert (h + [v])[|h| - |n|..] == h[|h| - |n|..] + [v];
      if h[|h| - |n|..] + [v] == n + [u] {
        assert (h[|h| - |n|..] + [v])[..|n|] == (n + [u])[..|n|];
        assert (h[|h| - |n|..] + [v])[|n|] == (n + [u])[|n|];
      }
    }
  }

  lemma LessonsMore(h: seq<byte>, v: byte, n: Name)
    ensures Lessons(h + [v], n) == Lessons(h, n) + if Learns(h, n, v) then [v] else []
  {
    assert (h + [v])[..|h|] == h;
  }

  lemma EndsOfLastTwo(h: seq<byte>, n: seq<byte>)
    ensures |n| <= 2 ==> (EndsWith(h, n) <==> EndsWith(LastTwo(h), n))
  {
    if |n| <= 2 && |n| <= |h| {
      var c := LastTwo(h);
      assert h[|h| - |n|..] == c[|c| - |n|..];
    }
  }

  lemma NotLearntIsKnown(h: seq<byte>, n: Name, v: byte)
    requires |n| <= 2 && EndsWith(h, n) && !Learns(h, n, v)
    ensures Occurs(n + [v], h)
  {
    hide Occurs;
    var longer := h[|h| - |n| - 1..];
    assert longer[1..] == n;
    assert (longer + [v])[1..] == n + [v];
    OccursShorter(longer + [v], n + [v], h);
  }

  lemma LearntEnds(h: seq<byte>, n: Name, v: byte)
    ensures Learns(h, n, v) ==> EndsWith(h, n)
  {
  }

  /** A context knows exactly the bytes that have followed it somewhere. */
  lemma {:induction false} KnownOccurs(h: seq<byte>, n: Name, v: byte)
    requires |n| <= 2
    ensures v in Lessons(h, n) <==> Occurs(n + [v], h)
    decreases |h|
  {
    if h != [] {
      hide Lessons, Occurs, Learns, EndsWith;
      var d, u := h[..|h| - 1], h[|h| - 1];
      assert h == d + [u];
      KnownOccurs(d, n, v);
      LessonsMore(d, u, n);
      OccursMore(n + [v], d, u);
      EndsMore(d, u, n, v);
      LearntEnds(d, n, u);
      if v == u && EndsWith(d, n) && !Learns(d, n, u) { NotLearntIsKnown(d, n, u); }
    }
  }

  lemma LessonIsKnown(root: bool, t: Numbers, u: byte, v: byte)
    requires |t.counts| == 256
    ensures Lesson(root, t, u).counts[v] > 0 <==> t.counts[v] > 0 || v == u
  {
    hide Sum;
    var counts := t.counts[u := t.counts[u] + if root then 3 else 2];
    assert counts[v] > 0 <==> t.counts[v] > 0 || v == u;
    assert seq(256, i requires 0 <= i < 256 => HalfUp(counts[i]))[v] == HalfUp(counts[v]);
  }

  lemma {:induction false} TaughtIsKnown(root: bool, ls: seq<byte>, v: byte)
    ensures Teach(root, ls).counts[v] > 0 <==> v in ls
    decreases |ls|
  {
    hide Lesson;
    if ls != [] {
      var d, u := ls[..|ls| - 1], ls[|ls| - 1];
      TaughtIsKnown(root, d, v);
      LessonIsKnown(root, Teach(root, d), u, v);
      assert ls == d + [u];
    }
  }

  lemma TeachMore(root: bool, ls: seq<byte>, v: byte)
    ensures Teach(root, ls + [v]) == Lesson(root, Teach(root, ls), v)
  {
    hide Lesson;
    assert (ls + [v])[..|ls|] == ls;
  }

  // ----- the model

  predicate Same(t: Table, r: Numbers) {
    t.escapes == r.escapes && t.counts == r.counts
  }

  /** Learning a byte on a table is one more lesson. */
  lemma BumpTeaches(t: Table, root: bool, ls: seq<byte>, v: byte)
    requires Same(t, Teach(root, ls))
    ensures Same(Bump(t, v, if root then 1 else 0), Teach(root, ls + [v]))
  {
    hide Teach;
    TeachMore(root, ls, v);
    var m := if root then 1 else 0;
    assert Halved(Raised(t, v, m).counts) ==
      seq(256, i requires 0 <= i < 256 => HalfUp(Raised(t, v, m).counts[i]));
  }

  lemma EmptyIsUntaught(root: bool)
    ensures Same(Empty(if root then 1 else 0), Teach(root, []))
  {
  }

  ghost predicate Knows(model: Model, n: Name, v: byte)
    requires Sane(model)
  {
    SaneLookup(model, n);
    Lookup(model, n).counts[v] > 0
  }

  /** A byte is learnt by the contexts from `c` down to the first that knew it. */
  ghost predicate Reached(model: Model, c: Name, v: byte, n: Name)
    requires Sane(model)
    decreases |c|
  {
    n == c || (c != [] && !Knows(model, c, v) && Reached(model, c[1..], v, n))
  }

  lemma {:induction false} ReachedShorter(model: Model, longer: Name, c: Name, v: byte, n: Name)
    requires Sane(model) && |c| < |longer|
    ensures Sane(Learn1(model, longer, v)) && Reached(Learn1(model, longer, v), c, v, n) == Reached(model, c, v, n)
    ensures Reached(model, c, v, n) ==> |n| <= |c|
    decreases |c|
  {
    Learn1IsSane(model, longer, v);
    if c != [] { ReachedShorter(model, longer, c[1..], v, n); }
  }

  lemma {:induction false} LearnReaches(model: Model, c: Name, v: byte, n: Name)
    requires Sane(model)
    ensures Lookup(Learn(model, c, v), n) ==
      if Reached(model, c, v, n) then (SaneLookup(model, n); Bump(Lookup(model, n), v, Minimum(n)))
      else Lookup(model, n)
    decreases |c|
  {
    SaneLookup(model, c);
    SaneLookup(model, n);
    Learn1IsSane(model, c, v);
    if !Coded(model, c, Char(v)) {
      LearnReaches(Learn1(model, c, v), c[1..], v, n);
      ReachedShorter(model, c, c[1..], v, n);
    }
  }

  // ----- what the model has come to

  ghost function After(data: seq<byte>): (st: State)
    ensures Good(st)
  {
    if data == [] then INITIAL else Next(After(data[..|data| - 1]), data[|data| - 1])
  }

  /** The model, the context and the number of symbols are what the history says. */
  ghost predicate Told(st: State, h: seq<byte>) {
    && Good(st) && st.context == LastTwo(h) && st.used == 1 + |Pieces(h)|
    && forall n: Name :: Same(Lookup(st.model, n), Teach(n == [], Lessons(h, n)))
  }

  lemma KnowsMeans(st: State, h: seq<byte>, n: Name, v: byte)
    requires Told(st, h) && |n| <= 2
    ensures Knows(st.model, n, v) <==> Occurs(n + [v], h)
  {
    hide Teach, Lessons, Occurs;
    SaneLookup(st.model, n);
    assert Same(Lookup(st.model, n), Teach(n == [], Lessons(h, n)));
    TaughtIsKnown(n == [], Lessons(h, n), v);
    KnownOccurs(h, n, v);
  }

  lemma ToldAt(st: State, h: seq<byte>)
    requires Told(st, h)
    ensures Good(st) && st.context == LastTwo(h) && st.used == 1 + |Pieces(h)|
  {
  }

  /** The contexts that learn the next byte are those that history names. */
  lemma ReachedMeans(st: State, h: seq<byte>, n: Name, v: byte)
    requires Told(st, h)
    ensures Reached(st.model, st.context, v, n) <==> Learns(h, n, v)
  {
    hide Told, Knows, Occurs, Reached, Learns;
    ToldAt(st, h);
    var c := LastTwo(h);
    KnowsMeans(st, h, c, v);
    if c == [] {
      NoneReached(st.model, v, n);
      NoneLearn(n, v);
    } else if |c| == 1 {
      OneReached(st.model, c, v, n);
      OneLearn(c, n, v);
    } else {
      KnowsMeans(st, h, c[1..], v);
      TwoReached(st.model, c, v, n);
      TwoLearn(h, c, n, v);
    }
  }

  lemma NoneReached(model: Model, v: byte, n: Name)
    requires Sane(model)
    ensures Reached(model, [], v, n) <==> n == []
  {
  }

  lemma OneReached(model: Model, c: Name, v: byte, n: Name)
    requires Sane(model) && |c| == 1
    ensures Reached(model, c, v, n) <==> n == c || (!Knows(model, c, v) && n == [])
  {
    hide Knows;
    NoneReached(model, v, n);
    assert c[1..] == [];
  }

  lemma TwoReached(model: Model, c: Name, v: byte, n: Name)
    requires Sane(model) && |c| == 2
    ensures Reached(model, c, v, n) <==>
      n == c || (!Knows(model, c, v) && (n == c[1..] || (!Knows(model, c[1..], v) && n == [])))
  {
    hide Knows;
    OneReached(model, c[1..], v, n);
  }

  lemma NoneLearn(n: Name, v: byte)
    ensures Learns([], n, v) <==> n == []
  {
    hide Occurs;
  }

  lemma OneLearn(h: seq<byte>, n: Name, v: byte)
    requires |h| == 1
    ensures Learns(h, n, v) <==> n == h || (!Occurs(h + [v], h) && n == [])
  {
    hide Occurs;
    assert h[0..] == h && h[1..] == [];
  }

  lemma TwoLearn(h: seq<byte>, c: Name, n: Name, v: byte)
    requires |h| >= 2 && c == h[|h| - 2..]
    ensures Learns(h, n, v) <==>
      n == c || (!Occurs(c + [v], h) && (n == c[1..] || (!Occurs(c[1..] + [v], h) && n == [])))
  {
    hide Occurs;
    assert h[|h| - 1..] == c[1..];
    assert |n| == 2 ==> (EndsWith(h, n) <==> n == c);
    assert |n| == 1 ==> (EndsWith(h, n) <==> n == c[1..]);
    if Occurs(c + [v], h) {
      assert (c + [v])[1..] == c[1..] + [v];
      OccursShorter(c + [v], c[1..] + [v], h);
    }
  }

  // ----- the number of symbols

  lemma EndIs(h: seq<byte>, p: seq<byte>, k: nat)
    requires k <= |h|
    ensures p == h[|h| - k..] <==> |p| == k && EndsWith(h, p)
  {
  }

  lemma InEnds(h: seq<byte>, p: seq<byte>)
    requires h != []
    ensures p in Ends(h) <==>
      p == h[|h| - 1..] || (|h| >= 2 && p == h[|h| - 2..]) || (|h| >= 3 && p == h[|h| - 3..])
  {
  }

  lemma EndsAre(h: seq<byte>, p: seq<byte>)
    requires h != []
    ensures p in Ends(h) <==> 1 <= |p| <= 3 && EndsWith(h, p)
  {
    hide Ends;
    InEnds(h, p);
    hide EndsWith;
    EndIs(h, p, 1);
    if |h| >= 2 { EndIs(h, p, 2); }
    if |h| >= 3 { EndIs(h, p, 3); }
    EndsFit(h, p);
  }

  lemma EndsFit(h: seq<byte>, p: seq<byte>)
    ensures EndsWith(h, p) ==> |p| <= |h|
  {
  }

  lemma {:induction false} PiecesOccur(h: seq<byte>, p: seq<byte>)
    ensures p in Pieces(h) <==> 1 <= |p| <= 3 && Occurs(p, h)
    decreases |h|
  {
    hide Ends, EndsWith;
    if h != [] {
      PiecesOccur(h[..|h| - 1], p);
      EndsAre(h, p);
    } else {
      NothingEnds(p);
    }
  }

  lemma NothingEnds(p: seq<byte>)
    ensures EndsWith([], p) <==> p == []
  {
  }

  /** The pieces that end with the next byte. */
  function Tails(c: Name, v: byte): set<seq<byte>>
    decreases |c|
  {
    {c + [v]} + if c == [] then {} else Tails(c[1..], v)
  }

  lemma {:induction false} TailsAre(c: Name, v: byte, p: seq<byte>)
    ensures p in Tails(c, v) <==> 1 <= |p| && EndsWith(c + [v], p)
    decreases |c|
  {
    if c == [] {
      assert [] + [v] == [v];
    } else {
      TailsAre(c[1..], v, p);
      assert (c + [v])[1..] == c[1..] + [v];
      EndsNext(c + [v], p);
    }
  }

  lemma EndsNext(c: seq<byte>, p: seq<byte>)
    requires c != []
    ensures EndsWith(c, p) <==> p == c || EndsWith(c[1..], p)
  {
    if |p| < |c| { assert c[|c| - |p|..] == c[1..][|c| - 1 - |p|..]; }
  }

  lemma TailOfLastTwo(h: seq<byte>, v: byte, p: seq<byte>)
    requires 1 <= |p|
    ensures |p| <= 3 && EndsWith(h + [v], p) <==> EndsWith(LastTwo(h) + [v], p)
  {
    hide EndsWith, LastTwo;
    var n, u := p[..|p| - 1], p[|p| - 1];
    assert p == n + [u];
    EndsMore(h, v, n, u);
    EndsMore(LastTwo(h), v, n, u);
    EndsOfLastTwo(h, n);
    EndsFit(LastTwo(h), n);
  }

  lemma EndsAreTails(h: seq<byte>, v: byte)
    ensures Ends(h + [v]) == Tails(LastTwo(h), v)
  {
    hide Ends, Tails, EndsWith, LastTwo;
    forall p ensures p in Ends(h + [v]) <==> p in Tails(LastTwo(h), v) {
      EndsAre(h + [v], p);
      TailsAre(LastTwo(h), v, p);
      if 1 <= |p| { TailOfLastTwo(h, v, p); }
    }
  }

  lemma PiecesMore(h: seq<byte>, v: byte)
    ensures Pieces(h + [v]) == Pieces(h) + Tails(LastTwo(h), v)
  {
    hide Ends, Tails;
    assert (h + [v])[..|h|] == h;
    EndsAreTails(h, v);
  }

  /** A set has the pieces that the contexts know, and with a piece its shorter ones. */
  ghost predicate Matches(model: Model, c: Name, v: byte, pieces: set<seq<byte>>)
    requires Sane(model)
    decreases |c|
  {
    && (c + [v] in pieces <==> Knows(model, c, v))
    && (c != [] ==> Matches(model, c[1..], v, pieces) && (c + [v] in pieces ==> Tails(c[1..], v) <= pieces))
  }

  lemma GrowthIs(model: Model, c: Name, v: byte)
    requires Sane(model)
    ensures Growth(model, c, v) ==
      if Knows(model, c, v) then 0 else if c == [] then 1 else 1 + Growth(model, c[1..], v)
  {
    SaneLookup(model, c);
  }

  lemma {:induction false} GrowthCounts(model: Model, c: Name, v: byte, pieces: set<seq<byte>>)
    requires Sane(model) && Matches(model, c, v, pieces)
    ensures |pieces + Tails(c, v)| == |pieces| + Growth(model, c, v)
    decreases |c|
  {
    hide Knows;
    GrowthIs(model, c, v);
    if Knows(model, c, v) {
      assert Tails(c, v) <= pieces;
      assert pieces + Tails(c, v) == pieces;
    } else if c == [] {
      assert pieces + Tails(c, v) == pieces + {c + [v]};
    } else {
      GrowthCounts(model, c[1..], v, pieces);
      var rest := pieces + Tails(c[1..], v);
      TailsAre(c[1..], v, c + [v]);
      assert pieces + Tails(c, v) == rest + {c + [v]};
    }
  }

  lemma KnownTails(h: seq<byte>, c: Name, v: byte)
    requires c != [] && c + [v] in Pieces(h)
    ensures Tails(c[1..], v) <= Pieces(h)
  {
    hide Occurs, Pieces, Tails, EndsWith;
    PiecesOccur(h, c + [v]);
    forall p | p in Tails(c[1..], v) ensures p in Pieces(h) {
      TailsAre(c[1..], v, p);
      assert (c + [v])[1..] == c[1..] + [v];
      EndsNext(c + [v], p);
      EndsFit(c + [v], p);
      OccursShorter(c + [v], p, h);
      PiecesOccur(h, p);
    }
  }

  lemma {:induction false} HistoryMatches(st: State, h: seq<byte>, v: byte, c: Name)
    requires Told(st, h) && |c| <= 2
    ensures Matches(st.model, c, v, Pieces(h))
    decreases |c|
  {
    hide Told, Knows, Occurs, Pieces, Tails;
    ToldAt(st, h);
    KnowsMeans(st, h, c, v);
    PiecesOccur(h, c + [v]);
    if c != [] {
      HistoryMatches(st, h, v, c[1..]);
      if c + [v] in Pieces(h) { KnownTails(h, c, v); }
    }
  }

  lemma UsedIsPieces(st: State, h: seq<byte>, v: byte)
    requires Told(st, h)
    ensures Good(st) && st.used + Growth(st.model, st.context, v) == 1 + |Pieces(h + [v])|
  {
    hide Told, Matches, Tails, Pieces, Growth;
    ToldAt(st, h);
    HistoryMatches(st, h, v, st.context);
    GrowthCounts(st.model, st.context, v, Pieces(h));
    PiecesMore(h, v);
  }

  // ----- one byte, and all bytes

  lemma InitialIsTold()
    ensures Told(INITIAL, [])
  {
    forall n: Name ensures Same(Lookup(INITIAL.model, n), Teach(n == [], Lessons([], n))) { EmptyIsUntaught(n == []); }
  }

  lemma FollowIsLastTwo(h: seq<byte>, v: byte)
    ensures Follow(LastTwo(h), v) == LastTwo(h + [v])
  {
    if |h| >= 2 { assert (h[|h| - 2..] + [v])[1..] == (h + [v])[|h| - 1..]; }
  }

  lemma TableTold(st: State, h: seq<byte>, v: byte, n: Name)
    requires Told(st, h)
    ensures Good(st) && Same(Lookup(Learn(st.model, st.context, v), n), Teach(n == [], Lessons(h + [v], n)))
  {
    hide Reached, Learns, Lessons, Teach, Bump, Learn;
    assert Same(Lookup(st.model, n), Teach(n == [], Lessons(h, n)));
    SaneLookup(st.model, n);
    LearnReaches(st.model, st.context, v, n);
    ReachedMeans(st, h, n, v);
    LessonsMore(h, v, n);
    if Learns(h, n, v) {
      BumpTeaches(Lookup(st.model, n), n == [], Lessons(h, n), v);
    } else {
      assert Lessons(h, n) + [] == Lessons(h, n);
    }
  }

  lemma NextIsTold(st: State, h: seq<byte>, v: byte)
    requires Told(st, h)
    ensures Good(st) && Told(Next(st, v), if 1 + |Pieces(h + [v])| >= 4094 then [] else h + [v])
  {
    hide Lessons, Teach, Learn, Growth, Pieces, Same, Lookup, LastTwo;
    UsedIsPieces(st, h, v);
    if 1 + |Pieces(h + [v])| >= 4094 {
      InitialIsTold();
    } else {
      FollowIsLastTwo(h, v);
      forall n: Name ensures Same(Lookup(Next(st, v).model, n), Teach(n == [], Lessons(h + [v], n))) {
        TableTold(st, h, v, n);
      }
    }
  }

  /** After any bytes: the context of the next one is the last two since the model was made anew, the model is what the
      contexts have learnt since then, and there is one symbol for every piece of at most three bytes, and the root. */
  lemma {:induction false} ModelIsHistory(data: seq<byte>)
    ensures Told(After(data), Recent(data))
    decreases |data|
  {
    hide Told, Next, Pieces;
    if data == [] {
      InitialIsTold();
    } else {
      ModelIsHistory(data[..|data| - 1]);
      NextIsTold(After(data[..|data| - 1]), Recent(data[..|data| - 1]), data[|data| - 1]);
    }
  }

  // ----- the code

  /** The model's steps for the next byte are those that history gives. */
  lemma {:induction false} StepsAreReference(st: State, h: seq<byte>, n: Name, v: byte)
    requires Told(st, h)
    ensures Sane(st.model) && Steps(st.model, n, Char(v)) == Reference(h, n, v)
    decreases |n|
  {
    hide Sum, Teach, Lessons, LastTwo, Pieces, ValidSteps, IsEscape, ValidStep;
    SaneLookup(st.model, n);
    assert Same(Lookup(st.model, n), Teach(n == [], Lessons(h, n)));
    if n != [] { StepsAreReference(st, h, n[1..], v); }
  }

  lemma {:induction false} AllStepsAreReferences(data: seq<byte>, i: nat)
    requires i <= |data|
    ensures AllSteps(After(data[..i]), data[i..]) == References(data, i)
    decreases |data| - i
  {
    hide Steps, Reference, Next, Told, ValidSteps;
    if i < |data| {
      ModelIsHistory(data[..i]);
      ToldAt(After(data[..i]), Recent(data[..i]));
      StepsAreReference(After(data[..i]), Recent(data[..i]), LastTwo(Recent(data[..i])), data[i]);
      assert data[..i + 1][..i] == data[..i] && data[i..][1..] == data[i + 1..];
      AllStepsAreReferences(data, i + 1);
    }
  }

  /** What the compressor produces for any bytes is the code of the steps that history gives. */
  lemma CompressedIsReference(data: seq<byte>)
    ensures ValidSteps(References(data, 0)) && Ready(START) && Tight(START)
    ensures Compressed(data) == Stream(START, References(data, 0))
  {
    StartIsReady();
    AllStepsAreReferences(data, 0);
    assert data[..0] == [] && data[0..] == data;
  }

  // ----- the numbers, as long as nothing is halved

  function Times(ls: seq<byte>, v: byte): nat {
    if ls == [] then 0 else Times(ls[..|ls| - 1], v) + if ls[|ls| - 1] == v then 1 else 0
  }

  function Below(ls: seq<byte>, v: byte): nat {
    if ls == [] then 0 else Below(ls[..|ls| - 1], v) + if ls[|ls| - 1] < v then 1 else 0
  }

  /** How many different bytes there are. */
  function Kinds(ls: seq<byte>): nat {
    |Different(ls)|
  }

  function Different(ls: seq<byte>): set<byte> {
    set v | v in ls
  }

  /** No byte came too often, and there were not too many. */
  ghost predicate Few(root: bool, ls: seq<byte>) {
    && (forall v: byte :: Times(ls, v) <= if root then 84 else 126)
    && (if root then 257 + 3 * |ls| else 5 * Kinds(ls) + 2 * |ls|) <= 65280
  }

  lemma KindsMore(ls: seq<byte>)
    requires ls != []
    ensures var d, v := ls[..|ls| - 1], ls[|ls| - 1]; Kinds(ls) == Kinds(d) + if v in d then 0 else 1
  {
    var d, v := ls[..|ls| - 1], ls[|ls| - 1];
    assert ls == d + [v];
    if v in d { assert Different(ls) == Different(d); } else { assert Different(ls) == Different(d) + {v}; }
  }

  lemma FewBefore(root: bool, ls: seq<byte>)
    requires ls != [] && Few(root, ls)
    ensures Few(root, ls[..|ls| - 1])
  {
    hide Kinds;
    KindsMore(ls);
    var d := ls[..|ls| - 1];
    forall v: byte ensures Times(d, v) <= if root then 84 else 126 {
      assert Times(ls, v) <= if root then 84 else 126;
    }
  }

  lemma LessonAdds(root: bool, t: Numbers, v: byte)
    requires |t.counts| == 256
    requires t.counts[v] <= if root then 249 else 251
    requires Lessoned(root, t, v).escapes + (if root then 256 else 0) + Sum(t.counts, 0, 256) + (if root then 3 else 2)
             <= 65280
    ensures Lesson(root, t, v) == Lessoned(root, t, v)
  {
    SumChange(t.counts, 0, 256, v, t.counts[v] + if root then 3 else 2);
  }

  function Lessoned(root: bool, t: Numbers, v: byte): Numbers
    requires |t.counts| == 256
  {
    Numbers(t.escapes + (if !root && t.counts[v] == 0 then 5 else 0),
            t.counts[v := t.counts[v] + if root then 3 else 2])
  }

  /** Then every lesson counts 2, in the root 3; and there are 5 escapes for each different byte, in the root 1. */
  lemma {:induction false} NumbersOfFew(root: bool, ls: seq<byte>, v: byte)
    requires Few(root, ls)
    ensures var t, d := Teach(root, ls), if root then 3 else 2;
      && t.counts[v] == d * Times(ls, v) && t.escapes == (if root then 1 else 5 * Kinds(ls))
      && Sum(t.counts, 0, 256) == d * |ls| && Sum(t.counts, 0, v) == d * Below(ls, v)
    decreases |ls|
  {
    hide Lesson, Few, Kinds;
    if ls == [] {
      NoNumbers(root, v);
    } else {
      var d, u := ls[..|ls| - 1], ls[|ls| - 1];
      FewBefore(root, ls);
      NumbersOfFew(root, d, v);
      NumbersOfFew(root, d, u);
      KindsMore(ls);
      TaughtIsKnown(root, d, u);
      FewAt(root, ls, u);
      var t := Teach(root, d);
      LessonAdds(root, t, u);
      SumChange(t.counts, 0, 256, u, t.counts[u] + if root then 3 else 2);
      SumChange(t.counts, 0, v, u, t.counts[u] + if root then 3 else 2);
    }
  }

  lemma FewAt(root: bool, ls: seq<byte>, v: byte)
    requires Few(root, ls)
    ensures Times(ls, v) <= if root then 84 else 126
    ensures (if root then 257 + 3 * |ls| else 5 * Kinds(ls) + 2 * |ls|) <= 65280
  {
  }

  lemma NoNumbers(root: bool, v: byte)
    ensures var t := Teach(root, []);
      && t.counts[v] == 0 && t.escapes == (if root then 1 else 0)
      && Sum(t.counts, 0, 256) == 0 && Sum(t.counts, 0, v) == 0 && Kinds([]) == 0
  {
    SumZero(Teach(root, []).counts, 0, 256);
    SumZero(Teach(root, []).counts, 0, v);
  }

  /** The places at which context `n` has learnt `v`. */
  function Places(h: seq<byte>, n: Name, v: byte): set<nat> {
    set i: nat | i < |h| && h[i] == v && Learns(h[..i], n, v)
  }

  lemma TimesMore(ls: seq<byte>, u: byte, v: byte)
    ensures Times(ls + [u], v) == Times(ls, v) + if u == v then 1 else 0
  {
    assert (ls + [u])[..|ls|] == ls;
  }

  lemma PlacesMore(d: seq<byte>, u: byte, n: Name, v: byte)
    ensures Places(d + [u], n, v) == Places(d, n, v) + if u == v && Learns(d, n, v) then {|d|} else {}
  {
    hide Learns;
    var h := d + [u];
    forall i | 0 <= i <= |d| ensures h[..i] == d[..i] {
    }
    assert h[..|d|] == d && d[..|d|] == d;
  }

  lemma OneMorePlace(d: seq<byte>, u: byte, n: Name, v: byte)
    ensures |Places(d + [u], n, v)| == |Places(d, n, v)| + if u == v && Learns(d, n, v) then 1 else 0
  {
    hide Learns, Places;
    PlacesMore(d, u, n, v);
    LastIsNew(d, n, v);
  }

  lemma OneMoreTime(d: seq<byte>, u: byte, n: Name, v: byte)
    ensures Times(Lessons(d + [u], n), v) == Times(Lessons(d, n), v) + if u == v && Learns(d, n, v) then 1 else 0
  {
    hide Learns, Times, Lessons;
    LessonsMore(d, u, n);
    if Learns(d, n, u) {
      TimesMore(Lessons(d, n), u, v);
    } else {
      assert Lessons(d, n) + [] == Lessons(d, n);
    }
  }

  lemma {:induction false} TimesArePlaces(h: seq<byte>, n: Name, v: byte)
    ensures Times(Lessons(h, n), v) == |Places(h, n, v)|
    decreases |h|
  {
    if h == [] {
      NoPlaces(n, v);
    } else {
      hide Learns, Places, Lessons, Times;
      var d, u := h[..|h| - 1], h[|h| - 1];
      assert h == d + [u];
      TimesArePlaces(d, n, v);
      OneMorePlace(d, u, n, v);
      OneMoreTime(d, u, n, v);
    }
  }

  lemma NoPlaces(n: Name, v: byte)
    ensures Places([], n, v) == {} && Times(Lessons([], n), v) == 0
  {
    hide Learns;
  }

  lemma LastIsNew(d: seq<byte>, n: Name, v: byte)
    ensures |d| !in Places(d, n, v)
  {
  }

  /** Of any bytes, and any context that was never halved: its count for a byte is twice, in the root three times, the
      number of places since the model was made anew at which it learnt the byte; and its escapes are 5 for each byte it
      knows, in the root 1. */
  lemma CountsAreOccurrences(data: seq<byte>, n: Name, v: byte)
    requires Few(n == [], Lessons(Recent(data), n))
    ensures var h, t := Recent(data), Lookup(After(data).model, n);
      && |t.counts| == 256 && t.counts[v] == (if n == [] then 3 else 2) * |Places(h, n, v)|
      && t.escapes == (if n == [] then 1 else 5 * Kinds(Lessons(h, n)))
  {
    hide Teach, Lessons, Few, Places, Kinds, Recent, Learns;
    var h := Recent(data);
    ModelIsHistory(data);
    TableIs(After(data), h, n);
    NumbersOfFew(n == [], Lessons(h, n), v);
    TimesArePlaces(h, n, v);
  }

  lemma TableIs(st: State, h: seq<byte>, n: Name)
    requires Told(st, h)
    ensures Same(Lookup(st.model, n), Teach(n == [], Lessons(h, n)))
  {
  }

  /** In the root every byte has 1, and 3 for each time it was learnt there, after 1 for the escapes. */
  lemma RootCodes(h: seq<byte>, v: byte)
    requires Few(true, Lessons(h, []))
    ensures var ls := Lessons(h, []);
      Reference(h, [], v) == [Step(1 + v + 3 * Below(ls, v), 1 + 3 * Times(ls, v), 257 + 3 * |ls|)]
  {
    hide Teach, Lessons, Few, Kinds;
    NumbersOfFew(true, Lessons(h, []), v);
  }

  lemma ReferenceOnce(h: seq<byte>, n: Name, v: byte)
    requires n != []
    ensures var t := Teach(false, Lessons(h, n)); var below, all := Sum(t.counts, 0, v), Sum(t.counts, 0, 256);
      Reference(h, n, v) ==
        if t.counts[v] > 0 then [Step(t.escapes + below, t.counts[v], t.escapes + all)]
        else (if t.escapes > 0 then [Step(0, t.escapes, t.escapes + all)] else []) + Reference(h, n[1..], v)
  {
    hide Teach, Lessons, Sum;
  }

  /** In another context a byte that it knows has 2 for each time, after 5 for every byte it knows; for another byte the
      context codes an escape, unless it knows nothing. */
  lemma ContextCodes(h: seq<byte>, n: Name, v: byte)
    requires n != [] && Few(false, Lessons(h, n))
    ensures var ls := Lessons(h, n);
      Reference(h, n, v) ==
        if v in ls then [Step(5 * Kinds(ls) + 2 * Below(ls, v), 2 * Times(ls, v), 5 * Kinds(ls) + 2 * |ls|)]
        else (if ls != [] then [Step(0, 5 * Kinds(ls), 5 * Kinds(ls) + 2 * |ls|)] else []) + Reference(h, n[1..], v)
  {
    hide Teach, Lessons, Few, Kinds, Times, Below, Sum, Reference;
    var ls := Lessons(h, n);
    ReferenceOnce(h, n, v);
    NumbersOfFew(false, ls, v);
    TaughtIsKnown(false, ls, v);
    if ls == [] {
      NoNumbers(false, v);
    } else {
      KindsMore(ls);
      assert ls[|ls| - 1] in ls;
      SomeKind(ls);
    }
  }

  lemma SomeKind(ls: seq<byte>)
    requires ls != []
    ensures Kinds(ls) > 0
  {
    assert ls[0] in Different(ls);
  }

  // ----- short data

  lemma {:induction false} ShortIsFew(root: bool, ls: seq<byte>)
    requires |ls| <= 84
    ensures Few(root, ls)
  {
    forall v: byte ensures Times(ls, v) <= |ls| { TimesFit(ls, v); }
    KindsFit(ls);
  }

  lemma {:induction false} TimesFit(ls: seq<byte>, v: byte)
    ensures Times(ls, v) <= |ls|
  {
    if ls != [] { TimesFit(ls[..|ls| - 1], v); }
  }

  lemma {:induction false} KindsFit(ls: seq<byte>)
    ensures Kinds(ls) <= |ls|
  {
    if ls == [] {
      assert Different(ls) == {};
    } else {
      KindsMore(ls);
      KindsFit(ls[..|ls| - 1]);
    }
  }

  /** Short data never fill the array. */
  lemma {:induction false} ShortIsRecent(data: seq<byte>)
    requires |data| <= 1300
    ensures Recent(data) == data && |Pieces(data)| <= 3 * |data|
    decreases |data|
  {
    if data != [] {
      var d := data[..|data| - 1];
      ShortIsRecent(d);
      assert data == d + [data[|data| - 1]];
      EndsFew(data);
      UnionFits(Pieces(d), Ends(data));
    }
  }

  lemma EndsFew(h: seq<byte>)
    requires h != []
    ensures |Ends(h)| <= 3
  {
    UnionFits({h[|h| - 1..]}, if |h| >= 2 then {h[|h| - 2..]} else {});
    UnionFits({h[|h| - 1..]} + (if |h| >= 2 then {h[|h| - 2..]} else {}), if |h| >= 3 then {h[|h| - 3..]} else {});
  }

  lemma UnionFits(a: set<seq<byte>>, b: set<seq<byte>>)
    ensures |a + b| <= |a| + |b|
  {
    assert |a + b| == |a| + |b| - |a * b|;
  }
}
