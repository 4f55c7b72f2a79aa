/** One byte through all its contexts, from the longest down to the one that can code it. */
module Inputs {
  import opened Bytes
  import opened Collections
  import opened RangeCoding
  import opened Frequencies
  import opened Trees
  import opened Symbols
  import opened Contexts
  import opened Ppm
  import opened Memory
  import opened Naming
  import opened RangeLoops

  /** Context `n` does its part of coding and learning `v`, and the shorter ones the rest. */
  lemma LearnTurn(model: Model, n: Name, v: byte, found: bool)
    requires Sane(model) && |Lookup(model, n).counts| == 256 && (found <==> Coded(model, n, Char(v)))
    ensures !found ==> n != []
    ensures Sane(Learn1(model, n, v))
    ensures Learn(model, n, v) == if found then Learn1(model, n, v) else Learn(Learn1(model, n, v), n[1..], v)
    ensures Growth(model, n, v) == (if Lookup(model, n).counts[v] == 0 then 1 else 0)
                                 + (if found then 0 else Growth(Learn1(model, n, v), n[1..], v))
  {
    Learn1IsSane(model, n, v);
    if !found {
      GrowthIgnoresLonger(model, n, v, n[1..]);
    }
  }

  /** The steps that remain after context `n`. */
  ghost function RestSteps(model: Model, n: Name, v: byte): seq<Step>
    requires Sane(model)
  {
    SaneLookup(model, n);
    if Coded(model, n, Char(v)) then []
    else Learn1IsSane(model, n, v); Steps(Learn1(model, n, v), n[1..], Char(v))
  }

  lemma StepsTurn(model: Model, n: Name, v: byte, later: seq<Step>)
    requires Sane(model)
    ensures Steps(model, n, Char(v)) + later == ContextSteps(model, n, Char(v)) + (RestSteps(model, n, v) + later)
  {
    hide ValidSteps, IsEscape, Learn1, Lookup, Sane, Fit, ContextSteps;
    SaneLookup(model, n);
    assert Coded(model, n, Char(v)) <==> (n == [] || Lookup(model, n).counts[v] > 0);
    hide Coded;
    if !Coded(model, n, Char(v)) {
      StepsIgnoreLonger(model, n, v, n[1..], Char(v));
    }
  }

  /** Between two contexts: `sub` is next, and once it and the shorter ones are done the array will
      stand for `goal` and have `used` symbols. */
  ghost predicate Underway(s: seq<Symbol>, sh: Shadow, sub: nat, v: byte, model: Model, link: int,
                           predicted: nat, start: Name, goal: Model, used: nat) {
    && BeforeContext(s, sh, sub, v, model, link) && Sane(model)
    && goal == Learn(model, sh.names[sub], v) && used == |sh.names| + Growth(model, sh.names[sub], v)
    && |sh.names| + |sh.names[sub]| < SYMBOLS
    && if link < 0 then sub == predicted && sh.names[sub] == start
       else predicted < |sh.names| && sh.names[predicted] == start + [v]
  }

  /** Between two inputs, on any data: slot `predicted` is called `name`. */
  ghost predicate Poised(s: seq<Symbol>, sh: Shadow, predicted: nat, name: Name) {
    && |s| == SYMBOLS && |sh.trees| == |sh.names| <= SYMBOLS
    && Standing(s, sh, -1)
    && predicted < |sh.names| && sh.names[predicted] == name
  }

  /** And the array stands for `model`. */
  ghost predicate Ended(s: seq<Symbol>, sh: Shadow, model: Model, predicted: nat, name: Name) {
    Poised(s, sh, predicted, name) && Models(s, sh, model)
  }

  /** At the end of an input. */
  lemma Ends(s: seq<Symbol>, sh: Shadow, sub: nat, v: byte, model: Model, link: int, predicted: nat, start: Name,
             goal: Model, used: nat, after: seq<Symbol>, sh': Shadow, symbol: nat, next: nat, found: bool,
             predicted': nat)
    requires Underway(s, sh, sub, v, model, link, predicted, start, goal, used)
    requires AfterContext(s, sh, sub, v, model, after, sh', symbol, next, found)
    requires predicted' == if link < 0 then symbol else predicted
    ensures sub == 0 ==> found
    ensures found ==> Ended(after, sh', goal, predicted', start + [v]) && |sh'.names| == used
  {
    hide Standing, Models, Learn1, Sane, Learn, Growth, Coded, Lookup, Awaits;
    StandingAt(s, sh, link, sub);
    SaneLookup(model, sh.names[sub]);
    LearnTurn(model, sh.names[sub], v, found);
  }

  lemma NextLinks(names: seq<Name>, symbol: nat, parent: nat, n: Name, v: byte)
    requires 0 < symbol < |names| && parent < |names| && n != [] && names[symbol] == n + [v] && names[parent] == n[1..]
    ensures Awaits(names, symbol, names[parent] + [v]) && parent != symbol
  {
    assert (n + [v])[1..] == n[1..] + [v];
    assert |names[symbol]| == |names[parent]| + 2;
  }

  /** From one context to the next shorter one. */
  lemma Proceeds(s: seq<Symbol>, sh: Shadow, sub: nat, v: byte, model: Model, link: int, predicted: nat, start: Name,
                 goal: Model, used: nat, after: seq<Symbol>, sh': Shadow, symbol: nat, next: nat, predicted': nat)
    requires Underway(s, sh, sub, v, model, link, predicted, start, goal, used)
    requires AfterContext(s, sh, sub, v, model, after, sh', symbol, next, false)
    requires predicted' == if link < 0 then symbol else predicted
    ensures sub < |after| == SYMBOLS && |sh'.trees| == |sh'.names| == next < SYMBOLS
    ensures var parent := after[sub].parent;
      parent < next && symbol < next && sh.names[sub] != [] && sh'.names[parent] == sh.names[sub][1..]
      && Underway(after, sh', parent, v, Learn1(model, sh.names[sub], v), symbol, predicted', start, goal, used)
  {
    hide Standing, Models, Learn1, Sane, Learn, Growth, Coded, Lookup, Awaits;
    StandingAt(s, sh, link, sub);
    SaneLookup(model, sh.names[sub]);
    LearnTurn(model, sh.names[sub], v, false);
    assert sh'.names[sub] == sh.names[sub];
    assert |sh'.names[symbol]| == |sh.names[sub]| + 1;
    StandingAt(after, sh', symbol, 0);
    ParentAt(after, sh', symbol, sub);
    NextLinks(sh'.names, symbol, after[sub].parent, sh.names[sub], v);
  }

  lemma RestIs(model: Model, n: Name, v: byte, found: bool, later: seq<Step>)
    requires Sane(model) && |Lookup(model, n).counts| == 256 && (found <==> Coded(model, n, Char(v)))
    ensures Sane(Learn1(model, n, v)) && (!found ==> n != [])
    ensures RestSteps(model, n, v) + later ==
            if found then later else Steps(Learn1(model, n, v), n[1..], Char(v)) + later
  {
    Learn1IsSane(model, n, v);
    hide Learn1, Sane, Lookup, Steps;
  }

  lemma FoundMeans(s: seq<Symbol>, sh: Shadow, c: nat, v: byte, model: Model,
                   after: seq<Symbol>, sh': Shadow, symbol: nat, next: nat, found: bool)
    requires AfterContext(s, sh, c, v, model, after, sh', symbol, next, found)
    ensures Sane(model) && c < |sh.names| && |Lookup(model, sh.names[c]).counts| == 256
    ensures found <==> Coded(model, sh.names[c], Char(v))
    ensures |sh'.trees| == |sh'.names| == next && symbol < next && sh.names <= sh'.names
  {
    SaneLookup(model, sh.names[c]);
    hide Standing, Models, Learn1, Sane, Fit, Lookup;
  }

  lemma UnderwayBefore(s: seq<Symbol>, sh: Shadow, sub: nat, v: byte, model: Model, link: int,
                       predicted: nat, start: Name, goal: Model, used: nat)
    requires Underway(s, sh, sub, v, model, link, predicted, start, goal, used)
    ensures BeforeContext(s, sh, sub, v, model, link)
    ensures |sh.trees| == |sh.names| < SYMBOLS == |s| && sub < |sh.names| && link < |sh.names| && Sane(model)
  {
  }

  lemma Begins(s: seq<Symbol>, sh: Shadow, predicted: nat, v: byte, model: Model, name: Name)
    requires Ended(s, sh, model, predicted, name) && |name| <= ORDER && |sh.names| < SYMBOLS - ORDER && Sane(model)
    ensures |sh.trees| == |sh.names| && predicted < |sh.names| && sh.names[predicted] == name
    ensures Underway(s, sh, predicted, v, model, -1, predicted, name,
                     Learn(model, name, v), |sh.names| + Growth(model, name, v))
  {
    hide Standing, Models, Learn, Growth, Sane;
  }

  /** Underway in the compressor: the steps still due for this byte and `later` complete the output. */
  ghost predicate Coding(s: seq<Symbol>, sh: Shadow, sub: nat, v: byte, model: Model, link: int, predicted: nat,
                         start: Name, goal: Model, used: nat,
                         out: seq<byte>, c: Coder, later: seq<Step>, whole: seq<byte>) {
    && Underway(s, sh, sub, v, model, link, predicted, start, goal, used)
    && Completes(out, c, Steps(model, sh.names[sub], Char(v)) + later, whole)
  }

  // ----- from one input to the next

  /** Between two inputs, in state `st`. */
  ghost predicate AtInput(s: seq<Symbol>, sh: Shadow, st: State, predicted: nat, order: nat, next: nat) {
    && Good(st) && Ended(s, sh, st.model, predicted, st.context)
    && |sh.names| == next == st.used < SYMBOLS - ORDER && order == |st.context|
  }

  lemma InputAt(s: seq<Symbol>, sh: Shadow, st: State, predicted: nat, order: nat, next: nat)
    requires AtInput(s, sh, st, predicted, order, next)
    ensures |s| == SYMBOLS && predicted < |sh.names| == next == st.used < SYMBOLS - ORDER
    ensures Good(st) && Sane(st.model) && order == |st.context| <= ORDER
    ensures Ended(s, sh, st.model, predicted, st.context)
  {
  }

  /** The root of an empty model. */
  const ROOT := Symbol(0, 0, 0, 0, 0, 0, ESCAPE_MINIMUM, ESCAPE_MINIMUM + 256, 0)

  ghost const EMPTY := Shadow([Leaf], [[]])

  lemma EmptyStands(s: seq<Symbol>)
    requires |s| == SYMBOLS && s[0] == ROOT
    ensures AtInput(s, EMPTY, INITIAL, 0, 0, 1)
  {
    var n: Name := [];
    SumZero(Empty(1).counts, 0, 256);
    assert Balanced(s[0].escapes, s[0].total, Leaf, 1);
    assert Housed(s, 0, Leaf, EMPTY.names);
    assert Matches(s, 0, Leaf, Lookup(map[], n));
  }

  /** Between two inputs, on any data. */
  ghost predicate Idle(s: seq<Symbol>, sh: Shadow, predicted: nat, order: nat, next: nat) {
    && predicted < |sh.names| == next < SYMBOLS - ORDER && order == |sh.names[predicted]| <= ORDER
    && Poised(s, sh, predicted, sh.names[predicted])
  }

  lemma InputIsIdle(s: seq<Symbol>, sh: Shadow, st: State, predicted: nat, order: nat, next: nat)
    requires AtInput(s, sh, st, predicted, order, next)
    ensures Idle(s, sh, predicted, order, next) && sh.names[predicted] == st.context
  {
    hide Standing, Models, Sane;
  }

  /** The slot of the next context: the symbol itself while its name is short, else its link. */
  lemma Follows(s: seq<Symbol>, sh: Shadow, predicted: nat, name: Name, order: nat)
    requires Poised(s, sh, predicted, name) && |name| == order + 1 <= ORDER + 1
    ensures predicted < |s|
    ensures if order >= ORDER then Poised(s, sh, s[predicted].parent, name[1..]) else Poised(s, sh, predicted, name)
  {
    hide Standing;
    StandingAt(s, sh, -1, 0);
    ParentAt(s, sh, -1, predicted);
  }

  /** The next input goes on with the model, unless two more symbols might not fit. */
  lemma Continues(s: seq<Symbol>, sh: Shadow, st: State, v: byte, predicted: nat, order: nat, next: nat)
    requires Good(st) && Poised(s, sh, predicted, Follow(st.context, v)) && |sh.trees| == |sh.names| <= |s|
    requires Models(s, sh, Learn(st.model, st.context, v))
    requires |sh.names| == next == st.used + Growth(st.model, st.context, v) < SYMBOLS - ORDER
    requires order == |Follow(st.context, v)|
    ensures AtInput(s, sh, Next(st, v), predicted, order, next)
  {
    hide Poised, Models, Learn, Growth, Follow;
  }

  lemma EndedIsPoised(s: seq<Symbol>, sh: Shadow, model: Model, predicted: nat, name: Name)
    requires Ended(s, sh, model, predicted, name)
    ensures Poised(s, sh, predicted, name)
  {
  }

  lemma PoisedAt(s: seq<Symbol>, sh: Shadow, predicted: nat, name: Name)
    requires Poised(s, sh, predicted, name)
    ensures |s| == SYMBOLS && predicted < |sh.trees| == |sh.names| <= SYMBOLS && sh.names[predicted] == name
    ensures Standing(s, sh, -1)
  {
  }

  /** The array between two inputs, and where the coder is in it. */
  datatype Moment = Moment(s: seq<Symbol>, sh: Shadow, predicted: nat, order: nat, next: nat)

  ghost predicate AtMoment(m: Moment, st: State) {
    AtInput(m.s, m.sh, st, m.predicted, m.order, m.next)
  }

  /** The state after these bytes. */
  function Reached(data: seq<byte>): (st: State)
    ensures Good(st)
    decreases |data|
  {
    if data == [] then INITIAL else Next(Reached(data[..|data| - 1]), data[|data| - 1])
  }

  /** One moment at the start, and one after each byte. */
  ghost predicate Traced(trace: seq<Moment>, data: seq<byte>) {
    |trace| == |data| + 1 && forall i :: 0 <= i < |trace| ==> AtMoment(trace[i], Reached(data[..i]))
  }

  lemma TracedStart(m: Moment)
    requires AtMoment(m, INITIAL)
    ensures Traced([m], []) && Reached([]) == INITIAL
  {
    hide AtMoment;
  }

  lemma TracedMore(trace: seq<Moment>, data: seq<byte>, v: byte, m: Moment)
    requires Traced(trace, data) && AtMoment(m, Next(Reached(data), v))
    ensures Traced(trace + [m], data + [v]) && Reached(data + [v]) == Next(Reached(data), v)
  {
    hide AtMoment, Next;
    var more := data + [v];
    assert more[..|more| - 1] == data && more[..|more|] == more;
    forall i | 0 <= i < |trace| + 1 ensures AtMoment((trace + [m])[i], Reached(more[..i])) {
      if i < |trace| {
        assert more[..i] == data[..i];
        assert AtMoment(trace[i], Reached(data[..i]));
      }
    }
  }

  /** What the code reads of a buffer other than the first: one byte is read before the end is looked at. */
  function Readable(buffer: seq<byte>, beyond: byte): (read: seq<byte>)
    ensures read != []
  {
    if buffer == [] then [beyond] else buffer
  }

  /** What the compressor reads of its buffers; `beyond` is what lies in memory where each of them ends. */
  function Taken(buffers: seq<seq<byte>>, beyond: seq<byte>): (taken: seq<seq<byte>>)
    requires |beyond| == |buffers|
    ensures |taken| == |buffers|
  {
    seq(|buffers|, i requires 0 <= i < |buffers| => if i == 0 then buffers[0] else Readable(buffers[i], beyond[i]))
  }

  predicate NoneEmpty(buffers: seq<seq<byte>>) {
    forall i :: 0 <= i < |buffers| ==> buffers[i] != []
  }

  lemma {:induction false} ReadableLength(buffers: seq<seq<byte>>, taken: seq<seq<byte>>)
    requires |taken| == |buffers|
    requires forall i :: 0 <= i < |buffers| ==> taken[i] != [] && (buffers[i] != [] ==> taken[i] == buffers[i])
    ensures if NoneEmpty(buffers) then taken == buffers else |Joined(taken)| > |Joined(buffers)|
    ensures |Joined(taken)| >= |Joined(buffers)|
  {
    if buffers != [] {
      ReadableLength(buffers[1..], taken[1..]);
      assert NoneEmpty(buffers) <==> buffers[0] != [] && NoneEmpty(buffers[1..]) by {
        assert forall i :: 0 < i < |buffers| ==> buffers[i] == buffers[1..][i - 1];
      }
    }
  }

  /** What is read is what was given exactly when no buffer but the first is empty. */
  lemma TakenExactly(buffers: seq<seq<byte>>, beyond: seq<byte>)
    requires |beyond| == |buffers| > 0
    ensures Joined(Taken(buffers, beyond)) == Joined(buffers) <==> NoneEmpty(buffers[1..])
  {
    var taken := Taken(buffers, beyond);
    ReadableLength(buffers[1..], taken[1..]);
    if NoneEmpty(buffers[1..]) {
      assert taken == [buffers[0]] + taken[1..] && buffers == [buffers[0]] + buffers[1..];
    }
  }

  // ----- the compressor's input

  lemma JoinedFrom(buffers: seq<seq<byte>>, b: nat)
    requires b < |buffers|
    ensures Joined(buffers[b..]) == buffers[b] + Joined(buffers[b + 1..])
  {
    assert buffers[b..][1..] == buffers[b + 1..];
  }

  /** What the compressor has not read yet, at offset `at` of a buffer with buffers from `b` on to come. */
  function Unread(inData: seq<byte>, at: nat, buffers: seq<seq<byte>>, b: nat): seq<byte>
    requires at <= |inData| && b <= |buffers|
  {
    inData[at..] + Joined(buffers[b..])
  }

  lemma UnreadAtFirst(buffers: seq<seq<byte>>, beyond: seq<byte>)
    requires buffers != [] && |beyond| == |buffers|
    ensures Unread(buffers[0], 0, Taken(buffers, beyond), 1) == Joined(Taken(buffers, beyond))
  {
  }

  lemma InputCompletes(out: seq<byte>, c: Coder, st: State, rest: seq<byte>, whole: seq<byte>)
    requires Good(st) && rest != [] && Completes(out, c, AllSteps(st, rest), whole)
    ensures Completes(out, c, Steps(st.model, st.context, Char(rest[0])) + AllSteps(Next(st, rest[0]), rest[1..]),
                      whole)
  {
    hide Completes, Steps, Next;
  }

  lemma CompressedStarts(out: seq<byte>, data: seq<byte>)
    requires out == []
    ensures Good(INITIAL) && Completes(out, START, AllSteps(INITIAL, data), Compressed(data))
  {
    StartIsReady();
    hide AllSteps, Stream;
  }

  lemma FlushCompletes(out: seq<byte>, c: Coder, st: State, rest: seq<byte>, whole: seq<byte>)
    requires Good(st) && rest == [] && Completes(out, c, AllSteps(st, rest), whole)
    ensures c.low < WORD && out + Flush(c.low) == whole
  {
  }
}
