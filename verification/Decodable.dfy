/** What one context tells the decoder: on any input that it can go on, and on the compressor's output
    that it finds what the compressor coded. */
module Decodable {
  import opened Bytes
  import opened RangeCoding
  import opened Frequencies
  import opened Trees
  import opened Symbols
  import opened Contexts
  import opened Ppm
  import opened Memory
  import opened Naming
  import opened RangeLoops

  /** The decoder's registers: `k` bytes beyond the first four have been taken in. */
  ghost predicate Tuned(input: seq<byte>, k: nat, c: Coder, code: nat, inPos: nat) {
    Ready(c) && code == Window(input, k) && inPos == Cursor(input, k)
  }

  /** What the decoder is about to read is what the coding of `steps` emits from its own state. */
  ghost predicate Genuine(input: seq<byte>, k: nat, c: Coder, steps: seq<Step>) {
    Ready(c) && Tight(c) && ValidSteps(steps) && Reads(input, k, Stream(c, steps))
  }

  /** The next step is found, and the rest is still to come after it. */
  lemma GenuineStep(input: seq<byte>, k: nat, c: Coder, st: Step, later: seq<Step>)
    requires Genuine(input, k, c, [st] + later)
    ensures Ready(c) && Workable(st) && st.total <= c.range && c.low < WORD && Window(input, k) < WORD
    ensures st.under <= Read(c, Window(input, k), st.total) < st.under + st.count <= st.total
    ensures Genuine(input, k + |Emitted(c, st)|, Advance(c, st), later)
  {
    var steps := [st] + later;
    assert steps[0] == st && steps[1..] == later;
    WindowShifts(input, k);
    ReadsSameWindow(input, k, Stream(c, steps));
    hide Reads, Stream, Advance, Emitted, Window, Tight, Live;
    ReadFindsStep(c, steps, Window(input, k));
    ReadsAfterStep(input, k, c, steps);
  }

  lemma FoundIsWorkable(escapes: nat, total: nat, t: Tree, p: Path, m: nat, under: nat)
    requires Balanced(escapes, total, t, m) && escapes > 0 && Fits(t, p) && Found(t, p, m) > 0
    ensures Workable(Step(under, Found(t, p, m), total))
  {
    TargetFound(t, p, Cap(m));
  }

  /** What a context of the compressor's output tells: nothing, an escape, or the byte. */
  ghost predicate Tells(t: Tree, escapes: nat, total: nat, m: nat, sym: Sym, coded: bool, read: nat,
                        input: seq<byte>, k: nat, c: Coder, rest: seq<Step>)
    requires Ready(c)
  {
    if !coded then
      if escapes == 0 then Genuine(input, k, c, rest)
      else
        && read < escapes && Workable(Step(0, escapes, total))
        && Genuine(input, k + |Emitted(c, Step(0, escapes, total))|, Advance(c, Step(0, escapes, total)), rest)
    else
      && sym.Char? && 0 < escapes <= read < total
      && var p := ByCode(t, read - escapes, m, 0);
         var land := Land(t, read - escapes, m, 0);
         var st := Step(escapes + land.under, land.count, total);
         && p == ByValue(t, sym.v) && land.value == sym.v && Workable(st)
         && Genuine(input, k + |Emitted(c, st)|, Advance(c, st), rest)
  }

  lemma FindsValue(t: Tree, counts: seq<nat>, v: byte, cap: nat, code: nat, m: nat, under: nat)
    requires |counts| == 256 && Stands(t, counts, 0, 256) && Sound(t, cap) && m <= 1
    requires under == Weight(v, m) + Sum(counts, 0, v) <= code < under + counts[v] + m
    ensures ByCode(t, code, m, 0) == ByValue(t, v) && Land(t, code, m, 0) == Landing(v, under, counts[v] + m)
  {
    hide Stands, Sound, Sum, ByCode, ByValue, Land;
    CodeFindsValue(t, counts, 0, 256, v, cap, code, m, 0);
  }

  lemma TellsByte(t: Tree, table: Table, m: nat, cap: nat, v: byte, st: Step, read: nat,
                  input: seq<byte>, k: nat, c: Coder, rest: seq<Step>)
    requires m <= 1 && |table.counts| == 256 && Stands(t, table.counts, 0, 256) && Sound(t, cap)
    requires table.escapes > 0 && st == SymbolStep(table, v, m)
    requires Ready(c) && st.under <= read < st.under + st.count <= st.total && Workable(st)
    requires Genuine(input, k + |Emitted(c, st)|, Advance(c, st), rest)
    ensures Tells(t, table.escapes, st.total, m, Char(v), true, read, input, k, c, rest)
  {
    hide Genuine, Ready, Stands, Sound, Emitted, Advance, Workable, Sum, Total, ByCode, Land, ByValue, Weight;
    FindsValue(t, table.counts, v, cap, read - table.escapes, m, st.under - table.escapes);
  }

  lemma CodedHasEscapes(table: Table, m: nat, v: byte)
    requires Fit(table, m) && table.counts[v] + m > 0
    ensures table.escapes > 0
  {
    SumAround(table.counts, v);
  }

  /** What the decoder reads in a context with this total. */
  ghost predicate Reading(input: seq<byte>, k: nat, c: Coder, total: nat, read: nat) {
    Ready(c) && 0 < total <= c.range && Window(input, k) < WORD && read == Read(c, Window(input, k), total)
  }

  lemma ReadingStep(input: seq<byte>, k: nat, c: Coder, st: Step, read: nat, later: seq<Step>)
    requires Genuine(input, k, c, [st] + later) && Reading(input, k, c, st.total, read)
    ensures Ready(c) && Workable(st) && st.under <= read < st.under + st.count <= st.total
    ensures Genuine(input, k + |Emitted(c, st)|, Advance(c, st), later)
  {
    hide Genuine, Emitted, Advance, Workable, Read, Window;
    GenuineStep(input, k, c, st, later);
  }

  lemma TableTells(model: Model, n: Name, table: Table, m: nat, t: Tree, cap: nat, sym: Sym, read: nat,
                   input: seq<byte>, k: nat, c: Coder, rest: seq<Step>)
    requires Sane(model) && table == Lookup(model, n) && m == Minimum(n) && |table.counts| == 256
    requires Stands(t, table.counts, 0, 256) && Sound(t, cap) && Ready(c) && Reading(input, k, c, Total(table, m), read)
    requires Genuine(input, k, c, ContextSteps(model, n, sym) + rest)
    ensures Tells(t, table.escapes, Total(table, m), m, sym, Coded(model, n, sym), read, input, k, c, rest)
  {
    hide Genuine, Ready, Reading, Stands, Sound, Total, Sane, Sum, Lookup, Fit, Workable, ValidStep, IsEscape,
         Emitted, Advance, Weight, Land, ByValue, ByCode;
    SaneLookup(model, n);
    if Coded(model, n, sym) {
      CodedHasEscapes(table, m, sym.v);
      ReadingStep(input, k, c, SymbolStep(table, sym.v, m), read, rest);
      TellsByte(t, table, m, cap, sym.v, SymbolStep(table, sym.v, m), read, input, k, c, rest);
    } else if table.escapes > 0 {
      ReadingStep(input, k, c, EscapeStep(table, m), read, rest);
    } else {
      assert ContextSteps(model, n, sym) + rest == rest;
    }
  }

  lemma ContextTells(s: seq<Symbol>, sh: Shadow, c: nat, model: Model, sym: Sym, open: int, read: nat,
                     input: seq<byte>, k: nat, coder: Coder, rest: seq<Step>)
    requires |sh.trees| == |sh.names| <= |s| && c < |sh.trees| && Sane(model)
    requires Ready(coder) && Reading(input, k, coder, s[c].total, read) && |Lookup(model, sh.names[c]).counts| == 256
    requires Genuine(input, k, coder, ContextSteps(model, sh.names[c], sym) + rest)
    requires Standing(s, sh, open) && Models(s, sh, model)
    ensures Tells(sh.trees[c], s[c].escapes, s[c].total, MinimumAt(c), sym, Coded(model, sh.names[c], sym), read,
                  input, k, coder, rest)
  {
    hide Genuine, Ready, Reading, Standing, Models, Tells, Sane, ContextSteps, Stands, Sound, Coded, Lookup, Total,
         Mass, Linked;
    StandingAt(s, sh, open, c);
    ModelsAt(s, sh, model, c);
    NumbersAgree(s, sh, c, 0, model, open);
    TableTells(model, sh.names[c], Lookup(model, sh.names[c]), MinimumAt(c), sh.trees[c], Cap(MinimumAt(c)), sym, read,
               input, k, coder, rest);
  }

  /** A context without symbols codes nothing. */
  lemma ContextSilent(s: seq<Symbol>, sh: Shadow, c: nat, model: Model, sym: Sym, open: int,
                      input: seq<byte>, k: nat, coder: Coder, rest: seq<Step>)
    requires |sh.trees| == |sh.names| <= |s| && c < |sh.trees| && Sane(model)
    requires |Lookup(model, sh.names[c]).counts| == 256
    requires s[c].escapes == 0 && Genuine(input, k, coder, ContextSteps(model, sh.names[c], sym) + rest)
    requires Standing(s, sh, open) && Models(s, sh, model)
    ensures !Coded(model, sh.names[c], sym) && Genuine(input, k, coder, rest)
  {
    hide Genuine, Standing, Models, Sane, Stands, Sound, Lookup, Total, Mass, Linked, Sum, Fit, IsEscape, ValidStep;
    NumbersAgree(s, sh, c, 0, model, open);
    if Coded(model, sh.names[c], sym) {
      CodedHasEscapes(Lookup(model, sh.names[c]), MinimumAt(c), sym.v);
    }
    assert ContextSteps(model, sh.names[c], sym) + rest == rest;
  }

  // ----- one context in the decompressor

  /** In context `c` the input is the compressor's, for `sym` and what follows it. */
  ghost predicate Promised(s: seq<Symbol>, sh: Shadow, c: nat, model: Model, sym: Sym,
                           input: seq<byte>, k: nat, coder: Coder, rest: seq<Step>) {
    && |sh.trees| == |sh.names| <= |s| && c < |sh.trees| && Sane(model) && Models(s, sh, model)
    && |Lookup(model, sh.names[c]).counts| == 256
    && Genuine(input, k, coder, ContextSteps(model, sh.names[c], sym) + rest)
  }

  /** The context did not know `sym`. */
  ghost predicate Unknown(model: Model, n: Name, sym: Sym, input: seq<byte>, k: nat, coder: Coder, rest: seq<Step>) {
    && Sane(model) && |Lookup(model, n).counts| == 256 && !Coded(model, n, sym)
    && Genuine(input, k, coder, rest)
  }

  /** The context has decoded `sym`, and learnt it. */
  ghost predicate Known(model: Model, n: Name, sym: Sym, input: seq<byte>, k: nat, coder: Coder, rest: seq<Step>,
                        after: seq<Symbol>, sh': Shadow, value: byte, size: nat) {
    && Sane(model) && |Lookup(model, n).counts| == 256 && Coded(model, n, sym) && sym == Char(value)
    && |sh'.names| == size + (if Lookup(model, n).counts[value] == 0 then 1 else 0)
    && Genuine(input, k, coder, rest)
    && |sh'.trees| == |sh'.names| <= |after| && Models(after, sh', Learn1(model, n, value))
  }

  /** What the context decides on what it reads. */
  ghost predicate Decides(s: seq<Symbol>, sh: Shadow, c: nat, model: Model, sym: Sym, read: nat,
                          input: seq<byte>, k: nat, coder: Coder, rest: seq<Step>) {
    && c < |sh.trees| == |sh.names| <= |s| && Ready(coder) && Sane(model) && |Lookup(model, sh.names[c]).counts| == 256
    && var n := sh.names[c];
       var e := s[c].escapes;
       if read < e then
         Workable(Step(0, e, s[c].total))
         && Unknown(model, n, sym, input, k + |Emitted(coder, Step(0, e, s[c].total))|,
                    Advance(coder, Step(0, e, s[c].total)), rest)
       else
         && sym.Char? && Coded(model, n, sym)
         && var t := sh.trees[c];
            var p := ByCode(t, read - e, MinimumAt(c), 0);
            var land := Land(t, read - e, MinimumAt(c), 0);
            var st := Step(e + land.under, land.count, s[c].total);
            && p == ByValue(t, sym.v) && land.value == sym.v && (c != 0 ==> Target(t, p).Node?) && Workable(st)
            && Genuine(input, k + |Emitted(coder, st)|, Advance(coder, st), rest)
  }

  lemma PromiseDecides(s: seq<Symbol>, sh: Shadow, c: nat, model: Model, sym: Sym, read: nat,
                       input: seq<byte>, k: nat, coder: Coder, rest: seq<Step>)
    requires Promised(s, sh, c, model, sym, input, k, coder, rest)
    requires Ready(coder) && Reading(input, k, coder, s[c].total, read) && s[c].escapes > 0
    requires Standing(s, sh, -1)
    ensures Decides(s, sh, c, model, sym, read, input, k, coder, rest) && read < s[c].total
  {
    hide Genuine, Ready, Reading, Standing, Models, Sane, ContextSteps, Stands, Sound, Lookup, Total, Mass, Linked,
         ByCode, Land, ByValue, Emitted, Advance, Workable, Fit, Sum;
    ContextTells(s, sh, c, model, sym, -1, read, input, k, coder, rest);
    StandingAt(s, sh, -1, c);
    if Coded(model, sh.names[c], sym) {
      NumbersAgree(s, sh, c, sym.v, model, -1);
    }
  }

  /** The decoder's walk in context `c` is done, and its totals are due. */
  ghost predicate Walking(s: seq<Symbol>, sh: Shadow, c: nat, p: Path, v: byte,
                          walked: seq<Symbol>, sh1: Shadow, symbol: nat, next: nat, count: nat) {
    && |s| == |walked| == SYMBOLS && c < |sh.trees| == |sh.names| < SYMBOLS && |sh.names[c]| <= ORDER
    && c < |sh1.trees| == |sh1.names| == next <= SYMBOLS
    && Fits(sh.trees[c], p) && count == Found(sh.trees[c], p, MinimumAt(c))
    && Standing(s, sh, -1) && Shape(walked, sh1) && Due(walked, sh1, c, count)
    && Descended(s, sh, c, p, v, walked, sh1, symbol, next)
  }

  lemma WalkingAt(s: seq<Symbol>, sh: Shadow, c: nat, p: Path, v: byte,
                  walked: seq<Symbol>, sh1: Shadow, symbol: nat, next: nat, count: nat)
    requires Walking(s, sh, c, p, v, walked, sh1, symbol, next, count)
    ensures |walked| == SYMBOLS && c < |sh1.trees| && Shape(walked, sh1) && Due(walked, sh1, c, count)
  {
  }

  /** The context is settled: the array stands again, and for the model that has learnt the byte. */
  lemma WalkingEnds(s: seq<Symbol>, sh: Shadow, c: nat, p: Path, v: byte, walked: seq<Symbol>, sh1: Shadow,
                    symbol: nat, next: nat, count: nat, after: seq<Symbol>, sh3: Shadow)
    requires Walking(s, sh, c, p, v, walked, sh1, symbol, next, count)
    requires |after| == SYMBOLS && sh3 == AdaptedShadow(sh1, walked, c, count)
    requires OnlyTotals(walked, after, c, Slots(sh1.trees[c]))
    requires |sh3.trees| == |sh3.names| <= SYMBOLS && Shape(after, sh3) && Numbers(after, sh3)
    ensures Stood(s, sh, c, v, -1, after, sh3, symbol, next)
  {
    hide Shape, Numbers, Due, Fits, Descended, Standing, Found, OnlyTotals, AdaptedShadow, Stood, Entered;
    LinkedUp(s, sh, c, p, v, -1, walked, sh1, symbol, next, count, walked);
    ContextStood(s, sh, c, p, v, -1, walked, sh1, symbol, next, after, sh3, count);
  }

  lemma WalkingLearns(s: seq<Symbol>, sh: Shadow, c: nat, p: Path, v: byte, walked: seq<Symbol>, sh1: Shadow,
                      symbol: nat, next: nat, count: nat, after: seq<Symbol>, sh3: Shadow, model: Model)
    requires Walking(s, sh, c, p, v, walked, sh1, symbol, next, count)
    requires |after| == SYMBOLS && sh3 == AdaptedShadow(sh1, walked, c, count)
    requires OnlyTotals(walked, after, c, Slots(sh1.trees[c]))
    requires |sh3.trees| == |sh3.names| <= SYMBOLS && after[c].escapes == AdaptedEscapes(walked, c, count, MinimumAt(c))
    requires p == ByValue(sh.trees[c], v) && Sane(model) && Models(s, sh, model)
    ensures Models(after, sh3, Learn1(model, sh.names[c], v)) && |Lookup(model, sh.names[c]).counts| == 256
    ensures |sh3.names| == |sh.names| + (if Lookup(model, sh.names[c]).counts[v] == 0 then 1 else 0)
  {
    hide Shape, Numbers, Due, Fits, Standing, Found, OnlyTotals, AdaptedEscapes, Entered, Models,
         Learn1, ByValue, Sane, Fit, Lookup, Sum, Before, Raise, Created, OnlyWalk, AdaptedTree, Target;
    NumbersAgree(s, sh, c, v, model, -1);
    LinkedUp(s, sh, c, p, v, -1, walked, sh1, symbol, next, count, walked);
    ModelsAfter(s, sh, c, v, -1, walked, sh1, symbol, next, after, model);
  }

  datatype Verdict = Skipped | Broken | Decoded(value: byte, symbol: nat)

  /** The numbers of a context: what the decoder divides by, and what it may multiply with. */
  lemma ContextWorkable(s: seq<Symbol>, sh: Shadow, c: nat)
    requires Standing(s, sh, -1) && c < |sh.trees|
    ensures |s| == SYMBOLS && |sh.trees| == |sh.names| <= SYMBOLS
    ensures s[c].escapes > 0 ==> s[c].escapes < s[c].total < BOTTOM && Workable(Step(0, s[c].escapes, s[c].total))
    ensures c == 0 ==> s[c].escapes > 0
  {
    hide Standing, Linked, Sound, Mass;
    StandingAt(s, sh, -1, c);
  }

  lemma DecodedWorkable(s: seq<Symbol>, sh: Shadow, c: nat, p: Path, count: nat, under: nat)
    requires |sh.trees| <= |s| && c < |sh.trees| && Fits(sh.trees[c], p) && s[c].escapes > 0
    requires c == 0 || Target(sh.trees[c], p).Node?
    requires count == Found(sh.trees[c], p, MinimumAt(c)) && Standing(s, sh, -1)
    ensures Workable(Step(under, count, s[c].total))
  {
    hide Standing, Linked;
    StandingAt(s, sh, -1, c);
    TargetFound(sh.trees[c], p, Cap(MinimumAt(c)));
    FoundIsWorkable(s[c].escapes, s[c].total, sh.trees[c], p, MinimumAt(c), under);
  }

  lemma WalkingFrom(s: seq<Symbol>, sh: Shadow, c: nat, p: Path, v: byte,
                    walked: seq<Symbol>, sh1: Shadow, symbol: nat, next: nat, count: nat)
    requires |s| == |walked| == SYMBOLS && c < |sh.trees| == |sh.names| < SYMBOLS && |sh.names[c]| <= ORDER
    requires Fits(sh.trees[c], p) && count == Found(sh.trees[c], p, MinimumAt(c))
    requires Descended(s, sh, c, p, v, walked, sh1, symbol, next) && c < |sh1.trees|
    requires Due(walked, sh1, c, count) && Shape(walked, sh1) && Standing(s, sh, -1)
    ensures Walking(s, sh, c, p, v, walked, sh1, symbol, next, count)
  {
    hide Standing, Shape, Due, Fits, Found, Target, Created, Grown, OnlyWalk;
  }

  /** ENET_RANGE_CODER_READ with the range already divided, on 32-bit words. */
  function ReadWord(low: nat, code: nat, part: nat): nat
    requires low < WORD && part > 0
  {
    (code + WORD - low) % WORD / part
  }

  lemma ReadingIs(input: seq<byte>, k: nat, low: nat, range: nat, code: nat, inPos: nat, total: nat)
    requires Tuned(input, k, Coder(low, range), code, inPos) && 0 < total < BOTTOM
    ensures Ready(Coder(low, range)) && low < WORD && code < WORD && range / total > 0
    ensures Reading(input, k, Coder(low, range), total, ReadWord(low, code, range / total))
  {
    hide Window;
    WindowShifts(input, k);
    Quotient(range, total);
  }

  lemma PromiseSilent(s: seq<Symbol>, sh: Shadow, c: nat, model: Model, sym: Sym,
                      input: seq<byte>, k: nat, coder: Coder, rest: seq<Step>)
    requires Promised(s, sh, c, model, sym, input, k, coder, rest) && s[c].escapes == 0 && Standing(s, sh, -1)
    ensures Unknown(model, sh.names[c], sym, input, k, coder, rest)
  {
    hide Genuine, Standing, Models, Sane, Lookup, ContextSteps, Coded;
    ContextSilent(s, sh, c, model, sym, -1, input, k, coder, rest);
  }

  /** The walk that the decision leads to finds the byte. */
  lemma DecidesWalk(s: seq<Symbol>, sh: Shadow, c: nat, model: Model, sym: Sym, read: nat,
                    input: seq<byte>, k: nat, coder: Coder, rest: seq<Step>)
    requires Decides(s, sh, c, model, sym, read, input, k, coder, rest)
    requires c < |sh.trees| <= |s| && s[c].escapes <= read && MinimumAt(c) == (if c == 0 then 1 else 0)
    ensures sym.Char? && var p := ByCode(sh.trees[c], read - s[c].escapes, MinimumAt(c), 0);
            p == ByValue(sh.trees[c], sym.v) && (c != 0 ==> Target(sh.trees[c], p).Node?)
            && Land(sh.trees[c], read - s[c].escapes, MinimumAt(c), 0).value == sym.v
  {
    hide Genuine, Ready, Sane, Lookup, Coded, ByCode, ByValue, Target, Land, Workable, Emitted, Advance;
  }

  lemma DecidesKnown(s: seq<Symbol>, sh: Shadow, c: nat, model: Model, sym: Sym, read: nat,
                     input: seq<byte>, k: nat, coder: Coder, rest: seq<Step>, value: byte, under: nat, count: nat,
                     k': nat, coder': Coder, after: seq<Symbol>, sh': Shadow)
    requires c < |sh.trees| == |sh.names| <= |s| && s[c].escapes <= read && |sh'.trees| == |sh'.names| <= |after|
    requires Ready(coder) && Workable(Step(s[c].escapes + under, count, s[c].total)) && Sane(model)
    requires coder' == Advance(coder, Step(s[c].escapes + under, count, s[c].total))
    requires k' == k + |Emitted(coder, Step(s[c].escapes + under, count, s[c].total))|
    requires Landing(value, under, count) == Land(sh.trees[c], read - s[c].escapes, MinimumAt(c), 0)
    requires Models(after, sh', Learn1(model, sh.names[c], value))
    requires |Lookup(model, sh.names[c]).counts| == 256
    requires |sh'.names| == |sh.names| + (if Lookup(model, sh.names[c]).counts[value] == 0 then 1 else 0)
    requires Decides(s, sh, c, model, sym, read, input, k, coder, rest)
    ensures Known(model, sh.names[c], sym, input, k', coder', rest, after, sh', value, |sh.names|)
  {
    hide Genuine, Ready, Sane, Lookup, Coded, ByCode, ByValue, Target, Land, Workable, Emitted, Advance, Models, Learn1;
  }

  lemma DecidesEscape(s: seq<Symbol>, sh: Shadow, c: nat, model: Model, sym: Sym, read: nat,
                      input: seq<byte>, k: nat, coder: Coder, rest: seq<Step>, k': nat, coder': Coder)
    requires Decides(s, sh, c, model, sym, read, input, k, coder, rest)
    requires c < |sh.trees| == |sh.names| <= |s| && read < s[c].escapes && Ready(coder)
    requires Workable(Step(0, s[c].escapes, s[c].total))
    requires coder' == Advance(coder, Step(0, s[c].escapes, s[c].total))
    requires k' == k + |Emitted(coder, Step(0, s[c].escapes, s[c].total))|
    ensures Unknown(model, sh.names[c], sym, input, k', coder', rest)
  {
    hide Genuine, Ready, Sane, Lookup, Coded, ByCode, ByValue, Target, Land, Workable, Emitted, Advance, Unknown;
  }

  lemma PromisedAt(s: seq<Symbol>, sh: Shadow, c: nat, model: Model, sym: Sym,
                   input: seq<byte>, k: nat, coder: Coder, rest: seq<Step>)
    requires Promised(s, sh, c, model, sym, input, k, coder, rest)
    ensures |sh.trees| == |sh.names| <= |s| && c < |sh.trees| && Sane(model) && Models(s, sh, model)
  {
  }
}
