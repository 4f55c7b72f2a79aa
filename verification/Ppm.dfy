/** The order-2 model of compress.c on values: a table for every context that has been seen, named by
    the bytes that lead to it.  Encoder and decoder arrays both stand for the same such model. */
module Ppm {
  import opened Bytes
  import opened RangeCoding
  import opened Frequencies

  const ORDER := 2
  const SYMBOLS := 4096

  type Name = seq<byte>
  type Model = map<Name, Table>

  /** What comes next: a byte, or nothing any more. */
  datatype Sym = End | Char(v: byte)

  function Minimum(n: Name): nat {
    if n == [] then 1 else 0
  }

  function Lookup(model: Model, n: Name): Table {
    if n in model then model[n] else Empty(Minimum(n))
  }

  ghost predicate Sane(model: Model) {
    forall n :: n in model ==> Fit(model[n], Minimum(n))
  }

  lemma SaneLookup(model: Model, n: Name)
    requires Sane(model)
    ensures Fit(Lookup(model, n), Minimum(n))
  {
    EmptyIsFit(Minimum(n));
  }

  /** The byte is coded in context `n` itself. */
  predicate Coded(model: Model, n: Name, sym: Sym)
    requires |Lookup(model, n).counts| == 256
  {
    sym.Char? && (n == [] || Lookup(model, n).counts[sym.v] > 0)
  }

  /** The coding step, if any, that context `n` contributes. */
  function ContextSteps(model: Model, n: Name, sym: Sym): (steps: seq<Step>)
    requires Sane(model)
    ensures ValidSteps(steps)
    ensures sym == End ==> forall i :: 0 <= i < |steps| ==> IsEscape(steps[i])
  {
    SaneLookup(model, n);
    var t := Lookup(model, n);
    if Coded(model, n, sym) then SymbolStepIsValid(t, sym.v, Minimum(n)); [SymbolStep(t, sym.v, Minimum(n))]
    else if t.escapes > 0 then EscapeStepIsValid(t, Minimum(n)); [EscapeStep(t, Minimum(n))]
    else []
  }

  /** The coding steps for one input, from context `n` down to the root. */
  function Steps(model: Model, n: Name, sym: Sym): (steps: seq<Step>)
    requires Sane(model)
    ensures ValidSteps(steps)
    ensures sym == End ==> forall i :: 0 <= i < |steps| ==> IsEscape(steps[i])
    decreases |n|
  {
    SaneLookup(model, n);
    ContextSteps(model, n, sym) + if n == [] || Coded(model, n, sym) then [] else Steps(model, n[1..], sym)
  }

  function Learn1(model: Model, n: Name, v: byte): Model
    requires Sane(model)
  {
    SaneLookup(model, n);
    model[n := Bump(Lookup(model, n), v, Minimum(n))]
  }

  lemma Learn1IsSane(model: Model, n: Name, v: byte)
    requires Sane(model)
    ensures Sane(Learn1(model, n, v))
  {
    SaneLookup(model, n);
    BumpIsFit(Lookup(model, n), v, Minimum(n));
  }

  /** Learning a byte: from context `n` down to the first that knew it. */
  function Learn(model: Model, n: Name, v: byte): (after: Model)
    requires Sane(model)
    ensures Sane(after)
    decreases |n|
  {
    SaneLookup(model, n);
    Learn1IsSane(model, n, v);
    if Coded(model, n, Char(v)) then Learn1(model, n, v)
    else Learn(Learn1(model, n, v), n[1..], v)
  }

  /** How many symbols that adds. */
  function Growth(model: Model, n: Name, v: byte): nat
    requires Sane(model)
    decreases |n|
  {
    SaneLookup(model, n);
    if Lookup(model, n).counts[v] > 0 then 0
    else if n == [] then 1 else 1 + Growth(model, n[1..], v)
  }

  /** The model, the context of the next byte, and the number of symbols in use. */
  datatype State = State(model: Model, context: Name, used: nat)

  const INITIAL := State(map[], [], 1)

  ghost predicate Good(st: State) {
    Sane(st.model) && |st.context| <= ORDER
  }

  function Follow(context: Name, v: byte): Name {
    if |context| >= ORDER then (context + [v])[1..] else context + [v]
  }

  /** One input; the model starts afresh when two more symbols might not fit. */
  function Next(st: State, v: byte): (after: State)
    requires Good(st)
    ensures Good(after)
  {
    var used := st.used + Growth(st.model, st.context, v);
    if used >= SYMBOLS - ORDER then INITIAL
    else State(Learn(st.model, st.context, v), Follow(st.context, v), used)
  }

  function AllSteps(st: State, data: seq<byte>): (steps: seq<Step>)
    requires Good(st)
    ensures ValidSteps(steps)
    decreases |data|
  {
    if data == [] then []
    else Steps(st.model, st.context, Char(data[0])) + AllSteps(Next(st, data[0]), data[1..])
  }

  /** What enet_range_coder_compress produces for `data`. */
  function Compressed(data: seq<byte>): seq<byte> {
    StartIsReady();
    Stream(START, AllSteps(INITIAL, data))
  }

  lemma StartIsReady()
    ensures Ready(START) && Tight(START)
  {
  }

  /** Contexts shorter than `n` do not notice what is learnt at `n`. */
  lemma {:induction false} StepsIgnoreLonger(model: Model, n: Name, v: byte, shorter: Name, sym: Sym)
    requires Sane(model) && |shorter| < |n|
    ensures Sane(Learn1(model, n, v)) && Steps(Learn1(model, n, v), shorter, sym) == Steps(model, shorter, sym)
    decreases |shorter|
  {
    Learn1IsSane(model, n, v);
    if shorter != [] {
      StepsIgnoreLonger(model, n, v, shorter[1..], sym);
    }
  }

  lemma {:induction false} GrowthIgnoresLonger(model: Model, n: Name, v: byte, shorter: Name)
    requires Sane(model) && |shorter| < |n|
    ensures Sane(Learn1(model, n, v)) && Growth(Learn1(model, n, v), shorter, v) == Growth(model, shorter, v)
    decreases |shorter|
  {
    Learn1IsSane(model, n, v);
    if shorter != [] {
      GrowthIgnoresLonger(model, n, v, shorter[1..]);
    }
  }

  /** What the two branches on `count` in the compressor code. */
  function Choice(escapes: nat, total: nat, under: nat, count: nat): seq<Step> {
    if count > 0 then [Step(escapes + under, count, total)]
    else if escapes > 0 && escapes < total then [Step(0, escapes, total)]
    else []
  }

  lemma ChoiceIsContextSteps(model: Model, n: Name, v: byte, t: Table, m: nat, total: nat, under: nat, count: nat)
    requires Sane(model) && m == Minimum(n) && t == Lookup(model, n) && |t.counts| == 256
    requires total == Total(t, m) && under == Weight(v, m) + Sum(t.counts, 0, v) && count == t.counts[v] + m
    ensures count > 0 <==> Coded(model, n, Char(v))
    ensures ContextSteps(model, n, Char(v)) == Choice(t.escapes, total, under, count)
  {
    hide Sum, Fit, Sane, Weight, Total, Lookup, ValidStep, IsEscape;
    SaneLookup(model, n);
    if t.escapes > 0 {
      EscapeStepIsValid(t, m);
    }
  }
}
