/** The 32-bit carryless range coder of compress.c, apart from the model that drives it.

    Encoder and decoder hold the same pair (low, range).  `Stream` is everything the encoder
    emits for a list of coding steps, flush included; the decoder sees it through a window of
    four bytes, with zeros after the last byte. */
module RangeCoding {
  import opened Bytes

  const WORD := 0x1_0000_0000
  const TOP := 0x100_0000
  const BOTTOM := 0x1_0000

  datatype Coder = Coder(low: nat, range: nat)

  /** One call of ENET_RANGE_CODER_ENCODE or ENET_RANGE_CODER_DECODE. */
  datatype Step = Step(under: nat, count: nat, total: nat)

  const START := Coder(0, WORD - 1)

  // ----- states

  /** Both fields fit 32 bits, and the byte shifts below always end. */
  predicate Live(c: Coder) {
    c.low < WORD && 0 < c.range < WORD && (c.low + c.range < WORD || c.range <= WORD - TOP)
  }

  /** The interval [low, low + range) does not leave the word, so no carry reaches emitted bytes. */
  predicate Tight(c: Coder) {
    Live(c) && c.low + c.range <= WORD
  }

  /** The top bytes of low and of low + range (both 32-bit) differ:
      (low ^ (low + range)) >= TOP. */
  predicate Straddles(c: Coder) {
    c.low / TOP != (c.low + c.range) % WORD / TOP
  }

  predicate Settled(c: Coder) {
    Straddles(c) && c.range >= BOTTOM
  }

  predicate Ready(c: Coder) {
    Live(c) && Settled(c)
  }

  // ----- one coding step

  function Scale(c: Coder, st: Step): Coder
    requires st.total > 0
  {
    var r := c.range / st.total;
    Coder((c.low + st.under * r) % WORD, r * st.count % WORD)
  }

  /** The underflow cut: range = -low & (BOTTOM - 1). */
  function Cut(c: Coder): Coder {
    if Straddles(c) then c.(range := (WORD - c.low) % BOTTOM) else c
  }

  function Shift(c: Coder): Coder {
    Coder(c.low * 256 % WORD, c.range * 256 % WORD)
  }

  /** One turn of the normalisation loop. */
  function Squeeze(c: Coder): Coder {
    Shift(Cut(c))
  }

  ghost function Lag(c: Coder): nat {
    if (c.low + c.range) % TOP == 0 then 0 else 1
  }

  lemma ShiftValues(c: Coder)
    requires c.low < WORD && c.range < TOP
    ensures Shift(c) == Coder(c.low % TOP * 256, c.range * 256)
  {
    var b := c.low / TOP;
    assert c.low == b * TOP + c.low % TOP;
    assert c.low * 256 == b * WORD + c.low % TOP * 256;
  }

  lemma EqualTopBytes(c: Coder)
    requires Live(c) && !Straddles(c)
    ensures c.low % TOP + c.range < TOP && c.low + c.range < WORD
  {
  }

  /** The cut moves the upper end down to the multiple of TOP inside the interval. */
  lemma CutToBoundary(c: Coder) returns (boundary: nat)
    requires Live(c) && Straddles(c) && c.range < BOTTOM
    ensures boundary % TOP == 0 && boundary <= WORD
    ensures c.low < boundary <= c.low + c.range
    ensures Cut(c).range == boundary - c.low
  {
    var b := c.low / TOP;
    boundary := (b + 1) * TOP;
    assert c.low < boundary;
    CutRemainder(c.low, boundary);
  }

  lemma CutRemainder(low: nat, boundary: nat)
    requires boundary % TOP == 0 && low < boundary <= WORD && boundary - low < BOTTOM
    ensures (WORD - low) % BOTTOM == boundary - low
  {
    var k := boundary / TOP;
    assert WORD - low == (256 - k) * 256 * BOTTOM + (boundary - low);
  }

  /** One turn of the loop: the state stays live, and `Lag`, `range` say why the loop ends. */
  lemma SqueezeIsLive(c: Coder)
    requires Live(c) && !Settled(c)
    ensures Live(Squeeze(c)) && Squeeze(c) == Coder(c.low % TOP * 256, Cut(c).range * 256)
    ensures Cut(c).range <= c.range && c.low % TOP + Cut(c).range <= TOP
    ensures Lag(Squeeze(c)) < Lag(c) || (Lag(Squeeze(c)) == Lag(c) && Squeeze(c).range > c.range)
  {
    if Straddles(c) {
      var boundary := CutToBoundary(c);
      ShiftValues(Cut(c));
      CutThenShift(c, boundary);
    } else {
      EqualTopBytes(c);
      ShiftValues(c);
      UnlaggedStraddles(c);
    }
  }

  lemma CutThenShift(c: Coder, boundary: nat)
    requires boundary % TOP == 0 && c.low < boundary <= c.low + c.range && c.range < BOTTOM
    ensures c.low % TOP + (boundary - c.low) == TOP
    ensures (c.low % TOP * 256 + (boundary - c.low) * 256) % TOP == 0
    ensures (c.low + c.range) % TOP == 0 ==> c.low + c.range == boundary
  {
    var b := c.low / TOP;
    assert c.low == b * TOP + c.low % TOP;
    assert boundary == boundary / TOP * TOP;
    assert boundary == (b + 1) * TOP;
    assert (c.low % TOP + (boundary - c.low)) * 256 == 256 * TOP;
  }

  lemma UnlaggedStraddles(c: Coder)
    requires c.low % TOP + c.range < TOP && 0 < c.range
    ensures Lag(c) == 1
  {
    assert (c.low + c.range) % TOP == c.low % TOP + c.range;
  }

  // ----- the normalisation loop

  /** The state after the loop. */
  function Normal(c: Coder): Coder
    requires Live(c)
    decreases Lag(c), WORD - c.range
  {
    if Settled(c) then c else SqueezeIsLive(c); Normal(Squeeze(c))
  }

  /** The bytes the loop emits (or, in the decoder, the number of bytes it takes in). */
  function Shed(c: Coder): seq<byte>
    requires Live(c)
    decreases Lag(c), WORD - c.range
  {
    if Settled(c) then [] else SqueezeIsLive(c); [c.low / TOP] + Shed(Squeeze(c))
  }

  /** One turn of the loop, in terms of its result and its output. */
  lemma Turn(c: Coder)
    requires Live(c)
    ensures c.low < WORD && c.range < WORD
    ensures Settled(c) ==> Normal(c) == c && Shed(c) == []
    ensures !Settled(c) ==>
      var next := Squeeze(c);
      && next == Coder(c.low * 256 % WORD, Cut(c).range * 256 % WORD)
      && Live(next) && Normal(c) == Normal(next) && Shed(c) == [c.low / TOP] + Shed(next)
      && (Lag(next) < Lag(c) || (Lag(next) == Lag(c) && WORD - next.range < WORD - c.range))
  {
    if !Settled(c) {
      SqueezeIsLive(c);
    }
  }

  lemma NormalIsReady(c: Coder)
    requires Live(c)
    ensures Ready(Normal(c))
    ensures Tight(c) ==> Tight(Normal(c))
    decreases Lag(c), WORD - c.range
  {
    if !Settled(c) {
      SqueezeIsLive(c);
      NormalIsReady(Squeeze(c));
    }
  }

  /** ENET_RANGE_CODER_FLUSH emits the bytes of low up to the last non-zero one. */
  function Flush(low: nat): seq<byte>
    requires low < WORD
    decreases Filled(low)
  {
    if low == 0 then [] else ShiftEmpties(low); [low / TOP] + Flush(low * 256 % WORD)
  }

  ghost function Filled(low: nat): nat {
    if low == 0 then 0
    else if low % TOP == 0 then 1
    else if low % BOTTOM == 0 then 2
    else if low % 256 == 0 then 3
    else 4
  }

  lemma ShiftEmpties(low: nat)
    requires 0 < low < WORD
    ensures Filled(low * 256 % WORD) < Filled(low)
  {
    ShiftValues(Coder(low, 0));
    var next := low % TOP * 256;
    assert next % 256 == 0;
    if low % 256 == 0 {
      assert next % BOTTOM == 0;
    }
    if low % BOTTOM == 0 {
      assert next % TOP == 0;
    }
  }

  // ----- the emitted stream, and how the decoder sees it

  /** What keeps the coder going on any input: no division by zero, no interval of length zero. */
  predicate Workable(st: Step) {
    0 < st.count && 0 < st.total < BOTTOM && 256 * st.count <= 255 * st.total
  }

  predicate ValidStep(st: Step) {
    Workable(st) && st.under + st.count <= st.total
  }

  ghost predicate ValidSteps(steps: seq<Step>) {
    forall i :: 0 <= i < |steps| ==> ValidStep(steps[i])
  }

  function At(z: seq<byte>, i: nat): byte {
    if i < |z| then z[i] else 0
  }

  /** The four bytes from position `i` on: the decoder's `decodeCode`. */
  function Window(z: seq<byte>, i: nat): nat {
    At(z, i) * TOP + At(z, i + 1) * BOTTOM + At(z, i + 2) * 256 + At(z, i + 3)
  }

  /** From position `k` on, `input` reads like `z`. */
  ghost predicate Reads(input: seq<byte>, k: nat, z: seq<byte>) {
    forall i: nat :: At(input, k + i) == At(z, i)
  }

  lemma ScaleIsTight(c: Coder, st: Step)
    requires Ready(c) && Tight(c) && ValidStep(st)
    ensures var r := c.range / st.total;
            r > 0 && Scale(c, st) == Coder(c.low + st.under * r, r * st.count)
    ensures Tight(Scale(c, st))
    ensures Scale(c, st).low + Scale(c, st).range <= c.low + c.range
  {
    var r := c.range / st.total;
    Quotient(c.range, st.total);
    Subinterval(r, st);
    Shrinks(c.range, r, st);
    NoWrap(c, st.under * r, r * st.count);
  }

  lemma NoWrap(c: Coder, offset: nat, size: nat)
    requires Tight(c) && 0 < size <= WORD - TOP && offset + size <= c.range
    ensures (c.low + offset) % WORD == c.low + offset && size % WORD == size
    ensures Tight(Coder(c.low + offset, size))
  {
  }

  lemma Quotient(range: nat, total: nat)
    requires 0 < total <= range
    ensures var r := range / total; r > 0 && r * total <= range < (r + 1) * total
  {
  }

  lemma Subinterval(r: nat, st: Step)
    requires ValidStep(st) && r > 0
    ensures 0 < r * st.count
    ensures 0 <= st.under * r && st.under * r + r * st.count <= r * st.total
  {
    assert st.under * r + r * st.count == r * (st.under + st.count);
    MulMonotone(r, st.under + st.count, st.total);
    MulMonotone(r, 1, st.count);
  }

  lemma MulMonotone(r: nat, a: nat, b: nat)
    requires a <= b
    ensures r * a <= r * b
  {
  }

  /** A step keeps at most 255/256 of the range, so shifting cannot lose its top byte. */
  lemma Shrinks(range: nat, r: nat, st: Step)
    requires range < WORD && r * st.total <= range && 256 * st.count <= 255 * st.total
    ensures r * st.count <= WORD - TOP
  {
    MulMonotone(r, 256 * st.count, 255 * st.total);
    assert r * (256 * st.count) == 256 * (r * st.count);
    assert r * (255 * st.total) == 255 * (r * st.total);
  }

  /** Any workable step, on any live state, leaves a state the loop can normalise. */
  lemma ScaleIsLive(c: Coder, st: Step)
    requires Ready(c) && Workable(st)
    ensures Live(Scale(c, st))
  {
    var r := c.range / st.total;
    Quotient(c.range, st.total);
    Shrinks(c.range, r, st);
    Positive(r, st.count);
    Reduced(c.low + st.under * r, r * st.count);
  }

  lemma Positive(a: nat, b: nat)
    requires a > 0 && b > 0
    ensures a * b > 0
  {
  }

  lemma Reduced(low: nat, size: nat)
    requires 0 < size <= WORD - TOP
    ensures Live(Coder(low % WORD, size % WORD))
  {
  }

  function Advance(c: Coder, st: Step): Coder
    requires Ready(c) && Workable(st)
  {
    ScaleIsLive(c, st); Normal(Scale(c, st))
  }

  function Emitted(c: Coder, st: Step): seq<byte>
    requires Ready(c) && Workable(st)
  {
    ScaleIsLive(c, st); Shed(Scale(c, st))
  }

  lemma AdvanceIsReady(c: Coder, st: Step)
    requires Ready(c) && Workable(st)
    ensures Ready(Advance(c, st))
    ensures Tight(c) && ValidStep(st) ==> Tight(Advance(c, st))
  {
    ScaleIsLive(c, st);
    NormalIsReady(Scale(c, st));
    if Tight(c) && ValidStep(st) {
      ScaleIsTight(c, st);
    }
  }

  /** Everything emitted from state `c` on: the given steps, then the flush. */
  function Stream(c: Coder, steps: seq<Step>): seq<byte>
    requires Ready(c) && ValidSteps(steps)
    decreases |steps|
  {
    if steps == [] then Flush(c.low)
    else
      AdvanceIsReady(c, steps[0]);
      Emitted(c, steps[0]) + Stream(Advance(c, steps[0]), steps[1..])
  }

  // ----- the interval theorem

  lemma WindowOfCons(b: byte, z: seq<byte>)
    ensures Window([b] + z, 0) == b * TOP + Window(z, 0) / 256
  {
    var w := [b] + z;
    assert At(w, 0) == b && At(w, 1) == At(z, 0) && At(w, 2) == At(z, 1) && At(w, 3) == At(z, 2);
  }

  lemma FlushReadsLow(low: nat)
    requires low < WORD
    ensures Window(Flush(low), 0) == low
    decreases Filled(low)
  {
    if low != 0 {
      var next := low * 256 % WORD;
      ShiftEmpties(low);
      FlushReadsLow(next);
      WindowOfCons(low / TOP, Flush(next));
      ShiftValues(Coder(low, 0));
    }
  }

  /** If what follows the shed bytes lies in the normalised interval, then with the shed bytes in
      front it lies in the interval before normalisation. */
  lemma {:induction false} ShedKeepsInterval(c: Coder, z: seq<byte>)
    requires Tight(c)
    requires Normal(c).low <= Window(z, 0) < Normal(c).low + Normal(c).range
    ensures c.low <= Window(Shed(c) + z, 0) < c.low + c.range
    decreases Lag(c), WORD - c.range
  {
    if Settled(c) {
      assert Shed(c) + z == z;
    } else {
      var n := Squeeze(c);
      SqueezeIsLive(c);
      ShedKeepsInterval(n, z);
      assert Shed(c) + z == [c.low / TOP] + (Shed(n) + z);
      WindowOfCons(c.low / TOP, Shed(n) + z);
      Unshift(c, Window(Shed(n) + z, 0));
    }
  }

  lemma Unshift(c: Coder, w: nat)
    requires Live(c) && c.low % TOP * 256 <= w < c.low % TOP * 256 + Cut(c).range * 256
    requires Cut(c).range <= c.range
    ensures c.low <= c.low / TOP * TOP + w / 256 < c.low + c.range
  {
  }

  /** The same for a whole step, down to the step's own subinterval. */
  lemma EmittedKeepsInterval(c: Coder, st: Step, z: seq<byte>)
    requires Ready(c) && Tight(c) && ValidStep(st)
    requires var d := Advance(c, st); d.low <= Window(z, 0) < d.low + d.range
    ensures var w := Window(Emitted(c, st) + z, 0); var r := c.range / st.total;
            r > 0 && c.low + st.under * r <= w < c.low + st.under * r + r * st.count
  {
    ScaleIsTight(c, st);
    ShedKeepsInterval(Scale(c, st), z);
  }

  lemma WithinRange(c: Coder, st: Step, w: nat)
    requires Ready(c) && Tight(c) && ValidStep(st)
    requires var r := c.range / st.total; c.low + st.under * r <= w < c.low + st.under * r + r * st.count
    ensures c.low <= w < c.low + c.range
  {
    ScaleIsTight(c, st);
  }

  /** The value the decoder reads always lies in the encoder's interval. */
  lemma {:induction false} StreamInInterval(c: Coder, steps: seq<Step>)
    requires Ready(c) && Tight(c) && ValidSteps(steps)
    ensures c.low <= Window(Stream(c, steps), 0) < c.low + c.range
    decreases |steps|
  {
    if steps == [] {
      FlushReadsLow(c.low);
    } else {
      var rest := AfterStep(c, steps);
      EmittedKeepsInterval(c, steps[0], rest);
      WithinRange(c, steps[0], Window(Emitted(c, steps[0]) + rest, 0));
    }
  }

  lemma {:induction false} AfterStep(c: Coder, steps: seq<Step>) returns (rest: seq<byte>)
    requires Ready(c) && Tight(c) && ValidSteps(steps) && steps != []
    ensures var d := Advance(c, steps[0]); d.low <= Window(rest, 0) < d.low + d.range
    ensures Ready(Advance(c, steps[0])) && Tight(Advance(c, steps[0])) && ValidSteps(steps[1..])
    ensures rest == Stream(Advance(c, steps[0]), steps[1..])
    ensures Stream(c, steps) == Emitted(c, steps[0]) + rest
    decreases |steps|, 0
  {
    AdvanceIsReady(c, steps[0]);
    rest := Stream(Advance(c, steps[0]), steps[1..]);
    StreamInInterval(Advance(c, steps[0]), steps[1..]);
  }

  /** ENET_RANGE_CODER_READ on 32-bit words. */
  function Read(c: Coder, code: nat, total: nat): nat
    requires 0 < total <= c.range && c.low < WORD && code < WORD
  {
    (code + WORD - c.low) % WORD / (c.range / total)
  }

  lemma ReadQuotient(c: Coder, code: nat, st: Step)
    requires c.low < WORD && code < WORD && 0 < st.total <= c.range
    requires var r := c.range / st.total; r > 0 && c.low + st.under * r <= code < c.low + st.under * r + r * st.count
    ensures st.under <= Read(c, code, st.total) < st.under + st.count
  {
    var r := c.range / st.total;
    MulMonotone(r, 0, st.under);
    assert (code + WORD - c.low) % WORD == code - c.low;
    InQuotient(code - c.low, r, st.under, st.count);
  }

  /** ENET_RANGE_CODER_READ gives a value inside the interval of the step that was encoded. */
  lemma ReadFindsStep(c: Coder, steps: seq<Step>, code: nat)
    requires Ready(c) && Tight(c) && ValidSteps(steps) && steps != []
    requires code == Window(Stream(c, steps), 0) < WORD
    ensures steps[0].under <= Read(c, code, steps[0].total) < steps[0].under + steps[0].count
  {
    var rest := AfterStep(c, steps);
    EmittedKeepsInterval(c, steps[0], rest);
    ReadQuotient(c, code, steps[0]);
  }

  lemma InQuotient(x: nat, r: nat, under: nat, count: nat)
    requires r > 0 && under * r <= x < under * r + r * count
    ensures under <= x / r < under + count
  {
    assert under * r + r * count == (under + count) * r;
    DivFloor(x, r, under);
    DivCeil(x, r, under + count);
  }

  lemma DivFloor(x: nat, r: nat, k: nat)
    requires r > 0 && k * r <= x
    ensures k <= x / r
  {
    if x / r < k {
      MulMonotone(r, x / r + 1, k);
    }
  }

  lemma DivCeil(x: nat, r: nat, k: nat)
    requires r > 0 && x < k * r
    ensures x / r < k
  {
    if k <= x / r {
      MulMonotone(r, k, x / r);
    }
  }

  // ----- the decoder's side of the stream

  lemma ReadsSameWindow(input: seq<byte>, k: nat, z: seq<byte>)
    requires Reads(input, k, z)
    ensures Window(input, k) == Window(z, 0)
  {
    assert At(input, k + 0) == At(z, 0) && At(input, k + 1) == At(z, 1);
    assert At(input, k + 2) == At(z, 2) && At(input, k + 3) == At(z, 3);
  }

  lemma WindowShifts(input: seq<byte>, k: nat)
    ensures Window(input, k) < WORD
    ensures Window(input, k + 1) == Window(input, k) * 256 % WORD + At(input, k + 4)
  {
    var tail := At(input, k + 1) * BOTTOM + At(input, k + 2) * 256 + At(input, k + 3);
    assert Window(input, k) * 256 == At(input, k) * WORD + tail * 256;
  }

  /** After a step the decoder has taken in exactly the bytes the encoder emitted for it. */
  lemma ReadsAfter(input: seq<byte>, k: nat, front: seq<byte>, rest: seq<byte>)
    requires Reads(input, k, front + rest)
    ensures Reads(input, k + |front|, rest)
  {
    forall i: nat ensures At(input, k + |front| + i) == At(rest, i) {
      assert At(input, k + (|front| + i)) == At(front + rest, |front| + i);
    }
  }

  lemma ReadsAfterStep(input: seq<byte>, k: nat, c: Coder, steps: seq<Step>)
    requires Ready(c) && Tight(c) && ValidSteps(steps) && steps != []
    requires Reads(input, k, Stream(c, steps))
    ensures Ready(Advance(c, steps[0])) && Tight(Advance(c, steps[0]))
    ensures Reads(input, k + |Emitted(c, steps[0])|, Stream(Advance(c, steps[0]), steps[1..]))
  {
    AdvanceIsReady(c, steps[0]);
    ReadsAfter(input, k, Emitted(c, steps[0]), Stream(Advance(c, steps[0]), steps[1..]));
  }

  // ----- the end of the stream

  ghost predicate Alike(y: seq<byte>, z: seq<byte>) {
    forall i: nat :: At(y, i) == At(z, i)
  }

  lemma AlikeCons(b: byte, y: seq<byte>, z: seq<byte>)
    requires Alike(y, z)
    ensures Alike([b] + y, [b] + z)
  {
    forall i: nat ensures At([b] + y, i) == At([b] + z, i) {
      if i > 0 {
        assert At([b] + y, i) == At(y, i - 1) && At([b] + z, i) == At(z, i - 1);
      }
    }
  }

  lemma AlikeZero(z: seq<byte>)
    requires Alike(z, [])
    ensures Alike([0] + z, [])
  {
    AlikeCons(0, z, []);
    forall i: nat ensures At([0] + z, i) == 0 {
      assert At([0] + z, i) == At([0] + [], i);
    }
  }

  lemma FlushTurn(c: Coder, tail: seq<byte>)
    requires Live(c) && !Settled(c)
    requires Alike(tail, Flush(c.low % TOP * 256))
    ensures Alike([c.low / TOP] + tail, Flush(c.low))
  {
    if c.low == 0 {
      AlikeZero(tail);
    } else {
      ShiftValues(Coder(c.low, 0));
      AlikeCons(c.low / TOP, tail, Flush(c.low % TOP * 256));
    }
  }

  /** Flushing before or after normalisation gives the same bytes up to trailing zeros. */
  lemma {:induction false} ShedThenFlush(c: Coder)
    requires Live(c)
    ensures Live(Normal(c)) && Alike(Shed(c) + Flush(Normal(c).low), Flush(c.low))
    decreases Lag(c), WORD - c.range
  {
    NormalIsReady(c);
    if Settled(c) {
      assert Shed(c) + Flush(Normal(c).low) == Flush(c.low);
    } else {
      SqueezeIsLive(c);
      ShedThenFlush(Squeeze(c));
      var tail := Shed(Squeeze(c)) + Flush(Normal(c).low);
      FlushTurn(c, tail);
      assert Shed(c) + Flush(Normal(c).low) == [c.low / TOP] + tail;
    }
  }

  /** A step that does not move low: an escape. */
  ghost predicate IsEscape(st: Step) {
    ValidStep(st) && st.under == 0
  }

  /** The end of the stream needs no marker: it reads like any number of further escapes. */
  lemma {:induction false} EndReadsAsEscapes(c: Coder, steps: seq<Step>)
    requires Ready(c) && Tight(c) && forall i :: 0 <= i < |steps| ==> IsEscape(steps[i])
    ensures ValidSteps(steps) && Alike(Stream(c, steps), Flush(c.low))
    decreases |steps|
  {
    if steps != [] {
      var d := Advance(c, steps[0]);
      AdvanceIsReady(c, steps[0]);
      EndReadsAsEscapes(d, steps[1..]);
      ScaleIsTight(c, steps[0]);
      ShedThenFlush(Scale(c, steps[0]));
      AlikeAppend(Emitted(c, steps[0]), Stream(d, steps[1..]), Flush(d.low));
    }
  }

  lemma AlikeAppend(front: seq<byte>, y: seq<byte>, z: seq<byte>)
    requires Alike(y, z)
    ensures Alike(front + y, front + z)
  {
    forall i: nat ensures At(front + y, i) == At(front + z, i) {
      if i >= |front| {
        assert At(front + y, i) == At(y, i - |front|) && At(front + z, i) == At(z, i - |front|);
      }
    }
  }
}
