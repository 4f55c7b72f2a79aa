/** The byte loops of compress.c: normalisation and flush on the encoder's side, seed and
    normalisation on the decoder's. */
module RangeLoops {
  import opened Bytes
  import opened RangeCoding
  import opened Ppm

  /** ENET_RANGE_CODER_OUTPUT */
  method Output(value: byte, outData: array<byte>, pos: nat) returns (ok: bool, pos': nat)
    requires pos <= outData.Length
    modifies outData
    ensures ok <==> pos < outData.Length
    ensures ok ==> pos' == pos + 1 && outData[..pos'] == old(outData[..pos]) + [value]
  {
    if pos >= outData.Length { return false, pos; }
    outData[pos] := value;
    ok, pos' := true, pos + 1;
  }

  /** The loop of ENET_RANGE_CODER_ENCODE.  `ok` is false when the output buffer is full. */
  method EmitSettled(low: nat, range: nat, outData: array<byte>, pos: nat)
    returns (ok: bool, low': nat, range': nat, pos': nat)
    requires Live(Coder(low, range)) && pos <= outData.Length
    modifies outData
    ensures ok <==> pos + |Shed(Coder(low, range))| <= outData.Length
    ensures ok ==> Coder(low', range') == Normal(Coder(low, range))
    ensures ok ==> pos' == pos + |Shed(Coder(low, range))|
    ensures ok ==> outData[..pos'] == old(outData[..pos]) + Shed(Coder(low, range))
  {
    hide Normal, Shed, Lag, Live, Squeeze;
    low', range', pos' := low, range, pos;
    while true
      invariant Live(Coder(low', range')) && Normal(Coder(low', range')) == Normal(Coder(low, range))
      invariant pos <= pos' <= outData.Length
      invariant outData[..pos'] + Shed(Coder(low', range')) == old(outData[..pos]) + Shed(Coder(low, range))
      decreases Lag(Coder(low', range')), WORD - range'
    {
      ghost var now := Coder(low', range');
      Turn(now);
      if low' / TOP != (low' + range') % WORD / TOP {
        if range' >= BOTTOM { break; }
        range' := (WORD - low') % BOTTOM;
      }
      assert |outData[..pos'] + Shed(now)| == |old(outData[..pos]) + Shed(Coder(low, range))|;
      ok, pos' := Output(low' / TOP, outData, pos');
      if !ok { return; }
      range' := range' * 256 % WORD;
      low' := low' * 256 % WORD;
    }
    ok := true;
  }

  /** ENET_RANGE_CODER_ENCODE */
  method EncodeRange(low: nat, range: nat, under: nat, count: nat, total: nat, outData: array<byte>, pos: nat)
    returns (ok: bool, low': nat, range': nat, pos': nat)
    requires Ready(Coder(low, range)) && Workable(Step(under, count, total)) && pos <= outData.Length
    modifies outData
    ensures ok <==> pos + |Emitted(Coder(low, range), Step(under, count, total))| <= outData.Length
    ensures ok ==> Coder(low', range') == Advance(Coder(low, range), Step(under, count, total))
    ensures ok ==> pos' == pos + |Emitted(Coder(low, range), Step(under, count, total))|
    ensures ok ==> outData[..pos'] == old(outData[..pos]) + Emitted(Coder(low, range), Step(under, count, total))
  {
    range' := range / total;
    low' := (low + under * range') % WORD;
    range' := range' * count % WORD;
    ScaleIsLive(Coder(low, range), Step(under, count, total));
    ok, low', range', pos' := EmitSettled(low', range', outData, pos);
  }

  /** The bytes in `out` and the stream of the steps still to be coded make up `whole`. */
  ghost predicate Completes(out: seq<byte>, c: Coder, steps: seq<Step>, whole: seq<byte>) {
    Ready(c) && Tight(c) && ValidSteps(steps) && out + Stream(c, steps) == whole
  }

  lemma StepCompletes(out: seq<byte>, c: Coder, st: Step, later: seq<Step>, whole: seq<byte>)
    requires Completes(out, c, [st] + later, whole)
    ensures Ready(c) && Workable(st)
    ensures Completes(out + Emitted(c, st), Advance(c, st), later, whole)
    ensures |out| + |Emitted(c, st)| <= |whole|
  {
    assert ([st] + later)[0] == st && ([st] + later)[1..] == later;
    AdvanceIsReady(c, st);
  }

  method EncodeStep(low: nat, range: nat, under: nat, count: nat, total: nat,
                    outData: array<byte>, pos: nat, ghost later: seq<Step>, ghost whole: seq<byte>)
    returns (ok: bool, low': nat, range': nat, pos': nat)
    requires pos <= outData.Length
    requires Completes(outData[..pos], Coder(low, range), [Step(under, count, total)] + later, whole)
    modifies outData
    ensures ok ==> pos' <= outData.Length && Completes(outData[..pos'], Coder(low', range'), later, whole)
    ensures !ok ==> |whole| > outData.Length
  {
    StepCompletes(outData[..pos], Coder(low, range), Step(under, count, total), later, whole);
    hide Completes, Ready, Workable, Advance, Emitted;
    ok, low', range', pos' := EncodeRange(low, range, under, count, total, outData, pos);
  }

  /** The branches on `count` in the compressor: the byte, an escape, or nothing. */
  method EncodeChoice(low: nat, range: nat, escapes: nat, total: nat, under: nat, count: nat,
                      outData: array<byte>, pos: nat, ghost later: seq<Step>, ghost whole: seq<byte>)
    returns (ok: bool, low': nat, range': nat, pos': nat)
    requires pos <= outData.Length
    requires Completes(outData[..pos], Coder(low, range), Choice(escapes, total, under, count) + later, whole)
    modifies outData
    ensures ok ==> pos' <= outData.Length && Completes(outData[..pos'], Coder(low', range'), later, whole)
    ensures !ok ==> |whole| > outData.Length
  {
    hide Completes;
    if count > 0 {
      ok, low', range', pos' := EncodeStep(low, range, escapes + under, count, total, outData, pos, later, whole);
    } else if escapes > 0 && escapes < total {
      ok, low', range', pos' := EncodeStep(low, range, 0, escapes, total, outData, pos, later, whole);
    } else {
      ok, low', range', pos' := true, low, range, pos;
      assert Choice(escapes, total, under, count) + later == later;
    }
  }

  /** ENET_RANGE_CODER_FLUSH */
  method FlushRange(low: nat, outData: array<byte>, pos: nat) returns (ok: bool, pos': nat)
    requires low < WORD && pos <= outData.Length
    modifies outData
    ensures ok <==> pos + |Flush(low)| <= outData.Length
    ensures ok ==> pos' == pos + |Flush(low)| && outData[..pos'] == old(outData[..pos]) + Flush(low)
  {
    var left: int := low;
    pos' := pos;
    while left != 0
      invariant 0 <= left < WORD && pos <= pos' <= outData.Length
      invariant outData[..pos'] + Flush(left) == old(outData[..pos]) + Flush(low)
      decreases Filled(left)
    {
      ShiftEmpties(left);
      assert |outData[..pos'] + Flush(left)| == |old(outData[..pos]) + Flush(low)|;
      ok, pos' := Output(left / TOP, outData, pos');
      if !ok { return; }
      left := left * 256 % WORD;
    }
    ok := true;
  }

  /** Where the decoder's read pointer is when it has taken in `k` bytes beyond the first four. */
  function Cursor(input: seq<byte>, k: nat): nat {
    if k + 4 < |input| then k + 4 else |input|
  }

  /** ENET_RANGE_CODER_SEED */
  method SeedRange(input: seq<byte>) returns (code: nat, inPos: nat)
    ensures code == Window(input, 0) && inPos == Cursor(input, 0)
  {
    code, inPos := 0, 0;
    if inPos < |input| { code := code + input[inPos] * TOP; inPos := inPos + 1; }
    if inPos < |input| { code := code + input[inPos] * BOTTOM; inPos := inPos + 1; }
    if inPos < |input| { code := code + (input[inPos] as int) * 256; inPos := inPos + 1; }
    if inPos < |input| { code := code + input[inPos]; inPos := inPos + 1; }
  }

  /** The loop of ENET_RANGE_CODER_DECODE. */
  method AbsorbSettled(low: nat, range: nat, code: nat, input: seq<byte>, inPos: nat, ghost k: nat)
    returns (low': nat, range': nat, code': nat, inPos': nat, ghost k': nat)
    requires Live(Coder(low, range)) && code == Window(input, k) && inPos == Cursor(input, k)
    ensures Coder(low', range') == Normal(Coder(low, range)) && k' == k + |Shed(Coder(low, range))|
    ensures code' == Window(input, k') && inPos' == Cursor(input, k')
  {
    hide Normal, Shed, Lag, Live, Squeeze, Window;
    low', range', code', inPos', k' := low, range, code, inPos, k;
    while true
      invariant Live(Coder(low', range')) && Normal(Coder(low', range')) == Normal(Coder(low, range))
      invariant k' + |Shed(Coder(low', range'))| == k + |Shed(Coder(low, range))|
      invariant code' == Window(input, k') && inPos' == Cursor(input, k')
      decreases Lag(Coder(low', range')), WORD - range'
    {
      Turn(Coder(low', range'));
      if low' / TOP != (low' + range') % WORD / TOP {
        if range' >= BOTTOM { break; }
        range' := (WORD - low') % BOTTOM;
      }
      WindowShifts(input, k');
      code' := code' * 256 % WORD;
      if inPos' < |input| {
        code' := code' + input[inPos'];
        inPos' := inPos' + 1;
      }
      k' := k' + 1;
      range' := range' * 256 % WORD;
      low' := low' * 256 % WORD;
    }
  }

  /** ENET_RANGE_CODER_DECODE; ENET_RANGE_CODER_READ has already divided `range` by the total. */
  method DecodeRange(low: nat, range: nat, code: nat, under: nat, count: nat, ghost whole: nat, ghost total: nat,
                     input: seq<byte>, inPos: nat, ghost k: nat)
    returns (low': nat, range': nat, code': nat, inPos': nat, ghost k': nat)
    requires Ready(Coder(low, whole)) && Workable(Step(under, count, total)) && range == whole / total
    requires code == Window(input, k) && inPos == Cursor(input, k)
    ensures Coder(low', range') == Advance(Coder(low, whole), Step(under, count, total))
    ensures k' == k + |Emitted(Coder(low, whole), Step(under, count, total))|
    ensures code' == Window(input, k') && inPos' == Cursor(input, k')
  {
    low' := (low + under * range) % WORD;
    range' := range * count % WORD;
    ScaleIsLive(Coder(low, whole), Step(under, count, total));
    low', range', code', inPos', k' := AbsorbSettled(low', range', code, input, inPos, k);
  }
}
