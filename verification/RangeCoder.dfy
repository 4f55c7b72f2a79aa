/** enet_range_coder_compress and enet_range_coder_decompress, in place on an array of 4096 symbols. */
module RangeCoder {
  import opened Bytes
  import opened Collections
  import opened RangeCoding
  import opened Frequencies
  import opened Trees
  import opened Symbols
  import opened Contexts
  import opened Ppm
  import opened Memory
  import opened Naming
  import opened Inputs
  import opened Decodable
  import opened Patching
  import opened ContextWalks
  import opened RangeLoops

  class RangeCoder {
    const symbols: array<Symbol>

    constructor ()
      ensures fresh(symbols) && symbols.Length == SYMBOLS
    {
      symbols := new Symbol[SYMBOLS];
    }

    /** ENET_SYMBOL_CREATE */
    method CreateSymbol(value: byte, count: byte, nextSymbol: nat) returns (symbol: nat, next: nat)
      requires nextSymbol < symbols.Length
      modifies symbols
      ensures symbols[..] == old(symbols[..])[nextSymbol := Fresh(value, count)]
      ensures symbol == nextSymbol && next == nextSymbol + 1
    {
      symbol := nextSymbol;
      next := nextSymbol + 1;
      symbols[symbol] := Fresh(value, count);
    }

    /** A new left child: ENET_SYMBOL_CREATE and the link to it. */
    method CreateLeft(node: nat, value: byte, count: byte, nextSymbol: nat) returns (symbol: nat, next: nat)
      requires node < nextSymbol < symbols.Length
      modifies symbols
      ensures symbols[..] == WithLeft(old(symbols[..]), node, nextSymbol, Fresh(value, count))
      ensures symbol == nextSymbol && next == nextSymbol + 1
    {
      symbol, next := CreateSymbol(value, count, nextSymbol);
      symbols[node] := symbols[node].(left := (symbol - node) % 0x1_0000);
    }

    method CreateRight(node: nat, value: byte, count: byte, nextSymbol: nat) returns (symbol: nat, next: nat)
      requires node < nextSymbol < symbols.Length
      modifies symbols
      ensures symbols[..] == WithRight(old(symbols[..]), node, nextSymbol, Fresh(value, count))
      ensures symbol == nextSymbol && next == nextSymbol + 1
    {
      symbol, next := CreateSymbol(value, count, nextSymbol);
      symbols[node] := symbols[node].(right := (symbol - node) % 0x1_0000);
    }

    /** The loop of ENET_CONTEXT_ENCODE, from the top of a tree. */
    method EncodeWalk(top: nat, value: byte, update: byte, before: nat, minimum: nat, nextSymbol: nat,
                      ghost t: Tree, ghost result: seq<Symbol>, ghost outcome: Outcome)
      returns (symbol: nat, next: nat, under: int, count: nat)
      requires symbols.Length == SYMBOLS && nextSymbol < SYMBOLS && t.Node? && top == t.slot
      requires EncodeFrom(symbols[..], t, value, update, before, minimum, nextSymbol, result, outcome)
      modifies symbols
      ensures symbols[..] == result && outcome == Outcome(symbol, next, under, count)
    {
      hide EncodeFrom, WithLeft, WithRight;
      var node := top;
      under, count, next := before, minimum, nextSymbol;
      ghost var sub := t;
      while true
        invariant sub.Node? && node == sub.slot && next == nextSymbol
        invariant EncodeFrom(symbols[..], sub, value, update, under, count, nextSymbol, result, outcome)
        decreases sub
      {
        ghost var s := symbols[..];
        EncodeTurn(s, sub, value, update, under, count, nextSymbol, result, outcome);
        var n := symbols[node];
        if value < n.value {
          symbols[node] := n.(under := (n.under + update) % 0x1_0000);
          assert symbols[..] == RaisedUnder(s, node, update);
          if n.left != 0 {
            node := node + n.left;
            sub := sub.left;
            continue;
          }
          symbol, next := CreateLeft(node, value, update, next);
        } else if value > n.value {
          under := (under + n.under) % 0x1_0000;
          if n.right != 0 {
            node := node + n.right;
            sub := sub.right;
            continue;
          }
          symbol, next := CreateRight(node, value, update, next);
        } else {
          count := count + n.count;
          under := (under + n.under - n.count) % 0x1_0000;
          symbols[node] := n.(under := (n.under + update) % 0x1_0000, count := (n.count + update) % 256);
          symbol := node;
        }
        break;
      }
    }

    /** The loop of ENET_CONTEXT_TRY_DECODE (minimum 0), from the top of a tree: a missing child ends it. */
    method TryDecodeWalk(top: nat, code: nat, update: byte, nextSymbol: nat,
                         ghost t: Tree, ghost cap: nat, ghost result: seq<Symbol>, ghost outcome: Decoding)
      returns (ok: bool, value: byte, symbol: nat, under: nat, count: nat)
      requires symbols.Length == SYMBOLS && nextSymbol < SYMBOLS && t.Node? && top == t.slot
      requires DecodeFrom(symbols[..], t, code, update, 0, 0, nextSymbol, cap, result, outcome)
      modifies symbols
      ensures outcome == if ok then Decoding(value, Outcome(symbol, nextSymbol, under, count)) else Missing
      ensures ok ==> symbols[..] == result
    {
      hide DecodeFrom;
      var node := top;
      ok, value, symbol, under, count := true, 0, 0, 0, 0;
      ghost var sub := t;
      while true
        invariant sub.Node? && node == sub.slot && count == 0
        invariant DecodeFrom(symbols[..], sub, code, update, 0, under, nextSymbol, cap, result, outcome)
        decreases sub
      {
        ghost var s := symbols[..];
        TryStep(s, sub, code, update, under, nextSymbol, cap, result, outcome);
        var n := symbols[node];
        var after := (under + n.under) % 0x1_0000;
        var before := n.count;
        if code >= after {
          under := (under + n.under) % 0x1_0000;
          if n.right == 0 { ok := false; break; }
          node := node + n.right;
          sub := sub.right;
        } else if code < after - before {
          symbols[node] := n.(under := (n.under + update) % 0x1_0000);
          assert symbols[..] == RaisedUnder(s, node, update);
          if n.left == 0 { ok := false; break; }
          node := node + n.left;
          sub := sub.left;
        } else {
          value := n.value;
          count := count + n.count;
          under := after - before;
          symbols[node] := n.(under := (n.under + update) % 0x1_0000, count := (n.count + update) % 256);
          symbol := node;
          break;
        }
      }
    }

    /** The loop of ENET_CONTEXT_ROOT_DECODE (minimum 1), from the top of a tree: a missing child is created. */
    method RootDecodeWalk(top: nat, code: nat, update: byte, nextSymbol: nat,
                          ghost t: Tree, ghost cap: nat, ghost result: seq<Symbol>, ghost outcome: Decoding)
      returns (value: byte, symbol: nat, next: nat, under: nat, count: nat)
      requires symbols.Length == SYMBOLS && nextSymbol < SYMBOLS && t.Node? && top == t.slot
      requires DecodeFrom(symbols[..], t, code, update, 1, 0, nextSymbol, cap, result, outcome)
      modifies symbols
      ensures outcome == Decoding(value, Outcome(symbol, next, under, count))
      ensures symbols[..] == result
    {
      hide DecodeFrom, WithLeft, WithRight;
      var node := top;
      next, under, count := nextSymbol, 0, 1;
      ghost var sub := t;
      while true
        invariant sub.Node? && node == sub.slot && next == nextSymbol && count == 1
        invariant DecodeFrom(symbols[..], sub, code, update, 1, under, nextSymbol, cap, result, outcome)
        decreases sub
      {
        ghost var s := symbols[..];
        RootStep(s, sub, code, update, under, nextSymbol, cap, result, outcome);
        var n := symbols[node];
        var after := (under + n.under + (n.value + 1)) % 0x1_0000;
        var before := n.count + 1;
        if code >= after {
          under := (under + n.under) % 0x1_0000;
          if n.right != 0 {
            node := node + n.right;
            sub := sub.right;
            continue;
          }
          value := (n.value + 1 + (code - after)) % 256;
          under := code;
          symbol, next := CreateRight(node, value, update, next);
        } else if code < after - before {
          symbols[node] := n.(under := (n.under + update) % 0x1_0000);
          assert symbols[..] == RaisedUnder(s, node, update);
          if n.left != 0 {
            node := node + n.left;
            sub := sub.left;
            continue;
          }
          value := (n.value - 1 - (after - before - code - 1)) % 256;
          under := code;
          symbol, next := CreateLeft(node, value, update, next);
        } else {
          value := n.value;
          count := count + n.count;
          under := after - before;
          symbols[node] := n.(under := (n.under + update) % 0x1_0000, count := (n.count + update) % 256);
          symbol := node;
        }
        break;
      }
    }

    /** The body of the loop of enet_symbol_rescale: one node and its left subtree. */
    method RescaleNode(node: nat, ghost t: Tree, ghost cap: nat)
      requires symbols.Length == SYMBOLS && t.Node? && node == t.slot && Shrinkable(symbols[..], t, cap)
      modifies symbols
      ensures Below(t, SYMBOLS) && symbols[..] == ShrunkenHalf(old(symbols[..]), t)
      decreases Size(t), 0
    {
      ghost var s := symbols[..];
      RescaleLeft(s, t, cap);
      hide RescaleFrom, Shrunken, Below, Halve, Mass, Half, Size, Shrinkable;
      var n := symbols[node];
      var count := Half(n.count);
      symbols[node] := n.(count := count, under := count);
      assert symbols[..] == ShrunkenNode(s, node);
      if n.left != 0 {
        ghost var s1 := symbols[..];
        var left := SymbolRescale(node + n.left, t.left, cap, Shrunken(s1, t.left), Mass(Halve(t.left)));
        symbols[node] := symbols[node].(under := (symbols[node].under + left) % 0x1_0000);
      }
    }

    /** enet_symbol_rescale */
    method SymbolRescale(symbol: nat, ghost t: Tree, ghost cap: nat, ghost result: seq<Symbol>, ghost sum: nat)
      returns (total: nat)
      requires symbols.Length == SYMBOLS && t.Node? && symbol == t.slot
      requires RescaleFrom(symbols[..], t, cap, 0, result, sum)
      modifies symbols
      ensures symbols[..] == result && total == sum
      decreases Size(t), 1
    {
      var node := symbol;
      ghost var rest := t;
      total := 0;
      hide Shrunken, ShrunkenHalf, Halve, Mass, Size, Shrinkable;
      while true
        invariant rest.Node? && node == rest.slot && Size(rest) <= Size(t)
        invariant RescaleFrom(symbols[..], rest, cap, total, result, sum)
        decreases Size(rest)
      {
        ghost var s := symbols[..];
        RescaleNode(node, rest, cap);
        RescaleRight(s, rest, cap, total, result, sum, symbols[..]);
        total := (total + symbols[node].under) % 0x1_0000;
        if symbols[node].right == 0 { break; }
        node := node + symbols[node].right;
        rest := rest.right;
      }
    }

    /** The walk of ENET_CONTEXT_ENCODE: the first symbol of the context, or down its tree. */
    method EncodeTree(context: nat, value: byte, update: byte, minimum: nat, nextSymbol: nat,
                      ghost t: Tree, ghost result: seq<Symbol>, ghost outcome: Outcome)
      returns (symbol: nat, next: nat, under: int, count: nat)
      requires symbols.Length == SYMBOLS && context < nextSymbol < SYMBOLS
      requires symbols[context].symbols == Offset(t, context) && (symbols[context].symbols == 0 <==> t.Leaf?)
      requires t.Leaf? ==>
        && result == FirstSymbol(symbols[..], context, nextSymbol, Fresh(value, update))
        && outcome == Outcome(nextSymbol, nextSymbol + 1, Weight(value, minimum), minimum)
      requires t.Node? ==>
        EncodeFrom(symbols[..], t, value, update, Weight(value, minimum), minimum, nextSymbol, result, outcome)
      modifies symbols
      ensures symbols[..] == result && outcome == Outcome(symbol, next, under, count)
    {
      hide EncodeFrom, Weight;
      if symbols[context].symbols == 0 {
        under, count := Weight(value, minimum), minimum;
        symbol, next := CreateSymbol(value, update, nextSymbol);
        symbols[context] := symbols[context].(symbols := (symbol - context) % 0x1_0000);
      } else {
        symbol, next, under, count := EncodeWalk(context + symbols[context].symbols, value, update,
                                                 Weight(value, minimum), minimum, nextSymbol, t, result, outcome);
      }
    }

    /** ENET_CONTEXT_ENCODE */
    method ContextEncode(context: nat, value: byte, update: byte, minimum: nat, nextSymbol: nat, ghost sh: Shadow)
      returns (symbol: nat, next: nat, under: int, count: nat, ghost sh': Shadow)
      requires symbols.Length == SYMBOLS && Shape(symbols[..], sh) && Numbers(symbols[..], sh)
      requires context < |sh.trees| == nextSymbol < SYMBOLS && minimum == MinimumAt(context) && update == Delta(minimum)
      modifies symbols
      ensures var p := ByValue(sh.trees[context], value);
        && Descended(old(symbols[..]), sh, context, p, value, symbols[..], sh', symbol, next)
        && Shape(symbols[..], sh') && Due(symbols[..], sh', context, count)
        && under == Weight(value, minimum) + Before(sh.trees[context], value)
        && count == Found(sh.trees[context], p, minimum)
    {
      hide Shape, Numbers, Due, EncodeFrom, ByValue, Target, Walked, Before, Found, Below, Fits, Weight, Descended,
           Grown;
      ghost var s := symbols[..];
      ghost var t := sh.trees[context];
      ghost var p := ByValue(t, value);
      ShapeSizes(s, sh);
      EncodeReady(s, sh, context, value);
      ghost var result := WalkedFrom(s, context, t, p, value, update, nextSymbol);
      ghost var outcome := Outcome(if Created(t, p) then nextSymbol else Target(t, p).slot,
                                   if Created(t, p) then nextSymbol + 1 else nextSymbol,
                                   Weight(value, minimum) + Before(t, value), Found(t, p, minimum));
      symbol, next, under, count := EncodeTree(context, value, update, minimum, nextSymbol, t, result, outcome);
      sh' := Grown(sh, context, p, value);
      Descends(s, sh, context, p, value, result, symbol, next);
    }

    /** ENET_CONTEXT_TRY_DECODE in a context other than the root. */
    method TryDecode(context: nat, code: nat, nextSymbol: nat, ghost sh: Shadow)
      returns (ok: bool, value: byte, symbol: nat, under: nat, count: nat, ghost sh': Shadow)
      requires symbols.Length == SYMBOLS && Shape(symbols[..], sh) && Numbers(symbols[..], sh)
      requires 0 < context < |sh.trees| == nextSymbol < SYMBOLS
      modifies symbols
      ensures var p := ByCode(sh.trees[context], code, 0, 0);
        && ok == Target(sh.trees[context], p).Node?
        && (ok ==> Descended(old(symbols[..]), sh, context, p, value, symbols[..], sh', symbol, nextSymbol)
                   && Shape(symbols[..], sh') && Due(symbols[..], sh', context, count)
                   && Landing(value, under, count) == Land(sh.trees[context], code, 0, 0)
                   && count == Found(sh.trees[context], p, 0))
    {
      ghost var s := symbols[..];
      ghost var t := sh.trees[context];
      ghost var p := ByCode(t, code, 0, 0);
      DecodeReady(s, sh, context, code);
      ghost var result := DecodeResult(s, sh, context, code);
      ghost var outcome := DecodeOutcome(t, code, 0, 0, nextSymbol);
      assert result == WalkedFrom(s, context, t, p, Land(t, code, 0, 0).value, Delta(0), nextSymbol);
      hide Shape, Numbers, Due, DecodeFrom, DecodeOutcome, ByCode, Target, Walked, Land, Found, Below, Fits, WalkedFrom,
           DecodeResult;
      if symbols[context].symbols == 0 {
        ok, value, symbol, under, count := false, 0, 0, 0, 0;
        sh' := sh;
        return;
      }
      ok, value, symbol, under, count := TryDecodeWalk(context + symbols[context].symbols, code, SUB_SYMBOL_DELTA,
        nextSymbol, t, Cap(0), result, outcome);
      sh' := sh;
      if ok {
        sh' := Grown(sh, context, p, value);
        Descends(s, sh, context, p, value, result, symbol, nextSymbol);
      }
    }

    /** ENET_CONTEXT_ROOT_DECODE */
    method RootDecode(code: nat, nextSymbol: nat, ghost sh: Shadow)
      returns (value: byte, symbol: nat, next: nat, under: nat, count: nat, ghost sh': Shadow)
      requires symbols.Length == SYMBOLS && Shape(symbols[..], sh) && Numbers(symbols[..], sh)
      requires |sh.trees| == nextSymbol < SYMBOLS
      modifies symbols
      ensures var p := ByCode(sh.trees[0], code, 1, 0);
        && Descended(old(symbols[..]), sh, 0, p, value, symbols[..], sh', symbol, next)
        && Shape(symbols[..], sh') && Due(symbols[..], sh', 0, count)
        && Landing(value, under, count) == Land(sh.trees[0], code, 1, 0)
        && count == Found(sh.trees[0], p, 1)
    {
      ghost var s := symbols[..];
      ghost var t := sh.trees[0];
      ghost var p := ByCode(t, code, 1, 0);
      DecodeReady(s, sh, 0, code);
      ghost var result := DecodeResult(s, sh, 0, code);
      ghost var outcome := DecodeOutcome(t, code, 1, 0, nextSymbol);
      assert result == WalkedFrom(s, 0, t, p, Land(t, code, 1, 0).value, Delta(1), nextSymbol);
      assert t.Leaf? ==> var s1 := s[nextSymbol := Fresh(code % 256, 3)];
                         result == s1[0 := s1[0].(symbols := nextSymbol % 0x1_0000)];
      hide Shape, Numbers, Due, DecodeFrom, DecodeOutcome, ByCode, Target, Walked, Land, Found, Below, Fits, WalkedFrom,
           DecodeResult;
      if symbols[0].symbols == 0 {
        value, under, count := code % 256, code, 1;
        symbol, next := CreateSymbol(value, SYMBOL_DELTA, nextSymbol);
        symbols[0] := symbols[0].(symbols := symbol % 0x1_0000);
        assert symbols[..] == result;
      } else {
        value, symbol, next, under, count := RootDecodeWalk(symbols[0].symbols, code, SYMBOL_DELTA, nextSymbol,
          t, Cap(1), result, outcome);
      }
      sh' := Grown(sh, 0, p, value);
      Descends(s, sh, 0, p, value, result, symbol, next);
    }

    /** ENET_CONTEXT_RESCALE */
    method ContextRescale(context: nat, minimum: nat, ghost t: Tree)
      requires symbols.Length == SYMBOLS && context < SYMBOLS && After(t, context)
      requires symbols[context].symbols == Offset(t, context) && Shrinkable(symbols[..], t, 255)
      modifies symbols
      ensures Below(t, SYMBOLS) && symbols[..] == Rescaled(old(symbols[..]), context, t, minimum)
    {
      ghost var s := symbols[..];
      RescaleReady(s, t);
      hide Shrinkable, RescaleFrom, Shrunken, Mass, Halve, Below, Half;
      var total := 0;
      if symbols[context].symbols != 0 {
        total := SymbolRescale(context + symbols[context].symbols, t, 255, Shrunken(s, t), Mass(Halve(t)));
      }
      assert symbols[..] == Shrunken(s, t);
      symbols[context] := symbols[context].(total := total);
      symbols[context] := symbols[context].(escapes := Half(symbols[context].escapes));
      symbols[context] := symbols[context].(total := (total + symbols[context].escapes + 256 * minimum) % 0x1_0000);
    }

    /** Adding the new byte to the totals. */
    method CountIn(context: nat, count: nat, minimum: nat)
      requires context < symbols.Length
      modifies symbols
      ensures symbols[..] == Counted(old(symbols[..]), context, count, minimum)
    {
      if count == 0 {
        symbols[context] := symbols[context].(escapes := (symbols[context].escapes + SUB_ESCAPE_DELTA) % 0x1_0000,
                                              total := (symbols[context].total + SUB_ESCAPE_DELTA) % 0x1_0000);
      }
      symbols[context] := symbols[context].(total := (symbols[context].total + Delta(minimum)) % 0x1_0000);
    }

    /** What every context does with its totals after coding a byte. */
    method Settle(context: nat, count: nat, minimum: nat, ghost sh: Shadow) returns (ghost sh': Shadow)
      requires symbols.Length == SYMBOLS && Shape(symbols[..], sh) && context < |sh.trees|
      requires minimum == MinimumAt(context)
      requires Due(symbols[..], sh, context, count)
      modifies symbols
      ensures sh' == AdaptedShadow(sh, old(symbols[..]), context, count)
      ensures |sh'.trees| == |sh.trees| && sh'.names == sh.names
      ensures Shape(symbols[..], sh') && Numbers(symbols[..], sh')
      ensures OnlyTotals(old(symbols[..]), symbols[..], context, Slots(sh.trees[context]))
      ensures symbols[context].escapes == AdaptedEscapes(old(symbols[..]), context, count, minimum)
    {
      ghost var s := symbols[..];
      ghost var t := sh.trees[context];
      AdaptKeepsShape(s, sh, context, count);
      SettleReady(s, sh, context, count);
      sh' := AdaptedShadow(sh, s, context, count);
      ghost var result := Adapted(s, context, t, count, minimum);
      hide Shape, Due, Numbers, Below, OnlyTotals, AdaptedShadow, Shrinkable, Rescaled, AdaptedEscapes, Counted;
      CountIn(context, count, minimum);
      if count > 0xFF - 2 * Delta(minimum) + minimum || symbols[context].total > BOTTOM - 0x100 {
        ContextRescale(context, minimum, t);
      }
      assert symbols[..] == result;
    }

    /** Writing a symbol through `parent`: to `predicted`, or to the link of the last symbol. */
    method Link(link: int, predicted: nat, symbol: nat) returns (predicted': nat)
      requires link < symbols.Length && symbol < 0x1_0000
      modifies symbols
      ensures symbols[..] == WithParent(old(symbols[..]), link, symbol)
      ensures predicted' == if link < 0 then symbol else predicted
    {
      predicted' := predicted;
      if link < 0 {
        predicted' := symbol;
      } else {
        symbols[link] := symbols[link].(parent := symbol);
      }
    }

    // ----- one context in the compressor

    /** The compressor in one context: walk, link, code the byte or an escape, settle the totals.
        `later` are the steps that follow, for the byte and all bytes after it. */
    method EncodeContext(context: nat, value: byte, minimum: nat, link: int, predicted: nat, nextSymbol: nat,
                         low: nat, range: nat, outData: array<byte>, pos: nat,
                         ghost sh: Shadow, ghost model: Model, ghost later: seq<Step>, ghost whole: seq<byte>)
      returns (ok: bool, found: bool, predicted': nat, symbol: nat, next: nat, low': nat, range': nat, pos': nat,
               ghost sh': Shadow)
      requires symbols.Length == SYMBOLS && |sh.trees| == |sh.names| == nextSymbol < SYMBOLS && pos <= outData.Length
      requires context < nextSymbol && link < nextSymbol && minimum == MinimumAt(context) && Sane(model)
      requires Completes(outData[..pos], Coder(low, range), ContextSteps(model, sh.names[context], Char(value)) + later,
                         whole)
      requires BeforeContext(symbols[..], sh, context, value, model, link)
      modifies symbols, outData
      ensures ok ==> pos' <= outData.Length && Completes(outData[..pos'], Coder(low', range'), later, whole)
      ensures !ok ==> |whole| > outData.Length
      ensures ok ==> AfterContext(old(symbols[..]), sh, context, value, model, symbols[..], sh', symbol, next, found)
      ensures ok ==> predicted' == (if link < 0 then symbol else predicted)
    {
      hide Standing, Models, Shape, Numbers, Due, Fits, Entered, Descended, OnlyTotals, Learn1, Sane, Completes, Coded,
           AfterContext, WithParent, AdaptedShadow, AdaptedEscapes, ContextSteps, Choice, ByValue, Found, Before,
           Lookup, Total;
      ghost var s := symbols[..];
      ghost var n := sh.names[context];
      ghost var p := ByValue(sh.trees[context], value);
      StandingAt(s, sh, link, context);
      NumbersAgree(s, sh, context, value, model, link);
      StandingShape(s, sh, link);
      var under: int, count;
      ghost var sh1;
      symbol, next, under, count, sh1 := ContextEncode(context, value, Delta(minimum), minimum, nextSymbol, sh);
      DescendedSizes(s, sh, context, p, value, symbols[..], sh1, symbol, next);
      ghost var walked := symbols[..];
      predicted' := Link(link, predicted, symbol);
      ghost var mid := symbols[..];
      LinkedUp(s, sh, context, p, value, link, walked, sh1, symbol, next, count, mid);
      ChoiceIsContextSteps(model, n, value, Lookup(model, n), minimum, symbols[context].total, under, count);
      ok, low', range', pos' := EncodeChoice(low, range, symbols[context].escapes, symbols[context].total, under, count,
        outData, pos, later, whole);
      found, sh' := count > 0, sh1;
      assert symbols[..] == mid;
      if ok {
        sh' := Settle(context, count, minimum, sh1);
        ghost var after := symbols[..];
        assert after[context] == symbols[context];
        ContextDone(s, sh, context, value, link, mid, sh1, symbol, next, after, sh', count, model);
      }
    }

    /** One context of one byte: it ends the byte, or passes it on to the next shorter context. */
    method EncodeHere(subcontext: nat, value: byte, minimum: nat, link: int, predicted: nat, nextSymbol: nat,
                      low: nat, range: nat, outData: array<byte>, pos: nat,
                      ghost sh: Shadow, ghost model: Model, ghost name: Name, ghost goal: Model, ghost used: nat,
                      ghost later: seq<Step>, ghost whole: seq<byte>)
      returns (ok: bool, found: bool, predicted': nat, symbol: nat, next: nat, low': nat, range': nat, pos': nat,
               ghost sh': Shadow, ghost model': Model)
      requires symbols.Length == SYMBOLS && pos <= outData.Length && minimum == MinimumAt(subcontext)
      requires Coding(symbols[..], sh, subcontext, value, model, link, predicted, name, goal, used,
                      outData[..pos], Coder(low, range), later, whole)
      requires subcontext < nextSymbol == |sh.names| < SYMBOLS
      modifies symbols, outData
      ensures ok ==> pos' <= outData.Length && |sh'.names| == next && (subcontext == 0 ==> found)
      ensures !ok ==> |whole| > outData.Length
      ensures ok && found ==> Completes(outData[..pos'], Coder(low', range'), later, whole)
      ensures ok && found ==> Ended(symbols[..], sh', goal, predicted', name + [value]) && next == used
      ensures ok && !found ==>
        && symbols[subcontext].parent < next < SYMBOLS
        && |sh'.names[symbols[subcontext].parent]| < |sh.names[subcontext]|
        && Coding(symbols[..], sh', symbols[subcontext].parent, value, model', symbol, predicted', name, goal, used,
                  outData[..pos'], Coder(low', range'), later, whole)
    {
      hide Underway, Ended, BeforeContext, AfterContext, Completes, Learn1, Sane, Steps, RestSteps, ContextSteps, Coded,
           Lookup;
      ghost var s := symbols[..];
      ghost var n := sh.names[subcontext];
      UnderwayBefore(s, sh, subcontext, value, model, link, predicted, name, goal, used);
      StepsTurn(model, n, value, later);
      ok, found, predicted', symbol, next, low', range', pos', sh' :=
        EncodeContext(subcontext, value, minimum, link, predicted, nextSymbol, low, range, outData, pos,
                      sh, model, RestSteps(model, n, value) + later, whole);
      model' := Learn1(model, n, value);
      if ok {
        FoundMeans(s, sh, subcontext, value, model, symbols[..], sh', symbol, next, found);
        RestIs(model, n, value, found, later);
        Ends(s, sh, subcontext, value, model, link, predicted, name, goal, used, symbols[..], sh', symbol, next, found,
             predicted');
        if !found {
          Proceeds(s, sh, subcontext, value, model, link, predicted, name, goal, used, symbols[..], sh', symbol, next,
                   predicted');
        }
      }
    }

    /** One byte in the compressor: its contexts from `predicted` down to the first that can code it. */
    method EncodeByte(value: byte, predicted: nat, nextSymbol: nat, low: nat, range: nat, outData: array<byte>,
                      pos: nat, ghost sh: Shadow, ghost model: Model, ghost name: Name, ghost later: seq<Step>,
                      ghost whole: seq<byte>)
      returns (ok: bool, predicted': nat, next: nat, low': nat, range': nat, pos': nat, ghost sh': Shadow)
      requires symbols.Length == SYMBOLS && |sh.names| == nextSymbol < SYMBOLS - ORDER && pos <= outData.Length
      requires |name| <= ORDER && Sane(model)
      requires Completes(outData[..pos], Coder(low, range), Steps(model, name, Char(value)) + later, whole)
      requires Ended(symbols[..], sh, model, predicted, name)
      modifies symbols, outData
      ensures ok ==> pos' <= outData.Length && Completes(outData[..pos'], Coder(low', range'), later, whole)
      ensures !ok ==> |whole| > outData.Length
      ensures ok ==> next == nextSymbol + Growth(model, name, value) == |sh'.names|
      ensures ok ==> Ended(symbols[..], sh', Learn(model, name, value), predicted', name + [value])
    {
      hide Underway, Ended, Completes, Learn, Growth, Sane, Steps;
      ghost var goal, used := Learn(model, name, value), nextSymbol + Growth(model, name, value);
      Begins(symbols[..], sh, predicted, value, model, name);
      var subcontext: nat, link: int, found := predicted, -1, false;
      ghost var m := model;
      low', range', pos', predicted', next, sh' := low, range, pos, predicted, nextSymbol, sh;
      while subcontext != 0
        invariant pos' <= outData.Length && subcontext < next == |sh'.names| < SYMBOLS
        invariant Coding(symbols[..], sh', subcontext, value, m, link, predicted', name, goal, used,
                         outData[..pos'], Coder(low', range'), later, whole)
        decreases |sh'.names[subcontext]|
      {
        ok, found, predicted', link, next, low', range', pos', sh', m :=
          EncodeHere(subcontext, value, 0, link, predicted', next, low', range', outData, pos',
                     sh', m, name, goal, used, later, whole);
        if !ok || found { return; }
        subcontext := symbols[subcontext].parent;
      }
      ok, found, predicted', link, next, low', range', pos', sh', m :=
        EncodeHere(0, value, 1, link, predicted', next, low', range', outData, pos', sh', m, name, goal, used, later,
                   whole);
    }

    // ----- the compressor

    /** ENET_CONTEXT_CREATE for the root */
    method CreateRoot() returns (root: nat, next: nat)
      requires symbols.Length == SYMBOLS
      modifies symbols
      ensures root == 0 && next == 1 && symbols[..] == old(symbols[..])[0 := ROOT]
    {
      root, next := CreateSymbol(0, 0, 0);
      symbols[root] := symbols[root].(escapes := ESCAPE_MINIMUM);
      symbols[root] := symbols[root].(total := ESCAPE_MINIMUM + 256);
      symbols[root] := symbols[root].(symbols := 0);
    }

    /** What follows every byte, in both directions: the context of the next one, and
        ENET_RANGE_CODER_FREE_SYMBOLS. */
    method NextInput(predicted: nat, order: nat, nextSymbol: nat, ghost sh: Shadow, ghost name: Name,
                     ghost genuine: bool, ghost st: State, ghost v: byte)
      returns (predicted': nat, order': nat, next: nat, ghost sh': Shadow)
      requires symbols.Length == SYMBOLS && |sh.names| == nextSymbol && |name| == order + 1 <= ORDER + 1
      requires genuine ==>
        Good(st) && name == st.context + [v] && nextSymbol == st.used + Growth(st.model, st.context, v)
      requires genuine ==> Ended(symbols[..], sh, Learn(st.model, st.context, v), predicted, name)
      requires Poised(symbols[..], sh, predicted, name)
      modifies symbols
      ensures Idle(symbols[..], sh', predicted', order', next)
      ensures genuine ==> AtInput(symbols[..], sh', Next(st, v), predicted', order', next)
    {
      hide Poised, AtInput, Learn, Growth, Models;
      PoisedAt(symbols[..], sh, predicted, name);
      Follows(symbols[..], sh, predicted, name, order);
      predicted', order', next, sh' := predicted, order, nextSymbol, sh;
      if order >= ORDER {
        predicted' := symbols[predicted].parent;
      } else {
        order' := order + 1;
      }
      ghost var name' := if order >= ORDER then name[1..] else name;
      PoisedAt(symbols[..], sh, predicted', name');
      if nextSymbol >= SYMBOLS - ORDER {
        predicted', next := CreateRoot();
        order', sh' := 0, EMPTY;
        EmptyStands(symbols[..]);
        InputIsIdle(symbols[..], sh', INITIAL, 0, 0, 1);
      } else if genuine {
        Continues(symbols[..], sh, st, v, predicted', order', next);
      }
    }

    /** The next byte of the buffers. */
    method NextByte(inBuffers: seq<seq<byte>>, beyond: seq<byte>, inData: seq<byte>, at: nat, buffer: nat)
      returns (more: bool, value: byte, inData': seq<byte>, at': nat, buffer': nat)
      requires at <= |inData| && 1 <= buffer <= |inBuffers| == |beyond|
      ensures at' <= |inData'| && 1 <= buffer' <= |inBuffers|
      ensures var rest := Unread(inData, at, Taken(inBuffers, beyond), buffer);
        && (more <==> rest != [])
        && (more ==> rest[0] == value && rest[1..] == Unread(inData', at', Taken(inBuffers, beyond), buffer'))
    {
      ghost var taken := Taken(inBuffers, beyond);
      ghost var rest := Unread(inData, at, taken, buffer);
      more, value, inData', at', buffer' := true, 0, inData, at, buffer;
      if at' >= |inData'| {
        if buffer' == |inBuffers| { more := false; return; }
        JoinedFrom(taken, buffer');
        inData', at', buffer' := Readable(inBuffers[buffer'], beyond[buffer']), 0, buffer' + 1;
      }
      assert rest == inData'[at'..] + Joined(taken[buffer'..]);
      value := inData'[at'];
      at' := at' + 1;
      assert rest[1..] == inData'[at'..] + Joined(taken[buffer'..]);
    }

    /** enet_range_coder_compress, with room for outData.Length bytes: 0 when the result does not fit. */
    method Compress(inBuffers: seq<seq<byte>>, beyond: seq<byte>, inLimit: nat, outData: array<byte>)
      returns (n: nat, ghost trace: seq<Moment>)
      requires symbols.Length == SYMBOLS && |beyond| == |inBuffers|
      modifies symbols, outData
      ensures n <= outData.Length
      ensures |inBuffers| == 0 || inLimit == 0 || |Compressed(Joined(Taken(inBuffers, beyond)))| > outData.Length ==>
        n == 0
      ensures |inBuffers| != 0 && inLimit != 0 && |Compressed(Joined(Taken(inBuffers, beyond)))| <= outData.Length ==>
        && outData[..n] == Compressed(Joined(Taken(inBuffers, beyond)))
        && Traced(trace, Joined(Taken(inBuffers, beyond))) && trace[|trace| - 1].s == symbols[..]
    {
      hide Ended, Poised, Idle, AtInput, Completes, Learn, Growth, AllSteps, Steps, Good, Unread, Compressed, Joined,
           Next, Taken, Traced, Reached;
      trace := [];
      if |inBuffers| == 0 || inLimit == 0 { return 0, []; }
      ghost var taken := Taken(inBuffers, beyond);
      ghost var whole := Compressed(Joined(taken));
      var inData, buffer: nat, at: nat := inBuffers[0], 1, 0;
      var root: nat, nextSymbol: nat := CreateRoot();
      var predicted: nat, order: nat, low: nat, range: nat, pos: nat := 0, 0, 0, WORD - 1, 0;
      ghost var sh, st, done := EMPTY, INITIAL, [];
      EmptyStands(symbols[..]);
      CompressedStarts(outData[..0], Joined(taken));
      ghost var rest := Joined(taken);
      UnreadAtFirst(inBuffers, beyond);
      trace := [Moment(symbols[..], sh, 0, 0, 1)];
      TracedStart(trace[0]);
      while true
        invariant pos <= outData.Length && at <= |inData| && 1 <= buffer <= |inBuffers| && Good(st)
        invariant AtInput(symbols[..], sh, st, predicted, order, nextSymbol)
        invariant rest == Unread(inData, at, taken, buffer)
        invariant Completes(outData[..pos], Coder(low, range), AllSteps(st, rest), whole)
        invariant done + rest == Joined(taken) && st == Reached(done) && Traced(trace, done)
        invariant trace != [] && trace[|trace| - 1].s == symbols[..]
        decreases |rest|
      {
        var more, value;
        more, value, inData, at, buffer := NextByte(inBuffers, beyond, inData, at, buffer);
        if !more { break; }
        InputAt(symbols[..], sh, st, predicted, order, nextSymbol);
        InputCompletes(outData[..pos], Coder(low, range), st, rest, whole);
        var ok;
        ok, predicted, nextSymbol, low, range, pos, sh := EncodeByte(value, predicted, nextSymbol, low, range, outData,
                                                                     pos, sh, st.model, st.context,
                                                                     AllSteps(Next(st, value), rest[1..]), whole);
        if !ok { return 0, trace; }
        EndedIsPoised(symbols[..], sh, Learn(st.model, st.context, value), predicted, st.context + [value]);
        predicted, order, nextSymbol, sh := NextInput(predicted, order, nextSymbol, sh, st.context + [value], true, st,
                                                      value);
        ghost var m := Moment(symbols[..], sh, predicted, order, nextSymbol);
        TracedMore(trace, done, value, m);
        OneMore(done, value, rest);
        trace, st, rest, done := trace + [m], Next(st, value), rest[1..], done + [value];
      }
      FlushCompletes(outData[..pos], Coder(low, range), st, rest, whole);
      assert done + [] == done;
      var ok;
      ok, n := FlushRange(low, outData, pos);
      if !ok { return 0, trace; }
    }

    // ----- one context in the decompressor

    /** The decompressor has found its byte in a context: ENET_RANGE_CODER_DECODE, and the totals. */
    method Conclude(context: nat, minimum: nat, escapes: nat, under: nat, count: nat, total: nat, low: nat, range: nat,
                    code: nat, input: seq<byte>, inPos: nat, ghost k: nat, ghost whole: nat, ghost s: seq<Symbol>,
                    ghost sh: Shadow, ghost p: Path, ghost value: byte, ghost sh1: Shadow, ghost symbol: nat,
                    ghost next: nat, ghost genuine: bool, ghost model: Model)
      returns (low': nat, range': nat, code': nat, inPos': nat, ghost k': nat, ghost sh': Shadow)
      requires symbols.Length == SYMBOLS && minimum == MinimumAt(context) && total > 0 && range == whole / total
      requires Tuned(input, k, Coder(low, whole), code, inPos) && Workable(Step(escapes + under, count, total))
      requires Walking(s, sh, context, p, value, symbols[..], sh1, symbol, next, count)
      requires genuine ==> p == ByValue(sh.trees[context], value) && Sane(model) && Models(s, sh, model)
      modifies symbols
      ensures Coder(low', range') == Advance(Coder(low, whole), Step(escapes + under, count, total))
      ensures k' == k + |Emitted(Coder(low, whole), Step(escapes + under, count, total))|
      ensures Tuned(input, k', Coder(low', range'), code', inPos')
      ensures |sh'.trees| == |sh'.names| <= SYMBOLS && Stood(s, sh, context, value, -1, symbols[..], sh', symbol, next)
      ensures genuine ==> Models(symbols[..], sh', Learn1(model, sh.names[context], value))
      ensures genuine ==> |Lookup(model, sh.names[context]).counts| == 256
      ensures genuine ==>
                |sh'.names| == |sh.names| + (if Lookup(model, sh.names[context]).counts[value] == 0 then 1 else 0)
    {
      hide Lookup, Walking, Stood, Standing, Models, Shape, Numbers, Due, Learn1, Sane, Workable, Advance, Emitted,
           Ready, OnlyTotals, AdaptedShadow, AdaptedEscapes, ByValue, Descended;
      ghost var walked := symbols[..];
      WalkingAt(s, sh, context, p, value, walked, sh1, symbol, next, count);
      AdvanceIsReady(Coder(low, whole), Step(escapes + under, count, total));
      low', range', code', inPos', k' := DecodeRange(low, range, code, escapes + under, count, whole, total, input,
                                                     inPos, k);
      sh' := Settle(context, count, minimum, sh1);
      ghost var after := symbols[..];
      assert after[context] == symbols[context];
      WalkingEnds(s, sh, context, p, value, walked, sh1, symbol, next, count, after, sh');
      if genuine {
        WalkingLearns(s, sh, context, p, value, walked, sh1, symbol, next, count, after, sh', model);
      }
    }

    method DecodeEscape(low: nat, range: nat, code: nat, escapes: nat, total: nat, input: seq<byte>, inPos: nat,
                        ghost k: nat, ghost whole: nat)
      returns (low': nat, range': nat, code': nat, inPos': nat, ghost k': nat)
      requires Tuned(input, k, Coder(low, whole), code, inPos) && Workable(Step(0, escapes, total))
      requires range == whole / total
      ensures Coder(low', range') == Advance(Coder(low, whole), Step(0, escapes, total))
      ensures k' == k + |Emitted(Coder(low, whole), Step(0, escapes, total))|
      ensures Tuned(input, k', Coder(low', range'), code', inPos')
    {
      AdvanceIsReady(Coder(low, whole), Step(0, escapes, total));
      low', range', code', inPos', k' := DecodeRange(low, range, code, 0, escapes, whole, total, input, inPos, k);
    }

    /** The decompressor reads a byte, not an escape, in a context other than the root. */
    method FindByte(subcontext: nat, read: nat, nextSymbol: nat, low: nat, range: nat, code: nat, input: seq<byte>,
                    inPos: nat, ghost k: nat, ghost whole: nat, ghost sh: Shadow, ghost genuine: bool,
                    ghost model: Model, ghost sym: Sym, ghost rest: seq<Step>)
      returns (verdict: Verdict, low': nat, range': nat, code': nat, inPos': nat, ghost k': nat, ghost sh': Shadow)
      requires symbols.Length == SYMBOLS && 0 < subcontext < |sh.trees| == |sh.names| == nextSymbol < SYMBOLS
      requires 0 < symbols[subcontext].escapes <= read && |sh.names[subcontext]| <= ORDER
      requires symbols[subcontext].total > 0 && range == whole / symbols[subcontext].total
      requires Tuned(input, k, Coder(low, whole), code, inPos)
      requires genuine ==> Promised(symbols[..], sh, subcontext, model, sym, input, k, Coder(low, whole), rest)
      requires genuine ==> Decides(symbols[..], sh, subcontext, model, sym, read, input, k, Coder(low, whole), rest)
      requires Standing(symbols[..], sh, -1)
      modifies symbols
      ensures verdict.Broken? ==> !genuine
      ensures !verdict.Skipped?
      ensures verdict.Decoded? ==> Tuned(input, k', Coder(low', range'), code', inPos')
      ensures verdict.Decoded? ==>
                Stood(old(symbols[..]), sh, subcontext, verdict.value, -1, symbols[..], sh', verdict.symbol, nextSymbol)
      ensures verdict.Decoded? && genuine ==>
                Known(model, sh.names[subcontext], sym, input, k', Coder(low', range'), rest, symbols[..], sh',
                      verdict.value, nextSymbol)
    {
      hide Window, Ready, Promised, Decides, Standing, Known, Stood, Walking, Shape, Numbers, Due, Descended, Models,
           Learn1, Sane, Workable, Advance, Emitted, ByCode, ByValue, Land, Found, Target;
      ghost var s := symbols[..];
      ghost var p := ByCode(sh.trees[subcontext], read - s[subcontext].escapes, 0, 0);
      var escapes, total := symbols[subcontext].escapes, symbols[subcontext].total;
      low', range', code', inPos', k', sh' := low, range, code, inPos, k, sh;
      StandingShape(s, sh, -1);
      if genuine {
        PromisedAt(s, sh, subcontext, model, sym, input, k, Coder(low, whole), rest);
        DecidesWalk(s, sh, subcontext, model, sym, read, input, k, Coder(low, whole), rest);
      }
      var ok, value, symbol, under, count;
      ghost var sh1;
      ok, value, symbol, under, count, sh1 := TryDecode(subcontext, read - escapes, nextSymbol, sh);
      if !ok { verdict := Broken; return; }
      verdict := Decoded(value, symbol);
      DescendedSizes(s, sh, subcontext, p, value, symbols[..], sh1, symbol, nextSymbol);
      WalkingFrom(s, sh, subcontext, p, value, symbols[..], sh1, symbol, nextSymbol, count);
      DecodedWorkable(s, sh, subcontext, p, count, escapes + under);
      low', range', code', inPos', k', sh' := Conclude(subcontext, 0, escapes, under, count, total, low, range, code,
                                                       input, inPos, k, whole, s, sh, p, value, sh1, symbol, nextSymbol,
                                                       genuine, model);
      if genuine {
        DecidesKnown(s, sh, subcontext, model, sym, read, input, k, Coder(low, whole), rest, value,
          under, count, k', Coder(low', range'), symbols[..], sh');
      }
    }

    /** A context other than the root in the decompressor: it has nothing to say, decodes an escape, or the byte. */
    method TryContext(subcontext: nat, nextSymbol: nat, low: nat, range: nat, code: nat, input: seq<byte>, inPos: nat,
                      ghost k: nat, ghost sh: Shadow, ghost genuine: bool, ghost model: Model, ghost sym: Sym,
                      ghost rest: seq<Step>)
      returns (verdict: Verdict, low': nat, range': nat, code': nat, inPos': nat, ghost k': nat, ghost sh': Shadow)
      requires symbols.Length == SYMBOLS && 0 < subcontext < |sh.trees| == |sh.names| == nextSymbol < SYMBOLS
      requires |sh.names[subcontext]| <= ORDER && Tuned(input, k, Coder(low, range), code, inPos)
      requires genuine ==> Promised(symbols[..], sh, subcontext, model, sym, input, k, Coder(low, range), rest)
      requires Standing(symbols[..], sh, -1)
      modifies symbols
      ensures verdict.Broken? ==> !genuine
      ensures !verdict.Broken? ==> Tuned(input, k', Coder(low', range'), code', inPos')
      ensures verdict.Skipped? ==> symbols[..] == old(symbols[..]) && sh' == sh
      ensures verdict.Skipped? && genuine ==>
                Unknown(model, sh.names[subcontext], sym, input, k', Coder(low', range'), rest)
      ensures verdict.Decoded? ==>
                Stood(old(symbols[..]), sh, subcontext, verdict.value, -1, symbols[..], sh', verdict.symbol, nextSymbol)
      ensures verdict.Decoded? && genuine ==>
                Known(model, sh.names[subcontext], sym, input, k', Coder(low', range'), rest, symbols[..], sh',
                      verdict.value, nextSymbol)
    {
      hide Tuned, Promised, Standing, Unknown, Known, Stood, Walking, Shape, Numbers, Due, Descended, Models, Learn1,
           Sane, Genuine, Reading, Workable, Advance, Emitted, Ready, ByCode, ByValue, Land, Found, Lookup, Coded,
           Target, Decides, ReadWord;
      ghost var s := symbols[..];
      low', range', code', inPos', k', sh' := low, range, code, inPos, k, sh;
      ContextWorkable(s, sh, subcontext);
      var escapes, total := symbols[subcontext].escapes, symbols[subcontext].total;
      if escapes == 0 || escapes >= total {
        verdict := Skipped;
        if genuine { PromiseSilent(s, sh, subcontext, model, sym, input, k, Coder(low, range), rest); }
        return;
      }
      ReadingIs(input, k, low, range, code, inPos, total);
      var part := range / total;
      var read := ReadWord(low, code, part) % 0x1_0000;
      if genuine {
        PromiseDecides(s, sh, subcontext, model, sym, ReadWord(low, code, part), input, k, Coder(low, range), rest);
      }
      if read < escapes {
        verdict := Skipped;
        low', range', code', inPos', k' := DecodeEscape(low, part, code, escapes, total, input, inPos, k, range);
        if genuine {
          DecidesEscape(s, sh, subcontext, model, sym, read, input, k, Coder(low, range), rest, k',
                        Coder(low', range'));
        }
      } else {
        verdict, low', range', code', inPos', k', sh' := FindByte(subcontext, read, nextSymbol, low, part, code, input,
                                                                  inPos, k, range, sh, genuine, model, sym, rest);
      }
    }

    /** The root context in the decompressor: an escape ends the data, everything else is a byte. */
    method RootContext(nextSymbol: nat, low: nat, range: nat, code: nat, input: seq<byte>, inPos: nat,
                       ghost k: nat, ghost sh: Shadow, ghost genuine: bool, ghost model: Model, ghost sym: Sym,
                       ghost rest: seq<Step>)
      returns (verdict: Verdict, next: nat, low': nat, range': nat, code': nat, inPos': nat, ghost k': nat,
               ghost sh': Shadow)
      requires symbols.Length == SYMBOLS && 0 < |sh.trees| == |sh.names| == nextSymbol < SYMBOLS
      requires |sh.names[0]| <= ORDER && Tuned(input, k, Coder(low, range), code, inPos)
      requires genuine ==> Promised(symbols[..], sh, 0, model, sym, input, k, Coder(low, range), rest)
      requires Standing(symbols[..], sh, -1)
      modifies symbols
      ensures !verdict.Broken?
      ensures verdict.Skipped? ==> symbols[..] == old(symbols[..])
      ensures verdict.Skipped? && genuine ==> Unknown(model, sh.names[0], sym, input, k', Coder(low', range'), rest)
      ensures verdict.Decoded? ==> Tuned(input, k', Coder(low', range'), code', inPos')
      ensures verdict.Decoded? ==>
                Stood(old(symbols[..]), sh, 0, verdict.value, -1, symbols[..], sh', verdict.symbol, next)
      ensures verdict.Decoded? && genuine ==>
                Known(model, sh.names[0], sym, input, k', Coder(low', range'), rest, symbols[..], sh', verdict.value,
                      nextSymbol)
    {
      hide Tuned, Promised, Standing, Unknown, Known, Stood, Walking, Shape, Numbers, Due, Descended, Models, Learn1,
           Sane, Genuine, Reading, Workable, Advance, Emitted, Ready, ByCode, ByValue, Land, Found, Lookup, Coded,
           Target, Decides, ReadWord;
      ghost var s := symbols[..];
      next, sh' := nextSymbol, sh;
      ContextWorkable(s, sh, 0);
      var escapes, total := symbols[0].escapes, symbols[0].total;
      ReadingIs(input, k, low, range, code, inPos, total);
      var part := range / total;
      var read := ReadWord(low, code, part) % 0x1_0000;
      if genuine {
        PromiseDecides(s, sh, 0, model, sym, ReadWord(low, code, part), input, k, Coder(low, range), rest);
      }
      if read < escapes {
        verdict := Skipped;
        low', range', code', inPos', k' := DecodeEscape(low, part, code, escapes, total, input, inPos, k, range);
        if genuine {
          DecidesEscape(s, sh, 0, model, sym, read, input, k, Coder(low, range), rest, k', Coder(low', range'));
        }
      } else {
        verdict, next, low', range', code', inPos', k', sh' := RootByte(read, nextSymbol, low, part, code, input, inPos,
          k, range, sh, genuine, model, sym, rest);
      }
    }

    method RootByte(read: nat, nextSymbol: nat, low: nat, range: nat, code: nat, input: seq<byte>, inPos: nat,
                    ghost k: nat, ghost whole: nat, ghost sh: Shadow, ghost genuine: bool, ghost model: Model,
                    ghost sym: Sym, ghost rest: seq<Step>)
      returns (verdict: Verdict, next: nat, low': nat, range': nat, code': nat, inPos': nat, ghost k': nat,
               ghost sh': Shadow)
      requires symbols.Length == SYMBOLS && 0 < |sh.trees| == |sh.names| == nextSymbol < SYMBOLS
      requires 0 < symbols[0].escapes <= read && |sh.names[0]| <= ORDER
      requires symbols[0].total > 0 && range == whole / symbols[0].total
      requires Tuned(input, k, Coder(low, whole), code, inPos)
      requires genuine ==> Promised(symbols[..], sh, 0, model, sym, input, k, Coder(low, whole), rest)
      requires genuine ==> Decides(symbols[..], sh, 0, model, sym, read, input, k, Coder(low, whole), rest)
      requires Standing(symbols[..], sh, -1)
      modifies symbols
      ensures verdict.Decoded?
      ensures Tuned(input, k', Coder(low', range'), code', inPos')
      ensures Stood(old(symbols[..]), sh, 0, verdict.value, -1, symbols[..], sh', verdict.symbol, next)
      ensures genuine ==>
                Known(model, sh.names[0], sym, input, k', Coder(low', range'), rest, symbols[..], sh', verdict.value,
                      nextSymbol)
    {
      hide Window, Ready, Promised, Decides, Standing, Known, Stood, Walking, Shape, Numbers, Due, Descended, Models,
           Learn1, Sane, Workable, Advance, Emitted, ByCode, ByValue, Land, Found, Target;
      ghost var s := symbols[..];
      ghost var p := ByCode(sh.trees[0], read - s[0].escapes, 1, 0);
      var escapes, total := symbols[0].escapes, symbols[0].total;
      StandingShape(s, sh, -1);
      if genuine {
        PromisedAt(s, sh, 0, model, sym, input, k, Coder(low, whole), rest);
        DecidesWalk(s, sh, 0, model, sym, read, input, k, Coder(low, whole), rest);
      }
      var value, symbol, under, count;
      ghost var sh1;
      value, symbol, next, under, count, sh1 := RootDecode(read - escapes, nextSymbol, sh);
      verdict := Decoded(value, symbol);
      DescendedSizes(s, sh, 0, p, value, symbols[..], sh1, symbol, next);
      WalkingFrom(s, sh, 0, p, value, symbols[..], sh1, symbol, next, count);
      DecodedWorkable(s, sh, 0, p, count, escapes + under);
      low', range', code', inPos', k', sh' := Conclude(0, 1, escapes, under, count, total, low, range, code, input,
        inPos, k, whole, s, sh, p, value, sh1, symbol, next, genuine, model);
      if genuine {
        DecidesKnown(s, sh, 0, model, sym, read, input, k, Coder(low, whole), rest, value, under, count,
          k', Coder(low', range'), symbols[..], sh');
      }
    }

    /** One context that only escaped learns the byte after all. */
    method PatchContext(patch: nat, value: byte, link: int, predicted: nat, nextSymbol: nat,
                        ghost sh: Shadow, ghost genuine: bool, ghost model: Model)
      returns (predicted': nat, symbol: nat, next: nat, ghost found: bool, ghost sh': Shadow)
      requires symbols.Length == SYMBOLS && 0 < patch < |sh.trees| == |sh.names| == nextSymbol < SYMBOLS
      requires link < nextSymbol && patch != link && |sh.names[patch]| <= ORDER
      requires Awaits(sh.names, link, sh.names[patch] + [value])
      requires genuine ==> Sane(model) && Models(symbols[..], sh, model)
      requires Standing(symbols[..], sh, link)
      modifies symbols
      ensures predicted' == if link < 0 then symbol else predicted
      ensures Stood(old(symbols[..]), sh, patch, value, link, symbols[..], sh', symbol, next)
      ensures genuine ==> AfterContext(old(symbols[..]), sh, patch, value, model, symbols[..], sh', symbol, next, found)
    {
      hide Standing, Models, Shape, Numbers, Due, Fits, Entered, Descended, OnlyTotals, Learn1, Sane, Stood,
           AfterContext, WithParent, AdaptedShadow, AdaptedEscapes, ByValue, Found, Before, Lookup;
      ghost var s := symbols[..];
      ghost var p := ByValue(sh.trees[patch], value);
      StandingShape(s, sh, link);
      var under, count;
      ghost var sh1;
      symbol, next, under, count, sh1 := ContextEncode(patch, value, SUB_SYMBOL_DELTA, 0, nextSymbol, sh);
      DescendedSizes(s, sh, patch, p, value, symbols[..], sh1, symbol, next);
      ghost var walked := symbols[..];
      predicted' := Link(link, predicted, symbol);
      ghost var mid := symbols[..];
      LinkedUp(s, sh, patch, p, value, link, walked, sh1, symbol, next, count, mid);
      sh' := Settle(patch, count, 0, sh1);
      ghost var after := symbols[..];
      assert after[patch] == symbols[patch];
      ContextStood(s, sh, patch, p, value, link, mid, sh1, symbol, next, after, sh', count);
      found := count > 0;
      if genuine {
        ContextDone(s, sh, patch, value, link, mid, sh1, symbol, next, after, sh', count, model);
      }
    }

    /** The loop at patchContexts: from the longest context down to `subcontext`, which has decoded the byte. */
    method PatchContexts(predicted: nat, subcontext: nat, bottom: nat, value: byte, nextSymbol: nat,
                         ghost sh: Shadow, ghost name: Name, ghost genuine: bool, ghost model: Model, ghost goal: Model,
                         ghost used: int)
      returns (predicted': nat, next: nat, ghost sh': Shadow)
      requires symbols.Length == SYMBOLS && subcontext < |sh.names| == nextSymbol
      requires Patchable(symbols[..], sh, predicted, subcontext, value, -1, bottom, predicted, name)
      requires genuine ==> Mending(symbols[..], sh, model, name, sh.names[subcontext], value, goal, used)
      modifies symbols
      ensures |sh'.names| == next && Poised(symbols[..], sh', predicted', name + [value])
      ensures genuine ==> next == used && Ended(symbols[..], sh', goal, predicted', name + [value])
    {
      hide Patchable, Mending, Standing, Models, Learn1, Sane, Stood, AfterContext, WithParent, Poised, Awaits;
      ghost var m := sh.names[subcontext];
      var patch: nat, link: int := predicted, -1;
      ghost var base := model;
      predicted', next, sh' := predicted, nextSymbol, sh;
      PatchableAt(symbols[..], sh', patch, subcontext, value, link, bottom, predicted', name);
      PatchableName(symbols[..], sh', patch, subcontext, value, bottom, predicted', name);
      while patch != subcontext
        invariant patch < |sh'.names| == next && subcontext < next && sh'.names[subcontext] == m
        invariant Patchable(symbols[..], sh', patch, subcontext, value, link, bottom, predicted', name)
        invariant genuine ==> Mending(symbols[..], sh', base, sh'.names[patch], m, value, goal, used)
        decreases |sh'.names[patch]|
      {
        ghost var s, sh1, before := symbols[..], sh', predicted';
        PatchableAt(s, sh1, patch, subcontext, value, link, bottom, before, name);
        PatchableNames(s, sh1, patch, subcontext, value, link, bottom, before, name);
        if genuine { MendingAt(s, sh1, base, sh1.names[patch], m, value, goal, used); }
        ghost var learnt := if genuine then Learn1(base, m, value) else base;
        ghost var found;
        var symbol;
        predicted', symbol, next, found, sh' := PatchContext(patch, value, link, predicted', next, sh1, genuine,
                                                             learnt);
        PatchTurn(s, sh1, patch, subcontext, value, link, bottom, before, name, symbols[..], sh', symbol, next,
                  predicted');
        StoodNames(s, sh1, patch, value, link, symbols[..], sh', symbol, next);
        if genuine {
          MendingTurn(s, sh1, base, patch, m, value, goal, used, symbols[..], sh', symbol, next, found);
          base := Learn1(base, sh1.names[patch], value);
        }
        link := symbol;
        patch := symbols[patch].parent;
      }
      ghost var s, before := symbols[..], predicted';
      PatchableAt(s, sh', patch, subcontext, value, link, bottom, before, name);
      predicted' := Link(link, predicted', bottom);
      PatchEnds(s, sh', patch, value, link, bottom, before, name, predicted');
      if genuine {
        MendingEnds(s, sh', base, m, value, goal, used);
        ModelsIgnoreParents(s, sh', link, bottom, goal);
      }
    }

    // ----- the decompressor

    /** The contexts from `predicted` down, until one decodes a byte, the data ends, or the input makes no sense. */
    method SearchContexts(predicted: nat, nextSymbol: nat, low: nat, range: nat, code: nat, input: seq<byte>,
                          inPos: nat, ghost k: nat, ghost sh: Shadow, ghost name: Name, ghost genuine: bool,
                          ghost model: Model, ghost sym: Sym, ghost later: seq<Step>)
      returns (verdict: Verdict, subcontext: nat, next: nat, low': nat, range': nat, code': nat, inPos': nat,
               ghost k': nat, ghost sh': Shadow)
      requires symbols.Length == SYMBOLS && |sh.names| == nextSymbol < SYMBOLS && |name| <= ORDER
      requires Tuned(input, k, Coder(low, range), code, inPos) && Poised(symbols[..], sh, predicted, name)
      requires genuine ==> Offered(symbols[..], sh, model, name, name, sym, input, k, Coder(low, range), later)
      modifies symbols
      ensures verdict.Broken? ==> !genuine
      ensures verdict.Skipped? && genuine ==> sym == End
      ensures verdict.Skipped? ==> symbols[..] == old(symbols[..])
      ensures verdict.Decoded? ==> Tuned(input, k', Coder(low', range'), code', inPos')
      ensures verdict.Decoded? ==>
        && Stood(old(symbols[..]), sh, subcontext, verdict.value, -1, symbols[..], sh', verdict.symbol, next)
        && Reaches(old(symbols[..]), sh.names, predicted, subcontext)
        && subcontext < |sh.names| && (next == nextSymbol || subcontext == 0)
      ensures verdict.Decoded? && genuine ==>
                Located(model, name, sh.names[subcontext], sym, input, k', Coder(low', range'), later, symbols[..], sh',
                        verdict.value, nextSymbol)
    {
      hide Tuned, Standing, Unknown, Known, Stood, Promised, Offered, Located, RestOf;
      ghost var s := symbols[..];
      subcontext, next := predicted, nextSymbol;
      low', range', code', inPos', k', sh' := low, range, code, inPos, k, sh;
      StandingAt(s, sh, -1, 0);
      while subcontext != 0
        invariant symbols[..] == s && subcontext < |sh.names| && |sh.names[subcontext]| <= ORDER
        invariant Tuned(input, k', Coder(low', range'), code', inPos') && Reaches(s, sh.names, predicted, subcontext)
        invariant genuine ==>
          Offered(s, sh, model, name, sh.names[subcontext], sym, input, k', Coder(low', range'), later)
        decreases |sh.names[subcontext]|
      {
        ghost var n, k0, c0 := sh.names[subcontext], k', Coder(low', range');
        if genuine { OfferedPromise(s, sh, model, name, subcontext, sym, input, k0, c0, later); }
        ghost var rest := if genuine then RestOf(model, n, sym) + later else [];
        ParentAt(s, sh, -1, subcontext);
        verdict, low', range', code', inPos', k', sh' := TryContext(subcontext, nextSymbol, low', range', code', input,
                                                                    inPos', k', sh, genuine, model, sym, rest);
        if verdict.Broken? { return; }
        if verdict.Decoded? {
          next := nextSymbol;
          if genuine {
            OfferedKnown(s, sh, model, name, n, sym, input, k0, c0, later, k', Coder(low', range'), symbols[..], sh',
              verdict.value);
          }
          return;
        }
        if genuine { OfferedTurn(s, sh, model, name, n, sym, input, k0, c0, later, k', Coder(low', range')); }
        ReachesMore(s, sh.names, predicted, subcontext);
        subcontext := symbols[subcontext].parent;
      }
      ghost var k0, c0 := k', Coder(low', range');
      if genuine { OfferedPromise(s, sh, model, name, 0, sym, input, k0, c0, later); }
      ghost var rest := if genuine then RestOf(model, sh.names[0], sym) + later else [];
      verdict, next, low', range', code', inPos', k', sh' := RootContext(nextSymbol, low', range', code', input, inPos',
        k', sh, genuine, model, sym, rest);
      if genuine {
        if verdict.Decoded? {
          OfferedKnown(s, sh, model, name, sh.names[0], sym, input, k0, c0, later, k', Coder(low', range'), symbols[..],
                       sh', verdict.value);
        } else {
          OfferedEnd(s, sh, model, name, sym, input, k0, c0, later, k', Coder(low', range'));
        }
      }
    }

    /** One byte in the decompressor: search, then patch. */
    method DecodeByte(predicted: nat, nextSymbol: nat, low: nat, range: nat, code: nat, input: seq<byte>, inPos: nat,
                      ghost k: nat, ghost sh: Shadow, ghost name: Name, ghost genuine: bool, ghost model: Model,
                      ghost sym: Sym, ghost later: seq<Step>)
      returns (verdict: Verdict, predicted': nat, next: nat, low': nat, range': nat, code': nat, inPos': nat,
               ghost k': nat, ghost sh': Shadow)
      requires symbols.Length == SYMBOLS && |sh.names| == nextSymbol < SYMBOLS - ORDER && |name| <= ORDER
      requires Tuned(input, k, Coder(low, range), code, inPos) && Poised(symbols[..], sh, predicted, name)
      requires genuine ==> Offered(symbols[..], sh, model, name, name, sym, input, k, Coder(low, range), later)
      modifies symbols
      ensures verdict.Broken? ==> !genuine
      ensures verdict.Skipped? && genuine ==> sym == End
      ensures verdict.Skipped? ==> symbols[..] == old(symbols[..])
      ensures verdict.Decoded? ==> Tuned(input, k', Coder(low', range'), code', inPos')
      ensures verdict.Decoded? ==> |sh'.names| == next && Poised(symbols[..], sh', predicted', name + [verdict.value])
      ensures verdict.Decoded? && genuine ==>
        && Sane(model) && sym == Char(verdict.value) && Genuine(input, k', Coder(low', range'), later)
        && next == nextSymbol + Growth(model, name, verdict.value)
        && Ended(symbols[..], sh', Learn(model, name, verdict.value), predicted', name + [verdict.value])
    {
      hide Tuned, Poised, Stood, Offered, Located, Patchable, Mending, Sane, Learn, Growth, Genuine, Ended, Reaches;
      ghost var s := symbols[..];
      var subcontext;
      ghost var sh1;
      verdict, subcontext, next, low', range', code', inPos', k', sh1 := SearchContexts(predicted, nextSymbol, low,
          range, code, input, inPos, k, sh, name, genuine, model, sym, later);
      predicted', sh' := predicted, sh1;
      if !verdict.Decoded? { return; }
      var value := verdict.value;
      PatchStarts(s, sh, predicted, name, subcontext, value, symbols[..], sh1, verdict.symbol, next);
      ghost var goal, used := model, 0;
      if genuine {
        MendStarts(model, name, sh.names[subcontext], sym, input, k', Coder(low', range'), later, symbols[..], sh1,
                   value, nextSymbol);
        goal, used := Learn(model, name, value), nextSymbol + Growth(model, name, value);
      }
      predicted', next, sh' := PatchContexts(predicted, subcontext, verdict.symbol, value, next, sh1, name, genuine,
                                             model, goal, used);
    }

    /** enet_range_coder_decompress, with room for outData.Length bytes.  Any input is decoded to something or
        refused; the compressor's output is decoded to what was compressed. */
    method Decompress(input: seq<byte>, outData: array<byte>, ghost original: seq<byte>)
      returns (n: nat, ghost trace: seq<Moment>)
      requires symbols.Length == SYMBOLS
      modifies symbols, outData
      ensures n <= outData.Length
      ensures input == Compressed(original) && |original| <= outData.Length ==> outData[..n] == original
      ensures input == Compressed(original) && original != [] && |original| <= outData.Length ==>
                Traced(trace, original) && trace[|trace| - 1].s == symbols[..]
      ensures input == Compressed(original) && |original| > outData.Length ==> n == 0
    {
      hide Idle, AtInput, Tuned, Poised, Offered, Sane, Learn, Growth, Genuine, Ended, Steps, AllSteps, Good, Next,
           Compressed, Traced, Reached;
      ghost var genuine := input == Compressed(original);
      trace := [];
      if |input| == 0 {
        if genuine { NothingCompressed(original); }
        return 0, [];
      }
      var root: nat, nextSymbol: nat := CreateRoot();
      var predicted: nat, order: nat, low: nat, range: nat, code: nat, inPos: nat := 0, 0, 0, WORD - 1, 0, 0;
      ghost var sh, st, rest, k := EMPTY, INITIAL, original, 0;
      EmptyStands(symbols[..]);
      InputIsIdle(symbols[..], EMPTY, INITIAL, 0, 0, 1);
      code, inPos := SeedRange(input);
      DecodingStarts(input, original, code, inPos);
      trace := [Moment(symbols[..], sh, 0, 0, 1)];
      TracedStart(trace[0]);
      n := 0;
      assert outData[..0] == [];
      while true
        invariant n <= outData.Length && Idle(symbols[..], sh, predicted, order, nextSymbol)
        invariant Tuned(input, k, Coder(low, range), code, inPos)
        invariant genuine ==> Good(st) && AtInput(symbols[..], sh, st, predicted, order, nextSymbol)
        invariant genuine ==>
          outData[..n] + rest == original && Genuine(input, k, Coder(low, range), AllSteps(st, rest))
        invariant genuine ==> st == Reached(outData[..n]) && Traced(trace, outData[..n])
        invariant trace != [] && trace[|trace| - 1].s == symbols[..]
        decreases outData.Length - n
      {
        ghost var s, before := symbols[..], outData[..n];
        IdleAt(s, sh, predicted, order, nextSymbol);
        ghost var name := sh.names[predicted];
        ghost var sym := if rest == [] then End else Char(rest[0]);
        ghost var later := if genuine && rest != [] then AllSteps(Next(st, rest[0]), rest[1..]) else [];
        if genuine {
          OfferStarts(s, sh, st, predicted, order, nextSymbol, input, k, Coder(low, range), rest, sym, later);
        }
        var verdict;
        verdict, predicted, nextSymbol, low, range, code, inPos, k, sh := DecodeByte(predicted, nextSymbol, low, range,
            code, input, inPos, k, sh, name, genuine, st.model, sym, later);
        if verdict.Broken? { return 0, trace; }
        if verdict.Skipped? { break; }
        var ok;
        ok, n := Output(verdict.value, outData, n);
        if !ok { return 0, trace; }
        predicted, order, nextSymbol, sh := NextInput(predicted, order, nextSymbol, sh, name + [verdict.value], genuine,
                                                      st, verdict.value);
        ghost var m := Moment(symbols[..], sh, predicted, order, nextSymbol);
        if genuine {
          OneMore(before, verdict.value, rest);
          TracedMore(trace, before, verdict.value, m);
          st, rest := Next(st, verdict.value), rest[1..];
        }
        trace := trace + [m];
      }
      if genuine { assert outData[..n] + [] == outData[..n]; }
    }
  }
}
