/** One context in the array: its numbers, and what coding a byte in it leaves behind. */
module Contexts {
  import opened Bytes
  import opened RangeCoding
  import opened Frequencies
  import opened Trees
  import opened Symbols

  /** The largest count of a node between two inputs. */
  function Cap(m: nat): nat {
    if m == 0 then 253 else 252
  }

  /** The numbers of a context whose tree is `t`, between two inputs. */
  ghost predicate Balanced(escapes: nat, total: nat, t: Tree, m: nat) {
    && m <= 1
    && Sound(t, Cap(m))
    && total == escapes + 256 * m + Mass(t) <= MAX_TOTAL
    && (if m == 1 then escapes == ESCAPE_MINIMUM
        else escapes <= 5 * Mass(t) && (t.Node? ==> escapes > 0))
  }

  /** What the coding macros find at the end of a path: the node's count with the minimum. */
  ghost function Found(t: Tree, p: Path, m: nat): nat
    requires Fits(t, p)
  {
    (if Target(t, p).Leaf? then 0 else Target(t, p).count) + m
  }

  function Extra(count: nat): nat {
    if count == 0 then SUB_ESCAPE_DELTA else 0
  }

  /** The tree after one more `v`, before and after the possible rescale. */
  ghost function Raise(t: Tree, p: Path, v: byte, m: nat, slot: nat): Tree
    requires Fits(t, p)
  {
    Update(t, p, v, Delta(m), slot)
  }

  predicate Overflows(count: nat, total: nat, m: nat) {
    count > CountLimit(m) || total > MAX_TOTAL
  }

  lemma {:induction false} TargetFound(t: Tree, p: Path, cap: nat)
    requires Fits(t, p) && Sound(t, cap)
    ensures Target(t, p).Node? ==> 0 < Target(t, p).count <= cap && Target(t, p).count <= Mass(t)
    decreases p
  {
    match p
    case Stop =>
    case GoLeft(q) => TargetFound(t.left, q, cap);
    case GoRight(q) => TargetFound(t.right, q, cap);
  }

  /** Before the rescale no 8- or 16-bit field overflows. */
  lemma RaiseFits(escapes: nat, total: nat, t: Tree, p: Path, v: byte, m: nat, slot: nat)
    requires Fits(t, p) && Balanced(escapes, total, t, m)
    ensures var count := Found(t, p, m);
      && count <= Cap(m) + m
      && Sound(Raise(t, p, v, m, slot), 255)
      && Mass(Raise(t, p, v, m, slot)) == Mass(t) + Delta(m)
      && total + Extra(count) + Delta(m) < BOTTOM
      && (!(count > CountLimit(m)) ==> Sound(Raise(t, p, v, m, slot), Cap(m)))
  {
    TargetFound(t, p, Cap(m));
    UpdateKeeps(t, p, v, Delta(m), slot, Cap(m), 255);
    if Found(t, p, m) <= CountLimit(m) {
      UpdateKeeps(t, p, v, Delta(m), slot, Cap(m), Cap(m));
    }
  }

  lemma HalvedNumbers(e: nat, mass: nat, halved: nat, size: nat)
    requires mass <= 2 * halved <= mass + size && size <= 4096 && e + mass < BOTTOM
    ensures Half(e) + 256 + halved <= MAX_TOTAL
    ensures e <= 5 * mass ==> Half(e) <= 5 * halved
  {
  }

  /** The numbers after a rescale. */
  lemma HalvedIsBalanced(escapes: nat, total: nat, t: Tree, m: nat)
    requires Sound(t, 255) && t.Node? && Size(t) <= 4096 && m <= 1
    requires total == escapes + 256 * m + Mass(t) < BOTTOM
    requires if m == 1 then escapes == ESCAPE_MINIMUM else 0 < escapes <= 5 * Mass(t)
    ensures var e := Half(escapes); Balanced(e, e + 256 * m + Mass(Halve(t)), Halve(t), m)
  {
    HalveKeeps(t, 255);
    HalvedNumbers(escapes, Mass(t), Mass(Halve(t)), Size(t));
    Loosen(Halve(t), 128, Cap(m));
  }

  /** The tree `t` already has the new byte, but escapes and total do not count it yet. */
  ghost predicate Owing(escapes: nat, total: nat, t: Tree, m: nat, count: nat) {
    var e := escapes + Extra(count);
    var sum := total + Extra(count) + Delta(m);
    && t.Node? && Sound(t, 255) && e <= sum < BOTTOM && Mass(t) < BOTTOM
    && (if Overflows(count, sum, m) then
          Balanced(Half(e), Half(e) + 256 * m + Mass(Halve(t)), Halve(t), m)
        else Balanced(e, sum, t, m))
  }

  lemma RaiseSettles(escapes: nat, total: nat, t: Tree, p: Path, v: byte, m: nat, slot: nat, count: nat)
    requires Fits(t, p) && Balanced(escapes, total, t, m) && count == Found(t, p, m)
    ensures
      var raised := Raise(t, p, v, m, slot);
      var e := escapes + Extra(count);
      var sum := total + Extra(count) + Delta(m);
      && raised.Node? && Sound(raised, 255) && e <= sum < BOTTOM && sum == e + 256 * m + Mass(raised)
      && (if m == 1 then e == ESCAPE_MINIMUM else 0 < e <= 5 * Mass(raised))
      && (!Overflows(count, sum, m) ==> Balanced(e, sum, raised, m))
  {
    RaiseFits(escapes, total, t, p, v, m, slot);
    TargetFound(t, p, Cap(m));
    hide Sound, Fits, Target, Update;
  }

  /** Coding a byte in a balanced context: it will be balanced again, rescaled or not. */
  lemma RaiseOwes(escapes: nat, total: nat, t: Tree, p: Path, v: byte, m: nat, slot: nat)
    requires Fits(t, p) && Balanced(escapes, total, t, m) && Size(Raise(t, p, v, m, slot)) <= 4096
    ensures Owing(escapes, total, Raise(t, p, v, m, slot), m, Found(t, p, m))
  {
    hide Balanced, Sound, Fits, Target, Found, Raise, Half, Halve, Size;
    var count := Found(t, p, m);
    var sum := total + Extra(count) + Delta(m);
    RaiseSettles(escapes, total, t, p, v, m, slot, count);
    BalancedMinimum(escapes, total, t, m);
    if Overflows(count, sum, m) {
      HalvedIsBalanced(escapes + Extra(count), sum, Raise(t, p, v, m, slot), m);
    }
  }

  lemma BalancedMinimum(escapes: nat, total: nat, t: Tree, m: nat)
    requires Balanced(escapes, total, t, m)
    ensures m <= 1
  {
  }
}
