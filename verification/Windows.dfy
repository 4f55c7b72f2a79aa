/** ENet's 16-bit reliable sequence numbers and the windows they fall into.  A serial is the number a
    command would have if numbers did not wrap: 1 for the first command of a channel, then 2, and so on. */
module Windows {
  import opened Bytes

  const WRAP := 0x1_0000
  const WINDOWS := 16
  const WINDOW_SIZE := 0x1000
  const FREE_WINDOWS := 8

  function Wire(n: nat): u16 {
    n % WRAP
  }

  function Window(n: nat): nat {
    n / WINDOW_SIZE
  }

  /** How far `number` is ahead of `incoming`, forwards around the circle of 16-bit numbers. */
  function Ahead(number: u16, incoming: u16): u16 {
    (number - incoming) % WRAP
  }

  /** The serial of a number that is ahead of serial `base`. */
  function Serial(base: nat, number: u16): nat {
    base + Ahead(number, Wire(base))
  }

  /** The window of `number`, moved up by a whole turn when the number is below `incoming`. */
  function Unwrapped(number: u16, incoming: u16): nat {
    number / WINDOW_SIZE + if number < incoming then WINDOWS else 0
  }

  /** The receiver takes commands of the current window and of the FREE_WINDOWS - 2 after it. */
  predicate Accepts(number: u16, incoming: u16) {
    var current := incoming / WINDOW_SIZE;
    !(Unwrapped(number, incoming) < current || Unwrapped(number, incoming) >= current + FREE_WINDOWS - 1)
  }

  /** It does not acknowledge the two windows after those: too new to be taken, or too old to tell. */
  predicate Acknowledges(number: u16, incoming: u16) {
    var current := incoming / WINDOW_SIZE;
    !(current + FREE_WINDOWS - 1 <= Unwrapped(number, incoming) <= current + FREE_WINDOWS)
  }

  /** Serials on which 16-bit window arithmetic is reliable, seen from `base`: not in a window the sender may not
      have reached, and not older than the free windows. */
  ghost predicate InSight(n: nat, base: nat) {
    Window(base) <= Window(n) + (WINDOWS - FREE_WINDOWS + 1) && Window(n) < Window(base) + FREE_WINDOWS
  }

  lemma WireWindow(n: nat)
    ensures Wire(n) / WINDOW_SIZE == Window(n) % WINDOWS
  {
    var q := n / WRAP;
    assert n == q * WRAP + Wire(n);
    assert Window(n) == q * WINDOWS + Wire(n) / WINDOW_SIZE;
  }

  /** The unwrapped window is the true distance in windows, except that everything older counts as far ahead. */
  lemma UnwrappedMeans(n: nat, base: nat)
    requires InSight(n, base)
    ensures var d := Unwrapped(Wire(n), Wire(base)) - Wire(base) / WINDOW_SIZE;
      if n >= base then d == Window(n) - Window(base)
      else d == Window(n) - Window(base) + WINDOWS
  {
    WireWindow(n);
    WireWindow(base);
    if Window(n) == Window(base) {
      SameWindow(n, base);
    }
  }

  lemma SameWindow(n: nat, base: nat)
    requires Window(n) == Window(base)
    ensures n < base <==> Wire(n) < Wire(base)
  {
    var w := Window(n);
    assert n == w * WINDOW_SIZE + n % WINDOW_SIZE && base == w * WINDOW_SIZE + base % WINDOW_SIZE;
    WireWindow(n);
    assert Wire(n) == w % WINDOWS * WINDOW_SIZE + n % WINDOW_SIZE;
    assert Wire(base) == w % WINDOWS * WINDOW_SIZE + base % WINDOW_SIZE;
  }

  /** Exactly the serials from `base` on in the first FREE_WINDOWS - 1 windows are accepted. */
  lemma AcceptsMeans(n: nat, base: nat)
    requires InSight(n, base)
    ensures Accepts(Wire(n), Wire(base)) <==> base <= n && Window(n) + 1 < Window(base) + FREE_WINDOWS
  {
    UnwrappedMeans(n, base);
  }

  /** What is acknowledged is acceptable, or older than `base`. */
  lemma AcknowledgesMeans(n: nat, base: nat)
    requires InSight(n, base) && Acknowledges(Wire(n), Wire(base))
    ensures Window(n) + 1 < Window(base) + FREE_WINDOWS
    ensures n < base || Accepts(Wire(n), Wire(base))
  {
    UnwrappedMeans(n, base);
  }

  /** In numbers: of the serials from nine windows of 4096 behind on and in fewer than eight windows, the receiver takes
      those from `base` on in the first seven; what it does not acknowledge is in the eighth, or eight windows behind or
      nine. */
  lemma TakesExactly(n: nat, base: nat)
    requires base / 4096 <= n / 4096 + 9 && n / 4096 < base / 4096 + 8
    ensures Accepts(n % 65536, base % 65536) <==> base <= n && n / 4096 < base / 4096 + 7
    ensures Acknowledges(n % 65536, base % 65536) <==>
      if base <= n then n / 4096 < base / 4096 + 7 else base / 4096 < n / 4096 + 8
  {
    UnwrappedMeans(n, base);
    assert Window(n) == n / 4096 && Window(base) == base / 4096;
  }

  /** Everything acceptable is acknowledged. */
  lemma AcceptedIsAcknowledged(n: nat, base: nat)
    requires Accepts(Wire(n), Wire(base))
    ensures Acknowledges(Wire(n), Wire(base))
  {
  }

  /** A serial ahead of `base` by less than a turn is recovered from its 16 bits. */
  lemma SerialOfWire(n: nat, base: nat)
    requires base <= n < base + WRAP
    ensures Serial(base, Wire(n)) == n
  {
    var q, r := n / WRAP, base / WRAP;
    assert n == q * WRAP + Wire(n) && base == r * WRAP + Wire(base);
    assert (Wire(n) - Wire(base)) == (n - base) - (q - r) * WRAP;
    ModMoves(n - base, q - r);
  }

  lemma ModMoves(x: int, k: int)
    requires 0 <= x < WRAP
    ensures (x - k * WRAP) % WRAP == x
  {
  }

  lemma AcceptedIsNear(n: nat, base: nat)
    requires base <= n && Window(n) < Window(base) + WINDOWS
    ensures n < base + WRAP
  {
  }

  /** The order in which ENet compares two pending numbers is their distance from `incoming`. */
  lemma OrderIsDistance(a: u16, b: u16, incoming: u16)
    ensures Ahead(a, incoming) < Ahead(b, incoming) <==>
            (if b >= incoming then incoming <= a < b else a >= incoming || a < b)
    ensures Ahead(a, incoming) == Ahead(b, incoming) <==> a == b
  {
    AheadIs(a, incoming);
    AheadIs(b, incoming);
  }

  lemma AheadIs(a: u16, incoming: u16)
    ensures Ahead(a, incoming) == if a >= incoming then a - incoming else a - incoming + WRAP
  {
  }

  lemma WireNext(n: nat, k: nat)
    ensures Wire(n + k) == (Wire(n) + k) % WRAP
  {
    var q := n / WRAP;
    assert n == q * WRAP + Wire(n);
    assert n + k == q * WRAP + (Wire(n) + k);
    ModAdds(Wire(n) + k, q);
  }

  lemma ModAdds(x: nat, q: nat)
    ensures (q * WRAP + x) % WRAP == x % WRAP
  {
  }
}
