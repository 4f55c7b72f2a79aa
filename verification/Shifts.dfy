/** Shift amounts: small numbers as words. */
module Shifts {
  /** n as a shift amount. */
  function Times(n: nat): (k: bv32)
    ensures k <= 32
  {
    match n
    case 0 => 0 case 1 => 1 case 2 => 2 case 3 => 3 case 4 => 4 case 5 => 5 case 6 => 6 case 7 => 7
    case 8 => 8 case 9 => 9 case 10 => 10 case 11 => 11 case 12 => 12 case 13 => 13 case 14 => 14 case 15 => 15
    case 16 => 16 case 17 => 17 case 18 => 18 case 19 => 19 case 20 => 20 case 21 => 21 case 22 => 22 case 23 => 23
    case 24 => 24 case 25 => 25 case 26 => 26 case 27 => 27 case 28 => 28 case 29 => 29 case 30 => 30 case 31 => 31
    case _ => 32
  }

  lemma TimesFrom0(n: nat)
    requires 0 <= n < 8
    ensures Times(n) < 32 && Times(n + 1) == Times(n) + 1
  {
  }

  lemma TimesFrom8(n: nat)
    requires 8 <= n < 16
    ensures Times(n) < 32 && Times(n + 1) == Times(n) + 1
  {
  }

  lemma TimesFrom16(n: nat)
    requires 16 <= n < 24
    ensures Times(n) < 32 && Times(n + 1) == Times(n) + 1
  {
  }

  lemma TimesFrom24(n: nat)
    requires 24 <= n < 32
    ensures Times(n) < 32 && Times(n + 1) == Times(n) + 1
  {
  }

  lemma TimesAt(n: nat)
    requires n < 32
    ensures Times(n) < 32 && Times(n + 1) == Times(n) + 1
  {
    hide Times;
    if n < 8 { TimesFrom0(n); }
    else if n < 16 { TimesFrom8(n); }
    else if n < 24 { TimesFrom16(n); }
    else { TimesFrom24(n); }
  }

  lemma TimesValue(n: nat)
    requires n <= 32
    ensures Times(n) as int == n
  {
  }
}
