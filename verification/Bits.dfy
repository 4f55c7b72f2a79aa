/** The bitmap of used windows, as 32-bit words: C promotes the 16-bit field to int before it shifts and masks. */
module Bits {
  import opened Windows

  /** A window as a shift amount. */
  function At(i: nat): (b: bv32)
    requires i < WINDOWS
    ensures b < 16
  {
    match i
    case 0 => 0 case 1 => 1 case 2 => 2 case 3 => 3 case 4 => 4 case 5 => 5 case 6 => 6 case 7 => 7
    case 8 => 8 case 9 => 9 case 10 => 10 case 11 => 11 case 12 => 12 case 13 => 13 case 14 => 14 case 15 => 15
  }

  /** (1 << FREE_WINDOWS) - 1 */
  const ONES: bv32 := 0xFF

  predicate Bit(u: bv32, i: nat)
    requires i < WINDOWS
  {
    BitAt(u, At(i))
  }

  /** The bits of FREE_WINDOWS windows from `w` on, around the end of the 16-bit field.  The part that is shifted
      beyond the field stays in the word, and meets no bit of it. */
  function Mask(w: nat): bv32
    requires w < WINDOWS
  {
    MaskAt(At(w))
  }

  /** Window `i` is one of the FREE_WINDOWS windows from `w` on. */
  predicate Near(w: nat, i: nat) {
    (i - w) % WINDOWS < FREE_WINDOWS
  }

  // ----- words

  predicate BitAt(u: bv32, i: bv32)
    requires i < 16
  {
    (u >> i) & 1 == 1
  }

  function MaskAt(w: bv32): bv32
    requires w < 16
  {
    (ONES << w) | (ONES >> (16 - w))
  }

  function SetWord(u: bv32, w: bv32): bv32
    requires w < 16
  {
    u | (1 << w)
  }

  function ClearWord(u: bv32, w: bv32): bv32
    requires w < 16
  {
    u & !(1 << w)
  }

  function Both(u: bv32, v: bv32): bv32 {
    u & v
  }

  predicate Small(u: bv32) {
    u < 0x1_0000
  }

  lemma AndAt(u: bv32, v: bv32, i: bv32)
    requires i < 16
    ensures BitAt(Both(u, v), i) <==> BitAt(u, i) && BitAt(v, i)
  {
  }

  lemma MaskBitAt(w: bv32, i: bv32)
    requires w < 16 && i < 16
    ensures BitAt(MaskAt(w), i) <==> NearAt(w, i)
  {
  }

  predicate NearAt(w: bv32, i: bv32) {
    (i - w) & 15 < 8
  }

  lemma SetAt(u: bv32, w: bv32, i: bv32)
    requires w < 16 && i < 16
    ensures BitAt(SetWord(u, w), i) <==> i == w || BitAt(u, i)
    ensures Small(u) ==> Small(SetWord(u, w))
  {
  }

  lemma ClearAt(u: bv32, w: bv32, i: bv32)
    requires w < 16 && i < 16
    ensures BitAt(ClearWord(u, w), i) <==> i != w && BitAt(u, i)
    ensures Small(u) ==> Small(ClearWord(u, w))
  {
  }

  lemma BothSmall(u: bv32, v: bv32)
    requires Small(u)
    ensures Small(Both(u, v))
  {
  }

  lemma NoBits()
    ensures Small(0) && forall i :: 0 <= i < WINDOWS ==> !Bit(0, i)
  {
  }

  lemma ZeroAt(u: bv32)
    requires Small(u)
    requires !BitAt(u, 0) && !BitAt(u, 1) && !BitAt(u, 2) && !BitAt(u, 3) && !BitAt(u, 4) && !BitAt(u, 5)
    requires !BitAt(u, 6) && !BitAt(u, 7) && !BitAt(u, 8) && !BitAt(u, 9) && !BitAt(u, 10) && !BitAt(u, 11)
    requires !BitAt(u, 12) && !BitAt(u, 13) && !BitAt(u, 14) && !BitAt(u, 15)
    ensures u == 0
  {
  }

  lemma ZeroHasNone(i: bv32)
    requires i < 16
    ensures !BitAt(0, i)
  {
  }

  lemma AtInjective(i: nat, w: nat)
    requires i < WINDOWS && w < WINDOWS
    ensures At(i) == At(w) <==> i == w
  {
  }

  lemma AtNear(i: nat, w: nat)
    requires i < WINDOWS && w < WINDOWS
    ensures NearAt(At(w), At(i)) <==> Near(w, i)
  {
  }

  // ----- windows

  /** A window is marked as used, and as unused. */
  function Set(u: bv32, w: nat): bv32
    requires w < WINDOWS
  {
    SetWord(u, At(w))
  }

  function Clear(u: bv32, w: nat): bv32
    requires w < WINDOWS
  {
    ClearWord(u, At(w))
  }

  /** One of the FREE_WINDOWS windows from `w` on is used. */
  predicate Meets(u: bv32, w: nat)
    requires w < WINDOWS
  {
    Both(u, Mask(w)) != 0
  }

  lemma ZeroBits(u: bv32)
    requires Small(u)
    ensures u == 0 <==> forall i :: 0 <= i < WINDOWS ==> !Bit(u, i)
  {
    hide BitAt, Small;
    if forall i :: 0 <= i < WINDOWS ==> !Bit(u, i) {
      assert !Bit(u, 0) && !Bit(u, 1) && !Bit(u, 2) && !Bit(u, 3);
      assert !Bit(u, 4) && !Bit(u, 5) && !Bit(u, 6) && !Bit(u, 7);
      assert !Bit(u, 8) && !Bit(u, 9) && !Bit(u, 10) && !Bit(u, 11);
      assert !Bit(u, 12) && !Bit(u, 13) && !Bit(u, 14) && !Bit(u, 15);
      ZeroAt(u);
    }
    if u == 0 {
      forall i | 0 <= i < WINDOWS ensures !Bit(u, i) {
        ZeroHasNone(At(i));
      }
    }
  }

  lemma MaskedBit(u: bv32, w: nat, i: nat)
    requires w < WINDOWS && i < WINDOWS
    ensures Bit(Both(u, Mask(w)), i) <==> Bit(u, i) && Near(w, i)
  {
    hide BitAt, MaskAt, At, Both, NearAt, Near;
    AndAt(u, MaskAt(At(w)), At(i));
    MaskBitAt(At(w), At(i));
    AtNear(i, w);
  }

  /** The sender's test on bits: a window in use is one of the FREE_WINDOWS windows from `w` on. */
  lemma MeetsMeans(u: bv32, w: nat)
    requires w < WINDOWS && Small(u)
    ensures !Meets(u, w) <==> forall i :: 0 <= i < WINDOWS && Bit(u, i) ==> !Near(w, i)
  {
    hide Mask, Bit, Near, Both, Small;
    var both := Both(u, Mask(w));
    BothSmall(u, Mask(w));
    ZeroBits(both);
    if Meets(u, w) {
      var i :| 0 <= i < WINDOWS && Bit(both, i);
      MaskedBit(u, w, i);
    } else {
      forall i | 0 <= i < WINDOWS && Bit(u, i) ensures !Near(w, i) {
        MaskedBit(u, w, i);
      }
    }
  }

  lemma SetBit(u: bv32, w: nat, i: nat)
    requires w < WINDOWS && i < WINDOWS && Small(u)
    ensures (Bit(Set(u, w), i) <==> i == w || Bit(u, i)) && Small(Set(u, w))
  {
    hide BitAt, At, SetWord, Small;
    SetAt(u, At(w), At(i));
    AtInjective(i, w);
  }

  lemma ClearBit(u: bv32, w: nat, i: nat)
    requires w < WINDOWS && i < WINDOWS && Small(u)
    ensures (Bit(Clear(u, w), i) <==> i != w && Bit(u, i)) && Small(Clear(u, w))
  {
    hide BitAt, At, ClearWord, Small;
    ClearAt(u, At(w), At(i));
    AtInjective(i, w);
  }
}
