/** Packets, and how enet_peer_send cuts those that do not fit one command. */
module Fragments {
  import opened Bytes
  import opened Windows
  import opened Inboxes

  /** A packet as it was sent; `unit` is the fragment length in force then. */
  datatype Packet = Packet(data: seq<byte>, unit: pos)

  type pos = x: int | 0 < x witness 1

  // ----- arithmetic of pieces

  function Offset(k: nat, unit: nat): nat {
    k * unit
  }

  /** (length + unit - 1) / unit */
  function PieceCount(length: nat, unit: nat): nat
    requires unit > 0
  {
    (length + unit - 1) / unit
  }

  function PieceLength(length: nat, unit: nat, k: nat): nat {
    if length <= Offset(k, unit) then 0
    else if length - Offset(k, unit) < unit then length - Offset(k, unit) else unit
  }

  lemma OffsetNext(k: nat, unit: nat)
    ensures Offset(k + 1, unit) == Offset(k, unit) + unit && Offset(0, unit) == 0
  {
  }

  lemma OffsetMonotone(j: nat, k: nat, unit: nat)
    requires j <= k
    ensures Offset(j, unit) <= Offset(k, unit)
  {
  }

  /** The pieces up to the last but one are full; the last ends at the end. */
  lemma CountMeans(length: nat, unit: nat)
    requires unit > 0
    ensures var c := PieceCount(length, unit); length <= Offset(c, unit) < length + unit
  {
    var q := (length + unit - 1) / unit;
    assert (length + unit - 1) == q * unit + (length + unit - 1) % unit;
  }

  lemma PieceFits(length: nat, unit: nat, k: nat)
    requires unit > 0
    ensures k < PieceCount(length, unit) <==> Offset(k, unit) < length
    ensures k < PieceCount(length, unit) ==>
              Offset(k, unit) + PieceLength(length, unit, k)
              == if k + 1 < PieceCount(length, unit) then Offset(k + 1, unit) else length
    ensures k < PieceCount(length, unit) ==> 0 < PieceLength(length, unit, k) <= unit
  {
    var c := PieceCount(length, unit);
    CountMeans(length, unit);
    OffsetNext(k, unit);
    hide PieceCount;
    if k < c {
      OffsetNext(c - 1, unit);
      OffsetMonotone(k, c - 1, unit);
      if k + 1 < c {
        OffsetMonotone(k + 1, c - 1, unit);
      }
    } else {
      OffsetMonotone(c, k, unit);
    }
  }

  datatype Piece = Piece(number: nat, offset: nat, length: nat)

  ghost predicate Cut(pieces: seq<Piece>, length: nat, unit: nat) {
    forall k :: 0 <= k < |pieces| ==> pieces[k] == Piece(k, Offset(k, unit), PieceLength(length, unit, k))
  }

  /** The loop of enet_peer_send that cuts a packet. */
  method CutPacket(dataLength: nat, unit: nat) returns (pieces: seq<Piece>)
    requires unit > 0
    ensures |pieces| == PieceCount(dataLength, unit) && Cut(pieces, dataLength, unit)
  {
    hide PieceCount, Offset;
    var fragmentLength, fragmentNumber, fragmentOffset := unit, 0, 0;
    pieces := [];
    OffsetNext(0, unit);
    PieceFits(dataLength, unit, 0);
    while fragmentOffset < dataLength
      invariant fragmentNumber == |pieces| <= PieceCount(dataLength, unit) && Cut(pieces, dataLength, unit)
      invariant if fragmentNumber < PieceCount(dataLength, unit)
                then fragmentOffset == Offset(fragmentNumber, unit) < dataLength && fragmentLength == unit
                else fragmentOffset == dataLength
      decreases dataLength - fragmentOffset
    {
      PieceFits(dataLength, unit, fragmentNumber);
      if dataLength - fragmentOffset < fragmentLength {
        fragmentLength := dataLength - fragmentOffset;
      }
      pieces := pieces + [Piece(fragmentNumber, fragmentOffset, fragmentLength)];
      fragmentNumber := fragmentNumber + 1;
      fragmentOffset := fragmentOffset + fragmentLength;
      PieceFits(dataLength, unit, fragmentNumber);
    }
  }

  /** Every byte lies in exactly one piece. */
  lemma PiecesTile(length: nat, unit: nat, x: nat)
    requires unit > 0 && x < length
    ensures var k := x / unit;
      && k < PieceCount(length, unit)
      && Offset(k, unit) <= x < Offset(k, unit) + PieceLength(length, unit, k)
      && forall j :: 0 <= j < PieceCount(length, unit) && j != k ==>
           !(Offset(j, unit) <= x < Offset(j, unit) + PieceLength(length, unit, j))
  {
    var k := x / unit;
    assert x == k * unit + x % unit;
    PieceFits(length, unit, k);
    OffsetNext(k, unit);
    forall j | 0 <= j < PieceCount(length, unit) && j != k
      ensures !(Offset(j, unit) <= x < Offset(j, unit) + PieceLength(length, unit, j))
    {
      PieceFits(length, unit, j);
      OffsetNext(j, unit);
      if j < k { OffsetMonotone(j + 1, k, unit); } else { OffsetMonotone(k + 1, j, unit); }
    }
  }

  // ----- what arrives

  function PieceOf(data: seq<byte>, unit: nat, k: nat): seq<byte>
    requires unit > 0 && k < PieceCount(|data|, unit)
  {
    PieceFits(|data|, unit, k);
    data[Offset(k, unit)..Offset(k, unit) + PieceLength(|data|, unit, k)]
  }

  /** Piece `k` of the data is in place. */
  ghost predicate InPlace(got: seq<byte>, data: seq<byte>, unit: nat, k: nat)
    requires unit > 0 && k < PieceCount(|data|, unit) && |got| == |data|
  {
    PieceOf(got, unit, k) == PieceOf(data, unit, k)
  }

  lemma WrittenParts(got: seq<byte>, offset: nat, piece: seq<byte>, lo: nat, hi: nat)
    requires offset + |piece| <= |got| && lo <= hi <= |got|
    ensures |Written(got, offset, piece)| == |got|
    ensures Written(got, offset, piece)[offset..offset + |piece|] == piece
    ensures hi <= offset || offset + |piece| <= lo ==> Written(got, offset, piece)[lo..hi] == got[lo..hi]
  {
  }

  lemma PieceBounds(data: seq<byte>, unit: nat, k: nat)
    requires unit > 0 && k < PieceCount(|data|, unit)
    ensures |PieceOf(data, unit, k)| == PieceLength(|data|, unit, k) <= |data|
    ensures Offset(k, unit) + |PieceOf(data, unit, k)| <= |data|
  {
    PieceFits(|data|, unit, k);
  }

  lemma PiecesApart(length: nat, unit: nat, j: nat, k: nat)
    requires unit > 0 && j < k < PieceCount(length, unit)
    ensures Offset(j, unit) + PieceLength(length, unit, j) <= Offset(k, unit) <= length
  {
    PieceFits(length, unit, j);
    PieceFits(length, unit, k);
    OffsetMonotone(j + 1, k, unit);
  }

  lemma WritingKeeps(got: seq<byte>, data: seq<byte>, unit: nat, j: nat, k: nat)
    requires unit > 0 && j < PieceCount(|data|, unit) && k < PieceCount(|data|, unit) && |got| == |data|
    requires j == k || InPlace(got, data, unit, j)
    ensures Offset(k, unit) + |PieceOf(data, unit, k)| <= |got|
    ensures |Written(got, Offset(k, unit), PieceOf(data, unit, k))| == |data|
    ensures InPlace(Written(got, Offset(k, unit), PieceOf(data, unit, k)), data, unit, j)
  {
    hide Offset, PieceCount, PieceLength, Written;
    PieceBounds(data, unit, k);
    PieceBounds(data, unit, j);
    if j < k { PiecesApart(|data|, unit, j, k); } else if k < j { PiecesApart(|data|, unit, k, j); }
    WrittenParts(got, Offset(k, unit), PieceOf(data, unit, k),
                 Offset(j, unit), Offset(j, unit) + PieceLength(|data|, unit, j));
  }

  /** Once every piece is in place the packet is what was sent. */
  lemma Reassembled(got: seq<byte>, data: seq<byte>, unit: nat)
    requires unit > 0 && |got| == |data|
    requires forall k :: 0 <= k < PieceCount(|data|, unit) ==> InPlace(got, data, unit, k)
    ensures got == data
  {
    forall x | 0 <= x < |data| ensures got[x] == data[x] {
      PiecesTile(|data|, unit, x);
      SameByte(got, data, unit, x / unit, x);
    }
  }

  lemma SameByte(got: seq<byte>, data: seq<byte>, unit: nat, k: nat, x: nat)
    requires unit > 0 && |got| == |data| && k < PieceCount(|data|, unit) && InPlace(got, data, unit, k)
    requires Offset(k, unit) <= x < Offset(k, unit) + PieceLength(|data|, unit, k)
    ensures x < |data| && got[x] == data[x]
  {
    PieceBounds(data, unit, k);
    PieceBounds(got, unit, k);
    hide Offset, PieceCount, PieceLength;
    assert PieceOf(got, unit, k)[x - Offset(k, unit)] == PieceOf(data, unit, k)[x - Offset(k, unit)];
  }
}
