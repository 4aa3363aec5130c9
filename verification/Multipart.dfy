/** Objects too large for one request, cut into parts or blocks. */
module Multipart {
  import opened Wrappers
  import opened Bytes
  import opened Text

  const MIB: nat := 1048576

  // ----- S3: parts -----

  const SMALLEST_PART: nat := 5 * MIB
  const MOST_PARTS: nat := 10_000
  const PART: nat := 64 * MIB
  const U16_MAX: nat := 65535

  function Max(a: nat, b: nat): nat {
    if a >= b then a else b
  }

  function PartSize(length: nat): (size: nat)
    ensures size >= SMALLEST_PART
  {
    Max(Max(PART, CeilDiv(length, MOST_PARTS)), SMALLEST_PART)
  }

  // The object put back together from its pieces is the object; every piece but the
  // last is a full one, and none is empty.
  ghost predicate Partition(payload: Bytes, size: nat, pieces: seq<Bytes>) {
    && Concat(pieces) == payload
    && (forall i | 0 <= i < |pieces| :: 0 < |pieces[i]| <= size)
    && (forall i | 0 <= i < |pieces| - 1 :: |pieces[i]| == size)
  }

  // One part after another out of the staging file, numbered from one.
  method Parts(payload: Bytes, size: nat) returns (sent: Option<seq<(nat, Bytes)>>)
    requires size > 0
    ensures sent.Some? <==> CeilDiv(|payload|, size) <= U16_MAX
    ensures sent.Some? ==>
      && |sent.value| == CeilDiv(|payload|, size)
      && (forall i | 0 <= i < |sent.value| :: sent.value[i].0 == i + 1)
      && Partition(payload, size, seq(|sent.value|, i requires 0 <= i < |sent.value| => sent.value[i].1))
  {
    hide Concat;
    var count := CeilDiv(|payload|, size);
    if count > U16_MAX {
      return None;
    }
    var parts: seq<(nat, Bytes)> := [];
    ghost var pieces: seq<Bytes> := [];
    NothingYet(payload);
    CountCovers(|payload|, size);
    for index := 0 to count
      invariant |parts| == |pieces| == index
      invariant index * size <= |payload| || index == count
      invariant Concat(pieces) == payload[..Min(index * size, |payload|)]
      invariant forall i | 0 <= i < index :: parts[i] == (i + 1, pieces[i])
      invariant forall i | 0 <= i < index :: |pieces[i]| == if i == count - 1 then |payload| - i * size else size
    {
      PieceFits(|payload|, size, index);
      var offset := index * size;
      var taken := Min(size, |payload| - offset);
      var piece := payload[offset..offset + taken];
      PieceExtends(payload, offset, taken, pieces);
      parts, pieces := parts + [(index + 1, piece)], pieces + [piece];
    }
    assert payload[..|payload|] == payload;
    assert seq(|parts|, i requires 0 <= i < |parts| => parts[i].1) == pieces;
    forall i | 0 <= i < |pieces| ensures 0 < |pieces[i]| <= size {
      PieceFits(|payload|, size, i);
    }
    return Some(parts);
  }

  lemma NothingYet(payload: Bytes)
    ensures Concat([]) == payload[..0]
  {
  }

  lemma PieceExtends(payload: Bytes, offset: nat, taken: nat, pieces: seq<Bytes>)
    requires offset + taken <= |payload| && Concat(pieces) == payload[..offset]
    ensures Concat(pieces + [payload[offset..offset + taken]]) == payload[..offset + taken]
  {
    var piece := payload[offset..offset + taken];
    ConcatAppends(pieces, [piece]);
    assert Concat([piece]) == piece;
    assert payload[..offset + taken] == payload[..offset] + piece;
  }

  lemma CountCovers(length: nat, size: nat)
    requires size > 0
    ensures var count := CeilDiv(length, size);
      count * size >= length && (count > 0 ==> (count - 1) * size < length) && (length == 0 ==> count == 0)
  {
    var count := CeilDiv(length, size);
    assert count * size + (length + size - 1) % size == length + size - 1;
    if count > 0 { assert (count - 1) * size == count * size - size; }
    if length == 0 { RemainderIs(size - 1, size, 0, size - 1); }
  }

  // Every piece before the last is full; the last is what is left.
  lemma PieceFits(length: nat, size: nat, index: nat)
    requires size > 0 && index < CeilDiv(length, size)
    ensures index * size < length && (index + 1) * size == index * size + size
    ensures index < CeilDiv(length, size) - 1 ==> (index + 1) * size < length
    ensures index == CeilDiv(length, size) - 1 ==> 0 < length - index * size <= size
  {
    var count := CeilDiv(length, size);
    CountCovers(length, size);
    assert (index + 1) * size == index * size + size;
    Times(index, count - 1, size);
    if index < count - 1 { Times(index + 1, count - 1, size); }
    assert count * size == (count - 1) * size + size;
  }

  lemma Times(a: nat, b: nat, c: nat)
    requires a <= b
    ensures a * c <= b * c
  {
  }

  // The size chosen never asks for more parts than there may be, whatever the
  // length, so that no upload is refused for its number of parts.
  lemma PartsSuffice(length: nat)
    ensures CeilDiv(length, PartSize(length)) <= MOST_PARTS <= U16_MAX
  {
    FewEnough(length, PartSize(length), MOST_PARTS);
  }

  // And it is no larger than it has to be: the usual size, unless parts a byte smaller
  // would not have been enough.
  lemma PartsAreNoLarger(length: nat)
    ensures var size := PartSize(length);
      size >= 64 * 1048576 && (size == 64 * 1048576 || (size - 1) * 10_000 < length)
  {
    CountCovers(length, MOST_PARTS);
  }

  // So with blocks, of which the largest is all there is.
  lemma BlocksAreNoLarger(length: nat)
    ensures var size := BlockSize(length);
      && 64 * 1048576 <= size <= 4000 * 1048576
      && (size == 64 * 1048576 || (size - 1) * 50_000 < length)
  {
    CountCovers(length, MOST_BLOCKS);
    Times(BlockSize(length), Max(BLOCK, CeilDiv(length, MOST_BLOCKS)), MOST_BLOCKS);
  }

  lemma FewEnough(length: nat, size: nat, most: nat)
    requires size > 0 && most > 0 && size >= CeilDiv(length, most)
    ensures CeilDiv(length, size) <= most
  {
    CountCovers(length, most);
    CountCovers(length, size);
    var count := CeilDiv(length, size);
    Times(CeilDiv(length, most), size, most);
    assert most * size == size * most >= length;
    if count > most { Times(most, count - 1, size); }
  }

  // ----- Azure: blocks -----

  const BLOCK: nat := 64 * MIB
  const LARGEST_BLOCK: nat := 4000 * MIB
  const MOST_BLOCKS: nat := 50_000
  const BLOCK_DIGITS: nat := 8
  const UPLOAD_DIGITS: nat := 16

  function BlockSize(length: nat): (size: nat)
    ensures size > 0
  {
    Min(Max(BLOCK, CeilDiv(length, MOST_BLOCKS)), LARGEST_BLOCK)
  }

  function Padded(digits: string, width: nat): (s: string)
    ensures |s| == Max(width, |digits|)
  {
    seq(if |digits| < width then width - |digits| else 0, _ => '0') + digits
  }

  // What a block's id encodes: the upload's tag, and the block's place in it.
  function BlockId(upload: string, index: nat): string {
    upload + Padded(Decimal(index), BLOCK_DIGITS)
  }

  // Blocks are sent one by one under ids of their own, and the list of ids puts
  // them in order.
  method PutInBlocks(payload: Bytes, size: nat, upload: string)
    returns (sent: Option<(seq<string>, seq<Bytes>)>)
    requires size > 0 && |upload| == UPLOAD_DIGITS
    ensures sent.Some? <==> CeilDiv(|payload|, size) <= MOST_BLOCKS
    ensures sent.Some? ==>
      && |sent.value.0| == |sent.value.1| == CeilDiv(|payload|, size)
      && (forall i | 0 <= i < |sent.value.0| :: sent.value.0[i] == BlockId(upload, i))
      && Partition(payload, size, sent.value.1)
  {
    hide Concat, BlockId;
    var count := CeilDiv(|payload|, size);
    if count > MOST_BLOCKS {
      return None;
    }
    var ids, blocks: seq<Bytes> := [], [];
    NothingYet(payload);
    CountCovers(|payload|, size);
    for index := 0 to count
      invariant |ids| == |blocks| == index
      invariant index * size <= |payload| || index == count
      invariant Concat(blocks) == payload[..Min(index * size, |payload|)]
      invariant forall i | 0 <= i < index :: ids[i] == BlockId(upload, i)
      invariant forall i | 0 <= i < index :: |blocks[i]| == if i == count - 1 then |payload| - i * size else size
    {
      PieceFits(|payload|, size, index);
      var offset := index * size;
      var taken := Min(size, |payload| - offset);
      var block := payload[offset..offset + taken];
      PieceExtends(payload, offset, taken, blocks);
      ids, blocks := ids + [BlockId(upload, index)], blocks + [block];
    }
    assert payload[..|payload|] == payload;
    forall i | 0 <= i < |blocks| ensures 0 < |blocks[i]| <= size {
      PieceFits(|payload|, size, i);
    }
    return Some((ids, blocks));
  }

  // An object is refused exactly when even the largest blocks would be too many.
  lemma RefusedExactlyWhen(length: nat)
    ensures CeilDiv(length, BlockSize(length)) > MOST_BLOCKS <==> length > MOST_BLOCKS * LARGEST_BLOCK
  {
    var size := BlockSize(length);
    CountCovers(length, size);
    CountCovers(length, MOST_BLOCKS);
    if CeilDiv(length, MOST_BLOCKS) <= LARGEST_BLOCK {
      FewEnough(length, size, MOST_BLOCKS);
      Times(CeilDiv(length, MOST_BLOCKS), LARGEST_BLOCK, MOST_BLOCKS);
    } else {
      assert size == LARGEST_BLOCK;
      Times(LARGEST_BLOCK, CeilDiv(length, MOST_BLOCKS) - 1, MOST_BLOCKS);
    }
  }

  lemma {:induction false} FewDigits(n: nat, width: nat)
    requires width > 0 && n < Pow10(width)
    ensures |Decimal(n)| <= width
  {
    if n >= 10 {
      FewDigits(n / 10, width - 1);
    }
  }

  function Pow10(width: nat): nat {
    if width == 0 then 1 else 10 * Pow10(width - 1)
  }

  lemma {:induction false} ZerosAddNothing(digits: string, zeros: nat)
    requires forall i | 0 <= i < |digits| :: IsDigit(digits[i])
    ensures Value(seq(zeros, _ => '0') + digits) == Value(digits)
  {
    var s := seq(zeros, _ => '0') + digits;
    if digits == "" {
      if zeros > 0 {
        assert s[..|s| - 1] == seq(zeros - 1, _ => '0') + digits;
        ZerosAddNothing(digits, zeros - 1);
      }
    } else {
      assert s[..|s| - 1] == seq(zeros, _ => '0') + digits[..|digits| - 1];
      ZerosAddNothing(digits[..|digits| - 1], zeros);
    }
  }

  // The ids of one upload are all of one length and no two alike.
  lemma BlockIdsDiffer(upload: string, i: nat, j: nat)
    requires |upload| == UPLOAD_DIGITS && i < j < MOST_BLOCKS
    ensures |BlockId(upload, i)| == |BlockId(upload, j)| == UPLOAD_DIGITS + BLOCK_DIGITS
    ensures BlockId(upload, i) != BlockId(upload, j)
  {
    hide Decimal, Value;
    assert Pow10(2) == 100 && Pow10(4) == 10000 && Pow10(8) == 100000000;
    FewDigits(i, BLOCK_DIGITS);
    FewDigits(j, BLOCK_DIGITS);
    DecimalIsItsValue(i);
    DecimalIsItsValue(j);
    ZerosAddNothing(Decimal(i), BLOCK_DIGITS - |Decimal(i)|);
    ZerosAddNothing(Decimal(j), BLOCK_DIGITS - |Decimal(j)|);
    assert BlockId(upload, i)[UPLOAD_DIGITS..] == Padded(Decimal(i), BLOCK_DIGITS);
    assert BlockId(upload, j)[UPLOAD_DIGITS..] == Padded(Decimal(j), BLOCK_DIGITS);
  }
}
