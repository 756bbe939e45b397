/** Reading bytes at an arbitrary bit offset. */
module BitReaders {
  import opened Common

  const BYTE_BITS: nat := 8

  /** Bit `j` of a byte, the most significant first. */
  function BitOf(b: bv8, j: nat): bool
    requires j < 8
  {
    match j
    case 0 => b & 0x80 != 0
    case 1 => b & 0x40 != 0
    case 2 => b & 0x20 != 0
    case 3 => b & 0x10 != 0
    case 4 => b & 0x08 != 0
    case 5 => b & 0x04 != 0
    case 6 => b & 0x02 != 0
    case _ => b & 0x01 != 0
  }

  /** The bit string of `data`, continued with zeros for ever. */
  function Bit(data: seq<bv8>, i: nat): bool {
    i / 8 < |data| && BitOf(data[i / 8], i % 8)
  }

  datatype BitReader = BitReader(data: seq<bv8>, offset: nat) {

    function AddBitOffset(offs: nat): BitReader {
      BitReader(data, offset + offs)
    }

    /** The bits left; an offset beyond the data underflows. */
    function GetBitSize(): Option<nat> {
      if offset <= |data| * BYTE_BITS then Some(|data| * BYTE_BITS - offset) else None
    }

    function Read(n: nat): bv8 {
      var bitPos := offset + n * BYTE_BITS;
      Joined(data, bitPos / BYTE_BITS, bitPos % BYTE_BITS)
    }
  }

  /** The eight bits that start `shift` bits into byte `byteIx`; bytes beyond the data are zero. */
  function Joined(data: seq<bv8>, byteIx: nat, shift: nat): bv8
    requires shift < BYTE_BITS
  {
    if byteIx >= |data| then 0
    else
      var b0 := data[byteIx];
      if shift == 0 then b0
      else
        var b1 := if byteIx + 1 < |data| then data[byteIx + 1] else 0;
        (b0 << shift) | (b1 >> (BYTE_BITS - shift))
  }

  /** Two adjacent bytes, shifted and joined, give the eight bits that start `shift` bits in. */
  lemma JoinedBits(b0: bv8, b1: bv8, shift: nat, j: nat)
    requires 0 < shift < 8 && j < 8
    ensures BitOf((b0 << shift) | (b1 >> (8 - shift)), j) ==
            if j + shift < 8 then BitOf(b0, j + shift) else BitOf(b1, j + shift - 8)
  {
    match shift
    case 1 => match j { case 0 => case 1 => case 2 => case 3 => case 4 => case 5 => case 6 => case _ => }
    case 2 => match j { case 0 => case 1 => case 2 => case 3 => case 4 => case 5 => case 6 => case _ => }
    case 3 => match j { case 0 => case 1 => case 2 => case 3 => case 4 => case 5 => case 6 => case _ => }
    case 4 => match j { case 0 => case 1 => case 2 => case 3 => case 4 => case 5 => case 6 => case _ => }
    case 5 => match j { case 0 => case 1 => case 2 => case 3 => case 4 => case 5 => case 6 => case _ => }
    case 6 => match j { case 0 => case 1 => case 2 => case 3 => case 4 => case 5 => case 6 => case _ => }
    case _ => match j { case 0 => case 1 => case 2 => case 3 => case 4 => case 5 => case 6 => case _ => }
  }

  lemma ZeroBits(j: nat)
    requires j < 8
    ensures !BitOf(0, j)
  {}

  lemma JoinedIsBitString(data: seq<bv8>, byteIx: nat, shift: nat, j: nat)
    requires shift < 8 && j < 8
    ensures BitOf(Joined(data, byteIx, shift), j) == Bit(data, 8 * byteIx + shift + j)
  {
    hide BitOf;
    ZeroBits(j);
    BitAt(data, byteIx, shift + j);
    if byteIx < |data| && shift > 0 {
      var b1 := if byteIx + 1 < |data| then data[byteIx + 1] else 0;
      JoinedBits(data[byteIx], b1, shift, j);
    }
  }

  /** Bit `k` counted from the start of a byte, within that byte or the next. */
  lemma BitAt(data: seq<bv8>, byteIx: nat, k: nat)
    requires k < 16
    ensures Bit(data, 8 * byteIx + k) ==
            BitOf(if byteIx + k / 8 < |data| then data[byteIx + k / 8] else 0, k % 8)
  {}

  /** The shift-and-mask read refines the bit string: bit `j` of `Read(n)` is the bit `offset + 8n + j` of
      the data padded with zeros, for every data, offset, index and bit. */
  lemma ReadIsBitString(r: BitReader, n: nat, j: nat)
    requires j < 8
    ensures BitOf(r.Read(n), j) == Bit(r.data, r.offset + 8 * n + j)
  {
    hide BitOf, Bit, Joined;
    var bitPos := r.offset + n * BYTE_BITS;
    JoinedIsBitString(r.data, bitPos / 8, bitPos % 8, j);
    assert 8 * (bitPos / 8) + bitPos % 8 + j == r.offset + 8 * n + j;
  }

  /** Moving the offset by whole bytes only shifts the index. */
  lemma OffsetShiftsIndex(r: BitReader, k: nat, n: nat)
    ensures r.AddBitOffset(8 * k).Read(n) == r.Read(n + k)
  {}

  /** Copying out with successive reads and reading that copy from its start is the same as reading in place. */
  lemma ReadsReproduce(r: BitReader, count: nat, i: nat)
    requires i < 8 * count
    ensures Bit(seq(count, n requires 0 <= n => r.Read(n)), i) == Bit(r.data, r.offset + i)
  {
    ReadIsBitString(r, i / 8, i % 8);
  }

  /** The size is there exactly when the offset lies within the data or at its end, and underflows otherwise.
      It counts exactly the bits that belong to a byte of the data; all others are padding. */
  lemma SizeIsExact(r: BitReader, i: nat)
    ensures r.GetBitSize().None? <==> r.offset > 8 * |r.data|
    ensures r.GetBitSize().Some? ==>
              && (i < r.GetBitSize().value <==> (r.offset + i) / 8 < |r.data|)
              && (i >= r.GetBitSize().value ==> !Bit(r.data, r.offset + i))
  {}
}
