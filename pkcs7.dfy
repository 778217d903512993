/**
 * The PKCS#7 padder of crypto/padding/pkcs7.go, the padding scheme of
 * section 6.3 of RFC 5652: a block cipher's plaintext of length l is
 * extended by k - (l mod k) bytes, each holding that count.
 */
module Padding {
  import opened Bytes

  /**
   * A padder with a block size fixed at construction; `NewPKCS7(blockSize)`
   * is the datatype constructor `PKCS7(blockSize)`.
   */
  datatype PKCS7 = PKCS7(blockSize: int)
  {
    /**
     * Appends `padding` bytes of value `byte(padding)`. Go's conversion to
     * `byte` keeps the low 8 bits, so for a block size above 255 the appended
     * bytes no longer carry the count. A block size of zero divides by zero and
     * a negative one makes `bytes.Repeat` panic, hence the precondition.
     */
    function Pad(plain: seq<Byte>): (r: seq<Byte>)
      requires blockSize > 0
      ensures |r| % blockSize == 0
      ensures |plain| < |r| <= |plain| + blockSize
      ensures r[..|plain|] == plain
      ensures forall i :: |plain| <= i < |r| ==> r[i] == (|r| - |plain|) % 256
      ensures |plain| % blockSize == 0 ==> |r| == |plain| + blockSize
    {
      var padding := blockSize - |plain| % blockSize;
      PadLength(|plain|, blockSize);
      plain + seq(padding, _ => padding % 256)
    }

    /**
     * Drops as many trailing bytes as the last byte says. Nothing else is
     * checked: the source indexes the last byte (a panic on empty input) and
     * slices to `length - unpadding` (a panic when that is negative).
     */
    function UnPad(data: seq<Byte>): (r: seq<Byte>)
      requires |data| > 0
      requires data[|data| - 1] <= |data|
      ensures |r| == |data| - data[|data| - 1]
      ensures data == r + data[|r|..]
    {
      data[..|data| - data[|data| - 1]]
    }

    /**
     * A correctly padded message in the sense of section 6.3 of RFC 5652:
     * a whole number of blocks whose last byte n lies in 1..blockSize and
     * whose last n bytes all equal n.
     */
    predicate WellPadded(data: seq<Byte>)
      requires blockSize > 0
    {
      && |data| > 0
      && |data| % blockSize == 0
      && 1 <= data[|data| - 1] <= blockSize
      && forall i :: |data| - data[|data| - 1] <= i < |data| ==> data[i] == data[|data| - 1]
    }
  }

  /** The arithmetic behind Pad's length: l + (k - l mod k) is the next multiple of k above l. */
  lemma PadLength(l: nat, k: int)
    requires k > 0
    ensures 0 < k - l % k <= k
    ensures (l + (k - l % k)) % k == 0
    ensures l % k == 0 ==> k - l % k == k
  {
    var q := l / k;
    assert l == q * k + l % k;
    assert l + (k - l % k) == (q + 1) * k;
    ModOfMultiple(q + 1, k);
  }

  lemma ModOfMultiple(q: int, k: int)
    requires k > 0
    ensures (q * k) % k == 0
  {
    ModUnique(q * k, k, q, 0);
  }

  /** Division with remainder is unique: a = q*k + r with 0 <= r < k fixes r. */
  lemma ModUnique(a: int, k: int, q: int, r: int)
    requires k > 0 && 0 <= r < k && a == q * k + r
    ensures a % k == r
  {
    var q', r' := a / k, a % k;
    assert a == q' * k + r';
    var d := q - q';
    assert d * k == r' - r by {
      assert q * k - q' * k == (q - q') * k;
    }
    if d >= 1 {
      MulAtLeast(d, k);
    } else if d <= -1 {
      MulAtLeast(-d, k);
    }
  }

  lemma {:induction false} MulAtLeast(d: int, k: int)
    requires d >= 1 && k > 0
    ensures d * k >= k
    decreases d
  {
    if d > 1 {
      MulAtLeast(d - 1, k);
      assert d * k == (d - 1) * k + k;
    }
  }

  /** Pad produces a well-padded message whenever the count fits in a byte. */
  lemma PadIsWellPadded(p: PKCS7, plain: seq<Byte>)
    requires 1 <= p.blockSize <= 255
    ensures p.WellPadded(p.Pad(plain))
  {
  }

  /** Round trip: UnPad accepts what Pad produces and recovers the plaintext. */
  lemma UnPadPad(p: PKCS7, plain: seq<Byte>)
    requires 1 <= p.blockSize <= 255
    ensures var padded := p.Pad(plain);
      padded[|padded| - 1] <= |padded| && p.UnPad(padded) == plain
  {
  }

  /** The other round trip: re-padding what UnPad strips from a well-padded message gives it back. */
  lemma PadUnPad(p: PKCS7, data: seq<Byte>)
    requires p.blockSize > 0
    requires p.WellPadded(data)
    ensures p.Pad(p.UnPad(data)) == data
  {
    var k, n := p.blockSize, data[|data| - 1];
    var plain := p.UnPad(data);
    var q := |data| / k;
    assert |data| == q * k + |data| % k;
    if n < k {
      ModUnique(|plain|, k, q - 1, k - n);
    } else {
      ModUnique(|plain|, k, q - 1, 0);
    }
    var padded := p.Pad(plain);
    assert |padded| == |data|;
    forall i | 0 <= i < |data| ensures padded[i] == data[i] {
      if i < |plain| {
        assert padded[..|plain|] == plain;
        assert padded[i] == padded[..|plain|][i];
      }
    }
  }

  /**
   * The round trip holds exactly when the count appended fits in a byte. A
   * count of 256 or more is written truncated, so UnPad strips fewer bytes
   * than Pad added.
   */
  lemma PadRoundTripIffCountFits(p: PKCS7, plain: seq<Byte>)
    requires p.blockSize > 0
    ensures (p.UnPad(p.Pad(plain)) == plain) <==> p.blockSize - |plain| % p.blockSize <= 255
  {
    var padded := p.Pad(plain);
    assert padded[|padded| - 1] == (|padded| - |plain|) % 256;
  }

  /**
   * UnPad accepts malformed padding: [9, 9, 5, 2] is a whole 4-byte block whose
   * last two bytes disagree, yet it yields [9, 9].
   */
  lemma UnPadDoesNotValidate()
    ensures !PKCS7(4).WellPadded([9, 9, 5, 2]) && PKCS7(4).UnPad([9, 9, 5, 2]) == [9, 9]
  {
    var data: seq<Byte> := [9, 9, 5, 2];
    assert data[2] != data[3];
  }
}
