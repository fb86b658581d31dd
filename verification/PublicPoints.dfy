/** Public points for ECDH come raw or as DER octet strings (section 8.7 of ITU-T X.690); the library
    works on the latter and has to tell which one it was given. */
module PublicPoints {
  import opened Cryptoki
  import opened Padding

  // ----- octet strings -----------------------------------------------------------------------------

  /** How many bytes a number needs. */
  function Significant(n: nat): (k: nat)
    ensures n < Power256(k) && (k > 0 ==> Power256(k - 1) <= n)
  {
    if n == 0 then 0 else 1 + Significant(n / 0x100)
  }

  /** The last `k` bytes of a number, most significant first. */
  function BigEndian(n: nat, k: nat): (bs: Bytes)
    ensures |bs| == k
  {
    if k == 0 then [] else BigEndian(n / 0x100, k - 1) + [n % 0x100]
  }

  lemma {:induction false} BigEndianRoundTrip(n: nat, k: nat)
    requires n < Power256(k)
    ensures FromBigEndian(BigEndian(n, k)) == n
  {
    if k > 0 {
      BigEndianRoundTrip(n / 0x100, k - 1);
      assert BigEndian(n, k)[..k - 1] == BigEndian(n / 0x100, k - 1);
    }
  }

  /** Lengths that fit a size_t. */
  predicate IsSize(n: nat) { n < Power256(8) }

  lemma {:induction false} PowerMono(a: nat, b: nat)
    requires a <= b
    ensures Power256(a) <= Power256(b)
    decreases b
  {
    if a < b { PowerMono(a, b - 1); }
  }

  lemma SizeBytes(n: nat)
    requires IsSize(n)
    ensures Significant(n) <= 8
  {
    if Significant(n) > 8 { PowerMono(8, Significant(n) - 1); }
  }

  /** The length field: one byte, or the number of bytes and then the bytes. */
  function LengthField(n: nat): Bytes
    requires IsSize(n)
  {
    SizeBytes(n);
    if n < 0x80 then [n] else [0x80 + Significant(n)] + BigEndian(n, Significant(n))
  }

  function OctetString(x: Bytes): Bytes
    requires IsSize(|x|)
  {
    [0x04] + LengthField(|x|) + x
  }

  /** The number in the first eight bytes. */
  function LongVal(bs: Bytes): nat { FromBigEndian(if |bs| <= 8 then bs else bs[..8]) }

  /** The test for an octet string: the tag, and a length field that fits what follows. */
  predicate LooksEncoded(x: Bytes) {
    && |x| >= 2 && x[0] == 0x04
    && if x[1] < 0x80 then x[1] == |x| - 2
       else
         var k := x[1] - 0x80;
         2 + k < |x| && LongVal(x[2..2 + k]) == |x| - 2 - k
  }

  /** Sizes of raw points: X25519, X448, P-256, P-384 and P-521. */
  predicate IsPointSize(n: nat) { n == 32 || n == 56 || n == 65 || n == 97 || n == 133 }

  function PubData(x: Bytes): Bytes
    requires IsSize(|x|)
  {
    if IsPointSize(|x|) || !LooksEncoded(x) then OctetString(x) else x
  }

  // ----- the code ------------------------------------------------------------------------------------

  /** The quotient of a number below 256 p by p is a byte, and 0 exactly below p. */
  lemma Quotient(n: nat, p: nat)
    requires p > 0 && n < 0x100 * p
    ensures 0 <= n / p < 0x100 && (n / p == 0 <==> n < p)
  {
    var q := n / p;
    assert n == q * p + n % p;
    if q > 0 { MulMono(1, q, p); }
    if q >= 0x100 { MulMono(0x100, q, p); }
  }

  lemma {:induction false} TopByte(n: nat, k: nat)
    requires k > 0 && n < Power256(k)
    ensures Power256(k - 1) > 0
    ensures n / Power256(k - 1) % 0x100 != 0 <==> Power256(k - 1) <= n
  {
    PowerPositive(k - 1);
    Quotient(n, Power256(k - 1));
    var q := n / Power256(k - 1);
    assert q % 0x100 == q;
  }

  lemma {:induction false} PowerPositive(k: nat)
    ensures Power256(k) > 0
  {
    if k > 0 { PowerPositive(k - 1); }
  }

  lemma SignificantIs(n: nat, k: nat)
    requires n < Power256(k) && (k > 0 ==> Power256(k - 1) <= n)
    ensures Significant(n) == k
  {
    var s := Significant(n);
    if s < k { PowerMono(s, k - 1); } else if k < s { PowerMono(k, s - 1); }
  }

  /** Counts the significant bytes from the top. */
  method CountBytes(len: nat) returns (bytes: nat)
    requires IsSize(len)
    ensures bytes == Significant(len)
  {
    hide Power256;
    bytes := 8;
    while bytes > 0
      invariant 0 <= bytes <= 8 && len < Power256(bytes)
    {
      TopByte(len, bytes);
      PowerPositive(bytes - 1);
      if len / Power256(bytes - 1) % 0x100 != 0 { break; }
      bytes := bytes - 1;
    }
    SignificantIs(len, bytes);
  }

  /** Fills the length bytes from the end. */
  method FillOctets(n: nat, bytes: nat) returns (octets: Bytes)
    ensures octets == BigEndian(n, bytes)
  {
    octets := [];
    var len, i := n, 0;
    while i < bytes
      invariant 0 <= i <= bytes && len >= 0
      invariant BigEndian(n, bytes) == BigEndian(len, bytes - i) + octets
    {
      octets := [len % 0x100] + octets;
      len := len / 0x100;
      i := i + 1;
    }
  }

  method Raw2Octet(x: Bytes) returns (r: Bytes)
    requires IsSize(|x|)
    ensures r == OctetString(x)
  {
    hide Power256, Significant;
    var header: Bytes;
    SizeBytes(|x|);
    if |x| < 0x80 {
      header := [0x04, |x|];
    } else {
      var bytes := CountBytes(|x|);
      var octets := FillOctets(|x|, bytes);
      header := [0x04, 0x80 + bytes] + octets;
    }
    r := header + x;
  }

  /** Reads at most eight bytes. */
  method ReadLong(bs: Bytes) returns (rv: nat)
    ensures rv == LongVal(bs)
  {
    rv := 0;
    var n := if |bs| <= 8 then |bs| else 8;
    var i := 0;
    while i < n
      invariant 0 <= i <= n && rv == FromBigEndian(bs[..i])
    {
      assert bs[..i + 1][..i] == bs[..i];
      rv := rv * 0x100 + bs[i];
      i := i + 1;
    }
    assert |bs| <= 8 ==> bs[..n] == bs;
  }

  method GetECDHPubData(pubData: Bytes) returns (r: Bytes)
    requires IsSize(|pubData|)
    ensures r == PubData(pubData)
  {
    hide IsSize, OctetString, LongVal;
    var len := |pubData|;
    var controlOctets := 2;
    if len == 32 || len == 56 || len == 65 || len == 97 || len == 133 {
      controlOctets := 0;
    } else if len < controlOctets || pubData[0] != 0x04 {
      controlOctets := 0;
    } else if pubData[1] < 0x80 {
      if pubData[1] != len - controlOctets { controlOctets := 0; }
    } else {
      var lengthOctets := pubData[1] - 0x80;
      controlOctets := controlOctets + lengthOctets;
      if controlOctets >= len {
        controlOctets := 0;
      } else {
        var length := ReadLong(pubData[2..2 + lengthOctets]);
        if length != len - controlOctets { controlOctets := 0; }
      }
    }
    if controlOctets != 0 { return pubData; }
    r := Raw2Octet(pubData);
  }

  // ----- what it achieves --------------------------------------------------------------------------------

  /** An encoding passes the test. */
  lemma EncodedIsRecognised(x: Bytes)
    requires IsSize(|x|)
    ensures LooksEncoded(OctetString(x))
  {
    hide Power256, Significant;
    var y, n := OctetString(x), |x|;
    SizeBytes(n);
    if n >= 0x80 {
      var k := Significant(n);
      assert y[1] == 0x80 + k && y[2..2 + k] == BigEndian(n, k);
      BigEndianRoundTrip(n, k);
    }
  }

  /** Encoding twice is avoided except where the encoding has the size of a raw point. */
  lemma EncodedStays(x: Bytes)
    requires IsSize(|x|) && IsSize(|OctetString(x)|)
    ensures PubData(OctetString(x)) == OctetString(x) <==> !IsPointSize(|OctetString(x)|)
  {
    hide LooksEncoded, LengthField, IsSize;
    EncodedIsRecognised(x);
    EncodedLonger(OctetString(x));
  }

  lemma EncodedLonger(x: Bytes)
    requires IsSize(|x|)
    ensures |OctetString(x)| >= |x| + 2
  {
  }

  /** A raw point of one of the five sizes and its encoding come out the same. */
  lemma RawAndEncodedAgree(point: Bytes)
    requires IsPointSize(|point|)
    ensures IsSize(|point|) && IsSize(|OctetString(point)|)
    ensures PubData(point) == OctetString(point) && PubData(OctetString(point)) == OctetString(point)
  {
    SmallSizes();
    if |point| == 133 { SignificantIs(133, 1); }
    assert |OctetString(point)| == if |point| == 133 then 136 else |point| + 2;
    EncodedIsRecognised(point);
  }

  lemma SmallSizes()
    ensures forall n: nat :: n < 0x1_0000 ==> IsSize(n)
  {
    PowerMono(2, 8);
    assert Power256(1) == 0x100 && Power256(2) == 0x1_0000;
  }

  /** Input is passed through exactly if it has not the size of a raw point and consists of the tag, a
      length field and as many bytes as that says (fields of up to eight bytes). */
  lemma UnchangedExactly(x: Bytes)
    requires IsSize(|x|) && (|x| >= 2 && x[1] >= 0x80 ==> x[1] <= 0x88)
    ensures PubData(x) == x <==>
      && !IsPointSize(|x|) && |x| >= 2 && x[0] == 0x04
      && exists content: Bytes, octets: Bytes :: x == [0x04, x[1]] + octets + content && Announces(x[1], octets, |content|)
  {
    hide Power256, Significant;
    EncodedLonger(x);
    if PubData(x) == x {
      var k := if x[1] < 0x80 then 0 else x[1] - 0x80;
      var octets, content := x[2..2 + k], x[2 + k..];
      assert x == [0x04, x[1]] + octets + content;
      assert Announces(x[1], octets, |content|);
    }
    if |x| >= 2 && x[0] == 0x04 {
      forall content: Bytes, octets: Bytes | x == [0x04, x[1]] + octets + content && Announces(x[1], octets, |content|)
        ensures LooksEncoded(x)
      {
        assert x[2..2 + |octets|] == octets;
      }
    }
  }

  /** What a first length byte and the bytes after it say about the size of the content; content
      is not empty after a long field. */
  predicate Announces(first: byte, octets: Bytes, size: nat) {
    if first < 0x80 then octets == [] && size == first
    else |octets| == first - 0x80 && size > 0 && FromBigEndian(octets) == size
  }

  /** Of longer length fields only the first eight bytes are looked at: this one says 256, one byte
      follows, and it is accepted. */
  lemma LongFieldMisread()
    ensures var octets: Bytes := [0, 0, 0, 0, 0, 0, 0, 1, 0];
            FromBigEndian(octets) == 0x100 && LooksEncoded([0x04, 0x89] + octets + [7])
  {
    var octets: Bytes := [0, 0, 0, 0, 0, 0, 0, 1, 0];
    var x := [0x04, 0x89] + octets + [7];
    assert x[2..11] == octets;
    assert octets[..8] == [0, 0, 0, 0, 0, 0, 0, 1];
    Leading([0, 0, 0, 0, 0, 0, 0]);
    assert octets[..8][..7] == [0, 0, 0, 0, 0, 0, 0];
  }

  lemma {:induction false} Leading(zeros: Bytes)
    requires forall i :: 0 <= i < |zeros| ==> zeros[i] == 0
    ensures FromBigEndian(zeros) == 0
  {
    if |zeros| > 0 { Leading(zeros[..|zeros| - 1]); }
  }

  /** Normalising twice is normalising once exactly if the result has not the size of a raw point. */
  lemma IdempotentExactly(x: Bytes)
    requires IsSize(|x|) && IsSize(|PubData(x)|)
    ensures PubData(PubData(x)) == PubData(x) <==> !IsPointSize(|PubData(x)|)
  {
    hide LooksEncoded, LengthField, IsSize;
    if PubData(x) == OctetString(x) {
      EncodedStays(x);
    }
  }

  /** Encoding loses nothing. */
  lemma OctetStringInjective(x: Bytes, y: Bytes)
    requires IsSize(|x|) && IsSize(|y|) && OctetString(x) == OctetString(y)
    ensures x == y
  {
    hide Power256, Significant;
    var z := OctetString(x);
    var h, h' := 1 + |LengthField(|x|)|, 1 + |LengthField(|y|)|;
    assert z[1] == LengthField(|x|)[0] && z[1] == LengthField(|y|)[0];
    SizeBytes(|x|);
    SizeBytes(|y|);
    assert h == h';
    assert z[h..] == x && z[h..] == y;
  }

  /** No two inputs are confused unless one is the encoding of the other. */
  lemma ConfusesOnlyEncodings(x: Bytes, y: Bytes)
    requires IsSize(|x|) && IsSize(|y|) && PubData(x) == PubData(y)
    ensures x == y || x == OctetString(y) || y == OctetString(x)
  {
    hide LooksEncoded, OctetString, IsSize;
    if PubData(x) == OctetString(x) && PubData(y) == OctetString(y) { OctetStringInjective(x, y); }
  }
}
