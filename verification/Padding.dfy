/** The paddings used when keys are wrapped and data is encrypted: section 6.3 of RFC 5652, and the
    zero padding of CKM_AES_KEY_WRAP. */
module Padding {
  import opened Cryptoki

  function Repeat(b: byte, n: nat): (r: Bytes)
    ensures |r| == n && forall i :: 0 <= i < n ==> r[i] == b
  {
    seq(n, i => b)
  }

  /** Between one and `blocksize` bytes, each telling how many there are. */
  function Padded(data: Bytes, blocksize: nat): Bytes
    requires 0 < blocksize <= 255
  {
    var n := blocksize - |data| % blocksize;
    data + Repeat(n as byte, n)
  }

  lemma PaddedLength(data: Bytes, blocksize: nat)
    requires 0 < blocksize <= 255
    ensures |Padded(data, blocksize)| % blocksize == 0 && |data| < |Padded(data, blocksize)| <= |data| + blocksize
    ensures |Padded(data, blocksize)| == (|data| / blocksize + 1) * blocksize
  {
    var q, r := |data| / blocksize, |data| % blocksize;
    assert |data| == q * blocksize + r;
    assert |Padded(data, blocksize)| == (q + 1) * blocksize;
    MultipleMod(q + 1, blocksize);
  }

  lemma PaddedAligned(data: Bytes, blocksize: nat)
    requires 0 < blocksize <= 255
    ensures |Padded(data, blocksize)| % blocksize == 0
    ensures |Padded(data, blocksize)| == |data| + blocksize - |data| % blocksize
  {
    PaddedLength(data, blocksize);
  }

  lemma MultipleMod(q: nat, m: nat)
    requires m > 0
    ensures (q * m) % m == 0 && (q * m) / m == q
  {
    DivUnique(q * m, m, q, 0);
  }

  /** Quotient and remainder are what they look like. */
  lemma {:induction false} DivUnique(n: nat, m: nat, q: nat, r: nat)
    requires m > 0 && r < m && n == q * m + r
    ensures n / m == q && n % m == r
  {
    var q', r' := n / m, n % m;
    assert n == q' * m + r' && r' < m;
    if q' < q {
      MulMono(q' + 1, q, m);
    } else if q < q' {
      MulMono(q + 1, q', m);
    }
  }

  lemma {:induction false} MulMono(a: nat, b: nat, m: nat)
    requires a <= b
    ensures a * m <= b * m
    ensures a > 0 ==> (a - 1) * m + m <= b * m
    decreases b
  {
    if a < b { MulMono(a, b - 1, m); }
  }

  /** Pads in place: grows the buffer and fills the new bytes. */
  method RFC5652Pad(keydata: Bytes, blocksize: nat) returns (padded: Bytes)
    requires 0 < blocksize <= 255
    ensures padded == Padded(keydata, blocksize)
  {
    var wrappedlen := |keydata|;
    var padbytes := blocksize - wrappedlen % blocksize;
    padded := keydata;
    var i := 0;
    while i < padbytes
      invariant 0 <= i <= padbytes
      invariant padded == keydata + Repeat(padbytes as byte, i)
    {
      padded := padded + [padbytes as byte];
      assert Repeat(padbytes as byte, i) + [padbytes as byte] == Repeat(padbytes as byte, i + 1);
      i := i + 1;
    }
  }

  /** The data behind a padded buffer, if it is one. */
  function Unpadded(padded: Bytes, blocksize: nat): Option<Bytes>
    requires 0 < blocksize <= 255
  {
    if |padded| == 0 || |padded| % blocksize != 0 then None
    else
      var n := padded[|padded| - 1];
      if n == 0 || n > blocksize || n > |padded| || exists k :: |padded| - n <= k < |padded| && padded[k] != n then None
      else Some(padded[..|padded| - n])
  }

  /** Padding and unpadding are inverse to each other: a buffer is accepted exactly if it is the
      padding of something, and then yields that. */
  lemma UnpaddedExactly(padded: Bytes, blocksize: nat, data: Bytes)
    requires 0 < blocksize <= 255
    ensures Unpadded(padded, blocksize) == Some(data) <==> padded == Padded(data, blocksize)
  {
    if padded == Padded(data, blocksize) {
      PaddedLength(data, blocksize);
      PaddingEnds(data, blocksize);
    }
    if Unpadded(padded, blocksize) == Some(data) {
      BlockFits(|padded|, blocksize);
      UnpaddedIs(padded, blocksize, padded[|padded| - 1]);
    }
  }

  /** Accepts a non-empty buffer exactly if it is the padding of something, and then returns that. */
  method RFC5652Unpad(padded: Bytes, blocksize: nat) returns (keydata: Option<Bytes>)
    requires 0 < blocksize <= 255 && |padded| > 0
    ensures keydata == Unpadded(padded, blocksize)
    ensures forall data :: keydata == Some(data) <==> padded == Padded(data, blocksize)
  {
    forall data ensures Unpadded(padded, blocksize) == Some(data) <==> padded == Padded(data, blocksize) {
      UnpaddedExactly(padded, blocksize, data);
    }
    var wrappedlen := |padded|;
    if wrappedlen % blocksize != 0 { return None; }
    var padbyte := padded[wrappedlen - 1];
    if padbyte == 0 || padbyte > blocksize { return None; }
    BlockFits(wrappedlen, blocksize);
    var i := wrappedlen - padbyte;
    while i < wrappedlen
      invariant wrappedlen - padbyte <= i <= wrappedlen
      invariant forall k :: wrappedlen - padbyte <= k < i ==> padded[k] == padbyte
    {
      if padded[i] != padbyte { return None; }
      i := i + 1;
    }
    keydata := Some(padded[..wrappedlen - padbyte]);
  }

  /** How a padded buffer ends. */
  predicate EndsLike(padded: Bytes, data: Bytes, blocksize: nat) {
    && |data| < |padded| && data == padded[..|data|]
    && var n := |padded| - |data|;
       0 < n <= blocksize && forall k :: |data| <= k < |padded| ==> padded[k] == n
  }

  lemma PaddingEnds(data: Bytes, blocksize: nat)
    requires 0 < blocksize <= 255
    ensures EndsLike(Padded(data, blocksize), data, blocksize)
  {
    PaddedLength(data, blocksize);
  }

  lemma BlockFits(n: nat, blocksize: nat)
    requires n > 0 && blocksize > 0 && n % blocksize == 0
    ensures blocksize <= n
  {
  }

  lemma UnpaddedIs(padded: Bytes, blocksize: nat, n: byte)
    requires 0 < blocksize <= 255 && 0 < n <= blocksize <= |padded| && |padded| % blocksize == 0
    requires forall k :: |padded| - n <= k < |padded| ==> padded[k] == n
    ensures padded == Padded(padded[..|padded| - n], blocksize)
  {
    var data := padded[..|padded| - n];
    var q := |padded| / blocksize;
    assert |data| == (q - 1) * blocksize + (blocksize - n);
    if n == blocksize {
      DivUnique(|data|, blocksize, q - 1, 0);
    } else {
      DivUnique(|data|, blocksize, q - 1, blocksize - n);
    }
    assert blocksize - |data| % blocksize == n;
    assert padded == data + Repeat(n, n);
  }

  /** Padding loses nothing: different data pad to different buffers. */
  lemma PaddedInjective(data: Bytes, data': Bytes, blocksize: nat)
    requires 0 < blocksize <= 255 && Padded(data, blocksize) == Padded(data', blocksize)
    ensures data == data'
  {
    PaddingEnds(data, blocksize);
    PaddingEnds(data', blocksize);
    var padded := Padded(data, blocksize);
    assert padded[|padded| - 1] == |padded| - |data| && padded[|padded| - 1] == |padded| - |data'|;
  }

  // ----- zero padding -----------------------------------------------------------------------------

  const AES_WRAP_BLOCK: nat := 8

  function ZeroExtended(data: Bytes): (r: Bytes)
    ensures |r| % AES_WRAP_BLOCK == 0 && |data| <= |r| < |data| + AES_WRAP_BLOCK
    ensures r[..|data|] == data && forall i :: |data| <= i < |r| ==> r[i] == 0
  {
    if |data| % AES_WRAP_BLOCK == 0 then data else data + Repeat(0, AES_WRAP_BLOCK - |data| % AES_WRAP_BLOCK)
  }

  /** Grows the buffer to a multiple of eight and fills the new bytes with zeros. */
  method RFC3394Pad(keydata: Bytes) returns (padded: Bytes)
    ensures padded == ZeroExtended(keydata)
  {
    padded := keydata;
    var alignment := |keydata| % AES_WRAP_BLOCK;
    if alignment != 0 {
      var i := 0;
      while i < AES_WRAP_BLOCK - alignment
        invariant 0 <= i <= AES_WRAP_BLOCK - alignment
        invariant padded == keydata + Repeat(0, i)
      {
        padded := padded + [0];
        assert Repeat(0, i) + [0] == Repeat(0, i + 1);
        i := i + 1;
      }
    }
  }
}
