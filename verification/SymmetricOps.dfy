/** Encryption and decryption in parts: the block-size arithmetic of the session layer over an
    abstract cipher that emits whole blocks and buffers the rest. */
module SymmetricOps {
  import opened Cryptoki
  import opened Padding

  // ----- the cipher underneath -----------------------------------------------------------------

  /** A keyed cipher with its mode. The functions act on whole messages of whole blocks; a mode with
      an authentication tag (`aead`) works byte by byte and appends the tag. */
  datatype Cipher = Cipher(blockSize: nat, block: bool, padding: bool, aead: bool, tagBytes: nat, maximum: Option<nat>,
                           encipher: Bytes -> Bytes, decipher: Bytes -> Bytes, tag: Bytes -> Bytes)
  {
    function Unit(): nat { if block then blockSize else 1 }

    ghost predicate Lawful() {
      && 0 < blockSize <= 255 && (block ==> !aead) && (!aead ==> tagBytes == 0)
      && Streams(encipher, Unit()) && Streams(decipher, Unit())
      && (forall x: Bytes :: |x| % Unit() == 0 ==> decipher(encipher(x)) == x)
      && (forall x: Bytes :: |tag(x)| == tagBytes)
    }
  }

  /** Whole units go in and out one for one, and later input never changes earlier output. */
  ghost predicate Streams(f: Bytes -> Bytes, unit: nat) {
    && unit > 0
    && (forall x: Bytes {:trigger f(x)} :: |x| % unit == 0 ==> |f(x)| == |x|)
    && (forall x: Bytes, n: nat {:trigger f(x[..n])} :: |x| % unit == 0 && n <= |x| && n % unit == 0 ==> f(x[..n]) == f(x)[..n])
  }

  /** What has been fed to the cipher so far, and how much of its output has been handed out. */
  datatype Flow = Flow(fed: Bytes, emitted: nat) {
    function Buffered(): int { |fed| - emitted }
  }

  const START: Flow := Flow([], 0)

  /** Whole units that `n` bytes contain. */
  function Whole(n: nat, unit: nat): nat
    requires unit > 0
  {
    n / unit * unit
  }

  /** Encryption hands out every whole block at once. */
  function EncEmitted(c: Cipher, n: nat): nat
    requires c.Unit() > 0
  {
    Whole(n, c.Unit())
  }

  /** Decryption holds back what may still be padding, and everything if there is a tag to check. */
  function DecEmitted(c: Cipher, n: nat): nat
    requires c.Unit() > 0
  {
    if c.aead then 0
    else if c.block && c.padding then (if n == 0 then 0 else Whole(n - 1, c.blockSize))
    else Whole(n, c.Unit())
  }

  ghost predicate EncFlow(c: Cipher, st: Flow)
    requires c.Unit() > 0
  {
    st.emitted == EncEmitted(c, |st.fed|)
  }

  ghost predicate DecFlow(c: Cipher, st: Flow)
    requires c.Unit() > 0
  {
    st.emitted == DecEmitted(c, |st.fed|)
  }

  lemma WholeBounds(n: nat, unit: nat)
    requires unit > 0
    ensures Whole(n, unit) <= n < Whole(n, unit) + unit && Whole(n, unit) % unit == 0 && Whole(n, unit) / unit == n / unit
  {
    MultipleMod(n / unit, unit);
  }

  lemma WholeIs(n: nat, unit: nat, q: nat, r: nat)
    requires r < unit && n == q * unit + r
    ensures Whole(n, unit) == q * unit && n / unit == q && n % unit == r
  {
    DivUnique(n, unit, q, r);
  }

  lemma Split(n: nat, unit: nat)
    requires unit > 0
    ensures n == n / unit * unit + n % unit && n % unit < unit && Whole(n, unit) == n - n % unit
  {
  }

  lemma WholeAdds(n: nat, m: nat, unit: nat)
    requires unit > 0
    ensures Whole(n + m, unit) == Whole(n, unit) + Whole(n - Whole(n, unit) + m, unit)
    ensures (n + m) / unit == n / unit + (n % unit + m) / unit
    ensures n - Whole(n, unit) == n % unit
  {
    hide Whole;
    Split(n, unit);
    var q, r := n / unit, n % unit;
    Split(r + m, unit);
    var q', r' := (r + m) / unit, (r + m) % unit;
    Distribute(q, q', unit);
    WholeIs(n + m, unit, q + q', r');
  }

  lemma Distribute(a: nat, b: nat, m: nat)
    ensures (a + b) * m == a * m + b * m
  {
  }

  lemma WholeMono(n: nat, m: nat, unit: nat)
    requires unit > 0 && n <= m
    ensures Whole(n, unit) <= Whole(m, unit)
  {
    WholeAdds(n, m - n, unit);
  }

  lemma LawfulParts(c: Cipher)
    requires c.Lawful()
    ensures c.Unit() > 0 && 0 < c.blockSize <= 255 && (c.block ==> !c.aead && c.tagBytes == 0)
    ensures Streams(c.encipher, c.Unit()) && Streams(c.decipher, c.Unit())
  {
  }

  lemma SameLength(f: Bytes -> Bytes, unit: nat, x: Bytes)
    requires Streams(f, unit) && |x| % unit == 0
    ensures |f(x)| == |x|
  {
  }

  // ----- encryption: what comes out --------------------------------------------------------------------

  function EncNext(c: Cipher, st: Flow, data: Bytes): Flow
    requires c.Unit() > 0
  {
    Flow(st.fed + data, EncEmitted(c, |st.fed| + |data|))
  }

  lemma EncBounds(c: Cipher, st: Flow, data: Bytes)
    requires c.Lawful() && EncFlow(c, st)
    ensures var st' := EncNext(c, st, data);
            && EncFlow(c, st') && st.emitted <= st'.emitted <= |st'.fed| && st.emitted <= |st.fed|
            && |c.encipher(st'.fed[..st'.emitted])| == st'.emitted
            && st'.emitted - st.emitted == Whole(st.Buffered() + |data|, c.Unit())
  {
    hide Whole, Streams, Cipher.Lawful, Cipher.Unit;
    LawfulParts(c);
    var st' := EncNext(c, st, data);
    var u := c.Unit();
    WholeBounds(|st'.fed|, u);
    WholeBounds(|st.fed|, u);
    WholeAdds(|st.fed|, |data|, u);
    SameLength(c.encipher, u, st'.fed[..st'.emitted]);
    assert st.Buffered() + |data| == |st.fed| - Whole(|st.fed|, u) + |data|;
  }

  /** The part of the ciphertext that an update releases. */
  ghost function EncOut(c: Cipher, st: Flow, data: Bytes): (out: Bytes)
    requires c.Lawful() && EncFlow(c, st)
    ensures |out| == Whole(st.Buffered() + |data|, c.Unit())
  {
    EncBounds(c, st, data);
    var st' := EncNext(c, st, data);
    c.encipher(st'.fed[..st'.emitted])[st.emitted..]
  }

  /** Everything the message encrypts to; None if it cannot be encrypted. */
  function Ciphertext(c: Cipher, data: Bytes): Option<Bytes>
    requires c.Unit() > 0 && c.blockSize <= 255
  {
    if c.maximum.Some? && c.maximum.value < |data| then None
    else if !c.block then Some(c.encipher(data) + c.tag(data))
    else if c.padding then Some(c.encipher(Padded(data, c.blockSize)))
    else if |data| % c.blockSize != 0 then None
    else Some(c.encipher(data))
  }

  /** What the final call adds; None if a partial block is left over and may not be. */
  ghost function EncFinal(c: Cipher, st: Flow): Option<Bytes>
    requires c.Lawful() && EncFlow(c, st)
  {
    if !c.block then Some(c.tag(st.fed))
    else if c.padding then
      PaddedBounds(c, st);
      Some(c.encipher(Padded(st.fed, c.blockSize))[st.emitted..])
    else if |st.fed| % c.blockSize != 0 then None
    else Some([])
  }

  lemma PaddedBounds(c: Cipher, st: Flow)
    requires c.Lawful() && EncFlow(c, st) && c.block
    ensures |c.encipher(Padded(st.fed, c.blockSize))| == st.emitted + c.blockSize
  {
    hide Streams;
    PaddedLength(st.fed, c.blockSize);
    SameLength(c.encipher, c.Unit(), Padded(st.fed, c.blockSize));
    Distribute(|st.fed| / c.blockSize, 1, c.blockSize);
  }

  function Flatten(parts: seq<Bytes>): Bytes { if |parts| == 0 then [] else parts[0] + Flatten(parts[1..]) }

  /** Encryption in parts: an update for each, stopped by the message limit, then the final call. */
  ghost function EncParts(c: Cipher, st: Flow, parts: seq<Bytes>): Option<Bytes>
    requires c.Lawful() && EncFlow(c, st)
    decreases |parts|
  {
    if |parts| == 0 then EncFinal(c, st)
    else if c.maximum.Some? && c.maximum.value < |st.fed| + |parts[0]| then None
    else
      EncBounds(c, st, parts[0]);
      match EncParts(c, EncNext(c, st, parts[0]), parts[1..])
      case None => None
      case Some(rest) => Some(EncOut(c, st, parts[0]) + rest)
  }

  lemma PrefixOf(f: Bytes -> Bytes, unit: nat, x: Bytes, n: nat)
    requires Streams(f, unit) && |x| % unit == 0 && n <= |x| && n % unit == 0
    ensures f(x[..n]) == f(x)[..n]
  {
  }

  /** The final call completes what the updates have handed out. */
  lemma FinalCompletes(c: Cipher, st: Flow)
    requires c.Lawful() && EncFlow(c, st) && (c.maximum.Some? ==> |st.fed| <= c.maximum.value)
    ensures st.emitted <= |st.fed|
    ensures var f := EncFinal(c, st);
            f.Some? == Ciphertext(c, st.fed).Some? &&
            (f.Some? ==> Ciphertext(c, st.fed).value == c.encipher(st.fed[..st.emitted]) + f.value)
  {
    hide Whole, Streams, Cipher.Lawful, Padded;
    LawfulParts(c);
    var u := c.Unit();
    WholeBounds(|st.fed|, u);
    if !c.block {
      assert st.fed[..st.emitted] == st.fed;
    } else if c.padding {
      var p := Padded(st.fed, c.blockSize);
      PaddedLength(st.fed, c.blockSize);
      PrefixOf(c.encipher, u, p, st.emitted);
      SameLength(c.encipher, u, p);
      PaddingEnds(st.fed, c.blockSize);
      assert p[..st.emitted] == st.fed[..st.emitted];
      var x := c.encipher(p);
      assert x == x[..st.emitted] + x[st.emitted..];
    } else if |st.fed| % c.blockSize == 0 {
      WholeOfWhole(|st.fed|, u);
      assert st.fed[..st.emitted] == st.fed;
    }
  }

  lemma WholeOfWhole(n: nat, unit: nat)
    requires unit > 0 && n % unit == 0
    ensures Whole(n, unit) == n
  {
  }

  lemma {:induction false} PartsComplete(c: Cipher, st: Flow, parts: seq<Bytes>)
    requires c.Lawful() && EncFlow(c, st) && (c.maximum.Some? ==> |st.fed| <= c.maximum.value)
    ensures st.emitted <= |st.fed|
    ensures var r, whole := EncParts(c, st, parts), Ciphertext(c, st.fed + Flatten(parts));
            r.Some? == whole.Some? && (r.Some? ==> whole.value == c.encipher(st.fed[..st.emitted]) + r.value)
    decreases |parts|
  {
    hide Cipher.Lawful, Streams, EncFinal, Whole, Ciphertext, Cipher.Unit;
    LawfulParts(c);
    if |parts| == 0 {
      assert st.fed + Flatten(parts) == st.fed;
      FinalCompletes(c, st);
    } else {
      WholeBounds(|st.fed|, c.Unit());
      EncBounds(c, st, parts[0]);
      var st' := EncNext(c, st, parts[0]);
      assert st.fed + Flatten(parts) == st'.fed + Flatten(parts[1..]);
      if c.maximum.None? || |st'.fed| <= c.maximum.value {
        PartsComplete(c, st', parts[1..]);
        Continues(c, st, st');
      } else {
        TooLong(c, st'.fed, Flatten(parts[1..]));
      }
    }
  }

  lemma TooLong(c: Cipher, fed: Bytes, rest: Bytes)
    requires c.Unit() > 0 && c.blockSize <= 255 && c.maximum.Some? && c.maximum.value < |fed|
    ensures Ciphertext(c, fed + rest) == None
  {
  }

  lemma Continues(c: Cipher, st: Flow, st': Flow)
    requires c.Lawful() && EncFlow(c, st) && EncFlow(c, st')
    requires st.fed <= st'.fed && st.emitted <= st'.emitted <= |st'.fed| && st.emitted <= |st.fed|
    ensures |c.encipher(st'.fed[..st'.emitted])| == st'.emitted
    ensures c.encipher(st'.fed[..st'.emitted])[..st.emitted] == c.encipher(st.fed[..st.emitted])
  {
    hide Whole, Streams, Cipher.Lawful, Cipher.Unit;
    LawfulParts(c);
    var u := c.Unit();
    WholeBounds(|st.fed|, u);
    WholeBounds(|st'.fed|, u);
    SameLength(c.encipher, u, st'.fed[..st'.emitted]);
    PrefixOf(c.encipher, u, st'.fed[..st'.emitted], st.emitted);
    assert st'.fed[..st'.emitted][..st.emitted] == st.fed[..st.emitted];
  }

  /** A fresh operation has emitted nothing. */
  lemma StartFlow(c: Cipher)
    requires c.Lawful()
    ensures EncFlow(c, START) && DecFlow(c, START)
  {
  }

  ghost function EncryptInParts(c: Cipher, parts: seq<Bytes>): Option<Bytes>
    requires c.Lawful()
  {
    StartFlow(c);
    EncParts(c, START, parts)
  }

  /** However the message is cut into parts, the outputs of the updates and of the final call join to
      exactly what the one-shot call returns, and the message is accepted exactly if that accepts it. */
  lemma PartsEncryptTheWhole(c: Cipher, parts: seq<Bytes>)
    requires c.Lawful()
    ensures EncryptInParts(c, parts) == Ciphertext(c, Flatten(parts))
  {
    hide Streams, Cipher.Lawful, EncParts, Ciphertext;
    LawfulParts(c);
    StartFlow(c);
    PartsComplete(c, START, parts);
    assert START.fed + Flatten(parts) == Flatten(parts);
    SameLength(c.encipher, c.Unit(), START.fed[..0]);
    assert c.encipher(START.fed[..0]) == [];
    var r := EncParts(c, START, parts);
    if r.Some? { assert [] + r.value == r.value; }
  }

  // ----- decryption ------------------------------------------------------------------------------------------

  function DecNext(c: Cipher, st: Flow, data: Bytes): Flow
    requires c.Unit() > 0
  {
    Flow(st.fed + data, DecEmitted(c, |st.fed| + |data|))
  }

  lemma DecBounds(c: Cipher, st: Flow, data: Bytes)
    requires c.Lawful() && DecFlow(c, st)
    ensures var st' := DecNext(c, st, data);
            && DecFlow(c, st') && st.emitted <= st'.emitted <= |st'.fed| && st.emitted <= |st.fed|
            && st'.emitted % c.Unit() == 0 && st.emitted % c.Unit() == 0
            && |c.decipher(st'.fed[..st'.emitted])| == st'.emitted
  {
    hide DecEmitted, Streams, Cipher.Lawful, Cipher.Unit;
    LawfulParts(c);
    var st' := DecNext(c, st, data);
    DecEmittedBounds(c, |st.fed|);
    DecEmittedBounds(c, |st'.fed|);
    DecEmittedMono(c, |st.fed|, |st'.fed|);
    SameLength(c.decipher, c.Unit(), st'.fed[..st'.emitted]);
  }

  lemma DecEmittedBounds(c: Cipher, n: nat)
    requires c.Unit() > 0
    ensures DecEmitted(c, n) <= n && DecEmitted(c, n) % c.Unit() == 0
  {
    hide Whole, Cipher.Unit;
    WholeBounds(n, c.Unit());
    if c.aead || n == 0 {
      NothingIsWhole(c.Unit());
    } else {
      assert c.block ==> c.Unit() == c.blockSize by { UnitIs(c); }
      WholeBounds(n - 1, c.Unit());
    }
  }

  lemma UnitIs(c: Cipher)
    ensures c.Unit() == if c.block then c.blockSize else 1
  {
  }

  lemma NothingIsWhole(unit: nat)
    requires unit > 0
    ensures 0 % unit == 0 && Whole(0, unit) == 0
  {
  }

  lemma DecEmittedMono(c: Cipher, n: nat, m: nat)
    requires c.Unit() > 0 && n <= m
    ensures DecEmitted(c, n) <= DecEmitted(c, m)
  {
    hide Whole;
    WholeMono(n, m, c.Unit());
    if n > 0 { WholeMono(n - 1, m - 1, c.Unit()); }
  }

  /** The part of the message that an update releases. */
  ghost function DecOut(c: Cipher, st: Flow, data: Bytes): (out: Bytes)
    requires c.Lawful() && DecFlow(c, st)
    ensures |out| == DecNext(c, st, data).emitted - st.emitted
  {
    DecBounds(c, st, data);
    var st' := DecNext(c, st, data);
    c.decipher(st'.fed[..st'.emitted])[st.emitted..]
  }

  /** What the whole of a ciphertext decrypts to, or the return code that rejects it. */
  datatype Verdict = Accepted(data: Bytes) | Rejected(rv: Rv)

  function Plaintext(c: Cipher, x: Bytes): Verdict
    requires c.Unit() > 0 && 0 < c.blockSize <= 255
  {
    if c.maximum.Some? && c.maximum.value < |x| then Rejected(ENCRYPTED_DATA_LEN_RANGE)
    else if c.aead then
      if |x| < c.tagBytes then Rejected(ENCRYPTED_DATA_INVALID)
      else
        var data := c.decipher(x[..|x| - c.tagBytes]);
        if c.tag(data) == x[|x| - c.tagBytes..] then Accepted(data) else Rejected(ENCRYPTED_DATA_INVALID)
    else if !c.block then Accepted(c.decipher(x))
    else if |x| % c.blockSize != 0 then Rejected(ENCRYPTED_DATA_LEN_RANGE)
    else if c.padding then
      match Unpadded(c.decipher(x), c.blockSize)
      case None => Rejected(ENCRYPTED_DATA_INVALID)
      case Some(data) => Accepted(data)
    else Accepted(c.decipher(x))
  }

  /** What the final call adds, or the code it rejects with. */
  ghost function DecFinal(c: Cipher, st: Flow): Verdict
    requires c.Lawful() && DecFlow(c, st)
  {
    if c.aead then
      if |st.fed| < c.tagBytes then Rejected(ENCRYPTED_DATA_INVALID)
      else
        var data := c.decipher(st.fed[..|st.fed| - c.tagBytes]);
        if c.tag(data) == st.fed[|st.fed| - c.tagBytes..] then Accepted(data) else Rejected(ENCRYPTED_DATA_INVALID)
    else if !c.block then Accepted([])
    else if st.Buffered() % c.blockSize != 0 then Rejected(ENCRYPTED_DATA_LEN_RANGE)
    else if !c.padding then Accepted([])
    else
      match Unpadded(c.decipher(st.fed), c.blockSize)
      case None => Rejected(ENCRYPTED_DATA_INVALID)
      case Some(data) => Accepted(if st.emitted <= |data| then data[st.emitted..] else [])
  }

  /** Decryption in parts, stopped by the message limit. */
  ghost function DecParts(c: Cipher, st: Flow, parts: seq<Bytes>): Verdict
    requires c.Lawful() && DecFlow(c, st)
    decreases |parts|
  {
    if |parts| == 0 then DecFinal(c, st)
    else if c.maximum.Some? && c.maximum.value < |st.fed| + |parts[0]| then Rejected(ENCRYPTED_DATA_LEN_RANGE)
    else
      DecBounds(c, st, parts[0]);
      match DecParts(c, DecNext(c, st, parts[0]), parts[1..])
      case Rejected(rv) => Rejected(rv)
      case Accepted(rest) => Accepted(DecOut(c, st, parts[0]) + rest)
  }

  ghost function DecryptInParts(c: Cipher, parts: seq<Bytes>): Verdict
    requires c.Lawful()
  {
    StartFlow(c);
    DecParts(c, START, parts)
  }

  /** Padded decryption reaches the final call with exactly one block held back, provided the input
      was a positive number of whole blocks. */
  lemma OneBlockHeld(c: Cipher, st: Flow)
    requires c.Lawful() && DecFlow(c, st) && c.block && c.padding
    requires |st.fed| > 0 && |st.fed| % c.blockSize == 0
    ensures st.Buffered() == c.blockSize
  {
    hide Streams;
    var q := |st.fed| / c.blockSize;
    assert |st.fed| - 1 == (q - 1) * c.blockSize + (c.blockSize - 1);
    DivUnique(|st.fed| - 1, c.blockSize, q - 1, c.blockSize - 1);
  }

  /** What is buffered is a whole number of blocks exactly if all the input is. */
  lemma BufferedBlocks(c: Cipher, st: Flow)
    requires c.Lawful() && DecFlow(c, st) && c.block
    ensures st.Buffered() >= 0 && (st.Buffered() % c.blockSize == 0 <==> |st.fed| % c.blockSize == 0)
  {
    hide Whole, Streams, Cipher.Lawful;
    LawfulParts(c);
    DecBounds(c, st, []);
    assert st.fed + [] == st.fed;
    SameRemainder(|st.fed|, st.emitted, c.blockSize);
  }

  lemma SameRemainder(n: nat, e: nat, m: nat)
    requires m > 0 && e <= n && e % m == 0
    ensures (n - e) % m == n % m
  {
    var a, q, r := e / m, (n - e) / m, (n - e) % m;
    Distribute(a, q, m);
    DivUnique(n, m, a + q, r);
  }

  lemma DecFinalCompletes(c: Cipher, st: Flow)
    requires c.Lawful() && DecFlow(c, st) && (c.maximum.Some? ==> |st.fed| <= c.maximum.value)
    ensures st.emitted <= |st.fed|
    ensures match DecFinal(c, st)
            case Rejected(rv) => Plaintext(c, st.fed) == Rejected(rv)
            case Accepted(f) => Plaintext(c, st.fed) == Accepted(c.decipher(st.fed[..st.emitted]) + f)
  {
    hide Whole, Streams, Cipher.Lawful, Unpadded, Padded;
    LawfulParts(c);
    var u := c.Unit();
    DecBounds(c, st, []);
    assert st.fed + [] == st.fed;
    if c.aead {
      assert st.emitted == 0;
      SameLength(c.decipher, u, st.fed[..0]);
      assert c.decipher(st.fed[..0]) == [];
      var body := if |st.fed| >= c.tagBytes then c.decipher(st.fed[..|st.fed| - c.tagBytes]) else [];
      assert [] + body == body;
    } else if !c.block {
      WholeOfWhole(|st.fed|, u);
      assert st.fed[..st.emitted] == st.fed;
      assert c.decipher(st.fed) + [] == c.decipher(st.fed);
    } else {
      BufferedBlocks(c, st);
      if |st.fed| % c.blockSize == 0 {
        if c.padding { LastBlock(c, st); } else {
          WholeOfWhole(|st.fed|, u);
          assert st.fed[..st.emitted] == st.fed;
          assert c.decipher(st.fed) + [] == c.decipher(st.fed);
        }
      }
    }
  }

  lemma LastBlock(c: Cipher, st: Flow)
    requires c.Lawful() && DecFlow(c, st) && c.block && c.padding && |st.fed| % c.blockSize == 0
    ensures st.emitted <= |st.fed|
    ensures match Unpadded(c.decipher(st.fed), c.blockSize)
            case None => true
            case Some(data) => st.emitted <= |data| && data == c.decipher(st.fed[..st.emitted]) + data[st.emitted..]
  {
    hide Whole, Streams, Cipher.Lawful;
    LawfulParts(c);
    DecBounds(c, st, []);
    assert st.fed + [] == st.fed;
    SameLength(c.decipher, c.Unit(), st.fed);
    PrefixOf(c.decipher, c.Unit(), st.fed, st.emitted);
    if |st.fed| > 0 { OneBlockHeld(c, st); }
  }

  lemma {:induction false} PartsDecode(c: Cipher, st: Flow, parts: seq<Bytes>)
    requires c.Lawful() && DecFlow(c, st) && (c.maximum.Some? ==> |st.fed| <= c.maximum.value)
    ensures st.emitted <= |st.fed|
    ensures match DecParts(c, st, parts)
            case Rejected(rv) => Plaintext(c, st.fed + Flatten(parts)) == Rejected(rv)
            case Accepted(r) => Plaintext(c, st.fed + Flatten(parts)) == Accepted(c.decipher(st.fed[..st.emitted]) + r)
    decreases |parts|
  {
    hide Cipher.Lawful, Streams, DecFinal, Whole, Plaintext, Cipher.Unit;
    LawfulParts(c);
    if |parts| == 0 {
      assert st.fed + Flatten(parts) == st.fed;
      DecFinalCompletes(c, st);
    } else {
      DecBounds(c, st, parts[0]);
      var st' := DecNext(c, st, parts[0]);
      assert st.fed + Flatten(parts) == st'.fed + Flatten(parts[1..]);
      if c.maximum.None? || |st'.fed| <= c.maximum.value {
        PartsDecode(c, st', parts[1..]);
        DecContinues(c, st, st');
      } else {
        TooLongToDecrypt(c, st'.fed, Flatten(parts[1..]));
      }
    }
  }

  lemma TooLongToDecrypt(c: Cipher, fed: Bytes, rest: Bytes)
    requires c.Unit() > 0 && 0 < c.blockSize <= 255 && c.maximum.Some? && c.maximum.value < |fed|
    ensures Plaintext(c, fed + rest) == Rejected(ENCRYPTED_DATA_LEN_RANGE)
  {
  }

  lemma DecContinues(c: Cipher, st: Flow, st': Flow)
    requires c.Lawful() && st.emitted % c.Unit() == 0 && st'.emitted % c.Unit() == 0
    requires st.fed <= st'.fed && st.emitted <= st'.emitted <= |st'.fed| && st.emitted <= |st.fed|
    ensures |c.decipher(st'.fed[..st'.emitted])| == st'.emitted
    ensures c.decipher(st'.fed[..st'.emitted])[..st.emitted] == c.decipher(st.fed[..st.emitted])
  {
    hide Streams, Cipher.Lawful, Cipher.Unit;
    LawfulParts(c);
    SameLength(c.decipher, c.Unit(), st'.fed[..st'.emitted]);
    PrefixOf(c.decipher, c.Unit(), st'.fed[..st'.emitted], st.emitted);
    assert st'.fed[..st'.emitted][..st.emitted] == st.fed[..st.emitted];
  }

  /** However a ciphertext is cut into parts, decrypting it in parts gives the same message, or the
      same return code, as decrypting it at once. */
  lemma PartsDecryptTheWhole(c: Cipher, parts: seq<Bytes>)
    requires c.Lawful()
    ensures DecryptInParts(c, parts) == Plaintext(c, Flatten(parts))
  {
    hide Streams, Cipher.Lawful, DecParts, Plaintext, Cipher.Unit;
    LawfulParts(c);
    StartFlow(c);
    PartsDecode(c, START, parts);
    assert START.fed + Flatten(parts) == Flatten(parts);
    DecContinues(c, START, START);
    assert c.decipher(START.fed[..0]) == [];
    var r := DecParts(c, START, parts);
    if r.Accepted? { assert [] + r.data == r.data; }
  }

  /** What is encrypted in any parts and decrypted in any other parts comes back unchanged. */
  lemma RoundTripInParts(c: Cipher, parts: seq<Bytes>, xparts: seq<Bytes>)
    requires c.Lawful()
    requires EncryptInParts(c, parts) == Some(Flatten(xparts))
    requires c.maximum.Some? ==> |Flatten(xparts)| <= c.maximum.value
    ensures DecryptInParts(c, xparts) == Accepted(Flatten(parts))
  {
    hide EncryptInParts, DecryptInParts, Streams;
    PartsEncryptTheWhole(c, parts);
    PartsDecryptTheWhole(c, xparts);
    RoundTrip(c, Flatten(parts), Flatten(xparts));
  }

  lemma RoundTrip(c: Cipher, data: Bytes, x: Bytes)
    requires c.Lawful() && Ciphertext(c, data) == Some(x)
    requires c.maximum.Some? ==> |x| <= c.maximum.value
    ensures Plaintext(c, x) == Accepted(data)
  {
    hide Streams, Padded, Unpadded;
    LawfulParts(c);
    if !c.block {
      SameLength(c.encipher, 1, data);
      var n := |x| - |c.tag(data)|;
      assert x[..n] == c.encipher(data) && x[n..] == c.tag(data);
      if !c.aead { assert x[..n] == x; }
    } else if c.padding {
      PaddedLength(data, c.blockSize);
      SameLength(c.encipher, c.blockSize, Padded(data, c.blockSize));
      UnpaddedExactly(Padded(data, c.blockSize), c.blockSize, data);
    } else {
      SameLength(c.encipher, c.blockSize, data);
    }
  }
}
