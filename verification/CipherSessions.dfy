/** The session layer of encryption and decryption: announced buffer sizes, retries, and the state of
    the operation, over the ciphers of module SymmetricOps. */
module CipherSessions {
  import opened Cryptoki
  import opened Padding
  import opened SymmetricOps

  // ----- machine arithmetic ----------------------------------------------------------------------

  const TWO_31: nat := 0x8000_0000
  const TWO_32: nat := 0x1_0000_0000
  const TWO_63: nat := 0x8000_0000_0000_0000
  const TWO_64: nat := 0x1_0000_0000_0000_0000

  /** Storing a size in an `int`. */
  function Int32(n: nat): int { var r := n % TWO_32; if r < TWO_31 then r else r - TWO_32 }

  /** Storing a result in a CK_ULONG. */
  function U64(n: int): nat { n % TWO_64 }

  /** The size announced for a number of whole blocks. */
  function BlocksAnnounced(n: nat, blockSize: nat): nat { U64(Int32(n) * blockSize) }

  lemma MulBound(a: nat, b: nat, x: nat, y: nat)
    requires a <= x && b <= y
    ensures 0 <= a * b <= x * y
  {
    MulMono(a, x, b);
    assert x * b == b * x && x * y == y * x;
    MulMono(b, y, x);
  }

  /** The announcement is right exactly if the block count fits the `int` it passes through. */
  lemma AnnouncedExactly(n: nat, blockSize: nat)
    requires 0 < blockSize <= 255 && n * blockSize < TWO_63
    ensures BlocksAnnounced(n, blockSize) == n * blockSize <==> n < TWO_31
  {
    var r := n % TWO_32;
    if r < TWO_31 {
      MulBound(r, blockSize, TWO_31, 255);
      assert BlocksAnnounced(n, blockSize) == r * blockSize;
      if n >= TWO_31 {
        MulMono(r + 1, n, blockSize);
      }
    } else {
      var k := TWO_32 - r;
      MulBound(k, blockSize, TWO_31, 255);
      MulMono(1, k, blockSize);
      assert Int32(n) * blockSize == -(k * blockSize);
      assert BlocksAnnounced(n, blockSize) == TWO_64 - k * blockSize;
    }
  }

  /** What an encryption update announces. */
  function EncAnnounced(c: Cipher, st: Flow, len: nat): nat
    requires c.Unit() > 0 && st.Buffered() >= 0
  {
    if c.block then BlocksAnnounced((len + st.Buffered()) / c.blockSize, c.blockSize) else len + st.Buffered()
  }

  /** What a decryption update announces: one byte is held back for padding, which wraps around when
      there is none. */
  function DecAnnounced(c: Cipher, st: Flow, len: nat): nat
    requires c.Unit() > 0 && st.Buffered() >= 0
  {
    if c.block then BlocksAnnounced(U64(len + st.Buffered() - if c.padding then 1 else 0) / c.blockSize, c.blockSize)
    else len + st.Buffered()
  }

  /** Sizes for which block counts fit an `int`. */
  predicate Fits(c: Cipher, n: nat) { c.block && c.blockSize > 0 ==> n / c.blockSize < TWO_31 }

  lemma BlocksFit(n: nat, blockSize: nat)
    requires 0 < blockSize <= 255 && n < TWO_31
    ensures BlocksAnnounced(n, blockSize) == n * blockSize
  {
    MulBound(n, blockSize, TWO_31, 255);
    AnnouncedExactly(n, blockSize);
  }

  lemma WholeBlocksFit(n: nat, blockSize: nat)
    requires 0 < blockSize <= 255 && n / blockSize < TWO_31
    ensures BlocksAnnounced(n / blockSize, blockSize) == Whole(n, blockSize)
  {
    BlocksFit(n / blockSize, blockSize);
  }

  /** An encryption update announces exactly the bytes it will hand out. */
  lemma EncAnnouncedExactly(c: Cipher, st: Flow, data: Bytes)
    requires c.Lawful() && EncFlow(c, st)
    ensures st.Buffered() >= 0
    ensures Fits(c, |data| + st.Buffered()) ==> EncAnnounced(c, st, |data|) == |EncOut(c, st, data)|
  {
    hide Streams, BlocksAnnounced, Whole, Cipher.Lawful;
    LawfulParts(c);
    EncBounds(c, st, data);
    var n := |data| + st.Buffered();
    if !c.block { WholeOfWhole(n, 1); } else if Fits(c, n) { WholeBlocksFit(n, c.blockSize); }
  }

  lemma DecOutLength(c: Cipher, st: Flow, data: Bytes)
    requires c.Lawful() && DecFlow(c, st)
    ensures st.Buffered() >= 0
    ensures var n := |data| + st.Buffered();
            |DecOut(c, st, data)| ==
              if c.aead then 0
              else if c.block && c.padding then (if n == 0 then 0 else Whole(n - 1, c.blockSize))
              else Whole(n, c.Unit())
  {
    hide Streams, Whole, Cipher.Lawful;
    LawfulParts(c);
    DecBounds(c, st, data);
    var f, m, u := |st.fed|, |data|, c.Unit();
    if !c.aead {
      if c.block && c.padding {
        if f == 0 {
        } else {
          WholeAdds(f - 1, m, u);
          assert f - 1 - Whole(f - 1, u) + m == m + st.Buffered() - 1;
        }
      } else {
        WholeAdds(f, m, u);
        assert f - Whole(f, u) + m == m + st.Buffered();
      }
    }
  }

  /** A decryption update always announces enough, unless padding is expected and there is not one
      byte given or buffered; then it announces a block less than the whole address space. */
  lemma DecAnnouncedEnough(c: Cipher, st: Flow, data: Bytes)
    requires c.Lawful() && DecFlow(c, st) && |data| + st.Buffered() < TWO_63
    ensures st.Buffered() >= 0
    ensures Fits(c, |data| + st.Buffered()) && (c.block && c.padding ==> |data| + st.Buffered() > 0) ==>
              if c.aead then DecAnnounced(c, st, |data|) >= |DecOut(c, st, data)| else DecAnnounced(c, st, |data|) == |DecOut(c, st, data)|
    ensures c.block && c.padding && |data| + st.Buffered() == 0 && TWO_64 % c.blockSize == 0 && TWO_64 / c.blockSize % TWO_32 == 0 ==>
              DecAnnounced(c, st, |data|) == TWO_64 - c.blockSize
  {
    hide Streams, BlocksAnnounced, Whole, Cipher.Lawful, U64;
    LawfulParts(c);
    DecOutLength(c, st, data);
    var n := |data| + st.Buffered();
    if !c.block {
      WholeOfWhole(n, 1);
    } else if n > 0 || !c.padding {
      var m := if c.padding then n - 1 else n;
      SmallU64(m);
      if Fits(c, n) {
        LessBlocks(m, n, c.blockSize);
        WholeBlocksFit(m, c.blockSize);
      }
    } else if TWO_64 % c.blockSize == 0 && TWO_64 / c.blockSize % TWO_32 == 0 {
      NothingBuffered(c.blockSize);
    }
  }

  lemma SmallU64(n: nat)
    requires n < TWO_64
    ensures U64(n) == n
  {
  }

  lemma LessBlocks(a: nat, b: nat, m: nat)
    requires m > 0 && a <= b
    ensures a / m <= b / m
  {
    WholeMono(a, b, m);
  }

  /** With nothing given and nothing buffered the size wraps: the block count becomes minus one. */
  lemma NothingBuffered(blockSize: nat)
    requires 0 < blockSize <= 255 && TWO_64 % blockSize == 0 && TWO_64 / blockSize % TWO_32 == 0
    ensures BlocksAnnounced(U64(-1) / blockSize, blockSize) == TWO_64 - blockSize
  {
    var q := TWO_64 / blockSize;
    assert TWO_64 - 1 == (q - 1) * blockSize + (blockSize - 1);
    DivUnique(TWO_64 - 1, blockSize, q - 1, blockSize - 1);
    var k := q / TWO_32;
    assert q - 1 == (k - 1) * TWO_32 + (TWO_32 - 1);
    DivUnique(q - 1, TWO_32, k - 1, TWO_32 - 1);
    assert Int32(q - 1) == -1;
  }

  // ----- the session --------------------------------------------------------------------------------

  datatype CipherOp = NoOperation | Encrypting | Decrypting | OtherOperation

  function Resized(x: Bytes, n: nat): Bytes { if n <= |x| then x[..n] else x + Repeat(0, n - |x|) }

  /** The size of the whole ciphertext, from the length of the message. */
  function EncryptedSize(c: Cipher, n: nat): nat
    requires c.Unit() > 0
  {
    if !c.block then n + c.tagBytes
    else if n % c.blockSize != 0 then n + c.blockSize - n % c.blockSize
    else if c.padding then n + c.blockSize
    else n
  }

  lemma FlowFits(c: Cipher, st: Flow)
    requires c.Lawful() && EncFlow(c, st)
    ensures 0 <= st.Buffered() < c.Unit()
  {
    hide Streams;
    LawfulParts(c);
    WholeBounds(|st.fed|, c.Unit());
  }

  /** What a call answered and what it left: the operation and what it has absorbed. */
  datatype Answer = Answer(rv: Rv, len: nat, out: Bytes, op: CipherOp, flow: Flow)

  predicate OverLimit(c: Cipher, st: Flow, n: nat) { c.maximum.Some? && c.maximum.value < |st.fed| + n }

  /** The one pattern of all calls that hand out bytes: a query or a buffer that is too small learns
      the size and changes nothing; otherwise the bytes are handed out and the operation moves on. */
  ghost predicate Delivers(a: Answer, room: Option<nat>, bytes: Bytes, announced: nat, op: CipherOp, flow: Flow, op': CipherOp, flow': Flow) {
    if room.None? then a.rv == OK && a.len == announced && a.out == [] && a.op == op && a.flow == flow
    else if room.value < announced then a.rv == BUFFER_TOO_SMALL && a.len == announced && a.out == [] && a.op == op && a.flow == flow
    else a.rv == OK && a.out == bytes && a.len == |bytes| && a.op == op' && (op' != NoOperation ==> a.flow == flow')
  }

  /** A running encryption fed with one more part. That the cipher returns more than announced cannot
      happen as long as block counts fit an `int`; a query or a retry then learns the exact size. */
  ghost predicate EncUpdateAnswer(c: Cipher, st: Flow, data: Bytes, room: Option<nat>, a: Answer)
    requires c.Lawful() && EncFlow(c, st)
  {
    FlowFits(c, st);
    if OverLimit(c, st, |data|) then a.rv == DATA_LEN_RANGE && a.op == NoOperation
    else Fits(c, |data| + st.Buffered()) ==>
           var release := EncOut(c, st, data);
           Delivers(a, room, release, |release|, Encrypting, st, Encrypting, EncNext(c, st, data))
  }

  ghost predicate EncFinalAnswer(c: Cipher, st: Flow, room: Option<nat>, a: Answer)
    requires c.Lawful() && EncFlow(c, st)
  {
    match EncFinal(c, st)
    case None => a.rv == DATA_LEN_RANGE && a.op == NoOperation
    case Some(last) => Delivers(a, room, last, |last|, Encrypting, st, NoOperation, st)
  }

  /** The one-shot call. It is not refused after updates; what it then returns is cut or filled to the
      size computed from the data alone. */
  ghost predicate EncryptAnswer(c: Cipher, st: Flow, data: Bytes, room: Option<nat>, a: Answer)
    requires c.Lawful() && EncFlow(c, st)
  {
    EncBounds(c, st, data);
    var last := EncFinal(c, EncNext(c, st, data));
    var size := EncryptedSize(c, |data|);
    if c.block && !c.padding && |data| % c.blockSize != 0 then a.rv == DATA_LEN_RANGE && a.op == NoOperation
    else if OverLimit(c, st, |data|) then a.rv == DATA_LEN_RANGE && a.op == NoOperation
    else if last.None? && room.Some? && room.value >= size then a.rv == GENERAL_ERROR && a.op == NoOperation
    else Delivers(a, room, if last.None? then [] else Resized(EncOut(c, st, data) + last.value, size), size, Encrypting, st, NoOperation, st)
  }

  /** A running decryption fed with one more part; the announced size is studied in
      DecAnnouncedEnough. */
  ghost predicate DecUpdateAnswer(c: Cipher, st: Flow, data: Bytes, room: Option<nat>, a: Answer)
    requires c.Lawful() && DecFlow(c, st)
  {
    if OverLimit(c, st, |data|) then a.rv == ENCRYPTED_DATA_LEN_RANGE && a.op == NoOperation
    else
      DecOutLength(c, st, data);
      Fits(c, |data| + st.Buffered()) && |data| + st.Buffered() < TWO_63 ==>
        Delivers(a, room, DecOut(c, st, data), DecAnnounced(c, st, |data|), Decrypting, st, Decrypting, DecNext(c, st, data))
  }

  /** What the final call of a decryption announces: in a padded mode one byte less than what is held,
      which wraps around when nothing is. */
  function DecFinalAnnounced(c: Cipher, st: Flow): nat {
    if c.block then U64(st.Buffered() - if c.padding then 1 else 0) else U64(st.Buffered())
  }

  ghost predicate DecFinalAnswer(c: Cipher, st: Flow, room: Option<nat>, a: Answer)
    requires c.Lawful() && DecFlow(c, st)
  {
    if c.block && st.Buffered() % c.blockSize != 0 then a.rv == ENCRYPTED_DATA_LEN_RANGE && a.op == NoOperation
    else match DecFinal(c, st)
      case Accepted(last) => Delivers(a, room, last, DecFinalAnnounced(c, st), Decrypting, st, NoOperation, st)
      case Rejected(rv) =>
        if room.Some? && room.value >= DecFinalAnnounced(c, st) then a.rv == rv && a.op == NoOperation
        else Delivers(a, room, [], DecFinalAnnounced(c, st), Decrypting, st, NoOperation, st)
  }

  ghost predicate DecryptAnswer(c: Cipher, st: Flow, data: Bytes, room: Option<nat>, a: Answer)
    requires c.Lawful() && DecFlow(c, st)
  {
    DecBounds(c, st, data);
    var last := DecFinal(c, DecNext(c, st, data));
    if c.block && |data| % c.blockSize != 0 then a.rv == ENCRYPTED_DATA_LEN_RANGE && a.op == NoOperation
    else if OverLimit(c, st, |data|) then a.rv == ENCRYPTED_DATA_LEN_RANGE && a.op == NoOperation
    else if last.Rejected? && room.Some? && room.value >= |data| then a.rv == ENCRYPTED_DATA_INVALID && a.op == NoOperation
    else
      var whole := if last.Accepted? then DecOut(c, st, data) + last.data else [];
      Delivers(a, room, if |whole| > |data| then whole[..|data|] else whole, |data|, Decrypting, st, NoOperation, st)
  }

  class CipherSession {
    var op: CipherOp
    var cipher: Cipher
    var flow: Flow

    ghost predicate Valid()
      reads this
    {
      && (op.Encrypting? ==> cipher.Lawful() && EncFlow(cipher, flow))
      && (op.Decrypting? ==> cipher.Lawful() && DecFlow(cipher, flow))
    }

    /** Nothing has happened: neither to the operation nor to what it has absorbed. */
    twostate predicate Untouched()
      reads this
    {
      op == old(op) && cipher == old(cipher) && flow == old(flow)
    }

    constructor (cipher: Cipher)
      ensures Valid() && op == NoOperation
    {
      op, this.cipher, flow := NoOperation, cipher, START;
    }

    method Init(c: Cipher, decrypt: bool) returns (rv: Rv)
      requires Valid() && c.Lawful()
      modifies this
      ensures Valid()
      ensures old(op) != NoOperation ==> rv == OPERATION_ACTIVE && Untouched()
      ensures old(op) == NoOperation ==>
                rv == OK && op == (if decrypt then Decrypting else Encrypting) && cipher == c && flow == START
    {
      hide Cipher.Lawful, Streams, EncFlow, DecFlow;
      if op != NoOperation { return OPERATION_ACTIVE; }
      StartFlow(c);
      op, cipher, flow := if decrypt then Decrypting else Encrypting, c, START;
      return OK;
    }

    method ResetOp()
      modifies this`op
      ensures op == NoOperation && Valid()
    {
      op := NoOperation;
    }

    method SymEncryptUpdate(data: Bytes, room: Option<nat>) returns (rv: Rv, len: nat, out: Bytes)
      requires Valid() && op == Encrypting
      modifies this
      ensures rv != OK ==> out == []
      ensures Valid() && cipher == old(cipher)
      ensures EncUpdateAnswer(cipher, old(flow), data, room, Answer(rv, len, out, op, flow))
    {
      hide Cipher.Lawful, Streams, EncOut, EncAnnounced, EncNext, EncFlow;
      len, out := 0, [];
      LawfulParts(cipher);
      EncBounds(cipher, flow, data);
      EncAnnouncedExactly(cipher, flow, data);
      var maxSize := EncAnnounced(cipher, flow, |data|);
      if OverLimit(cipher, flow, |data|) { ResetOp(); rv := DATA_LEN_RANGE; return; }
      if room.None? { len := maxSize; rv := OK; return; }
      if room.value < maxSize { len := maxSize; rv := BUFFER_TOO_SMALL; return; }
      var encrypted := Emit(cipher, flow, data);
      flow := EncNext(cipher, flow, data);
      if room.value < |encrypted| { ResetOp(); rv := GENERAL_ERROR; return; }
      out, len, rv := encrypted, |encrypted|, OK;
    }

    method SymEncryptFinal(room: Option<nat>) returns (rv: Rv, len: nat, out: Bytes)
      requires Valid() && op == Encrypting
      modifies this
      ensures rv != OK ==> out == []
      ensures Valid() && cipher == old(cipher)
      ensures EncFinalAnswer(cipher, old(flow), room, Answer(rv, len, out, op, flow))
    {
      hide Cipher.Lawful, Streams, EncFinal, EncFlow;
      len, out := 0, [];
      LawfulParts(cipher);
      EncFinalSize(cipher, flow);
      var remaining := flow.Buffered() + cipher.tagBytes;
      var size := remaining;
      if cipher.block {
        if remaining % cipher.blockSize != 0 && !cipher.padding { ResetOp(); rv := DATA_LEN_RANGE; return; }
        size := if cipher.padding then (remaining + cipher.blockSize) / cipher.blockSize * cipher.blockSize else remaining;
      }
      if room.None? { len := size; rv := OK; return; }
      if room.value < size { len := size; rv := BUFFER_TOO_SMALL; return; }
      var last := Finish(cipher, flow);
      ResetOp();
      if last.None? { rv := GENERAL_ERROR; return; }
      if room.value < |last.value| { rv := GENERAL_ERROR; return; }
      out, len, rv := last.value, |last.value|, OK;
    }

    method SymEncrypt(data: Bytes, room: Option<nat>) returns (rv: Rv, len: nat, out: Bytes)
      requires Valid() && op == Encrypting
      modifies this
      ensures rv != OK ==> out == []
      ensures Valid() && cipher == old(cipher)
      ensures EncryptAnswer(cipher, old(flow), data, room, Answer(rv, len, out, op, flow))
    {
      hide Cipher.Lawful, Streams, EncOut, EncFinal, EncryptedSize, EncFlow;
      len, out := 0, [];
      LawfulParts(cipher);
      EncBounds(cipher, flow, data);
      var maxSize := EncryptedSize(cipher, |data|);
      if cipher.block && !cipher.padding && |data| % cipher.blockSize != 0 { ResetOp(); rv := DATA_LEN_RANGE; return; }
      if OverLimit(cipher, flow, |data|) { ResetOp(); rv := DATA_LEN_RANGE; return; }
      if room.None? { len := maxSize; rv := OK; return; }
      if room.value < maxSize { len := maxSize; rv := BUFFER_TOO_SMALL; return; }
      var encrypted := Emit(cipher, flow, data);
      var last := Finish(cipher, EncNext(cipher, flow, data));
      ResetOp();
      if last.None? { rv := GENERAL_ERROR; return; }
      out := Resized(encrypted + last.value, maxSize);
      len, rv := |out|, OK;
    }

    /** C_EncryptUpdate: missing arguments end whatever operation is running, before anyone asks
        which one it is. */
    method EncryptUpdate(data: Option<Bytes>, room: Option<nat>) returns (rv: Rv, len: nat, out: Bytes)
      requires Valid()
      modifies this
      ensures rv != OK ==> out == []
      ensures Valid()
      ensures data.None? ==> rv == ARGUMENTS_BAD && op == NoOperation
      ensures data.Some? && old(op) != Encrypting ==> rv == OPERATION_NOT_INITIALIZED && Untouched()
      ensures data.Some? && old(op) == Encrypting ==>
                EncUpdateAnswer(old(cipher), old(flow), data.value, room, Answer(rv, len, out, op, flow)) && cipher == old(cipher)
    {
      hide EncUpdateAnswer;
      len, out := 0, [];
      if data.None? { ResetOp(); rv := ARGUMENTS_BAD; return; }
      if op != Encrypting { rv := OPERATION_NOT_INITIALIZED; return; }
      rv, len, out := SymEncryptUpdate(data.value, room);
    }

    /** C_EncryptFinal; `lenGiven` says whether there is a place to write the length to. */
    method EncryptFinal(lenGiven: bool, room: Option<nat>) returns (rv: Rv, len: nat, out: Bytes)
      requires Valid()
      modifies this
      ensures rv != OK ==> out == []
      ensures Valid()
      ensures !lenGiven ==> rv == ARGUMENTS_BAD && op == NoOperation
      ensures lenGiven && old(op) != Encrypting ==> rv == OPERATION_NOT_INITIALIZED && Untouched()
      ensures lenGiven && old(op) == Encrypting ==>
                EncFinalAnswer(old(cipher), old(flow), room, Answer(rv, len, out, op, flow)) && cipher == old(cipher)
    {
      hide EncFinalAnswer;
      len, out := 0, [];
      if !lenGiven { ResetOp(); rv := ARGUMENTS_BAD; return; }
      if op != Encrypting { rv := OPERATION_NOT_INITIALIZED; return; }
      rv, len, out := SymEncryptFinal(room);
    }

    /** C_Encrypt. */
    method Encrypt(data: Option<Bytes>, room: Option<nat>) returns (rv: Rv, len: nat, out: Bytes)
      requires Valid()
      modifies this
      ensures rv != OK ==> out == []
      ensures Valid()
      ensures data.None? ==> rv == ARGUMENTS_BAD && op == NoOperation
      ensures data.Some? && old(op) != Encrypting ==> rv == OPERATION_NOT_INITIALIZED && Untouched()
      ensures data.Some? && old(op) == Encrypting ==>
                EncryptAnswer(old(cipher), old(flow), data.value, room, Answer(rv, len, out, op, flow)) && cipher == old(cipher)
    {
      hide EncryptAnswer;
      len, out := 0, [];
      if data.None? { ResetOp(); rv := ARGUMENTS_BAD; return; }
      if op != Encrypting { rv := OPERATION_NOT_INITIALIZED; return; }
      rv, len, out := SymEncrypt(data.value, room);
    }

    method SymDecryptUpdate(data: Bytes, room: Option<nat>) returns (rv: Rv, len: nat, out: Bytes)
      requires Valid() && op == Decrypting
      modifies this
      ensures rv != OK ==> out == []
      ensures Valid() && cipher == old(cipher)
      ensures DecUpdateAnswer(cipher, old(flow), data, room, Answer(rv, len, out, op, flow))
    {
      hide Cipher.Lawful, Streams, DecOut, DecAnnounced, DecNext, DecFlow;
      len, out := 0, [];
      LawfulParts(cipher);
      DecBounds(cipher, flow, data);
      var maxSize := DecAnnounced(cipher, flow, |data|);
      SizeSuffices(cipher, flow, data);
      if OverLimit(cipher, flow, |data|) { ResetOp(); rv := ENCRYPTED_DATA_LEN_RANGE; return; }
      if room.None? { len := maxSize; rv := OK; return; }
      if room.value < maxSize { len := maxSize; rv := BUFFER_TOO_SMALL; return; }
      var decrypted := Release(cipher, flow, data);
      flow := DecNext(cipher, flow, data);
      if room.value < |decrypted| { ResetOp(); rv := ENCRYPTED_DATA_LEN_RANGE; return; }
      out, len, rv := decrypted, |decrypted|, OK;
    }

    method SymDecryptFinal(room: Option<nat>) returns (rv: Rv, len: nat, out: Bytes)
      requires Valid() && op == Decrypting && flow.Buffered() < TWO_64
      modifies this
      ensures rv != OK ==> out == []
      ensures Valid() && cipher == old(cipher)
      ensures DecFinalAnswer(cipher, old(flow), room, Answer(rv, len, out, op, flow))
    {
      hide Cipher.Lawful, Streams, DecFinal, DecFlow;
      len, out := 0, [];
      LawfulParts(cipher);
      DecFinalSize(cipher, flow);
      var size := DecFinalAnnounced(cipher, flow);
      if cipher.block && flow.Buffered() % cipher.blockSize != 0 { ResetOp(); rv := ENCRYPTED_DATA_LEN_RANGE; return; }
      if room.None? { len := size; rv := OK; return; }
      if room.value < size { len := size; rv := BUFFER_TOO_SMALL; return; }
      var last := Conclude(cipher, flow);
      ResetOp();
      if last.Rejected? { rv := ENCRYPTED_DATA_INVALID; return; }
      if room.value < |last.data| { rv := ENCRYPTED_DATA_LEN_RANGE; return; }
      out, len, rv := last.data, |last.data|, OK;
    }

    method SymDecrypt(data: Bytes, room: Option<nat>) returns (rv: Rv, len: nat, out: Bytes)
      requires Valid() && op == Decrypting
      modifies this
      ensures rv != OK ==> out == []
      ensures Valid() && cipher == old(cipher)
      ensures DecryptAnswer(cipher, old(flow), data, room, Answer(rv, len, out, op, flow))
    {
      hide Cipher.Lawful, Streams, DecOut, DecFinal, DecFlow;
      len, out := 0, [];
      LawfulParts(cipher);
      DecBounds(cipher, flow, data);
      if cipher.block && |data| % cipher.blockSize != 0 { ResetOp(); rv := ENCRYPTED_DATA_LEN_RANGE; return; }
      if OverLimit(cipher, flow, |data|) { ResetOp(); rv := ENCRYPTED_DATA_LEN_RANGE; return; }
      if room.None? { len := |data|; rv := OK; return; }
      if room.value < |data| { len := |data|; rv := BUFFER_TOO_SMALL; return; }
      var decrypted := Release(cipher, flow, data);
      var last := Conclude(cipher, DecNext(cipher, flow, data));
      ResetOp();
      if last.Rejected? { rv := ENCRYPTED_DATA_INVALID; return; }
      out := decrypted + last.data;
      if |out| > |data| { out := out[..|data|]; }
      len, rv := |out|, OK;
    }

    /** C_DecryptUpdate. */
    method DecryptUpdate(data: Option<Bytes>, room: Option<nat>) returns (rv: Rv, len: nat, out: Bytes)
      requires Valid()
      modifies this
      ensures rv != OK ==> out == []
      ensures Valid()
      ensures data.None? ==> rv == ARGUMENTS_BAD && op == NoOperation
      ensures data.Some? && old(op) != Decrypting ==> rv == OPERATION_NOT_INITIALIZED && Untouched()
      ensures data.Some? && old(op) == Decrypting ==>
                DecUpdateAnswer(old(cipher), old(flow), data.value, room, Answer(rv, len, out, op, flow)) && cipher == old(cipher)
    {
      hide DecUpdateAnswer;
      len, out := 0, [];
      if data.None? { ResetOp(); rv := ARGUMENTS_BAD; return; }
      if op != Decrypting { rv := OPERATION_NOT_INITIALIZED; return; }
      rv, len, out := SymDecryptUpdate(data.value, room);
    }

    /** C_DecryptFinal. */
    method DecryptFinal(lenGiven: bool, room: Option<nat>) returns (rv: Rv, len: nat, out: Bytes)
      requires Valid() && flow.Buffered() < TWO_64
      modifies this
      ensures rv != OK ==> out == []
      ensures Valid()
      ensures !lenGiven ==> rv == ARGUMENTS_BAD && op == NoOperation
      ensures lenGiven && old(op) != Decrypting ==> rv == OPERATION_NOT_INITIALIZED && Untouched()
      ensures lenGiven && old(op) == Decrypting ==>
                DecFinalAnswer(old(cipher), old(flow), room, Answer(rv, len, out, op, flow)) && cipher == old(cipher)
    {
      hide DecFinalAnswer;
      len, out := 0, [];
      if !lenGiven { ResetOp(); rv := ARGUMENTS_BAD; return; }
      if op != Decrypting { rv := OPERATION_NOT_INITIALIZED; return; }
      rv, len, out := SymDecryptFinal(room);
    }

    /** C_Decrypt. */
    method Decrypt(data: Option<Bytes>, room: Option<nat>) returns (rv: Rv, len: nat, out: Bytes)
      requires Valid()
      modifies this
      ensures rv != OK ==> out == []
      ensures Valid()
      ensures data.None? ==> rv == ARGUMENTS_BAD && op == NoOperation
      ensures data.Some? && old(op) != Decrypting ==> rv == OPERATION_NOT_INITIALIZED && Untouched()
      ensures data.Some? && old(op) == Decrypting ==>
                DecryptAnswer(old(cipher), old(flow), data.value, room, Answer(rv, len, out, op, flow)) && cipher == old(cipher)
    {
      hide DecryptAnswer;
      len, out := 0, [];
      if data.None? { ResetOp(); rv := ARGUMENTS_BAD; return; }
      if op != Decrypting { rv := OPERATION_NOT_INITIALIZED; return; }
      rv, len, out := SymDecrypt(data.value, room);
    }
  }

  method Release(c: Cipher, st: Flow, data: Bytes) returns (out: Bytes)
    requires c.Lawful() && DecFlow(c, st)
    ensures out == DecOut(c, st, data)
  {
    hide Streams, Whole;
    DecBounds(c, st, data);
    var next := DecNext(c, st, data);
    out := c.decipher(next.fed[..next.emitted])[st.emitted..];
  }

  method Conclude(c: Cipher, st: Flow) returns (last: Verdict)
    requires c.Lawful() && DecFlow(c, st)
    ensures last == DecFinal(c, st)
  {
    hide Streams, Whole;
    if c.aead {
      if |st.fed| < c.tagBytes { return Rejected(ENCRYPTED_DATA_INVALID); }
      var data := c.decipher(st.fed[..|st.fed| - c.tagBytes]);
      return if c.tag(data) == st.fed[|st.fed| - c.tagBytes..] then Accepted(data) else Rejected(ENCRYPTED_DATA_INVALID);
    }
    if !c.block { return Accepted([]); }
    if st.Buffered() % c.blockSize != 0 { return Rejected(ENCRYPTED_DATA_LEN_RANGE); }
    if !c.padding { return Accepted([]); }
    var data := Unpadded(c.decipher(st.fed), c.blockSize);
    if data.None? { return Rejected(ENCRYPTED_DATA_INVALID); }
    return Accepted(if st.emitted <= |data.value| then data.value[st.emitted..] else []);
  }

  lemma SizeSuffices(c: Cipher, st: Flow, data: Bytes)
    requires c.Lawful() && DecFlow(c, st)
    ensures st.Buffered() >= 0
    ensures Fits(c, |data| + st.Buffered()) && |data| + st.Buffered() < TWO_63 ==> DecAnnounced(c, st, |data|) >= |DecOut(c, st, data)|
  {
    hide Streams, DecAnnounced, Whole, Cipher.Lawful;
    DecOutLength(c, st, data);
    if |data| + st.Buffered() < TWO_63 { DecAnnouncedEnough(c, st, data); }
  }

  /** The final call of a decryption never hands out more than it announces. */
  lemma DecFinalSize(c: Cipher, st: Flow)
    requires c.Lawful() && DecFlow(c, st) && st.Buffered() < TWO_64
    ensures st.Buffered() >= 0
    ensures var last := DecFinal(c, st);
            && (last.Accepted? ==> |last.data| <= DecFinalAnnounced(c, st))
            && (last.Rejected? ==> last.rv == ENCRYPTED_DATA_INVALID || (c.block && st.Buffered() % c.blockSize != 0))
  {
    hide Streams, Whole, Padded, Unpadded, Cipher.Lawful, U64;
    LawfulParts(c);
    DecBounds(c, st, []);
    assert st.fed + [] == st.fed;
    SmallU64(st.Buffered());
    if c.aead {
      if |st.fed| >= c.tagBytes { SameLength(c.decipher, 1, st.fed[..|st.fed| - c.tagBytes]); }
    } else if c.block && c.padding {
      BufferedBlocks(c, st);
      if st.Buffered() % c.blockSize == 0 {
        SameLength(c.decipher, c.blockSize, st.fed);
        UnpaddedShorter(c.decipher(st.fed), c.blockSize);
        if |st.fed| > 0 {
          OneBlockHeld(c, st);
          SmallU64(st.Buffered() - 1);
        }
      }
    }
  }

  lemma UnpaddedShorter(x: Bytes, blockSize: nat)
    requires 0 < blockSize <= 255
    ensures Unpadded(x, blockSize).Some? ==> |Unpadded(x, blockSize).value| < |x|
  {
  }

  /** The cipher's own update. */
  method Emit(c: Cipher, st: Flow, data: Bytes) returns (out: Bytes)
    requires c.Lawful() && EncFlow(c, st)
    ensures out == EncOut(c, st, data)
  {
    hide Streams, Whole;
    EncBounds(c, st, data);
    var next := EncNext(c, st, data);
    out := c.encipher(next.fed[..next.emitted])[st.emitted..];
  }

  /** The cipher's own final call. */
  method Finish(c: Cipher, st: Flow) returns (last: Option<Bytes>)
    requires c.Lawful() && EncFlow(c, st)
    ensures last == EncFinal(c, st)
  {
    hide Streams, Whole;
    FinalSizes(c, st);
    if !c.block { return Some(c.tag(st.fed)); }
    if c.padding { return Some(c.encipher(Padded(st.fed, c.blockSize))[st.emitted..]); }
    return if |st.fed| % c.blockSize != 0 then None else Some([]);
  }

  /** What the final call of an encryption has to hand out, against what it computes from the buffer. */
  lemma FinalSizes(c: Cipher, st: Flow)
    requires c.Lawful() && EncFlow(c, st)
    ensures st.Buffered() >= 0 && st.emitted <= |st.fed|
    ensures c.block && c.padding ==>
              && |c.encipher(Padded(st.fed, c.blockSize))| == st.emitted + c.blockSize
              && (st.Buffered() + c.blockSize) / c.blockSize * c.blockSize == c.blockSize
    ensures c.block ==> (st.Buffered() % c.blockSize == 0 <==> |st.fed| % c.blockSize == 0)
    ensures !c.block ==> st.Buffered() == 0 && |c.tag(st.fed)| == c.tagBytes
  {
    hide Streams;
    var u := c.Unit();
    WholeBounds(|st.fed|, u);
    if c.block {
      PaddedBounds(c, st);
      SameRemainder(|st.fed|, st.emitted, c.blockSize);
      DivUnique(st.Buffered() + c.blockSize, c.blockSize, 1, st.Buffered());
    }
  }

  /** Whether the final call of an encryption succeeds, and how much it then hands out. */
  lemma EncFinalSize(c: Cipher, st: Flow)
    requires c.Lawful() && EncFlow(c, st)
    ensures st.Buffered() >= 0
    ensures var remaining := st.Buffered() + c.tagBytes;
            && (EncFinal(c, st).None? <==> c.block && !c.padding && remaining % c.blockSize != 0)
            && (EncFinal(c, st).Some? ==>
                  |EncFinal(c, st).value| == if c.block && c.padding then (remaining + c.blockSize) / c.blockSize * c.blockSize else remaining)
            && (c.block && c.padding ==> EncFinal(c, st).Some? && |EncFinal(c, st).value| == c.blockSize)
  {
    hide Streams, Padded, Cipher.Lawful;
    LawfulParts(c);
    FinalSizes(c, st);
    WholeBounds(|st.fed|, c.Unit());
  }

  // ----- what the one-shot calls return ----------------------------------------------------------------

  /** Started afresh, C_Encrypt returns the whole ciphertext, and its announced size is exact. */
  lemma OneShotEncrypts(c: Cipher, data: Bytes)
    requires c.Lawful() && (c.maximum.Some? ==> |data| <= c.maximum.value)
    ensures EncFlow(c, START) && EncFlow(c, EncNext(c, START, data))
    ensures var whole := Ciphertext(c, data);
            var last := EncFinal(c, EncNext(c, START, data));
            && whole.Some? == last.Some?
            && (whole.Some? ==>
                  && whole.value == EncOut(c, START, data) + last.value
                  && |whole.value| == EncryptedSize(c, |data|)
                  && Resized(EncOut(c, START, data) + last.value, EncryptedSize(c, |data|)) == whole.value)
  {
    hide Streams, Cipher.Lawful, Ciphertext, EncFinal, EncOut, EncryptedSize, EncFlow;
    LawfulParts(c);
    StartFlow(c);
    EncBounds(c, START, data);
    PartsEncryptTheWhole(c, [data]);
    assert [data][1..] == [] && Flatten([data]) == data by { assert data + [] == data; }
    assert EncParts(c, EncNext(c, START, data), [data][1..]) == EncFinal(c, EncNext(c, START, data));
    EncryptedSizeIs(c, data);
  }

  lemma EncryptedSizeIs(c: Cipher, data: Bytes)
    requires c.Lawful()
    ensures Ciphertext(c, data).Some? ==> |Ciphertext(c, data).value| == EncryptedSize(c, |data|)
  {
    hide Streams, Padded;
    LawfulParts(c);
    var u := c.Unit();
    if !c.block {
      SameLength(c.encipher, u, data);
    } else if c.padding {
      PaddedAligned(data, c.blockSize);
      SameLength(c.encipher, u, Padded(data, c.blockSize));
    } else if |data| % c.blockSize == 0 {
      SameLength(c.encipher, u, data);
    }
  }

  /** C_Encrypt is not refused for the length of its data, does not fail, and cuts nothing off. */
  ghost predicate EncryptsWhole(c: Cipher, st: Flow, data: Bytes)
    requires c.Lawful() && EncFlow(c, st)
  {
    EncBounds(c, st, data);
    var last := EncFinal(c, EncNext(c, st, data));
    && (c.block && !c.padding ==> |data| % c.blockSize == 0)
    && last.Some? && |EncOut(c, st, data) + last.value| <= EncryptedSize(c, |data|)
  }

  /** After updates C_Encrypt is not refused. Its answer is complete always in a stream mode, in a padded
      block mode exactly if the bytes still buffered and the tail of the data fit into one block, and in
      a block mode without padding exactly if there are neither. */
  lemma OneShotAfterUpdates(c: Cipher, st: Flow, data: Bytes)
    requires c.Lawful() && EncFlow(c, st)
    ensures st.Buffered() >= 0
    ensures EncryptsWhole(c, st, data) <==>
              c.block ==> if c.padding then st.Buffered() + |data| % c.blockSize < c.blockSize
                          else st.Buffered() == 0 && |data| % c.blockSize == 0
  {
    hide Streams, EncOut, Cipher.Lawful, EncFinal, Whole, EncNext;
    LawfulParts(c);
    EncBounds(c, st, data);
    EncFinalSize(c, EncNext(c, st, data));
    FlowFits(c, st);
    BufferedNext(c, st, data);
    hide EncFlow;
    if !c.block {
      WholeOfWhole(|data|, 1);
    } else if c.padding {
      TailArithmetic(st.Buffered(), |data|, c.blockSize);
    } else if |data| % c.blockSize == 0 {
      WholeAdds(|data|, st.Buffered(), c.blockSize);
      SmallRemainder(st.Buffered(), |data|, c.blockSize);
    }
  }

  lemma BufferedNext(c: Cipher, st: Flow, data: Bytes)
    requires c.Lawful() && EncFlow(c, st)
    ensures st.Buffered() >= 0
    ensures EncNext(c, st, data).Buffered() == st.Buffered() + |data| - Whole(st.Buffered() + |data|, c.Unit())
  {
    hide Streams, Cipher.Lawful, Whole;
    LawfulParts(c);
    EncBounds(c, st, data);
    WholeBounds(|st.fed|, c.Unit());
  }

  /** Whole blocks added to less than a block leave the remainder as it is. */
  lemma SmallRemainder(b: nat, n: nat, m: nat)
    requires m > 0 && b < m && n % m == 0
    ensures Whole(b + n, m) == n && (b + n) % m == b
  {
    WholeIs(b + n, m, n / m, b);
  }

  /** Blocks of two bytes, padded, enciphered to themselves. */
  const PLAIN: Cipher := Cipher(2, true, true, false, 0, None, x => x, x => x, x => [])

  /** One byte is fed and C_Encrypt called for one more: the padding no longer fits and is cut off, so that the
      answer is the two bytes without it. */
  lemma CutExample()
    ensures PLAIN.Lawful() && EncFlow(PLAIN, EncNext(PLAIN, START, [1]))
    ensures !EncryptsWhole(PLAIN, EncNext(PLAIN, START, [1]), [2])
    ensures forall a: Answer :: EncryptAnswer(PLAIN, EncNext(PLAIN, START, [1]), [2], Some(2), a) ==> a.rv == OK && a.out == [1, 2]
  {
    StartFlow(PLAIN);
    EncBounds(PLAIN, START, [1]);
    var st := EncNext(PLAIN, START, [1]);
    OneShotAfterUpdates(PLAIN, st, [2]);
    EncBounds(PLAIN, st, [2]);
    assert st.fed == [1] && EncNext(PLAIN, st, [2]).fed == [1, 2];
    assert Padded([1, 2], 2) == [1, 2, 2, 2];
    assert EncOut(PLAIN, st, [2]) == [1, 2];
    assert EncFinal(PLAIN, EncNext(PLAIN, st, [2])) == Some([2, 2]);
  }

  /** C_Decrypt is not refused for the length of its data, accepts the whole, and cuts nothing off. */
  ghost predicate DecryptsWhole(c: Cipher, st: Flow, data: Bytes)
    requires c.Lawful() && DecFlow(c, st)
  {
    DecBounds(c, st, data);
    var last := DecFinal(c, DecNext(c, st, data));
    && (c.block ==> |data| % c.blockSize == 0)
    && last.Accepted? && |DecOut(c, st, data) + last.data| <= |data|
  }

  /** C_Decrypt is not refused after updates either. What it answers to whole blocks, if it accepts, is
      complete always in a mode that holds nothing back; in a padded mode exactly if nothing was fed
      before or the last block is nothing but padding; in an authenticated mode exactly if no more was
      fed before than the length of a tag. Without padding it accepts exactly if whole blocks were fed. */
  lemma DecryptAfterUpdates(c: Cipher, st: Flow, data: Bytes)
    requires c.Lawful() && DecFlow(c, st)
    ensures DecFlow(c, DecNext(c, st, data))
    ensures var accepted := DecFinal(c, DecNext(c, st, data)).Accepted?;
            && (DecryptsWhole(c, st, data) <==>
                  && accepted && (c.block ==> |data| % c.blockSize == 0)
                  && if c.aead then |st.fed| <= c.tagBytes
                     else c.block && c.padding && st.fed != [] ==>
                       var x := c.decipher(st.fed + data); |x| > 0 && x[|x| - 1] == c.blockSize)
            && (!c.block && !c.aead ==> accepted)
            && (c.block && !c.padding && |data| % c.blockSize == 0 ==> (accepted <==> |st.fed| % c.blockSize == 0))
  {
    hide Streams, DecOut, Cipher.Lawful, Whole, Unpadded;
    LawfulParts(c);
    DecBounds(c, st, data);
    DecOutLength(c, st, data);
    if c.aead {
      if DecFinal(c, DecNext(c, st, data)).Accepted? { AeadRest(c, DecNext(c, st, data)); }
    } else if !c.block {
      WholeOfWhole(|data| + st.Buffered(), 1);
      WholeOfWhole(|st.fed|, 1);
    } else if c.padding {
      PaddedRest(c, DecNext(c, st, data));
      if |data| % c.blockSize == 0 && st.fed != [] {
        SameRemainder(|st.fed| + |data|, |data|, c.blockSize);
        if |st.fed| % c.blockSize == 0 { OneBlockHeld(c, st); }
      }
    } else if |data| % c.blockSize == 0 {
      BufferedBlocks(c, DecNext(c, st, data));
      SameRemainder(|st.fed| + |data|, |data|, c.blockSize);
      if |st.fed| % c.blockSize == 0 {
        WholeOfWhole(|st.fed|, c.blockSize);
        WholeOfWhole(|data|, c.blockSize);
      }
    }
  }

  /** A block is fed and C_Decrypt called for one more, padded with one byte: that block is lost. */
  lemma LostExample()
    ensures PLAIN.Lawful() && DecFlow(PLAIN, DecNext(PLAIN, START, [5, 6]))
    ensures !DecryptsWhole(PLAIN, DecNext(PLAIN, START, [5, 6]), [7, 1])
    ensures forall a: Answer :: DecryptAnswer(PLAIN, DecNext(PLAIN, START, [5, 6]), [7, 1], Some(2), a) ==> a.rv == OK && a.out == [5, 6]
  {
    StartFlow(PLAIN);
    DecBounds(PLAIN, START, [5, 6]);
    var st := DecNext(PLAIN, START, [5, 6]);
    assert st.fed + [7, 1] == [5, 6, 7, 1];
    DecryptAfterUpdates(PLAIN, st, [7, 1]);
    LostBlock(st);
    hide DecOut, DecFinal, DecryptsWhole;
  }

  lemma LostBlock(st: Flow)
    requires PLAIN.Lawful() && st == Flow([5, 6], 0)
    ensures DecFlow(PLAIN, st) && DecFlow(PLAIN, DecNext(PLAIN, st, [7, 1]))
    ensures DecOut(PLAIN, st, [7, 1]) == [5, 6] && DecFinal(PLAIN, DecNext(PLAIN, st, [7, 1])) == Accepted([7])
  {
    hide Streams;
    assert st.fed + [7, 1] == [5, 6, 7, 1];
    assert Padded([5, 6, 7], 2) == [5, 6, 7, 1];
    UnpaddedExactly([5, 6, 7, 1], 2, [5, 6, 7]);
    hide Padded, Unpadded;
  }

  /** What the final call of a padded decryption announces, once whole blocks are in: the most that can be left of the
      block held back, one byte less than a block. With nothing in, the size wraps to the whole address space. */
  lemma FinalAnnouncement(c: Cipher, st: Flow)
    requires c.Lawful() && DecFlow(c, st) && c.block && c.padding && |st.fed| % c.blockSize == 0
    ensures DecFinalAnnounced(c, st) == if st.fed == [] then TWO_64 - 1 else c.blockSize - 1
  {
    hide Streams;
    if st.fed != [] { OneBlockHeld(c, st); }
  }

  lemma AeadRest(c: Cipher, st: Flow)
    requires c.Lawful() && DecFlow(c, st) && c.aead && DecFinal(c, st).Accepted?
    ensures |DecFinal(c, st).data| + c.tagBytes == |st.fed|
  {
    hide Streams;
    LawfulParts(c);
    SameLength(c.decipher, 1, st.fed[..|st.fed| - c.tagBytes]);
  }

  /** The final call hands out the last block without its padding. */
  lemma PaddedRest(c: Cipher, st: Flow)
    requires c.Lawful() && DecFlow(c, st) && c.block && c.padding
    ensures DecFinal(c, st).Accepted? ==>
              var x := c.decipher(st.fed);
              && |x| == |st.fed| > 0 && |st.fed| % c.blockSize == 0
              && 0 < x[|x| - 1] <= c.blockSize && st.emitted == |st.fed| - c.blockSize
              && |DecFinal(c, st).data| + x[|x| - 1] == c.blockSize
  {
    hide Streams, Cipher.Lawful, Whole, DecEmitted;
    LawfulParts(c);
    BufferedBlocks(c, st);
    if |st.fed| % c.blockSize == 0 {
      SameLength(c.decipher, c.blockSize, st.fed);
      if |st.fed| > 0 { OneBlockHeld(c, st); }
    }
  }

  /** Whole blocks of buffer and data together, plus one for padding, against those of the data alone. */
  lemma TailArithmetic(b: nat, n: nat, m: nat)
    requires m > 0 && b < m
    ensures Whole(b + n, m) + m <= (if n % m != 0 then n + m - n % m else n + m) <==> b + n % m < m
  {
    var q, r := n / m, n % m;
    var a := q * m;
    assert n == a + r;
    Distribute(q, 1, m);
    if b + r < m {
      DivUnique(b + n, m, q, b + r);
    } else {
      DivUnique(b + n, m, q + 1, b + r - m);
    }
  }

  /** Started afresh, C_Decrypt returns the message behind the ciphertext, which is never longer. */
  lemma OneShotDecrypts(c: Cipher, x: Bytes)
    requires c.Lawful() && (c.maximum.Some? ==> |x| <= c.maximum.value)
    ensures DecFlow(c, START) && DecFlow(c, DecNext(c, START, x))
    ensures match DecFinal(c, DecNext(c, START, x))
            case Rejected(rv) => Plaintext(c, x) == Rejected(rv)
            case Accepted(last) => Plaintext(c, x) == Accepted(DecOut(c, START, x) + last) && |DecOut(c, START, x) + last| <= |x|
  {
    hide Streams, Cipher.Lawful, Plaintext, DecFinal, DecOut, DecFlow;
    LawfulParts(c);
    StartFlow(c);
    DecBounds(c, START, x);
    PartsDecryptTheWhole(c, [x]);
    assert [x][1..] == [] && Flatten([x]) == x by { assert x + [] == x; }
    assert DecParts(c, DecNext(c, START, x), [x][1..]) == DecFinal(c, DecNext(c, START, x));
    PlaintextShorter(c, x);
  }

  lemma PlaintextShorter(c: Cipher, x: Bytes)
    requires c.Lawful()
    ensures Plaintext(c, x).Accepted? ==> |Plaintext(c, x).data| <= |x|
  {
    hide Streams, Unpadded;
    LawfulParts(c);
    if c.aead {
      if |x| >= c.tagBytes { SameLength(c.decipher, 1, x[..|x| - c.tagBytes]); }
    } else if !c.block {
      SameLength(c.decipher, 1, x);
    } else if |x| % c.blockSize == 0 {
      SameLength(c.decipher, c.blockSize, x);
      UnpaddedShorter(c.decipher(x), c.blockSize);
    }
  }
}
