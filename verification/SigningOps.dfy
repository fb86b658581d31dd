/** Signing, verifying, digesting and private-key decryption in a session: one-shot and multi-part
    calls, length queries and retries, and re-authentication, as a state machine over single calls. */
module SigningOps {
  import opened Cryptoki

  // ----- algorithms ----------------------------------------------------------------------------

  /** The updating half of an algorithm: the state it starts in, and what one update makes of a state,
      None for a failure. */
  datatype Stream = Stream(start: Bytes, feed: (Bytes, Bytes) -> Option<Bytes>) {
    /** Feeding nothing changes nothing, and two updates that succeed amount to one with both parts. */
    ghost predicate Lawful() {
      && feed(start, []) == Some(start)
      && (forall a: Bytes, b: Bytes :: Composes(a, b))
    }

    ghost predicate Composes(a: Bytes, b: Bytes) {
      feed(start, a).Some? && feed(feed(start, a).value, b).Some? ==> feed(start, a + b) == feed(feed(start, a).value, b)
    }
  }

  /** A keyed algorithm with its mechanism: a message authentication code or a private or public key.
      `multi` says whether the mechanism of a public or private key takes parts, `raw` that it is RSA
      without padding; `finish` and `confirm` end a stream, `sign` and `verify` work at once. */
  datatype Keyed = Keyed(mac: bool, multi: bool, raw: bool, alwaysAuthenticate: bool, size: nat, stream: Stream,
                         finish: Bytes -> Option<Bytes>, confirm: (Bytes, Bytes) -> bool,
                         sign: Bytes -> Option<Bytes>, verify: (Bytes, Bytes) -> bool) {
    predicate TakesParts() { mac || multi }

    /** Where parts are taken, ending the stream of a message is working on it at once. */
    ghost predicate Lawful() {
      && (raw ==> !TakesParts())
      && (TakesParts() ==>
            && stream.Lawful()
            && (forall m: Bytes :: stream.feed(stream.start, m).Some? ==> sign(m) == finish(stream.feed(stream.start, m).value))
            && (forall m: Bytes, signature: Bytes :: stream.feed(stream.start, m).Some? ==>
                  verify(m, signature) == confirm(stream.feed(stream.start, m).value, signature)))
    }

    /** Raw RSA fills its input up with leading zeros; an input longer than the key is not filled. */
    function Input(data: Bytes): Bytes {
      if raw && |data| <= size then seq(size - |data|, _ => 0) + data else data
    }

    /** The length of those zeros would be negative. */
    predicate TooLong(data: Bytes) { raw && |data| > size }
  }

  datatype Hash = Hash(size: nat, stream: Stream, finish: Bytes -> Option<Bytes>, hash: Bytes -> Option<Bytes>) {
    ghost predicate Lawful() {
      && stream.Lawful()
      && (forall m: Bytes :: stream.feed(stream.start, m).Some? ==> hash(m) == finish(stream.feed(stream.start, m).value))
    }
  }

  // ----- the state ---------------------------------------------------------------------------

  datatype Op =
    | NoOperation
    | Digesting(h: Hash)
    | Signing(k: Keyed)
    | Verifying(k: Keyed)
    | Decrypting(k: Keyed)       // a private key; `sign` stands for its decryption

  /** `inner` is the state of the running algorithm. */
  datatype State = State(op: Op, inner: Bytes, single: bool, multi: bool, reAuthentication: bool)

  const IDLE: State := State(NoOperation, [], false, false, false)

  /** Ends the operation and drops its algorithm; the permissions it was given stay behind unused. */
  function Reset(s: State): State { s.(op := NoOperation, inner := [], reAuthentication := false) }

  datatype Response = Response(rv: Rv, len: nat, out: Option<Bytes>, next: State)

  function Fail(s: State, rv: Rv): Response { Response(rv, 0, None, s) }

  // ----- the calls ------------------------------------------------------------------------------

  /** `room` is the buffer offered, None for a length query. */
  datatype Call =
    | DigestInit(h: Hash)
    | Digest(data: Option<Bytes>, lenGiven: bool, room: Option<nat>)
    | DigestUpdate(part: Option<Bytes>)
    | DigestFinal(lenGiven: bool, room: Option<nat>)
    | SignInit(k: Keyed)
    | Sign(data: Option<Bytes>, lenGiven: bool, room: Option<nat>)
    | SignUpdate(part: Option<Bytes>)
    | SignFinal(lenGiven: bool, room: Option<nat>)
    | VerifyInit(k: Keyed)
    | Verify(data: Option<Bytes>, signature: Option<Bytes>)
    | VerifyUpdate(part: Option<Bytes>)
    | VerifyFinal(signature: Option<Bytes>)
    | DecryptInit(k: Keyed)
    | Decrypt(data: Option<Bytes>, lenGiven: bool, room: Option<nat>)
    | EncryptNothing                          // a call of the encryption family with missing arguments
    | ContextLogin(pinCorrect: bool)

  /** What all calls that return bytes do once they know the size: answer a query, ask for a bigger
      buffer, or compute, check the size and end the operation. */
  function Deliver(s: State, room: Option<nat>, size: nat, result: Option<Bytes>): Response {
    if room.None? then Response(OK, size, None, s)
    else if room.value < size then Response(BUFFER_TOO_SMALL, size, None, s)
    else Conclude(s, size, result)
  }

  function Conclude(s: State, size: nat, result: Option<Bytes>): Response {
    if result.None? || |result.value| != size then Fail(Reset(s), GENERAL_ERROR)
    else Response(OK, size, result, Reset(s))
  }

  function Then(inner: Option<Bytes>, finish: Bytes -> Option<Bytes>): Option<Bytes> {
    if inner.None? then None else finish(inner.value)
  }

  function Start(s: State, op: Op, inner: Bytes, multi: bool, reAuthenticate: bool): Response {
    if s.op != NoOperation then Fail(s, OPERATION_ACTIVE)
    else Response(OK, 0, None, State(op, inner, true, multi, s.reAuthentication || reAuthenticate))
  }

  /** An update that fails ends the operation. */
  function Feed(s: State, inner: Option<Bytes>, single: bool): Response {
    if inner.None? then Fail(Reset(s), GENERAL_ERROR)
    else Response(OK, 0, None, s.(inner := inner.value, single := single))
  }

  /** A one-shot signature: through the stream if the operation takes parts. */
  function SignAtOnce(s: State, k: Keyed, input: Bytes): Option<Bytes> {
    if s.multi then Then(k.stream.feed(s.inner, input), k.finish) else k.sign(input)
  }

  /** A one-shot verification likewise; only a message authentication code tells a failing update
      from a wrong signature. */
  function VerifyAtOnce(s: State, k: Keyed, input: Bytes, signature: Bytes): Rv {
    var inner := k.stream.feed(s.inner, input);
    if s.multi && inner.None? then if k.mac then GENERAL_ERROR else SIGNATURE_INVALID
    else if if s.multi then k.confirm(inner.value, signature) else k.verify(input, signature) then OK
    else SIGNATURE_INVALID
  }

  function Step(s: State, c: Call): Response {
    match c
    case DigestInit(h) => if s.op != NoOperation then Fail(s, OPERATION_ACTIVE)
                          else Response(OK, 0, None, s.(op := Digesting(h), inner := h.stream.start))
    case Digest(data, lenGiven, room) =>
      if data.None? || !lenGiven then Fail(s, ARGUMENTS_BAD)
      else if !s.op.Digesting? then Fail(s, OPERATION_NOT_INITIALIZED)
      else Deliver(s, room, s.op.h.size, Then(s.op.h.stream.feed(s.inner, data.value), s.op.h.finish))
    case DigestUpdate(part) =>
      if part.None? then Fail(s, ARGUMENTS_BAD)
      else if !s.op.Digesting? then Fail(s, OPERATION_NOT_INITIALIZED)
      else Feed(s, s.op.h.stream.feed(s.inner, part.value), s.single)
    case DigestFinal(lenGiven, room) =>
      if !lenGiven then Fail(s, ARGUMENTS_BAD)
      else if !s.op.Digesting? then Fail(s, OPERATION_NOT_INITIALIZED)
      else Deliver(s, room, s.op.h.size, s.op.h.finish(s.inner))
    case SignInit(k) => Start(s, Signing(k), k.stream.start, k.TakesParts(), !k.mac && k.alwaysAuthenticate)
    case Sign(data, lenGiven, room) =>
      if data.None? || !lenGiven then Fail(s, ARGUMENTS_BAD)
      else if !s.op.Signing? then Fail(s, OPERATION_NOT_INITIALIZED)
      else if !s.single then Fail(Reset(s), OPERATION_NOT_INITIALIZED)
      else if !s.op.k.mac && s.reAuthentication then Fail(Reset(s), USER_NOT_LOGGED_IN)
      else if room.Some? && room.value >= s.op.k.size && s.op.k.TooLong(data.value) then Fail(s, FUNCTION_FAILED)
      else Deliver(s, room, s.op.k.size, SignAtOnce(s, s.op.k, s.op.k.Input(data.value)))
    case SignUpdate(part) =>
      if part.None? then Fail(s, ARGUMENTS_BAD)
      else if !s.op.Signing? then Fail(s, OPERATION_NOT_INITIALIZED)
      else if !s.multi then Fail(Reset(s), OPERATION_NOT_INITIALIZED)
      else if !s.op.k.mac && s.reAuthentication then Fail(Reset(s), USER_NOT_LOGGED_IN)
      else Feed(s, s.op.k.stream.feed(s.inner, part.value), false)
    case SignFinal(lenGiven, room) =>
      if !lenGiven then Fail(s, ARGUMENTS_BAD)
      else if !s.op.Signing? || !s.multi then Fail(s, OPERATION_NOT_INITIALIZED)
      else if !s.op.k.mac && s.reAuthentication then Fail(Reset(s), USER_NOT_LOGGED_IN)
      else Deliver(s, room, s.op.k.size, s.op.k.finish(s.inner))
    case VerifyInit(k) => Start(s, Verifying(k), k.stream.start, k.TakesParts(), false)
    case Verify(data, signature) =>
      if data.None? || signature.None? then Fail(s, ARGUMENTS_BAD)
      else if !s.op.Verifying? then Fail(s, OPERATION_NOT_INITIALIZED)
      else if !s.single then Fail(Reset(s), OPERATION_NOT_INITIALIZED)
      else if |signature.value| != s.op.k.size then Fail(Reset(s), SIGNATURE_LEN_RANGE)
      else if s.op.k.TooLong(data.value) then Fail(s, FUNCTION_FAILED)
      else Fail(Reset(s), VerifyAtOnce(s, s.op.k, s.op.k.Input(data.value), signature.value))
    case VerifyUpdate(part) =>
      if part.None? then Fail(s, ARGUMENTS_BAD)
      else if !s.op.Verifying? then Fail(s, OPERATION_NOT_INITIALIZED)
      else if !s.multi then Fail(Reset(s), OPERATION_NOT_INITIALIZED)
      else Feed(s, s.op.k.stream.feed(s.inner, part.value), false)
    case VerifyFinal(signature) =>
      if signature.None? then Fail(s, ARGUMENTS_BAD)
      else if !s.op.Verifying? || !s.multi then Fail(s, OPERATION_NOT_INITIALIZED)
      else if |signature.value| != s.op.k.size then Fail(Reset(s), SIGNATURE_LEN_RANGE)
      else if !s.op.k.confirm(s.inner, signature.value) then Fail(Reset(s), SIGNATURE_INVALID)
      else Fail(Reset(s), OK)
    case DecryptInit(k) => Start(s, Decrypting(k), [], false, k.alwaysAuthenticate)
    case Decrypt(data, lenGiven, room) =>
      if data.None? || !lenGiven then Fail(Reset(s), ARGUMENTS_BAD)
      else if !s.op.Decrypting? then Fail(s, OPERATION_NOT_INITIALIZED)
      else if !s.single then Fail(Reset(s), OPERATION_NOT_INITIALIZED)
      else if s.reAuthentication then Fail(Reset(s), USER_NOT_LOGGED_IN)
      else if room.None? then Response(OK, s.op.k.size, None, s)
      else if room.value < s.op.k.size then Response(BUFFER_TOO_SMALL, s.op.k.size, None, s)
      else (match s.op.k.sign(data.value)
            case None => Fail(Reset(s), ENCRYPTED_DATA_INVALID)
            case Some(x) => if |x| > s.op.k.size then Fail(Reset(s), ENCRYPTED_DATA_LEN_RANGE) else Response(OK, |x|, Some(x), Reset(s)))
    case EncryptNothing => Fail(Reset(s), ARGUMENTS_BAD)
    case ContextLogin(pinCorrect) =>
      if !s.reAuthentication then Fail(s, OPERATION_NOT_INITIALIZED)
      else if !pinCorrect then Fail(s, PIN_INCORRECT)
      else Fail(s.(reAuthentication := false), OK)
  }

  // ----- single calls ---------------------------------------------------------------------------------

  /** The calls that finish an operation, with all arguments present. */
  predicate Finishing(c: Call) {
    match c
    case Digest(data, lenGiven, _) => data.Some? && lenGiven
    case DigestFinal(lenGiven, _) => lenGiven
    case Sign(data, lenGiven, _) => data.Some? && lenGiven
    case SignFinal(lenGiven, _) => lenGiven
    case Verify(data, signature) => data.Some? && signature.Some?
    case VerifyFinal(signature) => signature.Some?
    case Decrypt(data, lenGiven, _) => data.Some? && lenGiven
    case _ => false
  }

  /** The operation that a finishing call finishes is the running one, and may be finished that way. */
  predicate Applies(s: State, c: Call) {
    match c
    case Digest(_, _, _) => s.op.Digesting?
    case DigestFinal(_, _) => s.op.Digesting?
    case Sign(_, _, _) => s.op.Signing?
    case SignFinal(_, _) => s.op.Signing? && s.multi
    case Verify(_, _) => s.op.Verifying?
    case VerifyFinal(_) => s.op.Verifying? && s.multi
    case Decrypt(_, _, _) => s.op.Decrypting?
    case _ => false
  }

  /** The buffer offered by a call that returns bytes; None for the others. */
  function Room(c: Call): Option<Option<nat>> {
    match c
    case Digest(_, _, room) => Some(room)
    case DigestFinal(_, room) => Some(room)
    case Sign(_, _, room) => Some(room)
    case SignFinal(_, room) => Some(room)
    case Decrypt(_, _, room) => Some(room)
    case _ => None
  }

  /** The one failure that is neither a retry nor the end: the zeros that raw RSA puts before an input
      longer than the key have a negative length, and the exception leaves the operation running. */
  predicate Overflows(s: State, c: Call) {
    match c
    case Sign(data, _, room) =>
      && s.op.Signing? && s.single && data.Some? && s.op.k.TooLong(data.value)
      && (s.op.k.mac || !s.reAuthentication) && room.Some? && room.value >= s.op.k.size
    case Verify(data, signature) =>
      && s.op.Verifying? && s.single && data.Some? && s.op.k.TooLong(data.value)
      && signature.Some? && |signature.value| == s.op.k.size
    case _ => false
  }

  lemma VerdictIsFinal(s: State, c: Call)
    requires c.Verify? && c.data.Some? && c.signature.Some? && s.op.Verifying?
    ensures VerifyAtOnce(s, s.op.k, s.op.k.Input(c.data.value), c.signature.value) in {OK, GENERAL_ERROR, SIGNATURE_INVALID}
  {
  }

  /** A finishing call is a length query or a retry, and then changes nothing, or ends the operation,
      whatever it returns; an input too long for raw RSA is the one exception. */
  lemma FinishOrRetry(s: State, c: Call)
    requires Finishing(c) && Applies(s, c)
    ensures var r := Step(s, c);
            var retry := r.rv == BUFFER_TOO_SMALL || (r.rv == OK && Room(c) == Some(None));
            if retry || Overflows(s, c) then r.next == s && r.out == None
            else r.next.op == NoOperation && !r.next.reAuthentication
    ensures Step(s, c).rv == FUNCTION_FAILED <==> Overflows(s, c)
    ensures Step(s, c).rv == BUFFER_TOO_SMALL ==> Room(c).Some? && Room(c).value.Some? && Room(c).value.value < Step(s, c).len
  {
    hide Keyed.Input, Keyed.TooLong, SignAtOnce, VerifyAtOnce, Then;
    if c.Verify? { VerdictIsFinal(s, c); }
  }

  /** After an update, the one-shot forms of signing and verifying are refused. */
  lemma NoOneShotAfterUpdate(s: State, part: Option<Bytes>, c: Call)
    requires c.Sign? || c.Verify?
    requires Finishing(c)
    requires c.Sign? ==> Step(s, SignUpdate(part)).rv == OK
    requires c.Verify? ==> Step(s, VerifyUpdate(part)).rv == OK
    ensures var s' := Step(s, if c.Sign? then SignUpdate(part) else VerifyUpdate(part)).next;
            Step(s', c) == Fail(Reset(s'), OPERATION_NOT_INITIALIZED)
  {
  }

  /** Missing arguments change nothing, except in calls of the encryption family: those end whatever
      operation is running. */
  lemma MissingArguments(s: State, c: Call)
    requires Step(s, c).rv == ARGUMENTS_BAD
    ensures Step(s, c) == Fail(if c.EncryptNothing? || c.Decrypt? then Reset(s) else s, ARGUMENTS_BAD)
  {
    hide Keyed.Input, Keyed.TooLong, SignAtOnce, Then;
    if c.Verify? && c.data.Some? && c.signature.Some? && s.op.Verifying? { VerdictIsFinal(s, c); }
    hide VerifyAtOnce;
  }

  // ----- runs ------------------------------------------------------------------------------------------

  /** The state after a run of calls. */
  function After(calls: seq<Call>): State {
    if |calls| == 0 then IDLE else Step(After(calls[..|calls| - 1]), calls[|calls| - 1]).next
  }

  /** The answer to the last call of a run. */
  function LastAnswer(calls: seq<Call>): Response
    requires |calls| > 0
  {
    Step(After(calls[..|calls| - 1]), calls[|calls| - 1])
  }

  predicate Begins(c: Call) { c.DigestInit? || c.SignInit? || c.VerifyInit? || c.DecryptInit? }

  function Part(c: Call): Option<Bytes> {
    match c
    case DigestUpdate(p) => p
    case SignUpdate(p) => p
    case VerifyUpdate(p) => p
    case _ => None
  }

  /** What has been fed after one more call. */
  function FedBy(fed: Bytes, c: Call, rv: Rv): Bytes {
    if rv != OK then fed else if Begins(c) then [] else if Part(c).Some? then fed + Part(c).value else fed
  }

  /** The message fed in parts since the operation began: the parts of all accepted updates, in order. */
  function Fed(calls: seq<Call>): Bytes {
    if |calls| == 0 then [] else FedBy(Fed(calls[..|calls| - 1]), calls[|calls| - 1], LastAnswer(calls).rv)
  }

  predicate AuthenticatedBy(before: bool, c: Call, rv: Rv) {
    if rv != OK then before else if Begins(c) then false else c.ContextLogin? || before
  }

  /** The user gave the right PIN for this very purpose since the operation began. */
  predicate ReAuthenticatedSince(calls: seq<Call>) {
    |calls| > 0 &&
    AuthenticatedBy(ReAuthenticatedSince(calls[..|calls| - 1]), calls[|calls| - 1], LastAnswer(calls).rv)
  }

  predicate NeedsLogin(op: Op) {
    (op.Signing? && !op.k.mac && op.k.alwaysAuthenticate) || (op.Decrypting? && op.k.alwaysAuthenticate)
  }

  /** The algorithms that the calls of a run bring along obey their laws. */
  ghost predicate Lawful(c: Call) {
    match c
    case DigestInit(h) => h.Lawful()
    case SignInit(k) => k.Lawful()
    case VerifyInit(k) => k.Lawful()
    case _ => true
  }

  ghost predicate LawfulRun(calls: seq<Call>) { forall c :: c in calls ==> Lawful(c) }

  /** The running algorithm has taken in exactly what was fed. */
  ghost predicate TakenIn(s: State, fed: Bytes) {
    match s.op
    case NoOperation => !s.reAuthentication
    case Digesting(h) => h.Lawful() && h.stream.feed(h.stream.start, fed) == Some(s.inner)
    case Signing(k) => KeyTakenIn(k, s, fed)
    case Verifying(k) => KeyTakenIn(k, s, fed)
    case Decrypting(_) => !s.multi
  }

  ghost predicate KeyTakenIn(k: Keyed, s: State, fed: Bytes) {
    && k.Lawful() && s.multi == k.TakesParts() && (s.single ==> fed == [])
    && (s.multi ==> k.stream.feed(k.stream.start, fed) == Some(s.inner))
  }

  predicate LoginHeld(s: State, authenticated: bool) {
    NeedsLogin(s.op) ==> s.reAuthentication || authenticated
  }

  // ----- one step keeps it, by the family of the call -----------------------------------------------------

  lemma FeedOn(stream: Stream, fed: Bytes, inner: Bytes, part: Bytes)
    requires stream.Lawful() && stream.feed(stream.start, fed) == Some(inner) && stream.feed(inner, part).Some?
    ensures stream.feed(stream.start, fed + part) == stream.feed(inner, part)
  {
    assert stream.Composes(fed, part);
  }

  lemma BeginKeeps(s: State, c: Call, fed: Bytes)
    requires TakenIn(s, fed) && Begins(c) && Lawful(c)
    ensures TakenIn(Step(s, c).next, FedBy(fed, c, Step(s, c).rv))
  {
    hide Stream.Composes, Keyed.Input, Keyed.TooLong;
  }

  lemma UpdateKeeps(s: State, c: Call, fed: Bytes)
    requires TakenIn(s, fed) && (c.DigestUpdate? || c.SignUpdate? || c.VerifyUpdate?)
    ensures TakenIn(Step(s, c).next, FedBy(fed, c, Step(s, c).rv))
  {
    hide Stream.Lawful, Keyed.Input, Keyed.TooLong;
    var r := Step(s, c);
    if r.rv == OK {
      FeedOn(if s.op.Digesting? then s.op.h.stream else s.op.k.stream, fed, s.inner, Part(c).value);
    }
  }

  /** All other calls leave the operation as it is or end it. */
  lemma OtherKeeps(s: State, c: Call)
    requires !Begins(c) && Part(c).None?
    ensures var t := Step(s, c).next;
            if t.op == NoOperation then !t.reAuthentication || t == s else t == s.(reAuthentication := t.reAuthentication)
    ensures Step(s, c).next.reAuthentication ==> s.reAuthentication
  {
    hide Keyed.Input, Keyed.TooLong, SignAtOnce, VerifyAtOnce, Then;
  }

  lemma StepKeeps(s: State, c: Call, fed: Bytes)
    requires TakenIn(s, fed) && Lawful(c)
    ensures TakenIn(Step(s, c).next, FedBy(fed, c, Step(s, c).rv))
  {
    if Begins(c) {
      BeginKeeps(s, c, fed);
    } else if c.DigestUpdate? || c.SignUpdate? || c.VerifyUpdate? {
      UpdateKeeps(s, c, fed);
    } else {
      hide Step, Hash.Lawful, Keyed.Lawful;
      OtherKeeps(s, c);
    }
  }

  lemma StepHoldsLogin(s: State, c: Call, authenticated: bool)
    requires LoginHeld(s, authenticated) && (s.op == NoOperation ==> !s.reAuthentication)
    ensures LoginHeld(Step(s, c).next, AuthenticatedBy(authenticated, c, Step(s, c).rv))
  {
    hide Keyed.Input, Keyed.TooLong, SignAtOnce, VerifyAtOnce, Then;
  }

  /** On every run of lawful algorithms, the state of the running one is that of the whole message fed,
      and a demanded login is either still awaited or was given. */
  lemma {:induction false} AlwaysTakenIn(calls: seq<Call>)
    requires LawfulRun(calls)
    ensures TakenIn(After(calls), Fed(calls)) && LoginHeld(After(calls), ReAuthenticatedSince(calls))
  {
    hide Step, FedBy, AuthenticatedBy, Lawful;
    if |calls| > 0 {
      var before, c := calls[..|calls| - 1], calls[|calls| - 1];
      AlwaysTakenIn(before);
      hide LoginHeld;
      StepKeeps(After(before), c, Fed(before));
      StepHoldsLogin(After(before), c, ReAuthenticatedSince(before));
    }
  }

  // ----- what is returned ---------------------------------------------------------------------------------

  /** The whole message that a finishing call of the running operation is about. */
  function Message(calls: seq<Call>): Bytes
    requires |calls| > 0
  {
    var s, c := After(calls[..|calls| - 1]), calls[|calls| - 1];
    var last := if (c.Digest? || c.Sign? || c.Verify?) && c.data.Some? then c.data.value else [];
    Fed(calls[..|calls| - 1]) + if (c.Sign? && s.op.Signing?) || (c.Verify? && s.op.Verifying?) then s.op.k.Input(last) else last
  }

  lemma SignsMessage(s: State, fed: Bytes, k: Keyed, input: Bytes)
    requires k.Lawful() && KeyTakenIn(k, s, fed) && s.single && SignAtOnce(s, k, input).Some?
    ensures SignAtOnce(s, k, input) == k.sign(fed + input) && fed + input == input
  {
    assert [] + input == input;
    if s.multi { FeedOn(k.stream, fed, s.inner, input); }
  }

  /** Multi-part operations refine the one-shot functions: in every run, whatever bytes a call of
      signing or digesting returns are the one-shot function applied to the concatenation of all parts
      fed since the operation began; a one-shot signature comes only when nothing was fed before. */
  lemma OutputsAreOneShot(calls: seq<Call>)
    requires |calls| > 0 && LawfulRun(calls) && LastAnswer(calls).out.Some?
    ensures var s, c, out := After(calls[..|calls| - 1]), calls[|calls| - 1], LastAnswer(calls).out;
            && (s.op.Signing? ==> s.op.k.sign(Message(calls)) == out
                                  && (c.Sign? ==> c.data.Some? && Message(calls) == s.op.k.Input(c.data.value)))
            && (s.op.Digesting? ==> s.op.h.hash(Message(calls)) == out)
            && (s.op.Decrypting? ==> c.Decrypt? && c.data.Some? && s.op.k.sign(c.data.value) == out)
  {
    hide Fed, After, ReAuthenticatedSince, LoginHeld, Stream.Lawful, Keyed.Input, Keyed.TooLong;
    var before, c := calls[..|calls| - 1], calls[|calls| - 1];
    AlwaysTakenIn(before);
    var s, fed := After(before), Fed(before);
    assert fed + [] == fed;
    if c.Sign? && s.op.Signing? {
      SignsMessage(s, fed, s.op.k, s.op.k.Input(c.data.value));
    } else if c.Digest? && s.op.Digesting? {
      FeedOn(s.op.h.stream, fed, s.inner, c.data.value);
    }
  }

  /** The last update of a one-shot verification goes through. */
  predicate TakesLast(s: State, c: Call) {
    c.Verify? && c.data.Some? && s.op.Verifying? && s.multi ==> s.op.k.stream.feed(s.inner, s.op.k.Input(c.data.value)).Some?
  }

  lemma VerifiesMessage(s: State, fed: Bytes, k: Keyed, input: Bytes, signature: Bytes)
    requires k.Lawful() && KeyTakenIn(k, s, fed) && s.single
    ensures VerifyAtOnce(s, k, input, signature) == OK <==>
            (s.multi ==> k.stream.feed(s.inner, input).Some?) && k.verify(fed + input, signature)
  {
    assert [] + input == input;
    if s.multi && k.stream.feed(s.inner, input).Some? { FeedOn(k.stream, fed, s.inner, input); }
  }

  /** A signature is found right exactly if the one-shot verification of the whole message says so. */
  lemma VerdictsAreOneShot(calls: seq<Call>)
    requires |calls| > 0 && LawfulRun(calls)
    requires var c := calls[|calls| - 1]; (c.Verify? || c.VerifyFinal?) && Finishing(c)
    ensures var s, c := After(calls[..|calls| - 1]), calls[|calls| - 1];
            LastAnswer(calls).rv == OK <==>
              && s.op.Verifying? && (c.Verify? ==> s.single && !s.op.k.TooLong(c.data.value)) && (c.VerifyFinal? ==> s.multi)
              && |c.signature.value| == s.op.k.size && TakesLast(s, c) && s.op.k.verify(Message(calls), c.signature.value)
  {
    hide Fed, After, ReAuthenticatedSince, LoginHeld, Stream.Lawful, Keyed.Input, Keyed.TooLong, VerifyAtOnce;
    var before, c := calls[..|calls| - 1], calls[|calls| - 1];
    AlwaysTakenIn(before);
    var s, fed := After(before), Fed(before);
    assert fed + [] == fed;
    if c.Verify? && s.op.Verifying? && s.single {
      VerifiesMessage(s, fed, s.op.k, s.op.k.Input(c.data.value), c.signature.value);
    }
  }

  /** The bytes that one call signs or verifies: the data, and under a raw RSA key the data filled up to the
      size of the key with zeros in front, which is the same number. */
  predicate FilledUp(k: Keyed, data: Bytes, input: Bytes) {
    if k.raw && |data| <= k.size then
      && |input| == k.size && input[k.size - |data|..] == data && FromBigEndian(input) == FromBigEndian(data)
      && (forall i :: 0 <= i < k.size - |data| ==> input[i] == 0)
    else input == data
  }

  lemma InputFillsUp(k: Keyed, data: Bytes)
    ensures FilledUp(k, data, k.Input(data))
  {
    if k.raw && |data| <= k.size {
      var zeros: Bytes := seq(k.size - |data|, _ => 0);
      assert k.Input(data) == zeros + data;
      LeadingZeros(zeros, data);
    }
  }

  /** In every run, what C_Sign returns is the signature of its data, filled up with leading zeros for raw
      RSA; data longer than a raw key is never signed. */
  lemma SignedIsFilledUp(calls: seq<Call>) returns (input: Bytes)
    requires |calls| > 0 && LawfulRun(calls) && LastAnswer(calls).out.Some? && calls[|calls| - 1].Sign?
    ensures var s, c := After(calls[..|calls| - 1]), calls[|calls| - 1];
            && s.op.Signing? && c.data.Some? && FilledUp(s.op.k, c.data.value, input) && s.op.k.sign(input) == LastAnswer(calls).out
            && (s.op.k.raw ==> |c.data.value| <= s.op.k.size) && |LastAnswer(calls).out.value| == s.op.k.size
  {
    hide After, Message, LawfulRun, Keyed.Input, FilledUp, SignAtOnce;
    var s, c := After(calls[..|calls| - 1]), calls[|calls| - 1];
    assert s.op.Signing? && c.data.Some?;
    OutputsAreOneShot(calls);
    input := s.op.k.Input(c.data.value);
    InputFillsUp(s.op.k, c.data.value);
  }

  /** C_Verify likewise: a signature is found right exactly if it is one of the data so filled up, and both
      lengths fit the key. */
  lemma VerifiedIsFilledUp(calls: seq<Call>) returns (input: Bytes)
    requires |calls| > 0 && LawfulRun(calls) && calls[|calls| - 1].Verify? && Finishing(calls[|calls| - 1])
    requires After(calls[..|calls| - 1]).op.Verifying?
    ensures var s, c := After(calls[..|calls| - 1]), calls[|calls| - 1];
            && FilledUp(s.op.k, c.data.value, input)
            && (LastAnswer(calls).rv == OK <==>
                  && s.single && !(s.op.k.raw && |c.data.value| > s.op.k.size) && |c.signature.value| == s.op.k.size
                  && (s.multi ==> s.op.k.stream.feed(s.inner, c.data.value).Some?) && s.op.k.verify(input, c.signature.value))
  {
    hide After, Keyed.Input, FilledUp, VerifyAtOnce, LastAnswer, ReAuthenticatedSince, LoginHeld, Stream.Lawful;
    var before, c := calls[..|calls| - 1], calls[|calls| - 1];
    var s := After(before);
    VerdictsAreOneShot(calls);
    assert LawfulRun(before) by { assert forall d :: d in before ==> d in calls; }
    AlwaysTakenIn(before);
    input := s.op.k.Input(c.data.value);
    InputFillsUp(s.op.k, c.data.value);
    if s.single { assert Message(calls) == input by { hide Fed; assert Fed(before) + input == input; } }
    if s.multi { assert input == c.data.value by { NotRaw(s.op.k, c.data.value); } }
  }

  lemma NotRaw(k: Keyed, data: Bytes)
    requires k.Lawful() && k.TakesParts()
    ensures k.Input(data) == data
  {
  }

  /** The same call with another buffer. */
  function WithRoom(c: Call, room: nat): Call {
    match c
    case Digest(data, lenGiven, _) => Digest(data, lenGiven, Some(room))
    case DigestFinal(lenGiven, _) => DigestFinal(lenGiven, Some(room))
    case Sign(data, lenGiven, _) => Sign(data, lenGiven, Some(room))
    case SignFinal(lenGiven, _) => SignFinal(lenGiven, Some(room))
    case Decrypt(data, lenGiven, _) => Decrypt(data, lenGiven, Some(room))
    case _ => c
  }

  /** The length that a query or a refusal announces is enough, and less is not: repeated with that much
      room the call is not sent back again, and delivers as many bytes, a decryption at most as many. */
  lemma AnnouncedIsEnough(s: State, c: Call, room: nat)
    requires Finishing(c) && Applies(s, c)
    requires Step(s, c).rv == BUFFER_TOO_SMALL || (Step(s, c).rv == OK && Room(c) == Some(None))
    ensures var len, again := Step(s, c).len, Step(s, WithRoom(c, room));
            && (again.rv == BUFFER_TOO_SMALL <==> room < len)
            && (again.out.Some? ==> room >= len && again.rv == OK && again.len == |again.out.value| <= len && (!c.Decrypt? ==> again.len == len))
  {
    hide Keyed.Input, SignAtOnce, VerifyAtOnce, Then;
    if c.Verify? { VerdictIsFinal(s, c); }
  }

  lemma PendingLoginBlocks(s: State, c: Call)
    requires NeedsLogin(s.op) && Step(s, c).out.Some?
    ensures !s.reAuthentication
  {
    hide Keyed.Input, Keyed.TooLong, SignAtOnce, VerifyAtOnce, Then;
  }

  /** On every run, a signature or a decryption under a private key that demands it is returned only
      after a context-specific login made since the operation began. */
  lemma NoOutputWithoutLogin(calls: seq<Call>)
    requires |calls| > 0 && LawfulRun(calls) && LastAnswer(calls).out.Some?
    requires NeedsLogin(After(calls[..|calls| - 1]).op)
    ensures ReAuthenticatedSince(calls[..|calls| - 1])
  {
    hide After, Step, ReAuthenticatedSince, TakenIn, Fed;
    AlwaysTakenIn(calls[..|calls| - 1]);
    PendingLoginBlocks(After(calls[..|calls| - 1]), calls[|calls| - 1]);
  }

  // ----- where digesting and raw RSA depart ------------------------------------------------------------------

  function Updates(parts: seq<Bytes>): seq<Call> { seq(|parts|, i requires 0 <= i < |parts| => DigestUpdate(Some(parts[i]))) }

  function Joined(parts: seq<Bytes>): Bytes {
    if parts == [] then [] else Joined(parts[..|parts| - 1]) + parts[|parts| - 1]
  }

  /** A digest begun afresh and fed with parts. */
  function FeedRun(h: Hash, parts: seq<Bytes>): seq<Call> { [DigestInit(h)] + Updates(parts) }

  /** A digest begun afresh, fed with parts, then asked for the digest of some data in one call. */
  function DigestRun(h: Hash, parts: seq<Bytes>, data: Bytes): seq<Call> {
    FeedRun(h, parts) + [Digest(Some(data), true, Some(h.size))]
  }

  /** C_Digest answers with the digest of its own data, if it answers at all. */
  predicate DigestsItsOwn(h: Hash, parts: seq<Bytes>, data: Bytes) {
    var r := LastAnswer(DigestRun(h, parts, data));
    r.out.Some? ==> r.out == h.hash(data)
  }

  lemma FeedRunGrows(h: Hash, parts: seq<Bytes>)
    ensures parts == [] ==> After(FeedRun(h, parts)) == Step(IDLE, DigestInit(h)).next && Fed(FeedRun(h, parts)) == []
    ensures parts != [] ==>
              var c, shorter := DigestUpdate(Some(parts[|parts| - 1])), FeedRun(h, parts[..|parts| - 1]);
              var r := Step(After(shorter), c);
              After(FeedRun(h, parts)) == r.next && Fed(FeedRun(h, parts)) == FedBy(Fed(shorter), c, r.rv)
  {
    hide Step;
    var calls := FeedRun(h, parts);
    if parts == [] {
      assert calls[..0] == [];
    } else {
      assert calls[..|calls| - 1] == FeedRun(h, parts[..|parts| - 1]);
    }
  }

  lemma {:induction false} AfterUpdates(h: Hash, parts: seq<Bytes>)
    ensures var s := After(FeedRun(h, parts));
            if s.op.NoOperation? then |parts| > 0 else s.op == Digesting(h) && Fed(FeedRun(h, parts)) == Joined(parts)
  {
    FeedRunGrows(h, parts);
    if parts != [] {
      AfterUpdates(h, parts[..|parts| - 1]);
      hide After, Fed, FeedRun;
    }
  }

  lemma LawfulDigestRun(h: Hash, parts: seq<Bytes>, data: Bytes)
    requires h.Lawful()
    ensures LawfulRun(DigestRun(h, parts, data))
  {
  }

  lemma OutputNeedsOperation(s: State, c: Call)
    requires Step(s, c).out.Some?
    ensures s.op != NoOperation
  {
  }

  lemma DigestAnswer(h: Hash, parts: seq<Bytes>, data: Bytes)
    requires h.Lawful()
    ensures var r := LastAnswer(DigestRun(h, parts, data));
            r.out.Some? ==> r.out == h.hash(Joined(parts) + data)
  {
    hide Hash.Lawful, LawfulRun, Step, Joined;
    var calls := DigestRun(h, parts, data);
    var before := FeedRun(h, parts);
    assert calls[..|calls| - 1] == before && calls[|calls| - 1] == Digest(Some(data), true, Some(h.size));
    AfterUpdates(h, parts);
    if LastAnswer(calls).out.Some? {
      LawfulDigestRun(h, parts, data);
      OutputNeedsOperation(After(before), calls[|calls| - 1]);
      OutputsAreOneShot(calls);
    }
  }

  /** A hash that tells one message from all others. */
  function Recogniser(message: Bytes): Hash {
    var mark := (m: Bytes) => Some([if m == message then 0 else 1]);
    Hash(1, Stream([], (t: Bytes, part: Bytes) => Some(t + part)), mark, mark)
  }

  lemma RecogniserIsLawful(message: Bytes)
    ensures Recogniser(message).Lawful()
  {
    var stream := Recogniser(message).stream;
    forall a: Bytes, b: Bytes ensures stream.Composes(a, b) { assert [] + (a + b) == ([] + a) + b; }
    forall m: Bytes ensures stream.feed([], m) == Some(m) { assert [] + m == m; }
  }

  lemma {:induction false} RecogniserGoesOn(message: Bytes, parts: seq<Bytes>)
    ensures After(FeedRun(Recogniser(message), parts)).op == Digesting(Recogniser(message))
  {
    FeedRunGrows(Recogniser(message), parts);
    if parts != [] {
      RecogniserGoesOn(message, parts[..|parts| - 1]);
      hide After, Fed, FeedRun;
    }
  }

  lemma RecogniserAnswers(message: Bytes, parts: seq<Bytes>, data: Bytes)
    ensures LastAnswer(DigestRun(Recogniser(message), parts, data)).out.Some?
  {
    var calls := DigestRun(Recogniser(message), parts, data);
    assert calls[..|calls| - 1] == FeedRun(Recogniser(message), parts);
    RecogniserGoesOn(message, parts);
    hide After;
  }

  /** Unlike signing, digesting is not refused after an update: C_Digest returns the digest of its own
      data under every lawful hash exactly if the parts fed before are empty. */
  lemma DigestAfterUpdate(parts: seq<Bytes>, data: Bytes)
    ensures (forall h: Hash :: h.Lawful() ==> DigestsItsOwn(h, parts, data)) <==> Joined(parts) == []
  {
    hide LastAnswer, DigestRun, Hash.Lawful, Joined;
    forall h: Hash | h.Lawful() && Joined(parts) == [] ensures DigestsItsOwn(h, parts, data) {
      DigestAnswer(h, parts, data);
      assert [] + data == data;
    }
    var h := Recogniser(data);
    RecogniserIsLawful(data);
    DigestAnswer(h, parts, data);
    RecogniserAnswers(data, parts, data);
    if Joined(parts) != [] {
      assert |Joined(parts) + data| > |data|;
      assert !DigestsItsOwn(h, parts, data);
    }
  }

  /** The byte 2 is fed, then the byte 3 digested at once: the answer is not that for the byte 3. */
  lemma DigestExample()
    ensures LastAnswer(DigestRun(Recogniser([3]), [[2]], [3])).out == Some([1])
    ensures Recogniser([3]).hash([3]) == Some([0])
  {
    hide LastAnswer, DigestRun;
    RecogniserIsLawful([3]);
    DigestAnswer(Recogniser([3]), [[2]], [3]);
    RecogniserAnswers([3], [[2]], [3]);
    assert [[2]][..0] == [] && Joined([[2]]) == [] + [2];
    assert |[] + [2] + [3]| == 2;
  }

  /** A raw key of one byte that returns its input. */
  const ECHO: Keyed := Keyed(false, false, true, false, 1, Stream([], (t: Bytes, part: Bytes) => None),
                             t => None, (t, signature) => false, m => Some(m), (m, signature) => m == signature)

  /** A signing operation ended by a stray call of C_Encrypt with missing arguments. */
  lemma StrayCallExample()
    ensures After([SignInit(ECHO)]).op == Signing(ECHO)
    ensures After([SignInit(ECHO), EncryptNothing]).op == NoOperation
  {
    assert [SignInit(ECHO)][..0] == [] && [SignInit(ECHO), EncryptNothing][..1] == [SignInit(ECHO)];
  }

  /** Two bytes are too long for it; the failed call leaves the operation running, so that none can begin. */
  lemma OverflowExample()
    ensures var calls := [SignInit(ECHO), Sign(Some([1, 2]), true, Some(1))];
            && LawfulRun(calls) && LastAnswer(calls).rv == FUNCTION_FAILED
            && Step(After(calls), SignInit(ECHO)).rv == OPERATION_ACTIVE
  {
    var calls := [SignInit(ECHO), Sign(Some([1, 2]), true, Some(1))];
    assert calls[..1] == [SignInit(ECHO)] && calls[..1][..0] == [];
    assert After(calls[..1]) == State(Signing(ECHO), [], true, false, false);
  }

  // ----- the session ---------------------------------------------------------------------------------

  /** The fields of a session that these calls use. */
  class SigningSession {
    var op: Op
    var inner: Bytes
    var allowSinglePartOp: bool
    var allowMultiPartOp: bool
    var reAuthentication: bool

    function Now(): State
      reads this
    {
      State(op, inner, allowSinglePartOp, allowMultiPartOp, reAuthentication)
    }

    constructor ()
      ensures Now() == IDLE
    {
      op, inner, allowSinglePartOp, allowMultiPartOp, reAuthentication := NoOperation, [], false, false, false;
    }

    method ResetOp()
      modifies this
      ensures Now() == Reset(old(Now()))
    {
      op, inner, reAuthentication := NoOperation, [], false;
    }

    /** Answers a query, or asks for a bigger buffer. */
    method Measure(room: Option<nat>, size: nat) returns (answered: bool, rv: Rv, len: nat)
      ensures answered <==> room.None? || room.value < size
      ensures answered ==> Response(rv, len, None, Now()) == Deliver(Now(), room, size, None)
    {
      if room.None? { return true, OK, size; }
      if room.value < size { return true, BUFFER_TOO_SMALL, size; }
      return false, OK, 0;
    }

    /** Ends the operation and hands its result over, if that has the right size. */
    method HandOver(size: nat, result: Option<Bytes>) returns (rv: Rv, len: nat, out: Option<Bytes>)
      modifies this
      ensures Response(rv, len, out, Now()) == Conclude(old(Now()), size, result)
    {
      len, out := 0, None;
      ResetOp();
      if result.None? { rv := GENERAL_ERROR; return; }
      if |result.value| != size { rv := GENERAL_ERROR; return; }
      rv, len, out := OK, size, result;
    }

    method DoDigest(data: Option<Bytes>, lenGiven: bool, room: Option<nat>) returns (rv: Rv, len: nat, out: Option<Bytes>)
      modifies this
      ensures Response(rv, len, out, Now()) == Step(old(Now()), Digest(data, lenGiven, room))
    {
      len, out := 0, None;
      if !lenGiven || data.None? { rv := ARGUMENTS_BAD; return; }
      if !op.Digesting? { rv := OPERATION_NOT_INITIALIZED; return; }
      var h, answered := op.h, false;
      answered, rv, len := Measure(room, h.size);
      if answered { return; }
      var updated := h.stream.feed(inner, data.value);
      if updated.None? { ResetOp(); rv := GENERAL_ERROR; len := 0; return; }
      inner := updated.value;
      rv, len, out := HandOver(h.size, h.finish(inner));
    }

    method DoDigestInit(h: Hash) returns (rv: Rv)
      modifies this
      ensures Response(rv, 0, None, Now()) == Step(old(Now()), DigestInit(h))
    {
      if op != NoOperation { return OPERATION_ACTIVE; }
      op, inner := Digesting(h), h.stream.start;
      return OK;
    }

    method DoDigestUpdate(part: Option<Bytes>) returns (rv: Rv)
      modifies this
      ensures Response(rv, 0, None, Now()) == Step(old(Now()), DigestUpdate(part))
    {
      if part.None? { return ARGUMENTS_BAD; }
      if !op.Digesting? { return OPERATION_NOT_INITIALIZED; }
      var updated := op.h.stream.feed(inner, part.value);
      if updated.None? { ResetOp(); return GENERAL_ERROR; }
      inner := updated.value;
      return OK;
    }

    method DoDigestFinal(lenGiven: bool, room: Option<nat>) returns (rv: Rv, len: nat, out: Option<Bytes>)
      modifies this
      ensures Response(rv, len, out, Now()) == Step(old(Now()), DigestFinal(lenGiven, room))
    {
      len, out := 0, None;
      if !lenGiven { rv := ARGUMENTS_BAD; return; }
      if !op.Digesting? { rv := OPERATION_NOT_INITIALIZED; return; }
      var answered;
      answered, rv, len := Measure(room, op.h.size);
      if answered { return; }
      rv, len, out := HandOver(op.h.size, op.h.finish(inner));
    }

    method DoSignInit(k: Keyed) returns (rv: Rv)
      modifies this
      ensures Response(rv, 0, None, Now()) == Step(old(Now()), SignInit(k))
    {
      if op != NoOperation { return OPERATION_ACTIVE; }
      if !k.mac && k.alwaysAuthenticate { reAuthentication := true; }
      op, inner := Signing(k), k.stream.start;
      allowMultiPartOp, allowSinglePartOp := k.TakesParts(), true;
      return OK;
    }

    method DoSign(data: Option<Bytes>, lenGiven: bool, room: Option<nat>) returns (rv: Rv, len: nat, out: Option<Bytes>)
      modifies this
      ensures Response(rv, len, out, Now()) == Step(old(Now()), Sign(data, lenGiven, room))
    {
      len, out := 0, None;
      if data.None? || !lenGiven { rv := ARGUMENTS_BAD; return; }
      if !op.Signing? { rv := OPERATION_NOT_INITIALIZED; return; }
      if !allowSinglePartOp { ResetOp(); rv := OPERATION_NOT_INITIALIZED; return; }
      if !op.k.mac && reAuthentication { ResetOp(); rv := USER_NOT_LOGGED_IN; return; }
      var k, answered := op.k, false;
      answered, rv, len := Measure(room, k.size);
      if answered { return; }
      if k.TooLong(data.value) { rv := FUNCTION_FAILED; len := 0; return; }
      var input := k.Input(data.value);
      if !allowMultiPartOp {
        rv, len, out := HandOver(k.size, k.sign(input));
        return;
      }
      var updated := k.stream.feed(inner, input);
      if updated.None? { ResetOp(); rv := GENERAL_ERROR; len := 0; return; }
      inner := updated.value;
      rv, len, out := HandOver(k.size, k.finish(inner));
    }

    method DoSignUpdate(part: Option<Bytes>) returns (rv: Rv)
      modifies this
      ensures Response(rv, 0, None, Now()) == Step(old(Now()), SignUpdate(part))
    {
      if part.None? { return ARGUMENTS_BAD; }
      if !op.Signing? { return OPERATION_NOT_INITIALIZED; }
      if !allowMultiPartOp { ResetOp(); return OPERATION_NOT_INITIALIZED; }
      if !op.k.mac && reAuthentication { ResetOp(); return USER_NOT_LOGGED_IN; }
      var updated := op.k.stream.feed(inner, part.value);
      if updated.None? { ResetOp(); return GENERAL_ERROR; }
      inner := updated.value;
      allowSinglePartOp := false;
      return OK;
    }

    method DoSignFinal(lenGiven: bool, room: Option<nat>) returns (rv: Rv, len: nat, out: Option<Bytes>)
      modifies this
      ensures Response(rv, len, out, Now()) == Step(old(Now()), SignFinal(lenGiven, room))
    {
      len, out := 0, None;
      if !lenGiven { rv := ARGUMENTS_BAD; return; }
      if !op.Signing? || !allowMultiPartOp { rv := OPERATION_NOT_INITIALIZED; return; }
      if !op.k.mac && reAuthentication { ResetOp(); rv := USER_NOT_LOGGED_IN; return; }
      var answered;
      answered, rv, len := Measure(room, op.k.size);
      if answered { return; }
      rv, len, out := HandOver(op.k.size, op.k.finish(inner));
    }

    method DoVerifyInit(k: Keyed) returns (rv: Rv)
      modifies this
      ensures Response(rv, 0, None, Now()) == Step(old(Now()), VerifyInit(k))
    {
      if op != NoOperation { return OPERATION_ACTIVE; }
      op, inner := Verifying(k), k.stream.start;
      allowMultiPartOp, allowSinglePartOp := k.TakesParts(), true;
      return OK;
    }

    method DoVerify(data: Option<Bytes>, signature: Option<Bytes>) returns (rv: Rv)
      modifies this
      ensures Response(rv, 0, None, Now()) == Step(old(Now()), Verify(data, signature))
    {
      if data.None? || signature.None? { return ARGUMENTS_BAD; }
      if !op.Verifying? { return OPERATION_NOT_INITIALIZED; }
      var k := op.k;
      if !allowSinglePartOp { ResetOp(); return OPERATION_NOT_INITIALIZED; }
      if |signature.value| != k.size { ResetOp(); return SIGNATURE_LEN_RANGE; }
      if k.TooLong(data.value) { return FUNCTION_FAILED; }
      var input := k.Input(data.value);
      if !allowMultiPartOp {
        ResetOp();
        return if k.verify(input, signature.value) then OK else SIGNATURE_INVALID;
      }
      var updated := k.stream.feed(inner, input);
      if updated.None? { ResetOp(); return if k.mac then GENERAL_ERROR else SIGNATURE_INVALID; }
      ResetOp();
      return if k.confirm(updated.value, signature.value) then OK else SIGNATURE_INVALID;
    }

    method DoVerifyUpdate(part: Option<Bytes>) returns (rv: Rv)
      modifies this
      ensures Response(rv, 0, None, Now()) == Step(old(Now()), VerifyUpdate(part))
    {
      if part.None? { return ARGUMENTS_BAD; }
      if !op.Verifying? { return OPERATION_NOT_INITIALIZED; }
      if !allowMultiPartOp { ResetOp(); return OPERATION_NOT_INITIALIZED; }
      var updated := op.k.stream.feed(inner, part.value);
      if updated.None? { ResetOp(); return GENERAL_ERROR; }
      inner := updated.value;
      allowSinglePartOp := false;
      return OK;
    }

    method DoVerifyFinal(signature: Option<Bytes>) returns (rv: Rv)
      modifies this
      ensures Response(rv, 0, None, Now()) == Step(old(Now()), VerifyFinal(signature))
    {
      if signature.None? { return ARGUMENTS_BAD; }
      if !op.Verifying? || !allowMultiPartOp { return OPERATION_NOT_INITIALIZED; }
      var k, state := op.k, inner;
      ResetOp();
      if |signature.value| != k.size { return SIGNATURE_LEN_RANGE; }
      return if k.confirm(state, signature.value) then OK else SIGNATURE_INVALID;
    }

    method DoDecryptInit(k: Keyed) returns (rv: Rv)
      modifies this
      ensures Response(rv, 0, None, Now()) == Step(old(Now()), DecryptInit(k))
    {
      if op != NoOperation { return OPERATION_ACTIVE; }
      if k.alwaysAuthenticate { reAuthentication := true; }
      op, inner := Decrypting(k), [];
      allowMultiPartOp, allowSinglePartOp := false, true;
      return OK;
    }

    method DoDecrypt(data: Option<Bytes>, lenGiven: bool, room: Option<nat>) returns (rv: Rv, len: nat, out: Option<Bytes>)
      modifies this
      ensures Response(rv, len, out, Now()) == Step(old(Now()), Decrypt(data, lenGiven, room))
    {
      len, out := 0, None;
      if data.None? || !lenGiven { ResetOp(); rv := ARGUMENTS_BAD; return; }
      if !op.Decrypting? { rv := OPERATION_NOT_INITIALIZED; return; }
      if !allowSinglePartOp { ResetOp(); rv := OPERATION_NOT_INITIALIZED; return; }
      if reAuthentication { ResetOp(); rv := USER_NOT_LOGGED_IN; return; }
      var size := op.k.size;
      if room.None? { len := size; rv := OK; return; }
      if room.value < size { len := size; rv := BUFFER_TOO_SMALL; return; }
      var x := op.k.sign(data.value);
      ResetOp();
      if x.None? { rv := ENCRYPTED_DATA_INVALID; return; }
      if |x.value| > size { rv := ENCRYPTED_DATA_LEN_RANGE; return; }
      rv, len, out := OK, |x.value|, x;
    }

    /** C_Login for the purpose of the running operation. */
    method DoContextLogin(pinCorrect: bool) returns (rv: Rv)
      modifies this
      ensures Response(rv, 0, None, Now()) == Step(old(Now()), ContextLogin(pinCorrect))
    {
      if !reAuthentication { return OPERATION_NOT_INITIALIZED; }
      if !pinCorrect { return PIN_INCORRECT; }
      reAuthentication := false;
      return OK;
    }
  }
}
