/** Whole conversations with a running encryption or decryption: parts given with buffers of any size, queries and
    retries in between, and a final call. What has been handed out by then is what the one-shot function makes of
    everything that was taken. */
module CipherRuns {
  import opened Cryptoki
  import opened SymmetricOps
  import opened CipherSessions

  // ----- conversations -----------------------------------------------------------------------------------

  datatype Turn = Part(data: Bytes, room: Option<nat>) | Last(room: Option<nat>)

  /** The answer delivers bytes: neither a failure nor the answer to a query. */
  predicate Delivered(t: Turn, a: Answer) { a.rv == OK && t.room.Some? }

  /** The parts that were taken. */
  function Taken(turns: seq<Turn>, answers: seq<Answer>): seq<Bytes>
    requires |turns| == |answers|
  {
    if |turns| == 0 then []
    else (if turns[0].Part? && Delivered(turns[0], answers[0]) then [turns[0].data] else []) + Taken(turns[1..], answers[1..])
  }

  /** All bytes handed out, joined. */
  function HandedOut(turns: seq<Turn>, answers: seq<Answer>): Bytes
    requires |turns| == |answers|
  {
    if |turns| == 0 then []
    else (if Delivered(turns[0], answers[0]) then answers[0].out else []) + HandedOut(turns[1..], answers[1..])
  }

  /** The conversation ends with a final call that delivers. */
  predicate Ends(turns: seq<Turn>, answers: seq<Answer>)
    requires |turns| == |answers|
  {
    |turns| > 0 && turns[|turns| - 1].Last? && Delivered(turns[|turns| - 1], answers[|turns| - 1])
  }

  // ----- encryption ----------------------------------------------------------------------------------------

  /** The answer is the one that C_EncryptUpdate or C_EncryptFinal gives; block counts fit the `int` that holds
      them. */
  ghost predicate EncTurn(c: Cipher, st: Flow, t: Turn, a: Answer)
    requires c.Lawful() && EncFlow(c, st)
  {
    FlowFits(c, st);
    match t
    case Part(data, room) => Fits(c, |data| + st.Buffered()) && EncUpdateAnswer(c, st, data, room, a)
    case Last(room) => EncFinalAnswer(c, st, room, a)
  }

  /** One turn after the other, as long as the operation runs. */
  ghost predicate Encrypts(c: Cipher, st: Flow, turns: seq<Turn>, answers: seq<Answer>)
    requires c.Lawful() && EncFlow(c, st)
    decreases |turns|
  {
    && |turns| == |answers|
    && (|turns| > 0 ==>
          && EncTurn(c, st, turns[0], answers[0])
          && if answers[0].op == NoOperation then |turns| == 1
             else EncFlow(c, answers[0].flow) && Encrypts(c, answers[0].flow, turns[1..], answers[1..]))
  }

  lemma {:induction false} EncryptionIsParts(c: Cipher, st: Flow, turns: seq<Turn>, answers: seq<Answer>)
    requires c.Lawful() && EncFlow(c, st) && Encrypts(c, st, turns, answers) && Ends(turns, answers)
    ensures EncParts(c, st, Taken(turns, answers)) == Some(HandedOut(turns, answers))
    decreases |turns|
  {
    hide Cipher.Lawful, EncOut, EncFinal, EncNext, EncFlow, Fits;
    var a := answers[0];
    if |turns| == 1 {
      assert Taken(turns[1..], answers[1..]) == [] && HandedOut(turns[1..], answers[1..]) == [];
      assert a.out + [] == a.out;
    } else {
      assert a.op != NoOperation;
      EncryptionIsParts(c, a.flow, turns[1..], answers[1..]);
      if turns[0].Part? && Delivered(turns[0], a) {
        EncPartTaken(c, st, turns[0], a, Taken(turns[1..], answers[1..]), HandedOut(turns[1..], answers[1..]));
      } else {
        EncNothingTaken(c, st, turns[0], a);
        assert [] + Taken(turns[1..], answers[1..]) == Taken(turns[1..], answers[1..]);
        assert [] + HandedOut(turns[1..], answers[1..]) == HandedOut(turns[1..], answers[1..]);
      }
    }
  }

  lemma EncPartTaken(c: Cipher, st: Flow, t: Turn, a: Answer, parts: seq<Bytes>, rest: Bytes)
    requires c.Lawful() && EncFlow(c, st) && t.Part? && EncTurn(c, st, t, a)
    requires Delivered(t, a) && a.op != NoOperation && EncFlow(c, a.flow) && EncParts(c, a.flow, parts) == Some(rest)
    ensures EncParts(c, st, [t.data] + parts) == Some(a.out + rest)
  {
    hide Cipher.Lawful, EncOut, EncFinal, EncNext, EncFlow, Fits;
    assert ([t.data] + parts)[1..] == parts;
  }

  lemma EncNothingTaken(c: Cipher, st: Flow, t: Turn, a: Answer)
    requires c.Lawful() && EncFlow(c, st) && a.op != NoOperation && !(t.Part? && Delivered(t, a))
    requires EncTurn(c, st, t, a)
    ensures a.flow == st && !Delivered(t, a)
  {
    hide Cipher.Lawful, EncOut, EncFinal, EncNext, EncFlow, Fits;
  }

  /** However an encryption is cut into parts, asked for sizes and retried: once the final call delivers, the bytes
      handed out are the ciphertext of the parts taken, which is as long as the limit of the mechanism allows. */
  lemma EncryptionDelivers(c: Cipher, turns: seq<Turn>, answers: seq<Answer>)
    requires c.Lawful()
    requires EncFlow(c, START) && Encrypts(c, START, turns, answers) && Ends(turns, answers)
    ensures Ciphertext(c, Flatten(Taken(turns, answers))) == Some(HandedOut(turns, answers))
    ensures c.maximum.Some? ==> |Flatten(Taken(turns, answers))| <= c.maximum.value
  {
    hide Cipher.Lawful, EncFlow, EncParts, EncTurn;
    EncryptionIsParts(c, START, turns, answers);
    PartsEncryptTheWhole(c, Taken(turns, answers));
  }

  /** The parts taken before the last turn amount to so many bytes. */
  function TakenBefore(turns: seq<Turn>, answers: seq<Answer>): nat
    requires |turns| == |answers| > 0
  {
    |Flatten(Taken(turns[..|turns| - 1], answers[..|turns| - 1]))|
  }

  lemma TakenGrows(turns: seq<Turn>, answers: seq<Answer>)
    requires |turns| == |answers| > 1
    ensures TakenBefore(turns, answers) ==
              (if turns[0].Part? && Delivered(turns[0], answers[0]) then |turns[0].data| else 0) + TakenBefore(turns[1..], answers[1..])
  {
    var front, before := turns[..|turns| - 1], answers[..|turns| - 1];
    assert front[1..] == turns[1..][..|turns| - 2] && before[1..] == answers[1..][..|turns| - 2];
    if turns[0].Part? && Delivered(turns[0], answers[0]) {
      assert Taken(front, before)[1..] == Taken(front[1..], before[1..]);
    } else {
      assert [] + Taken(front[1..], before[1..]) == Taken(front[1..], before[1..]);
    }
  }

  lemma {:induction false} EncLimit(c: Cipher, st: Flow, turns: seq<Turn>, answers: seq<Answer>)
    requires c.Lawful() && EncFlow(c, st) && Encrypts(c, st, turns, answers) && |turns| > 0 && turns[|turns| - 1].Part?
    ensures answers[|turns| - 1].rv == DATA_LEN_RANGE <==>
              c.maximum.Some? && c.maximum.value < |st.fed| + TakenBefore(turns, answers) + |turns[|turns| - 1].data|
    decreases |turns|
  {
    hide Cipher.Lawful, EncOut, EncFinal, EncFlow, Fits, TakenBefore;
    if |turns| == 1 {
      assert TakenBefore(turns, answers) == 0 by { hide EncTurn; OneTurn(turns, answers); }
    } else {
      EncLimit(c, answers[0].flow, turns[1..], answers[1..]);
      TakenGrows(turns, answers);
      if !(turns[0].Part? && Delivered(turns[0], answers[0])) { EncNothingTaken(c, st, turns[0], answers[0]); }
    }
  }

  lemma OneTurn(turns: seq<Turn>, answers: seq<Answer>)
    requires |turns| == |answers| == 1
    ensures TakenBefore(turns, answers) == 0
  {
  }

  /** The limit of a mechanism counts everything taken since the operation began: a part is refused exactly if with
      it that would be too much. */
  lemma EncryptionLimit(c: Cipher, turns: seq<Turn>, answers: seq<Answer>)
    requires c.Lawful() && EncFlow(c, START) && Encrypts(c, START, turns, answers) && |turns| > 0 && turns[|turns| - 1].Part?
    ensures answers[|turns| - 1].rv == DATA_LEN_RANGE <==>
              c.maximum.Some? && c.maximum.value < TakenBefore(turns, answers) + |turns[|turns| - 1].data|
  {
    hide Cipher.Lawful, EncFlow, EncTurn;
    EncLimit(c, START, turns, answers);
  }

  // ----- decryption -------------------------------------------------------------------------------------------

  lemma SomeBuffered(c: Cipher, st: Flow)
    requires c.Lawful() && DecFlow(c, st)
    ensures st.Buffered() >= 0
  {
    DecOutLength(c, st, []);
  }

  ghost predicate DecTurn(c: Cipher, st: Flow, t: Turn, a: Answer)
    requires c.Lawful() && DecFlow(c, st)
  {
    SomeBuffered(c, st);
    match t
    case Part(data, room) => Fits(c, |data| + st.Buffered()) && |data| + st.Buffered() < TWO_63 && DecUpdateAnswer(c, st, data, room, a)
    case Last(room) => DecFinalAnswer(c, st, room, a)
  }

  ghost predicate Decrypts(c: Cipher, st: Flow, turns: seq<Turn>, answers: seq<Answer>)
    requires c.Lawful() && DecFlow(c, st)
    decreases |turns|
  {
    && |turns| == |answers|
    && (|turns| > 0 ==>
          && DecTurn(c, st, turns[0], answers[0])
          && if answers[0].op == NoOperation then |turns| == 1
             else DecFlow(c, answers[0].flow) && Decrypts(c, answers[0].flow, turns[1..], answers[1..]))
  }

  lemma {:induction false} DecryptionIsParts(c: Cipher, st: Flow, turns: seq<Turn>, answers: seq<Answer>)
    requires c.Lawful() && DecFlow(c, st) && Decrypts(c, st, turns, answers) && Ends(turns, answers)
    ensures DecParts(c, st, Taken(turns, answers)) == Accepted(HandedOut(turns, answers))
    decreases |turns|
  {
    hide Cipher.Lawful, DecOut, DecFinal, DecNext, DecFlow, Fits, DecAnnounced, DecFinalAnnounced;
    var a := answers[0];
    if |turns| == 1 {
      LastDecrypts(c, st, turns[0], a);
      assert Taken(turns[1..], answers[1..]) == [] && HandedOut(turns[1..], answers[1..]) == [];
      assert a.out + [] == a.out;
    } else {
      assert a.op != NoOperation;
      DecryptionIsParts(c, a.flow, turns[1..], answers[1..]);
      if turns[0].Part? && Delivered(turns[0], a) {
        DecPartTaken(c, st, turns[0], a, Taken(turns[1..], answers[1..]), HandedOut(turns[1..], answers[1..]));
      } else {
        DecNothingTaken(c, st, turns[0], a);
        assert [] + Taken(turns[1..], answers[1..]) == Taken(turns[1..], answers[1..]);
        assert [] + HandedOut(turns[1..], answers[1..]) == HandedOut(turns[1..], answers[1..]);
      }
    }
  }

  lemma LastDecrypts(c: Cipher, st: Flow, t: Turn, a: Answer)
    requires c.Lawful() && DecFlow(c, st) && t.Last? && DecFinalAnswer(c, st, t.room, a) && Delivered(t, a)
    ensures DecFinal(c, st) == Accepted(a.out)
  {
    hide Cipher.Lawful, DecFlow, DecFinalAnnounced;
  }

  lemma DecPartTaken(c: Cipher, st: Flow, t: Turn, a: Answer, parts: seq<Bytes>, rest: Bytes)
    requires c.Lawful() && DecFlow(c, st) && t.Part? && DecTurn(c, st, t, a)
    requires Delivered(t, a) && a.op != NoOperation && DecFlow(c, a.flow) && DecParts(c, a.flow, parts) == Accepted(rest)
    ensures DecParts(c, st, [t.data] + parts) == Accepted(a.out + rest)
  {
    hide Cipher.Lawful, DecOut, DecFinal, DecNext, DecFlow, Fits, DecAnnounced;
    assert ([t.data] + parts)[1..] == parts;
  }

  lemma DecNothingTaken(c: Cipher, st: Flow, t: Turn, a: Answer)
    requires c.Lawful() && DecFlow(c, st) && a.op != NoOperation && !(t.Part? && Delivered(t, a))
    requires DecTurn(c, st, t, a)
    ensures a.flow == st && !Delivered(t, a)
  {
    hide Cipher.Lawful, DecOut, DecFinal, DecNext, DecFlow, Fits, DecAnnounced, DecFinalAnnounced;
  }

  /** The same for decryption: what was handed out is the message behind the parts taken. */
  lemma DecryptionDelivers(c: Cipher, turns: seq<Turn>, answers: seq<Answer>)
    requires c.Lawful()
    requires DecFlow(c, START) && Decrypts(c, START, turns, answers) && Ends(turns, answers)
    ensures Plaintext(c, Flatten(Taken(turns, answers))) == Accepted(HandedOut(turns, answers))
    ensures c.maximum.Some? ==> |Flatten(Taken(turns, answers))| <= c.maximum.value
  {
    hide Cipher.Lawful, DecFlow, DecParts, DecTurn;
    DecryptionIsParts(c, START, turns, answers);
    PartsDecryptTheWhole(c, Taken(turns, answers));
  }

  lemma {:induction false} DecLimit(c: Cipher, st: Flow, turns: seq<Turn>, answers: seq<Answer>)
    requires c.Lawful() && DecFlow(c, st) && Decrypts(c, st, turns, answers) && |turns| > 0 && turns[|turns| - 1].Part?
    ensures answers[|turns| - 1].rv == ENCRYPTED_DATA_LEN_RANGE <==>
              c.maximum.Some? && c.maximum.value < |st.fed| + TakenBefore(turns, answers) + |turns[|turns| - 1].data|
    decreases |turns|
  {
    hide Cipher.Lawful, DecOut, DecFinal, DecFlow, Fits, TakenBefore, DecAnnounced, DecFinalAnnounced;
    if |turns| == 1 {
      assert TakenBefore(turns, answers) == 0 by { hide DecTurn; OneTurn(turns, answers); }
    } else {
      DecLimit(c, answers[0].flow, turns[1..], answers[1..]);
      TakenGrows(turns, answers);
      if !(turns[0].Part? && Delivered(turns[0], answers[0])) { DecNothingTaken(c, st, turns[0], answers[0]); }
    }
  }

  lemma DecryptionLimit(c: Cipher, turns: seq<Turn>, answers: seq<Answer>)
    requires c.Lawful() && DecFlow(c, START) && Decrypts(c, START, turns, answers) && |turns| > 0 && turns[|turns| - 1].Part?
    ensures answers[|turns| - 1].rv == ENCRYPTED_DATA_LEN_RANGE <==>
              c.maximum.Some? && c.maximum.value < TakenBefore(turns, answers) + |turns[|turns| - 1].data|
  {
    hide Cipher.Lawful, DecFlow, DecTurn;
    DecLimit(c, START, turns, answers);
  }

  /** A message encrypted in one conversation and decrypted in another comes back. */
  lemma ConversationsRoundTrip(c: Cipher, turns: seq<Turn>, answers: seq<Answer>, turns2: seq<Turn>, answers2: seq<Answer>)
    requires c.Lawful() && EncFlow(c, START) && DecFlow(c, START)
    requires Encrypts(c, START, turns, answers) && Ends(turns, answers)
    requires Decrypts(c, START, turns2, answers2) && Ends(turns2, answers2)
    requires Flatten(Taken(turns2, answers2)) == HandedOut(turns, answers)
    ensures HandedOut(turns2, answers2) == Flatten(Taken(turns, answers))
  {
    hide Cipher.Lawful, EncFlow, DecFlow, EncTurn, DecTurn, Plaintext, Ciphertext;
    EncryptionDelivers(c, turns, answers);
    DecryptionDelivers(c, turns2, answers2);
    RoundTrip(c, Flatten(Taken(turns, answers)), HandedOut(turns, answers));
  }
}
