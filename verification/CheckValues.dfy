/** The check value of a key tells the truth: for keys created, generated or derived otherwise than by
    an agreement, and everything copied from them, CKA_CHECK_VALUE is empty or belongs to CKA_VALUE. */
module CheckValues {
  import opened Cryptoki
  import opened Attributes
  import opened ObjectClasses
  import opened AttributeLaws
  import opened Templates
  import opened Transparency
  import opened ObjectStore
  import opened ObjectLaws
  import opened Runs
  import opened HalfMade
  import opened TransparentRuns
  import opened CopyLaws
  import opened Concatenation

  // ----- the property, for objects stored in clear ------------------------------------------------

  /** The check value is absent, or the one that belongs to the value. */
  predicate Truthful(token: Token, o: Attrs) {
    Class(o) == CKO_SECRET_KEY && KcvOf(token, KeyType(o), Text(o, CKA_VALUE)).Some? ==>
      Text(o, CKA_CHECK_VALUE) == [] || KcvOf(token, KeyType(o), Text(o, CKA_VALUE)) == Some(Text(o, CKA_CHECK_VALUE))
  }

  lemma KcvKnown(token: Token, keyType: nat, x: Bytes, y: Bytes)
    ensures KcvOf(token, keyType, x).Some? == KcvOf(token, keyType, y).Some?
  {
  }

  /** A value written on creation brings its check value along. */
  lemma ValueIsTruthful(ctx: Context, isPrivate: bool, o: Attrs, p: Payload)
    requires p.NullPtr? ==> p.len == 0
    requires WriteValue(Clear(ctx), isPrivate, o, p, Create).rv == OK
    ensures var o' := WriteValue(Clear(ctx), isPrivate, o, p, Create).attrs;
            && Text(o', CKA_VALUE) == p.Data()
            && (Class(o) == CKO_SECRET_KEY ==>
                  Text(o', CKA_CHECK_VALUE) == match KcvOf(ctx.token, KeyType(o), p.Data()) case Some(k) => k case None => [])
            && Class(o') == Class(o) && KeyType(o') == KeyType(o)
  {
    SameKcv(ctx.token, KeyType(o), p.Data());
    var o1 := RecordLengths(o[CKA_VALUE := BytesV(p.Data())], p.Data(), Create);
    assert Class(o1) == Class(o) && KeyType(o1) == KeyType(o);
  }

  /** A check value is only ever accepted if it is empty or right. */
  lemma CheckIsTruthful(ctx: Context, isPrivate: bool, o: Attrs, p: Payload)
    requires p.NullPtr? ==> p.len == 0
    requires WriteCheckValue(Clear(ctx), isPrivate, o, p).rv == OK
    ensures var o' := WriteCheckValue(Clear(ctx), isPrivate, o, p).attrs;
            && o' == o[CKA_CHECK_VALUE := BytesV(p.Data())]
            && Truthful(ctx.token, o')
  {
    SameKcv(ctx.token, KeyType(o), Text(o, CKA_VALUE));
  }

  lemma WriteIsTruthful(ctx: Context, t: AttrType, isPrivate: bool, o: Attrs, p: Payload, op: Op)
    requires Truthful(ctx.token, o) && (p.NullPtr? ==> p.len == 0)
    requires t == CKA_VALUE ==> op.Create?
    requires Write(Clear(ctx), t, isPrivate, o, p, op).rv == OK || t != CKA_VALUE
    ensures Truthful(ctx.token, Write(Clear(ctx), t, isPrivate, o, p, op).attrs)
  {
    hide KcvOf;
    var r := Write(Clear(ctx), t, isPrivate, o, p, op);
    if t == CKA_VALUE {
      ValueIsTruthful(ctx, isPrivate, o, p);
    } else if t == CKA_CHECK_VALUE {
      if r.rv == OK { CheckIsTruthful(ctx, isPrivate, o, p); }
    } else {
      hide KindOf;
      WriteTidy(Clear(ctx), t, isPrivate, o, p, op, CKA_VALUE);
      WriteTidy(Clear(ctx), t, isPrivate, o, p, op, CKA_CHECK_VALUE);
      WriteKeepsClass(Clear(ctx), t, isPrivate, o, p, op);
    }
  }

  lemma WriteKeepsClass(ctx: Context, t: AttrType, isPrivate: bool, o: Attrs, p: Payload, op: Op)
    ensures var o' := Write(ctx, t, isPrivate, o, p, op).attrs; Class(o') == Class(o) && KeyType(o') == KeyType(o)
  {
    WriteTidy(ctx, t, isPrivate, o, p, op, CKA_CLASS);
    WriteTidy(ctx, t, isPrivate, o, p, op, CKA_KEY_TYPE);
  }

  /** Saving keeps check values truthful if CKA_VALUE is written on creation only; a template that
      cannot write CKA_VALUE keeps them truthful even when it fails. */
  lemma {:induction false} ApplyIsTruthful(job: Job, o: Attrs, es: Template)
    requires Truthful(job.ctx.token, o)
    requires job.op.Create? || (CKA_VALUE in job.schema ==> job.schema[CKA_VALUE].Prohibited(job.op) || !job.schema[CKA_VALUE].Writable(job.op))
    requires job.op.Create? ==> ApplyEntries(ClearJob(job), o, es).rv == OK
    ensures Truthful(job.ctx.token, ApplyEntries(ClearJob(job), o, es).attrs)
    decreases |es|
  {
    hide Write, Truthful, KindOf;
    if |es| > 0 {
      var first := UpdateEntry(ClearJob(job), o, es[0]);
      if first.attrs != o {
        WriteIsTruthful(job.ctx, es[0].t, job.isPrivate, o, es[0].p, job.op);
      }
      if first.rv == OK { ApplyIsTruthful(job, first.attrs, es[1..]); }
    }
  }

  // ----- creation -----------------------------------------------------------------------------------------

  /** The last entry of a type, whatever its length. */
  function LastEntry(es: Template, t: AttrType): Option<Payload> {
    if |es| == 0 then None else if es[|es| - 1].t == t then Some(es[|es| - 1].p) else LastEntry(es[..|es| - 1], t)
  }

  /** Before the check values are looked at: the value is the one of the last entry, and the check
      value the one that belongs to it. */
  lemma {:induction false} ValueThenCheck(job: Job, o: Attrs, es: Template)
    requires job.op.Create? && ApplyEntries(ClearJob(job), o, es).rv == OK
    requires Class(o) == CKO_SECRET_KEY && !Named(es, CKA_CHECK_VALUE) && LastEntry(es, CKA_VALUE).Some?
    ensures var o' := ApplyEntries(ClearJob(job), o, es).attrs;
            var value := LastEntry(es, CKA_VALUE).value.Data();
            && Text(o', CKA_VALUE) == value && Class(o') == CKO_SECRET_KEY && KeyType(o') == KeyType(o)
            && Text(o', CKA_CHECK_VALUE) == match KcvOf(job.ctx.token, KeyType(o), value) case Some(k) => k case None => []
    decreases |es|
  {
    hide Write, KcvOf, KindOf;
    var n := |es| - 1;
    var front, last := es[..n], es[n..];
    assert es == front + last;
    ApplyJoin(ClearJob(job), o, front, last);
    var o1 := ApplyEntries(ClearJob(job), o, front).attrs;
    ApplyKeepsIdentity(ClearJob(job), o, front);
    assert last[1..] == [];
    var r := UpdateEntry(ClearJob(job), o1, es[n]);
    assert ApplyEntries(ClearJob(job), o1, last) == r;
    WriteKeepsClass(Clear(job.ctx), es[n].t, job.isPrivate, o1, es[n].p, Create);
    assert es[n].t != CKA_CHECK_VALUE;
    if es[n].t == CKA_VALUE {
      CreateValue(job, o1, es[n].p);
    } else {
      assert !Named(front, CKA_CHECK_VALUE) by { assert forall i :: 0 <= i < |front| ==> front[i] == es[i]; }
      ValueThenCheck(job, o, front);
      WriteTidy(Clear(job.ctx), es[n].t, job.isPrivate, o1, es[n].p, Create, CKA_VALUE);
      WriteTidy(Clear(job.ctx), es[n].t, job.isPrivate, o1, es[n].p, Create, CKA_CHECK_VALUE);
    }
  }

  lemma CreateValue(job: Job, o: Attrs, p: Payload)
    requires job.op.Create? && Class(o) == CKO_SECRET_KEY
    requires UpdateEntry(ClearJob(job), o, Entry(CKA_VALUE, p)).rv == OK
    ensures var o' := UpdateEntry(ClearJob(job), o, Entry(CKA_VALUE, p)).attrs;
            && Text(o', CKA_VALUE) == p.Data()
            && Text(o', CKA_CHECK_VALUE) == match KcvOf(job.ctx.token, KeyType(o), p.Data()) case Some(k) => k case None => []
  {
    hide KcvOf;
    ValueIsTruthful(job.ctx, job.isPrivate, o, p);
  }

  lemma CheckIsLast(job: Job, o: Attrs, e: Entry)
    requires e.t == CKA_CHECK_VALUE && UpdateEntry(ClearJob(job), o, e).rv == OK
    ensures var o' := UpdateEntry(ClearJob(job), o, e).attrs; SameAt(o, o', CKA_VALUE) && Text(o', CKA_CHECK_VALUE) == e.p.Data()
  {
    hide KcvOf, Truthful, Refusal;
    CheckIsTruthful(job.ctx, job.isPrivate, o, e.p);
  }

  /** The check values themselves: the last one given stands, and it was checked against the value. */
  lemma {:induction false} CheckStands(job: Job, o: Attrs, es: Template)
    requires ApplyEntries(ClearJob(job), o, es).rv == OK && (forall i :: 0 <= i < |es| ==> es[i].t == CKA_CHECK_VALUE)
    ensures var o' := ApplyEntries(ClearJob(job), o, es).attrs;
            && SameAt(o, o', CKA_VALUE)
            && Text(o', CKA_CHECK_VALUE) == match LastEntry(es, CKA_CHECK_VALUE) case Some(p) => p.Data() case None => Text(o, CKA_CHECK_VALUE)
    decreases |es|
  {
    hide KcvOf, Truthful;
    if |es| > 0 {
      var n := |es| - 1;
      var front, last := es[..n], es[n..];
      assert es == front + last && last[1..] == [];
      ApplyJoin(ClearJob(job), o, front, last);
      var o1 := ApplyEntries(ClearJob(job), o, front).attrs;
      CheckStands(job, o, front);
      assert ApplyEntries(ClearJob(job), o1, last) == UpdateEntry(ClearJob(job), o1, es[n]);
      hide ApplyEntries;
      CheckIsLast(job, o1, es[n]);
    }
  }

  lemma LastEntryOf(es: Template, e: Entry, t: AttrType)
    ensures LastEntry(es + [e], t) == if e.t == t then Some(e.p) else LastEntry(es, t)
    ensures LastEntry(es + [], t) == LastEntry(es, t)
  {
    assert (es + [e])[..|es|] == es && es + [] == es;
  }

  lemma {:induction false} Partitioned(es: Template)
    ensures !Named(WithoutCheckValue(es), CKA_CHECK_VALUE)
    ensures LastEntry(WithoutCheckValue(es), CKA_VALUE) == LastEntry(es, CKA_VALUE)
    ensures forall i :: 0 <= i < |OnlyCheckValue(es)| ==> OnlyCheckValue(es)[i].t == CKA_CHECK_VALUE
    ensures LastEntry(OnlyCheckValue(es), CKA_CHECK_VALUE) == LastEntry(es, CKA_CHECK_VALUE)
  {
    if |es| > 0 {
      var front, e := es[..|es| - 1], es[|es| - 1];
      Partitioned(front);
      LastEntryOf(WithoutCheckValue(front), e, CKA_VALUE);
      LastEntryOf(OnlyCheckValue(front), e, CKA_CHECK_VALUE);
    }
  }

  /** What C_CreateObject makes of the two attributes, wherever in the template they stand: the value
      is the last one given; the check value is the last one given, which may be empty, and otherwise
      the one that belongs to the value. */
  lemma CreatedCheckValue(job: Job, o: Attrs, es: Template)
    requires job.op.Create? && Class(o) == CKO_SECRET_KEY && LastEntry(es, CKA_VALUE).Some?
    requires ApplyEntries(ClearJob(job), o, CheckValueLast(es)).rv == OK
    ensures var o' := ApplyEntries(ClearJob(job), o, CheckValueLast(es)).attrs;
            var value := LastEntry(es, CKA_VALUE).value.Data();
            && Text(o', CKA_VALUE) == value
            && Text(o', CKA_CHECK_VALUE) ==
                 match LastEntry(es, CKA_CHECK_VALUE)
                 case Some(p) => p.Data()
                 case None => match KcvOf(job.ctx.token, KeyType(o), value) case Some(k) => k case None => []
  {
    hide KcvOf, UpdateEntry;
    Partitioned(es);
    ApplyJoin(ClearJob(job), o, WithoutCheckValue(es), OnlyCheckValue(es));
    ValueThenCheck(job, o, WithoutCheckValue(es));
    CheckStands(job, ApplyEntries(ClearJob(job), o, WithoutCheckValue(es)).attrs, OnlyCheckValue(es));
  }

  // ----- steps --------------------------------------------------------------------------------------------

  lemma NewTruthful(token: Token, c: ClassId)
    ensures Truthful(token, Initialised(c, map[])) && Text(Initialised(c, map[]), CKA_CHECK_VALUE) == []
  {
    InitialisedAt(c, map[], CKA_CHECK_VALUE);
    DefaultsEmpty(CKA_CHECK_VALUE);
  }

  lemma MarkCreatedTruthful(token: Token, o: Attrs, objClass: nat)
    ensures Truthful(token, MarkCreated(o, objClass)) == Truthful(token, o)
  {
    hide KcvOf;
  }

  lemma CreatedTruthful(ctx: Context, caller: Caller, es: Template)
    ensures var d := DraftObject(Clear(ctx), caller, es, Create); d.Complete? ==> Truthful(ctx.token, d.item.attrs)
  {
    hide Table, Declares, Initialised, SchemaOf, CheckValueLast, ClassOf, ReadPlan, Truthful, ApplyEntries;
    var p := ReadPlan(es, false, DEFAULT_PLAN).plan;
    var c := ClassOf(p.objClass, p.keyType, p.certType);
    if DraftObject(Clear(ctx), caller, es, Create).Complete? {
      var job := Job(ctx, SchemaOf(c.value), p.isPrivate, Create);
      NewTruthful(ctx.token, c.value);
      ApplyIsTruthful(job, Initialised(c.value, map[]), CheckValueLast(es));
      MarkCreatedTruthful(ctx.token, ApplyEntries(ClearJob(job), Initialised(c.value, map[]), CheckValueLast(es)).attrs, p.objClass);
    }
  }

  lemma ValueNotChangeable(c: ClassId, op: Op)
    requires op.Changing()
    ensures CKA_VALUE in SchemaOf(c) ==> !SchemaOf(c)[CKA_VALUE].Writable(op)
  {
    hide Table, BaseChecks, BaseSize;
    if CKA_VALUE in SchemaOf(c) && SchemaOf(c)[CKA_VALUE].Writable(op) { CopyNamesCopyKinds(c, CKA_VALUE, op); }
  }

  lemma CopiedTruthful(ctx: Context, caller: Caller, source: Id, c: Attrs, es: Template)
    requires Healthy(c) && Truthful(ctx.token, c) && DraftCopy(Clear(ctx), caller, source, c, es).Complete?
    ensures Truthful(ctx.token, DraftCopy(Clear(ctx), caller, source, c, es).item.attrs)
  {
    hide Table, Declares, Initialised, SchemaOf, KindOf, LastFlag, StoredClass, WellTyped, ApplyEntries, Truthful;
    var isPrivate := LastFlag(es, CKA_PRIVATE, IsPrivate(c));
    ClearTranscript(ctx, !IsPrivate(c) && isPrivate, c);
    var k := StoredClass(c).value;
    Reinitialised(k, c);
    ValueNotChangeable(k, Copy);
    ApplyIsTruthful(Job(ctx, SchemaOf(k), isPrivate, Copy), c, es);
  }

  lemma SetTruthful(ctx: Context, k: ClassId, isPrivate: bool, c: Attrs, es: Template, rollback: bool)
    requires Truthful(ctx.token, c)
    ensures Truthful(ctx.token, SaveTemplate(Job(Clear(ctx), SchemaOf(k), isPrivate, Set), c, es, rollback).attrs)
  {
    hide SchemaOf, ApplyEntries, Truthful;
    var job := Job(ctx, SchemaOf(k), isPrivate, Set);
    ValueNotChangeable(k, Set);
    ApplyIsTruthful(job, c, es);
  }

  /** Only the class itself declares the value of a secret key, and no one may supply it when the
      key is generated or unwrapped. */
  lemma ValueNotGenerated(k: nat)
    ensures CKA_VALUE in SchemaOf(SecretKey(k)) ==> SchemaOf(SecretKey(k))[CKA_VALUE].Prohibited(Generate)
    ensures CKA_VALUE in SchemaOf(SecretKey(k)) ==> SchemaOf(SecretKey(k))[CKA_VALUE].Prohibited(Unwrap)
  {
    hide ANY_OBJECT, ANY_KEY, SECRET_KEY, SecretKeyPart, BaseChecks, BaseSize;
    ValueProhibitedIn(k);
    assert ValueProhibited(Table(SecretKey(k)));
    hide Table, SchemaFrom;
    SchemaSays(Table(SecretKey(k)), CKA_VALUE);
  }

  predicate ValueProhibited(ds: seq<Decl>) { forall i :: 0 <= i < |ds| && ds[i].t == CKA_VALUE ==> Ck4 in ds[i].extra && Ck6 in ds[i].extra }

  lemma ValueProhibitedIn(k: nat)
    ensures ValueProhibited(ANY_OBJECT) && ValueProhibited(ANY_KEY) && ValueProhibited(SECRET_KEY) && ValueProhibited(SecretKeyPart(k))
  {
  }

  // ----- generation ---------------------------------------------------------------------------------------

  predicate NamesNoCheck(es: Template) { forall i :: 0 <= i < |es| ==> es[i].t != CKA_CHECK_VALUE }

  lemma {:induction false} AlreadyOrdered(es: Template)
    requires NamesNoCheck(es)
    ensures CheckValueLast(es) == es && OnlyCheckValue(es) == []
  {
    if |es| > 0 { AlreadyOrdered(es[..|es| - 1]); }
  }

  lemma {:induction false} AssembledWithoutCheck(p: Plan, es: Template)
    ensures NamesNoCheck(Rest(es, true)) && NamesNoCheck(Header(p) + Rest(es, true))
  {
    if |es| > 0 { AssembledWithoutCheck(p, es[..|es| - 1]); }
  }

  lemma {:induction false} ApplyKeepsCheck(job: Job, o: Attrs, es: Template)
    requires NamesNoCheck(es)
    requires (forall e :: e in es ==> e.t != CKA_VALUE) || (CKA_VALUE in job.schema ==> job.schema[CKA_VALUE].Prohibited(job.op))
    ensures SameAt(o, ApplyEntries(job, o, es).attrs, CKA_CHECK_VALUE)
    decreases |es|
  {
    hide Write;
    if |es| > 0 {
      var first := UpdateEntry(job, o, es[0]);
      WriteTidy(job.ctx, es[0].t, job.isPrivate, o, es[0].p, job.op, CKA_CHECK_VALUE);
      if first.rv == OK { ApplyKeepsCheck(job, first.attrs, es[1..]); }
    }
  }

  lemma DraftWithoutCheck(ctx: Context, caller: Caller, full: Template, k: nat, op: Op)
    requires NamesNoCheck(full) && (op.Generate? || (op.Derive? && forall e :: e in full ==> e.t != CKA_VALUE))
    requires var p := ReadPlan(full, false, DEFAULT_PLAN).plan; ClassOf(p.objClass, p.keyType, p.certType) == Some(SecretKey(k))
    ensures var d := DraftObject(ctx, caller, full, op); d.Complete? ==> Text(d.item.attrs, CKA_CHECK_VALUE) == []
  {
    hide Table, Declares, Initialised, SchemaOf, ClassOf, ReadPlan, Truthful, ApplyEntries, CheckValueLast;
    var p := ReadPlan(full, false, DEFAULT_PLAN).plan;
    var job := Job(ctx, SchemaOf(SecretKey(k)), p.isPrivate, op);
    AlreadyOrdered(full);
    ValueNotGenerated(k);
    NewTruthful(ctx.token, SecretKey(k));
    ApplyKeepsCheck(job, Initialised(SecretKey(k), map[]), full);
  }

  lemma GeneratedTruthful(ctx: Context, isPrivate: bool, mechanism: nat, keyType: nat, key: Bytes, checkValue: bool, o: Attrs)
    requires Text(o, CKA_CHECK_VALUE) == [] && KeyType(o) == keyType && (isPrivate ==> ctx.session.LoggedIn())
    ensures Truthful(ctx.token, ContributeGenerated(Clear(ctx), isPrivate, mechanism, keyType, key, checkValue)(o).value)
  {
    hide KcvOf, GeneratedClaims;
    SameKcv(ctx.token, keyType, key);
    var o1 := GeneratedClaims(mechanism, o);
    GeneratedClaimsElsewhere(mechanism, o);
    StoredKeyTruthful(ctx, isPrivate, o1, key, if checkValue then KcvOf(ctx.token, keyType, key) else None);
  }

  lemma GeneratedClaimsElsewhere(mechanism: nat, o: Attrs)
    ensures var o' := GeneratedClaims(mechanism, o); KeyType(o') == KeyType(o) && Text(o', CKA_CHECK_VALUE) == Text(o, CKA_CHECK_VALUE)
  {
  }

  lemma StoredKeyTruthful(ctx: Context, isPrivate: bool, o: Attrs, key: Bytes, kcv: Option<Bytes>)
    requires Text(o, CKA_CHECK_VALUE) == [] && (isPrivate ==> ctx.session.LoggedIn())
    requires kcv == None || kcv == KcvOf(ctx.token, KeyType(o), key)
    ensures Truthful(ctx.token, StoreKey(Clear(ctx), isPrivate, o, key, kcv))
  {
    hide KcvOf;
    var o' := StoreKey(Clear(ctx), isPrivate, o, key, kcv);
    assert Text(o', CKA_VALUE) == key && KeyType(o') == KeyType(o);
  }

  /** What a key-making call did: nothing to existing objects, and if a finished object is new, it is
      the drafted one completed. */
  lemma MakeKeyShape(w: World, ctx: Context, caller: Caller, p: Plan, es: Template, dropCheck: bool, op: Op, origin: Origin,
                     contribute: Attrs -> Option<Attrs>)
    requires Sound(w) && op != Copy && op != Set
    ensures var w' := MakeKey(w, ctx, caller, p, es, dropCheck, op, origin, contribute).world;
            var d := DraftObject(ctx, caller, Header(p) + Rest(es, dropCheck), op);
            && (forall id :: id in w'.items && id in w.items ==> w'.items[id] == w.items[id])
            && (forall id :: id in w'.items && id !in w.items && w'.items[id].finished ==>
                  && w'.items[id].origin == origin
                  && d.Complete? && contribute(d.item.attrs) == Some(w'.items[id].attrs))
  {
    hide DraftObject, Header, Rest, ReadPlan, Sound, CompleteKey, Enact;
    var full := Header(p) + Rest(es, dropCheck);
    var q := ReadPlan(full, false, DEFAULT_PLAN).plan;
    CreateDraftLaw(ctx, caller, full, op);
    var d := DraftObject(ctx, caller, full, op);
    if d.Complete? {
      EnactNew(w, caller, d, q.onToken, q.isPrivate);
      CompleteShape(w, CreateObject(w, ctx, caller, full, op), d.item, origin, contribute);
    } else {
      EnactFails(w, caller, d, q.onToken, q.isPrivate);
      FailedShape(w, caller, d, q.onToken, q.isPrivate);
    }
  }

  lemma CompleteShape(w: World, made: Reply, it: Item, origin: Origin, contribute: Attrs -> Option<Attrs>)
    requires made.world.items == w.items[w.next := it] && Lookup(made.world, made.handle) == Some(w.next)
    requires Sound(w)
    ensures var w' := CompleteKey(made, origin, contribute).world;
            && (forall id :: id in w'.items && id in w.items ==> w'.items[id] == w.items[id])
            && (forall id :: id in w'.items && id !in w.items && w'.items[id].finished ==>
                  w'.items[id].origin == origin && contribute(it.attrs) == Some(w'.items[id].attrs))
  {
    hide SoundItem, SoundHandles;
  }

  lemma FailedShape(w: World, caller: Caller, d: Draft, onToken: bool, isPrivate: bool)
    requires SoundDraft(d, caller) && !d.Complete? && Sound(w)
    ensures var w' := Enact(w, caller, d, onToken, isPrivate).world;
            && (forall id :: id in w'.items && id in w.items ==> w'.items[id] == w.items[id])
            && (forall id :: id in w'.items && id !in w.items ==> !w'.items[id].finished)
  {
    hide SoundItem, SoundHandles;
  }

  /** What is proved of every step about check values. */
  ghost predicate TruthStep(token: Token, w: World, w': World) {
    forall id :: id in w'.items ==>
      if id in w.items then Truthful(token, w.items[id].attrs) ==> Truthful(token, w'.items[id].attrs)
      else w'.items[id].finished ==>
        match w'.items[id].origin
        case MadeBy(op) => op.Create? || op.Generate? ==> Truthful(token, w'.items[id].attrs)
        case CopyOf(s) => s in w.items && (Truthful(token, w.items[s].attrs) ==> Truthful(token, w'.items[id].attrs))
        case DerivedFrom(_, agreed) => !agreed ==> Truthful(token, w'.items[id].attrs)
  }

  lemma GenerateTruth(w: World, ctx: Context, caller: Caller, keyType: nat, es: Template, random: nat -> Bytes)
    requires Sound(w) && ctx.session == caller.state
    ensures TruthStep(ctx.token, w, GenerateKey(w, Clear(ctx), caller, keyType, es, random).world)
  {
    hide Sound, ReadPlan, SecretWish, MakeKey, ContributeGenerated, Truthful, DraftObject, Header, Rest, StoredClass;
    var p := ReadPlan(es, true, DEFAULT_PLAN.(objClass := CKO_SECRET_KEY, keyType := keyType)).plan;
    if Generates(keyType) && p.objClass == CKO_SECRET_KEY && p.keyType == keyType && HaveWrite(caller.state, p.onToken, p.isPrivate) == OK {
      if p.isPrivate { PrivateNeedsLogin(caller.state, p.onToken, p.isPrivate); }
      var wish, mechanism := SecretWish(keyType, es), MechanismFor(keyType);
      var f := ContributeGenerated(Clear(ctx), p.isPrivate, mechanism, keyType, random(wish.len), wish.checkValue);
      var full := Header(p) + Rest(es, true);
      AssembledPlan(p, es, true);
      MakeKeyShape(w, Clear(ctx), caller, p, es, true, Generate, MadeBy(Generate), f);
      AssembledWithoutCheck(p, es);
      DraftWithoutCheck(Clear(ctx), caller, full, keyType, Generate);
      CreateDraftLaw(Clear(ctx), caller, full, Generate);
      var d := DraftObject(Clear(ctx), caller, full, Generate);
      if d.Complete? {
        KeyTypeOfClass(d.item.attrs, keyType);
        GeneratedTruthful(ctx, p.isPrivate, mechanism, keyType, random(wish.len), wish.checkValue, d.item.attrs);
      }
    }
  }

  lemma KeyTypeOfClass(o: Attrs, k: nat)
    requires Healthy(o) && StoredClass(o) == Some(SecretKey(k))
    ensures KeyType(o) == k
  {
    KeyTypeDeclared(SecretKey(k));
    assert CKA_KEY_TYPE in o && KindOf(CKA_KEY_TYPE).Admits(o[CKA_KEY_TYPE]);
  }

  // ----- runs ---------------------------------------------------------------------------------------------

  lemma EnactTruth(token: Token, w: World, caller: Caller, d: Draft, onToken: bool, isPrivate: bool)
    requires Sound(w)
    requires d.HalfMade? ==> !d.item.finished
    requires d.Complete? ==>
               match d.item.origin
               case MadeBy(op) => Truthful(token, d.item.attrs)
               case CopyOf(s) => s in w.items && (Truthful(token, w.items[s].attrs) ==> Truthful(token, d.item.attrs))
               case DerivedFrom(_, _) => false
    ensures TruthStep(token, w, Enact(w, caller, d, onToken, isPrivate).world)
  {
    hide SoundItem, SoundHandles, Truthful;
  }

  lemma CreateTruth(w: World, ctx: Context, caller: Caller, es: Template)
    requires Sound(w)
    ensures TruthStep(ctx.token, w, CreateObject(w, Clear(ctx), caller, es, Create).world)
  {
    hide Sound, TruthStep, DraftObject, Enact, ReadPlan, Truthful, Healthy, StoredClass, ClassOf;
    var p := ReadPlan(es, false, DEFAULT_PLAN).plan;
    CreateDraftLaw(Clear(ctx), caller, es, Create);
    CreatedTruthful(ctx, caller, es);
    EnactTruth(ctx.token, w, caller, DraftObject(Clear(ctx), caller, es, Create), p.onToken, p.isPrivate);
  }

  lemma CopyTruth(w: World, ctx: Context, caller: Caller, h: Handle, es: Template)
    requires Sound(w)
    ensures TruthStep(ctx.token, w, CopyObject(w, Clear(ctx), caller, h, es).world)
  {
    hide TruthStep, DraftCopy, Enact, Truthful, Healthy, StoredClass, LastFlag, SoundHandles;
    NoChangeTruth(ctx.token, w);
    var id := Lookup(w, h);
    if id.Some? {
      var o := w.items[id.value].attrs;
      var d := DraftCopy(Clear(ctx), caller, id.value, o, es);
      CopyDraftLaw(Clear(ctx), caller, id.value, o, es);
      if d.Complete? && Truthful(ctx.token, o) { CopiedTruthful(ctx, caller, id.value, o, es); }
      EnactTruth(ctx.token, w, caller, d, LastFlag(es, CKA_TOKEN, IsOnToken(o)), LastFlag(es, CKA_PRIVATE, IsPrivate(o)));
    }
  }

  lemma NoChangeTruth(token: Token, w: World)
    ensures TruthStep(token, w, w)
  {
  }

  lemma SetTruth(w: World, ctx: Context, caller: Caller, h: Handle, es: Template)
    requires Sound(w)
    ensures TruthStep(ctx.token, w, SetAttributeValue(w, Clear(ctx), caller, h, es).world)
  {
    hide Truthful, Healthy, StoredClass, SoundHandles, SaveTemplate, Initialised, SchemaOf, Placed;
    var id := Lookup(w, h);
    if id.Some? && StoredClass(w.items[id.value].attrs).Some? {
      var it := w.items[id.value];
      var k := StoredClass(it.attrs).value;
      Reinitialised(k, it.attrs);
      if Truthful(ctx.token, it.attrs) { SetTruthful(ctx, k, IsPrivate(it.attrs), it.attrs, es, it.place.OnToken?); }
    }
  }

  lemma RemovalTruth(token: Token, w: World, w': World)
    requires forall id :: id in w'.items ==> id in w.items && w'.items[id] == w.items[id]
    ensures TruthStep(token, w, w')
  {
    hide Truthful;
  }

  lemma UnwrapTruth(w: World, ctx: Context, caller: Caller, es: Template, parts: Option<KeyParts>)
    requires Sound(w)
    ensures TruthStep(ctx.token, w, UnwrapKey(w, Clear(ctx), caller, es, parts).world)
  {
    hide Sound, Truthful, MakeKey, ReadPlan, DraftObject, ContributeUnwrapped, Header, Rest;
    var p := ReadPlan(es, false, DEFAULT_PLAN).plan;
    MakeKeyShape(w, Clear(ctx), caller, p, es, false, Unwrap, MadeBy(Unwrap), ContributeUnwrapped(Clear(ctx), p.isPrivate, parts));
  }

  lemma DeriveTruth(w: World, ctx: Context, caller: Caller, h: Handle, d: Derivation, es: Template, parity: byte -> byte)
    requires Sound(w) && ctx.session == caller.state
    ensures TruthStep(ctx.token, w, DeriveKey(w, Clear(ctx), caller, h, d, es, parity).world)
  {
    hide Sound, Truthful, DeriveFrom, ReadPlan, TruthStep;
    NoChangeTruth(ctx.token, w);
    var default := if d.Implicit() then DEFAULT_PLAN.(objClass := CKO_SECRET_KEY, keyType := CKK_GENERIC_SECRET) else DEFAULT_PLAN;
    var p := ReadPlan(es, d.Implicit(), default).plan;
    if p.objClass == CKO_SECRET_KEY && HasCheckValue(p.keyType) && HaveWrite(caller.state, p.onToken, p.isPrivate) == OK {
      PlanWords(es, d.Implicit(), default);
      if p.isPrivate { PrivateNeedsLogin(caller.state, p.onToken, p.isPrivate); }
      forall id, other | id in w.items && other in w.items
        ensures TruthStep(ctx.token, w, DeriveFrom(w, Clear(ctx), caller, p, d, es, parity, id, other).world)
      {
        DeriveFromTruth(w, ctx, caller, p, d, es, parity, id, other);
      }
    }
  }

  /** A derivation accepts no template that gives the value itself. */
  lemma {:induction false} NoValueGiven(es: Template)
    requires ReadWish(es, true).rv == OK
    ensures forall e :: e in es ==> e.t != CKA_VALUE
  {
    if |es| > 0 { NoValueGiven(es[..|es| - 1]); }
  }

  lemma {:induction false} RestIsPart(es: Template, dropCheck: bool)
    ensures forall e :: e in Rest(es, dropCheck) ==> e in es
  {
    if |es| > 0 { RestIsPart(es[..|es| - 1], dropCheck); }
  }

  lemma NoValueAssembled(p: Plan, es: Template)
    requires ReadWish(es, true).rv == OK
    ensures forall e :: e in Header(p) + Rest(es, true) ==> e.t != CKA_VALUE
  {
    hide Rest, ReadWish;
    NoValueGiven(es);
    RestIsPart(es, true);
  }

  /** A key cut from anything but an agreement gets the check value of the key itself. */
  lemma DerivedTruthful(ctx: Context, p: Plan, d: Derivation, base: Attrs, other: Attrs, raw: Bytes, len: nat, checkValue: bool,
                        parity: byte -> byte, o: Attrs)
    requires !d.Agreement? && Text(o, CKA_CHECK_VALUE) == [] && KeyType(o) == p.keyType && (p.isPrivate ==> ctx.session.LoggedIn())
    ensures var r := DerivedKey(Clear(ctx), p, d, base, other, raw, len, checkValue, parity, o); r.Some? ==> Truthful(ctx.token, r.value)
  {
    hide KcvOf, FixParity, Cut, DeriveClaims, StoreKey, Truthful;
    var o1 := DeriveClaims(d, base, other, o[CKA_LOCAL := BoolV(false)]);
    DerivedElsewhere(d, base, other, o);
    if len <= |raw| {
      var key := FixParity(parity, p.keyType, Cut(d, raw, len));
      SameKcv(ctx.token, p.keyType, key);
      var kcv := KcvOf(ctx.token, p.keyType, key);
      StoredKeyTruthful(ctx, p.isPrivate, o1, key, if checkValue then kcv else None);
    }
  }

  lemma DerivedElsewhere(d: Derivation, base: Attrs, other: Attrs, o: Attrs)
    ensures var o' := DeriveClaims(d, base, other, o[CKA_LOCAL := BoolV(false)]);
            KeyType(o') == KeyType(o) && Text(o', CKA_CHECK_VALUE) == Text(o, CKA_CHECK_VALUE)
  {
  }

  lemma DeriveFromTruth(w: World, ctx: Context, caller: Caller, p: Plan, d: Derivation, es: Template, parity: byte -> byte, id: Id, other: Id)
    requires Sound(w) && id in w.items && other in w.items && (p.isPrivate ==> ctx.session.LoggedIn())
    requires IsWord(p.objClass) && IsWord(p.keyType) && p.objClass == CKO_SECRET_KEY && HasCheckValue(p.keyType)
    ensures TruthStep(ctx.token, w, DeriveFrom(w, Clear(ctx), caller, p, d, es, parity, id, other).world)
  {
    hide Sound, Truthful, MakeKey, DraftObject, DerivedKey, Header, Rest, ReadPlan, DeriveFrom, ReadWish, NamesNoCheck, HasCheckValue, StoredClass, Healthy;
    NoChangeTruth(ctx.token, w);
    var raw, len, check := DeriveFromMakes(w, Clear(ctx), caller, p, d, es, parity, id, other);
    var base, second := w.items[id].attrs, w.items[other].attrs;
    var f := ContributeDerived(Clear(ctx), p, d, base, second, raw, len, check, parity);
    var full := Header(p) + Rest(es, true);
    MakeKeyShape(w, Clear(ctx), caller, p, es, true, Derive, DerivedFrom({id, other}, d.Agreement?), f);
    if ReadWish(es, true).rv == OK && !d.Agreement? {
      DerivedDraft(ctx, caller, p, es);
      var draft := DraftObject(Clear(ctx), caller, full, Derive);
      if draft.Complete? {
        DerivedTruthful(ctx, p, d, base, second, raw, len, check, parity, draft.item.attrs);
      }
    }
  }

  lemma DerivedDraft(ctx: Context, caller: Caller, p: Plan, es: Template)
    requires ReadWish(es, true).rv == OK
    requires IsWord(p.objClass) && IsWord(p.keyType) && p.objClass == CKO_SECRET_KEY && HasCheckValue(p.keyType)
    ensures var d := DraftObject(Clear(ctx), caller, Header(p) + Rest(es, true), Derive);
            d.Complete? ==> Text(d.item.attrs, CKA_CHECK_VALUE) == [] && KeyType(d.item.attrs) == p.keyType
  {
    hide DraftObject, Header, Rest, ReadPlan, ReadWish, StoredClass, Healthy, NamesNoCheck;
    var full := Header(p) + Rest(es, true);
    AssembledPlan(p, es, true);
    AssembledWithoutCheck(p, es);
    NoValueAssembled(p, es);
    DraftWithoutCheck(Clear(ctx), caller, full, p.keyType, Derive);
    CreateDraftLaw(Clear(ctx), caller, full, Derive);
    var d := DraftObject(Clear(ctx), caller, full, Derive);
    if d.Complete? { KeyTypeOfClass(d.item.attrs, p.keyType); }
  }

  lemma StepTruth(token: Token, w: World, s: Step)
    requires Sound(w)
    ensures TruthStep(token, w, Perform(ClearToken(token), w, s).world)
  {
    hide Sound, TruthStep, ClearToken;
    var ctx := Context(token, s.caller.state);
    assert Clear(ctx) == Context(ClearToken(token), s.caller.state);
    match s.call
    case CallCreate(es) => CreateTruth(w, ctx, s.caller, es);
    case CallCopy(h, es) => CopyTruth(w, ctx, s.caller, h, es);
    case CallSet(h, es) => SetTruth(w, ctx, s.caller, h, es);
    case CallDestroy(h) => RemovalTruth(token, w, DestroyObject(w, s.caller, h).world);
    case CallGenerate(keyType, es, random) => GenerateTruth(w, ctx, s.caller, keyType, es, random);
    case CallUnwrap(es, parts) => UnwrapTruth(w, ctx, s.caller, es, parts);
    case CallDerive(h, d, es, parity) => DeriveTruth(w, ctx, s.caller, h, d, es, parity);
    case CallFind(hits) =>
      FoundHaveHandles(w, s.caller, hits);
      RemovalTruth(token, w, FindObjects(w, s.caller, hits).world);
    case CallLogout => RemovalTruth(token, w, Logout(w).world);
    case CallClose(session, last) => RemovalTruth(token, w, CloseSession(w, session, last).world);
  }

  /** The key was made by C_CreateObject or C_GenerateKey, or derived otherwise than by an agreement, or
      is a copy of one that was. */
  ghost predicate OwnKey(tr: seq<World>, id: Id)
    decreases id, 1
  {
    exists k: nat :: k < |tr| && id in tr[k].items && OwnAt(tr, k, id)
  }

  ghost predicate OwnAt(tr: seq<World>, k: nat, id: Id)
    requires k < |tr| && id in tr[k].items
    decreases id, 0
  {
    var it := tr[k].items[id];
    && it.finished
    && match it.origin
       case MadeBy(op) => op.Create? || op.Generate?
       case CopyOf(s) => s < id && OwnKey(tr, s)
       case DerivedFrom(_, agreed) => !agreed
  }

  lemma {:induction false} TruthOverClearRun(token: Token, steps: seq<Step>, j: nat, id: Id)
    requires j <= |steps|
    requires var tr := Trace(ClearToken(token), steps); OwnKey(tr, id) && id in tr[j].items
    ensures Truthful(token, Trace(ClearToken(token), steps)[j].items[id].attrs)
    decreases id, j
  {
    hide Truthful, Perform, SoundItem, SoundHandles, Born, StoredClass, ClearToken;
    var tr := Trace(ClearToken(token), steps);
    TraceLaw(ClearToken(token), steps);
    var k: nat :| k < |tr| && id in tr[k].items && OwnAt(tr, k, id);
    SameOrigin(tr, k, j, id);
    OwnKeyFinished(ClearToken(token), steps, j, id);
    assert j > 0;
    TraceStep(ClearToken(token), steps, j - 1);
    StepTruth(token, tr[j - 1], steps[j - 1]);
    if id in tr[j - 1].items {
      TruthOverClearRun(token, steps, j - 1, id);
    } else {
      var it := tr[j].items[id];
      if it.origin.CopyOf? {
        assert it.origin.source in tr[j - 1].items;
        TruthOverClearRun(token, steps, j - 1, it.origin.source);
      }
    }
  }

  lemma {:induction false} OwnKeyTwin(token: Token, steps: seq<Step>, id: Id)
    requires token.Lawful() && CleanRun(token, steps) && OwnKey(Trace(token, steps), id)
    ensures OwnKey(Trace(ClearToken(token), steps), id)
    decreases id
  {
    hide Hides, Perform, CleanRun, ClearToken, Token.Lawful;
    var tr, tc := Trace(token, steps), Trace(ClearToken(token), steps);
    var k: nat :| k < |tr| && id in tr[k].items && OwnAt(tr, k, id);
    TransparentRun(token, steps, k);
    assert TwinItem(token, tr[k].items[id], tc[k].items[id]);
    var it := tr[k].items[id];
    if it.origin.CopyOf? { OwnKeyTwin(token, steps, it.origin.source); }
    assert OwnAt(tc, k, id);
  }

  /** Over every run: the check value of a key that was created, generated or derived otherwise than by
      an agreement, or copied from one that was, is empty or the check value of the key's value, both as
      decrypted. */
  lemma CheckValuesAreTruthful(token: Token, steps: seq<Step>, j: nat, id: Id, ctx: Context)
    requires token.Lawful() && CleanRun(token, steps) && j <= |steps| && ctx.token == token
    requires OwnKey(Trace(token, steps), id) && id in Trace(token, steps)[j].items
    requires IsPrivate(Trace(token, steps)[j].items[id].attrs) ==> ctx.session.LoggedIn()
    ensures var o := Trace(token, steps)[j].items[id].attrs;
            var check := Decoded(ctx, IsPrivate(o), BytesV(Text(o, CKA_CHECK_VALUE)));
            var value := Decoded(ctx, IsPrivate(o), BytesV(Text(o, CKA_VALUE)));
            && check.Some? && check.value.BytesV? && value.Some? && value.value.BytesV?
            && (Class(o) == CKO_SECRET_KEY && KcvOf(token, KeyType(o), value.value.s).Some? ==>
                  check.value.s == [] || KcvOf(token, KeyType(o), value.value.s) == Some(check.value.s))
  {
    hide Perform, CleanRun, ClearToken, KcvOf, StoredClass, OwnKey;
    OwnKeyTwin(token, steps, id);
    TransparentRun(token, steps, j);
    var it, ci := Trace(token, steps)[j].items[id], Trace(ClearToken(token), steps)[j].items[id];
    OwnKeyFinished(token, steps, j, id);
    assert TwinItem(token, it, ci);
    TruthOverClearRun(token, steps, j, id);
    TextHides(ctx, it.attrs, ci.attrs, CKA_CHECK_VALUE);
    TextHides(ctx, it.attrs, ci.attrs, CKA_VALUE);
    SameReadings(token, IsPrivate(it.attrs), it.attrs, ci.attrs);
    KcvKnown(token, KeyType(it.attrs), Text(ci.attrs, CKA_VALUE), Text(ci.attrs, CKA_VALUE));
  }

  lemma OwnKeyFinished(token: Token, steps: seq<Step>, j: nat, id: Id)
    requires j <= |steps| && OwnKey(Trace(token, steps), id) && id in Trace(token, steps)[j].items
    ensures Trace(token, steps)[j].items[id].finished
  {
    hide Perform, SoundItem, SoundHandles, Born, StoredClass;
    var tr := Trace(token, steps);
    TraceLaw(token, steps);
    var k: nat :| k < |tr| && id in tr[k].items && OwnAt(tr, k, id);
    assert id < tr[k].next && id < tr[j].next;
    if k <= j { Between(tr, k, j, id); } else { Between(tr, j, k, id); }
  }

  lemma TextHides(ctx: Context, o: Attrs, c: Attrs, a: AttrType)
    requires ctx.token.Lawful() && Hides(ctx.token, IsPrivate(o), o, c) && !IsDate(a)
    requires IsPrivate(o) ==> ctx.session.LoggedIn()
    ensures Decoded(ctx, IsPrivate(o), BytesV(Text(o, a))) == Some(BytesV(Text(c, a)))
  {
    if a in o && o[a].BytesV? { HidesDecodes(ctx, IsPrivate(o), a, o[a], c[a]); }
  }

  // ----- agreed keys ----------------------------------------------------------------------------------------

  /** The check value, as read, is empty or belongs to the value, as read. */
  predicate ReadsTruthful(ctx: Context, isPrivate: bool, o: Attrs) {
    var check, value := Decoded(ctx, isPrivate, BytesV(Text(o, CKA_CHECK_VALUE))), Decoded(ctx, isPrivate, BytesV(Text(o, CKA_VALUE)));
    && check.Some? && check.value.BytesV? && value.Some? && value.value.BytesV?
    && (check.value.s == [] || KcvOf(ctx.token, KeyType(o), value.value.s) == Some(check.value.s))
  }

  predicate HasCheckValue(keyType: nat) { IsGenericKeyType(keyType) || keyType == CKK_AES || IsDesKeyType(keyType) }

  /** The whole secret becomes the key, unchanged. */
  predicate TakenWhole(parity: byte -> byte, keyType: nat, secret: Bytes, len: nat) {
    len == |secret| && (IsDesKeyType(keyType) ==> forall i :: 0 <= i < |secret| ==> parity(secret[i]) == secret[i])
  }

  function AgreedKey(ctx: Context, p: Plan, secret: Bytes, len: nat, base: Attrs, parity: byte -> byte, o: Attrs): Option<Attrs> {
    DerivedKey(ctx, p, Agreement(secret), base, base, secret, len, true, parity, o)
  }

  lemma KeyTakenWhole(parity: byte -> byte, keyType: nat, secret: Bytes, len: nat)
    requires len <= |secret|
    ensures FixParity(parity, keyType, Cut(Agreement(secret), secret, len)) == secret <==> TakenWhole(parity, keyType, secret, len)
  {
    var cut := Cut(Agreement(secret), secret, len);
    var key := FixParity(parity, keyType, cut);
    assert |key| == len;
    if len == |secret| {
      assert cut == secret;
      if IsDesKeyType(keyType) { assert forall i :: 0 <= i < len ==> key[i] == parity(secret[i]); }
    }
  }

  /** What is stored for an agreed key: the cut key, but the check value of the whole secret. */
  lemma AgreedReads(ctx: Context, p: Plan, secret: Bytes, len: nat, base: Attrs, parity: byte -> byte, o: Attrs)
    requires len <= |secret| && HasCheckValue(p.keyType) && (p.isPrivate ==> ctx.session.LoggedIn()) && ctx.token.Lawful()
    ensures var r := AgreedKey(ctx, p, secret, len, base, parity, o);
            && r.Some? && KcvOf(ctx.token, p.keyType, secret).Some? && KeyType(r.value) == KeyType(o)
            && Decoded(ctx, p.isPrivate, BytesV(Text(r.value, CKA_CHECK_VALUE))) == Some(BytesV(KcvOf(ctx.token, p.keyType, secret).value))
            && Decoded(ctx, p.isPrivate, BytesV(Text(r.value, CKA_VALUE)))
                 == Some(BytesV(FixParity(parity, p.keyType, Cut(Agreement(secret), secret, len))))
  {
    hide FixParity, Cut;
    var key := FixParity(parity, p.keyType, Cut(Agreement(secret), secret, len));
    var kcv := KcvOf(ctx.token, p.keyType, secret);
    assert kcv.Some?;
    hide KcvOf;
    var r := AgreedKey(ctx, p, secret, len, base, parity, o).value;
    assert r[CKA_VALUE] == Store(ctx, p.isPrivate, key) && r[CKA_CHECK_VALUE] == Store(ctx, p.isPrivate, kcv.value);
    StoredDecodes(ctx, p.isPrivate, key);
    StoredDecodes(ctx, p.isPrivate, kcv.value);
  }

  lemma StoredDecodes(ctx: Context, isPrivate: bool, x: Bytes)
    requires ctx.token.Lawful() && (isPrivate ==> ctx.session.LoggedIn())
    ensures Store(ctx, isPrivate, x).BytesV? && Decoded(ctx, isPrivate, Store(ctx, isPrivate, x)) == Some(BytesV(x))
  {
    assert ctx.token.plain(ctx.token.cipher(x)) == Some(x);
  }

  /** Whatever the cipher and the check-value function, a key agreed upon has a truthful check value
      exactly if the whole secret becomes the key: nothing is cut, and no parity bit changes. */
  lemma AgreedCheckValueExactly(p: Plan, state: SessionState, secret: Bytes, len: nat, base: Attrs, parity: byte -> byte, o: Attrs)
    requires len <= |secret| && HasCheckValue(p.keyType) && KeyType(o) == p.keyType && (p.isPrivate ==> state.LoggedIn())
    ensures (forall token: Token :: token.Lawful() ==>
               var r := AgreedKey(Context(token, state), p, secret, len, base, parity, o);
               r.Some? && ReadsTruthful(Context(token, state), p.isPrivate, r.value))
       <==> TakenWhole(parity, p.keyType, secret, len)
  {
    hide AgreedKey, TakenWhole, FixParity, Cut, HasCheckValue;
    KeyTakenWhole(parity, p.keyType, secret, len);
    var key := FixParity(parity, p.keyType, Cut(Agreement(secret), secret, len));
    assert |key| == len by { CutLength(parity, p.keyType, secret, len); }
    if key == secret {
      forall token: Token | token.Lawful()
        ensures var r := AgreedKey(Context(token, state), p, secret, len, base, parity, o);
                r.Some? && ReadsTruthful(Context(token, state), p.isPrivate, r.value)
      {
        hide Token.Lawful, KcvOf;
        AgreedReads(Context(token, state), p, secret, len, base, parity, o);
      }
    } else {
      var token := MarkingToken(0);
      MarkingIsLawful(0);
      AgreedReads(Context(token, state), p, secret, len, base, parity, o);
      assert KcvOf(token, p.keyType, secret) == Some(secret) && KcvOf(token, p.keyType, key) == Some(key);
      hide KcvOf, Token.Lawful, MarkingToken;
      assert secret != [];
    }
  }

  lemma CutLength(parity: byte -> byte, keyType: nat, secret: Bytes, len: nat)
    requires len <= |secret|
    ensures |FixParity(parity, keyType, Cut(Agreement(secret), secret, len))| == len
  {
  }

  /** Two bytes agreed upon, one taken: the check value stays that of the two. */
  lemma AgreedCheckValueWrong(state: SessionState, base: Attrs, o: Attrs)
    requires state.LoggedIn() && KeyType(o) == CKK_GENERIC_SECRET
    ensures var ctx := Context(MarkingToken(0), state);
            var r := AgreedKey(ctx, Plan(CKO_SECRET_KEY, CKK_GENERIC_SECRET, CKC_X_509, false, true), [1, 2], 1, base, b => b, o);
            && ctx.token.Lawful() && r.Some? && !ReadsTruthful(ctx, true, r.value)
            && Decoded(ctx, true, BytesV(Text(r.value, CKA_VALUE))) == Some(BytesV([2]))
            && Decoded(ctx, true, BytesV(Text(r.value, CKA_CHECK_VALUE))) == Some(BytesV([1, 2]))
  {
    hide AgreedKey;
    MarkingIsLawful(0);
    AgreedReads(Context(MarkingToken(0), state), Plan(CKO_SECRET_KEY, CKK_GENERIC_SECRET, CKC_X_509, false, true), [1, 2], 1, base, b => b, o);
    hide Token.Lawful;
  }
}
