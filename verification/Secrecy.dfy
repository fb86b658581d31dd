/** Reading a key: which attributes are refused, to whom, and for how long. Everything is stated on the answers
    of C_GetAttributeValue and on stored flags, not on footnotes. */
module Secrecy {
  import opened Cryptoki
  import opened Attributes
  import opened ObjectClasses
  import opened Templates
  import opened ObjectStore
  import opened ObjectLaws
  import opened Runs
  import opened Effects

  // ----- the attributes that hold the secret of a key -----------------------------------------------------

  predicate IsSecretPart(t: AttrType) {
    || t == CKA_VALUE || t == CKA_PRIVATE_EXPONENT || t == CKA_PRIME_1 || t == CKA_PRIME_2
    || t == CKA_EXPONENT_1 || t == CKA_EXPONENT_2 || t == CKA_COEFFICIENT || t == CKA_SEED
  }

  predicate Says(o: Attrs, t: AttrType, b: bool) { t in o && o[t] == BoolV(b) }

  /** The key is sensitive, or may not be extracted. */
  predicate Guarded(o: Attrs) { Says(o, CKA_SENSITIVE, true) || Says(o, CKA_EXTRACTABLE, false) }

  /** The footnote that hides an attribute comes from the attribute itself, except for CKA_VALUE, where it is up
      to the class. */
  lemma BaseSecrets(t: AttrType)
    ensures Ck7 in BaseChecks(t) <==> IsSecretPart(t) && t != CKA_VALUE
  {
  }

  /** The class hides the value and nothing else. */
  predicate HidesValue(ds: seq<Decl>) { forall i :: 0 <= i < |ds| ==> (Ck7 in ds[i].extra <==> ds[i].t == CKA_VALUE) }

  predicate HidesNothing(ds: seq<Decl>) { forall i :: 0 <= i < |ds| ==> Ck7 !in ds[i].extra && !(IsSecretPart(ds[i].t) && ds[i].t != CKA_VALUE) }

  lemma CommonSecrets()
    ensures HidesValue(ANY_OBJECT) && HidesNothing(ANY_OBJECT) && HidesValue(ANY_KEY) && HidesNothing(ANY_KEY)
  {
  }

  lemma PublicSecrets(k: nat)
    ensures HidesNothing(PUBLIC_KEY) && HidesNothing(PublicKeyPart(k)) && HidesNothing(DomainPart(k))
  {
  }

  lemma OtherSecrets()
    ensures HidesNothing(DATA_OBJECT) && HidesNothing(CERTIFICATE) && HidesNothing(OPENPGP_CERTIFICATE) && HidesNothing(X509_CERTIFICATE)
  {
  }

  lemma PrivateSecrets(k: nat)
    ensures HidesValue(PRIVATE_KEY) && HidesValue(PrivateKeyPart(k))
  {
  }

  lemma SecretSecrets(k: nat)
    ensures HidesValue(SECRET_KEY) && HidesValue(SecretKeyPart(k))
  {
  }

  lemma TableSecrets(c: ClassId)
    ensures if c.PrivateKey? || c.SecretKey? then HidesValue(Table(c)) else HidesNothing(Table(c))
  {
    hide IsSecretPart, ANY_OBJECT, ANY_KEY, PUBLIC_KEY, PublicKeyPart, DomainPart, PRIVATE_KEY, PrivateKeyPart, SECRET_KEY, SecretKeyPart;
    CommonSecrets();
    match c
    case DataObject => OtherSecrets();
    case X509Certificate => OtherSecrets();
    case OpenPgpCertificate => OtherSecrets();
    case PublicKey(k) => PublicSecrets(k);
    case PrivateKey(k) => PrivateSecrets(k);
    case SecretKey(k) => SecretSecrets(k);
    case DomainParameters(k) => PublicSecrets(k);
  }

  lemma SecretSpecs(c: ClassId, t: AttrType)
    requires t in SchemaOf(c)
    ensures Ck7 in SchemaOf(c)[t].checks <==> (c.PrivateKey? || c.SecretKey?) && IsSecretPart(t)
  {
    hide Table, BaseChecks;
    TableSecrets(c);
    BaseSecrets(t);
    SchemaSays(Table(c), t);
  }

  // ----- one answer ---------------------------------------------------------------------------------------

  /** An attribute of a class is answered as sensitive exactly if it holds the secret of a private or secret
      key and the key is guarded; then nothing is delivered, not even a length. */
  lemma RefusedExactly(ctx: Context, c: ClassId, isPrivate: bool, o: Attrs, q: Request)
    requires q.t in SchemaOf(c)
    ensures var a := AnswerTo(ctx, SchemaOf(c), isPrivate, o, q);
            && (a.rv == ATTRIBUTE_SENSITIVE <==> (c.PrivateKey? || c.SecretKey?) && IsSecretPart(q.t) && Guarded(o))
            && (a.rv == ATTRIBUTE_SENSITIVE ==> a == Answer(ATTRIBUTE_SENSITIVE, None, None, Nothing))
  {
    hide SchemaOf, IsSecretPart;
    SecretSpecs(c, q.t);
  }

  /** What is delivered is what is stored, decrypted if the object is private, and it fits the room offered. */
  lemma DeliveredIsStored(ctx: Context, schema: Schema, isPrivate: bool, o: Attrs, q: Request)
    ensures var a := AnswerTo(ctx, schema, isPrivate, o, q);
            && (a.delivered.Some? ==>
                  && a.rv == OK && q.t in schema && q.t in o
                  && q.room.Some? && a.len.Some? && a.len.value <= q.room.value && a.len.value == SizeOf(a.delivered.value)
                  && (if isPrivate && o[q.t].BytesV? && o[q.t].s != [] then
                        ctx.session.LoggedIn() && a.delivered.value.BytesV? && ctx.token.plain(o[q.t].s) == Some(a.delivered.value.s)
                      else a.delivered.value == o[q.t]))
            && (a.written != Nothing ==> q.t in o && o[q.t].MapV? && q.room.Some?)
  {
  }

  // ----- the return code of the whole call -----------------------------------------------------------------

  /** How bad an answer is. */
  function Gravity(rv: Rv): nat {
    if rv == GENERAL_ERROR then 4 else if rv == ATTRIBUTE_SENSITIVE then 3 else if rv == ATTRIBUTE_TYPE_INVALID then 2
    else if rv == BUFFER_TOO_SMALL then 1 else 0
  }

  lemma AnswerCodes(ctx: Context, schema: Schema, isPrivate: bool, o: Attrs, q: Request)
    ensures IsAnswerCode(AnswerTo(ctx, schema, isPrivate, o, q).rv)
  {
  }

  /** The call succeeds exactly if every request does; otherwise it returns the gravest of their codes. */
  lemma VerdictIsGravest(ctx: Context, schema: Schema, o: Attrs, qs: seq<Request>)
    ensures var answers := Answers(ctx, schema, o, qs);
            var rv := Verdict(answers);
            && (rv == OK <==> forall i :: 0 <= i < |qs| ==> answers[i].rv == OK)
            && (rv != OK ==> exists i :: 0 <= i < |qs| && answers[i].rv == rv)
            && (forall i :: 0 <= i < |qs| ==> Gravity(answers[i].rv) <= Gravity(rv))
  {
    hide AnswerTo, SelfPrivate;
    forall i | 0 <= i < |qs| ensures IsAnswerCode(Answers(ctx, schema, o, qs)[i].rv) { AnswerCodes(ctx, schema, SelfPrivate(o), o, qs[i]); }
    GravestOf(Answers(ctx, schema, o, qs));
    hide Verdict, Gravity;
  }

  predicate IsAnswerCode(rv: Rv) { rv in {OK, GENERAL_ERROR, ATTRIBUTE_SENSITIVE, ATTRIBUTE_TYPE_INVALID, BUFFER_TOO_SMALL} }

  lemma GravestOf(answers: seq<Answer>)
    requires forall i :: 0 <= i < |answers| ==> IsAnswerCode(answers[i].rv)
    ensures var rv := Verdict(answers);
            && (rv == OK <==> forall i :: 0 <= i < |answers| ==> answers[i].rv == OK)
            && (rv != OK ==> exists i :: 0 <= i < |answers| && answers[i].rv == rv)
            && (forall i :: 0 <= i < |answers| ==> Gravity(answers[i].rv) <= Gravity(rv))
  {
    assert forall i :: 0 <= i < |answers| ==> answers[i] in answers;
  }

  // ----- over runs ------------------------------------------------------------------------------------------

  /** Both readings of the flag agree on objects that have it, as all in a library do; the class numbers 3
      and 4 are those of private and secret keys. */
  lemma StoredSays(it: Item, id: Id)
    requires SoundItem(it, id)
    ensures IsPrivate(it.attrs) == SelfPrivate(it.attrs) == Says(it.attrs, CKA_PRIVATE, true)
    ensures StoredClass(it.attrs).Some? && Initialised(StoredClass(it.attrs).value, it.attrs) == it.attrs
    ensures var c := StoredClass(it.attrs).value;
            CKA_CLASS in it.attrs && (c.PrivateKey? <==> it.attrs[CKA_CLASS] == NumberV(3)) && (c.SecretKey? <==> it.attrs[CKA_CLASS] == NumberV(4))
  {
    hide Table, Declares, Initialised, KindOf;
    var c := StoredClass(it.attrs).value;
    InitialisedAgain(c, it.attrs);
    EveryObjectHas(c);
    assert KindOf(CKA_PRIVATE).IsFlag() && KindOf(CKA_CLASS).IdentityKind? by { PrivacyKinds(); }
  }

  lemma PrivacyKinds()
    ensures KindOf(CKA_PRIVATE).IsFlag() && KindOf(CKA_CLASS).IdentityKind?
  {
  }

  /** In every reachable state, reading an object gets as far as its attributes exactly if it is public or the
      user is logged in. Then an attribute of its class is refused as sensitive exactly if the object is a
      guarded private or secret key and the attribute holds its secret. Nobody else gets anything. */
  lemma ReadingOverRuns(token: Token, steps: seq<Step>, j: nat, caller: Caller, h: Handle, qs: seq<Request>)
    requires j <= |steps|
    requires var w := Trace(token, steps)[j]; h in w.handles && w.handles[h].target in w.items
    ensures var w := Trace(token, steps)[j];
            var o := w.items[w.handles[h].target].attrs;
            var r := GetAttributeValue(w, Context(token, caller.state), caller, h, qs);
            && StoredClass(o).Some? && CKA_CLASS in o
            && (r.answers.Some? <==> (Says(o, CKA_PRIVATE, true) ==> UserIn(caller.state)))
            && (r.answers.None? ==> r.rv == GENERAL_ERROR)
            && (r.answers.Some? ==>
                  && |r.answers.value| == |qs| && (r.rv == OK <==> forall i :: 0 <= i < |qs| ==> r.answers.value[i].rv == OK)
                  && forall i :: 0 <= i < |qs| && qs[i].t in SchemaOf(StoredClass(o).value) ==>
                       (if (o[CKA_CLASS] == NumberV(3) || o[CKA_CLASS] == NumberV(4)) && IsSecretPart(qs[i].t) && Guarded(o)
                        then r.answers.value[i] == Answer(ATTRIBUTE_SENSITIVE, None, None, Nothing)
                        else r.answers.value[i].rv != ATTRIBUTE_SENSITIVE))
  {
    hide SoundItem, SchemaOf, StoredClass, AnswerTo, Verdict, Perform, Evolves, IsPrivate, IsOnToken, SelfPrivate, Says, Guarded, IsSecretPart, UserIn;
    TraceLaw(token, steps);
    var w := Trace(token, steps)[j];
    var it := w.items[w.handles[h].target];
    assert SoundItem(it, w.handles[h].target);
    StoredSays(it, w.handles[h].target);
    ReadMatrix(caller.state, IsOnToken(it.attrs), IsPrivate(it.attrs));
    hide HaveRead, Initialised;
    var c, ctx := StoredClass(it.attrs).value, Context(token, caller.state);
    VerdictIsGravest(ctx, SchemaOf(c), it.attrs, qs);
    forall i | 0 <= i < |qs| && qs[i].t in SchemaOf(c)
      ensures var a := AnswerTo(ctx, SchemaOf(c), SelfPrivate(it.attrs), it.attrs, qs[i]);
              if (c.PrivateKey? || c.SecretKey?) && IsSecretPart(qs[i].t) && Guarded(it.attrs)
              then a == Answer(ATTRIBUTE_SENSITIVE, None, None, Nothing) else a.rv != ATTRIBUTE_SENSITIVE
    {
      RefusedExactly(ctx, c, SelfPrivate(it.attrs), it.attrs, qs[i]);
    }
  }

  lemma GuardedIsProtected(o: Attrs)
    ensures Guarded(o) == Protected(o)
  {
  }

  lemma UnknownGetsNothing(ctx: Context, schema: Schema, isPrivate: bool, o: Attrs, q: Request)
    requires q.t !in schema
    ensures AnswerTo(ctx, schema, isPrivate, o, q) == Answer(ATTRIBUTE_TYPE_INVALID, None, None, Nothing)
  {
  }

  /** Once a private or secret key is guarded, no later reading of it, nor of any copy made since, by anyone,
      gets anything for an attribute that holds its secret. */
  lemma SecretsForever(token: Token, steps: seq<Step>, i: nat, src: Id, j: nat, h: Handle, caller: Caller, qs: seq<Request>, k: nat)
    requires i <= j <= |steps| && k < |qs| && IsSecretPart(qs[k].t)
    requires var tr := Trace(token, steps);
             && src in tr[i].items && CKA_CLASS in tr[i].items[src].attrs && tr[i].items[src].attrs[CKA_CLASS] in {NumberV(3), NumberV(4)}
             && Guarded(tr[i].items[src].attrs)
             && h in tr[j].handles && tr[j].handles[h].target in tr[j].items && CopiedSince(tr, i, tr[j].handles[h].target, src)
    ensures var r := GetAttributeValue(Trace(token, steps)[j], Context(token, caller.state), caller, h, qs);
            r.answers.Some? ==>
              && k < |r.answers.value| && r.answers.value[k].len == None
              && r.answers.value[k].delivered == None && r.answers.value[k].written == Nothing
  {
    hide SoundItem, SchemaOf, StoredClass, AnswerTo, Verdict, Perform, Evolves, IsSecretPart, Guarded, CopiedSince;
    TraceLaw(token, steps);
    var tr := Trace(token, steps);
    var w, id := tr[j], tr[j].handles[h].target;
    assert SoundItem(tr[i].items[src], src) && SoundItem(w.items[id], id);
    StoredSays(tr[i].items[src], src);
    StoredSays(w.items[id], id);
    GuardedIsProtected(tr[i].items[src].attrs);
    GuardedIsProtected(w.items[id].attrs);
    ProtectionIsForever(tr, i, src, j, id);
    ReadingOverRuns(token, steps, j, caller, h, qs);
    hide HaveRead, Initialised;
    var c := StoredClass(w.items[id].attrs).value;
    if qs[k].t !in SchemaOf(c) { UnknownGetsNothing(Context(token, caller.state), SchemaOf(c), SelfPrivate(w.items[id].attrs), w.items[id].attrs, qs[k]); }
  }
}
