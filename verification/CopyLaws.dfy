/** Copying an object preserves its meaning: the copy is the original, overwritten by the template. */
module CopyLaws {
  import opened Cryptoki
  import opened Attributes
  import opened ObjectClasses
  import opened AttributeLaws
  import opened Templates
  import opened Transparency
  import opened ObjectStore
  import opened ObjectLaws
  import opened Runs
  import opened TransparentRuns
  import opened Concatenation

  // ----- which attributes a copy may name ------------------------------------------------------

  predicate IsCopyKind(k: Kind) {
    k.FlagKind? || k.SensitiveKind? || k.ExtractableKind? || k.WrapTrustedKind? || k.TextKind? || k.DateKind? || k.CheckValueKind?
  }

  /** The footnotes that classes add permit changing these attributes only. */
  predicate ExtraChecks(ds: seq<Decl>) {
    forall i :: 0 <= i < |ds| ==>
      && Ck11 !in ds[i].extra && Ck17 !in ds[i].extra
      && (Ck8 in ds[i].extra ==> ds[i].t in {CKA_START_DATE, CKA_END_DATE, CKA_SUBJECT, CKA_CHECK_VALUE, CKA_PUBLIC_KEY_INFO, CKA_GOST28147_PARAMS})
  }

  lemma CommonExtras()
    ensures ExtraChecks(ANY_OBJECT) && ExtraChecks(ANY_KEY)
    ensures ExtraChecks(DATA_OBJECT) && ExtraChecks(CERTIFICATE) && ExtraChecks(OPENPGP_CERTIFICATE) && ExtraChecks(X509_CERTIFICATE)
  {
  }

  lemma PublicKeyExtras(k: nat)
    ensures ExtraChecks(PUBLIC_KEY) && ExtraChecks(PublicKeyPart(k)) && ExtraChecks(DomainPart(k))
  {
  }

  lemma PrivateKeyExtras(k: nat)
    ensures ExtraChecks(PRIVATE_KEY) && ExtraChecks(PrivateKeyPart(k))
  {
  }

  lemma SecretKeyExtras(k: nat)
    ensures ExtraChecks(SECRET_KEY) && ExtraChecks(SecretKeyPart(k))
  {
  }

  lemma TableExtras(c: ClassId)
    ensures ExtraChecks(Table(c))
  {
    CommonExtras();
    match c
    case DataObject => {}
    case X509Certificate => {}
    case OpenPgpCertificate => {}
    case PublicKey(k) => PublicKeyExtras(k);
    case PrivateKey(k) => PrivateKeyExtras(k);
    case SecretKey(k) => SecretKeyExtras(k);
    case DomainParameters(k) => PublicKeyExtras(k);
  }

  lemma BaseCopyKinds(t: AttrType)
    ensures Ck8 in BaseChecks(t) || Ck11 in BaseChecks(t) || Ck17 in BaseChecks(t) ==> IsCopyKind(KindOf(t))
    ensures t in {CKA_START_DATE, CKA_END_DATE, CKA_SUBJECT, CKA_CHECK_VALUE, CKA_PUBLIC_KEY_INFO, CKA_GOST28147_PARAMS} ==> IsCopyKind(KindOf(t))
  {
  }

  /** Whatever C_CopyObject or C_SetAttributeValue may write is of a kind whose write is a plain
      assignment of the value given. */
  lemma CopyNamesCopyKinds(c: ClassId, t: AttrType, op: Op)
    requires op.Changing() && t in SchemaOf(c) && SchemaOf(c)[t].Writable(op)
    ensures IsCopyKind(KindOf(t)) && Declares(Table(c), t)
  {
    hide Table, KindOf, BaseChecks, BaseSize;
    SchemaSays(Table(c), t);
    TableExtras(c);
    BaseCopyKinds(t);
  }

  // ----- a write during a copy is an assignment ------------------------------------------------------

  /** The value an entry stands for. */
  function EntryValue(t: AttrType, p: Payload): Value {
    if KindOf(t).IsFlag() then BoolV(p.AsBool()) else BytesV(p.Data())
  }

  /** The entries assigned in order, the last one winning. */
  function Overwritten(c: Attrs, es: Template): Attrs
    decreases |es|
  {
    if |es| == 0 then c else Overwritten(c[es[0].t := EntryValue(es[0].t, es[0].p)], es[1..])
  }

  /** Claims that are written must be there already, and agree with the flags. */
  ghost predicate ClaimsSettled(c: Attrs) {
    && HistoryConsistent(c)
    && CKA_ALWAYS_SENSITIVE in c && c[CKA_ALWAYS_SENSITIVE].BoolV?
    && CKA_NEVER_EXTRACTABLE in c && c[CKA_NEVER_EXTRACTABLE].BoolV?
  }

  lemma SensitiveIsAssigned(c: Attrs, p: Payload, op: Op)
    requires op.Changing() && ClaimsSettled(c) && WriteSensitive(c, p, op).rv == OK
    ensures WriteSensitive(c, p, op).attrs == c[CKA_SENSITIVE := BoolV(p.AsBool())]
  {
    if !p.AsBool() {
      assert c[CKA_ALWAYS_SENSITIVE] == BoolV(false);
    }
  }

  lemma ExtractableIsAssigned(c: Attrs, p: Payload, op: Op)
    requires op.Changing() && ClaimsSettled(c) && WriteExtractable(c, p, op).rv == OK
    ensures WriteExtractable(c, p, op).attrs == c[CKA_EXTRACTABLE := BoolV(p.AsBool())]
  {
    if p.AsBool() {
      assert c[CKA_NEVER_EXTRACTABLE] == BoolV(false);
    }
  }

  /** In a library that stores everything in clear, a successful write during a copy or a change
      assigns the value given and does nothing else. */
  lemma CopyWriteIsAssignment(ctx: Context, spec: AttrSpec, t: AttrType, isPrivate: bool, c: Attrs, p: Payload, op: Op)
    requires op.Changing() && IsCopyKind(KindOf(t)) && t in c && (IsClaim(t) ==> ClaimsSettled(c))
    requires Update(Clear(ctx), spec, t, isPrivate, c, p, op).rv == OK
    ensures Update(Clear(ctx), spec, t, isPrivate, c, p, op).attrs == c[t := EntryValue(t, p)]
  {
    if t == CKA_SENSITIVE {
      SensitiveIsAssigned(c, p, op);
    } else if t == CKA_EXTRACTABLE {
      ExtractableIsAssigned(c, p, op);
    } else {
      hide ClaimsSettled;
      assert Sealed(Clear(ctx), isPrivate, p).Some? ==> Sealed(Clear(ctx), isPrivate, p).value == p.Data();
    }
  }

  lemma AssignmentKeepsSettled(c: Attrs, c': Attrs)
    requires ClaimsSettled(c) && HistoryConsistent(c') && c'.Keys == c.Keys && WellTyped(c')
    ensures ClaimsSettled(c')
  {
    hide KindOf;
    ClaimKinds();
  }

  lemma {:induction false} CopyOverwrites(job: Job, c: Attrs, es: Template, k: ClassId)
    requires job.op.Changing() && job.schema == SchemaOf(k) && WellTyped(c) && (MakesClaims(k) ==> ClaimsSettled(c))
    requires forall t :: Declares(Table(k), t) ==> t in c
    requires ApplyEntries(ClearJob(job), c, es).rv == OK
    ensures ApplyEntries(ClearJob(job), c, es).attrs == Overwritten(c, es)
    decreases |es|
  {
    hide KindOf, Table, Declares, SchemaOf, BaseChecks, BaseSize, Write, HistoryConsistent, ClaimsSettled;
    if |es| > 0 {
      var t, p := es[0].t, es[0].p;
      var c1 := UpdateEntry(ClearJob(job), c, es[0]).attrs;
      CopyNamesCopyKinds(k, t, job.op);
      if IsClaim(t) && !MakesClaims(k) { NoClaimsDeclared(k, t); }
      CopyWriteIsAssignment(job.ctx, job.schema[t], t, job.isPrivate, c, p, job.op);
      WriteKeepsTypes(Clear(job.ctx), t, job.isPrivate, c, p, job.op);
      if MakesClaims(k) {
        SettledConsistent(c);
        WriteKeepsHistory(Clear(job.ctx), t, job.isPrivate, c, p, job.op);
        AssignmentKeepsSettled(c, c1);
      }
      CopyOverwrites(job, c1, es[1..], k);
    }
  }

  lemma SettledConsistent(c: Attrs)
    requires ClaimsSettled(c)
    ensures HistoryConsistent(c)
  {
  }

  lemma HealthySettled(o: Attrs)
    requires HealthyKey(o) && HistoryConsistent(o)
    ensures ClaimsSettled(o)
  {
    hide KindOf, Table, Declares, StoredClass, HistoryConsistent;
    ClaimsPresent(o);
  }

  // ----- the copy ---------------------------------------------------------------------------------------

  /** Copying preserves meaning. Whatever the clear values of the original are (`c`), and whether or
      not the copy becomes private, the copy stores, in the form its own privacy demands, those
      values overwritten by the template: every attribute that is not named keeps its value, every
      named one has the value of its last entry. */
  lemma CopyPreservesMeaning(ctx: Context, caller: Caller, source: Id, o: Attrs, c: Attrs, es: Template)
    requires ctx.token.Lawful() && ctx.session == caller.state
    requires Healthy(o) && HistoryConsistent(o) && Hides(ctx.token, IsPrivate(o), o, c)
    requires DraftCopy(ctx, caller, source, o, es).Complete?
    ensures var copy := DraftCopy(ctx, caller, source, o, es).item.attrs;
            Hides(ctx.token, IsPrivate(copy), copy, Overwritten(c, es))
  {
    hide Hides, Healthy, StoredClass, DraftCopy, HistoryConsistent, Token.Lawful, Overwritten;
    CopyDraftLaw(ctx, caller, source, o, es);
    CopyDraftAlike(ctx, caller, source, o, c, es);
    HidesHealthy(ctx.token, IsPrivate(o), o, c);
    SameFlags(ctx.token, IsPrivate(o), o, c);
    HidesConsistent(ctx.token, IsPrivate(o), o, c);
    ClearCopy(ctx, caller, source, c, es);
  }

  lemma HidesConsistent(token: Token, isPrivate: bool, o: Attrs, c: Attrs)
    requires Hides(token, isPrivate, o, c)
    ensures HistoryConsistent(o) == HistoryConsistent(c)
  {
    SameFlag(token, isPrivate, o, c, CKA_SENSITIVE);
    SameFlag(token, isPrivate, o, c, CKA_EXTRACTABLE);
    SameFlag(token, isPrivate, o, c, CKA_ALWAYS_SENSITIVE);
    SameFlag(token, isPrivate, o, c, CKA_NEVER_EXTRACTABLE);
  }

  lemma ClearCopy(ctx: Context, caller: Caller, source: Id, c: Attrs, es: Template)
    requires Healthy(c) && HistoryConsistent(c)
    requires DraftCopy(Clear(ctx), caller, source, c, es).Complete?
    ensures DraftCopy(Clear(ctx), caller, source, c, es).item.attrs == Overwritten(c, es)
  {
    hide Table, Declares, Initialised, SchemaOf, KindOf, HistoryConsistent, LastFlag, StoredClass, WellTyped, ApplyEntries;
    var isPrivate := LastFlag(es, CKA_PRIVATE, IsPrivate(c));
    var upgrade := !IsPrivate(c) && isPrivate;
    ClearTranscript(ctx, upgrade, c);
    var k := StoredClass(c).value;
    var job := Job(ctx, SchemaOf(k), isPrivate, Copy);
    Reinitialised(k, c);
    if MakesClaims(k) { HealthySettled(c); }
    CopyOverwrites(job, c, es, k);
  }

  lemma ClearTranscript(ctx: Context, upgrade: bool, c: Attrs)
    requires Transcript(Clear(ctx), upgrade, c).Some?
    ensures Transcript(Clear(ctx), upgrade, c).value == c
  {
  }

  lemma {:induction false} OverwrittenAt(c: Attrs, es: Template, a: AttrType)
    ensures a in Overwritten(c, es) <==> a in c || Named(es, a)
    ensures !Named(es, a) ==> SameAt(c, Overwritten(c, es), a)
    ensures forall i :: 0 <= i < |es| && es[i].t == a && (forall j :: i < j < |es| ==> es[j].t != a) ==>
              a in Overwritten(c, es) && Overwritten(c, es)[a] == EntryValue(a, es[i].p)
    decreases |es|
  {
    hide EntryValue;
    if |es| > 0 {
      OverwrittenAt(c[es[0].t := EntryValue(es[0].t, es[0].p)], es[1..], a);
      assert Named(es, a) <==> es[0].t == a || Named(es[1..], a) by {
        if i :| 0 <= i < |es| && es[i].t == a && i > 0 { assert es[1..][i - 1] == es[i]; }
        if i :| 0 <= i < |es[1..]| && es[1..][i].t == a { assert es[i + 1].t == a; }
      }
      forall i | 0 <= i < |es| && es[i].t == a && (forall j :: i < j < |es| ==> es[j].t != a)
        ensures a in Overwritten(c, es) && Overwritten(c, es)[a] == EntryValue(a, es[i].p)
      {
        if i > 0 { assert es[1..][i - 1] == es[i]; }
      }
    }
  }

  /** The same, read through C_GetAttributeValue: an attribute that is neither named nor a date reads
      the same from the copy as from the original. */
  lemma UnnamedReadsTheSame(ctx: Context, caller: Caller, source: Id, o: Attrs, c: Attrs, es: Template, spec: AttrSpec, q: Request)
    requires ctx.token.Lawful() && ctx.session == caller.state
    requires Healthy(o) && HistoryConsistent(o) && Hides(ctx.token, IsPrivate(o), o, c)
    requires DraftCopy(ctx, caller, source, o, es).Complete?
    requires !Named(es, q.t) && !IsDate(q.t) && q.t in o
    ensures var copy := DraftCopy(ctx, caller, source, o, es).item.attrs;
            q.t in copy && Decoded(ctx, IsPrivate(copy), copy[q.t]) == Decoded(ctx, IsPrivate(o), o[q.t])
  {
    hide Healthy, StoredClass, DraftCopy, HistoryConsistent, Overwritten;
    var copy := DraftCopy(ctx, caller, source, o, es).item.attrs;
    CopyPreservesMeaning(ctx, caller, source, o, c, es);
    OverwrittenAt(c, es, q.t);
    CopyNeedsLogin(ctx, caller, source, o, es);
    HidesDecodes(ctx, IsPrivate(o), q.t, o[q.t], c[q.t]);
    HidesDecodes(ctx, IsPrivate(copy), q.t, copy[q.t], c[q.t]);
  }

  lemma HidesDecodes(ctx: Context, isPrivate: bool, a: AttrType, v: Value, w: Value)
    requires ctx.token.Lawful() && (isPrivate ==> ctx.session.LoggedIn()) && !IsDate(a)
    requires HidesAt(ctx.token, isPrivate, a, v, w)
    ensures Decoded(ctx, isPrivate, v) == Some(w)
  {
    if v.BytesV? && isPrivate { HiddenDecodes(ctx.token, v.s, w.s); }
  }

  lemma CopyNeedsLogin(ctx: Context, caller: Caller, source: Id, o: Attrs, es: Template)
    requires ctx.session == caller.state && Healthy(o) && DraftCopy(ctx, caller, source, o, es).Complete?
    ensures IsPrivate(o) || IsPrivate(DraftCopy(ctx, caller, source, o, es).item.attrs) ==> ctx.session.LoggedIn()
  {
    hide Healthy;
    CopyDraftLaw(ctx, caller, source, o, es);
  }

  /** In every reachable state there are clear values behind every object, the ones the unencrypted
      library would hold, and every copy of it preserves them. */
  lemma CopiesOverRuns(token: Token, steps: seq<Step>, i: nat, id: Id, caller: Caller, es: Template)
    requires token.Lawful() && CleanRun(token, steps) && CheckedRun(token, steps) && i <= |steps|
    requires id in Trace(token, steps)[i].items
    requires DraftCopy(Context(token, caller.state), caller, id, Trace(token, steps)[i].items[id].attrs, es).Complete?
    ensures var o := Trace(token, steps)[i].items[id].attrs;
            var copy := DraftCopy(Context(token, caller.state), caller, id, o, es).item.attrs;
            && id in Trace(ClearToken(token), steps)[i].items
            && var c := Trace(ClearToken(token), steps)[i].items[id].attrs;
               Hides(token, IsPrivate(o), o, c) && Hides(token, IsPrivate(copy), copy, Overwritten(c, es))
  {
    hide Hides, Healthy, DraftCopy, HistoryConsistent, Overwritten, CleanRun, CheckedRun, Token.Lawful, SoundHandles;
    TransparentRun(token, steps, i);
    TraceLaw(token, steps);
    CheckedTrace(token, steps);
    var o, c := Trace(token, steps)[i].items[id].attrs, Trace(ClearToken(token), steps)[i].items[id].attrs;
    assert SoundItem(Trace(token, steps)[i].items[id], id);
    CopyPreservesMeaning(Context(token, caller.state), caller, id, o, c, es);
  }
}
