/** Objects left behind by a creation that failed while its template was saved. They are stored as the
    template as a whole planned, but carry the flags that only its accepted beginning has set; this module
    says exactly when the two agree. */
module HalfMade {
  import opened Cryptoki
  import opened Attributes
  import opened ObjectClasses
  import opened AttributeLaws
  import opened Templates
  import opened Transparency
  import opened ObjectStore
  import opened ObjectLaws
  import opened Runs

  // ----- new objects -----------------------------------------------------------------------------------

  lemma DefaultsEmpty(a: AttrType)
    ensures DefaultOf(a).BytesV? ==> DefaultOf(a).s == []
    ensures IsDate(a) ==> DefaultOf(a).BytesV?
  {
  }

  /** A new object, all of whose byte strings are empty, is its own twin. */
  lemma NewHides(token: Token, isPrivate: bool, c: ClassId)
    ensures var o := Initialised(c, map[]); Hides(token, isPrivate, o, o)
  {
    hide Initialised, HidesAt;
    var o := Initialised(c, map[]);
    forall a | a in o ensures HidesAt(token, isPrivate, a, o[a], o[a]) { NewHidesAt(token, isPrivate, c, a); }
  }

  lemma NewHidesAt(token: Token, isPrivate: bool, c: ClassId, a: AttrType)
    requires a in Initialised(c, map[])
    ensures var v := Initialised(c, map[])[a]; HidesAt(token, isPrivate, a, v, v)
  {
    hide Table, Declares, FillDefaults, KindOf, DefaultOf, Initialised;
    InitialisedAt(c, map[], a);
    DefaultsEmpty(a);
  }

  // ----- what the accepted entries have written ------------------------------------------------------------

  /** Byte strings that are encrypted in private objects; dates are stored by code of their own. */
  predicate IsText(t: AttrType) { KindOf(t).IsBytes() && !IsDate(t) }

  /** The check value that a CKA_VALUE brings along. */
  function Stamped(token: Token, c: ClassId, op: Op, data: Bytes): Option<Bytes> {
    if c.X509Certificate? || c.OpenPgpCertificate? then Some(token.certificateCheck(data))
    else if c.SecretKey? && op.Create? then
      if c.keyType == CKK_GOST28147 then Some([]) else KcvOf(token, c.keyType, data)
    else None
  }

  /** What one entry gives to the attribute, if anything. */
  function GivenBy(token: Token, c: ClassId, op: Op, e: Entry, t: AttrType): Option<Bytes> {
    if e.t == t then Some(e.p.Data())
    else if e.t == CKA_VALUE && t == CKA_CHECK_VALUE then Stamped(token, c, op, e.p.Data())
    else None
  }

  /** What a list of entries gives to it: the last one to give anything counts. */
  function Given(token: Token, c: ClassId, op: Op, es: Template, t: AttrType): Option<Bytes> {
    if |es| == 0 then None
    else
      var last := GivenBy(token, c, op, es[|es| - 1], t);
      if last.Some? then last else Given(token, c, op, es[..|es| - 1], t)
  }

  /** The form in which the job stores bytes. */
  function Form(token: Token, isPrivate: bool, x: Bytes): Value { BytesV(if isPrivate then token.cipher(x) else x) }

  predicate OfClass(o: Attrs, c: ClassId) { Class(o) == ClassNumber(c) && (c.SecretKey? ==> KeyType(o) == c.keyType) }

  lemma StampGives(ctx: Context, isPrivate: bool, o: Attrs, c: ClassId, data: Bytes, op: Op)
    requires OfClass(o, c) && (isPrivate ==> ctx.session.LoggedIn())
    ensures var r, x := StampCheck(ctx, isPrivate, o, data, op), Stamped(ctx.token, c, op, data);
            && (r.rv == OK ==> r.attrs == if x.Some? then o[CKA_CHECK_VALUE := Form(ctx.token, isPrivate, x.value)] else o)
            && (c.SecretKey? && op.Create? && c.keyType != CKK_GOST28147 ==> (r.rv == OK <==> x.Some?))
            && (!(c.SecretKey? && op.Create? && c.keyType != CKK_GOST28147) ==> r.rv == OK)
  {
    hide KcvOf;
  }

  lemma LengthsElsewhere(o: Attrs, data: Bytes, op: Op)
    ensures var o' := RecordLengths(o, data, op);
            forall a :: a != CKA_VALUE_LEN && a != CKA_VALUE_BITS ==> SameAt(o, o', a)
  {
  }

  lemma ValueGives(ctx: Context, isPrivate: bool, o: Attrs, c: ClassId, p: Payload, op: Op)
    requires OfClass(o, c) && (isPrivate ==> ctx.session.LoggedIn()) && WriteValue(ctx, isPrivate, o, p, op).rv == OK
    ensures var o' := WriteValue(ctx, isPrivate, o, p, op).attrs;
            var x := Stamped(ctx.token, c, op, p.Data());
            && CKA_VALUE in o' && o'[CKA_VALUE] == Form(ctx.token, isPrivate, p.Data())
            && (if x.Some? then CKA_CHECK_VALUE in o' && o'[CKA_CHECK_VALUE] == Form(ctx.token, isPrivate, x.value) else SameAt(o, o', CKA_CHECK_VALUE))
  {
    hide StampCheck, RecordLengths, Stamped;
    var o1 := o[CKA_VALUE := Form(ctx.token, isPrivate, p.Data())];
    var o2 := RecordLengths(o1, p.Data(), op);
    LengthsElsewhere(o1, p.Data(), op);
    assert SameAt(o1, o2, CKA_CLASS) && SameAt(o1, o2, CKA_KEY_TYPE) && SameAt(o1, o2, CKA_VALUE) && SameAt(o1, o2, CKA_CHECK_VALUE);
    StampGives(ctx, isPrivate, o2, c, p.Data(), op);
  }

  /** One accepted entry gives what it says to the attribute, and leaves it alone otherwise. */
  lemma EntryGives(job: Job, o: Attrs, c: ClassId, e: Entry, t: AttrType)
    requires OfClass(o, c) && (job.isPrivate ==> job.ctx.session.LoggedIn()) && IsText(t) && UpdateEntry(job, o, e).rv == OK
    ensures var o', x := UpdateEntry(job, o, e).attrs, GivenBy(job.ctx.token, c, job.op, e, t);
            if x.Some? then t in o' && o'[t] == Form(job.ctx.token, job.isPrivate, x.value) else SameAt(o, o', t)
  {
    hide KindOf, Refusal, Stamped, OfClass, WriteValue;
    if e.t == CKA_VALUE {
      assert KindOf(CKA_VALUE).ValueKind? by { ValueIsValue(); }
      ValueGives(job.ctx, job.isPrivate, o, c, e.p, job.op);
      if t != CKA_VALUE && t != CKA_CHECK_VALUE { OtherText(job, o, e, t); }
    } else if e.t == t {
      TextGives(job, o, e);
    } else {
      OtherText(job, o, e, t);
    }
  }

  lemma ValueIsValue()
    ensures KindOf(CKA_VALUE).ValueKind? && IsText(CKA_VALUE) && IsText(CKA_CHECK_VALUE)
  {
  }

  lemma OtherText(job: Job, o: Attrs, e: Entry, t: AttrType)
    requires IsText(t) && e.t != t && (e.t == CKA_VALUE ==> t != CKA_CHECK_VALUE)
    ensures SameAt(o, UpdateEntry(job, o, e).attrs, t)
  {
    hide Write, Refusal;
    WriteTidy(job.ctx, e.t, job.isPrivate, o, e.p, job.op, t);
    assert !Touches(e.t, t);
  }

  lemma TextGives(job: Job, o: Attrs, e: Entry)
    requires IsText(e.t) && e.t != CKA_VALUE && (job.isPrivate ==> job.ctx.session.LoggedIn()) && UpdateEntry(job, o, e).rv == OK
    ensures var o' := UpdateEntry(job, o, e).attrs; e.t in o' && o'[e.t] == Form(job.ctx.token, job.isPrivate, e.p.Data())
  {
    hide Refusal, KcvOf;
    assert KindOf(e.t).CheckValueKind? ==> e.t == CKA_CHECK_VALUE;
    assert !KindOf(e.t).ValueKind?;
    assert KindOf(e.t).ModulusKind? || KindOf(e.t).PrimeKind? ==> e.t != CKA_MODULUS_BITS && e.t != CKA_PRIME_BITS;
    hide KindOf;
  }

  /** The byte strings of an object to which a list of entries was applied are what these gave. */
  lemma {:induction false} AcceptedGive(job: Job, o: Attrs, c: ClassId, es: Template, t: AttrType)
    requires OfClass(o, c) && (job.isPrivate ==> job.ctx.session.LoggedIn()) && IsText(t) && ApplyEntries(job, o, es).rv == OK
    ensures var o', x := ApplyEntries(job, o, es).attrs, Given(job.ctx.token, c, job.op, es, t);
            if x.Some? then t in o' && o'[t] == Form(job.ctx.token, job.isPrivate, x.value) else SameAt(o, o', t)
    decreases |es|
  {
    hide UpdateEntry, IsText, GivenBy, Form;
    if |es| > 0 {
      var front, last := es[..|es| - 1], es[|es| - 1..];
      assert es == front + last && last[1..] == [];
      ApplyJoin(job, o, front, last);
      AcceptedGive(job, o, c, front, t);
      var o1 := ApplyEntries(job, o, front).attrs;
      ApplyKeepsIdentity(job, o, front);
      assert ApplyEntries(job, o1, last) == UpdateEntry(job, o1, es[|es| - 1]);
      EntryGives(job, o1, c, es[|es| - 1], t);
    }
  }

  /** A write that fails while an object is made leaves it as it was. */
  lemma FailureChangesNothing(job: Job, o: Attrs, c: ClassId, e: Entry)
    requires OfClass(o, c) && (job.isPrivate ==> job.ctx.session.LoggedIn()) && UpdateEntry(job, o, e).rv != OK
    requires c.SecretKey? ==> ClassOf(CKO_SECRET_KEY, c.keyType, 0) == Some(c)
    ensures UpdateEntry(job, o, e).attrs == o
  {
    hide KindOf, Refusal, FromWord, MechanismSet, WriteValue;
    if e.t in job.schema && Refusal(job.schema[e.t], o, e.p, job.op) == OK && KindOf(e.t).ValueKind? {
      ValueNeverHalfWritten(job.ctx, job.isPrivate, o, c, e.p, job.op);
    }
  }

  lemma ValueNeverHalfWritten(ctx: Context, isPrivate: bool, o: Attrs, c: ClassId, p: Payload, op: Op)
    requires OfClass(o, c) && (isPrivate ==> ctx.session.LoggedIn()) && WriteValue(ctx, isPrivate, o, p, op).rv != OK
    requires c.SecretKey? ==> ClassOf(CKO_SECRET_KEY, c.keyType, 0) == Some(c)
    ensures WriteValue(ctx, isPrivate, o, p, op).attrs == o
  {
    hide StampCheck, RecordLengths;
    var o1 := o[CKA_VALUE := Form(ctx.token, isPrivate, p.Data())];
    var o2 := RecordLengths(o1, p.Data(), op);
    LengthsElsewhere(o1, p.Data(), op);
    assert SameAt(o1, o2, CKA_CLASS) && SameAt(o1, o2, CKA_KEY_TYPE) && SameAt(o1, o2, CKA_VALUE) && SameAt(o1, o2, CKA_CHECK_VALUE);
    StampGives(ctx, isPrivate, o2, c, p.Data(), op);
  }

  // ----- what is left --------------------------------------------------------------------------------------

  /** The entries of a creation that are accepted before one is refused. */
  function Begun(ctx: Context, c: ClassId, isPrivate: bool, op: Op, es: Template): Template {
    AcceptedPrefix(Job(ctx, SchemaOf(c), isPrivate, op), Initialised(c, map[]), CheckValueLast(es))
  }

  function PlanOf(es: Template): Plan { ReadPlan(es, false, DEFAULT_PLAN).plan }

  function ClassPlanned(es: Template): Option<ClassId> { var p := PlanOf(es); ClassOf(p.objClass, p.keyType, p.certType) }

  /** The checks before an object is created for a session. */
  predicate ReachesSession(caller: Caller, es: Template) {
    && ReadPlan(es, false, DEFAULT_PLAN).rv == OK && HaveWrite(caller.state, false, PlanOf(es).isPrivate) == OK
    && |es| <= MAX_ATTRIBS && ClassPlanned(es).Some? && !PlanOf(es).onToken
  }

  lemma BlankOfClass(es: Template)
    requires ClassPlanned(es).Some?
    ensures OfClass(Initialised(ClassPlanned(es).value, map[]), ClassPlanned(es).value)
    ensures var c := ClassPlanned(es).value; c.SecretKey? ==> ClassOf(CKO_SECRET_KEY, c.keyType, 0) == Some(c)
  {
    hide Table, Declares, FillDefaults, ReadPlan;
    var c := ClassPlanned(es).value;
    InitialisedAt(c, map[], CKA_CLASS);
    InitialisedAt(c, map[], CKA_KEY_TYPE);
  }

  lemma WriterIsLoggedIn(state: SessionState, onToken: bool, isPrivate: bool)
    requires isPrivate && HaveWrite(state, onToken, isPrivate) == OK
    ensures state.LoggedIn()
  {
  }

  /** With and without encryption the same creations fail half-way. What they leave is stored as
      planned, and on the token, where it is blank, as any flag says. */
  lemma StoredAsPlanned(ctx: Context, caller: Caller, es: Template, op: Op)
    requires ctx.token.Lawful() && ctx.session == caller.state && op != Copy && op != Set
    requires DraftObject(ctx, caller, es, op).HalfMade?
    ensures var d, e := DraftObject(ctx, caller, es, op), DraftObject(Clear(ctx), caller, es, op);
            && e.HalfMade? && e.rv == d.rv && e.item == d.item.(attrs := e.item.attrs)
            && (d.item.place.OnToken? ==>
                  Hides(ctx.token, true, d.item.attrs, e.item.attrs) && Hides(ctx.token, false, d.item.attrs, e.item.attrs))
            && (d.item.place.InSession? ==> Hides(ctx.token, d.item.place.isPrivate, d.item.attrs, e.item.attrs))
  {
    hide Hides, Initialised, ApplyEntries, SchemaOf, CheckValueLast, ClassOf, ReadPlan, Token.Lawful, AllMandatoryNamed;
    var p := ReadPlan(es, false, DEFAULT_PLAN).plan;
    var c := ClassOf(p.objClass, p.keyType, p.certType).value;
    var job := Job(ctx, SchemaOf(c), p.isPrivate, op);
    if p.isPrivate { WriterIsLoggedIn(caller.state, p.onToken, p.isPrivate); }
    NewHides(ctx.token, true, c);
    NewHides(ctx.token, false, c);
    SaveAlike(job, Initialised(c, map[]), Initialised(c, map[]), CheckValueLast(es), p.onToken);
  }

  lemma WholeTemplatePlanned(es: Template)
    requires ReadPlan(es, false, DEFAULT_PLAN).rv == OK && ClassPlanned(es).Some?
    ensures PlanOf(es).isPrivate == LastFlag(CheckValueLast(es), CKA_PRIVATE, !PublicByDefault(ClassPlanned(es).value))
  {
    hide LastSized, CheckValueLast;
    ReorderedFlag(es, CKA_PRIVATE, SIZEOF_BBOOL);
  }

  /** An object left for a session holds the effect of the accepted entries and nothing else. */
  lemma LeavesBegun(ctx: Context, caller: Caller, es: Template, op: Op)
    requires ctx.session == caller.state && op != Copy && op != Set && DraftObject(ctx, caller, es, op).HalfMade?
    ensures ClassPlanned(es).Some? && (PlanOf(es).onToken || ReachesSession(caller, es))
    ensures var d, p, c := DraftObject(ctx, caller, es, op), PlanOf(es), ClassPlanned(es).value;
            && d.item.place == PlaceFor(caller, p.onToken, p.isPrivate)
            && (!p.onToken ==>
                  d.item.attrs == ApplyEntries(Job(ctx, SchemaOf(c), p.isPrivate, op), Initialised(c, map[]), Begun(ctx, c, p.isPrivate, op, es)).attrs)
  {
    hide Initialised, ApplyEntries, SchemaOf, CheckValueLast, ClassOf, ReadPlan, AllMandatoryNamed, AcceptedPrefix, UpdateEntry, OfClass, HaveWrite;
    var p, c := PlanOf(es), ClassPlanned(es).value;
    var job, o, ordered := Job(ctx, SchemaOf(c), p.isPrivate, op), Initialised(c, map[]), CheckValueLast(es);
    if p.isPrivate { assert ctx.session.LoggedIn() by { WriterIsLoggedIn(caller.state, p.onToken, p.isPrivate); } }
    PartialSave(job, o, ordered);
    var begun := AcceptedPrefix(job, o, ordered);
    if !p.onToken && begun != ordered {
      BlankOfClass(es);
      var o1 := ApplyEntries(job, o, begun).attrs;
      ApplyKeepsIdentity(job, o, begun);
      SameClass(o, o1, c);
      FailureChangesNothing(job, o1, c, ordered[|begun|]);
    }
  }

  lemma SameClass(o: Attrs, o': Attrs, c: ClassId)
    requires SameIdentity(o, o') && OfClass(o, c)
    ensures OfClass(o', c)
  {
  }

  // ----- where it is ----------------------------------------------------------------------------------------

  lemma BegunFlag(job: Job, c: ClassId, begun: Template, t: AttrType)
    requires job.schema == SchemaOf(c) && (t == CKA_TOKEN || t == CKA_PRIVATE) && ApplyEntries(job, Initialised(c, map[]), begun).rv == OK
    ensures var o' := ApplyEntries(job, Initialised(c, map[]), begun).attrs;
            Flag(o', t, t == CKA_PRIVATE) == LastFlag(begun, t, t == CKA_PRIVATE && !PublicByDefault(c))
  {
    hide Initialised, ApplyEntries, SchemaOf, LastFlag;
    NewObjectFlags(c);
    FlagAsPlanned(job, Initialised(c, map[]), begun, t, t == CKA_PRIVATE);
  }

  lemma FailedWriteKeepsFlags(job: Job, o: Attrs, e: Entry, t: AttrType)
    requires UpdateEntry(job, o, e).rv != OK && (t == CKA_PRIVATE || t == CKA_TOKEN)
    ensures SameAt(o, UpdateEntry(job, o, e).attrs, t)
  {
    if e.t == t { assert KindOf(t).FlagKind?; } else { WriteTidy(job.ctx, e.t, job.isPrivate, o, e.p, job.op, t); }
  }

  /** The flags of a half-made session object are those of the last entries accepted before the refused
      one; it is where its flags say exactly if they, for both flags, planned the same as the whole
      template. On the token the object is blank, and its flag denies that it is there. */
  lemma HalfMadePlacedExactly(ctx: Context, caller: Caller, es: Template, op: Op)
    requires op != Copy && op != Set && DraftObject(ctx, caller, es, op).HalfMade?
    ensures ClassPlanned(es).Some?
    ensures var d, p, c, ordered := DraftObject(ctx, caller, es, op), PlanOf(es), ClassPlanned(es).value, CheckValueLast(es);
            var job, blank, begun := Job(ctx, SchemaOf(c), p.isPrivate, op), Initialised(c, map[]), Begun(ctx, c, p.isPrivate, op, es);
            && begun <= ordered && ApplyEntries(job, blank, begun).rv == OK
            && (begun != ordered ==> UpdateEntry(job, ApplyEntries(job, blank, begun).attrs, ordered[|begun|]).rv != OK)
            && (p.onToken ==> d.item.attrs == blank && !Placed(d.item))
            && (!p.onToken ==>
                  && IsOnToken(d.item.attrs) == LastFlag(begun, CKA_TOKEN, false)
                  && IsPrivate(d.item.attrs) == LastFlag(begun, CKA_PRIVATE, !PublicByDefault(c))
                  && (Placed(d.item) <==>
                        !LastFlag(begun, CKA_TOKEN, false) && LastFlag(begun, CKA_PRIVATE, !PublicByDefault(c)) == p.isPrivate))
  {
    hide Initialised, ApplyEntries, SchemaOf, CheckValueLast, ClassOf, ReadPlan, AllMandatoryNamed, LastFlag, UpdateEntry, AcceptedPrefix;
    var p, c, ordered := PlanOf(es), ClassPlanned(es).value, CheckValueLast(es);
    var job := Job(ctx, SchemaOf(c), p.isPrivate, op);
    PartialSave(job, Initialised(c, map[]), ordered);
    NewObjectFlags(c);
    var begun := Begun(ctx, c, p.isPrivate, op, es);
    if begun != ordered {
      var before := ApplyEntries(job, Initialised(c, map[]), begun).attrs;
      FailedWriteKeepsFlags(job, before, ordered[|begun|], CKA_TOKEN);
      FailedWriteKeepsFlags(job, before, ordered[|begun|], CKA_PRIVATE);
    }
    BegunFlag(job, c, begun, CKA_TOKEN);
    BegunFlag(job, c, begun, CKA_PRIVATE);
  }

  // ----- stored as its own flag says -------------------------------------------------------------------------

  /** The entries gave the attribute bytes whose stored form depends on the privacy: the cipher changes
      them, and they are not left alone as an empty string of a public object is. */
  predicate GivesAway(token: Token, c: ClassId, op: Op, es: Template, isPrivate: bool, t: AttrType) {
    IsText(t) &&
    var x := Given(token, c, op, es, t);
    x.Some? && token.cipher(x.value) != x.value && (isPrivate || x.value != [])
  }

  /** A template leaves a wrongly stored object: it plans an object for a session, the entries accepted
      before the refused one plan another privacy than the whole, and they gave away some attribute. */
  ghost predicate Misstored(ctx: Context, caller: Caller, es: Template, op: Op) {
    ReachesSession(caller, es) &&
    var c, planned := ClassPlanned(es).value, PlanOf(es).isPrivate;
    var begun := Begun(ctx, c, planned, op, es);
    && LastFlag(begun, CKA_PRIVATE, !PublicByDefault(c)) != planned
    && exists t :: GivesAway(ctx.token, c, op, begun, planned, t)
  }

  lemma MisstoredIsHalfMade(ctx: Context, caller: Caller, es: Template, op: Op)
    requires op != Copy && op != Set && Misstored(ctx, caller, es, op)
    ensures DraftObject(ctx, caller, es, op).HalfMade?
  {
    hide Initialised, ApplyEntries, SchemaOf, CheckValueLast, ClassOf, AllMandatoryNamed, LastFlag, UpdateEntry, AcceptedPrefix, GivesAway, LastNumber;
    var p, c := PlanOf(es), ClassPlanned(es).value;
    PartialSave(Job(ctx, SchemaOf(c), p.isPrivate, op), Initialised(c, map[]), CheckValueLast(es));
    WholeTemplatePlanned(es);
  }

  /** One attribute, stored for one privacy, under the other. */
  lemma HidesOtherwiseAt(token: Token, isPrivate: bool, a: AttrType, v: Value, w: Value, x: Option<Bytes>)
    requires token.Lawful() && !IsDate(a) && HidesAt(token, isPrivate, a, v, w)
    requires v == if x.Some? then Form(token, isPrivate, x.value) else BytesV([])
    ensures HidesAt(token, !isPrivate, a, v, w) <==>
              !(x.Some? && token.cipher(x.value) != x.value && (isPrivate || x.value != []))
  {
    if isPrivate {
      HiddenDecodes(token, v.s, w.s);
      if x.Some? { assert token.plain(token.cipher(x.value)) == Some(x.value); }
    }
  }

  /** A whole object, made blank and then given what the entries gave, stored for one privacy, under the
      other. */
  lemma HidesOtherwise(job: Job, c: ClassId, begun: Template, clear: Attrs)
    requires job.ctx.token.Lawful() && (job.isPrivate ==> job.ctx.session.LoggedIn()) && OfClass(Initialised(c, map[]), c)
    requires ApplyEntries(job, Initialised(c, map[]), begun).rv == OK
    requires Hides(job.ctx.token, job.isPrivate, ApplyEntries(job, Initialised(c, map[]), begun).attrs, clear)
    ensures Hides(job.ctx.token, !job.isPrivate, ApplyEntries(job, Initialised(c, map[]), begun).attrs, clear)
       <==> !exists t :: GivesAway(job.ctx.token, c, job.op, begun, job.isPrivate, t)
  {
    var token, o := job.ctx.token, ApplyEntries(job, Initialised(c, map[]), begun).attrs;
    NewObjectTyped(c);
    ApplyTidy(job, Initialised(c, map[]), begun);
    forall a | a in o ensures HidesAt(token, !job.isPrivate, a, o[a], clear[a]) <==> !GivesAway(token, c, job.op, begun, job.isPrivate, a) {
      AttributeOtherwise(job, c, begun, clear, a);
    }
    forall t | GivesAway(token, c, job.op, begun, job.isPrivate, t) ensures t in o {
      hide Given, IsText;
      AcceptedGive(job, Initialised(c, map[]), c, begun, t);
    }
    hide Initialised, ApplyEntries, GivesAway, HidesAt, WellTyped, Token.Lawful;
  }

  lemma AttributeOtherwise(job: Job, c: ClassId, begun: Template, clear: Attrs, a: AttrType)
    requires job.ctx.token.Lawful() && (job.isPrivate ==> job.ctx.session.LoggedIn()) && OfClass(Initialised(c, map[]), c)
    requires ApplyEntries(job, Initialised(c, map[]), begun).rv == OK
    requires var o := ApplyEntries(job, Initialised(c, map[]), begun).attrs;
             a in o && a in clear && KindOf(a).Admits(o[a]) && HidesAt(job.ctx.token, job.isPrivate, a, o[a], clear[a])
    ensures var o := ApplyEntries(job, Initialised(c, map[]), begun).attrs;
            HidesAt(job.ctx.token, !job.isPrivate, a, o[a], clear[a]) <==> !GivesAway(job.ctx.token, c, job.op, begun, job.isPrivate, a)
  {
    hide Initialised, ApplyEntries, Given, KindOf, DefaultOf, Token.Lawful, OfClass, Table, Declares;
    var o := ApplyEntries(job, Initialised(c, map[]), begun).attrs;
    if IsText(a) {
      AcceptedGive(job, Initialised(c, map[]), c, begun, a);
      if Given(job.ctx.token, c, job.op, begun, a).None? { BlankText(c, a); }
      HidesOtherwiseAt(job.ctx.token, job.isPrivate, a, o[a], clear[a], Given(job.ctx.token, c, job.op, begun, a));
    } else {
      assert o[a].BytesV? ==> IsDate(a);
    }
  }

  lemma BlankText(c: ClassId, a: AttrType)
    requires IsText(a) && a in Initialised(c, map[])
    ensures Initialised(c, map[])[a] == BytesV([])
  {
    hide Table, Declares, FillDefaults, Initialised;
    InitialisedAt(c, map[], a);
    DefaultsEmpty(a);
    assert KindOf(a).IsBytes() ==> DefaultOf(a).BytesV?;
    assert a !in ForcePrivacy(c, ForceIdentity(c, map[])) by { ForcedNotText(c, a); }
  }

  lemma ForcedNotText(c: ClassId, a: AttrType)
    requires IsText(a)
    ensures a !in ForcePrivacy(c, ForceIdentity(c, map[]))
  {
  }

  /** Under every lawful cipher, a half-made object is stored as its own flag says exactly if it is not
      misstored. */
  lemma HalfMadeStoredExactly(ctx: Context, caller: Caller, es: Template, op: Op)
    requires ctx.token.Lawful() && ctx.session == caller.state && op != Copy && op != Set
    requires DraftObject(ctx, caller, es, op).HalfMade?
    ensures var d, e := DraftObject(ctx, caller, es, op), DraftObject(Clear(ctx), caller, es, op);
            Hides(ctx.token, IsPrivate(d.item.attrs), d.item.attrs, e.item.attrs) <==> !Misstored(ctx, caller, es, op)
  {
    hide DraftObject, Hides, Token.Lawful, Initialised, ApplyEntries, SchemaOf, ClassOf, ReadPlan, LastFlag, OfClass, GivesAway, AcceptedPrefix;
    hide UpdateEntry, HaveWrite, CheckValueLast;
    StoredAsPlanned(ctx, caller, es, op);
    LeavesBegun(ctx, caller, es, op);
    HalfMadePlacedExactly(ctx, caller, es, op);
    var d, e, p, c := DraftObject(ctx, caller, es, op), DraftObject(Clear(ctx), caller, es, op), PlanOf(es), ClassPlanned(es).value;
    if !p.onToken && IsPrivate(d.item.attrs) != p.isPrivate {
      if p.isPrivate { assert ctx.session.LoggedIn() by { WriterIsLoggedIn(caller.state, false, true); } }
      BlankOfClass(es);
      HidesOtherwise(Job(ctx, SchemaOf(c), p.isPrivate, op), c, Begun(ctx, c, p.isPrivate, op, es), e.item.attrs);
    }
  }

  /** Under a cipher that lengthens, an object planned private is given away exactly by any byte string
      entry, one planned public by any that gave some bytes last. */
  lemma ExpandingGivesAway(token: Token, c: ClassId, op: Op, es: Template, isPrivate: bool)
    requires token.Expanding()
    ensures (exists t :: GivesAway(token, c, op, es, isPrivate, t)) <==>
              if isPrivate then exists e :: e in es && IsText(e.t)
              else exists t :: IsText(t) && Given(token, c, op, es, t).Some? && Given(token, c, op, es, t).value != []
  {
    hide IsText, Given;
    forall t | IsText(t) && Given(token, c, op, es, t).Some?
      ensures token.cipher(Given(token, c, op, es, t).value) != Given(token, c, op, es, t).value
    {
      assert |token.cipher(Given(token, c, op, es, t).value)| > |Given(token, c, op, es, t).value|;
    }
    if isPrivate {
      forall e | e in es && IsText(e.t) ensures GivesAway(token, c, op, es, isPrivate, e.t) { NamedIsGiven(token, c, op, es, e); }
      if t :| GivesAway(token, c, op, es, isPrivate, t) { var e := GivenIsNamed(token, c, op, es, t); }
    } else {
      forall t ensures GivesAway(token, c, op, es, false, t) <==>
                         IsText(t) && Given(token, c, op, es, t).Some? && Given(token, c, op, es, t).value != [] {}
    }
  }

  lemma {:induction false} NamedIsGiven(token: Token, c: ClassId, op: Op, es: Template, e: Entry)
    requires e in es
    ensures Given(token, c, op, es, e.t).Some?
  {
    if es[|es| - 1] != e {
      assert es == es[..|es| - 1] + [es[|es| - 1]];
      NamedIsGiven(token, c, op, es[..|es| - 1], e);
    }
  }

  lemma {:induction false} GivenIsNamed(token: Token, c: ClassId, op: Op, es: Template, t: AttrType) returns (e: Entry)
    requires IsText(t) && Given(token, c, op, es, t).Some?
    ensures e in es && IsText(e.t)
  {
    hide IsText;
    ValueIsValue();
    e := es[|es| - 1];
    if GivenBy(token, c, op, e, t).None? { e := GivenIsNamed(token, c, op, es[..|es| - 1], t); }
  }

  // ----- templates that cannot go wrong ------------------------------------------------------------------------

  /** No entry after a byte string, check values apart, says whether the object is private. */
  predicate PrivacyFirst(es: Template) {
    exists k :: 0 <= k <= |es| && Quiet(es[..k]) && NoPrivacy(es[k..])
  }

  predicate Quiet(es: Template) { forall e :: e in es ==> !IsText(e.t) || e.t == CKA_CHECK_VALUE }

  predicate NoPrivacy(es: Template) { forall e :: e in es ==> e.t != CKA_PRIVATE }

  lemma {:induction false} Reordered(es: Template, fs: Template)
    ensures WithoutCheckValue(es + fs) == WithoutCheckValue(es) + WithoutCheckValue(fs)
    decreases |fs|
  {
    if |fs| == 0 {
      assert es + fs == es;
    } else {
      assert (es + fs)[..|es + fs| - 1] == es + fs[..|fs| - 1];
      Reordered(es, fs[..|fs| - 1]);
    }
  }

  lemma {:induction false} ReorderedMembers(es: Template)
    ensures forall e :: e in WithoutCheckValue(es) ==> e in es && e.t != CKA_CHECK_VALUE
    ensures forall e :: e in OnlyCheckValue(es) ==> e in es && e.t == CKA_CHECK_VALUE
  {
    if |es| > 0 {
      ReorderedMembers(es[..|es| - 1]);
      assert es == es[..|es| - 1] + [es[|es| - 1]];
    }
  }

  lemma {:induction false} RestMembers(es: Template, dropCheck: bool)
    ensures NoPrivacy(Rest(es, dropCheck))
  {
    if |es| > 0 { RestMembers(es[..|es| - 1], dropCheck); }
  }

  /** The templates that the library assembles put their four entries first. */
  lemma AssembledPrivacyFirst(p: Plan, es: Template, dropCheck: bool)
    ensures PrivacyFirst(Header(p) + Rest(es, dropCheck))
  {
    hide Rest;
    RestMembers(es, dropCheck);
    var full := Header(p) + Rest(es, dropCheck);
    assert |Header(p)| == 4 && full[..4] == Header(p) && full[4..] == Rest(es, dropCheck);
  }

  lemma {:induction false} NoneNamed(es: Template, t: AttrType, size: nat)
    requires forall e :: e in es ==> e.t != t
    ensures LastSized(es, t, size) == None
  {
    if |es| > 0 { NoneNamed(es[..|es| - 1], t, size); }
  }

  lemma SettledParts(es: Template)
    ensures Quiet(es) ==> forall e :: e in WithoutCheckValue(es) ==> !IsText(e.t)
    ensures NoPrivacy(es) ==> NoPrivacy(WithoutCheckValue(es))
    ensures NoPrivacy(OnlyCheckValue(es))
  {
    hide IsText;
    ReorderedMembers(es);
    hide WithoutCheckValue, OnlyCheckValue;
  }

  lemma PrivacyFirstReordered(es: Template) returns (begun: Template, rest: Template)
    requires PrivacyFirst(es)
    ensures CheckValueLast(es) == begun + rest && (forall e :: e in begun ==> !IsText(e.t)) && NoPrivacy(rest)
  {
    hide IsText, WithoutCheckValue, OnlyCheckValue, Quiet;
    var k :| 0 <= k <= |es| && Quiet(es[..k]) && NoPrivacy(es[k..]);
    assert es == es[..k] + es[k..];
    Reordered(es[..k], es[k..]);
    SettledParts(es[..k]);
    SettledParts(es[k..]);
    SettledParts(es);
    begun, rest := WithoutCheckValue(es[..k]), WithoutCheckValue(es[k..]) + OnlyCheckValue(es);
  }

  /** A template that settles privacy before it gives byte strings leaves nothing misstored. */
  lemma PrivacyFirstIsSafe(ctx: Context, caller: Caller, es: Template, op: Op)
    requires PrivacyFirst(es)
    ensures !Misstored(ctx, caller, es, op)
  {
    hide Initialised, SchemaOf, ClassOf, ReadPlan, LastFlag, AcceptedPrefix, IsText, PrivacyFirst, CheckValueLast, Given, HaveWrite;
    var quiet, rest := PrivacyFirstReordered(es);
    if ReachesSession(caller, es) {
      var c, planned := ClassPlanned(es).value, PlanOf(es).isPrivate;
      var begun := Begun(ctx, c, planned, op, es);
      if |begun| <= |quiet| {
        assert forall e :: e in begun ==> e in quiet;
        forall t ensures !GivesAway(ctx.token, c, op, begun, planned, t) {
          if GivesAway(ctx.token, c, op, begun, planned, t) { var e := GivenIsNamed(ctx.token, c, op, begun, t); }
        }
      } else {
        assert begun == quiet + rest[..|begun| - |quiet|];
        SettledFlag(quiet, rest[..|begun| - |quiet|], !PublicByDefault(c));
        SettledFlag(quiet, rest, !PublicByDefault(c));
        WholeTemplatePlanned(es);
      }
    }
  }

  lemma SettledFlag(es: Template, fs: Template, default: bool)
    requires NoPrivacy(fs)
    ensures LastFlag(es + fs, CKA_PRIVATE, default) == LastFlag(es, CKA_PRIVATE, default)
  {
    LastSizedJoin(es, fs, CKA_PRIVATE, SIZEOF_BBOOL);
    NoneNamed(fs, CKA_PRIVATE, SIZEOF_BBOOL);
  }

  // ----- calls that make keys ---------------------------------------------------------------------------------

  /** A key-making call that fails gives out no handle. It changes the objects exactly if its template was
      refused in saving, and then leaves one new object, whose byte strings are stored as its flag says. */
  lemma FailedKey(w: World, ctx: Context, caller: Caller, p: Plan, es: Template, dropCheck: bool, op: Op, origin: Origin,
                  contribute: Attrs -> Option<Attrs>)
    requires Sound(w) && op != Copy && op != Set
    requires MakeKey(w, ctx, caller, p, es, dropCheck, op, origin, contribute).rv != OK
    ensures var r := MakeKey(w, ctx, caller, p, es, dropCheck, op, origin, contribute);
            var d := DraftObject(ctx, caller, Header(p) + Rest(es, dropCheck), op);
            && r.world.handles == w.handles
            && (r.world.items != w.items <==> |es| <= MAX_ATTRIBS - |Header(p)| && d.HalfMade?)
            && (r.world.items != w.items ==> r.world.items == w.items[w.next := d.item] && !d.item.finished && !Misstored(ctx, caller, Header(p) + Rest(es, dropCheck), op))
  {
    hide DraftObject, Header, Rest, ReadPlan, Sound, Misstored, Healthy, StoredClass, ClassOf, Placed, Authorised, Enact, CompleteKey, SoundDraft;
    var full := Header(p) + Rest(es, dropCheck);
    var q := ReadPlan(full, false, DEFAULT_PLAN).plan;
    AssembledPrivacyFirst(p, es, dropCheck);
    hide PrivacyFirst;
    PrivacyFirstIsSafe(ctx, caller, full, op);
    CreateDraftLaw(ctx, caller, full, op);
    var d := DraftObject(ctx, caller, full, op);
    if d.Complete? {
      CompletionFails(w, d.item, caller, q.onToken, q.isPrivate, origin, contribute);
    } else {
      FailedEnactment(w, caller, d, q.onToken, q.isPrivate);
    }
  }

  lemma FailedEnactment(w: World, caller: Caller, d: Draft, onToken: bool, isPrivate: bool)
    requires Sound(w) && SoundDraft(d, caller) && !d.Complete?
    ensures var r := Enact(w, caller, d, onToken, isPrivate);
            && r.rv != OK && r.world.handles == w.handles && w.next !in w.items
            && r.world.items == (if d.HalfMade? then w.items[w.next := d.item] else w.items)
            && (d.HalfMade? ==> !d.item.finished)
  {
    hide SoundItem, SoundHandles;
  }

  lemma CompletionFails(w: World, item: Item, caller: Caller, onToken: bool, isPrivate: bool, origin: Origin, contribute: Attrs -> Option<Attrs>)
    requires Sound(w)
    ensures var made := Enact(w, caller, Complete(item), onToken, isPrivate);
            var r := CompleteKey(made, origin, contribute);
            && made.rv == OK
            && (r.rv != OK ==> r.world.items == w.items && r.world.handles == w.handles)
  {
    hide SoundItem, Remove, Forget, Hand;
    FreshHandle(w, item, caller, onToken, isPrivate);
    FreshGone(w, item, caller, onToken, isPrivate);
    var made := Enact(w, caller, Complete(item), onToken, isPrivate);
    assert Lookup(made.world, made.handle) == Some(w.next);
  }

  lemma FreshGone(w: World, item: Item, caller: Caller, onToken: bool, isPrivate: bool)
    requires Sound(w)
    ensures var r := Hand(Allocate(w, item), caller, w.next, onToken, isPrivate);
            var gone := Remove(Forget(r.world, r.handle), w.next);
            gone.items == w.items && gone.handles == w.handles
  {
    hide SoundItem;
    assert w.next !in w.items && w.next !in w.byObject && w.lastHandle + 1 !in w.handles;
  }
}
