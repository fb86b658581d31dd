/** The check value of an unwrapped key. The template may name one; it is compared with a value that is
    still empty, and the value is replaced afterwards. */
module UnwrappedKeys {
  import opened Cryptoki
  import opened Attributes
  import opened ObjectClasses
  import opened Templates
  import opened Transparency
  import opened ObjectStore
  import opened ObjectLaws
  import opened Runs
  import opened HalfMade
  import opened CheckValues

  // ----- the check value that the template names -------------------------------------------------------

  /** The check value that a template gives, empty if it gives none. */
  function CheckGiven(es: Template): Bytes {
    match LastEntry(es, CKA_CHECK_VALUE) case Some(p) => p.Data() case None => []
  }

  lemma {:induction false} LastEntryJoin(es: Template, fs: Template, t: AttrType)
    ensures LastEntry(es + fs, t) == if LastEntry(fs, t).Some? then LastEntry(fs, t) else LastEntry(es, t)
    decreases |fs|
  {
    if |fs| == 0 {
      assert es + fs == es;
    } else {
      assert (es + fs)[..|es + fs| - 1] == es + fs[..|fs| - 1];
      LastEntryJoin(es, fs[..|fs| - 1], t);
    }
  }

  lemma {:induction false} RestKeepsCheck(es: Template)
    ensures LastEntry(Rest(es, false), CKA_CHECK_VALUE) == LastEntry(es, CKA_CHECK_VALUE)
  {
    if |es| > 0 {
      RestKeepsCheck(es[..|es| - 1]);
      LastEntryOf(Rest(es[..|es| - 1], false), es[|es| - 1], CKA_CHECK_VALUE);
    }
  }

  lemma {:induction false} NeverLast(es: Template, t: AttrType)
    requires !Named(es, t)
    ensures LastEntry(es, t) == None
  {
    if |es| > 0 {
      assert !Named(es[..|es| - 1], t) by { assert forall i :: 0 <= i < |es| - 1 ==> es[..|es| - 1][i] == es[i]; }
      NeverLast(es[..|es| - 1], t);
    }
  }

  /** Neither the library's own entries nor the reordering change the last check value, which then is
      the last entry of all. */
  lemma AssembledCheck(p: Plan, es: Template)
    ensures var full := CheckValueLast(Header(p) + Rest(es, false));
            && LastEntry(full, CKA_CHECK_VALUE) == LastEntry(es, CKA_CHECK_VALUE)
            && (LastEntry(es, CKA_CHECK_VALUE).Some? ==>
                  |full| > 0 && full[|full| - 1] == Entry(CKA_CHECK_VALUE, LastEntry(es, CKA_CHECK_VALUE).value))
  {
    hide Rest, WithoutCheckValue, OnlyCheckValue;
    var all := Header(p) + Rest(es, false);
    RestKeepsCheck(es);
    LastEntryJoin(Header(p), Rest(es, false), CKA_CHECK_VALUE);
    assert LastEntry(Header(p), CKA_CHECK_VALUE) == None by {
      assert !Named(Header(p), CKA_CHECK_VALUE);
      NeverLast(Header(p), CKA_CHECK_VALUE);
    }
    hide Header;
    Partitioned(all);
    NeverLast(WithoutCheckValue(all), CKA_CHECK_VALUE);
    LastEntryJoin(WithoutCheckValue(all), OnlyCheckValue(all), CKA_CHECK_VALUE);
    if LastEntry(es, CKA_CHECK_VALUE).Some? { assert |OnlyCheckValue(all)| > 0; }
  }

  /** While a secret key is unwrapped only check values give it a check value. */
  lemma {:induction false} UnwrapGives(token: Token, c: ClassId, es: Template)
    requires c.SecretKey?
    ensures Given(token, c, Unwrap, es, CKA_CHECK_VALUE) == match LastEntry(es, CKA_CHECK_VALUE) case Some(p) => Some(p.Data()) case None => None
  {
    if |es| > 0 { UnwrapGives(token, c, es[..|es| - 1]); }
  }

  lemma {:induction false} NothingGiven(token: Token, c: ClassId, op: Op, es: Template)
    requires !Named(es, CKA_VALUE)
    ensures Given(token, c, op, es, CKA_VALUE) == None
  {
    if |es| > 0 {
      assert !Named(es[..|es| - 1], CKA_VALUE) by { assert forall i :: 0 <= i < |es| - 1 ==> es[..|es| - 1][i] == es[i]; }
      NothingGiven(token, c, op, es[..|es| - 1]);
    }
  }

  // ----- what is accepted, and what is left ----------------------------------------------------------------

  /** The job of saving the template of an unwrapped secret key. */
  function UnwrapJob(ctx: Context, p: Plan): Job { Job(ctx, SchemaOf(SecretKey(p.keyType)), p.isPrivate, Unwrap) }

  function Blank(p: Plan): Attrs { Initialised(SecretKey(p.keyType), map[]) }

  lemma ValueNeverGiven(ctx: Context, p: Plan, es: Template)
    requires ApplyEntries(UnwrapJob(ctx, p), Blank(p), es).rv == OK
    ensures !Named(es, CKA_VALUE)
  {
    hide SchemaOf, Initialised;
    ValueNotGenerated(p.keyType);
    var job := UnwrapJob(ctx, p);
    var states := ApplyGivesSteps(job, Blank(p), es);
    forall i | 0 <= i < |es| ensures es[i].t != CKA_VALUE {
      assert Update(job.ctx, job.schema[es[i].t], es[i].t, job.isPrivate, states[i], es[i].p, job.op) == Outcome(states[i + 1], OK);
      hide Write;
    }
  }

  lemma BlankIs(p: Plan)
    requires ClassOf(CKO_SECRET_KEY, p.keyType, 0) == Some(SecretKey(p.keyType))
    ensures OfClass(Blank(p), SecretKey(p.keyType))
  {
    hide Table, Declares, FillDefaults;
    InitialisedAt(SecretKey(p.keyType), map[], CKA_CLASS);
    InitialisedAt(SecretKey(p.keyType), map[], CKA_KEY_TYPE);
  }

  /** A check value named last is accepted only if it is empty or belongs to the empty key. */
  lemma AcceptedCheck(ctx: Context, p: Plan, es: Template, e: Entry)
    requires ctx.token.Lawful() && (p.isPrivate ==> ctx.session.LoggedIn()) && HasCheckValue(p.keyType)
    requires e.t == CKA_CHECK_VALUE && ApplyEntries(UnwrapJob(ctx, p), Blank(p), es + [e]).rv == OK
    ensures e.p.Data() != [] ==> KcvOf(ctx.token, p.keyType, []) == Some(e.p.Data())
  {
    hide Initialised, SchemaOf, Token.Lawful, UpdateEntry, KcvOf, OfClass, Given, Stamped;
    var job, c := UnwrapJob(ctx, p), SecretKey(p.keyType);
    ApplyJoin(job, Blank(p), es, [e]);
    var o := ApplyEntries(job, Blank(p), es).attrs;
    assert [e][1..] == [] && ApplyEntries(job, o, [e]) == UpdateEntry(job, o, e);
    ValueNeverGiven(ctx, p, es);
    NothingGiven(ctx.token, c, Unwrap, es);
    BlankIs(p);
    AcceptedGive(job, Blank(p), c, es, CKA_VALUE) by { ValueIsValue(); }
    assert Text(o, CKA_VALUE) == [] by { ValueIsValue(); if CKA_VALUE in Blank(p) { BlankText(c, CKA_VALUE); } }
    ApplyKeepsIdentity(job, Blank(p), es);
    SameClass(Blank(p), o, c);
    CheckAgainst(job, o, e, p.keyType);
  }

  lemma CheckAgainst(job: Job, o: Attrs, e: Entry, keyType: nat)
    requires job.ctx.token.Lawful() && e.t == CKA_CHECK_VALUE && UpdateEntry(job, o, e).rv == OK
    requires OfClass(o, SecretKey(keyType)) && HasCheckValue(keyType) && Text(o, CKA_VALUE) == []
    ensures e.p.Data() != [] ==> KcvOf(job.ctx.token, keyType, []) == Some(e.p.Data())
  {
    hide KcvOf;
    assert keyType != CKK_GOST28147;
  }

  lemma DecodesForm(ctx: Context, isPrivate: bool, x: Bytes)
    requires ctx.token.Lawful() && (isPrivate ==> ctx.session.LoggedIn())
    ensures Decoded(ctx, isPrivate, Form(ctx.token, isPrivate, x)) == Some(BytesV(x))
    ensures Decoded(ctx, isPrivate, BytesV([])) == Some(BytesV([]))
  {
    assert ctx.token.plain(ctx.token.cipher(x)) == Some(x);
  }

  /** The draft of an unwrapped key and what becomes of it once the key is known. */
  function UnwrapDraft(ctx: Context, caller: Caller, es: Template): Draft {
    DraftObject(ctx, caller, Header(PlanOf(es)) + Rest(es, false), Unwrap)
  }

  function Unwrapped(ctx: Context, isPrivate: bool, key: Bytes, o: Attrs): Attrs {
    ContributeUnwrapped(ctx, isPrivate, Some(map[CKA_VALUE := key]))(o).value
  }

  lemma DraftedUnwrap(ctx: Context, caller: Caller, es: Template)
    requires ctx.session == caller.state && ReadPlan(es, false, DEFAULT_PLAN).rv == OK && PlanOf(es).objClass == CKO_SECRET_KEY
    requires IsWord(PlanOf(es).keyType) && UnwrapDraft(ctx, caller, es).Complete?
    ensures var p := PlanOf(es);
            var r := ApplyEntries(UnwrapJob(ctx, p), Blank(p), CheckValueLast(Header(p) + Rest(es, false)));
            && ClassOf(CKO_SECRET_KEY, p.keyType, 0) == Some(SecretKey(p.keyType)) && (p.isPrivate ==> ctx.session.LoggedIn())
            && r == Outcome(UnwrapDraft(ctx, caller, es).item.attrs, OK)
  {
    hide Header, Rest, ReadPlan, Initialised, SchemaOf, CheckValueLast, ApplyEntries, AllMandatoryNamed, HaveWrite;
    var p := PlanOf(es);
    AssembledPlan(p, es, false);
    if p.isPrivate { WriterIsLoggedIn(caller.state, p.onToken, true); }
  }

  /** What reading finds in an unwrapped key. */
  lemma UnwrappedReads(ctx: Context, caller: Caller, es: Template, key: Bytes)
    requires ctx.token.Lawful() && ctx.session == caller.state && ReadPlan(es, false, DEFAULT_PLAN).rv == OK
    requires PlanOf(es).objClass == CKO_SECRET_KEY && IsWord(PlanOf(es).keyType) && HasCheckValue(PlanOf(es).keyType)
    requires UnwrapDraft(ctx, caller, es).Complete?
    ensures var p := PlanOf(es);
            var o := Unwrapped(ctx, p.isPrivate, key, UnwrapDraft(ctx, caller, es).item.attrs);
            && Decoded(ctx, p.isPrivate, BytesV(Text(o, CKA_CHECK_VALUE))) == Some(BytesV(CheckGiven(es)))
            && Decoded(ctx, p.isPrivate, BytesV(Text(o, CKA_VALUE))) == Some(BytesV(key))
            && KeyType(o) == p.keyType
            && (CheckGiven(es) != [] ==> KcvOf(ctx.token, p.keyType, []) == Some(CheckGiven(es)))
  {
    hide Header, Rest, ReadPlan, Initialised, SchemaOf, CheckValueLast, ApplyEntries, Token.Lawful, KcvOf, HasCheckValue, DraftObject, Given, PlanOf;
    var p, full := PlanOf(es), CheckValueLast(Header(PlanOf(es)) + Rest(es, false));
    var c, job := SecretKey(p.keyType), UnwrapJob(ctx, p);
    DraftedUnwrap(ctx, caller, es);
    AssembledCheck(p, es);
    if LastEntry(es, CKA_CHECK_VALUE).Some? {
      var e := full[|full| - 1];
      assert full == full[..|full| - 1] + [e];
      AcceptedCheck(ctx, p, full[..|full| - 1], e);
    }
    BlankIs(p);
    CheckStored(ctx, p, full);
    var d := UnwrapDraft(ctx, caller, es).item.attrs;
    ApplyKeepsIdentity(job, Blank(p), full);
    SameClass(Blank(p), d, c);
    KeyWritten(ctx, p.isPrivate, key, d);
    DecodesForm(ctx, p.isPrivate, key);
    DecodesForm(ctx, p.isPrivate, CheckGiven(es));
  }

  lemma CheckStored(ctx: Context, p: Plan, full: Template)
    requires (p.isPrivate ==> ctx.session.LoggedIn()) && OfClass(Blank(p), SecretKey(p.keyType))
    requires ApplyEntries(UnwrapJob(ctx, p), Blank(p), full).rv == OK
    ensures var o := ApplyEntries(UnwrapJob(ctx, p), Blank(p), full).attrs;
            BytesV(Text(o, CKA_CHECK_VALUE)) ==
              match LastEntry(full, CKA_CHECK_VALUE) case Some(x) => Form(ctx.token, p.isPrivate, x.Data()) case None => BytesV([])
  {
    hide Initialised, SchemaOf, ApplyEntries, Given, OfClass;
    UnwrapGives(ctx.token, SecretKey(p.keyType), full);
    ValueIsValue();
    AcceptedGive(UnwrapJob(ctx, p), Blank(p), SecretKey(p.keyType), full, CKA_CHECK_VALUE);
    if CKA_CHECK_VALUE in Blank(p) { BlankText(SecretKey(p.keyType), CKA_CHECK_VALUE); }
  }

  lemma KeyWritten(ctx: Context, isPrivate: bool, key: Bytes, o: Attrs)
    requires isPrivate ==> ctx.session.LoggedIn()
    ensures var o' := Unwrapped(ctx, isPrivate, key, o);
            && BytesV(Text(o', CKA_VALUE)) == Form(ctx.token, isPrivate, key)
            && Text(o', CKA_CHECK_VALUE) == Text(o, CKA_CHECK_VALUE) && KeyType(o') == KeyType(o)
  {
  }

  // ----- the result -------------------------------------------------------------------------------------------

  /** The same token with another check-value function. */
  function WithCheck(token: Token, f: (KcvKind, Bytes) -> Bytes): Token { token.(kcv := f) }

  /** Whatever the check-value function makes of keys that are not empty, the check value read belongs to
      the value read. */
  ghost predicate AlwaysTruthful(ctx: Context, isPrivate: bool, o: Attrs) {
    forall f: (KcvKind, Bytes) -> Bytes :: (forall k :: f(k, []) == ctx.token.kcv(k, [])) ==>
      ReadsTruthful(Context(WithCheck(ctx.token, f), ctx.session), isPrivate, o)
  }

  /** The check value of a secret key made by C_UnwrapKey belongs to its value, under every check-value
      function, exactly if the template gives none or the key is empty; a template that gives one must
      give that of the empty key. */
  lemma UnwrappedCheckValueExactly(w: World, ctx: Context, caller: Caller, es: Template, key: Bytes, id: Id)
    requires Sound(w) && ctx.token.Lawful() && ctx.session == caller.state
    requires PlanOf(es).objClass == CKO_SECRET_KEY && HasCheckValue(PlanOf(es).keyType)
    requires var w' := UnwrapKey(w, ctx, caller, es, Some(map[CKA_VALUE := key])).world;
             id in w'.items && id !in w.items && w'.items[id].finished
    ensures var o := UnwrapKey(w, ctx, caller, es, Some(map[CKA_VALUE := key])).world.items[id].attrs;
            && (AlwaysTruthful(ctx, PlanOf(es).isPrivate, o) <==> CheckGiven(es) == [] || key == [])
            && (CheckGiven(es) != [] ==> KcvOf(ctx.token, PlanOf(es).keyType, []) == Some(CheckGiven(es)))
  {
    hide ReadPlan, DraftObject, AlwaysTruthful, CheckGiven, MakeKey, ContributeUnwrapped, Header, Rest, Sound, HaveWrite, KcvOf, Token.Lawful;
    var p := PlanOf(es);
    MakeKeyShape(w, ctx, caller, p, es, false, Unwrap, MadeBy(Unwrap), ContributeUnwrapped(ctx, p.isPrivate, Some(map[CKA_VALUE := key])));
    DraftCheckValueExactly(ctx, caller, es, key);
    UnwrappedReads(ctx, caller, es, key);
  }

  lemma DraftCheckValueExactly(ctx: Context, caller: Caller, es: Template, key: Bytes)
    requires ctx.token.Lawful() && ctx.session == caller.state && ReadPlan(es, false, DEFAULT_PLAN).rv == OK
    requires PlanOf(es).objClass == CKO_SECRET_KEY && IsWord(PlanOf(es).keyType) && HasCheckValue(PlanOf(es).keyType)
    requires UnwrapDraft(ctx, caller, es).Complete?
    ensures var p := PlanOf(es);
            var o := Unwrapped(ctx, p.isPrivate, key, UnwrapDraft(ctx, caller, es).item.attrs);
            AlwaysTruthful(ctx, p.isPrivate, o) <==> CheckGiven(es) == [] || key == []
  {
    hide ReadPlan, DraftObject, UnwrapDraft, Unwrapped, CheckGiven, PlanOf, HasCheckValue;
    var p := PlanOf(es);
    var o := Unwrapped(ctx, p.isPrivate, key, UnwrapDraft(ctx, caller, es).item.attrs);
    UnwrappedReads(ctx, caller, es, key);
    forall f: (KcvKind, Bytes) -> Bytes | forall k :: f(k, []) == ctx.token.kcv(k, [])
      ensures ReadsTruthful(Context(WithCheck(ctx.token, f), ctx.session), p.isPrivate, o)
         <==> CheckGiven(es) == [] || KcvOf(WithCheck(ctx.token, f), p.keyType, key) == KcvOf(WithCheck(ctx.token, f), p.keyType, [])
    {
      OtherCheck(ctx, f, p.isPrivate, o, p.keyType);
    }
    var g := (k: KcvKind, x: Bytes) => if x == [] then ctx.token.kcv(k, []) else ctx.token.kcv(k, []) + [0];
    if CheckGiven(es) != [] && key != [] {
      TellsEmpty(ctx.token, g, p.keyType, key);
      assert !ReadsTruthful(Context(WithCheck(ctx.token, g), ctx.session), p.isPrivate, o);
    }
    hide KcvOf, ReadsTruthful;
  }

  /** A token whose check value is 7 for the empty key and 9 for all others. */
  function TellingToken(): Token { WithCheck(MarkingToken(0), (k: KcvKind, x: Bytes) => if x == [] then [7] else [9]) }

  /** The check value 7 is accepted for a key still to be unwrapped; the key then is the byte 1. */
  lemma UnwrappedExample()
    ensures var p := Plan(CKO_SECRET_KEY, CKK_GENERIC_SECRET, CKC_X_509, false, false);
            var ctx := Context(TellingToken(), RwUser);
            var r := UpdateEntry(UnwrapJob(ctx, p), Blank(p), Entry(CKA_CHECK_VALUE, Memory([7])));
            && ctx.token.Lawful() && r.rv == OK
            && Text(Unwrapped(ctx, false, [1], r.attrs), CKA_VALUE) == [1] && Text(Unwrapped(ctx, false, [1], r.attrs), CKA_CHECK_VALUE) == [7]
            && KcvOf(ctx.token, p.keyType, [1]) == Some([9])
  {
    hide Initialised, SchemaOf, Token.Lawful, UpdateEntry;
    MarkingIsLawful(0);
    SameCipher();
    var p := Plan(CKO_SECRET_KEY, CKK_GENERIC_SECRET, CKC_X_509, false, false);
    SevenAccepted(p);
    KeyWritten(Context(TellingToken(), RwUser), false, [1], Blank(p)[CKA_CHECK_VALUE := BytesV([7])]);
  }

  lemma SevenAccepted(p: Plan)
    requires p.keyType == CKK_GENERIC_SECRET && !p.isPrivate
    ensures var r := UpdateEntry(UnwrapJob(Context(TellingToken(), RwUser), p), Blank(p), Entry(CKA_CHECK_VALUE, Memory([7])));
            r == Outcome(Blank(p)[CKA_CHECK_VALUE := BytesV([7])], OK)
  {
    hide Initialised, SchemaOf;
    CheckDeclared(p.keyType);
    assert Decl(CKA_CHECK_VALUE, {Ck8}).Spec() == AttrSpec(None, {Ck8});
    hide BaseChecks, BaseSize;
    BlankIs(p);
    ValueIsValue();
    if CKA_VALUE in Blank(p) { BlankText(SecretKey(p.keyType), CKA_VALUE); }
    assert KindOf(CKA_CHECK_VALUE).CheckValueKind?;
    hide KindOf;
  }

  lemma SameCipher()
    requires MarkingToken(0).Lawful()
    ensures TellingToken().Lawful()
  {
  }

  /** Secret keys declare their check value with one footnote of their own. */
  predicate CheckDecls(ds: seq<Decl>) { forall i :: 0 <= i < |ds| && ds[i].t == CKA_CHECK_VALUE ==> ds[i].extra == {Ck8} }

  lemma CheckDeclsIn(k: nat)
    ensures CheckDecls(ANY_OBJECT) && CheckDecls(ANY_KEY) && CheckDecls(SECRET_KEY) && CheckDecls(SecretKeyPart(k))
  {
  }

  lemma CheckInTable(k: nat)
    ensures Declares(Table(SecretKey(k)), CKA_CHECK_VALUE)
  {
    hide SecretKeyPart;
    InTable(SecretKey(k), CKA_CHECK_VALUE, 25);
  }

  lemma CheckDeclared(k: nat)
    ensures var s := SchemaOf(SecretKey(k)); CKA_CHECK_VALUE in s && s[CKA_CHECK_VALUE] == Decl(CKA_CHECK_VALUE, {Ck8}).Spec()
  {
    hide ANY_OBJECT, ANY_KEY, SECRET_KEY, SecretKeyPart, BaseChecks, BaseSize, Declares;
    CheckInTable(k);
    CheckDeclsIn(k);
    assert CheckDecls(Table(SecretKey(k)));
    hide Table, SchemaFrom;
    SchemaSays(Table(SecretKey(k)), CKA_CHECK_VALUE);
  }

  lemma OtherCheck(ctx: Context, f: (KcvKind, Bytes) -> Bytes, isPrivate: bool, o: Attrs, keyType: nat)
    requires forall k :: f(k, []) == ctx.token.kcv(k, [])
    ensures var ctx' := Context(WithCheck(ctx.token, f), ctx.session);
            && (forall v :: Decoded(ctx', isPrivate, v) == Decoded(ctx, isPrivate, v))
            && KcvOf(ctx'.token, keyType, []) == KcvOf(ctx.token, keyType, [])
  {
  }

  lemma TellsEmpty(token: Token, g: (KcvKind, Bytes) -> Bytes, keyType: nat, key: Bytes)
    requires HasCheckValue(keyType) && key != [] && forall k, x :: g(k, x) == if x == [] then token.kcv(k, []) else token.kcv(k, []) + [0]
    ensures KcvOf(WithCheck(token, g), keyType, key) != KcvOf(WithCheck(token, g), keyType, [])
  {
  }
}
