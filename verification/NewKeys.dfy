/** The keys that C_GenerateKey, C_UnwrapKey and C_DeriveKey make: what is in them, in plain terms of bytes,
    slices and stored flags. */
module NewKeys {
  import opened Cryptoki
  import opened Attributes
  import opened ObjectClasses
  import opened AttributeLaws
  import opened ObjectStore
  import opened ObjectLaws
  import opened Runs
  import opened HalfMade
  import opened CheckValues
  import opened UnwrappedKeys
  import opened Departures
  import opened Contents

  // ----- from the template to the key ----------------------------------------------------------------------

  predicate IsHeader(t: AttrType) { t == CKA_CLASS || t == CKA_TOKEN || t == CKA_PRIVATE || t == CKA_KEY_TYPE }

  lemma {:induction false} RestEntry(es: Template, dropCheck: bool, t: AttrType)
    ensures LastEntry(Rest(es, dropCheck), t) == if IsHeader(t) || (dropCheck && t == CKA_CHECK_VALUE) then None else LastEntry(es, t)
  {
    if |es| > 0 {
      RestEntry(es[..|es| - 1], dropCheck, t);
      LastEntryOf(Rest(es[..|es| - 1], dropCheck), es[|es| - 1], t);
    }
  }

  lemma HeaderEntry(p: Plan, t: AttrType)
    ensures LastEntry(Header(p), t) ==
              if t == CKA_KEY_TYPE then Some(Memory(ToWord(p.keyType, SIZEOF_ULONG)))
              else if t == CKA_PRIVATE then Some(Memory([if p.isPrivate then 1 else 0]))
              else if t == CKA_TOKEN then Some(Memory([if p.onToken then 1 else 0]))
              else if t == CKA_CLASS then Some(Memory(ToWord(p.objClass, SIZEOF_ULONG))) else None
  {
    hide ToWord;
    var h := Header(p);
    assert h[..3] == [h[0], h[1], h[2]] && h[..3][..2] == [h[0], h[1]] && h[..3][..2][..1] == [h[0]] && h[..3][..2][..1][..0] == [];
    assert LastEntry(h[..3][..2][..1], t) == if t == CKA_CLASS then Some(h[0].p) else None;
    assert LastEntry(h[..3][..2], t) == if t == CKA_TOKEN then Some(h[1].p) else LastEntry(h[..3][..2][..1], t);
    assert LastEntry(h[..3], t) == if t == CKA_PRIVATE then Some(h[2].p) else LastEntry(h[..3][..2], t);
  }

  /** The last entries of the assembled template: the library's own four, and the caller's for all else. */
  lemma AssembledEntry(p: Plan, es: Template, dropCheck: bool, t: AttrType)
    ensures LastEntry(Header(p) + Rest(es, dropCheck), t) ==
              if IsHeader(t) then LastEntry(Header(p), t) else if dropCheck && t == CKA_CHECK_VALUE then None else LastEntry(es, t)
  {
    hide Header, Rest, ToWord;
    LastEntryJoin(Header(p), Rest(es, dropCheck), t);
    RestEntry(es, dropCheck, t);
    HeaderEntry(p, t);
  }

  /** A key-making call that succeeds has completed the drafted object, and gives out a handle to it. */
  lemma KeyMade(w: World, ctx: Context, caller: Caller, p: Plan, es: Template, dropCheck: bool, op: Op, origin: Origin,
                contribute: Attrs -> Option<Attrs>)
    requires Sound(w) && op != Copy && op != Set && MakeKey(w, ctx, caller, p, es, dropCheck, op, origin, contribute).rv == OK
    ensures var r := MakeKey(w, ctx, caller, p, es, dropCheck, op, origin, contribute);
            var d := DraftObject(ctx, caller, Header(p) + Rest(es, dropCheck), op);
            && Made(w, r) && d.Complete? && r.world.items[w.next].origin == origin
            && contribute(d.item.attrs) == Some(r.world.items[w.next].attrs)
  {
    hide DraftObject, Header, Rest, ReadPlan, Sound, CompleteKey, Enact, SoundDraft, Made;
    var full := Header(p) + Rest(es, dropCheck);
    var q := ReadPlan(full, false, DEFAULT_PLAN).plan;
    CreateDraftLaw(ctx, caller, full, op);
    var d := DraftObject(ctx, caller, full, op);
    DraftGoes(w, caller, d, q.onToken, q.isPrivate);
    EnactMade(w, caller, d, q.onToken, q.isPrivate);
    CompleteMade(w, CreateObject(w, ctx, caller, full, op), origin, contribute);
  }

  lemma CompleteMade(w: World, made: Reply, origin: Origin, contribute: Attrs -> Option<Attrs>)
    requires Made(w, made) && CompleteKey(made, origin, contribute).rv == OK
    ensures var r := CompleteKey(made, origin, contribute);
            && Made(w, r) && r.world.items[w.next].origin == origin
            && contribute(made.world.items[w.next].attrs) == Some(r.world.items[w.next].attrs)
  {
  }

  /** The four attributes that the library settles itself. */
  predicate Settled(o: Attrs, objClass: nat, keyType: nat, onToken: bool, isPrivate: bool) {
    && CKA_CLASS in o && o[CKA_CLASS] == NumberV(objClass) && CKA_KEY_TYPE in o && o[CKA_KEY_TYPE] == NumberV(keyType)
    && CKA_TOKEN in o && o[CKA_TOKEN] == BoolV(onToken) && CKA_PRIVATE in o && o[CKA_PRIVATE] == BoolV(isPrivate)
  }

  /** The drafted key shows what the caller's template names, and the library's own four. */
  lemma DraftedKeyShows(ctx: Context, caller: Caller, p: Plan, es: Template, dropCheck: bool, op: Op)
    requires ctx.token.Lawful() && op != Copy && op != Set && IsWord(p.objClass) && IsWord(p.keyType)
    requires p.objClass == CKO_SECRET_KEY || p.objClass == CKO_PRIVATE_KEY
    requires DraftObject(ctx, caller, Header(p) + Rest(es, dropCheck), op).Complete?
    ensures var o := DraftObject(ctx, caller, Header(p) + Rest(es, dropCheck), op).item.attrs;
            && IsPrivate(o) == p.isPrivate && Settled(o, p.objClass, p.keyType, p.onToken, p.isPrivate) && HealthyKey(o) && HaveWrite(caller.state, p.onToken, p.isPrivate) == OK
            && forall t :: LastEntry(es, t).Some? && !IsHeader(t) && !(dropCheck && t == CKA_CHECK_VALUE) && !Maintained(t) ==>
                 Shows(ctx, p.isPrivate, o, t, LastEntry(es, t).value.Data()) && t != CKA_LOCAL && t != CKA_KEY_GEN_MECHANISM
  {
    hide Shows, Token.Lawful, DraftObject, Header, Rest, ReadPlan, Maintained, IsPrivate, IsOnToken, Healthy, StoredClass, HaveWrite, HealthyKey, ClassOf, Placed;
    var full := Header(p) + Rest(es, dropCheck);
    CreateDraftLaw(ctx, caller, full, op);
    AssembledPlan(p, es, dropCheck);
    var o := DraftObject(ctx, caller, full, op).item.attrs;
    MadeHasClaims(o, ReadPlan(full, false, DEFAULT_PLAN).plan);
    forall t | LastEntry(es, t).Some? && !IsHeader(t) && !(dropCheck && t == CKA_CHECK_VALUE) && !Maintained(t)
      ensures Shows(ctx, p.isPrivate, o, t, LastEntry(es, t).value.Data()) && t != CKA_LOCAL && t != CKA_KEY_GEN_MECHANISM
    {
      AssembledEntry(p, es, dropCheck, t);
      DraftShows(ctx, caller, full, op, t);
    }
    forall t | IsHeader(t) ensures LastEntry(full, t) == LastEntry(Header(p), t) && (LastEntry(full, t).Some? ==> Shows(ctx, p.isPrivate, o, t, LastEntry(full, t).value.Data())) {
      AssembledEntry(p, es, dropCheck, t);
      assert !Maintained(t) by { HeaderNotMaintained(t); }
      if LastEntry(full, t).Some? { DraftShows(ctx, caller, full, op, t); }
    }
    KeyIsTyped(o);
    HeaderShown(ctx, p, o);
  }

  lemma KeyIsTyped(o: Attrs)
    requires HealthyKey(o)
    ensures WellTyped(o)
  {
  }

  lemma HeaderNotMaintained(t: AttrType)
    requires IsHeader(t)
    ensures !Maintained(t)
  {
  }

  lemma HeaderShown(ctx: Context, p: Plan, o: Attrs)
    requires IsWord(p.objClass) && IsWord(p.keyType) && WellTyped(o)
    requires forall t :: IsHeader(t) && LastEntry(Header(p), t).Some? ==> Shows(ctx, p.isPrivate, o, t, LastEntry(Header(p), t).value.Data())
    ensures Settled(o, p.objClass, p.keyType, p.onToken, p.isPrivate)
  {
    hide Header, ToWord, KindOf, Shows;
    HeaderEntry(p, CKA_CLASS);
    HeaderEntry(p, CKA_TOKEN);
    HeaderEntry(p, CKA_PRIVATE);
    HeaderEntry(p, CKA_KEY_TYPE);
    HeaderKinds();
    NumberShown(ctx, p.isPrivate, o, CKA_CLASS, p.objClass);
    NumberShown(ctx, p.isPrivate, o, CKA_KEY_TYPE, p.keyType);
    FlagShown(ctx, p.isPrivate, o, CKA_TOKEN, p.onToken);
    FlagShown(ctx, p.isPrivate, o, CKA_PRIVATE, p.isPrivate);
  }

  lemma HeaderKinds()
    ensures KindOf(CKA_CLASS).IsNumber() && KindOf(CKA_KEY_TYPE).IsNumber() && KindOf(CKA_TOKEN).IsFlag() && KindOf(CKA_PRIVATE).IsFlag()
    ensures forall v, t :: KindOf(t).IsNumber() && KindOf(t).Admits(v) ==> v.NumberV?
    ensures forall v, t :: KindOf(t).IsFlag() && KindOf(t).Admits(v) ==> v.BoolV?
  {
  }

  lemma NumberShown(ctx: Context, isPrivate: bool, o: Attrs, t: AttrType, n: nat)
    requires IsWord(n) && Shows(ctx, isPrivate, o, t, ToWord(n, SIZEOF_ULONG)) && (t in o ==> o[t].NumberV?)
    ensures t in o && o[t] == NumberV(n)
  {
    ToWordFromWord(n, SIZEOF_ULONG);
  }

  lemma FlagShown(ctx: Context, isPrivate: bool, o: Attrs, t: AttrType, b: bool)
    requires Shows(ctx, isPrivate, o, t, [if b then 1 else 0]) && (t in o ==> o[t].BoolV?)
    ensures t in o && o[t] == BoolV(b)
  {
  }

  // ----- what is contributed ----------------------------------------------------------------------------------

  lemma StoreShows(ctx: Context, isPrivate: bool, o: Attrs, t: AttrType, x: Bytes)
    requires ctx.token.Lawful() && (isPrivate ==> ctx.session.LoggedIn()) && t in o && o[t] == Store(ctx, isPrivate, x) && !IsDateType(t)
    ensures Shows(ctx, isPrivate, o, t, x)
  {
    assert ctx.token.plain(ctx.token.cipher(x)) == Some(x);
  }

  predicate IsDateType(t: AttrType) { t == CKA_START_DATE || t == CKA_END_DATE }

  lemma StoredKeyShows(ctx: Context, isPrivate: bool, o: Attrs, key: Bytes, kcv: Option<Bytes>)
    requires ctx.token.Lawful() && (isPrivate ==> ctx.session.LoggedIn())
    ensures var o' := StoreKey(ctx, isPrivate, o, key, kcv);
            && Shows(ctx, isPrivate, o', CKA_VALUE, key) && (kcv.Some? ==> Shows(ctx, isPrivate, o', CKA_CHECK_VALUE, kcv.value))
            && (forall t :: t != CKA_VALUE && (kcv.Some? ==> t != CKA_CHECK_VALUE) ==> SameAt(o, o', t))
  {
    hide Shows, Store, Token.Lawful;
    var o' := StoreKey(ctx, isPrivate, o, key, kcv);
    StoreShows(ctx, isPrivate, o', CKA_VALUE, key);
    if kcv.Some? { StoreShows(ctx, isPrivate, o', CKA_CHECK_VALUE, kcv.value); }
  }

  /** What a template asks of the length and the check value of a key. */
  lemma {:induction false} WishIs(es: Template, forbidValue: bool)
    requires ReadWish(es, forbidValue).rv == OK
    ensures var wish := ReadWish(es, forbidValue);
            && (match LastEntry(es, CKA_VALUE_LEN) case Some(p) => p.Length() == SIZEOF_ULONG && wish.len == FromWord(p.Data()) case None => wish.len == 0)
            && (wish.checkValue <==> LastEntry(es, CKA_CHECK_VALUE).None?)
            && (forbidValue ==> LastEntry(es, CKA_VALUE).None?)
  {
    hide FromWord;
    if |es| > 0 { WishIs(es[..|es| - 1], forbidValue); }
  }

  lemma {:induction false} CheckWishIs(es: Template, len: nat)
    requires ReadCheckWish(es, len).rv == OK
    ensures ReadCheckWish(es, len).len == len && (ReadCheckWish(es, len).checkValue <==> LastEntry(es, CKA_CHECK_VALUE).None?)
  {
    if |es| > 0 { CheckWishIs(es[..|es| - 1], len); }
  }

  // ----- generation -----------------------------------------------------------------------------------------------

  /** The length of a key to be generated: that of the key type for DES, what the template asks for otherwise. */
  predicate GeneratedLength(keyType: nat, es: Template, len: nat) {
    if keyType == CKK_DES then len == 8 else if keyType == CKK_DES2 then len == 16 else if keyType == CKK_DES3 then len == 24
    else
      && LastEntry(es, CKA_VALUE_LEN).Some? && len == FromWord(LastEntry(es, CKA_VALUE_LEN).value.Data())
      && len > 0 && (keyType == CKK_AES ==> len in {16, 24, 32})
  }

  /** A generated key says that it was generated here, and how, and takes its claims from its flags. */
  predicate SaysGenerated(o: Attrs, keyType: nat) {
    && CKA_LOCAL in o && o[CKA_LOCAL] == BoolV(true)
    && CKA_KEY_GEN_MECHANISM in o
    && o[CKA_KEY_GEN_MECHANISM] == NumberV(if keyType == CKK_AES then 0x1080 else if keyType == CKK_DES then 0x120
                                           else if keyType == CKK_DES2 then 0x130 else if keyType == CKK_DES3 then 0x131 else 0x350)
    && CKA_SENSITIVE in o && CKA_ALWAYS_SENSITIVE in o && o[CKA_ALWAYS_SENSITIVE] == o[CKA_SENSITIVE]
    && CKA_EXTRACTABLE in o && o[CKA_EXTRACTABLE].BoolV? && CKA_NEVER_EXTRACTABLE in o && o[CKA_NEVER_EXTRACTABLE] == BoolV(!o[CKA_EXTRACTABLE].b)
  }

  function CheckKind(keyType: nat): KcvKind {
    if keyType == CKK_AES then AesKcv else if IsDesKeyType(keyType) then DesKcv else GenericKcv
  }

  /** The new key shows this check value unless the template names one, which can only be the empty one. */
  predicate ShowsCheck(ctx: Context, isPrivate: bool, o: Attrs, es: Template, check: Bytes) {
    Shows(ctx, isPrivate, o, CKA_CHECK_VALUE, if LastEntry(es, CKA_CHECK_VALUE).None? then check else [])
  }

  /** The key shows what the template names; attributes that the library itself contributes are not asked about. */
  ghost predicate ShowsRest(ctx: Context, isPrivate: bool, o: Attrs, es: Template, except: set<AttrType>) {
    forall t :: LastEntry(es, t).Some? && !IsHeader(t) && !Maintained(t) && t != CKA_CHECK_VALUE && t !in except ==>
      Shows(ctx, isPrivate, o, t, LastEntry(es, t).value.Data())
  }

  lemma GeneratedClaimsSay(mechanism: nat, o: Attrs)
    requires HealthyKey(o)
    ensures var o' := GeneratedClaims(mechanism, o);
            && CKA_LOCAL in o' && o'[CKA_LOCAL] == BoolV(true) && CKA_KEY_GEN_MECHANISM in o' && o'[CKA_KEY_GEN_MECHANISM] == NumberV(mechanism)
            && CKA_SENSITIVE in o' && CKA_ALWAYS_SENSITIVE in o' && o'[CKA_ALWAYS_SENSITIVE] == o'[CKA_SENSITIVE]
            && CKA_EXTRACTABLE in o' && o'[CKA_EXTRACTABLE].BoolV? && CKA_NEVER_EXTRACTABLE in o'
            && o'[CKA_NEVER_EXTRACTABLE] == BoolV(!o'[CKA_EXTRACTABLE].b)
            && forall t :: t != CKA_LOCAL && t != CKA_KEY_GEN_MECHANISM && t != CKA_ALWAYS_SENSITIVE && t != CKA_NEVER_EXTRACTABLE ==> SameAt(o, o', t)
  {
    hide KindOf, Table, Declares, StoredClass;
    ClaimsPresent(o);
  }

  /** C_GenerateKey: the value of the new key is the generator's output of the length asked for, its check
      value belongs to it, and everything else is as the template and the flags say. */
  lemma GeneratedKey(w: World, ctx: Context, caller: Caller, keyType: nat, es: Template, random: nat -> Bytes) returns (len: nat)
    requires Sound(w) && ctx.token.Lawful() && ctx.session == caller.state && GenerateKey(w, ctx, caller, keyType, es, random).rv == OK
    ensures var r := GenerateKey(w, ctx, caller, keyType, es, random);
            && Made(w, r)
            && var o, isPrivate := r.world.items[w.next].attrs, LastFlag(es, CKA_PRIVATE, true);
               && Settled(o, CKO_SECRET_KEY, keyType, LastFlag(es, CKA_TOKEN, false), isPrivate)
               && GeneratedLength(keyType, es, len) && Shows(ctx, isPrivate, o, CKA_VALUE, random(len))
               && SaysGenerated(o, keyType) && ShowsCheck(ctx, isPrivate, o, es, ctx.token.kcv(CheckKind(keyType), random(len)))
               && ShowsRest(ctx, isPrivate, o, es, {CKA_VALUE})
  {
    hide Sound, ReadPlan, SecretWish, MakeKey, DraftObject, Header, Rest, HaveWrite, Made, Token.Lawful, HealthyKey, KcvOf, GeneratedClaims, StoreKey, Shows, ShowsRest, LastFlag, Settled, SaysGenerated, ShowsCheck;
    var p := ReadPlan(es, true, DEFAULT_PLAN.(objClass := CKO_SECRET_KEY, keyType := keyType)).plan;
    PlanIs(es, keyType);
    var wish := SecretWish(keyType, es);
    len := wish.len;
    var mechanism, key := MechanismFor(keyType), random(len);
    GeneratedWish(keyType, es);
    var f := ContributeGenerated(ctx, p.isPrivate, mechanism, keyType, key, wish.checkValue);
    KeyMade(w, ctx, caller, p, es, true, Generate, MadeBy(Generate), f);
    var o := DraftObject(ctx, caller, Header(p) + Rest(es, true), Generate).item.attrs;
    WordPlan(keyType);
    DraftedKeyShows(ctx, caller, p, es, true, Generate);
    if p.isPrivate { WriterIsLoggedIn(caller.state, p.onToken, p.isPrivate); }
    DraftedCheck(ctx, caller, p, es, Generate);
    CompletedGeneration(ctx, p, keyType, es, key, wish.checkValue, o);
  }

  lemma PlanIs(es: Template, keyType: nat)
    ensures var p := ReadPlan(es, true, DEFAULT_PLAN.(objClass := CKO_SECRET_KEY, keyType := keyType)).plan;
            p.onToken == LastFlag(es, CKA_TOKEN, false) && p.isPrivate == LastFlag(es, CKA_PRIVATE, true)
  {
    hide LastSized;
  }

  lemma WordPlan(keyType: nat)
    requires Generates(keyType)
    ensures IsWord(keyType) && IsWord(CKO_SECRET_KEY) && IsWord(CKO_PRIVATE_KEY)
  {
  }

  lemma GeneratedWish(keyType: nat, es: Template)
    requires Generates(keyType) && SecretWish(keyType, es).rv == OK && SecretWish(keyType, es).len != 0 && LengthAllowed(keyType, SecretWish(keyType, es).len)
    ensures GeneratedLength(keyType, es, SecretWish(keyType, es).len)
    ensures SecretWish(keyType, es).checkValue <==> LastEntry(es, CKA_CHECK_VALUE).None?
  {
    hide FromWord, ReadWish, ReadCheckWish, LastEntry;
    if IsDesKeyType(keyType) { CheckWishIs(es, DesLength(keyType)); } else { WishIs(es, false); }
  }

  /** Before the library writes it, the check value of a key that is generated or derived is empty. */
  lemma DraftedCheck(ctx: Context, caller: Caller, p: Plan, es: Template, op: Op)
    requires op.Generate? || (op.Derive? && LastEntry(es, CKA_VALUE).None?)
    requires p.objClass == CKO_SECRET_KEY && IsWord(p.keyType) && Generates(p.keyType)
    requires DraftObject(ctx, caller, Header(p) + Rest(es, true), op).Complete?
    ensures var o := DraftObject(ctx, caller, Header(p) + Rest(es, true), op).item.attrs;
            CKA_CHECK_VALUE in o && o[CKA_CHECK_VALUE] == BytesV([])
  {
    hide DraftObject, Header, Rest, ReadPlan, StoredClass, Healthy, NamesNoCheck, LastEntry, ClassOf;
    var full := Header(p) + Rest(es, true);
    AssembledPlan(p, es, true);
    AssembledWithoutCheck(p, es);
    SecretPlanned(p, ReadPlan(full, false, DEFAULT_PLAN).plan.certType);
    if op.Derive? { NoneInFull(p, es); }
    DraftWithoutCheck(ctx, caller, full, p.keyType, op);
    CreateDraftLaw(ctx, caller, full, op);
    CheckPresent(DraftObject(ctx, caller, full, op).item.attrs, p.keyType);
  }

  lemma SecretPlanned(p: Plan, certType: nat)
    requires p.objClass == CKO_SECRET_KEY && Generates(p.keyType)
    ensures ClassOf(p.objClass, p.keyType, certType) == Some(SecretKey(p.keyType))
  {
  }

  lemma NoneInFull(p: Plan, es: Template)
    requires LastEntry(es, CKA_VALUE).None?
    ensures forall e :: e in Header(p) + Rest(es, true) ==> e.t != CKA_VALUE
  {
    hide Rest, LastEntry;
    var full := Header(p) + Rest(es, true);
    AssembledEntry(p, es, true, CKA_VALUE);
    forall e | e in full ensures e.t != CKA_VALUE {
      if e.t == CKA_VALUE { SomeIsLast(full, e); }
    }
  }

  lemma CheckPresent(o: Attrs, k: nat)
    requires Healthy(o) && StoredClass(o) == Some(SecretKey(k)) && Text(o, CKA_CHECK_VALUE) == []
    ensures CKA_CHECK_VALUE in o && o[CKA_CHECK_VALUE] == BytesV([])
  {
    hide Table, StoredClass, Declares;
    CheckInTable(k);
    ValueIsValue();
  }

  lemma CompletedGeneration(ctx: Context, p: Plan, keyType: nat, es: Template, key: Bytes, checkValue: bool, o: Attrs)
    requires ctx.token.Lawful() && (p.isPrivate ==> ctx.session.LoggedIn()) && Generates(keyType)
    requires checkValue <==> LastEntry(es, CKA_CHECK_VALUE).None?
    requires HealthyKey(o) && Settled(o, p.objClass, p.keyType, p.onToken, p.isPrivate) && CKA_CHECK_VALUE in o && o[CKA_CHECK_VALUE] == BytesV([])
    requires forall t :: LastEntry(es, t).Some? && !IsHeader(t) && t != CKA_CHECK_VALUE && !Maintained(t) ==>
               Shows(ctx, p.isPrivate, o, t, LastEntry(es, t).value.Data()) && t != CKA_LOCAL && t != CKA_KEY_GEN_MECHANISM
    ensures var r := ContributeGenerated(ctx, p.isPrivate, MechanismFor(keyType), keyType, key, checkValue)(o);
            && r.Some? && Settled(r.value, p.objClass, p.keyType, p.onToken, p.isPrivate) && Shows(ctx, p.isPrivate, r.value, CKA_VALUE, key) && SaysGenerated(r.value, keyType)
            && ShowsCheck(ctx, p.isPrivate, r.value, es, ctx.token.kcv(CheckKind(keyType), key))
            && ShowsRest(ctx, p.isPrivate, r.value, es, {CKA_VALUE})
  {
    hide Shows, Token.Lawful, HealthyKey, StoreKey, GeneratedClaims, LastEntry, Maintained;
    var o1 := GeneratedClaims(MechanismFor(keyType), o);
    GeneratedClaimsSay(MechanismFor(keyType), o);
    var kcv := if checkValue then KcvOf(ctx.token, keyType, key) else None;
    assert checkValue ==> kcv == Some(ctx.token.kcv(CheckKind(keyType), key));
    hide KcvOf, CheckKind;
    StoredKeyShows(ctx, p.isPrivate, o1, key, kcv);
    var o2 := StoreKey(ctx, p.isPrivate, o1, key, kcv);
    forall t | t != CKA_LOCAL && t != CKA_KEY_GEN_MECHANISM && t != CKA_ALWAYS_SENSITIVE && t != CKA_NEVER_EXTRACTABLE && t != CKA_VALUE && (checkValue ==> t != CKA_CHECK_VALUE)
      ensures SameAt(o, o2, t)
    {
      assert SameAt(o, o1, t) && SameAt(o1, o2, t);
    }
    assert SameAt(o, o2, CKA_CLASS) && SameAt(o, o2, CKA_KEY_TYPE) && SameAt(o, o2, CKA_TOKEN) && SameAt(o, o2, CKA_PRIVATE);
    assert SameAt(o1, o2, CKA_LOCAL) && SameAt(o1, o2, CKA_KEY_GEN_MECHANISM) && SameAt(o1, o2, CKA_SENSITIVE) && SameAt(o1, o2, CKA_EXTRACTABLE);
    assert SameAt(o1, o2, CKA_ALWAYS_SENSITIVE) && SameAt(o1, o2, CKA_NEVER_EXTRACTABLE);
    if !checkValue {
      assert SameAt(o, o2, CKA_CHECK_VALUE);
      EmptyShows(ctx, p.isPrivate, o2);
    }
    forall t | LastEntry(es, t).Some? && !IsHeader(t) && t != CKA_CHECK_VALUE && !Maintained(t) && t != CKA_VALUE
      ensures Shows(ctx, p.isPrivate, o2, t, LastEntry(es, t).value.Data())
    {
      assert t != CKA_ALWAYS_SENSITIVE && t != CKA_NEVER_EXTRACTABLE by { ClaimsMaintained(); }
      assert SameAt(o, o2, t);
      StillShows(ctx, p.isPrivate, o, o2, t, LastEntry(es, t).value.Data());
    }
  }

  lemma ClaimsMaintained()
    ensures Maintained(CKA_ALWAYS_SENSITIVE) && Maintained(CKA_NEVER_EXTRACTABLE)
  {
  }

  lemma EmptyShows(ctx: Context, isPrivate: bool, o: Attrs)
    requires CKA_CHECK_VALUE in o && o[CKA_CHECK_VALUE] == BytesV([])
    ensures Shows(ctx, isPrivate, o, CKA_CHECK_VALUE, [])
  {
  }

  // ----- unwrapping -----------------------------------------------------------------------------------------------

  /** C_UnwrapKey: the new key holds every part of the key that was wrapped, is of the class and type and in the
      place that the template names, and claims nothing about its past. */
  lemma UnwrappedKey(w: World, ctx: Context, caller: Caller, es: Template, parts: Option<KeyParts>)
    requires Sound(w) && ctx.token.Lawful() && ctx.session == caller.state && UnwrapKey(w, ctx, caller, es, parts).rv == OK
    ensures var r := UnwrapKey(w, ctx, caller, es, parts);
            && Made(w, r) && parts.Some?
            && var o, isPrivate := r.world.items[w.next].attrs, LastFlag(es, CKA_PRIVATE, true);
               && Settled(o, LastNumber(es, CKA_CLASS, CKO_DATA), LastNumber(es, CKA_KEY_TYPE, CKK_RSA), LastFlag(es, CKA_TOKEN, false), isPrivate)
               && (forall t :: t in parts.value ==> Shows(ctx, isPrivate, o, t, parts.value[t]))
               && CKA_LOCAL in o && o[CKA_LOCAL] == BoolV(false)
               && CKA_ALWAYS_SENSITIVE in o && o[CKA_ALWAYS_SENSITIVE] == BoolV(false)
               && CKA_NEVER_EXTRACTABLE in o && o[CKA_NEVER_EXTRACTABLE] == BoolV(false)
               && ShowsRest(ctx, isPrivate, o, es, parts.value.Keys)
               && (LastEntry(es, CKA_CHECK_VALUE).Some? ==> Shows(ctx, isPrivate, o, CKA_CHECK_VALUE, LastEntry(es, CKA_CHECK_VALUE).value.Data()))
  {
    hide Sound, ReadPlan, MakeKey, DraftObject, Header, Rest, HaveWrite, Made, Token.Lawful, HealthyKey, Shows, ShowsRest, LastFlag, LastNumber, Settled, ContributeUnwrapped, LastEntry, Maintained, IsHeader;
    var p := ReadPlan(es, false, DEFAULT_PLAN).plan;
    KeyPlanIs(es);
    PlanWords(es, false, DEFAULT_PLAN);
    var f := ContributeUnwrapped(ctx, p.isPrivate, parts);
    KeyMade(w, ctx, caller, p, es, false, Unwrap, MadeBy(Unwrap), f);
    var o := DraftObject(ctx, caller, Header(p) + Rest(es, false), Unwrap).item.attrs;
    DraftedKeyShows(ctx, caller, p, es, false, Unwrap);
    if p.isPrivate { WriterIsLoggedIn(caller.state, p.onToken, p.isPrivate); }
    UnwrappedSome(ctx, p.isPrivate, parts, o);
    UnwrapContributes(ctx, p.isPrivate, parts.value, o);
    CompletedUnwrapping(ctx, p, es, parts.value.Keys, o, f(o).value);
  }

  lemma KeyPlanIs(es: Template)
    ensures var p := ReadPlan(es, false, DEFAULT_PLAN).plan;
            && p.objClass == LastNumber(es, CKA_CLASS, CKO_DATA) && p.keyType == LastNumber(es, CKA_KEY_TYPE, CKK_RSA)
            && p.onToken == LastFlag(es, CKA_TOKEN, false)
            && (p.objClass == CKO_SECRET_KEY || p.objClass == CKO_PRIVATE_KEY ==> p.isPrivate == LastFlag(es, CKA_PRIVATE, true))
  {
    hide LastSized;
  }

  lemma PartsAreParts(parts: KeyParts, t: AttrType)
    requires t in parts
    ensures !IsHeader(t) && !IsDateType(t) && t != CKA_LOCAL && t != CKA_ALWAYS_SENSITIVE && t != CKA_NEVER_EXTRACTABLE && t != CKA_CHECK_VALUE
  {
  }

  lemma UnwrapContributes(ctx: Context, isPrivate: bool, parts: KeyParts, o: Attrs)
    requires ctx.token.Lawful() && (isPrivate ==> ctx.session.LoggedIn())
    ensures var r := ContributeUnwrapped(ctx, isPrivate, Some(parts))(o);
            && r.Some?
            && (forall t :: t in parts ==> Shows(ctx, isPrivate, r.value, t, parts[t]))
            && CKA_LOCAL in r.value && r.value[CKA_LOCAL] == BoolV(false)
            && CKA_ALWAYS_SENSITIVE in r.value && r.value[CKA_ALWAYS_SENSITIVE] == BoolV(false)
            && CKA_NEVER_EXTRACTABLE in r.value && r.value[CKA_NEVER_EXTRACTABLE] == BoolV(false)
            && forall t :: (t !in parts && t != CKA_LOCAL && t != CKA_ALWAYS_SENSITIVE && t != CKA_NEVER_EXTRACTABLE) ==> SameAt(o, r.value, t)
    ensures forall t :: t in parts ==> !IsHeader(t) && t != CKA_CHECK_VALUE
  {
    hide Shows, Store, Token.Lawful, IsHeader;
    var o1 := ContributeUnwrapped(ctx, isPrivate, Some(parts))(o).value;
    forall t | t in parts
      ensures Shows(ctx, isPrivate, o1, t, parts[t]) && !IsHeader(t) && t != CKA_CHECK_VALUE
      ensures t != CKA_LOCAL && t != CKA_ALWAYS_SENSITIVE && t != CKA_NEVER_EXTRACTABLE
    {
      PartsAreParts(parts, t);
      StoreShows(ctx, isPrivate, o1, t, parts[t]);
    }
  }

  lemma CompletedUnwrapping(ctx: Context, p: Plan, es: Template, gone: set<AttrType>, o: Attrs, o': Attrs)
    requires forall t :: (t !in gone && t != CKA_LOCAL && t != CKA_ALWAYS_SENSITIVE && t != CKA_NEVER_EXTRACTABLE) ==> SameAt(o, o', t)
    requires forall t :: t in gone ==> !IsHeader(t) && t != CKA_CHECK_VALUE
    requires Settled(o, p.objClass, p.keyType, p.onToken, p.isPrivate)
    requires forall t :: LastEntry(es, t).Some? && !IsHeader(t) && !Maintained(t) ==> Shows(ctx, p.isPrivate, o, t, LastEntry(es, t).value.Data()) && t != CKA_LOCAL
    ensures Settled(o', p.objClass, p.keyType, p.onToken, p.isPrivate) && ShowsRest(ctx, p.isPrivate, o', es, gone)
    ensures LastEntry(es, CKA_CHECK_VALUE).Some? ==> Shows(ctx, p.isPrivate, o', CKA_CHECK_VALUE, LastEntry(es, CKA_CHECK_VALUE).value.Data())
  {
    hide Shows, LastEntry, Maintained, IsHeader, Settled, ShowsRest;
    HeadersAre();
    assert SameAt(o, o', CKA_CLASS) && SameAt(o, o', CKA_KEY_TYPE) && SameAt(o, o', CKA_TOKEN) && SameAt(o, o', CKA_PRIVATE);
    StillSettled(o, o', p.objClass, p.keyType, p.onToken, p.isPrivate);
    assert SameAt(o, o', CKA_CHECK_VALUE);
    if LastEntry(es, CKA_CHECK_VALUE).Some? { StillShows(ctx, p.isPrivate, o, o', CKA_CHECK_VALUE, LastEntry(es, CKA_CHECK_VALUE).value.Data()); }
    RestStillShows(ctx, p.isPrivate, o, o', es, gone);
  }

  lemma StillSettled(o: Attrs, o': Attrs, objClass: nat, keyType: nat, onToken: bool, isPrivate: bool)
    requires SameAt(o, o', CKA_CLASS) && SameAt(o, o', CKA_KEY_TYPE) && SameAt(o, o', CKA_TOKEN) && SameAt(o, o', CKA_PRIVATE)
    requires Settled(o, objClass, keyType, onToken, isPrivate)
    ensures Settled(o', objClass, keyType, onToken, isPrivate)
  {
  }

  lemma RestStillShows(ctx: Context, isPrivate: bool, o: Attrs, o': Attrs, es: Template, gone: set<AttrType>)
    requires forall t :: (t !in gone && t != CKA_LOCAL && t != CKA_ALWAYS_SENSITIVE && t != CKA_NEVER_EXTRACTABLE) ==> SameAt(o, o', t)
    requires forall t :: LastEntry(es, t).Some? && !IsHeader(t) && !Maintained(t) ==> Shows(ctx, isPrivate, o, t, LastEntry(es, t).value.Data()) && t != CKA_LOCAL
    ensures ShowsRest(ctx, isPrivate, o', es, gone)
  {
    hide Shows, LastEntry, Maintained, IsHeader;
    ClaimsMaintained();
    forall t | LastEntry(es, t).Some? && !IsHeader(t) && !Maintained(t) && t != CKA_CHECK_VALUE && t !in gone
      ensures Shows(ctx, isPrivate, o', t, LastEntry(es, t).value.Data())
    {
      assert SameAt(o, o', t);
      StillShows(ctx, isPrivate, o, o', t, LastEntry(es, t).value.Data());
    }
  }

  lemma HeadersAre()
    ensures IsHeader(CKA_CLASS) && IsHeader(CKA_KEY_TYPE) && IsHeader(CKA_TOKEN) && IsHeader(CKA_PRIVATE)
    ensures !IsHeader(CKA_CHECK_VALUE) && !Maintained(CKA_CHECK_VALUE)
  {
  }

  // ----- derivation -------------------------------------------------------------------------------------------------

  /** The key material of a stored object: its decrypted CKA_VALUE, nothing if it has none. */
  predicate HasMaterial(ctx: Context, o: Attrs, k: Bytes) {
    if CKA_VALUE in o then Shows(ctx, IsPrivate(o), o, CKA_VALUE, k) else k == []
  }

  lemma ReadMaterial(ctx: Context, it: Item, id: Id, default: bool)
    requires ctx.token.Lawful() && SoundItem(it, id) && Material(ctx, it.attrs, default).Some?
    ensures HasMaterial(ctx, it.attrs, Material(ctx, it.attrs, default).value)
  {
    hide Table, Declares, StoredClass;
    EveryObjectHas(StoredClass(it.attrs).value);
    assert KindOf(CKA_PRIVATE).IsFlag() && KindOf(CKA_VALUE).ValueKind?;
    hide KindOf;
    assert CKA_PRIVATE in it.attrs && it.attrs[CKA_PRIVATE].BoolV?;
    assert CKA_VALUE in it.attrs ==> it.attrs[CKA_VALUE].BytesV?;
  }

  /** The material in the order of the mechanism. */
  predicate IsSecret(d: Derivation, first: Bytes, second: Bytes, secret: Bytes) {
    match d
    case Agreement(s) => secret == s
    case EncryptData(s) => secret == s
    case ConcatData(data, dataFirst) => secret == if dataFirst then data + first else first + data
    case ConcatKey(_) => secret == first + second
  }

  /** How many bytes the derived key has: what the template asks for, where the key type leaves a choice;
      concatenations need not be asked and then take everything. */
  predicate DerivedBytes(d: Derivation, keyType: nat, es: Template, total: nat, len: nat) {
    var asked := LastEntry(es, CKA_VALUE_LEN).Some? && FromWord(LastEntry(es, CKA_VALUE_LEN).value.Data()) != 0;
    && len <= total
    && (keyType == CKK_DES ==> len == 8) && (keyType == CKK_DES2 ==> len == 16) && (keyType == CKK_DES3 ==> len == 24)
    && (keyType == CKK_AES ==> len in {16, 24, 32})
    && (if asked then !IsDesKeyType(keyType) && len == FromWord(LastEntry(es, CKA_VALUE_LEN).value.Data())
        else if d.ConcatData? || d.ConcatKey? then len == total
        else IsDesKeyType(keyType))
  }

  /** Agreements keep the last bytes of the secret, all others the first; DES keys get their parity. */
  predicate IsCut(d: Derivation, keyType: nat, parity: byte -> byte, secret: Bytes, key: Bytes)
    requires |key| <= |secret|
  {
    var cut := if d.Agreement? then secret[|secret| - |key|..] else secret[..|key|];
    if keyType in {CKK_DES, CKK_DES2, CKK_DES3} then forall i :: 0 <= i < |key| ==> key[i] == parity(cut[i]) else key == cut
  }

  /** The key type that a derivation is asked for. */
  function DerivedType(d: Derivation, es: Template): nat {
    LastNumber(es, CKA_KEY_TYPE, if d.ConcatData? || d.ConcatKey? then CKK_GENERIC_SECRET else CKK_RSA)
  }

  predicate Asks(es: Template, t: AttrType) {
    LastEntry(es, t).Some? && LastEntry(es, t).value.Data() != [] && LastEntry(es, t).value.Data()[0] != 0
  }

  /** A concatenation is sensitive if the template or a key of it says so, and extractable if the template and
      all its keys say so; of data and a key, the key. Other derived keys are as the template says. */
  predicate Inherits(d: Derivation, base: Attrs, other: Attrs, es: Template, o: Attrs) {
    && CKA_SENSITIVE in o && CKA_EXTRACTABLE in o
    && o[CKA_SENSITIVE] == BoolV(Asks(es, CKA_SENSITIVE) || ((d.ConcatData? || d.ConcatKey?) && Sensitive(base)) || (d.ConcatKey? && Flag(other, CKA_SENSITIVE, true)))
    && o[CKA_EXTRACTABLE] == BoolV(Asks(es, CKA_EXTRACTABLE) && ((d.ConcatData? || d.ConcatKey?) ==> Extractable(base)) && (d.ConcatKey? ==> Extractable(other)))
  }

  /** C_DeriveKey: the value of the new key is the secret, joined from the stored keys in the order of the
      mechanism, cut to length at the right end, with DES parity. */
  lemma DerivedKeyIs(w: World, ctx: Context, caller: Caller, h: Handle, d: Derivation, es: Template, parity: byte -> byte)
    returns (first: Bytes, second: Bytes, secret: Bytes, key: Bytes)
    requires Sound(w) && ctx.token.Lawful() && ctx.session == caller.state && DeriveKey(w, ctx, caller, h, d, es, parity).rv == OK
    ensures h in w.handles && w.handles[h].target in w.items
    ensures d.ConcatData? || d.ConcatKey? ==> HasMaterial(ctx, w.items[w.handles[h].target].attrs, first)
    ensures d.ConcatKey? ==>
              d.other in w.handles && w.handles[d.other].target in w.items && HasMaterial(ctx, w.items[w.handles[d.other].target].attrs, second)
    ensures IsSecret(d, first, second, secret) && DerivedBytes(d, DerivedType(d, es), es, |secret|, |key|)
    ensures IsCut(d, DerivedType(d, es), parity, secret, key)
    ensures var r := DeriveKey(w, ctx, caller, h, d, es, parity);
            && Made(w, r)
            && var o, isPrivate := r.world.items[w.next].attrs, LastFlag(es, CKA_PRIVATE, true);
               && Settled(o, CKO_SECRET_KEY, DerivedType(d, es), LastFlag(es, CKA_TOKEN, false), isPrivate)
               && Shows(ctx, isPrivate, o, CKA_VALUE, key) && CKA_LOCAL in o && o[CKA_LOCAL] == BoolV(false)
               && ShowsCheck(ctx, isPrivate, o, es, ctx.token.kcv(CheckKind(DerivedType(d, es)), if d.Agreement? then secret else key))
               && Inherits(d, w.items[w.handles[h].target].attrs, w.items[w.handles[if d.ConcatKey? then d.other else h].target].attrs, es, o)
               && ShowsRest(ctx, isPrivate, o, es, {CKA_SENSITIVE, CKA_EXTRACTABLE})
  {
    hide Sound, ReadPlan, DeriveFrom, HaveRead, HaveWrite, Made, Token.Lawful, Shows, ShowsRest, ShowsCheck, LastFlag, Settled, HasMaterial, IsSecret, DerivedBytes, IsCut, DerivedType, Flag;
    var id := Lookup(w, h).value;
    var p := DerivationPlan(d, es);
    DerivedPlanIs(d, es);
    var other := (if d.ConcatKey? then Lookup(w, d.other) else Some(id)).value;
    if p.isPrivate { WriterIsLoggedIn(caller.state, p.onToken, p.isPrivate); }
    first, second, secret, key := DerivedFromIs(w, ctx, caller, p, d, es, parity, id, other);
  }

  lemma DerivedPlanIs(d: Derivation, es: Template)
    ensures var p := DerivationPlan(d, es);
            && p.keyType == DerivedType(d, es) && p.onToken == LastFlag(es, CKA_TOKEN, false)
            && (p.objClass == CKO_SECRET_KEY ==> p.isPrivate == LastFlag(es, CKA_PRIVATE, true))
  {
    hide LastSized;
  }

  lemma DerivedFromIs(w: World, ctx: Context, caller: Caller, p: Plan, d: Derivation, es: Template, parity: byte -> byte, id: Id, other: Id)
    returns (first: Bytes, second: Bytes, secret: Bytes, key: Bytes)
    requires Sound(w) && ctx.token.Lawful() && (p.isPrivate ==> ctx.session.LoggedIn())
    requires id in w.items && other in w.items && (!d.ConcatKey? ==> other == id)
    requires p.objClass == CKO_SECRET_KEY && IsWord(p.keyType) && Generates(p.keyType)
    requires d.ConcatData? || d.ConcatKey? ==> Class(w.items[id].attrs) == CKO_SECRET_KEY
    requires DeriveFrom(w, ctx, caller, p, d, es, parity, id, other).rv == OK
    ensures d.ConcatData? || d.ConcatKey? ==> HasMaterial(ctx, w.items[id].attrs, first)
    ensures d.ConcatKey? ==> HasMaterial(ctx, w.items[other].attrs, second)
    ensures IsSecret(d, first, second, secret) && DerivedBytes(d, p.keyType, es, |secret|, |key|) && IsCut(d, p.keyType, parity, secret, key)
    ensures var r := DeriveFrom(w, ctx, caller, p, d, es, parity, id, other);
            && Made(w, r)
            && var o := r.world.items[w.next].attrs;
               && Settled(o, CKO_SECRET_KEY, p.keyType, p.onToken, p.isPrivate)
               && Shows(ctx, p.isPrivate, o, CKA_VALUE, key) && CKA_LOCAL in o && o[CKA_LOCAL] == BoolV(false)
               && ShowsCheck(ctx, p.isPrivate, o, es, ctx.token.kcv(CheckKind(p.keyType), if d.Agreement? then secret else key))
               && Inherits(d, w.items[id].attrs, w.items[other].attrs, es, o)
               && ShowsRest(ctx, p.isPrivate, o, es, {CKA_SENSITIVE, CKA_EXTRACTABLE})
  {
    hide SoundItem, Made, Token.Lawful, Shows, ShowsRest, ShowsCheck, Settled, HasMaterial, IsSecret, DerivedBytes, IsCut, Flag, Inherits, HealthyKey;
    hide MakeKey, ContributeDerived, DraftObject, Header, Rest, Material, ReadWish, DeriveFrom, LastEntry, Maintained, SoundHandles;
    var base, attrs := w.items[id].attrs, w.items[other].attrs;
    var len;
    secret, len := DeriveFromMade(w, ctx, caller, p, d, es, parity, id, other);
    var wish := ReadWish(es, true);
    first, second := MaterialIs(w, ctx, d, id, other);
    var f := ContributeDerived(ctx, p, d, base, attrs, secret, len, wish.checkValue, parity);
    KeyMade(w, ctx, caller, p, es, true, Derive, DerivedFrom({id, other}, d.Agreement?), f);
    WishIs(es, true);
    DraftedKeyShows(ctx, caller, p, es, true, Derive);
    DraftedCheck(ctx, caller, p, es, Derive);
    var o := DraftObject(ctx, caller, Header(p) + Rest(es, true), Derive).item.attrs;
    DraftedFlags(ctx, caller, p, es);
    if d.Implicit() { BaseIsKey(w.items[id], id); }
    key := CompletedDerivation(ctx, p, d, base, attrs, es, secret, len, wish.checkValue, parity, o);
    DerivedBytesAre(d, p.keyType, es, |secret|, len);
  }

  lemma BaseIsKey(it: Item, id: Id)
    requires SoundItem(it, id) && Class(it.attrs) == CKO_SECRET_KEY
    ensures HealthyKey(it.attrs)
  {
    BaseMakesClaims(it.attrs);
  }

  lemma DeriveFromMade(w: World, ctx: Context, caller: Caller, p: Plan, d: Derivation, es: Template, parity: byte -> byte, id: Id, other: Id)
    returns (secret: Bytes, len: nat)
    requires id in w.items && other in w.items && DeriveFrom(w, ctx, caller, p, d, es, parity, id, other).rv == OK
    ensures ReadWish(es, true).rv == OK && RawSecret(ctx, d, w.items[id].attrs, w.items[other].attrs) == Some(secret)
    ensures DeriveFrom(w, ctx, caller, p, d, es, parity, id, other)
         == MakeKey(w, ctx, caller, p, es, true, Derive, DerivedFrom({id, other}, d.Agreement?),
                    ContributeDerived(ctx, p, d, w.items[id].attrs, w.items[other].attrs, secret, len, ReadWish(es, true).checkValue, parity))
    ensures var length := if d.Implicit() && ReadWish(es, true).len == 0 then Length(OK, 0) else DerivedLength(p.keyType, ReadWish(es, true).len);
            && length.rv == OK
            && if d.Implicit() && length.len == 0 then ConcatenatedLength(p.keyType, |secret|) == Length(OK, len) else len == length.len
  {
    hide MakeKey, ContributeDerived, Material, RawSecret, ReadWish, DerivedLength, ConcatenatedLength;
    var wish := ReadWish(es, true);
    var length := if d.Implicit() && wish.len == 0 then Length(OK, 0) else DerivedLength(p.keyType, wish.len);
    secret := RawSecret(ctx, d, w.items[id].attrs, w.items[other].attrs).value;
    len := if d.Implicit() && length.len == 0 then ConcatenatedLength(p.keyType, |secret|).len else length.len;
  }

  lemma MaterialIs(w: World, ctx: Context, d: Derivation, id: Id, other: Id) returns (first: Bytes, second: Bytes)
    requires Sound(w) && ctx.token.Lawful() && id in w.items && other in w.items
    requires RawSecret(ctx, d, w.items[id].attrs, w.items[other].attrs).Some?
    ensures d.ConcatData? || d.ConcatKey? ==> HasMaterial(ctx, w.items[id].attrs, first)
    ensures d.ConcatKey? ==> HasMaterial(ctx, w.items[other].attrs, second)
    ensures IsSecret(d, first, second, RawSecret(ctx, d, w.items[id].attrs, w.items[other].attrs).value)
  {
    hide SoundItem, SoundHandles, Token.Lawful, HasMaterial, Material, RawSecret, IsSecret;
    SecretIs(ctx, d, w.items[id].attrs, w.items[other].attrs);
    first := if d.ConcatData? || d.ConcatKey? then Material(ctx, w.items[id].attrs, false).value else [];
    second := if d.ConcatKey? then Material(ctx, w.items[other].attrs, true).value else [];
    if d.ConcatData? || d.ConcatKey? { ReadMaterial(ctx, w.items[id], id, false); }
    if d.ConcatKey? { ReadMaterial(ctx, w.items[other], other, true); }
  }

  lemma SecretIs(ctx: Context, d: Derivation, base: Attrs, other: Attrs)
    requires RawSecret(ctx, d, base, other).Some?
    ensures IsSecret(d, if d.ConcatData? || d.ConcatKey? then Material(ctx, base, false).value else [],
                     if d.ConcatKey? then Material(ctx, other, true).value else [], RawSecret(ctx, d, base, other).value)
    ensures d.ConcatData? || d.ConcatKey? ==> Material(ctx, base, false).Some?
    ensures d.ConcatKey? ==> Material(ctx, other, true).Some?
  {
    hide Material;
  }

  lemma DerivedBytesAre(d: Derivation, keyType: nat, es: Template, total: nat, len: nat)
    requires Generates(keyType) && ReadWish(es, true).rv == OK && len <= total
    requires var length := if d.Implicit() && ReadWish(es, true).len == 0 then Length(OK, 0) else DerivedLength(keyType, ReadWish(es, true).len);
             && length.rv == OK
             && if d.Implicit() && length.len == 0 then ConcatenatedLength(keyType, total) == Length(OK, len) else len == length.len
    ensures DerivedBytes(d, keyType, es, total, len)
  {
    hide ReadWish, LastEntry, FromWord;
    WishIs(es, true);
  }

  /** The two flags of the drafted key are those that the template asks for. */
  lemma DraftedFlags(ctx: Context, caller: Caller, p: Plan, es: Template)
    requires ctx.token.Lawful() && p.objClass == CKO_SECRET_KEY && IsWord(p.objClass) && IsWord(p.keyType) && Generates(p.keyType)
    requires DraftObject(ctx, caller, Header(p) + Rest(es, true), Derive).Complete?
    ensures var o := DraftObject(ctx, caller, Header(p) + Rest(es, true), Derive).item.attrs;
            && CKA_SENSITIVE in o && o[CKA_SENSITIVE] == BoolV(Asks(es, CKA_SENSITIVE))
            && CKA_EXTRACTABLE in o && o[CKA_EXTRACTABLE] == BoolV(Asks(es, CKA_EXTRACTABLE))
  {
    hide DraftObject, Header, Rest, Token.Lawful, HealthyKey, Shows, Asks, LastEntry, ReadPlan, Maintained, Settled, ClassOf, Initialised;
    DraftedKeyShows(ctx, caller, p, es, true, Derive);
    DraftedFlag(ctx, caller, p, es, CKA_SENSITIVE);
    DraftedFlag(ctx, caller, p, es, CKA_EXTRACTABLE);
  }

  lemma DraftedFlag(ctx: Context, caller: Caller, p: Plan, es: Template, t: AttrType)
    requires ctx.token.Lawful() && p.objClass == CKO_SECRET_KEY && IsWord(p.objClass) && IsWord(p.keyType) && Generates(p.keyType)
    requires DraftObject(ctx, caller, Header(p) + Rest(es, true), Derive).Complete? && (t == CKA_SENSITIVE || t == CKA_EXTRACTABLE)
    ensures var o := DraftObject(ctx, caller, Header(p) + Rest(es, true), Derive).item.attrs; t in o && o[t] == BoolV(Asks(es, t))
  {
    hide DraftObject, Header, Rest, Token.Lawful, HealthyKey, Shows, LastEntry, ReadPlan, ClassOf, Initialised;
    var full := Header(p) + Rest(es, true);
    var o := DraftObject(ctx, caller, full, Derive).item.attrs;
    DraftedKeyShows(ctx, caller, p, es, true, Derive);
    ClaimsPresent(o);
    AssembledEntry(p, es, true, t);
    if LastEntry(es, t).Some? {
      FlagIsShown(ctx, p.isPrivate, o, t, LastEntry(es, t).value.Data());
    } else {
      DraftUnnamed(ctx, caller, full, Derive, t);
      BlankLooks(ClassPlanned(full).value);
    }
  }

  lemma FlagIsShown(ctx: Context, isPrivate: bool, o: Attrs, t: AttrType, data: Bytes)
    requires Shows(ctx, isPrivate, o, t, data) && o[t].BoolV?
    ensures data != [] && o[t] == BoolV(data[0] != 0)
  {
  }

  lemma DerivedClaimsSay(d: Derivation, base: Attrs, other: Attrs, es: Template, o: Attrs)
    requires CKA_SENSITIVE in o && o[CKA_SENSITIVE] == BoolV(Asks(es, CKA_SENSITIVE))
    requires CKA_EXTRACTABLE in o && o[CKA_EXTRACTABLE] == BoolV(Asks(es, CKA_EXTRACTABLE))
    requires d.Implicit() ==> HealthyKey(base)
    ensures var o' := DeriveClaims(d, base, other, o[CKA_LOCAL := BoolV(false)]);
            && Inherits(d, base, other, es, o') && CKA_LOCAL in o' && o'[CKA_LOCAL] == BoolV(false)
            && forall t :: t != CKA_LOCAL && t != CKA_SENSITIVE && t != CKA_EXTRACTABLE && t != CKA_ALWAYS_SENSITIVE && t != CKA_NEVER_EXTRACTABLE ==> SameAt(o, o', t)
  {
    hide Asks, KindOf, Table, Declares, StoredClass;
    if d.Implicit() { ClaimsPresent(base); }
  }

  lemma CutIs(d: Derivation, keyType: nat, parity: byte -> byte, secret: Bytes, len: nat)
    requires len <= |secret|
    ensures var key := FixParity(parity, keyType, Cut(d, secret, len)); |key| == len && IsCut(d, keyType, parity, secret, key)
  {
  }

  lemma CheckIs(token: Token, keyType: nat, x: Bytes)
    requires Generates(keyType)
    ensures KcvOf(token, keyType, x) == Some(token.kcv(CheckKind(keyType), x))
  {
  }

  lemma CompletedDerivation(ctx: Context, p: Plan, d: Derivation, base: Attrs, other: Attrs, es: Template, secret: Bytes, len: nat,
                            checkValue: bool, parity: byte -> byte, o: Attrs) returns (key: Bytes)
    requires ctx.token.Lawful() && (p.isPrivate ==> ctx.session.LoggedIn()) && Generates(p.keyType)
    requires checkValue <==> LastEntry(es, CKA_CHECK_VALUE).None?
    requires LastEntry(es, CKA_VALUE).None? && (d.Implicit() ==> HealthyKey(base))
    requires Settled(o, p.objClass, p.keyType, p.onToken, p.isPrivate) && CKA_CHECK_VALUE in o && o[CKA_CHECK_VALUE] == BytesV([])
    requires CKA_SENSITIVE in o && o[CKA_SENSITIVE] == BoolV(Asks(es, CKA_SENSITIVE))
    requires CKA_EXTRACTABLE in o && o[CKA_EXTRACTABLE] == BoolV(Asks(es, CKA_EXTRACTABLE))
    requires forall t :: LastEntry(es, t).Some? && !IsHeader(t) && t != CKA_CHECK_VALUE && !Maintained(t) ==>
               Shows(ctx, p.isPrivate, o, t, LastEntry(es, t).value.Data()) && t != CKA_LOCAL && t != CKA_KEY_GEN_MECHANISM
    requires ContributeDerived(ctx, p, d, base, other, secret, len, checkValue, parity)(o).Some?
    ensures len <= |secret| && |key| == len && IsCut(d, p.keyType, parity, secret, key)
    ensures var r := ContributeDerived(ctx, p, d, base, other, secret, len, checkValue, parity)(o).value;
            && Settled(r, p.objClass, p.keyType, p.onToken, p.isPrivate) && Shows(ctx, p.isPrivate, r, CKA_VALUE, key)
            && CKA_LOCAL in r && r[CKA_LOCAL] == BoolV(false)
            && ShowsCheck(ctx, p.isPrivate, r, es, ctx.token.kcv(CheckKind(p.keyType), if d.Agreement? then secret else key))
            && Inherits(d, base, other, es, r) && ShowsRest(ctx, p.isPrivate, r, es, {CKA_SENSITIVE, CKA_EXTRACTABLE})
  {
    hide Shows, Token.Lawful, HealthyKey, StoreKey, DeriveClaims, LastEntry, Maintained, Asks, IsCut, Cut, FixParity, KcvOf, CheckKind, Flag;
    key := FixParity(parity, p.keyType, Cut(d, secret, len));
    CutIs(d, p.keyType, parity, secret, len);
    CheckIs(ctx.token, p.keyType, if d.Agreement? then secret else key);
    var kcv := KcvOf(ctx.token, p.keyType, if d.Agreement? then secret else key);
    var o1 := DeriveClaims(d, base, other, o[CKA_LOCAL := BoolV(false)]);
    DerivedClaimsSay(d, base, other, es, o);
    StoredKeyShows(ctx, p.isPrivate, o1, key, if checkValue then kcv else None);
    var o2 := StoreKey(ctx, p.isPrivate, o1, key, if checkValue then kcv else None);
    forall t | (t != CKA_LOCAL && t != CKA_SENSITIVE && t != CKA_EXTRACTABLE && t != CKA_ALWAYS_SENSITIVE && t != CKA_NEVER_EXTRACTABLE && t != CKA_VALUE)
               && (checkValue ==> t != CKA_CHECK_VALUE)
      ensures SameAt(o, o2, t)
    {
      assert SameAt(o, o1, t) && SameAt(o1, o2, t);
    }
    assert SameAt(o, o2, CKA_CLASS) && SameAt(o, o2, CKA_KEY_TYPE) && SameAt(o, o2, CKA_TOKEN) && SameAt(o, o2, CKA_PRIVATE);
    assert SameAt(o1, o2, CKA_LOCAL) && SameAt(o1, o2, CKA_SENSITIVE) && SameAt(o1, o2, CKA_EXTRACTABLE);
    if !checkValue {
      assert SameAt(o, o2, CKA_CHECK_VALUE);
      EmptyShows(ctx, p.isPrivate, o2);
    }
    ClaimsMaintained();
    forall t | LastEntry(es, t).Some? && !IsHeader(t) && t != CKA_CHECK_VALUE && !Maintained(t) && t != CKA_SENSITIVE && t != CKA_EXTRACTABLE
      ensures Shows(ctx, p.isPrivate, o2, t, LastEntry(es, t).value.Data())
    {
      assert SameAt(o, o2, t);
      StillShows(ctx, p.isPrivate, o, o2, t, LastEntry(es, t).value.Data());
    }
  }
}
