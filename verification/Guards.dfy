/** The flags that restrict what may be done to an object: trust, wrapping, copying, re-authentication, change,
    destruction and derivation. What one write may do to them is lifted to every step and every run. */
module Guards {
  import opened Cryptoki
  import opened Attributes
  import opened ObjectClasses
  import opened AttributeLaws
  import opened Templates
  import opened ObjectStore
  import opened ObjectLaws
  import opened Runs
  import opened HalfMade
  import opened Effects
  import opened Secrecy
  import opened Contents
  import opened NewKeys

  // ----- one write ----------------------------------------------------------------------------------------

  /** From `o` to `o'`, by a caller in this state writing to an object that is private or not: only the
      security officer makes an object trusted, what may be wrapped by trusted keys only stays so once the
      object exists, what may not be copied stays so, and only private objects come to demand a login for
      every use. */
  predicate Obeys(state: SessionState, isPrivate: bool, changing: bool, o: Attrs, o': Attrs) {
    && (Says(o', CKA_TRUSTED, true) ==> Says(o, CKA_TRUSTED, true) || state == RwSo)
    && (changing && Says(o, CKA_WRAP_WITH_TRUSTED, true) ==> Says(o', CKA_WRAP_WITH_TRUSTED, true))
    && (Says(o, CKA_COPYABLE, false) ==> Says(o', CKA_COPYABLE, false))
    && (Says(o', CKA_ALWAYS_AUTHENTICATE, true) ==> Says(o, CKA_ALWAYS_AUTHENTICATE, true) || isPrivate)
  }

  predicate IsGuard(t: AttrType) {
    t == CKA_TRUSTED || t == CKA_WRAP_WITH_TRUSTED || t == CKA_COPYABLE || t == CKA_ALWAYS_AUTHENTICATE
  }

  lemma OthersObey(state: SessionState, isPrivate: bool, changing: bool, o: Attrs, o': Attrs)
    requires SameAt(o, o', CKA_TRUSTED) && SameAt(o, o', CKA_WRAP_WITH_TRUSTED) && SameAt(o, o', CKA_COPYABLE)
    requires SameAt(o, o', CKA_ALWAYS_AUTHENTICATE)
    ensures Obeys(state, isPrivate, changing, o, o')
  {
  }

  lemma GuardWrites(ctx: Context, t: AttrType, isPrivate: bool, o: Attrs, p: Payload, op: Op)
    requires IsGuard(t)
    ensures Obeys(ctx.session, isPrivate, op.Changing(), o, Write(ctx, t, isPrivate, o, p, op).attrs)
  {
  }

  lemma WriteObeys(ctx: Context, t: AttrType, isPrivate: bool, o: Attrs, p: Payload, op: Op)
    ensures Obeys(ctx.session, isPrivate, op.Changing(), o, Write(ctx, t, isPrivate, o, p, op).attrs)
  {
    hide Obeys, Write;
    if IsGuard(t) {
      GuardWrites(ctx, t, isPrivate, o, p, op);
    } else {
      WriteTidy(ctx, t, isPrivate, o, p, op, CKA_TRUSTED);
      WriteTidy(ctx, t, isPrivate, o, p, op, CKA_WRAP_WITH_TRUSTED);
      WriteTidy(ctx, t, isPrivate, o, p, op, CKA_COPYABLE);
      WriteTidy(ctx, t, isPrivate, o, p, op, CKA_ALWAYS_AUTHENTICATE);
      hide KindOf;
      OthersObey(ctx.session, isPrivate, op.Changing(), o, Write(ctx, t, isPrivate, o, p, op).attrs);
    }
  }

  lemma ObeysChains(state: SessionState, isPrivate: bool, changing: bool, o: Attrs, o1: Attrs, o2: Attrs)
    requires Obeys(state, isPrivate, changing, o, o1) && Obeys(state, isPrivate, changing, o1, o2)
    ensures Obeys(state, isPrivate, changing, o, o2)
  {
  }

  lemma ObeysItself(state: SessionState, isPrivate: bool, changing: bool, o: Attrs)
    ensures Obeys(state, isPrivate, changing, o, o)
  {
  }

  lemma {:induction false} ApplyObeys(job: Job, o: Attrs, es: Template)
    ensures Obeys(job.ctx.session, job.isPrivate, job.op.Changing(), o, ApplyEntries(job, o, es).attrs)
    decreases |es|
  {
    hide Obeys, Write;
    ObeysItself(job.ctx.session, job.isPrivate, job.op.Changing(), o);
    if |es| > 0 {
      var first := UpdateEntry(job, o, es[0]);
      WriteObeys(job.ctx, es[0].t, job.isPrivate, o, es[0].p, job.op);
      if first.rv == OK {
        ApplyObeys(job, first.attrs, es[1..]);
        ObeysChains(job.ctx.session, job.isPrivate, job.op.Changing(), o, first.attrs, ApplyEntries(job, first.attrs, es[1..]).attrs);
      }
    }
  }

  lemma SaveObeys(job: Job, o: Attrs, es: Template, rollback: bool)
    ensures Obeys(job.ctx.session, job.isPrivate, job.op.Changing(), o, SaveTemplate(job, o, es, rollback).attrs)
  {
    hide Obeys, AllMandatoryNamed;
    ApplyObeys(job, o, es);
    ObeysItself(job.ctx.session, job.isPrivate, job.op.Changing(), o);
  }

  /** A trusted certificate, and an object that may not be modified, is changed by no template. */
  lemma FrozenObjects(job: Job, o: Attrs, es: Template)
    requires job.op.Changing()
    requires (Says(o, CKA_TRUSTED, true) && Class(o) == CKO_CERTIFICATE) || Says(o, CKA_MODIFIABLE, false)
    ensures ApplyEntries(job, o, es).attrs == o && (ApplyEntries(job, o, es).rv == OK <==> es == [])
  {
    hide Write;
  }

  /** Nor is any template saved in an object that may not be modified, or in the copy of one that may not be copied. */
  lemma SaveRefused(job: Job, o: Attrs, es: Template, rollback: bool)
    requires (job.op.Set? && Says(o, CKA_MODIFIABLE, false)) || (job.op.Copy? && Says(o, CKA_COPYABLE, false))
    ensures SaveTemplate(job, o, es, rollback) == Outcome(o, ACTION_PROHIBITED)
  {
  }

  // ----- new objects --------------------------------------------------------------------------------------------

  /** A new object is trusted only if the security officer made it, and, once finished, demands a login for
      every use only if it is private. */
  predicate BornGuarded(state: SessionState, it: Item) {
    && (Says(it.attrs, CKA_TRUSTED, true) ==> state == RwSo)
    && (it.finished && Says(it.attrs, CKA_ALWAYS_AUTHENTICATE, true) ==> Says(it.attrs, CKA_PRIVATE, true))
  }

  lemma BlankGuards(c: ClassId)
    ensures var o := Initialised(c, map[]); !Says(o, CKA_TRUSTED, true) && !Says(o, CKA_ALWAYS_AUTHENTICATE, true)
  {
    hide Initialised, Table, Declares;
    InitialisedAt(c, map[], CKA_TRUSTED);
    InitialisedAt(c, map[], CKA_ALWAYS_AUTHENTICATE);
  }

  lemma SameBorn(state: SessionState, it: Item, it': Item)
    requires BornGuarded(state, it) && it.finished
    requires SameAt(it.attrs, it'.attrs, CKA_TRUSTED) && SameAt(it.attrs, it'.attrs, CKA_ALWAYS_AUTHENTICATE) && SameAt(it.attrs, it'.attrs, CKA_PRIVATE)
    ensures BornGuarded(state, it')
  {
  }

  lemma DraftGuarded(ctx: Context, caller: Caller, es: Template, op: Op)
    requires op != Copy && op != Set && ctx.session == caller.state
    ensures var d := DraftObject(ctx, caller, es, op); (d.Complete? || d.HalfMade?) ==> BornGuarded(caller.state, d.item)
  {
    hide Initialised, SchemaOf, SaveTemplate, CheckValueLast, ClassOf, ReadPlan, HaveWrite, Healthy, StoredClass, IsOnToken;
    CreateDraftLaw(ctx, caller, es, op);
    var p := ReadPlan(es, false, DEFAULT_PLAN).plan;
    var d := DraftObject(ctx, caller, es, op);
    if d.Complete? || d.HalfMade? {
      var c := ClassOf(p.objClass, p.keyType, p.certType).value;
      var job := Job(ctx, SchemaOf(c), p.isPrivate, op);
      BlankGuards(c);
      SaveObeys(job, Initialised(c, map[]), CheckValueLast(es), p.onToken);
      var o := SaveTemplate(job, Initialised(c, map[]), CheckValueLast(es), p.onToken).attrs;
      assert SameAt(o, d.item.attrs, CKA_TRUSTED) && SameAt(o, d.item.attrs, CKA_ALWAYS_AUTHENTICATE);
      HealthySays(d.item.attrs);
    }
  }

  lemma HealthySays(o: Attrs)
    requires Healthy(o)
    ensures IsPrivate(o) == Says(o, CKA_PRIVATE, true) && Flag(o, CKA_MODIFIABLE, true) == !Says(o, CKA_MODIFIABLE, false)
    ensures CKA_PRIVATE in o && o[CKA_PRIVATE].BoolV? && CKA_COPYABLE in o && o[CKA_COPYABLE].BoolV?
  {
    hide Table, Declares, StoredClass;
    EveryObjectHas(StoredClass(o).value);
    assert KindOf(CKA_PRIVATE).IsFlag() && KindOf(CKA_COPYABLE).IsFlag();
    hide KindOf;
  }

  /** What a step may have done to the guards of one object. */
  ghost predicate GuardStep(w: World, w': World, state: SessionState, id: Id) {
    id in w'.items ==>
      var it := w'.items[id];
      if id in w.items then Obeys(state, Says(w.items[id].attrs, CKA_PRIVATE, true), true, w.items[id].attrs, it.attrs)
      else if it.origin.CopyOf? then
          && it.finished && it.origin.source in w.items
          && (Obeys(state, Says(it.attrs, CKA_PRIVATE, true), true, w.items[it.origin.source].attrs, it.attrs))
          && !Says(w.items[it.origin.source].attrs, CKA_COPYABLE, false)
          && (Says(w.items[it.origin.source].attrs, CKA_PRIVATE, true) ==> Says(it.attrs, CKA_PRIVATE, true) && UserIn(state))
        else BornGuarded(state, it)
  }

  lemma SparedGuards(w: World, w': World, state: SessionState, id: Id)
    requires id in w'.items ==> id in w.items && w'.items[id] == w.items[id]
    ensures GuardStep(w, w', state, id)
  {
    if id in w.items { ObeysItself(state, Says(w.items[id].attrs, CKA_PRIVATE, true), true, w.items[id].attrs); }
  }

  lemma SetGuards(w: World, ctx: Context, caller: Caller, h: Handle, es: Template, id: Id)
    requires Sound(w) && ctx.session == caller.state
    ensures GuardStep(w, SetAttributeValue(w, ctx, caller, h, es).world, caller.state, id)
  {
    hide SoundHandles, SaveTemplate, SchemaOf, Initialised, StoredClass, Obeys, HaveWrite, Modifiable, Healthy, IsPrivate, IsOnToken;
    var w' := SetAttributeValue(w, ctx, caller, h, es).world;
    if id in w.items {
      var it := w.items[id];
      assert SoundItem(it, id);
      ObeysItself(caller.state, Says(it.attrs, CKA_PRIVATE, true), true, it.attrs);
      if StoredClass(it.attrs).Some? {
        var c := StoredClass(it.attrs).value;
        Reinitialised(c, it.attrs);
        HealthySays(it.attrs);
        SaveObeys(Job(ctx, SchemaOf(c), IsPrivate(it.attrs), Set), it.attrs, es, it.place.OnToken?);
      }
    }
  }

  lemma CopyGuards(w: World, ctx: Context, caller: Caller, h: Handle, es: Template, id: Id)
    requires Sound(w) && ctx.session == caller.state
    ensures GuardStep(w, CopyObject(w, ctx, caller, h, es).world, caller.state, id)
  {
    hide SoundHandles, DraftCopy, Enact, Obeys, SoundItem, StoredClass, UserIn, LastFlag;
    CopyMakes(w, ctx, caller, h, es);
    if id in w.items { SparedGuards(w, CopyObject(w, ctx, caller, h, es).world, caller.state, id); }
    var found := Lookup(w, h);
    if found.Some? {
      var src := found.value;
      var o := w.items[src].attrs;
      assert SoundItem(w.items[src], src);
      assert Healthy(o) by { ItemHealthy(w.items[src], src); }
      CopyDraftLaw(ctx, caller, src, o, es);
      if DraftCopy(ctx, caller, src, o, es).Complete? { CopiedGuards(ctx, caller, src, o, es); }
      EnactOne(w, caller, DraftCopy(ctx, caller, src, o, es), LastFlag(es, CKA_TOKEN, IsOnToken(o)), LastFlag(es, CKA_PRIVATE, IsPrivate(o)));
    }
  }

  lemma ItemHealthy(it: Item, id: Id)
    requires SoundItem(it, id)
    ensures Healthy(it.attrs)
  {
  }

  /** Of a draft exactly the drafted object is new. */
  lemma EnactOne(w: World, caller: Caller, d: Draft, onToken: bool, isPrivate: bool)
    requires Sound(w) && SoundDraft(d, caller)
    ensures var w' := Enact(w, caller, d, onToken, isPrivate).world;
            forall id :: id in w'.items && id !in w.items ==> (d.Complete? || d.HalfMade?) && w'.items[id] == d.item
  {
    hide SoundItem, Healthy, Placed, Authorised;
  }

  lemma CopiedGuards(ctx: Context, caller: Caller, source: Id, o: Attrs, es: Template)
    requires Healthy(o) && ctx.session == caller.state && DraftCopy(ctx, caller, source, o, es).Complete?
    ensures var d := DraftCopy(ctx, caller, source, o, es);
            && d.item.origin == CopyOf(source)
            && Obeys(caller.state, Says(d.item.attrs, CKA_PRIVATE, true), true, o, d.item.attrs) && !Says(o, CKA_COPYABLE, false)
            && (Says(o, CKA_PRIVATE, true) ==> Says(d.item.attrs, CKA_PRIVATE, true) && UserIn(caller.state))
  {
    hide Healthy, StoredClass, SchemaOf, Initialised, SaveTemplate, LastFlag, IsOnToken, HaveWrite, Obeys, Transcript;
    CopyDraftLaw(ctx, caller, source, o, es);
    var isPrivate := LastFlag(es, CKA_PRIVATE, IsPrivate(o));
    var t := Transcript(ctx, !IsPrivate(o) && isPrivate, o).value;
    TranscriptLaw(ctx, !IsPrivate(o) && isPrivate, o);
    var c := StoredClass(t).value;
    Reinitialised(c, t);
    HealthySays(o);
    var d := DraftCopy(ctx, caller, source, o, es);
    HealthySays(d.item.attrs);
    SaveObeys(Job(ctx, SchemaOf(c), isPrivate, Copy), t, es, LastFlag(es, CKA_TOKEN, IsOnToken(o)));
    ReadMatrix(caller.state, IsOnToken(o), IsPrivate(o));
    hide IsPrivate, HaveRead;
    TranscribedGuards(ctx, !IsPrivate(o) && isPrivate, o);
    SameGuards(caller.state, isPrivate, o, t, d.item.attrs);
  }

  lemma TranscribedGuards(ctx: Context, upgrade: bool, o: Attrs)
    requires Transcript(ctx, upgrade, o).Some?
    ensures forall a, b: bool :: Says(Transcript(ctx, upgrade, o).value, a, b) == Says(o, a, b)
  {
  }

  lemma SameGuards(state: SessionState, isPrivate: bool, o: Attrs, o1: Attrs, o2: Attrs)
    requires (forall a, b: bool :: Says(o1, a, b) == Says(o, a, b)) && Obeys(state, isPrivate, true, o1, o2)
    ensures Obeys(state, isPrivate, true, o, o2)
  {
  }

  lemma CreateGuards(w: World, ctx: Context, caller: Caller, es: Template, id: Id)
    requires Sound(w) && ctx.session == caller.state
    ensures GuardStep(w, CreateObject(w, ctx, caller, es, Create).world, caller.state, id)
  {
    hide SoundHandles, DraftObject, Enact, Obeys, SoundItem, BornGuarded, ReadPlan, UserIn;
    CreateMakes(w, ctx, caller, es, Create);
    if id in w.items { SparedGuards(w, CreateObject(w, ctx, caller, es, Create).world, caller.state, id); }
    var p := ReadPlan(es, false, DEFAULT_PLAN).plan;
    CreateDraftLaw(ctx, caller, es, Create);
    EnactOne(w, caller, DraftObject(ctx, caller, es, Create), p.onToken, p.isPrivate);
    DraftGuarded(ctx, caller, es, Create);
  }

  /** What is written to a new key leaves its guards alone. */
  ghost predicate KeepsGuards(contribute: Attrs -> Option<Attrs>) {
    forall o :: contribute(o).Some? ==>
      SameAt(o, contribute(o).value, CKA_TRUSTED) && SameAt(o, contribute(o).value, CKA_ALWAYS_AUTHENTICATE) && SameAt(o, contribute(o).value, CKA_PRIVATE)
  }

  lemma MakeKeyGuards(w: World, ctx: Context, caller: Caller, p: Plan, es: Template, dropCheck: bool, op: Op, origin: Origin,
                      contribute: Attrs -> Option<Attrs>, id: Id)
    requires Sound(w) && op != Copy && op != Set && ctx.session == caller.state && KeepsGuards(contribute) && !origin.CopyOf?
    ensures GuardStep(w, MakeKey(w, ctx, caller, p, es, dropCheck, op, origin, contribute).world, caller.state, id)
  {
    hide DraftObject, Header, Rest, MakeKey, Sound, BornGuarded, Obeys, UserIn, Made, Misstored, SoundDraft;
    var full := Header(p) + Rest(es, dropCheck);
    var r := MakeKey(w, ctx, caller, p, es, dropCheck, op, origin, contribute);
    CreateDraftLaw(ctx, caller, full, op);
    DraftGuarded(ctx, caller, full, op);
    var d := DraftObject(ctx, caller, full, op);
    if r.rv == OK {
      KeyMade(w, ctx, caller, p, es, dropCheck, op, origin, contribute);
      OneIsNew(w, r);
      assert d.item.finished by { DraftIsFinished(d, caller); }
      SameBorn(caller.state, d.item, r.world.items[w.next]);
    } else {
      FailedKey(w, ctx, caller, p, es, dropCheck, op, origin, contribute);
    }
    NextIsNew(w);
    if id in w.items { SparedGuards(w, r.world, caller.state, id); }
  }

  lemma DraftIsFinished(d: Draft, caller: Caller)
    requires SoundDraft(d, caller) && d.Complete?
    ensures d.item.finished
  {
  }

  lemma OneIsNew(w: World, r: Reply)
    requires Made(w, r)
    ensures w.next in r.world.items && r.world.items == w.items[w.next := r.world.items[w.next]]
  {
  }

  lemma NextIsNew(w: World)
    requires Sound(w)
    ensures w.next !in w.items
  {
  }

  lemma StoreKeyKeepsGuards(ctx: Context, isPrivate: bool, o: Attrs, key: Bytes, kcv: Option<Bytes>, t: AttrType)
    requires t != CKA_VALUE && t != CKA_CHECK_VALUE
    ensures SameAt(o, StoreKey(ctx, isPrivate, o, key, kcv), t)
  {
    hide Store;
  }

  lemma ClaimsKeepGuards(mechanism: nat, d: Derivation, base: Attrs, other: Attrs, o: Attrs, t: AttrType)
    requires IsGuard(t) || t == CKA_PRIVATE
    ensures SameAt(o, GeneratedClaims(mechanism, o), t)
    ensures SameAt(o, DeriveClaims(d, base, other, o[CKA_LOCAL := BoolV(false)]), t)
  {
    hide Flag;
  }

  lemma GeneratedKeepsGuards(ctx: Context, isPrivate: bool, mechanism: nat, keyType: nat, key: Bytes, checkValue: bool)
    ensures KeepsGuards(ContributeGenerated(ctx, isPrivate, mechanism, keyType, key, checkValue))
  {
    hide GeneratedClaims, StoreKey, KcvOf;
    var f := ContributeGenerated(ctx, isPrivate, mechanism, keyType, key, checkValue);
    forall o, t | t == CKA_TRUSTED || t == CKA_ALWAYS_AUTHENTICATE || t == CKA_PRIVATE ensures f(o).Some? && SameAt(o, f(o).value, t) {
      ClaimsKeepGuards(mechanism, Agreement([]), o, o, o, t);
      StoreKeyKeepsGuards(ctx, isPrivate, GeneratedClaims(mechanism, o), key, if checkValue then KcvOf(ctx.token, keyType, key) else None, t);
    }
  }

  lemma UnwrappedKeepsGuards(ctx: Context, isPrivate: bool, parts: Option<KeyParts>)
    ensures KeepsGuards(ContributeUnwrapped(ctx, isPrivate, parts))
  {
    var f := ContributeUnwrapped(ctx, isPrivate, parts);
    if parts.Some? {
      assert CKA_TRUSTED !in parts.value && CKA_ALWAYS_AUTHENTICATE !in parts.value && CKA_PRIVATE !in parts.value by { PartsUnguarded(parts.value); }
      hide Store, IsKeyPart;
      forall o ensures f(o).Some? && SameAt(o, f(o).value, CKA_TRUSTED) && SameAt(o, f(o).value, CKA_ALWAYS_AUTHENTICATE) && SameAt(o, f(o).value, CKA_PRIVATE) {}
    }
  }

  lemma PartsUnguarded(parts: KeyParts)
    ensures CKA_TRUSTED !in parts && CKA_ALWAYS_AUTHENTICATE !in parts && CKA_PRIVATE !in parts
  {
  }

  lemma DerivedKeepsGuards(ctx: Context, p: Plan, d: Derivation, base: Attrs, other: Attrs, raw: Bytes, len: nat, check: bool, parity: byte -> byte)
    ensures KeepsGuards(ContributeDerived(ctx, p, d, base, other, raw, len, check, parity))
  {
    hide DeriveClaims, StoreKey, KcvOf, FixParity, Cut;
    if len <= |raw| {
      var key := FixParity(parity, p.keyType, Cut(d, raw, len));
      var kcv := KcvOf(ctx.token, p.keyType, if d.Agreement? then raw else key);
      var f := ContributeDerived(ctx, p, d, base, other, raw, len, check, parity);
      forall o, t | f(o).Some? && (t == CKA_TRUSTED || t == CKA_ALWAYS_AUTHENTICATE || t == CKA_PRIVATE) ensures SameAt(o, f(o).value, t) {
        ClaimsKeepGuards(0, d, base, other, o, t);
        StoreKeyKeepsGuards(ctx, p.isPrivate, DeriveClaims(d, base, other, o[CKA_LOCAL := BoolV(false)]), key, if check then kcv else None, t);
      }
    }
  }

  lemma GenerateGuards(w: World, ctx: Context, caller: Caller, keyType: nat, es: Template, random: nat -> Bytes, id: Id)
    requires Sound(w) && ctx.session == caller.state
    ensures GuardStep(w, GenerateKey(w, ctx, caller, keyType, es, random).world, caller.state, id)
  {
    hide Sound, ReadPlan, SecretWish, MakeKey, HaveWrite, KeepsGuards, GuardStep, ContributeGenerated;
    SparedGuards(w, w, caller.state, id);
    var p, wish := ReadPlan(es, true, DEFAULT_PLAN.(objClass := CKO_SECRET_KEY, keyType := keyType)).plan, SecretWish(keyType, es);
    GeneratedKeepsGuards(ctx, p.isPrivate, MechanismFor(keyType), keyType, random(wish.len), wish.checkValue);
    MakeKeyGuards(w, ctx, caller, p, es, true, Generate, MadeBy(Generate),
                  ContributeGenerated(ctx, p.isPrivate, MechanismFor(keyType), keyType, random(wish.len), wish.checkValue), id);
  }

  lemma UnwrapGuards(w: World, ctx: Context, caller: Caller, es: Template, parts: Option<KeyParts>, id: Id)
    requires Sound(w) && ctx.session == caller.state
    ensures GuardStep(w, UnwrapKey(w, ctx, caller, es, parts).world, caller.state, id)
  {
    hide Sound, ReadPlan, MakeKey, HaveWrite, KeepsGuards, GuardStep, ContributeUnwrapped;
    SparedGuards(w, w, caller.state, id);
    var p := ReadPlan(es, false, DEFAULT_PLAN).plan;
    UnwrappedKeepsGuards(ctx, p.isPrivate, parts);
    MakeKeyGuards(w, ctx, caller, p, es, false, Unwrap, MadeBy(Unwrap), ContributeUnwrapped(ctx, p.isPrivate, parts), id);
  }

  lemma DeriveFromGuards(w: World, ctx: Context, caller: Caller, p: Plan, d: Derivation, es: Template, parity: byte -> byte, i: Id, other: Id, id: Id)
    requires Sound(w) && ctx.session == caller.state && i in w.items && other in w.items
    ensures GuardStep(w, DeriveFrom(w, ctx, caller, p, d, es, parity, i, other).world, caller.state, id)
  {
    hide Sound, ReadWish, DerivedLength, ConcatenatedLength, RawSecret, Material, MakeKey, ContributeDerived, KeepsGuards, GuardStep;
    SparedGuards(w, w, caller.state, id);
    var base, second := w.items[i].attrs, w.items[other].attrs;
    var raw := RawSecret(ctx, d, base, second);
    if raw.Some? {
      forall len: nat, check: bool
        ensures GuardStep(w, MakeKey(w, ctx, caller, p, es, true, Derive, DerivedFrom({i, other}, d.Agreement?),
                                     ContributeDerived(ctx, p, d, base, second, raw.value, len, check, parity)).world, caller.state, id)
      {
        DerivedKeepsGuards(ctx, p, d, base, second, raw.value, len, check, parity);
        MakeKeyGuards(w, ctx, caller, p, es, true, Derive, DerivedFrom({i, other}, d.Agreement?),
                      ContributeDerived(ctx, p, d, base, second, raw.value, len, check, parity), id);
      }
    }
  }

  lemma DeriveGuards(w: World, ctx: Context, caller: Caller, h: Handle, d: Derivation, es: Template, parity: byte -> byte, id: Id)
    requires Sound(w) && ctx.session == caller.state
    ensures GuardStep(w, DeriveKey(w, ctx, caller, h, d, es, parity).world, caller.state, id)
  {
    hide Sound, ReadPlan, DeriveFrom, HaveWrite, HaveRead, Flag, IsPrivate, IsOnToken, GuardStep;
    SparedGuards(w, w, caller.state, id);
    var default := if d.Implicit() then DEFAULT_PLAN.(objClass := CKO_SECRET_KEY, keyType := CKK_GENERIC_SECRET) else DEFAULT_PLAN;
    var p := ReadPlan(es, d.Implicit(), default).plan;
    var i := Lookup(w, h);
    var other := if d.ConcatKey? then Lookup(w, d.other) else i;
    if i.Some? && other.Some? { DeriveFromGuards(w, ctx, caller, p, d, es, parity, i.value, other.value, id); }
  }

  lemma RemovalGuards(w: World, w': World, state: SessionState, id: Id)
    requires id in w'.items ==> id in w.items && w'.items[id] == w.items[id]
    ensures GuardStep(w, w', state, id)
  {
    SparedGuards(w, w', state, id);
  }

  /** Every call obeys the guards of every object. */
  lemma StepGuards(token: Token, w: World, s: Step, id: Id)
    requires Sound(w)
    ensures GuardStep(w, Perform(token, w, s).world, s.caller.state, id)
  {
    hide Sound, GuardStep;
    var ctx := Context(token, s.caller.state);
    match s.call
    case CallCreate(es) => CreateGuards(w, ctx, s.caller, es, id);
    case CallCopy(h, es) => CopyGuards(w, ctx, s.caller, h, es, id);
    case CallSet(h, es) => SetGuards(w, ctx, s.caller, h, es, id);
    case CallDestroy(h) => RemovalGuards(w, DestroyObject(w, s.caller, h).world, s.caller.state, id);
    case CallGenerate(keyType, es, random) => GenerateGuards(w, ctx, s.caller, keyType, es, random, id);
    case CallUnwrap(es, parts) => UnwrapGuards(w, ctx, s.caller, es, parts, id);
    case CallDerive(h, d, es, parity) => DeriveGuards(w, ctx, s.caller, h, d, es, parity, id);
    case CallFind(hits) =>
      FindMakes(w, s.caller, hits);
      RemovalGuards(w, FindObjects(w, s.caller, hits).world, s.caller.state, id);
    case CallLogout => RemovalGuards(w, Logout(w).world, s.caller.state, id);
    case CallClose(session, last) => RemovalGuards(w, CloseSession(w, session, last).world, s.caller.state, id);
  }

  // ----- runs ---------------------------------------------------------------------------------------------------

  lemma RunGuards(token: Token, steps: seq<Step>, j: nat, id: Id)
    requires 0 < j <= |steps|
    ensures var tr := Trace(token, steps); GuardStep(tr[j - 1], tr[j], steps[j - 1].caller.state, id)
    ensures SoundRun(Trace(token, steps)) && Evolves(Trace(token, steps)[j - 1], Trace(token, steps)[j])
  {
    hide Perform, Sound, GuardStep, Evolves;
    TraceLaw(token, steps);
    TraceStep(token, steps, j - 1);
    StepGuards(token, Trace(token, steps)[j - 1], steps[j - 1], id);
  }

  /** Step `k` was one of the security officer, and `anc` was trusted after it. */
  ghost predicate TrustedBy(token: Token, steps: seq<Step>, k: nat, anc: Id) {
    && k < |steps| && steps[k].caller.state == RwSo && anc in Trace(token, steps)[k + 1].items
    && Says(Trace(token, steps)[k + 1].items[anc].attrs, CKA_TRUSTED, true)
  }

  /** Over every run: an object is trusted only if it, or something it was copied from, was trusted after a step
      of the security officer. */
  lemma {:induction false} TrustNeedsOfficer(token: Token, steps: seq<Step>, j: nat, id: Id) returns (k: nat, anc: Id)
    requires j <= |steps| && id in Trace(token, steps)[j].items && Says(Trace(token, steps)[j].items[id].attrs, CKA_TRUSTED, true)
    ensures k < j && TrustedBy(token, steps, k, anc) && CopiedSince(Trace(token, steps), 0, id, anc)
    decreases j
  {
    hide Perform, Evolves, SoundItem, SoundHandles, BornGuarded, UserIn;
    var tr := Trace(token, steps);
    TraceLaw(token, steps);
    assert tr[0] == EMPTY;
    RunGuards(token, steps, j, id);
    var it := tr[j].items[id];
    if steps[j - 1].caller.state == RwSo {
      k, anc := j - 1, id;
    } else if id in tr[j - 1].items {
      k, anc := TrustNeedsOfficer(token, steps, j - 1, id);
    } else if it.origin.CopyOf? {
      k, anc := TrustNeedsOfficer(token, steps, j - 1, it.origin.source);
      CopiedOnce(tr, j, id, it.origin.source, anc);
    } else {
      k, anc := 0, id;
      NotTrusted(steps[j - 1].caller.state, it);
    }
  }

  lemma NotTrusted(state: SessionState, it: Item)
    requires BornGuarded(state, it) && Says(it.attrs, CKA_TRUSTED, true)
    ensures state == RwSo
  {
  }

  /** A copy of something that was copied from an object was copied from it too. */
  lemma CopiedOnce(tr: seq<World>, j: nat, id: Id, src: Id, anc: Id)
    requires SoundRun(tr) && 0 < j < |tr| && id in tr[j].items && id !in tr[0].items && tr[j].items[id].origin == CopyOf(src)
    requires CopiedSince(tr, 0, src, anc)
    ensures CopiedSince(tr, 0, id, anc)
  {
    hide SoundHandles, Whole, WellTyped, Placed;
    assert SoundItem(tr[j].items[id], id);
    assert src in tr[j].items[id].origin.Sources();
    assert src < id && CopiedSince(tr, 0, src, anc);
  }

  /** Over every run: a key that only trusted keys may wrap stays so, and so does everything copied from it. */
  lemma {:induction false} WrapRestrictionForever(token: Token, steps: seq<Step>, i: nat, src: Id, j: nat, id: Id)
    requires i <= j <= |steps|
    requires var tr := Trace(token, steps);
             src in tr[i].items && id in tr[j].items && CopiedSince(tr, i, id, src) && Says(tr[i].items[src].attrs, CKA_WRAP_WITH_TRUSTED, true)
    ensures Says(Trace(token, steps)[j].items[id].attrs, CKA_WRAP_WITH_TRUSTED, true)
    decreases id, j
  {
    hide Perform, Evolves, SoundItem, SoundHandles, BornGuarded, UserIn;
    var tr := Trace(token, steps);
    TraceLaw(token, steps);
    if i < j && id in tr[j - 1].items {
      RunGuards(token, steps, j, id);
      if id == src || i <= j - 1 { WrapRestrictionForever(token, steps, i, src, j - 1, id); }
    } else if id != src {
      var k: nat, s: Id :| i < k < |tr| && id in tr[k].items && tr[k].items[id].origin == CopyOf(s) && id !in tr[i].items && s < id && CopiedSince(tr, i, s, src);
      SameOrigin(tr, k, j, id);
      RunGuards(token, steps, j, id);
      WrapRestrictionForever(token, steps, i, src, j - 1, s);
    } else if i < j {
      StillThere(tr, i, j, id);
    }
  }

  lemma StillThere(tr: seq<World>, i: nat, j: nat, id: Id)
    requires SoundRun(tr) && i < j < |tr| && id in tr[i].items && id in tr[j].items
    ensures id in tr[j - 1].items
  {
    hide SoundItem, SoundHandles, StoredClass;
    assert id < tr[i].next;
    NextGrows(tr, i, j - 1);
    Between(tr, j - 1, j, id);
  }

  /** Over every run: an object that says it may not be copied is never copied from then on. */
  lemma {:induction false} NeverCopied(token: Token, steps: seq<Step>, i: nat, src: Id, j: nat, id: Id)
    requires i < j <= |steps|
    requires var tr := Trace(token, steps);
             && src in tr[i].items && Says(tr[i].items[src].attrs, CKA_COPYABLE, false)
             && id in tr[j].items && id !in tr[j - 1].items
    ensures Trace(token, steps)[j].items[id].origin != CopyOf(src)
  {
    hide Perform, Evolves, SoundItem, SoundHandles, BornGuarded, UserIn;
    var tr := Trace(token, steps);
    RunGuards(token, steps, j, id);
    if tr[j].items[id].origin == CopyOf(src) { StaysUncopyable(token, steps, i, src, j - 1); }
  }

  lemma {:induction false} StaysUncopyable(token: Token, steps: seq<Step>, i: nat, src: Id, j: nat)
    requires i <= j <= |steps|
    requires var tr := Trace(token, steps); src in tr[i].items && Says(tr[i].items[src].attrs, CKA_COPYABLE, false) && src in tr[j].items
    ensures Says(Trace(token, steps)[j].items[src].attrs, CKA_COPYABLE, false)
    decreases j
  {
    hide Perform, Evolves, SoundItem, SoundHandles, BornGuarded, UserIn;
    var tr := Trace(token, steps);
    if i < j {
      RunGuards(token, steps, j, src);
      StillThere(tr, i, j, src);
      StaysUncopyable(token, steps, i, src, j - 1);
    }
  }

  /** No step of the run copies an object that a failed call left behind. */
  ghost predicate CopiesFinished(token: Token, steps: seq<Step>) {
    forall k, id ::
      (0 <= k < |steps| && id in Trace(token, steps)[k + 1].items && id !in Trace(token, steps)[k].items
       && Trace(token, steps)[k + 1].items[id].origin.CopyOf?) ==>
      var src := Trace(token, steps)[k + 1].items[id].origin.source;
      src in Trace(token, steps)[k].items ==> Trace(token, steps)[k].items[src].finished
  }

  /** Over every run that copies finished objects only: a finished object that demands a login for every use is
      private. */
  lemma {:induction false} AlwaysAuthenticateIsPrivate(token: Token, steps: seq<Step>, j: nat, id: Id)
    requires CopiesFinished(token, steps) && j <= |steps| && id in Trace(token, steps)[j].items
    requires var it := Trace(token, steps)[j].items[id]; it.finished && Says(it.attrs, CKA_ALWAYS_AUTHENTICATE, true)
    ensures Says(Trace(token, steps)[j].items[id].attrs, CKA_PRIVATE, true)
    decreases j
  {
    hide Perform, SoundHandles, BornGuarded, UserIn, CopiesFinished, StoredClass, Born, ClaimsShrink, ProtectionGrows, Healthy;
    var tr := Trace(token, steps);
    TraceLaw(token, steps);
    assert tr[0] == EMPTY;
    RunGuards(token, steps, j, id);
    assert SoundItem(tr[j].items[id], id);
    HealthySays(tr[j].items[id].attrs);
    if id in tr[j - 1].items {
      assert SoundItem(tr[j - 1].items[id], id);
      HealthySays(tr[j - 1].items[id].attrs);
      assert Keeps(tr[j - 1].items[id], tr[j].items[id]);
      hide IsPrivate, SoundItem;
      if Says(tr[j - 1].items[id].attrs, CKA_ALWAYS_AUTHENTICATE, true) { AlwaysAuthenticateIsPrivate(token, steps, j - 1, id); }
    } else if tr[j].items[id].origin.CopyOf? {
      var src := tr[j].items[id].origin.source;
      hide IsPrivate, SoundItem;
      if Says(tr[j - 1].items[src].attrs, CKA_ALWAYS_AUTHENTICATE, true) {
        assert tr[j - 1].items[src].finished by { assert CopiesFinished(token, steps); SourceFinished(token, steps, j - 1, id); }
        AlwaysAuthenticateIsPrivate(token, steps, j - 1, src);
      }
    } else {
      BornPrivate(steps[j - 1].caller.state, tr[j].items[id]);
    }
  }

  lemma SourceFinished(token: Token, steps: seq<Step>, k: nat, id: Id)
    requires CopiesFinished(token, steps) && k < |steps| && id in Trace(token, steps)[k + 1].items && id !in Trace(token, steps)[k].items
    requires Trace(token, steps)[k + 1].items[id].origin.CopyOf? && Trace(token, steps)[k + 1].items[id].origin.source in Trace(token, steps)[k].items
    ensures Trace(token, steps)[k].items[Trace(token, steps)[k + 1].items[id].origin.source].finished
  {
  }

  lemma BornPrivate(state: SessionState, it: Item)
    requires BornGuarded(state, it) && it.finished && Says(it.attrs, CKA_ALWAYS_AUTHENTICATE, true)
    ensures Says(it.attrs, CKA_PRIVATE, true)
  {
  }

  // ----- the calls that change, destroy and derive ----------------------------------------------------------------

  /** C_DestroyObject succeeds exactly if the handle leads to an object that may be destroyed and the caller may
      write it; then the object and the handle are gone, and nothing else has changed. */
  lemma DestroyExactly(w: World, caller: Caller, h: Handle)
    requires Sound(w)
    ensures var r, id := DestroyObject(w, caller, h), Lookup(w, h);
            && (r.rv == OK <==>
                  && id.Some?
                  && var o := w.items[id.value].attrs;
                     && (Says(o, CKA_TOKEN, true) ==> !ReadOnly(caller.state)) && (Says(o, CKA_PRIVATE, true) ==> UserIn(caller.state))
                     && !Says(o, CKA_DESTROYABLE, false))
            && (r.rv == OK ==> r.world.items == w.items - {id.value} && r.world.handles == w.handles - {h})
            && (r.rv != OK ==> r.world == w)
            && r.world.next == w.next && r.world.lastHandle == w.lastHandle
  {
    hide ReadOnly, UserIn, Healthy;
    var id := Lookup(w, h);
    if id.Some? {
      var o := w.items[id.value].attrs;
      assert SoundItem(w.items[id.value], id.value);
      PlainFlags(o);
      WriteMatrix(caller.state, IsOnToken(o), IsPrivate(o));
      hide HaveWrite, IsPrivate, IsOnToken;
    }
  }

  lemma PlainFlags(o: Attrs)
    requires Healthy(o)
    ensures IsOnToken(o) == Says(o, CKA_TOKEN, true) && IsPrivate(o) == Says(o, CKA_PRIVATE, true)
    ensures Flag(o, CKA_DESTROYABLE, true) == !Says(o, CKA_DESTROYABLE, false) && Modifiable(o) == !Says(o, CKA_MODIFIABLE, false)
    ensures Copyable(o) == !Says(o, CKA_COPYABLE, false) && Flag(o, CKA_DERIVE, false) == Says(o, CKA_DERIVE, true)
  {
    hide Table, Declares, StoredClass;
    EveryObjectHas(StoredClass(o).value);
    assert KindOf(CKA_PRIVATE).IsFlag() && KindOf(CKA_TOKEN).IsFlag();
    hide KindOf;
  }

  /** C_SetAttributeValue changes an object only if it may be modified, the caller may write it, and it is no
      trusted certificate; it changes no other object, no handle, and neither class nor place of this one. */
  lemma SetExactly(w: World, ctx: Context, caller: Caller, h: Handle, es: Template)
    requires Sound(w)
    ensures var r, id := SetAttributeValue(w, ctx, caller, h, es), Lookup(w, h);
            && r.world.handles == w.handles && r.world.next == w.next && r.world.items.Keys == w.items.Keys
            && (forall j :: j in w.items && Some(j) != id ==> r.world.items[j] == w.items[j])
            && (id.None? ==> r.rv == OBJECT_HANDLE_INVALID)
            && (id.Some? ==>
                  var it, it' := w.items[id.value], r.world.items[id.value];
                  && it' == it.(attrs := it'.attrs)
                  && (it' != it || r.rv == OK ==>
                        && (Says(it.attrs, CKA_TOKEN, true) ==> !ReadOnly(caller.state)) && (Says(it.attrs, CKA_PRIVATE, true) ==> UserIn(caller.state))
                        && !Says(it.attrs, CKA_MODIFIABLE, false))
                  && (it' != it ==> !(Says(it.attrs, CKA_TRUSTED, true) && Class(it.attrs) == CKO_CERTIFICATE))
                  && (it' != it && it.place.OnToken? ==> r.rv == OK))
  {
    hide ReadOnly, UserIn, Healthy, SchemaOf, StoredClass, Initialised, ApplyEntries, AllMandatoryNamed;
    var id := Lookup(w, h);
    if id.Some? {
      var o := w.items[id.value].attrs;
      assert SoundItem(w.items[id.value], id.value);
      PlainFlags(o);
      WriteMatrix(caller.state, IsOnToken(o), IsPrivate(o));
      HasClass(o);
      var c := StoredClass(o).value;
      Reinitialised(c, o);
      if Says(o, CKA_TRUSTED, true) && Class(o) == CKO_CERTIFICATE { FrozenObjects(Job(ctx, SchemaOf(c), IsPrivate(o), Set), o, es); }
      hide HaveWrite, IsPrivate, IsOnToken, Modifiable;
    }
  }

  lemma HasClass(o: Attrs)
    requires Healthy(o)
    ensures StoredClass(o).Some?
  {
  }

  /** Keys are derived only from keys that may be read, say that they allow it, and are of the right class. */
  lemma DeriveNeeds(w: World, ctx: Context, caller: Caller, h: Handle, d: Derivation, es: Template, parity: byte -> byte)
    requires Sound(w) && DeriveKey(w, ctx, caller, h, d, es, parity).rv == OK
    ensures h in w.handles && w.handles[h].target in w.items
    ensures var o := w.items[w.handles[h].target].attrs;
            && Says(o, CKA_DERIVE, true) && (Says(o, CKA_PRIVATE, true) ==> UserIn(caller.state))
            && Class(o) == if d.Agreement? then 3 else 4
  {
    hide ReadPlan, DeriveFrom, HaveWrite, UserIn, Healthy;
    var id := Lookup(w, h).value;
    assert SoundItem(w.items[id], id);
    PlainFlags(w.items[id].attrs);
    ReadMatrix(caller.state, IsOnToken(w.items[id].attrs), IsPrivate(w.items[id].attrs));
  }
}
