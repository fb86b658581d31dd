/** What every call keeps, and what therefore holds over every run of calls: the placement of
    objects, and the meaning of the attributes that summarise an object's history. */
module Runs {
  import opened Cryptoki
  import opened Attributes
  import opened ObjectClasses
  import opened AttributeLaws
  import opened Templates
  import opened ObjectStore
  import opened ObjectLaws

  // ----- the invariant -----------------------------------------------------------------------

  /** The object lives where its own attributes say. */
  predicate Placed(it: Item) {
    && (it.place.OnToken? <==> IsOnToken(it.attrs))
    && (it.place.InSession? ==> it.place.isPrivate == IsPrivate(it.attrs))
  }

  ghost predicate SoundItem(it: Item, id: Id) {
    && Healthy(it.attrs)
    && (it.finished ==> Placed(it))
    && (forall s :: s in it.origin.Sources() ==> s < id)
  }

  ghost predicate SoundHandles(w: World) {
    && (forall id :: id in w.byObject ==>
          id < w.next && w.byObject[id] in w.handles && w.handles[w.byObject[id]].target == id)
    && (forall h :: h in w.handles ==>
          0 < h <= w.lastHandle && w.handles[h].target in w.byObject && w.byObject[w.handles[h].target] == h)
  }

  ghost predicate Sound(w: World) {
    && SoundHandles(w)
    && forall id :: id in w.items ==> id < w.next && SoundItem(w.items[id], id)
  }

  // ----- handles --------------------------------------------------------------------------------

  lemma FreshHandle(w: World, item: Item, caller: Caller, onToken: bool, isPrivate: bool)
    requires SoundHandles(w)
    ensures var r := Hand(Allocate(w, item), caller, w.next, onToken, isPrivate);
            && SoundHandles(r.world) && r.rv == OK
            && r.handle !in w.handles && Lookup(r.world, r.handle) == Some(w.next)
            && r.world.items == w.items[w.next := item] && r.world.next == w.next + 1
            && Remove(Forget(r.world, r.handle), w.next).items == w.items - {w.next}
            && SoundHandles(Forget(r.world, r.handle))
  {
  }

  lemma ForgettingKeepsHandles(w: World, h: Handle)
    requires SoundHandles(w)
    ensures SoundHandles(Forget(w, h)) && Forget(w, h).items == w.items && Forget(w, h).next == w.next
  {
  }

  lemma DroppingKeepsHandles(w: World, dropped: set<Handle>)
    requires SoundHandles(w)
    ensures SoundHandles(KeepHandles(w, dropped))
  {
  }

  // ----- the template as planned and as saved ------------------------------------------------------

  lemma {:induction false} ReorderedFlag(es: Template, t: AttrType, size: nat)
    requires t != CKA_CHECK_VALUE
    ensures LastSized(CheckValueLast(es), t, size) == LastSized(es, t, size)
  {
    LastSizedJoin(WithoutCheckValue(es), OnlyCheckValue(es), t, size);
    OnlyCheckValuesHidden(es, t, size);
  }

  lemma {:induction false} LastSizedJoin(es: Template, fs: Template, t: AttrType, size: nat)
    ensures LastSized(es + fs, t, size) == match LastSized(fs, t, size) case Some(p) => Some(p) case None => LastSized(es, t, size)
    decreases |fs|
  {
    if |fs| == 0 {
      assert es + fs == es;
    } else {
      assert (es + fs)[..|es + fs| - 1] == es + fs[..|fs| - 1];
      LastSizedJoin(es, fs[..|fs| - 1], t, size);
    }
  }

  lemma {:induction false} OnlyCheckValuesHidden(es: Template, t: AttrType, size: nat)
    requires t != CKA_CHECK_VALUE
    ensures LastSized(OnlyCheckValue(es), t, size) == None
    ensures LastSized(WithoutCheckValue(es), t, size) == LastSized(es, t, size)
  {
    if |es| > 0 {
      OnlyCheckValuesHidden(es[..|es| - 1], t, size);
      var e := es[|es| - 1];
      LastSizedJoin(OnlyCheckValue(es[..|es| - 1]), if e.t == CKA_CHECK_VALUE then [e] else [], t, size);
      LastSizedJoin(WithoutCheckValue(es[..|es| - 1]), if e.t == CKA_CHECK_VALUE then [] else [e], t, size);
    }
  }

  /** A saved template leaves CKA_TOKEN and CKA_PRIVATE at the value of their last entry. */
  lemma {:induction false} FlagAsPlanned(job: Job, o: Attrs, es: Template, t: AttrType, default: bool)
    requires t == CKA_TOKEN || t == CKA_PRIVATE
    requires t in o ==> o[t].BoolV?
    requires ApplyEntries(job, o, es).rv == OK
    ensures Flag(ApplyEntries(job, o, es).attrs, t, default) == LastFlag(es, t, Flag(o, t, default))
    decreases |es|
  {
    if |es| > 0 {
      hide AttrSpec.Prohibited, AttrSpec.Writable, KcvOf, Sealed, Refusal;
      var first := UpdateEntry(job, o, es[0]);
      WriteTidy(job.ctx, es[0].t, job.isPrivate, o, es[0].p, job.op, t);
      FlagAsPlanned(job, first.attrs, es[1..], t, default);
      assert es == [es[0]] + es[1..];
      LastSizedJoin([es[0]], es[1..], t, SIZEOF_BBOOL);
    }
  }

  // ----- creation ---------------------------------------------------------------------------------------

  lemma NewObjectFlags(c: ClassId)
    ensures var o := Initialised(c, map[]);
            && !IsOnToken(o) && IsPrivate(o) == !PublicByDefault(c)
            && CKA_TOKEN in o && o[CKA_TOKEN].BoolV? && CKA_PRIVATE in o && o[CKA_PRIVATE].BoolV?
  {
    hide Table, Declares, FillDefaults;
    EveryObjectHas(c);
    InitialisedAt(c, map[], CKA_TOKEN);
    InitialisedAt(c, map[], CKA_PRIVATE);
    assert DefaultOf(CKA_TOKEN) == BoolV(false) && DefaultOf(CKA_PRIVATE) == BoolV(true);
  }

  /** A reordered template, once saved, has put the object where the plan said. */
  lemma SavedAsPlanned(ctx: Context, c: ClassId, es: Template, op: Op, rollback: bool)
    returns (o: Attrs)
    requires op != Copy && op != Set
    requires var p := ReadPlan(es, false, DEFAULT_PLAN);
             p.rv == OK && ClassOf(p.plan.objClass, p.plan.keyType, p.plan.certType) == Some(c)
    requires SaveTemplate(Job(ctx, SchemaOf(c), ReadPlan(es, false, DEFAULT_PLAN).plan.isPrivate, op),
                          Initialised(c, map[]), CheckValueLast(es), rollback).rv == OK
    ensures var p := ReadPlan(es, false, DEFAULT_PLAN).plan;
            && o == SaveTemplate(Job(ctx, SchemaOf(c), p.isPrivate, op), Initialised(c, map[]), CheckValueLast(es), rollback).attrs
            && IsOnToken(o) == p.onToken && IsPrivate(o) == p.isPrivate
  {
    hide Table, Declares, Initialised, ApplyEntries, SchemaOf, CheckValueLast;
    var p := ReadPlan(es, false, DEFAULT_PLAN).plan;
    var job := Job(ctx, SchemaOf(c), p.isPrivate, op);
    var o0 := Initialised(c, map[]);
    o := ApplyEntries(job, o0, CheckValueLast(es)).attrs;
    NewObjectFlags(c);
    FlagAsPlanned(job, o0, CheckValueLast(es), CKA_TOKEN, false);
    FlagAsPlanned(job, o0, CheckValueLast(es), CKA_PRIVATE, true);
    ReorderedFlag(es, CKA_TOKEN, SIZEOF_BBOOL);
    ReorderedFlag(es, CKA_PRIVATE, SIZEOF_BBOOL);
  }

  /** The caller was entitled to write an object with exactly the flags this one has. */
  predicate Authorised(caller: Caller, o: Attrs) { HaveWrite(caller.state, IsOnToken(o), IsPrivate(o)) == OK }

  /** What a draft can be: a half-made object is healthy, a finished one is also where its own
      flags say, and the caller was entitled to exactly those. */
  ghost predicate SoundDraft(d: Draft, caller: Caller) {
    && (d.HalfMade? ==> Healthy(d.item.attrs) && !d.item.finished && d.rv != OK)
    && (d.Complete? ==> Healthy(d.item.attrs) && d.item.finished && Placed(d.item) && Authorised(caller, d.item.attrs))
    && (d.Refused? || d.Undone? ==> d.rv != OK)
  }

  lemma CreateDraftLaw(ctx: Context, caller: Caller, es: Template, op: Op)
    requires op != Copy && op != Set
    ensures var d := DraftObject(ctx, caller, es, op);
            var p := ReadPlan(es, false, DEFAULT_PLAN).plan;
            && SoundDraft(d, caller) && !d.Undone?
            && (d.HalfMade? || d.Complete? ==> d.item.origin == MadeBy(op) && HistoryConsistent(d.item.attrs))
            && (d.Complete? ==>
                  && IsOnToken(d.item.attrs) == p.onToken && IsPrivate(d.item.attrs) == p.isPrivate
                  && StoredClass(d.item.attrs) == ClassOf(p.objClass, p.keyType, p.certType))
  {
    hide Table, Declares, Initialised, SaveTemplate, SchemaOf, CheckValueLast, Healthy, ClassOf, StoredClass, ReadPlan;
    var planned := ReadPlan(es, false, DEFAULT_PLAN);
    var p := planned.plan;
    if planned.rv == OK && ClassOf(p.objClass, p.keyType, p.certType).Some? {
      var c := ClassOf(p.objClass, p.keyType, p.certType).value;
      var job := Job(ctx, SchemaOf(c), p.isPrivate, op);
      NewHealthy(c, p.objClass, p.keyType, p.certType);
      SaveKeepsHealth(job, Initialised(c, map[]), CheckValueLast(es), p.onToken);
      if SaveTemplate(job, Initialised(c, map[]), CheckValueLast(es), p.onToken).rv == OK {
        var o := SavedAsPlanned(ctx, c, es, op, p.onToken);
        MarkCreatedKeepsHealth(o, p.objClass);
      }
    }
  }

  lemma CopyDraftLaw(ctx: Context, caller: Caller, source: Id, o: Attrs, es: Template)
    requires Healthy(o)
    ensures var d := DraftCopy(ctx, caller, source, o, es);
            && SoundDraft(d, caller) && !d.HalfMade?
            && (d.Complete? ==>
                  && d.item.origin == CopyOf(source)
                  && IsOnToken(d.item.attrs) == LastFlag(es, CKA_TOKEN, IsOnToken(o))
                  && IsPrivate(d.item.attrs) == LastFlag(es, CKA_PRIVATE, IsPrivate(o))
                  && StoredClass(d.item.attrs) == StoredClass(o)
                  && ClaimsShrink(o, d.item.attrs) && ProtectionGrows(o, d.item.attrs)
                  && (HistoryConsistent(o) ==> HistoryConsistent(d.item.attrs)))
  {
    hide Table, Declares, Initialised, SaveTemplate, SchemaOf, Healthy, ClassOf, StoredClass, KindOf, Transcript, LastFlag;
    var onToken := LastFlag(es, CKA_TOKEN, IsOnToken(o));
    var isPrivate := LastFlag(es, CKA_PRIVATE, IsPrivate(o));
    var t := Transcript(ctx, !IsPrivate(o) && isPrivate, o);
    if t.Some? {
      var copy := t.value;
      TranscriptLaw(ctx, !IsPrivate(o) && isPrivate, o);
      var c := StoredClass(o).value;
      var job := Job(ctx, SchemaOf(c), isPrivate, Copy);
      Reinitialised(c, copy);
      SaveKeepsHealth(job, copy, es, onToken);
      SaveIsMonotone(job, copy, es, onToken);
      if SaveTemplate(job, copy, es, onToken).rv == OK {
        CopyFlags(job, o, copy, es, onToken);
      }
    }
  }

  lemma Reinitialised(c: ClassId, o: Attrs)
    requires Healthy(o) && StoredClass(o) == Some(c)
    ensures Initialised(c, o) == o
  {
    InitialisedAgain(c, o);
  }

  lemma CopyFlags(job: Job, o: Attrs, copy: Attrs, es: Template, rollback: bool)
    requires Healthy(copy) && SaveTemplate(job, copy, es, rollback).rv == OK
    requires IsOnToken(copy) == IsOnToken(o) && IsPrivate(copy) == IsPrivate(o)
    ensures var o' := SaveTemplate(job, copy, es, rollback).attrs;
            IsOnToken(o') == LastFlag(es, CKA_TOKEN, IsOnToken(o)) && IsPrivate(o') == LastFlag(es, CKA_PRIVATE, IsPrivate(o))
  {
    hide Table, Declares, StoredClass, ApplyEntries;
    assert KindOf(CKA_TOKEN).IsFlag() && KindOf(CKA_PRIVATE).IsFlag();
    FlagAsPlanned(job, copy, es, CKA_TOKEN, false);
    FlagAsPlanned(job, copy, es, CKA_PRIVATE, true);
  }

  /** Carrying over changes the form of byte strings only. */
  lemma TranscriptLaw(ctx: Context, upgrade: bool, o: Attrs)
    requires Healthy(o) && Transcript(ctx, upgrade, o).Some?
    ensures var copy := Transcript(ctx, upgrade, o).value;
            && Healthy(copy) && StoredClass(copy) == StoredClass(o) && StoredClass(o).Some?
            && IsOnToken(copy) == IsOnToken(o) && IsPrivate(copy) == IsPrivate(o)
            && ClaimsShrink(o, copy) && ProtectionGrows(o, copy)
            && (HistoryConsistent(o) ==> HistoryConsistent(copy))
  {
    hide Table, Declares, KindOf;
    var copy := Transcript(ctx, upgrade, o).value;
    assert forall a :: a in o ==> (o[a].BytesV? && copy[a].BytesV?) || o[a] == copy[a];
    assert WellTyped(copy);
  }

  lemma NewHealthy(c: ClassId, objClass: nat, keyType: nat, certType: nat)
    requires ClassOf(objClass, keyType, certType) == Some(c)
    ensures var o := Initialised(c, map[]); Healthy(o) && StoredClass(o) == Some(c) && HistoryConsistent(o)
  {
    NewObject(c, objClass, keyType, certType);
  }

  // ----- one step ---------------------------------------------------------------------------------------

  /** What any call may do to an object that it does not remove. */
  ghost predicate Keeps(it: Item, it': Item) {
    && it'.place == it.place && it'.origin == it.origin && it'.finished == it.finished
    && IsOnToken(it'.attrs) == IsOnToken(it.attrs) && IsPrivate(it'.attrs) == IsPrivate(it.attrs)
    && StoredClass(it'.attrs) == StoredClass(it.attrs)
    && ClaimsShrink(it.attrs, it'.attrs) && ProtectionGrows(it.attrs, it'.attrs)
  }

  /** A new object comes from objects that exist; a copy is of the same class, protected as well
      as the original, and claims no more. */
  ghost predicate Born(w: World, it: Item) {
    && (forall s :: s in it.origin.Sources() ==> s in w.items)
    && (it.origin.CopyOf? ==>
          var o := w.items[it.origin.source].attrs;
          StoredClass(it.attrs) == StoredClass(o) && ProtectionGrows(o, it.attrs) && ClaimsShrink(o, it.attrs))
  }

  ghost predicate Evolves(w: World, w': World) {
    && w.next <= w'.next
    && forall id :: id in w'.items ==>
         if id in w.items then Keeps(w.items[id], w'.items[id]) else w.next <= id && Born(w, w'.items[id])
  }

  /** No claim about the past contradicts the present. */
  ghost predicate Honest(w: World) { forall id :: id in w.items ==> HistoryConsistent(w.items[id].attrs) }

  /** A new object claims no more than anything it was made from. */
  ghost predicate BornHonest(w: World, it: Item) {
    && HistoryConsistent(it.attrs)
    && forall s :: s in it.origin.Sources() ==> s in w.items && ClaimsShrink(w.items[s].attrs, it.attrs)
  }

  ghost predicate HonestStep(w: World, w': World) {
    && Honest(w')
    && forall id :: id in w'.items && id !in w.items ==> BornHonest(w, w'.items[id])
  }

  /** What is proved of every step: the library stays sound and objects evolve as they should; if
      the step is an honest one, honesty is kept too. */
  ghost predicate Advances(w: World, w': World, honest: bool) {
    Sound(w') && Evolves(w, w') && (honest && Honest(w) ==> HonestStep(w, w'))
  }

  /** Whatever objects are new and finished, the caller was entitled to make. */
  ghost predicate BirthsAuthorised(w: World, w': World, caller: Caller) {
    forall id :: id in w'.items && id !in w.items && w'.items[id].finished ==> Authorised(caller, w'.items[id].attrs)
  }

  lemma ReflexiveSteps()
    ensures forall o :: ClaimsShrink(o, o) && ProtectionGrows(o, o)
  {
  }

  /** A step that adds one object and touches no other. */
  lemma OneMore(w: World, w': World, item: Item, caller: Caller)
    requires Sound(w) && SoundHandles(w') && w'.items == w.items[w.next := item] && w'.next == w.next + 1
    requires Healthy(item.attrs) && (item.finished ==> Placed(item) && Authorised(caller, item.attrs))
    requires Born(w, item) && (Honest(w) ==> BornHonest(w, item))
    ensures Advances(w, w', true) && BirthsAuthorised(w, w', caller)
  {
    hide Healthy, StoredClass, Placed, Authorised, ClaimsShrink, ProtectionGrows, HistoryConsistent;
    ReflexiveSteps();
  }

  lemma SameObjects(w: World, w': World, caller: Caller)
    requires Sound(w) && SoundHandles(w') && w'.items == w.items && w.next <= w'.next
    ensures Advances(w, w', true) && BirthsAuthorised(w, w', caller)
  {
    hide Healthy, StoredClass, Placed, Authorised, ClaimsShrink, ProtectionGrows, HistoryConsistent;
    ReflexiveSteps();
  }

  lemma SameHandles(w: World, w': World)
    requires SoundHandles(w) && w.next <= w'.next
    requires w'.handles == w.handles && w'.byObject == w.byObject && w'.lastHandle == w.lastHandle
    ensures SoundHandles(w')
  {
  }

  lemma EnactLaw(w: World, caller: Caller, d: Draft, onToken: bool, isPrivate: bool)
    requires Sound(w) && SoundDraft(d, caller)
    requires d.HalfMade? || d.Complete? ==> Born(w, d.item) && (Honest(w) ==> BornHonest(w, d.item))
    ensures var r := Enact(w, caller, d, onToken, isPrivate); Advances(w, r.world, true) && BirthsAuthorised(w, r.world, caller)
    ensures var r := Enact(w, caller, d, onToken, isPrivate); (r.rv == OK <==> d.Complete?) && SoundHandles(r.world)
    ensures var r := Enact(w, caller, d, onToken, isPrivate);
            d.Complete? ==>
              && r.handle !in w.handles && Lookup(r.world, r.handle) == Some(w.next)
              && r.world.items == w.items[w.next := d.item] && r.world.next == w.next + 1
              && Remove(Forget(r.world, r.handle), w.next).items == w.items - {w.next}
              && SoundHandles(Forget(r.world, r.handle))
  {
    hide SoundHandles, BornHonest, Keeps, SoundItem, Born, Honest;
    var w' := Enact(w, caller, d, onToken, isPrivate).world;
    if d.Complete? {
      FreshHandle(w, d.item, caller, onToken, isPrivate);
      OneMore(w, w', d.item, caller);
    } else {
      SameHandles(w, w');
      if d.HalfMade? { OneMore(w, w', d.item, caller); } else { SameObjects(w, w', caller); }
    }
  }

  lemma CreateLaw(w: World, ctx: Context, caller: Caller, es: Template)
    requires Sound(w)
    ensures var r := CreateObject(w, ctx, caller, es, Create); Advances(w, r.world, true) && BirthsAuthorised(w, r.world, caller)
  {
    hide DraftObject, SoundDraft, Sound, Advances, Enact, ReadPlan;
    var p := ReadPlan(es, false, DEFAULT_PLAN).plan;
    CreateDraftLaw(ctx, caller, es, Create);
    EnactLaw(w, caller, DraftObject(ctx, caller, es, Create), p.onToken, p.isPrivate);
  }

  lemma CopyLaw(w: World, ctx: Context, caller: Caller, h: Handle, es: Template)
    requires Sound(w)
    ensures var r := CopyObject(w, ctx, caller, h, es); Advances(w, r.world, true) && BirthsAuthorised(w, r.world, caller)
  {
    hide DraftCopy, SoundDraft, Enact, Healthy, ClaimsShrink, ProtectionGrows, StoredClass, Placed, SoundHandles;
    var id := Lookup(w, h);
    if id.Some? {
      var o := w.items[id.value].attrs;
      CopyDraftLaw(ctx, caller, id.value, o, es);
      EnactLaw(w, caller, DraftCopy(ctx, caller, id.value, o, es),
               LastFlag(es, CKA_TOKEN, IsOnToken(o)), LastFlag(es, CKA_PRIVATE, IsPrivate(o)));
    } else {
      Unchanged(w);
    }
  }

  lemma Unchanged(w: World)
    requires Sound(w)
    ensures Advances(w, w, true)
  {
  }

  lemma SetLaw(w: World, ctx: Context, caller: Caller, h: Handle, es: Template)
    requires Sound(w)
    ensures var r := SetAttributeValue(w, ctx, caller, h, es); Advances(w, r.world, true)
  {
    hide Table, Declares, SaveTemplate, Initialised, SchemaOf, SoundHandles, KindOf, ClassOf;
    Unchanged(w);
    var id := Lookup(w, h);
    if id.Some? && Modifiable(w.items[id.value].attrs) {
      var it := w.items[id.value];
      var o := it.attrs;
      var c := StoredClass(o).value;
      var job := Job(ctx, SchemaOf(c), IsPrivate(o), Set);
      Reinitialised(c, o);
      SaveKeepsHealth(job, o, es, it.place.OnToken?);
      SaveIsMonotone(job, o, es, it.place.OnToken?);
      SetKeepsFlags(job, c, o, es, it.place.OnToken?);
      PutLaw(w, id.value, SaveTemplate(job, o, es, it.place.OnToken?).attrs);
    }
  }

  lemma SetKeepsFlags(job: Job, c: ClassId, o: Attrs, es: Template, rollback: bool)
    requires job.op.Set? && job.schema == SchemaOf(c)
    ensures var o' := SaveTemplate(job, o, es, rollback).attrs;
            SameAt(o, o', CKA_TOKEN) && SameAt(o, o', CKA_PRIVATE)
  {
    hide SchemaOf;
    PlacementIsFixed(c, CKA_TOKEN);
    PlacementIsFixed(c, CKA_PRIVATE);
    ApplyCannotWrite(job, o, es, CKA_TOKEN);
    ApplyCannotWrite(job, o, es, CKA_PRIVATE);
  }

  /** An attribute that the operation may not write, and no other write maintains, stays. */
  lemma {:induction false} ApplyCannotWrite(job: Job, o: Attrs, es: Template, a: AttrType)
    requires forall t :: Touches(t, a) ==> t == a
    requires a in job.schema ==> job.schema[a].Prohibited(job.op) || !job.schema[a].Writable(job.op)
    ensures SameAt(o, ApplyEntries(job, o, es).attrs, a)
    decreases |es|
  {
    if |es| > 0 {
      var first := UpdateEntry(job, o, es[0]);
      WriteTidy(job.ctx, es[0].t, job.isPrivate, o, es[0].p, job.op, a);
      if first.rv == OK { ApplyCannotWrite(job, first.attrs, es[1..], a); }
    }
  }

  lemma PutLaw(w: World, id: Id, o: Attrs)
    requires Sound(w) && id in w.items
    requires Healthy(o) && StoredClass(o) == StoredClass(w.items[id].attrs)
    requires IsOnToken(o) == IsOnToken(w.items[id].attrs) && IsPrivate(o) == IsPrivate(w.items[id].attrs)
    requires ClaimsShrink(w.items[id].attrs, o) && ProtectionGrows(w.items[id].attrs, o)
    requires HistoryConsistent(w.items[id].attrs) ==> HistoryConsistent(o)
    ensures Advances(w, PutAttrs(w, id, o), true)
  {
    hide Healthy, StoredClass;
    assert SoundHandles(PutAttrs(w, id, o));
  }

  // ----- keys made by the library ---------------------------------------------------------------------

  lemma {:induction false} RestHidesHeader(es: Template, dropCheck: bool, t: AttrType, size: nat)
    requires t == CKA_CLASS || t == CKA_TOKEN || t == CKA_PRIVATE || t == CKA_KEY_TYPE
    ensures LastSized(Rest(es, dropCheck), t, size) == None
  {
    if |es| > 0 {
      RestHidesHeader(es[..|es| - 1], dropCheck, t, size);
      var e := es[|es| - 1];
      LastSizedJoin(Rest(es[..|es| - 1], dropCheck), [e], t, size);
      assert Rest(es[..|es| - 1], dropCheck) + [] == Rest(es[..|es| - 1], dropCheck);
    }
  }

  /** Values that fit a CK_ULONG. */
  predicate IsWord(n: nat) { n < Power256(SIZEOF_ULONG) }

  lemma HeaderSays(p: Plan)
    requires IsWord(p.objClass) && IsWord(p.keyType)
    ensures |Header(p)| == 4
    ensures LastSized(Header(p), CKA_CLASS, SIZEOF_ULONG).Some? && LastSized(Header(p), CKA_KEY_TYPE, SIZEOF_ULONG).Some?
    ensures LastNumber(Header(p), CKA_CLASS, 0) == p.objClass && LastNumber(Header(p), CKA_KEY_TYPE, 0) == p.keyType
    ensures LastSized(Header(p), CKA_PRIVATE, SIZEOF_BBOOL).Some? && LastSized(Header(p), CKA_TOKEN, SIZEOF_BBOOL).Some?
    ensures LastFlag(Header(p), CKA_TOKEN, false) == p.onToken && LastFlag(Header(p), CKA_PRIVATE, false) == p.isPrivate
  {
    var h := Header(p);
    ToWordFromWord(p.objClass, SIZEOF_ULONG);
    ToWordFromWord(p.keyType, SIZEOF_ULONG);
    assert h[..3] == [h[0], h[1], h[2]] && h[..3][..2] == [h[0], h[1]] && h[..3][..2][..1] == [h[0]];
    assert LastSized(h, CKA_KEY_TYPE, SIZEOF_ULONG) == Some(h[3].p);
    assert LastSized(h[..3], CKA_PRIVATE, SIZEOF_BBOOL) == Some(h[2].p);
    assert LastSized(h[..3][..2], CKA_TOKEN, SIZEOF_BBOOL) == Some(h[1].p);
    assert LastSized(h[..3][..2][..1], CKA_CLASS, SIZEOF_ULONG) == Some(h[0].p);
    assert LastSized(h[..3][..2], CKA_CLASS, SIZEOF_ULONG) == Some(h[0].p);
    assert LastSized(h[..3], CKA_CLASS, SIZEOF_ULONG) == Some(h[0].p);
    assert LastSized(h[..3], CKA_TOKEN, SIZEOF_BBOOL) == Some(h[1].p);
  }

  /** The assembled template says what the caller's template said. */
  lemma AssembledPlan(p: Plan, es: Template, dropCheck: bool)
    requires IsWord(p.objClass) && IsWord(p.keyType)
    requires p.objClass == CKO_SECRET_KEY || p.objClass == CKO_PRIVATE_KEY
    ensures var q := ReadPlan(Header(p) + Rest(es, dropCheck), false, DEFAULT_PLAN);
            q.rv == OK && q.plan == p.(certType := q.plan.certType) && |Header(p)| == 4
  {
    hide Header, Rest, LastSized;
    HeaderSays(p);
    LastSizedJoin(Header(p), Rest(es, dropCheck), CKA_CLASS, SIZEOF_ULONG);
    LastSizedJoin(Header(p), Rest(es, dropCheck), CKA_KEY_TYPE, SIZEOF_ULONG);
    LastSizedJoin(Header(p), Rest(es, dropCheck), CKA_TOKEN, SIZEOF_BBOOL);
    LastSizedJoin(Header(p), Rest(es, dropCheck), CKA_PRIVATE, SIZEOF_BBOOL);
    RestHidesHeader(es, dropCheck, CKA_CLASS, SIZEOF_ULONG);
    RestHidesHeader(es, dropCheck, CKA_KEY_TYPE, SIZEOF_ULONG);
    RestHidesHeader(es, dropCheck, CKA_TOKEN, SIZEOF_BBOOL);
    RestHidesHeader(es, dropCheck, CKA_PRIVATE, SIZEOF_BBOOL);
  }

  /** What the calls that make keys must contribute: healthy objects of the same class that claim
      no more than the keys they come from. */
  ghost predicate GoodContribution(w: World, origin: Origin, contribute: Attrs -> Option<Attrs>, honest: bool) {
    forall o :: HealthyKey(o) && contribute(o).Some? ==>
      && Healthy(contribute(o).value) && Contribution(o, contribute(o).value)
      && (honest && Honest(w) ==> BornHonest(w, Item(contribute(o).value, OnToken, origin, true)))
  }

  lemma SecretClass(p: Plan, c: ClassId)
    requires p.objClass == CKO_SECRET_KEY || p.objClass == CKO_PRIVATE_KEY
    requires Some(c) == ClassOf(p.objClass, p.keyType, p.certType)
    ensures MakesClaims(c)
  {
  }

  lemma MadeHasClaims(o: Attrs, q: Plan)
    requires q.objClass == CKO_SECRET_KEY || q.objClass == CKO_PRIVATE_KEY
    requires Healthy(o) && StoredClass(o) == ClassOf(q.objClass, q.keyType, q.certType)
    ensures HealthyKey(o)
  {
    SecretClass(q, StoredClass(o).value);
  }

  lemma ContributionKeepsPlace(it: Item, o: Attrs)
    requires Contribution(it.attrs, o) && Placed(it) && Healthy(it.attrs)
    ensures Placed(it.(attrs := o)) && IsOnToken(o) == IsOnToken(it.attrs) && IsPrivate(o) == IsPrivate(it.attrs)
  {
    hide KindOf, Table, Declares, StoredClass, WellTyped;
    EveryObjectHas(StoredClass(it.attrs).value);
    assert SameAt(it.attrs, o, CKA_TOKEN) && SameAt(it.attrs, o, CKA_PRIVATE);
  }

  lemma Weaker(w: World, w': World, honest: bool)
    ensures Advances(w, w', true) ==> Advances(w, w', honest)
  {
    hide Sound, Evolves, Honest, HonestStep;
  }

  /** The world after a new object was destroyed again. */
  lemma Removed(w: World, w': World, h: Handle)
    requires Sound(w) && w'.next == w.next + 1
    requires SoundHandles(Forget(w', h)) && Remove(Forget(w', h), w.next).items == w.items - {w.next}
    ensures Advances(w, Remove(Forget(w', h), w.next), true)
  {
    hide Healthy, StoredClass, Placed;
  }

  /** The world after a new object was completed. */
  lemma Completed(w: World, w': World, it: Item, it': Item, honest: bool)
    requires Sound(w) && SoundHandles(w') && w'.next == w.next + 1 && w'.items == w.items[w.next := it]
    requires Healthy(it'.attrs) && Placed(it') && Born(w, it') && (honest && Honest(w) ==> BornHonest(w, it'))
    ensures var w'' := w'.(items := w'.items[w.next := it']); Advances(w, w'', honest)
  {
    hide Healthy, StoredClass, Placed;
    assert SoundHandles(w'.(items := w'.items[w.next := it']));
  }

  lemma SameAuthority(caller: Caller, o: Attrs, o': Attrs)
    requires IsOnToken(o) == IsOnToken(o') && IsPrivate(o) == IsPrivate(o')
    ensures Authorised(caller, o) == Authorised(caller, o')
  {
  }

  lemma CompleteKeyLaw(w: World, made: Reply, it: Item, caller: Caller, origin: Origin,
                       contribute: Attrs -> Option<Attrs>, honest: bool)
    requires Sound(w) && SoundHandles(made.world) && made.world.next == w.next + 1 && made.world.items == w.items[w.next := it]
    requires Lookup(made.world, made.handle) == Some(w.next)
    requires Remove(Forget(made.world, made.handle), w.next).items == w.items - {w.next}
    requires SoundHandles(Forget(made.world, made.handle))
    requires HealthyKey(it.attrs) && Placed(it) && Authorised(caller, it.attrs)
    requires !origin.CopyOf? && (forall s :: s in origin.Sources() ==> s in w.items)
    requires GoodContribution(w, origin, contribute, honest)
    ensures var r := CompleteKey(made, origin, contribute); Advances(w, r.world, honest) && BirthsAuthorised(w, r.world, caller)
  {
    hide Sound, Advances, SoundHandles, StoredClass, Forget, Contribution, Authorised;
    Removed(w, made.world, made.handle);
    Weaker(w, Remove(Forget(made.world, made.handle), w.next), honest);
    var o := contribute(it.attrs);
    if o.Some? {
      ContributionKeepsPlace(it, o.value);
      SameAuthority(caller, it.attrs, o.value);
      Completed(w, made.world, it, it.(attrs := o.value, origin := origin), honest);
    }
  }

  lemma MakeKeyLaw(w: World, ctx: Context, caller: Caller, p: Plan, es: Template, dropCheck: bool, op: Op,
                   origin: Origin, contribute: Attrs -> Option<Attrs>, honest: bool)
    requires Sound(w) && op != Copy && op != Set
    requires IsWord(p.objClass) && IsWord(p.keyType)
    requires p.objClass == CKO_SECRET_KEY || p.objClass == CKO_PRIVATE_KEY
    requires !origin.CopyOf? && (forall s :: s in origin.Sources() ==> s in w.items)
    requires GoodContribution(w, origin, contribute, honest)
    ensures var r := MakeKey(w, ctx, caller, p, es, dropCheck, op, origin, contribute);
            Advances(w, r.world, honest) && BirthsAuthorised(w, r.world, caller)
  {
    hide DraftObject, Header, Rest, Healthy, HealthyKey, ClassOf, Enact, ReadPlan, StoredClass, Contribution;
    hide Sound, Advances, SoundHandles, ClaimsShrink, ProtectionGrows, Forget, Remove, Authorised, CompleteKey, Placed;
    Unchanged(w);
    var full := Header(p) + Rest(es, dropCheck);
    var q := ReadPlan(full, false, DEFAULT_PLAN).plan;
    var d := DraftObject(ctx, caller, full, op);
    AssembledPlan(p, es, dropCheck);
    CreateDraftLaw(ctx, caller, full, op);
    EnactLaw(w, caller, d, q.onToken, q.isPrivate);
    var made := CreateObject(w, ctx, caller, full, op);
    Weaker(w, w, honest);
    Weaker(w, made.world, honest);
    if d.Complete? {
      MadeHasClaims(d.item.attrs, q);
      CompleteKeyLaw(w, made, d.item, caller, origin, contribute, honest);
    }
  }

  lemma {:induction false} WordsAreWords(es: Template, t: AttrType, default: nat)
    requires IsWord(default)
    ensures IsWord(LastNumber(es, t, default))
  {
    if |es| > 0 {
      var e := es[|es| - 1];
      FromWordBound(e.p.Data());
      WordsAreWords(es[..|es| - 1], t, default);
      if e.t == t && e.p.Length() == SIZEOF_ULONG { assert e.p.NullPtr? || |e.p.Data()| == SIZEOF_ULONG; }
    }
  }

  lemma PlanWords(es: Template, implicit: bool, d: Plan)
    requires IsWord(d.objClass) && IsWord(d.keyType)
    ensures var p := ReadPlan(es, implicit, d).plan; IsWord(p.objClass) && IsWord(p.keyType)
  {
    WordsAreWords(es, CKA_CLASS, d.objClass);
    WordsAreWords(es, CKA_KEY_TYPE, d.keyType);
  }

  lemma GenerateLaw(w: World, ctx: Context, caller: Caller, keyType: nat, es: Template, random: nat -> Bytes)
    requires Sound(w)
    ensures var r := GenerateKey(w, ctx, caller, keyType, es, random); Advances(w, r.world, true) && BirthsAuthorised(w, r.world, caller)
  {
    hide Sound, Advances, ReadPlan, SecretWish, MakeKey, ContributeGenerated, Healthy, HealthyKey, Contribution;
    hide ClaimsShrink, StoredClass, ProtectionGrows;
    Unchanged(w);
    var p := ReadPlan(es, true, DEFAULT_PLAN.(objClass := CKO_SECRET_KEY, keyType := keyType)).plan;
    if Generates(keyType) && p.objClass == CKO_SECRET_KEY {
      PlanWords(es, true, DEFAULT_PLAN.(objClass := CKO_SECRET_KEY, keyType := keyType));
      var wish, mechanism := SecretWish(keyType, es), MechanismFor(keyType);
      var contribute := ContributeGenerated(ctx, p.isPrivate, mechanism, keyType, random(wish.len), wish.checkValue);
      forall o | HealthyKey(o)
        ensures contribute(o).Some? && Healthy(contribute(o).value) && Contribution(o, contribute(o).value)
        ensures HistoryConsistent(contribute(o).value)
      {
        GeneratedIsHealthy(ctx, p.isPrivate, mechanism, keyType, random(wish.len), wish.checkValue, o);
      }
      MakeKeyLaw(w, ctx, caller, p, es, true, Generate, MadeBy(Generate), contribute, true);
    }
  }

  lemma UnwrapLaw(w: World, ctx: Context, caller: Caller, es: Template, parts: Option<KeyParts>)
    requires Sound(w)
    ensures var r := UnwrapKey(w, ctx, caller, es, parts); Advances(w, r.world, true) && BirthsAuthorised(w, r.world, caller)
  {
    hide Sound, Advances, ReadPlan, MakeKey, ContributeUnwrapped, Healthy, Contribution;
    hide ClaimsShrink, StoredClass, ProtectionGrows;
    Unchanged(w);
    var planned := ReadPlan(es, false, DEFAULT_PLAN);
    var p := planned.plan;
    PlanWords(es, false, DEFAULT_PLAN);
    if p.objClass == CKO_SECRET_KEY || p.objClass == CKO_PRIVATE_KEY {
      var contribute := ContributeUnwrapped(ctx, p.isPrivate, parts);
      forall o | HealthyKey(o) && contribute(o).Some?
        ensures Healthy(contribute(o).value) && Contribution(o, contribute(o).value)
        ensures HistoryConsistent(contribute(o).value)
      {
        UnwrappedSome(ctx, p.isPrivate, parts, o);
        UnwrappedIsHealthy(ctx, p.isPrivate, parts.value, o);
      }
      MakeKeyLaw(w, ctx, caller, p, es, false, Unwrap, MadeBy(Unwrap), contribute, true);
    }
  }

  lemma UnwrappedSome(ctx: Context, isPrivate: bool, parts: Option<KeyParts>, o: Attrs)
    ensures ContributeUnwrapped(ctx, isPrivate, parts)(o).Some? ==> parts.Some?
  {
  }

  lemma DeriveFromLaw(w: World, ctx: Context, caller: Caller, p: Plan, d: Derivation, es: Template, parity: byte -> byte, id: Id, other: Id)
    requires Sound(w) && IsWord(p.objClass) && IsWord(p.keyType) && p.objClass == CKO_SECRET_KEY
    requires id in w.items && other in w.items && (!d.ConcatKey? ==> other == id) && Class(w.items[id].attrs) == BaseClass(d)
    ensures var r := DeriveFrom(w, ctx, caller, p, d, es, parity, id, other);
            Advances(w, r.world, !d.ConcatKey?) && BirthsAuthorised(w, r.world, caller)
  {
    hide Advances, MakeKey, ContributeDerived, Healthy, Contribution, RawSecret, DerivedLength, ConcatenatedLength;
    hide ClaimsShrink, StoredClass, ProtectionGrows, ReadWish, SoundHandles, Material, Placed;
    Unchanged(w);
    Weaker(w, w, !d.ConcatKey?);
    var base, second := w.items[id].attrs, w.items[other].attrs;
    BaseMakesClaims(base);
    var raw := RawSecret(ctx, d, base, second);
    if raw.Some? {
      forall len: nat, check: bool
        ensures var r := MakeKey(w, ctx, caller, p, es, true, Derive, DerivedFrom({id, other}, d.Agreement?),
                                 ContributeDerived(ctx, p, d, base, second, raw.value, len, check, parity));
                Advances(w, r.world, !d.ConcatKey?) && BirthsAuthorised(w, r.world, caller)
      {
        DerivedIsGood(w, ctx, p, d, id, other, raw.value, len, check, parity);
        MakeKeyLaw(w, ctx, caller, p, es, true, Derive, DerivedFrom({id, other}, d.Agreement?),
                   ContributeDerived(ctx, p, d, base, second, raw.value, len, check, parity), !d.ConcatKey?);
      }
    }
  }

  lemma DeriveLaw(w: World, ctx: Context, caller: Caller, h: Handle, d: Derivation, es: Template, parity: byte -> byte)
    requires Sound(w)
    ensures var r := DeriveKey(w, ctx, caller, h, d, es, parity); Advances(w, r.world, !d.ConcatKey?) && BirthsAuthorised(w, r.world, caller)
  {
    hide Advances, Sound, ReadPlan, DeriveFrom;
    Unchanged(w);
    Weaker(w, w, !d.ConcatKey?);
    var default := if d.Implicit() then DEFAULT_PLAN.(objClass := CKO_SECRET_KEY, keyType := CKK_GENERIC_SECRET) else DEFAULT_PLAN;
    PlanWords(es, d.Implicit(), default);
    var p := ReadPlan(es, d.Implicit(), default).plan;
    var id := Lookup(w, h);
    var other := if d.ConcatKey? then Lookup(w, d.other) else id;
    if id.Some? && other.Some? && p.objClass == CKO_SECRET_KEY && Class(w.items[id.value].attrs) == BaseClass(d) {
      DeriveFromLaw(w, ctx, caller, p, d, es, parity, id.value, other.value);
    }
  }

  lemma BaseMakesClaims(o: Attrs)
    requires Healthy(o) && (Class(o) == CKO_PRIVATE_KEY || Class(o) == CKO_SECRET_KEY)
    ensures HealthyKey(o)
  {
  }

  lemma DerivedIsGood(w: World, ctx: Context, p: Plan, d: Derivation, id: Id, other: Id, raw: Bytes, len: nat, checkValue: bool, parity: byte -> byte)
    requires id in w.items && HealthyKey(w.items[id].attrs) && other in w.items && (!d.ConcatKey? ==> other == id)
    ensures GoodContribution(w, DerivedFrom({id, other}, d.Agreement?),
              ContributeDerived(ctx, p, d, w.items[id].attrs, w.items[other].attrs, raw, len, checkValue, parity), !d.ConcatKey?)
  {
    hide DerivedKey, Healthy, Contribution, StoredClass, ClaimsShrink, HistoryConsistent;
    var base, second := w.items[id].attrs, w.items[other].attrs;
    var contribute := ContributeDerived(ctx, p, d, base, second, raw, len, checkValue, parity);
    forall o | HealthyKey(o) && contribute(o).Some?
      ensures Healthy(contribute(o).value) && Contribution(o, contribute(o).value)
      ensures !d.ConcatKey? ==>
                ClaimsShrink(base, contribute(o).value) && (HistoryConsistent(base) ==> HistoryConsistent(contribute(o).value))
    {
      DerivedIsHealthy(ctx, p, d, base, second, raw, len, checkValue, parity, o);
    }
  }

  // ----- removal -------------------------------------------------------------------------------------------

  /** Objects may go, handles may go, nothing else happens. */
  lemma OnlyRemovals(w: World, w': World)
    requires Sound(w) && SoundHandles(w') && w'.next == w.next
    requires forall id :: id in w'.items ==> id in w.items && w'.items[id] == w.items[id]
    ensures Advances(w, w', true)
  {
    hide Healthy, Placed, StoredClass;
  }

  lemma DestroyLaw(w: World, caller: Caller, h: Handle)
    requires Sound(w)
    ensures var r := DestroyObject(w, caller, h); Advances(w, r.world, true)
  {
    hide SoundItem, Advances;
    ForgettingKeepsHandles(w, h);
    OnlyRemovals(w, DestroyObject(w, caller, h).world);
  }

  lemma RegisteringKeepsHandles(w: World, id: Id, isPrivate: bool, session: nat)
    requires SoundHandles(w) && id < w.next
    ensures var r := Register(w, id, isPrivate, session);
            && SoundHandles(r.0) && r.0.items == w.items && r.0.next == w.next && r.1 != CK_INVALID_HANDLE
            && r.0.byObject.Keys == w.byObject.Keys + {id}
            && (forall j :: j in w.byObject ==> r.0.byObject[j] == w.byObject[j])
  {
  }

  /** A search always succeeds in giving handles: it leaves every object and every handle as they were,
      and afterwards each object found has a handle that leads to it. */
  lemma {:induction false} FoundHaveHandles(w: World, caller: Caller, hits: seq<Id>)
    requires Sound(w)
    ensures var r := FindObjects(w, caller, hits);
            && r.rv == OK && SoundHandles(r.world) && r.world.items == w.items && r.world.next == w.next
            && (forall j :: j in w.byObject ==> j in r.world.byObject && r.world.byObject[j] == w.byObject[j])
            && (forall i :: 0 <= i < |hits| && hits[i] in w.items && Visible(caller.state, w.items[hits[i]].attrs) ==>
                  hits[i] in r.world.byObject && Lookup(r.world, r.world.byObject[hits[i]]) == Some(hits[i]))
  {
    hide SoundItem, Visible;
    if |hits| > 0 {
      var front, id := hits[..|hits| - 1], hits[|hits| - 1];
      FoundHaveHandles(w, caller, front);
      var sofar := FindObjects(w, caller, front).world;
      if id in w.items && Visible(caller.state, w.items[id].attrs) {
        var o := w.items[id].attrs;
        RegisteringKeepsHandles(sofar, id, IsPrivate(o), if IsOnToken(o) then 0 else caller.session);
      }
      hide Register;
      assert forall i :: 0 <= i < |front| ==> hits[i] == front[i];
    }
  }

  lemma FindLaw(w: World, caller: Caller, hits: seq<Id>)
    requires Sound(w)
    ensures var r := FindObjects(w, caller, hits); Advances(w, r.world, true) && BirthsAuthorised(w, r.world, caller)
  {
    hide SoundItem, Advances, FindObjects, SoundHandles;
    FoundHaveHandles(w, caller, hits);
    OnlyRemovals(w, FindObjects(w, caller, hits).world);
  }

  lemma LogoutLaw(w: World)
    requires Sound(w)
    ensures var r := Logout(w); Advances(w, r.world, true)
  {
    hide SoundItem, Advances;
    DroppingKeepsHandles(w, PrivateHandles(w));
    OnlyRemovals(w, Logout(w).world);
  }

  lemma CloseLaw(w: World, session: nat, last: bool)
    requires Sound(w)
    ensures var r := CloseSession(w, session, last); Advances(w, r.world, true)
  {
    hide SoundItem, Advances;
    DroppingKeepsHandles(w, HandlesOf(w, session, last));
    OnlyRemovals(w, CloseSession(w, session, last).world);
  }

  // ----- every step, every run ----------------------------------------------------------------------------------

  predicate ConcatenatesKeys(s: Step) { s.call.CallDerive? && s.call.d.ConcatKey? }

  /** Every call keeps the library sound and lowers no protection; every call but the concatenation
      of two keys keeps its claims honest. */
  lemma StepLaw(token: Token, w: World, s: Step)
    requires Sound(w)
    ensures Advances(w, Perform(token, w, s).world, !ConcatenatesKeys(s))
    ensures BirthsAuthorised(w, Perform(token, w, s).world, s.caller)
  {
    hide Sound, Advances;
    var ctx := Context(token, s.caller.state);
    match s.call
    case CallCreate(es) => CreateLaw(w, ctx, s.caller, es);
    case CallCopy(h, es) => CopyLaw(w, ctx, s.caller, h, es);
    case CallSet(h, es) => SetLaw(w, ctx, s.caller, h, es);
    case CallDestroy(h) => DestroyLaw(w, s.caller, h);
    case CallGenerate(keyType, es, random) => GenerateLaw(w, ctx, s.caller, keyType, es, random);
    case CallUnwrap(es, parts) => UnwrapLaw(w, ctx, s.caller, es, parts);
    case CallDerive(h, d, es, parity) => DeriveLaw(w, ctx, s.caller, h, d, es, parity);
    case CallFind(hits) => FindLaw(w, s.caller, hits);
    case CallLogout => LogoutLaw(w);
    case CallClose(session, last) => CloseLaw(w, session, last);
  }

  /** The states of the library during a run of calls. */
  function Trace(token: Token, steps: seq<Step>): (tr: seq<World>)
    ensures |tr| == |steps| + 1
  {
    if |steps| == 0 then [EMPTY]
    else
      var before := Trace(token, steps[..|steps| - 1]);
      before + [Perform(token, before[|steps| - 1], steps[|steps| - 1]).world]
  }

  predicate NoConcatenation(steps: seq<Step>) { forall i :: 0 <= i < |steps| ==> !ConcatenatesKeys(steps[i]) }

  /** Every state is sound and every transition keeps what it should. */
  ghost predicate SoundRun(tr: seq<World>) {
    && |tr| > 0 && tr[0] == EMPTY
    && (forall i :: 0 <= i < |tr| ==> Sound(tr[i]))
    && (forall i :: 0 < i < |tr| ==> Evolves(tr[i - 1], tr[i]))
  }

  ghost predicate HonestRun(tr: seq<World>) {
    && (forall i :: 0 <= i < |tr| ==> Honest(tr[i]))
    && (forall i :: 0 < i < |tr| ==> HonestStep(tr[i - 1], tr[i]))
  }

  lemma {:induction false} TraceLaw(token: Token, steps: seq<Step>)
    ensures SoundRun(Trace(token, steps))
    ensures NoConcatenation(steps) ==> HonestRun(Trace(token, steps))
  {
    hide SoundItem, SoundHandles, Keeps, Born, Perform, HonestStep, Honest, HonestRun;
    if |steps| == 0 {
      EmptyIsSound();
    } else {
      var n := |steps| - 1;
      var before := Trace(token, steps[..n]);
      TraceLaw(token, steps[..n]);
      StepLaw(token, before[n], steps[n]);
      var after := Perform(token, before[n], steps[n]).world;
      assert Trace(token, steps) == before + [after];
      RunGrows(before, after);
      if NoConcatenation(steps) {
        assert NoConcatenation(steps[..n]);
        HonestRunGrows(before, after);
      }
    }
  }

  lemma RunGrows(tr: seq<World>, w: World)
    requires SoundRun(tr) && Sound(w) && Evolves(tr[|tr| - 1], w)
    ensures SoundRun(tr + [w])
  {
    hide Sound, Evolves;
  }

  lemma HonestRunGrows(tr: seq<World>, w: World)
    requires |tr| > 0 && HonestRun(tr) && (Honest(tr[|tr| - 1]) ==> HonestStep(tr[|tr| - 1], w))
    ensures HonestRun(tr + [w])
  {
    hide BornHonest, HistoryConsistent;
  }

  lemma EmptyIsSound()
    ensures SoundRun([EMPTY]) && HonestRun([EMPTY])
  {
  }

  // ----- what the history attributes mean -------------------------------------------------------------------------

  /** During the run, `id` was made from `anc`, directly or in several copies and derivations. */
  ghost predicate Descends(tr: seq<World>, id: Id, anc: Id)
    decreases id
  {
    id == anc || exists k, s :: 0 <= k < |tr| && id in tr[k].items && s in tr[k].items[id].origin.Sources() && s < id && Descends(tr, s, anc)
  }

  /** An object present at two moments was present in between, and only gave up claims. */
  lemma {:induction false} Between(tr: seq<World>, i: nat, j: nat, id: Id)
    requires SoundRun(tr) && i <= j < |tr| && id in tr[j].items
    requires id < tr[i].next
    ensures id in tr[i].items && Keeps(tr[i].items[id], tr[j].items[id])
    decreases j
  {
    hide Sound, StoredClass;
    if i < j {
      NextGrows(tr, i, j - 1);
      assert Evolves(tr[j - 1], tr[j]);
      Between(tr, i, j - 1, id);
    }
  }

  lemma {:induction false} NextGrows(tr: seq<World>, i: nat, j: nat)
    requires SoundRun(tr) && i <= j < |tr|
    ensures tr[i].next <= tr[j].next
    decreases j
  {
    hide Sound;
    if i < j {
      NextGrows(tr, i, j - 1);
      assert Evolves(tr[j - 1], tr[j]);
    }
  }

  /** The step in which an object appeared. */
  lemma {:induction false} Birth(tr: seq<World>, j: nat, id: Id) returns (b: nat)
    requires SoundRun(tr) && j < |tr| && id in tr[j].items
    ensures b < j && id in tr[b + 1].items && id !in tr[b].items
    ensures Born(tr[b], tr[b + 1].items[id]) && Keeps(tr[b + 1].items[id], tr[j].items[id])
    decreases j
  {
    hide SoundItem, SoundHandles, StoredClass, Born;
    assert Evolves(tr[j - 1], tr[j]);
    if id in tr[j - 1].items {
      b := Birth(tr, j - 1, id);
    } else {
      b := j - 1;
    }
  }

  /** Where an object came from never changes. */
  lemma SameOrigin(tr: seq<World>, i: nat, j: nat, id: Id)
    requires SoundRun(tr) && i < |tr| && j < |tr| && id in tr[i].items && id in tr[j].items
    ensures tr[i].items[id].origin == tr[j].items[id].origin
  {
    hide SoundItem, SoundHandles, StoredClass, Born;
    assert id < tr[i].next && id < tr[j].next;
    if i <= j { Between(tr, i, j, id); } else { Between(tr, j, i, id); }
  }

  /** What a claim says about the object itself, at every moment of the run. */
  lemma ClaimsAboutItself(tr: seq<World>, j: nat, id: Id, i: nat)
    requires SoundRun(tr) && HonestRun(tr) && i < |tr| && j < |tr| && id in tr[i].items && id in tr[j].items
    ensures AlwaysSensitive(tr[j].items[id].attrs) ==> Sensitive(tr[i].items[id].attrs)
    ensures NeverExtractable(tr[j].items[id].attrs) ==> !Extractable(tr[i].items[id].attrs)
  {
    hide Whole, WellTyped, SoundHandles, StoredClass, Born;
    assert SoundItem(tr[i].items[id], id) && SoundItem(tr[j].items[id], id);
    if i <= j { Between(tr, i, j, id); } else { Between(tr, j, i, id); }
  }

  /** A key that says it has always been sensitive was sensitive in every state of the run, and so
      was everything it was copied or derived from; one that says it has never been extractable
      was extractable in none, nor was anything it comes from. */
  lemma {:induction false} HistoryIsSound(tr: seq<World>, j: nat, id: Id, anc: Id, i: nat)
    requires SoundRun(tr) && HonestRun(tr) && i < |tr| && j < |tr|
    requires id in tr[j].items && Descends(tr, id, anc) && anc in tr[i].items
    ensures AlwaysSensitive(tr[j].items[id].attrs) ==> Sensitive(tr[i].items[anc].attrs)
    ensures NeverExtractable(tr[j].items[id].attrs) ==> !Extractable(tr[i].items[anc].attrs)
    decreases id
  {
    hide Sound, StoredClass;
    if id == anc {
      ClaimsAboutItself(tr, j, id, i);
    } else {
      var k, s :| 0 <= k < |tr| && id in tr[k].items && s in tr[k].items[id].origin.Sources() && s < id && Descends(tr, s, anc);
      SameOrigin(tr, k, j, id);
      var b := Birth(tr, j, id);
      assert HonestStep(tr[b], tr[b + 1]);
      HistoryIsSound(tr, b, s, anc, i);
    }
  }

  /** The history attributes over every run of calls, the concatenation of two keys excepted. */
  lemma HistoryOverRuns(token: Token, steps: seq<Step>, j: nat, id: Id, anc: Id, i: nat)
    requires NoConcatenation(steps) && i <= |steps| && j <= |steps|
    requires var tr := Trace(token, steps); id in tr[j].items && Descends(tr, id, anc) && anc in tr[i].items
    ensures var tr := Trace(token, steps);
            && (AlwaysSensitive(tr[j].items[id].attrs) ==> Sensitive(tr[i].items[anc].attrs))
            && (NeverExtractable(tr[j].items[id].attrs) ==> !Extractable(tr[i].items[anc].attrs))
  {
    hide SoundRun, HonestRun, Descends;
    TraceLaw(token, steps);
    HistoryIsSound(Trace(token, steps), j, id, anc, i);
  }

  // ----- where objects live, and by whose authority -----------------------------------------------------------

  lemma {:induction false} TraceStep(token: Token, steps: seq<Step>, i: nat)
    requires i < |steps|
    ensures Trace(token, steps)[i + 1] == Perform(token, Trace(token, steps)[i], steps[i]).world
  {
    hide Perform;
    var n := |steps| - 1;
    if i < n {
      TraceStep(token, steps[..n], i);
    }
  }

  /** A session in this state may write objects with these flags: token objects need a read-write session,
      private ones the user. */
  predicate MayHold(state: SessionState, o: Attrs) {
    && (IsOnToken(o) ==> state == RwPublic || state == RwUser || state == RwSo)
    && (IsPrivate(o) ==> state == RoUser || state == RwUser)
  }

  lemma AuthorityIs(caller: Caller, o: Attrs)
    ensures Authorised(caller, o) == MayHold(caller.state, o)
  {
    hide IsPrivate, IsOnToken;
  }

  /** In every reachable state every object, even a half-made one, is a whole, well typed object of
      its class. One that a call reported as made lives on the token exactly if CKA_TOKEN says so,
      is removed at logout from its session exactly if CKA_PRIVATE says so, and was made in a step
      whose caller was entitled to write an object with exactly the two flags it has now. */
  lemma ObjectsAreWherePlaced(token: Token, steps: seq<Step>, j: nat, id: Id)
    requires j <= |steps| && id in Trace(token, steps)[j].items
    ensures var tr := Trace(token, steps);
            var it := tr[j].items[id];
            && Whole(it.attrs) && WellTyped(it.attrs)
            && (it.finished ==>
                  && Placed(it)
                  && exists b :: 0 <= b < j && id !in tr[b].items && id in tr[b + 1].items && MayHold(steps[b].caller.state, it.attrs))
  {
    hide Perform, StoredClass, Born, SoundHandles, Whole, WellTyped;
    var tr := Trace(token, steps);
    TraceLaw(token, steps);
    assert SoundItem(tr[j].items[id], id);
    if tr[j].items[id].finished {
      var b := Birth(tr, j, id);
      TraceStep(token, steps, b);
      StepLaw(token, tr[b], steps[b]);
      SameAuthority(steps[b].caller, tr[b + 1].items[id].attrs, tr[j].items[id].attrs);
      AuthorityIs(steps[b].caller, tr[j].items[id].attrs);
      hide Authorised, MayHold, Keeps;
    }
  }

  // ----- what is refused stays refused ----------------------------------------------------------------------------

  /** `id` is `src`, or a copy made after moment `i` of something that is. */
  ghost predicate CopiedSince(tr: seq<World>, i: nat, id: Id, src: Id)
    decreases id
  {
    id == src || exists k: nat, s: Id :: i < k < |tr| && id in tr[k].items && tr[k].items[id].origin == CopyOf(s)
                                && (i < |tr| && id !in tr[i].items) && s < id && CopiedSince(tr, i, s, src)
  }

  predicate Protected(o: Attrs) { Sensitive(o) || !Extractable(o) }

  /** Once protected, an object and all copies made of it from then on stay protected, whatever is
      done to any of them; they also stay in their class, so the same attributes are refused. */
  lemma {:induction false} ProtectionIsForever(tr: seq<World>, i: nat, src: Id, j: nat, id: Id)
    requires SoundRun(tr) && i <= j < |tr| && src in tr[i].items && Protected(tr[i].items[src].attrs)
    requires id in tr[j].items && CopiedSince(tr, i, id, src)
    ensures Protected(tr[j].items[id].attrs)
    ensures StoredClass(tr[j].items[id].attrs) == StoredClass(tr[i].items[src].attrs)
    decreases id
  {
    hide SoundItem, SoundHandles, StoredClass;
    assert src < tr[i].next;
    if id == src {
      Between(tr, i, j, id);
    } else {
      var k: nat, s: Id :| i < k < |tr| && id in tr[k].items && tr[k].items[id].origin == CopyOf(s) && id !in tr[i].items && s < id && CopiedSince(tr, i, s, src);
      SameOrigin(tr, k, j, id);
      var b := Birth(tr, j, id);
      BornLater(tr, i, b, id, k);
      assert s in tr[j].items[id].origin.Sources();
      ProtectionIsForever(tr, i, src, b, s);
    }
  }

  /** An object that was not there at moment `i` but is there later appeared after `i`. */
  lemma BornLater(tr: seq<World>, i: nat, b: nat, id: Id, k: nat)
    requires SoundRun(tr) && b + 1 < |tr| && i < k < |tr|
    requires id in tr[b + 1].items && id in tr[k].items && id !in tr[i].items
    ensures i <= b
  {
    hide SoundItem, SoundHandles, StoredClass;
    if b < i {
      assert id < tr[b + 1].next;
      NextGrows(tr, b + 1, i);
      Between(tr, i, k, id);
    }
  }

  /** After an attribute with footnote 7 was refused once, every later read of it, on the object
      or on any copy made since, is refused. */
  lemma RefusalIsForever(token: Token, steps: seq<Step>, i: nat, src: Id, j: nat, id: Id, t: AttrType, ctx: Context, q: Request)
    requires i <= j <= |steps| && q.t == t
    requires var tr := Trace(token, steps);
             && src in tr[i].items && id in tr[j].items && CopiedSince(tr, i, id, src)
             && var c := StoredClass(tr[i].items[src].attrs);
             && c.Some? && t in SchemaOf(c.value) && Unrevealable(SchemaOf(c.value)[t], tr[i].items[src].attrs)
    ensures var o := Trace(token, steps)[j].items[id].attrs;
            && StoredClass(o).Some?
            && AnswerTo(ctx, SchemaOf(StoredClass(o).value), SelfPrivate(o), o, q) == Answer(ATTRIBUTE_SENSITIVE, None, None, Nothing)
  {
    hide SoundRun, CopiedSince, SchemaOf, StoredClass;
    TraceLaw(token, steps);
    ProtectionIsForever(Trace(token, steps), i, src, j, id);
  }
}
