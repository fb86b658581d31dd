/** C_CopyObject and C_SetAttributeValue, told by what can be read: the copy, or the object changed, shows what the
    template names and reads as before everywhere else; nothing is left of a copy that fails. */
module Copies {
  import opened Cryptoki
  import opened Attributes
  import opened ObjectClasses
  import opened AttributeLaws
  import opened Templates
  import opened ObjectStore
  import opened ObjectLaws
  import opened Runs
  import opened CheckValues
  import opened CopyLaws
  import opened Effects
  import opened Secrecy
  import opened Contents
  import opened Guards

  // ----- what happens to the library ---------------------------------------------------------------------

  /** A copy that fails leaves no trace; one that succeeds is a new object behind a new handle. It needs an
      original that may be read and copied, a place that may be written, and never makes a private object
      public. */
  lemma CopyAllOrNothing(w: World, ctx: Context, caller: Caller, h: Handle, es: Template)
    requires Sound(w) && ctx.session == caller.state
    ensures var r, id := CopyObject(w, ctx, caller, h, es), Lookup(w, h);
            && (r.rv != OK ==> r.world.items == w.items && r.world.handles == w.handles && r.handle == CK_INVALID_HANDLE)
            && (id.None? ==> r.rv == OBJECT_HANDLE_INVALID)
            && (r.rv == OK ==>
                  && id.Some? && Made(w, r) && r.world.items[w.next].origin == CopyOf(id.value)
                  && var o, o' := w.items[id.value].attrs, r.world.items[w.next].attrs;
                     && Allowed(caller.state, o, o') && StoredClass(o') == StoredClass(o))
  {
    hide SoundHandles, DraftCopy, Enact, SoundItem, StoredClass, Allowed, LastFlag, IsPrivate, IsOnToken, Made;
    var found := Lookup(w, h);
    if found.Some? {
      var o := w.items[found.value].attrs;
      assert SoundItem(w.items[found.value], found.value);
      ItemHealthy(w.items[found.value], found.value);
      CopyDraftLaw(ctx, caller, found.value, o, es);
      var d := DraftCopy(ctx, caller, found.value, o, es);
      CopyEnacted(w, caller, d, LastFlag(es, CKA_TOKEN, IsOnToken(o)), LastFlag(es, CKA_PRIVATE, IsPrivate(o)));
      if d.Complete? { CopyAllowed(ctx, caller, found.value, o, es); }
    }
  }

  /** What a copy demands of the original and of the caller. */
  predicate Allowed(state: SessionState, o: Attrs, o': Attrs) {
    && !Says(o, CKA_COPYABLE, false)
    && (Says(o, CKA_PRIVATE, true) ==> UserIn(state) && Says(o', CKA_PRIVATE, true))
    && (Says(o', CKA_PRIVATE, true) ==> UserIn(state)) && (Says(o', CKA_TOKEN, true) ==> !ReadOnly(state))
  }

  lemma CopyEnacted(w: World, caller: Caller, d: Draft, onToken: bool, isPrivate: bool)
    requires Sound(w) && SoundDraft(d, caller) && !d.HalfMade?
    ensures var r := Enact(w, caller, d, onToken, isPrivate);
            && (r.rv == OK <==> d.Complete?)
            && (d.Complete? ==> Made(w, r) && r.world.items[w.next] == d.item)
            && (!d.Complete? ==> r.world.items == w.items && r.world.handles == w.handles && r.handle == CK_INVALID_HANDLE)
  {
    hide Healthy, Placed, Authorised, SoundItem, Made;
    if d.Complete? { EnactMade(w, caller, d, onToken, isPrivate); }
    hide SoundHandles;
  }

  lemma CopyAllowed(ctx: Context, caller: Caller, source: Id, o: Attrs, es: Template)
    requires Healthy(o) && ctx.session == caller.state && DraftCopy(ctx, caller, source, o, es).Complete?
    ensures Allowed(caller.state, o, DraftCopy(ctx, caller, source, o, es).item.attrs)
  {
    hide DraftCopy, Healthy, StoredClass, LastFlag, Obeys;
    CopyDraftLaw(ctx, caller, source, o, es);
    CopiedGuards(ctx, caller, source, o, es);
    var o' := DraftCopy(ctx, caller, source, o, es).item.attrs;
    PlainFlags(o');
    WriteMatrix(caller.state, IsOnToken(o'), IsPrivate(o'));
    hide HaveWrite, IsPrivate, IsOnToken;
  }

  // ----- what can be read from the copy --------------------------------------------------------------------

  lemma CopyJob(ctx: Context, caller: Caller, source: Id, o: Attrs, es: Template) returns (job: Job, c: ClassId, t: Attrs)
    requires Healthy(o) && ctx.session == caller.state && DraftCopy(ctx, caller, source, o, es).Complete?
    ensures job == Job(ctx, SchemaOf(c), LastFlag(es, CKA_PRIVATE, IsPrivate(o)), Copy)
    ensures Transcript(ctx, !IsPrivate(o) && job.isPrivate, o) == Some(t) && Healthy(t) && StoredClass(t) == Some(c)
    ensures SaveTemplate(job, t, es, LastFlag(es, CKA_TOKEN, IsOnToken(o))) == Outcome(DraftCopy(ctx, caller, source, o, es).item.attrs, OK)
    ensures ApplyEntries(job, t, es) == Outcome(DraftCopy(ctx, caller, source, o, es).item.attrs, OK)
    ensures IsPrivate(DraftCopy(ctx, caller, source, o, es).item.attrs) == job.isPrivate
    ensures IsPrivate(o) || job.isPrivate ==> ctx.session.LoggedIn()
    ensures IsPrivate(o) ==> job.isPrivate
  {
    hide Healthy, StoredClass, SchemaOf, Initialised, LastFlag, IsOnToken, Transcript, ApplyEntries, IsPrivate, AllMandatoryNamed;
    CopyDraftLaw(ctx, caller, source, o, es);
    job := Job(ctx, SchemaOf(DataObject), LastFlag(es, CKA_PRIVATE, IsPrivate(o)), Copy);
    var upgrade := !IsPrivate(o) && job.isPrivate;
    t := Transcript(ctx, upgrade, o).value;
    TranscriptLaw(ctx, upgrade, o);
    c := StoredClass(t).value;
    Reinitialised(c, t);
    job := job.(schema := SchemaOf(c));
  }

  /** Every attribute that the template names shows, in the copy, what its last entry says. */
  lemma CopyShows(ctx: Context, caller: Caller, source: Id, o: Attrs, es: Template, t: AttrType)
    requires Healthy(o) && ctx.token.Lawful() && ctx.session == caller.state && DraftCopy(ctx, caller, source, o, es).Complete?
    requires LastEntry(es, t).Some?
    ensures var o' := DraftCopy(ctx, caller, source, o, es).item.attrs; Shows(ctx, IsPrivate(o'), o', t, LastEntry(es, t).value.Data())
  {
    hide Shows, Token.Lawful, DraftCopy, SchemaOf, Transcript, IsPrivate, LastFlag, ApplyEntries, LastEntry, Whole, IsOnToken;
    var job, c, before := CopyJob(ctx, caller, source, o, es);
    LastIsNamed(es, t);
    NeverReadOnly(job, before, es, t);
    ChangeNames(job, c, before, es, LastFlag(es, CKA_TOKEN, IsOnToken(o)), t);
    NamedIsThere(c, before, t);
    AppliedShows(job, before, es, t);
  }

  lemma ChangeNames(job: Job, c: ClassId, o: Attrs, es: Template, rollback: bool, t: AttrType)
    requires job.op.Changing() && job.schema == SchemaOf(c) && SaveTemplate(job, o, es, rollback).rv == OK && Named(es, t)
    ensures t in SchemaOf(c) && forall e :: e in es && Touches(e.t, t) ==> e.t == t
  {
    hide SchemaOf, SaveTemplate, AttrSpec.Prohibited, AttrSpec.Writable;
    AcceptedTemplate(job, o, es, rollback, t);
    CopyNamesCopyKinds(c, t, job.op);
    forall e | e in es && Touches(e.t, t) ensures e.t == t {
      AcceptedTemplate(job, o, es, rollback, e.t);
      CopyNamesCopyKinds(c, e.t, job.op);
      CopyKindsApart(e.t, t);
    }
  }

  lemma CopyKindsApart(s: AttrType, t: AttrType)
    requires IsCopyKind(KindOf(s)) && IsCopyKind(KindOf(t)) && Touches(s, t)
    ensures s == t
  {
  }

  lemma NamedIsThere(c: ClassId, o: Attrs, t: AttrType)
    requires Healthy(o) && StoredClass(o) == Some(c) && t in SchemaOf(c)
    ensures t in o
  {
    hide Table, StoredClass, SchemaFrom, Declares;
    SchemaSays(Table(c), t);
  }

  /** Everything else reads from the copy as it reads from the original, whether or not the copy has become private. */
  lemma CopyReadsAlike(ctx: Context, caller: Caller, source: Id, o: Attrs, es: Template, t: AttrType)
    requires Healthy(o) && ctx.token.Lawful() && ctx.session == caller.state && DraftCopy(ctx, caller, source, o, es).Complete?
    requires t in o && NothingTouches(es, t)
    ensures var o' := DraftCopy(ctx, caller, source, o, es).item.attrs;
            t in o' && Decoded(ctx, IsPrivate(o'), o'[t]) == Decoded(ctx, IsPrivate(o), o[t])
  {
    hide DraftCopy, SchemaOf, IsPrivate, LastFlag, ApplyEntries, Healthy, IsOnToken, NothingTouches, Token.Lawful;
    var job, c, before := CopyJob(ctx, caller, source, o, es);
    ApplyFrame(job, before, es, t);
    TranscribedReads(ctx, IsPrivate(o), job.isPrivate, o[t]);
  }

  lemma TranscribedReads(ctx: Context, before: bool, after: bool, v: Value)
    requires ctx.token.Lawful() && (before || after ==> ctx.session.LoggedIn()) && (before ==> after)
    ensures var x := Transcribed(ctx, !before && after, v); x.Some? && Decoded(ctx, after, x.value) == Decoded(ctx, before, v)
  {
    if v.BytesV? && v.s != [] && after { assert ctx.token.plain(ctx.token.cipher(v.s)) == Some(v.s) && |ctx.token.cipher(v.s)| >= |v.s|; }
  }

  /** So C_CopyObject: the new object shows what the template names last, and everything that the template does
      not touch reads from it as from the original. */
  lemma CopyIsOriginalOverwritten(w: World, ctx: Context, caller: Caller, h: Handle, es: Template, t: AttrType)
    requires Sound(w) && ctx.token.Lawful() && ctx.session == caller.state && CopyObject(w, ctx, caller, h, es).rv == OK
    ensures Lookup(w, h).Some? && Made(w, CopyObject(w, ctx, caller, h, es))
    ensures var o, o' := w.items[Lookup(w, h).value].attrs, CopyObject(w, ctx, caller, h, es).world.items[w.next].attrs;
            && (LastEntry(es, t).Some? ==> Shows(ctx, IsPrivate(o'), o', t, LastEntry(es, t).value.Data()))
            && (t in o && NothingTouches(es, t) ==> t in o' && Decoded(ctx, IsPrivate(o'), o'[t]) == Decoded(ctx, IsPrivate(o), o[t]))
  {
    hide SoundHandles, DraftCopy, Enact, SoundItem, Healthy, StoredClass, LastFlag, IsPrivate, IsOnToken, Made, Shows, LastEntry, NothingTouches, Token.Lawful, Allowed;
    CopyAllOrNothing(w, ctx, caller, h, es);
    var id := Lookup(w, h).value;
    var o := w.items[id].attrs;
    assert SoundItem(w.items[id], id);
    ItemHealthy(w.items[id], id);
    CopyDraftLaw(ctx, caller, id, o, es);
    var d := DraftCopy(ctx, caller, id, o, es);
    CopyEnacted(w, caller, d, LastFlag(es, CKA_TOKEN, IsOnToken(o)), LastFlag(es, CKA_PRIVATE, IsPrivate(o)));
    if LastEntry(es, t).Some? { CopyShows(ctx, caller, id, o, es, t); }
    if t in o && NothingTouches(es, t) { CopyReadsAlike(ctx, caller, id, o, es, t); }
  }

  // ----- setting -------------------------------------------------------------------------------------------------

  /** After a C_SetAttributeValue that succeeds, the object shows what the template names last; what it does not
      touch is stored as before. */
  lemma SetIsOverwritten(w: World, ctx: Context, caller: Caller, h: Handle, es: Template, t: AttrType)
    requires Sound(w) && ctx.token.Lawful() && ctx.session == caller.state && SetAttributeValue(w, ctx, caller, h, es).rv == OK
    ensures Lookup(w, h).Some? && Lookup(w, h).value in SetAttributeValue(w, ctx, caller, h, es).world.items
    ensures var o, o' := w.items[Lookup(w, h).value].attrs, SetAttributeValue(w, ctx, caller, h, es).world.items[Lookup(w, h).value].attrs;
            && (LastEntry(es, t).Some? ==> Shows(ctx, IsPrivate(o'), o', t, LastEntry(es, t).value.Data()))
            && (NothingTouches(es, t) ==> SameAt(o, o', t))
  {
    hide SoundHandles, Healthy, StoredClass, SchemaOf, Initialised, SaveTemplate, IsPrivate, IsOnToken, HaveWrite, Modifiable, Shows, LastEntry, NothingTouches, Token.Lawful;
    var id := Lookup(w, h).value;
    var it := w.items[id];
    assert SoundItem(it, id);
    HasClass(it.attrs);
    var c := StoredClass(it.attrs).value;
    Reinitialised(c, it.attrs);
    SetShows(Job(ctx, SchemaOf(c), IsPrivate(it.attrs), Set), c, it.attrs, es, it.place.OnToken?, t);
  }

  lemma SetShows(job: Job, c: ClassId, o: Attrs, es: Template, rollback: bool, t: AttrType)
    requires job.op.Set? && job.schema == SchemaOf(c) && Healthy(o) && StoredClass(o) == Some(c) && job.ctx.token.Lawful()
    requires job.isPrivate == IsPrivate(o) && SaveTemplate(job, o, es, rollback).rv == OK
    ensures var o' := SaveTemplate(job, o, es, rollback).attrs;
            && (LastEntry(es, t).Some? ==> Shows(job.ctx, IsPrivate(o'), o', t, LastEntry(es, t).value.Data()))
            && (NothingTouches(es, t) ==> SameAt(o, o', t))
  {
    hide StoredClass, SchemaOf, Shows, LastEntry, NothingTouches, Token.Lawful, ApplyEntries, Whole, AllMandatoryNamed;
    SetKeepsFlags(job, c, o, es, rollback);
    if LastEntry(es, t).Some? {
      LastIsNamed(es, t);
      NeverReadOnly(job, o, es, t);
      ChangeNames(job, c, o, es, rollback, t);
      NamedIsThere(c, o, t);
      AppliedShows(job, o, es, t);
    }
    if NothingTouches(es, t) { ApplyFrame(job, o, es, t); }
  }
}
