/** CKM_CONCATENATE_BASE_AND_KEY writes the wrong history claim. This module says exactly when a key made
    that way is honest about its past all the same, in terms of what a caller can check beforehand, and
    extends the result about histories to runs in which that check is made. */
module Concatenation {
  import opened Cryptoki
  import opened Attributes
  import opened ObjectClasses
  import opened AttributeLaws
  import opened Templates
  import opened ObjectStore
  import opened ObjectLaws
  import opened Runs
  import opened TransparentRuns

  // ----- what the template says about extraction ------------------------------------------------------

  /** Some entry makes the key extractable. */
  predicate Grants(es: Template) { exists i :: 0 <= i < |es| && es[i].t == CKA_EXTRACTABLE && es[i].p.AsBool() }

  predicate GrantsHere(e: Entry) { e.t == CKA_EXTRACTABLE && e.p.AsBool() }

  lemma GrantsJoin(es: Template, fs: Template)
    ensures Grants(es + fs) <==> Grants(es) || Grants(fs)
  {
    if i :| 0 <= i < |es| && es[i].t == CKA_EXTRACTABLE && es[i].p.AsBool() { assert (es + fs)[i] == es[i]; }
    if i :| 0 <= i < |fs| && fs[i].t == CKA_EXTRACTABLE && fs[i].p.AsBool() { assert (es + fs)[|es| + i] == fs[i]; }
  }

  lemma GrantsOne(e: Entry)
    ensures Grants([e]) <==> GrantsHere(e)
  {
    assert [e][0] == e;
  }

  lemma {:induction false} GrantsRest(es: Template)
    ensures Grants(Rest(es, true)) <==> Grants(es)
    ensures Grants(WithoutCheckValue(es)) <==> Grants(es)
    ensures !Grants(OnlyCheckValue(es))
  {
    if |es| > 0 {
      var front, e := es[..|es| - 1], es[|es| - 1];
      assert es == front + [e];
      GrantsRest(front);
      GrantsOne(e);
      GrantsJoin(front, [e]);
      GrantsJoin(Rest(front, true), [e]);
      GrantsJoin(WithoutCheckValue(front), [e]);
      GrantsJoin(OnlyCheckValue(front), [e]);
      hide Grants;
      assert Rest(front, true) + [] == Rest(front, true);
      assert WithoutCheckValue(front) + [] == WithoutCheckValue(front) && OnlyCheckValue(front) + [] == OnlyCheckValue(front);
    }
  }

  lemma GrantsAssembled(p: Plan, es: Template)
    ensures Grants(CheckValueLast(Header(p) + Rest(es, true))) <==> Grants(es)
  {
    var full := Header(p) + Rest(es, true);
    GrantsRest(full);
    GrantsRest(es);
    GrantsJoin(WithoutCheckValue(full), OnlyCheckValue(full));
    assert !Grants(Header(p));
    GrantsJoin(Header(p), Rest(es, true));
  }

  // ----- what saving it does to the claim ----------------------------------------------------------------

  lemma WriteClaim(ctx: Context, t: AttrType, isPrivate: bool, o: Attrs, p: Payload, op: Op)
    requires !op.Changing() && Write(ctx, t, isPrivate, o, p, op).rv == OK
    ensures NeverExtractable(Write(ctx, t, isPrivate, o, p, op).attrs) <==> NeverExtractable(o) && !GrantsHere(Entry(t, p))
  {
    if t != CKA_EXTRACTABLE && t != CKA_NEVER_EXTRACTABLE {
      WriteTidy(ctx, t, isPrivate, o, p, op, CKA_NEVER_EXTRACTABLE);
      hide KindOf, Write;
    }
  }

  lemma {:induction false} ApplyClaim(job: Job, o: Attrs, es: Template)
    requires !job.op.Changing() && ApplyEntries(job, o, es).rv == OK
    ensures NeverExtractable(ApplyEntries(job, o, es).attrs) <==> NeverExtractable(o) && !Grants(es)
    decreases |es|
  {
    hide Write, Refusal;
    if |es| > 0 {
      var first := UpdateEntry(job, o, es[0]);
      WriteClaim(job.ctx, es[0].t, job.isPrivate, o, es[0].p, job.op);
      ApplyClaim(job, first.attrs, es[1..]);
      assert es == [es[0]] + es[1..];
      GrantsJoin([es[0]], es[1..]);
      GrantsOne(es[0]);
      hide Grants;
    }
  }

  /** A new secret key claims never to have been extractable unless its template makes it so. */
  lemma NewKeyClaims(ctx: Context, caller: Caller, p: Plan, es: Template)
    requires IsWord(p.objClass) && IsWord(p.keyType) && p.objClass == CKO_SECRET_KEY
    ensures var d := DraftObject(ctx, caller, Header(p) + Rest(es, true), Derive);
            d.Complete? ==> (NeverExtractable(d.item.attrs) <==> !Grants(es))
  {
    hide Header, Rest, ReadPlan, ApplyEntries, SchemaOf, Initialised, CheckValueLast, ClassOf, Grants, HaveWrite;
    var full := Header(p) + Rest(es, true);
    AssembledPlan(p, es, true);
    GrantsAssembled(p, es);
    var q := ReadPlan(full, false, DEFAULT_PLAN).plan;
    var c := ClassOf(q.objClass, q.keyType, q.certType);
    if DraftObject(ctx, caller, full, Derive).Complete? {
      SecretClass(q, c.value);
      BlankClaim(c.value);
      ApplyClaim(Job(ctx, SchemaOf(c.value), q.isPrivate, Derive), Initialised(c.value, map[]), CheckValueLast(full));
    }
  }

  lemma BlankClaim(c: ClassId)
    requires MakesClaims(c)
    ensures NeverExtractable(Initialised(c, map[]))
  {
    hide Table, Declares, FillDefaults;
    ClaimsDeclared(c);
    InitialisedAt(c, map[], CKA_NEVER_EXTRACTABLE);
    assert DefaultOf(CKA_NEVER_EXTRACTABLE) == BoolV(true);
  }

  // ----- the step ---------------------------------------------------------------------------------------------

  /** What a caller can check before concatenating two keys: if both say they have never been extractable
      then both say they have always been sensitive; and they do say so, or the template makes the new
      key extractable. */
  predicate SafeConcatenation(base: Attrs, other: Attrs, es: Template) {
    && (NeverExtractable(base) && NeverExtractable(other) ==> AlwaysSensitive(base) && AlwaysSensitive(other))
    && ((NeverExtractable(base) && NeverExtractable(other)) || Grants(es))
  }

  predicate ClaimsFit(base: Attrs, other: Attrs, o: Attrs) {
    && (NeverExtractable(base) && NeverExtractable(other) ==> AlwaysSensitive(base) && AlwaysSensitive(other))
    && (NeverExtractable(o) ==> NeverExtractable(base) && NeverExtractable(other))
  }

  lemma CombinedClaims(h: Handle, base: Attrs, other: Attrs, o: Attrs)
    requires HealthyKey(o) && HistoryConsistent(o)
    requires HealthyKey(base) && HistoryConsistent(base)
    ensures var o' := DeriveClaims(ConcatKey(h), base, other, o);
            (HistoryConsistent(o') && ClaimsShrink(base, o') && ClaimsShrink(other, o')) <==> ClaimsFit(base, other, o)
  {
    hide KindOf, Table, Declares, StoredClass;
    ClaimsPresent(o);
    ClaimsPresent(base);
  }

  /** The claims of the new key against those of the two it is made from. */
  lemma ConcatenatedClaims(ctx: Context, p: Plan, h: Handle, base: Attrs, other: Attrs, raw: Bytes, len: nat, checkValue: bool,
                           parity: byte -> byte, o: Attrs)
    requires HealthyKey(o) && HistoryConsistent(o)
    requires HealthyKey(base) && HistoryConsistent(base)
    requires DerivedKey(ctx, p, ConcatKey(h), base, other, raw, len, checkValue, parity, o).Some?
    ensures var o' := DerivedKey(ctx, p, ConcatKey(h), base, other, raw, len, checkValue, parity, o).value;
            (HistoryConsistent(o') && ClaimsShrink(base, o') && ClaimsShrink(other, o')) <==> ClaimsFit(base, other, o)
  {
    hide Healthy, Contribution, StoredClass, MakesClaims, StoreKey, KcvOf, FixParity, DeriveClaims, Cut;
    var d := ConcatKey(h);
    var o0 := o[CKA_LOCAL := BoolV(false)];
    ReflexiveContribution(o);
    FlagsContributed(o, o, CKA_LOCAL, false);
    ContributionKeepsHealth(o, o0);
    CombinedClaims(h, base, other, o0);
    DeriveClaimsContributed(d, base, other, o0);
    var o1 := DeriveClaims(d, base, other, o0);
    TransitiveContribution(o, o0, o1);
    var key := FixParity(parity, p.keyType, Cut(d, raw, len));
    StoreKeyContributed(ctx, p.isPrivate, o, o1, key, if checkValue then KcvOf(ctx.token, p.keyType, key) else None);
  }

  /** Making a key either fails, and leaves at most a half-made one that comes from nowhere, or adds the
      drafted key, completed. */
  lemma MakeKeyOutcome(w: World, ctx: Context, caller: Caller, p: Plan, es: Template, origin: Origin, f: Attrs -> Option<Attrs>)
    requires Sound(w)
    ensures var r := MakeKey(w, ctx, caller, p, es, true, Derive, origin, f);
            var d := DraftObject(ctx, caller, Header(p) + Rest(es, true), Derive);
            && (r.rv == OK ==>
                  && d.Complete? && f(d.item.attrs).Some?
                  && r.world.items == w.items[w.next := d.item.(attrs := f(d.item.attrs).value, origin := origin)])
            && (r.rv != OK ==> NothingHonestLost(w, r.world))
  {
    hide DraftObject, Header, Rest, ReadPlan, Sound, SoundDraft, CompleteKey, Enact, HistoryConsistent, Healthy, StoredClass, Placed, ClassOf, NothingHonestLost;
    var full := Header(p) + Rest(es, true);
    var q := ReadPlan(full, false, DEFAULT_PLAN).plan;
    CreateDraftLaw(ctx, caller, full, Derive);
    var d := DraftObject(ctx, caller, full, Derive);
    SameWorld(w);
    if d.Complete? {
      EnactNew(w, caller, d, q.onToken, q.isPrivate);
      CompletionOutcome(w, CreateObject(w, ctx, caller, full, Derive), d.item, origin, f);
    } else {
      EnactFails(w, caller, d, q.onToken, q.isPrivate);
      FailureOutcome(w, caller, d, q.onToken, q.isPrivate);
    }
  }

  /** Existing objects are untouched, and what is new comes from nowhere and is consistent. */
  ghost predicate NothingHonestLost(w: World, w': World) {
    forall id :: id in w'.items ==>
      if id in w.items then w'.items[id] == w.items[id]
      else HistoryConsistent(w'.items[id].attrs) && w'.items[id].origin == MadeBy(Derive)
  }

  lemma SameWorld(w: World)
    ensures NothingHonestLost(w, w)
  {
  }

  lemma CompletionOutcome(w: World, made: Reply, it: Item, origin: Origin, f: Attrs -> Option<Attrs>)
    requires made.world.items == w.items[w.next := it] && Lookup(made.world, made.handle) == Some(w.next) && made.rv == OK
    requires Sound(w)
    ensures var r := CompleteKey(made, origin, f);
            if r.rv == OK then f(it.attrs).Some? && r.world.items == w.items[w.next := it.(attrs := f(it.attrs).value, origin := origin)]
            else NothingHonestLost(w, r.world)
  {
    hide SoundItem, SoundHandles;
  }

  lemma FailureOutcome(w: World, caller: Caller, d: Draft, onToken: bool, isPrivate: bool)
    requires !d.Complete? && Sound(w)
    requires d.HalfMade? ==> d.item.origin == MadeBy(Derive) && HistoryConsistent(d.item.attrs)
    ensures NothingHonestLost(w, Enact(w, caller, d, onToken, isPrivate).world)
  {
    hide SoundItem, SoundHandles, HistoryConsistent;
  }

  /** A derivation that succeeds is the making of a key. */
  lemma DeriveFromMakes(w: World, ctx: Context, caller: Caller, p: Plan, d: Derivation, es: Template, parity: byte -> byte, id: Id, other: Id)
    returns (raw: Bytes, len: nat, check: bool)
    requires id in w.items && other in w.items
    ensures var r := DeriveFrom(w, ctx, caller, p, d, es, parity, id, other);
            || (r.rv != OK && r.world == w)
            || (&& ReadWish(es, true).rv == OK
                && r == MakeKey(w, ctx, caller, p, es, true, Derive, DerivedFrom({id, other}, d.Agreement?),
                                ContributeDerived(ctx, p, d, w.items[id].attrs, w.items[other].attrs, raw, len, check, parity)))
  {
    hide MakeKey, ContributeDerived, RawSecret, DerivedLength, ConcatenatedLength, ReadWish, Material;
    var base, second := w.items[id].attrs, w.items[other].attrs;
    var wish := ReadWish(es, true);
    var secret := RawSecret(ctx, d, base, second);
    raw := if secret.Some? then secret.value else [];
    check := wish.checkValue;
    var length := if d.Implicit() && wish.len == 0 then Length(OK, 0) else DerivedLength(p.keyType, wish.len);
    len := if d.Implicit() && length.len == 0 then ConcatenatedLength(p.keyType, |raw|).len else length.len;
  }

  lemma ConcatenateFrom(w: World, ctx: Context, caller: Caller, p: Plan, h: Handle, es: Template, parity: byte -> byte, id: Id, other: Id)
    requires Sound(w) && Honest(w) && id in w.items && other in w.items
    requires IsWord(p.objClass) && IsWord(p.keyType) && p.objClass == CKO_SECRET_KEY
    requires HealthyKey(w.items[id].attrs)
    ensures var r := DeriveFrom(w, ctx, caller, p, ConcatKey(h), es, parity, id, other);
            && (r.rv != OK ==> HonestStep(w, r.world))
            && (r.rv == OK ==> (HonestStep(w, r.world) <==> SafeConcatenation(w.items[id].attrs, w.items[other].attrs, es)))
  {
    hide DeriveFrom, MakeKey, SoundItem, SoundHandles, HealthyKey, Grants, DraftObject, Header, Rest, DerivedKey, HistoryConsistent, ClaimsShrink;
    hide ReadPlan, ClassOf, StoredClass, Healthy, SoundDraft;
    var raw, len, check := DeriveFromMakes(w, ctx, caller, p, ConcatKey(h), es, parity, id, other);
    var base, second := w.items[id].attrs, w.items[other].attrs;
    var f := ContributeDerived(ctx, p, ConcatKey(h), base, second, raw, len, check, parity);
    MakeKeyOutcome(w, ctx, caller, p, es, DerivedFrom({id, other}, false), f);
    var r := DeriveFrom(w, ctx, caller, p, ConcatKey(h), es, parity, id, other);
    if r.rv == OK {
      var o := DraftObject(ctx, caller, Header(p) + Rest(es, true), Derive).item.attrs;
      DraftIsKey(ctx, caller, p, es);
      NewKeyClaims(ctx, caller, p, es);
      ConcatenatedClaims(ctx, p, h, base, second, raw, len, check, parity, o);
      NewItemHonest(w, r.world, DraftObject(ctx, caller, Header(p) + Rest(es, true), Derive).item.(attrs := f(o).value, origin := DerivedFrom({id, other}, false)), id, other);
    }
  }

  lemma DraftIsKey(ctx: Context, caller: Caller, p: Plan, es: Template)
    requires IsWord(p.objClass) && IsWord(p.keyType) && p.objClass == CKO_SECRET_KEY
    ensures var d := DraftObject(ctx, caller, Header(p) + Rest(es, true), Derive);
            d.Complete? ==> HealthyKey(d.item.attrs) && HistoryConsistent(d.item.attrs)
  {
    hide DraftObject, Header, Rest, ReadPlan, ClassOf, Healthy, HealthyKey, HistoryConsistent, StoredClass, Placed, Authorised;
    var full := Header(p) + Rest(es, true);
    AssembledPlan(p, es, true);
    CreateDraftLaw(ctx, caller, full, Derive);
    var d := DraftObject(ctx, caller, full, Derive);
    if d.Complete? { MadeHasClaims(d.item.attrs, ReadPlan(full, false, DEFAULT_PLAN).plan); }
  }

  lemma NewItemHonest(w: World, w': World, it: Item, id: Id, other: Id)
    requires Sound(w) && Honest(w) && id in w.items && other in w.items
    requires w'.items == w.items[w.next := it] && it.origin == DerivedFrom({id, other}, false)
    ensures HonestStep(w, w') <==>
              HistoryConsistent(it.attrs) && ClaimsShrink(w.items[id].attrs, it.attrs) && ClaimsShrink(w.items[other].attrs, it.attrs)
  {
    hide SoundItem, SoundHandles, HistoryConsistent, ClaimsShrink;
    assert w.next !in w.items && w.next in w'.items;
  }

  /** The two keys that a call would concatenate; None if it finds no two keys. */
  function TwoKeys(w: World, h: Handle, other: Handle): Option<(Id, Id)> {
    match Lookup(w, h)
    case None => None
    case Some(id) => match Lookup(w, other) case None => None case Some(id') => Some((id, id'))
  }

  /** Exactly when a successful concatenation makes a key that is honest about its past: if the caller's
      check is met. */
  lemma ConcatenationIsHonestExactly(w: World, ctx: Context, caller: Caller, h: Handle, other: Handle, es: Template, parity: byte -> byte)
    requires Sound(w) && Honest(w)
    ensures var r := DeriveKey(w, ctx, caller, h, ConcatKey(other), es, parity);
            var two := TwoKeys(w, h, other);
            && (r.rv != OK ==> HonestStep(w, r.world))
            && (r.rv == OK ==>
                  two.Some? && (HonestStep(w, r.world) <==> SafeConcatenation(w.items[two.value.0].attrs, w.items[two.value.1].attrs, es)))
  {
    hide ReadPlan, DeriveFrom, Healthy, SoundHandles, HonestStep, StoredClass, HaveRead, HaveWrite, SafeConcatenation, HealthyKey;
    NothingHappened(w);
    var default := DEFAULT_PLAN.(objClass := CKO_SECRET_KEY, keyType := CKK_GENERIC_SECRET);
    PlanWords(es, true, default);
    var p := ReadPlan(es, true, default).plan;
    var id, id' := Lookup(w, h), Lookup(w, other);
    if id.Some? && id'.Some? && p.objClass == CKO_SECRET_KEY && Class(w.items[id.value].attrs) == CKO_SECRET_KEY {
      assert SoundItem(w.items[id.value], id.value);
      BaseMakesClaims(w.items[id.value].attrs);
      ConcatenateFrom(w, ctx, caller, p, other, es, parity, id.value, id'.value);
    }
  }

  lemma NothingHappened(w: World)
    requires Honest(w)
    ensures HonestStep(w, w)
  {
  }

  // ----- runs ---------------------------------------------------------------------------------------------------

  /** The caller's check, where the step concatenates two keys. */
  ghost predicate Checked(w: World, s: Step) {
    ConcatenatesKeys(s) ==>
      var two := TwoKeys(w, s.call.h, s.call.d.other);
      two.Some? ==> SafeConcatenation(w.items[two.value.0].attrs, w.items[two.value.1].attrs, s.call.es)
  }

  ghost predicate CheckedRun(token: Token, steps: seq<Step>) {
    forall i :: 0 <= i < |steps| ==> Checked(Trace(token, steps)[i], steps[i])
  }

  lemma CheckedStep(token: Token, w: World, s: Step)
    requires Sound(w) && Honest(w) && Checked(w, s)
    ensures HonestStep(w, Perform(token, w, s).world)
  {
    hide Sound, Honest, HonestStep, HealthyKey, SafeConcatenation, Evolves;
    StepLaw(token, w, s);
    if ConcatenatesKeys(s) {
      ConcatenationIsHonestExactly(w, Context(token, s.caller.state), s.caller, s.call.h, s.call.d.other, s.call.es, s.call.parity);
    }
  }

  lemma {:induction false} CheckedTrace(token: Token, steps: seq<Step>)
    requires CheckedRun(token, steps)
    ensures HonestRun(Trace(token, steps))
  {
    hide SoundItem, SoundHandles, Perform, HonestStep, Honest, HonestRun, Checked;
    if |steps| == 0 {
      EmptyIsSound();
    } else {
      var n := |steps| - 1;
      var before := Trace(token, steps[..n]);
      assert CheckedRun(token, steps[..n]) by {
        forall i | 0 <= i < n ensures Checked(before[i], steps[..n][i]) { assert Checked(Trace(token, steps)[i], steps[i]); }
      }
      CheckedTrace(token, steps[..n]);
      TraceLaw(token, steps[..n]);
      assert Checked(Trace(token, steps)[n], steps[n]);
      LastIsHonest(before);
      CheckedStep(token, before[n], steps[n]);
      HonestRunGrows(before, Perform(token, before[n], steps[n]).world);
    }
  }

  lemma LastIsHonest(tr: seq<World>)
    requires |tr| > 0 && HonestRun(tr)
    ensures Honest(tr[|tr| - 1])
  {
  }

  /** The meaning of the history attributes over every run in which concatenations are checked first: a
      key that says it has always been sensitive was so in every state, and so was everything it was
      copied or derived from; likewise for never having been extractable. */
  lemma HistoryOverCheckedRuns(token: Token, steps: seq<Step>, j: nat, id: Id, anc: Id, i: nat)
    requires CheckedRun(token, steps) && i <= |steps| && j <= |steps|
    requires var tr := Trace(token, steps); id in tr[j].items && Descends(tr, id, anc) && anc in tr[i].items
    ensures var tr := Trace(token, steps);
            && (AlwaysSensitive(tr[j].items[id].attrs) ==> Sensitive(tr[i].items[anc].attrs))
            && (NeverExtractable(tr[j].items[id].attrs) ==> !Extractable(tr[i].items[anc].attrs))
  {
    hide SoundRun, HonestRun, Descends, CheckedRun;
    TraceLaw(token, steps);
    CheckedTrace(token, steps);
    HistoryIsSound(Trace(token, steps), j, id, anc, i);
  }
}
