/** Encryption at rest is transparent over whole runs: the library with a lawful cipher and the
    library that stores everything in clear make the same moves. */
module TransparentRuns {
  import opened Cryptoki
  import opened Attributes
  import opened ObjectClasses
  import opened AttributeLaws
  import opened Templates
  import opened Transparency
  import opened ObjectStore
  import opened ObjectLaws
  import opened Runs
  import opened HalfMade

  // ----- items and drafts ------------------------------------------------------------------------

  /** Two objects that differ only in how byte strings are stored. */
  ghost predicate TwinItem(token: Token, it: Item, ci: Item) {
    && it.place == ci.place && it.origin == ci.origin && it.finished == ci.finished
    && Hides(token, IsPrivate(it.attrs), it.attrs, ci.attrs)
  }

  ghost predicate Twin(token: Token, w: World, c: World) {
    && w.items.Keys == c.items.Keys && w.next == c.next
    && w.handles == c.handles && w.byObject == c.byObject && w.lastHandle == c.lastHandle
    && forall id :: id in w.items ==> TwinItem(token, w.items[id], c.items[id])
  }

  ghost predicate TwinReply(token: Token, r: Reply, s: Reply) {
    r.rv == s.rv && r.handle == s.handle && Twin(token, r.world, s.world)
  }

  ghost predicate TwinDraft(token: Token, d: Draft, e: Draft) {
    match d
    case Refused(rv) => e == Refused(rv)
    case Undone(rv) => e == Undone(rv)
    case HalfMade(it, rv) => e.HalfMade? && e.rv == rv && TwinItem(token, it, e.item)
    case Complete(it) => e.Complete? && TwinItem(token, it, e.item)
  }

  lemma SameFlags(token: Token, isPrivate: bool, o: Attrs, c: Attrs)
    requires Hides(token, isPrivate, o, c)
    ensures forall a, d :: !IsDate(a) ==> Flag(o, a, d) == Flag(c, a, d)
    ensures IsOnToken(o) == IsOnToken(c) && IsPrivate(o) == IsPrivate(c)
    ensures StoredClass(o) == StoredClass(c) && Class(o) == Class(c)
    ensures Modifiable(o) == Modifiable(c) && Copyable(o) == Copyable(c)
  {
    SameReadings(token, isPrivate, o, c);
  }

  lemma EnactAlike(token: Token, w: World, c: World, caller: Caller, d: Draft, e: Draft, onToken: bool, isPrivate: bool)
    requires Twin(token, w, c) && TwinDraft(token, d, e)
    ensures TwinReply(token, Enact(w, caller, d, onToken, isPrivate), Enact(c, caller, e, onToken, isPrivate))
  {
    hide TwinItem;
  }

  lemma MarkCreatedAlike(token: Token, isPrivate: bool, o: Attrs, c: Attrs, objClass: nat)
    requires Hides(token, isPrivate, o, c)
    ensures Hides(token, isPrivate, MarkCreated(o, objClass), MarkCreated(c, objClass))
  {
    hide Hides;
    var no := BoolV(false);
    var o1, c1 := o[CKA_LOCAL := no], c[CKA_LOCAL := no];
    HidesPut(token, isPrivate, o, c, CKA_LOCAL, no, no);
    HidesPut(token, isPrivate, o1, c1, CKA_ALWAYS_SENSITIVE, no, no);
    HidesPut(token, isPrivate, o1[CKA_ALWAYS_SENSITIVE := no], c1[CKA_ALWAYS_SENSITIVE := no], CKA_NEVER_EXTRACTABLE, no, no);
  }

  lemma PrivateNeedsLogin(state: SessionState, onToken: bool, isPrivate: bool)
    requires isPrivate && (HaveWrite(state, onToken, isPrivate) == OK || HaveRead(state, onToken, isPrivate) == OK)
    ensures state.LoggedIn()
  {
  }

  lemma CreateDraftAlike(ctx: Context, caller: Caller, es: Template, op: Op)
    requires ctx.token.Lawful() && ctx.session == caller.state && op != Copy && op != Set
    requires !Misstored(ctx, caller, es, op)
    ensures TwinDraft(ctx.token, DraftObject(ctx, caller, es, op), DraftObject(Clear(ctx), caller, es, op))
  {
    if DraftObject(ctx, caller, es, op).HalfMade? {
      hide DraftObject, Hides, Misstored, Token.Lawful;
      StoredAsPlanned(ctx, caller, es, op);
      HalfMadeStoredExactly(ctx, caller, es, op);
    } else {
      UnfailingDraftAlike(ctx, caller, es, op);
    }
  }

  lemma UnfailingDraftAlike(ctx: Context, caller: Caller, es: Template, op: Op)
    requires ctx.token.Lawful() && ctx.session == caller.state && op != Copy && op != Set
    requires !DraftObject(ctx, caller, es, op).HalfMade?
    ensures TwinDraft(ctx.token, DraftObject(ctx, caller, es, op), DraftObject(Clear(ctx), caller, es, op))
  {
    hide Hides, Table, Declares, Initialised, SaveTemplate, SchemaOf, CheckValueLast, ClassOf, StoredClass, ReadPlan, Token.Lawful;
    CreateDraftLaw(ctx, caller, es, op);
    var planned := ReadPlan(es, false, DEFAULT_PLAN);
    var p := planned.plan;
    if planned.rv == OK && HaveWrite(caller.state, p.onToken, p.isPrivate) == OK && ClassOf(p.objClass, p.keyType, p.certType).Some? {
      var c := ClassOf(p.objClass, p.keyType, p.certType).value;
      var job := Job(ctx, SchemaOf(c), p.isPrivate, op);
      if p.isPrivate { PrivateNeedsLogin(caller.state, p.onToken, p.isPrivate); }
      NewHides(ctx.token, p.isPrivate, c);
      SaveAlike(job, Initialised(c, map[]), Initialised(c, map[]), CheckValueLast(es), p.onToken);
      var r := SaveTemplate(job, Initialised(c, map[]), CheckValueLast(es), p.onToken);
      var s := SaveTemplate(ClearJob(job), Initialised(c, map[]), CheckValueLast(es), p.onToken);
      MarkCreatedAlike(ctx.token, p.isPrivate, r.attrs, s.attrs, p.objClass);
    }
  }

  lemma HidesHealthy(token: Token, isPrivate: bool, o: Attrs, c: Attrs)
    requires Healthy(o) && Hides(token, isPrivate, o, c)
    ensures Healthy(c)
  {
    hide Table, Declares, KindOf;
    assert StoredClass(o) == StoredClass(c);
  }

  /** What is copied hides the same clear values, under the privacy of the copy. */
  lemma TranscriptAlike(ctx: Context, o: Attrs, c: Attrs, isPrivate: bool)
    requires ctx.token.Lawful() && Hides(ctx.token, IsPrivate(o), o, c)
    requires (IsPrivate(o) ==> isPrivate) && (isPrivate ==> ctx.session.LoggedIn())
    ensures var upgrade := !IsPrivate(o) && isPrivate;
            var r, s := Transcript(ctx, upgrade, o), Transcript(Clear(ctx), upgrade, c);
            r.Some? == s.Some? && (r.Some? ==> Hides(ctx.token, isPrivate, r.value, s.value))
  {
    hide KindOf;
    var upgrade := !IsPrivate(o) && isPrivate;
    assert forall a :: a in o ==> Transcribed(ctx, upgrade, o[a]).Some?;
    assert forall a :: a in c ==> Transcribed(Clear(ctx), upgrade, c[a]).Some?;
    if CKA_CLASS in o {
      var r, s := Transcript(ctx, upgrade, o).value, Transcript(Clear(ctx), upgrade, c).value;
      forall a | a in r ensures HidesAt(ctx.token, isPrivate, a, r[a], s[a]) {
        assert HidesAt(ctx.token, IsPrivate(o), a, o[a], c[a]);
      }
      assert r.Keys == s.Keys;
    }
  }

  lemma CopyDraftAlike(ctx: Context, caller: Caller, source: Id, o: Attrs, c: Attrs, es: Template)
    requires ctx.token.Lawful() && ctx.session == caller.state
    requires Healthy(o) && Hides(ctx.token, IsPrivate(o), o, c)
    ensures TwinDraft(ctx.token, DraftCopy(ctx, caller, source, o, es), DraftCopy(Clear(ctx), caller, source, c, es))
  {
    hide Hides, Table, Declares, Initialised, SaveTemplate, SchemaOf, Healthy, StoredClass, KindOf, Transcript, LastFlag, Token.Lawful;
    SameFlags(ctx.token, IsPrivate(o), o, c);
    CopyDraftLaw(ctx, caller, source, o, es);
    var onToken := LastFlag(es, CKA_TOKEN, IsOnToken(o));
    var isPrivate := LastFlag(es, CKA_PRIVATE, IsPrivate(o));
    var upgrade := !IsPrivate(o) && isPrivate;
    if (IsPrivate(o) ==> isPrivate) && HaveWrite(caller.state, onToken, isPrivate) == OK {
      if isPrivate { PrivateNeedsLogin(caller.state, onToken, isPrivate); }
      TranscriptAlike(ctx, o, c, isPrivate);
      var r, s := Transcript(ctx, upgrade, o), Transcript(Clear(ctx), upgrade, c);
      if r.Some? {
        TranscriptLaw(ctx, upgrade, o);
        SameFlags(ctx.token, isPrivate, r.value, s.value);
        HidesHealthy(ctx.token, isPrivate, r.value, s.value);
        var k := StoredClass(r.value).value;
        Reinitialised(k, r.value);
        Reinitialised(k, s.value);
        SaveAlike(Job(ctx, SchemaOf(k), isPrivate, Copy), r.value, s.value, es, onToken);
      }
    }
  }

  // ----- contributions ----------------------------------------------------------------------------------

  lemma StoreAlike(ctx: Context, isPrivate: bool, x: Bytes, a: AttrType)
    requires ctx.token.Lawful() && (isPrivate ==> ctx.session.LoggedIn()) && !IsDate(a)
    ensures HidesAt(ctx.token, isPrivate, a, Store(ctx, isPrivate, x), Store(Clear(ctx), isPrivate, x))
  {
  }

  lemma PutFlag(token: Token, isPrivate: bool, o: Attrs, c: Attrs, a: AttrType, b: bool)
    requires Hides(token, isPrivate, o, c) && !IsDate(a)
    ensures Hides(token, isPrivate, o[a := BoolV(b)], c[a := BoolV(b)])
  {
    HidesPut(token, isPrivate, o, c, a, BoolV(b), BoolV(b));
  }

  /** Two contributions that keep twins twins. */
  ghost predicate TwinContribution(token: Token, isPrivate: bool, f: Attrs -> Option<Attrs>, g: Attrs -> Option<Attrs>) {
    forall o, c :: Hides(token, isPrivate, o, c) ==>
      && f(o).Some? == g(c).Some?
      && (f(o).Some? ==> Hides(token, isPrivate, f(o).value, g(c).value))
  }

  lemma StoreKeyAlike(ctx: Context, isPrivate: bool, o: Attrs, c: Attrs, key: Bytes, kcv: Option<Bytes>)
    requires ctx.token.Lawful() && (isPrivate ==> ctx.session.LoggedIn()) && Hides(ctx.token, isPrivate, o, c)
    ensures Hides(ctx.token, isPrivate, StoreKey(ctx, isPrivate, o, key, kcv), StoreKey(Clear(ctx), isPrivate, c, key, kcv))
  {
    hide Hides, HidesAt, Token.Lawful;
    var v, w := Store(ctx, isPrivate, key), Store(Clear(ctx), isPrivate, key);
    StoreAlike(ctx, isPrivate, key, CKA_VALUE);
    HidesPut(ctx.token, isPrivate, o, c, CKA_VALUE, v, w);
    if kcv.Some? {
      StoreAlike(ctx, isPrivate, kcv.value, CKA_CHECK_VALUE);
      HidesPut(ctx.token, isPrivate, o[CKA_VALUE := v], c[CKA_VALUE := w], CKA_CHECK_VALUE,
               Store(ctx, isPrivate, kcv.value), Store(Clear(ctx), isPrivate, kcv.value));
    }
  }

  lemma GeneratedClaimsAlike(token: Token, isPrivate: bool, mechanism: nat, o: Attrs, c: Attrs)
    requires Hides(token, isPrivate, o, c)
    ensures Hides(token, isPrivate, GeneratedClaims(mechanism, o), GeneratedClaims(mechanism, c))
  {
    hide Hides, HidesAt;
    var yes, m := BoolV(true), NumberV(mechanism);
    PutFlag(token, isPrivate, o, c, CKA_LOCAL, true);
    NumberHides(token, isPrivate, CKA_KEY_GEN_MECHANISM, mechanism);
    HidesPut(token, isPrivate, o[CKA_LOCAL := yes], c[CKA_LOCAL := yes], CKA_KEY_GEN_MECHANISM, m, m);
    var o2, c2 := o[CKA_LOCAL := yes][CKA_KEY_GEN_MECHANISM := m], c[CKA_LOCAL := yes][CKA_KEY_GEN_MECHANISM := m];
    SameFlag(token, isPrivate, o2, c2, CKA_SENSITIVE);
    var b := Flag(o2, CKA_SENSITIVE, false);
    PutFlag(token, isPrivate, o2, c2, CKA_ALWAYS_SENSITIVE, b);
    var o3, c3 := o2[CKA_ALWAYS_SENSITIVE := BoolV(b)], c2[CKA_ALWAYS_SENSITIVE := BoolV(b)];
    SameFlag(token, isPrivate, o3, c3, CKA_EXTRACTABLE);
    PutFlag(token, isPrivate, o3, c3, CKA_NEVER_EXTRACTABLE, !Flag(o3, CKA_EXTRACTABLE, false));
  }

  lemma SameFlag(token: Token, isPrivate: bool, o: Attrs, c: Attrs, a: AttrType)
    requires Hides(token, isPrivate, o, c) && !IsDate(a)
    ensures Flag(o, a, true) == Flag(c, a, true) && Flag(o, a, false) == Flag(c, a, false)
  {
  }

  lemma GeneratedAlike(ctx: Context, isPrivate: bool, mechanism: nat, keyType: nat, key: Bytes, checkValue: bool, o: Attrs, c: Attrs)
    requires ctx.token.Lawful() && (isPrivate ==> ctx.session.LoggedIn()) && Hides(ctx.token, isPrivate, o, c)
    ensures var r := ContributeGenerated(ctx, isPrivate, mechanism, keyType, key, checkValue)(o);
            var s := ContributeGenerated(Clear(ctx), isPrivate, mechanism, keyType, key, checkValue)(c);
            r.Some? && s.Some? && Hides(ctx.token, isPrivate, r.value, s.value)
  {
    hide Hides, HidesAt, Token.Lawful;
    GeneratedClaimsAlike(ctx.token, isPrivate, mechanism, o, c);
    StoreKeyAlike(ctx, isPrivate, GeneratedClaims(mechanism, o), GeneratedClaims(mechanism, c), key,
                  if checkValue then KcvOf(ctx.token, keyType, key) else None);
    SameKcv(ctx.token, keyType, key);
  }

  lemma SameKcv(token: Token, keyType: nat, x: Bytes)
    ensures KcvOf(token, keyType, x) == KcvOf(ClearToken(token), keyType, x)
  {
  }

  lemma NumberHides(token: Token, isPrivate: bool, a: AttrType, n: nat)
    requires !IsDate(a)
    ensures HidesAt(token, isPrivate, a, NumberV(n), NumberV(n))
  {
  }

  lemma UnwrappedAlike(ctx: Context, isPrivate: bool, parts: Option<KeyParts>, o: Attrs, c: Attrs)
    requires ctx.token.Lawful() && (isPrivate ==> ctx.session.LoggedIn()) && Hides(ctx.token, isPrivate, o, c)
    ensures var r := ContributeUnwrapped(ctx, isPrivate, parts)(o);
            var s := ContributeUnwrapped(Clear(ctx), isPrivate, parts)(c);
            r.Some? == s.Some? && (r.Some? ==> Hides(ctx.token, isPrivate, r.value, s.value))
  {
    hide Token.Lawful;
    var no := BoolV(false);
    var t := ctx.token;
    PutFlag(t, isPrivate, o, c, CKA_LOCAL, false);
    PutFlag(t, isPrivate, o[CKA_LOCAL := no], c[CKA_LOCAL := no], CKA_ALWAYS_SENSITIVE, false);
    var o1, c1 := o[CKA_LOCAL := no][CKA_ALWAYS_SENSITIVE := no], c[CKA_LOCAL := no][CKA_ALWAYS_SENSITIVE := no];
    PutFlag(t, isPrivate, o1, c1, CKA_NEVER_EXTRACTABLE, false);
    if parts.Some? {
      PartsAlike(ctx, isPrivate, parts.value, o1[CKA_NEVER_EXTRACTABLE := no], c1[CKA_NEVER_EXTRACTABLE := no]);
    }
  }

  lemma PartsAlike(ctx: Context, isPrivate: bool, parts: KeyParts, o: Attrs, c: Attrs)
    requires ctx.token.Lawful() && (isPrivate ==> ctx.session.LoggedIn()) && Hides(ctx.token, isPrivate, o, c)
    ensures Hides(ctx.token, isPrivate, o + StoreParts(ctx, isPrivate, parts), c + StoreParts(Clear(ctx), isPrivate, parts))
  {
    hide HidesAt, Token.Lawful;
    var o', c' := o + StoreParts(ctx, isPrivate, parts), c + StoreParts(Clear(ctx), isPrivate, parts);
    forall a | a in o' ensures a in c' && HidesAt(ctx.token, isPrivate, a, o'[a], c'[a]) {
      if a in parts { StoreAlike(ctx, isPrivate, parts[a], a); }
    }
    assert o'.Keys == c'.Keys;
  }

  /** Twin worlds give twin base keys, whose flags are the same. */
  ghost predicate TwinBases(token: Token, base: Attrs, other: Attrs, base': Attrs, other': Attrs) {
    Hides(token, IsPrivate(base), base, base') && Hides(token, IsPrivate(other), other, other')
  }

  lemma BaseFlags(token: Token, base: Attrs, other: Attrs, base': Attrs, other': Attrs, a: AttrType)
    requires TwinBases(token, base, other, base', other') && !IsDate(a)
    ensures Flag(base, a, true) == Flag(base', a, true) && Flag(base, a, false) == Flag(base', a, false)
    ensures Flag(other, a, true) == Flag(other', a, true) && Flag(other, a, false) == Flag(other', a, false)
  {
    SameFlag(token, IsPrivate(base), base, base', a);
    SameFlag(token, IsPrivate(other), other, other', a);
  }

  lemma PutTwoFlags(token: Token, isPrivate: bool, o: Attrs, c: Attrs, a: AttrType, v: bool, a': AttrType, v': bool)
    requires Hides(token, isPrivate, o, c) && !IsDate(a) && !IsDate(a')
    ensures Hides(token, isPrivate, o[a := BoolV(v)][a' := BoolV(v')], c[a := BoolV(v)][a' := BoolV(v')])
  {
    hide Hides;
    PutFlag(token, isPrivate, o, c, a, v);
    PutFlag(token, isPrivate, o[a := BoolV(v)], c[a := BoolV(v)], a', v');
  }

  /** Raising sensitivity and withdrawing extractability, where the base keys demand it. */
  lemma RaisedAlike(token: Token, isPrivate: bool, raised: bool, kept: bool, o: Attrs, c: Attrs)
    requires Hides(token, isPrivate, o, c)
    ensures var o1, c1 := if raised then o[CKA_SENSITIVE := BoolV(true)] else o, if raised then c[CKA_SENSITIVE := BoolV(true)] else c;
            Hides(token, isPrivate, if kept then o1 else o1[CKA_EXTRACTABLE := BoolV(false)], if kept then c1 else c1[CKA_EXTRACTABLE := BoolV(false)])
  {
    hide Hides;
    PutFlag(token, isPrivate, o, c, CKA_SENSITIVE, true);
    PutFlag(token, isPrivate, o, c, CKA_EXTRACTABLE, false);
    PutTwoFlags(token, isPrivate, o, c, CKA_SENSITIVE, true, CKA_EXTRACTABLE, false);
  }

  lemma DeriveClaimsAlike(token: Token, isPrivate: bool, d: Derivation, base: Attrs, other: Attrs, base': Attrs, other': Attrs, o: Attrs, c: Attrs)
    requires Hides(token, isPrivate, o, c) && TwinBases(token, base, other, base', other')
    ensures Hides(token, isPrivate, DeriveClaims(d, base, other, o), DeriveClaims(d, base', other', c))
  {
    hide HidesAt, Hides, TwinBases, Flag;
    BaseFlags(token, base, other, base', other', CKA_SENSITIVE);
    BaseFlags(token, base, other, base', other', CKA_EXTRACTABLE);
    BaseFlags(token, base, other, base', other', CKA_ALWAYS_SENSITIVE);
    BaseFlags(token, base, other, base', other', CKA_NEVER_EXTRACTABLE);
    var always, never := Flag(base, CKA_ALWAYS_SENSITIVE, false), Flag(base, CKA_NEVER_EXTRACTABLE, false);
    if d.ConcatKey? {
      var raised := Flag(base, CKA_SENSITIVE, true) || Flag(other, CKA_SENSITIVE, true);
      var kept := Flag(base, CKA_EXTRACTABLE, true) && Flag(other, CKA_EXTRACTABLE, true);
      RaisedAlike(token, isPrivate, raised, kept, o, c);
      var o1, c1 := if raised then o[CKA_SENSITIVE := BoolV(true)] else o, if raised then c[CKA_SENSITIVE := BoolV(true)] else c;
      PutTwoFlags(token, isPrivate, if kept then o1 else o1[CKA_EXTRACTABLE := BoolV(false)], if kept then c1 else c1[CKA_EXTRACTABLE := BoolV(false)],
                  CKA_ALWAYS_SENSITIVE, always && Flag(other, CKA_ALWAYS_SENSITIVE, false),
                  CKA_ALWAYS_SENSITIVE, never && Flag(other, CKA_NEVER_EXTRACTABLE, false));
    } else if d.ConcatData? {
      var raised, kept := Flag(base, CKA_SENSITIVE, true), Flag(base, CKA_EXTRACTABLE, false);
      RaisedAlike(token, isPrivate, raised, kept, o, c);
      var o1, c1 := if raised then o[CKA_SENSITIVE := BoolV(true)] else o, if raised then c[CKA_SENSITIVE := BoolV(true)] else c;
      PutTwoFlags(token, isPrivate, if kept then o1 else o1[CKA_EXTRACTABLE := BoolV(false)], if kept then c1 else c1[CKA_EXTRACTABLE := BoolV(false)],
                  CKA_ALWAYS_SENSITIVE, always, CKA_NEVER_EXTRACTABLE, never);
    } else {
      SameFlag(token, isPrivate, o, c, CKA_SENSITIVE);
      SameFlag(token, isPrivate, o, c, CKA_EXTRACTABLE);
      PutTwoFlags(token, isPrivate, o, c, CKA_ALWAYS_SENSITIVE, always && Flag(o, CKA_SENSITIVE, false),
                  CKA_NEVER_EXTRACTABLE, Flag(base, CKA_NEVER_EXTRACTABLE, true) && !Flag(o, CKA_EXTRACTABLE, false));
    }
  }

  lemma DerivedAlike(ctx: Context, p: Plan, d: Derivation, base: Attrs, other: Attrs, base': Attrs, other': Attrs, raw: Bytes,
                     len: nat, checkValue: bool, parity: byte -> byte, o: Attrs, c: Attrs)
    requires ctx.token.Lawful() && (p.isPrivate ==> ctx.session.LoggedIn()) && Hides(ctx.token, p.isPrivate, o, c)
    requires TwinBases(ctx.token, base, other, base', other')
    ensures var r := DerivedKey(ctx, p, d, base, other, raw, len, checkValue, parity, o);
            var s := DerivedKey(Clear(ctx), p, d, base', other', raw, len, checkValue, parity, c);
            r.Some? == s.Some? && (r.Some? ==> Hides(ctx.token, p.isPrivate, r.value, s.value))
  {
    hide Hides, HidesAt, Token.Lawful, DeriveClaims, TwinBases, StoreKey, KcvOf, FixParity, Cut;
    var t := ctx.token;
    PutFlag(t, p.isPrivate, o, c, CKA_LOCAL, false);
    var o0, c0 := o[CKA_LOCAL := BoolV(false)], c[CKA_LOCAL := BoolV(false)];
    DeriveClaimsAlike(t, p.isPrivate, d, base, other, base', other', o0, c0);
    if len <= |raw| {
      var key := FixParity(parity, p.keyType, Cut(d, raw, len));
      SameKcv(t, p.keyType, if d.Agreement? then raw else key);
      StoreKeyAlike(ctx, p.isPrivate, DeriveClaims(d, base, other, o0), DeriveClaims(d, base', other', c0), key,
                    if checkValue then KcvOf(t, p.keyType, if d.Agreement? then raw else key) else None);
    }
  }

  // ----- calls ------------------------------------------------------------------------------------------

  lemma CompleteAlike(token: Token, w: World, isPrivate: bool, r: Reply, s: Reply, it: Item, ci: Item, origin: Origin,
                      f: Attrs -> Option<Attrs>, g: Attrs -> Option<Attrs>)
    requires TwinReply(token, r, s) && r.world.items == w.items[w.next := it] && Lookup(r.world, r.handle) == Some(w.next)
    requires s.world.items[w.next] == ci && it.finished && IsPrivate(it.attrs) == isPrivate
    requires TwinContribution(token, isPrivate, f, g)
    requires f(it.attrs).Some? ==> IsPrivate(f(it.attrs).value) == isPrivate
    ensures TwinReply(token, CompleteKey(r, origin, f), CompleteKey(s, origin, g))
  {
    hide Hides;
    assert TwinItem(token, it, ci);
    assert f(it.attrs).Some? == g(ci.attrs).Some?;
  }

  lemma AlikeCodes(token: Token, r: Reply, s: Reply)
    requires TwinReply(token, r, s)
    ensures r.rv == s.rv
  {
  }

  lemma HealthOfKey(o: Attrs)
    requires HealthyKey(o)
    ensures Healthy(o)
  {
  }

  /** The templates that the library assembles draft alike, and draft whole keys as planned. */
  lemma AssembledDraftAlike(ctx: Context, caller: Caller, p: Plan, es: Template, dropCheck: bool, op: Op)
    requires ctx.token.Lawful() && ctx.session == caller.state && op != Copy && op != Set
    requires IsWord(p.objClass) && IsWord(p.keyType) && (p.objClass == CKO_SECRET_KEY || p.objClass == CKO_PRIVATE_KEY)
    ensures var full := Header(p) + Rest(es, dropCheck);
            var q, d := ReadPlan(full, false, DEFAULT_PLAN).plan, DraftObject(ctx, caller, full, op);
            && q.isPrivate == p.isPrivate && SoundDraft(d, caller)
            && TwinDraft(ctx.token, d, DraftObject(Clear(ctx), caller, full, op))
            && (d.Complete? ==> HealthyKey(d.item.attrs) && d.item.finished && Placed(d.item) && IsPrivate(d.item.attrs) == p.isPrivate)
  {
    hide DraftObject, Header, Rest, Healthy, HealthyKey, ClassOf, ReadPlan, StoredClass, Token.Lawful, Authorised, Placed, Clear, TwinDraft;
    hide PrivacyFirst, Misstored;
    var full := Header(p) + Rest(es, dropCheck);
    AssembledPlan(p, es, dropCheck);
    AssembledPrivacyFirst(p, es, dropCheck);
    PrivacyFirstIsSafe(ctx, caller, full, op);
    CreateDraftLaw(ctx, caller, full, op);
    CreateDraftAlike(ctx, caller, full, op);
    var d := DraftObject(ctx, caller, full, op);
    if d.Complete? { MadeHasClaims(d.item.attrs, ReadPlan(full, false, DEFAULT_PLAN).plan); }
  }

  lemma MakeKeyAlike(w: World, c: World, ctx: Context, caller: Caller, p: Plan, es: Template, dropCheck: bool, op: Op, origin: Origin,
                     f: Attrs -> Option<Attrs>, g: Attrs -> Option<Attrs>)
    requires ctx.token.Lawful() && ctx.session == caller.state && op != Copy && op != Set
    requires Sound(w) && Twin(ctx.token, w, c)
    requires IsWord(p.objClass) && IsWord(p.keyType) && (p.objClass == CKO_SECRET_KEY || p.objClass == CKO_PRIVATE_KEY)
    requires TwinContribution(ctx.token, p.isPrivate, f, g)
    requires forall o :: HealthyKey(o) && f(o).Some? ==> Contribution(o, f(o).value)
    ensures TwinReply(ctx.token, MakeKey(w, ctx, caller, p, es, dropCheck, op, origin, f),
                                 MakeKey(c, Clear(ctx), caller, p, es, dropCheck, op, origin, g))
  {
    hide DraftObject, Header, Rest, HealthyKey, Enact, ReadPlan, Contribution, Token.Lawful, Sound, Twin, TwinReply, TwinItem;
    hide CompleteKey, Placed, TwinContribution, Clear, SoundDraft, IsPrivate;
    var full := Header(p) + Rest(es, dropCheck);
    var q := ReadPlan(full, false, DEFAULT_PLAN).plan;
    var d, e := DraftObject(ctx, caller, full, op), DraftObject(Clear(ctx), caller, full, op);
    RefusedAlike(ctx.token, w, c);
    AssembledDraftAlike(ctx, caller, p, es, dropCheck, op);
    EnactAlike(ctx.token, w, c, caller, d, e, q.onToken, q.isPrivate);
    AlikeCodes(ctx.token, Enact(w, caller, d, q.onToken, q.isPrivate), Enact(c, caller, e, q.onToken, q.isPrivate));
    if d.Complete? {
      EnactNew(w, caller, d, q.onToken, q.isPrivate);
      if f(d.item.attrs).Some? { ContributionKeepsPlace(d.item, f(d.item.attrs).value) by { HealthOfKey(d.item.attrs); } }
      MadeAlike(w, c, ctx.token, caller, d, e, q, origin, f, g);
    } else {
      EnactFails(w, caller, d, q.onToken, q.isPrivate);
    }
  }

  lemma EnactNew(w: World, caller: Caller, d: Draft, onToken: bool, isPrivate: bool)
    requires Sound(w) && d.Complete?
    ensures var r := Enact(w, caller, d, onToken, isPrivate);
            r.rv == OK && r.world.items == w.items[w.next := d.item] && Lookup(r.world, r.handle) == Some(w.next)
  {
    hide SoundItem;
    FreshHandle(w, d.item, caller, onToken, isPrivate);
  }

  lemma MadeAlike(w: World, c: World, token: Token, caller: Caller, d: Draft, e: Draft, q: Plan, origin: Origin,
                  f: Attrs -> Option<Attrs>, g: Attrs -> Option<Attrs>)
    requires Sound(w) && Twin(token, w, c) && d.Complete? && e.Complete? && d.item.finished && IsPrivate(d.item.attrs) == q.isPrivate
    requires TwinReply(token, Enact(w, caller, d, q.onToken, q.isPrivate), Enact(c, caller, e, q.onToken, q.isPrivate))
    requires TwinContribution(token, q.isPrivate, f, g)
    requires f(d.item.attrs).Some? ==> IsPrivate(f(d.item.attrs).value) == q.isPrivate
    ensures TwinReply(token, CompleteKey(Enact(w, caller, d, q.onToken, q.isPrivate), origin, f),
                             CompleteKey(Enact(c, caller, e, q.onToken, q.isPrivate), origin, g))
  {
    hide Sound, TwinItem, TwinReply, TwinContribution, CompleteKey, Enact, IsPrivate;
    EnactNew(w, caller, d, q.onToken, q.isPrivate);
    EnactNewTwin(c, caller, e, q.onToken, q.isPrivate);
    CompleteAlike(token, w, q.isPrivate, Enact(w, caller, d, q.onToken, q.isPrivate), Enact(c, caller, e, q.onToken, q.isPrivate), d.item, e.item, origin, f, g);
  }

  lemma EnactNewTwin(w: World, caller: Caller, d: Draft, onToken: bool, isPrivate: bool)
    requires d.Complete?
    ensures Enact(w, caller, d, onToken, isPrivate).world.items == w.items[w.next := d.item]
  {
  }

  lemma EnactFails(w: World, caller: Caller, d: Draft, onToken: bool, isPrivate: bool)
    requires SoundDraft(d, caller) && !d.Complete?
    ensures Enact(w, caller, d, onToken, isPrivate).rv != OK
  {
  }

  lemma GenerateAlike(w: World, c: World, ctx: Context, caller: Caller, keyType: nat, es: Template, random: nat -> Bytes)
    requires ctx.token.Lawful() && ctx.session == caller.state && Sound(w) && Twin(ctx.token, w, c)
    ensures TwinReply(ctx.token, GenerateKey(w, ctx, caller, keyType, es, random), GenerateKey(c, Clear(ctx), caller, keyType, es, random))
  {
    hide Sound, Twin, ReadPlan, SecretWish, MakeKey, ContributeGenerated, HealthyKey, Contribution, Hides, Token.Lawful, Clear;
    RefusedAlike(ctx.token, w, c);
    var p := ReadPlan(es, true, DEFAULT_PLAN.(objClass := CKO_SECRET_KEY, keyType := keyType)).plan;
    if Generates(keyType) && p.objClass == CKO_SECRET_KEY && HaveWrite(caller.state, p.onToken, p.isPrivate) == OK {
      if p.isPrivate { PrivateNeedsLogin(caller.state, p.onToken, p.isPrivate); }
      PlanWords(es, true, DEFAULT_PLAN.(objClass := CKO_SECRET_KEY, keyType := keyType));
      var wish, mechanism := SecretWish(keyType, es), MechanismFor(keyType);
      var key := random(wish.len);
      var f := ContributeGenerated(ctx, p.isPrivate, mechanism, keyType, key, wish.checkValue);
      var g := ContributeGenerated(Clear(ctx), p.isPrivate, mechanism, keyType, key, wish.checkValue);
      forall o, c | Hides(ctx.token, p.isPrivate, o, c)
        ensures f(o).Some? && g(c).Some? && Hides(ctx.token, p.isPrivate, f(o).value, g(c).value)
      {
        GeneratedAlike(ctx, p.isPrivate, mechanism, keyType, key, wish.checkValue, o, c);
      }
      forall o | HealthyKey(o) ensures f(o).Some? && Contribution(o, f(o).value) {
        GeneratedIsHealthy(ctx, p.isPrivate, mechanism, keyType, key, wish.checkValue, o);
      }
      MakeKeyAlike(w, c, ctx, caller, p, es, true, Generate, MadeBy(Generate), f, g);
    }
  }

  lemma RefusedAlike(token: Token, w: World, c: World)
    requires Twin(token, w, c)
    ensures forall rv :: TwinReply(token, Refuse(w, rv), Refuse(c, rv))
  {
  }

  lemma UnwrapContributes(ctx: Context, isPrivate: bool, parts: Option<KeyParts>)
    requires ctx.token.Lawful() && (isPrivate ==> ctx.session.LoggedIn())
    ensures var f, g := ContributeUnwrapped(ctx, isPrivate, parts), ContributeUnwrapped(Clear(ctx), isPrivate, parts);
            && TwinContribution(ctx.token, isPrivate, f, g)
            && forall o :: HealthyKey(o) && f(o).Some? ==> Contribution(o, f(o).value)
  {
    hide ContributeUnwrapped, Contribution, Hides, Token.Lawful, Clear, Healthy, StoredClass, HistoryConsistent;
    var f, g := ContributeUnwrapped(ctx, isPrivate, parts), ContributeUnwrapped(Clear(ctx), isPrivate, parts);
    forall o, c | Hides(ctx.token, isPrivate, o, c)
      ensures f(o).Some? == g(c).Some? && (f(o).Some? ==> Hides(ctx.token, isPrivate, f(o).value, g(c).value))
    {
      UnwrappedAlike(ctx, isPrivate, parts, o, c);
    }
    forall o | HealthyKey(o) && f(o).Some? ensures Contribution(o, f(o).value) {
      UnwrappedSome(ctx, isPrivate, parts, o);
      UnwrappedIsHealthy(ctx, isPrivate, parts.value, o);
    }
  }

  lemma UnwrapAlike(w: World, c: World, ctx: Context, caller: Caller, es: Template, parts: Option<KeyParts>)
    requires ctx.token.Lawful() && ctx.session == caller.state && Sound(w) && Twin(ctx.token, w, c)
    ensures TwinReply(ctx.token, UnwrapKey(w, ctx, caller, es, parts), UnwrapKey(c, Clear(ctx), caller, es, parts))
  {
    hide Sound, Twin, ReadPlan, MakeKey, ContributeUnwrapped, Contribution, Hides, Token.Lawful, Clear, Healthy, StoredClass;
    RefusedAlike(ctx.token, w, c);
    var p := ReadPlan(es, false, DEFAULT_PLAN).plan;
    PlanWords(es, false, DEFAULT_PLAN);
    if (p.objClass == CKO_SECRET_KEY || p.objClass == CKO_PRIVATE_KEY) && HaveWrite(caller.state, p.onToken, p.isPrivate) == OK {
      if p.isPrivate { PrivateNeedsLogin(caller.state, p.onToken, p.isPrivate); }
      hide HealthyKey, TwinContribution;
      var f, g := ContributeUnwrapped(ctx, p.isPrivate, parts), ContributeUnwrapped(Clear(ctx), p.isPrivate, parts);
      UnwrapContributes(ctx, p.isPrivate, parts);
      MakeKeyAlike(w, c, ctx, caller, p, es, false, Unwrap, MadeBy(Unwrap), f, g);
    }
  }

  lemma FoundAlike(token: Token, w: World, c: World, h: Handle)
    requires Twin(token, w, c)
    ensures Lookup(w, h) == Lookup(c, h)
    ensures var id := Lookup(w, h);
            id.Some? ==>
              var o, o' := w.items[id.value].attrs, c.items[id.value].attrs;
              && Hides(token, IsPrivate(o), o, o') && w.items[id.value].place == c.items[id.value].place
  {
    hide Hides;
  }

  lemma MaterialAlike(ctx: Context, o: Attrs, c: Attrs, default: bool)
    requires ctx.token.Lawful() && Hides(ctx.token, IsPrivate(o), o, c) && CKA_PRIVATE in o
    requires o[CKA_PRIVATE].BoolV?
    ensures Material(ctx, o, default) == Material(Clear(ctx), c, default)
  {
    SameFlag(ctx.token, IsPrivate(o), o, c, CKA_PRIVATE);
    if IsPrivate(o) { HiddenDecodes(ctx.token, Text(o, CKA_VALUE), Text(c, CKA_VALUE)); }
  }

  lemma PrivacyPresent(o: Attrs)
    requires Healthy(o)
    ensures CKA_PRIVATE in o && o[CKA_PRIVATE].BoolV?
  {
    hide Table, Declares, StoredClass;
    EveryObjectHas(StoredClass(o).value);
    assert KindOf(CKA_PRIVATE).IsFlag();
  }

  lemma RawSecretAlike(ctx: Context, d: Derivation, base: Attrs, other: Attrs, base': Attrs, other': Attrs)
    requires ctx.token.Lawful() && TwinBases(ctx.token, base, other, base', other') && Healthy(base) && Healthy(other)
    ensures RawSecret(ctx, d, base, other) == RawSecret(Clear(ctx), d, base', other')
    ensures Material(ctx, other, true) == Material(Clear(ctx), other', true)
  {
    hide Hides, Healthy, Material, Token.Lawful;
    PrivacyPresent(base);
    PrivacyPresent(other);
    MaterialAlike(ctx, base, base', false);
    MaterialAlike(ctx, other, other', true);
  }

  lemma DeriveFromAlike(w: World, c: World, ctx: Context, caller: Caller, p: Plan, d: Derivation, es: Template, parity: byte -> byte,
                        id: Id, other: Id)
    requires ctx.token.Lawful() && ctx.session == caller.state && Sound(w) && Twin(ctx.token, w, c)
    requires p.isPrivate ==> ctx.session.LoggedIn()
    requires IsWord(p.objClass) && IsWord(p.keyType) && p.objClass == CKO_SECRET_KEY
    requires id in w.items && other in w.items && Class(w.items[id].attrs) == BaseClass(d)
    requires TwinBases(ctx.token, w.items[id].attrs, w.items[other].attrs, c.items[id].attrs, c.items[other].attrs)
    ensures TwinReply(ctx.token, DeriveFrom(w, ctx, caller, p, d, es, parity, id, other),
                                 DeriveFrom(c, Clear(ctx), caller, p, d, es, parity, id, other))
  {
    hide TwinItem, TwinReply, ReadWish, MakeKey, ContributeDerived, Contribution, Hides, Token.Lawful, Clear, Healthy, StoredClass;
    hide SoundHandles, DerivedLength, ConcatenatedLength, RawSecret, Material, Placed, TwinBases;
    RefusedAlike(ctx.token, w, c);
    var base, second, base', second' := w.items[id].attrs, w.items[other].attrs, c.items[id].attrs, c.items[other].attrs;
    RawSecretAlike(ctx, d, base, second, base', second');
    var raw := RawSecret(ctx, d, base, second);
    if raw.Some? { DerivedKeysAlike(w, c, ctx, caller, p, d, es, id, other, raw.value, parity); }
  }

  lemma DeriveAlike(w: World, c: World, ctx: Context, caller: Caller, h: Handle, d: Derivation, es: Template, parity: byte -> byte)
    requires ctx.token.Lawful() && ctx.session == caller.state && Sound(w) && Twin(ctx.token, w, c)
    ensures TwinReply(ctx.token, DeriveKey(w, ctx, caller, h, d, es, parity), DeriveKey(c, Clear(ctx), caller, h, d, es, parity))
  {
    hide Sound, TwinItem, TwinReply, ReadPlan, DeriveFrom, Hides, Token.Lawful, Clear, StoredClass, Flag, HaveRead, HaveWrite, IsPrivate, IsOnToken;
    RefusedAlike(ctx.token, w, c);
    FoundAlike(ctx.token, w, c, h);
    if d.ConcatKey? { FoundAlike(ctx.token, w, c, d.other); }
    var default := if d.Implicit() then DEFAULT_PLAN.(objClass := CKO_SECRET_KEY, keyType := CKK_GENERIC_SECRET) else DEFAULT_PLAN;
    var p := ReadPlan(es, d.Implicit(), default).plan;
    PlanWords(es, d.Implicit(), default);
    var id := Lookup(w, h);
    var other := if d.ConcatKey? then Lookup(w, d.other) else id;
    if id.Some? {
      var base, base' := w.items[id.value].attrs, c.items[id.value].attrs;
      SameFlags(ctx.token, IsPrivate(base), base, base');
      if other.Some? && p.objClass == CKO_SECRET_KEY && Class(base) == BaseClass(d) && HaveWrite(caller.state, p.onToken, p.isPrivate) == OK {
        if p.isPrivate { PrivateNeedsLogin(caller.state, p.onToken, p.isPrivate); }
        DeriveFromAlike(w, c, ctx, caller, p, d, es, parity, id.value, other.value);
      }
    }
  }

  lemma DerivedKeysAlike(w: World, c: World, ctx: Context, caller: Caller, p: Plan, d: Derivation, es: Template, id: Id, other: Id,
                         raw: Bytes, parity: byte -> byte)
    requires ctx.token.Lawful() && ctx.session == caller.state && Sound(w) && Twin(ctx.token, w, c)
    requires p.isPrivate ==> ctx.session.LoggedIn()
    requires IsWord(p.objClass) && IsWord(p.keyType) && p.objClass == CKO_SECRET_KEY
    requires id in w.items && other in w.items && Class(w.items[id].attrs) == BaseClass(d)
    requires TwinBases(ctx.token, w.items[id].attrs, w.items[other].attrs, c.items[id].attrs, c.items[other].attrs)
    ensures forall len: nat, check: bool ::
              TwinReply(ctx.token,
                MakeKey(w, ctx, caller, p, es, true, Derive, DerivedFrom({id, other}, d.Agreement?),
                        ContributeDerived(ctx, p, d, w.items[id].attrs, w.items[other].attrs, raw, len, check, parity)),
                MakeKey(c, Clear(ctx), caller, p, es, true, Derive, DerivedFrom({id, other}, d.Agreement?),
                        ContributeDerived(Clear(ctx), p, d, c.items[id].attrs, c.items[other].attrs, raw, len, check, parity)))
  {
    hide TwinItem, TwinReply, MakeKey, DerivedKey, Contribution, Hides, Token.Lawful, Clear, Healthy, StoredClass, SoundHandles, Placed, TwinBases;
    var base, second, base', second' := w.items[id].attrs, w.items[other].attrs, c.items[id].attrs, c.items[other].attrs;
    BaseMakesClaims(base);
    forall len: nat, check: bool
      ensures TwinReply(ctx.token,
                MakeKey(w, ctx, caller, p, es, true, Derive, DerivedFrom({id, other}, d.Agreement?), ContributeDerived(ctx, p, d, base, second, raw, len, check, parity)),
                MakeKey(c, Clear(ctx), caller, p, es, true, Derive, DerivedFrom({id, other}, d.Agreement?), ContributeDerived(Clear(ctx), p, d, base', second', raw, len, check, parity)))
    {
      var f := ContributeDerived(ctx, p, d, base, second, raw, len, check, parity);
      var g := ContributeDerived(Clear(ctx), p, d, base', second', raw, len, check, parity);
      forall o, o' | Hides(ctx.token, p.isPrivate, o, o')
        ensures f(o).Some? == g(o').Some? && (f(o).Some? ==> Hides(ctx.token, p.isPrivate, f(o).value, g(o').value))
      {
        DerivedAlike(ctx, p, d, base, second, base', second', raw, len, check, parity, o, o');
      }
      forall o | HealthyKey(o) && f(o).Some? ensures Contribution(o, f(o).value) {
        DerivedIsHealthy(ctx, p, d, base, second, raw, len, check, parity, o);
      }
      MakeKeyAlike(w, c, ctx, caller, p, es, true, Derive, DerivedFrom({id, other}, d.Agreement?), f, g);
    }
  }

  lemma CopyAlike(w: World, c: World, ctx: Context, caller: Caller, h: Handle, es: Template)
    requires ctx.token.Lawful() && ctx.session == caller.state && Sound(w) && Twin(ctx.token, w, c)
    ensures TwinReply(ctx.token, CopyObject(w, ctx, caller, h, es), CopyObject(c, Clear(ctx), caller, h, es))
  {
    hide Twin, TwinReply, DraftCopy, Enact, LastFlag, Hides, Token.Lawful, Clear, Healthy, StoredClass, SoundHandles, Placed;
    RefusedAlike(ctx.token, w, c);
    FoundAlike(ctx.token, w, c, h);
    var id := Lookup(w, h);
    if id.Some? {
      var o, o' := w.items[id.value].attrs, c.items[id.value].attrs;
      SameFlags(ctx.token, IsPrivate(o), o, o');
      CopyDraftAlike(ctx, caller, id.value, o, o', es);
      EnactAlike(ctx.token, w, c, caller, DraftCopy(ctx, caller, id.value, o, es), DraftCopy(Clear(ctx), caller, id.value, o', es),
                 LastFlag(es, CKA_TOKEN, IsOnToken(o)), LastFlag(es, CKA_PRIVATE, IsPrivate(o)));
    }
  }

  lemma SetAlike(w: World, c: World, ctx: Context, caller: Caller, h: Handle, es: Template)
    requires ctx.token.Lawful() && ctx.session == caller.state && Sound(w) && Twin(ctx.token, w, c)
    ensures TwinReply(ctx.token, SetAttributeValue(w, ctx, caller, h, es), SetAttributeValue(c, Clear(ctx), caller, h, es))
  {
    hide Twin, TwinReply, SaveTemplate, Initialised, SchemaOf, Hides, Token.Lawful, Clear, Healthy, StoredClass, SoundHandles, Placed;
    RefusedAlike(ctx.token, w, c);
    FoundAlike(ctx.token, w, c, h);
    var id := Lookup(w, h);
    if id.Some? {
      var it := w.items[id.value];
      var o, o' := it.attrs, c.items[id.value].attrs;
      SameFlags(ctx.token, IsPrivate(o), o, o');
      if HaveWrite(caller.state, IsOnToken(o), IsPrivate(o)) == OK && StoredClass(o).Some? {
        if IsPrivate(o) { PrivateNeedsLogin(caller.state, IsOnToken(o), IsPrivate(o)); }
        var k := StoredClass(o).value;
        var job := Job(ctx, SchemaOf(k), IsPrivate(o), Set);
        HidesHealthy(ctx.token, IsPrivate(o), o, o');
        Reinitialised(k, o);
        Reinitialised(k, o');
        SaveAlike(job, o, o', es, it.place.OnToken?);
        SetKeepsFlags(job, k, o, es, it.place.OnToken?);
        PutAlike(ctx.token, w, c, id.value, SaveTemplate(job, o, es, it.place.OnToken?).attrs,
                 SaveTemplate(ClearJob(job), o', es, it.place.OnToken?).attrs);
      }
    }
  }

  lemma PutAlike(token: Token, w: World, c: World, id: Id, o: Attrs, o': Attrs)
    requires Twin(token, w, c) && id in w.items
    requires Hides(token, IsPrivate(o), o, o')
    ensures forall rv :: TwinReply(token, Refuse(PutAttrs(w, id, o), rv), Refuse(PutAttrs(c, id, o'), rv))
  {
    hide Hides;
  }

  lemma DestroyAlike(token: Token, w: World, c: World, caller: Caller, h: Handle)
    requires Twin(token, w, c)
    ensures TwinReply(token, DestroyObject(w, caller, h), DestroyObject(c, caller, h))
  {
    hide Hides, TwinItem;
    FoundAlike(token, w, c, h);
    var id := Lookup(w, h);
    if id.Some? {
      var o, o' := w.items[id.value].attrs, c.items[id.value].attrs;
      SameFlags(token, IsPrivate(o), o, o');
      assert Flag(o, CKA_DESTROYABLE, true) == Flag(o', CKA_DESTROYABLE, true);
      hide Flag, IsPrivate, IsOnToken, HaveWrite;
    }
  }

  lemma RegisterAlike(token: Token, w: World, c: World, id: Id, isPrivate: bool, session: nat)
    requires Twin(token, w, c)
    ensures var r, r' := Register(w, id, isPrivate, session), Register(c, id, isPrivate, session);
            r.1 == r'.1 && Twin(token, r.0, r'.0) && r.0.items == w.items && r'.0.items == c.items
  {
    hide TwinItem;
  }

  lemma {:induction false} FindAlike(token: Token, w: World, c: World, caller: Caller, hits: seq<Id>)
    requires Twin(token, w, c)
    ensures TwinReply(token, FindObjects(w, caller, hits), FindObjects(c, caller, hits))
    ensures FindObjects(w, caller, hits).world.items == w.items && FindObjects(c, caller, hits).world.items == c.items
  {
    hide Hides, Register, Visible, IsPrivate, IsOnToken;
    if |hits| > 0 {
      var front, id := hits[..|hits| - 1], hits[|hits| - 1];
      FindAlike(token, w, c, caller, front);
      if id in w.items { FoundFlagsAlike(token, w, c, caller, id); }
      hide Twin, TwinItem;
      var r, r' := FindObjects(w, caller, front).world, FindObjects(c, caller, front).world;
      if id in w.items {
        var o := w.items[id].attrs;
        RegisterAlike(token, r, r', id, IsPrivate(o), if IsOnToken(o) then 0 else caller.session);
      }
    }
  }

  lemma FoundFlagsAlike(token: Token, w: World, c: World, caller: Caller, id: Id)
    requires Twin(token, w, c) && id in w.items
    ensures id in c.items
    ensures var o, o' := w.items[id].attrs, c.items[id].attrs;
            && IsPrivate(o) == IsPrivate(o') && IsOnToken(o) == IsOnToken(o') && Visible(caller.state, o) == Visible(caller.state, o')
  {
    hide Hides;
    assert TwinItem(token, w.items[id], c.items[id]);
    SameFlags(token, IsPrivate(w.items[id].attrs), w.items[id].attrs, c.items[id].attrs);
  }

  lemma LogoutAlike(token: Token, w: World, c: World)
    requires Twin(token, w, c)
    ensures TwinReply(token, Logout(w), Logout(c))
  {
    hide Hides;
  }

  lemma CloseAlike(token: Token, w: World, c: World, session: nat, last: bool)
    requires Twin(token, w, c)
    ensures TwinReply(token, CloseSession(w, session, last), CloseSession(c, session, last))
  {
    hide Hides;
  }

  // ----- steps and runs ---------------------------------------------------------------------------------------

  /** The step leaves nothing misstored. Only C_CreateObject can: the calls that make keys settle privacy
      before they give byte strings. */
  ghost predicate Clean(token: Token, s: Step) {
    s.call.CallCreate? ==> !Misstored(Context(token, s.caller.state), s.caller, s.call.es, Create)
  }

  lemma PrivacyFirstIsClean(token: Token, s: Step)
    requires s.call.CallCreate? ==> PrivacyFirst(s.call.es)
    ensures Clean(token, s)
  {
    hide Misstored, PrivacyFirst;
    if s.call.CallCreate? { PrivacyFirstIsSafe(Context(token, s.caller.state), s.caller, s.call.es, Create); }
  }

  lemma StepAlike(token: Token, w: World, c: World, s: Step)
    requires token.Lawful() && Sound(w) && Twin(token, w, c) && Clean(token, s)
    ensures TwinReply(token, Perform(token, w, s), Perform(ClearToken(token), c, s))
  {
    hide Sound, Twin, TwinReply, Token.Lawful, ClearToken, Misstored, DraftObject;
    var ctx := Context(token, s.caller.state);
    assert Clear(ctx) == Context(ClearToken(token), s.caller.state);
    match s.call
    case CallCreate(es) => CreateAlike(w, c, ctx, s.caller, es);
    case CallCopy(h, es) => CopyAlike(w, c, ctx, s.caller, h, es);
    case CallSet(h, es) => SetAlike(w, c, ctx, s.caller, h, es);
    case CallDestroy(h) => DestroyAlike(token, w, c, s.caller, h);
    case CallGenerate(keyType, es, random) => GenerateAlike(w, c, ctx, s.caller, keyType, es, random);
    case CallUnwrap(es, parts) => UnwrapAlike(w, c, ctx, s.caller, es, parts);
    case CallDerive(h, d, es, parity) => DeriveAlike(w, c, ctx, s.caller, h, d, es, parity);
    case CallFind(hits) => FindAlike(token, w, c, s.caller, hits);
    case CallLogout => LogoutAlike(token, w, c);
    case CallClose(session, last) => CloseAlike(token, w, c, session, last);
  }

  lemma CreateAlike(w: World, c: World, ctx: Context, caller: Caller, es: Template)
    requires ctx.token.Lawful() && ctx.session == caller.state && Twin(ctx.token, w, c)
    requires !Misstored(ctx, caller, es, Create)
    ensures TwinReply(ctx.token, CreateObject(w, ctx, caller, es, Create), CreateObject(c, Clear(ctx), caller, es, Create))
  {
    hide Twin, TwinReply, DraftObject, Enact, ReadPlan, Token.Lawful, Misstored;
    var p := ReadPlan(es, false, DEFAULT_PLAN).plan;
    CreateDraftAlike(ctx, caller, es, Create);
    EnactAlike(ctx.token, w, c, caller, DraftObject(ctx, caller, es, Create), DraftObject(Clear(ctx), caller, es, Create), p.onToken, p.isPrivate);
  }

  ghost predicate CleanRun(token: Token, steps: seq<Step>) { forall i :: 0 <= i < |steps| ==> Clean(token, steps[i]) }

  /** Encryption at rest is transparent over every run: with any lawful cipher the library gives
      the same return codes and handles as it would storing everything in clear, and in every state
      the same objects exist at the same places, each stored byte string being the encryption of its
      clear twin exactly if its object is private. */
  lemma {:induction false} TransparentRun(token: Token, steps: seq<Step>, i: nat)
    requires token.Lawful() && CleanRun(token, steps) && i <= |steps|
    ensures Twin(token, Trace(token, steps)[i], Trace(ClearToken(token), steps)[i])
    ensures i < |steps| ==>
              TwinReply(token, Perform(token, Trace(token, steps)[i], steps[i]),
                               Perform(ClearToken(token), Trace(ClearToken(token), steps)[i], steps[i]))
  {
    hide Sound, Twin, TwinReply, Token.Lawful, ClearToken, Clean, Perform;
    if i == 0 {
      EmptyTwin(token);
      TraceStart(token, steps);
      TraceStart(ClearToken(token), steps);
    } else {
      TransparentRun(token, steps, i - 1);
      TraceStep(token, steps, i - 1);
      TraceStep(ClearToken(token), steps, i - 1);
      ReplyTwin(token, Perform(token, Trace(token, steps)[i - 1], steps[i - 1]),
                Perform(ClearToken(token), Trace(ClearToken(token), steps)[i - 1], steps[i - 1]));
    }
    if i < |steps| {
      TraceLaw(token, steps);
      StepAlike(token, Trace(token, steps)[i], Trace(ClearToken(token), steps)[i], steps[i]);
    }
  }

  /** Every byte string is stored encrypted exactly if the flag of its object says private. */
  ghost predicate EncryptedAsFlagged(token: Token, w: World, c: World) {
    forall id :: id in w.items && id in c.items ==> Hides(token, IsPrivate(w.items[id].attrs), w.items[id].attrs, c.items[id].attrs)
  }

  /** Exactly the clean runs keep every byte string of every object, half-made ones included, stored as
      the object's own flag says, in every state. */
  lemma TransparentExactly(token: Token, steps: seq<Step>)
    requires token.Lawful()
    ensures CleanRun(token, steps) <==>
              forall i :: 0 <= i <= |steps| ==> EncryptedAsFlagged(token, Trace(token, steps)[i], Trace(ClearToken(token), steps)[i])
  {
    hide Hides, Token.Lawful, ClearToken, Perform, Clean;
    if CleanRun(token, steps) {
      forall i | 0 <= i <= |steps| ensures EncryptedAsFlagged(token, Trace(token, steps)[i], Trace(ClearToken(token), steps)[i]) {
        TransparentRun(token, steps, i);
        TwinsAsFlagged(token, Trace(token, steps)[i], Trace(ClearToken(token), steps)[i]);
      }
    } else {
      var i := FirstMisstored(token, steps);
    }
  }

  lemma TwinsAsFlagged(token: Token, w: World, c: World)
    requires Twin(token, w, c)
    ensures EncryptedAsFlagged(token, w, c)
  {
    hide Hides;
    forall id | id in w.items && id in c.items ensures Hides(token, IsPrivate(w.items[id].attrs), w.items[id].attrs, c.items[id].attrs) {
      assert TwinItem(token, w.items[id], c.items[id]);
    }
  }

  lemma {:induction false} FirstMisstored(token: Token, steps: seq<Step>) returns (i: nat)
    requires token.Lawful() && !CleanRun(token, steps)
    ensures i <= |steps| && !EncryptedAsFlagged(token, Trace(token, steps)[i], Trace(ClearToken(token), steps)[i])
  {
    hide EncryptedAsFlagged, Token.Lawful, ClearToken, Perform, Clean;
    var n := |steps| - 1;
    var front := steps[..n];
    if CleanRun(token, front) {
      assert forall i :: 0 <= i < n ==> front[i] == steps[i];
      TransparentRun(token, front, n);
      TraceStep(token, steps, n);
      TraceStep(ClearToken(token), steps, n);
      i := n + 1;
      MisstoredStep(token, Trace(token, front)[n], Trace(ClearToken(token), front)[n], steps[n]);
    } else {
      i := FirstMisstored(token, front);
    }
  }

  lemma MisstoredStep(token: Token, w: World, c: World, s: Step)
    requires token.Lawful() && Twin(token, w, c) && !Clean(token, s)
    ensures !EncryptedAsFlagged(token, Perform(token, w, s).world, Perform(ClearToken(token), c, s).world)
  {
    hide DraftObject, TwinItem, Hides, ClearToken, Token.Lawful, ReadPlan, Misstored;
    var ctx := Context(token, s.caller.state);
    assert Clear(ctx) == Context(ClearToken(token), s.caller.state);
    MisstoredIsHalfMade(ctx, s.caller, s.call.es, Create);
    StoredAsPlanned(ctx, s.caller, s.call.es, Create);
    HalfMadeStoredExactly(ctx, s.caller, s.call.es, Create);
    var d, e := DraftObject(ctx, s.caller, s.call.es, Create), DraftObject(Clear(ctx), s.caller, s.call.es, Create);
    var w', c' := Perform(token, w, s).world, Perform(ClearToken(token), c, s).world;
    assert w'.items == w.items[w.next := d.item] && c'.items == c.items[w.next := e.item];
    assert w.next in w'.items && w.next in c'.items;
    assert w'.items[w.next] == d.item && c'.items[w.next] == e.item;
    hide Perform;
  }

  lemma ReplyTwin(token: Token, r: Reply, s: Reply)
    requires TwinReply(token, r, s)
    ensures Twin(token, r.world, s.world)
  {
  }

  lemma EmptyTwin(token: Token)
    ensures Twin(token, EMPTY, EMPTY)
  {
  }

  lemma {:induction false} TraceStart(token: Token, steps: seq<Step>)
    ensures Trace(token, steps)[0] == EMPTY
  {
    if |steps| > 0 { TraceStart(token, steps[..|steps| - 1]); }
  }
}
