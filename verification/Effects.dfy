/** What one call does to objects that it does not name and to handles: who may change what, which handles
    appear, and what ending a login or a session takes away. Everything is stated in plain terms of the
    session, the flags of the objects and the registrations of the handles. */
module Effects {
  import opened Cryptoki
  import opened Attributes
  import opened ObjectClasses
  import opened AttributeLaws
  import opened Templates
  import opened ObjectStore
  import opened ObjectLaws
  import opened Runs
  import opened TransparentRuns

  // ----- who may do what ------------------------------------------------------------------------------

  predicate ReadOnly(state: SessionState) { state == RoPublic || state == RoUser }

  predicate UserIn(state: SessionState) { state == RoUser || state == RwUser }

  /** The reading matrix: private objects are for the user. */
  lemma ReadMatrix(state: SessionState, onToken: bool, isPrivate: bool)
    ensures HaveRead(state, onToken, isPrivate) == OK <==> (isPrivate ==> UserIn(state))
    ensures HaveRead(state, onToken, isPrivate) == USER_NOT_LOGGED_IN <==> isPrivate && !UserIn(state)
  {
  }

  /** The writing matrix: token objects need a read-write session, private objects the user; where both
      fail, the session is blamed. */
  lemma WriteMatrix(state: SessionState, onToken: bool, isPrivate: bool)
    ensures HaveWrite(state, onToken, isPrivate) == OK <==> (onToken ==> !ReadOnly(state)) && (isPrivate ==> UserIn(state))
    ensures HaveWrite(state, onToken, isPrivate) == SESSION_READ_ONLY <==> onToken && ReadOnly(state)
    ensures HaveWrite(state, onToken, isPrivate) == USER_NOT_LOGGED_IN <==>
              isPrivate && !UserIn(state) && !(onToken && ReadOnly(state))
  {
  }

  // ----- calls that make objects ----------------------------------------------------------------------------

  /** Every object there was is as it was. */
  ghost predicate Spares(w: World, w': World) { forall id :: id in w.items ==> id in w'.items && w'.items[id] == w.items[id] }

  /** The registration says of the object what its attributes say. */
  predicate Tells(r: Registration, it: Item) {
    r.isPrivate == IsPrivate(it.attrs) && (IsOnToken(it.attrs) ==> r.session == 0)
  }

  /** Handles keep what they are; new ones have new numbers, tell what they lead to, and lead to private
      objects only for the user. */
  ghost predicate Issues(w: World, w': World, caller: Caller) {
    && w.lastHandle <= w'.lastHandle
    && forall h :: h in w'.handles ==>
         || (h in w.handles && w'.handles[h] == w.handles[h])
         || (w.lastHandle < h <= w'.lastHandle && TellsRightly(w', h, caller))
  }

  ghost predicate TellsRightly(w: World, h: Handle, caller: Caller)
    requires h in w.handles
  {
    var r := w.handles[h];
    r.target in w.items ==>
      && Tells(r, w.items[r.target]) && (IsPrivate(w.items[r.target].attrs) ==> UserIn(caller.state))
      && (!IsOnToken(w.items[r.target].attrs) ==> r.session == caller.session)
  }

  /** What is new in a session belongs to the caller's. */
  ghost predicate Owns(w: World, w': World, caller: Caller) {
    forall id :: id in w'.items && id !in w.items && w'.items[id].place.InSession? ==> w'.items[id].place.owner == caller.session
  }

  ghost predicate Makes(w: World, w': World, caller: Caller) { Spares(w, w') && Issues(w, w', caller) && Owns(w, w', caller) }

  lemma NothingMade(w: World, caller: Caller)
    ensures Makes(w, w, caller)
  {
  }

  /** The draft has the two flags that it is registered with. */
  ghost predicate AsRegistered(d: Draft, caller: Caller, onToken: bool, isPrivate: bool) {
    && ((d.Complete? || d.HalfMade?) && d.item.place.InSession? ==> d.item.place.owner == caller.session)
    && (d.Complete? ==>
          && IsOnToken(d.item.attrs) == onToken && IsPrivate(d.item.attrs) == isPrivate
          && HaveWrite(caller.state, onToken, isPrivate) == OK)
  }

  lemma DraftedHere(ctx: Context, caller: Caller, es: Template, op: Op, source: Id, o: Attrs)
    ensures var d := DraftObject(ctx, caller, es, op); (d.Complete? || d.HalfMade?) && d.item.place.InSession? ==> d.item.place.owner == caller.session
    ensures var d := DraftCopy(ctx, caller, source, o, es); d.Complete? && d.item.place.InSession? ==> d.item.place.owner == caller.session
  {
    hide ReadPlan, HaveWrite, HaveRead, ClassOf, SaveTemplate, Initialised, SchemaOf, CheckValueLast, StoredClass, Transcript, LastFlag, IsPrivate, IsOnToken;
  }

  lemma EnactMakes(w: World, caller: Caller, d: Draft, onToken: bool, isPrivate: bool)
    requires Sound(w) && AsRegistered(d, caller, onToken, isPrivate)
    ensures Makes(w, Enact(w, caller, d, onToken, isPrivate).world, caller)
  {
    hide SoundItem, IsPrivate, IsOnToken;
    WriteMatrix(caller.state, onToken, isPrivate);
    hide HaveWrite;
    assert w.next !in w.items && w.next !in w.byObject;
  }

  lemma CreateMakes(w: World, ctx: Context, caller: Caller, es: Template, op: Op)
    requires Sound(w) && op != Copy && op != Set
    ensures Makes(w, CreateObject(w, ctx, caller, es, op).world, caller)
  {
    hide DraftObject, Enact, ReadPlan, Makes, Sound, IsPrivate, IsOnToken;
    var p := ReadPlan(es, false, DEFAULT_PLAN).plan;
    CreateDraftLaw(ctx, caller, es, op);
    DraftedHere(ctx, caller, es, op, 0, map[]);
    EnactMakes(w, caller, DraftObject(ctx, caller, es, op), p.onToken, p.isPrivate);
  }

  lemma CopyMakes(w: World, ctx: Context, caller: Caller, h: Handle, es: Template)
    requires Sound(w)
    ensures Makes(w, CopyObject(w, ctx, caller, h, es).world, caller)
  {
    hide DraftCopy, Enact, Makes, IsPrivate, IsOnToken, Healthy, StoredClass, LastFlag, SoundHandles, Placed;
    NothingMade(w, caller);
    var id := Lookup(w, h);
    if id.Some? {
      var o := w.items[id.value].attrs;
      CopyDraftLaw(ctx, caller, id.value, o, es);
      DraftedHere(ctx, caller, es, Create, id.value, o);
      EnactMakes(w, caller, DraftCopy(ctx, caller, id.value, o, es),
                 LastFlag(es, CKA_TOKEN, IsOnToken(o)), LastFlag(es, CKA_PRIVATE, IsPrivate(o)));
    }
  }

  // ----- calls that make keys ----------------------------------------------------------------------------------

  /** What is written to a new key leaves its two flags alone. */
  ghost predicate KeepsFlags(contribute: Attrs -> Option<Attrs>) {
    forall o :: contribute(o).Some? ==>
      SameAt(o, contribute(o).value, CKA_TOKEN) && SameAt(o, contribute(o).value, CKA_PRIVATE)
  }

  lemma MakeKeyMakes(w: World, ctx: Context, caller: Caller, p: Plan, es: Template, dropCheck: bool, op: Op, origin: Origin,
                     contribute: Attrs -> Option<Attrs>)
    requires Sound(w) && op != Copy && op != Set && KeepsFlags(contribute)
    ensures Makes(w, MakeKey(w, ctx, caller, p, es, dropCheck, op, origin, contribute).world, caller)
  {
    hide DraftObject, Enact, ReadPlan, Makes, Sound, Header, Rest, CompleteKey;
    NothingMade(w, caller);
    var full := Header(p) + Rest(es, dropCheck);
    var q := ReadPlan(full, false, DEFAULT_PLAN).plan;
    CreateMakes(w, ctx, caller, full, op);
    CreateDraftLaw(ctx, caller, full, op);
    var d := DraftObject(ctx, caller, full, op);
    if d.Complete? {
      EnactNew(w, caller, d, q.onToken, q.isPrivate);
      CompleteMakes(w, CreateObject(w, ctx, caller, full, op), d.item, caller, origin, contribute);
    } else {
      EnactFails(w, caller, d, q.onToken, q.isPrivate);
    }
  }

  lemma CompleteMakes(w: World, made: Reply, it: Item, caller: Caller, origin: Origin, contribute: Attrs -> Option<Attrs>)
    requires Sound(w) && Makes(w, made.world, caller) && KeepsFlags(contribute)
    requires made.world.items == w.items[w.next := it] && Lookup(made.world, made.handle) == Some(w.next)
    ensures Makes(w, CompleteKey(made, origin, contribute).world, caller)
  {
    hide SoundItem;
    var o := contribute(it.attrs);
    if o.Some? { SameFlagValues(it.attrs, o.value); }
    hide IsPrivate, IsOnToken, UserIn;
    assert w.next !in w.items;
  }

  lemma SameFlagValues(o: Attrs, o': Attrs)
    requires SameAt(o, o', CKA_TOKEN) && SameAt(o, o', CKA_PRIVATE)
    ensures IsOnToken(o) == IsOnToken(o') && IsPrivate(o) == IsPrivate(o')
  {
  }

  lemma StoreKeyKeepsFlags(ctx: Context, isPrivate: bool, o: Attrs, key: Bytes, kcv: Option<Bytes>)
    ensures var o' := StoreKey(ctx, isPrivate, o, key, kcv); SameAt(o, o', CKA_TOKEN) && SameAt(o, o', CKA_PRIVATE)
  {
    hide Store;
  }

  lemma ClaimsKeepFlags(mechanism: nat, d: Derivation, base: Attrs, other: Attrs, o: Attrs)
    ensures var o' := GeneratedClaims(mechanism, o); SameAt(o, o', CKA_TOKEN) && SameAt(o, o', CKA_PRIVATE)
    ensures var o' := DeriveClaims(d, base, other, o[CKA_LOCAL := BoolV(false)]); SameAt(o, o', CKA_TOKEN) && SameAt(o, o', CKA_PRIVATE)
  {
    hide Flag;
  }

  lemma GenerateMakes(w: World, ctx: Context, caller: Caller, keyType: nat, es: Template, random: nat -> Bytes)
    requires Sound(w)
    ensures Makes(w, GenerateKey(w, ctx, caller, keyType, es, random).world, caller)
  {
    hide Makes, Sound, ReadPlan, SecretWish, MakeKey, GeneratedClaims, StoreKey, KcvOf, HaveWrite, KeepsFlags;
    NothingMade(w, caller);
    var p, wish := ReadPlan(es, true, DEFAULT_PLAN.(objClass := CKO_SECRET_KEY, keyType := keyType)).plan, SecretWish(keyType, es);
    var f := ContributeGenerated(ctx, p.isPrivate, MechanismFor(keyType), keyType, random(wish.len), wish.checkValue);
    GeneratedKeepsFlags(ctx, p.isPrivate, MechanismFor(keyType), keyType, random(wish.len), wish.checkValue);
    MakeKeyMakes(w, ctx, caller, p, es, true, Generate, MadeBy(Generate), f);
  }

  lemma GeneratedKeepsFlags(ctx: Context, isPrivate: bool, mechanism: nat, keyType: nat, key: Bytes, checkValue: bool)
    ensures KeepsFlags(ContributeGenerated(ctx, isPrivate, mechanism, keyType, key, checkValue))
  {
    hide GeneratedClaims, StoreKey, KcvOf;
    var f := ContributeGenerated(ctx, isPrivate, mechanism, keyType, key, checkValue);
    forall o ensures f(o).Some? && SameAt(o, f(o).value, CKA_TOKEN) && SameAt(o, f(o).value, CKA_PRIVATE) {
      ClaimsKeepFlags(mechanism, Agreement([]), o, o, o);
      StoreKeyKeepsFlags(ctx, isPrivate, GeneratedClaims(mechanism, o), key, if checkValue then KcvOf(ctx.token, keyType, key) else None);
    }
  }

  lemma UnwrapMakes(w: World, ctx: Context, caller: Caller, es: Template, parts: Option<KeyParts>)
    requires Sound(w)
    ensures Makes(w, UnwrapKey(w, ctx, caller, es, parts).world, caller)
  {
    hide Makes, Sound, ReadPlan, MakeKey, ContributeUnwrapped, HaveWrite;
    NothingMade(w, caller);
    var p := ReadPlan(es, false, DEFAULT_PLAN).plan;
    UnwrappedKeepsFlags(ctx, p.isPrivate, parts);
    MakeKeyMakes(w, ctx, caller, p, es, false, Unwrap, MadeBy(Unwrap), ContributeUnwrapped(ctx, p.isPrivate, parts));
  }

  lemma UnwrappedKeepsFlags(ctx: Context, isPrivate: bool, parts: Option<KeyParts>)
    ensures KeepsFlags(ContributeUnwrapped(ctx, isPrivate, parts))
  {
    hide Store;
    if parts.Some? { assert CKA_TOKEN !in parts.value && CKA_PRIVATE !in parts.value; }
  }

  lemma DeriveMakes(w: World, ctx: Context, caller: Caller, h: Handle, d: Derivation, es: Template, parity: byte -> byte)
    requires Sound(w)
    ensures Makes(w, DeriveKey(w, ctx, caller, h, d, es, parity).world, caller)
  {
    hide Makes, Sound, ReadPlan, DeriveFrom, HaveWrite, HaveRead, Flag, IsPrivate, IsOnToken;
    NothingMade(w, caller);
    var default := if d.Implicit() then DEFAULT_PLAN.(objClass := CKO_SECRET_KEY, keyType := CKK_GENERIC_SECRET) else DEFAULT_PLAN;
    var p := ReadPlan(es, d.Implicit(), default).plan;
    var id := Lookup(w, h);
    var other := if d.ConcatKey? then Lookup(w, d.other) else id;
    if id.Some? && other.Some? { DeriveFromMakes(w, ctx, caller, p, d, es, parity, id.value, other.value); }
  }

  lemma DeriveFromMakes(w: World, ctx: Context, caller: Caller, p: Plan, d: Derivation, es: Template, parity: byte -> byte, id: Id, other: Id)
    requires Sound(w) && id in w.items && other in w.items
    ensures Makes(w, DeriveFrom(w, ctx, caller, p, d, es, parity, id, other).world, caller)
  {
    hide Makes, Sound, ReadWish, DerivedLength, ConcatenatedLength, RawSecret, Material, MakeKey, ContributeDerived, KeepsFlags;
    NothingMade(w, caller);
    var base, second := w.items[id].attrs, w.items[other].attrs;
    var raw := RawSecret(ctx, d, base, second);
    if raw.Some? {
      forall len: nat, check: bool
        ensures Makes(w, MakeKey(w, ctx, caller, p, es, true, Derive, DerivedFrom({id, other}, d.Agreement?),
                                 ContributeDerived(ctx, p, d, base, second, raw.value, len, check, parity)).world, caller)
      {
        DerivedKeepsFlags(ctx, p, d, base, second, raw.value, len, check, parity);
        MakeKeyMakes(w, ctx, caller, p, es, true, Derive, DerivedFrom({id, other}, d.Agreement?),
                     ContributeDerived(ctx, p, d, base, second, raw.value, len, check, parity));
      }
    }
  }

  lemma DerivedKeepsFlags(ctx: Context, p: Plan, d: Derivation, base: Attrs, other: Attrs, raw: Bytes, len: nat, check: bool, parity: byte -> byte)
    ensures KeepsFlags(ContributeDerived(ctx, p, d, base, other, raw, len, check, parity))
  {
    hide DeriveClaims, StoreKey, KcvOf, FixParity, Cut;
    if len <= |raw| {
      var key := FixParity(parity, p.keyType, Cut(d, raw, len));
      var kcv := KcvOf(ctx.token, p.keyType, if d.Agreement? then raw else key);
      var f := ContributeDerived(ctx, p, d, base, other, raw, len, check, parity);
      forall o | f(o).Some? ensures SameAt(o, f(o).value, CKA_TOKEN) && SameAt(o, f(o).value, CKA_PRIVATE) {
        ClaimsKeepFlags(0, d, base, other, o);
        StoreKeyKeepsFlags(ctx, p.isPrivate, DeriveClaims(d, base, other, o[CKA_LOCAL := BoolV(false)]), key, if check then kcv else None);
      }
    }
  }

  // ----- searching ------------------------------------------------------------------------------------------------

  lemma {:induction false} FindMakes(w: World, caller: Caller, hits: seq<Id>)
    requires Sound(w)
    ensures Makes(w, FindObjects(w, caller, hits).world, caller)
    ensures FindObjects(w, caller, hits).world.items == w.items
  {
    hide SoundItem, IsPrivate, IsOnToken;
    NothingMade(w, caller);
    if |hits| > 0 {
      FindMakes(w, caller, hits[..|hits| - 1]);
      assert forall o :: Visible(caller.state, o) && IsPrivate(o) ==> UserIn(caller.state);
      hide Visible, UserIn;
    }
  }

  // ----- every call -------------------------------------------------------------------------------------------------

  /** The call changes the object or takes it away. */
  ghost predicate Touched(w: World, w': World, id: Id) { id in w.items && !(id in w'.items && w'.items[id] == w.items[id]) }

  predicate Ending(c: Call) { c.CallLogout? || c.CallClose? }

  lemma SetEffect(w: World, ctx: Context, caller: Caller, h: Handle, es: Template)
    requires Sound(w)
    ensures var w' := SetAttributeValue(w, ctx, caller, h, es).world;
            && w'.handles == w.handles && w'.lastHandle == w.lastHandle && Owns(w, w', caller)
            && forall id :: Touched(w, w', id) ==>
                 HaveWrite(caller.state, IsOnToken(w.items[id].attrs), IsPrivate(w.items[id].attrs)) == OK
  {
    hide SaveTemplate, Initialised, SchemaOf, StoredClass, Modifiable, HaveWrite, IsPrivate, IsOnToken, SoundItem;
  }

  lemma DestroyEffect(w: World, caller: Caller, h: Handle)
    requires Sound(w)
    ensures var w' := DestroyObject(w, caller, h).world;
            && Issues(w, w', caller) && Owns(w, w', caller)
            && forall id :: Touched(w, w', id) ==>
                 HaveWrite(caller.state, IsOnToken(w.items[id].attrs), IsPrivate(w.items[id].attrs)) == OK
  {
    hide HaveWrite, IsPrivate, IsOnToken, SoundItem;
  }

  lemma MadeTouchesNothing(w: World, w': World, caller: Caller)
    requires Makes(w, w', caller)
    ensures Issues(w, w', caller) && Owns(w, w', caller) && forall id :: !Touched(w, w', id)
  {
  }

  /** What any call but a logout or the end of a session does: it touches only objects that its caller may
      write, issues handles rightly, and makes session objects in its own session. */
  lemma StepEffect(token: Token, w: World, s: Step)
    requires Sound(w) && !Ending(s.call)
    ensures var w' := Perform(token, w, s).world;
            && Issues(w, w', s.caller) && Owns(w, w', s.caller)
            && forall id :: Touched(w, w', id) ==> MayHold(s.caller.state, w.items[id].attrs)
  {
    hide Sound, Makes, HaveWrite, IsPrivate, IsOnToken, Issues, MayHold;
    var ctx, w' := Context(token, s.caller.state), Perform(token, w, s).world;
    if s.call.CallSet? {
      SetEffect(w, ctx, s.caller, s.call.h, s.call.es);
      SameHandlesIssued(w, w', s.caller);
    } else if s.call.CallDestroy? {
      DestroyEffect(w, s.caller, s.call.h);
    } else {
      MakingStep(token, w, s);
      MadeTouchesNothing(w, w', s.caller);
    }
    forall id | Touched(w, w', id) ensures MayHold(s.caller.state, w.items[id].attrs) { AuthorityIs(s.caller, w.items[id].attrs); }
  }

  lemma SameHandlesIssued(w: World, w': World, caller: Caller)
    requires w'.handles == w.handles && w'.lastHandle == w.lastHandle
    ensures Issues(w, w', caller)
  {
  }

  lemma MakingStep(token: Token, w: World, s: Step)
    requires Sound(w) && !Ending(s.call) && !s.call.CallSet? && !s.call.CallDestroy?
    ensures Makes(w, Perform(token, w, s).world, s.caller)
  {
    hide Sound, Makes;
    var ctx := Context(token, s.caller.state);
    match s.call
    case CallCreate(es) => CreateMakes(w, ctx, s.caller, es, Create);
    case CallCopy(h, es) => CopyMakes(w, ctx, s.caller, h, es);
    case CallGenerate(keyType, es, random) => GenerateMakes(w, ctx, s.caller, keyType, es, random);
    case CallUnwrap(es, parts) => UnwrapMakes(w, ctx, s.caller, es, parts);
    case CallDerive(h, d, es, parity) => DeriveMakes(w, ctx, s.caller, h, d, es, parity);
    case CallFind(hits) => FindMakes(w, s.caller, hits);
    case CallSet(_, _) =>
    case CallDestroy(_) =>
    case CallLogout =>
    case CallClose(_, _) =>
  }
}
