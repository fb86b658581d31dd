/** Wrapping and unwrapping keys: the symmetric mechanisms with their paddings, and CKM_RSA_AES_KEY_WRAP,
    which goes through a temporary key in the object store. */
module KeyWrap {
  import opened Cryptoki
  import opened Attributes
  import opened ObjectClasses
  import opened Templates
  import opened Padding
  import opened ObjectStore
  import opened ObjectLaws
  import opened Runs
  import opened CheckValues

  // ----- symmetric mechanisms ------------------------------------------------------------------

  datatype SymMechanism = AesKeyWrap | AesKeyWrapPad | AesCbc(iv: Bytes) | AesCbcPad(iv: Bytes) | Des3CbcPad(iv: Bytes) {
    function BlockSize(): nat { if AesCbc? || AesCbcPad? then 16 else 8 }
  }

  /** What wrapping needs from the crypto library; the first argument is the key. */
  datatype Kit = Kit(
    cbc: (Bytes, Bytes, Bytes) -> Bytes, cbcInverse: (Bytes, Bytes, Bytes) -> Bytes,
    keyWrap: (Bytes, Bytes) -> Option<Bytes>, keyUnwrap: (Bytes, Bytes) -> Option<Bytes>,
    keyWrapPad: (Bytes, Bytes) -> Option<Bytes>, keyUnwrapPad: (Bytes, Bytes) -> Option<Bytes>)
  {
    ghost predicate Lawful() {
      && (forall k: Bytes, iv: Bytes, x: Bytes {:trigger cbc(k, iv, x)} :: |cbc(k, iv, x)| == |x| && cbcInverse(k, iv, cbc(k, iv, x)) == x)
      && (forall k: Bytes, x: Bytes {:trigger keyWrap(k, x)} :: keyWrap(k, x).Some? ==> keyUnwrap(k, keyWrap(k, x).value) == Some(x))
      && (forall k: Bytes, x: Bytes {:trigger keyWrapPad(k, x)} :: keyWrapPad(k, x).Some? ==> keyUnwrapPad(k, keyWrapPad(k, x).value) == Some(x))
    }
  }

  datatype Wrapped = Wrapped(rv: Rv, bytes: Bytes)

  function OrError(x: Option<Bytes>): Wrapped {
    match x case None => Wrapped(GENERAL_ERROR, []) case Some(b) => Wrapped(OK, b)
  }

  function WrapKeySym(kit: Kit, mech: SymMechanism, key: Bytes, keydata: Bytes): Wrapped {
    match mech
    case AesKeyWrap => if |ZeroExtended(keydata)| < 16 then Wrapped(KEY_SIZE_RANGE, []) else OrError(kit.keyWrap(key, ZeroExtended(keydata)))
    case AesKeyWrapPad => OrError(kit.keyWrapPad(key, keydata))
    case AesCbc(iv) => if |keydata| % 16 != 0 then Wrapped(GENERAL_ERROR, []) else Wrapped(OK, kit.cbc(key, iv, keydata))
    case AesCbcPad(iv) => Wrapped(OK, kit.cbc(key, iv, Padded(keydata, 16)))
    case Des3CbcPad(iv) => Wrapped(OK, kit.cbc(key, iv, Padded(keydata, 8)))
  }

  function UnwrapKeySym(kit: Kit, mech: SymMechanism, key: Bytes, wrapped: Bytes): Wrapped {
    match mech
    case AesKeyWrap => OrError(kit.keyUnwrap(key, wrapped))
    case AesKeyWrapPad => OrError(kit.keyUnwrapPad(key, wrapped))
    case AesCbc(iv) => if |wrapped| % 16 != 0 then Wrapped(GENERAL_ERROR, []) else Wrapped(OK, kit.cbcInverse(key, iv, wrapped))
    case AesCbcPad(iv) =>
      if |wrapped| % 16 != 0 then Wrapped(GENERAL_ERROR, []) else OrError(Unpadded(kit.cbcInverse(key, iv, wrapped), 16))
    case Des3CbcPad(iv) =>
      if |wrapped| % 8 != 0 then Wrapped(GENERAL_ERROR, []) else OrError(Unpadded(kit.cbcInverse(key, iv, wrapped), 8))
  }

  /** What comes back: CKM_AES_KEY_WRAP forgets how long the key was, the others do not. */
  function Recovered(mech: SymMechanism, keydata: Bytes): Bytes { if mech.AesKeyWrap? then ZeroExtended(keydata) else keydata }

  /** Unwrapping undoes wrapping. */
  lemma WrapRoundTrip(kit: Kit, mech: SymMechanism, key: Bytes, keydata: Bytes)
    requires kit.Lawful() && WrapKeySym(kit, mech, key, keydata).rv == OK
    ensures UnwrapKeySym(kit, mech, key, WrapKeySym(kit, mech, key, keydata).bytes) == Wrapped(OK, Recovered(mech, keydata))
  {
    if mech.AesCbcPad? || mech.Des3CbcPad? {
      var bs := mech.BlockSize();
      PaddedAligned(keydata, bs);
      UnpaddedExactly(Padded(keydata, bs), bs, keydata);
    }
  }

  /** CKM_AES_KEY_WRAP brings back the very key exactly if its length is a multiple of eight. */
  lemma KeyWrapKeepsLength(kit: Kit, key: Bytes, keydata: Bytes)
    requires kit.Lawful() && WrapKeySym(kit, AesKeyWrap, key, keydata).rv == OK
    ensures UnwrapKeySym(kit, AesKeyWrap, key, WrapKeySym(kit, AesKeyWrap, key, keydata).bytes) == Wrapped(OK, keydata)
       <==> |keydata| % AES_WRAP_BLOCK == 0
    ensures |keydata| > AES_WRAP_BLOCK
  {
    WrapRoundTrip(kit, AesKeyWrap, key, keydata);
  }

  /** When wrapping is refused: CKM_AES_KEY_WRAP needs more than one block of eight bytes, and says so with a code
      of its own; CKM_AES_CBC needs whole blocks; the padded mechanisms take anything that the cipher takes. */
  lemma WrapsExactly(kit: Kit, mech: SymMechanism, key: Bytes, keydata: Bytes)
    ensures var r := WrapKeySym(kit, mech, key, keydata);
            && (r.rv == KEY_SIZE_RANGE <==> mech.AesKeyWrap? && |keydata| <= 8)
            && (mech.AesKeyWrap? && |keydata| > 8 ==> (r.rv == OK <==> kit.keyWrap(key, ZeroExtended(keydata)).Some?))
            && (mech.AesKeyWrapPad? ==> (r.rv == OK <==> kit.keyWrapPad(key, keydata).Some?))
            && (mech.AesCbc? ==> (r.rv == OK <==> |keydata| % 16 == 0))
            && (mech.AesCbcPad? || mech.Des3CbcPad? ==> r.rv == OK)
            && r.rv in {OK, GENERAL_ERROR, KEY_SIZE_RANGE}
  {
  }

  // ----- the temporary key ------------------------------------------------------------------------

  const EMPH_PLAN: Plan := Plan(CKO_SECRET_KEY, CKK_AES, CKC_X_509, false, true)

  /** The template of the temporary key that wrapping generates. */
  function WrapTemplate(keyLen: nat): Template {
    [Entry(CKA_CLASS, Memory(ToWord(CKO_SECRET_KEY, SIZEOF_ULONG))), Entry(CKA_KEY_TYPE, Memory(ToWord(CKK_AES, SIZEOF_ULONG))),
     Entry(CKA_TOKEN, Memory([0])), Entry(CKA_PRIVATE, Memory([1])), Entry(CKA_WRAP, Memory([1])),
     Entry(CKA_EXTRACTABLE, Memory([1])), Entry(CKA_VALUE_LEN, Memory(ToWord(keyLen, SIZEOF_ULONG)))]
  }

  /** The template of the temporary key that unwrapping creates. */
  function UnwrapTemplate(): Template {
    [Entry(CKA_CLASS, Memory(ToWord(CKO_SECRET_KEY, SIZEOF_ULONG))), Entry(CKA_KEY_TYPE, Memory(ToWord(CKK_AES, SIZEOF_ULONG))),
     Entry(CKA_TOKEN, Memory([0])), Entry(CKA_PRIVATE, Memory([1])), Entry(CKA_UNWRAP, Memory([1]))]
  }

  datatype WrapReply = WrapReply(world: World, rv: Rv, bytes: Bytes)

  /** Removes a temporary key again. */
  function Discard(w: World, h: Handle, id: Id): World { Remove(Forget(w, h), id) }

  /** Wraps `keydata` under a fresh AES key and that key under an RSA key; `wrapAsym` is the latter. */
  function WrapRsaAes(w: World, ctx: Context, caller: Caller, kit: Kit, wrapAsym: Bytes -> Wrapped, aesBits: nat,
                      random: nat -> Bytes, keydata: Bytes): WrapReply {
    var made := GenerateSecret(w, ctx, caller, EMPH_PLAN, WrapTemplate(aesBits / 8), random);
    if made.rv != OK then WrapReply(made.world, made.rv, [])
    else match Lookup(made.world, made.handle)
      case None => WrapReply(Forget(made.world, made.handle), FUNCTION_FAILED, [])
      case Some(id) =>
        var gone := Discard(made.world, made.handle, id);
        match Material(ctx, made.world.items[id].attrs, true)
        case None => WrapReply(gone, GENERAL_ERROR, [])
        case Some(key) =>
          var second := WrapKeySym(kit, AesKeyWrapPad, key, keydata);
          if second.rv != OK then WrapReply(gone, second.rv, [])
          else
            var first := wrapAsym(key);
            if first.rv != OK then WrapReply(gone, first.rv, []) else WrapReply(gone, OK, first.bytes + second.bytes)
  }

  /** The bytes of a key written to an object and read back from it. */
  function WrittenKey(ctx: Context, o: Attrs, key: Bytes): Wrapped {
    match ContributeUnwrapped(ctx, true, Some(map[CKA_VALUE := key]))(o)
    case None => Wrapped(FUNCTION_FAILED, [])
    case Some(o') => OrError(Material(ctx, o', true))
  }

  /** Unwraps the first part, as long as the modulus, to a temporary AES key, and the rest with it. */
  function UnwrapRsaAes(w: World, ctx: Context, caller: Caller, kit: Kit, unwrapAsym: Bytes -> Wrapped, modulusLen: nat, wrapped: Bytes): WrapReply
    requires modulusLen <= |wrapped|
  {
    var first := unwrapAsym(wrapped[..modulusLen]);
    if first.rv != OK then WrapReply(w, first.rv, [])
    else
      var made := CreateObject(w, ctx, caller, UnwrapTemplate(), Unwrap);
      if made.rv != OK then WrapReply(made.world, made.rv, [])
      else match Lookup(made.world, made.handle)
        case None => WrapReply(Forget(made.world, made.handle), FUNCTION_FAILED, [])
        case Some(id) =>
          var gone := Discard(made.world, made.handle, id);
          var key := WrittenKey(ctx, made.world.items[id].attrs, first.bytes);
          if key.rv != OK then WrapReply(gone, key.rv, [])
          else
            var second := UnwrapKeySym(kit, AesKeyWrapPad, key.bytes, wrapped[modulusLen..]);
            WrapReply(gone, second.rv, second.bytes)
  }

  // ----- the temporary key is always accepted ----------------------------------------------------------

  /** The footnotes that matter for the temporary key, over a part of the table of AES keys. */
  predicate AesExtras(ds: seq<Decl>) {
    forall i :: 0 <= i < |ds| ==>
      && (Ck4 in ds[i].extra ==> ds[i].t == CKA_VALUE)
      && (Ck6 in ds[i].extra ==> ds[i].t == CKA_VALUE || ds[i].t == CKA_VALUE_LEN || ds[i].t == CKA_LOCAL)
      && Ck3 !in ds[i].extra && ds[i].t != CKA_MODULUS_BITS && ds[i].t != CKA_PRIME_BITS
      && (Ck5 in ds[i].extra ==> ds[i].t == CKA_KEY_TYPE)
  }

  lemma AesTable()
    ensures AesExtras(Table(SecretKey(CKK_AES)))
  {
    assert AesExtras(ANY_OBJECT) && AesExtras(ANY_KEY) && AesExtras(SECRET_KEY) && AesExtras(SecretKeyPart(CKK_AES));
  }

  /** The attributes of a temporary key. */
  predicate IsEmphAttr(t: AttrType) {
    || t == CKA_CLASS || t == CKA_TOKEN || t == CKA_PRIVATE || t == CKA_KEY_TYPE || t == CKA_WRAP || t == CKA_UNWRAP
    || t == CKA_EXTRACTABLE || t == CKA_VALUE_LEN
  }

  lemma AesDeclares(t: AttrType)
    requires IsEmphAttr(t)
    ensures Declares(Table(SecretKey(CKK_AES)), t)
  {
    var c := SecretKey(CKK_AES);
    InTable(c, CKA_CLASS, 0);
    InTable(c, CKA_TOKEN, 1);
    InTable(c, CKA_PRIVATE, 2);
    InTable(c, CKA_KEY_TYPE, 7);
    InTable(c, CKA_WRAP, 20);
    InTable(c, CKA_UNWRAP, 21);
    InTable(c, CKA_EXTRACTABLE, 22);
    InTable(c, CKA_VALUE_LEN, 31);
  }

  lemma AesSpec(t: AttrType)
    ensures var schema := SchemaOf(SecretKey(CKK_AES));
            && (IsEmphAttr(t) ==> t in schema)
            && (t in schema ==>
                  && schema[t].size == BaseSize(t)
                  && (IsEmphAttr(t) ==> !schema[t].Prohibited(Generate) && (t != CKA_VALUE_LEN ==> !schema[t].Prohibited(Unwrap)))
                  && (schema[t].Mandatory(Generate) ==> t == CKA_VALUE_LEN)
                  && (schema[t].Mandatory(Unwrap) ==> t == CKA_KEY_TYPE))
  {
    hide Table;
    AesTable();
    if IsEmphAttr(t) { AesDeclares(t); }
    SchemaSays(Table(SecretKey(CKK_AES)), t);
    EmphChecks(t);
  }

  lemma EmphChecks(t: AttrType)
    ensures IsEmphAttr(t) ==> Ck4 !in BaseChecks(t) && Ck6 !in BaseChecks(t)
    ensures Ck3 in BaseChecks(t) ==> t == CKA_VALUE_LEN || t == CKA_MODULUS_BITS || t == CKA_PRIME_BITS
    ensures Ck5 !in BaseChecks(t)
  {
  }

  predicate IsAesKey(o: Attrs) { Class(o) == CKO_SECRET_KEY && KeyType(o) == CKK_AES }

  /** An entry that every AES key accepts. */
  ghost predicate Harmless(job: Job, e: Entry) {
    forall o :: IsAesKey(o) ==> UpdateEntry(job, o, e).rv == OK
  }

  lemma HarmlessFlag(job: Job, t: AttrType, b: byte)
    requires job.schema == SchemaOf(SecretKey(CKK_AES)) && (job.op.Generate? || job.op.Unwrap?)
    requires t == CKA_TOKEN || t == CKA_PRIVATE || t == CKA_WRAP || t == CKA_UNWRAP || t == CKA_EXTRACTABLE
    ensures Harmless(job, Entry(t, Memory([b])))
  {
    hide SchemaOf;
    AesSpec(t);
    assert BaseSize(t) == Some(SIZEOF_BBOOL);
  }

  lemma HarmlessNumber(job: Job, t: AttrType, n: nat)
    requires job.schema == SchemaOf(SecretKey(CKK_AES)) && (job.op.Generate? || job.op.Unwrap?) && IsWord(n)
    requires (t == CKA_CLASS && n == CKO_SECRET_KEY) || (t == CKA_KEY_TYPE && n == CKK_AES) || (t == CKA_VALUE_LEN && job.op.Generate?)
    ensures Harmless(job, Entry(t, Memory(ToWord(n, SIZEOF_ULONG))))
  {
    hide SchemaOf, ToWord, FromWord;
    AesSpec(t);
    assert BaseSize(t) == Some(SIZEOF_ULONG);
    ToWordFromWord(n, SIZEOF_ULONG);
  }

  lemma {:induction false} HarmlessApply(job: Job, o: Attrs, es: Template)
    requires IsAesKey(o) && forall i :: 0 <= i < |es| ==> Harmless(job, es[i])
    ensures ApplyEntries(job, o, es).rv == OK
    decreases |es|
  {
    hide Write, Refusal;
    if |es| > 0 {
      assert Harmless(job, es[0]);
      if es[0].t in job.schema { WriteKeepsClass(job.ctx, es[0].t, job.isPrivate, o, es[0].p, job.op); }
      HarmlessApply(job, UpdateEntry(job, o, es[0]).attrs, es[1..]);
    }
  }

  lemma NewAesKey()
    ensures IsAesKey(Initialised(SecretKey(CKK_AES), map[])) && ClassOf(CKO_SECRET_KEY, CKK_AES, CKC_X_509) == Some(SecretKey(CKK_AES))
  {
    hide Table;
    InitialisedAt(SecretKey(CKK_AES), map[], CKA_CLASS);
    InitialisedAt(SecretKey(CKK_AES), map[], CKA_KEY_TYPE);
  }

  /** A template of harmless entries that names what is mandatory never leaves a half-made key. */
  lemma NeverHalfMade(ctx: Context, caller: Caller, full: Template, op: Op)
    requires (op.Generate? || op.Unwrap?) && NamesNoCheck(full)
    requires var q := ReadPlan(full, false, DEFAULT_PLAN); q.rv == OK && q.plan == EMPH_PLAN
    requires forall i :: 0 <= i < |full| ==> Harmless(Job(ctx, SchemaOf(SecretKey(CKK_AES)), true, op), full[i])
    requires Named(full, if op.Generate? then CKA_VALUE_LEN else CKA_KEY_TYPE)
    ensures !DraftObject(ctx, caller, full, op).HalfMade?
    ensures |full| <= MAX_ATTRIBS && HaveWrite(caller.state, false, true) == OK ==> DraftObject(ctx, caller, full, op).Complete?
  {
    hide SchemaOf, Initialised, ReadPlan, CheckValueLast, ApplyEntries, ClassOf, Harmless, IsAesKey;
    var c := SecretKey(CKK_AES);
    var job := Job(ctx, SchemaOf(c), true, op);
    NewAesKey();
    AlreadyOrdered(full);
    HarmlessApply(job, Initialised(c, map[]), full);
    assert AllMandatoryNamed(job, full) by {
      forall t | t in job.schema && job.schema[t].Mandatory(op) ensures Named(full, t) { AesSpec(t); }
    }
  }

  // ----- the templates of the temporary key ---------------------------------------------------------------

  lemma {:induction false} LastSizedAt(es: Template, i: nat, t: AttrType, size: nat)
    requires i < |es| && es[i].t == t && es[i].p.Length() == size
    requires forall k :: i < k < |es| ==> es[k].t != t
    ensures LastSized(es, t, size) == Some(es[i].p)
    decreases |es|
  {
    if i < |es| - 1 { LastSizedAt(es[..|es| - 1], i, t, size); }
  }

  lemma {:induction false} NeverNamed(es: Template, t: AttrType, size: nat)
    requires !Named(es, t)
    ensures LastSized(es, t, size) == None
  {
    if |es| > 0 {
      assert es[|es| - 1].t != t;
      assert forall i :: 0 <= i < |es| - 1 ==> es[..|es| - 1][i] == es[i];
      NeverNamed(es[..|es| - 1], t, size);
    }
  }

  lemma UnwrapTemplatePlan()
    ensures var q := ReadPlan(UnwrapTemplate(), false, DEFAULT_PLAN); q.rv == OK && q.plan == EMPH_PLAN
  {
    hide ToWord, FromWord, LastSized;
    var es := UnwrapTemplate();
    ToWordFromWord(CKO_SECRET_KEY, SIZEOF_ULONG);
    ToWordFromWord(CKK_AES, SIZEOF_ULONG);
    LastSizedAt(es, 0, CKA_CLASS, SIZEOF_ULONG);
    LastSizedAt(es, 1, CKA_KEY_TYPE, SIZEOF_ULONG);
    LastSizedAt(es, 2, CKA_TOKEN, SIZEOF_BBOOL);
    LastSizedAt(es, 3, CKA_PRIVATE, SIZEOF_BBOOL);
    NeverNamed(es, CKA_CERTIFICATE_TYPE, SIZEOF_ULONG);
  }

  lemma UnwrapTemplateHarmless(ctx: Context)
    ensures var es := UnwrapTemplate();
            && NamesNoCheck(es) && Named(es, CKA_KEY_TYPE)
            && forall i :: 0 <= i < |es| ==> Harmless(Job(ctx, SchemaOf(SecretKey(CKK_AES)), true, Unwrap), es[i])
  {
    hide SchemaOf, ToWord, FromWord, Harmless;
    var job := Job(ctx, SchemaOf(SecretKey(CKK_AES)), true, Unwrap);
    HarmlessNumber(job, CKA_CLASS, CKO_SECRET_KEY);
    HarmlessNumber(job, CKA_KEY_TYPE, CKK_AES);
    HarmlessFlag(job, CKA_TOKEN, 0);
    HarmlessFlag(job, CKA_PRIVATE, 1);
    HarmlessFlag(job, CKA_UNWRAP, 1);
    assert UnwrapTemplate()[1].t == CKA_KEY_TYPE;
  }

  /** What key generation adds to its own four entries. */
  function WrapRest(keyLen: nat): Template {
    [Entry(CKA_WRAP, Memory([1])), Entry(CKA_EXTRACTABLE, Memory([1])), Entry(CKA_VALUE_LEN, Memory(ToWord(keyLen, SIZEOF_ULONG)))]
  }

  lemma WrapTemplateRest(keyLen: nat)
    ensures Rest(WrapTemplate(keyLen), true) == WrapRest(keyLen)
  {
    hide ToWord;
    var es := WrapTemplate(keyLen);
    assert es[..6][..5] == es[..5] && es[..5][..4] == es[..4] && es[..4][..3] == es[..3] && es[..3][..2] == es[..2] && es[..2][..1] == es[..1];
    assert Rest(es[..1], true) == [];
    assert Rest(es[..2], true) == [];
    assert Rest(es[..3], true) == [];
    assert Rest(es[..4], true) == [];
    assert Rest(es[..5], true) == [es[4]];
    assert Rest(es[..6], true) == [es[4], es[5]];
  }

  lemma WrapTemplateWish(keyLen: nat)
    requires IsWord(keyLen)
    ensures ReadWish(WrapTemplate(keyLen), false) == Wish(OK, keyLen, true)
  {
    hide ToWord, FromWord;
    var es := WrapTemplate(keyLen);
    ToWordFromWord(keyLen, SIZEOF_ULONG);
    assert es[..6][..5] == es[..5] && es[..5][..4] == es[..4] && es[..4][..3] == es[..3] && es[..3][..2] == es[..2] && es[..2][..1] == es[..1];
    assert ReadWish(es[..1], false) == Wish(OK, 0, true);
    assert ReadWish(es[..2], false) == Wish(OK, 0, true);
    assert ReadWish(es[..3], false) == Wish(OK, 0, true);
    assert ReadWish(es[..4], false) == Wish(OK, 0, true);
    assert ReadWish(es[..5], false) == Wish(OK, 0, true);
    assert ReadWish(es[..6], false) == Wish(OK, 0, true);
  }

  lemma WrapTemplatePlan(keyLen: nat)
    requires IsWord(keyLen)
    ensures var q := ReadPlan(Header(EMPH_PLAN) + WrapRest(keyLen), false, DEFAULT_PLAN); q.rv == OK && q.plan == EMPH_PLAN
  {
    hide ToWord, FromWord, LastSized, Rest;
    var full := Header(EMPH_PLAN) + WrapRest(keyLen);
    WrapTemplateRest(keyLen);
    assert IsWord(CKO_SECRET_KEY) && IsWord(CKK_AES);
    AssembledPlan(EMPH_PLAN, WrapTemplate(keyLen), true);
    NeverNamed(full, CKA_CERTIFICATE_TYPE, SIZEOF_ULONG);
  }

  lemma WrapTemplateHarmless(ctx: Context, keyLen: nat)
    requires IsWord(keyLen)
    ensures var es := Header(EMPH_PLAN) + WrapRest(keyLen);
            && |es| == 7 && NamesNoCheck(es) && Named(es, CKA_VALUE_LEN)
            && forall i :: 0 <= i < |es| ==> Harmless(Job(ctx, SchemaOf(SecretKey(CKK_AES)), true, Generate), es[i])
  {
    hide SchemaOf, ToWord, FromWord, Harmless;
    var job := Job(ctx, SchemaOf(SecretKey(CKK_AES)), true, Generate);
    HarmlessNumber(job, CKA_CLASS, CKO_SECRET_KEY);
    HarmlessNumber(job, CKA_KEY_TYPE, CKK_AES);
    HarmlessNumber(job, CKA_VALUE_LEN, keyLen);
    HarmlessFlag(job, CKA_TOKEN, 0);
    HarmlessFlag(job, CKA_PRIVATE, 1);
    HarmlessFlag(job, CKA_WRAP, 1);
    HarmlessFlag(job, CKA_EXTRACTABLE, 1);
    assert (Header(EMPH_PLAN) + WrapRest(keyLen))[6].t == CKA_VALUE_LEN;
  }

  // ----- conservation ---------------------------------------------------------------------------------------

  /** The same objects, unchanged, under the same handles. */
  predicate Conserved(w: World, w': World) {
    w'.items == w.items && w'.handles == w.handles && w'.byObject == w.byObject
  }

  /** A key that was just made, whatever was written to it since, goes without a trace. */
  lemma DiscardRestores(w: World, item: Item, item': Item, caller: Caller)
    requires Sound(w)
    ensures var r := Hand(Allocate(w, item), caller, w.next, false, true);
            var w' := r.world.(items := r.world.items[w.next := item']);
            && Lookup(w', r.handle) == Some(w.next) && Lookup(r.world, r.handle) == Some(w.next)
            && Conserved(w, Discard(w', r.handle, w.next)) && Conserved(w, Discard(r.world, r.handle, w.next))
  {
    hide SoundItem;
    assert w.next !in w.items && w.next !in w.byObject && w.lastHandle + 1 !in w.handles;
  }

  /** The temporary key is refused only to those who may not write private session objects, and
      then nothing has happened. */
  lemma TemporaryKey(w: World, ctx: Context, caller: Caller, full: Template, op: Op)
    requires Sound(w) && (op.Generate? || op.Unwrap?) && NamesNoCheck(full) && |full| <= MAX_ATTRIBS
    requires var q := ReadPlan(full, false, DEFAULT_PLAN); q.rv == OK && q.plan == EMPH_PLAN
    requires forall i :: 0 <= i < |full| ==> Harmless(Job(ctx, SchemaOf(SecretKey(CKK_AES)), true, op), full[i])
    requires Named(full, if op.Generate? then CKA_VALUE_LEN else CKA_KEY_TYPE)
    ensures var access := HaveWrite(caller.state, false, true);
            var d := DraftObject(ctx, caller, full, op);
            && (access != OK ==> CreateObject(w, ctx, caller, full, op) == Refuse(w, access))
            && (access == OK ==>
                  && d.Complete? && IsPrivate(d.item.attrs)
                  && CreateObject(w, ctx, caller, full, op) == Hand(Allocate(w, d.item), caller, w.next, false, true))
  {
    hide SchemaOf, Initialised, ReadPlan, CheckValueLast, ClassOf, Harmless, Sound, SaveTemplate, Healthy, Hand, Allocate;
    NeverHalfMade(ctx, caller, full, op);
    CreateDraftLaw(ctx, caller, full, op);
  }

  predicate IsAesLength(n: nat) { n == 16 || n == 24 || n == 32 }

  predicate MayMakeTemporaryKey(caller: Caller, keyLen: nat) {
    IsAesLength(keyLen) && HaveWrite(caller.state, false, true) == OK
  }

  /** Generating the temporary key: made exactly for a length AES knows and a caller who may write it,
      its material is the generator's output, and removing it restores what was there before. */
  lemma GeneratedTemporaryKey(w: World, ctx: Context, caller: Caller, keyLen: nat, random: nat -> Bytes)
    requires Sound(w) && IsWord(keyLen)
    ensures var made := GenerateSecret(w, ctx, caller, EMPH_PLAN, WrapTemplate(keyLen), random);
            && (made.rv == OK <==> MayMakeTemporaryKey(caller, keyLen))
            && (made.rv != OK ==> made.world == w)
            && (made.rv == OK ==>
                  && Lookup(made.world, made.handle) == Some(w.next)
                  && Conserved(w, Discard(made.world, made.handle, w.next))
                  && (ctx.token.Lawful() && ctx.session == caller.state ==>
                        Material(ctx, made.world.items[w.next].attrs, true) == Some(random(keyLen))))
  {
    hide Sound, ReadPlan, DraftObject, Header, WrapTemplate, WrapRest, ReadWish, Rest, ContributeGenerated, IsWord, Discard, Harmless, HaveWrite;
    hide Hand, Allocate, CreateObject, Token.Lawful, Material, SchemaOf, NamesNoCheck, Named;
    WrapTemplateWish(keyLen);
    assert SecretWish(CKK_AES, WrapTemplate(keyLen)) == Wish(OK, keyLen, true);
    if IsAesLength(keyLen) {
      var full := Header(EMPH_PLAN) + WrapRest(keyLen);
      WrapTemplateRest(keyLen);
      WrapTemplateLength(keyLen);
      WrapTemplatePlan(keyLen);
      WrapTemplateHarmless(ctx, keyLen);
      TemporaryKey(w, ctx, caller, full, Generate);
      var d := DraftObject(ctx, caller, full, Generate);
      if d.Complete? && HaveWrite(caller.state, false, true) == OK {
        var contribute := ContributeGenerated(ctx, true, CKM_AES_KEY_GEN, CKK_AES, random(keyLen), true);
        GeneratedMaterial(ctx, caller, CKM_AES_KEY_GEN, random(keyLen), d.item.attrs);
        var made := Hand(Allocate(w, d.item), caller, w.next, false, true);
        var item := d.item.(attrs := contribute(d.item.attrs).value, origin := MadeBy(Generate));
        DiscardRestores(w, d.item, item, caller);
        HandedItem(w, d.item, caller);
        CompletedAs(made, w.next, MadeBy(Generate), contribute);
      }
    }
  }

  lemma WrapTemplateLength(keyLen: nat)
    ensures |WrapTemplate(keyLen)| == 7 && |Header(EMPH_PLAN)| == 4
  {
  }

  lemma HandedItem(w: World, item: Item, caller: Caller)
    requires Sound(w)
    ensures Hand(Allocate(w, item), caller, w.next, false, true).world.items == w.items[w.next := item]
    ensures Hand(Allocate(w, item), caller, w.next, false, true).rv == OK
  {
    hide SoundItem;
  }

  lemma CompletedAs(made: Reply, id: Id, origin: Origin, contribute: Attrs -> Option<Attrs>)
    requires Lookup(made.world, made.handle) == Some(id) && id in made.world.items
    requires contribute(made.world.items[id].attrs).Some?
    ensures var item := made.world.items[id].(attrs := contribute(made.world.items[id].attrs).value, origin := origin);
            CompleteKey(made, origin, contribute) == made.(world := made.world.(items := made.world.items[id := item]))
  {
  }

  lemma GeneratedMaterial(ctx: Context, caller: Caller, mechanism: nat, key: Bytes, o: Attrs)
    requires IsPrivate(o)
    ensures ContributeGenerated(ctx, true, mechanism, CKK_AES, key, true)(o).Some?
    ensures ctx.token.Lawful() && ctx.session == caller.state && HaveWrite(caller.state, false, true) == OK ==>
              Material(ctx, ContributeGenerated(ctx, true, mechanism, CKK_AES, key, true)(o).value, true) == Some(key)
  {
    var o1 := GeneratedClaims(mechanism, o);
    assert IsPrivate(o1);
    var o2 := StoreKey(ctx, true, o1, key, KcvOf(ctx.token, CKK_AES, key));
    assert IsPrivate(o2) && o2[CKA_VALUE] == Store(ctx, true, key);
  }

  /** Wrapping with CKM_RSA_AES_KEY_WRAP conserves the object store on every path, and succeeds exactly
      if the temporary key can be made and both parts can be wrapped; the output is the two parts. */
  lemma WrapConserves(w: World, ctx: Context, caller: Caller, kit: Kit, wrapAsym: Bytes -> Wrapped, aesBits: nat,
                      random: nat -> Bytes, keydata: Bytes)
    requires Sound(w) && IsWord(aesBits)
    ensures var r := WrapRsaAes(w, ctx, caller, kit, wrapAsym, aesBits, random, keydata);
            && Conserved(w, r.world)
            && (ctx.token.Lawful() && ctx.session == caller.state ==>
                  var n := aesBits / 8;
                  && (r.rv == OK <==>
                        && MayMakeTemporaryKey(caller, n)
                        && kit.keyWrapPad(random(n), keydata).Some? && wrapAsym(random(n)).rv == OK)
                  && (r.rv == OK ==> r.bytes == wrapAsym(random(n)).bytes + kit.keyWrapPad(random(n), keydata).value))
  {
    hide Sound, GenerateSecret, Discard, Token.Lawful, Material, WrapTemplate, MayMakeTemporaryKey;
    GeneratedTemporaryKey(w, ctx, caller, aesBits / 8, random);
  }

  lemma UnwrappedMaterial(ctx: Context, caller: Caller, key: Bytes, o: Attrs)
    requires IsPrivate(o)
    ensures ContributeUnwrapped(ctx, true, Some(map[CKA_VALUE := key]))(o).Some?
    ensures ctx.token.Lawful() && ctx.session == caller.state && HaveWrite(caller.state, false, true) == OK ==>
              Material(ctx, ContributeUnwrapped(ctx, true, Some(map[CKA_VALUE := key]))(o).value, true) == Some(key)
  {
    var o1 := o[CKA_LOCAL := BoolV(false)][CKA_ALWAYS_SENSITIVE := BoolV(false)][CKA_NEVER_EXTRACTABLE := BoolV(false)];
    var o2 := o1 + StoreParts(ctx, true, map[CKA_VALUE := key]);
    assert IsPrivate(o1);
    assert IsPrivate(o2) && o2[CKA_VALUE] == Store(ctx, true, key);
  }

  /** Unwrapping conserves the object store on every path too, and succeeds exactly if the first part
      yields a key with which the second can be unwrapped and the caller may make the temporary key. */
  lemma UnwrapConserves(w: World, ctx: Context, caller: Caller, kit: Kit, unwrapAsym: Bytes -> Wrapped, modulusLen: nat, wrapped: Bytes)
    requires Sound(w) && modulusLen <= |wrapped|
    ensures var r := UnwrapRsaAes(w, ctx, caller, kit, unwrapAsym, modulusLen, wrapped);
            var first := unwrapAsym(wrapped[..modulusLen]);
            && Conserved(w, r.world)
            && (ctx.token.Lawful() && ctx.session == caller.state ==>
                  var second := kit.keyUnwrapPad(first.bytes, wrapped[modulusLen..]);
                  && (r.rv == OK <==> first.rv == OK && HaveWrite(caller.state, false, true) == OK && second.Some?)
                  && (r.rv == OK ==> r.bytes == second.value))
  {
    hide Sound, ReadPlan, DraftObject, UnwrapTemplate, ContributeUnwrapped, Discard, Harmless, HaveWrite;
    hide Hand, Allocate, CreateObject, Token.Lawful, Material, SchemaOf, NamesNoCheck, Named;
    var first := unwrapAsym(wrapped[..modulusLen]);
    if first.rv == OK {
      UnwrapTemplatePlan();
      UnwrapTemplateHarmless(ctx);
      UnwrapTemplateLength();
      TemporaryKey(w, ctx, caller, UnwrapTemplate(), Unwrap);
      var d := DraftObject(ctx, caller, UnwrapTemplate(), Unwrap);
      if HaveWrite(caller.state, false, true) == OK {
        UnwrappedMaterial(ctx, caller, first.bytes, d.item.attrs);
        DiscardRestores(w, d.item, d.item, caller);
        HandedItem(w, d.item, caller);
      }
    }
  }

  lemma UnwrapTemplateLength()
    ensures |UnwrapTemplate()| == 5
  {
  }

  /** Wrapping, then unwrapping with the matching RSA key, possibly in another session and at another
      time, returns the key: the split at the modulus length recovers both parts. */
  lemma RsaAesRoundTrip(w: World, w2: World, ctx: Context, ctx2: Context, caller: Caller, caller2: Caller, kit: Kit,
                        wrapAsym: Bytes -> Wrapped, unwrapAsym: Bytes -> Wrapped, modulusLen: nat, aesBits: nat,
                        random: nat -> Bytes, keydata: Bytes)
    requires Sound(w) && Sound(w2) && IsWord(aesBits) && kit.Lawful()
    requires ctx.token.Lawful() && ctx.session == caller.state && ctx2.token.Lawful() && ctx2.session == caller2.state
    requires forall x :: wrapAsym(x).rv == OK ==> |wrapAsym(x).bytes| == modulusLen && unwrapAsym(wrapAsym(x).bytes) == Wrapped(OK, x)
    requires HaveWrite(caller2.state, false, true) == OK
    requires WrapRsaAes(w, ctx, caller, kit, wrapAsym, aesBits, random, keydata).rv == OK
    ensures var blob := WrapRsaAes(w, ctx, caller, kit, wrapAsym, aesBits, random, keydata).bytes;
            && modulusLen <= |blob|
            && var r := UnwrapRsaAes(w2, ctx2, caller2, kit, unwrapAsym, modulusLen, blob);
               r.rv == OK && r.bytes == keydata && Conserved(w2, r.world)
  {
    hide Sound, WrapRsaAes, UnwrapRsaAes, Token.Lawful, MayMakeTemporaryKey, IsWord;
    WrapConserves(w, ctx, caller, kit, wrapAsym, aesBits, random, keydata);
    var key := random(aesBits / 8);
    var one, two := wrapAsym(key).bytes, kit.keyWrapPad(key, keydata).value;
    var blob := WrapRsaAes(w, ctx, caller, kit, wrapAsym, aesBits, random, keydata).bytes;
    assert blob == one + two && blob[..modulusLen] == one && blob[modulusLen..] == two;
    UnwrapConserves(w2, ctx2, caller2, kit, unwrapAsym, modulusLen, blob);
  }
}
