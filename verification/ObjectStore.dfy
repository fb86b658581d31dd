/** The object life cycle: the stores, the handles, and every call that makes, changes or removes
    objects, as functions from one state of the library to the next. */
module ObjectStore {
  import opened Cryptoki
  import opened Attributes
  import opened ObjectClasses
  import opened Templates

  // ----- the state ---------------------------------------------------------------------------

  type Id = nat

  type Handle = nat

  const CK_INVALID_HANDLE: Handle := 0

  /** Where an object lives. Session objects belong to a session and remember, apart from their
      attributes, whether a logout removes them. */
  datatype Place = OnToken | InSession(owner: nat, isPrivate: bool)

  /** Derived keys remember whether they come from an agreement. */
  datatype Origin = MadeBy(op: Op) | CopyOf(source: Id) | DerivedFrom(bases: set<Id>, agreed: bool) {
    function Sources(): set<Id> {
      match this
      case MadeBy(_) => {}
      case CopyOf(s) => {s}
      case DerivedFrom(bs, _) => bs
    }
  }

  /** `finished` is false for an object left behind by a creation call that reported failure. */
  datatype Item = Item(attrs: Attrs, place: Place, origin: Origin, finished: bool)

  datatype Registration = Registration(target: Id, isPrivate: bool, session: nat)

  datatype World = World(items: map<Id, Item>, next: Id,
                         handles: map<Handle, Registration>, byObject: map<Id, Handle>, lastHandle: Handle)

  const EMPTY: World := World(map[], 0, map[], map[], 0)

  datatype Caller = Caller(state: SessionState, session: nat)

  datatype Reply = Reply(world: World, rv: Rv, handle: Handle)

  function Refuse(w: World, rv: Rv): Reply { Reply(w, rv, CK_INVALID_HANDLE) }

  // ----- elementary changes ---------------------------------------------------------------------

  function Allocate(w: World, item: Item): World { w.(items := w.items[w.next := item], next := w.next + 1) }

  function PutAttrs(w: World, id: Id, o: Attrs): World
    requires id in w.items
  {
    w.(items := w.items[id := w.items[id].(attrs := o)])
  }

  function Finish(w: World, id: Id, o: Attrs): World
    requires id in w.items
  {
    w.(items := w.items[id := w.items[id].(attrs := o, finished := true)])
  }

  /** Registers an object, returning the handle it already has if there is one. */
  function Register(w: World, id: Id, isPrivate: bool, session: nat): (World, Handle) {
    if id in w.byObject then
      if w.byObject[id] in w.handles then (w, w.byObject[id])
      else (w.(byObject := w.byObject - {id}), CK_INVALID_HANDLE)
    else
      var h := w.lastHandle + 1;
      (w.(handles := w.handles[h := Registration(id, isPrivate, session)], byObject := w.byObject[id := h], lastHandle := h), h)
  }

  function Forget(w: World, h: Handle): World {
    if h in w.handles then
      var id := w.handles[h].target;
      w.(handles := w.handles - {h}, byObject := w.byObject - {id})
    else w
  }

  function Remove(w: World, id: Id): World { w.(items := w.items - {id}) }

  function Lookup(w: World, h: Handle): Option<Id> {
    if h in w.handles && w.handles[h].target in w.items then Some(w.handles[h].target) else None
  }

  function IsOnToken(o: Attrs): bool { Flag(o, CKA_TOKEN, false) }

  function IsPrivate(o: Attrs): bool { Flag(o, CKA_PRIVATE, true) }

  /** The handle for a new object: token objects are not tied to a session. */
  function Hand(w: World, caller: Caller, id: Id, onToken: bool, isPrivate: bool): Reply {
    var (w', h) := Register(w, id, isPrivate, if onToken then 0 else caller.session);
    Reply(w', OK, h)
  }

  // ----- reading the template -----------------------------------------------------------------------

  /** The last entry of the given type and length. */
  function LastSized(es: Template, t: AttrType, size: nat): Option<Payload> {
    if |es| == 0 then None
    else
      var e := es[|es| - 1];
      if e.t == t && e.p.Length() == size then Some(e.p) else LastSized(es[..|es| - 1], t, size)
  }

  function LastFlag(es: Template, t: AttrType, default: bool): bool {
    match LastSized(es, t, SIZEOF_BBOOL) case Some(p) => p.AsBool() case None => default
  }

  function LastNumber(es: Template, t: AttrType, default: nat): nat {
    match LastSized(es, t, SIZEOF_ULONG) case Some(p) => p.AsNumber() case None => default
  }

  /** What the template says about the object to be made. */
  datatype Plan = Plan(objClass: nat, keyType: nat, certType: nat, onToken: bool, isPrivate: bool)

  datatype Planned = Planned(rv: Rv, plan: Plan)

  predicate IsKeyClass(c: nat) { c == CKO_PUBLIC_KEY || c == CKO_PRIVATE_KEY || c == CKO_SECRET_KEY }

  /** Extracts the plan; `implicit` calls know class and type themselves. */
  function ReadPlan(es: Template, implicit: bool, d: Plan): Planned {
    var p := Plan(LastNumber(es, CKA_CLASS, d.objClass), LastNumber(es, CKA_KEY_TYPE, d.keyType),
                  LastNumber(es, CKA_CERTIFICATE_TYPE, d.certType),
                  LastFlag(es, CKA_TOKEN, d.onToken), LastFlag(es, CKA_PRIVATE, d.isPrivate));
    if implicit then Planned(OK, p)
    else if LastSized(es, CKA_CLASS, SIZEOF_ULONG).None? then Planned(TEMPLATE_INCOMPLETE, p)
    else if IsKeyClass(p.objClass) && LastSized(es, CKA_KEY_TYPE, SIZEOF_ULONG).None? then Planned(TEMPLATE_INCOMPLETE, p)
    else if p.objClass == CKO_CERTIFICATE && LastSized(es, CKA_CERTIFICATE_TYPE, SIZEOF_ULONG).None? then
      Planned(TEMPLATE_INCOMPLETE, p)
    else if (p.objClass == CKO_CERTIFICATE || p.objClass == CKO_PUBLIC_KEY)
            && LastSized(es, CKA_PRIVATE, SIZEOF_BBOOL).None? then
      Planned(OK, p.(isPrivate := false))
    else Planned(OK, p)
  }

  const DEFAULT_PLAN: Plan := Plan(CKO_DATA, CKK_RSA, CKC_X_509, false, true)

  const MAX_ATTRIBS: nat := 32

  function WithoutCheckValue(es: Template): Template {
    if |es| == 0 then []
    else WithoutCheckValue(es[..|es| - 1]) + if es[|es| - 1].t == CKA_CHECK_VALUE then [] else [es[|es| - 1]]
  }

  function OnlyCheckValue(es: Template): Template {
    if |es| == 0 then []
    else OnlyCheckValue(es[..|es| - 1]) + if es[|es| - 1].t == CKA_CHECK_VALUE then [es[|es| - 1]] else []
  }

  /** The stable reordering that has CKA_CHECK_VALUE written after everything it depends on. */
  function CheckValueLast(es: Template): Template { WithoutCheckValue(es) + OnlyCheckValue(es) }

  // ----- creating ------------------------------------------------------------------------------------

  /** What C_CreateObject adds once the template is saved. */
  function MarkCreated(o: Attrs, objClass: nat): Attrs {
    if objClass == CKO_PUBLIC_KEY then o[CKA_LOCAL := BoolV(false)]
    else if objClass == CKO_SECRET_KEY || objClass == CKO_PRIVATE_KEY then
      o[CKA_LOCAL := BoolV(false)][CKA_ALWAYS_SENSITIVE := BoolV(false)][CKA_NEVER_EXTRACTABLE := BoolV(false)]
    else o
  }

  /** What becomes of an attempt to make an object: nothing is allocated, or an object that is
      destroyed again, or one that is left half-made, or a finished one. */
  datatype Draft = Refused(rv: Rv) | Undone(rv: Rv) | HalfMade(item: Item, rv: Rv) | Complete(item: Item)

  function Enact(w: World, caller: Caller, draft: Draft, onToken: bool, isPrivate: bool): Reply {
    match draft
    case Refused(rv) => Refuse(w, rv)
    case Undone(rv) => Refuse(w.(next := w.next + 1), rv)
    case HalfMade(item, rv) => Refuse(Allocate(w, item), rv)
    case Complete(item) => Hand(Allocate(w, item), caller, w.next, onToken, isPrivate)
  }

  function PlaceFor(caller: Caller, onToken: bool, isPrivate: bool): Place {
    if onToken then OnToken else InSession(caller.session, isPrivate)
  }

  function DraftObject(ctx: Context, caller: Caller, es: Template, op: Op): Draft {
    var planned := ReadPlan(es, false, DEFAULT_PLAN);
    var p := planned.plan;
    var access := HaveWrite(caller.state, p.onToken, p.isPrivate);
    if planned.rv != OK then Refused(planned.rv)
    else if access != OK then Refused(access)
    else if |es| > MAX_ATTRIBS then Refused(TEMPLATE_INCONSISTENT)
    else match ClassOf(p.objClass, p.keyType, p.certType)
      case None => Refused(ATTRIBUTE_VALUE_INVALID)
      case Some(c) =>
        var place := PlaceFor(caller, p.onToken, p.isPrivate);
        var r := SaveTemplate(Job(ctx, SchemaOf(c), p.isPrivate, op), Initialised(c, map[]), CheckValueLast(es), p.onToken);
        if r.rv != OK then HalfMade(Item(r.attrs, place, MadeBy(op), false), r.rv)
        else Complete(Item(if op.Create? then MarkCreated(r.attrs, p.objClass) else r.attrs, place, MadeBy(op), true))
  }

  /** The object is allocated before its template is saved, and stays when that fails. */
  function CreateObject(w: World, ctx: Context, caller: Caller, es: Template, op: Op): Reply {
    var p := ReadPlan(es, false, DEFAULT_PLAN).plan;
    Enact(w, caller, DraftObject(ctx, caller, es, op), p.onToken, p.isPrivate)
  }

  // ----- copying ---------------------------------------------------------------------------------------

  /** How one attribute is carried over: byte strings are encrypted when a public object
      becomes private. */
  function Transcribed(ctx: Context, upgrade: bool, v: Value): Option<Value> {
    if upgrade && v.BytesV? && v.s != [] then
      match ctx.Encrypt(v.s)
      case None => None
      case Some(x) => Some(BytesV(x))
    else Some(v)
  }

  /** Every attribute carried over; None when the walk cannot start or an encryption fails. */
  function Transcript(ctx: Context, upgrade: bool, o: Attrs): Option<Attrs> {
    if CKA_CLASS !in o || exists a :: a in o && Transcribed(ctx, upgrade, o[a]).None? then None
    else Some(map a | a in o :: Transcribed(ctx, upgrade, o[a]).value)
  }

  /** The copy of an object with these attributes; a failure destroys what was allocated. */
  function DraftCopy(ctx: Context, caller: Caller, source: Id, o: Attrs, es: Template): Draft {
    var access := HaveRead(caller.state, IsOnToken(o), IsPrivate(o));
    var onToken := LastFlag(es, CKA_TOKEN, IsOnToken(o));
    var isPrivate := LastFlag(es, CKA_PRIVATE, IsPrivate(o));
    var access' := HaveWrite(caller.state, onToken, isPrivate);
    if access != OK then Refused(access)
    else if !Copyable(o) then Refused(ACTION_PROHIBITED)
    else if IsPrivate(o) && !isPrivate then Refused(TEMPLATE_INCONSISTENT)
    else if access' != OK then Refused(access')
    else match Transcript(ctx, !IsPrivate(o) && isPrivate, o)
      case None => Undone(FUNCTION_FAILED)
      case Some(copy) =>
        match StoredClass(copy)
        case None => Undone(ATTRIBUTE_VALUE_INVALID)
        case Some(c) =>
          var r := SaveTemplate(Job(ctx, SchemaOf(c), isPrivate, Copy), Initialised(c, copy), es, onToken);
          if r.rv != OK then Undone(r.rv)
          else Complete(Item(r.attrs, PlaceFor(caller, onToken, isPrivate), CopyOf(source), true))
  }

  function CopyObject(w: World, ctx: Context, caller: Caller, h: Handle, es: Template): Reply {
    match Lookup(w, h)
    case None => Refuse(w, OBJECT_HANDLE_INVALID)
    case Some(id) =>
      var o := w.items[id].attrs;
      Enact(w, caller, DraftCopy(ctx, caller, id, o, es),
            LastFlag(es, CKA_TOKEN, IsOnToken(o)), LastFlag(es, CKA_PRIVATE, IsPrivate(o)))
  }

  // ----- reading -----------------------------------------------------------------------------------------

  /** What C_GetAttributeValue returns, and what each request gets if it comes to that. */
  datatype Reading = Reading(rv: Rv, answers: Option<seq<Answer>>)

  function GetAttributeValue(w: World, ctx: Context, caller: Caller, h: Handle, qs: seq<Request>): Reading {
    match Lookup(w, h)
    case None => Reading(OBJECT_HANDLE_INVALID, None)
    case Some(id) =>
      var o := w.items[id].attrs;
      if HaveRead(caller.state, IsOnToken(o), IsPrivate(o)) != OK then Reading(GENERAL_ERROR, None)
      else match StoredClass(o)
        case None => Reading(ATTRIBUTE_VALUE_INVALID, None)
        case Some(c) =>
          var answers := Answers(ctx, SchemaOf(c), Initialised(c, o), qs);
          Reading(Verdict(answers), Some(answers))
  }

  /** The object as it is after a reading: wrapping it may have given it attributes that it lacked. */
  function AfterReading(w: World, caller: Caller, h: Handle): World {
    match Lookup(w, h)
    case None => w
    case Some(id) =>
      var o := w.items[id].attrs;
      if HaveRead(caller.state, IsOnToken(o), IsPrivate(o)) != OK then w
      else match StoredClass(o)
        case None => w
        case Some(c) => PutAttrs(w, id, Initialised(c, o))
  }

  // ----- changing and removing ----------------------------------------------------------------------------

  function SetAttributeValue(w: World, ctx: Context, caller: Caller, h: Handle, es: Template): Reply {
    match Lookup(w, h)
    case None => Refuse(w, OBJECT_HANDLE_INVALID)
    case Some(id) =>
      var o := w.items[id].attrs;
      var access := HaveWrite(caller.state, IsOnToken(o), IsPrivate(o));
      if access != OK then Refuse(w, access)
      else if !Modifiable(o) then Refuse(w, ACTION_PROHIBITED)
      else match StoredClass(o)
        case None => Refuse(w, ATTRIBUTE_VALUE_INVALID)
        case Some(c) =>
          var r := SaveTemplate(Job(ctx, SchemaOf(c), IsPrivate(o), Set), Initialised(c, o), es, w.items[id].place.OnToken?);
          Refuse(PutAttrs(w, id, r.attrs), r.rv)
  }

  function DestroyObject(w: World, caller: Caller, h: Handle): Reply {
    match Lookup(w, h)
    case None => Refuse(w, OBJECT_HANDLE_INVALID)
    case Some(id) =>
      var o := w.items[id].attrs;
      var access := HaveWrite(caller.state, IsOnToken(o), IsPrivate(o));
      if access != OK then Refuse(w, access)
      else if !Flag(o, CKA_DESTROYABLE, true) then Refuse(w, ACTION_PROHIBITED)
      else Refuse(Remove(Forget(w, h), id), OK)
  }

  function KeepHandles(w: World, dropped: set<Handle>): World {
    w.(handles := w.handles - dropped,
       byObject := w.byObject - set h | h in dropped && h in w.handles :: w.handles[h].target)
  }

  function DropObjects(w: World, gone: set<Id>): World {
    w.(items := map id | id in w.items && id !in gone :: w.items[id])
  }

  function PrivateHandles(w: World): set<Handle> { set h | h in w.handles && w.handles[h].isPrivate }

  function PrivateSessionObjects(w: World): set<Id> {
    set id | id in w.items && w.items[id].place.InSession? && w.items[id].place.isPrivate
  }

  /** Logging out forgets the handles of private objects and removes private session objects. */
  function Logout(w: World): Reply { Refuse(DropObjects(KeepHandles(w, PrivateHandles(w)), PrivateSessionObjects(w)), OK) }

  function HandlesOf(w: World, session: nat, last: bool): set<Handle> {
    set h | h in w.handles && (last || w.handles[h].session == session)
  }

  function ObjectsOf(w: World, session: nat): set<Id> {
    set id | id in w.items && w.items[id].place.InSession? && w.items[id].place.owner == session
  }

  /** Closing a session removes its objects; the last one to close takes all handles with it. */
  function CloseSession(w: World, session: nat, last: bool): Reply {
    Refuse(DropObjects(KeepHandles(w, HandlesOf(w, session, last)), ObjectsOf(w, session)), OK)
  }

  // ----- searching ---------------------------------------------------------------------------------------

  /** Private objects are shown to the logged-in user only. */
  predicate Visible(state: SessionState, o: Attrs) { IsPrivate(o) ==> state.RoUser? || state.RwUser? }

  /** Gives handles to the objects that a search has met and found to match, in that order. Half-made
      objects are met like any others. */
  function FindObjects(w: World, caller: Caller, hits: seq<Id>): Reply {
    if |hits| == 0 then Refuse(w, OK)
    else
      var sofar, id := FindObjects(w, caller, hits[..|hits| - 1]), hits[|hits| - 1];
      if sofar.rv != OK || id !in w.items || !Visible(caller.state, w.items[id].attrs) then sofar
      else
        var o := w.items[id].attrs;
        var (w', h) := Register(sofar.world, id, IsPrivate(o), if IsOnToken(o) then 0 else caller.session);
        Refuse(w', if h == CK_INVALID_HANDLE then GENERAL_ERROR else OK)
  }

  // ----- keys the library makes -----------------------------------------------------------------------------

  /** The four entries that calls making keys put first, from what they extracted. */
  function Header(p: Plan): Template {
    [Entry(CKA_CLASS, Memory(ToWord(p.objClass, SIZEOF_ULONG))),
     Entry(CKA_TOKEN, Memory([if p.onToken then 1 else 0])),
     Entry(CKA_PRIVATE, Memory([if p.isPrivate then 1 else 0])),
     Entry(CKA_KEY_TYPE, Memory(ToWord(p.keyType, SIZEOF_ULONG)))]
  }

  function Rest(es: Template, dropCheck: bool): Template {
    if |es| == 0 then []
    else
      var e := es[|es| - 1];
      Rest(es[..|es| - 1], dropCheck) +
        if e.t == CKA_CLASS || e.t == CKA_TOKEN || e.t == CKA_PRIVATE || e.t == CKA_KEY_TYPE
           || (dropCheck && e.t == CKA_CHECK_VALUE) then [] else [e]
  }

  /** Writes what the library itself contributes to a key just created; a failure destroys the
      key again. */
  function CompleteKey(made: Reply, origin: Origin, contribute: Attrs -> Option<Attrs>): Reply {
    match Lookup(made.world, made.handle)
    case None => Refuse(made.world, FUNCTION_FAILED)
    case Some(id) =>
      match contribute(made.world.items[id].attrs)
      case None => Refuse(Remove(Forget(made.world, made.handle), id), FUNCTION_FAILED)
      case Some(o) =>
        var item := made.world.items[id].(attrs := o, origin := origin);
        made.(world := made.world.(items := made.world.items[id := item]))
  }

  /** Runs CreateObject on the assembled template, then completes the key. */
  function MakeKey(w: World, ctx: Context, caller: Caller, p: Plan, es: Template, dropCheck: bool, op: Op,
                   origin: Origin, contribute: Attrs -> Option<Attrs>): Reply {
    if |es| > MAX_ATTRIBS - |Header(p)| then Refuse(w, TEMPLATE_INCONSISTENT)
    else
      var made := CreateObject(w, ctx, caller, Header(p) + Rest(es, dropCheck), op);
      if made.rv != OK then made else CompleteKey(made, origin, contribute)
  }

  /** A byte string as the library stores it; a failing encryption goes unnoticed and stores nothing. */
  function Store(ctx: Context, isPrivate: bool, x: Bytes): Value {
    if !isPrivate then BytesV(x)
    else match ctx.Encrypt(x) case None => BytesV([]) case Some(y) => BytesV(y)
  }

  /** The length and the check-value wish that key-making calls read from the template. */
  datatype Wish = Wish(rv: Rv, len: nat, checkValue: bool)

  function ReadWish(es: Template, forbidValue: bool): Wish {
    if |es| == 0 then Wish(OK, 0, true)
    else
      var sofar := ReadWish(es[..|es| - 1], forbidValue);
      var e := es[|es| - 1];
      if sofar.rv != OK then sofar
      else if e.t == CKA_VALUE && forbidValue then sofar.(rv := ATTRIBUTE_READ_ONLY)
      else if e.t == CKA_VALUE_LEN then
        if e.p.Length() != SIZEOF_ULONG then sofar.(rv := ATTRIBUTE_VALUE_INVALID)
        else sofar.(len := e.p.AsNumber())
      else if e.t == CKA_CHECK_VALUE then
        if e.p.Length() > 0 then sofar.(rv := ATTRIBUTE_VALUE_INVALID) else sofar.(checkValue := false)
      else sofar
  }

  const CKM_DES_KEY_GEN: nat := 0x120
  const CKM_DES2_KEY_GEN: nat := 0x130
  const CKM_DES3_KEY_GEN: nat := 0x131
  const CKM_GENERIC_SECRET_KEY_GEN: nat := 0x350
  const CKM_AES_KEY_GEN: nat := 0x1080

  /** The types of secret keys that can be generated. */
  predicate Generates(keyType: nat) { keyType == CKK_AES || keyType == CKK_GENERIC_SECRET || IsDesKeyType(keyType) }

  function MechanismFor(keyType: nat): nat {
    if keyType == CKK_AES then CKM_AES_KEY_GEN
    else if keyType == CKK_DES then CKM_DES_KEY_GEN
    else if keyType == CKK_DES2 then CKM_DES2_KEY_GEN
    else if keyType == CKK_DES3 then CKM_DES3_KEY_GEN
    else CKM_GENERIC_SECRET_KEY_GEN
  }

  function DesLength(keyType: nat): nat { if keyType == CKK_DES then 8 else if keyType == CKK_DES2 then 16 else 24 }

  /** DES keys have one length only; of the template only the check-value wish is read. */
  function ReadCheckWish(es: Template, len: nat): Wish {
    if |es| == 0 then Wish(OK, len, true)
    else
      var sofar := ReadCheckWish(es[..|es| - 1], len);
      var e := es[|es| - 1];
      if sofar.rv != OK || e.t != CKA_CHECK_VALUE then sofar
      else if e.p.Length() > 0 then sofar.(rv := ATTRIBUTE_VALUE_INVALID)
      else sofar.(checkValue := false)
  }

  function SecretWish(keyType: nat, es: Template): Wish {
    if IsDesKeyType(keyType) then ReadCheckWish(es, DesLength(keyType)) else ReadWish(es, false)
  }

  predicate LengthAllowed(keyType: nat, len: nat) {
    if keyType == CKK_AES then len in {16, 24, 32} else IsDesKeyType(keyType) || len <= 0x8000000
  }

  /** Key material and, where one is wanted, its check value. */
  function StoreKey(ctx: Context, isPrivate: bool, o: Attrs, key: Bytes, kcv: Option<Bytes>): Attrs {
    var o1 := o[CKA_VALUE := Store(ctx, isPrivate, key)];
    match kcv
    case None => o1
    case Some(k) => o1[CKA_CHECK_VALUE := Store(ctx, isPrivate, k)]
  }

  /** The claims of a generated key are read off its attributes. */
  function GeneratedClaims(mechanism: nat, o: Attrs): Attrs {
    var o1 := o[CKA_LOCAL := BoolV(true)][CKA_KEY_GEN_MECHANISM := NumberV(mechanism)];
    var o2 := o1[CKA_ALWAYS_SENSITIVE := BoolV(Flag(o1, CKA_SENSITIVE, false))];
    o2[CKA_NEVER_EXTRACTABLE := BoolV(!Flag(o2, CKA_EXTRACTABLE, false))]
  }

  function ContributeGenerated(ctx: Context, isPrivate: bool, mechanism: nat, keyType: nat, key: Bytes, checkValue: bool): Attrs -> Option<Attrs> {
    (o: Attrs) =>
      Some(StoreKey(ctx, isPrivate, GeneratedClaims(mechanism, o), key,
                    if checkValue then KcvOf(ctx.token, keyType, key) else None))
  }

  /** Generates an AES, DES or generic secret key; `random` is the generator's output. */
  function GenerateSecret(w: World, ctx: Context, caller: Caller, p: Plan, es: Template, random: nat -> Bytes): Reply
  {
    var wish := SecretWish(p.keyType, es);
    if wish.rv != OK then Refuse(w, wish.rv)
    else if wish.len == 0 then Refuse(w, TEMPLATE_INCOMPLETE)
    else if !LengthAllowed(p.keyType, wish.len) then Refuse(w, ATTRIBUTE_VALUE_INVALID)
    else
      MakeKey(w, ctx, caller, p, es, true, Generate, MadeBy(Generate),
              ContributeGenerated(ctx, p.isPrivate, MechanismFor(p.keyType), p.keyType, random(wish.len), wish.checkValue))
  }

  /** C_GenerateKey for the mechanisms that make secret keys. */
  function GenerateKey(w: World, ctx: Context, caller: Caller, keyType: nat, es: Template, random: nat -> Bytes): Reply
  {
    var p := ReadPlan(es, true, DEFAULT_PLAN.(objClass := CKO_SECRET_KEY, keyType := keyType)).plan;
    var access := HaveWrite(caller.state, p.onToken, p.isPrivate);
    if !Generates(keyType) then Refuse(w, MECHANISM_INVALID)
    else if p.objClass != CKO_SECRET_KEY && p.objClass != CKO_DOMAIN_PARAMETERS then Refuse(w, ATTRIBUTE_VALUE_INVALID)
    else if p.objClass != CKO_SECRET_KEY || p.keyType != keyType then Refuse(w, TEMPLATE_INCONSISTENT)
    else if access != OK then Refuse(w, access)
    else GenerateSecret(w, ctx, caller, p, es, random)
  }

  /** The attributes that hold the parts of an unwrapped key. */
  predicate IsKeyPart(a: AttrType) {
    || a == CKA_VALUE || a == CKA_MODULUS || a == CKA_PUBLIC_EXPONENT || a == CKA_PRIVATE_EXPONENT || a == CKA_PRIME_1
    || a == CKA_PRIME_2 || a == CKA_EXPONENT_1 || a == CKA_EXPONENT_2 || a == CKA_COEFFICIENT || a == CKA_PRIME
    || a == CKA_SUBPRIME || a == CKA_BASE || a == CKA_EC_PARAMS || a == CKA_GOSTR3410_PARAMS || a == CKA_GOSTR3411_PARAMS
    || a == CKA_GOST28147_PARAMS
  }

  type KeyParts = m: map<AttrType, Bytes> | forall a :: a in m ==> IsKeyPart(a) witness map[]

  function StoreParts(ctx: Context, isPrivate: bool, m: KeyParts): Attrs { map a | a in m :: Store(ctx, isPrivate, m[a]) }

  function ContributeUnwrapped(ctx: Context, isPrivate: bool, parts: Option<KeyParts>): Attrs -> Option<Attrs> {
    (o: Attrs) =>
      match parts
      case None => None
      case Some(m) =>
        Some(o[CKA_LOCAL := BoolV(false)][CKA_ALWAYS_SENSITIVE := BoolV(false)][CKA_NEVER_EXTRACTABLE := BoolV(false)]
             + StoreParts(ctx, isPrivate, m))
  }

  /** C_UnwrapKey from the template on; `parts` is the decoded key, None if it cannot be decoded. */
  function UnwrapKey(w: World, ctx: Context, caller: Caller, es: Template, parts: Option<KeyParts>): Reply {
    var planned := ReadPlan(es, false, DEFAULT_PLAN);
    var p := planned.plan;
    var access := HaveWrite(caller.state, p.onToken, p.isPrivate);
    if planned.rv != OK then Refuse(w, planned.rv)
    else if p.objClass != CKO_SECRET_KEY && p.objClass != CKO_PRIVATE_KEY then Refuse(w, ATTRIBUTE_VALUE_INVALID)
    else if access != OK then Refuse(w, access)
    else MakeKey(w, ctx, caller, p, es, false, Unwrap, MadeBy(Unwrap), ContributeUnwrapped(ctx, p.isPrivate, parts))
  }

  // ----- derivation -----------------------------------------------------------------------------------------

  /** How a key is derived: by an agreement or by encrypting data (the result of either is the
      secret given here), or by concatenating key material. */
  datatype Derivation =
    | Agreement(secret: Bytes)
    | EncryptData(secret: Bytes)
    | ConcatData(data: Bytes, dataFirst: bool)
    | ConcatKey(other: Handle)
  {
    predicate Implicit() { ConcatData? || ConcatKey? }
  }

  /** The length of the derived key, or why there can be none. */
  datatype Length = Length(rv: Rv, len: nat)

  function DerivedLength(keyType: nat, wish: nat): Length {
    if keyType == CKK_GENERIC_SECRET then
      if wish == 0 then Length(TEMPLATE_INCOMPLETE, 0) else Length(OK, wish)
    else if keyType == CKK_DES || keyType == CKK_DES2 || keyType == CKK_DES3 then
      if wish != 0 then Length(ATTRIBUTE_READ_ONLY, 0)
      else Length(OK, if keyType == CKK_DES then 8 else if keyType == CKK_DES2 then 16 else 24)
    else if keyType == CKK_AES then
      if wish in {16, 24, 32} then Length(OK, wish) else Length(ATTRIBUTE_VALUE_INVALID, 0)
    else Length(ATTRIBUTE_VALUE_INVALID, 0)
  }

  /** The length of concatenated material, checked against the key type. */
  function ConcatenatedLength(keyType: nat, len: nat): Length {
    if keyType == CKK_GENERIC_SECRET then Length(OK, len)
    else if keyType == CKK_DES || keyType == CKK_DES2 || keyType == CKK_DES3 then
      if len == (if keyType == CKK_DES then 8 else if keyType == CKK_DES2 then 16 else 24) then Length(OK, len)
      else Length(TEMPLATE_INCOMPLETE, 0)
    else if len in {16, 24, 32} then Length(OK, len) else Length(ATTRIBUTE_VALUE_INVALID, 0)
  }

  /** The key material of a stored key; `private` says how an object without the flag is read. */
  function Material(ctx: Context, o: Attrs, private: bool): Option<Bytes> {
    if Flag(o, CKA_PRIVATE, private) then ctx.Decrypt(Text(o, CKA_VALUE)) else Some(Text(o, CKA_VALUE))
  }

  /** The secret to cut the key from; None when key material cannot be decrypted. */
  function RawSecret(ctx: Context, d: Derivation, base: Attrs, other: Attrs): Option<Bytes> {
    match d
    case Agreement(s) => Some(s)
    case EncryptData(s) => Some(s)
    case ConcatData(data, first) =>
      (match Material(ctx, base, false)
       case None => None
       case Some(k) => Some(if first then data + k else k + data))
    case ConcatKey(_) =>
      (match Material(ctx, base, false)
       case None => None
       case Some(k) => match Material(ctx, other, true) case None => None case Some(k') => Some(k + k'))
  }

  /** Agreements cut at the leading end, the other mechanisms at the trailing end. */
  function Cut(d: Derivation, secret: Bytes, len: nat): Bytes
    requires len <= |secret|
  {
    if d.Agreement? then secret[|secret| - len..] else secret[..len]
  }

  function FixParity(parity: byte -> byte, keyType: nat, x: Bytes): Bytes {
    if keyType == CKK_DES || keyType == CKK_DES2 || keyType == CKK_DES3 then seq(|x|, i requires 0 <= i < |x| => parity(x[i])) else x
  }

  /** Concatenating two keys: the claim of never having been extractable is written to the attribute
      just written. */
  function JoinedClaims(base: Attrs, other: Attrs, o: Attrs): Attrs {
    var o1 := if Flag(base, CKA_SENSITIVE, true) || Flag(other, CKA_SENSITIVE, true) then o[CKA_SENSITIVE := BoolV(true)] else o;
    var o2 := if Flag(base, CKA_EXTRACTABLE, true) && Flag(other, CKA_EXTRACTABLE, true) then o1 else o1[CKA_EXTRACTABLE := BoolV(false)];
    var o3 := o2[CKA_ALWAYS_SENSITIVE := BoolV(Flag(base, CKA_ALWAYS_SENSITIVE, false) && Flag(other, CKA_ALWAYS_SENSITIVE, false))];
    o3[CKA_ALWAYS_SENSITIVE := BoolV(Flag(base, CKA_NEVER_EXTRACTABLE, false) && Flag(other, CKA_NEVER_EXTRACTABLE, false))]
  }

  /** Concatenating a key and data. */
  function ExtendedClaims(base: Attrs, o: Attrs): Attrs {
    var o1 := if Flag(base, CKA_SENSITIVE, true) then o[CKA_SENSITIVE := BoolV(true)] else o;
    var o2 := if Flag(base, CKA_EXTRACTABLE, false) then o1 else o1[CKA_EXTRACTABLE := BoolV(false)];
    var o3 := o2[CKA_ALWAYS_SENSITIVE := BoolV(Flag(base, CKA_ALWAYS_SENSITIVE, false))];
    o3[CKA_NEVER_EXTRACTABLE := BoolV(Flag(base, CKA_NEVER_EXTRACTABLE, false))]
  }

  /** The history claims of a derived key. */
  function DeriveClaims(d: Derivation, base: Attrs, other: Attrs, o: Attrs): Attrs {
    if d.ConcatKey? then JoinedClaims(base, other, o)
    else if d.ConcatData? then ExtendedClaims(base, o)
    else
      var o1 := o[CKA_ALWAYS_SENSITIVE := BoolV(Flag(base, CKA_ALWAYS_SENSITIVE, false) && Flag(o, CKA_SENSITIVE, false))];
      o1[CKA_NEVER_EXTRACTABLE := BoolV(Flag(base, CKA_NEVER_EXTRACTABLE, true) && !Flag(o, CKA_EXTRACTABLE, false))]
  }

  /** What is written to a derived key. Agreements compute the check value from the whole secret,
      the other mechanisms from the key itself. */
  function DerivedKey(ctx: Context, p: Plan, d: Derivation, base: Attrs, other: Attrs, raw: Bytes, len: nat,
                      checkValue: bool, parity: byte -> byte, o: Attrs): Option<Attrs> {
    if len > |raw| then None
    else
      var key := FixParity(parity, p.keyType, Cut(d, raw, len));
      var kcv := KcvOf(ctx.token, p.keyType, if d.Agreement? then raw else key);
      if kcv.None? then None
      else Some(StoreKey(ctx, p.isPrivate, DeriveClaims(d, base, other, o[CKA_LOCAL := BoolV(false)]), key,
                         if checkValue then kcv else None))
  }

  function ContributeDerived(ctx: Context, p: Plan, d: Derivation, base: Attrs, other: Attrs, raw: Bytes, len: nat,
                             checkValue: bool, parity: byte -> byte): Attrs -> Option<Attrs> {
    (o: Attrs) => DerivedKey(ctx, p, d, base, other, raw, len, checkValue, parity, o)
  }

  function BaseClass(d: Derivation): nat { if d.Agreement? then CKO_PRIVATE_KEY else CKO_SECRET_KEY }

  /** The derivation proper, from the keys found; the second key is the first again for
      mechanisms that have only one. */
  function DeriveFrom(w: World, ctx: Context, caller: Caller, p: Plan, d: Derivation, es: Template, parity: byte -> byte,
                      id: Id, other: Id): Reply
    requires id in w.items && other in w.items
  {
    var base, second := w.items[id].attrs, w.items[other].attrs;
    var wish := ReadWish(es, true);
    var length := if d.Implicit() && wish.len == 0 then Length(OK, 0) else DerivedLength(p.keyType, wish.len);
    if d.ConcatKey? && Material(ctx, second, true).None? then Refuse(w, GENERAL_ERROR)
    else if wish.rv != OK then Refuse(w, wish.rv)
    else if length.rv != OK then Refuse(w, length.rv)
    else match RawSecret(ctx, d, base, second)
      case None => Refuse(w, GENERAL_ERROR)
      case Some(raw) =>
        var length' := if d.Implicit() && length.len == 0 then ConcatenatedLength(p.keyType, |raw|) else length;
        if length'.rv != OK then Refuse(w, length'.rv)
        else MakeKey(w, ctx, caller, p, es, true, Derive, DerivedFrom({id, other}, d.Agreement?),
                     ContributeDerived(ctx, p, d, base, second, raw, length'.len, wish.checkValue, parity))
  }

  function DeriveKey(w: World, ctx: Context, caller: Caller, h: Handle, d: Derivation, es: Template, parity: byte -> byte): Reply {
    var planned := ReadPlan(es, d.Implicit(),
                            if d.Implicit() then DEFAULT_PLAN.(objClass := CKO_SECRET_KEY, keyType := CKK_GENERIC_SECRET) else DEFAULT_PLAN);
    var p := planned.plan;
    match Lookup(w, h)
    case None => Refuse(w, OBJECT_HANDLE_INVALID)
    case Some(id) =>
      var base := w.items[id].attrs;
      var access := HaveRead(caller.state, IsOnToken(base), IsPrivate(base));
      var access' := HaveWrite(caller.state, p.onToken, p.isPrivate);
      if access != OK then Refuse(w, access)
      else if !Flag(base, CKA_DERIVE, false) then Refuse(w, KEY_FUNCTION_NOT_PERMITTED)
      else if planned.rv != OK then Refuse(w, planned.rv)
      else if p.objClass != CKO_SECRET_KEY then Refuse(w, ATTRIBUTE_VALUE_INVALID)
      else if p.keyType !in {CKK_GENERIC_SECRET, CKK_DES, CKK_DES2, CKK_DES3, CKK_AES} then Refuse(w, TEMPLATE_INCONSISTENT)
      else if access' != OK then Refuse(w, access')
      else if Class(base) != BaseClass(d) then Refuse(w, KEY_TYPE_INCONSISTENT)
      else match if d.ConcatKey? then Lookup(w, d.other) else Some(id)
        case None => Refuse(w, OBJECT_HANDLE_INVALID)
        case Some(other) => DeriveFrom(w, ctx, caller, p, d, es, parity, id, other)
  }

  // ----- one call, and whole runs ---------------------------------------------------------------------------

  datatype Call =
    | CallCreate(es: Template)
    | CallCopy(h: Handle, es: Template)
    | CallSet(h: Handle, es: Template)
    | CallDestroy(h: Handle)
    | CallGenerate(keyType: nat, es: Template, random: nat -> Bytes)
    | CallUnwrap(es: Template, parts: Option<KeyParts>)
    | CallDerive(h: Handle, d: Derivation, es: Template, parity: byte -> byte)
    | CallFind(hits: seq<Id>)
    | CallLogout
    | CallClose(session: nat, last: bool)

  datatype Step = Step(caller: Caller, call: Call)

  function Perform(token: Token, w: World, s: Step): Reply {
    var ctx := Context(token, s.caller.state);
    match s.call
    case CallCreate(es) => CreateObject(w, ctx, s.caller, es, Create)
    case CallCopy(h, es) => CopyObject(w, ctx, s.caller, h, es)
    case CallSet(h, es) => SetAttributeValue(w, ctx, s.caller, h, es)
    case CallDestroy(h) => DestroyObject(w, s.caller, h)
    case CallGenerate(keyType, es, random) => GenerateKey(w, ctx, s.caller, keyType, es, random)
    case CallUnwrap(es, parts) => UnwrapKey(w, ctx, s.caller, es, parts)
    case CallDerive(h, d, es, parity) => DeriveKey(w, ctx, s.caller, h, d, es, parity)
    case CallFind(hits) => FindObjects(w, s.caller, hits)
    case CallLogout => Logout(w)
    case CallClose(session, last) => CloseSession(w, session, last)
  }
}
