/** The attribute policy engine: which attribute may be written by which operation, and what
    a write does to the object. Everything here is a value-level specification; the class
    P11Object in module Objects carries it out on a stored object. */
module Attributes {
  import opened Cryptoki

  // ----- the token's data encryption ------------------------------------------------

  datatype KcvKind = GenericKcv | AesKcv | DesKcv

  /** What the model needs from the token and the crypto library, as parameters: the cipher
      that protects byte strings of private objects, the two check-value computations, and
      the reading of a nested attribute array through the pointers it contains. */
  datatype Token = Token(
    cipher: Bytes -> Bytes,
    plain: Bytes -> Option<Bytes>,
    certificateCheck: Bytes -> Bytes,
    kcv: (KcvKind, Bytes) -> Bytes,
    nested: Bytes -> Option<map<AttrType, Bytes>>)
  {
    /** The contract of the data manager: decryption undoes encryption, ciphertexts are never
        shorter than what they hide, and the empty string stands for itself. */
    ghost predicate Lawful() {
      && plain([]) == Some([])
      && forall x: Bytes :: plain(cipher(x)) == Some(x) && |cipher(x)| >= |x|
    }

    /** Ciphertexts are longer than what they hide, as those that carry an initialisation vector. */
    ghost predicate Expanding() { forall x: Bytes :: |cipher(x)| > |x| }
  }

  /** The setting of one API call: the token, and the state of the calling session. */
  datatype Context = Context(token: Token, session: SessionState) {
    /** The data key is unlocked by a login; without one nothing can be encrypted. */
    function Encrypt(x: Bytes): Option<Bytes> {
      if session.LoggedIn() then Some(token.cipher(x)) else None
    }

    function Decrypt(x: Bytes): Option<Bytes> {
      if session.LoggedIn() then token.plain(x) else None
    }
  }

  // ----- stored values ----------------------------------------------------------------

  datatype Value =
    | BoolV(b: bool)
    | NumberV(n: nat)
    | BytesV(s: Bytes)
    | MechanismsV(ms: set<nat>)
    | MapV(m: map<AttrType, Bytes>)

  type Attrs = map<AttrType, Value>

  function Flag(o: Attrs, t: AttrType, default: bool): bool {
    if t in o && o[t].BoolV? then o[t].b else default
  }

  function Number(o: Attrs, t: AttrType, default: nat): nat {
    if t in o && o[t].NumberV? then o[t].n else default
  }

  function Text(o: Attrs, t: AttrType): Bytes {
    if t in o && o[t].BytesV? then o[t].s else []
  }

  predicate Modifiable(o: Attrs) { Flag(o, CKA_MODIFIABLE, true) }

  predicate Copyable(o: Attrs) { Flag(o, CKA_COPYABLE, true) }

  predicate Sensitive(o: Attrs) { Flag(o, CKA_SENSITIVE, false) }

  predicate Extractable(o: Attrs) { Flag(o, CKA_EXTRACTABLE, true) }

  predicate Trusted(o: Attrs) { Flag(o, CKA_TRUSTED, false) }

  function Class(o: Attrs): nat { Number(o, CKA_CLASS, CKO_VENDOR_DEFINED) }

  function KeyType(o: Attrs): nat { Number(o, CKA_KEY_TYPE, CKK_VENDOR_DEFINED) }

  // ----- templates ----------------------------------------------------------------------

  /** The pValue/ulValueLen pair of a template entry: a null pointer with some announced
      length, or a pointer to that many bytes. */
  datatype Payload = NullPtr(len: nat) | Memory(bytes: Bytes) {
    function Length(): nat { match this case NullPtr(n) => n case Memory(bs) => |bs| }

    function Data(): Bytes { match this case NullPtr(_) => [] case Memory(bs) => bs }

    /** A CK_BBOOL is true exactly when its byte is not zero. */
    predicate AsBool() { Data() != [] && Data()[0] != 0 }

    function AsNumber(): nat { FromWord(Data()) }
  }

  datatype Entry = Entry(t: AttrType, p: Payload)

  type Template = seq<Entry>

  // ----- the policy table ------------------------------------------------------------------

  datatype Op = Copy | Create | Derive | Generate | Set | Unwrap {
    /** Operations that the modifiable and trusted checks do not apply to. */
    predicate Making() { Create? || Generate? || Unwrap? }

    /** Operations that change an object that already has a history. */
    predicate Changing() { Set? || Copy? }
  }

  /** The footnotes of table 10 in section 4.2 of PKCS #11 v2.40 that the engine consults,
      and the engine's own additions. */
  datatype Check =
    | Ck1 | Ck2 | Ck3 | Ck4 | Ck5 | Ck6 | Ck7 | Ck8 | Ck9 | Ck10 | Ck11 | Ck12
    | Ck14 | Ck15 | Ck16 | Ck17

  datatype AttrSpec = AttrSpec(size: Option<nat>, checks: set<Check>) {
    predicate Mandatory(op: Op) {
      || (Ck1 in checks && op.Create?)
      || (Ck3 in checks && op.Generate?)
      || (Ck5 in checks && op.Unwrap?)
    }

    predicate Prohibited(op: Op) {
      || (Ck2 in checks && op.Create?)
      || (Ck4 in checks && op.Generate?)
      || (Ck6 in checks && op.Unwrap?)
    }

    /** May the attribute be written by this operation at all (prohibitions apart)? */
    predicate Writable(op: Op) {
      || (op.Changing() && (Ck8 in checks || Ck11 in checks))
      || (op.Copy? && Ck17 in checks)
      || op.Create? || op.Derive? || op.Generate? || op.Unwrap?
    }
  }

  /** How the value of an attribute is stored and what writing it entails. */
  datatype Kind =
    | IdentityKind                       // compared, never written
    | FlagKind | CopyableKind | TrustedKind | SensitiveKind | ExtractableKind
    | WrapTrustedKind | AlwaysAuthKind | ReadOnlyFlagKind
    | NumberKind | ReadOnlyNumberKind
    | GenerateNumberKind | GenerateCreateNumberKind | GenerateDeriveNumberKind
    | TextKind | DateKind | ValueKind | ModulusKind | PrimeKind | CheckValueKind
    | MechanismsKind | NestedKind
  {
    predicate IsFlag() {
      || FlagKind? || CopyableKind? || TrustedKind? || SensitiveKind? || ExtractableKind?
      || WrapTrustedKind? || AlwaysAuthKind? || ReadOnlyFlagKind?
    }

    predicate IsNumber() {
      || IdentityKind? || NumberKind? || ReadOnlyNumberKind? || GenerateNumberKind?
      || GenerateCreateNumberKind? || GenerateDeriveNumberKind?
    }

    predicate IsBytes() {
      || TextKind? || DateKind? || ValueKind? || ModulusKind? || PrimeKind? || CheckValueKind?
    }

    predicate Admits(v: Value) {
      match v
      case BoolV(_) => IsFlag()
      case NumberV(_) => IsNumber()
      case BytesV(_) => IsBytes()
      case MechanismsV(_) => MechanismsKind?
      case MapV(_) => NestedKind?
    }
  }

  function KindOf(t: AttrType): Kind {
    if t == CKA_CLASS || t == CKA_KEY_TYPE || t == CKA_CERTIFICATE_TYPE then IdentityKind
    else if t == CKA_TOKEN || t == CKA_PRIVATE || t == CKA_MODIFIABLE || t == CKA_DESTROYABLE
         || t == CKA_DERIVE || t == CKA_ENCRYPT || t == CKA_VERIFY || t == CKA_VERIFY_RECOVER
         || t == CKA_WRAP || t == CKA_DECRYPT || t == CKA_SIGN || t == CKA_SIGN_RECOVER
         || t == CKA_UNWRAP then FlagKind
    else if t == CKA_COPYABLE then CopyableKind
    else if t == CKA_TRUSTED then TrustedKind
    else if t == CKA_SENSITIVE then SensitiveKind
    else if t == CKA_EXTRACTABLE then ExtractableKind
    else if t == CKA_WRAP_WITH_TRUSTED then WrapTrustedKind
    else if t == CKA_ALWAYS_AUTHENTICATE then AlwaysAuthKind
    else if t == CKA_LOCAL || t == CKA_ALWAYS_SENSITIVE || t == CKA_NEVER_EXTRACTABLE then ReadOnlyFlagKind
    else if t == CKA_KEY_GEN_MECHANISM then ReadOnlyNumberKind
    else if t == CKA_CERTIFICATE_CATEGORY || t == CKA_JAVA_MIDP_SECURITY_DOMAIN
         || t == CKA_NAME_HASH_ALGORITHM then NumberKind
    else if t == CKA_MODULUS_BITS || t == CKA_PRIME_BITS || t == CKA_VALUE_BITS then GenerateNumberKind
    else if t == CKA_PARAMETER_SET then GenerateCreateNumberKind
    else if t == CKA_VALUE_LEN then GenerateDeriveNumberKind
    else if t == CKA_START_DATE || t == CKA_END_DATE then DateKind
    else if t == CKA_VALUE then ValueKind
    else if t == CKA_MODULUS then ModulusKind
    else if t == CKA_PRIME then PrimeKind
    else if t == CKA_CHECK_VALUE then CheckValueKind
    else if t == CKA_ALLOWED_MECHANISMS then MechanismsKind
    else if t == CKA_WRAP_TEMPLATE || t == CKA_UNWRAP_TEMPLATE then NestedKind
    else TextKind
  }

  /** Type, size and footnotes that an attribute has in every object class. */
  function BaseSpec(t: AttrType): AttrSpec {
    AttrSpec(BaseSize(t), BaseChecks(t))
  }

  function BaseSize(t: AttrType): Option<nat> {
    var k := KindOf(t);
    if k.IsFlag() then Some(SIZEOF_BBOOL) else if k.IsNumber() then Some(SIZEOF_ULONG) else None
  }

  function BaseChecks(t: AttrType): set<Check> {
    if t == CKA_CLASS || t == CKA_KEY_TYPE || t == CKA_CERTIFICATE_TYPE || t == CKA_PRIME
    || t == CKA_SUBPRIME || t == CKA_BASE || t == CKA_EC_PARAMS || t == CKA_PARAMETER_SET
    || t == CKA_GOSTR3410_PARAMS then {Ck1}
    else if t == CKA_TOKEN || t == CKA_PRIVATE || t == CKA_MODIFIABLE || t == CKA_DESTROYABLE then {Ck17}
    else if t == CKA_LABEL || t == CKA_ID || t == CKA_ISSUER || t == CKA_SERIAL_NUMBER
         || t == CKA_DERIVE then {Ck8}
    else if t == CKA_COPYABLE then {Ck12}
    else if t == CKA_TRUSTED then {Ck10}
    else if t == CKA_URL then {Ck15}
    else if t == CKA_HASH_OF_SUBJECT_PUBLIC_KEY || t == CKA_HASH_OF_ISSUER_PUBLIC_KEY then {Ck16}
    else if t == CKA_ENCRYPT || t == CKA_VERIFY || t == CKA_VERIFY_RECOVER || t == CKA_WRAP
         || t == CKA_DECRYPT || t == CKA_SIGN || t == CKA_SIGN_RECOVER || t == CKA_UNWRAP then {Ck8, Ck9}
    else if t == CKA_LOCAL then {Ck2, Ck4}
    else if t == CKA_KEY_GEN_MECHANISM || t == CKA_ALWAYS_SENSITIVE
         || t == CKA_NEVER_EXTRACTABLE then {Ck2, Ck4, Ck6}
    else if t == CKA_SENSITIVE then {Ck8, Ck9, Ck11}
    else if t == CKA_EXTRACTABLE then {Ck8, Ck9, Ck12}
    else if t == CKA_WRAP_WITH_TRUSTED then {Ck11}
    else if t == CKA_MODULUS || t == CKA_EC_POINT then {Ck1, Ck4}
    else if t == CKA_PRIVATE_EXPONENT then {Ck1, Ck4, Ck6, Ck7}
    else if t == CKA_PRIME_1 || t == CKA_PRIME_2 || t == CKA_EXPONENT_1 || t == CKA_EXPONENT_2
         || t == CKA_COEFFICIENT || t == CKA_SEED then {Ck4, Ck6, Ck7}
    else if t == CKA_MODULUS_BITS || t == CKA_PRIME_BITS || t == CKA_VALUE_LEN then {Ck2, Ck3}
    else if t == CKA_VALUE_BITS then {Ck2, Ck6}
    else if t == CKA_GOSTR3411_PARAMS then {Ck1, Ck8}
    else {}
  }

  /** The value an attribute gets when an object is made without it. */
  function DefaultOf(t: AttrType): Value {
    match KindOf(t)
    case IdentityKind =>
      NumberV(if t == CKA_CLASS then CKO_VENDOR_DEFINED
              else if t == CKA_KEY_TYPE then CKK_VENDOR_DEFINED else CKC_VENDOR_DEFINED)
    case FlagKind => BoolV(t != CKA_TOKEN && t != CKA_DERIVE)
    case CopyableKind => BoolV(true)
    case TrustedKind | SensitiveKind | ExtractableKind | WrapTrustedKind | AlwaysAuthKind => BoolV(false)
    case ReadOnlyFlagKind => BoolV(t == CKA_NEVER_EXTRACTABLE)
    case ReadOnlyNumberKind => NumberV(CK_UNAVAILABLE_INFORMATION)
    case NumberKind => NumberV(if t == CKA_NAME_HASH_ALGORITHM then CKM_SHA_1 else 0)
    case GenerateNumberKind | GenerateCreateNumberKind | GenerateDeriveNumberKind => NumberV(0)
    case TextKind | DateKind | ValueKind | ModulusKind | PrimeKind | CheckValueKind => BytesV([])
    case MechanismsKind => MechanismsV({})
    case NestedKind => MapV(map[])
  }

  // ----- writing one attribute ----------------------------------------------------------------

  /** The object after an attempted write, and the return code. A failing write may still
      have changed the object: undoing that is the business of the transaction around it. */
  datatype Outcome = Outcome(attrs: Attrs, rv: Rv)

  /** The form in which a byte string is stored, if the token can produce it. */
  function Sealed(ctx: Context, isPrivate: bool, p: Payload): Option<Bytes> {
    var value := if isPrivate then ctx.Encrypt(p.Data()) else Some(p.Data());
    if value.Some? && |value.value| < p.Length() then None else value
  }

  /** Position of the highest set bit, counting from one: the bit length of a big-endian number. */
  function BitLength(bs: Bytes): nat {
    if |bs| == 0 then 0
    else if bs[0] == 0 then BitLength(bs[1..])
    else 8 * (|bs| - 1) + ByteBits(bs[0])
  }

  function ByteBits(b: byte): nat {
    if b >= 128 then 8 else if b >= 64 then 7 else if b >= 32 then 6 else if b >= 16 then 5
    else if b >= 8 then 4 else if b >= 4 then 3 else if b >= 2 then 2 else if b >= 1 then 1 else 0
  }

  /** The check value that belongs to key material of the given type, if the engine knows one. */
  function KcvOf(token: Token, keyType: nat, bits: Bytes): Option<Bytes> {
    if keyType == CKK_GENERIC_SECRET || keyType == CKK_MD5_HMAC || keyType == CKK_SHA_1_HMAC
    || keyType == CKK_SHA224_HMAC || keyType == CKK_SHA256_HMAC || keyType == CKK_SHA384_HMAC
    || keyType == CKK_SHA512_HMAC then Some(token.kcv(GenericKcv, bits))
    else if keyType == CKK_AES then Some(token.kcv(AesKcv, bits))
    else if keyType == CKK_DES || keyType == CKK_DES2 || keyType == CKK_DES3 then Some(token.kcv(DesKcv, bits))
    else None
  }

  function MechanismSet(bs: Bytes): set<nat>
    decreases |bs|
  {
    if |bs| < SIZEOF_ULONG then {}
    else {FromWord(bs[..SIZEOF_ULONG])} + MechanismSet(bs[SIZEOF_ULONG..])
  }

  function WriteFlag(o: Attrs, t: AttrType, p: Payload): Outcome {
    if p.Length() != SIZEOF_BBOOL then Outcome(o, ATTRIBUTE_VALUE_INVALID)
    else Outcome(o[t := BoolV(p.AsBool())], OK)
  }

  function WriteNumber(o: Attrs, t: AttrType, p: Payload): Outcome {
    if p.Length() != SIZEOF_ULONG then Outcome(o, ATTRIBUTE_VALUE_INVALID)
    else Outcome(o[t := NumberV(p.AsNumber())], OK)
  }

  /** Sensitivity only goes up once the object exists; lowering it ends the claim that the
      key has always been sensitive, and a key born sensitive starts that claim. */
  function WriteSensitive(o: Attrs, p: Payload, op: Op): Outcome {
    if op.Changing() && Sensitive(o) then Outcome(o, ATTRIBUTE_READ_ONLY)
    else if p.Length() != SIZEOF_BBOOL then Outcome(o, ATTRIBUTE_VALUE_INVALID)
    else if !p.AsBool() then
      Outcome(o[CKA_SENSITIVE := BoolV(false)][CKA_ALWAYS_SENSITIVE := BoolV(false)], OK)
    else if op.Generate? || op.Derive? then
      Outcome(o[CKA_SENSITIVE := BoolV(true)][CKA_ALWAYS_SENSITIVE := BoolV(true)], OK)
    else
      Outcome(o[CKA_SENSITIVE := BoolV(true)], OK)
  }

  /** Extractability only goes down once the object exists; granting it ends the claim that
      the key has never been extractable. */
  function WriteExtractable(o: Attrs, p: Payload, op: Op): Outcome {
    if op.Changing() && !Flag(o, CKA_EXTRACTABLE, false) then Outcome(o, ATTRIBUTE_READ_ONLY)
    else if p.Length() != SIZEOF_BBOOL then Outcome(o, ATTRIBUTE_VALUE_INVALID)
    else if !p.AsBool() then Outcome(o[CKA_EXTRACTABLE := BoolV(false)], OK)
    else Outcome(o[CKA_EXTRACTABLE := BoolV(true)][CKA_NEVER_EXTRACTABLE := BoolV(false)], OK)
  }

  function WriteText(ctx: Context, t: AttrType, isPrivate: bool, o: Attrs, p: Payload): Outcome {
    match Sealed(ctx, isPrivate, p)
    case None => Outcome(o, GENERAL_ERROR)
    case Some(value) => Outcome(o[t := BytesV(value)], OK)
  }

  /** Writing bytes whose bit length is recorded beside them when the object is created. */
  function WriteMeasured(ctx: Context, t: AttrType, bitsAttr: AttrType, isPrivate: bool, o: Attrs, p: Payload, op: Op): Outcome {
    match Sealed(ctx, isPrivate, p)
    case None => Outcome(o, GENERAL_ERROR)
    case Some(value) =>
      var o1 := o[t := BytesV(value)];
      if op.Create? && bitsAttr in o1 then Outcome(o1[bitsAttr := NumberV(BitLength(p.Data()))], OK)
      else Outcome(o1, OK)
  }

  /** The part of a CKA_VALUE write that records the lengths. */
  function RecordLengths(o: Attrs, data: Bytes, op: Op): Attrs {
    if op.Create? || op.Unwrap? then
      var o1 := if CKA_VALUE_LEN in o then o[CKA_VALUE_LEN := NumberV(|data|)] else o;
      if CKA_VALUE_BITS in o1 then o1[CKA_VALUE_BITS := NumberV(BitLength(data))] else o1
    else o
  }

  /** Stores a check value computed by the engine, encrypted when the object is private. */
  function StoreCheck(ctx: Context, isPrivate: bool, o: Attrs, check: Bytes): Outcome {
    if isPrivate then
      match ctx.Encrypt(check)
      case None => Outcome(o, GENERAL_ERROR)
      case Some(c) => Outcome(o[CKA_CHECK_VALUE := BytesV(c)], OK)
    else Outcome(o[CKA_CHECK_VALUE := BytesV(check)], OK)
  }

  /** The check value that a freshly written CKA_VALUE brings along: always for a certificate,
      on creation for a secret key. */
  function StampCheck(ctx: Context, isPrivate: bool, o: Attrs, data: Bytes, op: Op): Outcome {
    if Class(o) == CKO_CERTIFICATE then StoreCheck(ctx, isPrivate, o, ctx.token.certificateCheck(data))
    else if op.Create? && Class(o) == CKO_SECRET_KEY then
      if KeyType(o) == CKK_GOST28147 then StoreCheck(ctx, isPrivate, o, [])
      else match KcvOf(ctx.token, KeyType(o), data)
        case None => Outcome(o, GENERAL_ERROR)
        case Some(check) => StoreCheck(ctx, isPrivate, o, check)
    else Outcome(o, OK)
  }

  function WriteValue(ctx: Context, isPrivate: bool, o: Attrs, p: Payload, op: Op): Outcome {
    match Sealed(ctx, isPrivate, p)
    case None => Outcome(o, GENERAL_ERROR)
    case Some(value) =>
      StampCheck(ctx, isPrivate, RecordLengths(o[CKA_VALUE := BytesV(value)], p.Data(), op), p.Data(), op)
  }

  /** A check value may be cleared; otherwise it must be the one that belongs to the key. */
  function WriteCheckValue(ctx: Context, isPrivate: bool, o: Attrs, p: Payload): Outcome {
    match Sealed(ctx, isPrivate, p)
    case None => Outcome(o, GENERAL_ERROR)
    case Some(value) =>
      if p.Length() == 0 then Outcome(o[CKA_CHECK_VALUE := BytesV(value)], OK)
      else
        var bits := if isPrivate then ctx.Decrypt(Text(o, CKA_VALUE)) else Some(Text(o, CKA_VALUE));
        if bits.None? then Outcome(o, GENERAL_ERROR)
        else
          var check := if KeyType(o) == CKK_GOST28147 then Some(p.Data()) else KcvOf(ctx.token, KeyType(o), bits.value);
          if check.None? then Outcome(o, GENERAL_ERROR)
          else if p.Data() != check.value then Outcome(o, ATTRIBUTE_VALUE_INVALID)
          else Outcome(o[CKA_CHECK_VALUE := BytesV(value)], OK)
  }

  function Write(ctx: Context, t: AttrType, isPrivate: bool, o: Attrs, p: Payload, op: Op): Outcome {
    match KindOf(t)
    case IdentityKind =>
      if p.Length() != SIZEOF_ULONG then Outcome(o, ATTRIBUTE_VALUE_INVALID)
      else if Number(o, t, DefaultOf(t).n) != p.AsNumber() then Outcome(o, TEMPLATE_INCONSISTENT)
      else Outcome(o, OK)
    case FlagKind => WriteFlag(o, t, p)
    case CopyableKind =>
      if p.Length() != SIZEOF_BBOOL then Outcome(o, ATTRIBUTE_VALUE_INVALID)
      else if !p.AsBool() then Outcome(o[t := BoolV(false)], OK)
      else if !Copyable(o) then Outcome(o, ATTRIBUTE_READ_ONLY)
      else Outcome(o, OK)
    case TrustedKind =>
      if p.Length() == SIZEOF_BBOOL && p.AsBool() && !ctx.session.RwSo? then Outcome(o, ATTRIBUTE_READ_ONLY)
      else WriteFlag(o, t, p)
    case SensitiveKind => WriteSensitive(o, p, op)
    case ExtractableKind => WriteExtractable(o, p, op)
    case WrapTrustedKind =>
      if op.Changing() && Flag(o, t, false) then Outcome(o, ATTRIBUTE_READ_ONLY)
      else WriteFlag(o, t, p)
    case AlwaysAuthKind =>
      if p.Length() == SIZEOF_BBOOL && p.AsBool() && !isPrivate then Outcome(o, TEMPLATE_INCONSISTENT)
      else WriteFlag(o, t, p)
    case ReadOnlyFlagKind | ReadOnlyNumberKind => Outcome(o, ATTRIBUTE_READ_ONLY)
    case NumberKind => WriteNumber(o, t, p)
    case GenerateNumberKind =>
      if !op.Generate? then Outcome(o, ATTRIBUTE_READ_ONLY) else WriteNumber(o, t, p)
    case GenerateCreateNumberKind =>
      if !op.Generate? && !op.Create? then Outcome(o, ATTRIBUTE_READ_ONLY) else WriteNumber(o, t, p)
    case GenerateDeriveNumberKind =>
      if !op.Generate? && !op.Derive? then Outcome(o, ATTRIBUTE_READ_ONLY) else WriteNumber(o, t, p)
    case TextKind => WriteText(ctx, t, isPrivate, o, p)
    case DateKind =>
      // dates are stored as given, whether or not the object is private
      if p.Length() != 8 && p.Length() != 0 then Outcome(o, ATTRIBUTE_VALUE_INVALID)
      else Outcome(o[t := BytesV(p.Data())], OK)
    case ValueKind => WriteValue(ctx, isPrivate, o, p, op)
    case ModulusKind => WriteMeasured(ctx, t, CKA_MODULUS_BITS, isPrivate, o, p, op)
    case PrimeKind => WriteMeasured(ctx, t, CKA_PRIME_BITS, isPrivate, o, p, op)
    case CheckValueKind => WriteCheckValue(ctx, isPrivate, o, p)
    case MechanismsKind =>
      if p.Length() == 0 || p.Length() % SIZEOF_ULONG != 0 then Outcome(o, ATTRIBUTE_VALUE_INVALID)
      else Outcome(o[t := MechanismsV(MechanismSet(p.Data()))], OK)
    case NestedKind =>
      if p.Length() % SIZEOF_ATTRIBUTE != 0 then Outcome(o, ATTRIBUTE_VALUE_INVALID)
      else match ctx.token.nested(p.Data())
        case None => Outcome(o, ATTRIBUTE_VALUE_INVALID)
        case Some(m) => Outcome(o[t := MapV(m)], OK)
  }

  /** May the operation write the attribute with this payload? The checks that precede every write. */
  function Refusal(spec: AttrSpec, o: Attrs, p: Payload, op: Op): Rv {
    if p.NullPtr? && p.len != 0 then ATTRIBUTE_VALUE_INVALID
    else if spec.size.Some? && spec.size.value != p.Length() then ATTRIBUTE_VALUE_INVALID
    else if !Modifiable(o) && !op.Making() then ATTRIBUTE_READ_ONLY
    else if Trusted(o) && !op.Making() && Class(o) == CKO_CERTIFICATE then ATTRIBUTE_READ_ONLY
    else if spec.Prohibited(op) || !spec.Writable(op) then ATTRIBUTE_READ_ONLY
    else OK
  }

  /** Writes one attribute if the policy allows it. */
  function Update(ctx: Context, spec: AttrSpec, t: AttrType, isPrivate: bool, o: Attrs, p: Payload, op: Op): Outcome {
    var refusal := Refusal(spec, o, p, op);
    if refusal != OK then Outcome(o, refusal) else Write(ctx, t, isPrivate, o, p, op)
  }
}
