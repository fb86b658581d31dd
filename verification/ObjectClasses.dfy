/** The object classes: which attributes each has, with which footnotes, and how an object
    of the class looks before any template is applied. */
module ObjectClasses {
  import opened Cryptoki
  import opened Attributes

  datatype ClassId =
    | DataObject
    | X509Certificate
    | OpenPgpCertificate
    | PublicKey(keyType: nat)
    | PrivateKey(keyType: nat)
    | SecretKey(keyType: nat)
    | DomainParameters(keyType: nat)

  predicate IsGenericKeyType(k: nat) {
    || k == CKK_GENERIC_SECRET || k == CKK_MD5_HMAC || k == CKK_SHA_1_HMAC || k == CKK_SHA224_HMAC
    || k == CKK_SHA256_HMAC || k == CKK_SHA384_HMAC || k == CKK_SHA512_HMAC
  }

  predicate IsDesKeyType(k: nat) { k == CKK_DES || k == CKK_DES2 || k == CKK_DES3 }

  predicate IsPairKeyType(k: nat) {
    || k == CKK_RSA || k == CKK_DSA || k == CKK_EC || k == CKK_DH || k == CKK_GOSTR3410
    || k == CKK_EC_EDWARDS || k == CKK_ML_DSA
  }

  /** The class an object belongs to, or None where the engine has no class for it. */
  function ClassOf(objClass: nat, keyType: nat, certType: nat): Option<ClassId> {
    if objClass == CKO_DATA then Some(DataObject)
    else if objClass == CKO_CERTIFICATE then
      if certType == CKC_X_509 then Some(X509Certificate)
      else if certType == CKC_OPENPGP then Some(OpenPgpCertificate) else None
    else if objClass == CKO_PUBLIC_KEY then if IsPairKeyType(keyType) then Some(PublicKey(keyType)) else None
    else if objClass == CKO_PRIVATE_KEY then if IsPairKeyType(keyType) then Some(PrivateKey(keyType)) else None
    else if objClass == CKO_SECRET_KEY then
      if IsGenericKeyType(keyType) || keyType == CKK_AES || IsDesKeyType(keyType) || keyType == CKK_GOST28147
      then Some(SecretKey(keyType)) else None
    else if objClass == CKO_DOMAIN_PARAMETERS then
      if keyType == CKK_DSA || keyType == CKK_DH then Some(DomainParameters(keyType)) else None
    else None
  }

  /** The class of a stored object, read off its own attributes. */
  function StoredClass(o: Attrs): Option<ClassId> {
    ClassOf(Class(o),
            if CKA_KEY_TYPE in o then Number(o, CKA_KEY_TYPE, CKK_RSA) else CKK_RSA,
            if CKA_CERTIFICATE_TYPE in o then Number(o, CKA_CERTIFICATE_TYPE, CKC_X_509) else CKC_X_509)
  }

  // ----- the tables -----------------------------------------------------------------------

  /** One attribute of a class, with the footnotes the class adds to the attribute's own. */
  datatype Decl = Decl(t: AttrType, extra: set<Check>) {
    function Spec(): AttrSpec { AttrSpec(BaseSize(t), BaseChecks(t) + extra) }
  }

  const SECRET: set<Check> := {Ck1, Ck4, Ck6, Ck7}

  const ANY_OBJECT: seq<Decl> := [
    Decl(CKA_CLASS, {}), Decl(CKA_TOKEN, {}), Decl(CKA_PRIVATE, {}), Decl(CKA_MODIFIABLE, {}),
    Decl(CKA_LABEL, {}), Decl(CKA_COPYABLE, {}), Decl(CKA_DESTROYABLE, {})]

  const DATA_OBJECT: seq<Decl> := [Decl(CKA_APPLICATION, {}), Decl(CKA_OBJECT_ID, {}), Decl(CKA_VALUE, {})]

  const CERTIFICATE: seq<Decl> := [
    Decl(CKA_CERTIFICATE_TYPE, {}), Decl(CKA_TRUSTED, {}), Decl(CKA_CERTIFICATE_CATEGORY, {}),
    Decl(CKA_CHECK_VALUE, {}), Decl(CKA_START_DATE, {}), Decl(CKA_END_DATE, {}), Decl(CKA_PUBLIC_KEY_INFO, {})]

  const OPENPGP_CERTIFICATE: seq<Decl> := [
    Decl(CKA_SUBJECT, {Ck1}), Decl(CKA_ID, {}), Decl(CKA_ISSUER, {}), Decl(CKA_SERIAL_NUMBER, {}),
    Decl(CKA_VALUE, {Ck1, Ck14}), Decl(CKA_URL, {})]

  const X509_CERTIFICATE: seq<Decl> := OPENPGP_CERTIFICATE + [
    Decl(CKA_HASH_OF_SUBJECT_PUBLIC_KEY, {}), Decl(CKA_HASH_OF_ISSUER_PUBLIC_KEY, {}),
    Decl(CKA_JAVA_MIDP_SECURITY_DOMAIN, {}), Decl(CKA_NAME_HASH_ALGORITHM, {})]

  const ANY_KEY: seq<Decl> := [
    Decl(CKA_KEY_TYPE, {Ck5}), Decl(CKA_ID, {}), Decl(CKA_START_DATE, {Ck8}), Decl(CKA_END_DATE, {Ck8}),
    Decl(CKA_DERIVE, {}), Decl(CKA_LOCAL, {Ck6}), Decl(CKA_KEY_GEN_MECHANISM, {}), Decl(CKA_ALLOWED_MECHANISMS, {})]

  const PUBLIC_KEY: seq<Decl> := [
    Decl(CKA_SUBJECT, {Ck8}), Decl(CKA_ENCRYPT, {}), Decl(CKA_VERIFY, {}), Decl(CKA_VERIFY_RECOVER, {}),
    Decl(CKA_WRAP, {}), Decl(CKA_TRUSTED, {}), Decl(CKA_WRAP_TEMPLATE, {}), Decl(CKA_PUBLIC_KEY_INFO, {})]

  const PRIVATE_KEY: seq<Decl> := [
    Decl(CKA_SUBJECT, {Ck8}), Decl(CKA_SENSITIVE, {}), Decl(CKA_DECRYPT, {}), Decl(CKA_SIGN, {}),
    Decl(CKA_SIGN_RECOVER, {}), Decl(CKA_UNWRAP, {}), Decl(CKA_EXTRACTABLE, {}), Decl(CKA_ALWAYS_SENSITIVE, {}),
    Decl(CKA_NEVER_EXTRACTABLE, {}), Decl(CKA_WRAP_WITH_TRUSTED, {}), Decl(CKA_UNWRAP_TEMPLATE, {}),
    Decl(CKA_ALWAYS_AUTHENTICATE, {}), Decl(CKA_PUBLIC_KEY_INFO, {Ck8})]

  const SECRET_KEY: seq<Decl> := [
    Decl(CKA_SENSITIVE, {}), Decl(CKA_ENCRYPT, {}), Decl(CKA_DECRYPT, {}), Decl(CKA_SIGN, {}), Decl(CKA_VERIFY, {}),
    Decl(CKA_WRAP, {}), Decl(CKA_UNWRAP, {}), Decl(CKA_EXTRACTABLE, {}), Decl(CKA_ALWAYS_SENSITIVE, {}),
    Decl(CKA_NEVER_EXTRACTABLE, {}), Decl(CKA_CHECK_VALUE, {Ck8}), Decl(CKA_WRAP_WITH_TRUSTED, {}),
    Decl(CKA_TRUSTED, {}), Decl(CKA_WRAP_TEMPLATE, {}), Decl(CKA_UNWRAP_TEMPLATE, {})]

  function PublicKeyPart(k: nat): seq<Decl> {
    if k == CKK_RSA then
      [Decl(CKA_MODULUS, {}), Decl(CKA_MODULUS_BITS, {}), Decl(CKA_PUBLIC_EXPONENT, {Ck1})]
    else if k == CKK_DSA then
      [Decl(CKA_PRIME, {Ck3}), Decl(CKA_SUBPRIME, {Ck3}), Decl(CKA_BASE, {Ck3}), Decl(CKA_VALUE, {Ck1, Ck4})]
    else if k == CKK_EC || k == CKK_EC_EDWARDS then
      [Decl(CKA_EC_PARAMS, {Ck3}), Decl(CKA_EC_POINT, {})]
    else if k == CKK_DH then
      [Decl(CKA_PRIME, {Ck3}), Decl(CKA_BASE, {Ck3}), Decl(CKA_VALUE, {Ck1, Ck4})]
    else if k == CKK_GOSTR3410 then
      [Decl(CKA_VALUE, {Ck1, Ck4}), Decl(CKA_GOSTR3410_PARAMS, {Ck3}), Decl(CKA_GOSTR3411_PARAMS, {Ck3}),
       Decl(CKA_GOST28147_PARAMS, {Ck8})]
    else
      [Decl(CKA_PARAMETER_SET, {Ck3}), Decl(CKA_VALUE, {Ck1, Ck4})]
  }

  function PrivateKeyPart(k: nat): seq<Decl> {
    if k == CKK_RSA then
      [Decl(CKA_MODULUS, {Ck6}), Decl(CKA_PUBLIC_EXPONENT, {Ck4, Ck6}), Decl(CKA_PRIVATE_EXPONENT, {}),
       Decl(CKA_PRIME_1, {}), Decl(CKA_PRIME_2, {}), Decl(CKA_EXPONENT_1, {}), Decl(CKA_EXPONENT_2, {}),
       Decl(CKA_COEFFICIENT, {})]
    else if k == CKK_DSA then
      [Decl(CKA_PRIME, {Ck4, Ck6}), Decl(CKA_SUBPRIME, {Ck4, Ck6}), Decl(CKA_BASE, {Ck4, Ck6}), Decl(CKA_VALUE, SECRET)]
    else if k == CKK_EC || k == CKK_EC_EDWARDS then
      [Decl(CKA_EC_PARAMS, {Ck4, Ck6}), Decl(CKA_VALUE, SECRET)]
    else if k == CKK_DH then
      [Decl(CKA_PRIME, {Ck4, Ck6}), Decl(CKA_BASE, {Ck4, Ck6}), Decl(CKA_VALUE, SECRET), Decl(CKA_VALUE_BITS, {})]
    else if k == CKK_GOSTR3410 then
      [Decl(CKA_VALUE, SECRET), Decl(CKA_GOSTR3410_PARAMS, {Ck4, Ck6}), Decl(CKA_GOSTR3411_PARAMS, {Ck4, Ck6}),
       Decl(CKA_GOST28147_PARAMS, {Ck4, Ck6, Ck8})]
    else
      [Decl(CKA_PARAMETER_SET, {Ck4, Ck6}), Decl(CKA_SEED, {}), Decl(CKA_VALUE, SECRET)]
  }

  function SecretKeyPart(k: nat): seq<Decl> {
    if IsGenericKeyType(k) then [Decl(CKA_VALUE, SECRET), Decl(CKA_VALUE_LEN, {})]
    else if k == CKK_AES then [Decl(CKA_VALUE, SECRET), Decl(CKA_VALUE_LEN, {Ck6})]
    else if IsDesKeyType(k) then [Decl(CKA_VALUE, SECRET)]
    else [Decl(CKA_VALUE, SECRET), Decl(CKA_GOST28147_PARAMS, {Ck1, Ck3, Ck5})]
  }

  function DomainPart(k: nat): seq<Decl> {
    [Decl(CKA_KEY_TYPE, {}), Decl(CKA_LOCAL, {})] +
    if k == CKK_DSA then [Decl(CKA_PRIME, {Ck4}), Decl(CKA_SUBPRIME, {Ck4}), Decl(CKA_BASE, {Ck4}), Decl(CKA_PRIME_BITS, {})]
    else [Decl(CKA_PRIME, {Ck4}), Decl(CKA_BASE, {Ck4}), Decl(CKA_PRIME_BITS, {})]
  }

  /** What a class adds to the attributes that every object has. */
  function OwnPart(c: ClassId): seq<Decl> {
    match c
    case DataObject => DATA_OBJECT
    case X509Certificate => CERTIFICATE + X509_CERTIFICATE
    case OpenPgpCertificate => CERTIFICATE + OPENPGP_CERTIFICATE
    case PublicKey(k) => ANY_KEY + PUBLIC_KEY + PublicKeyPart(k)
    case PrivateKey(k) => ANY_KEY + PRIVATE_KEY + PrivateKeyPart(k)
    case SecretKey(k) => ANY_KEY + SECRET_KEY + SecretKeyPart(k)
    case DomainParameters(k) => DomainPart(k)
  }

  /** All attributes of a class, in the order in which initialisation adds them. */
  function Table(c: ClassId): seq<Decl> { ANY_OBJECT + OwnPart(c) }

  type Schema = map<AttrType, AttrSpec>

  function SchemaFrom(ds: seq<Decl>): Schema {
    if |ds| == 0 then map[] else SchemaFrom(ds[..|ds| - 1])[ds[|ds| - 1].t := ds[|ds| - 1].Spec()]
  }

  /** The `attributes` map of an initialised object of the class. */
  function SchemaOf(c: ClassId): Schema { SchemaFrom(Table(c)) }

  // ----- initialisation -------------------------------------------------------------------

  function ClassNumber(c: ClassId): nat {
    match c
    case DataObject => CKO_DATA
    case X509Certificate | OpenPgpCertificate => CKO_CERTIFICATE
    case PublicKey(_) => CKO_PUBLIC_KEY
    case PrivateKey(_) => CKO_PRIVATE_KEY
    case SecretKey(_) => CKO_SECRET_KEY
    case DomainParameters(_) => CKO_DOMAIN_PARAMETERS
  }

  /** The attributes that name the class itself, with the values initialisation forces on them. */
  function ForceIdentity(c: ClassId, o: Attrs): Attrs {
    var o1 :=
      match c
      case DataObject => o
      case X509Certificate => o[CKA_CERTIFICATE_TYPE := NumberV(CKC_X_509)]
      case OpenPgpCertificate => o[CKA_CERTIFICATE_TYPE := NumberV(CKC_OPENPGP)]
      case PublicKey(k) => o[CKA_KEY_TYPE := NumberV(k)]
      case PrivateKey(k) => o[CKA_KEY_TYPE := NumberV(k)]
      case SecretKey(k) => o[CKA_KEY_TYPE := NumberV(k)]
      case DomainParameters(k) => o[CKA_KEY_TYPE := NumberV(k)];
    o1[CKA_CLASS := NumberV(ClassNumber(c))]
  }

  /** Certificates and public keys are public unless told otherwise; all else is private. */
  predicate PublicByDefault(c: ClassId) { c.X509Certificate? || c.OpenPgpCertificate? || c.PublicKey? }

  function ForcePrivacy(c: ClassId, o: Attrs): Attrs {
    if PublicByDefault(c) && CKA_PRIVATE !in o then o[CKA_PRIVATE := BoolV(false)] else o
  }

  /** Gives every attribute of the list that the object lacks its default value. */
  function FillDefaults(ds: seq<Decl>, o: Attrs): Attrs {
    if |ds| == 0 then o
    else FillDefaults(ds[1..], if ds[0].t in o then o else o[ds[0].t := DefaultOf(ds[0].t)])
  }

  function Initialised(c: ClassId, o: Attrs): Attrs {
    FillDefaults(Table(c), ForcePrivacy(c, ForceIdentity(c, o)))
  }
}
