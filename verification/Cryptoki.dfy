/** Vocabulary shared by the whole model: bytes, return codes, session states, and the
    numeric names of attribute types, object classes and key types (PKCS #11 v2.40). */
module Cryptoki {

  type byte = b: int | 0 <= b < 0x100

  type Bytes = seq<byte>

  datatype Option<+T> = None | Some(value: T)

  /** The return codes the modelled functions can produce; each is named after its CKR_ code. */
  datatype Rv =
    | OK
    | ACTION_PROHIBITED
    | ARGUMENTS_BAD
    | ATTRIBUTE_READ_ONLY
    | ATTRIBUTE_SENSITIVE
    | ATTRIBUTE_TYPE_INVALID
    | ATTRIBUTE_VALUE_INVALID
    | BUFFER_TOO_SMALL
    | DATA_LEN_RANGE
    | ENCRYPTED_DATA_INVALID
    | ENCRYPTED_DATA_LEN_RANGE
    | FUNCTION_FAILED
    | FUNCTION_NOT_SUPPORTED
    | GENERAL_ERROR
    | KEY_FUNCTION_NOT_PERMITTED
    | KEY_SIZE_RANGE
    | KEY_TYPE_INCONSISTENT
    | MECHANISM_INVALID
    | OBJECT_HANDLE_INVALID
    | OPERATION_ACTIVE
    | OPERATION_NOT_INITIALIZED
    | PIN_INCORRECT
    | SESSION_READ_ONLY
    | SIGNATURE_INVALID
    | SIGNATURE_LEN_RANGE
    | TEMPLATE_INCOMPLETE
    | TEMPLATE_INCONSISTENT
    | USER_NOT_LOGGED_IN

  // ----- sessions ---------------------------------------------------------------

  datatype SessionState = RoPublic | RwPublic | RoUser | RwUser | RwSo {
    /** Somebody has logged in, so the token's data key is available. */
    predicate LoggedIn() { RoUser? || RwUser? || RwSo? }
  }

  // ----- attribute types --------------------------------------------------------

  type AttrType = nat

  const CKA_CLASS: AttrType := 0
  const CKA_TOKEN: AttrType := 1
  const CKA_PRIVATE: AttrType := 2
  const CKA_LABEL: AttrType := 3
  const CKA_APPLICATION: AttrType := 0x10
  const CKA_VALUE: AttrType := 0x11
  const CKA_OBJECT_ID: AttrType := 0x12
  const CKA_CERTIFICATE_TYPE: AttrType := 0x80
  const CKA_ISSUER: AttrType := 0x81
  const CKA_SERIAL_NUMBER: AttrType := 0x82
  const CKA_TRUSTED: AttrType := 0x86
  const CKA_CERTIFICATE_CATEGORY: AttrType := 0x87
  const CKA_JAVA_MIDP_SECURITY_DOMAIN: AttrType := 0x88
  const CKA_URL: AttrType := 0x89
  const CKA_HASH_OF_SUBJECT_PUBLIC_KEY: AttrType := 0x8a
  const CKA_HASH_OF_ISSUER_PUBLIC_KEY: AttrType := 0x8b
  const CKA_NAME_HASH_ALGORITHM: AttrType := 0x8c
  const CKA_CHECK_VALUE: AttrType := 0x90
  const CKA_KEY_TYPE: AttrType := 0x100
  const CKA_SUBJECT: AttrType := 0x101
  const CKA_ID: AttrType := 0x102
  const CKA_SENSITIVE: AttrType := 0x103
  const CKA_ENCRYPT: AttrType := 0x104
  const CKA_DECRYPT: AttrType := 0x105
  const CKA_WRAP: AttrType := 0x106
  const CKA_UNWRAP: AttrType := 0x107
  const CKA_SIGN: AttrType := 0x108
  const CKA_SIGN_RECOVER: AttrType := 0x109
  const CKA_VERIFY: AttrType := 0x10a
  const CKA_VERIFY_RECOVER: AttrType := 0x10b
  const CKA_DERIVE: AttrType := 0x10c
  const CKA_START_DATE: AttrType := 0x110
  const CKA_END_DATE: AttrType := 0x111
  const CKA_MODULUS: AttrType := 0x120
  const CKA_MODULUS_BITS: AttrType := 0x121
  const CKA_PUBLIC_EXPONENT: AttrType := 0x122
  const CKA_PRIVATE_EXPONENT: AttrType := 0x123
  const CKA_PRIME_1: AttrType := 0x124
  const CKA_PRIME_2: AttrType := 0x125
  const CKA_EXPONENT_1: AttrType := 0x126
  const CKA_EXPONENT_2: AttrType := 0x127
  const CKA_COEFFICIENT: AttrType := 0x128
  const CKA_PUBLIC_KEY_INFO: AttrType := 0x129
  const CKA_PRIME: AttrType := 0x130
  const CKA_SUBPRIME: AttrType := 0x131
  const CKA_BASE: AttrType := 0x132
  const CKA_PRIME_BITS: AttrType := 0x133
  const CKA_VALUE_BITS: AttrType := 0x160
  const CKA_VALUE_LEN: AttrType := 0x161
  const CKA_EXTRACTABLE: AttrType := 0x162
  const CKA_LOCAL: AttrType := 0x163
  const CKA_NEVER_EXTRACTABLE: AttrType := 0x164
  const CKA_ALWAYS_SENSITIVE: AttrType := 0x165
  const CKA_KEY_GEN_MECHANISM: AttrType := 0x166
  const CKA_MODIFIABLE: AttrType := 0x170
  const CKA_COPYABLE: AttrType := 0x171
  const CKA_DESTROYABLE: AttrType := 0x172
  const CKA_EC_PARAMS: AttrType := 0x180
  const CKA_EC_POINT: AttrType := 0x181
  const CKA_ALWAYS_AUTHENTICATE: AttrType := 0x202
  const CKA_WRAP_WITH_TRUSTED: AttrType := 0x210
  const CKA_GOSTR3410_PARAMS: AttrType := 0x250
  const CKA_GOSTR3411_PARAMS: AttrType := 0x251
  const CKA_GOST28147_PARAMS: AttrType := 0x252
  const CKA_PARAMETER_SET: AttrType := 0x61d
  const CKA_SEED: AttrType := 0x637
  const CKA_WRAP_TEMPLATE: AttrType := 0x40000211
  const CKA_UNWRAP_TEMPLATE: AttrType := 0x40000212
  const CKA_ALLOWED_MECHANISMS: AttrType := 0x40000600

  // ----- object classes, key types, certificate types -----------------------------

  const CKO_DATA: nat := 0
  const CKO_CERTIFICATE: nat := 1
  const CKO_PUBLIC_KEY: nat := 2
  const CKO_PRIVATE_KEY: nat := 3
  const CKO_SECRET_KEY: nat := 4
  const CKO_DOMAIN_PARAMETERS: nat := 6
  const CKO_VENDOR_DEFINED: nat := 0x80000000

  const CKK_RSA: nat := 0
  const CKK_DSA: nat := 1
  const CKK_DH: nat := 2
  const CKK_EC: nat := 3
  const CKK_GENERIC_SECRET: nat := 0x10
  const CKK_DES: nat := 0x13
  const CKK_DES2: nat := 0x14
  const CKK_DES3: nat := 0x15
  const CKK_AES: nat := 0x1f
  const CKK_MD5_HMAC: nat := 0x27
  const CKK_SHA_1_HMAC: nat := 0x28
  const CKK_SHA256_HMAC: nat := 0x2b
  const CKK_SHA384_HMAC: nat := 0x2c
  const CKK_SHA512_HMAC: nat := 0x2d
  const CKK_SHA224_HMAC: nat := 0x2e
  const CKK_GOSTR3410: nat := 0x30
  const CKK_GOST28147: nat := 0x32
  const CKK_EC_EDWARDS: nat := 0x40
  const CKK_ML_DSA: nat := 0x4a
  const CKK_VENDOR_DEFINED: nat := 0x80000000

  const CKC_X_509: nat := 0
  const CKC_VENDOR_DEFINED: nat := 0x80000000
  const CKC_OPENPGP: nat := 0x80504750

  /** The value a mechanism or length attribute holds when nothing is known. */
  const CK_UNAVAILABLE_INFORMATION: nat := 0xffff_ffff_ffff_ffff

  const CKM_SHA_1: nat := 0x220

  // ----- machine words ------------------------------------------------------------

  const SIZEOF_BBOOL: nat := 1
  const SIZEOF_ULONG: nat := 8
  const SIZEOF_ATTRIBUTE: nat := 24

  /** The CK_ULONG stored in memory as the given bytes (least significant byte first). */
  function FromWord(bs: Bytes): nat {
    if |bs| == 0 then 0 else bs[0] + 0x100 * FromWord(bs[1..])
  }

  /** The memory image of a CK_ULONG that occupies the given number of bytes. */
  function ToWord(n: nat, size: nat): (bs: Bytes)
    ensures |bs| == size
  {
    if size == 0 then [] else [n % 0x100] + ToWord(n / 0x100, size - 1)
  }

  function Power256(k: nat): nat {
    if k == 0 then 1 else 0x100 * Power256(k - 1)
  }

  lemma {:induction false} FromWordBound(bs: Bytes)
    ensures FromWord(bs) < Power256(|bs|)
  {
    if |bs| > 0 {
      FromWordBound(bs[1..]);
    }
  }

  /** Reading a word and writing it back reproduces the same bytes, and the other way round. */
  lemma {:induction false} WordRoundTrip(bs: Bytes)
    ensures ToWord(FromWord(bs), |bs|) == bs
  {
    if |bs| > 0 {
      WordRoundTrip(bs[1..]);
      var low, high := bs[0], FromWord(bs[1..]);
      assert (low + 0x100 * high) % 0x100 == low && (low + 0x100 * high) / 0x100 == high;
      assert [bs[0]] + bs[1..] == bs;
    }
  }

  lemma {:induction false} ToWordFromWord(n: nat, size: nat)
    requires n < Power256(size)
    ensures FromWord(ToWord(n, size)) == n
  {
    if size > 0 {
      ToWordFromWord(n / 0x100, size - 1);
      assert ToWord(n, size)[1..] == ToWord(n / 0x100, size - 1);
    }
  }

  /** The number that a byte string stands for, most significant byte first. */
  function FromBigEndian(bs: Bytes): nat {
    if |bs| == 0 then 0 else 0x100 * FromBigEndian(bs[..|bs| - 1]) + bs[|bs| - 1]
  }

  /** Zeros before a number do not change it. */
  lemma {:induction false} LeadingZeros(zeros: Bytes, bs: Bytes)
    requires forall i :: 0 <= i < |zeros| ==> zeros[i] == 0
    ensures FromBigEndian(zeros + bs) == FromBigEndian(bs)
    decreases |zeros| + |bs|
  {
    if |bs| > 0 {
      assert (zeros + bs)[..|zeros + bs| - 1] == zeros + bs[..|bs| - 1];
      LeadingZeros(zeros, bs[..|bs| - 1]);
    } else if |zeros| > 0 {
      assert (zeros + bs)[..|zeros + bs| - 1] == zeros[..|zeros| - 1] + [];
      LeadingZeros(zeros[..|zeros| - 1], []);
    }
  }

  // ----- the authorisation matrix ---------------------------------------------------

  /** Can objects with these two flags be read from a session in this state? */
  function HaveRead(state: SessionState, onToken: bool, isPrivate: bool): Rv {
    match state
    case RoPublic | RwPublic | RwSo => if isPrivate then USER_NOT_LOGGED_IN else OK
    case RoUser | RwUser => OK
  }

  /** Can objects with these two flags be written from a session in this state?
      When a read-only session and a missing login are both to blame, the former is reported. */
  function HaveWrite(state: SessionState, onToken: bool, isPrivate: bool): Rv {
    match state
    case RoPublic =>
      if onToken then SESSION_READ_ONLY else if isPrivate then USER_NOT_LOGGED_IN else OK
    case RwPublic | RwSo => if isPrivate then USER_NOT_LOGGED_IN else OK
    case RoUser => if onToken then SESSION_READ_ONLY else OK
    case RwUser => OK
  }
}
