/** The stored object and the view of it that knows its class: the classes OSObject and P11Object,
    proved against the specification functions of modules Attributes and Templates. */
module Objects {
  import opened Cryptoki
  import opened Attributes
  import opened ObjectClasses
  import opened Templates
  import opened ObjectStore

  /** A stored object with its transaction. Token objects keep what the file holds and restore it
      when a transaction is aborted; for session objects the three calls do nothing. */
  class OSObject {
    var attrs: Attrs
    var saved: Option<Attrs>
    const id: Id         // what tells this object from all others
    const place: Place
    const rollback: bool

    constructor (id: Id, place: Place)
      ensures attrs == map[] && saved == None && this.id == id && this.place == place && rollback == place.OnToken?
    {
      this.attrs, this.saved, this.id, this.place, this.rollback := map[], None, id, place, place.OnToken?;
    }

    method StartTransaction() returns (ok: bool)
      modifies this`saved
      ensures ok == (rollback ==> old(saved).None?)
      ensures saved == if rollback && ok then Some(attrs) else old(saved)
    {
      ok := true;
      if rollback {
        ok := saved.None?;
        if ok { saved := Some(attrs); }
      }
    }

    method CommitTransaction() returns (ok: bool)
      modifies this`saved
      ensures ok == (rollback ==> old(saved).Some?)
      ensures saved == if rollback then None else old(saved)
    {
      ok := true;
      if rollback {
        ok := saved.Some?;
        saved := None;
      }
    }

    method AbortTransaction() returns (ok: bool)
      modifies this`attrs, this`saved
      ensures ok == (rollback ==> old(saved).Some?)
      ensures attrs == if rollback && old(saved).Some? then old(saved).value else old(attrs)
      ensures saved == if rollback then None else old(saved)
    {
      ok := true;
      if rollback {
        ok := saved.Some?;
        if ok { attrs := saved.value; }
        saved := None;
      }
    }

    method SetAttribute(t: AttrType, v: Value)
      modifies this`attrs
      ensures attrs == old(attrs)[t := v]
    {
      attrs := attrs[t := v];
    }

    /** The next attribute in ascending order, or CKA_CLASS, which is the first, after the last. */
    method NextAttributeType(t: AttrType) returns (n: AttrType)
      ensures n == CKA_CLASS ==> forall a :: a in attrs ==> a <= t
      ensures n != CKA_CLASS ==> n in attrs && t < n && forall a :: a in attrs && t < a ==> n <= a
    {
      n := CKA_CLASS;
      var rest := attrs.Keys;
      while rest != {}
        invariant rest <= attrs.Keys
        invariant n == CKA_CLASS ==> forall a :: a in attrs && a !in rest ==> a <= t
        invariant n != CKA_CLASS ==> n in attrs && t < n && forall a :: a in attrs && a !in rest && t < a ==> n <= a
        decreases rest
      {
        var a :| a in rest;
        rest := rest - {a};
        if t < a && (n == CKA_CLASS || a < n) { n := a; }
      }
    }
  }

  /** One template request being answered: the room offered and, after the call, the length written
      back (None is CK_UNAVAILABLE_INFORMATION), the value delivered, and what was written into a nested
      array. */
  class Slot {
    const request: Request
    var len: Option<nat>
    var delivered: Option<Value>
    var written: Written

    constructor (request: Request)
      ensures this.request == request && len == request.room && delivered == None && written == Nothing
    {
      this.request, this.len, this.delivered, this.written := request, request.room, None, Nothing;
    }
  }

  // ----- the loop that wraps an object in its class --------------------------------------------

  lemma NothingWrapped(table: seq<Decl>, o: Attrs)
    ensures SchemaFrom(table[..0]) == map[] && FillDefaults(table[0..], o) == FillDefaults(table, o)
  {
    assert table[0..] == table;
  }

  lemma OneMoreWrapped(table: seq<Decl>, i: nat, o: Attrs)
    requires i < |table|
    ensures SchemaFrom(table[..i + 1]) == SchemaFrom(table[..i])[table[i].t := table[i].Spec()]
    ensures FillDefaults(table[i..], o)
         == FillDefaults(table[i + 1..], if table[i].t in o then o else o[table[i].t := DefaultOf(table[i].t)])
  {
    hide BaseChecks, BaseSize, DefaultOf;
    assert table[..i + 1][..i] == table[..i];
    assert table[i..][1..] == table[i + 1..];
  }

  lemma AllWrapped(table: seq<Decl>, o: Attrs)
    ensures SchemaFrom(table[..|table|]) == SchemaFrom(table) && FillDefaults(table[|table|..], o) == o
  {
    assert table[..|table|] == table;
  }

  /** An object seen through its class. */
  class P11Object {
    const kind: ClassId
    const osobject: OSObject
    var attributes: Schema

    ghost predicate Ready()
      reads this
    {
      attributes == SchemaOf(kind)
    }

    /** Wraps a stored object and gives it every attribute of the class that it lacks. */
    constructor (kind: ClassId, target: OSObject)
      modifies target`attrs
      ensures this.kind == kind && osobject == target && Ready()
      ensures target.attrs == Initialised(kind, old(target.attrs))
    {
      this.kind, this.osobject := kind, target;
      this.attributes := map[];
      new;
      hide Table, DefaultOf, ForceIdentity, ForcePrivacy, Decl.Spec, FillDefaults, SchemaFrom;
      target.attrs := ForcePrivacy(kind, ForceIdentity(kind, target.attrs));
      var table := Table(kind);
      ghost var start := target.attrs;
      NothingWrapped(table, start);
      var i := 0;
      while i < |table|
        modifies this`attributes, target`attrs
        invariant 0 <= i <= |table|
        invariant attributes == SchemaFrom(table[..i])
        invariant FillDefaults(table, start) == FillDefaults(table[i..], target.attrs)
      {
        var d := table[i];
        OneMoreWrapped(table, i, target.attrs);
        WrapOne(d);
        i := i + 1;
      }
      AllWrapped(table, target.attrs);
    }

    /** Adds one attribute to the map, and to the object if that lacks it. */
    method WrapOne(d: Decl)
      modifies this`attributes, osobject`attrs
      ensures attributes == old(attributes)[d.t := d.Spec()]
      ensures osobject.attrs == if d.t in old(osobject.attrs) then old(osobject.attrs) else old(osobject.attrs)[d.t := DefaultOf(d.t)]
    {
      hide Decl.Spec, DefaultOf;
      attributes := attributes[d.t := d.Spec()];
      if d.t !in osobject.attrs { osobject.SetAttribute(d.t, DefaultOf(d.t)); }
    }

    // ----- writing one attribute --------------------------------------------------------------

    method UpdateFlag(t: AttrType, p: Payload) returns (rv: Rv)
      modifies osobject`attrs
      ensures Outcome(osobject.attrs, rv) == WriteFlag(old(osobject.attrs), t, p)
    {
      if p.Length() != SIZEOF_BBOOL { return ATTRIBUTE_VALUE_INVALID; }
      osobject.SetAttribute(t, BoolV(p.AsBool()));
      return OK;
    }

    method UpdateNumber(t: AttrType, p: Payload) returns (rv: Rv)
      modifies osobject`attrs
      ensures Outcome(osobject.attrs, rv) == WriteNumber(old(osobject.attrs), t, p)
    {
      if p.Length() != SIZEOF_ULONG { return ATTRIBUTE_VALUE_INVALID; }
      osobject.SetAttribute(t, NumberV(p.AsNumber()));
      return OK;
    }

    method UpdateSensitive(p: Payload, op: Op) returns (rv: Rv)
      modifies osobject`attrs
      ensures Outcome(osobject.attrs, rv) == WriteSensitive(old(osobject.attrs), p, op)
    {
      if op == Set || op == Copy {
        if Sensitive(osobject.attrs) { return ATTRIBUTE_READ_ONLY; }
      }
      if p.Length() != SIZEOF_BBOOL { return ATTRIBUTE_VALUE_INVALID; }
      if !p.AsBool() {
        osobject.SetAttribute(CKA_SENSITIVE, BoolV(false));
        osobject.SetAttribute(CKA_ALWAYS_SENSITIVE, BoolV(false));
      } else {
        osobject.SetAttribute(CKA_SENSITIVE, BoolV(true));
        if op == Generate || op == Derive { osobject.SetAttribute(CKA_ALWAYS_SENSITIVE, BoolV(true)); }
      }
      return OK;
    }

    method UpdateExtractable(p: Payload, op: Op) returns (rv: Rv)
      modifies osobject`attrs
      ensures Outcome(osobject.attrs, rv) == WriteExtractable(old(osobject.attrs), p, op)
    {
      if op == Set || op == Copy {
        if !Flag(osobject.attrs, CKA_EXTRACTABLE, false) { return ATTRIBUTE_READ_ONLY; }
      }
      if p.Length() != SIZEOF_BBOOL { return ATTRIBUTE_VALUE_INVALID; }
      if !p.AsBool() {
        osobject.SetAttribute(CKA_EXTRACTABLE, BoolV(false));
      } else {
        osobject.SetAttribute(CKA_EXTRACTABLE, BoolV(true));
        osobject.SetAttribute(CKA_NEVER_EXTRACTABLE, BoolV(false));
      }
      return OK;
    }

    /** The byte string to store, None if it cannot be encrypted or comes out too short. */
    method Seal(ctx: Context, isPrivate: bool, p: Payload) returns (value: Option<Bytes>)
      ensures value == Sealed(ctx, isPrivate, p)
    {
      if isPrivate {
        value := ctx.Encrypt(p.Data());
      } else {
        value := Some(p.Data());
      }
      if value.Some? && |value.value| < p.Length() { value := None; }
    }

    method PutCheckValue(ctx: Context, isPrivate: bool, check: Bytes) returns (rv: Rv)
      modifies osobject`attrs
      ensures Outcome(osobject.attrs, rv) == StoreCheck(ctx, isPrivate, old(osobject.attrs), check)
    {
      if isPrivate {
        var encrypted := ctx.Encrypt(check);
        if encrypted.None? { return GENERAL_ERROR; }
        osobject.SetAttribute(CKA_CHECK_VALUE, BytesV(encrypted.value));
      } else {
        osobject.SetAttribute(CKA_CHECK_VALUE, BytesV(check));
      }
      return OK;
    }

    method UpdateValue(ctx: Context, isPrivate: bool, p: Payload, op: Op) returns (rv: Rv)
      modifies osobject`attrs
      ensures Outcome(osobject.attrs, rv) == WriteValue(ctx, isPrivate, old(osobject.attrs), p, op)
    {
      var value := Seal(ctx, isPrivate, p);
      if value.None? { return GENERAL_ERROR; }
      osobject.SetAttribute(CKA_VALUE, BytesV(value.value));
      if op == Create || op == Unwrap {
        if CKA_VALUE_LEN in osobject.attrs { osobject.SetAttribute(CKA_VALUE_LEN, NumberV(|p.Data()|)); }
        if CKA_VALUE_BITS in osobject.attrs { osobject.SetAttribute(CKA_VALUE_BITS, NumberV(BitLength(p.Data()))); }
      }
      if Class(osobject.attrs) == CKO_CERTIFICATE {
        rv := PutCheckValue(ctx, isPrivate, ctx.token.certificateCheck(p.Data()));
        return rv;
      }
      if op == Create && Class(osobject.attrs) == CKO_SECRET_KEY {
        if KeyType(osobject.attrs) == CKK_GOST28147 {
          rv := PutCheckValue(ctx, isPrivate, []);
          return rv;
        }
        var check := KcvOf(ctx.token, KeyType(osobject.attrs), p.Data());
        if check.None? { return GENERAL_ERROR; }
        rv := PutCheckValue(ctx, isPrivate, check.value);
        return rv;
      }
      return OK;
    }

    method UpdateCheckValue(ctx: Context, isPrivate: bool, p: Payload) returns (rv: Rv)
      modifies osobject`attrs
      ensures Outcome(osobject.attrs, rv) == WriteCheckValue(ctx, isPrivate, old(osobject.attrs), p)
    {
      var value := Seal(ctx, isPrivate, p);
      if value.None? { return GENERAL_ERROR; }
      if p.Length() == 0 {
        osobject.SetAttribute(CKA_CHECK_VALUE, BytesV(value.value));
        return OK;
      }
      var bits := Some(Text(osobject.attrs, CKA_VALUE));
      if isPrivate { bits := ctx.Decrypt(Text(osobject.attrs, CKA_VALUE)); }
      if bits.None? { return GENERAL_ERROR; }
      var check := Some(p.Data());
      if KeyType(osobject.attrs) != CKK_GOST28147 { check := KcvOf(ctx.token, KeyType(osobject.attrs), bits.value); }
      if check.None? { return GENERAL_ERROR; }
      if p.Data() != check.value { return ATTRIBUTE_VALUE_INVALID; }
      osobject.SetAttribute(CKA_CHECK_VALUE, BytesV(value.value));
      return OK;
    }

    method UpdateMeasured(ctx: Context, t: AttrType, bitsAttr: AttrType, isPrivate: bool, p: Payload, op: Op) returns (rv: Rv)
      modifies osobject`attrs
      ensures Outcome(osobject.attrs, rv) == WriteMeasured(ctx, t, bitsAttr, isPrivate, old(osobject.attrs), p, op)
    {
      var value := Seal(ctx, isPrivate, p);
      if value.None? { return GENERAL_ERROR; }
      osobject.SetAttribute(t, BytesV(value.value));
      if op == Create && bitsAttr in osobject.attrs { osobject.SetAttribute(bitsAttr, NumberV(BitLength(p.Data()))); }
      return OK;
    }

    method UpdateText(ctx: Context, t: AttrType, isPrivate: bool, p: Payload) returns (rv: Rv)
      modifies osobject`attrs
      ensures Outcome(osobject.attrs, rv) == WriteText(ctx, t, isPrivate, old(osobject.attrs), p)
    {
      var value := Seal(ctx, isPrivate, p);
      if value.None? { return GENERAL_ERROR; }
      osobject.SetAttribute(t, BytesV(value.value));
      return OK;
    }

    method UpdateIdentity(ctx: Context, t: AttrType, isPrivate: bool, p: Payload, op: Op) returns (rv: Rv)
      requires KindOf(t).IdentityKind?
      modifies osobject`attrs
      ensures Outcome(osobject.attrs, rv) == Write(ctx, t, isPrivate, old(osobject.attrs), p, op)
    {
      if p.Length() != SIZEOF_ULONG { return ATTRIBUTE_VALUE_INVALID; }
      if Number(osobject.attrs, t, DefaultOf(t).n) != p.AsNumber() { return TEMPLATE_INCONSISTENT; }
      rv := OK;
    }

    method UpdateCopyable(ctx: Context, t: AttrType, isPrivate: bool, p: Payload, op: Op) returns (rv: Rv)
      requires KindOf(t).CopyableKind?
      modifies osobject`attrs
      ensures Outcome(osobject.attrs, rv) == Write(ctx, t, isPrivate, old(osobject.attrs), p, op)
    {
      hide KindOf;
      if p.Length() != SIZEOF_BBOOL { return ATTRIBUTE_VALUE_INVALID; }
      rv := OK;
      if !p.AsBool() {
        osobject.SetAttribute(t, BoolV(false));
      } else if !Copyable(osobject.attrs) {
        rv := ATTRIBUTE_READ_ONLY;
      }
    }

    method UpdateMechanisms(ctx: Context, t: AttrType, isPrivate: bool, p: Payload, op: Op) returns (rv: Rv)
      requires KindOf(t).MechanismsKind?
      modifies osobject`attrs
      ensures Outcome(osobject.attrs, rv) == Write(ctx, t, isPrivate, old(osobject.attrs), p, op)
    {
      hide KindOf, MechanismSet;
      if p.Length() == 0 || p.Length() % SIZEOF_ULONG != 0 { return ATTRIBUTE_VALUE_INVALID; }
      osobject.SetAttribute(t, MechanismsV(MechanismSet(p.Data())));
      rv := OK;
    }

    method UpdateNested(ctx: Context, t: AttrType, isPrivate: bool, p: Payload, op: Op) returns (rv: Rv)
      requires KindOf(t).NestedKind?
      modifies osobject`attrs
      ensures Outcome(osobject.attrs, rv) == Write(ctx, t, isPrivate, old(osobject.attrs), p, op)
    {
      hide KindOf;
      if p.Length() % SIZEOF_ATTRIBUTE != 0 { return ATTRIBUTE_VALUE_INVALID; }
      var nested := ctx.token.nested(p.Data());
      if nested.None? { return ATTRIBUTE_VALUE_INVALID; }
      osobject.SetAttribute(t, MapV(nested.value));
      rv := OK;
    }

    /** The attribute's own part of an update, after the common checks. */
    method UpdateAttr(ctx: Context, t: AttrType, isPrivate: bool, p: Payload, op: Op) returns (rv: Rv)
      modifies osobject`attrs
      ensures Outcome(osobject.attrs, rv) == Write(ctx, t, isPrivate, old(osobject.attrs), p, op)
    {
      hide KindOf, KcvOf, MechanismSet, FromWord, WriteFlag, WriteNumber, WriteText, WriteSensitive, WriteExtractable;
      hide WriteValue, WriteMeasured, WriteCheckValue, Flag, Payload.Length, Payload.Data;
      match KindOf(t)
      case IdentityKind => rv := UpdateIdentity(ctx, t, isPrivate, p, op);
      case FlagKind => rv := UpdateFlag(t, p);
      case CopyableKind => rv := UpdateCopyable(ctx, t, isPrivate, p, op);
      case TrustedKind =>
        if p.Length() == SIZEOF_BBOOL && p.AsBool() && ctx.session != RwSo { return ATTRIBUTE_READ_ONLY; }
        rv := UpdateFlag(t, p);
      case SensitiveKind => rv := UpdateSensitive(p, op);
      case ExtractableKind => rv := UpdateExtractable(p, op);
      case WrapTrustedKind =>
        if (op == Set || op == Copy) && Flag(osobject.attrs, t, false) { return ATTRIBUTE_READ_ONLY; }
        rv := UpdateFlag(t, p);
      case AlwaysAuthKind =>
        if p.Length() == SIZEOF_BBOOL && p.AsBool() && !isPrivate { return TEMPLATE_INCONSISTENT; }
        rv := UpdateFlag(t, p);
      case ReadOnlyFlagKind => rv := ATTRIBUTE_READ_ONLY;
      case ReadOnlyNumberKind => rv := ATTRIBUTE_READ_ONLY;
      case NumberKind => rv := UpdateNumber(t, p);
      case GenerateNumberKind =>
        if op != Generate { return ATTRIBUTE_READ_ONLY; }
        rv := UpdateNumber(t, p);
      case GenerateCreateNumberKind =>
        if op != Generate && op != Create { return ATTRIBUTE_READ_ONLY; }
        rv := UpdateNumber(t, p);
      case GenerateDeriveNumberKind =>
        if op != Generate && op != Derive { return ATTRIBUTE_READ_ONLY; }
        rv := UpdateNumber(t, p);
      case TextKind => rv := UpdateText(ctx, t, isPrivate, p);
      case DateKind =>
        if p.Length() != 8 && p.Length() != 0 { return ATTRIBUTE_VALUE_INVALID; }
        osobject.SetAttribute(t, BytesV(p.Data()));
        rv := OK;
      case ValueKind => rv := UpdateValue(ctx, isPrivate, p, op);
      case ModulusKind => rv := UpdateMeasured(ctx, t, CKA_MODULUS_BITS, isPrivate, p, op);
      case PrimeKind => rv := UpdateMeasured(ctx, t, CKA_PRIME_BITS, isPrivate, p, op);
      case CheckValueKind => rv := UpdateCheckValue(ctx, isPrivate, p);
      case MechanismsKind => rv := UpdateMechanisms(ctx, t, isPrivate, p, op);
      case NestedKind => rv := UpdateNested(ctx, t, isPrivate, p, op);
    }

    /** Updates one attribute if the policy allows it. */
    method UpdateOne(ctx: Context, spec: AttrSpec, t: AttrType, isPrivate: bool, p: Payload, op: Op) returns (rv: Rv)
      modifies osobject`attrs
      ensures Outcome(osobject.attrs, rv) == Update(ctx, spec, t, isPrivate, old(osobject.attrs), p, op)
    {
      if p.NullPtr? && p.len != 0 { return ATTRIBUTE_VALUE_INVALID; }
      if spec.size.Some? && spec.size.value != p.Length() { return ATTRIBUTE_VALUE_INVALID; }
      if !Modifiable(osobject.attrs) && op != Generate && op != Create && op != Unwrap { return ATTRIBUTE_READ_ONLY; }
      if Trusted(osobject.attrs) && op != Generate && op != Create && op != Unwrap {
        if Class(osobject.attrs) == CKO_CERTIFICATE { return ATTRIBUTE_READ_ONLY; }
      }
      if Ck2 in spec.checks && op == Create { return ATTRIBUTE_READ_ONLY; }
      if Ck4 in spec.checks && op == Generate { return ATTRIBUTE_READ_ONLY; }
      if Ck6 in spec.checks && op == Unwrap { return ATTRIBUTE_READ_ONLY; }
      var writable := false;
      if Ck8 in spec.checks && (op == Set || op == Copy) { writable := true; }
      if Ck11 in spec.checks && (op == Set || op == Copy) { writable := true; }
      if Ck17 in spec.checks && op == Copy { writable := true; }
      if op == Create || op == Derive || op == Generate || op == Unwrap { writable := true; }
      if !writable { return ATTRIBUTE_READ_ONLY; }
      rv := UpdateAttr(ctx, t, isPrivate, p, op);
    }

    // ----- whole templates ----------------------------------------------------------------------

    /** Is every attribute that the operation demands named in the template? */
    method MandatoryNamed(es: Template, op: Op) returns (complete: bool)
      ensures complete == forall t :: t in attributes && attributes[t].Mandatory(op) ==> Named(es, t)
    {
      complete := true;
      var rest := attributes.Keys;
      while rest != {} && complete
        invariant rest <= attributes.Keys
        invariant complete ==> forall t :: t in attributes.Keys - rest && attributes[t].Mandatory(op) ==> Named(es, t)
        invariant !complete ==> exists t :: t in attributes && attributes[t].Mandatory(op) && !Named(es, t)
        decreases rest, complete
      {
        var t :| t in rest;
        rest := rest - {t};
        if attributes[t].Mandatory(op) {
          var isSpecified := false;
          var n := 0;
          while n < |es| && !isSpecified
            invariant 0 <= n <= |es|
            invariant isSpecified ==> Named(es, t)
            invariant !isSpecified ==> forall k :: 0 <= k < n ==> es[k].t != t
          {
            if es[n].t == t { isSpecified := true; }
            n := n + 1;
          }
          complete := isSpecified;
        }
      }
    }

    method SaveTemplate(ctx: Context, isPrivate: bool, es: Template, op: Op) returns (rv: Rv)
      requires osobject.saved == None
      modifies osobject
      ensures osobject.saved == None
      ensures var job := Job(ctx, attributes, isPrivate, op);
              Outcome(osobject.attrs, rv) == Templates.SaveTemplate(job, old(osobject.attrs), es, osobject.rollback)
    {
      hide Update, Modifiable, Copyable, Named;
      ghost var job := Job(ctx, attributes, isPrivate, op);
      ghost var o := osobject.attrs;
      var started := osobject.StartTransaction();
      var undone, done: bool;
      if op == Set && !Modifiable(osobject.attrs) {
        undone := osobject.AbortTransaction();
        return ACTION_PROHIBITED;
      }
      if op == Copy && !Copyable(osobject.attrs) {
        undone := osobject.AbortTransaction();
        return ACTION_PROHIBITED;
      }
      var i := 0;
      while i < |es|
        invariant 0 <= i <= |es|
        invariant osobject.saved == if osobject.rollback then Some(o) else None
        invariant ApplyEntries(job, o, es) == ApplyEntries(job, osobject.attrs, es[i..])
      {
        ghost var before := osobject.attrs;
        assert es[i..][0] == es[i] && es[i..][1..] == es[i + 1..];
        if es[i].t !in attributes {
          assert ApplyEntries(job, before, es[i..]) == Outcome(before, ATTRIBUTE_TYPE_INVALID);
          undone := osobject.AbortTransaction();
          return ATTRIBUTE_TYPE_INVALID;
        }
        rv := UpdateOne(ctx, attributes[es[i].t], es[i].t, isPrivate, es[i].p, op);
        assert UpdateEntry(job, before, es[i..][0]) == Outcome(osobject.attrs, rv);
        if rv != OK {
          assert ApplyEntries(job, before, es[i..]) == Outcome(osobject.attrs, rv);
          undone := osobject.AbortTransaction();
          return rv;
        }
        i := i + 1;
      }
      assert es[i..] == [];
      var complete := MandatoryNamed(es, op);
      assert complete == AllMandatoryNamed(job, es);
      if !complete {
        undone := osobject.AbortTransaction();
        return TEMPLATE_INCOMPLETE;
      }
      done := osobject.CommitTransaction();
      if !done { return GENERAL_ERROR; }
      return OK;
    }

    /** Fills the array behind a request for a nested template. */
    static method RetrieveAttributeMap(m: map<AttrType, Bytes>, inner: nat -> Inner) returns (rv: Rv, written: Written)
      ensures (rv, written) == RetrieveMap(m, inner)
    {
      var nullcnt, i := 0, 0;
      while i < |m|
        invariant 0 <= nullcnt <= i <= |m|
        invariant nullcnt == i <==> AllNull(inner, i)
      {
        if inner(i).isNull { nullcnt := nullcnt + 1; }
        i := i + 1;
      }
      if nullcnt == |m| { return OK, Lengths(map t | t in m :: |m[t]|); }
      var values: seq<Bytes> := [];
      i := 0;
      while i < |m|
        invariant 0 <= i <= |m| && FillInner(m, inner, i) == (OK, values)
      {
        var slot := inner(i);
        if slot.t !in m || slot.room < |m[slot.t]| {
          rv := if slot.t !in m then ATTRIBUTE_TYPE_INVALID else BUFFER_TOO_SMALL;
          StuckFilling(m, inner, i, |m|);
          return rv, Values(values);
        }
        values := values + [m[slot.t]];
        i := i + 1;
      }
      return OK, Values(values);
    }

    /** Reads one attribute into a slot. */
    method RetrieveOne(ctx: Context, spec: AttrSpec, isPrivate: bool, slot: Slot) returns (rv: Rv)
      modifies slot`len, slot`delivered, slot`written
      ensures var a := Retrieve(ctx, spec, isPrivate, osobject.attrs, slot.request);
              && rv == a.rv && slot.delivered == a.delivered && slot.written == a.written
              && (rv != GENERAL_ERROR ==> slot.len == a.len)
    {
      slot.delivered, slot.written := None, Nothing;
      if Ck7 in spec.checks && (Sensitive(osobject.attrs) || !Extractable(osobject.attrs)) {
        slot.len := None;
        return ATTRIBUTE_SENSITIVE;
      }
      if slot.request.t !in osobject.attrs { return GENERAL_ERROR; }
      var v := osobject.attrs[slot.request.t];
      if v.BytesV? && isPrivate && v.s != [] {
        var x := ctx.Decrypt(v.s);
        if x.None? { return GENERAL_ERROR; }
        v := BytesV(x.value);
      }
      if slot.request.room.None? {
        slot.len := Some(SizeOf(v));
        return OK;
      }
      if slot.request.room.value >= SizeOf(v) {
        rv := OK;
        if v.MapV? { rv, slot.written := RetrieveAttributeMap(v.m, slot.request.inner); } else { slot.delivered := Some(v); }
        slot.len := Some(SizeOf(v));
        return;
      }
      slot.len := None;
      return BUFFER_TOO_SMALL;
    }

    /** Answers one slot, known or unknown. */
    method AnswerOne(ctx: Context, isPrivate: bool, slot: Slot) returns (rv: Rv)
      modifies slot`len, slot`delivered, slot`written
      ensures var a := AnswerTo(ctx, attributes, isPrivate, osobject.attrs, slot.request);
              && rv == a.rv && rv in {OK, GENERAL_ERROR, ATTRIBUTE_SENSITIVE, ATTRIBUTE_TYPE_INVALID, BUFFER_TOO_SMALL}
              && Answered(slot, a)
    {
      if slot.request.t !in attributes {
        slot.len, slot.delivered, slot.written := None, None, Nothing;
        return ATTRIBUTE_TYPE_INVALID;
      }
      rv := RetrieveOne(ctx, attributes[slot.request.t], isPrivate, slot);
      if rv == ATTRIBUTE_TYPE_INVALID { rv := GENERAL_ERROR; }
    }

    /** Answers a whole template. An internal error ends the call at once; otherwise every slot gets
        its answer and the return code names the gravest of them. */
    method LoadTemplate(ctx: Context, slots: seq<Slot>) returns (rv: Rv)
      requires forall i, j :: 0 <= i < j < |slots| ==> slots[i] != slots[j]
      modifies slots
      ensures var answers := Answers(ctx, attributes, osobject.attrs, Requests(slots));
              && rv == Verdict(answers)
              && (forall i :: 0 <= i < |slots| && Reached(answers, i) ==> Answered(slots[i], answers[i]))
      ensures var answers := Answers(ctx, attributes, osobject.attrs, Requests(slots));
              forall i :: 0 <= i < |slots| && !Reached(answers, i) ==> unchanged(slots[i])
    {
      hide AnswerTo, Verdict, Answers, Requests, Answered, Tally, SelfPrivate;
      NoTally();
      var isPrivate := SelfPrivate(osobject.attrs);
      ghost var answers := Answers(ctx, attributes, osobject.attrs, Requests(slots));
      AnswersAre(ctx, attributes, osobject.attrs, slots);
      var invalid, sensitive, tooSmall := false, false, false;
      var i := 0;
      while i < |slots|
        invariant 0 <= i <= |slots| == |answers|
        invariant Tally(answers[..i], sensitive, invalid, tooSmall)
        invariant forall k :: 0 <= k < i ==> Answered(slots[k], answers[k])
        invariant forall k :: i <= k < |slots| ==> unchanged(slots[k])
        invariant Reached(answers, i)
      {
        rv := AnswerOne(ctx, isPrivate, slots[i]);
        TallyOne(answers[..i], answers[i], sensitive, invalid, tooSmall);
        assert answers[..i + 1] == answers[..i] + [answers[i]];
        if rv == ATTRIBUTE_SENSITIVE {
          sensitive := true;
        } else if rv == ATTRIBUTE_TYPE_INVALID {
          invalid := true;
        } else if rv == BUFFER_TOO_SMALL {
          tooSmall := true;
        } else if rv != OK {
          InternalError(answers, i);
          return GENERAL_ERROR;
        }
        i := i + 1;
      }
      assert answers[..i] == answers;
      TallyVerdict(answers, sensitive, invalid, tooSmall);
      if sensitive { return ATTRIBUTE_SENSITIVE; }
      if invalid { return ATTRIBUTE_TYPE_INVALID; }
      if tooSmall { return BUFFER_TOO_SMALL; }
      return OK;
    }
  }

  /** The first bad entry ends the filling of a nested array. */
  lemma {:induction false} StuckFilling(m: map<AttrType, Bytes>, inner: nat -> Inner, i: nat, n: nat)
    requires i < n && FillInner(m, inner, i).0 == OK && !Fillable(m, inner(i))
    ensures FillInner(m, inner, n) == FillInner(m, inner, i + 1) && FillInner(m, inner, n).0 != OK
    decreases n
  {
    if i + 1 < n { StuckFilling(m, inner, i, n - 1); }
  }

  lemma AnswersAre(ctx: Context, schema: Schema, o: Attrs, slots: seq<Slot>)
    ensures var answers := Answers(ctx, schema, o, Requests(slots));
            && |answers| == |slots|
            && forall i :: 0 <= i < |slots| ==> answers[i] == AnswerTo(ctx, schema, SelfPrivate(o), o, slots[i].request)
  {
  }

  /** The three flags record which answers have occurred, and no internal error has. */
  ghost predicate Tally(answers: seq<Answer>, sensitive: bool, invalid: bool, tooSmall: bool) {
    && (forall a :: a in answers ==> a.rv != GENERAL_ERROR)
    && (sensitive <==> exists a :: a in answers && a.rv == ATTRIBUTE_SENSITIVE)
    && (invalid <==> exists a :: a in answers && a.rv == ATTRIBUTE_TYPE_INVALID)
    && (tooSmall <==> exists a :: a in answers && a.rv == BUFFER_TOO_SMALL)
  }

  lemma NoTally()
    ensures Tally([], false, false, false)
  {
  }

  lemma TallyOne(answers: seq<Answer>, a: Answer, sensitive: bool, invalid: bool, tooSmall: bool)
    requires Tally(answers, sensitive, invalid, tooSmall)
    ensures a.rv != GENERAL_ERROR ==>
              Tally(answers + [a], sensitive || a.rv == ATTRIBUTE_SENSITIVE, invalid || a.rv == ATTRIBUTE_TYPE_INVALID,
                    tooSmall || a.rv == BUFFER_TOO_SMALL)
  {
    assert a in answers + [a];
    assert forall b :: b in answers + [a] <==> b in answers || b == a;
  }

  lemma TallyVerdict(answers: seq<Answer>, sensitive: bool, invalid: bool, tooSmall: bool)
    requires Tally(answers, sensitive, invalid, tooSmall)
    ensures Verdict(answers) ==
              if sensitive then ATTRIBUTE_SENSITIVE else if invalid then ATTRIBUTE_TYPE_INVALID
              else if tooSmall then BUFFER_TOO_SMALL else OK
  {
  }

  lemma InternalError(answers: seq<Answer>, i: nat)
    requires i < |answers| && answers[i].rv == GENERAL_ERROR
    ensures Verdict(answers) == GENERAL_ERROR
  {
    assert answers[i] in answers;
  }

  /** The slot holds this answer; an internal error leaves the length as it is. */
  ghost predicate Answered(slot: Slot, a: Answer)
    reads slot
  {
    slot.delivered == a.delivered && slot.written == a.written && (a.rv != GENERAL_ERROR ==> slot.len == a.len)
  }

  /** No request before this one met an internal error. */
  ghost predicate Reached(answers: seq<Answer>, i: nat)
    requires i <= |answers|
  {
    forall k :: 0 <= k < i ==> answers[k].rv != GENERAL_ERROR
  }

  function Requests(slots: seq<Slot>): seq<Request> { seq(|slots|, i requires 0 <= i < |slots| => slots[i].request) }
}
