/** The library itself: the class that owns the object stores and the handle table, with the calls
    that create, copy, change, read and destroy objects. Each method is proved to be the step of
    module ObjectStore that the results about runs are stated for. */
module Library {
  import opened Cryptoki
  import opened Attributes
  import opened ObjectClasses
  import opened Templates
  import opened ObjectStore
  import opened Objects
  import opened KeyWrap
  import opened Search

  class SoftHSM {
    var objects: map<Id, OSObject>
    var next: Id
    var handles: map<Handle, Registration>
    var byObject: map<Id, Handle>
    var lastHandle: Handle
    ghost var origins: map<Id, Origin>
    ghost var unfinished: set<Id>

    ghost predicate Valid()
      reads this, objects.Values
    {
      && origins.Keys == objects.Keys
      && (forall id :: id in objects ==> id < next)
      && (forall id :: id in objects ==> Stored(objects[id], id))
    }

    ghost predicate Stored(obj: OSObject, id: Id)
      reads obj
    {
      obj.id == id && obj.saved == None && obj.rollback == obj.place.OnToken?
    }

    ghost function Record(id: Id): Item
      requires id in objects && id in origins
      reads this, objects[id]
    {
      Item(objects[id].attrs, objects[id].place, origins[id], id !in unfinished)
    }

    /** The state that the specification talks about. */
    ghost function Model(): World
      requires Valid()
      reads this, objects.Values
    {
      World(map id | id in objects :: Record(id), next, handles, byObject, lastHandle)
    }

    constructor ()
      ensures Valid() && Model() == EMPTY
    {
      objects, next, handles, byObject, lastHandle := map[], 0, map[], map[], 0;
      origins, unfinished := map[], {};
      new;
      assert Model().items == map[];
    }

    // ----- handles ------------------------------------------------------------------------------

    method Register(id: Id, isPrivate: bool, session: nat) returns (h: Handle)
      requires Valid()
      modifies this`handles, this`byObject, this`lastHandle
      ensures Valid() && (Model(), h) == ObjectStore.Register(old(Model()), id, isPrivate, session)
    {
      ghost var w := Model();
      if id in byObject {
        h := byObject[id];
        if h !in handles {
          byObject := byObject - {id};
          h := CK_INVALID_HANDLE;
        }
      } else {
        lastHandle := lastHandle + 1;
        h := lastHandle;
        handles := handles[h := Registration(id, isPrivate, session)];
        byObject := byObject[id := h];
      }
      assert Model().items == w.items;
    }

    method Forget(h: Handle)
      requires Valid()
      modifies this`handles, this`byObject
      ensures Valid() && Model() == ObjectStore.Forget(old(Model()), h)
    {
      ghost var w := Model();
      if h in handles {
        byObject := byObject - {handles[h].target};
        handles := handles - {h};
      }
      assert Model().items == w.items;
    }

    /** Removes an object from its store. */
    method Remove(id: Id)
      requires Valid()
      modifies this`objects, this`origins
      ensures Valid() && Model() == ObjectStore.Remove(old(Model()), id)
    {
      ghost var w := Model();
      objects := objects - {id};
      origins := origins - {id};
      assert Model().items == w.items - {id};
    }

    /** Adds a new object, not yet finished, to the store its place belongs to. */
    method Adopt(obj: OSObject, ghost origin: Origin) returns (id: Id)
      requires Valid() && Stored(obj, next)
      modifies this`objects, this`next, this`origins, this`unfinished
      ensures Valid() && id == old(next) && objects == old(objects)[id := obj] && origins == old(origins)[id := origin]
      ensures unfinished == old(unfinished) + {id}
      ensures Model() == Allocate(old(Model()), Item(obj.attrs, obj.place, origin, false))
    {
      ghost var w := Model();
      id := next;
      objects := objects[id := obj];
      origins := origins[id := origin];
      unfinished := unfinished + {id};
      next := next + 1;
      assert Valid();
      Added(w, id);
    }

    // ----- creating ---------------------------------------------------------------------------

    /** Creates an empty object in the store its place belongs to. */
    method NewStoredObject(place: Place, ghost origin: Origin) returns (obj: OSObject, ghost w: World)
      requires Valid()
      modifies this`objects, this`next, this`origins, this`unfinished
      ensures Valid() && fresh(obj) && Stored(obj, old(next)) && obj.place == place && obj.attrs == map[]
      ensures objects == old(objects)[old(next) := obj] && origins == old(origins)[old(next) := origin]
      ensures unfinished == old(unfinished) + {old(next)} && next == old(next) + 1 && old(next) !in old(objects)
      ensures w == old(Model()) && w.next == old(next) && old(next) !in w.items && Others(w, old(next))
      ensures (handles, byObject, lastHandle) == (w.handles, w.byObject, w.lastHandle)
    {
      w := Model();
      obj := new OSObject(next, place);
      var id := Adopt(obj, origin);
    }

    /** All objects but this one are as they were. */
    ghost predicate Others(w: World, id: Id)
      requires Valid() && id in objects
      reads this, objects.Values
    {
      && objects.Keys == w.items.Keys + {id}
      && forall j :: j in w.items && j != id ==> Record(j) == w.items[j]
    }

    /** Writes to one stored object leave the others alone. */
    method FillStored(ctx: Context, p: Plan, c: ClassId, id: Id, attribs: Template, op: Op) returns (rv: Rv)
      requires Valid() && id in objects && objects[id].attrs == map[] && objects[id].place.OnToken? == p.onToken
      modifies objects[id]
      ensures Valid()
      ensures forall w: World :: old(Others(w, id)) ==> Others(w, id)
      ensures var r := Templates.SaveTemplate(Job(ctx, SchemaOf(c), p.isPrivate, op), Initialised(c, map[]), attribs, p.onToken);
              && rv == r.rv
              && objects[id].attrs == if rv == OK && op.Create? then MarkCreated(r.attrs, p.objClass) else r.attrs
    {
      hide Templates.SaveTemplate, Initialised, SchemaOf, MarkCreated;
      rv := Fill(ctx, p, c, objects[id], attribs, op);
    }

    method MarkFinished(id: Id)
      requires Valid() && id in objects
      modifies this`unfinished
      ensures Valid() && Record(id) == old(Record(id)).(finished := true)
      ensures forall w: World :: old(Others(w, id)) ==> Others(w, id)
    {
      unfinished := unfinished - {id};
    }

    /** Makes the object: allocates it, initialises it as one of its class, saves the template. */
    method MakeStored(ctx: Context, caller: Caller, p: Plan, c: ClassId, attribs: Template, op: Op) returns (rv: Rv, ghost id: Id)
      requires Valid()
      modifies this`objects, this`next, this`origins, this`unfinished
      ensures Valid() && id == old(next) && id == old(Model()).next
      ensures fresh(objects.Values - old(objects.Values))
      ensures var r := Templates.SaveTemplate(Job(ctx, SchemaOf(c), p.isPrivate, op), Initialised(c, map[]), attribs, p.onToken);
              var o := if r.rv == OK && op.Create? then MarkCreated(r.attrs, p.objClass) else r.attrs;
              && rv == r.rv
              && Model() == Allocate(old(Model()), Item(o, PlaceFor(caller, p.onToken, p.isPrivate), MadeBy(op), rv == OK))
    {
      hide Templates.SaveTemplate, Initialised, SchemaOf, MarkCreated, Model, Valid, Others;
      id := next;
      var number := next;
      ghost var w;
      var obj;
      obj, w := NewStoredObject(PlaceFor(caller, p.onToken, p.isPrivate), MadeBy(op));
      rv := FillStored(ctx, p, c, number, attribs, op);
      if rv == OK { MarkFinished(number); }
      Added(w, id);
    }

    /** Initialises a new object as one of its class and saves the template. */
    static method Fill(ctx: Context, p: Plan, c: ClassId, obj: OSObject, attribs: Template, op: Op) returns (rv: Rv)
      requires obj.saved == None && obj.attrs == map[]
      modifies obj
      ensures obj.saved == None
      ensures var r := Templates.SaveTemplate(Job(ctx, SchemaOf(c), p.isPrivate, op), Initialised(c, map[]), attribs, obj.rollback);
              && rv == r.rv
              && obj.attrs == if rv == OK && op.Create? then MarkCreated(r.attrs, p.objClass) else r.attrs
    {
      hide Templates.SaveTemplate, Initialised, SchemaOf;
      var p11 := new P11Object(c, obj);
      rv := p11.SaveTemplate(ctx, p.isPrivate, attribs, op);
      if rv == OK && op == Create { MarkAsCreated(obj, p.objClass); }
    }

    /** How the state looks when one object has been added and nothing else touched. */
    ghost method Added(w: World, id: Id)
      requires Valid() && id in objects && next == w.next + 1
      requires (handles, byObject, lastHandle) == (w.handles, w.byObject, w.lastHandle)
      requires Others(w, id)
      ensures Model() == w.(items := w.items[id := Record(id)], next := w.next + 1)
    {
      assert Model().items == w.items[id := Record(id)];
    }

    method CreateObject(ctx: Context, caller: Caller, es: Template, op: Op) returns (rv: Rv, h: Handle)
      requires Valid() && op != Copy && op != Set
      modifies this
      ensures Valid() && Reply(Model(), rv, h) == ObjectStore.CreateObject(old(Model()), ctx, caller, es, op)
      ensures fresh(objects.Values - old(objects.Values))
    {
      hide ReadPlan, CheckValueLast, Templates.SaveTemplate, Initialised, SchemaOf, ClassOf, ObjectStore.Register, Stored, Record;
      hide MarkCreated, PlaceFor, HaveWrite, Valid, Model;
      h := CK_INVALID_HANDLE;
      var p: Plan;
      rv, p := ExtractObjectInformation(es, false, DEFAULT_PLAN);
      if rv != OK { return; }
      rv := HaveWrite(caller.state, p.onToken, p.isPrivate);
      if rv != OK { return; }
      if |es| > MAX_ATTRIBS { rv := TEMPLATE_INCONSISTENT; return; }
      var attribs := PutCheckValueLast(es);
      var c := ClassOf(p.objClass, p.keyType, p.certType);
      if c.None? { rv := ATTRIBUTE_VALUE_INVALID; return; }
      var id := next;
      ghost var made;
      rv, made := MakeStored(ctx, caller, p, c.value, attribs, op);
      if rv != OK { return; }
      h := Register(id, p.isPrivate, if p.onToken then 0 else caller.session);
    }

    /** What is written to an object that C_CreateObject made. */
    static method MarkAsCreated(obj: OSObject, objClass: nat)
      requires obj.saved == None
      modifies obj
      ensures obj.saved == None && obj.attrs == MarkCreated(old(obj.attrs), objClass)
    {
      var ok: bool;
      if objClass == CKO_PUBLIC_KEY {
        ok := obj.StartTransaction();
        obj.SetAttribute(CKA_LOCAL, BoolV(false));
        ok := obj.CommitTransaction();
      }
      if objClass == CKO_SECRET_KEY || objClass == CKO_PRIVATE_KEY {
        ok := obj.StartTransaction();
        obj.SetAttribute(CKA_LOCAL, BoolV(false));
        obj.SetAttribute(CKA_ALWAYS_SENSITIVE, BoolV(false));
        obj.SetAttribute(CKA_NEVER_EXTRACTABLE, BoolV(false));
        ok := obj.CommitTransaction();
      }
    }

    // ----- copying ----------------------------------------------------------------------------

    /** Walks over the attributes of an object, first to last, carrying each over to the copy. */
    static method Transcribe(ctx: Context, source: OSObject, copy: OSObject, upgrade: bool) returns (rv: Rv)
      requires source != copy && copy.saved == None && copy.attrs == map[]
      modifies copy
      ensures copy.saved == None
      ensures var t := Transcript(ctx, upgrade, source.attrs);
              && rv == (if t.Some? then OK else FUNCTION_FAILED)
              && (t.Some? ==> copy.attrs == t.value)
    {
      rv := OK;
      var ok := copy.StartTransaction();
      ghost var o := source.attrs;
      ghost var todo := o.Keys;
      var attrType, more := CKA_CLASS, true;
      while more
        invariant source.attrs == o && source.saved == old(source.saved)
        invariant copy.saved == if copy.rollback then Some(map[]) else None
        invariant todo == set a | a in o && (more && rv == OK && attrType <= a)
        invariant rv == OK ==> CarriedOver(ctx, upgrade, o, copy.attrs, todo)
        invariant rv != OK ==> Transcript(ctx, upgrade, o).None? && !more
        invariant rv in {OK, FUNCTION_FAILED}
        invariant !more && rv == OK ==> CKA_CLASS in o
        invariant attrType != CKA_CLASS ==> attrType in o && CKA_CLASS in o
        decreases more, todo
      {
        if attrType !in source.attrs {
          rv, more, todo := FUNCTION_FAILED, false, {};
          break;
        }
        var v := source.attrs[attrType];
        if upgrade && v.BytesV? && v.s != [] {
          var sealed := ctx.Encrypt(v.s);
          if sealed.None? {
            assert Transcribed(ctx, upgrade, o[attrType]).None?;
            rv, more, todo := FUNCTION_FAILED, false, {};
            break;
          }
          v := BytesV(sealed.value);
        }
        copy.SetAttribute(attrType, v);
        var following := source.NextAttributeType(attrType);
        todo := todo - {attrType};
        more := following != CKA_CLASS;
        attrType := following;
      }
      if rv != OK {
        ok := copy.AbortTransaction();
      } else {
        TranscriptIs(ctx, upgrade, o, copy.attrs);
        ok := copy.CommitTransaction();
      }
    }

    /** What becomes of a new stored object that is to be the copy of `o`. */
    static ghost function Filled(ctx: Context, o: Attrs, upgrade: bool, isPrivate: bool, es: Template, rollback: bool): Outcome {
      var t := Transcript(ctx, upgrade, o);
      if t.None? then Outcome(map[], FUNCTION_FAILED)
      else if StoredClass(t.value).None? then Outcome(t.value, ATTRIBUTE_VALUE_INVALID)
      else
        var c := StoredClass(t.value).value;
        Templates.SaveTemplate(Job(ctx, SchemaOf(c), isPrivate, Copy), Initialised(c, t.value), es, rollback)
    }

    /** Makes a new stored object the copy of another: carries the attributes over, then applies the
        template. */
    static method FillCopy(ctx: Context, source: OSObject, copy: OSObject, upgrade: bool, isPrivate: bool, es: Template) returns (rv: Rv)
      requires source != copy && copy.saved == None && copy.attrs == map[]
      modifies copy
      ensures copy.saved == None
      ensures var r := Filled(ctx, source.attrs, upgrade, isPrivate, es, copy.rollback);
              rv == r.rv && (rv == OK ==> copy.attrs == r.attrs)
    {
      hide Transcript, Templates.SaveTemplate, Initialised, SchemaOf, StoredClass;
      rv := Transcribe(ctx, source, copy, upgrade);
      if rv != OK { return; }
      var c := StoredClass(copy.attrs);
      if c.None? { return ATTRIBUTE_VALUE_INVALID; }
      var p11 := new P11Object(c.value, copy);
      rv := p11.SaveTemplate(ctx, isPrivate, es, Copy);
    }

    method CopyStored(ctx: Context, caller: Caller, id: Id, onToken: bool, isPrivate: bool, es: Template) returns (rv: Rv, copy: Id)
      requires Valid() && id in objects
      modifies this`objects, this`next, this`origins, this`unfinished
      ensures Valid() && copy == old(next) && copy == old(Model()).next
      ensures var o := old(objects[id].attrs);
              var r := Filled(ctx, o, !IsPrivate(o) && isPrivate, isPrivate, es, onToken);
              && rv == r.rv
              && Model() == if rv != OK then old(Model()).(next := old(next) + 1)
                            else Allocate(old(Model()), Item(r.attrs, PlaceFor(caller, onToken, isPrivate), CopyOf(id), true))
    {
      hide Filled, IsPrivate, Model, Valid, Others;
      copy := next;
      var source := objects[id];
      ghost var w;
      var obj;
      obj, w := NewStoredObject(PlaceFor(caller, onToken, isPrivate), CopyOf(id));
      rv := FillCopyStored(ctx, id, copy, !IsPrivate(source.attrs) && isPrivate, isPrivate, es);
      if rv == OK { MarkFinished(copy); }
      Settle(w, copy, rv == OK);
    }

    /** Keeps the object just added, or destroys it again. */
    method Settle(ghost w: World, id: Id, keep: bool)
      requires Valid() && id in objects && id !in w.items && Others(w, id) && id == w.next && next == w.next + 1
      requires (handles, byObject, lastHandle) == (w.handles, w.byObject, w.lastHandle)
      modifies this`objects, this`origins
      ensures Valid() && Model() == if keep then Allocate(w, old(Record(id))) else w.(next := w.next + 1)
    {
      if keep {
        Added(w, id);
      } else {
        Dropped(w, id);
        Remove(id);
      }
    }

    /** Removing what was just added brings the stored objects back to what they were. */
    ghost method Dropped(w: World, id: Id)
      requires Valid() && id in objects && id !in w.items && Others(w, id) && next == w.next + 1
      requires (handles, byObject, lastHandle) == (w.handles, w.byObject, w.lastHandle)
      ensures ObjectStore.Remove(Model(), id) == w.(next := w.next + 1)
    {
      assert Model().items - {id} == w.items;
    }

    method FillCopyStored(ctx: Context, id: Id, copy: Id, upgrade: bool, isPrivate: bool, es: Template) returns (rv: Rv)
      requires Valid() && id in objects && copy in objects && id != copy && objects[copy].attrs == map[]
      modifies objects[copy]
      ensures Valid()
      ensures forall w: World :: old(Others(w, copy)) ==> Others(w, copy)
      ensures var r := Filled(ctx, objects[id].attrs, upgrade, isPrivate, es, objects[copy].rollback);
              rv == r.rv && (rv == OK ==> objects[copy].attrs == r.attrs)
    {
      hide Filled;
      rv := FillCopy(ctx, objects[id], objects[copy], upgrade, isPrivate, es);
    }

    method GetObject(h: Handle) returns (id: Option<Id>)
      requires Valid()
      ensures id == Lookup(Model(), h) && (id.Some? ==> id.value in objects && objects[id.value].attrs == Model().items[id.value].attrs)
    {
      if h in handles && handles[h].target in objects { return Some(handles[h].target); }
      return None;
    }

    method CopyObject(ctx: Context, caller: Caller, h: Handle, es: Template) returns (rv: Rv, copy: Handle)
      requires Valid()
      modifies this
      ensures Valid() && Reply(Model(), rv, copy) == ObjectStore.CopyObject(old(Model()), ctx, caller, h, es)
    {
      hide Transcript, Templates.SaveTemplate, Initialised, SchemaOf, StoredClass, ObjectStore.Register, LastFlag, HaveWrite, HaveRead;
      hide Stored, Record, PlaceFor, Copyable, Model, Valid;
      copy := CK_INVALID_HANDLE;
      var id := GetObject(h);
      if id.None? { rv := OBJECT_HANDLE_INVALID; return; }
      var o := objects[id.value].attrs;
      rv := HaveRead(caller.state, IsOnToken(o), IsPrivate(o));
      if rv != OK { return; }
      if !Copyable(o) { rv := ACTION_PROHIBITED; return; }
      var onToken, isPrivate := WantedFlags(es, IsOnToken(o), IsPrivate(o));
      if IsPrivate(o) && !isPrivate { rv := TEMPLATE_INCONSISTENT; return; }
      rv := HaveWrite(caller.state, onToken, isPrivate);
      if rv != OK { return; }
      var new_id;
      rv, new_id := CopyStored(ctx, caller, id.value, onToken, isPrivate, es);
      if rv != OK { return; }
      copy := Register(new_id, isPrivate, if onToken then 0 else caller.session);
    }

    // ----- changing, reading, destroying --------------------------------------------------------

    /** Saves a template on a stored object through its class. */
    method SaveStored(ctx: Context, id: Id, c: ClassId, isPrivate: bool, es: Template) returns (rv: Rv)
      requires Valid() && id in objects
      modifies objects[id]
      ensures Valid()
      ensures var r := Templates.SaveTemplate(Job(ctx, SchemaOf(c), isPrivate, Set), Initialised(c, old(objects[id].attrs)), es, objects[id].rollback);
              rv == r.rv && Model() == PutAttrs(old(Model()), id, r.attrs)
    {
      hide Templates.SaveTemplate, Initialised, SchemaOf;
      ghost var w := Model();
      var p11 := new P11Object(c, objects[id]);
      rv := p11.SaveTemplate(ctx, isPrivate, es, Set);
      Changed(w, id);
    }

    ghost method Changed(w: World, id: Id)
      requires Valid() && id in objects && w.items.Keys == objects.Keys
      requires (next, handles, byObject, lastHandle) == (w.next, w.handles, w.byObject, w.lastHandle)
      requires forall j :: j in w.items && j != id ==> Record(j) == w.items[j]
      requires Record(id) == w.items[id].(attrs := objects[id].attrs)
      ensures Model() == PutAttrs(w, id, objects[id].attrs)
    {
      assert Model().items == w.items[id := w.items[id].(attrs := objects[id].attrs)];
    }

    method SetAttributeValue(ctx: Context, caller: Caller, h: Handle, es: Template) returns (rv: Rv)
      requires Valid()
      modifies objects.Values
      ensures Valid() && Refuse(Model(), rv) == ObjectStore.SetAttributeValue(old(Model()), ctx, caller, h, es)
    {
      hide Templates.SaveTemplate, Initialised, SchemaOf, StoredClass, HaveWrite, Modifiable;
      var id := GetObject(h);
      if id.None? { return OBJECT_HANDLE_INVALID; }
      var o := objects[id.value].attrs;
      rv := HaveWrite(caller.state, IsOnToken(o), IsPrivate(o));
      if rv != OK { return; }
      if !Modifiable(o) { return ACTION_PROHIBITED; }
      var c := StoredClass(o);
      if c.None? { return ATTRIBUTE_VALUE_INVALID; }
      rv := SaveStored(ctx, id.value, c.value, IsPrivate(o), es);
    }

    /** Reads attributes. Wrapping the object in its class fills in attributes that it lacks; apart
        from that nothing changes. A caller who may not read the object gets a general error. */
    method GetAttributeValue(ctx: Context, caller: Caller, h: Handle, slots: seq<Slot>) returns (rv: Rv)
      requires Valid() && forall i, j :: 0 <= i < j < |slots| ==> slots[i] != slots[j]
      modifies objects.Values, slots
      ensures Valid()
      ensures var r := ObjectStore.GetAttributeValue(old(Model()), ctx, caller, h, Requests(slots));
              && Model() == AfterReading(old(Model()), caller, h) && rv == r.rv
              && (r.answers.Some? ==> forall i :: 0 <= i < |slots| && Reached(r.answers.value, i) ==> Answered(slots[i], r.answers.value[i]))
      ensures var r := ObjectStore.GetAttributeValue(old(Model()), ctx, caller, h, Requests(slots));
              forall i :: 0 <= i < |slots| && !(r.answers.Some? && Reached(r.answers.value, i)) ==> unchanged(slots[i])
    {
      hide Initialised, SchemaOf, StoredClass, HaveRead, Verdict, AnswerTo, Answers, Answered, Requests;
      var id := GetObject(h);
      if id.None? { return OBJECT_HANDLE_INVALID; }
      var o := objects[id.value].attrs;
      if HaveRead(caller.state, IsOnToken(o), IsPrivate(o)) != OK { return GENERAL_ERROR; }
      var c := StoredClass(o);
      if c.None? { return ATTRIBUTE_VALUE_INVALID; }
      rv := ReadStored(ctx, id.value, c.value, slots);
    }

    method ReadStored(ctx: Context, id: Id, c: ClassId, slots: seq<Slot>) returns (rv: Rv)
      requires Valid() && id in objects && forall i, j :: 0 <= i < j < |slots| ==> slots[i] != slots[j]
      modifies objects[id], slots
      ensures Valid() && Model() == PutAttrs(old(Model()), id, Initialised(c, old(objects[id].attrs)))
      ensures var answers := Answers(ctx, SchemaOf(c), Initialised(c, old(objects[id].attrs)), Requests(slots));
              && rv == Verdict(answers)
              && (forall i :: 0 <= i < |slots| && Reached(answers, i) ==> Answered(slots[i], answers[i]))
      ensures var answers := Answers(ctx, SchemaOf(c), Initialised(c, old(objects[id].attrs)), Requests(slots));
              forall i :: 0 <= i < |slots| && !Reached(answers, i) ==> unchanged(slots[i])
    {
      hide Initialised, SchemaOf, Verdict, AnswerTo, Requests;
      ghost var w := Model();
      var p11 := new P11Object(c, objects[id]);
      rv := p11.LoadTemplate(ctx, slots);
      Changed(w, id);
    }

    method DestroyObject(caller: Caller, h: Handle) returns (rv: Rv)
      requires Valid()
      modifies this
      ensures Valid() && Refuse(Model(), rv) == ObjectStore.DestroyObject(old(Model()), caller, h)
    {
      hide HaveWrite, ObjectStore.Forget, ObjectStore.Remove;
      var id := GetObject(h);
      if id.None? { return OBJECT_HANDLE_INVALID; }
      var o := objects[id.value].attrs;
      rv := HaveWrite(caller.state, IsOnToken(o), IsPrivate(o));
      if rv != OK { return; }
      if !Flag(o, CKA_DESTROYABLE, true) { return ACTION_PROHIBITED; }
      Forget(h);
      Remove(id.value);
    }

    // ----- keys that the library makes -------------------------------------------------------------

    static method PutKey(ctx: Context, isPrivate: bool, obj: OSObject, key: Bytes, kcv: Option<Bytes>)
      modifies obj`attrs
      ensures obj.attrs == StoreKey(ctx, isPrivate, old(obj.attrs), key, kcv)
    {
      obj.SetAttribute(CKA_VALUE, Store(ctx, isPrivate, key));
      if kcv.Some? { obj.SetAttribute(CKA_CHECK_VALUE, Store(ctx, isPrivate, kcv.value)); }
    }

    static method WriteGenerated(ctx: Context, isPrivate: bool, mechanism: nat, keyType: nat, key: Bytes, checkValue: bool, obj: OSObject)
      requires obj.saved == None
      modifies obj
      ensures obj.saved == None
      ensures Some(obj.attrs) == ContributeGenerated(ctx, isPrivate, mechanism, keyType, key, checkValue)(old(obj.attrs))
    {
      hide KcvOf;
      var ok := obj.StartTransaction();
      obj.SetAttribute(CKA_LOCAL, BoolV(true));
      obj.SetAttribute(CKA_KEY_GEN_MECHANISM, NumberV(mechanism));
      obj.SetAttribute(CKA_ALWAYS_SENSITIVE, BoolV(Flag(obj.attrs, CKA_SENSITIVE, false)));
      obj.SetAttribute(CKA_NEVER_EXTRACTABLE, BoolV(!Flag(obj.attrs, CKA_EXTRACTABLE, false)));
      PutKey(ctx, isPrivate, obj, key, if checkValue then KcvOf(ctx.token, keyType, key) else None);
      ok := obj.CommitTransaction();
    }

    method WriteGeneratedAt(ctx: Context, isPrivate: bool, mechanism: nat, keyType: nat, key: Bytes, checkValue: bool, id: Id)
      requires Valid() && id in objects
      modifies objects[id]
      ensures Valid()
      ensures var f := ContributeGenerated(ctx, isPrivate, mechanism, keyType, key, checkValue);
              f(old(objects[id].attrs)).Some? && Model() == PutAttrs(old(Model()), id, f(old(objects[id].attrs)).value)
    {
      hide ContributeGenerated;
      ghost var w := Model();
      WriteGenerated(ctx, isPrivate, mechanism, keyType, key, checkValue, objects[id]);
      Changed(w, id);
    }

    /** Records where a key comes from. */
    ghost method Attribute(id: Id, origin: Origin)
      requires Valid() && id in objects
      modifies this`origins
      ensures Valid()
      ensures var w := old(Model()); Model() == w.(items := w.items[id := w.items[id].(origin := origin)])
    {
      ghost var w := Model();
      origins := origins[id := origin];
      assert Model().items == w.items[id := w.items[id].(origin := origin)];
    }

    method FinishGenerated(ctx: Context, isPrivate: bool, mechanism: nat, keyType: nat, key: Bytes, checkValue: bool, h: Handle)
      returns (rv: Rv, out: Handle)
      requires Valid()
      modifies objects.Values, this`origins
      ensures Valid() && objects == old(objects)
      ensures Reply(Model(), rv, out)
           == CompleteKey(Reply(old(Model()), OK, h), MadeBy(Generate), ContributeGenerated(ctx, isPrivate, mechanism, keyType, key, checkValue))
    {
      hide ContributeGenerated, Stored, Model, Valid;
      out := CK_INVALID_HANDLE;
      var id := GetObject(h);
      if id.None? { rv := FUNCTION_FAILED; return; }
      WriteGeneratedAt(ctx, isPrivate, mechanism, keyType, key, checkValue, id.value);
      Attribute(id.value, MadeBy(Generate));
      rv, out := OK, h;
    }

    method GenerateSecret(ctx: Context, caller: Caller, p: Plan, es: Template, random: nat -> Bytes) returns (rv: Rv, h: Handle)
      requires Valid()
      modifies this, objects.Values
      ensures Valid() && Reply(Model(), rv, h) == ObjectStore.GenerateSecret(old(Model()), ctx, caller, p, es, random)
    {
      hide SecretWish, ContributeGenerated, Header, Rest, ObjectStore.CreateObject, CompleteKey, Stored, Record, Model, Valid;
      h := CK_INVALID_HANDLE;
      var wish := ReadSecretWishes(p.keyType, es);
      if wish.rv != OK { rv := wish.rv; return; }
      if wish.len == 0 { rv := TEMPLATE_INCOMPLETE; return; }
      if !LengthAllowed(p.keyType, wish.len) { rv := ATTRIBUTE_VALUE_INVALID; return; }
      var key := random(wish.len);
      var attribs;
      rv, attribs := Assemble(p, es, true);
      if rv != OK { return; }
      rv, h := CreateObject(ctx, caller, attribs, Generate);
      if rv != OK { return; }
      rv, h := FinishGenerated(ctx, p.isPrivate, MechanismFor(p.keyType), p.keyType, key, wish.checkValue, h);
    }

    method GenerateKey(ctx: Context, caller: Caller, keyType: nat, es: Template, random: nat -> Bytes) returns (rv: Rv, h: Handle)
      requires Valid()
      modifies this, objects.Values
      ensures Valid() && Reply(Model(), rv, h) == ObjectStore.GenerateKey(old(Model()), ctx, caller, keyType, es, random)
    {
      hide ReadPlan, HaveWrite, ObjectStore.GenerateSecret, Stored, Record, Model, Valid;
      h := CK_INVALID_HANDLE;
      if !Generates(keyType) { rv := MECHANISM_INVALID; return; }
      var p: Plan;
      rv, p := ExtractObjectInformation(es, true, DEFAULT_PLAN.(objClass := CKO_SECRET_KEY, keyType := keyType));
      if p.objClass != CKO_SECRET_KEY && p.objClass != CKO_DOMAIN_PARAMETERS { rv := ATTRIBUTE_VALUE_INVALID; return; }
      if p.objClass != CKO_SECRET_KEY || p.keyType != keyType { rv := TEMPLATE_INCONSISTENT; return; }
      rv := HaveWrite(caller.state, p.onToken, p.isPrivate);
      if rv != OK { return; }
      rv, h := GenerateSecret(ctx, caller, p, es, random);
    }

    /** Destroys a key that could not be completed. */
    method Scrap(h: Handle, id: Id)
      requires Valid()
      modifies this
      ensures Valid() && Model() == Discard(old(Model()), h, id)
    {
      Forget(h);
      Remove(id);
    }

    /** Writes the parts of a key, one attribute each. */
    static method PutParts(ctx: Context, isPrivate: bool, parts: KeyParts, obj: OSObject)
      modifies obj`attrs
      ensures obj.attrs == old(obj.attrs) + StoreParts(ctx, isPrivate, parts)
    {
      hide Store, IsKeyPart;
      ghost var o := obj.attrs;
      ghost var stored := StoreParts(ctx, isPrivate, parts);
      var todo := parts.Keys;
      assert obj.attrs == o + (stored - todo);
      while todo != {}
        invariant todo <= parts.Keys
        invariant obj.attrs == o + (stored - todo)
        decreases todo
      {
        var a :| a in todo;
        ghost var before := stored - todo;
        obj.SetAttribute(a, Store(ctx, isPrivate, parts[a]));
        todo := todo - {a};
        assert stored - todo == before[a := stored[a]];
      }
      assert stored - todo == stored;
    }

    static method WriteUnwrapped(ctx: Context, isPrivate: bool, parts: KeyParts, obj: OSObject)
      requires obj.saved == None
      modifies obj
      ensures obj.saved == None
      ensures Some(obj.attrs) == ContributeUnwrapped(ctx, isPrivate, Some(parts))(old(obj.attrs))
    {
      hide StoreParts, IsKeyPart;
      var ok := obj.StartTransaction();
      obj.SetAttribute(CKA_LOCAL, BoolV(false));
      obj.SetAttribute(CKA_ALWAYS_SENSITIVE, BoolV(false));
      obj.SetAttribute(CKA_NEVER_EXTRACTABLE, BoolV(false));
      PutParts(ctx, isPrivate, parts, obj);
      ok := obj.CommitTransaction();
    }

    method WriteUnwrappedAt(ctx: Context, isPrivate: bool, parts: KeyParts, id: Id)
      requires Valid() && id in objects
      modifies objects[id]
      ensures Valid()
      ensures var f := ContributeUnwrapped(ctx, isPrivate, Some(parts));
              f(old(objects[id].attrs)).Some? && Model() == PutAttrs(old(Model()), id, f(old(objects[id].attrs)).value)
    {
      hide ContributeUnwrapped;
      ghost var w := Model();
      WriteUnwrapped(ctx, isPrivate, parts, objects[id]);
      Changed(w, id);
    }

    method FinishUnwrapped(ctx: Context, isPrivate: bool, parts: Option<KeyParts>, h: Handle) returns (rv: Rv, out: Handle)
      requires Valid()
      modifies this, objects.Values
      ensures Valid()
      ensures Reply(Model(), rv, out)
           == CompleteKey(Reply(old(Model()), OK, h), MadeBy(Unwrap), ContributeUnwrapped(ctx, isPrivate, parts))
    {
      hide ContributeUnwrapped, Stored, Model, Valid, ObjectStore.Forget, ObjectStore.Remove;
      out := CK_INVALID_HANDLE;
      UndecodedKey(ctx, isPrivate);
      var id := GetObject(h);
      if id.None? { rv := FUNCTION_FAILED; return; }
      if parts.None? { Scrap(h, id.value); rv := FUNCTION_FAILED; return; }
      rv, out := FinishDecoded(ctx, isPrivate, parts.value, h, id.value);
    }

    method FinishDecoded(ctx: Context, isPrivate: bool, parts: KeyParts, h: Handle, id: Id) returns (rv: Rv, out: Handle)
      requires Valid() && id in objects && Lookup(Model(), h) == Some(id)
      modifies this, objects.Values
      ensures Valid()
      ensures Reply(Model(), rv, out)
           == CompleteKey(Reply(old(Model()), OK, h), MadeBy(Unwrap), ContributeUnwrapped(ctx, isPrivate, Some(parts)))
    {
      hide ContributeUnwrapped, Stored, Record, Lookup, Model, Valid, ObjectStore.Forget, ObjectStore.Remove;
      StillThere(id);
      WriteUnwrappedAt(ctx, isPrivate, parts, id);
      Attribute(id, MadeBy(Unwrap));
      rv, out := OK, h;
    }

    /** Makes a key from the decoded parts of an unwrapped one. */
    method UnwrapKey(ctx: Context, caller: Caller, es: Template, parts: Option<KeyParts>) returns (rv: Rv, h: Handle)
      requires Valid()
      modifies this, objects.Values
      ensures Valid() && Reply(Model(), rv, h) == ObjectStore.UnwrapKey(old(Model()), ctx, caller, es, parts)
    {
      hide ReadPlan, HaveWrite, ContributeUnwrapped, Header, Rest, ObjectStore.CreateObject, CompleteKey, Stored, Record, Model, Valid;
      h := CK_INVALID_HANDLE;
      var p: Plan;
      rv, p := ExtractObjectInformation(es, false, DEFAULT_PLAN);
      if rv != OK { return; }
      if p.objClass != CKO_SECRET_KEY && p.objClass != CKO_PRIVATE_KEY { rv := ATTRIBUTE_VALUE_INVALID; return; }
      rv := HaveWrite(caller.state, p.onToken, p.isPrivate);
      if rv != OK { return; }
      var attribs;
      rv, attribs := Assemble(p, es, false);
      if rv != OK { return; }
      rv, h := CreateObject(ctx, caller, attribs, Unwrap);
      if rv != OK { return; }
      rv, h := FinishUnwrapped(ctx, p.isPrivate, parts, h);
    }

    // ----- deriving ----------------------------------------------------------------------------------

    /** The claims of a derived key. */
    static method WriteClaims(d: Derivation, base: Attrs, other: Attrs, obj: OSObject)
      modifies obj`attrs
      ensures obj.attrs == DeriveClaims(d, base, other, old(obj.attrs))
    {
      if d.ConcatKey? {
        if Flag(base, CKA_SENSITIVE, true) || Flag(other, CKA_SENSITIVE, true) { obj.SetAttribute(CKA_SENSITIVE, BoolV(true)); }
        if !(Flag(base, CKA_EXTRACTABLE, true) && Flag(other, CKA_EXTRACTABLE, true)) { obj.SetAttribute(CKA_EXTRACTABLE, BoolV(false)); }
        obj.SetAttribute(CKA_ALWAYS_SENSITIVE,
                         BoolV(Flag(base, CKA_ALWAYS_SENSITIVE, false) && Flag(other, CKA_ALWAYS_SENSITIVE, false)));
        obj.SetAttribute(CKA_ALWAYS_SENSITIVE,
                         BoolV(Flag(base, CKA_NEVER_EXTRACTABLE, false) && Flag(other, CKA_NEVER_EXTRACTABLE, false)));
      } else if d.ConcatData? {
        if Flag(base, CKA_SENSITIVE, true) { obj.SetAttribute(CKA_SENSITIVE, BoolV(true)); }
        if !Flag(base, CKA_EXTRACTABLE, false) { obj.SetAttribute(CKA_EXTRACTABLE, BoolV(false)); }
        obj.SetAttribute(CKA_ALWAYS_SENSITIVE, BoolV(Flag(base, CKA_ALWAYS_SENSITIVE, false)));
        obj.SetAttribute(CKA_NEVER_EXTRACTABLE, BoolV(Flag(base, CKA_NEVER_EXTRACTABLE, false)));
      } else {
        obj.SetAttribute(CKA_ALWAYS_SENSITIVE,
                         BoolV(Flag(base, CKA_ALWAYS_SENSITIVE, false) && Flag(obj.attrs, CKA_SENSITIVE, false)));
        obj.SetAttribute(CKA_NEVER_EXTRACTABLE,
                         BoolV(Flag(base, CKA_NEVER_EXTRACTABLE, true) && !Flag(obj.attrs, CKA_EXTRACTABLE, false)));
      }
    }

    /** Cuts the key from the secret and writes it with its claims and its check value; nothing is
        written if the secret is too short or the key type has no check value. */
    static method WriteDerived(ctx: Context, p: Plan, d: Derivation, base: Attrs, other: Attrs, raw: Bytes, len: nat,
                               checkValue: bool, parity: byte -> byte, obj: OSObject) returns (ok: bool)
      requires obj.saved == None
      modifies obj
      ensures obj.saved == None
      ensures var r := ContributeDerived(ctx, p, d, base, other, raw, len, checkValue, parity)(old(obj.attrs));
              ok == r.Some? && obj.attrs == if ok then r.value else old(obj.attrs)
    {
      hide KcvOf, DeriveClaims, Cut;
      if len > |raw| { return false; }
      var key := FixParity(parity, p.keyType, Cut(d, raw, len));
      var kcv := KcvOf(ctx.token, p.keyType, if d.Agreement? then raw else key);
      if kcv.None? { return false; }
      ok := obj.StartTransaction();
      obj.SetAttribute(CKA_LOCAL, BoolV(false));
      WriteClaims(d, base, other, obj);
      PutKey(ctx, p.isPrivate, obj, key, if checkValue then kcv else None);
      ok := obj.CommitTransaction();
    }

    method WriteDerivedAt(ctx: Context, p: Plan, d: Derivation, base: Attrs, other: Attrs, raw: Bytes, len: nat,
                          checkValue: bool, parity: byte -> byte, id: Id) returns (ok: bool)
      requires Valid() && id in objects
      modifies objects[id]
      ensures Valid()
      ensures var r := ContributeDerived(ctx, p, d, base, other, raw, len, checkValue, parity)(old(objects[id].attrs));
              ok == r.Some? && Model() == if ok then PutAttrs(old(Model()), id, r.value) else old(Model())
    {
      hide ContributeDerived;
      ghost var w := Model();
      ok := WriteDerived(ctx, p, d, base, other, raw, len, checkValue, parity, objects[id]);
      Changed(w, id);
    }

    method FinishDerived(ctx: Context, p: Plan, d: Derivation, base: Attrs, other: Attrs, raw: Bytes, len: nat,
                         checkValue: bool, parity: byte -> byte, ghost origin: Origin, h: Handle) returns (rv: Rv, out: Handle)
      requires Valid()
      modifies this, objects.Values
      ensures Valid()
      ensures Reply(Model(), rv, out)
           == CompleteKey(Reply(old(Model()), OK, h), origin, ContributeDerived(ctx, p, d, base, other, raw, len, checkValue, parity))
    {
      hide ContributeDerived, Stored, Model, Valid, ObjectStore.Forget, ObjectStore.Remove;
      out := CK_INVALID_HANDLE;
      var id := GetObject(h);
      if id.None? { rv := FUNCTION_FAILED; return; }
      var ok := WriteDerivedAt(ctx, p, d, base, other, raw, len, checkValue, parity, id.value);
      if !ok { Scrap(h, id.value); rv := FUNCTION_FAILED; return; }
      Attribute(id.value, origin);
      rv, out := OK, h;
    }

    method MakeDerived(ctx: Context, caller: Caller, p: Plan, d: Derivation, es: Template, base: Attrs, other: Attrs, raw: Bytes,
                       len: nat, checkValue: bool, parity: byte -> byte, ghost origin: Origin) returns (rv: Rv, h: Handle)
      requires Valid()
      modifies this, objects.Values
      ensures Valid()
      ensures Reply(Model(), rv, h)
           == MakeKey(old(Model()), ctx, caller, p, es, true, Derive, origin,
                      ContributeDerived(ctx, p, d, base, other, raw, len, checkValue, parity))
    {
      hide ContributeDerived, Header, Rest, ObjectStore.CreateObject, CompleteKey, Stored, Model, Valid, Record;
      h := CK_INVALID_HANDLE;
      var attribs;
      rv, attribs := Assemble(p, es, true);
      if rv != OK { return; }
      rv, h := CreateObject(ctx, caller, attribs, Derive);
      if rv != OK { return; }
      rv, h := FinishDerived(ctx, p, d, base, other, raw, len, checkValue, parity, origin, h);
    }

    method DeriveFrom(ctx: Context, caller: Caller, p: Plan, d: Derivation, es: Template, parity: byte -> byte, id: Id, other: Id)
      returns (rv: Rv, h: Handle)
      requires Valid() && id in objects && other in objects
      modifies this, objects.Values
      ensures Valid() && id in old(Model()).items && other in old(Model()).items
      ensures Reply(Model(), rv, h) == ObjectStore.DeriveFrom(old(Model()), ctx, caller, p, d, es, parity, id, other)
    {
      hide ContributeDerived, ReadWish, RawSecret, DerivedLength, MakeKey, ConcatenatedLength, Material, Stored;
      h := CK_INVALID_HANDLE;
      var base, second := objects[id].attrs, objects[other].attrs;
      AttrsStored();
      hide Model, Valid, Record;
      if d.ConcatKey? && Material(ctx, second, true).None? { rv := GENERAL_ERROR; return; }
      var wish := ReadWishes(es, true);
      if wish.rv != OK { rv := wish.rv; return; }
      var length := if d.Implicit() && wish.len == 0 then Length(OK, 0) else DerivedLength(p.keyType, wish.len);
      if length.rv != OK { rv := length.rv; return; }
      var raw := RawSecret(ctx, d, base, second);
      if raw.None? { rv := GENERAL_ERROR; return; }
      if d.Implicit() && length.len == 0 { length := ConcatenatedLength(p.keyType, |raw.value|); }
      if length.rv != OK { rv := length.rv; return; }
      rv, h := MakeDerived(ctx, caller, p, d, es, base, second, raw.value, length.len, wish.checkValue, parity, DerivedFrom({id, other}, d.Agreement?));
    }

    method DeriveKey(ctx: Context, caller: Caller, h: Handle, d: Derivation, es: Template, parity: byte -> byte)
      returns (rv: Rv, out: Handle)
      requires Valid()
      modifies this, objects.Values
      ensures Valid() && Reply(Model(), rv, out) == ObjectStore.DeriveKey(old(Model()), ctx, caller, h, d, es, parity)
    {
      hide ReadPlan, HaveWrite, HaveRead, ObjectStore.DeriveFrom, Stored, Record, Model, Valid;
      out := CK_INVALID_HANDLE;
      var id := GetObject(h);
      if id.None? { rv := OBJECT_HANDLE_INVALID; return; }
      var base := objects[id.value].attrs;
      rv := HaveRead(caller.state, IsOnToken(base), IsPrivate(base));
      if rv != OK { return; }
      if !Flag(base, CKA_DERIVE, false) { rv := KEY_FUNCTION_NOT_PERMITTED; return; }
      var p: Plan;
      rv, p := ExtractObjectInformation(es, d.Implicit(),
                 if d.Implicit() then DEFAULT_PLAN.(objClass := CKO_SECRET_KEY, keyType := CKK_GENERIC_SECRET) else DEFAULT_PLAN);
      if rv != OK { return; }
      if p.objClass != CKO_SECRET_KEY { rv := ATTRIBUTE_VALUE_INVALID; return; }
      if p.keyType !in {CKK_GENERIC_SECRET, CKK_DES, CKK_DES2, CKK_DES3, CKK_AES} { rv := TEMPLATE_INCONSISTENT; return; }
      rv := HaveWrite(caller.state, p.onToken, p.isPrivate);
      if rv != OK { return; }
      if Class(base) != BaseClass(d) { rv := KEY_TYPE_INCONSISTENT; return; }
      var other := id;
      if d.ConcatKey? { other := GetObject(d.other); }
      if other.None? { rv := OBJECT_HANDLE_INVALID; return; }
      rv, out := DeriveFrom(ctx, caller, p, d, es, parity, id.value, other.value);
    }

    // ----- wrapping through a temporary key -------------------------------------------------------------

    method WrapMechRsaAesKw(ctx: Context, caller: Caller, kit: Kit, wrapAsym: Bytes -> Wrapped, aesBits: nat,
                            random: nat -> Bytes, keydata: Bytes) returns (rv: Rv, wrapped: Bytes)
      requires Valid()
      modifies this, objects.Values
      ensures Valid() && WrapReply(Model(), rv, wrapped) == WrapRsaAes(old(Model()), ctx, caller, kit, wrapAsym, aesBits, random, keydata)
    {
      hide Stored, Record, Model, Valid, Discard, ObjectStore.GenerateSecret, Material, WrapTemplate, ObjectStore.Forget, WrapKeySym;
      wrapped := [];
      var h: Handle;
      rv, h := GenerateSecret(ctx, caller, EMPH_PLAN, WrapTemplate(aesBits / 8), random);
      if rv != OK { return; }
      var id := GetObject(h);
      if id.None? { Forget(h); rv := FUNCTION_FAILED; return; }
      var key := Material(ctx, objects[id.value].attrs, true);
      Scrap(h, id.value);
      if key.None? { rv := GENERAL_ERROR; return; }
      var second := WrapKeySym(kit, AesKeyWrapPad, key.value, keydata);
      if second.rv != OK { rv := second.rv; return; }
      var first := wrapAsym(key.value);
      if first.rv != OK { rv := first.rv; return; }
      wrapped := first.bytes + second.bytes;
    }

    method UnwrapMechRsaAesKw(ctx: Context, caller: Caller, kit: Kit, unwrapAsym: Bytes -> Wrapped, modulusLen: nat, wrapped: Bytes)
      returns (rv: Rv, keydata: Bytes)
      requires Valid() && modulusLen <= |wrapped|
      modifies this, objects.Values
      ensures Valid() && WrapReply(Model(), rv, keydata) == UnwrapRsaAes(old(Model()), ctx, caller, kit, unwrapAsym, modulusLen, wrapped)
    {
      hide Stored, Record, Model, Valid, ObjectStore.CreateObject, Material, UnwrapTemplate, ObjectStore.Forget, UnwrapKeySym, ContributeUnwrapped;
      keydata := [];
      var first := unwrapAsym(wrapped[..modulusLen]);
      if first.rv != OK { rv := first.rv; return; }
      var h: Handle;
      rv, h := CreateObject(ctx, caller, UnwrapTemplate(), Unwrap);
      if rv != OK { return; }
      ghost var made := Model();
      var id := GetObject(h);
      if id.None? { Forget(h); rv := FUNCTION_FAILED; return; }
      WriteUnwrappedAt(ctx, true, map[CKA_VALUE := first.bytes], id.value);
      StillThere(id.value);
      var key := Material(ctx, objects[id.value].attrs, true);
      DiscardWritten(made, h, id.value, objects[id.value].attrs);
      hide Discard;
      Scrap(h, id.value);
      if key.None? { rv := GENERAL_ERROR; return; }
      var second := UnwrapKeySym(kit, AesKeyWrapPad, key.value, wrapped[modulusLen..]);
      rv, keydata := second.rv, second.bytes;
    }

    lemma StillThere(id: Id)
      requires Valid() && id in objects
      ensures id in Model().items && Model().items[id].attrs == objects[id].attrs
    {
    }

    // ----- searching -----------------------------------------------------------------------------------------

    lemma AttrsStored()
      requires Valid()
      ensures forall id :: id in objects ==> id in Model().items && Model().items[id].attrs == objects[id].attrs
    {
    }

    /** Gives a handle to every object found. */
    method IssueHandles(caller: Caller, hits: seq<Id>) returns (rv: Rv, found: set<Handle>)
      requires Valid() && forall i :: 0 <= i < |hits| ==> hits[i] in objects && Visible(caller.state, objects[hits[i]].attrs)
      modifies this`handles, this`byObject, this`lastHandle
      ensures Valid() && Refuse(Model(), rv) == FindObjects(old(Model()), caller, hits)
      ensures rv == OK ==> (forall id :: id in hits ==> id in byObject) && found == set id | id in hits :: byObject[id]
    {
      hide Visible, Model, Valid, Stored, Record, FindObjects;
      ghost var w := Model();
      AttrsStored();
      NothingFound(w, caller);
      rv, found := OK, {};
      var i := 0;
      while i < |hits|
        invariant 0 <= i <= |hits| && rv == OK && Valid()
        invariant Refuse(Model(), rv) == FindObjects(w, caller, hits[..i])
        invariant forall j :: 0 <= j < i ==> hits[j] in byObject && byObject[hits[j]] in found
        invariant forall h :: h in found ==> exists j :: 0 <= j < i && hits[j] in byObject && byObject[hits[j]] == h
      {
        var id := hits[i];
        var o := objects[id].attrs;
        OneMoreFound(w, caller, hits, i);
        ghost var before := byObject;
        SameHandles();
        var h := Register(id, IsPrivate(o), if IsOnToken(o) then 0 else caller.session);
        SameHandles();
        i := i + 1;
        if h == CK_INVALID_HANDLE {
          rv := GENERAL_ERROR;
          FindStops(w, caller, hits, i);
          return;
        }
        found := found + {h};
        assert forall j :: j in before ==> j in byObject && byObject[j] == before[j];
        assert byObject[hits[i - 1]] == h;
      }
      assert hits[..i] == hits;
    }

    lemma SameHandles()
      requires Valid()
      ensures Model().byObject == byObject && Model().handles == handles
    {
    }

    /** Scans all objects, in whatever order the stores yield them. */
    method ScanStored(ctx: Context, order: seq<Id>, es: Template) returns (decided: bool, hits: seq<Id>)
      requires Valid() && (forall i :: 0 <= i < |order| ==> order[i] in objects) && forall id :: id in objects ==> id in order
      ensures decided <==> AllDecided(Model(), ctx, es)
      ensures forall id :: id in hits ==> IsHit(Model(), ctx, es, id)
      ensures decided ==> forall id :: IsHit(Model(), ctx, es, id) ==> id in hits
      ensures forall i :: 0 <= i < |hits| ==> hits[i] in objects && Visible(ctx.session, objects[hits[i]].attrs)
    {
      hide Visible, Stored, Matches;
      AttrsStored();
      ghost var w := Model();
      assert w.items.Keys == objects.Keys;
      hide Model, Valid, Record;
      decided, hits := Scan(ctx, map id | id in objects :: objects[id].attrs, order, es);
    }

    /** Starts a search: gives handles to the objects that match, and keeps the handles. The session is
        searching from then on, whether the search succeeds or not. */
    method FindObjectsInit(session: FindSession, ctx: Context, caller: Caller, order: seq<Id>, es: Template)
      returns (rv: Rv, ghost hits: seq<Id>)
      requires Valid() && ctx.session == caller.state
      requires (forall i :: 0 <= i < |order| ==> order[i] in objects) && forall id :: id in objects ==> id in order
      modifies this`handles, this`byObject, this`lastHandle, session
      ensures Valid()
      ensures old(session.active) ==> rv == OPERATION_ACTIVE && session.active && session.found == old(session.found) && Model() == old(Model())
      ensures !old(session.active) ==> session.active && Model() == FindObjects(old(Model()), caller, hits).world
      ensures !old(session.active) ==> forall id :: id in hits ==> IsHit(old(Model()), ctx, es, id)
      ensures !old(session.active) && !AllDecided(old(Model()), ctx, es) ==> rv == GENERAL_ERROR && session.found == old(session.found)
      ensures !old(session.active) && AllDecided(old(Model()), ctx, es) ==>
                && rv == FindObjects(old(Model()), caller, hits).rv
                && (forall id :: IsHit(old(Model()), ctx, es, id) ==> id in hits)
                && (rv == OK ==> (forall id :: id in hits ==> id in byObject) && session.found == Some(set id | id in hits :: byObject[id]))
                && (rv != OK ==> session.found == old(session.found))
    {
      hide Visible, Stored, Record, FindObjects, IsHit, AllDecided, Model, Valid;
      hits := [];
      if session.active { rv := OPERATION_ACTIVE; return; }
      session.active := true;
      var decided, matching := ScanStored(ctx, order, es);
      hits := matching;
      var found;
      rv, found := IssueHandles(caller, matching);
      if !decided { rv := GENERAL_ERROR; return; }
      if rv == OK { session.found := Some(found); }
    }

    // ----- the end of a session -----------------------------------------------------------------------------

    /** Forgets the handles of private objects and removes private session objects. */
    method Logout()
      requires Valid()
      modifies this
      ensures Valid() && Refuse(Model(), OK) == ObjectStore.Logout(old(Model()))
    {
      hide KeepHandles, DropObjects;
      var hs := set h | h in handles && handles[h].isPrivate;
      var ids := set id | id in objects && objects[id].place.InSession? && objects[id].place.isPrivate;
      assert hs == PrivateHandles(Model()) && ids == ObjectStore.PrivateSessionObjects(Model());
      hide Model, Valid, PrivateHandles, ObjectStore.PrivateSessionObjects;
      DropHandles(hs);
      RemoveObjects(ids);
    }

    /** Forgets the handles and removes the objects of a session; the last session to be closed takes
        all handles with it. */
    method CloseSession(session: nat, last: bool)
      requires Valid()
      modifies this
      ensures Valid() && Refuse(Model(), OK) == ObjectStore.CloseSession(old(Model()), session, last)
    {
      hide KeepHandles, DropObjects;
      var hs := set h | h in handles && (last || handles[h].session == session);
      var ids := set id | id in objects && objects[id].place.InSession? && objects[id].place.owner == session;
      assert hs == HandlesOf(Model(), session, last) && ids == ObjectsOf(Model(), session);
      hide Model, Valid, HandlesOf, ObjectsOf;
      DropHandles(hs);
      RemoveObjects(ids);
    }

    method DropHandles(dropped: set<Handle>)
      requires Valid() && dropped <= handles.Keys
      modifies this`handles, this`byObject
      ensures Valid() && Model() == KeepHandles(old(Model()), dropped)
    {
      ghost var w := Model();
      byObject := byObject - set h | h in dropped && h in handles :: handles[h].target;
      handles := handles - dropped;
      assert Model().items == w.items;
    }

    method RemoveObjects(gone: set<Id>)
      requires Valid()
      modifies this`objects, this`origins
      ensures Valid()
      ensures Model() == DropObjects(old(Model()), gone)
    {
      ghost var w := Model();
      objects := objects - gone;
      origins := origins - gone;
      assert Model().items == DropObjects(w, gone).items;
    }
  }

  lemma UndecodedKey(ctx: Context, isPrivate: bool)
    ensures forall o :: ContributeUnwrapped(ctx, isPrivate, None)(o) == None
  {
  }

  lemma NothingFound(w: World, caller: Caller)
    ensures FindObjects(w, caller, []) == Refuse(w, OK)
  {
  }

  lemma OneMoreFound(w: World, caller: Caller, hits: seq<Id>, i: nat)
    requires i < |hits| && hits[i] in w.items && Visible(caller.state, w.items[hits[i]].attrs)
    requires FindObjects(w, caller, hits[..i]).rv == OK
    ensures var o := w.items[hits[i]].attrs;
            var r := ObjectStore.Register(FindObjects(w, caller, hits[..i]).world, hits[i], IsPrivate(o), if IsOnToken(o) then 0 else caller.session);
            FindObjects(w, caller, hits[..i + 1]) == Refuse(r.0, if r.1 == CK_INVALID_HANDLE then GENERAL_ERROR else OK)
  {
    assert hits[..i + 1][..i] == hits[..i];
  }

  /** After an error no more handles are given. */
  lemma {:induction false} FindStops(w: World, caller: Caller, hits: seq<Id>, i: nat)
    requires i <= |hits| && FindObjects(w, caller, hits[..i]).rv != OK
    ensures FindObjects(w, caller, hits) == FindObjects(w, caller, hits[..i])
    decreases |hits| - i
  {
    hide Register;
    if i == |hits| {
      assert hits[..i] == hits;
    } else {
      assert hits[..i + 1][..i] == hits[..i];
      FindStops(w, caller, hits, i + 1);
    }
  }

  /** What was written to a temporary key goes with it. */
  lemma DiscardWritten(w: World, h: Handle, id: Id, o: Attrs)
    requires id in w.items
    ensures Discard(PutAttrs(w, id, o), h, id) == Discard(w, h, id)
  {
    assert PutAttrs(w, id, o).items - {id} == w.items - {id};
  }

  /** The template that key-making calls pass on: their own four entries, then the rest. */
  method Assemble(p: Plan, es: Template, dropCheck: bool) returns (rv: Rv, attribs: Template)
    ensures rv == if |es| > MAX_ATTRIBS - |Header(p)| then TEMPLATE_INCONSISTENT else OK
    ensures rv == OK ==> attribs == Header(p) + Rest(es, dropCheck)
  {
    hide Header;
    attribs := Header(p);
    if |es| > MAX_ATTRIBS - |attribs| { rv := TEMPLATE_INCONSISTENT; return; }
    var i := 0;
    while i < |es|
      invariant 0 <= i <= |es|
      invariant attribs == Header(p) + Rest(es[..i], dropCheck)
    {
      var e := es[i];
      assert es[..i + 1][..i] == es[..i];
      if !(e.t == CKA_CLASS || e.t == CKA_TOKEN || e.t == CKA_PRIVATE || e.t == CKA_KEY_TYPE || (dropCheck && e.t == CKA_CHECK_VALUE)) {
        attribs := attribs + [e];
      }
      i := i + 1;
    }
    assert es[..i] == es;
    rv := OK;
  }

  /** Scans a template for the key length and the check-value wish. */
  method ReadWishes(es: Template, forbidValue: bool) returns (wish: Wish)
    ensures wish == ReadWish(es, forbidValue)
  {
    wish := Wish(OK, 0, true);
    var i := 0;
    while i < |es|
      invariant 0 <= i <= |es|
      invariant wish == ReadWish(es[..i], forbidValue) && wish.rv == OK
    {
      var e := es[i];
      assert es[..i + 1][..i] == es[..i];
      if e.t == CKA_VALUE && forbidValue {
        wish := wish.(rv := ATTRIBUTE_READ_ONLY);
      } else if e.t == CKA_VALUE_LEN {
        if e.p.Length() != SIZEOF_ULONG {
          wish := wish.(rv := ATTRIBUTE_VALUE_INVALID);
        } else {
          wish := wish.(len := e.p.AsNumber());
        }
      } else if e.t == CKA_CHECK_VALUE {
        if e.p.Length() > 0 {
          wish := wish.(rv := ATTRIBUTE_VALUE_INVALID);
        } else {
          wish := wish.(checkValue := false);
        }
      }
      i := i + 1;
      if wish.rv != OK {
        WishStops(es, forbidValue, i);
        return;
      }
    }
    assert es[..i] == es;
  }

  /** What the calls that generate keys read: DES keys have no length to ask for. */
  method ReadSecretWishes(keyType: nat, es: Template) returns (wish: Wish)
    ensures wish == SecretWish(keyType, es)
  {
    if !IsDesKeyType(keyType) {
      wish := ReadWishes(es, false);
      return;
    }
    wish := Wish(OK, DesLength(keyType), true);
    var i := 0;
    while i < |es|
      invariant 0 <= i <= |es|
      invariant wish == ReadCheckWish(es[..i], DesLength(keyType)) && wish.rv == OK
    {
      assert es[..i + 1][..i] == es[..i];
      if es[i].t == CKA_CHECK_VALUE {
        if es[i].p.Length() > 0 {
          wish := wish.(rv := ATTRIBUTE_VALUE_INVALID);
          CheckWishStops(es, DesLength(keyType), i + 1);
          return;
        }
        wish := wish.(checkValue := false);
      }
      i := i + 1;
    }
    assert es[..i] == es;
  }

  lemma {:induction false} CheckWishStops(es: Template, len: nat, i: nat)
    requires i <= |es| && ReadCheckWish(es[..i], len).rv != OK
    ensures ReadCheckWish(es, len) == ReadCheckWish(es[..i], len)
    decreases |es| - i
  {
    if i == |es| {
      assert es[..i] == es;
    } else {
      assert es[..i + 1][..i] == es[..i];
      CheckWishStops(es, len, i + 1);
    }
  }

  /** After an error the rest of the template does not matter. */
  lemma {:induction false} WishStops(es: Template, forbidValue: bool, i: nat)
    requires i <= |es| && ReadWish(es[..i], forbidValue).rv != OK
    ensures ReadWish(es, forbidValue) == ReadWish(es[..i], forbidValue)
    decreases |es| - i
  {
    if i == |es| {
      assert es[..i] == es;
    } else {
      assert es[..i + 1][..i] == es[..i];
      WishStops(es, forbidValue, i + 1);
    }
  }

  /** Where the copy is to live: the last entries of one byte decide. */
  method WantedFlags(es: Template, wasOnToken: bool, wasPrivate: bool) returns (onToken: bool, isPrivate: bool)
    ensures onToken == LastFlag(es, CKA_TOKEN, wasOnToken) && isPrivate == LastFlag(es, CKA_PRIVATE, wasPrivate)
  {
    onToken, isPrivate := wasOnToken, wasPrivate;
    var i := 0;
    while i < |es|
      invariant 0 <= i <= |es|
      invariant onToken == LastFlag(es[..i], CKA_TOKEN, wasOnToken) && isPrivate == LastFlag(es[..i], CKA_PRIVATE, wasPrivate)
    {
      OneMore(es, i, CKA_TOKEN, SIZEOF_BBOOL);
      OneMore(es, i, CKA_PRIVATE, SIZEOF_BBOOL);
      if es[i].t == CKA_TOKEN && es[i].p.Length() == SIZEOF_BBOOL {
        onToken := es[i].p.AsBool();
      } else if es[i].t == CKA_PRIVATE && es[i].p.Length() == SIZEOF_BBOOL {
        isPrivate := es[i].p.AsBool();
      }
      i := i + 1;
    }
    assert es[..i] == es;
  }

  /** Every attribute not still to do has been carried over, and nothing else. */
  ghost predicate CarriedOver(ctx: Context, upgrade: bool, o: Attrs, copy: Attrs, todo: set<AttrType>) {
    && copy.Keys == o.Keys - todo
    && forall a :: a in copy ==> Transcribed(ctx, upgrade, o[a]) == Some(copy[a])
  }

  lemma TranscriptIs(ctx: Context, upgrade: bool, o: Attrs, copy: Attrs)
    requires CarriedOver(ctx, upgrade, o, copy, {}) && CKA_CLASS in o
    ensures Transcript(ctx, upgrade, o) == Some(copy)
  {
    hide Transcribed;
    assert copy.Keys == o.Keys;
    assert forall a :: a in o ==> Transcribed(ctx, upgrade, o[a]) == Some(copy[a]);
    assert Transcript(ctx, upgrade, o).value == copy;
  }

  /** Which of the attributes that the plan is read from occurred with the right length. */
  datatype Seen = Seen(objClass: bool, keyType: bool, certType: bool, isPrivate: bool)

  /** The plan and the flags after the entries so far. */
  predicate ReadSoFar(es: Template, d: Plan, plan: Plan, seen: Seen) {
    && plan == Plan(LastNumber(es, CKA_CLASS, d.objClass), LastNumber(es, CKA_KEY_TYPE, d.keyType),
                    LastNumber(es, CKA_CERTIFICATE_TYPE, d.certType),
                    LastFlag(es, CKA_TOKEN, d.onToken), LastFlag(es, CKA_PRIVATE, d.isPrivate))
    && seen == Seen(LastSized(es, CKA_CLASS, SIZEOF_ULONG).Some?, LastSized(es, CKA_KEY_TYPE, SIZEOF_ULONG).Some?,
                    LastSized(es, CKA_CERTIFICATE_TYPE, SIZEOF_ULONG).Some?, LastSized(es, CKA_PRIVATE, SIZEOF_BBOOL).Some?)
  }

  /** Reads off a template what is needed to make the object. */
  method ExtractObjectInformation(es: Template, implicit: bool, d: Plan) returns (rv: Rv, plan: Plan)
    ensures Planned(rv, plan) == ReadPlan(es, implicit, d)
  {
    hide LastSized;
    plan := d;
    var seen := Seen(false, false, false, false);
    var i := 0;
    NothingRead(d);
    while i < |es|
      invariant 0 <= i <= |es|
      invariant ReadSoFar(es[..i], d, plan, seen)
    {
      var e := es[i];
      ghost var plan0, seen0 := plan, seen;
      if e.t == CKA_CLASS {
        if e.p.Length() == SIZEOF_ULONG { plan, seen := plan.(objClass := e.p.AsNumber()), seen.(objClass := true); }
      } else if e.t == CKA_KEY_TYPE {
        if e.p.Length() == SIZEOF_ULONG { plan, seen := plan.(keyType := e.p.AsNumber()), seen.(keyType := true); }
      } else if e.t == CKA_CERTIFICATE_TYPE {
        if e.p.Length() == SIZEOF_ULONG { plan, seen := plan.(certType := e.p.AsNumber()), seen.(certType := true); }
      } else if e.t == CKA_TOKEN {
        if e.p.Length() == SIZEOF_BBOOL { plan := plan.(onToken := e.p.AsBool()); }
      } else if e.t == CKA_PRIVATE {
        if e.p.Length() == SIZEOF_BBOOL { plan, seen := plan.(isPrivate := e.p.AsBool()), seen.(isPrivate := true); }
      }
      OneMoreRead(es, i, d, plan0, seen0, plan, seen);
      i := i + 1;
    }
    assert es[..i] == es;
    rv := OK;
    if implicit { return; }
    if !seen.objClass { rv := TEMPLATE_INCOMPLETE; return; }
    if IsKeyClass(plan.objClass) && !seen.keyType { rv := TEMPLATE_INCOMPLETE; return; }
    if plan.objClass == CKO_CERTIFICATE {
      if !seen.certType { rv := TEMPLATE_INCOMPLETE; return; }
      if !seen.isPrivate { plan := plan.(isPrivate := false); }
    }
    if plan.objClass == CKO_PUBLIC_KEY && !seen.isPrivate { plan := plan.(isPrivate := false); }
  }

  lemma NothingRead(d: Plan)
    ensures ReadSoFar([], d, d, Seen(false, false, false, false))
  {
  }

  lemma OneMoreRead(es: Template, i: nat, d: Plan, plan: Plan, seen: Seen, plan': Plan, seen': Seen)
    requires i < |es| && ReadSoFar(es[..i], d, plan, seen)
    requires var e := es[i];
             var word, flag := e.p.Length() == SIZEOF_ULONG, e.p.Length() == SIZEOF_BBOOL;
             && plan' == Plan(if e.t == CKA_CLASS && word then e.p.AsNumber() else plan.objClass,
                              if e.t == CKA_KEY_TYPE && word then e.p.AsNumber() else plan.keyType,
                              if e.t == CKA_CERTIFICATE_TYPE && word then e.p.AsNumber() else plan.certType,
                              if e.t == CKA_TOKEN && flag then e.p.AsBool() else plan.onToken,
                              if e.t == CKA_PRIVATE && flag then e.p.AsBool() else plan.isPrivate)
             && seen' == Seen(seen.objClass || (e.t == CKA_CLASS && word), seen.keyType || (e.t == CKA_KEY_TYPE && word),
                              seen.certType || (e.t == CKA_CERTIFICATE_TYPE && word), seen.isPrivate || (e.t == CKA_PRIVATE && flag))
    ensures ReadSoFar(es[..i + 1], d, plan', seen')
  {
    hide LastSized, FromWord;
    OneMore(es, i, CKA_CLASS, SIZEOF_ULONG);
    OneMore(es, i, CKA_KEY_TYPE, SIZEOF_ULONG);
    OneMore(es, i, CKA_CERTIFICATE_TYPE, SIZEOF_ULONG);
    OneMore(es, i, CKA_TOKEN, SIZEOF_BBOOL);
    OneMore(es, i, CKA_PRIVATE, SIZEOF_BBOOL);
  }

  lemma OneMore(es: Template, i: nat, t: AttrType, size: nat)
    requires i < |es|
    ensures LastSized(es[..i + 1], t, size) == if es[i].t == t && es[i].p.Length() == size then Some(es[i].p) else LastSized(es[..i], t, size)
  {
    assert es[..i + 1][..i] == es[..i];
  }

  /** The stable reordering: check values are set aside and appended. */
  method PutCheckValueLast(es: Template) returns (attribs: Template)
    ensures attribs == CheckValueLast(es)
  {
    attribs := [];
    var saved: Template := [];
    var i := 0;
    while i < |es|
      invariant 0 <= i <= |es|
      invariant attribs == WithoutCheckValue(es[..i]) && saved == OnlyCheckValue(es[..i])
    {
      assert es[..i + 1][..i] == es[..i];
      if es[i].t == CKA_CHECK_VALUE { saved := saved + [es[i]]; } else { attribs := attribs + [es[i]]; }
      i := i + 1;
    }
    assert es[..i] == es;
    i := 0;
    while i < |saved|
      invariant 0 <= i <= |saved|
      invariant attribs == WithoutCheckValue(es) + saved[..i]
    {
      attribs := attribs + [saved[i]];
      i := i + 1;
    }
  }
}
