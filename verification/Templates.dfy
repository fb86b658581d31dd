/** Whole templates: what P11Object::saveTemplate and P11Object::loadTemplate do to an object
    and to the caller's buffers, as functions of the stored attributes. */
module Templates {
  import opened Cryptoki
  import opened Attributes
  import opened ObjectClasses
  import opened AttributeLaws

  // ----- saving ---------------------------------------------------------------------------

  /** What stays the same while one template is saved: the call's setting, the attributes of the
      object's class, whether byte strings are to be encrypted, and the operation. */
  datatype Job = Job(ctx: Context, schema: Schema, isPrivate: bool, op: Op)

  /** One round of the loop over the template. */
  function UpdateEntry(job: Job, o: Attrs, e: Entry): Outcome {
    if e.t in job.schema then Update(job.ctx, job.schema[e.t], e.t, job.isPrivate, o, e.p, job.op)
    else Outcome(o, ATTRIBUTE_TYPE_INVALID)
  }

  /** The entries applied in order, stopping at the first that fails. */
  function ApplyEntries(job: Job, o: Attrs, es: Template): Outcome
    decreases |es|
  {
    if |es| == 0 then Outcome(o, OK)
    else
      var first := UpdateEntry(job, o, es[0]);
      if first.rv != OK then first
      else ApplyEntries(job, first.attrs, es[1..])
  }

  predicate Named(es: Template, t: AttrType) { exists i :: 0 <= i < |es| && es[i].t == t }

  predicate AllMandatoryNamed(job: Job, es: Template) {
    forall t :: t in job.schema && job.schema[t].Mandatory(job.op) ==> Named(es, t)
  }

  /** Object-wide permission, checked before any entry. */
  predicate Permitted(o: Attrs, op: Op) { (op.Set? ==> Modifiable(o)) && (op.Copy? ==> Copyable(o)) }

  /** `rollback` tells whether the object's store undoes an aborted transaction: token objects
      do, session objects do not. */
  function SaveTemplate(job: Job, o: Attrs, es: Template, rollback: bool): Outcome {
    if !Permitted(o, job.op) then Outcome(o, ACTION_PROHIBITED)
    else
      var r := ApplyEntries(job, o, es);
      if r.rv != OK then Outcome(if rollback then o else r.attrs, r.rv)
      else if !AllMandatoryNamed(job, es) then
        Outcome(if rollback then o else r.attrs, TEMPLATE_INCOMPLETE)
      else r
  }

  // ----- what saving means ------------------------------------------------------------------

  /** The object moved from `o` through the given states, one successful update per entry. */
  ghost predicate Steps(job: Job, o: Attrs, es: Template, states: seq<Attrs>) {
    && |states| == |es| + 1
    && states[0] == o
    && forall i :: 0 <= i < |es| ==>
         && es[i].t in job.schema
         && Update(job.ctx, job.schema[es[i].t], es[i].t, job.isPrivate, states[i], es[i].p, job.op) == Outcome(states[i + 1], OK)
  }

  lemma {:induction false} ApplyGivesSteps(job: Job, o: Attrs, es: Template)
    returns (states: seq<Attrs>)
    requires ApplyEntries(job, o, es).rv == OK
    ensures Steps(job, o, es, states)
    decreases |es|
  {
    if |es| == 0 {
      states := [o];
    } else {
      var o1 := UpdateEntry(job, o, es[0]).attrs;
      var rest := ApplyGivesSteps(job, o1, es[1..]);
      states := [o] + rest;
    }
  }

  lemma {:induction false} StepsGiveApply(job: Job, o: Attrs, es: Template, states: seq<Attrs>)
    requires Steps(job, o, es, states)
    ensures ApplyEntries(job, o, es) == Outcome(states[|es|], OK)
    decreases |es|
  {
    if |es| > 0 {
      assert Update(job.ctx, job.schema[es[0].t], es[0].t, job.isPrivate, states[0], es[0].p, job.op) == Outcome(states[1], OK);
      assert Steps(job, states[1], es[1..], states[1..]) by {
        forall i | 0 <= i < |es[1..]|
          ensures es[1..][i].t in job.schema
          ensures Update(job.ctx, job.schema[es[1..][i].t], es[1..][i].t, job.isPrivate, states[1..][i], es[1..][i].p, job.op)
               == Outcome(states[1..][i + 1], OK)
        {
          assert es[1..][i] == es[i + 1];
        }
      }
      StepsGiveApply(job, states[1], es[1..], states[1..]);
    }
  }

  /** Saving succeeds with the final state o' exactly when the object as a whole may be changed,
      there is an unbroken chain of successful updates from o to o', and every mandatory
      attribute is named. */
  lemma SaveSucceedsExactly(job: Job, o: Attrs, es: Template, rollback: bool, o': Attrs)
    ensures SaveTemplate(job, o, es, rollback) == Outcome(o', OK)
       <==> (&& Permitted(o, job.op)
             && AllMandatoryNamed(job, es)
             && exists states :: Steps(job, o, es, states) && states[|es|] == o')
  {
    if SaveTemplate(job, o, es, rollback) == Outcome(o', OK) {
      var states := ApplyGivesSteps(job, o, es);
      StepsGiveApply(job, o, es, states);
    }
    if states :| Steps(job, o, es, states) && states[|es|] == o' {
      StepsGiveApply(job, o, es, states);
    }
  }

  /** A template that was accepted names only attributes of the class, none of them prohibited
      for the operation, each one writable by it. */
  lemma AcceptedTemplate(job: Job, o: Attrs, es: Template, rollback: bool, t: AttrType)
    requires SaveTemplate(job, o, es, rollback).rv == OK
    requires Named(es, t)
    ensures t in job.schema && !job.schema[t].Prohibited(job.op) && job.schema[t].Writable(job.op)
  {
    var states := ApplyGivesSteps(job, o, es);
    var i :| 0 <= i < |es| && es[i].t == t;
    assert Update(job.ctx, job.schema[es[i].t], es[i].t, job.isPrivate, states[i], es[i].p, job.op) == Outcome(states[i + 1], OK);
  }

  // ----- all or nothing ------------------------------------------------------------------------

  /** A store is atomic when a failing save, of anything and by anyone, leaves the object as it was. */
  ghost predicate Atomic(rollback: bool) {
    forall job: Job, o: Attrs, es: Template ::
      var r := SaveTemplate(job, o, es, rollback);
      r.rv != OK ==> r.attrs == o
  }

  /** Saving is all-or-nothing on token objects and only there. On a session object the entries
      before the failing one stay written: a label followed by an unknown attribute. */
  lemma AtomicExactlyOnToken(rollback: bool, token: Token)
    ensures Atomic(rollback) <==> rollback
  {
    if !rollback {
      var job := Job(Context(token, RwPublic), map[CKA_LABEL := BaseSpec(CKA_LABEL)], false, Set);
      var o: Attrs := map[CKA_LABEL := BytesV([])];
      var es := [Entry(CKA_LABEL, Memory([65])), Entry(CKA_VALUE, Memory([]))];
      var o1 := o[CKA_LABEL := BytesV([65])];
      assert UpdateEntry(job, o, es[0]) == Outcome(o1, OK);
      assert es[1..][0] == es[1] && ApplyEntries(job, o1, es[1..]) == Outcome(o1, ATTRIBUTE_TYPE_INVALID);
      var r := SaveTemplate(job, o, es, rollback);
      assert r == Outcome(o1, ATTRIBUTE_TYPE_INVALID) && o1[CKA_LABEL] != o[CKA_LABEL];
    }
  }

  /** The entries before the first one that is refused. */
  function AcceptedPrefix(job: Job, o: Attrs, es: Template): (begun: Template)
    ensures begun <= es
    decreases |es|
  {
    if |es| == 0 then []
    else
      var first := UpdateEntry(job, o, es[0]);
      if first.rv != OK then [] else [es[0]] + AcceptedPrefix(job, first.attrs, es[1..])
  }

  /** What saving leaves behind on a session object: the effect of the accepted entries, plus whatever
      the failing write, if there is one, itself got done. */
  lemma {:induction false} PartialSave(job: Job, o: Attrs, es: Template)
    ensures var begun := AcceptedPrefix(job, o, es);
            var before, r := ApplyEntries(job, o, begun), ApplyEntries(job, o, es);
            && before.rv == OK
            && (r.rv == OK <==> begun == es)
            && (r.rv != OK ==> r == UpdateEntry(job, before.attrs, es[|begun|]))
    decreases |es|
  {
    if |es| > 0 {
      var first := UpdateEntry(job, o, es[0]);
      if first.rv == OK {
        PartialSave(job, first.attrs, es[1..]);
        var begun := AcceptedPrefix(job, o, es);
        assert begun[1..] == AcceptedPrefix(job, first.attrs, es[1..]);
        assert es == [es[0]] + es[1..];
      }
    }
  }

  // ----- lifting the laws of single writes ---------------------------------------------------------

  lemma {:induction false} ApplyTidy(job: Job, o: Attrs, es: Template)
    requires WellTyped(o)
    ensures var o' := ApplyEntries(job, o, es).attrs;
            o.Keys <= o'.Keys && WellTyped(o')
    decreases |es|
  {
    if |es| > 0 {
      var first := UpdateEntry(job, o, es[0]);
      WriteKeepsTypes(job.ctx, es[0].t, job.isPrivate, o, es[0].p, job.op);
      forall a | a in o ensures a in first.attrs { WriteTidy(job.ctx, es[0].t, job.isPrivate, o, es[0].p, job.op, a); }
      if first.rv == OK { ApplyTidy(job, first.attrs, es[1..]); }
    }
  }

  lemma {:induction false} ApplyJoin(job: Job, o: Attrs, es: Template, fs: Template)
    ensures var r := ApplyEntries(job, o, es);
            ApplyEntries(job, o, es + fs) == if r.rv == OK then ApplyEntries(job, r.attrs, fs) else r
    decreases |es|
  {
    if |es| == 0 {
      assert es + fs == fs;
    } else {
      assert (es + fs)[0] == es[0] && (es + fs)[1..] == es[1..] + fs;
      var first := UpdateEntry(job, o, es[0]);
      if first.rv == OK { ApplyJoin(job, first.attrs, es[1..], fs); }
    }
  }

  predicate NothingTouches(es: Template, a: AttrType) { forall i :: 0 <= i < |es| ==> !Touches(es[i].t, a) }

  lemma {:induction false} ApplyFrame(job: Job, o: Attrs, es: Template, a: AttrType)
    requires NothingTouches(es, a)
    ensures SameAt(o, ApplyEntries(job, o, es).attrs, a)
    decreases |es|
  {
    if |es| > 0 {
      var first := UpdateEntry(job, o, es[0]);
      WriteTidy(job.ctx, es[0].t, job.isPrivate, o, es[0].p, job.op, a);
      if first.rv == OK { ApplyFrame(job, first.attrs, es[1..], a); }
    }
  }

  lemma {:induction false} ApplyKeepsHistory(job: Job, o: Attrs, es: Template)
    requires WellTyped(o) && HistoryConsistent(o)
    ensures HistoryConsistent(ApplyEntries(job, o, es).attrs)
    decreases |es|
  {
    if |es| > 0 {
      var first := UpdateEntry(job, o, es[0]);
      WriteKeepsTypes(job.ctx, es[0].t, job.isPrivate, o, es[0].p, job.op);
      WriteKeepsHistory(job.ctx, es[0].t, job.isPrivate, o, es[0].p, job.op);
      if first.rv == OK { ApplyKeepsHistory(job, first.attrs, es[1..]); }
    }
  }

  lemma {:induction false} ApplyIsMonotone(job: Job, o: Attrs, es: Template)
    requires job.op.Changing()
    ensures var o' := ApplyEntries(job, o, es).attrs;
            ClaimsShrink(o, o') && ProtectionGrows(o, o')
    decreases |es|
  {
    if |es| > 0 {
      var first := UpdateEntry(job, o, es[0]);
      ChangeIsMonotone(job.ctx, es[0].t, job.isPrivate, o, es[0].p, job.op);
      if first.rv == OK { ApplyIsMonotone(job, first.attrs, es[1..]); }
    }
  }

  // ----- loading ------------------------------------------------------------------------------------

  /** One entry of the array behind a request for a nested template: the attribute asked for, and the
      room at its pointer, which may be null. */
  datatype Inner = Inner(t: AttrType, isNull: bool, room: nat)

  /** A request for one attribute: its type, the room offered, None for a null pointer, and what the
      buffer holds if it is read as an array of entries. */
  datatype Request = Request(t: AttrType, room: Option<nat>, inner: nat -> Inner)

  /** What is written into that array: the types and lengths of all entries, or the values asked for, one
      after the other up to the first that cannot be had. */
  datatype Written = Nothing | Lengths(lengths: map<AttrType, nat>) | Values(values: seq<Bytes>)

  /** What one request gets: the value written to the caller's buffer, if any, what is written into a
      nested array, and the length reported, None standing for CK_UNAVAILABLE_INFORMATION. */
  datatype Answer = Answer(rv: Rv, len: Option<nat>, delivered: Option<Value>, written: Written)

  predicate AllNull(inner: nat -> Inner, n: nat) { forall i :: 0 <= i < n ==> inner(i).isNull }

  /** The first `n` entries filled in order: the return code, and the values written. */
  function FillInner(m: map<AttrType, Bytes>, inner: nat -> Inner, n: nat): (r: (Rv, seq<Bytes>))
    ensures r.0 in {OK, ATTRIBUTE_TYPE_INVALID, BUFFER_TOO_SMALL}
  {
    if n == 0 then (OK, [])
    else
      var before := FillInner(m, inner, n - 1);
      var slot := inner(n - 1);
      if before.0 != OK then before
      else if slot.t !in m then (ATTRIBUTE_TYPE_INVALID, before.1)
      else if slot.room < |m[slot.t]| then (BUFFER_TOO_SMALL, before.1)
      else (OK, before.1 + [m[slot.t]])
  }

  /** A nested template: without any buffer the caller learns types and lengths, otherwise the entries
      asked for are filled. */
  function RetrieveMap(m: map<AttrType, Bytes>, inner: nat -> Inner): (Rv, Written) {
    if AllNull(inner, |m|) then (OK, Lengths(map t | t in m :: |m[t]|))
    else
      var r := FillInner(m, inner, |m|);
      (r.0, Values(r.1))
  }

  predicate Fillable(m: map<AttrType, Bytes>, slot: Inner) { slot.t in m && |m[slot.t]| <= slot.room }

  lemma {:induction false} FilledExactly(m: map<AttrType, Bytes>, inner: nat -> Inner, n: nat)
    ensures var r := FillInner(m, inner, n);
            && |r.1| <= n && (r.0 == OK <==> |r.1| == n)
            && (forall i :: 0 <= i < |r.1| ==> Fillable(m, inner(i)) && r.1[i] == m[inner(i).t])
            && (r.0 != OK ==>
                  && |r.1| < n && !Fillable(m, inner(|r.1|))
                  && r.0 == if inner(|r.1|).t in m then BUFFER_TOO_SMALL else ATTRIBUTE_TYPE_INVALID)
  {
    if n > 0 { FilledExactly(m, inner, n - 1); }
  }

  /** The values of a nested template are all delivered, each where it was asked for, exactly if every
      entry of the array names an attribute of it with room enough; otherwise those before the first bad
      entry are, and its fault is the answer. */
  lemma NestedExactly(m: map<AttrType, Bytes>, inner: nat -> Inner)
    requires !AllNull(inner, |m|)
    ensures var r := RetrieveMap(m, inner);
            && r.1.Values?
            && (r.0 == OK <==> forall i :: 0 <= i < |m| ==> Fillable(m, inner(i)))
            && (forall i :: 0 <= i < |r.1.values| ==> Fillable(m, inner(i)) && r.1.values[i] == m[inner(i).t])
            && (if r.0 == OK then |r.1.values| == |m|
                else
                  && |r.1.values| < |m| && !Fillable(m, inner(|r.1.values|))
                  && r.0 == if inner(|r.1.values|).t in m then BUFFER_TOO_SMALL else ATTRIBUTE_TYPE_INVALID)
  {
    FilledExactly(m, inner, |m|);
  }

  /** The value behind the stored form; None when it cannot be decrypted. */
  function Decoded(ctx: Context, isPrivate: bool, v: Value): Option<Value> {
    if v.BytesV? && isPrivate && v.s != [] then
      match ctx.Decrypt(v.s)
      case None => None
      case Some(x) => Some(BytesV(x))
    else Some(v)
  }

  function SizeOf(v: Value): nat {
    match v
    case BoolV(_) => SIZEOF_BBOOL
    case NumberV(_) => SIZEOF_ULONG
    case BytesV(s) => |s|
    case MechanismsV(ms) => |ms| * SIZEOF_ULONG
    case MapV(m) => |m| * SIZEOF_ATTRIBUTE
  }

  /** Footnote 7: the attribute must not be revealed. */
  predicate Unrevealable(spec: AttrSpec, o: Attrs) { Ck7 in spec.checks && (Sensitive(o) || !Extractable(o)) }

  function Retrieve(ctx: Context, spec: AttrSpec, isPrivate: bool, o: Attrs, q: Request): Answer {
    if Unrevealable(spec, o) then Answer(ATTRIBUTE_SENSITIVE, None, None, Nothing)
    else if q.t !in o then Answer(GENERAL_ERROR, None, None, Nothing)
    else
      var v := Decoded(ctx, isPrivate, o[q.t]);
      if v.None? then Answer(GENERAL_ERROR, None, None, Nothing)
      else if q.room.None? then Answer(OK, Some(SizeOf(v.value)), None, Nothing)
      else if q.room.value < SizeOf(v.value) then Answer(BUFFER_TOO_SMALL, None, None, Nothing)
      else if v.value.MapV? then
        var r := RetrieveMap(v.value.m, q.inner);
        Answer(r.0, Some(SizeOf(v.value)), None, r.1)
      else Answer(OK, Some(SizeOf(v.value)), Some(v.value), Nothing)
  }

  /** An unknown attribute inside a nested template counts as an internal error. */
  function Escalated(a: Answer): Answer { if a.rv == ATTRIBUTE_TYPE_INVALID then a.(rv := GENERAL_ERROR) else a }

  function AnswerTo(ctx: Context, schema: Schema, isPrivate: bool, o: Attrs, q: Request): Answer {
    if q.t in schema then Escalated(Retrieve(ctx, schema[q.t], isPrivate, o, q))
    else Answer(ATTRIBUTE_TYPE_INVALID, None, None, Nothing)
  }

  /** The object's own idea of its privacy: without the attribute it is public. */
  predicate SelfPrivate(o: Attrs) { Flag(o, CKA_PRIVATE, false) }

  /** The return code for a list of answers: an internal error wins (and stops the loop), then
      sensitive, then unknown attribute, then small buffer. */
  function Verdict(answers: seq<Answer>): Rv {
    if exists a :: a in answers && a.rv == GENERAL_ERROR then GENERAL_ERROR
    else if exists a :: a in answers && a.rv == ATTRIBUTE_SENSITIVE then ATTRIBUTE_SENSITIVE
    else if exists a :: a in answers && a.rv == ATTRIBUTE_TYPE_INVALID then ATTRIBUTE_TYPE_INVALID
    else if exists a :: a in answers && a.rv == BUFFER_TOO_SMALL then BUFFER_TOO_SMALL
    else OK
  }

  function Answers(ctx: Context, schema: Schema, o: Attrs, qs: seq<Request>): (r: seq<Answer>)
    ensures |r| == |qs|
    ensures forall i :: 0 <= i < |qs| ==> r[i] == AnswerTo(ctx, schema, SelfPrivate(o), o, qs[i])
  {
    if |qs| == 0 then []
    else [AnswerTo(ctx, schema, SelfPrivate(o), o, qs[0])] + Answers(ctx, schema, o, qs[1..])
  }

  /** Reading reveals a refused attribute to nobody: every request for it is answered with
      ATTRIBUTE_SENSITIVE and delivers nothing, whatever else the template asks for. */
  lemma NothingLeaks(ctx: Context, schema: Schema, o: Attrs, qs: seq<Request>, i: nat)
    requires i < |qs| && qs[i].t in schema && Unrevealable(schema[qs[i].t], o)
    ensures Answers(ctx, schema, o, qs)[i] == Answer(ATTRIBUTE_SENSITIVE, None, None, Nothing)
    ensures Verdict(Answers(ctx, schema, o, qs)) in {GENERAL_ERROR, ATTRIBUTE_SENSITIVE}
  {
    assert Answers(ctx, schema, o, qs)[i] in Answers(ctx, schema, o, qs);
  }
}
