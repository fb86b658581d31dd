/** Object search and its agreement with reading: C_FindObjectsInit decides by code of its own
    whether an object matches a template. */
module Search {
  import opened Cryptoki
  import opened Attributes
  import opened ObjectClasses
  import opened Templates
  import opened Transparency
  import opened ObjectStore
  import opened ObjectLaws
  import opened Runs
  import opened TransparentRuns

  // ----- matching ------------------------------------------------------------------------------

  /** Does the attribute match the entry? None when a stored value cannot be decrypted. */
  function MatchEntry(ctx: Context, o: Attrs, e: Entry): Option<bool> {
    if e.t !in o then Some(false)
    else match o[e.t]
      case BoolV(b) => Some(e.p.Length() == SIZEOF_BBOOL && b == (e.p.Data() == [1]))
      case NumberV(n) => Some(e.p.Length() == SIZEOF_ULONG && n == e.p.AsNumber())
      case BytesV(s) =>
        (match if IsPrivate(o) && s != [] then ctx.Decrypt(s) else Some(s)
         case None => None
         case Some(x) => Some(|x| == e.p.Length() && (e.p.Length() != 0 ==> x == e.p.Data())))
      case MechanismsV(_) => Some(false)
      case MapV(_) => Some(false)
  }

  /** The loop over the template stops at the first entry that does not match. */
  function Matches(ctx: Context, o: Attrs, es: Template): Option<bool>
    decreases |es|
  {
    if |es| == 0 then Some(true)
    else match MatchEntry(ctx, o, es[0])
      case None => None
      case Some(ok) => if ok then Matches(ctx, o, es[1..]) else Some(false)
  }

  // ----- agreement with reading -------------------------------------------------------------------

  /** The bytes that reading delivers for a boolean, a word or a byte string. */
  function Encode(v: Value): Option<Bytes> {
    match v
    case BoolV(b) => Some([if b then 1 else 0])
    case NumberV(n) => Some(ToWord(n, SIZEOF_ULONG))
    case BytesV(s) => Some(s)
    case MechanismsV(_) => None
    case MapV(_) => None
  }

  /** Reading the attribute into a buffer of the template's length returns exactly the template's bytes. */
  predicate ReadsAs(ctx: Context, schema: Schema, o: Attrs, t: AttrType, bytes: Bytes) {
    var a := AnswerTo(ctx, schema, SelfPrivate(o), o, Request(t, Some(|bytes|), _ => Inner(0, true, 0)));
    a.rv == OK && a.len == Some(|bytes|) && a.delivered.Some? && Encode(a.delivered.value) == Some(bytes)
  }

  /** What the comparison is stated for: an attribute of the class that may be revealed, asked for with
      bytes in memory, a boolean as 0 or 1, and not a mechanism set or a nested template; stored
      numbers fit a machine word. */
  predicate Comparable(schema: Schema, o: Attrs, e: Entry) {
    && e.t in schema && !Unrevealable(schema[e.t], o) && e.t in o && e.p.Memory?
    && !o[e.t].MechanismsV? && !o[e.t].MapV?
    && (o[e.t].BoolV? && |e.p.bytes| == SIZEOF_BBOOL ==> e.p.bytes[0] <= 1)
    && (o[e.t].NumberV? ==> IsWord(o[e.t].n))
  }

  lemma WordsAgree(n: nat, bytes: Bytes)
    requires IsWord(n) && |bytes| == SIZEOF_ULONG
    ensures n == FromWord(bytes) <==> ToWord(n, SIZEOF_ULONG) == bytes
  {
    ToWordFromWord(n, SIZEOF_ULONG);
    WordRoundTrip(bytes);
  }

  lemma EntryAgrees(ctx: Context, schema: Schema, o: Attrs, e: Entry)
    requires Healthy(o) && Comparable(schema, o, e)
    ensures MatchEntry(ctx, o, e) == Some(true) <==> ReadsAs(ctx, schema, o, e.t, e.p.Data())
  {
    hide Healthy, IsWord, ToWord, FromWord;
    PrivacyPresent(o);
    assert SelfPrivate(o) == IsPrivate(o);
    if o[e.t].BoolV? && |e.p.bytes| == SIZEOF_BBOOL { assert e.p.bytes == [e.p.bytes[0]]; }
    if o[e.t].NumberV? && |e.p.bytes| == SIZEOF_ULONG { WordsAgree(o[e.t].n, e.p.bytes); }
  }

  /** Search agrees with retrieval: an object matches a template exactly if reading every named
      attribute returns exactly the bytes the template gives for it. */
  lemma {:induction false} SearchAgreesWithReading(ctx: Context, schema: Schema, o: Attrs, es: Template)
    requires Healthy(o) && forall i :: 0 <= i < |es| ==> Comparable(schema, o, es[i])
    ensures Matches(ctx, o, es) == Some(true) <==> forall i :: 0 <= i < |es| ==> ReadsAs(ctx, schema, o, es[i].t, es[i].p.Data())
    decreases |es|
  {
    hide Healthy, Comparable, ReadsAs, MatchEntry;
    if |es| > 0 {
      EntryAgrees(ctx, schema, o, es[0]);
      SearchAgreesWithReading(ctx, schema, o, es[1..]);
      assert (forall i :: 0 <= i < |es| ==> ReadsAs(ctx, schema, o, es[i].t, es[i].p.Data()))
        <==> ReadsAs(ctx, schema, o, es[0].t, es[0].p.Data()) && forall i :: 0 <= i < |es[1..]| ==> ReadsAs(ctx, schema, o, es[1..][i].t, es[1..][i].p.Data()) by {
        assert forall i :: 1 <= i < |es| ==> es[i] == es[1..][i - 1];
      }
    }
  }

  /** Outside canonical booleans the two part ways: a byte other than 0 and 1 is written as true,
      but found as false. */
  lemma OddBooleans(ctx: Context, t: AttrType, b: byte, stored: bool)
    ensures var o: Attrs := map[t := BoolV(stored)];
            var e := Entry(t, Memory([b]));
            (MatchEntry(ctx, o, e) == Some(true) <==> stored == e.p.AsBool()) <==> b <= 1
  {
  }

  /** The object is shown to the caller and matches. */
  predicate IsHit(w: World, ctx: Context, es: Template, id: Id) {
    id in w.items && Visible(ctx.session, w.items[id].attrs) && Matches(ctx, w.items[id].attrs, es) == Some(true)
  }

  /** Every object shown to the caller can be compared with the template. */
  ghost predicate AllDecided(w: World, ctx: Context, es: Template) {
    forall id :: id in w.items && Visible(ctx.session, w.items[id].attrs) ==> Matches(ctx, w.items[id].attrs, es).Some?
  }

  // ----- when a search can fail ------------------------------------------------------------------------

  /** The object, a private one, matches every entry before number `k`; that one names a date of it
      which is not empty and does not decrypt. */
  predicate StuckAt(ctx: Context, o: Attrs, es: Template, k: int) {
    && 0 <= k < |es| && IsPrivate(o) && Matches(ctx, o, es[..k]) == Some(true)
    && IsDate(es[k].t) && es[k].t in o && o[es[k].t].BytesV?
    && o[es[k].t].s != [] && ctx.Decrypt(o[es[k].t].s).None?
  }

  /** Bytes that are stored as the object's flag says can be compared; a date may stop that. */
  lemma EntryUndecided(ctx: Context, o: Attrs, c: Attrs, es: Template)
    requires ctx.token.Lawful() && Hides(ctx.token, IsPrivate(o), o, c) && Visible(ctx.session, o) && |es| > 0
    ensures MatchEntry(ctx, o, es[0]).None? <==> StuckAt(ctx, o, es, 0)
  {
    var t := es[0].t;
    if t in o && o[t].BytesV? && IsPrivate(o) && !IsDate(t) { HiddenDecodes(ctx.token, o[t].s, c[t].s); }
  }

  lemma StuckLater(ctx: Context, o: Attrs, es: Template, k: int)
    requires |es| > 0 && k > 0
    ensures StuckAt(ctx, o, es, k) <==> MatchEntry(ctx, o, es[0]) == Some(true) && StuckAt(ctx, o, es[1..], k - 1)
  {
    hide MatchEntry, IsPrivate;
    if k < |es| { assert es[..k][1..] == es[1..][..k - 1] && es[..k][0] == es[0] && es[1..][k - 1] == es[k]; }
  }

  /** A well stored object cannot be compared with a template exactly if it is stuck at an entry. */
  lemma {:induction false} UndecidedExactly(ctx: Context, o: Attrs, c: Attrs, es: Template)
    requires ctx.token.Lawful() && Hides(ctx.token, IsPrivate(o), o, c) && Visible(ctx.session, o)
    ensures Matches(ctx, o, es).None? <==> exists k :: StuckAt(ctx, o, es, k)
    decreases |es|
  {
    hide MatchEntry, Hides, Token.Lawful, IsPrivate, Visible;
    if |es| == 0 {
      assert forall k :: !StuckAt(ctx, o, es, k);
    } else {
      EntryUndecided(ctx, o, c, es);
      UndecidedExactly(ctx, o, c, es[1..]);
      forall k | k > 0 ensures StuckAt(ctx, o, es, k) <==> MatchEntry(ctx, o, es[0]) == Some(true) && StuckAt(ctx, o, es[1..], k - 1) {
        StuckLater(ctx, o, es, k);
      }
      hide StuckAt;
      if k :| StuckAt(ctx, o, es[1..], k) {
        assert k + 1 > 0 && k == k + 1 - 1 by { StuckIsEntry(ctx, o, es[1..], k); }
        StuckLater(ctx, o, es, k + 1);
      }
      if k :| StuckAt(ctx, o, es, k) { StuckIsEntry(ctx, o, es, k); }
    }
  }

  lemma StuckIsEntry(ctx: Context, o: Attrs, es: Template, k: int)
    requires StuckAt(ctx, o, es, k)
    ensures 0 <= k < |es| && IsDate(es[k].t)
  {
  }

  /** In every state that a clean run reaches, a search fails exactly if some object shown to the caller
      is private and matches the template up to an entry naming a date of it that is not empty and does
      not decrypt. */
  lemma SearchFailsExactly(token: Token, steps: seq<Step>, j: nat, ctx: Context, es: Template)
    requires token.Lawful() && CleanRun(token, steps) && j <= |steps| && ctx.token == token
    ensures var w := Trace(token, steps)[j];
            AllDecided(w, ctx, es) <==>
              forall id, k :: id in w.items && Visible(ctx.session, w.items[id].attrs) ==> !StuckAt(ctx, w.items[id].attrs, es, k)
  {
    hide Hides, Perform, CleanRun, ClearToken, Token.Lawful, StuckAt, Visible, Matches;
    TransparentRun(token, steps, j);
    var w, c := Trace(token, steps)[j], Trace(ClearToken(token), steps)[j];
    forall id | id in w.items && Visible(ctx.session, w.items[id].attrs)
      ensures Matches(ctx, w.items[id].attrs, es).None? <==> exists k :: StuckAt(ctx, w.items[id].attrs, es, k)
    {
      assert TwinItem(token, w.items[id], c.items[id]);
      UndecidedExactly(ctx, w.items[id].attrs, c.items[id].attrs, es);
    }
  }

  /** So it fails only over a template that names a date. */
  lemma SearchFailsOverDatesOnly(token: Token, steps: seq<Step>, j: nat, ctx: Context, es: Template)
    requires token.Lawful() && CleanRun(token, steps) && j <= |steps| && ctx.token == token
    requires forall i :: 0 <= i < |es| ==> !IsDate(es[i].t)
    ensures AllDecided(Trace(token, steps)[j], ctx, es)
  {
    hide AllDecided, Visible, CleanRun, Perform, Token.Lawful;
    SearchFailsExactly(token, steps, j, ctx, es);
  }

  /** Whatever the cipher, an object can be compared with an entry that names one of its dates exactly if
      the object is public or the date is empty: dates are stored in clear and decrypted all the same. */
  lemma DateStopsSearch(o: Attrs, e: Entry, state: SessionState)
    requires IsDate(e.t) && e.t in o && o[e.t].BytesV?
    ensures (forall token: Token :: token.Lawful() ==> MatchEntry(Context(token, state), o, e).Some?)
       <==> !IsPrivate(o) || o[e.t].s == []
  {
    hide IsPrivate;
    var date := o[e.t].s;
    if IsPrivate(o) && date != [] {
      var marker: byte := if date[0] == 0 then 1 else 0;
      MarkingIsLawful(marker);
      hide Token.Lawful;
      assert MatchEntry(Context(MarkingToken(marker), state), o, e).None?;
    }
  }

  /** What a search that can be decided finds, in terms of reading: the objects that are public, or whose reader is the
      user, and that deliver the template's bytes for every attribute named in it. */
  lemma FoundExactly(w: World, ctx: Context, es: Template, id: Id)
    requires Sound(w) && id in w.items
    requires StoredClass(w.items[id].attrs).Some?
    requires forall i :: 0 <= i < |es| ==> Comparable(SchemaOf(StoredClass(w.items[id].attrs).value), w.items[id].attrs, es[i])
    ensures var o := w.items[id].attrs;
            IsHit(w, ctx, es, id) <==>
              && (CKA_PRIVATE in o && o[CKA_PRIVATE] == BoolV(true) ==> ctx.session == RoUser || ctx.session == RwUser)
              && forall i :: 0 <= i < |es| ==> ReadsAs(ctx, SchemaOf(StoredClass(o).value), o, es[i].t, es[i].p.Data())
  {
    hide SchemaOf, Comparable, ReadsAs, Matches, StoredClass, SoundHandles;
    var o := w.items[id].attrs;
    assert SoundItem(w.items[id], id);
    SearchAgreesWithReading(ctx, SchemaOf(StoredClass(o).value), o, es);
    PrivacyPresent(o);
  }

  /** Naming an attribute that an object lacks, a mechanism set or a nested template finds nothing. */
  lemma {:induction false} NeverFound(ctx: Context, o: Attrs, es: Template, i: nat)
    requires i < |es| && (es[i].t in o ==> o[es[i].t].MechanismsV? || o[es[i].t].MapV?)
    ensures Matches(ctx, o, es) != Some(true)
    decreases |es|
  {
    hide IsPrivate;
    if i > 0 { NeverFound(ctx, o, es[1..], i - 1); }
  }

  // ----- the search itself -------------------------------------------------------------------------

  /** Goes through the objects in the given order. `hits` are those that match; the scan stops at the
      first object that cannot be decided. */
  method Scan(ctx: Context, objects: map<Id, Attrs>, order: seq<Id>, es: Template) returns (decided: bool, hits: seq<Id>)
    requires forall i :: 0 <= i < |order| ==> order[i] in objects
    requires forall id :: id in objects ==> id in order
    ensures decided <==> forall id :: id in objects && Visible(ctx.session, objects[id]) ==> Matches(ctx, objects[id], es).Some?
    ensures forall id :: id in hits ==> id in objects && Visible(ctx.session, objects[id]) && Matches(ctx, objects[id], es) == Some(true)
    ensures decided ==>
              forall id :: id in objects && Visible(ctx.session, objects[id]) && Matches(ctx, objects[id], es) == Some(true) ==> id in hits
  {
    hide Matches, Visible;
    hits := [];
    var k := 0;
    while k < |order|
      invariant 0 <= k <= |order|
      invariant forall j :: 0 <= j < k && Visible(ctx.session, objects[order[j]]) ==> Matches(ctx, objects[order[j]], es).Some?
      invariant forall id :: id in hits <==>
                  id in order[..k] && Visible(ctx.session, objects[id]) && Matches(ctx, objects[id], es) == Some(true)
    {
      var o := objects[order[k]];
      assert order[..k + 1] == order[..k] + [order[k]];
      if Visible(ctx.session, o) {
        var matched := Compare(ctx, o, es);
        if matched.None? { return false, hits; }
        if matched.value { hits := hits + [order[k]]; }
      }
      k := k + 1;
    }
    assert order[..k] == order;
    decided := true;
  }

  /** Compares one object with the template, up to the first entry that does not match. */
  method Compare(ctx: Context, o: Attrs, es: Template) returns (matched: Option<bool>)
    ensures matched == Matches(ctx, o, es)
  {
    hide MatchEntry;
    matched := Some(true);
    var i := 0;
    while i < |es| && matched == Some(true)
      invariant 0 <= i <= |es|
      invariant Matches(ctx, o, es) == if matched == Some(true) then Matches(ctx, o, es[i..]) else matched
    {
      assert es[i..][0] == es[i] && es[i..][1..] == es[i + 1..];
      matched := MatchEntry(ctx, o, es[i]);
      i := i + 1;
    }
    assert matched == Some(true) ==> es[i..] == [];
  }

  /** The part of a session that searching uses. `active` is set before the search starts, and is not
      reset when the search fails. */
  class FindSession {
    var active: bool
    var found: Option<set<Handle>>

    constructor ()
      ensures !active && found == None
    {
      active, found := false, None;
    }

    method FindObjectsFinal() returns (rv: Rv)
      modifies this
      ensures rv == if old(active) then OK else OPERATION_NOT_INITIALIZED
      ensures !active && (found == if old(active) then None else old(found))
    {
      if !active { return OPERATION_NOT_INITIALIZED; }
      active, found := false, None;
      return OK;
    }
  }
}
