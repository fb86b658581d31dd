/** Who may make, change and destroy what, over every run, and what ending a login or a session takes away.
    Everything is stated in plain terms of sessions, stored flags and registrations. */
module Authority {
  import opened Cryptoki
  import opened Attributes
  import opened ObjectClasses
  import opened AttributeLaws
  import opened ObjectStore
  import opened ObjectLaws
  import opened Runs
  import opened Effects

  /** A finished object that carries the flag. */
  predicate Carries(it: Item, t: AttrType) { it.finished && t in it.attrs && it.attrs[t] == BoolV(true) }

  /** The object, if there is one, is still there with the same attributes. */
  ghost predicate Stays(w: World, w': World, id: Id) { id in w.items ==> id in w'.items && w'.items[id] == w.items[id] }

  lemma FlagsOfItem(it: Item, id: Id)
    requires SoundItem(it, id)
    ensures Carries(it, CKA_TOKEN) <==> it.finished && IsOnToken(it.attrs)
    ensures Carries(it, CKA_PRIVATE) <==> it.finished && IsPrivate(it.attrs)
    ensures it.finished ==> (it.place.OnToken? <==> IsOnToken(it.attrs)) && (it.place.InSession? ==> it.place.isPrivate == IsPrivate(it.attrs))
  {
    hide StoredClass, Declares, Table;
    EveryObjectHas(StoredClass(it.attrs).value);
    assert CKA_TOKEN in it.attrs && CKA_PRIVATE in it.attrs;
    assert KindOf(CKA_TOKEN).IsFlag() && KindOf(CKA_PRIVATE).IsFlag();
  }

  /** In any sound state a step from a read-only session leaves every token object in place and makes none. */
  lemma ReadOnlyStep(token: Token, w: World, s: Step, id: Id)
    requires Sound(w) && ReadOnly(s.caller.state)
    ensures var w' := Perform(token, w, s).world;
            && (id in w.items && Carries(w.items[id], CKA_TOKEN) ==> Stays(w, w', id))
            && (id in w'.items && id !in w.items ==> !Carries(w'.items[id], CKA_TOKEN))
  {
    hide SoundItem, Perform, IsPrivate, IsOnToken, SoundHandles, Carries, Evolves, HonestStep, Honest;
    var w' := Perform(token, w, s).world;
    StepLaw(token, w, s);
    if id in w.items {
      FlagsOfItem(w.items[id], id);
      WriteMatrix(s.caller.state, IsOnToken(w.items[id].attrs), IsPrivate(w.items[id].attrs));
      if !Ending(s.call) {
        StepEffect(token, w, s);
      } else if Carries(w.items[id], CKA_TOKEN) {
        EndingSpares(token, w, s, id);
      }
    }
    if id in w'.items {
      FlagsOfItem(w'.items[id], id);
      WriteMatrix(s.caller.state, IsOnToken(w'.items[id].attrs), IsPrivate(w'.items[id].attrs));
    }
    hide HaveWrite;
  }

  lemma EndingSpares(token: Token, w: World, s: Step, id: Id)
    requires Ending(s.call) && id in w.items && w.items[id].place.OnToken?
    ensures Stays(w, Perform(token, w, s).world, id)
  {
    hide Logout, CloseSession;
    if s.call.CallLogout? { LogoutEffect(w); } else { CloseEffect(w, s.call.session, s.call.last); }
  }

  /** In any sound state a step of anyone but the user makes, changes and destroys no private object, unless
      it ends a login or a session. */
  lemma PublicStep(token: Token, w: World, s: Step, id: Id)
    requires Sound(w) && !UserIn(s.caller.state) && !Ending(s.call)
    ensures var w' := Perform(token, w, s).world;
            && (id in w.items && Carries(w.items[id], CKA_PRIVATE) ==> Stays(w, w', id))
            && (id in w'.items && id !in w.items ==> !Carries(w'.items[id], CKA_PRIVATE))
  {
    hide SoundItem, Perform, IsPrivate, IsOnToken, SoundHandles, Carries, Evolves, HonestStep, Honest, UserIn;
    var w' := Perform(token, w, s).world;
    StepLaw(token, w, s);
    if id in w.items {
      FlagsOfItem(w.items[id], id);
      WriteMatrix(s.caller.state, IsOnToken(w.items[id].attrs), IsPrivate(w.items[id].attrs));
      StepEffect(token, w, s);
    }
    if id in w'.items {
      FlagsOfItem(w'.items[id], id);
      WriteMatrix(s.caller.state, IsOnToken(w'.items[id].attrs), IsPrivate(w'.items[id].attrs));
    }
    hide HaveWrite;
  }

  /** Over every run: in a read-only session no token object is made, changed or destroyed. */
  lemma TokenNeedsReadWrite(token: Token, steps: seq<Step>, j: nat, id: Id)
    requires j < |steps| && ReadOnly(steps[j].caller.state)
    ensures var w, w' := Trace(token, steps)[j], Trace(token, steps)[j + 1];
            && (id in w.items && Carries(w.items[id], CKA_TOKEN) ==> Stays(w, w', id))
            && (id in w'.items && id !in w.items ==> !Carries(w'.items[id], CKA_TOKEN))
  {
    hide Perform, Sound, Evolves, Carries, Stays;
    TraceLaw(token, steps);
    TraceStep(token, steps, j);
    ReadOnlyStep(token, Trace(token, steps)[j], steps[j], id);
  }

  /** Over every run: without the user no private object is made, changed or destroyed, except by a logout or
      the end of a session. */
  lemma PrivateNeedsUser(token: Token, steps: seq<Step>, j: nat, id: Id)
    requires j < |steps| && !UserIn(steps[j].caller.state) && !Ending(steps[j].call)
    ensures var w, w' := Trace(token, steps)[j], Trace(token, steps)[j + 1];
            && (id in w.items && Carries(w.items[id], CKA_PRIVATE) ==> Stays(w, w', id))
            && (id in w'.items && id !in w.items ==> !Carries(w'.items[id], CKA_PRIVATE))
  {
    hide Perform, Sound, Evolves, Carries, Stays, UserIn, Ending;
    TraceLaw(token, steps);
    TraceStep(token, steps, j);
    PublicStep(token, Trace(token, steps)[j], steps[j], id);
  }

  /** Over every run: a new session object belongs to the session of the call that made it. */
  lemma NewObjectsAreOwn(token: Token, steps: seq<Step>, j: nat, id: Id)
    requires j < |steps|
    requires var w, w' := Trace(token, steps)[j], Trace(token, steps)[j + 1]; id in w'.items && id !in w.items && w'.items[id].place.InSession?
    ensures Trace(token, steps)[j + 1].items[id].place.owner == steps[j].caller.session
  {
    hide Perform, Evolves, SoundItem, SoundHandles, Issues, MayHold, Touched;
    TraceLaw(token, steps);
    TraceStep(token, steps, j);
    var w := Trace(token, steps)[j];
    if steps[j].call.CallLogout? {
      LogoutIs(token, w, steps[j]);
      LogoutEffect(w);
    } else if steps[j].call.CallClose? {
      CloseIs(token, w, steps[j]);
      CloseEffect(w, steps[j].call.session, steps[j].call.last);
    } else {
      StepEffect(token, w, steps[j]);
    }
  }

  // ----- handles over runs -----------------------------------------------------------------------------

  /** Every handle tells what it leads to. */
  ghost predicate Told(w: World) {
    forall h :: h in w.handles && w.handles[h].target in w.items ==> Tells(w.handles[h], w.items[w.handles[h].target])
  }

  lemma LogoutEffect(w: World)
    ensures var w' := Logout(w).world;
            && w'.lastHandle == w.lastHandle && w'.next == w.next
            && (forall h :: h in w'.handles <==> h in w.handles && !w.handles[h].isPrivate)
            && (forall h :: h in w'.handles ==> w'.handles[h] == w.handles[h])
            && (forall id :: id in w'.items <==>
                  id in w.items && !(w.items[id].place.InSession? && w.items[id].place.isPrivate))
            && (forall id :: id in w'.items ==> w'.items[id] == w.items[id])
  {
  }

  lemma CloseEffect(w: World, session: nat, last: bool)
    ensures var w' := CloseSession(w, session, last).world;
            && w'.lastHandle == w.lastHandle && w'.next == w.next
            && (forall h :: h in w'.handles <==> h in w.handles && !last && w.handles[h].session != session)
            && (forall h :: h in w'.handles ==> w'.handles[h] == w.handles[h])
            && (forall id :: id in w'.items <==>
                  id in w.items && !(w.items[id].place.InSession? && w.items[id].place.owner == session))
            && (forall id :: id in w'.items ==> w'.items[id] == w.items[id])
  {
  }

  /** Old handles stay as they are or go; new ones have numbers never given out before. */
  ghost predicate FreshOnly(w: World, w': World) {
    && w.lastHandle <= w'.lastHandle
    && forall h :: h in w'.handles ==> (h in w.handles && w'.handles[h] == w.handles[h]) || w.lastHandle < h <= w'.lastHandle
  }

  lemma StepHandles(token: Token, w: World, s: Step)
    requires Sound(w) && Told(w)
    ensures FreshOnly(w, Perform(token, w, s).world) && Told(Perform(token, w, s).world)
  {
    hide Perform, SoundItem, Tells;
    var w' := Perform(token, w, s).world;
    if s.call.CallLogout? {
      assert w' == Logout(w).world by { LogoutIs(token, w, s); }
      LogoutEffect(w);
    } else if s.call.CallClose? {
      assert w' == CloseSession(w, s.call.session, s.call.last).world by { CloseIs(token, w, s); }
      CloseEffect(w, s.call.session, s.call.last);
    } else {
      StepEffect(token, w, s);
      StepLaw(token, w, s);
      StillTold(w, w', s.caller);
    }
    hide Logout, CloseSession;
  }

  lemma LogoutIs(token: Token, w: World, s: Step)
    requires s.call.CallLogout?
    ensures Perform(token, w, s) == Logout(w)
  {
    hide Logout;
  }

  lemma CloseIs(token: Token, w: World, s: Step)
    requires s.call.CallClose?
    ensures Perform(token, w, s) == CloseSession(w, s.call.session, s.call.last)
  {
    hide CloseSession;
  }

  lemma StillTold(w: World, w': World, caller: Caller)
    requires Sound(w) && Told(w) && Issues(w, w', caller) && Evolves(w, w')
    ensures Told(w') && FreshOnly(w, w')
  {
    hide SoundItem, StoredClass, ClaimsShrink, ProtectionGrows, Born, IsPrivate, IsOnToken, UserIn;
    forall h | h in w'.handles && w'.handles[h].target in w'.items ensures Tells(w'.handles[h], w'.items[w'.handles[h].target]) {
      if h in w.handles && w'.handles[h] == w.handles[h] {
        var id := w.handles[h].target;
        assert id in w.byObject && id < w.next;
        assert id in w.items && Keeps(w.items[id], w'.items[id]);
      } else {
        assert TellsRightly(w', h, caller);
      }
    }
  }

  lemma {:induction false} AlwaysTold(token: Token, steps: seq<Step>, j: nat)
    requires j <= |steps|
    ensures Told(Trace(token, steps)[j])
  {
    hide Perform, Sound, Evolves, Told;
    if j == 0 {
      TraceBegins(token, steps);
      EmptyTold();
    } else {
      AlwaysTold(token, steps, j - 1);
      TraceLaw(token, steps);
      TraceStep(token, steps, j - 1);
      StepHandles(token, Trace(token, steps)[j - 1], steps[j - 1]);
    }
  }

  lemma EmptyTold()
    ensures Told(EMPTY)
  {
  }

  lemma TraceBegins(token: Token, steps: seq<Step>)
    ensures Trace(token, steps)[0] == EMPTY
  {
    hide Sound, Evolves, Perform;
    TraceLaw(token, steps);
  }

  /** A number that was given out and is no longer a handle never becomes one again. */
  lemma {:induction false} HandlesNeverReturn(token: Token, steps: seq<Step>, i: nat, j: nat, h: Handle)
    requires i <= j <= |steps| && h <= Trace(token, steps)[i].lastHandle && h !in Trace(token, steps)[i].handles
    ensures h <= Trace(token, steps)[j].lastHandle && h !in Trace(token, steps)[j].handles
    decreases j
  {
    hide Perform, Sound, Evolves, Told;
    if i < j {
      HandlesNeverReturn(token, steps, i, j - 1, h);
      TraceLaw(token, steps);
      TraceStep(token, steps, j - 1);
      AlwaysTold(token, steps, j - 1);
      StepHandles(token, Trace(token, steps)[j - 1], steps[j - 1]);
    }
  }

  /** A handle that leads to a private object was given out to the user. */
  lemma PrivateHandlesNeedUser(token: Token, steps: seq<Step>, j: nat, h: Handle)
    requires j < |steps|
    requires var w, w' := Trace(token, steps)[j], Trace(token, steps)[j + 1];
             h in w'.handles && h !in w.handles && w'.handles[h].target in w'.items && Carries(w'.items[w'.handles[h].target], CKA_PRIVATE)
    ensures UserIn(steps[j].caller.state)
  {
    hide Perform, Evolves, SoundItem, UserIn, Carries, IsPrivate;
    var w, w' := Trace(token, steps)[j], Trace(token, steps)[j + 1];
    TraceLaw(token, steps);
    TraceStep(token, steps, j);
    FlagsOfItem(w'.items[w'.handles[h].target], w'.handles[h].target);
    if Ending(steps[j].call) { EndingIssuesNothing(token, w, steps[j]); } else { StepEffect(token, w, steps[j]); assert TellsRightly(w', h, steps[j].caller); }
  }

  lemma EndingIssuesNothing(token: Token, w: World, s: Step)
    requires Ending(s.call)
    ensures Perform(token, w, s).world.handles.Keys <= w.handles.Keys
  {
    hide Logout, CloseSession;
    if s.call.CallLogout? { LogoutEffect(w); } else { CloseEffect(w, s.call.session, s.call.last); }
  }

  // ----- logging out and closing a session -------------------------------------------------------------------

  /** After a logout no handle leads to a private object and no private session object is stored; every
      other object and handle is as before, and the handles that went never come back. */
  lemma LogoutExactly(token: Token, steps: seq<Step>, j: nat)
    requires j < |steps| && steps[j].call.CallLogout?
    ensures var w, w' := Trace(token, steps)[j], Trace(token, steps)[j + 1];
            && (forall id :: id in w'.items <==> id in w.items && !(w.items[id].place.InSession? && w.items[id].place.isPrivate))
            && (forall id :: id in w'.items ==> w'.items[id] == w.items[id])
            && (forall id :: id in w'.items && Carries(w'.items[id], CKA_PRIVATE) ==> Carries(w'.items[id], CKA_TOKEN))
            && (forall h :: h in w'.handles <==> h in w.handles && !w.handles[h].isPrivate)
            && (forall h :: h in w'.handles ==> w'.handles[h] == w.handles[h])
            && (forall h :: h in w'.handles && w'.handles[h].target in w'.items ==> !Carries(w'.items[w'.handles[h].target], CKA_PRIVATE))
            && (forall h, k :: j < k <= |steps| && h in w.handles && h !in w'.handles ==> h !in Trace(token, steps)[k].handles)
  {
    hide Perform, Evolves, Carries, SoundItem, IsPrivate, IsOnToken;
    var tr := Trace(token, steps);
    var w, w' := tr[j], tr[j + 1];
    TraceLaw(token, steps);
    TraceStep(token, steps, j);
    LogoutIs(token, w, steps[j]);
    LogoutEffect(w);
    AlwaysTold(token, steps, j);
    forall id | id in w'.items ensures SoundItem(w'.items[id], id) { assert Sound(tr[j + 1]); }
    forall id | id in w'.items
      ensures Carries(w'.items[id], CKA_PRIVATE) ==> Carries(w'.items[id], CKA_TOKEN)
      ensures Carries(w'.items[id], CKA_PRIVATE) ==> IsPrivate(w'.items[id].attrs)
    {
      FlagsOfItem(w'.items[id], id);
    }
    forall h, k | j < k <= |steps| && h in w.handles && h !in w'.handles ensures h !in tr[k].handles {
      assert h <= w.lastHandle;
      HandlesNeverReturn(token, steps, j + 1, k, h);
    }
  }

  /** Closing a session takes away exactly its objects and the handles given out in it; the last one takes
      all handles. Token objects stay, and so do their handles unless it is the last. */
  lemma CloseExactly(token: Token, steps: seq<Step>, j: nat)
    requires j < |steps| && steps[j].call.CallClose?
    ensures var w, w', session, last := Trace(token, steps)[j], Trace(token, steps)[j + 1], steps[j].call.session, steps[j].call.last;
            && (forall id :: id in w'.items <==> id in w.items && !(w.items[id].place.InSession? && w.items[id].place.owner == session))
            && (forall id :: id in w'.items ==> w'.items[id] == w.items[id])
            && (forall id :: id in w.items && Carries(w.items[id], CKA_TOKEN) ==> id in w'.items)
            && (forall h :: h in w'.handles <==> h in w.handles && !last && w.handles[h].session != session)
            && (forall h :: h in w'.handles ==> w'.handles[h] == w.handles[h])
            && (session != 0 && !last ==>
                  forall h :: (h in w.handles && w.handles[h].target in w.items && Carries(w.items[w.handles[h].target], CKA_TOKEN)) ==> h in w'.handles)
            && (forall h, k :: j < k <= |steps| && h in w.handles && h !in w'.handles ==> h !in Trace(token, steps)[k].handles)
  {
    hide Perform, Evolves, Carries, SoundItem, IsPrivate, IsOnToken;
    var tr := Trace(token, steps);
    var w, w' := tr[j], tr[j + 1];
    TraceLaw(token, steps);
    TraceStep(token, steps, j);
    CloseIs(token, w, steps[j]);
    CloseEffect(w, steps[j].call.session, steps[j].call.last);
    AlwaysTold(token, steps, j);
    forall id | id in w.items ensures SoundItem(w.items[id], id) { assert Sound(tr[j]); }
    forall id | id in w.items ensures Carries(w.items[id], CKA_TOKEN) ==> w.items[id].place.OnToken? && IsOnToken(w.items[id].attrs) {
      FlagsOfItem(w.items[id], id);
    }
    forall h, k | j < k <= |steps| && h in w.handles && h !in w'.handles ensures h !in tr[k].handles {
      assert h <= w.lastHandle;
      HandlesNeverReturn(token, steps, j + 1, k, h);
    }
  }
}
