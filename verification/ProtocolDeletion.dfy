// DELETE from start to return: one that returns 1 has freed the tag it took out of tags[], one that
// returns 0 has touched nothing; and so it is with every call that is refused.

module Deletion {
  import opened Protocol
  import opened Shapes
  import opened Locks
  import opened Refs
  import opened Grace
  import opened Messages
  import opened Duty
  import opened Runs
  import opened Guarantees
  import opened Outcomes
  import opened Waking
  import opened Results
  import opened Bounds
  import opened Verdicts
  import opened Calls
  import P = Progress

  // ----- freed tags -----

  // Nobody has anything to do with a freed tag.
  ghost predicate Buried(s: State) {
    forall k :: 0 <= k < |s.tags| && s.tags[k].freed ==>
      s.slot != k && forall u :: 0 <= u < |s.threads| ==> s.threads[u].tag != k
  }

  lemma TagFreed(s: State, t: nat, m: Move, k: int)
    requires t < |s.threads| && 0 <= k < |s.tags|
    ensures k < |Apply(s, t, m).tags|
    ensures Apply(s, t, m).tags[k].freed <==> s.tags[k].freed || (m.effect.FreeTag? && s.threads[t].tag == k)
  {
    hide NewCells, NewInsts, Hold, NewTagLock;
  }

  // Where a move takes its tag and what it leaves in the slot.
  lemma TagFrom(s: State, th: Thread, c: Choice, m: Move)
    requires Traceable(s, th, c, m)
    ensures m.thread.tag == th.tag || m.thread.tag == NONE || m.thread.tag == s.slot
    ensures m.effect.SetSlot? ==> m.effect.value == NONE || m.effect.value == th.tag
    ensures m.effect.FreeTag? ==> th.pc == Freeing(DTag)
  {
    hide Shape, Legal, AtTop, Fetching, Private, Follows;
  }

  lemma FreesLast(th: Thread, v: View, c: Choice)
    requires th.pc == Freeing(DTag)
    ensures Go(th, v, c).thread.tag == NONE
  {}

  lemma BuriedTag(s: State, t: nat, c: Choice, k: int)
    requires Base(s) && Buried(s) && Enabled(s, t, c) && 0 <= k < |Step(s, t, c).tags| && Step(s, t, c).tags[k].freed
    ensures Step(s, t, c).slot != k
    ensures forall u :: 0 <= u < |s.threads| ==> Step(s, t, c).threads[u].tag != k
  {
    var th, m := s.threads[t], MoveOf(s, t, c);
    assert Referring(s);
    Tracing(s, t, c);
    hide Base, Go, Look, Contended, Unblocked, Apply, Referring;
    Memory(s, t, m);
    TagFreed(s, t, m, k);
    TagFrom(s, th, c, m);
    MovedTags(s, t, m);
    if !s.tags[k].freed {
      FreesLast(th, Look(s, th), c);
      OnlyDeleter(s, t);
    }
    hide Traceable;
  }

  lemma MovedTags(s: State, t: nat, m: Move)
    requires t < |s.threads|
    ensures var s' := Apply(s, t, m);
            && |s'.threads| == |s.threads| && s'.threads[t].tag == m.thread.tag
            && (forall u :: 0 <= u < |s.threads| && u != t ==> s'.threads[u] == s.threads[u])
            && s'.slot == if m.effect.SetSlot? then m.effect.value else s.slot
  {
    hide NewTagLock, NewTags, NewCells, NewInsts, Hold;
  }

  lemma OnlyDeleter(s: State, t: nat)
    requires Base(s) && t < |s.threads| && s.threads[t].pc.Freeing?
    ensures s.slot != s.threads[t].tag && s.threads[t].tag >= 0
    ensures forall u :: 0 <= u < |s.threads| && u != t ==> s.threads[u].tag != s.threads[t].tag
  {
    assert Refers(s, s.threads[t]) && Shape(s.threads[t]);
    TagNeeds(s.threads[t]);
    forall u | 0 <= u < |s.threads| && u != t ensures s.threads[u].tag != s.threads[t].tag {
      Neighbours(s, t, u);
    }
    hide Base, Shape, Placed, Topped;
  }

  lemma BuriedAfter(s: State, e: Event)
    requires Safe(s) && Buried(s) && Happens(s, e)
    ensures Buried(After(s, e))
  {
    hide Alive, Told, Dutiful, Base, Enabled, Step;
    match e
    case Creates => CreatesUnfreed(s);
    case Steps(t, c) =>
      SameThreads(s, t, c);
      forall k | 0 <= k < |After(s, e).tags| && After(s, e).tags[k].freed
        ensures After(s, e).slot != k
        ensures forall u :: 0 <= u < |After(s, e).threads| ==> After(s, e).threads[u].tag != k
      {
        BuriedTag(s, t, c, k);
      }
  }

  lemma CreatesUnfreed(s: State)
    requires Base(s) && Buried(s)
    ensures Buried(Create(s))
  {
    hide Locked;
    forall u | 0 <= u < |s.threads| ensures s.threads[u].tag < |s.tags| {
      PlacedHere(s, u);
    }
    hide Referring;
  }

  lemma {:induction false} AlwaysBuried(states: seq<State>, events: seq<Event>, k: nat)
    requires Run(states, events) && k < |states|
    ensures Buried(states[k])
    decreases k
  {
    hide Safe, Happens, After;
    if k > 0 {
      AlwaysBuried(states, events, k - 1);
      AlwaysSafe(states, events, k - 1);
      hide Buried;
      BuriedAfter(states[k - 1], events[k - 1]);
    }
  }

  // ----- what has been freed stays freed -----

  // The tag and every published level of it are freed.
  ghost predicate Gone(s: State, k: int) {
    0 <= k < |s.tags| && s.tags[k].freed && forall d :: Of(d, k) ==> Freed(s, Ptr(s, d))
  }

  lemma GoneKept(s: State, t: nat, c: Choice, k: int)
    requires Base(s) && Buried(s) && Enabled(s, t, c) && Gone(s, k)
    ensures Gone(Step(s, t, c), k)
  {
    var th, m, s' := s.threads[t], MoveOf(s, t, c), Step(s, t, c);
    assert Referring(s) && th.tag != k;
    Tracing(s, t, c);
    assert Shape(th) && Refers(s, th);
    hide Base, Referring, Buried, Go, Look, Contended, Unblocked, Apply;
    TagFreed(s, t, m, k);
    forall d | Of(d, k) ensures Freed(s', Ptr(s', d)) {
      OthersLevel(s, th, c, m, k, d);
      PtrKept(s, t, m, d);
      FreedLater(s, t, m, Ptr(s, d));
    }
    hide Traceable, Shape, Refers, Freed, Ptr;
  }

  lemma GoneAfter(s: State, e: Event, k: int)
    requires Safe(s) && Buried(s) && Happens(s, e) && Gone(s, k)
    ensures Gone(After(s, e), k)
  {
    hide Alive, Told, Dutiful, Base, Enabled, Step, Buried;
    match e
    case Creates => GoneCreated(s, k);
    case Steps(t, c) => GoneKept(s, t, c, k);
  }

  lemma GoneCreated(s: State, k: int)
    requires Gone(s, k)
    ensures Gone(Create(s), k)
  {
    var s' := Create(s);
    forall d | Of(d, k) ensures Freed(s', Ptr(s', d)) {
      assert Freed(s, Ptr(s, d));
    }
  }

  lemma {:induction false} StaysGone(states: seq<State>, events: seq<Event>, j: nat, k: nat, tag: int)
    requires Run(states, events) && j <= k < |states| && Gone(states[j], tag)
    ensures Gone(states[k], tag)
    decreases k
  {
    hide Safe, Happens, After, Initial, Gone, Buried;
    if j < k {
      StaysGone(states, events, j, k - 1, tag);
      AlwaysSafe(states, events, k - 1);
      AlwaysBuried(states, events, k - 1);
      GoneAfter(states[k - 1], events[k - 1], tag);
    }
  }

  // ----- what a deletion returns -----

  // Another thread holds the tag lock.
  ghost predicate LockedOut(s: State, t: nat) {
    exists u :: 0 <= u < |s.threads| && u != t && (s.threads[u].held.tagR || s.threads[u].held.tagW)
  }

  // The step of a deletion with which it is settled that it returns rc.
  ghost predicate DeleteCause(s: State, t: nat, c: Choice, rc: int)
    requires t < |s.threads|
  {
    var th := s.threads[t];
    match c
    case Interrupt => rc == EINTR && th.pc == Deleting(DClear)
    case Denied => rc == if s.slot == NONE then ENODATA else EPERM
    case Plain =>
      || (rc == 0 && th.pc == Deleting(DTry) && LockedOut(s, t))
      || (rc == ENODATA && th.pc == Deleting(DRead) && s.slot == NONE)
      || (rc == 1 && th.pc == Deleting(DClear))
    case _ => false
  }

  lemma DeleterLine(th: Thread)
    requires Shape(th) && th.call.Delete? && !th.pc.Idle?
    ensures InDelete(th.pc) || th.pc.Exiting?
    ensures th.pc == Deleting(DTry) ==> !th.held.tagR && !th.held.tagW
  {
    hide Leaving, Numbers;
  }

  lemma LockSeen(s: State, t: nat)
    requires Base(s) && t < |s.threads| && !s.threads[t].held.tagR && !s.threads[t].held.tagW
    ensures s.tagLock != FREE <==> LockedOut(s, t)
  {
    hide Referring, Tallied, Synced, Ranged;
    var lock := s.tagLock;
    assert Guarded(lock, TagLock, s.threads);
    hide Locked;
    if lock != FREE {
      if lock.writer != NONE {
        assert s.threads[lock.writer].held.tagW;
      } else {
        var u := P.Member(lock.readers);
        assert s.threads[u].held.tagR;
      }
    }
  }

  lemma DeleteJudged(s: State, t: nat, c: Choice, rc: int)
    requires Safe(s) && Enabled(s, t, c) && !c.Start? && s.threads[t].call.Delete?
    ensures Judge(s, t, c) == Closed(rc) <==> DeleteCause(s, t, c, rc)
  {
    hide Alive, Told, Dutiful, Base, Look, Contended, Unblocked, LockedOut;
    NotIdle(s, t, c);
    OnLevelOf(s, t);
    DeleterLine(s.threads[t]);
    if s.threads[t].pc == Deleting(DTry) { LockSeen(s, t); }
    hide Safe, Shape, Flagged, DataOf, NobodyCounted;
  }

  // A deletion returns rc if and only if one of its own steps is the cause of it: 0 exactly if it found the
  // tag lock held by another thread.
  lemma DeleteResult(states: seq<State>, events: seq<Event>, j: nat, k: nat, t: nat, rc: int)
    requires WholeCall(states, events, j, k, t, Delete)
    ensures states[k].threads[t].rc == rc <==>
            exists x :: Within(states, events, j, k, t, x) && DeleteCause(states[x], t, events[x].choice, rc)
  {
    ResultIff(states, events, j, k, t, Delete, rc);
    hide DeleteCause, Judge, Reachable, Safe, Shape, Enabled;
    forall x | Within(states, events, j, k, t, x)
      ensures Judged(states, events, x, t) == Closed(rc) <==> DeleteCause(states[x], t, events[x].choice, rc)
    {
      AtStep(states, events, j, k, t, Delete, x);
      DeleteJudged(states[x], t, events[x].choice, rc);
    }
    hide WholeCall, Within, Judged;
  }

  // ----- a deletion takes its tag out, and frees it -----

  // One of the steps of the call from j up to k takes this tag out of tags[].
  ghost predicate HasTaken(states: seq<State>, events: seq<Event>, j: nat, k: nat, t: nat, tag: int) {
    exists x :: Within(states, events, j, k, t, x) && states[x].threads[t].pc == Deleting(DDetach)
                && states[x].slot == tag >= 0
  }

  lemma DetachedBy(th: Thread, line: Deletes, v: View, c: Choice)
    requires th.pc == Deleting(line) && Detached(GoDelete(th, line, v, c).thread.pc)
    ensures (Detached(th.pc) || line.DDetach?) && GoDelete(th, line, v, c).thread.tag == th.tag
  {
    hide CellOf;
  }

  lemma DetachedFrom(th: Thread, v: View, m: Move)
    requires Traces(th, v, m) && Detached(m.thread.pc)
    ensures Detached(th.pc) || th.pc == Deleting(DDetach)
  {
    hide AtTop, Fetching, Private, Follows;
  }

  lemma DetachedEvent(s: State, e: Event, t: nat)
    requires Safe(s) && Happens(s, e) && t < |s.threads|
    ensures t < |After(s, e).threads|
    ensures var a, n := s.threads[t], After(s, e).threads[t];
            Detached(n.pc) ==> n.tag == a.tag && (Detached(a.pc) || (IsOwn(e, t) && a.pc == Deleting(DDetach)
                                                                     && s.slot == a.tag >= 0))
  {
    Lasts(s, e, t);
    if IsOwn(e, t) {
      if Detached(After(s, e).threads[t].pc) { DetachedStep(s, t, e.choice); }
    } else {
      OthersMove(s, e, t);
    }
    hide Safe, Happens, After;
  }

  lemma DetachedStep(s: State, t: nat, c: Choice)
    requires Safe(s) && Enabled(s, t, c) && Detached(Step(s, t, c).threads[t].pc)
    ensures var a, n := s.threads[t], Step(s, t, c).threads[t];
            n.tag == a.tag && (Detached(a.pc) || (a.pc == Deleting(DDetach) && s.slot == a.tag >= 0))
  {
    var th, m := s.threads[t], MoveOf(s, t, c);
    BaseParts(s);
    Tracing(s, t, c);
    AtDetach(s, t);
    hide Safe, Look, Contended, Unblocked, GoDelete, Base, Referring;
    assert Detached(m.thread.pc) by { hide Traceable, Go, NewTagLock, NewTags, NewCells, NewInsts, Hold; }
    DetachedFrom(th, Look(s, th), m);
    DetachedBy(th, th.pc.delete, Look(s, th), c);
    hide Traceable, NewTagLock, NewTags, NewCells, NewInsts, Hold, Enabled;
  }

  lemma AtDetach(s: State, t: nat)
    requires Safe(s) && t < |s.threads|
    ensures s.threads[t].pc == Deleting(DDetach) ==> s.slot == s.threads[t].tag >= 0
  {
    var th := s.threads[t];
    assert Refers(s, th) && Shape(th);
    TagNeeds(th);
    hide Safe, Shape, Placed, Topped;
  }

  lemma {:induction false} DetachedHasTaken(states: seq<State>, events: seq<Event>, j: nat, k: nat, t: nat)
    requires Run(states, events) && j < k < |states| && events[j] == Steps(t, Start(Delete))
    ensures t < |states[k].threads|
    ensures Detached(states[k].threads[t].pc) ==> HasTaken(states, events, j, k, t, states[k].threads[t].tag)
    decreases k
  {
    Length(states, events);
    if k == j + 1 {
      EventAt(states, events, j);
      FirstLine(states[j], t, Delete);
    } else {
      DetachedHasTaken(states, events, j, k - 1, t);
      hide Run;
      TakenNext(states, events, j, k - 1, t);
    }
  }

  lemma TakenNext(states: seq<State>, events: seq<Event>, j: nat, k: nat, t: nat)
    requires Run(states, events) && j < k && k + 1 < |states| && t < |states[k].threads|
    requires Detached(states[k].threads[t].pc) ==> HasTaken(states, events, j, k, t, states[k].threads[t].tag)
    ensures t < |states[k + 1].threads|
    ensures Detached(states[k + 1].threads[t].pc) ==>
              HasTaken(states, events, j, k + 1, t, states[k + 1].threads[t].tag)
  {
    EventAt(states, events, k);
    AlwaysSafe(states, events, k);
    hide Run, Safe, Happens, After, Detached;
    DetachedEvent(states[k], events[k], t);
    if Detached(states[k].threads[t].pc) {
      var x :| Within(states, events, j, k, t, x) && states[x].threads[t].pc == Deleting(DDetach)
               && states[x].slot == states[k].threads[t].tag >= 0;
      assert Within(states, events, j, k + 1, t, x);
    } else if IsOwn(events[k], t) {
      assert Within(states, events, j, k + 1, t, k);
    }
  }

  lemma FreeLines(th: Thread, line: Frees, v: View)
    requires th.pc == Freeing(line)
    ensures line.DLevels? ==> GoFree(th, line, v).thread.pc.Freeing? && GoFree(th, line, v).thread.tag == th.tag
  {
    hide CellOf;
  }

  // On its way to free tag k, or done with it.
  ghost predicate FreesOn(s: State, t: nat, k: int) {
    t < |s.threads| && ((s.threads[t].pc.Freeing? && s.threads[t].tag == k) || Gone(s, k))
  }

  lemma FreesEvent(s: State, e: Event, t: nat, k: int)
    requires Reachable(s) && Safe(s) && Buried(s) && Happens(s, e) && FreesOn(s, t, k)
    ensures FreesOn(After(s, e), t, k)
  {
    Lasts(s, e, t);
    if Gone(s, k) {
      GoneAfter(s, e, k);
    } else if !IsOwn(e, t) {
      OthersMove(s, e, t);
    } else {
      FreesStep(s, t, e.choice);
    }
    hide Safe, Reachable, Buried, Happens, After, Gone;
  }

  lemma FreesStep(s: State, t: nat, c: Choice)
    requires Reachable(s) && Enabled(s, t, c) && s.threads[t].pc.Freeing?
    ensures FreesOn(Step(s, t, c), t, s.threads[t].tag)
  {
    if s.threads[t].pc == Freeing(DTag) {
      DeleteOutcome(s, t, c);
      hide Reachable, Step, Freed, Ptr, Of, Enabled;
    } else {
      FreeLines(s.threads[t], s.threads[t].pc.free, Look(s, s.threads[t]));
      hide Reachable, Look, GoFree, Enabled, NewTagLock, NewTags, NewCells, NewInsts, Hold, Gone;
    }
  }

  lemma {:induction false} FreesToEnd(states: seq<State>, events: seq<Event>, j: nat, k: nat, t: nat, tag: int)
    requires Run(states, events) && j <= k < |states| && FreesOn(states[j], t, tag)
    ensures FreesOn(states[k], t, tag)
    decreases k
  {
    hide Safe, Happens, After, Initial, FreesOn, Buried, Reachable;
    if j < k {
      FreesToEnd(states, events, j, k - 1, t, tag);
      AlwaysSafe(states, events, k - 1);
      AlwaysBuried(states, events, k - 1);
      Prefixes(states, events, k - 1);
      FreesEvent(states[k - 1], events[k - 1], t, tag);
    }
  }

  lemma ClearLine(th: Thread, v: View, c: Choice)
    requires th.pc == Deleting(DClear) && !c.Interrupt?
    ensures Go(th, v, c).thread.pc.Freeing? && Go(th, v, c).thread.tag == th.tag
  {}

  lemma ClearStep(s: State, t: nat, c: Choice)
    requires t < |s.threads| && s.threads[t].pc == Deleting(DClear) && !c.Interrupt?
    ensures FreesOn(Step(s, t, c), t, s.threads[t].tag)
  {
    ClearLine(s.threads[t], Look(s, s.threads[t]), c);
    hide Go, Look, NewTagLock, NewTags, NewCells, NewInsts, Hold, Gone;
  }

  lemma TakenEarlier(states: seq<State>, events: seq<Event>, j: nat, y: nat, k: nat, t: nat, tag: int)
    requires HasTaken(states, events, j, y, t, tag) && y <= k
    ensures HasTaken(states, events, j, k, t, tag)
  {
    var x :| && Within(states, events, j, y, t, x) && states[x].threads[t].pc == Deleting(DDetach)
             && states[x].slot == tag >= 0;
    assert Within(states, events, j, k, t, x);
  }

  lemma ClearsOut(states: seq<State>, events: seq<Event>, j: nat, k: nat, t: nat, y: nat)
    requires WholeCall(states, events, j, k, t, Delete) && Within(states, events, j, k, t, y)
    requires states[y].threads[t].pc == Deleting(DClear) && !events[y].choice.Interrupt?
    ensures HasTaken(states, events, j, k, t, states[y].threads[t].tag) && Gone(states[k], states[y].threads[t].tag)
  {
    var tag := states[y].threads[t].tag;
    AtStep(states, events, j, k, t, Delete, y);
    hide Safe, Reachable, Shape, Enabled, Gone, SameCallOf, HasTaken;
    DetachedHasTaken(states, events, j, y, t);
    TakenEarlier(states, events, j, y, k, t, tag);
    ClearStep(states[y], t, events[y].choice);
    hide Step;
    FreesToEnd(states, events, y + 1, k, t, tag);
  }

  // A deletion that returns 1 has taken a tag out of tags[], and has freed it and every published level
  // of it.
  lemma DeleteDone(states: seq<State>, events: seq<Event>, j: nat, k: nat, t: nat)
    requires WholeCall(states, events, j, k, t, Delete) && states[k].threads[t].rc == 1
    ensures exists tag :: HasTaken(states, events, j, k, t, tag) && Gone(states[k], tag)
  {
    DeleteResult(states, events, j, k, t, 1);
    var y :| Within(states, events, j, k, t, y) && DeleteCause(states[y], t, events[y].choice, 1);
    hide WholeCall, Gone, HasTaken;
    ClearsOut(states, events, j, k, t, y);
  }

  // ----- a deletion broken off puts its tag back -----

  // One of the steps of the call from j up to k puts this tag back into tags[].
  ghost predicate HasPutBack(states: seq<State>, events: seq<Event>, j: nat, k: nat, t: nat, tag: int)
    requires k < |states|
  {
    exists x :: Within(states, events, j, k, t, x) && states[x].threads[t].pc == Deleting(DRestore)
                && states[x + 1].slot == tag
  }

  ghost predicate PutsBack(states: seq<State>, events: seq<Event>, j: nat, k: nat, t: nat, tag: int)
    requires k < |states|
  {
    t < |states[k].threads| &&
    ((states[k].threads[t].pc == Deleting(DRestore) && states[k].threads[t].tag == tag)
     || HasPutBack(states, events, j, k, t, tag))
  }

  lemma RestoreLine(th: Thread, v: View, c: Choice)
    requires th.pc == Deleting(DRestore)
    ensures Go(th, v, c).effect == SetSlot(th.tag)
  {}

  lemma RestoreStep(s: State, t: nat, c: Choice)
    requires t < |s.threads| && s.threads[t].pc == Deleting(DRestore)
    ensures Step(s, t, c).slot == s.threads[t].tag
  {
    RestoreLine(s.threads[t], Look(s, s.threads[t]), c);
    hide Go, Look, NewTagLock, NewTags, NewCells, NewInsts, Hold;
  }

  lemma PutsBackNext(states: seq<State>, events: seq<Event>, j: nat, k: nat, t: nat, tag: int)
    requires Run(states, events) && j < k && k + 1 < |states| && PutsBack(states, events, j, k, t, tag)
    ensures PutsBack(states, events, j, k + 1, t, tag)
  {
    EventAt(states, events, k);
    Lasts(states[k], events[k], t);
    if HasPutBack(states, events, j, k, t, tag) {
      var x :| && Within(states, events, j, k, t, x) && states[x].threads[t].pc == Deleting(DRestore)
               && states[x + 1].slot == tag;
      assert Within(states, events, j, k + 1, t, x);
    } else if IsOwn(events[k], t) {
      RestoreStep(states[k], t, events[k].choice);
      hide Run, Step, Enabled;
      assert Within(states, events, j, k + 1, t, k);
    } else {
      OthersMove(states[k], events[k], t);
    }
  }

  lemma {:induction false} PutsBackToEnd(states: seq<State>, events: seq<Event>, j: nat, y: nat, k: nat, t: nat,
                                         tag: int)
    requires Run(states, events) && j < y <= k < |states| && PutsBack(states, events, j, y, t, tag)
    ensures PutsBack(states, events, j, k, t, tag)
    decreases k
  {
    hide Run, PutsBack;
    if y < k {
      PutsBackToEnd(states, events, j, y, k - 1, t, tag);
      PutsBackNext(states, events, j, k - 1, t, tag);
    }
  }

  lemma BreakClear(s: State, t: nat, c: Choice)
    requires t < |s.threads| && s.threads[t].pc == Deleting(DClear) && c.Interrupt?
    ensures var n := Step(s, t, c).threads[t]; n.pc == Deleting(DRestore) && n.tag == s.threads[t].tag
  {
    BreakClearLine(s.threads[t], Look(s, s.threads[t]), c);
    hide Go, Look, NewTagLock, NewTags, NewCells, NewInsts, Hold;
  }

  lemma BreakClearLine(th: Thread, v: View, c: Choice)
    requires th.pc == Deleting(DClear) && c.Interrupt?
    ensures Go(th, v, c).thread == th.(pc := Deleting(DRestore))
  {}

  lemma BreaksBack(states: seq<State>, events: seq<Event>, j: nat, k: nat, t: nat, y: nat)
    requires WholeCall(states, events, j, k, t, Delete) && Within(states, events, j, k, t, y)
    requires states[y].threads[t].pc == Deleting(DClear) && events[y].choice.Interrupt?
    ensures HasTaken(states, events, j, k, t, states[y].threads[t].tag)
    ensures HasPutBack(states, events, j, k, t, states[y].threads[t].tag)
  {
    var tag := states[y].threads[t].tag;
    AtStep(states, events, j, k, t, Delete, y);
    hide Safe, Reachable, Shape, Enabled, SameCallOf, HasTaken, HasPutBack;
    DetachedHasTaken(states, events, j, y, t);
    TakenEarlier(states, events, j, y, k, t, tag);
    BreakClear(states[y], t, events[y].choice);
    hide Step;
    assert t < |states[y + 1].threads| by { StillThread(states, events, y, t); }
    PutsBackToEnd(states, events, j, y + 1, k, t, tag);
  }

  lemma StillThread(states: seq<State>, events: seq<Event>, y: nat, t: nat)
    requires Run(states, events) && y + 1 < |states| && t < |states[y].threads|
    ensures t < |states[y + 1].threads|
  {
    EventAt(states, events, y);
    Lasts(states[y], events[y], t);
  }

  // A deletion that returns EINTR has put the tag it had taken out of tags[] back.
  lemma DeleteBroken(states: seq<State>, events: seq<Event>, j: nat, k: nat, t: nat)
    requires WholeCall(states, events, j, k, t, Delete) && states[k].threads[t].rc == EINTR
    ensures exists tag :: HasTaken(states, events, j, k, t, tag) && HasPutBack(states, events, j, k, t, tag)
  {
    DeleteResult(states, events, j, k, t, EINTR);
    var y :| Within(states, events, j, k, t, y) && DeleteCause(states[y], t, events[y].choice, EINTR);
    hide WholeCall, HasTaken, HasPutBack;
    BreaksBack(states, events, j, k, t, y);
  }
}
