// Calls that are refused: for their arguments, for want of a tag or of permission, or, a deletion, because
// the tag is in use. They leave everything but the tag lock as it was.

module Refusals {
  import opened Protocol
  import opened Shapes
  import opened Locks
  import opened Refs
  import opened Grace
  import opened Messages
  import opened Runs
  import opened Guarantees
  import opened Outcomes
  import opened Waking
  import opened Results
  import opened Bounds
  import opened Verdicts
  import opened Calls
  import opened Deletion

  // A call one of whose steps is denied returns EPERM, or ENODATA if there is no tag to be denied.
  lemma DeniedEnds(states: seq<State>, events: seq<Event>, j: nat, k: nat, t: nat, call: Call, x: nat)
    requires WholeCall(states, events, j, k, t, call) && InRange(call) && Within(states, events, j, k, t, x)
    requires events[x].choice.Denied?
    ensures states[k].threads[t].rc == if states[x].slot == NONE then ENODATA else EPERM
  {
    ResultIff(states, events, j, k, t, call, if states[x].slot == NONE then ENODATA else EPERM);
    hide WholeCall, InRange;
  }

  // ----- outside -----

  // The lines before a call has a tag.
  predicate Early(pc: PC) {
    || pc == Arriving(RTag) || pc == Sending(STag) || pc == Awaking(ATag) || pc == Deleting(DTry) || Looks(pc)
  }

  // Has no tag and holds at most the tag lock.
  predicate Outsider(th: Thread) {
    && th.tag == NONE && !th.zero && th.held == NOTHING.(tagR := th.held.tagR, tagW := th.held.tagW)
    && (Early(th.pc) || th.pc.Exiting? || th.pc.Idle?) && th.pc != Exiting(UnClear)
  }

  // Has a tag and is not decided.
  predicate Engaged(th: Thread) { !Final(th.pc) && !Early(th.pc) }

  predicate OnTheLock(e: Effect) { e.Quiet? || e.LockTag? || e.UnlockTag? }

  lemma LookOutside(th: Thread, v: View, c: Choice, next: PC)
    requires Outsider(th) && Looks(th.pc) && !Final(next) && !Early(next)
    ensures var m := GoLook(th, v, c, next);
            OnTheLock(m.effect) && (Outsider(Moved(th, m)) || Engaged(m.thread))
  {
    hide CellOf;
  }

  lemma LockOutside(th: Thread, v: View, c: Choice)
    requires Outsider(th) && Early(th.pc) && !Looks(th.pc)
    ensures var m := Go(th, v, c); OnTheLock(m.effect) && Outsider(Moved(th, m))
  {
    hide CellOf;
  }

  lemma MessageLooks(th: Thread, v: View, c: Choice)
    requires Outsider(th) && (th.pc == Arriving(RLook) || th.pc == Sending(SLook))
    ensures var m := Go(th, v, c); OnTheLock(m.effect) && (Outsider(Moved(th, m)) || Engaged(m.thread))
  {
    LookOutside(th, v, c, Arriving(RLevel));
    LookOutside(th, v, c, Sending(SWaiters));
    hide CellOf, GoLook, Outsider, Engaged, OnTheLock, Hold;
  }

  lemma ControlLooks(th: Thread, v: View, c: Choice)
    requires Outsider(th) && (th.pc == Awaking(ALook) || th.pc == Deleting(DRead))
    ensures var m := Go(th, v, c); OnTheLock(m.effect) && (Outsider(Moved(th, m)) || Engaged(m.thread))
  {
    LookOutside(th, v, c, Awaking(AReady));
    LookOutside(th, v, c, Deleting(DDetach));
    hide CellOf, GoLook, Outsider, Engaged, OnTheLock, Hold;
  }

  lemma ExitOutside(th: Thread, v: View, c: Choice)
    requires Outsider(th) && th.pc.Exiting?
    ensures var m := Go(th, v, c); OnTheLock(m.effect) && Outsider(Moved(th, m))
  {}

  lemma StartOutside(th: Thread, v: View, call: Call)
    requires th.held == NOTHING
    ensures var m := GoStart(th, v, call); OnTheLock(m.effect) && Outsider(Moved(th, m))
  {}

  // Nobody comes back to the lines before the tag within a call: they are farthest from its end.
  function Top(call: Call): int {
    match call
    case Receive(_, _, _) => 39
    case Send(_, _, _) => 22
    case AwakeAll => 204
    case Delete => 40
  }

  lemma EarlyRank(th: Thread)
    requires Shape(th) && !th.pc.Idle?
    ensures Early(th.pc) <==> Rank(th) >= Top(th.call)
  {
    hide Working, Leaving, ValidCall;
  }

  lemma StaysLow(th: Thread, v: View, c: Choice, n: Thread)
    requires Shape(th) && Shape(n) && n.call == th.call && Descends(th, v, c, n) && !th.pc.Idle? && !Early(th.pc)
    ensures !Early(n.pc)
  {
    EarlyRank(th);
    WaitsLow(th);
    if !n.pc.Idle? { EarlyRank(n); }
    hide Shape, Rank;
  }

  lemma NeverEarly(s: State, t: nat, c: Choice)
    requires Safe(s) && Enabled(s, t, c) && !c.Start? && !Early(s.threads[t].pc)
    ensures !Early(MoveOf(s, t, c).thread.pc)
  {
    var th, m := s.threads[t], MoveOf(s, t, c);
    hide Safe, Look, Contended, Unblocked, Go, Early, Descends, Shape;
    NotIdle(s, t, c);
    OnLevelOf(s, t);
    BothShapes(s, t, c);
    MoverStays(s, t, c);
    MoveDescends(th, Look(s, th), c);
    DescendsHeld(th, Look(s, th), c, m.thread, Hold(th, m.effect));
    hide Enabled, Hold;
    StaysLow(th, Look(s, th), c, Moved(th, m));
  }

  lemma BothShapes(s: State, t: nat, c: Choice)
    requires Safe(s) && Enabled(s, t, c)
    ensures Shape(s.threads[t]) && Shape(Moved(s.threads[t], MoveOf(s, t, c)))
  {
    hide Look, Contended, Unblocked, Go, Shape, Base, Referring, Traces, Origin, Legal;
    BaseParts(s);
    Tracing(s, t, c);
  }

  lemma DescendsHeld(th: Thread, v: View, c: Choice, n: Thread, held: Held)
    requires Descends(th, v, c, n)
    ensures Descends(th, v, c, n.(held := held))
  {
    RankHeld(n, held);
    hide Rank, Extra;
  }

  lemma WaitsLow(th: Thread)
    ensures th.pc.Waiting? || th.pc.Finishing? ==> Rank(th) <= 24
  {}

  // ----- steps of a refused call -----

  // Everything but the tag lock and the threads.
  predicate Untouched(s: State, s': State) {
    s'.slot == s.slot && s'.tags == s.tags && s'.cells == s.cells && s'.insts == s.insts && s'.log == s.log
  }

  lemma LockOnly(s: State, t: nat, m: Move)
    requires t < |s.threads| && OnTheLock(m.effect)
    ensures Untouched(s, Apply(s, t, m))
  {
    var th := s.threads[t];
    if 0 <= th.tag < |s.tags| { assert NewTag(s.tags[th.tag], t, m.effect) == s.tags[th.tag]; }
    if 0 <= th.cell < |s.cells| {
      assert NewCell(s.cells[th.cell], th, t, m.effect, |s.insts|) == s.cells[th.cell];
    }
    var i := Target(th, m.effect);
    if 0 <= i < |s.insts| { assert NewInst(s.insts[i], t, m.effect, |s.log|) == s.insts[i]; }
  }

  lemma OutsideMoves(th: Thread, v: View, c: Choice)
    requires Outsider(th) && (th.pc.Idle? <==> c.Start?) && (th.pc.Idle? ==> th.held == NOTHING)
    ensures var m := Go(th, v, c); OnTheLock(m.effect) && (Outsider(Moved(th, m)) || Engaged(m.thread))
  {
    hide Go, OnTheLock, Engaged, Hold;
    if th.pc.Idle? {
      GoesStart(th, v, c);
      StartOutside(th, v, c.call);
    } else if th.pc.Exiting? {
      ExitOutside(th, v, c);
    } else if th.pc == Arriving(RLook) || th.pc == Sending(SLook) {
      MessageLooks(th, v, c);
    } else if th.pc == Awaking(ALook) || th.pc == Deleting(DRead) {
      ControlLooks(th, v, c);
    } else {
      LockOutside(th, v, c);
    }
  }

  lemma GoesStart(th: Thread, v: View, c: Choice)
    requires th.pc.Idle? && c.Start?
    ensures Go(th, v, c) == GoStart(th, v, c.call)
  {}

  // A step of an outsider leaves everything but the tag lock alone, and leaves it outside or gives it a tag.
  lemma OutsideStep(s: State, t: nat, c: Choice)
    requires Safe(s) && Enabled(s, t, c) && Outsider(s.threads[t])
    ensures Untouched(s, Step(s, t, c)) && t < |Step(s, t, c).threads|
    ensures Outsider(Step(s, t, c).threads[t]) || Engaged(Step(s, t, c).threads[t])
  {
    var th, m := s.threads[t], MoveOf(s, t, c);
    hide Safe, Look, Contended, Unblocked, Go, Outsider, Engaged, OnTheLock, Apply;
    IdleHolds(s, t, c);
    OutsideMoves(th, Look(s, th), c);
    LockOnly(s, t, m);
    EngagedHeld(m.thread, Hold(th, m.effect));
    SteppedThread(s, t, m);
    hide Enabled, Untouched;
  }

  lemma SteppedThread(s: State, t: nat, m: Move)
    requires t < |s.threads|
    ensures t < |Apply(s, t, m).threads| && Apply(s, t, m).threads[t] == Moved(s.threads[t], m)
  {
    hide NewTagLock, NewTags, NewCells, NewInsts, Hold;
  }

  lemma EngagedHeld(th: Thread, held: Held)
    ensures Engaged(th.(held := held)) == Engaged(th)
  {}

  lemma IdleHolds(s: State, t: nat, c: Choice)
    requires Safe(s) && Enabled(s, t, c)
    ensures (s.threads[t].pc.Idle? <==> c.Start?) && (s.threads[t].pc.Idle? ==> s.threads[t].held == NOTHING)
  {
    OnLevelOf(s, t);
    hide Safe, Look, Contended, Unblocked, OwnCall, Leaving, Numbers;
  }

  // The results that say a call was turned away at the door.
  predicate AtTheDoor(call: Call, rc: int) { rc == EINVAL || rc == ENODATA || rc == EPERM || (call.Delete? && rc == 0) }

  // Decided with another result.
  predicate Inside(th: Thread) { Engaged(th) || (Final(th.pc) && !AtTheDoor(th.call, Fate(th))) }

  lemma EngagedJudged(s: State, t: nat, c: Choice, rc: int)
    requires Safe(s) && Enabled(s, t, c) && Engaged(s.threads[t]) && Judge(s, t, c) == Closed(rc)
    ensures !AtTheDoor(s.threads[t].call, rc)
  {
    hide Safe, Look, Contended, Unblocked, Flagged, NobodyCounted, NobodyWaits, MutexTaken;
    OnLevelOf(s, t);
    if s.threads[t].call.Delete? && !s.threads[t].pc.Idle? { DeleterLine(s.threads[t]); }
    hide Shape;
  }

  lemma InsideStep(s: State, t: nat, c: Choice)
    requires Safe(s) && Enabled(s, t, c) && !c.Start? && Inside(s.threads[t])
    ensures t < |Step(s, t, c).threads| && Inside(Step(s, t, c).threads[t])
  {
    hide Safe, Look, Contended, Unblocked, Go, Judge, Fate, Final, Early, Step;
    SameCallKept(s, t, c);
    if Final(s.threads[t].pc) {
      StepKeepsFate(s, t, c);
    } else {
      StepObeys(s, t, c);
      EarlyKept(s, t, c);
      if Final(Step(s, t, c).threads[t].pc) { EngagedJudged(s, t, c, Fate(Step(s, t, c).threads[t])); }
    }
    hide Enabled;
  }

  lemma SameCallKept(s: State, t: nat, c: Choice)
    requires Safe(s) && Enabled(s, t, c) && !c.Start?
    ensures t < |Step(s, t, c).threads| && Step(s, t, c).threads[t].call == s.threads[t].call
  {
    hide Safe, Look, Contended, Unblocked, Go;
    MoverStays(s, t, c);
    hide Enabled, NewTagLock, NewTags, NewCells, NewInsts, Hold;
  }

  lemma EarlyKept(s: State, t: nat, c: Choice)
    requires Safe(s) && Enabled(s, t, c) && !c.Start? && !Early(s.threads[t].pc)
    ensures t < |Step(s, t, c).threads| && !Early(Step(s, t, c).threads[t].pc)
  {
    hide Safe, Look, Contended, Unblocked, Go, Early;
    NeverEarly(s, t, c);
    hide Enabled, NewTagLock, NewTags, NewCells, NewInsts, Hold;
  }

  // ----- runs -----

  // None of the steps of thread t from j up to k has touched anything but the tag lock.
  ghost predicate Harmless(states: seq<State>, events: seq<Event>, j: nat, k: nat, t: nat)
    requires k <= |events| < |states|
  {
    forall x :: j <= x < k && IsOwn(events[x], t) ==> Untouched(states[x], states[x + 1])
  }

  ghost predicate DoorOrInside(states: seq<State>, events: seq<Event>, j: nat, k: nat, t: nat)
    requires k <= |events| < |states|
  {
    && t < |states[k].threads|
    && (Inside(states[k].threads[t]) || (Outsider(states[k].threads[t]) && Harmless(states, events, j, k, t)))
  }

  lemma StartOutsider(s: State, t: nat, c: Choice)
    requires Safe(s) && Enabled(s, t, c) && c.Start?
    ensures Untouched(s, Step(s, t, c)) && t < |Step(s, t, c).threads| && Outsider(Step(s, t, c).threads[t])
  {
    var th, m := s.threads[t], MoveOf(s, t, c);
    hide Safe, Look, Contended, Unblocked, Outsider, OnTheLock, Apply;
    IdleHolds(s, t, c);
    GoesStart(th, Look(s, th), c);
    StartOutside(th, Look(s, th), c.call);
    LockOnly(s, t, m);
    SteppedThread(s, t, m);
    hide Enabled, Untouched, Go, GoStart;
  }

  lemma DoorFirst(states: seq<State>, events: seq<Event>, j: nat, t: nat, call: Call)
    requires Run(states, events) && j + 1 < |states| && events[j] == Steps(t, Start(call))
    ensures |states| == |events| + 1 && DoorOrInside(states, events, j, j + 1, t)
  {
    Length(states, events);
    EventAt(states, events, j);
    AlwaysSafe(states, events, j);
    StepOf(states[j], events[j]);
    hide Run, Safe, Happens, After, Enabled, Step, Untouched, Outsider, Inside;
    StartOutsider(states[j], t, Start(call));
  }

  lemma DoorEvent(s: State, e: Event, t: nat)
    requires Safe(s) && Happens(s, e) && t < |s.threads| && (Inside(s.threads[t]) || Outsider(s.threads[t]))
    requires !(IsOwn(e, t) && e.choice.Start?)
    ensures t < |After(s, e).threads|
    ensures Inside(s.threads[t]) ==> Inside(After(s, e).threads[t])
    ensures Inside(After(s, e).threads[t])
            || (Outsider(After(s, e).threads[t]) && (IsOwn(e, t) ==> Untouched(s, After(s, e))))
  {
    if IsOwn(e, t) {
      DoorStep(s, t, e.choice);
    } else {
      OthersMove(s, e, t);
    }
    hide Safe, Enabled, Step, MayCreate, Untouched, Outsider, Inside;
  }

  lemma DoorNext(states: seq<State>, events: seq<Event>, j: nat, k: nat, t: nat)
    requires Run(states, events) && |states| == |events| + 1 && j < k && k + 1 < |states|
    requires DoorOrInside(states, events, j, k, t) && !(IsOwn(events[k], t) && events[k].choice.Start?)
    ensures DoorOrInside(states, events, j, k + 1, t)
  {
    hide Safe, Happens, After, Initial, Untouched, Outsider, Inside;
    AlwaysSafe(states, events, k);
    DoorEvent(states[k], events[k], t);
  }

  lemma DoorStep(s: State, t: nat, c: Choice)
    requires Safe(s) && Enabled(s, t, c) && !c.Start? && (Inside(s.threads[t]) || Outsider(s.threads[t]))
    ensures t < |Step(s, t, c).threads|
    ensures Inside(s.threads[t]) ==> Inside(Step(s, t, c).threads[t])
    ensures Inside(Step(s, t, c).threads[t]) || (Outsider(Step(s, t, c).threads[t]) && Untouched(s, Step(s, t, c)))
  {
    hide Safe, Look, Contended, Unblocked, Step, Untouched, Outsider, Engaged, AtTheDoor;
    if Inside(s.threads[t]) { InsideStep(s, t, c); } else { OutsideStep(s, t, c); }
  }

  lemma {:induction false} AlwaysDoor(states: seq<State>, events: seq<Event>, j: nat, k: nat, t: nat, call: Call)
    requires Run(states, events) && j < k < |states| && events[j] == Steps(t, Start(call))
    requires SameCallOf(events, j + 1, k, t)
    ensures |states| == |events| + 1 && DoorOrInside(states, events, j, k, t)
    decreases k
  {
    Length(states, events);
    hide Run, DoorOrInside;
    if k == j + 1 {
      DoorFirst(states, events, j, t, call);
    } else {
      AlwaysDoor(states, events, j, k - 1, t, call);
      DoorNext(states, events, j, k - 1, t);
    }
  }

  // A call that returns EINVAL, ENODATA or EPERM, and a deletion that returns 0, has touched nothing but the
  // tag lock with any of its steps: no slot, flag, counter, lock, message or memory.
  lemma RefusedTouchesNothing(states: seq<State>, events: seq<Event>, j: nat, k: nat, t: nat, call: Call)
    requires WholeCall(states, events, j, k, t, call) && AtTheDoor(call, states[k].threads[t].rc)
    ensures |states| == |events| + 1 && Harmless(states, events, j, k, t)
  {
    AlwaysDoor(states, events, j, k, t, call);
    CallLasts(states, events, j, k, t, call);
    hide Run, SameCallOf, Harmless, Outsider;
  }
}
