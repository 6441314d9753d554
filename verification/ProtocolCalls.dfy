// The calls, from start to return: what each of them returns and has done, in every interleaving.

module Calls {
  import opened Protocol
  import opened Shapes
  import opened Locks
  import opened Refs
  import opened Grace
  import opened Messages
  import opened Duty
  import opened Runs
  import opened Guarantees
  import opened Outcomes
  import opened Waking
  import opened Results
  import opened Bounds
  import opened Verdicts

  // Thread t starts this call at step j, and the call is over at state k.
  ghost predicate WholeCall(states: seq<State>, events: seq<Event>, j: nat, k: nat, t: nat, call: Call) {
    && Run(states, events) && j < k < |states| && events[j] == Steps(t, Start(call)) && SameCallOf(events, j + 1, k, t)
    && t < |states[k].threads| && states[k].threads[t].pc.Idle?
  }

  // Step x is one of the call's own steps after the start.
  predicate Within(states: seq<State>, events: seq<Event>, j: nat, k: nat, t: nat, x: int) {
    j < x < k && x < |events| && x < |states| && IsOwn(events[x], t) && t < |states[x].threads|
  }

  // The call was decided at step y and nowhere else.
  lemma Over(states: seq<State>, events: seq<Event>, j: nat, k: nat, t: nat, call: Call) returns (y: nat)
    requires WholeCall(states, events, j, k, t, call)
    ensures |states| == |events| + 1 && DecidedBy(states, events, j, k, t, y, states[k].threads[t].rc)
  {
    Length(states, events);
    EventAt(states, events, j);
    Begins(states[j], t, call);
    hide Run, Undecided;
    CallDecided(states, events, j, k, t);
    y :| DecidedBy(states, events, j, k, t, y, Fate(states[k].threads[t]));
  }

  lemma Begins(s: State, t: nat, call: Call)
    requires Happens(s, Steps(t, Start(call)))
    ensures Undecided(s, Steps(t, Start(call)), t)
  {
    hide Look;
  }

  // What is known of the thread at its steps within the call.
  lemma AtStep(states: seq<State>, events: seq<Event>, j: nat, k: nat, t: nat, call: Call, x: nat)
    requires WholeCall(states, events, j, k, t, call) && Within(states, events, j, k, t, x)
    ensures |states| == |events| + 1 && Reachable(states[x]) && Safe(states[x]) && Shape(states[x].threads[t])
    ensures Enabled(states[x], t, events[x].choice) && states[x + 1] == Step(states[x], t, events[x].choice)
    ensures states[x].threads[t].call == call && !events[x].choice.Start?
  {
    hide Safe, Happens, After, Initial, Reachable, Shape;
    AlwaysSafe(states, events, x);
    Prefixes(states, events, x);
    CallLasts(states, events, j, x, t, call);
    EventAt(states, events, x);
    StepOf(states[x], events[x]);
    OnLevelOf(states[x], t);
  }

  // The deciding step comes after the start, unless the arguments are out of range.
  lemma DecidedWithin(states: seq<State>, events: seq<Event>, j: nat, k: nat, t: nat, call: Call, y: nat)
    requires WholeCall(states, events, j, k, t, call) && |states| == |events| + 1
    requires DecidedBy(states, events, j, k, t, y, states[k].threads[t].rc)
    ensures InRange(call) ==> Within(states, events, j, k, t, y)
    ensures !InRange(call) ==> y == j && states[k].threads[t].rc == EINVAL
  {
    hide Run, InRange;
    if y != j && !InRange(call) { StartJudged(states, events, j, t, call); }
  }

  lemma StartJudged(states: seq<State>, events: seq<Event>, j: nat, t: nat, call: Call)
    requires Run(states, events) && j + 1 < |states| && events[j] == Steps(t, Start(call)) && !InRange(call)
    ensures Judged(states, events, j, t) == Closed(EINVAL)
  {
    EventAt(states, events, j);
    Begins(states[j], t, call);
    hide Run, InRange, Safe, Happens, After;
  }

  // ----- send -----

  // A send sees nobody counted on the tag, the instance's mutex with another thread, a message in the
  // instance, or nobody waiting on it.
  ghost predicate Obstructed(s: State, t: nat)
    requires t < |s.threads|
  {
    var th := s.threads[t];
    || (th.pc == Sending(SWaiters) && 0 <= th.tag < |s.tags| && s.tags[th.tag].members == {})
    || (th.pc == Sending(SMutex) && exists u :: 0 <= u < |s.threads| && u != t && s.threads[u].held.mutex == th.inst)
    || (th.pc == Posting(SReady) && 0 <= th.inst < |s.insts| && s.insts[th.inst].data.ready)
    || (th.pc == Posting(SWaiting) && 0 <= th.inst < |s.insts| && s.insts[th.inst].sync.waiters == {})
  }

  lemma SendTurned(s: State, t: nat)
    requires Safe(s) && t < |s.threads| && s.threads[t].call.Send? && !s.threads[t].pc.Idle?
    ensures TurnedAway(s, t) <==> Obstructed(s, t)
  {
    hide Safe;
    OnLevelOf(s, t);
    SenderLine(s.threads[t]);
    if s.threads[t].pc == Sending(SMutex) { MutexWithOther(s, t); }
    hide Shape, MutexTaken;
  }

  lemma SenderLine(th: Thread)
    requires Shape(th) && th.call.Send? && !th.pc.Idle?
    ensures InSend(th.pc) || th.pc.Exiting?
  {
    hide Working, Leaving, Numbers;
  }

  // A mutex taken when a send tries it is another thread's.
  lemma MutexWithOther(s: State, t: nat)
    requires Safe(s) && t < |s.threads| && s.threads[t].pc == Sending(SMutex)
    ensures var i := s.threads[t].inst;
            MutexTaken(s, i) <==> exists u :: 0 <= u < |s.threads| && u != t && s.threads[u].held.mutex == i
  {
    var th := s.threads[t];
    assert Shape(th) && Refers(s, th);
    Knows(th);
    NoMutexYet(th);
    hide Alive, Told, Dutiful, Referring, Shape, Slotted, Topped, Guarded, Tallied, Ranged;
    assert Synced(s.insts[th.inst].sync, th.inst, s.threads);
    hide Locked;
    var m := s.insts[th.inst].sync.mutex;
    if m != NONE { assert s.threads[m].held.mutex == th.inst; }
  }

  lemma NoMutexYet(th: Thread)
    requires Shape(th) && th.pc == Sending(SMutex)
    ensures th.held.mutex == NONE
  {}

  // ----- the level asked for -----

  function Wanted(call: Call): int { if call.Receive? || call.Send? then call.wanted else 0 }

  // A receive or a send works on the level it was asked for, of whatever tag.
  predicate OnWanted(th: Thread) {
    th.call.Receive? || th.call.Send? ==>
      && (!th.pc.Idle? ==> th.level == Wanted(th.call))
      && (th.cell != NONE ==> th.cell >= 0 && th.cell % LEVELS == Wanted(th.call))
  }

  lemma ReceiveLevel(th: Thread, v: View, c: Choice)
    requires th.pc.Arriving? || th.pc.Renewing?
    ensures Go(th, v, c).thread.level == th.level
  {
    hide CellOf, GoStart, GoWait, GoFinish, GoSend, GoPost, GoTell, GoAwake, GoRouse, GoDelete, GoFree, GoExit;
  }

  lemma WaitLevel(th: Thread, v: View, c: Choice)
    requires th.pc.Waiting? || th.pc.Finishing?
    ensures Go(th, v, c).thread.level == th.level
  {
    hide CellOf, Prefix, Min, Size, GoStart, GoReceive, GoRenew, GoSend, GoPost, GoTell, GoAwake, GoRouse, GoDelete,
         GoFree, GoExit;
  }

  lemma SendLevel(th: Thread, v: View, c: Choice)
    requires InSend(th.pc)
    ensures Go(th, v, c).thread.level == th.level
  {
    hide CellOf, Overlay, Text, GoStart, GoReceive, GoRenew, GoWait, GoFinish, GoAwake, GoRouse, GoDelete, GoFree,
         GoExit;
  }

  lemma ExitLevel(th: Thread, v: View, c: Choice)
    requires th.pc.Exiting?
    ensures Go(th, v, c).thread.level == th.level
  {
    hide CellOf;
  }

  lemma LevelMod(tag: int, level: int)
    requires 0 <= tag && 0 <= level < LEVELS
    ensures CellOf(tag, level) >= 0 && CellOf(tag, level) % LEVELS == level
  {}

  lemma StartLevelled(th: Thread, v: View, call: Call)
    ensures OnWanted(GoStart(th, v, call).thread)
  {}

  // Within a receive or a send the level stays, and the cell is that level's or what it was.
  lemma MoverOnWanted(s: State, t: nat, c: Choice)
    requires Safe(s) && Enabled(s, t, c) && OnWanted(s.threads[t])
    ensures OnWanted(MoveOf(s, t, c).thread)
  {
    var th, v, m := s.threads[t], Look(s, s.threads[t]), MoveOf(s, t, c);
    hide Look, Contended, Unblocked, Go, Base, Alive, Told, Dutiful;
    if c.Start? {
      IdleStarts(th, v, c);
      StartLevelled(th, v, c.call);
    } else {
      NotIdle(s, t, c);
      BaseParts(s);
      Tracing(s, t, c);
      MoverStays(s, t, c);
      OnLevelOf(s, t);
      hide Safe, Enabled;
      if th.call.Receive? || th.call.Send? { CallLine(th); }
      if th.pc.Arriving? || th.pc.Renewing? {
        ReceiveLevel(th, v, c);
      } else if th.pc.Waiting? || th.pc.Finishing? {
        WaitLevel(th, v, c);
      } else if InSend(th.pc) {
        SendLevel(th, v, c);
      } else if th.pc.Exiting? {
        ExitLevel(th, v, c);
      }
      WantedNext(th, v, m);
    }
  }

  lemma CallLine(th: Thread)
    requires Shape(th) && !th.pc.Idle? && (th.call.Receive? || th.call.Send?)
    ensures InReceive(th.pc) || InSend(th.pc) || th.pc.Exiting?
  {
    hide Working, Leaving, Numbers;
  }

  lemma WantedNext(th: Thread, v: View, m: Move)
    requires OnWanted(th) && !th.pc.Idle? && m.thread.call == th.call && Traces(th, v, m) && Shape(Moved(th, m))
    requires th.call.Receive? || th.call.Send? ==> m.thread.level == th.level
    ensures OnWanted(m.thread)
  {
    if m.thread.tag >= 0 { NumbersOf(Moved(th, m)); LevelMod(m.thread.tag, m.thread.level); }
    hide Shape, CellOf, AtTop, Fetching, Private, Follows, Detached;
  }

  lemma NumbersOf(th: Thread)
    requires Shape(th)
    ensures NONE <= th.tag && 0 <= th.level < LEVELS && (th.tag >= 0 ==> th.cell == CellOf(th.tag, th.level))
  {}

  ghost predicate AllOnWanted(s: State) {
    && (forall u :: 0 <= u < |s.threads| ==> OnWanted(s.threads[u]))
    && (forall p :: 0 <= p < |s.log| ==> s.log[p].cell >= 0)
  }

  lemma StepWanted(s: State, t: nat, c: Choice)
    requires Safe(s) && Enabled(s, t, c) && OnWanted(s.threads[t])
    ensures t < |Step(s, t, c).threads| && OnWanted(Step(s, t, c).threads[t])
  {
    hide Safe, Contended, Unblocked, Look, Go;
    MoverOnWanted(s, t, c);
    WantedHeld(MoveOf(s, t, c).thread, Hold(s.threads[t], MoveOf(s, t, c).effect));
    hide OnWanted, NewTagLock, NewTags, NewCells, NewInsts, Hold, Enabled;
  }

  lemma OnWantedStep(s: State, t: nat, c: Choice)
    requires Safe(s) && AllOnWanted(s) && Enabled(s, t, c)
    ensures AllOnWanted(Step(s, t, c))
  {
    hide Safe, Step, OnWanted, Contended, Unblocked, Look;
    StepWanted(s, t, c);
    SameThreads(s, t, c);
    PostsOnCell(s, t, c);
    hide Enabled;
  }

  lemma OnWantedAfter(s: State, e: Event)
    requires Safe(s) && AllOnWanted(s) && Happens(s, e)
    ensures AllOnWanted(After(s, e))
  {
    hide Safe, Step, OnWanted, Enabled, MayCreate;
    if e.Steps? { OnWantedStep(s, e.thread, e.choice); }
  }

  // A message is posted on a level of a tag.
  lemma PostsOnCell(s: State, t: nat, c: Choice)
    requires Safe(s) && Enabled(s, t, c)
    ensures var log, more := s.log, Step(s, t, c).log;
            more == log || (|more| == |log| + 1 && more[..|log|] == log && more[|log|].cell >= 0)
  {
    BaseParts(s);
    Tracing(s, t, c);
    LogMove(s, t, c);
    OnLevelOf(s, t);
    if s.threads[t].pc == Posting(SPost) {
      PostsInTag(s.threads[t]);
      LevelMod(s.threads[t].tag, s.threads[t].level);
    }
    hide Safe, Traceable, Step, Shape, Enabled;
  }

  lemma PostsInTag(th: Thread)
    requires Shape(th) && th.pc.Posting?
    ensures th.tag >= 0 && th.cell == CellOf(th.tag, th.level)
  {}

  lemma WantedHeld(th: Thread, held: Held)
    ensures OnWanted(th.(held := held)) == OnWanted(th)
  {}

  lemma InitialWanted(s: State)
    requires Initial(s)
    ensures AllOnWanted(s)
  {}

  lemma {:induction false} AlwaysOnWanted(states: seq<State>, events: seq<Event>, k: nat)
    requires Run(states, events) && k < |states|
    ensures AllOnWanted(states[k])
    decreases k
  {
    hide Safe, Happens, After, AllOnWanted, Initial;
    if k == 0 {
      InitialWanted(states[0]);
    } else {
      AlwaysOnWanted(states, events, k - 1);
      AlwaysSafe(states, events, k - 1);
      OnWantedAfter(states[k - 1], events[k - 1]);
    }
  }

  // ----- what a call returns -----

  // A call in range returns r if and only if one of its own steps is judged to give r.
  lemma ResultIff(states: seq<State>, events: seq<Event>, j: nat, k: nat, t: nat, call: Call, r: int)
    requires WholeCall(states, events, j, k, t, call) && InRange(call)
    ensures states[k].threads[t].rc == r <==>
            exists x :: Within(states, events, j, k, t, x) && Judged(states, events, x, t) == Closed(r)
  {
    var y := Over(states, events, j, k, t, call);
    hide Run, InRange, Judged;
    DecidedWithin(states, events, j, k, t, call, y);
    assert Judged(states, events, y, t) == Closed(states[k].threads[t].rc);
  }

  lemma ImproperIff(states: seq<State>, events: seq<Event>, j: nat, k: nat, t: nat, call: Call)
    requires WholeCall(states, events, j, k, t, call)
    ensures states[k].threads[t].rc == EINVAL <==> !InRange(call)
  {
    hide WholeCall, InRange, Within, Judged;
    var y := Over(states, events, j, k, t, call);
    DecidedWithin(states, events, j, k, t, call, y);
    if InRange(call) { ProperWithin(states, events, j, k, t, call, y); }
  }

  // No step after the start is judged improper.
  lemma ProperWithin(states: seq<State>, events: seq<Event>, j: nat, k: nat, t: nat, call: Call, x: nat)
    requires WholeCall(states, events, j, k, t, call) && Within(states, events, j, k, t, x)
    ensures Judged(states, events, x, t) != Closed(EINVAL)
  {
    hide WholeCall, Safe, Reachable, Shape, Enabled, Step, Judge;
    AtStep(states, events, j, k, t, call, x);
    ProperStep(states[x], t, events[x].choice);
  }

  lemma ProperStep(s: State, t: nat, c: Choice)
    requires t < |s.threads| && !c.Start?
    ensures Judge(s, t, c) != Closed(EINVAL)
  {
    hide TurnedAway, Flagged, DataOf, Completes, Looks;
  }

  // ----- what a send returns -----

  // The step of a send with which it is settled that the send returns rc.
  ghost predicate SendCause(s: State, t: nat, c: Choice, rc: int)
    requires t < |s.threads|
  {
    match c
    case Interrupt => rc == EINTR
    case Denied => rc == if s.slot == NONE then ENODATA else EPERM
    case Fault(_) => rc == EFAULT
    case Plain =>
      || (rc == ENODATA && s.threads[t].pc == Sending(SLook) && s.slot == NONE)
      || (rc == 0 && Obstructed(s, t))
      || (rc == 1 && s.threads[t].pc == Posting(SPost))
    case _ => false
  }

  lemma SendJudged(s: State, t: nat, c: Choice, rc: int)
    requires Safe(s) && Enabled(s, t, c) && !c.Start? && s.threads[t].call.Send?
    ensures Judge(s, t, c) == Closed(rc) <==> SendCause(s, t, c, rc)
  {
    hide Safe, Look, Contended, Unblocked, TurnedAway, Obstructed;
    NotIdle(s, t, c);
    SendTurned(s, t);
    OnLevelOf(s, t);
    SenderLine(s.threads[t]);
    OnlyThere(s, t);
    hide Shape;
  }

  // Who completes a send or looks is not turned away there.
  lemma OnlyThere(s: State, t: nat)
    requires t < |s.threads|
    ensures Looks(s.threads[t].pc) || Completes(s.threads[t]) ==> !TurnedAway(s, t) && !Obstructed(s, t)
  {}

  // A send in range returns rc if and only if one of its own steps is the cause of it: a signal that broke
  // a wait, a missing tag, a denied permission, a faulting copy, an obstruction, or the posting.
  lemma SendResult(states: seq<State>, events: seq<Event>, j: nat, k: nat, t: nat, call: Call, rc: int)
    requires WholeCall(states, events, j, k, t, call) && call.Send? && InRange(call)
    ensures states[k].threads[t].rc == rc <==>
            exists x :: Within(states, events, j, k, t, x) && SendCause(states[x], t, events[x].choice, rc)
  {
    ResultIff(states, events, j, k, t, call, rc);
    hide SendCause, Judge, Reachable, Safe, Shape, Enabled, InRange;
    forall x | Within(states, events, j, k, t, x)
      ensures Judged(states, events, x, t) == Closed(rc) <==> SendCause(states[x], t, events[x].choice, rc)
    {
      AtStep(states, events, j, k, t, call, x);
      SendJudged(states[x], t, events[x].choice, rc);
    }
    hide WholeCall, Within, Judged;
  }

  // The message of a send that returns 1 is in the log, posted since the send began, with its text and on
  // the level it was sent to; with any other result it has posted nothing.
  lemma SendPosts(states: seq<State>, events: seq<Event>, j: nat, k: nat, t: nat, call: Call)
    requires WholeCall(states, events, j, k, t, call) && call.Send?
    ensures var rc, source, log := states[k].threads[t].rc, states[k].threads[t].source, states[k].log;
            && (rc == 1 <==> source != NONE)
            && (rc == 1 ==> |states[j].log| <= source < |log| && log[source].cell >= 0
                            && log[source].cell % LEVELS == call.wanted
                            && log[source].text == if call.buffered then call.text else "")
  {
    hide Safe, Happens, After, Initial, Reachable;
    CallLasts(states, events, j, k, t, call);
    Prefixes(states, events, k);
    AlwaysOnWanted(states, events, k);
    SendOutcome(states[k], t);
    hide Run, SameCallOf;
    assert OnWanted(states[k].threads[t]);
  }

  // A send in range that meets no signal, no fault and no refusal, finds a tag and is not obstructed,
  // returns 1 and has posted its message.
  lemma SendGoesThrough(states: seq<State>, events: seq<Event>, j: nat, k: nat, t: nat, call: Call)
    requires WholeCall(states, events, j, k, t, call) && call.Send? && InRange(call)
    requires forall x :: Within(states, events, j, k, t, x) ==>
               && events[x].choice.Plain? && !Obstructed(states[x], t)
               && (states[x].threads[t].pc == Sending(SLook) ==> states[x].slot != NONE)
    ensures var n, log := states[k].threads[t], states[k].log;
            && n.rc == 1 && |states[j].log| <= n.source < |log| && log[n.source].cell % LEVELS == call.wanted
            && log[n.source].text == if call.buffered then call.text else ""
  {
    SendResult(states, events, j, k, t, call, states[k].threads[t].rc);
    SendPosts(states, events, j, k, t, call);
    hide WholeCall, Within, InRange, Obstructed;
  }

  // ----- what a receive returns -----

  // The step of a receive with which it is settled that the receive returns rc.
  ghost predicate ReceiveCause(s: State, t: nat, c: Choice, rc: int)
    requires t < |s.threads|
  {
    var th := s.threads[t];
    match c
    case Interrupt =>
      if th.pc == Waiting(RSleep) then rc == 0 && !Flagged(s, th.tag) && !DataOf(s, th.inst).ready else rc == EINTR
    case Denied => rc == if s.slot == NONE then ENODATA else EPERM
    case NoMemory => rc == ENOMEM
    case CutOff(_) => rc == EFAULT
    case Plain =>
      || (rc == ENODATA && th.pc == Arriving(RLook) && s.slot == NONE)
      || (rc == 0 && th.pc == Waiting(RAwake) && Flagged(s, th.tag))
      || (rc == 0 && th.pc == Waiting(RReady) && !DataOf(s, th.inst).ready)
      || (rc == 1 && th.pc == Waiting(RCopy))
    case _ => false
  }

  lemma ReceiverLine(th: Thread)
    requires Shape(th) && th.call.Receive? && !th.pc.Idle?
    ensures InReceive(th.pc) || th.pc.Exiting?
  {
    hide Working, Leaving, Numbers;
  }

  lemma ReceiveJudged(s: State, t: nat, c: Choice, rc: int)
    requires Safe(s) && Enabled(s, t, c) && !c.Start? && s.threads[t].call.Receive?
    ensures Judge(s, t, c) == Closed(rc) <==> ReceiveCause(s, t, c, rc)
  {
    hide Safe, Look, Contended, Unblocked;
    NotIdle(s, t, c);
    OnLevelOf(s, t);
    ReceiverLine(s.threads[t]);
    hide Shape, Flagged, DataOf;
  }

  // A receive in range returns rc if and only if one of its own steps is the cause of it.
  lemma ReceiveResult(states: seq<State>, events: seq<Event>, j: nat, k: nat, t: nat, call: Call, rc: int)
    requires WholeCall(states, events, j, k, t, call) && call.Receive? && InRange(call)
    ensures states[k].threads[t].rc == rc <==>
            exists x :: Within(states, events, j, k, t, x) && ReceiveCause(states[x], t, events[x].choice, rc)
  {
    ResultIff(states, events, j, k, t, call, rc);
    hide ReceiveCause, Judge, Reachable, Safe, Shape, Enabled, InRange;
    forall x | Within(states, events, j, k, t, x)
      ensures Judged(states, events, x, t) == Closed(rc) <==> ReceiveCause(states[x], t, events[x].choice, rc)
    {
      AtStep(states, events, j, k, t, call, x);
      ReceiveJudged(states[x], t, events[x].choice, rc);
    }
    hide WholeCall, Within, Judged;
  }

  // Counted among those who wait on an instance of the level asked for, of the tag in tags[].
  ghost predicate Entered(s: State, t: nat)
    requires t < |s.threads|
  {
    var th := s.threads[t];
    && 0 <= th.inst < |s.insts| && t in s.insts[th.inst].sync.waiters
    && s.slot != NONE && s.insts[th.inst].cell == s.slot * LEVELS + Wanted(th.call)
  }

  // A receive that leaves before it has been counted on an instance was broken off by a signal, refused or
  // out of memory, or found no tag.
  ghost predicate Barred(s: State, t: nat, c: Choice)
    requires t < |s.threads|
  {
    || (c.Interrupt? && !s.threads[t].pc.Waiting?) || c.Denied? || c.NoMemory?
    || (s.threads[t].pc == Arriving(RLook) && s.slot == NONE)
  }

  lemma WaitsEntered(s: State, t: nat)
    requires Safe(s) && t < |s.threads| && s.threads[t].pc.Waiting? && s.threads[t].pc != Waiting(REnter)
    requires s.threads[t].call.Receive? && OnWanted(s.threads[t])
    ensures Entered(s, t)
  {
    var th := s.threads[t];
    assert Shape(th) && Refers(s, th);
    WaiterHas(th);
    hide Alive, Told, Dutiful, Referring, Shape, Topped, Guarded, Owned;
    assert Ranged(th.held, |s.tags|, |s.cells|, |s.insts|);
    assert Synced(s.insts[th.inst].sync, th.inst, s.threads);
  }

  lemma WaiterHas(th: Thread)
    requires Shape(th) && th.pc.Waiting? && th.pc != Waiting(REnter)
    ensures th.held.entered == th.inst >= 0 && th.held.tagR && th.tag >= 0 && th.cell == CellOf(th.tag, th.level)
  {}

  // A receive that ends without having been barred on the way has been counted on an instance: it does
  // not turn away from an occupied level.
  lemma ReceiveEnters(states: seq<State>, events: seq<Event>, j: nat, k: nat, t: nat, call: Call)
    requires WholeCall(states, events, j, k, t, call) && call.Receive? && InRange(call)
    ensures exists x :: Within(states, events, j, k, t, x) &&
                        (Entered(states[x], t) || Barred(states[x], t, events[x].choice))
  {
    ReceiveResult(states, events, j, k, t, call, states[k].threads[t].rc);
    var y :| Within(states, events, j, k, t, y) &&
             ReceiveCause(states[y], t, events[y].choice, states[k].threads[t].rc);
    AtStep(states, events, j, k, t, call, y);
    AlwaysOnWanted(states, events, y);
    assert OnWanted(states[y].threads[t]);
    hide Run, InRange, Safe, Reachable, Shape, OnWanted, Entered, Step, SameCallOf;
    if !Barred(states[y], t, events[y].choice) {
      CauseWaits(states[y], t, events[y].choice, states[k].threads[t].rc);
      WaitsEntered(states[y], t);
    }
  }

  lemma CauseWaits(s: State, t: nat, c: Choice, rc: int)
    requires Enabled(s, t, c) && ReceiveCause(s, t, c, rc) && !Barred(s, t, c)
    ensures s.threads[t].pc.Waiting? && s.threads[t].pc != Waiting(REnter)
  {
    hide Look, Contended, Unblocked;
  }

  // ----- what a waiting receive is woken for -----

  // Between the sleep and the copy.
  predicate Woken(pc: PC) { pc == Waiting(RAwake) || pc == Waiting(RReady) }

  predicate SeesFlag(s: State, t: nat)
    requires t < |s.threads|
  {
    s.threads[t].pc.Waiting? && Flagged(s, s.threads[t].tag)
  }

  lemma WakeLines(th: Thread, line: Wait, v: View, c: Choice)
    requires th.pc == Waiting(line) && Woken(GoWait(th, line, v, c).thread.pc)
    ensures GoWait(th, line, v, c).thread.inst == th.inst
    ensures Woken(th.pc) || ((line.RWait? || line.RSleep?) && (v.tagReady || v.data.ready))
  {
    hide Prefix, Min, Size;
  }

  lemma WaitReads(th: Thread)
    requires Shape(th) && (Woken(th.pc) || th.pc == Waiting(RWait) || th.pc == Waiting(RSleep))
    ensures th.held.rcu == th.inst >= 0
  {}

  lemma FromWaiting(th: Thread, v: View, m: Move)
    requires Traces(th, v, m) && Woken(m.thread.pc)
    ensures th.pc.Waiting?
  {
    hide AtTop, Fetching, Private, Detached;
  }

  // A message that a waiting receive has in sight stays there.
  lemma InSightStays(s: State, e: Event, t: nat)
    requires Reachable(s) && Happens(s, e) && t < |s.threads| && DataOf(s, s.threads[t].inst).ready
    requires Woken(s.threads[t].pc) || s.threads[t].pc == Waiting(RWait) || s.threads[t].pc == Waiting(RSleep)
    ensures DataOf(After(s, e), s.threads[t].inst).ready
  {
    ReachableSafe(s);
    OnLevelOf(s, t);
    WaitReads(s.threads[t]);
    hide Safe, Reachable, Happens, After, Shape;
    StaysWhileRead(s, e, s.threads[t].inst, t);
  }

  lemma OwnWake(s: State, t: nat, c: Choice)
    requires Safe(s) && Enabled(s, t, c) && Woken(Step(s, t, c).threads[t].pc)
    ensures var th := s.threads[t];
            && (Woken(th.pc) || ((th.pc == Waiting(RWait) || th.pc == Waiting(RSleep))
                                 && (SeesFlag(s, t) || DataOf(s, th.inst).ready)))
            && Step(s, t, c).threads[t].inst == th.inst
  {
    var th, v := s.threads[t], Look(s, s.threads[t]);
    BaseParts(s);
    Tracing(s, t, c);
    assert Woken(MoveOf(s, t, c).thread.pc) by {
      hide Safe, Traceable, Look, Go, NewTagLock, NewTags, NewCells, NewInsts, Hold;
    }
    FromWaiting(th, v, MoveOf(s, t, c));
    hide Safe, Traceable, Enabled, NewTagLock, NewTags, NewCells, NewInsts, Hold, GoWait;
    WakeLines(th, th.pc.wait, v, c);
  }

  lemma WokenEvent(s: State, e: Event, t: nat)
    requires Reachable(s) && Happens(s, e) && t < |s.threads|
    ensures t < |After(s, e).threads|
    ensures var a, n := s.threads[t], After(s, e).threads[t];
            Woken(n.pc) ==> DataOf(After(s, e), n.inst).ready || (IsOwn(e, t) && SeesFlag(s, t))
                            || (Woken(a.pc) && !DataOf(s, a.inst).ready)
  {
    ReachableSafe(s);
    Lasts(s, e, t);
    if DataOf(s, s.threads[t].inst).ready &&
       (Woken(s.threads[t].pc) || s.threads[t].pc == Waiting(RWait) || s.threads[t].pc == Waiting(RSleep)) {
      InSightStays(s, e, t);
    }
    if IsOwn(e, t) {
      if Woken(After(s, e).threads[t].pc) { OwnWake(s, t, e.choice); }
    } else {
      OthersMove(s, e, t);
    }
    hide Safe, Reachable, Enabled, Step, DataOf, MayCreate;
  }

  // One of the steps of the call from j up to k finds the tag's flag set while it waits.
  ghost predicate SawFlag(states: seq<State>, events: seq<Event>, j: nat, k: nat, t: nat) {
    exists x :: Within(states, events, j, k, t, x) && SeesFlag(states[x], t)
  }

  lemma SawFlagLater(states: seq<State>, events: seq<Event>, j: nat, k: nat, k': nat, t: nat)
    requires SawFlag(states, events, j, k, t) && k <= k'
    ensures SawFlag(states, events, j, k', t)
  {
    var x :| Within(states, events, j, k, t, x) && SeesFlag(states[x], t);
    assert Within(states, events, j, k', t, x);
  }

  // A receive that has been woken has a message in sight, or has seen the flag.
  ghost predicate WokenFor(states: seq<State>, events: seq<Event>, j: nat, k: nat, t: nat)
    requires k < |states|
  {
    t < |states[k].threads| &&
    (Woken(states[k].threads[t].pc) ==>
       DataOf(states[k], states[k].threads[t].inst).ready || SawFlag(states, events, j, k, t))
  }

  lemma WokenFirst(states: seq<State>, events: seq<Event>, j: nat, t: nat, call: Call)
    requires Run(states, events) && j + 1 < |states| && events[j] == Steps(t, Start(call))
    ensures WokenFor(states, events, j, j + 1, t)
  {
    EventAt(states, events, j);
    Prefixes(states, events, j);
    StartsIdle(states[j], t, call);
    WokenEvent(states[j], events[j], t);
    hide Run, Happens, After, Reachable, SeesFlag, DataOf, Woken;
  }

  lemma WokenNext(states: seq<State>, events: seq<Event>, j: nat, k: nat, t: nat)
    requires Run(states, events) && j < k && k + 1 < |states| && WokenFor(states, events, j, k, t)
    ensures WokenFor(states, events, j, k + 1, t)
  {
    EventAt(states, events, k);
    Prefixes(states, events, k);
    WokenEvent(states[k], events[k], t);
    hide Run, Happens, After, Reachable, SeesFlag, DataOf, Woken;
    if SawFlag(states, events, j, k, t) { SawFlagLater(states, events, j, k, k + 1, t); }
    if IsOwn(events[k], t) && SeesFlag(states[k], t) { assert Within(states, events, j, k + 1, t, k); }
  }

  lemma {:induction false} AlwaysWokenFor(states: seq<State>, events: seq<Event>, j: nat, k: nat, t: nat, call: Call)
    requires Run(states, events) && j < k < |states| && events[j] == Steps(t, Start(call))
    ensures WokenFor(states, events, j, k, t)
    decreases k
  {
    Length(states, events);
    hide Run, WokenFor;
    if k == j + 1 {
      WokenFirst(states, events, j, t, call);
    } else {
      AlwaysWokenFor(states, events, j, k - 1, t, call);
      WokenNext(states, events, j, k - 1, t);
    }
  }

  lemma StartsIdle(s: State, t: nat, call: Call)
    requires Happens(s, Steps(t, Start(call)))
    ensures t < |s.threads| && !Woken(s.threads[t].pc) && !SeesFlag(s, t)
  {
    hide Look;
  }

  // A signal has broken the sleep of a receive that no message and no flag was there for.
  predicate GaveUp(s: State, t: nat, c: Choice)
    requires t < |s.threads|
  {
    var th := s.threads[t];
    c.Interrupt? && th.pc == Waiting(RSleep) && !Flagged(s, th.tag) && !DataOf(s, th.inst).ready
  }

  // A receive that returns 0 found the tag's flag set while it waited, or was broken off by a signal in
  // its sleep with neither message nor flag there.
  lemma ReceiveZero(states: seq<State>, events: seq<Event>, j: nat, k: nat, t: nat, call: Call)
    requires WholeCall(states, events, j, k, t, call) && call.Receive? && InRange(call) && states[k].threads[t].rc == 0
    ensures SawFlag(states, events, j, k, t)
            || exists x :: Within(states, events, j, k, t, x) && GaveUp(states[x], t, events[x].choice)
  {
    ReceiveResult(states, events, j, k, t, call, 0);
    var y :| Within(states, events, j, k, t, y) && ReceiveCause(states[y], t, events[y].choice, 0);
    AlwaysWokenFor(states, events, j, y, t, call);
    hide Run, InRange, SameCallOf, Flagged, DataOf;
    if SawFlag(states, events, j, y, t) { SawFlagLater(states, events, j, y, k, t); }
    if !events[y].choice.Interrupt? && states[y].threads[t].pc == Waiting(RAwake) { assert SeesFlag(states[y], t); }
  }

  // What a receive that returns 1 holds: of one message, posted on the level asked for since the receive
  // began, as much as there was room for.
  ghost predicate Holds(got: string, text: string, call: Call)
    requires call.Receive?
  {
    var room := if call.buffered then call.size else 0;
    |got| == (if room < |text| then room else |text|) && got == text[..|got|]
  }

  lemma ReceiveGets(states: seq<State>, events: seq<Event>, j: nat, k: nat, t: nat, call: Call)
    requires WholeCall(states, events, j, k, t, call) && call.Receive? && states[k].threads[t].rc == 1
    ensures exists p :: |states[j].log| <= p < |states[k].log| && states[k].log[p].cell % LEVELS == call.wanted
                        && Holds(states[k].threads[t].got, states[k].log[p].text, call)
  {
    FreshnessOverRuns(states, events, j, k, t, call);
    CallLasts(states, events, j, k, t, call);
    AlwaysOnWanted(states, events, k);
    var th, log := states[k].threads[t], states[k].log;
    var p :| && |states[j].log| <= p < |log| && log[p].cell == th.cell
             && th.got == Prefix(log[p].text, Min(Size(call), |log[p].text|));
    InRangeSize(states, events, j, k, t, call);
    hide Run, SameCallOf;
    assert OnWanted(th);
    assert Holds(th.got, log[p].text, call);
  }

  lemma InRangeSize(states: seq<State>, events: seq<Event>, j: nat, k: nat, t: nat, call: Call)
    requires WholeCall(states, events, j, k, t, call) && call.Receive? && states[k].threads[t].rc == 1
    ensures call.size >= 0
  {
    ImproperIff(states, events, j, k, t, call);
  }

  // A receive in range that meets no signal, no fault and no refusal, finds a tag and never sees its flag
  // set returns 1, with a message, whether or not it found its level occupied.
  lemma ReceiveGoesThrough(states: seq<State>, events: seq<Event>, j: nat, k: nat, t: nat, call: Call)
    requires WholeCall(states, events, j, k, t, call) && call.Receive? && InRange(call)
    requires !SawFlag(states, events, j, k, t)
    requires forall x :: Within(states, events, j, k, t, x) ==>
               events[x].choice.Plain? && (states[x].threads[t].pc == Arriving(RLook) ==> states[x].slot != NONE)
    ensures states[k].threads[t].rc == 1
    ensures exists p :: |states[j].log| <= p < |states[k].log| && states[k].log[p].cell % LEVELS == call.wanted
                        && Holds(states[k].threads[t].got, states[k].log[p].text, call)
  {
    var rc := states[k].threads[t].rc;
    ReceiveResult(states, events, j, k, t, call, rc);
    if rc == 0 { ReceiveZero(states, events, j, k, t, call); }
    if rc == 1 { ReceiveGets(states, events, j, k, t, call); }
    hide WholeCall, Within, InRange, SawFlag, Flagged, DataOf, Holds;
  }

  // ----- what an AWAKE_ALL returns -----

  // The step of an AWAKE_ALL with which it is settled that it returns rc.
  ghost predicate AwakeCause(s: State, t: nat, c: Choice, rc: int)
    requires t < |s.threads|
  {
    var th := s.threads[t];
    match c
    case Interrupt => rc == EINTR
    case Denied => rc == if s.slot == NONE then ENODATA else EPERM
    case Plain =>
      || (rc == ENODATA && th.pc == Awaking(ALook) && s.slot == NONE)
      || (rc == 0 && th.pc == Awaking(AReady) && Flagged(s, th.tag))
      || (rc == 0 && th.pc == Awaking(AWaiters) && NobodyCounted(s, th.tag))
      || (rc == 1 && th.pc == Rousing(AUnlevel) && th.level == 31)
    case _ => false
  }

  lemma AwakerLine(th: Thread)
    requires Shape(th) && th.call.AwakeAll? && !th.pc.Idle?
    ensures InAwake(th.pc) || th.pc.Exiting?
  {
    hide Working, Leaving, Numbers;
  }

  lemma AwakeJudged(s: State, t: nat, c: Choice, rc: int)
    requires Safe(s) && Enabled(s, t, c) && !c.Start? && s.threads[t].call.AwakeAll?
    ensures Judge(s, t, c) == Closed(rc) <==> AwakeCause(s, t, c, rc)
  {
    hide Safe, Look, Contended, Unblocked;
    NotIdle(s, t, c);
    OnLevelOf(s, t);
    AwakerLine(s.threads[t]);
    hide Shape, Flagged, DataOf, NobodyCounted;
  }

  // An AWAKE_ALL returns rc if and only if one of its own steps is the cause of it; so it returns 0 exactly
  // if it found the flag set already or nobody counted on the tag.
  lemma AwakeResult(states: seq<State>, events: seq<Event>, j: nat, k: nat, t: nat, rc: int)
    requires WholeCall(states, events, j, k, t, AwakeAll)
    ensures states[k].threads[t].rc == rc <==>
            exists x :: Within(states, events, j, k, t, x) && AwakeCause(states[x], t, events[x].choice, rc)
  {
    ResultIff(states, events, j, k, t, AwakeAll, rc);
    hide AwakeCause, Judge, Reachable, Safe, Shape, Enabled;
    forall x | Within(states, events, j, k, t, x)
      ensures Judged(states, events, x, t) == Closed(rc) <==> AwakeCause(states[x], t, events[x].choice, rc)
    {
      AtStep(states, events, j, k, t, AwakeAll, x);
      AwakeJudged(states[x], t, events[x].choice, rc);
    }
    hide WholeCall, Within, Judged;
  }

  lemma RouseLines(th: Thread, line: Rouse, v: View, c: Choice)
    requires th.pc == Rousing(line)
    ensures var n := GoRouse(th, line, v, c).thread; n.pc.Rousing? || Final(n.pc)
  {
    hide CellOf;
  }

  // Past the flag an AWAKE_ALL goes over the levels until it is decided.
  lemma RousingEvent(s: State, e: Event, t: nat)
    requires Safe(s) && Happens(s, e) && t < |s.threads| && (s.threads[t].pc.Rousing? || Final(s.threads[t].pc))
    requires !(IsOwn(e, t) && e.choice.Start?)
    ensures t < |After(s, e).threads|
    ensures After(s, e).threads[t].pc.Rousing? || Final(After(s, e).threads[t].pc)
  {
    if Final(s.threads[t].pc) {
      ClosedEvent(s, e, t);
    } else if IsOwn(e, t) {
      hide Safe, Look, Contended, Unblocked, Final, NewTagLock, NewTags, NewCells, NewInsts, Hold, GoRouse;
      RouseLines(s.threads[t], s.threads[t].pc.rouse, Look(s, s.threads[t]), e.choice);
    } else {
      OthersMove(s, e, t);
    }
    hide Safe, Happens, After, Final;
  }

  lemma {:induction false} StaysRousing(states: seq<State>, events: seq<Event>, j: nat, k: nat, t: nat)
    requires Run(states, events) && j <= k < |states| && t < |states[j].threads| && SameCallOf(events, j, k, t)
    requires states[j].threads[t].pc.Rousing? || Final(states[j].threads[t].pc)
    ensures t < |states[k].threads| && (states[k].threads[t].pc.Rousing? || Final(states[k].threads[t].pc))
    decreases k
  {
    hide Safe, Happens, After, Initial, Final;
    if j < k {
      StaysRousing(states, events, j, k - 1, t);
      AlwaysSafe(states, events, k - 1);
      RousingEvent(states[k - 1], events[k - 1], t);
    }
  }

  lemma RousingFrom(states: seq<State>, events: seq<Event>, j: nat, k: nat, t: nat, z: nat, y: nat)
    requires WholeCall(states, events, j, k, t, AwakeAll) && Within(states, events, j, k, t, z)
    requires states[z].threads[t].pc == Awaking(ASet) && z < y < k
    ensures t < |states[y].threads| && (states[y].threads[t].pc.Rousing? || Final(states[y].threads[t].pc))
  {
    AtStep(states, events, j, k, t, AwakeAll, z);
    SetLine(states[z], t, events[z].choice);
    hide Safe, Reachable, Shape, Enabled, Final, Step, Run;
    StaysRousing(states, events, z + 1, y, t);
  }

  // After the flag only a signal or the last level decides.
  lemma RousedBy(states: seq<State>, events: seq<Event>, j: nat, k: nat, t: nat, z: nat) returns (y: nat)
    requires WholeCall(states, events, j, k, t, AwakeAll) && Within(states, events, j, k, t, z)
    requires states[z].threads[t].pc == Awaking(ASet)
    ensures z < y && Within(states, events, j, k, t, y)
    ensures var rc := states[k].threads[t].rc; if events[y].choice.Interrupt? then rc == EINTR else rc == 1
  {
    hide Run, Safe, Reachable, Shape, Judge, Enabled, Step, InRange, SameCallOf;
    y := OverFrom(states, events, j, k, t, AwakeAll, z);
    NotAtSet(states, events, j, k, t, z);
    AtStep(states, events, j, k, t, AwakeAll, y);
    RousingFrom(states, events, j, k, t, z, y);
    hide WholeCall, Final;
    RousingCause(states[y], t, events[y].choice, states[k].threads[t].rc);
  }

  lemma NotAtSet(states: seq<State>, events: seq<Event>, j: nat, k: nat, t: nat, z: nat)
    requires WholeCall(states, events, j, k, t, AwakeAll) && Within(states, events, j, k, t, z)
    requires states[z].threads[t].pc == Awaking(ASet)
    ensures Judged(states, events, z, t) == Open
  {
    AtStep(states, events, j, k, t, AwakeAll, z);
    hide Run, Safe, Reachable, Shape, Judge, Enabled, Step, InRange, SameCallOf;
    SetOpen(states[z], t, events[z].choice);
  }

  // An AWAKE_ALL that has set the flag at step z returns EINTR if a signal breaks one of its later waits,
  // and otherwise, having been over all levels, 1.
  lemma AwakeReturns(states: seq<State>, events: seq<Event>, j: nat, k: nat, t: nat, z: nat)
    requires WholeCall(states, events, j, k, t, AwakeAll) && Within(states, events, j, k, t, z)
    requires states[z].threads[t].pc == Awaking(ASet)
    ensures var rc := states[k].threads[t].rc;
            if exists x :: z < x && Within(states, events, j, k, t, x) && events[x].choice.Interrupt?
            then rc == EINTR else rc == 1
  {
    var y := RousedBy(states, events, j, k, t, z);
    AwakeResult(states, events, j, k, t, EINTR);
    hide WholeCall, Within;
    if x :| z < x && Within(states, events, j, k, t, x) && events[x].choice.Interrupt? {
      assert AwakeCause(states[x], t, events[x].choice, EINTR);
    }
  }

  lemma SetOpen(s: State, t: nat, c: Choice)
    requires Enabled(s, t, c) && s.threads[t].pc == Awaking(ASet)
    ensures Judge(s, t, c) == Open
  {
    hide Look, Contended, Unblocked;
  }

  lemma RousingCause(s: State, t: nat, c: Choice, rc: int)
    requires Enabled(s, t, c) && !c.Start? && (s.threads[t].pc.Rousing? || Final(s.threads[t].pc))
    requires Judge(s, t, c) == Closed(rc)
    ensures if c.Interrupt? then rc == EINTR else rc == 1
  {
    if Final(s.threads[t].pc) { FinalOpen(s, t, c); }
    hide Look, Contended, Unblocked;
  }

  // From any undecided step on: the call was decided at step y and nowhere else.
  lemma OverFrom(states: seq<State>, events: seq<Event>, j: nat, k: nat, t: nat, call: Call, z: nat) returns (y: nat)
    requires WholeCall(states, events, j, k, t, call) && Within(states, events, j, k, t, z)
    requires !Final(states[z].threads[t].pc)
    ensures |states| == |events| + 1 && DecidedBy(states, events, z, k, t, y, states[k].threads[t].rc)
    ensures Within(states, events, j, k, t, y)
  {
    hide Run, Safe, Reachable, Shape, Enabled, Step, Judge, Happens, After;
    AtStep(states, events, j, k, t, call, z);
    assert Undecided(states[z], events[z], t);
    SameCallFrom(events, j + 1, z + 1, k, t);
    hide Undecided, SameCallOf;
    CallDecided(states, events, z, k, t);
    y :| DecidedBy(states, events, z, k, t, y, Fate(states[k].threads[t]));
  }

  lemma SameCallFrom(events: seq<Event>, j: nat, z: nat, k: nat, t: nat)
    requires j <= z <= k <= |events| && SameCallOf(events, j, k, t)
    ensures SameCallOf(events, z, k, t)
  {}

  // One of the steps of the call from j up to k sets the flag.
  ghost predicate HasSet(states: seq<State>, events: seq<Event>, j: nat, k: nat, t: nat) {
    exists x :: Within(states, events, j, k, t, x) && states[x].threads[t].pc == Awaking(ASet)
  }

  lemma SetsOff(th: Thread, v: View, c: Choice)
    requires (th.pc.Awaking? || th.pc.Exiting?) && Go(th, v, c).thread.pc.Rousing?
    ensures th.pc == Awaking(ASet)
  {
    hide CellOf, GoStart, GoReceive, GoRenew, GoWait, GoFinish, GoSend, GoPost, GoTell, GoRouse, GoDelete, GoFree;
  }

  lemma RousingBefore(s: State, t: nat, c: Choice)
    requires Safe(s) && Enabled(s, t, c) && !c.Start? && s.threads[t].call.AwakeAll?
    requires Step(s, t, c).threads[t].pc.Rousing?
    ensures s.threads[t].pc.Rousing? || s.threads[t].pc == Awaking(ASet)
  {
    hide Safe, Look, Contended, Unblocked, Go, NewTagLock, NewTags, NewCells, NewInsts, Hold;
    NotIdle(s, t, c);
    OnLevelOf(s, t);
    AwakerLine(s.threads[t]);
    hide Shape, Enabled;
    if !s.threads[t].pc.Rousing? { SetsOff(s.threads[t], Look(s, s.threads[t]), c); }
  }

  lemma HasSetNext(states: seq<State>, events: seq<Event>, j: nat, k: nat, t: nat)
    requires Run(states, events) && j < k && k + 1 < |states| && events[j] == Steps(t, Start(AwakeAll))
    requires SameCallOf(events, j + 1, k + 1, t) && t < |states[k].threads|
    requires states[k].threads[t].pc.Rousing? ==> HasSet(states, events, j, k, t)
    ensures t < |states[k + 1].threads|
    ensures states[k + 1].threads[t].pc.Rousing? ==> HasSet(states, events, j, k + 1, t)
  {
    EventAt(states, events, k);
    AlwaysSafe(states, events, k);
    CallLasts(states, events, j, k, t, AwakeAll);
    Lasts(states[k], events[k], t);
    hide Safe, Initial, Enabled, Step;
    if IsOwn(events[k], t) {
      if states[k + 1].threads[t].pc.Rousing? { RousingBefore(states[k], t, events[k].choice); }
    } else {
      OthersMove(states[k], events[k], t);
    }
    hide Run, Happens, After;
    if states[k].threads[t].pc.Rousing? {
      var x :| Within(states, events, j, k, t, x) && states[x].threads[t].pc == Awaking(ASet);
      assert Within(states, events, j, k + 1, t, x);
    } else if IsOwn(events[k], t) {
      assert Within(states, events, j, k + 1, t, k);
    }
  }

  lemma {:induction false} RousingHasSet(states: seq<State>, events: seq<Event>, j: nat, k: nat, t: nat)
    requires Run(states, events) && j < k < |states| && events[j] == Steps(t, Start(AwakeAll))
    requires SameCallOf(events, j + 1, k, t)
    ensures t < |states[k].threads|
    ensures states[k].threads[t].pc.Rousing? ==> HasSet(states, events, j, k, t)
    decreases k
  {
    Length(states, events);
    if k == j + 1 {
      EventAt(states, events, j);
      FirstLine(states[j], t, AwakeAll);
    } else {
      hide Run, HasSet;
      RousingHasSet(states, events, j, k - 1, t);
      HasSetNext(states, events, j, k - 1, t);
    }
  }

  lemma FirstLine(s: State, t: nat, call: Call)
    requires Happens(s, Steps(t, Start(call)))
    ensures var s' := After(s, Steps(t, Start(call)));
            && t < |s'.threads| && !s'.threads[t].pc.Rousing?
            && (s'.threads[t].pc.Deleting? ==> s'.threads[t].pc == Deleting(DTry))
  {
    hide Look, NewTagLock, NewTags, NewCells, NewInsts, Hold;
  }

  // An AWAKE_ALL that returns 1 has set the flag.
  lemma AwakeHasSet(states: seq<State>, events: seq<Event>, j: nat, k: nat, t: nat)
    requires WholeCall(states, events, j, k, t, AwakeAll) && states[k].threads[t].rc == 1
    ensures HasSet(states, events, j, k, t)
  {
    AwakeResult(states, events, j, k, t, 1);
    var y :| Within(states, events, j, k, t, y) && AwakeCause(states[y], t, events[y].choice, 1);
    RousingHasSet(states, events, j, y, t);
    hide Run, SameCallOf;
    var x :| Within(states, events, j, y, t, x) && states[x].threads[t].pc == Awaking(ASet);
    assert Within(states, events, j, k, t, x);
  }

  // ----- the wait queues -----

  // An event that wakes everybody on instance i: a sender's, or that of an AWAKE_ALL which sees a waiter.
  predicate Wakes(s: State, e: Event, i: int) {
    && e.Steps? && e.thread < |s.threads| && s.threads[e.thread].inst == i && 0 <= i < |s.insts|
    && (s.threads[e.thread].pc == Telling(SWake)
        || (s.threads[e.thread].pc == Rousing(AWake) && s.insts[i].sync.waiters != {}))
  }

  // Thread u goes to sleep on instance i: it sees neither the flag nor a message.
  predicate LiesDown(s: State, e: Event, u: nat, i: int) {
    && IsOwn(e, u) && u < |s.threads| && s.threads[u].pc == Waiting(RWait) && s.threads[u].inst == i
    && !Flagged(s, s.threads[u].tag) && !DataOf(s, i).ready
  }

  lemma QueueLines(th: Thread, v: View, c: Choice)
    requires th.pc == Telling(SWake) || th.pc == Rousing(AWake) || th.pc == Waiting(RWait)
    ensures th.pc == Telling(SWake) ==> Go(th, v, c).effect.WakeAll?
    ensures th.pc == Rousing(AWake) ==> (Go(th, v, c).effect.WakeAll? <==> v.waiting > 0)
    ensures th.pc == Waiting(RWait) ==> (Go(th, v, c).effect.Sleep? <==> !v.tagReady && !v.data.ready)
  {
    hide CellOf, Prefix, Min, Size;
  }

  lemma QueueFrom(th: Thread, v: View, c: Choice, m: Move)
    requires Origin(th, v, c, m)
    ensures m.effect.WakeAll? ==> th.pc == Telling(SWake) || th.pc == Rousing(AWake)
    ensures m.effect.Sleep? ==> th.pc == Waiting(RWait)
    ensures m.effect.Unqueue? ==> th.pc == Waiting(RSleep)
  {}

  // The instance that is looked at when a queue changes, and its count.
  lemma QueueSeen(s: State, t: nat)
    requires Safe(s) && t < |s.threads| && (s.threads[t].pc == Telling(SWake) || s.threads[t].pc == Rousing(AWake))
    ensures var i := s.threads[t].inst;
            0 <= i < |s.insts| && (Look(s, s.threads[t]).waiting > 0 <==> s.insts[i].sync.waiters != {})
  {
    var th := s.threads[t];
    assert Shape(th) && Refers(s, th);
    QueueInst(th);
    hide Alive, Told, Dutiful, Referring, Shape, Guarded, Owned, Ranged, Slotted, Topped;
    assert Synced(s.insts[th.inst].sync, th.inst, s.threads);
  }

  lemma QueueInst(th: Thread)
    requires Shape(th) && (th.pc == Telling(SWake) || th.pc == Rousing(AWake))
    ensures th.inst >= 0
  {}

  // What a step does to the queue of instance i.
  lemma QueueStep(s: State, t: nat, c: Choice, i: nat)
    requires Safe(s) && Enabled(s, t, c) && i < |s.insts|
    ensures var e, q := Steps(t, c), s.insts[i].sync.queue;
            && i < |Step(s, t, c).insts|
            && Step(s, t, c).insts[i].sync.queue ==
               (if Wakes(s, e, i) then {}
                else if LiesDown(s, e, t, i) then q + {t}
                else if s.threads[t].inst == i && MoveOf(s, t, c).effect.Unqueue? then q - {t}
                else q)
  {
    var th, v, m := s.threads[t], Look(s, s.threads[t]), MoveOf(s, t, c);
    BaseParts(s);
    Tracing(s, t, c);
    QueueFrom(th, v, c, m);
    if th.pc == Telling(SWake) || th.pc == Rousing(AWake) {
      QueueLines(th, v, c);
      QueueSeen(s, t);
    } else if th.pc == Waiting(RWait) {
      QueueLines(th, v, c);
      FlagsSeen(s, t);
    }
    hide Safe, Base, Referring, Traceable, Look, Go, Contended, Unblocked, DataOf, Flagged;
    QueueKept(s, t, m, i);
    hide Apply, Enabled;
  }

  lemma FlagsSeen(s: State, t: nat)
    requires t < |s.threads|
    ensures var th, v := s.threads[t], Look(s, s.threads[t]);
            (v.tagReady <==> Flagged(s, th.tag)) && v.data.ready == DataOf(s, th.inst).ready
  {}

  // Who is in a wait queue after an event: who goes to sleep there with it, and whoever was there before
  // and neither moves nor is woken.
  lemma QueueLaw(s: State, e: Event, u: nat, i: nat)
    requires Reachable(s) && Happens(s, e) && i < |s.insts|
    ensures InLine(After(s, e), u, i) <==>
            LiesDown(s, e, u, i) || (InLine(s, u, i) && !IsOwn(e, u) && !Wakes(s, e, i))
  {
    ReachableWakeful(s);
    if e.Steps? {
      QueueStep(s, e.thread, e.choice, i);
      if InLine(s, u, i) && IsOwn(e, u) { OwnQueue(s, e, u, i); }
    }
    hide Safe, Wakeful, Reachable, Step, Enabled, Flagged, DataOf;
  }

  // A thread's own step takes it out of its queue, and nobody at another line is in one.
  lemma OwnQueue(s: State, e: Event, u: nat, i: nat)
    requires Wakeful(s) && Happens(s, e) && InLine(s, u, i) && IsOwn(e, u)
    ensures !InLine(After(s, e), u, i) && !LiesDown(s, e, u, i)
  {
    assert Lined(s) && Sleeping(s, u, i);
    hide Wakeful, Lined, Look, Contended, Unblocked, Step;
    OwnStepLeaves(s, u, e.choice, i);
  }

  // ----- flags -----

  // An AWAKE_ALL sets the flag of this tag with this event.
  predicate Raises(s: State, e: Event, tag: int) {
    e.Steps? && e.thread < |s.threads| && s.threads[e.thread].pc == Awaking(ASet) && s.threads[e.thread].tag == tag
  }

  lemma NewFlag(s: State, e: Event, tag: int)
    requires Happens(s, e) && |s.tags| <= tag < |After(s, e).tags|
    ensures !After(s, e).tags[tag].ready
  {
    if e.Steps? { Memory(s, e.thread, MoveOf(s, e.thread, e.choice)); }
  }

  // A tag's flag is clear when the tag is created, and set only after some AWAKE_ALL has set it.
  lemma {:induction false} FlagRaised(states: seq<State>, events: seq<Event>, k: nat, tag: int)
    requires Run(states, events) && k < |states| && 0 <= tag < |states[k].tags| && states[k].tags[tag].ready
    ensures |states| == |events| + 1 && exists x :: 0 <= x < k && Raises(states[x], events[x], tag)
    decreases k
  {
    Length(states, events);
    if k == 0 {
      NoTags(states, events);
    } else {
      EventAt(states, events, k - 1);
      Prefixes(states, events, k - 1);
      hide Run, Happens, After, Reachable;
      var s, e := states[k - 1], events[k - 1];
      if tag >= |s.tags| {
        NewFlag(s, e, tag);
      } else {
        FlagMoves(s, e, tag);
        if s.tags[tag].ready {
          FlagRaised(states, events, k - 1, tag);
        } else {
          assert Raises(s, e, tag) by { InHappens(s, e); }
        }
      }
    }
  }

  lemma InHappens(s: State, e: Event)
    requires Happens(s, e) && e.Steps?
    ensures e.thread < |s.threads|
  {}

  lemma NoTags(states: seq<State>, events: seq<Event>)
    requires Run(states, events)
    ensures states[0].tags == []
  {}
}
