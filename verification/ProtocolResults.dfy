// What calls achieve from one line to a later one, over any run: results that stand, receives that agree
// on a message, the last receiver up to the free or the reset, the move to a new epoch up to the join.

module Results {
  import opened Protocol
  import opened Shapes
  import opened Locks
  import opened Refs
  import opened Grace
  import opened Messages
  import opened Duty
  import opened Runs
  import opened Guarantees
  import opened Outcomes
  import opened Waking

  // ----- results stand -----

  // Thread t starts no other call between two states of a run.
  ghost predicate SameCallOf(events: seq<Event>, j: nat, k: nat, t: nat)
    requires k <= |events|
  {
    forall x :: j <= x < k ==> !(events[x].Steps? && events[x].thread == t && events[x].choice.Start?)
  }

  // What a receive returns with.
  predicate SameResult(a: Thread, b: Thread) {
    b.rc == a.rc && b.got == a.got && b.source == a.source && b.part == a.part && b.call == a.call
  }

  lemma LeaveStands(th: Thread, line: Wait, v: View, c: Choice)
    requires th.pc == Waiting(line) && Parted(th.pc)
    ensures var n := GoWait(th, line, v, c).thread; Parted(n.pc) && SameResult(th, n)
  {}

  lemma FinishStands(th: Thread, line: Finish, v: View)
    requires th.pc == Finishing(line) && v.ptr != NONE
    ensures var n := GoFinish(th, line, v).thread; Parted(n.pc) && SameResult(th, n)
  {}

  lemma ExitStands(th: Thread, line: Exit, v: View)
    requires th.pc == Exiting(line)
    ensures var n := GoExit(th, line, v).thread; Parted(n.pc) && SameResult(th, n)
  {}

  lemma HasPtr(s: State, t: nat)
    requires Safe(s) && t < |s.threads| && s.threads[t].pc.Finishing?
    ensures Look(s, s.threads[t]).ptr != NONE
  {
    LookPtr(s, s.threads[t]);
    assert Shape(s.threads[t]) && Refers(s, s.threads[t]) && Levelled(s);
    hide Safe, Look, Shape, Refers, Levelled;
    HasLevel(s, s.threads[t]);
  }

  lemma NotIdle(s: State, t: nat, c: Choice)
    requires Enabled(s, t, c) && !c.Start?
    ensures !s.threads[t].pc.Idle?
  {
    hide Look, Contended;
  }

  lemma PartedStands(th: Thread, v: View, c: Choice)
    requires Parted(th.pc) && !th.pc.Idle? && (th.pc.Finishing? ==> v.ptr != NONE)
    ensures var n := Go(th, v, c).thread; Parted(n.pc) && SameResult(th, n)
  {
    hide GoWait, GoFinish, GoExit;
    match th.pc
    case Waiting(line) => LeaveStands(th, line, v, c);
    case Finishing(line) => FinishStands(th, line, v);
    case Exiting(line) => ExitStands(th, line, v);
  }

  lemma MoveStands(s: State, t: nat, c: Choice)
    requires Safe(s) && Enabled(s, t, c) && !c.Start? && Parted(s.threads[t].pc)
    ensures var th, n := s.threads[t], MoveOf(s, t, c).thread; Parted(n.pc) && SameResult(th, n)
  {
    hide Safe, Look, Contended, Unblocked, Parted, SameResult, Go;
    NotIdle(s, t, c);
    if s.threads[t].pc.Finishing? { HasPtr(s, t); }
    PartedStands(s.threads[t], Look(s, s.threads[t]), c);
  }

  lemma EventStands(s: State, e: Event, t: nat)
    requires Safe(s) && Happens(s, e) && t < |s.threads| && Parted(s.threads[t].pc)
    requires !(e.Steps? && e.thread == t && e.choice.Start?)
    ensures t < |After(s, e).threads|
    ensures var th, n := s.threads[t], After(s, e).threads[t]; Parted(n.pc) && SameResult(th, n)
  {
    hide Safe, Go, Look, Contended, Unblocked, NewTagLock, NewTags, NewCells, NewInsts, Hold;
    if e.Steps? && e.thread == t { MoveStands(s, t, e.choice); }
  }

  // From the line that gives up the rcu_lock until the thread starts another call, nothing changes the
  // result of a receive.
  lemma {:induction false} ResultStands(states: seq<State>, events: seq<Event>, j: nat, k: nat, t: nat)
    requires Run(states, events) && j <= k < |states| && t < |states[j].threads|
    requires Parted(states[j].threads[t].pc) && SameCallOf(events, j, k, t)
    ensures t < |states[k].threads| && Parted(states[k].threads[t].pc)
    ensures SameResult(states[j].threads[t], states[k].threads[t])
    decreases k
  {
    hide Safe, Happens, After, Initial, Parted;
    if j < k {
      ResultStands(states, events, j, k - 1, t);
      AlwaysSafe(states, events, k - 1);
      EventStands(states[k - 1], events[k - 1], t);
    }
  }

  // ----- the wake-up of the tag comes first -----

  lemma AwakeLine(th: Thread, v: View, c: Choice)
    requires th.pc == Waiting(RAwake) && v.tagReady
    ensures Go(th, v, c).thread == th.(rc := 0, pc := Waiting(RLeave))
  {}

  // A receive that finds the tag's flag set when it wakes returns 0 with nothing copied, message or not.
  lemma AwakeWins(states: seq<State>, events: seq<Event>, j: nat, k: nat, t: nat)
    requires Run(states, events) && j < k < |states| && events[j].Steps? && events[j].thread == t
    requires t < |states[j].threads| && states[j].threads[t].pc == Waiting(RAwake)
    requires Look(states[j], states[j].threads[t]).tagReady
    requires SameCallOf(events, j + 1, k, t)
    ensures t < |states[k].threads|
    ensures var th := states[k].threads[t]; th.rc == 0 && th.got == "" && th.source == NONE
  {
    var s, c := states[j], events[j].choice;
    AlwaysSettled(states, events, j);
    AlwaysSafe(states, events, j);
    assert Settles(s, s.threads[t]) && Happens(s, events[j]);
    AwakeBefore(s, t, c);
    hide Safe, Settled, Settles, Go, Look, Enabled, Initial;
    assert states[j + 1] == Step(s, t, c);
    assert states[j + 1].threads[t].pc == Waiting(RLeave) by { hide NewTagLock, NewTags, NewCells, NewInsts, Hold; }
    hide Step;
    ResultStands(states, events, j + 1, k, t);
  }

  lemma AwakeBefore(s: State, t: nat, c: Choice)
    requires Safe(s) && Enabled(s, t, c) && Settles(s, s.threads[t]) && s.threads[t].pc == Waiting(RAwake)
    requires Look(s, s.threads[t]).tagReady
    ensures var n := Step(s, t, c).threads[t];
            n.pc == Waiting(RLeave) && n.rc == 0 && n.got == "" && n.source == NONE
  {
    var th := s.threads[t];
    assert Shape(th);
    AwakeLine(th, Look(s, th), c);
    hide Safe, Look, Go, Enabled, Sent, Compared, Emptied, NewTagLock, NewTags, NewCells, NewInsts, Hold;
  }

  // ----- leaving without a message -----

  lemma LeaveLines(th: Thread, line: Wait, v: View, c: Choice)
    requires th.pc == Waiting(line) && (line.RCopy? ==> v.data.ready && th.rc == 1)
    ensures var n := GoWait(th, line, v, c).thread;
            n.pc == Waiting(RLeave) && n.rc != 1 ==> v.tagReady || !v.data.ready || c.CutOff?
  {
    hide Prefix, Min, Size;
  }

  lemma LeavesEmpty(s: State, t: nat, c: Choice)
    requires Safe(s) && Enabled(s, t, c) && s.threads[t].pc.Waiting?
    requires Step(s, t, c).threads[t].pc == Waiting(RLeave) && Step(s, t, c).threads[t].rc != 1
    ensures Look(s, s.threads[t]).tagReady || !Look(s, s.threads[t]).data.ready || c.CutOff?
  {
    var th := s.threads[t];
    assert Minds(th, DataOf(s, th.inst), s.log);
    SeenHere(s, t, c);
    Copying(th, Look(s, th), c);
    hide Safe, Look, Contended, Unblocked, GoWait, Seen, Minds, NewTagLock, NewTags, NewCells, NewInsts, Hold;
    LeaveLines(th, th.pc.wait, Look(s, th), c);
  }

  lemma Copying(th: Thread, v: View, c: Choice)
    requires Seen(th, v, c)
    ensures th.pc == Waiting(RCopy) ==> v.data.ready && th.rc == 1
  {}

  // A receive that returns anything but 1 after its wait saw, when it gave up, the tag's flag set or no
  // message on its instance, or its copy faulted part of the way: a signal never takes a message away from it.
  lemma GivesUp(states: seq<State>, events: seq<Event>, j: nat, k: nat, t: nat)
    requires Run(states, events) && j + 1 <= k < |states| && events[j].Steps? && events[j].thread == t
    requires t < |states[j].threads| && states[j].threads[t].pc.Waiting?
    requires t < |states[j + 1].threads| && states[j + 1].threads[t].pc == Waiting(RLeave)
    requires SameCallOf(events, j + 1, k, t) && t < |states[k].threads| && states[k].threads[t].rc != 1
    ensures var v := Look(states[j], states[j].threads[t]); v.tagReady || !v.data.ready || events[j].choice.CutOff?
  {
    hide Run, Safe, Happens, After, Look;
    ResultStands(states, events, j + 1, k, t);
    EventAt(states, events, j);
    AlwaysSafe(states, events, j);
    StepOf(states[j], events[j]);
    LeavesEmpty(states[j], t, events[j].choice);
  }

  lemma StepOf(s: State, e: Event)
    requires Happens(s, e) && e.Steps?
    ensures Enabled(s, e.thread, e.choice) && After(s, e) == Step(s, e.thread, e.choice)
  {
    hide Enabled, Step;
  }

  // ----- receives that agree -----

  lemma KeptUnlessReset(s: State, t: nat, c: Choice, i: nat)
    requires Safe(s) && Enabled(s, t, c) && Traceable(s, s.threads[t], c, MoveOf(s, t, c))
    requires i < |s.insts| && s.insts[i].data.ready && s.threads[t].inst == i && Alters(MoveOf(s, t, c).effect)
    ensures s.threads[t].pc == Finishing(RReset)
  {
    hide Traceable, Go, Look, Contended, Unblocked, Minds, Base, Alive, Dutiful;
    assert Minds(s.threads[t], DataOf(s, i), s.log);
    NotResizing(s.threads[t], DataOf(s, i), s.log);
    hide Safe;
    Alterers(s, t, c);
  }

  // A ready instance keeps its message until a last receiver resets it.
  lemma ReadyStays(s: State, e: Event, i: nat)
    requires Safe(s) && Happens(s, e) && i < |s.insts| && s.insts[i].data.ready && !Resets(s, e, i)
    ensures i < |After(s, e).insts| && After(s, e).insts[i].data == s.insts[i].data
  {
    if e.Steps? {
      var t, c := e.thread, e.choice;
      hide Go, Look, Contended, Unblocked, Apply, Base, Alive, Dutiful, Told, Traceable;
      assert Base(s) && Referring(s) by { BaseParts(s); }
      Tracing(s, t, c);
      hide Safe, Referring;
      DataKept(s, t, MoveOf(s, t, c), i);
      if s.threads[t].inst == i && Alters(MoveOf(s, t, c).effect) { KeptUnlessReset(s, t, c, i); }
    }
  }

  lemma BaseParts(s: State)
    requires Safe(s)
    ensures Base(s) && Referring(s)
  {
    hide Locked, Referring;
  }

  lemma NotResizing(th: Thread, d: Data, log: seq<Post>)
    requires Minds(th, d, log) && d.ready
    ensures th.pc != Finishing(RResize)
  {}

  // The step that takes the message of an instance away.
  predicate Resets(s: State, e: Event, i: int) {
    e.Steps? && e.thread < |s.threads| && s.threads[e.thread].pc == Finishing(RReset) && s.threads[e.thread].inst == i
  }

  ghost predicate NoReset(states: seq<State>, events: seq<Event>, j: nat, k: nat, i: int)
    requires k <= |events| < |states|
  {
    forall x :: j <= x < k ==> !Resets(states[x], events[x], i)
  }

  lemma {:induction false} ReadyLasts(states: seq<State>, events: seq<Event>, j: nat, k: nat, i: nat)
    requires Run(states, events) && j <= k < |states| && i < |states[j].insts| && states[j].insts[i].data.ready
    requires NoReset(states, events, j, k, i)
    ensures i < |states[k].insts| && states[k].insts[i].data == states[j].insts[i].data
    decreases k
  {
    hide Safe, Happens, After, Initial, Resets;
    if j < k {
      ReadyLasts(states, events, j, k - 1, i);
      AlwaysSafe(states, events, k - 1);
      ReadyStays(states[k - 1], events[k - 1], i);
    }
  }

  // Thread t copies from instance i at step j, and its receive is over at step k.
  ghost predicate CopiesOut(states: seq<State>, events: seq<Event>, j: nat, k: nat, t: nat, i: int)
    requires |states| == |events| + 1
  {
    && j < k < |states| && t < |states[j].threads| && events[j] == Steps(t, Plain)
    && states[j].threads[t].pc == Waiting(RCopy) && states[j].threads[t].inst == i
    && SameCallOf(events, j + 1, k, t) && t < |states[k].threads| && states[k].threads[t].pc.Idle?
  }

  lemma CopyTakes(s: State, t: nat)
    requires Safe(s) && t < |s.threads| && s.threads[t].pc == Waiting(RCopy) && Enabled(s, t, Plain)
    ensures var i, n := s.threads[t].inst, Step(s, t, Plain).threads[t];
            && 0 <= i < |s.insts| && s.insts[i].data.ready && n.pc == Waiting(RLeave) && n.rc == 1
            && n.source == s.insts[i].data.post && n.call == s.threads[t].call && ValidCall(n.call)
            && n.got == Prefix(s.insts[i].data.buffer, Min(Size(n.call), s.insts[i].data.size))
  {
    var th := s.threads[t];
    assert Shape(th) && Refers(s, th) && Minds(th, DataOf(s, th.inst), s.log);
    Hands(th);
    CopyHere(th, Look(s, th));
    hide Safe, Shape, Refers, Go, Enabled, NewTagLock, NewTags, NewCells, NewInsts, Hold, Prefix, Min, Size;
  }

  lemma CopyHere(th: Thread, v: View)
    requires th.pc == Waiting(RCopy) && v.data.ready
    ensures Go(th, v, Plain).thread == th.(got := Prefix(v.data.buffer, Min(Size(th.call), v.data.size)),
                                           source := v.data.post, pc := Waiting(RLeave))
  {}

  // A receive that copies without a fault returns 1 with the message its instance held.
  lemma CopyReturns(states: seq<State>, events: seq<Event>, j: nat, k: nat, t: nat, i: int)
    requires Run(states, events) && CopiesOut(states, events, j, k, t, i)
    ensures 0 <= i < |states[j].insts| && states[j].insts[i].data.ready
    ensures var n, d := states[k].threads[t], states[j].insts[i].data;
            && n.rc == 1 && n.source == d.post && ValidCall(n.call)
            && n.got == Prefix(d.buffer, Min(Size(n.call), d.size))
  {
    var s := states[j];
    AlwaysSafe(states, events, j);
    assert Happens(s, events[j]);
    CopyTakes(s, t);
    hide Safe, Go, Look, Step, Initial, Enabled, ValidCall;
    assert states[j + 1] == Step(s, t, Plain);
    hide Step, Prefix, Min, Size;
    ResultStands(states, events, j + 1, k, t);
  }

  // A beginning of the buffer of a ready instance, up to its size, is that beginning of its message.
  lemma SameText(s: State, i: nat, call: Call)
    requires Safe(s) && i < |s.insts| && s.insts[i].data.ready && ValidCall(call)
    ensures var d, n := s.insts[i].data, Size(call);
            && d.post < |s.log|
            && Prefix(d.buffer, Min(n, d.size)) == Prefix(s.log[d.post].text, Min(n, |s.log[d.post].text|))
  {
    hide Base, Alive, Dutiful;
    assert Intact(s.insts[i], s.log);
    hide Told;
  }

  // Two receives that copy from one instance with no reset between them return 1 with the same message,
  // each with as much of it as fits.
  lemma BroadcastAgrees(states: seq<State>, events: seq<Event>, i: nat, j: nat, k: nat, t: nat, j': nat, k': nat,
          u: nat)
    requires Run(states, events) && CopiesOut(states, events, j, k, t, i) && CopiesOut(states, events, j', k', u, i)
    requires j <= j' && NoReset(states, events, j, j', i)
    ensures var a, b, log := states[k].threads[t], states[k'].threads[u], states[j].log;
            && a.rc == b.rc == 1 && a.source == b.source && 0 <= a.source < |log|
            && a.got == Prefix(log[a.source].text, Min(Size(a.call), |log[a.source].text|))
            && b.got == Prefix(log[a.source].text, Min(Size(b.call), |log[a.source].text|))
  {
    CopyReturns(states, events, j, k, t, i);
    CopyReturns(states, events, j', k', u, i);
    ReadyLasts(states, events, j, j', i);
    AlwaysSafe(states, events, j);
    SameText(states[j], i, states[k].threads[t].call);
    SameText(states[j], i, states[k'].threads[u].call);
    hide Run, CopiesOut, NoReset, Safe, Prefix, Min, Size, ValidCall;
  }

  // ----- the last receiver, up to the free or the reset -----

  predicate Cleared(s: State, i: int) {
    0 <= i < |s.insts| && !s.insts[i].data.ready && s.insts[i].data.posts == 0 && s.insts[i].data.size == 0
  }

  ghost predicate WasCleared(states: seq<State>, j: nat, k: nat, i: int) {
    exists x :: j < x <= k < |states| && Cleared(states[x], i)
  }

  // On its way to the free, or to the reset.
  predicate OnItsWay(th: Thread, i: int, frees: bool) {
    th.pc.Finishing? && th.inst == i &&
    if frees then th.pc.finish.RRelease? || th.pc.finish.RFree?
    else th.pc.finish.RReset? || th.pc.finish.RResize? || th.pc.finish.RUnlock?
  }

  lemma FinishLine(th: Thread, line: Finish, v: View, frees: bool)
    requires th.pc == Finishing(line) && OnItsWay(th, th.inst, frees)
    ensures var m := GoFinish(th, line, v);
            if m.thread.pc.Exiting? then (if frees then m.effect == FreeLevel(th.inst) else line.RUnlock?)
            else OnItsWay(m.thread, th.inst, frees)
                 && (m.thread.pc == Finishing(RUnlock) ==> line.RResize? && m.effect == Write(v.data.(size := 0)))
  {}

  // The step that sets the size to 0 leaves the instance cleared.
  lemma Clears(s: State, t: nat, c: Choice)
    requires Safe(s) && t < |s.threads| && s.threads[t].pc == Finishing(RResize)
    requires MoveOf(s, t, c).effect == Write(Look(s, s.threads[t]).data.(size := 0))
    ensures Cleared(Step(s, t, c), s.threads[t].inst)
  {
    hide Safe, Go, Apply;
    EmptyBefore(s, t);
    DataKept(s, t, MoveOf(s, t, c), s.threads[t].inst);
  }

  lemma EmptyBefore(s: State, t: nat)
    requires Safe(s) && t < |s.threads| && s.threads[t].pc == Finishing(RResize)
    ensures var i := s.threads[t].inst; 0 <= i < |s.insts| && !s.insts[i].data.ready && s.insts[i].data.posts == 0
  {
    var th := s.threads[t];
    InstOf(s, t);
    assert Minds(th, DataOf(s, th.inst), s.log) && Intact(s.insts[th.inst], s.log);
    Emptying(th, DataOf(s, th.inst), s.log);
    hide Safe, Minds;
  }

  lemma Emptying(th: Thread, d: Data, log: seq<Post>)
    requires Minds(th, d, log) && th.pc == Finishing(RResize)
    ensures !d.ready
  {}

  lemma InstOf(s: State, t: nat)
    requires Safe(s) && t < |s.threads| && s.threads[t].pc.Finishing?
    ensures 0 <= s.threads[t].inst < |s.insts|
  {
    assert Shape(s.threads[t]) && Refers(s, s.threads[t]);
    WorksOn(s.threads[t]);
    hide Safe, Shape;
  }

  lemma WayOn(s: State, e: Event, t: nat, i: int, frees: bool)
    requires Safe(s) && Happens(s, e) && t < |s.threads| && OnItsWay(s.threads[t], i, frees)
    ensures var s' := After(s, e);
            && t < |s'.threads|
            && var n := s'.threads[t];
            if n.pc.Exiting? then (if frees then Freed(s', i) else s.threads[t].pc == Finishing(RUnlock))
            else OnItsWay(n, i, frees)
                 && (n.pc == Finishing(RUnlock) ==> s.threads[t].pc == Finishing(RUnlock) || Cleared(s', i))
  {
    hide Safe, Look, Contended, Unblocked, Freed, Cleared;
    if e.Steps? && e.thread == t {
      var th, c := s.threads[t], e.choice;
      InstOf(s, t);
      FinishLine(th, th.pc.finish, Look(s, th), frees);
      if MoveOf(s, t, c).effect == FreeLevel(i) { FreedLater(s, t, MoveOf(s, t, c), i); }
      if MoveOf(s, t, c).thread.pc == Finishing(RUnlock) { Clears(s, t, c); }
    }
    hide GoFinish, Go, NewTagLock, NewTags, NewCells, NewInsts, Hold;
  }

  // Thread t is at work closing an instance in all states from j up to k.
  ghost predicate Closes(states: seq<State>, j: nat, k: nat, t: nat)
    requires k <= |states|
  {
    forall x :: j <= x < k ==> t < |states[x].threads| && states[x].threads[t].pc.Finishing?
  }

  lemma {:induction false} WayEnds(states: seq<State>, events: seq<Event>, j: nat, k: nat, t: nat, i: int, frees: bool)
    requires Run(states, events) && j <= k < |states| && t < |states[j].threads| && Closes(states, j, k, t)
    requires OnItsWay(states[j].threads[t], i, frees) && states[j].threads[t].pc != Finishing(RUnlock)
    ensures t < |states[k].threads|
    ensures var n := states[k].threads[t];
            if n.pc.Exiting? then (if frees then Freed(states[k], i) else WasCleared(states, j, k, i))
            else OnItsWay(n, i, frees) && (n.pc == Finishing(RUnlock) ==> WasCleared(states, j, k, i))
    decreases k
  {
    hide Safe, Happens, After, Initial, Cleared, Freed;
    if j < k {
      WayEnds(states, events, j, k - 1, t, i, frees);
      AlwaysSafe(states, events, k - 1);
      assert !states[k - 1].threads[t].pc.Exiting?;
      WayOn(states[k - 1], events[k - 1], t, i, frees);
      if Cleared(states[k], i) { assert j < k <= k; }
    }
  }

  lemma CompareLine(th: Thread, v: View, c: Choice)
    requires th.pc == Finishing(RCompare)
    ensures Go(th, v, c).thread == th.(pc := Finishing(if v.curEpoch > v.epoch then RRelease else RReset))
  {}

  lemma Compares(s: State, t: nat, c: Choice)
    requires Safe(s) && Settled(s) && Enabled(s, t, c) && s.threads[t].pc == Finishing(RCompare)
    ensures var th, n := s.threads[t], Step(s, t, c).threads[t];
            n.pc == Finishing(if th.cur == th.inst then RReset else RRelease) && n.inst == th.inst
  {
    assert Settles(s, s.threads[t]);
    CompareLine(s.threads[t], Look(s, s.threads[t]), c);
    hide Safe, Settled, Sent, TookOne, Glimpsed, Emptied, Go, Enabled, NewTagLock, NewTags, NewCells, NewInsts, Hold;
  }

  // By the time the last receiver leaves, the instance it closes is freed if it saw a later one published,
  // and otherwise it has been emptied for the next message.
  lemma FinisherDecides(states: seq<State>, events: seq<Event>, j: nat, k: nat, t: nat)
    requires Run(states, events) && j < k < |states| && events[j].Steps? && events[j].thread == t
    requires Closes(states, j, k, t) && states[j].threads[t].pc == Finishing(RCompare)
    requires t < |states[k].threads| && states[k].threads[t].pc.Exiting?
    ensures var th := states[j].threads[t];
            if th.cur == th.inst then WasCleared(states, j, k, th.inst) else Freed(states[k], th.inst)
  {
    var s, c := states[j], events[j].choice;
    AlwaysSettled(states, events, j);
    AlwaysSafe(states, events, j);
    assert Happens(s, events[j]);
    Compares(s, t, c);
    assert states[j + 1] == Step(s, t, c);
    hide Safe, Settled, Step, Enabled, Initial, Freed, Cleared;
    WayEnds(states, events, j + 1, k, t, s.threads[t].inst, s.threads[t].cur != s.threads[t].inst);
  }

  // ----- the move to a new epoch, up to the join -----

  // What a receiver knows once it has looked at the published instance p under the write lock: with a
  // message on it, it installs a new one of the next epoch; else it takes p.
  predicate Renews(s: State, th: Thread, p: int, known: nat, occupied: bool) {
    && 0 <= p < known <= |s.insts|
    && (th.pc == Renewing(RCreate) ==> occupied && th.inst == p)
    && (th.pc == Renewing(RDrop) || th.pc == Renewing(RJoin) || th.pc == Renewing(RUnwrite)
        || th.pc == Waiting(REnter) ==>
          if occupied then known <= th.inst < |s.insts| && s.insts[th.inst].epoch == s.insts[p].epoch + 1
          else th.inst == p)
  }

  // The lines on which a receiver moves to a new epoch.
  predicate Turning(pc: PC) {
    pc.Renewing? && (pc.renew.RCreate? || pc.renew.RDrop? || pc.renew.RJoin? || pc.renew.RUnwrite?
                     || pc.renew.RRestore?)
  }

  lemma RenewLine(th: Thread, line: Renew, v: View, c: Choice)
    requires th.pc == Renewing(line) && Turning(th.pc)
    ensures var m := GoRenew(th, line, v, c);
            && (Turning(m.thread.pc) || m.thread.pc.Exiting? || m.thread.pc == Waiting(REnter))
            && m.thread.pc != Renewing(RCreate)
            && (m.thread.pc == Waiting(REnter) ==> line.RUnwrite?)
            && (if line.RCreate? && m.thread.pc.Renewing? then m.effect.Publish? && m.thread.inst == v.next
                else m.thread.inst == th.inst && !m.effect.Publish?)
            && (line.RRestore? ==> m.thread.pc.Exiting?)
  {}

  lemma RenewsMoved(s: State, t: nat, m: Move, p: int, known: nat, occupied: bool)
    requires t < |s.threads| && Turning(s.threads[t].pc) && Renews(s, s.threads[t], p, known, occupied)
    requires m.thread.pc != Renewing(RCreate) && s.threads[t].pc != Renewing(RRestore)
    requires if s.threads[t].pc == Renewing(RCreate) && m.thread.pc.Renewing?
             then m.effect.Publish? && m.thread.inst == |s.insts|
             else m.thread.inst == s.threads[t].inst && !m.effect.Publish?
    requires s.threads[t].pc == Renewing(RCreate) ==> m.thread.pc.Renewing? || m.thread.pc.Exiting?
    ensures Renews(Apply(s, t, m), m.thread, p, known, occupied)
  {
    Memory(s, t, m);
    hide Apply;
  }

  lemma RenewsOn(s: State, t: nat, c: Choice, p: int, known: nat, occupied: bool)
    requires Safe(s) && Enabled(s, t, c) && Turning(s.threads[t].pc) && Renews(s, s.threads[t], p, known, occupied)
    ensures t < |Step(s, t, c).threads|
    ensures var n := Step(s, t, c).threads[t];
            && (Turning(n.pc) || n.pc.Exiting? || n.pc == Waiting(REnter))
            && Renews(Step(s, t, c), n, p, known, occupied)
            && (n.pc == Waiting(REnter) ==> s.threads[t].pc == Renewing(RUnwrite))
  {
    var th, m := s.threads[t], MoveOf(s, t, c);
    hide Safe, Look, Contended, Unblocked, GoRenew, Renews;
    RenewLine(th, th.pc.renew, Look(s, th), c);
    LookPtr(s, th);
    if m.thread.pc.Exiting? {
      GivenUp(s, t, m, p, known, occupied);
    } else {
      RenewsMoved(s, t, m, p, known, occupied);
    }
    RenewsHeld(Step(s, t, c), m.thread, Hold(th, m.effect), p, known, occupied);
    hide NewTagLock, NewTags, NewCells, NewInsts, Hold;
  }

  lemma GivenUp(s: State, t: nat, m: Move, p: int, known: nat, occupied: bool)
    requires t < |s.threads| && Renews(s, s.threads[t], p, known, occupied) && m.thread.pc.Exiting?
    ensures Renews(Apply(s, t, m), m.thread, p, known, occupied)
  {
    Memory(s, t, m);
    hide Apply;
  }

  lemma RenewsHeld(s: State, th: Thread, held: Held, p: int, known: nat, occupied: bool)
    ensures Renews(s, th.(held := held), p, known, occupied) == Renews(s, th, p, known, occupied)
  {}

  lemma RenewsByOthers(s: State, e: Event, t: nat, p: int, known: nat, occupied: bool)
    requires Happens(s, e) && t < |s.threads| && !(e.Steps? && e.thread == t)
    requires Renews(s, s.threads[t], p, known, occupied)
    ensures t < |After(s, e).threads| && After(s, e).threads[t] == s.threads[t]
    ensures Renews(After(s, e), s.threads[t], p, known, occupied)
  {
    if e.Steps? {
      Memory(s, e.thread, MoveOf(s, e.thread, e.choice));
      hide Go, Look, NewTagLock, NewTags, NewCells, NewInsts, Hold;
    }
  }

  ghost predicate Turns(states: seq<State>, j: nat, k: nat, t: nat)
    requires k <= |states|
  {
    forall x :: j <= x < k ==> t < |states[x].threads| && Turning(states[x].threads[t].pc)
  }

  lemma TurnOn(s: State, e: Event, t: nat, p: int, known: nat, occupied: bool)
    requires Safe(s) && Happens(s, e) && t < |s.threads| && Turning(s.threads[t].pc)
    requires Renews(s, s.threads[t], p, known, occupied)
    ensures t < |After(s, e).threads|
    ensures var n := After(s, e).threads[t];
            && Renews(After(s, e), n, p, known, occupied)
            && (n.pc == Waiting(REnter) ==> s.threads[t].pc == Renewing(RUnwrite) && e.Steps? && e.thread == t)
  {
    hide Safe, Renews, Enabled, Step;
    if e.Steps? && e.thread == t {
      RenewsOn(s, t, e.choice, p, known, occupied);
    } else {
      RenewsByOthers(s, e, t, p, known, occupied);
    }
  }

  lemma {:induction false} TurnEnds(states: seq<State>, events: seq<Event>, j: nat, k: nat, t: nat, p: int, known: nat,
                                    occupied: bool)
    requires Run(states, events) && j < k < |states| && Turns(states, j, k, t)
    requires Renews(states[j], states[j].threads[t], p, known, occupied)
    ensures t < |states[k].threads|
    ensures var n := states[k].threads[t];
            && Renews(states[k], n, p, known, occupied)
            && (n.pc == Waiting(REnter) ==> states[k - 1].threads[t].pc == Renewing(RUnwrite) && events[k - 1].Steps?
                                            && events[k - 1].thread == t)
    decreases k
  {
    hide Safe, Initial, Renews, Happens, After, Turning;
    if j < k - 1 { TurnEnds(states, events, j, k - 1, t, p, known, occupied); }
    AlwaysSafe(states, events, k - 1);
    TurnOn(states[k - 1], events[k - 1], t, p, known, occupied);
  }

  lemma RecheckLine(th: Thread, v: View, c: Choice)
    requires th.pc == Renewing(RRecheck)
    ensures Go(th, v, c).thread == th.(pc := Renewing(if v.data.ready then RCreate else RDrop))
    ensures Go(th, v, c).effect.Quiet?
  {}

  lemma Rechecks(s: State, e: Event, t: nat)
    requires Safe(s) && Happens(s, e) && e.Steps? && e.thread == t && s.threads[t].pc == Renewing(RRecheck)
    ensures var p, s' := Ptr(s, s.threads[t].cell), After(s, e);
            && 0 <= p < |s.insts| && t < |s'.threads| && Turning(s'.threads[t].pc)
            && Renews(s', s'.threads[t], p, |s.insts|, s.insts[p].data.ready)
  {
    var th := s.threads[t];
    hide Safe, Contended, Unblocked, Go, Apply, Renews, Turning;
    TopHere(s, t);
    RecheckLine(th, Look(s, th), e.choice);
    Rechecked(s, t, MoveOf(s, t, e.choice), th.inst);
  }

  lemma Rechecked(s: State, t: nat, m: Move, p: int)
    requires t < |s.threads| && s.threads[t].inst == p && 0 <= p < |s.insts| && m.effect.Quiet?
    requires m.thread == s.threads[t].(pc := Renewing(if s.insts[p].data.ready then RCreate else RDrop))
    ensures var s' := Apply(s, t, m);
            && t < |s'.threads| && Turning(s'.threads[t].pc)
            && Renews(s', s'.threads[t], p, |s.insts|, s.insts[p].data.ready)
  {
    hide NewTagLock, NewTags, NewCells, NewInst, Hold;
  }

  lemma TopHere(s: State, t: nat)
    requires Safe(s) && t < |s.threads| && AtTop(s.threads[t].pc)
    ensures 0 <= s.threads[t].inst == Ptr(s, s.threads[t].cell) < |s.insts|
  {
    assert Shape(s.threads[t]) && Refers(s, s.threads[t]);
    HasInst(s.threads[t]);
    hide Safe, Shape, Slotted, AtTop;
  }

  lemma UnwriteLine(th: Thread, v: View, c: Choice)
    requires th.pc == Renewing(RUnwrite)
    ensures Go(th, v, c) == Move(UnlockLevel, th.(pc := Waiting(REnter)))
  {}

  // When a receiver lets the write lock go it reads the published instance.
  lemma Unwrites(s: State, e: Event, t: nat)
    requires Safe(s) && Happens(s, e) && e.Steps? && e.thread == t && s.threads[t].pc == Renewing(RUnwrite)
    ensures t < |After(s, e).threads|
    ensures var th, n := s.threads[t], After(s, e).threads[t];
            n.inst == th.inst == Ptr(s, th.cell) && n.held.rcu == n.inst && n.cell == th.cell
  {
    var th := s.threads[t];
    TopHere(s, t);
    assert Shape(th);
    ReadsHere(th);
    UnwriteLine(th, Look(s, th), e.choice);
    hide Safe, Shape, Contended, Unblocked, Go, Look, NewTagLock, NewTags, NewCells, NewInsts;
  }

  lemma ReadsHere(th: Thread)
    requires Shape(th) && th.pc == Renewing(RUnwrite)
    ensures th.held.rcu == th.inst
  {}

  // A receiver looks at the published instance under the write lock at step j and moves on up to step k.
  ghost predicate Turned(states: seq<State>, events: seq<Event>, j: nat, k: nat, t: nat)
    requires |states| == |events| + 1
  {
    && j + 1 < k < |states| && events[j].Steps? && events[j].thread == t
    && t < |states[j].threads| && states[j].threads[t].pc == Renewing(RRecheck) && Turns(states, j + 1, k, t)
  }

  lemma TurnedRenews(states: seq<State>, events: seq<Event>, j: nat, k: nat, t: nat)
    requires Run(states, events) && Turned(states, events, j, k, t)
    ensures t < |states[k].threads|
    ensures var s, p, n := states[j], Ptr(states[j], states[j].threads[t].cell), states[k].threads[t];
            && 0 <= p < |s.insts| && Renews(states[k], n, p, |s.insts|, s.insts[p].data.ready)
            && (n.pc == Waiting(REnter) ==> states[k - 1].threads[t].pc == Renewing(RUnwrite) && events[k - 1].Steps?
                                            && events[k - 1].thread == t)
  {
    hide Run, Safe, Happens, After, Renews, Turning, Ptr;
    EventAt(states, events, j);
    AlwaysSafe(states, events, j);
    Rechecks(states[j], events[j], t);
    var p := Ptr(states[j], states[j].threads[t].cell);
    TurnEnds(states, events, j + 1, k, t, p, |states[j].insts|, states[j].insts[p].data.ready);
  }

  lemma TurnedReads(states: seq<State>, events: seq<Event>, k: nat, t: nat)
    requires Run(states, events) && 0 < k < |states| && events[k - 1].Steps? && events[k - 1].thread == t
    requires t < |states[k - 1].threads| && states[k - 1].threads[t].pc == Renewing(RUnwrite)
    ensures t < |states[k].threads|
    ensures var n := states[k].threads[t]; n.held.rcu == n.inst == Ptr(states[k - 1], n.cell)
  {
    hide Run, Safe, Happens, After, Ptr;
    EventAt(states, events, k - 1);
    AlwaysSafe(states, events, k - 1);
    Unwrites(states[k - 1], events[k - 1], t);
  }

  // A receiver that has looked at the published instance p under the write lock comes out of the renewal
  // reading the published instance: a new one of the next epoch if p was ready, and otherwise p itself.
  lemma RenewsOccupied(states: seq<State>, events: seq<Event>, j: nat, k: nat, t: nat)
    requires Run(states, events) && Turned(states, events, j, k, t)
    requires t < |states[k].threads| && states[k].threads[t].pc == Waiting(REnter)
    ensures var p, n := Ptr(states[j], states[j].threads[t].cell), states[k].threads[t];
            && 0 <= p < |states[j].insts| && n.held.rcu == n.inst == Ptr(states[k - 1], n.cell)
            && if states[j].insts[p].data.ready
               then |states[j].insts| <= n.inst < |states[k].insts| && p < |states[k].insts|
                    && states[k].insts[n.inst].epoch == states[k].insts[p].epoch + 1
               else n.inst == p
  {
    TurnedRenews(states, events, j, k, t);
    var p := Ptr(states[j], states[j].threads[t].cell);
    hide Run, Ptr, Turning, Renews;
    Renewed(states[k], states[k].threads[t], p, |states[j].insts|, states[j].insts[p].data.ready);
    TurnedReads(states, events, k, t);
    hide Turned, Turns;
  }

  lemma EventAt(states: seq<State>, events: seq<Event>, k: nat)
    requires Run(states, events) && k + 1 < |states|
    ensures |states| == |events| + 1
    ensures Happens(states[k], events[k]) && states[k + 1] == After(states[k], events[k])
  {
    hide Initial, Happens, After;
  }

  lemma Renewed(s: State, th: Thread, p: int, known: nat, occupied: bool)
    requires Renews(s, th, p, known, occupied) && th.pc == Waiting(REnter)
    ensures 0 <= p < |s.insts|
    ensures if occupied then known <= th.inst < |s.insts| && s.insts[th.inst].epoch == s.insts[p].epoch + 1
            else th.inst == p
  {}

  // ----- AWAKE_ALL reaches every sleeper -----

  predicate InLine(s: State, u: int, i: int) { 0 <= i < |s.insts| && u in s.insts[i].sync.queue }

  ghost predicate WasOut(states: seq<State>, j: nat, k: nat, u: int, i: int) {
    exists x :: j < x <= k < |states| && !InLine(states[x], u, i)
  }

  // Why sleeper u may not have been woken by the AWAKE_ALL of t: its instance has a message, t has still
  // to come to its level, or t has been broken off.
  predicate Reaching(s: State, t: nat, u: nat, i: int)
    requires t < |s.threads| && u < |s.threads|
  {
    var a, b := s.threads[t], s.threads[u];
    || DataOf(s, i).ready
    || (a.tag == b.tag && Ahead(a, b.level))
    || (a.rc == EINTR && (a.pc.Exiting? || a.pc.Idle?))
  }

  lemma AbandonLine(th: Thread, v: View, c: Choice)
    requires th.pc.Rousing? && Go(th, v, c).effect.Abandon?
    ensures var n := Go(th, v, c).thread; n.rc == EINTR && n.pc.Exiting?
  {
    hide CellOf;
  }

  lemma ExitOnly(th: Thread, v: View, c: Choice)
    requires th.pc.Exiting?
    ensures var n := Go(th, v, c).thread; n.rc == th.rc && (n.pc.Exiting? || n.pc.Idle?)
  {}

  // Still on its way, the AWAKE_ALL comes nearer, is broken off, or wakes the sleeper.
  lemma RouserComesOn(s: State, t: nat, c: Choice, u: nat)
    requires Safe(s) && Wakeful(s) && Enabled(s, t, c) && Traceable(s, s.threads[t], c, MoveOf(s, t, c))
    requires u < |s.threads| && u != t && InQueue(s, u) && s.threads[u].pc == Waiting(RSleep)
    requires s.threads[t].tag == s.threads[u].tag && Ahead(s.threads[t], s.threads[u].level)
    ensures var b, n, s' := s.threads[u], MoveOf(s, t, c).thread, Step(s, t, c);
            || DataOf(s', b.inst).ready || !InQueue(s', u)
            || (n.tag == b.tag && Ahead(n, b.level))
            || (n.rc == EINTR && n.pc.Exiting?)
  {
    var a, b, m := s.threads[t], s.threads[u], MoveOf(s, t, c);
    hide Look, Contended, Unblocked, Go, Base, Alive, Told, Dutiful, Lined, SendersTell, RousersCome, FromTheFirst,
         Apply, DataOf, Traceable, InQueue;
    SleeperAt(s, u);
    RouserLine(s, t, c, b.level);
    if m.effect.Abandon? {
      AbandonLine(a, Look(s, a), c);
    } else if !(m.thread.tag == a.tag && Ahead(m.thread, b.level)) {
      WakesThere(s, t, c, u);
    }
  }

  // The step of the AWAKE_ALL itself.
  lemma RouserReaches(s: State, t: nat, c: Choice, u: nat, i: int)
    requires Safe(s) && Wakeful(s) && Enabled(s, t, c) && !c.Start? && u < |s.threads| && u != t
    requires InLine(s, u, i) && s.threads[u].pc == Waiting(RSleep) && s.threads[u].inst == i
    requires Reaching(s, t, u, i) && !DataOf(s, i).ready
    ensures InLine(Step(s, t, c), u, i) ==> Reaching(Step(s, t, c), t, u, i)
  {
    hide Safe, Wakeful, Look, Contended, Unblocked, Go, Apply, DataOf;
    NotIdle(s, t, c);
    if s.threads[t].pc.Exiting? {
      ExitOnly(s.threads[t], Look(s, s.threads[t]), c);
    } else {
      ComingReaches(s, t, c, u);
    }
    hide Enabled;
    MoverReaches(s, t, MoveOf(s, t, c), u, i);
  }

  lemma ComingReaches(s: State, t: nat, c: Choice, u: nat)
    requires Safe(s) && Wakeful(s) && Enabled(s, t, c)
    requires u < |s.threads| && u != t && InQueue(s, u) && s.threads[u].pc == Waiting(RSleep)
    requires s.threads[t].tag == s.threads[u].tag && Ahead(s.threads[t], s.threads[u].level)
    ensures var b, n, s' := s.threads[u], MoveOf(s, t, c).thread, Apply(s, t, MoveOf(s, t, c));
            || DataOf(s', b.inst).ready || !InLine(s', u, b.inst)
            || (n.tag == b.tag && Ahead(n, b.level))
            || (n.rc == EINTR && n.pc.Exiting?)
  {
    BaseParts(s);
    hide Safe, Wakeful, Base, Referring, Traceable, Look, Enabled, Go, DataOf;
    Tracing(s, t, c);
    RouserComesOn(s, t, c, u);
    SameThreads(s, t, c);
    hide Apply;
  }

  lemma MoverReaches(s: State, t: nat, m: Move, u: nat, i: int)
    requires t < |s.threads| && u < |s.threads| && u != t
    requires || DataOf(Apply(s, t, m), i).ready
             || !InLine(Apply(s, t, m), u, i)
             || (m.thread.tag == s.threads[u].tag && Ahead(m.thread, s.threads[u].level))
             || (m.thread.rc == EINTR && (m.thread.pc.Exiting? || m.thread.pc.Idle?))
    ensures InLine(Apply(s, t, m), u, i) ==> Reaching(Apply(s, t, m), t, u, i)
  {
    hide NewTagLock, NewTags, NewCells, NewInsts, Hold, DataOf;
  }

  lemma SleeperAt(s: State, u: nat)
    requires Base(s) && u < |s.threads| && s.threads[u].pc == Waiting(RSleep)
    ensures 0 <= s.threads[u].level < LEVELS
  {
    assert Shape(s.threads[u]);
    SleeperReads(s.threads[u]);
    hide Locked, Shape;
  }

  // A message on the instance of a sleeper stays there as long as it sleeps.
  lemma ReadySleeps(s: State, w: nat, c: Choice, u: nat, i: int)
    requires Safe(s) && Enabled(s, w, c) && u < |s.threads| && u != w
    requires s.threads[u].pc == Waiting(RSleep) && s.threads[u].inst == i && DataOf(s, i).ready
    ensures DataOf(Step(s, w, c), i).ready
  {
    BaseParts(s);
    Tracing(s, w, c);
    hide Safe, Base, Referring, Traceable, Go, Look, Enabled, Apply, DataOf;
    StaysExcused(s, w, c, u);
  }

  // A sleeper's own step takes it out of its queue.
  lemma OwnStepLeaves(s: State, u: nat, c: Choice, i: int)
    requires Enabled(s, u, c) && InLine(s, u, i) && Sleeping(s, u, i)
    ensures !InLine(Step(s, u, c), u, i)
  {
    hide Look, Contended, Go, Apply;
    QueuedSleeper(s, u, c);
    QueueKept(s, u, MoveOf(s, u, c), i);
  }

  // Who stays in the queue sleeps there before and after, and somebody else has moved.
  lemma SleepsOn(s: State, e: Event, u: nat, i: int)
    requires Wakeful(s) && Happens(s, e) && InLine(s, u, i) && InLine(After(s, e), u, i)
    ensures u < |s.threads| && s.threads[u].pc == Waiting(RSleep) && s.threads[u].inst == i
    ensures !(e.Steps? && e.thread == u)
    ensures u < |After(s, e).threads| && After(s, e).threads[u] == s.threads[u]
  {
    assert Lined(s) && Sleeping(s, u, i);
    hide Wakeful, Lined, Enabled, Step, MayCreate;
    if e.Steps? {
      SameThreads(s, e.thread, e.choice);
      if e.thread == u { OwnStepLeaves(s, u, e.choice, i); }
    }
  }

  lemma EventReaches(s: State, e: Event, t: nat, u: nat, i: int)
    requires Safe(s) && Wakeful(s) && Happens(s, e) && t < |s.threads| && u < |s.threads|
    requires InLine(s, u, i) && InLine(After(s, e), u, i) && Reaching(s, t, u, i)
    requires !(e.Steps? && e.thread == t && e.choice.Start?)
    ensures t < |After(s, e).threads| && u < |After(s, e).threads| && Reaching(After(s, e), t, u, i)
  {
    SleepsOn(s, e, u, i);
    hide Safe, Wakeful, Enabled, DataOf, MayCreate;
    match e
    case Creates => CreatedData(s, i);
    case Steps(w, c) =>
      hide Step;
      SameThreads(s, w, c);
      if DataOf(s, i).ready {
        ReadySleeps(s, w, c, u, i);
      } else if w == t {
        RouserReaches(s, t, c, u, i);
      }
  }

  lemma CreatedData(s: State, i: int)
    requires 0 <= i < |s.insts|
    ensures DataOf(Create(s), i) == DataOf(s, i)
  {}

  lemma SameThreads(s: State, w: nat, c: Choice)
    requires Enabled(s, w, c)
    ensures |Step(s, w, c).threads| == |s.threads|
    ensures forall u :: 0 <= u < |s.threads| && u != w ==> Step(s, w, c).threads[u] == s.threads[u]
  {
    hide Look, Go, Contended, Unblocked, NewTagLock, NewTags, NewCells, NewInsts, Hold;
  }

  lemma {:induction false} StaysReaching(states: seq<State>, events: seq<Event>, j: nat, k: nat, t: nat, u: nat, i: int)
    requires Run(states, events) && j <= k < |states| && SameCallOf(events, j, k, t)
    requires t < |states[j].threads| && u < |states[j].threads|
    requires InLine(states[j], u, i) && Reaching(states[j], t, u, i)
    ensures WasOut(states, j, k, u, i)
            || (t < |states[k].threads| && u < |states[k].threads| && InLine(states[k], u, i)
                && Reaching(states[k], t, u, i))
    decreases k
  {
    hide Safe, Wakeful, Happens, After, Initial, Reaching, InLine;
    if j < k {
      StaysReaching(states, events, j, k - 1, t, u, i);
      if WasOut(states, j, k - 1, u, i) {
        var x :| j < x <= k - 1 < |states| && !InLine(states[x], u, i);
        assert j < x <= k < |states|;
      } else if InLine(states[k], u, i) {
        AlwaysSafe(states, events, k - 1);
        AlwaysWakeful(states, events, k - 1);
        EventReaches(states[k - 1], events[k - 1], t, u, i);
      }
    }
  }

  // Setting the flag, AWAKE_ALL has every level ahead of it.
  lemma SetLine(s: State, t: nat, c: Choice)
    requires t < |s.threads| && s.threads[t].pc == Awaking(ASet)
    ensures MoveOf(s, t, c).effect == Flag(true)
    ensures var th, n := s.threads[t], Step(s, t, c).threads[t];
            n.pc == Rousing(ALevel) && n.level == th.level && n.tag == th.tag
  {
    FlagLine(s.threads[t], Look(s, s.threads[t]), c);
    FlagLines(s.threads[t], Look(s, s.threads[t]), c);
    hide Look, Go, NewTagLock, NewTags, NewCells, NewInsts, Hold;
  }

  lemma FirstLevel(s: State, t: nat, u: nat, i: int)
    requires Safe(s) && Wakeful(s) && t < |s.threads| && s.threads[t].pc == Awaking(ASet) && InLine(s, u, i)
    ensures s.threads[t].level == 0 && u < |s.threads| && u != t && 0 <= s.threads[u].level
  {
    hide Base, Alive, Told, Dutiful, Occupied, SendersTell, RousersCome;
    assert Sleeping(s, u, i);
    SleeperAt(s, u);
  }

  lemma SetsOut(s: State, t: nat, c: Choice, u: nat, i: int)
    requires Safe(s) && Wakeful(s) && Enabled(s, t, c) && s.threads[t].pc == Awaking(ASet) && InLine(s, u, i)
    requires u < |s.threads| && s.threads[u].tag == s.threads[t].tag
    ensures t < |Step(s, t, c).threads| && u < |Step(s, t, c).threads|
    ensures InLine(Step(s, t, c), u, i) && Reaching(Step(s, t, c), t, u, i)
  {
    hide Safe, Wakeful, Contended, Unblocked, Look, Go, Apply, DataOf;
    FirstLevel(s, t, u, i);
    SameThreads(s, t, c);
    SetLine(s, t, c);
    QueueKept(s, t, MoveOf(s, t, c), i);
  }

  // An AWAKE_ALL that returns 1 has, since it set the flag, had everybody taken out of the wait queues who
  // slept on the tag then, even if the flag has been taken back meanwhile. The one exception is a sleeper
  // whose instance has got a message, and whose sender has still to call wake_up_all.
  lemma AwakeAllReaches(states: seq<State>, events: seq<Event>, j: nat, k: nat, t: nat, u: nat, i: int)
    requires Run(states, events) && j < k < |states| && events[j].Steps? && events[j].thread == t
    requires t < |states[j].threads| && states[j].threads[t].pc == Awaking(ASet) && SameCallOf(events, j + 1, k, t)
    requires t < |states[k].threads| && states[k].threads[t].pc.Idle? && states[k].threads[t].rc == 1
    requires u < |states[j].threads| && states[j].threads[u].tag == states[j].threads[t].tag && InLine(states[j], u, i)
    ensures WasOut(states, j, k, u, i) || (DataOf(states[k], i).ready && Teller(states[k], i))
  {
    hide Safe, Wakeful, Happens, After, Initial, InLine, DataOf, Teller;
    EventAt(states, events, j);
    AlwaysSafe(states, events, j);
    AlwaysWakeful(states, events, j);
    AlwaysWakeful(states, events, k);
    StepOf(states[j], events[j]);
    SetsOut(states[j], t, events[j].choice, u, i);
    StaysReaching(states, events, j + 1, k, t, u, i);
    if WasOut(states, j + 1, k, u, i) {
      var x :| j + 1 < x <= k < |states| && !InLine(states[x], u, i);
      assert j < x <= k < |states|;
    } else {
      DueSender(states[k], u, i);
    }
  }

  lemma DueSender(s: State, u: nat, i: int)
    requires Wakeful(s) && InLine(s, u, i) && DataOf(s, i).ready
    ensures Teller(s, i)
  {
    hide Lined, Occupied, RousersCome, FromTheFirst, Teller;
  }
}
