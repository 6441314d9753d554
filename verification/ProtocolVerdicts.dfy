// What a call returns, and why. A table gives for each step of a call whether it decides the result; over
// every run, a call that is over has been decided by one of its own steps, and returns what that step says.

module Verdicts {
  import opened Protocol
  import opened Shapes
  import opened Locks
  import opened Refs
  import opened Grace
  import opened Messages
  import opened Duty
  import opened Runs
  import opened Guarantees
  import opened Outcomes
  import opened Waking
  import opened Results
  import opened Bounds

  // ----- the table -----

  datatype Verdict = Open | Closed(rc: int)

  // The arguments the calls accept: levels 0 to 31, sizes up to 4096.
  predicate InRange(call: Call) {
    match call
    case Receive(level, size, _) => 0 <= level <= 31 && 0 <= size <= 4096
    case Send(level, text, _) => 0 <= level <= 31 && |text| <= 4096
    case AwakeAll => true
    case Delete => true
  }

  // The lines that read tags[d].
  predicate Looks(pc: PC) {
    pc == Arriving(RLook) || pc == Sending(SLook) || pc == Awaking(ALook) || pc == Deleting(DRead)
  }

  predicate NobodyCounted(s: State, k: int) { 0 <= k < |s.tags| && s.tags[k].members == {} }

  predicate NobodyWaits(s: State, i: int) { 0 <= i < |s.insts| && s.insts[i].sync.waiters == {} }

  predicate MutexTaken(s: State, i: int) { 0 <= i < |s.insts| && s.insts[i].sync.mutex != NONE }

  // What turns a call away with 0, by the line that looks at it.
  predicate TurnedAway(s: State, t: nat)
    requires t < |s.threads|
  {
    var th := s.threads[t];
    match th.pc
    case Sending(SWaiters) => NobodyCounted(s, th.tag)
    case Sending(SMutex) => MutexTaken(s, th.inst)
    case Posting(SReady) => DataOf(s, th.inst).ready
    case Posting(SWaiting) => NobodyWaits(s, th.inst)
    case Waiting(RAwake) => Flagged(s, th.tag)
    case Waiting(RReady) => !DataOf(s, th.inst).ready
    case Awaking(AReady) => Flagged(s, th.tag)
    case Awaking(AWaiters) => NobodyCounted(s, th.tag)
    case Deleting(DTry) => s.tagLock != FREE
    case _ => false
  }

  // The line with which a call has done what it was for.
  predicate Completes(th: Thread) {
    || th.pc == Posting(SPost) || th.pc == Waiting(RCopy) || th.pc == Deleting(DClear)
    || (th.pc == Rousing(AUnlevel) && th.level == LEVELS - 1)
  }

  function Judge(s: State, t: nat, c: Choice): Verdict
    requires t < |s.threads|
  {
    var th := s.threads[t];
    match c
    case Start(call) => if InRange(call) then Open else Closed(EINVAL)
    case Interrupt =>
      if th.pc != Waiting(RSleep) then Closed(EINTR)
      else if Flagged(s, th.tag) || DataOf(s, th.inst).ready then Open else Closed(0)
    case Denied => Closed(if s.slot == NONE then ENODATA else EPERM)
    case NoMemory => Closed(ENOMEM)
    case Fault(_) => Closed(EFAULT)
    case CutOff(_) => Closed(EFAULT)
    case Plain =>
      if Looks(th.pc) then (if s.slot == NONE then Closed(ENODATA) else Open)
      else if TurnedAway(s, t) then Closed(0)
      else if Completes(th) then Closed(1) else Open
  }

  // ----- decided and undecided lines -----

  // Past the decision: what is left gives back, closes, tells or frees.
  predicate Final(pc: PC) {
    || Parted(pc) || pc.Telling? || pc.Freeing? || pc == Renewing(RRestore)
    || pc == Deleting(DRestore) || pc == Deleting(DPutBack)
  }

  // The result a decided call is going to return.
  function Fate(th: Thread): int {
    if th.pc == Renewing(RRestore) || th.pc == Deleting(DRestore) then EINTR
    else if th.pc == Deleting(DPutBack) then EPROTO
    else if th.pc.Freeing? then 1
    else th.rc
  }

  // The table in terms of what a step sees.
  predicate TurnedBy(th: Thread, v: View) {
    match th.pc
    case Sending(SWaiters) => v.tagWaiting == 0
    case Sending(SMutex) => !v.mutexFree
    case Posting(SReady) => v.data.ready
    case Posting(SWaiting) => v.waiting == 0
    case Waiting(RAwake) => v.tagReady
    case Waiting(RReady) => !v.data.ready
    case Awaking(AReady) => v.tagReady
    case Awaking(AWaiters) => v.tagWaiting == 0
    case Deleting(DTry) => !v.tagFree
    case _ => false
  }

  function JudgeBy(th: Thread, v: View, c: Choice): Verdict {
    match c
    case Start(call) => if InRange(call) then Open else Closed(EINVAL)
    case Interrupt =>
      if th.pc != Waiting(RSleep) then Closed(EINTR) else if v.tagReady || v.data.ready then Open else Closed(0)
    case Denied => Closed(if v.slot == NONE then ENODATA else EPERM)
    case NoMemory => Closed(ENOMEM)
    case Fault(_) => Closed(EFAULT)
    case CutOff(_) => Closed(EFAULT)
    case Plain =>
      if Looks(th.pc) then (if v.slot == NONE then Closed(ENODATA) else Open)
      else if TurnedBy(th, v) then Closed(0)
      else if Completes(th) then Closed(1) else Open
  }

  // A move is as judged.
  predicate Obeys(n: Thread, verdict: Verdict) {
    if Final(n.pc) then verdict == Closed(Fate(n)) else verdict == Open
  }

  // A line at which the environment may do this.
  predicate Suits(th: Thread, c: Choice) {
    match c
    case Start(_) => false
    case Plain => true
    case Interrupt => th.pc == Deleting(DClear) || Wants(th) != NoLock || th.pc == Waiting(RSleep)
    case Fault(_) => th.pc == Posting(SCopy)
    case CutOff(_) => th.pc == Waiting(RCopy)
    case NoMemory => th.pc == Renewing(RCreate)
    case Denied => Looks(th.pc)
  }

  // What the invariants say of the view.
  predicate Clean(th: Thread, v: View) {
    && (Fetching(th.pc) || th.pc.Finishing? ==> v.ptr != NONE)
    && (th.pc == Waiting(RCopy) ==> v.data.ready && th.rc == 1)
    && (th.pc == Deleting(DPending) ==> v.tagWaiting == 0)
    && 0 <= th.level < LEVELS
  }

  lemma ArriveObeys(th: Thread, line: Arrive, v: View, c: Choice)
    requires th.pc == Arriving(line) && Suits(th, c) && Clean(th, v)
    ensures Obeys(GoReceive(th, line, v, c).thread, JudgeBy(th, v, c))
  {
    hide CellOf;
  }

  lemma RenewObeys(th: Thread, line: Renew, v: View, c: Choice)
    requires th.pc == Renewing(line) && !Final(th.pc) && Suits(th, c) && Clean(th, v)
    ensures Obeys(GoRenew(th, line, v, c).thread, JudgeBy(th, v, c))
  {}

  lemma WaitObeys(th: Thread, line: Wait, v: View, c: Choice)
    requires th.pc == Waiting(line) && !Final(th.pc) && Suits(th, c) && Clean(th, v)
    ensures Obeys(GoWait(th, line, v, c).thread, JudgeBy(th, v, c))
  {
    hide Prefix, Min, Size;
  }

  lemma SendObeys(th: Thread, line: Sends, v: View, c: Choice)
    requires th.pc == Sending(line) && Suits(th, c) && Clean(th, v)
    ensures Obeys(GoSend(th, line, v, c).thread, JudgeBy(th, v, c))
  {
    hide CellOf;
  }

  lemma PostObeys(th: Thread, line: Posts, v: View, c: Choice)
    requires th.pc == Posting(line) && Suits(th, c)
    ensures Obeys(GoPost(th, line, v, c).thread, JudgeBy(th, v, c))
  {
    hide Overlay, Text;
  }

  lemma AwakeObeys(th: Thread, line: Awake, v: View, c: Choice)
    requires th.pc == Awaking(line) && Suits(th, c)
    ensures Obeys(GoAwake(th, line, v, c).thread, JudgeBy(th, v, c))
  {
    hide CellOf;
  }

  lemma RouseObeys(th: Thread, line: Rouse, v: View, c: Choice)
    requires th.pc == Rousing(line) && Suits(th, c) && Clean(th, v)
    ensures Obeys(GoRouse(th, line, v, c).thread, JudgeBy(th, v, c))
  {
    hide CellOf;
  }

  lemma DeleteObeys(th: Thread, line: Deletes, v: View, c: Choice)
    requires th.pc == Deleting(line) && !Final(th.pc) && Suits(th, c) && Clean(th, v)
    ensures Obeys(GoDelete(th, line, v, c).thread, JudgeBy(th, v, c))
  {
    hide CellOf;
  }

  lemma MoveObeys(th: Thread, v: View, c: Choice)
    requires !Final(th.pc) && Suits(th, c) && Clean(th, v)
    ensures Obeys(Go(th, v, c).thread, JudgeBy(th, v, c))
  {
    hide GoReceive, GoRenew, GoWait, GoFinish, GoSend, GoPost, GoTell, GoAwake, GoRouse, GoDelete, GoFree, GoExit;
    hide Obeys, JudgeBy, Suits, Clean;
    match th.pc
    case Arriving(line) => ArriveObeys(th, line, v, c);
    case Renewing(line) => RenewObeys(th, line, v, c);
    case Waiting(line) => WaitObeys(th, line, v, c);
    case Sending(line) => SendObeys(th, line, v, c);
    case Posting(line) => PostObeys(th, line, v, c);
    case Awaking(line) => AwakeObeys(th, line, v, c);
    case Rousing(line) => RouseObeys(th, line, v, c);
    case Deleting(line) => DeleteObeys(th, line, v, c);
  }

  lemma StartObeys(th: Thread, v: View, call: Call)
    ensures Obeys(GoStart(th, v, call).thread, if InRange(call) then Open else Closed(EINVAL))
  {}

  // A decided call keeps its fate.
  lemma FateKept(th: Thread, v: View, c: Choice)
    requires Final(th.pc) && !Parted(th.pc)
    ensures var n := Go(th, v, c).thread; Final(n.pc) && Fate(n) == Fate(th)
  {
    hide CellOf, GoReceive, GoWait, GoFinish, GoSend, GoPost, GoAwake, GoRouse, GoExit;
  }

  // ----- steps -----

  lemma SuitsStep(s: State, t: nat, c: Choice)
    requires Enabled(s, t, c) && !c.Start?
    ensures Suits(s.threads[t], c)
  {
    hide Look, Contended, Unblocked, Wants;
  }

  lemma CleanStep(s: State, t: nat)
    requires Safe(s) && t < |s.threads|
    ensures Clean(s.threads[t], Look(s, s.threads[t]))
  {
    var th := s.threads[t];
    LookPtr(s, th);
    OnLevelOf(s, t);
    if Fetching(th.pc) { FetchesThere(s, t); }
    if th.pc.Finishing? { HasPtr(s, t); }
    if th.pc == Waiting(RCopy) { CopiesThere(s, t); }
    if th.pc == Deleting(DPending) { NonePending(s, t); }
    hide Safe, Look, Shape;
  }

  lemma FetchesThere(s: State, t: nat)
    requires Safe(s) && t < |s.threads| && Fetching(s.threads[t].pc)
    ensures Ptr(s, s.threads[t].cell) != NONE
  {
    var th := s.threads[t];
    assert Levelled(s) && Shape(th) && Refers(s, th);
    InOwnTag(s, th);
    hide Safe, Shape, Refers, Below;
  }

  lemma CopiesThere(s: State, t: nat)
    requires Safe(s) && t < |s.threads| && s.threads[t].pc == Waiting(RCopy)
    ensures Look(s, s.threads[t]).data.ready && s.threads[t].rc == 1
  {
    assert Minds(s.threads[t], DataOf(s, s.threads[t].inst), s.log);
    hide Base, Alive, Dutiful;
  }

  // The counters a call looks at are those of its tag and its instance, and count their members.
  lemma CountersSeen(s: State, t: nat)
    requires Safe(s) && t < |s.threads|
    ensures var th, v := s.threads[t], Look(s, s.threads[t]);
            && (th.pc == Sending(SWaiters) || th.pc == Awaking(AWaiters) ==>
                (v.tagWaiting == 0 <==> NobodyCounted(s, th.tag)))
            && (th.pc == Posting(SWaiting) ==> (v.waiting == 0 <==> NobodyWaits(s, th.inst)))
            && (th.pc == Sending(SMutex) ==> (!v.mutexFree <==> MutexTaken(s, th.inst)))
  {
    var th := s.threads[t];
    assert Shape(th) && Refers(s, th);
    Knows(th);
    hide Alive, Told, Dutiful, Referring, Shape, Guarded, Owned, Ranged;
    if 0 <= th.tag < |s.tags| {
      assert Tallied(s.tags[th.tag].members, s.tags[th.tag].waiting, TagCount(th.tag), s.threads);
    }
    if 0 <= th.inst < |s.insts| { assert Synced(s.insts[th.inst].sync, th.inst, s.threads); }
  }

  lemma Knows(th: Thread)
    requires Shape(th)
    ensures th.pc == Sending(SWaiters) || th.pc == Awaking(AWaiters) ==> th.tag >= 0
    ensures th.pc.Posting? || th.pc == Sending(SMutex) ==> th.inst >= 0
  {}

  lemma JudgeSeen(s: State, t: nat, c: Choice)
    requires Safe(s) && t < |s.threads|
    ensures JudgeBy(s.threads[t], Look(s, s.threads[t]), c) == Judge(s, t, c)
  {
    hide Safe, NobodyCounted, NobodyWaits, MutexTaken, InRange;
    CountersSeen(s, t);
  }

  lemma StepObeys(s: State, t: nat, c: Choice)
    requires Safe(s) && Enabled(s, t, c) && !c.Start? && !Final(s.threads[t].pc)
    ensures t < |Step(s, t, c).threads| && Obeys(Step(s, t, c).threads[t], Judge(s, t, c))
  {
    hide Safe, Look, Go, Judge, JudgeBy, Suits, Clean, Contended, Unblocked;
    SuitsStep(s, t, c);
    CleanStep(s, t);
    JudgeSeen(s, t, c);
    MoveObeys(s.threads[t], Look(s, s.threads[t]), c);
    hide NewTagLock, NewTags, NewCells, NewInsts, Hold, Enabled;
  }

  lemma StepKeepsFate(s: State, t: nat, c: Choice)
    requires Safe(s) && Enabled(s, t, c) && !c.Start? && Final(s.threads[t].pc)
    ensures t < |Step(s, t, c).threads|
    ensures var n := Step(s, t, c).threads[t]; Final(n.pc) && Fate(n) == Fate(s.threads[t])
  {
    hide Safe, Look, Go, Contended, Unblocked;
    if Parted(s.threads[t].pc) {
      MoveStands(s, t, c);
    } else {
      FateKept(s.threads[t], Look(s, s.threads[t]), c);
    }
    hide NewTagLock, NewTags, NewCells, NewInsts, Hold, Enabled;
  }

  // A decided call is judged open by nothing that could still happen to it.
  lemma FinalOpen(s: State, t: nat, c: Choice)
    requires Enabled(s, t, c) && !c.Start? && Final(s.threads[t].pc)
    ensures Judge(s, t, c) == Open
  {
    hide Look, Contended, Unblocked;
  }

  // ----- runs -----

  // How step x of the run is judged, if thread t makes it.
  function Judged(states: seq<State>, events: seq<Event>, x: nat, t: nat): Verdict
    requires x < |events| && x < |states|
  {
    if IsOwn(events[x], t) && t < |states[x].threads| then Judge(states[x], t, events[x].choice) else Open
  }

  // Of the steps from j up to k, step y and no other has decided the call of t, with this result.
  ghost predicate DecidedBy(states: seq<State>, events: seq<Event>, j: nat, k: nat, t: nat, y: nat, rc: int)
    requires k <= |events| < |states|
  {
    && j <= y < k && IsOwn(events[y], t) && t < |states[y].threads| && Judged(states, events, y, t) == Closed(rc)
    && forall x :: j <= x < k && x != y ==> Judged(states, events, x, t) == Open
  }

  // Where the call of t stands at state k, by its own steps since j.
  ghost predicate Course(states: seq<State>, events: seq<Event>, j: nat, k: nat, t: nat)
    requires k <= |events| < |states|
  {
    && t < |states[k].threads|
    && var n := states[k].threads[t];
       if Final(n.pc) then exists y :: DecidedBy(states, events, j, k, t, y, Fate(n))
       else forall x :: j <= x < k ==> Judged(states, events, x, t) == Open
  }

  // A call begins at step j, or is under way and not decided yet.
  predicate Undecided(s: State, e: Event, t: nat) {
    t < |s.threads| && (if IsOwn(e, t) && e.choice.Start? then true else !Final(s.threads[t].pc))
  }

  lemma StartStep(s: State, t: nat, c: Choice)
    requires Enabled(s, t, c) && c.Start?
    ensures t < |Step(s, t, c).threads| && Obeys(Step(s, t, c).threads[t], Judge(s, t, c))
  {
    IdleStarts(s.threads[t], Look(s, s.threads[t]), c);
    StartObeys(s.threads[t], Look(s, s.threads[t]), c.call);
    hide Look, Go, GoStart, InRange, NewTagLock, NewTags, NewCells, NewInsts, Hold;
  }

  // One event, for a thread that is not decided before it.
  lemma OpenEvent(s: State, e: Event, t: nat)
    requires Safe(s) && Happens(s, e) && Undecided(s, e, t)
    ensures t < |After(s, e).threads|
    ensures var n := After(s, e).threads[t];
            if IsOwn(e, t) then Obeys(n, Judge(s, t, e.choice)) else !Final(n.pc)
  {
    if IsOwn(e, t) {
      hide Safe, Judge, Obeys, Contended, Unblocked, Step;
      if e.choice.Start? { StartStep(s, t, e.choice); } else { StepObeys(s, t, e.choice); }
    } else {
      OthersMove(s, e, t);
      hide Safe, Happens, After;
    }
  }

  lemma ClosedEvent(s: State, e: Event, t: nat)
    requires Safe(s) && Happens(s, e) && t < |s.threads| && Final(s.threads[t].pc) && !(IsOwn(e, t) && e.choice.Start?)
    ensures t < |After(s, e).threads|
    ensures var n := After(s, e).threads[t]; Final(n.pc) && Fate(n) == Fate(s.threads[t])
    ensures IsOwn(e, t) ==> Judge(s, t, e.choice) == Open
  {
    if IsOwn(e, t) {
      hide Safe, Judge, Contended, Unblocked, Step, Final, Fate;
      StepKeepsFate(s, t, e.choice);
      FinalOpen(s, t, e.choice);
    } else {
      OthersMove(s, e, t);
      hide Safe, Happens, After;
    }
  }

  lemma FirstCourse(states: seq<State>, events: seq<Event>, j: nat, t: nat)
    requires Run(states, events) && j + 1 < |states| && Undecided(states[j], events[j], t)
    ensures Course(states, events, j, j + 1, t)
  {
    hide Safe, Happens, After, Initial, Final, Fate, Judge, Undecided;
    assert t < |states[j].threads| by { InThreads(states[j], events[j], t); }
    AlwaysSafe(states, events, j);
    OpenEvent(states[j], events[j], t);
    var n := states[j + 1].threads[t];
    if Final(n.pc) { assert DecidedBy(states, events, j, j + 1, t, j, Fate(n)); }
  }

  lemma InThreads(s: State, e: Event, t: nat)
    requires Undecided(s, e, t)
    ensures t < |s.threads|
  {}

  lemma NextCourse(states: seq<State>, events: seq<Event>, j: nat, k: nat, t: nat)
    requires Run(states, events) && j < k && k + 1 < |states| && Course(states, events, j, k, t)
    requires !(IsOwn(events[k], t) && events[k].choice.Start?)
    ensures Course(states, events, j, k + 1, t)
  {
    hide Safe, Happens, After, Initial, Final, Fate, Judge;
    AlwaysSafe(states, events, k);
    var a := states[k].threads[t];
    if Final(a.pc) {
      ClosedEvent(states[k], events[k], t);
      var y :| DecidedBy(states, events, j, k, t, y, Fate(a));
      assert DecidedBy(states, events, j, k + 1, t, y, Fate(states[k + 1].threads[t]));
    } else {
      assert Undecided(states[k], events[k], t) by { StillOpen(states[k], events[k], t); }
      OpenEvent(states[k], events[k], t);
      var n := states[k + 1].threads[t];
      if Final(n.pc) { assert DecidedBy(states, events, j, k + 1, t, k, Fate(n)); }
    }
  }

  lemma StillOpen(s: State, e: Event, t: nat)
    requires t < |s.threads| && !Final(s.threads[t].pc)
    ensures Undecided(s, e, t)
  {}

  // A call that is over has been decided by exactly one of its own steps, and returns what the table says
  // of that step; one that is not decided has made only steps that the table leaves open.
  lemma {:induction false} CallDecided(states: seq<State>, events: seq<Event>, j: nat, k: nat, t: nat)
    requires Run(states, events) && j < k < |states| && Undecided(states[j], events[j], t)
    requires SameCallOf(events, j + 1, k, t)
    ensures Course(states, events, j, k, t)
    decreases k
  {
    hide Run, Undecided, Course;
    Length(states, events);
    if k == j + 1 {
      FirstCourse(states, events, j, t);
    } else {
      CallDecided(states, events, j, k - 1, t);
      NextCourse(states, events, j, k - 1, t);
    }
  }

  lemma Length(states: seq<State>, events: seq<Event>)
    requires Run(states, events)
    ensures |states| == |events| + 1
  {}
}
