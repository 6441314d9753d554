// Numbers over runs: how many steps a call can take, and who is counted when a tag's flag is cleared.

module Bounds {
  import opened Protocol
  import opened Shapes
  import opened Locks
  import opened Refs
  import opened Messages
  import opened Grace
  import opened Duty
  import opened Runs
  import opened Guarantees
  import opened Outcomes
  import opened Results

  // ----- how far a thread is from the end of its call -----

  const LONGEST: int := 205

  function Rank(th: Thread): int {
    match th.pc
    case Idle => 0
    case Exiting(line) => ExitRank(line)
    case Telling(line) => if line.SUnmutex? then 10 else 9
    case Posting(line) => PostRank(line)
    case Sending(line) => SendRank(line)
    case Finishing(line) => FinishRank(line)
    case Waiting(line) => WaitRank(line)
    case Renewing(line) => RenewRank(line)
    case Arriving(line) => ArriveRank(line)
    case Rousing(line) => RouseRank(line) + 6 * (LEVELS - th.level)
    case Awaking(line) => AwakeRank(line)
    case Freeing(line) => if line.DTag? then 1 else 1 + (LEVELS - th.level)
    case Deleting(line) => DeleteRank(line)
  }

  function ExitRank(line: Exit): int {
    match line
    case UnWrite => 8
    case UnCount => 7
    case UnClear => 6
    case UnLevel => 5
    case UnMutex => 4
    case UnRcu => 3
    case UnTag => 2
    case UnLate => 1
  }

  function PostRank(line: Posts): int {
    match line
    case SReady => 15
    case SWaiting => 14
    case SCopy => 13
    case SSize => 12
    case SPost => 11
  }

  function SendRank(line: Sends): int {
    match line
    case STag => 23
    case SLook => 22
    case SWaiters => 21
    case SLevel => 20
    case SFetch => 19
    case SRcu => 18
    case SUnlevel => 17
    case SMutex => 16
  }

  function FinishRank(line: Finish): int {
    match line
    case RTry => 16
    case RPeek => 15
    case RCompare => 14
    case RRelease => 13
    case RFree => 12
    case RReset => 13
    case RResize => 12
    case RUnlock => 11
  }

  function WaitRank(line: Wait): int {
    match line
    case REnter => 24
    case RWait => 23
    case RSleep => 22
    case RAwake => 21
    case RReady => 20
    case RCopy => 19
    case RLeave => 18
    case RDec => 17
  }

  function RenewRank(line: Renew): int {
    match line
    case RCheck => 33
    case RWrite => 32
    case RRefetch => 31
    case RRecheck => 30
    case RCreate => 29
    case RDrop => 28
    case RJoin => 27
    case RRestore => 26
    case RUnwrite => 25
  }

  function ArriveRank(line: Arrive): int {
    match line
    case RTag => 40
    case RLook => 39
    case RLevel => 38
    case RFetch => 37
    case RCount => 36
    case RRcu => 35
    case RUnlevel => 34
  }

  function RouseRank(line: Rouse): int {
    match line
    case ALevel => 8
    case AFetch => 7
    case ARcu => 6
    case AWake => 5
    case AUnrcu => 4
    case AUnlevel => 3
  }

  function AwakeRank(line: Awake): int {
    match line
    case ATag => 205
    case ALook => 204
    case AReady => 203
    case AWaiters => 202
    case ASet => 201
  }

  function DeleteRank(line: Deletes): int {
    match line
    case DTry => 41
    case DRead => 40
    case DDetach => 39
    case DUnlock => 38
    case DPending => 37
    case DPutBack => 36
    case DClear => 36
    case DRestore => 35
  }

  lemma RankRange(th: Thread)
    requires Shape(th)
    ensures 0 <= Rank(th) <= LONGEST
  {
    hide Working, Leaving, OwnCall;
  }

  // What a step costs beyond the one unit that the rank pays for: a sleeper that is woken goes back one
  // line, and a failed trylock stays where it is.
  function Extra(th: Thread, v: View, c: Choice): nat {
    if th.pc == Waiting(RSleep) && !c.Interrupt? then 2
    else if th.pc == Finishing(RTry) && !v.rcuFree then 1
    else 0
  }

  predicate Descends(th: Thread, v: View, c: Choice, n: Thread) { Rank(n) + 1 <= Rank(th) + Extra(th, v, c) }

  lemma LookNext(th: Thread, v: View, c: Choice, next: PC)
    ensures var n := GoLook(th, v, c, next).thread; (n.pc == Exiting(UnWrite) || n.pc == next) && n.level == th.level
  {
    hide CellOf;
  }

  lemma ArriveDescends(th: Thread, v: View, c: Choice)
    requires th.pc == Arriving(RTag) || th.pc == Arriving(RLook) || th.pc == Arriving(RLevel)
    ensures Descends(th, v, c, Go(th, v, c).thread)
  {
    LookNext(th, v, c, Arriving(RLevel));
    hide GoLook, At, CellOf, Prefix, Min, Size, GoRenew, GoWait, GoFinish, GoSend, GoPost, GoTell, GoAwake, GoRouse,
         GoDelete, GoFree, GoExit, GoStart, PostRank, SendRank, FinishRank, WaitRank, RouseRank, AwakeRank,
         DeleteRank;
  }

  lemma JoinDescends(th: Thread, v: View, c: Choice)
    requires th.pc.Arriving? && !th.pc.arrive.RTag? && !th.pc.arrive.RLook? && !th.pc.arrive.RLevel?
    ensures Descends(th, v, c, Go(th, v, c).thread)
  {
    hide GoLook, At, CellOf, Prefix, Min, Size, GoRenew, GoWait, GoFinish, GoSend, GoPost, GoTell, GoAwake, GoRouse,
         GoDelete, GoFree, GoExit, GoStart, PostRank, SendRank, FinishRank, WaitRank, RouseRank, AwakeRank,
         DeleteRank;
  }

  lemma RenewDescends(th: Thread, v: View, c: Choice)
    requires th.pc.Renewing?
    ensures Descends(th, v, c, Go(th, v, c).thread)
  {
    hide CellOf, Prefix, Min, Size, GoReceive, GoWait, GoFinish, GoSend, GoPost, GoTell, GoAwake, GoRouse, GoDelete,
         GoFree, GoExit, GoStart, PostRank, SendRank, FinishRank, ArriveRank, RouseRank, AwakeRank, DeleteRank;
  }

  lemma WaitDescends(th: Thread, v: View, c: Choice)
    requires th.pc.Waiting?
    ensures Descends(th, v, c, Go(th, v, c).thread)
  {
    hide CellOf, Prefix, Min, Size, GoReceive, GoRenew, GoFinish, GoSend, GoPost, GoTell, GoAwake, GoRouse, GoDelete,
         GoFree, GoExit, GoStart, PostRank, SendRank, RenewRank, ArriveRank, RouseRank, AwakeRank, DeleteRank;
  }

  lemma FinishDescends(th: Thread, v: View, c: Choice)
    requires th.pc.Finishing?
    ensures Descends(th, v, c, Go(th, v, c).thread)
  {
    hide CellOf, Prefix, Min, Size, GoReceive, GoRenew, GoWait, GoSend, GoPost, GoTell, GoAwake, GoRouse, GoDelete,
         GoFree, GoExit, GoStart, PostRank, SendRank, WaitRank, RenewRank, ArriveRank, RouseRank, AwakeRank,
         DeleteRank;
  }

  lemma SendDescends(th: Thread, v: View, c: Choice)
    requires th.pc == Sending(STag) || th.pc == Sending(SLook) || th.pc == Sending(SWaiters)
    ensures Descends(th, v, c, Go(th, v, c).thread)
  {
    LookNext(th, v, c, Sending(SWaiters));
    hide GoLook, At, CellOf, Overlay, Text, GoReceive, GoRenew, GoWait, GoFinish, GoPost, GoTell, GoAwake, GoRouse,
         GoDelete, GoFree, GoExit, GoStart, FinishRank, WaitRank, RenewRank, ArriveRank, RouseRank, AwakeRank,
         DeleteRank;
  }

  lemma MutexDescends(th: Thread, v: View, c: Choice)
    requires th.pc.Sending? && !th.pc.send.STag? && !th.pc.send.SLook? && !th.pc.send.SWaiters?
    ensures Descends(th, v, c, Go(th, v, c).thread)
  {
    hide GoLook, At, CellOf, Overlay, Text, GoReceive, GoRenew, GoWait, GoFinish, GoPost, GoTell, GoAwake, GoRouse,
         GoDelete, GoFree, GoExit, GoStart, FinishRank, WaitRank, RenewRank, ArriveRank, RouseRank, AwakeRank,
         DeleteRank;
  }

  lemma PostDescends(th: Thread, v: View, c: Choice)
    requires th.pc.Posting? || th.pc.Telling?
    ensures Descends(th, v, c, Go(th, v, c).thread)
  {
    hide CellOf, Overlay, Text, GoReceive, GoRenew, GoWait, GoFinish, GoSend, GoAwake, GoRouse, GoDelete, GoFree,
         GoExit, GoStart, SendRank, FinishRank, WaitRank, RenewRank, ArriveRank, RouseRank, AwakeRank, DeleteRank;
  }

  lemma ExitDescends(th: Thread, v: View, c: Choice)
    requires th.pc.Exiting?
    ensures Descends(th, v, c, Go(th, v, c).thread)
  {
    hide CellOf, GoReceive, GoRenew, GoWait, GoFinish, GoSend, GoPost, GoTell, GoAwake, GoRouse, GoDelete, GoFree,
         GoStart, PostRank, SendRank, FinishRank, WaitRank, RenewRank, ArriveRank, RouseRank, AwakeRank, DeleteRank;
  }

  lemma AwakeDescends(th: Thread, v: View, c: Choice)
    requires th.pc.Awaking? && 0 <= th.level < LEVELS
    ensures Descends(th, v, c, Go(th, v, c).thread)
  {
    LookNext(th, v, c, Awaking(AReady));
    hide GoLook, At, GoRouse, CellOf, GoReceive, GoRenew, GoWait, GoFinish, GoSend, GoPost, GoTell, GoDelete, GoFree,
         GoExit, GoStart, PostRank, SendRank, FinishRank, WaitRank, RenewRank, ArriveRank, DeleteRank;
  }

  lemma RouseDescends(th: Thread, v: View, c: Choice)
    requires th.pc.Rousing? && 0 <= th.level < LEVELS
    ensures Descends(th, v, c, Go(th, v, c).thread)
  {
    hide GoLook, GoAwake, AwakeRank, CellOf, GoReceive, GoRenew, GoWait, GoFinish, GoSend, GoPost, GoTell, GoDelete,
         GoFree, GoExit, GoStart, PostRank, SendRank, FinishRank, WaitRank, RenewRank, ArriveRank, DeleteRank;
  }

  lemma DeleteDescends(th: Thread, v: View, c: Choice)
    requires th.pc.Deleting? && 0 <= th.level < LEVELS
    ensures Descends(th, v, c, Go(th, v, c).thread)
  {
    LookNext(th, v, c, Deleting(DDetach));
    hide GoLook, CellOf, GoReceive, GoRenew, GoWait, GoFinish, GoSend, GoPost, GoTell, GoAwake, GoRouse, GoExit,
         GoStart, PostRank, SendRank, FinishRank, WaitRank, RenewRank, ArriveRank, RouseRank, AwakeRank;
  }

  lemma FreeDescends(th: Thread, v: View, c: Choice)
    requires th.pc.Freeing? && 0 <= th.level < LEVELS
    ensures Descends(th, v, c, Go(th, v, c).thread)
  {
    hide GoLook, CellOf, GoReceive, GoRenew, GoWait, GoFinish, GoSend, GoPost, GoTell, GoAwake, GoRouse, GoExit,
         GoStart, PostRank, SendRank, FinishRank, WaitRank, RenewRank, ArriveRank, RouseRank, AwakeRank;
  }

  lemma MoveDescends(th: Thread, v: View, c: Choice)
    requires !th.pc.Idle? && 0 <= th.level < LEVELS
    ensures Descends(th, v, c, Go(th, v, c).thread)
  {
    hide Go, Descends;
    match th.pc
    case Arriving(line) =>
      if line.RTag? || line.RLook? || line.RLevel? { ArriveDescends(th, v, c); } else { JoinDescends(th, v, c); }
    case Renewing(_) => RenewDescends(th, v, c);
    case Waiting(_) => WaitDescends(th, v, c);
    case Finishing(_) => FinishDescends(th, v, c);
    case Sending(line) =>
      if line.STag? || line.SLook? || line.SWaiters? { SendDescends(th, v, c); } else { MutexDescends(th, v, c); }
    case Posting(_) => PostDescends(th, v, c);
    case Telling(_) => PostDescends(th, v, c);
    case Exiting(_) => ExitDescends(th, v, c);
    case Awaking(_) => AwakeDescends(th, v, c);
    case Rousing(_) => RouseDescends(th, v, c);
    case Deleting(_) => DeleteDescends(th, v, c);
    case Freeing(_) => FreeDescends(th, v, c);
  }

  lemma StepDescends(s: State, t: nat, c: Choice)
    requires Safe(s) && Enabled(s, t, c) && !c.Start?
    ensures t < |Step(s, t, c).threads|
    ensures Descends(s.threads[t], Look(s, s.threads[t]), c, Step(s, t, c).threads[t])
  {
    hide Safe, Look, Contended, Unblocked, Go, Rank, Extra;
    NotIdle(s, t, c);
    OnLevelOf(s, t);
    MoveDescends(s.threads[t], Look(s, s.threads[t]), c);
    RankHeld(MoveOf(s, t, c).thread, Hold(s.threads[t], MoveOf(s, t, c).effect));
    hide NewTagLock, NewTags, NewCells, NewInsts, Hold, Enabled;
  }

  lemma RankHeld(th: Thread, held: Held)
    ensures Rank(th.(held := held)) == Rank(th)
  {}

  lemma OnLevelOf(s: State, t: nat)
    requires Safe(s) && t < |s.threads|
    ensures 0 <= s.threads[t].level < LEVELS && Shape(s.threads[t])
  {
    assert Shape(s.threads[t]);
    hide Safe, OwnCall, Working, Leaving;
  }

  // ----- a call ends -----

  predicate IsOwn(e: Event, t: nat) { e.Steps? && e.thread == t }

  // The steps of thread t from state j to state k.
  function OwnSteps(events: seq<Event>, j: nat, k: nat, t: nat): nat
    requires j <= k <= |events|
    decreases k
  {
    if j == k then 0 else OwnSteps(events, j, k - 1, t) + (if IsOwn(events[k - 1], t) then 1 else 0)
  }

  function ExtraOf(s: State, e: Event, t: nat): nat {
    if IsOwn(e, t) && t < |s.threads| then Extra(s.threads[t], Look(s, s.threads[t]), e.choice) else 0
  }

  // Two for each time thread t is woken, one for each of its failed trylocks.
  function Extras(states: seq<State>, events: seq<Event>, j: nat, k: nat, t: nat): nat
    requires j <= k <= |events| < |states|
    decreases k
  {
    if j == k then 0 else Extras(states, events, j, k - 1, t) + ExtraOf(states[k - 1], events[k - 1], t)
  }

  lemma EventDescends(s: State, e: Event, t: nat)
    requires Safe(s) && Happens(s, e) && t < |s.threads| && !(IsOwn(e, t) && e.choice.Start?)
    ensures t < |After(s, e).threads|
    ensures Rank(After(s, e).threads[t]) + (if IsOwn(e, t) then 1 else 0) <= Rank(s.threads[t]) + ExtraOf(s, e, t)
  {
    hide Safe, Enabled, MayCreate, Rank, Extra, Look;
    if e.Steps? {
      SameThreads(s, e.thread, e.choice);
      if e.thread == t { StepDescends(s, t, e.choice); }
      hide Step;
    }
  }

  lemma {:induction false} RankPays(states: seq<State>, events: seq<Event>, j: nat, k: nat, t: nat)
    requires Run(states, events) && j <= k < |states| && t < |states[j].threads| && SameCallOf(events, j, k, t)
    ensures t < |states[k].threads|
    ensures OwnSteps(events, j, k, t) + Rank(states[k].threads[t])
            <= Rank(states[j].threads[t]) + Extras(states, events, j, k, t)
    decreases k
  {
    hide Safe, Happens, After, Initial, Rank, ExtraOf;
    if j < k {
      RankPays(states, events, j, k - 1, t);
      AlwaysSafe(states, events, k - 1);
      EventDescends(states[k - 1], events[k - 1], t);
    }
  }

  // However the threads interleave, a call takes at most 206 steps of its own, two more for each time it
  // is woken and one more for each trylock of the last receiver that fails.
  lemma CallEnds(states: seq<State>, events: seq<Event>, j: nat, k: nat, t: nat, call: Call)
    requires Run(states, events) && j < k < |states| && events[j] == Steps(t, Start(call))
    requires SameCallOf(events, j + 1, k, t)
    ensures OwnSteps(events, j, k, t) <= 1 + LONGEST + Extras(states, events, j + 1, k, t)
  {
    hide Safe, Happens, After, Initial, Rank, ExtraOf;
    EventAt(states, events, j);
    AlwaysSafe(states, events, j + 1);
    AlwaysSafe(states, events, k);
    Starting(states[j], t, call);
    RankPays(states, events, j + 1, k, t);
    RankBetween(states[j + 1], t);
    RankBetween(states[k], t);
    FirstStep(events, j, k, t);
  }

  lemma Starting(s: State, t: nat, call: Call)
    requires Happens(s, Steps(t, Start(call)))
    ensures t < |After(s, Steps(t, Start(call))).threads|
  {
    SameThreads(s, t, Start(call));
  }

  lemma RankBetween(s: State, t: nat)
    requires Safe(s) && t < |s.threads|
    ensures 0 <= Rank(s.threads[t]) <= LONGEST
  {
    hide Safe, Rank;
    OnLevelOf(s, t);
    RankRange(s.threads[t]);
  }

  lemma {:induction false} FirstStep(events: seq<Event>, j: nat, k: nat, t: nat)
    requires j < k <= |events|
    ensures OwnSteps(events, j, k, t) == (if IsOwn(events[j], t) then 1 else 0) + OwnSteps(events, j + 1, k, t)
    decreases k
  {
    if j + 1 < k { FirstStep(events, j, k - 1, t); }
  }

  // ----- who is counted when the flag is cleared -----

  // What an event adds to the counter of tag k.
  function Counted(s: State, e: Event, k: int): int {
    if e.Steps? && e.thread < |s.threads| && s.threads[e.thread].tag == k
    then if s.threads[e.thread].pc == Arriving(RCount) then 1
         else if s.threads[e.thread].pc == Exiting(UnCount) && s.threads[e.thread].held.counted != NONE then -1
         else 0
    else 0
  }

  // Receives that have counted themselves in less those that have counted themselves out.
  function Net(states: seq<State>, events: seq<Event>, j: nat, x: nat, k: int): int
    requires j <= x <= |events| < |states|
    decreases x
  {
    if j == x then 0 else Net(states, events, j, x - 1, k) + Counted(states[x - 1], events[x - 1], k)
  }

  lemma CountLines(th: Thread, v: View, c: Choice)
    ensures th.pc == Arriving(RCount) ==> Go(th, v, c).effect.Count?
    ensures th.pc == Exiting(UnCount) ==> (Go(th, v, c).effect.Uncount? <==> th.held.counted != NONE)
  {
    hide GoStart, GoRenew, GoWait, GoFinish, GoSend, GoPost, GoTell, GoAwake, GoRouse, GoDelete, GoFree, CellOf;
  }

  lemma CountFrom(th: Thread, v: View, c: Choice, m: Move)
    requires Origin(th, v, c, m)
    ensures m.effect.Count? ==> th.pc == Arriving(RCount)
    ensures m.effect.Uncount? ==> th.pc == Exiting(UnCount)
  {}

  lemma WaitingKept(s: State, t: nat, m: Move, k: int)
    requires t < |s.threads| && 0 <= k < |s.tags|
    ensures var s', own := Apply(s, t, m), s.threads[t].tag == k;
            k < |s'.tags| &&
            s'.tags[k].waiting == s.tags[k].waiting + (if own && m.effect.Count? then 1
                                                       else if own && m.effect.Uncount? then -1 else 0)
  {
    hide NewCells, NewInsts, Hold, NewTagLock;
  }

  lemma CounterMoves(s: State, e: Event, k: nat)
    requires Safe(s) && Happens(s, e) && k < |s.tags|
    ensures k < |After(s, e).tags| && After(s, e).tags[k].waiting == s.tags[k].waiting + Counted(s, e, k)
  {
    if e.Steps? {
      var t, c := e.thread, e.choice;
      hide Base, Alive, Told, Dutiful, Look, Contended, Unblocked, Go, Apply;
      BaseParts(s);
      Tracing(s, t, c);
      CountLines(s.threads[t], Look(s, s.threads[t]), c);
      CountFrom(s.threads[t], Look(s, s.threads[t]), c, MoveOf(s, t, c));
      WaitingKept(s, t, MoveOf(s, t, c), k);
      hide Safe, Traceable;
    }
  }

  lemma {:induction false} CounterIsNet(states: seq<State>, events: seq<Event>, j: nat, x: nat, k: nat)
    requires Run(states, events) && j <= x < |states| && k < |states[j].tags|
    ensures k < |states[x].tags|
    ensures states[x].tags[k].waiting == states[j].tags[k].waiting + Net(states, events, j, x, k)
    decreases x
  {
    hide Safe, Happens, After, Initial, Counted;
    if j < x {
      CounterIsNet(states, events, j, x - 1, k);
      AlwaysSafe(states, events, x - 1);
      CounterMoves(states[x - 1], events[x - 1], k);
    }
  }

  lemma OthersMove(s: State, e: Event, t: nat)
    requires Happens(s, e) && t < |s.threads| && !IsOwn(e, t)
    ensures t < |After(s, e).threads| && After(s, e).threads[t] == s.threads[t]
  {
    if e.Steps? { SameThreads(s, e.thread, e.choice); }
    hide Step;
  }

  lemma {:induction false} StandsStill(states: seq<State>, events: seq<Event>, j: nat, x: nat, t: nat)
    requires Run(states, events) && j <= x < |states| && t < |states[j].threads|
    requires forall y :: j <= y < x ==> !IsOwn(events[y], t)
    ensures t < |states[x].threads| && states[x].threads[t] == states[j].threads[t]
    decreases x
  {
    hide Happens, After, Initial;
    if j < x {
      StandsStill(states, events, j, x - 1, t);
      OthersMove(states[x - 1], events[x - 1], t);
    }
  }

  lemma UncountLine(th: Thread, v: View, c: Choice)
    requires th.pc == Exiting(UnCount) && Go(th, v, c).thread.pc == Exiting(UnClear)
    ensures var n := Go(th, v, c).thread; th.held.counted != NONE && (n.zero <==> v.tagWaiting == 1) && n.tag == th.tag
  {}

  // A receiver clears the flag exactly if its own decrement has emptied the counter.
  lemma EmptiesCounter(s: State, e: Event, t: nat)
    requires Safe(s) && Happens(s, e) && IsOwn(e, t) && t < |s.threads| && s.threads[t].pc == Exiting(UnCount)
    requires t < |After(s, e).threads| && After(s, e).threads[t].pc == Exiting(UnClear)
    ensures var k := s.threads[t].tag;
            && 0 <= k < |s.tags| && After(s, e).threads[t].tag == k && k < |After(s, e).tags|
            && (After(s, e).threads[t].zero <==> s.tags[k].waiting == 1)
            && After(s, e).tags[k].waiting == s.tags[k].waiting - 1
  {
    hide Safe, Contended, Unblocked, Step, Counted;
    LeavesCount(s, t, e.choice);
    CounterMoves(s, e, s.threads[t].tag);
    CountsOut(s, e, t);
  }

  lemma CountsOut(s: State, e: Event, t: nat)
    requires IsOwn(e, t) && t < |s.threads| && s.threads[t].pc == Exiting(UnCount) && s.threads[t].held.counted != NONE
    ensures Counted(s, e, s.threads[t].tag) == -1
  {}

  lemma LeavesCount(s: State, t: nat, c: Choice)
    requires Safe(s) && Enabled(s, t, c) && s.threads[t].pc == Exiting(UnCount)
    requires Step(s, t, c).threads[t].pc == Exiting(UnClear)
    ensures var th, k := s.threads[t], s.threads[t].tag;
            && th.held.counted != NONE && 0 <= k < |s.tags| && Step(s, t, c).threads[t].tag == k
            && (Step(s, t, c).threads[t].zero <==> s.tags[k].waiting == 1)
  {
    hide Safe, Contended, Unblocked, Go, NewTagLock, NewTags, NewCells, NewInsts, Hold;
    UncountLine(s.threads[t], Look(s, s.threads[t]), c);
    CountedTag(s, t);
    hide Enabled;
  }

  lemma CountedTag(s: State, t: nat)
    requires Safe(s) && t < |s.threads| && s.threads[t].held.counted != NONE
    ensures 0 <= s.threads[t].tag < |s.tags|
  {
    assert Shape(s.threads[t]);
    HoldsInTag(s.threads[t]);
    PlacedHere(s, t);
    hide Safe, Shape;
  }

  // Members and counter agree.
  lemma MembersCounted(s: State, k: nat)
    requires Safe(s) && k < |s.tags|
    ensures s.tags[k].members != {} <==> s.tags[k].waiting > 0
  {
    hide Alive, Told, Dutiful, Referring, Guarded, Synced, Ranged;
    var who := s.tags[k].members;
    assert Tallied(who, s.tags[k].waiting, TagCount(k), s.threads);
  }

  lemma Clearing(s: State, e: Event, t: nat)
    requires Reachable(s) && Happens(s, e) && IsOwn(e, t) && t < |s.threads| && s.threads[t].pc == Exiting(UnClear)
    requires 0 <= s.threads[t].tag < |s.tags|
    ensures var k := s.threads[t].tag;
            && k < |After(s, e).tags| && After(s, e).tags[k].waiting == s.tags[k].waiting
            && (After(s, e).tags[k].ready <==> s.tags[k].ready && !s.threads[t].zero)
  {
    FlagMoves(s, e, s.threads[t].tag);
    ReachableSafe(s);
    CounterMoves(s, e, s.threads[t].tag);
    hide Safe, Reachable, Happens, After;
  }

  // Counting itself out at step j and clearing the flag at step x are two lines. The flag is taken away
  // exactly if the decrement was that of the last one counted; and it is taken away with somebody counted
  // exactly if, in between, more receives have counted themselves in than out.
  lemma LateClearing(states: seq<State>, events: seq<Event>, j: nat, x: nat, t: nat)
    requires Run(states, events) && j < x && x + 1 < |states| && IsOwn(events[j], t) && IsOwn(events[x], t)
    requires forall y :: j < y < x ==> !IsOwn(events[y], t)
    requires t < |states[j].threads| && states[j].threads[t].pc == Exiting(UnCount)
    requires t < |states[x].threads| && states[x].threads[t].pc == Exiting(UnClear)
    ensures var k := states[x].threads[t].tag;
            && 0 <= k < |states[j].tags| && k < |states[x].tags| && k < |states[x + 1].tags|
            && (states[x + 1].tags[k].ready <==> states[x].tags[k].ready && states[j].tags[k].waiting != 1)
            && (states[j].tags[k].waiting == 1 ==>
                (states[x + 1].tags[k].members != {} <==> Net(states, events, j + 1, x, k) > 0))
  {
    hide Safe, Happens, After, Initial, Reachable;
    AlwaysSafe(states, events, j);
    AlwaysSafe(states, events, x + 1);
    EventAt(states, events, j);
    EventAt(states, events, x);
    Prefixes(states, events, x);
    assert t < |states[j + 1].threads| by { Lasts(states[j], events[j], t); }
    StandsStill(states, events, j + 1, x, t);
    EmptiesCounter(states[j], events[j], t);
    var k := states[x].threads[t].tag;
    CounterIsNet(states, events, j + 1, x, k);
    Clearing(states[x], events[x], t);
    MembersCounted(states[x + 1], k);
  }

  lemma Lasts(s: State, e: Event, t: nat)
    requires Happens(s, e) && t < |s.threads|
    ensures t < |After(s, e).threads|
  {
    if e.Steps? { SameThreads(s, e.thread, e.choice); }
    hide Step;
  }
}
