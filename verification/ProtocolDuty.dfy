// No instance stays occupied with nobody responsible for it: while it is ready, some receiver has still
// to leave it, or the receiver that left last has still to reset or free it.

module Duty {
  import opened Protocol
  import opened Shapes
  import opened Locks
  import opened Refs
  import opened Grace
  import opened Messages

  // Has emptied the instance's count and not yet reset it.
  predicate Closing(th: Thread, i: int) {
    th.pc.Finishing? && !th.pc.finish.RResize? && !th.pc.finish.RUnlock? && th.inst == i
  }

  predicate Trying(th: Thread, i: int) { th.pc == Finishing(RTry) && th.inst == i }

  ghost predicate Attended(s: State, i: int) {
    0 <= i < |s.insts| && (s.insts[i].sync.waiters != {} || exists w :: Valid(s.threads, w) && Closing(s.threads[w], i))
  }

  ghost predicate Watched(s: State, i: int) {
    0 <= i < |s.insts| && (s.insts[i].sync.waiters != {} || exists w :: Valid(s.threads, w) && Trying(s.threads[w], i))
  }

  // Past the check that somebody waits on the instance.
  predicate Promised(pc: PC) { pc == Posting(SCopy) || pc == Posting(SSize) || pc == Posting(SPost) }

  ghost predicate Dutiful(s: State) {
    && (forall i :: 0 <= i < |s.insts| && s.insts[i].data.ready && !s.insts[i].freed ==> Attended(s, i))
    && (forall u :: 0 <= u < |s.threads| && Promised(s.threads[u].pc) ==> Watched(s, s.threads[u].inst))
  }

  // ----- one move -----

  // A finisher goes on with its instance until it has emptied or freed it.
  predicate GoesOnWith(th: Thread, v: View, m: Move) {
    || (m.thread.pc.Finishing? && !m.thread.pc.finish.RResize? && !m.thread.pc.finish.RUnlock?
        && m.thread.inst == th.inst)
    || m.effect == FreeLevel(th.inst) || v.ptr == NONE
    || (m.effect.Write? && !m.effect.data.ready)
  }

  lemma FinishGoesOn(th: Thread, line: Finish, v: View)
    requires th.pc == Finishing(line) && Closing(th, th.inst)
    ensures GoesOnWith(th, v, GoFinish(th, line, v))
    ensures line == RTry && !v.rcuFree ==>
            GoFinish(th, line, v).thread.pc == Finishing(RTry) && GoFinish(th, line, v).thread.inst == th.inst
  {}

  lemma WaitEnds(th: Thread, line: Wait, v: View, c: Choice)
    requires th.pc == Waiting(line)
    ensures var m := GoWait(th, line, v, c); m.effect.Leave? && v.waiting == 1 ==> Trying(m.thread, th.inst)
  {}

  lemma PostPromises(th: Thread, line: Posts, v: View, c: Choice)
    requires th.pc == Posting(line) && Promised(GoPost(th, line, v, c).thread.pc)
    ensures GoPost(th, line, v, c).thread.inst == th.inst && (Promised(th.pc) || v.waiting != 0)
  {}

  // What each kind of thread does next, whatever the step.
  lemma Next(s: State, t: nat, c: Choice)
    requires t < |s.threads| && Traceable(s, s.threads[t], c, MoveOf(s, t, c))
    ensures var th, v, m := s.threads[t], Look(s, s.threads[t]), MoveOf(s, t, c);
            && (Closing(th, th.inst) ==> GoesOnWith(th, v, m))
            && (th.pc == Finishing(RTry) && !v.rcuFree ==> Trying(m.thread, th.inst))
            && (m.effect.Leave? && v.waiting == 1 ==> Trying(m.thread, th.inst))
            && (Promised(m.thread.pc) ==>
                m.thread.inst == th.inst && (Promised(th.pc) || (v.waiting != 0 && th.inst >= 0)))
  {
    var th, v := s.threads[t], Look(s, s.threads[t]);
    Hands(th);
    hide Shape, Legal, Look, GoStart, GoReceive, GoRenew, GoSend, GoPost, GoAwake, GoRouse, GoDelete, GoFree, GoExit,
         GoFinish, GoWait, GoesOnWith;
    match th.pc
    case Finishing(line) => if Closing(th, th.inst) { FinishGoesOn(th, line, v); }
    case Waiting(line) => WaitEnds(th, line, v, c);
    case Posting(line) => if Promised(MoveOf(s, t, c).thread.pc) { PostPromises(th, line, v, c); }
    case _ =>
  }

  // ----- the count of an instance -----

  lemma WaitersKept(s: State, t: nat, m: Move, i: int)
    requires t < |s.threads| && 0 <= i < |s.insts|
    ensures var th, y, s' := s.threads[t], s.insts[i].sync, Apply(s, t, m);
            && i < |s'.insts|
            && s'.insts[i].sync.waiters == (if m.effect.Leave? && th.held.entered == i then y.waiters - {t}
                                            else if m.effect.Enter? && th.inst == i then y.waiters + {t} else y.waiters)
            && (s'.insts[i].freed <==> s.insts[i].freed || m.effect == FreeLevel(i))
  {
    hide NewTags, NewCells, NewData, Hold, Acquired, Released;
  }

  lemma LastOut(who: set<int>, n: int, t: int)
    requires n == |who| && t in who && who - {t} == {}
    ensures n == 1
  {
    assert who == {t};
  }

  // A thread that leaves an instance is counted there, and leaves the one it works on.
  lemma Leaves(s: State, t: nat, c: Choice, m: Move)
    requires Base(s) && t < |s.threads| && Traceable(s, s.threads[t], c, m) && m.effect.Leave?
    ensures var th := s.threads[t];
            && th.held.entered == th.inst && 0 <= th.inst < |s.insts| && t in s.insts[th.inst].sync.waiters
            && s.insts[th.inst].sync.waiting == |s.insts[th.inst].sync.waiters|
  {
    var th := s.threads[t];
    LeavesOwn(th, Look(s, th), c, m);
    hide Traceable, Referring, Guarded, Owned;
    assert Ranged(th.held, |s.tags|, |s.cells|, |s.insts|);
    assert Synced(s.insts[th.inst].sync, th.inst, s.threads);
  }

  lemma LeavesOwn(th: Thread, v: View, c: Choice, m: Move)
    requires Shape(th) && Origin(th, v, c, m) && m.effect.Leave?
    ensures th.held.entered == th.inst >= 0
  {}

  // Either the count stays up, or the last one out is this thread, which goes on to close.
  lemma CountStays(s: State, t: nat, c: Choice, i: int)
    requires Base(s) && t < |s.threads| && Traceable(s, s.threads[t], c, MoveOf(s, t, c))
    requires 0 <= i < |s.insts| && s.insts[i].sync.waiters != {}
    ensures i < |Step(s, t, c).insts| && t < |Step(s, t, c).threads|
    ensures Step(s, t, c).insts[i].sync.waiters != {} || Trying(Step(s, t, c).threads[t], i)
  {
    var th, m := s.threads[t], MoveOf(s, t, c);
    WaitersKept(s, t, m, i);
    Next(s, t, c);
    if m.effect.Leave? {
      Leaves(s, t, c, m);
      if th.inst == i && s.insts[i].sync.waiters - {t} == {} {
        LastOut(s.insts[i].sync.waiters, s.insts[i].sync.waiting, t);
      }
    }
    hide Base, Traceable, Go, NewTagLock, NewTags, NewCells, NewInsts, GoesOnWith, Promised, Closing;
  }

  lemma ReaderBlocks(s: State, u: nat, i: int)
    requires Locked(s) && u < |s.threads| && s.threads[u].held.rcu == i && 0 <= i < |s.insts|
    ensures s.insts[i].sync.rcu != FREE
  {
    hide Tallied, Owned;
    assert Synced(s.insts[i].sync, i, s.threads);
  }

  // While a sender reads the instance, whoever tries to close it keeps trying.
  lemma WatchedKept(s: State, t: nat, c: Choice, i: int, u: nat)
    requires Base(s) && t < |s.threads| && Traceable(s, s.threads[t], c, MoveOf(s, t, c))
    requires Watched(s, i) && u < |s.threads| && s.threads[u].held.rcu == i
    ensures Watched(Step(s, t, c), i)
  {
    var s' := Step(s, t, c);
    Memory(s, t, MoveOf(s, t, c));
    if s.insts[i].sync.waiters != {} {
      CountStays(s, t, c, i);
      if s'.insts[i].sync.waiters == {} { assert Valid(s'.threads, t); }
    } else {
      var w :| Valid(s.threads, w) && Trying(s.threads[w], i);
      ReaderBlocks(s, u, i);
      if w == t { Next(s, t, c); }
      hide Base, Traceable, Go, GoesOnWith, NewTagLock, NewTags, NewCells, NewInsts;
      assert Valid(s'.threads, w) && Trying(s'.threads[w], i);
    }
  }

  lemma HasLevel(s: State, th: Thread)
    requires Shape(th) && Refers(s, th) && Levelled(s) && th.pc.Finishing?
    ensures Ptr(s, th.cell) != NONE
  {
    hide Below;
  }

  // A finisher that moves on its own instance leaves it to nobody while it stays ready and unfreed.
  lemma ClosingKept(s: State, t: nat, c: Choice, i: int)
    requires Base(s) && t < |s.threads| && Traceable(s, s.threads[t], c, MoveOf(s, t, c)) && Closing(s.threads[t], i)
    requires 0 <= i < |s.insts|
    requires var s' := Step(s, t, c); i < |s'.insts| && s'.insts[i].data.ready && !s'.insts[i].freed
    ensures Closing(MoveOf(s, t, c).thread, i)
  {
    var th, m := s.threads[t], MoveOf(s, t, c);
    assert Shape(th) && Refers(s, th) && Levelled(s);
    HasLevel(s, th);
    Next(s, t, c);
    DataKept(s, t, m, i);
    WaitersKept(s, t, m, i);
    hide Base, Shape, Refers, Levelled, Traces, Origin, Legal, Go, Apply;
  }

  // Somebody stays responsible until the instance is emptied or freed.
  lemma AttendedKept(s: State, t: nat, c: Choice, i: int)
    requires Base(s) && t < |s.threads| && Traceable(s, s.threads[t], c, MoveOf(s, t, c)) && Attended(s, i)
    requires var s' := Step(s, t, c); i < |s'.insts| && s'.insts[i].data.ready && !s'.insts[i].freed
    ensures Attended(Step(s, t, c), i)
  {
    hide Base, Traceable, Closing, Go, NewTagLock, NewTags, NewCells, NewInsts;
    var s' := Step(s, t, c);
    if s.insts[i].sync.waiters != {} {
      CountStays(s, t, c, i);
      if s'.insts[i].sync.waiters == {} {
        TryingCloses(s'.threads[t], i);
        assert Valid(s'.threads, t);
      }
    } else {
      var w :| Valid(s.threads, w) && Closing(s.threads[w], i);
      if w == t { ClosingKept(s, t, c, i); }
      SameClosing(MoveOf(s, t, c).thread, i, Hold(s.threads[t], MoveOf(s, t, c).effect));
      assert Valid(s'.threads, w) && Closing(s'.threads[w], i);
    }
  }

  lemma TryingCloses(th: Thread, i: int)
    requires Trying(th, i)
    ensures Closing(th, i)
  {}

  lemma SameClosing(th: Thread, i: int, held: Held)
    ensures Closing(th, i) == Closing(th.(held := held), i)
  {}

  // ----- every step keeps it -----

  lemma Promising(s: State, u: nat)
    requires Base(s) && u < |s.threads| && s.threads[u].pc.Posting?
    ensures var th := s.threads[u]; th.held.rcu == th.inst && 0 <= th.inst < |s.insts|
  {
    assert Shape(s.threads[u]) && Refers(s, s.threads[u]);
    Hands(s.threads[u]);
    hide Locked, Shape, Slotted, Topped, Levelled;
  }

  lemma SeenWaiting(s: State, th: Thread)
    requires Locked(s) && 0 <= th.inst < |s.insts| && Look(s, th).waiting != 0
    ensures Watched(s, th.inst)
  {
    hide Guarded, Owned;
    assert Synced(s.insts[th.inst].sync, th.inst, s.threads);
  }

  lemma BecomesReady(s: State, t: nat, c: Choice, i: int)
    requires Base(s) && Told(s) && Dutiful(s) && Enabled(s, t, c) && Traceable(s, s.threads[t], c, MoveOf(s, t, c))
    requires 0 <= i < |s.insts| && !s.insts[i].data.ready && i < |Step(s, t, c).insts|
    requires Step(s, t, c).insts[i].data.ready
    ensures s.threads[t].pc == Posting(SPost) && s.threads[t].inst == i
  {
    var th, m := s.threads[t], MoveOf(s, t, c);
    DataKept(s, t, m, i);
    SeenHere(s, t, c);
    if !th.pc.Idle? { Carried(th, Look(s, th), c); }
    hide Base, Told, Dutiful, Shape, Traces, Legal, Go, Copies, Remembers, Seen;
  }

  lemma DutyOf(s: State, t: nat, c: Choice, i: int)
    requires Base(s) && Told(s) && Dutiful(s) && Enabled(s, t, c) && Traceable(s, s.threads[t], c, MoveOf(s, t, c))
    requires var s' := Step(s, t, c); 0 <= i < |s'.insts| && s'.insts[i].data.ready && !s'.insts[i].freed
    ensures Attended(Step(s, t, c), i)
  {
    var th, m, s' := s.threads[t], MoveOf(s, t, c), Step(s, t, c);
    Memory(s, t, m);
    NewBlank(s, t, m);
    hide Base, Told, Traceable, Go, Look, Enabled, Attended, Watched;
    if s.insts[i].data.ready {
      WaitersKept(s, t, m, i);
      AttendedKept(s, t, c, i);
    } else {
      BecomesReady(s, t, c, i);
      Promising(s, t);
      WatchedKept(s, t, c, i, t);
      WatchedAttended(s', i);
    }
  }

  lemma NewBlank(s: State, t: nat, m: Move)
    requires t < |s.threads|
    ensures forall i :: |s.insts| <= i < |Apply(s, t, m).insts| ==>
            !Apply(s, t, m).insts[i].freed && !Apply(s, t, m).insts[i].data.ready
  {
    hide NewTags, NewCells, NewInst, Hold;
  }

  lemma WatchedAttended(s: State, i: int)
    requires Watched(s, i)
    ensures Attended(s, i)
  {
    if s.insts[i].sync.waiters == {} {
      var w :| Valid(s.threads, w) && Trying(s.threads[w], i);
      assert Closing(s.threads[w], i);
    }
  }

  lemma PromiseOf(s: State, t: nat, c: Choice, u: nat)
    requires Base(s) && Dutiful(s) && Enabled(s, t, c) && Traceable(s, s.threads[t], c, MoveOf(s, t, c))
    requires u < |s.threads| && Promised(Step(s, t, c).threads[u].pc)
    ensures Watched(Step(s, t, c), Step(s, t, c).threads[u].inst)
  {
    var th, v := s.threads[t], Look(s, s.threads[t]);
    if u != t {
      Promising(s, u);
      hide Base, Traceable, Go, Look, Enabled, Watched;
      WatchedKept(s, t, c, s.threads[u].inst, u);
    } else {
      Next(s, t, c);
      PromiserPosts(s, t, c);
      Promising(s, t);
      if !Promised(th.pc) { SeenWaiting(s, th); }
      hide Base, Traceable, Go, Look, Enabled, Watched, GoesOnWith;
      WatchedKept(s, t, c, th.inst, t);
    }
  }

  lemma PromiserPosts(s: State, t: nat, c: Choice)
    requires t < |s.threads| && Traceable(s, s.threads[t], c, MoveOf(s, t, c)) && Promised(MoveOf(s, t, c).thread.pc)
    ensures s.threads[t].pc.Posting?
  {
    hide Shape, Legal, Origin, Go, Look;
  }

  lemma DutifulKept(s: State, t: nat, c: Choice)
    requires Base(s) && Told(s) && Dutiful(s) && Enabled(s, t, c)
    ensures Dutiful(Step(s, t, c))
  {
    var s' := Step(s, t, c);
    Tracing(s, t, c);
    forall i | 0 <= i < |s'.insts| && s'.insts[i].data.ready && !s'.insts[i].freed ensures Attended(s', i) {
      DutyOf(s, t, c, i);
    }
    forall u | 0 <= u < |s'.threads| && Promised(s'.threads[u].pc) ensures Watched(s', s'.threads[u].inst) {
      PromiseOf(s, t, c, u);
    }
  }

  lemma DutifulCreated(s: State)
    requires Base(s) && Dutiful(s)
    ensures Dutiful(Create(s))
  {
    var s' := Create(s);
    forall i | |s.insts| <= i < |s'.insts| ensures !s'.insts[i].data.ready {
      assert s'.insts[i] == Blank(|s.cells| + (i - |s.insts|), 0);
    }
    forall i | 0 <= i < |s'.insts| && s'.insts[i].data.ready && !s'.insts[i].freed ensures Attended(s', i) {
      assert Attended(s, i);
    }
    forall u | 0 <= u < |s.threads| && Promised(s.threads[u].pc) ensures Watched(s', s.threads[u].inst) {
      assert Watched(s, s.threads[u].inst);
    }
  }
}
