// What the threads' pointers point to: the tag in tags[], the published instance of a level, and
// instances of their own level only; and that published epochs only grow.

module Refs {
  import opened Protocol
  import opened Shapes
  import opened Locks

  function Ptr(s: State, c: int): int { if 0 <= c < |s.cells| then s.cells[c].ptr else NONE }

  // An instance number, if any, is one of this level.
  predicate Sited(s: State, x: int, cell: int) {
    x == NONE || (0 <= x < |s.insts| && s.insts[x].cell == cell)
  }

  // Holds the level lock and has fetched the published instance under it.
  predicate AtTop(pc: PC) {
    match pc
    case Arriving(line) => line.RCount? || line.RRcu? || line.RUnlevel?
    case Renewing(line) => line.RRecheck? || line.RCreate? || line.RDrop? || line.RJoin? || line.RUnwrite?
    case Sending(line) => line.SRcu? || line.SUnlevel?
    case Rousing(line) => line.ARcu? || line.AWake? || line.AUnrcu?
    case _ => false
  }

  // Reads the published instance under the level lock.
  predicate Fetching(pc: PC) {
    pc == Arriving(RFetch) || pc == Renewing(RRefetch) || pc == Sending(SFetch) || pc == Rousing(AFetch)
  }

  predicate Placed(s: State, th: Thread) {
    && th.tag < |s.tags| && th.cell < |s.cells|
    && Sited(s, th.inst, th.cell) && Sited(s, th.temp, th.cell) && Sited(s, th.base, th.cell)
       && Sited(s, th.cur, th.cell)
  }

  // Whoever reads a tag under the tag lock reads the one in tags[]; a deleter's is not there any more.
  predicate Slotted(s: State, th: Thread) {
    && (th.held.tagR && th.tag != NONE ==> th.tag == s.slot)
    && (th.pc == Deleting(DDetach) ==> th.tag == s.slot)
    && (Detached(th.pc) ==> s.slot == NONE)
    && (th.pc.Freeing? ==> th.tag != s.slot)
  }

  predicate Topped(s: State, th: Thread) {
    && (AtTop(th.pc) ==> th.inst == Ptr(s, th.cell))
    && (th.pc == Renewing(RRecheck) || th.pc == Renewing(RCreate) ==> th.base == th.inst)
    && (th.pc == Renewing(RRestore) ==> th.base == Ptr(s, th.cell))
  }

  predicate Refers(s: State, th: Thread) { Placed(s, th) && Slotted(s, th) && Topped(s, th) }

  // Instances belong to levels of known tags; each level's published instance has its highest epoch.
  predicate Levelled(s: State) {
    && NONE <= s.slot < |s.tags| && |s.cells| == LEVELS * |s.tags|
    && (forall c :: 0 <= c < |s.cells| ==> 0 <= s.cells[c].ptr < |s.insts| && s.insts[s.cells[c].ptr].cell == c)
    && (forall i :: 0 <= i < |s.insts| ==> Below(s, i))
  }

  predicate Below(s: State, i: int) {
    0 <= i < |s.insts| && 0 <= s.insts[i].cell < |s.cells| &&
    var p := s.cells[s.insts[i].cell].ptr;
    p == i || (0 <= p < |s.insts| && s.insts[i].epoch < s.insts[p].epoch)
  }

  // A new instance is known to its creator alone until it has joined it.
  predicate Private(th: Thread) {
    (th.pc == Renewing(RDrop) || th.pc == Renewing(RJoin)) && th.inst != th.base
  }

  // What two threads can never be at once.
  predicate Apart(a: Thread, b: Thread) {
    && !(Detached(a.pc) && Detached(b.pc))
    && (a.pc.Freeing? ==> b.tag != a.tag)
    && (Private(a) ==> b.inst != a.inst)
  }

  ghost predicate Referring(s: State) {
    && Levelled(s)
    && (forall u :: 0 <= u < |s.threads| ==> Shape(s.threads[u]))
    && (forall u :: 0 <= u < |s.threads| ==> Refers(s, s.threads[u]))
    && (forall u, w :: 0 <= u < |s.threads| && 0 <= w < |s.threads| && u != w ==> Apart(s.threads[u], s.threads[w]))
  }

  lemma LookSound(s: State, th: Thread)
    requires Levelled(s)
    ensures Sound(Look(s, th))
  {}

  // ----- what a step does to its own pointers -----

  // Where a move takes its pointers from, and on which lines it goes to.
  predicate Traces(th: Thread, v: View, m: Move) {
    var n := m.thread;
    && (n.inst == th.inst || n.inst == NONE || (n.inst == v.ptr && Fetching(th.pc)) || m.effect.Publish?)
    && (n.temp == th.temp || n.temp == th.inst || n.temp == NONE)
    && (n.base == th.base || n.base == v.ptr || n.base == NONE)
    && (n.cur == th.cur || n.cur == v.ptr || n.cur == NONE)
    && (n.tag == th.tag || n.tag == NONE || n.tag == v.slot)
    && (n.cell == th.cell
        || (n.inst == NONE && n.temp == NONE && n.base == NONE && n.cur == NONE && (n.tag != NONE || n.cell == NONE)))
    && (AtTop(n.pc) ==>
        (AtTop(th.pc) && n.inst == th.inst) || (n.inst == v.ptr && Fetching(th.pc)) || m.effect.Publish?)
    && (n.pc == Renewing(RRecheck) || n.pc == Renewing(RCreate) ==> n.base == n.inst)
    && (Private(n) ==> (Private(th) && n.inst == th.inst) || m.effect.Publish?)
    && (n.pc == Renewing(RRestore) ==> th.pc == Renewing(RJoin) && n.inst == th.inst && n.base == th.base)
    && (n.pc == Deleting(DDetach) ==> n.tag == v.slot && m.effect.Quiet?)
    && (Detached(n.pc) ==> Detached(th.pc) || (th.pc == Deleting(DDetach) && m.effect == SetSlot(NONE)))
    && (n.pc.Freeing? ==> n.tag == th.tag && (th.pc.Freeing? || th.pc == Deleting(DClear)))
    && Follows(th.pc, n.pc)
  }

  // Which part of a call follows which.
  predicate Follows(pc: PC, next: PC) {
    && (next.Renewing? ==> pc.Renewing? || (pc == Arriving(RUnlevel) && next == Renewing(RCheck)))
    && (next.Waiting? ==> pc.Waiting? || (pc.Renewing? && next == Waiting(REnter)))
    && (next.Finishing? ==> pc.Finishing? || (pc == Waiting(RDec) && next == Finishing(RTry)))
    && (next.Posting? ==> pc.Posting? || (pc == Sending(SMutex) && next == Posting(SReady)))
    && (next.Telling? ==> pc.Telling? || (pc == Posting(SPost) && next == Telling(SUnmutex)))
    && (next.Deleting? ==> pc.Deleting? || pc.Idle?)
  }

  predicate Outside(pc: PC) {
    pc == Arriving(RTag) || pc == Sending(STag) || pc == Awaking(ATag)
  }

  predicate Nearing(pc: PC) {
    pc == Arriving(RLevel) || pc == Sending(SLevel) || pc == Rousing(ALevel)
  }

  predicate Joining(pc: PC) {
    pc == Arriving(RRcu) || pc == Sending(SRcu) || pc == Rousing(ARcu) || pc == Renewing(RJoin)
  }

  // On which lines the effects on the slot, the pointers and the freed flags come.
  predicate Origin(th: Thread, v: View, c: Choice, m: Move) {
    match m.effect
    case LockTag(write) => if write then th.pc == Deleting(DTry) && v.tagFree else Outside(th.pc) && !c.Interrupt?
    case LockLevel(write) => !c.Interrupt? && if write then th.pc == Renewing(RWrite) else Nearing(th.pc)
    case LockRcu(write) => if write then th.pc == Finishing(RTry) && v.rcuFree else Joining(th.pc) && !c.Interrupt?
    case TakeMutex => v.mutexFree
    case Count => th.pc == Arriving(RCount)
    case Uncount => th.pc == Exiting(UnCount)
    case Enter => th.pc == Waiting(REnter)
    case Publish => th.pc == Renewing(RCreate) && m.thread.inst == v.next
    case Restore => th.pc == Renewing(RRestore)
    case SetSlot(x) =>
      if th.pc == Deleting(DDetach) then x == NONE
      else (th.pc == Deleting(DPutBack) || th.pc == Deleting(DRestore)) && x == th.tag && m.thread.pc.Idle?
    case FreeLevel(x) => (th.pc == Finishing(RFree) && x == th.inst) || (th.pc == Freeing(DLevels) && x == v.ptr)
    case FreeTag => th.pc == Freeing(DTag)
    case Write(_) => th.pc.Posting? || th.pc == Finishing(RReset) || th.pc == Finishing(RResize)
    case Announce => th.pc == Posting(SPost)
    case Leave => th.pc == Waiting(RDec)
    case Sleep => th.pc == Waiting(RWait) && m.thread.pc == Waiting(RSleep) && m.thread.inst == th.inst
    case Unqueue => th.pc == Waiting(RSleep)
    case WakeAll => th.pc == Telling(SWake) || th.pc == Rousing(AWake)
    case Abandon => th.pc.Rousing? && m.thread.pc.Exiting?
    case Flag(on) => if on then th.pc == Awaking(ASet) else th.pc == Exiting(UnClear) && th.zero
    case _ => true
  }

  predicate Based(th: Thread) {
    && (th.pc == Renewing(RRecheck) || th.pc == Renewing(RCreate) ==> th.base == th.inst)
    && (th.pc.Rousing? || th.pc.Freeing? ==> th.tag != NONE)
  }

  lemma TraceReceive(th: Thread, line: Arrive, v: View, c: Choice)
    requires th.pc == Arriving(line) && (line.RTag? || line.RLook? || line.RLevel? || line.RFetch?) && Based(th)
    ensures var m := GoReceive(th, line, v, c); Traces(th, v, m) && Origin(th, v, c, m)
  {
    hide CellOf;
  }

  lemma TraceReceiveOn(th: Thread, line: Arrive, v: View, c: Choice)
    requires th.pc == Arriving(line) && (line.RCount? || line.RRcu? || line.RUnlevel?) && Based(th)
    ensures var m := GoReceive(th, line, v, c); Traces(th, v, m) && Origin(th, v, c, m)
  {
    hide CellOf;
  }

  lemma TraceRenew(th: Thread, line: Renew, v: View, c: Choice)
    requires th.pc == Renewing(line) && Based(th)
    ensures var m := GoRenew(th, line, v, c); Traces(th, v, m) && Origin(th, v, c, m)
  {
    hide CellOf;
  }

  lemma TraceWait(th: Thread, line: Wait, v: View, c: Choice)
    requires th.pc == Waiting(line) && Based(th)
    ensures var m := GoWait(th, line, v, c); Traces(th, v, m) && Origin(th, v, c, m)
  {
    hide CellOf;
  }

  lemma TraceFinish(th: Thread, line: Finish, v: View, c: Choice)
    requires th.pc == Finishing(line) && Based(th)
    ensures var m := GoFinish(th, line, v); Traces(th, v, m) && Origin(th, v, c, m)
  {
    hide CellOf;
  }

  lemma TraceSend(th: Thread, line: Sends, v: View, c: Choice)
    requires th.pc == Sending(line) && (line.STag? || line.SLook? || line.SWaiters? || line.SLevel?) && Based(th)
    ensures var m := GoSend(th, line, v, c); Traces(th, v, m) && Origin(th, v, c, m)
  {
    hide CellOf;
  }

  lemma TraceSendOn(th: Thread, line: Sends, v: View, c: Choice)
    requires th.pc == Sending(line) && (line.SFetch? || line.SRcu? || line.SUnlevel? || line.SMutex?) && Based(th)
    ensures var m := GoSend(th, line, v, c); Traces(th, v, m) && Origin(th, v, c, m)
  {
    hide CellOf;
  }

  lemma TracePost(th: Thread, line: Posts, v: View, c: Choice)
    requires th.pc == Posting(line) && Based(th)
    ensures var m := GoPost(th, line, v, c); Traces(th, v, m) && Origin(th, v, c, m)
  {
    hide CellOf;
  }

  lemma TraceTell(th: Thread, line: Tells, v: View, c: Choice)
    requires th.pc == Telling(line) && Based(th)
    ensures var m := GoTell(th, line); Traces(th, v, m) && Origin(th, v, c, m)
  {
    hide CellOf;
  }

  lemma TraceAwake(th: Thread, line: Awake, v: View, c: Choice)
    requires th.pc == Awaking(line) && Based(th)
    ensures var m := GoAwake(th, line, v, c); Traces(th, v, m) && Origin(th, v, c, m)
  {
    hide CellOf;
  }

  lemma TraceRouse(th: Thread, line: Rouse, v: View, c: Choice)
    requires th.pc == Rousing(line) && (line.ALevel? || line.AFetch? || line.ARcu?) && Based(th)
    ensures var m := GoRouse(th, line, v, c); Traces(th, v, m) && Origin(th, v, c, m)
  {
    hide CellOf;
  }

  lemma TraceRouseOn(th: Thread, line: Rouse, v: View, c: Choice)
    requires th.pc == Rousing(line) && (line.AWake? || line.AUnrcu? || line.AUnlevel?) && Based(th)
    ensures var m := GoRouse(th, line, v, c); Traces(th, v, m) && Origin(th, v, c, m)
  {
    hide CellOf;
  }

  lemma TraceDelete(th: Thread, line: Deletes, v: View, c: Choice)
    requires th.pc == Deleting(line) && Based(th)
    ensures var m := GoDelete(th, line, v, c); Traces(th, v, m) && Origin(th, v, c, m)
  {
    hide CellOf;
  }

  lemma TraceFree(th: Thread, line: Frees, v: View, c: Choice)
    requires th.pc == Freeing(line) && Based(th)
    ensures var m := GoFree(th, line, v); Traces(th, v, m) && Origin(th, v, c, m)
  {
    hide CellOf;
  }

  lemma TraceExit(th: Thread, line: Exit, v: View, c: Choice)
    requires th.pc == Exiting(line) && Based(th)
    ensures var m := GoExit(th, line, v); Traces(th, v, m) && Origin(th, v, c, m)
  {
    hide CellOf;
  }

  lemma TraceStart(th: Thread, v: View, call: Call)
    requires th.pc.Idle?
    ensures var m := GoStart(th, v, call); Traces(th, v, m) && Origin(th, v, Start(call), m)
  {
    hide CellOf;
  }

  lemma Traced(th: Thread, v: View, c: Choice)
    requires Based(th) && (th.pc.Idle? <==> c.Start?)
    ensures var m := Go(th, v, c); Traces(th, v, m) && Origin(th, v, c, m)
  {
    hide Traces, Origin;
    hide GoStart, GoReceive, GoRenew, GoWait, GoFinish, GoSend, GoPost, GoTell, GoAwake, GoRouse, GoDelete, GoFree,
         GoExit;
    match th.pc
    case Idle => TraceStart(th, v, c.call);
    case Arriving(line) =>
      if line.RTag? || line.RLook? || line.RLevel? || line.RFetch? {
        TraceReceive(th, line, v, c);
      } else {
        TraceReceiveOn(th, line, v, c);
      }
    case Renewing(line) => TraceRenew(th, line, v, c);
    case Waiting(line) => TraceWait(th, line, v, c);
    case Finishing(line) => TraceFinish(th, line, v, c);
    case Sending(line) =>
      if line.STag? || line.SLook? || line.SWaiters? || line.SLevel? {
        TraceSend(th, line, v, c);
      } else {
        TraceSendOn(th, line, v, c);
      }
    case Posting(line) => TracePost(th, line, v, c);
    case Telling(line) => TraceTell(th, line, v, c);
    case Awaking(line) => TraceAwake(th, line, v, c);
    case Rousing(line) =>
      if line.ALevel? || line.AFetch? || line.ARcu? {
        TraceRouse(th, line, v, c);
      } else {
        TraceRouseOn(th, line, v, c);
      }
    case Deleting(line) => TraceDelete(th, line, v, c);
    case Freeing(line) => TraceFree(th, line, v, c);
    case Exiting(line) => TraceExit(th, line, v, c);
  }

  // ----- every step keeps it -----

  // The move of an enabled step.
  function MoveOf(s: State, t: nat, c: Choice): Move
    requires t < |s.threads|
  {
    Go(s.threads[t], Look(s, s.threads[t]), c)
  }

  // Everything known of a thread about to move.
  ghost predicate Traceable(s: State, th: Thread, c: Choice, m: Move) {
    && Traces(th, Look(s, th), m) && Origin(th, Look(s, th), c, m) && Shape(th) && Shape(Moved(th, m))
       && Legal(th, m.effect)
  }

  lemma Tracing(s: State, t: nat, c: Choice)
    requires Referring(s) && Enabled(s, t, c)
    ensures Traceable(s, s.threads[t], c, MoveOf(s, t, c))
  {
    var th, v := s.threads[t], Look(s, s.threads[t]);
    assert Shape(th) && Refers(s, th);
    LookSound(s, th);
    assert Based(th);
    assert th.pc.Idle? <==> c.Start?;
    Traced(th, v, c);
    Moves(th, v, c);
  }

  function NewPtr(s: State, th: Thread, e: Effect, c: int): int
    requires 0 <= c < |s.cells|
  {
    if c == th.cell && e.Publish? then |s.insts| else if c == th.cell && e.Restore? then th.base else s.cells[c].ptr
  }

  // What Apply makes of the pointers and the numbers of things.
  lemma Memory(s: State, t: nat, m: Move)
    requires t < |s.threads|
    ensures var s', th := Apply(s, t, m), s.threads[t];
            && |s'.tags| == |s.tags| && |s'.cells| == |s.cells| && |s.insts| <= |s'.insts|
            && (!m.effect.SetSlot? ==> s'.slot == s.slot)
            && (m.effect.Publish? ==> |s'.insts| == |s.insts| + 1)
            && (m.effect.Publish? ==>
                s'.insts[|s.insts|].cell == th.cell && s'.insts[|s.insts|].epoch == EpochAt(s, th.inst) + 1)
            && (!m.effect.Publish? ==> |s'.insts| == |s.insts|)
            && (forall i :: 0 <= i < |s.insts| ==>
                s'.insts[i].cell == s.insts[i].cell && s'.insts[i].epoch == s.insts[i].epoch)
            && (forall c :: 0 <= c < |s.cells| ==> s'.cells[c].ptr == NewPtr(s, th, m.effect, c))
  {
    hide NewTag, NewSync, NewData, Hold;
  }

  lemma OwnPlaced(s: State, t: nat, c: Choice, m: Move)
    requires Levelled(s) && t < |s.threads| && Refers(s, s.threads[t]) && Traceable(s, s.threads[t], c, m)
    ensures Placed(Apply(s, t, m), Moved(s.threads[t], m))
  {
    Memory(s, t, m);
    hide Apply, KitOf, Working, Leaving, OwnCall, Topped, Legal, AtTop, Fetching;
  }

  lemma SlotNext(s: State, th: Thread, c: Choice, m: Move)
    requires NONE <= s.slot && Slotted(s, th) && Traceable(s, th, c, m)
    ensures Slotted(s.(slot := if m.effect.SetSlot? then m.effect.value else s.slot), Moved(th, m))
  {
    TagNeeds(th);
    TagNeeds(Moved(th, m));
    hide AtTop, Fetching, Follows, Joining, Nearing, Private, OwnCall, Numbers;
  }

  lemma OwnSlotted(s: State, t: nat, c: Choice, m: Move)
    requires Levelled(s) && t < |s.threads| && Refers(s, s.threads[t]) && Traceable(s, s.threads[t], c, m)
    ensures Slotted(Apply(s, t, m), Moved(s.threads[t], m))
  {
    hide Placed, Topped, Traceable, Below;
    SlotNext(s, s.threads[t], c, m);
    hide NewTagLock, NewTags, NewCells, NewInsts, Hold;
  }

  // The pointer a thread has fetched under the level lock is still the level's after its own move.
  lemma TopNext(th: Thread, v: View, c: Choice, m: Move, p': int)
    requires Traces(th, v, m) && Origin(th, v, c, m)
    requires (AtTop(th.pc) ==> th.inst == v.ptr) && (m.thread.pc == Renewing(RRestore) ==> th.inst == th.base)
    requires p' == if m.effect.Publish? then v.next else v.ptr
    ensures var n := m.thread;
            && (AtTop(n.pc) ==> n.inst == p')
            && (n.pc == Renewing(RRecheck) || n.pc == Renewing(RCreate) ==> n.base == n.inst)
            && (n.pc == Renewing(RRestore) ==> n.base == p')
  {
    hide Follows, Joining, Nearing, Outside, Private, Detached;
  }

  lemma OwnPtr(s: State, t: nat, c: Choice, m: Move)
    requires Levelled(s) && t < |s.threads| && Refers(s, s.threads[t]) && Traceable(s, s.threads[t], c, m)
    ensures Ptr(Apply(s, t, m), s.threads[t].cell) == if m.effect.Publish? then |s.insts| else Ptr(s, s.threads[t].cell)
  {
    Memory(s, t, m);
    PublishAt(s, s.threads[t]);
    hide Apply, Shape, Traces, Legal, Slotted, Joining, Nearing, Outside;
  }

  lemma PublishAt(s: State, th: Thread)
    requires Shape(th) && Placed(s, th)
    ensures th.pc == Renewing(RCreate) ==> 0 <= th.cell < |s.cells|
  {}

  lemma OwnTopped(s: State, t: nat, c: Choice, m: Move)
    requires Levelled(s) && t < |s.threads| && Refers(s, s.threads[t]) && Traceable(s, s.threads[t], c, m)
    requires m.thread.pc == Renewing(RRestore) ==> s.threads[t].inst == s.threads[t].base
    ensures Topped(Apply(s, t, m), Moved(s.threads[t], m))
  {
    hide Levelled, Shape, Legal, Placed, Slotted, Ptr, AtTop, Apply, Hold;
    var th, n, s' := s.threads[t], m.thread, Apply(s, t, m);
    OwnPtr(s, t, c, m);
    LookPtr(s, th);
    hide Look;
    TopNext(th, Look(s, th), c, m, Ptr(s', th.cell));
    SameLevel(th, Look(s, th), m);
    if AtTop(n.pc) || n.pc == Renewing(RRestore) { HasInst(Moved(th, m)); }
    hide Traces, Origin;
  }

  lemma LookPtr(s: State, th: Thread)
    ensures Look(s, th).ptr == Ptr(s, th.cell) && Look(s, th).next == |s.insts| && Look(s, th).posted == |s.log|
  {}

  // A thread that has fetched something stays on its level.
  lemma SameLevel(th: Thread, v: View, m: Move)
    requires Traces(th, v, m)
    ensures m.thread.inst != NONE ==> m.thread.cell == th.cell
  {
    hide Private;
  }

  // A thread on one of these lines holds the lock of its level.
  predicate HoldsLevel(pc: PC) { AtTop(pc) || Fetching(pc) || pc == Renewing(RRestore) }

  // Whoever holds a level lock for writing is alone on that level.
  lemma AloneOnLevel(s: State, t: nat, u: nat)
    requires Locked(s) && Referring(s) && t < |s.threads| && u < |s.threads| && u != t
    requires KitOf(s.threads[t].pc).level.Writing? && HoldsLevel(s.threads[u].pc)
    ensures s.threads[u].cell != s.threads[t].cell
  {
    hide Guarded, Tallied, Synced, Levelled, Refers, Apart;
    var a, b := s.threads[t], s.threads[u];
    assert Shape(a) && Shape(b);
    if a.cell == b.cell {
      OnLevel(s, b);
      OnLevel(s, a);
      Alone(s.cells[a.cell].lock, LevelLock(a.cell), s.threads, t, u);
    }
  }

  lemma OnLevel(s: State, th: Thread)
    requires Shape(th)
    ensures HoldsLevel(th.pc) ==> !KitOf(th.pc).level.No?
    ensures KitOf(th.pc).level.Writing? ==> th.held.levW == th.cell >= 0
    ensures KitOf(th.pc).level.Reading? ==> th.held.levR == th.cell >= 0
  {}

  // What a deleter holds and knows.
  lemma TagNeeds(th: Thread)
    requires Shape(th)
    ensures th.pc == Deleting(DDetach) ==> th.held.tagW
    ensures th.pc == Deleting(DDetach) || Detached(th.pc) || th.pc.Freeing? ==> th.tag >= 0
    ensures th.tag != NONE ==> th.held.tagR || th.pc == Deleting(DDetach) || Detached(th.pc) || th.pc.Freeing?
  {}

  // A change of the slot does not touch the other threads' tags: nobody else has one to read.
  lemma OtherSlotted(s: State, a: Thread, b: Thread, x: int)
    requires Slotted(s, a) && Slotted(s, b) && Apart(a, b) && Apart(b, a) && Shape(a) && Shape(b) && NONE <= s.slot
    requires a.pc == Deleting(DDetach) ==> x == NONE && !b.held.tagR && !b.held.tagW
    requires a.pc != Deleting(DDetach) ==> x == a.tag && (a.pc == Deleting(DPutBack) || a.pc == Deleting(DRestore))
    ensures Slotted(s.(slot := x), b)
  {
    TagNeeds(a);
    TagNeeds(b);
    hide Shape, Private;
  }

  // Growth of the memory leaves what a thread points to where it is.
  lemma StillThere(s: State, s': State, th: Thread)
    requires Placed(s, th) && Topped(s, th)
    requires |s.tags| <= |s'.tags| && |s.cells| <= |s'.cells| && |s.insts| <= |s'.insts|
    requires forall i :: 0 <= i < |s.insts| ==> s'.insts[i].cell == s.insts[i].cell
    requires HoldsLevel(th.pc) ==> Ptr(s', th.cell) == Ptr(s, th.cell)
    ensures Placed(s', th) && Topped(s', th)
  {
    hide Ptr;
  }

  lemma Writers(pc: PC)
    ensures pc.Renewing? && (pc.renew.RCreate? || pc.renew.RRestore? || pc.renew.RJoin? || pc.renew.RDrop?) ==>
            KitOf(pc).level.Writing?
  {}

  lemma PtrKept(s: State, t: nat, m: Move, c: int)
    requires t < |s.threads|
    requires (c == s.threads[t].cell ==> !m.effect.Publish? && (m.effect.Restore? ==> s.threads[t].base == Ptr(s, c)))
    ensures Ptr(Apply(s, t, m), c) == Ptr(s, c)
  {
    Memory(s, t, m);
    hide Apply;
  }

  lemma Neighbours(s: State, t: nat, u: nat)
    requires Referring(s) && t < |s.threads| && u < |s.threads| && u != t
    ensures var a, b := s.threads[t], s.threads[u];
            Shape(a) && Shape(b) && Refers(s, a) && Refers(s, b) && Apart(a, b) && Apart(b, a) && NONE <= s.slot
  {
    hide Shape, Refers, Apart, Below;
  }

  // The publisher is alone on its level, so nobody else has fetched the pointer it replaces.
  lemma OtherPtr(s: State, t: nat, c: Choice, m: Move, u: nat)
    requires Locked(s) && Referring(s) && t < |s.threads| && u < |s.threads| && u != t
    requires Traceable(s, s.threads[t], c, m)
    requires HoldsLevel(s.threads[u].pc)
    ensures Ptr(Apply(s, t, m), s.threads[u].cell) == Ptr(s, s.threads[u].cell)
  {
    hide Locked, Referring, Legal, Traces, KitOf, Apart, HoldsLevel, Shape, Apply, Ptr;
    Writers(s.threads[t].pc);
    if m.effect.Publish? || m.effect.Restore? {
      AloneOnLevel(s, t, u);
    }
    PtrKept(s, t, m, s.threads[u].cell);
  }

  // The deleter that empties tags[] is alone on the tag.
  lemma OtherTag(s: State, t: nat, u: nat)
    requires Locked(s) && t < |s.threads| && u < |s.threads| && u != t && s.threads[t].held.tagW
    ensures !s.threads[u].held.tagR && !s.threads[u].held.tagW
  {
    hide Guarded, Tallied, Synced, Ranged;
    if s.threads[u].held.tagR || s.threads[u].held.tagW {
      Alone(s.tagLock, TagLock, s.threads, t, u);
    }
  }

  lemma OtherRefers(s: State, t: nat, c: Choice, m: Move, u: nat)
    requires Locked(s) && Referring(s) && t < |s.threads| && u < |s.threads| && u != t
    requires Traceable(s, s.threads[t], c, m)
    ensures Refers(Apply(s, t, m), s.threads[u])
  {
    hide Locked, Referring, Legal, Traces, KitOf, Apart, HoldsLevel, Placed, Topped, Shape, AtTop;
    var a, b, s' := s.threads[t], s.threads[u], Apply(s, t, m);
    Neighbours(s, t, u);
    Memory(s, t, m);
    if HoldsLevel(b.pc) { OtherPtr(s, t, c, m, u); }
    hide Apply;
    StillThere(s, s', b);
    if m.effect.SetSlot? {
      TagNeeds(a);
      if a.pc == Deleting(DDetach) { OtherTag(s, t, u); }
      OtherSlotted(s, a, b, m.effect.value);
    }
  }

  // ----- two threads -----

  // An instance just published is not fetched by others while its creator keeps the level lock.
  lemma NotFetched(s: State, t: nat, u: nat)
    requires Locked(s) && Referring(s) && t < |s.threads| && u < |s.threads| && u != t
    requires Private(s.threads[u]) && Fetching(s.threads[t].pc)
    ensures s.threads[u].inst >= 0 && s.threads[u].inst != Ptr(s, s.threads[t].cell)
  {
    hide Locked, Slotted, Topped, Apart, Below;
    var a, b := s.threads[t], s.threads[u];
    assert Levelled(s) && Shape(b) && Refers(s, b);
    hide Referring;
    Writers(b.pc);
    AloneOnLevel(s, u, t);
    HasInst(b);
    hide Shape, KitOf;
  }

  lemma HasInst(th: Thread)
    requires Shape(th) && (Private(th) || AtTop(th.pc) || th.pc == Renewing(RRestore))
    ensures th.inst >= 0
  {}

  lemma ApartKept(s: State, t: nat, c: Choice, m: Move, u: nat)
    requires Locked(s) && Referring(s) && t < |s.threads| && u < |s.threads| && u != t
    requires Traceable(s, s.threads[t], c, m)
    ensures Apart(Moved(s.threads[t], m), s.threads[u]) && Apart(s.threads[u], Moved(s.threads[t], m))
  {
    hide Locked, Referring, Legal, KitOf, HoldsLevel, Shape, AtTop, Fetching, Topped;
    var a, b, n := s.threads[t], s.threads[u], Moved(s.threads[t], m);
    Neighbours(s, t, u);
    TagNeeds(a);
    TagNeeds(b);
    if Private(b) {
      HasInst(b);
      if Fetching(a.pc) { NotFetched(s, t, u); }
    }
  }

  // ----- the levels -----

  // What a move does to the pointers leaves the levels in order: it publishes the next epoch of the
  // published instance, or puts back what is there.
  lemma LevelsMoved(s: State, t: nat, m: Move)
    requires Levelled(s) && t < |s.threads|
    requires m.effect.Publish? ==> 0 <= s.threads[t].cell < |s.cells|
    requires m.effect.Publish? ==> s.threads[t].inst == Ptr(s, s.threads[t].cell)
    requires m.effect.Restore? ==> s.threads[t].base == Ptr(s, s.threads[t].cell)
    requires m.effect.SetSlot? ==> NONE <= m.effect.value < |s.tags|
    ensures Levelled(Apply(s, t, m))
  {
    var s' := Apply(s, t, m);
    Memory(s, t, m);
    hide NewTagLock, NewTags, NewCells, NewInsts, Hold;
    forall i | 0 <= i < |s'.insts| ensures Below(s', i) {
      if i < |s.insts| { assert Below(s, i); }
    }
  }

  lemma LevelledKept(s: State, t: nat, c: Choice, m: Move)
    requires Locked(s) && Referring(s) && t < |s.threads| && Traceable(s, s.threads[t], c, m)
    ensures Levelled(Apply(s, t, m))
  {
    hide Locked, Legal, Traces, KitOf, Apart, HoldsLevel, Ranged, Working, Leaving, OwnCall, Levelled, Apply, Below;
    var th := s.threads[t];
    assert Refers(s, th) && Levelled(s);
    hide Referring;
    PublishAt(s, th);
    TagNeeds(th);
    hide Shape, AtTop;
    LevelsMoved(s, t, m);
  }

  // A wait that is not broken off ends with the lock free to take.
  lemma LockFree(s: State, t: nat, c: Choice)
    requires Enabled(s, t, c) && !c.Interrupt? && Wants(s.threads[t]) != NoLock
    ensures Lock(s, s.threads[t]).writer == NONE
    ensures (s.threads[t].pc == Renewing(RWrite) ==> Lock(s, s.threads[t]) == FREE)
  {
    hide Look, Lock, Contended;
  }

  lemma WantedTag(th: Thread)
    ensures Outside(th.pc) ==> Wants(th) == TagLock
    ensures Nearing(th.pc) || th.pc == Renewing(RWrite) ==> Wants(th) == LevelLock(th.cell)
    ensures Joining(th.pc) ==> Wants(th) == RcuLock(th.inst)
  {}

  lemma LockRange(s: State, th: Thread)
    requires Shape(th) && Placed(s, th)
    ensures Nearing(th.pc) || th.pc == Renewing(RWrite) ==> 0 <= th.cell < |s.cells|
    ensures th.inst < |s.insts| && th.tag < |s.tags|
  {}

  // A move of an enabled step takes a lock only when it is free for it.
  lemma MoveReady(s: State, t: nat, c: Choice)
    requires Enabled(s, t, c) && Placed(s, s.threads[t]) && Traceable(s, s.threads[t], c, MoveOf(s, t, c))
    ensures Ready(s, s.threads[t], MoveOf(s, t, c).effect)
  {
    hide Traces, Shape, Go, Contended, Unblocked, Outside, Nearing, Joining, Wants, Sited;
    var th := s.threads[t];
    LockRange(s, th);
    WantedTag(th);
    if Wants(th) != NoLock && !c.Interrupt? { LockFree(s, t, c); }
    hide Enabled, Placed;
  }

  // Nobody else can hold or want the rcu_lock of an instance that only its creator knows.
  lemma Uncontended(s: State, t: nat)
    requires Locked(s) && Referring(s) && Enabled(s, t, Interrupt) && s.threads[t].pc == Renewing(RJoin)
    ensures s.threads[t].inst == s.threads[t].base
  {
    hide Tallied, Owned, Ranged, Levelled, Refers, Apart, Look;
    var th := s.threads[t];
    assert Shape(th);
    assert th.held.rcuW == NONE;
    hide Shape;
    if Private(th) {
      HasInst(th);
      InstKnown(s, t, th.inst);
      WriterOf(s, th.inst);
      hide Locked;
    }
  }

  lemma WriterOf(s: State, i: int)
    requires Locked(s) && 0 <= i < |s.insts|
    ensures var w := s.insts[i].sync.rcu.writer; w == NONE || (0 <= w < |s.threads| && s.threads[w].held.rcuW == i)
  {
    hide Tallied, Owned, Ranged;
    assert Synced(s.insts[i].sync, i, s.threads);
  }

  // Who writes an instance or waits for its rcu_lock has it as its own.
  lemma InstKnown(s: State, t: nat, i: int)
    requires Referring(s) && t < |s.threads| && Private(s.threads[t]) && s.threads[t].inst == i >= 0
    ensures forall u :: 0 <= u < |s.threads| && u != t ==>
            Wants(s.threads[u]) != RcuLock(i) && s.threads[u].held.rcuW != i
  {
    forall u | 0 <= u < |s.threads| && u != t ensures Wants(s.threads[u]) != RcuLock(i) && s.threads[u].held.rcuW != i {
      Neighbours(s, t, u);
      hide Referring;
      if Wants(s.threads[u]) == RcuLock(i) || s.threads[u].held.rcuW == i {
        OwnInst(s.threads[u], i);
      }
    }
  }

  lemma OwnInst(th: Thread, i: int)
    requires Shape(th) && i >= 0 && (Wants(th) == RcuLock(i) || th.held.rcuW == i)
    ensures th.inst == i
  {}

  // ----- whole steps -----

  ghost predicate Base(s: State) { Locked(s) && Referring(s) }

  lemma OwnRefers(s: State, t: nat, c: Choice)
    requires Base(s) && Enabled(s, t, c) && Traceable(s, s.threads[t], c, MoveOf(s, t, c))
    ensures Refers(Step(s, t, c), Moved(s.threads[t], MoveOf(s, t, c)))
  {
    var m := MoveOf(s, t, c);
    assert Refers(s, s.threads[t]) && Levelled(s);
    OwnPlaced(s, t, c, m);
    OwnSlotted(s, t, c, m);
    if m.thread.pc == Renewing(RRestore) {
      Interrupted(s, t, c);
      Uncontended(s, t);
    }
    hide Placed, Slotted, Topped, Locked, Referring, Traceable, Enabled;
    OwnTopped(s, t, c, m);
  }

  lemma Interrupted(s: State, t: nat, c: Choice)
    requires Enabled(s, t, c) && Traceable(s, s.threads[t], c, MoveOf(s, t, c))
    requires MoveOf(s, t, c).thread.pc == Renewing(RRestore)
    ensures c == Interrupt && s.threads[t].pc == Renewing(RJoin)
  {
    hide Shape, Legal, Look, Contended, Wants, Unblocked;
  }

  lemma ReferringKept(s: State, t: nat, c: Choice)
    requires Base(s) && Enabled(s, t, c)
    ensures Referring(Step(s, t, c))
  {
    hide Go, Look, Origin, Traces, Legal, Locked, Levelled, Refers, Shape, Apart, Contended, Unblocked;
    var m, s' := MoveOf(s, t, c), Step(s, t, c);
    Tracing(s, t, c);
    OwnRefers(s, t, c);
    LevelledKept(s, t, c, m);
    forall u | 0 <= u < |s.threads| && u != t
      ensures Shape(s'.threads[u]) && Refers(s', s'.threads[u]) && Apart(s'.threads[t], s'.threads[u])
      ensures Apart(s'.threads[u], s'.threads[t])
    {
      OtherRefers(s, t, c, m, u);
      ApartKept(s, t, c, m, u);
    }
    hide Enabled;
  }

  lemma BaseKept(s: State, t: nat, c: Choice)
    requires Base(s) && Enabled(s, t, c)
    ensures Base(Step(s, t, c))
  {
    ReferringKept(s, t, c);
    Tracing(s, t, c);
    var th, m := s.threads[t], MoveOf(s, t, c);
    assert Refers(s, th) && Shape(th);
    hide Referring, Slotted, Topped, Apart, Levelled, Go, Look, Enabled;
    MoveReady(s, t, c);
    NearOwnLevel(th);
    LockedKept(s, t, m);
  }

  lemma NearOwnLevel(th: Thread)
    requires Shape(th)
    ensures AtOwnLevel(th)
  {}

  // ----- a tag is created -----

  lemma RefersCreated(s: State, th: Thread)
    requires MayCreate(s) && Refers(s, th) && Shape(th) && !Detached(th.pc)
    ensures Refers(Create(s), th)
  {
    TagNeeds(th);
    hide Shape;
    StillThere(s, Create(s), th);
    hide Placed, Topped;
  }

  lemma LevelledCreated(s: State)
    requires Levelled(s)
    ensures Levelled(Create(s))
  {
    var s' := Create(s);
    forall c | |s.cells| <= c < |s'.cells|
      ensures s'.cells[c].ptr == |s.insts| + (c - |s.cells|) && s'.insts[s'.cells[c].ptr].cell == c
    {
      assert s'.cells[c] == Cell(|s.insts| + (c - |s.cells|), FREE);
      assert s'.insts[|s.insts| + (c - |s.cells|)] == Blank(|s.cells| + (c - |s.cells|), 0);
    }
    forall i | 0 <= i < |s'.insts| ensures Below(s', i) {
      if i < |s.insts| {
        assert Below(s, i);
      } else {
        assert s'.insts[i] == Blank(|s.cells| + (i - |s.insts|), 0);
        assert s'.cells[|s.cells| + (i - |s.insts|)].ptr == i;
      }
    }
  }

  lemma BaseCreated(s: State)
    requires Base(s) && MayCreate(s)
    ensures Base(Create(s))
  {
    LockedCreated(s);
    LevelledCreated(s);
    forall u | 0 <= u < |s.threads| ensures Refers(Create(s), s.threads[u]) {
      RefersCreated(s, s.threads[u]);
    }
    hide Refers, Shape, Apart, Levelled, Locked;
  }

  lemma BaseInitial(s: State)
    requires Initial(s)
    ensures Base(s)
  {}
}
