// The grace period: an instance is freed only when it is out of reach. A superseded instance is freed
// with nobody reading it and nobody about to; a published instance is freed only with its tag.

module Grace {
  import opened Protocol
  import opened Shapes
  import opened Locks
  import opened Refs

  predicate Freed(s: State, i: int) { 0 <= i < |s.insts| && s.insts[i].freed }

  // Another instance has been published on its level.
  predicate Superseded(s: State, i: int) { 0 <= i < |s.insts| && Ptr(s, s.insts[i].cell) != i }

  predicate Unread(s: State, i: int) { 0 <= i < |s.insts| && s.insts[i].sync.rcu.readers == {} }

  // Level c belongs to tag k.
  predicate Of(c: int, k: int) { k * LEVELS <= c < k * LEVELS + LEVELS }

  // No published instance of tag k has been freed.
  ghost predicate Whole(s: State, k: int) {
    forall c :: 0 <= c < |s.cells| && Of(c, k) ==> !Freed(s, s.cells[c].ptr)
  }

  ghost predicate Spared(s: State, th: Thread) {
    && !Freed(s, th.held.rcu)
    && (th.pc == Finishing(RRelease) ==> Superseded(s, th.inst))
    && (th.pc == Finishing(RFree) ==> Superseded(s, th.inst) && Unread(s, th.inst))
    && (Detached(th.pc) ==> Whole(s, th.tag))
  }

  ghost predicate Alive(s: State) {
    && (s.slot != NONE ==> Whole(s, s.slot))
    && (forall u :: 0 <= u < |s.threads| ==> Spared(s, s.threads[u]))
  }

  // What Apply frees.
  lemma Frees(s: State, t: nat, m: Move, i: int)
    requires t < |s.threads|
    ensures Freed(Apply(s, t, m), i) ==> Freed(s, i) || m.effect == FreeLevel(i)
  {
    hide NewTags, NewCells, NewSync, NewData, Hold;
  }

  lemma SupersededKept(s: State, t: nat, c: Choice, m: Move, i: int)
    requires t < |s.threads| && Superseded(s, i) && Levelled(s) && Traceable(s, s.threads[t], c, m)
    requires Topped(s, s.threads[t])
    ensures Superseded(Apply(s, t, m), i)
  {
    Memory(s, t, m);
    assert Below(s, i);
    hide Apply, Shape, Traces, Legal;
  }

  // Who takes a read lock on an instance has it as the published one.
  lemma UnreadKept(s: State, t: nat, c: Choice, m: Move, i: int)
    requires t < |s.threads| && Unread(s, i) && Superseded(s, i)
    requires Traceable(s, s.threads[t], c, m) && Topped(s, s.threads[t]) && Placed(s, s.threads[t])
    ensures Unread(Apply(s, t, m), i)
  {
    hide Shape, Traces, Legal, NewTags, NewCells, NewData, Hold;
  }

  // Tag k is out of reach of whatever this step frees.
  lemma WholeKept(s: State, t: nat, c: Choice, m: Move, k: int)
    requires t < |s.threads| && Whole(s, k) && Levelled(s) && Traceable(s, s.threads[t], c, m)
    requires Topped(s, s.threads[t])
    requires m.effect.FreeLevel? ==> forall c :: 0 <= c < |s.cells| && Of(c, k) ==> s.cells[c].ptr != m.effect.target
    ensures Whole(Apply(s, t, m), k)
  {
    var s' := Apply(s, t, m);
    Memory(s, t, m);
    forall c | 0 <= c < |s'.cells| && Of(c, k) ensures !Freed(s', s'.cells[c].ptr) {
      Frees(s, t, m, s'.cells[c].ptr);
    }
  }

  // ----- the two places that free -----

  // Nobody reads a superseded instance about to be freed, and no level points to it.
  lemma FinisherFrees(s: State, t: nat, u: nat)
    requires Base(s) && Alive(s) && t < |s.threads| && u < |s.threads| && s.threads[t].pc == Finishing(RFree)
    ensures var i := s.threads[t].inst;
            && 0 <= i < |s.insts| && s.threads[u].held.rcu != i
            && forall c :: 0 <= c < |s.cells| ==> s.cells[c].ptr != i
  {
    hide Shape, Refers, Apart, Whole, Tallied, Owned, Ranged;
    assert Spared(s, s.threads[t]) && Levelled(s);
    hide Alive, Referring, Below;
    assert Synced(s.insts[s.threads[t].inst].sync, s.threads[t].inst, s.threads);
  }

  lemma ReadsOwn(s: State, th: Thread)
    requires Shape(th) && Refers(s, th) && th.held.rcu != NONE
    ensures th.tag == s.slot >= 0 && th.cell == CellOf(th.tag, th.level) && 0 <= th.level < LEVELS
    ensures 0 <= th.held.rcu < |s.insts| && s.insts[th.held.rcu].cell == th.cell
  {
    hide CellOf, OwnCall, Topped;
  }

  lemma Distinct(c: int, k: int, j: int)
    requires Of(c, k) && Of(c, j)
    ensures k == j
  {}

  // A level freed with its tag belongs to no other tag, and nobody reads it.
  lemma DeleterFrees(s: State, t: nat, u: nat, c: int)
    requires Base(s) && t < |s.threads| && u < |s.threads| && s.threads[t].pc == Freeing(DLevels)
    ensures var th, b := s.threads[t], s.threads[u];
            && b.held.rcu != Ptr(s, th.cell)
            && (0 <= c < |s.cells| && ((s.slot != NONE && Of(c, s.slot)) || (Detached(b.pc) && Of(c, b.tag))) ==>
                s.cells[c].ptr != Ptr(s, th.cell))
  {
    var th, b := s.threads[t], s.threads[u];
    assert Levelled(s) && Shape(th) && Refers(s, th) && Shape(b) && Refers(s, b);
    DeleterAt(s, th);
    if u != t { Neighbours(s, t, u); TagNeeds(b); }
    hide Base, Below;
    if b.held.rcu == Ptr(s, th.cell) {
      ReadsOwn(s, b);
      hide Shape, Refers;
      Distinct(b.cell, b.tag, th.tag);
    }
    hide Shape;
    if 0 <= c < |s.cells| && s.cells[c].ptr == Ptr(s, th.cell) && s.slot != NONE && Of(c, s.slot) {
      Distinct(c, s.slot, th.tag);
    }
    if 0 <= c < |s.cells| && s.cells[c].ptr == Ptr(s, th.cell) && Detached(b.pc) && Of(c, b.tag) {
      Distinct(c, b.tag, th.tag);
    }
  }

  lemma DeleterAt(s: State, th: Thread)
    requires Shape(th) && Refers(s, th) && th.pc == Freeing(DLevels) && Levelled(s)
    ensures th.tag >= 0 && th.tag != s.slot && Of(th.cell, th.tag) && 0 <= th.cell < |s.cells| && th.held == NOTHING
  {
    hide Below;
  }

  // No published instance of tag k is the one this step frees.
  ghost predicate Clear(s: State, m: Move, k: int) {
    m.effect.FreeLevel? ==> forall c :: 0 <= c < |s.cells| && Of(c, k) ==> s.cells[c].ptr != m.effect.target
  }

  lemma FreesWhat(s: State, th: Thread, c: Choice, m: Move)
    requires Traceable(s, th, c, m) && m.effect.FreeLevel?
    ensures (th.pc == Finishing(RFree) && m.effect.target == th.inst)
            || (th.pc == Freeing(DLevels) && m.effect.target == Ptr(s, th.cell))
  {
    hide Shape, Traces, Legal;
  }

  lemma DeleterClear(s: State, t: nat, u: nat)
    requires Base(s) && t < |s.threads| && u < |s.threads| && s.threads[t].pc == Freeing(DLevels)
    ensures forall d :: 0 <= d < |s.cells| && s.slot != NONE && Of(d, s.slot) ==>
            s.cells[d].ptr != Ptr(s, s.threads[t].cell)
    ensures forall d :: 0 <= d < |s.cells| && Detached(s.threads[u].pc) && Of(d, s.threads[u].tag) ==>
            s.cells[d].ptr != Ptr(s, s.threads[t].cell)
  {
    hide Base, Of, Detached, Ptr;
    forall d | 0 <= d < |s.cells|
      ensures (s.slot != NONE && Of(d, s.slot)) || (Detached(s.threads[u].pc) && Of(d, s.threads[u].tag)) ==>
              s.cells[d].ptr != Ptr(s, s.threads[t].cell)
    {
      DeleterFrees(s, t, u, d);
    }
  }

  // What a step frees is read by nobody and published nowhere a thread can still reach.
  lemma OutOfReach(s: State, t: nat, c: Choice, m: Move, u: nat)
    requires Base(s) && Alive(s) && t < |s.threads| && u < |s.threads| && Traceable(s, s.threads[t], c, m)
    ensures m.effect.FreeLevel? ==> s.threads[u].held.rcu != m.effect.target
    ensures s.slot != NONE ==> Clear(s, m, s.slot)
    ensures Detached(s.threads[u].pc) ==> Clear(s, m, s.threads[u].tag)
  {
    hide Base, Alive, Traceable, Detached, Of, Ptr;
    if m.effect.FreeLevel? {
      FreesWhat(s, s.threads[t], c, m);
      if s.threads[t].pc == Finishing(RFree) {
        FinisherFrees(s, t, u);
      } else {
        DeleterFrees(s, t, u, 0);
        DeleterClear(s, t, u);
      }
    }
  }

  lemma SparedOther(s: State, t: nat, c: Choice, m: Move, u: nat)
    requires Base(s) && Alive(s) && t < |s.threads| && u < |s.threads| && Traceable(s, s.threads[t], c, m)
    ensures Spared(Apply(s, t, m), s.threads[u])
  {
    var th, b := s.threads[t], s.threads[u];
    assert Levelled(s) && Refers(s, th) && Spared(s, b);
    OutOfReach(s, t, c, m, u);
    hide Base, Alive, Traceable, Levelled, Whole, Detached, Superseded, Unread, Freed, Placed, Slotted, Topped;
    Frees(s, t, m, b.held.rcu);
    if Detached(b.pc) { WholeKept(s, t, c, m, b.tag); }
    if b.pc == Finishing(RRelease) || b.pc == Finishing(RFree) { SupersededKept(s, t, c, m, b.inst); }
    if b.pc == Finishing(RFree) { UnreadKept(s, t, c, m, b.inst); }
  }

  // ----- the thread that moves -----

  predicate FinishesBy(th: Thread, v: View, m: Move) {
    && (m.thread.pc == Finishing(RRelease) ==>
        th.pc == Finishing(RCompare) && m.effect.Quiet? && m.thread.inst == th.inst && v.curEpoch > v.epoch)
    && (m.thread.pc == Finishing(RFree) ==>
        th.pc == Finishing(RRelease) && m.effect.UnlockRcu? && m.thread.inst == th.inst)
  }

  lemma FinishLines(th: Thread, line: Finish, v: View)
    requires th.pc == Finishing(line)
    ensures FinishesBy(th, v, GoFinish(th, line, v))
  {}

  // How a finisher comes to its last lines.
  lemma Finishes(s: State, t: nat, c: Choice)
    requires t < |s.threads| && Traceable(s, s.threads[t], c, MoveOf(s, t, c))
    ensures FinishesBy(s.threads[t], Look(s, s.threads[t]), MoveOf(s, t, c))
  {
    var th, v := s.threads[t], Look(s, s.threads[t]);
    hide Shape, Legal, Origin, Look, GoStart, GoReceive, GoRenew, GoSend, GoPost, GoAwake, GoRouse, GoDelete, GoFree,
         GoExit, GoFinish;
    if th.pc.Finishing? {
      FinishLines(th, th.pc.finish, v);
    }
  }

  // A higher epoch of the level exists, so the instance is not the published one.
  lemma Outdated(s: State, th: Thread)
    requires Levelled(s) && Placed(s, th) && th.inst >= 0 && Look(s, th).curEpoch > Look(s, th).epoch
    ensures Superseded(s, th.inst)
  {
    assert Below(s, th.inst);
    if 0 <= th.cur < |s.insts| { assert Below(s, th.cur); }
  }

  lemma OwnUnread(s: State, t: nat)
    requires Locked(s) && t < |s.threads| && Shape(s.threads[t]) && s.threads[t].pc == Finishing(RRelease)
    ensures Unread(s, s.threads[t].inst) && Target(s.threads[t], UnlockRcu) == s.threads[t].inst
  {
    hide Tallied, Owned;
    assert Ranged(s.threads[t].held, |s.tags|, |s.cells|, |s.insts|);
    assert Synced(s.insts[s.threads[t].inst].sync, s.threads[t].inst, s.threads);
  }

  lemma SparedFinishing(s: State, t: nat, c: Choice)
    requires Base(s) && Alive(s) && Enabled(s, t, c) && Traceable(s, s.threads[t], c, MoveOf(s, t, c))
    ensures var n, s' := MoveOf(s, t, c).thread, Step(s, t, c);
            && (n.pc == Finishing(RRelease) ==> Superseded(s', n.inst))
            && (n.pc == Finishing(RFree) ==> Superseded(s', n.inst) && Unread(s', n.inst))
  {
    var th, m := s.threads[t], MoveOf(s, t, c);
    assert Levelled(s) && Refers(s, th) && Spared(s, th) && Shape(th);
    Finishes(s, t, c);
    if m.thread.pc == Finishing(RRelease) {
      WorksOn(th);
      Outdated(s, th);
      SupersededKept(s, t, c, m, th.inst);
    } else if m.thread.pc == Finishing(RFree) {
      SupersededKept(s, t, c, m, th.inst);
      OwnUnread(s, t);
      UnreadKept(s, t, c, m, th.inst);
    }
  }

  lemma WorksOn(th: Thread)
    requires Shape(th) && th.pc.Finishing?
    ensures th.inst >= 0
  {}

  // A read lock is taken on the published instance of the tag in tags[].
  lemma TakesLive(s: State, th: Thread)
    requires Shape(th) && Refers(s, th) && Levelled(s) && Joining(th.pc) && (s.slot != NONE ==> Whole(s, s.slot))
    ensures !Freed(s, th.inst)
  {
    hide Below, OwnCall, Leaving;
  }

  // Afterwards the thread reads what it read before, nothing, or what it has just locked.
  lemma ReadsNext(th: Thread, e: Effect)
    ensures Hold(th, e).rcu == th.held.rcu || Hold(th, e).rcu == NONE
            || (e == LockRcu(false) && Hold(th, e).rcu == th.inst)
  {}

  lemma OwnReads(s: State, t: nat, c: Choice, m: Move)
    requires Base(s) && Alive(s) && t < |s.threads| && Traceable(s, s.threads[t], c, m)
    ensures !Freed(Apply(s, t, m), Hold(s.threads[t], m.effect).rcu)
  {
    var th := s.threads[t];
    assert Levelled(s) && Refers(s, th) && Spared(s, th);
    OutOfReach(s, t, c, m, t);
    ReadsNext(th, m.effect);
    hide Hold;
    Frees(s, t, m, Hold(th, m.effect).rcu);
    if m.effect == LockRcu(false) {
      assert Joining(th.pc) by { hide Shape, Traces, Legal; }
      TakesLive(s, th);
    }
    hide Base, Alive, Shape, Traces, Levelled, Refers, Legal, Whole, Detached, Superseded, Unread, Apply;
  }

  // Which tag a deleter has, and which tag a store to tags[] puts there.
  lemma WholeNext(s: State, th: Thread, c: Choice, m: Move)
    requires NONE <= s.slot && Slotted(s, th) && Traceable(s, th, c, m)
    ensures Detached(m.thread.pc) ==> (Detached(th.pc) && m.thread.tag == th.tag) || m.thread.tag == s.slot != NONE
    ensures m.effect.SetSlot? ==> m.effect.value == NONE || (Detached(th.pc) && m.effect.value == th.tag)
  {
    TagNeeds(th);
    TagNeeds(Moved(th, m));
    hide Shape, Legal, AtTop, Fetching, Private, Follows, Joining, Nearing, Outside;
  }

  // A deleter's tag, and the tag in tags[], stay whole.
  lemma OwnWhole(s: State, t: nat, c: Choice, m: Move)
    requires Base(s) && Alive(s) && t < |s.threads| && Traceable(s, s.threads[t], c, m)
    ensures Detached(m.thread.pc) ==> Whole(Apply(s, t, m), m.thread.tag)
    ensures Apply(s, t, m).slot != NONE ==> Whole(Apply(s, t, m), Apply(s, t, m).slot)
  {
    hide Traceable, Detached, Below, Placed, Shape, Whole, Superseded, Unread, Freed, Locked, Apart, Clear;
    hide NewTagLock, NewTags, NewCells, NewInsts, Hold;
    var th := s.threads[t];
    assert Levelled(s) && Refers(s, th) && Spared(s, th);
    hide Referring, Alive;
    OutOfReach(s, t, c, m, t);
    WholeNext(s, th, c, m);
    hide Slotted, Topped;
    if s.slot != NONE { WholeLater(s, t, c, m, s.slot); }
    if Detached(th.pc) { WholeLater(s, t, c, m, th.tag); }
  }

  lemma WholeLater(s: State, t: nat, c: Choice, m: Move, k: int)
    requires t < |s.threads| && Whole(s, k) && Levelled(s) && Clear(s, m, k)
    requires Traceable(s, s.threads[t], c, m) && Topped(s, s.threads[t])
    ensures Whole(Apply(s, t, m), k)
  {
    hide Traceable, Levelled, Topped, Whole;
    WholeKept(s, t, c, m, k);
  }

  lemma AliveKept(s: State, t: nat, c: Choice)
    requires Base(s) && Alive(s) && Enabled(s, t, c)
    ensures Alive(Step(s, t, c))
  {
    var m, s' := MoveOf(s, t, c), Step(s, t, c);
    Tracing(s, t, c);
    SparedFinishing(s, t, c);
    OwnReads(s, t, c, m);
    OwnWhole(s, t, c, m);
    forall u | 0 <= u < |s.threads| && u != t ensures Spared(s', s'.threads[u]) {
      SparedOther(s, t, c, m, u);
    }
    hide Base, Traceable, Whole, Superseded, Unread, Freed, Go, Look, Enabled, Hold, Detached;
  }

  lemma AliveCreated(s: State)
    requires Base(s) && Alive(s) && MayCreate(s)
    ensures Alive(Create(s))
  {
    var s' := Create(s);
    assert Levelled(s);
    hide Locked;
    forall c | 0 <= c < |s'.cells| && Of(c, s'.slot) ensures !Freed(s', s'.cells[c].ptr) {
      assert s'.cells[c] == Cell(|s.insts| + (c - |s.cells|), FREE);
      assert s'.insts[|s.insts| + (c - |s.cells|)] == Blank(|s.cells| + (c - |s.cells|), 0);
    }
    forall u | 0 <= u < |s.threads| ensures Spared(s', s'.threads[u]) {
      SparedCreated(s, u);
    }
  }

  lemma SparedCreated(s: State, u: nat)
    requires Base(s) && Alive(s) && MayCreate(s) && u < |s.threads|
    ensures Spared(Create(s), s.threads[u])
  {
    var th, s' := s.threads[u], Create(s);
    assert Spared(s, th) && Levelled(s) && Refers(s, th);
    assert Ranged(th.held, |s.tags|, |s.cells|, |s.insts|);
    hide Base, Alive, Whole, Slotted, Topped;
    assert !Detached(th.pc);
    assert forall i :: 0 <= i < |s.insts| ==> s'.insts[i] == s.insts[i];
    if 0 <= th.inst < |s.insts| { assert Below(s, th.inst); }
  }

  lemma AliveInitial(s: State)
    requires Initial(s)
    ensures Alive(s)
  {}
}
