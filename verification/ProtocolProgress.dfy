// Deadlock freedom: calls never block each other for good. What can be left waiting is a receiver asleep
// that nothing is due to wake, and a last receiver spinning on an instance that such a sleeper occupies.
//
// The locks are taken to be fair: a reader of a level lock queues behind a waiting writer. That blocks
// more than the steps of the protocol do, so the theorem holds for unfair locks too.

module Progress {
  import opened Protocol
  import opened Shapes
  import opened Locks
  import opened Refs
  import opened Runs
  import opened Waking

  // Another thread waits to write the level.
  ghost predicate WriterQueued(s: State, t: nat)
    requires t < |s.threads|
  {
    exists u :: 0 <= u < |s.threads| && u != t && s.threads[u].pc == Renewing(RWrite)
        && s.threads[u].cell == s.threads[t].cell
  }

  // The thread can take its next step; going round the trylock loop once more does not count as one.
  ghost predicate CanStep(s: State, t: nat) {
    && t < |s.threads| && Enabled(s, t, Plain)
    && (Nearing(s.threads[t].pc) ==> !WriterQueued(s, t))
    && (s.threads[t].pc == Finishing(RTry) ==> Look(s, s.threads[t]).rcuFree)
  }

  // Asleep in the wait queue.
  predicate Asleep(s: State, t: nat)
    requires t < |s.threads|
  {
    s.threads[t].pc == Waiting(RSleep) && InQueue(s, t)
  }

  // Asleep with no message, and either no wake-up of the tag or one that a signal has broken off.
  predicate LeftAsleep(s: State, t: nat)
    requires t < |s.threads|
  {
    var v := Look(s, s.threads[t]);
    Asleep(s, t) && !v.data.ready && (!v.tagReady || Broken(s, s.threads[t].tag))
  }

  // Spins on an instance that a sleeper reads.
  ghost predicate SpinsBehind(s: State, th: Thread) {
    th.pc == Finishing(RTry) && exists w :: 0 <= w < |s.threads| && LeftAsleep(s, w) && s.threads[w].held.rcu == th.inst
  }

  // ----- who can step, by what it holds -----

  // On a line that waits for nothing.
  predicate Busy(th: Thread) {
    !th.pc.Idle? && Wants(th) == NoLock && th.pc != Waiting(RSleep) && th.pc != Finishing(RTry)
  }

  lemma BusySteps(s: State, t: nat)
    requires t < |s.threads| && Busy(s.threads[t])
    ensures CanStep(s, t)
  {
    WantedTag(s.threads[t]);
    hide Look, Wants, Lock;
  }

  lemma HoldersGoOn(th: Thread)
    requires Shape(th)
    ensures th.held.tagW ==> Busy(th)
    ensures th.held.rcuW != NONE ==> Busy(th)
    ensures th.held.levW != NONE ==> Busy(th) || Joining(th.pc)
    ensures th.held.levR != NONE ==> Busy(th) || Joining(th.pc)
    ensures th.held.rcu != NONE ==> Busy(th) || th.pc == Renewing(RWrite) || th.pc == Waiting(RSleep)
  {}

  // What each kind of line waits for.
  lemma Blocked(s: State, t: nat)
    requires Base(s) && t < |s.threads| && !CanStep(s, t) && !s.threads[t].pc.Idle?
    ensures var th := s.threads[t];
            || (Outside(th.pc) && s.tagLock.writer != NONE)
            || (Nearing(th.pc) && 0 <= th.cell < |s.cells|
                && (s.cells[th.cell].lock.writer != NONE || WriterQueued(s, t)))
            || (th.pc == Renewing(RWrite) && 0 <= th.cell < |s.cells| && s.cells[th.cell].lock != FREE)
            || (Joining(th.pc) && 0 <= th.inst < |s.insts| && s.insts[th.inst].sync.rcu.writer != NONE)
            || Asleep(s, t)
            || (th.pc == Finishing(RTry) && 0 <= th.inst < |s.insts| && s.insts[th.inst].sync.rcu != FREE)
  {
    var th := s.threads[t];
    assert Shape(th) && Refers(s, th);
    Waits(th);
    WantedTag(th);
    LockRange(s, th);
    hide Base, Shape, Refers, WriterQueued, Outside, Nearing, Joining, Wants, Contended;
  }

  lemma Waits(th: Thread)
    requires Shape(th)
    ensures Wants(th) == NoLock || Outside(th.pc) || Nearing(th.pc) || Joining(th.pc) || th.pc == Renewing(RWrite)
    ensures Joining(th.pc) || th.pc == Finishing(RTry) ==> th.inst >= 0
  {}

  // ----- chasing the blocker -----

  ghost predicate SomeoneSteps(s: State) { exists u :: 0 <= u < |s.threads| && CanStep(s, u) }

  lemma HolderBusy(s: State, w: nat)
    requires Base(s) && w < |s.threads| && (s.threads[w].held.tagW || s.threads[w].held.rcuW != NONE)
    ensures SomeoneSteps(s)
  {
    assert Shape(s.threads[w]);
    HoldersGoOn(s.threads[w]);
    hide Base, Shape, CanStep, Busy;
    BusySteps(s, w);
  }

  // A lock held for writing on a tag or an instance is held by a thread that waits for nothing.
  lemma TagWriterSteps(s: State)
    requires Base(s) && s.tagLock.writer != NONE
    ensures SomeoneSteps(s)
  {
    hide Referring, SomeoneSteps;
    assert Guarded(s.tagLock, TagLock, s.threads);
    hide Tallied, Synced, Ranged;
    HolderBusy(s, s.tagLock.writer);
  }

  lemma InstWriterSteps(s: State, i: nat)
    requires Base(s) && i < |s.insts| && s.insts[i].sync.rcu.writer != NONE
    ensures SomeoneSteps(s)
  {
    hide Base, CanStep;
    InstWriterBusy(s, i);
  }

  // Whoever holds a level lock can step, or waits for an instance lock whose writer can step.
  ghost predicate LetsThrough(s: State, w: nat) {
    && w < |s.threads|
    && (CanStep(s, w)
        || (0 <= s.threads[w].inst < |s.insts| &&
            var x := s.insts[s.threads[w].inst].sync.rcu.writer; 0 <= x < |s.threads| && CanStep(s, x)))
  }

  lemma LevelHolderSteps(s: State, w: nat)
    requires Base(s) && w < |s.threads| && (s.threads[w].held.levW != NONE || s.threads[w].held.levR != NONE)
    ensures LetsThrough(s, w)
  {
    hide WriterQueued;
    assert Shape(s.threads[w]);
    HoldersGoOn(s.threads[w]);
    hide Base, Shape, CanStep, Busy, Nearing, Outside, Joining;
    if Busy(s.threads[w]) {
      BusySteps(s, w);
    } else {
      JoiningOnly(s.threads[w].pc);
      if !CanStep(s, w) {
        Blocked(s, w);
        InstWriterBusy(s, s.threads[w].inst);
      }
    }
  }

  lemma ShapeAt(s: State, u: nat)
    requires Base(s) && u < |s.threads|
    ensures Shape(s.threads[u])
  {
    hide Locked, Levelled, Shape, Apart, Refers;
  }

  lemma InstWriterBusy(s: State, i: nat)
    requires Base(s) && i < |s.insts| && s.insts[i].sync.rcu.writer != NONE
    ensures var x := s.insts[i].sync.rcu.writer; 0 <= x < |s.threads| && CanStep(s, x)
  {
    hide Referring, Synced, Guarded, Tallied;
    WriterOf(s, i);
    var x := s.insts[i].sync.rcu.writer;
    ShapeAt(s, x);
    HoldersGoOn(s.threads[x]);
    hide Base, Shape, CanStep, Busy;
    BusySteps(s, x);
  }

  lemma LetThrough(s: State, w: nat)
    requires LetsThrough(s, w)
    ensures SomeoneSteps(s)
  {
    hide CanStep;
  }

  lemma Witness(s: State, u: nat)
    requires u < |s.threads| && CanStep(s, u)
    ensures SomeoneSteps(s)
  {}

  lemma JoiningOnly(pc: PC)
    requires Joining(pc)
    ensures !pc.Idle? && !Outside(pc) && !Nearing(pc) && pc != Renewing(RWrite) && !pc.Waiting? && !pc.Finishing?
  {}

  lemma Member<T>(who: set<T>) returns (w: T)
    requires who != {}
    ensures w in who
  {
    w :| w in who;
  }

  // A level lock that is not free is held by somebody.
  lemma LevelHeld(s: State, c: nat) returns (w: nat)
    requires Base(s) && c < |s.cells| && s.cells[c].lock != FREE
    ensures w < |s.threads| && (s.threads[w].held.levW == c || s.threads[w].held.levR == c)
  {
    hide Referring, Tallied, Synced, Ranged;
    var lock := s.cells[c].lock;
    assert Guarded(lock, LevelLock(c), s.threads);
    hide Locked;
    if lock.writer != NONE {
      w := lock.writer;
    } else {
      w := Member(lock.readers);
    }
  }

  lemma LevelTaken(s: State, c: nat)
    requires Base(s) && c < |s.cells| && s.cells[c].lock != FREE
    ensures SomeoneSteps(s)
  {
    hide Base, SomeoneSteps, LetsThrough;
    var w := LevelHeld(s, c);
    LevelHolderSteps(s, w);
    LetThrough(s, w);
  }

  // A queued writer of a level can step, or waits for a holder of that level's lock that lets it through.
  lemma QueueMoves(s: State, t: nat)
    requires Reachable(s) && t < |s.threads| && s.threads[t].pc == Renewing(RWrite)
    ensures CanStep(s, t) || exists w :: 0 <= w < |s.threads| && HoldsLevelOf(s, w, t) && LetsThrough(s, w)
  {
    ReachableSafe(s);
    hide Safe, Reachable, CanStep, WriterQueued, LetsThrough;
    assert Base(s) by { BaseOf(s); }
    if !CanStep(s, t) {
      Blocked(s, t);
      var w := LevelHeld(s, s.threads[t].cell);
      LevelHolderSteps(s, w);
    }
  }

  lemma BaseOf(s: State)
    requires Safe(s)
    ensures Base(s)
  {
    hide Base;
  }

  predicate HoldsLevelOf(s: State, w: nat, t: nat)
    requires w < |s.threads| && t < |s.threads|
  {
    s.threads[w].held.levW == s.threads[t].cell || s.threads[w].held.levR == s.threads[t].cell
  }

  lemma WriterMoves(s: State, t: nat)
    requires Base(s) && t < |s.threads| && s.threads[t].pc == Renewing(RWrite)
    ensures SomeoneSteps(s)
  {
    hide Base, SomeoneSteps, CanStep, WriterQueued;
    if CanStep(s, t) {
      Witness(s, t);
    } else {
      Blocked(s, t);
      LevelTaken(s, s.threads[t].cell);
    }
  }

  // The reader in the way of a last receiver.
  lemma InstRead(s: State, i: nat) returns (w: nat)
    requires Base(s) && i < |s.insts| && s.insts[i].sync.rcu != FREE && s.insts[i].sync.rcu.writer == NONE
    ensures w < |s.threads| && s.threads[w].held.rcu == i
  {
    hide Referring, Tallied, Owned, Ranged;
    var lock := s.insts[i].sync.rcu;
    assert Synced(s.insts[i].sync, i, s.threads);
    hide Locked;
    w := Member(lock.readers);
  }

  // Whoever reads an instance can step, queues for a level lock, or sleeps.
  lemma ReaderOf(s: State, w: nat)
    requires Base(s) && w < |s.threads| && s.threads[w].held.rcu != NONE
    ensures CanStep(s, w) || s.threads[w].pc == Renewing(RWrite) || Asleep(s, w)
  {
    assert Shape(s.threads[w]);
    HoldersGoOn(s.threads[w]);
    hide Base, Shape, CanStep, WriterQueued;
    if Busy(s.threads[w]) {
      BusySteps(s, w);
    } else if !CanStep(s, w) && s.threads[w].pc == Waiting(RSleep) {
      Blocked(s, w);
    }
  }

  // Whoever neither sleeps nor spins can step, or somebody it waits for can.
  lemma OthersStep(s: State, t: nat)
    requires Base(s) && t < |s.threads| && !s.threads[t].pc.Idle?
    requires s.threads[t].pc != Waiting(RSleep) && s.threads[t].pc != Finishing(RTry)
    ensures SomeoneSteps(s)
  {
    hide Base, SomeoneSteps, CanStep, WriterQueued;
    var th := s.threads[t];
    if CanStep(s, t) {
      Witness(s, t);
    } else {
      Blocked(s, t);
      if Outside(th.pc) && s.tagLock.writer != NONE {
        TagWriterSteps(s);
      } else if Joining(th.pc) && 0 <= th.inst < |s.insts| && s.insts[th.inst].sync.rcu.writer != NONE {
        InstWriterSteps(s, th.inst);
      } else if s.cells[th.cell].lock != FREE {
        LevelTaken(s, th.cell);
      } else {
        Queued(s, t);
      }
    }
  }

  lemma Queued(s: State, t: nat)
    requires Base(s) && t < |s.threads| && WriterQueued(s, t)
    ensures SomeoneSteps(s)
  {
    hide Base, SomeoneSteps;
    var u :| 0 <= u < |s.threads| && u != t && s.threads[u].pc == Renewing(RWrite)
        && s.threads[u].cell == s.threads[t].cell;
    WriterMoves(s, u);
  }

  // A sleeper to whom a wake-up is due has somebody who can step on the way to it.
  lemma SleeperDue(s: State, t: nat)
    requires Base(s) && Wakeful(s) && t < |s.threads| && Asleep(s, t)
    ensures SomeoneSteps(s) || LeftAsleep(s, t)
  {
    hide Base, Lined, Occupied, FromTheFirst, SomeoneSteps;
    var th := s.threads[t];
    if s.insts[th.inst].data.ready {
      assert Teller(s, th.inst);
      var w :| Valid(s.threads, w) && TellsOn(s.threads[w], th.inst);
      OthersStep(s, w);
    } else if Flagged(s, th.tag) && !Broken(s, th.tag) {
      assert Excused(s, th);
      OthersStep(s, s.tags[th.tag].rouser);
    }
  }

  // A spinning receiver is held up by somebody who can step or by a sleeper.
  lemma Spinning(s: State, t: nat)
    requires Base(s) && Wakeful(s) && t < |s.threads| && s.threads[t].pc == Finishing(RTry) && !CanStep(s, t)
    ensures SomeoneSteps(s) || SpinsBehind(s, s.threads[t])
  {
    hide Base, Wakeful, SomeoneSteps, CanStep, WriterQueued, LeftAsleep, InQueue;
    Blocked(s, t);
    var i := s.threads[t].inst;
    if s.insts[i].sync.rcu.writer != NONE {
      InstWriterSteps(s, i);
    } else {
      var w := InstRead(s, i);
      ReaderOf(s, w);
      if CanStep(s, w) {
        Witness(s, w);
      } else if s.threads[w].pc == Renewing(RWrite) {
        WriterMoves(s, w);
      } else {
        SleeperDue(s, w);
      }
    }
  }

  // In every reachable state in which nobody can step, every call not over is a receiver asleep that
  // nothing is due to wake, or a last receiver spinning on an instance that such a sleeper reads.
  lemma DeadlockFreedom(s: State, t: nat)
    requires Reachable(s) && t < |s.threads| && !s.threads[t].pc.Idle?
    ensures (exists u :: 0 <= u < |s.threads| && CanStep(s, u)) || LeftAsleep(s, t) || SpinsBehind(s, s.threads[t])
  {
    ReachableWakeful(s);
    assert Base(s) by { BaseOf(s); }
    hide Reachable, Safe, Base, CanStep, WriterQueued, SpinsBehind, Wakeful, LeftAsleep, Asleep;
    var th := s.threads[t];
    if CanStep(s, t) {
      Witness(s, t);
    } else if th.pc == Finishing(RTry) {
      Spinning(s, t);
    } else if th.pc == Waiting(RSleep) {
      Blocked(s, t);
      SleeperDue(s, t);
    } else {
      OthersStep(s, t);
    }
  }

  // A move that is not broken off leads to another line, or to another level in the loops over them.
  predicate Onwards(th: Thread, m: Move) { m.thread.pc != th.pc || m.thread.level != th.level }

  lemma ReceiverMoves(th: Thread, v: View)
    requires InReceive(th.pc) && (th.pc == Finishing(RTry) ==> v.rcuFree)
    ensures Onwards(th, Go(th, v, Plain))
  {
    hide CellOf, Prefix, Min, Size, GoSend, GoPost, GoAwake, GoRouse, GoDelete, GoFree, GoExit;
  }

  lemma SenderMoves(th: Thread, v: View)
    requires InSend(th.pc) || th.pc.Exiting?
    ensures Onwards(th, Go(th, v, Plain))
  {
    hide CellOf, Overlay, Text, GoReceive, GoRenew, GoWait, GoFinish, GoAwake, GoRouse, GoDelete, GoFree;
  }

  lemma ControlMoves(th: Thread, v: View)
    requires InAwake(th.pc) || InDelete(th.pc)
    ensures Onwards(th, Go(th, v, Plain))
  {
    hide CellOf, GoReceive, GoRenew, GoWait, GoFinish, GoSend, GoPost, GoExit;
  }

  // A step that can be taken moves its thread on.
  lemma StepMoves(s: State, t: nat)
    requires CanStep(s, t)
    ensures var n, th := Step(s, t, Plain).threads[t], s.threads[t]; n.pc != th.pc || n.level != th.level
  {
    var th, v := s.threads[t], Look(s, s.threads[t]);
    hide Go, Look, Contended, WriterQueued, Unblocked;
    if InReceive(th.pc) {
      ReceiverMoves(th, v);
    } else if InAwake(th.pc) || InDelete(th.pc) {
      ControlMoves(th, v);
    } else {
      SenderMoves(th, v);
    }
  }
}
