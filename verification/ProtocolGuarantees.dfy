// What the protocol guarantees, in every reachable state and over every run.

module Guarantees {
  import opened Protocol
  import opened Shapes
  import opened Locks
  import opened Refs
  import opened Grace
  import opened Messages
  import opened Duty
  import opened Runs

  // ----- freshness -----

  // A receive that has returned 1 holds the beginning of one message, as much of it as fits, posted on
  // the level it received from and not yet posted when it began.
  lemma Freshness(s: State, t: nat)
    requires Reachable(s) && t < |s.threads|
    requires s.threads[t].pc.Idle? && s.threads[t].call.Receive? && s.threads[t].rc == 1
    ensures var th := s.threads[t];
            exists p :: th.began <= p < |s.log| && s.log[p].cell == th.cell &&
                        th.got == Prefix(s.log[p].text, Min(Size(th.call), |s.log[p].text|))
  {
    ReachableSafe(s);
    var th := s.threads[t];
    assert Minds(th, DataOf(s, th.inst), s.log);
    hide Base, Alive, Dutiful, Told, Reachable, NonePutBack;
    assert s.log[th.source].cell == th.cell;
  }

  // The call a thread is in, and where the log stood when it began, stay the same until it starts another.
  lemma SameCall(s: State, e: Event, t: nat)
    requires Safe(s) && Happens(s, e) && t < |s.threads| && !(e.Steps? && e.thread == t && e.choice.Start?)
    ensures t < |After(s, e).threads| && s.log <= After(s, e).log
    ensures After(s, e).threads[t].call == s.threads[t].call && After(s, e).threads[t].began == s.threads[t].began
  {
    hide Base, Alive, Told, Dutiful, Go, Look, Seen, Unblocked, Contended, Wants;
    if e.Steps? {
      LogKept(s, e.thread, MoveOf(s, e.thread, e.choice));
      if e.thread == t { MoverStays(s, t, e.choice); }
    }
  }

  lemma MoverStays(s: State, t: nat, c: Choice)
    requires Safe(s) && Enabled(s, t, c) && !c.Start?
    ensures MoveOf(s, t, c).thread.call == s.threads[t].call && MoveOf(s, t, c).thread.began == s.threads[t].began
  {
    hide Shape, Refers, Apart, Levelled, Minds, Intact, Alive, Dutiful, NonePutBack, Go, Look, Seen;
    SeenHere(s, t, c);
    hide Base, Told, Unblocked, Contended, Wants;
    Carried(s.threads[t], Look(s, s.threads[t]), c);
    hide Contents, Copies, Remembers, Enabled;
  }

  // Starting a call notes where the log stands.
  lemma Starts(s: State, t: nat, call: Call)
    requires Happens(s, Steps(t, Start(call)))
    ensures var s' := After(s, Steps(t, Start(call)));
            t < |s'.threads| && s'.threads[t].call == call && s'.threads[t].began == |s.log| && s'.log == s.log
  {
    LookPtr(s, s.threads[t]);
    hide Look;
  }

  lemma {:induction false} CallLasts(states: seq<State>, events: seq<Event>, j: nat, k: nat, t: nat, call: Call)
    requires Run(states, events) && j < k < |states| && events[j] == Steps(t, Start(call))
    requires forall x :: j < x < k ==> !(events[x].Steps? && events[x].thread == t && events[x].choice.Start?)
    ensures t < |states[k].threads| && states[j].log <= states[k].log
    ensures states[k].threads[t].call == call && states[k].threads[t].began == |states[j].log|
    decreases k
  {
    hide Safe, Happens, After, Initial;
    if k == j + 1 {
      Starts(states[j], t, call);
    } else {
      CallLasts(states, events, j, k - 1, t, call);
      AlwaysSafe(states, events, k - 1);
      SameCall(states[k - 1], events[k - 1], t);
    }
  }

  // Over every run: a receive started at step j that is over with result 1 at step k has copied a message
  // that had not been posted at step j, whatever was on the level when it began.
  lemma FreshnessOverRuns(states: seq<State>, events: seq<Event>, j: nat, k: nat, t: nat, call: Call)
    requires Run(states, events) && j < k < |states| && events[j] == Steps(t, Start(call)) && call.Receive?
    requires forall x :: j < x < k ==> !(events[x].Steps? && events[x].thread == t && events[x].choice.Start?)
    requires t < |states[k].threads| && states[k].threads[t].pc.Idle? && states[k].threads[t].rc == 1
    ensures var th, log := states[k].threads[t], states[k].log;
            states[j].log <= log &&
            exists p :: |states[j].log| <= p < |log| && log[p].cell == th.cell &&
                        th.got == Prefix(log[p].text, Min(Size(call), |log[p].text|))
  {
    CallLasts(states, events, j, k, t, call);
    assert Reachable(states[k]) by { Prefixes(states, events, k); }
    hide Run, Reachable;
    Freshness(states[k], t);
  }

  // Every state of a run is reachable.
  lemma Prefixes(states: seq<State>, events: seq<Event>, k: nat)
    requires Run(states, events) && k < |states|
    ensures Reachable(states[k])
  {
    hide Happens, After, Initial;
    assert Run(states[..k + 1], events[..k]);
    assert states[..k + 1][|events[..k]|] == states[k];
  }

  // ----- one message at a time -----

  // While anyone reads a ready instance nothing writes it: no sender and no receiver that clears it.
  lemma StaysWhileRead(s: State, e: Event, i: nat, u: nat)
    requires Reachable(s) && Happens(s, e) && i < |s.insts| && s.insts[i].data.ready
    requires u < |s.threads| && s.threads[u].held.rcu == i
    ensures i < |After(s, e).insts| && After(s, e).insts[i].data == s.insts[i].data
  {
    ReachableSafe(s);
    if e.Steps? {
      var t, c := e.thread, e.choice;
      Tracing(s, t, c);
      DataKept(s, t, MoveOf(s, t, c), i);
      assert Minds(s.threads[t], DataOf(s, s.threads[t].inst), s.log);
      hide Safe, Reachable, Minds;
      NobodyWrites(s, t, c, i, u);
    }
  }

  // An instance is written by a sender that found it not ready, or by a receiver that has it alone.
  lemma WhoAlters(th: Thread, v: View, c: Choice, m: Move)
    requires Origin(th, v, c, m) && Contents(th, v, m.effect) && Alters(m.effect)
    ensures Filling(th.pc) || th.pc == Finishing(RReset) || th.pc == Finishing(RResize)
  {}

  lemma NobodyWrites(s: State, t: nat, c: Choice, i: nat, u: nat)
    requires Safe(s) && Enabled(s, t, c) && Traceable(s, s.threads[t], c, MoveOf(s, t, c))
    requires i < |s.insts| && s.insts[i].data.ready && u < |s.threads| && s.threads[u].held.rcu == i
    ensures i != s.threads[t].inst || !Alters(MoveOf(s, t, c).effect)
  {
    hide Alive, Dutiful, Base, Traces, Legal, Seen, Minds, Intact, Filling, Contents, Origin, Shape;
    var th := s.threads[t];
    assert Minds(th, DataOf(s, th.inst), s.log);
    SeenHere(s, t, c);
    hide Told, Look;
    if th.pc.Idle? {
      IdleQuiet(s, t, c);
    } else {
      Carried(th, Look(s, th), c);
      hide Go;
      if i == th.inst && Alters(MoveOf(s, t, c).effect) {
        WhoAlters(th, Look(s, th), c, MoveOf(s, t, c));
        NotFilling(th, DataOf(s, i), s.log);
        ResetterAlone(s, t, u);
      }
    }
  }

  lemma IdleQuiet(s: State, t: nat, c: Choice)
    requires Enabled(s, t, c) && s.threads[t].pc.Idle?
    ensures MoveOf(s, t, c).effect.Quiet?
  {}

  lemma NotFilling(th: Thread, d: Data, log: seq<Post>)
    requires Minds(th, d, log) && d.ready
    ensures !Filling(th.pc)
  {}

  lemma ResetterAlone(s: State, t: nat, u: nat)
    requires Base(s) && t < |s.threads| && u < |s.threads|
    requires s.threads[t].pc == Finishing(RReset) || s.threads[t].pc == Finishing(RResize)
    ensures s.threads[u].held.rcu != s.threads[t].inst
  {
    var th, i := s.threads[t], s.threads[t].inst;
    assert Shape(th);
    Hands(th);
    hide Referring, Shape, Guarded, Tallied, Owned;
    assert Ranged(th.held, |s.tags|, |s.cells|, |s.insts|);
    assert Synced(s.insts[i].sync, i, s.threads);
    hide Locked;
    if s.threads[u].held.rcu == i {
      Alone(s.insts[i].sync.rcu, RcuLock(i), s.threads, t, u);
      OneHand(th);
    }
  }

  lemma OneHand(th: Thread)
    requires Shape(th) && th.pc.Finishing?
    ensures th.held.rcu == NONE
  {}

  // From the moment an instance is ready until a state in which nobody reads it, its message stays.
  lemma {:induction false} Broadcast(states: seq<State>, events: seq<Event>, j: nat, k: nat, i: nat)
    requires Run(states, events) && j <= k < |states| && i < |states[j].insts| && states[j].insts[i].data.ready
    requires forall x :: j <= x < k ==> SomeReader(states[x], i)
    ensures i < |states[k].insts| && states[k].insts[i].data == states[j].insts[i].data
    decreases k
  {
    hide Happens, After, Initial, Reachable;
    if j < k {
      Broadcast(states, events, j, k - 1, i);
      Prefixes(states, events, k - 1);
      assert SomeReader(states[k - 1], i);
      var u :| 0 <= u < |states[k - 1].threads| && states[k - 1].threads[u].held.rcu == i;
      StaysWhileRead(states[k - 1], events[k - 1], i, u);
    }
  }

  ghost predicate SomeReader(s: State, i: int) {
    exists u :: 0 <= u < |s.threads| && s.threads[u].held.rcu == i
  }

  // Between two resets of an instance at most one message is posted on it, it is ready exactly when
  // there is one, and then it holds that message and its size, with nothing of older ones.
  lemma OneMessage(s: State, i: nat)
    requires Reachable(s) && i < |s.insts|
    ensures var d := s.insts[i].data;
            && d.posts <= 1 && (d.ready <==> d.posts == 1)
            && (d.ready ==>
                && d.post < |s.log| && s.log[d.post].cell == s.insts[i].cell
                && d.size == |s.log[d.post].text| <= |d.buffer| && d.buffer[..d.size] == s.log[d.post].text)
  {
    ReachableSafe(s);
    assert Intact(s.insts[i], s.log);
  }

  // ----- the grace period -----

  // When an instance is freed by the last receiver, no level points to it, nobody reads it, and nobody
  // who has fetched it is still about to read it.
  lemma GracePeriod(s: State, t: nat, u: nat)
    requires Reachable(s) && t < |s.threads| && u < |s.threads| && s.threads[t].pc == Finishing(RFree)
    ensures var i := s.threads[t].inst;
            && 0 <= i < |s.insts| && (forall c :: 0 <= c < |s.cells| ==> s.cells[c].ptr != i)
            && s.insts[i].sync.rcu.readers == {} && s.threads[u].held.rcu != i
            && !(AtTop(s.threads[u].pc) && s.threads[u].inst == i)
  {
    ReachableSafe(s);
    FinisherFrees(s, t, u);
    assert Spared(s, s.threads[t]) && Refers(s, s.threads[u]);
    hide Base, Dutiful, Told, Reachable, Alive;
  }

  // Nobody reads freed memory under an rcu_lock, and the levels of the tag in tags[] are never freed ones.
  lemma NeverFreedInUse(s: State, u: nat, c: nat)
    requires Reachable(s) && u < |s.threads| && c < |s.cells|
    ensures s.threads[u].held.rcu != NONE ==>
            0 <= s.threads[u].held.rcu < |s.insts| && !s.insts[s.threads[u].held.rcu].freed
    ensures s.slot != NONE && Of(c, s.slot) ==> 0 <= s.cells[c].ptr < |s.insts| && !s.insts[s.cells[c].ptr].freed
  {
    ReachableSafe(s);
    assert Spared(s, s.threads[u]) && Levelled(s) && Shape(s.threads[u]) && Refers(s, s.threads[u]);
    if s.threads[u].held.rcu != NONE { ReadsOwn(s, s.threads[u]); }
    hide Reachable, Dutiful, Told, Shape, Refers, Referring, Locked;
  }

  // ----- epochs -----

  // A level's pointer changes only when a receiver publishes a new instance on it: of the next epoch,
  // empty and not freed. Putting the old pointer back after a broken wait changes nothing.
  lemma EpochStep(s: State, e: Event, c: nat)
    requires Reachable(s) && Happens(s, e) && c < |s.cells|
    ensures var s', p := After(s, e), s.cells[c].ptr;
            && c < |s'.cells| && 0 <= p < |s.insts| <= |s'.insts| &&
            var q := s'.cells[c].ptr;
            q == p || (q == |s.insts| < |s'.insts| && s'.insts[q].epoch == s.insts[p].epoch + 1
                       && !s'.insts[q].freed && !s'.insts[q].data.ready && e.Steps?
                          && s.threads[e.thread].pc == Renewing(RCreate))
  {
    ReachableSafe(s);
    hide Reachable, Safe, Alive, Told, Dutiful, NonePutBack, Traceable, Shape, Slotted;
    assert Base(s) by { assert Safe(s); }
    assert Levelled(s);
    if e.Steps? {
      Tracing(s, e.thread, e.choice);
      EpochMove(s, e.thread, e.choice, c);
    }
  }

  lemma EpochMove(s: State, t: nat, x: Choice, c: nat)
    requires Base(s) && Enabled(s, t, x) && Traceable(s, s.threads[t], x, MoveOf(s, t, x)) && c < |s.cells|
    ensures var s', p := Step(s, t, x), s.cells[c].ptr;
            && c < |s'.cells| && 0 <= p < |s.insts| <= |s'.insts| &&
            var q := s'.cells[c].ptr;
            q == p || (q == |s.insts| < |s'.insts| && s'.insts[q].epoch == s.insts[p].epoch + 1
                       && !s'.insts[q].freed && !s'.insts[q].data.ready && s.threads[t].pc == Renewing(RCreate))
  {
    var th, m := s.threads[t], MoveOf(s, t, x);
    assert Levelled(s) && Refers(s, th);
    hide Base, Shape, Traces, Legal, Slotted, Placed, Below, Go, Look, Enabled, Joining, Nearing, Outside;
    PointerMoves(s, th, x, m);
    hide Traceable;
    Memory(s, t, m);
    NewBlank(s, t, m);
    hide Apply;
  }

  lemma PointerMoves(s: State, th: Thread, x: Choice, m: Move)
    requires Traceable(s, th, x, m) && Topped(s, th)
    ensures m.effect.Publish? ==> th.pc == Renewing(RCreate) && th.inst == Ptr(s, th.cell)
    ensures m.effect.Restore? ==> th.base == Ptr(s, th.cell)
  {
    hide Shape, Traces, Legal, Ptr;
  }

  // The epoch of a level's published instance; instances never change epoch.
  function LevelEpoch(s: State, c: int): int { EpochAt(s, Ptr(s, c)) }

  lemma EpochsStay(s: State, e: Event, i: nat)
    requires Happens(s, e) && i < |s.insts|
    ensures i < |After(s, e).insts| && After(s, e).insts[i].epoch == s.insts[i].epoch
  {
    if e.Steps? { Memory(s, e.thread, MoveOf(s, e.thread, e.choice)); }
  }

  // Over every run, published epochs of a level never go backwards.
  lemma {:induction false} EpochsGrow(states: seq<State>, events: seq<Event>, j: nat, k: nat, c: nat)
    requires Run(states, events) && j <= k < |states| && c < |states[j].cells|
    ensures c < |states[k].cells| && LevelEpoch(states[j], c) <= LevelEpoch(states[k], c)
    decreases k
  {
    hide Happens, After, Initial, Reachable;
    if j < k {
      EpochsGrow(states, events, j, k - 1, c);
      Prefixes(states, events, k - 1);
      EpochStep(states[k - 1], events[k - 1], c);
      EpochsStay(states[k - 1], events[k - 1], states[k - 1].cells[c].ptr);
    }
  }

  // ----- nobody responsible -----

  // A live instance with a message always has a receiver still to leave it, or the last one out still to
  // reset or free it.
  lemma SomebodyResponsible(s: State, i: nat)
    requires Reachable(s) && i < |s.insts| && s.insts[i].data.ready && !s.insts[i].freed
    ensures s.insts[i].sync.waiting > 0 || exists w :: 0 <= w < |s.threads| && Closing(s.threads[w], i)
  {
    ReachableSafe(s);
    assert Attended(s, i);
    assert Synced(s.insts[i].sync, i, s.threads);
    hide Guarded, Alive, Told, Dutiful, Referring, Reachable, Owned;
  }

  // Who is counted on an instance, or closes one, holds the tag lock.
  lemma HoldsTag(th: Thread)
    requires Shape(th)
    ensures th.held.entered != NONE || th.pc.Finishing? || th.held.counted != NONE ==> th.held.tagR
    ensures th.held.rcu != NONE || th.held.rcuW != NONE ==> th.held.tagR
  {}

  // When no call is inside a tag, every instance not yet freed is ready for use: no message, nobody
  // counted, its rcu_lock free; and no tag counts anybody.
  lemma Quiescence(s: State, i: nat, k: nat)
    requires Reachable(s) && i < |s.insts| && k < |s.tags|
    requires forall u :: 0 <= u < |s.threads| ==> !s.threads[u].held.tagR
    ensures !s.insts[i].freed ==> !s.insts[i].data.ready
    ensures s.insts[i].sync.waiting == 0 && s.insts[i].sync.rcu == FREE && s.tags[k].waiting == 0
  {
    ReachableSafe(s);
    forall u | 0 <= u < |s.threads| ensures Absent(s.threads[u]) {
      assert Shape(s.threads[u]);
      HoldsTag(s.threads[u]);
      hide Safe, Reachable, Shape;
    }
    hide Alive, Told, Referring, Reachable, Absent;
    assert Synced(s.insts[i].sync, i, s.threads);
    assert Tallied(s.tags[k].members, s.tags[k].waiting, TagCount(k), s.threads);
    Deserted(s, i, k);
  }

  predicate Absent(th: Thread) {
    th.held.entered == NONE && th.held.rcu == NONE && th.held.rcuW == NONE && th.held.counted == NONE
        && !th.pc.Finishing?
  }

  lemma Deserted(s: State, i: nat, k: nat)
    requires i < |s.insts| && k < |s.tags| && Synced(s.insts[i].sync, i, s.threads)
    requires Tallied(s.tags[k].members, s.tags[k].waiting, TagCount(k), s.threads)
    requires s.insts[i].data.ready && !s.insts[i].freed ==> Attended(s, i)
    requires forall u :: 0 <= u < |s.threads| ==> Absent(s.threads[u])
    ensures !s.insts[i].freed ==> !s.insts[i].data.ready
    ensures s.insts[i].sync.waiting == 0 && s.insts[i].sync.rcu == FREE && s.tags[k].waiting == 0
  {
    var y, who := s.insts[i].sync, s.tags[k].members;
    forall u | 0 <= u < |s.threads| ensures u !in y.waiters && u !in who && u !in y.rcu.readers {
      assert Absent(s.threads[u]);
    }
    forall u | Valid(s.threads, u) ensures u != y.rcu.writer {
      assert Absent(s.threads[u]);
    }
    assert y.waiters == {} && who == {} && y.rcu.readers == {};
  }

  // ----- deletion -----

  // A tag's counter is the number of receives between counting themselves in and out, and each of them
  // holds the tag lock for reading on the tag in tags[].
  lemma TagCounter(s: State, k: nat)
    requires Reachable(s) && k < |s.tags|
    ensures s.tags[k].waiting == |set u | 0 <= u < |s.threads| && s.threads[u].held.counted == k|
    ensures forall u :: 0 <= u < |s.threads| && s.threads[u].held.counted == k ==> s.threads[u].held.tagR && s.slot == k
  {
    ReachableSafe(s);
    forall u | 0 <= u < |s.threads| && s.threads[u].held.counted == k ensures s.threads[u].held.tagR && s.slot == k {
      CountedInside(s, u);
    }
    hide Alive, Told, Referring, Reachable;
    assert Tallied(s.tags[k].members, s.tags[k].waiting, TagCount(k), s.threads);
    assert s.tags[k].members == set u | 0 <= u < |s.threads| && s.threads[u].held.counted == k;
  }

  // A deletion never finds operations pending, so it never takes that way out.
  lemma NeverPending(s: State, t: nat)
    requires Reachable(s) && t < |s.threads|
    ensures s.threads[t].pc == Deleting(DPending) ==> Look(s, s.threads[t]).tagWaiting == 0
    ensures s.threads[t].pc != Deleting(DPutBack)
  {
    ReachableSafe(s);
    if s.threads[t].pc == Deleting(DPending) { NonePending(s, t); }
    hide Base, Alive, Told, Dutiful, Look, Reachable;
  }

  // While a deletion frees a tag, the tag is not in tags[] and no other thread knows it, is counted in it,
  // or holds one of its level locks or the rcu_lock of one of its instances.
  lemma DeleteExclusion(s: State, t: nat, u: nat)
    requires Reachable(s) && t < |s.threads| && u < |s.threads| && u != t && s.threads[t].pc.Freeing?
    ensures var k, b := s.threads[t].tag, s.threads[u];
            && k >= 0 && s.slot != k && b.tag != k && b.held.counted != k
            && !Of(b.held.levR, k) && !Of(b.held.levW, k)
            && (forall i :: 0 <= i < |s.insts| && (b.held.rcu == i || b.held.rcuW == i || b.held.entered == i) ==>
                !Of(s.insts[i].cell, k))
  {
    ReachableSafe(s);
    Neighbours(s, t, u);
    TagNeeds(s.threads[t]);
    hide Alive, Told, Dutiful, Reachable, Locked, Topped;
    KnowsOwn(s, s.threads[u], s.threads[t].tag);
  }

  // What a thread holds, it holds in the tag it knows.
  lemma KnowsOwn(s: State, th: Thread, k: int)
    requires Shape(th) && Placed(s, th) && k >= 0 && th.tag != k
    ensures th.held.counted != k && !Of(th.held.levR, k) && !Of(th.held.levW, k)
    ensures forall i :: 0 <= i < |s.insts| && (th.held.rcu == i || th.held.rcuW == i || th.held.entered == i) ==>
            !Of(s.insts[i].cell, k)
  {
    HoldsInTag(th);
    hide Shape;
    if Of(th.cell, k) && th.tag >= 0 { Distinct(th.cell, th.tag, k); }
  }

  lemma HoldsInTag(th: Thread)
    requires Shape(th)
    ensures th.held.counted == NONE || th.held.counted == th.tag
    ensures th.held.levR == NONE || (th.held.levR == th.cell && th.tag >= 0)
    ensures th.held.levW == NONE || (th.held.levW == th.cell && th.tag >= 0)
    ensures th.held.rcu == NONE || ((th.held.rcu == th.inst || th.held.rcu == th.temp) && th.tag >= 0)
    ensures th.held.rcuW == NONE || (th.held.rcuW == th.inst && th.tag >= 0)
    ensures th.held.entered == NONE || (th.held.entered == th.inst && th.tag >= 0)
    ensures th.tag >= 0 ==> Of(th.cell, th.tag)
  {}

  // ----- branches never taken -----

  // Wherever the code tests the level pointer for null, it points to an instance of that level.
  lemma NeverNull(s: State, t: nat)
    requires Reachable(s) && t < |s.threads| && (Fetching(s.threads[t].pc) || s.threads[t].pc == Finishing(RPeek))
    ensures var p := Ptr(s, s.threads[t].cell);
            0 <= p < |s.insts| && s.insts[p].cell == s.threads[t].cell && !s.insts[p].freed
  {
    ReachableSafe(s);
    var th := s.threads[t];
    assert Levelled(s) && Shape(th) && Refers(s, th);
    InOwnTag(s, th);
    hide Locked, Told, Dutiful, Reachable, Shape, Below, Topped;
  }

  lemma InOwnTag(s: State, th: Thread)
    requires Shape(th) && Refers(s, th) && (Fetching(th.pc) || th.pc == Finishing(RPeek))
    ensures th.tag == s.slot >= 0 && Of(th.cell, s.slot) && 0 <= th.cell < |s.cells|
  {}

  // A receiver that was woken by a message finds it still there when it copies.
  lemma StillReady(s: State, t: nat)
    requires Reachable(s) && t < |s.threads| && s.threads[t].pc == Waiting(RCopy)
    ensures Look(s, s.threads[t]).data.ready
  {
    ReachableSafe(s);
    assert Minds(s.threads[t], DataOf(s, s.threads[t].inst), s.log);
    hide Base, Alive, Dutiful, Reachable;
  }
}
