// Runs of the protocol and what holds in every state of every run.

module Runs {
  import opened Protocol
  import opened Shapes
  import opened Locks
  import opened Refs
  import opened Grace
  import opened Messages
  import opened Duty

  // ----- the delete that finds pending operations -----

  // Every thread in a tag's count reads that tag under the tag lock.
  lemma CountedInside(s: State, u: nat)
    requires Base(s) && u < |s.threads| && s.threads[u].held.counted != NONE
    ensures var th := s.threads[u]; th.held.tagR && th.held.counted == th.tag == s.slot != NONE
  {
    hide Locked, Levelled, Placed, Topped, Apart, Shape;
    assert Shape(s.threads[u]) && Refers(s, s.threads[u]);
    hide Referring;
    CountsOwn(s.threads[u]);
  }

  lemma CountsOwn(th: Thread)
    requires Shape(th) && th.held.counted != NONE
    ensures th.held.tagR && th.held.counted == th.tag != NONE
  {
    hide OwnCall, Numbers;
  }

  lemma NonePending(s: State, t: nat)
    requires Base(s) && t < |s.threads| && Detached(s.threads[t].pc)
    ensures Look(s, s.threads[t]).tagWaiting == 0
  {
    var th := s.threads[t];
    assert Refers(s, th) && Shape(th);
    hide Guarded, Synced, Ranged, Levelled, Placed, Topped, Shape;
    if 0 <= th.tag < |s.tags| {
      var tag := s.tags[th.tag];
      assert Tallied(tag.members, tag.waiting, TagCount(th.tag), s.threads);
      forall u | u in tag.members ensures false {
        assert Counts(s.threads[u].held, TagCount(th.tag));
        CountedInside(s, u);
      }
      assert tag.members == {};
    }
  }

  // No delete has found operations pending.
  ghost predicate NonePutBack(s: State) {
    forall u :: 0 <= u < |s.threads| ==> s.threads[u].pc != Deleting(DPutBack)
  }

  lemma FromDetached(th: Thread, v: View, m: Move)
    requires Traces(th, v, m) && Detached(m.thread.pc)
    ensures Detached(th.pc) || th.pc == Deleting(DDetach)
  {}

  lemma NotBack(th: Thread, v: View, c: Choice)
    requires (Detached(th.pc) && v.tagWaiting == 0) || th.pc == Deleting(DDetach)
    ensures Go(th, v, c).thread.pc != Deleting(DPutBack)
  {
    hide GoReceive, GoRenew, GoWait, GoFinish, GoSend, GoPost, GoAwake, GoRouse, GoFree, GoExit;
  }

  lemma NonePutBackKept(s: State, t: nat, c: Choice)
    requires Base(s) && NonePutBack(s) && Enabled(s, t, c)
    ensures NonePutBack(Step(s, t, c))
  {
    Tracing(s, t, c);
    hide Base, Shape, Legal, Origin, Traces, Look, Go;
    var th, m := s.threads[t], MoveOf(s, t, c);
    if m.thread.pc == Deleting(DPutBack) {
      FromDetached(th, Look(s, th), m);
      if Detached(th.pc) { NonePending(s, t); }
      NotBack(th, Look(s, th), c);
    }
  }

  // ----- runs -----

  // Everything the modules before prove of one state.
  ghost predicate Safe(s: State) { Base(s) && Alive(s) && Told(s) && Dutiful(s) && NonePutBack(s) }

  lemma SafeInitial(s: State)
    requires Initial(s)
    ensures Safe(s)
  {
    BaseInitial(s);
    AliveInitial(s);
    ToldInitial(s);
  }

  // Every event keeps the whole invariant.
  lemma SafeKept(s: State, e: Event)
    requires Safe(s) && Happens(s, e)
    ensures Safe(After(s, e))
  {
    hide Base, Alive, Told, Dutiful, NonePutBack, Enabled, MayCreate, Step, Create;
    match e
    case Steps(t, c) =>
      BaseKept(s, t, c);
      AliveKept(s, t, c);
      ToldKept(s, t, c);
      DutifulKept(s, t, c);
      NonePutBackKept(s, t, c);
    case Creates =>
      BaseCreated(s);
      AliveCreated(s);
      ToldCreated(s);
      DutifulCreated(s);
      NonePutBackCreated(s);
  }

  lemma NonePutBackCreated(s: State)
    requires NonePutBack(s)
    ensures NonePutBack(Create(s))
  {}

  // A run: from the module just loaded, one event after another, by any threads in any order.
  ghost predicate Run(states: seq<State>, events: seq<Event>) {
    && |states| == |events| + 1 && Initial(states[0])
    && forall k :: 0 <= k < |events| ==> Happens(states[k], events[k]) && states[k + 1] == After(states[k], events[k])
  }

  lemma {:induction false} AlwaysSafe(states: seq<State>, events: seq<Event>, k: nat)
    requires Run(states, events) && k < |states|
    ensures Safe(states[k])
    decreases k
  {
    hide Safe, Initial, Happens, After;
    if k == 0 {
      SafeInitial(states[0]);
    } else {
      AlwaysSafe(states, events, k - 1);
      SafeKept(states[k - 1], events[k - 1]);
    }
  }

  // The states that some run reaches.
  ghost predicate Reachable(s: State) {
    exists states: seq<State>, events: seq<Event> :: Run(states, events) && states[|events|] == s
  }

  lemma ReachableSafe(s: State)
    requires Reachable(s)
    ensures Safe(s)
  {
    var states: seq<State>, events: seq<Event> :| Run(states, events) && states[|events|] == s;
    AlwaysSafe(states, events, |events|);
  }

  // A reachable state leads to reachable states.
  lemma Reaches(s: State, e: Event)
    requires Reachable(s) && Happens(s, e)
    ensures Reachable(After(s, e))
  {
    hide Happens, After, Initial;
    var states: seq<State>, events: seq<Event> :| Run(states, events) && states[|events|] == s;
    assert Run(states + [After(s, e)], events + [e]);
    assert (states + [After(s, e)])[|events + [e]|] == After(s, e);
  }

  lemma InitialReachable(s: State)
    requires Initial(s)
    ensures Reachable(s)
  {
    var none: seq<Event> := [];
    assert Run([s], none) && [s][|none|] == s;
  }
}
