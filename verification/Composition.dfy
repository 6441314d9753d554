// The registry and the protocol together, seen at one descriptor: the protocol creates a tag only when
// the slot is empty and no deleter holds the descriptor, and that is what the registry guarantees.

module Composition {
  import opened Protocol
  import opened Shapes
  import opened Refs
  import opened Runs
  import R = Registries

  // The registry's array has a tag at d exactly when the protocol's slot has one, and the calls that
  // delete descriptor d are the protocol's threads that have taken the tag out.
  ghost predicate Mirrors(g: R.Snapshot, s: State, d: int) {
    && R.Coherent(g) && 0 <= d < R.MAX_TAGS
    && (g.slots[d].Some? <==> s.slot != NONE)
    && forall u :: 0 <= u < |s.threads| ==> (Detached(s.threads[u].pc) <==> Deletes(g, u, d))
  }

  ghost predicate Deletes(g: R.Snapshot, u: int, d: int) {
    u in g.calls && g.calls[u].Deleting? && g.calls[u].tagKey == d
  }

  // The descriptor a change of the registry is about.
  ghost function About(g: R.Snapshot, r: R.Change): int
    requires R.Allowed(g, r)
  {
    match r
    case Reserves(_, _, d) => d
    case Detaches(_, d) => d
    case Publishes(t) => g.calls[t].tagKey
    case Abandons(t) => g.calls[t].tagKey
    case Strands(t) => g.calls[t].tagKey
    case Releases(t) => g.calls[t].tagKey
    case Restores(t) => g.calls[t].tagKey
  }

  // A change that the protocol at descriptor d does not see.
  ghost predicate Unseen(g: R.Snapshot, r: R.Change, d: int) {
    R.Allowed(g, r) && (About(g, r) != d || r.Reserves? || r.Abandons? || r.Strands?)
  }

  lemma Owned(g: R.Snapshot, t: int)
    requires R.Coherent(g) && t in g.calls
    ensures 0 <= g.calls[t].tagKey < R.MAX_TAGS && g.slots[g.calls[t].tagKey].None?
    ensures forall u :: u in g.calls && g.calls[u].tagKey == g.calls[t].tagKey ==> u == t
    ensures |g.slots| == R.MAX_TAGS
  {
    var d := g.calls[t].tagKey;
    assert g.owners[d] == R.InCall(g.calls[t].key, t) && R.Answers(g.owners, g.calls, g.model, g.slots, d);
    forall u | u in g.calls && g.calls[u].tagKey == d ensures u == t {
      assert g.owners[g.calls[u].tagKey] == R.InCall(g.calls[u].key, u);
    }
  }

  // A call that is about to publish its tag at d finds the protocol ready for a new tag.
  lemma PublishCreates(g: R.Snapshot, s: State, d: int, t: int)
    requires Mirrors(g, s, d) && R.Allowed(g, R.Publishes(t)) && g.calls[t].tagKey == d
    ensures MayCreate(s) && Mirrors(R.Changed(g, R.Publishes(t)), Create(s), d)
  {
    Owned(g, t);
    R.ChangedAgrees(g, R.Publishes(t));
    hide R.Coherent;
    forall u | 0 <= u < |s.threads| ensures !Detached(s.threads[u].pc) {
      assert !Deletes(g, u, d);
    }
  }

  lemma UnseenMirrors(g: R.Snapshot, s: State, d: int, r: R.Change)
    requires Mirrors(g, s, d) && Unseen(g, r, d)
    ensures Mirrors(R.Changed(g, r), s, d)
  {
    R.ChangedAgrees(g, r);
    if !r.Reserves? && !r.Detaches? { Owned(g, r.thread); }
    if r.Detaches? { TagAt(g, r.d); }
    Sized(g);
    hide R.Coherent;
  }

  lemma TagAt(g: R.Snapshot, d: int)
    requires R.Coherent(g) && 0 <= d < |g.slots| && g.slots[d].Some?
    ensures g.slots[d].value.tagKey == d
  {
    assert R.Answers(g.owners, g.calls, g.model, g.slots, d);
  }

  lemma Sized(g: R.Snapshot)
    requires R.Coherent(g)
    ensures |g.slots| == R.MAX_TAGS
  {}

  // ----- the protocol's own steps -----

  // What a step of a deleter is to the registry, if anything.
  ghost predicate Takes(th: Thread) { th.pc == Deleting(DDetach) }
  ghost predicate Returns(th: Thread) { th.pc == Deleting(DRestore) || th.pc == Deleting(DPutBack) }
  ghost predicate Frees(th: Thread, c: Choice) { th.pc == Deleting(DClear) && !c.Interrupt? }

  ghost predicate Seen(th: Thread, c: Choice) { Takes(th) || Returns(th) || Frees(th, c) }

  ghost function Counterpart(th: Thread, c: Choice, u: nat, d: int): R.Change {
    if Takes(th) then R.Detaches(u, d) else if Returns(th) then R.Restores(u) else R.Releases(u)
  }

  lemma DeleteLines(th: Thread, v: View, c: Choice)
    requires th.pc.Deleting?
    ensures var m := Go(th, v, c);
            && (Detached(m.thread.pc) <==> Takes(th) || (Detached(th.pc) && !Returns(th) && !Frees(th, c)))
            && (Takes(th) ==> m.effect == SetSlot(NONE)) && (Returns(th) ==> m.effect == SetSlot(th.tag))
            && (!Takes(th) && !Returns(th) ==> !m.effect.SetSlot?)
  {
    hide CellOf;
  }

  lemma ElsewhereLines(th: Thread, v: View, c: Choice, m: Move)
    requires Traces(th, v, m) && Origin(th, v, c, m) && !th.pc.Deleting?
    ensures !Detached(m.thread.pc) && !m.effect.SetSlot?
  {}

  // What a step does to the slot and to its thread's hold on the descriptor.
  lemma SlotMoves(s: State, u: nat, c: Choice)
    requires Safe(s) && Enabled(s, u, c)
    ensures var th, s' := s.threads[u], Step(s, u, c);
            && u < |s'.threads| == |s.threads|
               && (forall w :: 0 <= w < |s.threads| && w != u ==> s'.threads[w] == s.threads[w])
            && (Detached(s'.threads[u].pc) <==> Takes(th) || (Detached(th.pc) && !Returns(th) && !Frees(th, c)))
            && s'.slot == (if Takes(th) then NONE else if Returns(th) then th.tag else s.slot)
  {
    var th, v := s.threads[u], Look(s, s.threads[u]);
    assert Base(s);
    Tracing(s, u, c);
    if th.pc.Deleting? { DeleteLines(th, v, c); } else { ElsewhereLines(th, v, c, MoveOf(s, u, c)); }
    hide Safe, Base, Traceable, Go, Look, Enabled, NewTagLock, NewTags, NewCells, NewInsts, Hold;
  }

  lemma DeleterKnows(s: State, u: nat)
    requires Safe(s) && u < |s.threads|
    ensures Takes(s.threads[u]) ==> s.slot != NONE
    ensures Returns(s.threads[u]) ==> s.threads[u].tag != NONE
  {
    var th := s.threads[u];
    assert Base(s) && Shape(th) && Refers(s, th);
    TagNeeds(th);
    hide Safe, Base, Shape, Placed, Topped;
  }

  lemma StepMirrors(g: R.Snapshot, s: State, d: int, u: nat, c: Choice)
    requires Mirrors(g, s, d) && Safe(s) && Enabled(s, u, c) && (Takes(s.threads[u]) ==> u !in g.calls)
    ensures if Seen(s.threads[u], c)
            then var r := Counterpart(s.threads[u], c, u, d);
                 R.Allowed(g, r) && Mirrors(R.Changed(g, r), Step(s, u, c), d)
            else Mirrors(g, Step(s, u, c), d)
  {
    hide Safe, R.Coherent, Enabled, Step;
    SlotMoves(s, u, c);
    DeleterKnows(s, u);
    Sized(g);
    if Seen(s.threads[u], c) {
      var r := Counterpart(s.threads[u], c, u, d);
      assert R.Allowed(g, r);
      R.ChangedAgrees(g, r);
      if r.Detaches? { TagAt(g, d); } else { Owned(g, u); }
    }
  }

  // ----- runs of both -----

  // One change of the registry elsewhere, one publication at d, or one step of the protocol at d.
  datatype Joint = Elsewhere(change: R.Change) | Creation(creator: int) | Inside(thread: nat, choice: Choice)

  // A publication asks nothing of the protocol, only of the registry; a thread that takes a tag out is in
  // no other call.
  ghost predicate Fits(g: R.Snapshot, s: State, j: Joint, d: int) {
    match j
    case Elsewhere(r) => Unseen(g, r, d)
    case Creation(t) => R.Allowed(g, R.Publishes(t)) && g.calls[t].tagKey == d
    case Inside(u, c) => Enabled(s, u, c) && (Takes(s.threads[u]) ==> u !in g.calls)
  }

  ghost predicate Leads(g: R.Snapshot, s: State, j: Joint, g': R.Snapshot, s': State, d: int)
    requires Fits(g, s, j, d)
  {
    match j
    case Elsewhere(r) => g' == R.Changed(g, r) && s' == s
    case Creation(t) => g' == R.Changed(g, R.Publishes(t)) && s' == Create(s)
    case Inside(u, c) =>
      && s' == Step(s, u, c)
      && var r := Counterpart(s.threads[u], c, u, d);
         g' == if Seen(s.threads[u], c) && R.Allowed(g, r) then R.Changed(g, r) else g
  }

  ghost predicate JointRun(gs: seq<R.Snapshot>, ss: seq<State>, js: seq<Joint>, d: int) {
    && |gs| == |ss| == |js| + 1 && R.Empty(gs[0]) && Initial(ss[0]) && 0 <= d < R.MAX_TAGS
    && forall k :: 0 <= k < |js| ==> Fits(gs[k], ss[k], js[k], d) && Leads(gs[k], ss[k], js[k], gs[k + 1], ss[k + 1], d)
  }

  lemma Joins(g: R.Snapshot, s: State, j: Joint, g': R.Snapshot, s': State, d: int)
    requires Mirrors(g, s, d) && Reachable(s) && Fits(g, s, j, d) && Leads(g, s, j, g', s', d)
    ensures Mirrors(g', s', d) && Reachable(s') && (j.Creation? ==> MayCreate(s))
  {
    ReachableSafe(s);
    hide Safe, Reachable, Enabled, Mirrors, Step, Create, MayCreate, R.Allowed, Seen, Unseen;
    match j
    case Elsewhere(r) => UnseenMirrors(g, s, d, r);
    case Creation(t) => PublishCreates(g, s, d, t); Reaches(s, Creates);
    case Inside(u, c) => StepMirrors(g, s, d, u, c); Reaches(s, Steps(u, c));
  }

  lemma StartMirrors(g: R.Snapshot, s: State, d: int)
    requires R.Empty(g) && Initial(s) && 0 <= d < R.MAX_TAGS
    ensures Mirrors(g, s, d)
  {
    R.EmptyAgrees(g);
  }

  // In every run of the two together the protocol stays within the states its own runs reach, and
  // whenever the registry publishes a tag at d the protocol may create one.
  lemma {:induction false} RegistryDrives(gs: seq<R.Snapshot>, ss: seq<State>, js: seq<Joint>, d: int, k: nat)
    requires JointRun(gs, ss, js, d) && k < |ss|
    ensures Mirrors(gs[k], ss[k], d) && Reachable(ss[k])
    ensures k < |js| && js[k].Creation? ==> MayCreate(ss[k])
    decreases k
  {
    hide Mirrors, Reachable, Fits, Leads, MayCreate, R.Empty, Initial;
    if k == 0 {
      StartMirrors(gs[0], ss[0], d);
      InitialReachable(ss[0]);
    } else {
      RegistryDrives(gs, ss, js, d, k - 1);
      Joins(gs[k - 1], ss[k - 1], js[k - 1], gs[k], ss[k], d);
    }
    if k < |js| { Joins(gs[k], ss[k], js[k], gs[k + 1], ss[k + 1], d); }
  }
}
