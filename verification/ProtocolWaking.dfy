// No wake-up is lost: a receiver left in its wait queue although its instance is ready has its sender
// still before wake_up_all, and one left there although the tag's flag is set has its AWAKE_ALL still
// on the way to its level, unless a signal broke that AWAKE_ALL off.

module Waking {
  import opened Protocol
  import opened Shapes
  import opened Locks
  import opened Refs
  import opened Grace
  import opened Messages
  import opened Duty
  import opened Runs
  import opened Guarantees
  import opened Outcomes

  // In a wait queue are only receivers that sleep on that instance.
  ghost predicate Lined(s: State) {
    forall i, u :: 0 <= i < |s.insts| && u in s.insts[i].sync.queue ==> Sleeping(s, u, i)
  }

  predicate Sleeping(s: State, u: int, i: int) {
    Valid(s.threads, u) && s.threads[u].pc == Waiting(RSleep) && s.threads[u].inst == i
  }

  predicate ReadyOrUnread(s: State, i: int) { DataOf(s, i).ready || Unread(s, i) }

  // A superseded instance that somebody still reads has its message.
  ghost predicate Occupied(s: State) {
    && (forall i :: Superseded(s, i) ==> ReadyOrUnread(s, i))
    && (forall u :: 0 <= u < |s.threads| && s.threads[u].pc == Renewing(RCreate) ==>
        ReadyOrUnread(s, s.threads[u].inst))
  }

  // A sender has posted on the instance and not yet woken its sleepers.
  ghost predicate Teller(s: State, i: int) {
    exists w :: Valid(s.threads, w) && TellsOn(s.threads[w], i)
  }

  predicate TellsOn(th: Thread, i: int) { th.pc.Telling? && th.inst == i }

  ghost predicate SendersTell(s: State) {
    forall i :: 0 <= i < |s.insts| && s.insts[i].data.ready && s.insts[i].sync.queue != {} ==> Teller(s, i)
  }

  // An AWAKE_ALL that has still to wake level l.
  predicate Ahead(th: Thread, l: int) {
    th.pc.Rousing? && (th.level < l || (th.level == l && !th.pc.rouse.AUnrcu? && !th.pc.rouse.AUnlevel?))
  }

  predicate Coming(s: State, k: int, l: int) {
    0 <= k < |s.tags| && var w := s.tags[k].rouser;
    Valid(s.threads, w) && Ahead(s.threads[w], l) && s.threads[w].tag == k
  }

  predicate Flagged(s: State, k: int) { 0 <= k < |s.tags| && s.tags[k].ready }

  predicate Broken(s: State, k: int) { 0 <= k < |s.tags| && s.tags[k].rouser == NONE }

  // Why a receiver may still be asleep on a tag whose flag is set.
  predicate Excused(s: State, th: Thread) {
    DataOf(s, th.inst).ready || Broken(s, th.tag) || Coming(s, th.tag, th.level)
  }

  ghost predicate RousersCome(s: State) {
    forall u :: 0 <= u < |s.threads| && InQueue(s, u) && Flagged(s, s.threads[u].tag) ==> Excused(s, s.threads[u])
  }

  ghost predicate FromTheFirst(s: State) {
    forall u :: 0 <= u < |s.threads| && s.threads[u].pc.Awaking? ==> s.threads[u].level == 0
  }

  ghost predicate Wakeful(s: State) {
    Lined(s) && Occupied(s) && SendersTell(s) && RousersCome(s) && FromTheFirst(s)
  }

  // ----- single lines -----

  lemma SleepLines(th: Thread, v: View, c: Choice)
    requires th.pc == Waiting(RWait) || th.pc == Waiting(RSleep)
    ensures Go(th, v, c).effect.Sleep? ==> !v.data.ready && !v.tagReady && Go(th, v, c).thread.tag == th.tag
    ensures th.pc == Waiting(RSleep) && c.Interrupt? ==> Go(th, v, c).effect.Unqueue?
  {}

  lemma CreateLine(th: Thread, line: Renew, v: View, c: Choice)
    requires th.pc == Renewing(line) && GoRenew(th, line, v, c).thread.pc == Renewing(RCreate)
    ensures var m := GoRenew(th, line, v, c); v.data.ready && m.effect.Quiet? && m.thread.inst == th.inst
  {}

  lemma TellLines(th: Thread, v: View, c: Choice)
    requires th.pc == Posting(SPost) || th.pc.Telling?
    ensures var m := Go(th, v, c); (m.effect.WakeAll? || m.thread.pc.Telling?) && m.thread.inst == th.inst
  {}

  lemma RouseOn(th: Thread, line: Rouse, v: View, c: Choice, l: nat)
    requires th.pc == Rousing(line) && Ahead(th, l) && l < LEVELS && v.ptr != NONE && 0 <= th.tag
    ensures var m := GoRouse(th, line, v, c);
            || m.effect.Abandon?
            || (m.thread.tag == th.tag && Ahead(m.thread, l))
            || (line == AWake && th.level == l && (v.waiting > 0 ==> m.effect.WakeAll?))
  {
    hide CellOf;
  }

  lemma FlagLine(th: Thread, v: View, c: Choice)
    requires th.pc == Awaking(ASet)
    ensures var n := Go(th, v, c).thread; n.pc == Rousing(ALevel) && n.level == th.level && n.tag == th.tag
  {}

  lemma AwakeLines(th: Thread, v: View, c: Choice)
    requires th.pc.Awaking?
    ensures Go(th, v, c).thread.pc.Awaking? ==> Go(th, v, c).thread.level == th.level
  {
    hide CellOf;
  }

  lemma NoMoreAwake(th: Thread, v: View, c: Choice)
    requires th.pc.Rousing? || th.pc.Exiting?
    ensures !Go(th, v, c).thread.pc.Awaking?
  {
    hide CellOf;
  }

  lemma StartAwake(th: Thread, v: View, call: Call)
    ensures GoStart(th, v, call).thread.pc.Awaking? ==> GoStart(th, v, call).thread.level == 0
  {}

  // ----- memory -----

  function NewQueue(q: set<int>, t: int, e: Effect): set<int> {
    match e
    case Sleep => q + {t}
    case Unqueue => q - {t}
    case WakeAll => {}
    case _ => q
  }

  lemma QueueKept(s: State, t: nat, m: Move, i: int)
    requires t < |s.threads| && 0 <= i < |s.insts|
    ensures var s' := Apply(s, t, m);
            && i < |s'.insts|
            && s'.insts[i].sync.queue == if s.threads[t].inst == i then NewQueue(s.insts[i].sync.queue, t, m.effect)
                                         else s.insts[i].sync.queue
  {
    hide NewTags, NewCells, NewData, Hold, Acquired, Released;
  }

  lemma ReadersKept(s: State, t: nat, m: Move, i: int)
    requires t < |s.threads| && Unread(s, i)
    requires m.effect == LockRcu(false) ==> s.threads[t].inst != i
    ensures Unread(Apply(s, t, m), i)
  {
    hide NewTags, NewCells, NewData, Hold;
  }

  lemma TagsKept(s: State, t: nat, m: Move, k: int)
    requires t < |s.threads| && 0 <= k < |s.tags|
    ensures var s', own := Apply(s, t, m), s.threads[t].tag == k;
            && k < |s'.tags|
            && s'.tags[k].ready == (if own && m.effect.Flag? then m.effect.on else s.tags[k].ready)
            && s'.tags[k].rouser == (if own && m.effect == Flag(true) then t
                                     else if own && m.effect.Abandon? && s.tags[k].rouser == t then NONE
                                     else s.tags[k].rouser)
  {
    hide NewCells, NewInsts, Hold, NewTagLock;
  }

  // ----- the queues -----

  lemma QueuedSleeper(s: State, t: nat, c: Choice)
    requires Enabled(s, t, c) && InQueue(s, t) && s.threads[t].pc == Waiting(RSleep)
    ensures MoveOf(s, t, c).effect.Unqueue?
  {
    var th, v := s.threads[t], Look(s, s.threads[t]);
    assert c.Interrupt? by { hide Go, Look, Contended; }
    SleepLines(th, v, c);
    hide Go, Look;
  }

  lemma LinedKept(s: State, t: nat, c: Choice)
    requires Lined(s) && Enabled(s, t, c) && Traceable(s, s.threads[t], c, MoveOf(s, t, c))
    ensures Lined(Step(s, t, c))
  {
    var th, m, s' := s.threads[t], MoveOf(s, t, c), Step(s, t, c);
    hide Go, Look, Shape, Traces, Legal, Contended;
    forall i, u | 0 <= i < |s'.insts| && u in s'.insts[i].sync.queue ensures Sleeping(s', u, i) {
      if i < |s.insts| {
        QueueKept(s, t, m, i);
        if u in s.insts[i].sync.queue && u == t { QueuedSleeper(s, t, c); }
      } else {
        NewUnqueued(s, t, m, i);
      }
    }
  }

  lemma NewUnqueued(s: State, t: nat, m: Move, i: int)
    requires t < |s.threads| && |s.insts| <= i < |Apply(s, t, m).insts|
    ensures Apply(s, t, m).insts[i].sync == Blank(0, 0).sync
  {
    hide NewTags, NewCells, NewInst, Hold;
  }

  // ----- superseded instances -----

  // An instance loses its message only to a resetter, who has it alone.
  lemma ResetUnread(s: State, t: nat, c: Choice, i: nat)
    requires Safe(s) && Enabled(s, t, c) && Traceable(s, s.threads[t], c, MoveOf(s, t, c))
    requires i < |s.insts| && s.insts[i].data.ready
    ensures ReadyOrUnread(Step(s, t, c), i)
  {
    var th, m := s.threads[t], MoveOf(s, t, c);
    DataKept(s, t, m, i);
    if i == th.inst && Alters(m.effect) {
      Alterers(s, t, c);
      ResettersAlone(s, t);
      ReadersKept(s, t, m, i);
    }
    hide Safe, Traceable, Go, Look, Enabled, Apply;
  }

  lemma Alterers(s: State, t: nat, c: Choice)
    requires Safe(s) && Enabled(s, t, c) && Traceable(s, s.threads[t], c, MoveOf(s, t, c))
    requires Alters(MoveOf(s, t, c).effect) && DataOf(s, s.threads[t].inst).ready
    ensures s.threads[t].pc == Finishing(RReset) || s.threads[t].pc == Finishing(RResize)
  {
    hide Alive, Dutiful, Base, Traces, Legal, Seen, Minds, Intact, Filling, Contents, Origin, Shape;
    var th := s.threads[t];
    assert Minds(th, DataOf(s, th.inst), s.log);
    SeenHere(s, t, c);
    hide Told, Look;
    if th.pc.Idle? {
      IdleQuiet(s, t, c);
    } else {
      Carried(th, Look(s, th), c);
      hide Go;
      WhoAlters(th, Look(s, th), c, MoveOf(s, t, c));
      NotFilling(th, DataOf(s, th.inst), s.log);
    }
  }

  lemma ResettersAlone(s: State, t: nat)
    requires Base(s) && t < |s.threads|
    requires s.threads[t].pc == Finishing(RReset) || s.threads[t].pc == Finishing(RResize)
    ensures Unread(s, s.threads[t].inst)
  {
    var th, i := s.threads[t], s.threads[t].inst;
    assert Shape(th);
    Hands(th);
    hide Referring, Shape, Tallied, Owned;
    assert Ranged(th.held, |s.tags|, |s.cells|, |s.insts|);
    assert Synced(s.insts[i].sync, i, s.threads);
  }

  // Nobody takes a read lock on an instance while another thread is about to replace it.
  lemma NobodyJoins(s: State, t: nat, c: Choice, u: nat)
    requires Base(s) && t < |s.threads| && u < |s.threads| && u != t
    requires Traceable(s, s.threads[t], c, MoveOf(s, t, c))
    requires s.threads[u].pc == Renewing(RCreate) && MoveOf(s, t, c).effect == LockRcu(false)
    ensures s.threads[t].inst != s.threads[u].inst
  {
    hide Go, Look, Traces, Legal;
    var a, b := s.threads[t], s.threads[u];
    assert Refers(s, a) && Refers(s, b) && Shape(b) && Shape(a);
    JoinsAt(a.pc);
    Writers(b.pc);
    AloneOnLevel(s, u, t);
    HasInst(b);
    hide Base, Shape, Slotted, Topped, Origin, KitOf;
  }

  lemma JoinsAt(pc: PC)
    ensures Joining(pc) ==> HoldsLevel(pc)
  {}

  // An instance that has its message or no reader keeps one of the two, unless somebody may join it.
  lemma StillOccupied(s: State, t: nat, c: Choice, i: nat)
    requires Safe(s) && Enabled(s, t, c) && Traceable(s, s.threads[t], c, MoveOf(s, t, c))
    requires i < |s.insts| && ReadyOrUnread(s, i)
    requires !s.insts[i].data.ready && MoveOf(s, t, c).effect == LockRcu(false) ==> s.threads[t].inst != i
    ensures ReadyOrUnread(Step(s, t, c), i)
  {
    hide Safe, Traceable, Go, Look, Apply, Contended;
    if s.insts[i].data.ready { ResetUnread(s, t, c, i); } else { ReadersKept(s, t, MoveOf(s, t, c), i); }
  }

  lemma JoinsTop(s: State, th: Thread, c: Choice, m: Move)
    requires Traceable(s, th, c, m) && Refers(s, th) && m.effect == LockRcu(false)
    ensures !Superseded(s, th.inst)
  {
    hide Shape, Traces, Legal;
  }

  // Only a publication supersedes, and only the instance published before it.
  lemma NewlySuperseded(s: State, t: nat, m: Move, i: int)
    requires t < |s.threads| && Superseded(Apply(s, t, m), i)
    requires m.effect.Publish? ==> 0 <= s.threads[t].cell < |s.cells|
    requires m.effect.Restore? ==> s.threads[t].base == Ptr(s, s.threads[t].cell)
    ensures i < |s.insts|
    ensures Superseded(s, i) || (m.effect.Publish? && Ptr(s, s.threads[t].cell) == i)
  {
    Memory(s, t, m);
    hide Apply;
  }

  lemma SupersededBefore(s: State, t: nat, c: Choice, i: int)
    requires Base(s) && t < |s.threads| && Traceable(s, s.threads[t], c, MoveOf(s, t, c))
    requires Superseded(Step(s, t, c), i)
    ensures i < |s.insts| && (Superseded(s, i) || (s.threads[t].pc == Renewing(RCreate) && s.threads[t].inst == i
                                                  && MoveOf(s, t, c).effect.Publish?))
  {
    var th, m := s.threads[t], MoveOf(s, t, c);
    assert Refers(s, th) && Shape(th);
    hide Go, Look, Apply, Superseded;
    PointerMoves(s, th, c, m);
    PublishAt(s, th);
    hide Base, Traceable, Refers, Shape;
    NewlySuperseded(s, t, m, i);
  }

  lemma CreatorNext(s: State, t: nat, c: Choice)
    requires t < |s.threads| && Traceable(s, s.threads[t], c, MoveOf(s, t, c))
    requires MoveOf(s, t, c).thread.pc == Renewing(RCreate)
    ensures DataOf(s, s.threads[t].inst).ready && MoveOf(s, t, c).effect.Quiet?
    ensures MoveOf(s, t, c).thread.inst == s.threads[t].inst
  {
    var th, v := s.threads[t], Look(s, s.threads[t]);
    assert th.pc.Renewing? by { hide Shape, Legal, Origin, Go, Look; }
    assert v.data == DataOf(s, th.inst) by { hide Traceable, Go; }
    hide GoRenew, Look, Traceable, DataOf;
    CreateLine(th, th.pc.renew, v, c);
  }

  lemma SupersededOccupied(s: State, t: nat, c: Choice, i: int)
    requires Safe(s) && Occupied(s) && Enabled(s, t, c) && Traceable(s, s.threads[t], c, MoveOf(s, t, c))
    requires Superseded(Step(s, t, c), i)
    ensures ReadyOrUnread(Step(s, t, c), i)
  {
    var th, m := s.threads[t], MoveOf(s, t, c);
    SupersededBefore(s, t, c, i);
    assert Refers(s, th) && ReadyOrUnread(s, i);
    hide Safe, Occupied, Go, Look, Enabled, Refers, ReadyOrUnread;
    if m.effect == LockRcu(false) { JoinsTop(s, th, c, m); }
    hide Traceable, Superseded;
    StillOccupied(s, t, c, i);
  }

  lemma CreatorOccupied(s: State, t: nat, c: Choice, u: nat)
    requires Safe(s) && Occupied(s) && Enabled(s, t, c) && Traceable(s, s.threads[t], c, MoveOf(s, t, c))
    requires u < |s.threads| && Step(s, t, c).threads[u].pc == Renewing(RCreate)
    ensures ReadyOrUnread(Step(s, t, c), Step(s, t, c).threads[u].inst)
  {
    var m := MoveOf(s, t, c);
    if u == t {
      CreatorNext(s, t, c);
      hide Safe, Occupied, Traceable, Go, Look, Enabled;
      StillOccupied(s, t, c, s.threads[t].inst);
    } else {
      assert ReadyOrUnread(s, s.threads[u].inst);
      hide Occupied, Traceable, Go, Look, Enabled, Alive, Told, Dutiful;
      if m.effect == LockRcu(false) { NobodyJoins(s, t, c, u); }
      CreatorHas(s, u);
      StillOccupied(s, t, c, s.threads[u].inst);
    }
  }

  lemma CreatorHas(s: State, u: nat)
    requires Base(s) && u < |s.threads| && s.threads[u].pc == Renewing(RCreate)
    ensures 0 <= s.threads[u].inst < |s.insts|
  {
    assert Refers(s, s.threads[u]) && Shape(s.threads[u]);
    HasInst(s.threads[u]);
    hide Base, Shape;
  }

  lemma OccupiedKept(s: State, t: nat, c: Choice)
    requires Safe(s) && Occupied(s) && Enabled(s, t, c) && Traceable(s, s.threads[t], c, MoveOf(s, t, c))
    ensures Occupied(Step(s, t, c))
  {
    var s' := Step(s, t, c);
    forall i | Superseded(s', i) ensures ReadyOrUnread(s', i) {
      SupersededOccupied(s, t, c, i);
    }
    forall u | 0 <= u < |s'.threads| && s'.threads[u].pc == Renewing(RCreate)
      ensures ReadyOrUnread(s', s'.threads[u].inst)
    {
      CreatorOccupied(s, t, c, u);
    }
  }

  // ----- senders -----

  lemma TellerKept(s: State, t: nat, c: Choice, i: int)
    requires t < |s.threads| && Teller(s, i) && !(MoveOf(s, t, c).effect.WakeAll? && s.threads[t].inst == i)
    ensures Teller(Step(s, t, c), i)
  {
    var w :| Valid(s.threads, w) && TellsOn(s.threads[w], i);
    if w == t { TellLines(s.threads[t], Look(s, s.threads[t]), c); }
    hide Go, Look, NewTagLock, NewTags, NewCells, NewInsts, Hold;
    assert Valid(Step(s, t, c).threads, w) && TellsOn(Step(s, t, c).threads[w], i);
  }

  lemma TellerNew(s: State, t: nat, c: Choice)
    requires t < |s.threads| && s.threads[t].pc == Posting(SPost)
    ensures Teller(Step(s, t, c), s.threads[t].inst)
  {
    TellLines(s.threads[t], Look(s, s.threads[t]), c);
    PostWakesNone(s.threads[t], Look(s, s.threads[t]), c);
    hide Go, Look, NewTagLock, NewTags, NewCells, NewInsts, Hold;
    assert Valid(Step(s, t, c).threads, t) && TellsOn(Step(s, t, c).threads[t], s.threads[t].inst);
  }

  lemma PostWakesNone(th: Thread, v: View, c: Choice)
    requires th.pc == Posting(SPost)
    ensures !Go(th, v, c).effect.WakeAll?
  {}

  // Nobody goes to sleep on a ready instance, or on a tag whose flag is set.
  lemma SleepsOnNothing(s: State, t: nat, c: Choice)
    requires t < |s.threads| && Traceable(s, s.threads[t], c, MoveOf(s, t, c)) && MoveOf(s, t, c).effect.Sleep?
    ensures !DataOf(s, s.threads[t].inst).ready && !Flagged(s, s.threads[t].tag)
    ensures MoveOf(s, t, c).thread.tag == s.threads[t].tag
  {
    var th, v := s.threads[t], Look(s, s.threads[t]);
    assert th.pc == Waiting(RWait) by { hide Shape, Legal, Traces, Go, Look; }
    assert v.data == DataOf(s, th.inst) && (v.tagReady <==> Flagged(s, th.tag)) by { hide Traceable, Go; }
    hide Traceable, Look, DataOf, Flagged;
    SleepLines(th, v, c);
    hide Go;
  }

  lemma TellersGoOn(s: State, t: nat, c: Choice, i: nat)
    requires SendersTell(s) && t < |s.threads| && Traceable(s, s.threads[t], c, MoveOf(s, t, c))
    requires i < |s.insts| && s.insts[i].data.ready
    requires i < |Step(s, t, c).insts| && Step(s, t, c).insts[i].sync.queue != {}
    ensures Teller(Step(s, t, c), i)
  {
    var th, m := s.threads[t], MoveOf(s, t, c);
    hide Go, Look, Shape, Traces, Legal, Apply, Teller;
    QueueKept(s, t, m, i);
    if m.effect.Sleep? && th.inst == i { SleepsOnNothing(s, t, c); }
    hide Traceable;
    TellerKept(s, t, c, i);
  }

  lemma SenderTells(s: State, t: nat, c: Choice, i: int)
    requires Safe(s) && SendersTell(s) && Enabled(s, t, c) && Traceable(s, s.threads[t], c, MoveOf(s, t, c))
    requires var s' := Step(s, t, c); 0 <= i < |s'.insts| && s'.insts[i].data.ready && s'.insts[i].sync.queue != {}
    ensures Teller(Step(s, t, c), i)
  {
    NewBlank(s, t, MoveOf(s, t, c));
    hide Go, Look, Contended, Traceable, Apply, Teller, SendersTell, Base, Told, Dutiful, Alive;
    if s.insts[i].data.ready {
      TellersGoOn(s, t, c, i);
    } else {
      BecomesReady(s, t, c, i);
      TellerNew(s, t, c);
    }
  }

  // ----- AWAKE_ALL -----

  lemma NewSleeper(s: State, t: nat, c: Choice)
    requires Base(s) && Lined(s) && Enabled(s, t, c) && Traceable(s, s.threads[t], c, MoveOf(s, t, c))
    requires InQueue(Step(s, t, c), t)
    ensures !Flagged(Step(s, t, c), Step(s, t, c).threads[t].tag)
  {
    var th, m, s' := s.threads[t], MoveOf(s, t, c), Step(s, t, c);
    var i := m.thread.inst;
    hide Base, Go, Look, Contended, Shape, Traces, Legal;
    Memory(s, t, m);
    if i == |s.insts| {
      NewUnqueued(s, t, m, i);
    } else {
      QueueKept(s, t, m, i);
      if t in s.insts[i].sync.queue { QueuedSleeper(s, t, c); }
      SleepsOnNothing(s, t, c);
      Memory(s, t, m);
      if 0 <= th.tag < |s.tags| { TagsKept(s, t, m, th.tag); }
      hide Traceable, Lined;
    }
  }

  lemma Started(s: State, t: nat, c: Choice, l: int)
    requires t < |s.threads| && Traceable(s, s.threads[t], c, MoveOf(s, t, c)) && FromTheFirst(s)
    requires MoveOf(s, t, c).effect == Flag(true) && 0 <= s.threads[t].tag < |s.tags| && 0 <= l
    ensures Coming(Step(s, t, c), s.threads[t].tag, l)
  {
    var th, m := s.threads[t], MoveOf(s, t, c);
    FlagFrom(th, Look(s, th), c, m);
    FlagLine(th, Look(s, th), c);
    TagsKept(s, t, m, th.tag);
    hide Traceable, Go, Look, NewTagLock, NewTags, NewCells, NewInsts, Hold;
  }

  // A message keeps excusing a sleeper that reads its instance.
  lemma StaysExcused(s: State, t: nat, c: Choice, u: nat)
    requires Safe(s) && Enabled(s, t, c) && Traceable(s, s.threads[t], c, MoveOf(s, t, c)) && u < |s.threads| && u != t
    requires s.threads[u].pc == Waiting(RSleep) && DataOf(s, s.threads[u].inst).ready
    ensures DataOf(Step(s, t, c), s.threads[u].inst).ready
  {
    var i := s.threads[u].inst;
    assert Shape(s.threads[u]);
    SleeperReads(s.threads[u]);
    hide Safe, Traceable, Enabled, Go, Look, Apply, Shape;
    NobodyWrites(s, t, c, i, u);
    DataKept(s, t, MoveOf(s, t, c), i);
  }

  lemma SleeperReads(th: Thread)
    requires Shape(th) && th.pc == Waiting(RSleep)
    ensures th.held.rcu == th.inst == th.held.entered && th.inst >= 0 && th.tag >= 0
    ensures th.cell == CellOf(th.tag, th.level) && 0 <= th.level < LEVELS
  {}

  // AWAKE_ALL wakes everybody on the published instance; whoever sleeps on an older one has a message.
  lemma WokenOrReady(s: State, t: nat, u: nat)
    requires Base(s) && Occupied(s) && t < |s.threads| && u < |s.threads| && s.threads[t].pc == Rousing(AWake)
    requires s.threads[u].pc == Waiting(RSleep)
    requires s.threads[t].tag == s.threads[u].tag && s.threads[t].level == s.threads[u].level
    ensures DataOf(s, s.threads[u].inst).ready
            || (s.threads[t].inst == s.threads[u].inst && Look(s, s.threads[t]).waiting > 0)
  {
    var a, b := s.threads[t], s.threads[u];
    assert Shape(a) && Shape(b) && Refers(s, a) && Refers(s, b);
    SleeperReads(b);
    WakerAt(a);
    var i := b.inst;
    assert Ranged(b.held, |s.tags|, |s.cells|, |s.insts|);
    assert Synced(s.insts[i].sync, i, s.threads);
    hide Base, Shape, Owned, Slotted;
    if a.inst != i { assert Superseded(s, i) && ReadyOrUnread(s, i); }
    assert u in s.insts[i].sync.rcu.readers && u in s.insts[i].sync.waiters;
  }

  lemma WakerAt(th: Thread)
    requires Shape(th) && th.pc == Rousing(AWake)
    ensures th.tag >= 0 && th.cell == CellOf(th.tag, th.level) && th.inst >= 0
  {}

  lemma RousesThere(s: State, th: Thread)
    requires Shape(th) && Refers(s, th) && Levelled(s) && th.pc.Rousing?
    ensures Look(s, th).ptr != NONE && th.tag >= 0
  {
    hide Below;
  }

  lemma RouserLine(s: State, t: nat, c: Choice, l: nat)
    requires Base(s) && Enabled(s, t, c) && Ahead(s.threads[t], l) && l < LEVELS
    ensures var th, m := s.threads[t], MoveOf(s, t, c);
            || m.effect.Abandon?
            || (m.thread.tag == th.tag && Ahead(m.thread, l))
            || (th.pc == Rousing(AWake) && th.level == l && (Look(s, th).waiting > 0 ==> m.effect.WakeAll?))
  {
    var th := s.threads[t];
    assert Shape(th) && Refers(s, th) && Levelled(s);
    hide Base, Contended, Unblocked, Wants, Look;
    RousesThere(s, th);
    hide Shape, Refers, Levelled, GoRouse;
    RouseOn(th, th.pc.rouse, Look(s, th), c, l);
  }

  lemma WakesThere(s: State, t: nat, c: Choice, u: nat)
    requires Safe(s) && Occupied(s) && Enabled(s, t, c) && Traceable(s, s.threads[t], c, MoveOf(s, t, c))
    requires u < |s.threads| && u != t && InQueue(s, u) && s.threads[u].pc == Waiting(RSleep)
    requires s.threads[t].tag == s.threads[u].tag && s.threads[t].level == s.threads[u].level
    requires s.threads[t].pc == Rousing(AWake)
    requires Look(s, s.threads[t]).waiting > 0 ==> MoveOf(s, t, c).effect.WakeAll?
    ensures DataOf(Step(s, t, c), s.threads[u].inst).ready || !InQueue(Step(s, t, c), u)
  {
    hide Alive, Told, Dutiful, Base, Occupied, Traceable, Go, Look, DataOf, Contended;
    WokenOrReady(s, t, u);
    if DataOf(s, s.threads[u].inst).ready { StaysExcused(s, t, c, u); }
    QueueKept(s, t, MoveOf(s, t, c), s.threads[u].inst);
    hide Apply, Safe;
  }

  lemma StillComing(s: State, t: nat, c: Choice, k: int, l: int)
    requires t < |s.threads| && 0 <= k < |s.tags| && s.tags[k].rouser == t && !MoveOf(s, t, c).effect.Flag?
    requires s.threads[t].tag == k
    requires var m := MoveOf(s, t, c); m.effect.Abandon? || (m.thread.tag == k && Ahead(m.thread, l))
    ensures Broken(Step(s, t, c), k) || Coming(Step(s, t, c), k, l)
  {
    TagsKept(s, t, MoveOf(s, t, c), k);
    hide Go, Look, NewTagLock, NewTags, NewCells, NewInsts, Hold;
  }

  // The AWAKE_ALL that set the flag goes on to the sleeper's level, is broken off, or wakes it.
  lemma ComesOn(s: State, t: nat, c: Choice, u: nat)
    requires Safe(s) && Occupied(s) && Enabled(s, t, c) && Traceable(s, s.threads[t], c, MoveOf(s, t, c))
    requires u < |s.threads| && u != t && InQueue(s, u) && s.threads[u].pc == Waiting(RSleep)
    requires Coming(s, s.threads[u].tag, s.threads[u].level) && s.tags[s.threads[u].tag].rouser == t
    requires !MoveOf(s, t, c).effect.Flag?
    ensures Excused(Step(s, t, c), s.threads[u]) || !InQueue(Step(s, t, c), u)
  {
    var a, b, m := s.threads[t], s.threads[u], MoveOf(s, t, c);
    assert Shape(b);
    SleeperReads(b);
    hide Safe, Occupied, Traceable, Shape, Go, Look, DataOf, Enabled, Step, InQueue, Broken;
    RouserLine(s, t, c, b.level);
    if m.effect.Abandon? || (m.thread.tag == a.tag && Ahead(m.thread, b.level)) {
      StillComing(s, t, c, b.tag, b.level);
    } else {
      WakesThere(s, t, c, u);
    }
  }

  lemma StillExcused(s: State, t: nat, c: Choice, u: nat)
    requires Safe(s) && Wakeful(s) && Enabled(s, t, c) && Traceable(s, s.threads[t], c, MoveOf(s, t, c))
    requires u < |s.threads| && u != t && InQueue(s, u) && s.threads[u].pc == Waiting(RSleep)
    requires Excused(s, s.threads[u]) && (MoveOf(s, t, c).effect == Flag(true) ==> s.threads[t].tag != s.threads[u].tag)
    requires InQueue(Step(s, t, c), u) && Flagged(Step(s, t, c), s.threads[u].tag)
    ensures Excused(Step(s, t, c), s.threads[u])
  {
    var b, m := s.threads[u], MoveOf(s, t, c);
    hide Safe, Traceable, Go, Look, DataOf, Enabled, Lined, Occupied, SendersTell, RousersCome, FromTheFirst, Apply;
    assert b.tag < |s.tags| by { Memory(s, t, m); }
    TagsKept(s, t, m, b.tag);
    if DataOf(s, b.inst).ready {
      StaysExcused(s, t, c, u);
    } else if !Broken(s, b.tag) {
      if s.tags[b.tag].rouser == t {
        RouserFlagsNot(s, t, c);
        ComesOn(s, t, c, u);
      } else {
        OtherRouser(s, t, m, b.tag, b.level);
      }
    }
  }

  lemma RouserFlagsNot(s: State, t: nat, c: Choice)
    requires t < |s.threads| && Traceable(s, s.threads[t], c, MoveOf(s, t, c)) && s.threads[t].pc.Rousing?
    ensures !MoveOf(s, t, c).effect.Flag?
  {
    hide Go, Look, Shape, Traces, Legal;
    FlagFrom(s.threads[t], Look(s, s.threads[t]), c, MoveOf(s, t, c));
  }

  lemma OtherRouser(s: State, t: nat, m: Move, k: int, l: int)
    requires t < |s.threads| && Coming(s, k, l) && s.tags[k].rouser != t
    requires m.effect == Flag(true) ==> s.threads[t].tag != k
    ensures Coming(Apply(s, t, m), k, l)
  {
    TagsKept(s, t, m, k);
    hide NewTagLock, NewTags, NewCells, NewInsts, Hold;
  }

  // The sleeper was in its queue before, and the flag was up unless this step has set it.
  lemma SleptBefore(s: State, t: nat, c: Choice, u: nat)
    requires Lined(s) && t < |s.threads| && u < |s.threads| && u != t && InQueue(Step(s, t, c), u)
    ensures InQueue(s, u) && s.threads[u].pc == Waiting(RSleep)
  {
    var m, i := MoveOf(s, t, c), s.threads[u].inst;
    hide Go, Look;
    Memory(s, t, m);
    if i < |s.insts| {
      QueueKept(s, t, m, i);
      assert Sleeping(s, u, i);
    } else {
      NewUnqueued(s, t, m, i);
    }
    hide Lined, Apply;
  }

  lemma RouserComes(s: State, t: nat, c: Choice, u: nat)
    requires Safe(s) && Wakeful(s) && Enabled(s, t, c) && Traceable(s, s.threads[t], c, MoveOf(s, t, c))
    requires u < |s.threads| && u != t && InQueue(Step(s, t, c), u) && Flagged(Step(s, t, c), s.threads[u].tag)
    ensures Excused(Step(s, t, c), s.threads[u])
  {
    var b, m := s.threads[u], MoveOf(s, t, c);
    hide Safe, Traceable, Go, Look, DataOf, Contended, Lined, Occupied, SendersTell, FromTheFirst, Apply, Coming,
         InQueue, Excused;
    SleptBefore(s, t, c, u);
    assert 0 <= b.tag < |s.tags| by { Memory(s, t, m); }
    TagsKept(s, t, m, b.tag);
    if m.effect == Flag(true) && s.threads[t].tag == b.tag {
      OnSomeLevel(s, u);
      Started(s, t, c, b.level);
      assert Excused(Step(s, t, c), b) by { ExcusedComing(Step(s, t, c), b); }
    } else {
      assert Excused(s, b);
      StillExcused(s, t, c, u);
    }
  }

  lemma OnSomeLevel(s: State, u: nat)
    requires Base(s) && u < |s.threads|
    ensures 0 <= s.threads[u].level
  {
    assert Shape(s.threads[u]);
    hide Locked;
  }

  lemma ExcusedComing(s: State, th: Thread)
    requires Coming(s, th.tag, th.level)
    ensures Excused(s, th)
  {
    hide Coming;
  }

  // ----- every event keeps it -----

  // Who runs AWAKE_ALL is in it or is leaving it.
  lemma AwakeCalls(th: Thread, m: Move)
    requires Shape(th) && Shape(Moved(th, m)) && m.thread.call == th.call && m.thread.pc.Awaking? && !th.pc.Idle?
    ensures th.pc.Awaking? || th.pc.Rousing? || th.pc.Exiting?
  {
    hide Working, Leaving, Numbers;
  }

  lemma FirstNext(s: State, t: nat, c: Choice)
    requires Safe(s) && FromTheFirst(s) && Enabled(s, t, c) && Traceable(s, s.threads[t], c, MoveOf(s, t, c))
    requires MoveOf(s, t, c).thread.pc.Awaking?
    ensures MoveOf(s, t, c).thread.level == 0
  {
    var th, v := s.threads[t], Look(s, s.threads[t]);
    assert th.pc.Idle? <==> c.Start? by { hide Go, Look, Contended; }
    hide Safe, Look, Contended, Shape, Traces, Origin, Legal, Go;
    if th.pc.Idle? {
      assert MoveOf(s, t, c) == GoStart(th, v, c.call) by { IdleStarts(th, v, c); }
      StartAwake(th, v, c.call);
    } else {
      MoverStays(s, t, c);
      AwakeCalls(th, MoveOf(s, t, c));
      if th.pc.Awaking? {
        AwakeLines(th, v, c);
      } else {
        NoMoreAwake(th, v, c);
      }
    }
  }

  lemma IdleStarts(th: Thread, v: View, c: Choice)
    requires th.pc.Idle? && c.Start?
    ensures Go(th, v, c) == GoStart(th, v, c.call)
  {}

  lemma FromTheFirstKept(s: State, t: nat, c: Choice)
    requires Safe(s) && FromTheFirst(s) && Enabled(s, t, c) && Traceable(s, s.threads[t], c, MoveOf(s, t, c))
    ensures FromTheFirst(Step(s, t, c))
  {
    if MoveOf(s, t, c).thread.pc.Awaking? { FirstNext(s, t, c); }
    hide Safe, Traceable, Go, Look, Enabled, NewTagLock, NewTags, NewCells, NewInsts, Hold;
  }

  lemma WakefulKept(s: State, t: nat, c: Choice)
    requires Safe(s) && Wakeful(s) && Enabled(s, t, c)
    ensures Wakeful(Step(s, t, c))
  {
    var s' := Step(s, t, c);
    Tracing(s, t, c);
    hide Safe, Traceable, Go, Look, Enabled, Lined, Occupied, FromTheFirst, InQueue, Flagged, Excused, Teller;
    LinedKept(s, t, c);
    OccupiedKept(s, t, c);
    FromTheFirstKept(s, t, c);
    forall i | 0 <= i < |s'.insts| && s'.insts[i].data.ready && s'.insts[i].sync.queue != {} ensures Teller(s', i) {
      SenderTells(s, t, c, i);
    }
    forall u | 0 <= u < |s'.threads| && InQueue(s', u) && Flagged(s', s'.threads[u].tag)
      ensures Excused(s', s'.threads[u])
    {
      if u == t { NewSleeper(s, t, c); } else { RouserComes(s, t, c, u); }
    }
  }

  lemma NewBlanks(s: State, i: int)
    requires |s.insts| <= i < |Create(s).insts|
    ensures Create(s).insts[i] == Blank(|s.cells| + (i - |s.insts|), 0)
  {}

  lemma OccupiedCreated(s: State)
    requires Base(s) && Occupied(s)
    ensures Occupied(Create(s))
  {
    var s' := Create(s);
    forall i | Superseded(s', i) ensures ReadyOrUnread(s', i) {
      if i < |s.insts| {
        assert Levelled(s) && Below(s, i);
        hide Base;
        assert Superseded(s, i);
      } else {
        NewBlanks(s, i);
      }
    }
    forall u | 0 <= u < |s'.threads| && s'.threads[u].pc == Renewing(RCreate)
      ensures ReadyOrUnread(s', s'.threads[u].inst)
    {
      CreatorHas(s, u);
      assert ReadyOrUnread(s, s.threads[u].inst);
    }
  }

  lemma LinedCreated(s: State)
    requires Lined(s)
    ensures Lined(Create(s))
  {
    var s' := Create(s);
    forall i, u | 0 <= i < |s'.insts| && u in s'.insts[i].sync.queue ensures Sleeping(s', u, i) {
      if i >= |s.insts| { NewBlanks(s, i); }
    }
  }

  lemma TellersCreated(s: State)
    requires SendersTell(s)
    ensures SendersTell(Create(s))
  {
    var s' := Create(s);
    forall i | 0 <= i < |s'.insts| && s'.insts[i].data.ready && s'.insts[i].sync.queue != {} ensures Teller(s', i) {
      if i >= |s.insts| { NewBlanks(s, i); }
      assert Teller(s, i);
    }
  }

  lemma RousersCreated(s: State)
    requires Base(s) && RousersCome(s)
    ensures RousersCome(Create(s))
  {
    var s' := Create(s);
    forall u | 0 <= u < |s.threads| && InQueue(s', u) && Flagged(s', s.threads[u].tag)
      ensures Excused(s', s.threads[u])
    {
      PlacedHere(s, u);
      hide Base;
      assert Excused(s, s.threads[u]);
    }
  }

  lemma WakefulAfter(s: State, e: Event)
    requires Safe(s) && Wakeful(s) && Happens(s, e)
    ensures Wakeful(After(s, e))
  {
    hide Base, Alive, Told, Dutiful, Lined, Occupied, SendersTell, RousersCome, Enabled, MayCreate, Step;
    match e
    case Steps(t, c) => WakefulKept(s, t, c);
    case Creates =>
      LinedCreated(s);
      OccupiedCreated(s);
      TellersCreated(s);
      RousersCreated(s);
  }

  lemma {:induction false} AlwaysWakeful(states: seq<State>, events: seq<Event>, k: nat)
    requires Run(states, events) && k < |states|
    ensures Wakeful(states[k])
    decreases k
  {
    hide Safe, Happens, After;
    if k > 0 {
      AlwaysWakeful(states, events, k - 1);
      AlwaysSafe(states, events, k - 1);
      hide Initial, Wakeful;
      WakefulAfter(states[k - 1], events[k - 1]);
    }
  }

  lemma ReachableWakeful(s: State)
    requires Reachable(s)
    ensures Safe(s) && Wakeful(s)
  {
    hide Safe, Wakeful, Happens, After, Initial;
    var states: seq<State>, events: seq<Event> :| Run(states, events) && states[|events|] == s;
    AlwaysSafe(states, events, |events|);
    AlwaysWakeful(states, events, |events|);
  }

  // ----- no wake-up is lost -----

  // A receiver is left in the queue of a ready instance only while the sender of the message has still
  // to call wake_up_all.
  lemma SendWakes(s: State, t: nat)
    requires Reachable(s) && t < |s.threads| && InQueue(s, t) && Look(s, s.threads[t]).data.ready
    ensures exists w :: 0 <= w < |s.threads| && s.threads[w].pc.Telling? && s.threads[w].inst == s.threads[t].inst
  {
    ReachableWakeful(s);
    var i := s.threads[t].inst;
    assert Teller(s, i);
    hide Safe, Reachable;
    var w :| Valid(s.threads, w) && TellsOn(s.threads[w], i);
  }

  // A receiver is left in a queue with the tag's flag set only while the AWAKE_ALL that set it has still
  // to wake its level, or a signal has broken that AWAKE_ALL off, or its instance has a message.
  lemma AwakeAllWakes(s: State, t: nat)
    requires Reachable(s) && t < |s.threads| && InQueue(s, t) && Look(s, s.threads[t]).tagReady
    ensures var k := s.threads[t].tag;
            Look(s, s.threads[t]).data.ready || Broken(s, k) || Coming(s, k, s.threads[t].level)
  {
    ReachableWakeful(s);
    assert Excused(s, s.threads[t]);
    hide Safe, Reachable;
  }

  // Whom the flag is owed to: set by AWAKE_ALL, lost when a signal breaks that AWAKE_ALL off.
  lemma RouserMoves(s: State, e: Event, k: nat)
    requires Reachable(s) && Happens(s, e) && k < |s.tags|
    ensures k < |After(s, e).tags|
    ensures After(s, e).tags[k].rouser ==
              if e.Steps? && s.threads[e.thread].tag == k && s.threads[e.thread].pc == Awaking(ASet) then e.thread
              else if e.Steps? && s.tags[k].rouser == e.thread && s.threads[e.thread].tag == k
                      && s.threads[e.thread].pc.Rousing? && e.choice.Interrupt? then NONE
              else s.tags[k].rouser
  {
    ReachableSafe(s);
    if e.Steps? {
      var t, c := e.thread, e.choice;
      var th, m := s.threads[t], MoveOf(s, t, c);
      Tracing(s, t, c);
      FlagFrom(th, Look(s, th), c, m);
      FlagLines(th, Look(s, th), c);
      if th.pc.Rousing? && c.Interrupt? { BreakLine(s, t); }
      if m.effect.Abandon? {
        AbandonFrom(th, Look(s, th), c, m);
        RouseBreaks(th, Look(s, th), c);
      }
      TagsKept(s, t, m, k);
      hide Safe, Reachable, Traceable, Go, Look, Enabled, Apply;
    }
  }

  lemma BreakLine(s: State, t: nat)
    requires Enabled(s, t, Interrupt) && s.threads[t].pc.Rousing?
    ensures MoveOf(s, t, Interrupt).effect.Abandon? && MoveOf(s, t, Interrupt).thread.rc == EINTR
  {
    hide Look, Contended;
  }

  lemma AbandonFrom(th: Thread, v: View, c: Choice, m: Move)
    requires Origin(th, v, c, m) && m.effect.Abandon?
    ensures th.pc.Rousing?
  {}

  lemma RouseBreaks(th: Thread, v: View, c: Choice)
    requires th.pc.Rousing?
    ensures Go(th, v, c).effect.Abandon? ==> c.Interrupt?
  {
    hide CellOf;
  }

  // A signal that breaks an AWAKE_ALL off leaves the flag set and everybody still asleep in the queue.
  lemma BreakLeaves(s: State, t: nat, u: nat)
    requires Reachable(s) && Enabled(s, t, Interrupt) && s.threads[t].pc.Rousing? && u < |s.threads| && InQueue(s, u)
    ensures var s', k := Step(s, t, Interrupt), s.threads[t].tag;
            && InQueue(s', u) && 0 <= k < |s'.tags| && s'.tags[k].ready == s.tags[k].ready
            && (s.tags[k].rouser == t ==> Broken(s', k)) && s'.threads[t].rc == EINTR
  {
    ReachableWakeful(s);
    RouserTag(s, t);
    assert Lined(s);
    hide Safe, Reachable, Wakeful, Go, Look, Contended, Unblocked, Step;
    Breaks(s, t, u);
  }

  lemma Breaks(s: State, t: nat, u: nat)
    requires Lined(s) && Enabled(s, t, Interrupt) && s.threads[t].pc.Rousing? && u < |s.threads| && InQueue(s, u)
    requires 0 <= s.threads[t].tag < |s.tags|
    ensures var s', k := Step(s, t, Interrupt), s.threads[t].tag;
            && InQueue(s', u) && k < |s'.tags| && s'.tags[k].ready == s.tags[k].ready
            && (s.tags[k].rouser == t ==> Broken(s', k)) && s'.threads[t].rc == EINTR
  {
    var th, m := s.threads[t], MoveOf(s, t, Interrupt);
    assert Sleeping(s, u, s.threads[u].inst);
    BreakLine(s, t);
    hide Lined, Go, Look, Enabled;
    QueueKept(s, t, m, s.threads[u].inst);
    TagsKept(s, t, m, th.tag);
    hide NewTagLock, NewTags, NewCells, NewInsts, Hold;
  }

  lemma RouserTag(s: State, t: nat)
    requires Safe(s) && t < |s.threads| && s.threads[t].pc.Rousing?
    ensures 0 <= s.threads[t].tag < |s.tags|
  {
    var th := s.threads[t];
    assert Shape(th) && Refers(s, th) && Levelled(s);
    hide Alive, Told, Dutiful, Base;
    RousesThere(s, th);
  }
}
