// What a finished call has done: a send that returns 1 has posted its message, any other has posted
// nothing; a receive that returns 1 has taken a message, any other has copied nothing; a deletion that
// returns 1 has freed every published level.

module Outcomes {
  import opened Protocol
  import opened Shapes
  import opened Locks
  import opened Refs
  import opened Grace
  import opened Messages
  import opened Duty
  import opened Runs

  // Nothing is left of a send but to tell the receivers and to give back what it holds.
  predicate Over(pc: PC) { pc.Telling? || pc.Exiting? || pc.Idle? }

  // A send has returned 1, or is about to, exactly when its message is in the log.
  predicate Sent(th: Thread, log: seq<Post>) {
    th.call.Send? ==>
      && (th.rc == 1 <==> th.source != NONE)
      && (th.source != NONE ==> Over(th.pc) && th.began <= th.source < |log|
                                && log[th.source] == Post(th.cell, Text(th.call)))
  }

  // From the line that gives up the rcu_lock on, nothing of a receive is left to decide.
  predicate Parted(pc: PC) {
    pc == Waiting(RLeave) || pc == Waiting(RDec) || pc.Finishing? || pc.Exiting? || pc.Idle?
  }

  // A receive has returned 1, or is about to, exactly when it has taken a message, and EFAULT exactly when
  // its copy has faulted; else it has copied nothing.
  predicate TookOne(th: Thread) {
    th.call.Receive? ==>
      && (th.pc != Waiting(RCopy) ==> (th.rc == 1 <==> th.source != NONE))
      && (th.pc == Waiting(RCopy) ==> th.rc == 1)
      && (th.rc == EFAULT <==> th.part != NONE)
      && (th.source == NONE && th.part == NONE ==> th.got == "")
      && (th.source != NONE || th.part != NONE ==> Parted(th.pc))
  }

  // What a copy that faulted has left with the user is less than was asked for, and the beginning of one
  // message, posted on the level since the call started.
  predicate Glimpsed(th: Thread, log: seq<Post>) {
    th.call.Receive? && th.part != NONE ==>
      && th.began <= th.part < |log| && log[th.part].cell == th.cell
      && |th.got| < Min(Size(th.call), |log[th.part].text|) && th.got == log[th.part].text[..|th.got|]
  }

  // What the last receiver has seen of the level is its own instance or a later one.
  predicate Compared(s: State, th: Thread) {
    th.pc == Finishing(RCompare) ==>
      && 0 <= th.inst < |s.insts| && 0 <= th.cur < |s.insts|
      && (th.cur == th.inst || EpochAt(s, th.cur) > EpochAt(s, th.inst))
  }

  // A deletion has freed the levels it has passed.
  ghost predicate Emptied(s: State, th: Thread) {
    && (th.pc.Deleting? ==> th.level == 0)
    && (th.pc == Freeing(DLevels) ==> forall c :: CellOf(th.tag, 0) <= c < th.cell ==> Freed(s, Ptr(s, c)))
    && (th.pc == Freeing(DTag) ==> forall c :: Of(c, th.tag) ==> Freed(s, Ptr(s, c)))
  }

  ghost predicate Settles(s: State, th: Thread) {
    Sent(th, s.log) && TookOne(th) && Glimpsed(th, s.log) && Compared(s, th) && Emptied(s, th)
  }

  ghost predicate Settled(s: State) { forall u :: 0 <= u < |s.threads| ==> Settles(s, s.threads[u]) }

  // ----- sends -----

  // Only the posting line makes a send successful.
  predicate SendsOn(th: Thread, v: View, m: Move) {
    var n := m.thread;
    && n.call == th.call && n.began == th.began
    && if m.effect.Announce? then n.rc == 1 && n.source == v.posted && n.cell == th.cell && n.pc.Telling?
       else n.source == th.source && (n.rc == 1 <==> th.rc == 1)
            && (th.pc.Exiting? || th.pc.Telling? ==> n.cell == th.cell && Over(n.pc))
  }

  lemma SendOn(th: Thread, line: Sends, v: View, c: Choice)
    requires th.pc == Sending(line) && th.rc != 1
    ensures SendsOn(th, v, GoSend(th, line, v, c))
  {
    hide CellOf;
  }

  lemma PostOn(th: Thread, line: Posts, v: View, c: Choice)
    requires th.pc == Posting(line) && th.rc != 1
    ensures SendsOn(th, v, GoPost(th, line, v, c))
  {}

  lemma TellOn(th: Thread, line: Tells, v: View)
    requires th.pc == Telling(line)
    ensures SendsOn(th, v, GoTell(th, line))
  {}

  lemma ExitOn(th: Thread, line: Exit, v: View)
    requires th.pc == Exiting(line)
    ensures SendsOn(th, v, GoExit(th, line, v))
  {}

  lemma SentMover(th: Thread, v: View, c: Choice, log: seq<Post>, more: seq<Post>)
    requires Sent(th, log) && OwnCall(th) && th.began <= |log| == v.posted && log <= more && (th.pc.Idle? <==> c.Start?)
    requires !th.pc.Idle? ==> Go(th, v, c).thread.call == th.call
    requires Go(th, v, c).effect.Announce? ==> |more| == |log| + 1 && more[|log|] == Post(th.cell, Text(th.call))
    ensures Sent(Go(th, v, c).thread, more)
  {
    hide GoReceive, GoRenew, GoWait, GoFinish, GoSend, GoPost, GoAwake, GoRouse, GoDelete, GoFree, GoExit;
    match th.pc
    case Idle =>
    case Sending(line) => SendOn(th, line, v, c);
    case Posting(line) => PostOn(th, line, v, c);
    case Telling(line) => TellOn(th, line, v);
    case Exiting(line) => ExitOn(th, line, v);
    case _ =>
  }

  // ----- receives -----

  // Only a copy that faults shows the user a part of a message, and what has been copied stays.
  predicate Shows(th: Thread, v: View, c: Choice, n: Thread) {
    if th.pc == Waiting(RCopy) && c.CutOff?
    then n.part == v.data.post && n.got == Prefix(v.data.buffer, c.copied) && n.cell == th.cell
    else n.part == th.part && (Parted(th.pc) ==> n.got == th.got && n.cell == th.cell)
  }

  lemma ArriveTakes(th: Thread, line: Arrive, v: View, c: Choice)
    requires th.pc == Arriving(line) && (line.RTag? || line.RLook? || line.RLevel?) && TookOne(th)
    ensures var n := GoReceive(th, line, v, c).thread; TookOne(n) && Shows(th, v, c, n)
  {
    hide CellOf;
  }

  lemma JoinTakes(th: Thread, line: Arrive, v: View, c: Choice)
    requires th.pc == Arriving(line) && !line.RTag? && !line.RLook? && !line.RLevel? && TookOne(th)
    ensures var n := GoReceive(th, line, v, c).thread; TookOne(n) && Shows(th, v, c, n)
  {
    hide CellOf;
  }

  lemma RenewTakes(th: Thread, line: Renew, v: View, c: Choice)
    requires th.pc == Renewing(line) && TookOne(th)
    ensures var n := GoRenew(th, line, v, c).thread; TookOne(n) && Shows(th, v, c, n)
  {}

  // The message is there when it is copied.
  lemma WaitTakes(th: Thread, line: Wait, v: View, c: Choice)
    requires th.pc == Waiting(line) && TookOne(th) && (line.RCopy? ==> v.data.ready)
    ensures var n := GoWait(th, line, v, c).thread; TookOne(n) && Shows(th, v, c, n)
  {
    hide Prefix, Min, Size;
  }

  // The level always has an instance, so the last receiver never turns its result into EPROTO.
  lemma FinishTakes(th: Thread, line: Finish, v: View, c: Choice)
    requires th.pc == Finishing(line) && TookOne(th) && v.ptr != NONE
    ensures var n := GoFinish(th, line, v).thread; TookOne(n) && Shows(th, v, c, n)
  {}

  lemma ExitTakes(th: Thread, line: Exit, v: View, c: Choice)
    requires th.pc == Exiting(line) && TookOne(th)
    ensures var n := GoExit(th, line, v).thread; TookOne(n) && Shows(th, v, c, n)
  {}

  lemma TookMover(th: Thread, v: View, c: Choice)
    requires TookOne(th) && OwnCall(th) && (th.pc.Idle? <==> c.Start?)
    requires (th.pc == Waiting(RCopy) ==> v.data.ready) && (th.pc.Finishing? ==> v.ptr != NONE)
    requires !th.pc.Idle? ==> Go(th, v, c).thread.call == th.call
    ensures var n := Go(th, v, c).thread;
            TookOne(n) && (n.call.Receive? ==> if th.pc.Idle? then n.part == NONE else Shows(th, v, c, n))
  {
    hide GoReceive, GoRenew, GoWait, GoFinish, GoSend, GoPost, GoTell, GoAwake, GoRouse, GoDelete, GoFree, GoExit;
    hide Prefix, Min, Size;
    match th.pc
    case Idle =>
    case Arriving(line) =>
      if line.RTag? || line.RLook? || line.RLevel? {
        ArriveTakes(th, line, v, c);
      } else {
        JoinTakes(th, line, v, c);
      }
    case Renewing(line) => RenewTakes(th, line, v, c);
    case Waiting(line) => WaitTakes(th, line, v, c);
    case Finishing(line) => FinishTakes(th, line, v, c);
    case Exiting(line) => ExitTakes(th, line, v, c);
    case _ =>
  }

  // What a copy shows before it faults is of the message in the instance.
  lemma GlimpsedMover(th: Thread, v: View, c: Choice, n: Thread, inst: Inst, log: seq<Post>)
    requires Glimpsed(th, log) && TookOne(th) && n.call == th.call && n.began == th.began && Shows(th, v, c, n)
    requires th.pc == Waiting(RCopy) && c.CutOff? ==>
               && v.data.ready && th.began <= v.data.post && inst.data == v.data && Intact(inst, log)
               && inst.cell == th.cell && c.copied < Min(Size(th.call), v.data.size)
    ensures Glimpsed(n, log)
  {
    hide Size, Over;
    if th.pc == Waiting(RCopy) && c.CutOff? {
      var text := log[v.data.post].text;
      assert n.got == v.data.buffer[..c.copied] == text[..c.copied];
    }
  }

  // ----- finishers and deleters -----

  lemma Peeks(th: Thread, line: Finish, v: View)
    requires th.pc == Finishing(line)
    ensures var m := GoFinish(th, line, v);
            m.thread.pc == Finishing(RCompare) ==>
                line == RPeek && m.effect.Quiet? && m.thread.inst == th.inst && m.thread.cur == v.ptr
  {}

  // The published instance has the highest epoch of its level.
  lemma TopEpoch(s: State, th: Thread)
    requires Levelled(s) && Placed(s, th) && th.inst >= 0 && 0 <= th.cell < |s.cells|
    ensures var p := Ptr(s, th.cell); 0 <= p < |s.insts| && (p == th.inst || EpochAt(s, p) > EpochAt(s, th.inst))
  {
    assert Below(s, th.inst);
  }

  lemma ComparedMover(s: State, t: nat, c: Choice)
    requires Base(s) && Enabled(s, t, c) && Traceable(s, s.threads[t], c, MoveOf(s, t, c))
    ensures Compared(Step(s, t, c), MoveOf(s, t, c).thread)
  {
    hide Go, Locked, Apart, Legal, Origin, Below, Slotted, Topped, Look, Apply;
    var th, v, m := s.threads[t], Look(s, s.threads[t]), MoveOf(s, t, c);
    assert Shape(th) && Refers(s, th) && Levelled(s);
    hide Referring;
    if m.thread.pc == Finishing(RCompare) {
      PeekLine(th, v, c);
      WorksOn(th);
      HasCell(s, th);
      LookPtr(s, th);
      TopEpoch(s, th);
      Memory(s, t, m);
      hide Shape, Traces, Levelled, Refers;
    }
  }

  lemma PeekLine(th: Thread, v: View, c: Choice)
    requires th.pc.Finishing?
    ensures var m := Go(th, v, c);
            m.thread.pc == Finishing(RCompare) ==> m.effect.Quiet? && m.thread.inst == th.inst && m.thread.cur == v.ptr
  {
    hide GoFinish;
    Peeks(th, th.pc.finish, v);
  }

  lemma HasCell(s: State, th: Thread)
    requires Shape(th) && Placed(s, th) && th.pc.Finishing?
    ensures 0 <= th.cell < |s.cells|
  {}

  lemma ComparedOther(s: State, t: nat, m: Move, th: Thread)
    requires t < |s.threads| && Compared(s, th)
    ensures Compared(Apply(s, t, m), th)
  {
    Memory(s, t, m);
    hide Apply;
  }

  lemma FreedLater(s: State, t: nat, m: Move, i: int)
    requires t < |s.threads| && (Freed(s, i) || (m.effect == FreeLevel(i) && 0 <= i < |s.insts|))
    ensures Freed(Apply(s, t, m), i)
  {
    hide NewTags, NewCells, NewSync, NewData, Hold;
  }

  // Which way a deletion goes on.
  predicate DeletesBy(th: Thread, v: View, m: Move) {
    var n := m.thread;
    && (n.pc.Deleting? ==> th.pc.Deleting? && n.level == th.level)
    && (n.pc == Freeing(DLevels) ==>
          n.tag == th.tag && if th.pc == Freeing(DLevels)
                             then m.effect == FreeLevel(v.ptr) && n.cell == CellOf(th.tag, th.level + 1)
                             else th.pc == Deleting(DClear) && n.cell == th.cell && m.effect.Quiet?)
    && (n.pc == Freeing(DTag) ==>
          n.tag == th.tag && th.pc == Freeing(DLevels) && m.effect == FreeLevel(v.ptr) && th.level + 1 >= LEVELS)
  }

  lemma DeleteOn(th: Thread, line: Deletes, v: View, c: Choice)
    requires th.pc == Deleting(line)
    ensures DeletesBy(th, v, GoDelete(th, line, v, c))
  {
    hide CellOf;
  }

  lemma FreeOn(th: Thread, line: Frees, v: View)
    requires th.pc == Freeing(line)
    ensures DeletesBy(th, v, GoFree(th, line, v))
  {
    hide CellOf;
  }

  lemma Deleted(s: State, t: nat, c: Choice)
    requires t < |s.threads| && Traceable(s, s.threads[t], c, MoveOf(s, t, c)) && (s.threads[t].pc.Idle? <==> c.Start?)
    ensures var th, v, m := s.threads[t], Look(s, s.threads[t]), MoveOf(s, t, c);
            if th.pc.Idle? then !m.thread.pc.Freeing? && (m.thread.pc.Deleting? ==> m.thread.level == 0)
            else DeletesBy(th, v, m)
  {
    hide Shape, Legal, Origin, Look, GoReceive, GoRenew, GoWait, GoFinish, GoSend, GoPost, GoAwake, GoRouse, GoDelete;
    hide GoFree, GoExit, GoStart, CellOf;
    var th, v := s.threads[t], Look(s, s.threads[t]);
    match th.pc
    case Idle => StartLevel(th, v, c.call);
    case Deleting(line) => DeleteOn(th, line, v, c);
    case Freeing(line) => FreeOn(th, line, v);
    case _ => OutsideDelete(th, v, MoveOf(s, t, c));
  }

  lemma StartLevel(th: Thread, v: View, call: Call)
    ensures var n := GoStart(th, v, call).thread; !n.pc.Freeing? && (n.pc.Deleting? ==> n.level == 0)
  {}

  lemma OutsideDelete(th: Thread, v: View, m: Move)
    requires Traces(th, v, m) && !th.pc.Idle? && !th.pc.Deleting? && !th.pc.Freeing?
    ensures DeletesBy(th, v, m)
  {}

  // The level just freed joins the ones before it.
  lemma EmptiedNext(s: State, s': State, th: Thread, v: View, m: Move)
    requires Emptied(s, th) && Shape(th) && DeletesBy(th, v, m) && v.ptr == Ptr(s, th.cell)
    requires forall c {:trigger Ptr(s', c)} :: Freed(s, Ptr(s, c)) || m.effect == FreeLevel(Ptr(s, c)) ==>
             Freed(s', Ptr(s', c))
    ensures Emptied(s', m.thread)
  {
    DeleterAtLevel(th);
    hide Shape, Ptr, Freed;
  }

  lemma DeleterAtLevel(th: Thread)
    requires Shape(th)
    ensures th.pc == Freeing(DLevels) || th.pc == Deleting(DClear) ==>
            th.tag >= 0 && th.cell == CellOf(th.tag, th.level)
    ensures th.pc == Deleting(DClear) || th.pc == Freeing(DLevels) ==> 0 <= th.level < LEVELS
  {}

  // A deleter's own step leaves freed what it has freed, and frees the level it names.
  lemma LevelFreed(s: State, t: nat, c: Choice, m: Move, d: int)
    requires Levelled(s) && t < |s.threads| && Shape(s.threads[t]) && Refers(s, s.threads[t])
    requires Traceable(s, s.threads[t], c, m) && (s.threads[t].pc.Deleting? || s.threads[t].pc.Freeing?)
    requires Freed(s, Ptr(s, d)) || m.effect == FreeLevel(Ptr(s, d))
    ensures Freed(Apply(s, t, m), Ptr(Apply(s, t, m), d))
  {
    var th := s.threads[t];
    NoPublish(s, th, c, m);
    PtrKept(s, t, m, d);
    if m.effect.FreeLevel? {
      FreesWhat(s, th, c, m);
      DeleterAt(s, th);
    }
    hide Shape, Refers, Traceable, Apply;
    FreedLater(s, t, m, Ptr(s, d));
  }

  lemma NoPublish(s: State, th: Thread, c: Choice, m: Move)
    requires Traceable(s, th, c, m) && (th.pc.Deleting? || th.pc.Freeing?)
    ensures !m.effect.Publish? && !m.effect.Restore?
  {
    hide Shape, Traces, Legal;
  }

  lemma EmptiedMover(s: State, t: nat, c: Choice)
    requires Base(s) && Settled(s) && Enabled(s, t, c) && Traceable(s, s.threads[t], c, MoveOf(s, t, c))
    ensures Emptied(Step(s, t, c), MoveOf(s, t, c).thread)
  {
    hide Go, Look, Locked, Levelled, Apart, Refers, Shape, Traceable, Sent, Compared, Contended, Unblocked, Apply,
         Emptied;
    var th, v, m, s' := s.threads[t], Look(s, s.threads[t]), MoveOf(s, t, c), Step(s, t, c);
    assert Settles(s, th) && Shape(th) && Refers(s, th) && Levelled(s);
    hide Base, Settled, Settles;
    Deleted(s, t, c);
    LookPtr(s, th);
    if th.pc.Deleting? || th.pc.Freeing? {
      forall d {:trigger Ptr(s', d)} | Freed(s, Ptr(s, d)) || m.effect == FreeLevel(Ptr(s, d))
        ensures Freed(s', Ptr(s', d))
      {
        LevelFreed(s, t, c, m, d);
      }
      EmptiedNext(s, s', th, v, m);
    } else {
      NotDeleting(s', th, v, m);
    }
  }

  lemma NotDeleting(s: State, th: Thread, v: View, m: Move)
    requires if th.pc.Idle? then !m.thread.pc.Freeing? && (m.thread.pc.Deleting? ==> m.thread.level == 0)
             else DeletesBy(th, v, m)
    requires !th.pc.Deleting? && !th.pc.Freeing?
    ensures Emptied(s, m.thread)
  {}

  // Nobody republishes a level of a tag being freed.
  lemma EmptiedOther(s: State, t: nat, c: Choice, u: nat)
    requires Base(s) && Enabled(s, t, c) && Traceable(s, s.threads[t], c, MoveOf(s, t, c))
    requires u < |s.threads| && u != t && Emptied(s, s.threads[u])
    ensures Emptied(Step(s, t, c), s.threads[u])
  {
    var th, b, m, s' := s.threads[t], s.threads[u], MoveOf(s, t, c), Step(s, t, c);
    if b.pc.Freeing? {
      Neighbours(s, t, u);
      DeleterAtLevel(b);
      hide Base, Go, Look, Enabled, Emptied;
      forall d {:trigger Ptr(s', d)} | Of(d, b.tag) && Freed(s, Ptr(s, d)) ensures Freed(s', Ptr(s', d)) {
        OthersLevel(s, th, c, m, b.tag, d);
        PtrKept(s, t, m, d);
        FreedLater(s, t, m, Ptr(s, d));
      }
      hide Traceable, Shape, Refers, Apart;
      StillEmptied(s, s', b);
    }
  }

  // A publisher works on the tag in tags[].
  lemma OthersLevel(s: State, th: Thread, c: Choice, m: Move, k: int, d: int)
    requires Traceable(s, th, c, m) && Shape(th) && Refers(s, th) && k >= 0 && th.tag != k && Of(d, k)
    ensures d == th.cell ==> !m.effect.Publish? && (m.effect.Restore? ==> th.base == Ptr(s, d))
  {
    RepublishTag(s, th, c, m);
    hide Shape, Traceable;
    if d == th.cell && m.effect.Publish? { Distinct(d, th.tag, k); }
  }

  lemma RepublishTag(s: State, th: Thread, c: Choice, m: Move)
    requires Traceable(s, th, c, m) && Shape(th)
    ensures m.effect.Publish? ==> Of(th.cell, th.tag)
    ensures m.effect.Restore? ==> th.pc == Renewing(RRestore)
  {
    hide Traces, Legal, Leaving, OwnCall, Joining, Nearing, Outside;
  }

  lemma StillEmptied(s: State, s': State, th: Thread)
    requires Emptied(s, th) && th.pc.Freeing?
    requires (th.pc == Freeing(DLevels) ==> th.cell == CellOf(th.tag, th.level) && th.level < LEVELS)
    requires forall d {:trigger Ptr(s', d)} :: Of(d, th.tag) && Freed(s, Ptr(s, d)) ==> Freed(s', Ptr(s', d))
    ensures Emptied(s', th)
  {
    hide Ptr, Freed;
  }

  // ----- every step keeps it -----

  lemma SentStep(s: State, t: nat, c: Choice)
    requires Base(s) && Told(s) && Settled(s) && Enabled(s, t, c)
    ensures Sent(MoveOf(s, t, c).thread, Step(s, t, c).log)
  {
    hide Apply, Locked, Referring, Minds, Intact, Compared, Emptied, Look, Unblocked, Contended;
    var th, v := s.threads[t], Look(s, s.threads[t]);
    assert Settles(s, th);
    BeganBefore(s, t);
    LogKept(s, t, MoveOf(s, t, c));
    SeenHere(s, t, c);
    if !th.pc.Idle? { Carried(th, v, c); }
    LookPtr(s, th);
    hide Told, Settled, Sent, Seen, Go, Contents, Copies, Remembers;
    SentMover(th, v, c, s.log, Step(s, t, c).log);
  }

  lemma TookStep(s: State, t: nat, c: Choice)
    requires Base(s) && Told(s) && Settled(s) && Enabled(s, t, c)
    ensures var th, n := s.threads[t], MoveOf(s, t, c).thread;
            && TookOne(n) && (!th.pc.Idle? ==> n.call == th.call && n.began == th.began)
            && (n.call.Receive? ==> if th.pc.Idle? then n.part == NONE else Shows(th, Look(s, th), c, n))
  {
    hide Locked, Levelled, Apart, Minds, Intact, Sent, TookOne, Glimpsed, Compared, Emptied, Look, Unblocked, Contended,
         Placed, Slotted, Topped, Seen, Go;
    var th, v := s.threads[t], Look(s, s.threads[t]);
    assert Settles(s, th) && Shape(th) && Refers(s, th) && Levelled(s);
    BeganBefore(s, t);
    SeenHere(s, t, c);
    if !th.pc.Idle? { Carried(th, v, c); }
    if th.pc.Finishing? { HasLevel(s, th); }
    LookPtr(s, th);
    SeenReady(th, v, c);
    hide Base, Told, Settled, Shape, Refers, Contents, Copies, Remembers, Shows;
    TookMover(th, v, c);
  }

  // What is there to copy is one message, posted on the level since the call started.
  lemma CopyFacts(s: State, t: nat, c: Choice)
    requires Base(s) && Told(s) && Enabled(s, t, c) && s.threads[t].pc == Waiting(RCopy)
    ensures var th, d := s.threads[t], Look(s, s.threads[t]).data;
            && d.ready && th.began <= d.post && 0 <= th.inst < |s.insts| && s.insts[th.inst].data == d
            && Intact(s.insts[th.inst], s.log) && s.insts[th.inst].cell == th.cell
            && (c.CutOff? ==> c.copied < Min(Size(th.call), d.size))
  {
    CopyPlace(s, t);
    assert Minds(s.threads[t], DataOf(s, s.threads[t].inst), s.log) && Intact(s.insts[s.threads[t].inst], s.log);
    hide Base, Told, Intact, Delivered, Begins, Contended, Unblocked, Min, Size;
  }

  lemma CopyPlace(s: State, t: nat)
    requires Base(s) && t < |s.threads| && s.threads[t].pc == Waiting(RCopy)
    ensures 0 <= s.threads[t].inst < |s.insts| && s.insts[s.threads[t].inst].cell == s.threads[t].cell
  {
    assert Shape(s.threads[t]);
    Hands(s.threads[t]);
    PlacedHere(s, t);
    hide Base, Shape;
  }

  lemma GlimpsedStep(s: State, t: nat, c: Choice)
    requires Base(s) && Told(s) && Settled(s) && Enabled(s, t, c)
    ensures Glimpsed(MoveOf(s, t, c).thread, Step(s, t, c).log)
  {
    hide Base, Told, Intact, Sent, TookOne, Glimpsed, Compared, Emptied, Look, Contended, Unblocked, Apply, Go, Shows;
    var th, n := s.threads[t], MoveOf(s, t, c).thread;
    TookStep(s, t, c);
    LogKept(s, t, MoveOf(s, t, c));
    assert Settles(s, th);
    hide Settled, Settles;
    if n.call.Receive? && !th.pc.Idle? {
      var inst := Blank(NONE, 0);
      if th.pc == Waiting(RCopy) {
        CopyFacts(s, t, c);
        inst := s.insts[th.inst];
      }
      hide Enabled;
      GlimpsedMover(th, Look(s, th), c, n, inst, s.log);
      GlimpsedLonger(n, s.log, Step(s, t, c).log);
    } else {
      NothingShown(n, Step(s, t, c).log);
    }
  }

  lemma NothingShown(th: Thread, log: seq<Post>)
    requires th.call.Receive? ==> th.part == NONE
    ensures Glimpsed(th, log)
  {}

  lemma GlimpsedLonger(th: Thread, log: seq<Post>, more: seq<Post>)
    requires Glimpsed(th, log) && log <= more
    ensures Glimpsed(th, more)
  {}

  lemma SeenReady(th: Thread, v: View, c: Choice)
    requires Seen(th, v, c)
    ensures th.pc == Waiting(RCopy) ==> v.data.ready
  {}

  lemma BeganBefore(s: State, t: nat)
    requires Base(s) && Told(s) && t < |s.threads|
    ensures s.threads[t].began <= |s.log| && OwnCall(s.threads[t])
  {
    assert Shape(s.threads[t]) && Minds(s.threads[t], DataOf(s, s.threads[t].inst), s.log);
  }

  lemma HeldApart(th: Thread, held: Held, s: State)
    requires Settles(s, th)
    ensures Settles(s, th.(held := held))
  {}

  lemma MoverSettles(s: State, t: nat, c: Choice)
    requires Base(s) && Told(s) && Settled(s) && Enabled(s, t, c)
    ensures Settles(Step(s, t, c), MoveOf(s, t, c).thread)
  {
    Tracing(s, t, c);
    SentStep(s, t, c);
    TookStep(s, t, c);
    GlimpsedStep(s, t, c);
    ComparedMover(s, t, c);
    EmptiedMover(s, t, c);
  }

  lemma SentLonger(th: Thread, log: seq<Post>, more: seq<Post>)
    requires Sent(th, log) && log <= more
    ensures Sent(th, more)
  {}

  lemma OtherSettles(s: State, t: nat, c: Choice, u: nat)
    requires Base(s) && Settled(s) && Enabled(s, t, c) && u < |s.threads| && u != t
    ensures Settles(Step(s, t, c), s.threads[u])
  {
    assert Settles(s, s.threads[u]);
    Tracing(s, t, c);
    hide Base, Settled, Traceable, Go, Look, Enabled, Sent, TookOne, Glimpsed, Compared, Emptied;
    LogKept(s, t, MoveOf(s, t, c));
    SentLonger(s.threads[u], s.log, Step(s, t, c).log);
    GlimpsedLonger(s.threads[u], s.log, Step(s, t, c).log);
    ComparedOther(s, t, MoveOf(s, t, c), s.threads[u]);
    EmptiedOther(s, t, c, u);
    hide Apply;
  }

  lemma SettledKept(s: State, t: nat, c: Choice)
    requires Base(s) && Told(s) && Settled(s) && Enabled(s, t, c)
    ensures Settled(Step(s, t, c))
  {
    hide Base, Told, Settles, Go, Look, Hold, NewTagLock, NewTags, NewCells, NewInsts;
    MoverSettles(s, t, c);
    HeldApart(MoveOf(s, t, c).thread, Hold(s.threads[t], MoveOf(s, t, c).effect), Step(s, t, c));
    forall u | 0 <= u < |s.threads| && u != t ensures Settles(Step(s, t, c), s.threads[u]) {
      OtherSettles(s, t, c, u);
    }
  }

  lemma SettledCreated(s: State)
    requires Base(s) && Settled(s)
    ensures Settled(Create(s))
  {
    var s' := Create(s);
    forall u | 0 <= u < |s.threads| ensures Settles(s', s.threads[u]) {
      assert Settles(s, s.threads[u]);
      PlacedHere(s, u);
      assert Shape(s.threads[u]);
      DeleterAtLevel(s.threads[u]);
      hide Base, Shape;
      CreatedLevels(s, s.threads[u]);
    }
  }

  lemma CreatedLevels(s: State, th: Thread)
    requires Emptied(s, th)
    ensures Emptied(Create(s), th)
  {
    forall d | Freed(s, Ptr(s, d)) ensures Freed(Create(s), Ptr(Create(s), d)) {}
    hide Freed, Ptr, Create;
  }

  lemma SettledInitial(s: State)
    requires Initial(s)
    ensures Settled(s)
  {}

  lemma SettledAfter(s: State, e: Event)
    requires Safe(s) && Settled(s) && Happens(s, e)
    ensures Settled(After(s, e))
  {
    hide Base, Alive, Told, Settled, Enabled, MayCreate, Step, Create;
    match e
    case Steps(t, c) => SettledKept(s, t, c);
    case Creates => SettledCreated(s);
  }

  lemma {:induction false} AlwaysSettled(states: seq<State>, events: seq<Event>, k: nat)
    requires Run(states, events) && k < |states|
    ensures Settled(states[k])
    decreases k
  {
    hide Safe, Settled, Initial, Happens, After;
    if k == 0 {
      SettledInitial(states[0]);
    } else {
      AlwaysSettled(states, events, k - 1);
      AlwaysSafe(states, events, k - 1);
      SettledAfter(states[k - 1], events[k - 1]);
    }
  }

  lemma ReachableSettled(s: State)
    requires Reachable(s)
    ensures Safe(s) && Settled(s)
  {
    hide Safe, Settled, Happens, After, Initial;
    var states: seq<State>, events: seq<Event> :| Run(states, events) && states[|events|] == s;
    AlwaysSafe(states, events, |events|);
    AlwaysSettled(states, events, |events|);
  }

  // ----- what a finished call has done -----

  // A send that is over returned 1 if and only if it has posted its message on its level.
  lemma SendOutcome(s: State, t: nat)
    requires Reachable(s) && t < |s.threads| && s.threads[t].pc.Idle? && s.threads[t].call.Send?
    ensures var th := s.threads[t];
            && (th.rc == 1 <==> th.source != NONE)
            && (th.rc == 1 ==> th.began <= th.source < |s.log| && s.log[th.source] == Post(th.cell, Text(th.call)))
  {
    ReachableSettled(s);
    assert Settles(s, s.threads[t]);
    hide Safe, Reachable, Compared, Emptied;
  }

  // A receive that is over returned 1 if and only if it took a message. With any other result it copied
  // nothing, except that a copy which faulted has left a part of one message: a beginning shorter than what
  // was asked for, of a message posted on the level after the call began.
  lemma ReceiveOutcome(s: State, t: nat)
    requires Reachable(s) && t < |s.threads| && s.threads[t].pc.Idle? && s.threads[t].call.Receive?
    ensures var th := s.threads[t];
            && (th.rc == 1 <==> th.source != NONE)
            && (th.rc != 1 && th.rc != EFAULT ==> th.got == "")
            && (th.rc == EFAULT ==>
                exists p :: th.began <= p < |s.log| && s.log[p].cell == th.cell && th.got <= s.log[p].text &&
                            |th.got| < Min(Size(th.call), |s.log[p].text|))
  {
    ReachableSettled(s);
    var th := s.threads[t];
    assert Settles(s, th);
    hide Safe, Reachable, Sent, Compared, Emptied;
    if th.rc == EFAULT { assert s.log[th.part].cell == th.cell; }
  }

  // The log grows exactly with the posting line of a send: by the text of that send, on a level of the tag
  // in tags[]; and the send has 1 to return.
  lemma LogGrowth(s: State, e: Event)
    requires Reachable(s) && Happens(s, e)
    ensures var s' := After(s, e);
            if e.Steps? && s.threads[e.thread].pc == Posting(SPost)
            then var th := s.threads[e.thread];
                 && th.call.Send? && Of(th.cell, s.slot)
                 && s'.log == s.log + [Post(th.cell, if th.call.buffered then th.call.text else "")]
                 && s'.threads[e.thread].source == |s.log| && s'.threads[e.thread].rc == 1
            else s'.log == s.log
  {
    ReachableSettled(s);
    if e.Steps? {
      var t, c := e.thread, e.choice;
      Tracing(s, t, c);
      if s.threads[t].pc == Posting(SPost) { PostsInSlot(s, t); }
      hide Safe, Settled, Reachable, Go, Look, Contended, Unblocked;
      PostLines(s, t, c);
      LogMove(s, t, c);
    }
  }

  lemma PostsInSlot(s: State, t: nat)
    requires Safe(s) && t < |s.threads| && s.threads[t].pc == Posting(SPost)
    ensures s.threads[t].call.Send? && Of(s.threads[t].cell, s.slot)
  {
    assert Shape(s.threads[t]) && Refers(s, s.threads[t]);
    hide Safe, Placed, Topped;
  }

  lemma PostLines(s: State, t: nat, c: Choice)
    requires t < |s.threads|
    ensures s.threads[t].pc == Posting(SPost) ==> MoveOf(s, t, c).effect.Announce?
  {
    hide Look, GoStart, GoReceive, GoRenew, GoWait, GoFinish, GoSend, GoTell, GoAwake, GoRouse, GoDelete, GoFree,
         GoExit;
  }

  lemma LogMove(s: State, t: nat, c: Choice)
    requires t < |s.threads| && Traceable(s, s.threads[t], c, MoveOf(s, t, c))
    ensures var s', th, m, n := Step(s, t, c), s.threads[t], MoveOf(s, t, c), MoveOf(s, t, c).thread;
            && (m.effect.Announce? ==> th.pc == Posting(SPost)) &&
            if m.effect.Announce? then s'.log == s.log + [Post(th.cell, Text(th.call))]
                                       && n.source == |s.log| && n.rc == 1
            else s'.log == s.log
  {
    var th := s.threads[t];
    LookPtr(s, th);
    AnnounceFrom(th, Look(s, th), c, MoveOf(s, t, c));
    if th.pc == Posting(SPost) { PostLine(th, Look(s, th), c); }
    hide Traceable, Go, Look, NewTagLock, NewTags, NewCells, NewInsts, Hold;
  }

  lemma AnnounceFrom(th: Thread, v: View, c: Choice, m: Move)
    requires Origin(th, v, c, m)
    ensures m.effect.Announce? ==> th.pc == Posting(SPost)
  {}

  lemma PostLine(th: Thread, v: View, c: Choice)
    requires th.pc == Posting(SPost)
    ensures Go(th, v, c).thread.source == v.posted && Go(th, v, c).thread.rc == 1
  {}

  // A deletion returns 1 with the tag and every published level of it freed.
  lemma DeleteOutcome(s: State, t: nat, c: Choice)
    requires Reachable(s) && Enabled(s, t, c) && s.threads[t].pc == Freeing(DTag)
    ensures var s', k := Step(s, t, c), s.threads[t].tag;
            && s'.threads[t].pc.Idle? && s'.threads[t].rc == 1 && 0 <= k < |s'.tags| && s'.tags[k].freed
            && forall d :: Of(d, k) ==> Freed(s', Ptr(s', d))
  {
    ReachableSettled(s);
    var th := s.threads[t];
    assert Settles(s, th) && Shape(th) && Refers(s, th);
    TagNeeds(th);
    hide Safe, Settled, Reachable, Shape, Sent, Compared, Slotted, Topped, Emptied, Step;
    DeleteEnds(s, t, c);
  }

  lemma DeleteEnds(s: State, t: nat, c: Choice)
    requires t < |s.threads| && s.threads[t].pc == Freeing(DTag) && 0 <= s.threads[t].tag < |s.tags|
    requires Emptied(s, s.threads[t])
    ensures var s', k := Step(s, t, c), s.threads[t].tag;
            && s'.threads[t].pc.Idle? && s'.threads[t].rc == 1 && 0 <= k < |s'.tags| && s'.tags[k].freed
            && forall d :: Of(d, k) ==> Freed(s', Ptr(s', d))
  {
    var th, m, s' := s.threads[t], MoveOf(s, t, c), Step(s, t, c);
    LastFree(th, Look(s, th), c);
    hide Go, Look, Hold, NewTagLock, NewCells, NewInsts, Freed, Ptr, Of;
    forall d | Of(d, th.tag) ensures Freed(s', Ptr(s', d)) {
      PtrKept(s, t, m, d);
      FreedLater(s, t, m, Ptr(s, d));
    }
    hide Emptied;
  }

  lemma LastFree(th: Thread, v: View, c: Choice)
    requires th.pc == Freeing(DTag)
    ensures Go(th, v, c) == Move(FreeTag, th.(rc := 1, tag := NONE, pc := Idle))
  {}

  // A receiver woken by a message goes on to copy it, and the copy, unless it faults, makes it return 1
  // with the message.
  lemma ReceiverTakes(s: State, t: nat)
    requires Reachable(s) && t < |s.threads|
    ensures s.threads[t].pc == Waiting(RReady) && Look(s, s.threads[t]).data.ready ==>
              Step(s, t, Plain).threads[t].pc == Waiting(RCopy)
    ensures s.threads[t].pc == Waiting(RCopy) ==>
              var n := Step(s, t, Plain).threads[t];
              n.pc == Waiting(RLeave) && n.rc == 1 && Delivered(n, s.log)
  {
    ReachableSettled(s);
    assert Base(s) && Told(s);
    hide Reachable, Safe, Settled;
    hide Base, Told, Delivered, Look, Go;
    if s.threads[t].pc == Waiting(RReady) { WakesUp(s.threads[t], Look(s, s.threads[t])); }
    if s.threads[t].pc == Waiting(RCopy) { CopyDelivers(s, t); }
  }

  lemma WakesUp(th: Thread, v: View)
    requires th.pc == Waiting(RReady)
    ensures v.data.ready ==> Go(th, v, Plain).thread.pc == Waiting(RCopy)
  {}

  lemma CopyDelivers(s: State, t: nat)
    requires Base(s) && Told(s) && t < |s.threads| && s.threads[t].pc == Waiting(RCopy)
    ensures var n := Step(s, t, Plain).threads[t]; n.pc == Waiting(RLeave) && n.rc == 1 && Delivered(n, s.log)
  {
    var th, v := s.threads[t], Look(s, s.threads[t]);
    assert Minds(th, DataOf(s, th.inst), s.log);
    SeenHere(s, t, Plain);
    Carried(th, v, Plain);
    CopyLine(th, v);
    hide Base, Told, Delivered, Carries, Seen, Look, Go, Minds;
    OwnDelivered(s, t, MoveOf(s, t, Plain));
    DeliveredHeld(MoveOf(s, t, Plain).thread, Hold(th, MoveOf(s, t, Plain).effect), s.log);
    hide Hold, NewTagLock, NewTags, NewCells, NewInsts;
  }

  lemma CopyLine(th: Thread, v: View)
    requires th.pc == Waiting(RCopy) && th.rc == 1
    ensures var n := Go(th, v, Plain).thread; n.pc == Waiting(RLeave) && n.rc == 1
  {}

  lemma DeliveredHeld(th: Thread, held: Held, log: seq<Post>)
    ensures Delivered(th, log) == Delivered(th.(held := held), log)
  {}

  // ----- what decides -----

  // The wake-up flag of a tag is set by AWAKE_ALL and cleared by the receiver whose decrement emptied the
  // tag's count, and by no other step.
  lemma FlagMoves(s: State, e: Event, k: nat)
    requires Reachable(s) && Happens(s, e) && k < |s.tags|
    ensures k < |After(s, e).tags|
    ensures After(s, e).tags[k].ready ==
              if e.Steps? && s.threads[e.thread].tag == k && s.threads[e.thread].pc == Awaking(ASet) then true
              else if e.Steps? && s.threads[e.thread].tag == k && s.threads[e.thread].pc == Exiting(UnClear)
                      && s.threads[e.thread].zero then false
              else s.tags[k].ready
  {
    ReachableSettled(s);
    if e.Steps? {
      Tracing(s, e.thread, e.choice);
      hide Safe, Settled, Reachable, Look, Enabled;
      FlagStep(s, e.thread, e.choice, k);
    }
  }

  lemma FlagStep(s: State, t: nat, c: Choice, k: nat)
    requires t < |s.threads| && Traceable(s, s.threads[t], c, MoveOf(s, t, c)) && k < |s.tags|
    requires s.threads[t].pc.Idle? <==> c.Start?
    ensures var s', th := Step(s, t, c), s.threads[t];
            k < |s'.tags| && s'.tags[k].ready ==
              if th.tag == k && th.pc == Awaking(ASet) then true
              else if th.tag == k && th.pc == Exiting(UnClear) && th.zero then false else s.tags[k].ready
  {
    var th, m := s.threads[t], MoveOf(s, t, c);
    FlagFrom(th, Look(s, th), c, m);
    FlagLines(th, Look(s, th), c);
    hide Traceable, Go, Look, NewTagLock, NewCells, NewInsts, Hold;
  }

  lemma FlagFrom(th: Thread, v: View, c: Choice, m: Move)
    requires Origin(th, v, c, m)
    ensures m.effect == Flag(true) ==> th.pc == Awaking(ASet)
    ensures m.effect == Flag(false) ==> th.pc == Exiting(UnClear) && th.zero
  {}

  lemma FlagLines(th: Thread, v: View, c: Choice)
    ensures th.pc == Awaking(ASet) ==> Go(th, v, c).effect == Flag(true)
    ensures th.pc == Exiting(UnClear) && th.zero ==> Go(th, v, c).effect == Flag(false)
  {
    hide GoStart, GoReceive, GoRenew, GoWait, GoFinish, GoSend, GoPost, GoRouse, GoDelete, GoFree, CellOf;
  }

  // A receiver that leaves an instance goes on to close it if and only if it leaves nobody counted there.
  lemma LastCloses(s: State, t: nat, c: Choice)
    requires Reachable(s) && Enabled(s, t, c) && s.threads[t].pc == Waiting(RDec)
    ensures var s', i := Step(s, t, c), s.threads[t].inst;
            0 <= i < |s'.insts| && (s'.threads[t].pc == Finishing(RTry) <==> s'.insts[i].sync.waiters == {})
  {
    ReachableSettled(s);
    Tracing(s, t, c);
    LeaveLine(s.threads[t], Look(s, s.threads[t]), c);
    hide Go, Enabled, Settled, Reachable, Alive, Told;
    Leaves(s, t, c, MoveOf(s, t, c));
    WaitersKept(s, t, MoveOf(s, t, c), s.threads[t].inst);
    OneLeft(s.insts[s.threads[t].inst].sync.waiters, t);
    hide Safe, Traceable, NewTagLock, NewTags, NewCells, NewInsts, Hold;
  }

  lemma LeaveLine(th: Thread, v: View, c: Choice)
    requires th.pc == Waiting(RDec)
    ensures Go(th, v, c).effect.Leave? && (Go(th, v, c).thread.pc == Finishing(RTry) <==> v.waiting == 1)
  {}

  lemma OneLeft(who: set<int>, t: int)
    requires t in who
    ensures |who| == 1 <==> who - {t} == {}
  {
    assert who == (who - {t}) + {t};
  }

  // A send to a tag on which nobody receives is discarded.
  lemma SendsNowhere(s: State, t: nat, c: Choice)
    requires Reachable(s) && Enabled(s, t, c) && s.threads[t].pc == Sending(SWaiters)
    requires forall u :: 0 <= u < |s.threads| ==> s.threads[u].held.counted != s.slot
    ensures var n := Step(s, t, c).threads[t]; n.pc == Exiting(UnWrite) && n.rc == 0 && n.source == s.threads[t].source
  {
    ReachableSettled(s);
    var th := s.threads[t];
    assert Shape(th) && Refers(s, th);
    AtSlot(s, th);
    NoneCounted(s, s.slot);
    hide Safe, Settled, Reachable, Shape, Enabled, Go, NewTagLock, NewTags, NewCells, NewInsts, Hold;
    WaitersLine(th, Look(s, th), c);
  }

  lemma AtSlot(s: State, th: Thread)
    requires Shape(th) && Refers(s, th) && th.pc == Sending(SWaiters)
    ensures 0 <= th.tag == s.slot < |s.tags|
  {}

  lemma NoneCounted(s: State, k: int)
    requires Locked(s) && 0 <= k < |s.tags| && forall u :: 0 <= u < |s.threads| ==> s.threads[u].held.counted != k
    ensures s.tags[k].waiting == 0
  {
    hide Guarded, Synced, Ranged;
    var who := s.tags[k].members;
    assert Tallied(who, s.tags[k].waiting, TagCount(k), s.threads);
    NobodyIn(who, s.tags[k].waiting, TagCount(k), s.threads);
  }

  lemma WaitersLine(th: Thread, v: View, c: Choice)
    requires th.pc == Sending(SWaiters) && v.tagWaiting == 0
    ensures var n := Go(th, v, c).thread; n.pc == Exiting(UnWrite) && n.rc == 0 && n.source == th.source
  {}

  lemma NobodyIn(who: set<int>, n: int, p: Place, threads: seq<Thread>)
    requires Tallied(who, n, p, threads) && forall u :: Valid(threads, u) ==> !Counts(threads[u].held, p)
    ensures n == 0
  {
    hide Counts;
    forall u ensures u !in who {}
    assert who == {};
  }
}
