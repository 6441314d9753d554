// What travels through an instance: a message is written by one sender and stays as it is until every
// reader has left; a receive gets a beginning of exactly one message, posted after the receive began.

module Messages {
  import opened Protocol
  import opened Shapes
  import opened Locks
  import opened Refs

  // The instance was seen not ready, under a lock that keeps the thread on it.
  predicate Checked(pc: PC) {
    match pc
    case Renewing(line) => line.RDrop? || line.RJoin? || line.RUnwrite?
    case Waiting(line) => !line.RLeave? && !line.RDec?
    case _ => false
  }

  // The sender owns the instance and has found it not ready.
  predicate Filling(pc: PC) { pc.Posting? && !pc.post.SReady? }

  predicate Late(pc: PC) { pc.Waiting? || pc.Finishing? || pc.Exiting? || pc.Idle? }

  // Where the results of a move come from.
  predicate Carries(th: Thread, v: View, m: Move) {
    var n := m.thread;
    && n.began == th.began && n.call == th.call
    && (n.rc == 1 && n.call.Receive? && n.pc != Waiting(RCopy) ==> Copies(th, v, n) || Remembers(th, n))
    && (n.rc == 1 && n.call.Receive? ==> Late(n.pc))
    && (n.pc == Waiting(RCopy) ==> n.inst == th.inst && n.rc == 1 && v.data.ready && m.effect.Quiet?)
    && (Checked(n.pc) ==>
        (Checked(th.pc) && n.inst == th.inst) || (!v.data.ready && n.inst == th.inst) || m.effect.Publish?)
    && (Filling(n.pc) ==> n.inst == th.inst && ((th.pc == Posting(SReady) && !v.data.ready) || Filling(th.pc)))
    && (n.pc == Posting(SSize) ==> m.effect == Write(v.data.(buffer := Overlay(Text(th.call), v.data.buffer))))
    && (n.pc == Posting(SPost) ==> th.pc == Posting(SSize) && m.effect == Write(v.data.(size := |Text(th.call)|)))
    && (n.pc == Finishing(RResize) ==> n.inst == th.inst && m.effect == Write(v.data.(ready := false, posts := 0)))
    && Contents(th, v, m.effect) && (m.effect.Announce? ==> n.pc.Telling?)
  }

  // What a write leaves of the instance.
  predicate Contents(th: Thread, v: View, e: Effect) {
    match e
    case Write(d) =>
      if th.pc.Posting?
      then Filling(th.pc) && th.pc != Posting(SPost) && |d.buffer| == |v.data.buffer| && d.ready == v.data.ready
          && d.posts == v.data.posts
      else d.buffer == v.data.buffer && !d.ready && d.posts == 0
    case _ => true
  }

  predicate Copies(th: Thread, v: View, n: Thread) {
    && th.pc == Waiting(RCopy) && n.source == v.data.post && n.cell == th.cell
    && n.got == Prefix(v.data.buffer, Min(Size(th.call), v.data.size))
  }

  predicate Remembers(th: Thread, n: Thread) {
    && th.rc == 1 && th.pc != Waiting(RCopy) && n.got == th.got && n.source == th.source && n.cell == th.cell
  }

  // What the invariants say of this one view.
  predicate Seen(th: Thread, v: View, c: Choice) {
    && OwnCall(th) && |v.data.buffer| == BUFFER_SIZE
    && (th.pc == Waiting(RCopy) ==> v.data.ready && th.rc == 1)
    && (th.pc == Finishing(RResize) ==> !v.data.ready && v.data.posts == 0)
    && (c.Fault? && th.pc == Posting(SCopy) ==> |c.junk| == BUFFER_SIZE)
    && (th.rc == 1 && th.call.Receive? ==> Late(th.pc))
  }

  lemma CarryReceive(th: Thread, line: Arrive, v: View, c: Choice)
    requires th.pc == Arriving(line) && (line.RTag? || line.RLook? || line.RLevel? || line.RFetch?) && Seen(th, v, c)
    ensures Carries(th, v, GoReceive(th, line, v, c))
  {
    hide CellOf, Prefix, Min, Size, Overlay, Text;
  }

  lemma CarryReceiveOn(th: Thread, line: Arrive, v: View, c: Choice)
    requires th.pc == Arriving(line) && (line.RCount? || line.RRcu? || line.RUnlevel?) && Seen(th, v, c)
    ensures Carries(th, v, GoReceive(th, line, v, c))
  {
    hide CellOf, Prefix, Min, Size, Overlay, Text;
  }

  lemma CarryRenew(th: Thread, line: Renew, v: View, c: Choice)
    requires th.pc == Renewing(line) && Seen(th, v, c)
    ensures Carries(th, v, GoRenew(th, line, v, c))
  {
    hide CellOf;
  }

  lemma CarryWait(th: Thread, line: Wait, v: View, c: Choice)
    requires th.pc == Waiting(line) && Seen(th, v, c)
    ensures Carries(th, v, GoWait(th, line, v, c))
  {
    hide CellOf;
  }

  lemma CarryFinish(th: Thread, line: Finish, v: View, c: Choice)
    requires th.pc == Finishing(line) && Seen(th, v, c)
    ensures Carries(th, v, GoFinish(th, line, v))
  {
    hide CellOf;
  }

  lemma CarrySend(th: Thread, line: Sends, v: View, c: Choice)
    requires th.pc == Sending(line) && (line.STag? || line.SLook? || line.SWaiters? || line.SLevel?) && Seen(th, v, c)
    ensures Carries(th, v, GoSend(th, line, v, c))
  {
    hide CellOf, Prefix, Min, Size, Overlay, Text;
  }

  lemma CarrySendOn(th: Thread, line: Sends, v: View, c: Choice)
    requires th.pc == Sending(line) && (line.SFetch? || line.SRcu? || line.SUnlevel? || line.SMutex?) && Seen(th, v, c)
    ensures Carries(th, v, GoSend(th, line, v, c))
  {
    hide CellOf, Prefix, Min, Size, Overlay, Text;
  }

  lemma CarryPost(th: Thread, line: Posts, v: View, c: Choice)
    requires th.pc == Posting(line) && Seen(th, v, c)
    ensures Carries(th, v, GoPost(th, line, v, c))
  {
    hide CellOf;
  }

  lemma CarryTell(th: Thread, line: Tells, v: View, c: Choice)
    requires th.pc == Telling(line) && Seen(th, v, c)
    ensures Carries(th, v, GoTell(th, line))
  {
    hide CellOf, Prefix, Min, Size, Overlay, Text;
  }

  lemma CarryAwake(th: Thread, line: Awake, v: View, c: Choice)
    requires th.pc == Awaking(line) && Seen(th, v, c)
    ensures Carries(th, v, GoAwake(th, line, v, c))
  {
    hide CellOf, Prefix, Min, Size, Overlay, Text;
  }

  lemma CarryRouse(th: Thread, line: Rouse, v: View, c: Choice)
    requires th.pc == Rousing(line) && Seen(th, v, c)
    ensures Carries(th, v, GoRouse(th, line, v, c))
  {
    hide CellOf;
  }

  lemma CarryDelete(th: Thread, line: Deletes, v: View, c: Choice)
    requires th.pc == Deleting(line) && Seen(th, v, c)
    ensures Carries(th, v, GoDelete(th, line, v, c))
  {
    hide CellOf;
  }

  lemma CarryFree(th: Thread, line: Frees, v: View, c: Choice)
    requires th.pc == Freeing(line) && Seen(th, v, c)
    ensures Carries(th, v, GoFree(th, line, v))
  {
    hide CellOf;
  }

  lemma CarryExit(th: Thread, line: Exit, v: View, c: Choice)
    requires th.pc == Exiting(line) && Seen(th, v, c)
    ensures Carries(th, v, GoExit(th, line, v))
  {
    hide CellOf;
  }

  lemma Carried(th: Thread, v: View, c: Choice)
    requires Seen(th, v, c) && (th.pc.Idle? <==> c.Start?) && !th.pc.Idle?
    ensures Carries(th, v, Go(th, v, c))
  {
    hide Carries, Seen;
    hide GoStart, GoReceive, GoRenew, GoWait, GoFinish, GoSend, GoPost, GoTell, GoAwake, GoRouse, GoDelete, GoFree,
         GoExit;
    match th.pc
    case Arriving(line) =>
      if line.RTag? || line.RLook? || line.RLevel? || line.RFetch? {
        CarryReceive(th, line, v, c);
      } else {
        CarryReceiveOn(th, line, v, c);
      }
    case Renewing(line) => CarryRenew(th, line, v, c);
    case Waiting(line) => CarryWait(th, line, v, c);
    case Finishing(line) => CarryFinish(th, line, v, c);
    case Sending(line) =>
      if line.STag? || line.SLook? || line.SWaiters? || line.SLevel? {
        CarrySend(th, line, v, c);
      } else {
        CarrySendOn(th, line, v, c);
      }
    case Posting(line) => CarryPost(th, line, v, c);
    case Telling(line) => CarryTell(th, line, v, c);
    case Awaking(line) => CarryAwake(th, line, v, c);
    case Rousing(line) => CarryRouse(th, line, v, c);
    case Deleting(line) => CarryDelete(th, line, v, c);
    case Freeing(line) => CarryFree(th, line, v, c);
    case Exiting(line) => CarryExit(th, line, v, c);
  }

  // ----- the invariant -----

  // A ready instance holds exactly the one message posted since the last reset, with its size.
  predicate Intact(inst: Inst, log: seq<Post>) {
    var d := inst.data;
    && |d.buffer| == BUFFER_SIZE && d.posts == (if d.ready then 1 else 0)
    && (d.ready ==> d.post < |log| && Bears(d, log[d.post].text) && log[d.post].cell == inst.cell)
  }

  predicate Bears(d: Data, text: string) {
    d.size == |text| && Begins(d.buffer, text)
  }

  predicate Begins(buffer: string, text: string) { |text| <= |buffer| && buffer[..|text|] == text }

  // The call has in hand the beginning of one message, posted on its level since it started.
  predicate Delivered(th: Thread, log: seq<Post>) {
    && th.began <= th.source < |log| && log[th.source].cell == th.cell
    && th.got == Prefix(log[th.source].text, Min(Size(th.call), |log[th.source].text|))
  }

  // What a thread may rely on of the instance it works on.
  predicate Minds(th: Thread, d: Data, log: seq<Post>) {
    && th.began <= |log|
    && (Filling(th.pc) ==> !d.ready)
    && (th.pc == Posting(SSize) || th.pc == Posting(SPost) ==> Begins(d.buffer, Text(th.call)))
    && (th.pc == Posting(SPost) ==> d.size == |Text(th.call)|)
    && (th.pc == Finishing(RResize) ==> !d.ready)
    && (th.pc == Waiting(RCopy) ==> d.ready && th.rc == 1)
    && (Checked(th.pc) && d.ready ==> th.began <= d.post)
    && (th.rc == 1 && th.call.Receive? ==> Late(th.pc) && (th.pc != Waiting(RCopy) ==> Delivered(th, log)))
  }

  function DataOf(s: State, i: int): Data { if 0 <= i < |s.insts| then s.insts[i].data else Blank(NONE, 0).data }

  ghost predicate Told(s: State) {
    && (forall i :: 0 <= i < |s.insts| ==> Intact(s.insts[i], s.log))
    && (forall u :: 0 <= u < |s.threads| ==> Minds(s.threads[u], DataOf(s, s.threads[u].inst), s.log))
  }

  // ----- what a step changes -----

  predicate Alters(e: Effect) { e.Write? || e.Announce? }

  lemma DataKept(s: State, t: nat, m: Move, i: int)
    requires t < |s.threads| && 0 <= i < |s.insts|
    ensures var s', d := Apply(s, t, m), s.insts[i].data;
            && 0 <= i < |s'.insts| && s'.insts[i].cell == s.insts[i].cell
            && s'.insts[i].data ==
               if i == s.threads[t].inst && Alters(m.effect) then NewData(d, m.effect, |s.log|) else d
  {
    hide NewTags, NewCells, NewSync, Hold;
  }

  lemma LogKept(s: State, t: nat, m: Move)
    requires t < |s.threads|
    ensures s.log <= Apply(s, t, m).log
    ensures var s', th := Apply(s, t, m), s.threads[t];
            m.effect.Announce? ==> |s'.log| == |s.log| + 1 && s'.log[|s.log|] == Post(th.cell, Text(th.call))
  {
    hide NewTags, NewCells, NewInsts, Hold, NewTagLock;
  }

  lemma IntactLonger(inst: Inst, log: seq<Post>, more: seq<Post>)
    requires Intact(inst, log) && log <= more
    ensures Intact(inst, more)
  {}

  // A write comes from a sender that has found the instance not ready, or empties it; only a posted
  // message makes it ready.
  lemma IntactKept(s: State, t: nat, c: Choice, m: Move, i: int)
    requires t < |s.threads| && Carries(s.threads[t], Look(s, s.threads[t]), m) && 0 <= i < |s.insts|
    requires Intact(s.insts[i], s.log)
    requires Minds(s.threads[t], DataOf(s, s.threads[t].inst), s.log) && Placed(s, s.threads[t])
    requires Alters(m.effect) ==> (m.effect.Announce? ==> s.threads[t].pc == Posting(SPost)) && s.threads[t].inst >= 0
    ensures Intact(Apply(s, t, m).insts[i], Apply(s, t, m).log)
  {
    DataKept(s, t, m, i);
    LogKept(s, t, m);
    hide Apply, Delivered, Checked, Copies, Remembers, Late;
  }

  // A sender holds the mutex and reads the instance; a resetter writes it; both are alone in that.
  lemma Hands(th: Thread)
    requires Shape(th)
    ensures th.pc.Posting? ==> th.held.mutex == th.inst >= 0 && th.held.rcu == th.inst
    ensures th.pc == Waiting(RCopy) ==> th.held.rcu == th.inst >= 0
    ensures th.pc == Finishing(RReset) || th.pc == Finishing(RResize) ==> th.held.rcuW == th.inst >= 0
  {}

  lemma AloneOnInst(s: State, t: nat, u: nat)
    requires Base(s) && t < |s.threads| && u < |s.threads| && u != t && s.threads[u].inst == s.threads[t].inst
    ensures s.threads[t].pc.Posting? ==> !s.threads[u].pc.Posting?
    ensures s.threads[t].pc == Finishing(RReset) || s.threads[t].pc == Finishing(RResize) ==>
              !s.threads[u].pc.Posting? && s.threads[u].pc != Waiting(RCopy)
  {
    var a, b, i := s.threads[t], s.threads[u], s.threads[t].inst;
    assert Shape(a) && Shape(b) && Refers(s, a);
    Hands(a);
    Hands(b);
    hide Referring, Shape, Refers, Tallied, Guarded, Ranged;
    if 0 <= i < |s.insts| {
      var y := s.insts[i].sync;
      assert Synced(y, i, s.threads);
      hide Locked;
      if (a.pc == Finishing(RReset) || a.pc == Finishing(RResize)) && (b.pc.Posting? || b.pc == Waiting(RCopy)) {
        Alone(y.rcu, RcuLock(i), s.threads, t, u);
      }
    } else {
      assert Ranged(a.held, |s.tags|, |s.cells|, |s.insts|);
      hide Locked;
    }
  }

  lemma DeliveredLonger(th: Thread, log: seq<Post>, more: seq<Post>)
    requires Delivered(th, log) && log <= more
    ensures Delivered(th, more)
  {}

  lemma MindsLonger(th: Thread, d: Data, log: seq<Post>, more: seq<Post>)
    requires Minds(th, d, log) && log <= more
    ensures Minds(th, d, more)
  {
    hide Filling, Checked, Late, Delivered, Begins;
    if Delivered(th, log) { DeliveredLonger(th, log, more); }
  }

  lemma PlacedHere(s: State, u: nat)
    requires Base(s) && u < |s.threads|
    ensures Placed(s, s.threads[u]) && NONE <= s.threads[u].inst
  {
    hide Locked, Slotted, Topped, Levelled;
    assert Refers(s, s.threads[u]) && Shape(s.threads[u]);
  }

  // Whoever minds the contents of an instance keeps others from writing it.
  lemma MindsOther(s: State, t: nat, c: Choice, m: Move, u: nat)
    requires Base(s) && Told(s) && t < |s.threads| && u < |s.threads| && u != t
    requires Traceable(s, s.threads[t], c, m) && Carries(s.threads[t], Look(s, s.threads[t]), m)
    ensures Minds(s.threads[u], DataOf(Apply(s, t, m), s.threads[u].inst), Apply(s, t, m).log)
  {
    hide Base, Apply, Shape, Traces, Legal, Slotted, Topped, Delivered, Begins, Late, Copies, Remembers, Minds, Intact;
    var a, b, s' := s.threads[t], s.threads[u], Apply(s, t, m);
    assert Minds(a, DataOf(s, a.inst), s.log) && Minds(b, DataOf(s, b.inst), s.log);
    hide Told;
    PlacedHere(s, u);
    LogKept(s, t, m);
    if 0 <= b.inst < |s.insts| { DataKept(s, t, m, b.inst); }
    if b.inst == a.inst {
      AloneOnInst(s, t, u);
      AloneOnInst(s, u, t);
    }
    if b.inst == a.inst && Alters(m.effect) && 0 <= b.inst < |s.insts| {
      MindsAltered(a, b, DataOf(s, a.inst), m.effect, Look(s, a), c, m, s.log, s'.log);
    } else {
      MindsLonger(b, DataOf(s, b.inst), s.log, s'.log);
    }
  }

  lemma MindsAltered(a: Thread, b: Thread, d: Data, e: Effect, v: View, c: Choice, m: Move, log: seq<Post>,
          more: seq<Post>)
    requires Minds(a, d, log) && Minds(b, d, log) && log <= more && e == m.effect && Alters(e) && v.data == d
    requires Origin(a, v, c, m) && Contents(a, v, e)
    requires a.pc.Posting? ==> !b.pc.Posting?
    requires a.pc == Finishing(RReset) || a.pc == Finishing(RResize) ==> !b.pc.Posting? && b.pc != Waiting(RCopy)
    requires b.pc == Finishing(RResize) ==> !a.pc.Posting?
    ensures Minds(b, NewData(d, e, |log|), more)
  {
    hide Begins, Late, Delivered;
    if Delivered(b, log) { DeliveredLonger(b, log, more); }
  }

  // ----- the thread that moves -----

  lemma SeenHere(s: State, t: nat, c: Choice)
    requires Base(s) && Told(s) && Enabled(s, t, c)
    ensures Seen(s.threads[t], Look(s, s.threads[t]), c) && Look(s, s.threads[t]).data == DataOf(s, s.threads[t].inst)
  {
    var th := s.threads[t];
    assert Shape(th) && Minds(th, DataOf(s, th.inst), s.log);
    if 0 <= th.inst < |s.insts| { assert Intact(s.insts[th.inst], s.log); }
    hide Base, Told, Refers, Contended, Unblocked, Delivered, Checked, Begins;
  }

  // The copy of a beginning of the buffer is the beginning of the message in it.
  lemma Copied(th: Thread, v: View, n: Thread, inst: Inst, log: seq<Post>)
    requires Copies(th, v, n) && inst.data == v.data && v.data.ready && Intact(inst, log) && inst.cell == th.cell
    requires n.call == th.call && n.began == th.began <= v.data.post && ValidCall(th.call)
    ensures Delivered(n, log)
  {}

  lemma Overlaid(text: string, buffer: string)
    requires |text| <= |buffer|
    ensures Begins(Overlay(text, buffer), text) && |Overlay(text, buffer)| == |buffer|
  {}

  lemma OwnDelivered(s: State, t: nat, m: Move)
    requires Base(s) && Told(s) && t < |s.threads| && Carries(s.threads[t], Look(s, s.threads[t]), m)
    requires !s.threads[t].pc.Idle?
    requires m.thread.rc == 1 && m.thread.call.Receive? && m.thread.pc != Waiting(RCopy)
    ensures Delivered(m.thread, s.log)
  {
    hide Locked, Levelled, Slotted, Topped, Apart, Intact, Contents, Working, Leaving;
    var th, v := s.threads[t], Look(s, s.threads[t]);
    assert Minds(th, DataOf(s, th.inst), s.log) && Shape(th) && Refers(s, th);
    if Copies(th, v, m.thread) {
      Hands(th);
      assert Intact(s.insts[th.inst], s.log);
      hide Referring, Told;
      Copied(th, v, m.thread, s.insts[th.inst], s.log);
    }
  }

  lemma OwnData(s: State, t: nat, c: Choice, m: Move)
    requires t < |s.threads| && Traceable(s, s.threads[t], c, m) && Placed(s, s.threads[t]) && NONE <= s.threads[t].inst
    ensures var th, n, d' := s.threads[t], m.thread, DataOf(Apply(s, t, m), m.thread.inst);
            && (m.effect.Publish? ==> !d'.ready)
            && (n.inst == th.inst ==>
                d' == if Alters(m.effect) then NewData(DataOf(s, th.inst), m.effect, |s.log|) else DataOf(s, th.inst))
  {
    if 0 <= s.threads[t].inst < |s.insts| { DataKept(s, t, m, s.threads[t].inst); }
    Hands(s.threads[t]);
    hide Shape, Traces, Legal, NewTags, NewCells, NewInst, Hold;
  }

  // What the next line may rely on of its instance.
  lemma OwnMinds(th: Thread, v: View, c: Choice, m: Move, d': Data, log: seq<Post>, more: seq<Post>)
    requires Minds(th, v.data, log) && log <= more && Carries(th, v, m) && Origin(th, v, c, m)
    requires Follows(th.pc, m.thread.pc)
    requires ValidCall(th.call) && |v.data.buffer| == BUFFER_SIZE
    requires m.effect.Publish? ==> !d'.ready
    requires m.thread.inst == th.inst ==> d' == if Alters(m.effect) then NewData(v.data, m.effect, |log|) else v.data
    requires m.thread.rc == 1 && m.thread.call.Receive? && m.thread.pc != Waiting(RCopy) ==> Delivered(m.thread, more)
    ensures Minds(m.thread, d', more)
  {
    if |Text(th.call)| <= |v.data.buffer| { Overlaid(Text(th.call), v.data.buffer); }
    hide Begins, Delivered, Overlay, Copies, Remembers, Late;
  }

  // ----- every step keeps it -----

  lemma StartMinds(th: Thread, v: View, call: Call, d: Data, log: seq<Post>)
    requires v.posted == |log|
    ensures Minds(GoStart(th, v, call).thread, d, log)
  {}

  lemma MovedMinds(th: Thread, m: Move, d: Data, log: seq<Post>)
    requires Minds(m.thread, d, log)
    ensures Minds(Moved(th, m), d, log)
  {
    hide Hold;
  }

  lemma MindsSame(s: State, t: nat, c: Choice, i: int)
    requires Enabled(s, t, c) && s.threads[t].pc.Idle? && 0 <= i < |s.insts| && Intact(s.insts[i], s.log)
    ensures MoveOf(s, t, c).effect.Quiet?
    ensures Intact(Step(s, t, c).insts[i], Step(s, t, c).log)
  {
    DataKept(s, t, MoveOf(s, t, c), i);
    LogKept(s, t, MoveOf(s, t, c));
    hide Apply;
    IntactLonger(s.insts[i], s.log, Step(s, t, c).log);
  }

  lemma MindsStarter(s: State, t: nat, c: Choice)
    requires Enabled(s, t, c) && s.threads[t].pc.Idle?
    ensures var m, s' := MoveOf(s, t, c), Step(s, t, c); Minds(m.thread, DataOf(s', m.thread.inst), s'.log)
  {
    var th, v, m, s' := s.threads[t], Look(s, s.threads[t]), MoveOf(s, t, c), Step(s, t, c);
    StartMinds(th, v, c.call, DataOf(s', m.thread.inst), s'.log);
    hide Minds, GoStart;
    assert m == GoStart(th, v, c.call);
    StartQuiet(th, v, c.call);
    hide Go;
  }

  lemma StartQuiet(th: Thread, v: View, call: Call)
    ensures GoStart(th, v, call).effect.Quiet?
  {}

  lemma MindsWorker(s: State, t: nat, c: Choice)
    requires Base(s) && Told(s) && Enabled(s, t, c) && Traceable(s, s.threads[t], c, MoveOf(s, t, c))
    requires !s.threads[t].pc.Idle?
    ensures var m, s' := MoveOf(s, t, c), Step(s, t, c); Minds(m.thread, DataOf(s', m.thread.inst), s'.log)
  {
    hide Go, Shape, Traces, Legal, Delivered, Minds, Intact, Contents, Copies, Remembers;
    var th, v, m, s' := s.threads[t], Look(s, s.threads[t]), MoveOf(s, t, c), Step(s, t, c);
    SeenHere(s, t, c);
    LogKept(s, t, m);
    Carried(th, v, c);
    PlacedHere(s, t);
    OwnData(s, t, c, m);
    assert Shape(th) && Minds(th, v.data, s.log);
    if m.thread.rc == 1 && m.thread.call.Receive? && m.thread.pc != Waiting(RCopy) {
      OwnDelivered(s, t, m);
      DeliveredLonger(m.thread, s.log, s'.log);
    }
    hide Base, Told, Carries;
    WorkerMinds(s, t, c, s');
  }

  lemma WorkerMinds(s: State, t: nat, c: Choice, s': State)
    requires t < |s.threads| && Traceable(s, s.threads[t], c, MoveOf(s, t, c)) && !s.threads[t].pc.Idle?
    requires var th, v, m := s.threads[t], Look(s, s.threads[t]), MoveOf(s, t, c);
             && Minds(th, v.data, s.log) && s.log <= s'.log && Carries(th, v, m) && |v.data.buffer| == BUFFER_SIZE
             && (m.effect.Publish? ==> !DataOf(s', m.thread.inst).ready)
             && (m.thread.inst == th.inst ==>
                 DataOf(s', m.thread.inst) == if Alters(m.effect) then NewData(v.data, m.effect, |s.log|) else v.data)
             && (m.thread.rc == 1 && m.thread.call.Receive? && m.thread.pc != Waiting(RCopy) ==>
                 Delivered(m.thread, s'.log))
    ensures Minds(MoveOf(s, t, c).thread, DataOf(s', MoveOf(s, t, c).thread.inst), s'.log)
  {
    hide Go, Look, Minds, Carries, Origin, Legal, Delivered, Working, Leaving, Numbers, DataOf;
    OwnMinds(s.threads[t], Look(s, s.threads[t]), c, MoveOf(s, t, c), DataOf(s', MoveOf(s, t, c).thread.inst), s.log,
             s'.log);
  }

  lemma MindsMover(s: State, t: nat, c: Choice)
    requires Base(s) && Told(s) && Enabled(s, t, c) && Traceable(s, s.threads[t], c, MoveOf(s, t, c))
    ensures var m, s' := MoveOf(s, t, c), Step(s, t, c);
            Minds(Moved(s.threads[t], m), DataOf(s', m.thread.inst), s'.log)
  {
    hide Base, Told, Traceable, Minds, Go, Look, Apply, DataOf, Contended, Unblocked;
    if s.threads[t].pc.Idle? { MindsStarter(s, t, c); } else { MindsWorker(s, t, c); }
    MovedMinds(s.threads[t], MoveOf(s, t, c), DataOf(Step(s, t, c), MoveOf(s, t, c).thread.inst), Step(s, t, c).log);
  }

  lemma IntactNew(s: State, t: nat, m: Move)
    requires t < |s.threads| && |s.insts| < |Apply(s, t, m).insts|
    ensures Intact(Apply(s, t, m).insts[|s.insts|], Apply(s, t, m).log)
  {
    hide NewTags, NewCells, NewInst, Hold;
    assert Apply(s, t, m).insts[|s.insts|].data == Blank(0, 0).data;
  }

  lemma FromWhere(th: Thread, v: View, c: Choice, m: Move)
    requires Origin(th, v, c, m)
    ensures m.effect.Announce? ==> th.pc == Posting(SPost)
    ensures Alters(m.effect) ==> th.pc.Posting? || th.pc == Finishing(RReset) || th.pc == Finishing(RResize)
  {}

  lemma IntactStep(s: State, t: nat, c: Choice, i: int)
    requires Base(s) && Told(s) && Enabled(s, t, c) && Traceable(s, s.threads[t], c, MoveOf(s, t, c))
    requires 0 <= i < |Step(s, t, c).insts|
    ensures Intact(Step(s, t, c).insts[i], Step(s, t, c).log)
  {
    hide Go, Look, Shape, Traces, Origin, Legal, Carries, Minds, Intact, Seen;
    var th, m := s.threads[t], MoveOf(s, t, c);
    Memory(s, t, m);
    hide Apply;
    if i == |s.insts| {
      IntactNew(s, t, m);
    } else if th.pc.Idle? {
      MindsSame(s, t, c, i);
    } else {
      SeenHere(s, t, c);
      Carried(th, Look(s, th), c);
      PlacedHere(s, t);
      Hands(th);
      FromWhere(th, Look(s, th), c, m);
      IntactKept(s, t, c, m, i);
    }
  }

  lemma ToldKept(s: State, t: nat, c: Choice)
    requires Base(s) && Told(s) && Enabled(s, t, c)
    ensures Told(Step(s, t, c))
  {
    var m, s' := MoveOf(s, t, c), Step(s, t, c);
    Tracing(s, t, c);
    MindsMover(s, t, c);
    forall i | 0 <= i < |s'.insts| ensures Intact(s'.insts[i], s'.log) {
      IntactStep(s, t, c, i);
    }
    forall u | 0 <= u < |s.threads| && u != t ensures Minds(s'.threads[u], DataOf(s', s'.threads[u].inst), s'.log) {
      OtherStep(s, t, c, u);
    }
    hide Base, Traceable, Intact, Minds, Go, Look, Enabled, Hold, DataOf;
  }

  lemma OtherStep(s: State, t: nat, c: Choice, u: nat)
    requires Base(s) && Told(s) && Enabled(s, t, c) && Traceable(s, s.threads[t], c, MoveOf(s, t, c)) && u < |s.threads|
    requires u != t
    ensures Minds(s.threads[u], DataOf(Step(s, t, c), s.threads[u].inst), Step(s, t, c).log)
  {
    var m := MoveOf(s, t, c);
    if s.threads[t].pc.Idle? {
      IdleOther(s, t, c, u);
    } else {
      SeenHere(s, t, c);
      Carried(s.threads[t], Look(s, s.threads[t]), c);
      hide Base, Told, Traceable, Carries, Enabled, Go, Minds, Look, Apply;
      MindsOther(s, t, c, m, u);
    }
  }

  lemma IdleOther(s: State, t: nat, c: Choice, u: nat)
    requires Told(s) && Enabled(s, t, c) && s.threads[t].pc.Idle? && u < |s.threads|
    ensures Minds(s.threads[u], DataOf(Step(s, t, c), s.threads[u].inst), Step(s, t, c).log)
  {
    assert Minds(s.threads[u], DataOf(s, s.threads[u].inst), s.log);
    hide Told, Minds;
    var i := s.threads[u].inst;
    if 0 <= i < |s.insts| { DataKept(s, t, MoveOf(s, t, c), i); }
    LogKept(s, t, MoveOf(s, t, c));
  }

  lemma ToldCreated(s: State)
    requires Base(s) && Told(s)
    ensures Told(Create(s))
  {
    var s' := Create(s);
    forall i | 0 <= i < |s'.insts| ensures Intact(s'.insts[i], s'.log) {
      if i < |s.insts| {
        assert Intact(s.insts[i], s.log);
      } else {
        assert s'.insts[i] == Blank(|s.cells| + (i - |s.insts|), 0);
      }
    }
    forall u | 0 <= u < |s.threads| ensures Minds(s.threads[u], DataOf(s', s.threads[u].inst), s.log) {
      assert Minds(s.threads[u], DataOf(s, s.threads[u].inst), s.log);
      PlacedHere(s, u);
      hide Minds;
    }
  }

  lemma ToldInitial(s: State)
    requires Initial(s)
    ensures Told(s)
  {}
}
