// An AWAKE_ALL broken off by a signal can leave a receiver asleep with the tag's flag set and no
// AWAKE_ALL under way. The run that gets there: a receiver sleeps on level 1; another, on level 0, is
// broken off by a signal and, as the last to leave, takes its instance for writing; AWAKE_ALL sets the
// flag, waits for that instance on its way to level 1, and a signal breaks this wait.

module Stranded {
  import opened Protocol
  import opened Shapes
  import opened Locks
  import opened Refs
  import opened Runs
  import opened Waking

  // One tag; of its levels only 0 and 1 are used, in their first epochs.
  datatype Side = Side(cell: Cell, inst: Inst)
  datatype Parts = Parts(lock: RW, tag: Tag, zero: Side, one: Side, threads: seq<Thread>)

  function Scene(p: Parts): State {
    State(0, p.lock, [p.tag], seq(LEVELS, l => Cell(l, FREE))[0 := p.zero.cell][1 := p.one.cell],
          seq(LEVELS, l => Blank(l, 0))[0 := p.zero.inst][1 := p.one.inst], p.threads, [])
  }

  function SideOf(p: Parts, l: int): Side { if l == 0 then p.zero else p.one }

  function WithSide(p: Parts, l: int, side: Side): Parts { if l == 0 then p.(zero := side) else p.(one := side) }

  function WithThread(p: Parts, t: nat, th: Thread): Parts
    requires t < |p.threads|
  {
    p.(threads := p.threads[t := th])
  }

  predicate Used(i: int) { i == 0 || i == 1 || i == NONE }

  // The thread works on level 0 or 1 of the tag, or has not got that far.
  predicate Local(th: Thread) {
    (th.tag == 0 || th.tag == NONE) && Used(th.cell) && Used(th.inst) && th.cur == NONE
  }

  function LookIn(p: Parts, th: Thread): View {
    var tag := if th.tag == 0 then p.tag else Tag({}, 0, false, true, NONE);
    var inst := if th.inst == NONE then Blank(NONE, 0) else SideOf(p, th.inst).inst;
    View(0, tag.ready, tag.waiting, if th.cell == NONE then NONE else SideOf(p, th.cell).cell.ptr, inst.data,
         inst.sync.waiting, inst.epoch, 0, p.lock == FREE, inst.sync.rcu == FREE, inst.sync.mutex == NONE, LEVELS, 0)
  }

  function NextSide(side: Side, l: int, th: Thread, t: nat, e: Effect): Side {
    Side(if th.cell == l then NewCell(side.cell, th, t, e, LEVELS) else side.cell,
         if Target(th, e) == l then NewInst(side.inst, t, e, 0) else side.inst)
  }

  function Next(p: Parts, t: nat, c: Choice): Parts
    requires t < |p.threads|
  {
    var th := p.threads[t];
    var m := Go(th, LookIn(p, th), c);
    Parts(NewTagLock(p.lock, t, m.effect), if th.tag == 0 then NewTag(p.tag, t, m.effect) else p.tag,
          NextSide(p.zero, 0, th, t, m.effect), NextSide(p.one, 1, th, t, m.effect),
          p.threads[t := m.thread.(held := Hold(th, m.effect))])
  }

  // The effect stays within these levels.
  predicate Near(th: Thread, e: Effect) { !e.Publish? && !e.SetSlot? && !e.Announce? && Used(Target(th, e)) }

  lemma SceneSteps(p: Parts, t: nat, c: Choice)
    requires t < |p.threads| && Local(p.threads[t])
    requires Near(p.threads[t], Go(p.threads[t], LookIn(p, p.threads[t]), c).effect)
    ensures Step(Scene(p), t, c) == Scene(Next(p, t, c))
  {
    var th, s := p.threads[t], Scene(p);
    assert Look(s, th) == LookIn(p, th);
    hide Go, Look, LookIn, NewTag, NewCell, NewInst, Hold;
    var m, q := Go(th, LookIn(p, th), c), Next(p, t, c);
    assert NewTags(s.tags, th.tag, t, m.effect) == Scene(q).tags;
    assert NewCells(s.cells, th, t, m.effect, LEVELS) == Scene(q).cells;
    assert NewInsts(s, th, t, m.effect) == Scene(q).insts;
  }

  // The lock the thread waits for is free for it.
  predicate FreeIn(p: Parts, th: Thread) {
    match Wants(th)
    case TagLock => p.lock.writer == NONE
    case LevelLock(c) => 0 <= c <= 1 && SideOf(p, c).cell.lock.writer == NONE && th.pc != Renewing(RWrite)
    case RcuLock(i) => 0 <= i <= 1 && SideOf(p, i).inst.sync.rcu.writer == NONE
    case NoLock => th.pc != Waiting(RSleep)
  }

  // One step of the run.
  lemma Goes(p: Parts, t: nat, q: Parts)
    requires Reachable(Scene(p)) && t < |p.threads| && Local(p.threads[t]) && !p.threads[t].pc.Idle?
    requires FreeIn(p, p.threads[t]) && q == Next(p, t, Plain)
    requires Near(p.threads[t], Go(p.threads[t], LookIn(p, p.threads[t]), Plain).effect)
    ensures Reachable(Scene(q))
  {
    hide Reachable, Go, LookIn, Next, Look, Near;
    SceneSteps(p, t, Plain);
    assert Enabled(Scene(p), t, Plain);
    hide Scene, Enabled;
    Reaches(Scene(p), Steps(t, Plain));
  }

  lemma Starts(p: Parts, t: nat, call: Call, q: Parts)
    requires Reachable(Scene(p)) && t < |p.threads| && Local(p.threads[t]) && p.threads[t].pc.Idle?
    requires q == Next(p, t, Start(call))
    requires Near(p.threads[t], GoStart(p.threads[t], LookIn(p, p.threads[t]), call).effect)
    ensures Reachable(Scene(q))
  {
    hide GoStart;
    SceneSteps(p, t, Start(call));
    hide Reachable, Scene, Next;
    Reaches(Scene(p), Steps(t, Start(call)));
  }

  // A signal breaks the wait of a thread.
  lemma Breaks(p: Parts, t: nat, q: Parts)
    requires Reachable(Scene(p)) && t < |p.threads| && Local(p.threads[t]) && q == Next(p, t, Interrupt)
    requires Enabled(Scene(p), t, Interrupt)
    requires Near(p.threads[t], Go(p.threads[t], LookIn(p, p.threads[t]), Interrupt).effect)
    ensures Reachable(Scene(q))
  {
    SceneSteps(p, t, Interrupt);
    hide Reachable, Scene, Next, Enabled, Near, Go;
    Reaches(Scene(p), Steps(t, Interrupt));
  }

  const QUIET: Thread := Fresh(Delete, 0)

  function Bare(l: int): Side { Side(Cell(l, FREE), Blank(l, 0)) }

  function Opening(): Parts { Parts(FREE, Tag({}, 0, false, false, NONE), Bare(0), Bare(1), [QUIET, QUIET, QUIET]) }

  lemma Opens()
    ensures Reachable(Scene(Opening()))
  {
    var s := State(NONE, FREE, [], [], [], [QUIET, QUIET, QUIET], []);
    InitialReachable(s);
    assert Create(s) == Scene(Opening()) by {
      assert Create(s).cells == Scene(Opening()).cells;
      assert Create(s).insts == Scene(Opening()).insts;
    }
    hide Reachable;
    Reaches(s, Creates);
  }

  // ----- a receiver goes to sleep on level l -----

  function RECEIVE(l: int): Call { Receive(l, 0, false) }

  function Receiver(l: int): Thread { Fresh(RECEIVE(l), 0).(level := l) }

  // Thread t has not begun, and nobody is on level l.
  predicate Open(p: Parts, t: nat, l: int) {
    && t < |p.threads| && p.threads[t] == QUIET && 0 <= l <= 1
    && p.lock.writer == NONE && t !in p.lock.readers && !p.tag.ready && SideOf(p, l) == Bare(l)
  }

  function Arrived(p: Parts, t: nat, l: int): Parts
    requires t < |p.threads|
  {
    var a := Receiver(l).(tag := 0, cell := l, pc := Arriving(RFetch), held := NOTHING.(tagR := true, levR := l));
    WithSide(WithThread(p.(lock := RW(p.lock.readers + {t}, NONE)), t, a), l, Side(Cell(l, RW({t}, NONE)), Blank(l, 0)))
  }

  lemma Arrives(p: Parts, t: nat, l: int)
    requires Reachable(Scene(p)) && Open(p, t, l)
    ensures Reachable(Scene(Arrived(p, t, l)))
  {
    hide Reachable, Scene;
    var a := Receiver(l).(pc := Arriving(RTag));
    var p1 := WithThread(p, t, a);
    Starts(p, t, RECEIVE(l), p1);
    var a2 := a.(pc := Arriving(RLook), held := NOTHING.(tagR := true));
    var p2 := WithThread(p1.(lock := RW(p.lock.readers + {t}, NONE)), t, a2);
    Goes(p1, t, p2);
    var p3 := WithThread(p2, t, a2.(pc := Arriving(RLevel), tag := 0, cell := l));
    Goes(p2, t, p3);
    Goes(p3, t, Arrived(p, t, l));
  }

  // Counted in the tag, about to read the instance.
  function Counted(p: Parts, t: nat, l: int): Parts
    requires t < |p.threads|
  {
    var a := Receiver(l).(tag := 0, cell := l, inst := l, pc := Arriving(RRcu),
                          held := NOTHING.(tagR := true, levR := l, counted := 0));
    var q := Arrived(p, t, l);
    WithThread(q.(tag := q.tag.(members := q.tag.members + {t}, waiting := q.tag.waiting + 1)), t, a)
  }

  lemma Counts(p: Parts, t: nat, l: int)
    requires Reachable(Scene(p)) && Open(p, t, l)
    ensures Reachable(Scene(Counted(p, t, l)))
  {
    hide Reachable, Scene;
    Arrives(p, t, l);
    var q := Arrived(p, t, l);
    var q1 := WithThread(q, t, q.threads[t].(inst := l, pc := Arriving(RCount)));
    Goes(q, t, q1);
    Goes(q1, t, Counted(p, t, l));
  }

  // Reading the instance, with the level lock given back.
  function Joined(p: Parts, t: nat, l: int): Parts
    requires t < |p.threads|
  {
    var a := Receiver(l).(tag := 0, cell := l, inst := l, pc := Renewing(RCheck),
                          held := NOTHING.(tagR := true, counted := 0, rcu := l));
    var side := Side(Cell(l, FREE), Blank(l, 0).(sync := Sync(RW({t}, NONE), NONE, {}, 0, {})));
    WithSide(WithThread(Counted(p, t, l), t, a), l, side)
  }

  lemma Joins(p: Parts, t: nat, l: int)
    requires Reachable(Scene(p)) && Open(p, t, l)
    ensures Reachable(Scene(Joined(p, t, l)))
  {
    hide Reachable, Scene;
    Counts(p, t, l);
    var q := Counted(p, t, l);
    var a := q.threads[t];
    var q1 := WithSide(WithThread(q, t, a.(pc := Arriving(RUnlevel), held := a.held.(rcu := l))), l,
                       Side(Cell(l, RW({t}, NONE)), SideOf(Joined(p, t, l), l).inst));
    Goes(q, t, q1);
    Goes(q1, t, Joined(p, t, l));
  }

  // Counted on the instance, about to look at the flags.
  function Entered(p: Parts, t: nat, l: int): Parts
    requires t < |p.threads|
  {
    var a := Receiver(l).(tag := 0, cell := l, inst := l, pc := Waiting(RWait),
                          held := NOTHING.(tagR := true, counted := 0, rcu := l, entered := l));
    var side := Side(Cell(l, FREE), Blank(l, 0).(sync := Sync(RW({t}, NONE), NONE, {t}, 1, {})));
    WithSide(WithThread(Joined(p, t, l), t, a), l, side)
  }

  lemma Enters(p: Parts, t: nat, l: int)
    requires Reachable(Scene(p)) && Open(p, t, l)
    ensures Reachable(Scene(Entered(p, t, l)))
  {
    hide Reachable, Scene;
    Joins(p, t, l);
    var q := Joined(p, t, l);
    var q1 := WithThread(q, t, q.threads[t].(pc := Waiting(REnter)));
    Goes(q, t, q1);
    Goes(q1, t, Entered(p, t, l));
  }

  function Asleep(p: Parts, t: nat, l: int): Parts
    requires t < |p.threads|
  {
    var q := Entered(p, t, l);
    var side := Side(Cell(l, FREE), Blank(l, 0).(sync := Sync(RW({t}, NONE), NONE, {t}, 1, {t})));
    WithSide(WithThread(q, t, q.threads[t].(pc := Waiting(RSleep))), l, side)
  }

  lemma FallsAsleep(p: Parts, t: nat, l: int)
    requires Reachable(Scene(p)) && Open(p, t, l)
    ensures Reachable(Scene(Asleep(p, t, l)))
  {
    hide Reachable, Scene;
    Enters(p, t, l);
    Goes(Entered(p, t, l), t, Asleep(p, t, l));
  }

  // ----- the one on level 0 leaves, the last to do so -----

  function Sleeper(l: int): Thread {
    Receiver(l).(tag := 0, cell := l, inst := l, pc := Waiting(RSleep),
                 held := NOTHING.(tagR := true, counted := 0, rcu := l, entered := l))
  }

  function SleptOn(t: int, l: int): Side {
    Side(Cell(l, FREE), Blank(l, 0).(sync := Sync(RW({t}, NONE), NONE, {t}, 1, {t})))
  }

  function Both(): Parts {
    Parts(RW({0, 1}, NONE), Tag({0, 1}, 2, false, false, NONE), SleptOn(1, 0), SleptOn(0, 1),
          [Sleeper(1), Sleeper(0), QUIET])
  }

  lemma BothSleep()
    ensures Reachable(Scene(Both()))
  {
    hide Reachable, Scene;
    Opens();
    FallsAsleep(Opening(), 0, 1);
    var p := Asleep(Opening(), 0, 1);
    FallsAsleep(p, 1, 0);
    assert Asleep(p, 1, 0) == Both();
  }

  function Closer(): Thread {
    Receiver(0).(tag := 0, cell := 0, inst := 0, pc := Finishing(RPeek),
                 held := NOTHING.(tagR := true, counted := 0, rcuW := 0))
  }

  function Closing(): Parts {
    Both().(zero := Side(Cell(0, FREE), Blank(0, 0).(sync := Sync(RW({}, 1), NONE, {}, 0, {}))),
            threads := [Sleeper(1), Closer(), QUIET])
  }

  function With(p: Parts, th: Thread, sync: Sync): Parts {
    p.(zero := Side(Cell(0, FREE), Blank(0, 0).(sync := sync)), threads := [Sleeper(1), th, QUIET])
  }

  function Left(): Parts {
    var b := Sleeper(0).(pc := Waiting(RDec), held := Sleeper(0).held.(rcu := NONE));
    With(Both(), b, Sync(FREE, NONE, {1}, 1, {}))
  }

  lemma Leaves()
    ensures Reachable(Scene(Left()))
  {
    hide Reachable;
    BothSleep();
    var p := Both();
    assert InQueue(Scene(p), 1);
    var p1 := With(p, Sleeper(0).(rc := 0, pc := Waiting(RLeave)), Sync(RW({1}, NONE), NONE, {1}, 1, {}));
    Breaks(p, 1, p1);
    hide Scene;
    Goes(p1, 1, Left());
  }

  lemma Closes()
    ensures Reachable(Scene(Closing()))
  {
    hide Reachable, Scene;
    Leaves();
    var b := Sleeper(0).(pc := Finishing(RTry), held := NOTHING.(tagR := true, counted := 0));
    var p1 := With(Both(), b, Sync(FREE, NONE, {}, 0, {}));
    Goes(Left(), 1, p1);
    Goes(p1, 1, Closing());
  }

  // ----- AWAKE_ALL sets the flag and waits for that instance -----

  function Rouser(): Thread {
    Fresh(AwakeAll, 0).(tag := 0, cell := 0, pc := Awaking(AReady), held := NOTHING.(tagR := true))
  }

  function Called(): Parts { Third(Closing().(lock := RW({0, 1, 2}, NONE)), Rouser()) }

  function Third(p: Parts, th: Thread): Parts { p.(threads := [Sleeper(1), Closer(), th]) }

  lemma Calls()
    ensures Reachable(Scene(Called()))
  {
    hide Reachable, Scene;
    Closes();
    var p := Closing();
    var c := Fresh(AwakeAll, 0).(pc := Awaking(ATag));
    Starts(p, 2, AwakeAll, Third(p, c));
    var q := Third(Called(), c.(pc := Awaking(ALook), held := NOTHING.(tagR := true)));
    Goes(Third(p, c), 2, q);
    Goes(q, 2, Called());
  }

  function Raised(): Parts {
    Third(Called(), Rouser().(pc := Rousing(ALevel))).(tag := Tag({0, 1}, 2, true, false, 2))
  }

  lemma Raises()
    ensures Reachable(Scene(Raised()))
  {
    hide Reachable, Scene;
    Calls();
    var p := Called();
    var p1 := Third(p, Rouser().(pc := Awaking(AWaiters)));
    Goes(p, 2, p1);
    var p2 := Third(p, Rouser().(pc := Awaking(ASet)));
    Goes(p1, 2, p2);
    Goes(p2, 2, Raised());
  }

  function AtInst(): Thread {
    Rouser().(inst := 0, pc := Rousing(ARcu), held := NOTHING.(tagR := true, levR := 0))
  }

  function Waits(): Parts { Third(Raised().(zero := Side(Cell(0, RW({2}, NONE)), Closing().zero.inst)), AtInst()) }

  lemma ComesToWait()
    ensures Reachable(Scene(Waits()))
  {
    hide Reachable, Scene;
    Raises();
    var p1 := Third(Waits(), AtInst().(inst := NONE, pc := Rousing(AFetch)));
    Goes(Raised(), 2, p1);
    Goes(p1, 2, Waits());
  }

  // ----- a signal breaks the wait -----

  function BrokenOff(): Parts {
    Third(Waits(), AtInst().(rc := EINTR, pc := Exiting(UnWrite))).(tag := Tag({0, 1}, 2, true, false, NONE))
  }

  lemma MayBreak()
    ensures Enabled(Scene(Waits()), 2, Interrupt)
  {
    var s := Scene(Waits());
    assert s.insts[0].sync.rcu.writer == 1;
    assert Wants(s.threads[2]) == RcuLock(0);
    hide Look;
  }

  lemma Signalled()
    ensures Reachable(Scene(BrokenOff()))
  {
    hide Reachable, Scene, Enabled;
    ComesToWait();
    MayBreak();
    Breaks(Waits(), 2, BrokenOff());
  }

  // A reachable state in which a receiver sleeps unwoken on an instance without a message, the flag of
  // its tag is set, and no AWAKE_ALL is under way: a signal broke off the one that had set the flag.
  lemma StrandedSleeper()
    ensures exists s: State ::
              && Reachable(s) && |s.threads| == 3
              && InQueue(s, 0) && !Look(s, s.threads[0]).data.ready && Look(s, s.threads[0]).tagReady
              && Broken(s, s.threads[0].tag) && s.threads[2].call.AwakeAll? && s.threads[2].rc == EINTR
              && forall w :: 0 <= w < |s.threads| ==> !s.threads[w].pc.Awaking? && !s.threads[w].pc.Rousing?
  {
    Signalled();
    var s := Scene(BrokenOff());
    hide Reachable;
    assert InQueue(s, 0) && Look(s, s.threads[0]).tagReady && Broken(s, s.threads[0].tag);
  }
}
