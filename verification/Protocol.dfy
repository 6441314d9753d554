// The tag messaging protocol as a step system: one tag descriptor, any number of threads, each running
// one system call after another.
//
// A step of a thread is one line of its call that touches shared memory. It is split in two. `Go` is
// the program: from the thread's own variables and one look at shared memory it gives the thread's next
// variables and an effect. `Apply` is the memory: it carries the effect out on the locks, the tags, the
// level slots and the level instances. Memory is sequentially consistent. Tags and level instances are
// numbered in order of creation and the numbers are never reused, so a freed one stays recognisable.
//
// The line numbers above the parts of the program are those of tag-module/tag-syscall.c.

module Protocol {
  const LEVELS: nat := 32
  const BUFFER_SIZE: nat := 4096
  const NONE: int := -1

  const EPERM: int := -1
  const EINTR: int := -4
  const ENOMEM: int := -12
  const EFAULT: int := -14
  const EINVAL: int := -22
  const ENODATA: int := -61
  const EPROTO: int := -71

  // ----- shared memory -----

  datatype RW = RW(readers: set<int>, writer: int)

  // `waiters` is auxiliary: the threads counted by `waiting`. `queue` is the wait queue local_wq.
  datatype Sync = Sync(rcu: RW, mutex: int, waiters: set<int>, waiting: int, queue: set<int>)

  // `post` and `posts` are auxiliary: the last message posted here, and how many since the last reset.
  datatype Data = Data(ready: bool, size: nat, buffer: string, post: nat, posts: nat)

  // One epoch of one level of one tag.
  datatype Inst = Inst(cell: int, epoch: nat, sync: Sync, data: Data, freed: bool)

  // tag_level[level] and level_lock[level] of a tag.
  datatype Cell = Cell(ptr: int, lock: RW)

  // Auxiliary: `members` are the threads counted by `waiting`; `rouser` is the thread that set `ready`
  // last, NONE once a signal has broken its AWAKE_ALL off.
  datatype Tag = Tag(members: set<int>, waiting: int, ready: bool, freed: bool, rouser: int)

  // A message made ready, with the level it was posted on.
  datatype Post = Post(cell: int, text: string)

  // tags[d], tag_lock[d] and everything reachable. Level l of tag k is cell k * LEVELS + l.
  datatype State = State(slot: int, tagLock: RW, tags: seq<Tag>, cells: seq<Cell>, insts: seq<Inst>,
                         threads: seq<Thread>, log: seq<Post>)

  // ----- threads -----

  datatype Call =
    | Receive(wanted: int, size: int, buffered: bool)
    | Send(wanted: int, text: string, buffered: bool)
    | AwakeAll
    | Delete

  // What a thread holds, by number: NONE when not held.
  datatype Held = Held(tagR: bool, tagW: bool, levR: int, levW: int, rcu: int, rcuW: int,
                       counted: int, entered: int, mutex: int)

  // The line of its call a thread is about to run.
  datatype PC =
    | Idle
    | Arriving(arrive: Arrive)  // tag_receive, up to the level's current instance
    | Renewing(renew: Renew)    // tag_receive, moving on from an occupied instance
    | Waiting(wait: Wait)       // tag_receive, asleep and copying
    | Finishing(finish: Finish) // tag_receive, the last receiver of an instance
    | Sending(send: Sends)      // tag_send, up to the mutex
    | Posting(post: Posts)      // tag_send, under the mutex
    | Telling(tell: Tells)      // tag_send, with the message posted
    | Awaking(awake: Awake)     // tag_ctl, AWAKE_ALL, up to the levels
    | Rousing(rouse: Rouse)     // tag_ctl, AWAKE_ALL, one level after another
    | Deleting(delete: Deletes) // tag_ctl, DELETE, up to the release of the descriptor
    | Freeing(free: Frees)      // tag_ctl, DELETE, freeing the levels and the tag
    | Exiting(exit: Exit)       // the releases at the end of a call

  datatype Arrive = RTag | RLook | RLevel | RFetch | RCount | RRcu | RUnlevel
  datatype Renew = RCheck | RWrite | RRefetch | RRecheck | RCreate | RDrop | RJoin | RRestore | RUnwrite
  datatype Wait = REnter | RWait | RSleep | RAwake | RReady | RCopy | RLeave | RDec
  datatype Finish = RTry | RPeek | RCompare | RRelease | RFree | RReset | RResize | RUnlock
  datatype Sends = STag | SLook | SWaiters | SLevel | SFetch | SRcu | SUnlevel | SMutex
  datatype Posts = SReady | SWaiting | SCopy | SSize | SPost
  datatype Tells = SUnmutex | SWake
  datatype Awake = ATag | ALook | AReady | AWaiters | ASet
  datatype Rouse = ALevel | AFetch | ARcu | AWake | AUnrcu | AUnlevel
  datatype Deletes = DTry | DRead | DDetach | DUnlock | DPending | DPutBack | DClear | DRestore
  datatype Frees = DLevels | DTag
  datatype Exit = UnWrite | UnCount | UnClear | UnLevel | UnMutex | UnRcu | UnTag | UnLate

  // Auxiliary: `began` is the number of messages posted before the call started, `got` what a receive
  // copied out, `source` the message that was, or that a send posted, and `part` the message of which a
  // copy that faulted has left a beginning with the user.
  datatype Thread = Thread(pc: PC, held: Held, call: Call, level: int, tag: int, cell: int, inst: int,
                           temp: int, base: int, cur: int, rc: int, began: nat, got: string, source: int,
                           part: int, zero: bool, late: bool)

  const NOTHING: Held := Held(false, false, NONE, NONE, NONE, NONE, NONE, NONE, NONE)

  function Fresh(call: Call, began: nat): Thread {
    Thread(Idle, NOTHING, call, 0, NONE, NONE, NONE, NONE, NONE, NONE, 0, began, "", NONE, NONE, false, false)
  }

  // What the environment decides in a step: which call starts, whether a wait is broken by a signal,
  // the copy from the user faults (leaving anything in the level's buffer), the copy to the user faults
  // after some characters, an allocation or the permission fails.
  datatype Choice =
    | Plain
    | Start(call: Call)
    | Interrupt
    | Fault(junk: string)
    | CutOff(copied: nat)
    | NoMemory
    | Denied

  // ----- the program -----

  // What one step of a thread can see of shared memory.
  datatype View = View(slot: int, tagReady: bool, tagWaiting: int, ptr: int, data: Data, waiting: int,
                       epoch: nat, curEpoch: nat, tagFree: bool, rcuFree: bool, mutexFree: bool,
                       next: int, posted: nat)

  datatype Effect =
    | Quiet
    | LockTag(write: bool) | UnlockTag
    | LockLevel(write: bool) | UnlockLevel
    | LockRcu(write: bool) | UnlockRcu
    | TakeMutex | DropMutex
    | Count | Uncount | Enter | Leave
    | Sleep | Unqueue | WakeAll
    | Flag(on: bool) | Abandon
    | Write(data: Data)
    | Announce
    | Publish | Restore
    | FreeLevel(target: int) | FreeTag
    | SetSlot(value: int)

  datatype Move = Move(effect: Effect, thread: Thread)

  // The number of a level slot.
  function CellOf(tag: int, level: int): int { tag * LEVELS + level }

  // The thread turns to a level of a tag and has fetched nothing from it yet.
  function At(th: Thread, tag: int, level: int): Thread {
    th.(tag := tag, level := level, cell := CellOf(tag, level), inst := NONE, temp := NONE, base := NONE, cur := NONE)
  }

  function Min(a: int, b: int): int { if a < b then a else b }

  function Prefix(text: string, n: int): string { if 0 <= n <= |text| then text[..n] else text }

  // The buffer after the text has been copied over its beginning.
  function Overlay(text: string, buffer: string): string {
    if |text| <= |buffer| then text + buffer[|text|..] else text
  }

  function Size(call: Call): int { if call.Receive? && call.buffered then call.size else 0 }

  function Text(call: Call): string { if call.Send? && call.buffered then call.text else "" }

  function To(th: Thread, e: Effect, pc: PC): Move { Move(e, th.(pc := pc)) }

  // Every early return releases what is held, in the order the source does.
  function Quit(th: Thread, rc: int): Move { Move(Quiet, th.(rc := rc, pc := Exiting(UnWrite))) }

  predicate ValidCall(call: Call) {
    match call
    case Receive(level, size, _) => 0 <= level < LEVELS && 0 <= size <= BUFFER_SIZE
    case Send(level, text, _) => 0 <= level < LEVELS && |text| <= BUFFER_SIZE
    case _ => true
  }

  // 250-263, 409-423, 713-730, 820
  function GoStart(th: Thread, v: View, call: Call): Move {
    var th := Fresh(call, v.posted);
    if !ValidCall(call) then Move(Quiet, th.(rc := EINVAL)) else
    match call
    case Receive(level, _, _) => Move(Quiet, th.(level := level, pc := Arriving(RTag)))
    case Send(level, _, _) => Move(Quiet, th.(level := level, pc := Sending(STag)))
    case AwakeAll => Move(Quiet, th.(pc := Awaking(ATag)))
    case Delete => Move(Quiet, th.(pc := Deleting(DTry)))
  }

  // 273-289, 432-448, 739-755, 845-861
  function GoLook(th: Thread, v: View, c: Choice, next: PC): Move {
    if v.slot == NONE then Quit(th, ENODATA)
    else if c.Denied? then Quit(th, EPERM)
    else Move(Quiet, At(th, v.slot, th.level).(pc := next))
  }

  // A lock that a signal may break.
  function GoLock(th: Thread, c: Choice, e: Effect, next: PC): Move {
    if c.Interrupt? then Quit(th, EINTR) else To(th, e, next)
  }

  // 426-483
  function GoReceive(th: Thread, line: Arrive, v: View, c: Choice): Move {
    match line
    case RTag => GoLock(th, c, LockTag(false), Arriving(RLook))
    case RLook => GoLook(th, v, c, Arriving(RLevel))
    case RLevel => GoLock(th, c, LockLevel(false), Arriving(RFetch))
    case RFetch => if v.ptr == NONE then Quit(th, EINVAL) else Move(Quiet, th.(inst := v.ptr, pc := Arriving(RCount)))
    case RCount => To(th, Count, Arriving(RRcu))
    case RRcu => GoLock(th, c, LockRcu(false), Arriving(RUnlevel))
    case RUnlevel => To(th, UnlockLevel, Renewing(RCheck))
  }

  // 491-584
  function GoRenew(th: Thread, line: Renew, v: View, c: Choice): Move {
    match line
    case RCheck => To(th, Quiet, if v.data.ready then Renewing(RWrite) else Waiting(REnter))
    case RWrite =>
      if c.Interrupt? then Quit(th, EINTR) else Move(LockLevel(true), th.(temp := th.inst, pc := Renewing(RRefetch)))
    case RRefetch =>
      if v.ptr == NONE then Quit(th, EINVAL)
      else Move(Quiet, th.(inst := v.ptr, base := v.ptr, pc := Renewing(RRecheck)))
    case RRecheck => To(th, Quiet, if v.data.ready then Renewing(RCreate) else Renewing(RDrop))
    case RCreate => if c.NoMemory? then Quit(th, ENOMEM) else Move(Publish, th.(inst := v.next, pc := Renewing(RDrop)))
    case RDrop => To(th, UnlockRcu, Renewing(RJoin))
    case RJoin => if c.Interrupt? then To(th, Quiet, Renewing(RRestore)) else To(th, LockRcu(false), Renewing(RUnwrite))
    case RRestore => Move(Restore, th.(rc := EINTR, pc := Exiting(UnWrite)))
    case RUnwrite => To(th, UnlockLevel, Waiting(REnter))
  }

  // 597-630
  function GoWait(th: Thread, line: Wait, v: View, c: Choice): Move {
    match line
    case REnter => To(th, Enter, Waiting(RWait))
    case RWait => if v.tagReady || v.data.ready then To(th, Quiet, Waiting(RAwake)) else To(th, Sleep, Waiting(RSleep))
    case RSleep =>
      if !c.Interrupt? then To(th, Quiet, Waiting(RWait))
      else if v.tagReady || v.data.ready then To(th, Unqueue, Waiting(RAwake))
      else Move(Unqueue, th.(rc := 0, pc := Waiting(RLeave)))
    case RAwake =>
      if v.tagReady then Move(Quiet, th.(rc := 0, pc := Waiting(RLeave))) else To(th, Quiet, Waiting(RReady))
    case RReady =>
      if v.data.ready then Move(Quiet, th.(rc := 1, pc := Waiting(RCopy)))
      else Move(Quiet, th.(rc := 0, pc := Waiting(RLeave)))
    case RCopy =>
      if !v.data.ready then To(th, Quiet, Waiting(RLeave))
      else if c.CutOff?
      then Move(Quiet, th.(rc := EFAULT, got := Prefix(v.data.buffer, c.copied), part := v.data.post,
                           pc := Waiting(RLeave)))
      else Move(Quiet, th.(got := Prefix(v.data.buffer, Min(Size(th.call), v.data.size)), source := v.data.post,
                           pc := Waiting(RLeave)))
    case RLeave => To(th, UnlockRcu, Waiting(RDec))
    case RDec => To(th, Leave, if v.waiting == 1 then Finishing(RTry) else Exiting(UnWrite))
  }

  // 632-679
  function GoFinish(th: Thread, line: Finish, v: View): Move {
    match line
    case RTry => if v.rcuFree then To(th, LockRcu(true), Finishing(RPeek)) else To(th, Quiet, Finishing(RTry))
    case RPeek => if v.ptr == NONE then Quit(th, EPROTO) else Move(Quiet, th.(cur := v.ptr, pc := Finishing(RCompare)))
    case RCompare => To(th, Quiet, if v.curEpoch > v.epoch then Finishing(RRelease) else Finishing(RReset))
    case RRelease => To(th, UnlockRcu, Finishing(RFree))
    case RFree => To(th, FreeLevel(th.inst), Exiting(UnWrite))
    case RReset => To(th, Write(v.data.(ready := false, posts := 0)), Finishing(RResize))
    case RResize => To(th, Write(v.data.(size := 0)), Finishing(RUnlock))  // the memset that follows clears 0 bytes
    case RUnlock => To(th, UnlockRcu, Exiting(UnWrite))
  }

  // 267-327
  function GoSend(th: Thread, line: Sends, v: View, c: Choice): Move {
    match line
    case STag => GoLock(th, c, LockTag(false), Sending(SLook))
    case SLook => GoLook(th, v, c, Sending(SWaiters))
    case SWaiters => if v.tagWaiting == 0 then Quit(th, 0) else To(th, Quiet, Sending(SLevel))
    case SLevel => GoLock(th, c, LockLevel(false), Sending(SFetch))
    case SFetch => if v.ptr == NONE then Quit(th, EINTR) else Move(Quiet, th.(inst := v.ptr, pc := Sending(SRcu)))
    case SRcu => GoLock(th, c, LockRcu(false), Sending(SUnlevel))
    case SUnlevel => To(th, UnlockLevel, Sending(SMutex))
    case SMutex => if v.mutexFree then To(th, TakeMutex, Posting(SReady)) else Quit(th, 0)
  }

  // 337-369
  function GoPost(th: Thread, line: Posts, v: View, c: Choice): Move {
    match line
    case SReady => if v.data.ready then Quit(th, 0) else To(th, Quiet, Posting(SWaiting))
    case SWaiting => if v.waiting == 0 then Quit(th, 0) else To(th, Quiet, Posting(SCopy))
    case SCopy =>
      if c.Fault? then Move(Write(v.data.(buffer := c.junk)), th.(rc := EFAULT, late := true, pc := Exiting(UnWrite)))
      else To(th, Write(v.data.(buffer := Overlay(Text(th.call), v.data.buffer))), Posting(SSize))
    case SSize => To(th, Write(v.data.(size := |Text(th.call)|)), Posting(SPost))
    case SPost => Move(Announce, th.(rc := 1, source := v.posted, pc := Telling(SUnmutex)))
  }

  // 378-388
  function GoTell(th: Thread, line: Tells): Move {
    match line
    case SUnmutex => To(th, DropMutex, Telling(SWake))
    case SWake => To(th, WakeAll, Exiting(UnWrite))
  }

  // 733-773
  function GoAwake(th: Thread, line: Awake, v: View, c: Choice): Move {
    match line
    case ATag => GoLock(th, c, LockTag(false), Awaking(ALook))
    case ALook => GoLook(th, v, c, Awaking(AReady))
    case AReady => if v.tagReady then Quit(th, 0) else To(th, Quiet, Awaking(AWaiters))
    case AWaiters => if v.tagWaiting == 0 then Quit(th, 0) else To(th, Quiet, Awaking(ASet))
    case ASet => To(th, Flag(true), Rousing(ALevel))
  }

  // A lock of AWAKE_ALL after it has set the flag; a signal leaves the flag set and the rest unroused.
  function GoBreak(th: Thread, c: Choice, e: Effect, next: PC): Move {
    if c.Interrupt? then Move(Abandon, th.(rc := EINTR, pc := Exiting(UnWrite))) else To(th, e, next)
  }

  // 780-817
  function GoRouse(th: Thread, line: Rouse, v: View, c: Choice): Move {
    match line
    case ALevel => GoBreak(th, c, LockLevel(false), Rousing(AFetch))
    case AFetch =>
      if v.ptr == NONE then To(th, Quiet, Rousing(AUnlevel)) else Move(Quiet, th.(inst := v.ptr, pc := Rousing(ARcu)))
    case ARcu => GoBreak(th, c, LockRcu(false), Rousing(AWake))
    case AWake => To(th, if v.waiting > 0 then WakeAll else Quiet, Rousing(AUnrcu))
    case AUnrcu => To(th, UnlockRcu, Rousing(AUnlevel))
    case AUnlevel =>
      if th.level + 1 < LEVELS
      then Move(UnlockLevel, At(th, th.tag, th.level + 1).(pc := Rousing(ALevel)))
      else Move(UnlockLevel, th.(rc := 1, pc := Exiting(UnWrite)))
  }

  // 837-891
  function GoDelete(th: Thread, line: Deletes, v: View, c: Choice): Move {
    match line
    case DTry => if v.tagFree then To(th, LockTag(true), Deleting(DRead)) else Quit(th, 0)
    case DRead => GoLook(th, v, c, Deleting(DDetach))
    case DDetach => To(th, SetSlot(NONE), Deleting(DUnlock))
    case DUnlock => To(th, UnlockTag, Deleting(DPending))
    case DPending => To(th, Quiet, if v.tagWaiting != 0 then Deleting(DPutBack) else Deleting(DClear))
    case DPutBack => Move(SetSlot(th.tag), th.(rc := EPROTO, tag := NONE, pc := Idle))
    case DClear => To(th, Quiet, if c.Interrupt? then Deleting(DRestore) else Freeing(DLevels))
    case DRestore => Move(SetSlot(th.tag), th.(rc := EINTR, tag := NONE, pc := Idle))
  }

  // 893-907, 1039-1046
  function GoFree(th: Thread, line: Frees, v: View): Move {
    match line
    case DLevels =>
      Move(FreeLevel(v.ptr), if th.level + 1 < LEVELS then At(th, th.tag, th.level + 1) else th.(pc := Freeing(DTag)))
    case DTag => Move(FreeTag, th.(rc := 1, tag := NONE, pc := Idle))
  }

  // The releases at the end of a call, in the order of every exit path:
  // 311-319, 330-342, 349-351, 362-364, 378-383, 476-480, 504-507, 532-536, 551-555, 576-579, 644-647, 686-689
  function GoExit(th: Thread, line: Exit, v: View): Move {
    match line
    case UnWrite => To(th, if th.held.levW != NONE then UnlockLevel else Quiet, Exiting(UnCount))
    case UnCount =>
      if th.held.counted == NONE then To(th, Quiet, Exiting(UnLevel))
      else Move(Uncount, th.(zero := v.tagWaiting == 1, pc := Exiting(UnClear)))
    case UnClear => To(th, if th.zero then Flag(false) else Quiet, Exiting(UnLevel))
    case UnLevel => To(th, if th.held.levR != NONE then UnlockLevel else Quiet, Exiting(UnMutex))
    case UnMutex => To(th, if th.held.mutex != NONE && !th.late then DropMutex else Quiet, Exiting(UnRcu))
    case UnRcu => To(th, if th.held.rcu != NONE || th.held.rcuW != NONE then UnlockRcu else Quiet, Exiting(UnTag))
    case UnTag =>
      Move(if th.held.tagR || th.held.tagW then UnlockTag else Quiet, th.(tag := NONE, pc := Exiting(UnLate)))
    case UnLate => Move(if th.held.mutex != NONE then DropMutex else Quiet, th.(late := false, pc := Idle))
  }

  function Go(th: Thread, v: View, c: Choice): Move {
    match th.pc
    case Idle => if c.Start? then GoStart(th, v, c.call) else To(th, Quiet, Idle)
    case Arriving(line) => GoReceive(th, line, v, c)
    case Renewing(line) => GoRenew(th, line, v, c)
    case Waiting(line) => GoWait(th, line, v, c)
    case Finishing(line) => GoFinish(th, line, v)
    case Sending(line) => GoSend(th, line, v, c)
    case Posting(line) => GoPost(th, line, v, c)
    case Telling(line) => GoTell(th, line)
    case Awaking(line) => GoAwake(th, line, v, c)
    case Rousing(line) => GoRouse(th, line, v, c)
    case Deleting(line) => GoDelete(th, line, v, c)
    case Freeing(line) => GoFree(th, line, v)
    case Exiting(line) => GoExit(th, line, v)
  }

  // ----- the memory -----

  const FREE: RW := RW({}, NONE)

  function Blank(cell: int, epoch: nat): Inst {
    Inst(cell, epoch, Sync(FREE, NONE, {}, 0, {}), Data(false, 0, seq(BUFFER_SIZE, _ => '\0'), 0, 0), false)
  }

  function Acquired(lock: RW, t: int, write: bool): RW {
    if write then lock.(writer := t) else lock.(readers := lock.readers + {t})
  }

  function Released(lock: RW, t: int): RW {
    RW(lock.readers - {t}, if lock.writer == t then NONE else lock.writer)
  }

  // What the thread holds after the effect.
  function Hold(th: Thread, e: Effect): Held {
    match e
    case LockTag(write) => if write then th.held.(tagW := true) else th.held.(tagR := true)
    case UnlockTag => th.held.(tagR := false, tagW := false)
    case LockLevel(write) => if write then th.held.(levW := th.cell) else th.held.(levR := th.cell)
    case UnlockLevel => th.held.(levR := NONE, levW := NONE)
    case LockRcu(write) => if write then th.held.(rcuW := th.inst) else th.held.(rcu := th.inst)
    case UnlockRcu => th.held.(rcu := NONE, rcuW := NONE)
    case TakeMutex => th.held.(mutex := th.inst)
    case DropMutex => th.held.(mutex := NONE)
    case Count => th.held.(counted := th.tag)
    case Uncount => th.held.(counted := NONE)
    case Enter => th.held.(entered := th.inst)
    case Leave => th.held.(entered := NONE)
    case _ => th.held
  }

  function NewTagLock(lock: RW, t: int, e: Effect): RW {
    match e
    case LockTag(write) => Acquired(lock, t, write)
    case UnlockTag => Released(lock, t)
    case _ => lock
  }

  function NewTag(tag: Tag, t: int, e: Effect): Tag {
    match e
    case Count => tag.(members := tag.members + {t}, waiting := tag.waiting + 1)
    case Uncount => tag.(members := tag.members - {t}, waiting := tag.waiting - 1)
    case Flag(on) => tag.(ready := on, rouser := if on then t else tag.rouser)
    case Abandon => tag.(rouser := if tag.rouser == t then NONE else tag.rouser)
    case FreeTag => tag.(freed := true)
    case _ => tag
  }

  function NewCell(cell: Cell, th: Thread, t: int, e: Effect, next: int): Cell {
    match e
    case LockLevel(write) => cell.(lock := Acquired(cell.lock, t, write))
    case UnlockLevel => cell.(lock := Released(cell.lock, t))
    case Publish => cell.(ptr := next)
    case Restore => cell.(ptr := th.base)
    case _ => cell
  }

  // The instance an effect of this thread works on.
  function Target(th: Thread, e: Effect): int {
    match e
    case UnlockRcu => if th.held.rcu != NONE then th.held.rcu else th.held.rcuW
    case Leave => th.held.entered
    case DropMutex => th.held.mutex
    case FreeLevel(target) => target
    case _ => th.inst
  }

  function NewSync(sync: Sync, t: int, e: Effect): Sync {
    match e
    case LockRcu(write) => sync.(rcu := Acquired(sync.rcu, t, write))
    case UnlockRcu => sync.(rcu := Released(sync.rcu, t))
    case TakeMutex => sync.(mutex := t)
    case DropMutex => sync.(mutex := NONE)
    case Enter => sync.(waiters := sync.waiters + {t}, waiting := sync.waiting + 1)
    case Leave => sync.(waiters := sync.waiters - {t}, waiting := sync.waiting - 1)
    case Sleep => sync.(queue := sync.queue + {t})
    case Unqueue => sync.(queue := sync.queue - {t})
    case WakeAll => sync.(queue := {})
    case _ => sync
  }

  function NewData(data: Data, e: Effect, posted: nat): Data {
    match e
    case Write(data') => data'
    case Announce => data.(ready := true, post := posted, posts := data.posts + 1)
    case _ => data
  }

  function NewInst(inst: Inst, t: int, e: Effect, posted: nat): Inst {
    inst.(sync := NewSync(inst.sync, t, e), data := NewData(inst.data, e, posted), freed := inst.freed || e.FreeLevel?)
  }

  function NewTags(tags: seq<Tag>, k: int, t: int, e: Effect): seq<Tag> {
    if 0 <= k < |tags| then tags[k := NewTag(tags[k], t, e)] else tags
  }

  function NewCells(cells: seq<Cell>, th: Thread, t: int, e: Effect, next: int): seq<Cell> {
    if 0 <= th.cell < |cells| then cells[th.cell := NewCell(cells[th.cell], th, t, e, next)] else cells
  }

  function NewInsts(s: State, th: Thread, t: int, e: Effect): seq<Inst> {
    var i := Target(th, e);
    if e.Publish? then s.insts + [Blank(th.cell, EpochAt(s, i) + 1)]
    else if 0 <= i < |s.insts| then s.insts[i := NewInst(s.insts[i], t, e, |s.log|)]
    else s.insts
  }

  function EpochAt(s: State, i: int): nat { if 0 <= i < |s.insts| then s.insts[i].epoch else 0 }

  function Apply(s: State, t: nat, m: Move): State
    requires t < |s.threads|
  {
    var th := s.threads[t];
    State(if m.effect.SetSlot? then m.effect.value else s.slot,
          NewTagLock(s.tagLock, t, m.effect),
          NewTags(s.tags, th.tag, t, m.effect),
          NewCells(s.cells, th, t, m.effect, |s.insts|),
          NewInsts(s, th, t, m.effect),
          s.threads[t := m.thread.(held := Hold(th, m.effect))],
          if m.effect.Announce? then s.log + [Post(th.cell, Text(th.call))] else s.log)
  }

  // ----- steps -----

  function Lock(s: State, th: Thread): RW {
    match Wants(th)
    case TagLock => s.tagLock
    case LevelLock(c) => if 0 <= c < |s.cells| then s.cells[c].lock else FREE
    case RcuLock(i) => if 0 <= i < |s.insts| then s.insts[i].sync.rcu else FREE
    case NoLock => FREE
  }

  function Look(s: State, th: Thread): View {
    var tag := if 0 <= th.tag < |s.tags| then s.tags[th.tag] else Tag({}, 0, false, true, NONE);
    var inst := if 0 <= th.inst < |s.insts| then s.insts[th.inst] else Blank(NONE, 0);
    View(s.slot, tag.ready, tag.waiting,
         if 0 <= th.cell < |s.cells| then s.cells[th.cell].ptr else NONE,
         inst.data, inst.sync.waiting, inst.epoch, EpochAt(s, th.cur),
         s.tagLock == FREE, inst.sync.rcu == FREE, inst.sync.mutex == NONE, |s.insts|, |s.log|)
  }

  // The lock a thread waits for.
  datatype Awaited = NoLock | TagLock | LevelLock(cell: int) | RcuLock(inst: int)

  function Wants(th: Thread): Awaited {
    match th.pc
    case Arriving(RTag) => TagLock
    case Sending(STag) => TagLock
    case Awaking(ATag) => TagLock
    case Arriving(RLevel) => LevelLock(th.cell)
    case Renewing(RWrite) => LevelLock(th.cell)
    case Sending(SLevel) => LevelLock(th.cell)
    case Rousing(ALevel) => LevelLock(th.cell)
    case Arriving(RRcu) => RcuLock(th.inst)
    case Renewing(RJoin) => RcuLock(th.inst)
    case Sending(SRcu) => RcuLock(th.inst)
    case Rousing(ARcu) => RcuLock(th.inst)
    case _ => NoLock
  }

  // In the wait queue of its instance.
  predicate InQueue(s: State, t: nat)
    requires t < |s.threads|
  {
    var i := s.threads[t].inst; 0 <= i < |s.insts| && t in s.insts[i].sync.queue
  }

  // Not blocked: the lock can be taken, or somebody has woken the sleeper.
  predicate Unblocked(s: State, t: nat)
    requires t < |s.threads|
  {
    var th := s.threads[t];
    && (th.pc == Waiting(RSleep) ==> !InQueue(s, t))
    && (th.pc == Renewing(RWrite) ==> Lock(s, th) == FREE)
    && (Wants(th) != NoLock ==> Lock(s, th).writer == NONE)
  }

  // A wait can be broken by a signal only if it is a wait: the sleeper has not been woken, the lock
  // cannot be taken at once, or others wait for it already.
  predicate Contended(s: State, t: nat)
    requires t < |s.threads|
  {
    var th := s.threads[t];
    || !Unblocked(s, t)
    || (Wants(th) != NoLock &&
        exists u :: 0 <= u < |s.threads| && u != t && Wants(s.threads[u]) == Wants(th) && !Unblocked(s, u))
  }

  predicate Enabled(s: State, t: nat, c: Choice) {
    t < |s.threads| &&
    var th := s.threads[t];
    match c
    case Start(_) => th.pc.Idle?
    case Plain => !th.pc.Idle? && Unblocked(s, t)
    case Interrupt => th.pc == Deleting(DClear)
        || ((Wants(th) != NoLock || th.pc == Waiting(RSleep)) && Contended(s, t))
    case Fault(junk) => th.pc == Posting(SCopy) && |Text(th.call)| > 0 && |junk| == BUFFER_SIZE
    case CutOff(copied) => th.pc == Waiting(RCopy) && copied < Min(Size(th.call), Look(s, th).data.size)
    case NoMemory => th.pc == Renewing(RCreate)
    case Denied =>
      th.pc == Arriving(RLook) || th.pc == Sending(SLook) || th.pc == Awaking(ALook) || th.pc == Deleting(DRead)
  }

  function Step(s: State, t: nat, c: Choice): State
    requires t < |s.threads|
  {
    Apply(s, t, Go(s.threads[t], Look(s, s.threads[t]), c))
  }

  // A deleter that has taken the tag out of tags[] and still owns the descriptor.
  predicate Detached(pc: PC) {
    pc.Deleting? && match pc.delete case DUnlock | DPending | DPutBack | DClear | DRestore => true case _ => false
  }

  // tag_get stores a tag with LEVELS new levels in tags[d]; it owns the descriptor, so the slot is
  // empty and no deleter still holds the descriptor.
  predicate MayCreate(s: State) {
    s.slot == NONE && forall u :: 0 <= u < |s.threads| ==> !Detached(s.threads[u].pc)
  }

  function Create(s: State): State {
    s.(slot := |s.tags|, tags := s.tags + [Tag({}, 0, false, false, NONE)],
       cells := s.cells + seq(LEVELS, l => Cell(|s.insts| + l, FREE)),
       insts := s.insts + seq(LEVELS, l => Blank(|s.cells| + l, 0)))
  }

  datatype Event = Steps(thread: nat, choice: Choice) | Creates

  predicate Happens(s: State, e: Event) {
    match e
    case Steps(t, c) => Enabled(s, t, c)
    case Creates => MayCreate(s)
  }

  function After(s: State, e: Event): State
    requires Happens(s, e)
  {
    match e
    case Steps(t, c) => Step(s, t, c)
    case Creates => Create(s)
  }

  // The module just loaded: no tag, and all threads outside the module.
  predicate Initial(s: State) {
    && s.slot == NONE && s.tagLock == FREE && s.tags == [] && s.cells == [] && s.insts == [] && s.log == []
    && forall u :: 0 <= u < |s.threads| ==> s.threads[u] == Fresh(Delete, 0)
  }
}
