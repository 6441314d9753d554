// What a thread holds and knows at each line of its call: facts about one thread alone, kept by every
// move whatever the shared memory shows it.

module Shapes {
  import opened Protocol

  datatype Mode = No | Reading | Writing

  // The rcu_lock of the current instance, or still that of the one fetched first, or the write lock.
  datatype Hand = Empty | Own | Former | Sole

  // What a line of a call holds: the tag lock, a tag read from tags[], the level lock, an instance, its
  // rcu_lock, a place in the tag's count and in the instance's, the sender's mutex.
  datatype Kit = Kit(tag: Mode, knows: bool, level: Mode, inst: bool, rcu: Hand, counted: bool, entered: bool,
                     mutex: bool)

  const BARE: Kit := Kit(No, false, No, false, Empty, false, false, false)
  const LOOKING: Kit := Kit(Reading, false, No, false, Empty, false, false, false)
  const KNOWING: Kit := Kit(Reading, true, No, false, Empty, false, false, false)
  const FETCHING: Kit := Kit(Reading, true, Reading, false, Empty, false, false, false)
  const FETCHED: Kit := Kit(Reading, true, Reading, true, Empty, false, false, false)

  function KitOf(pc: PC): Kit {
    match pc
    case Idle => BARE
    case Exiting(_) => BARE
    case Arriving(line) => ArrivingKit(line)
    case Renewing(line) => RenewingKit(line)
    case Waiting(line) => WaitingKit(line)
    case Finishing(line) => FinishingKit(line)
    case Sending(line) => SendingKit(line)
    case Posting(_) => Kit(Reading, true, No, true, Own, false, false, true)
    case Telling(line) => Kit(Reading, true, No, true, Own, false, false, line.SUnmutex?)
    case Awaking(line) => AwakingKit(line)
    case Rousing(line) => RousingKit(line)
    case Deleting(line) => DeletingKit(line)
    case Freeing(_) => Kit(No, true, No, false, Empty, false, false, false)
  }

  function ArrivingKit(line: Arrive): Kit {
    match line
    case RTag => BARE
    case RLook => LOOKING
    case RLevel => KNOWING
    case RFetch => FETCHING
    case RCount => FETCHED
    case RRcu => Kit(Reading, true, Reading, true, Empty, true, false, false)
    case RUnlevel => Kit(Reading, true, Reading, true, Own, true, false, false)
  }

  function RenewingKit(line: Renew): Kit {
    match line
    case RCheck | RWrite => Kit(Reading, true, No, true, Own, true, false, false)
    case RRefetch | RRecheck | RCreate | RDrop => Kit(Reading, true, Writing, true, Former, true, false, false)
    case RJoin | RRestore => Kit(Reading, true, Writing, true, Empty, true, false, false)
    case RUnwrite => Kit(Reading, true, Writing, true, Own, true, false, false)
  }

  function WaitingKit(line: Wait): Kit {
    match line
    case REnter => Kit(Reading, true, No, true, Own, true, false, false)
    case RDec => Kit(Reading, true, No, true, Empty, true, true, false)
    case _ => Kit(Reading, true, No, true, Own, true, true, false)
  }

  function FinishingKit(line: Finish): Kit {
    match line
    case RTry | RFree => Kit(Reading, true, No, true, Empty, true, false, false)
    case _ => Kit(Reading, true, No, true, Sole, true, false, false)
  }

  function SendingKit(line: Sends): Kit {
    match line
    case STag => BARE
    case SLook => LOOKING
    case SWaiters | SLevel => KNOWING
    case SFetch => FETCHING
    case SRcu => FETCHED
    case SUnlevel => Kit(Reading, true, Reading, true, Own, false, false, false)
    case SMutex => Kit(Reading, true, No, true, Own, false, false, false)
  }

  function AwakingKit(line: Awake): Kit {
    match line
    case ATag => BARE
    case ALook => LOOKING
    case AReady | AWaiters | ASet => KNOWING
  }

  function RousingKit(line: Rouse): Kit {
    match line
    case ALevel => KNOWING
    case AFetch | AUnlevel => FETCHING
    case ARcu => FETCHED
    case AWake | AUnrcu => Kit(Reading, true, Reading, true, Own, false, false, false)
  }

  function DeletingKit(line: Deletes): Kit {
    match line
    case DTry => BARE
    case DRead => Kit(Writing, false, No, false, Empty, false, false, false)
    case DDetach | DUnlock => Kit(Writing, true, No, false, Empty, false, false, false)
    case _ => Kit(No, true, No, false, Empty, false, false, false)
  }

  // The kit after an effect.
  function Turn(k: Kit, e: Effect): Kit {
    match e
    case LockTag(write) => k.(tag := if write then Writing else Reading)
    case UnlockTag => k.(tag := No)
    case LockLevel(write) => k.(level := if write then Writing else Reading)
    case UnlockLevel => k.(level := No)
    case LockRcu(write) => k.(rcu := if write then Sole else Own)
    case UnlockRcu => k.(rcu := Empty)
    case TakeMutex => k.(mutex := true)
    case DropMutex => k.(mutex := false)
    case Count => k.(counted := true)
    case Uncount => k.(counted := false)
    case Enter => k.(entered := true)
    case Leave => k.(entered := false)
    case _ => k
  }

  function When(held: bool, x: int): int { if held then x else NONE }

  // The kit in the hands of a thread.
  function Outfit(k: Kit, th: Thread): Held {
    Held(k.tag.Reading?, k.tag.Writing?, When(k.level.Reading?, th.cell), When(k.level.Writing?, th.cell),
         if k.rcu.Former? then th.temp else When(k.rcu.Own?, th.inst), When(k.rcu.Sole?, th.inst),
         When(k.counted, th.tag), When(k.entered, th.inst), When(k.mutex, th.inst))
  }

  predicate InReceive(pc: PC) { pc.Arriving? || pc.Renewing? || pc.Waiting? || pc.Finishing? }

  predicate InSend(pc: PC) { pc.Sending? || pc.Posting? || pc.Telling? }

  predicate InAwake(pc: PC) { pc.Awaking? || pc.Rousing? }

  predicate InDelete(pc: PC) { pc.Deleting? || pc.Freeing? }

  // Within a call: everything held is exactly what its line calls for.
  predicate Working(th: Thread) {
    && th.held == Outfit(KitOf(th.pc), th) && !th.late
    && (if KitOf(th.pc).knows then th.tag >= 0 else th.tag == NONE)
    && (KitOf(th.pc).inst ==> th.inst >= 0)
    && (KitOf(th.pc).rcu.Former? ==> th.temp >= 0)
  }

  // On the way out: a part of what the call held, given back in order.
  predicate Leaving(th: Thread)
    requires th.pc.Exiting?
  {
    var h := th.held;
    && (h.levR == NONE || h.levR == th.cell) && (h.levW == NONE || h.levW == th.cell)
    && (h.rcu == NONE || h.rcu == th.inst || h.rcu == th.temp) && (h.rcuW == NONE || h.rcuW == th.inst)
    && (h.counted == NONE || h.counted == th.tag) && (h.mutex == NONE || h.mutex == th.inst) && h.entered == NONE
    && (h.rcu == NONE || h.rcuW == NONE) && (h.levR == NONE || h.levW == NONE) && !(h.tagR && h.tagW)
    && (th.tag != NONE ==> h.tagR)
    && (th.tag == NONE ==> h.levR == NONE && h.levW == NONE && h.rcu == NONE && h.rcuW == NONE && h.counted == NONE)
    && GivenBack(th, th.pc.exit)
  }

  predicate GivenBack(th: Thread, line: Exit) {
    var h := th.held;
    match line
    case UnWrite => true
    case UnCount => h.levW == NONE
    case UnClear => h.levW == NONE && h.counted == NONE && th.tag != NONE
    case UnLevel => h.levW == NONE && h.counted == NONE
    case UnMutex => h.levW == NONE && h.counted == NONE && h.levR == NONE
    case UnRcu => h.levW == NONE && h.counted == NONE && h.levR == NONE
    case UnTag => h.levW == NONE && h.counted == NONE && h.levR == NONE && h.rcu == NONE && h.rcuW == NONE
    case UnLate => !h.tagR && !h.tagW && th.tag == NONE
  }

  predicate Numbers(th: Thread) {
    && NONE <= th.tag && NONE <= th.inst && NONE <= th.temp && NONE <= th.base && NONE <= th.cur && NONE <= th.cell
    && 0 <= th.level < LEVELS && (th.tag >= 0 ==> th.cell == CellOf(th.tag, th.level))
  }

  predicate OwnCall(th: Thread) {
    && (!th.pc.Idle? ==> ValidCall(th.call))
    && (InReceive(th.pc) ==> th.call.Receive?)
    && (InSend(th.pc) ==> th.call.Send?)
    && (InAwake(th.pc) ==> th.call.AwakeAll?)
    && (InDelete(th.pc) ==> th.call.Delete?)
  }

  predicate Shape(th: Thread) {
    Numbers(th) && OwnCall(th) && if th.pc.Exiting? then Leaving(th) else Working(th)
  }

  predicate Sound(v: View) { NONE <= v.slot && NONE <= v.ptr && 0 <= v.next }

  // The thread as a move leaves it.
  function Moved(th: Thread, m: Move): Thread { m.thread.(held := Hold(th, m.effect)) }

  // What an effect demands of its thread: nothing is taken twice, and what is given back is held.
  predicate Legal(th: Thread, e: Effect) {
    var h := th.held;
    match e
    case LockTag(_) => !h.tagR && !h.tagW
    case UnlockTag => h.tagR != h.tagW
    case LockLevel(_) => h.levR == NONE && h.levW == NONE && th.tag >= 0 && h.tagR
    case UnlockLevel => (h.levR == NONE) != (h.levW == NONE)
    case LockRcu(_) => h.rcu == NONE && h.rcuW == NONE && th.inst >= 0
    case UnlockRcu => (h.rcu == NONE) != (h.rcuW == NONE)
    case TakeMutex => h.mutex == NONE && th.inst >= 0
    case DropMutex => h.mutex != NONE
    case Count => h.counted == NONE && th.tag >= 0
    case Uncount => h.counted != NONE && th.tag == h.counted
    case Enter => h.entered == NONE && th.inst >= 0
    case Leave => h.entered != NONE
    case _ => true
  }

  // ----- within a call -----

  // The move leads to a line whose kit is what the effect makes of this one's, and changes no variable
  // that names something held.
  predicate Keeps(th: Thread, m: Move) {
    var k, k', n := KitOf(th.pc), KitOf(m.thread.pc), m.thread;
    && !n.pc.Exiting? && n.held == th.held && !n.late && Turn(k, m.effect).(knows := k'.knows, inst := k'.inst) == k'
    && (if k'.knows then n.tag >= 0 else n.tag == NONE) && (k'.inst ==> n.inst >= 0)
    && (k'.level.No? || n.cell == th.cell) && (!k'.counted || n.tag == th.tag)
    && (n.inst == th.inst || (!k'.rcu.Own? && !k'.rcu.Sole? && !k'.entered && !k'.mutex))
    && (k'.rcu.Former? ==> n.temp == th.temp)
    && Grounds(k, m.effect) && Onward(th, n)
  }

  // The same call goes on, and the numbers stay numbers.
  predicate Onward(th: Thread, n: Thread) {
    && n.call == th.call && (InReceive(n.pc) ==> InReceive(th.pc)) && (InSend(n.pc) ==> InSend(th.pc))
    && (InAwake(n.pc) ==> InAwake(th.pc)) && (InDelete(n.pc) ==> InDelete(th.pc))
    && (n.pc.Idle? ==> th.pc.Deleting? || th.pc.Freeing? || th.pc.Exiting?)
    && NONE <= n.tag && NONE <= n.inst && NONE <= n.temp && NONE <= n.base && NONE <= n.cur
    && 0 <= n.level < LEVELS && n.cell == if n.tag >= 0 then CellOf(n.tag, n.level) else th.cell
  }

  // The effect suits the kit: it takes what is not held and gives back what is.
  predicate Grounds(k: Kit, e: Effect) {
    && NotTwice(k, e)
    && (e.UnlockTag? ==> !k.tag.No?)
    && (e.LockLevel? ==> k.knows && k.tag.Reading?)
    && (e.UnlockLevel? ==> !k.level.No? && k.knows)
    && (e.LockRcu? ==> k.inst)
    && (e.TakeMutex? ==> !k.mutex && k.inst)
    && (e.Enter? ==> !k.entered && k.inst)
    && (e.UnlockRcu? ==> !k.rcu.Empty? && k.inst)
    && (e.Count? ==> !k.counted && k.knows)
    && (e.Leave? ==> k.entered && k.inst)
    && (e.DropMutex? ==> k.mutex && k.inst)
    && !e.Uncount?
  }

  predicate NotTwice(k: Kit, e: Effect) {
    && (e.LockTag? ==> k.tag.No?)
    && (e.LockLevel? ==> k.level.No?)
    && (e.LockRcu? ==> k.rcu.Empty?)
  }

  lemma Turned(th: Thread, k: Kit, e: Effect)
    requires th.held == Outfit(k, th) && NotTwice(k, e)
    ensures Hold(th, e) == Outfit(Turn(k, e), th)
  {
    match e
    case LockTag(_) =>
    case UnlockTag =>
    case LockLevel(_) =>
    case UnlockLevel =>
    case LockRcu(_) =>
    case UnlockRcu =>
    case TakeMutex =>
    case DropMutex =>
    case Count =>
    case Uncount =>
    case Enter =>
    case Leave =>
    case _ =>
  }

  lemma Suited(th: Thread, e: Effect)
    requires Numbers(th) && Working(th) && Grounds(KitOf(th.pc), e)
    ensures Legal(th, e)
  {
    hide KitOf;
  }

  // Only what the kit calls for shows in the outfit.
  lemma SameOutfit(j: Kit, k: Kit, th: Thread, n: Thread)
    requires j.(knows := k.knows, inst := k.inst) == k
    requires (k.level.No? || n.cell == th.cell) && (!k.counted || n.tag == th.tag)
    requires (k.rcu.Former? ==> n.temp == th.temp)
    requires n.inst == th.inst || (!k.rcu.Own? && !k.rcu.Sole? && !k.entered && !k.mutex)
    ensures Outfit(j, th) == Outfit(k, n)
  {}

  lemma Kept(th: Thread, m: Move)
    requires Working(th) && Keeps(th, m)
    ensures Working(Moved(th, m))
  {
    hide KitOf, Hold, Onward, Outfit;
    var k, k', n := KitOf(th.pc), KitOf(m.thread.pc), m.thread;
    Turned(th, k, m.effect);
    SameOutfit(Turn(k, m.effect), k', th, n);
    OutfitOf(k', n, Hold(th, m.effect));
  }

  lemma OutfitOf(k: Kit, n: Thread, held: Held)
    ensures Outfit(k, n) == Outfit(k, n.(held := held))
  {}

  lemma FineReceive(th: Thread, line: Arrive, v: View, c: Choice)
    requires th.pc == Arriving(line) && (line.RTag? || line.RLook? || line.RLevel? || line.RFetch?) && Numbers(th)
    requires Working(th) && Sound(v) && !GoReceive(th, line, v, c).thread.pc.Exiting?
    ensures Keeps(th, GoReceive(th, line, v, c))
  {
    hide Outfit, When, CellOf, WaitingKit, FinishingKit, SendingKit, AwakingKit, RousingKit, DeletingKit;
  }

  lemma FineReceiveOn(th: Thread, line: Arrive, v: View, c: Choice)
    requires th.pc == Arriving(line) && (line.RCount? || line.RRcu? || line.RUnlevel?) && Numbers(th) && Working(th)
    requires Sound(v) && !GoReceive(th, line, v, c).thread.pc.Exiting?
    ensures Keeps(th, GoReceive(th, line, v, c))
  {
    hide Outfit, When, CellOf, WaitingKit, FinishingKit, SendingKit, AwakingKit, RousingKit, DeletingKit;
  }

  lemma FineRenew(th: Thread, line: Renew, v: View, c: Choice)
    requires th.pc == Renewing(line) && (line.RCheck? || line.RRefetch? || line.RRecheck? || line.RCreate?)
    requires Numbers(th) && Working(th) && Sound(v) && !GoRenew(th, line, v, c).thread.pc.Exiting?
    ensures Keeps(th, GoRenew(th, line, v, c))
  {
    hide Outfit, When, CellOf, ArrivingKit, FinishingKit, SendingKit, AwakingKit, RousingKit, DeletingKit;
  }

  lemma FineRenewOn(th: Thread, line: Renew, v: View, c: Choice)
    requires th.pc == Renewing(line) && (line.RDrop? || line.RJoin? || line.RRestore? || line.RUnwrite?)
    requires Numbers(th) && Working(th) && Sound(v) && !GoRenew(th, line, v, c).thread.pc.Exiting?
    ensures Keeps(th, GoRenew(th, line, v, c))
  {
    hide Outfit, When, CellOf, ArrivingKit, FinishingKit, SendingKit, AwakingKit, RousingKit, DeletingKit;
  }

  lemma FineWait(th: Thread, line: Wait, v: View, c: Choice)
    requires th.pc == Waiting(line) && (line.REnter? || line.RWait? || line.RSleep? || line.RAwake?) && Numbers(th)
    requires Working(th)
    requires Sound(v)
    requires !GoWait(th, line, v, c).thread.pc.Exiting?
    ensures Keeps(th, GoWait(th, line, v, c))
  {
    hide Outfit, When, CellOf, Prefix, Min, Size, ArrivingKit, RenewingKit, SendingKit, AwakingKit, RousingKit,
         DeletingKit;
  }

  lemma FineWaitOn(th: Thread, line: Wait, v: View, c: Choice)
    requires th.pc == Waiting(line) && (line.RReady? || line.RCopy? || line.RLeave? || line.RDec?) && Numbers(th)
    requires Working(th) && Sound(v)
    requires !GoWait(th, line, v, c).thread.pc.Exiting?
    ensures Keeps(th, GoWait(th, line, v, c))
  {
    hide Outfit, When, CellOf, Prefix, Min, Size, ArrivingKit, RenewingKit, SendingKit, AwakingKit, RousingKit,
         DeletingKit;
  }

  lemma FineFinish(th: Thread, line: Finish, v: View)
    requires th.pc == Finishing(line) && Numbers(th) && Working(th) && Sound(v)
    requires !GoFinish(th, line, v).thread.pc.Exiting?
    ensures Keeps(th, GoFinish(th, line, v))
  {
    hide Outfit, When, CellOf, ArrivingKit, RenewingKit, WaitingKit, SendingKit, AwakingKit, RousingKit, DeletingKit;
  }

  lemma FineSend(th: Thread, line: Sends, v: View, c: Choice)
    requires th.pc == Sending(line) && (line.STag? || line.SLook? || line.SWaiters? || line.SLevel?) && Numbers(th)
    requires Working(th) && Sound(v) && !GoSend(th, line, v, c).thread.pc.Exiting?
    ensures Keeps(th, GoSend(th, line, v, c))
  {
    hide Outfit, When, CellOf, RenewingKit, ArrivingKit, WaitingKit, FinishingKit, AwakingKit, RousingKit, DeletingKit;
  }

  lemma FineSendOn(th: Thread, line: Sends, v: View, c: Choice)
    requires th.pc == Sending(line) && (line.SFetch? || line.SRcu? || line.SUnlevel? || line.SMutex?) && Numbers(th)
    requires Working(th) && Sound(v) && !GoSend(th, line, v, c).thread.pc.Exiting?
    ensures Keeps(th, GoSend(th, line, v, c))
  {
    hide Outfit, When, CellOf, RenewingKit, ArrivingKit, WaitingKit, FinishingKit, AwakingKit, RousingKit, DeletingKit;
  }

  lemma FinePost(th: Thread, line: Posts, v: View, c: Choice)
    requires th.pc == Posting(line) && Numbers(th) && Working(th) && Sound(v)
    requires !GoPost(th, line, v, c).thread.pc.Exiting?
    ensures Keeps(th, GoPost(th, line, v, c))
  {
    hide Outfit, When, CellOf, Overlay, Text;
  }

  lemma FineTell(th: Thread, line: Tells, v: View)
    requires th.pc == Telling(line) && Numbers(th) && Working(th) && Sound(v)
    ensures var m := GoTell(th, line); if m.thread.pc.Exiting? then Escapes(th, m) else Keeps(th, m)
  {
    hide Outfit, When, CellOf;
  }

  lemma FineAwake(th: Thread, line: Awake, v: View, c: Choice)
    requires th.pc == Awaking(line) && Numbers(th) && Working(th) && Sound(v)
    requires !GoAwake(th, line, v, c).thread.pc.Exiting?
    ensures Keeps(th, GoAwake(th, line, v, c))
  {
    hide Outfit, When, CellOf, ArrivingKit, RenewingKit, WaitingKit, FinishingKit, SendingKit, DeletingKit;
  }

  lemma FineRouse(th: Thread, line: Rouse, v: View, c: Choice)
    requires th.pc == Rousing(line) && (line.ALevel? || line.AFetch? || line.ARcu?) && Numbers(th) && Working(th)
    requires Sound(v) && !GoRouse(th, line, v, c).thread.pc.Exiting?
    ensures Keeps(th, GoRouse(th, line, v, c))
  {
    hide Outfit, When, CellOf, ArrivingKit, RenewingKit, WaitingKit, FinishingKit, SendingKit, AwakingKit, DeletingKit;
  }

  lemma FineRouseOn(th: Thread, line: Rouse, v: View, c: Choice)
    requires th.pc == Rousing(line) && (line.AWake? || line.AUnrcu? || line.AUnlevel?) && Numbers(th) && Working(th)
    requires Sound(v) && !GoRouse(th, line, v, c).thread.pc.Exiting?
    ensures Keeps(th, GoRouse(th, line, v, c))
  {
    hide Outfit, When, CellOf, ArrivingKit, RenewingKit, WaitingKit, FinishingKit, SendingKit, AwakingKit, DeletingKit;
  }

  lemma FineDelete(th: Thread, line: Deletes, v: View, c: Choice)
    requires th.pc == Deleting(line) && Numbers(th) && Working(th) && Sound(v)
    requires !GoDelete(th, line, v, c).thread.pc.Exiting?
    ensures Keeps(th, GoDelete(th, line, v, c))
  {
    hide Outfit, When, CellOf, RenewingKit, ArrivingKit, WaitingKit, FinishingKit, AwakingKit, RousingKit, SendingKit;
  }

  lemma FineFree(th: Thread, line: Frees, v: View)
    requires th.pc == Freeing(line) && Numbers(th) && Working(th) && Sound(v)
    ensures !GoFree(th, line, v).thread.pc.Exiting? && Keeps(th, GoFree(th, line, v))
  {
    hide Outfit, When, CellOf;
  }

  // Taking the level lock for writing keeps the rcu_lock of the instance fetched first.
  lemma FineWrite(th: Thread, v: View, c: Choice)
    requires th.pc == Renewing(RWrite) && Shape(th) && !GoRenew(th, RWrite, v, c).thread.pc.Exiting?
    ensures var m := GoRenew(th, RWrite, v, c); Shape(Moved(th, m)) && Legal(th, m.effect)
  {}

  // ----- leaving a call -----

  // The move ends the call's own lines: what is held is left to the exit lines to give back.
  predicate Escapes(th: Thread, m: Move) {
    var n := m.thread;
    && n == th.(rc := n.rc, late := n.late, source := n.source, pc := Exiting(UnWrite))
    && Grounds(KitOf(th.pc), m.effect) && !Turn(KitOf(th.pc), m.effect).entered
    && (KitOf(th.pc).tag.Reading? || !KitOf(th.pc).knows) && Parting(m.effect)
  }

  // The effects a move out of the call's own lines may have.
  predicate Parting(e: Effect) {
    match e
    case Quiet | UnlockLevel | UnlockRcu | Leave | Restore | Unqueue | WakeAll | Abandon => true
    case FreeLevel(_) => true
    case Write(_) => true
    case _ => false
  }

  lemma Escaped(th: Thread, m: Move)
    requires Numbers(th) && Working(th) && Escapes(th, m) && Whole(KitOf(th.pc))
    ensures Leaving(Moved(th, m))
  {
    hide KitOf, CellOf, Grounds;
  }

  // Only a thread that knows the tag holds anything in it.
  predicate Whole(k: Kit) {
    !k.knows ==> k.level.No? && k.rcu.Empty? && !k.counted && !k.entered && !k.mutex && !k.inst
  }

  lemma AllWhole(pc: PC)
    ensures Whole(KitOf(pc))
  {}

  lemma QuitReceive(th: Thread, line: Arrive, v: View, c: Choice)
    requires th.pc == Arriving(line) && GoReceive(th, line, v, c).thread.pc.Exiting?
    ensures Escapes(th, GoReceive(th, line, v, c))
  {}

  lemma QuitRenew(th: Thread, line: Renew, v: View, c: Choice)
    requires th.pc == Renewing(line) && GoRenew(th, line, v, c).thread.pc.Exiting?
    ensures Escapes(th, GoRenew(th, line, v, c))
  {}

  lemma QuitWait(th: Thread, line: Wait, v: View, c: Choice)
    requires th.pc == Waiting(line) && GoWait(th, line, v, c).thread.pc.Exiting?
    ensures Escapes(th, GoWait(th, line, v, c))
  {}

  lemma QuitFinish(th: Thread, line: Finish, v: View)
    requires th.pc == Finishing(line) && GoFinish(th, line, v).thread.pc.Exiting?
    ensures Escapes(th, GoFinish(th, line, v))
  {}

  lemma QuitSend(th: Thread, line: Sends, v: View, c: Choice)
    requires th.pc == Sending(line) && GoSend(th, line, v, c).thread.pc.Exiting?
    ensures Escapes(th, GoSend(th, line, v, c))
  {}

  lemma QuitPost(th: Thread, line: Posts, v: View, c: Choice)
    requires th.pc == Posting(line) && GoPost(th, line, v, c).thread.pc.Exiting?
    ensures Escapes(th, GoPost(th, line, v, c))
  {}

  lemma QuitAwake(th: Thread, line: Awake, v: View, c: Choice)
    requires th.pc == Awaking(line) && GoAwake(th, line, v, c).thread.pc.Exiting?
    ensures Escapes(th, GoAwake(th, line, v, c))
  {}

  lemma QuitRouse(th: Thread, line: Rouse, v: View, c: Choice)
    requires th.pc == Rousing(line) && GoRouse(th, line, v, c).thread.pc.Exiting?
    ensures Escapes(th, GoRouse(th, line, v, c))
  {}

  lemma QuitDelete(th: Thread, line: Deletes, v: View, c: Choice)
    requires th.pc == Deleting(line) && GoDelete(th, line, v, c).thread.pc.Exiting?
    ensures Escapes(th, GoDelete(th, line, v, c))
  {}

  lemma ExitsFirst(th: Thread, line: Exit, v: View)
    requires th.pc == Exiting(line) && Shape(th) && (line.UnWrite? || line.UnCount? || line.UnClear? || line.UnLevel?)
    ensures var m := GoExit(th, line, v); Shape(Moved(th, m)) && Legal(th, m.effect)
  {
    hide CellOf, ValidCall, RenewingKit, ArrivingKit, WaitingKit, FinishingKit, SendingKit, AwakingKit, RousingKit,
         DeletingKit;
  }

  lemma ExitsLast(th: Thread, line: Exit, v: View)
    requires th.pc == Exiting(line) && Shape(th) && (line.UnMutex? || line.UnRcu? || line.UnTag? || line.UnLate?)
    ensures var m := GoExit(th, line, v); Shape(Moved(th, m)) && Legal(th, m.effect)
  {
    hide CellOf, ValidCall, RenewingKit, ArrivingKit, WaitingKit, FinishingKit, SendingKit, AwakingKit, RousingKit,
         DeletingKit;
  }

  // Every exit line gives back its part.
  lemma FineExit(th: Thread, line: Exit, v: View)
    requires th.pc == Exiting(line) && Shape(th)
    ensures var m := GoExit(th, line, v); Shape(Moved(th, m)) && Legal(th, m.effect)
  {
    hide Shape, Legal, GoExit, Hold;
    if line.UnWrite? || line.UnCount? || line.UnClear? || line.UnLevel? {
      ExitsFirst(th, line, v);
    } else {
      ExitsLast(th, line, v);
    }
  }

  lemma StartOwn(th: Thread, v: View, call: Call)
    requires th.pc.Idle? && Shape(th)
    ensures var m := GoStart(th, v, call); Shape(Moved(th, m)) && Legal(th, m.effect)
  {}

  lemma GoesOn(th: Thread, m: Move)
    requires Shape(th) && !th.pc.Exiting? && !th.pc.Idle?
    requires (if m.thread.pc.Exiting? then Escapes(th, m) else Keeps(th, m))
    ensures Shape(Moved(th, m)) && Legal(th, m.effect)
  {
    AllWhole(th.pc);
    Suited(th, m.effect);
    if m.thread.pc.Exiting? { Escaped(th, m); } else { Kept(th, m); }
    hide KitOf, Working, Leaving, Legal, Grounds, Turn, Outfit, ValidCall;
  }

  // Whatever the memory shows, a move keeps the shape of its thread, takes nothing twice and gives
  // back only what it holds.
  lemma Moves(th: Thread, v: View, c: Choice)
    requires Shape(th) && Sound(v) && (th.pc.Idle? <==> c.Start?)
    ensures var m := Go(th, v, c); Shape(Moved(th, m)) && Legal(th, m.effect)
  {
    var m := Go(th, v, c);
    hide GoStart, GoReceive, GoRenew, GoWait, GoFinish, GoSend, GoPost, GoTell, GoAwake, GoRouse, GoDelete, GoFree,
         GoExit;
    hide Legal, Keeps, Escapes, Working, Leaving, Numbers, OwnCall, Sound, Hold;
    match th.pc
    case Idle => StartOwn(th, v, c.call);
    case Exiting(line) => FineExit(th, line, v);
    case Arriving(line) =>
      if m.thread.pc.Exiting? {
        QuitReceive(th, line, v, c);
      } else if line.RTag? || line.RLook? || line.RLevel? || line.RFetch? {
        FineReceive(th, line, v, c);
      } else {
        FineReceiveOn(th, line, v, c);
      }
      GoesOn(th, m);
    case Renewing(line) =>
      if m.thread.pc.Exiting? {
        QuitRenew(th, line, v, c);
        GoesOn(th, m);
      } else if line == RWrite {
        FineWrite(th, v, c);
      } else if line.RCheck? || line.RRefetch? || line.RRecheck? || line.RCreate? {
        FineRenew(th, line, v, c);
        GoesOn(th, m);
      } else {
        FineRenewOn(th, line, v, c);
        GoesOn(th, m);
      }
    case Waiting(line) =>
      if m.thread.pc.Exiting? {
        QuitWait(th, line, v, c);
      } else if line.REnter? || line.RWait? || line.RSleep? || line.RAwake? {
        FineWait(th, line, v, c);
      } else {
        FineWaitOn(th, line, v, c);
      }
      GoesOn(th, m);
    case Finishing(line) =>
      if m.thread.pc.Exiting? {
        QuitFinish(th, line, v);
      } else {
        FineFinish(th, line, v);
      }
      GoesOn(th, m);
    case Sending(line) =>
      if m.thread.pc.Exiting? {
        QuitSend(th, line, v, c);
      } else if line.STag? || line.SLook? || line.SWaiters? || line.SLevel? {
        FineSend(th, line, v, c);
      } else {
        FineSendOn(th, line, v, c);
      }
      GoesOn(th, m);
    case Posting(line) =>
      if m.thread.pc.Exiting? {
        QuitPost(th, line, v, c);
      } else {
        FinePost(th, line, v, c);
      }
      GoesOn(th, m);
    case Telling(line) => FineTell(th, line, v); GoesOn(th, m);
    case Awaking(line) =>
      if m.thread.pc.Exiting? {
        QuitAwake(th, line, v, c);
      } else {
        FineAwake(th, line, v, c);
      }
      GoesOn(th, m);
    case Rousing(line) =>
      if m.thread.pc.Exiting? {
        QuitRouse(th, line, v, c);
      } else if line.ALevel? || line.AFetch? || line.ARcu? {
        FineRouse(th, line, v, c);
      } else {
        FineRouseOn(th, line, v, c);
      }
      GoesOn(th, m);
    case Freeing(line) => FineFree(th, line, v); GoesOn(th, m);
    case Deleting(line) =>
      if m.thread.pc.Exiting? {
        QuitDelete(th, line, v, c);
      } else {
        FineDelete(th, line, v, c);
      }
      GoesOn(th, m);
  }
}
