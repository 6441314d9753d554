// Every lock and every counter agrees with what the threads hold, in every state of every run.

module Locks {
  import opened Protocol
  import opened Shapes

  predicate Reads(h: Held, r: Awaited) {
    match r
    case TagLock => h.tagR
    case LevelLock(c) => h.levR == c
    case RcuLock(i) => h.rcu == i
    case NoLock => false
  }

  predicate Writes(h: Held, r: Awaited) {
    match r
    case TagLock => h.tagW
    case LevelLock(c) => h.levW == c
    case RcuLock(i) => h.rcuW == i
    case NoLock => false
  }

  predicate Valid(threads: seq<Thread>, u: int) { 0 <= u < |threads| }

  // The readers and the writer of a lock are the threads that hold it, and a writer is alone.
  ghost predicate Guarded(lock: RW, r: Awaited, threads: seq<Thread>) {
    && (forall u {:trigger u in lock.readers} :: u in lock.readers ==> Valid(threads, u) && Reads(threads[u].held, r))
    && (forall u {:trigger threads[u]} :: Valid(threads, u) && Reads(threads[u].held, r) ==> u in lock.readers)
    && (forall u {:trigger threads[u]} :: Valid(threads, u) ==> (Writes(threads[u].held, r) <==> lock.writer == u))
    && (lock.writer == NONE || (Valid(threads, lock.writer) && lock.readers == {}))
  }

  // The two counters of a tag and of an instance.
  datatype Place = TagCount(k: int) | InstCount(i: int)

  predicate Counts(h: Held, p: Place) {
    match p
    case TagCount(k) => h.counted == k
    case InstCount(i) => h.entered == i
  }

  ghost predicate Tallied(who: set<int>, n: int, p: Place, threads: seq<Thread>) {
    && n == |who|
    && (forall u {:trigger u in who} :: u in who ==> Valid(threads, u) && Counts(threads[u].held, p))
    && (forall u {:trigger threads[u]} :: Valid(threads, u) && Counts(threads[u].held, p) ==> u in who)
  }

  ghost predicate Owned(mutex: int, i: int, threads: seq<Thread>) {
    && (mutex == NONE || Valid(threads, mutex))
    && (forall u {:trigger threads[u]} :: Valid(threads, u) ==> (threads[u].held.mutex == i <==> mutex == u))
  }

  ghost predicate Synced(y: Sync, i: int, threads: seq<Thread>) {
    && Guarded(y.rcu, RcuLock(i), threads)
    && Tallied(y.waiters, y.waiting, InstCount(i), threads)
    && Owned(y.mutex, i, threads)
  }

  // What is held exists.
  predicate Ranged(h: Held, tags: int, cells: int, insts: int) {
    && h.counted < tags && h.levR < cells && h.levW < cells
    && h.rcu < insts && h.rcuW < insts && h.entered < insts && h.mutex < insts
  }

  ghost predicate Locked(s: State) {
    && Guarded(s.tagLock, TagLock, s.threads)
    && (forall k :: 0 <= k < |s.tags| ==> Tallied(s.tags[k].members, s.tags[k].waiting, TagCount(k), s.threads))
    && (forall c :: 0 <= c < |s.cells| ==> Guarded(s.cells[c].lock, LevelLock(c), s.threads))
    && (forall i :: 0 <= i < |s.insts| ==> Synced(s.insts[i].sync, i, s.threads))
    && (forall u :: 0 <= u < |s.threads| ==> Ranged(s.threads[u].held, |s.tags|, |s.cells|, |s.insts|))
  }

  // ----- one lock, one counter, one mutex -----

  lemma Unmoved(lock: RW, r: Awaited, threads: seq<Thread>, t: nat, n: Thread)
    requires Guarded(lock, r, threads) && t < |threads|
    requires Reads(n.held, r) == Reads(threads[t].held, r) && Writes(n.held, r) == Writes(threads[t].held, r)
    ensures Guarded(lock, r, threads[t := n])
  {
    hide Reads, Writes;
  }

  lemma Taken(lock: RW, r: Awaited, threads: seq<Thread>, t: nat, n: Thread, write: bool)
    requires Guarded(lock, r, threads) && t < |threads| && lock.writer == NONE && (write ==> lock == FREE)
    requires !Reads(threads[t].held, r) && !Writes(threads[t].held, r)
    requires Reads(n.held, r) == !write && Writes(n.held, r) == write
    ensures Guarded(Acquired(lock, t, write), r, threads[t := n])
  {
    hide Reads, Writes;
  }

  lemma Dropped(lock: RW, r: Awaited, threads: seq<Thread>, t: nat, n: Thread)
    requires Guarded(lock, r, threads) && t < |threads| && !Reads(n.held, r) && !Writes(n.held, r)
    ensures Guarded(Released(lock, t), r, threads[t := n])
  {
    hide Reads, Writes;
  }

  lemma Uncounted(who: set<int>, k: int, p: Place, threads: seq<Thread>, t: nat, n: Thread)
    requires Tallied(who, k, p, threads) && t < |threads| && Counts(n.held, p) == Counts(threads[t].held, p)
    ensures Tallied(who, k, p, threads[t := n])
  {
    hide Counts;
  }

  lemma CountedIn(who: set<int>, k: int, p: Place, threads: seq<Thread>, t: nat, n: Thread)
    requires Tallied(who, k, p, threads) && t < |threads| && !Counts(threads[t].held, p) && Counts(n.held, p)
    ensures Tallied(who + {t}, k + 1, p, threads[t := n])
  {
    hide Counts;
  }

  lemma CountedOut(who: set<int>, k: int, p: Place, threads: seq<Thread>, t: nat, n: Thread)
    requires Tallied(who, k, p, threads) && t < |threads| && Counts(threads[t].held, p) && !Counts(n.held, p)
    ensures Tallied(who - {t}, k - 1, p, threads[t := n])
  {
    hide Counts;
  }

  // ----- one effect -----

  // The lock or the mutex an effect takes can be taken.
  predicate Ready(s: State, th: Thread, e: Effect) {
    match e
    case LockTag(write) => s.tagLock.writer == NONE && (write ==> s.tagLock == FREE)
    case LockLevel(write) =>
      0 <= th.cell < |s.cells| && s.cells[th.cell].lock.writer == NONE && (write ==> s.cells[th.cell].lock == FREE)
    case LockRcu(write) =>
      0 <= th.inst < |s.insts| && s.insts[th.inst].sync.rcu.writer == NONE
          && (write ==> s.insts[th.inst].sync.rcu == FREE)
    case TakeMutex => 0 <= th.inst < |s.insts| && s.insts[th.inst].sync.mutex == NONE
    case Count => 0 <= th.tag < |s.tags|
    case Enter => 0 <= th.inst < |s.insts|
    case _ => true
  }

  predicate AtOwnLevel(th: Thread) {
    (th.held.levR == NONE || th.held.levR == th.cell) && (th.held.levW == NONE || th.held.levW == th.cell)
        && NONE <= th.cell
  }

  lemma TagLockKept(s: State, t: nat, m: Move)
    requires Locked(s) && t < |s.threads| && Legal(s.threads[t], m.effect) && Ready(s, s.threads[t], m.effect)
    ensures Guarded(NewTagLock(s.tagLock, t, m.effect), TagLock, s.threads[t := Moved(s.threads[t], m)])
  {
    hide Guarded;
    var th, n := s.threads[t], Moved(s.threads[t], m);
    if m.effect.LockTag? {
      Taken(s.tagLock, TagLock, s.threads, t, n, m.effect.write);
    } else if m.effect.UnlockTag? {
      Dropped(s.tagLock, TagLock, s.threads, t, n);
    } else {
      Unmoved(s.tagLock, TagLock, s.threads, t, n);
    }
  }

  lemma CellKept(s: State, t: nat, m: Move, c: nat, next: int)
    requires Locked(s) && t < |s.threads| && Legal(s.threads[t], m.effect) && Ready(s, s.threads[t], m.effect)
    requires AtOwnLevel(s.threads[t]) && c < |s.cells|
    ensures Guarded(NewCells(s.cells, s.threads[t], t, m.effect, next)[c].lock, LevelLock(c),
                    s.threads[t := Moved(s.threads[t], m)])
  {
    hide Guarded;
    var th, n := s.threads[t], Moved(s.threads[t], m);
    if c == th.cell && m.effect.LockLevel? {
      Taken(s.cells[c].lock, LevelLock(c), s.threads, t, n, m.effect.write);
    } else if c == th.cell && m.effect.UnlockLevel? {
      Dropped(s.cells[c].lock, LevelLock(c), s.threads, t, n);
    } else {
      Unmoved(s.cells[c].lock, LevelLock(c), s.threads, t, n);
    }
  }

  lemma TagKept(s: State, t: nat, m: Move, k: nat)
    requires Locked(s) && t < |s.threads| && Legal(s.threads[t], m.effect) && Ready(s, s.threads[t], m.effect)
    requires k < |s.tags|
    ensures var tag := NewTags(s.tags, s.threads[t].tag, t, m.effect)[k];
            Tallied(tag.members, tag.waiting, TagCount(k), s.threads[t := Moved(s.threads[t], m)])
  {
    hide Tallied;
    var th, n, tag := s.threads[t], Moved(s.threads[t], m), s.tags[k];
    if k == th.tag && m.effect.Count? {
      CountedIn(tag.members, tag.waiting, TagCount(k), s.threads, t, n);
    } else if k == th.tag && m.effect.Uncount? {
      CountedOut(tag.members, tag.waiting, TagCount(k), s.threads, t, n);
    } else {
      Uncounted(tag.members, tag.waiting, TagCount(k), s.threads, t, n);
    }
  }

  // The instance an effect works on: the effect on its rcu_lock, its counter and its mutex.
  lemma SyncKept(s: State, t: nat, m: Move, i: nat)
    requires Locked(s) && t < |s.threads| && Legal(s.threads[t], m.effect) && Ready(s, s.threads[t], m.effect)
    requires i < |s.insts| && i == Target(s.threads[t], m.effect)
    ensures Synced(NewSync(s.insts[i].sync, t, m.effect), i, s.threads[t := Moved(s.threads[t], m)])
  {
    hide Guarded, Tallied;
    var th, n, y := s.threads[t], Moved(s.threads[t], m), s.insts[i].sync;
    if m.effect.LockRcu? {
      Taken(y.rcu, RcuLock(i), s.threads, t, n, m.effect.write);
    } else if m.effect.UnlockRcu? {
      Dropped(y.rcu, RcuLock(i), s.threads, t, n);
    } else {
      Unmoved(y.rcu, RcuLock(i), s.threads, t, n);
    }
    if m.effect.Enter? {
      CountedIn(y.waiters, y.waiting, InstCount(i), s.threads, t, n);
    } else if m.effect.Leave? {
      CountedOut(y.waiters, y.waiting, InstCount(i), s.threads, t, n);
    } else {
      Uncounted(y.waiters, y.waiting, InstCount(i), s.threads, t, n);
    }
  }

  lemma SyncUntouched(s: State, t: nat, m: Move, i: nat)
    requires Locked(s) && t < |s.threads| && Legal(s.threads[t], m.effect)
    requires i < |s.insts| && i != Target(s.threads[t], m.effect)
    ensures Synced(s.insts[i].sync, i, s.threads[t := Moved(s.threads[t], m)])
  {
    hide Guarded, Tallied;
    var th, n, y := s.threads[t], Moved(s.threads[t], m), s.insts[i].sync;
    Unmoved(y.rcu, RcuLock(i), s.threads, t, n);
    Uncounted(y.waiters, y.waiting, InstCount(i), s.threads, t, n);
  }

  lemma BlankSynced(threads: seq<Thread>, i: nat, tags: int, cells: int, cell: int, epoch: nat)
    requires forall u :: 0 <= u < |threads| ==> Ranged(threads[u].held, tags, cells, i)
    ensures Synced(Blank(cell, epoch).sync, i, threads)
  {
    forall u | Valid(threads, u)
      ensures threads[u].held.rcu < i && threads[u].held.rcuW < i && threads[u].held.entered < i
      ensures threads[u].held.mutex < i
    {
      assert Ranged(threads[u].held, tags, cells, i);
    }
  }

  lemma InstsKept(s: State, t: nat, m: Move)
    requires Locked(s) && t < |s.threads| && Legal(s.threads[t], m.effect) && Ready(s, s.threads[t], m.effect)
    ensures var s' := Apply(s, t, m);
            && (forall i :: 0 <= i < |s'.insts| ==> Synced(s'.insts[i].sync, i, s'.threads))
            && (forall u :: 0 <= u < |s'.threads| ==> Ranged(s'.threads[u].held, |s'.tags|, |s'.cells|, |s'.insts|))
  {
    hide Synced, Guarded, Tallied;
    var s', th := Apply(s, t, m), s.threads[t];
    forall u | 0 <= u < |s.threads| ensures Ranged(s'.threads[u].held, |s.tags|, |s.cells|, |s.insts|) {
      assert Ranged(s.threads[u].held, |s.tags|, |s.cells|, |s.insts|);
    }
    forall i | 0 <= i < |s'.insts| ensures Synced(s'.insts[i].sync, i, s'.threads) {
      if i == |s.insts| {
        BlankSynced(s'.threads, i, |s.tags|, |s.cells|, th.cell, s'.insts[i].epoch);
      } else if i == Target(th, m.effect) {
        SyncKept(s, t, m, i);
      } else {
        SyncUntouched(s, t, m, i);
      }
    }
  }

  // Every move that takes only free locks keeps every lock and counter in agreement with the threads.
  lemma LockedKept(s: State, t: nat, m: Move)
    requires Locked(s) && t < |s.threads| && Legal(s.threads[t], m.effect) && Ready(s, s.threads[t], m.effect)
    requires AtOwnLevel(s.threads[t])
    ensures Locked(Apply(s, t, m))
  {
    hide Synced, Guarded, Tallied, Ranged;
    var s', th := Apply(s, t, m), s.threads[t];
    TagLockKept(s, t, m);
    InstsKept(s, t, m);
    forall k | 0 <= k < |s'.tags| ensures Tallied(s'.tags[k].members, s'.tags[k].waiting, TagCount(k), s'.threads) {
      TagKept(s, t, m, k);
    }
    forall c | 0 <= c < |s'.cells| ensures Guarded(s'.cells[c].lock, LevelLock(c), s'.threads) {
      CellKept(s, t, m, c, |s.insts|);
    }
  }

  // A new tag's locks are free and its counters zero, and nobody knows them yet.
  lemma LockedCreated(s: State)
    requires Locked(s)
    ensures Locked(Create(s))
  {
    hide Guarded, Tallied, Synced;
    var s' := Create(s);
    forall u | 0 <= u < |s.threads| ensures Ranged(s.threads[u].held, |s'.tags|, |s'.cells|, |s'.insts|) {
      assert Ranged(s.threads[u].held, |s.tags|, |s.cells|, |s.insts|);
    }
    forall c | |s.cells| <= c < |s'.cells| ensures Guarded(s'.cells[c].lock, LevelLock(c), s.threads) {
      BlankLock(s.threads, c, |s.tags|, |s.cells|, |s.insts|);
    }
    forall i | |s.insts| <= i < |s'.insts| ensures Synced(s'.insts[i].sync, i, s.threads) {
      assert s'.insts[i] == Blank(|s.cells| + (i - |s.insts|), 0);
      forall u | 0 <= u < |s.threads| ensures Ranged(s.threads[u].held, |s.tags|, |s.cells|, i) {
        assert Ranged(s.threads[u].held, |s.tags|, |s.cells|, |s.insts|);
      }
      BlankSynced(s.threads, i, |s.tags|, |s.cells|, s'.insts[i].cell, 0);
    }
    BlankTally(s.threads, |s.tags|, |s.cells|, |s.insts|);
  }

  lemma BlankLock(threads: seq<Thread>, c: nat, tags: int, cells: int, insts: int)
    requires cells <= c && forall u :: 0 <= u < |threads| ==> Ranged(threads[u].held, tags, cells, insts)
    ensures Guarded(FREE, LevelLock(c), threads)
  {
    forall u | Valid(threads, u) ensures threads[u].held.levR < c && threads[u].held.levW < c {
      assert Ranged(threads[u].held, tags, cells, insts);
    }
  }

  lemma BlankTally(threads: seq<Thread>, tags: nat, cells: int, insts: int)
    requires forall u :: 0 <= u < |threads| ==> Ranged(threads[u].held, tags, cells, insts)
    ensures Tallied({}, 0, TagCount(tags), threads)
  {
    forall u | Valid(threads, u) ensures threads[u].held.counted < tags {
      assert Ranged(threads[u].held, tags, cells, insts);
    }
  }

  // A writer is alone.
  lemma Alone(lock: RW, r: Awaited, threads: seq<Thread>, a: nat, b: nat)
    requires Guarded(lock, r, threads) && a < |threads| && b < |threads| && Writes(threads[a].held, r)
    requires Reads(threads[b].held, r) || Writes(threads[b].held, r)
    ensures a == b
  {
    hide Reads, Writes;
  }
}
