// Laws of the hash map that span several operations.

module HashMapLaws {
  import opened RobinHood
  import opened Probing
  import opened Layout
  import opened HashMaps

  // Layout

  // Two maps of one size that store every hash equally often agree on which slots are occupied, and on
  // the distance and the home in every slot, whatever their keys, hash functions, seeds and histories.
  lemma SameLayout(a: HashMap, b: HashMap)
    requires a.Valid() && b.Valid() && a.nbuckets == b.nbuckets
    requires SameHashes(a.Model.Keys, a.H(), b.Model.Keys, b.H())
    ensures forall i :: 0 <= i < a.nbuckets ==> a.View[i].dib == b.View[i].dib
    ensures forall i :: 0 <= i < a.nbuckets && a.View[i].dib > 0 ==>
              Home(a.View[i], a.nbuckets) == Home(b.View[i], b.nbuckets)
  {
    hide HashMap.Valid, Table, SameHashes;
    a.Represented();
    b.Represented();
    HashesDecideLayout(a.View, a.Slot, a.H(), b.View, b.Slot, b.H());
  }

  // Deleting a key just inserted restores the finite map and, unless the table was resized on the way,
  // the layout: backward shifting leaves the slots as if the key had never been there.
  method SetThenDelete(m: HashMap, item: Entry, growOk: bool, shrinkOk: bool)
    requires m.Valid() && item.key !in m.Model && m.count + 1 < DIB_RANGE
    modifies m, m.buckets
    ensures m.Valid() && m.Model == old(m.Model)
    ensures m.nbuckets == old(m.nbuckets) ==> forall i :: 0 <= i < m.nbuckets ==> m.View[i].dib == old(m.View)[i].dib
  {
    hide HashMap.Valid, Table;
    ghost var h := m.H();
    ghost var t, slot, model := m.View, m.Slot, m.Model;
    m.Represented();
    var r1 := m.Set(item, growOk);
    var r2 := m.Delete(item.key, shrinkOk);
    Restored(model, item.key, item.tagKey);
    m.Represented();
    if m.nbuckets == |t| {
      SameKeysLayout(m.View, m.Slot, t, slot, h);
    }
  }

  lemma Restored(m: map<int, int>, key: int, value: int)
    requires key !in m
    ensures m[key := value] - {key} == m && m - {key} == m
  {
  }

  // Whole runs

  datatype Op = OpSet(item: Entry) | OpGet(key: int) | OpDelete(key: int) | OpClear(updateCap: bool) | OpCount

  datatype Reply = Item(entry: Option<Entry>) | OutOfMemory | Number(n: nat) | Done

  // The reply a finite map may give; only a set whose allocation failed may report out of memory.
  ghost predicate Allowed(m: map<int, int>, op: Op, allocOk: bool, r: Reply) {
    match op
    case OpSet(item) => r == Item(Lookup(m, item.key)) || (r == OutOfMemory && !allocOk)
    case OpGet(key) => r == Item(Lookup(m, key))
    case OpDelete(key) => r == Item(Lookup(m, key))
    case OpClear(_) => r == Done
    case OpCount => r == Number(|m|)
  }

  // The finite map after an operation that was answered r.
  ghost function After(m: map<int, int>, op: Op, r: Reply): map<int, int> {
    match op
    case OpSet(item) => if r == OutOfMemory then m else m[item.key := item.tagKey]
    case OpDelete(key) => m - {key}
    case OpClear(_) => map[]
    case _ => m
  }

  ghost function AfterAll(m: map<int, int>, ops: seq<Op>, rs: seq<Reply>): map<int, int>
    requires |ops| == |rs|
    decreases |ops|
  {
    if |ops| == 0 then m
    else After(AfterAll(m, ops[..|ops| - 1], rs[..|rs| - 1]), ops[|ops| - 1], rs[|rs| - 1])
  }

  // Every reply is one the finite map could have given at that point of the run.
  ghost predicate Refines(m: map<int, int>, ops: seq<Op>, oks: seq<bool>, rs: seq<Reply>) {
    && |ops| == |rs| == |oks|
    && forall i :: 0 <= i < |ops| ==> Allowed(AfterAll(m, ops[..i], rs[..i]), ops[i], oks[i], rs[i])
  }

  // The sets and deletes of a run, which pay for its resizes.
  ghost function Charges(ops: seq<Op>): nat
  {
    if |ops| == 0 then 0 else Charges(ops[..|ops| - 1]) + Charge(ops[|ops| - 1])
  }

  ghost function Charge(op: Op): nat { if op.OpSet? || op.OpDelete? then 1 else 0 }

  // Any run of operations, with any pattern of failing allocations, is a run of the finite map. Resizing
  // costs at most 20 scanned buckets per set or delete, as long as no allocation fails. The run stops
  // early only at a set of a new key on a map of 65535 keys, where the 16-bit distance field could wrap.
  method Drive(m: HashMap, ops: seq<Op>, oks: seq<bool>) returns (rs: seq<Reply>, done: nat)
    requires m.Valid() && |ops| == |oks|
    modifies m, m.buckets
    ensures m.Valid() && done <= |ops|
    ensures Refines(old(m.Model), ops[..done], oks[..done], rs)
    ensures m.Model == AfterAll(old(m.Model), ops[..done], rs)
    ensures m.Ops == old(m.Ops) + Charges(ops[..done])
    ensures !old(m.Starved) && (forall i :: 0 <= i < done ==> oks[i]) ==> !m.Starved && m.Scanned <= 20 * m.Ops
    ensures done == |ops| || (ops[done].OpSet? && ops[done].item.key !in m.Model && |m.Model| == DIB_RANGE - 1)
  {
    hide HashMap.Valid, Refines, Allowed, After, AfterAll, Charges;
    rs, done := [], 0;
    NoneYet(m.Model, ops, oks);
    ghost var model, charged, starved := m.Model, m.Ops, m.Starved;
    ScannedBound(m);
    while done < |ops|
      invariant |rs| == done <= |ops| && m.Valid()
      invariant m.buckets == old(m.buckets) || fresh(m.buckets)
      invariant Refines(model, ops[..done], oks[..done], rs)
      invariant m.Model == AfterAll(model, ops[..done], rs)
      invariant m.Ops == charged + Charges(ops[..done])
      invariant !starved && (forall i :: 0 <= i < done ==> oks[i]) ==> !m.Starved
      invariant !m.Starved ==> m.Scanned <= 20 * m.Ops
    {
      m.Represented();
      if ops[done].OpSet? && m.count + 1 >= DIB_RANGE {
        var stored := m.Get(ops[done].item.key);
        m.CountBound();
        if stored == None { return; }
      }
      var r := Answer(m, ops[done], oks[done]);
      OneMore(model, ops, oks, rs, done, r);
      OneCharge(ops, done);
      ScannedBound(m);
      rs, done := rs + [r], done + 1;
    }
  }

  lemma NoneYet(m: map<int, int>, ops: seq<Op>, oks: seq<bool>)
    requires |ops| == |oks|
    ensures Refines(m, ops[..0], oks[..0], []) && AfterAll(m, ops[..0], []) == m && Charges(ops[..0]) == 0
  {
  }

  lemma OneCharge(ops: seq<Op>, n: nat)
    requires n < |ops|
    ensures Charges(ops[..n + 1]) == Charges(ops[..n]) + Charge(ops[n])
  {
    assert ops[..n + 1][..n] == ops[..n];
  }

  lemma ScannedBound(m: HashMap)
    requires m.Valid()
    ensures !m.Starved ==> m.Scanned <= 20 * m.Ops
  {
  }

  // One operation of a run.
  method Answer(m: HashMap, op: Op, allocOk: bool) returns (r: Reply)
    requires m.Valid() && (op.OpSet? ==> op.item.key in m.Model || m.count + 1 < DIB_RANGE)
    modifies m, m.buckets
    ensures m.Valid() && (m.buckets == old(m.buckets) || fresh(m.buckets))
    ensures Allowed(old(m.Model), op, allocOk, r) && m.Model == After(old(m.Model), op, r)
    ensures m.Ops == old(m.Ops) + Charge(op) && (m.Starved ==> old(m.Starved) || !allocOk)
  {
    hide HashMap.Valid;
    match op {
      case OpSet(item) =>
        var previous := m.Set(item, allocOk);
        r := if m.oom then OutOfMemory else Item(previous);
      case OpGet(key) =>
        var found := m.Get(key);
        r := Item(found);
      case OpDelete(key) =>
        var removed := m.Delete(key, allocOk);
        r := Item(removed);
      case OpClear(updateCap) =>
        m.Clear(updateCap, allocOk);
        r := Done;
      case OpCount =>
        var n := m.Count();
        r := Number(n);
    }
  }

  lemma OneMore(m: map<int, int>, ops: seq<Op>, oks: seq<bool>, rs: seq<Reply>, n: nat, r: Reply)
    requires n < |ops| == |oks| && Refines(m, ops[..n], oks[..n], rs)
    requires Allowed(AfterAll(m, ops[..n], rs), ops[n], oks[n], r)
    ensures Refines(m, ops[..n + 1], oks[..n + 1], rs + [r])
    ensures AfterAll(m, ops[..n + 1], rs + [r]) == After(AfterAll(m, ops[..n], rs), ops[n], r)
  {
    hide Allowed, After;
    OneAfter(m, ops, rs, n, r);
    hide AfterAll;
    var ops', oks', rs' := ops[..n + 1], oks[..n + 1], rs + [r];
    forall i | 0 <= i < |ops'| ensures Allowed(AfterAll(m, ops'[..i], rs'[..i]), ops'[i], oks'[i], rs'[i]) {
      assert rs'[..i] == if i < n then rs[..i] else rs;
      assert ops'[..i] == if i < n then ops[..n][..i] else ops[..n];
      assert i < n ==> Allowed(AfterAll(m, ops[..n][..i], rs[..i]), ops[..n][i], oks[..n][i], rs[i]);
    }
  }

  lemma OneAfter(m: map<int, int>, ops: seq<Op>, rs: seq<Reply>, n: nat, r: Reply)
    requires n < |ops| && |rs| == n
    ensures AfterAll(m, ops[..n + 1], rs + [r]) == After(AfterAll(m, ops[..n], rs), ops[n], r)
  {
    assert ops[..n + 1][..n] == ops[..n] && (rs + [r])[..n] == rs;
  }

  // The 16-bit distance

  // Some table of n slots with c keys carries an entry at distance d.
  ghost predicate Carries(n: nat, c: nat, d: nat) {
    exists t: seq<Bucket>, slot: map<int, nat>, h: int -> nat, e: Bucket, i: nat ::
      |t| == n && |slot| == c && Table(t, slot, h) && Flight(t, slot, h, e, i) && e.dib == d
  }

  // The distance that a set adds one to stays in the 16-bit field on every table of c keys, whatever
  // the hashes, if and only if c is at most 65534: the condition under which Set is proved.
  lemma DistanceFits(n: nat, c: nat)
    requires c < n
    ensures (forall d: nat :: Carries(n, c, d) ==> d < DIB_RANGE) <==> c + 1 < DIB_RANGE
  {
    forall d: nat | Carries(n, c, d) ensures d <= c + 1 {
      var t: seq<Bucket>, slot: map<int, nat>, h: int -> nat, e: Bucket, i: nat :|
        |t| == n && |slot| == c && Table(t, slot, h) && Flight(t, slot, h, e, i) && e.dib == d;
      FlightBound(t, slot, h, e, i);
    }
    var t, slot, h := Cluster(n, c);
    assert Flight(t, slot, h, Bucket(0, c + 1, Entry(c, 0)), c);
    assert Carries(n, c, c + 1);
  }

  // Beyond that the field does wrap: past 65535 keys with the same home, the next entry would be stored
  // with distance 0, that is as an empty bucket.
  lemma DistanceWraps(n: nat)
    requires n >= DIB_RANGE
    ensures exists t: seq<Bucket>, slot: map<int, nat>, h: int -> nat, e: Bucket, i: nat ::
              && |t| == n && Table(t, slot, h) && Flight(t, slot, h, e, i)
              && t[i].dib == e.dib && t[Next(i, n)].dib == 0 && Farther(e).dib == 0
  {
    var c := DIB_RANGE - 1;
    var t, slot, h := Cluster(n, c);
    var e := Bucket(0, c, Entry(c, 0));
    assert Flight(t, slot, h, e, c - 1);
    assert Farther(e).dib == 0;
    assert t[Next(c - 1, n)].dib == 0;
  }

  // A table of c keys that all hash to slot 0.
  lemma Cluster(n: nat, c: nat) returns (t: seq<Bucket>, slot: map<int, nat>, h: int -> nat)
    requires c < n
    ensures |t| == n && |slot| == c && Table(t, slot, h)
    ensures forall i :: 0 <= i < n ==> t[i] == if i < c then Bucket(0, i + 1, Entry(i, 0)) else EMPTY
    ensures forall k :: h(k) == 0
    ensures c !in slot
  {
    t := seq(n, i requires 0 <= i < n => if i < c then Bucket(0, i + 1, Entry(i, 0)) else EMPTY);
    slot := map k | k in AllSlots(c) :: k as nat;
    h := (k: int) => 0 as nat;
    assert slot.Keys == AllSlots(c);
    assert |slot| == |slot.Keys|;
    ClusterIsTable(t, slot, h, c);
    hide Table;
  }

  // The keys below c stand one behind the other from slot 0, all of home 0.
  ghost predicate Clustered(t: seq<Bucket>, c: nat) {
    forall i :: 0 <= i < |t| ==> t[i] == if i < c then Bucket(0, i + 1, Entry(i, 0)) else EMPTY
  }

  lemma ClusterPlaced(t: seq<Bucket>, c: nat)
    requires c < |t| && Clustered(t, c)
    ensures Placed(t)
  {}

  lemma ClusterOrdered(t: seq<Bucket>, c: nat)
    requires c < |t| && Clustered(t, c)
    ensures Ordered(t)
  {}

  lemma ClusterIndexed(t: seq<Bucket>, slot: map<int, nat>, h: int -> nat, c: nat)
    requires c < |t| && slot.Keys == AllSlots(c) && (forall k :: k in slot ==> slot[k] == k) && (forall k :: h(k) == 0)
    requires Clustered(t, c)
    ensures Indexed(t, slot) && Hashed(t, h) && |slot| < |t|
  {
    assert |slot| == |slot.Keys|;
  }

  lemma ClusterIsTable(t: seq<Bucket>, slot: map<int, nat>, h: int -> nat, c: nat)
    requires c < |t| && slot.Keys == AllSlots(c) && (forall k :: k in slot ==> slot[k] == k) && (forall k :: h(k) == 0)
    requires Clustered(t, c)
    ensures Table(t, slot, h)
  {
    hide Clustered, Placed, Ordered, Indexed, Hashed;
    ClusterPlaced(t, c);
    ClusterOrdered(t, c);
    ClusterIndexed(t, slot, h, c);
  }
}
