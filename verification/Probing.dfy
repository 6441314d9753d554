// The probe loops of the hash map, over a bucket array whose first n buckets are in use.

module Probing {
  import opened RobinHood

  datatype Option<+T> = None | Some(value: T)

  const DIB_RANGE: nat := 0x1_0000  // dib:16
  const EMPTY: Bucket := Bucket(0, 0, Entry(0, 0))

  ghost function Lookup(m: map<int, int>, key: int): Option<Entry> {
    if key in m then Some(Entry(key, m[key])) else None
  }

  lemma RemoveAbsent(m: map<int, int>, key: int)
    requires key !in m
    ensures m - {key} == m
  {
  }

  // entry->dib += 1, in a 16-bit field
  function Farther(b: Bucket): Bucket {
    b.(dib := (b.dib + 1) % DIB_RANGE)
  }

  // (i + 1) & mask
  method Advance(i: nat, mask: nat) returns (j: nat)
    requires i <= mask
    ensures j == Next(i, mask + 1)
  {
    WrapNext(i, mask + 1);
    j := Wrap(i + 1, mask + 1);
  }

  // The state of a probe that carries an entry whose key is not stored: slot z is empty, and the map
  // aimed at and the number of stored keys do not change on the way.
  ghost predicate Carrying(t: seq<Bucket>, slot: map<int, nat>, h: int -> nat, e: Bucket, j: nat, z: nat, goal: map<int,
          int>, size: nat) {
    && Table(t, slot, h) && Flight(t, slot, h, e, j)
    && Pending(t, slot, e) == goal && |slot| == size
    && z < |t| && t[z].dib == 0
  }

  // One step past an occupied slot, with a swap or without. The 16-bit distance does not wrap.
  lemma CarrySwapped(t: seq<Bucket>, slot: map<int, nat>, h: int -> nat, e: Bucket, j: nat, z: nat, goal: map<int, int>,
          size: nat)
    requires Carrying(t, slot, h, e, j, z, goal, size) && 0 < t[j].dib < e.dib && size + 1 < DIB_RANGE
    ensures Carrying(t[j := e], Displace(slot, t[j].item.key, e, j), h, Farther(t[j]), Next(j, |t|), z, goal, size)
    ensures Dist(Next(j, |t|), z, |t|) < Dist(j, z, |t|)
  {
    hide Placed, Ordered, Indexed, Hashed, Contents;
    Swap(t, slot, h, e, j);
    FlightBound(t[j := e], Displace(slot, t[j].item.key, e, j), h, t[j].(dib := t[j].dib + 1), Next(j, |t|));
  }

  lemma CarryOn(t: seq<Bucket>, slot: map<int, nat>, h: int -> nat, e: Bucket, j: nat, z: nat, goal: map<int, int>,
          size: nat)
    requires Carrying(t, slot, h, e, j, z, goal, size) && t[j].dib > 0 && e.dib <= t[j].dib && size + 1 < DIB_RANGE
    ensures Carrying(t, slot, h, Farther(e), Next(j, |t|), z, goal, size)
    ensures Dist(Next(j, |t|), z, |t|) < Dist(j, z, |t|)
  {
    Pass(t, slot, h, e, j);
    FlightBound(t, slot, h, e.(dib := e.dib + 1), Next(j, |t|));
  }

  // A probe for the stored key of entry e, at slot i.
  ghost predicate Seeking(t: seq<Bucket>, slot: map<int, nat>, h: int -> nat, e: Bucket, i: nat) {
    && i < |t| && e.item.key in slot && slot[e.item.key] < |t| && e.hash == h(e.item.key)
    && e.dib == Dist(Home(e, |t|), i, |t|) + 1
    && Dist(Home(e, |t|), i, |t|) <= Dist(Home(e, |t|), slot[e.item.key], |t|)
  }

  // It never sees an empty slot or an entry nearer home than itself before it reaches the key.
  lemma SeekOn(t: seq<Bucket>, slot: map<int, nat>, h: int -> nat, e: Bucket, i: nat)
    requires Table(t, slot, h) && Seeking(t, slot, h, e, i) && |slot| < DIB_RANGE
    ensures 0 < e.dib <= t[i].dib
    ensures slot[e.item.key] != i ==>
              && Seeking(t, slot, h, Farther(e), Next(i, |t|))
              && Dist(Next(i, |t|), slot[e.item.key], |t|) < Dist(i, slot[e.item.key], |t|)
    ensures slot[e.item.key] == i ==> t[i].hash == e.hash && t[i].item.key == e.item.key
  {
    ProbePath(t, slot, h, e.item.key, i);
    DistanceBound(t, slot, h, i);
    DistanceBound(t, slot, h, slot[e.item.key]);
  }

  lemma Replace(t: seq<Bucket>, slot: map<int, nat>, h: int -> nat, e: Bucket, i: nat)
    requires Table(t, slot, h) && i < |t| && t[i].dib > 0 && t[i].item.key == e.item.key
    ensures Table(t[i := t[i].(item := e.item)], slot, h)
    ensures Contents(t[i := t[i].(item := e.item)], slot) == Pending(t, slot, e)
    ensures e.item.key in slot && Contents(t, slot)[e.item.key] == t[i].item.tagKey
  {
    var u := t[i := t[i].(item := e.item)];
    assert slot[t[i].item.key] == i;
    ReplaceOrdered(t, i, e);
    ReplaceContents(t, slot, i, e);
  }

  lemma ReplaceOrdered(t: seq<Bucket>, i: nat, e: Bucket)
    requires Ordered(t) && i < |t|
    ensures Ordered(t[i := t[i].(item := e.item)])
  {
  }

  lemma ReplaceContents(t: seq<Bucket>, slot: map<int, nat>, i: nat, e: Bucket)
    requires Indexed(t, slot) && i < |t| && t[i].dib > 0 && t[i].item.key == e.item.key
    ensures Indexed(t[i := t[i].(item := e.item)], slot)
    ensures Contents(t[i := t[i].(item := e.item)], slot) == Pending(t, slot, e)
  {
    var u := t[i := t[i].(item := e.item)];
    assert slot[t[i].item.key] == i;
    assert Contents(u, slot).Keys == Pending(t, slot, e).Keys;
    forall k | k in slot ensures Contents(u, slot)[k] == Pending(t, slot, e)[k] {
      assert t[slot[k]].item.key == k;
    }
  }

  // The state of the shift loop: slot x is the hole, and slot z stops the loop.
  ghost predicate Closing(t: seq<Bucket>, slot: map<int, nat>, h: int -> nat, x: nat, z: nat, goal: map<int, int>,
          size: nat) {
    && Holed(t, slot, h, x) && |slot| == size && HoledContents(t, slot, h, x) == goal
    && z < |t| && z != x && t[z].dib == 0
  }

  lemma CloseOn(t: seq<Bucket>, slot: map<int, nat>, h: int -> nat, x: nat, z: nat, goal: map<int, int>, size: nat,
          e: Bucket)
    requires Closing(t, slot, h, x, z, goal, size) && t[Next(x, |t|)].dib > 1
    requires e == t[Next(x, |t|)].(dib := t[Next(x, |t|)].dib - 1)
    ensures Closing(t[x := e], slot[e.item.key := x], h, Next(x, |t|), z, goal, size)
    ensures Dist(Next(x, |t|), z, |t|) < Dist(x, z, |t|)
  {
    Shift(t, slot, h, x, e);
  }

  lemma HoledEmptySlot(t: seq<Bucket>, slot: map<int, nat>, h: int -> nat, x: nat) returns (z: nat)
    requires Holed(t, slot, h, x)
    ensures z < |t| && z != x && t[z].dib == 0
  {
    var u := t[x := t[x].(dib := 0)];
    if forall i :: 0 <= i < |t| && i != x ==> t[i].dib > 0 {
      forall i | i in AllSlots(|t|) - {x} ensures KeyAt(u)(i) in slot.Keys {
        assert u[i].dib > 0;
      }
      OccupiedInjective(u, slot, AllSlots(|t|) - {x});
      Pigeonhole(AllSlots(|t|) - {x}, slot.Keys, KeyAt(u));
      assert false;
    }
    z :| z < |t| && z != x && t[z].dib == 0;
  }

  lemma OccupiedInjective(t: seq<Bucket>, slot: map<int, nat>, s: set<int>)
    requires Indexed(t, slot) && forall i :: i in s ==> 0 <= i < |t| && t[i].dib > 0
    ensures forall i, j :: i in s && j in s && KeyAt(t)(i) == KeyAt(t)(j) ==> i == j
  {
    forall i, j | i in s && j in s && KeyAt(t)(i) == KeyAt(t)(j) ensures i == j {
      assert slot[t[i].item.key] == i && slot[t[j].item.key] == j;
    }
  }

  // One pass of the loop of `resize`: an entry of the old table finds its place in the new buckets.
  method Reinsert(from: Bucket, buckets2: array<Bucket>, mask2: nat, ghost slot: map<int, nat>, ghost h: int -> nat)
    returns (ghost slot': map<int, nat>)
    requires mask2 + 1 == buckets2.Length
    requires Table(buckets2[..], slot, h) && |slot| + 1 < buckets2.Length && |slot| + 1 < DIB_RANGE
    requires from.hash == h(from.item.key) && from.item.key !in slot
    modifies buckets2
    ensures Table(buckets2[..], slot', h) && |slot'| == |slot| + 1
    ensures Contents(buckets2[..], slot') == old(Contents(buckets2[..], slot))[from.item.key := from.item.tagKey]
  {
    slot' := slot;
    var entry := from.(dib := 1);
    ghost var n := buckets2.Length;
    ghost var goal := Pending(buckets2[..], slot, entry);
    ghost var z := EmptySlot(buckets2[..], slot);
    var j := Wrap(entry.hash, mask2 + 1);
    while true
      invariant Carrying(buckets2[..], slot', h, entry, j, z, goal, |slot|)
      decreases Dist(j, z, n)
    {
      var bucket := buckets2[j];
      ghost var t, e := buckets2[..], entry;
      if bucket.dib == 0 {
        Place(t, slot', h, e, j);
        buckets2[j] := entry;
        slot' := slot'[e.item.key := j];
        assert buckets2[..] == t[j := e];
        return;
      }
      if bucket.dib < entry.dib {
        CarrySwapped(t, slot', h, e, j, z, goal, |slot|);
        buckets2[j] := entry;
        entry := bucket;
        slot' := Displace(slot', bucket.item.key, e, j);
        assert buckets2[..] == t[j := e];
      } else {
        CarryOn(t, slot', h, e, j, z, goal, |slot|);
      }
      j := Advance(j, mask2);
      entry := Farther(entry);
    }
  }

  // Copying the table

  // The entries of the first i slots of t, and no others, have been copied to t2.
  ghost predicate Copied(t: seq<Bucket>, slot: map<int, nat>, i: int, t2: seq<Bucket>, slot2: map<int, nat>) {
    && Indexed(t, slot) && Indexed(t2, slot2)
    && (forall k :: k in slot2 ==> k in slot && slot[k] < i && Contents(t2, slot2)[k] == Contents(t, slot)[k])
    && (forall k :: k in slot && slot[k] < i ==> k in slot2)
  }

  lemma EmptyTable(t: seq<Bucket>, h: int -> nat)
    requires |t| > 0 && forall i :: 0 <= i < |t| ==> t[i] == EMPTY
    ensures Represents(t, map[], h, map[], 0)
  {
  }

  lemma MoreToCopy(t: seq<Bucket>, slot: map<int, nat>, i: nat, t2: seq<Bucket>, slot2: map<int, nat>)
    requires Copied(t, slot, i, t2, slot2) && i < |t| && t[i].dib > 0
    ensures t[i].item.key !in slot2 && |slot2| < |slot|
  {
    assert slot[t[i].item.key] == i;
    forall k | k in slot2.Keys ensures k in slot.Keys - {t[i].item.key} {
      assert k in slot2;
    }
    SubsetSize(slot2.Keys, slot.Keys);
  }

  lemma SubsetSize(a: set<int>, b: set<int>)
    requires a < b
    ensures |a| < |b|
  {
    assert b == a + (b - a) && |b - a| > 0;
  }

  lemma CopiedOne(t: seq<Bucket>, slot: map<int, nat>, i: nat, t2: seq<Bucket>, slot2: map<int, nat>, t2': seq<Bucket>,
          slot2': map<int, nat>)
    requires Copied(t, slot, i, t2, slot2) && i < |t| && t[i].dib > 0 && Indexed(t2', slot2')
    requires Contents(t2', slot2') == Contents(t2, slot2)[t[i].item.key := t[i].item.tagKey]
    ensures Copied(t, slot, i + 1, t2', slot2')
  {
    var key := t[i].item.key;
    assert slot[key] == i;
    assert slot2'.Keys == slot2.Keys + {key};
    forall k | k in slot2'
      ensures k in slot && slot[k] < i + 1 && Contents(t2', slot2')[k] == Contents(t, slot)[k]
    {
      if k != key { assert k in slot2; }
    }
    forall k | k in slot && slot[k] < i + 1 ensures k in slot2' {
      if slot[k] == i { assert k == key; }
    }
  }

  lemma CopiedNone(t: seq<Bucket>, slot: map<int, nat>, i: nat, t2: seq<Bucket>, slot2: map<int, nat>)
    requires Copied(t, slot, i, t2, slot2) && i < |t| && t[i].dib == 0
    ensures Copied(t, slot, i + 1, t2, slot2)
  {
  }

  lemma CopiedAll(t: seq<Bucket>, slot: map<int, nat>, t2: seq<Bucket>, slot2: map<int, nat>)
    requires Copied(t, slot, |t|, t2, slot2)
    ensures Contents(t2, slot2) == Contents(t, slot) && |slot2| == |slot|
  {
    forall k ensures k in slot2.Keys <==> k in slot.Keys {
      if k in slot { assert slot[k] < |t|; }
      if k in slot2 { assert k in slot; }
    }
    assert slot2.Keys == slot.Keys;
    forall k | k in slot2 ensures Contents(t2, slot2)[k] == Contents(t, slot)[k] {
    }
  }

  // The outer loop of `resize`: every entry of the old buckets goes to the new ones.
  method Rehash(buckets: array<Bucket>, nbuckets: nat, buckets2: array<Bucket>, mask2: nat, ghost slot: map<int, nat>,
          ghost h: int -> nat, ghost m: map<int, int>, ghost size: nat)
    returns (ghost slot2: map<int, nat>)
    requires buckets != buckets2 && nbuckets <= buckets.Length && mask2 + 1 == buckets2.Length
    requires Represents(buckets[..nbuckets], slot, h, m, size) && size < buckets2.Length && size < DIB_RANGE
    requires forall i :: 0 <= i < buckets2.Length ==> buckets2[i] == EMPTY
    modifies buckets2
    ensures Represents(buckets2[..], slot2, h, m, size)
  {
    slot2 := map[];
    ghost var t := buckets[..nbuckets];
    EmptyTable(buckets2[..], h);
    var i := 0;
    while i < nbuckets
      invariant 0 <= i <= nbuckets
      invariant Table(buckets2[..], slot2, h)
      invariant Copied(t, slot, i, buckets2[..], slot2)
    {
      var entry := buckets[i];
      assert t[i] == entry;
      if entry.dib != 0 {
        MoreToCopy(t, slot, i, buckets2[..], slot2);
        ghost var t2, was := buckets2[..], slot2;
        slot2 := Reinsert(entry, buckets2, mask2, slot2, h);
        CopiedOne(t, slot, i, t2, was, buckets2[..], slot2);
      } else {
        CopiedNone(t, slot, i, buckets2[..], slot2);
      }
      i := i + 1;
    }
    CopiedAll(t, slot, buckets2[..], slot2);
  }

  // The state of a set that started with entry `first` on table t0: it seeks the key's slot z, or, when
  // the key is not stored, carries an entry towards the empty slot z.
  ghost predicate Setting(t0: seq<Bucket>, slot0: map<int, nat>, h: int -> nat, first: Bucket, goal: map<int, int>,
          t: seq<Bucket>, slot: map<int, nat>, e: Bucket, i: nat, z: nat) {
    && i < |t| && z < |t|
    && if first.item.key in slot0
       then t == t0 && slot == slot0 && z == slot0[first.item.key] && e.item == first.item && |slot| < DIB_RANGE
            && Table(t, slot, h) && Seeking(t, slot, h, e, i) && goal == Pending(t, slot, e)
       else Carrying(t, slot, h, e, i, z, goal, |slot0|) && |slot0| + 1 < |t| && |slot0| + 1 < DIB_RANGE
  }

  lemma SetStarts(t: seq<Bucket>, slot: map<int, nat>, h: int -> nat, first: Bucket, m: map<int, int>, size: nat)
    returns (z: nat)
    requires Represents(t, slot, h, m, size) && size + 1 < |t|
    requires size < DIB_RANGE && (first.item.key in m || size + 1 < DIB_RANGE)
    requires first.dib == 1 && first.hash == h(first.item.key)
    ensures Setting(t, slot, h, first, m[first.item.key := first.item.tagKey], t, slot, first, Home(first, |t|), z)
  {
    if first.item.key in slot { z := slot[first.item.key]; } else { z := EmptySlot(t, slot); }
  }

  // The loop goes on past an occupied slot, with a swap...
  lemma SetSwaps(t0: seq<Bucket>, slot0: map<int, nat>, h: int -> nat, first: Bucket, goal: map<int, int>,
          t: seq<Bucket>, slot: map<int, nat>, e: Bucket, i: nat, z: nat)
    requires Setting(t0, slot0, h, first, goal, t, slot, e, i, z) && 0 < t[i].dib < e.dib
    ensures Setting(t0, slot0, h, first, goal, t[i := e], Displace(slot, t[i].item.key, e, i), Farther(t[i]),
                    Next(i, |t|), z)
    ensures Dist(Next(i, |t|), z, |t|) < Dist(i, z, |t|)
  {
    hide Table, Displace, Pending;
    if first.item.key in slot0 {
      SeekOn(t, slot, h, e, i);
    } else {
      CarrySwapped(t, slot, h, e, i, z, goal, |slot0|);
    }
  }

  // ... or without one...
  lemma SetPasses(t0: seq<Bucket>, slot0: map<int, nat>, h: int -> nat, first: Bucket, goal: map<int, int>,
          t: seq<Bucket>, slot: map<int, nat>, e: Bucket, i: nat, z: nat)
    requires Setting(t0, slot0, h, first, goal, t, slot, e, i, z) && 0 < t[i].dib && e.dib <= t[i].dib
    requires t[i].hash != e.hash || t[i].item.key != e.item.key
    ensures Setting(t0, slot0, h, first, goal, t, slot, Farther(e), Next(i, |t|), z)
    ensures Dist(Next(i, |t|), z, |t|) < Dist(i, z, |t|)
  {
    hide Table;
    if first.item.key in slot0 {
      SeekOn(t, slot, h, e, i);
    } else {
      CarryOn(t, slot, h, e, i, z, goal, |slot0|);
    }
  }

  // ... and ends at an empty slot, with the new key stored...
  lemma SetPlaces(t0: seq<Bucket>, slot0: map<int, nat>, h: int -> nat, first: Bucket, goal: map<int, int>,
          t: seq<Bucket>, slot: map<int, nat>, e: Bucket, i: nat, z: nat)
    requires Setting(t0, slot0, h, first, goal, t, slot, e, i, z) && t[i].dib == 0
    ensures first.item.key !in slot0 && Represents(t[i := e], slot[e.item.key := i], h, goal, |slot0| + 1)
  {
    hide Placed, Ordered, Indexed, Hashed, Contents;
    if first.item.key in slot0 {
      SeekOn(t, slot, h, e, i);
    } else {
      Place(t, slot, h, e, i);
    }
  }

  // ... or at the key, with its item replaced.
  lemma SetReplaces(t0: seq<Bucket>, slot0: map<int, nat>, h: int -> nat, first: Bucket, goal: map<int, int>,
          t: seq<Bucket>, slot: map<int, nat>, e: Bucket, i: nat, z: nat)
    requires Setting(t0, slot0, h, first, goal, t, slot, e, i, z) && t[i].dib > 0 && t[i].item.key == e.item.key
    ensures first.item.key in slot0 && t == t0 && slot == slot0 && slot[first.item.key] == i
    ensures Represents(t[i := t[i].(item := e.item)], slot, h, goal, |slot0|)
  {
    hide Placed, Ordered, Hashed, Contents;
    assert t[i].item.key in slot && slot[t[i].item.key] == i;
    hide Indexed;
    Replace(t, slot, h, e, i);
  }

  // The probe loop of `hashmap_set`: replace the item of the key, or insert it.
  method Probe(buckets: array<Bucket>, n: nat, mask: nat, first: Bucket, ghost slot: map<int, nat>, ghost h: int -> nat,
          ghost m: map<int, int>, ghost size: nat)
    returns (replaced: Option<Entry>, ghost slot': map<int, nat>)
    requires mask + 1 == n <= buckets.Length
    requires Represents(buckets[..n], slot, h, m, size) && size + 1 < n
    requires size < DIB_RANGE && (first.item.key in m || size + 1 < DIB_RANGE)
    requires first.dib == 1 && first.hash == h(first.item.key)
    modifies buckets
    ensures Represents(buckets[..n], slot', h, m[first.item.key := first.item.tagKey],
                       if first.item.key in m then size else size + 1)
    ensures replaced == Lookup(m, first.item.key)
  {
    slot' := slot;
    var entry := first;
    ghost var t0, goal := buckets[..n], m[first.item.key := first.item.tagKey];
    ghost var z := SetStarts(t0, slot, h, first, m, size);
    var i: nat := Wrap(entry.hash, mask + 1);
    StoredLookup(t0, slot, h, m, size, first.item.key);
    hide Setting, Represents, Dist, Displace;
    while true
      invariant i < n && Setting(t0, slot, h, first, goal, buckets[..n], slot', entry, i, z)
      decreases Dist(i, z, n)
    {
      ghost var t, e := buckets[..n], entry;
      var bucket := buckets[i];
      assert bucket == t[i];
      if bucket.dib == 0 {
        SetPlaces(t0, slot, h, first, goal, t, slot', e, i, z);
        buckets[i] := entry;
        slot' := slot'[e.item.key := i];
        assert buckets[..n] == t[i := e];
        return None, slot';
      }
      if entry.hash == bucket.hash && entry.item.key == bucket.item.key {
        SetReplaces(t0, slot, h, first, goal, t, slot', e, i, z);
        buckets[i] := bucket.(item := entry.item);
        assert buckets[..n] == t[i := bucket.(item := e.item)];
        return Some(bucket.item), slot';
      }
      if bucket.dib < entry.dib {
        SetSwaps(t0, slot, h, first, goal, t, slot', e, i, z);
        buckets[i] := entry;
        entry := bucket;
        slot' := Displace(slot', bucket.item.key, e, i);
        assert buckets[..n] == t[i := e];
      } else {
        SetPasses(t0, slot, h, first, goal, t, slot', e, i, z);
      }
      i := Advance(i, mask);
      entry := Farther(entry);
    }
  }

  lemma StoredLookup(t: seq<Bucket>, slot: map<int, nat>, h: int -> nat, m: map<int, int>, size: nat, key: int)
    requires Represents(t, slot, h, m, size)
    ensures |slot| == size && (key in slot <==> key in m)
    ensures key in slot ==> slot[key] < |t| && Lookup(m, key) == Some(t[slot[key]].item)
  {}

  // The probe loop of `hashmap_get` and `hashmap_delete`: the slot of a key, if it is stored.
  method Find(buckets: array<Bucket>, n: nat, mask: nat, hash: nat, key: int, ghost slot: map<int, nat>,
          ghost h: int -> nat, ghost m: map<int, int>, ghost size: nat)
    returns (at: Option<nat>)
    requires mask + 1 == n <= buckets.Length && Represents(buckets[..n], slot, h, m, size) && hash == h(key)
    ensures at == None <==> key !in m
    ensures at != None ==> key in slot && at.value == slot[key] < n && buckets[at.value].item == Entry(key, m[key])
  {
    ghost var t := buckets[..n];
    var i: nat := Wrap(hash, mask + 1);
    ghost var home := i;
    ghost var z := EmptySlot(t, slot);
    while true
      invariant i < n && Dist(home, i, n) <= Dist(home, z, n)
      invariant key in slot ==> Dist(home, i, n) <= Dist(home, slot[key], n)
      decreases Dist(i, z, n)
    {
      var bucket := buckets[i];
      assert bucket == t[i];
      if bucket.dib == 0 {
        if key in slot { ProbePath(t, slot, h, key, i); }
        return None;
      }
      if bucket.hash == hash && bucket.item.key == key {
        assert slot[t[i].item.key] == i;
        return Some(i);
      }
      assert key in slot ==> t[slot[key]].item.key == key;
      i := Advance(i, mask);
    }
  }

  // The shift loop of `hashmap_delete`: slot x has just been emptied.
  method ShiftBack(buckets: array<Bucket>, n: nat, mask: nat, x: nat, ghost slot: map<int, nat>, ghost h: int -> nat)
    returns (ghost slot': map<int, nat>)
    requires mask + 1 == n <= buckets.Length && Holed(buckets[..n], slot, h, x)
    modifies buckets
    ensures Table(buckets[..n], slot', h) && |slot'| == |slot|
    ensures Contents(buckets[..n], slot') == old(HoledContents(buckets[..n], slot, h, x))
  {
    slot' := slot;
    var i := x;
    ghost var goal := HoledContents(buckets[..n], slot, h, x);
    ghost var z := HoledEmptySlot(buckets[..n], slot, h, x);
    while true
      invariant Closing(buckets[..n], slot', h, i, z, goal, |slot|)
      decreases Dist(i, z, n)
    {
      var prev := i;
      ghost var t := buckets[..n];
      i := Advance(i, mask);
      var bucket := buckets[i];
      assert bucket == t[i];
      if bucket.dib <= 1 {
        Close(t, slot', h, prev);
        buckets[prev] := buckets[prev].(dib := 0);
        assert buckets[..n] == t[prev := t[prev].(dib := 0)];
        return;
      }
      CloseOn(t, slot', h, prev, z, goal, |slot|, bucket.(dib := bucket.dib - 1));
      slot' := slot'[bucket.item.key := prev];
      buckets[prev] := bucket.(dib := bucket.dib - 1);
      assert buckets[..n] == t[prev := bucket.(dib := bucket.dib - 1)];
    }
  }

  // hashmap_delete once the key has been found at slot `at`.
  method Extract(buckets: array<Bucket>, n: nat, mask: nat, at: nat, key: int, ghost slot: map<int, nat>,
          ghost h: int -> nat, ghost m: map<int, int>, ghost size: nat)
    returns (ghost slot': map<int, nat>)
    requires mask + 1 == n <= buckets.Length && Represents(buckets[..n], slot, h, m, size) && key in slot
    requires at == slot[key]
    modifies buckets
    ensures size > 0 && Represents(buckets[..n], slot', h, m - {key}, size - 1)
  {
    ghost var t := buckets[..n];
    Open(t, slot, h, key);
    buckets[at] := buckets[at].(dib := 0);
    assert buckets[..n] == t[at := t[at].(dib := 0)];
    slot' := ShiftBack(buckets, n, mask, at, slot - {key}, h);
  }

  // memset of the first n buckets
  method Zero(buckets: array<Bucket>, n: nat, ghost h: int -> nat)
    requires 0 < n <= buckets.Length
    modifies buckets
    ensures Represents(buckets[..n], map[], h, map[], 0)
  {
    forall i | 0 <= i < n {
      buckets[i] := EMPTY;
    }
    EmptyTable(buckets[..n], h);
  }
}
