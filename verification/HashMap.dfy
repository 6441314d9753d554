// The hash map of utils/hash-struct: open addressing with Robin Hood swaps, backward-shift deletion
// and resizing that reuses the stored hashes.
//
// Buckets are values and memcpy is assignment; a successful allocation is the flag `allocOk`; the
// hash function is any total function of the key and the two seeds. Each probe loop of the source is
// a static method over the bucket array; `hide` keeps the definitions a method does not need out of
// its proof.

module HashMaps {
  import opened RobinHood
  import opened Probing
  import opened Sizes

  const HASH_RANGE: nat := 0x1_0000_0000_0000  // hash:48

  class HashMap {
    const hash: (int, nat, nat) -> nat
    const seed0: nat
    const seed1: nat
    var oom: bool
    var cap: nat
    var nbuckets: nat
    var count: nat
    var mask: nat
    var growat: nat
    var shrinkat: nat
    var buckets: array<Bucket>

    ghost var View: seq<Bucket>     // the nbuckets buckets in use
    ghost var Slot: map<int, nat>   // where each key is
    ghost var Model: map<int, int>  // the finite map this object stands for
    ghost var Ops: nat              // sets and deletes so far
    ghost var Scanned: nat          // buckets scanned by resizes so far
    ghost var Starved: bool         // some allocation has failed

    // hash(key) << 16 >> 16
    function GetHash(key: int): nat {
      hash(key, seed0, seed1) % HASH_RANGE
    }

    ghost function H(): int -> nat {
      k => GetHash(k)
    }

    ghost predicate Core()
      reads this, buckets
    {
      && Fit(nbuckets, cap, mask, growat, shrinkat)
      && Represents(View, Slot, H(), Model, count) && count < DIB_RANGE
      && nbuckets <= buckets.Length && View == buckets[..nbuckets]
    }

    ghost predicate Valid()
      reads this, buckets
    {
      Core() && count <= growat && (Starved || Budget(Ops, Scanned, nbuckets, count, cap))
    }

    lemma Represented()
      requires Valid()
      ensures Table(View, Slot, H()) && Slot.Keys == Model.Keys && |View| == nbuckets
      ensures count == |Model| <= growat < nbuckets && PowerOfTwo(nbuckets)
      ensures 4 * growat == 3 * nbuckets && forall c: nat :: c <= shrinkat <==> 10 * c <= nbuckets
    {
      Thresholds(nbuckets, cap, mask, growat, shrinkat);
      assert |Model| == |Model.Keys| && |Slot| == |Slot.Keys|;
    }

    lemma CountBound()
      requires Valid()
      ensures count < DIB_RANGE
    {
    }

    // hashmap_new_with_allocator, after its two allocations have succeeded.
    constructor (ncap: nat, seed0: nat, seed1: nat, hash: (int, nat, nat) -> nat)
      requires PowerOfTwo(ncap) && 16 <= ncap <= SIZE_LIMIT
      ensures Valid() && fresh(buckets) && buckets.Length == nbuckets && Model == map[] && Slot == map[]
      ensures forall i :: 0 <= i < nbuckets ==> buckets[i] == EMPTY
      ensures this.seed0 == seed0 && this.seed1 == seed1 && this.hash == hash
      ensures cap == nbuckets == ncap && !oom && Ops == 0 && Scanned == 0 && !Starved
    {
      this.seed0 := seed0;
      this.seed1 := seed1;
      this.hash := hash;
      oom := false;
      cap := ncap;
      nbuckets := ncap;
      mask := ncap - 1;
      buckets := new Bucket[ncap](_ => EMPTY);
      growat := ncap * 3 / 4;
      shrinkat := ncap / 10;
      count := 0;
      Slot := map[];
      Model := map[];
      Ops, Scanned, Starved := 0, 0, false;
      new;
      View := buckets[..];
      EmptyTable(View, H());
    }

    // hashmap_new_with_allocator: the size is the least power of two from 16 up that is at least `wanted`.
    static method New(wanted: nat, seed0: nat, seed1: nat, hash: (int, nat, nat) -> nat,
            allocOk: bool) returns (m: HashMap?)
      requires wanted <= SIZE_LIMIT
      ensures m == null <==> !allocOk
      ensures m != null ==> fresh(m) && fresh(m.buckets) && m.Valid() && m.Model == map[] && m.Slot == map[]
      ensures m != null ==> m.buckets.Length == m.nbuckets && forall i :: 0 <= i < m.nbuckets ==> m.buckets[i] == EMPTY
      ensures m != null ==> m.seed0 == seed0 && m.seed1 == seed1 && m.hash == hash && !m.oom
      ensures m != null ==> m.cap == m.nbuckets && wanted <= m.cap && (m.cap == 16 || m.cap / 2 < wanted)
      ensures m != null ==> forall q: nat :: PowerOfTwo(q) && 16 <= q && wanted <= q ==> m.cap <= q
      ensures m != null ==> m.Ops == 0 && m.Scanned == 0 && !m.Starved
    {
      hide Fit, Represents, Budget;
      var ncap := 16;
      PowerUpTo(4);
      LimitIsPower();
      while ncap < wanted
        invariant PowerOfTwo(ncap) && 16 <= ncap <= SIZE_LIMIT && (ncap == 16 || ncap / 2 < wanted)
      {
        TimesTwo(ncap);
        DoubleFits(ncap, SIZE_LIMIT);
        ncap := ncap * 2;
      }
      if !allocOk { return null; }
      forall q: nat | PowerOfTwo(q) && 16 <= q && wanted <= q ensures ncap <= q {
        if ncap > 16 { RoundUpLeast(ncap, wanted, q); }
      }
      m := new HashMap(ncap, seed0, seed1, hash);
    }

    // resize: a new bucket array of newCap slots, or no change at all.
    method Resize(newCap: nat, allocOk: bool) returns (ok: bool)
      requires Core()
      requires PowerOfTwo(newCap) && cap <= newCap <= SIZE_LIMIT && count < newCap
      modifies this`buckets, this`nbuckets, this`mask, this`growat, this`shrinkat, this`View, this`Slot, this`Scanned
      ensures Core() && ok == allocOk
      ensures !ok ==> buckets == old(buckets) && View == old(View)
      ensures !ok ==> nbuckets == old(nbuckets) && Scanned == old(Scanned)
      ensures ok ==> fresh(buckets) && nbuckets == newCap && Scanned == old(Scanned) + old(nbuckets)
    {
      hide Represents, Budget;
      var map2 := New(newCap, seed1, seed1, hash, allocOk);
      if map2 == null { return false; }
      RoundUpLeast(map2.nbuckets, newCap, newCap);
      FitSwap(nbuckets, mask, growat, shrinkat, map2.nbuckets, map2.cap, map2.mask, map2.growat, map2.shrinkat, cap);
      Refill(map2);
      ok := true;
    }

    // `resize` once the temporary map has been allocated.
    method Refill(map2: HashMap)
      requires Core() && map2 != this && map2.buckets != buckets && map2.buckets.Length == map2.nbuckets
      requires count < map2.nbuckets
      requires Fit(map2.nbuckets, cap, map2.mask, map2.growat, map2.shrinkat)
      requires forall i :: 0 <= i < map2.nbuckets ==> map2.buckets[i] == EMPTY
      modifies map2.buckets, this`buckets, this`nbuckets, this`mask, this`growat, this`shrinkat, this`View,
               this`Slot, this`Scanned
      ensures Core() && nbuckets == map2.nbuckets && buckets == map2.buckets && Scanned == old(Scanned) + old(nbuckets)
    {
      FitBounds(map2.nbuckets, cap, map2.mask, map2.growat, map2.shrinkat);
      hide Fit, Represents;
      ghost var slot2 := Rehash(buckets, nbuckets, map2.buckets, map2.mask, Slot, H(), Model, count);
      Adopt(map2, slot2);
    }

    // The tail of `resize`: the sizes and buckets of the temporary map become this map's own.
    method Adopt(map2: HashMap, ghost slot2: map<int, nat>)
      requires map2 != this && map2.nbuckets == map2.buckets.Length
      modifies this`buckets, this`nbuckets, this`mask, this`growat, this`shrinkat, this`View, this`Slot, this`Scanned
      ensures buckets == map2.buckets && nbuckets == map2.nbuckets && mask == map2.mask
      ensures growat == map2.growat && shrinkat == map2.shrinkat
      ensures View == map2.buckets[..] == buckets[..nbuckets] && Slot == slot2
      ensures Scanned == old(Scanned) + old(nbuckets)
    {
      Scanned := Scanned + nbuckets;
      buckets := map2.buckets;
      nbuckets := map2.nbuckets;
      mask := map2.mask;
      growat := map2.growat;
      shrinkat := map2.shrinkat;
      View := map2.buckets[..];
      Slot := slot2;
    }

    // hashmap_set: inserts the item, or replaces and returns the item with its key. When the table is
    // full and cannot grow, it reports out of memory and changes nothing.
    method Set(item: Entry, allocOk: bool) returns (previous: Option<Entry>)
      requires Valid() && (item.key in Model || count + 1 < DIB_RANGE)
      modifies buckets, this`oom, this`count, this`Model, this`Ops, this`buckets, this`nbuckets, this`mask,
               this`growat, this`shrinkat, this`View, this`Slot, this`Scanned, this`Starved
      ensures Valid() && (buckets == old(buckets) || fresh(buckets))
      ensures oom == (4 * |old(Model)| == 3 * old(nbuckets) && !allocOk)
      ensures oom ==> previous == None && Model == old(Model) && View == old(View)
      ensures !oom ==> Model == old(Model)[item.key := item.tagKey]
      ensures !oom ==> previous == Lookup(old(Model), item.key)
      ensures nbuckets == if 4 * |old(Model)| == 3 * old(nbuckets) && allocOk then 2 * old(nbuckets) else old(nbuckets)
      ensures Ops == old(Ops) + 1 && Starved == (old(Starved) || oom)
    {
      hide Fit, Represents, Budget;
      Represented();
      oom := false;
      if count == growat {
        oom := Grow(allocOk);
        if oom { return None; }
      }
      FitBounds(nbuckets, cap, mask, growat, shrinkat);
      previous := Put(item);
    }

    // hashmap_set, where the table is full.
    method Grow(allocOk: bool) returns (oom: bool)
      requires Valid() && count == growat
      modifies this`buckets, this`nbuckets, this`mask, this`growat, this`shrinkat, this`View, this`Slot,
               this`Scanned, this`Ops, this`Starved
      ensures Valid() && oom == !allocOk
      ensures oom ==> buckets == old(buckets) && View == old(View) && nbuckets == old(nbuckets)
      ensures oom ==> Ops == old(Ops) + 1 && Starved
      ensures !oom ==> fresh(buckets) && nbuckets == 2 * old(nbuckets) && count < growat
      ensures !oom ==> Ops == old(Ops) && Starved == old(Starved)
    {
      hide Fit, Represents, Budget;
      MayDouble(nbuckets, cap, mask, growat, shrinkat, count);
      FitBounds(nbuckets, cap, mask, growat, shrinkat);
      if !Starved { GrowIsPaid(Ops, Scanned, nbuckets, count, cap); }
      var ok := Resize(nbuckets * 2, allocOk);
      FitBounds(nbuckets, cap, mask, growat, shrinkat);
      oom := !ok;
      if !ok {
        Ops := Ops + 1;
        Starved := true;
      }
    }

    // hashmap_set from the point where there is room.
    method Put(item: Entry) returns (previous: Option<Entry>)
      requires Valid() && count < growat && (item.key in Model || count + 1 < DIB_RANGE)
      modifies buckets, this`count, this`View, this`Slot, this`Model, this`Ops
      ensures Valid() && Ops == old(Ops) + 1
      ensures Model == old(Model)[item.key := item.tagKey] && previous == Lookup(old(Model), item.key)
    {
      hide Fit, Represents, Budget;
      FitBounds(nbuckets, cap, mask, growat, shrinkat);
      if !Starved { InsertIsPaid(Ops, Scanned, nbuckets, count, cap); }
      ghost var slot';
      previous, slot' := Probe(buckets, nbuckets, mask, Bucket(GetHash(item.key), 1, item), Slot, H(), Model, count);
      if previous == None { count := count + 1; }
      View, Slot, Model, Ops := buckets[..nbuckets], slot', Model[item.key := item.tagKey], Ops + 1;
    }

    // The bucket of a key, as get and delete look for it.
    method Locate(key: int) returns (at: Option<nat>)
      requires Valid()
      ensures at == None <==> key !in Model
      ensures at != None ==>
              key in Slot && at.value == Slot[key] < buckets.Length && buckets[at.value].item == Entry(key, Model[key])
    {
      hide Fit, Represents, Budget;
      FitBounds(nbuckets, cap, mask, growat, shrinkat);
      at := Find(buckets, nbuckets, mask, GetHash(key), key, Slot, H(), Model, count);
    }

    // hashmap_get
    method Get(key: int) returns (r: Option<Entry>)
      requires Valid()
      ensures r == Lookup(Model, key)
    {
      hide Fit, Represents, Budget;
      var at := Locate(key);
      if at == None { return None; }
      r := Some(buckets[at.value].item);
    }

    // hashmap_delete: removes and returns the item with this key, then shrinks if few keys are left; a
    // shrink that fails changes nothing.
    method Delete(key: int, allocOk: bool) returns (r: Option<Entry>)
      requires Valid()
      modifies buckets, this`oom, this`count, this`Model, this`Ops, this`buckets, this`nbuckets, this`mask,
               this`growat, this`shrinkat, this`View, this`Slot, this`Scanned, this`Starved
      ensures Valid() && (buckets == old(buckets) || fresh(buckets)) && !oom
      ensures Model == old(Model) - {key} && r == Lookup(old(Model), key) && count <= old(count)
      ensures nbuckets == if && key in old(Model) && old(nbuckets) > cap && allocOk
                             && 10 * (|old(Model)| - 1) <= old(nbuckets)
                          then old(nbuckets) / 2 else old(nbuckets)
      ensures Ops == old(Ops) + 1 && (Starved ==> old(Starved) || !allocOk)
    {
      hide Fit, Represents, Budget;
      oom := false;
      var at := Locate(key);
      if at == None {
        Miss();
        RemoveAbsent(Model, key);
        return None;
      }
      r := Some(buckets[at.value].item);
      Represented();
      Erase(key, at.value, allocOk);
    }

    // A deletion that finds nothing is an operation all the same.
    ghost method Miss()
      requires Valid()
      modifies this`Ops
      ensures Valid() && Ops == old(Ops) + 1
    {
      hide Fit, Represents, Budget;
      if !Starved { InsertIsPaid(Ops, Scanned, nbuckets, count, cap); }
      Ops := Ops + 1;
    }

    // hashmap_delete once the key has been found.
    method Erase(key: int, at: nat, allocOk: bool)
      requires Valid() && key in Model && key in Slot && at == Slot[key]
      modifies buckets, this`count, this`Model, this`Ops, this`buckets, this`nbuckets, this`mask, this`growat,
               this`shrinkat, this`View, this`Slot, this`Scanned, this`Starved
      ensures Valid() && (buckets == old(buckets) || fresh(buckets))
      ensures Model == old(Model) - {key} && Ops == old(Ops) + 1 && (Starved ==> old(Starved) || !allocOk)
      ensures count == old(count) - 1
      ensures nbuckets == if old(nbuckets) > cap && old(count) - 1 <= old(shrinkat) && allocOk
                          then old(nbuckets) / 2 else old(nbuckets)
    {
      hide Fit, Represents, Budget, Owing;
      Remove(key, at);
      Shrink(allocOk);
    }

    // The entry goes and the ones after it move back.
    method Remove(key: int, at: nat)
      requires Valid() && key in Model && key in Slot && at == Slot[key]
      modifies buckets, this`count, this`View, this`Slot, this`Model, this`Ops
      ensures Core() && count == old(count) - 1 && Ops == old(Ops) + 1 && Model == old(Model) - {key} && count <= growat
      ensures Starved || Owing(Ops, Scanned, nbuckets, count, cap)
    {
      hide Fit, Represents, Budget;
      FitBounds(nbuckets, cap, mask, growat, shrinkat);
      ghost var slot' := Extract(buckets, nbuckets, mask, at, key, Slot, H(), Model, count);
      if !Starved { DeleteIsPaid(Ops, Scanned, nbuckets, count, cap); }
      View, Slot, Model, Ops := buckets[..nbuckets], slot', Model - {key}, Ops + 1;
      count := count - 1;
    }

    // The end of hashmap_delete.
    method Shrink(allocOk: bool)
      requires Core() && count <= growat && (Starved || Owing(Ops, Scanned, nbuckets, count, cap))
      modifies this`buckets, this`nbuckets, this`mask, this`growat, this`shrinkat, this`View, this`Slot,
               this`Scanned, this`Starved
      ensures Valid() && (buckets == old(buckets) || fresh(buckets))
      ensures nbuckets ==
              if old(nbuckets) > cap && count <= old(shrinkat) && allocOk then old(nbuckets) / 2 else old(nbuckets)
      ensures Starved ==> old(Starved) || !allocOk
    {
      hide Fit, Represents, Budget;
      FitBounds(nbuckets, cap, mask, growat, shrinkat);
      if nbuckets > cap && count <= shrinkat {
        MayHalve(nbuckets, cap, mask, growat, shrinkat, count);
        var ok := Resize(nbuckets / 2, allocOk);
        FitBounds(nbuckets, cap, mask, growat, shrinkat);
        if !ok { Starved := true; }
      }
    }

    // hashmap_clear. If the smaller array cannot be allocated, the old one stays in use, its first cap
    // buckets only.
    method Clear(updateCap: bool, allocOk: bool)
      requires Valid()
      modifies buckets, this`count, this`cap, this`Model, this`buckets, this`nbuckets, this`mask, this`growat,
               this`shrinkat, this`View, this`Slot
      ensures Valid() && (buckets == old(buckets) || fresh(buckets))
      ensures Model == map[] && nbuckets == cap == if updateCap then old(nbuckets) else old(cap)
      ensures if updateCap || old(nbuckets) == old(cap) || !allocOk then buckets == old(buckets)
              else fresh(buckets) && buckets.Length == cap
    {
      hide Fit, Represents, Budget;
      if !Starved { ClearIsPaid(Ops, Scanned, nbuckets, count, cap); }
      FitBounds(nbuckets, cap, mask, growat, shrinkat);
      count := 0;
      if updateCap {
        cap := nbuckets;
      } else if nbuckets != cap {
        if allocOk {
          buckets := new Bucket[cap](_ => EMPTY);
        }
        nbuckets := cap;
      }
      Zeroed();
    }

    // The end of hashmap_clear.
    method Zeroed()
      requires nbuckets == cap && PowerOfTwo(cap) && 16 <= cap <= SIZE_LIMIT && nbuckets <= buckets.Length && count == 0
      requires Starved || Budget(Ops, Scanned, nbuckets, 0, cap)
      modifies buckets, this`Model, this`mask, this`growat, this`shrinkat, this`View, this`Slot
      ensures Valid() && Model == map[]
    {
      hide Fit, Represents, Budget;
      FitAlone(nbuckets);
      Zero(buckets, nbuckets, H());
      mask := nbuckets - 1;
      growat := GrowAt(nbuckets);
      shrinkat := ShrinkAt(nbuckets);
      View, Slot, Model := buckets[..nbuckets], map[], map[];
    }

    // hashmap_count
    method Count() returns (n: nat)
      requires Valid()
      ensures n == |Model|
    {
      Represented();
      n := count;
    }
  }
}
