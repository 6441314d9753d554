// The layout of a Robin Hood table is canonical: which slots are occupied, and the distance stored in
// each, depend only on the number of slots and the hashes of the stored keys, not on the history of
// sets, deletes and resizes that produced the table.

module Layout {
  import opened RobinHood

  // Two well-formed tables with as many slots and the same keys.
  ghost predicate SameKeys(t1: seq<Bucket>, slot1: map<int, nat>, t2: seq<Bucket>, slot2: map<int, nat>,
          h: int -> nat) {
    Table(t1, slot1, h) && Table(t2, slot2, h) && |t1| == |t2| && slot1.Keys == slot2.Keys
  }

  // Where the first table keeps the key that the second keeps in slot p.
  ghost function Moved(slot1: map<int, nat>, t2: seq<Bucket>, p: int): int {
    if 0 <= p < |t2| && t2[p].item.key in slot1 then slot1[t2[p].item.key] else -1
  }

  lemma MovedSlot(t1: seq<Bucket>, slot1: map<int, nat>, t2: seq<Bucket>, slot2: map<int, nat>, h: int -> nat, p: nat)
    requires SameKeys(t1, slot1, t2, slot2, h) && p < |t2| && t2[p].dib > 0
    ensures 0 <= Moved(slot1, t2, p) < |t1| && t1[Moved(slot1, t2, p)].dib > 0
    ensures t1[Moved(slot1, t2, p)].item.key == t2[p].item.key
    ensures Home(t1[Moved(slot1, t2, p)], |t1|) == Home(t2[p], |t2|)
  {
    assert t2[p].item.key in slot2 && t2[p].item.key in slot1;
  }

  lemma MovedInjective(t1: seq<Bucket>, slot1: map<int, nat>, t2: seq<Bucket>, slot2: map<int, nat>, h: int -> nat,
          s: set<int>)
    requires SameKeys(t1, slot1, t2, slot2, h)
    requires forall p :: p in s ==> 0 <= p < |t2| && t2[p].dib > 0
    ensures forall p, r :: p in s && r in s && Moved(slot1, t2, p) == Moved(slot1, t2, r) ==> p == r
  {
    forall p, r | p in s && r in s && Moved(slot1, t2, p) == Moved(slot1, t2, r) ensures p == r {
      MovedSlot(t1, slot1, t2, slot2, h, p);
      MovedSlot(t1, slot1, t2, slot2, h, r);
      assert slot2[t2[p].item.key] == p && slot2[t2[r].item.key] == r;
    }
  }

  // The last empty slot on the way from z to e.
  lemma NearestEmpty(t: seq<Bucket>, z: nat, e: nat) returns (a: nat)
    requires z < |t| && e < |t| && t[z].dib == 0 && t[e].dib > 0
    ensures a < |t| && t[a].dib == 0
    ensures forall p :: p in Arc(a, Dist(a, e, |t|), |t|) ==> t[p].dib > 0
    decreases Dist(z, e, |t|)
  {
    if p :| p in Arc(z, Dist(z, e, |t|), |t|) && t[p].dib == 0 {
      a := NearestEmpty(t, p, e);
    } else {
      a := z;
    }
  }

  // A slot empty in one table is empty in the other: otherwise the keys of a full stretch of m slots
  // ending there would all have to live in the m - 1 slots before it.
  lemma SameEmptySlots(t1: seq<Bucket>, slot1: map<int, nat>, t2: seq<Bucket>, slot2: map<int, nat>, h: int -> nat,
          e: nat)
    requires SameKeys(t1, slot1, t2, slot2, h) && e < |t1| && t1[e].dib == 0
    ensures t2[e].dib == 0
  {
    if t2[e].dib > 0 {
      var n := |t2|;
      var z := EmptySlot(t2, slot2);
      var a := NearestEmpty(t2, z, e);
      var m := Dist(a, e, n);
      forall p | p in Arc(a, m, n) ensures Moved(slot1, t2, p) in Arc(a, m - 1, n) {
        MovedSlot(t1, slot1, t2, slot2, h, p);
        Chain(t2, a, p);
        Chain(t1, e, Moved(slot1, t2, p));
      }
      MovedInjective(t1, slot1, t2, slot2, h, Arc(a, m, n));
      ArcSize(a, m, n);
      ArcSize(a, m - 1, n);
      Pigeonhole(Arc(a, m, n), Arc(a, m - 1, n), p => Moved(slot1, t2, p));
      assert false;
    }
  }

  // The slots up to i, starting after the empty slot z, whose entries have the given home.
  ghost function Residents(t: seq<Bucket>, z: nat, i: nat, home: nat): set<int>
    requires z < |t| && i < |t|
  {
    set p | 0 <= p < |t| && Dist(z, p, |t|) <= Dist(z, i, |t|) && t[p].dib > 0 && Home(t[p], |t|) == home
  }

  // If the tables agree on the slots from z up to i, the first cannot hold a smaller distance at i:
  // it would have one slot fewer for the keys at home where slot i of the second is.
  lemma NotLess(t1: seq<Bucket>, slot1: map<int, nat>, t2: seq<Bucket>, slot2: map<int, nat>, h: int -> nat, z: nat,
          i: nat)
    requires SameKeys(t1, slot1, t2, slot2, h) && z < |t1| && i < |t1|
    requires t1[z].dib == 0 && t2[z].dib == 0
    requires forall p :: 0 <= p < |t1| && Dist(z, p, |t1|) < Dist(z, i, |t1|) ==> t1[p].dib == t2[p].dib
    ensures t1[i].dib >= t2[i].dib
  {
    if t1[i].dib < t2[i].dib {
      var s := Residents(t2, z, i, Home(t2[i], |t2|));
      MovedResidents(t1, slot1, t2, slot2, h, z, i, s);
      MovedInjective(t1, slot1, t2, slot2, h, s);
      Overfull(slot1, t2, s, i);
      assert false;
    }
  }

  lemma Overfull(slot1: map<int, nat>, t2: seq<Bucket>, s: set<int>, i: int)
    requires forall p :: p in s ==> Moved(slot1, t2, p) in s - {i}
    requires forall p, r :: p in s && r in s && Moved(slot1, t2, p) == Moved(slot1, t2, r) ==> p == r
    ensures i !in s
  {
    Pigeonhole(s, s - {i}, p => Moved(slot1, t2, p));
  }

  lemma MovedResidents(t1: seq<Bucket>, slot1: map<int, nat>, t2: seq<Bucket>, slot2: map<int, nat>, h: int -> nat,
          z: nat, i: nat, s: set<int>)
    requires SameKeys(t1, slot1, t2, slot2, h) && z < |t1| && i < |t1|
    requires t1[z].dib == 0 && t2[z].dib == 0 && t1[i].dib < t2[i].dib
    requires forall p :: 0 <= p < |t1| && Dist(z, p, |t1|) < Dist(z, i, |t1|) ==> t1[p].dib == t2[p].dib
    requires s == Residents(t2, z, i, Home(t2[i], |t2|))
    ensures i in s
    ensures forall p :: p in s ==> 0 <= p < |t2| && t2[p].dib > 0
    ensures forall p :: p in s ==> Moved(slot1, t2, p) in s - {i}
  {
    forall p | p in s ensures Moved(slot1, t2, p) in s - {i} {
      MovedResident(t1, slot1, t2, slot2, h, z, i, p);
    }
  }

  lemma MovedResident(t1: seq<Bucket>, slot1: map<int, nat>, t2: seq<Bucket>, slot2: map<int, nat>, h: int -> nat,
          z: nat, i: nat, p: nat)
    requires SameKeys(t1, slot1, t2, slot2, h) && z < |t1| && i < |t1|
    requires t1[z].dib == 0 && t2[z].dib == 0 && t1[i].dib < t2[i].dib
    requires forall p :: 0 <= p < |t1| && Dist(z, p, |t1|) < Dist(z, i, |t1|) ==> t1[p].dib == t2[p].dib
    requires p in Residents(t2, z, i, Home(t2[i], |t2|))
    ensures Moved(slot1, t2, p) in Residents(t2, z, i, Home(t2[i], |t2|)) && Moved(slot1, t2, p) != i
  {
    var n, home, q := |t2|, Home(t2[i], |t2|), Moved(slot1, t2, p);
    MovedSlot(t1, slot1, t2, slot2, h, p);
    Chain(t2, z, i);
    assert t2[i].dib == Dist(home, i, n) + 1;
    assert t1[q].dib == Dist(home, q, n) + 1;
    if Dist(z, q, n) >= Dist(z, i, n) {
      Chain(t1, i, q);
      assert false;
    }
    assert t2[q].dib == Dist(Home(t2[q], n), q, n) + 1;
  }

  lemma {:induction false} SameDistancesUpTo(t1: seq<Bucket>, slot1: map<int, nat>, t2: seq<Bucket>, slot2: map<int,
          nat>, h: int -> nat, z: nat, k: nat)
    requires SameKeys(t1, slot1, t2, slot2, h) && z < |t1| && t1[z].dib == 0 && t2[z].dib == 0
    ensures forall p :: 0 <= p < |t1| && Dist(z, p, |t1|) <= k ==> t1[p].dib == t2[p].dib
  {
    if k > 0 {
      SameDistancesUpTo(t1, slot1, t2, slot2, h, z, k - 1);
      forall p | 0 <= p < |t1| && Dist(z, p, |t1|) == k ensures t1[p].dib == t2[p].dib {
        NotLess(t1, slot1, t2, slot2, h, z, p);
        NotLess(t2, slot2, t1, slot1, h, z, p);
      }
    }
  }

  // Two tables of the same keys. Equal distances at a slot mean equal homes: only entries with the same
  // home can have changed places.
  lemma SameKeysLayout(t1: seq<Bucket>, slot1: map<int, nat>, t2: seq<Bucket>, slot2: map<int, nat>, h: int -> nat)
    requires SameKeys(t1, slot1, t2, slot2, h)
    ensures forall i :: 0 <= i < |t1| ==> t1[i].dib == t2[i].dib
    ensures forall i :: 0 <= i < |t1| && t1[i].dib > 0 ==> Home(t1[i], |t1|) == Home(t2[i], |t2|)
  {
    var z := EmptySlot(t1, slot1);
    SameEmptySlots(t1, slot1, t2, slot2, h, z);
    SameDistancesUpTo(t1, slot1, t2, slot2, h, z, |t1|);
    forall i | 0 <= i < |t1|
      ensures t1[i].dib == t2[i].dib
      ensures t1[i].dib > 0 ==> Home(t1[i], |t1|) == Home(t2[i], |t2|)
    {
      assert Dist(z, i, |t1|) <= |t1|;
    }
  }

  // pi pairs the keys of a second table with those of a first, each with one of the same hash.
  ghost predicate Pairs(pi: map<int, int>, keys1: set<int>, h1: int -> nat, keys2: set<int>, h2: int -> nat) {
    && pi.Keys == keys2
    && (forall k :: k in pi ==> pi[k] in keys1 && h1(pi[k]) == h2(k))
    && (forall k, l :: k in pi && l in pi && pi[k] == pi[l] ==> k == l)
    && (forall k :: k in keys1 ==> exists l :: l in pi && pi[l] == k)
  }

  // The second table with its keys renamed.
  ghost function Renamed(t: seq<Bucket>, pi: map<int, int>): (u: seq<Bucket>)
    ensures |u| == |t|
    ensures forall i :: 0 <= i < |t| ==> u[i].dib == t[i].dib && u[i].hash == t[i].hash
    ensures forall i :: 0 <= i < |t| && t[i].item.key in pi ==> u[i].item.key == pi[t[i].item.key]
  {
    if |t| == 0 then []
    else
      var b := t[|t| - 1];
      Renamed(t[..|t| - 1], pi) + [if b.item.key in pi then b.(item := b.item.(key := pi[b.item.key])) else b]
  }

  ghost function RenamedSlots(slot: map<int, nat>, pi: map<int, int>): (r: map<int, nat>)
    requires pi.Keys == slot.Keys && forall k, l :: k in pi && l in pi && pi[k] == pi[l] ==> k == l
    ensures forall k :: k in slot ==> pi[k] in r && r[pi[k]] == slot[k]
    ensures forall j :: j in r <==> exists k :: k in pi && pi[k] == j
  {
    map k | k in slot :: pi[k] := slot[k]
  }

  lemma RenamedPlaced(t: seq<Bucket>, pi: map<int, int>)
    requires Placed(t) && Ordered(t)
    ensures Placed(Renamed(t, pi)) && Ordered(Renamed(t, pi))
  {
    var u := Renamed(t, pi);
    forall i | 0 <= i < |u| ensures u[Next(i, |u|)].dib <= u[i].dib + 1 {
      assert t[Next(i, |t|)].dib <= t[i].dib + 1;
    }
  }

  lemma RenamedIndexed(t: seq<Bucket>, slot: map<int, nat>, pi: map<int, int>)
    requires Indexed(t, slot) && pi.Keys == slot.Keys
    requires forall k, l :: k in pi && l in pi && pi[k] == pi[l] ==> k == l
    ensures Indexed(Renamed(t, pi), RenamedSlots(slot, pi))
  {
    var u, r := Renamed(t, pi), RenamedSlots(slot, pi);
    forall j | j in r ensures r[j] < |u| && u[r[j]].dib > 0 && u[r[j]].item.key == j {
      var k :| k in pi && pi[k] == j;
      assert slot[k] < |t| && t[slot[k]].item.key == k;
    }
    forall i | 0 <= i < |u| && u[i].dib > 0 ensures u[i].item.key in r && r[u[i].item.key] == i {
      assert t[i].item.key in slot && slot[t[i].item.key] == i;
    }
  }

  lemma RenamedSize(slot: map<int, nat>, pi: map<int, int>)
    requires pi.Keys == slot.Keys && forall k, l :: k in pi && l in pi && pi[k] == pi[l] ==> k == l
    ensures |RenamedSlots(slot, pi)| <= |slot|
  {
    var r := RenamedSlots(slot, pi);
    ImageSize(pi, slot.Keys);
    assert r.Keys == set k | k in slot.Keys :: pi[k];
    assert |r| == |r.Keys| && |slot| == |slot.Keys|;
  }

  lemma {:induction false} ImageSize(pi: map<int, int>, s: set<int>)
    requires s <= pi.Keys
    ensures |set k | k in s :: pi[k]| <= |s|
    decreases |s|
  {
    if s == {} {
      assert (set k | k in s :: pi[k]) == {};
    } else {
      var k := Member(s);
      ImageSize(pi, s - {k});
      assert (set x | x in s :: pi[x]) == (set x | x in s - {k} :: pi[x]) + {pi[k]};
    }
  }

  // The layout theorem: the occupied slots, the distance and the home in each depend only on the number
  // of slots and on the stored hashes. The keys, the hash functions and the histories may differ.
  lemma CanonicalLayout(t1: seq<Bucket>, slot1: map<int, nat>, h1: int -> nat, t2: seq<Bucket>, slot2: map<int, nat>,
          h2: int -> nat, pi: map<int, int>)
    requires Table(t1, slot1, h1) && Table(t2, slot2, h2) && |t1| == |t2|
    requires Pairs(pi, slot1.Keys, h1, slot2.Keys, h2)
    ensures forall i :: 0 <= i < |t1| ==> t1[i].dib == t2[i].dib
    ensures forall i :: 0 <= i < |t1| && t1[i].dib > 0 ==> Home(t1[i], |t1|) == Home(t2[i], |t2|)
  {
    hide Table, Pairs, Home, Renamed, RenamedSlots;
    RenamedTable(t1, slot1, h1, t2, slot2, h2, pi);
    SameKeysLayout(t1, slot1, Renamed(t2, pi), RenamedSlots(slot2, pi), h1);
    SameHomes(t2, pi);
  }

  lemma RenamedTable(t1: seq<Bucket>, slot1: map<int, nat>, h1: int -> nat, t2: seq<Bucket>, slot2: map<int, nat>,
          h2: int -> nat, pi: map<int, int>)
    requires Table(t1, slot1, h1) && Table(t2, slot2, h2) && |t1| == |t2|
    requires Pairs(pi, slot1.Keys, h1, slot2.Keys, h2)
    ensures pi.Keys == slot2.Keys && forall k, l :: k in pi && l in pi && pi[k] == pi[l] ==> k == l
    ensures SameKeys(t1, slot1, Renamed(t2, pi), RenamedSlots(slot2, pi), h1)
  {
    hide Placed, Ordered, Indexed, Hashed, Renamed, RenamedSlots;
    RenamedPlaced(t2, pi);
    RenamedIndexed(t2, slot2, pi);
    RenamedSize(slot2, pi);
    RenamedHashed(t2, slot2, h2, pi, h1);
    PairedKeys(pi, slot1, h1, slot2, h2);
  }

  lemma PairedKeys(pi: map<int, int>, slot1: map<int, nat>, h1: int -> nat, slot2: map<int, nat>, h2: int -> nat)
    requires Pairs(pi, slot1.Keys, h1, slot2.Keys, h2)
    ensures RenamedSlots(slot2, pi).Keys == slot1.Keys
  {
    hide RenamedSlots;
    var r := RenamedSlots(slot2, pi);
    forall j ensures j in r <==> j in slot1 {
      if j in r { var k :| k in pi && pi[k] == j; }
    }
  }

  lemma RenamedHashed(t: seq<Bucket>, slot: map<int, nat>, h: int -> nat, pi: map<int, int>, h1: int -> nat)
    requires Indexed(t, slot) && Hashed(t, h) && pi.Keys == slot.Keys && forall k :: k in pi ==> h1(pi[k]) == h(k)
    ensures Hashed(Renamed(t, pi), h1)
  {
    var u := Renamed(t, pi);
    forall i | 0 <= i < |u| && u[i].dib > 0 ensures u[i].hash == h1(u[i].item.key) {
      assert t[i].item.key in slot;
    }
  }

  lemma SameHomes(t: seq<Bucket>, pi: map<int, int>)
    ensures forall i :: 0 <= i < |t| && |t| > 0 ==> Home(Renamed(t, pi)[i], |t|) == Home(t[i], |t|)
  {}

  // The keys of a set with a given hash.
  ghost function Fibre(keys: set<int>, h: int -> nat, x: nat): set<int> {
    set k | k in keys && h(k) == x
  }

  // Every hash is stored as often in one set of keys as in the other.
  ghost predicate SameHashes(keys1: set<int>, h1: int -> nat, keys2: set<int>, h2: int -> nat) {
    forall x: nat :: |Fibre(keys1, h1, x)| == |Fibre(keys2, h2, x)|
  }

  // Then the keys can be paired.
  lemma {:induction false} Pairing(keys1: set<int>, h1: int -> nat, keys2: set<int>,
          h2: int -> nat) returns (pi: map<int, int>)
    requires SameHashes(keys1, h1, keys2, h2)
    ensures Pairs(pi, keys1, h1, keys2, h2)
    decreases |keys2|
  {
    if keys2 == {} {
      pi := map[];
      forall x: nat ensures Fibre(keys1, h1, x) == {} {
        assert Fibre(keys2, h2, x) == {};
      }
      forall k ensures k in keys1 ==> k in Fibre(keys1, h1, h1(k)) {}
    } else {
      var l := Member(keys2);
      assert l in Fibre(keys2, h2, h2(l));
      assert |Fibre(keys1, h1, h2(l))| > 0;
      var k := Member(Fibre(keys1, h1, h2(l)));
      OneFewer(keys1, h1, k, keys2, h2, l);
      var rest := Pairing(keys1 - {k}, h1, keys2 - {l}, h2);
      pi := rest[l := k];
      forall j | j in keys1 ensures exists i :: i in pi && pi[i] == j {
        if j == k {
          assert l in pi && pi[l] == j;
        } else {
          assert j in keys1 - {k};
          var i :| i in rest && rest[i] == j;
          assert i in pi && pi[i] == j;
        }
      }
    }
  }

  lemma OneFewer(keys1: set<int>, h1: int -> nat, k: int, keys2: set<int>, h2: int -> nat, l: int)
    requires SameHashes(keys1, h1, keys2, h2) && k in keys1 && l in keys2 && h1(k) == h2(l)
    ensures SameHashes(keys1 - {k}, h1, keys2 - {l}, h2)
  {
    forall x: nat ensures |Fibre(keys1 - {k}, h1, x)| == |Fibre(keys2 - {l}, h2, x)| {
      assert Fibre(keys1 - {k}, h1, x) == Fibre(keys1, h1, x) - {k};
      assert Fibre(keys2 - {l}, h2, x) == Fibre(keys2, h2, x) - {l};
    }
  }

  // So tables of one size that store every hash equally often have one layout.
  lemma HashesDecideLayout(t1: seq<Bucket>, slot1: map<int, nat>, h1: int -> nat, t2: seq<Bucket>,
          slot2: map<int, nat>, h2: int -> nat)
    requires Table(t1, slot1, h1) && Table(t2, slot2, h2) && |t1| == |t2|
    requires SameHashes(slot1.Keys, h1, slot2.Keys, h2)
    ensures forall i :: 0 <= i < |t1| ==> t1[i].dib == t2[i].dib
    ensures forall i :: 0 <= i < |t1| && t1[i].dib > 0 ==> Home(t1[i], |t1|) == Home(t2[i], |t2|)
  {
    hide Table, SameHashes, Pairs;
    var pi := Pairing(slot1.Keys, h1, slot2.Keys, h2);
    CanonicalLayout(t1, slot1, h1, t2, slot2, h2, pi);
  }
}
