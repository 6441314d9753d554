// Robin Hood tables as values: what a well-formed circular table is, and what one step of each probe
// loop does to it. The class in HashMap.dfy runs these steps on its bucket array.

module RobinHood {

  // The element stored by the tag module: `tag_table_entry_t`.
  datatype Entry = Entry(key: int, tagKey: int)

  // A bucket is empty when dib is 0; otherwise dib is the distance from the home slot, plus one.
  datatype Bucket = Bucket(hash: nat, dib: nat, item: Entry)

  // Circular arithmetic

  // x & (n - 1) for n a power of two, that is x modulo n; written without division, which keeps
  // non-linear arithmetic out of the proofs.
  function Wrap(x: nat, n: nat): (r: nat)
    requires n > 0
    ensures r < n
  {
    if x < n then x else Wrap(x - n, n)
  }

  lemma {:induction false} WrapIsModulo(x: nat, n: nat)
    requires n > 0
    ensures Wrap(x, n) == x % n
  {
    if x < n {
      SmallModulo(x, n);
    } else {
      WrapIsModulo(x - n, n);
      SubtractModulo(x, n);
    }
  }

  lemma SmallModulo(x: nat, n: nat)
    requires x < n
    ensures x % n == x
  {
  }

  lemma SubtractModulo(x: nat, n: nat)
    requires 0 < n <= x
    ensures (x - n) % n == x % n
  {
    var q, r := (x - n) / n, (x - n) % n;
    assert x == (q + 1) * n + r;
    UniqueRemainder(x, n, q + 1, r);
  }

  lemma UniqueRemainder(x: int, n: int, q: int, r: int)
    requires 0 <= r < n && x == q * n + r
    ensures x % n == r
  {
    var d := x / n - q;
    assert x == (x / n) * n + x % n;
    assert d * n == r - x % n;
    assert d >= 1 ==> d * n >= n;
    assert d <= -1 ==> d * n <= -n;
  }

  function Next(i: nat, n: nat): (r: nat)
    requires i < n
    ensures r < n
  {
    if i + 1 == n then 0 else i + 1
  }

  function Prev(i: nat, n: nat): (r: nat)
    requires i < n
    ensures r < n && Next(r, n) == i
  {
    if i == 0 then n - 1 else i - 1
  }

  lemma WrapNext(i: nat, n: nat)
    requires i < n
    ensures Wrap(i + 1, n) == Next(i, n)
  {
  }

  // Steps forward from a to b.
  function Dist(a: nat, b: nat, n: nat): (r: nat)
    requires a < n && b < n
    ensures r < n
    ensures r == 0 <==> a == b
  {
    if a <= b then b - a else b + n - a
  }

  // Well-formed tables

  function Home(b: Bucket, n: nat): (r: nat)
    requires n > 0
    ensures r < n
  {
    Wrap(b.hash, n)
  }

  // Every stored distance is the distance from home.
  ghost predicate Placed(t: seq<Bucket>) {
    forall i {:trigger t[i]} :: 0 <= i < |t| && t[i].dib > 0 ==> t[i].dib == Dist(Home(t[i], |t|), i, |t|) + 1
  }

  // The Robin Hood invariant: going round the table, a distance grows by at most one.
  ghost predicate Ordered(t: seq<Bucket>) {
    forall i {:trigger Next(i, |t|)} :: 0 <= i < |t| ==> t[Next(i, |t|)].dib <= t[i].dib + 1
  }

  // slot says where each stored key is; no key is stored twice.
  ghost predicate Indexed(t: seq<Bucket>, slot: map<int, nat>) {
    && (forall k {:trigger slot[k]} :: k in slot ==> slot[k] < |t| && t[slot[k]].dib > 0 && t[slot[k]].item.key == k)
    && (forall i {:trigger t[i]} :: 0 <= i < |t| && t[i].dib > 0 ==> t[i].item.key in slot)
    && (forall i {:trigger slot[t[i].item.key]} :: 0 <= i < |t| && t[i].dib > 0 ==> slot[t[i].item.key] == i)
  }

  // Stored hashes are the hashes of the stored keys.
  ghost predicate Hashed(t: seq<Bucket>, h: int -> nat) {
    forall i {:trigger t[i]} :: 0 <= i < |t| && t[i].dib > 0 ==> t[i].hash == h(t[i].item.key)
  }

  // A well-formed table with at least one empty slot.
  ghost predicate Table(t: seq<Bucket>, slot: map<int, nat>, h: int -> nat) {
    && |slot| < |t|
    && Placed(t) && Ordered(t) && Indexed(t, slot) && Hashed(t, h)
  }

  // The finite map a table stands for.
  ghost function Contents(t: seq<Bucket>, slot: map<int, nat>): (m: map<int, int>)
    requires Indexed(t, slot)
    ensures m.Keys == slot.Keys
  {
    map k | k in slot :: t[slot[k]].item.tagKey
  }

  // The table holds exactly the finite map m, of the given size.
  ghost predicate Represents(t: seq<Bucket>, slot: map<int, nat>, h: int -> nat, m: map<int, int>, size: nat) {
    Table(t, slot, h) && m == Contents(t, slot) && size == |slot|
  }

  // Counting

  lemma Member<T>(s: set<T>) returns (x: T)
    requires s != {}
    ensures x in s
  {
    x :| x in s;
  }

  // An injective function into a finite set cannot come from a larger one.
  lemma {:induction false} Pigeonhole<S, T>(s: set<S>, t: set<T>, f: S -> T)
    requires forall x :: x in s ==> f(x) in t
    requires forall x, y :: x in s && y in s && f(x) == f(y) ==> x == y
    ensures |s| <= |t|
    decreases |s|
  {
    if |s| > 0 {
      var x :| x in s;
      Pigeonhole(s - {x}, t - {f(x)}, f);
    }
  }

  // The m slots that follow slot a.
  ghost function Arc(a: nat, m: nat, n: nat): set<int>
    requires a < n
  {
    set p | 0 <= p < n && 1 <= Dist(a, p, n) <= m
  }

  lemma {:induction false} ArcSize(a: nat, m: nat, n: nat)
    requires a < n && m < n
    ensures |Arc(a, m, n)| == m
  {
    if m == 0 {
      assert Arc(a, m, n) == {};
    } else {
      ArcSize(a, m - 1, n);
      var p: int := if a + m < n then a + m else a + m - n;
      assert Arc(a, m, n) == Arc(a, m - 1, n) + {p};
    }
  }

  ghost function KeyAt(t: seq<Bucket>): int -> int {
    i => if 0 <= i < |t| then t[i].item.key else 0
  }

  ghost function AllSlots(n: nat): (s: set<int>)
    ensures forall i :: i in s <==> 0 <= i < n
    ensures |s| == n
  {
    if n == 0 then {} else AllSlots(n - 1) + {n - 1}
  }

  // A table with fewer keys than slots has an empty slot.
  lemma EmptySlot(t: seq<Bucket>, slot: map<int, nat>) returns (z: nat)
    requires Indexed(t, slot) && |slot| < |t|
    ensures z < |t| && t[z].dib == 0
  {
    if forall i :: 0 <= i < |t| ==> t[i].dib > 0 {
      Pigeonhole(AllSlots(|t|), slot.Keys, KeyAt(t));
      assert false;
    }
    z :| z < |t| && t[z].dib == 0;
  }

  // Distances

  // Over d steps a distance grows by at most d.
  lemma {:induction false} Chain(t: seq<Bucket>, i: nat, j: nat)
    requires Ordered(t) && i < |t| && j < |t|
    ensures t[j].dib <= t[i].dib + Dist(i, j, |t|)
    decreases Dist(i, j, |t|)
  {
    if i != j {
      Chain(t, i, Prev(j, |t|));
    }
  }

  // A stored distance is at most the number of stored keys.
  lemma DistanceBound(t: seq<Bucket>, slot: map<int, nat>, h: int -> nat, i: nat)
    requires Table(t, slot, h) && i < |t|
    ensures t[i].dib <= |slot|
  {
    var n := |t|;
    var d := t[i].dib;
    if d > 0 {
      var a := Prev(Home(t[i], n), n);
      if d < n {
        var arc := Arc(a, d, n);
        ArcSize(a, d, n);
        forall p | p in arc ensures t[p].dib > 0 {
          Chain(t, p, i);
        }
        Pigeonhole(arc, slot.Keys, KeyAt(t));
      } else {
        var z := EmptySlot(t, slot);
        Chain(t, z, i);
      }
    }
  }

  // Insertion

  // Entry e, whose key is not in the table, has been carried as far as slot i.
  ghost predicate Flight(t: seq<Bucket>, slot: map<int, nat>, h: int -> nat, e: Bucket, i: nat) {
    && i < |t|
    && e.item.key !in slot && e.hash == h(e.item.key)
    && e.dib == Dist(Home(e, |t|), i, |t|) + 1
    && (e.dib > 1 ==> e.dib <= t[Prev(i, |t|)].dib + 1)
  }

  // The map that the table will stand for once e has found its place.
  ghost function Pending(t: seq<Bucket>, slot: map<int, nat>, e: Bucket): map<int, int>
    requires Indexed(t, slot)
  {
    Contents(t, slot)[e.item.key := e.item.tagKey]
  }

  // The index after e has taken slot i from the entry with key out.
  ghost function Displace(slot: map<int, nat>, out: int, e: Bucket, i: nat): map<int, nat> {
    (slot - {out})[e.item.key := i]
  }

  lemma PutOrdered(t: seq<Bucket>, slot: map<int, nat>, h: int -> nat, e: Bucket, i: nat)
    requires Table(t, slot, h) && Flight(t, slot, h, e, i) && t[i].dib < e.dib
    ensures Ordered(t[i := e])
  {
    var u := t[i := e];
    forall j | 0 <= j < |u| ensures u[Next(j, |u|)].dib <= u[j].dib + 1 {
      assert t[Next(j, |t|)].dib <= t[j].dib + 1;
    }
  }

  lemma PutIndexed(t: seq<Bucket>, slot: map<int, nat>, rest: map<int, nat>, e: Bucket, i: nat)
    requires Indexed(t, slot) && i < |t| && e.dib > 0 && e.item.key !in slot
    requires rest == if t[i].dib > 0 then slot - {t[i].item.key} else slot
    ensures Indexed(t[i := e], rest[e.item.key := i])
    ensures |rest[e.item.key := i]| == |rest| + 1
  {
    var slot' := rest[e.item.key := i];
    assert slot'.Keys == rest.Keys + {e.item.key};
    forall k | k in slot'
      ensures slot'[k] < |t| && t[i := e][slot'[k]].dib > 0 && t[i := e][slot'[k]].item.key == k
    {
      if k != e.item.key { assert k in rest && slot'[k] == slot[k]; }
    }
  }

  lemma PutContents(t: seq<Bucket>, slot: map<int, nat>, rest: map<int, nat>, e: Bucket, i: nat)
    requires Indexed(t, slot) && i < |t| && e.dib > 0 && e.item.key !in slot
    requires rest == if t[i].dib > 0 then slot - {t[i].item.key} else slot
    requires Indexed(t[i := e], rest[e.item.key := i])
    ensures Contents(t[i := e], rest[e.item.key := i])
         == (if t[i].dib > 0 then Contents(t, slot) - {t[i].item.key}
             else Contents(t, slot))[e.item.key := e.item.tagKey]
  {
    var slot' := rest[e.item.key := i];
    forall k | k in slot' && k != e.item.key
      ensures Contents(t[i := e], slot')[k] == Contents(t, slot)[k]
    {
      assert k in rest && slot'[k] == slot[k] != i;
    }
  }

  lemma PutPlaced(t: seq<Bucket>, slot: map<int, nat>, h: int -> nat, e: Bucket, i: nat)
    requires Placed(t) && Hashed(t, h) && Flight(t, slot, h, e, i)
    ensures Placed(t[i := e]) && Hashed(t[i := e], h)
  {}

  // The entry takes an empty slot.
  lemma Place(t: seq<Bucket>, slot: map<int, nat>, h: int -> nat, e: Bucket, i: nat)
    requires Table(t, slot, h) && Flight(t, slot, h, e, i) && t[i].dib == 0
    requires |slot| + 1 < |t|
    ensures Table(t[i := e], slot[e.item.key := i], h)
    ensures Contents(t[i := e], slot[e.item.key := i]) == Pending(t, slot, e)
    ensures |slot[e.item.key := i]| == |slot| + 1
  {
    PutOrdered(t, slot, h, e, i);
    PutPlaced(t, slot, h, e, i);
    PutIndexed(t, slot, slot, e, i);
    PutContents(t, slot, slot, e, i);
    hide Placed, Ordered, Indexed, Hashed, Contents;
  }

  // The entry takes the slot of one closer to home, which is carried on from the next slot.
  lemma Swap(t: seq<Bucket>, slot: map<int, nat>, h: int -> nat, e: Bucket, i: nat)
    requires Table(t, slot, h) && Flight(t, slot, h, e, i) && 0 < t[i].dib < e.dib
    ensures var b := t[i]; var t', slot' := t[i := e], Displace(slot, b.item.key, e, i);
            && Table(t', slot', h)
            && Flight(t', slot', h, b.(dib := b.dib + 1), Next(i, |t|))
            && Pending(t', slot', b) == Pending(t, slot, e)
            && |slot'| == |slot|
  {
    SwapFlight(t, slot, h, e, i);
    SwapIndexed(t, slot, e, i);
    PutOrdered(t, slot, h, e, i);
    PutPlaced(t, slot, h, e, i);
    hide Placed, Ordered, Indexed, Hashed, Flight, Pending, Displace;
  }

  lemma SwapIndexed(t: seq<Bucket>, slot: map<int, nat>, e: Bucket, i: nat)
    requires Indexed(t, slot) && i < |t| && 0 < t[i].dib < e.dib && e.item.key !in slot
    ensures var b := t[i]; var t', slot' := t[i := e], Displace(slot, b.item.key, e, i);
            && Indexed(t', slot') && Pending(t', slot', b) == Pending(t, slot, e) && |slot'| == |slot|
  {
    var rest := slot - {t[i].item.key};
    assert rest.Keys == slot.Keys - {t[i].item.key};
    assert |rest| == |rest.Keys| && |slot| == |slot.Keys|;
    PutIndexed(t, slot, rest, e, i);
    PutContents(t, slot, rest, e, i);
    SwapPending(t, slot, e, i);
    hide Indexed;
  }

  // What the displaced entry still stands for is in the map aimed at.
  lemma SwapPending(t: seq<Bucket>, slot: map<int, nat>, e: Bucket, i: nat)
    requires Indexed(t, slot) && i < |t| && t[i].dib > 0 && e.item.key !in slot
    ensures var b := t[i]; var m := (Contents(t, slot) - {b.item.key})[e.item.key := e.item.tagKey];
            m[b.item.key := b.item.tagKey] == Pending(t, slot, e)
  {
    var b := t[i];
    assert b.item.key in slot && slot[b.item.key] == i;
  }

  lemma SwapFlight(t: seq<Bucket>, slot: map<int, nat>, h: int -> nat, e: Bucket, i: nat)
    requires Table(t, slot, h) && Flight(t, slot, h, e, i) && 0 < t[i].dib < e.dib
    ensures Flight(t[i := e], Displace(slot, t[i].item.key, e, i), h, t[i].(dib := t[i].dib + 1), Next(i, |t|))
  {
    FlightBound(t, slot, h, e, i);
    assert t[i].item.key in slot;
    hide Ordered, Indexed;
  }

  lemma Pass(t: seq<Bucket>, slot: map<int, nat>, h: int -> nat, e: Bucket, i: nat)
    requires Table(t, slot, h) && Flight(t, slot, h, e, i) && e.dib <= t[i].dib
    ensures Flight(t, slot, h, e.(dib := e.dib + 1), Next(i, |t|))
  {
    FlightBound(t, slot, h, e, i);
  }

  // An entry in flight is at most one step further from home than there are stored keys, and it
  // never completes a round of the table.
  lemma FlightBound(t: seq<Bucket>, slot: map<int, nat>, h: int -> nat, e: Bucket, i: nat)
    requires Table(t, slot, h) && Flight(t, slot, h, e, i)
    ensures e.dib <= |slot| + 1
    ensures t[i].dib > 0 ==> e.dib < |t|
  {
    DistanceBound(t, slot, h, Prev(i, |t|));
    if t[i].dib > 0 {
      var z := EmptySlot(t, slot);
      Chain(t, z, Prev(i, |t|));
    }
  }

  // A probe for a stored key meets only occupied slots on the way, each at least as far from home as
  // the probe is: a set that carries the key of a stored entry cannot swap before it reaches it.
  lemma ProbePath(t: seq<Bucket>, slot: map<int, nat>, h: int -> nat, key: int, i: nat)
    requires Table(t, slot, h) && key in slot && i < |t|
    requires Dist(Wrap(h(key), |t|), i, |t|) <= Dist(Wrap(h(key), |t|), slot[key], |t|)
    ensures t[i].dib >= Dist(Wrap(h(key), |t|), i, |t|) + 1
  {
    Chain(t, i, slot[key]);
  }

  // Deletion

  // The table is well formed except for a hole at slot x, whatever bucket x still holds.
  ghost predicate Holed(t: seq<Bucket>, slot: map<int, nat>, h: int -> nat, x: nat) {
    && x < |t| && |slot| + 1 < |t|
    && var u := t[x := t[x].(dib := 0)];
      && Placed(u) && Indexed(u, slot) && Hashed(u, h)
      && (forall i {:trigger Next(i, |t|)} :: 0 <= i < |t| && i != x ==> u[Next(i, |t|)].dib <= u[i].dib + 1)
      && t[Next(x, |t|)].dib <= t[Prev(x, |t|)].dib + 2
  }

  ghost function HoledContents(t: seq<Bucket>, slot: map<int, nat>, h: int -> nat, x: nat): map<int, int>
    requires Holed(t, slot, h, x)
  {
    Contents(t[x := t[x].(dib := 0)], slot)
  }

  lemma Open(t: seq<Bucket>, slot: map<int, nat>, h: int -> nat, key: int)
    requires Table(t, slot, h) && key in slot
    ensures var x := slot[key];
            && Holed(t[x := t[x].(dib := 0)], slot - {key}, h, x)
            && HoledContents(t[x := t[x].(dib := 0)], slot - {key}, h, x) == Contents(t, slot) - {key}
            && |slot - {key}| == |slot| - 1
  {
    var x := slot[key];
    var u := t[x := t[x].(dib := 0)];
    OpenIndexed(t, slot, key);
    assert u[x := u[x].(dib := 0)] == u;
    forall i | 0 <= i < |t| && i != x ensures u[Next(i, |t|)].dib <= u[i].dib + 1 {
      assert t[Next(i, |t|)].dib <= t[i].dib + 1;
    }
    assert t[Next(x, |t|)].dib <= t[x].dib + 1;
    assert t[Next(Prev(x, |t|), |t|)].dib <= t[Prev(x, |t|)].dib + 1;
    if |t| == 1 { var z := EmptySlot(t, slot); }
  }

  lemma OpenIndexed(t: seq<Bucket>, slot: map<int, nat>, key: int)
    requires Indexed(t, slot) && key in slot
    ensures Indexed(t[slot[key] := t[slot[key]].(dib := 0)], slot - {key})
    ensures Contents(t[slot[key] := t[slot[key]].(dib := 0)], slot - {key}) == Contents(t, slot) - {key}
    ensures |slot - {key}| == |slot| - 1
  {
    var u, rest := t[slot[key] := t[slot[key]].(dib := 0)], slot - {key};
    assert rest.Keys == slot.Keys - {key};
    assert |rest| == |rest.Keys| && |slot| == |slot.Keys|;
    forall k | k in rest ensures rest[k] == slot[k] != slot[key] && u[rest[k]] == t[slot[k]] {
      assert t[slot[k]].item.key == k && t[slot[key]].item.key == key;
    }
    OpenedContents(t, slot, key, u, rest);
  }

  lemma OpenedContents(t: seq<Bucket>, slot: map<int, nat>, key: int, u: seq<Bucket>, rest: map<int, nat>)
    requires Indexed(t, slot) && key in slot && rest == slot - {key} && Indexed(u, rest)
    requires forall k :: k in rest ==> u[rest[k]] == t[slot[k]]
    ensures Contents(u, rest) == Contents(t, slot) - {key}
  {
    assert Contents(u, rest).Keys == (Contents(t, slot) - {key}).Keys;
    forall k | k in rest ensures Contents(u, rest)[k] == (Contents(t, slot) - {key})[k] {}
  }

  // The bucket after the hole moves back into it, one step nearer home.
  lemma Shift(t: seq<Bucket>, slot: map<int, nat>, h: int -> nat, x: nat, e: Bucket)
    requires Holed(t, slot, h, x) && t[Next(x, |t|)].dib > 1
    requires e == t[Next(x, |t|)].(dib := t[Next(x, |t|)].dib - 1)
    ensures Holed(t[x := e], slot[e.item.key := x], h, Next(x, |t|))
    ensures HoledContents(t[x := e], slot[e.item.key := x], h, Next(x, |t|)) == HoledContents(t, slot, h, x)
    ensures |slot[e.item.key := x]| == |slot|
  {
    var y := Next(x, |t|);
    var u := t[x := t[x].(dib := 0)];
    var v := u[y := t[y].(dib := 0)];
    assert t[x := e][y := t[y].(dib := 0)] == v[x := e];
    assert slot[t[y].item.key] == y by { assert u[y] == t[y]; }
    ShiftOrdered(u, x, y, e, v);
    ShiftIndexed(u, slot, x, y, e, v);
    ShiftPlaced(u, h, x, y, e, v);
  }

  ghost predicate Shifting(u: seq<Bucket>, x: nat, y: nat, e: Bucket, v: seq<Bucket>) {
    && x < |u| && y == Next(x, |u|) != x && u[x].dib == 0 && u[y].dib > 1
    && e == u[y].(dib := u[y].dib - 1)
    && v == u[y := u[y].(dib := 0)]
  }

  lemma ShiftOrdered(u: seq<Bucket>, x: nat, y: nat, e: Bucket, v: seq<Bucket>)
    requires Shifting(u, x, y, e, v)
    requires u[y].dib <= u[Prev(x, |u|)].dib + 2
    requires forall i {:trigger Next(i, |u|)} :: 0 <= i < |u| && i != x ==> u[Next(i, |u|)].dib <= u[i].dib + 1
    ensures forall i {:trigger Next(i, |u|)} :: 0 <= i < |u| && i != y ==>
            v[x := e][Next(i, |u|)].dib <= v[x := e][i].dib + 1
    ensures v[x := e][Next(y, |u|)].dib <= v[x := e][Prev(y, |u|)].dib + 2
  {
    assert u[Next(y, |u|)].dib <= u[y].dib + 1;
  }

  lemma ShiftPlaced(u: seq<Bucket>, h: int -> nat, x: nat, y: nat, e: Bucket, v: seq<Bucket>)
    requires Shifting(u, x, y, e, v) && Placed(u) && Hashed(u, h)
    ensures Placed(v[x := e]) && Hashed(v[x := e], h)
  {
  }

  lemma ShiftIndexed(u: seq<Bucket>, slot: map<int, nat>, x: nat, y: nat, e: Bucket, v: seq<Bucket>)
    requires Shifting(u, x, y, e, v) && Indexed(u, slot)
    ensures Indexed(v[x := e], slot[e.item.key := x])
    ensures Contents(v[x := e], slot[e.item.key := x]) == Contents(u, slot)
    ensures |slot[e.item.key := x]| == |slot|
  {
    var key := e.item.key;
    var rest := slot - {key};
    assert slot[key] == y;
    OpenIndexed(u, slot, key);
    PutIndexed(v, rest, rest, e, x);
    PutContents(v, rest, rest, e, x);
    assert rest[key := x] == slot[key := x];
    assert (Contents(u, slot) - {key})[key := e.item.tagKey] == Contents(u, slot);
  }

  lemma Close(t: seq<Bucket>, slot: map<int, nat>, h: int -> nat, x: nat)
    requires Holed(t, slot, h, x) && t[Next(x, |t|)].dib <= 1
    ensures Table(t[x := t[x].(dib := 0)], slot, h)
    ensures Contents(t[x := t[x].(dib := 0)], slot) == HoledContents(t, slot, h, x)
  {
  }
}
