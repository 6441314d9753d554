// The descriptor registry: the bit mask of descriptors, the map from keys to descriptors and the array
// of published tags, which tag_get, TAG_DELETE and their rollback paths update in separate critical
// sections.
//
// Each method is one critical section or one unlocked store of one call; `calls` holds the local
// variables of the calls in progress between their critical sections, by thread. Any interleaving of
// any number of calls is a sequence of these methods.

module Registries {
  import opened RobinHood
  import opened Probing
  import opened Sizes
  import opened HashMaps
  import opened Bitmasks

  const MAX_TAGS: nat := 256
  const HASHMAP_CAP: nat := 512  // MAX_TAGS * 2
  const IPC_PRIVATE: int := 0
  const SEED0: nat := 401861
  const SEED1: nat := 879023

  datatype Errno = EINVAL | EINTR | EMAXTAG | EPROTO | EBUSY | ENOMEM | ENODATA | EPERM

  // What a step returns to the caller of the system call: an error, a value, or nothing yet.
  datatype Outcome = Failed(error: Errno) | Returned(value: int) | Continues

  // The fields of a published tag that the registry uses.
  datatype Tag = Tag(key: int, tagKey: int)

  // A call between two of its steps.
  datatype Call =
    | Creating(key: int, tagKey: int)  // descriptor reserved, tag not yet published
    | Deleting(key: int, tagKey: int)  // tag taken out of the array, descriptor not yet released

  // Who answers for a reserved descriptor.
  datatype Owner =
    | InCall(key: int, thread: int)
    | Published(key: int)
    | Stranded(key: int)               // its creator was killed while rolling back

  // The structures agree with each other and with the calls in progress, through the one owner of each
  // reserved descriptor.
  ghost predicate Agree(owners: map<int, Owner>, calls: map<int, Call>, model: map<int, int>, taken: set<int>,
          slots: seq<Option<Tag>>) {
    && owners.Keys == taken && |slots| == MAX_TAGS
    && (forall d {:trigger owners[d]} :: d in owners ==> 0 <= d < MAX_TAGS && Answers(owners, calls, model, slots, d))
    && (forall t {:trigger calls[t]} :: t in calls ==>
          calls[t].tagKey in owners && owners[calls[t].tagKey] == InCall(calls[t].key, t))
    && (forall d :: 0 <= d < MAX_TAGS && slots[d] != None ==> d in owners && owners[d].Published?)
    && (forall k :: k in model ==> k != IPC_PRIVATE && model[k] in owners && owners[model[k]].key == k)
  }

  // The owner of descriptor d is where it should be, and the key of d, unless private, maps to d.
  ghost predicate Answers(owners: map<int, Owner>, calls: map<int, Call>, model: map<int, int>, slots: seq<Option<Tag>>,
          d: int)
    requires d in owners && 0 <= d < |slots|
  {
    && (match owners[d]
        case InCall(key, t) => t in calls && calls[t].key == key && calls[t].tagKey == d && slots[d] == None
        case Published(key) => slots[d] == Some(Tag(key, d))
        case Stranded(_) => slots[d] == None)
    && (owners[d].key != IPC_PRIVATE ==> owners[d].key in model && model[owners[d].key] == d)
  }

  lemma ReserveAgrees(owners: map<int, Owner>, calls: map<int, Call>, model: map<int, int>, taken: set<int>,
          slots: seq<Option<Tag>>, t: int, key: int, d: int)
    requires Agree(owners, calls, model, taken, slots) && t !in calls && d !in taken && 0 <= d < MAX_TAGS
    requires key !in model
    ensures Agree(owners[d := InCall(key, t)], calls[t := Creating(key, d)],
                  if key == IPC_PRIVATE then model else model[key := d], taken + {d}, slots)
  {
    var model' := if key == IPC_PRIVATE then model else model[key := d];
    forall e | e in owners
      ensures Answers(owners[d := InCall(key, t)], calls[t := Creating(key, d)], model', slots, e)
    {
      assert Answers(owners, calls, model, slots, e);
    }
  }

  // A call ends and its descriptor passes to its new owner: the array, or nobody who will release it.
  lemma HandOver(owners: map<int, Owner>, calls: map<int, Call>, model: map<int, int>, taken: set<int>,
          slots: seq<Option<Tag>>, t: int, publish: bool)
    requires Agree(owners, calls, model, taken, slots) && t in calls
    ensures var c := calls[t];
            && 0 <= c.tagKey < MAX_TAGS && c.tagKey in owners && slots[c.tagKey] == None
            && Agree(owners[c.tagKey := if publish then Published(c.key) else Stranded(c.key)], calls - {t}, model,
                     taken,
                     if publish then slots[c.tagKey := Some(Tag(c.key, c.tagKey))] else slots)
  {
    var c := calls[t];
    var owners' := owners[c.tagKey := if publish then Published(c.key) else Stranded(c.key)];
    var slots' := if publish then slots[c.tagKey := Some(Tag(c.key, c.tagKey))] else slots;
    assert owners[c.tagKey] == InCall(c.key, t) && Answers(owners, calls, model, slots, c.tagKey);
    forall e | e in owners ensures Answers(owners', calls - {t}, model, slots', e) {
      assert Answers(owners, calls, model, slots, e);
    }
    forall u | u in calls - {t}
      ensures calls[u].tagKey in owners' && owners'[calls[u].tagKey] == InCall(calls[u].key, u)
    {
      assert owners[calls[u].tagKey] == InCall(calls[u].key, u);
    }
  }

  // A published tag is taken out by a deleting call.
  lemma TakeOut(owners: map<int, Owner>, calls: map<int, Call>, model: map<int, int>, taken: set<int>,
          slots: seq<Option<Tag>>, t: int, d: int)
    requires Agree(owners, calls, model, taken, slots) && t !in calls && 0 <= d < MAX_TAGS && slots[d] != None
    ensures var tag := slots[d].value;
            && tag.tagKey == d
            && Agree(owners[d := InCall(tag.key, t)], calls[t := Deleting(tag.key, tag.tagKey)], model, taken,
                     slots[d := None])
  {
    var tag := slots[d].value;
    assert Answers(owners, calls, model, slots, d);
    var owners', calls' := owners[d := InCall(tag.key, t)], calls[t := Deleting(tag.key, d)];
    forall e | e in owners ensures Answers(owners', calls', model, slots[d := None], e) {
      assert Answers(owners, calls, model, slots, e);
    }
    forall u | u in calls'
      ensures calls'[u].tagKey in owners' && owners'[calls'[u].tagKey] == InCall(calls'[u].key, u)
    {
      if u != t { assert owners[calls[u].tagKey] == InCall(calls[u].key, u); }
    }
  }

  // What clear_tag_common finds for the descriptor of a call in progress: no mismatch and no free bit.
  lemma ReleaseFinds(owners: map<int, Owner>, calls: map<int, Call>, model: map<int, int>, taken: set<int>,
          slots: seq<Option<Tag>>, t: int)
    requires Agree(owners, calls, model, taken, slots) && t in calls
    ensures var c := calls[t];
            && 0 <= c.tagKey < MAX_TAGS && c.tagKey in taken
            && (c.key != IPC_PRIVATE ==> c.key in model && model[c.key] == c.tagKey)
            && (c.key == IPC_PRIVATE ==> c.key !in model)
  {
    assert Answers(owners, calls, model, slots, calls[t].tagKey);
  }

  lemma ReleaseAgrees(owners: map<int, Owner>, calls: map<int, Call>, model: map<int, int>, taken: set<int>,
          slots: seq<Option<Tag>>, t: int)
    requires Agree(owners, calls, model, taken, slots) && t in calls
    ensures var c := calls[t]; Agree(owners - {c.tagKey}, calls - {t}, model - {c.key}, taken - {c.tagKey}, slots)
  {
    ReleaseFinds(owners, calls, model, taken, slots, t);
    var c := calls[t];
    var owners', calls', model' := owners - {c.tagKey}, calls - {t}, model - {c.key};
    assert Answers(owners, calls, model, slots, c.tagKey);
    forall e | e in owners' ensures Answers(owners', calls', model', slots, e) {
      assert Answers(owners, calls, model, slots, e);
    }
    forall u | u in calls'
      ensures calls'[u].tagKey in owners' && owners'[calls'[u].tagKey] == InCall(calls'[u].key, u)
    {
      assert owners[calls[u].tagKey] == InCall(calls[u].key, u);
    }
    forall k | k in model' ensures k != IPC_PRIVATE && model'[k] in owners' && owners'[model'[k]].key == k {
      assert owners[model[k]].key == k;
    }
  }

  // ----- the registry as a whole -----

  datatype Snapshot = Snapshot(owners: map<int, Owner>, calls: map<int, Call>, model: map<int, int>, taken: set<int>,
                               slots: seq<Option<Tag>>)

  // What the critical sections that change something do.
  datatype Change =
    | Reserves(thread: int, key: int, d: int)  // tag_get, up to the release of common_lock
    | Publishes(thread: int)                   // tag_get, the store to tags[]
    | Abandons(thread: int)                    // tag_get, rolled back
    | Strands(thread: int)                     // tag_get, killed while rolling back
    | Detaches(thread: int, d: int)            // TAG_DELETE, up to the release of the tag's lock
    | Releases(thread: int)                    // TAG_DELETE, the rest
    | Restores(thread: int)                    // TAG_DELETE, killed and put back

  ghost predicate Coherent(g: Snapshot) { Agree(g.owners, g.calls, g.model, g.taken, g.slots) }

  ghost predicate Allowed(g: Snapshot, r: Change) {
    match r
    case Reserves(t, key, d) => t !in g.calls && 0 <= d < MAX_TAGS && d !in g.taken && key !in g.model
    case Publishes(t) => t in g.calls && g.calls[t].Creating?
    case Abandons(t) => t in g.calls && g.calls[t].Creating?
    case Strands(t) => t in g.calls && g.calls[t].Creating?
    case Detaches(t, d) => t !in g.calls && 0 <= d < |g.slots| && g.slots[d] != None
    case Releases(t) => t in g.calls && g.calls[t].Deleting?
    case Restores(t) => t in g.calls && g.calls[t].Deleting?
  }

  ghost function Changed(g: Snapshot, r: Change): Snapshot
    requires Allowed(g, r)
  {
    match r
    case Reserves(t, key, d) =>
      Snapshot(g.owners[d := InCall(key, t)], g.calls[t := Creating(key, d)],
               if key == IPC_PRIVATE then g.model else g.model[key := d], g.taken + {d}, g.slots)
    case Publishes(t) => Stored(g, t)
    case Abandons(t) => Dismissed(g, t)
    case Strands(t) => g.(owners := g.owners[g.calls[t].tagKey := Stranded(g.calls[t].key)], calls := g.calls - {t})
    case Detaches(t, d) =>
      var tag := g.slots[d].value;
      g.(owners := g.owners[d := InCall(tag.key, t)], calls := g.calls[t := Deleting(tag.key, tag.tagKey)],
         slots := g.slots[d := None])
    case Releases(t) => Dismissed(g, t)
    case Restores(t) => Stored(g, t)
  }

  // The slot of the descriptor of a call is empty.
  ghost predicate NullSlot(g: Snapshot, t: int) {
    t in g.calls && 0 <= g.calls[t].tagKey < |g.slots| && g.slots[g.calls[t].tagKey] == None
  }

  // The tag of a call is stored in the array.
  ghost function Stored(g: Snapshot, t: int): Snapshot
    requires t in g.calls
  {
    var c := g.calls[t];
    g.(owners := g.owners[c.tagKey := Published(c.key)], calls := g.calls - {t},
       slots := if 0 <= c.tagKey < |g.slots| then g.slots[c.tagKey := Some(Tag(c.key, c.tagKey))] else g.slots)
  }

  // The descriptor and the key of a call are given back.
  ghost function Dismissed(g: Snapshot, t: int): Snapshot
    requires t in g.calls
  {
    var c := g.calls[t];
    Snapshot(g.owners - {c.tagKey}, g.calls - {t}, g.model - {c.key}, g.taken - {c.tagKey}, g.slots)
  }

  // Every change, by any call, keeps the structures in agreement.
  lemma ChangedAgrees(g: Snapshot, r: Change)
    requires Coherent(g) && Allowed(g, r)
    ensures Coherent(Changed(g, r))
  {
    hide Agree;
    match r
    case Reserves(t, key, d) => ReserveAgrees(g.owners, g.calls, g.model, g.taken, g.slots, t, key, d);
    case Publishes(t) =>
      HandOver(g.owners, g.calls, g.model, g.taken, g.slots, t, true);
      AgreeKeys(g.owners, g.calls, g.model, g.taken, g.slots);
    case Abandons(t) => ReleaseAgrees(g.owners, g.calls, g.model, g.taken, g.slots, t);
    case Strands(t) => HandOver(g.owners, g.calls, g.model, g.taken, g.slots, t, false);
    case Detaches(t, d) =>
      AgreeKeys(g.owners, g.calls, g.model, g.taken, g.slots);
      TakeOut(g.owners, g.calls, g.model, g.taken, g.slots, t, d);
    case Releases(t) => ReleaseAgrees(g.owners, g.calls, g.model, g.taken, g.slots, t);
    case Restores(t) =>
      HandOver(g.owners, g.calls, g.model, g.taken, g.slots, t, true);
      AgreeKeys(g.owners, g.calls, g.model, g.taken, g.slots);
  }

  ghost predicate Empty(g: Snapshot) {
    g.owners == map[] && g.calls == map[] && g.model == map[] && g.taken == {} && g.slots == seq(MAX_TAGS, _ => None)
  }

  // The registry just initialised, and one change after another, by any calls in any order.
  ghost predicate History(gs: seq<Snapshot>, rs: seq<Change>) {
    && |gs| == |rs| + 1 && Empty(gs[0])
    && forall k :: 0 <= k < |rs| ==> Allowed(gs[k], rs[k]) && gs[k + 1] == Changed(gs[k], rs[k])
  }

  // In every state of every history the structures agree: each reserved descriptor has one owner, and
  // distinct keys have distinct descriptors.
  lemma {:induction false} AlwaysCoherent(gs: seq<Snapshot>, rs: seq<Change>, k: nat)
    requires History(gs, rs) && k < |gs|
    ensures Coherent(gs[k]) && gs[k].owners.Keys == gs[k].taken
    ensures forall key, l :: key in gs[k].model && l in gs[k].model && gs[k].model[key] == gs[k].model[l] ==> key == l
  {
    hide Agree;
    if k == 0 {
      EmptyAgrees(gs[0]);
    } else {
      AlwaysCoherent(gs, rs, k - 1);
      ChangedAgrees(gs[k - 1], rs[k - 1]);
    }
    var g := gs[k];
    AgreeKeys(g.owners, g.calls, g.model, g.taken, g.slots);
    KeysBound(g.owners, g.calls, g.model, g.taken, g.slots);
  }

  lemma EmptyAgrees(g: Snapshot)
    requires Empty(g)
    ensures Coherent(g)
  {}

  lemma AgreeKeys(owners: map<int, Owner>, calls: map<int, Call>, model: map<int, int>, taken: set<int>,
          slots: seq<Option<Tag>>)
    requires Agree(owners, calls, model, taken, slots)
    ensures owners.Keys == taken && IPC_PRIVATE !in model && |slots| == MAX_TAGS
  {
  }

  lemma AgreeFacts(owners: map<int, Owner>, calls: map<int, Call>, model: map<int, int>, taken: set<int>,
          slots: seq<Option<Tag>>)
    requires Agree(owners, calls, model, taken, slots)
    ensures owners.Keys == taken && IPC_PRIVATE !in model && |slots| == MAX_TAGS
    ensures forall d :: 0 <= d < MAX_TAGS ==> (slots[d] != None <==> d in owners && owners[d].Published?)
    ensures forall d :: 0 <= d < MAX_TAGS && slots[d] != None ==> slots[d] == Some(Tag(owners[d].key, d))
  {
    forall d | 0 <= d < MAX_TAGS
      ensures slots[d] != None <==> d in owners && owners[d].Published?
      ensures slots[d] != None ==> slots[d] == Some(Tag(owners[d].key, d))
    {
      if d in owners { assert Answers(owners, calls, model, slots, d); }
    }
  }

  // There are at most as many keys as descriptors.
  lemma KeysBound(owners: map<int, Owner>, calls: map<int, Call>, model: map<int, int>, taken: set<int>,
          slots: seq<Option<Tag>>)
    requires Agree(owners, calls, model, taken, slots)
    ensures forall k :: k in model ==> 0 <= model[k] < MAX_TAGS
    ensures forall k, l :: k in model && l in model && model[k] == model[l] ==> k == l
    ensures |model| <= MAX_TAGS
  {
    forall k | k in model ensures 0 <= model[k] < MAX_TAGS && owners[model[k]].key == k {
    }
    InjectiveSize(model, MAX_TAGS);
  }

  lemma InjectiveSize(model: map<int, int>, n: nat)
    requires forall k :: k in model ==> 0 <= model[k] < n
    requires forall k, l :: k in model && l in model && model[k] == model[l] ==> k == l
    ensures |model| <= n
  {
    var f := (k: int) => if k in model then model[k] else 0;
    forall k | k in model.Keys ensures f(k) in AllSlots(n) {
      assert f(k) == model[k];
    }
    forall k, l | k in model.Keys && l in model.Keys && f(k) == f(l) ensures k == l {
      assert f(k) == model[k] && f(l) == model[l];
    }
    Pigeonhole(model.Keys, AllSlots(n), f);
    assert |model| == |model.Keys|;
  }

  ghost predicate Matches(model: map<int, int>, key: int, tagKey: int) {
    key in model && model[key] == tagKey
  }

  // The key map after clear_tag_common has looked for the entry of a descriptor.
  ghost function Dropped(model: map<int, int>, key: int, tagKey: int): map<int, int> {
    if key != IPC_PRIVATE && Matches(model, key, tagKey) then model - {key} else model
  }

  lemma NinthPower()
    ensures PowerOfTwo(HASHMAP_CAP)
  {
    PowerUpTo(9);
    assert Power(9) == HASHMAP_CAP;
  }

  class Registry {
    const table: HashMap
    const bitmask: Bitmask
    const tags: array<Option<Tag>>
    var calls: map<int, Call>
    ghost var Owners: map<int, Owner>

    // The module's map never grows or shrinks, and the three structures agree.
    ghost predicate Valid()
      reads this, table, table.buckets, bitmask, bitmask.mask, tags
    {
      && Separate()
      && table.Valid() && table.nbuckets == table.cap == HASHMAP_CAP
      && bitmask.Valid() && bitmask.nBits == MAX_TAGS
      && tags.Length == MAX_TAGS
      && Agree(Owners, calls, table.Model, bitmask.Taken, tags[..])
    }

    ghost function View(): Snapshot
      reads this, table, bitmask, tags
    {
      Snapshot(Owners, calls, table.Model, bitmask.Taken, tags[..])
    }

    ghost predicate Separate()
      reads this, table, bitmask
    {
      table.buckets as object != tags && bitmask.mask as object != tags && table.buckets as object != bitmask.mask
    }

    // `initialize`, after its allocations have succeeded.
    constructor (hash: (int, nat, nat) -> nat)
      ensures Valid() && fresh(table) && fresh(table.buckets) && fresh(bitmask) && fresh(bitmask.mask) && fresh(tags)
      ensures Empty(View())
    {
      hide HashMap.Valid, Bitmask.Valid;
      NinthPower();
      var t := HashMap.New(HASHMAP_CAP, SEED0, SEED1, hash, true);
      t.Represented();
      RoundUpLeast(t.nbuckets, HASHMAP_CAP, HASHMAP_CAP);
      table := t;
      bitmask := new Bitmask(MAX_TAGS);
      tags := new Option<Tag>[MAX_TAGS](_ => None);
      calls := map[];
      Owners := map[];
    }

    // tag_get with TAG_CREAT up to the release of common_lock: the least free descriptor is reserved
    // and, for a key that is not private, entered in the map. Every error leaves things as they were.
    // The map never runs out of memory.
    method Reserve(t: int, key: int, validPermission: bool, killed: bool, allocOk: bool) returns (r: Outcome,
            complaints: nat)
      requires Valid() && t !in calls
      modifies this, table, table.buckets, bitmask, bitmask.mask
      ensures Valid() && (table.buckets == old(table.buckets) || fresh(table.buckets))
      ensures bitmask.mask == old(bitmask.mask)
      ensures complaints == 0
      ensures r == if key < 0 || !validPermission then Failed(EINVAL)
                   else if killed then Failed(EINTR)
                   else if |old(table.Model)| >= MAX_TAGS then Failed(EMAXTAG)
                   else if forall d :: 0 <= d < MAX_TAGS ==> d in old(Owners) then Failed(EPROTO)
                   else if key in old(table.Model) then Failed(EBUSY)
                   else Continues
      ensures r != Continues ==> View() == old(View())
      ensures r == Continues ==>
                t in calls && var change := Reserves(t, key, calls[t].tagKey);
                Allowed(old(View()), change) && View() == Changed(old(View()), change)
      ensures r == Continues ==>
                && t in calls && calls == old(calls)[t := calls[t]] && calls[t].Creating? && calls[t].key == key
                && calls[t].tagKey !in old(Owners) && (forall d :: 0 <= d < calls[t].tagKey ==> d in old(Owners))
                && Owners == old(Owners)[calls[t].tagKey := InCall(key, t)]
                && table.Model == if key == IPC_PRIVATE then old(table.Model)
                   else old(table.Model)[key := calls[t].tagKey]
    {
      hide HashMap.Valid, Bitmask.Valid, Agree;
      complaints := 0;
      if key < 0 { return Failed(EINVAL), 0; }
      if !validPermission { return Failed(EINVAL), 0; }
      if killed { return Failed(EINTR), 0; }
      AgreeFacts(Owners, calls, table.Model, bitmask.Taken, tags[..]);
      var count := table.Count();
      if count >= MAX_TAGS { return Failed(EMAXTAG), 0; }
      r, complaints := Claim(t, key, allocOk);
    }

    // tag_get with TAG_CREAT, past the count of keys.
    method Claim(t: int, key: int, allocOk: bool) returns (r: Outcome, complaints: nat)
      requires Valid() && t !in calls && |table.Model| < MAX_TAGS
      modifies this, table, table.buckets, bitmask, bitmask.mask
      ensures Valid() && (table.buckets == old(table.buckets) || fresh(table.buckets))
      ensures bitmask.mask == old(bitmask.mask)
      ensures complaints == 0
      ensures r == if forall d :: 0 <= d < MAX_TAGS ==> d in old(Owners) then Failed(EPROTO)
                   else if key in old(table.Model) then Failed(EBUSY)
                   else Continues
      ensures r != Continues ==> View() == old(View())
      ensures r == Continues ==>
                t in calls && var change := Reserves(t, key, calls[t].tagKey);
                Allowed(old(View()), change) && View() == Changed(old(View()), change)
      ensures r == Continues ==>
                && t in calls && calls == old(calls)[t := calls[t]] && calls[t].Creating? && calls[t].key == key
                && calls[t].tagKey !in old(Owners) && (forall d :: 0 <= d < calls[t].tagKey ==> d in old(Owners))
                && Owners == old(Owners)[calls[t].tagKey := InCall(key, t)]
                && table.Model == if key == IPC_PRIVATE then old(table.Model)
                   else old(table.Model)[key := calls[t].tagKey]
    {
      hide HashMap.Valid, Bitmask.Valid, Agree, Answers;
      complaints := 0;
      AgreeKeys(Owners, calls, table.Model, bitmask.Taken, tags[..]);
      table.Represented();
      var tagKey := bitmask.GetAvailNumber();
      if tagKey < 0 || tagKey >= MAX_TAGS { return Failed(EPROTO), 0; }
      if key != IPC_PRIVATE {
        var error;
        error, complaints := Enter(key, tagKey, allocOk);
        if error != None { return Failed(error.value), complaints; }
      }
      Assign(t, key, tagKey, old(table.Model), old(bitmask.Taken));
      r := Continues;
    }

    // The call takes the descriptor it has reserved.
    method Assign(t: int, key: int, tagKey: int, ghost model: map<int, int>, ghost taken: set<int>)
      requires Separate() && table.Valid() && bitmask.Valid() && tags.Length == MAX_TAGS
      requires table.nbuckets == table.cap == HASHMAP_CAP && bitmask.nBits == MAX_TAGS
      requires Agree(Owners, calls, model, taken, tags[..])
      requires t !in calls && tagKey !in taken && 0 <= tagKey < MAX_TAGS && key !in model
      requires table.Model == (if key == IPC_PRIVATE then model else model[key := tagKey])
      requires bitmask.Taken == taken + {tagKey}
      modifies this`calls, this`Owners
      ensures Valid() && calls == old(calls)[t := Creating(key, tagKey)]
      ensures Owners == old(Owners)[tagKey := InCall(key, t)]
    {
      hide HashMap.Valid, Bitmask.Valid, Agree, Answers;
      ReserveAgrees(Owners, calls, model, taken, tags[..], t, key, tagKey);
      calls := calls[t := Creating(key, tagKey)];
      Owners := Owners[tagKey := InCall(key, t)];
    }

    // The entry of a key that is not private, after its descriptor has been reserved. Both errors give
    // the descriptor back, and complain if that fails.
    method Enter(key: int, tagKey: int, allocOk: bool) returns (error: Option<Errno>, complaints: nat)
      requires table.Valid() && table.count + 1 < DIB_RANGE && bitmask.Valid() && Separate() && tagKey >= 0
      modifies table, table.buckets, bitmask, bitmask.mask
      ensures table.Valid() && bitmask.Valid() && Separate()
      ensures (table.buckets == old(table.buckets) || fresh(table.buckets)) && bitmask.mask == old(bitmask.mask)
      ensures bitmask.nBits == old(bitmask.nBits) && table.cap == old(table.cap)
      ensures error == if key in old(table.Model) then Some(EBUSY)
                       else if 4 * |old(table.Model)| == 3 * old(table.nbuckets) && !allocOk then Some(ENOMEM) else None
      ensures table.Model == if error == None then old(table.Model)[key := tagKey] else old(table.Model)
      ensures bitmask.Taken == if error == None then old(bitmask.Taken) else old(bitmask.Taken) - {tagKey}
      ensures complaints == if error != None && tagKey !in old(bitmask.Taken) then 1 else 0
      ensures 4 * |old(table.Model)| < 3 * old(table.nbuckets) ==> table.nbuckets == old(table.nbuckets)
    {
      hide HashMap.Valid, Bitmask.Valid;
      complaints := 0;
      var entry := table.Get(key);
      if entry != None {
        var cleared := bitmask.ClearNumber(tagKey);
        if cleared != 1 { complaints := complaints + 1; }
        return Some(EBUSY), complaints;
      }
      var previous := table.Set(Entry(key, tagKey), allocOk);
      if previous == None && table.oom {
        var cleared := bitmask.ClearNumber(tagKey);
        if cleared != 1 { complaints := complaints + 1; }
        return Some(ENOMEM), complaints;
      }
      error := None;
    }

    // tag_get with TAG_CREAT, the last step: tags[tag_key] = tag_entry, without a lock. It never
    // overwrites a tag.
    method Publish(t: int) returns (r: Outcome)
      requires Valid() && t in calls && calls[t].Creating?
      modifies this, tags
      ensures Valid() && r == Returned(old(calls)[t].tagKey) && View() == Changed(old(View()), Publishes(t))
      ensures var c := old(calls)[t];
              && 0 <= c.tagKey < MAX_TAGS && old(tags[..])[c.tagKey] == None
              && tags[..] == old(tags[..])[c.tagKey := Some(Tag(c.key, c.tagKey))]
              && calls == old(calls) - {t} && Owners == old(Owners)[c.tagKey := Published(c.key)]
    {
      hide HashMap.Valid, Bitmask.Valid, Agree;
      HandOver(Owners, calls, table.Model, bitmask.Taken, tags[..], t, true);
      r := Returned(calls[t].tagKey);
      Restore(t);
    }

    // tags[tag] = tag_entry
    method Restore(t: int)
      requires t in calls && 0 <= calls[t].tagKey < tags.Length && calls[t].tagKey in Owners
      modifies this, tags
      ensures tags[..] == old(tags[..])[old(calls)[t].tagKey := Some(Tag(old(calls)[t].key, old(calls)[t].tagKey))]
      ensures calls == old(calls) - {t}
      ensures Owners == old(Owners)[old(calls)[t].tagKey := Published(old(calls)[t].key)]
    {
      var c := calls[t];
      tags[c.tagKey] := Some(Tag(c.key, c.tagKey));
      calls := calls - {t};
      Owners := Owners[c.tagKey := Published(c.key)];
    }

    // tag_get with TAG_CREAT, after an allocation has failed: the descriptor and the key are given
    // back, unless the call is killed first, which strands them.
    method Rollback(t: int, killed: bool, allocOk: bool) returns (r: Outcome, complaints: nat)
      requires Valid() && t in calls && calls[t].Creating?
      modifies this, table, table.buckets, bitmask, bitmask.mask
      ensures Valid() && (table.buckets == old(table.buckets) || fresh(table.buckets))
      ensures bitmask.mask == old(bitmask.mask)
      ensures complaints == 0 && calls == old(calls) - {t}
      ensures r == Failed(if killed then EINTR else ENOMEM)
      ensures View() == Changed(old(View()), if killed then Strands(t) else Abandons(t))
      ensures killed ==>
                && table.Model == old(table.Model)
                && Owners == old(Owners)[old(calls)[t].tagKey := Stranded(old(calls)[t].key)]
      ensures !killed ==>
              table.Model == old(table.Model) - {old(calls)[t].key} && Owners == old(Owners) - {old(calls)[t].tagKey}
    {
      hide HashMap.Valid, Bitmask.Valid, Agree;
      var c := calls[t];
      HandOver(Owners, calls, table.Model, bitmask.Taken, tags[..], t, false);
      if killed {
        calls := calls - {t};
        Owners := Owners[c.tagKey := Stranded(c.key)];
        return Failed(EINTR), 0;
      }
      complaints := Release(t, allocOk);
      r := Failed(ENOMEM);
    }

    // TAG_DELETE up to the release of the tag's lock: the tag is taken out of the array. The trylock
    // fails when some other call uses the tag.
    method Detach(t: int, tag: int, busy: bool, permitted: bool) returns (r: Outcome)
      requires Valid() && t !in calls
      modifies this, tags
      ensures Valid()
      ensures r == if tag < 0 || tag >= MAX_TAGS then Failed(EINVAL)
                   else if busy then Returned(0)
                   else if old(tags[..])[tag] == None then Failed(ENODATA)
                   else if !permitted then Failed(EPERM)
                   else Continues
      ensures r != Continues ==> View() == old(View())
      ensures r == Continues ==>
              Allowed(old(View()), Detaches(t, tag)) && View() == Changed(old(View()), Detaches(t, tag))
      ensures r == Continues ==>
                var entry := old(tags[..])[tag].value;
                && tags[..] == old(tags[..])[tag := None]
                && calls == old(calls)[t := Deleting(entry.key, entry.tagKey)]
                && Owners == old(Owners)[tag := InCall(entry.key, t)]
    {
      hide HashMap.Valid, Bitmask.Valid, Agree;
      if tag < 0 || tag >= MAX_TAGS { return Failed(EINVAL); }
      if busy { return Returned(0); }
      var entry := tags[tag];
      if entry == None { return Failed(ENODATA); }
      if !permitted { return Failed(EPERM); }
      TakeOut(Owners, calls, table.Model, bitmask.Taken, tags[..], t, tag);
      tags[tag] := None;
      calls := calls[t := Deleting(entry.value.key, entry.value.tagKey)];
      Owners := Owners[tag := InCall(entry.value.key, t)];
      r := Continues;
    }

    // TAG_DELETE, the rest: the descriptor and the key are given back, unless the call is killed first,
    // which puts the tag back into a slot that is still empty.
    method FinishDelete(t: int, killed: bool, allocOk: bool) returns (r: Outcome, complaints: nat)
      requires Valid() && t in calls && calls[t].Deleting?
      modifies this, table, table.buckets, bitmask, bitmask.mask, tags
      ensures Valid() && (table.buckets == old(table.buckets) || fresh(table.buckets))
      ensures bitmask.mask == old(bitmask.mask)
      ensures complaints == 0 && calls == old(calls) - {t}
      ensures r == if killed then Failed(EINTR) else Returned(1)
      ensures killed ==> View() == Changed(old(View()), Restores(t))
      ensures !killed ==> View() == Changed(old(View()), Releases(t))
      ensures NullSlot(old(View()), t)
    {
      hide HashMap.Valid, Bitmask.Valid, Agree;
      HandOver(Owners, calls, table.Model, bitmask.Taken, tags[..], t, true);
      if killed {
        Restore(t);
        return Failed(EINTR), 0;
      }
      complaints := Release(t, allocOk);
      r := Returned(1);
    }

    // clear_tag_common on behalf of a call in progress: neither of its error branches is taken.
    method Release(t: int, allocOk: bool) returns (complaints: nat)
      requires Valid() && t in calls
      modifies this, table, table.buckets, bitmask, bitmask.mask
      ensures Valid() && (table.buckets == old(table.buckets) || fresh(table.buckets))
      ensures bitmask.mask == old(bitmask.mask)
      ensures complaints == 0 && calls == old(calls) - {t}
      ensures table.Model == old(table.Model) - {old(calls)[t].key} && Owners == old(Owners) - {old(calls)[t].tagKey}
      ensures View() == Dismissed(old(View()), t)
    {
      hide HashMap.Valid, Bitmask.Valid, Agree;
      var c := calls[t];
      ReleaseFinds(Owners, calls, table.Model, bitmask.Taken, tags[..], t);
      ReleaseAgrees(Owners, calls, table.Model, bitmask.Taken, tags[..], t);
      if c.key !in table.Model { RemoveAbsent(table.Model, c.key); }
      KeysBound(Owners, calls, table.Model, bitmask.Taken, tags[..]);
      table.Represented();
      complaints := ClearTagCommon(c.key, c.tagKey, allocOk);
      calls := calls - {t};
      Owners := Owners - {c.tagKey};
    }

    // clear_tag_common with common_lock held, for any arguments: two complaints are possible, a map
    // entry that does not match and a bit that is already clear.
    method ClearTagCommon(key: int, tagKey: int, allocOk: bool) returns (complaints: nat)
      requires table.Valid() && bitmask.Valid() && Separate() && tagKey >= 0 && table.count + 1 < DIB_RANGE
      modifies table, table.buckets, bitmask, bitmask.mask
      ensures table.Valid() && bitmask.Valid() && Separate()
      ensures (table.buckets == old(table.buckets) || fresh(table.buckets)) && bitmask.mask == old(bitmask.mask)
      ensures bitmask.nBits == old(bitmask.nBits) && table.cap == old(table.cap)
      ensures bitmask.Taken == old(bitmask.Taken) - {tagKey}
      ensures complaints == (if key == IPC_PRIVATE || Matches(old(table.Model), key, tagKey) then 0 else 1)
                                            + (if tagKey in old(bitmask.Taken) then 0 else 1)
      ensures tagKey in old(bitmask.Taken) ==> table.Model == Dropped(old(table.Model), key, tagKey)
      ensures tagKey in old(bitmask.Taken) && old(table.nbuckets) == table.cap ==> table.nbuckets == table.cap
      ensures tagKey !in old(bitmask.Taken) ==>
                table.Model == if && key != IPC_PRIVATE
                                  && (Matches(old(table.Model), key, tagKey) || allocOk
                                      || 4 * |old(table.Model)| != 3 * old(table.nbuckets))
                               then old(table.Model)[key := tagKey] else old(table.Model)
    {
      hide HashMap.Valid, Bitmask.Valid;
      var mismatch := DropKey(key, tagKey, allocOk);
      ghost var dropped := table.Model;
      var free := FreeNumber(key, tagKey, allocOk);
      complaints := mismatch + free;
      assert Matches(old(table.Model), key, tagKey) ==> dropped[key := tagKey] == old(table.Model)[key := tagKey];
    }

    method DropKey(key: int, tagKey: int, allocOk: bool) returns (complaints: nat)
      requires table.Valid() && Separate() && table.count + 1 < DIB_RANGE
      modifies table, table.buckets
      ensures table.Valid() && Separate() && (table.buckets == old(table.buckets) || fresh(table.buckets))
      ensures table.cap == old(table.cap) && table.count + 1 < DIB_RANGE
      ensures table.Model == Dropped(old(table.Model), key, tagKey)
      ensures complaints == (if key == IPC_PRIVATE || Matches(old(table.Model), key, tagKey) then 0 else 1)
      ensures old(table.nbuckets) == table.cap ==> table.nbuckets == table.cap
      ensures if key != IPC_PRIVATE && Matches(old(table.Model), key, tagKey)
              then 4 * |table.Model| < 3 * table.nbuckets
              else table.nbuckets == old(table.nbuckets)
    {
      hide HashMap.Valid;
      table.Represented();
      complaints := 0;
      if key != IPC_PRIVATE {
        var entry := table.Get(key);
        if entry != None && entry.value.tagKey == tagKey {
          var removed := table.Delete(key, allocOk);
        } else {
          complaints := complaints + 1;
        }
      }
    }

    // A bit that is already clear puts the key back into the map.
    method FreeNumber(key: int, tagKey: int, allocOk: bool) returns (complaints: nat)
      requires table.Valid() && bitmask.Valid() && Separate() && tagKey >= 0 && table.count + 1 < DIB_RANGE
      modifies table, table.buckets, bitmask, bitmask.mask
      ensures table.Valid() && bitmask.Valid() && Separate()
      ensures (table.buckets == old(table.buckets) || fresh(table.buckets)) && bitmask.mask == old(bitmask.mask)
      ensures bitmask.nBits == old(bitmask.nBits) && table.cap == old(table.cap)
      ensures bitmask.Taken == old(bitmask.Taken) - {tagKey}
      ensures complaints == (if tagKey in old(bitmask.Taken) then 0 else 1)
      ensures tagKey in old(bitmask.Taken) ==> table.Model == old(table.Model) && table.nbuckets == old(table.nbuckets)
      ensures tagKey !in old(bitmask.Taken) ==>
                table.Model == if key != IPC_PRIVATE && (allocOk || 4 * |old(table.Model)| != 3 * old(table.nbuckets))
                               then old(table.Model)[key := tagKey] else old(table.Model)
    {
      hide HashMap.Valid, Bitmask.Valid;
      complaints := 0;
      var cleared := bitmask.ClearNumber(tagKey);
      if cleared != 1 {
        complaints := complaints + 1;
        if key != IPC_PRIVATE {
          var previous := table.Set(Entry(key, tagKey), allocOk);
        }
      }
    }

    // tag_get with TAG_OPEN: the descriptor that the key maps to, once its tag is published.
    method Open(key: int, interrupted: bool) returns (r: Outcome)
      requires Valid()
      ensures r == if key < 0 || key == IPC_PRIVATE then Failed(EINVAL)
                   else if interrupted then Failed(EINTR)
                   else if key in table.Model && Owners[table.Model[key]].Published? then Returned(table.Model[key])
                   else Failed(ENODATA)
    {
      hide HashMap.Valid, Bitmask.Valid;
      if key < 0 { return Failed(EINVAL); }
      if key == IPC_PRIVATE { return Failed(EINVAL); }
      if interrupted { return Failed(EINTR); }
      AgreeFacts(Owners, calls, table.Model, bitmask.Taken, tags[..]);
      var entry := table.Get(key);
      if entry == None { return Failed(ENODATA); }
      var tagKey := entry.value.tagKey;
      if tags[tagKey] == None { return Failed(ENODATA); }
      r := Returned(tagKey);
    }
  }
}
