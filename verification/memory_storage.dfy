/** The in-memory cache with expiry and priorities (memory-storage.ts): an insertion-ordered map of
    bounded size. The current time is a parameter of every operation. */
module MemoryStorage {
  import opened Wrappers

  type Key = string
  type Value = string

  datatype Priority = Low | Normal | High {
    function Weight(): nat {
      match this case Low => 0 case Normal => 1 case High => 2
    }
  }

  datatype Entry = Entry(value: Value, expiresAt: Option<int>, priority: Priority, lastAccessedAt: int)

  /** An entry with its key; the store lists its items in insertion order. */
  datatype Item = Item(key: Key, entry: Entry)

  predicate Expired(expiresAt: Option<int>, now: int) {
    expiresAt.Some? && now >= expiresAt.value
  }

  /** A time to live of zero means none, as in the source. */
  function MakeEntry(value: Value, timeToLiveMs: int, priority: Priority, now: int): Entry {
    Entry(value, if timeToLiveMs != 0 then Some(now + timeToLiveMs) else None, priority, now)
  }

  ghost predicate DistinctKeys(items: seq<Item>) {
    forall i, j :: 0 <= i < j < |items| ==> items[i].key != items[j].key
  }

  predicate HasKey(items: seq<Item>, key: Key) {
    exists i :: 0 <= i < |items| && items[i].key == key
  }

  /** Keeps the items that a test admits, in order. */
  function Kept(items: seq<Item>, keep: Item -> bool): seq<Item> {
    if items == [] then []
    else Kept(items[..|items| - 1], keep) + if keep(items[|items| - 1]) then [items[|items| - 1]] else []
  }

  function Without(items: seq<Item>, key: Key): seq<Item> {
    Kept(items, (item: Item) => item.key != key)
  }

  function Unexpired(items: seq<Item>, now: int): seq<Item> {
    Kept(items, (item: Item) => !Expired(item.entry.expiresAt, now))
  }

  lemma {:induction false} KeptFacts(items: seq<Item>, keep: Item -> bool)
    ensures forall item :: item in Kept(items, keep) <==> item in items && keep(item)
    ensures |Kept(items, keep)| <= |items|
    ensures (forall item :: item in items ==> keep(item)) <==> Kept(items, keep) == items
    ensures (exists item :: item in items && !keep(item)) <==> |Kept(items, keep)| < |items|
    ensures DistinctKeys(items) ==> DistinctKeys(Kept(items, keep))
  {
    if items != [] {
      var (front, last) := (items[..|items| - 1], items[|items| - 1]);
      KeptFacts(front, keep);
      assert items == front + [last];
      if DistinctKeys(items) && keep(last) {
        forall item | item in Kept(front, keep)
          ensures item.key != last.key
        {
          assert item in front;
        }
      }
    }
  }

  function Find(items: seq<Item>, key: Key): Option<Entry> {
    if items == [] then None
    else if items[0].key == key then Some(items[0].entry)
    else Find(items[1..], key)
  }

  lemma {:induction false} FindFacts(items: seq<Item>, key: Key)
    ensures Find(items, key).Some? <==> HasKey(items, key)
    ensures Find(items, key).Some? ==> Item(key, Find(items, key).value) in items
    ensures DistinctKeys(items) ==> forall item :: item in items && item.key == key ==> Find(items, key) == Some(item.entry)
  {
    if items != [] {
      FindFacts(items[1..], key);
      if HasKey(items, key) && items[0].key != key {
        var i :| 0 <= i < |items| && items[i].key == key;
        assert items[1..][i - 1].key == key;
      }
      if DistinctKeys(items) {
        assert forall item :: item in items[1..] ==> item.key != items[0].key;
      }
    }
  }

  /** A new access time for the item of a key, which keeps its place. */
  function Touch(items: seq<Item>, key: Key, now: int): (touched: seq<Item>)
    ensures |touched| == |items|
  {
    seq(|items|, i requires 0 <= i < |items| =>
      if items[i].key == key then items[i].(entry := items[i].entry.(lastAccessedAt := now)) else items[i])
  }

  // ---- eviction ----

  /** Whether item `i` is to go before item `j`: lower priority, then older access, then earlier
      insertion. */
  predicate LessValuable(items: seq<Item>, i: nat, j: nat)
    requires i < |items| && j < |items|
  {
    var (a, b) := (items[i].entry, items[j].entry);
    a.priority.Weight() < b.priority.Weight()
    || (a.priority.Weight() == b.priority.Weight()
        && (a.lastAccessedAt < b.lastAccessedAt || (a.lastAccessedAt == b.lastAccessedAt && i <= j)))
  }

  ghost predicate IsLeast(items: seq<Item>, i: nat) {
    i < |items| && forall j :: 0 <= j < |items| ==> LessValuable(items, i, j)
  }

  /** The running minimum of the source over the first `n` items. */
  function LeastOf(items: seq<Item>, n: nat): (least: nat)
    requires 1 <= n <= |items|
    ensures least < n
    ensures forall j :: 0 <= j < n ==> LessValuable(items, least, j)
  {
    if n == 1 then 0
    else
      var best := LeastOf(items, n - 1);
      if LessValuable(items, best, n - 1) then best
      else
        var last: nat := n - 1;
        assert forall j :: 0 <= j < n ==> LessValuable(items, last, j) by {
          forall j | 0 <= j < last
            ensures LessValuable(items, last, j)
          {
            LaterAndBetter(items, best, last, j);
          }
        }
        last
  }

  lemma LaterAndBetter(items: seq<Item>, best: nat, last: nat, j: nat)
    requires best < last < |items| && j < last
    requires LessValuable(items, best, j) && !LessValuable(items, best, last)
    ensures LessValuable(items, last, j)
  {
  }

  // ---- the operations on the store ----

  function AfterSet(items: seq<Item>, maxSize: nat, item: Item, now: int): seq<Item> {
    if HasKey(items, item.key) then Without(items, item.key) + [item]
    else if |items| >= maxSize then MadeRoom(items, maxSize, now) + [item]
    else items + [item]
  }

  /** First the expired items go, and the least valuable one if there is still no room. */
  function MadeRoom(items: seq<Item>, maxSize: nat, now: int): seq<Item> {
    var unexpired := Unexpired(items, now);
    if |unexpired| >= maxSize && unexpired != []
    then Without(unexpired, unexpired[LeastOf(unexpired, |unexpired|)].key)
    else unexpired
  }

  function Lookup(items: seq<Item>, key: Key, now: int): Option<Value> {
    match Find(items, key)
    case None => None
    case Some(entry) => if Expired(entry.expiresAt, now) then None else Some(entry.value)
  }

  /** Reading drops an expired item; `touch` tells a read of the value from a test for presence. */
  function AfterRead(items: seq<Item>, key: Key, now: int, touch: bool): seq<Item> {
    match Find(items, key)
    case None => items
    case Some(entry) =>
      if Expired(entry.expiresAt, now) then Without(items, key)
      else if touch then Touch(items, key, now) else items
  }

  class Storage {
    const maxSize: nat
    var store: seq<Item>

    constructor (maxSize: nat)
      ensures this.maxSize == maxSize && store == []
    {
      this.maxSize := maxSize;
      store := [];
    }

    method FindEvictionKey() returns (evictKey: Option<Key>)
      ensures evictKey == if store == [] then None else Some(store[LeastOf(store, |store|)].key)
    {
      evictKey := None;
      var evictPriority := 0;
      var evictTime := 0;
      for i := 0 to |store|
        invariant i == 0 <==> evictKey.None?
        invariant i > 0 ==> var least := store[LeastOf(store, i)];
          evictKey == Some(least.key) && evictPriority == least.entry.priority.Weight()
          && evictTime == least.entry.lastAccessedAt
      {
        var entry := store[i].entry;
        var weight := entry.priority.Weight();
        if evictKey.None? || weight < evictPriority
           || (weight == evictPriority && entry.lastAccessedAt < evictTime) {
          evictPriority := weight;
          evictTime := entry.lastAccessedAt;
          evictKey := Some(store[i].key);
        }
      }
    }

    method EvictExpired(now: int)
      modifies this`store
      ensures store == Unexpired(old(store), now)
    {
      var unexpired: seq<Item> := [];
      for i := 0 to |store|
        invariant store == old(store) && unexpired == Unexpired(store[..i], now)
      {
        assert store[..i + 1][..i] == store[..i];
        if !Expired(store[i].entry.expiresAt, now) {
          unexpired := unexpired + [store[i]];
        }
      }
      assert store[..|store|] == store;
      store := unexpired;
    }

    method Set(key: Key, value: Value, timeToLiveMs: int, priority: Priority, now: int)
      modifies this`store
      ensures store == AfterSet(old(store), maxSize, Item(key, MakeEntry(value, timeToLiveMs, priority, now)), now)
    {
      if HasKey(store, key) {
        store := Without(store, key);
      } else if |store| >= maxSize {
        EvictExpired(now);
        if |store| >= maxSize {
          var evictKey := FindEvictionKey();
          if evictKey.Some? {
            store := Without(store, evictKey.value);
          }
        }
      }
      store := store + [Item(key, MakeEntry(value, timeToLiveMs, priority, now))];
    }

    method Get(key: Key, now: int) returns (value: Option<Value>)
      modifies this`store
      ensures value == Lookup(old(store), key, now)
      ensures store == AfterRead(old(store), key, now, true)
    {
      var entry := Find(store, key);
      if entry.None? {
        return None;
      }
      if Expired(entry.value.expiresAt, now) {
        store := Without(store, key);
        return None;
      }
      store := Touch(store, key, now);
      return Some(entry.value.value);
    }

    method Has(key: Key, now: int) returns (present: bool)
      modifies this`store
      ensures present == Lookup(old(store), key, now).Some?
      ensures store == AfterRead(old(store), key, now, false)
    {
      var entry := Find(store, key);
      if entry.None? {
        return false;
      }
      if Expired(entry.value.expiresAt, now) {
        store := Without(store, key);
        return false;
      }
      return true;
    }

    method Size(now: int) returns (size: nat)
      modifies this`store
      ensures store == Unexpired(old(store), now) && size == |store|
    {
      EvictExpired(now);
      return |store|;
    }
  }

  // ---- any sequence of operations ----

  datatype Op =
    | GetOp(key: Key)
    | HasOp(key: Key)
    | SetOp(key: Key, value: Value, timeToLiveMs: int, priority: Priority)
    | RemoveOp(key: Key)
    | ClearOp
    | SizeOp

  function Apply(items: seq<Item>, maxSize: nat, op: Op, now: int): seq<Item> {
    match op
    case GetOp(key) => AfterRead(items, key, now, true)
    case HasOp(key) => AfterRead(items, key, now, false)
    case SetOp(key, value, ttl, priority) =>
      AfterSet(items, maxSize, Item(key, MakeEntry(value, ttl, priority, now)), now)
    case RemoveOp(key) => Without(items, key)
    case ClearOp => []
    case SizeOp => Unexpired(items, now)
  }

  ghost predicate Valid(items: seq<Item>, maxSize: nat) {
    DistinctKeys(items) && |items| <= maxSize
  }

  lemma WithoutFacts(items: seq<Item>, key: Key)
    ensures forall item :: item in Without(items, key) <==> item in items && item.key != key
    ensures |Without(items, key)| <= |items| && (HasKey(items, key) ==> |Without(items, key)| < |items|)
    ensures DistinctKeys(items) ==> DistinctKeys(Without(items, key))
    ensures !HasKey(Without(items, key), key)
  {
    var keep := (item: Item) => item.key != key;
    KeptFacts(items, keep);
    if HasKey(items, key) {
      var i :| 0 <= i < |items| && items[i].key == key;
      assert items[i] in items && !keep(items[i]);
    }
  }

  lemma UnexpiredFacts(items: seq<Item>, now: int)
    ensures forall item :: item in Unexpired(items, now) <==> item in items && !Expired(item.entry.expiresAt, now)
    ensures |Unexpired(items, now)| <= |items|
    ensures |Unexpired(items, now)| == |items| ==> Unexpired(items, now) == items
    ensures DistinctKeys(items) ==> DistinctKeys(Unexpired(items, now))
  {
    KeptFacts(items, (item: Item) => !Expired(item.entry.expiresAt, now));
  }

  lemma AppendDistinct(items: seq<Item>, item: Item)
    requires DistinctKeys(items) && !HasKey(items, item.key)
    ensures DistinctKeys(items + [item])
  {
  }

  lemma KeyOfKept(items: seq<Item>, kept: seq<Item>, key: Key)
    requires forall item :: item in kept ==> item in items
    ensures HasKey(kept, key) ==> HasKey(items, key)
  {
    if HasKey(kept, key) {
      var i :| 0 <= i < |kept| && kept[i].key == key;
      assert kept[i] in items;
    }
  }

  lemma SetKeepsValid(items: seq<Item>, maxSize: nat, item: Item, now: int)
    requires Valid(items, maxSize) && maxSize >= 1
    ensures Valid(AfterSet(items, maxSize, item, now), maxSize)
  {
    WithoutFacts(items, item.key);
    UnexpiredFacts(items, now);
    if HasKey(items, item.key) {
      AppendDistinct(Without(items, item.key), item);
    } else if |items| >= maxSize {
      var unexpired := Unexpired(items, now);
      KeyOfKept(items, unexpired, item.key);
      if |unexpired| >= maxSize {
        var least := unexpired[LeastOf(unexpired, |unexpired|)].key;
        WithoutFacts(unexpired, least);
        KeyOfKept(unexpired, Without(unexpired, least), item.key);
        AppendDistinct(Without(unexpired, least), item);
      } else {
        AppendDistinct(unexpired, item);
      }
    } else {
      AppendDistinct(items, item);
    }
  }

  /** The size bound holds after every operation. */
  lemma ApplyKeepsValid(items: seq<Item>, maxSize: nat, op: Op, now: int)
    requires Valid(items, maxSize) && maxSize >= 1
    ensures Valid(Apply(items, maxSize, op, now), maxSize)
  {
    match op
    case GetOp(key) => WithoutFacts(items, key);
    case HasOp(key) => WithoutFacts(items, key);
    case SetOp(key, value, ttl, priority) =>
      SetKeepsValid(items, maxSize, Item(key, MakeEntry(value, ttl, priority, now)), now);
    case RemoveOp(key) => WithoutFacts(items, key);
    case ClearOp =>
    case SizeOp => UnexpiredFacts(items, now);
  }

  /** The three ways of a set, told by what stays. */
  lemma SetKeeps(items: seq<Item>, maxSize: nat, item: Item, now: int)
    requires Valid(items, maxSize)
    ensures HasKey(items, item.key) || |items| < maxSize || |Unexpired(items, now)| < maxSize
        ==> forall other :: other in items && other.key != item.key && !Expired(other.entry.expiresAt, now)
              ==> other in AfterSet(items, maxSize, item, now)
    ensures !HasKey(items, item.key) && |items| == maxSize == |Unexpired(items, now)| && items != []
        ==> forall other :: other in items && other.key != items[LeastOf(items, |items|)].key
              ==> other in AfterSet(items, maxSize, item, now)
  {
    WithoutFacts(items, item.key);
    UnexpiredFacts(items, now);
    if items != [] {
      WithoutFacts(items, items[LeastOf(items, |items|)].key);
    }
  }

  lemma SetDropsOnlyWhenFull(items: seq<Item>, maxSize: nat, item: Item, now: int, dropped: Item)
    requires Valid(items, maxSize)
    requires dropped in items && !Expired(dropped.entry.expiresAt, now) && dropped.key != item.key
    requires dropped !in AfterSet(items, maxSize, item, now)
    ensures !HasKey(items, item.key) && |items| == maxSize == |Unexpired(items, now)|
  {
    SetKeeps(items, maxSize, item, now);
    UnexpiredFacts(items, now);
  }

  lemma SameKeySameItem(items: seq<Item>, a: Item, b: Item)
    requires DistinctKeys(items) && a in items && b in items && a.key == b.key
    ensures a == b
  {
  }

  /** A set drops another live item only when the key is new and every slot is live, and then it is
      the one item least in priority, then last access, then insertion. */
  lemma SetDropsOnlyTheLeastValuable(items: seq<Item>, maxSize: nat, item: Item, now: int, dropped: Item)
    requires Valid(items, maxSize)
    requires dropped in items && !Expired(dropped.entry.expiresAt, now) && dropped.key != item.key
    requires dropped !in AfterSet(items, maxSize, item, now)
    ensures !HasKey(items, item.key) && |items| == maxSize
    ensures forall other :: other in items ==> !Expired(other.entry.expiresAt, now)
    ensures exists i: nat :: IsLeast(items, i) && items[i] == dropped
    ensures forall other :: other in items && other != dropped ==> other in AfterSet(items, maxSize, item, now)
  {
    SetDropsOnlyWhenFull(items, maxSize, item, now, dropped);
    SetKeeps(items, maxSize, item, now);
    UnexpiredFacts(items, now);
    var least := LeastOf(items, |items|);
    assert IsLeast(items, least);
    SameKeySameItem(items, dropped, items[least]);
    forall other | other in items && other != dropped
      ensures other in AfterSet(items, maxSize, item, now)
    {
      if other.key == dropped.key {
        SameKeySameItem(items, other, dropped);
      }
    }
  }

  // ---- what a read changes ----

  predicate Live(expiresAt: Option<int>, now: int) {
    expiresAt.None? || now < expiresAt.value
  }

  /** Reading an unexpired key renews the access time of its item and changes nothing else, and a test
      for presence changes nothing. A key that is absent changes nothing either way, and only the item
      of an expired key goes, the others keeping their order. */
  lemma ReadChanges(items: seq<Item>, i: nat, key: Key, now: int)
    requires DistinctKeys(items) && i < |items|
    ensures var (touched, tested) := (AfterRead(items, key, now, true), AfterRead(items, key, now, false));
            if items[i].key == key && Live(items[i].entry.expiresAt, now)
            then tested == items
                 && touched == items[i := Item(key, items[i].entry.(lastAccessedAt := now))]
            else if items[i].key == key
            then touched == tested == items[..i] + items[i + 1..]
            else !HasKey(items, key) ==> touched == tested == items
  {
    FindFacts(items, key);
    if items[i].key == key {
      WithoutOne(items, i);
    }
  }

  lemma {:induction false} WithoutOne(items: seq<Item>, i: nat)
    requires DistinctKeys(items) && i < |items|
    ensures Without(items, items[i].key) == items[..i] + items[i + 1..]
  {
    var last := |items| - 1;
    if i == last {
      WithoutLast(items);
    } else {
      WithoutOne(items[..last], i);
      assert items[i + 1..] == items[..last][i + 1..] + [items[last]];
      assert items[..last][..i] == items[..i];
    }
  }

  lemma WithoutLast(items: seq<Item>)
    requires DistinctKeys(items) && items != []
    ensures Without(items, items[|items| - 1].key) == items[..|items| - 1]
  {
    var (front, last) := (items[..|items| - 1], items[|items| - 1]);
    KeptFacts(front, (item: Item) => item.key != last.key);
    assert forall item :: item in front ==> item.key != last.key;
  }

  // ---- refinement of a map with expiry ----

  /** What a map that forgets nothing would know of a key: its latest value, until when that lives, its
      priority, when it was last set or read, and by which operation it was set. */
  datatype Reference = Reference(value: Value, expiresAt: Option<int>, priority: Priority, lastUsedAt: int, setBy: nat)

  /** The cache next to such a map; `evicted` names the keys whose live item a set has dropped since,
      `count` the operations so far. */
  datatype World = World(items: seq<Item>, reference: map<Key, Reference>, evicted: set<Key>, count: nat)

  ghost function DroppedBySet(before: seq<Item>, after: seq<Item>, key: Key, now: int): set<Key> {
    set item | item in before && item.key != key && Live(item.entry.expiresAt, now) && !HasKey(after, item.key)
             :: item.key
  }

  /** Whether the map still has the key: neither expired nor evicted. */
  predicate Known(w: World, key: Key, now: int) {
    key in w.reference && Live(w.reference[key].expiresAt, now) && key !in w.evicted
  }

  ghost function Step(w: World, maxSize: nat, op: Op, now: int): World {
    var items := Apply(w.items, maxSize, op, now);
    var next := w.(items := items, count := w.count + 1);
    match op
    case GetOp(key) =>
      if Known(w, key, now) then next.(reference := w.reference[key := w.reference[key].(lastUsedAt := now)]) else next
    case SetOp(key, value, ttl, priority) =>
      var expiresAt := if ttl == 0 then None else Some(now + ttl);
      next.(reference := w.reference[key := Reference(value, expiresAt, priority, now, w.count)],
            evicted := w.evicted - {key} + DroppedBySet(w.items, items, key, now))
    case RemoveOp(key) => next.(reference := w.reference - {key}, evicted := w.evicted - {key})
    case ClearOp => next.(reference := map[], evicted := {})
    case _ => next
  }

  predicate Matches(entry: Entry, r: Reference) {
    && entry.value == r.value && entry.expiresAt == r.expiresAt && entry.priority == r.priority
    && entry.lastAccessedAt == r.lastUsedAt
  }

  /** The items are as the map says, in the order in which they were set. */
  ghost predicate Follow(items: seq<Item>, reference: map<Key, Reference>) {
    && (forall item :: item in items ==> item.key in reference && Matches(item.entry, reference[item.key]))
    && (forall i, j :: 0 <= i < j < |items| ==> SetBefore(reference, items[i].key, items[j].key))
  }

  predicate SetBefore(reference: map<Key, Reference>, a: Key, b: Key) {
    a in reference && b in reference && reference[a].setBy < reference[b].setBy
  }

  /** The items follow the map and none is counted as evicted, and every key that is neither expired nor
      evicted has an item. */
  ghost predicate Agrees(w: World, now: int) {
    && Follow(w.items, w.reference)
    && (forall item :: item in w.items ==> item.key !in w.evicted)
    && (forall key :: key in w.reference ==> w.reference[key].setBy < w.count)
    && (forall key :: Known(w, key, now) ==> HasKey(w.items, key))
  }

  lemma HasKeyOf(items: seq<Item>, item: Item)
    requires item in items
    ensures HasKey(items, item.key)
  {
  }

  lemma ItemOfKey(items: seq<Item>, key: Key) returns (item: Item)
    requires HasKey(items, key)
    ensures item in items && item.key == key
  {
    var i :| 0 <= i < |items| && items[i].key == key;
    item := items[i];
  }

  lemma {:induction false} KeptFollow(items: seq<Item>, keep: Item -> bool, reference: map<Key, Reference>)
    requires Follow(items, reference)
    ensures Follow(Kept(items, keep), reference)
  {
    if items != [] {
      var (front, last) := (items[..|items| - 1], items[|items| - 1]);
      KeptFollow(front, keep, reference);
      KeptFacts(front, keep);
      forall item | item in Kept(front, keep)
        ensures SetBefore(reference, item.key, last.key)
      {
        var i :| 0 <= i < |front| && front[i] == item;
        assert items[i] == item;
      }
      FollowAppend(Kept(front, keep), last, reference);
    }
  }

  lemma FollowAppend(items: seq<Item>, item: Item, reference: map<Key, Reference>)
    requires Follow(items, reference) && item.key in reference && Matches(item.entry, reference[item.key])
    requires forall other :: other in items ==> SetBefore(reference, other.key, item.key)
    ensures Follow(items + [item], reference)
  {
  }

  /** Dropping expired items and those under the keys `gone` keeps the agreement. */
  lemma KeptAgrees(w: World, keep: Item -> bool, gone: set<Key>, now: int)
    requires Agrees(w, now)
    requires forall item :: item in w.items && item.key in gone ==> !keep(item)
    requires forall item :: item in w.items && item.key !in gone && Live(item.entry.expiresAt, now) ==> keep(item)
    ensures Agrees(World(Kept(w.items, keep), w.reference - gone, w.evicted - gone, w.count + 1), now)
  {
    var t := World(Kept(w.items, keep), w.reference - gone, w.evicted - gone, w.count + 1);
    KeptFacts(w.items, keep);
    KeptFollow(w.items, keep, w.reference);
    FollowBeside(t.items, w.reference, gone);
    forall key | Known(t, key, now)
      ensures HasKey(t.items, key)
    {
      var item := ItemOfKey(w.items, key);
      HasKeyOf(t.items, item);
    }
  }

  lemma FollowBeside(items: seq<Item>, reference: map<Key, Reference>, gone: set<Key>)
    requires Follow(items, reference) && forall item :: item in items ==> item.key !in gone
    ensures Follow(items, reference - gone)
  {
    forall i, j | 0 <= i < j < |items|
      ensures SetBefore(reference - gone, items[i].key, items[j].key)
    {
      assert items[i] in items && items[j] in items && SetBefore(reference, items[i].key, items[j].key);
    }
  }

  lemma GetAgrees(w: World, maxSize: nat, key: Key, now: int)
    requires Agrees(w, now) && Valid(w.items, maxSize)
    ensures Agrees(Step(w, maxSize, GetOp(key), now), now)
  {
    FindFacts(w.items, key);
    if !HasKey(w.items, key) {
      assert AfterRead(w.items, key, now, true) == w.items;
    } else {
      var item := ItemOfKey(w.items, key);
      var i :| 0 <= i < |w.items| && w.items[i] == item;
      ReadChanges(w.items, i, key, now);
      if Live(item.entry.expiresAt, now) {
        TouchAgrees(w, maxSize, i, now);
      } else {
        KeptAgrees(w, (other: Item) => other.key != key, {}, now);
        assert w.reference - {} == w.reference && w.evicted - {} == w.evicted;
      }
    }
  }

  lemma TouchFollows(items: seq<Item>, reference: map<Key, Reference>, i: nat, now: int)
    requires Follow(items, reference) && DistinctKeys(items) && i < |items| && items[i] in items
    ensures Follow(items[i := Item(items[i].key, items[i].entry.(lastAccessedAt := now))],
                   reference[items[i].key := reference[items[i].key].(lastUsedAt := now)])
  {
    var touched := items[i := Item(items[i].key, items[i].entry.(lastAccessedAt := now))];
    var after := reference[items[i].key := reference[items[i].key].(lastUsedAt := now)];
    forall item | item in touched
      ensures item.key in after && Matches(item.entry, after[item.key])
    {
      var j :| 0 <= j < |touched| && touched[j] == item;
      assert j != i ==> items[j] in items && items[j].key != items[i].key;
    }
    forall j, k | 0 <= j < k < |touched|
      ensures SetBefore(after, touched[j].key, touched[k].key)
    {
      assert SetBefore(reference, items[j].key, items[k].key);
    }
  }

  lemma TouchAgrees(w: World, maxSize: nat, i: nat, now: int)
    requires Agrees(w, now) && Valid(w.items, maxSize) && i < |w.items| && Live(w.items[i].entry.expiresAt, now)
    ensures Agrees(Step(w, maxSize, GetOp(w.items[i].key), now), now)
  {
    var key := w.items[i].key;
    var t := Step(w, maxSize, GetOp(key), now);
    ReadChanges(w.items, i, key, now);
    assert w.items[i] in w.items;
    TouchFollows(w.items, w.reference, i, now);
    assert forall j :: 0 <= j < |t.items| ==> t.items[j].key == w.items[j].key && w.items[j] in w.items;
    forall other | Known(t, other, now)
      ensures HasKey(t.items, other)
    {
      assert HasKey(w.items, other);
      var j :| 0 <= j < |w.items| && w.items[j].key == other;
      assert t.items[j].key == other;
    }
  }

  lemma HasAgrees(w: World, maxSize: nat, key: Key, now: int)
    requires Agrees(w, now) && Valid(w.items, maxSize)
    ensures Agrees(Step(w, maxSize, HasOp(key), now), now)
  {
    FindFacts(w.items, key);
    var found := Find(w.items, key);
    if found.Some? && Expired(found.value.expiresAt, now) {
      KeptAgrees(w, (other: Item) => other.key != key, {}, now);
      assert w.reference - {} == w.reference && w.evicted - {} == w.evicted;
    }
  }

  /** A set is old items in their old order and then the item set. */
  lemma AfterSetShape(items: seq<Item>, maxSize: nat, item: Item, now: int, reference: map<Key, Reference>)
    returns (kept: seq<Item>)
    requires Follow(items, reference)
    ensures AfterSet(items, maxSize, item, now) == kept + [item]
    ensures Follow(kept, reference) && forall other :: other in kept ==> other in items && other.key != item.key
  {
    if HasKey(items, item.key) {
      WithoutFacts(items, item.key);
      KeptFollow(items, (other: Item) => other.key != item.key, reference);
      kept := Without(items, item.key);
    } else {
      kept := if |items| >= maxSize then MadeRoom(items, maxSize, now) else items;
      MadeRoomFollows(items, maxSize, now, reference);
      forall other | other in items
        ensures other.key != item.key
      {
        HasKeyOf(items, other);
      }
    }
  }

  lemma MadeRoomFollows(items: seq<Item>, maxSize: nat, now: int, reference: map<Key, Reference>)
    requires Follow(items, reference)
    ensures Follow(MadeRoom(items, maxSize, now), reference)
    ensures forall other :: other in MadeRoom(items, maxSize, now) ==> other in items
  {
    var unexpired := Unexpired(items, now);
    UnexpiredFacts(items, now);
    KeptFollow(items, (other: Item) => !Expired(other.entry.expiresAt, now), reference);
    if unexpired != [] {
      var least := unexpired[LeastOf(unexpired, |unexpired|)].key;
      WithoutFacts(unexpired, least);
      KeptFollow(unexpired, (other: Item) => other.key != least, reference);
    }
  }

  lemma SetFollows(kept: seq<Item>, item: Item, reference: map<Key, Reference>, after: map<Key, Reference>)
    requires Follow(kept, reference) && forall other :: other in kept ==> other.key != item.key
    requires item.key in after && Matches(item.entry, after[item.key]) && after == reference[item.key := after[item.key]]
    requires forall key :: key in reference ==> reference[key].setBy < after[item.key].setBy
    ensures Follow(kept + [item], after)
  {
    forall i, j | 0 <= i < j < |kept|
      ensures SetBefore(after, kept[i].key, kept[j].key)
    {
      assert kept[i] in kept && kept[j] in kept && SetBefore(reference, kept[i].key, kept[j].key);
    }
    assert Follow(kept, after);
    FollowAppend(kept, item, after);
  }

  lemma SetAgrees(w: World, maxSize: nat, op: Op, now: int)
    requires Agrees(w, now) && Valid(w.items, maxSize) && maxSize >= 1 && op.SetOp?
    ensures Agrees(Step(w, maxSize, op, now), now)
  {
    var item := Item(op.key, MakeEntry(op.value, op.timeToLiveMs, op.priority, now));
    var after := AfterSet(w.items, maxSize, item, now);
    var t := Step(w, maxSize, op, now);
    var kept := AfterSetShape(w.items, maxSize, item, now, w.reference);
    SetFollows(kept, item, w.reference, t.reference);
    forall other | other in after
      ensures other.key !in t.evicted
    {
      HasKeyOf(after, other);
    }
    forall key | Known(t, key, now)
      ensures HasKey(after, key)
    {
      if key == op.key {
        HasKeyOf(after, item);
      } else {
        var other := ItemOfKey(w.items, key);
      }
    }
  }

  lemma StepAgrees(w: World, maxSize: nat, op: Op, now: int)
    requires Agrees(w, now) && Valid(w.items, maxSize) && maxSize >= 1
    ensures Agrees(Step(w, maxSize, op, now), now)
  {
    match op
    case GetOp(key) => GetAgrees(w, maxSize, key, now);
    case HasOp(key) => HasAgrees(w, maxSize, key, now);
    case SetOp(_, _, _, _) => SetAgrees(w, maxSize, op, now);
    case RemoveOp(key) => KeptAgrees(w, (item: Item) => item.key != key, {key}, now);
    case ClearOp =>
    case SizeOp =>
      KeptAgrees(w, (item: Item) => !Expired(item.entry.expiresAt, now), {}, now);
      assert w.reference - {} == w.reference && w.evicted - {} == w.evicted;
  }

  /** An operation and when it is made. */
  datatype Timed = Timed(op: Op, at: int)

  ghost predicate ClockRuns(ops: seq<Timed>) {
    forall i, j :: 0 <= i < j < |ops| ==> ops[i].at <= ops[j].at
  }

  ghost function Run(maxSize: nat, ops: seq<Timed>): World {
    if ops == [] then World([], map[], {}, 0)
    else Step(Run(maxSize, ops[..|ops| - 1]), maxSize, ops[|ops| - 1].op, ops[|ops| - 1].at)
  }

  /** Time passing keeps the agreement: what expires leaves both sides. */
  lemma LaterAgrees(w: World, now: int, later: int)
    requires Agrees(w, now) && now <= later
    ensures Agrees(w, later)
  {
    forall key | Known(w, key, later)
      ensures HasKey(w.items, key)
    {
      assert Known(w, key, now);
    }
  }

  lemma {:induction false} RunAgrees(maxSize: nat, ops: seq<Timed>, now: int)
    requires maxSize >= 1 && ClockRuns(ops) && (ops != [] ==> ops[|ops| - 1].at <= now)
    ensures Valid(Run(maxSize, ops).items, maxSize) && Agrees(Run(maxSize, ops), now)
  {
    if ops != [] {
      var (front, last) := (ops[..|ops| - 1], ops[|ops| - 1]);
      RunAgrees(maxSize, front, last.at);
      var w := Run(maxSize, front);
      ApplyKeepsValid(w.items, maxSize, last.op, last.at);
      StepAgrees(w, maxSize, last.op, last.at);
      LaterAgrees(Step(w, maxSize, last.op, last.at), last.at, now);
    }
  }

  /** After any operations under a clock that does not go back, the size bound holds and a read
      gives exactly the latest value that is not expired, removed or evicted. Every item has the
      priority and expiry it was last set with and the time of its last set or successful get, and the
      items stand in the order in which they were set. */
  lemma CacheRefinesMap(maxSize: nat, ops: seq<Timed>, key: Key, now: int)
    requires maxSize >= 1 && ClockRuns(ops) && (ops != [] ==> ops[|ops| - 1].at <= now)
    ensures var w := Run(maxSize, ops);
            && |w.items| <= maxSize && Follow(w.items, w.reference)
            && Lookup(w.items, key, now) == (if Known(w, key, now) then Some(w.reference[key].value) else None)
  {
    RunAgrees(maxSize, ops, now);
    var w := Run(maxSize, ops);
    FindFacts(w.items, key);
    if HasKey(w.items, key) {
      var item := ItemOfKey(w.items, key);
      assert Find(w.items, key) == Some(item.entry);
    }
  }

  ghost function Keys(items: seq<Item>): set<Key> {
    set item | item in items :: item.key
  }

  lemma {:induction false} KeysAreAsMany(items: seq<Item>)
    requires DistinctKeys(items)
    ensures |Keys(items)| == |items|
  {
    if items != [] {
      var (front, last) := (items[..|items| - 1], items[|items| - 1]);
      KeysAreAsMany(front);
      assert items == front + [last];
      assert Keys(items) == Keys(front) + {last.key};
    }
  }

  /** The size reported after any such operations is the number of keys that the map still has. */
  lemma SizeCountsKnownKeys(maxSize: nat, ops: seq<Timed>, now: int)
    requires maxSize >= 1 && ClockRuns(ops) && (ops != [] ==> ops[|ops| - 1].at <= now)
    ensures var w := Run(maxSize, ops);
            |Apply(w.items, maxSize, SizeOp, now)| == |set key | key in w.reference && Known(w, key, now)|
  {
    RunAgrees(maxSize, ops, now);
    var w := Run(maxSize, ops);
    var live := Apply(w.items, maxSize, SizeOp, now);
    UnexpiredFacts(w.items, now);
    KeysAreAsMany(live);
    forall key
      ensures key in Keys(live) <==> key in w.reference && Known(w, key, now)
    {
      if key in w.reference && Known(w, key, now) {
        var item := ItemOfKey(w.items, key);
        assert item in live;
      }
    }
    assert Keys(live) == set key | key in w.reference && Known(w, key, now);
  }

  /** An expired item does not outlast an operation that meets it: a read or a test of its key, a set or
      removal of it, or counting. */
  lemma ExpiredItemGoes(items: seq<Item>, maxSize: nat, op: Op, now: int, item: Item)
    requires Valid(items, maxSize) && item in items && !Live(item.entry.expiresAt, now)
    requires op.ClearOp? || op.SizeOp? || op.key == item.key
    ensures item !in Apply(items, maxSize, op, now) || (op.SetOp? && item.entry.lastAccessedAt == now)
  {
    FindFacts(items, item.key);
    WithoutFacts(items, item.key);
    UnexpiredFacts(items, now);
    HasKeyOf(items, item);
  }

  /** Whether `a` is worth less than `b`: lower priority, then longer unused, then set earlier. */
  predicate WorthLess(a: Reference, b: Reference) {
    || (a.priority.Low? && !b.priority.Low?)
    || (a.priority.Normal? && b.priority.High?)
    || (a.priority == b.priority
        && (a.lastUsedAt < b.lastUsedAt || (a.lastUsedAt == b.lastUsedAt && a.setBy < b.setBy)))
  }

  /** In any such run, a set evicts another key's live item only when the key is new and every slot is
      live, and then the one key worth less than all others. */
  lemma {:induction false} SetEvictsTheLeastWorth(maxSize: nat, ops: seq<Timed>, w: World, op: Op, now: int, gone: Key)
    requires maxSize >= 1 && ClockRuns(ops) && (ops != [] ==> ops[|ops| - 1].at <= now) && w == Run(maxSize, ops)
    requires op.SetOp? && gone in DroppedBySet(w.items, Apply(w.items, maxSize, op, now), op.key, now)
    ensures !HasKey(w.items, op.key) && |w.items| == maxSize
    ensures forall item :: item in w.items ==> Live(item.entry.expiresAt, now) && item.key in w.reference
    ensures gone in w.reference
    ensures forall item :: item in w.items && item.key != gone
              ==> item in Apply(w.items, maxSize, op, now) && WorthLess(w.reference[gone], w.reference[item.key])
  {
    RunAgrees(maxSize, ops, now);
    var item := Item(op.key, MakeEntry(op.value, op.timeToLiveMs, op.priority, now));
    var after := Apply(w.items, maxSize, op, now);
    var dropped :| dropped in w.items && dropped.key == gone && !HasKey(after, gone)
                   && Live(dropped.entry.expiresAt, now) && gone != op.key;
    if dropped in after {
      HasKeyOf(after, dropped);
    }
    SetDropsOnlyTheLeastValuable(w.items, maxSize, item, now, dropped);
    var i: nat :| IsLeast(w.items, i) && w.items[i] == dropped;
    forall other | other in w.items && other.key != gone
      ensures other in after && WorthLess(w.reference[gone], w.reference[other.key])
    {
      var j :| 0 <= j < |w.items| && w.items[j] == other;
      LeastIsWorthLess(w, i, j, now);
    }
  }

  lemma LeastIsWorthLess(w: World, i: nat, j: nat, now: int)
    requires Agrees(w, now) && IsLeast(w.items, i) && i != j && j < |w.items|
    requires w.items[i].key != w.items[j].key
    ensures w.items[i].key in w.reference && w.items[j].key in w.reference
    ensures WorthLess(w.reference[w.items[i].key], w.reference[w.items[j].key])
  {
    assert w.items[i] in w.items && w.items[j] in w.items;
    assert LessValuable(w.items, i, j);
  }
}
