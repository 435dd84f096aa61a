/** The three tables of the content cache, updated in place, against the one list. */
module ContentCacheCode {
  import opened Common
  import opened ContentCache

  /** `delete`. */
  function Delete(order: seq<Key>, key: Key): seq<Key> {
    if order == [] then []
    else if order[0] == key then Delete(order[1..], key)
    else [order[0]] + Delete(order[1..], key)
  }

  lemma {:induction false} KeysWithout(items: Items, key: Key)
    ensures Keys(Without(items, key)) == Delete(Keys(items), key)
  {
    if items != [] {
      KeysWithout(items[1..], key);
      assert Keys(items)[1..] == Keys(items[1..]);
      if items[0].key != key {
        assert Without(items, key)[1..] == Without(items[1..], key);
      }
    }
  }

  lemma {:induction false} KeysAt(items: Items)
    ensures |Keys(items)| == |items| && forall i | 0 <= i < |items| :: Keys(items)[i] == items[i].key
  {
    if items != [] {
      KeysAt(items[1..]);
    }
  }

  lemma {:induction false} WithoutLast(items: Items)
    requires items != [] && Unique(items)
    ensures Without(items, items[|items| - 1].key) == items[..|items| - 1]
  {
    if |items| > 1 {
      TailUnique(items);
      WithoutLast(items[1..]);
      assert items[1..][|items[1..]| - 1] == items[|items| - 1];
      assert items[..|items| - 1] == [items[0]] + items[1..][..|items[1..]| - 1];
    }
  }

  /** The last direct key from the end is the one DropOldest drops. */
  lemma {:induction false} OldestIsDropped(items: Items, authority: string, dir: seq<string>, n: nat)
    requires Unique(items) && n < |items| && Direct(items[n].key, authority, dir)
    requires forall i | n < i < |items| :: !Direct(items[i].key, authority, dir)
    ensures DropOldest(items, authority, dir) == Without(items, items[n].key)
    ensures CountDirect(items, authority, dir) > 0
  {
    TailUnique(items);
    if n == 0 {
      NoneDirect(items[1..], authority, dir);
      forall item <- items[1..] ensures item.key != items[0].key {
        KeyOnce(items, item);
      }
      WithoutAbsent(items[1..], items[0].key);
    } else {
      assert items[1..][n - 1] == items[n];
      forall i | n - 1 < i < |items[1..]| ensures !Direct(items[1..][i].key, authority, dir) {
        assert items[1..][i] == items[i + 1];
      }
      OldestIsDropped(items[1..], authority, dir, n - 1);
    }
  }

  lemma {:induction false} NoneDirect(items: Items, authority: string, dir: seq<string>)
    requires forall item <- items :: !Direct(item.key, authority, dir)
    ensures CountDirect(items, authority, dir) == 0
  {
    if items != [] {
      NoneDirect(items[1..], authority, dir);
    }
  }

  /** What the tables say of one key. */
  predicate Says(content: map<Key, Bytes>, revisions: map<Key, string>, item: Item) {
    && item.key in content && content[item.key] == item.bytes
    && match item.revision
       case Some(r) => item.key in revisions && revisions[item.key] == r
       case None => item.key !in revisions
  }

  predicate Tables(content: map<Key, Bytes>, revisions: map<Key, string>, items: Items) {
    && (forall item <- items :: Says(content, revisions, item))
    && (forall k <- content.Keys + revisions.Keys :: Find(items, k).Some?)
  }

  lemma {:induction false} FindIs(items: Items, item: Item)
    requires Unique(items) && item in items
    ensures Find(items, item.key) == Some(item)
  {
    if item != items[0] {
      TailUnique(items);
      KeyOnce(items, item);
      FindIs(items[1..], item);
    }
  }

  lemma {:induction false} FindWithout(items: Items, key: Key, k: Key)
    ensures Find(Without(items, key), k) == if k == key then None else Find(items, k)
  {
    if items != [] {
      FindWithout(items[1..], key, k);
    }
  }

  lemma EvictTables(content: map<Key, Bytes>, revisions: map<Key, string>, items: Items, key: Key)
    requires Tables(content, revisions, items)
    ensures Tables(content - {key}, revisions - {key}, Without(items, key))
  {
    WithoutIsWithin(items, key);
    forall item <- Without(items, key) ensures Says(content - {key}, revisions - {key}, item) {
      WithinHas(Without(items, key), items, item);
    }
    forall k <- content.Keys + revisions.Keys | k != key ensures Find(Without(items, key), k).Some? {
      FindWithout(items, key, k);
    }
  }

  lemma InsertTables(content: map<Key, Bytes>, revisions: map<Key, string>, rest: Items, item: Item)
    requires Tables(content, revisions, rest) && (forall other <- rest :: other.key != item.key)
    requires item.key !in content && item.key !in revisions
    ensures Tables(content[item.key := item.bytes],
                   if item.revision.Some? then revisions[item.key := item.revision.value] else revisions, [item] + rest)
  {
    var c := content[item.key := item.bytes];
    var r := if item.revision.Some? then revisions[item.key := item.revision.value] else revisions;
    forall other <- [item] + rest ensures Says(c, r, other) {
      if other != item {
        assert other in rest && Says(content, revisions, other);
      }
    }
    assert ([item] + rest)[1..] == rest;
    forall k <- c.Keys + r.Keys ensures Find([item] + rest, k).Some? {
      assert k == item.key || k in content.Keys + revisions.Keys;
    }
  }

  class Cache {
    var content: map<Key, Bytes>
    var revisions: map<Key, string>
    var order: seq<Key>
    const perDir: nat
    const lru: nat
    /** What the three tables hold together. */
    ghost var items: Items

    /** The three tables are in step. */
    ghost predicate InStep()
      reads this
    {
      order == Keys(items) && Unique(items) && Tables(content, revisions, items)
    }

    /** And both caps hold. */
    ghost predicate Valid()
      reads this
    {
      InStep() && Capped(items, perDir, lru)
    }

    constructor (perDir: nat, lru: nat)
      ensures Valid() && items == [] && this.perDir == perDir && this.lru == lru
    {
      content, revisions, order, this.perDir, this.lru, items := map[], map[], [], perDir, lru, [];
    }

    /** `relay--content-cache-dir-count`. */
    method DirCount(authority: string, dir: seq<string>) returns (n: nat)
      requires InStep()
      ensures n == CountBelow(items, authority, dir)
    {
      n := 0;
      KeysAt(items);
      var i := |order|;
      assert items[|items|..] == [];
      while i > 0
        invariant 0 <= i <= |order| && n == CountBelow(items[i..], authority, dir)
      {
        i := i - 1;
        assert items[i..][1..] == items[i + 1..];
        if order[i].authority == authority && dir <= order[i].dir {
          n := n + 1;
        }
      }
      assert items[0..] == items;
    }

    /** `relay--content-cache-evict`. */
    method Evict(key: Key)
      requires InStep()
      modifies this
      ensures InStep() && items == Without(old(items), key) && (old(Valid()) ==> Valid())
    {
      if Valid() { GetAndEvictKeepCaps(items, key, perDir, lru); }
      EvictTables(content, revisions, items, key);
      KeysWithout(items, key);
      WithoutIsWithin(items, key);
      WithinUnique(Without(items, key), items);
      content := content - {key};
      revisions := revisions - {key};
      order := Delete(order, key);
      items := Without(items, key);
    }

    /** `seq-find` over the reversed order: the oldest entry directly in the directory. */
    method OldestDirect(authority: string, dir: seq<string>) returns (victim: Option<Key>)
      requires InStep()
      ensures match victim
        case None => CountDirect(items, authority, dir) == 0
        case Some(key) =>
          CountDirect(items, authority, dir) > 0 && DropOldest(items, authority, dir) == Without(items, key)
    {
      KeysAt(items);
      var i := |order|;
      while i > 0
        invariant 0 <= i <= |order|
        invariant forall j | i <= j < |order| :: !Direct(items[j].key, authority, dir)
      {
        i := i - 1;
        if order[i].authority == authority && order[i].dir == dir {
          OldestIsDropped(items, authority, dir, i);
          return Some(order[i]);
        }
      }
      NoneDirect(items, authority, dir);
      return None;
    }

    /** `relay--content-cache-put`. */
    method Put(key: Key, bytes: Bytes, revision: Option<string>)
      requires Valid()
      modifies this
      ensures Valid() && items == ContentCache.Put(old(items), Item(key, bytes, revision), perDir, lru)
    {
      PutKeepsCaps(items, Item(key, bytes, revision), perDir, lru);
      Insert(Item(key, bytes, revision));
      TrimDirectory(key.authority, key.dir);
      TrimCache();
    }

    /** The global loop. */
    method TrimCache()
      requires InStep()
      modifies this
      ensures InStep() && items == TrimAll(old(items), lru)
    {
      KeysAt(items);
      while |order| > lru
        invariant InStep() && |order| == |items| && TrimAll(items, lru) == TrimAll(old(items), lru)
        decreases |order|
      {
        KeysAt(items);
        WithoutLast(items);
        Evict(order[|order| - 1]);
        KeysAt(items);
      }
    }

    /** The three updates a put begins with. */
    method Insert(item: Item)
      requires InStep()
      modifies this
      ensures InStep() && items == [item] + Without(old(items), item.key)
    {
      ghost var rest := Without(items, item.key);
      EvictTables(content, revisions, items, item.key);
      KeysWithout(items, item.key);
      WithoutIsWithin(items, item.key);
      WithinUnique(rest, items);
      ghost var c, r := content - {item.key}, revisions - {item.key};
      InsertTables(c, r, rest, item);
      content := content[item.key := item.bytes];
      assert content == c[item.key := item.bytes];
      if item.revision.Some? {
        revisions := revisions[item.key := item.revision.value];
        assert revisions == r[item.key := item.revision.value];
      } else {
        revisions := revisions - {item.key};
      }
      order := [item.key] + Delete(order, item.key);
      items := [item] + rest;
      assert items[1..] == rest;
      ConsUnique(items);
    }

    /** The per-directory loop. */
    method TrimDirectory(authority: string, dir: seq<string>)
      requires InStep()
      modifies this
      ensures InStep() && items == TrimDir(old(items), authority, dir, perDir)
    {
      var searching := true;
      var count := DirCount(authority, dir);
      while searching && count > perDir
        invariant InStep() && count == CountBelow(items, authority, dir)
        invariant TrimDir(items, authority, dir, perDir) == TrimDir(old(items), authority, dir, perDir)
        invariant !searching ==> CountDirect(items, authority, dir) == 0
        decreases searching, |items|
      {
        var victim := OldestDirect(authority, dir);
        DropOldestCounts(items, authority, dir);
        if victim.Some? {
          Evict(victim.value);
          count := DirCount(authority, dir);
        } else {
          searching := false;
        }
      }
    }

    /** `relay--content-cache-get-entry`. */
    method GetEntry(key: Key) returns (entry: Option<Item>)
      requires Valid()
      modifies this
      ensures Valid() && items == Get(old(items), key) && entry == Find(old(items), key)
    {
      GetAndEvictKeepCaps(items, key, perDir, lru);
      ghost var found := Find(items, key);
      if found.Some? {
        FindHas(items, key);
        assert Says(content, revisions, found.value);
      }
      if key !in content {
        return None;
      }
      var revision := if key in revisions then Some(revisions[key]) else None;
      entry := Some(Item(key, content[key], revision));
      Touch(entry.value);
    }

    /** `(cons key (delete key order))`. */
    method Touch(item: Item)
      requires InStep() && Find(items, item.key) == Some(item)
      modifies `order, `items
      ensures InStep() && items == [item] + Without(old(items), item.key)
    {
      ghost var rest := Without(items, item.key);
      EvictTables(content, revisions, items, item.key);
      KeysWithout(items, item.key);
      WithoutIsWithin(items, item.key);
      WithinUnique(rest, items);
      FindHas(items, item.key);
      forall other <- rest ensures Says(content, revisions, other) {
        WithinHas(rest, items, other);
      }
      forall k <- content.Keys + revisions.Keys ensures Find([item] + rest, k).Some? {
        FindWithout(items, item.key, k);
      }
      order := [item.key] + Delete(order, item.key);
      items := [item] + rest;
      assert items[1..] == rest;
      ConsUnique(items);
    }

    /** `relay--content-cache-evict-prefix`: the path itself and everything below it. */
    method EvictPrefix(authority: string, path: seq<string>)
      requires Valid()
      modifies this
      ensures Valid() && Within(items, old(items))
      ensures forall item <- old(items) :: item in items <==> !AtOrBelow(item.key, authority, path)
    {
      var keys := order;
      KeysAt(items);
      WithinSelf(items);
      for i := 0 to |keys|
        invariant Valid() && Within(items, old(items))
        invariant forall j | 0 <= j < |keys| ::
          old(items)[j] in items <==> (i <= j || !AtOrBelow(keys[j], authority, path))
      {
        if AtOrBelow(keys[i], authority, path) {
          ghost var before := items;
          Evict(keys[i]);
          WithoutIsWithin(before, keys[i]);
          WithinOn(items, before, old(items));
          forall j | 0 <= j < |keys| && j != i ensures old(items)[j] in items <==> old(items)[j] in before {
            StaysWithout(before, old(items)[j], keys[i]);
            if old(items)[j] in items { WithinHas(items, before, old(items)[j]); }
          }
        }
      }
    }
  }

  predicate AtOrBelow(k: Key, authority: string, path: seq<string>) {
    k.authority == authority && path <= k.dir + [k.name]
  }

  lemma {:induction false} StaysWithout(items: Items, item: Item, key: Key)
    requires item.key != key
    ensures item in items ==> item in Without(items, key)
  {
    if items != [] && item in items {
      if item != items[0] { StaysWithout(items[1..], item, key); }
    }
  }
}
