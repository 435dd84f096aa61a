/** The content cache (lisp/relay-content-prefetch.el): an LRU with a global cap and a cap per directory. */
module ContentCache {
  import opened Common

  /** A cached file: authority, directory components, name. */
  datatype Key = Key(authority: string, dir: seq<string>, name: string)

  /** What one put stored: the bytes and the revision they came with. */
  datatype Item = Item(key: Key, bytes: Bytes, revision: Option<string>)

  /** Most recently used first. */
  type Items = seq<Item>

  // ---------------------------------------------------------------------------------------------
  // The cache as one list

  function Keys(items: Items): seq<Key> {
    if items == [] then [] else [items[0].key] + Keys(items[1..])
  }

  function Without(items: Items, key: Key): Items {
    if items == [] then []
    else if items[0].key == key then Without(items[1..], key)
    else [items[0]] + Without(items[1..], key)
  }

  predicate Direct(k: Key, authority: string, dir: seq<string>) { k.authority == authority && k.dir == dir }

  /** What `string-prefix-p` finds: also files in directories below. */
  predicate Below(k: Key, authority: string, dir: seq<string>) { k.authority == authority && dir <= k.dir }

  predicate Nested(k: Key, authority: string, dir: seq<string>) { Below(k, authority, dir) && k.dir != dir }

  /** `relay--content-cache-dir-count`. */
  function CountBelow(items: Items, authority: string, dir: seq<string>): nat {
    if items == [] then 0
    else CountBelow(items[1..], authority, dir) + if Below(items[0].key, authority, dir) then 1 else 0
  }

  function CountDirect(items: Items, authority: string, dir: seq<string>): nat {
    if items == [] then 0
    else CountDirect(items[1..], authority, dir) + if Direct(items[0].key, authority, dir) then 1 else 0
  }

  function CountNested(items: Items, authority: string, dir: seq<string>): nat {
    if items == [] then 0
    else CountNested(items[1..], authority, dir) + if Nested(items[0].key, authority, dir) then 1 else 0
  }

  /** Without the oldest direct entry of a directory. */
  function DropOldest(items: Items, authority: string, dir: seq<string>): Items {
    if items == [] then []
    else if CountDirect(items[1..], authority, dir) > 0 then [items[0]] + DropOldest(items[1..], authority, dir)
    else if Direct(items[0].key, authority, dir) then items[1..]
    else [items[0]] + items[1..]
  }

  lemma {:induction false} DropOldestCounts(items: Items, authority: string, dir: seq<string>)
    ensures var d := DropOldest(items, authority, dir);
      if CountDirect(items, authority, dir) == 0 then d == items
      else |d| == |items| - 1 && CountDirect(d, authority, dir) == CountDirect(items, authority, dir) - 1
    ensures CountNested(DropOldest(items, authority, dir), authority, dir) == CountNested(items, authority, dir)
  {
    if items != [] {
      DropOldestCounts(items[1..], authority, dir);
    }
  }

  lemma {:induction false} BelowIsDirectOrNested(items: Items, authority: string, dir: seq<string>)
    ensures CountBelow(items, authority, dir) == CountDirect(items, authority, dir) + CountNested(items, authority, dir)
  {
    if items != [] {
      BelowIsDirectOrNested(items[1..], authority, dir);
    }
  }

  /** The per-directory loop. */
  function TrimDir(items: Items, authority: string, dir: seq<string>, limit: nat): Items
    decreases |items|
  {
    DropOldestCounts(items, authority, dir);
    if CountBelow(items, authority, dir) > limit && CountDirect(items, authority, dir) > 0
    then TrimDir(DropOldest(items, authority, dir), authority, dir, limit)
    else items
  }

  /** The global loop. */
  function TrimAll(items: Items, limit: nat): Items {
    if |items| > limit then TrimAll(items[..|items| - 1], limit) else items
  }

  function Put(items: Items, item: Item, perDir: nat, lru: nat): Items {
    TrimAll(TrimDir([item] + Without(items, item.key), item.key.authority, item.key.dir, perDir), lru)
  }

  function Find(items: Items, key: Key): Option<Item> {
    if items == [] then None else if items[0].key == key then Some(items[0]) else Find(items[1..], key)
  }

  function Get(items: Items, key: Key): Items {
    if Find(items, key).Some? then [Find(items, key).value] + Without(items, key) else items
  }

  // ---------------------------------------------------------------------------------------------
  // What the loops keep

  predicate Unique(items: Items) { forall i, j | 0 <= i < j < |items| :: items[i].key != items[j].key }

  predicate Capped(items: Items, perDir: nat, lru: nat) {
    |items| <= lru && forall item <- items :: CountDirect(items, item.key.authority, item.key.dir) <= perDir
  }

  /** The per-directory loop leaves everything outside the directory, and of the directory the newest entries
      that fit beside those nested below it. */
  lemma {:induction false} TrimDirCounts(items: Items, authority: string, dir: seq<string>, limit: nat)
    ensures var t, nested := TrimDir(items, authority, dir, limit), CountNested(items, authority, dir);
      && CountNested(t, authority, dir) == nested
      && CountDirect(t, authority, dir) ==
         (if CountDirect(items, authority, dir) + nested <= limit then CountDirect(items, authority, dir)
          else if nested < limit then limit - nested else 0)
    decreases |items|
  {
    DropOldestCounts(items, authority, dir);
    BelowIsDirectOrNested(items, authority, dir);
    if CountBelow(items, authority, dir) > limit && CountDirect(items, authority, dir) > 0 {
      TrimDirCounts(DropOldest(items, authority, dir), authority, dir, limit);
    }
  }

  /** a is b with some entries left out, the rest in order. */
  predicate Within(a: Items, b: Items)
    decreases |b|
  {
    || a == []
    || (b != [] && Within(a, b[1..]))
    || (b != [] && a[0] == b[0] && Within(a[1..], b[1..]))
  }

  lemma {:induction false} WithinSelf(a: Items)
    ensures Within(a, a)
  {
    if a != [] {
      WithinSelf(a[1..]);
    }
  }

  lemma {:induction false} WithinTail(a: Items, b: Items)
    requires a != [] && Within(a, b)
    ensures Within(a[1..], b)
    decreases |b|
  {
    if Within(a, b[1..]) {
      WithinTail(a, b[1..]);
    }
  }

  lemma {:induction false} WithinOn(a: Items, b: Items, c: Items)
    requires Within(a, b) && Within(b, c)
    ensures Within(a, c)
    decreases |c|
  {
    if a != [] && b != [] && !Within(b, c[1..]) {
      if Within(a, b[1..]) {
        WithinOn(a, b[1..], c[1..]);
      } else {
        WithinOn(a[1..], b[1..], c[1..]);
      }
    } else if a != [] && b != [] {
      WithinOn(a, b, c[1..]);
    }
  }

  lemma {:induction false} WithinHas(a: Items, b: Items, item: Item)
    requires Within(a, b) && item in a
    ensures item in b
    decreases |b|
  {
    if Within(a, b[1..]) {
      WithinHas(a, b[1..], item);
    } else if item != a[0] {
      WithinHas(a[1..], b[1..], item);
    }
  }

  lemma {:induction false} WithinCounts(a: Items, b: Items, authority: string, dir: seq<string>)
    requires Within(a, b)
    ensures |a| <= |b| && CountDirect(a, authority, dir) <= CountDirect(b, authority, dir)
    decreases |b|
  {
    if a != [] {
      if Within(a, b[1..]) {
        WithinCounts(a, b[1..], authority, dir);
      } else {
        WithinCounts(a[1..], b[1..], authority, dir);
      }
    }
  }

  lemma {:induction false} WithinUnique(a: Items, b: Items)
    requires Within(a, b) && Unique(b)
    ensures Unique(a)
    decreases |b|
  {
    if a != [] {
      TailUnique(b);
      if Within(a, b[1..]) {
        WithinUnique(a, b[1..]);
      } else {
        WithinUnique(a[1..], b[1..]);
        forall item <- a[1..] ensures item.key != a[0].key {
          WithinHas(a[1..], b[1..], item);
          KeyOnce(b, item);
        }
        ConsUnique(a);
      }
    }
  }

  lemma TailUnique(b: Items)
    requires b != [] && Unique(b)
    ensures Unique(b[1..])
  {
    forall i, j | 0 <= i < j < |b[1..]| ensures b[1..][i].key != b[1..][j].key {
      assert b[1..][i] == b[i + 1] && b[1..][j] == b[j + 1];
    }
  }

  lemma KeyOnce(b: Items, item: Item)
    requires b != [] && Unique(b) && item in b[1..]
    ensures item.key != b[0].key
  {
    var k :| 0 <= k < |b[1..]| && b[1..][k] == item;
    assert b[k + 1] == item;
  }

  lemma ConsUnique(a: Items)
    requires a != [] && Unique(a[1..]) && forall item <- a[1..] :: item.key != a[0].key
    ensures Unique(a)
  {
    forall i, j | 0 <= i < j < |a| ensures a[i].key != a[j].key {
      assert a[j] == a[1..][j - 1];
      if i > 0 { assert a[i] == a[1..][i - 1]; }
    }
  }

  lemma {:induction false} WithoutIsWithin(items: Items, key: Key)
    ensures Within(Without(items, key), items)
    ensures forall item <- Without(items, key) :: item.key != key
  {
    if items != [] {
      WithoutIsWithin(items[1..], key);
    }
  }

  lemma {:induction false} DropOldestIsWithin(items: Items, authority: string, dir: seq<string>)
    ensures Within(DropOldest(items, authority, dir), items)
  {
    if items != [] {
      WithinSelf(items[1..]);
      DropOldestIsWithin(items[1..], authority, dir);
    }
  }

  lemma {:induction false} TrimDirIsWithin(items: Items, authority: string, dir: seq<string>, limit: nat)
    ensures Within(TrimDir(items, authority, dir, limit), items)
    decreases |items|
  {
    WithinSelf(items);
    DropOldestCounts(items, authority, dir);
    if CountBelow(items, authority, dir) > limit && CountDirect(items, authority, dir) > 0 {
      var d := DropOldest(items, authority, dir);
      DropOldestIsWithin(items, authority, dir);
      TrimDirIsWithin(d, authority, dir, limit);
      WithinOn(TrimDir(d, authority, dir, limit), d, items);
    }
  }

  lemma {:induction false} TrimAllIsPrefix(items: Items, limit: nat)
    ensures TrimAll(items, limit) == if |items| <= limit then items else items[..limit]
    decreases |items|
  {
    if |items| > limit {
      TrimAllIsPrefix(items[..|items| - 1], limit);
    }
  }

  lemma {:induction false} PrefixIsWithin(items: Items, n: nat)
    requires n <= |items|
    ensures Within(items[..n], items)
  {
    if n > 0 {
      PrefixIsWithin(items[1..], n - 1);
      assert items[..n][1..] == items[1..][..n - 1];
    }
  }

  lemma {:induction false} ConsWithin(item: Item, a: Items, b: Items)
    requires Within(a, b)
    ensures Within([item] + a, [item] + b)
  {
    assert ([item] + a)[1..] == a && ([item] + b)[1..] == b;
  }

  // ---------------------------------------------------------------------------------------------
  // Main results

  /** What survives a put is a part, in order, of the new entry followed by what was there. */
  lemma PutIsWithin(items: Items, item: Item, perDir: nat, lru: nat)
    ensures Within(Put(items, item, perDir, lru), [item] + Without(items, item.key))
    ensures Within(Put(items, item, perDir, lru), [item] + items)
  {
    var all := [item] + Without(items, item.key);
    var trimmed := TrimDir(all, item.key.authority, item.key.dir, perDir);
    TrimDirIsWithin(all, item.key.authority, item.key.dir, perDir);
    TrimAllIsPrefix(trimmed, lru);
    WithinSelf(trimmed);
    if |trimmed| > lru { PrefixIsWithin(trimmed, lru); }
    WithinOn(TrimAll(trimmed, lru), trimmed, all);
    WithoutIsWithin(items, item.key);
    ConsWithin(item, Without(items, item.key), items);
    WithinOn(TrimAll(trimmed, lru), all, [item] + items);
  }

  /** Both caps hold after every put, whatever was nested below; keys stay distinct. */
  lemma PutKeepsCaps(items: Items, item: Item, perDir: nat, lru: nat)
    requires Unique(items) && Capped(items, perDir, lru)
    ensures Unique(Put(items, item, perDir, lru)) && Capped(Put(items, item, perDir, lru), perDir, lru)
  {
    var p := Put(items, item, perDir, lru);
    var rest := Without(items, item.key);
    var a, d := item.key.authority, item.key.dir;
    var trimmed := TrimDir([item] + rest, a, d, perDir);
    WithoutIsWithin(items, item.key);
    WithinUnique(rest, items);
    assert ([item] + rest)[1..] == rest;
    ConsUnique([item] + rest);
    PutIsWithin(items, item, perDir, lru);
    WithinUnique(p, [item] + rest);
    TrimAllIsPrefix(trimmed, lru);
    if |trimmed| > lru { PrefixIsWithin(trimmed, lru); } else { WithinSelf(trimmed); }
    TrimDirCounts([item] + rest, a, d, perDir);
    forall other <- p ensures CountDirect(p, other.key.authority, other.key.dir) <= perDir {
      var b, e := other.key.authority, other.key.dir;
      if b == a && e == d {
        WithinCounts(p, trimmed, a, d);
      } else {
        WithinHas(p, [item] + rest, other);
        assert other in rest;
        WithinHas(rest, items, other);
        WithinCounts(rest, items, b, e);
        WithinCounts(p, [item] + rest, b, e);
      }
    }
  }

  lemma {:induction false} NewestDirectStays(items: Items, authority: string, dir: seq<string>, limit: nat)
    requires items != [] && Direct(items[0].key, authority, dir)
    ensures var t := TrimDir(items, authority, dir, limit);
      if CountNested(items, authority, dir) < limit then t != [] && t[0] == items[0]
      else CountDirect(t, authority, dir) == 0
    decreases |items|
  {
    TrimDirCounts(items, authority, dir, limit);
    DropOldestCounts(items, authority, dir);
    BelowIsDirectOrNested(items, authority, dir);
    if CountNested(items, authority, dir) < limit && CountBelow(items, authority, dir) > limit {
      assert CountDirect(items[1..], authority, dir) > 0;
      NewestDirectStays(DropOldest(items, authority, dir), authority, dir, limit);
    }
  }

  lemma {:induction false} NoDirect(items: Items, item: Item)
    requires CountDirect(items, item.key.authority, item.key.dir) == 0
    ensures item !in items
  {
    if items != [] {
      NoDirect(items[1..], item);
    }
  }

  /** A put survives its own call if and only if the files nested below its directory leave room under the
      directory's limit, and the cache may hold anything at all.  With the limit used up by nested files the
      call evicts the very entry it inserts, and every other direct entry of the directory with it. */
  lemma PutSurvivesExactly(items: Items, item: Item, perDir: nat, lru: nat)
    ensures var nested := CountNested(Without(items, item.key), item.key.authority, item.key.dir);
      var p := Put(items, item, perDir, lru);
      && (item in p <==> nested < perDir && lru > 0)
      && (item in p ==> p[0] == item)
      && (nested >= perDir ==> CountDirect(p, item.key.authority, item.key.dir) == 0)
  {
    var a, d := item.key.authority, item.key.dir;
    var all := [item] + Without(items, item.key);
    var trimmed := TrimDir(all, a, d, perDir);
    assert all[1..] == Without(items, item.key) && CountNested(all, a, d) == CountNested(all[1..], a, d);
    NewestDirectStays(all, a, d, perDir);
    TrimAllIsPrefix(trimmed, lru);
    if CountDirect(trimmed, a, d) == 0 {
      if |trimmed| > lru { PrefixIsWithin(trimmed, lru); WithinCounts(trimmed[..lru], trimmed, a, d); }
      NoDirect(Put(items, item, perDir, lru), item);
    }
  }

  lemma {:induction false} FindWithin(a: Items, b: Items, key: Key)
    requires Within(a, b) && Unique(b) && Find(a, key).Some?
    ensures Find(a, key) == Find(b, key)
    decreases |b|
  {
    TailUnique(b);
    if Within(a, b[1..]) {
      FindWithin(a, b[1..], key);
      FindHas(b[1..], key);
      KeyOnce(b, Find(b[1..], key).value);
    } else if a[0].key != key {
      FindWithin(a[1..], b[1..], key);
    }
  }

  lemma {:induction false} FindHas(items: Items, key: Key)
    requires Find(items, key).Some?
    ensures Find(items, key).value in items && Find(items, key).value.key == key
  {
    if items[0].key != key {
      FindHas(items[1..], key);
    }
  }

  /** What a lookup finds after a put is the put's own bytes and revision for its key, and for any other key
      what was there before, bytes and revision together. */
  lemma PutChangesOneKey(items: Items, item: Item, perDir: nat, lru: nat, key: Key)
    requires Unique(items) && Find(Put(items, item, perDir, lru), key).Some?
    ensures Find(Put(items, item, perDir, lru), key) == if key == item.key then Some(item) else Find(items, key)
  {
    var rest := Without(items, item.key);
    WithoutIsWithin(items, item.key);
    WithinUnique(rest, items);
    assert ([item] + rest)[1..] == rest;
    ConsUnique([item] + rest);
    PutIsWithin(items, item, perDir, lru);
    FindWithin(Put(items, item, perDir, lru), [item] + rest, key);
    if key != item.key {
      FindWithin(rest, items, key);
    }
  }

  lemma {:induction false} WithoutCount(items: Items, key: Key, authority: string, dir: seq<string>)
    requires Unique(items) && Find(items, key).Some?
    ensures |Without(items, key)| == |items| - 1
    ensures CountDirect(Without(items, key), authority, dir) + (if Direct(key, authority, dir) then 1 else 0)
         == CountDirect(items, authority, dir)
  {
    TailUnique(items);
    if items[0].key == key {
      forall item <- items[1..] ensures item.key != key {
        KeyOnce(items, item);
      }
      WithoutAbsent(items[1..], key);
    } else {
      WithoutCount(items[1..], key, authority, dir);
    }
  }

  lemma {:induction false} WithoutAbsent(items: Items, key: Key)
    requires forall item <- items :: item.key != key
    ensures Without(items, key) == items
  {
    if items != [] {
      WithoutAbsent(items[1..], key);
    }
  }

  /** A lookup only reorders, and an eviction only removes: neither can break a cap. */
  lemma GetAndEvictKeepCaps(items: Items, key: Key, perDir: nat, lru: nat)
    requires Unique(items) && Capped(items, perDir, lru)
    ensures Unique(Get(items, key)) && Capped(Get(items, key), perDir, lru)
    ensures Unique(Without(items, key)) && Capped(Without(items, key), perDir, lru)
  {
    var rest := Without(items, key);
    WithoutIsWithin(items, key);
    WithinUnique(rest, items);
    forall other <- rest ensures CountDirect(rest, other.key.authority, other.key.dir) <= perDir {
      WithinHas(rest, items, other);
      WithinCounts(rest, items, other.key.authority, other.key.dir);
    }
    WithinCounts(rest, items, "", []);
    if Find(items, key).Some? {
      var found := Find(items, key).value;
      FindHas(items, key);
      assert Get(items, key)[1..] == rest;
      ConsUnique(Get(items, key));
      forall other <- Get(items, key)
        ensures CountDirect(Get(items, key), other.key.authority, other.key.dir) <= perDir
      {
        WithoutCount(items, key, other.key.authority, other.key.dir);
        if other != found { WithinHas(rest, items, other); }
      }
      WithoutCount(items, key, "", []);
    }
  }
}
