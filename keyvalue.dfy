/** The Redis state the engine writes: the `global_item` hash from cache key to
    record, and the named lists of cache keys, newest first. */
module KeyValue {
  import opened Records

  type Lists = map<string, seq<string>>

  /** A list as `LRANGE 0 -1` reads it: one never pushed to is empty. */
  function ListOf(lists: Lists, name: string): seq<string> {
    if name in lists then lists[name] else []
  }

  /** `LPUSH name key`: `key` becomes the first entry of `name`, and no other
      list changes. */
  function Push(lists: Lists, name: string, key: string): Lists {
    lists[name := [key] + ListOf(lists, name)]
  }

  /** After `LPUSH name key`, `name` starts with `key` followed by what it held,
      and every other list reads as before. */
  lemma PushAt(lists: Lists, name: string, key: string, n: string)
    ensures ListOf(Push(lists, name, key), n) == if n == name then [key] + ListOf(lists, n) else ListOf(lists, n)
  {
  }

  /** One `LPUSH` of `key` to each of `names`, in order. */
  function PushAll(lists: Lists, names: seq<string>, key: string): Lists
    decreases |names|
  {
    if names == [] then lists
    else Push(PushAll(lists, names[..|names| - 1], key), names[|names| - 1], key)
  }

  /** How often `x` occurs in `s`. */
  function Count<T(==)>(s: seq<T>, x: T): nat
    decreases |s|
  {
    if s == [] then 0
    else Count(s[..|s| - 1], x) + (if s[|s| - 1] == x then 1 else 0)
  }

  function Repeat<T>(x: T, n: nat): (r: seq<T>)
    ensures |r| == n && forall i :: 0 <= i < n ==> r[i] == x
  {
    if n == 0 then [] else [x] + Repeat(x, n - 1)
  }

  lemma {:induction false} CountAppend<T>(a: seq<T>, b: seq<T>, x: T)
    ensures Count(a + b, x) == Count(a, x) + Count(b, x)
    decreases |b|
  {
    if b == [] {
      assert a + b == a;
    } else {
      assert (a + b)[..|a + b| - 1] == a + b[..|b| - 1];
      CountAppend(a, b[..|b| - 1], x);
    }
  }

  /** After the pushes, each list holds one copy of `key` per push to it, in
      front of everything it held before: entries are only ever added. */
  lemma {:induction false} PushAllAt(lists: Lists, names: seq<string>, key: string, name: string)
    ensures ListOf(PushAll(lists, names, key), name) == Repeat(key, Count(names, name)) + ListOf(lists, name)
    decreases |names|
  {
    if names != [] {
      var init := names[..|names| - 1];
      PushAllAt(lists, init, key, name);
      PushAt(PushAll(lists, init, key), names[|names| - 1], key, name);
      if names[|names| - 1] == name {
        assert Repeat(key, Count(init, name) + 1) == [key] + Repeat(key, Count(init, name));
      }
    }
  }

  /** A list none of the pushes names is untouched. */
  lemma PushAllElsewhere(lists: Lists, names: seq<string>, key: string, name: string)
    requires name !in names
    ensures ListOf(PushAll(lists, names, key), name) == ListOf(lists, name)
  {
    PushAllAt(lists, names, key, name);
    CountZero(names, name);
  }

  lemma {:induction false} CountZero<T>(s: seq<T>, x: T)
    requires x !in s
    ensures Count(s, x) == 0
    decreases |s|
  {
    if s != [] {
      CountZero(s[..|s| - 1], x);
    }
  }

  /** Pushing to `a` then to `b` is pushing to `a + b`. */
  lemma {:induction false} PushAllAppend(lists: Lists, a: seq<string>, b: seq<string>, key: string)
    ensures PushAll(lists, a + b, key) == PushAll(PushAll(lists, a, key), b, key)
    decreases |b|
  {
    if b == [] {
      assert a + b == a;
    } else {
      assert (a + b)[..|a + b| - 1] == a + b[..|b| - 1];
      PushAllAppend(lists, a, b[..|b| - 1], key);
    }
  }

  /** The Redis database: the `global_item` hash and every list. */
  class Store {
    var items: map<string, Record>
    var lists: Lists

    constructor ()
      ensures items == map[] && lists == map[]
    {
      items := map[];
      lists := map[];
    }

    /** `HSET global_item key record`. */
    method HSet(key: string, record: Record)
      modifies this
      ensures items == old(items)[key := record] && lists == old(lists)
    {
      items := items[key := record];
    }

    /** `HDEL global_item key`; deleting a missing key does nothing. */
    method HDel(key: string)
      modifies this
      ensures items == old(items) - {key} && lists == old(lists)
    {
      items := items - {key};
    }

    /** `LPUSH name key`. */
    method LPush(name: string, key: string)
      modifies this
      ensures lists == Push(old(lists), name, key) && items == old(items)
    {
      lists := Push(lists, name, key);
    }
  }
}
