/** The LRU plan cache: a key map beside a recency list, with an optional time to live. List and map refine one sequence
    of entries, most recently used first, and the main results describe that sequence by the history of calls alone. */
module PlanCache {
  import opened Wrappers

  /** What the cache stores; an entry without an expiry never goes stale. */
  datatype Entry<V> = Entry(key: string, val: V, expiresAt: Option<int>)

  // ---------------------------------------------------------------- the recency sequence

  /** The position of an element of a list, or its length when it is not there. */
  function Position<T(==)>(list: seq<T>, x: T): (i: nat)
    ensures i <= |list|
    ensures i < |list| ==> list[i] == x
    ensures forall j: nat | j < i :: list[j] != x
  {
    if list == [] || list[0] == x then 0 else 1 + Position(list[1..], x)
  }

  /** The position of a key, or the length when no entry has it. */
  function Find<V>(s: seq<Entry<V>>, key: string): (i: nat)
    ensures i <= |s|
    ensures i < |s| ==> s[i].key == key
    ensures forall j: nat | j < i :: s[j].key != key
  {
    if s == [] || s[0].key == key then 0 else 1 + Find(s[1..], key)
  }

  predicate Holds<V>(s: seq<Entry<V>>, key: string) {
    Find(s, key) < |s|
  }

  function Without<T>(s: seq<T>, i: nat): (r: seq<T>)
    requires i < |s|
    ensures |r| == |s| - 1
    ensures forall j: nat | j < |r| :: r[j] == s[if j < i then j else j + 1]
  {
    s[..i] + s[i + 1..]
  }

  predicate Unexpired<V>(e: Entry<V>, now: int) {
    e.expiresAt.None? || now < e.expiresAt.value
  }

  function Lookup<V>(s: seq<Entry<V>>, key: string, now: int): Option<V> {
    var i := Find(s, key);
    if i < |s| && Unexpired(s[i], now) then Some(s[i].val) else None
  }

  function AfterGet<V>(s: seq<Entry<V>>, key: string, now: int): seq<Entry<V>> {
    var i := Find(s, key);
    if i == |s| then s
    else if Unexpired(s[i], now) then [s[i]] + Without(s, i)
    else Without(s, i)
  }

  /** The expiry a Put stamps on its entry. */
  function Stamp(ttl: int, now: int): Option<int> {
    if ttl > 0 then Some(now + ttl) else None
  }

  function AfterPut<V>(s: seq<Entry<V>>, cap: nat, ttl: int, key: string, val: V, now: int): seq<Entry<V>> {
    var e := Entry(key, val, Stamp(ttl, now));
    var i := Find(s, key);
    if i < |s| then [e] + Without(s, i)
    else if |s| + 1 > cap then ([e] + s)[..|s|]
    else [e] + s
  }

  predicate DistinctKeys<V>(s: seq<Entry<V>>) {
    forall i: nat, j: nat | i < j < |s| :: s[i].key != s[j].key
  }

  // ---------------------------------------------------------------- the cache object

  /** A list element and the entry it points to, which Put overwrites in place. */
  class Element<V> {
    const key: string
    var val: V
    var expiresAt: Option<int>

    constructor (key: string, val: V, expiresAt: Option<int>)
      ensures this.key == key && this.val == val && this.expiresAt == expiresAt
    {
      this.key := key;
      this.val := val;
      this.expiresAt := expiresAt;
    }
  }

  /** The map and the list hold the same elements, one per key. */
  ghost predicate Linked<V>(ll: seq<Element<V>>, items: map<string, Element<V>>) {
    && (forall i: nat | i < |ll| :: ll[i].key in items && items[ll[i].key] == ll[i])
    && (forall key | key in items :: items[key] in ll && items[key].key == key)
    && (forall i: nat, j: nat | i < j < |ll| :: ll[i].key != ll[j].key)
  }

  lemma InWithout<T>(s: seq<T>, i: nat, x: T)
    requires i < |s| && x in s && x != s[i]
    ensures x in Without(s, i)
  {
    var j := Position(s, x);
    assert Without(s, i)[if j < i then j else j - 1] == x;
  }

  lemma Unlink<V>(ll: seq<Element<V>>, items: map<string, Element<V>>, i: nat)
    requires Linked(ll, items) && i < |ll|
    ensures Linked(Without(ll, i), items - {ll[i].key})
  {
    hide Without, Position;
    var ll2, items2 := Without(ll, i), items - {ll[i].key};
    forall key | key in items2 ensures items2[key] in ll2 {
      InWithout(ll, i, items[key]);
    }
  }

  lemma LinkFront<V>(ll: seq<Element<V>>, items: map<string, Element<V>>, el: Element<V>)
    requires Linked(ll, items) && el.key !in items
    ensures Linked([el] + ll, items[el.key := el])
  {
    var ll2, items2 := [el] + ll, items[el.key := el];
    forall key | key in items2 ensures items2[key] in ll2 {
      if key == el.key {
        assert ll2[0] == el;
      }
    }
  }

  lemma DistinctElements<V>(ll: seq<Element<V>>, items: map<string, Element<V>>)
    requires Linked(ll, items)
    ensures forall i: nat, j: nat | i < |ll| && j < |ll| && i != j :: ll[i] != ll[j]
  {
    forall i: nat, j: nat | i < |ll| && j < |ll| && i != j ensures ll[i] != ll[j] {
      if i < j {
        assert ll[i].key != ll[j].key;
      } else {
        assert ll[j].key != ll[i].key;
      }
    }
  }

  lemma RelinkFront<V>(ll: seq<Element<V>>, items: map<string, Element<V>>, i: nat)
    requires Linked(ll, items) && i < |ll|
    ensures Linked([ll[i]] + Without(ll, i), items)
  {
    assert ll[i].key in items && items[ll[i].key] == ll[i];
    hide Linked, Without;
    Unlink(ll, items, i);
    LinkFront(Without(ll, i), items - {ll[i].key}, ll[i]);
    assert (items - {ll[i].key})[ll[i].key := ll[i]] == items;
  }

  lemma FrontedAt<T>(s: seq<T>, i: nat, x: T, k: nat)
    requires i < |s| && 0 < k < |s|
    ensures ([x] + Without(s, i))[k] == s[if k - 1 < i then k - 1 else k]
  {
    assert ([x] + Without(s, i))[k] == Without(s, i)[k - 1];
  }

  lemma WithoutLast<T>(s: seq<T>)
    requires |s| > 0
    ensures Without(s, |s| - 1) == s[..|s| - 1]
  {
  }

  /** The three outcomes of a Put. */
  lemma PutCases<V>(s: seq<Entry<V>>, cap: nat, ttl: int, key: string, val: V, now: int)
    ensures var e, s2 := Entry(key, val, Stamp(ttl, now)), AfterPut(s, cap, ttl, key, val, now);
            && (Holds(s, key) ==> s2 == [e] + Without(s, Find(s, key)))
            && (!Holds(s, key) && |s| + 1 <= cap ==> s2 == [e] + s)
            && (!Holds(s, key) && |s| + 1 > cap ==> s2 == ([e] + s)[..|s|])
  {
    hide Find, Without;
  }

  class MemoryCache<V> {
    const cap: nat
    const ttl: int
    var ll: seq<Element<V>> // front of the list first
    var items: map<string, Element<V>>
    ghost var entries: seq<Entry<V>>

    /** The entries mirror the list, and the map is linked to it. */
    ghost predicate Mirrored()
      reads this, ll
    {
      && |entries| == |ll|
      && (forall i: nat | i < |ll| :: entries[i] == Entry(ll[i].key, ll[i].val, ll[i].expiresAt))
      && Linked(ll, items)
    }

    ghost predicate Valid()
      reads this, ll
    {
      cap >= 1 && |ll| <= cap && Mirrored()
    }

    constructor (capacity: int, ttl: int)
      ensures Valid() && entries == []
      ensures cap == (if capacity < 1 then 1 else capacity) && this.ttl == ttl
    {
      cap := if capacity < 1 then 1 else capacity;
      this.ttl := ttl;
      ll, items, entries := [], map[], [];
    }

    /** The map knows exactly the stored keys, and leads to their place in the list. */
    lemma ItemPosition(key: string)
      requires Valid()
      ensures key in items <==> Holds(entries, key)
      ensures key in items ==> items[key].key == key && Position(ll, items[key]) == Find(entries, key) < |ll|
    {
      hide Find, Position;
      var i := Find(entries, key);
      if i < |ll| {
        assert ll[i].key == key;
      }
      if key in items {
        var p := Position(ll, items[key]);
        assert items[key] in ll;
        assert p < |ll| && entries[p].key == key;
      }
    }

    /** An expired entry is removed and reported as a miss; a hit moves to the front. */
    method Get(key: string, now: int) returns (r: Option<V>)
      requires Valid()
      modifies this
      ensures Valid()
      ensures r == Lookup(old(entries), key, now)
      ensures entries == AfterGet(old(entries), key, now)
    {
      hide Linked, Find, Position, Without;
      ItemPosition(key);
      if key !in items {
        return None;
      }
      var el := items[key];
      var i := Position(ll, el);
      Unlink(ll, items, i);
      RelinkFront(ll, items, i);
      if el.expiresAt.Some? && now >= el.expiresAt.value {
        ll := Without(ll, i);
        items := items - {key};
        entries := Without(entries, i);
        return None;
      }
      ll := [el] + Without(ll, i);
      entries := [entries[i]] + Without(entries, i);
      return Some(el.val);
    }

    /** Overwrites and refreshes a known key; otherwise adds it and evicts the back of the list when over capacity. */
    method Put(key: string, val: V, now: int)
      requires Valid()
      modifies this, ll
      ensures Valid()
      ensures entries == AfterPut(old(entries), cap, ttl, key, val, now)
      ensures forall el | el in ll :: el in old(ll) || fresh(el)
    {
      hide Valid, AfterPut, Linked, Find, Position, Without, Holds;
      var exp := if ttl > 0 then Some(now + ttl) else None;
      ItemPosition(key);
      PutCases(entries, cap, ttl, key, val, now);
      if key in items {
        Overwrite(items[key], val, exp);
      } else {
        Insert(key, val, exp);
      }
    }

    /** The branch of Put for a key the cache has. */
    method Overwrite(el: Element<V>, val: V, exp: Option<int>)
      requires Valid() && el.key in items && items[el.key] == el
      modifies this, ll
      ensures Valid() && Holds(old(entries), el.key)
      ensures entries == [Entry(el.key, val, exp)] + Without(old(entries), Find(old(entries), el.key))
      ensures forall x | x in ll :: x in old(ll)
    {
      hide Linked, Find, Position, Without;
      ItemPosition(el.key);
      var i := Position(ll, el);
      RelinkFront(ll, items, i);
      DistinctElements(ll, items);
      el.val := val;
      el.expiresAt := exp;
      ll := [el] + Without(ll, i);
      entries := [Entry(el.key, val, exp)] + Without(entries, i);
      forall k: nat | k < |ll|
        ensures entries[k] == Entry(ll[k].key, ll[k].val, ll[k].expiresAt) && ll[k] in old(ll)
      {
        if k > 0 {
          ghost var q := if k - 1 < i then k - 1 else k;
          FrontedAt(old(ll), i, el, k);
          FrontedAt(old(entries), i, Entry(el.key, val, exp), k);
          assert ll[k] == old(ll)[q] != el;
        }
      }
    }

    /** The branch of Put for a new key. */
    method Insert(key: string, val: V, exp: Option<int>)
      requires Valid() && key !in items
      modifies this
      ensures Valid()
      ensures var longer := [Entry(key, val, exp)] + old(entries);
              entries == if |longer| <= cap then longer else longer[..|longer| - 1]
      ensures forall x | x in ll :: x in old(ll) || fresh(x)
    {
      hide Linked;
      var el := new Element(key, val, exp);
      LinkFront(ll, items, el);
      ll := [el] + ll;
      items := items[key := el];
      entries := [Entry(key, val, exp)] + entries;
      if |ll| > cap {
        EvictBack();
      }
    }

    /** Drops the last list element and its map entry. */
    method EvictBack()
      requires Mirrored() && |ll| > 0
      modifies this
      ensures Mirrored() && ll == old(ll)[..|old(ll)| - 1] && entries == old(entries)[..|old(entries)| - 1]
    {
      hide Linked, Without;
      var oldest := ll[|ll| - 1];
      Unlink(ll, items, |ll| - 1);
      WithoutLast(ll);
      ll := ll[..|ll| - 1];
      items := items - {oldest.key};
      entries := entries[..|entries| - 1];
    }
  }

  // -------------------------------------------------------------- histories of calls, and what they say about each key

  datatype Call<V> =
    | GetCall(key: string, now: int)
    | PutCall(key: string, val: V, now: int)

  /** A call and, for a Get, whether it hit. */
  datatype Event<V> = Event(call: Call<V>, hit: bool)

  function After<V>(s: seq<Entry<V>>, cap: nat, ttl: int, c: Call<V>): seq<Entry<V>> {
    match c
    case GetCall(key, now) => AfterGet(s, key, now)
    case PutCall(key, val, now) => AfterPut(s, cap, ttl, key, val, now)
  }

  predicate Hits<V>(s: seq<Entry<V>>, c: Call<V>) {
    c.GetCall? && Lookup(s, c.key, c.now).Some?
  }

  /** The entries after a sequence of calls on an empty cache. The clock readings are arbitrary. */
  function Run<V>(cap: nat, ttl: int, calls: seq<Call<V>>): seq<Entry<V>> {
    if calls == [] then []
    else After(Run(cap, ttl, calls[..|calls| - 1]), cap, ttl, calls[|calls| - 1])
  }

  /** What a caller saw: each call with its outcome. */
  function History<V>(cap: nat, ttl: int, calls: seq<Call<V>>): (log: seq<Event<V>>)
    ensures |log| == |calls|
  {
    if calls == [] then []
    else
      var last := calls[|calls| - 1];
      History(cap, ttl, calls[..|calls| - 1])
      + [Event(last, Hits(Run(cap, ttl, calls[..|calls| - 1]), last))]
  }

  /** A Put and a hit refresh their key. */
  predicate Touches<V>(e: Event<V>, key: string) {
    e.call.key == key && (e.call.PutCall? || e.hit)
  }

  /** The time of the last event that refreshed a key, -1 when there is none. */
  function LastTouch<V>(log: seq<Event<V>>, key: string): (t: int)
    ensures -1 <= t < |log|
    ensures t >= 0 ==> Touches(log[t], key)
  {
    if log == [] then -1
    else if Touches(log[|log| - 1], key) then |log| - 1
    else LastTouch(log[..|log| - 1], key)
  }

  /** The entry the latest Put of a key asked for. */
  function LatestPut<V>(ttl: int, log: seq<Event<V>>, key: string): Option<Entry<V>> {
    if log == [] then None
    else
      var c := log[|log| - 1].call;
      if c.PutCall? && c.key == key then Some(Entry(key, c.val, Stamp(ttl, c.now)))
      else LatestPut(ttl, log[..|log| - 1], key)
  }

  /** Whether a Get of the key has missed since the key was last refreshed. */
  predicate MissedSince<V>(log: seq<Event<V>>, key: string) {
    log != [] &&
    var e := log[|log| - 1];
    if e.call.key == key then !Touches(e, key) else MissedSince(log[..|log| - 1], key)
  }

  /** The keys refreshed more recently than a given one. */
  ghost function Newer<V>(log: seq<Event<V>>, key: string): set<string> {
    set e | e in log && LastTouch(log, e.call.key) > LastTouch(log, key) :: e.call.key
  }

  // ---------------------------------------------------------------- the invariant of every run

  /** Entries are what the latest Puts asked for, and a stored key has not missed. */
  ghost predicate HoldsLatest<V>(ttl: int, s: seq<Entry<V>>, log: seq<Event<V>>) {
    forall i: nat | i < |s| ::
      && LatestPut(ttl, log, s[i].key) == Some(s[i])
      && LastTouch(log, s[i].key) >= 0
      && !MissedSince(log, s[i].key)
  }

  /** The list runs from the most to the least recently refreshed key. */
  ghost predicate ByRecency<V>(s: seq<Entry<V>>, log: seq<Event<V>>) {
    forall i: nat, j: nat | i < j < |s| :: LastTouch(log, s[i].key) > LastTouch(log, s[j].key)
  }

  /** A stored key that is gone was either found expired or pushed out by a full capacity of newer keys. */
  ghost predicate GoneForCause<V>(cap: nat, s: seq<Entry<V>>, log: seq<Event<V>>) {
    forall key | LastTouch(log, key) >= 0 && !Holds(s, key) ::
      MissedSince(log, key) || |Newer(log, key)| >= cap
  }

  /** Without expiry, a stored key is gone only when the cache is full of newer keys. */
  ghost predicate GoneWhenFull<V>(cap: nat, s: seq<Entry<V>>, log: seq<Event<V>>) {
    forall key | LastTouch(log, key) >= 0 && !Holds(s, key) ::
      |s| == cap && forall i: nat | i < |s| :: LastTouch(log, s[i].key) > LastTouch(log, key)
  }

  ghost predicate Inv<V>(cap: nat, ttl: int, s: seq<Entry<V>>, log: seq<Event<V>>) {
    && |s| <= cap
    && DistinctKeys(s)
    && HoldsLatest(ttl, s, log)
    && ByRecency(s, log)
    && GoneForCause(cap, s, log)
    && (ttl <= 0 ==> GoneWhenFull(cap, s, log))
  }

  /** The events after one more call. */
  function Extended<V>(s: seq<Entry<V>>, log: seq<Event<V>>, c: Call<V>): (r: seq<Event<V>>) {
    log + [Event(c, Hits(s, c))]
  }

  /** One more event refreshes its own key and leaves what was known of the others. */
  lemma Extend<V>(ttl: int, log: seq<Event<V>>, e: Event<V>, key: string)
    ensures LastTouch(log + [e], key) == if Touches(e, key) then |log| else LastTouch(log, key)
    ensures LatestPut(ttl, log + [e], key)
         == if e.call.PutCall? && e.call.key == key
            then Some(Entry(key, e.call.val, Stamp(ttl, e.call.now)))
            else LatestPut(ttl, log, key)
    ensures MissedSince(log + [e], key) <==>
            if e.call.key == key then !Touches(e, key) else MissedSince(log, key)
  {
    assert (log + [e])[..|log|] == log;
  }

  lemma NewerGrows<V>(ttl: int, log: seq<Event<V>>, e: Event<V>, key: string)
    requires !Touches(e, key)
    ensures Newer(log, key) <= Newer(log + [e], key)
  {
    Extend(ttl, log, e, key);
    forall k | k in Newer(log, key) ensures k in Newer(log + [e], key) {
      var x :| x in log && LastTouch(log, x.call.key) > LastTouch(log, key) && x.call.key == k;
      Extend(ttl, log, e, k);
      assert x in log + [e];
    }
  }

  /** A key refreshed later than another is among its newer keys. */
  lemma IsNewer<V>(log: seq<Event<V>>, k: string, key: string)
    requires LastTouch(log, k) > LastTouch(log, key)
    ensures k in Newer(log, key)
  {
    var e := log[LastTouch(log, k)];
    assert e in log && e.call.key == k;
  }

  ghost function KeySet<V>(s: seq<Entry<V>>): set<string> {
    set e | e in s :: e.key
  }

  lemma {:induction false} KeySetSize<V>(s: seq<Entry<V>>)
    requires DistinctKeys(s)
    ensures |KeySet(s)| == |s|
  {
    if s == [] {
      assert KeySet(s) == {};
    } else {
      var t := s[..|s| - 1];
      KeySetSize(t);
      assert s == t + [s[|s| - 1]];
      assert KeySet(s) == KeySet(t) + {s[|s| - 1].key};
    }
  }

  lemma SubsetSize<T>(a: set<T>, b: set<T>)
    requires a <= b
    ensures |a| <= |b|
  {
    assert b == a + (b - a);
  }

  /** A list of keys all newer than a given one bounds the newer keys from below. */
  lemma AllNewer<V>(s: seq<Entry<V>>, log: seq<Event<V>>, key: string)
    requires DistinctKeys(s)
    requires forall i: nat | i < |s| :: LastTouch(log, s[i].key) > LastTouch(log, key)
    ensures |Newer(log, key)| >= |s|
  {
    forall k | k in KeySet(s) ensures k in Newer(log, key) {
      IsNewer(log, k, key);
    }
    KeySetSize(s);
    SubsetSize(KeySet(s), Newer(log, key));
  }

  // One call keeps each part of the invariant.

  predicate Refreshes<V>(s: seq<Entry<V>>, c: Call<V>) {
    c.PutCall? || Hits(s, c)
  }

  /** Where the entry at position j after a call stood before it; a refreshed entry stands at 0. */
  function Origin<V>(s: seq<Entry<V>>, c: Call<V>, j: nat): int {
    var p := Find(s, c.key);
    if !Refreshes(s, c) then (if j < p then j else j + 1)
    else if j <= p then j - 1
    else j
  }

  lemma OnlyAtFind<V>(s: seq<Entry<V>>, key: string, q: nat)
    requires DistinctKeys(s) && q < |s| && q != Find(s, key)
    ensures s[q].key != key
  {
    hide Find;
    var p := Find(s, key);
    if p < q {
      assert s[p].key != s[q].key;
    }
  }

  /** A call puts the entry it refreshes first and keeps the others, in their order. */
  lemma AfterAt<V>(cap: nat, ttl: int, s: seq<Entry<V>>, c: Call<V>, j: nat)
    requires cap >= 1 && |s| <= cap && DistinctKeys(s)
    requires j < |After(s, cap, ttl, c)|
    ensures var s2 := After(s, cap, ttl, c);
            if Refreshes(s, c) && j == 0
            then s2[0] == if c.PutCall? then Entry(c.key, c.val, Stamp(ttl, c.now)) else s[Find(s, c.key)]
            else
              && 0 <= Origin(s, c, j) < |s|
              && s2[j] == s[Origin(s, c, j)]
              && s2[j].key != c.key
  {
    hide Find, Without, DistinctKeys;
    if !(Refreshes(s, c) && j == 0) {
      FromOrigin(cap, ttl, s, c, j);
      OnlyAtFind(s, c.key, Origin(s, c, j));
    }
  }

  /** The list a call leaves, by what it does to its own key. */
  lemma Shapes<V>(cap: nat, ttl: int, s: seq<Entry<V>>, c: Call<V>)
    requires cap >= 1 && |s| <= cap
    ensures var s2, p := After(s, cap, ttl, c), Find(s, c.key);
            if !Refreshes(s, c) then s2 == if Holds(s, c.key) then Without(s, p) else s
            else
              && s2 != [] && s2[0].key == c.key
              && if Holds(s, c.key) then s2 == [s2[0]] + Without(s, p)
                 else s2 == if |s| < cap then [s2[0]] + s else ([s2[0]] + s)[..|s|]
  {
    hide Find, Without;
  }

  lemma FromOrigin<V>(cap: nat, ttl: int, s: seq<Entry<V>>, c: Call<V>, j: nat)
    requires cap >= 1 && |s| <= cap
    requires j < |After(s, cap, ttl, c)| && !(Refreshes(s, c) && j == 0)
    ensures 0 <= Origin(s, c, j) < |s| && Origin(s, c, j) != Find(s, c.key)
    ensures After(s, cap, ttl, c)[j] == s[Origin(s, c, j)]
  {
    hide Find, Without, Unexpired, After, Refreshes;
    var s2, p := After(s, cap, ttl, c), Find(s, c.key);
    Shapes(cap, ttl, s, c);
    if p < |s| {
      FromRest(s, p, s2[0], j);
    } else if Refreshes(s, c) {
      assert s2[j] == ([s2[0]] + s)[j];
    }
  }

  lemma FromRest<V>(s: seq<Entry<V>>, p: nat, e: Entry<V>, j: nat)
    requires p < |s|
    ensures j < |s| - 1 ==> Without(s, p)[j] == s[if j < p then j else j + 1]
    ensures 0 < j < |s| ==> ([e] + Without(s, p))[j] == s[if j <= p then j - 1 else j]
  {
    hide Without;
    if 0 < j < |s| {
      assert ([e] + Without(s, p))[j] == Without(s, p)[j - 1];
    }
  }

  /** How long the list is after a call. */
  lemma AfterLength<V>(cap: nat, ttl: int, s: seq<Entry<V>>, c: Call<V>)
    requires cap >= 1 && |s| <= cap
    ensures var s2 := After(s, cap, ttl, c);
            |s2| == if !Refreshes(s, c) then (if Holds(s, c.key) then |s| - 1 else |s|)
                    else if Holds(s, c.key) || |s| == cap then |s|
                    else |s| + 1
  {
    hide Find, Without;
  }

  lemma StepDistinct<V>(cap: nat, ttl: int, s: seq<Entry<V>>, c: Call<V>)
    requires cap >= 1 && |s| <= cap && DistinctKeys(s)
    ensures |After(s, cap, ttl, c)| <= cap && DistinctKeys(After(s, cap, ttl, c))
  {
    hide After, Find;
    var s2 := After(s, cap, ttl, c);
    AfterLength(cap, ttl, s, c);
    forall i: nat, j: nat | i < j < |s2| ensures s2[i].key != s2[j].key {
      AfterAt(cap, ttl, s, c, i);
      AfterAt(cap, ttl, s, c, j);
    }
  }

  lemma StepHoldsLatest<V>(cap: nat, ttl: int, s: seq<Entry<V>>, log: seq<Event<V>>, c: Call<V>)
    requires cap >= 1 && |s| <= cap && DistinctKeys(s) && HoldsLatest(ttl, s, log)
    ensures HoldsLatest(ttl, After(s, cap, ttl, c), Extended(s, log, c))
  {
    hide LatestPut, LastTouch, MissedSince, After, Find;
    var s2, e := After(s, cap, ttl, c), Event(c, Hits(s, c));
    forall i: nat | i < |s2|
      ensures LatestPut(ttl, log + [e], s2[i].key) == Some(s2[i])
      ensures LastTouch(log + [e], s2[i].key) >= 0
      ensures !MissedSince(log + [e], s2[i].key)
    {
      AfterAt(cap, ttl, s, c, i);
      Extend(ttl, log, e, s2[i].key);
    }
  }

  lemma StepByRecency<V>(cap: nat, ttl: int, s: seq<Entry<V>>, log: seq<Event<V>>, c: Call<V>)
    requires cap >= 1 && |s| <= cap && DistinctKeys(s) && ByRecency(s, log)
    ensures ByRecency(After(s, cap, ttl, c), Extended(s, log, c))
  {
    hide LatestPut, LastTouch, MissedSince, After, Find;
    var s2, e := After(s, cap, ttl, c), Event(c, Hits(s, c));
    forall i: nat, j: nat | i < j < |s2|
      ensures LastTouch(log + [e], s2[i].key) > LastTouch(log + [e], s2[j].key)
    {
      AfterAt(cap, ttl, s, c, i);
      AfterAt(cap, ttl, s, c, j);
      Extend(ttl, log, e, s2[i].key);
      Extend(ttl, log, e, s2[j].key);
    }
  }

  /** The one entry of another key that a call can drop is the last of a full list, on an insertion. */
  lemma OthersStay<V>(cap: nat, ttl: int, s: seq<Entry<V>>, c: Call<V>, i: nat)
    requires cap >= 1 && |s| <= cap && i < |s| && s[i].key != c.key
    requires c.GetCall? || Holds(s, c.key) || |s| < cap || i < |s| - 1
    ensures Holds(After(s, cap, ttl, c), s[i].key)
  {
    hide Find, Without, Unexpired;
    if !Holds(s, c.key) {
      if c.PutCall? {
        HeldAfterInsertion(s, Entry(c.key, c.val, Stamp(ttl, c.now)), i);
      }
    } else {
      HeldInRest(s, c.key, i, if c.PutCall? then Entry(c.key, c.val, Stamp(ttl, c.now)) else s[Find(s, c.key)]);
    }
  }

  lemma HeldAfterInsertion<V>(s: seq<Entry<V>>, e: Entry<V>, i: nat)
    requires i < |s|
    ensures Holds([e] + s, s[i].key)
    ensures i < |s| - 1 ==> Holds(([e] + s)[..|s|], s[i].key)
  {
    hide Find;
    assert ([e] + s)[i + 1] == s[i];
    if i < |s| - 1 {
      assert ([e] + s)[..|s|][i + 1] == s[i];
    }
  }

  lemma HeldInRest<V>(s: seq<Entry<V>>, key: string, i: nat, x: Entry<V>)
    requires Holds(s, key) && i < |s| && s[i].key != key
    ensures Holds(Without(s, Find(s, key)), s[i].key)
    ensures Holds([x] + Without(s, Find(s, key)), s[i].key)
  {
    hide Find, Without;
    var p := Find(s, key);
    var j := if i < p then i else i - 1;
    assert Without(s, p)[j] == s[i];
    assert ([x] + Without(s, p))[j + 1] == s[i];
  }

  /** A key a Get drops is its own, found expired; a key a Put drops stood at the back of a full list. */
  lemma LeavesWhen<V>(cap: nat, ttl: int, s: seq<Entry<V>>, c: Call<V>, key: string)
    requires cap >= 1 && |s| <= cap && DistinctKeys(s)
    requires Holds(s, key) && !Holds(After(s, cap, ttl, c), key)
    ensures c.GetCall? ==> c.key == key && !Hits(s, c) && !Unexpired(s[Find(s, key)], c.now)
    ensures c.PutCall? ==> |s| == cap && key == s[|s| - 1].key && !Holds(s, c.key)
  {
    hide After, Find;
    if c.key == key {
      if Refreshes(s, c) {
        TouchedIsFirst(cap, ttl, s, c);
        assert false;
      }
    } else if c.GetCall? || Holds(s, c.key) || |s| < cap || Find(s, key) < |s| - 1 {
      OthersStay(cap, ttl, s, c, Find(s, key));
      assert false;
    }
  }

  lemma TouchedIsFirst<V>(cap: nat, ttl: int, s: seq<Entry<V>>, c: Call<V>)
    requires cap >= 1 && |s| <= cap && Refreshes(s, c)
    ensures var s2 := After(s, cap, ttl, c); |s2| > 0 && s2[0].key == c.key && Holds(s2, c.key)
  {
    hide Find, Without;
    assert After(s, cap, ttl, c)[0].key == c.key;
  }

  lemma StepGoneForCause<V>(cap: nat, ttl: int, s: seq<Entry<V>>, log: seq<Event<V>>, c: Call<V>)
    requires cap >= 1 && |s| <= cap && DistinctKeys(s) && ByRecency(s, log) && GoneForCause(cap, s, log)
    ensures GoneForCause(cap, After(s, cap, ttl, c), Extended(s, log, c))
  {
    hide LatestPut, LastTouch, MissedSince, Newer, After, Find;
    var s2, e := After(s, cap, ttl, c), Event(c, Hits(s, c));
    var log2 := log + [e];
    forall key | LastTouch(log2, key) >= 0 && !Holds(s2, key)
      ensures MissedSince(log2, key) || |Newer(log2, key)| >= cap
    {
      Extend(ttl, log, e, key);
      if Touches(e, key) {
        TouchedIsFirst(cap, ttl, s, c);
        assert false;
      } else if !Holds(s, key) {
        NewerGrows(ttl, log, e, key);
        SubsetSize(Newer(log, key), Newer(log2, key));
      } else {
        LeavesWhen(cap, ttl, s, c, key);
        if c.PutCall? {
          PushedOutByNewer(cap, ttl, s, log, c);
        }
      }
    }
  }

  /** The key an insertion pushes out is older than everything left. */
  lemma PushedOutByNewer<V>(cap: nat, ttl: int, s: seq<Entry<V>>, log: seq<Event<V>>, c: Call<V>)
    requires cap >= 1 && |s| == cap && DistinctKeys(s) && ByRecency(s, log)
    requires c.PutCall? && !Holds(s, c.key)
    ensures var s2, log2 := After(s, cap, ttl, c), Extended(s, log, c);
            && |s2| == cap
            && (forall i: nat | i < |s2| :: LastTouch(log2, s2[i].key) > LastTouch(log2, s[|s| - 1].key))
            && |Newer(log2, s[|s| - 1].key)| >= cap
  {
    hide LatestPut, LastTouch, MissedSince, Newer, After, Find;
    var s2, e := After(s, cap, ttl, c), Event(c, Hits(s, c));
    var victim := s[|s| - 1].key;
    assert victim != c.key;
    Extend(ttl, log, e, victim);
    AfterLength(cap, ttl, s, c);
    forall i: nat | i < |s2|
      ensures LastTouch(log + [e], s2[i].key) > LastTouch(log + [e], victim)
    {
      AfterAt(cap, ttl, s, c, i);
      Extend(ttl, log, e, s2[i].key);
    }
    StepDistinct(cap, ttl, s, c);
    AllNewer(s2, log + [e], victim);
  }

  lemma StepGoneWhenFull<V>(cap: nat, ttl: int, s: seq<Entry<V>>, log: seq<Event<V>>, c: Call<V>)
    requires ttl <= 0 && cap >= 1 && |s| <= cap && DistinctKeys(s)
    requires HoldsLatest(ttl, s, log) && ByRecency(s, log) && GoneWhenFull(cap, s, log)
    ensures GoneWhenFull(cap, After(s, cap, ttl, c), Extended(s, log, c))
  {
    hide LatestPut, LastTouch, MissedSince, Newer, After, Find;
    var s2, e := After(s, cap, ttl, c), Event(c, Hits(s, c));
    var log2 := log + [e];
    forall key | LastTouch(log2, key) >= 0 && !Holds(s2, key)
      ensures |s2| == cap && forall i: nat | i < |s2| :: LastTouch(log2, s2[i].key) > LastTouch(log2, key)
    {
      Extend(ttl, log, e, key);
      if Touches(e, key) {
        TouchedIsFirst(cap, ttl, s, c);
        assert false;
      } else if !Holds(s, key) {
        StillNewer(cap, ttl, s, log, c, key);
      } else {
        LeavesWhen(cap, ttl, s, c, key);
        if c.GetCall? {
          NeverExpires(ttl, log, key);
          assert false;
        } else {
          PushedOutByNewer(cap, ttl, s, log, c);
        }
      }
    }
  }

  /** Entries put without a time to live carry no expiry. */
  lemma {:induction false} NeverExpires<V>(ttl: int, log: seq<Event<V>>, key: string)
    requires ttl <= 0
    ensures LatestPut(ttl, log, key).Some? ==> LatestPut(ttl, log, key).value.expiresAt.None?
  {
    if log != [] {
      NeverExpires(ttl, log[..|log| - 1], key);
    }
  }

  /** A full list of newer keys stays one, whatever is called. */
  lemma StillNewer<V>(cap: nat, ttl: int, s: seq<Entry<V>>, log: seq<Event<V>>, c: Call<V>, key: string)
    requires ttl <= 0 && cap >= 1 && |s| == cap && DistinctKeys(s) && HoldsLatest(ttl, s, log)
    requires !Holds(s, key) && !Touches(Event(c, Hits(s, c)), key)
    requires forall i: nat | i < |s| :: LastTouch(log, s[i].key) > LastTouch(log, key)
    ensures var s2, log2 := After(s, cap, ttl, c), Extended(s, log, c);
            |s2| == cap && forall i: nat | i < |s2| :: LastTouch(log2, s2[i].key) > LastTouch(log2, key)
  {
    hide LatestPut, LastTouch, MissedSince, Newer, After, Find;
    var s2, e := After(s, cap, ttl, c), Event(c, Hits(s, c));
    NeverExpires(ttl, log, c.key);
    AfterLength(cap, ttl, s, c);
    Extend(ttl, log, e, key);
    forall i: nat | i < |s2| ensures LastTouch(log + [e], s2[i].key) > LastTouch(log + [e], key) {
      AfterAt(cap, ttl, s, c, i);
      Extend(ttl, log, e, s2[i].key);
    }
  }

  lemma StepInv<V>(cap: nat, ttl: int, s: seq<Entry<V>>, log: seq<Event<V>>, c: Call<V>)
    requires cap >= 1 && Inv(cap, ttl, s, log)
    ensures Inv(cap, ttl, After(s, cap, ttl, c), Extended(s, log, c))
  {
    hide HoldsLatest, ByRecency, GoneForCause, GoneWhenFull, After;
    StepDistinct(cap, ttl, s, c);
    StepHoldsLatest(cap, ttl, s, log, c);
    StepByRecency(cap, ttl, s, log, c);
    StepGoneForCause(cap, ttl, s, log, c);
    if ttl <= 0 {
      StepGoneWhenFull(cap, ttl, s, log, c);
    }
  }

  /** Every run of Gets and Puts, under any clock, keeps the invariant. */
  lemma {:induction false} RunInv<V>(cap: nat, ttl: int, calls: seq<Call<V>>)
    requires cap >= 1
    ensures Inv(cap, ttl, Run(cap, ttl, calls), History(cap, ttl, calls))
  {
    if calls == [] {
    } else {
      hide HoldsLatest, ByRecency, GoneForCause, GoneWhenFull, After, LastTouch;
      var front := calls[..|calls| - 1];
      RunInv(cap, ttl, front);
      StepInv(cap, ttl, Run(cap, ttl, front), History(cap, ttl, front), calls[|calls| - 1]);
    }
  }

  // ---------------------------------------------------------------- what a caller can rely on

  /** A hit returns the value of the latest Put of that key, and less than the time to live has passed on its clock. */
  lemma HitIsLatestPut<V>(cap: nat, ttl: int, calls: seq<Call<V>>, key: string, now: int)
    requires cap >= 1
    requires Lookup(Run(cap, ttl, calls), key, now).Some?
    ensures var put := LatestPut(ttl, History(cap, ttl, calls), key);
            && put.Some?
            && Lookup(Run(cap, ttl, calls), key, now).value == put.value.val
            && Unexpired(put.value, now)
  {
    RunInv(cap, ttl, calls);
  }

  /** A key put and not missed since, with fewer than cap newer keys, is served until it expires. */
  lemma ServedWhileRecent<V>(cap: nat, ttl: int, calls: seq<Call<V>>, key: string, now: int)
    requires cap >= 1
    requires var log := History(cap, ttl, calls);
             && LatestPut(ttl, log, key).Some? && !MissedSince(log, key)
             && |Newer(log, key)| < cap && Unexpired(LatestPut(ttl, log, key).value, now)
    ensures Lookup(Run(cap, ttl, calls), key, now)
         == Some(LatestPut(ttl, History(cap, ttl, calls), key).value.val)
  {
    RunInv(cap, ttl, calls);
    PutTouches(ttl, History(cap, ttl, calls), key);
  }

  lemma {:induction false} PutTouches<V>(ttl: int, log: seq<Event<V>>, key: string)
    requires LatestPut(ttl, log, key).Some?
    ensures LastTouch(log, key) >= 0
  {
    var c := log[|log| - 1].call;
    if !(c.PutCall? && c.key == key) {
      PutTouches(ttl, log[..|log| - 1], key);
    }
  }

  /** Without expiry: a Get hits exactly when the key was put and fewer than cap keys are newer. */
  lemma HitsIff<V>(cap: nat, ttl: int, calls: seq<Call<V>>, key: string, now: int)
    requires cap >= 1 && ttl <= 0
    ensures var log := History(cap, ttl, calls);
            Lookup(Run(cap, ttl, calls), key, now).Some?
            <==> LatestPut(ttl, log, key).Some? && |Newer(log, key)| < cap
  {
    hide LatestPut, LastTouch, MissedSince, Newer, Run, History, Find;
    var s, log := Run(cap, ttl, calls), History(cap, ttl, calls);
    RunInv(cap, ttl, calls);
    NeverExpires(ttl, log, key);
    if Holds(s, key) {
      NewerAhead(cap, ttl, s, log, Find(s, key));
    } else if LatestPut(ttl, log, key).Some? {
      PutTouches(ttl, log, key);
      AllNewer(s, log, key);
    }
  }

  /** Without expiry, the keys newer than a stored one all stand ahead of it. */
  lemma NewerAhead<V>(cap: nat, ttl: int, s: seq<Entry<V>>, log: seq<Event<V>>, i: nat)
    requires Inv(cap, ttl, s, log) && ttl <= 0 && i < |s|
    ensures |Newer(log, s[i].key)| <= i
  {
    hide LatestPut, LastTouch, MissedSince, Find;
    var ahead := s[..i];
    forall k | k in Newer(log, s[i].key) ensures k in KeySet(ahead) {
      var j := Find(s, k);
      assert LastTouch(log, k) > LastTouch(log, s[i].key) >= 0;
      assert Holds(s, k);
      assert j < i;
      assert ahead[j] in ahead;
    }
    KeySetSize(ahead);
    SubsetSize(Newer(log, s[i].key), KeySet(ahead));
  }

  /** A Put removes a key only from a full cache it was not in, and then the least recently refreshed one. */
  lemma OnlyOldestEvicted<V>(cap: nat, ttl: int, calls: seq<Call<V>>, c: Call<V>, key: string)
    requires cap >= 1 && c.PutCall?
    requires Holds(Run(cap, ttl, calls), key) && !Holds(After(Run(cap, ttl, calls), cap, ttl, c), key)
    ensures var s, log := Run(cap, ttl, calls), History(cap, ttl, calls);
            && |s| == cap && !Holds(s, c.key)
            && (forall k | Holds(s, k) && k != key ::
                  LastTouch(log, k) > LastTouch(log, key) && Holds(After(s, cap, ttl, c), k))
  {
    hide LatestPut, LastTouch, MissedSince, Newer, Run, History, After, Find;
    var s, log := Run(cap, ttl, calls), History(cap, ttl, calls);
    RunInv(cap, ttl, calls);
    LeavesWhen(cap, ttl, s, c, key);
    forall k | Holds(s, k) && k != key
      ensures LastTouch(log, k) > LastTouch(log, key) && Holds(After(s, cap, ttl, c), k)
    {
      OthersStay(cap, ttl, s, c, Find(s, k));
    }
  }

  /** The call at p put the key, and no later call did. */
  ghost predicate PutLast<V>(calls: seq<Call<V>>, p: nat, key: string) {
    && p < |calls| && calls[p].PutCall? && calls[p].key == key
    && forall q :: p < q < |calls| && calls[q].PutCall? ==> calls[q].key != key
  }

  /** That put stored the value, less than the time to live before now. */
  ghost predicate StillGood<V>(calls: seq<Call<V>>, p: nat, ttl: int, key: string, now: int, val: V) {
    PutLast(calls, p, key) && calls[p].val == val && (ttl <= 0 || now < calls[p].now + ttl)
  }

  lemma {:induction false} LatestPutOf<V>(cap: nat, ttl: int, calls: seq<Call<V>>, p: nat, key: string)
    requires PutLast(calls, p, key)
    ensures LatestPut(ttl, History(cap, ttl, calls), key)
         == Some(Entry(key, calls[p].val, if ttl > 0 then Some(calls[p].now + ttl) else None))
  {
    hide Run, Find;
    var front := calls[..|calls| - 1];
    assert History(cap, ttl, calls)[..|front|] == History(cap, ttl, front);
    if p < |front| {
      LatestPutOf(cap, ttl, front, p, key);
    }
  }

  lemma {:induction false} LatestPutFrom<V>(cap: nat, ttl: int, calls: seq<Call<V>>, key: string) returns (p: nat)
    requires LatestPut(ttl, History(cap, ttl, calls), key).Some?
    ensures PutLast(calls, p, key)
  {
    hide Run, Find;
    p := |calls| - 1;
    var front := calls[..p];
    assert History(cap, ttl, calls)[..p] == History(cap, ttl, front);
    if !(calls[p].PutCall? && calls[p].key == key) {
      p := LatestPutFrom(cap, ttl, front, key);
    }
  }

  lemma PutLastInRange<V>(calls: seq<Call<V>>, p: nat, key: string)
    requires PutLast(calls, p, key)
    ensures p < |calls| && calls[p].PutCall?
  {}

  /** MAIN: a hit returns what the last Put of the key stored, less than the time to live after it; and what the last
      Put stored is returned until then, unless a Get of the key has missed or cap other keys were refreshed since. */
  lemma HitsInTime<V>(cap: nat, ttl: int, calls: seq<Call<V>>, key: string, now: int, val: V)
    requires cap >= 1
    ensures Lookup(Run(cap, ttl, calls), key, now) == Some(val) ==>
              exists p: nat :: StillGood(calls, p, ttl, key, now, val)
    ensures (exists p: nat :: StillGood(calls, p, ttl, key, now, val))
            && !MissedSince(History(cap, ttl, calls), key) && |Newer(History(cap, ttl, calls), key)| < cap ==>
              Lookup(Run(cap, ttl, calls), key, now) == Some(val)
  {
    hide Run, History, LatestPut, MissedSince, Newer, Lookup, PutLast;
    if Lookup(Run(cap, ttl, calls), key, now) == Some(val) {
      HitIsLatestPut(cap, ttl, calls, key, now);
      var p := LatestPutFrom(cap, ttl, calls, key);
      LatestPutOf(cap, ttl, calls, p, key);
      PutLastInRange(calls, p, key);
      assert StillGood(calls, p, ttl, key, now, val);
    }
    if p: nat :| StillGood(calls, p, ttl, key, now, val) {
      LatestPutOf(cap, ttl, calls, p, key);
      if !MissedSince(History(cap, ttl, calls), key) && |Newer(History(cap, ttl, calls), key)| < cap {
        ServedWhileRecent(cap, ttl, calls, key, now);
      }
    }
  }
}
