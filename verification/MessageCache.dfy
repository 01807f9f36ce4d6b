/** RedisCacheService's message cache: one conversation's sorted set, trimmed to its last 100 members after
    every addition, against the untrimmed log of everything ever added. */
module MessageCache {

  /** A zset entry. The member is the serialized message, which contains its timestamp, so one member always
      comes with one score. */
  datatype Message = Message(sentAt: int, member: string)

  const CACHE_SIZE := 100

  // ---------------------------------------------------------------- the order of a sorted set

  predicate TextBefore(a: string, b: string) {
    b != [] && (a == [] || a[0] < b[0] || (a[0] == b[0] && TextBefore(a[1..], b[1..])))
  }

  /** Redis orders by score, then by member. */
  predicate Before(x: Message, y: Message) {
    x.sentAt < y.sentAt || (x.sentAt == y.sentAt && TextBefore(x.member, y.member))
  }

  lemma {:induction false} TextTotal(a: string, b: string)
    ensures a == b || TextBefore(a, b) || TextBefore(b, a)
    ensures TextBefore(a, b) ==> !TextBefore(b, a)
    ensures !TextBefore(a, a)
  {
    if a != [] && b != [] {
      TextTotal(a[1..], b[1..]);
      assert a == [a[0]] + a[1..] && b == [b[0]] + b[1..];
    }
    TextIrreflexive(a);
  }

  lemma {:induction false} TextIrreflexive(a: string)
    ensures !TextBefore(a, a)
  {
    if a != [] { TextIrreflexive(a[1..]); }
  }

  lemma {:induction false} TextTransitive(a: string, b: string, c: string)
    requires TextBefore(a, b) && TextBefore(b, c)
    ensures TextBefore(a, c)
  {
    if a != [] && a[0] == b[0] == c[0] { TextTransitive(a[1..], b[1..], c[1..]); }
  }

  lemma BeforeOrder(x: Message, y: Message, z: Message)
    ensures x == y || Before(x, y) || Before(y, x)
    ensures !(Before(x, y) && Before(y, x)) && !Before(x, x)
    ensures Before(x, y) && Before(y, z) ==> Before(x, z)
  {
    TextTotal(x.member, y.member);
    TextIrreflexive(x.member);
    if TextBefore(x.member, y.member) && TextBefore(y.member, z.member) {
      TextTransitive(x.member, y.member, z.member);
    }
  }

  ghost predicate Ordered(z: seq<Message>) {
    forall i, j :: 0 <= i < j < |z| ==> Before(z[i], z[j])
  }

  // ---------------------------------------------------------------- Redis commands

  /** ZADD: an entry already present changes nothing. */
  function ZAdd(z: seq<Message>, m: Message): seq<Message> {
    if z == [] then [m]
    else if m == z[0] then z
    else if Before(m, z[0]) then [m] + z
    else [z[0]] + ZAdd(z[1..], m)
  }

  /** A Redis index counts from the end when negative. */
  function Index(i: int, size: nat): int {
    if i < 0 then size + i else i
  }

  /** The ranks a Redis range covers, as a half-open interval. */
  function Range(start: int, stop: int, size: nat): (r: (nat, nat))
    ensures r.0 <= r.1 <= size
  {
    var first := if Index(start, size) < 0 then 0 else Index(start, size);
    var last := if Index(stop, size) >= size then size - 1 else Index(stop, size);
    if first > last then (0, 0) else (first, last + 1)
  }

  function ZRemRangeByRank(z: seq<Message>, start: int, stop: int): seq<Message> {
    var r := Range(start, stop, |z|);
    z[..r.0] + z[r.1..]
  }

  function Reverse(z: seq<Message>): (r: seq<Message>)
    ensures |r| == |z|
    ensures forall i :: 0 <= i < |z| ==> r[i] == z[|z|-1-i]
  {
    if z == [] then [] else [z[|z|-1]] + Reverse(z[..|z|-1])
  }

  function ZRevRange(z: seq<Message>, start: int, stop: int): seq<Message> {
    var r := Range(start, stop, |z|);
    Reverse(z)[r.0..r.1]
  }

  // ---------------------------------------------------------------- operations

  function AddMessage(z: seq<Message>, m: Message): seq<Message> {
    ZRemRangeByRank(ZAdd(z, m), 0, -CACHE_SIZE - 1)
  }

  function GetCached(z: seq<Message>, limit: int): seq<Message> {
    ZRevRange(z, 0, limit - 1)
  }

  /** The cache after the messages were added in this order, from an empty key. */
  function Cache(ms: seq<Message>): seq<Message> {
    if ms == [] then [] else AddMessage(Cache(ms[..|ms|-1]), ms[|ms|-1])
  }

  /** The same additions without trimming. */
  function FullLog(ms: seq<Message>): seq<Message> {
    if ms == [] then [] else ZAdd(FullLog(ms[..|ms|-1]), ms[|ms|-1])
  }

  function Last(z: seq<Message>, k: nat): seq<Message> {
    if |z| <= k then z else z[|z|-k..]
  }

  // ---------------------------------------------------------------- the full log

  lemma {:induction false} ZAddOrdered(z: seq<Message>, m: Message)
    requires Ordered(z)
    ensures Ordered(ZAdd(z, m))
    ensures forall x :: x in ZAdd(z, m) <==> x in z || x == m
    ensures |ZAdd(z, m)| == if m in z then |z| else |z| + 1
    decreases |z|
  {
    if z != [] {
      var rest := z[1..];
      assert z == [z[0]] + rest;
      BeforeOrder(m, z[0], m);
      if m == z[0] {
      } else if Before(m, z[0]) {
        forall i | 0 <= i < |z| ensures Before(m, z[i]) { BeforeOrder(m, z[0], z[i]); }
        assert m !in z by {
          forall i | 0 <= i < |z| ensures z[i] != m { BeforeOrder(m, m, z[i]); }
        }
      } else {
        ZAddOrdered(rest, m);
        var t := ZAdd(rest, m);
        forall i | 0 <= i < |t| ensures Before(z[0], t[i]) { assert t[i] in t; }
      }
    }
  }

  /** The full log is the strictly ascending list of all distinct messages ever added. */
  lemma {:induction false} FullLogIsSortedSet(ms: seq<Message>)
    ensures Ordered(FullLog(ms))
    ensures forall x :: x in FullLog(ms) <==> x in ms
    decreases |ms|
  {
    if ms != [] {
      var front := ms[..|ms|-1];
      FullLogIsSortedSet(front);
      ZAddOrdered(FullLog(front), ms[|ms|-1]);
      assert ms == front + [ms[|ms|-1]];
    }
  }

  // ---------------------------------------------------------------- trimming

  lemma TrimKeepsLast(z: seq<Message>)
    ensures ZRemRangeByRank(z, 0, -CACHE_SIZE - 1) == Last(z, CACHE_SIZE)
  {}

  /** An entry that belongs after all of `lo` is inserted into the rest. */
  lemma {:induction false} ZAddHigh(lo: seq<Message>, hi: seq<Message>, m: Message)
    requires forall x :: x in lo ==> Before(x, m)
    ensures ZAdd(lo + hi, m) == lo + ZAdd(hi, m)
    decreases |lo|
  {
    if lo == [] {
      assert lo + hi == hi;
    } else {
      assert lo[0] in lo && forall x :: x in lo[1..] ==> x in lo;
      BeforeOrder(lo[0], m, m);
      assert (lo + hi)[0] == lo[0] && (lo + hi)[1..] == lo[1..] + hi;
      ZAddHigh(lo[1..], hi, m);
    }
  }

  /** An entry that does not belong after the last of `lo` is inserted within `lo`. */
  lemma {:induction false} ZAddLow(lo: seq<Message>, hi: seq<Message>, m: Message)
    requires lo != [] && Ordered(lo) && !Before(lo[|lo|-1], m)
    ensures ZAdd(lo + hi, m) == ZAdd(lo, m) + hi
    decreases |lo|
  {
    assert (lo + hi)[0] == lo[0] && (lo + hi)[1..] == lo[1..] + hi;
    BeforeOrder(lo[0], m, m);
    if m == lo[0] {
    } else if Before(m, lo[0]) {
      assert [m] + (lo + hi) == ([m] + lo) + hi;
    } else {
      ZAddLow(lo[1..], hi, m);
      assert [lo[0]] + (ZAdd(lo[1..], m) + hi) == ([lo[0]] + ZAdd(lo[1..], m)) + hi;
    }
  }

  lemma LastOfSuffix(lo: seq<Message>, hi: seq<Message>, k: nat)
    requires |hi| >= k
    ensures Last(lo + hi, k) == Last(hi, k)
  {}

  /** An entry at or before the newest trimmed one would be trimmed away again. */
  lemma LowEntryTrimmed(top: Message, hi: seq<Message>, m: Message)
    requires hi != [] && Before(top, hi[0]) && !Before(top, m)
    ensures ZAdd(hi, m) == [m] + hi
  {
    BeforeOrder(top, m, m);
    BeforeOrder(m, top, hi[0]);
    BeforeOrder(m, hi[0], m);
  }

  /** Trimming first and inserting then loses nothing that a trimmed log would keep. */
  lemma TrimThenAdd(z: seq<Message>, m: Message, k: nat)
    requires Ordered(z)
    ensures Last(ZAdd(Last(z, k), m), k) == Last(ZAdd(z, m), k)
  {
    if |z| > k {
      var lo, hi := z[..|z|-k], z[|z|-k..];
      var top := lo[|lo|-1];
      assert lo + hi == z;
      if Before(top, m) {
        forall x | x in lo ensures Before(x, m) {
          var i :| 0 <= i < |lo| && lo[i] == x;
          BeforeOrder(x, top, m);
        }
        ZAddHigh(lo, hi, m);
        ZAddOrdered(hi, m);
        LastOfSuffix(lo, ZAdd(hi, m), k);
      } else {
        ZAddLow(lo, hi, m);
        LastOfSuffix(ZAdd(lo, m), hi, k);
        if hi != [] {
          LowEntryTrimmed(top, hi, m);
          LastOfSuffix([m], hi, k);
        }
      }
    }
  }

  lemma LastOrdered(z: seq<Message>, k: nat)
    requires Ordered(z)
    ensures Ordered(Last(z, k))
  {}

  /** Main result: after any additions the cache is the last 100 entries of the untrimmed log. */
  lemma {:induction false} CacheRefinesFullLog(ms: seq<Message>)
    ensures Cache(ms) == Last(FullLog(ms), CACHE_SIZE)
    decreases |ms|
  {
    if ms != [] {
      var front, m := ms[..|ms|-1], ms[|ms|-1];
      CacheRefinesFullLog(front);
      FullLogIsSortedSet(front);
      TrimKeepsLast(ZAdd(Cache(front), m));
      TrimThenAdd(FullLog(front), m, CACHE_SIZE);
    }
  }

  lemma CacheOrdered(ms: seq<Message>)
    ensures Ordered(Cache(ms)) && forall x :: x in Cache(ms) ==> x in ms
  {
    CacheRefinesFullLog(ms);
    FullLogIsSortedSet(ms);
    LastOrdered(FullLog(ms), CACHE_SIZE);
  }

  lemma CacheSize(ms: seq<Message>)
    ensures |Cache(ms)| == if |set x | x in ms| < CACHE_SIZE then |set x | x in ms| else CACHE_SIZE
  {
    CacheRefinesFullLog(ms);
    FullLogIsSortedSet(ms);
    assert (set x | x in ms) == (set x | x in FullLog(ms));
    DistinctCount(FullLog(ms));
  }

  /** In an ascending list the last k entries come after all others. */
  lemma LastAreGreatest(z: seq<Message>, k: nat, x: Message, y: Message)
    requires Ordered(z) && x in Last(z, k) && y in z && y !in Last(z, k)
    ensures Before(y, x)
  {
    var c := Last(z, k);
    forall n | |z| - |c| <= n < |z| ensures z[n] in c { assert c[n - (|z| - |c|)] == z[n]; }
    var i :| 0 <= i < |c| && c[i] == x;
    var j :| 0 <= j < |z| && z[j] == y;
    assert x == z[|z| - |c| + i];
  }

  /** Equivalently: the cache holds the 100 greatest of all messages ever added, or all if they are fewer. */
  lemma CacheHoldsGreatest(ms: seq<Message>)
    ensures Ordered(Cache(ms)) && forall x :: x in Cache(ms) ==> x in ms
    ensures |Cache(ms)| == if |set x | x in ms| < CACHE_SIZE then |set x | x in ms| else CACHE_SIZE
    ensures forall x, y :: x in Cache(ms) && y in ms && y !in Cache(ms) ==> Before(y, x)
  {
    CacheOrdered(ms);
    CacheSize(ms);
    CacheRefinesFullLog(ms);
    FullLogIsSortedSet(ms);
    forall x, y | x in Cache(ms) && y in ms && y !in Cache(ms) ensures Before(y, x) {
      LastAreGreatest(FullLog(ms), CACHE_SIZE, x, y);
    }
  }

  lemma {:induction false} DistinctCount(z: seq<Message>)
    requires Ordered(z)
    ensures |set x | x in z| == |z|
    decreases |z|
  {
    if z != [] {
      DistinctCount(z[1..]);
      assert (set x | x in z) == {z[0]} + (set x | x in z[1..]);
      if z[0] in z[1..] {
        var i :| 0 <= i < |z[1..]| && z[1..][i] == z[0];
        BeforeOrder(z[0], z[i+1], z[0]);
        assert false;
      }
    }
  }

  // ---------------------------------------------------------------- reading

  function Min(a: int, b: int): int {
    if a < b then a else b
  }

  /** What a reader expects: the newest messages first, at most `limit` and at most 100 of them. */
  function NewestFirst(log: seq<Message>, limit: int): seq<Message> {
    var n := Min(limit, Min(CACHE_SIZE, |log|));
    if n <= 0 then [] else Reverse(log)[..n]
  }

  lemma ReverseLast(z: seq<Message>, k: nat, n: nat)
    requires n <= k && n <= |z|
    ensures n <= |Last(z, k)| && Reverse(Last(z, k))[..n] == Reverse(z)[..n]
  {}

  /** How many messages a read with this limit returns from a cache of this size. */
  function ReadSize(limit: int, size: nat): nat {
    if limit >= 1 then Min(limit, size) else if -limit < size then size + limit else 0
  }

  lemma RangeForLimit(limit: int, size: nat)
    ensures Range(0, limit - 1, size) == (0, ReadSize(limit, size))
  {}

  /** What a read returns for each limit, below 1 included. */
  lemma ReadForAnyLimit(z: seq<Message>, limit: int)
    ensures GetCached(z, limit) == Reverse(z)[..ReadSize(limit, |z|)]
  {
    RangeForLimit(limit, |z|);
  }

  /** For a positive limit, reading the cache is reading the untrimmed log newest first. */
  lemma ReadsNewestFirst(ms: seq<Message>, limit: int)
    requires limit >= 1
    ensures GetCached(Cache(ms), limit) == NewestFirst(FullLog(ms), limit)
  {
    CacheRefinesFullLog(ms);
    ReadForAnyLimit(Cache(ms), limit);
    ReverseLast(FullLog(ms), CACHE_SIZE, Min(limit, Min(CACHE_SIZE, |FullLog(ms)|)));
  }

  /** The exact condition. A limit of 0 or less does not return nothing: its negative stop index counts from
      the end of the set, so all but the oldest -limit cached messages come back. */
  lemma ReadsNewestFirstIff(ms: seq<Message>, limit: int)
    ensures GetCached(Cache(ms), limit) == NewestFirst(FullLog(ms), limit)
            <==> limit >= 1 || |Cache(ms)| <= -limit
  {
    if limit >= 1 {
      ReadsNewestFirst(ms, limit);
    } else {
      ReadForAnyLimit(Cache(ms), limit);
    }
  }

  /** In particular a read with limit 0 returns the whole cache, where a reader expects nothing. */
  lemma ZeroLimitReadsAll(ms: seq<Message>)
    ensures GetCached(Cache(ms), 0) == Reverse(Cache(ms)) && NewestFirst(FullLog(ms), 0) == []
    ensures ms != [] ==> GetCached(Cache(ms), 0) != []
  {
    ReadForAnyLimit(Cache(ms), 0);
    if ms != [] {
      FullLogIsSortedSet(ms);
      assert ms[0] in FullLog(ms);
      CacheRefinesFullLog(ms);
    }
  }

  // ---------------------------------------------------------------- the same in terms of sending times

  lemma OrderedByTime(z: seq<Message>, i: nat, j: nat)
    requires Ordered(z) && i < j < |z|
    ensures z[i].sentAt <= z[j].sentAt
  {}

  /** Along every read, whatever the limit, messages never get later. */
  lemma ReadNeverGetsLater(ms: seq<Message>, limit: int, i: nat, j: nat)
    requires i < j < |GetCached(Cache(ms), limit)|
    ensures GetCached(Cache(ms), limit)[i].sentAt >= GetCached(Cache(ms), limit)[j].sentAt
  {
    CacheOrdered(ms);
    ReadForAnyLimit(Cache(ms), limit);
    OrderedByTime(Cache(ms), |Cache(ms)| - 1 - j, |Cache(ms)| - 1 - i);
  }

  /** No message that was dropped was sent later than one that was kept, and messages are dropped only when 100 are
      kept. */
  lemma DroppedAreOldest(ms: seq<Message>, kept: Message, dropped: Message)
    requires kept in Cache(ms) && dropped in ms && dropped !in Cache(ms)
    ensures dropped.sentAt <= kept.sentAt
    ensures |Cache(ms)| == 100
  {
    CacheHoldsGreatest(ms);
    CacheRefinesFullLog(ms);
    FullLogIsSortedSet(ms);
    assert dropped in FullLog(ms);
    assert |FullLog(ms)| <= CACHE_SIZE ==> Cache(ms) == FullLog(ms);
  }

  // ---------------------------------------------------------------- the service, updating its key in place

  class CacheKey {
    var zset: seq<Message>
    ghost var added: seq<Message>

    ghost predicate Valid()
      reads this
    {
      zset == Cache(added)
    }

    constructor ()
      ensures Valid() && added == []
    {
      zset, added := [], [];
    }

    method AddMessageToCache(m: Message)
      requires Valid()
      modifies this
      ensures Valid() && added == old(added) + [m]
      ensures zset == Last(FullLog(added), CACHE_SIZE)
    {
      zset := ZAdd(zset, m);
      zset := ZRemRangeByRank(zset, 0, -CACHE_SIZE - 1);
      added := added + [m];
      assert added[..|added|-1] == old(added);
      CacheRefinesFullLog(added);
    }

    method GetCachedMessages(limit: int) returns (messages: seq<Message>)
      requires Valid()
      ensures limit >= 1 ==> messages == NewestFirst(FullLog(added), limit)
      ensures messages == Reverse(zset)[..ReadSize(limit, |zset|)]
    {
      messages := ZRevRange(zset, 0, limit - 1);
      ReadForAnyLimit(zset, limit);
      if limit >= 1 { ReadsNewestFirst(added, limit); }
    }
  }
}
