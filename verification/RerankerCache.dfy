/** The LRU cache of reranking scores with expiry (cache.rs of reranker-runner). */
module RerankerCache {
  import opened Options

  datatype Entry = Entry(key: string, score: real, stamp: nat)

  /** Entries, most recently used first. */
  type Entries = seq<Entry>

  predicate DistinctKeys(es: Entries) {
    forall i, j :: 0 <= i < j < |es| ==> es[i].key != es[j].key
  }

  predicate WellFormed(es: Entries, capacity: nat) {
    |es| <= capacity && DistinctKeys(es)
  }

  function IndexOf(es: Entries, key: string): (r: Option<nat>)
    ensures r.Some? ==> r.value < |es| && es[r.value].key == key
    ensures r.None? ==> forall i :: 0 <= i < |es| ==> es[i].key != key
  {
    if es == [] then None
    else if es[0].key == key then Some(0)
    else
      match IndexOf(es[1..], key)
      case None => None
      case Some(i) => Some(i + 1)
  }

  function Without(es: Entries, i: nat): (r: Entries)
    requires i < |es|
    ensures |r| == |es| - 1
    ensures forall k :: 0 <= k < |r| ==> r[k] == es[if k < i then k else k + 1]
  {
    es[..i] + es[i + 1..]
  }

  function Elapsed(stamp: nat, now: nat): nat {
    if stamp <= now then now - stamp else 0
  }

  /** A hit moves to the front; an expired entry is dropped and misses. */
  function Get(es: Entries, key: string, now: nat, ttl: nat): (r: (Option<real>, Entries))
    ensures |r.1| <= |es| && (DistinctKeys(es) ==> DistinctKeys(r.1))
  {
    match IndexOf(es, key)
    case None => (None, es)
    case Some(i) =>
      if Elapsed(es[i].stamp, now) < ttl then (Some(es[i].score), [es[i]] + Without(es, i))
      else (None, Without(es, i))
  }

  /** What a put leaves besides the entry it makes: a known key is replaced, otherwise
      a full cache first loses the entry that has not been used for longest. */
  function Kept(es: Entries, key: string, capacity: nat): (r: Entries)
    requires capacity > 0 && |es| <= capacity
    ensures |r| < capacity
    ensures DistinctKeys(es) ==> DistinctKeys(r) && forall k :: 0 <= k < |r| ==> r[k].key != key
  {
    match IndexOf(es, key)
    case Some(i) => Without(es, i)
    case None => if |es| == capacity then es[..|es| - 1] else es
  }

  function Put(es: Entries, key: string, score: real, now: nat, capacity: nat): (r: Entries)
    requires capacity > 0 && |es| <= capacity
    ensures |r| <= capacity && (DistinctKeys(es) ==> DistinctKeys(r))
  {
    [Entry(key, score, now)] + Kept(es, key, capacity)
  }

  /** Neither operation makes up entries. */
  lemma GetOnlyDrops(es: Entries, key: string, now: nat, ttl: nat)
    ensures forall e :: e in Get(es, key, now, ttl).1 ==> e in es
  {
  }

  /** A lookup moves the entry it finds to the front, or leaves none under the key
      when it misses; all other entries stay. */
  lemma LookupExact(es: Entries, key: string, now: nat, ttl: nat)
    requires DistinctKeys(es)
    ensures var (hit, es') := Get(es, key, now, ttl);
      && (forall e :: e in es' && e.key != key <==> e in es && e.key != key)
      && (hit.None? <==> forall e :: e in es' ==> e.key != key)
      && (hit.Some? ==> es' != [] && es'[0] in es && es'[0].key == key && es'[0].score == hit.value)
  {
    hide IndexOf;
    var (hit, es') := Get(es, key, now, ttl);
    forall e: Entry | e.key != key ensures e in es' <==> e in es {
      OthersStay(es, key, now, ttl, e);
    }
  }

  /** A lookup hits exactly when there is an entry under the key that still lives. */
  lemma HitExactly(es: Entries, key: string, now: nat, ttl: nat, x: real)
    requires DistinctKeys(es)
    ensures Get(es, key, now, ttl).0 == Some(x)
       <==> exists e :: e in es && e.key == key && e.score == x && 0 < ttl && now < e.stamp + ttl
  {
    hide DistinctKeys;
    var at := IndexOf(es, key);
    if at.Some? {
      assert es[at.value] in es;
      forall e | e in es && e.key == key ensures e == es[at.value] {
        OnlyEntry(es, key, e);
      }
    }
  }

  lemma OnlyEntry(es: Entries, key: string, e: Entry)
    requires DistinctKeys(es) && e in es && e.key == key
    ensures IndexOf(es, key).Some? && e == es[IndexOf(es, key).value]
  {
    hide IndexOf;
    var k :| 0 <= k < |es| && es[k] == e;
  }

  lemma OthersStay(es: Entries, key: string, now: nat, ttl: nat, e: Entry)
    requires DistinctKeys(es) && e.key != key
    ensures e in Get(es, key, now, ttl).1 <==> e in es
  {
    hide IndexOf;
    GetOnlyDrops(es, key, now, ttl);
    var at := IndexOf(es, key);
    if e in es && at.Some? {
      var i, rest := at.value, Without(es, at.value);
      var k :| 0 <= k < |es| && es[k] == e;
      assert rest[if k < i then k else k - 1] == e;
    }
  }

  lemma PutOnlyAdds(es: Entries, key: string, score: real, now: nat, capacity: nat)
    requires capacity > 0 && |es| <= capacity
    ensures forall e :: e in Put(es, key, score, now, capacity) ==> e in es || e == Entry(key, score, now)
  {
  }

  /** What was put is found until its time to live is over, and not after, as long as
      nothing else is put.  On a clock that went back it still lives. */
  lemma PutThenGet(es: Entries, key: string, score: real, now: nat, later: nat, ttl: nat, capacity: nat)
    requires capacity > 0 && WellFormed(es, capacity)
    ensures Get(Put(es, key, score, now, capacity), key, later, ttl).0
         == if 0 < ttl && later < now + ttl then Some(score) else None
  {
  }

  /** A put of another key evicts entry `i`. */
  predicate Evicts(es: Entries, key: string, capacity: nat, i: nat) {
    IndexOf(es, key).None? && |es| == capacity && i == |es| - 1
  }

  lemma SurvivesKept(es: Entries, key: string, capacity: nat, i: nat)
    requires capacity > 0 && WellFormed(es, capacity) && i < |es| && es[i].key != key
    requires !Evicts(es, key, capacity, i)
    ensures es[i] in Kept(es, key, capacity)
  {
    hide DistinctKeys, IndexOf;
    var r := Kept(es, key, capacity);
    match IndexOf(es, key) {
      case Some(j) =>
        assert r[if i < j then i else i - 1] == es[i];
      case None =>
        assert r[i] == es[i];
    }
  }

  lemma SurvivesPut(es: Entries, key: string, score: real, now: nat, capacity: nat, i: nat)
    requires capacity > 0 && WellFormed(es, capacity) && i < |es| && es[i].key != key
    requires !Evicts(es, key, capacity, i)
    ensures es[i] in Put(es, key, score, now, capacity)
  {
    hide DistinctKeys, IndexOf, Kept;
    SurvivesKept(es, key, capacity, i);
    var r := Put(es, key, score, now, capacity);
    var k :| 0 <= k < |Kept(es, key, capacity)| && Kept(es, key, capacity)[k] == es[i];
    assert r[k + 1] == es[i];
  }

  /** A put evicts the last entry, and only from a full cache for a new key; every
      other entry stays.  The last entry is the one used longest ago, see
      `EvictsEarliestUsed`. */
  lemma EvictsLeastRecentlyUsed(es: Entries, key: string, score: real, now: nat, capacity: nat, i: nat)
    requires capacity > 0 && WellFormed(es, capacity) && i < |es| && es[i].key != key
    ensures es[i] in Put(es, key, score, now, capacity) <==> !Evicts(es, key, capacity, i)
  {
    if Evicts(es, key, capacity, i) {
      var r := Put(es, key, score, now, capacity);
      assert r == [Entry(key, score, now)] + es[..i];
      forall k | 0 <= k < |r| ensures r[k] != es[i] {
        if k > 0 {
          assert r[k] == es[k - 1];
        }
      }
    } else {
      SurvivesPut(es, key, score, now, capacity, i);
    }
  }

  /** A hit protects its entry from the next eviction. */
  lemma HitSurvivesNextPut(es: Entries, key: string, now: nat, ttl: nat, other: string, score: real, later: nat,
                           capacity: nat)
    requires capacity >= 2 && WellFormed(es, capacity) && other != key
    requires Get(es, key, now, ttl).0.Some?
    ensures Get(Put(Get(es, key, now, ttl).1, other, score, later, capacity), key, now, ttl).0
         == Get(es, key, now, ttl).0
  {
    hide IndexOf, DistinctKeys;
    var i := IndexOf(es, key).value;
    var hit := Get(es, key, now, ttl).1;
    assert hit[0] == es[i];
    SurvivesPut(hit, other, score, later, capacity, 0);
    var r := Put(hit, other, score, later, capacity);
    EntryIsFound(r, es[i]);
  }

  lemma EntryIsFound(es: Entries, e: Entry)
    requires DistinctKeys(es) && e in es
    ensures IndexOf(es, e.key).Some? && es[IndexOf(es, e.key).value] == e
  {
    var k :| 0 <= k < |es| && es[k] == e;
  }

  // ---- Histories ----

  /** One operation on the cache.  A stored score remembers whether it stands in for
      a failed computation. */
  datatype Op =
    | Looked(key: string, now: nat)
    | Stored(key: string, score: real, now: nat, failed: bool)

  function Apply(es: Entries, op: Op, ttl: nat, capacity: nat): (es': Entries)
    requires capacity > 0 && WellFormed(es, capacity)
    ensures WellFormed(es', capacity)
  {
    match op
    case Looked(key, now) => Get(es, key, now, ttl).1
    case Stored(key, score, now, _) => Put(es, key, score, now, capacity)
  }

  /** The cache after a history of operations. */
  function Replay(h: seq<Op>, ttl: nat, capacity: nat): (es: Entries)
    requires capacity > 0
    ensures WellFormed(es, capacity)
  {
    if h == [] then [] else Apply(Replay(h[..|h| - 1], ttl, capacity), h[|h| - 1], ttl, capacity)
  }

  /** The newest score stored under a key, evicted since or not. */
  function LastStored(h: seq<Op>, key: string): (o: Option<Op>)
    ensures o.Some? ==> o.value.Stored? && o.value.key == key
  {
    if h == [] then None
    else
      var op := h[|h| - 1];
      if op.Stored? && op.key == key then Some(op) else LastStored(h[..|h| - 1], key)
  }

  /** An entry is the score stored last under its key. */
  predicate IsLastStored(e: Entry, h: seq<Op>) {
    var o := LastStored(h, e.key);
    o.Some? && o.value.score == e.score && o.value.now == e.stamp
  }

  /** After a put the key has no other entry. */
  lemma PutReplaces(es: Entries, key: string, score: real, now: nat, capacity: nat, e: Entry)
    requires capacity > 0 && WellFormed(es, capacity) && e in Put(es, key, score, now, capacity)
    ensures e == Entry(key, score, now) || (e in es && e.key != key)
  {
    hide IndexOf;
    PutOnlyAdds(es, key, score, now, capacity);
    var r := Put(es, key, score, now, capacity);
    assert r[0] == Entry(key, score, now) && DistinctKeys(r);
    var k :| 0 <= k < |r| && r[k] == e;
  }

  lemma {:induction false} EntriesAreLastStored(h: seq<Op>, ttl: nat, capacity: nat, e: Entry)
    requires capacity > 0 && e in Replay(h, ttl, capacity)
    ensures IsLastStored(e, h)
    decreases |h|
  {
    hide Get, Put, DistinctKeys;
    var front := h[..|h| - 1];
    var before := Replay(front, ttl, capacity);
    match h[|h| - 1] {
      case Looked(key, now) =>
        GetOnlyDrops(before, key, now, ttl);
        EntriesAreLastStored(front, ttl, capacity, e);
      case Stored(key, score, now, _) =>
        PutReplaces(before, key, score, now, capacity, e);
        if e != Entry(key, score, now) {
          EntriesAreLastStored(front, ttl, capacity, e);
        }
    }
  }

  /** A hit is the score stored last under the key, and still alive. */
  lemma HitIsLastStored(h: seq<Op>, key: string, now: nat, ttl: nat, capacity: nat)
    requires capacity > 0
    ensures var hit := Get(Replay(h, ttl, capacity), key, now, ttl).0; var o := LastStored(h, key);
      hit.Some? ==> o.Some? && o.value.score == hit.value && 0 < ttl && now < o.value.now + ttl
  {
    hide Replay, LastStored;
    var es := Replay(h, ttl, capacity);
    var i := IndexOf(es, key);
    if i.Some? {
      EntriesAreLastStored(h, ttl, capacity, es[i.value]);
    }
  }

  // ---- Recency ----

  /** Operation `n` of the history used the key: stored under it, or found it alive. */
  predicate Uses(h: seq<Op>, n: nat, key: string, ttl: nat, capacity: nat)
    requires capacity > 0 && n < |h|
  {
    && h[n].key == key
    && (h[n].Looked? ==> Get(Replay(h[..n], ttl, capacity), key, h[n].now, ttl).0.Some?)
  }

  /** The operation that used the key last; -1 if none did. */
  function LastUse(h: seq<Op>, key: string, ttl: nat, capacity: nat): (n: int)
    requires capacity > 0
    ensures -1 <= n < |h|
  {
    if h == [] then -1
    else if Uses(h, |h| - 1, key, ttl, capacity) then |h| - 1
    else LastUse(h[..|h| - 1], key, ttl, capacity)
  }

  lemma {:induction false} LastUseIsLast(h: seq<Op>, key: string, ttl: nat, capacity: nat)
    requires capacity > 0
    ensures var n := LastUse(h, key, ttl, capacity);
      && (n >= 0 ==> Uses(h, n, key, ttl, capacity))
      && forall k :: n < k < |h| ==> !Uses(h, k, key, ttl, capacity)
  {
    hide Replay, Get;
    if h != [] && !Uses(h, |h| - 1, key, ttl, capacity) {
      var front := h[..|h| - 1];
      LastUseIsLast(front, key, ttl, capacity);
      forall k | 0 <= k < |front| ensures Uses(h, k, key, ttl, capacity) <==> Uses(front, k, key, ttl, capacity) {
        assert h[..k] == front[..k];
      }
    }
  }

  /** Entries stand in the order of their last use, newest first. */
  predicate OrderedByUse(es: Entries, h: seq<Op>, ttl: nat, capacity: nat)
    requires capacity > 0
  {
    forall i, j :: 0 <= i < j < |es| ==>
      LastUse(h, es[i].key, ttl, capacity) > LastUse(h, es[j].key, ttl, capacity)
  }

  lemma OrderWithout(es: Entries, i: nat, h: seq<Op>, ttl: nat, capacity: nat)
    requires capacity > 0 && i < |es| && OrderedByUse(es, h, ttl, capacity)
    ensures OrderedByUse(Without(es, i), h, ttl, capacity)
  {
    hide LastUse;
  }

  /** The last operation used none of these entries. */
  lemma OrderUnused(es: Entries, h: seq<Op>, ttl: nat, capacity: nat)
    requires capacity > 0 && h != [] && OrderedByUse(es, h[..|h| - 1], ttl, capacity)
    requires forall i :: 0 <= i < |es| ==> !Uses(h, |h| - 1, es[i].key, ttl, capacity)
    ensures OrderedByUse(es, h, ttl, capacity)
  {
    hide Uses, Replay, Get;
  }

  /** The last operation used the entry in front and no other. */
  lemma OrderInFront(e: Entry, kept: Entries, h: seq<Op>, ttl: nat, capacity: nat)
    requires capacity > 0 && h != [] && OrderedByUse(kept, h[..|h| - 1], ttl, capacity)
    requires Uses(h, |h| - 1, e.key, ttl, capacity)
    requires forall i :: 0 <= i < |kept| ==> kept[i].key != e.key
    ensures OrderedByUse([e] + kept, h, ttl, capacity)
  {
    hide Replay, Get;
    var es := [e] + kept;
    OrderUnused(kept, h, ttl, capacity);
    forall i, j | 0 <= i < j < |es|
      ensures LastUse(h, es[i].key, ttl, capacity) > LastUse(h, es[j].key, ttl, capacity)
    {
      assert es[j] == kept[j - 1];
      if i > 0 {
        assert es[i] == kept[i - 1];
      }
    }
  }

  lemma LookupUses(h: seq<Op>, key: string, ttl: nat, capacity: nat)
    requires capacity > 0 && h != [] && h[|h| - 1].Looked?
    ensures var op := h[|h| - 1];
      Uses(h, |h| - 1, key, ttl, capacity) <==>
        key == op.key && Get(Replay(h[..|h| - 1], ttl, capacity), key, op.now, ttl).0.Some?
  {
    hide Get, Replay;
  }

  lemma GetCases(es: Entries, key: string, now: nat, ttl: nat)
    ensures IndexOf(es, key).None? ==> Get(es, key, now, ttl) == (None, es)
    ensures IndexOf(es, key).Some? ==>
      var i := IndexOf(es, key).value;
      Get(es, key, now, ttl) ==
        if Elapsed(es[i].stamp, now) < ttl then (Some(es[i].score), [es[i]] + Without(es, i))
        else (None, Without(es, i))
  {
    hide IndexOf, DistinctKeys;
  }

  lemma OthersKeys(es: Entries, i: nat)
    requires i < |es| && DistinctKeys(es)
    ensures forall k :: 0 <= k < |Without(es, i)| ==> Without(es, i)[k].key != es[i].key
  {
  }

  lemma OrderAfterLookup(h: seq<Op>, ttl: nat, capacity: nat)
    requires capacity > 0 && h != [] && h[|h| - 1].Looked?
    requires OrderedByUse(Replay(h[..|h| - 1], ttl, capacity), h[..|h| - 1], ttl, capacity)
    ensures OrderedByUse(Replay(h, ttl, capacity), h, ttl, capacity)
  {
    hide LastUse, OrderedByUse, Get, Uses, IndexOf, Without, DistinctKeys, Elapsed;
    var front := h[..|h| - 1];
    var es := Replay(front, ttl, capacity);
    var key, now := h[|h| - 1].key, h[|h| - 1].now;
    GetCases(es, key, now, ttl);
    match IndexOf(es, key) {
      case None =>
        forall k | 0 <= k < |es| ensures !Uses(h, |h| - 1, es[k].key, ttl, capacity) {
          LookupUses(h, es[k].key, ttl, capacity);
        }
        OrderUnused(es, h, ttl, capacity);
      case Some(i) =>
        OrderWithout(es, i, front, ttl, capacity);
        OthersKeys(es, i);
        if Elapsed(es[i].stamp, now) < ttl {
          LookupUses(h, key, ttl, capacity);
          OrderInFront(es[i], Without(es, i), h, ttl, capacity);
        } else {
          var kept := Without(es, i);
          forall k | 0 <= k < |kept| ensures !Uses(h, |h| - 1, kept[k].key, ttl, capacity) {
            LookupUses(h, kept[k].key, ttl, capacity);
          }
          OrderUnused(kept, h, ttl, capacity);
        }
    }
  }

  lemma OrderKept(es: Entries, key: string, h: seq<Op>, ttl: nat, capacity: nat)
    requires capacity > 0 && WellFormed(es, capacity) && OrderedByUse(es, h, ttl, capacity)
    ensures var kept := Kept(es, key, capacity);
      OrderedByUse(kept, h, ttl, capacity) && forall i :: 0 <= i < |kept| ==> kept[i].key != key
  {
    hide LastUse, OrderedByUse;
    match IndexOf(es, key) {
      case Some(i) =>
        OrderWithout(es, i, h, ttl, capacity);
      case None =>
        if |es| == capacity {
          OrderWithout(es, |es| - 1, h, ttl, capacity);
          assert Without(es, |es| - 1) == es[..|es| - 1];
        }
    }
  }

  lemma OrderAfterStore(h: seq<Op>, ttl: nat, capacity: nat)
    requires capacity > 0 && h != [] && h[|h| - 1].Stored?
    requires OrderedByUse(Replay(h[..|h| - 1], ttl, capacity), h[..|h| - 1], ttl, capacity)
    ensures OrderedByUse(Replay(h, ttl, capacity), h, ttl, capacity)
  {
    hide LastUse, OrderedByUse, Kept, Get, DistinctKeys;
    var front := h[..|h| - 1];
    var es := Replay(front, ttl, capacity);
    var op := h[|h| - 1];
    OrderKept(es, op.key, front, ttl, capacity);
    OrderInFront(Entry(op.key, op.score, op.now), Kept(es, op.key, capacity), h, ttl, capacity);
  }

  /** The list order is the order of last use, after every history. */
  lemma {:induction false} ReplayIsOrdered(h: seq<Op>, ttl: nat, capacity: nat)
    requires capacity > 0
    ensures OrderedByUse(Replay(h, ttl, capacity), h, ttl, capacity)
  {
    hide Get, Put, LastUse;
    if h != [] {
      ReplayIsOrdered(h[..|h| - 1], ttl, capacity);
      if h[|h| - 1].Looked? {
        OrderAfterLookup(h, ttl, capacity);
      } else {
        OrderAfterStore(h, ttl, capacity);
      }
    }
  }

  /** After every history, a put loses another entry exactly when the key is new, the
      cache full, and every remaining key was used later. */
  lemma EvictsEarliestUsed(h: seq<Op>, ttl: nat, key: string, score: real, now: nat, capacity: nat, i: nat)
    requires capacity > 0 && i < |Replay(h, ttl, capacity)| && Replay(h, ttl, capacity)[i].key != key
    ensures var es := Replay(h, ttl, capacity);
      es[i] !in Put(es, key, score, now, capacity) <==>
        && IndexOf(es, key).None? && |es| == capacity
        && forall j :: 0 <= j < |es| && j != i ==>
             LastUse(h, es[i].key, ttl, capacity) < LastUse(h, es[j].key, ttl, capacity)
  {
    hide Replay, LastUse, Put;
    var es := Replay(h, ttl, capacity);
    ReplayIsOrdered(h, ttl, capacity);
    EvictsLeastRecentlyUsed(es, key, score, now, capacity, i);
    if i < |es| - 1 {
      assert LastUse(h, es[i].key, ttl, capacity) > LastUse(h, es[|es| - 1].key, ttl, capacity);
    }
  }

  // ---- The cache ----

  class Cache {
    const capacity: nat
    const ttl: nat
    var entries: Entries

    ghost predicate Valid()
      reads this
    {
      capacity > 0 && WellFormed(entries, capacity)
    }

    constructor (capacity: nat, ttl: nat)
      requires capacity > 0
      ensures Valid() && this.capacity == capacity && this.ttl == ttl && entries == []
    {
      this.capacity, this.ttl, entries := capacity, ttl, [];
    }

    method Lookup(key: string, now: nat) returns (score: Option<real>)
      requires Valid()
      modifies this`entries
      ensures Valid()
      ensures (score, entries) == Get(old(entries), key, now, ttl)
    {
      score := None;
      var at := IndexOf(entries, key);
      if at.Some? {
        var e := entries[at.value];
        entries := [e] + Without(entries, at.value);
        if Elapsed(e.stamp, now) < ttl {
          score := Some(e.score);
        } else {
          entries := entries[1..];
        }
      }
    }

    method Store(key: string, score: real, now: nat)
      requires Valid()
      modifies this`entries
      ensures Valid()
      ensures entries == Put(old(entries), key, score, now, capacity)
    {
      var at := IndexOf(entries, key);
      if at.Some? {
        entries := [Entry(key, score, now)] + Without(entries, at.value);
      } else {
        if |entries| == capacity {
          entries := entries[..|entries| - 1];
        }
        entries := [Entry(key, score, now)] + entries;
      }
    }

    /** A cached score is returned as it is; otherwise a computed one is stored, and
        a failed computation stores nothing. */
    method GetOrCompute(key: string, computed: Option<real>, now: nat, later: nat) returns (score: Option<real>)
      requires Valid()
      modifies this`entries
      ensures Valid()
      ensures var (hit, es) := Get(old(entries), key, now, ttl);
        && score == (if hit.Some? then hit else computed)
        && entries == if hit.None? && computed.Some? then Put(es, key, computed.value, later, capacity) else es
    {
      score := Lookup(key, now);
      if score.None? {
        score := computed;
        if computed.Some? {
          Store(key, computed.value, later);
        }
      }
    }
  }
}
