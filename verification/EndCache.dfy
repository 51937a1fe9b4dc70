/** The cache of open channel and connection ends in front of a chain. */
module EndCache {
  import opened Options
  import opened Ends

  /** Seconds an entry is kept. */
  const CHANNEL_CACHE_TTL: nat := 60
  const CONNECTION_CACHE_TTL: nat := 600

  function TimeToLive(kind: Kind): nat {
    if kind == Channels then CHANNEL_CACHE_TTL else CONNECTION_CACHE_TTL
  }

  datatype Entry = Entry(end: End, inserted: nat)

  /** The ends stored on the chain at every time. */
  type History = nat -> map<Id, End>

  /** An open end never changes, as ICS-003 has it for connections. */
  ghost predicate OpenIsFinal(h: History) {
    forall id, t, t' {:trigger Kept(h, id, t, t')} :: t <= t' ==> Kept(h, id, t, t')
  }

  ghost predicate Kept(h: History, id: Id, t: nat, t': nat) {
    id in h(t) && h(t)[id].state == Open ==> id in h(t') && h(t')[id] == h(t)[id]
  }

  /** The end was open on the chain, as stored, at some time less than `ttl` ago. */
  ghost predicate RecentlyOpen(h: History, id: Id, end: End, now: nat, ttl: nat) {
    exists t: nat :: t <= now < t + ttl && id in h(t) && h(t)[id] == end && end.state == Open
  }

  class Cache {
    const ttl: nat
    var entries: map<Id, Entry>

    /** Every entry was read from the chain at its insertion time, open. */
    ghost predicate Valid(h: History, now: nat)
      reads this
    {
      forall id :: id in entries ==>
        && entries[id].inserted <= now && id in h(entries[id].inserted)
        && h(entries[id].inserted)[id] == entries[id].end && entries[id].end.state == Open
    }

    constructor (kind: Kind)
      ensures ttl == TimeToLive(kind) && ttl == (if kind == Channels then 60 else 10 * 60) && entries == map[]
    {
      ttl := TimeToLive(kind);
      entries := map[];
    }

    /**
     Returns a live entry, or else what the chain answers now, caching it if it is open. A hit is an
     end that was open less than the time to live ago; where open ends are final, it is the end the
     chain would return now.
     */
    method GetOrTryInsert(id: Id, now: nat, fetched: Option<End>, ghost h: History)
      returns (r: Option<End>, hit: bool)
      requires Valid(h, now) && (fetched.Some? ==> id in h(now) && h(now)[id] == fetched.value)
      modifies this
      ensures Valid(h, now)
      ensures hit <==> id in old(entries) && now < old(entries)[id].inserted + ttl
      ensures hit ==> r.Some? && RecentlyOpen(h, id, r.value, now, ttl) && entries == old(entries)
      ensures hit && OpenIsFinal(h) ==> id in h(now) && r == Some(h(now)[id])
      ensures !hit ==> r == fetched
      ensures !hit && fetched.Some? && fetched.value.state == Open ==>
                entries == old(entries)[id := Entry(fetched.value, now)]
      ensures !hit && (fetched.None? || fetched.value.state != Open) ==> entries == old(entries)
    {
      if id in entries && now < entries[id].inserted + ttl {
        r, hit := Some(entries[id].end), true;
        assert OpenIsFinal(h) ==> Kept(h, id, entries[id].inserted, now);
      } else {
        r, hit := fetched, false;
        if fetched.Some? && fetched.value.state == Open {
          entries := entries[id := Entry(fetched.value, now)];
        }
      }
    }

    /** The cache may drop entries at any time. */
    method Evict(ids: set<Id>, ghost h: History, ghost now: nat)
      requires Valid(h, now)
      modifies this
      ensures Valid(h, now) && entries == old(entries) - ids
    {
      entries := entries - ids;
    }
  }

  /** One use of the cache: at a time not before the last one, after some entries were evicted. */
  datatype Access = Access(id: Id, now: nat, evicted: set<Id>, answers: bool)

  predicate Ordered(from: nat, accesses: seq<Access>)
    decreases |accesses|
  {
    accesses != [] ==> from <= accesses[0].now && Ordered(accesses[0].now, accesses[1..])
  }

  /** What an access fetches on a miss. */
  function Fetch(h: History, a: Access): Option<End> {
    if a.answers && a.id in h(a.now) then Some(h(a.now)[a.id]) else None
  }

  /** A result was open on the chain within the time to live. */
  ghost predicate Recent(h: History, a: Access, r: Option<End>, kind: Kind) {
    r.Some? && RecentlyOpen(h, a.id, r.value, a.now, TimeToLive(kind))
  }

  /** A result is what the chain stores at the time of the access, or nothing when it did not answer. */
  ghost predicate Truthful(h: History, a: Access, r: Option<End>) {
    && (r.Some? ==> a.id in h(a.now) && r.value == h(a.now)[a.id])
    && (r.None? ==> Fetch(h, a).None?)
  }

  /** What is known of the result of an access. */
  ghost predicate Good(h: History, kind: Kind, a: Access, r: Option<End>, hit: bool) {
    && (if hit then Recent(h, a, r, kind) else r == Fetch(h, a))
    && (OpenIsFinal(h) ==> Truthful(h, a, r))
  }

  method Use(cache: Cache, kind: Kind, a: Access, ghost last: nat, h: History) returns (r: Option<End>, hit: bool)
    requires cache.Valid(h, last) && last <= a.now && cache.ttl == TimeToLive(kind)
    modifies cache
    ensures cache.Valid(h, a.now) && Good(h, kind, a, r, hit)
  {
    cache.Evict(a.evicted, h, last);
    r, hit := cache.GetOrTryInsert(a.id, a.now, Fetch(h, a), h);
  }

  /**
   In every run, a hit was open on the chain within the time to live, and a miss is what the chain
   answers. Over a chain where open ends are final, every result is truthful.
   */
  method CacheRun(kind: Kind, h: History, start: nat, accesses: seq<Access>)
    returns (results: seq<Option<End>>, hits: seq<bool>)
    requires Ordered(start, accesses)
    ensures |results| == |hits| == |accesses|
    ensures forall i :: 0 <= i < |accesses| ==> Good(h, kind, accesses[i], results[i], hits[i])
  {
    var cache := new Cache(kind);
    results, hits := [], [];
    ghost var last := start;
    for i := 0 to |accesses|
      invariant fresh(cache) && cache.ttl == TimeToLive(kind)
      invariant cache.Valid(h, last) && Ordered(last, accesses[i..]) && |results| == |hits| == i
      invariant forall k :: 0 <= k < i ==> Good(h, kind, accesses[k], results[k], hits[k])
    {
      var a := accesses[i];
      assert accesses[i..][0] == a && accesses[i..][1..] == accesses[i + 1..];
      var r, hit := Use(cache, kind, a, last, h);
      last := a.now;
      results, hits := results + [r], hits + [hit];
    }
  }
}
