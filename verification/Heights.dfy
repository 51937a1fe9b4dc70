/** Block heights ordered by revision first, and sorting them. */
module Heights {

  datatype Height = Height(revision: nat, height: nat) {
    predicate Less(other: Height) {
      revision < other.revision || (revision == other.revision && height < other.height)
    }

    predicate AtMost(other: Height) { this == other || Less(other) }

    function Increment(): Height { Height(revision, height + 1) }
  }

  /** Heights are ordered by revision first; the order is total, and the next height follows at once. */
  lemma OrderedByRevision(x: Height, y: Height, z: Height)
    ensures x.revision < y.revision ==> x.Less(y)
    ensures x.revision == y.revision ==> (x.Less(y) <==> x.height < y.height)
    ensures (x.Less(y) || x == y || y.Less(x)) && !(x.Less(y) && y.AtMost(x))
    ensures x.Less(y) && y.Less(z) ==> x.Less(z)
    ensures x.Less(y) && x.revision == y.revision <==> x.Increment().AtMost(y) && x.revision == y.revision
  {}

  ghost predicate Descending(hs: seq<Height>) {
    forall i, j :: 0 <= i < j < |hs| ==> hs[j].AtMost(hs[i])
  }

  function Insert(h: Height, hs: seq<Height>): seq<Height> {
    if hs == [] || hs[0].AtMost(h) then [h] + hs else [hs[0]] + Insert(h, hs[1..])
  }

  lemma {:induction false} InsertAdds(h: Height, hs: seq<Height>)
    ensures multiset(Insert(h, hs)) == multiset(hs) + multiset{h}
  {
    if hs != [] && !hs[0].AtMost(h) {
      InsertAdds(h, hs[1..]);
      assert hs == [hs[0]] + hs[1..];
    }
  }

  lemma {:induction false} InsertKeepsOrder(h: Height, hs: seq<Height>)
    requires Descending(hs)
    ensures Descending(Insert(h, hs))
  {
    if hs != [] && !hs[0].AtMost(h) {
      InsertKeepsOrder(h, hs[1..]);
      InsertAdds(h, hs[1..]);
      forall k | k in Insert(h, hs[1..])
        ensures k.AtMost(hs[0])
      {
        assert k in multiset(Insert(h, hs[1..]));
        if k != h { var i :| 0 <= i < |hs[1..]| && hs[1..][i] == k; }
      }
    }
  }

  /** The heights in descending order, duplicates kept. */
  function SortDescending(hs: seq<Height>): (r: seq<Height>)
    ensures Descending(r) && multiset(r) == multiset(hs)
  {
    if hs == [] then []
    else
      assert hs == [hs[0]] + hs[1..];
      InsertKeepsOrder(hs[0], SortDescending(hs[1..]));
      InsertAdds(hs[0], SortDescending(hs[1..]));
      Insert(hs[0], SortDescending(hs[1..]))
  }

  lemma {:induction false} SameElements(hs: seq<Height>, h: Height)
    ensures h in SortDescending(hs) <==> h in hs
  {
    assert h in SortDescending(hs) <==> h in multiset(SortDescending(hs));
  }
}

/** Optional points in time, in nanoseconds, as the relayer computes with them. */
module Timestamps {
  import opened Options

  type Timestamp = Option<nat>

  /** The latest representable time, the end of year 9999. */
  const MAX_TIME: nat := 253_402_300_799_999_999_999

  /** The time elapsed since `earlier`, if both are set and in this order. */
  function DurationSince(now: Timestamp, earlier: Timestamp): Option<nat> {
    if now.Some? && earlier.Some? && earlier.value <= now.value then Some(now.value - earlier.value) else None
  }

  /** Strictly later; an unset timestamp is never later nor earlier. */
  predicate After(t: Timestamp, other: Timestamp) {
    t.Some? && other.Some? && t.value > other.value
  }

  function Plus(t: Timestamp, duration: nat): Result<Timestamp, ()> {
    if t.None? then Success(t)
    else if t.value + duration <= MAX_TIME then Success(Some(t.value + duration))
    else Failure(())
  }
}
