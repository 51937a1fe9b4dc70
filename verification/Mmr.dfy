/**
 Merkle mountain ranges as the header storage uses them: the digests of the nodes are kept under
 consecutive positions, and pushing a leaf writes the leaf and the parents it completes, reading the
 left children back from the store.
 */
module Mmr {
  import opened Options

  /** Digests of headers and of merged nodes; hashing is taken to be free of collisions. */
  datatype Digest = Header(id: nat) | Merged(left: Digest, right: Digest)

  function Pow2(h: nat): (r: nat)
    ensures r > 0
  {
    if h == 0 then 1 else 2 * Pow2(h - 1)
  }

  /** The number of ones in the binary representation, which is the number of peaks. */
  function Ones(n: nat): (r: nat)
    ensures r <= n
  {
    if n == 0 then 0 else n % 2 + Ones(n / 2)
  }

  /** The number of positions occupied by `n` leaves and their parents. */
  function Size(n: nat): nat { 2 * n - Ones(n) }

  /** How many parents the leaf with index `n` completes: the trailing ones of `n`. */
  function Parents(n: nat): nat { if n % 2 == 1 then 1 + Parents(n / 2) else 0 }

  /** Reference digest: the node of height `h` whose last leaf is `n`, computed from the leaves alone. */
  function Node(leaves: seq<Digest>, h: nat, n: nat): Digest
    requires n < |leaves|
  {
    if h == 0 || Pow2(h - 1) > n then leaves[n]
    else Merged(Node(leaves, h - 1, n - Pow2(h - 1)), Node(leaves, h - 1, n))
  }

  // ---------------------------------------------------------------- the library

  /** What a handle reads: its own pending digests from `start` on, the store below. */
  function Look(store: map<nat, Digest>, start: nat, pending: seq<Digest>, pos: nat): Option<Digest> {
    if start <= pos < start + |pending| then Some(pending[pos - start])
    else if pos < start && pos in store then Some(store[pos])
    else None
  }

  /** Completes the parents above height `h` of leaf `n`, reading each left child. */
  function Climb(store: map<nat, Digest>, start: nat, pending: seq<Digest>, n: nat, h: nat,
                 node: Digest): Option<seq<Digest>>
    requires h <= Parents(n)
    decreases Parents(n) - h
  {
    if h == Parents(n) then Some([node])
    else
      var parent := Size(n) + h + 1;
      if parent < Pow2(h + 1) then None else
      match Look(store, start, pending, parent - Pow2(h + 1))
      case None => None
      case Some(left) =>
        match Climb(store, start, pending, n, h + 1, Merged(left, node))
        case None => None
        case Some(rest) => Some([node] + rest)
  }

  /** An MMR over `leaves` leaves, some of whose digests are not committed yet. */
  datatype Handle = Handle(start: nat, pending: seq<Digest>, leaves: nat)

  function Open(leaves: nat): Handle { Handle(Size(leaves), [], leaves) }

  /** Pushes a leaf; fails if a left child is missing from the store. */
  function Push(store: map<nat, Digest>, m: Handle, leaf: Digest): Option<Handle> {
    match Climb(store, m.start, m.pending, m.leaves, 0, leaf)
    case None => None
    case Some(nodes) => Some(Handle(m.start, m.pending + nodes, m.leaves + 1))
  }

  /** The store after writing digests to consecutive positions. */
  function Written(store: map<nat, Digest>, pos: nat, elems: seq<Digest>): map<nat, Digest>
    decreases |elems|
  {
    if elems == [] then store else Written(store[pos := elems[0]], pos + 1, elems[1..])
  }

  // ---------------------------------------------------------------- arithmetic of positions

  /** Clearing a trailing one gives the last leaf of the left sibling. */
  lemma {:induction false} LeftSibling(n: nat, h: nat)
    requires h < Parents(n)
    ensures Pow2(h) <= n && Parents(n - Pow2(h)) == h && Ones(n - Pow2(h)) == Ones(n) - 1
  {
    if h > 0 {
      LeftSibling(n / 2, h - 1);
      var m := n - Pow2(h);
      assert m % 2 == 1 && m / 2 == n / 2 - Pow2(h - 1);
    } else {
      assert (n - 1) / 2 == n / 2;
    }
  }

  /** A push writes exactly the positions between two sizes. */
  lemma {:induction false} SizeStep(n: nat)
    ensures Size(n + 1) == Size(n) + 1 + Parents(n)
  {
    if n % 2 == 1 {
      SizeStep(n / 2);
      assert (n + 1) / 2 == n / 2 + 1 && (n + 1) % 2 == 0;
    } else {
      assert (n + 1) / 2 == n / 2 && (n + 1) % 2 == 1;
    }
  }

  lemma {:induction false} SizeMonotone(m: nat, n: nat)
    requires m < n
    ensures Size(m) + Parents(m) < Size(n)
    decreases n
  {
    SizeStep(n - 1);
    if m < n - 1 { SizeMonotone(m, n - 1); }
  }

  /** The leaf and the height of the node at a position below the size. */
  function Owner(n: nat, pos: nat): (r: (nat, nat))
    requires pos < Size(n)
    ensures r.0 < n && r.1 <= Parents(r.0) && pos == Size(r.0) + r.1
    decreases n
  {
    SizeStep(n - 1);
    if pos >= Size(n - 1) then (n - 1, pos - Size(n - 1)) else Owner(n - 1, pos)
  }

  lemma {:induction false} OwnerIsUnique(l: nat, k: nat, l': nat, k': nat)
    requires k <= Parents(l) && k' <= Parents(l') && Size(l) + k == Size(l') + k'
    ensures l == l' && k == k'
  {
    if l < l' { SizeMonotone(l, l'); } else if l' < l { SizeMonotone(l', l); }
  }

  lemma {:induction false} NodeOfPrefix(leaves: seq<Digest>, longer: seq<Digest>, h: nat, n: nat)
    requires n < |leaves| && leaves <= longer
    ensures Node(leaves, h, n) == Node(longer, h, n)
  {
    if h > 0 && Pow2(h - 1) <= n {
      NodeOfPrefix(leaves, longer, h - 1, n - Pow2(h - 1));
      NodeOfPrefix(leaves, longer, h - 1, n);
    }
  }

  /** Two to the power of `k` leaves make one full mountain: the last of them completes `k` parents. */
  lemma {:induction false} FullMountain(k: nat)
    ensures Ones(Pow2(k)) == 1 && Size(Pow2(k)) == 2 * Pow2(k) - 1 && Parents(Pow2(k) - 1) == k
  {
    if k > 0 {
      FullMountain(k - 1);
      assert Pow2(k) / 2 == Pow2(k - 1) && Pow2(k) % 2 == 0;
      assert (Pow2(k) - 1) / 2 == Pow2(k - 1) - 1 && (Pow2(k) - 1) % 2 == 1;
    }
  }

  /** The headers below a digest, from left to right. */
  function Below(d: Digest): seq<Digest> {
    match d
    case Header(_) => [d]
    case Merged(l, r) => Below(l) + Below(r)
  }

  function BelowAll(ds: seq<Digest>): seq<Digest> {
    if ds == [] then [] else BelowAll(ds[..|ds| - 1]) + Below(ds[|ds| - 1])
  }

  lemma {:induction false} BelowConcat(first: seq<Digest>, second: seq<Digest>)
    ensures BelowAll(first + second) == BelowAll(first) + BelowAll(second)
    decreases |second|
  {
    if second == [] {
      assert first + second == first;
    } else {
      var all, init, last := first + second, second[..|second| - 1], second[|second| - 1];
      assert all[..|all| - 1] == first + init && all[|all| - 1] == last;
      BelowConcat(first, init);
      var x, y, z := BelowAll(first), BelowAll(init), Below(last);
      assert (x + y) + z == x + (y + z);
    }
  }

  /** A node of height `h` stands for the two to the power of `h` leaves that end with its last one, in order. */
  lemma {:induction false} NodeStandsForItsLeaves(leaves: seq<Digest>, h: nat, n: nat)
    requires n < |leaves| && Pow2(h) <= n + 1
    ensures Below(Node(leaves, h, n)) == BelowAll(leaves[n + 1 - Pow2(h)..n + 1])
  {
    if h == 0 {
      assert leaves[n..n + 1] == [leaves[n]];
      assert BelowAll([leaves[n]]) == BelowAll([]) + Below(leaves[n]);
    } else {
      var half := Pow2(h - 1);
      NodeStandsForItsLeaves(leaves, h - 1, n - half);
      NodeStandsForItsLeaves(leaves, h - 1, n);
      BelowConcat(leaves[n + 1 - Pow2(h)..n + 1 - half], leaves[n + 1 - half..n + 1]);
      assert leaves[n + 1 - Pow2(h)..n + 1] == leaves[n + 1 - Pow2(h)..n + 1 - half] + leaves[n + 1 - half..n + 1];
    }
  }

  // ---------------------------------------------------------------- the store agrees with the leaves

  /** Every position of the MMR over `leaves` reads as the reference digest. */
  ghost predicate Shows(store: map<nat, Digest>, start: nat, pending: seq<Digest>, leaves: seq<Digest>) {
    forall n: nat, h: nat {:trigger Node(leaves, h, n)} :: n < |leaves| && h <= Parents(n) ==>
      Look(store, start, pending, Size(n) + h) == Some(Node(leaves, h, n))
  }

  /** The digest that belongs at a position of the MMR over `leaves`. */
  function DigestAt(leaves: seq<Digest>, pos: nat): Digest
    requires pos < Size(|leaves|)
  {
    Node(leaves, Owner(|leaves|, pos).1, Owner(|leaves|, pos).0)
  }

  /** Exactly the positions below the size can be read, and each shows the digest that belongs there. */
  ghost predicate ShowsPositions(store: map<nat, Digest>, start: nat, pending: seq<Digest>, leaves: seq<Digest>) {
    forall pos: nat {:trigger Look(store, start, pending, pos)} ::
      Look(store, start, pending, pos) == if pos < Size(|leaves|) then Some(DigestAt(leaves, pos)) else None
  }

  /** Showing every node is showing every position, and nothing beyond. */
  lemma ShownByPosition(store: map<nat, Digest>, start: nat, pending: seq<Digest>, leaves: seq<Digest>)
    requires start + |pending| == Size(|leaves|)
    ensures Shows(store, start, pending, leaves) <==> ShowsPositions(store, start, pending, leaves)
  {
    if Shows(store, start, pending, leaves) {
      forall pos: nat
        ensures Look(store, start, pending, pos) == if pos < Size(|leaves|) then Some(DigestAt(leaves, pos)) else None
      {
        if pos < Size(|leaves|) {
          var (n, h) := Owner(|leaves|, pos);
          assert Look(store, start, pending, Size(n) + h) == Some(Node(leaves, h, n));
        }
      }
    }
    if ShowsPositions(store, start, pending, leaves) {
      forall n: nat, h: nat | n < |leaves| && h <= Parents(n)
        ensures Look(store, start, pending, Size(n) + h) == Some(Node(leaves, h, n))
      {
        SizeMonotone(n, |leaves|);
        var (n', h') := Owner(|leaves|, Size(n) + h);
        OwnerIsUnique(n, h, n', h');
      }
    }
  }

  /** The committed digests are those of `leaves`. */
  ghost predicate Holds(store: map<nat, Digest>, leaves: seq<Digest>) {
    Shows(store, Size(|leaves|), [], leaves)
  }

  /** The left child the library reads for leaf `n` at height `h` is the reference left child. */
  lemma LeftChildRead(store: map<nat, Digest>, start: nat, pending: seq<Digest>, leaves: seq<Digest>, n: nat, h: nat)
    requires n < |leaves| && h < Parents(n) && Shows(store, start, pending, leaves[..n])
    ensures Pow2(h) <= n && Pow2(h + 1) <= Size(n) + h + 1
    ensures Look(store, start, pending, Size(n) + h + 1 - Pow2(h + 1)) == Some(Node(leaves, h, n - Pow2(h)))
  {
    LeftSibling(n, h);
    var m := n - Pow2(h);
    NodeOfPrefix(leaves[..n], leaves, h, m);
    assert Look(store, start, pending, Size(m) + h) == Some(Node(leaves[..n], h, m));
    assert Size(n) + h + 1 - Pow2(h + 1) == Size(m) + h;
  }

  /** The nodes from height `h` up that the leaf `n` completes. */
  function Ancestors(leaves: seq<Digest>, n: nat, h: nat): (r: seq<Digest>)
    requires n < |leaves| && h <= Parents(n)
    ensures |r| == Parents(n) - h + 1 && forall k :: 0 <= k < |r| ==> r[k] == Node(leaves, h + k, n)
  {
    seq(Parents(n) - h + 1, k requires 0 <= k => Node(leaves, h + k, n))
  }

  /** Climbing from a node of the new leaf writes the reference digests of its ancestors. */
  lemma {:induction false} ClimbIsReference(store: map<nat, Digest>, start: nat, pending: seq<Digest>,
                                            leaves: seq<Digest>, n: nat, h: nat)
    requires n < |leaves| && h <= Parents(n) && Shows(store, start, pending, leaves[..n])
    ensures Climb(store, start, pending, n, h, Node(leaves, h, n)) == Some(Ancestors(leaves, n, h))
    decreases Parents(n) - h
  {
    if h == Parents(n) {
      assert Ancestors(leaves, n, h) == [Node(leaves, h, n)];
    } else {
      LeftChildRead(store, start, pending, leaves, n, h);
      ClimbIsReference(store, start, pending, leaves, n, h + 1);
      assert Ancestors(leaves, n, h) == [Node(leaves, h, n)] + Ancestors(leaves, n, h + 1);
    }
  }

  /** Pushing a leaf extends a handle that shows `leaves` to one that shows one leaf more. */
  lemma PushShows(store: map<nat, Digest>, m: Handle, leaves: seq<Digest>, leaf: Digest)
    requires m.leaves == |leaves| && m.start + |m.pending| == Size(|leaves|)
    requires Shows(store, m.start, m.pending, leaves)
    ensures var r := Push(store, m, leaf);
            && r.Some? && r.value.leaves == |leaves| + 1 && r.value.start == m.start
            && r.value.start + |r.value.pending| == Size(|leaves| + 1)
            && Shows(store, m.start, r.value.pending, leaves + [leaf])
  {
    var longer := leaves + [leaf];
    assert longer[..|leaves|] == leaves;
    ClimbIsReference(store, m.start, m.pending, longer, |leaves|, 0);
    SizeStep(|leaves|);
    var r := Push(store, m, leaf).value;
    forall n: nat, h: nat | n < |longer| && h <= Parents(n)
      ensures Look(store, m.start, r.pending, Size(n) + h) == Some(Node(longer, h, n))
    {
      if n < |leaves| {
        NodeOfPrefix(leaves, longer, h, n);
        assert Look(store, m.start, m.pending, Size(n) + h) == Some(Node(leaves, h, n));
      } else {
        assert r.pending[Size(n) + h - m.start] == Node(longer, h, n);
      }
    }
  }

  /** The handle shows exactly the MMR over `leaves`. */
  ghost predicate Shown(store: map<nat, Digest>, m: Handle, leaves: seq<Digest>) {
    m.leaves == |leaves| && m.start + |m.pending| == Size(|leaves|) && Shows(store, m.start, m.pending, leaves)
  }

  /** Pushes a batch of leaves; it succeeds and shows the longer chain whenever the handle showed `kept`. */
  method PushAll(store: map<nat, Digest>, m: Handle, batch: seq<Digest>, ghost kept: seq<Digest>)
    returns (r: Option<Handle>)
    ensures r.Some? ==> r.value.start == m.start
    ensures Shown(store, m, kept) ==> r.Some? && Shown(store, r.value, kept + batch)
  {
    var mmr := m;
    assert kept + batch[..0] == kept;
    for i := 0 to |batch|
      invariant mmr.start == m.start
      invariant Shown(store, m, kept) ==> Shown(store, mmr, kept + batch[..i])
    {
      if Shown(store, m, kept) {
        PushShows(store, mmr, kept + batch[..i], batch[i]);
        assert kept + batch[..i] + [batch[i]] == kept + batch[..i + 1];
      }
      var pushed := Push(store, mmr, batch[i]);
      if pushed.None? { return None; }
      mmr := pushed.value;
    }
    assert batch[..|batch|] == batch;
    r := Some(mmr);
  }

  /** Writing goes to the named positions and nowhere else. */
  lemma {:induction false} WrittenAt(store: map<nat, Digest>, pos: nat, elems: seq<Digest>, p: nat)
    ensures pos <= p < pos + |elems| ==>
              p in Written(store, pos, elems) && Written(store, pos, elems)[p] == elems[p - pos]
    ensures !(pos <= p < pos + |elems|) ==>
              (p in Written(store, pos, elems) <==> p in store)
              && (p in store ==> Written(store, pos, elems)[p] == store[p])
    decreases |elems|
  {
    if elems != [] { WrittenAt(store[pos := elems[0]], pos + 1, elems[1..], p); }
  }

  lemma {:induction false} WrittenSnoc(store: map<nat, Digest>, pos: nat, elems: seq<Digest>, e: Digest)
    ensures Written(store, pos, elems + [e]) == Written(store, pos, elems)[pos + |elems| := e]
    decreases |elems|
  {
    if elems == [] {
      assert (elems + [e])[1..] == [];
    } else {
      assert (elems + [e])[1..] == elems[1..] + [e];
      WrittenSnoc(store[pos := elems[0]], pos + 1, elems[1..], e);
    }
  }

  /** Committing the pending digests makes the store hold what the handle showed. */
  lemma {:induction false} CommitHolds(store: map<nat, Digest>, m: Handle, leaves: seq<Digest>)
    requires m.start + |m.pending| == Size(|leaves|) && Shows(store, m.start, m.pending, leaves)
    ensures Holds(Written(store, m.start, m.pending), leaves)
  {
    var store' := Written(store, m.start, m.pending);
    forall n: nat, h: nat | n < |leaves| && h <= Parents(n)
      ensures Look(store', Size(|leaves|), [], Size(n) + h) == Some(Node(leaves, h, n))
    {
      assert Look(store, m.start, m.pending, Size(n) + h) == Some(Node(leaves, h, n));
      WrittenAt(store, m.start, m.pending, Size(n) + h);
      SizeMonotone(n, |leaves|);
    }
  }

  /** An MMR opened on a prefix of a stored chain shows that prefix. */
  lemma PrefixShown(store: map<nat, Digest>, leaves: seq<Digest>, n: nat)
    requires Holds(store, leaves) && n <= |leaves|
    ensures Shows(store, Size(n), [], leaves[..n]) && ShowsPositions(store, Size(n), [], leaves[..n])
  {
    PrefixHolds(store, leaves, n);
    ShownByPosition(store, Size(n), [], leaves[..n]);
  }

  /**
   What a store that held `leaves` holds after the digests of an MMR opened on `n` leaves were written:
   the pushed leaves on top of the kept ones if all were written, and in any case the kept ones.
   */
  lemma {:induction false} WrittenHolds(store: map<nat, Digest>, leaves: seq<Digest>, n: nat, batch: seq<Digest>,
                                        m: Handle, count: nat)
    requires Holds(store, leaves) && m.start == Size(n) && count <= |m.pending|
    requires n <= |leaves| ==> Shown(store, m, leaves[..n] + batch)
    ensures n <= |leaves| && count == |m.pending| ==> Holds(Written(store, m.start, m.pending), leaves[..n] + batch)
    ensures n <= |leaves| ==> Holds(Written(store, m.start, m.pending[..count]), leaves[..n])
    ensures n > |leaves| ==> Holds(Written(store, m.start, m.pending[..count]), leaves)
  {
    if n <= |leaves| {
      CommitHolds(store, m, leaves[..n] + batch);
      PrefixHolds(store, leaves, n);
      WrittenAboveHolds(store, leaves[..n], n, m.pending[..count]);
    } else {
      WrittenAboveHolds(store, leaves, n, m.pending[..count]);
    }
  }

  /** Writing only above the positions of a chain leaves it in the store. */
  lemma {:induction false} WrittenAboveHolds(store: map<nat, Digest>, leaves: seq<Digest>, n: nat, elems: seq<Digest>)
    requires Holds(store, leaves) && |leaves| <= n
    ensures Holds(Written(store, Size(n), elems), leaves)
  {
    forall k: nat, h: nat | k < |leaves| && h <= Parents(k)
      ensures Look(Written(store, Size(n), elems), Size(|leaves|), [], Size(k) + h) == Some(Node(leaves, h, k))
    {
      assert Look(store, Size(|leaves|), [], Size(k) + h) == Some(Node(leaves, h, k));
      SizeMonotone(k, n);
      WrittenAt(store, Size(n), elems, Size(k) + h);
    }
  }

  /** A store that holds a chain of leaves holds, and opens on, every prefix of it. */
  lemma PrefixHolds(store: map<nat, Digest>, leaves: seq<Digest>, n: nat)
    requires Holds(store, leaves) && n <= |leaves|
    ensures Holds(store, leaves[..n])
  {
    var prefix := leaves[..n];
    forall k: nat, h: nat | k < n && h <= Parents(k)
      ensures Look(store, Size(n), [], Size(k) + h) == Some(Node(prefix, h, k))
    {
      NodeOfPrefix(prefix, leaves, h, k);
      assert Look(store, Size(|leaves|), [], Size(k) + h) == Some(Node(leaves, h, k));
      SizeMonotone(k, n);
    }
  }
}
