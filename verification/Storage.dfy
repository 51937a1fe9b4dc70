/**
 The header storage: a database with a base slot, a tip slot and MMR digests, a cache of the base slot
 in front of it, and a rollback that only moves the tip and leaves digests behind.
 */
module Storage {
  import opened Options
  import opened Mmr

  // ---------------------------------------------------------------- what the database holds

  /**
   The two slots, and the digests of consecutive slots from the base on that the database holds. The
   tip is independent of them: digests above it were given up by a rollback.
   */
  datatype Log = Log(base: Option<nat>, tip: Option<nat>, stored: seq<Digest>)

  /** The database access of an operation that fails, if any. */
  datatype Fault =
    | NoFault | ReadBase | WriteBase | WriteFirst | WriteFirstTip | ReadDigests | WriteDigest(index: nat) | WriteTip

  /** An operation the chain endpoint performs on its storage. */
  datatype Op = Commit(first: nat, headers: seq<Digest>, fault: Fault) | Rollback(slot: Option<nat>, fault: Fault)

  /** The headers from slot `first` on continue or replace stored ones. */
  predicate Continues(log: Log, first: nat) {
    log.base.Some? && log.base.value < first <= log.base.value + |log.stored|
  }

  /**
   A commit that went through replaces everything from `first` on. Beyond the stored slots it only
   moves the tip as far as is known.
   */
  function Completed(log: Log, first: nat, headers: seq<Digest>): Log
    requires headers != []
  {
    var tip := Some(first + |headers| - 1);
    if log.base.None? then Log(Some(first), tip, headers)
    else if Continues(log, first) then Log(log.base, tip, log.stored[..first - log.base.value] + headers)
    else log.(tip := tip)
  }

  /** What a commit that failed leaves behind. */
  function Interrupted(log: Log, first: nat, headers: seq<Digest>, fault: Fault): Log
    requires headers != []
  {
    if log.base.None? then
      match fault
      case WriteFirst => Log(Some(first), log.tip, [])
      case WriteFirstTip => Log(Some(first), log.tip, [headers[0]])
      case ReadDigests => Log(Some(first), Some(first), [headers[0]])
      case WriteDigest(_) => Log(Some(first), Some(first), [headers[0]])
      case WriteTip => Log(Some(first), Some(first), headers)
      case _ => log
    else if Continues(log, first) then
      match fault
      case WriteDigest(_) => log.(stored := log.stored[..first - log.base.value])
      case WriteTip => log.(stored := log.stored[..first - log.base.value] + headers)
      case _ => log
    else log
  }

  /** A rollback to a slot moves the tip, whatever the slot; one to nothing forgets the base as well. */
  function RolledBack(log: Log, slot: Option<nat>, fault: Fault): Log {
    if slot.Some? then if fault.WriteTip? then log else log.(tip := slot)
    else if fault.WriteBase? then log
    else if fault.WriteTip? then Log(None, log.tip, [])
    else Log(None, None, [])
  }

  /**
   Whatever fails, a commit to an initialized storage keeps base, tip and the headers below its first
   slot, and one to an empty storage leaves a beginning of its headers from its first slot on.
   */
  lemma FailuresLoseNothingBelow(log: Log, first: nat, headers: seq<Digest>, fault: Fault)
    requires headers != []
    ensures var r := Interrupted(log, first, headers, fault);
            if log.base.Some? then
              && r.base == log.base && r.tip == log.tip
              && (forall i :: 0 <= i < |log.stored| && log.base.value + i < first ==>
                    i < |r.stored| && r.stored[i] == log.stored[i])
            else r == log || (&& r.base == Some(first) && r.stored <= headers
                              && (r.tip == log.tip || (r.tip == Some(first) && headers[0] in r.stored)))
  {}

  function Step(log: Log, op: Op, ok: bool): Log {
    match op
    case Commit(first, headers, fault) =>
      if headers == [] then log
      else if ok then Completed(log, first, headers)
      else Interrupted(log, first, headers, fault)
    case Rollback(slot, fault) => RolledBack(log, slot, fault)
  }

  /** Which outcomes an operation may have. */
  predicate Possible(log: Log, op: Op, ok: bool) {
    match op
    case Commit(first, headers, fault) =>
      && (headers == [] ==> ok)
      && (headers != [] && log.base.Some? && first <= log.base.value ==> !ok)
      && (fault.NoFault? && (log.base.None? || Continues(log, first)) ==> ok)
      && (headers != [] && fault.WriteTip? ==> !ok)
      && (headers != [] && log.base.None? && (fault.WriteBase? || fault.WriteFirst? || fault.WriteFirstTip?) ==> !ok)
    case Rollback(slot, fault) => ok <==> !fault.WriteTip? && (slot.Some? || !fault.WriteBase?)
  }

  function Replay(log: Log, ops: seq<Op>, oks: seq<bool>): Log
    requires |oks| == |ops|
    decreases |ops|
  {
    if ops == [] then log else Replay(Step(log, ops[0], oks[0]), ops[1..], oks[1..])
  }

  predicate AllPossible(log: Log, ops: seq<Op>, oks: seq<bool>)
    requires |oks| == |ops|
    decreases |ops|
  {
    ops != [] ==> Possible(log, ops[0], oks[0]) && AllPossible(Step(log, ops[0], oks[0]), ops[1..], oks[1..])
  }

  // ---------------------------------------------------------------- what the storage is meant to hold

  /** The headers of the current chain: those of consecutive slots from `base` on, up to the tip. */
  datatype Current = Current(base: Option<nat>, chain: seq<Digest>)

  /** The operation is flawless and continues the current chain, or goes back to one of its slots. */
  predicate Fits(cur: Current, op: Op) {
    && op.fault.NoFault?
    && match op
       case Commit(first, _, _) => cur.base.None? || cur.base.value < first <= cur.base.value + |cur.chain|
       case Rollback(slot, _) =>
         slot.None? || (cur.base.Some? && cur.base.value <= slot.value < cur.base.value + |cur.chain|)
  }

  /** A commit replaces everything from its first slot on, a rollback cuts the chain. */
  function Advance(cur: Current, op: Op): Current
    requires Fits(cur, op)
  {
    match op
    case Commit(first, headers, _) =>
      if headers == [] then cur
      else if cur.base.None? then Current(Some(first), headers)
      else Current(cur.base, cur.chain[..first - cur.base.value] + headers)
    case Rollback(slot, _) =>
      if slot.None? then Current(None, []) else Current(cur.base, cur.chain[..slot.value - cur.base.value + 1])
  }

  predicate AllFit(cur: Current, ops: seq<Op>)
    decreases |ops|
  {
    ops != [] ==> Fits(cur, ops[0]) && AllFit(Advance(cur, ops[0]), ops[1..])
  }

  function AdvanceAll(cur: Current, ops: seq<Op>): Current
    requires AllFit(cur, ops)
    decreases |ops|
  {
    if ops == [] then cur else AdvanceAll(Advance(cur, ops[0]), ops[1..])
  }

  /** The stored headers up to the tip are those of the current chain. */
  predicate Agrees(log: Log, cur: Current) {
    && log.base == cur.base
    && if log.base.None? then cur.chain == [] && log.tip.None?
       else
         && log.tip.Some? && log.base.value <= log.tip.value < log.base.value + |log.stored|
         && cur.chain == log.stored[..log.tip.value - log.base.value + 1]
  }

  /**
   As long as the operations fit the current chain, what an earlier, longer chain left behind never
   shows: all of them succeed, and the visible headers follow the simple description.
   */
  lemma {:induction false} VisibleIsCurrent(log: Log, cur: Current, ops: seq<Op>, oks: seq<bool>)
    requires Agrees(log, cur) && AllFit(cur, ops) && |oks| == |ops| && AllPossible(log, ops, oks)
    ensures Agrees(Replay(log, ops, oks), AdvanceAll(cur, ops)) && forall i :: 0 <= i < |oks| ==> oks[i]
    decreases |ops|
  {
    if ops != [] {
      VisibleIsCurrent(Step(log, ops[0], oks[0]), Advance(cur, ops[0]), ops[1..], oks[1..]);
      assert forall i :: 0 < i < |oks| ==> oks[i] == oks[1..][i - 1];
    }
  }

  /**
   A failure between writing the base and the first digest leaves a storage that counts as initialized
   but refuses the same headers for ever: no retry succeeds or changes anything.
   */
  lemma {:induction false} InterruptedInitializationIsStuck(log: Log, first: nat, headers: seq<Digest>,
                                                            retries: seq<Op>, oks: seq<bool>)
    requires log.base == Some(first) && log.stored == [] && headers != [] && |oks| == |retries|
    requires forall op :: op in retries ==> op.Commit? && op.first == first && op.headers == headers
    requires AllPossible(log, retries, oks)
    ensures Replay(log, retries, oks) == log && forall i :: 0 <= i < |oks| ==> !oks[i]
    decreases |retries|
  {
    if retries != [] {
      assert retries[0] in retries;
      InterruptedInitializationIsStuck(log, first, headers, retries[1..], oks[1..]);
      assert forall i :: 0 < i < |oks| ==> oks[i] == oks[1..][i - 1];
    }
  }

  datatype Read = Slot(slot: Option<nat>) | ReadError

  datatype Root = NoHeaders | Underflow | Opened(mmr: Handle)

  class Database {
    var base: Option<nat>
    var tip: Option<nat>
    var digests: map<nat, Digest>
    var cachedBase: Option<nat>
    /** The digests of the slots from the base on that the database holds. */
    ghost var stored: seq<Digest>

    /** The cache, when set, equals the database. */
    ghost predicate Coherent()
      reads this
    {
      cachedBase.Some? ==> base == cachedBase
    }

    ghost predicate Valid()
      reads this
    {
      Coherent() && Holds(digests, stored) && (base.None? ==> stored == [])
    }

    ghost function Contents(): Log
      reads this
    {
      Log(base, tip, stored)
    }

    constructor ()
      ensures Valid() && Contents() == Log(None, None, [])
    {
      base, tip, cachedBase := None, None, None;
      digests := map[];
      stored := [];
    }

    // ---------------------------------------------------------------- single keys
    // `fault` says whether the database access of the call fails.

    method GetBase(fault: bool) returns (r: Read)
      requires Coherent()
      modifies this`cachedBase
      ensures Coherent()
      ensures r.Slot? ==> r.slot == base
      ensures r.ReadError? <==> fault && old(cachedBase).None?
    {
      if cachedBase.Some? {
        r := Slot(cachedBase);
      } else if fault {
        r := ReadError;
      } else {
        if base.Some? { cachedBase := base; }
        r := Slot(base);
      }
    }

    method PutBase(slot: nat, fault: bool) returns (ok: bool)
      requires Coherent()
      modifies this`base, this`cachedBase
      ensures Coherent() && ok == !fault
      ensures base == if ok then Some(slot) else old(base)
    {
      if fault { return false; }
      base := Some(slot);
      cachedBase := Some(slot);
      ok := true;
    }

    method DeleteBase(fault: bool) returns (ok: bool)
      requires Coherent()
      modifies this`base, this`cachedBase
      ensures Coherent() && ok == !fault
      ensures base == if ok then None else old(base)
    {
      if fault { return false; }
      base := None;
      cachedBase := None;
      ok := true;
    }

    /** Writes digests to consecutive positions until the database fails, if it does. */
    method Append(pos: nat, elems: seq<Digest>, failAt: Option<nat>) returns (ok: bool)
      modifies this`digests
      ensures ok <==> failAt.None? || failAt.value >= |elems|
      ensures digests == Written(old(digests), pos, if ok then elems else elems[..failAt.value])
    {
      var offset := 0;
      while offset < |elems|
        invariant 0 <= offset <= |elems| && (failAt.Some? ==> offset <= failAt.value)
        invariant digests == Written(old(digests), pos, elems[..offset])
      {
        if failAt == Some(offset) { return false; }
        WrittenSnoc(old(digests), pos, elems[..offset], elems[offset]);
        assert elems[..offset + 1] == elems[..offset] + [elems[offset]];
        digests := digests[pos + offset := elems[offset]];
        offset := offset + 1;
      }
      assert elems[..offset] == elems;
      ok := true;
    }

    // ---------------------------------------------------------------- the MMR

    /**
     Opens the MMR at slot `curr`. For a stored slot the positions it can read are exactly those of the
     headers up to that slot, and each shows its digest, whatever else the database holds.
     */
    method ChainRootMmr(curr: nat) returns (r: Root)
      requires Coherent()
      modifies this`cachedBase
      ensures Coherent()
      ensures r == if base.None? then NoHeaders
                   else if curr < base.value then Underflow
                   else Opened(Open(curr - base.value + 1))
      ensures Holds(digests, stored) && r.Opened? && curr < base.value + |stored| ==>
                && Shows(digests, r.mmr.start, r.mmr.pending, stored[..curr - base.value + 1])
                && ShowsPositions(digests, r.mmr.start, r.mmr.pending, stored[..curr - base.value + 1])
    {
      var read := GetBase(false);
      if read.slot.None? { return NoHeaders; }
      if curr < read.slot.value { return Underflow; }
      r := Opened(Open(curr - read.slot.value + 1));
      if Holds(digests, stored) && curr < base.value + |stored| {
        PrefixShown(digests, stored, curr - base.value + 1);
      }
    }

    /** Writes the base and then the digest of the first header; the tip is left to the caller. */
    method InitializeWith(slot: nat, digest: Digest, fault: Fault) returns (ok: bool)
      requires Valid() && base.None?
      modifies this
      ensures Valid() && tip == old(tip) && (ok <==> !fault.WriteBase? && !fault.WriteFirst?)
      ensures base == if fault.WriteBase? then None else Some(slot)
      ensures stored == if ok then [digest] else []
    {
      ok := PutBase(slot, fault.WriteBase?);
      if !ok { return; }
      var mmr := Open(0);
      PushShows(digests, mmr, [], digest);
      var pushed := Push(digests, mmr, digest);
      CommitHolds(digests, pushed.value, [digest]);
      ok := Append(mmr.start, pushed.value.pending, if fault.WriteFirst? then Some(0) else None);
      if ok { stored := [digest]; }
    }

    /** Pushes headers on the MMR opened at slot `last`, which succeeds for a stored slot if the reads do. */
    method PushFrom(last: nat, rest: seq<Digest>) returns (pushed: Option<Handle>)
      requires Coherent() && base.Some? && Holds(digests, stored)
      modifies this`cachedBase
      ensures Coherent()
      ensures last < base.value ==> pushed.None?
      ensures pushed.Some? ==> pushed.value.start == Size(last - base.value + 1)
      ensures base.value <= last < base.value + |stored| ==>
                pushed.Some? && Shown(digests, pushed.value, stored[..last - base.value + 1] + rest)
    {
      var root := ChainRootMmr(last);
      if !root.Opened? { return None; }
      ghost var kept := if last < base.value + |stored| then stored[..last - base.value + 1] else [];
      pushed := PushAll(digests, root.mmr, rest, kept);
    }

    /**
     Pushes headers on the MMR opened at slot `last`, commits them and moves the tip. What is known to
     be stored afterwards: the headers up to `last` and the new ones, or those up to `last` if the
     commit was interrupted; beyond the stored slots nothing is lost.
     */
    method Extend(last: nat, rest: seq<Digest>, fault: Fault) returns (ok: bool)
      requires Coherent() && base.Some? && Holds(digests, stored)
      modifies this`digests, this`tip, this`cachedBase, this`stored
      ensures Coherent() && Holds(digests, stored)
      ensures tip == if ok then Some(last + |rest|) else old(tip)
      ensures last < base.value ==> !ok
      ensures base.value <= last < base.value + |old(stored)| ==>
                var kept := old(stored)[..last - base.value + 1];
                && stored == (if ok || fault.WriteTip? then kept + rest
                              else if fault.WriteDigest? then kept
                              else old(stored))
                && (ok || fault.ReadDigests? || fault.WriteDigest? || fault.WriteTip?)
      ensures !(base.value <= last < base.value + |old(stored)|) ==> stored == old(stored)
      ensures fault.WriteTip? ==> !ok
    {
      var pushed := PushFrom(last, rest);
      if pushed.None? || fault.ReadDigests? { return false; }
      var pending := pushed.value.pending;
      ghost var before, n := digests, last - base.value + 1;
      ok := Append(pushed.value.start, pending, if fault.WriteDigest? then Some(fault.index) else None);
      ghost var count := if ok then |pending| else fault.index;
      assert ok ==> pending[..count] == pending;
      WrittenHolds(before, stored, n, rest, pushed.value, count);
      if n <= |stored| { stored := if ok then stored[..n] + rest else stored[..n]; }
      if !ok || fault.WriteTip? { return false; }
      tip := Some(last + |rest|);
    }

    /**
     Commits the digests of consecutive slots from `first` on. On an empty storage the first of them
     initializes it; otherwise the MMR is opened right below `first`, wherever the tip is.
     */
    method CommitHeaders(first: nat, headers: seq<Digest>, fault: Fault) returns (ok: bool)
      requires Valid()
      modifies this
      ensures Valid() && Possible(old(Contents()), Commit(first, headers, fault), ok)
      ensures Contents() == Step(old(Contents()), Commit(first, headers, fault), ok)
    {
      if headers == [] { return true; }
      var read := GetBase(fault.ReadBase?);
      if read.ReadError? { return false; }
      if read.slot.Some? {
        if first == 0 { return false; }
        ok := Extend(first - 1, headers, fault);
      } else {
        ok := InitializeWith(first, headers[0], fault);
        if !ok { return; }
        if fault.WriteFirstTip? { return false; }
        tip := Some(first);
        assert headers == [headers[0]] + headers[1..];
        ok := Extend(first, headers[1..], fault);
      }
    }

    /** Going back to a slot only moves the tip: the digests above it stay in the database. */
    method RollbackTo(slot: Option<nat>, fault: Fault) returns (ok: bool)
      requires Valid()
      modifies this
      ensures Valid() && digests == old(digests) && Possible(old(Contents()), Rollback(slot, fault), ok)
      ensures Contents() == RolledBack(old(Contents()), slot, fault)
      ensures ok && slot.None? ==> base.None? && tip.None? && cachedBase.None?
      ensures ok && slot.Some? ==> base == old(base) && tip == slot
    {
      if slot.None? {
        ok := DeleteBase(fault.WriteBase?);
        if !ok { return; }
        stored := [];
      }
      if fault.WriteTip? { return false; }
      tip := slot;
      ok := true;
    }

    /**
     Any sequence of commits and rollbacks, whatever slots they name and however the database fails,
     leaves the log the description gives for their outcomes, and the database holds its headers.
     */
    method Perform(ops: seq<Op>) returns (oks: seq<bool>)
      requires Valid()
      modifies this
      ensures |oks| == |ops| && AllPossible(old(Contents()), ops, oks)
      ensures Valid() && Contents() == Replay(old(Contents()), ops, oks)
      decreases |ops|
    {
      if ops == [] { return []; }
      var ok;
      match ops[0] {
        case Commit(first, headers, fault) => ok := CommitHeaders(first, headers, fault);
        case Rollback(slot, fault) => ok := RollbackTo(slot, fault);
      }
      var rest := Perform(ops[1..]);
      oks := [ok] + rest;
      assert oks[1..] == rest;
    }

    // ---------------------------------------------------------------- headers that were given up

    /** A rollback to a slot above the tip brings headers back into view that an earlier one gave up. */
    method RollbackAboveTip(slot: nat, above: nat) returns (r: Root)
      requires Valid() && base.Some? && base.value <= slot < above < base.value + |stored|
      modifies this
      ensures Valid() && base == old(base) && tip == Some(above) && r.Opened?
      ensures ShowsPositions(digests, r.mmr.start, r.mmr.pending, old(stored)[..above - base.value + 1])
    {
      var _ := RollbackTo(Some(slot), NoFault);
      var _ := RollbackTo(Some(above), NoFault);
      r := ChainRootMmr(above);
    }

    /**
     A commit that leaves a gap above the tip makes the headers that were given up in the gap part of
     the chain again.
     */
    method CommitAboveTip(slot: nat, first: nat, headers: seq<Digest>)
      requires Valid() && base.Some? && base.value <= slot && slot + 1 < first <= base.value + |stored|
      requires headers != []
      modifies this
      ensures Valid() && base == old(base) && tip == Some(first + |headers| - 1)
      ensures Holds(digests, old(stored)[..first - base.value] + headers)
    {
      var _ := RollbackTo(Some(slot), NoFault);
      assert Contents() == Log(base, Some(slot), old(stored)) && Continues(Contents(), first);
      var _ := CommitHeaders(first, headers, NoFault);
      assert stored == old(stored)[..first - base.value] + headers;
    }
  }
}
