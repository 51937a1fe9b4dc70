/** The bounded backlog of packets a relayer has seen sent but not yet cleared, and its gauges. */
module Backlog {
  import opened Options

  const BACKLOG_RESET_THRESHOLD: nat := 900
  const EMPTY_BACKLOG_SYMBOL: nat := 0

  /** Timestamps of pending packets by sequence number, for one path. */
  type Pending = map<nat, nat>

  /** The published oldest sequence number, its timestamp and the backlog size. */
  datatype Gauges = Gauges(oldest: nat, timestamp: nat, size: nat)

  ghost predicate IsMin(m: Pending, k: nat) {
    k in m && forall j :: j in m ==> k <= j
  }

  lemma {:induction false} LeastOf(keys: set<nat>) returns (k: nat)
    requires keys != {}
    ensures k in keys && forall j :: j in keys ==> k <= j
  {
    k :| k in keys;
    var rest := keys - {k};
    assert keys == rest + {k};
    if rest != {} {
      var least := LeastOf(rest);
      if least < k { k := least; }
    }
  }

  lemma MinExists(keys: set<nat>)
    requires keys != {}
    ensures exists k :: k in keys && forall j :: j in keys ==> k <= j
  {
    var k := LeastOf(keys);
  }

  ghost function Min(m: Pending): (k: nat)
    requires m.Keys != {}
    ensures IsMin(m, k)
  {
    MinExists(m.Keys);
    var k :| k in m.Keys && forall j :: j in m.Keys ==> k <= j;
    k
  }

  /** The gauges that describe a backlog. */
  ghost predicate Describes(g: Gauges, m: Pending) {
    if m.Keys == {} then g == Gauges(EMPTY_BACKLOG_SYMBOL, EMPTY_BACKLOG_SYMBOL, EMPTY_BACKLOG_SYMBOL)
    else IsMin(m, g.oldest) && g.timestamp == m[g.oldest] && g.size == |m|
  }

  // ---------------------------------------------------------------- one path over time

  datatype Op = Insert(seq_nr: nat, timestamp: nat) | Remove(seq_nr: nat)

  /** Above the threshold the oldest packet is dropped before the new one is added. */
  ghost function Inserted(m: Pending, seq_nr: nat, timestamp: nat): Pending {
    (if |m| > BACKLOG_RESET_THRESHOLD then m - {Min(m)} else m)[seq_nr := timestamp]
  }

  ghost function Apply(m: Pending, op: Op): Pending {
    match op
    case Insert(s, t) => Inserted(m, s, t)
    case Remove(s) => m - {s}
  }

  ghost function ApplyAll(m: Pending, ops: seq<Op>): Pending {
    if ops == [] then m else Apply(ApplyAll(m, ops[..|ops| - 1]), ops[|ops| - 1])
  }

  /** The packets sent and not cleared since, whatever the backlog dropped. */
  function Outstanding(ops: seq<Op>): set<nat> {
    if ops == [] then {}
    else
      var before := Outstanding(ops[..|ops| - 1]);
      match ops[|ops| - 1]
      case Insert(s, _) => before + {s}
      case Remove(s) => before - {s}
  }

  /** The timestamp under which a sequence number was last inserted. */
  function LastTimestamp(ops: seq<Op>, s: nat): Option<nat> {
    if ops == [] then None
    else if ops[|ops| - 1].Insert? && ops[|ops| - 1].seq_nr == s then Some(ops[|ops| - 1].timestamp)
    else LastTimestamp(ops[..|ops| - 1], s)
  }

  /** Some insertion found the backlog above the threshold. */
  ghost predicate Overflowed(ops: seq<Op>) {
    ops != [] && (Overflowed(ops[..|ops| - 1])
                  || (ops[|ops| - 1].Insert? && |ApplyAll(map[], ops[..|ops| - 1])| > BACKLOG_RESET_THRESHOLD))
  }

  /** An insertion adds its packet and drops at most the oldest one, and that only above the threshold. */
  lemma InsertedKeys(m: Pending, seq_nr: nat, timestamp: nat)
    requires |m| <= BACKLOG_RESET_THRESHOLD + 1
    ensures var r := Inserted(m, seq_nr, timestamp);
            && |r| <= BACKLOG_RESET_THRESHOLD + 1 && r.Keys <= m.Keys + {seq_nr}
            && (|m| <= BACKLOG_RESET_THRESHOLD ==> r.Keys == m.Keys + {seq_nr})
            && seq_nr in r && r[seq_nr] == timestamp
            && (forall s :: s in r && s != seq_nr ==> s in m && r[s] == m[s])
            && (forall s :: s in m && s !in r ==> IsMin(m, s) && |m| > BACKLOG_RESET_THRESHOLD)
            && (|m| > BACKLOG_RESET_THRESHOLD && !IsMin(m, seq_nr) ==> exists s :: IsMin(m, s) && s !in r)
  {
    var kept := if |m| > BACKLOG_RESET_THRESHOLD then m - {Min(m)} else m;
    assert |m| > BACKLOG_RESET_THRESHOLD ==> kept.Keys == m.Keys - {Min(m)};
    assert kept[seq_nr := timestamp].Keys == kept.Keys + {seq_nr};
    assert |m| > BACKLOG_RESET_THRESHOLD ==> IsMin(m, Min(m));
  }

  /**
   After any operations the backlog is bounded, holds only outstanding packets with the timestamps of
   their last insertion, and holds all of them unless it overflowed.
   */
  lemma {:induction false} BacklogIsBounded(ops: seq<Op>)
    ensures var m := ApplyAll(map[], ops);
            && |m| <= 901
            && m.Keys <= Outstanding(ops)
            && (forall s :: s in m ==> LastTimestamp(ops, s) == Some(m[s]))
            && (!Overflowed(ops) ==> m.Keys == Outstanding(ops))
  {
    if ops != [] {
      var init, op := ops[..|ops| - 1], ops[|ops| - 1];
      BacklogIsBounded(init);
      var m := ApplyAll(map[], init);
      if op.Insert? {
        InsertedKeys(m, op.seq_nr, op.timestamp);
      } else {
        assert (m - {op.seq_nr}).Keys == m.Keys - {op.seq_nr};
      }
    }
  }

  // ---------------------------------------------------------------- the telemetry state

  /** The backlog of a path, empty if it has none. */
  function At(backlogs: map<string, Pending>, path: string): Pending {
    if path in backlogs then backlogs[path] else map[]
  }

  class Telemetry {
    var backlogs: map<string, Pending>
    var gauges: map<string, Gauges>

    /** Every path with a backlog has gauges that describe it. */
    ghost predicate Published()
      reads this
    {
      forall p :: p in backlogs ==> p in gauges && Describes(gauges[p], backlogs[p])
    }

    constructor ()
      ensures Published() && backlogs == map[]
    {
      backlogs, gauges := map[], map[];
    }

    static method Oldest(m: Pending) returns (k: Option<nat>)
      ensures if m.Keys == {} then k == None else k.Some? && IsMin(m, k.value)
    {
      k := None;
      var rest := m.Keys;
      while rest != {}
        invariant rest <= m.Keys && (k.None? ==> rest == m.Keys) && (k.Some? ==> k.value in m)
        invariant k.Some? ==> forall j :: j in m && j !in rest ==> k.value <= j
        decreases rest
      {
        var x :| x in rest;
        rest := rest - {x};
        if k.None? || x < k.value { k := Some(x); }
      }
    }

    /** Publishes the oldest packet and the size of a backlog, or zeros if it is empty. */
    method Publish(path: string)
      requires path in backlogs
      modifies this`gauges
      ensures gauges.Keys == old(gauges).Keys + {path} && Describes(gauges[path], backlogs[path])
      ensures forall p :: p in old(gauges) && p != path ==> gauges[p] == old(gauges)[p]
    {
      var m: Pending := backlogs[path];
      var min := Oldest(m);
      if min.Some? {
        gauges := gauges[path := Gauges(min.value, m[min.value], |m|)];
      } else {
        gauges := gauges[path := Gauges(EMPTY_BACKLOG_SYMBOL, EMPTY_BACKLOG_SYMBOL, EMPTY_BACKLOG_SYMBOL)];
      }
    }

    method BacklogInsert(path: string, seq_nr: nat, timestamp: nat)
      requires Published()
      modifies this
      ensures Published()
      ensures backlogs == old(backlogs)[path := Inserted(At(old(backlogs), path), seq_nr, timestamp)]
    {
      if path in backlogs {
        var m: Pending := backlogs[path];
        if |m| > BACKLOG_RESET_THRESHOLD {
          var min := Oldest(m);
          assert |m.Keys| == |m|;
          if min.Some? {
            assert min.value == Min(m);
            m := m - {min.value};
          }
        }
        m := m[seq_nr := timestamp];
        backlogs := backlogs[path := m];
        Publish(path);
      } else {
        var m: Pending := map[seq_nr := timestamp];
        assert m.Keys == {seq_nr} && |m| == 1;
        backlogs := backlogs[path := m];
        gauges := gauges[path := Gauges(seq_nr, timestamp, 1)];
      }
    }

    /** Clearing an unknown path or packet changes nothing, not even the gauges. */
    method BacklogRemove(path: string, seq_nr: nat)
      requires Published()
      modifies this
      ensures Published()
      ensures backlogs == if path !in old(backlogs) then old(backlogs)
                          else old(backlogs)[path := old(backlogs)[path] - {seq_nr}]
      ensures path !in old(backlogs) || seq_nr !in old(backlogs)[path] ==> gauges == old(gauges)
    {
      if path in backlogs {
        var m: Pending := backlogs[path];
        if seq_nr in m {
          m := m - {seq_nr};
          backlogs := backlogs[path := m];
          Publish(path);
        } else {
          assert m - {seq_nr} == m;
        }
      }
    }

    /** Any operations on a path without a backlog leave it what the operations make of the empty one. */
    method Replay(path: string, ops: seq<Op>)
      requires Published() && path !in backlogs
      modifies this
      ensures Published() && At(backlogs, path) == ApplyAll(map[], ops)
      ensures backlogs - {path} == old(backlogs)
    {
      for i := 0 to |ops|
        invariant Published() && At(backlogs, path) == ApplyAll(map[], ops[..i])
        invariant backlogs - {path} == old(backlogs)
      {
        assert ops[..i + 1][..i] == ops[..i];
        Perform(path, ops[i]);
      }
      assert ops[..|ops|] == ops;
    }

    method Perform(path: string, op: Op)
      requires Published()
      modifies this
      ensures Published() && At(backlogs, path) == Apply(At(old(backlogs), path), op)
      ensures backlogs - {path} == old(backlogs) - {path}
    {
      match op
      case Insert(s, t) => BacklogInsert(path, s, t);
      case Remove(s) => BacklogRemove(path, s);
    }
  }
}
