/**
 Identifier reconciliation on chains that do not move: it settles in two calls, and it would panic
 exactly for identifiers that no constructor of the relayer's objects yields. Also what becomes of the
 ends the relayer sends a message to.
 */
module Reconciliation {
  import opened Options
  import opened Ends
  import opened Driver
  import opened Safety

  function Reconciled(w: World, ids: Ids): (Ids, Observation) {
    Reconcile(ids, w.a, Fresh, w.b, Fresh)
  }

  function Settle(w: World, ids: Ids): Ids { Reconciled(w, ids).0 }

  ghost predicate Known(c: Chain, id: Option<Id>) { id.Some? ==> id.value in c }

  /** Every counterparty that is set names the identifier held for the other side. */
  ghost predicate Consistent(w: World, ids: Ids) {
    && (ids.a.Some? && ids.a.value in w.a && w.a[ids.a.value] != [] && Now(w.a, ids.a.value).counterparty.Some? ==>
          ids.b == Now(w.a, ids.a.value).counterparty)
    && (ids.b.Some? && ids.b.value in w.b && w.b[ids.b.value] != [] && Now(w.b, ids.b.value).counterparty.Some? ==>
          ids.a == Now(w.b, ids.b.value).counterparty)
  }

  /**
   What one reconciliation does with any answers: side b becomes the counterparty chain a shows, if it
   shows one, even when chain b then fails to answer; side a becomes the one chain b shows, if it shows
   one and side b was not just changed; a failed query of chain a changes nothing.
   */
  lemma ReconcilesExactly(ids: Ids, chainA: Chain, readA: Read, chainB: Chain, readB: Read)
    ensures var (after, o) := Reconcile(ids, chainA, readA, chainB, readB);
            match QueryHeld(chainA, ids.a, readA)
            case Err(f) => after == ids && o == NoAnswer(f)
            case Ok(aEnd) =>
              && after.b == (if aEnd.counterparty.Some? then aEnd.counterparty else ids.b)
              && match QueryHeld(chainB, after.b, readB)
                 case Err(f) => after.a == ids.a && o == NoAnswer(f)
                 case Ok(bEnd) =>
                   if bEnd.counterparty.None? || bEnd.counterparty == ids.a then
                     after.a == ids.a && o == States(aEnd.state, bEnd.state)
                   else if after.b == ids.b then
                     after.a == bEnd.counterparty && o == States(aEnd.state, bEnd.state)
                   else after.a == ids.a && o == Mismatch
  {}

  /** One reconciliation either leaves consistent identifiers alone or makes a step towards them. */
  lemma SettleStep(w: World, ids: Ids)
    requires Sound(w) && Known(w.a, ids.a) && Known(w.b, ids.b)
    requires ids.a.None? || InitBorn(w.a, ids.a.value) || Consistent(w, ids)
    ensures var r := Reconciled(w, ids);
            && r.1.States? && Known(w.a, r.0.a) && Known(w.b, r.0.b)
            && (Consistent(w, ids) ==> r.0 == ids)
            && (r.0.a.None? || InitBorn(w.a, r.0.a.value) || Consistent(w, r.0))
            && (Consistent(w, r.0) || (r.0.a != ids.a && r.0.b == ids.b && InitBorn(w.a, r.0.a.value)
                                       && r.0.b.Some? && TryBorn(w.b, r.0.b.value, r.0.a.value)))
  {
    if ids.a.Some? { assert EndBound(w.a, w.b, ids.a.value); }
    if ids.b.Some? {
      assert EndBound(w.b, w.a, ids.b.value);
      var x := Now(w.b, ids.b.value).counterparty;
      if x.Some? { assert EndBound(w.a, w.b, x.value); }
    }
    if ids.a.Some? && Now(w.a, ids.a.value).counterparty.Some? {
      assert EndBound(w.b, w.a, Now(w.a, ids.a.value).counterparty.value);
    }
  }

  /**
   From side a unset or created by Init and side b arbitrary, reconciliation never panics and reaches
   after at most two calls identifiers that agree with the chains and that further calls keep.
   */
  lemma SettlesInTwoCalls(w: World, ids: Ids)
    requires Sound(w) && Known(w.a, ids.a) && Known(w.b, ids.b) && (ids.a.None? || InitBorn(w.a, ids.a.value))
    ensures Reconciled(w, ids).1.States? && Reconciled(w, Settle(w, ids)).1.States?
    ensures var settled := Settle(w, Settle(w, ids)); Consistent(w, settled) && Settle(w, settled) == settled
  {
    SettleStep(w, ids);
    var once := Settle(w, ids);
    SettleStep(w, once);
    if !Consistent(w, once) {
      // Side a was taken over from an end that lost the race; the second call takes over the winner.
      assert EndBound(w.a, w.b, once.a.value);
    }
    SettleStep(w, Settle(w, once));
  }

  /** `x` was created by Try for an end that has since been bound to another end. */
  ghost predicate Orphan(w: World, x: Id, y: Id) {
    && TryBorn(w.a, x, y) && y in w.b && w.b[y] != []
    && Now(w.b, y).counterparty.Some? && Now(w.b, y).counterparty != Some(x)
  }

  /**
   For arbitrary identifiers: a mismatch is found exactly when side a is an orphan and side b is not
   its counterparty.
   */
  lemma PanicsExactlyOnOrphans(w: World, ids: Ids)
    requires Sound(w) && Known(w.a, ids.a)
    ensures Reconciled(w, ids).1 == Mismatch
            <==> ids.a.Some? && exists y: Id :: Orphan(w, ids.a.value, y) && ids.b != Some(y)
  {
    if ids.a.Some? {
      var x := ids.a.value;
      assert EndBound(w.a, w.b, x);
      var cp := Now(w.a, x).counterparty;
      if cp.Some? && cp.value in w.b { assert EndBound(w.b, w.a, cp.value); }
      if Reconciled(w, ids).1 == Mismatch { assert Orphan(w, x, cp.value); }
    }
  }

  /** Two relayers answer end 7 and the second answer is acknowledged. */
  function RaceSteps(): seq<Step> {
    var e, f := End(Init, None, "", [], [], "", 0), End(TryOpen, Some(7), "", [], [], "", 0);
    [Step(false, 7, OpenInit(e)), Step(true, 1, OpenTry(7, f, e)), Step(true, 2, OpenTry(7, f, e)),
     Step(false, 0, OpenAck(7, 2, f))]
  }

  lemma {:induction false} RaceOrphans(kind: Kind)
    ensures var w := ExecAll(kind, World(map[], map[]), RaceSteps()); Orphan(w, 1, 7) && 1 in w.a
  {
    var s := RaceSteps();
    var e, f := s[0].d.end, s[1].d.end;
    var w0: World := World(map[], map[]);
    var w1 := Exec(kind, w0, s[0]);
    assert w1.b == map[7 := [e]] && w1.a == map[];
    var w2 := Exec(kind, w1, s[1]);
    assert w2.a == map[1 := [f]] && w2.b == w1.b;
    var w3 := Exec(kind, w2, s[2]);
    assert w3.a == map[1 := [f], 2 := [f]] && w3.b == w1.b;
    assert Proves(w3.a, 2, f);
    var w4 := Exec(kind, w3, s[3]);
    assert w4.b == map[7 := [e] + [e.(state := Open, counterparty := Some(2))]] && w4.a == w3.a;
    FourSteps(kind, w0, s[0], s[1], s[2], s[3]);
    assert s == [s[0], s[1], s[2], s[3]];
  }

  /** The condition can hold: two relayers answer the same end, and the identifiers name only the loser. */
  lemma OrphanIsReachable(kind: Kind)
    ensures exists w: World, ids: Ids ::
              Sound(w) && Reachable(kind, w) && Known(w.a, ids.a) && Reconciled(w, ids).1 == Mismatch
  {
    var w := ExecAll(kind, World(map[], map[]), RaceSteps());
    ReachableIsSound(kind, RaceSteps());
    RaceOrphans(kind);
    PanicsExactlyOnOrphans(w, Ids(Some(1), None));
    assert Reachable(kind, w);
  }

  /** The world results from some sequence of datagrams on empty chains. */
  ghost predicate Reachable(kind: Kind, w: World) {
    exists steps :: ExecAll(kind, World(map[], map[]), steps) == w
  }

  lemma {:induction false} FourSteps(kind: Kind, e: World, s0: Step, s1: Step, s2: Step, s3: Step)
    ensures ExecAll(kind, e, [s0, s1, s2, s3]) == Exec(kind, Exec(kind, Exec(kind, Exec(kind, e, s0), s1), s2), s3)
  {
    assert [s0, s1, s2, s3][1..] == [s1, s2, s3] && [s1, s2, s3][1..] == [s2, s3] && [s2, s3][1..] == [s3];
    var w3 := Exec(kind, Exec(kind, Exec(kind, e, s0), s1), s2);
    assert ExecAll(kind, w3, [s3]) == Exec(kind, w3, s3);
    assert ExecAll(kind, Exec(kind, Exec(kind, e, s0), s1), [s2, s3]) == ExecAll(kind, w3, [s3]);
  }

  // ---------------------------------------------------------------- restored objects

  /** The identifiers of an object restored from the event that announced version `v` of the end `x`. */
  function RestoreFromEvent(x: Id, v: End): Ids { Ids(Some(x), v.counterparty) }

  /**
   Whatever event an object is restored from, its identifiers are sane, now and at any later time. For
   an end at Init they are so with any end found for side b, as when an object is restored from state.
   */
  lemma RestoredIsSane(w: World, w': World, x: Id, v: End)
    requires Sound(w) && Later(w, w') && Proves(w.a, x, v)
    ensures Sane(w', RestoreFromEvent(x, v))
    ensures v.state == Init ==> forall b :: Sane(w', Ids(Some(x), b))
  {
    assert EndBound(w.a, w.b, x);
    if v.state == Init { InitBornLater(w.a, w'.a, x); }
    SaneLater(w, w', RestoreFromEvent(x, v));
  }

  /** A restored object would not meet the panic either, in any run and however long after the event it starts. */
  lemma {:induction false} RestoredNeverPanics(cfg: Config, w: World, w': World, x: Id, v: End, ps: seq<Pass>)
    requires Sound(w) && Later(w, w') && Proves(w.a, x, v)
    ensures RunAll(cfg, Progress(w', RestoreFromEvent(x, v), []), ps).1 != Panicked
  {
    RestoredIsSane(w, w', x, v);
    NeverPanics(cfg, Progress(w', RestoreFromEvent(x, v), []), ps);
  }

  // ---------------------------------------------------------------- the ends messages are sent to

  /** What the check of the destination leaves of the version `e` it was made against. */
  ghost predicate Checked(cfg: Config, ids: Ids, e: End) {
    && (e.state == Init || e.state == TryOpen) && e.local == Local(cfg.kind, cfg.b)
    && (e.counterparty.Some? ==> e.counterparty == ids.a && e.remote == cfg.a.name)
    && (cfg.kind == Connections ==> e.remote == cfg.a.name && e.versions == cfg.a.versions && e.prefix == cfg.a.prefix)
  }

  /** An Ack or a Confirm is built only for an end one of whose versions was checked. */
  lemma BuiltForChecked(cfg: Config, ids: Ids, msg: Message, src: Chain, dst: Chain, srcLater: Chain,
                        readCheck: Read, readProof: Read) returns (e: End)
    requires msg == AckMsg || msg == ConfirmMsg
    requires Build(cfg, ids, msg, src, dst, srcLater, readCheck, readProof).Ok?
    ensures var d := Build(cfg, ids, msg, src, dst, srcLater, readCheck, readProof).value;
            && (if msg == AckMsg then d.OpenAck? && Some(d.source) == ids.a else d.OpenConfirm?)
            && Some(d.target) == ids.b && Proves(dst, d.target, e) && Checked(cfg, ids, e)
  {
    e := Query(dst, ids.b.value, readCheck).value;
  }

  /** The end `t` is on the expected route, and free or bound to the source the relayer holds. */
  ghost predicate FreeOrBound(c: Chain, t: Id, local: seq<string>, source: Option<Id>) {
    && t in c && c[t] != [] && Now(c, t).local == local
    && (Now(c, t).counterparty.None? || Now(c, t).counterparty == source)
  }

  /** A checked end that later accepts the message was free or bound to the source, and is bound to it after. */
  lemma AcceptedBindsSource(cfg: Config, ids: Ids, checked: Chain, dst: Chain, src: Chain, e: End, d: Datagram,
                            newId: Id)
    requires Bound(dst, src) && Grows(checked, dst) && (d.OpenAck? || d.OpenConfirm?)
    requires Some(d.target) == ids.b && (d.OpenAck? ==> Some(d.source) == ids.a)
    requires Proves(checked, d.target, e) && Checked(cfg, ids, e) && Accepts(cfg.kind, dst, src, newId, d)
    ensures FreeOrBound(dst, d.target, Local(cfg.kind, cfg.b), ids.a)
    ensures var after := Apply(dst, newId, d);
            && d.target in after && after[d.target] != []
            && Now(after, d.target).state == Open && Now(after, d.target).counterparty == ids.a
  {
    assert EndGrows(checked, dst, d.target) && EndBound(dst, src, d.target);
    var i :| 0 <= i < |checked[d.target]| && checked[d.target][i] == e;
    assert dst[d.target][i] == e;
  }

  lemma SendLater(cfg: Config, w: World, p: Pass)
    requires Sound(w)
    ensures Later(CheckTime(cfg, w, p), ExecAll(cfg.kind, ProofTime(cfg, w, p), p.beforeSend))
    ensures Sound(ExecAll(cfg.kind, ProofTime(cfg, w, p), p.beforeSend))
  {
    BuildLater(cfg, w, p);
    ExecAllLater(cfg.kind, ProofTime(cfg, w, p), p.beforeSend);
    LaterTransitive(CheckTime(cfg, w, p), ProofTime(cfg, w, p), ExecAll(cfg.kind, ProofTime(cfg, w, p), p.beforeSend));
  }

  /**
   The relayer never acknowledges or confirms an end bound to someone else. In every state, with any
   answers and whatever others submit while the message is on its way: if an Ack or a Confirm is built
   and the chain accepts it when it arrives, its target was on the expected route, free or bound to
   exactly the source the relayer holds, and is open and bound to that source afterwards.
   */
  lemma NeverTargetsForeignEnd(cfg: Config, st: Progress, msg: Message, toA: bool, p: Pass)
    requires Sound(st.w) && (msg == AckMsg || msg == ConfirmMsg) && BuildFor(cfg, st, msg, toA, p).Ok?
    ensures var d := BuildFor(cfg, st, msg, toA, p).value;
            var w := ExecAll(cfg.kind, ProofTime(cfg, st.w, p), p.beforeSend);
            var (dst, src) := if toA then (w.a, w.b) else (w.b, w.a);
            var (target, source) := if toA then (st.ids.a, st.ids.b) else (st.ids.b, st.ids.a);
            && (d.OpenAck? || d.OpenConfirm?) && Some(d.target) == target
            && (Accepts(cfg.kind, dst, src, p.newId, d) ==>
                  var after := Apply(dst, p.newId, d);
                  && FreeOrBound(dst, d.target, Local(cfg.kind, if toA then cfg.a else cfg.b), source)
                  && d.target in after && after[d.target] != []
                  && Now(after, d.target).state == Open && Now(after, d.target).counterparty == source)
  {
    var d := BuildFor(cfg, st, msg, toA, p).value;
    var w3, w4 := CheckTime(cfg, st.w, p), ProofTime(cfg, st.w, p);
    var w := ExecAll(cfg.kind, w4, p.beforeSend);
    SendLater(cfg, st.w, p);
    if toA {
      var e := BuiltForChecked(cfg.Flipped(), st.ids.Flipped(), msg, w3.b, w3.a, w4.b, p.readCheck, p.readProof);
      if Accepts(cfg.kind, w.a, w.b, p.newId, d) {
        AcceptedBindsSource(cfg.Flipped(), st.ids.Flipped(), w3.a, w.a, w.b, e, d, p.newId);
      }
    } else {
      var e := BuiltForChecked(cfg, st.ids, msg, w3.a, w3.b, w4.a, p.readCheck, p.readProof);
      if Accepts(cfg.kind, w.b, w.a, p.newId, d) {
        AcceptedBindsSource(cfg, st.ids, w3.b, w.b, w.a, e, d, p.newId);
      }
    }
  }

  /**
   A Try names the end it answers and its port or client and prefix, is made for the destination's own
   connection or client, and for a channel only if the answered end names the destination's port. It
   offers the versions of that end.
   */
  lemma TryNamesItsSource(cfg: Config, ids: Ids, src: Chain, srcLater: Chain, dst: Chain, readCheck: Read,
                          readProof: Read)
    requires Build(cfg, ids, TryMsg, src, dst, srcLater, readCheck, readProof).Ok?
    ensures var d := Build(cfg, ids, TryMsg, src, dst, srcLater, readCheck, readProof).value;
            && d.OpenTry? && Some(d.source) == ids.a == d.end.counterparty && d.end.state == TryOpen
            && Query(src, d.source, readCheck).Ok?
            && var e := Query(src, d.source, readCheck).value;
            && d.end.remote == cfg.a.name && d.end.prefix == cfg.a.prefix && d.end.attribute == e.attribute
            && d.end.local == [if cfg.kind == Channels then cfg.b.connection else cfg.b.name]
            && (cfg.kind == Channels ==> e.remote == cfg.b.name)
            && (cfg.kind == Channels || e.versions != [] ==> d.end.versions == e.versions)
            && (d.end.versions == [] ==> cfg.kind == Channels)
            && Query(srcLater, d.source, readProof) == Ok(d.proof)
  {}

  /**
   A Try built for an end created by Init, from a current or an old answer, is accepted at any later
   time its proof shows Init, and the end it creates has the ordering or delay of the end it answers,
   whatever the relayer's object holds.
   */
  lemma TryTakesTheSourceAttribute(cfg: Config, ids: Ids, src: Chain, srcLater: Chain, dst: Chain, newId: Id,
                                   readCheck: Read, readProof: Read)
    requires Bound(srcLater, dst) && Grows(src, srcLater) && ids.a.Some? && InitBorn(src, ids.a.value)
    requires !readCheck.Unavailable? && newId !in dst
    requires Build(cfg, ids, TryMsg, src, dst, srcLater, readCheck, readProof).Ok?
    requires Query(srcLater, ids.a.value, readProof).value.state == Init
    ensures var d := Build(cfg, ids, TryMsg, src, dst, srcLater, readCheck, readProof).value;
            && Accepts(cfg.kind, dst, srcLater, newId, d)
            && Apply(dst, newId, d)[newId][0].attribute == src[ids.a.value][0].attribute
  {
    assert EndBound(srcLater, dst, ids.a.value) && EndGrows(src, srcLater, ids.a.value);
    var x := ids.a.value;
    var n := if readCheck.Past? then readCheck.index else |src[x]| - 1;
    assert src[x][n] == srcLater[x][n];
  }
}
