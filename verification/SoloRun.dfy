/** A relayer that works alone, with current answers and no failures. */
module SoloRun {
  import opened Options
  import opened Ends
  import opened Driver
  import opened FreshRuns

  /** Nobody interferes, every query is answered and every submission reported. */
  predicate Quiet(p: Pass) {
    && p.beforeA == [] && p.beforeB == [] && p.beforeCheck == [] && p.beforeProof == [] && p.beforeSend == []
    && p.readA == Fresh && p.readB == Fresh && p.readCheck == Fresh && p.readProof == Fresh
    && p.delivery == Delivered
  }

  predicate QuietRun(ps: seq<Pass>) { forall i :: 0 <= i < |ps| ==> Quiet(ps[i]) }

  /** Both chains support one version, the same one. */
  predicate VersionsAgree(cfg: Config) {
    cfg.kind == Connections ==> |cfg.a.versions| == 1 && cfg.a.versions == cfg.b.versions
  }

  /** The created ends of a connection carry these versions. */
  predicate Carries(cfg: Config, versions: seq<string>) {
    cfg.kind == Connections ==> InitEnd(cfg).versions == versions
  }

  /** The end created by the Try. */
  function TryEnd(cfg: Config, i: Id): End {
    End(TryOpen, Some(i), cfg.a.name, Local(cfg.kind, cfg.b), InitEnd(cfg).versions, cfg.a.prefix, cfg.attribute)
  }

  /** The state after `n` successful messages on top of the world `w`. */
  function After(cfg: Config, w: World, i: Id, j: Id, n: nat): Progress {
    var a1 := w.a[i := [InitEnd(cfg)]];
    var b2 := w.b[j := [TryEnd(cfg, i)]];
    var a3 := Update(a1, i, Open, Some(j));
    var b4 := Update(b2, j, Open, Some(i));
    var ids := Ids(Some(i), Some(j));
    var m1 := [Send(InitMsg, true)];
    var m2 := m1 + [Send(TryMsg, false)];
    var m3 := m2 + [Send(AckMsg, true)];
    var m4 := m3 + [Send(ConfirmMsg, false)];
    if n == 0 then Start(w)
    else if n == 1 then Progress(World(a1, w.b), Ids(Some(i), None), m1)
    else if n == 2 then Progress(World(a1, b2), ids, m2)
    else if n == 3 then Progress(World(a3, b2), ids, m3)
    else Progress(World(a3, b4), ids, m4)
  }

  lemma {:induction false} QuietWorlds(cfg: Config, w: World, p: Pass)
    requires Quiet(p)
    ensures ExecAll(cfg.kind, w, p.beforeA) == w && ExecAll(cfg.kind, w, p.beforeB) == w
    ensures CheckTime(cfg, w, p) == w && ProofTime(cfg, w, p) == w && ExecAll(cfg.kind, w, p.beforeSend) == w
  {}

  lemma InitPass(cfg: Config, w: World, p: Pass, j: Id)
    requires Quiet(p) && p.newId !in w.a
    ensures RunPass(cfg, Start(w), p) == (After(cfg, w, p.newId, j, 1), Retry)
  {
    QuietWorlds(cfg, w, p);
    assert Start(w).sent + [Send(InitMsg, true)] == [Send(InitMsg, true)];
  }

  lemma TryPass(cfg: Config, w: World, i: Id, p: Pass)
    requires Quiet(p) && p.newId !in w.b
    ensures RunPass(cfg, After(cfg, w, i, p.newId, 1), p) == (After(cfg, w, i, p.newId, 2), Retry)
  {}

  /** The Ack goes through exactly when the created end carries the versions side b reports. */
  lemma AckPass(cfg: Config, w: World, i: Id, j: Id, p: Pass)
    requires Quiet(p)
    ensures RunPass(cfg, After(cfg, w, i, j, 2), p)
            == (After(cfg, w, i, j, if Carries(cfg, cfg.b.versions) then 3 else 2), Retry)
  {}

  /** The Confirm goes through exactly when the created end carries the versions side a reports. */
  lemma ConfirmPass(cfg: Config, w: World, i: Id, j: Id, p: Pass)
    requires Quiet(p)
    ensures RunPass(cfg, After(cfg, w, i, j, 3), p)
            == (After(cfg, w, i, j, if Carries(cfg, cfg.a.versions) then 4 else 3), Retry)
  {}

  lemma LastPass(cfg: Config, w: World, i: Id, j: Id, p: Pass)
    requires Quiet(p)
    ensures RunPass(cfg, After(cfg, w, i, j, 4), p) == (After(cfg, w, i, j, 4), Finished)
  {}

  /** How far a run gets from the state after `n` messages. */
  lemma {:induction false} FromStage(cfg: Config, w: World, i: Id, j: Id, n: nat, ps: seq<Pass>)
    requires QuietRun(ps) && 2 <= n <= 4
    requires n >= 3 ==> Carries(cfg, cfg.b.versions)
    requires n >= 4 ==> Carries(cfg, cfg.a.versions)
    ensures RunAll(cfg, After(cfg, w, i, j, n), ps).1
            == if VersionsAgree(cfg) && |ps| >= 5 - n then Finished else Retry
    decreases |ps|
  {
    if ps != [] {
      var next := RunPass(cfg, After(cfg, w, i, j, n), ps[0]).0;
      match n {
        case 2 => AckPass(cfg, w, i, j, ps[0]);
        case 3 => ConfirmPass(cfg, w, i, j, ps[0]);
        case 4 => LastPass(cfg, w, i, j, ps[0]);
      }
      if n < 4 {
        FromStage(cfg, w, i, j, if next == After(cfg, w, i, j, n) then n else n + 1, ps[1..]);
      }
    }
  }

  /**
   Alone and without failures the handshake finishes on exactly its fifth pass. A connection between
   chains whose version lists differ, or hold several versions, never gets there.
   */
  lemma {:induction false} FinishesOnFifthPass(cfg: Config, w: World, ps: seq<Pass>)
    requires QuietRun(ps) && (|ps| > 0 ==> ps[0].newId !in w.a) && (|ps| > 1 ==> ps[1].newId !in w.b)
    ensures RunAll(cfg, Start(w), ps).1 == (if VersionsAgree(cfg) && |ps| >= 5 then Finished else Retry)
  {
    if |ps| > 0 {
      var i, j := ps[0].newId, if |ps| > 1 then ps[1].newId else 0;
      InitPass(cfg, w, ps[0], j);
      if |ps| > 1 {
        TryPass(cfg, w, i, ps[1]);
        assert ps[1..][0] == ps[1] && ps[1..][1..] == ps[2..];
        FromStage(cfg, w, i, j, 2, ps[2..]);
      }
    }
  }

  /**
   Creating a connection is refused exactly for a delay above the maximum; otherwise, left alone with
   versions that agree, it is open after five passes, as every channel is.
   */
  lemma {:induction false} CreationFinishes(cfg: Config, w: World, ps: seq<Pass>)
    requires QuietRun(ps) && |ps| >= 5 && ps[0].newId !in w.a && ps[1].newId !in w.b && VersionsAgree(cfg)
    ensures Create(cfg, w, ps).None? <==> cfg.kind == Connections && cfg.attribute > MAX_PACKET_DELAY
    ensures Create(cfg, w, ps).Some? ==> Create(cfg, w, ps).value.1 == Finished
  {
    FinishesOnFifthPass(cfg, w, ps);
  }

  // ---------------------------------------------------------------- answers that deny an end

  /** One answer from a node that has not seen the new end on side a makes the driver send Init twice. */
  lemma {:induction false} MissingAnswerRepeatsInit(cfg: Config, w: World, p: Pass, q: Pass)
    requires Quiet(p) && Quiet(q.(readA := Fresh)) && q.readA == Unavailable
    requires p.newId !in w.a && q.newId !in w.a && p.newId != q.newId
    ensures RunAll(cfg, Start(w), [p, q]).0.sent == [Send(InitMsg, true), Send(InitMsg, true)]
    ensures RunAll(cfg, Start(w), [p, q]).0.ids.a != RunAll(cfg, Start(w), [p]).0.ids.a
  {
    InitPass(cfg, w, p, 0);
    var st := After(cfg, w, p.newId, 0, 1);
    QuietWorlds(cfg, st.w, q.(readA := Fresh));
    assert RunPass(cfg, st, q).0.sent == [Send(InitMsg, true)] + [Send(InitMsg, true)];
    assert [p, q][1..] == [q] && [q][1..] == [] && [p][1..] == [];
    assert RunAll(cfg, st, [q]) == RunPass(cfg, st, q);
  }

  /** One answer from a node that has not seen the new end on side b makes the driver send Try twice. */
  lemma {:induction false} MissingAnswerRepeatsTry(cfg: Config, w: World, p: Pass, q: Pass, r: Pass)
    requires Quiet(p) && Quiet(q) && Quiet(r.(readB := Fresh)) && r.readB == Unavailable
    requires p.newId !in w.a && q.newId !in w.b && r.newId !in w.b && q.newId != r.newId
    ensures RunAll(cfg, Start(w), [p, q, r]).0.sent == [Send(InitMsg, true), Send(TryMsg, false), Send(TryMsg, false)]
    ensures RunAll(cfg, Start(w), [p, q, r]).0.ids.b == Some(r.newId)
  {
    var i, j := p.newId, q.newId;
    InitPass(cfg, w, p, j);
    TryPass(cfg, w, i, q);
    var st := After(cfg, w, i, j, 2);
    QuietWorlds(cfg, st.w, r.(readB := Fresh));
    assert Now(st.w.a, i) == InitEnd(cfg) && Proves(st.w.a, i, InitEnd(cfg));
    var sent := RunPass(cfg, st, r).0.sent;
    assert sent == [Send(InitMsg, true)] + [Send(TryMsg, false)] + [Send(TryMsg, false)];
    assert [p, q, r][1..] == [q, r] && [q, r][1..] == [r] && [r][1..] == [];
    assert RunAll(cfg, st, [r]) == RunPass(cfg, st, r);
    assert RunAll(cfg, After(cfg, w, i, j, 1), [q, r]) == RunAll(cfg, st, [r]);
  }

  /** Denying both new ends makes the driver replace side a while side b still answers the old end. */
  lemma {:induction false} BothDeniedBreaksHeld(cfg: Config, w: World, p: Pass, q: Pass, r: Pass)
    requires Quiet(p) && Quiet(q) && Quiet(r.(readA := Fresh, readB := Fresh))
    requires r.readA == Unavailable && r.readB == Unavailable
    requires p.newId !in w.a && q.newId !in w.b && r.newId !in w.a && p.newId != r.newId
    ensures var st := RunAll(cfg, Start(w), [p, q, r]).0;
            && st.ids == Ids(Some(r.newId), Some(q.newId)) && !Held(cfg, st.w, st.ids)
            && st.sent == [Send(InitMsg, true), Send(TryMsg, false), Send(InitMsg, true)]
  {
    var i, j := p.newId, q.newId;
    InitPass(cfg, w, p, j);
    TryPass(cfg, w, i, q);
    var st := After(cfg, w, i, j, 2);
    QuietWorlds(cfg, st.w, r.(readA := Fresh, readB := Fresh));
    var last := RunPass(cfg, st, r).0;
    assert last.sent == [Send(InitMsg, true)] + [Send(TryMsg, false)] + [Send(InitMsg, true)];
    assert last.w.b[j] == [TryEnd(cfg, i)];
    assert [p, q, r][1..] == [q, r] && [q, r][1..] == [r] && [r][1..] == [];
    assert RunAll(cfg, st, [r]) == RunPass(cfg, st, r);
    assert RunAll(cfg, After(cfg, w, i, j, 1), [q, r]) == RunAll(cfg, st, [r]);
  }
}
