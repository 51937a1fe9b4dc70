/**
 Safety of the driver over whole runs, whatever other relayers submit between its accesses to the
 chains and however its queries and submissions end.
 */
module Safety {
  import opened Options
  import opened Ends
  import opened Driver

  // ---------------------------------------------------------------- worlds only move forward

  lemma ObserveLater(cfg: Config, st: Progress, p: Pass) returns (w1: World, w2: World)
    requires Sound(st.w)
    ensures w1 == ExecAll(cfg.kind, st.w, p.beforeA) && w2 == ExecAll(cfg.kind, w1, p.beforeB)
    ensures Later(st.w, w1) && Later(w1, w2) && Later(st.w, w2) && Observe(cfg, st, p).0.w == w2
  {
    w1 := ExecAll(cfg.kind, st.w, p.beforeA);
    w2 := ExecAll(cfg.kind, w1, p.beforeB);
    ExecAllLater(cfg.kind, st.w, p.beforeA);
    ExecAllLater(cfg.kind, w1, p.beforeB);
    LaterTransitive(st.w, w1, w2);
  }

  lemma BuildLater(cfg: Config, w: World, p: Pass)
    requires Sound(w)
    ensures Later(w, CheckTime(cfg, w, p)) && Later(CheckTime(cfg, w, p), ProofTime(cfg, w, p))
    ensures Later(w, ProofTime(cfg, w, p))
  {
    ExecAllLater(cfg.kind, w, p.beforeCheck);
    ExecAllLater(cfg.kind, CheckTime(cfg, w, p), p.beforeProof);
    LaterTransitive(w, CheckTime(cfg, w, p), ProofTime(cfg, w, p));
  }

  lemma SubmitLater(cfg: Config, w0: World, toA: bool, d: Datagram, p: Pass) returns (w: World, w': World)
    requires Sound(w0)
    ensures w == ExecAll(cfg.kind, w0, p.beforeSend) && w' == Exec(cfg.kind, w, Step(toA, p.newId, d))
    ensures Later(w0, w) && Later(w, w') && Later(w0, w')
  {
    w := ExecAll(cfg.kind, w0, p.beforeSend);
    w' := Exec(cfg.kind, w, Step(toA, p.newId, d));
    ExecAllLater(cfg.kind, w0, p.beforeSend);
    ExecLater(cfg.kind, w, Step(toA, p.newId, d));
    LaterTransitive(w0, w, w');
  }

  lemma InitBornLater(c: Chain, c': Chain, id: Id)
    requires Grows(c, c') && InitBorn(c, id)
    ensures InitBorn(c', id) && c'[id][0] == c[id][0]
  {
    assert EndGrows(c, c', id);
  }

  lemma TryBornLater(c: Chain, c': Chain, id: Id, x: Id)
    requires Grows(c, c') && TryBorn(c, id, x)
    ensures TryBorn(c', id, x) && c'[id][0] == c[id][0]
  {
    assert EndGrows(c, c', id);
  }

  // ---------------------------------------------------------------- the panic is unreachable

  /** Side a is unset, was created by Init, or was created by Try for exactly the end held for side b. */
  ghost predicate Sane(w: World, ids: Ids) {
    || ids.a.None?
    || InitBorn(w.a, ids.a.value)
    || (ids.b.Some? && TryBorn(w.a, ids.a.value, ids.b.value))
  }

  lemma SaneLater(w: World, w': World, ids: Ids)
    requires Sane(w, ids) && Later(w, w')
    ensures Sane(w', ids)
  {
    if ids.a.Some? {
      if InitBorn(w.a, ids.a.value) {
        InitBornLater(w.a, w'.a, ids.a.value);
      } else {
        TryBornLater(w.a, w'.a, ids.a.value, ids.b.value);
      }
    }
  }

  /** What an answer, even a stale one, tells about the binding of the queried end. */
  ghost predicate Tells(c: Chain, d: Chain, id: Option<Id>, e: End) {
    e == DEFAULT_END
    || (&& id.Some? && e.state != Uninitialized
        && (InitBorn(c, id.value) ==>
              && e.state != TryOpen
              && (e.counterparty.Some? ==> TryBorn(d, e.counterparty.value, id.value))
              && (e.state == Init ==> e.counterparty.None?)
              && (e.state == Open ==> e.counterparty.Some?))
        && (!InitBorn(c, id.value) ==>
              && e.state != Init && e.counterparty.Some?
              && TryBorn(c, id.value, e.counterparty.value) && InitBorn(d, e.counterparty.value)))
  }

  lemma AnswerTells(c: Chain, d: Chain, id: Option<Id>, r: Read)
    requires Bound(c, d) && QueryHeld(c, id, r).Ok?
    ensures Tells(c, d, id, QueryHeld(c, id, r).value)
  {
    if id.Some? && id.value in c { assert EndBound(c, d, id.value); }
  }

  lemma TellsLater(c: Chain, d: Chain, c': Chain, d': Chain, id: Option<Id>, e: End)
    requires Tells(c, d, id, e) && Grows(c, c') && Grows(d, d')
    requires e == DEFAULT_END || id.value in c
    ensures Tells(c', d', id, e)
  {
    if e != DEFAULT_END {
      assert EndGrows(c, c', id.value);
      if e.counterparty.Some? {
        if e.counterparty.value in d { assert EndGrows(d, d', e.counterparty.value); }
      }
    }
  }

  /** Adopting identifiers from such answers keeps them sane and never finds a mismatch. */
  lemma AdoptSane(w: World, ids: Ids, aEnd: End, bEnd: End)
    requires Sane(w, ids)
    requires Tells(w.a, w.b, ids.a, aEnd) && Tells(w.b, w.a, AdoptB(ids, aEnd), bEnd)
    ensures var r := AdoptA(ids, AdoptB(ids, aEnd), aEnd, bEnd);
            && r.1.States? && Sane(w, r.0)
            && (Choose(r.1.a, r.1.b) == Send(TryMsg, false) ==> r.0.a.Some? && InitBorn(w.a, r.0.a.value))
  {}

  /** Reconciliation keeps the identifiers sane and never panics. */
  lemma ReconcileSane(w1: World, w2: World, ids: Ids, readA: Read, readB: Read)
    requires Sound(w1) && Later(w1, w2) && Sane(w1, ids)
    ensures var r := Reconcile(ids, w1.a, readA, w2.b, readB);
            && r.1 != Mismatch && Sane(w2, r.0)
            && (r.1.States? && Choose(r.1.a, r.1.b) == Send(TryMsg, false) ==>
                  r.0.a.Some? && InitBorn(w2.a, r.0.a.value))
  {
    SaneLater(w1, w2, ids);
    var answerA := QueryHeld(w1.a, ids.a, readA);
    if answerA.Ok? {
      AnswerTells(w1.a, w1.b, ids.a, readA);
      TellsLater(w1.a, w1.b, w2.a, w2.b, ids.a, answerA.value);
      var b := AdoptB(ids, answerA.value);
      var answerB := QueryHeld(w2.b, b, readB);
      if answerB.Ok? {
        AnswerTells(w2.b, w2.a, b, readB);
        AdoptSane(w2, ids, answerA.value, answerB.value);
      }
    }
  }

  /** Submitting a message keeps the identifiers sane. */
  lemma SubmitSane(cfg: Config, st: Progress, msg: Message, toA: bool, d: Datagram, p: Pass)
    requires Sound(st.w) && Sane(st.w, st.ids)
    requires msg == InitMsg ==> toA && d.OpenInit?
    requires msg == TryMsg ==> d.OpenTry? && Some(d.source) == (if toA then st.ids.b else st.ids.a)
    requires msg == TryMsg && !toA ==> st.ids.a.Some? && InitBorn(st.w.a, st.ids.a.value)
    ensures var r := Submit(cfg, st, msg, toA, d, p);
            Later(st.w, r.0.w) && Sane(r.0.w, r.0.ids) && r.1 != Panicked && r.1 != Finished
  {
    var w, w' := SubmitLater(cfg, st.w, toA, d, p);
    SaneLater(st.w, w, st.ids);
    SaneLater(st.w, w', st.ids);
    if msg == TryMsg && !toA {
      InitBornLater(st.w.a, w'.a, st.ids.a.value);
    }
  }

  /** A pass leads to a later world, keeps the identifiers sane and does not panic. */
  lemma PassSane(cfg: Config, st: Progress, p: Pass)
    requires Sound(st.w) && Sane(st.w, st.ids)
    ensures var r := RunPass(cfg, st, p); Later(st.w, r.0.w) && Sane(r.0.w, r.0.ids) && r.1 != Panicked
  {
    var w1, w2 := ObserveLater(cfg, st, p);
    SaneLater(st.w, w1, st.ids);
    ReconcileSane(w1, w2, st.ids, p.readA, p.readB);
    var o := Observe(cfg, st, p);
    if o.1.States? && Choose(o.1.a, o.1.b).Send? {
      PerformSane(cfg, o.0, Choose(o.1.a, o.1.b), p);
      LaterTransitive(st.w, w2, RunPass(cfg, st, p).0.w);
    }
  }

  lemma PerformSane(cfg: Config, st: Progress, c: Choice, p: Pass)
    requires Sound(st.w) && Sane(st.w, st.ids) && c.Send? && (c.msg == InitMsg ==> c.toA)
    requires c == Send(TryMsg, false) ==> st.ids.a.Some? && InitBorn(st.w.a, st.ids.a.value)
    ensures var r := Perform(cfg, st, c.msg, c.toA, p);
            Later(st.w, r.0.w) && Sane(r.0.w, r.0.ids) && r.1 != Panicked
  {
    var w4 := ProofTime(cfg, st.w, p);
    BuildLater(cfg, st.w, p);
    SaneLater(st.w, w4, st.ids);
    if c == Send(TryMsg, false) { InitBornLater(st.w.a, w4.a, st.ids.a.value); }
    var built := BuildFor(cfg, st, c.msg, c.toA, p);
    if built.Ok? {
      SubmitSane(cfg, st.(w := w4), c.msg, c.toA, built.value, p);
      LaterTransitive(st.w, w4, Perform(cfg, st, c.msg, c.toA, p).0.w);
    }
  }

  /**
   In every run, even with stale or missing answers, the mismatched-identifier panic is unreachable
   from every sane start; a fresh relayer, which holds no identifier, is one.
   */
  lemma {:induction false} NeverPanics(cfg: Config, st: Progress, ps: seq<Pass>)
    requires Sound(st.w) && Sane(st.w, st.ids)
    ensures var r := RunAll(cfg, st, ps); Sound(r.0.w) && Sane(r.0.w, r.0.ids) && r.1 != Panicked
    decreases |ps|
  {
    if ps != [] {
      PassSane(cfg, st, ps[0]);
      var r := RunPass(cfg, st, ps[0]);
      if r.1 == Retry { NeverPanics(cfg, r.0, ps[1..]); }
    }
  }
}
