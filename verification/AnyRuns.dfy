/**
 Runs that start with no identifier, with any answers: current ones, old ones, none, and answers that
 deny an end exists. What a finished handshake guarantees in all of them.
 */
module AnyRuns {
  import opened Options
  import opened Ends
  import opened Driver
  import opened Safety
  import opened FreshRuns

  // ---------------------------------------------------------------- the ends a relayer owns

  /** `x` was created on side a as this relayer creates ends. */
  ghost predicate Mine(cfg: Config, w: World, x: Id) {
    InitBorn(w.a, x) && w.a[x][0] == InitEnd(cfg)
  }

  /** `y` was created on side b in answer to such an end. */
  ghost predicate AnswersMine(cfg: Config, w: World, y: Id) {
    && y in w.b && w.b[y] != [] && w.b[y][0].counterparty.Some?
    && TryBorn(w.b, y, w.b[y][0].counterparty.value) && Mine(cfg, w, w.b[y][0].counterparty.value)
  }

  /** Each held identifier names such an end; the two need not belong together. */
  ghost predicate Owned(cfg: Config, w: World, ids: Ids) {
    && (ids.a.None? ==> ids.b.None?)
    && (ids.a.Some? ==> Mine(cfg, w, ids.a.value))
    && (ids.b.Some? ==> AnswersMine(cfg, w, ids.b.value))
  }

  lemma OwnedLater(cfg: Config, w: World, w': World, ids: Ids)
    requires Owned(cfg, w, ids) && Later(w, w')
    ensures Owned(cfg, w', ids)
  {
    if ids.a.Some? { InitBornLater(w.a, w'.a, ids.a.value); }
    if ids.b.Some? {
      var x := w.b[ids.b.value][0].counterparty.value;
      TryBornLater(w.b, w'.b, ids.b.value, x);
      InitBornLater(w.a, w'.a, x);
    }
  }

  /** What the two queries of a pass lead to. */
  ghost predicate Seen(ids: Ids, o: Observation) {
    && o != Mismatch
    && (o.States? ==>
          && (Choose(o.a, o.b).Send? ==> Stage(Choose(o.a, o.b)) < 4)
          && (Choose(o.a, o.b) == Send(TryMsg, false) ==> ids.a.Some?))
  }

  /** Adopting identifiers keeps them owned; two open answers are of ends bound to each other. */
  lemma AdoptOwned(cfg: Config, w: World, ids: Ids, aEnd: End, bEnd: End)
    requires Sound(w) && Owned(cfg, w, ids)
    requires Tells(w.a, w.b, ids.a, aEnd) && Tells(w.b, w.a, AdoptB(ids, aEnd), bEnd)
    ensures var r := AdoptA(ids, AdoptB(ids, aEnd), aEnd, bEnd);
            && Owned(cfg, w, r.0) && Seen(r.0, r.1)
            && (r.1 == States(Open, Open) ==>
                  r.0 == Ids(bEnd.counterparty, aEnd.counterparty) && r.0.a == ids.a && ids.a.Some?)
  {
    if aEnd.counterparty.Some? { assert EndBound(w.b, w.a, aEnd.counterparty.value); }
    if AdoptB(ids, aEnd).Some? { assert EndBound(w.b, w.a, AdoptB(ids, aEnd).value); }
  }

  /**
   The two held ends are bound to each other, both were open, and both carry the requested attribute;
   side a lies on its own connection or client, offers its own versions, all of them for a channel and
   the first for a connection, and names the port or client and the prefix of side b.
   */
  ghost predicate Linked(cfg: Config, w: World, ids: Ids) {
    && ids.a.Some? && ids.b.Some?
    && InitBorn(w.a, ids.a.value) && TryBorn(w.b, ids.b.value, ids.a.value)
    && Now(w.a, ids.a.value).counterparty == ids.b && Now(w.b, ids.b.value).counterparty == ids.a
    && (exists i :: 0 <= i < |w.a[ids.a.value]| && w.a[ids.a.value][i].state == Open)
    && (exists i :: 0 <= i < |w.b[ids.b.value]| && w.b[ids.b.value][i].state == Open)
    && Now(w.a, ids.a.value).attribute == cfg.attribute && Now(w.b, ids.b.value).attribute == cfg.attribute
    && Now(w.a, ids.a.value).remote == cfg.b.name && Now(w.a, ids.a.value).prefix == cfg.b.prefix
    && Now(w.a, ids.a.value).versions == (if cfg.kind == Channels then cfg.a.versions else cfg.a.versions[..1])
    && Now(w.a, ids.a.value).local == [if cfg.kind == Channels then cfg.a.connection else cfg.a.name]
  }

  /** Two open versions that name each other belong to linked ends. */
  lemma OpenVersionsLink(cfg: Config, w: World, x: Id, y: Id, e: End, f: End)
    requires Sound(w) && Mine(cfg, w, x) && Proves(w.a, x, e) && Proves(w.b, y, f)
    requires e.state == Open && f.state == Open && e.counterparty == Some(y) && f.counterparty == Some(x)
    ensures Linked(cfg, w, Ids(Some(x), Some(y)))
  {
    assert EndBound(w.a, w.b, x) && EndBound(w.b, w.a, y);
  }

  /** What the answer of chain a tells, and the identifier adopted from it, still hold when chain b is queried. */
  lemma AnswerAOwned(cfg: Config, w1: World, w2: World, ids: Ids, readA: Read)
    requires Sound(w1) && Later(w1, w2) && Owned(cfg, w1, ids) && QueryHeld(w1.a, ids.a, readA).Ok?
    ensures var aEnd := QueryHeld(w1.a, ids.a, readA).value;
            Tells(w2.a, w2.b, ids.a, aEnd) && Owned(cfg, w2, ids) && Owned(cfg, w2, Ids(ids.a, AdoptB(ids, aEnd)))
  {
    var aEnd := QueryHeld(w1.a, ids.a, readA).value;
    OwnedLater(cfg, w1, w2, ids);
    AnswerTells(w1.a, w1.b, ids.a, readA);
    TellsLater(w1.a, w1.b, w2.a, w2.b, ids.a, aEnd);
    if aEnd.counterparty.Some? { AdoptedIsOwned(cfg, w2, ids.a.value, aEnd); }
  }

  /** Reconciling with the answer of chain b, given what that of chain a tells. */
  lemma AnswerBOwned(cfg: Config, w1: World, w2: World, ids: Ids, readA: Read, readB: Read)
    requires Sound(w2) && Grows(w1.a, w2.a) && QueryHeld(w1.a, ids.a, readA).Ok? && Owned(cfg, w2, ids)
    requires Tells(w2.a, w2.b, ids.a, QueryHeld(w1.a, ids.a, readA).value)
    requires QueryHeld(w2.b, AdoptB(ids, QueryHeld(w1.a, ids.a, readA).value), readB).Ok?
    ensures var r := Reconcile(ids, w1.a, readA, w2.b, readB);
            && Owned(cfg, w2, r.0) && Seen(r.0, r.1)
            && (r.1 == States(Open, Open) ==> Linked(cfg, w2, r.0))
  {
    var aEnd := QueryHeld(w1.a, ids.a, readA).value;
    var b := AdoptB(ids, aEnd);
    var bEnd := QueryHeld(w2.b, b, readB).value;
    AnswerTells(w2.b, w2.a, b, readB);
    AdoptOwned(cfg, w2, ids, aEnd, bEnd);
    if aEnd.state == Open && bEnd.state == Open {
      OpenAnswersLink(cfg, w1, w2, ids.a.value, b.value, readA, readB);
    }
  }

  lemma ReconcileOwned(cfg: Config, w1: World, w2: World, ids: Ids, readA: Read, readB: Read)
    requires Sound(w1) && Later(w1, w2) && Owned(cfg, w1, ids)
    ensures var r := Reconcile(ids, w1.a, readA, w2.b, readB);
            && Owned(cfg, w2, r.0) && Seen(r.0, r.1)
            && (r.1 == States(Open, Open) ==> Linked(cfg, w2, r.0))
  {
    OwnedLater(cfg, w1, w2, ids);
    var answerA := QueryHeld(w1.a, ids.a, readA);
    if answerA.Ok? {
      AnswerAOwned(cfg, w1, w2, ids, readA);
      if QueryHeld(w2.b, AdoptB(ids, answerA.value), readB).Ok? { AnswerBOwned(cfg, w1, w2, ids, readA, readB); }
    }
  }

  /** Two open answers that name each other are of linked ends. */
  lemma OpenAnswersLink(cfg: Config, w1: World, w2: World, x: Id, y: Id, readA: Read, readB: Read)
    requires Sound(w2) && Grows(w1.a, w2.a) && Mine(cfg, w2, x)
    requires Query(w1.a, x, readA).Ok? && Query(w2.b, y, readB).Ok?
    requires Query(w1.a, x, readA).value.state == Open && Query(w1.a, x, readA).value.counterparty == Some(y)
    requires Query(w2.b, y, readB).value.state == Open && Query(w2.b, y, readB).value.counterparty == Some(x)
    ensures Linked(cfg, w2, Ids(Some(x), Some(y)))
  {
    assert EndGrows(w1.a, w2.a, x);
    OpenVersionsLink(cfg, w2, x, y, Query(w1.a, x, readA).value, Query(w2.b, y, readB).value);
  }

  lemma AdoptedIsOwned(cfg: Config, w: World, x: Id, aEnd: End)
    requires Mine(cfg, w, x) && Tells(w.a, w.b, Some(x), aEnd) && aEnd.counterparty.Some?
    ensures AnswersMine(cfg, w, aEnd.counterparty.value)
  {}

  /** The datagram built for a choice creates an end of this relayer, or one that answers side a. */
  ghost predicate Creates(cfg: Config, ids: Ids, c: Choice, d: Datagram)
    requires c.Send?
  {
    && (c.msg == InitMsg ==> c.toA && d == BuildInit(cfg.Flipped()))
    && (c.msg == TryMsg ==> !c.toA && d.OpenTry? && ids.a.Some? && d.source == ids.a.value)
  }

  lemma ExecOwned(cfg: Config, w: World, ids: Ids, c: Choice, newId: Id, d: Datagram)
    requires Sound(w) && Owned(cfg, w, ids) && c.Send? && Creates(cfg, ids, c, d) && AcceptedBy(cfg, w, c, newId, d)
    ensures Owned(cfg, Exec(cfg.kind, w, Step(c.toA, newId, d)), AfterSend(ids, c.msg, c.toA, newId))
  {
    var w' := Exec(cfg.kind, w, Step(c.toA, newId, d));
    ExecLater(cfg.kind, w, Step(c.toA, newId, d));
    OwnedLater(cfg, w, w', ids);
  }

  lemma SubmitOwned(cfg: Config, st: Progress, c: Choice, d: Datagram, p: Pass)
    requires Sound(st.w) && Owned(cfg, st.w, st.ids) && c.Send? && Creates(cfg, st.ids, c, d)
    ensures var r := Submit(cfg, st, c.msg, c.toA, d, p);
            Later(st.w, r.0.w) && Owned(cfg, r.0.w, r.0.ids) && r.1 != Finished
  {
    var w, w' := SubmitLater(cfg, st.w, c.toA, d, p);
    OwnedLater(cfg, st.w, w, st.ids);
    OwnedLater(cfg, st.w, w', st.ids);
    if AcceptedBy(cfg, w, c, p.newId, d) { ExecOwned(cfg, w, st.ids, c, p.newId, d); }
  }

  lemma PerformOwned(cfg: Config, st: Progress, c: Choice, p: Pass)
    requires Sound(st.w) && Owned(cfg, st.w, st.ids) && c.Send? && Stage(c) < 4 && (c.msg == TryMsg ==> st.ids.a.Some?)
    ensures var r := Perform(cfg, st, c.msg, c.toA, p);
            Later(st.w, r.0.w) && Owned(cfg, r.0.w, r.0.ids) && r.1 != Finished
  {
    var w4 := ProofTime(cfg, st.w, p);
    BuildLater(cfg, st.w, p);
    OwnedLater(cfg, st.w, w4, st.ids);
    var built := BuildFor(cfg, st, c.msg, c.toA, p);
    if built.Ok? {
      SubmitOwned(cfg, st.(w := w4), c, built.value, p);
      LaterTransitive(st.w, w4, Perform(cfg, st, c.msg, c.toA, p).0.w);
    }
  }

  lemma PassOwned(cfg: Config, st: Progress, p: Pass)
    requires Sound(st.w) && Owned(cfg, st.w, st.ids)
    ensures var r := RunPass(cfg, st, p);
            && Sound(r.0.w) && Owned(cfg, r.0.w, r.0.ids) && (r.1 == Finished ==> Linked(cfg, r.0.w, r.0.ids))
  {
    var w1, w2 := ObserveLater(cfg, st, p);
    OwnedLater(cfg, st.w, w1, st.ids);
    ReconcileOwned(cfg, w1, w2, st.ids, p.readA, p.readB);
    var o := Observe(cfg, st, p);
    if o.1.States? && Choose(o.1.a, o.1.b).Send? { PerformOwned(cfg, o.0, Choose(o.1.a, o.1.b), p); }
  }

  lemma {:induction false} RunOwned(cfg: Config, st: Progress, ps: seq<Pass>)
    requires Sound(st.w) && Owned(cfg, st.w, st.ids)
    ensures var r := RunAll(cfg, st, ps);
            Owned(cfg, r.0.w, r.0.ids) && (r.1 == Finished ==> Linked(cfg, r.0.w, r.0.ids))
    decreases |ps|
  {
    if ps != [] {
      PassOwned(cfg, st, ps[0]);
      var r := RunPass(cfg, st, ps[0]);
      if r.1 == Retry { RunOwned(cfg, r.0, ps[1..]); }
    }
  }

  /**
   In every run of a fresh relayer, whatever its queries answer, a handshake that returns success
   leaves two ends bound to each other, both of which were open, with the requested attribute.
   */
  lemma {:induction false} FinishedMeansLinked(cfg: Config, w: World, ps: seq<Pass>)
    requires Sound(w) && RunAll(cfg, Start(w), ps).1 == Finished
    ensures var r := RunAll(cfg, Start(w), ps); Linked(cfg, r.0.w, r.0.ids)
  {
    RunOwned(cfg, Start(w), ps);
  }

  /** Both ends of a connection opened by a fresh relayer have the requested delay, which is bounded. */
  lemma OpenedConnectionDelay(cfg: Config, w: World, ps: seq<Pass>)
    requires Sound(w) && cfg.kind == Connections
    requires Create(cfg, w, ps).Some? && Create(cfg, w, ps).value.1 == Finished
    ensures var r := Create(cfg, w, ps).value.0;
            && Linked(cfg, r.w, r.ids)
            && Now(r.w.a, r.ids.a.value).attribute == Now(r.w.b, r.ids.b.value).attribute <= 120 * 1_000_000_000
  {
    RunOwned(cfg, Start(w), ps);
  }
}
