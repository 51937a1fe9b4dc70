/**
 What a fresh relayer may hold, the stages of the handshake it runs, and how the messages that the
 chains accept move from one stage to the next.
 */
module FreshRuns {
  import opened Options
  import opened Ends
  import opened Driver
  import opened Safety

  /** The end the driver creates on side a. */
  function InitEnd(cfg: Config): End { BuildInit(cfg.Flipped()).end }

  /** Side a is the end this relayer created; side b, if set, answers it. */
  ghost predicate Held(cfg: Config, w: World, ids: Ids) {
    && (ids.a.None? ==> ids.b.None?)
    && (ids.a.Some? ==> InitBorn(w.a, ids.a.value) && w.a[ids.a.value][0] == InitEnd(cfg))
    && (ids.a.Some? && ids.b.Some? ==> TryBorn(w.b, ids.b.value, ids.a.value))
  }

  lemma HeldLater(cfg: Config, w: World, w': World, ids: Ids)
    requires Held(cfg, w, ids) && Later(w, w')
    ensures Held(cfg, w', ids)
  {
    if ids.a.Some? {
      InitBornLater(w.a, w'.a, ids.a.value);
      if ids.b.Some? { TryBornLater(w.b, w'.b, ids.b.value, ids.a.value); }
    }
  }

  // ---------------------------------------------------------------- stages of the handshake

  /** The place of a message in the opening handshake this driver runs. */
  function Stage(c: Choice): nat {
    if c == Send(InitMsg, true) then 0
    else if c == Send(TryMsg, false) then 1
    else if c == Send(AckMsg, true) then 2
    else if c == Send(ConfirmMsg, false) then 3
    else 4
  }

  /** The last stage whose effect is visible in the held identifiers and the chains. */
  ghost function Reached(w: World, ids: Ids): int {
    if ids.a.None? then -1
    else if ids.b.None? then 0
    else if !(ids.a.value in w.a && w.a[ids.a.value] != [] && Now(w.a, ids.a.value).state != Init) then 1
    else if && Now(w.a, ids.a.value).counterparty == ids.b
            && ids.b.value in w.b && w.b[ids.b.value] != [] && Now(w.b, ids.b.value).state != TryOpen then 3
    else 2
  }

  /** A stage reached stays reached. */
  lemma ReachedLater(cfg: Config, w: World, w': World, ids: Ids)
    requires Sound(w) && Later(w, w') && Held(cfg, w, ids)
    ensures Reached(w, ids) <= Reached(w', ids)
  {
    if ids.a.Some? && ids.b.Some? {
      var x, y := ids.a.value, ids.b.value;
      assert EndBound(w.a, w.b, x) && EndGrows(w.a, w'.a, x);
      assert EndBound(w.b, w.a, y) && EndGrows(w.b, w'.b, y);
      assert EndBound(w'.a, w'.b, x) && EndBound(w'.b, w'.a, y);
    }
  }

  /** The messages sent follow the order of the stages, without repetition, up to stage `n`. */
  ghost predicate Staged(sent: seq<Choice>, n: int) {
    && (forall i :: 0 <= i < |sent| ==> Stage(sent[i]) <= n && Stage(sent[i]) < 4)
    && (forall i, j :: 0 <= i < j < |sent| ==> Stage(sent[i]) < Stage(sent[j]))
  }

  /** The identifier taken over from an answer of chain a names the end now bound to side a. */
  lemma AdoptedB(cfg: Config, w: World, ids: Ids, aEnd: End)
    requires Sound(w) && Held(cfg, w, ids)
    requires if ids.a.None? then aEnd == DEFAULT_END else Proves(w.a, ids.a.value, aEnd)
    ensures Held(cfg, w, Ids(ids.a, AdoptB(ids, aEnd)))
    ensures Reached(w, ids) <= Reached(w, Ids(ids.a, AdoptB(ids, aEnd)))
    ensures aEnd.counterparty.Some? ==> AdoptB(ids, aEnd) == aEnd.counterparty
  {
    if ids.a.Some? { assert EndBound(w.a, w.b, ids.a.value); }
  }

  /** The datagram built for a choice speaks of the held ends. */
  ghost predicate Fits(cfg: Config, ids: Ids, c: Choice, d: Datagram)
    requires c.Send?
  {
    && Stage(c) < 4
    && (c.msg == InitMsg ==> d == BuildInit(cfg.Flipped()) && ids.a.None?)
    && (c.msg == TryMsg ==> d.OpenTry? && Some(d.source) == ids.a && ids.b.None?)
    && (c.msg == AckMsg ==> d.OpenAck? && Some(d.target) == ids.a && Some(d.source) == ids.b)
    && (c.msg == ConfirmMsg ==> d.OpenConfirm? && Some(d.target) == ids.b && ids.a.Some?)
  }

  ghost predicate AcceptedBy(cfg: Config, w: World, c: Choice, newId: Id, d: Datagram)
    requires c.Send?
  {
    if c.toA then Accepts(cfg.kind, w.a, w.b, newId, d) else Accepts(cfg.kind, w.b, w.a, newId, d)
  }

  /** The chains show the stage of a message right after it was executed, and not before. */
  lemma ExecutedStage(cfg: Config, w: World, w': World, ids: Ids, c: Choice, newId: Id, d: Datagram)
    requires Sound(w) && Sound(w') && Held(cfg, w, ids) && c.Send? && Fits(cfg, ids, c, d)
    requires w' == Exec(cfg.kind, w, Step(c.toA, newId, d)) && AcceptedBy(cfg, w, c, newId, d)
    ensures Reached(w, ids) < Stage(c) <= Reached(w', AfterSend(ids, c.msg, c.toA, newId))
    ensures Held(cfg, w', AfterSend(ids, c.msg, c.toA, newId))
  {
    match c.msg
    case InitMsg =>
    case TryMsg =>
    case AckMsg =>
      assert w'.a == Update(w.a, ids.a.value, Open, ids.b);
    case ConfirmMsg =>
      var y := ids.b.value;
      assert w'.b == Update(w.b, y, Open, Now(w.b, y).counterparty);
      assert EndBound(w.b, w.a, y) && EndBound(w'.b, w'.a, y) && EndBound(w.a, w.b, ids.a.value);
      assert w'.b[y][|w'.b[y]| - 1].state == Open;
  }

  lemma {:induction false} StageGrows(sent: seq<Choice>, n: int)
    requires Staged(sent, n)
    ensures |sent| <= 4 && (sent != [] ==> |sent| <= Stage(sent[|sent| - 1]) + 1)
  {
    if sent != [] {
      var init := sent[..|sent| - 1];
      StageGrows(init, n);
      if init != [] { assert Stage(sent[|init| - 1]) < Stage(sent[|init|]); }
      assert Stage(sent[|sent| - 1]) < 4;
    }
  }

  lemma StagedNext(sent: seq<Choice>, m: int, c: Choice, n: int)
    requires Staged(sent, m) && m < Stage(c) <= n && Stage(c) < 4
    ensures Staged(sent + [c], n)
  {}
}
