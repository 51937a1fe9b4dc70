/**
 Which messages a fresh relayer repeats when an answer denies that an end exists. The runs are
 arbitrary; the conditions are exact, for one pass and for whole runs.
 */
module Repeats {
  import opened Options
  import opened Ends
  import opened Driver
  import opened Safety
  import opened FreshRuns

  // ---------------------------------------------------------------- one pass

  /** The answer of chain a in a pass. */
  function AnswerA(cfg: Config, st: Progress, p: Pass): Reply<End> {
    QueryHeld(ExecAll(cfg.kind, st.w, p.beforeA).a, st.ids.a, p.readA)
  }

  /** The chains when a pass that builds a message submits it. */
  function SendTime(cfg: Config, st: Progress, p: Pass): World {
    ExecAll(cfg.kind, ProofTime(cfg, Observe(cfg, st, p).0.w, p), p.beforeSend)
  }

  /** The message a pass chooses is built, accepted by the chain and reported back. */
  ghost predicate GoesThrough(cfg: Config, st: Progress, p: Pass, c: Choice)
    requires c.Send?
  {
    var built := BuildFor(cfg, Observe(cfg, st, p).0, c.msg, c.toA, p);
    built.Ok? && p.delivery.Delivered? && AcceptedBy(cfg, SendTime(cfg, st, p), c, p.newId, built.value)
  }

  /** Chain a denies the end held for side a and no end shows on side b. */
  predicate BothDenied(st: Progress, p: Pass) {
    st.ids.a.Some? && p.readA.Unavailable? && (st.ids.b.None? || p.readB.Unavailable?)
  }

  /** Chain a shows the held end at Init and chain b denies the end held for side b. */
  predicate AnswerDenied(cfg: Config, st: Progress, p: Pass) {
    && st.ids.a.Some? && st.ids.b.Some? && p.readB.Unavailable?
    && AnswerA(cfg, st, p).Ok? && AnswerA(cfg, st, p).value.state == Init
  }

  /** The message of a pass, if it chooses one. */
  function Chosen(cfg: Config, st: Progress, p: Pass): Choice {
    var o := Observe(cfg, st, p).1;
    if o.States? then Choose(o.a, o.b) else Unhandled
  }

  /** What any pass leaves of the identifiers while side b, if held, answers side a. */
  lemma ObservedHeld(cfg: Config, st: Progress, p: Pass)
    requires Sound(st.w) && Held(cfg, st.w, st.ids)
    ensures var o := Observe(cfg, st, p);
            && Later(st.w, o.0.w) && Held(cfg, o.0.w, o.0.ids) && o.0.ids.a == st.ids.a && o.0.sent == st.sent
            && o.1 != Mismatch && (st.ids.b.Some? ==> o.0.ids.b.Some?)
  {
    var w1, w2 := ObserveLater(cfg, st, p);
    HeldLater(cfg, st.w, w1, st.ids);
    HeldLater(cfg, st.w, w2, st.ids);
    if st.ids.a.Some? && AnswerA(cfg, st, p).Ok? {
      var aEnd := AnswerA(cfg, st, p).value;
      AnswerTells(w1.a, w1.b, st.ids.a, p.readA);
      TellsLater(w1.a, w1.b, w2.a, w2.b, st.ids.a, aEnd);
      var b := AdoptB(st.ids, aEnd);
      if QueryHeld(w2.b, b, p.readB).Ok? { AnswerTells(w2.b, w2.a, b, p.readB); }
    }
  }

  /** The state an answer shows of the end held for a side. */
  lemma StateShown(c: Chain, d: Chain, id: Id, r: Read, born: State)
    requires Bound(c, d) && id in c && c[id] != [] && c[id][0].state == born && Query(c, id, r).Ok?
    ensures var e := Query(c, id, r).value;
            if r.Unavailable? then e == DEFAULT_END
            else
              && (e.state == born || e.state == Open || e.state == Closed)
              && (e.state == Init ==> e.counterparty.None?)
              && (born == TryOpen ==> e.counterparty == c[id][0].counterparty)
  {
    assert EndBound(c, d, id);
  }

  /** What any pass chooses while side b, if held, answers side a. */
  lemma ChosenExactly(cfg: Config, st: Progress, p: Pass)
    requires Sound(st.w) && Held(cfg, st.w, st.ids)
    ensures var o := Observe(cfg, st, p);
            var c := Chosen(cfg, st, p);
            && Later(st.w, o.0.w) && Held(cfg, o.0.w, o.0.ids) && o.0.ids.a == st.ids.a && o.0.sent == st.sent
            && o.1 != Mismatch && (st.ids.b.Some? ==> o.0.ids.b.Some?) && (c.Send? ==> Stage(c) < 4)
            && (c == Send(InitMsg, true) <==> st.ids.a.None? || BothDenied(st, p))
            && (c == Send(TryMsg, false) <==>
                  || AnswerDenied(cfg, st, p)
                  || (st.ids.a.Some? && st.ids.b.None? && AnswerA(cfg, st, p).Ok?
                      && AnswerA(cfg, st, p).value.state == Init))
            && (c == Send(TryMsg, false) ==> o.0.ids == st.ids)
            && (c.Send? && c.msg != InitMsg ==> st.ids.a.Some?)
            && (c == Send(AckMsg, true) || c == Send(ConfirmMsg, false) ==> o.0.ids.b.Some?)
  {
    ObservedHeld(cfg, st, p);
    var w1, w2 := ObserveLater(cfg, st, p);
    if st.ids.a.Some? && AnswerA(cfg, st, p).Ok? {
      InitBornLater(st.w.a, w1.a, st.ids.a.value);
      StateShown(w1.a, w1.b, st.ids.a.value, p.readA, Init);
      var b := AdoptB(st.ids, AnswerA(cfg, st, p).value);
      if b.Some? && Query(w2.b, b.value, p.readB).Ok? {
        StateShown(w2.b, w2.a, b.value, p.readB, TryOpen);
      }
    }
  }

  /** A pass reports a message exactly when the one it chooses goes through. */
  lemma ReportedExactly(cfg: Config, st: Progress, p: Pass)
    requires Sound(st.w) && Held(cfg, st.w, st.ids)
    ensures var c := Chosen(cfg, st, p);
            var r := RunPass(cfg, st, p).0;
            if c.Send? && GoesThrough(cfg, st, p, c) then
              && r.sent == st.sent + [c] && r.ids == AfterSend(Observe(cfg, st, p).0.ids, c.msg, c.toA, p.newId)
              && r.w == Exec(cfg.kind, SendTime(cfg, st, p),
                             Step(c.toA, p.newId, BuildFor(cfg, Observe(cfg, st, p).0, c.msg, c.toA, p).value))
            else r.sent == st.sent && r.ids == Observe(cfg, st, p).0.ids
  {}

  /** The moments inside a pass follow each other. */
  lemma MomentsLater(cfg: Config, st: Progress, p: Pass)
    requires Sound(st.w)
    ensures var w2 := Observe(cfg, st, p).0.w;
            && Later(st.w, w2) && Later(w2, ProofTime(cfg, w2, p)) && Later(ProofTime(cfg, w2, p), SendTime(cfg, st, p))
            && Later(w2, SendTime(cfg, st, p)) && Later(st.w, SendTime(cfg, st, p))
  {
    var w1, w2 := ObserveLater(cfg, st, p);
    var w4 := ProofTime(cfg, w2, p);
    BuildLater(cfg, w2, p);
    ExecAllLater(cfg.kind, w4, p.beforeSend);
    LaterTransitive(w2, w4, SendTime(cfg, st, p));
    LaterTransitive(st.w, w2, SendTime(cfg, st, p));
  }

  /** A pass ends at one of its moments, or right after its message was executed. */
  lemma PassEnds(cfg: Config, st: Progress, p: Pass)
    ensures var w2, w' := Observe(cfg, st, p).0.w, RunPass(cfg, st, p).0.w;
            var c := Chosen(cfg, st, p);
            || w' == w2 || w' == ProofTime(cfg, w2, p) || w' == SendTime(cfg, st, p)
            || (&& c.Send? && BuildFor(cfg, Observe(cfg, st, p).0, c.msg, c.toA, p).Ok?
                && w' == Exec(cfg.kind, SendTime(cfg, st, p),
                              Step(c.toA, p.newId, BuildFor(cfg, Observe(cfg, st, p).0, c.msg, c.toA, p).value)))
  {}

  /** A pass leads to a later world, and so do the moments inside it. */
  lemma PassLater(cfg: Config, st: Progress, p: Pass)
    requires Sound(st.w)
    ensures var w2 := Observe(cfg, st, p).0.w;
            Later(st.w, w2) && Later(w2, SendTime(cfg, st, p)) && Later(st.w, SendTime(cfg, st, p))
    ensures Later(Observe(cfg, st, p).0.w, RunPass(cfg, st, p).0.w)
    ensures Chosen(cfg, st, p).Send? && GoesThrough(cfg, st, p, Chosen(cfg, st, p)) ==>
              Later(SendTime(cfg, st, p), RunPass(cfg, st, p).0.w)
    ensures Later(st.w, RunPass(cfg, st, p).0.w)
  {
    MomentsLater(cfg, st, p);
    PassEnds(cfg, st, p);
    var w2, w, c := Observe(cfg, st, p).0.w, SendTime(cfg, st, p), Chosen(cfg, st, p);
    if c.Send? && BuildFor(cfg, Observe(cfg, st, p).0, c.msg, c.toA, p).Ok? {
      var step := Step(c.toA, p.newId, BuildFor(cfg, Observe(cfg, st, p).0, c.msg, c.toA, p).value);
      ExecLater(cfg.kind, w, step);
      LaterTransitive(w2, w, Exec(cfg.kind, w, step));
    }
    LaterTransitive(st.w, w2, RunPass(cfg, st, p).0.w);
  }

  /** A pass changes the end held for side a exactly when both ends are denied and the Init goes through. */
  lemma SideAChangesExactly(cfg: Config, st: Progress, p: Pass)
    requires Sound(st.w) && Held(cfg, st.w, st.ids) && st.ids.a.Some?
    ensures RunPass(cfg, st, p).0.ids.a != st.ids.a
            <==> BothDenied(st, p) && p.delivery.Delivered? && p.newId !in SendTime(cfg, st, p).a
  {
    ChosenExactly(cfg, st, p);
    ReportedExactly(cfg, st, p);
    PassLater(cfg, st, p);
    InitBornLater(st.w.a, SendTime(cfg, st, p).a, st.ids.a.value);
  }

  /** The pass sends Init although side a is held, or Try although side b is held, and it goes through. */
  ghost predicate SendsAgain(cfg: Config, st: Progress, p: Pass) {
    || (BothDenied(st, p) && GoesThrough(cfg, st, p, Send(InitMsg, true)))
    || (AnswerDenied(cfg, st, p) && GoesThrough(cfg, st, p, Send(TryMsg, false)))
  }

  /** The stage visible with the identifiers a pass ends up with is no earlier than before, then and later. */
  lemma ReachedObserved(cfg: Config, st: Progress, p: Pass, w': World)
    requires Sound(st.w) && Held(cfg, st.w, st.ids) && Later(Observe(cfg, st, p).0.w, w')
    ensures Reached(st.w, st.ids) <= Reached(w', Observe(cfg, st, p).0.ids)
  {
    var w1, w2 := ObserveLater(cfg, st, p);
    LaterTransitive(w1, w2, w');
    HeldLater(cfg, st.w, w1, st.ids);
    ReachedLater(cfg, st.w, w1, st.ids);
    ChosenExactly(cfg, st, p);
    if AnswerA(cfg, st, p).Ok? && !(st.ids.a.Some? && p.readA.Unavailable?) {
      AdoptedB(cfg, w1, st.ids, AnswerA(cfg, st, p).value);
    }
    ReachedLater(cfg, w1, w', Observe(cfg, st, p).0.ids);
  }

  /**
   With arbitrary answers, a pass reports a message of a stage already reached exactly when it sends
   Init or Try again after a denial.
   */
  lemma StageRepeatsExactly(cfg: Config, st: Progress, p: Pass)
    requires Sound(st.w) && Held(cfg, st.w, st.ids)
    ensures var r := RunPass(cfg, st, p).0;
            (|r.sent| > |st.sent| && Stage(r.sent[|st.sent|]) <= Reached(st.w, st.ids)) <==> SendsAgain(cfg, st, p)
  {
    ChosenExactly(cfg, st, p);
    ReportedExactly(cfg, st, p);
    var c := Chosen(cfg, st, p);
    if c.Send? && GoesThrough(cfg, st, p, c) && !SendsAgain(cfg, st, p) {
      PassLater(cfg, st, p);
      ReachedObserved(cfg, st, p, SendTime(cfg, st, p));
      var ids := Observe(cfg, st, p).0.ids;
      HeldLater(cfg, Observe(cfg, st, p).0.w, SendTime(cfg, st, p), ids);
      ExecutedStage(cfg, SendTime(cfg, st, p), RunPass(cfg, st, p).0.w, ids, c, p.newId,
                    BuildFor(cfg, Observe(cfg, st, p).0, c.msg, c.toA, p).value);
    }
  }

  // ---------------------------------------------------------------- whole runs

  /** No message was reported twice. */
  ghost predicate Once(sent: seq<Choice>) {
    forall i, j :: 0 <= i < j < |sent| ==> sent[i] != sent[j]
  }

  /** The end bound to `x` is past TryOpen. */
  ghost predicate Confirmed(w: World, x: Id) {
    && x in w.a && w.a[x] != [] && Now(w.a, x).counterparty.Some?
    && Now(w.a, x).counterparty.value in w.b && w.b[Now(w.a, x).counterparty.value] != []
    && Now(w.b, Now(w.a, x).counterparty.value).state != TryOpen
  }

  /** What the reported messages tell about the identifiers and the chains. */
  ghost predicate Marked(w: World, ids: Ids, sent: seq<Choice>) {
    && (ids.a.Some? <==> Send(InitMsg, true) in sent)
    && (Send(TryMsg, false) in sent ==> ids.b.Some?)
    && (Send(AckMsg, true) in sent ==>
          ids.a.Some? && ids.a.value in w.a && w.a[ids.a.value] != [] && Now(w.a, ids.a.value).state != Init)
    && (Send(ConfirmMsg, false) in sent ==> ids.a.Some? && Confirmed(w, ids.a.value))
  }

  /** The invariant of a run as long as it repeats nothing. */
  ghost predicate Counted(cfg: Config, st: Progress) {
    && Sound(st.w) && Held(cfg, st.w, st.ids) && Marked(st.w, st.ids, st.sent) && Once(st.sent)
    && (forall c :: c in st.sent ==> Stage(c) < 4)
  }

  lemma MarkedLater(w: World, w': World, ids: Ids, ids': Ids, sent: seq<Choice>)
    requires Sound(w) && Later(w, w') && Marked(w, ids, sent) && ids'.a == ids.a && (ids.b.Some? ==> ids'.b.Some?)
    requires ids.a.Some? ==> InitBorn(w.a, ids.a.value)
    ensures Marked(w', ids', sent)
  {
    if ids.a.Some? {
      var x := ids.a.value;
      assert EndBound(w.a, w.b, x) && EndGrows(w.a, w'.a, x) && EndBound(w'.a, w'.b, x);
      if Confirmed(w, x) {
        var y := Now(w.a, x).counterparty.value;
        assert EndBound(w.b, w.a, y) && EndGrows(w.b, w'.b, y) && EndBound(w'.b, w'.a, y);
      }
    }
  }

  /** An accepted message was not marked before and is after. */
  lemma AcceptedMarks(cfg: Config, w: World, w': World, ids: Ids, sent: seq<Choice>, c: Choice, newId: Id, d: Datagram)
    requires Sound(w) && Sound(w') && Later(w, w') && Held(cfg, w, ids) && Marked(w, ids, sent)
    requires c.Send? && Stage(c) < 4
    requires w' == Exec(cfg.kind, w, Step(c.toA, newId, d)) && AcceptedBy(cfg, w, c, newId, d)
    requires c.msg == InitMsg ==> d == BuildInit(cfg.Flipped()) && ids.a.None?
    requires c.msg == TryMsg ==> d.OpenTry? && Some(d.source) == ids.a
    requires c.msg == AckMsg ==> d.OpenAck? && Some(d.target) == ids.a && Some(d.source) == ids.b
    requires c.msg == ConfirmMsg ==> d.OpenConfirm? && Some(d.target) == ids.b && ids.a.Some?
    ensures c.msg != TryMsg ==> c !in sent
    ensures var ids' := AfterSend(ids, c.msg, c.toA, newId); Held(cfg, w', ids') && Marked(w', ids', sent + [c])
  {
    var ids' := AfterSend(ids, c.msg, c.toA, newId);
    HeldLater(cfg, w, w', ids);
    if ids.a.Some? {
      MarkedLater(w, w', ids, ids', sent);
      assert EndBound(w.a, w.b, ids.a.value) && EndBound(w'.a, w'.b, ids.a.value);
    }
    match c.msg
    case InitMsg =>
    case TryMsg =>
    case AckMsg =>
      assert w'.a == Update(w.a, ids.a.value, Open, ids.b);
    case ConfirmMsg =>
      var y := ids.b.value;
      assert w'.b == Update(w.b, y, Open, Now(w.b, y).counterparty);
      assert EndBound(w.b, w.a, y) && EndBound(w'.b, w'.a, y);
      assert Now(w'.b, y).state == Open;
  }

  /** The pass reports a message that was reported before. */
  ghost predicate ReportsTwice(cfg: Config, st: Progress, p: Pass) {
    || (BothDenied(st, p) && GoesThrough(cfg, st, p, Send(InitMsg, true)))
    || (AnswerDenied(cfg, st, p) && GoesThrough(cfg, st, p, Send(TryMsg, false)) && Send(TryMsg, false) in st.sent)
  }

  /** A pass keeps the invariant unless it reports a message twice. */
  lemma PassCounted(cfg: Config, st: Progress, p: Pass)
    requires Counted(cfg, st)
    ensures st.sent <= RunPass(cfg, st, p).0.sent
    ensures if ReportsTwice(cfg, st, p) then !Once(RunPass(cfg, st, p).0.sent) else Counted(cfg, RunPass(cfg, st, p).0)
  {
    ChosenExactly(cfg, st, p);
    ReportedExactly(cfg, st, p);
    var c := Chosen(cfg, st, p);
    if c.Send? && GoesThrough(cfg, st, p, c) {
      ReportCounted(cfg, st, p);
    } else {
      PassLater(cfg, st, p);
      MarkedLater(st.w, RunPass(cfg, st, p).0.w, st.ids, Observe(cfg, st, p).0.ids, st.sent);
      HeldAfter(cfg, st, p);
    }
  }

  lemma ReportCounted(cfg: Config, st: Progress, p: Pass)
    requires Counted(cfg, st) && Chosen(cfg, st, p).Send? && GoesThrough(cfg, st, p, Chosen(cfg, st, p))
    ensures if ReportsTwice(cfg, st, p) then !Once(RunPass(cfg, st, p).0.sent) else Counted(cfg, RunPass(cfg, st, p).0)
  {
    ChosenExactly(cfg, st, p);
    ReportedExactly(cfg, st, p);
    PassLater(cfg, st, p);
    var c, ids, r := Chosen(cfg, st, p), Observe(cfg, st, p).0.ids, RunPass(cfg, st, p).0;
    var w := SendTime(cfg, st, p);
    HeldLater(cfg, Observe(cfg, st, p).0.w, w, ids);
    MarkedLater(st.w, w, st.ids, ids, st.sent);
    if ReportsTwice(cfg, st, p) {
      var i :| 0 <= i < |st.sent| && st.sent[i] == c;
      assert r.sent[i] == r.sent[|st.sent|];
    } else {
      AcceptedMarks(cfg, w, r.w, ids, st.sent, c, p.newId,
                    BuildFor(cfg, Observe(cfg, st, p).0, c.msg, c.toA, p).value);
    }
  }

  lemma HeldAfter(cfg: Config, st: Progress, p: Pass)
    requires Sound(st.w) && Held(cfg, st.w, st.ids)
    requires !(Chosen(cfg, st, p).Send? && GoesThrough(cfg, st, p, Chosen(cfg, st, p)))
    ensures Held(cfg, RunPass(cfg, st, p).0.w, RunPass(cfg, st, p).0.ids)
  {
    ChosenExactly(cfg, st, p);
    ReportedExactly(cfg, st, p);
    var o, c := Observe(cfg, st, p).0, Chosen(cfg, st, p);
    if c.Send? {
      BuildLater(cfg, o.w, p);
      var w4 := ProofTime(cfg, o.w, p);
      HeldLater(cfg, o.w, w4, o.ids);
      var built := BuildFor(cfg, o, c.msg, c.toA, p);
      if built.Ok? {
        var w, w' := SubmitLater(cfg, w4, c.toA, built.value, p);
        HeldLater(cfg, w4, w, o.ids);
        HeldLater(cfg, w4, w', o.ids);
      }
    }
  }

  /** Some pass of the run reports a message twice. */
  ghost predicate SomePassRepeats(cfg: Config, st: Progress, ps: seq<Pass>)
    decreases |ps|
  {
    ps != [] &&
    (ReportsTwice(cfg, st, ps[0])
     || (RunPass(cfg, st, ps[0]).1 == Retry && SomePassRepeats(cfg, RunPass(cfg, st, ps[0]).0, ps[1..])))
  }

  lemma PassSentGrows(cfg: Config, st: Progress, p: Pass)
    ensures st.sent <= RunPass(cfg, st, p).0.sent
  {}

  lemma {:induction false} SentGrows(cfg: Config, st: Progress, ps: seq<Pass>)
    ensures st.sent <= RunAll(cfg, st, ps).0.sent
    decreases |ps|
  {
    if ps != [] {
      PassSentGrows(cfg, st, ps[0]);
      var r := RunPass(cfg, st, ps[0]);
      if r.1 == Retry { SentGrows(cfg, r.0, ps[1..]); }
    }
  }

  lemma {:induction false} RunOnceExactly(cfg: Config, st: Progress, ps: seq<Pass>)
    requires Counted(cfg, st)
    ensures Once(RunAll(cfg, st, ps).0.sent) <==> !SomePassRepeats(cfg, st, ps)
    decreases |ps|
  {
    if ps != [] {
      PassCounted(cfg, st, ps[0]);
      var r := RunPass(cfg, st, ps[0]);
      if r.1 == Retry {
        if ReportsTwice(cfg, st, ps[0]) {
          SentGrows(cfg, r.0, ps[1..]);
          var i, j :| 0 <= i < j < |r.0.sent| && r.0.sent[i] == r.0.sent[j];
          assert RunAll(cfg, st, ps).0.sent[i] == RunAll(cfg, st, ps).0.sent[j];
        } else {
          RunOnceExactly(cfg, r.0, ps[1..]);
        }
      }
    }
  }

  /**
   In every run of a fresh relayer, with arbitrary answers, every message is reported at most once if
   and only if no pass goes through with an Init after both ends were denied, or with a further Try
   after the end held for side b was denied.
   */
  lemma {:induction false} EachMessageOnceExactly(cfg: Config, w: World, ps: seq<Pass>)
    requires Sound(w)
    ensures Once(RunAll(cfg, Start(w), ps).0.sent) <==> !SomePassRepeats(cfg, Start(w), ps)
  {
    RunOnceExactly(cfg, Start(w), ps);
  }
}
