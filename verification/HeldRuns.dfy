/**
 What a fresh relayer holds and in which order its messages succeed, over runs with arbitrary answers.
 Each property holds exactly as long as no pass of the run is of one particular kind.
 */
module HeldRuns {
  import opened Ends
  import opened Driver
  import opened FreshRuns
  import opened Repeats

  // ---------------------------------------------------------------- the held ends

  /** Both held ends are denied and the Init sent in consequence goes through. */
  ghost predicate BreaksHeld(cfg: Config, st: Progress, p: Pass) {
    BothDenied(st, p) && st.ids.b.Some? && GoesThrough(cfg, st, p, Send(InitMsg, true))
  }

  /** Side b goes on answering side a exactly unless the pass replaces side a while side b is held. */
  lemma HeldExactly(cfg: Config, st: Progress, p: Pass)
    requires Sound(st.w) && Held(cfg, st.w, st.ids)
    ensures Sound(RunPass(cfg, st, p).0.w)
    ensures Held(cfg, RunPass(cfg, st, p).0.w, RunPass(cfg, st, p).0.ids) <==> !BreaksHeld(cfg, st, p)
  {
    ChosenExactly(cfg, st, p);
    ReportedExactly(cfg, st, p);
    PassLater(cfg, st, p);
    var c, r := Chosen(cfg, st, p), RunPass(cfg, st, p).0;
    if c.Send? && GoesThrough(cfg, st, p, c) {
      var w, ids := SendTime(cfg, st, p), Observe(cfg, st, p).0.ids;
      HeldLater(cfg, Observe(cfg, st, p).0.w, w, ids);
      HeldLater(cfg, w, r.w, ids);
    } else {
      HeldAfter(cfg, st, p);
    }
  }

  /** After every pass of the run, side a is the relayer's own end and side b, if set, answers it. */
  ghost predicate AlwaysHeld(cfg: Config, st: Progress, ps: seq<Pass>)
    decreases |ps|
  {
    ps != [] ==>
      var r := RunPass(cfg, st, ps[0]);
      Held(cfg, r.0.w, r.0.ids) && (r.1 == Retry ==> AlwaysHeld(cfg, r.0, ps[1..]))
  }

  /** Some pass of the run is of the kind `BreaksHeld`. */
  ghost predicate SomePassBreaks(cfg: Config, st: Progress, ps: seq<Pass>)
    decreases |ps|
  {
    ps != [] &&
    var r := RunPass(cfg, st, ps[0]);
    BreaksHeld(cfg, st, ps[0]) || (r.1 == Retry && SomePassBreaks(cfg, r.0, ps[1..]))
  }

  lemma {:induction false} RunHeldExactly(cfg: Config, st: Progress, ps: seq<Pass>)
    requires Sound(st.w) && Held(cfg, st.w, st.ids)
    ensures AlwaysHeld(cfg, st, ps) <==> !SomePassBreaks(cfg, st, ps)
    decreases |ps|
  {
    if ps != [] {
      HeldExactly(cfg, st, ps[0]);
      var r := RunPass(cfg, st, ps[0]);
      if r.1 == Retry && !BreaksHeld(cfg, st, ps[0]) { RunHeldExactly(cfg, r.0, ps[1..]); }
    }
  }

  /**
   In every run of a fresh relayer, with arbitrary answers: side a is always the end it created by
   Init, and side b unset or an end that answers it, if and only if no pass goes through with an Init
   after both held ends were denied.
   */
  lemma {:induction false} HeldInEveryRun(cfg: Config, w: World, ps: seq<Pass>)
    requires Sound(w)
    ensures AlwaysHeld(cfg, Start(w), ps) <==> !SomePassBreaks(cfg, Start(w), ps)
  {
    RunHeldExactly(cfg, Start(w), ps);
  }

  // ---------------------------------------------------------------- side a

  /** No pass of the run changes side a once it is set. */
  ghost predicate KeepsSideA(cfg: Config, st: Progress, ps: seq<Pass>)
    decreases |ps|
  {
    ps != [] ==>
      var r := RunPass(cfg, st, ps[0]);
      (st.ids.a.Some? ==> r.0.ids.a == st.ids.a) && (r.1 == Retry ==> KeepsSideA(cfg, r.0, ps[1..]))
  }

  /** Chain a denies the held end, none shows on side b, and chain a executes the new Init. */
  predicate ReplacesSideA(cfg: Config, st: Progress, p: Pass) {
    BothDenied(st, p) && p.delivery.Delivered? && p.newId !in SendTime(cfg, st, p).a
  }

  predicate SomePassReplaces(cfg: Config, st: Progress, ps: seq<Pass>)
    decreases |ps|
  {
    ps != [] &&
    var r := RunPass(cfg, st, ps[0]);
    ReplacesSideA(cfg, st, ps[0]) || (r.1 == Retry && SomePassReplaces(cfg, r.0, ps[1..]))
  }

  lemma {:induction false} RunKeepsSideA(cfg: Config, st: Progress, ps: seq<Pass>)
    requires Sound(st.w) && Held(cfg, st.w, st.ids)
    ensures KeepsSideA(cfg, st, ps) <==> !SomePassReplaces(cfg, st, ps)
    decreases |ps|
  {
    if ps != [] {
      HeldExactly(cfg, st, ps[0]);
      if st.ids.a.Some? { SideAChangesExactly(cfg, st, ps[0]); }
      var r := RunPass(cfg, st, ps[0]);
      if r.1 == Retry && !ReplacesSideA(cfg, st, ps[0]) { RunKeepsSideA(cfg, r.0, ps[1..]); }
    }
  }

  /**
   In every run of a fresh relayer, with arbitrary answers: side a, once set, is never changed if and
   only if chain a never executes an Init sent after both ends were denied.
   */
  lemma {:induction false} SideAIsStable(cfg: Config, w: World, ps: seq<Pass>)
    requires Sound(w)
    ensures KeepsSideA(cfg, Start(w), ps) <==> !SomePassReplaces(cfg, Start(w), ps)
  {
    RunKeepsSideA(cfg, Start(w), ps);
  }

  // ---------------------------------------------------------------- the order of messages

  /** Init, Try, Ack and Confirm, each at most once, in this order and to these sides. */
  ghost predicate InOrder(sent: seq<Choice>) { Staged(sent, 3) }

  /** The invariant of a run as long as its messages are in order. */
  ghost predicate Led(cfg: Config, st: Progress) {
    && Sound(st.w) && Held(cfg, st.w, st.ids) && Staged(st.sent, Reached(st.w, st.ids))
    && (st.ids.a.Some? ==> st.sent != [])
  }

  /** An Init goes through after both ends were denied, or a Try after more than an Init was reported. */
  ghost predicate OutOfOrder(cfg: Config, st: Progress, p: Pass) {
    || (BothDenied(st, p) && GoesThrough(cfg, st, p, Send(InitMsg, true)))
    || (&& AnswerDenied(cfg, st, p) && GoesThrough(cfg, st, p, Send(TryMsg, false))
        && exists c :: c in st.sent && Stage(c) > 0)
  }

  /** A pass that reports a message in order keeps the invariant. */
  lemma ReportLed(cfg: Config, st: Progress, p: Pass)
    requires Led(cfg, st) && !OutOfOrder(cfg, st, p)
    requires Chosen(cfg, st, p).Send? && GoesThrough(cfg, st, p, Chosen(cfg, st, p))
    ensures Staged(RunPass(cfg, st, p).0.sent, Reached(RunPass(cfg, st, p).0.w, RunPass(cfg, st, p).0.ids))
  {
    ChosenExactly(cfg, st, p);
    ReportedExactly(cfg, st, p);
    var c, o, r := Chosen(cfg, st, p), Observe(cfg, st, p).0, RunPass(cfg, st, p).0;
    if SendsAgain(cfg, st, p) {
      assert forall i :: 0 <= i < |st.sent| ==> st.sent[i] in st.sent && Stage(st.sent[i]) == 0;
      StagedNext(st.sent, 0, c, Reached(r.w, r.ids));
    } else {
      PassLater(cfg, st, p);
      ReachedObserved(cfg, st, p, SendTime(cfg, st, p));
      HeldLater(cfg, o.w, SendTime(cfg, st, p), o.ids);
      ExecutedStage(cfg, SendTime(cfg, st, p), r.w, o.ids, c, p.newId, BuildFor(cfg, o, c.msg, c.toA, p).value);
      StagedNext(st.sent, Reached(st.w, st.ids), c, Reached(r.w, r.ids));
    }
  }

  /** A pass keeps the invariant exactly as long as it reports nothing out of order. */
  lemma PassLed(cfg: Config, st: Progress, p: Pass)
    requires Led(cfg, st)
    ensures st.sent <= RunPass(cfg, st, p).0.sent
    ensures if OutOfOrder(cfg, st, p) then !InOrder(RunPass(cfg, st, p).0.sent) else Led(cfg, RunPass(cfg, st, p).0)
  {
    ChosenExactly(cfg, st, p);
    ReportedExactly(cfg, st, p);
    HeldExactly(cfg, st, p);
    var c, r := Chosen(cfg, st, p), RunPass(cfg, st, p).0;
    if OutOfOrder(cfg, st, p) {
      assert st.sent[0] in st.sent;
      var d :| d in st.sent && Stage(c) <= Stage(d);
      var i :| 0 <= i < |st.sent| && st.sent[i] == d;
      assert Stage(r.sent[i]) >= Stage(r.sent[|st.sent|]);
    } else if c.Send? && GoesThrough(cfg, st, p, c) {
      ReportLed(cfg, st, p);
    } else {
      PassLater(cfg, st, p);
      ReachedObserved(cfg, st, p, r.w);
    }
  }

  ghost predicate SomePassOutOfOrder(cfg: Config, st: Progress, ps: seq<Pass>)
    decreases |ps|
  {
    ps != [] &&
    var r := RunPass(cfg, st, ps[0]);
    OutOfOrder(cfg, st, ps[0]) || (r.1 == Retry && SomePassOutOfOrder(cfg, r.0, ps[1..]))
  }

  lemma {:induction false} RunInOrderExactly(cfg: Config, st: Progress, ps: seq<Pass>)
    requires Led(cfg, st)
    ensures InOrder(RunAll(cfg, st, ps).0.sent) <==> !SomePassOutOfOrder(cfg, st, ps)
    decreases |ps|
  {
    if ps != [] {
      PassLed(cfg, st, ps[0]);
      var r := RunPass(cfg, st, ps[0]);
      if r.1 == Retry {
        if OutOfOrder(cfg, st, ps[0]) {
          SentGrows(cfg, r.0, ps[1..]);
          PrefixInOrder(r.0.sent, RunAll(cfg, st, ps).0.sent);
        } else {
          RunInOrderExactly(cfg, r.0, ps[1..]);
        }
      }
    }
  }

  lemma PrefixInOrder(sent: seq<Choice>, longer: seq<Choice>)
    requires sent <= longer
    ensures InOrder(longer) ==> InOrder(sent)
  {
    if !InOrder(longer) { return; }
    forall i | 0 <= i < |sent|
      ensures Stage(sent[i]) <= 3
    {
      assert sent[i] == longer[i];
    }
    forall i, j | 0 <= i < j < |sent|
      ensures Stage(sent[i]) < Stage(sent[j])
    {
      assert sent[i] == longer[i] && sent[j] == longer[j];
    }
  }

  /**
   In every run of a fresh relayer, with arbitrary answers: at most one Init, one Try, one Ack and one
   Confirm succeed, in this order and each to its side, if and only if no pass goes through with an
   Init after both ends were denied, or with a Try after side b was denied and more than Init sent.
   */
  lemma {:induction false} MessagesInOrderExactly(cfg: Config, w: World, ps: seq<Pass>)
    requires Sound(w)
    ensures InOrder(RunAll(cfg, Start(w), ps).0.sent) <==> !SomePassOutOfOrder(cfg, Start(w), ps)
    ensures InOrder(RunAll(cfg, Start(w), ps).0.sent) ==> |RunAll(cfg, Start(w), ps).0.sent| <= 4
  {
    RunInOrderExactly(cfg, Start(w), ps);
    if InOrder(RunAll(cfg, Start(w), ps).0.sent) { StageGrows(RunAll(cfg, Start(w), ps).0.sent, 3); }
  }
}
