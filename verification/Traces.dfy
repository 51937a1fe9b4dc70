/**
 The active driver against the workers: every run of a fresh driver is matched by a run of the workers
 that reaches the same chains and sends the same messages after Init.
 */
module Traces {
  import opened Options
  import opened Ends
  import opened Driver
  import opened Safety
  import opened FreshRuns
  import opened Repeats
  import opened HeldRuns
  import opened Workers

  /** The messages after Init. */
  function PostInit(sent: seq<Choice>): seq<Choice> {
    if sent == [] then []
    else
      var last := sent[|sent| - 1];
      PostInit(sent[..|sent| - 1]) + if last == Send(InitMsg, true) then [] else [last]
  }

  // ---------------------------------------------------------------- composing runs

  lemma {:induction false} ExecConcat(kind: Kind, w: World, first: seq<Step>, second: seq<Step>)
    ensures ExecAll(kind, w, first + second) == ExecAll(kind, ExecAll(kind, w, first), second)
    decreases |first|
  {
    if first == [] {
      assert first + second == second;
    } else {
      assert (first + second)[1..] == first[1..] + second;
      ExecConcat(kind, Exec(kind, w, first[0]), first[1..], second);
    }
  }

  lemma {:induction false} LegalConcat(kind: Kind, s: System, first: seq<Action>, second: seq<Action>)
    requires LegalRun(kind, s, first) && LegalRun(kind, ActAll(kind, s, first), second)
    ensures LegalRun(kind, s, first + second)
    ensures ActAll(kind, s, first + second) == ActAll(kind, ActAll(kind, s, first), second)
    decreases |first|
  {
    if first == [] {
      assert first + second == second;
    } else {
      var all := first + second;
      assert all[0] == first[0] && all[1..] == first[1..] + second;
      LegalConcat(kind, Act(kind, s, first[0]), first[1..], second);
    }
  }

  /** Datagrams of others are a run of the system in which no worker acts. */
  lemma {:induction false} OthersRun(kind: Kind, s: System, steps: seq<Step>) returns (acts: seq<Action>)
    ensures LegalRun(kind, s, acts) && ActAll(kind, s, acts) == s.(w := ExecAll(kind, s.w, steps))
    decreases |steps|
  {
    if steps == [] {
      acts := [];
    } else {
      var rest := OthersRun(kind, Act(kind, s, Others(steps[0])), steps[1..]);
      acts := [Others(steps[0])] + rest;
      assert acts[1..] == rest;
    }
  }

  // ---------------------------------------------------------------- one pass as datagrams

  function ToSend(p: Pass): seq<Step> { p.beforeCheck + p.beforeProof + p.beforeSend }

  /** The moments of a pass, reached by datagrams. */
  lemma SendSteps(cfg: Config, st: Progress, p: Pass)
    ensures Observe(cfg, st, p).0.w == ExecAll(cfg.kind, st.w, p.beforeA + p.beforeB)
    ensures SendTime(cfg, st, p) == ExecAll(cfg.kind, Observe(cfg, st, p).0.w, ToSend(p))
  {
    ExecConcat(cfg.kind, st.w, p.beforeA, p.beforeB);
    var w2 := Observe(cfg, st, p).0.w;
    ExecConcat(cfg.kind, w2, p.beforeCheck, p.beforeProof);
    ExecConcat(cfg.kind, w2, p.beforeCheck + p.beforeProof, p.beforeSend);
  }

  /** The chains after any pass are reached by datagrams. */
  lemma PassSteps(cfg: Config, st: Progress, p: Pass) returns (steps: seq<Step>)
    ensures RunPass(cfg, st, p).0.w == ExecAll(cfg.kind, st.w, steps)
  {
    SendSteps(cfg, st, p);
    var o, c := Observe(cfg, st, p).0, Chosen(cfg, st, p);
    steps := p.beforeA + p.beforeB;
    if c.Send? {
      var built := BuildFor(cfg, o, c.msg, c.toA, p);
      if built.Err? {
        ExecConcat(cfg.kind, o.w, p.beforeCheck, p.beforeProof);
        ExecConcat(cfg.kind, st.w, steps, p.beforeCheck + p.beforeProof);
        steps := steps + (p.beforeCheck + p.beforeProof);
      } else {
        var last := [Step(c.toA, p.newId, built.value)];
        ExecConcat(cfg.kind, st.w, steps, ToSend(p));
        ExecConcat(cfg.kind, st.w, steps + ToSend(p), last);
        assert ExecAll(cfg.kind, SendTime(cfg, st, p), last) == Exec(cfg.kind, SendTime(cfg, st, p), last[0]);
        steps := steps + ToSend(p);
        if RunPass(cfg, st, p).0.w != SendTime(cfg, st, p) { steps := steps + last; }
      }
    }
  }

  // ---------------------------------------------------------------- the matching run

  /** Workers that aborted in the matching run sent the last message they had to send. */
  ghost predicate Retired(s: System) {
    && (forall x :: Worker(true, x) in s.aborted ==> Confirmed(s.w, x))
    && (forall y :: Worker(false, y) in s.aborted ==> Acked(s.w, y))
  }

  /** The end that `y` answers is past Init. */
  ghost predicate Acked(w: World, y: Id) {
    && y in w.b && w.b[y] != [] && w.b[y][0].counterparty.Some?
    && var x := w.b[y][0].counterparty.value;
    x in w.a && w.a[x] != [] && Now(w.a, x).state != Init
  }

  lemma RetiredLater(s: System, w': World)
    requires Sound(s.w) && Later(s.w, w') && Retired(s)
    ensures Retired(s.(w := w'))
  {
    forall x | Worker(true, x) in s.aborted
      ensures Confirmed(w', x)
    {
      var y := Now(s.w.a, x).counterparty.value;
      assert EndBound(s.w.a, s.w.b, x) && EndGrows(s.w.a, w'.a, x) && EndBound(w'.a, w'.b, x);
      assert EndBound(s.w.b, s.w.a, y) && EndGrows(s.w.b, w'.b, y) && EndBound(w'.b, w'.a, y);
    }
    forall y | Worker(false, y) in s.aborted
      ensures Acked(w', y)
    {
      var x := s.w.b[y][0].counterparty.value;
      assert EndGrows(s.w.b, w'.b, y);
      assert EndBound(s.w.a, s.w.b, x) && EndGrows(s.w.a, w'.a, x) && EndBound(w'.a, w'.b, x);
    }
  }

  /** The datagram of the message a pass gets through. */
  function Sent(cfg: Config, st: Progress, p: Pass, c: Choice): Datagram
    requires c.Send? && BuildFor(cfg, Observe(cfg, st, p).0, c.msg, c.toA, p).Ok?
  {
    BuildFor(cfg, Observe(cfg, st, p).0, c.msg, c.toA, p).value
  }

  /** The driver gets the message `c` through in this pass. */
  ghost predicate Reports(cfg: Config, st: Progress, p: Pass, c: Choice) {
    Led(cfg, st) && c.Send? && Chosen(cfg, st, p) == c && GoesThrough(cfg, st, p, c)
  }

  /** The worker action does to the chains what the pass does, and sends the same message. */
  ghost predicate Matches(cfg: Config, s: System, act: Action, st: Progress, p: Pass, c: Choice) {
    && Legal(cfg.kind, s, act) && Act(cfg.kind, s, act).sent == s.sent + [c]
    && Act(cfg.kind, s, act).w == RunPass(cfg, st, p).0.w
  }

  /** The Try is that of a worker that looked across when nobody had answered yet. */
  lemma TryMatched(cfg: Config, st: Progress, s: System, pending: seq<Step>, p: Pass) returns (act: Action)
    requires Reports(cfg, st, p, Send(TryMsg, false)) && ExecAll(cfg.kind, s.w, pending) == st.w
    requires Sound(s.w) && Retired(s)
    requires st.ids.a.Some? && InitBorn(s.w.a, st.ids.a.value) && !Answered(s.w.b, st.ids.a.value)
    ensures Matches(cfg, s, act, st, p, Send(TryMsg, false)) && Act(cfg.kind, s, act).aborted == s.aborted
  {
    var x := st.ids.a.value;
    TrySent(cfg, st, p);
    PendingToSend(cfg, st, s.w, pending, p);
    Unbound(s.w, x);
    act := Serve(Worker(true, x), 0, Uninitialized, pending + (p.beforeA + p.beforeB) + ToSend(p), p.newId,
                 Sent(cfg, st, p, Send(TryMsg, false)));
  }

  /** A Try that goes through names side a and is executed at the time it is sent. */
  lemma TrySent(cfg: Config, st: Progress, p: Pass)
    requires Reports(cfg, st, p, Send(TryMsg, false))
    ensures var d := Sent(cfg, st, p, Send(TryMsg, false));
            && d.OpenTry? && Some(d.source) == st.ids.a
            && Accepts(cfg.kind, SendTime(cfg, st, p).b, SendTime(cfg, st, p).a, p.newId, d)
            && RunPass(cfg, st, p).0.w == Exec(cfg.kind, SendTime(cfg, st, p), Step(false, p.newId, d))
  {
    ChosenExactly(cfg, st, p);
    ReportedExactly(cfg, st, p);
  }

  lemma {:induction false} PendingToSend(cfg: Config, st: Progress, w: World, pending: seq<Step>, p: Pass)
    requires ExecAll(cfg.kind, w, pending) == st.w
    ensures ExecAll(cfg.kind, w, pending + (p.beforeA + p.beforeB) + ToSend(p)) == SendTime(cfg, st, p)
  {
    SendSteps(cfg, st, p);
    ExecConcat(cfg.kind, w, pending, p.beforeA + p.beforeB);
    ExecConcat(cfg.kind, w, pending + (p.beforeA + p.beforeB), ToSend(p));
  }

  /** An end nobody answers is bound to no end. */
  lemma Unbound(w: World, x: Id)
    requires Sound(w) && InitBorn(w.a, x) && !Answered(w.b, x)
    ensures Now(w.a, x).counterparty.None? && !Confirmed(w, x) && Across(w.a, w.b, x, Uninitialized)
  {
    assert EndBound(w.a, w.b, x);
    assert Now(w.a, x).counterparty.Some? ==> EndBound(w.b, w.a, Now(w.a, x).counterparty.value);
  }

  /** When a pass gets an Ack through, side a was at Init when it was queried and the end acknowledged existed. */
  lemma AckSeen(cfg: Config, st: Progress, p: Pass)
    requires Reports(cfg, st, p, Send(AckMsg, true))
    ensures var w1 := ExecAll(cfg.kind, st.w, p.beforeA);
            && st.ids.a.Some? && st.ids.b.Some? && Observe(cfg, st, p).0.ids == st.ids && Held(cfg, w1, st.ids)
            && Now(w1.a, st.ids.a.value).state == Init && Now(w1.b, st.ids.b.value).counterparty == st.ids.a
  {
    ChosenExactly(cfg, st, p);
    PassLater(cfg, st, p);
    var w1, w2 := ObserveLater(cfg, st, p);
    LaterTransitive(w1, w2, SendTime(cfg, st, p));
    HeldLater(cfg, st.w, w1, st.ids);
    StateShown(w1.a, w1.b, st.ids.a.value, p.readA, Init);
    InitBefore(w1, SendTime(cfg, st, p), st.ids.a.value);
    StateShown(w1.b, w1.a, st.ids.b.value, Fresh, TryOpen);
  }

  /** An end at Init was so at any earlier time it existed. */
  lemma InitBefore(w: World, w': World, x: Id)
    requires Sound(w) && Later(w, w') && InitBorn(w.a, x)
    ensures InitBorn(w'.a, x) && (Now(w'.a, x).state == Init ==> Now(w.a, x).state == Init)
  {
    assert EndBound(w.a, w.b, x) && EndGrows(w.a, w'.a, x) && EndBound(w'.a, w'.b, x);
  }

  /** The Ack is that of the worker of side b, which looks across when the driver queries side a. */
  lemma AckMatched(cfg: Config, st: Progress, s: System, p: Pass) returns (act: Action)
    requires Reports(cfg, st, p, Send(AckMsg, true)) && s.w == ExecAll(cfg.kind, st.w, p.beforeA)
    requires Sound(s.w) && Retired(s)
    ensures Matches(cfg, s, act, st, p, Send(AckMsg, true)) && st.ids.b.Some?
    ensures Act(cfg.kind, s, act).aborted == s.aborted + {Worker(false, st.ids.b.value)}
  {
    AckSeen(cfg, st, p);
    ReportedExactly(cfg, st, p);
    SendSteps(cfg, st, p);
    ExecConcat(cfg.kind, s.w, p.beforeB, ToSend(p));
    act := Serve(Worker(false, st.ids.b.value), 0, Init, p.beforeB + ToSend(p), p.newId,
                 Sent(cfg, st, p, Send(AckMsg, true)));
  }

  /** Once the Ack is through, the end acknowledged answers an end past Init. */
  lemma AckRetires(cfg: Config, st: Progress, p: Pass)
    requires Reports(cfg, st, p, Send(AckMsg, true))
    ensures st.ids.b.Some? && Acked(RunPass(cfg, st, p).0.w, st.ids.b.value)
  {
    AckSeen(cfg, st, p);
    ReportedExactly(cfg, st, p);
    PassLater(cfg, st, p);
    var w, w' := SendTime(cfg, st, p), RunPass(cfg, st, p).0.w;
    TryBornLater(st.w.b, w'.b, st.ids.b.value, st.ids.a.value);
    assert w'.a == Update(w.a, st.ids.a.value, Open, st.ids.b);
  }

  /** Side a showed an open version when the driver chose to confirm. */
  lemma OpenSeen(cfg: Config, st: Progress, p: Pass) returns (i: nat, y: Id)
    requires Sound(st.w) && Held(cfg, st.w, st.ids) && Chosen(cfg, st, p) == Send(ConfirmMsg, false)
    ensures var w1 := ExecAll(cfg.kind, st.w, p.beforeA);
            && st.ids.a.Some? && InitBorn(w1.a, st.ids.a.value) && i < |w1.a[st.ids.a.value]|
            && w1.a[st.ids.a.value][i].state == Open && w1.a[st.ids.a.value][i].counterparty == Some(y)
            && Observe(cfg, st, p).0.ids.b == Some(y)
  {
    var w1, w2 := ObserveLater(cfg, st, p);
    ChosenExactly(cfg, st, p);
    var x := st.ids.a.value;
    InitBornLater(st.w.a, w1.a, x);
    assert Observe(cfg, st, p).1 == States(Open, TryOpen);
    assert AnswerA(cfg, st, p).Ok? && AnswerA(cfg, st, p).value.state == Open;
    i :| 0 <= i < |w1.a[x]| && w1.a[x][i] == AnswerA(cfg, st, p).value;
    assert EndBound(w1.a, w1.b, x);
    y := w1.a[x][i].counterparty.value;
  }

  /** An open version tells the end bound to `x`, now and later. */
  lemma OpenVersionBinds(w1: World, w2: World, x: Id, i: nat, y: Id)
    requires Sound(w1) && Later(w1, w2) && InitBorn(w1.a, x) && i < |w1.a[x]|
    requires w1.a[x][i].state == Open && w1.a[x][i].counterparty == Some(y)
    ensures InitBorn(w2.a, x) && i < |w2.a[x]| && w2.a[x][i] == w1.a[x][i]
    ensures Now(w2.a, x).counterparty == Some(y) && TryBorn(w2.b, y, x)
  {
    assert EndBound(w1.a, w1.b, x) && EndGrows(w1.a, w2.a, x) && EndBound(w2.a, w2.b, x);
  }

  /** An end at TryOpen was so at any earlier time it existed. */
  lemma TryOpenBefore(w: World, w': World, y: Id, x: Id)
    requires Sound(w) && Later(w, w') && TryBorn(w.b, y, x) && TryBorn(w'.b, y, x) && Now(w'.b, y).state == TryOpen
    ensures Now(w.b, y).state == TryOpen
  {
    assert EndBound(w.b, w.a, y) && EndGrows(w.b, w'.b, y) && EndBound(w'.b, w'.a, y);
  }

  /** When a pass gets a Confirm through, side a showed an open version and the end bound to it was at TryOpen. */
  lemma ConfirmSeen(cfg: Config, st: Progress, p: Pass) returns (i: nat, y: Id)
    requires Reports(cfg, st, p, Send(ConfirmMsg, false))
    ensures var w2 := Observe(cfg, st, p).0.w;
            && st.ids.a.Some? && st.ids.a.value in w2.a && i < |w2.a[st.ids.a.value]|
            && w2.a[st.ids.a.value][i].state == Open && w2.a[st.ids.a.value][i].counterparty == Some(y)
            && Now(w2.a, st.ids.a.value).counterparty == Some(y) && Observe(cfg, st, p).0.ids.b == Some(y)
            && y in w2.b && w2.b[y] != [] && Now(w2.b, y).state == TryOpen
  {
    i, y := OpenSeen(cfg, st, p);
    PassLater(cfg, st, p);
    var w1, w2 := ObserveLater(cfg, st, p);
    OpenVersionBinds(w1, w2, st.ids.a.value, i, y);
    TryBornLater(w2.b, SendTime(cfg, st, p).b, y, st.ids.a.value);
    TryOpenBefore(w2, SendTime(cfg, st, p), y, st.ids.a.value);
  }

  /** The Confirm is that of the worker of side a, which looks across when the driver queries side b. */
  lemma ConfirmMatched(cfg: Config, st: Progress, s: System, p: Pass) returns (act: Action)
    requires Reports(cfg, st, p, Send(ConfirmMsg, false)) && s.w == Observe(cfg, st, p).0.w && Sound(s.w) && Retired(s)
    ensures Matches(cfg, s, act, st, p, Send(ConfirmMsg, false)) && st.ids.a.Some?
    ensures Act(cfg.kind, s, act).aborted == s.aborted + {Worker(true, st.ids.a.value)}
  {
    var i, y := ConfirmSeen(cfg, st, p);
    ReportedExactly(cfg, st, p);
    SendSteps(cfg, st, p);
    act := Serve(Worker(true, st.ids.a.value), i, TryOpen, ToSend(p), p.newId,
                 Sent(cfg, st, p, Send(ConfirmMsg, false)));
  }

  /** Once the Confirm is through, the end bound to side a is past TryOpen. */
  lemma ConfirmRetires(cfg: Config, st: Progress, p: Pass)
    requires Reports(cfg, st, p, Send(ConfirmMsg, false))
    ensures st.ids.a.Some? && Confirmed(RunPass(cfg, st, p).0.w, st.ids.a.value)
  {
    var i, y := ConfirmSeen(cfg, st, p);
    ReportedExactly(cfg, st, p);
    PassLater(cfg, st, p);
    var w, w' := SendTime(cfg, st, p), RunPass(cfg, st, p).0.w;
    var w2 := Observe(cfg, st, p).0.w;
    LaterTransitive(w2, w, w');
    assert EndGrows(w2.a, w'.a, st.ids.a.value);
    assert w'.b == Update(w.b, y, Open, Now(w.b, y).counterparty);
  }

  // ---------------------------------------------------------------- whole runs

  lemma {:induction false} PostInitNext(sent: seq<Choice>, c: Choice)
    ensures PostInit(sent + [c]) == PostInit(sent) + if c == Send(InitMsg, true) then [] else [c]
  {
    assert (sent + [c])[..|sent|] == sent;
  }

  ghost predicate OnlyInit(sent: seq<Choice>) {
    forall c :: c in sent ==> Stage(c) == 0
  }

  /** The system, and the datagrams that lead from its chains to those of the driver. */
  ghost predicate Simulates(cfg: Config, s: System, pending: seq<Step>, st: Progress) {
    && Sound(s.w) && Retired(s) && ExecAll(cfg.kind, s.w, pending) == st.w && s.sent == PostInit(st.sent)
    && (st.ids.a.Some? && OnlyInit(st.sent) ==>
          InitBorn(s.w.a, st.ids.a.value) && !Answered(s.w.b, st.ids.a.value))
  }

  /** A run of the system that catches up with the driver. */
  lemma CatchUp(cfg: Config, s: System, steps: seq<Step>) returns (acts: seq<Action>)
    requires Sound(s.w) && Retired(s)
    ensures LegalRun(cfg.kind, s, acts)
    ensures ActAll(cfg.kind, s, acts) == s.(w := ExecAll(cfg.kind, s.w, steps))
    ensures Sound(ActAll(cfg.kind, s, acts).w) && Retired(ActAll(cfg.kind, s, acts))
  {
    acts := OthersRun(cfg.kind, s, steps);
    ExecAllLater(cfg.kind, s.w, steps);
    RetiredLater(s, ExecAll(cfg.kind, s.w, steps));
  }

  /** Nobody can have answered an end that has only just been created. */
  lemma NewIsUnanswered(kind: Kind, w: World, w': World, newId: Id, d: Datagram)
    requires Sound(w) && d.OpenInit? && Accepts(kind, w.a, w.b, newId, d) && w' == Exec(kind, w, Step(true, newId, d))
    ensures InitBorn(w'.a, newId) && !Answered(w'.b, newId)
  {
    forall y | y in w.b && w.b[y] != []
      ensures Now(w.b, y).counterparty != Some(newId)
    {
      assert EndBound(w.b, w.a, y);
    }
  }

  /** The system follows one pass of the driver. */
  lemma FollowPass(cfg: Config, st: Progress, s: System, pending: seq<Step>, p: Pass)
    returns (acts: seq<Action>, pending': seq<Step>)
    requires Led(cfg, st) && !OutOfOrder(cfg, st, p) && Simulates(cfg, s, pending, st)
    ensures LegalRun(cfg.kind, s, acts)
    ensures Simulates(cfg, ActAll(cfg.kind, s, acts), pending', RunPass(cfg, st, p).0)
  {
    ChosenExactly(cfg, st, p);
    ReportedExactly(cfg, st, p);
    PassLater(cfg, st, p);
    var c, r := Chosen(cfg, st, p), RunPass(cfg, st, p).0;
    if c.Send? && GoesThrough(cfg, st, p, c) {
      pending' := [];
      match c.msg
      case InitMsg => acts := FollowInit(cfg, st, s, pending, p);
      case TryMsg => acts := FollowTry(cfg, st, s, pending, p);
      case AckMsg => acts := FollowAck(cfg, st, s, pending, p);
      case ConfirmMsg => acts := FollowConfirm(cfg, st, s, pending, p);
    } else {
      var steps := PassSteps(cfg, st, p);
      ExecConcat(cfg.kind, s.w, pending, steps);
      acts, pending' := [], pending + steps;
    }
  }

  lemma FollowInit(cfg: Config, st: Progress, s: System, pending: seq<Step>, p: Pass) returns (acts: seq<Action>)
    requires Reports(cfg, st, p, Send(InitMsg, true)) && Simulates(cfg, s, pending, st)
    ensures LegalRun(cfg.kind, s, acts)
    ensures Simulates(cfg, ActAll(cfg.kind, s, acts), [], RunPass(cfg, st, p).0)
  {
    ReportedExactly(cfg, st, p);
    PassLater(cfg, st, p);
    var steps := PassSteps(cfg, st, p);
    ExecConcat(cfg.kind, s.w, pending, steps);
    acts := CatchUp(cfg, s, pending + steps);
    PostInitNext(st.sent, Send(InitMsg, true));
    NewIsUnanswered(cfg.kind, SendTime(cfg, st, p), RunPass(cfg, st, p).0.w, p.newId,
                    Sent(cfg, st, p, Send(InitMsg, true)));
  }

  /** The worker has nothing left to send in this world. */
  ghost predicate IsDone(w: World, worker: Worker) {
    if worker.onA then Confirmed(w, worker.id) else Acked(w, worker.id)
  }

  /** The system has followed a pass once a worker has matched it and whoever aborted is done. */
  lemma Followed(cfg: Config, s: System, act: Action, st: Progress, p: Pass, c: Choice, retired: set<Worker>)
    requires Sound(s.w) && Retired(s) && c.Send? && Stage(c) > 0 && Matches(cfg, s, act, st, p, c)
    requires Act(cfg.kind, s, act).aborted == s.aborted + retired
    requires RunPass(cfg, st, p).0.sent == st.sent + [c] && s.sent == PostInit(st.sent)
    requires forall worker :: worker in retired ==> IsDone(RunPass(cfg, st, p).0.w, worker)
    ensures Simulates(cfg, Act(cfg.kind, s, act), [], RunPass(cfg, st, p).0)
  {
    ActLater(cfg.kind, s, act);
    RetiredLater(s, Act(cfg.kind, s, act).w);
    PostInitNext(st.sent, c);
    assert (st.sent + [c])[|st.sent|] == c;
    assert !OnlyInit(st.sent + [c]);
  }

  /** A Try in order is the first message after Init. */
  lemma TryIsFirst(cfg: Config, st: Progress, p: Pass)
    requires Reports(cfg, st, p, Send(TryMsg, false)) && !OutOfOrder(cfg, st, p)
    ensures st.ids.a.Some? && OnlyInit(st.sent) && RunPass(cfg, st, p).0.sent == st.sent + [Send(TryMsg, false)]
  {
    ChosenExactly(cfg, st, p);
    ReportedExactly(cfg, st, p);
    forall c | c in st.sent
      ensures Stage(c) == 0
    {
      var i :| 0 <= i < |st.sent| && st.sent[i] == c;
    }
  }

  lemma FollowTry(cfg: Config, st: Progress, s: System, pending: seq<Step>, p: Pass) returns (acts: seq<Action>)
    requires Reports(cfg, st, p, Send(TryMsg, false)) && !OutOfOrder(cfg, st, p) && Simulates(cfg, s, pending, st)
    ensures LegalRun(cfg.kind, s, acts)
    ensures Simulates(cfg, ActAll(cfg.kind, s, acts), [], RunPass(cfg, st, p).0)
  {
    TryIsFirst(cfg, st, p);
    var act := TryMatched(cfg, st, s, pending, p);
    acts := [act];
    assert acts[1..] == [];
    Followed(cfg, s, act, st, p, Send(TryMsg, false), {});
  }

  /** Catching up with the driver and then acting as one worker. */
  lemma CatchUpAndAct(cfg: Config, s: System, steps: seq<Step>, act: Action) returns (acts: seq<Action>)
    requires Sound(s.w) && Retired(s) && Legal(cfg.kind, s.(w := ExecAll(cfg.kind, s.w, steps)), act)
    ensures var s1 := s.(w := ExecAll(cfg.kind, s.w, steps));
            && LegalRun(cfg.kind, s, acts) && ActAll(cfg.kind, s, acts) == Act(cfg.kind, s1, act)
  {
    var first := CatchUp(cfg, s, steps);
    assert [act][1..] == [];
    LegalConcat(cfg.kind, s, first, [act]);
    acts := first + [act];
  }

  /** In this system, the action of a worker that is then done and aborts matches the pass. */
  ghost predicate Serves(cfg: Config, s: System, act: Action, st: Progress, p: Pass, c: Choice, worker: Worker) {
    && c.Send? && Stage(c) > 0 && Matches(cfg, s, act, st, p, c)
    && Act(cfg.kind, s, act).aborted == s.aborted + {worker} && IsDone(RunPass(cfg, st, p).0.w, worker)
    && RunPass(cfg, st, p).0.sent == st.sent + [c]
  }

  /** Catching up with the driver and then matching its pass as one worker. */
  lemma FollowWorker(cfg: Config, st: Progress, s: System, s1: System, steps: seq<Step>, act: Action, p: Pass,
                     c: Choice, worker: Worker)
    returns (acts: seq<Action>)
    requires Sound(s.w) && Retired(s) && s.sent == PostInit(st.sent)
    requires s1 == s.(w := ExecAll(cfg.kind, s.w, steps)) && Sound(s1.w) && Retired(s1)
    requires Serves(cfg, s1, act, st, p, c, worker)
    ensures LegalRun(cfg.kind, s, acts)
    ensures Simulates(cfg, ActAll(cfg.kind, s, acts), [], RunPass(cfg, st, p).0)
  {
    acts := CatchUpAndAct(cfg, s, steps, act);
    Followed(cfg, s1, act, st, p, c, {worker});
  }

  lemma AckServed(cfg: Config, st: Progress, s: System, p: Pass) returns (act: Action, worker: Worker)
    requires Reports(cfg, st, p, Send(AckMsg, true)) && s.w == ExecAll(cfg.kind, st.w, p.beforeA)
    requires Sound(s.w) && Retired(s)
    ensures Serves(cfg, s, act, st, p, Send(AckMsg, true), worker)
  {
    act := AckMatched(cfg, st, s, p);
    worker := Worker(false, st.ids.b.value);
    AckRetires(cfg, st, p);
    ReportedExactly(cfg, st, p);
  }

  lemma ConfirmServed(cfg: Config, st: Progress, s: System, p: Pass) returns (act: Action, worker: Worker)
    requires Reports(cfg, st, p, Send(ConfirmMsg, false)) && s.w == Observe(cfg, st, p).0.w && Sound(s.w) && Retired(s)
    ensures Serves(cfg, s, act, st, p, Send(ConfirmMsg, false), worker)
  {
    act := ConfirmMatched(cfg, st, s, p);
    worker := Worker(true, st.ids.a.value);
    ConfirmRetires(cfg, st, p);
    ReportedExactly(cfg, st, p);
  }

  /** The system after others' datagrams is as good as before. */
  lemma {:induction false} CaughtUp(cfg: Config, s: System, steps: seq<Step>)
    requires Sound(s.w) && Retired(s)
    ensures Sound(ExecAll(cfg.kind, s.w, steps)) && Retired(s.(w := ExecAll(cfg.kind, s.w, steps)))
  {
    ExecAllLater(cfg.kind, s.w, steps);
    RetiredLater(s, ExecAll(cfg.kind, s.w, steps));
  }

  lemma {:induction false} CaughtUpToQueries(cfg: Config, st: Progress, s: System, pending: seq<Step>, p: Pass)
    requires Simulates(cfg, s, pending, st)
    ensures var s1 := s.(w := ExecAll(cfg.kind, s.w, pending + (p.beforeA + p.beforeB)));
            Sound(s1.w) && Retired(s1) && s1.w == Observe(cfg, st, p).0.w
  {
    ExecConcat(cfg.kind, s.w, pending, p.beforeA + p.beforeB);
    SendSteps(cfg, st, p);
    CaughtUp(cfg, s, pending + (p.beforeA + p.beforeB));
  }

  lemma FollowAck(cfg: Config, st: Progress, s: System, pending: seq<Step>, p: Pass) returns (acts: seq<Action>)
    requires Reports(cfg, st, p, Send(AckMsg, true)) && Simulates(cfg, s, pending, st)
    ensures LegalRun(cfg.kind, s, acts)
    ensures Simulates(cfg, ActAll(cfg.kind, s, acts), [], RunPass(cfg, st, p).0)
  {
    var steps := pending + p.beforeA;
    var s1 := s.(w := ExecAll(cfg.kind, s.w, steps));
    ExecConcat(cfg.kind, s.w, pending, p.beforeA);
    CaughtUp(cfg, s, steps);
    var act, worker := AckServed(cfg, st, s1, p);
    acts := FollowWorker(cfg, st, s, s1, steps, act, p, Send(AckMsg, true), worker);
  }

  lemma FollowConfirm(cfg: Config, st: Progress, s: System, pending: seq<Step>, p: Pass) returns (acts: seq<Action>)
    requires Reports(cfg, st, p, Send(ConfirmMsg, false)) && Simulates(cfg, s, pending, st)
    ensures LegalRun(cfg.kind, s, acts)
    ensures Simulates(cfg, ActAll(cfg.kind, s, acts), [], RunPass(cfg, st, p).0)
  {
    var steps := pending + (p.beforeA + p.beforeB);
    var s1 := s.(w := ExecAll(cfg.kind, s.w, steps));
    CaughtUpToQueries(cfg, st, s, pending, p);
    var act, worker := ConfirmServed(cfg, st, s1, p);
    acts := FollowWorker(cfg, st, s, s1, steps, act, p, Send(ConfirmMsg, false), worker);
  }

  lemma {:induction false} FollowRun(cfg: Config, st: Progress, s: System, pending: seq<Step>, ps: seq<Pass>)
    returns (acts: seq<Action>)
    requires Led(cfg, st) && !SomePassOutOfOrder(cfg, st, ps) && Simulates(cfg, s, pending, st)
    ensures LegalRun(cfg.kind, s, acts) && ActAll(cfg.kind, s, acts).w == RunAll(cfg, st, ps).0.w
    ensures ActAll(cfg.kind, s, acts).sent == PostInit(RunAll(cfg, st, ps).0.sent)
    decreases |ps|
  {
    if ps == [] {
      acts := CatchUp(cfg, s, pending);
    } else {
      var first, pending' := FollowPass(cfg, st, s, pending, ps[0]);
      PassLed(cfg, st, ps[0]);
      var r := RunPass(cfg, st, ps[0]);
      var s' := ActAll(cfg.kind, s, first);
      var rest;
      if r.1 == Retry {
        rest := FollowRun(cfg, r.0, s', pending', ps[1..]);
      } else {
        rest := CatchUp(cfg, s', pending');
      }
      LegalConcat(cfg.kind, s, first, rest);
      acts := first + rest;
    }
  }

  /**
   Every run of a fresh driver, with arbitrary answers, whose messages succeed in order is a run of the
   workers: some legal run of workers and other relayers reaches the same chains and sends exactly the
   messages the driver reports after Init. `MessagesInOrderExactly` says which runs these are.
   */
  lemma DriverTraceIsWorkerTrace(cfg: Config, w: World, ps: seq<Pass>) returns (acts: seq<Action>)
    requires Sound(w) && InOrder(RunAll(cfg, Start(w), ps).0.sent)
    ensures LegalRun(cfg.kind, System(w, {}, []), acts)
    ensures var s := ActAll(cfg.kind, System(w, {}, []), acts);
            s.w == RunAll(cfg, Start(w), ps).0.w && s.sent == PostInit(RunAll(cfg, Start(w), ps).0.sent)
  {
    MessagesInOrderExactly(cfg, w, ps);
    acts := FollowRun(cfg, Start(w), System(w, {}, []), [], ps);
  }
}
