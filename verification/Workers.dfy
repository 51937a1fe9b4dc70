/**
 The directional workers: each watches one end and finishes the handshake by sending messages to the
 other chain, until it aborts. No pair of them aborts too early.
 */
module Workers {
  import opened Options
  import opened Ends
  import opened Driver
  import opened Repeats
  import opened Outcomes

  datatype WorkerMessage = SendTry | SendAck | SendConfirm | SendCloseConfirm

  /** A worker goes on watching after a Try and stops after any later message. */
  datatype WorkerStep = WorkerStep(message: Option<WorkerMessage>, abort: bool)

  /** The worker's reaction to the state of its source end and of the end across. */
  function HandshakeStep(kind: Kind, state: State, counterparty: State): WorkerStep {
    match (state, counterparty)
    case (Init, Uninitialized) => WorkerStep(Some(SendTry), false)
    case (Init, Init) => WorkerStep(Some(SendTry), false)
    case (TryOpen, Init) => WorkerStep(Some(SendAck), true)
    case (TryOpen, TryOpen) => WorkerStep(Some(SendAck), true)
    case (Open, TryOpen) => WorkerStep(Some(SendConfirm), true)
    case (Open, Open) => WorkerStep(None, true)
    case (TryOpen, Open) => WorkerStep(None, true)
    case (Closed, Closed) => WorkerStep(None, kind == Channels)
    case (Closed, _) => if kind == Channels then WorkerStep(Some(SendCloseConfirm), true) else WorkerStep(None, false)
    case _ => WorkerStep(None, false)
  }

  /**
   A worker sends the opening message that the state across calls for, given its own; and for a closed
   channel end, while the end across is not closed, the closing one.
   */
  lemma WorkerSendsExactly(kind: Kind, state: State, across: State)
    ensures var m := HandshakeStep(kind, state, across).message;
            && (m == Some(SendTry) <==> Calls(TryMsg, across, state))
            && (m == Some(SendAck) <==> Calls(AckMsg, across, state))
            && (m == Some(SendConfirm) <==> Calls(ConfirmMsg, across, state))
            && (m == Some(SendCloseConfirm) <==> kind == Channels && state == Closed && across != Closed)
  {}

  /**
   A worker aborts with every message but a Try, and without one exactly when nothing is left for it:
   the end across is open and its own open or TryOpen, or both ends of a channel are closed.
   */
  lemma WorkerAbortsExactly(kind: Kind, state: State, across: State)
    ensures var step := HandshakeStep(kind, state, across);
            step.abort <==>
              match step.message
              case Some(m) => m != SendTry
              case None =>
                || (across == Open && (state == Open || state == TryOpen))
                || (kind == Channels && state == Closed && across == Closed)
  {}

  /**
   `s` is a state the worker may find across: that of the bound end, or else of some end that answers
   the source end, or Uninitialized when there is none.
   */
  ghost predicate Across(src: Chain, dst: Chain, id: Id, s: State)
    requires id in src && src[id] != []
  {
    match Now(src, id).counterparty
    case Some(y) => y in dst && dst[y] != [] && s == Now(dst, y).state
    case None =>
      || (s == Uninitialized && !Answered(dst, id))
      || exists y :: y in dst && dst[y] != [] && Now(dst, y).counterparty == Some(id) && s == Now(dst, y).state
  }

  /** Some end of `dst` names `id` as its counterparty. */
  ghost predicate Answered(dst: Chain, id: Id) {
    exists y :: y in dst && dst[y] != [] && Now(dst, y).counterparty == Some(id)
  }

  ghost predicate Sends(kind: Kind, src: Chain, dst: Chain, id: Id)
    requires id in src && src[id] != []
  {
    forall s :: Across(src, dst, id, s) ==> HandshakeStep(kind, Now(src, id).state, s).message.Some?
  }

  /** For the Init event of an end, a worker sends Try exactly when no end answers it yet, whatever it finds across. */
  lemma TrySentExactly(kind: Kind, w: World, x: Id, seen: State)
    requires Sound(w) && InitBorn(w.a, x) && Across(w.a, w.b, x, seen)
    ensures HandshakeStep(kind, Init, seen) == WorkerStep(if Answered(w.b, x) then None else Some(SendTry), false)
  {
    assert EndBound(w.a, w.b, x);
    match Now(w.a, x).counterparty
    case Some(y) =>
      assert EndBound(w.b, w.a, y);
    case None =>
      if Answered(w.b, x) {
        var y :| y in w.b && w.b[y] != [] && Now(w.b, y).counterparty == Some(x) && seen == Now(w.b, y).state;
        assert EndBound(w.b, w.a, y);
      }
  }

  /**
   For an Init-created end and the end it is bound to, or one that may still be bound to it, some
   worker has a message to send exactly until both ends are open or both are closed.
   */
  lemma SomeWorkerSends(kind: Kind, w: World, x: Id, y: Id)
    requires Sound(w) && InitBorn(w.a, x) && TryBorn(w.b, y, x)
    requires Now(w.a, x).counterparty == Some(y) || Now(w.a, x).state == Init
    requires kind == Connections ==> Now(w.a, x).state != Closed && Now(w.b, y).state != Closed
    ensures Sends(kind, w.a, w.b, x) || Sends(kind, w.b, w.a, y)
            <==> (&& !(Now(w.a, x).state == Now(w.b, y).state == Open)
                  && !(Now(w.a, x).state == Now(w.b, y).state == Closed))
    ensures Now(w.a, x).state == Init && Now(w.b, y).state == TryOpen ==> Sends(kind, w.b, w.a, y)
    ensures Now(w.a, x).state == Open && Now(w.b, y).state == TryOpen ==> Sends(kind, w.a, w.b, x)
  {
    assert EndBound(w.a, w.b, x) && EndBound(w.b, w.a, y);
    var sx, sy := Now(w.a, x).state, Now(w.b, y).state;
    assert Across(w.b, w.a, y, sx);
    if Now(w.a, x).counterparty == Some(y) {
      assert Across(w.a, w.b, x, sy);
    }
  }

  // ---------------------------------------------------------------- the system of workers

  /** The worker of the end `id` on chain a or on chain b. */
  datatype Worker = Worker(onA: bool, id: Id)

  /** The chains, the workers that have aborted, and the opening messages that went through. */
  datatype System = System(w: World, aborted: set<Worker>, sent: seq<Choice>)

  /**
   A step of the system: someone submits a datagram, or a worker handles the event of some version of
   its end. It finds the state `seen` across; others may act before its datagram `d` arrives.
   */
  datatype Action =
    | Others(step: Step)
    | Serve(worker: Worker, version: nat, seen: State, before: seq<Step>, newId: Id, d: Datagram)

  /** The datagram is the message built for version `e` of the end `id`, as restored from its event. */
  predicate Carries(m: WorkerMessage, id: Id, e: End, d: Datagram) {
    match m
    case SendTry => d.OpenTry? && d.source == id
    case SendAck => d.OpenAck? && d.source == id && Some(d.target) == e.counterparty
    case SendConfirm => d.OpenConfirm? && Some(d.target) == e.counterparty
    case SendCloseConfirm => d.CloseConfirm? && Some(d.target) == e.counterparty
  }

  function Src(w: World, worker: Worker): Chain { if worker.onA then w.a else w.b }

  function Dst(w: World, worker: Worker): Chain { if worker.onA then w.b else w.a }

  /** Only a worker that has not aborted acts, on an event of its end and on the true state across. */
  ghost predicate Legal(kind: Kind, s: System, act: Action) {
    act.Serve? ==>
      && act.worker !in s.aborted && act.worker.id in Src(s.w, act.worker)
      && act.version < |Src(s.w, act.worker)[act.worker.id]|
      && Across(Src(s.w, act.worker), Dst(s.w, act.worker), act.worker.id, act.seen)
      && var e := Src(s.w, act.worker)[act.worker.id][act.version];
      var m := HandshakeStep(kind, e.state, act.seen).message;
      m.Some? ==> Carries(m.value, act.worker.id, e, act.d)
  }

  /** What a worker decides to do. */
  function Decision(kind: Kind, s: System, act: Action): WorkerStep
    requires act.Serve? && act.worker.id in Src(s.w, act.worker) && act.version < |Src(s.w, act.worker)[act.worker.id]|
  {
    HandshakeStep(kind, Src(s.w, act.worker)[act.worker.id][act.version].state, act.seen)
  }

  /** The datagram of a worker is accepted when it arrives. */
  predicate Arrives(kind: Kind, s: System, act: Action)
    requires act.Serve?
  {
    var w := ExecAll(kind, s.w, act.before);
    Accepts(kind, Dst(w, act.worker), Src(w, act.worker), act.newId, act.d)
  }

  /** The message as the active driver would report it. */
  function Opening(m: WorkerMessage, toA: bool): seq<Choice> {
    match m
    case SendTry => [Send(TryMsg, toA)]
    case SendAck => [Send(AckMsg, toA)]
    case SendConfirm => [Send(ConfirmMsg, toA)]
    case SendCloseConfirm => []
  }

  /** A rejected message is retried later; a worker aborts once its last message went through or none is due. */
  ghost function Act(kind: Kind, s: System, act: Action): System
    requires Legal(kind, s, act)
  {
    match act
    case Others(step) => s.(w := Exec(kind, s.w, step))
    case Serve(worker, _, _, before, newId, d) =>
      var w := ExecAll(kind, s.w, before);
      var step := Decision(kind, s, act);
      if step.message.Some? && !Arrives(kind, s, act) then s.(w := w)
      else System(if step.message.Some? then Exec(kind, w, Step(!worker.onA, newId, d)) else w,
                  if step.abort then s.aborted + {worker} else s.aborted,
                  s.sent + if step.message.Some? then Opening(step.message.value, !worker.onA) else [])
  }

  ghost predicate LegalRun(kind: Kind, s: System, acts: seq<Action>)
    decreases |acts|
  {
    acts != [] ==> Legal(kind, s, acts[0]) && LegalRun(kind, Act(kind, s, acts[0]), acts[1..])
  }

  ghost function ActAll(kind: Kind, s: System, acts: seq<Action>): System
    requires LegalRun(kind, s, acts)
    decreases |acts|
  {
    if acts == [] then s else ActAll(kind, Act(kind, s, acts[0]), acts[1..])
  }

  // ---------------------------------------------------------------- no deadlock

  /** The end is closed, or created by Init and bound to an end past TryOpen. */
  ghost predicate DoneA(w: World, x: Id) {
    InitBorn(w.a, x) ==> Now(w.a, x).state == Closed || Confirmed(w, x)
  }

  /** The end is closed, or created by Try for an end past Init. */
  ghost predicate DoneB(w: World, y: Id) {
    && y in w.b && w.b[y] != []
    && (w.b[y][0].counterparty.Some? && TryBorn(w.b, y, w.b[y][0].counterparty.value) ==>
          var x := w.b[y][0].counterparty.value;
          Now(w.b, y).state == Closed || (x in w.a && w.a[x] != [] && Now(w.a, x).state != Init))
  }

  /** Workers abort only when nothing is left for them to do. */
  ghost predicate AbortedDone(s: System) {
    && (forall x :: Worker(true, x) in s.aborted ==> x in s.w.a && s.w.a[x] != [] && DoneA(s.w, x))
    && (forall y :: Worker(false, y) in s.aborted ==> DoneB(s.w, y))
  }

  lemma DoneALater(w: World, w': World, x: Id)
    requires Sound(w) && Later(w, w') && x in w.a && w.a[x] != [] && DoneA(w, x)
    ensures x in w'.a && w'.a[x] != [] && DoneA(w', x)
  {
    assert EndBound(w.a, w.b, x) && EndGrows(w.a, w'.a, x) && EndBound(w'.a, w'.b, x);
    if InitBorn(w.a, x) && Confirmed(w, x) {
      var y := Now(w.a, x).counterparty.value;
      assert EndBound(w.b, w.a, y) && EndGrows(w.b, w'.b, y) && EndBound(w'.b, w'.a, y);
    }
  }

  lemma DoneBLater(w: World, w': World, y: Id)
    requires Sound(w) && Later(w, w') && DoneB(w, y)
    ensures DoneB(w', y)
  {
    assert EndBound(w.b, w.a, y) && EndGrows(w.b, w'.b, y) && EndBound(w'.b, w'.a, y);
    if w.b[y][0].counterparty.Some? && TryBorn(w.b, y, w.b[y][0].counterparty.value) {
      var x := w.b[y][0].counterparty.value;
      if x in w.a { assert EndBound(w.a, w.b, x) && EndGrows(w.a, w'.a, x) && EndBound(w'.a, w'.b, x); }
    }
  }

  lemma AbortedDoneLater(s: System, w': World)
    requires Sound(s.w) && Later(s.w, w') && AbortedDone(s)
    ensures AbortedDone(s.(w := w'))
  {
    forall x | Worker(true, x) in s.aborted
      ensures x in w'.a && w'.a[x] != [] && DoneA(w', x)
    {
      DoneALater(s.w, w', x);
    }
    forall y | Worker(false, y) in s.aborted
      ensures DoneB(w', y)
    {
      DoneBLater(s.w, w', y);
    }
  }

  /** A step leads to a later world. */
  lemma ActLater(kind: Kind, s: System, act: Action)
    requires Sound(s.w) && Legal(kind, s, act)
    ensures Later(s.w, Act(kind, s, act).w)
  {
    match act
    case Others(step) => ExecLater(kind, s.w, step);
    case Serve(worker, _, _, before, newId, d) =>
      var w := ExecAll(kind, s.w, before);
      ExecAllLater(kind, s.w, before);
      ExecLater(kind, w, Step(!worker.onA, newId, d));
      LaterTransitive(s.w, w, Exec(kind, w, Step(!worker.onA, newId, d)));
  }

  /** A worker of side a aborts only when its end is done. */
  lemma AbortsDoneA(kind: Kind, s: System, act: Action)
    requires Sound(s.w) && Legal(kind, s, act) && act.Serve? && act.worker.onA
    requires act.worker in Act(kind, s, act).aborted
    ensures var w' := Act(kind, s, act).w;
            act.worker.id in w'.a && w'.a[act.worker.id] != [] && DoneA(w', act.worker.id)
  {
    var x, w' := act.worker.id, Act(kind, s, act).w;
    ActLater(kind, s, act);
    assert EndBound(s.w.a, s.w.b, x) && EndGrows(s.w.a, w'.a, x) && EndBound(w'.a, w'.b, x);
    if InitBorn(s.w.a, x) {
      var e := s.w.a[x][act.version];
      if e.state == Open {
        var y := e.counterparty.value;
        assert Now(s.w.a, x).counterparty == Some(y);
        assert EndBound(s.w.b, s.w.a, y) && EndGrows(s.w.b, w'.b, y) && EndBound(w'.b, w'.a, y);
      }
    }
  }

  /** A worker of side b aborts only when its end is done. */
  lemma AbortsDoneB(kind: Kind, s: System, act: Action)
    requires Sound(s.w) && Legal(kind, s, act) && act.Serve? && !act.worker.onA
    requires act.worker in Act(kind, s, act).aborted
    ensures DoneB(Act(kind, s, act).w, act.worker.id)
  {
    var y, w' := act.worker.id, Act(kind, s, act).w;
    ActLater(kind, s, act);
    assert EndBound(s.w.b, s.w.a, y) && EndGrows(s.w.b, w'.b, y) && EndBound(w'.b, w'.a, y);
    if s.w.b[y][0].state == TryOpen {
      var x := s.w.b[y][0].counterparty.value;
      assert EndBound(s.w.a, s.w.b, x) && EndGrows(s.w.a, w'.a, x) && EndBound(w'.a, w'.b, x);
    }
  }

  /** Every step keeps the chains sound, and workers abort only when they are done. */
  lemma ActKeepsDone(kind: Kind, s: System, act: Action)
    requires Sound(s.w) && AbortedDone(s) && Legal(kind, s, act)
    ensures Sound(Act(kind, s, act).w) && AbortedDone(Act(kind, s, act))
  {
    ActLater(kind, s, act);
    var s' := Act(kind, s, act);
    AbortedDoneLater(s, s'.w);
    if act.Serve? && act.worker in s'.aborted {
      if act.worker.onA { AbortsDoneA(kind, s, act); } else { AbortsDoneB(kind, s, act); }
    }
  }

  lemma {:induction false} RunKeepsDone(kind: Kind, s: System, acts: seq<Action>)
    requires Sound(s.w) && AbortedDone(s) && LegalRun(kind, s, acts)
    ensures Sound(ActAll(kind, s, acts).w) && AbortedDone(ActAll(kind, s, acts))
    decreases |acts|
  {
    if acts != [] {
      ActKeepsDone(kind, s, acts[0]);
      RunKeepsDone(kind, Act(kind, s, acts[0]), acts[1..]);
    }
  }

  /** The worker has not aborted and sends a message for the current state of its end. */
  ghost predicate StillSends(kind: Kind, s: System, worker: Worker) {
    && worker !in s.aborted && worker.id in Src(s.w, worker) && Src(s.w, worker)[worker.id] != []
    && Sends(kind, Src(s.w, worker), Dst(s.w, worker), worker.id)
  }

  /**
   No deadlock: after any run of workers and other relayers, for an Init-created end and the end it is
   bound to, or one that may still be bound to it, neither closed, a worker that has not aborted has a
   message to send if and only if the two ends are not both open.
   */
  lemma {:induction false} WorkersNeverDeadlock(kind: Kind, w: World, acts: seq<Action>, x: Id, y: Id)
    requires Sound(w) && LegalRun(kind, System(w, {}, []), acts)
    requires var s := ActAll(kind, System(w, {}, []), acts);
             && InitBorn(s.w.a, x) && TryBorn(s.w.b, y, x)
             && (Now(s.w.a, x).counterparty == Some(y) || Now(s.w.a, x).state == Init)
             && Now(s.w.a, x).state != Closed && Now(s.w.b, y).state != Closed
    ensures var s := ActAll(kind, System(w, {}, []), acts);
            StillSends(kind, s, Worker(true, x)) || StillSends(kind, s, Worker(false, y))
            <==> !(Now(s.w.a, x).state == Open && Now(s.w.b, y).state == Open)
  {
    RunKeepsDone(kind, System(w, {}, []), acts);
    var s := ActAll(kind, System(w, {}, []), acts);
    SomeWorkerSends(kind, s.w, x, y);
    assert EndBound(s.w.a, s.w.b, x) && EndBound(s.w.b, s.w.a, y);
  }
}
