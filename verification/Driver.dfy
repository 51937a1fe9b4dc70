/**
 The relayer side of the opening handshake: reconciling the two identifiers it holds with what the
 chains report, choosing the next message from the two states, building and checking it, and
 retrying until both ends are open. Channels and connections run the same driver.
 */
module Driver {
  import opened Options
  import opened Ends

  /** A chain reports at least one compatible version. */
  type Versions = v: seq<string> | |v| > 0 witness ["1"]

  /**
   What the relayer knows of one side. `name` is the port of a channel or the client of a connection,
   `connection` the connection a channel is built on.
   */
  datatype Side = Side(name: string, connection: string, versions: Versions, prefix: string)

  /** The immutable part of the relayer's channel or connection object. */
  datatype Config = Config(kind: Kind, a: Side, b: Side, attribute: nat) {
    function Flipped(): Config { Config(kind, b, a, attribute) }
  }

  /** The two identifiers the relayer holds and repairs. */
  datatype Ids = Ids(a: Option<Id>, b: Option<Id>) {
    function Flipped(): Ids { Ids(b, a) }
  }

  // ---------------------------------------------------------------- queries

  /**
   How a query is served: with the latest version, with an older one by a node lagging behind, as if
   the end did not exist yet, or not at all.
   */
  datatype Read = Fresh | Past(index: nat) | Unavailable | Fails(frozen: bool)

  function Query(c: Chain, id: Id, r: Read): Reply<End> {
    match r
    case Fresh => if id in c && c[id] != [] then Ok(Now(c, id)) else Err(false)
    case Past(i) => if id in c && i < |c[id]| then Ok(c[id][i]) else Err(false)
    case Unavailable => Ok(DEFAULT_END)
    case Fails(frozen) => Err(frozen)
  }

  /** An unset identifier is not queried: it stands for the default, uninitialized end. */
  function QueryHeld(c: Chain, id: Option<Id>, r: Read): Reply<End> {
    if id.Some? then Query(c, id.value, r) else Ok(DEFAULT_END)
  }

  // ---------------------------------------------------------------- identifier reconciliation

  datatype Observation = States(a: State, b: State) | NoAnswer(frozen: bool) | Mismatch

  /** The side b identifier after the answer of chain a. */
  function AdoptB(ids: Ids, aEnd: End): Option<Id> {
    if aEnd.counterparty.Some? && aEnd.counterparty != ids.b then aEnd.counterparty else ids.b
  }

  /** The identifiers and the observation after the answer of chain b. */
  function AdoptA(ids: Ids, newB: Option<Id>, aEnd: End, bEnd: End): (Ids, Observation) {
    if bEnd.counterparty.Some? && bEnd.counterparty != ids.a then
      if newB == ids.b then (Ids(bEnd.counterparty, newB), States(aEnd.state, bEnd.state))
      else (Ids(ids.a, newB), Mismatch)
    else (Ids(ids.a, newB), States(aEnd.state, bEnd.state))
  }

  /** Queries chain a, then chain b, and repairs the held identifiers. */
  function Reconcile(ids: Ids, chainA: Chain, readA: Read, chainB: Chain, readB: Read): (Ids, Observation) {
    match QueryHeld(chainA, ids.a, readA)
    case Err(f) => (ids, NoAnswer(f))
    case Ok(aEnd) =>
      match QueryHeld(chainB, AdoptB(ids, aEnd), readB)
      case Err(f) => (Ids(ids.a, AdoptB(ids, aEnd)), NoAnswer(f))
      case Ok(bEnd) => AdoptA(ids, AdoptB(ids, aEnd), aEnd, bEnd)
  }

  // ---------------------------------------------------------------- the next message

  datatype Message = InitMsg | TryMsg | AckMsg | ConfirmMsg

  datatype Choice = Send(msg: Message, toA: bool) | Complete | Unhandled

  /** The message the active driver sends for a pair of states. */
  function Choose(a: State, b: State): Choice {
    match (a, b)
    case (Uninitialized, Uninitialized) => Send(InitMsg, true)
    case (Uninitialized, Init) => Send(TryMsg, true)
    case (Init, Init) => Send(TryMsg, true)
    case (Init, Uninitialized) => Send(TryMsg, false)
    case (Init, TryOpen) => Send(AckMsg, true)
    case (TryOpen, TryOpen) => Send(AckMsg, true)
    case (TryOpen, Init) => Send(AckMsg, false)
    case (Open, TryOpen) => Send(ConfirmMsg, false)
    case (TryOpen, Open) => Send(ConfirmMsg, true)
    case (Open, Open) => Complete
    case _ => Unhandled
  }

  // ---------------------------------------------------------------- building messages
  // The builders follow the source's orientation: the message goes from side a of `cfg` to side b.

  function Local(kind: Kind, s: Side): seq<string> {
    if kind == Channels then [s.connection] else [s.name]
  }

  function BuildInit(cfg: Config): Datagram {
    var versions := if cfg.kind == Channels then cfg.b.versions else [cfg.b.versions[0]];
    OpenInit(End(Init, None, cfg.a.name, Local(cfg.kind, cfg.b), versions, cfg.a.prefix, cfg.attribute))
  }

  /** The ordering or delay put in a Try: that of the queried source end, whatever the relayer holds. */
  function TryAttribute(cfg: Config, srcEnd: End): (r: nat)
    ensures r == srcEnd.attribute
  {
    if cfg.kind == Channels then srcEnd.attribute
    else if srcEnd.attribute != cfg.attribute then srcEnd.attribute
    else cfg.attribute
  }

  /** A channel end is answered only on the port it names. */
  predicate PortFits(cfg: Config, srcEnd: End) { cfg.kind == Channels ==> srcEnd.remote == cfg.b.name }

  /** `srcEnd` is the queried source end, `proof` the version proven some time later. */
  function BuildTry(cfg: Config, ids: Ids, srcEnd: End, proof: End): Datagram
    requires ids.a.Some?
  {
    var versions := if cfg.kind == Connections && srcEnd.versions == [] then cfg.a.versions else srcEnd.versions;
    OpenTry(ids.a.value,
            End(TryOpen, ids.a, cfg.a.name, Local(cfg.kind, cfg.b), versions, cfg.a.prefix, TryAttribute(cfg, srcEnd)),
            proof)
  }

  /** The end the relayer expects to find on the destination when it sends an Ack or a Confirm. */
  function Expected(cfg: Config, ids: Ids): End {
    End(TryOpen, ids.a, cfg.a.name, Local(cfg.kind, cfg.b),
        if cfg.kind == Channels then [] else cfg.a.versions, cfg.a.prefix, 0)
  }

  /** The compatibility check of an existing destination end against the expected one. */
  predicate DestinationFits(kind: Kind, existing: End, expected: End) {
    && existing.state.Number() <= expected.state.Number()
    && existing.local == expected.local
    && if kind == Channels then
         existing.counterparty.None?
         || (existing.counterparty == expected.counterparty && existing.remote == expected.remote)
       else
         && existing.remote == expected.remote
         && (existing.counterparty.None? || existing.counterparty == expected.counterparty)
         && existing.versions == expected.versions
         && existing.prefix == expected.prefix
  }

  /** Whether the relayer goes on to build an Ack or a Confirm for the queried destination end. */
  predicate Validated(cfg: Config, ids: Ids, dstEnd: End) {
    dstEnd.state != Uninitialized && DestinationFits(cfg.kind, dstEnd, Expected(cfg, ids))
  }

  /** What a transaction submission reports; a lost reply may follow an executed transaction. */
  datatype Delivery = Delivered | Dropped(frozen: bool) | Lost(frozen: bool)

  /**
   One pass of the retry loop as the outside world plays it: what other relayers do before each
   access to the chains, how each query is served, which identifier the chain would allocate and how
   the submission ends.
   */
  datatype Pass = Pass(
    beforeA: seq<Step>, readA: Read,
    beforeB: seq<Step>, readB: Read,
    beforeCheck: seq<Step>, readCheck: Read,
    beforeProof: seq<Step>, readProof: Read,
    beforeSend: seq<Step>, newId: Id, delivery: Delivery)

  /**
   Builds a non-Init message oriented from side a to side b of `cfg`. `src`/`dst` are the chains when
   the check is made, `srcLater` the source when the proof is built.
   */
  function Build(cfg: Config, ids: Ids, msg: Message, src: Chain, dst: Chain, srcLater: Chain,
                 readCheck: Read, readProof: Read): Reply<Datagram>
  {
    if msg == InitMsg then Ok(BuildInit(cfg))
    else if ids.a.None? then Err(false)
    else if msg == TryMsg then
      match Query(src, ids.a.value, readCheck)
      case Err(f) => Err(f)
      case Ok(srcEnd) =>
        if !PortFits(cfg, srcEnd) then Err(false) else
        match Query(srcLater, ids.a.value, readProof)
        case Err(f) => Err(f)
        case Ok(proof) => Ok(BuildTry(cfg, ids, srcEnd, proof))
    else if ids.b.None? then Err(false)
    else
      match Query(dst, ids.b.value, readCheck)
      case Err(f) => Err(f)
      case Ok(dstEnd) =>
        if !Validated(cfg, ids, dstEnd) then Err(false) else
        match Query(srcLater, ids.a.value, readProof)
        case Err(f) => Err(f)
        case Ok(proof) =>
          if msg == AckMsg then Ok(OpenAck(ids.b.value, ids.a.value, proof))
          else Ok(OpenConfirm(ids.b.value, proof))
  }

  // ---------------------------------------------------------------- one pass, and a whole run

  datatype Outcome = Finished | Retry | Halted | Panicked

  /** The chains, the held identifiers and the messages whose submission was reported successful. */
  datatype Progress = Progress(w: World, ids: Ids, sent: seq<Choice>)

  function Failed(frozen: bool): Outcome { if frozen then Halted else Retry }

  /** The identifiers after a successful submission: Init and Try report a new identifier. */
  function AfterSend(ids: Ids, msg: Message, toA: bool, newId: Id): Ids {
    if msg != InitMsg && msg != TryMsg then ids
    else if toA then ids.(a := Some(newId)) else ids.(b := Some(newId))
  }

  /** Submits a built datagram at the end of a pass. */
  function Submit(cfg: Config, st: Progress, msg: Message, toA: bool, d: Datagram, p: Pass): (Progress, Outcome) {
    var w := ExecAll(cfg.kind, st.w, p.beforeSend);
    var accepted := if toA then Accepts(cfg.kind, w.a, w.b, p.newId, d) else Accepts(cfg.kind, w.b, w.a, p.newId, d);
    match p.delivery
    case Dropped(f) => (st.(w := w), Failed(f))
    case Lost(f) => (st.(w := Exec(cfg.kind, w, Step(toA, p.newId, d))), Failed(f))
    case Delivered =>
      if !accepted then (st.(w := w), Retry)
      else (Progress(Exec(cfg.kind, w, Step(toA, p.newId, d)),
                     AfterSend(st.ids, msg, toA, p.newId),
                     st.sent + [Send(msg, toA)]), Retry)
  }

  /** The chains when a pass checks the ends and when it builds the proof. */
  function CheckTime(cfg: Config, w: World, p: Pass): World { ExecAll(cfg.kind, w, p.beforeCheck) }

  function ProofTime(cfg: Config, w: World, p: Pass): World { ExecAll(cfg.kind, CheckTime(cfg, w, p), p.beforeProof) }

  /** Builds the chosen message; a message to side a is built by the flipped object. */
  function BuildFor(cfg: Config, st: Progress, msg: Message, toA: bool, p: Pass): Reply<Datagram> {
    var w3 := CheckTime(cfg, st.w, p);
    var w4 := ProofTime(cfg, st.w, p);
    if toA then Build(cfg.Flipped(), st.ids.Flipped(), msg, w3.b, w3.a, w4.b, p.readCheck, p.readProof)
    else Build(cfg, st.ids, msg, w3.a, w3.b, w4.a, p.readCheck, p.readProof)
  }

  /** Builds and submits the chosen message. */
  function Perform(cfg: Config, st: Progress, msg: Message, toA: bool, p: Pass): (Progress, Outcome) {
    var later := st.(w := ProofTime(cfg, st.w, p));
    match BuildFor(cfg, st, msg, toA, p)
    case Err(f) => (later, Failed(f))
    case Ok(d) => Submit(cfg, later, msg, toA, d, p)
  }

  /** The state after the two queries of a pass, and what they showed. */
  function Observe(cfg: Config, st: Progress, p: Pass): (Progress, Observation) {
    var w1 := ExecAll(cfg.kind, st.w, p.beforeA);
    var w2 := ExecAll(cfg.kind, w1, p.beforeB);
    var r := Reconcile(st.ids, w1.a, p.readA, w2.b, p.readB);
    (Progress(w2, r.0, st.sent), r.1)
  }

  /** One call of the handshake step inside the retry loop. */
  function RunPass(cfg: Config, st: Progress, p: Pass): (Progress, Outcome) {
    var o := Observe(cfg, st, p);
    match o.1
    case NoAnswer(f) => (o.0, Failed(f))
    case Mismatch => (o.0, Panicked)
    case States(a, b) =>
      match Choose(a, b)
      case Complete => (o.0, Finished)
      case Unhandled => (o.0, Retry)
      case Send(msg, toA) => Perform(cfg, o.0, msg, toA, p)
  }

  /** The whole retry loop over the passes the retry strategy allows. */
  function RunAll(cfg: Config, st: Progress, ps: seq<Pass>): (Progress, Outcome)
    decreases |ps|
  {
    if ps == [] then (st, Retry)
    else
      var r := RunPass(cfg, st, ps[0]);
      if r.1 == Retry then RunAll(cfg, r.0, ps[1..]) else r
  }

  function Start(w: World): Progress { Progress(w, Ids(None, None), []) }

  /** The largest delay period of a new connection: 120 seconds, in nanoseconds. */
  const MAX_PACKET_DELAY: nat := 120_000_000_000

  /** Creating a channel or connection object: the delay is checked, then the handshake is run. */
  function Create(cfg: Config, w: World, ps: seq<Pass>): Option<(Progress, Outcome)> {
    if cfg.kind == Connections && cfg.attribute > MAX_PACKET_DELAY then None
    else Some(RunAll(cfg, Start(w), ps))
  }

  // ---------------------------------------------------------------- the driver as the source runs it

  class Handshake {
    const cfg: Config
    var a: Option<Id>
    var b: Option<Id>
    /** The messages whose submission was reported successful. */
    ghost var sent: seq<Choice>

    ghost function View(w: World): Progress
      reads this
    {
      Progress(w, Ids(a, b), sent)
    }

    constructor (cfg: Config)
      ensures this.cfg == cfg && Ids(a, b) == Ids(None, None) && sent == []
    {
      this.cfg := cfg;
      a, b, sent := None, None, [];
    }

    method UpdateAndQueryStates(w: World, p: Pass) returns (w': World, o: Observation)
      modifies this
      ensures (View(w'), o) == Observe(cfg, old(View(w)), p)
    {
      var relayerA, relayerB := a, b;
      var w1 := ExecAll(cfg.kind, w, p.beforeA);
      w' := ExecAll(cfg.kind, w1, p.beforeB);
      var answerA := QueryHeld(w1.a, relayerA, p.readA);
      if answerA.Err? {
        return w', NoAnswer(answerA.frozen);
      }
      var aEnd := answerA.value;
      if aEnd.counterparty.Some? && aEnd.counterparty != relayerB {
        b := aEnd.counterparty;
      }
      var answerB := QueryHeld(w'.b, b, p.readB);
      if answerB.Err? {
        return w', NoAnswer(answerB.frozen);
      }
      var bEnd := answerB.value;
      if bEnd.counterparty.Some? && bEnd.counterparty != relayerA {
        if b == relayerB {
          a := bEnd.counterparty;
        } else {
          return w', Mismatch;
        }
      }
      o := States(aEnd.state, bEnd.state);
    }

    method DoOpenHandshake(w: World, p: Pass) returns (w': World, o: Outcome)
      modifies this
      ensures (View(w'), o) == RunPass(cfg, old(View(w)), p)
    {
      var seen;
      w', seen := UpdateAndQueryStates(w, p);
      match seen {
        case NoAnswer(f) => return w', Failed(f);
        case Mismatch => return w', Panicked;
        case States(_, _) =>
      }
      var choice := Choose(seen.a, seen.b);
      match choice {
        case Complete => return w', Finished;
        case Unhandled => return w', Retry;
        case Send(_, _) =>
      }
      var w3 := ExecAll(cfg.kind, w', p.beforeCheck);
      w' := ExecAll(cfg.kind, w3, p.beforeProof);
      var built;
      if choice.toA {
        built := Build(cfg.Flipped(), Ids(b, a), choice.msg, w3.b, w3.a, w'.b, p.readCheck, p.readProof);
      } else {
        built := Build(cfg, Ids(a, b), choice.msg, w3.a, w3.b, w'.a, p.readCheck, p.readProof);
      }
      if built.Err? {
        return w', Failed(built.frozen);
      }
      w' := ExecAll(cfg.kind, w', p.beforeSend);
      var accepted :=
        if choice.toA then Accepts(cfg.kind, w'.a, w'.b, p.newId, built.value)
        else Accepts(cfg.kind, w'.b, w'.a, p.newId, built.value);
      if p.delivery.Dropped? {
        return w', Failed(p.delivery.frozen);
      }
      w' := Exec(cfg.kind, w', Step(choice.toA, p.newId, built.value));
      if p.delivery.Lost? {
        return w', Failed(p.delivery.frozen);
      }
      if accepted {
        if choice.msg == InitMsg || choice.msg == TryMsg {
          if choice.toA { a := Some(p.newId); } else { b := Some(p.newId); }
        }
        sent := sent + [choice];
      }
      o := Retry;
    }

    /** The retry loop: stops at the first pass that does not ask to be retried. */
    method Run(w: World, ps: seq<Pass>) returns (w': World, o: Outcome)
      modifies this
      ensures (View(w'), o) == RunAll(cfg, old(View(w)), ps)
    {
      w', o := w, Retry;
      var i := 0;
      while i < |ps| && o == Retry
        invariant 0 <= i <= |ps|
        invariant o == Retry ==> RunAll(cfg, old(View(w)), ps) == RunAll(cfg, View(w'), ps[i..])
        invariant o != Retry ==> RunAll(cfg, old(View(w)), ps) == (View(w'), o)
      {
        assert ps[i..][1..] == ps[i + 1..];
        w', o := DoOpenHandshake(w', ps[i]);
        i := i + 1;
      }
    }
  }
}
