/**
 Routing of chain events to workers: collecting a batch into one queue per object, and delivering the
 queues of the permitted objects.
 */
module Supervisor {
  import opened Options

  datatype EventKind =
    | NewBlock | UpdateClient
    | OpenInitConnection | OpenTryConnection | OpenAckConnection
    | OpenInitChannel | OpenTryChannel | OpenAckChannel | OpenConfirmChannel
    | SendPacket | TimeoutPacket | WriteAcknowledgement | CloseInitChannel
    | CrossChainQueryPacket | IncentivizedPacket | OtherEvent

  datatype Event = Event(kind: EventKind, height: nat, payload: nat)

  datatype ObjectKind = Client | Connection | Channel | Packet | CrossChainQuery

  /** Where an object relays: its two chains and the port, channel, connection or client it serves. */
  datatype Route = Route(src: string, dst: string, path: string)

  /** What a worker is responsible for. */
  datatype Object = Object(kind: ObjectKind, route: Route)

  /** Which kinds of relaying the configuration enables. */
  datatype Mode = Mode(clients: bool, connections: bool, channels: bool, packets: bool)

  /**
   The chain as the supervisor resolves events with it. The flag asks to accept a connection that is
   not open yet; resolving may fail.
   */
  datatype Source = Source(find: (Event, ObjectKind, bool) -> Option<Route>) {
    function Resolve(e: Event, kind: ObjectKind, allowPending: bool): Option<Object> {
      match find(e, kind, allowPending)
      case Some(route) => Some(Object(kind, route))
      case None => None
    }
  }

  // ---------------------------------------------------------------- specification

  function Single(enabled: bool, o: Option<Object>): seq<Object> {
    if enabled && o.Some? then [o.value] else []
  }

  /** The objects an event is meant for. */
  function Targets(mode: Mode, workers: set<Object>, src: Source, e: Event): seq<Object> {
    match e.kind
    case UpdateClient =>
      Single(mode.clients && src.Resolve(e, Client, false).Some? && src.Resolve(e, Client, false).value in workers,
             src.Resolve(e, Client, false))
    case OpenInitConnection => Single(mode.connections, src.Resolve(e, Connection, false))
    case OpenTryConnection => Single(mode.connections, src.Resolve(e, Connection, false))
    case OpenAckConnection => Single(mode.connections, src.Resolve(e, Connection, false))
    case OpenInitChannel => Single(mode.channels, src.Resolve(e, Channel, mode.connections))
    case OpenTryChannel => Single(mode.channels, src.Resolve(e, Channel, mode.connections))
    case OpenAckChannel =>
      Single(mode.clients, src.Resolve(e, Client, false))
      + Single(mode.channels, src.Resolve(e, Channel, mode.connections))
    case OpenConfirmChannel => Single(mode.clients, src.Resolve(e, Client, false))
    case SendPacket => Single(mode.packets, src.Resolve(e, Packet, false))
    case TimeoutPacket => Single(mode.packets, src.Resolve(e, Packet, false))
    case WriteAcknowledgement => Single(mode.packets, src.Resolve(e, Packet, false))
    case CloseInitChannel => Single(mode.packets, src.Resolve(e, Packet, false))
    case CrossChainQueryPacket => Single(mode.packets, src.Resolve(e, CrossChainQuery, false))
    case IncentivizedPacket => Single(mode.packets, src.Resolve(e, Packet, false))
    case _ => []
  }

  /** The queue of an object: the events of the batch meant for it, in batch order. */
  function Queue(mode: Mode, workers: set<Object>, src: Source, batch: seq<Event>, o: Object): seq<Event> {
    if batch == [] then []
    else
      var last := batch[|batch| - 1];
      Queue(mode, workers, src, batch[..|batch| - 1], o) + if o in Targets(mode, workers, src, last) then [last] else []
  }

  /** Queues of consecutive batches follow each other. */
  lemma {:induction false} QueueOfConcatenation(mode: Mode, workers: set<Object>, src: Source, first: seq<Event>,
                                                second: seq<Event>, o: Object)
    ensures Queue(mode, workers, src, first + second, o)
            == Queue(mode, workers, src, first, o) + Queue(mode, workers, src, second, o)
    decreases |second|
  {
    if second == [] {
      assert first + second == first;
    } else {
      var init := second[..|second| - 1];
      assert (first + second)[..|first + second| - 1] == first + init;
      QueueOfConcatenation(mode, workers, src, first, init, o);
    }
  }

  /** Events of this kind concern objects of that kind. */
  predicate Concerns(event: EventKind, kind: ObjectKind) {
    match kind
    case Client => event in {UpdateClient, OpenAckChannel, OpenConfirmChannel}
    case Connection => event in {OpenInitConnection, OpenTryConnection, OpenAckConnection}
    case Channel => event in {OpenInitChannel, OpenTryChannel, OpenAckChannel}
    case Packet => event in {SendPacket, TimeoutPacket, WriteAcknowledgement, CloseInitChannel, IncentivizedPacket}
    case CrossChainQuery => event == CrossChainQueryPacket
  }

  /** The mode enables relaying for objects of this kind. */
  predicate Enables(mode: Mode, kind: ObjectKind) {
    match kind
    case Client => mode.clients
    case Connection => mode.connections
    case Channel => mode.channels
    case Packet => mode.packets
    case CrossChainQuery => mode.packets
  }

  /**
   The event is meant for the object: relaying for it is enabled, events of this kind concern it, the
   chain resolves the event to it, and a client update finds a worker that waits for it.
   */
  predicate Meant(mode: Mode, workers: set<Object>, src: Source, e: Event, o: Object) {
    && Enables(mode, o.kind) && Concerns(e.kind, o.kind)
    && src.find(e, o.kind, o.kind == Channel && mode.connections) == Some(o.route)
    && (e.kind == UpdateClient ==> o in workers)
  }

  /** The targets of an event are exactly the objects it is meant for. */
  lemma TargetsExactly(mode: Mode, workers: set<Object>, src: Source, e: Event, o: Object)
    ensures o in Targets(mode, workers, src, e) <==> Meant(mode, workers, src, e, o)
  {
    assert o == Object(o.kind, o.route);
  }

  /** An event is queued for an object as often as the batch holds it if it is meant for the object, else never. */
  lemma {:induction false} QueueCounts(mode: Mode, workers: set<Object>, src: Source, batch: seq<Event>, o: Object,
                                       e: Event)
    ensures multiset(Queue(mode, workers, src, batch, o))[e]
            == if Meant(mode, workers, src, e, o) then multiset(batch)[e] else 0
  {
    if batch != [] {
      assert batch == batch[..|batch| - 1] + [batch[|batch| - 1]];
      TargetsExactly(mode, workers, src, batch[|batch| - 1], o);
      QueueCounts(mode, workers, src, batch[..|batch| - 1], o, e);
    }
  }

  function LastNewBlock(batch: seq<Event>): (r: Option<Event>)
    ensures r.None? ==> forall i :: 0 <= i < |batch| ==> batch[i].kind != NewBlock
    ensures r.Some? ==> exists i :: 0 <= i < |batch| && batch[i] == r.value && r.value.kind == NewBlock
                          && forall j :: i < j < |batch| ==> batch[j].kind != NewBlock
  {
    if batch == [] then None
    else if batch[|batch| - 1].kind == NewBlock then Some(batch[|batch| - 1])
    else LastNewBlock(batch[..|batch| - 1])
  }

  /** Only the acknowledgement of a channel opening is queued twice, for a client and for a channel. */
  lemma QueuedTwiceOnlyOnAck(mode: Mode, workers: set<Object>, src: Source, e: Event)
    ensures var ts := Targets(mode, workers, src, e);
            |ts| <= 2 && (|ts| == 2 ==> e.kind == OpenAckChannel && ts[0].kind == Client && ts[1].kind == Channel)
  {}

  // ---------------------------------------------------------------- collecting

  class CollectedEvents {
    var newBlock: Option<Event>
    var perObject: map<Object, seq<Event>>

    constructor ()
      ensures newBlock == None && perObject == map[]
    {
      newBlock, perObject := None, map[];
    }

    /** Adds the event to the queue of the object, creating it if needed. */
    method CollectEvent(e: Event, enabled: bool, target: Option<Object>)
      modifies this`perObject
      ensures perObject == Pushed(old(perObject), Single(enabled, target), e)
    {
      if enabled && target.Some? {
        var queue := if target.value in perObject then perObject[target.value] else [];
        perObject := perObject[target.value := queue + [e]];
      }
    }

    /** Handles one event of a batch. */
    method Collect(mode: Mode, workers: set<Object>, src: Source, e: Event)
      modifies this
      ensures perObject == Pushed(old(perObject), Targets(mode, workers, src, e), e)
      ensures newBlock == if e.kind == NewBlock then Some(e) else old(newBlock)
    {
      match e.kind {
        case NewBlock =>
          newBlock := Some(e);
        case UpdateClient =>
          var target := src.Resolve(e, Client, false);
          CollectEvent(e, mode.clients, if target.Some? && target.value in workers then target else None);
        case OpenInitConnection =>
          CollectEvent(e, mode.connections, src.Resolve(e, Connection, false));
        case OpenTryConnection =>
          CollectEvent(e, mode.connections, src.Resolve(e, Connection, false));
        case OpenAckConnection =>
          CollectEvent(e, mode.connections, src.Resolve(e, Connection, false));
        case OpenInitChannel =>
          CollectEvent(e, mode.channels, src.Resolve(e, Channel, mode.connections));
        case OpenTryChannel =>
          CollectEvent(e, mode.channels, src.Resolve(e, Channel, mode.connections));
        case OpenAckChannel =>
          PushedInTurn(perObject, Single(mode.clients, src.Resolve(e, Client, false)),
                       Single(mode.channels, src.Resolve(e, Channel, mode.connections)), e);
          CollectEvent(e, mode.clients, src.Resolve(e, Client, false));
          CollectEvent(e, mode.channels, src.Resolve(e, Channel, mode.connections));
        case OpenConfirmChannel =>
          CollectEvent(e, mode.clients, src.Resolve(e, Client, false));
        case SendPacket =>
          CollectEvent(e, mode.packets, src.Resolve(e, Packet, false));
        case TimeoutPacket =>
          CollectEvent(e, mode.packets, src.Resolve(e, Packet, false));
        case WriteAcknowledgement =>
          CollectEvent(e, mode.packets, src.Resolve(e, Packet, false));
        case CloseInitChannel =>
          CollectEvent(e, mode.packets, src.Resolve(e, Packet, false));
        case CrossChainQueryPacket =>
          CollectEvent(e, mode.packets, src.Resolve(e, CrossChainQuery, false));
        case IncentivizedPacket =>
          CollectEvent(e, mode.packets, src.Resolve(e, Packet, false));
        case OtherEvent =>
      }
    }
  }

  /** The queues after an event was pushed to each of some objects. */
  function Pushed(queues: map<Object, seq<Event>>, objects: seq<Object>, e: Event): map<Object, seq<Event>>
    decreases |objects|
  {
    if objects == [] then queues
    else
      var o := objects[0];
      Pushed(queues[o := (if o in queues then queues[o] else []) + [e]], objects[1..], e)
  }

  ghost predicate Distinct(order: seq<Object>) {
    forall i, j :: 0 <= i < j < |order| ==> order[i] != order[j]
  }

  /** The collected queues are exactly the non-empty queues of the specification. */
  ghost predicate Agrees(queues: map<Object, seq<Event>>, mode: Mode, workers: set<Object>, src: Source,
                         batch: seq<Event>)
  {
    forall o {:trigger Queue(mode, workers, src, batch, o)} ::
      && (o in queues <==> Queue(mode, workers, src, batch, o) != [])
      && (o in queues ==> queues[o] == Queue(mode, workers, src, batch, o))
  }

  lemma {:induction false} PushedAgrees(queues: map<Object, seq<Event>>, mode: Mode, workers: set<Object>, src: Source,
                                        batch: seq<Event>, e: Event)
    requires Agrees(queues, mode, workers, src, batch)
    ensures Agrees(Pushed(queues, Targets(mode, workers, src, e), e), mode, workers, src, batch + [e])
  {
    var ts := Targets(mode, workers, src, e);
    QueuedTwiceOnlyOnAck(mode, workers, src, e);
    var pushed := Pushed(queues, ts, e);
    PushedAt(queues, ts, e);
    assert (batch + [e])[..|batch|] == batch;
    forall o
      ensures (o in pushed <==> Queue(mode, workers, src, batch + [e], o) != [])
              && (o in pushed ==> pushed[o] == Queue(mode, workers, src, batch + [e], o))
    {
      assert o in queues <==> Queue(mode, workers, src, batch, o) != [];
    }
  }

  /** Pushing to distinct objects extends exactly their queues. */
  lemma {:induction false} PushedAt(queues: map<Object, seq<Event>>, objects: seq<Object>, e: Event)
    requires Distinct(objects)
    ensures forall o :: o in Pushed(queues, objects, e) <==> o in queues || o in objects
    ensures forall o :: o in Pushed(queues, objects, e) ==>
              Pushed(queues, objects, e)[o]
              == (if o in queues then queues[o] else []) + if o in objects then [e] else []
    decreases |objects|
  {
    if objects != [] {
      var first, rest := objects[0], objects[1..];
      var q := queues[first := (if first in queues then queues[first] else []) + [e]];
      assert objects == [first] + rest;
      PushedAt(q, rest, e);
    }
  }

  /** Collecting a batch refines the filter specification. */
  method CollectEvents(mode: Mode, workers: set<Object>, src: Source, batch: seq<Event>) returns (c: CollectedEvents)
    ensures fresh(c) && Agrees(c.perObject, mode, workers, src, batch) && c.newBlock == LastNewBlock(batch)
  {
    c := new CollectedEvents();
    for i := 0 to |batch|
      invariant fresh(c) && Agrees(c.perObject, mode, workers, src, batch[..i])
                && c.newBlock == LastNewBlock(batch[..i])
    {
      PushedAgrees(c.perObject, mode, workers, src, batch[..i], batch[i]);
      assert batch[..i + 1] == batch[..i] + [batch[i]];
      c.Collect(mode, workers, src, batch[i]);
    }
    assert batch[..|batch|] == batch;
  }

  lemma {:induction false} PushedInTurn(queues: map<Object, seq<Event>>, first: seq<Object>, second: seq<Object>,
                                        e: Event)
    requires |first| <= 1
    ensures Pushed(queues, first + second, e) == Pushed(Pushed(queues, first, e), second, e)
  {
    if first == [] {
      assert first + second == second;
    } else {
      assert (first + second)[1..] == second && first[1..] == [];
    }
  }

  // ---------------------------------------------------------------- delivering

  datatype Permission = Allow | Deny | FilterError

  /** The configured channel filter and the client filter. */
  datatype Policy = Policy(channelAllowed: Object -> bool, clientFilter: Object -> Permission)

  /** Whether the relayer relays for an object; cross-chain queries pass every filter. */
  predicate RelayOnObject(policy: Policy, o: Object) {
    && (o.kind == Packet || o.kind == Channel ==> policy.channelAllowed(o))
    && (o.kind != CrossChainQuery ==> policy.clientFilter(o) == Allow)
  }

  /** Which filters each kind of object has to pass. */
  lemma RelayedExactly(policy: Policy, o: Object)
    ensures RelayOnObject(policy, o) <==>
              match o.kind
              case CrossChainQuery => true
              case Client => policy.clientFilter(o) == Allow
              case Connection => policy.clientFilter(o) == Allow
              case Channel => policy.channelAllowed(o) && policy.clientFilter(o) == Allow
              case Packet => policy.channelAllowed(o) && policy.clientFilter(o) == Allow
  {}

  datatype Delivery = NotifyBlock(block: Event) | Events(target: Object, events: seq<Event>)

  /** What is delivered when the objects are visited in this order. */
  function Deliveries(policy: Policy, queues: map<Object, seq<Event>>, order: seq<Object>): seq<Delivery>
    requires forall o :: o in order ==> o in queues
  {
    if order == [] then []
    else
      var last := order[|order| - 1];
      Deliveries(policy, queues, order[..|order| - 1])
      + if RelayOnObject(policy, last) then [Events(last, queues[last])] else []
  }

  lemma {:induction false} DeliveredFromQueues(policy: Policy, queues: map<Object, seq<Event>>, order: seq<Object>,
                                               d: Delivery)
    requires forall p :: p in order ==> p in queues
    ensures d in Deliveries(policy, queues, order) ==>
              d.Events? && d.target in order && RelayOnObject(policy, d.target) && d.events == queues[d.target]
  {
    if order != [] {
      assert order == order[..|order| - 1] + [order[|order| - 1]];
      DeliveredFromQueues(policy, queues, order[..|order| - 1], d);
    }
  }

  /** Each permitted object gets its whole queue exactly once, a denied one nothing. */
  lemma {:induction false} DeliveredExactlyOnce(policy: Policy, queues: map<Object, seq<Event>>,
                                                order: seq<Object>, o: Object)
    requires Distinct(order) && o in order && forall p :: p in order ==> p in queues
    ensures multiset(Deliveries(policy, queues, order))[Events(o, queues[o])]
            == if RelayOnObject(policy, o) then 1 else 0
  {
    var init, last := order[..|order| - 1], order[|order| - 1];
    assert order == init + [last];
    var d := Events(o, queues[o]);
    if o == last {
      DeliveredFromQueues(policy, queues, init, d);
      assert multiset(Deliveries(policy, queues, init))[d] == 0;
    } else {
      DeliveredExactlyOnce(policy, queues, init, o);
    }
  }

  /** No running chain was dropped and only chains that can be spawned were added. */
  ghost predicate Running(before: set<string>, after: set<string>, spawns: string -> bool) {
    before <= after && forall c :: c in after ==> c in before || spawns(c)
  }

  /** Both chains of an object are running or can be spawned. */
  ghost predicate Servable(chains: set<string>, o: Object, spawns: string -> bool) {
    (o.route.src in chains || spawns(o.route.src)) && (o.route.dst in chains || spawns(o.route.dst))
  }

  /** The permitted ones among the visited objects. */
  ghost function Permitted(policy: Policy, order: seq<Object>): set<Object> {
    set o | o in order && RelayOnObject(policy, o)
  }

  class Supervisor {
    /** Chains whose runtime is running, objects with a worker, and what the workers were sent. */
    var chains: set<string>
    var workers: set<Object>
    var delivered: seq<Delivery>

    constructor ()
      ensures delivered == []
    {
      chains, workers, delivered := {}, {}, [];
    }

    /** A running chain runtime is reused; otherwise one has to be spawned. */
    method GetOrSpawn(chain: string, spawns: string -> bool) returns (ok: bool)
      modifies this`chains
      ensures ok <==> chain in old(chains) || spawns(chain)
      ensures chains == if ok then old(chains) + {chain} else old(chains)
    {
      ok := chain in chains || spawns(chain);
      if ok { chains := chains + {chain}; }
    }

    /** Spawns what an object needs and hands its events to its worker. */
    method Deliver(o: Object, events: seq<Event>, spawns: string -> bool) returns (ok: bool)
      modifies this
      ensures ok <==> Servable(old(chains), o, spawns)
      ensures Running(old(chains), chains, spawns)
      ensures ok ==> delivered == old(delivered) + [Events(o, events)] && workers == old(workers) + {o}
                     && o.route.src in chains && o.route.dst in chains
      ensures !ok ==> delivered == old(delivered) && workers == old(workers)
    {
      ok := GetOrSpawn(o.route.src, spawns);
      if !ok { return; }
      ok := GetOrSpawn(o.route.dst, spawns);
      if !ok { return; }
      workers := workers + {o};
      delivered := delivered + [Events(o, events)];
    }

    /**
     Delivers the queues of the permitted objects, visiting the objects in an arbitrary order. `order`
     lists the objects dealt with; an error stops right at `failed`.
     */
    method DeliverAll(queues: map<Object, seq<Event>>, policy: Policy, spawns: string -> bool)
      returns (ok: bool, ghost order: seq<Object>, ghost failed: Option<Object>)
      requires forall o :: o in queues ==> queues[o] != []
      modifies this
      ensures Distinct(order) && (forall o :: o in order ==> o in queues)
      ensures delivered == old(delivered) + Deliveries(policy, queues, order)
      ensures ok ==> failed.None? && forall o :: o in queues ==> o in order
      ensures !ok ==>
                && failed.Some? && failed.value in queues && failed.value !in order
                && RelayOnObject(policy, failed.value) && !Servable(old(chains), failed.value, spawns)
      ensures workers == old(workers) + Permitted(policy, order)
      ensures forall o :: o in Permitted(policy, order) ==> Servable(old(chains), o, spawns)
      ensures Running(old(chains), chains, spawns)
    {
      order, failed := [], None;
      var remaining := queues.Keys;
      while remaining != {}
        invariant remaining <= queues.Keys && Distinct(order)
        invariant forall o :: o in queues ==> (o in remaining <==> o !in order)
        invariant forall o :: o in order ==> o in queues
        invariant delivered == old(delivered) + Deliveries(policy, queues, order)
        invariant workers == old(workers) + Permitted(policy, order)
        invariant forall o :: o in Permitted(policy, order) ==> Servable(old(chains), o, spawns)
        invariant Running(old(chains), chains, spawns)
        decreases remaining
      {
        var next :| next in remaining;
        remaining := remaining - {next};
        assert (order + [next])[..|order|] == order;
        if RelayOnObject(policy, next) && queues[next] != [] {
          ok := Deliver(next, queues[next], spawns);
          if !ok { failed := Some(next); return; }
        }
        assert Permitted(policy, order + [next])
            == Permitted(policy, order) + if RelayOnObject(policy, next) then {next} else {};
        order := order + [next];
      }
      ok := true;
    }

    /** Collects a batch, notifies the new block first and then delivers the queues. */
    method ProcessBatch(mode: Mode, policy: Policy, src: Source, spawns: string -> bool, batch: seq<Event>)
      returns (ok: bool, ghost queues: map<Object, seq<Event>>, ghost order: seq<Object>, ghost failed: Option<Object>)
      modifies this
      ensures Agrees(queues, mode, old(workers), src, batch)
      ensures Distinct(order) && (forall o :: o in order ==> o in queues)
      ensures delivered == old(delivered)
                + (if LastNewBlock(batch).Some? then [NotifyBlock(LastNewBlock(batch).value)] else [])
                + Deliveries(policy, queues, order)
      ensures ok ==> failed.None? && forall o :: o in queues ==> o in order
      ensures !ok ==>
                && failed.Some? && failed.value in queues && failed.value !in order
                && RelayOnObject(policy, failed.value) && !Servable(old(chains), failed.value, spawns)
      ensures workers == old(workers) + Permitted(policy, order)
      ensures forall o :: o in Permitted(policy, order) ==> Servable(old(chains), o, spawns)
      ensures Running(old(chains), chains, spawns)
    {
      var c := CollectEvents(mode, workers, src, batch);
      queues := c.perObject;
      forall o | o in queues
        ensures queues[o] != []
      {
        assert o in queues <==> Queue(mode, old(workers), src, batch, o) != [];
      }
      if c.newBlock.Some? {
        delivered := delivered + [NotifyBlock(c.newBlock.value)];
      }
      ok, order, failed := DeliverAll(c.perObject, policy, spawns);
    }
  }
}
