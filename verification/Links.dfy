/** Links between two chains: building one from a channel end, and reversing it. */
module Links {
  import opened Options
  import opened Ends

  datatype PortChannel = PortChannel(port: string, channel: string)

  datatype ChannelEnd = ChannelEnd(state: State, ordering: nat, remotePort: string, remoteChannel: Option<string>,
                                   hops: seq<string>)

  datatype ConnectionEnd = ConnectionEnd(state: State, client: string, remoteClient: string,
                                         remoteConnection: Option<string>, delay: nat)

  datatype Chain = Chain(id: string, channels: map<PortChannel, ChannelEnd>, connections: map<string, ConnectionEnd>)

  datatype Side = Side(chain: string, client: string, connection: string, port: string, channel: string)

  datatype Link = Link(ordering: nat, delay: nat, a: Side, b: Side) {
    function Swapped(): Link { Link(ordering, delay, b, a) }
  }

  datatype LinkError =
    | ChannelNotFound | InvalidChannelState | NoCounterpartyChannel | NoConnectionHop
    | DestinationNotFound | MismatchedEnds | IncompleteDestination
    | ConnectionNotFound | ConnectionNotOpen | Panic

  /** The end on the destination names the expected end as its counterparty. */
  predicate CounterpartyMatches(chain: Chain, at: PortChannel, expected: PortChannel) {
    && at in chain.channels && chain.channels[at].remoteChannel == Some(expected.channel)
    && chain.channels[at].remotePort == expected.port
  }

  /** Why an end on the destination is not a fit counterparty for the expected one, if so. */
  function CheckCounterparty(chain: Chain, at: PortChannel, expected: PortChannel): (e: Option<LinkError>)
    ensures e.None? <==> CounterpartyMatches(chain, at, expected)
  {
    if at !in chain.channels then Some(DestinationNotFound)
    else
      var end := chain.channels[at];
      match end.remoteChannel
      case None => Some(IncompleteDestination)
      case Some(channel) => if PortChannel(end.remotePort, channel) != expected then Some(MismatchedEnds) else None
  }

  /** A link from the end `at` of chain `a` to chain `b`. */
  function NewLink(a: Chain, b: Chain, at: PortChannel): Result<Link, LinkError> {
    if at !in a.channels then Failure(ChannelNotFound)
    else
      var end := a.channels[at];
      if end.state != Open && end.state != Closed then Failure(InvalidChannelState)
      else if end.remoteChannel.None? then Failure(NoCounterpartyChannel)
      else if end.hops == [] then Failure(NoConnectionHop)
      else
        var across := PortChannel(end.remotePort, end.remoteChannel.value);
        var checked := CheckCounterparty(b, across, at);
        if checked.Some? then Failure(checked.value)
        else if end.hops[0] !in a.connections then Failure(ConnectionNotFound)
        else
          var connection := a.connections[end.hops[0]];
          if connection.state != Open then Failure(ConnectionNotOpen)
          else if connection.remoteConnection.None? then Failure(Panic)
          else
            Success(Link(end.ordering, connection.delay,
                         Side(a.id, connection.client, end.hops[0], at.port, at.channel),
                         Side(b.id, connection.remoteClient, connection.remoteConnection.value, across.port,
                              across.channel)))
  }

  /** A link is built exactly for an open or closed end that its counterparty names back, on an open connection. */
  lemma BuiltExactly(a: Chain, b: Chain, at: PortChannel)
    ensures NewLink(a, b, at).Success? <==>
              && at in a.channels && (a.channels[at].state == Open || a.channels[at].state == Closed)
              && a.channels[at].remoteChannel.Some? && a.channels[at].hops != []
              && CounterpartyMatches(b, PortChannel(a.channels[at].remotePort, a.channels[at].remoteChannel.value), at)
              && a.channels[at].hops[0] in a.connections && a.connections[a.channels[at].hops[0]].state == Open
              && a.connections[a.channels[at].hops[0]].remoteConnection.Some?
  {}

  /** Each failure tells the first check that is not met; a missing remote connection is not checked at all. */
  lemma FailsOnFirstUnmetCheck(a: Chain, b: Chain, at: PortChannel)
    requires at in a.channels && a.channels[at].remoteChannel.Some? && a.channels[at].hops != []
    requires a.channels[at].state == Open || a.channels[at].state == Closed
    ensures var across := PortChannel(a.channels[at].remotePort, a.channels[at].remoteChannel.value);
            var hop, r := a.channels[at].hops[0], NewLink(a, b, at);
            && (r == Failure(DestinationNotFound) <==> across !in b.channels)
            && (r == Failure(IncompleteDestination) <==>
                  across in b.channels && b.channels[across].remoteChannel.None?)
            && (CounterpartyMatches(b, across, at) ==>
                  && (r == Failure(ConnectionNotFound) <==> hop !in a.connections)
                  && (r == Failure(ConnectionNotOpen) <==> hop in a.connections && a.connections[hop].state != Open)
                  && (r == Failure(Panic) <==>
                        && hop in a.connections && a.connections[hop].state == Open
                        && a.connections[hop].remoteConnection.None?))
  {}

  /** A side carries what its own chain stores. */
  ghost predicate Carries(chain: Chain, s: Side, ordering: nat, delay: nat) {
    var at := PortChannel(s.port, s.channel);
    && s.chain == chain.id && at in chain.channels && s.connection in chain.connections
    && chain.channels[at].hops != [] && s.connection == chain.channels[at].hops[0]
    && s.client == chain.connections[s.connection].client
    && ordering == chain.channels[at].ordering && delay == chain.connections[s.connection].delay
  }

  /**
   On mutually bound chains, each side of a link carries what its own chain stores; side a is the given
   end and side b the end it is bound to.
   */
  lemma SidesAreStored(a: Chain, b: Chain, at: PortChannel)
    requires MutuallyBound(a, b) && NewLink(a, b, at).Success?
    ensures var l := NewLink(a, b, at).value;
            && Carries(a, l.a, l.ordering, l.delay) && Carries(b, l.b, l.ordering, l.delay)
            && PortChannel(l.a.port, l.a.channel) == at
            && CounterpartyMatches(a, at, PortChannel(l.b.port, l.b.channel))
            && CounterpartyMatches(b, PortChannel(l.b.port, l.b.channel), at)
  {
    var l := NewLink(a, b, at).value;
    assert CounterpartyMatches(a, at, PortChannel(l.b.port, l.b.channel));
  }

  /** The link the other way, built anew from the destination end; `a` and `b` are the chains of the link. */
  function Reverse(l: Link, a: Chain, b: Chain): Result<Link, LinkError> {
    NewLink(b, a, PortChannel(l.b.port, l.b.channel))
  }

  /** Two connection ends opened with each other. */
  ghost predicate Connected(a: Chain, b: Chain, x: string, y: string) {
    && x in a.connections && y in b.connections
    && a.connections[x].remoteConnection == Some(y) && b.connections[y].remoteConnection == Some(x)
    && a.connections[x].client == b.connections[y].remoteClient
    && a.connections[x].remoteClient == b.connections[y].client
    && a.connections[x].delay == b.connections[y].delay
  }

  /** Ends that name each other were opened with each other, over connections opened with each other. */
  ghost predicate MutuallyBound(a: Chain, b: Chain) {
    forall x, y {:trigger a.channels[x], b.channels[y]} ::
      x in a.channels && y in b.channels && CounterpartyMatches(a, x, y) && CounterpartyMatches(b, y, x) ==>
        && a.channels[x].ordering == b.channels[y].ordering
        && |a.channels[x].hops| == 1 && |b.channels[y].hops| == 1
        && Connected(a, b, a.channels[x].hops[0], b.channels[y].hops[0])
  }

  /**
   Reversing a link succeeds exactly when the destination end and its connection are open, or the end
   closed; it then swaps the two sides and keeps ordering and delay.
   */
  lemma ReverseSwaps(a: Chain, b: Chain, at: PortChannel)
    requires MutuallyBound(a, b) && NewLink(a, b, at).Success?
    ensures var l := NewLink(a, b, at).value;
            var across := PortChannel(l.b.port, l.b.channel);
            && across in b.channels && l.b.connection in b.connections
            && (Reverse(l, a, b).Success? <==>
                  (b.channels[across].state == Open || b.channels[across].state == Closed)
                    && b.connections[l.b.connection].state == Open)
            && (Reverse(l, a, b).Success? ==> Reverse(l, a, b).value == l.Swapped())
  {}

  /** Reversing twice gives the original link back. */
  lemma ReverseTwice(a: Chain, b: Chain, at: PortChannel)
    requires MutuallyBound(a, b) && NewLink(a, b, at).Success? && Reverse(NewLink(a, b, at).value, a, b).Success?
    ensures Reverse(Reverse(NewLink(a, b, at).value, a, b).value, b, a) == NewLink(a, b, at)
  {}
}
