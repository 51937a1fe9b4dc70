/**
 Updating the light client that the destination chain keeps of the source chain: validating the
 client, choosing the trusted height, waiting out the clock drift and building the update messages.
 */
module ForeignClient {
  import opened Options
  import opened Heights
  import opened Timestamps

  /** A client without a trusting period neither expires nor needs refreshing. */
  datatype ClientState = ClientState(latest: Height, frozen: bool, trustingPeriod: Option<nat>, maxClockDrift: nat) {
    predicate Expired(elapsed: nat) { trustingPeriod.Some? && elapsed > trustingPeriod.value }

    /** Two thirds of the trusting period. */
    function RefreshPeriod(): Option<nat> {
      if trustingPeriod.Some? then Some(2 * trustingPeriod.value / 3) else None
    }
  }

  datatype Header = Header(height: Height, time: Timestamp)

  datatype Status = Status(height: Height, time: Timestamp)

  datatype Error =
    | QueryFailed | ExpiredOrFrozen | NotTrusted(elapsed: nat) | MissingSmallerHeight
    | TimeOverflow | HeaderInFuture | StillWaiting

  /**
   What the two chains answer while one update is being built, in the order it is asked; a failed query
   answers None.
   */
  datatype Answers = Answers(
    client: Option<ClientState>,
    consensus: map<Height, Timestamp>,
    heights: Option<seq<Height>>,
    firstSrcTime: Option<Timestamp>,
    secondSrcTime: Option<Timestamp>,
    header: Option<(Header, seq<Header>)>,
    signer: bool,
    dstStatus: seq<Option<Status>>)

  // ---------------------------------------------------------------- trusting period

  /** The time elapsed since the consensus state, zero if it lies ahead of the source chain. */
  function Elapsed(now: Timestamp, consensus: Timestamp): nat {
    if DurationSince(now, consensus).Some? then DurationSince(now, consensus).value else 0
  }

  /** Fails unless the consensus state at `h` exists and is within the trusting period. */
  function CheckTrustingPeriod(client: ClientState, consensus: map<Height, Timestamp>, h: Height,
                               srcTime: Option<Timestamp>): Result<nat, Error>
  {
    if h !in consensus then Failure(QueryFailed)
    else if srcTime.None? then Failure(QueryFailed)
    else
      var elapsed := Elapsed(srcTime.value, consensus[h]);
      if client.Expired(elapsed) then Failure(NotTrusted(elapsed)) else Success(elapsed)
  }

  /** The trusting period in numbers: the check passes up to and including its last moment. */
  lemma TrustInNumbers(client: ClientState, consensus: map<Height, Timestamp>, h: Height, srcTime: Option<Timestamp>)
    ensures var r := CheckTrustingPeriod(client, consensus, h, srcTime);
            && (h !in consensus || srcTime.None? <==> r == Failure(QueryFailed))
            && (h in consensus && consensus[h].Some? && srcTime.Some? && srcTime.value.Some? ==>
                  var past, now := consensus[h].value, srcTime.value.value;
                  && (client.trustingPeriod.Some? ==> (r.Success? <==> now <= past + client.trustingPeriod.value))
                  && (r.Success? ==> r.value == if past <= now then now - past else 0))
  {}

  /** The client state and the age of its latest consensus state, if the client can be used. */
  function ValidatedClientState(client: Option<ClientState>, consensus: map<Height, Timestamp>,
                                srcTime: Option<Timestamp>): Result<(ClientState, nat), Error>
  {
    if client.None? then Failure(QueryFailed)
    else if client.value.frozen then Failure(ExpiredOrFrozen)
    else
      match CheckTrustingPeriod(client.value, consensus, client.value.latest, srcTime)
      case Success(elapsed) => Success((client.value, elapsed))
      case Failure(NotTrusted(_)) => Failure(ExpiredOrFrozen)
      case Failure(e) => Failure(e)
  }

  // ---------------------------------------------------------------- trusted height

  function FirstBelow(hs: seq<Height>, target: Height): Option<Height> {
    if hs == [] then None
    else if hs[0].Less(target) then Some(hs[0])
    else FirstBelow(hs[1..], target)
  }

  /** The latest height if it is below the target, else the first stored one below it in descending order. */
  function SolveTrustedHeight(client: ClientState, heights: Option<seq<Height>>, target: Height)
    : Result<Height, Error>
  {
    if client.latest.Less(target) then Success(client.latest)
    else if heights.None? then Failure(QueryFailed)
    else
      match FirstBelow(SortDescending(heights.value), target)
      case Some(h) => Success(h)
      case None => Failure(MissingSmallerHeight)
  }

  ghost predicate GreatestBelow(h: Height, hs: seq<Height>, target: Height) {
    h in hs && h.Less(target) && forall k :: k in hs && k.Less(target) ==> k.AtMost(h)
  }

  lemma {:induction false} FirstBelowIsGreatest(hs: seq<Height>, target: Height)
    requires Descending(hs)
    ensures FirstBelow(hs, target).Some? ==> GreatestBelow(FirstBelow(hs, target).value, hs, target)
    ensures FirstBelow(hs, target).None? ==> forall k :: k in hs ==> !k.Less(target)
  {
    if hs != [] {
      assert hs == [hs[0]] + hs[1..];
      FirstBelowIsGreatest(hs[1..], target);
    }
  }

  /**
   The search fails exactly when no stored height is below the target. The height it returns is the
   greatest stored one below the target exactly when none lies between the client's latest height and
   the target; in particular when the latest height is the greatest stored one.
   */
  lemma SolvesToGreatestBelow(client: ClientState, hs: seq<Height>, target: Height)
    requires client.latest in hs
    ensures var r := SolveTrustedHeight(client, Some(hs), target);
            && (r.Failure? <==> forall k :: k in hs ==> !k.Less(target))
            && (r.Failure? ==> r.error == MissingSmallerHeight)
            && (r.Success? ==> r.value in hs && r.value.Less(target))
            && (r.Success? ==>
                  (GreatestBelow(r.value, hs, target) <==>
                   !exists k :: k in hs && client.latest.Less(k) && k.Less(target)))
  {
    var sorted := SortDescending(hs);
    FirstBelowIsGreatest(sorted, target);
    forall k
      ensures k in sorted <==> k in hs
    {
      SameElements(hs, k);
    }
  }

  /** A client whose latest height is not its greatest stored one: the search misses height 5. */
  lemma MissesGreatestBelow(client: ClientState)
    requires client.latest == Height(0, 1)
    ensures SolveTrustedHeight(client, Some([Height(0, 1), Height(0, 5)]), Height(0, 9)) == Success(Height(0, 1))
    ensures !GreatestBelow(Height(0, 1), [Height(0, 1), Height(0, 5)], Height(0, 9))
  {
    var hs := [Height(0, 1), Height(0, 5)];
    assert hs[1] in hs && Height(0, 5).Less(Height(0, 9)) && !Height(0, 5).AtMost(Height(0, 1));
  }

  // ---------------------------------------------------------------- waiting for the destination

  /** The header is not ahead of the destination's time plus the allowed drift. */
  predicate Acceptable(header: Timestamp, status: Status, drift: nat) {
    Plus(status.time, drift).Success? && !After(header, Plus(status.time, drift).value)
  }

  predicate Ahead(header: Timestamp, status: Status, drift: nat) {
    Plus(status.time, drift).Success? && After(header, Plus(status.time, drift).value)
  }

  /** Clock drift in numbers: what a destination at time `s` makes of a header at time `t`. */
  lemma DriftInNumbers(header: Timestamp, status: Status, drift: nat)
    ensures header.Some? && status.time.Some? ==>
              var t, s := header.value, status.time.value;
              && (Acceptable(header, status, drift) <==> t <= s + drift <= MAX_TIME)
              && (Ahead(header, status, drift) <==> s + drift <= MAX_TIME && s + drift < t)
    ensures Plus(status.time, drift).Failure? <==> status.time.Some? && status.time.value + drift > MAX_TIME
    ensures header.None? || status.time.None? ==> !Ahead(header, status, drift)
    ensures status.time.None? ==> Acceptable(header, status, drift)
  {}

  /**
   The wait ends with the reply at `k`: a failed query, a first reply that the header is not ahead of,
   or a later one with a new block.
   */
  predicate Decides(drift: nat, header: Timestamp, replies: seq<Option<Status>>, k: nat)
    requires k < |replies|
  {
    replies[k].None?
    || if k == 0 then !Ahead(header, replies[0].value, drift)
       else replies[0].Some? && replies[0].value.height.Increment().AtMost(replies[k].value.height)
  }

  /**
   Waits until the destination accepts the header's time, for at most one new block. The answers to
   the status queries are `replies`; `used` counts the queries made. The first reply that decides is
   the last one used, and each result holds exactly of that reply.
   */
  method WaitForHeaderValidationDelay(drift: nat, header: Timestamp, replies: seq<Option<Status>>)
    returns (r: Result<(), Error>, used: nat)
    ensures used <= |replies| && (forall i :: 0 <= i < used - 1 ==> !Decides(drift, header, replies, i))
    ensures r.Failure? ==> r.error in {StillWaiting, QueryFailed, TimeOverflow, HeaderInFuture}
    ensures r == Failure(StillWaiting) <==>
              used == |replies| && forall i :: 0 <= i < |replies| ==> !Decides(drift, header, replies, i)
    ensures r != Failure(StillWaiting) ==> used > 0 && Decides(drift, header, replies, used - 1)
    ensures r == Failure(QueryFailed) <==> used > 0 && replies[used - 1].None?
    ensures r == Failure(TimeOverflow) <==>
              && used > 0 && replies[used - 1].Some? && Decides(drift, header, replies, used - 1)
              && Plus(replies[used - 1].value.time, drift).Failure?
    ensures r == Failure(HeaderInFuture) <==>
              && used > 1 && replies[used - 1].Some? && Decides(drift, header, replies, used - 1)
              && Ahead(header, replies[used - 1].value, drift)
    ensures r.Success? <==>
              && used > 0 && replies[used - 1].Some? && Decides(drift, header, replies, used - 1)
              && Acceptable(header, replies[used - 1].value, drift)
    ensures r != Failure(StillWaiting) && header.Some? && replies[used - 1].Some?
            && replies[used - 1].value.time.Some? ==>
              var t, s := header.value, replies[used - 1].value.time.value;
              && (r.Success? <==> t <= s + drift <= MAX_TIME)
              && (r == Failure(TimeOverflow) <==> s + drift > MAX_TIME)
              && (r == Failure(HeaderInFuture) <==> s + drift <= MAX_TIME && s + drift < t)
    ensures replies != [] && replies[0].Some? && replies[0].value.time.Some? && header.Some?
            && replies[0].value.time.value + drift <= MAX_TIME ==>
              (used == 1 && r.Success? <==> header.value <= replies[0].value.time.value + drift)
  {
    used := 0;
    if |replies| == 0 { return Failure(StillWaiting), used; }
    used := 1;
    if replies[0].None? {
      assert Decides(drift, header, replies, 0);
      return Failure(QueryFailed), used;
    }
    var status := replies[0].value;
    var adjusted := Plus(status.time, drift);
    assert Ahead(header, status, drift) || Decides(drift, header, replies, 0);
    if adjusted.Failure? { return Failure(TimeOverflow), used; }
    if After(header, adjusted.value) {
      var next := status.height.Increment();
      var waiting := true;
      while waiting
        invariant 1 <= used <= |replies| && replies[0].Some? && next == replies[0].value.height.Increment()
        invariant forall i :: 0 <= i < used ==> replies[i].Some?
        invariant forall i :: 0 <= i < (if waiting then used else used - 1) ==> !Decides(drift, header, replies, i)
        invariant !waiting ==> used > 1 && status == replies[used - 1].value
        invariant !waiting ==> Decides(drift, header, replies, used - 1)
        decreases |replies| - used, waiting
      {
        if used == |replies| { return Failure(StillWaiting), used; }
        used := used + 1;
        if replies[used - 1].None? {
          assert Decides(drift, header, replies, used - 1);
          return Failure(QueryFailed), used;
        }
        status := replies[used - 1].value;
        if next.AtMost(status.height) { waiting := false; }
      }
    }
    adjusted := Plus(status.time, drift);
    if adjusted.Failure? { return Failure(TimeOverflow), used; }
    if After(header, adjusted.value) { return Failure(HeaderInFuture), used; }
    r := Success(());
  }

  // ---------------------------------------------------------------- building the update

  /** The trusted height: the caller's, if it has a consensus state, or a solved one. */
  function ChosenHeight(client: ClientState, q: Answers, target: Height, requested: Option<Height>)
    : Result<Height, Error>
  {
    if requested.None? then SolveTrustedHeight(client, q.heights, target)
    else if client.latest != requested.value && requested.value !in q.consensus then Failure(QueryFailed)
    else Success(requested.value)
  }

  /** The consensus state at `h` exists and is within the trusting period at the time it is checked. */
  ghost predicate WithinTrust(client: ClientState, q: Answers, h: Height) {
    var srcTime := if h == client.latest then q.firstSrcTime else q.secondSrcTime;
    h in q.consensus && srcTime.Some? && !client.Expired(Elapsed(srcTime.value, q.consensus[h]))
  }

  /** The consensus state at `h` was found to be older than the trusting period. */
  ghost predicate Stale(client: ClientState, q: Answers, h: Height) {
    var srcTime := if h == client.latest then q.firstSrcTime else q.secondSrcTime;
    h in q.consensus && srcTime.Some? && client.Expired(Elapsed(srcTime.value, q.consensus[h]))
  }

  /** The status queries lead to a reply that decides the wait in favour of the header. */
  ghost predicate WaitSucceeds(drift: nat, header: Timestamp, replies: seq<Option<Status>>) {
    exists k: nat ::
      && k < |replies| && Decides(drift, header, replies, k) && replies[k].Some?
      && Acceptable(header, replies[k].value, drift)
      && forall i :: 0 <= i < k ==> !Decides(drift, header, replies, i)
  }

  /** All that an update needs: a usable client and trusted height, a header and a destination that accepts it. */
  ghost predicate Updatable(q: Answers, target: Height, requested: Option<Height>) {
    && q.client.Some? && !q.client.value.frozen && WithinTrust(q.client.value, q, q.client.value.latest)
    && ChosenHeight(q.client.value, q, target, requested).Success?
    && WithinTrust(q.client.value, q, ChosenHeight(q.client.value, q, target, requested).value)
    && ChosenHeight(q.client.value, q, target, requested).value.Less(target)
    && q.header.Some? && q.signer
    && WaitSucceeds(q.client.value.maxClockDrift, q.header.value.0.time, q.dstStatus)
  }

  /**
   Builds the messages that take the client to `target`. Messages are returned exactly for a client that
   is not frozen, from a trusted height below the target and within the trusting period, for a header
   the destination does not find in the future; they are the supporting headers in order and then the
   target header. Nothing is returned exactly when the caller asked for a usable trusted height that
   is not below the target. `used` counts the status queries made at the destination.
   */
  method BuildUpdateClient(q: Answers, target: Height, requested: Option<Height>)
    returns (r: Result<seq<Header>, Error>, ghost trusted: Height, ghost used: nat)
    ensures r.Success? ==>
              && q.client.Some? && !q.client.value.frozen
              && WithinTrust(q.client.value, q, q.client.value.latest)
              && ChosenHeight(q.client.value, q, target, requested) == Success(trusted)
              && WithinTrust(q.client.value, q, trusted)
    ensures r.Success? ==> (r.value == [] <==> target.AtMost(trusted))
    ensures r.Success? && r.value == [] ==> requested == Some(trusted)
    ensures r.Success? && r.value != [] ==>
              && trusted.Less(target) && q.header.Some? && r.value == q.header.value.1 + [q.header.value.0]
              && 0 < used <= |q.dstStatus| && q.dstStatus[used - 1].Some?
              && (forall i :: 0 <= i < used - 1 ==>
                    !Decides(q.client.value.maxClockDrift, q.header.value.0.time, q.dstStatus, i))
              && Acceptable(q.header.value.0.time, q.dstStatus[used - 1].value, q.client.value.maxClockDrift)
    ensures r.Success? && requested.Some? ==> trusted == requested.value
    ensures r.Success? && requested.None? ==>
              if q.client.value.latest.Less(target) then trusted == q.client.value.latest
              else q.heights.Some? && GreatestBelow(trusted, q.heights.value, target)
    ensures r.Success? && r.value != [] && q.header.value.0.time.Some? && q.dstStatus[used - 1].value.time.Some? ==>
              q.header.value.0.time.value
              <= q.dstStatus[used - 1].value.time.value + q.client.value.maxClockDrift <= MAX_TIME
    ensures r == Failure(ExpiredOrFrozen) <==>
              q.client.Some? && (q.client.value.frozen || Stale(q.client.value, q, q.client.value.latest))
    ensures r.Failure? && r.error.NotTrusted? ==>
              q.client.Some? && trusted != q.client.value.latest && Stale(q.client.value, q, trusted)
    ensures Updatable(q, target, requested) <==> r.Success? && r.value != []
    ensures r == Failure(MissingSmallerHeight) ==>
              q.client.Some? && requested.None? && q.heights.Some?
              && !q.client.value.latest.Less(target) && forall k :: k in q.heights.value ==> !k.Less(target)
  {
    used := 0;
    var found;
    found, trusted := FindTrusted(q, target, requested);
    if found.Failure? { return Failure(found.error), trusted, used; }
    if target.AtMost(found.value) { return Success([]), trusted, used; }
    r, used := BuildMessages(q.client.value.maxClockDrift, q);
  }

  /** The client is usable and so is the trusted height chosen for the target. */
  ghost predicate Trusts(q: Answers, target: Height, requested: Option<Height>) {
    && q.client.Some? && !q.client.value.frozen && WithinTrust(q.client.value, q, q.client.value.latest)
    && ChosenHeight(q.client.value, q, target, requested).Success?
    && WithinTrust(q.client.value, q, ChosenHeight(q.client.value, q, target, requested).value)
  }

  /** Validates the client and chooses a trusted height within the trusting period. */
  method FindTrusted(q: Answers, target: Height, requested: Option<Height>)
    returns (r: Result<Height, Error>, ghost trusted: Height)
    ensures r.Success? <==> Trusts(q, target, requested)
    ensures r.Success? ==> r.value == trusted && ChosenHeight(q.client.value, q, target, requested) == Success(trusted)
    ensures r.Success? && requested.Some? ==> trusted == requested.value
    ensures r.Success? && requested.None? ==>
              && trusted.Less(target)
              && if q.client.value.latest.Less(target) then trusted == q.client.value.latest
                 else q.heights.Some? && GreatestBelow(trusted, q.heights.value, target)
    ensures r == Failure(ExpiredOrFrozen) <==>
              q.client.Some? && (q.client.value.frozen || Stale(q.client.value, q, q.client.value.latest))
    ensures r.Failure? && r.error.NotTrusted? ==>
              q.client.Some? && trusted != q.client.value.latest && Stale(q.client.value, q, trusted)
    ensures r == Failure(MissingSmallerHeight) ==>
              q.client.Some? && requested.None? && q.heights.Some?
              && !q.client.value.latest.Less(target) && forall k :: k in q.heights.value ==> !k.Less(target)
    ensures r.Failure? ==> r.error.NotTrusted? || r.error in {QueryFailed, ExpiredOrFrozen, MissingSmallerHeight}
  {
    trusted := target;
    var validated := ValidatedClientState(q.client, q.consensus, q.firstSrcTime);
    if validated.Failure? { return Failure(validated.error), trusted; }
    var client := validated.value.0;
    var chosen := ChosenHeight(client, q, target, requested);
    if requested.None? { SolvedIsBelow(client, q.heights, target); }
    if chosen.Failure? { return Failure(chosen.error), trusted; }
    trusted := chosen.value;
    if chosen.value != client.latest {
      var check := CheckTrustingPeriod(client, q.consensus, chosen.value, q.secondSrcTime);
      if check.Failure? { return Failure(check.error), trusted; }
    }
    r := Success(chosen.value);
  }

  /** Builds the header, waits until the destination accepts it, and wraps it with its supporting headers. */
  method BuildMessages(drift: nat, q: Answers) returns (r: Result<seq<Header>, Error>, used: nat)
    ensures r.Success? <==> q.header.Some? && q.signer && WaitSucceeds(drift, q.header.value.0.time, q.dstStatus)
    ensures r.Success? ==>
              && r.value == q.header.value.1 + [q.header.value.0]
              && 0 < used <= |q.dstStatus| && q.dstStatus[used - 1].Some?
              && (forall i :: 0 <= i < used - 1 ==> !Decides(drift, q.header.value.0.time, q.dstStatus, i))
              && Acceptable(q.header.value.0.time, q.dstStatus[used - 1].value, drift)
    ensures r.Failure? ==> r.error in {QueryFailed, StillWaiting, TimeOverflow, HeaderInFuture}
  {
    used := 0;
    if q.header.None? { return Failure(QueryFailed), used; }
    if !q.signer { return Failure(QueryFailed), used; }
    var (header, support) := q.header.value;
    var waited;
    waited, used := WaitForHeaderValidationDelay(drift, header.time, q.dstStatus);
    if waited.Failure? { return Failure(waited.error), used; }
    var msgs := UpdateMessages(header, support);
    r := Success(msgs);
  }

  /** One message for each supporting header in order, and then one for the target. */
  method UpdateMessages(header: Header, support: seq<Header>) returns (msgs: seq<Header>)
    ensures msgs == support + [header]
  {
    msgs := [];
    for i := 0 to |support|
      invariant msgs == support[..i]
    {
      msgs := msgs + [support[i]];
    }
    msgs := msgs + [header];
  }

  lemma SolvedIsBelow(client: ClientState, heights: Option<seq<Height>>, target: Height)
    ensures SolveTrustedHeight(client, heights, target).Success? ==>
              SolveTrustedHeight(client, heights, target).value.Less(target)
    ensures SolveTrustedHeight(client, heights, target).Success? && !client.latest.Less(target) ==>
              heights.Some? && GreatestBelow(SolveTrustedHeight(client, heights, target).value, heights.value, target)
    ensures SolveTrustedHeight(client, heights, target) == Failure(MissingSmallerHeight) ==>
              heights.Some? && !client.latest.Less(target) && forall k :: k in heights.value ==> !k.Less(target)
  {
    if heights.Some? {
      FirstBelowIsGreatest(SortDescending(heights.value), target);
      forall k
        ensures k in SortDescending(heights.value) <==> k in heights.value
      {
        SameElements(heights.value, k);
      }
    }
  }
}
