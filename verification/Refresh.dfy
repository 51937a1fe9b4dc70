/** Keeping a client alive: the refresh policy over whole runs of polling. */
module Refresh {
  import opened Options
  import opened ForeignClient

  /** The client is updated when its latest consensus state is older than the refresh period. */
  predicate NeedsUpdate(client: ClientState, elapsed: nat) {
    client.RefreshPeriod().Some? && elapsed > client.RefreshPeriod().value
  }

  /** A client is refreshed exactly once more than two thirds of its trusting period have passed. */
  lemma RefreshedAfterTwoThirds(client: ClientState, elapsed: nat)
    ensures NeedsUpdate(client, elapsed)
            <==> client.trustingPeriod.Some? && 3 * elapsed > 2 * client.trustingPeriod.value
  {}

  /** What validating the client finds at source time `t`, its latest consensus state being of time `consensus`. */
  function Validated(client: ClientState, consensus: nat, t: nat): Result<(ClientState, nat), Error> {
    ValidatedClientState(Some(client), map[client.latest := Some(consensus)], Some(Some(t)))
  }

  /** A refresh at time `t` updates the client: it validates and needs the update. */
  predicate Refreshes(client: ClientState, consensus: nat, t: nat) {
    Validated(client, consensus, t).Success? && NeedsUpdate(client, Validated(client, consensus, t).value.1)
  }

  /** In numbers: a refresh updates a client past two thirds of its trusting period but not past the whole. */
  lemma RefreshesExactly(client: ClientState, consensus: nat, t: nat)
    requires consensus <= t
    ensures Refreshes(client, consensus, t)
            <==> (&& !client.frozen && client.trustingPeriod.Some?
                  && 3 * (t - consensus) > 2 * client.trustingPeriod.value
                  && t - consensus <= client.trustingPeriod.value)
  {
    RefreshedAfterTwoThirds(client, t - consensus);
  }

  /**
   One poll of the refresh task: the source time when it starts, when it has finished, and the time of
   the header it installed if it updated the client.
   */
  datatype Poll = Poll(start: nat, done: nat, header: nat)

  /** The time of the latest consensus state after a poll. */
  function AfterPoll(client: ClientState, consensus: nat, p: Poll): nat {
    if Refreshes(client, consensus, p.start) then p.header else consensus
  }

  /**
   A poll starts at most `gap` after the previous one ended. If it has to update the client, it
   installs a header no older than its start and ends within `latency`; else it ends at once.
   */
  predicate LegalPoll(client: ClientState, gap: nat, latency: nat, consensus: nat, last: nat, p: Poll) {
    && last <= p.start <= last + gap && consensus <= p.start
    && if Refreshes(client, consensus, p.start) then
         p.start <= p.header <= p.done <= p.start + latency
       else p.done == p.start
  }

  predicate LegalRun(client: ClientState, gap: nat, latency: nat, consensus: nat, last: nat, polls: seq<Poll>)
    decreases |polls|
  {
    polls != [] ==>
      && LegalPoll(client, gap, latency, consensus, last, polls[0])
      && LegalRun(client, gap, latency, AfterPoll(client, consensus, polls[0]), polls[0].done, polls[1..])
  }

  /** Whenever the client is validated between two polls or during one, it is found usable. */
  ghost predicate StaysValid(client: ClientState, consensus: nat, last: nat, polls: seq<Poll>)
    decreases |polls|
  {
    polls != [] ==>
      && (forall t :: last <= t <= polls[0].done ==> Validated(client, consensus, t).Success?)
      && StaysValid(client, AfterPoll(client, consensus, polls[0]), polls[0].done, polls[1..])
  }

  /**
   If the refresh period, the polling gap and the update latency together do not exceed the trusting
   period, a client that starts within its refresh period never expires.
   */
  lemma {:induction false} NeverExpires(client: ClientState, gap: nat, latency: nat, consensus: nat, last: nat,
                                        polls: seq<Poll>)
    requires !client.frozen && client.trustingPeriod.Some?
    requires client.RefreshPeriod().value + gap + latency <= client.trustingPeriod.value
    requires consensus <= last <= consensus + client.RefreshPeriod().value
    requires LegalRun(client, gap, latency, consensus, last, polls)
    ensures StaysValid(client, consensus, last, polls)
    decreases |polls|
  {
    if polls != [] {
      var p := polls[0];
      forall t | last <= t <= p.done
        ensures Validated(client, consensus, t).Success?
      {
        assert t <= consensus + client.trustingPeriod.value;
      }
      NeverExpires(client, gap, latency, AfterPoll(client, consensus, p), p.done, polls[1..]);
    }
  }

  /** The bound cannot be improved: if it is exceeded, some legal run lets the client expire. */
  lemma BoundIsTight(client: ClientState, gap: nat, latency: nat, consensus: nat) returns (polls: seq<Poll>)
    requires !client.frozen && client.trustingPeriod.Some? && gap > 0
    requires client.RefreshPeriod().value + gap + latency > client.trustingPeriod.value
    ensures LegalRun(client, gap, latency, consensus, consensus + client.RefreshPeriod().value, polls)
    ensures !StaysValid(client, consensus, consensus + client.RefreshPeriod().value, polls)
  {
    var last := consensus + client.RefreshPeriod().value;
    var start := last + gap;
    var p := Poll(start, if Refreshes(client, consensus, start) then start + latency else start, start);
    polls := [p];
    assert polls[1..] == [];
    assert LegalRun(client, gap, latency, consensus, last, polls);
    assert !Validated(client, consensus, p.done).Success?;
    assert !StaysValid(client, consensus, last, polls);
  }
}
