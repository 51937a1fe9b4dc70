/** The backward scan of a client's consensus states for evidence of misbehaviour. */
module Misbehaviour {
  import opened Options
  import opened Heights

  /** The event of a client update, with the header it carried if the chain reports it. */
  datatype UpdateEvent = UpdateEvent(height: Height, header: Option<nat>)

  datatype ScanError = QueryFailed | UnexpectedEvent | NoHeader | CheckFailed

  // ---------------------------------------------------------------- finding the update event

  const MAX_RETRIES: nat := 5

  datatype TxEvent = Update(event: UpdateEvent) | OtherEvent

  /** The answer to a transaction query: the events found, or an error. */
  type TxAnswer = Option<seq<TxEvent>>

  /**
   Queries for the update event until the first answer, at most MAX_RETRIES times. No event is
   reported both when the first answer is empty and when every query failed.
   */
  method FetchUpdateEvent(answers: seq<TxAnswer>) returns (r: Result<Option<UpdateEvent>, ScanError>)
    requires |answers| >= 5
    ensures (forall i :: 0 <= i < 5 ==> answers[i].None?) ==> r == Success(None)
    ensures forall i :: 0 <= i < 5 && answers[i].Some? && (forall k :: 0 <= k < i ==> answers[k].None?) ==>
              r == if answers[i].value == [] then Success(None)
                   else if answers[i].value[0].Update? then Success(Some(answers[i].value[0].event))
                   else Failure(UnexpectedEvent)
  {
    var events := [];
    for i := 0 to MAX_RETRIES
      invariant events == [] && forall k :: 0 <= k < i ==> answers[k].None?
    {
      if answers[i].Some? {
        events := answers[i].value;
        break;
      }
    }
    if events == [] { return Success(None); }
    if events[0].Update? { return Success(Some(events[0].event)); }
    r := Failure(UnexpectedEvent);
  }

  // ---------------------------------------------------------------- the scan

  datatype Check = Clean | Evidence(evidence: nat) | OutsideTrustingPeriod | CheckError

  /** What the chains answer during a scan: update events, checks, and whether time is up after a check. */
  datatype Chains = Chains(
    fetch: Height -> Result<Option<UpdateEvent>, ScanError>,
    check: UpdateEvent -> Check,
    timeUp: Height -> bool)

  /** The event used for height `h`. */
  function EventFor(c: Chains, update: Option<UpdateEvent>, h: Height): Result<Option<UpdateEvent>, ScanError> {
    if update.Some? then Success(update) else c.fetch(h)
  }

  /** Height `h` was checked clean with time left, or skipped because its event had a lower height. */
  predicate Passed(c: Chains, update: Option<UpdateEvent>, h: Height) {
    var e := EventFor(c, update, h);
    e.Success? && e.value.Some?
    && (e.value.value.height.Less(h)
        || (e.value.value.height == h && e.value.value.header.Some? && c.check(e.value.value) == Clean && !c.timeUp(h)))
  }

  predicate Guilty(c: Chains, update: Option<UpdateEvent>, h: Height, evidence: nat) {
    var e := EventFor(c, update, h);
    && e.Success? && e.value.Some? && e.value.value.height == h && e.value.value.header.Some?
    && c.check(e.value.value) == Evidence(evidence)
  }

  /** The scan ends quietly at `h`: no event, a bogus one, an untrusted state, or no time left. */
  predicate Ends(c: Chains, update: Option<UpdateEvent>, h: Height) {
    var e := EventFor(c, update, h);
    e.Success? && (e.value.None?
                   || h.Less(e.value.value.height)
                   || (e.value.value.height == h && e.value.value.header.Some?
                       && (c.check(e.value.value) == OutsideTrustingPeriod
                           || (c.check(e.value.value) == Clean && c.timeUp(h)))))
  }

  /** The scan fails at `h`: the event cannot be fetched or read, or the check itself fails. */
  predicate Fails(c: Chains, update: Option<UpdateEvent>, h: Height, error: ScanError) {
    var e := EventFor(c, update, h);
    if e.Failure? then error == e.error
    else
      && e.value.Some? && e.value.value.height == h
      && if e.value.value.header.None? then error == NoHeader
         else c.check(e.value.value) == CheckError && error == CheckFailed
  }

  /** Every scanned height above `h` was passed. */
  ghost predicate PassedAbove(c: Chains, update: Option<UpdateEvent>, hs: seq<Height>, h: Height) {
    forall k :: k in hs && h.Less(k) ==> Passed(c, update, k)
  }

  /** The heights a scan looks at: that of the given event, or all stored ones. */
  function Scanned(update: Option<UpdateEvent>, stored: Option<seq<Height>>): seq<Height> {
    if update.Some? then [update.value.height] else if stored.Some? then stored.value else []
  }

  /** What the scan does at a height. */
  datatype Verdict = GoOn | Stop | Found(evidence: nat) | Abort(error: ScanError)

  method CheckHeight(c: Chains, update: Option<UpdateEvent>, h: Height) returns (v: Verdict)
    ensures match v
            case GoOn => Passed(c, update, h)
            case Stop => Ends(c, update, h)
            case Found(evidence) => Guilty(c, update, h, evidence)
            case Abort(error) => Fails(c, update, h, error)
  {
    var e := EventFor(c, update, h);
    if e.Failure? { return Abort(e.error); }
    if e.value.None? { return Stop; }
    var event := e.value.value;
    if event.height.Less(h) { return GoOn; }
    if h.Less(event.height) { return Stop; }
    assert event.height == h;
    if event.header.None? { return Abort(NoHeader); }
    match c.check(event)
    case OutsideTrustingPeriod => v := Stop;
    case CheckError => v := Abort(CheckFailed);
    case Evidence(evidence) => v := Found(evidence);
    case Clean => v := if c.timeUp(h) then Stop else GoOn;
  }

  /** In descending order, passing every height before one is passing every greater height. */
  lemma PassedBefore(c: Chains, update: Option<UpdateEvent>, hs: seq<Height>, heights: seq<Height>, i: nat)
    requires Descending(heights) && i < |heights| && (forall h :: h in hs ==> h in heights)
    requires forall k :: 0 <= k < i ==> Passed(c, update, heights[k])
    ensures PassedAbove(c, update, hs, heights[i])
  {
    forall k | k in hs && heights[i].Less(k)
      ensures Passed(c, update, k)
    {
      var j :| 0 <= j < |heights| && heights[j] == k;
      assert !heights[j].AtMost(heights[i]);
    }
  }

  /**
   Scans from the greatest height down. Evidence is returned for the greatest height at which a check
   finds any; a quiet result means that every height was passed down to the last or to one at which
   the scan ends; an error comes from the greatest height not passed. `client` says whether the client
   state could be queried, `stored` are the consensus heights if these could.
   */
  method DetectMisbehaviour(c: Chains, client: bool, update: Option<UpdateEvent>, stored: Option<seq<Height>>)
    returns (r: Result<Option<nat>, ScanError>)
    ensures !client || (update.None? && stored.None?) ==> r == Failure(QueryFailed)
    ensures client && (update.Some? || stored.Some?) ==>
              var hs := Scanned(update, stored);
              match r
              case Success(Some(evidence)) =>
                exists h :: h in hs && Guilty(c, update, h, evidence) && PassedAbove(c, update, hs, h)
              case Success(None) =>
                || (forall h :: h in hs ==> Passed(c, update, h))
                || (exists h :: h in hs && Ends(c, update, h) && PassedAbove(c, update, hs, h))
              case Failure(error) => exists h :: h in hs && Fails(c, update, h, error) && PassedAbove(c, update, hs, h)
  {
    if !client { return Failure(QueryFailed); }
    if update.None? && stored.None? { return Failure(QueryFailed); }
    var hs := Scanned(update, stored);
    var heights := if update.Some? then hs else SortDescending(hs);
    assert Descending(heights);
    assert forall h :: h in heights <==> h in hs by {
      if update.None? { forall h ensures h in heights <==> h in hs { SameElements(hs, h); } }
    }
    for i := 0 to |heights|
      invariant forall k :: 0 <= k < i ==> Passed(c, update, heights[k])
    {
      PassedBefore(c, update, hs, heights, i);
      var verdict := CheckHeight(c, update, heights[i]);
      match verdict
      case GoOn =>
      case Stop => return Success(None);
      case Found(evidence) => return Success(Some(evidence));
      case Abort(error) => return Failure(error);
    }
    r := Success(None);
  }
}
