/**
 How passes and runs end, and what the driver makes of a pair of states. A handshake is given up exactly
 when an access to a chain reports an expired or frozen client.
 */
module Outcomes {
  import opened Options
  import opened Ends
  import opened Driver
  import opened Safety
  import opened Repeats

  // ---------------------------------------------------------------- the next message

  /** The handler of an end at `own` takes this message when the end across is at `other`. */
  predicate Calls(msg: Message, own: State, other: State) {
    match msg
    case InitMsg => own == Uninitialized && other == Uninitialized
    case TryMsg => (own == Uninitialized || own == Init) && other == Init
    case AckMsg => (own == Init || own == TryOpen) && other == TryOpen
    case ConfirmMsg => own == TryOpen && other == Open
  }

  /**
   The driver sends side a the message its state calls for, else side b the one its state calls for;
   it is done exactly with two open ends, and otherwise waits.
   */
  lemma ChoosesWhatIsCalledFor(a: State, b: State, msg: Message)
    ensures Choose(a, b) == Send(msg, true) <==> Calls(msg, a, b)
    ensures Choose(a, b) == Send(msg, false) <==> Calls(msg, b, a) && !exists m :: Calls(m, a, b)
    ensures Choose(a, b) == Complete <==> a == Open && b == Open
  {
    if Choose(a, b).Send? && Choose(a, b).toA { assert Calls(Choose(a, b).msg, a, b); }
  }

  // ---------------------------------------------------------------- one pass

  /** The accesses to the chains a pass may make, in order. */
  datatype Access = QueryA | QueryB | Check | Proof | Submission

  /** The access would report an expired or frozen client. */
  predicate Frozen(p: Pass, x: Access) {
    match x
    case QueryA => p.readA == Fails(true)
    case QueryB => p.readB == Fails(true)
    case Check => p.readCheck == Fails(true)
    case Proof => p.readProof == Fails(true)
    case Submission => p.delivery == Dropped(true) || p.delivery == Lost(true)
  }

  /** The identifier a chosen message comes from, and the one it is for. */
  function SourceOf(ids: Ids, c: Choice): Option<Id>
    requires c.Send?
  {
    if c.toA then ids.b else ids.a
  }

  function TargetOf(ids: Ids, c: Choice): Option<Id>
    requires c.Send?
  {
    if c.toA then ids.a else ids.b
  }

  /** The answer to the check of a chosen message: of the source end for a Try, else of the destination end. */
  function CheckAnswer(cfg: Config, st: Progress, c: Choice, p: Pass): Reply<End>
    requires c.Send? && SourceOf(st.ids, c).Some? && (c.msg != TryMsg ==> TargetOf(st.ids, c).Some?)
  {
    var w := CheckTime(cfg, st.w, p);
    var (src, dst) := if c.toA then (w.b, w.a) else (w.a, w.b);
    if c.msg == TryMsg then Query(src, SourceOf(st.ids, c).value, p.readCheck)
    else Query(dst, TargetOf(st.ids, c).value, p.readCheck)
  }

  /** The checked end is one the message may be built for. */
  predicate CheckPasses(cfg: Config, ids: Ids, c: Choice, e: End)
    requires c.Send?
  {
    var (oriented, held) := if c.toA then (cfg.Flipped(), ids.Flipped()) else (cfg, ids);
    if c.msg == TryMsg then PortFits(oriented, e) else Validated(oriented, held, e)
  }

  /** Both ends that the check of a chosen message needs are held. */
  predicate CanCheck(ids: Ids, c: Choice) {
    c.Send? && c.msg != InitMsg && SourceOf(ids, c).Some? && (c.msg != TryMsg ==> TargetOf(ids, c).Some?)
  }

  /** The pass makes this access. */
  predicate Made(cfg: Config, st: Progress, p: Pass, x: Access) {
    var o, c := Observe(cfg, st, p).0, Chosen(cfg, st, p);
    match x
    case QueryA => st.ids.a.Some?
    case QueryB => AnswerA(cfg, st, p).Ok? && AdoptB(st.ids, AnswerA(cfg, st, p).value).Some?
    case Check => CanCheck(o.ids, c)
    case Proof =>
      && CanCheck(o.ids, c)
      && CheckAnswer(cfg, o, c, p).Ok? && CheckPasses(cfg, o.ids, c, CheckAnswer(cfg, o, c, p).value)
    case Submission => c.Send? && BuildFor(cfg, o, c.msg, c.toA, p).Ok?
  }

  /** Building fails with a frozen client exactly if the check or the proof reports one. */
  lemma BuildFreezesExactly(cfg: Config, st: Progress, c: Choice, p: Pass)
    requires c.Send?
    ensures BuildFor(cfg, st, c.msg, c.toA, p) == Err(true)
            <==> (&& CanCheck(st.ids, c)
                  && (|| Frozen(p, Check)
                      || (&& Frozen(p, Proof) && CheckAnswer(cfg, st, c, p).Ok?
                          && CheckPasses(cfg, st.ids, c, CheckAnswer(cfg, st, c, p).value))))
  {}

  /** Some access that the pass makes reports an expired or frozen client. */
  ghost predicate MeetsFrozen(cfg: Config, st: Progress, p: Pass) {
    exists x :: Made(cfg, st, p, x) && Frozen(p, x)
  }

  /** The two queries fail with a frozen client exactly if one that is made reports it. */
  lemma QueriesFreezeExactly(cfg: Config, st: Progress, p: Pass)
    ensures Observe(cfg, st, p).1 == NoAnswer(true)
            <==> (Made(cfg, st, p, QueryA) && Frozen(p, QueryA)) || (Made(cfg, st, p, QueryB) && Frozen(p, QueryB))
  {}

  /**
   A pass panics exactly on a mismatch, finishes exactly when both queries show an open end, halts
   exactly when an access it makes reports an expired or frozen client, and otherwise asks for a retry.
   */
  lemma PassEndsExactly(cfg: Config, st: Progress, p: Pass)
    ensures var r, o := RunPass(cfg, st, p).1, Observe(cfg, st, p).1;
            && (r == Panicked <==> o == Mismatch)
            && (r == Finished <==> o == States(Open, Open))
            && (r == Halted <==> MeetsFrozen(cfg, st, p))
  {
    QueriesFreezeExactly(cfg, st, p);
    var o, c := Observe(cfg, st, p).0, Chosen(cfg, st, p);
    if c.Send? {
      ChoosesWhatIsCalledFor(Observe(cfg, st, p).1.a, Observe(cfg, st, p).1.b, c.msg);
      PerformHaltsExactly(cfg, o, c, p);
      BuildFreezesExactly(cfg, o, c, p);
      assert BuildFor(cfg, o, c.msg, c.toA, p) == Err(true) <==>
             (Made(cfg, st, p, Check) && Frozen(p, Check)) || (Made(cfg, st, p, Proof) && Frozen(p, Proof));
      assert Made(cfg, st, p, Submission) <==> BuildFor(cfg, o, c.msg, c.toA, p).Ok?;
    } else {
      assert forall x :: Made(cfg, st, p, x) ==> x == QueryA || x == QueryB;
    }
  }

  lemma PerformHaltsExactly(cfg: Config, st: Progress, c: Choice, p: Pass)
    requires c.Send?
    ensures var r, built := Perform(cfg, st, c.msg, c.toA, p).1, BuildFor(cfg, st, c.msg, c.toA, p);
            && (r == Halted || r == Retry)
            && (r == Halted <==> built == Err(true) || (built.Ok? && Frozen(p, Submission)))
  {}

  // ---------------------------------------------------------------- whole runs

  /** Some pass of the run meets a frozen client. */
  ghost predicate SomePassFrozen(cfg: Config, st: Progress, ps: seq<Pass>)
    decreases |ps|
  {
    ps != [] &&
    var r := RunPass(cfg, st, ps[0]);
    MeetsFrozen(cfg, st, ps[0]) || (r.1 == Retry && SomePassFrozen(cfg, r.0, ps[1..]))
  }

  /** A handshake is given up exactly when an access made in one of its passes reports a frozen client. */
  lemma {:induction false} HaltsExactly(cfg: Config, st: Progress, ps: seq<Pass>)
    ensures RunAll(cfg, st, ps).1 == Halted <==> SomePassFrozen(cfg, st, ps)
    decreases |ps|
  {
    if ps != [] {
      PassEndsExactly(cfg, st, ps[0]);
      var r := RunPass(cfg, st, ps[0]);
      if r.1 == Retry { HaltsExactly(cfg, r.0, ps[1..]); }
    }
  }

  /** No access of any pass reports an expired or frozen client. */
  predicate NeverFrozen(ps: seq<Pass>) { forall i, x :: 0 <= i < |ps| ==> !Frozen(ps[i], x) }

  /** While no client is frozen, a handshake from a sane start finishes or goes on, whatever else fails. */
  lemma {:induction false} TransientErrorsAreRetried(cfg: Config, st: Progress, ps: seq<Pass>)
    requires Sound(st.w) && Sane(st.w, st.ids) && NeverFrozen(ps)
    ensures RunAll(cfg, st, ps).1 == Finished || RunAll(cfg, st, ps).1 == Retry
  {
    NeverPanics(cfg, st, ps);
    HaltsExactly(cfg, st, ps);
    NoneFrozen(cfg, st, ps);
  }

  lemma {:induction false} NoneFrozen(cfg: Config, st: Progress, ps: seq<Pass>)
    requires NeverFrozen(ps)
    ensures !SomePassFrozen(cfg, st, ps)
    decreases |ps|
  {
    if ps != [] {
      assert forall i, x :: 0 <= i < |ps[1..]| ==> ps[1..][i] == ps[i + 1] && !Frozen(ps[1..][i], x);
      NoneFrozen(cfg, RunPass(cfg, st, ps[0]).0, ps[1..]);
    }
  }
}
