/**
 What a fresh relayer achieves once interference stops: from whatever state earlier interference left,
 the handshake finishes after a number of passes that can be read off the chains.
 */
module Convergence {
  import opened Options
  import opened Ends
  import opened Driver
  import opened FreshRuns
  import opened HeldRuns
  import opened SoloRun

  /** An end of side b has the terms under which this relayer confirms it. */
  predicate Suits(cfg: Config, e: End) {
    && e.local == Local(cfg.kind, cfg.b) && e.remote == cfg.a.name
    && (cfg.kind == Connections ==> e.versions == cfg.a.versions && e.prefix == cfg.a.prefix)
  }

  /** The end of side b that side a is bound to or, before that, the held one. */
  ghost function Partner(w: World, ids: Ids): Option<Id> {
    if ids.a.Some? && ids.a.value in w.a && w.a[ids.a.value] != [] && Now(w.a, ids.a.value).counterparty.Some? then
      Now(w.a, ids.a.value).counterparty
    else ids.b
  }

  /** Neither end is closed, and the end side a is or may be bound to has suitable terms. */
  ghost predicate Ready(cfg: Config, w: World, ids: Ids) {
    && VersionsAgree(cfg) && Sound(w) && Held(cfg, w, ids)
    && (ids.a.Some? ==> Now(w.a, ids.a.value).state != Closed)
    && (Partner(w, ids).Some? ==>
          var y := Partner(w, ids).value;
          y in w.b && w.b[y] != [] && Now(w.b, y).state != Closed && Suits(cfg, w.b[y][0]))
  }

  /** The number of undisturbed passes until the handshake finishes. */
  ghost function Left(w: World, ids: Ids): nat {
    if ids.a.None? then 5
    else if Partner(w, ids).None? then 4
    else if ids.a.value in w.a && w.a[ids.a.value] != [] && Now(w.a, ids.a.value).state == Init then 3
    else if Partner(w, ids).value in w.b && w.b[Partner(w, ids).value] != []
            && Now(w.b, Partner(w, ids).value).state == TryOpen then 2
    else 1
  }

  /** The chains allocate unused identifiers for the ends that are still to be created. */
  ghost predicate Allocates(w: World, ids: Ids, ps: seq<Pass>) {
    && (Left(w, ids) == 5 && |ps| > 0 ==> ps[0].newId !in w.a)
    && (Left(w, ids) == 5 && |ps| > 1 ==> ps[1].newId !in w.b)
    && (Left(w, ids) == 4 && |ps| > 0 ==> ps[0].newId !in w.b)
  }

  /** What a ready state looks like before the handshake has finished. */
  lemma ReadyStates(cfg: Config, w: World, ids: Ids)
    requires Ready(cfg, w, ids) && ids.a.Some?
    ensures var x, y := ids.a.value, Partner(w, ids);
            && (Left(w, ids) == 4 ==> w.a[x] == [InitEnd(cfg)] && ids.b.None?)
            && (Left(w, ids) == 3 ==> w.a[x] == [InitEnd(cfg)] && y == ids.b && w.b[y.value] == [w.b[y.value][0]])
            && (Left(w, ids) <= 2 ==> Now(w.a, x).state == Open && Now(w.a, x).counterparty == y)
            && (Left(w, ids) == 2 ==> w.b[y.value] == [w.b[y.value][0]])
            && (Left(w, ids) == 1 ==> Now(w.b, y.value).state == Open)
            && (y.Some? ==> TryBorn(w.b, y.value, x) && Now(w.b, y.value).counterparty == Some(x))
  {
    var x := ids.a.value;
    assert EndBound(w.a, w.b, x);
    if Partner(w, ids).Some? { assert EndBound(w.b, w.a, Partner(w, ids).value); }
  }

  lemma InitAdvances(cfg: Config, st: Progress, p: Pass)
    requires Ready(cfg, st.w, st.ids) && st.ids.a.None? && Quiet(p) && p.newId !in st.w.a
    ensures var r := RunPass(cfg, st, p);
            && r.1 == Retry && r.0.ids == Ids(Some(p.newId), None)
            && r.0.w == World(st.w.a[p.newId := [InitEnd(cfg)]], st.w.b)
  {
    QuietWorlds(cfg, st.w, p);
  }

  lemma TryAdvances(cfg: Config, st: Progress, p: Pass)
    requires Ready(cfg, st.w, st.ids) && Left(st.w, st.ids) == 4 && Quiet(p) && p.newId !in st.w.b
    ensures var r := RunPass(cfg, st, p);
            && r.1 == Retry && r.0.ids == Ids(st.ids.a, Some(p.newId))
            && r.0.w == World(st.w.a, st.w.b[p.newId := [TryEnd(cfg, st.ids.a.value)]])
  {
    QuietWorlds(cfg, st.w, p);
    ReadyStates(cfg, st.w, st.ids);
    assert Proves(st.w.a, st.ids.a.value, InitEnd(cfg));
  }

  lemma AckAdvances(cfg: Config, st: Progress, p: Pass)
    requires Ready(cfg, st.w, st.ids) && Left(st.w, st.ids) == 3 && Quiet(p)
    ensures var r := RunPass(cfg, st, p);
            && r.1 == Retry && r.0.ids == st.ids && st.ids.b.Some?
            && r.0.w == World(Update(st.w.a, st.ids.a.value, Open, st.ids.b), st.w.b)
  {
    QuietWorlds(cfg, st.w, p);
    ReadyStates(cfg, st.w, st.ids);
    var y := st.ids.b.value;
    assert Proves(st.w.b, y, Now(st.w.b, y));
  }

  lemma ConfirmAdvances(cfg: Config, st: Progress, p: Pass)
    requires Ready(cfg, st.w, st.ids) && Left(st.w, st.ids) == 2 && Quiet(p)
    ensures var r := RunPass(cfg, st, p);
            && r.1 == Retry && r.0.ids == Ids(st.ids.a, Partner(st.w, st.ids)) && Partner(st.w, st.ids).Some?
            && r.0.w == World(st.w.a, Update(st.w.b, Partner(st.w, st.ids).value, Open, st.ids.a))
  {
    QuietWorlds(cfg, st.w, p);
    ReadyStates(cfg, st.w, st.ids);
    assert Proves(st.w.a, st.ids.a.value, Now(st.w.a, st.ids.a.value));
  }

  lemma LastAdvances(cfg: Config, st: Progress, p: Pass)
    requires Ready(cfg, st.w, st.ids) && Left(st.w, st.ids) == 1 && Quiet(p)
    ensures RunPass(cfg, st, p).1 == Finished
  {
    QuietWorlds(cfg, st.w, p);
    ReadyStates(cfg, st.w, st.ids);
  }

  /** An undisturbed pass finishes, or leads to a ready state from which one pass less is left. */
  lemma PassAdvances(cfg: Config, st: Progress, ps: seq<Pass>)
    requires Ready(cfg, st.w, st.ids) && ps != [] && QuietRun(ps) && Allocates(st.w, st.ids, ps)
    ensures var r := RunPass(cfg, st, ps[0]);
            if Left(st.w, st.ids) == 1 then r.1 == Finished
            else
              && r.1 == Retry && Ready(cfg, r.0.w, r.0.ids) && Left(r.0.w, r.0.ids) == Left(st.w, st.ids) - 1
              && Allocates(r.0.w, r.0.ids, ps[1..])
  {
    var p, n := ps[0], Left(st.w, st.ids);
    HeldExactly(cfg, st, p);
    if n < 5 { ReadyStates(cfg, st.w, st.ids); }
    match n
    case 5 => InitAdvances(cfg, st, p);
    case 4 => TryAdvances(cfg, st, p);
    case 3 => AckAdvances(cfg, st, p);
    case 2 => ConfirmAdvances(cfg, st, p);
    case 1 => LastAdvances(cfg, st, p);
  }

  /**
   Once interference stops, a handshake that holds its own end and an end that answers it, neither
   closed and with suitable terms, finishes on exactly the pass the chains tell, at the latest the fifth.
   */
  lemma {:induction false} FinishesWhenLeftAlone(cfg: Config, st: Progress, ps: seq<Pass>)
    requires Ready(cfg, st.w, st.ids) && QuietRun(ps) && Allocates(st.w, st.ids, ps)
    ensures Left(st.w, st.ids) <= 5
    ensures RunAll(cfg, st, ps).1 == if |ps| >= Left(st.w, st.ids) then Finished else Retry
    decreases |ps|
  {
    if ps != [] {
      PassAdvances(cfg, st, ps);
      if Left(st.w, st.ids) > 1 { FinishesWhenLeftAlone(cfg, RunPass(cfg, st, ps[0]).0, ps[1..]); }
    }
  }

  // ---------------------------------------------------------------- transient failures

  /** Nobody interferes, but queries and submissions may fail with an error that is worth a retry. */
  predicate Faulty(p: Pass) {
    && p.beforeA == [] && p.beforeB == [] && p.beforeCheck == [] && p.beforeProof == [] && p.beforeSend == []
    && p.readA in {Fresh, Fails(false)} && p.readB in {Fresh, Fails(false)}
    && p.readCheck in {Fresh, Fails(false)} && p.readProof in {Fresh, Fails(false)}
    && p.delivery in {Delivered, Dropped(false)}
  }

  predicate FaultyRun(ps: seq<Pass>) { forall i :: 0 <= i < |ps| ==> Faulty(ps[i]) }

  /** The same pass without the failures. */
  function Mended(p: Pass): Pass {
    p.(readA := Fresh, readB := Fresh, readCheck := Fresh, readProof := Fresh, delivery := Delivered)
  }

  lemma {:induction false} FaultyWorlds(cfg: Config, w: World, p: Pass)
    requires Faulty(p)
    ensures ExecAll(cfg.kind, w, p.beforeA) == w && ExecAll(cfg.kind, w, p.beforeB) == w
    ensures CheckTime(cfg, w, p) == w && ProofTime(cfg, w, p) == w && ExecAll(cfg.kind, w, p.beforeSend) == w
  {}

  /** The queries of a faulty pass are answered as in the mended one, or ask for a retry. */
  lemma FaultyObserve(cfg: Config, st: Progress, p: Pass)
    requires Faulty(p)
    ensures var o, q := Observe(cfg, st, p), Observe(cfg, st, Mended(p));
            || o == q
            || (&& o.1 == NoAnswer(false) && o.0.w == st.w && o.0.sent == st.sent && o.0.ids.a == st.ids.a
                && (o.0.ids.b == st.ids.b
                    || (&& QueryHeld(st.w.a, st.ids.a, Fresh).Ok?
                        && o.0.ids.b == AdoptB(st.ids, QueryHeld(st.w.a, st.ids.a, Fresh).value))))
  {
    FaultyWorlds(cfg, st.w, p);
    FaultyWorlds(cfg, st.w, Mended(p));
  }

  /** A faulty pass builds the message of the mended one, or fails to. */
  lemma FaultyBuild(cfg: Config, st: Progress, msg: Message, toA: bool, p: Pass)
    requires Faulty(p)
    ensures var built := BuildFor(cfg, st, msg, toA, p);
            built == Err(false) || built == BuildFor(cfg, st, msg, toA, Mended(p))
    ensures BuildFor(cfg, st, msg, toA, Mended(p)) != Err(true)
  {
    FaultyWorlds(cfg, st.w, p);
    FaultyWorlds(cfg, st.w, Mended(p));
  }

  lemma FaultyPerform(cfg: Config, st: Progress, msg: Message, toA: bool, p: Pass)
    requires Faulty(p)
    ensures var r := Perform(cfg, st, msg, toA, p); r == Perform(cfg, st, msg, toA, Mended(p)) || r == (st, Retry)
  {
    FaultyBuild(cfg, st, msg, toA, p);
    FaultyWorlds(cfg, st.w, p);
    FaultyWorlds(cfg, st.w, Mended(p));
  }

  /** A faulty pass does what the mended one does, or nothing but adopt the identifiers it was told. */
  lemma FaultyPass(cfg: Config, st: Progress, p: Pass)
    requires Faulty(p) && Observe(cfg, st, p) == Observe(cfg, st, Mended(p)) && Observe(cfg, st, p).1.States?
    ensures var r := RunPass(cfg, st, p);
            r == RunPass(cfg, st, Mended(p)) || (r.1 == Retry && r.0 == Observe(cfg, st, p).0)
  {
    var (o, seen) := Observe(cfg, st, p);
    var c := Choose(seen.a, seen.b);
    if c.Send? { FaultyPerform(cfg, o, c.msg, c.toA, p); }
  }

  /** What side a tells of its partner changes neither readiness nor the passes left. */
  lemma AdoptionKeepsReady(cfg: Config, w: World, ids: Ids)
    requires Ready(cfg, w, ids) && ids.a.Some?
    ensures var adopted := Ids(ids.a, AdoptB(ids, Now(w.a, ids.a.value)));
            Ready(cfg, w, adopted) && Left(w, adopted) == Left(w, ids)
  {
    ReadyStates(cfg, w, ids);
    assert EndBound(w.a, w.b, ids.a.value);
  }

  /** The chains allocate unused identifiers whenever an end is still to be created. */
  ghost predicate AlwaysAllocates(w: World, ids: Ids, ps: seq<Pass>) {
    forall i :: 0 <= i < |ps| ==>
      (ids.a.None? ==> ps[i].newId !in w.a) && (Left(w, ids) >= 4 ==> ps[i].newId !in w.b)
  }

  /** What the queries of an undisturbed pass find in a ready state. */
  lemma ReadyObserve(cfg: Config, st: Progress, p: Pass)
    requires Ready(cfg, st.w, st.ids) && Quiet(p)
    ensures var o := Observe(cfg, st, p);
            && o.1.States? && o.0.w == st.w && Ready(cfg, st.w, o.0.ids) && Left(st.w, o.0.ids) == Left(st.w, st.ids)
            && o.0.ids.a == st.ids.a
  {
    QuietWorlds(cfg, st.w, p);
    if st.ids.a.Some? {
      ReadyStates(cfg, st.w, st.ids);
      AdoptionKeepsReady(cfg, st.w, st.ids);
    }
  }

  /** A faulty pass finishes, makes the progress an undisturbed one makes, or leaves the state as ready as it was. */
  lemma FaultyAdvances(cfg: Config, st: Progress, ps: seq<Pass>)
    requires Ready(cfg, st.w, st.ids) && ps != [] && Faulty(ps[0]) && AlwaysAllocates(st.w, st.ids, ps)
    ensures var r := RunPass(cfg, st, ps[0]);
            || r.1 == Finished
            || (&& r.1 == Retry && Ready(cfg, r.0.w, r.0.ids) && Left(r.0.w, r.0.ids) <= Left(st.w, st.ids)
                && AlwaysAllocates(r.0.w, r.0.ids, ps[1..]))
  {
    var p := ps[0];
    var q := Mended(p);
    FaultyObserve(cfg, st, p);
    ReadyObserve(cfg, st, q);
    if Observe(cfg, st, p) == Observe(cfg, st, q) {
      FaultyPass(cfg, st, p);
      if RunPass(cfg, st, p) == RunPass(cfg, st, q) { MendedAdvances(cfg, st, q, ps); }
    } else if st.ids.a.Some? {
      AdoptionKeepsReady(cfg, st.w, st.ids);
    }
  }

  lemma MendedAdvances(cfg: Config, st: Progress, q: Pass, ps: seq<Pass>)
    requires Ready(cfg, st.w, st.ids) && Quiet(q) && ps != [] && q.newId == ps[0].newId
    requires AlwaysAllocates(st.w, st.ids, ps)
    ensures var r := RunPass(cfg, st, q);
            || r.1 == Finished
            || (&& r.1 == Retry && Ready(cfg, r.0.w, r.0.ids) && Left(r.0.w, r.0.ids) == Left(st.w, st.ids) - 1
                && AlwaysAllocates(r.0.w, r.0.ids, ps[1..]))
  {
    PassAdvances(cfg, st, [q]);
    if Left(st.w, st.ids) == 5 { InitAdvances(cfg, st, q); }
  }

  /** Without failures, a run goes on from a ready state to the end. */
  lemma {:induction false} QuietFinishes(cfg: Config, st: Progress, ps: seq<Pass>)
    requires Ready(cfg, st.w, st.ids) && QuietRun(ps) && AlwaysAllocates(st.w, st.ids, ps) && |ps| >= Left(st.w, st.ids)
    ensures RunAll(cfg, st, ps).1 == Finished
  {
    FinishesWhenLeftAlone(cfg, st, ps);
  }

  /**
   Transient failures only delay: any passes whose queries or submissions fail without reporting a
   frozen client, followed by as many undisturbed ones as were left before, finish the handshake.
   */
  lemma {:induction false} FinishesAfterFailures(cfg: Config, st: Progress, faulty: seq<Pass>, quiet: seq<Pass>)
    requires Ready(cfg, st.w, st.ids) && FaultyRun(faulty) && QuietRun(quiet) && |quiet| >= Left(st.w, st.ids)
    requires AlwaysAllocates(st.w, st.ids, faulty + quiet)
    ensures RunAll(cfg, st, faulty + quiet).1 == Finished
    decreases |faulty|
  {
    var all := faulty + quiet;
    if faulty == [] {
      assert all == quiet;
      QuietFinishes(cfg, st, quiet);
    } else {
      assert all[0] == faulty[0] && all[1..] == faulty[1..] + quiet;
      FaultyAdvances(cfg, st, all);
      var r := RunPass(cfg, st, all[0]);
      if r.1 == Retry { FinishesAfterFailures(cfg, r.0, faulty[1..], quiet); }
    }
  }
}
