/**
 The two chains a relayer opens a channel or a connection between, as ICS-003 and ICS-004 describe
 them. A chain maps every identifier it ever allocated to the history of the end stored under it,
 oldest version first; a proof of a past state is a version found in such a history.
 */
module Ends {
  import opened Options

  type Id = nat

  /** Which of the two structurally identical handshakes is being run. */
  datatype Kind = Channels | Connections

  datatype State = Uninitialized | Init | TryOpen | Open | Closed {
    /** The numeric value of the state, which the relayer compares. */
    function Number(): nat {
      match this
      case Uninitialized => 0
      case Init => 1
      case TryOpen => 2
      case Open => 3
      case Closed => 4
    }
  }

  /**
   A channel or connection end. `local` holds the connection hops of a channel or the client of a
   connection, `remote` the counterparty port or client, and `attribute` the channel ordering or the
   connection delay period.
   */
  datatype End = End(state: State, counterparty: Option<Id>, remote: string, local: seq<string>,
                     versions: seq<string>, prefix: string, attribute: nat)

  const DEFAULT_END := End(Uninitialized, None, "", [], [], "", 0)

  type Chain = map<Id, seq<End>>

  /** The latest version of an end. */
  function Now(c: Chain, id: Id): End
    requires id in c && c[id] != []
  {
    c[id][|c[id]| - 1]
  }

  datatype Datagram =
    | OpenInit(end: End)
    | OpenTry(source: Id, end: End, proof: End)
    | OpenAck(target: Id, source: Id, proof: End)
    | OpenConfirm(target: Id, proof: End)
    | CloseInit(target: Id)
    | CloseConfirm(target: Id, proof: End)

  /** `proof` shows a version that the end `id` really had. */
  predicate Proves(c: Chain, id: Id, proof: End) {
    id in c && proof in c[id]
  }

  /** The guard of the handler on `dst`; `newId` is the identifier it allocates if it creates an end. */
  predicate Accepts(kind: Kind, dst: Chain, src: Chain, newId: Id, d: Datagram) {
    match d
    case OpenInit(e) =>
      newId !in dst && e.state == Init && e.counterparty == None
    case OpenTry(x, e, proof) =>
      && newId !in dst && e.state == TryOpen && e.counterparty == Some(x)
      && Proves(src, x, proof) && proof.state == Init && proof.attribute == e.attribute
    case OpenAck(t, x, proof) =>
      && t in dst && dst[t] != [] && Now(dst, t).state == Init
      && Proves(src, x, proof) && proof.state == TryOpen && proof.counterparty == Some(t)
    case OpenConfirm(t, proof) =>
      && t in dst && dst[t] != [] && Now(dst, t).state == TryOpen && Now(dst, t).counterparty.Some?
      && Proves(src, Now(dst, t).counterparty.value, proof)
      && proof.state == Open && proof.counterparty == Some(t)
    case CloseInit(t) =>
      kind == Channels && t in dst && dst[t] != [] && Now(dst, t).state != Closed
    case CloseConfirm(t, proof) =>
      && kind == Channels
      && t in dst && dst[t] != [] && Now(dst, t).state != Closed && Now(dst, t).counterparty.Some?
      && Proves(src, Now(dst, t).counterparty.value, proof)
      && proof.state == Closed && proof.counterparty == Some(t)
  }

  /** What an accepted datagram does to the chain it was sent to. */
  function Apply(dst: Chain, newId: Id, d: Datagram): Chain {
    match d
    case OpenInit(e) => dst[newId := [e]]
    case OpenTry(_, e, _) => dst[newId := [e]]
    case OpenAck(t, x, _) => Update(dst, t, Open, Some(x))
    case OpenConfirm(t, _) => if t in dst && dst[t] != [] then Update(dst, t, Open, Now(dst, t).counterparty) else dst
    case CloseInit(t) => if t in dst && dst[t] != [] then Update(dst, t, Closed, Now(dst, t).counterparty) else dst
    case CloseConfirm(t, _) =>
      if t in dst && dst[t] != [] then Update(dst, t, Closed, Now(dst, t).counterparty) else dst
  }

  function Update(c: Chain, t: Id, s: State, cp: Option<Id>): Chain {
    if t in c && c[t] != [] then c[t := c[t] + [Now(c, t).(state := s, counterparty := cp)]] else c
  }

  datatype World = World(a: Chain, b: Chain)

  /** A datagram submitted by anyone to chain a or chain b. */
  datatype Step = Step(toA: bool, newId: Id, d: Datagram)

  /** The chains after one datagram; a rejected datagram leaves them alone. */
  function Exec(kind: Kind, w: World, s: Step): World {
    if s.toA then
      if Accepts(kind, w.a, w.b, s.newId, s.d) then w.(a := Apply(w.a, s.newId, s.d)) else w
    else
      if Accepts(kind, w.b, w.a, s.newId, s.d) then w.(b := Apply(w.b, s.newId, s.d)) else w
  }

  /** The chains after any sequence of datagrams from any relayers. */
  function ExecAll(kind: Kind, w: World, steps: seq<Step>): World
    decreases |steps|
  {
    if steps == [] then w else ExecAll(kind, Exec(kind, w, steps[0]), steps[1..])
  }

  // ---------------------------------------------------------------- the binding invariant

  ghost predicate InitBorn(c: Chain, id: Id) {
    id in c && c[id] != [] && c[id][0].state == Init
  }

  ghost predicate TryBorn(c: Chain, id: Id, x: Id) {
    id in c && c[id] != [] && c[id][0].state == TryOpen && c[id][0].counterparty == Some(x)
  }

  ghost predicate SameTerms(e: End, f: End) {
    e == f.(state := e.state, counterparty := e.counterparty)
  }

  /** The end `y` on `d` answers the end `x` and has its ordering or delay. */
  ghost predicate Answers(d: Chain, y: Id, x: Id, attribute: nat) {
    TryBorn(d, y, x) && d[y][0].attribute == attribute
  }

  ghost predicate InitHistory(h: seq<End>) {
    && h != [] && h[0].state == Init && h[0].counterparty == None
    && (forall i :: 0 <= i < |h| ==> SameTerms(h[i], h[0]))
    && (forall i :: 0 < i < |h| ==> h[i].state == Open || h[i].state == Closed)
    && (forall i :: 0 <= i < |h| - 1 ==> h[i].state != Closed)
    && (forall i :: 0 <= i < |h| ==> h[i].counterparty == None || h[i].counterparty == h[|h| - 1].counterparty)
    && (forall i :: 0 <= i < |h| && h[i].state == Open ==> h[i].counterparty.Some?)
  }

  ghost predicate TryHistory(h: seq<End>) {
    && h != [] && h[0].state == TryOpen && h[0].counterparty.Some?
    && (forall i :: 0 <= i < |h| ==> SameTerms(h[i], h[0]) && h[i].counterparty == h[0].counterparty)
    && (forall i :: 0 < i < |h| ==> h[i].state == Open || h[i].state == Closed)
    && (forall i :: 0 <= i < |h| - 1 ==> h[i].state != Closed)
  }

  /** How the end `id` of chain `c` is bound to the ends of the other chain `d`. */
  ghost predicate EndBound(c: Chain, d: Chain, id: Id)
    requires id in c
  {
    var h := c[id];
    || (&& InitHistory(h)
        && (h[|h| - 1].counterparty.Some? ==> Answers(d, h[|h| - 1].counterparty.value, id, h[0].attribute)))
    || (&& TryHistory(h)
        && InitBorn(d, h[0].counterparty.value) && d[h[0].counterparty.value][0].attribute == h[0].attribute
        && ((exists i :: 0 <= i < |h| && h[i].state == Open) ==>
            Now(d, h[0].counterparty.value).counterparty == Some(id)))
  }

  ghost predicate Bound(c: Chain, d: Chain) {
    forall id {:trigger EndBound(c, d, id)} :: id in c ==> EndBound(c, d, id)
  }

  ghost predicate Sound(w: World) {
    Bound(w.a, w.b) && Bound(w.b, w.a)
  }

  /** The history of `id` only grows and its counterparty is written once. */
  ghost predicate EndGrows(c: Chain, c': Chain, id: Id)
    requires id in c
  {
    c[id] != [] ==>
      && id in c' && c[id] <= c'[id]
      && (Now(c, id).counterparty.Some? ==> Now(c', id).counterparty == Now(c, id).counterparty)
  }

  /** `c'` is a later state of `c`. */
  ghost predicate Grows(c: Chain, c': Chain) {
    forall id {:trigger EndGrows(c, c', id)} :: id in c ==> EndGrows(c, c', id)
  }

  ghost predicate Later(w: World, w': World) {
    Grows(w.a, w'.a) && Grows(w.b, w'.b) && (Sound(w) ==> Sound(w'))
  }

  /** Growth of the other chain keeps an end bound. */
  lemma FrameBound(c: Chain, d: Chain, d': Chain)
    requires Bound(c, d) && Grows(d, d')
    ensures Bound(c, d')
  {
    forall id | id in c
      ensures EndBound(c, d', id)
    {
      assert EndBound(c, d, id);
      var h := c[id];
      var other := if InitHistory(h) then h[|h| - 1].counterparty else h[0].counterparty;
      if other.Some? { assert EndGrows(d, d', other.value); }
    }
  }

  /** Adding a version to an end keeps the chain bound if the longer history is bound. */
  lemma AppendBound(c: Chain, d: Chain, t: Id, v: End)
    requires Bound(c, d) && Bound(d, c) && t in c && c[t] != []
    requires EndBound(c[t := c[t] + [v]], d, t)
    requires Now(c, t).counterparty.Some? ==> v.counterparty == Now(c, t).counterparty
    ensures Grows(c, c[t := c[t] + [v]]) && Bound(c[t := c[t] + [v]], d) && Bound(d, c[t := c[t] + [v]])
  {
    var c' := c[t := c[t] + [v]];
    forall id | id in c'
      ensures EndBound(c', d, id)
    {
      if id != t { assert EndBound(c, d, id); }
    }
    FrameBound(d, c, c');
  }

  /** Allocating a fresh end keeps the chain bound if the new end is bound. */
  lemma CreateBound(c: Chain, d: Chain, t: Id, e: End)
    requires Bound(c, d) && Bound(d, c) && t !in c
    requires EndBound(c[t := [e]], d, t)
    ensures Grows(c, c[t := [e]]) && Bound(c[t := [e]], d) && Bound(d, c[t := [e]])
  {
    var c' := c[t := [e]];
    forall id | id in c'
      ensures EndBound(c', d, id)
    {
      if id != t { assert EndBound(c, d, id); }
    }
    FrameBound(d, c, c');
  }

  /** Every accepted datagram keeps both chains bound and only adds to the target. */
  lemma ApplyBound(kind: Kind, dst: Chain, src: Chain, newId: Id, d: Datagram)
    requires Bound(dst, src) && Bound(src, dst) && Accepts(kind, dst, src, newId, d)
    ensures Grows(dst, Apply(dst, newId, d))
    ensures Bound(Apply(dst, newId, d), src) && Bound(src, Apply(dst, newId, d))
  {
    match d
    case OpenInit(e) =>
      CreateBound(dst, src, newId, e);
    case OpenTry(x, e, proof) =>
      TryKeepsBound(dst, src, newId, x, e, proof);
    case OpenAck(t, x, proof) =>
      AckKeepsBound(dst, src, t, x, proof);
    case OpenConfirm(t, proof) =>
      ConfirmKeepsBound(dst, src, t, proof);
    case CloseInit(t) =>
      CloseKeepsBound(dst, src, t);
    case CloseConfirm(t, proof) =>
      CloseKeepsBound(dst, src, t);
  }

  lemma TryKeepsBound(dst: Chain, src: Chain, newId: Id, x: Id, e: End, proof: End)
    requires Bound(dst, src) && Bound(src, dst) && newId !in dst
    requires e.state == TryOpen && e.counterparty == Some(x)
    requires Proves(src, x, proof) && proof.state == Init && proof.attribute == e.attribute
    ensures Grows(dst, dst[newId := [e]])
    ensures Bound(dst[newId := [e]], src) && Bound(src, dst[newId := [e]])
  {
    assert EndBound(src, dst, x);
    CreateBound(dst, src, newId, e);
  }

  lemma ConfirmKeepsBound(dst: Chain, src: Chain, t: Id, proof: End)
    requires Bound(dst, src) && Bound(src, dst)
    requires t in dst && dst[t] != [] && Now(dst, t).state == TryOpen && Now(dst, t).counterparty.Some?
    requires Proves(src, Now(dst, t).counterparty.value, proof)
    requires proof.state == Open && proof.counterparty == Some(t)
    ensures var c := Update(dst, t, Open, Now(dst, t).counterparty);
            Grows(dst, c) && Bound(c, src) && Bound(src, c)
  {
    var x := Now(dst, t).counterparty.value;
    assert EndBound(dst, src, t) && EndBound(src, dst, x);
    assert |dst[t]| == 1 && InitHistory(src[x]);
    assert Now(src, x).counterparty == Some(t);
    AppendBound(dst, src, t, Now(dst, t).(state := Open));
  }

  lemma CloseKeepsBound(dst: Chain, src: Chain, t: Id)
    requires Bound(dst, src) && Bound(src, dst)
    requires t in dst && dst[t] != [] && Now(dst, t).state != Closed
    ensures var c := Update(dst, t, Closed, Now(dst, t).counterparty);
            Grows(dst, c) && Bound(c, src) && Bound(src, c)
  {
    var v := Now(dst, t).(state := Closed);
    var c := dst[t := dst[t] + [v]];
    assert EndBound(dst, src, t);
    if InitHistory(dst[t]) {
      assert InitHistory(c[t]);
    } else {
      assert TryHistory(c[t]);
    }
    assert EndBound(c, src, t);
    AppendBound(dst, src, t, v);
  }

  lemma AckKeepsBound(dst: Chain, src: Chain, t: Id, x: Id, proof: End)
    requires Bound(dst, src) && Bound(src, dst)
    requires t in dst && dst[t] != [] && Now(dst, t).state == Init
    requires Proves(src, x, proof) && proof.state == TryOpen && proof.counterparty == Some(t)
    ensures Grows(dst, Update(dst, t, Open, Some(x)))
    ensures Bound(Update(dst, t, Open, Some(x)), src) && Bound(src, Update(dst, t, Open, Some(x)))
  {
    assert EndBound(dst, src, t) && EndBound(src, dst, x);
    assert |dst[t]| == 1;
    var v := Now(dst, t).(state := Open, counterparty := Some(x));
    AppendBound(dst, src, t, v);
  }

  /** One datagram leads to a later state. */
  lemma ExecLater(kind: Kind, w: World, s: Step)
    requires Sound(w)
    ensures Later(w, Exec(kind, w, s))
  {
    if s.toA && Accepts(kind, w.a, w.b, s.newId, s.d) {
      ApplyBound(kind, w.a, w.b, s.newId, s.d);
    } else if !s.toA && Accepts(kind, w.b, w.a, s.newId, s.d) {
      ApplyBound(kind, w.b, w.a, s.newId, s.d);
    }
  }

  /** Whatever other relayers submit, both chains stay bound and only grow. */
  lemma {:induction false} ExecAllLater(kind: Kind, w: World, steps: seq<Step>)
    requires Sound(w)
    ensures Later(w, ExecAll(kind, w, steps))
    decreases |steps|
  {
    if steps != [] {
      var w1 := Exec(kind, w, steps[0]);
      ExecLater(kind, w, steps[0]);
      ExecAllLater(kind, w1, steps[1..]);
      LaterTransitive(w, w1, ExecAll(kind, w, steps));
    }
  }

  /** Every pair of chains that any datagrams build up from nothing is bound. */
  lemma {:induction false} ReachableIsSound(kind: Kind, steps: seq<Step>)
    ensures Sound(ExecAll(kind, World(map[], map[]), steps))
  {
    ExecAllLater(kind, World(map[], map[]), steps);
  }

  lemma LaterTransitive(w0: World, w1: World, w2: World)
    requires Sound(w0) && Later(w0, w1) && Later(w1, w2)
    ensures Later(w0, w2)
  {
    GrowsTransitive(w0.a, w1.a, w2.a);
    GrowsTransitive(w0.b, w1.b, w2.b);
  }

  lemma GrowsTransitive(c0: Chain, c1: Chain, c2: Chain)
    requires Grows(c0, c1) && Grows(c1, c2)
    ensures Grows(c0, c2)
  {
    forall id | id in c0
      ensures EndGrows(c0, c2, id)
    {
      assert EndGrows(c0, c1, id);
      if c0[id] != [] { assert EndGrows(c1, c2, id); }
    }
  }
}
