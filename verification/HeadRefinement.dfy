/**
 The head object is the head of the ring. Beginning, taking a token and giving
 up do to the ring's row 0 exactly what the object's methods do to its tables,
 no other action touches that row, and so the object's decode loop follows the
 ring turn by turn: what it tells its client is the greedy generation.
 */
module HeadRefinement {
  import opened Common
  import opened Pipeline
  import opened Ring
  import opened RingProof
  import opened RingTheorems
  import NodeState

  type Row<C> = map<Request, seq<C>>

  lemma BeginIsPrefill<H(!new), C(!new), M(!new)>(
    k: Kernel<H, C, M>, ring: seq<Spec>, s: State<H, C>, req: Request, prompt: seq<int>, asked: nat, row: Row<C>)
    requires RingOk(k, ring) && Shaped(k, ring, s) && req !in s.told && NodeState.IsRow(s, 0, row)
    ensures var t := Do(k, ring, s, Begin(req, prompt, asked));
            var p := Forward(k, 0, ring[0].end, Pass(k.embed(prompt), k.blank));
            && NodeState.IsRow(t, 0, row[req := p.cache]) && t.heads.Keys == s.heads.Keys + {req}
            && t.net == s.net + multiset{Activation(req, 1, ring[0].end, p.h)}
            && req in t.told && t.told[req] == Told(prompt, Max(1, asked), [], false)
  {
    var t, u := Do(k, ring, s, Begin(req, prompt, asked)), Opened(s, req, prompt, asked);
    assert CacheAt(k, u, 0, req) == k.blank;
    RowSet(s, t, 0, req, row);
  }

  /** One cell of a row written, the others kept. */
  lemma RowSet<H(!new), C(!new)>(s: State<H, C>, t: State<H, C>, i: nat, req: Request, row: Row<C>)
    requires NodeState.IsRow(s, i, row) && Key(i, req) in t.caches
    requires forall r :: r != req ==>
               && (Key(i, r) in t.caches <==> Key(i, r) in s.caches)
               && (Key(i, r) in s.caches ==> t.caches[Key(i, r)] == s.caches[Key(i, r)])
    ensures NodeState.IsRow(t, i, row[req := t.caches[Key(i, req)]])
  {
    var now := row[req := t.caches[Key(i, req)]];
    forall r ensures (Key(i, r) in t.caches <==> r in now) && (r in now ==> t.caches[Key(i, r)] == now[r]) {
      if r != req { assert Key(i, r) in s.caches <==> r in row; }
    }
  }

  lemma RowDrop<H(!new), C(!new)>(s: State<H, C>, t: State<H, C>, i: nat, req: Request, row: Row<C>)
    requires NodeState.IsRow(s, i, row) && t.caches == s.caches - {Key(i, req)}
    ensures NodeState.IsRow(t, i, row - {req})
  {
    var now := row - {req};
    forall r ensures (Key(i, r) in t.caches <==> r in now) && (r in now ==> t.caches[Key(i, r)] == now[r]) {
      assert Key(i, r) in s.caches <==> r in row;
    }
  }

  /** Taking a token: the client is told, then the row is cleared and End sent, or the token is fed back and forwarded.
      */
  lemma TakeIsTurn<H(!new), C(!new), M(!new)>(k: Kernel<H, C, M>, ring: seq<Spec>, s: State<H, C>, req: Request,
      row: Row<C>)
    requires RingOk(k, ring) && Shaped(k, ring, s) && Can(s, Take(req)) && NodeState.IsRow(s, 0, row) && req in row
    requires Fits(k, row[req])
    ensures var t, token := Do(k, ring, s, Take(req)), s.heads[req].queue[0];
            var final := |s.told[req].out| + 1 >= s.heads[req].max;
            var p := Forward(k, 0, ring[0].end, Pass(k.embed([token]), row[req]));
            && req in t.told && t.told[req] == s.told[req].(out := s.told[req].out + [token], done := final)
            && NodeState.IsRow(t, 0, if final then row - {req} else row[req := p.cache])
            && t.heads.Keys == (if final then s.heads.Keys - {req} else s.heads.Keys)
            && t.net == s.net + multiset{if final then End(req, 1) else Activation(req, 1, ring[0].end, p.h)}
  {
    var t, u := Do(k, ring, s, Take(req)), Reported(s, req);
    assert Key(0, req) in s.caches && CacheAt(k, u, 0, req) == row[req];
    if u.told[req].done { RowDrop(s, t, 0, req, row); } else { RowSet(s, t, 0, req, row); }
  }

  lemma AbortIsGiveUp<H(!new), C(!new), M(!new)>(
    k: Kernel<H, C, M>, ring: seq<Spec>, s: State<H, C>, req: Request, relayed: bool, row: Row<C>)
    requires RingOk(k, ring) && Shaped(k, ring, s) && req in s.heads && NodeState.IsRow(s, 0, row)
    ensures var t := Do(k, ring, s, Abort(req, relayed));
            && NodeState.IsRow(t, 0, row - {req}) && t.heads.Keys == s.heads.Keys - {req} && t.told == s.told
            && t.net == if relayed then s.net + multiset{End(req, 1)} else s.net
  {
    RowDrop(s, Do(k, ring, s, Abort(req, relayed)), 0, req, row);
  }

  // ----------------------------------------------------------- other actions

  /** Not a step of this request's head. */
  predicate Elsewhere<H>(a: Action<H>, req: Request) { a.Deliver? || a.Lose? || Of(a) != req }

  /** What the head of a request has of it. */
  ghost predicate SameAtHead<H, C>(s: State<H, C>, t: State<H, C>, req: Request) {
    && (Key(0, req) in s.caches <==> Key(0, req) in t.caches)
    && (Key(0, req) in s.caches ==> s.caches[Key(0, req)] == t.caches[Key(0, req)])
    && (req in s.heads <==> req in t.heads) && (req in s.heads ==> s.heads[req].max == t.heads[req].max)
    && (req in s.told <==> req in t.told) && (req in s.told ==> s.told[req] == t.told[req])
  }

  lemma ElsewhereKeeps<H(!new), C(!new), M(!new)>(
    k: Kernel<H, C, M>, ring: seq<Spec>, s: State<H, C>, a: Action<H>, req: Request)
    requires RingOk(k, ring) && Shaped(k, ring, s) && Known(s) && Can(s, a) && Elsewhere(a, req)
    ensures SameAtHead(s, Do(k, ring, s, a), req)
  {
    if Of(a) != req {
      ActionConfined(k, ring, s, a);
      assert Same(s, Do(k, ring, s, a), req);
      assert Key(0, req) in s.caches <==> Key(0, req) in Do(k, ring, s, a).caches;
    } else if a.Deliver? {
      DeliverAtHead(k, ring, s, a.m);
    }
  }

  lemma DeliverAtHead<H(!new), C(!new), M(!new)>(k: Kernel<H, C, M>, ring: seq<Spec>, s: State<H, C>, m: Message<H>)
    requires RingOk(k, ring) && Shaped(k, ring, s) && m in s.net
    ensures SameAtHead(s, Do(k, ring, s, Deliver(m)), m.req)
  {}

  /** Any number of actions elsewhere. */
  ghost predicate Meanwhile<H(!new), C(!new), M(!new)>(
    k: Kernel<H, C, M>, ring: seq<Spec>, s: State<H, C>, acts: seq<Action<H>>, t: State<H, C>, req: Request)
    requires RingOk(k, ring)
  {
    Leads(k, ring, s, acts, t) && forall i :: 0 <= i < |acts| ==> Elsewhere(acts[i], req)
  }

  lemma {:induction false} MeanwhileKeeps<H(!new), C(!new), M(!new)>(
    k: Kernel<H, C, M>, ring: seq<Spec>, s: State<H, C>, acts: seq<Action<H>>, t: State<H, C>, req: Request)
    requires Good(k, ring, s) && Meanwhile(k, ring, s, acts, t, req)
    ensures Good(k, ring, t) && SameAtHead(s, t, req)
    decreases |acts|
  {
    if acts != [] {
      var u := Do(k, ring, s, acts[0]);
      ElsewhereKeeps(k, ring, s, acts[0], req);
      StepKeeps(k, ring, s, acts[0]);
      MeanwhileKeeps(k, ring, u, acts[1..], t, req);
    }
  }

  // ------------------------------------------------------------ the loop

  /** The head takes tokens n times; anything may happen elsewhere before each take. */
  datatype Turns<H, C> = Turns(before: seq<State<H, C>>, ready: seq<State<H, C>>, between: seq<seq<Action<H>>>)

  ghost predicate TurnAt<H(!new), C(!new), M(!new)>(
    k: Kernel<H, C, M>, ring: seq<Spec>, ts: Turns<H, C>, i: nat, req: Request, script: nat -> NodeState.Round)
    requires RingOk(k, ring) && |ts.before| == |ts.ready| + 1 && |ts.between| == |ts.ready| && i < |ts.ready|
  {
    && Meanwhile(k, ring, ts.before[i], ts.between[i], ts.ready[i], req)
    && Shaped(k, ring, ts.ready[i]) && Can(ts.ready[i], Take(req))
    && ts.ready[i].heads[req].queue[0] == script(i).item
    && ts.before[i + 1] == Do(k, ring, ts.ready[i], Take(req))
  }

  ghost predicate AreTurns<H(!new), C(!new), M(!new)>(
    k: Kernel<H, C, M>, ring: seq<Spec>, ts: Turns<H, C>, req: Request, script: nat -> NodeState.Round)
    requires RingOk(k, ring)
  {
    && |ts.before| == |ts.ready| + 1 && |ts.between| == |ts.ready|
    && forall i: nat :: i < |ts.ready| ==> TurnAt(k, ring, ts, i, req, script)
  }

  function Items(script: nat -> NodeState.Round, n: nat): (r: seq<int>)
    ensures |r| == n
  {
    if n == 0 then [] else Items(script, n - 1) + [script(n - 1).item]
  }

  /** After n turns, as the object's loop has it: the tokens told are the script's, and while the request is live the
      head's cache is the object's. */
  ghost predicate InStep<H(!new), C(!new), M(!new)>(
    k: Kernel<H, C, M>, ring: seq<Spec>, s0: State<H, C>, s: State<H, C>, req: Request, script: nat -> NodeState.Round,
    n: nat)
    requires RingOk(k, ring)
  {
    && Good(k, ring, s) && Key(0, req) in s0.caches && Fits(k, s0.caches[Key(0, req)]) && req in s0.told
    && req in s.told
    && s.told[req].out == s0.told[req].out + Items(script, n)
    && s.told[req].prompt == s0.told[req].prompt && s.told[req].max == s0.told[req].max
    && (req in s.heads ==>
          && Key(0, req) in s.caches
          && s.caches[Key(0, req)] == NodeState.Fed(NodeState.HeadPass(k, ring[0].end), script, n,
              s0.caches[Key(0, req)]))
  }

  lemma RowOf<H(!new), C(!new)>(s: State<H, C>, i: nat) returns (row: Row<C>)
    ensures NodeState.IsRow(s, i, row)
  {
    row := map x | x in s.caches && x.shard == i :: x.req := s.caches[x];
    forall r ensures (Key(i, r) in s.caches <==> r in row) && (r in row ==> s.caches[Key(i, r)] == row[r]) {
      if Key(i, r) in s.caches { assert Key(i, r).req in row; }
    }
  }

  /** What a take does to the head's own row and to what the client was told. */
  ghost predicate Turned<H(!new), C(!new), M(!new)>(
    k: Kernel<H, C, M>, end: nat, u: State<H, C>, t: State<H, C>, req: Request, token: int) {
    && req in u.told && req in t.told && Key(0, req) in u.caches
    && t.told[req].out == u.told[req].out + [token]
    && t.told[req].prompt == u.told[req].prompt && t.told[req].max == u.told[req].max
    && (req in t.heads ==>
          && Key(0, req) in t.caches
          && t.caches[Key(0, req)] == NodeState.HeadPass(k, end)([token], u.caches[Key(0, req)]).cache)
  }

  lemma TakeTurns<H(!new), C(!new), M(!new)>(k: Kernel<H, C, M>, ring: seq<Spec>, u: State<H, C>, req: Request)
    requires RingOk(k, ring) && Shaped(k, ring, u) && Can(u, Take(req)) && Key(0, req) in u.caches
    ensures Turned(k, ring[0].end, u, Do(k, ring, u, Take(req)), req, u.heads[req].queue[0])
  {
    var row := RowOf(u, 0);
    assert Key(0, req) in u.caches && req in row;
    TakeIsTurn(k, ring, u, req, row);
    var t := Do(k, ring, u, Take(req));
    assert Key(0, req) in t.caches ==> req in (if req in t.heads then row else row - {req});
  }

  lemma OneTurn<H(!new), C(!new), M(!new)>(
    k: Kernel<H, C, M>, ring: seq<Spec>, s0: State<H, C>, u: State<H, C>, req: Request, script: nat -> NodeState.Round,
    n: nat)
    requires RingOk(k, ring) && InStep(k, ring, s0, u, req, script, n) && Can(u, Take(req))
    requires u.heads[req].queue[0] == script(n).item
    ensures InStep(k, ring, s0, Do(k, ring, u, Take(req)), req, script, n + 1)
  {
    StepKeeps(k, ring, u, Take(req));
    TakeTurns(k, ring, u, req);
    TurnedInStep(k, ring, s0, u, Do(k, ring, u, Take(req)), req, script, n);
  }

  lemma TurnedInStep<H(!new), C(!new), M(!new)>(
    k: Kernel<H, C, M>, ring: seq<Spec>, s0: State<H, C>, u: State<H, C>, t: State<H, C>, req: Request,
    script: nat -> NodeState.Round, n: nat)
    requires RingOk(k, ring) && InStep(k, ring, s0, u, req, script, n) && req in u.heads && Good(k, ring, t)
    requires Turned(k, ring[0].end, u, t, req, script(n).item)
    ensures InStep(k, ring, s0, t, req, script, n + 1)
  {}

  lemma {:induction false} LoopFollowsRing<H(!new), C(!new), M(!new)>(
    k: Kernel<H, C, M>, ring: seq<Spec>, ts: Turns<H, C>, req: Request, script: nat -> NodeState.Round, n: nat)
    requires RingOk(k, ring) && AreTurns(k, ring, ts, req, script) && n <= |ts.ready|
    requires InStep(k, ring, ts.before[0], ts.before[0], req, script, 0)
    ensures InStep(k, ring, ts.before[0], ts.before[n], req, script, n)
    decreases n
  {
    if n > 0 {
      LoopFollowsRing(k, ring, ts, req, script, n - 1);
      assert TurnAt(k, ring, ts, n - 1, req, script);
      MeanwhileKeeps(k, ring, ts.before[n - 1], ts.between[n - 1], ts.ready[n - 1], req);
      OneTurn(k, ring, ts.before[0], ts.ready[n - 1], req, script, n - 1);
    }
  }

  lemma {:induction false} TokensAreItems(script: nat -> NodeState.Round, n: nat, max: nat, i: nat)
    requires i < n
    ensures NodeState.Tokens(script, n, max)[i].Token?
    ensures NodeState.Tokens(script, n, max)[i].token == Items(script, n)[i]
  {
    if i + 1 < n { TokensAreItems(script, n - 1, max, i); }
  }

  /** Right after a request begins, object and ring are in step. */
  lemma BeginsInStep<H(!new), C(!new), M(!new)>(
    k: Kernel<H, C, M>, ring: seq<Spec>, s: State<H, C>, req: Request, prompt: seq<int>, asked: nat,
    script: nat -> NodeState.Round)
    requires Good(k, ring, s) && req !in s.told
    ensures var b := Do(k, ring, s, Begin(req, prompt, asked));
            InStep(k, ring, b, b, req, script, 0) && b.told[req] == Told(prompt, Max(1, asked), [], false)
  {
    StepKeeps(k, ring, s, Begin(req, prompt, asked));
    var row := RowOf(s, 0);
    BeginIsPrefill(k, ring, s, req, prompt, asked, row);
  }

  lemma GoodIsTruthful<H(!new), C(!new), M(!new)>(k: Kernel<H, C, M>, ring: seq<Spec>, t: State<H, C>, req: Request)
    requires Good(k, ring, t) && req in t.told
    ensures Truthful(k, t.told[req])
  {
    assert Flow(k, ring, t, req);
  }

  /** Tokens told truthfully are a prefix of the greedy generation, all of it exactly when done. */
  lemma TruthfulIsGreedy<H(!new), C(!new), M(!new)>(k: Kernel<H, C, M>, told: Told, i: nat)
    requires Lawful(k) && Truthful(k, told) && i < |told.out|
    ensures told.out[i] == After(k, told.prompt, told.max).out[i]
  {
    PrefixOfLater(k, told.prompt, |told.out|, told.max);
  }

  /** From a fresh request through n turns. */
  lemma TurnsInStep<H(!new), C(!new), M(!new)>(
    k: Kernel<H, C, M>, ring: seq<Spec>, s: State<H, C>, req: Request, prompt: seq<int>, asked: nat,
    ts: Turns<H, C>, script: nat -> NodeState.Round)
    requires Good(k, ring, s) && req !in s.told
    requires AreTurns(k, ring, ts, req, script) && ts.before[0] == Do(k, ring, s, Begin(req, prompt, asked))
    ensures var n, t := |ts.ready|, ts.before[|ts.ready|];
            && req in t.told && Truthful(k, t.told[req]) && t.told[req].out == Items(script, n)
            && t.told[req].prompt == prompt && t.told[req].max == Max(1, asked)
  {
    var n := |ts.ready|;
    BeginsInStep(k, ring, s, req, prompt, asked, script);
    LoopFollowsRing(k, ring, ts, req, script, n);
    GoodIsTruthful(k, ring, ts.before[n], req);
  }

  /** A head object whose queue yields what the ring delivers tells its client the greedy generation: the i-th token
      of its trace is the i-th greedy token, and the request is done after n turns exactly when n tokens were asked
      for. */
  lemma HeadTellsGreedy<H(!new), C(!new), M(!new)>(
    k: Kernel<H, C, M>, ring: seq<Spec>, acts: seq<Action<H>>, s: State<H, C>, req: Request, prompt: seq<int>,
    asked: nat, ts: Turns<H, C>, script: nat -> NodeState.Round, i: nat)
    requires RingOk(k, ring) && Leads(k, ring, Idle(), acts, s) && Shaped(k, ring, s) && req !in s.told
    requires AreTurns(k, ring, ts, req, script) && ts.before[0] == Do(k, ring, s, Begin(req, prompt, asked))
    requires i < |ts.ready|
    ensures var n, max, t := |ts.ready|, Max(1, asked), ts.before[|ts.ready|];
            && n <= |Greedy(k, prompt, asked)| == max
            && NodeState.Tokens(script, n, max)[i] == NodeState.Token(Greedy(k, prompt, asked)[i], i, i + 1 == max)
            && req in t.told && (t.told[req].done <==> n == max)
  {
    ReachedGood(k, ring, acts, s);
    TurnsInStep(k, ring, s, req, prompt, asked, ts, script);
    ToldIsTrace(k, ts.before[|ts.ready|].told[req], script, |ts.ready|, i);
  }

  lemma ReachedGood<H(!new), C(!new), M(!new)>(k: Kernel<H, C, M>, ring: seq<Spec>, acts: seq<Action<H>>,
      s: State<H, C>)
    requires RingOk(k, ring) && Leads(k, ring, Idle(), acts, s)
    ensures Good(k, ring, s)
  {
    assert Good(k, ring, Idle<H, C>());
    LeadsKeep(k, ring, Idle(), acts, s);
  }

  lemma ToldIsTrace<H(!new), C(!new), M(!new)>(
    k: Kernel<H, C, M>, told: Told, script: nat -> NodeState.Round, n: nat, i: nat)
    requires Lawful(k) && Truthful(k, told) && told.out == Items(script, n) && i < n
    ensures NodeState.Tokens(script, n, told.max)[i]
         == NodeState.Token(After(k, told.prompt, told.max).out[i], i, i + 1 == told.max)
  {
    TruthfulIsGreedy(k, told, i);
    TokensAreItems(script, n, told.max, i);
  }
}
