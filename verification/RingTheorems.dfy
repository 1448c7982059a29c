/**
 What the ring promises over whole runs: clients only ever see prefixes of the
 single-process generation, a finished request got all of it, and a request
 that met no failure can always be driven to the end, leaving no cache behind.
 */
module RingTheorems {
  import opened Common
  import opened Pipeline
  import opened Ring
  import opened RingProof

  /** The laws are consistent: a two-shard ring that meets them, with token lists as hidden states. */
  lemma SomeRingIsOk() returns (k: Kernel<seq<int>, int, int>, ring: seq<Spec>)
    ensures RingOk(k, ring) && |ring| == 2
  {
    k := Kernel(2, (ts: seq<int>) => ts, (h: seq<int>) => |h|, (w: nat, c: seq<int>) => 0,
                (l: nat, h: seq<int>, m: int, c: int) => h, (l: nat, h: seq<int>, m: int, c: int) => c + |h|,
                (l: nat) => l, [0, 0], (h: seq<int>) => |h|);
    ring := [Spec("a", 0, 1), Spec("b", 1, 2)];
    assert Lawful(k) && Tiling(ring, 2);
  }

  ghost function Idle<H, C>(): State<H, C> { State(map[], map[], map[], multiset{}, {}) }

  /** Some actions take the ring from s to t. */
  ghost predicate Leads<H(!new), C(!new), M(!new)>(
    k: Kernel<H, C, M>, ring: seq<Spec>, s: State<H, C>, acts: seq<Action<H>>, t: State<H, C>)
    requires RingOk(k, ring)
    decreases |acts|
  {
    if acts == [] then t == s
    else Shaped(k, ring, s) && Can(s, acts[0]) && Leads(k, ring, Do(k, ring, s, acts[0]), acts[1..], t)
  }

  lemma {:induction false} LeadsKeep<H(!new), C(!new), M(!new)>(
    k: Kernel<H, C, M>, ring: seq<Spec>, s: State<H, C>, acts: seq<Action<H>>, t: State<H, C>)
    requires Good(k, ring, s) && Leads(k, ring, s, acts, t)
    ensures Good(k, ring, t)
    decreases |acts|
  {
    if acts != [] {
      StepKeeps(k, ring, s, acts[0]);
      LeadsKeep(k, ring, Do(k, ring, s, acts[0]), acts[1..], t);
    }
  }

  lemma {:induction false} PrefixOfLater<H, C, M>(k: Kernel<H, C, M>, prompt: seq<int>, t: nat, more: nat)
    requires Fits(k, k.blank) && t <= more
    ensures After(k, prompt, t).out <= After(k, prompt, more).out
    decreases more - t
  {
    if t < more { PrefixOfLater(k, prompt, t, more - 1); }
  }

  /** In every reachable state, with any number of interleaved requests, any delivery order and any failures, a
      client has a prefix of the greedy generation, and all of it exactly when its request is marked done. */
  lemma ClientsSeeGreedy<H(!new), C(!new), M(!new)>(
    k: Kernel<H, C, M>, ring: seq<Spec>, acts: seq<Action<H>>, t: State<H, C>, req: Request)
    requires RingOk(k, ring) && Leads(k, ring, Idle(), acts, t) && req in t.told
    ensures var told := t.told[req];
            && told.out <= Greedy(k, told.prompt, told.max)
            && (told.done <==> told.out == Greedy(k, told.prompt, told.max))
    ensures req in t.heads ==> Key(0, req) in t.caches && |t.told[req].out| < t.told[req].max
  {
    assert Good(k, ring, Idle<H, C>());
    LeadsKeep(k, ring, Idle(), acts, t);
    assert Flow(k, ring, t, req);
    var told := t.told[req];
    PrefixOfLater(k, told.prompt, |told.out|, told.max);
  }

  /** Done, never broken and nothing on the wire: no shard still holds a cache. */
  lemma NothingLeftBehind<H(!new), C(!new), M(!new)>(
    k: Kernel<H, C, M>, ring: seq<Spec>, acts: seq<Action<H>>, t: State<H, C>, req: Request, i: nat)
    requires RingOk(k, ring) && Leads(k, ring, Idle(), acts, t) && req in t.told && i < |ring|
    requires t.told[req].done && req !in t.broken && Quiet(t, req)
    ensures Key(i, req) !in t.caches && req !in t.heads
  {
    assert Good(k, ring, Idle<H, C>());
    LeadsKeep(k, ring, Idle(), acts, t);
    assert Flow(k, ring, t, req);
    var e: nat :| Cleared(ring, t, req, e);
    var end: Message<H> := End(req, e);
    assert end !in t.net;
  }

  // -------------------------------------------------------------- liveness

  /** The request is complete and gone from the ring. */
  ghost predicate Served<H(!new), C(!new), M(!new)>(k: Kernel<H, C, M>, ring: seq<Spec>, t: State<H, C>, req: Request,
      told: Told)
    requires Lawful(k)
  {
    && req in t.told && t.told[req] == told.(out := Greedy(k, told.prompt, told.max), done := true)
    && req !in t.heads && Cleared(ring, t, req, |ring|)
  }

  lemma Prepend<H(!new), C(!new), M(!new)>(
    k: Kernel<H, C, M>, ring: seq<Spec>, s: State<H, C>, a: Action<H>, rest: seq<Action<H>>, t: State<H, C>)
    requires RingOk(k, ring) && Shaped(k, ring, s) && Can(s, a) && Leads(k, ring, Do(k, ring, s, a), rest, t)
    ensures Leads(k, ring, s, [a] + rest, t)
  {
    assert ([a] + rest)[1..] == rest;
  }

  lemma {:induction false} FinishClosing<H(!new), C(!new), M(!new)>(
    k: Kernel<H, C, M>, ring: seq<Spec>, s: State<H, C>, req: Request, e: nat)
    returns (acts: seq<Action<H>>, t: State<H, C>)
    requires RingOk(k, ring) && Shaped(k, ring, s) && Known(s) && req in s.told && req !in s.heads
    requires Cleared(ring, s, req, e)
    requires s.told[req].done && s.told[req].out == Greedy(k, s.told[req].prompt, s.told[req].max)
    ensures Leads(k, ring, s, acts, t) && Served(k, ring, t, req, s.told[req])
    decreases |ring| - e
  {
    if e == |ring| {
      acts, t := [], s;
    } else {
      var a := Deliver(End(req, e));
      var u := Do(k, ring, s, a);
      DeliverConfined(k, ring, s, a.m);
      EndMoves(k, ring, s, req, e);
      DeliverKeepsTold(k, ring, s, a.m);
      var rest;
      rest, t := FinishClosing(k, ring, u, req, e + 1);
      acts := [a] + rest;
      Prepend(k, ring, s, a, rest, t);
    }
  }

  lemma {:induction false} FinishQueued<H(!new), C(!new), M(!new)>(
    k: Kernel<H, C, M>, ring: seq<Spec>, s: State<H, C>, req: Request) returns (acts: seq<Action<H>>, t: State<H, C>)
    requires Good(k, ring, s) && Can(s, Take(req)) && |s.told[req].out| < s.told[req].max
    ensures Leads(k, ring, s, acts, t) && Served(k, ring, t, req, s.told[req])
    decreases s.told[req].max - |s.told[req].out|, 0
  {
    var a: Action<H> := Take(req);
    var u := Do(k, ring, s, a);
    StepKeeps(k, ring, s, a);
    assert Flow(k, ring, s, req) && Flow(k, ring, u, req);
    TakeSends(k, ring, s, req);
    var rest;
    if u.told[req].done {
      assert Truthful(k, u.told[req]);
      rest, t := FinishClosing(k, ring, u, req, 1);
    } else {
      var m :| m in u.net && m.req == req && m.Activation?;
      rest, t := FinishMessage(k, ring, u, m);
    }
    acts := [a] + rest;
    Prepend(k, ring, s, a, rest, t);
  }

  /** What the ring looks like after a token is taken: the End relay or the next activation is under way. */
  ghost predicate Onward<H(!new), C>(ring: seq<Spec>, u: State<H, C>, req: Request)
    requires req in u.told
  {
    if u.told[req].done then req !in u.heads && Cleared(ring, u, req, 1)
    else req in u.heads && exists m :: m in u.net && m.req == req && m.Activation?
  }

  lemma TakeSends<H(!new), C(!new), M(!new)>(k: Kernel<H, C, M>, ring: seq<Spec>, s: State<H, C>, req: Request)
    requires RingOk(k, ring) && Shaped(k, ring, s) && Known(s) && Can(s, Take(req)) && Flow(k, ring, s, req)
    ensures var u := Do(k, ring, s, Take(req));
            && req in u.told && |u.told[req].out| == |s.told[req].out| + 1
            && u.told[req].prompt == s.told[req].prompt && u.told[req].max == s.told[req].max && Onward(ring, u, req)
  {
    var r := Reported(s, req);
    if r.told[req].done {
      CloseSends(ring, s, r, req);
    } else {
      RunSends(k, ring, r, req, [s.heads[req].queue[0]]);
    }
  }

  lemma CloseSends<H(!new), C>(ring: seq<Spec>, s: State<H, C>, r: State<H, C>, req: Request)
    requires |ring| >= 2 && Quiet(s, req) && r.net == s.net && req in r.told && r.told[req].done
    ensures Onward(ring, Close(r, req, true), req)
  {
    SentOnly(s, Close(r, req, true), End(req, 1));
  }

  lemma RunSends<H(!new), C(!new), M(!new)>(k: Kernel<H, C, M>, ring: seq<Spec>, r: State<H, C>, req: Request,
      tokens: seq<int>)
    requires RingOk(k, ring) && Shaped(k, ring, r) && req in r.told && req in r.heads && !r.told[req].done
    ensures Onward(ring, HeadRuns(k, ring, r, req, tokens), req)
  {
    var p := Forward(k, 0, ring[0].end, Pass(k.embed(tokens), CacheAt(k, r, 0, req)));
    assert Activation(req, 1, ring[0].end, p.h) in HeadRuns(k, ring, r, req, tokens).net;
  }

  /** After a live activation arrives, its successor is under way. */
  lemma ArriveSends<H(!new), C(!new), M(!new)>(k: Kernel<H, C, M>, ring: seq<Spec>, v: State<H, C>,
      m: Message<H>) returns (x: Message<H>)
    requires RingOk(k, ring) && Shaped(k, ring, v) && m.Activation? && 1 <= m.to < |ring| && m.next == ring[m.to].start
    ensures x in Arrive(k, ring, v, m).net && x.req == m.req
    ensures if m.to + 1 < |ring| then x.Activation? && x.to == m.to + 1 else x.Sampled?
  {
    var spec := ring[m.to];
    var p := Forward(k, spec.start, spec.end, Pass(m.h, CacheAt(k, v, m.to, m.req)));
    x := Answer(k, ring, m.to, m.req, p.h);
  }

  /** After a live message arrives, its successor is under way or the token is in the queue. */
  lemma DeliverSends<H(!new), C(!new), M(!new)>(k: Kernel<H, C, M>, ring: seq<Spec>, s: State<H, C>,
      m: Message<H>) returns (x: Message<H>)
    requires RingOk(k, ring) && Shaped(k, ring, s) && Known(s) && m.req in s.told && Flow(k, ring, s, m.req)
    requires m in s.net && m.req in s.heads
    ensures var u := Do(k, ring, s, Deliver(m));
            u.told == s.told && m.req in u.heads && m.req in u.told && |u.told[m.req].out| < u.told[m.req].max
    ensures m.Sampled? || (m.Activation? && 1 <= m.to < |ring|)
    ensures m.Sampled? ==> Can(Do(k, ring, s, Deliver(m)), Take(m.req))
    ensures m.Activation? ==>
              && x in Do(k, ring, s, Deliver(m)).net && x.req == m.req
              && if m.to + 1 < |ring| then x.Activation? && x.to == m.to + 1 else x.Sampled?
  {
    LiveMessage(k, ring, s, m);
    DeliverKeepsTold(k, ring, s, m);
    var v := s.(net := s.net - multiset{m});
    x := m;
    if m.Activation? {
      RemoveConfined(k, ring, s, m);
      x := ArriveSends(k, ring, v, m);
    }
  }

  lemma {:induction false} FinishMessage<H(!new), C(!new), M(!new)>(
    k: Kernel<H, C, M>, ring: seq<Spec>, s: State<H, C>, m: Message<H>) returns (acts: seq<Action<H>>, t: State<H, C>)
    requires Good(k, ring, s) && m in s.net && m.req in s.heads && m.req in s.told
    requires |s.told[m.req].out| < s.told[m.req].max
    ensures Leads(k, ring, s, acts, t) && Served(k, ring, t, m.req, s.told[m.req])
    decreases s.told[m.req].max - |s.told[m.req].out|, if m.Activation? then |ring| - m.to + 1 else 1
  {
    var a := Deliver(m);
    var u := Do(k, ring, s, a);
    StepKeeps(k, ring, s, a);
    assert Flow(k, ring, s, m.req);
    var x := DeliverSends(k, ring, s, m);
    var rest;
    if m.Sampled? {
      rest, t := FinishQueued(k, ring, u, m.req);
    } else {
      rest, t := FinishMessage(k, ring, u, x);
    }
    acts := [a] + rest;
    Prepend(k, ring, s, a, rest, t);
  }

  /** From any reachable state, a request that met no failure can be driven to the end: the client then has exactly
      the greedy generation and no shard keeps a cache for it. */
  lemma NeverStuck<H(!new), C(!new), M(!new)>(
    k: Kernel<H, C, M>, ring: seq<Spec>, before: seq<Action<H>>, s: State<H, C>, req: Request)
    returns (acts: seq<Action<H>>, t: State<H, C>)
    requires RingOk(k, ring) && Leads(k, ring, Idle(), before, s) && req in s.told && req !in s.broken
    ensures Leads(k, ring, s, acts, t) && Served(k, ring, t, req, s.told[req])
  {
    assert Good(k, ring, Idle<H, C>());
    LeadsKeep(k, ring, Idle(), before, s);
    assert Flow(k, ring, s, req);
    if req !in s.heads {
      var e: nat :| Cleared(ring, s, req, e);
      acts, t := FinishClosing(k, ring, s, req, e);
    } else if s.heads[req].queue != [] {
      acts, t := FinishQueued(k, ring, s, req);
    } else {
      var m: Message<H> :| m.req == req && Only(s, m) && Carries(k, ring, s, m, s.told[req].prompt, |s.told[req].out|);
      acts, t := FinishMessage(k, ring, s, m);
    }
  }
}
