/**
 Every reachable state of the ring tells each client a prefix of what the
 single-process generator would produce, whatever the interleaving of
 requests, message order and failures; unbroken requests are never stuck and
 leave no cache behind.
 */
module RingProof {
  import opened Common
  import opened Pipeline
  import opened Ring

  /** No message about a request is under way. */
  ghost predicate Quiet<H(!new), C>(s: State<H, C>, req: Request) { forall m :: m in s.net ==> m.req != req }

  /** m is the one message about its request. */
  ghost predicate Only<H(!new), C>(s: State<H, C>, m: Message<H>) {
    s.net[m] == 1 && forall x :: x in s.net && x.req == m.req ==> x == m
  }

  /** Shard i has run the pass that follows g tokens if it is below j, and is ready for it otherwise. */
  ghost predicate SweptAt<H(!new), C(!new), M(!new)>(
    k: Kernel<H, C, M>, ring: seq<Spec>, s: State<H, C>, req: Request, prompt: seq<int>, g: nat, j: nat, i: nat)
    requires RingOk(k, ring) && Shaped(k, ring, s) && i < |ring|
  {
    Ready(k, prompt, if i < j then g + 1 else g, ring[i].start, ring[i].end, CacheAt(k, s, i, req))
  }

  /** Shards below j have run the pass that follows g tokens, the others have not. */
  ghost predicate Swept<H(!new), C(!new), M(!new)>(
    k: Kernel<H, C, M>, ring: seq<Spec>, s: State<H, C>, req: Request, prompt: seq<int>, g: nat, j: nat)
    requires RingOk(k, ring) && Shaped(k, ring, s)
  {
    forall i :: 0 <= i < |ring| ==> SweptAt(k, ring, s, req, prompt, g, j, i)
  }

  ghost predicate Carries<H(!new), C(!new), M(!new)>(
    k: Kernel<H, C, M>, ring: seq<Spec>, s: State<H, C>, m: Message<H>, prompt: seq<int>, g: nat)
    requires RingOk(k, ring) && Shaped(k, ring, s)
  {
    match m
    case Activation(req, to, next, h) =>
      && 1 <= to < |ring| && next == ring[to].start
      && h == Midway(k, prompt, g, next).h && Swept(k, ring, s, req, prompt, g, to)
    case Sampled(req, token) => token == After(k, prompt, g + 1).out[g] && Swept(k, ring, s, req, prompt, g, |ring|)
    case End(_, _) => false
  }

  /** What the head of a live request waits for. */
  ghost predicate Waiting<H(!new), C(!new), M(!new)>(
    k: Kernel<H, C, M>, ring: seq<Spec>, s: State<H, C>, req: Request, queue: seq<int>, prompt: seq<int>, g: nat)
    requires RingOk(k, ring) && Shaped(k, ring, s)
  {
    if queue != [] then
      && |queue| == 1 && Quiet(s, req)
      && queue[0] == After(k, prompt, g + 1).out[g] && Swept(k, ring, s, req, prompt, g, |ring|)
    else
      || (req in s.broken && Quiet(s, req))
      || exists m: Message<H> :: m.req == req && Only(s, m) && Carries(k, ring, s, m, prompt, g)
  }

  /** Shards below e have dropped the request, and End is on its way to e. */
  ghost predicate Cleared<H(!new), C>(ring: seq<Spec>, s: State<H, C>, req: Request, e: nat) {
    && 1 <= e <= |ring| && (forall i :: 0 <= i < e ==> Key(i, req) !in s.caches)
    && if e < |ring| then Only(s, End(req, e)) else Quiet(s, req)
  }

  /** What the client knows is a prefix of the reference, complete when it is told so. */
  ghost predicate Truthful<H(!new), C(!new), M(!new)>(k: Kernel<H, C, M>, told: Told)
    requires Lawful(k)
  {
    && 1 <= told.max && |told.out| <= told.max && (told.done <==> |told.out| == told.max)
    && told.out == After(k, told.prompt, |told.out|).out
  }

  ghost predicate Flow<H(!new), C(!new), M(!new)>(k: Kernel<H, C, M>, ring: seq<Spec>, s: State<H, C>, req: Request)
    requires RingOk(k, ring) && Shaped(k, ring, s) && req in s.told
  {
    var told := s.told[req];
    && Truthful(k, told)
    && (req in s.heads ==>
          && s.heads[req].max == told.max && !told.done && Key(0, req) in s.caches
          && Waiting(k, ring, s, req, s.heads[req].queue, told.prompt, |told.out|))
    && (req !in s.heads && req !in s.broken ==> told.done && exists e :: Cleared(ring, s, req, e))
  }

  /** Only requests that were begun leave traces. */
  ghost predicate Known<H(!new), C>(s: State<H, C>) {
    && (forall x :: x in s.caches ==> x.req in s.told)
    && (forall m :: m in s.net ==> m.req in s.told)
    && (forall r :: r in s.heads ==> r in s.told)
    && forall r :: r in s.broken ==> r in s.told
  }

  ghost predicate Good<H(!new), C(!new), M(!new)>(k: Kernel<H, C, M>, ring: seq<Spec>, s: State<H, C>) {
    && RingOk(k, ring) && Shaped(k, ring, s) && Known(s)
    && forall req {:trigger Flow(k, ring, s, req)} :: req in s.told ==> Flow(k, ring, s, req)
  }

  // ----------------------------------------------------------------- frame

  /** Two states that look the same to one request. */
  ghost predicate Same<H(!new), C>(s: State<H, C>, t: State<H, C>, req: Request) {
    && (req in s.told <==> req in t.told) && (req in s.told ==> s.told[req] == t.told[req])
    && (req in s.heads <==> req in t.heads) && (req in s.heads ==> s.heads[req] == t.heads[req])
    && (req in s.broken <==> req in t.broken)
    && (forall i :: (Key(i, req) in s.caches <==> Key(i, req) in t.caches)
                    && (Key(i, req) in s.caches ==> s.caches[Key(i, req)] == t.caches[Key(i, req)]))
    && forall m: Message<H> :: m.req == req ==> s.net[m] == t.net[m]
  }

  lemma OnlySame<H(!new), C>(s: State<H, C>, t: State<H, C>, m: Message<H>)
    requires Same(s, t, m.req) && Only(s, m)
    ensures Only(t, m)
  {
    forall x | x in t.net && x.req == m.req ensures x == m { assert s.net[x] == t.net[x]; }
  }

  lemma QuietSame<H(!new), C>(s: State<H, C>, t: State<H, C>, req: Request)
    requires Same(s, t, req) && Quiet(s, req)
    ensures Quiet(t, req)
  {
    forall x | x in t.net ensures x.req != req {
      assert x.req == req ==> s.net[x] == t.net[x];
    }
  }

  lemma SweptSame<H(!new), C(!new), M(!new)>(
    k: Kernel<H, C, M>, ring: seq<Spec>, s: State<H, C>, t: State<H, C>, req: Request, prompt: seq<int>, g: nat, j: nat)
    requires RingOk(k, ring) && Shaped(k, ring, s) && Shaped(k, ring, t)
    requires forall i :: 0 <= i < |ring| ==> CacheAt(k, s, i, req) == CacheAt(k, t, i, req)
    requires Swept(k, ring, s, req, prompt, g, j)
    ensures Swept(k, ring, t, req, prompt, g, j)
  {
    forall i | 0 <= i < |ring| ensures SweptAt(k, ring, t, req, prompt, g, j, i) {
      assert SweptAt(k, ring, s, req, prompt, g, j, i) && CacheAt(k, s, i, req) == CacheAt(k, t, i, req);
    }
  }

  lemma WaitingSame<H(!new), C(!new), M(!new)>(
    k: Kernel<H, C, M>, ring: seq<Spec>, s: State<H, C>, t: State<H, C>, req: Request, queue: seq<int>,
    prompt: seq<int>, g: nat)
    requires RingOk(k, ring) && Shaped(k, ring, s) && Shaped(k, ring, t) && Same(s, t, req)
    requires Waiting(k, ring, s, req, queue, prompt, g)
    ensures Waiting(k, ring, t, req, queue, prompt, g)
  {
    forall i | 0 <= i < |ring| ensures CacheAt(k, s, i, req) == CacheAt(k, t, i, req) {
      assert Key(i, req) in s.caches <==> Key(i, req) in t.caches;
    }
    if queue != [] {
      QuietSame(s, t, req);
      SweptSame(k, ring, s, t, req, prompt, g, |ring|);
    } else if req in s.broken && Quiet(s, req) {
      QuietSame(s, t, req);
    } else {
      var m: Message<H> :| m.req == req && Only(s, m) && Carries(k, ring, s, m, prompt, g);
      OnlySame(s, t, m);
      SweptSame(k, ring, s, t, req, prompt, g, if m.Activation? then m.to else |ring|);
      assert Carries(k, ring, t, m, prompt, g);
    }
  }

  lemma FlowSame<H(!new), C(!new), M(!new)>(
    k: Kernel<H, C, M>, ring: seq<Spec>, s: State<H, C>, t: State<H, C>, req: Request)
    requires RingOk(k, ring) && Shaped(k, ring, s) && Shaped(k, ring, t) && Same(s, t, req)
    requires req in s.told && Flow(k, ring, s, req)
    ensures Flow(k, ring, t, req)
  {
    if req in s.heads {
      WaitingSame(k, ring, s, t, req, s.heads[req].queue, s.told[req].prompt, |s.told[req].out|);
      assert Key(0, req) in t.caches;
    } else if req !in s.broken {
      var e: nat :| Cleared(ring, s, req, e);
      forall i | 0 <= i < e ensures Key(i, req) !in t.caches { assert Key(i, req) !in s.caches; }
      if e < |ring| { OnlySame(s, t, End(req, e)); } else { QuietSame(s, t, req); }
      assert Cleared(ring, t, req, e);
    }
  }

  /** A change made on behalf of one request: others see nothing, and the bookkeeping stays in order. */
  ghost predicate Confined<H(!new), C(!new), M>(k: Kernel<H, C, M>, ring: seq<Spec>, s: State<H, C>, t: State<H, C>,
      req: Request) {
    Shaped(k, ring, t) && Known(t) && forall other :: other != req ==> Same(s, t, other)
  }

  lemma SameThen<H(!new), C(!new), M(!new)>(
    k: Kernel<H, C, M>, ring: seq<Spec>, s: State<H, C>, t: State<H, C>, u: State<H, C>, req: Request)
    requires Confined(k, ring, s, t, req) && Confined(k, ring, t, u, req)
    ensures Confined(k, ring, s, u, req)
  {
    forall other | other != req ensures Same(s, u, other) {
      assert Same(s, t, other) && Same(t, u, other);
      forall i ensures (Key(i, other) in s.caches <==> Key(i, other) in u.caches)
                       && (Key(i, other) in s.caches ==> s.caches[Key(i, other)] == u.caches[Key(i, other)])
      {
        assert Key(i, other) in s.caches <==> Key(i, other) in t.caches;
      }
    }
  }

  /** One cache written and one message sent. */
  lemma WriteConfined<H(!new), C(!new), M(!new)>(
    k: Kernel<H, C, M>, ring: seq<Spec>, s: State<H, C>, x: Key, cache: seq<C>, m: Message<H>)
    requires Shaped(k, ring, s) && Known(s) && x.req in s.told && m.req == x.req
    requires Fits(k, cache) && (!m.Sampled? ==> 1 <= m.to < |ring|)
    ensures Confined(k, ring, s, s.(caches := s.caches[x := cache], net := s.net + multiset{m}), x.req)
  {}

  lemma HeadRunsConfined<H(!new), C(!new), M(!new)>(
    k: Kernel<H, C, M>, ring: seq<Spec>, s: State<H, C>, req: Request, tokens: seq<int>)
    requires RingOk(k, ring) && Shaped(k, ring, s) && Known(s) && req in s.told
    ensures Confined(k, ring, s, HeadRuns(k, ring, s, req, tokens), req)
  {
    var p := Forward(k, 0, ring[0].end, Pass(k.embed(tokens), CacheAt(k, s, 0, req)));
    WriteConfined(k, ring, s, Key(0, req), p.cache, Activation(req, 1, ring[0].end, p.h));
  }

  lemma RemoveConfined<H(!new), C(!new), M(!new)>(k: Kernel<H, C, M>, ring: seq<Spec>, s: State<H, C>, m: Message<H>)
    requires Shaped(k, ring, s) && Known(s) && m in s.net
    ensures Confined(k, ring, s, s.(net := s.net - multiset{m}), m.req)
  {}

  lemma ArriveConfined<H(!new), C(!new), M(!new)>(k: Kernel<H, C, M>, ring: seq<Spec>, s: State<H, C>, m: Message<H>)
    requires RingOk(k, ring) && Shaped(k, ring, s) && Known(s) && m.req in s.told && m.Activation? && m.to < |ring|
    ensures Confined(k, ring, s, Arrive(k, ring, s, m), m.req)
  {
    var spec := ring[m.to];
    if m.next == spec.start {
      var p := Forward(k, spec.start, spec.end, Pass(m.h, CacheAt(k, s, m.to, m.req)));
      var sent := Answer(k, ring, m.to, m.req, p.h);
      WriteConfined(k, ring, s, Key(m.to, m.req), p.cache, sent);
    }
  }

  lemma HandleConfined<H(!new), C(!new), M(!new)>(k: Kernel<H, C, M>, ring: seq<Spec>, s: State<H, C>, m: Message<H>)
    requires RingOk(k, ring) && Shaped(k, ring, s) && Known(s) && m.req in s.told
    requires (!m.Sampled? ==> 1 <= m.to < |ring|)
    ensures Confined(k, ring, s, Handle(k, ring, s, m), m.req)
  {
    match m
    case Activation(_, _, _, _) => ArriveConfined(k, ring, s, m);
    case Sampled(req, token) => EnqueueConfined(k, ring, s, req, token);
    case End(req, to) => ClearConfined(k, ring, s, req, to);
  }

  lemma EnqueueConfined<H(!new), C(!new), M(!new)>(k: Kernel<H, C, M>, ring: seq<Spec>, s: State<H, C>, req: Request,
      token: int)
    requires Shaped(k, ring, s) && Known(s) && req in s.told
    ensures Confined(k, ring, s, Enqueue(s, req, token), req)
  {}

  lemma ClearConfined<H(!new), C(!new), M(!new)>(k: Kernel<H, C, M>, ring: seq<Spec>, s: State<H, C>, req: Request,
      to: nat)
    requires Shaped(k, ring, s) && Known(s) && req in s.told && to < |ring|
    ensures Confined(k, ring, s, Clear(ring, s, req, to), req)
  {
    DropConfined(k, ring, s, Key(to, req));
    var t := s.(caches := s.caches - {Key(to, req)});
    if to + 1 < |ring| {
      SendConfined(k, ring, t, End(req, to + 1));
      SameThen(k, ring, s, t, t.(net := t.net + multiset{End(req, to + 1)}), req);
    }
  }

  lemma DropConfined<H(!new), C(!new), M(!new)>(k: Kernel<H, C, M>, ring: seq<Spec>, s: State<H, C>, x: Key)
    requires Shaped(k, ring, s) && Known(s)
    ensures Confined(k, ring, s, s.(caches := s.caches - {x}), x.req)
  {}

  lemma SendConfined<H(!new), C(!new), M(!new)>(k: Kernel<H, C, M>, ring: seq<Spec>, s: State<H, C>, m: Message<H>)
    requires Shaped(k, ring, s) && Known(s) && m.req in s.told && (!m.Sampled? ==> 1 <= m.to < |ring|)
    ensures Confined(k, ring, s, s.(net := s.net + multiset{m}), m.req)
  {}

  lemma CloseConfined<H(!new), C(!new), M(!new)>(k: Kernel<H, C, M>, ring: seq<Spec>, s: State<H, C>, req: Request,
      relayed: bool)
    requires RingOk(k, ring) && Shaped(k, ring, s) && Known(s) && req in s.told
    ensures Confined(k, ring, s, Close(s, req, relayed), req)
  {
    DropConfined(k, ring, s, Key(0, req));
    var t := s.(caches := s.caches - {Key(0, req)});
    var u := t.(heads := t.heads - {req});
    assert Confined(k, ring, t, u, req);
    SameThen(k, ring, s, t, u, req);
    if relayed {
      SendConfined(k, ring, u, End(req, 1));
      SameThen(k, ring, s, u, u.(net := u.net + multiset{End(req, 1)}), req);
    }
  }

  /** A request as the head first records it. */
  ghost function Opened<H, C>(s: State<H, C>, req: Request, prompt: seq<int>, max: nat): State<H, C> {
    var most := if max == 0 then 1 else max;
    s.(caches := s.caches - {Key(0, req)}, heads := s.heads[req := Head(most, [])],
       told := s.told[req := Told(prompt, most, [], false)])
  }

  lemma BeginConfined<H(!new), C(!new), M(!new)>(
    k: Kernel<H, C, M>, ring: seq<Spec>, s: State<H, C>, req: Request, prompt: seq<int>, max: nat)
    requires RingOk(k, ring) && Shaped(k, ring, s) && Known(s) && req !in s.told
    ensures Confined(k, ring, s, Do(k, ring, s, Begin(req, prompt, max)), req)
  {
    var t := Opened(s, req, prompt, max);
    assert Confined(k, ring, s, t, req);
    HeadRunsConfined(k, ring, t, req, prompt);
    SameThen(k, ring, s, t, HeadRuns(k, ring, t, req, prompt), req);
  }

  lemma DeliverConfined<H(!new), C(!new), M(!new)>(k: Kernel<H, C, M>, ring: seq<Spec>, s: State<H, C>, m: Message<H>)
    requires RingOk(k, ring) && Shaped(k, ring, s) && Known(s) && m in s.net
    ensures Confined(k, ring, s, Do(k, ring, s, Deliver(m)), m.req)
  {
    var t := s.(net := s.net - multiset{m});
    RemoveConfined(k, ring, s, m);
    HandleConfined(k, ring, t, m);
    SameThen(k, ring, s, t, Handle(k, ring, t, m), m.req);
  }

  lemma LoseConfined<H(!new), C(!new), M(!new)>(k: Kernel<H, C, M>, ring: seq<Spec>, s: State<H, C>, m: Message<H>,
      wipe: bool)
    requires RingOk(k, ring) && Shaped(k, ring, s) && Known(s) && m in s.net
    ensures Confined(k, ring, s, Do(k, ring, s, Lose(m, wipe)), m.req)
  {
    var t := s.(net := s.net - multiset{m});
    RemoveConfined(k, ring, s, m);
    var u := t.(broken := t.broken + {m.req});
    assert Confined(k, ring, t, u, m.req);
    SameThen(k, ring, s, t, u, m.req);
    if wipe && m.Activation? {
      DropConfined(k, ring, u, Key(m.to, m.req));
      SameThen(k, ring, s, u, u.(caches := u.caches - {Key(m.to, m.req)}), m.req);
    }
  }

  lemma AbortConfined<H(!new), C(!new), M(!new)>(k: Kernel<H, C, M>, ring: seq<Spec>, s: State<H, C>, req: Request,
      relayed: bool)
    requires RingOk(k, ring) && Shaped(k, ring, s) && Known(s) && req in s.heads
    ensures Confined(k, ring, s, Do(k, ring, s, Abort(req, relayed)), req)
  {
    var t := s.(broken := s.broken + {req});
    assert Confined(k, ring, s, t, req);
    CloseConfined(k, ring, t, req, relayed);
    SameThen(k, ring, s, t, Close(t, req, relayed), req);
  }

  /** An action leaves every other request alone, and the bookkeeping in order. */
  lemma ActionConfined<H(!new), C(!new), M(!new)>(k: Kernel<H, C, M>, ring: seq<Spec>, s: State<H, C>, a: Action<H>)
    requires RingOk(k, ring) && Shaped(k, ring, s) && Known(s) && Can(s, a)
    ensures Confined(k, ring, s, Do(k, ring, s, a), Of(a))
  {
    match a
    case Begin(req, prompt, max) => BeginConfined(k, ring, s, req, prompt, max);
    case Deliver(m) => DeliverConfined(k, ring, s, m);
    case Lose(m, wipe) => LoseConfined(k, ring, s, m, wipe);
    case Take(req) => DecodeConfined(k, ring, s, req);
    case Abort(req, relayed) => AbortConfined(k, ring, s, req, relayed);
  }

  lemma DecodeConfined<H(!new), C(!new), M(!new)>(k: Kernel<H, C, M>, ring: seq<Spec>, s: State<H, C>, req: Request)
    requires RingOk(k, ring) && Shaped(k, ring, s) && Known(s) && Can(s, Take(req))
    ensures Confined(k, ring, s, Decode(k, ring, s, req), req)
  {
    var t := Reported(s, req);
    assert Confined(k, ring, s, t, req);
    if t.told[req].done {
      CloseConfined(k, ring, t, req, true);
    } else {
      HeadRunsConfined(k, ring, t, req, [s.heads[req].queue[0]]);
    }
    SameThen(k, ring, s, t, Decode(k, ring, s, req), req);
  }

  // ------------------------------------------------- the acting request

  lemma SentOnly<H(!new), C>(s: State<H, C>, t: State<H, C>, m: Message<H>)
    requires Quiet(s, m.req) && t.net == s.net + multiset{m}
    ensures Only(t, m)
  {
    assert m !in s.net;
    forall x | x in t.net && x.req == m.req ensures x == m { assert x in s.net || x in multiset{m}; }
  }

  lemma RemovedQuiet<H(!new), C>(s: State<H, C>, t: State<H, C>, m: Message<H>)
    requires Only(s, m) && t.net == s.net - multiset{m}
    ensures Quiet(t, m.req)
  {
    forall x | x in t.net ensures x.req != m.req { assert x in s.net && t.net[m] == 0; }
  }

  /** One more shard has run the pass. */
  lemma SweptNext<H(!new), C(!new), M(!new)>(
    k: Kernel<H, C, M>, ring: seq<Spec>, s: State<H, C>, t: State<H, C>, req: Request, prompt: seq<int>, g: nat,
    j: nat, cache: seq<C>)
    requires RingOk(k, ring) && Shaped(k, ring, s) && Shaped(k, ring, t) && j < |ring| && Fits(k, cache)
    requires t.caches == s.caches[Key(j, req) := cache] && Ready(k, prompt, g + 1, ring[j].start, ring[j].end, cache)
    requires Swept(k, ring, s, req, prompt, g, j)
    ensures Swept(k, ring, t, req, prompt, g, j + 1)
  {
    var next := j + 1;
    forall i | 0 <= i < |ring| ensures SweptAt(k, ring, t, req, prompt, g, next, i) {
      assert SweptAt(k, ring, s, req, prompt, g, j, i);
      assert CacheAt(k, t, i, req) == if i == j then cache else CacheAt(k, s, i, req);
    }
  }

  /** A shard that is next to run the pass runs it as the reference does. */
  lemma ShardRuns<H(!new), C(!new), M(!new)>(
    k: Kernel<H, C, M>, ring: seq<Spec>, s: State<H, C>, req: Request, prompt: seq<int>, g: nat, j: nat, h: H)
    returns (p: Pass<H, C>)
    requires RingOk(k, ring) && Shaped(k, ring, s) && j < |ring| && Swept(k, ring, s, req, prompt, g, j)
    requires h == Midway(k, prompt, g, ring[j].start).h
    ensures p == Forward(k, ring[j].start, ring[j].end, Pass(h, CacheAt(k, s, j, req)))
    ensures p.h == Midway(k, prompt, g, ring[j].end).h && Fits(k, p.cache)
    ensures Ready(k, prompt, g + 1, ring[j].start, ring[j].end, p.cache)
  {
    assert SweptAt(k, ring, s, req, prompt, g, j, j);
    p := Forward(k, ring[j].start, ring[j].end, Pass(h, CacheAt(k, s, j, req)));
    HopMatches(k, prompt, g, ring[j].start, ring[j].end, CacheAt(k, s, j, req));
  }

  lemma SweptAround<H(!new), C(!new), M(!new)>(
    k: Kernel<H, C, M>, ring: seq<Spec>, s: State<H, C>, req: Request, prompt: seq<int>, g: nat)
    requires RingOk(k, ring) && Shaped(k, ring, s) && Swept(k, ring, s, req, prompt, g, |ring|)
    ensures Swept(k, ring, s, req, prompt, g + 1, 0)
  {
    var next := g + 1;
    forall i | 0 <= i < |ring| ensures SweptAt(k, ring, s, req, prompt, next, 0, i) {
      assert SweptAt(k, ring, s, req, prompt, g, |ring|, i);
    }
  }

  /** The head starts pass g: its activation carries the reference's hidden state. */
  lemma HeadStarts<H(!new), C(!new), M(!new)>(
    k: Kernel<H, C, M>, ring: seq<Spec>, s: State<H, C>, req: Request, prompt: seq<int>, g: nat) returns (m: Message<H>)
    requires RingOk(k, ring) && Shaped(k, ring, s) && Known(s) && req in s.told
    requires Quiet(s, req) && Swept(k, ring, s, req, prompt, g, 0)
    ensures var t := HeadRuns(k, ring, s, req, Input(prompt, After(k, prompt, g).out));
            && Shaped(k, ring, t) && m.req == req && m.Activation? && m.to == 1
            && Only(t, m) && Carries(k, ring, t, m, prompt, g)
  {
    var tokens := Input(prompt, After(k, prompt, g).out);
    assert Midway(k, prompt, g, 0).h == k.embed(tokens);
    var p := ShardRuns(k, ring, s, req, prompt, g, 0, k.embed(tokens));
    HeadRunsConfined(k, ring, s, req, tokens);
    m := Answer(k, ring, 0, req, p.h);
    RanAndSent(k, ring, s, HeadRuns(k, ring, s, req, tokens), req, prompt, g, 0, p, m);
  }

  /** The state after a shard ran the pass and sent its answer. */
  lemma RanAndSent<H(!new), C(!new), M(!new)>(
    k: Kernel<H, C, M>, ring: seq<Spec>, s: State<H, C>, t: State<H, C>, req: Request, prompt: seq<int>, g: nat, j: nat,
    p: Pass<H, C>, m: Message<H>)
    requires RingOk(k, ring) && Shaped(k, ring, s) && Shaped(k, ring, t) && j < |ring| && Fits(k, p.cache)
    requires Swept(k, ring, s, req, prompt, g, j) && Quiet(s, req)
    requires p.h == Midway(k, prompt, g, ring[j].end).h
    requires Ready(k, prompt, g + 1, ring[j].start, ring[j].end, p.cache)
    requires m == Answer(k, ring, j, req, p.h)
    requires t.caches == s.caches[Key(j, req) := p.cache] && t.net == s.net + multiset{m}
    ensures Only(t, m) && Carries(k, ring, t, m, prompt, g)
  {
    SweptNext(k, ring, s, t, req, prompt, g, j, p.cache);
    SentOnly(s, t, m);
    AnswerCarries(k, ring, t, req, prompt, g, j, p.h);
  }

  /** After shard j ran the pass: what it sends next carries the reference's state. */
  lemma AnswerCarries<H(!new), C(!new), M(!new)>(
    k: Kernel<H, C, M>, ring: seq<Spec>, t: State<H, C>, req: Request, prompt: seq<int>, g: nat, j: nat, h: H)
    requires RingOk(k, ring) && Shaped(k, ring, t) && j < |ring| && h == Midway(k, prompt, g, ring[j].end).h
    requires Swept(k, ring, t, req, prompt, g, j + 1)
    ensures Carries(k, ring, t, Answer(k, ring, j, req, h), prompt, g)
  {
    if j + 1 == |ring| { AfterIsMidway(k, prompt, g); } else { assert ring[j].end == ring[j + 1].start; }
  }

  /** A shard answers the reference's activation with the reference's next message. */
  lemma ShardAnswers<H(!new), C(!new), M(!new)>(
    k: Kernel<H, C, M>, ring: seq<Spec>, s: State<H, C>, m: Message<H>, prompt: seq<int>, g: nat)
    returns (sent: Message<H>)
    requires RingOk(k, ring) && Shaped(k, ring, s) && Known(s) && m.req in s.told
    requires m.Activation? && Quiet(s, m.req) && Carries(k, ring, s, m, prompt, g)
    ensures var t := Arrive(k, ring, s, m);
            Shaped(k, ring, t) && sent.req == m.req && Only(t, sent) && Carries(k, ring, t, sent, prompt, g)
    ensures if m.to + 1 < |ring| then sent.Activation? && sent.to == m.to + 1 else sent.Sampled?
  {
    var p := ShardRuns(k, ring, s, m.req, prompt, g, m.to, m.h);
    ArriveConfined(k, ring, s, m);
    sent := Answer(k, ring, m.to, m.req, p.h);
    RanAndSent(k, ring, s, Arrive(k, ring, s, m), m.req, prompt, g, m.to, p, sent);
  }

  /** A live request whose head waits for one message. */
  lemma FlowByMessage<H(!new), C(!new), M(!new)>(k: Kernel<H, C, M>, ring: seq<Spec>, t: State<H, C>, m: Message<H>)
    requires RingOk(k, ring) && Shaped(k, ring, t) && m.req in t.told && m.req in t.heads && Key(0, m.req) in t.caches
    requires Truthful(k, t.told[m.req]) && !t.told[m.req].done
    requires t.heads[m.req] == Head(t.told[m.req].max, []) && Only(t, m)
    requires Carries(k, ring, t, m, t.told[m.req].prompt, |t.told[m.req].out|)
    ensures Flow(k, ring, t, m.req)
  {}

  lemma BlankReady<H(!new), C(!new), M(!new)>(k: Kernel<H, C, M>, ring: seq<Spec>, s: State<H, C>, req: Request,
      prompt: seq<int>)
    requires RingOk(k, ring) && Shaped(k, ring, s) && forall i :: Key(i, req) !in s.caches
    ensures Swept(k, ring, s, req, prompt, 0, 0)
  {
    assert After(k, prompt, 0).cache == k.blank;
    forall i | 0 <= i < |ring| ensures SweptAt(k, ring, s, req, prompt, 0, 0, i) { assert Key(i, req) !in s.caches; }
  }

  lemma BeginFlows<H(!new), C(!new), M(!new)>(
    k: Kernel<H, C, M>, ring: seq<Spec>, s: State<H, C>, req: Request, prompt: seq<int>, max: nat)
    requires RingOk(k, ring) && Shaped(k, ring, s) && Known(s) && req !in s.told
    ensures var t := Do(k, ring, s, Begin(req, prompt, max));
            Shaped(k, ring, t) && req in t.told && Flow(k, ring, t, req)
  {
    var u := Opened(s, req, prompt, max);
    assert Shaped(k, ring, u) && Known(u) && Quiet(u, req);
    assert After(k, prompt, 0).out == [];
    BlankReady(k, ring, u, req, prompt);
    var m := HeadStarts(k, ring, u, req, prompt, 0);
    FlowByMessage(k, ring, HeadRuns(k, ring, u, req, prompt), m);
  }

  /** The token in the queue is the reference's next one. */
  lemma NextTokenTrue<H(!new), C(!new), M(!new)>(k: Kernel<H, C, M>, told: Told, token: int)
    requires Lawful(k) && Truthful(k, told) && !told.done
    requires token == After(k, told.prompt, |told.out| + 1).out[|told.out|]
    ensures Truthful(k, told.(out := told.out + [token], done := |told.out| + 1 >= told.max))
    ensures told.out + [token] == After(k, told.prompt, |told.out| + 1).out
  {
    AfterIsMidway(k, told.prompt, |told.out|);
  }

  lemma ReportTidy<H(!new), C(!new), M(!new)>(k: Kernel<H, C, M>, ring: seq<Spec>, s: State<H, C>, req: Request)
    requires Shaped(k, ring, s) && Known(s) && Can(s, Take(req)) && Quiet(s, req) && |s.heads[req].queue| == 1
    ensures var u := Reported(s, req);
            Shaped(k, ring, u) && Known(u) && Quiet(u, req) && u.heads[req].queue == []
  {}

  lemma ReportTruthful<H(!new), C(!new), M(!new)>(k: Kernel<H, C, M>, ring: seq<Spec>, s: State<H, C>, req: Request)
    requires RingOk(k, ring) && Shaped(k, ring, s) && Known(s) && Can(s, Take(req)) && Flow(k, ring, s, req)
    ensures var u := Reported(s, req);
            Shaped(k, ring, u) && Known(u) && Quiet(u, req) && Truthful(k, u.told[req]) && u.heads[req].queue == []
    ensures Swept(k, ring, Reported(s, req), req, s.told[req].prompt, |s.told[req].out| + 1, 0)
    ensures Reported(s, req).told[req].out == After(k, s.told[req].prompt, |s.told[req].out| + 1).out
  {
    var told, u := s.told[req], Reported(s, req);
    ReportTidy(k, ring, s, req);
    NextTokenTrue(k, told, s.heads[req].queue[0]);
    SweptSame(k, ring, s, u, req, told.prompt, |told.out|, |ring|);
    SweptAround(k, ring, u, req, told.prompt, |told.out|);
  }

  lemma CloseFlows<H(!new), C(!new), M(!new)>(k: Kernel<H, C, M>, ring: seq<Spec>, u: State<H, C>, req: Request)
    requires RingOk(k, ring) && Shaped(k, ring, u) && Known(u) && req in u.told && Quiet(u, req)
    requires Truthful(k, u.told[req]) && u.told[req].done
    ensures Shaped(k, ring, Close(u, req, true)) && Flow(k, ring, Close(u, req, true), req)
  {
    var t := Close(u, req, true);
    CloseConfined(k, ring, u, req, true);
    SentOnly(u, t, End(req, 1));
    assert Cleared(ring, t, req, 1);
  }

  lemma TakeFlows<H(!new), C(!new), M(!new)>(k: Kernel<H, C, M>, ring: seq<Spec>, s: State<H, C>, req: Request)
    requires RingOk(k, ring) && Shaped(k, ring, s) && Known(s) && Can(s, Take(req)) && Flow(k, ring, s, req)
    ensures var t := Do(k, ring, s, Take(req)); Shaped(k, ring, t) && req in t.told && Flow(k, ring, t, req)
  {
    var u := Reported(s, req);
    ReportTruthful(k, ring, s, req);
    if u.told[req].done {
      CloseFlows(k, ring, u, req);
    } else {
      var prompt, g := s.told[req].prompt, |s.told[req].out| + 1;
      var m := HeadStarts(k, ring, u, req, prompt, g);
      FlowByMessage(k, ring, HeadRuns(k, ring, u, req, Input(prompt, After(k, prompt, g).out)), m);
    }
  }

  /** A message about a live request is the one its head waits for. */
  lemma LiveMessage<H(!new), C(!new), M(!new)>(k: Kernel<H, C, M>, ring: seq<Spec>, s: State<H, C>, m: Message<H>)
    requires RingOk(k, ring) && Shaped(k, ring, s) && m.req in s.told && Flow(k, ring, s, m.req) && m in s.net
    requires m.req in s.heads
    ensures s.heads[m.req] == Head(s.told[m.req].max, []) && Only(s, m)
    ensures Carries(k, ring, s, m, s.told[m.req].prompt, |s.told[m.req].out|)
  {}

  /** A live request whose awaited message has just been taken off the wire. */
  ghost predicate Poised<H(!new), C(!new), M(!new)>(k: Kernel<H, C, M>, ring: seq<Spec>, s: State<H, C>, m: Message<H>)
    requires RingOk(k, ring)
  {
    && Shaped(k, ring, s) && Known(s) && m.req in s.told && m.req in s.heads && Key(0, m.req) in s.caches
    && Truthful(k, s.told[m.req]) && !s.told[m.req].done && s.heads[m.req] == Head(s.told[m.req].max, [])
    && Quiet(s, m.req) && Carries(k, ring, s, m, s.told[m.req].prompt, |s.told[m.req].out|)
  }

  lemma SampleFlows<H(!new), C(!new), M(!new)>(k: Kernel<H, C, M>, ring: seq<Spec>, s: State<H, C>, m: Message<H>)
    requires RingOk(k, ring) && Poised(k, ring, s, m) && m.Sampled?
    ensures Shaped(k, ring, Enqueue(s, m.req, m.token)) && Flow(k, ring, Enqueue(s, m.req, m.token), m.req)
  {
    SweptSame(k, ring, s, Enqueue(s, m.req, m.token), m.req, s.told[m.req].prompt, |s.told[m.req].out|, |ring|);
  }

  lemma ArriveFlows<H(!new), C(!new), M(!new)>(k: Kernel<H, C, M>, ring: seq<Spec>, s: State<H, C>, m: Message<H>)
    requires RingOk(k, ring) && Poised(k, ring, s, m) && m.Activation?
    ensures Shaped(k, ring, Arrive(k, ring, s, m)) && Flow(k, ring, Arrive(k, ring, s, m), m.req)
  {
    var sent := ShardAnswers(k, ring, s, m, s.told[m.req].prompt, |s.told[m.req].out|);
    FlowByMessage(k, ring, Arrive(k, ring, s, m), sent);
  }

  /** Taking a message off the wire does not change what it carries. */
  lemma CarriesStill<H(!new), C(!new), M(!new)>(
    k: Kernel<H, C, M>, ring: seq<Spec>, s: State<H, C>, u: State<H, C>, m: Message<H>, prompt: seq<int>, g: nat)
    requires RingOk(k, ring) && Shaped(k, ring, s) && Shaped(k, ring, u) && u.caches == s.caches
    requires Carries(k, ring, s, m, prompt, g)
    ensures Carries(k, ring, u, m, prompt, g)
  {
    SweptSame(k, ring, s, u, m.req, prompt, g, if m.Activation? then m.to else |ring|);
  }

  lemma LivePoised<H(!new), C(!new), M(!new)>(k: Kernel<H, C, M>, ring: seq<Spec>, s: State<H, C>, m: Message<H>)
    requires RingOk(k, ring) && Shaped(k, ring, s) && Known(s) && m.req in s.told && Flow(k, ring, s, m.req)
    requires m in s.net && m.req in s.heads
    ensures Poised(k, ring, s.(net := s.net - multiset{m}), m)
  {
    LiveMessage(k, ring, s, m);
    var u := s.(net := s.net - multiset{m});
    RemoveConfined(k, ring, s, m);
    RemovedQuiet(s, u, m);
    CarriesStill(k, ring, s, u, m, s.told[m.req].prompt, |s.told[m.req].out|);
  }

  lemma HandleFlows<H(!new), C(!new), M(!new)>(k: Kernel<H, C, M>, ring: seq<Spec>, u: State<H, C>, m: Message<H>)
    requires RingOk(k, ring) && Poised(k, ring, u, m)
    ensures (!m.Sampled? ==> m.to < |ring|)
    ensures var t := Handle(k, ring, u, m); Shaped(k, ring, t) && m.req in t.told && Flow(k, ring, t, m.req)
  {
    if m.Activation? { ArriveFlows(k, ring, u, m); } else { SampleFlows(k, ring, u, m); }
  }

  lemma DeliverLive<H(!new), C(!new), M(!new)>(k: Kernel<H, C, M>, ring: seq<Spec>, s: State<H, C>, m: Message<H>)
    requires RingOk(k, ring) && Shaped(k, ring, s) && Known(s) && m.req in s.told && Flow(k, ring, s, m.req)
    requires m in s.net && m.req in s.heads
    ensures var t := Do(k, ring, s, Deliver(m)); Shaped(k, ring, t) && m.req in t.told && Flow(k, ring, t, m.req)
  {
    LivePoised(k, ring, s, m);
    HandleFlows(k, ring, s.(net := s.net - multiset{m}), m);
  }

  /** The End relay moves one shard down, and stops at the tail. */
  lemma ClearMoves<H(!new), C>(ring: seq<Spec>, s: State<H, C>, u: State<H, C>, req: Request, e: nat)
    requires e < |ring| && Cleared(ring, s, req, e) && u.caches == s.caches && u.net == s.net - multiset{End(req, e)}
    ensures Cleared(ring, Clear(ring, u, req, e), req, e + 1)
  {
    RemovedQuiet(s, u, End(req, e));
    if e + 1 < |ring| { SentOnly(u, Clear(ring, u, req, e), End(req, e + 1)); }
  }

  lemma EndMoves<H(!new), C(!new), M(!new)>(k: Kernel<H, C, M>, ring: seq<Spec>, s: State<H, C>, req: Request, e: nat)
    requires RingOk(k, ring) && Shaped(k, ring, s) && e < |ring| && Cleared(ring, s, req, e)
    ensures Cleared(ring, Do(k, ring, s, Deliver(End(req, e))), req, e + 1)
  {
    ClearMoves(ring, s, s.(net := s.net - multiset{End(req, e)}), req, e);
  }

  lemma DeliverClosed<H(!new), C(!new), M(!new)>(k: Kernel<H, C, M>, ring: seq<Spec>, s: State<H, C>, m: Message<H>)
    requires RingOk(k, ring) && Shaped(k, ring, s) && Known(s) && m.req in s.told && Flow(k, ring, s, m.req)
    requires m in s.net && m.req !in s.heads
    ensures var t := Do(k, ring, s, Deliver(m)); Shaped(k, ring, t) && m.req in t.told && Flow(k, ring, t, m.req)
  {
    var t := Do(k, ring, s, Deliver(m));
    DeliverConfined(k, ring, s, m);
    DeliverKeepsTold(k, ring, s, m);
    if m.req !in s.broken {
      var e: nat :| Cleared(ring, s, m.req, e);
      assert m == End(m.req, e);
      EndMoves(k, ring, s, m.req, e);
    }
  }

  lemma DeliverKeepsTold<H(!new), C(!new), M(!new)>(k: Kernel<H, C, M>, ring: seq<Spec>, s: State<H, C>, m: Message<H>)
    requires RingOk(k, ring) && Shaped(k, ring, s) && m in s.net
    ensures var t := Do(k, ring, s, Deliver(m));
            t.told == s.told && t.broken == s.broken && (m.req in t.heads <==> m.req in s.heads)
  {}

  lemma LoseFlows<H(!new), C(!new), M(!new)>(k: Kernel<H, C, M>, ring: seq<Spec>, s: State<H, C>, m: Message<H>,
      wipe: bool)
    requires RingOk(k, ring) && Shaped(k, ring, s) && Known(s) && m.req in s.told && Flow(k, ring, s, m.req)
    requires m in s.net
    ensures var t := Do(k, ring, s, Lose(m, wipe)); Shaped(k, ring, t) && m.req in t.told && Flow(k, ring, t, m.req)
  {
    LoseConfined(k, ring, s, m, wipe);
    if m.req in s.heads {
      LiveMessage(k, ring, s, m);
      RemovedQuiet(s, Do(k, ring, s, Lose(m, wipe)), m);
    }
  }

  /** Every action keeps the invariant. */
  lemma StepKeeps<H(!new), C(!new), M(!new)>(k: Kernel<H, C, M>, ring: seq<Spec>, s: State<H, C>, a: Action<H>)
    requires Good(k, ring, s) && Can(s, a)
    ensures Good(k, ring, Do(k, ring, s, a))
  {
    var t := Do(k, ring, s, a);
    ActionConfined(k, ring, s, a);
    forall req | req in t.told ensures Flow(k, ring, t, req) {
      if req != Of(a) {
        FlowSame(k, ring, s, t, req);
      } else {
        OwnFlow(k, ring, s, a);
      }
    }
  }

  lemma OwnFlow<H(!new), C(!new), M(!new)>(k: Kernel<H, C, M>, ring: seq<Spec>, s: State<H, C>, a: Action<H>)
    requires Good(k, ring, s) && Can(s, a)
    ensures var t := Do(k, ring, s, a); Shaped(k, ring, t) && Of(a) in t.told && Flow(k, ring, t, Of(a))
  {
    assert Of(a) in s.told ==> Flow(k, ring, s, Of(a));
    match a
    case Begin(req, prompt, max) => BeginFlows(k, ring, s, req, prompt, max);
    case Deliver(m) => if m.req in s.heads { DeliverLive(k, ring, s, m); } else { DeliverClosed(k, ring, s, m); }
    case Lose(m, wipe) => LoseFlows(k, ring, s, m, wipe);
    case Take(req) => TakeFlows(k, ring, s, req);
    case Abort(req, relayed) => AbortConfined(k, ring, s, req, relayed);
  }
}
