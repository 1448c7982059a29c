/**
 The ring of shards that serves many requests at once (node.py): the head
 embeds and drives decoding, activations travel shard to shard, the tail
 samples, and every node keeps one cache per request. Messages wait in a bag
 and arrive in any order; a connection may break or a node may give up.
 */
module Ring {
  import opened Common
  import opened Pipeline

  type Request = string

  datatype Spec = Spec(id: ShardId, start: nat, end: nat)

  /** Two or more shards that tile the layers in order. */
  ghost predicate Tiling(ring: seq<Spec>, total: nat) {
    && |ring| >= 2 && ring[0].start == 0 && ring[|ring| - 1].end == total
    && (forall i :: 0 <= i < |ring| ==> ring[i].start < ring[i].end)
    && (forall i, j :: 0 <= i && j == i + 1 && j < |ring| ==> ring[i].end == ring[j].start)
    && forall i, j :: 0 <= i < j < |ring| ==> ring[i].id != ring[j].id
  }

  lemma {:induction false} Ascending(ring: seq<Spec>, total: nat, i: nat, j: nat)
    requires Tiling(ring, total) && i < j < |ring|
    ensures ring[i].end <= ring[j].start && ring[i].end <= total && ring[j].end <= total
    decreases |ring| - i
  {
    if j < |ring| - 1 { Ascending(ring, total, j, |ring| - 1); }
    if i + 1 < j { Ascending(ring, total, i + 1, j); }
  }

  // ------------------------------------------------------------ downstream

  function TargetStart(shard: Spec, total: nat): nat { if shard.end == total then 0 else shard.end }

  predicate Downstream(shard: Spec, total: nat,
      peer: Spec) { peer.start == TargetStart(shard, total) && peer.id != shard.id }

  method ResolveDownstream(shard: Spec, listing: seq<Spec>, total: nat) returns (peer: Option<Spec>)
    ensures peer.Some? ==> peer.value in listing && Downstream(shard, total, peer.value)
    ensures peer.None? <==> forall p :: p in listing ==> !Downstream(shard, total, p)
  {
    for i := 0 to |listing|
      invariant forall j :: 0 <= j < i ==> !Downstream(shard, total, listing[j])
    {
      if Downstream(shard, total, listing[i]) { return Some(listing[i]); }
    }
    peer := None;
  }

  /** In a tiling the only downstream peer is the next shard, and the tail's is the head. */
  lemma DownstreamIsNext(ring: seq<Spec>, total: nat, i: nat, j: nat)
    requires Tiling(ring, total) && i < |ring| && j < |ring|
    ensures Downstream(ring[i], total, ring[j]) <==> j == (if i + 1 == |ring| then 0 else i + 1)
  {
    if i + 1 < |ring| {
      Ascending(ring, total, i, i + 1);
      assert ring[i].end == ring[i + 1].start;
      if j > i + 1 { Ascending(ring, total, i + 1, j); }
      if j < i { Ascending(ring, total, j, i); }
    } else if j > 0 {
      Ascending(ring, total, 0, j);
    }
  }

  // ----------------------------------------------------------------- state

  datatype Key = Key(shard: nat, req: Request)

  datatype Message<H> =
    | Activation(req: Request, to: nat, next: nat, h: H)
    | Sampled(req: Request, token: int)
    | End(req: Request, to: nat)

  datatype Head = Head(max: nat, queue: seq<int>)

  /** What the client asked for and has been told. */
  datatype Told = Told(prompt: seq<int>, max: nat, out: seq<int>, done: bool)

  datatype State<H(==), C> = State(
    caches: map<Key, seq<C>>, heads: map<Request, Head>, told: map<Request, Told>,
    net: multiset<Message<H>>, broken: set<Request>)

  datatype Action<H> =
    | Begin(req: Request, prompt: seq<int>, max: nat)
    | Deliver(m: Message<H>)
    | Lose(m: Message<H>, wipe: bool)
    | Take(req: Request)
    | Abort(req: Request, relayed: bool)

  ghost predicate RingOk<H(!new), C(!new), M(!new)>(k: Kernel<H, C, M>, ring: seq<Spec>) {
    && Lawful(k) && Tiling(ring, k.total)
    && forall i :: 0 <= i < |ring| ==> ring[i].end <= k.total && OwnSlots(k, ring[i].start, ring[i].end)
  }

  ghost predicate Shaped<H(!new), C(!new), M>(k: Kernel<H, C, M>, ring: seq<Spec>, s: State<H, C>) {
    && (forall x :: x in s.caches ==> Fits(k, s.caches[x]))
    && forall m :: m in s.net && !m.Sampled? ==> 1 <= m.to < |ring|
  }

  function CacheAt<H, C, M>(k: Kernel<H, C, M>, s: State<H, C>, i: nat, req: Request): seq<C> {
    if Key(i, req) in s.caches then s.caches[Key(i, req)] else k.blank
  }

  ghost predicate Can<H, C>(s: State<H, C>, a: Action<H>) {
    match a
    case Begin(req, _, _) => req !in s.told
    case Deliver(m) => m in s.net
    case Lose(m, _) => m in s.net
    case Take(req) => req in s.heads && req in s.told && s.heads[req].queue != []
    case Abort(req, _) => req in s.heads
  }

  function Of<H>(a: Action<H>): Request {
    match a
    case Begin(req, _, _) => req
    case Deliver(m) => m.req
    case Lose(m, _) => m.req
    case Take(req) => req
    case Abort(req, _) => req
  }

  /** The head runs its own layers on some tokens and forwards the activation. */
  ghost function HeadRuns<H(!new), C(!new), M(!new)>(
    k: Kernel<H, C, M>, ring: seq<Spec>, s: State<H, C>, req: Request, tokens: seq<int>): State<H, C>
    requires RingOk(k, ring) && Shaped(k, ring, s)
  {
    var p := Forward(k, 0, ring[0].end, Pass(k.embed(tokens), CacheAt(k, s, 0, req)));
    s.(caches := s.caches[Key(0, req) := p.cache], net := s.net + multiset{Activation(req, 1, ring[0].end, p.h)})
  }

  /** The tail samples a token, any other shard forwards. */
  function Answer<H, C, M>(k: Kernel<H, C, M>, ring: seq<Spec>, i: nat, req: Request, h: H): Message<H>
    requires i < |ring|
  {
    if i + 1 == |ring| then Sampled(req, k.pick(h)) else Activation(req, i + 1, ring[i].end, h)
  }

  /** A shard handles an activation that was sent to it. */
  ghost function Arrive<H(!new), C(!new), M(!new)>(
    k: Kernel<H, C, M>, ring: seq<Spec>, s: State<H, C>, m: Message<H>): State<H, C>
    requires RingOk(k, ring) && Shaped(k, ring, s) && m.Activation? && m.to < |ring|
  {
    var spec := ring[m.to];
    if m.next != spec.start then s
    else
      var p := Forward(k, spec.start, spec.end, Pass(m.h, CacheAt(k, s, m.to, m.req)));
      s.(caches := s.caches[Key(m.to, m.req) := p.cache], net := s.net + multiset{Answer(k, ring, m.to, m.req, p.h)})
  }

  ghost function Handle<H(!new), C(!new), M(!new)>(
    k: Kernel<H, C, M>, ring: seq<Spec>, s: State<H, C>, m: Message<H>): State<H, C>
    requires RingOk(k, ring) && Shaped(k, ring, s) && (!m.Sampled? ==> m.to < |ring|)
  {
    match m
    case Activation(_, _, _, _) => Arrive(k, ring, s, m)
    case Sampled(req, token) => Enqueue(s, req, token)
    case End(req, to) => Clear(ring, s, req, to)
  }

  /** Tokens for a request the head no longer knows are dropped. */
  ghost function Enqueue<H, C>(s: State<H, C>, req: Request, token: int): State<H, C> {
    if req in s.heads then s.(heads := s.heads[req := s.heads[req].(queue := s.heads[req].queue + [token])]) else s
  }

  /** A shard drops its cache and passes End on, unless it is the tail. */
  ghost function Clear<H, C>(ring: seq<Spec>, s: State<H, C>, req: Request, to: nat): State<H, C> {
    s.(caches := s.caches - {Key(to, req)},
       net := if to + 1 == |ring| then s.net else s.net + multiset{End(req, to + 1)})
  }

  /** The state between telling the client a token and what follows. */
  ghost function Reported<H, C>(s: State<H, C>, req: Request): State<H, C>
    requires Can(s, Take(req))
  {
    var head, told := s.heads[req], s.told[req];
    s.(told := s.told[req := told.(out := told.out + [head.queue[0]], done := |told.out| + 1 >= head.max)],
       heads := s.heads[req := head.(queue := head.queue[1..])])
  }

  /** The decode loop takes one token: tell the client, then finish or start the next pass. */
  ghost function Decode<H(!new), C(!new), M(!new)>(k: Kernel<H, C, M>, ring: seq<Spec>, s: State<H, C>,
      req: Request): State<H, C>
    requires RingOk(k, ring) && Shaped(k, ring, s) && Can(s, Take(req))
  {
    var t := Reported(s, req);
    if t.told[req].done then Close(t, req, true) else HeadRuns(k, ring, t, req, [s.heads[req].queue[0]])
  }

  /** The head drops a request, and usually tells the next shard. */
  ghost function Close<H, C>(s: State<H, C>, req: Request, relayed: bool): State<H, C> {
    s.(caches := s.caches - {Key(0, req)}, heads := s.heads - {req},
       net := if relayed then s.net + multiset{End(req, 1)} else s.net)
  }

  ghost function Do<H(!new), C(!new), M(!new)>(k: Kernel<H, C, M>, ring: seq<Spec>, s: State<H, C>,
      a: Action<H>): State<H, C>
    requires RingOk(k, ring) && Shaped(k, ring, s) && Can(s, a)
  {
    match a
    case Begin(req, prompt, max) =>
      var most := if max == 0 then 1 else max;
      HeadRuns(k, ring, s.(caches := s.caches - {Key(0, req)},
                           heads := s.heads[req := Head(most, [])],
                           told := s.told[req := Told(prompt, most, [], false)]), req, prompt)
    case Deliver(m) => Handle(k, ring, s.(net := s.net - multiset{m}), m)
    case Lose(m, wipe) =>
      s.(net := s.net - multiset{m}, broken := s.broken + {m.req},
         caches := if wipe && m.Activation? then s.caches - {Key(m.to, m.req)} else s.caches)
    case Take(req) => Decode(k, ring, s, req)
    case Abort(req, relayed) => Close(s.(broken := s.broken + {req}), req, relayed)
  }
}
