/**
 The objects behind the ring (node.py): a shard's activation and End handlers,
 and the head's request handler with its decode loop. What other threads and
 sockets do at each point of the loop is an arbitrary script.
 */
module NodeState {
  import opened Common
  import opened Pipeline
  import opened Ring

  /** How running a node's layers ends: well, with a failed expert call, which the handlers know, or with anything else,
      such as an expert without an owner or one not held here, which no handler catches. */
  datatype LayerRun = Fine | ExpertFails | Raises

  class ShardNode<H(!new), C(!new), M(!new)> {
    const k: Kernel<H, C, M>
    const ring: seq<Spec>
    const index: nat
    var caches: map<Request, seq<C>>

    ghost predicate Valid()
      reads this
    {
      && Fits(k, k.blank) && index < |ring| && ring[index].start <= ring[index].end <= k.total
      && forall r :: r in caches ==> Fits(k, caches[r])
    }

    constructor (k: Kernel<H, C, M>, ring: seq<Spec>, index: nat)
      requires RingOk(k, ring) && index < |ring|
      ensures Valid() && this.k == k && this.ring == ring && this.index == index && caches == map[]
    {
      this.k, this.ring, this.index := k, ring, index;
      caches := map[];
    }

    /** The cache a request finds here: its own, or a new one on first contact. */
    function Known(req: Request): seq<C>
      reads this
    {
      if req in caches then caches[req] else k.blank
    }

    /** A failed expert call drops the cache; anything else a layer raises escapes and leaves the cache behind. */
    method HandleActivation(req: Request, next: nat, h: H, layers: LayerRun) returns (sent: Option<Message<H>>)
      requires Valid()
      modifies this`caches
      ensures Valid()
      ensures next != ring[index].start ==> sent == None && caches == old(caches)
      ensures next == ring[index].start && layers == ExpertFails ==> sent == None && caches == old(caches) - {req}
      ensures next == ring[index].start && layers == Raises ==>
                sent == None && req in caches && caches - {req} == old(caches) - {req}
      ensures next == ring[index].start && layers == Fine ==>
                var p := Forward(k, ring[index].start, ring[index].end, Pass(h, old(Known(req))));
                sent == Some(Answer(k, ring, index, req, p.h)) && caches == old(caches)[req := p.cache]
    {
      var spec := ring[index];
      if next != spec.start { return None; }
      if req !in caches { caches := caches[req := k.blank]; }
      if layers == ExpertFails {
        caches := caches - {req};
        return None;
      }
      if layers == Raises { return None; }
      var mine := caches[req];
      var cache := new C[|mine|](i requires 0 <= i < |mine| => mine[i]);
      assert cache[..] == old(Known(req));
      var out := RunLayers(k, h, spec.start, spec.end, cache, k.mask(k.width(h), cache[..]));
      caches := caches[req := cache[..]];
      sent := Some(if index + 1 == |ring| then Sampled(req, k.pick(out))
                   else Activation(req, index + 1, spec.end, out));
    }

    method HandleEnd(req: Request, writeFails: bool) returns (sent: Option<Message<H>>)
      requires Valid()
      modifies this`caches
      ensures Valid() && caches == old(caches) - {req}
      ensures sent == if index + 1 == |ring| || writeFails then None else Some(End(req, index + 1))
    {
      caches := caches - {req};
      sent := None;
      if index + 1 != |ring| && !writeFails { sent := Some(End(req, index + 1)); }
    }
  }

  /** A node's table is its row of the ring's caches. */
  ghost predicate IsRow<H, C(!new)>(s: State<H, C>, i: nat, caches: map<Request, seq<C>>) {
    forall r :: (Key(i, r) in s.caches <==> r in caches) && (r in caches ==> s.caches[Key(i, r)] == caches[r])
  }

  /** What the node does with an activation is what the ring's step does to its row, and no other row changes. */
  lemma ArriveIsLocal<H(!new), C(!new), M(!new)>(
    k: Kernel<H, C, M>, ring: seq<Spec>, s: State<H, C>, m: Message<H>, i: nat, caches: map<Request, seq<C>>)
    requires RingOk(k, ring) && Shaped(k, ring, s) && m.Activation? && m.to < |ring| && IsRow(s, i, caches)
    ensures var spec, t := ring[m.to], Arrive(k, ring, s, m);
            var p := Forward(k, spec.start, spec.end, Pass(m.h, CacheAt(k, s, m.to, m.req)));
            && CacheAt(k, s, i, m.req) == (if m.req in caches then caches[m.req] else k.blank)
            && IsRow(t, i, if m.next == spec.start && i == m.to then caches[m.req := p.cache] else caches)
            && t.net == if m.next == spec.start then s.net + multiset{Answer(k, ring, m.to, m.req, p.h)} else s.net
  {
    assert Key(i, m.req) in s.caches <==> m.req in caches;
  }

  lemma ClearIsLocal<H(!new), C(!new)>(
    ring: seq<Spec>, s: State<H, C>, req: Request, to: nat, i: nat, caches: map<Request, seq<C>>)
    requires to < |ring| && IsRow(s, i, caches)
    ensures IsRow(Clear(ring, s, req, to), i, if i == to then caches - {req} else caches)
  {
    var after := if i == to then caches - {req} else caches;
    forall r ensures (Key(i, r) in Clear(ring, s, req, to).caches <==> r in after)
                     && (r in after ==> s.caches[Key(i, r)] == after[r])
    {
      assert Key(i, r) in s.caches <==> r in caches;
    }
  }

  // ------------------------------------------------------------------ head

  const Poison: int := -1

  /** One turn of the decode loop as the world shapes it: the item the queue yields, and what fails after it. */
  datatype Round = Round(item: int, clientDown: bool, evicted: bool, layers: LayerRun, forwardDown: bool)

  datatype Code = WrongShard | Unavailable

  /** What the client is sent. */
  datatype Said = Token(token: int, position: int, final: bool) | Error(code: Code)

  /** What goes downstream. */
  datatype Sent<H> = Forwarded(req: Request, h: H) | Ended(req: Request)

  datatype Exit =
    | Finished | Broken | ExpertFailed | PeerLeft | CacheGone | Escaped
    | Refused | PrefillFailed | PrefillEscaped | PrefillLost

  /** The ways out that leave the request in the head's tables. */
  predicate LeavesEntry(e: Exit) { e == Escaped || e == PrefillEscaped || e == PrefillLost }

  predicate Aborted(e: Exit) { e == Broken || e == ExpertFailed || e == PeerLeft }

  /** How a run of the loop ends: tokens the client was told, activations forwarded, and the way out. */
  datatype Ending = Ending(told: nat, sent: nat, exit: Exit)

  function Run(script: nat -> Round, i: nat, max: nat): (e: Ending)
    requires i < max
    ensures i <= e.sent <= e.told <= e.sent + 1 && e.told <= max
    ensures e.exit == Finished <==> e.told == max
    ensures e.exit == Finished ==> e.sent == max - 1
    ensures e.exit in {Finished, Broken, ExpertFailed, PeerLeft, CacheGone, Escaped}
    decreases max - i
  {
    var r := script(i);
    if r.item == Poison then Ending(i, i, PeerLeft)
    else if r.clientDown then Ending(i, i, Broken)
    else if i + 1 == max then Ending(i + 1, i, Finished)
    else if r.evicted then Ending(i + 1, i, CacheGone)
    else if r.layers == ExpertFails then Ending(i + 1, i, ExpertFailed)
    else if r.layers == Raises then Ending(i + 1, i, Escaped)
    else if r.forwardDown then Ending(i + 1, i, Broken)
    else Run(script, i + 1, max)
  }

  /** Nothing goes wrong in a turn; in the last one only the token itself matters. */
  predicate Smooth(r: Round, last: bool) {
    r.item != Poison && !r.clientDown && (last || (!r.evicted && r.layers == Fine && !r.forwardDown))
  }

  /** The loop finishes exactly when every turn is smooth. */
  lemma {:induction false} FinishedIffSmooth(script: nat -> Round, i: nat, max: nat)
    requires i < max
    ensures Run(script, i, max).exit == Finished <==> forall j: nat :: i <= j < max ==> Smooth(script(j), j + 1 == max)
    decreases max - i
  {
    if i + 1 < max && Smooth(script(i), false) {
      FinishedIffSmooth(script, i + 1, max);
    } else {
      assert Run(script, i, max).exit == Finished <==> Smooth(script(i), i + 1 == max);
    }
  }

  /** The loop gets as far as turn j, and there a layer raises something no handler catches. */
  predicate EscapesAt(script: nat -> Round, i: nat, j: nat, max: nat) {
    && i <= j && j + 1 < max && (forall l: nat :: i <= l < j ==> Smooth(script(l), false))
    && script(j).item != Poison && !script(j).clientDown && !script(j).evicted && script(j).layers == Raises
  }

  /** The loop dies of an uncaught exception exactly when some turn it reaches raises one. */
  lemma {:induction false} EscapedIffRaises(script: nat -> Round, i: nat, max: nat)
    requires i < max
    ensures Run(script, i, max).exit == Escaped <==> exists j: nat :: EscapesAt(script, i, j, max)
    decreases max - i
  {
    var r := script(i);
    if i + 1 < max && Smooth(r, false) {
      EscapedIffRaises(script, i + 1, max);
      if Run(script, i, max).exit == Escaped {
        var j: nat :| EscapesAt(script, i + 1, j, max);
        assert EscapesAt(script, i, j, max);
      }
      forall j: nat | EscapesAt(script, i, j, max) ensures EscapesAt(script, i + 1, j, max) {
        assert j != i;
      }
    } else {
      forall j: nat | EscapesAt(script, i, j, max) ensures j == i {
        assert i < j ==> Smooth(script(i), false);
      }
      if Run(script, i, max).exit == Escaped { assert EscapesAt(script, i, i, max); }
    }
  }

  /** Tokens numbered from 0, the last of max marked final. */
  function Tokens(script: nat -> Round, n: nat, max: nat): seq<Said> {
    seq(n, i requires i >= 0 => Token(script(i).item, i, i + 1 == max))
  }

  /** What the head's layers make of some tokens and a cache. */
  ghost function HeadPass<H, C, M>(k: Kernel<H, C, M>, end: nat): (seq<int>, seq<C>) -> Pass<H, C> {
    (tokens: seq<int>, cache: seq<C>) =>
      if Fits(k, cache) && end <= k.total then Forward(k, 0, end, Pass(k.embed(tokens), cache))
      else Pass(k.embed(tokens), cache)
  }

  /** The head's own cache after n tokens were fed back. */
  ghost function Fed<H, C>(pass: (seq<int>, seq<C>) -> Pass<H, C>, script: nat -> Round, n: nat,
      cache: seq<C>): seq<C> {
    if n == 0 then cache else pass([script(n - 1).item], Fed(pass, script, n - 1, cache)).cache
  }

  /** The activations for the first n tokens. */
  ghost function Activations<H, C>(
    pass: (seq<int>, seq<C>) -> Pass<H, C>, req: Request, script: nat -> Round, n: nat,
    cache: seq<C>): (s: seq<Sent<H>>)
    ensures |s| == n
  {
    if n == 0 then []
    else
      Activations(pass, req, script, n - 1, cache)
        + [Forwarded(req, pass([script(n - 1).item], Fed(pass, script, n - 1, cache)).h)]
  }

  /** A moment at which the loop blocks on its queue. */
  datatype Wait = Wait(taken: nat, forwarded: int)

  lemma DropUpdated<A, B>(m: map<A, B>, a: A, b: B)
    ensures m[a := b] - {a} == m - {a}
  {}

  datatype Snapshot<H, C> = Snapshot(caches: map<Request, seq<C>>, heads: set<Request>, client: seq<Said>,
      wire: seq<Sent<H>>)

  class HeadNode<H(!new), C(!new), M(!new)> {
    const k: Kernel<H, C, M>
    const end: nat
    var caches: map<Request, seq<C>>
    var heads: set<Request>
    var client: seq<Said>
    var wire: seq<Sent<H>>

    constructor (k: Kernel<H, C, M>, end: nat)
      requires Fits(k, k.blank) && end <= k.total
      ensures this.k == k && this.end == end && caches == map[] && heads == {} && client == [] && wire == []
    {
      this.k, this.end := k, end;
      caches, heads, client, wire := map[], {}, [], [];
    }

    /** The three failure handlers: tell the client, forget the request, tell the ring. */
    method GiveUp(req: Request, errorLost: bool, endLost: bool)
      modifies this
      ensures caches == old(caches) - {req} && heads == old(heads) - {req}
      ensures client == old(client) + if errorLost then [] else [Error(Unavailable)]
      ensures wire == old(wire) + if endLost then [] else [Ended(req)]
    {
      if !errorLost { client := client + [Error(Unavailable)]; }
      caches := caches - {req};
      heads := heads - {req};
      if !endLost { wire := wire + [Ended(req)]; }
    }

    /** Embed one token, run the head's layers in place, leave the new cache behind. */
    method Advance(req: Request, tokens: seq<int>) returns (h: H)
      requires req in caches && Fits(k, caches[req]) && end <= k.total
      modifies this`caches
      ensures var p := Forward(k, 0, end, Pass(k.embed(tokens), old(caches[req])));
              h == p.h && caches == old(caches)[req := p.cache]
    {
      var mine := caches[req];
      var cache := new C[|mine|](i requires 0 <= i < |mine| => mine[i]);
      assert cache[..] == mine;
      h := k.embed(tokens);
      h := RunLayers(k, h, 0, end, cache, k.mask(k.width(h), cache[..]));
      caches := caches[req := cache[..]];
    }

    /** The loop's state, given the state it was entered in: some tokens told, the head's cache now `fed`, and these
        activations forwarded since. */
    ghost predicate Running(req: Request, script: nat -> Round, told: nat, max: nat, was: Snapshot<H, C>, fed: seq<C>,
                            sent: seq<Sent<H>>)
      reads this
    {
      && caches == was.caches[req := fed] && heads == was.heads
      && client == was.client + Tokens(script, told, max) && wire == was.wire + sent
    }

    /** The state a run of the loop leaves. */
    ghost predicate Left(req: Request, script: nat -> Round, e: Ending, max: nat, was: Snapshot<H, C>,
        sent: seq<Sent<H>>,
                         errorLost: bool, endLost: bool)
      reads this
    {
      && (if e.exit == Escaped then req in caches && caches - {req} == was.caches - {req} && heads == was.heads
          else caches == was.caches - {req} && heads == was.heads - {req})
      && client == was.client + Tokens(script, e.told, max)
                   + (if Aborted(e.exit) && !errorLost then [Error(Unavailable)] else [])
      && wire == was.wire + sent + if e.exit == CacheGone || e.exit == Escaped || endLost then [] else [Ended(req)]
    }

    /** Any failure exit, from whatever the turn had reached. */
    method GiveUpRunning(req: Request, ghost script: nat -> Round, ghost max: nat, ghost e: Ending,
                         ghost was: Snapshot<H, C>, ghost fed: seq<C>, ghost sent: seq<Sent<H>>, errorLost: bool,
                         endLost: bool)
      requires Running(req, script, e.told, max, was, fed, sent) && Aborted(e.exit)
      modifies this
      ensures Left(req, script, e, max, was, sent, errorLost, endLost)
    {
      DropUpdated(was.caches, req, fed);
      GiveUp(req, errorLost, endLost);
    }

    /** Tell the client token n. */
    method Tell(script: nat -> Round, n: nat, max: nat, ghost was: Snapshot<H, C>)
      requires client == was.client + Tokens(script, n, max) && n < max
      modifies this`client
      ensures client == was.client + Tokens(script, n + 1, max)
    {
      client := client + [Token(script(n).item, n, n + 1 >= max)];
      assert Tokens(script, n + 1, max) == Tokens(script, n, max) + [Token(script(n).item, n, n + 1 == max)];
    }

    /** Feed the token back and forward the activation. */
    method FeedBack(req: Request, script: nat -> Round, n: nat, max: nat, ghost was: Snapshot<H, C>, ghost fed: seq<C>,
                    ghost sent: seq<Sent<H>>, errorLost: bool, endLost: bool)
      returns (ending: Option<Ending>)
      requires Fits(k, fed) && end <= k.total && n + 1 < max && Running(req, script, n + 1, max, was, fed, sent)
      modifies this
      ensures ending == if script(n).forwardDown then Some(Ending(n + 1, n, Broken)) else None
      ensures ending.Some? ==> Left(req, script, ending.value, max, was, sent, errorLost, endLost)
      ensures ending.None? ==>
                var p := Forward(k, 0, end, Pass(k.embed([script(n).item]), fed));
                Running(req, script, n + 1, max, was, p.cache, sent + [Forwarded(req, p.h)])
    {
      var h := Advance(req, [script(n).item]);
      ghost var now := caches[req];
      if script(n).forwardDown {
        ending := Some(Ending(n + 1, n, Broken));
        GiveUpRunning(req, script, max, ending.value, was, now, sent, errorLost, endLost);
        return;
      }
      wire := wire + [Forwarded(req, h)];
      ending := None;
    }

    /** What may end a turn before its token is fed back: the cache is gone, or the layers fail. */
    method Obstacle(req: Request, script: nat -> Round, n: nat, max: nat, ghost was: Snapshot<H, C>, ghost fed: seq<C>,
                    ghost sent: seq<Sent<H>>, errorLost: bool, endLost: bool)
      returns (ending: Option<Ending>)
      requires Running(req, script, n + 1, max, was, fed, sent)
      modifies this
      ensures ending.Some? ==> Left(req, script, ending.value, max, was, sent, errorLost, endLost)
      ensures ending.None? ==> Running(req, script, n + 1, max, was, fed, sent)
      ensures ending == if script(n).evicted then Some(Ending(n + 1, n, CacheGone))
                        else if script(n).layers == ExpertFails then Some(Ending(n + 1, n, ExpertFailed))
                        else if script(n).layers == Raises then Some(Ending(n + 1, n, Escaped))
                        else None
    {
      ending := None;
      DropUpdated(was.caches, req, fed);
      if script(n).evicted {
        caches, heads := caches - {req}, heads - {req};
        ending := Some(Ending(n + 1, n, CacheGone));
      } else if script(n).layers == Raises {
        ending := Some(Ending(n + 1, n, Escaped));
      } else if script(n).layers == ExpertFails {
        ending := Some(Ending(n + 1, n, ExpertFailed));
        GiveUpRunning(req, script, max, ending.value, was, fed, sent, errorLost, endLost);
      }
    }

    /** The last token was told: clear up and tell the ring. */
    method Finish(req: Request, ghost script: nat -> Round, ghost n: nat, ghost max: nat, ghost was: Snapshot<H, C>,
                  ghost fed: seq<C>, ghost sent: seq<Sent<H>>, ghost errorLost: bool, endLost: bool)
      requires Running(req, script, n + 1, max, was, fed, sent)
      modifies this
      ensures Left(req, script, Ending(n + 1, n, Finished), max, was, sent, errorLost, endLost)
    {
      DropUpdated(was.caches, req, fed);
      if !endLost { wire := wire + [Ended(req)]; }
      caches := caches - {req};
      heads := heads - {req};
    }

    /** One turn of the loop; None means another turn follows. */
    method Turn(req: Request, script: nat -> Round, n: nat, max: nat, ghost was: Snapshot<H, C>, ghost fed: seq<C>,
                ghost sent: seq<Sent<H>>, errorLost: bool, endLost: bool)
      returns (ending: Option<Ending>)
      requires Fits(k, fed) && end <= k.total && n < max && Running(req, script, n, max, was, fed, sent)
      modifies this
      ensures ending.Some? ==>
                && ending.value == Run(script, n, max) && ending.value.sent == n
                && Left(req, script, ending.value, max, was, sent, errorLost, endLost)
      ensures ending.None? ==>
                var p := Forward(k, 0, end, Pass(k.embed([script(n).item]), fed));
                && n + 1 < max && Run(script, n, max) == Run(script, n + 1, max)
                && Running(req, script, n + 1, max, was, p.cache, sent + [Forwarded(req, p.h)])
    {
      if script(n).item == Poison || script(n).clientDown {
        ending := Some(Ending(n, n, if script(n).item == Poison then PeerLeft else Broken));
        GiveUpRunning(req, script, max, ending.value, was, fed, sent, errorLost, endLost);
        return;
      }
      Tell(script, n, max, was);
      if n + 1 >= max {
        Finish(req, script, n, max, was, fed, sent, errorLost, endLost);
        return Some(Ending(n + 1, n, Finished));
      }
      ending := Obstacle(req, script, n, max, was, fed, sent, errorLost, endLost);
      if ending.None? { ending := FeedBack(req, script, n, max, was, fed, sent, errorLost, endLost); }
    }

    /** The function is what this head's layers compute. */
    ghost predicate Computes(pass: (seq<int>, seq<C>) -> Pass<H, C>) {
      forall tokens, cache {:trigger Forward(k, 0, end, Pass(k.embed(tokens), cache))} ::
        Fits(k, cache) && end <= k.total ==> pass(tokens, cache) == Forward(k, 0, end, Pass(k.embed(tokens), cache))
    }

    /** The loop's state at the top of turn n, counted from the cache it began with. */
    ghost predicate AtTop(req: Request, script: nat -> Round, n: nat, max: nat, was: Snapshot<H, C>, start: seq<C>,
                          pass: (seq<int>, seq<C>) -> Pass<H, C>)
      reads this
    {
      && Fits(k, Fed(pass, script, n, start))
      && Running(req, script, n, max, was, Fed(pass, script, n, start), Activations(pass, req, script, n, start))
    }

    /** The same turn, counted from the cache the loop began with. */
    method CountedTurn(req: Request, script: nat -> Round, n: nat, max: nat, ghost was: Snapshot<H, C>,
        ghost start: seq<C>,
                       ghost pass: (seq<int>, seq<C>) -> Pass<H, C>, errorLost: bool, endLost: bool)
      returns (ending: Option<Ending>, ghost wait: Wait)
      requires end <= k.total && n < max && Computes(pass) && AtTop(req, script, n, max, was, start, pass)
      modifies this
      ensures wait == Wait(n, n + 1)
      ensures ending.Some? ==>
                && ending.value == Run(script, n, max)
                && Left(req, script, ending.value, max, was, Activations(pass, req, script, ending.value.sent, start),
                        errorLost, endLost)
      ensures ending.None? ==>
                && n + 1 < max && Run(script, n, max) == Run(script, n + 1, max)
                && AtTop(req, script, n + 1, max, was, start, pass)
    {
      wait := Wait(n, 1 + |wire| - |was.wire|);
      ghost var fed, sent := Fed(pass, script, n, start), Activations(pass, req, script, n, start);
      ending := Turn(req, script, n, max, was, fed, sent, errorLost, endLost);
      assert pass([script(n).item], fed) == Forward(k, 0, end, Pass(k.embed([script(n).item]), fed));
    }

    lemma AtTopFirst(req: Request, script: nat -> Round, max: nat, was: Snapshot<H, C>,
        pass: (seq<int>, seq<C>) -> Pass<H, C>)
      requires was == Snapshot(caches, heads, client, wire) && req in caches && Fits(k, caches[req])
      ensures AtTop(req, script, 0, max, was, was.caches[req], pass)
    {
      assert Tokens(script, 0, max) == [] && caches == caches[req := caches[req]];
    }

    method Loop(req: Request, max: nat, script: nat -> Round, ghost pass: (seq<int>, seq<C>) -> Pass<H, C>,
                errorLost: bool, endLost: bool)
      returns (ending: Ending, ghost waits: seq<Wait>)
      requires req in caches && Fits(k, caches[req]) && end <= k.total && max >= 1 && Computes(pass)
      modifies this
      ensures ending == Run(script, 0, max)
      ensures Left(req, script, ending, max, Snapshot(old(caches), old(heads), old(client), old(wire)),
                   Activations(pass, req, script, ending.sent, old(caches[req])), errorLost, endLost)
      ensures forall i :: 0 <= i < |waits| ==> waits[i] == Wait(i, i + 1)
    {
      ghost var was, start := Snapshot(caches, heads, client, wire), caches[req];
      waits := [];
      AtTopFirst(req, script, max, was, pass);
      var generated := 0;
      while true
        invariant generated < max && Run(script, generated, max) == Run(script, 0, max)
        invariant AtTop(req, script, generated, max, was, start, pass)
        invariant |waits| == generated && forall i :: 0 <= i < |waits| ==> waits[i] == Wait(i, i + 1)
        decreases max - generated
      {
        var stop, wait := CountedTurn(req, script, generated, max, was, start, pass, errorLost, endLost);
        waits := waits + [wait];
        if stop.Some? { return stop.value, waits; }
        generated := generated + 1;
      }
    }

    method DriveDecodeLoop(req: Request, max: nat, script: nat -> Round, errorLost: bool, endLost: bool)
      returns (ending: Ending, ghost waits: seq<Wait>)
      requires req in caches && Fits(k, caches[req]) && end <= k.total && max >= 1
      modifies this
      ensures ending == Run(script, 0, max)
      ensures Left(req, script, ending, max, Snapshot(old(caches), old(heads), old(client), old(wire)),
                   Activations(HeadPass(k, end), req, script, ending.sent, old(caches[req])), errorLost, endLost)
      ensures forall i :: 0 <= i < |waits| ==> waits[i] == Wait(i, i + 1)
    {
      assert Computes(HeadPass(k, end));
      ending, waits := Loop(req, max, script, HeadPass(k, end), errorLost, endLost);
    }

    /** Other requests keep their entries. */
    ghost predicate OthersKept(req: Request, was: Snapshot<H, C>)
      reads this
    {
      caches - {req} == was.caches - {req} && heads - {req} == was.heads - {req}
    }

    /** Register a request, run the prompt through the head's layers, forward it. */
    method Prefill(req: Request, prompt: seq<int>, layers: LayerRun, lost: bool,
        errorLost: bool) returns (stop: Option<Exit>)
      requires Fits(k, k.blank) && end <= k.total
      modifies this
      ensures stop == match layers
                      case ExpertFails => Some(PrefillFailed)
                      case Raises => Some(PrefillEscaped)
                      case Fine => if lost then Some(PrefillLost) else None
      ensures OthersKept(req, Snapshot(old(caches), old(heads), old(client), old(wire)))
      ensures (req in caches <==> layers != ExpertFails) && (req in heads <==> layers != ExpertFails)
      ensures layers != ExpertFails ==> Fits(k, caches[req])
      ensures client == old(client) + if layers == ExpertFails && !errorLost then [Error(Unavailable)] else []
      ensures layers == Fine && !lost ==>
                var p := Forward(k, 0, end, Pass(k.embed(prompt), k.blank));
                wire == old(wire) + [Forwarded(req, p.h)] && caches[req] == p.cache
      ensures layers != Fine || lost ==> wire == old(wire)
    {
      caches := caches[req := k.blank];
      heads := heads + {req};
      if layers == Raises { return Some(PrefillEscaped); }
      if layers == ExpertFails {
        if !errorLost { client := client + [Error(Unavailable)]; }
        caches := caches - {req};
        heads := heads - {req};
        return Some(PrefillFailed);
      }
      var h := Advance(req, prompt);
      if lost { return Some(PrefillLost); }
      wire := wire + [Forwarded(req, h)];
      stop := None;
    }

    /** What a caller sees of the prefill. */
    method Start(req: Request, prompt: seq<int>, layers: LayerRun, lost: bool,
        errorLost: bool) returns (stop: Option<Exit>)
      requires Fits(k, k.blank) && end <= k.total
      modifies this
      ensures stop == None <==> layers == Fine && !lost
      ensures stop.Some? ==> forall script, asked :: Way(layers, lost, script, asked) == stop.value
      ensures OthersKept(req, Snapshot(old(caches), old(heads), old(client), old(wire)))
      ensures stop.Some? ==> ((req in caches || req in heads) <==> LeavesEntry(stop.value))
      ensures stop.None? ==> req in caches && Fits(k, caches[req]) && client == old(client)
      ensures stop.Some? ==>
                forall script, asked :: client == old(client) + Story(layers, lost, script, asked, errorLost)
    {
      stop := Prefill(req, prompt, layers, lost, errorLost);
    }

    /** A request the head accepted, from prefill to the end of its decode loop. It is left in the tables exactly when
        the prefill could not be forwarded or a layer raised something no handler catches. */
    method Serve(req: Request, prompt: seq<int>, asked: nat, prefill: LayerRun, prefillLost: bool, script: nat -> Round,
                 errorLost: bool, endLost: bool) returns (exit: Exit)
      requires Fits(k, k.blank) && end <= k.total
      modifies this
      ensures exit == Way(prefill, prefillLost, script, asked)
      ensures (req in caches || req in heads) <==> LeavesEntry(exit)
      ensures OthersKept(req, Snapshot(old(caches), old(heads), old(client), old(wire)))
      ensures client == old(client) + Story(prefill, prefillLost, script, asked, errorLost)
    {
      var stop := Start(req, prompt, prefill, prefillLost, errorLost);
      if stop.Some? { return stop.value; }
      exit := Decode(req, if asked == 0 then 1 else asked, script, errorLost, endLost);
    }

    /** What a caller sees of the decode loop. */
    method Decode(req: Request, max: nat, script: nat -> Round, errorLost: bool, endLost: bool) returns (exit: Exit)
      requires req in caches && Fits(k, caches[req]) && end <= k.total && max >= 1
      modifies this
      ensures exit == Way(Fine, false, script, max) && ((req in caches || req in heads) <==> exit == Escaped)
      ensures OthersKept(req, Snapshot(old(caches), old(heads), old(client), old(wire)))
      ensures client == old(client) + Story(Fine, false, script, max, errorLost)
    {
      var ending, waits := DriveDecodeLoop(req, max, script, errorLost, endLost);
      exit := ending.exit;
    }

    method HandleBegin(req: Request, prompt: seq<int>, asked: nat, isHead: bool, peersUp: bool, prefill: LayerRun,
                       prefillLost: bool, script: nat -> Round, errorLost: bool, endLost: bool) returns (exit: Exit)
      requires Fits(k, k.blank) && end <= k.total
      modifies this
      ensures exit == if isHead && peersUp then Way(prefill, prefillLost, script, asked) else Refused
      ensures exit == Refused ==>
                && caches == old(caches) && heads == old(heads) && wire == old(wire)
                && client == old(client) + [Error(if isHead then Unavailable else WrongShard)]
      ensures exit != Refused ==> ((req in caches || req in heads) <==> LeavesEntry(exit))
      ensures exit != Refused ==> client == old(client) + Story(prefill, prefillLost, script, asked, errorLost)
      ensures OthersKept(req, Snapshot(old(caches), old(heads), old(client), old(wire)))
    {
      if !isHead {
        client := client + [Error(WrongShard)];
        return Refused;
      }
      if !peersUp {
        client := client + [Error(Unavailable)];
        return Refused;
      }
      exit := Serve(req, prompt, asked, prefill, prefillLost, script, errorLost, endLost);
    }
  }

  /** The way out of an accepted request. */
  function Way(prefill: LayerRun, prefillLost: bool, script: nat -> Round, asked: nat): (e: Exit)
    ensures e != Refused
  {
    match prefill
    case ExpertFails => PrefillFailed
    case Raises => PrefillEscaped
    case Fine => if prefillLost then PrefillLost else Run(script, 0, Max(1, asked)).exit
  }

  /** All the client of an accepted request hears. */
  function Story(prefill: LayerRun, prefillLost: bool, script: nat -> Round, asked: nat, errorLost: bool): seq<Said> {
    var e, sorry := Run(script, 0, Max(1, asked)), if errorLost then [] else [Error(Unavailable)];
    if prefill == ExpertFails then sorry else if prefill == Raises || prefillLost then []
    else Tokens(script, e.told, Max(1, asked)) + if Aborted(e.exit) then sorry else []
  }

  /** Positions count up from 0, only the max-th token is final, and an error is the last thing said. */
  ghost predicate Orderly(trace: seq<Said>, max: nat) {
    forall i :: 0 <= i < |trace| ==>
      if trace[i].Error? then i + 1 == |trace|
      else
        && trace[i].position == i && (trace[i].final <==> i + 1 == max)
        && (trace[i].final ==> i + 1 == |trace|)
  }

  /** What the client hears is orderly, and ends in a final token exactly when the request finishes. */
  lemma StoryIsOrderly(prefill: LayerRun, prefillLost: bool, script: nat -> Round, asked: nat, errorLost: bool)
    ensures var trace := Story(prefill, prefillLost, script, asked, errorLost);
            && Orderly(trace, Max(1, asked))
            && (Way(prefill, prefillLost, script, asked) == Finished <==>
                  trace != [] && trace[|trace| - 1].Token? && trace[|trace| - 1].final)
  {}

  /** The client of a request that was given up on is told so, and is told nothing of the kind otherwise. */
  lemma GivenUpIsTold(prefill: LayerRun, prefillLost: bool, script: nat -> Round, asked: nat)
    ensures var trace, e := Story(prefill, prefillLost, script, asked, false), Way(prefill, prefillLost, script, asked);
            trace != [] && trace[|trace| - 1] == Error(Unavailable) <==>
              e == PrefillFailed || e == PeerLeft || e == Broken || e == ExpertFailed
  {}
}
