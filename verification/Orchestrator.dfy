/**
 Fan-out of one split layer with retry (expert_orchestrator.py). Peer calls,
 abort signals, deadlines, load tables, owner sets and random draws are all
 supplied by an arbitrary environment.
 */
module Orchestrator {
  import opened Common
  import opened Moe

  datatype Rpc<V> = Returned(outs: map<int, Tensor<V>>) | Raised

  /** What one pass of the polling loop observes. */
  datatype Poll = Poll(aborted: set<ShardId>, done: set<ShardId>, expired: bool)

  /** Everything outside the orchestrator, indexed by the number of the routing decision. */
  datatype Env<!V> = Env(
    call: (nat, ShardId, seq<int>, Tensor<V>) -> Rpc<V>,
    polls: nat -> seq<Poll>,
    drained: nat -> set<ShardId>,
    live: (nat, int) -> seq<ShardId>,
    loads: nat -> map<ShardId, int>,
    draws: (nat, nat) -> (nat, nat))

  /** A call that returns answers exactly the ids asked, each with the expert's own output. */
  ghost predicate HonestPeers<V(!new), W>(env: Env<V>, layer: Layer<V, W>) {
    forall k, p, ids, x :: env.call(k, p, ids, x).Returned? ==> Answers(layer, x, ids, env.call(k, p, ids, x).outs)
  }

  ghost predicate Answers<V, W>(layer: Layer<V, W>, x: Tensor<V>, ids: seq<int>, outs: map<int, Tensor<V>>) {
    Right(layer, x, outs) && forall e :: e in outs <==> e in ids
  }

  // ------------------------------------------------------------- one round

  datatype Dispatch<V> = Dispatch(remote: Groups, local: seq<int>, outs: map<int, Tensor<V>>)

  /** Remove one shard's group. */
  function Pop(g: Groups, s: ShardId): Groups {
    Groups(Minus(g.order, {s}), g.ids - {s})
  }

  function Minus(xs: seq<ShardId>, gone: set<ShardId>): seq<ShardId> {
    if xs == [] then []
    else (if xs[0] in gone then [] else [xs[0]]) + Minus(xs[1..], gone)
  }

  lemma {:induction false} MinusMembers(xs: seq<ShardId>, gone: set<ShardId>)
    ensures forall x :: x in Minus(xs, gone) <==> x in xs && x !in gone
    ensures Distinct(xs) ==> Distinct(Minus(xs, gone))
  {
    if xs != [] {
      MinusMembers(xs[1..], gone);
      if Distinct(xs) { assert Distinct(xs[1..]); }
    }
  }

  function Without(owners: seq<Owner>, gone: set<ShardId>): seq<Owner> {
    if owners == [] then []
    else (if owners[0].shard in gone then [] else [owners[0]]) + Without(owners[1..], gone)
  }

  lemma {:induction false} WithoutMembers(owners: seq<Owner>, gone: set<ShardId>, e: int)
    ensures forall s :: s in StaticOwners(Without(owners, gone), e) ==> s !in gone && s in StaticOwners(owners, e)
  {
    if owners != [] {
      WithoutMembers(owners[1..], gone, e);
      var rest := Without(owners[1..], gone);
      if owners[0].shard in gone {
        assert Without(owners, gone) == rest;
      } else {
        assert Without(owners, gone)[0] == owners[0] && Without(owners, gone)[1..] == rest;
      }
    }
  }

  /** No candidate survives that has been excluded. */
  lemma CandidatesAvoid(owners: seq<Owner>, live: seq<ShardId>, gone: set<ShardId>, e: int)
    ensures forall s :: s in Candidates(Without(owners, gone), Minus(live, gone), e) ==>
              s !in gone && s in Candidates(owners, live, e)
  {
    WithoutMembers(owners, gone, e);
    MinusMembers(live, gone);
    forall s | s in Candidates(Without(owners, gone), Minus(live, gone), e)
      ensures s !in gone && s in Candidates(owners, live, e)
    {
      DedupMembers(StaticOwners(Without(owners, gone), e) + Minus(live, gone), s);
      DedupMembers(StaticOwners(owners, e) + live, s);
    }
  }

  /** The dispatch covers exactly `ids`: each goes to one peer outside `gone`, or is computed here. */
  ghost predicate Covers(remote: Groups, local: seq<int>, ids: seq<int>, self: ShardId, gone: set<ShardId>) {
    && Distinct(remote.order) && (forall p :: p in remote.order <==> p in remote.ids)
    && (forall p :: p in remote.ids ==> p != self && p !in gone)
    && (forall p, e :: Asks(remote, p, e) ==> e in ids && e !in local)
    && Apart(remote)
    && (forall e :: e in local ==> e in ids)
    && (forall e :: e in ids && e !in local ==> exists p :: Asks(remote, p, e))
  }

  /** Groups made among what remains avoid the excluded shards and stay among the owners. */
  lemma GroupsWithin<V>(g: Groups, ids: seq<int>, env: Env<V>, k: nat, owners: seq<Owner>, self: ShardId,
                        live: int -> seq<ShardId>, gone: set<ShardId>)
    requires Assigned(g, ids, Without(owners, gone), live) && forall e :: live(e) == Minus(env.live(k, e), gone)
    ensures forall p :: p in g.ids ==> p !in gone && (p == self || p in PeersOf(env, k, owners, self, IdSet(ids)))
  {
    forall p | p in g.ids ensures p !in gone && (p == self || p in PeersOf(env, k, owners, self, IdSet(ids))) {
      var e := g.ids[p][0];
      assert Asks(g, p, e);
      CandidatesAvoid(owners, env.live(k, e), gone, e);
    }
  }

  lemma PopKeepsRest(g: Groups, s: ShardId)
    requires Distinct(g.order) && forall p :: p in g.order <==> p in g.ids
    ensures Distinct(Pop(g, s).order) && forall p :: p in Pop(g, s).order <==> p in Pop(g, s).ids
    ensures forall p :: p in Pop(g, s).ids <==> p in g.ids && p != s
    ensures forall p :: p in Pop(g, s).ids ==> Pop(g, s).ids[p] == g.ids[p]
  {
    MinusMembers(g.order, {s});
  }

  lemma PopCovers(g: Groups, ids: seq<int>, self: ShardId, gone: set<ShardId>)
    requires Splits(g, ids) && forall p :: p in g.ids ==> p !in gone
    ensures Covers(Pop(g, self), if self in g.ids then g.ids[self] else [], ids, self, gone)
  {
    var local := if self in g.ids then g.ids[self] else [];
    var remote := Pop(g, self);
    PopKeepsRest(g, self);
    forall p, e | Asks(remote, p, e) ensures Asks(g, p, e) && p != self {}
    forall e | e in local ensures Asks(g, self, e) {}
    forall e | e in ids && e !in local ensures exists p :: Asks(remote, p, e) {
      var p :| Asks(g, p, e);
      assert Asks(remote, p, e);
    }
  }

  /** Local experts, in order; an id outside a non-empty held list is refused. */
  method RunSelectedExperts<V, W>(layer: Layer<V, W>, x: Tensor<V>, held: seq<int>, ids: seq<int>)
    returns (r: Result<map<int, Tensor<V>>>)
    ensures r.Ok? <==> held == [] || forall e :: e in ids ==> e in held
    ensures r.Ok? ==> Answers(layer, x, ids, r.value)
    ensures r.Err? ==> r.error.NotHeld?
  {
    var outs: map<int, Tensor<V>> := map[];
    for i := 0 to |ids|
      invariant Right(layer, x, outs) && forall e :: e in outs <==> e in ids[..i]
      invariant held == [] || forall e :: e in ids[..i] ==> e in held
    {
      if held != [] && ids[i] !in held { return Err(NotHeld(ids[i])); }
      outs := outs[ids[i] := layer.expert(ids[i], x)];
    }
    r := Ok(outs);
  }

  /** The shards that may serve the expert, without the excluded ones. */
  function Remaining<V>(env: Env<V>, k: nat, owners: seq<Owner>, gone: set<ShardId>, e: int): seq<ShardId> {
    Candidates(Without(owners, gone), Minus(env.live(k, e), gone), e)
  }

  /** Someone not excluded may serve the expert, and this shard, if it may, really holds it. */
  ghost predicate Servable<V>(env: Env<V>, k: nat, owners: seq<Owner>, held: seq<int>, self: ShardId,
                              gone: set<ShardId>, e: int) {
    var cs := Remaining(env, k, owners, gone, e);
    cs != [] && (self in cs ==> held == [] || e in held)
  }

  /** The other shards that may be asked for some of the ids. */
  ghost function PeersOf<V>(env: Env<V>, k: nat, owners: seq<Owner>, self: ShardId, ids: set<int>): (ps: set<ShardId>)
    ensures forall e, s :: e in ids && s in Candidates(owners, env.live(k, e), e) && s != self ==> s in ps
    ensures forall s :: s in ps ==> s != self && exists e :: e in ids && s in Candidates(owners, env.live(k, e), e)
  {
    set e, s | e in ids && s in Candidates(owners, env.live(k, e), e) && s != self :: s
  }

  lemma PeersFewer<V>(env: Env<V>, k: nat, owners: seq<Owner>, self: ShardId, fewer: set<int>, ids: set<int>)
    requires fewer <= ids
    ensures PeersOf(env, k, owners, self, fewer) <= PeersOf(env, k, owners, self, ids)
  {}

  ghost function IdSet(ids: seq<int>): (r: set<int>)
    ensures forall e :: e in r <==> e in ids
  {
    set e | e in ids
  }

  /** What a grouping of distinct ids means for the dispatch. */
  lemma GroupsDispatch<V>(g: Groups, ids: seq<int>, env: Env<V>, k: nat, owners: seq<Owner>, held: seq<int>,
      self: ShardId,
                          live: int -> seq<ShardId>, gone: set<ShardId>)
    requires Assigned(g, ids, Without(owners, gone), live) && Apart(g)
    requires forall e :: live(e) == Minus(env.live(k, e), gone)
    ensures Covers(Pop(g, self), if self in g.ids then g.ids[self] else [], ids, self, gone)
    ensures forall p :: p in Pop(g, self).ids ==> p in PeersOf(env, k, owners, self, IdSet(ids))
    ensures (forall e :: e in ids ==> Servable(env, k, owners, held, self, gone, e)) ==>
              held == [] || forall e :: e in (if self in g.ids then g.ids[self] else []) ==> e in held
  {
    GroupsWithin(g, ids, env, k, owners, self, live, gone);
    PopCovers(g, ids, self, gone);
    PopKeepsRest(g, self);
    if (forall e :: e in ids ==> Servable(env, k, owners, held, self, gone, e)) && self in g.ids {
      forall e | e in g.ids[self] ensures held == [] || e in held { assert Asks(g, self, e); }
    }
  }

  /** Route `ids` away from the excluded peers and compute what falls to this shard. */
  method Route<V, W>(layer: Layer<V, W>, x: Tensor<V>, env: Env<V>, k: nat, owners: seq<Owner>, held: seq<int>,
                     self: ShardId, ids: seq<int>, gone: set<ShardId>)
    returns (r: Result<Dispatch<V>>)
    requires Distinct(ids)
    ensures r.Ok? ==> Covers(r.value.remote, r.value.local, ids, self, gone)
                      && Answers(layer, x, r.value.local, r.value.outs)
    ensures r.Err? ==> r.error.NoOwner? || r.error.NotHeld?
    ensures (exists e :: e in ids && Remaining(env, k, owners, gone, e) == []) ==> r.Err? && r.error.NoOwner?
    ensures (forall e :: e in ids ==> Servable(env, k, owners, held, self, gone, e)) ==> r.Ok?
    ensures r.Ok? ==> forall p :: p in r.value.remote.ids ==> p in PeersOf(env, k, owners, self, IdSet(ids))
  {
    var rest := Without(owners, gone);
    var live := (e: int) => Minus(env.live(k, e), gone);
    var loads := env.loads(k);
    var selfLoad, draws := if self in loads then loads[self] else 0, (i: nat) => env.draws(k, i);
    if forall e :: e in ids ==> Servable(env, k, owners, held, self, gone, e) {
      forall i | 0 <= i < |ids| ensures Candidates(rest, live(ids[i]), ids[i]) != [] {
        assert Servable(env, k, owners, held, self, gone, ids[i]);
      }
    }
    if e :| e in ids && Remaining(env, k, owners, gone, e) == [] {
      var i :| 0 <= i < |ids| && ids[i] == e;
      assert Candidates(rest, live(ids[i]), ids[i]) == [];
    }
    var g := GroupByOwnerLoaded(ids, rest, loads, self, selfLoad, draws, live);
    if g.Err? { return Err(g.error); }
    GroupsOfIsGrouped(ids, rest, loads, self, selfLoad, draws, live);
    GroupsDispatch(g.value, ids, env, k, owners, held, self, live, gone);
    var local := if self in g.value.ids then g.value.ids[self] else [];
    var outs := RunSelectedExperts(layer, x, held, local);
    if outs.Err? { return Err(outs.error); }
    r := Ok(Dispatch(Pop(g.value, self), local, outs.value));
  }

  /** ids of the peers listed in `ps`. */
  ghost predicate AskedOf(g: Groups, ps: seq<ShardId>, e: int) {
    exists p :: p in ps && Asks(g, p, e)
  }

  /** Everything asked of p is among the outputs. */
  ghost predicate AnsweredBy<V>(g: Groups, p: ShardId, outs: map<int, Tensor<V>>) {
    p in g.ids && forall e :: e in g.ids[p] ==> e in outs
  }

  /** One pass over the still-open futures: collect the finished ones, stop at the first that raised. */
  method CollectDone<V(!new), W>(layer: Layer<V, W>, x: Tensor<V>, env: Env<V>, k: nat, g: Groups, open: seq<ShardId>,
                           done: set<ShardId>, outs0: map<int, Tensor<V>>)
    returns (outs: map<int, Tensor<V>>, left: seq<ShardId>, failed: Option<ShardId>)
    requires HonestPeers(env, layer) && Right(layer, x, outs0) && forall p :: p in open ==> p in g.ids
    ensures Right(layer, x, outs) && (forall p :: p in left ==> p in open && p !in done)
    ensures failed.Some? ==>
              failed.value in open && failed.value in done && env.call(k, failed.value, g.ids[failed.value], x).Raised?
    ensures forall e :: e in outs0 ==> e in outs
    ensures forall e :: e in outs ==> e in outs0 || AskedOf(g, open, e)
    ensures failed.None? ==> forall e :: AskedOf(g, open, e) ==> e in outs || AskedOf(g, left, e)
    ensures failed.None? ==> forall p :: p in open ==> p in left || AnsweredBy(g, p, outs)
    ensures failed.None? ==>
              forall p :: p in open && p !in left ==> p in done && env.call(k, p, g.ids[p], x).Returned?
  {
    outs, left, failed := outs0, [], None;
    for i := 0 to |open|
      invariant Right(layer, x, outs) && forall p :: p in left ==> p in open && p !in done
      invariant forall e :: e in outs0 ==> e in outs
      invariant forall e :: e in outs ==> e in outs0 || AskedOf(g, open, e)
      invariant forall e :: AskedOf(g, open[..i], e) ==> e in outs || AskedOf(g, left, e)
      invariant forall j :: 0 <= j < i ==> open[j] in left || AnsweredBy(g, open[j], outs)
      invariant forall j :: 0 <= j < i ==>
                  open[j] in left || (open[j] in done && env.call(k, open[j], g.ids[open[j]], x).Returned?)
    {
      var p := open[i];
      ghost var left0, outs1 := left, outs;
      if p in done {
        var answer := env.call(k, p, g.ids[p], x);
        if answer.Raised? { failed := Some(p); return; }
        outs := outs + answer.outs;
        assert forall e :: e in outs <==> e in outs1 || Asks(g, p, e);
      } else {
        left := left + [p];
      }
      forall e | AskedOf(g, open[..i + 1], e) ensures e in outs || AskedOf(g, left, e) {
        var q :| q in open[..i + 1] && Asks(g, q, e);
        if q != p || e !in outs {
          if q in open[..i] { assert AskedOf(g, open[..i], e); }
          if e !in outs && AskedOf(g, left0, e) {
            var s :| s in left0 && Asks(g, s, e);
            assert s in left;
          }
        }
      }
    }
    assert open[..|open|] == open;
  }

  /** The first open peer whose abort event is set. */
  method FirstAborted(open: seq<ShardId>, aborted: set<ShardId>) returns (p: Option<ShardId>)
    ensures p.Some? ==> p.value in open && p.value in aborted
    ensures p.None? ==> forall q :: q in open ==> q !in aborted
  {
    p := None;
    for i := 0 to |open|
      invariant forall j :: 0 <= j < i ==> open[j] !in aborted
    {
      if open[i] in aborted { return Some(open[i]); }
    }
  }

  /** These peers keep their word in a round: none of their calls raises, no abort of theirs is seen, and each is seen
      to finish, before any deadline. */
  ghost predicate Steady<V>(env: Env<V>, k: nat, x: Tensor<V>, good: set<ShardId>) {
    && (forall p, ids :: p in good ==> env.call(k, p, ids, x).Returned?)
    && (forall i :: 0 <= i < |env.polls(k)| ==> env.polls(k)[i].aborted !! good)
    && (forall i, p :: 0 <= i < |env.polls(k)| && env.polls(k)[i].expired && p in good ==>
           SeenDone(env.polls(k), i + 1, p))
    && forall p :: p in good ==> SeenDone(env.polls(k), |env.polls(k)|, p)
  }

  /** One of the first n polls sees the peer done. */
  ghost predicate SeenDone(polls: seq<Poll>, n: nat, p: ShardId)
    requires n <= |polls|
  {
    exists i :: 0 <= i < n && p in polls[i].done
  }

  /** The peer's call returns, and some poll sees it done with no abort of it up to then and no deadline before. */
  ghost predicate GoesWell<V>(env: Env<V>, k: nat, x: Tensor<V>, g: Groups, p: ShardId) {
    && p in g.ids && env.call(k, p, g.ids[p], x).Returned?
    && exists i :: 0 <= i < |env.polls(k)| && DoneInTime(env.polls(k), i, p)
  }

  ghost predicate DoneInTime(polls: seq<Poll>, i: nat, p: ShardId)
    requires i < |polls|
  {
    && p in polls[i].done && (forall j :: 0 <= j <= i ==> p !in polls[j].aborted)
    && forall j :: 0 <= j < i ==> !polls[j].expired
  }

  /** Nothing in the first n polls ends the wait for this peer: no abort, no result, no deadline. */
  ghost predicate Smooth(polls: seq<Poll>, n: nat, p: ShardId)
    requires n <= |polls|
  {
    forall i :: 0 <= i < n ==> p !in polls[i].aborted && p !in polls[i].done && !polls[i].expired
  }

  /** The answers of all peers seen done while nothing ended the wait for the failed one are among the outputs. */
  ghost predicate EarlyKept<V>(polls: seq<Poll>, g: Groups, failed: ShardId, outs: map<int, Tensor<V>>) {
    forall n: nat, p :: n <= |polls| && Smooth(polls, n, failed) && p in g.order && SeenDone(polls, n, p) ==>
      AnsweredBy(g, p, outs)
  }

  /** The wait after i polls: whoever is still open was neither done nor aborted so far and no deadline passed, and
      everyone else was done in time and is among the outputs. */
  ghost predicate Polling<V, W>(layer: Layer<V, W>, x: Tensor<V>, env: Env<V>, k: nat, g: Groups,
                                outs0: map<int, Tensor<V>>, i: nat, open: seq<ShardId>, outs: map<int, Tensor<V>>) {
    && Right(layer, x, outs) && Grown(g, outs0, outs) && i <= |env.polls(k)|
    && (forall p :: p in open ==> p in g.order && p in g.ids && StillOpen(env.polls(k), i, p))
    && forall p :: p in g.order ==> p in open || (AnsweredBy(g, p, outs) && GoesWell(env, k, x, g, p))
  }

  ghost predicate StillOpen(polls: seq<Poll>, i: nat, p: ShardId)
    requires i <= |polls|
  {
    forall j :: 0 <= j < i ==> p !in polls[j].done && p !in polls[j].aborted && !polls[j].expired
  }

  /** Outputs are never lost, and new ones are of ids that were asked. */
  ghost predicate Grown<V>(g: Groups, outs0: map<int, Tensor<V>>, outs: map<int, Tensor<V>>) {
    && (forall e :: e in outs0 ==> e in outs)
    && forall e :: e in outs ==> e in outs0 || AskedOf(g, g.order, e)
  }

  /** Poll i, or the end of polling, is why this peer failed. */
  ghost predicate Stops<V>(env: Env<V>, k: nat, x: Tensor<V>, g: Groups, i: nat, p: ShardId) {
    var polls := env.polls(k);
    || i == |polls|
    || (i < |polls| && p in polls[i].aborted)
    || (i < |polls| && p in polls[i].done && p in g.ids && env.call(k, p, g.ids[p], x).Raised?)
    || (i < |polls| && polls[i].expired && p !in polls[i].done)
  }

  /** What is known of the peer a round fails on. */
  ghost predicate Blamed<V>(env: Env<V>, k: nat, x: Tensor<V>, g: Groups, outs: map<int, Tensor<V>>,
                            good: set<ShardId>, p: ShardId) {
    && p in g.ids && !GoesWell(env, k, x, g, p) && EarlyKept(env.polls(k), g, p, outs)
    && (Steady(env, k, x, good) ==> p !in good)
  }

  lemma StoppedIsBlamed<V, W>(layer: Layer<V, W>, x: Tensor<V>, env: Env<V>, k: nat, g: Groups,
                              outs0: map<int, Tensor<V>>, i: nat, open: seq<ShardId>, outs: map<int, Tensor<V>>,
                              good: set<ShardId>, p: ShardId)
    requires Polling(layer, x, env, k, g, outs0, i, open, outs) && p in open && Stops(env, k, x, g, i, p)
    ensures Blamed(env, k, x, g, outs, good, p)
  {
    var polls := env.polls(k);
    assert StillOpen(polls, i, p);
    NotInTime(env, k, x, g, i, p);
    if p in good && Steady(env, k, x, good) { SteadyGoesWell(env, k, x, g, good, i, p); }
    forall n: nat, q | n <= |polls| && Smooth(polls, n, p) && q in g.order && SeenDone(polls, n, q)
      ensures AnsweredBy(g, q, outs)
    {
      assert n <= i;
      assert q in open ==> StillOpen(polls, i, q);
    }
  }

  lemma NotInTime<V>(env: Env<V>, k: nat, x: Tensor<V>, g: Groups, i: nat, p: ShardId)
    requires i <= |env.polls(k)| && StillOpen(env.polls(k), i, p) && Stops(env, k, x, g, i, p)
    ensures !GoesWell(env, k, x, g, p)
  {}

  lemma SteadyGoesWell<V>(env: Env<V>, k: nat, x: Tensor<V>, g: Groups, good: set<ShardId>, i: nat, p: ShardId)
    requires i <= |env.polls(k)| && StillOpen(env.polls(k), i, p) && Steady(env, k, x, good) && p in good
    ensures !Stops(env, k, x, g, i, p)
  {
    var polls := env.polls(k);
    assert SeenDone(polls, |polls|, p);
    if i < |polls| && polls[i].expired { assert SeenDone(polls, i + 1, p); }
  }

  lemma DoneGoesWell<V>(env: Env<V>, k: nat, x: Tensor<V>, g: Groups, i: nat, p: ShardId)
    requires i < |env.polls(k)| && StillOpen(env.polls(k), i, p) && p in g.ids
    requires p in env.polls(k)[i].done && p !in env.polls(k)[i].aborted && env.call(k, p, g.ids[p], x).Returned?
    ensures GoesWell(env, k, x, g, p)
  {
    assert DoneInTime(env.polls(k), i, p);
  }

  /** One poll: an abort or a raised call fails the round, and so does a passed deadline with someone still open. */
  method PollOnce<V(!new), W>(layer: Layer<V, W>, x: Tensor<V>, env: Env<V>, k: nat, g: Groups,
                              ghost outs0: map<int, Tensor<V>>, i: nat, open: seq<ShardId>, outs: map<int, Tensor<V>>,
                              ghost good: set<ShardId>)
    returns (outs': map<int, Tensor<V>>, left: seq<ShardId>, failed: Option<ShardId>)
    requires HonestPeers(env, layer) && i < |env.polls(k)| && Polling(layer, x, env, k, g, outs0, i, open, outs)
    ensures Right(layer, x, outs') && Grown(g, outs0, outs')
    ensures failed.None? ==> Polling(layer, x, env, k, g, outs0, i + 1, left, outs')
    ensures failed.Some? ==> Blamed(env, k, x, g, outs', good, failed.value) && failed.value in g.order
  {
    var poll := env.polls(k)[i];
    outs', left := outs, open;
    failed := FirstAborted(open, poll.aborted);
    if failed.Some? {
      StoppedIsBlamed(layer, x, env, k, g, outs0, i, open, outs, good, failed.value);
      return;
    }
    outs', left, failed := CollectDone(layer, x, env, k, g, open, poll.done, outs);
    GrownMore(g, outs0, outs, outs', open);
    if failed.Some? {
      StoppedIsBlamed(layer, x, env, k, g, outs0, i, open, outs, good, failed.value);
      BlamedMore(env, k, x, g, outs, outs', good, failed.value);
      return;
    }
    if left != [] && poll.expired {
      failed := Some(left[0]);
      assert left[0] in left;
      StoppedIsBlamed(layer, x, env, k, g, outs0, i, open, outs, good, failed.value);
      BlamedMore(env, k, x, g, outs, outs', good, failed.value);
      return;
    }
    forall p | p in g.order && p !in left ensures AnsweredBy(g, p, outs') && GoesWell(env, k, x, g, p) {
      if p in open { DoneGoesWell(env, k, x, g, i, p); }
    }
    forall p | p in left ensures p in g.order && p in g.ids && StillOpen(env.polls(k), i + 1, p) {
      assert p in open && StillOpen(env.polls(k), i, p);
      assert left != [];
    }
  }

  lemma GrownMore<V>(g: Groups, outs0: map<int, Tensor<V>>, outs: map<int, Tensor<V>>, outs': map<int, Tensor<V>>,
                     open: seq<ShardId>)
    requires Grown(g, outs0, outs) && (forall p :: p in open ==> p in g.order)
    requires forall e :: e in outs ==> e in outs'
    requires forall e :: e in outs' ==> e in outs || AskedOf(g, open, e)
    ensures Grown(g, outs0, outs')
  {
    forall e | AskedOf(g, open, e) ensures AskedOf(g, g.order, e) {
      var p :| p in open && Asks(g, p, e);
      assert p in g.order;
    }
  }

  lemma BlamedMore<V>(env: Env<V>, k: nat, x: Tensor<V>, g: Groups, outs: map<int, Tensor<V>>,
                      outs': map<int, Tensor<V>>, good: set<ShardId>, p: ShardId)
    requires Blamed(env, k, x, g, outs, good, p) && forall e :: e in outs ==> e in outs'
    ensures Blamed(env, k, x, g, outs', good, p)
  {
    forall q | AnsweredBy(g, q, outs) ensures AnsweredBy(g, q, outs') {}
  }

  /** Poll until every future resolved, some peer aborted or raised, or the deadline passed. The environment's
      polls end when the deadline has passed. */
  method Gather<V(!new), W>(layer: Layer<V, W>, x: Tensor<V>, env: Env<V>, k: nat, g: Groups,
      outs0: map<int, Tensor<V>>,
                            ghost good: set<ShardId>)
    returns (outs: map<int, Tensor<V>>, failed: Option<ShardId>)
    requires HonestPeers(env, layer) && Right(layer, x, outs0) && forall p :: p in g.order <==> p in g.ids
    ensures Right(layer, x, outs)
    ensures failed.Some? ==> failed.value in g.ids
    ensures forall e :: e in outs0 ==> e in outs
    ensures forall e :: e in outs ==> e in outs0 || AskedOf(g, g.order, e)
    ensures failed.None? ==> forall e :: AskedOf(g, g.order, e) ==> e in outs
    ensures Steady(env, k, x, good) && failed.Some? ==> failed.value !in good
    ensures failed.Some? ==> EarlyKept(env.polls(k), g, failed.value, outs)
    ensures failed.None? <==> forall p :: p in g.order ==> GoesWell(env, k, x, g, p)
    ensures failed.Some? ==> !GoesWell(env, k, x, g, failed.value)
  {
    outs, failed := outs0, None;
    var open, i := g.order, 0;
    while open != []
      invariant failed.None? && Polling(layer, x, env, k, g, outs0, i, open, outs)
      decreases |env.polls(k)| - i
    {
      if i == |env.polls(k)| {
        failed := Some(open[0]);
        StoppedIsBlamed(layer, x, env, k, g, outs0, i, open, outs, good, open[0]);
        return;
      }
      outs, open, failed := PollOnce(layer, x, env, k, g, outs0, i, open, outs, good);
      if failed.Some? { return; }
      i := i + 1;
    }
  }

  /** Another peer than the failed one whose call returned before the round was closed. */
  ghost predicate Finishes<V>(env: Env<V>, k: nat, x: Tensor<V>, g: Groups, failed: ShardId, p: ShardId) {
    p != failed && p in g.ids && p in env.drained(k) && env.call(k, p, g.ids[p], x).Returned?
  }

  /** All such answers are among the outputs. */
  ghost predicate DrainedKept<V>(env: Env<V>, k: nat, x: Tensor<V>, g: Groups, failed: ShardId,
                                 outs: map<int, Tensor<V>>) {
    forall p :: Finishes(env, k, x, g, failed, p) ==> AnsweredBy(g, p, outs)
  }

  /** Keep what survivors finished while the failed round was being closed. */
  method Drain<V(!new), W>(layer: Layer<V, W>, x: Tensor<V>, env: Env<V>, k: nat, g: Groups, failed: ShardId,
                     outs0: map<int, Tensor<V>>) returns (outs: map<int, Tensor<V>>)
    requires HonestPeers(env, layer) && Right(layer, x, outs0) && forall p :: p in g.order <==> p in g.ids
    ensures Right(layer, x, outs)
    ensures forall e :: e in outs0 ==> e in outs
    ensures forall e :: e in outs ==> e in outs0 || AskedOf(g, g.order, e)
    ensures DrainedKept(env, k, x, g, failed, outs)
  {
    outs := outs0;
    for i := 0 to |g.order|
      invariant Right(layer, x, outs)
      invariant forall j :: 0 <= j < i && Finishes(env, k, x, g, failed, g.order[j]) ==> AnsweredBy(g, g.order[j], outs)
      invariant forall e :: e in outs0 ==> e in outs
      invariant forall e :: e in outs ==> e in outs0 || AskedOf(g, g.order, e)
    {
      var p := g.order[i];
      if p != failed && p in env.drained(k) {
        var answer := env.call(k, p, g.ids[p], x);
        if answer.Returned? { outs := outs + answer.outs; }
      }
    }
  }

  function Missing<V>(ids: seq<int>, outs: map<int, Tensor<V>>): seq<int> {
    if ids == [] then []
    else (if ids[0] in outs then [] else [ids[0]]) + Missing(ids[1..], outs)
  }

  lemma {:induction false} MissingMembers<V>(ids: seq<int>, outs: map<int, Tensor<V>>)
    ensures forall e :: e in Missing(ids, outs) <==> e in ids && e !in outs
    ensures Distinct(ids) ==> Distinct(Missing(ids, outs))
  {
    if ids != [] {
      MissingMembers(ids[1..], outs);
      if Distinct(ids) { assert Distinct(ids[1..]); }
    }
  }

  // ------------------------------------------------------------ retry loop

  /** One gather round: what was asked of whom, what was excluded and what was already there. */
  datatype Round = Round(remote: Groups, local: seq<int>, excluded: set<ShardId>, have: set<int>,
      failed: Option<ShardId>)

  /** The round partitions exactly the ids still missing, over peers not excluded. */
  ghost predicate RoundOk(rd: Round, needed: seq<int>, self: ShardId) {
    && (forall p :: p in rd.remote.ids ==> p != self && p !in rd.excluded)
    && (forall p, e :: Asks(rd.remote, p, e) ==> e in needed && e !in rd.have && e !in rd.local)
    && Apart(rd.remote)
    && (forall e :: e in rd.local ==> e in needed && e !in rd.have)
    && (forall e :: e in needed && e !in rd.have && e !in rd.local ==> exists p :: Asks(rd.remote, p, e))
    && (rd.failed.Some? ==> rd.failed.value in rd.remote.ids)
  }

  /** Rounds chain: each but the last failed, its peer is excluded from then on, and outputs are never lost. */
  ghost predicate RoundsOk(rounds: seq<Round>, needed: seq<int>, self: ShardId) {
    && (forall i :: 0 <= i < |rounds| ==> RoundOk(rounds[i], needed, self))
    && (forall i :: 0 <= i < |rounds| - 1 ==> Follows(rounds[i], rounds[i + 1]))
  }

  ghost predicate Follows(a: Round, b: Round) {
    && a.failed.Some? && b.excluded == a.excluded + {a.failed.value}
    && forall e :: e in a.have || e in a.local ==> e in b.have
  }

  ghost predicate AskedAnyone(rounds: seq<Round>) {
    exists i :: 0 <= i < |rounds| && rounds[i].remote.order != []
  }

  /** The next dispatch covers what is missing from `have`, and it continues the rounds so far. */
  ghost predicate Progress<V>(rounds: seq<Round>, d: Dispatch<V>, have: map<int, Tensor<V>>, excluded: set<ShardId>,
                              needed: seq<int>, self: ShardId) {
    && Covers(d.remote, d.local, Missing(needed, have), self, excluded)
    && RoundsOk(rounds, needed, self)
    && (rounds != [] ==> Follows(rounds[|rounds| - 1], Round(d.remote, d.local, excluded, have.Keys, None)))
  }

  /** Outputs so far: right, needed, and exactly what was there plus what was computed here. */
  ghost predicate Kept<V, W>(layer: Layer<V, W>, x: Tensor<V>, outs: map<int, Tensor<V>>, have: map<int, Tensor<V>>,
                             local: seq<int>, needed: seq<int>) {
    && Right(layer, x, outs)
    && (forall e :: e in outs ==> e in needed)
    && (forall e :: e in outs <==> e in have || e in local)
  }

  lemma CoversIsRound<V>(d: Dispatch<V>, needed: seq<int>, have: map<int, Tensor<V>>, self: ShardId,
                         gone: set<ShardId>, failed: Option<ShardId>)
    requires Covers(d.remote, d.local, Missing(needed, have), self, gone)
    requires (failed.Some? ==> failed.value in d.remote.ids)
    ensures RoundOk(Round(d.remote, d.local, gone, have.Keys, failed), needed, self)
  {
    MissingMembers(needed, have);
  }

  lemma AppendRound(rounds: seq<Round>, rd: Round, needed: seq<int>, self: ShardId)
    requires RoundsOk(rounds, needed, self) && RoundOk(rd, needed, self)
    requires rounds != [] ==> Follows(rounds[|rounds| - 1], rd)
    ensures RoundsOk(rounds + [rd], needed, self)
  {
    var all := rounds + [rd];
    forall i | 0 <= i < |all| ensures RoundOk(all[i], needed, self) {}
    forall i | 0 <= i < |all| - 1 ensures Follows(all[i], all[i + 1]) {
      if i < |rounds| - 1 { assert all[i] == rounds[i] && all[i + 1] == rounds[i + 1]; }
    }
  }

  lemma RoundHappened<V>(rounds: seq<Round>, d: Dispatch<V>, have: map<int, Tensor<V>>, excluded: set<ShardId>,
                         needed: seq<int>, self: ShardId, failed: Option<ShardId>)
    requires Progress(rounds, d, have, excluded, needed, self) && (failed.Some? ==> failed.value in d.remote.ids)
    ensures RoundsOk(rounds + [Round(d.remote, d.local, excluded, have.Keys, failed)], needed, self)
  {
    CoversIsRound(d, needed, have, self, excluded, failed);
    AppendRound(rounds, Round(d.remote, d.local, excluded, have.Keys, failed), needed, self);
  }

  lemma NextProgress<V>(rounds: seq<Round>, d: Dispatch<V>, have: map<int, Tensor<V>>, excluded: set<ShardId>,
                        needed: seq<int>, self: ShardId, failed: ShardId, d': Dispatch<V>, have': map<int, Tensor<V>>)
    requires Progress(rounds, d, have, excluded, needed, self) && failed in d.remote.ids
    requires Covers(d'.remote, d'.local, Missing(needed, have'), self, excluded + {failed})
    requires forall e :: e in have || e in d.local ==> e in have'
    ensures Progress(rounds + [Round(d.remote, d.local, excluded, have.Keys, Some(failed))], d', have',
                     excluded + {failed}, needed, self)
  {
    RoundHappened(rounds, d, have, excluded, needed, self, Some(failed));
  }

  lemma {:induction false} MissingNone<V>(ids: seq<int>)
    ensures Missing<V>(ids, map[]) == ids
  {
    if ids != [] { MissingNone<V>(ids[1..]); }
  }

  lemma AskedAppend(rounds: seq<Round>, rd: Round)
    ensures AskedAnyone(rounds + [rd]) <==> AskedAnyone(rounds) || rd.remote.order != []
  {
    var all := rounds + [rd];
    assert all[|rounds|] == rd;
    if AskedAnyone(rounds) {
      var i :| 0 <= i < |rounds| && rounds[i].remote.order != [];
      assert all[i].remote.order != [];
    }
  }

  lemma GatheredNeeded<V, W>(layer: Layer<V, W>, x: Tensor<V>, outs: map<int, Tensor<V>>, outs': map<int, Tensor<V>>,
                             d: Dispatch<V>, have: map<int, Tensor<V>>, needed: seq<int>, self: ShardId,
                             gone: set<ShardId>)
    requires Kept(layer, x, outs, have, d.local, needed)
    requires Covers(d.remote, d.local, Missing(needed, have), self, gone)
    requires forall e :: e in outs ==> e in outs'
    requires forall e :: e in outs' ==> e in outs || AskedOf(d.remote, d.remote.order, e)
    ensures forall e :: e in outs' ==> e in needed
    ensures (forall e :: AskedOf(d.remote, d.remote.order, e) ==> e in outs') ==> forall e :: e in needed ==> e in outs'
  {
    MissingMembers(needed, have);
    if forall e :: AskedOf(d.remote, d.remote.order, e) ==> e in outs' {
      forall e | e in needed ensures e in outs' {
        if e !in have && e !in d.local {
          var p :| Asks(d.remote, p, e);
          assert AskedOf(d.remote, d.remote.order, e);
        }
      }
    }
  }

  /** Over all rounds, not just neighbours: a peer that failed and an id already answered are never asked again,
      so no peer fails twice. */
  lemma {:induction false} NeverAskedAgain(rounds: seq<Round>, needed: seq<int>, self: ShardId, i: nat, j: nat)
    requires RoundsOk(rounds, needed, self) && i < j < |rounds|
    ensures rounds[i].failed.Some? && rounds[i].failed.value in rounds[j].excluded
    ensures rounds[i].failed.value !in rounds[j].remote.ids && rounds[j].failed != rounds[i].failed
    ensures forall e :: e in rounds[i].have || e in rounds[i].local ==> e in rounds[j].have
    ensures forall e, p :: (e in rounds[i].have || e in rounds[i].local) ==> !Asks(rounds[j].remote, p, e)
    decreases j - i
  {
    assert RoundOk(rounds[j], needed, self) && Follows(rounds[j - 1], rounds[j]);
    if i < j - 1 { NeverAskedAgain(rounds, needed, self, i, j - 1); }
  }

  // ------------------------------------------------------------ the layer

  ghost function OneNodeRow<V, W>(layer: Layer<V, W>, r: Routed<V, W>, b: nat): (row: seq<V>)
    requires Shaped(layer, r) && b < |r.ids| && FilledRow(r, b)
    ensures |row| == |r.ids[b]| && forall l :: 0 <= l < |row| ==> row[l] == PositionValue(layer, r, b, l)
  {
    seq(|r.ids[b]|, l requires 0 <= l < |r.ids[b]| => PositionValue(layer, r, b, l))
  }

  ghost function OneNodeBlock<V, W>(layer: Layer<V, W>, r: Routed<V, W>): (block: Tensor<V>)
    requires Shaped(layer, r) && Filled(r)
    ensures |block| == |r.ids| && forall b :: 0 <= b < |block| ==> block[b] == OneNodeRow(layer, r, b)
  {
    seq(|r.ids|, b requires 0 <= b < |r.ids| => OneNodeRow(layer, r, b))
  }

  /** The layer on one node that holds every expert. */
  ghost function OneNodeLayer<V, W>(layer: Layer<V, W>, h: Tensor<V>): Tensor<V>
    requires Shaped(layer, layer.route(h)) && Filled(layer.route(h))
  {
    layer.outer(OneNodeBlock(layer, layer.route(h)), layer.route(h).postAttn)
  }

  lemma BlockIsOneNode<V, W>(layer: Layer<V, W>, r: Routed<V, W>, block: Tensor<V>)
    requires Shaped(layer, r) && Filled(r) && IsBlock(layer, r, block)
    ensures block == OneNodeBlock(layer, r)
  {
    forall b | 0 <= b < |block| ensures block[b] == OneNodeRow(layer, r, b) {
      assert IsRow(layer, r, b, block[b]);
    }
  }

  function InsertId(e: int, ids: seq<int>): seq<int> {
    if ids == [] || e < ids[0] then [e] + ids
    else if e == ids[0] then ids
    else [ids[0]] + InsertId(e, ids[1..])
  }

  ghost predicate Ascending(ids: seq<int>) { forall i, j :: 0 <= i < j < |ids| ==> ids[i] < ids[j] }

  lemma {:induction false} InsertIdSpec(e: int, ids: seq<int>)
    requires Ascending(ids)
    ensures Ascending(InsertId(e, ids))
    ensures forall x :: x in InsertId(e, ids) <==> x == e || x in ids
  {
    if ids != [] && e > ids[0] {
      InsertIdSpec(e, ids[1..]);
      var rest := InsertId(e, ids[1..]);
      forall j | 0 <= j < |rest| ensures ids[0] < rest[j] { assert rest[j] in rest; }
    }
  }

  /** The sorted union of all top-k ids. */
  method CollectIds<V, W>(r: Routed<V, W>) returns (ids: seq<int>)
    ensures Ascending(ids) && forall e :: e in ids <==> Routes(r, e)
  {
    ids := [];
    for b := 0 to |r.ids|
      invariant Ascending(ids)
      invariant forall e :: e in ids <==> exists i, l :: 0 <= i < b && 0 <= l < |r.ids[i]| && e in r.ids[i][l]
    {
      for l := 0 to |r.ids[b]|
        invariant Ascending(ids)
        invariant forall e :: e in ids <==> (exists i, m :: 0 <= i < b && 0 <= m < |r.ids[i]| && e in r.ids[i][m])
                                            || exists m :: 0 <= m < l && e in r.ids[b][m]
      {
        ghost var ids0 := ids;
        for j := 0 to |r.ids[b][l]|
          invariant Ascending(ids)
          invariant forall e :: e in ids <==> e in ids0 || e in r.ids[b][l][..j]
        {
          InsertIdSpec(r.ids[b][l][j], ids);
          ids := InsertId(r.ids[b][l][j], ids);
        }
        assert r.ids[b][l][..|r.ids[b][l]|] == r.ids[b][l];
      }
    }
  }

  ghost function RoutedIds<V, W>(r: Routed<V, W>): (ids: set<int>)
    ensures forall e :: e in ids <==> Routes(r, e)
  {
    set b, l, e | 0 <= b < |r.ids| && 0 <= l < |r.ids[b]| && e in r.ids[b][l] :: e
  }

  lemma SteadyFewer<V>(env: Env<V>, k: nat, x: Tensor<V>, good: set<ShardId>, fewer: set<ShardId>)
    requires Steady(env, k, x, good) && fewer <= good
    ensures Steady(env, k, x, fewer)
  {}

  /** How one gather round ends. */
  datatype Outcome<V> =
    | Finished(outs: map<int, Tensor<V>>)
    | GaveUp(error: Failure)
    | Again(d: Dispatch<V>, outs: map<int, Tensor<V>>, have: map<int, Tensor<V>>)

  class ExpertOrchestrator {
    const self: ShardId
    const owners: seq<Owner>
    const held: seq<int>
    const maxAttempts: int
    /** Requests with outstanding peer calls, and the peers whose abort events they registered. */
    var inFlight: map<string, set<ShardId>>

    constructor (self: ShardId, owners: seq<Owner>, held: seq<int>, maxAttempts: int)
      ensures inFlight == map[]
    {
      this.self, this.owners, this.held, this.maxAttempts := self, owners, held, maxAttempts;
      inFlight := map[];
    }

    method Register(request: string, g: Groups)
      modifies this`inFlight
      ensures inFlight == if g.order == [] then old(inFlight) else old(inFlight)[request := set p | p in g.order]
    {
      if g.order != [] { inFlight := inFlight[request := set p | p in g.order]; }
    }

    /** After a failed round: keep what survivors finished, then route what is missing elsewhere. */
    method Reroute<V(!new), W>(layer: Layer<V, W>, x: Tensor<V>, env: Env<V>, k: nat, needed: seq<int>, g: Groups,
                               failed: ShardId, outs0: map<int, Tensor<V>>, excluded: set<ShardId>)
      returns (outs: map<int, Tensor<V>>, done: bool, next: Result<Dispatch<V>>)
      requires HonestPeers(env, layer) && Distinct(needed) && Right(layer, x, outs0)
      requires forall p :: p in g.order <==> p in g.ids
      ensures Right(layer, x, outs)
      ensures forall e :: e in outs0 ==> e in outs
      ensures forall e :: e in outs ==> e in outs0 || AskedOf(g, g.order, e)
      ensures done ==> forall e :: e in needed ==> e in outs
      ensures DrainedKept(env, k, x, g, failed, outs)
      ensures !done && next.Ok? ==>
                Covers(next.value.remote, next.value.local, Missing(needed, outs), self, excluded + {failed})
                                    && Answers(layer, x, next.value.local, next.value.outs)
      ensures next.Err? ==> next.error.NoOwner? || next.error.NotHeld?
      ensures !done && next.Ok? ==> next.value.remote.ids.Keys <= PeersOf(env, k + 1, owners, self, IdSet(needed))
      ensures !done && Replaceable(env, k + 1, needed, excluded + {failed}) ==> next.Ok?
    {
      outs := Drain(layer, x, env, k, g, failed, outs0);
      MissingMembers(needed, outs);
      var missing := Missing(needed, outs);
      done := missing == [];
      next := Err(NoOwner(0));
      if !done {
        next := Route(layer, x, env, k + 1, owners, held, self, missing, excluded + {failed});
        PeersFewer(env, k + 1, owners, self, IdSet(missing), IdSet(needed));
      }
    }

    /** The first dispatch, before anything has failed. */
    method Launch<V(!new), W>(layer: Layer<V, W>, x: Tensor<V>, env: Env<V>, needed: seq<int>)
      returns (r: Result<Dispatch<V>>)
      requires Distinct(needed)
      ensures r.Ok? ==> Progress([], r.value, map[], {}, needed, self)
                        && Kept(layer, x, r.value.outs, map[], r.value.local, needed)
      ensures r.Err? ==> !r.error.PeerFailed?
      ensures (forall e :: e in needed ==> Servable(env, 1, owners, held, self, {}, e)) ==> r.Ok?
      ensures r.Ok? ==> r.value.remote.ids.Keys <= PeersOf(env, 1, owners, self, IdSet(needed))
    {
      MissingNone<V>(needed);
      r := Route(layer, x, env, 1, owners, held, self, needed, {});
    }

    /** Every id can still be placed without the excluded shards. */
    ghost predicate Replaceable<V>(env: Env<V>, k: nat, ids: seq<int>, gone: set<ShardId>) {
      forall e :: e in ids ==> Servable(env, k, owners, held, self, gone, e)
    }

    /** Gather one round; on failure give up on the last attempt, otherwise reroute. */
    method Attempt<V(!new), W>(layer: Layer<V, W>, x: Tensor<V>, env: Env<V>, k: nat, needed: seq<int>, d: Dispatch<V>,
                               outs: map<int, Tensor<V>>, excluded: set<ShardId>, lastAttempt: bool,
                               ghost rounds: seq<Round>, ghost have: map<int, Tensor<V>>, ghost good: set<ShardId>)
      returns (o: Outcome<V>, failed: Option<ShardId>)
      requires HonestPeers(env, layer) && Distinct(needed)
      requires Progress(rounds, d, have, excluded, needed, self) && Kept(layer, x, outs, have, d.local, needed)
      ensures RoundsOk(rounds + [Round(d.remote, d.local, excluded, have.Keys, failed)], needed, self)
      ensures o.Finished? ==> Answers(layer, x, needed, o.outs)
      ensures failed.Some? ==> failed.value in d.remote.ids && failed.value !in excluded
      ensures Steady(env, k, x, good) && failed.Some? ==> failed.value !in good
      ensures o.GaveUp? ==> failed.Some? && (o.error.PeerFailed? ==> o.error.peer == failed.value)
      ensures o.GaveUp? ==> lastAttempt || !Replaceable(env, k + 1, needed, excluded + {failed.value})
      ensures o.Again? ==> o.d.remote.ids.Keys <= PeersOf(env, k + 1, owners, self, IdSet(needed))
      ensures o.Again? ==> failed.Some? && DrainedKept(env, k, x, d.remote, failed.value, o.have)
      ensures o.Again? ==> !lastAttempt && failed.Some?
                           && Progress(rounds + [Round(d.remote, d.local, excluded, have.Keys, failed)], o.d, o.have,
                                       excluded + {failed.value}, needed, self)
                           && Kept(layer, x, o.outs, o.have, o.d.local, needed)
    {
      var outs1, failed1 := Gather(layer, x, env, k, d.remote, outs, good);
      failed := failed1;
      RoundHappened(rounds, d, have, excluded, needed, self, failed);
      GatheredNeeded(layer, x, outs, outs1, d, have, needed, self, excluded);
      if failed.None? { return Finished(outs1), failed; }
      if lastAttempt { return GaveUp(PeerFailed(failed.value)), failed; }
      var outs2, done, next := Reroute(layer, x, env, k, needed, d.remote, failed.value, outs1, excluded);
      GatheredNeeded(layer, x, outs, outs2, d, have, needed, self, excluded);
      if done { return Finished(outs2), failed; }
      if next.Err? { return GaveUp(if next.error.NoOwner? then PeerFailed(failed.value) else next.error), failed; }
      NextProgress(rounds, d, have, excluded, needed, self, failed.value, next.value, outs2);
      MissingMembers(needed, outs2);
      o := Again(next.value, outs2 + next.value.outs, outs2);
    }

    /** The bad peers are fewer than the attempts, every other shard that may be asked keeps its word, and every id can
        be placed whichever bad peers are excluded. */
    ghost predicate Weathers<V>(env: Env<V>, x: Tensor<V>, ids: set<int>, bad: set<ShardId>) {
      && |bad| < Max(1, maxAttempts)
      && (forall k: nat :: SteadyBut(env, k, x, ids, bad))
      && (forall k: nat, gone: set<ShardId>, e :: gone <= bad && e in ids ==>
             Servable(env, k, owners, held, self, gone, e))
    }

    ghost predicate SteadyBut<V>(env: Env<V>, k: nat, x: Tensor<V>, ids: set<int>, bad: set<ShardId>) {
      Steady(env, k, x, PeersOf(env, k, owners, self, ids) - bad)
    }

    lemma WeathersFewer<V>(env: Env<V>, x: Tensor<V>, ids: set<int>, bad: set<ShardId>, fewer: set<int>)
      requires Weathers(env, x, ids, bad) && fewer <= ids
      ensures Weathers(env, x, fewer, bad)
    {
      forall k: nat ensures SteadyBut(env, k, x, fewer, bad) {
        assert SteadyBut(env, k, x, ids, bad);
        PeersFewer(env, k, owners, self, fewer, ids);
        SteadyFewer(env, k, x, PeersOf(env, k, owners, self, ids) - bad, PeersOf(env, k, owners, self, fewer) - bad);
      }
    }

    lemma WeathersAtFirst<V>(env: Env<V>, x: Tensor<V>, needed: seq<int>, bad: set<ShardId>)
      requires Weathers(env, x, IdSet(needed), bad)
      ensures forall e :: e in needed ==> Servable(env, 1, owners, held, self, {}, e)
    {
      forall e | e in needed ensures Servable(env, 1, owners, held, self, {}, e) { assert e in IdSet(needed); }
    }

    /** So far only bad peers were excluded, one per failed round, and only owners are asked next. */
    ghost predicate OnCourse<V>(env: Env<V>, ids: set<int>, bad: set<ShardId>, excluded: set<ShardId>, rounds: nat,
                                asked: set<ShardId>) {
      excluded <= bad && |excluded| == rounds && asked <= PeersOf(env, rounds + 1, owners, self, ids)
    }

    /** Another failure is a bad peer's, so it is not the last attempt and the ids can be placed again. */
    lemma BlameIsBad<V>(env: Env<V>, x: Tensor<V>, needed: seq<int>, bad: set<ShardId>, excluded: set<ShardId>,
                        rounds: nat, asked: set<ShardId>, failed: ShardId)
      requires Weathers(env, x, IdSet(needed), bad) && OnCourse(env, IdSet(needed), bad, excluded, rounds, asked)
      requires failed in asked && failed !in excluded
      requires failed !in PeersOf(env, rounds + 1, owners, self, IdSet(needed)) - bad
      ensures excluded + {failed} <= bad && |excluded + {failed}| == rounds + 1 < Max(1, maxAttempts)
      ensures Replaceable(env, rounds + 2, needed, excluded + {failed})
    {
      var gone := excluded + {failed};
      assert bad == gone + (bad - gone);
      forall e | e in needed ensures Servable(env, rounds + 2, owners, held, self, gone, e) {
        assert e in IdSet(needed);
      }
    }

    /** A gather round on course: it never gives up, and what it dispatches next is on course too. */
    method Weather<V(!new), W>(layer: Layer<V, W>, x: Tensor<V>, env: Env<V>, k: nat, needed: seq<int>, d: Dispatch<V>,
                               outs: map<int, Tensor<V>>, excluded: set<ShardId>, ghost rounds: seq<Round>,
                               ghost have: map<int, Tensor<V>>, ghost bad: set<ShardId>)
      returns (o: Outcome<V>, failed: Option<ShardId>)
      requires HonestPeers(env, layer) && Distinct(needed) && k >= 1
      requires Progress(rounds, d, have, excluded, needed, self) && Kept(layer, x, outs, have, d.local, needed)
      ensures RoundsOk(rounds + [Round(d.remote, d.local, excluded, have.Keys, failed)], needed, self)
      ensures o.Finished? ==> Answers(layer, x, needed, o.outs)
      ensures o.GaveUp? ==> failed.Some? && (o.error.PeerFailed? ==> o.error.peer == failed.value)
      ensures o.Again? ==> k < maxAttempts && failed.Some?
                           && Progress(rounds + [Round(d.remote, d.local, excluded, have.Keys, failed)], o.d, o.have,
                                       excluded + {failed.value}, needed, self)
                           && Kept(layer, x, o.outs, o.have, o.d.local, needed)
      ensures Weathers(env, x, IdSet(needed), bad) ==>
                OnCourse(env, IdSet(needed), bad, excluded, k - 1, d.remote.ids.Keys) ==>
                  StaysOnCourse(env, k, needed, bad, excluded, o, failed)
    {
      ghost var good := PeersOf(env, k, owners, self, IdSet(needed)) - bad;
      o, failed := Attempt(layer, x, env, k, needed, d, outs, excluded, k >= maxAttempts, rounds, have, good);
      if Weathers(env, x, IdSet(needed), bad) && OnCourse(env, IdSet(needed), bad, excluded, k - 1, d.remote.ids.Keys)
         && !o.Finished? {
        assert SteadyBut(env, k, x, IdSet(needed), bad);
        BlameIsBad(env, x, needed, bad, excluded, k - 1, d.remote.ids.Keys, failed.value);
      }
    }

    ghost predicate StaysOnCourse<V>(env: Env<V>, k: nat, needed: seq<int>, bad: set<ShardId>, excluded: set<ShardId>,
                                     o: Outcome<V>, failed: Option<ShardId>) {
      !o.GaveUp?
      && (o.Again? ==> failed.Some?
                       && OnCourse(env, IdSet(needed), bad, excluded + {failed.value}, k, o.d.remote.ids.Keys))
    }

    /** The retry loop's state before a round: what is dispatched continues the rounds so far, outputs are right, and
        under the given condition the course is kept. */
    ghost predicate Underway<V, W>(layer: Layer<V, W>, x: Tensor<V>, env: Env<V>, needed: seq<int>, bad: set<ShardId>,
                                   d: Dispatch<V>, outs: map<int, Tensor<V>>, excluded: set<ShardId>,
                                   rounds: seq<Round>, have: map<int, Tensor<V>>) {
      && Progress(rounds, d, have, excluded, needed, self) && Kept(layer, x, outs, have, d.local, needed)
      && (Weathers(env, x, IdSet(needed), bad) ==>
            OnCourse(env, IdSet(needed), bad, excluded, |rounds|, d.remote.ids.Keys))
    }

    /** How the loop may leave: a result answers everything, a failure names the peer of the last round. */
    ghost predicate Concluded<V, W>(layer: Layer<V, W>, x: Tensor<V>, env: Env<V>, needed: seq<int>, bad: set<ShardId>,
                                    r: Result<map<int, Tensor<V>>>, rounds: seq<Round>) {
      && (r.Ok? ==> Answers(layer, x, needed, r.value)) && (Weathers(env, x, IdSet(needed), bad) ==> r.Ok?)
      && (r.Err? && r.error.PeerFailed? ==> rounds != [] && rounds[|rounds| - 1].failed == Some(r.error.peer))
    }

    /** One pass of the retry loop: gather, then leave or register the next dispatch. */
    method Turn<V(!new), W>(layer: Layer<V, W>, x: Tensor<V>, env: Env<V>, request: string, needed: seq<int>, k: nat,
                            d0: Dispatch<V>, outs0: map<int, Tensor<V>>, excluded0: set<ShardId>, registered0: bool,
                            ghost rounds0: seq<Round>, ghost have0: map<int, Tensor<V>>, ghost bad: set<ShardId>)
      returns (r: Option<Result<map<int, Tensor<V>>>>, d: Dispatch<V>, outs: map<int, Tensor<V>>,
               excluded: set<ShardId>, registered: bool, ghost rounds: seq<Round>, ghost have: map<int, Tensor<V>>)
      requires HonestPeers(env, layer) && Distinct(needed) && k == |rounds0| + 1
      requires Underway(layer, x, env, needed, bad, d0, outs0, excluded0, rounds0, have0)
      requires registered0 <==> AskedAnyone(rounds0) || d0.remote.order != []
      modifies this`inFlight
      ensures |rounds| == k && RoundsOk(rounds, needed, self)
      ensures r.Some? ==>
                Concluded(layer, x, env, needed, bad, r.value, rounds) && (registered <==> AskedAnyone(rounds))
      ensures r.None? ==> k < maxAttempts && Underway(layer, x, env, needed, bad, d, outs, excluded, rounds, have)
      ensures r.None? ==> (registered <==> AskedAnyone(rounds) || d.remote.order != [])
      ensures inFlight - {request} == old(inFlight) - {request} && (registered0 ==> registered)
      ensures !registered ==> inFlight == old(inFlight)
    {
      d, outs, excluded, registered, have := d0, outs0, excluded0, registered0, have0;
      var o, failed := Weather(layer, x, env, k, needed, d, outs, excluded, rounds0, have, bad);
      rounds := rounds0 + [Round(d.remote, d.local, excluded, have.Keys, failed)];
      AskedAppend(rounds0, Round(d.remote, d.local, excluded, have.Keys, failed));
      if o.Finished? {
        r := Some(Ok(o.outs));
      } else if o.GaveUp? {
        r := Some(Err(o.error));
      } else {
        r, d, outs, have, excluded := None, o.d, o.outs, o.have, excluded + {failed.value};
        Register(request, d.remote);
        registered := registered || d.remote.order != [];
      }
    }

    /** The retry loop from a first dispatch on. */
    method Retry<V(!new), W>(layer: Layer<V, W>, x: Tensor<V>, env: Env<V>, request: string, needed: seq<int>,
                             d0: Dispatch<V>, ghost bad: set<ShardId>)
      returns (r: Result<map<int, Tensor<V>>>, registered: bool, ghost rounds: seq<Round>)
      requires HonestPeers(env, layer) && Distinct(needed)
      requires Underway(layer, x, env, needed, bad, d0, d0.outs, {}, [], map[])
      modifies this`inFlight
      ensures RoundsOk(rounds, needed, self) && |rounds| <= Max(1, maxAttempts)
      ensures Concluded(layer, x, env, needed, bad, r, rounds)
      ensures inFlight - {request} == old(inFlight) - {request} && (registered <==> AskedAnyone(rounds))
      ensures !registered ==> inFlight == old(inFlight)
    {
      rounds := [];
      var d, outs := d0, d0.outs;
      Register(request, d.remote);
      registered := d.remote.order != [];
      var excluded: set<ShardId>, attempts := {}, 0;
      ghost var have: map<int, Tensor<V>> := map[];
      while true
        invariant 0 <= attempts == |rounds| && (attempts == 0 || attempts < maxAttempts)
        invariant Underway(layer, x, env, needed, bad, d, outs, excluded, rounds, have)
        invariant registered <==> AskedAnyone(rounds) || d.remote.order != []
        invariant inFlight - {request} == old(inFlight) - {request}
        invariant !registered ==> inFlight == old(inFlight)
        decreases maxAttempts - attempts
      {
        attempts := attempts + 1;
        var result;
        result, d, outs, excluded, registered, rounds, have :=
          Turn(layer, x, env, request, needed, attempts, d, outs, excluded, registered, rounds, have, bad);
        if result.Some? { return result.value, registered, rounds; }
      }
    }

    /** Fan out with retries. Kept outputs are never asked for again, failed peers never asked again, and at most
        max(1, maxAttempts) gather rounds happen. */
    method PhaseBWithRetry<V(!new), W>(layer: Layer<V, W>, x: Tensor<V>, env: Env<V>, request: string, needed: seq<int>,
                                       ghost bad: set<ShardId>)
      returns (r: Result<map<int, Tensor<V>>>, ghost rounds: seq<Round>)
      requires HonestPeers(env, layer) && Distinct(needed)
      modifies this`inFlight
      ensures r.Ok? ==> Answers(layer, x, needed, r.value)
      ensures Weathers(env, x, IdSet(needed), bad) ==> r.Ok?
      ensures RoundsOk(rounds, needed, self) && |rounds| <= Max(1, maxAttempts)
      ensures r.Err? && r.error.PeerFailed? ==> rounds != [] && rounds[|rounds| - 1].failed == Some(r.error.peer)
      ensures inFlight == if AskedAnyone(rounds) then old(inFlight) - {request} else old(inFlight)
    {
      if Weathers(env, x, IdSet(needed), bad) { WeathersAtFirst(env, x, needed, bad); }
      var first := Launch(layer, x, env, needed);
      if first.Err? { return Err(first.error), []; }
      var registered;
      r, registered, rounds := Retry(layer, x, env, request, needed, first.value, bad);
      ghost var after := inFlight;
      if registered { inFlight := inFlight - {request}; }
      assert registered ==> inFlight == after - {request};
    }

    /** A layer that must succeed: the routing is full and the fan-out weathers the bad peers. */
    ghost predicate Serviceable<V, W>(layer: Layer<V, W>, h: Tensor<V>, env: Env<V>, bad: set<ShardId>) {
      Filled(layer.route(h)) && Weathers(env, layer.route(h).postAttn, RoutedIds(layer.route(h)), bad)
    }

    /** Some routed expert has no owner at all when the layer is first routed. */
    ghost predicate Ownerless<V, W>(layer: Layer<V, W>, h: Tensor<V>, env: Env<V>) {
      exists e :: Routes(layer.route(h), e) && Remaining(env, 0, owners, {}, e) == []
    }

    /** Every routed expert's output, computed here or fetched. */
    method FanOut<V(!new), W>(layer: Layer<V, W>, h: Tensor<V>, env: Env<V>, request: string, ghost bad: set<ShardId>)
      returns (outs: Result<map<int, Tensor<V>>>)
      requires HonestPeers(env, layer)
      modifies this`inFlight
      ensures outs.Ok? ==> Right(layer, layer.route(h).postAttn, outs.value)
      ensures outs.Ok? ==> forall e :: Routes(layer.route(h), e) ==> e in outs.value
      ensures Serviceable(layer, h, env, bad) ==> outs.Ok?
      ensures Ownerless(layer, h, env) ==> outs.Err? && outs.error.NoOwner?
      ensures request !in old(inFlight) ==> inFlight == old(inFlight)
    {
      var routed := layer.route(h);
      var all := CollectIds(routed);
      if Serviceable(layer, h, env, bad) {
        forall e | e in all ensures Servable(env, 0, owners, held, self, {}, e) { assert e in RoutedIds(routed); }
      }
      var phaseA := Route(layer, routed.postAttn, env, 0, owners, held, self, all, {});
      if phaseA.Err? { return Err(phaseA.error); }
      var local := phaseA.value.outs;
      var needed := Missing(all, local);
      MissingMembers(all, local);
      if Serviceable(layer, h, env, bad) {
        forall e | e in IdSet(needed) ensures e in RoutedIds(routed) { assert e in all; }
        WeathersFewer(env, routed.postAttn, RoutedIds(routed), bad, IdSet(needed));
      }
      var remote, _ := PhaseBWithRetry(layer, routed.postAttn, env, request, needed, bad);
      if remote.Err? { return Err(remote.error); }
      outs := Ok(local + remote.value);
    }

    /** What a split layer promises of its result. */
    ghost predicate Promised<V, W>(layer: Layer<V, W>, h: Tensor<V>, env: Env<V>, out: Result<Tensor<V>>)
      requires Shaped(layer, layer.route(h))
    {
      && (out.Ok? ==> Filled(layer.route(h)) && out.value == OneNodeLayer(layer, h))
      && (Ownerless(layer, h, env) ==> out.Err? && out.error.NoOwner?)
    }

    /** One decoder layer with its experts spread over shards. Whatever it returns is the one-node layer. */
    method RunSplitLayer<V(!new), W>(layer: Layer<V, W>, h: Tensor<V>, env: Env<V>, request: string,
        ghost bad: set<ShardId>)
      returns (out: Result<Tensor<V>>)
      requires HonestPeers(env, layer) && Shaped(layer, layer.route(h))
      modifies this`inFlight
      ensures Promised(layer, h, env, out)
      ensures Serviceable(layer, h, env, bad) ==> out.Ok?
      ensures request !in old(inFlight) ==> inFlight == old(inFlight)
    {
      var outs := FanOut(layer, h, env, request, bad);
      if outs.Err? { return Err(outs.error); }
      out := Combine(layer, h, outs.value);
    }
  }

  /** Aggregate the outputs and apply the outer operations. */
  method Combine<V, W>(layer: Layer<V, W>, h: Tensor<V>, outs: map<int, Tensor<V>>) returns (out: Result<Tensor<V>>)
    requires Shaped(layer, layer.route(h)) && Right(layer, layer.route(h).postAttn, outs)
    requires forall e :: Routes(layer.route(h), e) ==> e in outs
    ensures out.Ok? <==> Filled(layer.route(h))
    ensures out.Ok? ==> out.value == OneNodeLayer(layer, h)
  {
    var routed := layer.route(h);
    var block := AggregateExperts(layer, routed, outs);
    if block.Err? { return Err(block.error); }
    BlockIsOneNode(layer, routed, block.value);
    out := Ok(layer.outer(block.value, routed.postAttn));
  }
}
