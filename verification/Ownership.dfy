/**
 The two last-writer-wins ownership views: the gossip runner's own map and the
 node's map that mirrors it over the static shard map (membership/runner.py,
 node.py). A strictly newer timestamp wins; ties keep the first writer.
 */
module Ownership {
  import opened Common

  datatype Key = Key(shard: ShardId, layer: int, expert: int)

  /** action 0 is ADD, 1 is REMOVE. */
  datatype Stamp = Stamp(action: int, ts: int)

  datatype Delta = Delta(key: Key, action: int, ts: int)

  type View = map<Key, Stamp>

  predicate Beats(v: View, d: Delta) { d.key !in v || d.ts > v[d.key].ts }

  function Put(v: View, d: Delta): View {
    if Beats(v, d) then v[d.key := Stamp(d.action, d.ts)] else v
  }

  function PutAll(v: View, ds: seq<Delta>): View
    decreases |ds|
  {
    if ds == [] then v else PutAll(Put(v, ds[0]), ds[1..])
  }

  /** Shards whose latest observed action is ADD. */
  function Owners(view: View, layer: int, expert: int): (r: set<ShardId>)
    ensures forall s :: s in r <==> Key(s, layer, expert) in view && view[Key(s, layer, expert)].action == 0
  {
    set k | k in view && k.layer == layer && k.expert == expert && view[k].action == 0 :: k.shard
  }

  // ---------------------------------------------------- order independence

  /** d carries the newest timestamp for its key among `ds`, and it beats the view. */
  ghost predicate Newest(v: View, ds: seq<Delta>, d: Delta) {
    d in ds && Beats(v, d) && forall e :: e in ds && e.key == d.key ==> e.ts <= d.ts
  }

  /** Deltas that are newest for the same key agree on the action. */
  ghost predicate NoTies(v: View, ds: seq<Delta>) {
    forall d, e :: Newest(v, ds, d) && Newest(v, ds, e) && d.key == e.key ==> d.action == e.action
  }

  lemma {:induction false} PutAllKeepsNewer(v: View, ds: seq<Delta>, k: Key)
    requires k in v && forall e :: e in ds && e.key == k ==> e.ts <= v[k].ts
    ensures k in PutAll(v, ds) && PutAll(v, ds)[k] == v[k]
    decreases |ds|
  {
    if ds != [] { PutAllKeepsNewer(Put(v, ds[0]), ds[1..], k); }
  }

  lemma {:induction false} PutAllUntouched(v: View, ds: seq<Delta>, k: Key)
    requires forall e :: e in ds && e.key == k ==> !Beats(v, e)
    ensures k in PutAll(v, ds) <==> k in v
    ensures k in v ==> PutAll(v, ds)[k] == v[k]
    decreases |ds|
  {
    if ds != [] {
      assert ds[0] in ds;
      PutAllUntouched(Put(v, ds[0]), ds[1..], k);
    }
  }

  /** The entry that survives for a key is a newest one. */
  lemma {:induction false} PutAllInstallsNewest(v: View, ds: seq<Delta>, d: Delta)
    requires Newest(v, ds, d)
    ensures d.key in PutAll(v, ds) && PutAll(v, ds)[d.key].ts == d.ts
    ensures exists e :: Newest(v, ds, e) && e.key == d.key && PutAll(v, ds)[d.key] == Stamp(e.action, e.ts)
    decreases |ds|
  {
    var e, rest := ds[0], ds[1..];
    var v' := Put(v, e);
    assert e in ds && forall x :: x in rest ==> x in ds;
    if e.key == d.key && e.ts == d.ts {
      PutAllKeepsNewer(v', rest, d.key);
      assert Newest(v, ds, e);
    } else {
      assert d in rest;
      PutAllInstallsNewest(v', rest, d);
      var w :| Newest(v', rest, w) && w.key == d.key && PutAll(v', rest)[d.key] == Stamp(w.action, w.ts);
      assert w.ts == d.ts && Newest(v, ds, w);
    }
  }

  lemma NewestExists(v: View, ds: seq<Delta>, d: Delta) returns (top: Delta)
    requires d in ds && Beats(v, d)
    ensures Newest(v, ds, top) && top.key == d.key
  {
    top := d;
    for i := 0 to |ds|
      invariant top in ds && top.key == d.key && Beats(v, top)
      invariant forall j :: 0 <= j < i && ds[j].key == d.key ==> ds[j].ts <= top.ts
    {
      if ds[i].key == d.key && ds[i].ts > top.ts { top := ds[i]; }
    }
  }

  lemma KeyAgrees(v: View, ds: seq<Delta>, ds': seq<Delta>, k: Key)
    requires NoTies(v, ds) && forall d :: d in ds <==> d in ds'
    ensures k in PutAll(v, ds) <==> k in PutAll(v, ds')
    ensures k in PutAll(v, ds) ==> PutAll(v, ds)[k] == PutAll(v, ds')[k]
  {
    if d :| d in ds && d.key == k && Beats(v, d) {
      var top := NewestExists(v, ds, d);
      assert Newest(v, ds', top);
      PutAllInstallsNewest(v, ds, top);
      PutAllInstallsNewest(v, ds', top);
      var e :| Newest(v, ds, e) && e.key == k && PutAll(v, ds)[k] == Stamp(e.action, e.ts);
      var e' :| Newest(v, ds', e') && e'.key == k && PutAll(v, ds')[k] == Stamp(e'.action, e'.ts);
      assert Newest(v, ds, e');
    } else {
      PutAllUntouched(v, ds, k);
      PutAllUntouched(v, ds', k);
    }
  }

  lemma FirstWins(v: View, ds: seq<Delta>, d: Delta)
    requires Newest(v, ds, d)
    ensures d.key in PutAll(v, [d] + ds) && PutAll(v, [d] + ds)[d.key] == Stamp(d.action, d.ts)
  {
    assert ([d] + ds)[1..] == ds;
    PutAllKeepsNewer(Put(v, d), ds, d.key);
  }

  lemma SameResult(v: View, ds: seq<Delta>, ds': seq<Delta>)
    requires NoTies(v, ds) && forall d :: d in ds <==> d in ds'
    ensures PutAll(v, ds') == PutAll(v, ds)
  {
    forall k
      ensures k in PutAll(v, ds) <==> k in PutAll(v, ds')
      ensures k in PutAll(v, ds) ==> PutAll(v, ds)[k] == PutAll(v, ds')[k]
    {
      KeyAgrees(v, ds, ds', k);
    }
  }

  /** Delivery order and duplication never matter exactly when newest deltas for one key agree on the action. */
  lemma OrderIrrelevantIffNoTies(v: View, ds: seq<Delta>)
    ensures NoTies(v, ds)
       <==> forall ds' :: (forall d :: d in ds <==> d in ds') ==> PutAll(v, ds') == PutAll(v, ds)
  {
    if NoTies(v, ds) {
      forall ds' | forall d :: d in ds <==> d in ds' ensures PutAll(v, ds') == PutAll(v, ds) { SameResult(v, ds, ds'); }
    } else {
      var d, e :| Newest(v, ds, d) && Newest(v, ds, e) && d.key == e.key && d.action != e.action;
      TieShows(v, ds, d, e);
    }
  }

  /** Two newest deltas that disagree: whichever comes first decides. */
  lemma TieShows(v: View, ds: seq<Delta>, d: Delta, e: Delta)
    requires Newest(v, ds, d) && Newest(v, ds, e) && d.key == e.key && d.action != e.action
    ensures PutAll(v, [d] + ds) != PutAll(v, [e] + ds)
    ensures forall x :: x in ds <==> x in [d] + ds
    ensures forall x :: x in ds <==> x in [e] + ds
  {
    FirstWins(v, ds, d);
    FirstWins(v, ds, e);
  }

  // ------------------------------------------------------------- two views

  /** The deltas the runner accepts, in order; only these reach its observers. */
  function Applied(v: View, ds: seq<Delta>): seq<Delta>
    decreases |ds|
  {
    if ds == [] then []
    else (if Beats(v, ds[0]) then [ds[0]] else []) + Applied(Put(v, ds[0]), ds[1..])
  }

  /** Outside its own shard the node sees the runner's entry where there is one, the static map elsewhere. */
  ghost predicate Mirrors(runner: View, node: View, statics: set<Key>, self: ShardId) {
    forall k: Key :: k.shard != self ==>
      && (k in node <==> k in runner || k in statics)
      && (k in runner ==> k in node && node[k] == runner[k] && runner[k].ts > 0)
      && (k in node && k !in runner ==> node[k] == Stamp(0, 0))
  }

  lemma {:induction false} RelayKeepsMirror(runner: View, node: View, ds: seq<Delta>, statics: set<Key>, self: ShardId)
    requires Mirrors(runner, node, statics, self)
    requires forall d :: d in ds ==> d.ts > 0
    ensures Mirrors(PutAll(runner, ds), PutAll(node, Applied(runner, ds)), statics, self)
    decreases |ds|
  {
    if ds != [] {
      var d, rest := ds[0], Applied(Put(runner, ds[0]), ds[1..]);
      if Beats(runner, d) {
        assert Applied(runner, ds)[1..] == rest;
        assert Mirrors(Put(runner, d), Put(node, d), statics, self);
        RelayKeepsMirror(Put(runner, d), Put(node, d), ds[1..], statics, self);
      } else {
        assert Applied(runner, ds) == rest;
        RelayKeepsMirror(runner, node, ds[1..], statics, self);
      }
    }
  }

  // ------------------------------------------------------------ the own row

  /** The runner lifts its own REMOVE above whatever it holds. */
  function Lifted(v: View, k: Key, ts: int): Delta {
    Delta(k, 1, Max(ts, (if k in v then v[k].ts else 0) + 1))
  }

  /** The runner drops the own entry on every REMOVE. The node, which stamps the plain clock, does so exactly when the
      clock has moved past its entry, or the entry was a REMOVE already. */
  lemma RemoveAgreesIffLater(node: View, runner: View, k: Key, nodeTs: int, runnerTs: int)
    ensures var n, r := Put(node, Delta(k, 1, nodeTs)), Put(runner, Lifted(runner, k, runnerTs));
            && k in r && r[k].action == 1 && k in n
            && (n[k].action == r[k].action <==> k !in node || nodeTs > node[k].ts || node[k].action == 1)
  {}

  /** An ADD that both views took, then a REMOVE: they agree on the own row if and only if the node's clock moved in
      between. Within one millisecond the node still lists itself as an owner and the runner does not. */
  lemma AddThenRemoveAgreesIffClockMoved(node: View, runner: View, k: Key, addAt: int, addRunnerAt: int, removeAt: int,
      removeRunnerAt: int)
    requires Beats(node, Delta(k, 0, addAt)) && Beats(runner, Delta(k, 0, addRunnerAt))
    ensures var n := Put(Put(node, Delta(k, 0, addAt)), Delta(k, 1, removeAt));
            var r1 := Put(runner, Delta(k, 0, addRunnerAt));
            var r := Put(r1, Lifted(r1, k, removeRunnerAt));
            && k.shard !in Owners(r, k.layer, k.expert)
            && (k.shard in Owners(n, k.layer, k.expert) <==> removeAt <= addAt)
  {
    RemoveAgreesIffLater(Put(node, Delta(k, 0, addAt)), Put(runner, Delta(k, 0, addRunnerAt)), k, removeAt,
        removeRunnerAt);
  }

  /** A node and its membership runner: gossip ingest, self announcements and the owner query. */
  class OwnershipViews {
    const self: ShardId
    ghost const statics: set<Key>
    var runnerView: View
    var nodeView: View

    ghost predicate Valid()
      reads this
    {
      Mirrors(runnerView, nodeView, statics, self)
    }

    /** Bootstrap ownership enters the node's view at timestamp zero. */
    constructor (self: ShardId, bootstrap: seq<Key>)
      ensures Valid() && runnerView == map[] && this.self == self
      ensures forall k :: k in nodeView <==> k in bootstrap
    {
      var view: View := map[];
      for i := 0 to |bootstrap|
        invariant forall k :: k in view <==> k in bootstrap[..i]
        invariant forall k :: k in view ==> view[k] == Stamp(0, 0)
      {
        view := view[bootstrap[i] := Stamp(0, 0)];
      }
      this.self, statics, runnerView, nodeView := self, set k | k in bootstrap, map[], view;
    }

    method NodePut(d: Delta)
      modifies this`nodeView
      ensures nodeView == Put(old(nodeView), d)
    {
      if d.key !in nodeView || d.ts > nodeView[d.key].ts {
        nodeView := nodeView[d.key := Stamp(d.action, d.ts)];
      }
    }

    /** The runner keeps what beats its own view. */
    method Filter(ds: seq<Delta>) returns (applied: seq<Delta>)
      modifies this`runnerView
      ensures runnerView == PutAll(old(runnerView), ds) && applied == Applied(old(runnerView), ds)
    {
      applied := [];
      for i := 0 to |ds|
        invariant PutAll(runnerView, ds[i..]) == PutAll(old(runnerView), ds)
        invariant applied + Applied(runnerView, ds[i..]) == Applied(old(runnerView), ds)
      {
        var d := ds[i];
        assert ds[i..][0] == d && ds[i..][1..] == ds[i + 1..];
        if d.key !in runnerView || d.ts > runnerView[d.key].ts {
          runnerView := runnerView[d.key := Stamp(d.action, d.ts)];
          applied := applied + [d];
        }
      }
    }

    /** The runner's observer puts each kept delta into the node's view. */
    method Relay(applied: seq<Delta>)
      modifies this`nodeView
      ensures nodeView == PutAll(old(nodeView), applied)
    {
      for i := 0 to |applied|
        invariant PutAll(nodeView, applied[i..]) == PutAll(old(nodeView), applied)
      {
        assert applied[i..][0] == applied[i] && applied[i..][1..] == applied[i + 1..];
        NodePut(applied[i]);
      }
    }

    /** One gossip message: filter through the runner's view, then relay what passed, in order. */
    method Ingest(ds: seq<Delta>)
      requires Valid() && forall d :: d in ds ==> d.ts > 0
      modifies this
      ensures Valid()
      ensures runnerView == PutAll(old(runnerView), ds)
      ensures nodeView == PutAll(old(nodeView), Applied(old(runnerView), ds))
    {
      RelayKeepsMirror(runnerView, nodeView, ds, statics, self);
      var applied := Filter(ds);
      Relay(applied);
    }

    /** The node attached an expert: both views are told, each with its own clock reading. */
    method AnnounceAdd(layer: int, expert: int, nodeTs: int, runnerTs: int)
      requires Valid()
      modifies this
      ensures Valid()
      ensures nodeView == Put(old(nodeView), Delta(Key(self, layer, expert), 0, nodeTs))
      ensures runnerView == Put(old(runnerView), Delta(Key(self, layer, expert), 0, runnerTs))
    {
      NodePut(Delta(Key(self, layer, expert), 0, nodeTs));
      runnerView := Put(runnerView, Delta(Key(self, layer, expert), 0, runnerTs));
    }

    /** The runner lifts its REMOVE above any ADD it already holds; the node uses the plain clock. */
    method AnnounceRemove(layer: int, expert: int, nodeTs: int, runnerTs: int) returns (sent: Delta)
      requires Valid()
      modifies this
      ensures Valid()
      ensures sent == Lifted(old(runnerView), Key(self, layer, expert), runnerTs)
      ensures sent.key == Key(self, layer, expert) && sent.action == 1 && sent.ts >= runnerTs
      ensures var held := if sent.key in old(runnerView) then old(runnerView)[sent.key].ts else 0;
              sent.ts > held && (sent.ts == runnerTs || sent.ts == held + 1)
      ensures Beats(old(runnerView), sent) && runnerView == Put(old(runnerView), sent)
      ensures nodeView == Put(old(nodeView), Delta(sent.key, 1, nodeTs))
    {
      var k := Key(self, layer, expert);
      NodePut(Delta(k, 1, nodeTs));
      var existing := if k in runnerView then runnerView[k].ts else 0;
      sent := Delta(k, 1, Max(runnerTs, existing + 1));
      runnerView := runnerView[k := Stamp(1, sent.ts)];
    }

    /** Shards whose latest observed action is ADD. */
    function OwnersOf(layer: int, expert: int): (owners: set<ShardId>)
      reads this
      ensures forall s :: s in owners <==>
                Key(s, layer, expert) in nodeView && nodeView[Key(s, layer, expert)].action == 0
    {
      Owners(nodeView, layer, expert)
    }
  }
}
