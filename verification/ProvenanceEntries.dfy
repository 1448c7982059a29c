/**
 The entries one honest layer adds to the chain, written out field by field:
 who signs what, over which bytes, with which parents.
 */
module ProvenanceEntries {
  import opened Common
  import opened Transport
  import opened Provenance
  import opened ProvenanceBuild

  /** The entry claims the operation for the node, names the parents, and its hash is the digest of all that with the
      output bytes. */
  ghost predicate IsEntry(e: Entry, r: Rules, node: ShardId, op: Op, bytes: seq<Byte>, parents: seq<Hash>) {
    e.node == node && e.op == Some(op) && e.parents == parents && e.hash == r.digest(parents, node, op, bytes)
  }

  /** The parents of an entry that continues a chain. */
  ghost predicate Continues(parents: seq<Hash>, chain: seq<Entry>) {
    if chain != [] && chain[|chain| - 1].hash != [] then parents == [chain[|chain| - 1].hash] else parents == []
  }

  ghost predicate AtomicAdds<H>(k: Compute<H>, r: Rules, node: ShardId, l: int, p: Traced<H>, b: seq<Entry>) {
    && |b| == 1 && Continues(b[0].parents, p.chain)
    && IsEntry(b[0], r, node, Op(LayerAtomic, l, 0), k.bytes(k.atomic(l, p.h)), b[0].parents)
  }

  /** A route over the post-attention state; a shared expert and one entry per routed expert, in order, that name the
      route; and an aggregate over the new state that names all of these and nothing else, in order. */
  ghost predicate SplitAdds<H>(k: Compute<H>, r: Rules, node: ShardId, l: int, p: Traced<H>, b: seq<Entry>) {
    var a := k.attend(l, p.h);
    var ids := k.routed(l, a);
    && |b| == |ids| + 3 && Continues(b[0].parents, p.chain)
    && IsEntry(b[0], r, node, Op(AttentionRoute, l, 0), k.bytes(a), b[0].parents)
    && IsEntry(b[1], r, node, Op(SharedExpert, l, 0), k.bytes(k.shared(l, a)), [b[0].hash])
    && (forall i :: 2 <= i < |ids| + 2 ==> IsExpert(k, r, node, l, a, b[0].hash, ids[i - 2], b[i]))
    && Parents(b[1..|ids| + 2], b[|ids| + 2].parents)
    && IsEntry(b[|ids| + 2], r, node, Op(Aggregate, l, 0), k.bytes(k.merge(l, a)), b[|ids| + 2].parents)
  }

  ghost predicate IsExpert<H>(k: Compute<H>, r: Rules, node: ShardId, l: int, a: H, route: Hash, id: int, e: Entry) {
    IsEntry(e, r, node, Op(Expert, l, id), k.bytes(k.expert(l, id, a)), [route])
  }

  ghost predicate Parents(es: seq<Entry>, hashes: seq<Hash>) {
    |hashes| == |es| && forall i :: 0 <= i < |es| ==> hashes[i] == es[i].hash
  }

  lemma {:induction false} ExpertsAre<H>(k: Compute<H>, r: Rules, node: ShardId, l: int, a: H, route: Hash,
                                         ids: seq<int>, i: nat)
    requires i < |ids|
    ensures IsExpert(k, r, node, l, a, route, ids[i], ExpertEntries(k, r, node, l, a, route, ids)[i])
    decreases |ids|
  {
    var n := |ids| - 1;
    if i < n { ExpertsAre(k, r, node, l, a, route, ids[..n], i); }
  }

  lemma {:induction false} ChildrenNone(chain: seq<Entry>, l: int)
    requires !HasSplit(chain, l)
    ensures ChildHashes(chain, l) == []
    decreases |chain|
  {
    if chain != [] {
      var n := |chain| - 1;
      assert !HasSplit(chain[..n], l) by {
        assert forall i :: 0 <= i < n ==> chain[..n][i] == chain[i];
      }
      assert !Contributes(chain[n], l);
      ChildrenNone(chain[..n], l);
    }
  }

  /** Entries that all contribute, after a chain without any of the layer. */
  lemma {:induction false} ChildrenAre(chain: seq<Entry>, other: Entry, es: seq<Entry>, l: int)
    requires !HasSplit(chain, l) && !Contributes(other, l)
    requires forall i :: 0 <= i < |es| ==> Contributes(es[i], l)
    ensures Parents(es, ChildHashes(chain + [other] + es, l))
    decreases |es|
  {
    var all := chain + [other] + es;
    if es == [] {
      assert all == chain + [other] && all[..|chain|] == chain;
      ChildrenNone(chain, l);
    } else {
      var n := |es| - 1;
      assert all[..|all| - 1] == chain + [other] + es[..n];
      ChildrenAre(chain, other, es[..n], l);
    }
  }

  /** The entries between the route and the aggregate. */
  lemma Children<H>(k: Compute<H>, r: Rules, node: ShardId, l: int, a: H, route: Hash, ids: seq<int>)
    returns (es: seq<Entry>)
    ensures es == [SharedEntry(k, r, node, l, a, route)] + ExpertEntries(k, r, node, l, a, route, ids)
    ensures |es| == |ids| + 1 && IsEntry(es[0], r, node, Op(SharedExpert, l, 0), k.bytes(k.shared(l, a)), [route])
    ensures forall i :: 1 <= i < |es| ==> IsExpert(k, r, node, l, a, route, ids[i - 1], es[i])
    ensures forall i :: 0 <= i < |es| ==> Contributes(es[i], l)
  {
    es := [SharedEntry(k, r, node, l, a, route)] + ExpertEntries(k, r, node, l, a, route, ids);
    forall i | 1 <= i < |es| ensures IsExpert(k, r, node, l, a, route, ids[i - 1], es[i]) {
      ExpertsAre(k, r, node, l, a, route, ids, i - 1);
    }
  }

  lemma OpenIs<H>(k: Compute<H>, r: Rules, node: ShardId, l: int, p: Traced<H>, es: seq<Entry>)
    requires var a, route := k.attend(l, p.h), RouteEntry(k, r, node, l, p).hash;
             es == [SharedEntry(k, r, node, l, a, route)] + ExpertEntries(k, r, node, l, a, route, k.routed(l, a))
    ensures OpenChain(k, r, node, l, p) == p.chain + [RouteEntry(k, r, node, l, p)] + es
  {}

  lemma Assembled<H>(k: Compute<H>, r: Rules, node: ShardId, l: int, p: Traced<H>, route: Entry, es: seq<Entry>,
                     last: Entry)
    requires var a := k.attend(l, p.h);
             var ids := k.routed(l, a);
             && Continues(route.parents, p.chain)
             && IsEntry(route, r, node, Op(AttentionRoute, l, 0), k.bytes(a), route.parents)
             && |es| == |ids| + 1
             && IsEntry(es[0], r, node, Op(SharedExpert, l, 0), k.bytes(k.shared(l, a)), [route.hash])
             && (forall i :: 1 <= i < |es| ==> IsExpert(k, r, node, l, a, route.hash, ids[i - 1], es[i]))
             && Parents(es, last.parents)
             && IsEntry(last, r, node, Op(Aggregate, l, 0), k.bytes(k.merge(l, a)), last.parents)
    ensures SplitAdds(k, r, node, l, p, [route] + es + [last])
  {
    var a := k.attend(l, p.h);
    var ids := k.routed(l, a);
    var b := [route] + es + [last];
    assert b[0] == route && b[1] == es[0] && b[|ids| + 2] == last && b[1..|ids| + 2] == es;
    forall i | 2 <= i < |ids| + 2 ensures IsExpert(k, r, node, l, a, route.hash, ids[i - 2], b[i]) {
      assert b[i] == es[i - 1];
    }
  }

  lemma SplitLayerAdds<H>(k: Compute<H>, r: Rules, node: ShardId, l: int, p: Traced<H>) returns (b: seq<Entry>)
    requires l in r.split(node) && !HasSplit(p.chain, l)
    ensures LayerStep(k, r, node, l, p).chain == p.chain + b && SplitAdds(k, r, node, l, p, b)
  {
    var a := k.attend(l, p.h);
    var route := RouteEntry(k, r, node, l, p);
    var es := Children(k, r, node, l, a, route.hash, k.routed(l, a));
    var open := OpenChain(k, r, node, l, p);
    OpenIs(k, r, node, l, p, es);
    ChildrenAre(p.chain, route, es, l);
    var last := Built(r, node, Op(Aggregate, l, 0), k.bytes(k.merge(l, a)), ChildHashes(open, l));
    b := [route] + es + [last];
    assert LayerStep(k, r, node, l, p).chain == open + [last];
    assert open + [last] == p.chain + b;
    Assembled(k, r, node, l, p, route, es, last);
  }

  /** An honest layer adds exactly the entries described, and moves the state on. */
  lemma LayerAdds<H>(k: Compute<H>, r: Rules, node: ShardId, l: int, p: Traced<H>) returns (b: seq<Entry>)
    requires !HasSplit(p.chain, l)
    ensures LayerStep(k, r, node, l, p).chain == p.chain + b
    ensures if l in r.split(node) then SplitAdds(k, r, node, l, p, b) else AtomicAdds(k, r, node, l, p, b)
    ensures LayerMakes(k, r, node, l, p.h, LayerStep(k, r, node, l, p).h)
  {
    if l in r.split(node) {
      b := SplitLayerAdds(k, r, node, l, p);
    } else {
      b := [AtomicEntry(k, r, node, l, p)];
    }
  }
}
