/**
 The rules of an acceptable chain written out entry by entry, from positions
 and fields alone, and the proof that the validator's five rules are exactly
 these.
 */
module ProvenanceRules {
  import opened Common
  import opened Transport
  import opened Provenance

  predicate Did(e: Entry, k: Kind, layer: int) { e.op.Some? && e.op.value.kind == k && e.op.value.layer == layer }

  /** Entry i finishes layer l. */
  predicate Finishes(e: Entry, l: int) { Did(e, LayerAtomic, l) || Did(e, Aggregate, l) }

  ghost predicate Finished(chain: seq<Entry>, l: int) { exists i :: 0 <= i < |chain| && Finishes(chain[i], l) }

  /** Entry i, and no other, does k at layer l. */
  ghost predicate Sole(chain: seq<Entry>, k: Kind, l: int, i: int) {
    && 0 <= i < |chain| && Did(chain[i], k, l)
    && forall j :: 0 <= j < |chain| && Did(chain[j], k, l) ==> j == i
  }

  /** A split layer: one route, one shared expert and one aggregate; at least one expert, each expert once; and the
      aggregate lists the hashes of the shared expert and of every expert among its parents. */
  ghost predicate SplitRight(chain: seq<Entry>, l: int) {
    && (exists a :: Sole(chain, AttentionRoute, l, a))
    && (exists x :: 0 <= x < |chain| && Did(chain[x], Expert, l))
    && ExpertsOnce(chain, l)
    && exists s, g :: SplitEnds(chain, l, s, g)
  }

  ghost predicate SplitEnds(chain: seq<Entry>, l: int, s: int, g: int) {
    && Sole(chain, SharedExpert, l, s) && Sole(chain, Aggregate, l, g) && chain[s].hash in chain[g].parents
    && forall x :: 0 <= x < |chain| && Did(chain[x], Expert, l) ==> chain[x].hash in chain[g].parents
  }

  /** What an entry's node must be for the operation it claims. */
  ghost predicate Entitled(e: Entry, r: Rules) {
    e.op.Some? ==>
      var k, l, range := e.op.value.kind, e.op.value.layer, r.range(e.node);
      && (k == Embed ==> range.start == 0)
      && (k == Finalize ==> range.end == r.total)
      && (k == LayerAtomic || k == AttentionRoute || k == SharedExpert || k == Aggregate ==>
            range.start <= l < range.end && (l in r.split(e.node) <==> k != LayerAtomic))
      && (k == Expert ==> e.node in r.owners(l, e.op.value.expert))
  }

  /** The whole acceptance condition. */
  ghost predicate Acceptable(chain: seq<Entry>, r: Rules, tail: Option<seq<Byte>>) {
    && chain != [] && chain[0].op.Some? && chain[0].op.value.kind == Embed
    && (forall i :: 0 <= i < |chain| - 1 && chain[i].op.Some? ==> chain[i].op.value.kind != Finalize)
    && (forall l :: 0 <= l && Needed(chain, r.total, l) ==> Finished(chain, l))
    && (forall i :: 0 <= i < |chain| && chain[i].op.Some? && chain[i].op.value.kind in SplitKinds() ==>
          SplitRight(chain, chain[i].op.value.layer))
    && (forall i :: 0 <= i < |chain| ==> Entitled(chain[i], r))
    && (tail.Some? ==>
          var e := chain[|chain| - 1];
          e.op.Some? && r.digest(e.parents, e.node, e.op.value, tail.value) == e.hash)
  }

  function SplitKinds(): set<Kind> { {AttentionRoute, SharedExpert, Expert, Aggregate} }

  /** Layers that must be finished: all of them once the chain ends in finalize, until then those up to any finished
      one. */
  ghost predicate Needed(chain: seq<Entry>, total: int, l: int)
    requires chain != []
  {
    var last := chain[|chain| - 1];
    if last.op.Some? && last.op.value.kind == Finalize then l < total
    else exists h :: l <= h && Finished(chain, h)
  }

  // -------------------------------------------------- selections by position

  ghost predicate Nowhere(chain: seq<Entry>, k: Kind, l: int) {
    forall i :: 0 <= i < |chain| ==> !Did(chain[i], k, l)
  }

  lemma SelectNowhere(chain: seq<Entry>, k: Kind, l: int)
    ensures Select(chain, k, l) == [] <==> Nowhere(chain, k, l)
  {
    if Nowhere(chain, k, l) {
      SelectNone(chain, k, l);
    } else {
      var i :| 0 <= i < |chain| && Did(chain[i], k, l);
      SelectMembers(chain, k, l, chain[i]);
      assert chain[i] in chain;
    }
  }

  /** A sole entry is the whole selection. */
  lemma {:induction false} SelectSole(chain: seq<Entry>, k: Kind, l: int, i: int)
    requires Sole(chain, k, l, i)
    ensures Select(chain, k, l) == [chain[i]]
  {
    var n := |chain| - 1;
    var init := chain[..n];
    if i == n {
      assert Nowhere(init, k, l);
      SelectNowhere(init, k, l);
    } else {
      assert !Did(chain[n], k, l);
      assert Sole(init, k, l, i);
      SelectSole(init, k, l, i);
    }
  }

  /** A selection of one comes from a sole entry. */
  lemma {:induction false} SoleOf(chain: seq<Entry>, k: Kind, l: int) returns (i: int)
    requires |Select(chain, k, l)| == 1
    ensures Sole(chain, k, l, i)
  {
    var n := |chain| - 1;
    var init := chain[..n];
    SelectNowhere(init, k, l);
    if Did(chain[n], k, l) {
      i := n;
      assert forall j :: 0 <= j < n ==> init[j] == chain[j];
    } else {
      i := SoleOf(init, k, l);
      assert forall j :: 0 <= j < n ==> init[j] == chain[j];
    }
  }

  lemma SelectOnce(chain: seq<Entry>, k: Kind, l: int)
    ensures |Select(chain, k, l)| == 1 <==> exists i :: Sole(chain, k, l, i)
    ensures forall i :: Sole(chain, k, l, i) ==> Select(chain, k, l) == [chain[i]]
  {
    if |Select(chain, k, l)| == 1 { var i := SoleOf(chain, k, l); }
    forall i | Sole(chain, k, l, i) ensures Select(chain, k, l) == [chain[i]] { SelectSole(chain, k, l, i); }
  }

  ghost predicate ExpertsOnce(chain: seq<Entry>, l: int) {
    forall i, j :: 0 <= i < j < |chain| && Did(chain[i], Expert, l) && Did(chain[j], Expert, l) ==>
      chain[i].op.value.expert != chain[j].op.value.expert
  }

  lemma ExpertsOnceMore(chain: seq<Entry>, e: Entry, l: int)
    ensures ExpertsOnce(chain + [e], l) <==>
              && ExpertsOnce(chain, l)
              && (Did(e, Expert, l) ==>
                    forall i :: 0 <= i < |chain| && Did(chain[i], Expert, l) ==>
                      chain[i].op.value.expert != e.op.value.expert)
  {
    var all := chain + [e];
    assert all[|chain|] == e;
    assert forall i :: 0 <= i < |chain| ==> all[i] == chain[i];
    if ExpertsOnce(all, l) {
      forall i, j | 0 <= i < j < |chain| && Did(chain[i], Expert, l) && Did(chain[j], Expert, l)
        ensures chain[i].op.value.expert != chain[j].op.value.expert
      {
        assert Did(all[i], Expert, l) && Did(all[j], Expert, l);
      }
      forall i | Did(e, Expert, l) && 0 <= i < |chain| && Did(chain[i], Expert, l)
        ensures chain[i].op.value.expert != e.op.value.expert
      {
        assert Did(all[i], Expert, l) && Did(all[|chain|], Expert, l);
      }
    }
  }

  lemma DistinctMore(es: seq<Entry>, e: Entry)
    requires e.op.Some? && forall i :: 0 <= i < |es| ==> es[i].op.Some?
    ensures DistinctExperts(es + [e]) <==>
              DistinctExperts(es) && forall i :: 0 <= i < |es| ==> es[i].op.value.expert != e.op.value.expert
  {
    var all := es + [e];
    assert all[|es|] == e;
    assert forall i :: 0 <= i < |es| ==> all[i] == es[i];
  }

  lemma SameClashes(chain: seq<Entry>, es: seq<Entry>, id: int, l: int)
    requires forall x :: x in es <==> x in chain && Did(x, Expert, l)
    ensures forall i :: 0 <= i < |es| ==> es[i].op.Some?
    ensures (forall i :: 0 <= i < |es| ==> es[i].op.value.expert != id) <==>
              forall i :: 0 <= i < |chain| && Did(chain[i], Expert, l) ==> chain[i].op.value.expert != id
  {
    forall i | 0 <= i < |es| ensures es[i] in chain && Did(es[i], Expert, l) { assert es[i] in es; }
    forall i | 0 <= i < |chain| && Did(chain[i], Expert, l) ensures chain[i] in es { assert chain[i] in chain; }
  }

  lemma {:induction false} SelectDistinct(chain: seq<Entry>, l: int)
    ensures DistinctExperts(Select(chain, Expert, l)) <==> ExpertsOnce(chain, l)
  {
    if chain != [] {
      var n := |chain| - 1;
      var init, e := chain[..n], chain[n];
      var es := Select(init, Expert, l);
      SelectDistinct(init, l);
      assert chain == init + [e];
      ExpertsOnceMore(init, e, l);
      forall x ensures x in es <==> x in init && Did(x, Expert, l) { SelectMembers(init, Expert, l, x); }
      assert Select(chain, Expert, l) == if Did(e, Expert, l) then es + [e] else es;
      if Did(e, Expert, l) {
        SameClashes(init, es, e.op.value.expert, l);
        DistinctMore(es, e);
      }
    }
  }

  // --------------------------------------------------------- the five rules

  lemma CoveredIsFinished(chain: seq<Entry>, l: int)
    ensures Covered(chain, l) <==> Finished(chain, l)
  {
    if Covered(chain, l) {
      var i :| 0 <= i < |chain| && (Is(chain[i], LayerAtomic, l) || Is(chain[i], Aggregate, l));
      assert Finishes(chain[i], l);
    }
    if Finished(chain, l) {
      var i :| 0 <= i < |chain| && Finishes(chain[i], l);
      assert Is(chain[i], LayerAtomic, l) || Is(chain[i], Aggregate, l);
    }
  }

  lemma CompleteIffNeeded(chain: seq<Entry>, total: int)
    requires Starts(chain)
    ensures Complete(chain, total) <==> forall l :: 0 <= l && Needed(chain, total, l) ==> Finished(chain, l)
  {
    forall l ensures Covered(chain, l) <==> Finished(chain, l) { CoveredIsFinished(chain, l); }
    var last := |chain| - 1;
    assert HasFinalize(chain) <==> IsKind(chain[last], Finalize);
  }

  lemma ShapeIsSplitRight(chain: seq<Entry>, l: int)
    ensures ShapeAt(chain, l) <==> SplitRight(chain, l)
  {
    SelectOnce(chain, AttentionRoute, l);
    SelectNowhere(chain, Expert, l);
    SelectDistinct(chain, l);
    if Joined(Select(chain, SharedExpert, l), Select(chain, Expert, l), Select(chain, Aggregate, l)) {
      JoinedEnds(chain, l);
    } else {
      forall s, g | SplitEnds(chain, l, s, g) ensures false { EndsJoined(chain, l, s, g); }
    }
  }

  /** The same about the selected entries. */
  ghost predicate Joined(sh: seq<Entry>, es: seq<Entry>, ag: seq<Entry>) {
    && |sh| == 1 && |ag| == 1 && sh[0].hash in ag[0].parents
    && forall i :: 0 <= i < |es| ==> es[i].hash in ag[0].parents
  }

  lemma SelectedExperts(chain: seq<Entry>, l: int)
    ensures forall e :: e in Select(chain, Expert, l) <==> e in chain && Did(e, Expert, l)
  {
    var es := Select(chain, Expert, l);
    forall e ensures e in es <==> e in chain && Did(e, Expert, l) { SelectMembers(chain, Expert, l, e); }
  }

  lemma JoinedEnds(chain: seq<Entry>, l: int)
    requires Joined(Select(chain, SharedExpert, l), Select(chain, Expert, l), Select(chain, Aggregate, l))
    ensures exists s, g :: SplitEnds(chain, l, s, g)
  {
    var s := SoleOf(chain, SharedExpert, l);
    var g := SoleOf(chain, Aggregate, l);
    SelectSole(chain, SharedExpert, l, s);
    SelectSole(chain, Aggregate, l, g);
    SelectedExperts(chain, l);
    SameParents(chain, Select(chain, Expert, l), chain[g].parents, l);
    assert SplitEnds(chain, l, s, g);
  }

  lemma EndsJoined(chain: seq<Entry>, l: int, s: int, g: int)
    requires SplitEnds(chain, l, s, g)
    ensures Joined(Select(chain, SharedExpert, l), Select(chain, Expert, l), Select(chain, Aggregate, l))
  {
    SelectSole(chain, SharedExpert, l, s);
    SelectSole(chain, Aggregate, l, g);
    SelectedExperts(chain, l);
    SameParents(chain, Select(chain, Expert, l), chain[g].parents, l);
  }

  lemma SameParents(chain: seq<Entry>, es: seq<Entry>, parents: seq<Hash>, l: int)
    requires forall x :: x in es <==> x in chain && Did(x, Expert, l)
    ensures (forall i :: 0 <= i < |es| ==> es[i].hash in parents) <==>
              forall i :: 0 <= i < |chain| && Did(chain[i], Expert, l) ==> chain[i].hash in parents
  {
    forall i | 0 <= i < |es| ensures es[i] in chain && Did(es[i], Expert, l) { assert es[i] in es; }
    forall i | 0 <= i < |chain| && Did(chain[i], Expert, l) ensures chain[i] in es { assert chain[i] in chain; }
  }

  lemma ShapedIffSplitRight(chain: seq<Entry>)
    ensures Shaped(chain) <==>
              forall i :: 0 <= i < |chain| && chain[i].op.Some? && chain[i].op.value.kind in SplitKinds() ==>
                SplitRight(chain, chain[i].op.value.layer)
  {
    forall l ensures ShapeAt(chain, l) <==> SplitRight(chain, l) { ShapeIsSplitRight(chain, l); }
    forall i | 0 <= i < |chain| && chain[i].op.Some? && chain[i].op.value.kind in SplitKinds()
      ensures HasSplit(chain, chain[i].op.value.layer)
    {}
  }

  lemma EntitledIffAuthorized(e: Entry, r: Rules)
    ensures Authorized(e, r) <==> Entitled(e, r)
  {}

  /** The validator's rules are exactly the ones written out above. */
  lemma ValidIffAcceptable(chain: seq<Entry>, r: Rules, tail: Option<seq<Byte>>)
    ensures ValidChain(chain, r, tail) <==> Acceptable(chain, r, tail)
  {
    if Starts(chain) {
      CompleteIffNeeded(chain, r.total);
      ShapedIffSplitRight(chain);
      forall i | 0 <= i < |chain| ensures Authorized(chain[i], r) <==> Entitled(chain[i], r) {
        EntitledIffAuthorized(chain[i], r);
      }
    }
  }

  // ------------------------------------------------------------ consequences

  /** The tensor is bound to the chain: its digest is the last hash, so bytes with another digest are refused. */
  lemma OneTensorPerChain(chain: seq<Entry>, r: Rules, a: seq<Byte>, b: seq<Byte>)
    requires ValidChain(chain, r, Some(a))
    ensures var e := chain[|chain| - 1];
            && e.op.Some? && r.digest(e.parents, e.node, e.op.value, a) == e.hash
            && (ValidChain(chain, r, Some(b)) <==>
                  r.digest(e.parents, e.node, e.op.value, b) == r.digest(e.parents, e.node, e.op.value, a))
  {
    ValidIffAcceptable(chain, r, Some(a));
    ValidIffAcceptable(chain, r, Some(b));
  }

  /** No expert output in an accepted chain comes from a node that does not own the expert. */
  lemma ExpertsComeFromOwners(chain: seq<Entry>, r: Rules, tail: Option<seq<Byte>>, i: nat)
    requires ValidChain(chain, r, tail) && i < |chain| && chain[i].op.Some? && chain[i].op.value.kind == Expert
    ensures chain[i].node in r.owners(chain[i].op.value.layer, chain[i].op.value.expert)
  {
    ValidIffAcceptable(chain, r, tail);
    assert Entitled(chain[i], r);
  }
}
