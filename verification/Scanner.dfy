/**
 The migration scanner's two passes (migration.py): pick the hottest missing
 expert and its least-loaded source, and pick the coldest evictable one.
 */
module Scanner {
  import opened Common
  import opened Ownership
  import opened ExpertStack
  import opened Placement
  import Heat

  datatype Pick = Pick(layer: int, expert: int, source: ShardId)

  /** Worth pulling: not held, room left, hot enough, someone else owns it. */
  ghost predicate Eligible<T>(s: Site<T>, id: ShardId, threshold: int, heat: (int, int) -> int, layer: int, e: int) {
    && layer in s.live && e !in s.live[layer] && |s.live[layer]| < s.capacity
    && heat(layer, e) >= threshold && Owners(s.view, layer, e) - {id} != {}
  }

  method LeastLoaded(owners: set<ShardId>, loads: map<ShardId, int>) returns (best: ShardId)
    requires owners != {}
    ensures best in owners && forall o :: o in owners ==> KnownLoad(loads, best) <= KnownLoad(loads, o)
  {
    best :| best in owners;
    var todo := owners - {best};
    while todo != {}
      invariant best in owners && todo <= owners
      invariant forall o :: o in owners && o !in todo ==> KnownLoad(loads, best) <= KnownLoad(loads, o)
      decreases todo
    {
      var o :| o in todo;
      todo := todo - {o};
      if KnownLoad(loads, o) < KnownLoad(loads, best) { best := o; }
    }
  }

  /** Walk the report hottest first. Layers reported are layers this node routes, so they have a live set. */
  method SelectCandidate<T>(s: Site<T>, id: ShardId, report: seq<Heat.Entry>, threshold: int, heat: (int, int) -> int,
                            loads: map<ShardId, int>) returns (pick: Option<Pick>)
    requires s.pull.None? && forall i :: 0 <= i < |report| ==> report[i].layer in s.live && report[i].layer in s.stacks
    ensures pick.Some? ==>
              var p := pick.value;
              && CanSelect(s, id, p.layer, p.expert, p.source)
              && Eligible(s, id, threshold, heat, p.layer, p.expert)
              && (forall o :: o in Owners(s.view, p.layer, p.expert) && o != id ==>
                     KnownLoad(loads, p.source) <= KnownLoad(loads, o))
              && (forall x :: x in report && Eligible(s, id, threshold, heat, x.layer, x.expert) ==>
                    exists y :: y in report && y.layer == p.layer && y.expert == p.expert && y.heat >= x.heat)
    ensures pick.None? ==> forall x :: x in report ==> !Eligible(s, id, threshold, heat, x.layer, x.expert)
  {
    var sorted := Heat.ByHeat(report);
    Heat.ByHeatSpec(report);
    for i := 0 to |sorted|
      invariant forall j :: 0 <= j < i ==> !Eligible(s, id, threshold, heat, sorted[j].layer, sorted[j].expert)
    {
      var layer, e := sorted[i].layer, sorted[i].expert;
      Heat.ByHeatMembers(report, sorted[i]);
      if e in s.live[layer] { continue; }
      if |s.live[layer]| >= s.capacity { continue; }
      if heat(layer, e) < threshold { continue; }
      var owners := Owners(s.view, layer, e) - {id};
      if owners == {} { continue; }
      var source := LeastLoaded(owners, loads);
      forall x | x in report && Eligible(s, id, threshold, heat, x.layer, x.expert) ensures sorted[i].heat >= x.heat {
        Heat.ByHeatMembers(report, x);
        var j :| 0 <= j < |sorted| && sorted[j] == x;
      }
      return Some(Pick(layer, e, source));
    }
    forall x | x in report ensures !Eligible(s, id, threshold, heat, x.layer, x.expert) {
      Heat.ByHeatMembers(report, x);
      var j :| 0 <= j < |sorted| && sorted[j] == x;
    }
    pick := None;
  }

  /** Experts of a full layer that are not bootstrap and whose attach is old enough. */
  ghost predicate Candidate<T>(s: Site<T>, layer: int, e: int, cooled: (int, int) -> bool) {
    Evictable(s, layer, e) && cooled(layer, e)
  }

  /** The coldest candidate among the listed experts, if any; the first listed wins ties. */
  method Coldest<T>(s: Site<T>, layer: int, listed: seq<int>, heat: (int, int) -> int, cooled: (int, int) -> bool)
    returns (v: Option<int>)
    requires layer in s.live && layer in s.bootstrap && layer in s.stacks && s.pull.None?
    requires |s.live[layer]| >= s.capacity
    requires forall e :: e in listed <==> e in s.live[layer]
    ensures v.Some? ==> Candidate(s, layer, v.value, cooled)
                        && forall e :: Candidate(s, layer, e, cooled) ==> heat(layer, v.value) <= heat(layer, e)
    ensures v.None? ==> forall e :: !Candidate(s, layer, e, cooled)
  {
    v := None;
    for i := 0 to |listed|
      invariant v.Some? ==> Candidate(s, layer, v.value, cooled)
      invariant forall j :: 0 <= j < i && Candidate(s, layer, listed[j], cooled) ==>
                  v.Some? && heat(layer, v.value) <= heat(layer, listed[j])
    {
      var e := listed[i];
      assert e in listed;
      if e !in s.bootstrap[layer] && cooled(layer, e) && (v.None? || heat(layer, e) < heat(layer, v.value)) {
        v := Some(e);
      }
    }
    forall e | Candidate(s, layer, e, cooled) ensures v.Some? && heat(layer, v.value) <= heat(layer, e) {
      assert e in listed;
      var j :| 0 <= j < |listed| && listed[j] == e;
    }
  }

  /** v is a coldest candidate of the layer. */
  ghost predicate IsColdest<T>(s: Site<T>, l: int, v: int, heat: (int, int) -> int, cooled: (int, int) -> bool) {
    Candidate(s, l, v, cooled) && forall e :: Candidate(s, l, e, cooled) ==> heat(l, v) <= heat(l, e)
  }

  /** Nothing to evict in the layer, or its coldest candidate is refused. */
  ghost predicate PassedOver<T>(s: Site<T>, id: ShardId, l: int, heat: (int, int) -> int, cooled: (int, int) -> bool,
                                refuses: (int, int) -> bool) {
    || (forall e :: !Candidate(s, l, e, cooled))
    || exists v :: IsColdest(s, l, v, heat, cooled) && (LastReplica(s, id, l, v) || refuses(l, v))
  }

  /** At most one eviction per scan: the coldest candidate of the first full layer whose detach is not refused.
      `listing` is the order in which the live set is enumerated; `refuses` is the detach-side cooldown check
      against its own clock reading. */
  method MaybeEvictOne<T>(s: Site<T>, id: ShardId, layers: seq<int>, listing: int -> seq<int>, heat: (int, int) -> int,
                          cooled: (int, int) -> bool, refuses: (int, int) -> bool)
    returns (victim: Option<(int, int)>)
    requires s.pull.None?
    requires forall i :: 0 <= i < |layers| ==> layers[i] in s.live && layers[i] in s.bootstrap && layers[i] in s.stacks
    requires forall l, e :: l in s.live ==> (e in listing(l) <==> e in s.live[l])
    ensures victim.Some? ==>
              exists i :: 0 <= i < |layers| && layers[i] == victim.value.0
                          && forall j :: 0 <= j < i ==> PassedOver(s, id, layers[j], heat, cooled, refuses)
    ensures victim.Some? ==>
              var (l, v) := victim.value;
              IsColdest(s, l, v, heat, cooled) && !LastReplica(s, id, l, v) && !refuses(l, v)
    ensures victim.None? ==> forall j :: 0 <= j < |layers| ==> PassedOver(s, id, layers[j], heat, cooled, refuses)
  {
    for i := 0 to |layers|
      invariant forall j :: 0 <= j < i ==> PassedOver(s, id, layers[j], heat, cooled, refuses)
    {
      var l := layers[i];
      if |s.live[l]| < s.capacity { continue; }
      var coldest := Coldest(s, l, listing(l), heat, cooled);
      if coldest.None? { continue; }
      var v := coldest.value;
      assert IsColdest(s, l, v, heat, cooled);
      if refuses(l, v) || LastReplica(s, id, l, v) { continue; }
      return Some((l, v));
    }
    victim := None;
  }

  /** In a reachable cluster a scan evicts whenever some full layer has a cooled-down candidate and the detach-side
      cooldown agrees: the last-replica guard never stands in the way. */
  lemma ScanEvicts<T(!new)>(codec: Codec<T>, c: Cluster<T>, acts: seq<Action>, boot: Boot, full: map<int, seq<seq<T>>>,
                            id: ShardId, layer: int, v: int, cooled: (int, int) -> bool, ts: int)
    requires Lossless(codec) && Initial(codec, c, boot, full) && id in Acts(codec, c, acts).sites
    requires Candidate(Acts(codec, c, acts).sites[id], layer, v, cooled)
    ensures Evicted(Acts(codec, c, acts).sites[id], id, layer, v, ts).Some?
  {
    LastReplicaNeverFires(codec, c, acts, boot, full, id, layer, v);
    ReachablePlaced(codec, c, acts, boot, full);
    var s := Acts(codec, c, acts).sites[id];
    assert SiteOk(codec, s, id, boot, full);
    EvictOk(codec, s, id, layer, v, ts, boot, full);
  }
}
