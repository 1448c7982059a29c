/**
 Expert placement across a cluster (migration.py, node.py, partial_load.py):
 nodes pull hot experts from each other over the wire, evict cold ones, and
 hear about ownership through gossip that may be delayed, repeated or lost.
 */
module Placement {
  import opened Common
  import opened Transport
  import opened Ownership
  import opened ExpertStack

  /** Shape and element type, as a transfer's header declares them. */
  datatype Form = Form(dims: seq<int>, dtype: int)

  /** Tensor serialization: bytes one way, bytes with the declared form the other. */
  datatype Codec<!T> = Codec(form: T -> Form, enc: T -> seq<Byte>, dec: (Form, seq<Byte>) -> T)

  ghost predicate Lossless<T(!new)>(codec: Codec<T>) { forall t :: codec.dec(codec.form(t), codec.enc(t)) == t }

  /** An ExpertWeightTransfer: a frame, and the nine forms and byte counts its header declares. */
  datatype Reply = Reply(forms: seq<Form>, counts: seq<nat>, frame: seq<Byte>)

  /** The single pull a node may have in flight; `reply` is set once the source has answered. */
  datatype Pull = Pull(layer: int, expert: int, source: ShardId, reply: Option<Reply>)

  datatype Site<T> = Site(
    bootstrap: map<int, seq<nat>>,
    capacity: int,
    stacks: map<int, Stack<T>>,
    live: map<int, set<int>>,
    view: View,
    pull: Option<Pull>)

  datatype Cluster<T> = Cluster(sites: map<ShardId, Site<T>>, gossip: set<Delta>)

  datatype Action =
    | Select(node: ShardId, layer: int, expert: int, source: ShardId)
    | Serve(node: ShardId, header: seq<Byte>)
    | Finish(node: ShardId, ts: int, announced: int, again: int)
    | Abort(node: ShardId)
    | Evict(node: ShardId, layer: int, victim: int, ts: int, announced: int)
    | Hear(node: ShardId, delta: Delta)

  // --------------------------------------------------------------- the wire

  function EncodeAll<T>(codec: Codec<T>, ts: seq<T>): (r: seq<seq<Byte>>)
    ensures |r| == |ts| && forall i :: 0 <= i < |ts| ==> r[i] == codec.enc(ts[i])
  {
    seq(|ts|, i requires 0 <= i < |ts| => codec.enc(ts[i]))
  }

  function FormsOf<T>(codec: Codec<T>, ts: seq<T>): (r: seq<Form>)
    ensures |r| == |ts| && forall i :: 0 <= i < |ts| ==> r[i] == codec.form(ts[i])
  {
    seq(|ts|, i requires 0 <= i < |ts| => codec.form(ts[i]))
  }

  function DecodeAll<T>(codec: Codec<T>, fs: seq<Form>, bs: seq<seq<Byte>>): (r: seq<T>)
    requires |fs| == |bs|
    ensures |r| == |bs| && forall i :: 0 <= i < |bs| ==> r[i] == codec.dec(fs[i], bs[i])
  {
    seq(|bs|, i requires 0 <= i < |bs| => codec.dec(fs[i], bs[i]))
  }

  /** The source's answer; None if a length does not fit the frame. */
  function Encode<T>(codec: Codec<T>, header: seq<Byte>, ts: seq<T>): Option<Reply> {
    var blobs := EncodeAll(codec, ts);
    if |header| < U32 && |Concat(blobs)| < U32
    then Some(Reply(FormsOf(codec, ts), Counts(blobs), Frame(header, Concat(blobs)))) else None
  }

  /** The target's reading of it. */
  function Decode<T>(codec: Codec<T>, r: Reply): Option<seq<T>> {
    var f := ParseFrame(r.frame);
    if f.None? || |r.counts| != TENSORS || |r.forms| != TENSORS then None
    else
      var blobs := Cut(f.value.tensor, r.counts);
      if blobs.None? then None else Some(DecodeAll(codec, r.forms, blobs.value))
  }

  /** Nine tensors survive serialization, framing, splitting and deserialization unchanged. */
  lemma TransferRoundTrip<T(!new)>(codec: Codec<T>, header: seq<Byte>, ts: seq<T>)
    requires Lossless(codec) && |ts| == TENSORS && Encode(codec, header, ts).Some?
    ensures Decode(codec, Encode(codec, header, ts).value) == Some(ts)
  {
    var blobs := EncodeAll(codec, ts);
    FrameRoundTrip(header, Concat(blobs), []);
    assert Frame(header, Concat(blobs)) + [] == Frame(header, Concat(blobs));
    CutOfJoin(blobs);
    assert DecodeAll(codec, FormsOf(codec, ts), blobs) == ts;
  }

  // --------------------------------------------------------------- actions

  predicate CanSelect<T>(s: Site<T>, id: ShardId, layer: int, expert: int, source: ShardId) {
    && s.pull.None? && layer in s.stacks && layer in s.live
    && expert !in s.live[layer] && |s.live[layer]| < s.capacity
    && source in Owners(s.view, layer, expert) && source != id
  }

  function Served<T>(codec: Codec<T>, header: seq<Byte>, source: Site<T>, p: Pull): Option<Reply> {
    if p.layer !in source.stacks || |source.stacks[p.layer].rows| != TENSORS
       || !(forall i :: 0 <= i < TENSORS ==> |source.stacks[p.layer].rows[i]| == |source.stacks[p.layer].held|)
    then None
    else
      var ts := SliceExpert(source.stacks[p.layer], p.expert);
      if ts.None? then None else Encode(codec, header, ts.value)
  }

  /** Attach a pulled expert: backend, live set, own view; the ADD goes out on gossip. */
  function Attached<T>(s: Site<T>, id: ShardId, layer: int, expert: int, ts: seq<T>, at: int): Option<Site<T>> {
    if layer !in s.stacks || layer !in s.live || |s.stacks[layer].rows| != TENSORS then None
    else
      var grown := AttachExpert(s.stacks[layer], expert, ts);
      if grown.None? then None
      else Some(s.(stacks := s.stacks[layer := grown.value],
                   live := s.live[layer := s.live[layer] + {expert}],
                   view := Put(s.view, Delta(Key(id, layer, expert), 0, at))))
  }

  /** The eviction pass picks this victim: a layer at capacity, not a bootstrap expert. */
  predicate Evictable<T>(s: Site<T>, layer: int, victim: int) {
    && s.pull.None? && layer in s.live && layer in s.bootstrap && layer in s.stacks
    && |s.live[layer]| >= s.capacity && victim in s.live[layer] && victim !in s.bootstrap[layer]
  }

  /** No other live owner is known: the detach refuses. */
  predicate LastReplica<T>(s: Site<T>, id: ShardId, layer: int, victim: int) {
    Owners(s.view, layer, victim) - {id} == {}
  }

  function Detached<T>(s: Site<T>, id: ShardId, layer: int, victim: int, at: int): Option<Site<T>> {
    if layer !in s.stacks || layer !in s.live || |s.stacks[layer].rows| != TENSORS
       || !(forall i :: 0 <= i < TENSORS ==> |s.stacks[layer].rows[i]| == |s.stacks[layer].held|)
    then None
    else
      var shrunk := DetachExpert(s.stacks[layer], victim);
      if shrunk.None? then None
      else Some(s.(stacks := s.stacks[layer := shrunk.value],
                   live := s.live[layer := s.live[layer] - {victim}],
                   view := Put(s.view, Delta(Key(id, layer, victim), 1, at))))
  }

  /** The acting node after a pull has been answered: attached, or given up. */
  function Finished<T>(codec: Codec<T>, s: Site<T>, id: ShardId, ts: int): Option<Site<T>> {
    if s.pull.None? || s.pull.value.reply.None? then None
    else
      var tensors := Decode(codec, s.pull.value.reply.value);
      if tensors.None? then None else Attached(s, id, s.pull.value.layer, s.pull.value.expert, tensors.value, ts)
  }

  function Answered<T>(codec: Codec<T>, s: Site<T>, source: Site<T>, header: seq<Byte>): Site<T> {
    if s.pull.None? || s.pull.value.reply.Some? then s
    else
      var reply := Served(codec, header, source, s.pull.value);
      s.(pull := if reply.None? then None else Some(s.pull.value.(reply := reply)))
  }

  function Evicted<T>(s: Site<T>, id: ShardId, layer: int, victim: int, ts: int): Option<Site<T>> {
    if !Evictable(s, layer, victim) || LastReplica(s, id, layer, victim) then None
    else Detached(s, id, layer, victim, ts)
  }

  /** What an action makes of the acting node. */
  function Moved<T>(codec: Codec<T>, c: Cluster<T>, a: Action): Site<T>
    requires a.node in c.sites
  {
    var id, s := a.node, c.sites[a.node];
    match a
    case Select(_, layer, expert, source) =>
      if CanSelect(s, id, layer, expert, source) then s.(pull := Some(Pull(layer, expert, source, None))) else s
    case Serve(_, header) =>
      if s.pull.Some? && s.pull.value.source in c.sites then Answered(codec, s, c.sites[s.pull.value.source], header)
      else s
    case Finish(_, ts, _, _) =>
      if s.pull.None? || s.pull.value.reply.None? then s
      else
        var done := Finished(codec, s, id, ts);
        (if done.None? then s else done.value).(pull := None)
    case Abort(_) => s.(pull := None)
    case Evict(_, layer, victim, ts, _) =>
      var done := Evicted(s, id, layer, victim, ts);
      if done.None? then s else done.value
    case Hear(_, d) => if d in c.gossip then s.(view := Put(s.view, d)) else s
  }

  /** What it says about itself on gossip. An attach is announced twice: by the node and by the scanner. */
  function Announced<T>(codec: Codec<T>, c: Cluster<T>, a: Action): set<Delta>
    requires a.node in c.sites
  {
    var id, s := a.node, c.sites[a.node];
    match a
    case Finish(_, ts, announced, again) =>
      if Finished(codec, s, id, ts).None? then {}
      else
        var k := Key(id, s.pull.value.layer, s.pull.value.expert);
        {Delta(k, 0, announced), Delta(k, 0, again)}
    case Evict(_, layer, victim, ts, announced) =>
      if Evicted(s, id, layer, victim, ts).Some? then {Delta(Key(id, layer, victim), 1, announced)} else {}
    case _ => {}
  }

  function Act<T>(codec: Codec<T>, c: Cluster<T>, a: Action): Cluster<T> {
    if a.node !in c.sites then c
    else Cluster(c.sites[a.node := Moved(codec, c, a)], c.gossip + Announced(codec, c, a))
  }

  function Acts<T>(codec: Codec<T>, c: Cluster<T>, acts: seq<Action>): Cluster<T> {
    if acts == [] then c else Act(codec, Acts(codec, c, acts[..|acts| - 1]), acts[|acts| - 1])
  }

  // -------------------------------------------------------------- invariant

  type Boot = map<ShardId, map<int, seq<nat>>>

  ghost predicate Bootstrapped(boot: Boot, s: ShardId, layer: int, e: int) {
    s in boot && layer in boot[s] && 0 <= e && e as nat in boot[s][layer]
  }

  ghost predicate SomeBootstrapOwner(boot: Boot, layer: int, e: int) {
    exists s :: Bootstrapped(boot, s, layer, e)
  }

  ghost function AsSet(xs: seq<int>): (r: set<int>)
    ensures forall e :: e in r <==> e in xs
  {
    set e | e in xs
  }

  /** One layer at one node: right rows, live set equal to what the backend holds, bootstrap kept, capacity kept. */
  ghost predicate LayerOk<T>(s: Site<T>, layer: int, boot: Boot, full: map<int, seq<seq<T>>>) {
    && layer in s.stacks && layer in s.live && layer in s.bootstrap && layer in full
    && RowsRight(s.stacks[layer], full[layer])
    && s.live[layer] == AsSet(s.stacks[layer].held)
    && s.bootstrap[layer] != []
    && (forall e :: e in s.bootstrap[layer] ==> e in s.live[layer])
    && |s.live[layer]| <= Max(|AsSet(s.bootstrap[layer])|, s.capacity)
    && (forall e :: e in s.live[layer] ==> SomeBootstrapOwner(boot, layer, e))
  }

  ghost predicate ReplyOk<T>(codec: Codec<T>, p: Pull, boot: Boot, full: map<int, seq<seq<T>>>) {
    p.reply.Some? ==>
      && p.layer in full && SomeBootstrapOwner(boot, p.layer, p.expert)
      && Decode(codec, p.reply.value).Some? && TensorsOf(full[p.layer], p.expert, Decode(codec, p.reply.value).value)
  }

  ghost predicate SiteOk<T>(codec: Codec<T>, s: Site<T>, id: ShardId, boot: Boot, full: map<int, seq<seq<T>>>) {
    && id in boot && s.bootstrap == boot[id]
    && (forall l :: l in s.stacks || l in s.live || l in s.bootstrap ==> LayerOk(s, l, boot, full))
    && (forall b, l, e :: Bootstrapped(boot, b, l, e) ==> Key(b, l, e) in s.view && s.view[Key(b, l, e)].action == 0)
    && (s.pull.Some? ==>
          && s.pull.value.layer in s.live && s.pull.value.expert !in s.live[s.pull.value.layer]
          && |s.live[s.pull.value.layer]| < s.capacity && ReplyOk(codec, s.pull.value, boot, full))
  }

  /** A bootstrap owner never announces that it dropped the expert. */
  ghost predicate GossipOk(gossip: set<Delta>, boot: Boot) {
    forall d :: d in gossip && Bootstrapped(boot, d.key.shard, d.key.layer, d.key.expert) ==> d.action == 0
  }

  ghost predicate Placed<T>(codec: Codec<T>, c: Cluster<T>, boot: Boot, full: map<int, seq<seq<T>>>) {
    && boot.Keys == c.sites.Keys
    && GossipOk(c.gossip, boot)
    && (forall id :: id in c.sites ==> SiteOk(codec, c.sites[id], id, boot, full))
  }

  /** Nodes start from partial loads with non-empty distinct lists and know the static map. */
  ghost predicate Initial<T>(codec: Codec<T>, c: Cluster<T>, boot: Boot, full: map<int, seq<seq<T>>>) {
    && boot.Keys == c.sites.Keys && c.gossip == {}
    && (forall id :: id in c.sites ==> InitialSite(c.sites[id], id, boot, full))
  }

  ghost predicate InitialSite<T>(s: Site<T>, id: ShardId, boot: Boot, full: map<int, seq<seq<T>>>) {
    && id in boot && s.bootstrap == boot[id] && s.pull.None?
    && (forall l :: l in s.stacks || l in s.live || l in s.bootstrap ==> InitialLayer(s, l, full))
    && (forall b, l, e :: Bootstrapped(boot, b, l, e) ==> Key(b, l, e) in s.view && s.view[Key(b, l, e)] == Stamp(0, 0))
  }

  ghost predicate InitialLayer<T>(s: Site<T>, l: int, full: map<int, seq<seq<T>>>) {
    && l in s.bootstrap && l in s.stacks && l in s.live && l in full
    && |full[l]| == TENSORS && InRange(full[l], s.bootstrap[l])
    && s.bootstrap[l] != [] && Distinct(s.bootstrap[l])
    && s.stacks[l] == LoadPartial(full[l], s.bootstrap[l]) && s.live[l] == AsSet(s.bootstrap[l])
  }

  lemma InitialLayerOk<T>(s: Site<T>, id: ShardId, l: int, boot: Boot, full: map<int, seq<seq<T>>>)
    requires id in boot && s.bootstrap == boot[id] && InitialLayer(s, l, full)
    ensures LayerOk(s, l, boot, full)
  {
    LoadRight(full[l], s.bootstrap[l]);
    forall e | e in s.live[l] ensures SomeBootstrapOwner(boot, l, e) { assert Bootstrapped(boot, id, l, e); }
  }

  lemma InitialPlaced<T>(codec: Codec<T>, c: Cluster<T>, boot: Boot, full: map<int, seq<seq<T>>>)
    requires Initial(codec, c, boot, full)
    ensures Placed(codec, c, boot, full)
  {
    forall id | id in c.sites ensures SiteOk(codec, c.sites[id], id, boot, full) {
      var s := c.sites[id];
      assert InitialSite(s, id, boot, full);
      forall l | l in s.stacks || l in s.live || l in s.bootstrap ensures LayerOk(s, l, boot, full) {
        InitialLayerOk(s, id, l, boot, full);
      }
    }
  }

  // ------------------------------------------------------------ preservation

  lemma HearKeepsView(view: View, d: Delta, boot: Boot)
    requires Bootstrapped(boot, d.key.shard, d.key.layer, d.key.expert) ==> d.action == 0
    requires forall b, l, e :: Bootstrapped(boot, b, l, e) ==> Key(b, l, e) in view && view[Key(b, l, e)].action == 0
    ensures forall b, l, e :: Bootstrapped(boot, b, l, e) ==>
              Key(b, l, e) in Put(view, d) && Put(view, d)[Key(b, l, e)].action == 0
  {
  }

  lemma ServedRight<T(!new)>(codec: Codec<T>, header: seq<Byte>, source: Site<T>, p: Pull, boot: Boot,
      full: map<int, seq<seq<T>>>)
    requires Lossless(codec) && (p.layer in source.stacks ==> LayerOk(source, p.layer, boot, full))
    requires Served(codec, header, source, p).Some?
    ensures ReplyOk(codec, p.(reply := Served(codec, header, source, p)), boot, full)
  {
    var stack := source.stacks[p.layer];
    SliceRight(stack, full[p.layer], p.expert);
    TransferRoundTrip(codec, header, SliceExpert(stack, p.expert).value);
    assert p.expert in source.live[p.layer];
  }

  lemma AttachLayerOk<T>(s: Site<T>, id: ShardId, layer: int, e: int, ts: seq<T>, at: int, boot: Boot,
      full: map<int, seq<seq<T>>>)
    requires LayerOk(s, layer, boot, full) && TensorsOf(full[layer], e, ts) && SomeBootstrapOwner(boot, layer, e)
    requires e !in s.live[layer] && |s.live[layer]| < s.capacity
    ensures Attached(s, id, layer, e, ts, at).Some?
    ensures LayerOk(Attached(s, id, layer, e, ts, at).value, layer, boot, full)
  {
    assert e !in s.stacks[layer].held;
    AttachRight(s.stacks[layer], full[layer], e, ts);
    var s', grown := Attached(s, id, layer, e, ts, at).value, AttachExpert(s.stacks[layer], e, ts).value;
    assert s'.stacks[layer] == grown && s'.live[layer] == s.live[layer] + {e};
    forall x ensures x in s'.live[layer] <==> x in grown.held {
      assert x in grown.held <==> x == e || x in s.stacks[layer].held;
    }
    assert s'.live[layer] == AsSet(grown.held);
  }

  lemma DetachLayerOk<T>(s: Site<T>, id: ShardId, layer: int, v: int, at: int, boot: Boot, full: map<int, seq<seq<T>>>)
    requires LayerOk(s, layer, boot, full) && Evictable(s, layer, v)
    ensures Detached(s, id, layer, v, at).Some?
    ensures LayerOk(Detached(s, id, layer, v, at).value, layer, boot, full)
  {
    var keep := s.bootstrap[layer][0];
    assert keep in s.bootstrap[layer] && keep in s.live[layer] && keep != v;
    DetachRight(s.stacks[layer], full[layer], v, keep);
    var s', shrunk := Detached(s, id, layer, v, at).value, DetachExpert(s.stacks[layer], v).value;
    assert s'.stacks[layer] == shrunk && s'.live[layer] == s.live[layer] - {v};
    forall x ensures x in s'.live[layer] <==> x in shrunk.held {
      assert x in shrunk.held <==> x != v && x in s.stacks[layer].held;
    }
    assert s'.live[layer] == AsSet(shrunk.held);
  }

  lemma OtherLayer<T>(s: Site<T>, s': Site<T>, l: int, boot: Boot, full: map<int, seq<seq<T>>>)
    requires LayerOk(s, l, boot, full) && s'.bootstrap == s.bootstrap && s'.capacity == s.capacity
    requires l in s'.stacks && l in s'.live && s'.stacks[l] == s.stacks[l] && s'.live[l] == s.live[l]
    ensures LayerOk(s', l, boot, full)
  {
  }

  lemma FinishOk<T>(codec: Codec<T>, s: Site<T>, id: ShardId, at: int, boot: Boot, full: map<int, seq<seq<T>>>)
    requires SiteOk(codec, s, id, boot, full) && s.pull.Some? && s.pull.value.reply.Some?
    ensures var done := Finished(codec, s, id, at);
            done.Some? && SiteOk(codec, done.value.(pull := None), id, boot, full)
  {
    var p := s.pull.value;
    var ts := Decode(codec, p.reply.value).value;
    AttachLayerOk(s, id, p.layer, p.expert, ts, at, boot, full);
    var s' := Attached(s, id, p.layer, p.expert, ts, at).value;
    HearKeepsView(s.view, Delta(Key(id, p.layer, p.expert), 0, at), boot);
    forall l | l in s'.stacks || l in s'.live || l in s'.bootstrap ensures LayerOk(s'.(pull := None), l, boot, full) {
      if l == p.layer {
        OtherLayer(s', s'.(pull := None), l, boot, full);
      } else {
        OtherLayer(s, s'.(pull := None), l, boot, full);
      }
    }
  }

  lemma EvictOk<T>(codec: Codec<T>, s: Site<T>, id: ShardId, layer: int, v: int, at: int, boot: Boot,
      full: map<int, seq<seq<T>>>)
    requires SiteOk(codec, s, id, boot, full) && Evictable(s, layer, v)
    ensures Detached(s, id, layer, v, at).Some? && SiteOk(codec, Detached(s, id, layer, v, at).value, id, boot, full)
    ensures !Bootstrapped(boot, id, layer, v)
  {
    DetachLayerOk(s, id, layer, v, at, boot, full);
    var s' := Detached(s, id, layer, v, at).value;
    HearKeepsView(s.view, Delta(Key(id, layer, v), 1, at), boot);
    forall l | l in s'.stacks || l in s'.live || l in s'.bootstrap ensures LayerOk(s', l, boot, full) {
      if l != layer { OtherLayer(s, s', l, boot, full); }
    }
  }

  lemma WithPull<T>(codec: Codec<T>, s: Site<T>, id: ShardId, pull: Option<Pull>, boot: Boot,
      full: map<int, seq<seq<T>>>)
    requires SiteOk(codec, s, id, boot, full)
    requires pull.Some? ==> pull.value.layer in s.live && pull.value.expert !in s.live[pull.value.layer]
                            && |s.live[pull.value.layer]| < s.capacity && ReplyOk(codec, pull.value, boot, full)
    ensures SiteOk(codec, s.(pull := pull), id, boot, full)
  {
    var s' := s.(pull := pull);
    forall l | l in s'.stacks || l in s'.live || l in s'.bootstrap ensures LayerOk(s', l, boot, full) {
      OtherLayer(s, s', l, boot, full);
    }
  }

  lemma WithView<T>(codec: Codec<T>, s: Site<T>, id: ShardId, d: Delta, boot: Boot, full: map<int, seq<seq<T>>>)
    requires SiteOk(codec, s, id, boot, full)
    requires Bootstrapped(boot, d.key.shard, d.key.layer, d.key.expert) ==> d.action == 0
    ensures SiteOk(codec, s.(view := Put(s.view, d)), id, boot, full)
  {
    var s' := s.(view := Put(s.view, d));
    HearKeepsView(s.view, d, boot);
    forall l | l in s'.stacks || l in s'.live || l in s'.bootstrap ensures LayerOk(s', l, boot, full) {
      OtherLayer(s, s', l, boot, full);
    }
  }

  lemma OneSiteMoves<T>(codec: Codec<T>, c: Cluster<T>, id: ShardId, s': Site<T>, more: set<Delta>, boot: Boot,
      full: map<int, seq<seq<T>>>)
    requires Placed(codec, c, boot, full) && id in c.sites && SiteOk(codec, s', id, boot, full) && GossipOk(more, boot)
    ensures Placed(codec, Cluster(c.sites[id := s'], c.gossip + more), boot, full)
  {
    assert c.sites[id := s'].Keys == c.sites.Keys;
  }

  lemma AnswerOk<T(!new)>(codec: Codec<T>, s: Site<T>, id: ShardId, source: Site<T>, header: seq<Byte>, boot: Boot,
      full: map<int, seq<seq<T>>>)
    requires Lossless(codec) && SiteOk(codec, s, id, boot, full) && s.pull.Some?
    requires SiteOk(codec, source, s.pull.value.source, boot, full)
    ensures SiteOk(codec, Answered(codec, s, source, header), id, boot, full)
  {
    var p, reply := s.pull.value, Served(codec, header, source, s.pull.value);
    if p.reply.None? {
      if reply.Some? { ServedRight(codec, header, source, p, boot, full); }
      WithPull(codec, s, id, if reply.None? then None else Some(p.(reply := reply)), boot, full);
    }
  }

  lemma MovedOk<T(!new)>(codec: Codec<T>, c: Cluster<T>, a: Action, boot: Boot, full: map<int, seq<seq<T>>>)
    requires Lossless(codec) && a.node in c.sites && GossipOk(c.gossip, boot)
    requires SiteOk(codec, c.sites[a.node], a.node, boot, full)
    requires var p := c.sites[a.node].pull;
             p.Some? && p.value.source in c.sites ==> SiteOk(codec, c.sites[p.value.source], p.value.source, boot, full)
    ensures SiteOk(codec, Moved(codec, c, a), a.node, boot, full)
  {
    var id, s := a.node, c.sites[a.node];
    match a
    case Select(_, layer, e, source) =>
      if CanSelect(s, id, layer, e, source) { WithPull(codec, s, id, Some(Pull(layer, e, source, None)), boot, full); }
    case Serve(_, header) =>
      if s.pull.Some? && s.pull.value.source in c.sites {
        AnswerOk(codec, s, id, c.sites[s.pull.value.source], header, boot, full);
      }
    case Finish(_, ts, _, _) =>
      if s.pull.Some? && s.pull.value.reply.Some? { FinishOk(codec, s, id, ts, boot, full); }
    case Abort(_) => WithPull(codec, s, id, None, boot, full);
    case Evict(_, layer, victim, ts, _) =>
      if Evictable(s, layer, victim) { EvictOk(codec, s, id, layer, victim, ts, boot, full); }
    case Hear(_, d) =>
      if d in c.gossip { WithView(codec, s, id, d, boot, full); }
  }

  lemma AnnouncedOk<T>(codec: Codec<T>, c: Cluster<T>, a: Action, boot: Boot, full: map<int, seq<seq<T>>>)
    requires a.node in c.sites && SiteOk(codec, c.sites[a.node], a.node, boot, full)
    ensures GossipOk(Announced(codec, c, a), boot)
  {
    if a.Evict? && Evictable(c.sites[a.node], a.layer, a.victim) {
      EvictOk(codec, c.sites[a.node], a.node, a.layer, a.victim, a.ts, boot, full);
    }
  }

  lemma ActPlaced<T(!new)>(codec: Codec<T>, c: Cluster<T>, a: Action, boot: Boot, full: map<int, seq<seq<T>>>)
    requires Lossless(codec) && Placed(codec, c, boot, full)
    ensures Placed(codec, Act(codec, c, a), boot, full)
  {
    if a.node in c.sites {
      MovedOk(codec, c, a, boot, full);
      AnnouncedOk(codec, c, a, boot, full);
      OneSiteMoves(codec, c, a.node, Moved(codec, c, a), Announced(codec, c, a), boot, full);
    }
  }

  /** Over every run: all nine stacks on every node keep one row per held id equal to the original model's row, the
      live set is exactly what the backend holds, bootstrap experts stay, and no layer outgrows its bound. */
  lemma {:induction false} ReachablePlaced<T(!new)>(codec: Codec<T>, c: Cluster<T>, acts: seq<Action>, boot: Boot,
      full: map<int, seq<seq<T>>>)
    requires Lossless(codec) && Initial(codec, c, boot, full)
    ensures Placed(codec, Acts(codec, c, acts), boot, full)
    decreases |acts|
  {
    if acts == [] {
      InitialPlaced(codec, c, boot, full);
    } else {
      ReachablePlaced(codec, c, acts[..|acts| - 1], boot, full);
      ActPlaced(codec, Acts(codec, c, acts[..|acts| - 1]), acts[|acts| - 1], boot, full);
    }
  }

  /** Over every run: an expert some shard was booted with is always held, with the right row, by that shard. */
  lemma BootstrapAlwaysHeld<T(!new)>(codec: Codec<T>, c: Cluster<T>, acts: seq<Action>, boot: Boot,
                                     full: map<int, seq<seq<T>>>, b: ShardId, layer: int, e: int, i: nat)
    requires Lossless(codec) && Initial(codec, c, boot, full) && Bootstrapped(boot, b, layer, e) && i < TENSORS
    ensures var r := Acts(codec, c, acts);
            && b in r.sites && layer in r.sites[b].stacks && layer in full && i < |full[layer]|
            && |r.sites[b].stacks[layer].rows| == TENSORS && 0 <= e < |full[layer][i]|
            && RowFor(r.sites[b].stacks[layer], i, e) == Some(full[layer][i][e])
  {
    ReachablePlaced(codec, c, acts, boot, full);
    var s := Acts(codec, c, acts).sites[b];
    assert SiteOk(codec, s, b, boot, full);
    assert LayerOk(s, layer, boot, full);
    assert e in s.live[layer];
    RowForRight(s.stacks[layer], full[layer], i, e);
  }

  /** Over every run, however stale the gossip: the last-replica guard never fires for a migrated-in expert. */
  lemma LastReplicaNeverFires<T(!new)>(codec: Codec<T>, c: Cluster<T>, acts: seq<Action>, boot: Boot,
                                       full: map<int, seq<seq<T>>>, id: ShardId, layer: int, victim: int)
    requires Lossless(codec) && Initial(codec, c, boot, full)
    requires id in Acts(codec, c, acts).sites && Evictable(Acts(codec, c, acts).sites[id], layer, victim)
    ensures !LastReplica(Acts(codec, c, acts).sites[id], id, layer, victim)
  {
    ReachablePlaced(codec, c, acts, boot, full);
    OtherOwnerKnown(codec, Acts(codec, c, acts).sites[id], id, layer, victim, boot, full);
  }

  lemma OtherOwnerKnown<T>(codec: Codec<T>, s: Site<T>, id: ShardId, layer: int, victim: int, boot: Boot,
      full: map<int, seq<seq<T>>>)
    requires SiteOk(codec, s, id, boot, full) && Evictable(s, layer, victim)
    ensures !LastReplica(s, id, layer, victim)
  {
    assert LayerOk(s, layer, boot, full);
    assert SomeBootstrapOwner(boot, layer, victim);
    var b :| Bootstrapped(boot, b, layer, victim);
    assert Key(b, layer, victim) in s.view;
    assert b in Owners(s.view, layer, victim) && b != id;
    assert b in Owners(s.view, layer, victim) - {id};
  }
}
