/**
 What a received message does, told from the node before it and the node and
 messages after it: who is answered and how, which probe and which pending
 helps it settles, and which record every member ends with.
 */
module SwimReplies {
  import opened Common
  import opened Records
  import opened Backlog
  import opened Swim
  import opened SwimInvariants
  import opened SwimMessages
  import opened SwimProbing

  // ------------------------------------------------------- applying deltas

  predicate SameDuties(n: Node, n': Node) {
    && n'.selfId == n.selfId && n'.cfg == n.cfg && n'.modelId == n.modelId
    && n'.probe == n.probe && n'.probeCounter == n.probeCounter && n'.nextPeriodAt == n.nextPeriodAt
    && n'.helps == n.helps
  }

  /** The record of a known peer after it took delta d. */
  function Taken(was: MemberRecord, d: MemberRecord, now: real, window: real): MemberRecord {
    was.(state := d.state, incarnation := d.incarnation, modelId := d.modelId, lastChange := now,
         deadline := if d.state == Suspect then Some(now + window) else None)
  }

  /** The delta is about `id` and names a model this node admits. */
  predicate About(n: Node, d: MemberRecord, id: ShardId) {
    d.shardId == id && (n.modelId == "" || d.modelId == n.modelId)
  }

  predicate Higher(d: MemberRecord, e: MemberRecord) {
    d.incarnation > e.incarnation || (d.incarnation == e.incarnation && d.state.Severity() > e.state.Severity())
  }

  /** No admitted delta about `id` is above `r`. */
  ghost predicate Highest(n: Node, ds: seq<MemberRecord>, id: ShardId, r: MemberRecord) {
    forall d :: d in ds && About(n, d, id) ==> !Higher(d, r)
  }

  /** A peer's record after a list of deltas: the old one if none is above it, otherwise the highest one taken. */
  ghost predicate Settled(n: Node, ds: seq<MemberRecord>, id: ShardId, was: MemberRecord, r: MemberRecord, now: real) {
    || (r == was && Highest(n, ds, id, was))
    || exists d :: d in ds && TakenFrom(n, ds, id, was, r, now, d)
  }

  ghost predicate TakenFrom(n: Node, ds: seq<MemberRecord>, id: ShardId, was: MemberRecord, r: MemberRecord, now: real,
                            d: MemberRecord) {
    About(n, d, id) && Higher(d, was) && Highest(n, ds, id, d) && r == Taken(was, d, now, n.cfg.SuspectWindow())
  }

  predicate Accuses(n: Node, d: MemberRecord) { d.shardId == n.selfId && d.state != Alive }

  /** This node's incarnation after a list of deltas: just above every accusation, and no more. */
  ghost predicate Refuted(n: Node, ds: seq<MemberRecord>, n': Node, now: real) {
    && n'.selfIncarnation >= n.selfIncarnation
    && (forall d :: d in ds && Accuses(n, d) ==> n'.selfIncarnation > d.incarnation)
    && (n'.selfIncarnation > n.selfIncarnation ==>
          exists d :: d in ds && Accuses(n, d) && n'.selfIncarnation == d.incarnation + 1)
    && n.selfId in n.members && n.selfId in n'.members
    && n'.members[n.selfId]
       == if n'.selfIncarnation == n.selfIncarnation then n.members[n.selfId]
          else n.members[n.selfId].(state := Alive, incarnation := n'.selfIncarnation, lastChange := now,
                                    deadline := None)
  }

  lemma OneFrame(c: Conf, d: MemberRecord, ev: Event)
    ensures var r := ApplyOne(c, d, ev); SameDuties(c.node, r.node) && r.out == c.out
    ensures c.node.members.Keys <= ApplyOne(c, d, ev).node.members.Keys
  {}

  lemma {:induction false} AllFrame(c: Conf, ds: seq<MemberRecord>, ev: Event)
    ensures var r := ApplyAll(c, ds, ev); SameDuties(c.node, r.node) && r.out == c.out
    ensures c.node.members.Keys <= ApplyAll(c, ds, ev).node.members.Keys
    decreases |ds|
  {
    if ds != [] {
      OneFrame(c, ds[0], ev);
      AllFrame(ApplyOne(c, ds[0], ev), ds[1..], ev);
    }
  }

  lemma OneRefutes(c: Conf, d: MemberRecord, ev: Event)
    requires c.node.selfId in c.node.members && Carries(ev, d)
    ensures Refuted(c.node, [d], ApplyOne(c, d, ev).node, ev.now)
  {
    OneFrame(c, d, ev);
    assert [d][0] == d;
  }

  lemma RefutedTrans(n: Node, d: MemberRecord, n1: Node, ds: seq<MemberRecord>, n2: Node, now: real)
    requires Refuted(n, [d], n1, now) && Refuted(n1, ds, n2, now) && n1.selfId == n.selfId
    ensures Refuted(n, [d] + ds, n2, now)
  {
    if n2.selfIncarnation > n1.selfIncarnation {
      var e :| e in ds && Accuses(n1, e) && n2.selfIncarnation == e.incarnation + 1;
      assert e in [d] + ds && Accuses(n, e);
    } else if n1.selfIncarnation > n.selfIncarnation {
      assert d in [d] + ds && Accuses(n, d);
    }
    forall e | e in [d] + ds && Accuses(n, e) ensures n2.selfIncarnation > e.incarnation {
      assert e in [d] || e in ds;
    }
  }

  lemma {:induction false} AllRefutes(c: Conf, ds: seq<MemberRecord>, ev: Event)
    requires c.node.selfId in c.node.members && forall d :: d in ds ==> Carries(ev, d)
    ensures Refuted(c.node, ds, ApplyAll(c, ds, ev).node, ev.now)
    decreases |ds|
  {
    if ds != [] {
      var c1 := ApplyOne(c, ds[0], ev);
      OneFrame(c, ds[0], ev);
      OneRefutes(c, ds[0], ev);
      AllRefutes(c1, ds[1..], ev);
      RefutedTrans(c.node, ds[0], c1.node, ds[1..], ApplyAll(c1, ds[1..], ev).node, ev.now);
      assert [ds[0]] + ds[1..] == ds;
    }
  }

  lemma OneSettles(c: Conf, d: MemberRecord, ev: Event, id: ShardId)
    requires id in c.node.members && id != c.node.selfId && Carries(ev, d)
    ensures var r := ApplyOne(c, d, ev).node;
            id in r.members && r.members[id] == if About(c.node, d, id) && Higher(d, c.node.members[id])
                                                then Taken(c.node.members[id], d, ev.now, c.node.cfg.SuspectWindow())
                                                else c.node.members[id]
  {}

  lemma SettledCons(n: Node, d: MemberRecord, ds: seq<MemberRecord>, id: ShardId, was: MemberRecord, mid: MemberRecord,
                    r: MemberRecord, now: real)
    requires mid == if About(n, d, id) && Higher(d, was) then Taken(was, d, now, n.cfg.SuspectWindow()) else was
    requires Settled(n, ds, id, mid, r, now)
    ensures Settled(n, [d] + ds, id, was, r, now)
  {
    var all := [d] + ds;
    if r == mid && Highest(n, ds, id, mid) {
      if mid == was && !(About(n, d, id) && Higher(d, was)) {
        assert Highest(n, all, id, was);
      } else {
        assert d in all && TakenFrom(n, all, id, was, r, now, d);
      }
    } else {
      var e :| e in ds && TakenFrom(n, ds, id, mid, r, now, e);
      assert e in all && TakenFrom(n, all, id, was, r, now, e);
    }
  }

  lemma SettledSame(n: Node, n': Node, ds: seq<MemberRecord>, id: ShardId, was: MemberRecord, r: MemberRecord,
                    now: real)
    requires n'.modelId == n.modelId && n'.cfg == n.cfg && Settled(n', ds, id, was, r, now)
    ensures Settled(n, ds, id, was, r, now)
  {
    if !(r == was && Highest(n', ds, id, was)) {
      var d :| d in ds && TakenFrom(n', ds, id, was, r, now, d);
      assert TakenFrom(n, ds, id, was, r, now, d);
    }
  }

  lemma {:induction false} AllSettles(c: Conf, ds: seq<MemberRecord>, ev: Event, id: ShardId)
    requires id in c.node.members && id != c.node.selfId && forall d :: d in ds ==> Carries(ev, d)
    ensures var r := ApplyAll(c, ds, ev).node;
            id in r.members && Settled(c.node, ds, id, c.node.members[id], r.members[id], ev.now)
    decreases |ds|
  {
    if ds != [] {
      var c1 := ApplyOne(c, ds[0], ev);
      OneFrame(c, ds[0], ev);
      OneSettles(c, ds[0], ev, id);
      AllSettles(c1, ds[1..], ev, id);
      var r := ApplyAll(c1, ds[1..], ev).node.members[id];
      SettledSame(c.node, c1.node, ds[1..], id, c1.node.members[id], r, ev.now);
      SettledCons(c.node, ds[0], ds[1..], id, c.node.members[id], c1.node.members[id], r, ev.now);
      assert [ds[0]] + ds[1..] == ds;
    }
  }

  /** An unknown id stays out unless some admitted delta is about it; the first such record is installed as it came,
      and the later ones are weighed against it. */
  ghost predicate Learned(n: Node, ds: seq<MemberRecord>, id: ShardId, view: map<ShardId, MemberRecord>, now: real) {
    if forall d :: d in ds ==> !About(n, d, id) then id !in view
    else id in view && exists j :: 0 <= j < |ds| && LearnedAt(n, ds, id, view[id], now, j)
  }

  ghost predicate LearnedAt(n: Node, ds: seq<MemberRecord>, id: ShardId, r: MemberRecord, now: real, j: int)
    requires 0 <= j < |ds|
  {
    && About(n, ds[j], id) && (forall i :: 0 <= i < j ==> !About(n, ds[i], id))
    && Settled(n, ds[j + 1..], id, ds[j], r, now)
  }

  lemma OneLearns(c: Conf, d: MemberRecord, ev: Event, id: ShardId)
    requires id !in c.node.members && id != c.node.selfId && c.node.selfId in c.node.members
    requires ev.Recv? && ev.msg.MembershipDelta? && d in ev.msg.deltas
    ensures var r := ApplyOne(c, d, ev).node;
            if About(c.node, d, id) then id in r.members && r.members[id] == d else id !in r.members
  {}

  lemma {:induction false} AllLearns(c: Conf, ds: seq<MemberRecord>, ev: Event, id: ShardId)
    requires id !in c.node.members && id != c.node.selfId && c.node.selfId in c.node.members
    requires ev.Recv? && ev.msg.MembershipDelta? && forall d :: d in ds ==> d in ev.msg.deltas
    ensures Learned(c.node, ds, id, ApplyAll(c, ds, ev).node.members, ev.now)
    decreases |ds|
  {
    if ds != [] {
      var c1 := ApplyOne(c, ds[0], ev);
      OneFrame(c, ds[0], ev);
      OneLearns(c, ds[0], ev, id);
      var view := ApplyAll(c1, ds[1..], ev).node.members;
      assert ds == [ds[0]] + ds[1..];
      if About(c.node, ds[0], id) {
        AllSettles(c1, ds[1..], ev, id);
        SettledSame(c.node, c1.node, ds[1..], id, ds[0], view[id], ev.now);
        assert LearnedAt(c.node, ds, id, view[id], ev.now, 0);
      } else {
        AllLearns(c1, ds[1..], ev, id);
        LearnedLater(c.node, c1.node, ds, id, view, ev.now);
      }
    }
  }

  lemma LearnedLater(n: Node, n1: Node, ds: seq<MemberRecord>, id: ShardId, view: map<ShardId, MemberRecord>, now: real)
    requires ds != [] && n1.modelId == n.modelId && n1.cfg == n.cfg
    requires !About(n, ds[0], id) && Learned(n1, ds[1..], id, view, now)
    ensures Learned(n, ds, id, view, now)
  {
    assert ds == [ds[0]] + ds[1..];
    if exists d :: d in ds[1..] && About(n1, d, id) {
      var j :| 0 <= j < |ds[1..]| && LearnedAt(n1, ds[1..], id, view[id], now, j);
      assert ds[1..][j + 1..] == ds[j + 2..];
      SettledSame(n, n1, ds[j + 2..], id, ds[j + 1], view[id], now);
      forall i | 0 <= i < j + 1 ensures !About(n, ds[i], id) {
        assert i > 0 ==> ds[i] == ds[1..][i - 1];
      }
      assert LearnedAt(n, ds, id, view[id], now, j + 1);
    }
  }

  lemma {:induction false} AllKeepKeys(c: Conf, ds: seq<MemberRecord>, ev: Event)
    requires ev.Recv? && !ev.msg.MembershipDelta?
    ensures ApplyAll(c, ds, ev).node.members.Keys == c.node.members.Keys
    decreases |ds|
  {
    if ds != [] { AllKeepKeys(ApplyOne(c, ds[0], ev), ds[1..], ev); }
  }

  // ------------------------------------------------------------- the sender

  /** What a Ping or an Ack says about its sender before its deltas are read: it is alive. */
  function Heard(n: Node, msg: Message, id: ShardId, now: real): MemberRecord
    requires id in n.members && (msg.Ping? || msg.Ack?)
  {
    var was := n.members[id];
    if id == msg.sender && id != n.selfId && was.state != Alive
    then was.(state := Alive, incarnation := Max(was.incarnation, msg.senderIncarnation), lastChange := now,
              deadline := None)
    else was
  }

  lemma Promotes(c: Conf, ev: Event)
    requires ev.Recv? && (ev.msg.Ping? || ev.msg.Ack?)
    ensures var r := Try(c, Write(Promoting(ev.msg.sender, ev.msg.senderIncarnation)), ev);
            && SameDuties(c.node, r.node) && r.node.selfIncarnation == c.node.selfIncarnation && r.out == c.out
            && r.node.members.Keys == c.node.members.Keys
            && forall id :: id in c.node.members ==> r.node.members[id] == Heard(c.node, ev.msg, id, ev.now)
  {}

  /** Every record and the own incarnation after a Ping or an Ack was taken in. */
  ghost predicate TookIn(n: Node, n': Node, msg: Message, now: real)
    requires msg.Ping? || msg.Ack?
  {
    && n'.members.Keys == n.members.Keys && Refuted(n, msg.deltas, n', now)
    && forall id :: id in n.members && id != n.selfId ==> TookInAt(n, n', msg, now, id)
  }

  ghost predicate TookInAt(n: Node, n': Node, msg: Message, now: real, id: ShardId)
    requires (msg.Ping? || msg.Ack?) && id in n.members && n'.members.Keys == n.members.Keys
  {
    Settled(n, msg.deltas, id, Heard(n, msg, id, now), n'.members[id], now)
  }

  lemma TakesIn(c: Conf, ev: Event)
    requires ev.Recv? && (ev.msg.Ping? || ev.msg.Ack?) && c.node.selfId in c.node.members
    ensures var c1 := Try(c, Write(Promoting(ev.msg.sender, ev.msg.senderIncarnation)), ev);
            var r := ApplyAll(c1, ev.msg.deltas, ev);
            SameDuties(c.node, r.node) && r.out == c.out && TookIn(c.node, r.node, ev.msg, ev.now)
  {
    var c1 := Try(c, Write(Promoting(ev.msg.sender, ev.msg.senderIncarnation)), ev);
    Promotes(c, ev);
    var ds := ev.msg.deltas;
    AllFrame(c1, ds, ev);
    AllKeepKeys(c1, ds, ev);
    AllRefutes(c1, ds, ev);
    var r := ApplyAll(c1, ds, ev).node;
    RefutedFrom(c.node, c1.node, ds, r, ev.now);
    forall id | id in c.node.members && id != c.node.selfId ensures TookInAt(c.node, r, ev.msg, ev.now, id) {
      AllSettles(c1, ds, ev, id);
      SettledSame(c.node, c1.node, ds, id, c1.node.members[id], r.members[id], ev.now);
    }
  }

  lemma RefutedFrom(n: Node, n1: Node, ds: seq<MemberRecord>, n': Node, now: real)
    requires n1.selfId == n.selfId && n1.selfIncarnation == n.selfIncarnation
    requires n.selfId in n.members && n.selfId in n1.members && n1.members[n.selfId] == n.members[n.selfId]
    requires Refuted(n1, ds, n', now)
    ensures Refuted(n, ds, n', now)
  {
    assert forall d :: Accuses(n1, d) == Accuses(n, d);
  }

  // ----------------------------------------------------------- the messages

  /** A Ping from a known member is answered with exactly one Ack, to the sender, under this node's incarnation after
      the deltas, carrying its own record first. A Ping from a stranger changes and sends nothing. */
  lemma PingIsAcked(n: Node, ev: Event)
    requires ev.Recv? && ev.msg.Ping? && n.selfId in n.members
    ensures ev.msg.sender !in n.members ==> Step(n, ev) == Conf(n, [])
    ensures ev.msg.sender in n.members ==> Acks(n, Step(n, ev), ev.msg, ev.now)
  {
    if ev.msg.sender in n.members {
      var c := Conf(n, []);
      TakesIn(c, ev);
      var r := ApplyAll(Try(c, Write(Promoting(ev.msg.sender, ev.msg.senderIncarnation)), ev), ev.msg.deltas, ev);
      SendsAck(n, r, ev);
    }
  }

  ghost predicate Acks(n: Node, r: Conf, msg: Message, now: real)
    requires msg.Ping?
  {
    && |r.out| == 1 && r.out[0].target == msg.sender && r.out[0].payload.Ack?
    && r.out[0].payload.sender == n.selfId && r.out[0].payload.senderIncarnation == r.node.selfIncarnation
    && OwnFirst(r.node, r.out[0].payload.deltas)
    && SameDuties(n, r.node) && TookIn(n, r.node, msg, now)
  }

  ghost predicate OwnFirst(n: Node, ds: seq<MemberRecord>) {
    n.selfId in n.members && ds != [] && ds[0] == n.members[n.selfId]
  }

  lemma SendsAck(n: Node, c: Conf, ev: Event)
    requires ev.Recv? && ev.msg.Ping? && ev.msg.sender in n.members && c.out == []
    requires SameDuties(n, c.node) && TookIn(n, c.node, ev.msg, ev.now)
    ensures Acks(n, Try(c, Send(ReplyAck), ev), ev.msg, ev.now)
  {
    assert Can(c, Send(ReplyAck), ev);
    var r := Try(c, Send(ReplyAck), ev);
    assert r.node == c.node.(backlog := r.node.backlog);
    TookInSame(n, c.node, r.node, ev.msg, ev.now);
  }

  lemma TookInSame(n: Node, m: Node, m': Node, msg: Message, now: real)
    requires (msg.Ping? || msg.Ack?) && TookIn(n, m, msg, now)
    requires m'.members == m.members && m'.selfIncarnation == m.selfIncarnation
    ensures TookIn(n, m', msg, now)
  {
    forall id | id in n.members && id != n.selfId ensures TookInAt(n, m', msg, now, id) {
      assert TookInAt(n, m, msg, now, id);
    }
  }

  /** A ping-request about a known target is passed on as exactly one Ping to the target, and remembered. One about a
      stranger changes and sends nothing. */
  lemma PingReqIsRelayed(n: Node, ev: Event)
    requires ev.Recv? && ev.msg.PingReq? && n.selfId in n.members
    ensures ev.msg.target !in n.members ==> Step(n, ev) == Conf(n, [])
    ensures ev.msg.target in n.members ==>
              var r := Step(n, ev);
              && |r.out| == 1 && IsPing(r.out[0], ev.msg.target, n) && OwnFirst(n, r.out[0].payload.deltas)
              && r.node == n.(helps := n.helps + [Help(ev.msg.probeId, ev.msg.target, ev.msg.sender, ev.now)],
                              backlog := r.node.backlog)
  {}

  /** A helper's answer to the pending probe: a positive one ends the probe, a negative one is counted, and the last
      negative one ends the probe with its target suspected. Any other answer changes nothing. Nothing is sent. */
  lemma HelperAnswerCounts(n: Node, ev: Event)
    requires ev.Recv? && ev.msg.PingReqAck? && ProbeOk(n)
    ensures n.probe.None? || n.probe.value.probeId != ev.msg.probeId ==> Step(n, ev) == Conf(n, [])
    ensures n.probe.Some? && n.probe.value.probeId == ev.msg.probeId ==>
              var r, p := Step(n, ev), n.probe.value;
              && r.out == []
              && (ev.msg.success ==> r.node == n.(probe := None))
              && (!ev.msg.success && p.nacks + 1 < |p.helpers| ==>
                    r.node == n.(probe := Some(p.(nacks := p.nacks + 1))))
              && (!ev.msg.success && p.nacks + 1 >= |p.helpers| ==>
                    && r.node.probe.None?
                    && r.node.members == GivenUp(n, p.target, ev.now)
                    && r.node.members[p.target].state != Alive)
  {}

  /** A Join is refused in silence when it names another model. Otherwise the newcomer is entered as ALIVE as it
      announced itself, unless it is recorded DEAD at a higher incarnation, and is sent the whole view once. */
  lemma JoinIsEchoed(n: Node, ev: Event)
    requires ev.Recv? && ev.msg.Join? && ViewOk(n)
    ensures !About(n, ev.msg.newcomer, ev.msg.newcomer.shardId) ==> Step(n, ev) == Conf(n, [])
    ensures About(n, ev.msg.newcomer, ev.msg.newcomer.shardId) ==> Joins(n, Step(n, ev), ev.msg.newcomer, ev.now)
  {
    if About(n, ev.msg.newcomer, ev.msg.newcomer.shardId) {
      var c := Try(Conf(n, []), Write(Joining(ev.msg.newcomer)), ev);
      assert c.node.members == AfterJoin(n, ev.msg.newcomer, ev.now) && c.out == [];
      assert Can(c, Send(EchoView), ev);
      JoinKeepsOrder(n, ev);
      ValuesAreTheView(c.node, c.node.order, c.node.members.Keys);
    }
  }

  function AfterJoin(n: Node, d: MemberRecord, now: real): map<ShardId, MemberRecord> {
    if d.shardId in n.members && n.members[d.shardId].state == Dead && n.members[d.shardId].incarnation > d.incarnation
    then n.members else n.members[d.shardId := d.(state := Alive, lastChange := now, deadline := None)]
  }

  ghost predicate Joins(n: Node, r: Conf, d: MemberRecord, now: real) {
    && r.node.members == AfterJoin(n, d, now) && SameDuties(n, r.node) && r.node.selfIncarnation == n.selfIncarnation
    && |r.out| == 1 && r.out[0].target == d.shardId && r.out[0].payload.MembershipDelta?
    && WholeView(r.node.members, r.out[0].payload.deltas)
  }

  /** Every member's record, each once, and nothing else. */
  ghost predicate WholeView(view: map<ShardId, MemberRecord>, ds: seq<MemberRecord>) {
    multiset(ds) == multiset(RecordSet(view))
  }

  function RecordSet(view: map<ShardId, MemberRecord>): set<MemberRecord> { set id | id in view :: view[id] }

  lemma JoinKeepsOrder(n: Node, ev: Event)
    requires ev.Recv? && ev.msg.Join? && ViewOk(n)
    ensures var m := Try(Conf(n, []), Write(Joining(ev.msg.newcomer)), ev).node;
            && (forall id :: id in m.order <==> id in m.members) && Distinct(m.order)
            && forall id :: id in m.members ==> m.members[id].shardId == id
  {}

  lemma {:induction false} ValuesAreTheView(n: Node, ids: seq<ShardId>, s: set<ShardId>)
    requires Distinct(ids) && (forall id :: id in ids <==> id in s) && s <= n.members.Keys
    requires forall id :: id in n.members ==> n.members[id].shardId == id
    ensures multiset(Values(n, ids)) == multiset(set id | id in s :: n.members[id])
    decreases |ids|
  {
    if ids != [] {
      var rest := s - {ids[0]};
      assert forall j :: 0 <= j < |ids[1..]| ==> ids[1..][j] == ids[j + 1];
      assert ids == [ids[0]] + ids[1..];
      ValuesAreTheView(n, ids[1..], rest);
      var tail := set id | id in rest :: n.members[id];
      assert ids[0] in ids && ids[0] in s;
      assert (set id | id in s :: n.members[id]) == tail + {n.members[ids[0]]};
      assert n.members[ids[0]] !in tail;
    } else {
      assert s == {};
    }
  }

  /** A MembershipDelta is taken in by strangers and known peers alike, and answered by nothing. */
  lemma DeltaIsTaken(n: Node, ev: Event)
    requires ev.Recv? && ev.msg.MembershipDelta? && n.selfId in n.members
    ensures var r := Step(n, ev);
            && r.out == [] && SameDuties(n, r.node) && n.members.Keys <= r.node.members.Keys
            && Refuted(n, ev.msg.deltas, r.node, ev.now)
            && (forall id :: id in n.members && id != n.selfId ==>
                  Settled(n, ev.msg.deltas, id, n.members[id], r.node.members[id], ev.now))
            && forall id :: id !in n.members ==> Learned(n, ev.msg.deltas, id, r.node.members, ev.now)
  {
    var c, ds := Conf(n, []), ev.msg.deltas;
    AllFrame(c, ds, ev);
    AllRefutes(c, ds, ev);
    var r := ApplyAll(c, ds, ev);
    forall id | id in n.members && id != n.selfId
      ensures Settled(n, ds, id, n.members[id], r.node.members[id], ev.now)
    {
      AllSettles(c, ds, ev, id);
    }
    forall id | id !in n.members ensures Learned(n, ds, id, r.node.members, ev.now) { AllLearns(c, ds, ev, id); }
  }

  /** The answer to a help request whose target has just spoken. */
  ghost predicate Confirms(o: Outgoing, n: Node, target: ShardId) {
    && o.payload.PingReqAck? && o.payload.success && o.payload.sender == n.selfId && o.payload.target == target
    && OwnFirst(n, o.payload.deltas)
  }

  lemma ConfirmOne(c: Conf, i: nat, ev: Event)
    requires ev.Recv? && ev.msg.Ack? && c.node.selfId in c.node.members
    requires i < |c.node.helps| && c.node.helps[i].target == ev.msg.sender
    ensures Sendable(c.node, ReplyHelp(i, true), ev)
    ensures var r := DoSend(c, ReplyHelp(i, true), ev);
            && r.node == c.node.(helps := c.node.helps[..i] + c.node.helps[i + 1..], backlog := r.node.backlog)
            && |r.out| == |c.out| + 1 && r.out[..|c.out|] == c.out && Confirms(r.out[|c.out|], c.node, ev.msg.sender)
  {}

  lemma {:induction false} FlushConfirms(c: Conf, i: nat, ev: Event)
    requires ev.Recv? && ev.msg.Ack? && c.node.selfId in c.node.members && i <= |c.node.helps|
    requires forall j :: 0 <= j < i ==> c.node.helps[j].target != ev.msg.sender
    requires forall j :: 0 <= j < |c.out| ==> Confirms(c.out[j], c.node, ev.msg.sender)
    ensures var r := FlushHelps(c, i, true, ev);
            && r.node == c.node.(helps := r.node.helps, backlog := r.node.backlog)
            && (forall h :: h in r.node.helps <==> h in c.node.helps && h.target != ev.msg.sender)
            && forall j :: 0 <= j < |r.out| ==> Confirms(r.out[j], c.node, ev.msg.sender)
    decreases |c.node.helps| - i
  {
    if i < |c.node.helps| {
      if c.node.helps[i].target == ev.msg.sender {
        ConfirmOne(c, i, ev);
        var c1 := DoSend(c, ReplyHelp(i, true), ev);
        forall j | 0 <= j < |c1.out| ensures Confirms(c1.out[j], c1.node, ev.msg.sender) {
          assert j < |c.out| ==> c1.out[j] == c1.out[..|c.out|][j];
        }
        FlushConfirms(c1, i, ev);
        var hs := c.node.helps;
        assert hs == hs[..i] + [hs[i]] + hs[i + 1..];
      } else {
        FlushConfirms(c, i + 1, ev);
      }
    }
  }

  /** An Ack ends the probe of its sender, is taken in like a Ping, and confirms exactly the pending help requests about
      its sender: each of them is answered, none of them stays, and the others stay. */
  lemma AckSettles(n: Node, ev: Event)
    requires ev.Recv? && ev.msg.Ack? && n.selfId in n.members
    ensures Acknowledges(n, Step(n, ev), ev.msg, ev.now)
    ensures Pending(n.helps) == Pending(Step(n, ev).node.helps) + Answered(Step(n, ev).out)
  {
    var c := Conf(n, []);
    var c1 := if n.probe.Some? && n.probe.value.target == ev.msg.sender then Do(c, Book(ClearProbe), ev) else c;
    TakesIn(c1, ev);
    var c2 := ApplyAll(Try(c1, Write(Promoting(ev.msg.sender, ev.msg.senderIncarnation)), ev), ev.msg.deltas, ev);
    FlushConfirms(c2, 0, ev);
    AcknowledgedBy(n, c1.node, c2, FlushHelps(c2, 0, true, ev), ev.msg, ev.now);
    StepBalances(n, ev);
  }

  ghost predicate Acknowledges(n: Node, r: Conf, msg: Message, now: real)
    requires msg.Ack?
  {
    && r.node.selfId == n.selfId && r.node.cfg == n.cfg
    && r.node.probeCounter == n.probeCounter && r.node.nextPeriodAt == n.nextPeriodAt
    && r.node.probe == (if n.probe.Some? && n.probe.value.target == msg.sender then None else n.probe)
    && TookIn(n, r.node, msg, now)
    && (forall h :: h in r.node.helps <==> h in n.helps && h.target != msg.sender)
    && forall j :: 0 <= j < |r.out| ==> Confirms(r.out[j], r.node, msg.sender)
  }

  lemma AcknowledgedBy(n: Node, n1: Node, c2: Conf, r: Conf, msg: Message, now: real)
    requires msg.Ack?
    requires n1 == n.(probe := if n.probe.Some? && n.probe.value.target == msg.sender then None else n.probe)
    requires SameDuties(n1, c2.node) && TookIn(n1, c2.node, msg, now)
    requires r.node == c2.node.(helps := r.node.helps, backlog := r.node.backlog)
    requires forall h :: h in r.node.helps <==> h in c2.node.helps && h.target != msg.sender
    requires forall j :: 0 <= j < |r.out| ==> Confirms(r.out[j], c2.node, msg.sender)
    ensures Acknowledges(n, r, msg, now)
  {
    TookInSame(n1, c2.node, r.node, msg, now);
    RefutedFrom(n, n1, msg.deltas, r.node, now);
    forall id | id in n.members && id != n.selfId ensures TookInAt(n, r.node, msg, now, id) {
      assert TookInAt(n1, r.node, msg, now, id);
      SettledSame(n, n1, msg.deltas, id, Heard(n, msg, id, now), r.node.members[id], now);
    }
  }
}
