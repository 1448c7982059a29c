/**
 What leaves a node: the log only grows, every message carries records that
 were current at the moment it was built, and no accepted ping-request is
 answered twice or forgotten.
 */
module SwimMessages {
  import opened Common
  import opened Records
  import opened Backlog
  import opened BacklogLemmas
  import opened Swim
  import opened SwimInvariants

  // ------------------------------------------------------- current records

  ghost predicate Holds(view: map<ShardId, MemberRecord>, ds: seq<MemberRecord>) {
    forall d :: d in ds ==> d.shardId in view && view[d.shardId] == d
  }

  /** The message was built from the view after some k of the logged transitions, k at least `from`. */
  ghost predicate BuiltFrom(n: Node, msg: Message, from: nat, start: map<ShardId, MemberRecord>) {
    && !msg.Join?
    && exists k :: from <= k <= |n.log| && CurrentAt(n, msg, k, start)
  }

  ghost predicate CurrentAt(n: Node, msg: Message, k: nat, start: map<ShardId, MemberRecord>)
    requires k <= |n.log| && !msg.Join?
  {
    var view := Replay(n.log[..k], start);
    && Holds(view, msg.deltas)
    && (!msg.MembershipDelta? ==>
          && 1 <= |msg.deltas| <= 1 + n.cfg.kGossip
          && n.selfId in view && msg.deltas[0] == view[n.selfId])
  }

  ghost predicate Honest(c: Conf, base: Node, start: map<ShardId, MemberRecord>) {
    && Inv(c.node, start)
    && base.log <= c.node.log && c.node.cfg == base.cfg && c.node.selfId == base.selfId
    && forall i :: 0 <= i < |c.out| ==> BuiltFrom(c.node, c.out[i].payload, |base.log|, start)
  }

  lemma PiggyBackHolds(n: Node, start: map<ShardId, MemberRecord>)
    requires Inv(n, start)
    ensures Holds(n.members, PiggyBack(n))
    ensures 1 <= |PiggyBack(n)| <= 1 + n.cfg.kGossip && PiggyBack(n)[0] == n.members[n.selfId]
  {
    var picked := Picked(n.backlog, n.cfg.kGossip);
    forall i | 0 <= i < |picked| ensures picked[i] in n.backlog { SortedMembership(n.backlog, picked[i]); }
    forall d | d in PiggyBack(n) ensures d.shardId in n.members && n.members[d.shardId] == d {
      if d != n.members[n.selfId] {
        var i :| 0 <= i < |picked| && RecordsOf(picked)[i] == d;
        assert picked[i] in n.backlog;
      }
    }
  }

  lemma {:induction false} ValuesHold(n: Node, ids: seq<ShardId>, start: map<ShardId, MemberRecord>)
    requires Inv(n, start)
    ensures Holds(n.members, Values(n, ids))
  {
    if ids != [] { ValuesHold(n, ids[1..], start); }
  }

  lemma LogExtension(n: Node, n': Node, msg: Message, from: nat, start: map<ShardId, MemberRecord>)
    requires BuiltFrom(n, msg, from, start)
    requires n.log <= n'.log && n.cfg == n'.cfg && n.selfId == n'.selfId
    ensures BuiltFrom(n', msg, from, start)
  {
    var k :| from <= k <= |n.log| && CurrentAt(n, msg, k, start);
    assert n.log[..k] == n'.log[..k];
    assert CurrentAt(n', msg, k, start);
  }

  lemma SentNow(c: Conf, e: Emission, ev: Event, from: nat, start: map<ShardId, MemberRecord>)
    requires Inv(c.node, start) && Sendable(c.node, e, ev) && from <= |c.node.log|
    ensures BuiltFrom(c.node, Sent(c.node, e, ev).payload, from, start)
  {
    PiggyBackHolds(c.node, start);
    ValuesHold(c.node, c.node.order, start);
    assert c.node.log[..|c.node.log|] == c.node.log;
    assert CurrentAt(c.node, Sent(c.node, e, ev).payload, |c.node.log|, start);
  }

  lemma HonestGrows(c: Conf, c': Conf, base: Node, start: map<ShardId, MemberRecord>)
    requires Honest(c, base, start) && Inv(c'.node, start)
    requires c.node.log <= c'.node.log && c.node.cfg == c'.node.cfg && c.node.selfId == c'.node.selfId
    requires c.out <= c'.out
    requires forall i :: |c.out| <= i < |c'.out| ==> BuiltFrom(c'.node, c'.out[i].payload, |base.log|, start)
    ensures Honest(c', base, start)
  {
    forall i | 0 <= i < |c'.out| ensures BuiltFrom(c'.node, c'.out[i].payload, |base.log|, start) {
      if i < |c.out| { LogExtension(c.node, c'.node, c'.out[i].payload, |base.log|, start); }
    }
  }

  lemma SendHonest(c: Conf, e: Emission, ev: Event, base: Node, start: map<ShardId, MemberRecord>)
    requires Honest(c, base, start) && Sendable(c.node, e, ev)
    ensures Honest(DoSend(c, e, ev), base, start)
  {
    var c' := DoSend(c, e, ev);
    SendKeeps(c, e, ev, start);
    SentNow(c, e, ev, |base.log|, start);
    LogExtension(c.node, c'.node, Sent(c.node, e, ev).payload, |base.log|, start);
    HonestGrows(c, c', base, start);
  }

  lemma MicroHonest(c: Conf, m: Micro, ev: Event, base: Node, start: map<ShardId, MemberRecord>)
    requires Honest(c, base, start) && Can(c, m, ev)
    ensures Honest(Do(c, m, ev), base, start)
  {
    match m
    case Send(e) => SendHonest(c, e, ev, base, start);
    case Write(ch) =>
      WriteKeeps(c.node, ch, ev, start);
      HonestGrows(c, c.(node := DoWrite(c.node, ch, ev)), base, start);
    case Book(b) =>
      BookKeeps(c.node, b, ev, start);
      HonestGrows(c, c.(node := DoBook(c.node, b, ev)), base, start);
  }

  /** A call only appends to the log, and each message it emits carries this node's record first, at most
      kGossip others, all exactly as the view stood at some moment within the call. */
  lemma StepHonest(n: Node, ev: Event, start: map<ShardId, MemberRecord>)
    requires Inv(n, start)
    ensures Honest(Step(n, ev), n, start)
  {
    var P := (c: Conf) => Honest(c, n, start);
    forall c, m | P(c) && Can(c, m, ev) ensures P(Do(c, m, ev)) { MicroHonest(c, m, ev, n, start); }
    StepInduction(P, n, ev);
  }

  // -------------------------------------------------------- ping-requests

  datatype Request = Request(requester: ShardId, target: ShardId, probeId: ProbeId)

  function RequestOf(h: Help): Request { Request(h.requester, h.target, h.probeId) }

  function Requests(hs: seq<Help>): (rs: seq<Request>)
    ensures |rs| == |hs| && forall i :: 0 <= i < |hs| ==> rs[i] == RequestOf(hs[i])
  {
    seq(|hs|, i requires 0 <= i < |hs| => RequestOf(hs[i]))
  }

  function Pending(hs: seq<Help>): multiset<Request> { multiset(Requests(hs)) }

  function Answered(out: seq<Outgoing>): multiset<Request> {
    if out == [] then multiset{}
    else
      var o := out[|out| - 1];
      Answered(out[..|out| - 1])
      + if o.payload.PingReqAck? then multiset{Request(o.target, o.payload.target, o.payload.probeId)} else multiset{}
  }

  /** The ping-request this event makes the node take on, if any. */
  function Accepted(n: Node, ev: Event): multiset<Request> {
    if ev.Recv? && ev.msg.PingReq? && ev.msg.target in n.members
    then multiset{Request(ev.msg.sender, ev.msg.target, ev.msg.probeId)} else multiset{}
  }

  lemma PendingRemove(hs: seq<Help>, i: nat)
    requires i < |hs|
    ensures Pending(hs) == Pending(hs[..i] + hs[i + 1..]) + multiset{RequestOf(hs[i])}
  {
    var rs := Requests(hs);
    assert rs == rs[..i] + [rs[i]] + rs[i + 1..];
    assert Requests(hs[..i] + hs[i + 1..]) == rs[..i] + rs[i + 1..];
  }

  lemma PendingAdd(hs: seq<Help>, h: Help)
    ensures Pending(hs + [h]) == Pending(hs) + multiset{RequestOf(h)}
  {
    assert Requests(hs + [h]) == Requests(hs) + [RequestOf(h)];
  }

  ghost predicate Balanced(c: Conf, total: multiset<Request>) {
    Pending(c.node.helps) + Answered(c.out) == total
  }

  lemma AnsweredAdd(out: seq<Outgoing>, o: Outgoing)
    ensures Answered(out + [o])
         == Answered(out)
            + if o.payload.PingReqAck? then multiset{Request(o.target, o.payload.target, o.payload.probeId)}
              else multiset{}
  {
    assert (out + [o])[..|out|] == out;
  }

  lemma ReplyBalances(hs: seq<Help>, i: nat, out: seq<Outgoing>, o: Outgoing, total: multiset<Request>)
    requires i < |hs| && Pending(hs) + Answered(out) == total && o.payload.PingReqAck?
    requires Request(o.target, o.payload.target, o.payload.probeId) == RequestOf(hs[i])
    ensures Pending(hs[..i] + hs[i + 1..]) + Answered(out + [o]) == total
  {
    AnsweredAdd(out, o);
    PendingRemove(hs, i);
  }

  lemma AcceptBalances(hs: seq<Help>, h: Help, out: seq<Outgoing>, o: Outgoing, total: multiset<Request>)
    requires Pending(hs) + Answered(out) == total && !o.payload.PingReqAck?
    ensures Pending(hs + [h]) + Answered(out + [o]) == total + multiset{RequestOf(h)}
  {
    AnsweredAdd(out, o);
    PendingAdd(hs, h);
  }

  lemma OtherBalances(c: Conf, e: Emission, ev: Event, total: multiset<Request>)
    requires Balanced(c, total) && Sendable(c.node, e, ev) && !e.ReplyHelp? && !e.AcceptHelp?
    ensures Balanced(DoSend(c, e, ev), total)
  {
    var o := Sent(c.node, e, ev);
    assert !o.payload.PingReqAck?;
    AnsweredAdd(c.out, o);
  }

  lemma SendBalances(c: Conf, e: Emission, ev: Event, total: multiset<Request>)
    requires Balanced(c, total) && Sendable(c.node, e, ev)
    ensures Balanced(DoSend(c, e, ev), if e.AcceptHelp? then total + Accepted(c.node, ev) else total)
  {
    if e.ReplyHelp? {
      ReplyBalances(c.node.helps, e.index, c.out, Sent(c.node, e, ev), total);
    } else if e.AcceptHelp? {
      var h := Help(ev.msg.probeId, ev.msg.target, ev.msg.sender, ev.now);
      AcceptBalances(c.node.helps, h, c.out, Sent(c.node, e, ev), total);
    } else {
      OtherBalances(c, e, ev, total);
    }
  }

  /** Each call: pending before + accepted == pending after + answered. */
  lemma StepBalances(n: Node, ev: Event)
    ensures Balanced(Step(n, ev), Pending(n.helps) + Accepted(n, ev))
  {
    var c0 := Conf(n, []);
    if ev.Recv? && ev.msg.PingReq? {
      if ev.msg.target in n.members { SendBalances(c0, AcceptHelp, ev, Pending(n.helps)); }
    } else {
      var P := (c: Conf) => Balanced(c, Pending(n.helps));
      forall c, m | P(c) && Can(c, m, ev) ensures P(Do(c, m, ev)) {
        if m.Send? { SendBalances(c, m.emission, ev, Pending(n.helps)); }
      }
      StepInduction(P, n, ev);
    }
  }

  function AcceptedOver(n: Node, evs: seq<Event>): multiset<Request>
    decreases |evs|
  {
    if evs == [] then multiset{} else Accepted(n, evs[0]) + AcceptedOver(Step(n, evs[0]).node, evs[1..])
  }

  function AnsweredOver(n: Node, evs: seq<Event>): multiset<Request>
    decreases |evs|
  {
    if evs == [] then multiset{} else Answered(Step(n, evs[0]).out) + AnsweredOver(Step(n, evs[0]).node, evs[1..])
  }

  function PendingAfter(n: Node, evs: seq<Event>): multiset<Request>
    decreases |evs|
  {
    if evs == [] then Pending(n.helps) else PendingAfter(Step(n, evs[0]).node, evs[1..])
  }

  lemma Ledger<T>(before: multiset<T>, accepted: multiset<T>, after: multiset<T>, answered: multiset<T>,
                  accepted': multiset<T>, answered': multiset<T>, final: multiset<T>)
    requires after + answered == before + accepted
    requires after + accepted' == answered' + final
    ensures before + (accepted + accepted') == (answered + answered') + final
  {
    assert before + (accepted + accepted') == (before + accepted) + accepted';
    assert (after + answered) + accepted' == answered + (after + accepted');
  }

  /** Over every run: accepted requests are exactly those answered plus those still pending. */
  lemma {:induction false} HelpsConserved(n: Node, evs: seq<Event>)
    ensures Pending(n.helps) + AcceptedOver(n, evs) == AnsweredOver(n, evs) + PendingAfter(n, evs)
    decreases |evs|
  {
    if evs != [] {
      var c := Step(n, evs[0]);
      StepBalances(n, evs[0]);
      HelpsConserved(c.node, evs[1..]);
      Ledger(Pending(n.helps), Accepted(n, evs[0]), Pending(c.node.helps), Answered(c.out),
             AcceptedOver(c.node, evs[1..]), AnsweredOver(c.node, evs[1..]), PendingAfter(c.node, evs[1..]));
    }
  }

  // ------------------------------------------------------ no stale helpers

  ghost predicate Young(c: Conf, now: real) {
    forall i :: 0 <= i < |c.node.helps| ==> now < c.node.helps[i].sentAt + c.node.cfg.Timeout()
  }

  lemma {:induction false} FlushLeavesYoung(c: Conf, i: nat, ev: Event)
    requires ev.Tick? && i <= |c.node.helps|
    requires forall j :: 0 <= j < i ==> ev.now < c.node.helps[j].sentAt + c.node.cfg.Timeout()
    ensures Young(FlushHelps(c, i, false, ev), ev.now)
    decreases |c.node.helps| - i
  {
    if i < |c.node.helps| {
      if Sendable(c.node, ReplyHelp(i, false), ev) {
        FlushLeavesYoung(DoSend(c, ReplyHelp(i, false), ev), i, ev);
      } else {
        FlushLeavesYoung(c, i + 1, ev);
      }
    }
  }

  /** After a tick no pending help is older than the timeout. */
  lemma TickLeavesHelpsYoung(n: Node, ev: Event)
    requires ev.Tick?
    ensures Young(Step(n, ev), ev.now)
  {
    var P := (c: Conf) => Young(c, ev.now);
    var c1 := Do(Conf(n, []), Book(Collect), ev);
    FlushLeavesYoung(c1, 0, ev);
    var c2 := FlushHelps(c1, 0, false, ev);
    assert Closed(P, ev);
    PromoteDeadInduction(P, c2, c2.node.order, ev);
    var c3 := PromoteDead(c2, c2.node.order, ev);
    if ev.now >= c3.node.nextPeriodAt { StartPeriodInduction(P, c3, ev); }
    EscalateInduction(P, if ev.now >= c3.node.nextPeriodAt then StartPeriod(c3, ev) else c3, ev);
  }
}
