/**
 What a tick does to the probe, the view and the wire, told from the node
 before it and the node and messages after it: which peers are pinged, which
 helpers are asked, and who is declared SUSPECT or DEAD.
 */
module SwimProbing {
  import opened Common
  import opened Records
  import opened Backlog
  import opened Swim
  import opened SwimInvariants
  import opened SwimTiming

  // ------------------------------------------------------------ vocabulary

  /** The ALIVE members other than this node and `skip`. */
  function Others(n: Node, skip: ShardId): set<ShardId> {
    set id | id in n.members && n.members[id].state == Alive && id != n.selfId && id != skip
  }

  predicate Escalated(n: Node) { n.probe.Some? && n.probe.value.indirectSentAt.Some? }

  predicate Due(n: Node, now: real) {
    n.probe.Some? && n.probe.value.indirectSentAt.None? && now >= n.probe.value.sentAt + n.cfg.Timeout()
  }

  /** Who can be probed next: an escalated probe's target is not, since the new period suspects it. */
  function Eligible(n: Node): set<ShardId> {
    Others(n, if Escalated(n) then n.probe.value.target else n.selfId)
  }

  predicate NoHelper(n: Node, target: ShardId) { n.cfg.kIndirect == 0 || Others(n, target) == {} }

  function AsDead(r: MemberRecord, now: real): MemberRecord {
    r.(state := Dead, lastChange := now, deadline := None)
  }

  function AsSuspect(r: MemberRecord, now: real, window: real): MemberRecord {
    r.(state := Suspect, lastChange := now, deadline := Some(now + window))
  }

  predicate IsPing(o: Outgoing, to: ShardId, n: Node) {
    && o.target == to && o.payload.Ping?
    && o.payload.sender == n.selfId && o.payload.senderIncarnation == n.selfIncarnation
  }

  predicate IsAsk(o: Outgoing, helper: ShardId, self: ShardId, p: Probe) {
    o.target == helper && o.payload.PingReq? && o.payload.sender == self && o.payload.target == p.target
    && o.payload.probeId == p.probeId
  }

  ghost predicate NonePinged(out: seq<Outgoing>) { forall i :: 0 <= i < |out| ==> !out[i].payload.Ping? }

  ghost predicate NoneAsked(out: seq<Outgoing>) { forall i :: 0 <= i < |out| ==> !out[i].payload.PingReq? }

  /** One Ping, to `to`, and no other. */
  ghost predicate OnePing(out: seq<Outgoing>, to: ShardId, n: Node) {
    exists j :: 0 <= j < |out| && PingAt(out, j, to, n)
  }

  ghost predicate PingAt(out: seq<Outgoing>, j: int, to: ShardId, n: Node)
    requires 0 <= j < |out|
  {
    IsPing(out[j], to, n) && forall i :: 0 <= i < |out| && i != j ==> !out[i].payload.Ping?
  }

  /** The messages from `base` on ask the helpers, one each and in their order. */
  ghost predicate AskedFrom(out: seq<Outgoing>, base: nat, hs: seq<ShardId>, self: ShardId, p: Probe) {
    |out| == base + |hs| && forall i :: base <= i < |out| ==> IsAsk(out[i], hs[i - base], self, p)
  }

  /** Each helper is asked once and nobody else is. */
  ghost predicate Asked(out: seq<Outgoing>, hs: seq<ShardId>, self: ShardId, p: Probe) {
    Distinct(hs) && exists base: nat :: AskedFrom(out, base, hs, self, p) && NoneAsked(out[..base])
  }

  /** A probe that has waited for the timeout: with no possible helper its target is given up, otherwise as many
      distinct ALIVE members as are configured and available are noted and asked. */
  ghost predicate Escalation(r: Conf, p: Probe, now: real) {
    if NoHelper(r.node, p.target) then
      r.node.probe.None? && NoneAsked(r.out)
      && p.target in r.node.members && r.node.members[p.target].state != Alive
    else
      && Escalated(r.node)
      && var q := r.node.probe.value;
      && q == p.(indirectSentAt := Some(now), helpers := q.helpers)
      && |q.helpers| == Min(r.node.cfg.kIndirect, |Others(r.node, p.target)|)
      && (forall h :: h in q.helpers ==> h in Others(r.node, p.target))
      && Asked(r.out, q.helpers, r.node.selfId, p)
  }

  // ------------------------------------------------------ stages of a tick

  predicate SameSelf(n: Node, n': Node) {
    n'.selfId == n.selfId && n'.selfIncarnation == n.selfIncarnation && n'.cfg == n.cfg && n'.order == n.order
  }

  predicate SameProbing(n: Node, n': Node) {
    n'.probe == n.probe && n'.probeCounter == n.probeCounter && n'.nextPeriodAt == n.nextPeriodAt
  }

  ghost predicate OnlyRefusals(out: seq<Outgoing>) {
    forall i :: 0 <= i < |out| ==> out[i].payload.PingReqAck? && !out[i].payload.success
  }

  ghost predicate AgedOver(n: Node, n': Node, ids: seq<ShardId>, now: real) {
    && n'.members.Keys == n.members.Keys
    && forall id :: id in n.members ==>
         n'.members[id] == if id in ids && Expired(n, id, now) then AsDead(n.members[id], now) else n.members[id]
  }

  /** The first three stages: collect, refuse helps that timed out, turn passed deadlines into DEAD. */
  ghost predicate Opening(n: Node, c: Conf, now: real) {
    && SameSelf(n, c.node) && SameProbing(n, c.node) && OnlyRefusals(c.out)
    && AgedOver(n, c.node, n.order, now)
  }

  lemma {:induction false} FlushFrame(c: Conf, i: nat, ok: bool, ev: Event)
    ensures var r := FlushHelps(c, i, ok, ev);
            && r.node == c.node.(helps := r.node.helps, backlog := r.node.backlog)
            && c.out <= r.out
            && forall j :: |c.out| <= j < |r.out| ==> r.out[j].payload.PingReqAck? && r.out[j].payload.success == ok
    decreases |c.node.helps| - i
  {
    if i < |c.node.helps| {
      if Sendable(c.node, ReplyHelp(i, ok), ev) {
        FlushFrame(DoSend(c, ReplyHelp(i, ok), ev), i, ok, ev);
      } else {
        FlushFrame(c, i + 1, ok, ev);
      }
    }
  }

  lemma {:induction false} PromoteDeadExact(c: Conf, ids: seq<ShardId>, ev: Event)
    ensures var r := PromoteDead(c, ids, ev);
            SameSelf(c.node, r.node) && SameProbing(c.node, r.node) && r.out == c.out
            && AgedOver(c.node, r.node, ids, ev.now)
    decreases |ids|
  {
    if ids != [] {
      var c1 := Try(c, Write(Dying(ids[0])), ev);
      PromoteDeadExact(c1, ids[1..], ev);
      assert AgedOver(c.node, c1.node, [ids[0]], ev.now);
      assert ids == [ids[0]] + ids[1..];
    }
  }

  lemma OpeningStage(n: Node, ev: Event) returns (c: Conf)
    requires ev.Tick?
    ensures Opening(n, c, ev.now)
    ensures Step(n, ev) == EscalateProbe(if ev.now >= n.nextPeriodAt then StartPeriod(c, ev) else c, ev)
  {
    var c1 := Do(Conf(n, []), Book(Collect), ev);
    FlushFrame(c1, 0, false, ev);
    var c2 := FlushHelps(c1, 0, false, ev);
    PromoteDeadExact(c2, c2.node.order, ev);
    c := PromoteDead(c2, c2.node.order, ev);
  }

  /** The fourth stage, when the period is over. */
  ghost predicate NewPeriod(c: Conf, d: Conf, now: real) {
    && SameSelf(c.node, d.node)
    && d.node.nextPeriodAt == now + c.node.cfg.PingPeriod()
    && d.node.members == ClosedView(c.node, now)
    && if Eligible(c.node) == {} then
         d.node.probe.None? && d.node.probeCounter == c.node.probeCounter && d.out == c.out
       else
         && d.node.probe.Some? && d.node.probeCounter == c.node.probeCounter + 1
         && var p := d.node.probe.value;
         && p == Probe(ProbeId(c.node.selfId, c.node.probeCounter + 1), p.target, now, None, [], 0, false)
         && p.target in Eligible(c.node)
         && |d.out| == |c.out| + 1 && d.out[..|c.out|] == c.out && IsPing(d.out[|c.out|], p.target, c.node)
  }

  /** An escalated probe's target is suspected. */
  function ClosedView(n: Node, now: real): map<ShardId, MemberRecord> {
    if Escalated(n) && n.probe.value.target in n.members && n.members[n.probe.value.target].state == Alive
    then n.members[n.probe.value.target := AsSuspect(n.members[n.probe.value.target], now, n.cfg.SuspectWindow())]
    else n.members
  }

  lemma {:induction false} AliveExceptExact(n: Node, ids: seq<ShardId>, skip: ShardId)
    ensures forall id :: id in AliveExcept(n, ids, skip) <==> id in ids && id in Others(n, skip)
    ensures Distinct(ids) ==> Distinct(AliveExcept(n, ids, skip))
  {
    if ids != [] {
      var rest := AliveExcept(n, ids[1..], skip);
      AliveExceptExact(n, ids[1..], skip);
      assert ids == [ids[0]] + ids[1..];
      if Distinct(ids) {
        assert forall j :: 0 <= j < |ids[1..]| ==> ids[1..][j] == ids[j + 1];
        assert ids[0] !in ids[1..];
        assert forall j :: 0 <= j < |rest| ==> rest[j] in rest;
      }
    }
  }

  lemma CloseProbe(c: Conf, ev: Event) returns (d: Conf)
    requires ev.Tick? && ProbeOk(c.node)
    ensures SameSelf(c.node, d.node) && d.out == c.out && d.node.probe.None?
    ensures d.node.probeCounter == c.node.probeCounter && d.node.members == ClosedView(c.node, ev.now)
    ensures StartPeriod(c, ev)
         == var candidates := AliveExcept(d.node, d.node.order, d.node.selfId);
            if candidates == [] then Do(d, Book(SkipPeriod), ev)
            else Try(d, Send(StartProbe(candidates[ev.pick % |candidates|])), ev)
  {
    var c1 := if Escalated(c.node) then Try(c, Write(Suspecting(c.node.probe.value.target)), ev) else c;
    d := Do(c1, Book(ClearProbe), ev);
  }

  lemma SendProbe(d: Conf, t: ShardId, ev: Event)
    requires ev.Tick? && d.node.probe.None? && t in Others(d.node, d.node.selfId)
    ensures var r := Try(d, Send(StartProbe(t)), ev);
            && SameSelf(d.node, r.node) && r.node.members == d.node.members
            && r.node.nextPeriodAt == ev.now + d.node.cfg.PingPeriod()
            && r.node.probeCounter == d.node.probeCounter + 1
            && r.node.probe
               == Some(Probe(ProbeId(d.node.selfId, d.node.probeCounter + 1), t, ev.now, None, [], 0, false))
            && |r.out| == |d.out| + 1 && r.out[..|d.out|] == d.out && IsPing(r.out[|d.out|], t, d.node)
  {
    assert Can(d, Send(StartProbe(t)), ev);
  }

  lemma ClosedAlive(n: Node, n': Node, now: real)
    requires SameSelf(n, n') && n'.members == ClosedView(n, now)
    ensures Others(n', n'.selfId) == Eligible(n)
  {}

  lemma PeriodStage(c: Conf, ev: Event)
    requires ev.Tick? && ViewOk(c.node) && ProbeOk(c.node)
    ensures NewPeriod(c, StartPeriod(c, ev), ev.now)
  {
    var d := CloseProbe(c, ev);
    ClosedAlive(c.node, d.node, ev.now);
    var candidates := AliveExcept(d.node, d.node.order, d.node.selfId);
    AliveExceptExact(d.node, d.node.order, d.node.selfId);
    assert forall id :: id in candidates <==> id in Eligible(c.node);
    if candidates != [] {
      var t := candidates[ev.pick % |candidates|];
      assert t in candidates;
      SendProbe(d, t, ev);
    }
  }

  // -------------------------------------------------------------- escalation

  /** The last stage. */
  ghost predicate Escalates(c: Conf, r: Conf, now: real) {
    && SameSelf(c.node, r.node)
    && r.node.nextPeriodAt == c.node.nextPeriodAt && r.node.probeCounter == c.node.probeCounter
    && if !Due(c.node, now) then r == c
       else
         var p := c.node.probe.value;
         if NoHelper(c.node, p.target) then
           r.node.probe.None? && r.out == c.out && r.node.members == GivenUp(c.node, p.target, now)
         else
           && r.node.members == c.node.members && Escalated(r.node)
           && var q := r.node.probe.value;
           && q == p.(indirectSentAt := Some(now), helpers := q.helpers)
           && |q.helpers| == Min(c.node.cfg.kIndirect, |Others(c.node, p.target)|)
           && (forall h :: h in q.helpers ==> h in Others(c.node, p.target)) && Distinct(q.helpers)
           && |r.out| >= |c.out| && r.out[..|c.out|] == c.out
           && AskedFrom(r.out, |c.out|, q.helpers, c.node.selfId, p)
  }

  function GivenUp(n: Node, t: ShardId, now: real): map<ShardId, MemberRecord> {
    if t in n.members && n.members[t].state == Alive
    then n.members[t := AsSuspect(n.members[t], now, n.cfg.SuspectWindow())] else n.members
  }

  lemma {:induction false} AskAllExact(c: Conf, hs: seq<ShardId>, ev: Event)
    requires ev.Tick? && c.node.probe.Some? && forall h :: h in hs ==> h in Others(c.node, c.node.selfId)
    ensures var r := AskAll(c, hs, ev);
            && r.node == c.node.(backlog := r.node.backlog)
            && |r.out| >= |c.out| && r.out[..|c.out|] == c.out
            && AskedFrom(r.out, |c.out|, hs, c.node.selfId, c.node.probe.value)
    decreases |hs|
  {
    if hs != [] {
      assert hs[0] in hs;
      var c1 := Try(c, Send(AskHelper(hs[0])), ev);
      AskOne(c, hs[0], ev);
      AskAllExact(c1, hs[1..], ev);
      AskedOneMore(c.out, c1.out, AskAll(c1, hs[1..], ev).out, hs, c.node.selfId, c.node.probe.value);
    }
  }

  lemma AskOne(c: Conf, h: ShardId, ev: Event)
    requires ev.Tick? && c.node.probe.Some? && h in Others(c.node, c.node.selfId)
    ensures var r := Try(c, Send(AskHelper(h)), ev);
            && r.node == c.node.(backlog := r.node.backlog)
            && |r.out| == |c.out| + 1 && r.out[..|c.out|] == c.out
            && IsAsk(r.out[|c.out|], h, c.node.selfId, c.node.probe.value)
  {
    assert Can(c, Send(AskHelper(h)), ev);
  }

  lemma AskedOneMore(a: seq<Outgoing>, b: seq<Outgoing>, out: seq<Outgoing>, hs: seq<ShardId>, self: ShardId, p: Probe)
    requires hs != [] && |b| == |a| + 1 && b[..|a|] == a && IsAsk(b[|a|], hs[0], self, p)
    requires |out| >= |b| && out[..|b|] == b && AskedFrom(out, |b|, hs[1..], self, p)
    ensures out[..|a|] == a && AskedFrom(out, |a|, hs, self, p)
  {
    assert out[..|a|] == out[..|b|][..|a|];
    assert out[|a|] == out[..|b|][|a|];
    forall i | |a| <= i < |out| ensures IsAsk(out[i], hs[i - |a|], self, p) {
      assert i > |a| ==> hs[1..][i - |b|] == hs[i - |a|];
    }
  }

  lemma {:induction false} DistinctSize(xs: seq<ShardId>, s: set<ShardId>)
    requires Distinct(xs) && forall x :: x in xs <==> x in s
    ensures |s| == |xs|
  {
    if xs == [] {
      assert s == {};
    } else {
      var last, init := xs[|xs| - 1], xs[..|xs| - 1];
      assert xs == init + [last];
      DistinctSize(init, s - {last});
    }
  }

  lemma ShuffleDistinct(cs: seq<ShardId>, draw: seq<ShardId>)
    requires Distinct(cs)
    ensures Distinct(Shuffle(cs, draw)) && |Shuffle(cs, draw)| == |cs|
    ensures forall x :: x in Shuffle(cs, draw) <==> x in cs
  {
    var r := Shuffle(cs, draw);
    forall i, j | 0 <= i < j < |r| ensures r[i] != r[j] {
      if r[i] == r[j] {
        assert r == r[..i] + [r[i]] + r[i + 1..j] + [r[j]] + r[j + 1..];
        assert multiset(r)[r[i]] >= 2;
        OnceOnly(cs, r[i]);
      }
    }
    assert |multiset(r)| == |multiset(cs)|;
    forall x ensures x in r <==> x in cs {
      assert x in multiset(r) <==> x in multiset(cs);
    }
  }

  lemma {:induction false} OnceOnly(xs: seq<ShardId>, x: ShardId)
    requires Distinct(xs)
    ensures multiset(xs)[x] <= 1
  {
    if xs != [] {
      var last, init := xs[|xs| - 1], xs[..|xs| - 1];
      assert xs == init + [last];
      OnceOnly(init, x);
      assert last !in init;
    }
  }

  lemma HelpersExact(n: Node, ev: Event)
    requires ev.Tick? && n.probe.Some? && ViewOk(n)
    ensures var hs, others := Helpers(n, ev), Others(n, n.probe.value.target);
            Distinct(hs) && |hs| == Min(n.cfg.kIndirect, |others|) && forall h :: h in hs ==> h in others
  {
    var t := n.probe.value.target;
    var candidates := AliveExcept(n, n.order, t);
    AliveExceptExact(n, n.order, t);
    DistinctSize(candidates, Others(n, t));
    ShuffleDistinct(candidates, ev.shuffled);
  }

  lemma EscalateStage(c: Conf, ev: Event)
    requires ev.Tick? && ViewOk(c.node)
    ensures Escalates(c, EscalateProbe(c, ev), ev.now)
  {
    if Due(c.node, ev.now) {
      var hs, t := Helpers(c.node, ev), c.node.probe.value.target;
      HelpersExact(c.node, ev);
      assert NoHelper(c.node, t) <==> hs == [] by {
        assert |Others(c.node, t)| == 0 <==> Others(c.node, t) == {};
      }
      if hs == [] { GiveUp(c, ev); } else { AskThenNote(c, hs, ev); }
    }
  }

  lemma GiveUp(c: Conf, ev: Event)
    requires ev.Tick? && Due(c.node, ev.now)
    ensures var t := c.node.probe.value.target;
            var r := Do(Try(c, Write(Suspecting(t)), ev), Book(ClearProbe), ev);
            && SameSelf(c.node, r.node) && r.node.probe.None? && r.out == c.out
            && r.node.nextPeriodAt == c.node.nextPeriodAt && r.node.probeCounter == c.node.probeCounter
            && r.node.members == GivenUp(c.node, t, ev.now)
  {}

  lemma AskThenNote(c: Conf, hs: seq<ShardId>, ev: Event)
    requires ev.Tick? && Due(c.node, ev.now) && hs != []
    requires forall h :: h in hs ==> h in Others(c.node, c.node.probe.value.target)
    ensures var r, p := Try(AskAll(c, hs, ev), Book(Escalate(hs)), ev), c.node.probe.value;
            && SameSelf(c.node, r.node) && r.node.members == c.node.members
            && r.node.nextPeriodAt == c.node.nextPeriodAt && r.node.probeCounter == c.node.probeCounter
            && r.node.probe == Some(p.(indirectSentAt := Some(ev.now), helpers := hs))
            && |r.out| >= |c.out| && r.out[..|c.out|] == c.out && AskedFrom(r.out, |c.out|, hs, c.node.selfId, p)
  {
    AskAllExact(c, hs, ev);
    assert Can(AskAll(c, hs, ev), Book(Escalate(hs)), ev);
  }

  // --------------------------------------------------------------- the tick

  lemma OpeningKeeps(n: Node, c: Conf, now: real)
    requires ViewOk(n) && ProbeOk(n) && Opening(n, c, now)
    ensures ViewOk(c.node) && ProbeOk(c.node) && NonePinged(c.out) && NoneAsked(c.out)
    ensures Eligible(c.node) == Eligible(n) && forall t :: Others(c.node, t) == Others(n, t)
  {
    assert !Expired(n, n.selfId, now);
    forall t ensures Others(c.node, t) == Others(n, t) {}
  }

  lemma NewPeriodKeeps(c: Conf, d: Conf, now: real)
    requires ViewOk(c.node) && ProbeOk(c.node) && NewPeriod(c, d, now)
    ensures ViewOk(d.node)
  {}

  /** The node and the messages between the stages. */
  lemma TickStages(n: Node, ev: Event) returns (c: Conf, d: Conf)
    requires ev.Tick? && ViewOk(n) && ProbeOk(n)
    ensures Opening(n, c, ev.now)
    ensures if ev.now >= n.nextPeriodAt then NewPeriod(c, d, ev.now) else d == c
    ensures Escalates(d, Step(n, ev), ev.now)
  {
    c := OpeningStage(n, ev);
    OpeningKeeps(n, c, ev.now);
    if ev.now >= n.nextPeriodAt {
      d := StartPeriod(c, ev);
      PeriodStage(c, ev);
      NewPeriodKeeps(c, d, ev.now);
    } else {
      d := c;
    }
    EscalateStage(d, ev);
  }

  lemma EscalatesIsEscalation(d: Conf, r: Conf, now: real)
    requires Escalates(d, r, now) && NoneAsked(d.out)
    requires Due(d.node, now) ==> d.node.probe.value.target in d.node.members
    ensures Due(d.node, now) ==> Escalation(r, d.node.probe.value, now)
    ensures !Due(d.node, now) ==> NoneAsked(r.out)
  {
    if Due(d.node, now) {
      var p := d.node.probe.value;
      assert Others(r.node, p.target) == Others(d.node, p.target);
      if !NoHelper(d.node, p.target) {
        var q := r.node.probe.value;
        assert AskedFrom(r.out, |d.out|, q.helpers, r.node.selfId, p) && NoneAsked(r.out[..|d.out|]);
      }
    }
  }

  lemma EscalatesPingsNobody(d: Conf, r: Conf, now: real)
    requires Escalates(d, r, now)
    ensures |d.out| <= |r.out| && r.out[..|d.out|] == d.out
    ensures forall i :: |d.out| <= i < |r.out| ==> r.out[i].payload.PingReq?
  {}

  /** A tick before the period is over pings nobody. It leaves a probe that is not due alone, and escalates one that
      is. */
  lemma TickWithinPeriod(n: Node, ev: Event)
    requires ev.Tick? && ViewOk(n) && ProbeOk(n) && ev.now < n.nextPeriodAt
    ensures Waits(n, Step(n, ev), ev.now)
  {
    var c, d := TickStages(n, ev);
    WaitsAtTheEnd(n, c, Step(n, ev), ev.now);
  }

  ghost predicate Waits(n: Node, r: Conf, now: real) {
    && r.node.nextPeriodAt == n.nextPeriodAt && r.node.probeCounter == n.probeCounter && NonePinged(r.out)
    && if Due(n, now) then Escalation(r, n.probe.value, now) else r.node.probe == n.probe && NoneAsked(r.out)
  }

  lemma WaitsAtTheEnd(n: Node, c: Conf, r: Conf, now: real)
    requires ViewOk(n) && ProbeOk(n) && Opening(n, c, now) && Escalates(c, r, now)
    ensures Waits(n, r, now)
  {
    OpeningKeeps(n, c, now);
    EscalatesIsEscalation(c, r, now);
    EscalatesPingsNobody(c, r, now);
  }

  /** The tick at or past the end of the period: `t` is the new probe's target. */
  ghost predicate Opens(n: Node, r: Conf, t: ShardId, now: real) {
    && t in Eligible(n) && OnePing(r.out, t, n) && r.node.probeCounter == n.probeCounter + 1
    && var p := Probe(ProbeId(n.selfId, n.probeCounter + 1), t, now, None, [], 0, false);
    if n.cfg.timeoutMs > 0 then r.node.probe == Some(p) && NoneAsked(r.out) else Escalation(r, p, now)
  }

  /** Such a tick gives up the target of an escalated probe, and pings exactly one of the ALIVE members left, if any. */
  lemma TickOpensPeriod(n: Node, ev: Event)
    requires ev.Tick? && ViewOk(n) && ProbeOk(n) && ev.now >= n.nextPeriodAt
    ensures var r := Step(n, ev);
            && r.node.nextPeriodAt == ev.now + n.cfg.PingPeriod()
            && (Escalated(n) ==>
                  n.probe.value.target in r.node.members && r.node.members[n.probe.value.target].state != Alive)
            && (Eligible(n) == {} ==>
                  r.node.probe.None? && r.node.probeCounter == n.probeCounter && NonePinged(r.out) && NoneAsked(r.out))
            && (Eligible(n) != {} ==> exists t :: Opens(n, r, t, ev.now))
  {
    var r := Step(n, ev);
    var c, d := TickStages(n, ev);
    OpeningKeeps(n, c, ev.now);
    NewPeriodKeeps(c, d, ev.now);
    EscalatesPingsNobody(d, r, ev.now);
    if Eligible(n) != {} {
      NewProbe(n, c, d, r, ev.now);
    }
    if Escalated(n) { StaysDown(d, r, n.probe.value.target, ev.now); }
  }

  lemma StaysDown(d: Conf, r: Conf, t: ShardId, now: real)
    requires Escalates(d, r, now) && t in d.node.members && d.node.members[t].state != Alive
    ensures t in r.node.members && r.node.members[t].state != Alive
  {}

  lemma NewProbe(n: Node, c: Conf, d: Conf, r: Conf, now: real)
    requires Opening(n, c, now) && NonePinged(c.out) && NoneAsked(c.out) && Eligible(c.node) == Eligible(n) != {}
    requires NewPeriod(c, d, now) && Escalates(d, r, now)
    ensures d.node.probe.Some? && Opens(n, r, d.node.probe.value.target, now)
  {
    var p := d.node.probe.value;
    EscalatesPingsNobody(d, r, now);
    assert p.target in d.node.members;
    EscalatesIsEscalation(d, r, now);
    assert Due(d.node, now) <==> n.cfg.timeoutMs == 0;
    var j := |c.out|;
    assert r.out[j] == d.out[j];
    forall i | 0 <= i < |r.out| && i != j ensures !r.out[i].payload.Ping? {
      if i < j { assert r.out[i] == d.out[i] == c.out[i]; }
    }
    assert PingAt(r.out, j, p.target, n);
  }

  /** The helpers are distinct ALIVE members other than the target, as many as are configured and available, and each
      is asked once about that target under that probe id. */
  ghost predicate AsksHelpers(n: Node, r: Conf, now: real) {
    && Escalated(r.node)
    && var q := r.node.probe.value;
    && q.indirectSentAt == Some(now) && q.helpers != []
    && |q.helpers| == Min(n.cfg.kIndirect, |Others(r.node, q.target)|)
    && (forall h :: h in q.helpers ==> h in Others(r.node, q.target))
    && Asked(r.out, q.helpers, n.selfId, q)
  }

  /** Whatever tick escalates a probe asks its helpers. */
  lemma EscalationAsksHelpers(n: Node, ev: Event)
    requires ev.Tick? && ViewOk(n) && ProbeOk(n)
    requires Escalated(Step(n, ev).node) && (ev.now >= n.nextPeriodAt || !Escalated(n))
    ensures AsksHelpers(n, Step(n, ev), ev.now)
  {
    var c, d := TickStages(n, ev);
    AsksAtTheEnd(n, c, d, Step(n, ev), ev.now);
  }

  lemma AsksAtTheEnd(n: Node, c: Conf, d: Conf, r: Conf, now: real)
    requires ViewOk(n) && ProbeOk(n) && Opening(n, c, now) && Escalates(d, r, now)
    requires if now >= n.nextPeriodAt then NewPeriod(c, d, now) else d == c
    requires Escalated(r.node) && (now >= n.nextPeriodAt || !Escalated(n))
    ensures AsksHelpers(n, r, now)
  {
    OpeningKeeps(n, c, now);
    if now >= n.nextPeriodAt { NewProbeDue(c, d, now); PeriodAsksNobody(c, d, now); }
    JustEscalated(d, r, now);
  }

  lemma PeriodAsksNobody(c: Conf, d: Conf, now: real)
    requires NewPeriod(c, d, now) && NoneAsked(c.out)
    ensures NoneAsked(d.out)
  {
    forall i | 0 <= i < |d.out| ensures !d.out[i].payload.PingReq? {
      assert i < |c.out| ==> d.out[i] == d.out[..|c.out|][i];
    }
  }

  lemma JustEscalated(d: Conf, r: Conf, now: real)
    requires Escalates(d, r, now) && !Escalated(d.node) && Escalated(r.node) && NoneAsked(d.out)
    ensures AsksHelpers(d.node, r, now)
  {
    var q := r.node.probe.value;
    assert Others(r.node, q.target) == Others(d.node, q.target);
    assert |Others(r.node, q.target)| != 0;
    assert AskedFrom(r.out, |d.out|, q.helpers, d.node.selfId, q);
    assert NoneAsked(r.out[..|d.out|]);
  }

  /** Every answer to a help request that a tick sends is a refusal, and the node's own identity stays as it is. */
  lemma TickRefuses(n: Node, ev: Event)
    requires ev.Tick? && ViewOk(n) && ProbeOk(n)
    ensures var r := Step(n, ev);
            && r.node.selfId == n.selfId && r.node.selfIncarnation == n.selfIncarnation && r.node.order == n.order
            && forall i :: 0 <= i < |r.out| && r.out[i].payload.PingReqAck? ==> !r.out[i].payload.success
  {
    var c, d := TickStages(n, ev);
    RefusesAtTheEnd(n, c, d, Step(n, ev), ev.now);
  }

  lemma RefusesAtTheEnd(n: Node, c: Conf, d: Conf, r: Conf, now: real)
    requires Opening(n, c, now) && Escalates(d, r, now)
    requires if now >= n.nextPeriodAt then NewPeriod(c, d, now) else d == c
    ensures SameSelf(n, r.node)
    ensures forall i :: 0 <= i < |r.out| && r.out[i].payload.PingReqAck? ==> !r.out[i].payload.success
  {
    EscalatesPingsNobody(d, r, now);
    forall i | 0 <= i < |r.out| && r.out[i].payload.PingReqAck? ensures !r.out[i].payload.success {
      assert r.out[i] == d.out[i];
      assert forall j :: 0 <= j < |c.out| && j < |d.out| ==> d.out[j] == c.out[j];
    }
  }

  // --------------------------------------------------------------- the view

  /** Whom a tick suspects: the target of an escalated probe when the period is over, and the target of a due probe
      that no helper can be asked about. With a zero timeout the ping just sent is such a probe. */
  ghost predicate Accused(n: Node, r: Conf, id: ShardId, now: real) {
    if now >= n.nextPeriodAt then
      || (Escalated(n) && n.probe.value.target == id)
      || (n.cfg.timeoutMs == 0 && NoHelper(r.node, id) && Pings(r.out, id))
    else Due(n, now) && n.probe.value.target == id && NoHelper(r.node, id)
  }

  /** Every record after a tick: passed deadlines are DEAD, accused ALIVE members are SUSPECT until the window has
      passed, all others stand, and nobody enters or leaves. */
  ghost predicate Seen(n: Node, r: Conf, id: ShardId, now: real)
    requires id in n.members && id in r.node.members
  {
    var was := n.members[id];
    r.node.members[id]
      == if Expired(n, id, now) then AsDead(was, now)
         else if was.state == Alive && Accused(n, r, id, now) then AsSuspect(was, now, n.cfg.SuspectWindow())
         else was
  }

  lemma TickView(n: Node, ev: Event)
    requires ev.Tick? && ViewOk(n) && ProbeOk(n)
    ensures var r := Step(n, ev);
            r.node.members.Keys == n.members.Keys && forall id :: id in n.members ==> Seen(n, r, id, ev.now)
  {
    var c, d := TickStages(n, ev);
    ViewAtTheEnd(n, c, d, Step(n, ev), ev.now);
  }

  lemma ViewAtTheEnd(n: Node, c: Conf, d: Conf, r: Conf, now: real)
    requires ViewOk(n) && ProbeOk(n) && Opening(n, c, now) && Escalates(d, r, now)
    requires if now >= n.nextPeriodAt then NewPeriod(c, d, now) else d == c
    ensures r.node.members.Keys == n.members.Keys && forall id :: id in n.members ==> Seen(n, r, id, now)
  {
    assert d.node.members.Keys == n.members.Keys;
    assert r.node.members.Keys == d.node.members.Keys;
    forall id | id in n.members ensures Seen(n, r, id, now) {
      if now >= n.nextPeriodAt { SeenOpening(n, c, d, r, id, now); } else { SeenWithin(n, c, r, id, now); }
    }
  }

  lemma SeenWithin(n: Node, c: Conf, r: Conf, id: ShardId, now: real)
    requires ViewOk(n) && Opening(n, c, now) && Escalates(c, r, now) && now < n.nextPeriodAt && id in n.members
    ensures id in r.node.members && Seen(n, r, id, now)
  {
    SeenEscalating(c, r, id, now);
  }

  lemma SeenOpening(n: Node, c: Conf, d: Conf, r: Conf, id: ShardId, now: real)
    requires ViewOk(n) && ProbeOk(n) && Opening(n, c, now) && now >= n.nextPeriodAt
    requires NewPeriod(c, d, now) && Escalates(d, r, now) && id in n.members
    ensures id in r.node.members && Seen(n, r, id, now)
  {
    PingedIsTarget(c, d, r, id, now);
    SeenClosing(n, c, d, id, now);
    SeenEscalating(d, r, id, now);
    NewProbeDue(c, d, now);
  }

  lemma NewProbeDue(c: Conf, d: Conf, now: real)
    requires NewPeriod(c, d, now)
    ensures !Escalated(d.node) && (Due(d.node, now) <==> d.node.probe.Some? && c.node.cfg.timeoutMs == 0)
    ensures d.node.probe.Some? && Escalated(c.node) ==> d.node.probe.value.target != c.node.probe.value.target
  {}

  lemma SeenClosing(n: Node, c: Conf, d: Conf, id: ShardId, now: real)
    requires Opening(n, c, now) && NewPeriod(c, d, now) && id in n.members
    requires forall x :: x in n.members ==> x in n.order
    ensures id in d.node.members
    ensures d.node.members[id]
         == if Expired(n, id, now) then AsDead(n.members[id], now)
            else if n.members[id].state == Alive && Escalated(n) && n.probe.value.target == id
            then AsSuspect(n.members[id], now, n.cfg.SuspectWindow()) else n.members[id]
  {}

  lemma SeenEscalating(d: Conf, r: Conf, id: ShardId, now: real)
    requires Escalates(d, r, now) && id in d.node.members
    ensures id in r.node.members
    ensures r.node.members[id]
         == if Due(d.node, now) && d.node.probe.value.target == id && NoHelper(r.node, id)
               && d.node.members[id].state == Alive
            then AsSuspect(d.node.members[id], now, d.node.cfg.SuspectWindow()) else d.node.members[id]
  {
    if Due(d.node, now) && d.node.probe.value.target == id { assert Others(r.node, id) == Others(d.node, id); }
  }

  lemma PingedIsTarget(c: Conf, d: Conf, r: Conf, id: ShardId, now: real)
    requires NonePinged(c.out) && NewPeriod(c, d, now) && Escalates(d, r, now)
    ensures Pings(r.out, id) <==> d.node.probe.Some? && d.node.probe.value.target == id
  {
    EscalatesPingsNobody(d, r, now);
    if Pings(r.out, id) {
      var i :| 0 <= i < |r.out| && r.out[i].target == id && r.out[i].payload.Ping?;
      assert r.out[i] == d.out[i];
      assert forall k :: 0 <= k < |c.out| ==> d.out[k] == c.out[k];
    }
    if d.node.probe.Some? {
      var j := |c.out|;
      assert r.out[j] == d.out[j];
    }
  }

  lemma {:induction false} SameCandidates(n: Node, skip: ShardId, n': Node, skip': ShardId, ids: seq<ShardId>)
    requires Others(n, skip) == Others(n', skip')
    ensures AliveExcept(n', ids, skip') == AliveExcept(n, ids, skip)
  {
    if ids != [] {
      SameCandidates(n, skip, n', skip', ids[1..]);
      assert ids[0] in Others(n, skip) <==> ids[0] in Others(n', skip');
    }
  }

  lemma PickedIsPinged(c: Conf, ev: Event, t: ShardId)
    requires ev.Tick? && ViewOk(c.node) && ProbeOk(c.node)
    requires Candidates(c.node) != [] && Candidates(c.node)[ev.pick % |Candidates(c.node)|] == t
    ensures Pings(StartPeriod(c, ev).out, t)
  {
    var skip := if Escalated(c.node) then c.node.probe.value.target else c.node.selfId;
    var d := CloseProbe(c, ev);
    ClosedAlive(c.node, d.node, ev.now);
    SameCandidates(c.node, skip, d.node, d.node.selfId, d.node.order);
    AliveExceptExact(c.node, c.node.order, skip);
    assert t in AliveExcept(c.node, c.node.order, skip);
    SendProbe(d, t, ev);
  }

  /** The list the draw picks from. */
  function Candidates(n: Node): seq<ShardId> {
    AliveExcept(n, n.order, if Escalated(n) then n.probe.value.target else n.selfId)
  }

  lemma SameCandidateList(n: Node, c: Conf, now: real)
    requires ViewOk(n) && ProbeOk(n) && Opening(n, c, now)
    ensures Candidates(c.node) == Candidates(n)
  {
    OpeningKeeps(n, c, now);
    var skip := if Escalated(n) then n.probe.value.target else n.selfId;
    SameCandidates(n, skip, c.node, skip, n.order);
  }

  lemma DrawnIsPinged(n: Node, ev: Event, t: ShardId)
    requires ev.Tick? && ViewOk(n) && ProbeOk(n) && ev.now >= n.nextPeriodAt
    requires Candidates(n) != [] && Candidates(n)[ev.pick % |Candidates(n)|] == t
    ensures Pings(Step(n, ev).out, t)
  {
    var c := OpeningStage(n, ev);
    OpeningKeeps(n, c, ev.now);
    SameCandidateList(n, c, ev.now);
    PingedByTheEnd(c, ev, t);
  }

  lemma CandidatesExact(n: Node, t: ShardId) returns (pick: nat)
    requires ViewOk(n) && t in Eligible(n)
    ensures Candidates(n) != [] && Candidates(n)[pick % |Candidates(n)|] == t
  {
    AliveExceptExact(n, n.order, if Escalated(n) then n.probe.value.target else n.selfId);
    var list := Candidates(n);
    assert t in list;
    pick :| pick < |list| && list[pick] == t;
    SmallRemainder(pick, |list|);
  }

  lemma SmallRemainder(a: nat, b: nat)
    requires a < b
    ensures a % b == a
  {}

  /** The draw decides freely: each ALIVE member left is the one pinged for some draw. */
  lemma AnyoneCanBePinged(n: Node, now: real, shuffled: seq<ShardId>, t: ShardId) returns (ev: Event)
    requires ViewOk(n) && ProbeOk(n) && now >= n.nextPeriodAt && t in Eligible(n)
    ensures ev.Tick? && ev.now == now && ev.shuffled == shuffled && Pings(Step(n, ev).out, t)
  {
    var pick := CandidatesExact(n, t);
    ev := Tick(now, pick, shuffled);
    DrawnIsPinged(n, ev, t);
  }

  lemma PingedByTheEnd(c: Conf, ev: Event, t: ShardId)
    requires ev.Tick? && ViewOk(c.node) && ProbeOk(c.node)
    requires Candidates(c.node) != [] && Candidates(c.node)[ev.pick % |Candidates(c.node)|] == t
    ensures Pings(EscalateProbe(StartPeriod(c, ev), ev).out, t)
  {
    PickedIsPinged(c, ev, t);
    PeriodStage(c, ev);
    var d := StartPeriod(c, ev);
    NewPeriodKeeps(c, d, ev.now);
    EscalateStage(d, ev);
    StillPings(d, EscalateProbe(d, ev), t, ev.now);
  }

  /** Two distinct lists with the same members are permutations of each other. */
  lemma SameMultiset(a: seq<ShardId>, b: seq<ShardId>)
    requires Distinct(a) && Distinct(b) && forall x :: x in a <==> x in b
    ensures multiset(a) == multiset(b)
  {
    forall x ensures multiset(a)[x] == multiset(b)[x] {
      OnceOnly(a, x);
      OnceOnly(b, x);
      assert x in a <==> x in multiset(a);
      assert x in b <==> x in multiset(b);
    }
  }

  function Except(xs: seq<ShardId>, gone: seq<ShardId>): seq<ShardId> {
    if xs == [] then [] else (if xs[0] in gone then [] else [xs[0]]) + Except(xs[1..], gone)
  }

  lemma {:induction false} ExceptIs(xs: seq<ShardId>, gone: seq<ShardId>)
    ensures forall x :: x in Except(xs, gone) <==> x in xs && x !in gone
    ensures Distinct(xs) ==> Distinct(Except(xs, gone))
  {
    if xs != [] {
      var rest := Except(xs[1..], gone);
      ExceptIs(xs[1..], gone);
      assert xs == [xs[0]] + xs[1..];
      if Distinct(xs) {
        assert forall j :: 0 <= j < |xs[1..]| ==> xs[1..][j] == xs[j + 1];
        assert xs[0] !in xs[1..];
        assert forall j :: 0 <= j < |rest| ==> rest[j] in rest;
      }
    }
  }

  /** Some draw puts any chosen candidates first. */
  lemma DrawFirst(candidates: seq<ShardId>, hs: seq<ShardId>) returns (draw: seq<ShardId>)
    requires Distinct(candidates) && Distinct(hs) && forall h :: h in hs ==> h in candidates
    ensures |draw| == |candidates| >= |hs| && Shuffle(candidates, draw) == draw && draw[..|hs|] == hs
  {
    var rest := Except(candidates, hs);
    ExceptIs(candidates, hs);
    draw := hs + rest;
    forall i, j | 0 <= i < j < |draw| ensures draw[i] != draw[j] {
      assert i < |hs| ==> hs[i] in hs;
      assert j >= |hs| ==> rest[j - |hs|] in rest;
    }
    SameMultiset(draw, candidates);
    assert |multiset(draw)| == |multiset(candidates)|;
  }

  lemma DrawnHelp(n: Node, ev: Event, hs: seq<ShardId>)
    requires ev.Tick? && ViewOk(n) && ProbeOk(n) && ev.now < n.nextPeriodAt && Due(n, ev.now) && hs != []
    requires var candidates := AliveExcept(n, n.order, n.probe.value.target);
             |hs| == Min(n.cfg.kIndirect, |candidates|)
             && Shuffle(candidates, ev.shuffled) == ev.shuffled && |ev.shuffled| >= |hs| && ev.shuffled[..|hs|] == hs
    ensures var p := Step(n, ev).node.probe; p.Some? && p.value.helpers == hs
  {
    var c := OpeningStage(n, ev);
    OpeningKeeps(n, c, ev.now);
    SameCandidates(n, n.probe.value.target, c.node, n.probe.value.target, n.order);
    assert Helpers(c.node, ev) == hs by {
      assert |ev.shuffled| == |AliveExcept(n, n.order, n.probe.value.target)| by {
        ShuffledSize(AliveExcept(n, n.order, n.probe.value.target), ev.shuffled);
      }
    }
    HelpersExact(c.node, ev);
    AskThenNote(c, hs, ev);
  }

  lemma ShuffledSize(candidates: seq<ShardId>, draw: seq<ShardId>)
    ensures |Shuffle(candidates, draw)| == |candidates|
  {
    assert |multiset(Shuffle(candidates, draw))| == |multiset(candidates)|;
  }

  /** The draw decides freely here too: any choice of as many helpers as are to be asked is made by some draw. */
  lemma AnyoneCanHelp(n: Node, now: real, pick: nat, hs: seq<ShardId>) returns (ev: Event)
    requires ViewOk(n) && ProbeOk(n) && now < n.nextPeriodAt && Due(n, now) && hs != [] && Distinct(hs)
    requires forall h :: h in hs ==> h in Others(n, n.probe.value.target)
    requires |hs| == Min(n.cfg.kIndirect, |Others(n, n.probe.value.target)|)
    ensures ev.Tick? && ev.now == now && ev.pick == pick
    ensures var p := Step(n, ev).node.probe; p.Some? && p.value.helpers == hs
  {
    var t := n.probe.value.target;
    var candidates := AliveExcept(n, n.order, t);
    AliveExceptExact(n, n.order, t);
    DistinctSize(candidates, Others(n, t));
    var draw := DrawFirst(candidates, hs);
    ev := Tick(now, pick, draw);
    DrawnHelp(n, ev, hs);
  }

  lemma StillPings(d: Conf, r: Conf, t: ShardId, now: real)
    requires Escalates(d, r, now) && Pings(d.out, t)
    ensures Pings(r.out, t)
  {
    EscalatesPingsNobody(d, r, now);
    var i :| 0 <= i < |d.out| && d.out[i].target == t && d.out[i].payload.Ping?;
    assert r.out[i] == r.out[..|d.out|][i];
  }
}
