/**
 The SWIM state machine of one node as a function on values. Every call of
 tick or recv is a sequence of micro-steps: a view write, an emission, or a
 bookkeeping update. `Step` composes them exactly as membership/state.py does;
 `StepInduction` lifts any property closed under micro-steps to whole calls.
 */
module Swim {
  import opened Common
  import opened Records
  import opened Backlog

  datatype Help = Help(probeId: ProbeId, target: ShardId, requester: ShardId, sentAt: real)

  datatype Probe = Probe(
    probeId: ProbeId,
    target: ShardId,
    sentAt: real,
    indirectSentAt: Option<real>,
    helpers: seq<ShardId>,
    nacks: nat,
    successSeen: bool)

  /** `order` is the insertion order of the member dictionary. */
  datatype Node = Node(
    selfId: ShardId,
    selfIncarnation: int,
    cfg: SwimConfig,
    modelId: string,
    members: map<ShardId, MemberRecord>,
    order: seq<ShardId>,
    log: seq<Transition>,
    nextPeriodAt: real,
    probe: Option<Probe>,
    probeCounter: nat,
    helps: seq<Help>,
    backlog: seq<Entry>,
    backlogCounter: nat)

  /** A node together with the messages the current call has produced so far. */
  datatype Conf = Conf(node: Node, out: seq<Outgoing>)

  /** One call of the machine. `pick` and `shuffled` are the random draws of a tick. */
  datatype Event =
    | Tick(now: real, pick: nat, shuffled: seq<ShardId>)
    | Recv(msg: Message, now: real)

  datatype Change =
    | Suspecting(id: ShardId)
    | Dying(id: ShardId)
    | Promoting(id: ShardId, incarnation: int)
    | Refuting(d: MemberRecord)
    | Applying(d: MemberRecord)
    | Learning(d: MemberRecord)
    | Joining(d: MemberRecord)

  datatype Emission =
    | StartProbe(target: ShardId)
    | AskHelper(helper: ShardId)
    | ReplyAck
    | AcceptHelp
    | ReplyHelp(index: nat, success: bool)
    | EchoView

  datatype Booking =
    | Collect
    | SkipPeriod
    | Escalate(helpers: seq<ShardId>)
    | CountNack
    | ClearProbe

  datatype Micro = Write(change: Change) | Send(emission: Emission) | Book(booking: Booking)

  // ---------------------------------------------------------------- startup

  datatype PeerSpec = PeerSpec(shardId: ShardId, host: string, udpPort: int)

  function BootRecord(p: PeerSpec, selfId: ShardId, model: string, incarnation: int): MemberRecord {
    MemberRecord(p.shardId, p.host, p.udpPort, Alive, if p.shardId == selfId then incarnation else 0, model, 0.0, None)
  }

  function BootMembers(ps: seq<PeerSpec>, selfId: ShardId, model: string,
      incarnation: int): map<ShardId, MemberRecord> {
    if ps == [] then map[]
    else
      var last := ps[|ps| - 1];
      var rec := BootRecord(last, selfId, model, incarnation);
      BootMembers(ps[..|ps| - 1], selfId, model, incarnation)[last.shardId := rec]
  }

  function BootOrder(ps: seq<PeerSpec>): seq<ShardId> {
    if ps == [] then []
    else
      var init, id := BootOrder(ps[..|ps| - 1]), ps[|ps| - 1].shardId;
      if id in init then init else init + [id]
  }

  /** A node as constructed: everyone ALIVE, own record queued for gossip if it has a positive incarnation. */
  function Boot(self: PeerSpec, peers: seq<PeerSpec>, cfg: SwimConfig, model: string, incarnation: int): Node {
    var members := BootMembers([self] + peers, self.shardId, model, incarnation);
    var queued := incarnation > 0 && self.shardId in members;
    Node(self.shardId, incarnation, cfg, model, members, BootOrder([self] + peers), [],
         cfg.PingPeriod(), None, 0, [],
         if queued then [Entry(members[self.shardId], 0, 0.0, 0)] else [],
         if queued then 1 else 0)
  }

  // ------------------------------------------------------------ view writes

  predicate Admits(n: Node, d: MemberRecord) {
    n.modelId == "" || d.modelId == n.modelId
  }

  predicate Outranks(d: MemberRecord, prev: MemberRecord) {
    d.incarnation > prev.incarnation
    || (d.incarnation == prev.incarnation && d.state.Severity() > prev.state.Severity())
  }

  /** A DEAD record of higher incarnation is a floor a joining node must climb over. */
  predicate JoinFloor(n: Node, d: MemberRecord) {
    d.shardId in n.members
    && n.members[d.shardId].state == Dead
    && n.members[d.shardId].incarnation > d.incarnation
  }

  predicate FromPeer(ev: Event, id: ShardId, incarnation: int) {
    ev.Recv? && (ev.msg.Ping? || ev.msg.Ack?) && ev.msg.sender == id && ev.msg.senderIncarnation == incarnation
  }

  /** Only Ping, Ack and MembershipDelta have their deltas applied. */
  predicate Carries(ev: Event, d: MemberRecord) {
    ev.Recv? && (ev.msg.Ping? || ev.msg.Ack? || ev.msg.MembershipDelta?) && d in ev.msg.deltas
  }

  predicate Enabled(n: Node, ch: Change, ev: Event) {
    match ch
    case Suspecting(id) =>
      && n.probe.Some? && n.probe.value.target == id && id in n.members && n.members[id].state == Alive
      && (if ev.Tick? then n.probe.value.indirectSentAt.Some? || ev.now >= n.probe.value.sentAt + n.cfg.Timeout()
          else ev.msg.PingReqAck? && !ev.msg.success && ev.msg.probeId == n.probe.value.probeId
               && n.probe.value.nacks + 1 >= |n.probe.value.helpers|)
    case Dying(id) =>
      id in n.members && n.members[id].state == Suspect
      && n.members[id].deadline.Some? && ev.now >= n.members[id].deadline.value
    case Promoting(id, inc) =>
      FromPeer(ev, id, inc) && id != n.selfId && id in n.members && n.members[id].state != Alive
    case Refuting(d) =>
      Carries(ev, d) && d.shardId == n.selfId && d.state != Alive && d.incarnation >= n.selfIncarnation
      && n.selfId in n.members
    case Applying(d) =>
      Carries(ev, d) && d.shardId != n.selfId && d.shardId in n.members
      && Admits(n, d) && Outranks(d, n.members[d.shardId])
    case Learning(d) =>
      ev.Recv? && ev.msg.MembershipDelta? && d in ev.msg.deltas
      && d.shardId != n.selfId && d.shardId !in n.members && Admits(n, d)
    case Joining(d) =>
      ev.Recv? && ev.msg == Join(d) && Admits(n, d) && !JoinFloor(n, d)
  }

  function Subject(ch: Change): ShardId {
    match ch
    case Suspecting(id) => id
    case Dying(id) => id
    case Promoting(id, _) => id
    case Refuting(d) => d.shardId
    case Applying(d) => d.shardId
    case Learning(d) => d.shardId
    case Joining(d) => d.shardId
  }

  /** The record an enabled change installs. */
  function Written(n: Node, ch: Change, ev: Event): MemberRecord
    requires Enabled(n, ch, ev)
  {
    match ch
    case Suspecting(id) =>
      n.members[id].(state := Suspect, lastChange := ev.now, deadline := Some(ev.now + n.cfg.SuspectWindow()))
    case Dying(id) =>
      n.members[id].(state := Dead, lastChange := ev.now, deadline := None)
    case Promoting(id, inc) =>
      n.members[id].(state := Alive, incarnation := Max(n.members[id].incarnation, inc),
                     lastChange := ev.now, deadline := None)
    case Refuting(d) =>
      n.members[n.selfId].(state := Alive, incarnation := d.incarnation + 1, lastChange := ev.now, deadline := None)
    case Applying(d) =>
      n.members[d.shardId].(state := d.state, incarnation := d.incarnation, modelId := d.modelId,
                            lastChange := ev.now,
                            deadline := if d.state == Suspect then Some(ev.now + n.cfg.SuspectWindow()) else None)
    case Learning(d) => d
    case Joining(d) => d.(state := Alive, lastChange := ev.now, deadline := None)
  }

  /** Replace the record, log the transition, and queue the record for gossip. */
  function Install(n: Node, id: ShardId, rec: MemberRecord, now: real): Node {
    var was := if id in n.members then Some(n.members[id].state) else None;
    n.(members := n.members[id := rec],
       order := if id in n.members then n.order else n.order + [id],
       log := n.log + [Transition(id, was, rec)],
       backlog := Without(n.backlog, id) + [Entry(rec, 0, now, n.backlogCounter)],
       backlogCounter := n.backlogCounter + 1)
  }

  function DoWrite(n: Node, ch: Change, ev: Event): Node
    requires Enabled(n, ch, ev)
  {
    var n1 := Install(n, Subject(ch), Written(n, ch, ev), ev.now);
    if ch.Refuting? then n1.(selfIncarnation := ch.d.incarnation + 1) else n1
  }

  // -------------------------------------------------------------- emissions

  /** Own record first, then up to kGossip backlog records. */
  function PiggyBack(n: Node): seq<MemberRecord> {
    (if n.selfId in n.members then [n.members[n.selfId]] else [])
    + RecordsOf(Picked(n.backlog, n.cfg.kGossip))
  }

  function Gossiped(n: Node): Node {
    n.(backlog := AfterPick(n.backlog, n.cfg.kGossip))
  }

  function Values(n: Node, ids: seq<ShardId>): seq<MemberRecord> {
    if ids == [] then []
    else (if ids[0] in n.members then [n.members[ids[0]]] else []) + Values(n, ids[1..])
  }

  predicate Sendable(n: Node, e: Emission, ev: Event) {
    match e
    case StartProbe(t) => ev.Tick? && t in n.members && t != n.selfId && n.members[t].state == Alive && n.probe.None?
    case AskHelper(h) => ev.Tick? && n.probe.Some? && h in n.members && h != n.selfId && n.members[h].state == Alive
    case ReplyAck => ev.Recv? && ev.msg.Ping? && ev.msg.sender in n.members
    case AcceptHelp => ev.Recv? && ev.msg.PingReq? && ev.msg.target in n.members
    case ReplyHelp(i, ok) =>
      i < |n.helps|
      && (if ok then ev.Recv? && ev.msg.Ack? && n.helps[i].target == ev.msg.sender
          else ev.Tick? && ev.now >= n.helps[i].sentAt + n.cfg.Timeout())
    case EchoView => ev.Recv? && ev.msg.Join? && Admits(n, ev.msg.newcomer)
  }

  function Sent(n: Node, e: Emission, ev: Event): Outgoing
    requires Sendable(n, e, ev)
  {
    match e
    case StartProbe(t) => Outgoing(t, Ping(n.selfId, n.selfIncarnation, PiggyBack(n)))
    case AskHelper(h) => Outgoing(h, PingReq(n.selfId, n.probe.value.target, n.probe.value.probeId, PiggyBack(n)))
    case ReplyAck => Outgoing(ev.msg.sender, Ack(n.selfId, n.selfIncarnation, PiggyBack(n)))
    case AcceptHelp => Outgoing(ev.msg.target, Ping(n.selfId, n.selfIncarnation, PiggyBack(n)))
    case ReplyHelp(i, ok) =>
      Outgoing(n.helps[i].requester, PingReqAck(n.selfId, n.helps[i].target, n.helps[i].probeId, ok, PiggyBack(n)))
    case EchoView => Outgoing(ev.msg.newcomer.shardId, MembershipDelta(Values(n, n.order)))
  }

  /** The probe, period and help fields after an emission. */
  function Noted(n: Node, e: Emission, ev: Event): Node
    requires Sendable(n, e, ev)
  {
    match e
    case StartProbe(t) =>
      n.(probeCounter := n.probeCounter + 1,
         probe := Some(Probe(ProbeId(n.selfId, n.probeCounter + 1), t, ev.now, None, [], 0, false)),
         nextPeriodAt := ev.now + n.cfg.PingPeriod())
    case AcceptHelp => n.(helps := n.helps + [Help(ev.msg.probeId, ev.msg.target, ev.msg.sender, ev.now)])
    case ReplyHelp(i, _) => n.(helps := n.helps[..i] + n.helps[i + 1..])
    case _ => n
  }

  function DoSend(c: Conf, e: Emission, ev: Event): Conf
    requires Sendable(c.node, e, ev)
  {
    var n1 := Noted(c.node, e, ev);
    Conf(if e.EchoView? then n1 else Gossiped(n1), c.out + [Sent(c.node, e, ev)])
  }

  // ------------------------------------------------------------ bookkeeping

  predicate Bookable(n: Node, b: Booking, ev: Event) {
    match b
    case Collect => true
    case SkipPeriod => ev.Tick?
    case Escalate(hs) =>
      ev.Tick? && n.probe.Some? && n.probe.value.indirectSentAt.None?
      && ev.now >= n.probe.value.sentAt + n.cfg.Timeout() && hs != []
    case CountNack =>
      ev.Recv? && ev.msg.PingReqAck? && !ev.msg.success && n.probe.Some? && n.probe.value.probeId == ev.msg.probeId
      && (n.probe.value.nacks + 1 < |n.probe.value.helpers| || n.probe.value.successSeen)
    case ClearProbe => true
  }

  function DoBook(n: Node, b: Booking, ev: Event): Node
    requires Bookable(n, b, ev)
  {
    match b
    case Collect => n.(backlog := Fresh(n.backlog, ev.now, n.cfg.GcCutoff()))
    case SkipPeriod => n.(nextPeriodAt := ev.now + n.cfg.PingPeriod())
    case Escalate(hs) => n.(probe := Some(n.probe.value.(indirectSentAt := Some(ev.now), helpers := hs)))
    case CountNack => n.(probe := Some(n.probe.value.(nacks := n.probe.value.nacks + 1)))
    case ClearProbe => n.(probe := None)
  }

  // ------------------------------------------------------------ micro-steps

  predicate Can(c: Conf, m: Micro, ev: Event) {
    match m
    case Write(ch) => Enabled(c.node, ch, ev)
    case Send(e) => Sendable(c.node, e, ev)
    case Book(b) => Bookable(c.node, b, ev)
  }

  function Do(c: Conf, m: Micro, ev: Event): Conf
    requires Can(c, m, ev)
  {
    match m
    case Write(ch) => c.(node := DoWrite(c.node, ch, ev))
    case Send(e) => DoSend(c, e, ev)
    case Book(b) => c.(node := DoBook(c.node, b, ev))
  }

  function Try(c: Conf, m: Micro, ev: Event): Conf {
    if Can(c, m, ev) then Do(c, m, ev) else c
  }

  // ------------------------------------------------------------------- tick

  /** Answer, in order, every pending help that is due: acknowledged by its target, or timed out. */
  function FlushHelps(c: Conf, i: nat, ok: bool, ev: Event): Conf
    decreases |c.node.helps| - i
  {
    if i >= |c.node.helps| then c
    else if Sendable(c.node, ReplyHelp(i, ok), ev) then
      FlushHelps(DoSend(c, ReplyHelp(i, ok), ev), i, ok, ev)
    else FlushHelps(c, i + 1, ok, ev)
  }

  function PromoteDead(c: Conf, ids: seq<ShardId>, ev: Event): Conf
    decreases |ids|
  {
    if ids == [] then c else PromoteDead(Try(c, Write(Dying(ids[0])), ev), ids[1..], ev)
  }

  function AliveExcept(n: Node, ids: seq<ShardId>, skip: ShardId): seq<ShardId> {
    if ids == [] then []
    else
      (if ids[0] in n.members && n.members[ids[0]].state == Alive && ids[0] != n.selfId && ids[0] != skip
       then [ids[0]] else [])
      + AliveExcept(n, ids[1..], skip)
  }

  function StartPeriod(c: Conf, ev: Event): Conf
    requires ev.Tick?
  {
    var c1 := if c.node.probe.Some? && c.node.probe.value.indirectSentAt.Some? && !c.node.probe.value.successSeen
              then Try(c, Write(Suspecting(c.node.probe.value.target)), ev) else c;
    var c2 := Do(c1, Book(ClearProbe), ev);
    var candidates := AliveExcept(c2.node, c2.node.order, c2.node.selfId);
    if candidates == [] then Do(c2, Book(SkipPeriod), ev)
    else Try(c2, Send(StartProbe(candidates[ev.pick % |candidates|])), ev)
  }

  function AskAll(c: Conf, helpers: seq<ShardId>, ev: Event): Conf
    decreases |helpers|
  {
    if helpers == [] then c else AskAll(Try(c, Send(AskHelper(helpers[0])), ev), helpers[1..], ev)
  }

  /** The shuffled candidates; a draw that is not a permutation of them stands for the identity. */
  function Shuffle(candidates: seq<ShardId>, draw: seq<ShardId>): (r: seq<ShardId>)
    ensures multiset(r) == multiset(candidates)
  {
    if multiset(draw) == multiset(candidates) then draw else candidates
  }

  function Helpers(n: Node, ev: Event): seq<ShardId>
    requires ev.Tick? && n.probe.Some?
  {
    var shuffled := Shuffle(AliveExcept(n, n.order, n.probe.value.target), ev.shuffled);
    shuffled[..Min(n.cfg.kIndirect, |shuffled|)]
  }

  function EscalateProbe(c: Conf, ev: Event): Conf
    requires ev.Tick?
  {
    if c.node.probe.None? || c.node.probe.value.indirectSentAt.Some?
       || ev.now < c.node.probe.value.sentAt + c.node.cfg.Timeout()
    then c
    else
      var chosen := Helpers(c.node, ev);
      if chosen == [] then
        Do(Try(c, Write(Suspecting(c.node.probe.value.target)), ev), Book(ClearProbe), ev)
      else Try(AskAll(c, chosen, ev), Book(Escalate(chosen)), ev)
  }

  function TickStep(c: Conf, ev: Event): Conf
    requires ev.Tick?
  {
    var c1 := Do(c, Book(Collect), ev);
    var c2 := FlushHelps(c1, 0, false, ev);
    var c3 := PromoteDead(c2, c2.node.order, ev);
    var c4 := if ev.now >= c3.node.nextPeriodAt then StartPeriod(c3, ev) else c3;
    EscalateProbe(c4, ev)
  }

  // ------------------------------------------------------------------- recv

  function ApplyOne(c: Conf, d: MemberRecord, ev: Event): Conf {
    if d.shardId == c.node.selfId then Try(c, Write(Refuting(d)), ev)
    else if d.shardId !in c.node.members then Try(c, Write(Learning(d)), ev)
    else Try(c, Write(Applying(d)), ev)
  }

  function ApplyAll(c: Conf, ds: seq<MemberRecord>, ev: Event): Conf
    decreases |ds|
  {
    if ds == [] then c else ApplyAll(ApplyOne(c, ds[0], ev), ds[1..], ev)
  }

  function HandlePing(c: Conf, ev: Event): Conf
    requires ev.Recv? && ev.msg.Ping?
  {
    if ev.msg.sender !in c.node.members then c
    else
      var c1 := Try(c, Write(Promoting(ev.msg.sender, ev.msg.senderIncarnation)), ev);
      Try(ApplyAll(c1, ev.msg.deltas, ev), Send(ReplyAck), ev)
  }

  function HandleAck(c: Conf, ev: Event): Conf
    requires ev.Recv? && ev.msg.Ack?
  {
    var c1 := if c.node.probe.Some? && c.node.probe.value.target == ev.msg.sender
              then Do(c, Book(ClearProbe), ev) else c;
    var c2 := Try(c1, Write(Promoting(ev.msg.sender, ev.msg.senderIncarnation)), ev);
    FlushHelps(ApplyAll(c2, ev.msg.deltas, ev), 0, true, ev)
  }

  function HandlePingReqAck(c: Conf, ev: Event): Conf
    requires ev.Recv? && ev.msg.PingReqAck?
  {
    if c.node.probe.None? || c.node.probe.value.probeId != ev.msg.probeId then c
    else if ev.msg.success then Do(c, Book(ClearProbe), ev)
    else if c.node.probe.value.nacks + 1 >= |c.node.probe.value.helpers| && !c.node.probe.value.successSeen then
      Do(Try(c, Write(Suspecting(c.node.probe.value.target)), ev), Book(ClearProbe), ev)
    else Try(c, Book(CountNack), ev)
  }

  function HandleJoin(c: Conf, ev: Event): Conf
    requires ev.Recv? && ev.msg.Join?
  {
    if !Admits(c.node, ev.msg.newcomer) then c
    else Try(Try(c, Write(Joining(ev.msg.newcomer)), ev), Send(EchoView), ev)
  }

  function RecvStep(c: Conf, ev: Event): Conf
    requires ev.Recv?
  {
    match ev.msg
    case Ping(_, _, _) => HandlePing(c, ev)
    case Ack(_, _, _) => HandleAck(c, ev)
    case PingReq(_, _, _, _) => Try(c, Send(AcceptHelp), ev)
    case PingReqAck(_, _, _, _, _) => HandlePingReqAck(c, ev)
    case Join(_) => HandleJoin(c, ev)
    case MembershipDelta(ds) => ApplyAll(c, ds, ev)
  }

  /** One call of tick or recv. */
  function Step(n: Node, ev: Event): Conf {
    if ev.Tick? then TickStep(Conf(n, []), ev) else RecvStep(Conf(n, []), ev)
  }

  // ---------------------------------------------------- induction principle

  /** P survives every micro-step the event permits. */
  ghost predicate Closed(P: Conf -> bool, ev: Event) {
    forall c, m :: P(c) && Can(c, m, ev) ==> P(Do(c, m, ev))
  }

  lemma {:induction false} FlushInduction(P: Conf -> bool, c: Conf, i: nat, ok: bool, ev: Event)
    requires Closed(P, ev) && P(c)
    ensures P(FlushHelps(c, i, ok, ev))
    decreases |c.node.helps| - i
  {
    if i < |c.node.helps| {
      if Sendable(c.node, ReplyHelp(i, ok), ev) {
        assert Can(c, Send(ReplyHelp(i, ok)), ev);
        FlushInduction(P, Do(c, Send(ReplyHelp(i, ok)), ev), i, ok, ev);
      } else {
        FlushInduction(P, c, i + 1, ok, ev);
      }
    }
  }

  lemma {:induction false} PromoteDeadInduction(P: Conf -> bool, c: Conf, ids: seq<ShardId>, ev: Event)
    requires Closed(P, ev) && P(c)
    ensures P(PromoteDead(c, ids, ev))
    decreases |ids|
  {
    if ids != [] {
      PromoteDeadInduction(P, Try(c, Write(Dying(ids[0])), ev), ids[1..], ev);
    }
  }

  lemma {:induction false} AskAllInduction(P: Conf -> bool, c: Conf, helpers: seq<ShardId>, ev: Event)
    requires Closed(P, ev) && P(c)
    ensures P(AskAll(c, helpers, ev))
    decreases |helpers|
  {
    if helpers != [] {
      AskAllInduction(P, Try(c, Send(AskHelper(helpers[0])), ev), helpers[1..], ev);
    }
  }

  lemma {:induction false} ApplyAllInduction(P: Conf -> bool, c: Conf, ds: seq<MemberRecord>, ev: Event)
    requires Closed(P, ev) && P(c)
    ensures P(ApplyAll(c, ds, ev))
    decreases |ds|
  {
    if ds != [] {
      ApplyAllInduction(P, ApplyOne(c, ds[0], ev), ds[1..], ev);
    }
  }

  lemma TickInduction(P: Conf -> bool, c: Conf, ev: Event)
    requires ev.Tick? && Closed(P, ev) && P(c)
    ensures P(TickStep(c, ev))
  {
    var c1 := Do(c, Book(Collect), ev);
    assert Can(c, Book(Collect), ev);
    FlushInduction(P, c1, 0, false, ev);
    var c2 := FlushHelps(c1, 0, false, ev);
    PromoteDeadInduction(P, c2, c2.node.order, ev);
    var c3 := PromoteDead(c2, c2.node.order, ev);
    if ev.now >= c3.node.nextPeriodAt { StartPeriodInduction(P, c3, ev); }
    var c4 := if ev.now >= c3.node.nextPeriodAt then StartPeriod(c3, ev) else c3;
    EscalateInduction(P, c4, ev);
  }

  lemma StartPeriodInduction(P: Conf -> bool, c: Conf, ev: Event)
    requires ev.Tick? && Closed(P, ev) && P(c)
    ensures P(StartPeriod(c, ev))
  {
    var c1 := if c.node.probe.Some? && c.node.probe.value.indirectSentAt.Some? && !c.node.probe.value.successSeen
              then Try(c, Write(Suspecting(c.node.probe.value.target)), ev) else c;
    assert P(c1);
    assert Can(c1, Book(ClearProbe), ev);
    var c2 := Do(c1, Book(ClearProbe), ev);
    assert Can(c2, Book(SkipPeriod), ev);
  }

  lemma EscalateInduction(P: Conf -> bool, c: Conf, ev: Event)
    requires ev.Tick? && Closed(P, ev) && P(c)
    ensures P(EscalateProbe(c, ev))
  {
    if c.node.probe.Some? && c.node.probe.value.indirectSentAt.None?
       && ev.now >= c.node.probe.value.sentAt + c.node.cfg.Timeout() {
      var chosen := Helpers(c.node, ev);
      if chosen == [] {
        var c1 := Try(c, Write(Suspecting(c.node.probe.value.target)), ev);
        assert P(c1) && Can(c1, Book(ClearProbe), ev);
      } else {
        AskAllInduction(P, c, chosen, ev);
      }
    }
  }

  lemma RecvInduction(P: Conf -> bool, c: Conf, ev: Event)
    requires ev.Recv? && Closed(P, ev) && P(c)
    ensures P(RecvStep(c, ev))
  {
    match ev.msg
    case Ping(from, inc, ds) =>
      ApplyAllInduction(P, Try(c, Write(Promoting(from, inc)), ev), ds, ev);
    case Ack(from, inc, ds) =>
      assert Can(c, Book(ClearProbe), ev);
      var c1 := if c.node.probe.Some? && c.node.probe.value.target == from then Do(c, Book(ClearProbe), ev) else c;
      assert P(c1);
      var c2 := Try(c1, Write(Promoting(from, inc)), ev);
      ApplyAllInduction(P, c2, ds, ev);
      FlushInduction(P, ApplyAll(c2, ds, ev), 0, true, ev);
    case PingReqAck(_, _, _, _, _) =>
      assert Can(c, Book(ClearProbe), ev);
      if c.node.probe.Some? {
        var c1 := Try(c, Write(Suspecting(c.node.probe.value.target)), ev);
        assert P(c1) && Can(c1, Book(ClearProbe), ev);
      }
    case MembershipDelta(ds) =>
      ApplyAllInduction(P, c, ds, ev);
    case _ =>
  }

  /** Whatever holds of the starting state and survives every micro-step holds after the call. */
  lemma StepInduction(P: Conf -> bool, n: Node, ev: Event)
    requires P(Conf(n, [])) && Closed(P, ev)
    ensures P(Step(n, ev))
  {
    if ev.Tick? { TickInduction(P, Conf(n, []), ev); } else { RecvInduction(P, Conf(n, []), ev); }
  }
}
