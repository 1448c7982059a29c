/**
 The runner loop around the state machine: tick, drain the inbox, then hand new
 transitions to the observers from a watermark (membership/runner.py).
 */
module Runner {
  import opened Common
  import opened Records
  import opened Swim
  import opened SwimInvariants
  import opened SwimMessages
  import opened SwimTiming
  import opened MembershipMachine

  class MembershipRunner {
    const state: MembershipState
    var watermark: nat
    /** Everything the observers have been called with, in order. */
    ghost var observed: seq<Transition>

    ghost predicate Valid()
      reads this, state
    {
      state.Valid() && watermark <= |state.transitions| && observed == state.transitions[..watermark]
    }

    constructor (state: MembershipState)
      requires state.Valid()
      ensures Valid() && this.state == state && watermark == 0
    {
      this.state := state;
      watermark, observed := 0, [];
    }

    method FireObservers() returns (batch: seq<Transition>)
      requires Valid()
      modifies this
      ensures Valid() && observed == old(observed) + batch
      ensures watermark == |state.transitions| && observed == state.transitions
    {
      batch := state.ChangesSince(watermark);
      watermark := |state.transitions|;
      observed := observed + batch;
    }

    method TickState(now: real, pick: nat, shuffled: seq<ShardId>) returns (out: seq<Outgoing>)
      requires state.Valid()
      modifies state
      ensures state.Valid() && old(state.transitions) <= state.transitions
      ensures Conf(state.Abs(), out) == Step(old(state.Abs()), Tick(now, pick, shuffled))
    {
      StepHonest(state.Abs(), Tick(now, pick, shuffled), state.firstView);
      out := state.Tick(now, pick, shuffled);
    }

    method RecvState(m: Message, now: real) returns (out: seq<Outgoing>)
      requires state.Valid()
      modifies state
      ensures state.Valid() && old(state.transitions) <= state.transitions
      ensures Conf(state.Abs(), out) == Step(old(state.Abs()), Recv(m, now))
    {
      StepHonest(state.Abs(), Recv(m, now), state.firstView);
      out := state.Recv(m, now);
    }

    /** One more message of a round. */
    method RecvNext(m: Message, now: real, ghost trace: Trace, ghost n: Node, ghost tick: Event,
                    ghost seen: seq<(Message, real)>, ghost said: seq<Outgoing>)
      returns (out: seq<Outgoing>, ghost longer: Trace)
      requires state.Valid() && RoundSoFar(trace, n, tick, seen, state.Abs(), said)
      modifies state
      ensures state.Valid() && old(state.transitions) <= state.transitions
      ensures RoundSoFar(longer, n, tick, seen + [(m, now)], state.Abs(), said + out)
    {
      out := RecvState(m, now);
      longer := Trace(trace.nodes + [state.Abs()], trace.evs + [Recv(m, now)], trace.outs + [out]);
      RoundGrows(trace, n, tick, seen, (m, now), longer);
    }

    /** The tick a round begins with. */
    method TickFirst(now: real, pick: nat, shuffled: seq<ShardId>) returns (out: seq<Outgoing>, ghost trace: Trace)
      requires state.Valid()
      modifies state
      ensures state.Valid() && old(state.transitions) <= state.transitions
      ensures RoundSoFar(trace, old(state.Abs()), Tick(now, pick, shuffled), [], state.Abs(), out)
    {
      ghost var n, tick := state.Abs(), Tick(now, pick, shuffled);
      out := TickState(now, pick, shuffled);
      trace := Trace([n, state.Abs()], [tick], [out]);
      FirstOfRound(trace, n, tick);
    }

    /** The messages that are waiting, in order. */
    method DrainInbox(inbox: seq<(Message, real)>, said: seq<Outgoing>, ghost first: Trace, ghost n: Node,
                      ghost tick: Event)
      returns (outgoing: seq<Outgoing>, ghost trace: Trace)
      requires state.Valid() && RoundSoFar(first, n, tick, [], state.Abs(), said)
      modifies state
      ensures state.Valid() && old(state.transitions) <= state.transitions
      ensures RoundSoFar(trace, n, tick, inbox, state.Abs(), outgoing)
    {
      outgoing, trace := said, first;
      assert inbox[..0] == [];
      for i := 0 to |inbox|
        invariant state.Valid() && old(state.transitions) <= state.transitions
        invariant RoundSoFar(trace, n, tick, inbox[..i], state.Abs(), outgoing)
      {
        var more;
        more, trace := RecvNext(inbox[i].0, inbox[i].1, trace, n, tick, inbox[..i], outgoing);
        outgoing := outgoing + more;
        assert inbox[..i + 1] == inbox[..i] + [(inbox[i].0, inbox[i].1)];
      }
      assert inbox[..|inbox|] == inbox;
    }

    /** One round of the loop: a tick, then every inbox message in order, and all that these produce goes out.
        Afterwards the observers have seen the whole log, each transition once, in order. */
    method Iterate(now: real, pick: nat, shuffled: seq<ShardId>, inbox: seq<(Message, real)>)
      returns (outgoing: seq<Outgoing>, ghost trace: Trace)
      requires Valid()
      modifies this, state
      ensures Valid() && old(observed) <= observed && observed == state.transitions
      ensures RoundSoFar(trace, old(state.Abs()), Tick(now, pick, shuffled), inbox, state.Abs(), outgoing)
    {
      ghost var n := state.Abs();
      outgoing, trace := TickFirst(now, pick, shuffled);
      outgoing, trace := DrainInbox(inbox, outgoing, trace, n, Tick(now, pick, shuffled));
      var _ := FireObservers();
    }
  }

  /** The trace of one loop round from n: the tick, then each message, every step taken by the state machine. */
  ghost predicate IsRound(t: Trace, n: Node, tick: Event, inbox: seq<(Message, real)>) {
    && |t.evs| == |inbox| + 1 && |t.nodes| == |inbox| + 2 && |t.outs| == |inbox| + 1
    && t.nodes[0] == n && t.evs[0] == tick
    && (forall i :: 0 <= i < |inbox| ==> t.evs[i + 1] == Recv(inbox[i].0, inbox[i].1))
    && forall i: nat :: StepAt(t, i)
  }

  /** The round has brought the machine to `now`, and all it said is `out`. */
  ghost predicate RoundSoFar(t: Trace, n: Node, tick: Event, inbox: seq<(Message, real)>, now: Node,
                             out: seq<Outgoing>) {
    IsRound(t, n, tick, inbox) && now == t.nodes[|inbox| + 1] && out == Joined(t.outs)
  }

  function Joined(outs: seq<seq<Outgoing>>): seq<Outgoing> {
    if outs == [] then [] else Joined(outs[..|outs| - 1]) + outs[|outs| - 1]
  }

  lemma FirstOfRound(t: Trace, n: Node, tick: Event)
    requires |t.nodes| == 2 && t.nodes[0] == n && t.evs == [tick] && |t.outs| == 1
    requires Step(n, tick) == Conf(t.nodes[1], t.outs[0])
    ensures RoundSoFar(t, n, tick, [], t.nodes[1], t.outs[0])
  {
    assert t.outs[..0] == [];
  }

  /** From the front as from the back: nothing is dropped and the order is kept. */
  lemma {:induction false} JoinedFromFront(outs: seq<seq<Outgoing>>)
    requires outs != []
    ensures Joined(outs) == outs[0] + Joined(outs[1..])
    decreases |outs|
  {
    var n := |outs| - 1;
    if n == 0 {
      assert outs[..0] == [] && outs[1..] == [];
    } else {
      var init, rest, last := outs[..n], outs[1..], outs[n];
      assert rest[..n - 1] == init[1..] && rest[n - 1] == last;
      JoinedFromFront(init);
      assert Joined(rest) == Joined(init[1..]) + last;
      assert (outs[0] + Joined(init[1..])) + last == outs[0] + (Joined(init[1..]) + last);
    }
  }

  lemma RoundGrows(t: Trace, n: Node, tick: Event, inbox: seq<(Message, real)>, m: (Message, real), longer: Trace)
    requires IsRound(t, n, tick, inbox)
    requires |longer.nodes| == |t.nodes| + 1 && longer.nodes[..|t.nodes|] == t.nodes
    requires |longer.outs| == |t.outs| + 1 && longer.outs[..|t.outs|] == t.outs
    requires longer.evs == t.evs + [Recv(m.0, m.1)]
    requires Step(t.nodes[|t.nodes| - 1], Recv(m.0, m.1)) == Conf(longer.nodes[|t.nodes|], longer.outs[|t.outs|])
    ensures IsRound(longer, n, tick, inbox + [m])
    ensures Joined(longer.outs) == Joined(t.outs) + longer.outs[|t.outs|]
  {
    forall i: nat ensures StepAt(longer, i) {
      assert StepAt(t, i);
      assert i < |t.nodes| ==> longer.nodes[i] == t.nodes[i];
      assert i + 1 < |t.nodes| ==> longer.nodes[i + 1] == t.nodes[i + 1];
      assert i < |t.outs| ==> longer.outs[i] == t.outs[i];
    }
  }
}
