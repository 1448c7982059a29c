/**
 Plain data of the membership layer: member records, the six membership
 messages and the timing configuration (membership/records.py, config.py).
 */
module Records {
  import opened Common

  /** Severity grows from Alive to Dead; it breaks ties at one incarnation. */
  datatype MemberState = Alive | Suspect | Dead {
    function Severity(): nat {
      match this
      case Alive => 0
      case Suspect => 1
      case Dead => 2
    }
  }

  datatype MemberRecord = MemberRecord(
    shardId: ShardId,
    host: string,
    udpPort: int,
    state: MemberState,
    incarnation: int,
    modelId: string,
    lastChange: real,
    deadline: Option<real>)

  /** The wire carries neither the change stamp nor the suspicion deadline. */
  function OnWire(r: MemberRecord): MemberRecord {
    r.(lastChange := 0.0, deadline := None)
  }

  datatype Transition = Transition(shardId: ShardId, oldState: Option<MemberState>, newRecord: MemberRecord)

  /** "<shard>:<counter>" in the source; the pair determines that string and back. */
  datatype ProbeId = ProbeId(origin: ShardId, number: nat)

  datatype Message =
    | Ping(sender: ShardId, senderIncarnation: int, deltas: seq<MemberRecord>)
    | Ack(sender: ShardId, senderIncarnation: int, deltas: seq<MemberRecord>)
    | PingReq(sender: ShardId, target: ShardId, probeId: ProbeId, deltas: seq<MemberRecord>)
    | PingReqAck(sender: ShardId, target: ShardId, probeId: ProbeId, success: bool, deltas: seq<MemberRecord>)
    | Join(newcomer: MemberRecord)
    | MembershipDelta(deltas: seq<MemberRecord>)

  datatype Outgoing = Outgoing(target: ShardId, payload: Message)

  datatype SwimConfig = SwimConfig(
    pingMs: nat,
    timeoutMs: nat,
    suspectMs: nat,
    kIndirect: nat,
    kGossip: nat)
  {
    function PingPeriod(): real { pingMs as real / 1000.0 }
    function Timeout(): real { timeoutMs as real / 1000.0 }
    function SuspectWindow(): real { suspectMs as real / 1000.0 }
    function GcCutoff(): real { 3.0 * suspectMs as real / 1000.0 }
  }
}
