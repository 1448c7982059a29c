/** Names every part shares: shard identifiers, optional values, small arithmetic. */
module Common {
  type ShardId = string

  datatype Option<+T> = None | Some(value: T)

  function Min(a: nat, b: nat): nat { if a <= b then a else b }

  function Max(a: int, b: int): int { if a >= b then a else b }

  ghost predicate Distinct<T>(xs: seq<T>) { forall i, j :: 0 <= i < j < |xs| ==> xs[i] != xs[j] }

  /** A shard that reported no load counts as maximally loaded. */
  function KnownLoad(loads: map<ShardId, int>, s: ShardId): int { if s in loads then loads[s] else 0x7FFF_FFFF }
}
