/**
 Gossip fairness: an entry waits at most floor(D / k) selections, where D adds
 up how far every other entry may still overtake it.
 */
module SwimFairness {
  import opened Common
  import opened Records
  import opened Backlog
  import opened BacklogLemmas
  import opened Swim

  /** How many more times `o` can be picked before an entry of priority p, number num. */
  function Owes(p: nat, num: nat, o: Entry): nat {
    if o.number == num || o.priority > p then 0 else p + 1 - o.priority
  }

  function Debt(p: nat, num: nat, b: seq<Entry>): nat {
    if b == [] then 0 else Owes(p, num, b[0]) + Debt(p, num, b[1..])
  }

  lemma {:induction false} DebtInsert(p: nat, num: nat, e: Entry, s: seq<Entry>)
    ensures Debt(p, num, Insert(e, s)) == Owes(p, num, e) + Debt(p, num, s)
  {
    if s == [] || Before(e, s[0]) {
      assert ([e] + s)[1..] == s;
    } else {
      DebtInsert(p, num, e, s[1..]);
      assert ([s[0]] + Insert(e, s[1..]))[1..] == Insert(e, s[1..]);
    }
  }

  lemma {:induction false} DebtSorted(p: nat, num: nat, b: seq<Entry>)
    ensures Debt(p, num, Sorted(b)) == Debt(p, num, b)
  {
    if b != [] {
      DebtSorted(p, num, b[1..]);
      DebtInsert(p, num, b[0], Sorted(b[1..]));
    }
  }

  lemma {:induction false} DebtBump(p: nat, num: nat, s: seq<Entry>, k: nat)
    requires k <= |s|
    requires forall i :: 0 <= i < k ==> s[i].number != num && s[i].priority <= p
    ensures Debt(p, num, Bump(s, k)) + k == Debt(p, num, s)
  {
    if k == 0 {
      assert Bump(s, k) == s;
    } else {
      DebtBump(p, num, s[1..], k - 1);
      assert Bump(s, k)[1..] == Bump(s[1..], k - 1);
    }
  }

  /** The backlog after n further selections with nothing enqueued or collected in between. */
  function Rounds(b: seq<Entry>, k: nat, n: nat): seq<Entry>
    decreases n
  {
    if n == 0 then b else Rounds(AfterPick(b, k), k, n - 1)
  }

  ghost predicate Picks(b: seq<Entry>, k: nat, num: nat) {
    exists i :: 0 <= i < |Picked(b, k)| && Picked(b, k)[i].number == num
  }

  lemma SkipSorted(s: seq<Entry>, k: nat, m: nat)
    requires Ordered(s) && Separate(s) && k <= m < |s|
    ensures Debt(s[m].priority, s[m].number, Bump(s, k)) + k == Debt(s[m].priority, s[m].number, s)
  {
    forall i | 0 <= i < k ensures s[i].number != s[m].number && s[i].priority <= s[m].priority {
      assert Before(s[i], s[m]);
    }
    DebtBump(s[m].priority, s[m].number, s, k);
  }

  lemma BumpDistinct(s: seq<Entry>, k: nat)
    requires Separate(s)
    ensures Separate(Bump(s, k))
  {
  }

  /** A selection that skips an entry leaves it untouched and lowers its debt by exactly k. */
  lemma SkipLowersDebt(b: seq<Entry>, k: nat, e: Entry)
    requires Separate(b) && e in b && !Picks(b, k, e.number)
    ensures e in AfterPick(b, k) && Separate(AfterPick(b, k))
    ensures Debt(e.priority, e.number, AfterPick(b, k)) + k == Debt(e.priority, e.number, b)
  {
    var s := Sorted(b);
    SortedMembership(b, e);
    var m :| 0 <= m < |s| && s[m] == e;
    forall i | 0 <= i < Min(k, |s|) ensures s[i].number != e.number { assert Picked(b, k)[i] == s[i]; }
    assert Bump(s, k)[m] == e;
    SortedSpec(b);
    SortedDistinct(b);
    BumpDistinct(s, k);
    SkipSorted(s, k, m);
    DebtSorted(e.priority, e.number, b);
  }

  /** Entry e is piggybacked within floor(D / k) + 1 selections: n whole rounds of k cost at most D. */
  lemma {:induction false} PickedInTime(b: seq<Entry>, k: nat, e: Entry) returns (n: nat)
    requires k >= 1 && Separate(b) && e in b
    ensures n * k <= Debt(e.priority, e.number, b)
    ensures Picks(Rounds(b, k, n), k, e.number)
    decreases Debt(e.priority, e.number, b)
  {
    if Picks(b, k, e.number) {
      n := 0;
    } else {
      SkipLowersDebt(b, k, e);
      var n' := PickedInTime(AfterPick(b, k), k, e);
      n := n' + 1;
      assert n * k == n' * k + k;
    }
  }

  lemma {:induction false} PickedRecord(b: seq<Entry>, k: nat, n: nat, e: Entry)
    requires Separate(b) && e in b
    ensures forall x :: x in Rounds(b, k, n) && x.number == e.number ==> x.record == e.record
    decreases n
  {
    if n == 0 {
      forall x | x in b && x.number == e.number ensures x == e {
        var i, j :| 0 <= i < |b| && 0 <= j < |b| && b[i] == x && b[j] == e;
      }
    } else {
      SortedMembership(b, e);
      SortedDistinct(b);
      var i :| 0 <= i < |Sorted(b)| && Sorted(b)[i] == e;
      PickedRecord(AfterPick(b, k), k, n - 1, AfterPick(b, k)[i]);
    }
  }

  function GossipTimes(n: Node, times: nat): Node
    decreases times
  {
    if times == 0 then n else GossipTimes(Gossiped(n), times - 1)
  }

  lemma {:induction false} GossipRounds(n: Node, times: nat)
    ensures GossipTimes(n, times) == n.(backlog := Rounds(n.backlog, n.cfg.kGossip, times))
    decreases times
  {
    if times > 0 { GossipRounds(Gossiped(n), times - 1); }
  }

  /** On the node: with kGossip >= 1 the record of a queued entry rides on one of the next
      floor(D / kGossip) + 1 messages. */
  lemma GossipIsFair(n: Node, e: Entry) returns (times: nat)
    requires n.cfg.kGossip >= 1 && Separate(n.backlog) && e in n.backlog
    ensures times * n.cfg.kGossip <= Debt(e.priority, e.number, n.backlog)
    ensures e.record in PiggyBack(GossipTimes(n, times))
  {
    var k := n.cfg.kGossip;
    times := PickedInTime(n.backlog, k, e);
    GossipRounds(n, times);
    var b := Rounds(n.backlog, k, times);
    var i :| 0 <= i < |Picked(b, k)| && Picked(b, k)[i].number == e.number;
    var x := Picked(b, k)[i];
    SortedMembership(b, x);
    PickedRecord(n.backlog, k, times, e);
    assert RecordsOf(Picked(b, k))[i] == e.record;
    var later := GossipTimes(n, times);
    var head := if later.selfId in later.members then [later.members[later.selfId]] else [];
    assert PiggyBack(later)[|head| + i] == e.record;
  }
}
