/** Facts about the backlog list operations. */
module BacklogLemmas {
  import opened Common
  import opened Records
  import opened Backlog

  ghost predicate Separate(b: seq<Entry>) {
    forall i, j :: 0 <= i < j < |b| ==> b[i].record.shardId != b[j].record.shardId && b[i].number != b[j].number
  }

  ghost predicate Numbered(b: seq<Entry>, counter: nat) {
    forall e :: e in b ==> e.number < counter
  }

  /** Every queued record is the record the view holds for that member. */
  ghost predicate Current(b: seq<Entry>, members: map<ShardId, MemberRecord>) {
    forall e :: e in b ==> e.record.shardId in members && members[e.record.shardId] == e.record
  }

  ghost predicate Healthy(b: seq<Entry>, members: map<ShardId, MemberRecord>, counter: nat) {
    Separate(b) && Numbered(b, counter) && Current(b, members)
  }

  ghost predicate Ordered(b: seq<Entry>) {
    forall i, j :: 0 <= i < j < |b| ==> Before(b[i], b[j])
  }

  lemma {:induction false} InsertMembers(e: Entry, s: seq<Entry>)
    ensures |Insert(e, s)| == |s| + 1
    ensures multiset(Insert(e, s)) == multiset(s) + multiset{e}
  {
    if s != [] && !Before(e, s[0]) {
      InsertMembers(e, s[1..]);
      assert s == [s[0]] + s[1..];
    }
  }

  lemma {:induction false} InsertOrders(e: Entry, s: seq<Entry>)
    requires Ordered(s)
    ensures Ordered(Insert(e, s))
  {
    if s != [] && !Before(e, s[0]) {
      InsertOrders(e, s[1..]);
      InsertMembers(e, s[1..]);
      var rest := Insert(e, s[1..]);
      forall j | 0 <= j < |rest| ensures Before(s[0], rest[j]) {
        assert rest[j] in multiset(rest);
        assert rest[j] == e || rest[j] in s[1..];
      }
    }
  }

  /** Sorting permutes the backlog and orders it. */
  lemma {:induction false} SortedSpec(b: seq<Entry>)
    ensures |Sorted(b)| == |b|
    ensures multiset(Sorted(b)) == multiset(b)
    ensures Ordered(Sorted(b))
  {
    if b != [] {
      SortedSpec(b[1..]);
      InsertMembers(b[0], Sorted(b[1..]));
      InsertOrders(b[0], Sorted(b[1..]));
      assert b == [b[0]] + b[1..];
    }
  }

  lemma SortedMembership(b: seq<Entry>, e: Entry)
    ensures e in Sorted(b) <==> e in b
  {
    SortedSpec(b);
    assert e in Sorted(b) <==> e in multiset(Sorted(b));
    assert e in b <==> e in multiset(b);
  }

  lemma {:induction false} InsertDistinct(e: Entry, s: seq<Entry>)
    requires Separate(s)
    requires forall x :: x in s ==> x.record.shardId != e.record.shardId && x.number != e.number
    ensures Separate(Insert(e, s))
  {
    if s != [] && !Before(e, s[0]) {
      InsertDistinct(e, s[1..]);
      InsertMembers(e, s[1..]);
      var rest := Insert(e, s[1..]);
      forall j | 0 <= j < |rest|
        ensures s[0].record.shardId != rest[j].record.shardId && s[0].number != rest[j].number
      {
        assert rest[j] in multiset(rest);
        assert rest[j] == e || rest[j] in s[1..];
      }
    }
  }

  lemma {:induction false} SortedDistinct(b: seq<Entry>)
    requires Separate(b)
    ensures Separate(Sorted(b))
  {
    if b != [] {
      SortedDistinct(b[1..]);
      forall x | x in Sorted(b[1..])
        ensures x.record.shardId != b[0].record.shardId && x.number != b[0].number
      {
        SortedMembership(b[1..], x);
      }
      InsertDistinct(b[0], Sorted(b[1..]));
    }
  }

  lemma PickHealthy(b: seq<Entry>, k: nat, members: map<ShardId, MemberRecord>, counter: nat)
    requires Healthy(b, members, counter)
    ensures Healthy(AfterPick(b, k), members, counter)
  {
    SortedDistinct(b);
    forall e | e in AfterPick(b, k)
      ensures e.number < counter && e.record.shardId in members && members[e.record.shardId] == e.record
    {
      var i :| 0 <= i < |Sorted(b)| && AfterPick(b, k)[i] == e;
      SortedMembership(b, Sorted(b)[i]);
    }
  }

  lemma {:induction false} WithoutSpec(b: seq<Entry>, id: ShardId, e: Entry)
    ensures e in Without(b, id) <==> e in b && e.record.shardId != id
  {
    if b != [] { WithoutSpec(b[1..], id, e); }
  }

  lemma ConsDistinct(e: Entry, s: seq<Entry>, b: seq<Entry>)
    requires Separate([e] + b) && Separate(s)
    requires forall x :: x in s ==> x in b
    ensures Separate([e] + s)
  {
    forall j | 0 <= j < |s| ensures e.record.shardId != s[j].record.shardId && e.number != s[j].number {
      assert s[j] in b;
      var k :| 0 <= k < |b| && b[k] == s[j];
      assert ([e] + b)[0] == e && ([e] + b)[k + 1] == s[j];
    }
  }

  lemma {:induction false} WithoutDistinct(b: seq<Entry>, id: ShardId)
    requires Separate(b)
    ensures Separate(Without(b, id))
  {
    if b != [] {
      WithoutDistinct(b[1..], id);
      forall e | e in Without(b[1..], id) ensures e in b[1..] { WithoutSpec(b[1..], id, e); }
      assert b == [b[0]] + b[1..];
      ConsDistinct(b[0], Without(b[1..], id), b[1..]);
    }
  }

  lemma {:induction false} FreshSpec(b: seq<Entry>, now: real, cutoff: real, e: Entry)
    ensures e in Fresh(b, now, cutoff) <==> e in b && now - e.enqueuedAt <= cutoff
  {
    if b != [] { FreshSpec(b[1..], now, cutoff, e); }
  }

  lemma {:induction false} FreshDistinct(b: seq<Entry>, now: real, cutoff: real)
    requires Separate(b)
    ensures Separate(Fresh(b, now, cutoff))
  {
    if b != [] {
      FreshDistinct(b[1..], now, cutoff);
      forall e | e in Fresh(b[1..], now, cutoff) ensures e in b[1..] { FreshSpec(b[1..], now, cutoff, e); }
      assert b == [b[0]] + b[1..];
      ConsDistinct(b[0], Fresh(b[1..], now, cutoff), b[1..]);
    }
  }

  lemma FreshHealthy(b: seq<Entry>, now: real, cutoff: real, members: map<ShardId, MemberRecord>, counter: nat)
    requires Healthy(b, members, counter)
    ensures Healthy(Fresh(b, now, cutoff), members, counter)
  {
    FreshDistinct(b, now, cutoff);
    forall e | e in Fresh(b, now, cutoff) ensures e in b { FreshSpec(b, now, cutoff, e); }
  }

  lemma EnqueueHealthy(b: seq<Entry>, rec: MemberRecord, now: real,
                       members: map<ShardId, MemberRecord>, counter: nat)
    requires Healthy(b, members, counter)
    ensures Healthy(Without(b, rec.shardId) + [Entry(rec, 0, now, counter)], members[rec.shardId := rec], counter + 1)
  {
    WithoutDistinct(b, rec.shardId);
    forall e | e in Without(b, rec.shardId) ensures e in b && e.record.shardId != rec.shardId {
      WithoutSpec(b, rec.shardId, e);
    }
  }
}
