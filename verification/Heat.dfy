/**
 Per-node expert heat (heat.py): a sparse dictionary of exponential moving
 averages that stands for a dense recurrence over every expert, and its report.
 */
module Heat {
  import opened Common

  datatype Slot = Slot(layer: int, expert: int)

  type Ema = map<Slot, real>

  function Count(ids: seq<int>, e: int): nat {
    if ids == [] then 0 else Count(ids[..|ids| - 1], e) + if ids[|ids| - 1] == e then 1 else 0
  }

  lemma {:induction false} CountPositive(ids: seq<int>, e: int)
    ensures Count(ids, e) > 0 <==> e in ids
  {
    if ids != [] {
      CountPositive(ids[..|ids| - 1], e);
      assert ids == ids[..|ids| - 1] + [ids[|ids| - 1]];
    }
  }

  lemma {:induction false} CountIsMultiplicity(ids: seq<int>, e: int)
    ensures Count(ids, e) == multiset(ids)[e]
  {
    if ids != [] {
      CountIsMultiplicity(ids[..|ids| - 1], e);
      assert ids == ids[..|ids| - 1] + [ids[|ids| - 1]];
    }
  }

  /** The heat of an expert; untracked means zero. */
  function HeatOf(m: Ema, layer: int, e: int): real {
    if Slot(layer, e) in m then m[Slot(layer, e)] else 0.0
  }

  datatype Event = Observe(layer: int, ids: seq<int>) | Reset(layer: int, expert: int)

  /** One step of the moving average. */
  function Mix(alpha: real, c: nat, prev: real): real {
    alpha * (c as real) + (1.0 - alpha) * prev
  }

  /** The dense recurrence: every expert of the observed layer moves, whether tracked or not. */
  function Dense(evs: seq<Event>, alpha: real, layer: int, e: int): real {
    if evs == [] then 0.0 else Next(Dense(evs[..|evs| - 1], alpha, layer, e), evs[|evs| - 1], alpha, layer, e)
  }

  function Next(prev: real, ev: Event, alpha: real, layer: int, e: int): real {
    match ev
    case Observe(l, ids) =>
      if l == layer && ids != [] then Mix(alpha, Count(ids, e), prev) else prev
    case Reset(l, x) => if l == layer && x == e then 0.0 else prev
  }

  /** One batch folded into the sparse dictionary. */
  ghost predicate Folded(m: Ema, m': Ema, alpha: real, layer: int, ids: seq<int>) {
    && (forall k :: k in m' <==> k in m || (k.layer == layer && k.expert in ids))
    && (forall k :: k in m' ==>
          m'[k] == if k.layer == layer && ids != []
                   then Mix(alpha, Count(ids, k.expert), HeatOf(m, k.layer, k.expert))
                   else HeatOf(m, k.layer, k.expert))
  }

  ghost predicate Effect(m: Ema, m': Ema, alpha: real, ev: Event) {
    match ev
    case Observe(layer, ids) => Folded(m, m', alpha, layer, ids)
    case Reset(layer, e) => m' == m - {Slot(layer, e)}
  }

  /** A run of the tracker: ms[i] is the dictionary after the first i events. */
  ghost predicate IsRun(ms: seq<Ema>, evs: seq<Event>, alpha: real) {
    && |ms| == |evs| + 1 && ms[0] == map[]
    && forall i :: 0 <= i < |evs| ==> Effect(ms[i], ms[i + 1], alpha, evs[i])
  }

  lemma EffectIsDense(m: Ema, m': Ema, alpha: real, ev: Event, layer: int, e: int)
    requires Effect(m, m', alpha, ev)
    ensures HeatOf(m', layer, e) == Next(HeatOf(m, layer, e), ev, alpha, layer, e)
  {
    if ev.Observe? {
      CountPositive(ev.ids, e);
      var k := Slot(layer, e);
      if k !in m' {
        assert k !in m;
        if ev.layer == layer { assert e !in ev.ids && Count(ev.ids, e) == 0; }
      }
    }
  }

  /** Across any run of observe and reset the sparse dictionary equals the dense recurrence. */
  lemma {:induction false} SparseIsDense(ms: seq<Ema>, evs: seq<Event>, alpha: real, i: nat, layer: int, e: int)
    requires IsRun(ms, evs, alpha) && i <= |evs|
    ensures HeatOf(ms[i], layer, e) == Dense(evs[..i], alpha, layer, e)
    decreases i
  {
    if i > 0 {
      SparseIsDense(ms, evs, alpha, i - 1, layer, e);
      assert evs[..i][..i - 1] == evs[..i - 1] && evs[..i][i - 1] == evs[i - 1];
      EffectIsDense(ms[i - 1], ms[i], alpha, evs[i - 1], layer, e);
    }
  }

  // ------------------------------------------------------------ total heat

  /** Total heat of a list of experts, after a run. */
  function Total(es: seq<int>, evs: seq<Event>, alpha: real, layer: int): real {
    if es == [] then 0.0 else Total(es[1..], evs, alpha, layer) + Dense(evs, alpha, layer, es[0])
  }

  function CountAll(es: seq<int>, ids: seq<int>): nat {
    if es == [] then 0 else CountAll(es[1..], ids) + Count(ids, es[0])
  }

  lemma {:induction false} CountAllLast(es: seq<int>, ids: seq<int>, x: int)
    requires Distinct(es)
    ensures CountAll(es, ids + [x]) == CountAll(es, ids) + if x in es then 1 else 0
  {
    if es != [] {
      CountAllLast(es[1..], ids, x);
      assert (ids + [x])[..|ids|] == ids;
      assert es == [es[0]] + es[1..];
      if x == es[0] { assert x !in es[1..]; }
    }
  }

  lemma {:induction false} CountAllBound(es: seq<int>, ids: seq<int>)
    requires Distinct(es)
    ensures CountAll(es, ids) <= |ids|
    decreases |ids|
  {
    if ids == [] {
      CountAllNone(es);
    } else {
      var init, x := ids[..|ids| - 1], ids[|ids| - 1];
      assert ids == init + [x];
      CountAllLast(es, init, x);
      CountAllBound(es, init);
    }
  }

  lemma {:induction false} CountAllNone(es: seq<int>)
    ensures CountAll(es, []) == 0
  {
    if es != [] { CountAllNone(es[1..]); }
  }

  lemma {:induction false} TotalObserve(es: seq<int>, evs: seq<Event>, alpha: real, layer: int, ids: seq<int>)
    requires ids != []
    ensures Total(es, evs + [Observe(layer, ids)], alpha, layer)
         == alpha * (CountAll(es, ids) as real) + (1.0 - alpha) * Total(es, evs, alpha, layer)
  {
    if es != [] {
      TotalObserve(es[1..], evs, alpha, layer, ids);
      var now := evs + [Observe(layer, ids)];
      assert now[..|evs|] == evs;
      var a, b, c, d := CountAll(es[1..], ids) as real, Count(ids, es[0]) as real,
                        Total(es[1..], evs, alpha, layer), Dense(evs, alpha, layer, es[0]);
      assert alpha * (a + b) + (1.0 - alpha) * (c + d)
          == (alpha * a + (1.0 - alpha) * c) + (alpha * b + (1.0 - alpha) * d);
    }
  }

  lemma {:induction false} TotalShrinks(es: seq<int>, evs: seq<Event>, ev: Event, alpha: real, layer: int)
    requires 0.0 < alpha <= 1.0 && !(ev.Observe? && ev.layer == layer && ev.ids != [])
    ensures Total(es, evs + [ev], alpha, layer) <= Total(es, evs, alpha, layer)
  {
    if es != [] {
      TotalShrinks(es[1..], evs, ev, alpha, layer);
      assert (evs + [ev])[..|evs|] == evs;
      HeatNonNegative(evs, alpha, layer, es[0]);
    }
  }

  lemma {:induction false} HeatNonNegative(evs: seq<Event>, alpha: real, layer: int, e: int)
    requires 0.0 < alpha <= 1.0
    ensures Dense(evs, alpha, layer, e) >= 0.0
  {
    if evs != [] {
      HeatNonNegative(evs[..|evs| - 1], alpha, layer, e);
      var prev := Dense(evs[..|evs| - 1], alpha, layer, e);
      assert (1.0 - alpha) * prev >= 0.0;
      var ev := evs[|evs| - 1];
      if ev.Observe? { assert alpha * (Count(ev.ids, e) as real) >= 0.0; }
    }
  }

  /** The longest batch observed at the layer. */
  function Largest(evs: seq<Event>, layer: int): nat {
    if evs == [] then 0
    else
      var prev, ev := Largest(evs[..|evs| - 1], layer), evs[|evs| - 1];
      if ev.Observe? && ev.layer == layer && |ev.ids| > prev then |ev.ids| else prev
  }

  /** No set of experts of a layer is ever hotter in total than the largest batch the layer has seen. */
  lemma {:induction false} TotalHeatBounded(es: seq<int>, evs: seq<Event>, alpha: real, layer: int)
    requires 0.0 < alpha <= 1.0 && Distinct(es)
    ensures Total(es, evs, alpha, layer) <= Largest(evs, layer) as real
    decreases |evs|
  {
    if evs == [] {
      TotalEmpty(es, alpha, layer);
    } else {
      var init, ev := evs[..|evs| - 1], evs[|evs| - 1];
      assert evs == init + [ev];
      TotalHeatBounded(es, init, alpha, layer);
      if ev.Observe? && ev.layer == layer && ev.ids != [] {
        ObserveBounded(es, init, alpha, layer, ev.ids, Largest(evs, layer) as real);
      } else {
        TotalShrinks(es, init, ev, alpha, layer);
      }
    }
  }

  lemma ObserveBounded(es: seq<int>, evs: seq<Event>, alpha: real, layer: int, ids: seq<int>, bound: real)
    requires 0.0 < alpha <= 1.0 && Distinct(es) && ids != []
    requires Total(es, evs, alpha, layer) <= bound && |ids| as real <= bound
    ensures Total(es, evs + [Observe(layer, ids)], alpha, layer) <= bound
  {
    TotalObserve(es, evs, alpha, layer, ids);
    CountAllBound(es, ids);
    Blend(alpha, CountAll(es, ids) as real, Total(es, evs, alpha, layer), bound);
  }

  lemma {:induction false} TotalEmpty(es: seq<int>, alpha: real, layer: int)
    ensures Total(es, [], alpha, layer) == 0.0
  {
    if es != [] { TotalEmpty(es[1..], alpha, layer); }
  }

  lemma Scaled(w: real, x: real, bound: real)
    requires 0.0 <= w && x <= bound
    ensures w * x <= w * bound
  {
    assert w * (bound - x) >= 0.0;
  }

  lemma WeightsAddUp(alpha: real, beta: real, bound: real)
    requires alpha + beta == 1.0
    ensures alpha * bound + beta * bound == bound
  {
    assert alpha * bound + beta * bound == (alpha + beta) * bound;
  }

  /** A weighted mean of two values below a bound is below it. */
  lemma Blend(alpha: real, a: real, b: real, bound: real)
    requires 0.0 < alpha <= 1.0 && a <= bound && b <= bound
    ensures alpha * a + (1.0 - alpha) * b <= bound
  {
    var beta := 1.0 - alpha;
    Scaled(alpha, a, bound);
    Scaled(beta, b, bound);
    WeightsAddUp(alpha, beta, bound);
    SumBelow(alpha * a, beta * b, alpha * bound, beta * bound);
  }

  lemma SumBelow(p: real, q: real, p': real, q': real)
    requires p <= p' && q <= q'
    ensures p + q <= p' + q'
  {}

  // ---------------------------------------------------------------- report

  datatype Entry = Entry(layer: int, expert: int, heat: int)

  /** Nearest integer, halves to even. */
  function Round(x: real): int {
    var f := x.Floor;
    var d := x - f as real;
    if d < 0.5 then f else if d > 0.5 then f + 1 else if f % 2 == 0 then f else f + 1
  }

  /** No integer is nearer, and between two equally near ones it is the even one. */
  lemma RoundIsNearest(x: real, n: int)
    ensures Abs(x - Round(x) as real) <= Abs(x - n as real)
    ensures n != Round(x) && Abs(x - n as real) == Abs(x - Round(x) as real) ==> Round(x) % 2 == 0
  {
    var f := x.Floor;
    assert n <= f || n >= f + 1;
  }

  function Abs(x: real): real { if x < 0.0 then -x else x }

  function InsertEntry(e: Entry, es: seq<Entry>): seq<Entry> {
    if es == [] || es[0].heat <= e.heat then [e] + es else [es[0]] + InsertEntry(e, es[1..])
  }

  /** Hottest first; stable. */
  function ByHeat(es: seq<Entry>): seq<Entry> {
    if es == [] then [] else InsertEntry(es[0], ByHeat(es[1..]))
  }

  ghost predicate Descending(es: seq<Entry>) { forall i, j :: 0 <= i < j < |es| ==> es[i].heat >= es[j].heat }

  lemma {:induction false} InsertEntrySpec(e: Entry, es: seq<Entry>)
    requires Descending(es)
    ensures Descending(InsertEntry(e, es)) && multiset(InsertEntry(e, es)) == multiset(es) + multiset{e}
  {
    if es != [] && es[0].heat > e.heat {
      InsertEntrySpec(e, es[1..]);
      assert es == [es[0]] + es[1..];
      var rest := InsertEntry(e, es[1..]);
      forall j | 0 <= j < |rest| ensures es[0].heat >= rest[j].heat {
        InsertedFrom(e, es[1..], rest, rest[j]);
      }
      HeadFirst(es[0], rest);
    }
  }

  lemma HeadFirst(h: Entry, rest: seq<Entry>)
    requires Descending(rest) && forall j :: 0 <= j < |rest| ==> h.heat >= rest[j].heat
    ensures Descending([h] + rest) && multiset([h] + rest) == multiset{h} + multiset(rest)
  {}

  lemma InsertedFrom(e: Entry, es: seq<Entry>, rest: seq<Entry>, x: Entry)
    requires multiset(rest) == multiset(es) + multiset{e} && x in rest
    ensures x == e || x in es
  {
    assert x in multiset(rest);
  }

  lemma {:induction false} ByHeatSpec(es: seq<Entry>)
    ensures Descending(ByHeat(es)) && multiset(ByHeat(es)) == multiset(es)
  {
    if es != [] {
      ByHeatSpec(es[1..]);
      InsertEntrySpec(es[0], ByHeat(es[1..]));
      assert es == [es[0]] + es[1..];
    }
  }

  lemma ByHeatMembers(es: seq<Entry>, e: Entry)
    ensures e in ByHeat(es) <==> e in es
  {
    ByHeatSpec(es);
    assert e in multiset(ByHeat(es)) <==> e in multiset(es);
  }

  /** A report line: a tracked expert with positive heat, scaled and rounded. */
  ghost predicate Reports(m: Ema, x: Entry) {
    HeatOf(m, x.layer, x.expert) > 0.0 && x.heat == Round(HeatOf(m, x.layer, x.expert) * 100.0)
  }

  function Top(es: seq<Entry>, n: nat): seq<Entry> {
    ByHeat(es)[..Min(n, |ByHeat(es)|)]
  }

  lemma TopSpec(es: seq<Entry>, n: nat)
    ensures |Top(es, n)| <= n && Descending(Top(es, n))
    ensures forall i :: 0 <= i < |Top(es, n)| ==> Top(es, n)[i] in es
    ensures forall e :: e in es ==>
              e in Top(es, n) || (|Top(es, n)| == n && forall i :: 0 <= i < n ==> Top(es, n)[i].heat >= e.heat)
  {
    var sorted, top := ByHeat(es), Top(es, n);
    ByHeatSpec(es);
    forall i | 0 <= i < |top| ensures top[i] in es { ByHeatMembers(es, top[i]); }
    forall e | e in es ensures e in top || (|top| == n && forall i :: 0 <= i < n ==> top[i].heat >= e.heat) {
      ByHeatMembers(es, e);
      var j :| 0 <= j < |sorted| && sorted[j] == e;
      if j < |top| { assert top[j] == e; }
    }
  }

  ghost predicate Decayed(m: Ema, m': Ema, alpha: real, layer: int, counts: map<int, nat>) {
    && m'.Keys == m.Keys
    && forall k :: k in m' ==> m'[k] == if k.layer == layer && k.expert !in counts then Mix(alpha, 0, m[k]) else m[k]
  }

  ghost predicate FoldedCounts(m: Ema, m': Ema, alpha: real, layer: int, counts: map<int, nat>) {
    && (forall k :: k in m' <==> k in m || (k.layer == layer && k.expert in counts))
    && (forall k :: k in m' && !(k.layer == layer && k.expert in counts) ==> m'[k] == m[k])
    && (forall e :: e in counts ==>
           Slot(layer, e) in m' && m'[Slot(layer, e)] == Mix(alpha, counts[e], HeatOf(m, layer, e)))
  }

  lemma DecayThenFold(m: Ema, m1: Ema, m2: Ema, alpha: real, layer: int, ids: seq<int>, counts: map<int, nat>)
    requires ids != [] && Decayed(m, m1, alpha, layer, counts) && FoldedCounts(m1, m2, alpha, layer, counts)
    requires forall e :: e in counts <==> e in ids
    requires forall e :: e in counts ==> counts[e] == Count(ids, e)
    ensures Folded(m, m2, alpha, layer, ids)
  {
    forall k ensures k in m1 <==> k in m { assert k in m1.Keys <==> k in m.Keys; }
    forall k | k in m2
      ensures m2[k] == if k.layer == layer then Mix(alpha, Count(ids, k.expert), HeatOf(m, k.layer, k.expert))
                       else HeatOf(m, k.layer, k.expert)
    {
      CountPositive(ids, k.expert);
      if k.layer == layer && k.expert in counts {
        assert k == Slot(layer, k.expert);
        assert HeatOf(m1, layer, k.expert) == HeatOf(m, layer, k.expert);
      }
    }
  }

  /** A batch as a caller sees it: in its layer every expert keeps (1 - alpha) of its heat and gains alpha for each
      time the batch names it; other layers, and everything when the batch is empty, stay. */
  ghost predicate Warmed(m: Ema, m': Ema, alpha: real, layer: int, ids: seq<int>) {
    forall l, e :: HeatOf(m', l, e) == if l != layer || ids == [] then HeatOf(m, l, e)
                                       else alpha * (multiset(ids)[e] as real) + (1.0 - alpha) * HeatOf(m, l, e)
  }

  lemma FoldedIsWarmed(m: Ema, m': Ema, alpha: real, layer: int, ids: seq<int>)
    requires Folded(m, m', alpha, layer, ids)
    ensures Warmed(m, m', alpha, layer, ids)
  {
    forall l, e ensures HeatOf(m', l, e) == if l != layer || ids == [] then HeatOf(m, l, e)
                                            else alpha * (multiset(ids)[e] as real) + (1.0 - alpha) * HeatOf(m, l, e)
    {
      EffectIsDense(m, m', alpha, Observe(layer, ids), l, e);
      CountIsMultiplicity(ids, e);
    }
  }

  class HeatTracker {
    const alpha: real
    const topN: nat
    var ema: Ema
    ghost var history: seq<Event>
    ghost var past: seq<Ema>

    ghost predicate Valid()
      reads this
    {
      0.0 < alpha <= 1.0 && topN > 0 && IsRun(past, history, alpha) && past[|past| - 1] == ema
    }

    constructor (alpha: real, topN: nat)
      requires 0.0 < alpha <= 1.0 && topN > 0
      ensures Valid() && ema == map[] && this.alpha == alpha && this.topN == topN
    {
      this.alpha, this.topN, ema, history, past := alpha, topN, map[], [], [map[]];
    }

    ghost method Note(ev: Event, before: Ema)
      requires 0.0 < alpha <= 1.0 && topN > 0 && IsRun(past, history, alpha) && past[|past| - 1] == before
      requires Effect(before, ema, alpha, ev)
      modifies this`history, this`past
      ensures Valid() && history == old(history) + [ev]
    {
      var ms, evs := past + [ema], history + [ev];
      forall i | 0 <= i < |evs| ensures Effect(ms[i], ms[i + 1], alpha, evs[i]) {
        if i < |history| { assert ms[i + 1] == past[i + 1]; }
      }
      history, past := evs, ms;
    }

    /** Occurrences per id, and the ids in order of first occurrence. */
    method CountIds(ids: seq<int>) returns (counts: map<int, nat>, keys: seq<int>)
      ensures (forall e :: e in counts <==> e in ids) && (forall e :: e in keys <==> e in counts) && Distinct(keys)
      ensures forall j :: 0 <= j < |keys| ==> keys[j] in counts
      ensures forall e :: e in counts ==> counts[e] == Count(ids, e)
    {
      counts, keys := map[], [];
      for i := 0 to |ids|
        invariant forall e :: e in counts <==> e in ids[..i]
        invariant (forall e :: e in keys <==> e in counts) && Distinct(keys)
        invariant forall e :: e in counts ==> counts[e] == Count(ids[..i], e)
      {
        var e := ids[i];
        CountPositive(ids[..i], e);
        assert ids[..i + 1][..i] == ids[..i];
        if e !in counts { keys := keys + [e]; }
        counts := counts[e := (if e in counts then counts[e] else 0) + 1];
      }
      assert ids[..|ids|] == ids;
    }

    /** Decay tracked experts of the layer that are absent from the batch. */
    method Decay(layer: int, counts: map<int, nat>)
      modifies this`ema
      ensures Decayed(old(ema), ema, alpha, layer, counts)
    {
      var todo := ema.Keys;
      while todo != {}
        invariant todo <= ema.Keys == old(ema).Keys
        invariant forall k :: k in ema && k in todo ==> ema[k] == old(ema)[k]
        invariant forall k :: k in ema && k !in todo ==>
                    ema[k] == if k.layer == layer && k.expert !in counts then Mix(alpha, 0, old(ema)[k])
                              else old(ema)[k]
        decreases todo
      {
        var k :| k in todo;
        todo := todo - {k};
        if k.layer == layer && k.expert !in counts { ema := ema[k := Mix(alpha, 0, ema[k])]; }
      }
    }

    /** Fold the counts into the averages of the observed experts. */
    method Fold(layer: int, counts: map<int, nat>, keys: seq<int>)
      requires (forall e :: e in counts ==> e in keys) && (forall j :: 0 <= j < |keys| ==> keys[j] in counts)
      requires Distinct(keys)
      modifies this`ema
      ensures FoldedCounts(old(ema), ema, alpha, layer, counts)
    {
      for i := 0 to |keys|
        invariant forall k :: k in old(ema) ==> k in ema
        invariant forall k :: k in ema ==> k in old(ema) || (k.layer == layer && k.expert in counts)
        invariant forall k :: k in ema && !(k.layer == layer && k.expert in counts) ==> ema[k] == old(ema)[k]
        invariant forall j :: 0 <= j < i ==>
                    && Slot(layer, keys[j]) in ema
                    && ema[Slot(layer, keys[j])] == Mix(alpha, counts[keys[j]], HeatOf(old(ema), layer, keys[j]))
        invariant forall j :: i <= j < |keys| ==> HeatOf(ema, layer, keys[j]) == HeatOf(old(ema), layer, keys[j])
      {
        var e := keys[i];
        ema := ema[Slot(layer, e) := Mix(alpha, counts[e], HeatOf(ema, layer, e))];
      }
      forall e | e in counts
        ensures Slot(layer, e) in ema && ema[Slot(layer, e)] == Mix(alpha, counts[e], HeatOf(old(ema), layer, e))
      {
        var j :| 0 <= j < |keys| && keys[j] == e;
      }
      forall k: Slot | k.layer == layer && k.expert in counts ensures k in ema { assert k == Slot(layer, k.expert); }
    }

    method Observe(layer: int, ids: seq<int>)
      requires Valid()
      modifies this
      ensures Valid() && history == old(history) + [Event.Observe(layer, ids)]
      ensures Warmed(old(ema), ema, alpha, layer, ids)
    {
      ghost var before := ema;
      if ids == [] {
        Note(Event.Observe(layer, ids), before);
        return;
      }
      var counts, keys := CountIds(ids);
      Decay(layer, counts);
      ghost var decayed := ema;
      Fold(layer, counts, keys);
      DecayThenFold(before, decayed, ema, alpha, layer, ids, counts);
      FoldedIsWarmed(before, ema, alpha, layer, ids);
      Note(Event.Observe(layer, ids), before);
    }

    method Reset(layer: int, e: int)
      requires Valid()
      modifies this
      ensures Valid() && history == old(history) + [Event.Reset(layer, e)]
    {
      ghost var before := ema;
      ema := ema - {Slot(layer, e)};
      Note(Event.Reset(layer, e), before);
    }

    /** The reported heat of one expert is the rounded dense recurrence. */
    method LocalHeat(layer: int, e: int) returns (h: int)
      requires Valid()
      ensures h == Round(Dense(history, alpha, layer, e) * 100.0)
    {
      SparseIsDense(past, history, alpha, |history|, layer, e);
      assert history[..|history|] == history;
      h := Round(HeatOf(ema, layer, e) * 100.0);
    }

    /** Every tracked expert with positive heat. */
    method Snapshot() returns (snapshot: seq<Entry>)
      ensures forall x :: x in snapshot ==> Reports(ema, x)
      ensures forall k :: k in ema && ema[k] > 0.0 ==> Entry(k.layer, k.expert, Round(ema[k] * 100.0)) in snapshot
    {
      snapshot := [];
      var todo := ema.Keys;
      while todo != {}
        invariant todo <= ema.Keys
        invariant forall x :: x in snapshot ==> Reports(ema, x)
        invariant forall k :: k in ema && k !in todo && ema[k] > 0.0 ==>
                    Entry(k.layer, k.expert, Round(ema[k] * 100.0)) in snapshot
        decreases todo
      {
        var k :| k in todo;
        todo := todo - {k};
        if ema[k] > 0.0 { snapshot := snapshot + [Entry(k.layer, k.expert, Round(ema[k] * 100.0))]; }
      }
    }

    /** The hottest tracked experts, hottest first; nothing hotter than a reported entry is left out. */
    method Report() returns (r: seq<Entry>)
      requires Valid()
      ensures |r| <= topN && Descending(r)
      ensures forall i :: 0 <= i < |r| ==> Reports(ema, r[i])
      ensures forall k :: k in ema && ema[k] > 0.0 ==>
                var e := Entry(k.layer, k.expert, Round(ema[k] * 100.0));
                e in r || (|r| == topN && forall i :: 0 <= i < |r| ==> r[i].heat >= e.heat)
    {
      var snapshot := Snapshot();
      r := Top(snapshot, topN);
      TopSpec(snapshot, topN);
    }
  }
}
