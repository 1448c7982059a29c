/**
 What a pass over layers and a greedy generation are, written out state by
 state from the model's own functions: each layer turns one hidden state into
 the next by reading its cache slot, and leaves the slot updated for later
 passes.
 */
module GreedyTrace {
  import opened Common
  import opened Pipeline

  /** Hidden states and caches of a pass over layers s .. e-1, before each layer and after the last. */
  datatype Trace<H, C> = Trace(hs: seq<H>, cs: seq<seq<C>>)

  /** One layer: the next hidden state comes from this one and the layer's slot, the slot is updated from the same
      two, and every other slot stays. */
  ghost predicate LayerAt<H, C, M>(k: Kernel<H, C, M>, s: nat, m: M, tr: Trace<H, C>, i: nat)
    requires i + 1 < |tr.hs| == |tr.cs| && s + i < k.total && Fits(k, tr.cs[i])
  {
    var l, slot := s + i, k.slot(s + i);
    && tr.hs[i + 1] == k.hidden(l, tr.hs[i], m, tr.cs[i][slot])
    && |tr.cs[i + 1]| == |tr.cs[i]|
    && tr.cs[i + 1][slot] == k.update(l, tr.hs[i], m, tr.cs[i][slot])
    && forall x :: 0 <= x < |tr.cs[i]| && x != slot ==> tr.cs[i + 1][x] == tr.cs[i][x]
  }

  ghost predicate IsTrace<H, C, M>(k: Kernel<H, C, M>, s: nat, e: nat, m: M, tr: Trace<H, C>) {
    && s <= e <= k.total && |tr.hs| == |tr.cs| == e - s + 1
    && (forall i :: 0 <= i < |tr.cs| ==> Fits(k, tr.cs[i]))
    && forall i :: 0 <= i < e - s ==> LayerAt(k, s, m, tr, i)
  }

  /** A range of layers is such a trace from its input to its output. */
  lemma {:induction false} LayersTraced<H, C, M>(k: Kernel<H, C, M>, s: nat, e: nat, m: M, p: Pass<H, C>)
    returns (tr: Trace<H, C>)
    requires Fits(k, p.cache) && s <= e <= k.total
    ensures IsTrace(k, s, e, m, tr) && tr.hs[0] == p.h && tr.cs[0] == p.cache
    ensures Layers(k, s, e, m, p) == Pass(tr.hs[e - s], tr.cs[e - s])
    decreases e - s
  {
    if e == s {
      tr := Trace([p.h], [p.cache]);
    } else {
      var t := LayersTraced(k, s, e - 1, m, p);
      var q := Layers(k, s, e, m, p);
      tr := Trace(t.hs + [q.h], t.cs + [q.cache]);
      forall i | 0 <= i < e - s ensures LayerAt(k, s, m, tr, i) {
        if i < e - 1 - s { assert LayerAt(k, s, m, t, i); }
      }
    }
  }

  ghost predicate DistinctSlots<H, C, M>(k: Kernel<H, C, M>, s: nat, e: nat) {
    forall i, j :: s <= i < j < e ==> k.slot(i) != k.slot(j)
  }

  /** With a slot of its own, layer l read what the pass began with and left its update there. */
  lemma {:induction false} SlotsFilled<H, C, M>(k: Kernel<H, C, M>, s: nat, e: nat, m: M, tr: Trace<H, C>, n: nat,
                                                l: nat)
    requires IsTrace(k, s, e, m, tr) && DistinctSlots(k, s, e) && s <= l < e && n <= e - s
    ensures tr.cs[n][k.slot(l)] == if l < s + n then k.update(l, tr.hs[l - s], m, tr.cs[0][k.slot(l)])
                                   else tr.cs[0][k.slot(l)]
    decreases n
  {
    if n > 0 {
      SlotsFilled(k, s, e, m, tr, n - 1, l);
      assert LayerAt(k, s, m, tr, n - 1);
    }
  }

  /** The same pass as a list of hidden states: layer l turns hs[l - s] and its slot of the starting cache into the
      next, and the slot then holds the update. */
  ghost predicate Describes<H, C, M>(k: Kernel<H, C, M>, s: nat, e: nat, m: M, before: seq<C>, after: seq<C>,
                                     hs: seq<H>)
  {
    && s <= e <= k.total && Fits(k, before) && Fits(k, after) && |hs| == e - s + 1
    && (forall l :: s <= l < e ==>
          && hs[l - s + 1] == k.hidden(l, hs[l - s], m, before[k.slot(l)])
          && after[k.slot(l)] == k.update(l, hs[l - s], m, before[k.slot(l)]))
    && forall x :: 0 <= x < |before| && (forall l :: s <= l < e ==> k.slot(l) != x) ==> after[x] == before[x]
  }

  lemma LayersDescribed<H, C, M>(k: Kernel<H, C, M>, s: nat, e: nat, m: M, p: Pass<H, C>) returns (hs: seq<H>)
    requires Fits(k, p.cache) && s <= e <= k.total && DistinctSlots(k, s, e)
    ensures Describes(k, s, e, m, p.cache, Layers(k, s, e, m, p).cache, hs)
    ensures hs[0] == p.h && hs[e - s] == Layers(k, s, e, m, p).h
  {
    var tr := LayersTraced(k, s, e, m, p);
    hs := tr.hs;
    forall l | s <= l < e
      ensures hs[l - s + 1] == k.hidden(l, hs[l - s], m, p.cache[k.slot(l)])
      ensures tr.cs[e - s][k.slot(l)] == k.update(l, hs[l - s], m, p.cache[k.slot(l)])
    {
      assert LayerAt(k, s, m, tr, l - s);
      SlotsFilled(k, s, e, m, tr, l - s, l);
      SlotsFilled(k, s, e, m, tr, e - s, l);
    }
    forall x | 0 <= x < |p.cache| && (forall l :: s <= l < e ==> k.slot(l) != x) ensures tr.cs[e - s][x] == p.cache[x] {
      LayersFrame(k, s, e, m, p, x);
    }
  }

  // ------------------------------------------------------------- generation

  /** Generation number t: some tokens are embedded, every layer runs once under the mask for their number and the cache
      so far, and the token is picked from the last hidden state. */
  ghost predicate TokenAt<H, C, M>(k: Kernel<H, C, M>, tokens: seq<int>, before: seq<C>, after: seq<C>, token: int,
                                   tr: Trace<H, C>) {
    && IsTrace(k, 0, k.total, k.mask(k.width(k.embed(tokens)), before), tr)
    && tr.hs[0] == k.embed(tokens) && tr.cs[0] == before && tr.cs[k.total] == after && token == k.pick(tr.hs[k.total])
  }

  /** The whole generation: the prompt first, then each token in turn, on one cache that starts blank. */
  ghost predicate IsGeneration<H, C, M>(k: Kernel<H, C, M>, prompt: seq<int>, out: seq<int>, caches: seq<seq<C>>,
                                        trs: seq<Trace<H, C>>) {
    && |caches| == |out| + 1 && |trs| == |out| && caches[0] == k.blank
    && forall t :: 0 <= t < |out| ==>
         TokenAt(k, if t == 0 then prompt else [out[t - 1]], caches[t], caches[t + 1], out[t], trs[t])
  }

  lemma {:induction false} AfterIsGeneration<H, C, M>(k: Kernel<H, C, M>, prompt: seq<int>, n: nat)
    returns (caches: seq<seq<C>>, trs: seq<Trace<H, C>>)
    requires Fits(k, k.blank)
    ensures IsGeneration(k, prompt, After(k, prompt, n).out, caches, trs) && caches[n] == After(k, prompt, n).cache
    decreases n
  {
    if n == 0 {
      caches, trs := [k.blank], [];
    } else {
      var cs, ts := AfterIsGeneration(k, prompt, n - 1);
      var was, now := After(k, prompt, n - 1), After(k, prompt, n);
      var tokens := if n == 1 then prompt else [was.out[n - 2]];
      var h := k.embed(tokens);
      var tr := LayersTraced(k, 0, k.total, k.mask(k.width(h), was.cache), Pass(h, was.cache));
      caches, trs := cs + [now.cache], ts + [tr];
      forall t | 0 <= t < n
        ensures TokenAt(k, if t == 0 then prompt else [now.out[t - 1]], caches[t], caches[t + 1], now.out[t], trs[t])
      {
        if t < n - 1 {
          assert TokenAt(k, if t == 0 then prompt else [was.out[t - 1]], cs[t], cs[t + 1], was.out[t], ts[t]);
        }
      }
    }
  }

  /** The greedy generation is exactly that, for as many tokens as asked for, and at least one. */
  lemma GreedyIsGeneration<H, C, M>(k: Kernel<H, C, M>, prompt: seq<int>, max: int)
    returns (caches: seq<seq<C>>, trs: seq<Trace<H, C>>)
    requires Fits(k, k.blank)
    ensures |Greedy(k, prompt, max)| == if max >= 1 then max else 1
    ensures IsGeneration(k, prompt, Greedy(k, prompt, max), caches, trs)
  {
    caches, trs := AfterIsGeneration(k, prompt, Max(1, max));
  }

  /** The description leaves no choice: two generations of the same length from the same prompt are equal. */
  lemma {:induction false} TraceUnique<H, C, M>(k: Kernel<H, C, M>, s: nat, e: nat, m: M, a: Trace<H, C>,
                                                b: Trace<H, C>, i: nat)
    requires IsTrace(k, s, e, m, a) && IsTrace(k, s, e, m, b) && a.hs[0] == b.hs[0] && a.cs[0] == b.cs[0] && i <= e - s
    ensures a.hs[i] == b.hs[i] && a.cs[i] == b.cs[i]
    decreases i
  {
    if i > 0 {
      var j := i - 1;
      TraceUnique(k, s, e, m, a, b, j);
      assert LayerAt(k, s, m, a, j) && LayerAt(k, s, m, b, j);
      var after, before := a.cs[j + 1], a.cs[j];
      forall x | 0 <= x < |after| ensures after[x] == b.cs[j + 1][x] {
        assert x != k.slot(s + j) ==> before[x] == after[x];
      }
    }
  }

  lemma {:induction false} GenerationUnique<H, C, M>(
    k: Kernel<H, C, M>, prompt: seq<int>, out: seq<int>, caches: seq<seq<C>>, trs: seq<Trace<H, C>>, n: nat)
    requires Fits(k, k.blank) && IsGeneration(k, prompt, out, caches, trs) && n <= |out|
    ensures out[..n] == After(k, prompt, n).out && caches[n] == After(k, prompt, n).cache
    decreases n
  {
    if n > 0 {
      GenerationUnique(k, prompt, out, caches, trs, n - 1);
      var was := After(k, prompt, n - 1);
      var tokens := if n == 1 then prompt else [out[n - 2]];
      assert TokenAt(k, tokens, caches[n - 1], caches[n], out[n - 1], trs[n - 1]);
      assert n > 1 ==> was.out[n - 2] == out[..n - 1][n - 2];
      assert tokens == Input(prompt, was.out);
      var h, m := k.embed(tokens), k.mask(k.width(k.embed(tokens)), was.cache);
      var tr := LayersTraced(k, 0, k.total, m, Pass(h, was.cache));
      TraceUnique(k, 0, k.total, m, tr, trs[n - 1], k.total);
    }
  }

  /** A list of tokens is the greedy generation if and only if it is a generation of the right length. */
  lemma GreedyIffGeneration<H(!new), C(!new), M>(k: Kernel<H, C, M>, prompt: seq<int>, max: int, out: seq<int>)
    requires Fits(k, k.blank)
    ensures out == Greedy(k, prompt, max) <==>
              |out| == Max(1, max) && exists caches, trs :: IsGeneration(k, prompt, out, caches, trs)
  {
    var caches, trs := GreedyIsGeneration(k, prompt, max);
    if |out| == Max(1, max) && exists cs, ts :: IsGeneration(k, prompt, out, cs, ts) {
      var cs, ts :| IsGeneration(k, prompt, out, cs, ts);
      GenerationUnique(k, prompt, out, cs, ts, |out|);
      assert out[..|out|] == out;
    }
  }
}
