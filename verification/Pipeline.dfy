/**
 The forward pass over layer ranges with per-layer cache slots
 (mlx_engine.py), the single-process greedy generator (reference.py), and the
 lemmas that let one shard run its own range on its own cache.
 */
module Pipeline {
  import opened Common

  /** The model as uninterpreted functions: masks depend on the width of the hidden state and on the caches. */
  datatype Kernel<!H, !C, !M> = Kernel(
    total: nat,
    embed: seq<int> -> H,
    width: H -> nat,
    mask: (nat, seq<C>) -> M,
    hidden: (nat, H, M, C) -> H,
    update: (nat, H, M, C) -> C,
    slot: nat -> nat,
    blank: seq<C>,
    pick: H -> nat)

  /** A hidden state and the cache it was computed with. */
  datatype Pass<H, C> = Pass(h: H, cache: seq<C>)

  predicate Fits<H, C, M>(k: Kernel<H, C, M>, cache: seq<C>) {
    |cache| == |k.blank| && forall l :: 0 <= l < k.total ==> k.slot(l) < |cache|
  }

  function Layer<H, C, M>(k: Kernel<H, C, M>, l: nat, m: M, p: Pass<H, C>): (q: Pass<H, C>)
    requires Fits(k, p.cache) && l < k.total
    ensures Fits(k, q.cache)
  {
    var c := p.cache[k.slot(l)];
    Pass(k.hidden(l, p.h, m, c), p.cache[k.slot(l) := k.update(l, p.h, m, c)])
  }

  /** Layers s .. e-1 under one mask. */
  function Layers<H, C, M>(k: Kernel<H, C, M>, s: nat, e: nat, m: M, p: Pass<H, C>): (q: Pass<H, C>)
    requires Fits(k, p.cache) && s <= e <= k.total
    ensures Fits(k, q.cache)
  {
    if e == s then p else Layer(k, e - 1, m, Layers(k, s, e - 1, m, p))
  }

  /** A node's own range: the mask is rebuilt from what the node sees. */
  function Forward<H, C, M>(k: Kernel<H, C, M>, s: nat, e: nat, p: Pass<H, C>): (q: Pass<H, C>)
    requires Fits(k, p.cache) && s <= e <= k.total
    ensures Fits(k, q.cache)
  {
    Layers(k, s, e, k.mask(k.width(p.h), p.cache), p)
  }

  // ------------------------------------------------------------- reference

  /** What is embedded next: the prompt first, then the last token. */
  function Input(prompt: seq<int>, out: seq<int>): seq<int> { if out == [] then prompt else [out[|out| - 1]] }

  datatype Reference<C> = Reference(cache: seq<C>, out: seq<int>)

  /** The single-process generator after t tokens. */
  function After<H, C, M>(k: Kernel<H, C, M>, prompt: seq<int>, t: nat): (r: Reference<C>)
    requires Fits(k, k.blank)
    ensures Fits(k, r.cache) && |r.out| == t
  {
    if t == 0 then Reference(k.blank, [])
    else
      var was := After(k, prompt, t - 1);
      var p := Forward(k, 0, k.total, Pass(k.embed(Input(prompt, was.out)), was.cache));
      Reference(p.cache, was.out + [k.pick(p.h)])
  }

  function Greedy<H, C, M>(k: Kernel<H, C, M>, prompt: seq<int>, max: int): seq<int>
    requires Fits(k, k.blank)
  {
    After(k, prompt, Max(1, max)).out
  }

  /** Layers in place on a mutable cache. */
  method RunLayers<H, C, M>(k: Kernel<H, C, M>, h: H, s: nat, e: nat, cache: array<C>, m: M) returns (out: H)
    requires Fits(k, cache[..]) && s <= e <= k.total
    modifies cache
    ensures Pass(out, cache[..]) == Layers(k, s, e, m, Pass(h, old(cache[..])))
  {
    out := h;
    for i := s to e
      invariant Pass(out, cache[..]) == Layers(k, s, i, m, Pass(h, old(cache[..])))
    {
      ghost var was := cache[..];
      var c := cache[k.slot(i)];
      cache[k.slot(i)] := k.update(i, out, m, c);
      out := k.hidden(i, out, m, c);
      assert cache[..] == was[k.slot(i) := cache[k.slot(i)]];
    }
  }

  method GenerateGreedy<H, C, M>(k: Kernel<H, C, M>, prompt: seq<int>, max: int) returns (generated: seq<int>)
    requires Fits(k, k.blank)
    ensures generated == Greedy(k, prompt, max) && |generated| == Max(1, max)
  {
    var cache := new C[|k.blank|](i requires 0 <= i < |k.blank| => k.blank[i]);
    assert cache[..] == k.blank;
    var next := Step(k, prompt, cache);
    generated := [next];
    assert After(k, prompt, 0).out == [];
    for i := 1 to Max(1, max)
      invariant generated == After(k, prompt, i).out && cache[..] == After(k, prompt, i).cache
      invariant next == generated[|generated| - 1]
    {
      next := Step(k, [next], cache);
      generated := generated + [next];
    }
  }

  /** Embed, run every layer, take the most likely token. */
  method Step<H, C, M>(k: Kernel<H, C, M>, tokens: seq<int>, cache: array<C>) returns (next: int)
    requires Fits(k, cache[..])
    modifies cache
    ensures cache[..] == Forward(k, 0, k.total, Pass(k.embed(tokens), old(cache[..]))).cache
    ensures next == k.pick(Forward(k, 0, k.total, Pass(k.embed(tokens), old(cache[..]))).h)
  {
    var h := k.embed(tokens);
    h := RunLayers(k, h, 0, k.total, cache, k.mask(k.width(h), cache[..]));
    next := k.pick(h);
  }

  // -------------------------------------------------------------- locality

  ghost predicate Agree<H, C, M>(k: Kernel<H, C, M>, s: nat, e: nat, c: seq<C>, d: seq<C>)
    requires Fits(k, c) && Fits(k, d) && e <= k.total
  {
    forall l :: s <= l < e ==> c[k.slot(l)] == d[k.slot(l)]
  }

  lemma {:induction false} LayersCompose<H, C, M>(k: Kernel<H, C, M>, s: nat, mid: nat, e: nat, m: M, p: Pass<H, C>)
    requires Fits(k, p.cache) && s <= mid <= e <= k.total
    ensures Layers(k, s, e, m, p) == Layers(k, mid, e, m, Layers(k, s, mid, m, p))
    decreases e - mid
  {
    if mid < e { LayersCompose(k, s, mid, e - 1, m, p); }
  }

  /** The result depends only on the range's own slots. */
  lemma {:induction false} LayersLocal<H, C, M>(
    k: Kernel<H, C, M>, s: nat, e: nat, full: nat, m: M, h: H, c: seq<C>, d: seq<C>)
    requires Fits(k, c) && Fits(k, d) && s <= e <= full <= k.total && Agree(k, s, full, c, d)
    ensures Layers(k, s, e, m, Pass(h, c)).h == Layers(k, s, e, m, Pass(h, d)).h
    ensures Agree(k, s, full, Layers(k, s, e, m, Pass(h, c)).cache, Layers(k, s, e, m, Pass(h, d)).cache)
    decreases e - s
  {
    if s < e { LayersLocal(k, s, e - 1, full, m, h, c, d); }
  }

  /** Slots no layer of the range uses are untouched. */
  lemma {:induction false} LayersFrame<H, C, M>(k: Kernel<H, C, M>, s: nat, e: nat, m: M, p: Pass<H, C>, x: nat)
    requires Fits(k, p.cache) && s <= e <= k.total && x < |p.cache|
    requires forall l :: s <= l < e ==> k.slot(l) != x
    ensures Layers(k, s, e, m, p).cache[x] == p.cache[x]
    decreases e - s
  {
    if s < e { LayersFrame(k, s, e - 1, m, p, x); }
  }

  // ------------------------------------------------------------------ laws

  /** Layers keep the width, an embedding is as wide as its tokens, and a one-token mask ignores the cache. */
  ghost predicate Lawful<H(!new), C(!new), M(!new)>(k: Kernel<H, C, M>) {
    && Fits(k, k.blank)
    && (forall l, h, m, c :: k.width(k.hidden(l, h, m, c)) == k.width(h))
    && (forall ts :: k.width(k.embed(ts)) == |ts|)
    && forall c, d :: k.mask(1, c) == k.mask(1, d)
  }

  /** No layer outside s .. e-1 shares a slot with one inside. */
  ghost predicate OwnSlots<H, C, M>(k: Kernel<H, C, M>, s: nat, e: nat) {
    forall l, o :: s <= l < e && (0 <= o < s || e <= o < k.total) ==> k.slot(l) != k.slot(o)
  }

  lemma {:induction false} LayersKeepWidth<H(!new), C(!new), M(!new)>(
    k: Kernel<H, C, M>, s: nat, e: nat, m: M, p: Pass<H, C>)
    requires Lawful(k) && Fits(k, p.cache) && s <= e <= k.total
    ensures k.width(Layers(k, s, e, m, p).h) == k.width(p.h)
    decreases e - s
  {
    if s < e { LayersKeepWidth(k, s, e - 1, m, p); }
  }

  /** The reference's pass number t, stopped before layer i. */
  function Midway<H, C, M>(k: Kernel<H, C, M>, prompt: seq<int>, t: nat, i: nat): (p: Pass<H, C>)
    requires Fits(k, k.blank) && i <= k.total
    ensures Fits(k, p.cache)
  {
    Layers(k, 0, i, RefMask(k, prompt, t), Start(k, prompt, t))
  }

  function Start<H, C, M>(k: Kernel<H, C, M>, prompt: seq<int>, t: nat): (p: Pass<H, C>)
    requires Fits(k, k.blank)
    ensures Fits(k, p.cache)
  {
    Pass(k.embed(Input(prompt, After(k, prompt, t).out)), After(k, prompt, t).cache)
  }

  function RefMask<H, C, M>(k: Kernel<H, C, M>, prompt: seq<int>, t: nat): M
    requires Fits(k, k.blank)
  {
    k.mask(k.width(Start(k, prompt, t).h), Start(k, prompt, t).cache)
  }

  /** A shard's cache before pass t: right on its own slots, and untouched before the first pass. */
  ghost predicate Ready<H, C, M>(k: Kernel<H, C, M>, prompt: seq<int>, t: nat, s: nat, e: nat, cache: seq<C>)
    requires Fits(k, k.blank) && Fits(k, cache) && e <= k.total
  {
    Agree(k, s, e, cache, After(k, prompt, t).cache) && (t == 0 ==> cache == k.blank)
  }

  /** The mask a shard rebuilds is the reference's. */
  lemma MaskAgrees<H(!new), C(!new), M(!new)>(k: Kernel<H, C, M>, prompt: seq<int>, t: nat, i: nat, cache: seq<C>)
    requires Lawful(k) && i <= k.total && (t == 0 ==> cache == k.blank)
    ensures k.mask(k.width(Midway(k, prompt, t, i).h), cache) == RefMask(k, prompt, t)
  {
    LayersKeepWidth(k, 0, i, RefMask(k, prompt, t), Start(k, prompt, t));
    if t > 0 { assert |Input(prompt, After(k, prompt, t).out)| == 1; }
  }

  lemma OthersKeep<H, C, M>(k: Kernel<H, C, M>, s: nat, e: nat, from: nat, to: nat, m: M, p: Pass<H, C>)
    requires Fits(k, p.cache) && s <= e <= k.total && from <= to <= k.total && (to <= s || e <= from)
    requires OwnSlots(k, s, e)
    ensures Agree(k, s, e, Layers(k, from, to, m, p).cache, p.cache)
  {
    forall l | s <= l < e ensures Layers(k, from, to, m, p).cache[k.slot(l)] == p.cache[k.slot(l)] {
      LayersFrame(k, from, to, m, p, k.slot(l));
    }
  }

  lemma AfterIsMidway<H, C, M>(k: Kernel<H, C, M>, prompt: seq<int>, t: nat)
    requires Fits(k, k.blank)
    ensures After(k, prompt, t + 1).cache == Midway(k, prompt, t, k.total).cache
    ensures After(k, prompt, t + 1).out == After(k, prompt, t).out + [k.pick(Midway(k, prompt, t, k.total).h)]
  {}

  /** A shard that is ready for pass t and gets the reference's hidden state hands on the reference's hidden state,
      and is then ready for pass t + 1. */
  lemma HopMatches<H(!new), C(!new), M(!new)>(k: Kernel<H, C, M>, prompt: seq<int>, t: nat, s: nat, e: nat,
      cache: seq<C>)
    requires Lawful(k) && s <= e <= k.total && OwnSlots(k, s, e) && Fits(k, cache) && Ready(k, prompt, t, s, e, cache)
    ensures Forward(k, s, e, Pass(Midway(k, prompt, t, s).h, cache)).h == Midway(k, prompt, t, e).h
    ensures Ready(k, prompt, t + 1, s, e, Forward(k, s, e, Pass(Midway(k, prompt, t, s).h, cache)).cache)
  {
    var m, p := RefMask(k, prompt, t), Midway(k, prompt, t, s);
    MaskAgrees(k, prompt, t, s, cache);
    OthersKeep(k, s, e, 0, s, m, Start(k, prompt, t));
    LayersLocal(k, s, e, e, m, p.h, cache, p.cache);
    LayersCompose(k, 0, s, e, m, Start(k, prompt, t));
    LayersCompose(k, 0, e, k.total, m, Start(k, prompt, t));
    OthersKeep(k, s, e, e, k.total, m, Midway(k, prompt, t, e));
    AfterIsMidway(k, prompt, t);
    assert Pass(p.h, p.cache) == p;
  }
}
