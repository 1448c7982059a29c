/**
 The compact expert stacks of one layer (partial_load.py): nine stacked tensors
 with one row per held expert, sliced, grown and shrunk as experts migrate, and
 the byte path an expert takes between two nodes.
 */
module ExpertStack {
  import opened Common
  import opened Transport

  /** rows[i][slot] is the row of expert held[slot] in the i-th of the nine tensors. */
  datatype Stack<T> = Stack(held: seq<int>, rows: seq<seq<T>>)

  const TENSORS: nat := 9

  function Take<X>(xs: seq<X>, slots: seq<nat>): (r: seq<X>)
    requires forall j :: 0 <= j < |slots| ==> slots[j] < |xs|
    ensures |r| == |slots| && forall j :: 0 <= j < |slots| ==> r[j] == xs[slots[j]]
  {
    seq(|slots|, j requires 0 <= j < |slots| => xs[slots[j]])
  }

  /** Position of the first occurrence. */
  function IndexOf(xs: seq<int>, e: int): (i: nat)
    requires e in xs
    ensures i < |xs| && xs[i] == e
  {
    if xs[0] == e then 0 else 1 + IndexOf(xs[1..], e)
  }

  /** Slots whose expert is not e. */
  function Surviving(held: seq<int>, e: int): (slots: seq<nat>)
    ensures forall j :: 0 <= j < |slots| ==> slots[j] < |held| && held[slots[j]] != e
    ensures forall i, j :: 0 <= i < j < |slots| ==> slots[i] < slots[j]
  {
    if held == [] then []
    else
      var n := |held| - 1;
      var init := Surviving(held[..n], e);
      if held[n] == e then init else init + [n]
  }

  lemma {:induction false} SurvivingComplete(held: seq<int>, e: int, slot: nat)
    requires slot < |held| && held[slot] != e
    ensures slot in Surviving(held, e)
  {
    var n := |held| - 1;
    if slot < n { SurvivingComplete(held[..n], e, slot); }
  }

  lemma {:induction false} SurvivingAll(held: seq<int>, e: int)
    requires e !in held
    ensures |Surviving(held, e)| == |held| && forall j :: 0 <= j < |held| ==> Surviving(held, e)[j] == j
  {
    if held != [] {
      assert held[|held| - 1] in held;
      SurvivingAll(held[..|held| - 1], e);
    }
  }

  // ------------------------------------------------------------ operations

  ghost predicate Regular<T>(s: Stack<T>) {
    |s.rows| == TENSORS && forall i :: 0 <= i < TENSORS ==> |s.rows[i]| == |s.held|
  }

  /** Every held id has a slot; a layer loaded whole has more rows than labels. */
  ghost predicate Slotted<T>(s: Stack<T>) {
    |s.rows| == TENSORS && forall i :: 0 <= i < TENSORS ==> |s.held| <= |s.rows[i]|
  }

  function TakeAll<T>(rows: seq<seq<T>>, slots: seq<nat>): (r: seq<seq<T>>)
    requires forall i, j :: 0 <= i < |rows| && 0 <= j < |slots| ==> slots[j] < |rows[i]|
    ensures |r| == |rows| && forall i :: 0 <= i < |rows| ==> r[i] == Take(rows[i], slots)
  {
    seq(|rows|, i requires 0 <= i < |rows| => Take(rows[i], slots))
  }

  ghost predicate InRange<T>(full: seq<seq<T>>, ids: seq<nat>) {
    forall i, j :: 0 <= i < |full| && 0 <= j < |ids| ==> ids[j] < |full[i]|
  }

  /** An empty list means the layer keeps its full stacks. */
  function LoadPartial<T>(full: seq<seq<T>>, ids: seq<nat>): Stack<T>
    requires InRange(full, ids)
  {
    if ids == [] then Stack([], full) else Stack(ids, TakeAll(full, ids))
  }

  function Column<T>(rows: seq<seq<T>>, slot: nat): (r: seq<T>)
    requires |rows| == TENSORS && forall i :: 0 <= i < TENSORS ==> slot < |rows[i]|
    ensures |r| == TENSORS && forall i :: 0 <= i < TENSORS ==> r[i] == rows[i][slot]
  {
    seq(TENSORS, i requires 0 <= i < TENSORS => rows[i][slot])
  }

  function SliceExpert<T>(s: Stack<T>, e: int): Option<seq<T>>
    requires Slotted(s)
  {
    if e !in s.held then None
    else Some(Column(s.rows, IndexOf(s.held, e)))
  }

  function GrowAll<T>(rows: seq<seq<T>>, tensors: seq<T>): (r: seq<seq<T>>)
    requires |rows| == |tensors|
    ensures |r| == |rows| && forall i :: 0 <= i < |rows| ==> r[i] == rows[i] + [tensors[i]]
  {
    seq(|rows|, i requires 0 <= i < |rows| => rows[i] + [tensors[i]])
  }

  function AttachExpert<T>(s: Stack<T>, e: int, tensors: seq<T>): Option<Stack<T>>
    requires |s.rows| == TENSORS
  {
    if |tensors| != TENSORS || e in s.held then None
    else Some(Stack(s.held + [e], GrowAll(s.rows, tensors)))
  }

  function DetachExpert<T>(s: Stack<T>, e: int): Option<Stack<T>>
    requires Slotted(s)
  {
    if e !in s.held then None
    else Some(Stack(Take(s.held, Surviving(s.held, e)), TakeAll(s.rows, Surviving(s.held, e))))
  }

  /** The row the layer uses for expert e: through the held list, or directly when that list is empty. */
  function RowFor<T>(s: Stack<T>, i: nat, e: int): Option<T>
    requires |s.rows| == TENSORS && i < TENSORS
  {
    if s.held == [] then (if 0 <= e < |s.rows[i]| then Some(s.rows[i][e]) else None)
    else if e !in s.held then None
    else if IndexOf(s.held, e) < |s.rows[i]| then Some(s.rows[i][IndexOf(s.held, e)]) else None
  }

  ghost predicate RowRight<T>(s: Stack<T>, full: seq<seq<T>>, i: nat, slot: nat)
    requires Regular(s) && |full| == TENSORS && i < TENSORS && slot < |s.held|
  {
    0 <= s.held[slot] < |full[i]| && s.rows[i][slot] == full[i][s.held[slot]]
  }

  /** Every slot carries the original model's row for the expert it is labelled with. */
  ghost predicate RowsRight<T>(s: Stack<T>, full: seq<seq<T>>) {
    && s.held != [] && Distinct(s.held) && Regular(s) && |full| == TENSORS
    && forall i, slot :: 0 <= i < TENSORS && 0 <= slot < |s.held| ==> RowRight(s, full, i, slot)
  }

  ghost predicate TensorOf<T>(full: seq<seq<T>>, e: int, ts: seq<T>, i: nat)
    requires |full| == TENSORS == |ts| && i < TENSORS
  {
    0 <= e < |full[i]| && ts[i] == full[i][e]
  }

  /** The nine original tensors of expert e. */
  ghost predicate TensorsOf<T>(full: seq<seq<T>>, e: int, ts: seq<T>) {
    |full| == TENSORS == |ts| && forall i :: 0 <= i < TENSORS ==> TensorOf(full, e, ts, i)
  }

  /** A right stack answers with the original row exactly for the experts it holds. */
  lemma RowForRight<T>(s: Stack<T>, full: seq<seq<T>>, i: nat, e: int)
    requires RowsRight(s, full) && i < TENSORS
    ensures if e in s.held then 0 <= e < |full[i]| && RowFor(s, i, e) == Some(full[i][e]) else RowFor(s, i, e) == None
  {
    if e in s.held {
      assert RowRight(s, full, i, IndexOf(s.held, e));
    }
  }

  lemma LoadRight<T>(full: seq<seq<T>>, ids: seq<nat>)
    requires |full| == TENSORS && InRange(full, ids) && ids != [] && Distinct(ids)
    ensures RowsRight(LoadPartial(full, ids), full)
  {
  }

  lemma SliceRight<T>(s: Stack<T>, full: seq<seq<T>>, e: int)
    requires RowsRight(s, full)
    ensures SliceExpert(s, e).Some? <==> e in s.held
    ensures e in s.held ==> TensorsOf(full, e, SliceExpert(s, e).value)
  {
    if e in s.held {
      var ts := SliceExpert(s, e).value;
      forall i | 0 <= i < TENSORS ensures TensorOf(full, e, ts, i) {
        assert RowRight(s, full, i, IndexOf(s.held, e));
      }
    }
  }

  lemma AttachRight<T>(s: Stack<T>, full: seq<seq<T>>, e: int, ts: seq<T>)
    requires RowsRight(s, full) && TensorsOf(full, e, ts) && e !in s.held
    ensures AttachExpert(s, e, ts).Some? && RowsRight(AttachExpert(s, e, ts).value, full)
    ensures forall x :: x in AttachExpert(s, e, ts).value.held <==> x == e || x in s.held
  {
    var s' := AttachExpert(s, e, ts).value;
    forall i, slot | 0 <= i < TENSORS && 0 <= slot < |s'.held|
      ensures RowRight(s', full, i, slot)
    {
      if slot < |s.held| { assert RowRight(s, full, i, slot); } else { assert TensorOf(full, e, ts, i); }
    }
  }

  lemma DetachRight<T>(s: Stack<T>, full: seq<seq<T>>, e: int, other: int)
    requires RowsRight(s, full) && e in s.held && other in s.held && other != e
    ensures DetachExpert(s, e).Some? && RowsRight(DetachExpert(s, e).value, full)
    ensures forall x :: x in DetachExpert(s, e).value.held <==> x != e && x in s.held
  {
    var slots, s' := Surviving(s.held, e), DetachExpert(s, e).value;
    forall x | x != e && x in s.held ensures x in s'.held {
      var slot :| 0 <= slot < |s.held| && s.held[slot] == x;
      SurvivingComplete(s.held, e, slot);
      var j :| 0 <= j < |slots| && slots[j] == slot;
      assert s'.held[j] == x;
    }
    forall i, j | 0 <= i < TENSORS && 0 <= j < |s'.held|
      ensures RowRight(s', full, i, j)
    {
      assert RowRight(s, full, i, slots[j]);
    }
  }

  /** Detaching what was just attached restores the stack, bit for bit. */
  lemma DetachUndoesAttach<T>(s: Stack<T>, e: int, ts: seq<T>)
    requires Regular(s) && |ts| == TENSORS && e !in s.held
    ensures Regular(AttachExpert(s, e, ts).value)
    ensures DetachExpert(AttachExpert(s, e, ts).value, e) == Some(s)
  {
    var grown := AttachExpert(s, e, ts).value;
    assert grown.held[..|s.held|] == s.held;
    SurvivingAll(s.held, e);
    assert Surviving(grown.held, e) == Surviving(s.held, e);
    var back := DetachExpert(grown, e).value;
    assert back.held == s.held;
    assert forall i :: 0 <= i < TENSORS ==> back.rows[i] == s.rows[i];
    assert back.rows == s.rows;
  }

  /** Growing a layer that was loaded whole (empty held list) labels row 0 with the new expert: the layer then
      answers with row 0 of the original, whatever was attached. */
  lemma AttachToFullLayerMislabels<T>(full: seq<seq<T>>, e: int, ts: seq<T>, i: nat)
    requires |full| == TENSORS == |ts| && i < TENSORS && |full[i]| > 0
    ensures var s := LoadPartial(full, []);
            AttachExpert(s, e, ts).Some? && RowFor(AttachExpert(s, e, ts).value, i, e) == Some(full[i][0])
  {
    var s := AttachExpert(LoadPartial(full, []), e, ts).value;
    assert s.held == [e] && IndexOf(s.held, e) == 0;
  }

  /** So attaching keeps rows right exactly when the held list was not empty. */
  lemma AttachRightIffHeld<T>(full: seq<seq<T>>, ids: seq<nat>, e: int, ts: seq<T>)
    requires |full| == TENSORS && InRange(full, ids) && Distinct(ids) && TensorsOf(full, e, ts) && e !in ids
    requires forall i :: 0 <= i < TENSORS ==> |full[i]| > 0
    ensures RowsRight(AttachExpert(LoadPartial(full, ids), e, ts).value, full) <==> ids != []
  {
    if ids != [] {
      LoadRight(full, ids);
      AttachRight(LoadPartial(full, ids), full, e, ts);
    } else {
      var s := AttachExpert(LoadPartial(full, ids), e, ts).value;
      assert |s.held| == 1 && |s.rows[0]| == |full[0]| + 1;
    }
  }

  // ------------------------------------------------------- the loaded model

  /** Held lists and stacks per layer, rebuilt tensor by tensor as experts come and go. */
  class LoadedModel<T> {
    var held: map<int, seq<int>>
    var stacks: map<int, seq<seq<T>>>

    ghost predicate Valid()
      reads this
    {
      && held.Keys <= stacks.Keys
      && forall l :: l in stacks ==> Slotted(Stack(if l in held then held[l] else [], stacks[l]))
    }

    /** A layer with no held list counts as one with an empty list. */
    function At(layer: int): Stack<T>
      requires layer in stacks
      reads this
    {
      Stack(if layer in held then held[layer] else [], stacks[layer])
    }

    constructor (held: map<int, seq<int>>, stacks: map<int, seq<seq<T>>>)
      requires held.Keys <= stacks.Keys
      requires forall l :: l in stacks ==> Slotted(Stack(if l in held then held[l] else [], stacks[l]))
      ensures Valid() && this.held == held && this.stacks == stacks
    {
      this.held, this.stacks := held, stacks;
    }

    method Slice(layer: int, e: int) returns (r: Option<seq<T>>)
      requires Valid() && layer in stacks
      ensures r == SliceExpert(At(layer), e)
    {
      if layer !in held || e !in held[layer] { return None; }
      var slot, out: seq<T> := IndexOf(held[layer], e), [];
      for i := 0 to TENSORS
        invariant |out| == i && forall j :: 0 <= j < i ==> out[j] == stacks[layer][j][slot]
      {
        out := out + [stacks[layer][i][slot]];
      }
      assert out == SliceExpert(At(layer), e).value;
      r := Some(out);
    }

    method Attach(layer: int, e: int, tensors: seq<T>) returns (ok: bool)
      requires Valid() && layer in stacks
      modifies this
      ensures Valid() && stacks.Keys == old(stacks.Keys)
      ensures ok == old(AttachExpert(At(layer), e, tensors).Some?)
      ensures At(layer) == if ok then old(AttachExpert(At(layer), e, tensors).value) else old(At(layer))
      ensures forall l :: l in stacks && l != layer ==> At(l) == old(At(l))
    {
      if |tensors| != 9 { return false; }
      var before := if layer in held then held[layer] else [];
      if e in before { return false; }
      ghost var was := At(layer);
      var rows: seq<seq<T>> := [];
      for i := 0 to TENSORS
        invariant |rows| == i && forall j :: 0 <= j < i ==> rows[j] == was.rows[j] + [tensors[j]]
      {
        rows := rows + [stacks[layer][i] + [tensors[i]]];
      }
      assert rows == AttachExpert(was, e, tensors).value.rows;
      stacks, held := stacks[layer := rows], held[layer := before + [e]];
      ok := true;
    }

    method Detach(layer: int, e: int) returns (ok: bool)
      requires Valid() && layer in stacks
      modifies this
      ensures Valid() && stacks.Keys == old(stacks.Keys)
      ensures ok == old(DetachExpert(At(layer), e).Some?)
      ensures At(layer) == if ok then old(DetachExpert(At(layer), e).value) else old(At(layer))
      ensures forall l :: l in stacks && l != layer ==> At(l) == old(At(l))
    {
      if layer !in held || e !in held[layer] { return false; }
      ghost var was := At(layer);
      var slots := Surviving(held[layer], e);
      var rows: seq<seq<T>> := [];
      for i := 0 to TENSORS
        invariant |rows| == i && forall j :: 0 <= j < i ==> rows[j] == Take(was.rows[j], slots)
      {
        rows := rows + [Take(stacks[layer][i], slots)];
      }
      assert rows == DetachExpert(was, e).value.rows;
      stacks, held := stacks[layer := rows], held[layer := Take(held[layer], slots)];
      ok := true;
    }
  }
}
