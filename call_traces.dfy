/**
 * Sequences of calls to a tensor's mutating interface (the two layout
 * setters, set_shape and a write through operator[]) and what they leave
 * behind. Each call's frame condition is composed over any trace: the flag
 * changes only through the layout setters, the shape only through set_shape,
 * a cell only through a write to that cell, and the capacity never.
 */
module CallTraces {
  import opened Shapes
  import opened TensorSpec

  datatype Call<T> =
    | SetRowMajorCall
    | SetColumnMajorCall
    | SetShapeCall(shape: Shape)
    | WriteCall(index: nat, value: T)
  {
    predicate IsLayoutCall()
    {
      SetRowMajorCall? || SetColumnMajorCall?
    }

    predicate WritesAt(j: nat)
    {
      WriteCall? && index == j
    }
  }

  /** A call the caller may make on state s: a write must stay in bounds. */
  predicate Allowed<T>(s: TensorState<T>, c: Call<T>)
  {
    c.WriteCall? ==> InBounds(s, c.index)
  }

  /** Every call of the trace is allowed; since no call changes the capacity,
      checking against the starting state suffices. */
  predicate Admissible<T>(s: TensorState<T>, calls: seq<Call<T>>)
  {
    forall k :: 0 <= k < |calls| ==> Allowed(s, calls[k])
  }

  function Step<T>(s: TensorState<T>, c: Call<T>): (r: TensorState<T>)
    requires Allowed(s, c)
    ensures Capacity(r) == Capacity(s) && r.buffer.Bound? == s.buffer.Bound?
  {
    match c
    case SetRowMajorCall => SetRowMajor(s)
    case SetColumnMajorCall => SetColumnMajor(s)
    case SetShapeCall(shape) => SetShape(s, shape)
    case WriteCall(i, v) => Write(s, i, v)
  }

  /** The state after making the calls in order. */
  function Run<T>(s: TensorState<T>, calls: seq<Call<T>>): (r: TensorState<T>)
    requires Admissible(s, calls)
    ensures Capacity(r) == Capacity(s) && r.buffer.Bound? == s.buffer.Bound?
    decreases |calls|
  {
    if calls == [] then s
    else
      var next := Step(s, calls[0]);
      Run(next, calls[1..])
  }

  lemma {:induction false} RunAppend<T>(s: TensorState<T>, a: seq<Call<T>>, b: seq<Call<T>>)
    requires Admissible(s, a + b)
    ensures Admissible(s, a) && Admissible(Run(s, a), b)
    ensures Run(s, a + b) == Run(Run(s, a), b)
    decreases |a|
  {
    if a == [] {
      assert a + b == b;
    } else {
      assert (a + b)[0] == a[0];
      assert (a + b)[1..] == a[1..] + b;
      RunAppend(Step(s, a[0]), a[1..], b);
    }
  }

  /** A trace splits around its k-th call. */
  lemma RunSplitAt<T>(s: TensorState<T>, calls: seq<Call<T>>, k: nat)
    requires Admissible(s, calls) && k < |calls|
    ensures Admissible(s, calls[..k]) && Allowed(Run(s, calls[..k]), calls[k])
    ensures Admissible(Step(Run(s, calls[..k]), calls[k]), calls[k + 1..])
    ensures Run(s, calls) == Run(Step(Run(s, calls[..k]), calls[k]), calls[k + 1..])
  {
    assert calls == calls[..k] + calls[k..];
    RunAppend(s, calls[..k], calls[k..]);
    assert calls[k..][1..] == calls[k + 1..];
  }

  /** With no layout setter in the trace the flag keeps its value. */
  lemma {:induction false} RunWithoutLayoutCall<T>(s: TensorState<T>, calls: seq<Call<T>>)
    requires Admissible(s, calls)
    requires forall k :: 0 <= k < |calls| ==> !calls[k].IsLayoutCall()
    ensures Run(s, calls).rowMajor == s.rowMajor
    decreases |calls|
  {
    if calls != [] {
      assert forall k :: 0 <= k < |calls| - 1 ==> calls[1..][k] == calls[k + 1];
      RunWithoutLayoutCall(Step(s, calls[0]), calls[1..]);
    }
  }

  /** With no set_shape in the trace the shape keeps its value. */
  lemma {:induction false} RunWithoutShapeCall<T>(s: TensorState<T>, calls: seq<Call<T>>)
    requires Admissible(s, calls)
    requires forall k :: 0 <= k < |calls| ==> !calls[k].SetShapeCall?
    ensures Run(s, calls).shape == s.shape
    decreases |calls|
  {
    if calls != [] {
      assert forall k :: 0 <= k < |calls| - 1 ==> calls[1..][k] == calls[k + 1];
      RunWithoutShapeCall(Step(s, calls[0]), calls[1..]);
    }
  }

  /** A cell no call of the trace writes keeps its value. */
  lemma {:induction false} RunWithoutWriteAt<T>(s: TensorState<T>, calls: seq<Call<T>>, j: nat)
    requires Admissible(s, calls) && InBounds(s, j)
    requires forall k :: 0 <= k < |calls| ==> !calls[k].WritesAt(j)
    ensures Run(s, calls).buffer.cells[j] == s.buffer.cells[j]
    decreases |calls|
  {
    if calls != [] {
      assert forall k :: 0 <= k < |calls| - 1 ==> calls[1..][k] == calls[k + 1];
      RunWithoutWriteAt(Step(s, calls[0]), calls[1..], j);
    }
  }

  /** A trace of layout setters and set_shape only leaves the buffer exactly as it was:
      the flag is metadata and set_shape neither clears nor reallocates. */
  lemma {:induction false} RunWithoutWrites<T>(s: TensorState<T>, calls: seq<Call<T>>)
    requires Admissible(s, calls)
    requires forall k :: 0 <= k < |calls| ==> !calls[k].WriteCall?
    ensures Run(s, calls).buffer == s.buffer
    decreases |calls|
  {
    if calls != [] {
      assert forall k :: 0 <= k < |calls| - 1 ==> calls[1..][k] == calls[k + 1];
      RunWithoutWrites(Step(s, calls[0]), calls[1..]);
    }
  }

  /** The last layout setter of a trace decides row_major(). */
  lemma LastLayoutCallDecidesFlag<T>(s: TensorState<T>, calls: seq<Call<T>>, k: nat)
    requires Admissible(s, calls) && k < |calls|
    requires calls[k].IsLayoutCall()
    requires forall j :: k < j < |calls| ==> !calls[j].IsLayoutCall()
    ensures Run(s, calls).rowMajor == calls[k].SetRowMajorCall?
  {
    RunSplitAt(s, calls, k);
    var after := Step(Run(s, calls[..k]), calls[k]);
    RunWithoutLayoutCall(after, calls[k + 1..]);
  }

  /** The last set_shape of a trace decides shape(). */
  lemma LastShapeCallDecidesShape<T>(s: TensorState<T>, calls: seq<Call<T>>, k: nat)
    requires Admissible(s, calls) && k < |calls|
    requires calls[k].SetShapeCall?
    requires forall j :: k < j < |calls| ==> !calls[j].SetShapeCall?
    ensures Run(s, calls).shape == calls[k].shape
  {
    RunSplitAt(s, calls, k);
    var after := Step(Run(s, calls[..k]), calls[k]);
    RunWithoutShapeCall(after, calls[k + 1..]);
  }

  /** The last write to a cell decides what a later read of that cell returns. */
  lemma LastWriteDecidesCell<T>(s: TensorState<T>, calls: seq<Call<T>>, k: nat)
    requires Admissible(s, calls) && k < |calls|
    requires calls[k].WriteCall?
    requires forall j :: k < j < |calls| ==> !calls[j].WritesAt(calls[k].index)
    ensures InBounds(Run(s, calls), calls[k].index)
    ensures Read(Run(s, calls), calls[k].index) == calls[k].value
  {
    RunSplitAt(s, calls, k);
    var after := Step(Run(s, calls[..k]), calls[k]);
    RunWithoutWriteAt(after, calls[k + 1..], calls[k].index);
  }
}
