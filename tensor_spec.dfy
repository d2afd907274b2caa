/**
 * The observable state of a Tensor as a value, and the effect of each of the
 * base class's mutators on it. The class in backends.dfy is proved to change
 * its fields exactly as these functions say.
 */
module TensorSpec {
  import opened Shapes

  /** The element buffer: not yet bound (the shape-only constructor leaves it
      to the subclass's Allocate), or bound to a run of cells. */
  datatype Buffer<T> = Unbound | Bound(cells: seq<T>)

  datatype TensorState<T> = TensorState(buffer: Buffer<T>, shape: Shape, rowMajor: bool)

  /** Number of addressable cells; an unbound buffer has none. */
  function Capacity<T>(s: TensorState<T>): (n: nat)
  {
    if s.buffer.Bound? then |s.buffer.cells| else 0
  }

  /** An index the caller may pass to operator[]: the code does not check it. */
  predicate InBounds<T>(s: TensorState<T>, i: nat)
  {
    i < Capacity(s)
  }

  /** The allocated/bound invariant: the buffer holds at least size() cells.
      The base class does not enforce it; set_shape can break it. */
  predicate Fits<T>(s: TensorState<T>)
  {
    s.shape.size <= Capacity(s)
  }

  /** Tensor(const Shape&): shape stored, row-major, buffer left to Allocate. */
  function FromShape<T>(shape: Shape): (r: TensorState<T>)
    ensures r.shape == shape && r.rowMajor
    ensures r.buffer == Unbound && Capacity(r) == 0
  {
    TensorState(Unbound, shape, true)
  }

  /** Tensor(DType*, const Shape&): the caller's cells as they are, shape stored, row-major. */
  function Wrap<T>(cells: seq<T>, shape: Shape): (r: TensorState<T>)
    ensures r.shape == shape && r.rowMajor
    ensures r.buffer == Bound(cells) && Capacity(r) == |cells|
    ensures Fits(r) <==> shape.size <= |cells|
  {
    TensorState(Bound(cells), shape, true)
  }

  /** set_row_major(): only the flag changes. */
  function SetRowMajor<T>(s: TensorState<T>): (r: TensorState<T>)
    ensures r.rowMajor
    ensures r.buffer == s.buffer && r.shape == s.shape
  {
    s.(rowMajor := true)
  }

  /** set_column_major(): only the flag changes. */
  function SetColumnMajor<T>(s: TensorState<T>): (r: TensorState<T>)
    ensures !r.rowMajor
    ensures r.buffer == s.buffer && r.shape == s.shape
  {
    s.(rowMajor := false)
  }

  /** set_shape(shape): the shape is replaced; the buffer is not reallocated. */
  function SetShape<T>(s: TensorState<T>, shape: Shape): (r: TensorState<T>)
    ensures r.shape == shape
    ensures r.buffer == s.buffer && r.rowMajor == s.rowMajor
    ensures Fits(r) <==> shape.size <= Capacity(s)
  {
    s.(shape := shape)
  }

  /** A read through operator[]: the value that writing back to the same cell
      would leave the state unchanged with. */
  function Read<T>(s: TensorState<T>, i: nat): (v: T)
    requires InBounds(s, i)
    ensures Write(s, i, v) == s
  {
    var v := s.buffer.cells[i];
    assert s.buffer.cells[i := v] == s.buffer.cells;
    v
  }

  /** A write through the reference operator[] returns: cell i alone changes. */
  function Write<T>(s: TensorState<T>, i: nat, v: T): (r: TensorState<T>)
    requires InBounds(s, i)
    ensures r.buffer.Bound? && Capacity(r) == Capacity(s)
    ensures r.buffer.cells[i] == v
    ensures forall j :: 0 <= j < Capacity(s) && j != i ==> r.buffer.cells[j] == s.buffer.cells[j]
    ensures r.shape == s.shape && r.rowMajor == s.rowMajor
  {
    s.(buffer := Bound(s.buffer.cells[i := v]))
  }

  /** Reading a cell after a write sees the written value there and the old value elsewhere. */
  lemma ReadAfterWrite<T>(s: TensorState<T>, i: nat, v: T, j: nat)
    requires InBounds(s, i) && InBounds(s, j)
    ensures Read(Write(s, i, v), j) == if i == j then v else Read(s, j)
  {
  }

  /** Repeating a layout setter changes nothing; the later of two layout setters wins,
      and neither touches the buffer or the shape. */
  lemma LayoutSettersIdempotent<T>(s: TensorState<T>)
    ensures SetRowMajor(SetRowMajor(s)) == SetRowMajor(s)
    ensures SetColumnMajor(SetColumnMajor(s)) == SetColumnMajor(s)
    ensures SetColumnMajor(SetRowMajor(s)) == SetColumnMajor(s)
    ensures SetRowMajor(SetColumnMajor(s)) == SetRowMajor(s)
    ensures SetColumnMajor(SetRowMajor(s)).buffer == s.buffer
  {
  }

  /** set_shape and the layout setters act on separate fields, so they commute;
      a second set_shape overrides the first. */
  lemma SetShapeIndependentOfLayout<T>(s: TensorState<T>, shape: Shape, other: Shape)
    ensures SetShape(SetRowMajor(s), shape) == SetRowMajor(SetShape(s, shape))
    ensures SetShape(SetColumnMajor(s), shape) == SetColumnMajor(SetShape(s, shape))
    ensures SetShape(SetShape(s, other), shape) == SetShape(s, shape)
  {
  }
}
