/**
 * The Tensor base class every backend (CPU, GPU, ...) derives from: an element
 * buffer, a shape and a row-major flag. Each mutator is proved to change the
 * fields exactly as the matching TensorSpec function says, and nothing else.
 */
module Backends {
  import opened Shapes
  import opened TensorSpec

  class Tensor<T> {
    /** data_ as a pointer: cell `offset` of array `data`, or nullptr when
        `data` is null (also the state the shape-only constructor leaves for a
        subclass's Allocate to fill in). Two tensors may point into one array. */
    var data: array?<T>
    var offset: nat
    var shape: Shape
    var rowMajor: bool

    /** The pointer is nullptr or points into (or just past) its array. */
    ghost predicate Valid()
      reads this
    {
      if data == null then offset == 0 else offset <= data.Length
    }

    /** The fields read as a TensorState value: the cells from the pointer on. */
    ghost function State(): TensorState<T>
      reads this, data
      requires Valid()
    {
      TensorState(if data == null then Unbound else Bound(data[offset..]), shape, rowMajor)
    }

    /** Tensor(const Shape&). */
    constructor FromShape(shape: Shape)
      ensures Valid() && data == null
      ensures State() == TensorSpec.FromShape(shape)
    {
      this.data := null;
      this.offset := 0;
      this.shape := shape;
      this.rowMajor := true;
    }

    /** Tensor(DType*, const Shape&): holds the caller's pointer itself, which
        may be nullptr or point into the middle of another tensor's buffer;
        it neither copies nor allocates, and leaves the cells alone. */
    constructor Wrap(buffer: array?<T>, at: nat, shape: Shape)
      requires if buffer == null then at == 0 else at <= buffer.Length
      ensures Valid() && data == buffer && offset == at
      ensures State() == if buffer == null then TensorSpec.FromShape(shape)
                         else TensorSpec.Wrap(buffer[at..], shape)
    {
      this.data := buffer;
      this.offset := at;
      this.shape := shape;
      this.rowMajor := true;
    }

    /** shape() and shape_ptr(): the held shape. */
    method GetShape() returns (s: Shape)
      requires Valid()
      ensures s == State().shape
    {
      s := shape;
    }

    /** data_layout(): the held shape's layout tag, uninterpreted. */
    method DataLayout() returns (layout: DataLayout)
      requires Valid()
      ensures layout == State().shape.layout
    {
      layout := shape.layout;
    }

    /** size(): the held shape's element count. */
    method Size() returns (n: nat)
      requires Valid()
      ensures n == State().shape.size
    {
      n := shape.size;
    }

    method RowMajor() returns (b: bool)
      requires Valid()
      ensures b == State().rowMajor
    {
      b := rowMajor;
    }

    /** Both data() overloads: the pointer the tensor holds, as array and offset. */
    method Data() returns (p: array?<T>, at: nat)
      requires Valid()
      ensures p == data && at == offset
      ensures p != null <==> State().buffer.Bound?
      ensures p != null ==> at <= p.Length && p[at..] == State().buffer.cells
    {
      p, at := data, offset;
    }

    /** A read through either operator[] overload: data_[i]; nothing checks i. */
    method Get(i: nat) returns (v: T)
      requires Valid() && data != null && offset + i < data.Length
      ensures v == data[offset + i]
      ensures InBounds(State(), i) && v == Read(State(), i)
    {
      v := data[offset + i];
    }

    /** A write through the reference either operator[] overload returns: the
        one array cell data_[i] changes, which every other tensor pointing into
        the same array sees; nothing else changes. */
    method Set(i: nat, v: T)
      requires Valid() && data != null && offset + i < data.Length
      modifies data
      ensures Valid()
      ensures data[..] == old(data[..])[offset + i := v]
      ensures InBounds(old(State()), i)
      ensures State() == Write(old(State()), i, v)
    {
      data[offset + i] := v;
    }

    method SetRowMajor()
      requires Valid()
      modifies this`rowMajor
      ensures Valid()
      ensures State() == TensorSpec.SetRowMajor(old(State()))
    {
      rowMajor := true;
    }

    method SetColumnMajor()
      requires Valid()
      modifies this`rowMajor
      ensures Valid()
      ensures State() == TensorSpec.SetColumnMajor(old(State()))
    {
      rowMajor := false;
    }

    /** set_shape(shape): no reallocation; data keeps the same buffer (the frame
        excludes it). */
    method SetShape(shape: Shape)
      requires Valid()
      modifies this`shape
      ensures Valid()
      ensures State() == TensorSpec.SetShape(old(State()), shape)
    {
      this.shape := shape;
    }
  }

  /** Two tensors over one array, the second wrapping an interior pointer
      (as `other.data() + k` or a slice would give): a write through the second
      tensor's operator[](j) is seen by the first at index k + j. */
  method InteriorPointerAliasing<T>(buffer: array<T>, shape: Shape, k: nat, j: nat, v: T)
    returns (whole: Tensor<T>, part: Tensor<T>, seen: T)
    requires k + j < buffer.Length
    modifies buffer
    ensures whole.data == part.data == buffer && part.offset == k
    ensures seen == v && buffer[k + j] == v
    ensures forall m :: 0 <= m < buffer.Length && m != k + j ==> buffer[m] == old(buffer[m])
  {
    whole := new Tensor.Wrap(buffer, 0, shape);
    part := new Tensor.Wrap(buffer, k, shape);
    part.Set(j, v);
    seen := whole.Get(k + j);
  }
}
