# Tensor base class of the blitz backends

This project models `blitz::Tensor<DType>`, the abstract base class that every
compute backend (host, GPU, ...) of the blitz library derives from. A tensor holds
three fields: a raw element buffer `data_`, a `Shape` value `shape_` and a layout
flag `row_major_`. The base class stores them and hands them out. Its setters
overwrite one field each, and `operator[]` gives unchecked access to one cell of
the buffer. Allocation, filling, slicing and CSV output are left to the backends.

Files:

- `shapes.dfy` (module `Shapes`): `Shape` as seen by a tensor. It exposes only
  `size` (`Shape::size()`) and `layout` (`Shape::data_layout()`), because
  `backends/shape.h` is not part of this model.
- `tensor_spec.dfy` (module `TensorSpec`): the tensor's observable state as a value
  (`TensorState`). It also gives the effect of each constructor and mutator as a
  function, and lemmas relating them.
- `call_traces.dfy` (module `CallTraces`): any sequence of calls to the mutating
  interface (`set_row_major`, `set_column_major`, `set_shape`, a write through
  `operator[]`). Lemmas proved by induction say what such a sequence leaves behind.
- `backends.dfy` (module `Backends`): the class `Tensor<T>` with fields `data` and
  `offset` (together the pointer `data_`), `shape` and `rowMajor`. Each method is proved to change the fields exactly as
  the matching `TensorSpec` function says, and to change nothing else. The
  `modifies` frames show that a layout setter touches only `rowMajor`, `set_shape`
  touches only `shape`, and a cell write touches only the buffer's contents.

Modelling decisions:

- The pointer `data_` is an array plus an offset into it: `nullptr` is a null
  array, and a pointer into the middle of a buffer (what `other.data() + k` or a
  slice gives) is that buffer's array with offset `k`. Several tensors can point
  into one array, and a write through one is seen by the others
  (`Backends.InteriorPointerAliasing`). The tensor's cells are the array's cells
  from the offset on.
- With the shape-only constructor, `data_` is simply left uninitialised. The model
  uses `null` for this ("not yet bound"). A subclass's `Allocate` would then bind
  a buffer. An unbound buffer has capacity 0, so indexed access is impossible on it.
- `operator[]` returns a reference. The model splits this into `Get` (a read
  through the reference) and `Set` (a write through it). Both overloads have the
  same body and refer to the same cell. The `const` overload also returns a
  writable `DType&`, because the constness of the object does not carry over to
  the buffer the pointer refers to. So `Set` stands for a write through either
  overload.
- `operator[]` has no bounds check. In-bounds access is a caller obligation: the
  `requires data != null && offset + i < data.Length` of `Get` and `Set`.
- The base class does not enforce the invariant that the buffer holds at least
  `size()` cells (`TensorSpec.Fits`). `set_shape` can break it, and
  `TensorSpec.SetShape` states exactly when it does.

## Model

| member | source | states |
|---|---|---|
| Backends.Tensor.FromShape | include/backends/tensor.h:13-14 | the shape-only constructor stores the shape, sets row-major and leaves the buffer unbound |
| Backends.Tensor.Wrap | include/backends/tensor.h:16-17 | the buffer-wrapping constructor holds the caller's pointer itself (nullptr, or any position in an array; no copy, no allocation) with the cells untouched, stores the shape and sets row-major |
| Backends.Tensor.GetShape | include/backends/tensor.h:22-24 | `shape()` returns the held shape |
| Backends.Tensor.DataLayout | include/backends/tensor.h:26-28 | `data_layout()` returns the held shape's layout tag, uninterpreted |
| Backends.Tensor.Size | include/backends/tensor.h:35-37 | `size()` returns the held shape's element count |
| Backends.Tensor.RowMajor | include/backends/tensor.h:39-41 | `row_major()` returns the layout flag of the current state |
| Backends.Tensor.Data | include/backends/tensor.h:43-49 | both `data()` overloads return the held pointer (array and offset); it is non-null exactly when the state is bound, and the array's cells from the offset on are the state's cells |
| Backends.Tensor.Get | include/backends/tensor.h:53-59 | a read through `operator[](i)` returns `data_[i]`, the array cell at offset + `i`, which is cell `i` of the state; an in-bounds index is a caller obligation |
| Backends.Tensor.Set | include/backends/tensor.h:53-59 | a write through `operator[](i)` changes exactly the array cell at offset + `i`, and the state as `TensorSpec.Write` does: only cell `i` changes, and the pointer, shape and flag stay |
| Backends.Tensor.SetRowMajor | include/backends/tensor.h:62-64 | `set_row_major()` changes the state as `TensorSpec.SetRowMajor`; its frame allows only the flag to change |
| Backends.Tensor.SetColumnMajor | include/backends/tensor.h:66-68 | `set_column_major()` changes the state as `TensorSpec.SetColumnMajor`; its frame allows only the flag to change |
| Backends.Tensor.SetShape | include/backends/tensor.h:70-72 | `set_shape(s)` changes the state as `TensorSpec.SetShape`; its frame allows only the shape to change, so the pointer (the same array object and offset) and the cells stay: no reallocation |
| Backends.InteriorPointerAliasing | include/backends/tensor.h:53-59 | a tensor wrapping a pointer `k` cells into another tensor's array writes its cell `j` into that array's cell `k + j`, which the other tensor then reads, and no other array cell changes |
| TensorSpec.FromShape | include/backends/tensor.h:13-14 | a freshly constructed tensor has the given shape, is row-major and has no cells |
| TensorSpec.Wrap | include/backends/tensor.h:16-17 | a wrapping tensor has exactly the caller's cells, the given shape, is row-major, and holds enough cells iff the shape's size is at most their number |
| TensorSpec.SetRowMajor | include/backends/tensor.h:62-64 | afterwards the flag is true; the buffer and shape are unchanged |
| TensorSpec.SetColumnMajor | include/backends/tensor.h:66-68 | afterwards the flag is false; the buffer and shape are unchanged |
| TensorSpec.SetShape | include/backends/tensor.h:70-72 | afterwards the shape is the given one; the buffer and flag are unchanged; the capacity invariant holds afterwards iff the new size fits the existing buffer |
| TensorSpec.Read | include/backends/tensor.h:53-59 | a read through `operator[](i)` returns the value that, written back to cell `i`, leaves the state unchanged |
| TensorSpec.Write | include/backends/tensor.h:53-59 | a write sets cell `i` to `v`, leaves every other cell, the capacity, the shape and the flag unchanged |
| TensorSpec.ReadAfterWrite | include/backends/tensor.h:53-59 | a read after a write returns the written value at the written index and the old value elsewhere |
| TensorSpec.LayoutSettersIdempotent | include/backends/tensor.h:62-68 | repeating a layout setter is idempotent, the later of two layout setters wins, and switching layouts leaves the buffer as it was |
| TensorSpec.SetShapeIndependentOfLayout | include/backends/tensor.h:62-72 | `set_shape` commutes with both layout setters, and a second `set_shape` overrides the first |
| CallTraces.Step | include/backends/tensor.h:53-72 | no mutating call changes the buffer's capacity or whether it is bound |
| CallTraces.Run | include/backends/tensor.h:53-72 | no sequence of mutating calls changes the buffer's capacity or whether it is bound |
| CallTraces.RunWithoutLayoutCall | include/backends/tensor.h:62-72 | the flag changes only through the layout setters: a sequence without them leaves it as it was |
| CallTraces.RunWithoutShapeCall | include/backends/tensor.h:62-72 | the shape changes only through `set_shape`: a sequence without it leaves it as it was |
| CallTraces.RunWithoutWriteAt | include/backends/tensor.h:53-59 | a cell that no call writes keeps its value through any sequence of calls |
| CallTraces.RunWithoutWrites | include/backends/tensor.h:62-72 | any sequence of layout setters and `set_shape` calls leaves the buffer's contents and capacity exactly as they were (no clearing); that the buffer object itself stays is the frames of `Backends.Tensor.SetShape` and the layout setters |
| CallTraces.LastLayoutCallDecidesFlag | include/backends/tensor.h:62-68 | after a sequence of calls, `row_major()` is true iff the last layout setter was `set_row_major` |
| CallTraces.LastShapeCallDecidesShape | include/backends/tensor.h:70-72 | after a sequence of calls, the shape is the one passed to the last `set_shape` |
| CallTraces.LastWriteDecidesCell | include/backends/tensor.h:53-59 | after a sequence of calls, a cell holds the value of the last write to it |

## Left out

- `Fill`, both `Slice` overloads, `OutputCSV` and `Allocate` (include/backends/tensor.h:74-80): these are pure virtual and have no body in the base class. Their behaviour belongs to backend subclasses, which are not part of this model. `OutputCSV` is also file I/O.
- `shape_ptr()` (include/backends/tensor.h:31-33): it returns the address of the held shape. `Backends.Tensor.GetShape` covers what it refers to. Pointer identity is not modelled.
- The internals of `Shape`: its dimension extents, the rule that its size is their product, and the enumerators of the layout tag. `backends/shape.h` is not part of this model.
- The `INSTANTIATE_TENSOR` macro (include/backends/tensor.h:89-95): explicit instantiation for `float`, `double`, `int`, `size_t` and `short`. The model has one generic element type `T` and does no arithmetic on elements.
- `DISABLE_COPY_AND_ASSIGN` and the virtual destructor (include/backends/tensor.h:19, 86): C++ copy prevention and memory release, with no other behaviour.
- The lifetime of a wrapped buffer after the tensor is destroyed, and concurrent access: the class has no logic for either.
- Backends.Tensor.Size: `size_t` is unbounded (`nat`) in the model. The 64-bit width of `size()` and of `operator[]`'s index is not modelled.
- Backends.Tensor.FromShape: C++ leaves `data_` uninitialised here; the model uses `null`, so it cannot model a read through an uninitialised pointer.
