/**
 * The shape descriptor a tensor holds. Its dimension encoding lives in
 * backends/shape.h, which is not part of this model: a tensor consumes only
 * the total element count and the layout tag, so that is all a Shape exposes.
 */
module Shapes {

  /** The axis-semantics tag (BLITZ_DATA_LAYOUT); its enumerators are not modelled. */
  datatype DataLayout = DataLayout(tag: nat)

  /** `size` is Shape::size(), `layout` is Shape::data_layout(). */
  datatype Shape = Shape(size: nat, layout: DataLayout)
}
