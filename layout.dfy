/**
 * The interleaved vertex layout that `ObjectModel.render` hands to
 * `glVertexAttribPointer`: per vertex, 3 position floats, then 3 normal
 * floats, then 2 texture-coordinate floats, 4 bytes each.
 */
module Layout {

  const COORDS_PER_VERTEX: nat := 3
  const NORMALS_PER_VERTEX: nat := 3
  const TEX_COORDS_PER_VERTEX: nat := 2
  const FLOAT_SIZE_BYTES: nat := 4
  const POSITION_HANDLE: nat := 0
  const TEX_COORD_HANDLE: nat := 1
  const NORMAL_HANDLE: nat := 2

  /** The arguments of one `glVertexAttribPointer` call that locate an attribute. */
  datatype Binding = Binding(handle: nat, components: nat, offset: nat)

  /** `vertexStride`: the bytes from one vertex to the next. */
  function VertexStride(): nat
  {
    (COORDS_PER_VERTEX + TEX_COORDS_PER_VERTEX + NORMALS_PER_VERTEX) * FLOAT_SIZE_BYTES
  }

  /** The three attribute bindings, in the order `render` makes them. */
  function Bindings(): seq<Binding>
  {
    [ Binding(POSITION_HANDLE, COORDS_PER_VERTEX, 0),
      Binding(NORMAL_HANDLE, NORMALS_PER_VERTEX, COORDS_PER_VERTEX * FLOAT_SIZE_BYTES),
      Binding(TEX_COORD_HANDLE, TEX_COORDS_PER_VERTEX, (COORDS_PER_VERTEX + NORMALS_PER_VERTEX) * FLOAT_SIZE_BYTES) ]
  }

  /** The byte just past an attribute's last float. */
  function End(b: Binding): nat
  {
    b.offset + b.components * FLOAT_SIZE_BYTES
  }

  /**
   * The stride is 32 bytes; position occupies bytes 0..11, normal 12..23
   * and texture coordinate 24..31, so the three ranges tile the stride
   * back to back with no overlap, and each attribute has its own handle.
   */
  lemma LayoutTilesStride()
    ensures VertexStride() == 32
    ensures |Bindings()| == 3 && Bindings()[0].offset == 0 && End(Bindings()[2]) == VertexStride()
    ensures forall p | 0 <= p < |Bindings()| - 1 :: End(Bindings()[p]) == Bindings()[p + 1].offset
    ensures forall p, q | 0 <= p < q < |Bindings()| :: End(Bindings()[p]) <= Bindings()[q].offset
    ensures forall p, q | 0 <= p < q < |Bindings()| :: Bindings()[p].handle != Bindings()[q].handle
  {
  }
}
