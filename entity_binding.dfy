/** What an entity reads from the layer it is bound to, and the raw
    per-instance record it produces for the GPU. Both entity kinds of the
    engine share these. */
module EntityBinding {
  import opened Common

  /** The size of one atlas cell in texture coordinates (`PhysicalSize<f32>`). */
  datatype TexCoordSize = TexCoordSize(width: real, height: real)

  /** A layer as an entity sees it: its id, the atlas cell of every texture
      it holds (absent until the atlas places the texture) and its cell size
      in texture coordinates. */
  datatype LayerView = LayerView(id: LayerId, textures: map<TextureId, Option<Cell>>, texCoordSize: TexCoordSize)

  /** The transform of an entity; its matrix arithmetic is not modelled, only
      the translation it was given. */
  datatype Transform2D = Transform2D(position: Vector3)

  /** `Entity2DRaw` without the transform matrix: the cell index converted to
      floating point and the texture-coordinate size. */
  datatype Entity2DRaw = Entity2DRaw(transform: Transform2D, textureIndex: (real, real), textureSize: TexCoordSize)

  const TEX_NOT_IN_LAYER := "Tex not in given layer"

  /** The lookup `new` performs: `unwrap` on the texture, then `expect` on its
      index. */
  function CellForNew(layer: LayerView, texture: TextureId): (r: Outcome<Cell>)
    ensures r.Ok? <==> texture in layer.textures && layer.textures[texture].Some?
    ensures r.Ok? ==> r.value == layer.textures[texture].value
    ensures texture !in layer.textures ==> r == Panic(UnwrapNone)
    ensures texture in layer.textures && layer.textures[texture].None? ==> r == Panic(TEX_NOT_IN_LAYER)
  {
    if texture !in layer.textures then Panic(UnwrapNone)
    else if layer.textures[texture].None? then Panic(TEX_NOT_IN_LAYER)
    else Ok(layer.textures[texture].value)
  }

  /** The lookup `set_texture` performs: a missing texture is an error, a
      texture without index a panic. */
  function CellForSetTexture(layer: LayerView, texture: TextureId): (r: Outcome<Cell>)
    ensures r.Ok? <==> texture in layer.textures && layer.textures[texture].Some?
    ensures r.Ok? ==> r.value == layer.textures[texture].value
    ensures texture !in layer.textures ==> r == Err(TextureNotInLayer)
    ensures texture in layer.textures && layer.textures[texture].None? ==> r == Panic(UnwrapNone)
  {
    if texture !in layer.textures then Err(TextureNotInLayer)
    else if layer.textures[texture].None? then Panic(UnwrapNone)
    else Ok(layer.textures[texture].value)
  }

  /** `to_raw`: the cell index converted componentwise, the size passed on. */
  function ToRaw(transform: Transform2D, index: Cell, size: TexCoordSize): (r: Entity2DRaw)
    ensures r.textureIndex.0 == index.column as real && r.textureIndex.1 == index.row as real
    ensures r.textureSize == size && r.transform == transform
  {
    Entity2DRaw(transform, (index.column as real, index.row as real), size)
  }

  /** Every integer below 2^24 has an exact `f32` image. */
  const F32_EXACT: nat := 0x100_0000

  /** Distinct cells give distinct raw records, for cells whose column and
      row `f32` represents exactly (every cell of an atlas of at most 8192
      texels per side is one). */
  lemma ToRawInjective(t: Transform2D, a: Cell, b: Cell, size: TexCoordSize)
    requires a.column < F32_EXACT && a.row < F32_EXACT && b.column < F32_EXACT && b.row < F32_EXACT
    requires ToRaw(t, a, size) == ToRaw(t, b, size)
    ensures a == b
  {
    var ra, rb := ToRaw(t, a, size), ToRaw(t, b, size);
    assert ra.textureIndex == rb.textureIndex;
  }

  /** The two lookups agree whenever either succeeds: they differ only in how
      they fail. */
  lemma LookupsAgree(layer: LayerView, texture: TextureId)
    ensures CellForNew(layer, texture).Ok? <==> CellForSetTexture(layer, texture).Ok?
    ensures CellForNew(layer, texture).Ok? ==> CellForNew(layer, texture) == CellForSetTexture(layer, texture)
  {
  }
}
