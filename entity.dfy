/** `Entity2D` of the core crate: a sprite bound to one texture of one
    layer, remembering the texture's atlas cell and the layer's cell size. */
module CoreEntity {
  import opened Common
  import opened EntityBinding

  class Entity2D {
    var layer: LayerId
    var transform: Transform2D
    var texture: TextureId
    var textureIndex: Cell
    var textureSize: TexCoordSize

    constructor (layer: LayerId, transform: Transform2D, texture: TextureId, textureIndex: Cell, textureSize: TexCoordSize)
      ensures this.layer == layer && this.transform == transform && this.texture == texture
      ensures this.textureIndex == textureIndex && this.textureSize == textureSize
    {
      this.layer := layer;
      this.transform := transform;
      this.texture := texture;
      this.textureIndex := textureIndex;
      this.textureSize := textureSize;
    }

    /** `to_raw`. */
    function ToRawRecord(): (r: Entity2DRaw)
      reads this
      ensures r == ToRaw(transform, textureIndex, textureSize)
    {
      ToRaw(transform, textureIndex, textureSize)
    }

    /** `EntitySystem2D::set_texture`: a texture missing from the layer is an
        error and one the atlas has not placed a panic, both before any field
        changes; otherwise the cell, the cell size, the layer and the texture
        are replaced and the transform is kept. */
    method SetTexture(texture: TextureId, layer: LayerView) returns (r: Outcome<()>)
      modifies this
      ensures var lookup := CellForSetTexture(layer, texture);
              (lookup.Err? ==> r == Err(lookup.error)) && (lookup.Panic? ==> r == Panic(lookup.message))
      ensures !r.Ok? ==> unchanged(this)
      ensures r.Ok? <==> texture in layer.textures && layer.textures[texture].Some?
      ensures r.Ok? ==>
                this.textureIndex == layer.textures[texture].value && this.textureSize == layer.texCoordSize &&
                this.layer == layer.id && this.texture == texture && this.transform == old(this.transform)
    {
      var lookup := CellForSetTexture(layer, texture);
      match lookup {
        case Err(e) => return Err(e);
        case Panic(m) => return Panic(m);
        case Ok(cell) =>
          this.textureIndex := cell;
          this.textureSize := layer.texCoordSize;
          this.layer := layer.id;
          this.texture := texture;
          return Ok(());
      }
    }
  }

  /** `Entity2D::new`: panics when the texture is not in the layer or has
      no cell; otherwise the entity copies the cell, the layer's cell size
      and the layer id, and is translated to `position`. */
  method New(position: Vector3, layer: LayerView, texture: TextureId) returns (r: Outcome<Entity2D>)
    ensures var lookup := CellForNew(layer, texture);
            (lookup.Ok? <==> r.Ok?) && (lookup.Panic? ==> r == Panic(lookup.message))
    ensures r.Ok? ==>
              fresh(r.value) && r.value.layer == layer.id && r.value.texture == texture &&
              r.value.textureIndex == layer.textures[texture].value && r.value.textureSize == layer.texCoordSize &&
              r.value.transform == Transform2D(position)
  {
    var lookup := CellForNew(layer, texture);
    match lookup {
      case Err(e) => return Err(e);
      case Panic(m) => return Panic(m);
      case Ok(cell) =>
        var entity := new Entity2D(layer.id, Transform2D(position), texture, cell, layer.texCoordSize);
        return Ok(entity);
    }
  }
}
