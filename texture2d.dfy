/** The texture record (id, file path, size, atlas cell) and the sampler and
    upload choices made when an atlas image is turned into a GPU texture. */
module Texture {
  import opened Common

  /** A texture of a layer. `index` is the atlas cell, absent until the atlas
      has placed the texture; width and height are 0 until then. */
  class WebTexture2D {
    const id: TextureId
    const path: string
    var width: nat
    var height: nat
    var index: Option<Cell>

    constructor (id: TextureId, path: string)
      ensures this.id == id && this.path == path
      ensures width == 0 && height == 0 && index == None
    {
      this.id := id;
      this.path := path;
      width := 0;
      height := 0;
      index := None;
    }

    /** `WebTexture2DSystem::set_index`. */
    method SetIndex(cell: Cell)
      modifies this
      ensures index == Some(cell)
      ensures width == old(width) && height == old(height)
    {
      index := Some(cell);
    }

    /** `WebTexture2DSystem::set_dimensions`. */
    method SetDimensions(width: nat, height: nat)
      modifies this
      ensures this.width == width && this.height == height
      ensures index == old(index)
    {
      this.width := width;
      this.height := height;
    }
  }

  datatype FilterMode = Nearest | Linear

  datatype AddressMode = ClampToEdge | Repeat | MirrorRepeat | ClampToBorder

  datatype SamplerDescriptor = SamplerDescriptor(
    addressModeU: AddressMode, addressModeV: AddressMode, addressModeW: AddressMode,
    magFilter: FilterMode, minFilter: FilterMode, mipmapFilter: FilterMode)

  /** The sampler built in `init_texture`: pixel art is magnified without
      smoothing, everything else linearly; minification never smooths. */
  function SamplerFor(pixelArt: bool): (s: SamplerDescriptor)
    ensures s.magFilter == Nearest <==> pixelArt
    ensures s.magFilter == Linear <==> !pixelArt
    ensures s.minFilter == Nearest && s.mipmapFilter == Nearest
    ensures s.addressModeU == s.addressModeV == s.addressModeW == ClampToEdge
  {
    var mag := if pixelArt then Nearest else Linear;
    SamplerDescriptor(ClampToEdge, ClampToEdge, ClampToEdge, mag, Nearest, Nearest)
  }

  /** Layout of the RGBA8 upload: rows are tightly packed, 4 bytes per texel. */
  datatype ImageDataLayout = ImageDataLayout(offset: nat, bytesPerRow: nat, rowsPerImage: nat)

  const BYTES_PER_TEXEL: nat := 4

  /** The layout `init_texture` passes to `write_texture` for an extent; the
      row length is computed in 32-bit arithmetic, so the extent must be
      narrower than 2^30 texels. */
  function UploadLayout(extent: Size): (l: ImageDataLayout)
    requires IsU32(extent.width * BYTES_PER_TEXEL)
    ensures l.offset == 0 && l.rowsPerImage == extent.height
    ensures l.bytesPerRow / BYTES_PER_TEXEL == extent.width && l.bytesPerRow % BYTES_PER_TEXEL == 0
    ensures IsU32(l.bytesPerRow)
  {
    ImageDataLayout(0, extent.width * BYTES_PER_TEXEL, extent.height)
  }
}
