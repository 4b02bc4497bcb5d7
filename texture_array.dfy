/** `TextureArray::new`: a validation pass over the textures of an array.
    It refuses more than 256 textures, then opens the textures one by one and
    compares each texture's recorded size with the requested size. The
    construction itself is unfinished, so a pass that finds nothing wrong
    ends in a panic. */
module TextureArray {
  import opened Common
  import opened Texture

  const MAX_TEXTURE_ARRAY_SIZE: nat := 256

  /** The value a finished construction would return (it is never built). */
  datatype TextureArrayInfo = TextureArrayInfo(textureSize: Size)

  /** Texture i passes when its file opens and its recorded size is the
      requested one. The decoded size plays no part in the decision. */
  predicate Passes(texture: WebTexture2D, image: Decoded, expected: Size)
    reads texture
  {
    image.Image? && Size(texture.width, texture.height) == expected
  }

  /** The checking loop from index i on. */
  function CheckFrom(textures: seq<WebTexture2D>, images: seq<Decoded>, expected: Size, i: nat)
    : (r: Outcome<TextureArrayInfo>)
    requires i <= |textures| == |images|
    reads textures
    decreases |textures| - i
    ensures !r.Ok?
    ensures r.Err? && r.error.DimensionMismatch? ==>
              i <= r.error.index < |textures| && images[r.error.index].Image? &&
              Size(textures[r.error.index].width, textures[r.error.index].height) != expected &&
              forall j :: i <= j < r.error.index ==> Passes(textures[j], images[j], expected)
  {
    if i == |textures| then Panic(NotYetImplemented)
    else if images[i].OpenError? then Err(ImageError(images[i].reason))
    else if Size(textures[i].width, textures[i].height) != expected then
      // the message reports the decoded size, not the compared one
      Err(DimensionMismatch(expected, Size(images[i].width, images[i].height), i))
    else CheckFrom(textures, images, expected, i + 1)
  }

  /** `TextureArray::new`, where `images[i]` is what opening the file of
      `textures[i]` yields. */
  function New(textures: seq<WebTexture2D>, images: seq<Decoded>, expected: Size)
    : (r: Outcome<TextureArrayInfo>)
    requires |images| == |textures|
    reads textures
    ensures !r.Ok?
  {
    if |textures| > MAX_TEXTURE_ARRAY_SIZE then Err(TooManyTextures(|textures|))
    else CheckFrom(textures, images, expected, 0)
  }

  /** The outcome of the check loop is decided by the first failing index d:
      an open error there is propagated, a size mismatch there is reported
      with d, and with no failing index the unfinished construction panics. */
  lemma {:induction false} CheckFromFirstFailure(
    textures: seq<WebTexture2D>, images: seq<Decoded>, expected: Size, i: nat, d: nat)
    requires i <= d <= |textures| == |images|
    requires forall j :: i <= j < d ==> Passes(textures[j], images[j], expected)
    requires d < |textures| ==> !Passes(textures[d], images[d], expected)
    ensures CheckFrom(textures, images, expected, i) ==
            if d == |textures| then Panic(NotYetImplemented)
            else if images[d].OpenError? then Err(ImageError(images[d].reason))
            else Err(DimensionMismatch(expected, Size(images[d].width, images[d].height), d))
    decreases d - i
  {
    if i < d {
      CheckFromFirstFailure(textures, images, expected, i + 1, d);
    }
  }

  /** `TextureArray::new` in terms of the first failing index d: the count is
      checked before any file is opened; after it, the first texture whose
      file does not open or whose recorded size differs decides the error. */
  lemma FirstFailureDecides(textures: seq<WebTexture2D>, images: seq<Decoded>, expected: Size, d: nat)
    requires |images| == |textures| && d <= |textures|
    requires forall j :: 0 <= j < d ==> Passes(textures[j], images[j], expected)
    requires d < |textures| ==> !Passes(textures[d], images[d], expected)
    ensures New(textures, images, expected) ==
            if |textures| > MAX_TEXTURE_ARRAY_SIZE then Err(TooManyTextures(|textures|))
            else if d == |textures| then Panic(NotYetImplemented)
            else if images[d].OpenError? then Err(ImageError(images[d].reason))
            else Err(DimensionMismatch(expected, Size(images[d].width, images[d].height), d))
  {
    if |textures| <= MAX_TEXTURE_ARRAY_SIZE {
      CheckFromFirstFailure(textures, images, expected, 0, d);
    }
  }

  /** The unfinished construction is reached exactly when the count is within
      the limit and every texture passes. */
  lemma {:induction false} PanicsIffAllPass(textures: seq<WebTexture2D>, images: seq<Decoded>, expected: Size)
    requires |images| == |textures|
    ensures New(textures, images, expected) == Panic(NotYetImplemented) <==>
            |textures| <= MAX_TEXTURE_ARRAY_SIZE &&
            forall j :: 0 <= j < |textures| ==> Passes(textures[j], images[j], expected)
  {
    if |textures| <= MAX_TEXTURE_ARRAY_SIZE {
      var d := FirstFailing(textures, images, expected, 0);
      FirstFailureDecides(textures, images, expected, d);
    }
  }

  /** Index of the first texture from i on that does not pass. */
  function FirstFailing(textures: seq<WebTexture2D>, images: seq<Decoded>, expected: Size, i: nat): (d: nat)
    requires i <= |textures| == |images|
    reads textures
    decreases |textures| - i
    ensures i <= d <= |textures|
    ensures forall j :: i <= j < d ==> Passes(textures[j], images[j], expected)
    ensures d < |textures| ==> !Passes(textures[d], images[d], expected)
  {
    if i == |textures| || !Passes(textures[i], images[i], expected) then i
    else FirstFailing(textures, images, expected, i + 1)
  }
}
