/** `PingPongRendertarget`: two equally sized off-screen targets and a
    full-screen quad. Each pass draws the quad into the target selected by
    `pingpong`, restores the renderer's target to null, flips `pingpong` and
    returns the texture it just wrote. */
module PingPong {
  import opened Three

  /** The value of `pingpong` after n passes: 0 at first, `1 - pingpong` after each pass. */
  function PingpongAfter(n: nat): (p: int)
    ensures p == 0 || p == 1
  {
    if n == 0 then 0 else 1 - PingpongAfter(n - 1)
  }

  /** After n passes `pingpong` is n mod 2. */
  lemma {:induction false} PingpongAfterIsParity(n: nat)
    ensures PingpongAfter(n) == n % 2
  {
    if n > 0 {
      PingpongAfterIsParity(n - 1);
    }
  }

  /** The options `setup` gives both render targets: nearest filtering, RGBA, no depth
      buffer, no mipmaps, and half-float texels exactly on iOS. */
  function TargetOptions(iOS: bool): (opt: RenderTargetOptions)
    ensures opt.textureType == HalfFloatType <==> iOS
    ensures opt.textureType == FloatType <==> !iOS
    ensures opt.magFilter == NearestFilter && opt.minFilter == NearestFilter
    ensures opt.format == RGBAFormat && !opt.depthBuffer && !opt.generateMipmaps
  {
    RenderTargetOptions(
      magFilter := NearestFilter,
      minFilter := NearestFilter,
      format := RGBAFormat,
      textureType := if iOS then HalfFloatType else FloatType,
      depthBuffer := false,
      generateMipmaps := false)
  }

  class PingPongRendertarget {
    var pingpong: int
    const rts: array<RenderTarget?>
    /** `quad.material`: three.js's default mesh material until the first pass
        replaces it. */
    var quadMaterial: Material
    const size: Vector2
    const renderer: Renderer
    /** The device flag `setup` reads once to choose the targets' precision. */
    const iOS: bool
    /** The index into `rts` each pass so far drew into, oldest first. */
    ghost var writes: seq<int>

    ghost predicate Valid()
      reads this, rts
    {
      rts.Length == 2 && rts[0] != null && rts[1] != null &&
      rts[0] != rts[1] && rts[0].texture != rts[1].texture &&
      rts[0].width == size.x && rts[0].height == size.y &&
      rts[1].width == size.x && rts[1].height == size.y &&
      rts[0].options == rts[1].options && rts[0].options == TargetOptions(iOS) &&
      pingpong == PingpongAfter(|writes|) &&
      forall n :: 0 <= n < |writes| ==> writes[n] == PingpongAfter(n)
    }

    /** The constructor and its `setup`: two distinct targets of the same size and
        options, precision chosen once from the device flag. */
    constructor (size: Vector2, renderer: Renderer, iOS: bool)
      ensures Valid()
      ensures this.size == size && this.renderer == renderer && this.iOS == iOS
      ensures pingpong == 0 && writes == [] && fresh(quadMaterial)
      ensures fresh(rts) && fresh(rts[0]) && fresh(rts[1])
      ensures rts[0].options == TargetOptions(iOS)
    {
      this.size := size;
      this.renderer := renderer;
      this.iOS := iOS;
      pingpong := 0;
      quadMaterial := new Material();
      writes := [];
      var opt := TargetOptions(iOS);
      var targets := new RenderTarget?[2];
      targets[0] := new RenderTarget(size.x, size.y, opt);
      targets[1] := new RenderTarget(size.x, size.y, opt);
      rts := targets;
    }

    /** `pass(material)`: draws into rts[pingpong] and returns that target's texture,
        which is not the target the next pass will write. */
    method Pass(material: Material) returns (texture: Texture)
      requires Valid()
      modifies this, renderer
      ensures Valid()
      ensures quadMaterial == material
      ensures writes == old(writes) + [old(pingpong)]
      ensures pingpong == 1 - old(pingpong) && pingpong == |writes| % 2
      ensures texture == rts[old(pingpong)].texture
      ensures texture != rts[pingpong].texture
      ensures renderer.currentTarget == null
      ensures renderer.draws == old(renderer.draws) + [Draw(rts[old(pingpong)], material)]
      ensures rts[..] == old(rts[..])
    {
      // Set the material that holds the program of this pass.
      quadMaterial := material;
      renderer.SetRenderTarget(rts[pingpong]);
      renderer.Render(quadMaterial);
      renderer.SetRenderTarget(null);
      writes := writes + [pingpong];
      pingpong := 1 - pingpong;
      PingpongAfterIsParity(|writes|);
      texture := rts[1 - pingpong].texture;
    }
  }
}
