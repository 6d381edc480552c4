/** Opaque stand-ins for the three.js objects the simulation core talks to.
    Textures, materials and render targets are handles whose identity is all
    that matters; the renderer is reduced to the render target it currently
    draws into and a ghost log of the draws it has executed. */
module Three {

  /** A size with integer components (three.js `Vector2`; `x` is the width, `y` the height). */
  datatype Vector2 = Vector2(x: nat, y: nat)

  datatype Filter = NearestFilter | LinearFilter

  datatype Format = RGBAFormat

  datatype TextureType = FloatType | HalfFloatType

  /** The options record handed to `new WebGLRenderTarget`. */
  datatype RenderTargetOptions = RenderTargetOptions(
    magFilter: Filter,
    minFilter: Filter,
    format: Format,
    textureType: TextureType,
    depthBuffer: bool,
    generateMipmaps: bool)

  /** A GPU texture; only its identity is modelled. */
  class Texture {
    constructor () {}
  }

  /** A shader material (the GPU program of one pass); only its identity is modelled. */
  class Material {
    constructor () {}
  }

  /** An off-screen framebuffer with the texture it renders into. */
  class RenderTarget {
    const width: nat
    const height: nat
    const options: RenderTargetOptions
    const texture: Texture

    constructor (width: nat, height: nat, options: RenderTargetOptions)
      ensures this.width == width && this.height == height && this.options == options
      ensures fresh(texture)
    {
      this.width := width;
      this.height := height;
      this.options := options;
      texture := new Texture();
    }
  }

  /** One executed `renderer.render` call: the target it drew into (`null` is the
      canvas) and the material of the scene it drew. */
  datatype Draw = Draw(target: RenderTarget?, material: Material?)

  /** The part of `WebGLRenderer` the core relies on. */
  class Renderer {
    var currentTarget: RenderTarget?
    ghost var draws: seq<Draw>

    constructor ()
      ensures currentTarget == null && draws == []
    {
      currentTarget := null;
      draws := [];
    }

    /** `renderer.setRenderTarget(target)`: redirects later draws, draws nothing. */
    method SetRenderTarget(target: RenderTarget?)
      modifies this
      ensures currentTarget == target && draws == old(draws)
    {
      currentTarget := target;
    }

    /** `renderer.render(scene, camera)` for a scene drawn with `material`:
        one draw into the current target, which stays current. */
    method Render(material: Material?)
      modifies this
      ensures currentTarget == old(currentTarget)
      ensures draws == old(draws) + [Draw(currentTarget, material)]
    {
      draws := draws + [Draw(currentTarget, material)];
    }
  }
}
