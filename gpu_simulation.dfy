/** `GPUSimulation`: allocates the power-of-two state texture, fills its RGBA
    float buffer (three random channels and a 1 per pixel), and accumulates
    simulation time frame by frame. `Math.random` is an input sequence of
    values, consumed three per pixel in call order. */
module GPUSimulation {
  import opened Three
  import opened TextureSizing

  /** The buffer the fill loop produces for `pixels` pixels from the random stream
      `randoms`: pixel p holds randoms[3p], randoms[3p+1], randoms[3p+2] and 1. */
  function InitialState(randoms: seq<real>, pixels: nat): (s: seq<real>)
    requires |randoms| == 3 * pixels
    ensures |s| == 4 * pixels
  {
    seq(4 * pixels, k requires 0 <= k < 4 * pixels =>
      if k % 4 == 3 then 1.0 else randoms[3 * (k / 4) + k % 4])
  }

  /** Channels 0 to 2 of every pixel of an RGBA buffer, in order. */
  function XyzChannels(s: seq<real>): (r: seq<real>)
    requires |s| % 4 == 0
    ensures |r| == 3 * (|s| / 4)
  {
    seq(3 * (|s| / 4), k requires 0 <= k < 3 * (|s| / 4) => s[4 * (k / 3) + k % 3])
  }

  /** Pixel p of the initial buffer holds the three random values drawn for it, then 1. */
  lemma InitialStatePixel(randoms: seq<real>, pixels: nat, p: nat)
    requires |randoms| == 3 * pixels && p < pixels
    ensures var s := InitialState(randoms, pixels);
            s[4 * p] == randoms[3 * p] &&
            s[4 * p + 1] == randoms[3 * p + 1] &&
            s[4 * p + 2] == randoms[3 * p + 2] &&
            s[4 * p + 3] == 1.0
  {
    assert (4 * p) / 4 == p && (4 * p + 1) / 4 == p && (4 * p + 2) / 4 == p && (4 * p + 3) / 4 == p;
  }

  /** Reading back channels 0 to 2 of the initial buffer gives the random stream. */
  lemma XyzChannelsOfInitialState(randoms: seq<real>, pixels: nat)
    requires |randoms| == 3 * pixels
    ensures XyzChannels(InitialState(randoms, pixels)) == randoms
  {
    var s := InitialState(randoms, pixels);
    var r := XyzChannels(s);
    forall k | 0 <= k < |randoms|
      ensures r[k] == randoms[k]
    {
      var p, c := k / 3, k % 3;
      assert k == 3 * p + c;
      InitialStatePixel(randoms, pixels, p);
      assert r[k] == s[4 * p + c];
    }
  }

  /** With random values in [0, 1), channels 0 to 2 lie in [0, 1) and channel 3 is 1. */
  lemma InitialStateInUnitRange(randoms: seq<real>, pixels: nat)
    requires |randoms| == 3 * pixels
    requires forall k :: 0 <= k < |randoms| ==> 0.0 <= randoms[k] < 1.0
    ensures var s := InitialState(randoms, pixels);
            forall k :: 0 <= k < |s| ==> if k % 4 == 3 then s[k] == 1.0 else 0.0 <= s[k] < 1.0
  {
    var s := InitialState(randoms, pixels);
    forall k | 0 <= k < |s|
      ensures if k % 4 == 3 then s[k] == 1.0 else 0.0 <= s[k] < 1.0
    {
      var p, c := k / 4, k % 4;
      InitialStatePixel(randoms, pixels, p);
      assert k == 4 * p + c;
    }
  }

  /** `initializeTextureSource`: sizes the texture for `particleCount` items and fills
      every one of its w*h pixels, padding pixels at index >= particleCount included. */
  method InitializeTextureSource(particleCount: nat, randoms: seq<real>)
    returns (textureDimensions: Vector2, buffer: array<real>)
    requires particleCount >= 1
    requires |randoms| == 3 * NextPowerOfTwo(particleCount)
    ensures textureDimensions == TextureDimensionsPot(particleCount)
    ensures fresh(buffer)
    ensures buffer.Length == 4 * (textureDimensions.x * textureDimensions.y)
    ensures buffer[..] == InitialState(randoms, textureDimensions.x * textureDimensions.y)
  {
    textureDimensions := TextureDimensionsPot(particleCount);
    var potParticleCount := textureDimensions.x * textureDimensions.y;
    buffer := new real[potParticleCount * 4];
    for i := 0 to potParticleCount
      invariant forall k :: 0 <= k < 4 * i ==> buffer[k] == InitialState(randoms, potParticleCount)[k]
    {
      buffer[i * 4 + 0] := randoms[i * 3 + 0];
      buffer[i * 4 + 1] := randoms[i * 3 + 1];
      buffer[i * 4 + 2] := randoms[i * 3 + 2];
      buffer[i * 4 + 3] := 1.0;
      InitialStatePixel(randoms, potParticleCount, i);
    }
  }

  /** The total of a sequence of frame deltas. */
  function Sum(dts: seq<real>): (total: real)
  {
    if dts == [] then 0.0 else dts[0] + Sum(dts[1..])
  }

  lemma {:induction false} SumAppend(dts: seq<real>, dt: real)
    ensures Sum(dts + [dt]) == Sum(dts) + dt
  {
    if dts != [] {
      assert (dts + [dt])[1..] == dts[1..] + [dt];
      SumAppend(dts[1..], dt);
    }
  }

  /** The simulation object: its state texture, laid out for `particleCount` items,
      and the time it has accumulated. `dts` records every delta passed to Update. */
  class Simulation {
    const particleCount: nat
    const renderer: Renderer
    const textureDimensions: Vector2
    const dataTexture: array<real>
    const material: Material
    var time: real
    ghost var dts: seq<real>

    ghost predicate Valid()
      reads this
    {
      particleCount >= 1 &&
      textureDimensions == TextureDimensionsPot(particleCount) &&
      dataTexture.Length == 4 * (textureDimensions.x * textureDimensions.y) &&
      time == Sum(dts)
    }

    /** The constructor's `setup`: fills the state texture and builds the material
        that samples it. */
    constructor (particleCount: nat, renderer: Renderer, randoms: seq<real>)
      requires particleCount >= 1
      requires |randoms| == 3 * NextPowerOfTwo(particleCount)
      ensures Valid()
      ensures this.particleCount == particleCount && this.renderer == renderer
      ensures time == 0.0 && dts == []
      ensures fresh(dataTexture) && fresh(material)
      ensures dataTexture[..] == InitialState(randoms, textureDimensions.x * textureDimensions.y)
    {
      this.particleCount := particleCount;
      this.renderer := renderer;
      var dimensions, buffer := InitializeTextureSource(particleCount, randoms);
      textureDimensions := dimensions;
      dataTexture := buffer;
      material := new Material();
      time := 0.0;
      dts := [];
    }

    /** `update(dt)`: advances time by exactly dt and draws the simulation scene
        once into the renderer's current target. */
    method Update(dt: real)
      requires Valid()
      modifies this, renderer
      ensures Valid()
      ensures time == old(time) + dt
      ensures dts == old(dts) + [dt] && time == Sum(dts)
      ensures renderer.currentTarget == old(renderer.currentTarget)
      ensures renderer.draws == old(renderer.draws) + [Draw(renderer.currentTarget, material)]
    {
      SumAppend(dts, dt);
      time := time + dt;
      dts := dts + [dt];
      renderer.Render(material);
    }
  }
}
