/** `GPURenderSimulation`: a point cloud of `totalParticles` vertices, each
    carrying the normalised texture coordinate of its own state pixel
    (`i2Texture`) and a zero position; the vertex program fetches the real
    position from the simulation's positions texture.

    The file relies on a simulation object that offers `textureDimensions`,
    `positionsTexture` and an argument-less `update()`. `SimulationHandle`
    stands for that object: its dimensions are any (w, h) with w, h >= 1, and
    the texture one update produces is a parameter. */
module GPURenderSimulation {
  import opened Three
  import TextureSizing

  const TotalParticles: nat := 8192

  /** Column of particle i's state pixel: `i % textureSize.x`. */
  function Column(i: nat, width: nat): (col: nat)
    requires width >= 1
  {
    i % width
  }

  /** Row of particle i's state pixel: `Math.floor(i / textureSize.x)`. */
  function Row(i: nat, width: nat): (row: nat)
    requires width >= 1
  {
    i / width
  }

  /** The linear index of pixel (col, row) in a texture `width` pixels wide. */
  function PixelIndex(col: nat, row: nat, width: nat): (i: nat)
  {
    row * width + col
  }

  /** Column and row are the pixel that holds index i: the column is within the
      texture's width and row * width + column == i. */
  lemma ColumnRowOfIndex(i: nat, width: nat)
    requires width >= 1
    ensures Column(i, width) < width
    ensures PixelIndex(Column(i, width), Row(i, width), width) == i
  {
  }

  /** Every pixel of the texture is the pixel of exactly one index. */
  lemma IndexOfPixel(col: nat, row: nat, width: nat)
    requires col < width
    ensures Column(PixelIndex(col, row, width), width) == col
    ensures Row(PixelIndex(col, row, width), width) == row
  {
    var i := PixelIndex(col, row, width);
    var r, c := Row(i, width), Column(i, width);
    ColumnRowOfIndex(i, width);
    if r < row {
      RowsApart(r, row, width);
      assert false;
    } else if row < r {
      RowsApart(row, r, width);
      assert false;
    }
  }

  /** Whole rows separate the pixels of different rows. */
  lemma {:induction false} RowsApart(r0: nat, r1: nat, width: nat)
    requires r0 < r1
    ensures r0 * width + width <= r1 * width
    decreases r1 - r0
  {
    if r0 + 1 < r1 {
      RowsApart(r0 + 1, r1, width);
    }
  }

  /** Row(i) is inside a texture `height` rows high exactly when i < width * height. */
  lemma RowInRange(i: nat, width: nat, height: nat)
    requires width >= 1
    ensures Row(i, width) < height <==> i < width * height
  {
    ColumnRowOfIndex(i, width);
    var c, r := Column(i, width), Row(i, width);
    if r < height {
      assert i < (r + 1) * width <= height * width;
    } else {
      assert height * width <= r * width <= i;
    }
  }

  /** a / b for naturals b >= 1: a non-negative real that times b is a, below 1 exactly when a < b. */
  lemma RealQuotient(a: nat, b: nat)
    requires b >= 1
    ensures var q := a as real / b as real;
            q * b as real == a as real && 0.0 <= q && (q < 1.0 <==> a < b)
  {
    var q := a as real / b as real;
    if q >= 1.0 {
      assert q * b as real >= 1.0 * b as real;
    }
  }

  /** The `i2Texture` value of particle i: ((i % w) / w, floor(i / w) / h). */
  function LookupCoordinate(i: nat, size: Vector2): (uv: (real, real))
    requires size.x >= 1 && size.y >= 1
    ensures 0.0 <= uv.0 < 1.0 && 0.0 <= uv.1
    ensures uv.1 < 1.0 <==> i < size.x * size.y
    ensures uv.0 * size.x as real == Column(i, size.x) as real
    ensures uv.1 * size.y as real == Row(i, size.x) as real
  {
    ColumnRowOfIndex(i, size.x);
    RowInRange(i, size.x, size.y);
    RealQuotient(Column(i, size.x), size.x);
    RealQuotient(Row(i, size.x), size.y);
    (Column(i, size.x) as real / size.x as real, Row(i, size.x) as real / size.y as real)
  }

  /** Distinct particles sample distinct state pixels. */
  lemma LookupCoordinateInjective(i: nat, j: nat, size: Vector2)
    requires size.x >= 1 && size.y >= 1
    requires LookupCoordinate(i, size) == LookupCoordinate(j, size)
    ensures i == j
  {
    var w, h := size.x as real, size.y as real;
    assert Column(i, size.x) as real == LookupCoordinate(i, size).0 * w;
    assert Row(i, size.x) as real == LookupCoordinate(i, size).1 * h;
    ColumnRowOfIndex(i, size.x);
    ColumnRowOfIndex(j, size.x);
  }

  /** The coordinates the code computes on a 4 x 2 texture. */
  lemma LookupCoordinateExamples()
    ensures LookupCoordinate(0, Vector2(4, 2)) == (0.0, 0.0)
    ensures LookupCoordinate(3, Vector2(4, 2)) == (0.75, 0.0)
    ensures LookupCoordinate(4, Vector2(4, 2)) == (0.0, 0.5)
  {
    assert Column(3, 4) == 3 && Row(3, 4) == 0;
    assert Column(4, 4) == 0 && Row(4, 4) == 1;
  }

  /** For the texture GPUSimulation allocates for 8192 particles (128 x 64), every
      particle's lookup coordinate lies in [0, 1) x [0, 1), and its state record
      lies inside the RGBA buffer of that texture. */
  lemma DefaultLookupsInRange(i: nat)
    requires i < TotalParticles
    ensures var size := TextureSizing.TextureDimensionsPot(TotalParticles);
            var uv := LookupCoordinate(i, size);
            0.0 <= uv.0 < 1.0 && 0.0 <= uv.1 < 1.0 &&
            4 * PixelIndex(Column(i, size.x), Row(i, size.x), size.x) + 3 < 4 * (size.x * size.y)
  {
    TextureSizing.TextureDimensionsExamples(TotalParticles);
    ColumnRowOfIndex(i, 128);
  }

  /** The `i2Texture` attribute array: two entries per particle, particle i's
      coordinate at 2i and 2i + 1 (`setXY(i, u, v)`). */
  function LookupAttribute(count: nat, size: Vector2): (s: seq<real>)
    requires size.x >= 1 && size.y >= 1
    ensures |s| == 2 * count
  {
    seq(2 * count, k requires 0 <= k < 2 * count =>
      if k % 2 == 0 then LookupCoordinate(k / 2, size).0 else LookupCoordinate(k / 2, size).1)
  }

  lemma LookupAttributeAt(count: nat, size: Vector2, i: nat)
    requires size.x >= 1 && size.y >= 1 && i < count
    ensures LookupAttribute(count, size)[2 * i] == LookupCoordinate(i, size).0
    ensures LookupAttribute(count, size)[2 * i + 1] == LookupCoordinate(i, size).1
  {
    assert (2 * i) / 2 == i && (2 * i + 1) / 2 == i;
  }

  /** The simulation object the render side expects. */
  class SimulationHandle {
    const textureDimensions: Vector2
    var positionsTexture: Texture
    ghost var ticks: nat

    constructor (textureDimensions: Vector2, positionsTexture: Texture)
      ensures this.textureDimensions == textureDimensions
      ensures this.positionsTexture == positionsTexture && ticks == 0
    {
      this.textureDimensions := textureDimensions;
      this.positionsTexture := positionsTexture;
      ticks := 0;
    }

    /** One simulation step; `next` is the positions texture it produces. */
    method Update(next: Texture)
      modifies this
      ensures positionsTexture == next && ticks == old(ticks) + 1
    {
      positionsTexture := next;
      ticks := ticks + 1;
    }
  }

  class RenderSimulation {
    const simulation: SimulationHandle
    /** The `position` attribute: three entries per particle. */
    const positionsArray: array<real>
    /** The `i2Texture` attribute: two entries per particle. */
    const textureArray: array<real>
    var uPositionsTexture: Texture
    var uSize: real

    ghost predicate Valid()
      reads this, positionsArray, textureArray
    {
      var size := simulation.textureDimensions;
      size.x >= 1 && size.y >= 1 &&
      positionsArray.Length == 3 * TotalParticles &&
      textureArray.Length == 2 * TotalParticles &&
      (forall k :: 0 <= k < positionsArray.Length ==> positionsArray[k] == 0.0) &&
      textureArray[..] == LookupAttribute(TotalParticles, size)
    }

    /** The constructor: fills both attribute arrays for particles 0 .. totalParticles - 1
        and binds the simulation's current positions texture. */
    constructor (simulation: SimulationHandle)
      requires simulation.textureDimensions.x >= 1 && simulation.textureDimensions.y >= 1
      ensures Valid()
      ensures this.simulation == simulation
      ensures fresh(positionsArray) && fresh(textureArray)
      ensures uPositionsTexture == simulation.positionsTexture && uSize == 25.0
    {
      this.simulation := simulation;
      var size := simulation.textureDimensions;
      // Float32Array starts zero-filled.
      var positions := new real[TotalParticles * 3](_ => 0.0);
      var lookups := new real[TotalParticles * 2](_ => 0.0);
      for i := 0 to TotalParticles
        invariant forall k :: 0 <= k < 2 * i ==> lookups[k] == LookupAttribute(TotalParticles, size)[k]
        invariant forall k :: 0 <= k < positions.Length ==> positions[k] == 0.0
      {
        // setXY(i, u, v)
        var uv := LookupCoordinate(i, size);
        lookups[2 * i] := uv.0;
        lookups[2 * i + 1] := uv.1;
        LookupAttributeAt(TotalParticles, size, i);
        // setXYZ(i, 0, 0, 0)
        positions[3 * i] := 0.0;
        positions[3 * i + 1] := 0.0;
        positions[3 * i + 2] := 0.0;
      }
      positionsArray := positions;
      textureArray := lookups;
      uPositionsTexture := simulation.positionsTexture;
      uSize := 25.0;
    }

    /** `update()`: advances the simulation, then samples its new positions texture;
        nothing else changes. */
    method Update(next: Texture)
      requires Valid()
      modifies this, simulation
      ensures Valid()
      ensures simulation.ticks == old(simulation.ticks) + 1
      ensures simulation.positionsTexture == next
      ensures uPositionsTexture == simulation.positionsTexture
      ensures uSize == old(uSize)
    {
      simulation.Update(next);
      uPositionsTexture := simulation.positionsTexture;
    }
  }
}
