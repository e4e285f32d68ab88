/**
 * The renderer's plain data types (hell_renderer `render_types/mod.rs`):
 * `RenderData`, three parallel vectors of what to draw, with its iterator;
 * the vertex attribute `NumberFormat`; and `ValueRange`/`MemRange`.
 */
module RenderTypes {
  import opened Wrappers
  import opened Common

  /** `config::FRAMES_IN_FLIGHT`, the length of every `PerFrame` array. */
  const FRAMES_IN_FLIGHT: nat := 3

  /** `INVALID_USIZE`. */
  const INVALID_USIZE: nat := USIZE_MAX

  // ---------------------------------------------------------------------
  // NumberFormat
  // ---------------------------------------------------------------------

  /** A vertex attribute format; `Undefined` is the default. */
  datatype NumberFormat = Undefined | R32G32Sfloat | R32G32B32Sfloat | R32G32B32A32Sfloat

  const DEFAULT_NUMBER_FORMAT: NumberFormat := Undefined

  /** `size_of::<f32>()`. */
  const F32_SIZE: nat := 4

  /** The number of 32-bit floats the format's name lists. */
  function ComponentCount(f: NumberFormat): (n: nat)
    ensures n <= 4
  {
    match f
    case Undefined => 0
    case R32G32Sfloat => 2
    case R32G32B32Sfloat => 3
    case R32G32B32A32Sfloat => 4
  }

  /** `NumberFormat::size`: 8, 12 and 16 bytes for two, three and four floats; 0 when undefined. */
  function Size(f: NumberFormat): (n: nat)
    ensures n == F32_SIZE * ComponentCount(f)
    ensures f.Undefined? <==> n == 0
  {
    match f
    case Undefined => 0
    case R32G32Sfloat => 8
    case R32G32B32Sfloat => 12
    case R32G32B32A32Sfloat => 16
  }

  /** `VkFormat` values of the formats used (Vulkan's `VK_FORMAT_*` enumerants). */
  const VK_FORMAT_UNDEFINED: nat := 0
  const VK_FORMAT_R32G32_SFLOAT: nat := 103
  const VK_FORMAT_R32G32B32_SFLOAT: nat := 106
  const VK_FORMAT_R32G32B32A32_SFLOAT: nat := 109

  /** `NumberFormat::to_vk_format`. */
  function ToVkFormat(f: NumberFormat): (vk: nat)
  {
    match f
    case Undefined => VK_FORMAT_UNDEFINED
    case R32G32Sfloat => VK_FORMAT_R32G32_SFLOAT
    case R32G32B32Sfloat => VK_FORMAT_R32G32B32_SFLOAT
    case R32G32B32A32Sfloat => VK_FORMAT_R32G32B32A32_SFLOAT
  }

  /** Distinct formats map to distinct Vulkan formats, and only `Undefined` to `VK_FORMAT_UNDEFINED`. */
  lemma ToVkFormatInjective(f: NumberFormat, g: NumberFormat)
    ensures ToVkFormat(f) == ToVkFormat(g) ==> f == g
    ensures ToVkFormat(f) == VK_FORMAT_UNDEFINED <==> Size(f) == 0
  {
  }

  // ---------------------------------------------------------------------
  // ValueRange
  // ---------------------------------------------------------------------

  /** `ValueRange<usize>`, alias `MemRange`: a start and a length. */
  datatype ValueRange = ValueRange(offset: nat, range: nat)

  type MemRange = ValueRange

  /** `ValueRange::default`: both fields at their default, zero. */
  const DEFAULT_RANGE: ValueRange := ValueRange(0, 0)

  /** The first position after the range. */
  function End(r: ValueRange): (e: nat)
    ensures e >= r.offset && e - r.offset == r.range
  {
    r.offset + r.range
  }

  // ---------------------------------------------------------------------
  // RenderData
  // ---------------------------------------------------------------------

  /** `RenderDataChunk`: what one entry of `RenderData` holds. */
  datatype RenderDataChunk = RenderDataChunk(meshIdx: nat, transform: Transform, material: ResourceHandle)

  class RenderData {
    var meshes: seq<nat>
    var transforms: seq<Transform>
    var materials: seq<ResourceHandle>

    /** The three vectors grow in lockstep. */
    ghost predicate Valid()
      reads this
    {
      |transforms| == |meshes| && |materials| == |meshes|
    }

    /** `RenderData::default`: all three vectors empty. */
    constructor ()
      ensures Valid() && Len() == 0
      ensures meshes == [] && transforms == [] && materials == []
    {
      meshes := [];
      transforms := [];
      materials := [];
    }

    /** `len`: the number of meshes. */
    function Len(): (n: nat)
      reads this
      ensures n == |meshes|
    {
      |meshes|
    }

    function IsEmpty(): (b: bool)
      reads this
      ensures b <==> Len() == 0
    {
      Len() == 0
    }

    /** `data_at`: the `idx`-th entry of each vector (an index out of range panics). */
    function DataAt(idx: nat): (c: RenderDataChunk)
      requires Valid() && idx < Len()
      reads this
      ensures c.meshIdx == meshes[idx] && c.transform == transforms[idx] && c.material == materials[idx]
    {
      RenderDataChunk(meshes[idx], transforms[idx], materials[idx])
    }

    /**
     * `add_data`: one entry appended to each vector; the result is the new
     * length, so the new entry is at `n - 1` and the earlier ones stay.
     */
    method AddData(meshIdx: nat, material: ResourceHandle, trans: Transform) returns (n: nat)
      requires Valid()
      modifies this
      ensures Valid()
      ensures meshes == old(meshes) + [meshIdx]
      ensures transforms == old(transforms) + [trans]
      ensures materials == old(materials) + [material]
      ensures n == Len() == old(Len()) + 1
      ensures DataAt(n - 1) == RenderDataChunk(meshIdx, trans, material)
      ensures forall i :: 0 <= i < old(Len()) ==> DataAt(i) == old(DataAt(i))
    {
      meshes := meshes + [meshIdx];
      transforms := transforms + [trans];
      materials := materials + [material];
      n := Len();
    }
  }

  /** `RenderDataIter`: walks a `RenderData` from its first entry. */
  class RenderDataIter {
    var idx: nat
    const renderData: RenderData

    /** `RenderDataIter::new` (and `RenderData::iter`): starts at entry 0. */
    constructor (renderData: RenderData)
      ensures this.renderData == renderData && idx == 0
    {
      this.renderData := renderData;
      idx := 0;
    }

    /**
     * `Iterator::next`: the entry at `idx`, moving on by one, or `None` once
     * all `len` entries have been yielded (and then forever, since `idx` no
     * longer moves).
     */
    method Next() returns (r: Option<RenderDataChunk>)
      requires renderData.Valid()
      modifies this
      ensures old(idx) < renderData.Len() ==> r == Some(renderData.DataAt(old(idx))) && idx == old(idx) + 1
      ensures old(idx) >= renderData.Len() ==> r == None && idx == old(idx)
    {
      if renderData.Len() > idx {
        r := Some(renderData.DataAt(idx));
        idx := idx + 1;
      } else {
        r := None;
      }
    }
  }
}
