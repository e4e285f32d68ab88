/**
 * `VulkanDeviceMemory` (hell_renderer `vulkan/primitives/vulkan_memory.rs`):
 * a block of device memory whose host mapping is a two-state machine
 * (unmapped / mapped), and `VulkanMemoryMap`, the byte window a mapping
 * exposes, with its raw copy and fill operations.
 *
 * The memory's bytes are an `array<bv8>`; a map is a window
 * `[offset, offset + size)` on that array, and the raw pointer `data_ptr`
 * of the source is the window's start.
 */
module VulkanMemory {
  import opened Wrappers
  import opened HellErrors

  const ALREADY_MAPPED: string := "trying to map memory, but memory is already mapped "
  const NOT_MAPPED: string := "trying to unmap memory, but memory is not mapped"
  const NO_MAPPED_MEMORY: string := "failed to retrieve mapped memory"
  const NO_MAPPED_MEMORY_MUT: string := "failed to retrieved mapped memory mut"

  /** A host mapping of `size` bytes of `data`, starting at byte `offset`. */
  datatype VulkanMemoryMap = VulkanMemoryMap(data: array<bv8>, offset: nat, size: nat)

  /** The byte image of a slice of values whose byte images (`elemSize` bytes each) are `values`. */
  function Flatten(values: seq<seq<bv8>>, elemSize: nat): (r: seq<bv8>)
    requires forall i :: 0 <= i < |values| ==> |values[i]| == elemSize
    ensures |r| == |values| * elemSize
  {
    if values == [] then [] else values[0] + Flatten(values[1..], elemSize)
  }

  /** Byte `j` of element `i` lies inside an image of `n` elements of `e` bytes. */
  lemma ElementByteInImage(i: nat, n: nat, e: nat, j: nat)
    requires i < n && j < e
    ensures i * e + j < n * e
    ensures i > 0 ==> i * e + j == e + ((i - 1) * e + j)
  {
    var d := n - i - 1;
    assert n * e == i * e + e + d * e;
    assert d * e >= 0;
    if i > 0 {
      assert i * e == e + (i - 1) * e;
    }
  }

  /** Element `i` of the slice lies at bytes `[i * elemSize, (i + 1) * elemSize)` of its image. */
  lemma {:induction false} FlattenElement(values: seq<seq<bv8>>, elemSize: nat, i: nat, j: nat)
    requires forall k :: 0 <= k < |values| ==> |values[k]| == elemSize
    requires i < |values| && j < elemSize
    ensures i * elemSize + j < |values| * elemSize
    ensures Flatten(values, elemSize)[i * elemSize + j] == values[i][j]
  {
    ElementByteInImage(i, |values|, elemSize, j);
    var rest := Flatten(values[1..], elemSize);
    assert Flatten(values, elemSize) == values[0] + rest;
    if i > 0 {
      FlattenElement(values[1..], elemSize, i - 1, j);
    }
  }

  /** `s` with the bytes `w` written at position `at`. */
  function Overwrite(s: seq<bv8>, at: nat, w: seq<bv8>): (r: seq<bv8>)
    requires at + |w| <= |s|
    ensures |r| == |s|
    ensures forall i :: at <= i < at + |w| ==> r[i] == w[i - at]
    ensures forall i :: 0 <= i < |s| && !(at <= i < at + |w|) ==> r[i] == s[i]
  {
    s[..at] + w + s[at + |w|..]
  }

  /**
   * `VulkanMemoryMap::copy_from_nonoverlapping` on a byte map: the
   * `|src| * elemSize` bytes of the slice are written starting `offset`
   * bytes into the window, and nothing else changes. The source does no
   * bounds check (writing outside the window is undefined behaviour), so
   * staying inside the window is the caller's obligation here.
   */
  method CopyFromNonoverlapping(m: VulkanMemoryMap, src: seq<seq<bv8>>, elemSize: nat, offset: nat)
    requires forall i :: 0 <= i < |src| ==> |src[i]| == elemSize
    requires m.offset + m.size <= m.data.Length
    requires offset + |src| * elemSize <= m.size
    modifies m.data
    ensures m.data[..] == Overwrite(old(m.data[..]), m.offset + offset, Flatten(src, elemSize))
  {
    var bytes := Flatten(src, elemSize);
    var start := m.offset + offset;
    forall i | start <= i < start + |bytes| {
      m.data[i] := bytes[i - start];
    }
  }

  /**
   * The number of bytes `fill_with_value` writes as written: the loop runs
   * over `0 .. (size / align) * size`, with `align` the alignment of the
   * map's element type.
   */
  function FillByteCountAsWritten(size: nat, align: nat): (n: nat)
    requires align >= 1
    ensures align == 1 ==> n == size * size
  {
    (size / align) * size
  }

  /**
   * On a byte map (`align == 1`) of two or more bytes, the fill loop as
   * written runs past the end of the window.
   */
  lemma FillOverrunsWindow(size: nat)
    requires size >= 2
    ensures FillByteCountAsWritten(size, 1) > size
    ensures FillByteCountAsWritten(2, 1) == 4
  {
    assert size * size >= 2 * size;
  }

  /**
   * `fill_with_value` on a byte map, as evidently intended: every byte of
   * the window becomes `val`, and no byte outside it changes.
   */
  method FillWithValue(m: VulkanMemoryMap, val: bv8)
    requires m.offset + m.size <= m.data.Length
    modifies m.data
    ensures forall i :: m.offset <= i < m.offset + m.size ==> m.data[i] == val
    ensures forall i :: 0 <= i < m.data.Length && !(m.offset <= i < m.offset + m.size) ==>
              m.data[i] == old(m.data[i])
  {
    var off := 0;
    while off < m.size
      invariant off <= m.size
      invariant forall i :: m.offset <= i < m.offset + off ==> m.data[i] == val
      invariant forall i :: 0 <= i < m.data.Length && !(m.offset <= i < m.offset + off) ==>
                  m.data[i] == old(m.data[i])
    {
      m.data[m.offset + off] := val;
      off := off + 1;
    }
  }

  class VulkanDeviceMemory {
    /** The allocation's bytes. */
    const bytes: array<bv8>
    /** `mem_map`: the current host mapping, if any. */
    var memMap: Option<VulkanMemoryMap>

    /** A mapping is a window on this memory's own bytes. */
    ghost predicate Valid()
      reads this
    {
      memMap.Some? ==> memMap.value.data == bytes && memMap.value.offset + memMap.value.size <= bytes.Length
    }

    /**
     * `VulkanDeviceMemory::new` after a successful allocation of `size`
     * bytes: the memory starts unmapped. (Fresh device memory has no
     * defined contents; the model starts it at zero.)
     */
    constructor (size: nat)
      ensures Valid()
      ensures fresh(bytes) && bytes.Length == size
      ensures memMap == None
    {
      bytes := new bv8[size](_ => 0);
      memMap := None;
    }

    function MemoryIsMapped(): (mapped: bool)
      reads this
      ensures mapped <==> memMap.Some?
    {
      memMap.Some?
    }

    /**
     * `map_memory`. `mapFailure` is what `vkMapMemory` reports, `None` on
     * success. Mapping mapped memory fails and changes nothing; a failed
     * `vkMapMemory` leaves the memory unmapped; otherwise the memory is
     * mapped to the window `[offset, offset + size)`, which is returned.
     */
    method MapMemory(offset: nat, size: nat, mapFailure: Option<SourceError>) returns (r: HellResult<VulkanMemoryMap>)
      requires Valid()
      requires offset + size <= bytes.Length
      modifies this
      ensures Valid()
      ensures old(memMap).Some? ==> r == Err(RenderMsgErr(ALREADY_MAPPED)) && memMap == old(memMap)
      ensures old(memMap).None? && mapFailure.Some? ==> r == Err(FromForeign(mapFailure.value)) && memMap == None
      ensures old(memMap).None? && mapFailure.None? ==>
                memMap == Some(VulkanMemoryMap(bytes, offset, size)) && r == Ok(memMap.value)
    {
      if MemoryIsMapped() {
        return Err(RenderMsgErr(ALREADY_MAPPED));
      }
      if mapFailure.Some? {
        return Err(FromForeign(mapFailure.value));
      }
      memMap := Some(VulkanMemoryMap(bytes, offset, size));
      r := Ok(memMap.value);
    }

    /** `unmap_memory`: fails on unmapped memory, otherwise drops the mapping. */
    method UnmapMemory() returns (r: HellResult<()>)
      requires Valid()
      modifies this
      ensures Valid()
      ensures old(memMap).None? ==> r == Err(RenderMsgErr(NOT_MAPPED))
      ensures old(memMap).Some? ==> r == Ok(())
      ensures memMap == None
    {
      if !MemoryIsMapped() {
        return Err(RenderMsgErr(NOT_MAPPED));
      }
      memMap := None;
      r := Ok(());
    }

    /** `mapped_memory`: the mapping, or an error when there is none. */
    function MappedMemory(): (r: HellResult<VulkanMemoryMap>)
      reads this
      ensures r.Ok? <==> MemoryIsMapped()
      ensures r.Ok? ==> r.value == memMap.value
      ensures r.Err? ==> r.error == RenderMsgErr(NO_MAPPED_MEMORY)
    {
      OkOrRenderHerr(memMap, NO_MAPPED_MEMORY)
    }

    /** `mapped_memory_mut`: as `mapped_memory`, with its own message. */
    function MappedMemoryMut(): (r: HellResult<VulkanMemoryMap>)
      reads this
      ensures r.Ok? <==> MemoryIsMapped()
      ensures r.Ok? ==> r.value == memMap.value
      ensures r.Err? ==> r.error == RenderMsgErr(NO_MAPPED_MEMORY_MUT)
    {
      OkOrRenderHerr(memMap, NO_MAPPED_MEMORY_MUT)
    }

    /**
     * The unmapping part of `Drop`: only mapped memory is unmapped, so the
     * `unwrap` on `unmap_memory` never meets its error.
     */
    method Drop()
      requires Valid()
      modifies this
      ensures Valid()
      ensures memMap == None
    {
      if MemoryIsMapped() {
        var r := UnmapMemory();
        assert r.Ok?;
      }
    }
  }
}
