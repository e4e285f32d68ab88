/**
 * The resource-binding layout of a shader program (hell_renderer
 * `vulkan/shader_program.rs`), as values: the four scopes, the records the
 * builder keeps, and the specification functions that say where each
 * uniform, push constant, descriptor set and buffer region lands.
 *
 * A shader's uniforms are grouped by scope (Global, Shared, Instance,
 * Local). Every scope that declares something gets a descriptor set; the
 * sets are numbered densely in scope order, and each used scope gets a
 * region of one shared uniform buffer holding `entry_count` entries of
 * `stride` bytes, the regions laid end to end.
 */
module ShaderLayout {
  import opened Wrappers
  import opened Common
  import opened RenderTypes
  import opened Alignment

  // ---------------------------------------------------------------------
  // ShaderScope
  // ---------------------------------------------------------------------

  /** `ShaderScope`, `#[repr(usize)]` with the values 0 to 3. */
  datatype ShaderScope = Global | Shared | Instance | Local

  const SCOPE_COUNT: nat := 4

  /** `ShaderScope::ALL_SCOPES`. */
  const ALL_SCOPES: seq<ShaderScope> := [Global, Shared, Instance, Local]

  /** `scope as usize`. */
  function ScopeIdx(s: ShaderScope): (i: nat)
    ensures i < SCOPE_COUNT
  {
    match s
    case Global => 0
    case Shared => 1
    case Instance => 2
    case Local => 3
  }

  /** `From<usize> for ShaderScope`; any other value panics ("invalid scope"). */
  function ScopeFromIdx(i: nat): (s: ShaderScope)
    requires i < SCOPE_COUNT
  {
    if i == 0 then Global else if i == 1 then Shared else if i == 2 then Instance else Local
  }

  /** The two conversions are inverse, and `ALL_SCOPES` lists the scopes in value order. */
  lemma ScopeIdxRoundTrip(s: ShaderScope, i: nat)
    ensures ScopeFromIdx(ScopeIdx(s)) == s
    ensures i < SCOPE_COUNT ==> ScopeIdx(ScopeFromIdx(i)) == i
    ensures |ALL_SCOPES| == SCOPE_COUNT && ALL_SCOPES[ScopeIdx(s)] == s
  {
  }

  // ---------------------------------------------------------------------
  // Constants (the builder's associated constants and `config`)
  // ---------------------------------------------------------------------

  const BINDING_IDX_UBO: nat := 0
  const BINDING_IDX_SAMPLER: nat := 1
  const MAX_GLOBAL_TEX_COUNT: nat := 16
  const MAX_ATTRIBUTE_COUNT: nat := 32
  /** `PUSH_CONSTANT_ALIGNMENT` = 4 = 2^2. */
  const PUSH_CONSTANT_ALIGNMENT_LOG2: nat := 2
  const PUSH_CONSTANT_ALIGNMENT: nat := 4
  /** `config::VULKAN_NVIDIA_REQUIRED_ALIGNMENT`, the builder's `ubo_alignment`. */
  const UBO_ALIGNMENT: nat := 256
  /** `config::VULKAN_GUARANTEED_PUSH_CONSTANT_STRIDE`. */
  const PUSH_CONSTANT_STRIDE: nat := 128
  /** `config::VULKAN_MAX_MATERIAL_COUNT`. */
  const MAX_MATERIAL_COUNT: nat := 1024
  /** `config::VULKAN_MAX_SAMPLERS_PER_SHADER`, the capacity of a scope entry's texture list. */
  const MAX_SAMPLERS_PER_SHADER: nat := 16
  /** The entries each scope's region holds: one Global entry, 1024 of the others. */
  const SCOPE_ENTRY_COUNTS: seq<nat> := [1, MAX_MATERIAL_COUNT, MAX_MATERIAL_COUNT, MAX_MATERIAL_COUNT]
  /** `size_of::<u32>()`, the size of the `local_idx` push constant. */
  const U32_SIZE: nat := 4
  /** `size_of::<glam::Mat4>()`. */
  const MAT4_SIZE: nat := 64
  /** The Local stride and local storage buffer size, `size_of::<Mat4>() * 10000`. */
  const LOCAL_STRIDE: nat := MAT4_SIZE * 10000
  const LOCAL_IDX_NAME: string := "local_idx"

  // ---------------------------------------------------------------------
  // Records
  // ---------------------------------------------------------------------

  datatype UniformHandle = UniformHandle(scope: ShaderScope, idx: nat)

  /** `UniformInfo`: a uniform (or sampler) of a scope, its index there and its byte range. */
  datatype UniformInfo = UniformInfo(name: string, scope: ShaderScope, idx: nat, range: ValueRange)

  datatype PushConstantInfo = PushConstantInfo(name: string, handle: ResourceHandle, range: ValueRange)

  datatype AttributeInfo = AttributeInfo(format: NumberFormat, binding: nat, location: nat)

  /** `PerFrame<vk::DescriptorSet>`: one descriptor set per frame in flight. */
  type DescriptorSets = s: seq<Handle> | |s| == FRAMES_IN_FLIGHT witness [Handle(0), Handle(0), Handle(0)]

  /** `ScopeState`: one acquired entry of a scope. */
  datatype ScopeState = ScopeState(
    idx: nat,
    bufferOffset: nat,
    bufferStride: nat,
    bufferDescSets: DescriptorSets,
    textures: seq<ResourceHandle>)

  datatype DescriptorType = UniformBuffer | StorageBuffer | CombinedImageSampler

  /** A `VkDescriptorSetLayoutBinding`, without its stage flags. */
  datatype LayoutBinding = LayoutBinding(binding: nat, descriptorType: DescriptorType, count: nat)

  /** `VkVertexInputAttributeDescription`. */
  datatype VertexAttributeDescription = VertexAttributeDescription(location: nat, binding: nat, format: nat, offset: nat)

  // ---------------------------------------------------------------------
  // Uniform packing
  // ---------------------------------------------------------------------

  /** The total of the ranges of `us`: the bytes a scope's uniforms occupy. */
  function SumRanges(us: seq<UniformInfo>): nat
  {
    if us == [] then 0 else SumRanges(us[..|us| - 1]) + us[|us| - 1].range.range
  }

  /**
   * The uniforms of one scope as `push_uniform` lays them out: the i-th has
   * index i and either starts where the ones before it end, or is a sampler
   * with the empty range `(0, 0)`.
   */
  predicate PackedUniforms(us: seq<UniformInfo>, scope: ShaderScope)
  {
    us == [] ||
    var n := |us| - 1;
    PackedUniforms(us[..n], scope) && us[n].idx == n && us[n].scope == scope
    && (us[n].range == ValueRange(0, 0) || us[n].range.offset == SumRanges(us[..n]))
  }

  /** Appending a uniform laid out after the others keeps the packing. */
  lemma PackedUniformsAppend(us: seq<UniformInfo>, scope: ShaderScope, u: UniformInfo)
    requires PackedUniforms(us, scope)
    requires u.idx == |us| && u.scope == scope
    requires u.range == ValueRange(0, 0) || u.range.offset == SumRanges(us)
    ensures PackedUniforms(us + [u], scope)
    ensures SumRanges(us + [u]) == SumRanges(us) + u.range.range
  {
    assert (us + [u])[..|us|] == us;
  }

  /** What the packing says about the i-th uniform. */
  lemma {:induction false} PackedUniformAt(us: seq<UniformInfo>, scope: ShaderScope, i: nat)
    requires PackedUniforms(us, scope) && i < |us|
    ensures us[i].idx == i && us[i].scope == scope
    ensures us[i].range == ValueRange(0, 0) || us[i].range.offset == SumRanges(us[..i])
  {
    var n := |us| - 1;
    if i < n {
      PackedUniformAt(us[..n], scope, i);
      assert us[..n][..i] == us[..i];
    }
  }

  /** Prefix sums grow along the sequence, by one range per element. */
  lemma {:induction false} SumRangesPrefix(us: seq<UniformInfo>, i: nat, j: nat)
    requires i < j <= |us|
    ensures SumRanges(us[..i]) + us[i].range.range <= SumRanges(us[..j])
  {
    assert us[..i + 1][..i] == us[..i];
    if j > i + 1 {
      SumRangesPrefix(us, i, j - 1);
      assert us[..j][..j - 1] == us[..j - 1];
    }
  }

  /**
   * The non-empty ranges of a scope's uniforms are disjoint, in declaration
   * order, and all lie inside the scope's size.
   */
  lemma UniformRangesDisjoint(us: seq<UniformInfo>, scope: ShaderScope, i: nat, j: nat)
    requires PackedUniforms(us, scope)
    requires i < j < |us| && us[i].range.range > 0 && us[j].range.range > 0
    ensures End(us[i].range) <= us[j].range.offset
    ensures End(us[j].range) <= SumRanges(us)
  {
    PackedUniformAt(us, scope, i);
    PackedUniformAt(us, scope, j);
    SumRangesPrefix(us, i, j);
    assert us[..|us|] == us;
    SumRangesPrefix(us, j, |us|);
  }

  /** Every uniform's range, a sampler's empty one included, ends inside the scope's size. */
  lemma UniformInScope(us: seq<UniformInfo>, scope: ShaderScope, j: nat)
    requires PackedUniforms(us, scope) && j < |us|
    ensures End(us[j].range) <= SumRanges(us)
  {
    PackedUniformAt(us, scope, j);
    if us[j].range != ValueRange(0, 0) {
      assert us[..|us|] == us;
      SumRangesPrefix(us, j, |us|);
    }
  }

  /** `push_uniform`'s range: a sampler takes no bytes; a uniform starts at the scope's current size. */
  function UniformRange(scopeSize: nat, size: nat, isSampler: bool): ValueRange
  {
    if isSampler then ValueRange(0, 0) else ValueRange(scopeSize, size)
  }

  // ---------------------------------------------------------------------
  // Push constants
  // ---------------------------------------------------------------------

  function SumPushConstants(pcs: seq<PushConstantInfo>): nat
  {
    if pcs == [] then 0 else SumPushConstants(pcs[..|pcs| - 1]) + pcs[|pcs| - 1].range.range
  }

  /**
   * Push constants as `add_push_constant` lays them out: each starts where
   * the previous ones end, and offsets and sizes are multiples of 4, as the
   * Vulkan specification requires of push-constant ranges.
   */
  predicate PackedPushConstants(pcs: seq<PushConstantInfo>)
  {
    pcs == [] ||
    var n := |pcs| - 1;
    PackedPushConstants(pcs[..n])
    && pcs[n].range.offset == SumPushConstants(pcs[..n])
    && pcs[n].range.offset % PUSH_CONSTANT_ALIGNMENT == 0
    && pcs[n].range.range % PUSH_CONSTANT_ALIGNMENT == 0
  }

  /** The total size of packed push constants is a multiple of 4. */
  lemma {:induction false} PackedPushConstantsSize(pcs: seq<PushConstantInfo>)
    requires PackedPushConstants(pcs)
    ensures SumPushConstants(pcs) % PUSH_CONSTANT_ALIGNMENT == 0
  {
    if pcs != [] {
      PackedPushConstantsSize(pcs[..|pcs| - 1]);
    }
  }

  /**
   * `add_push_constant` keeps the packing: on a packed list, `get_aligned`
   * leaves the running total where it is, so the new constant starts right
   * after the others, and its size is `raw` rounded up to a multiple of 4.
   */
  lemma PushConstantAppend(pcs: seq<PushConstantInfo>, name: string, handle: ResourceHandle, raw: nat)
    requires PackedPushConstants(pcs)
    ensures var range := GetAlignedRange(SumPushConstants(pcs), raw, PUSH_CONSTANT_ALIGNMENT);
            var pcs' := pcs + [PushConstantInfo(name, handle, range)];
            range.offset == SumPushConstants(pcs)
            && raw <= range.range < raw + PUSH_CONSTANT_ALIGNMENT
            && PackedPushConstants(pcs')
            && SumPushConstants(pcs') == SumPushConstants(pcs) + range.range
  {
    var total := SumPushConstants(pcs);
    PackedPushConstantsSize(pcs);
    assert Pow2(PUSH_CONSTANT_ALIGNMENT_LOG2) == PUSH_CONSTANT_ALIGNMENT;
    GetAlignedOfMultiple(total, PUSH_CONSTANT_ALIGNMENT_LOG2);
    GetAlignedPow2(raw, PUSH_CONSTANT_ALIGNMENT_LOG2);
    var range := GetAlignedRange(total, raw, PUSH_CONSTANT_ALIGNMENT);
    var pcs' := pcs + [PushConstantInfo(name, handle, range)];
    assert pcs'[..|pcs|] == pcs;
  }

  /**
   * The push constants of a program: one `local_idx` of 4 bytes per Local
   * declaration. `add_push_constant` takes the handle from the number of
   * names in the lookup map, which holds only `local_idx`, so the first
   * gets handle 0 and every later one handle 1.
   */
  predicate LocalIdxPushConstants(pcs: seq<PushConstantInfo>)
  {
    forall i :: 0 <= i < |pcs| ==>
      pcs[i].name == LOCAL_IDX_NAME && pcs[i].range.range == U32_SIZE
      && pcs[i].handle == ResourceHandle(if i == 0 then 0 else 1)
  }

  /** The `local_idx` push constants sit at offsets 0, 4, 8, ... */
  lemma {:induction false} LocalIdxOffsets(pcs: seq<PushConstantInfo>, i: nat)
    requires PackedPushConstants(pcs) && LocalIdxPushConstants(pcs) && i < |pcs|
    ensures pcs[i].range.offset == U32_SIZE * i
    ensures SumPushConstants(pcs[..i]) == U32_SIZE * i
  {
    var n := |pcs| - 1;
    if i < n {
      LocalIdxOffsets(pcs[..n], i);
      assert pcs[..n][..i] == pcs[..i];
    } else if i > 0 {
      LocalIdxOffsets(pcs[..n], i - 1);
      assert pcs[..n] == pcs[..i];
      assert pcs[..i][..i - 1] == pcs[..i - 1];
    }
  }

  /** The `local_idx` push constants take 4 bytes each. */
  lemma {:induction false} LocalIdxTotal(pcs: seq<PushConstantInfo>)
    requires LocalIdxPushConstants(pcs)
    ensures SumPushConstants(pcs) == U32_SIZE * |pcs|
  {
    if pcs != [] {
      LocalIdxTotal(pcs[..|pcs| - 1]);
    }
  }

  /**
   * The lookup map after `n` Local declarations: `local_idx` names the
   * handle of the latest one, which is 0 after one declaration and 1 after
   * two or more; that handle indexes the second push constant, at offset 4,
   * once there are two.
   */
  lemma LocalIdxLookup(pcs: seq<PushConstantInfo>)
    requires PackedPushConstants(pcs) && LocalIdxPushConstants(pcs) && |pcs| >= 1
    ensures var h := pcs[|pcs| - 1].handle;
            h.idx < |pcs| && (|pcs| == 1 ==> pcs[h.idx].range.offset == 0)
            && (|pcs| >= 2 ==> h.idx == 1 && pcs[h.idx].range.offset == U32_SIZE)
  {
    LocalIdxOffsets(pcs, pcs[|pcs| - 1].handle.idx);
  }

  // ---------------------------------------------------------------------
  // Vertex input
  // ---------------------------------------------------------------------

  /** The bytes one vertex occupies: the sizes of its attributes' formats. */
  function VertexStride(attrs: seq<AttributeInfo>): nat
  {
    if attrs == [] then 0 else VertexStride(attrs[..|attrs| - 1]) + Size(attrs[|attrs| - 1].format)
  }

  /** Attribute i sits at location i of binding 0, after the attributes before it. */
  function VertexDescription(attrs: seq<AttributeInfo>, i: nat): VertexAttributeDescription
    requires i < |attrs|
  {
    VertexAttributeDescription(i, 0, ToVkFormat(attrs[i].format), VertexStride(attrs[..i]))
  }

  lemma {:induction false} VertexStridePrefix(attrs: seq<AttributeInfo>, i: nat, j: nat)
    requires i < j <= |attrs|
    ensures VertexStride(attrs[..i]) + Size(attrs[i].format) <= VertexStride(attrs[..j])
  {
    assert attrs[..i + 1][..i] == attrs[..i];
    if j > i + 1 {
      VertexStridePrefix(attrs, i, j - 1);
      assert attrs[..j][..j - 1] == attrs[..j - 1];
    }
  }

  /**
   * The vertex attributes are packed in declaration order: attribute i sits
   * at location i, its bytes end before attribute j > i starts, and every
   * attribute lies inside the vertex stride.
   */
  lemma VertexAttributesPacked(attrs: seq<AttributeInfo>, i: nat, j: nat)
    requires i < j < |attrs|
    ensures VertexDescription(attrs, i).location == i && VertexDescription(attrs, i).binding == 0
    ensures VertexDescription(attrs, i).offset + Size(attrs[i].format) <= VertexDescription(attrs, j).offset
    ensures VertexDescription(attrs, j).offset + Size(attrs[j].format) <= VertexStride(attrs)
  {
    VertexStridePrefix(attrs, i, j);
    VertexStridePrefix(attrs, j, |attrs|);
    assert attrs[..|attrs|] == attrs;
  }

  // ---------------------------------------------------------------------
  // Descriptor sets and buffer regions
  // ---------------------------------------------------------------------

  /** The number of used scopes before scope `n`: the set index `n` gets when used. */
  function UsedBefore(useSet: seq<bool>, n: nat): (k: nat)
    requires n <= |useSet|
    ensures k <= n
  {
    if n == 0 then 0 else UsedBefore(useSet, n - 1) + (if useSet[n - 1] then 1 else 0)
  }

  /** `scope_set_mapping`: a used scope's set index, `None` for an unused one. */
  function SetIndex(useSet: seq<bool>, s: nat): Option<nat>
    requires s < |useSet|
  {
    if useSet[s] then Some(UsedBefore(useSet, s)) else None
  }

  /** Used scopes get increasing set indices, all below the number of used scopes. */
  lemma {:induction false} UsedBeforeMono(useSet: seq<bool>, s: nat, t: nat)
    requires s < t <= |useSet| && useSet[s]
    ensures UsedBefore(useSet, s) < UsedBefore(useSet, t)
  {
    if t > s + 1 {
      UsedBeforeMono(useSet, s, t - 1);
    }
  }

  /** Every index below the number of used scopes is the set index of some used scope. */
  lemma {:induction false} UsedBeforeCovers(useSet: seq<bool>, n: nat, k: nat)
    requires n <= |useSet| && k < UsedBefore(useSet, n)
    ensures exists s :: 0 <= s < n && useSet[s] && UsedBefore(useSet, s) == k
  {
    if k < UsedBefore(useSet, n - 1) {
      UsedBeforeCovers(useSet, n - 1, k);
    } else {
      assert useSet[n - 1] && UsedBefore(useSet, n - 1) == k;
    }
  }

  /**
   * The set indices are dense, one direction: used scopes get increasing
   * indices, all below `k`, the number of used scopes.
   */
  lemma SetIndicesOrdered(useSet: seq<bool>)
    ensures forall s, t :: 0 <= s < t < |useSet| && useSet[s] && useSet[t] ==>
              SetIndex(useSet, s).value < SetIndex(useSet, t).value
    ensures forall s :: 0 <= s < |useSet| && useSet[s] ==> SetIndex(useSet, s).value < UsedBefore(useSet, |useSet|)
  {
    forall s, t | 0 <= s < t < |useSet| && useSet[s] && useSet[t]
      ensures SetIndex(useSet, s).value < SetIndex(useSet, t).value
    {
      UsedBeforeMono(useSet, s, t);
    }
    forall s | 0 <= s < |useSet| && useSet[s]
      ensures SetIndex(useSet, s).value < UsedBefore(useSet, |useSet|)
    {
      UsedBeforeMono(useSet, s, |useSet|);
    }
  }

  /**
   * The other direction: every index below the number of used scopes is
   * some used scope's set index, so the used scopes get exactly `0 .. k-1`.
   */
  lemma SetIndicesCover(useSet: seq<bool>, k: nat)
    requires k < UsedBefore(useSet, |useSet|)
    ensures exists s :: 0 <= s < |useSet| && SetIndex(useSet, s) == Some(k)
  {
    UsedBeforeCovers(useSet, |useSet|, k);
    var s :| 0 <= s < |useSet| && useSet[s] && UsedBefore(useSet, s) == k;
    assert SetIndex(useSet, s) == Some(k);
  }

  /** The stride a used scope's entries get: its size rounded up to the UBO alignment. */
  function ScopeStride(size: nat): nat
  {
    UboStride(size, UBO_ALIGNMENT)
  }

  /** The bytes of the main buffer that scope `s` occupies: none when unused. */
  function RegionSize(useSet: seq<bool>, sizes: seq<nat>, s: nat): nat
    requires |useSet| == |sizes| == SCOPE_COUNT && s < SCOPE_COUNT
  {
    if useSet[s] then ScopeStride(sizes[s]) * SCOPE_ENTRY_COUNTS[s] else 0
  }

  /** Where scope `n`'s region starts: after the regions of the scopes before it. */
  function RegionStart(useSet: seq<bool>, sizes: seq<nat>, n: nat): nat
    requires |useSet| == |sizes| == SCOPE_COUNT && n <= SCOPE_COUNT
  {
    if n == 0 then 0 else RegionStart(useSet, sizes, n - 1) + RegionSize(useSet, sizes, n - 1)
  }

  /** `scope_ranges`: a used scope's region of the main buffer, `None` for an unused one. */
  function ScopeRange(useSet: seq<bool>, sizes: seq<nat>, s: nat): Option<ValueRange>
    requires |useSet| == |sizes| == SCOPE_COUNT && s < SCOPE_COUNT
  {
    if useSet[s] then Some(ValueRange(RegionStart(useSet, sizes, s), RegionSize(useSet, sizes, s))) else None
  }

  /** The size of the main buffer: the end of the last region. */
  function MainBufferSize(useSet: seq<bool>, sizes: seq<nat>): nat
    requires |useSet| == |sizes| == SCOPE_COUNT
  {
    RegionStart(useSet, sizes, SCOPE_COUNT)
  }

  lemma {:induction false} RegionStartMono(useSet: seq<bool>, sizes: seq<nat>, s: nat, t: nat)
    requires |useSet| == |sizes| == SCOPE_COUNT && s < t <= SCOPE_COUNT
    ensures RegionStart(useSet, sizes, s) + RegionSize(useSet, sizes, s) <= RegionStart(useSet, sizes, t)
  {
    if t > s + 1 {
      RegionStartMono(useSet, sizes, s, t - 1);
    }
  }

  /**
   * The regions are laid end to end in scope order: each used region ends
   * before any later one starts and inside the main buffer, and the next
   * used scope's region starts exactly where it ends. Every region holds
   * `entry_count` entries of the scope's stride, which is a multiple of
   * the UBO alignment.
   */
  lemma RegionsContiguous(useSet: seq<bool>, sizes: seq<nat>, s: nat, t: nat)
    requires |useSet| == |sizes| == SCOPE_COUNT && s < t < SCOPE_COUNT && useSet[s] && useSet[t]
    ensures End(ScopeRange(useSet, sizes, s).value) <= ScopeRange(useSet, sizes, t).value.offset
    ensures End(ScopeRange(useSet, sizes, t).value) <= MainBufferSize(useSet, sizes)
    ensures (forall u :: s < u < t ==> !useSet[u]) ==>
              ScopeRange(useSet, sizes, t).value.offset == End(ScopeRange(useSet, sizes, s).value)
    ensures ScopeRange(useSet, sizes, s).value.range == ScopeStride(sizes[s]) * SCOPE_ENTRY_COUNTS[s]
    ensures ScopeStride(sizes[s]) % UBO_ALIGNMENT == 0 && sizes[s] <= ScopeStride(sizes[s])
  {
    RegionStartMono(useSet, sizes, s, t);
    if t + 1 <= SCOPE_COUNT {
      RegionStartMono(useSet, sizes, t, SCOPE_COUNT);
    }
    if forall u :: s < u < t ==> !useSet[u] {
      RegionStartSkip(useSet, sizes, s + 1, t);
    }
    UboStrideIsLeastMultiple(sizes[s], UBO_ALIGNMENT);
  }

  /** Unused scopes add nothing to the regions before the next used one. */
  lemma {:induction false} RegionStartSkip(useSet: seq<bool>, sizes: seq<nat>, s: nat, t: nat)
    requires |useSet| == |sizes| == SCOPE_COUNT && s <= t <= SCOPE_COUNT
    requires forall u :: s <= u < t ==> !useSet[u]
    ensures RegionStart(useSet, sizes, t) == RegionStart(useSet, sizes, s)
  {
    if t > s {
      RegionStartSkip(useSet, sizes, s, t - 1);
    }
  }

  /**
   * The Local stride is replaced by `size_of::<Mat4>() * 10000` after the
   * main buffer was sized with the UBO stride: for a Local scope of at most
   * 512 bytes (a `Mat4` is 64), the region holds 1024 entries of at most
   * 512 bytes, so every Local entry past the first starts beyond the end of
   * the main buffer.
   */
  lemma LocalEntriesBeyondMainBuffer(useSet: seq<bool>, sizes: seq<nat>, entry: nat)
    requires |useSet| == |sizes| == SCOPE_COUNT && useSet[3]
    requires sizes[3] <= 512 && entry >= 1
    ensures ScopeRange(useSet, sizes, 3).value.offset + LOCAL_STRIDE * entry >= MainBufferSize(useSet, sizes)
  {
    UboStrideIsLeastMultiple(sizes[3], UBO_ALIGNMENT);
    UboStrideUnique(512, UBO_ALIGNMENT, 512);
    assert ScopeStride(sizes[3]) <= 512;
    MulMono(ScopeStride(sizes[3]), 512, MAX_MATERIAL_COUNT);
    MulMono(1, entry, LOCAL_STRIDE);
  }

  /** A main buffer of non-zero size has at least one used scope, so a first set layout. */
  lemma UsedWhenMainBuffer(useSet: seq<bool>, sizes: seq<nat>)
    requires |useSet| == |sizes| == SCOPE_COUNT && MainBufferSize(useSet, sizes) > 0
    ensures UsedBefore(useSet, SCOPE_COUNT) >= 1
  {
    if UsedBefore(useSet, SCOPE_COUNT) == 0 {
      forall u | 0 <= u < SCOPE_COUNT
        ensures !useSet[u]
      {
        if useSet[u] {
          UsedBeforeMono(useSet, u, SCOPE_COUNT);
        }
      }
      RegionStartSkip(useSet, sizes, 0, SCOPE_COUNT);
    }
  }

  /**
   * Writing a uniform of scope `s` while entry `i` of that scope is bound
   * stays inside that entry (its `stride` bytes starting `stride * i` into
   * the region), and the entry lies inside the region whenever `i` is below
   * the scope's entry count.
   */
  lemma EntryWriteInRegion(useSet: seq<bool>, sizes: seq<nat>, s: nat, us: seq<UniformInfo>, j: nat, i: nat)
    requires |useSet| == |sizes| == SCOPE_COUNT && s < SCOPE_COUNT && useSet[s]
    requires PackedUniforms(us, ScopeFromIdx(s)) && sizes[s] == SumRanges(us) && j < |us|
    requires i < SCOPE_ENTRY_COUNTS[s]
    ensures var region := ScopeRange(useSet, sizes, s).value;
            var entry := region.offset + ScopeStride(sizes[s]) * i;
            entry + End(us[j].range) <= entry + ScopeStride(sizes[s]) <= End(region)
  {
    UniformInScope(us, ScopeFromIdx(s), j);
    UboStrideIsLeastMultiple(sizes[s], UBO_ALIGNMENT);
    var stride := ScopeStride(sizes[s]);
    MulMono(i + 1, SCOPE_ENTRY_COUNTS[s], stride);
    assert (i + 1) * stride == stride * i + stride;
  }

  /** The descriptor bindings of a used scope's set layout. */
  function ScopeBindings(s: nat, samplerCount: nat): seq<LayoutBinding>
  {
    [LayoutBinding(BINDING_IDX_UBO, if s != 3 then UniformBuffer else StorageBuffer, 1)]
    + (if samplerCount > 0 then [LayoutBinding(BINDING_IDX_SAMPLER, CombinedImageSampler, samplerCount)] else [])
  }

  /**
   * A set layout has one buffer binding at binding 0, a uniform buffer
   * except for the Local scope's storage buffer, and a combined image
   * sampler array at binding 1 exactly when the scope declares samplers.
   */
  lemma ScopeBindingsShape(s: nat, samplerCount: nat)
    ensures var b := ScopeBindings(s, samplerCount);
            1 <= |b| <= 2 && b[0].binding == BINDING_IDX_UBO && b[0].count == 1
            && (b[0].descriptorType == StorageBuffer <==> s == 3)
            && (|b| == 2 <==> samplerCount > 0)
            && (|b| == 2 ==> b[1] == LayoutBinding(BINDING_IDX_SAMPLER, CombinedImageSampler, samplerCount))
  {
  }
}
