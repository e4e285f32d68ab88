/**
 * `ShaderProgram` and `ShaderProgramBuilder::build` (hell_renderer
 * `vulkan/shader_program.rs`): the built program with its main uniform
 * buffer split into per-scope regions, the local storage buffer, the
 * scope entries handed out by `acquire_scope_resource`, the bound entry
 * that `set_uniform` writes into, and the descriptor writes and binds
 * issued when a scope is applied.
 *
 * Every Vulkan creation call is a parameter (a `BuildBackend`, or the
 * outcome of one allocation); the descriptor updates and command-buffer
 * commands an operation issues are returned as values.
 */
module ShaderRuntime {
  import opened Wrappers
  import opened HellErrors
  import opened Common
  import opened RenderTypes
  import opened Alignment
  import opened VulkanMemory
  import opened ShaderLayout
  import opened ShaderPrograms
  import opened Frames
  import opened Textures

  // ---------------------------------------------------------------------
  // What the program issues to Vulkan
  // ---------------------------------------------------------------------

  /** A `VkWriteDescriptorSet` of one buffer, or of an array of image samplers. */
  datatype DescriptorWrite =
    | BufferWrite(dstSet: Handle, binding: nat, descriptorType: DescriptorType, buffer: Handle, offset: nat, range: nat)
    | ImageWrite(dstSet: Handle, binding: nat, images: seq<RenderTexture>)

  /** `cmd_bind_descriptor_sets` of one set at `firstSet`. */
  datatype BindCmd = BindCmd(cmdBuffer: Handle, pipelineLayout: Handle, firstSet: nat, descSet: Handle)

  /** `cmd_push_constants` of `values` at byte `offset`. */
  datatype PushConstantCmd = PushConstantCmd(cmdBuffer: Handle, pipelineLayout: Handle, offset: nat, values: seq<nat>)

  /** A `VulkanPipeline`: its handle and its pipeline layout. */
  datatype Pipeline = Pipeline(handle: Handle, layout: Handle)

  /** What `build` hands to `VulkanPipeline::new` besides the shader and render pass. */
  datatype PipelineRequest = PipelineRequest(
    vertexStride: nat,
    attributes: seq<VertexAttributeDescription>,
    setLayouts: seq<Handle>,
    pushConstants: seq<PushConstantInfo>,
    depthTest: bool,
    wireframe: bool)

  // ---------------------------------------------------------------------
  // Applying a scope entry
  // ---------------------------------------------------------------------

  /**
   * The textures of an entry resolved one by one through `texture_res`;
   * the first handle that does not resolve ends the walk.
   */
  function ResolveTextures(ts: TextureState, handles: seq<ResourceHandle>): (r: HellResult<seq<RenderTexture>>)
    ensures r.Ok? <==> forall i | 0 <= i < |handles| :: handles[i].idx < |ts.textures|
    ensures r.Ok? ==> |r.value| == |handles| && forall i | 0 <= i < |handles| :: r.value[i] == ts.textures[handles[i].idx]
    ensures r.Err? ==> r.error == RenderMsgErr(FAILED_TEXTURE)
  {
    if handles == [] then Ok([])
    else
      var n := |handles| - 1;
      var pre := ResolveTextures(ts, handles[..n]);
      assert forall i | 0 <= i < n :: handles[..n][i] == handles[i];
      if pre.Err? then pre
      else
        var t := TextureRes(ts, handles[n]);
        if t.Err? then Err(t.error) else Ok(pre.value + [t.value])
  }

  /**
   * The descriptor writes for one entry: its slice of the main buffer at
   * binding 0 and, for a scope with samplers, its textures at binding 1.
   * A texture count other than the scope's sampler count, or a texture
   * that does not resolve, is an error.
   */
  function ScopeWrites(state: ScopeState, frameIdx: nat, mainBuffer: Handle, samplerCount: nat, ts: TextureState)
    : (r: HellResult<seq<DescriptorWrite>>)
    requires frameIdx < FRAMES_IN_FLIGHT
    ensures r.Ok? ==>
      && 1 <= |r.value| <= 2
      && r.value[0] == BufferWrite(state.bufferDescSets[frameIdx], BINDING_IDX_UBO, UniformBuffer, mainBuffer, state.bufferOffset, state.bufferStride)
    ensures r.Ok? <==>
      || samplerCount == 0
      || (|state.textures| == samplerCount && forall i | 0 <= i < |state.textures| :: state.textures[i].idx < |ts.textures|)
    ensures r.Ok? && |r.value| == 2 ==>
      && r.value[1].ImageWrite? && r.value[1].binding == BINDING_IDX_SAMPLER
      && |r.value[1].images| == samplerCount
  {
    var descSet := state.bufferDescSets[frameIdx];
    var bufferWrite := BufferWrite(descSet, BINDING_IDX_UBO, UniformBuffer, mainBuffer, state.bufferOffset, state.bufferStride);
    if samplerCount == 0 then Ok([bufferWrite])
    else if |state.textures| != samplerCount then Err(RenderMsgErr(SAMPLER_TEX_MISMATCH))
    else
      var images := ResolveTextures(ts, state.textures);
      if images.Err? then Err(images.error)
      else Ok([bufferWrite] + (if |images.value| > 0 then [ImageWrite(descSet, BINDING_IDX_SAMPLER, images.value)] else []))
  }

  /**
   * `bind_and_udpate_scope`: the writes are issued first; only then is the
   * scope's set index looked up, so a scope without a set fails after its
   * descriptors were updated.
   */
  function BindAndUpdate(writes: seq<DescriptorWrite>, mapping: Option<nat>, cmdBuffer: Handle, layout: Handle, descSet: Handle)
    : (r: (seq<DescriptorWrite>, HellResult<BindCmd>))
    ensures r.0 == writes
    ensures r.1.Ok? <==> mapping.Some?
    ensures r.1.Ok? ==> r.1.value == BindCmd(cmdBuffer, layout, mapping.value, descSet)
    ensures r.1.Err? ==> r.1.error == RenderMsgErr(FAILED_SCOPE_MAPPING)
  {
    var first := OkOrRenderHerr(mapping, FAILED_SCOPE_MAPPING);
    if first.Err? then (writes, Err(first.error))
    else (writes, Ok(BindCmd(cmdBuffer, layout, first.value, descSet)))
  }

  /**
   * `apply_main_scope_intern` on the scope's entries: the descriptor
   * writes issued and the outcome. Nothing is issued when the entry does
   * not exist or its writes cannot be built.
   */
  function ApplyMainSpec(states: seq<ScopeState>, entry: ResourceHandle, samplerCount: nat, mapping: Option<nat>,
                         frameIdx: nat, cmdBuffer: Handle, layout: Handle, mainBuffer: Handle, ts: TextureState)
    : (r: (seq<DescriptorWrite>, HellResult<BindCmd>))
    requires frameIdx < FRAMES_IN_FLIGHT
  {
    if entry.idx >= |states| then ([], Err(RenderMsgErr(FAILED_SCOPE_STATE)))
    else
      var state := states[entry.idx];
      var writes := ScopeWrites(state, frameIdx, mainBuffer, samplerCount, ts);
      if writes.Err? then ([], Err(writes.error))
      else BindAndUpdate(writes.value, mapping, cmdBuffer, layout, state.bufferDescSets[frameIdx])
  }

  /**
   * Applying an entry succeeds exactly when the entry exists, its textures
   * match the scope's samplers and resolve, and the scope has a set; then
   * the entry's descriptor set for this frame is bound at the scope's set
   * index, after a write of the entry's slice of the main buffer.
   */
  lemma ApplyMainOk(states: seq<ScopeState>, entry: ResourceHandle, samplerCount: nat, mapping: Option<nat>,
                    frameIdx: nat, cmdBuffer: Handle, layout: Handle, mainBuffer: Handle, ts: TextureState)
    requires frameIdx < FRAMES_IN_FLIGHT
    ensures var (issued, r) := ApplyMainSpec(states, entry, samplerCount, mapping, frameIdx, cmdBuffer, layout, mainBuffer, ts);
      && (r.Ok? <==>
            && entry.idx < |states|
            && (samplerCount == 0
                || (|states[entry.idx].textures| == samplerCount
                    && forall i | 0 <= i < samplerCount :: states[entry.idx].textures[i].idx < |ts.textures|))
            && mapping.Some?)
      && (r.Ok? ==>
            var st := states[entry.idx];
            && r.value == BindCmd(cmdBuffer, layout, mapping.value, st.bufferDescSets[frameIdx])
            && issued[0] == BufferWrite(st.bufferDescSets[frameIdx], BINDING_IDX_UBO, UniformBuffer, mainBuffer, st.bufferOffset, st.bufferStride))
      && (entry.idx >= |states| ==> issued == [] && r == Err(RenderMsgErr(FAILED_SCOPE_STATE)))
  {
  }

  // ---------------------------------------------------------------------
  // The program's tables
  // ---------------------------------------------------------------------

  /**
   * What `build` sets up per scope: the scope's region of the main buffer,
   * its set index, its set layout exactly when it is used, and its stride:
   * the aligned scope size for a used scope, 0 for an unused one, and
   * `size_of::<Mat4>() * 10000` for the Local scope whatever its use.
   */
  ghost predicate ScopeTables(useSet: seq<bool>, sizes: seq<nat>, ranges: seq<Option<ValueRange>>,
                              descLayouts: seq<Option<Handle>>, strides: seq<nat>, mapping: seq<Option<nat>>)
  {
    && |useSet| == |sizes| == |ranges| == |descLayouts| == |strides| == |mapping| == SCOPE_COUNT
    && (forall s | 0 <= s < SCOPE_COUNT ::
          && ranges[s] == ScopeRange(useSet, sizes, s)
          && mapping[s] == SetIndex(useSet, s)
          && (descLayouts[s].Some? <==> useSet[s]))
    && (forall s | 0 <= s < 3 :: strides[s] == (if useSet[s] then ScopeStride(sizes[s]) else 0))
    && strides[3] == LOCAL_STRIDE
  }

  /** A scope is used exactly when it declares uniforms. */
  ghost predicate UniformShape(uniforms: seq<seq<UniformInfo>>, useSet: seq<bool>)
  {
    && |uniforms| == |useSet| == SCOPE_COUNT
    && forall s | 0 <= s < SCOPE_COUNT :: useSet[s] <==> |uniforms[s]| > 0
  }

  /** Where entry `i` of a region that starts at `start` begins: `i` strides in. */
  function EntryOffset(start: nat, stride: nat, i: nat): nat
  {
    start + stride * i
  }

  /** Entry `i` of a scope: its slice of the region, one texture per sampler. */
  predicate EntryAt(st: ScopeState, i: nat, range: Option<ValueRange>, stride: nat, samplerCount: nat)
  {
    && range.Some?
    && st.idx == i
    && st.bufferOffset == range.value.offset + stride * i
    && st.bufferStride == stride
    && |st.textures| == samplerCount <= MAX_SAMPLERS_PER_SHADER
  }

  /**
   * The entries: the Global scope has exactly the entry `build` made at
   * offset 0; every entry `i` of the other scopes is `EntryAt` position `i`.
   */
  ghost predicate EntryTables(states: seq<seq<ScopeState>>, ranges: seq<Option<ValueRange>>, strides: seq<nat>, samplerCounts: seq<nat>)
  {
    && |states| == |ranges| == |strides| == |samplerCounts| == SCOPE_COUNT
    && |states[0]| == 1
    && states[0][0].idx == 0 && states[0][0].bufferOffset == 0 && states[0][0].bufferStride == strides[0]
    && |states[0][0].textures| <= MAX_SAMPLERS_PER_SHADER
    && forall s, i | 1 <= s < SCOPE_COUNT && 0 <= i < |states[s]| :: EntryAt(states[s][i], i, ranges[s], strides[s], samplerCounts[s])
  }

  /** The entry tables `build` starts with: the Global entry alone. */
  lemma InitialEntryTables(g: ScopeState, ranges: seq<Option<ValueRange>>, strides: seq<nat>, samplerCounts: seq<nat>)
    requires |ranges| == |strides| == |samplerCounts| == SCOPE_COUNT
    requires g.idx == 0 && g.bufferOffset == 0 && g.bufferStride == strides[0] && |g.textures| <= MAX_SAMPLERS_PER_SHADER
    ensures EntryTables([[g], [], [], []], ranges, strides, samplerCounts)
  {
    var states := [[g], [], [], []];
    assert forall s | 1 <= s < SCOPE_COUNT :: |states[s]| == 0;
  }

  /** `acquire_scope_resource` reads the Local region wrongly only past its first entry. */
  lemma EntriesPastCapacityLeaveRegion(useSet: seq<bool>, sizes: seq<nat>, s: nat, i: nat)
    requires |useSet| == |sizes| == SCOPE_COUNT && s < 3 && useSet[s]
    requires i >= SCOPE_ENTRY_COUNTS[s]
    ensures var region := ScopeRange(useSet, sizes, s).value;
      region.offset + ScopeStride(sizes[s]) * i >= End(region)
  {
    MulMono(SCOPE_ENTRY_COUNTS[s], i, ScopeStride(sizes[s]));
  }

  class ShaderProgram {
    ghost const useSet: seq<bool>
    ghost const pushConstantSize: nat
    const pipeline: Pipeline
    const descPool: Handle
    const uniformLookups: map<string, UniformHandle>
    const uniforms: seq<seq<UniformInfo>>
    const mainBuffer: Handle
    const mainMemory: VulkanDeviceMemory
    const localBuffer: Handle
    const localMemory: VulkanDeviceMemory
    const scopeRanges: seq<Option<ValueRange>>
    const scopeDescLayouts: seq<Option<Handle>>
    const samplerCounts: seq<nat>
    /** The scopes' actual sizes. */
    const scopeSizes: seq<nat>
    /** The scopes' padded sizes. */
    const scopeStrides: seq<nat>
    const scopeSetMapping: seq<Option<nat>>
    var boundScope: ShaderScope
    var boundEntry: nat
    var boundOffset: nat
    var scopeEntryStates: seq<seq<ScopeState>>
    const globalEntry: ResourceHandle
    const pushConstants: seq<PushConstantInfo>
    const pushConstantLookups: map<string, ResourceHandle>

    /** The main buffer is the whole main region, mapped whole when mapped at all; likewise the local buffer. */
    ghost predicate MemoryValid()
      reads this, mainMemory, localMemory
      requires |useSet| == |scopeSizes| == SCOPE_COUNT
    {
      && mainMemory != localMemory && mainMemory.bytes != localMemory.bytes
      && mainMemory.Valid() && localMemory.Valid()
      && mainMemory.bytes.Length == MainBufferSize(useSet, scopeSizes)
      && (mainMemory.memMap.Some? ==> mainMemory.memMap.value == VulkanMemoryMap(mainMemory.bytes, 0, mainMemory.bytes.Length))
      && localMemory.bytes.Length == LOCAL_STRIDE
      && (localMemory.memMap.Some? ==> localMemory.memMap.value == VulkanMemoryMap(localMemory.bytes, 0, LOCAL_STRIDE))
    }

    ghost predicate Valid()
      reads this, mainMemory, localMemory
    {
      && UniformShape(uniforms, useSet) && LookupsPoint(uniforms, uniformLookups)
      && PushConstantTable(pushConstants, pushConstantSize, pushConstantLookups, |uniforms[3]|)
      && ScopeTables(useSet, scopeSizes, scopeRanges, scopeDescLayouts, scopeStrides, scopeSetMapping)
      && EntryTables(scopeEntryStates, scopeRanges, scopeStrides, samplerCounts)
      && globalEntry == ResourceHandle(0)
      && boundEntry < |scopeEntryStates[ScopeIdx(boundScope)]|
      && boundOffset == scopeEntryStates[ScopeIdx(boundScope)][boundEntry].bufferOffset
      && MemoryValid()
    }

    /** The program `build` assembles, with the Global entry bound. */
    constructor (d: Declarations, samplerCounts: seq<nat>, pipeline: Pipeline, descPool: Handle,
                 mainBuffer: Handle, mainMemory: VulkanDeviceMemory, localBuffer: Handle, localMemory: VulkanDeviceMemory,
                 scopeRanges: seq<Option<ValueRange>>, scopeDescLayouts: seq<Option<Handle>>,
                 scopeStrides: seq<nat>, scopeSetMapping: seq<Option<nat>>, globalState: ScopeState)
      ensures useSet == d.useSet && pushConstantSize == d.pushConstantSize
      ensures uniforms == d.uniforms && uniformLookups == d.uniformLookups && scopeSizes == d.scopeSizes
      ensures pushConstants == d.pushConstants && pushConstantLookups == d.pushConstantLookups
      ensures this.samplerCounts == samplerCounts && this.pipeline == pipeline && this.descPool == descPool
      ensures this.mainBuffer == mainBuffer && this.mainMemory == mainMemory
      ensures this.localBuffer == localBuffer && this.localMemory == localMemory
      ensures this.scopeRanges == scopeRanges && this.scopeDescLayouts == scopeDescLayouts
      ensures this.scopeStrides == scopeStrides && this.scopeSetMapping == scopeSetMapping
      ensures scopeEntryStates == [[globalState], [], [], []] && globalEntry == ResourceHandle(0)
      ensures boundScope == Global && boundEntry == 0 && boundOffset == 0
    {
      useSet := d.useSet;
      pushConstantSize := d.pushConstantSize;
      uniforms := d.uniforms;
      uniformLookups := d.uniformLookups;
      scopeSizes := d.scopeSizes;
      pushConstants := d.pushConstants;
      pushConstantLookups := d.pushConstantLookups;
      this.samplerCounts := samplerCounts;
      this.pipeline := pipeline;
      this.descPool := descPool;
      this.mainBuffer := mainBuffer;
      this.mainMemory := mainMemory;
      this.localBuffer := localBuffer;
      this.localMemory := localMemory;
      this.scopeRanges := scopeRanges;
      this.scopeDescLayouts := scopeDescLayouts;
      this.scopeStrides := scopeStrides;
      this.scopeSetMapping := scopeSetMapping;
      scopeEntryStates := [[globalState], [], [], []];
      globalEntry := ResourceHandle(0);
      boundScope := Global;
      boundEntry := 0;
      boundOffset := 0;
    }

    // -------------------------------------------------------------------
    // Lookups
    // -------------------------------------------------------------------

    /** `uniform_handle`: a found handle names a declared uniform of that name. */
    function LookupUniform(name: string): (r: Option<UniformHandle>)
      requires Valid()
      reads this, mainMemory, localMemory
      ensures r.Some? <==> name in uniformLookups
      ensures r.Some? ==> r.value.idx < |uniforms[ScopeIdx(r.value.scope)]|
                          && uniforms[ScopeIdx(r.value.scope)][r.value.idx].name == name
    {
      if name in uniformLookups then Some(uniformLookups[name]) else None
    }

    /** `uniform_handle_res`: as `uniform_handle`, with a render error for an unknown name. */
    function LookupUniformRes(name: string): (r: HellResult<UniformHandle>)
      requires Valid()
      reads this, mainMemory, localMemory
      ensures r.Ok? <==> name in uniformLookups
      ensures r.Ok? ==> r.value == uniformLookups[name]
      ensures r.Err? ==> r.error == RenderMsgErr(FAILED_UNIFORM)
    {
      OkOrRenderHerr(LookupUniform(name), FAILED_UNIFORM)
    }

    /** `push_constant_handle`: only `local_idx` is ever declared, once the first Local uniform is. */
    function LookupPushConstant(name: string): (r: Option<ResourceHandle>)
      requires Valid()
      reads this, mainMemory, localMemory
      ensures r.Some? <==> name == LOCAL_IDX_NAME && |uniforms[3]| > 0
      ensures r.Some? ==> r.value == pushConstantLookups[name] && r.value.idx < |pushConstants|
    {
      if name in pushConstantLookups then
        LocalIdxLookup(pushConstants);
        Some(pushConstantLookups[name])
      else None
    }

    /** `push_constant_handle_res`. */
    function LookupPushConstantRes(name: string): (r: HellResult<ResourceHandle>)
      requires Valid()
      reads this, mainMemory, localMemory
      ensures r.Ok? <==> name == LOCAL_IDX_NAME && |uniforms[3]| > 0
      ensures r.Err? ==> r.error == RenderMsgErr(FAILED_PUSH_CONSTANT)
    {
      OkOrRenderHerr(LookupPushConstant(name), FAILED_PUSH_CONSTANT)
    }

    // -------------------------------------------------------------------
    // Binding and writing
    // -------------------------------------------------------------------

    /**
     * `bind_scope`: the entry becomes the target of `set_uniform`. The
     * Global scope has only entry 0 (a debug assertion), and an entry that
     * was never acquired panics on the index.
     */
    method BindScope(scope: ShaderScope, entry: nat)
      requires Valid()
      requires scope != Global || entry == 0
      requires entry < |scopeEntryStates[ScopeIdx(scope)]|
      modifies this`boundScope, this`boundEntry, this`boundOffset
      ensures Valid()
      ensures boundScope == scope && boundEntry == entry
      ensures boundOffset == scopeEntryStates[ScopeIdx(scope)][entry].bufferOffset
      ensures scope == Global ==> boundOffset == 0
      ensures scope != Global ==> boundOffset == scopeRanges[ScopeIdx(scope)].value.offset + scopeStrides[ScopeIdx(scope)] * entry
    {
      var state := scopeEntryStates[ScopeIdx(scope)][entry];
      boundScope := scope;
      boundEntry := entry;
      boundOffset := state.bufferOffset;
    }

    method BindGlobal()
      requires Valid()
      modifies this`boundScope, this`boundEntry, this`boundOffset
      ensures Valid() && boundScope == Global && boundEntry == 0 && boundOffset == 0
    {
      BindScope(Global, 0);
    }

    method BindShared(entry: nat)
      requires Valid() && entry < |scopeEntryStates[1]|
      modifies this`boundScope, this`boundEntry, this`boundOffset
      ensures Valid() && boundScope == Shared && boundEntry == entry
      ensures boundOffset == scopeRanges[1].value.offset + scopeStrides[1] * entry
    {
      BindScope(Shared, entry);
    }

    method BindInstance(entry: nat)
      requires Valid() && entry < |scopeEntryStates[2]|
      modifies this`boundScope, this`boundEntry, this`boundOffset
      ensures Valid() && boundScope == Instance && boundEntry == entry
      ensures boundOffset == scopeRanges[2].value.offset + scopeStrides[2] * entry
    {
      BindScope(Instance, entry);
    }

    method BindLocal(entry: nat)
      requires Valid() && entry < |scopeEntryStates[3]|
      modifies this`boundScope, this`boundEntry, this`boundOffset
      ensures Valid() && boundScope == Local && boundEntry == entry
      ensures boundOffset == scopeRanges[3].value.offset + LOCAL_STRIDE * entry
    {
      BindScope(Local, entry);
    }

    /**
     * `set_uniform`: the value's bytes are copied to the bound entry's
     * offset plus the uniform's offset, whichever scope the handle belongs
     * to and whatever the value's size. Copying outside the mapped buffer is
     * undefined behaviour in the source, so staying inside it is the
     * caller's obligation here. An unmapped buffer is an error.
     */
    method SetUniform(handle: UniformHandle, value: seq<seq<bv8>>, elemSize: nat) returns (r: HellResult<()>)
      requires Valid()
      requires handle.idx < |uniforms[ScopeIdx(handle.scope)]|
      requires forall i | 0 <= i < |value| :: |value[i]| == elemSize
      requires boundOffset + uniforms[ScopeIdx(handle.scope)][handle.idx].range.offset + |value| * elemSize
               <= mainMemory.bytes.Length
      modifies mainMemory.bytes
      ensures Valid()
      ensures mainMemory.memMap.None? ==> r == Err(RenderMsgErr(NO_MAPPED_MEMORY_MUT)) && unchanged(mainMemory.bytes)
      ensures mainMemory.memMap.Some? ==>
        && r == Ok(())
        && mainMemory.bytes[..] == Overwrite(old(mainMemory.bytes[..]),
                                          boundOffset + uniforms[ScopeIdx(handle.scope)][handle.idx].range.offset,
                                          Flatten(value, elemSize))
    {
      var uniform := uniforms[ScopeIdx(handle.scope)][handle.idx];
      var offset := boundOffset + uniform.range.offset;
      var m := mainMemory.MappedMemoryMut();
      if m.Err? {
        return Err(m.error);
      }
      CopyFromNonoverlapping(m.value, value, elemSize, offset);
      r := Ok(());
    }

    /** `set_local_storage`: the value's bytes are copied to the start of the local buffer. */
    method SetLocalStorage(value: seq<seq<bv8>>, elemSize: nat) returns (r: HellResult<()>)
      requires Valid()
      requires forall i | 0 <= i < |value| :: |value[i]| == elemSize
      requires |value| * elemSize <= LOCAL_STRIDE
      modifies localMemory.bytes
      ensures Valid()
      ensures localMemory.memMap.None? ==> r == Err(RenderMsgErr(NO_MAPPED_MEMORY_MUT)) && unchanged(localMemory.bytes)
      ensures localMemory.memMap.Some? ==>
        && r == Ok(())
        && localMemory.bytes[..] == Overwrite(old(localMemory.bytes[..]), 0, Flatten(value, elemSize))
    {
      var m := localMemory.MappedMemoryMut();
      if m.Err? {
        return Err(m.error);
      }
      CopyFromNonoverlapping(m.value, value, elemSize, 0);
      r := Ok(());
    }

    /**
     * `set_local_idx`: the index is pushed as the `local_idx` push
     * constant. It fails when no Local uniform was declared; its offset is 0
     * after one Local declaration and 4 after several, because every Local
     * declaration appended another `local_idx` and the lookup names the
     * second one.
     */
    function SetLocalIdx(frame: VulkanFrame, idx: nat): (r: HellResult<PushConstantCmd>)
      requires Valid() && frame.Valid()
      reads this, mainMemory, localMemory, frame
      ensures r.Ok? <==> |uniforms[3]| > 0
      ensures r.Err? ==> r.error == RenderMsgErr(FAILED_PUSH_CONSTANT)
      ensures r.Ok? ==> r.value.cmdBuffer == frame.GfxCmdBuffer() && r.value.pipelineLayout == pipeline.layout
                        && r.value.values == [idx]
      ensures |uniforms[3]| == 1 ==> r.Ok? && r.value.offset == 0
      ensures |uniforms[3]| >= 2 ==> r.Ok? && r.value.offset == U32_SIZE
    {
      var handle := LookupPushConstantRes(LOCAL_IDX_NAME);
      if handle.Err? then Err(handle.error)
      else
        LocalIdxLookup(pushConstants);
        Ok(PushConstantCmd(frame.GfxCmdBuffer(), pipeline.layout, pushConstants[handle.value.idx].range.offset, [idx]))
    }

    // -------------------------------------------------------------------
    // Scope entries
    // -------------------------------------------------------------------

    /**
     * `calc_buffer_offset_and_size`: entry `i` of a scope starts `i` strides
     * into the scope's region; a scope without a region is an error.
     */
    function CalcBufferOffsetAndSize(scope: ShaderScope, i: nat): (r: HellResult<(nat, nat)>)
      requires Valid()
      reads this, mainMemory, localMemory
      ensures r.Ok? <==> useSet[ScopeIdx(scope)]
      ensures r.Err? ==> r.error == RenderMsgErr(FAILED_SCOPE_RANGE)
      ensures r.Ok? ==>
        && r.value.1 == scopeStrides[ScopeIdx(scope)]
        && r.value.0 == RegionStart(useSet, scopeSizes, ScopeIdx(scope)) + r.value.1 * i
      ensures r.Ok? && scope != Local ==> r.value.1 == ScopeStride(scopeSizes[ScopeIdx(scope)])
    {
      var s := ScopeIdx(scope);
      assert scopeRanges[s] == ScopeRange(useSet, scopeSizes, s);
      var range := OkOrRenderHerr(scopeRanges[s], FAILED_SCOPE_RANGE);
      if range.Err? then Err(range.error)
      else
        var stride := scopeStrides[s];
        assert scope != Local ==> s < 3 && stride == ScopeStride(scopeSizes[s]);
        Ok((range.value.offset + stride * i, stride))
    }

    /**
     * `acquire_scope_resource`: a new entry of a non-Global scope, one
     * stride further into the scope's region than the last, with its own
     * descriptor sets (`descSets`, the outcome of allocating them) and
     * textures. The count is not checked against the scope's entry count.
     * A scope without a set layout, or a failed allocation, changes nothing.
     */
    method AcquireScopeResource(scope: ShaderScope, tex: seq<ResourceHandle>, descSets: HellResult<DescriptorSets>)
      returns (r: HellResult<ResourceHandle>)
      requires Valid()
      requires scope != Global
      requires |tex| == samplerCounts[ScopeIdx(scope)]
      requires |tex| <= MAX_SAMPLERS_PER_SHADER
      modifies this`scopeEntryStates
      ensures Valid()
      ensures !useSet[ScopeIdx(scope)] ==> r == Err(RenderMsgErr(FAILED_DESC_LAYOUT)) && scopeEntryStates == old(scopeEntryStates)
      ensures useSet[ScopeIdx(scope)] && descSets.Err? ==> r == Err(descSets.error) && scopeEntryStates == old(scopeEntryStates)
      ensures useSet[ScopeIdx(scope)] && descSets.Ok? ==>
        var s := ScopeIdx(scope);
        var idx := |old(scopeEntryStates[s])|;
        && r == Ok(ResourceHandle(idx))
        && scopeEntryStates == old(scopeEntryStates)[s := old(scopeEntryStates[s]) + [
             ScopeState(idx, EntryOffset(scopeRanges[s].value.offset, scopeStrides[s], idx), scopeStrides[s], descSets.value, tex)]]
    {
      var s := ScopeIdx(scope);
      var layout := OkOrRenderHerr(scopeDescLayouts[s], FAILED_DESC_LAYOUT);
      if layout.Err? {
        return Err(layout.error);
      }
      var idx := |scopeEntryStates[s]|;
      if descSets.Err? {
        return Err(descSets.error);
      }
      var offsetAndSize := CalcBufferOffsetAndSize(scope, idx);
      assert offsetAndSize.Ok?;
      var (offset, stride) := offsetAndSize.value;
      var state := ScopeState(idx, offset, stride, descSets.value, tex);
      scopeEntryStates := scopeEntryStates[s := scopeEntryStates[s] + [state]];
      r := Ok(ResourceHandle(idx));
    }

    method AcquireSharedResource(tex: seq<ResourceHandle>, descSets: HellResult<DescriptorSets>) returns (r: HellResult<ResourceHandle>)
      requires Valid() && |tex| == samplerCounts[1] <= MAX_SAMPLERS_PER_SHADER
      modifies this`scopeEntryStates
      ensures Valid()
      ensures r.Ok? <==> useSet[1] && descSets.Ok?
      ensures r.Ok? ==>
        && r.value == ResourceHandle(|old(scopeEntryStates[1])|)
        && scopeEntryStates[1] == old(scopeEntryStates[1]) + [
             ScopeState(r.value.idx, scopeRanges[1].value.offset + scopeStrides[1] * r.value.idx, scopeStrides[1], descSets.value, tex)]
      ensures scopeEntryStates[0] == old(scopeEntryStates[0]) && scopeEntryStates[2..] == old(scopeEntryStates[2..])
    {
      r := AcquireScopeResource(Shared, tex, descSets);
    }

    method AcquireInstanceResource(tex: seq<ResourceHandle>, descSets: HellResult<DescriptorSets>) returns (r: HellResult<ResourceHandle>)
      requires Valid() && |tex| == samplerCounts[2] <= MAX_SAMPLERS_PER_SHADER
      modifies this`scopeEntryStates
      ensures Valid()
      ensures r.Ok? <==> useSet[2] && descSets.Ok?
      ensures r.Ok? ==>
        && r.value == ResourceHandle(|old(scopeEntryStates[2])|)
        && scopeEntryStates[2] == old(scopeEntryStates[2]) + [
             ScopeState(r.value.idx, scopeRanges[2].value.offset + scopeStrides[2] * r.value.idx, scopeStrides[2], descSets.value, tex)]
      ensures scopeEntryStates[..2] == old(scopeEntryStates[..2]) && scopeEntryStates[3] == old(scopeEntryStates[3])
    {
      r := AcquireScopeResource(Instance, tex, descSets);
    }

    method AcquireLocalResource(tex: seq<ResourceHandle>, descSets: HellResult<DescriptorSets>) returns (r: HellResult<ResourceHandle>)
      requires Valid() && |tex| == samplerCounts[3] <= MAX_SAMPLERS_PER_SHADER
      modifies this`scopeEntryStates
      ensures Valid()
      ensures r.Ok? <==> useSet[3] && descSets.Ok?
      ensures r.Ok? ==>
        && r.value == ResourceHandle(|old(scopeEntryStates[3])|)
        && scopeEntryStates[3] == old(scopeEntryStates[3]) + [
             ScopeState(r.value.idx, scopeRanges[3].value.offset + scopeStrides[3] * r.value.idx, scopeStrides[3], descSets.value, tex)]
      ensures scopeEntryStates[..3] == old(scopeEntryStates[..3])
    {
      r := AcquireScopeResource(Local, tex, descSets);
    }

    // -------------------------------------------------------------------
    // Applying scopes
    // -------------------------------------------------------------------

    /**
     * `apply_main_scope_intern`: the texture handles are resolved one by
     * one, then the writes are issued and the entry's set bound; the result
     * is what `ApplyMainSpec` says.
     */
    method ApplyMainScopeIntern(scope: ShaderScope, frame: VulkanFrame, texMan: TextureManager, entry: ResourceHandle)
      returns (issued: seq<DescriptorWrite>, r: HellResult<BindCmd>)
      requires Valid() && frame.Valid()
      ensures (issued, r) == ApplyMainSpec(scopeEntryStates[ScopeIdx(scope)], entry, samplerCounts[ScopeIdx(scope)],
                                           scopeSetMapping[ScopeIdx(scope)], frame.Idx(), frame.GfxCmdBuffer(),
                                           pipeline.layout, mainBuffer, texMan.State())
    {
      var s := ScopeIdx(scope);
      if entry.idx >= |scopeEntryStates[s]| {
        return [], Err(RenderMsgErr(FAILED_SCOPE_STATE));
      }
      var state := scopeEntryStates[s][entry.idx];
      var descSet := state.bufferDescSets[frame.Idx()];
      var texHandles := state.textures;
      var writes := [BufferWrite(descSet, BINDING_IDX_UBO, UniformBuffer, mainBuffer, state.bufferOffset, state.bufferStride)];
      var samplerCount := samplerCounts[s];
      if samplerCount > 0 {
        if |texHandles| != samplerCount {
          return [], Err(RenderMsgErr(SAMPLER_TEX_MISMATCH));
        }
        var images: seq<RenderTexture> := [];
        for i := 0 to |texHandles|
          invariant ResolveTextures(texMan.State(), texHandles[..i]) == Ok(images)
        {
          var tex := texMan.TextureResult(texHandles[i]);
          assert texHandles[..i + 1][..i] == texHandles[..i];
          if tex.Err? {
            assert ResolveTextures(texMan.State(), texHandles).Err?;
            return [], Err(tex.error);
          }
          images := images + [tex.value];
        }
        assert texHandles[..|texHandles|] == texHandles;
        if |images| > 0 {
          writes := writes + [ImageWrite(descSet, BINDING_IDX_SAMPLER, images)];
        }
      }
      var bound := BindAndUpdate(writes, scopeSetMapping[s], frame.GfxCmdBuffer(), pipeline.layout, descSet);
      issued, r := bound.0, bound.1;
    }

    /**
     * `apply_global_scope`: the Global entry built with the program. It
     * fails after issuing its writes when the Global scope has no set.
     */
    method ApplyGlobalScope(frame: VulkanFrame, texMan: TextureManager) returns (issued: seq<DescriptorWrite>, r: HellResult<BindCmd>)
      requires Valid() && frame.Valid()
      ensures (issued, r) == ApplyMainSpec(scopeEntryStates[0], globalEntry, samplerCounts[0], scopeSetMapping[0],
                                           frame.Idx(), frame.GfxCmdBuffer(), pipeline.layout, mainBuffer, texMan.State())
      ensures !useSet[0] ==> r.Err? && (issued != [] ==> r.error == RenderMsgErr(FAILED_SCOPE_MAPPING))
      ensures r.Ok? ==> r.value.firstSet == 0
    {
      issued, r := ApplyMainScopeIntern(Global, frame, texMan, globalEntry);
    }

    method ApplySharedScope(frame: VulkanFrame, texMan: TextureManager, entry: ResourceHandle)
      returns (issued: seq<DescriptorWrite>, r: HellResult<BindCmd>)
      requires Valid() && frame.Valid()
      ensures (issued, r) == ApplyMainSpec(scopeEntryStates[1], entry, samplerCounts[1], scopeSetMapping[1],
                                           frame.Idx(), frame.GfxCmdBuffer(), pipeline.layout, mainBuffer, texMan.State())
      ensures r.Ok? ==> r.value.firstSet == UsedBefore(useSet, 1)
    {
      issued, r := ApplyMainScopeIntern(Shared, frame, texMan, entry);
    }

    method ApplyInstanceScope(frame: VulkanFrame, texMan: TextureManager, entry: ResourceHandle)
      returns (issued: seq<DescriptorWrite>, r: HellResult<BindCmd>)
      requires Valid() && frame.Valid()
      ensures (issued, r) == ApplyMainSpec(scopeEntryStates[2], entry, samplerCounts[2], scopeSetMapping[2],
                                           frame.Idx(), frame.GfxCmdBuffer(), pipeline.layout, mainBuffer, texMan.State())
      ensures r.Ok? ==> r.value.firstSet == UsedBefore(useSet, 2)
    {
      issued, r := ApplyMainScopeIntern(Instance, frame, texMan, entry);
    }

    /**
     * `apply_local_scope`: Local entry 0's set is pointed at the whole
     * local storage buffer (offset 0, one Local stride) and bound at the
     * Local scope's set index; entry 0 must exist (the index panics).
     */
    method ApplyLocalScope(frame: VulkanFrame) returns (issued: seq<DescriptorWrite>, r: HellResult<BindCmd>)
      requires Valid() && frame.Valid()
      requires |scopeEntryStates[3]| > 0
      ensures var descSet := scopeEntryStates[3][0].bufferDescSets[frame.Idx()];
        && issued == [BufferWrite(descSet, BINDING_IDX_UBO, StorageBuffer, localBuffer, 0, LOCAL_STRIDE)]
        && r == Ok(BindCmd(frame.GfxCmdBuffer(), pipeline.layout, UsedBefore(useSet, 3), descSet))
    {
      var bufferStride := scopeStrides[3];
      var descSet := scopeEntryStates[3][0].bufferDescSets[frame.Idx()];
      var writes := [BufferWrite(descSet, BINDING_IDX_UBO, StorageBuffer, localBuffer, 0, bufferStride)];
      var bound := BindAndUpdate(writes, scopeSetMapping[3], frame.GfxCmdBuffer(), pipeline.layout, descSet);
      issued, r := bound.0, bound.1;
    }
  }

  // ---------------------------------------------------------------------
  // build
  // ---------------------------------------------------------------------

  /**
   * The outcome of every Vulkan call `build` makes: the descriptor pool,
   * one set layout per scope (consulted for used scopes only), the main
   * and local buffers and their mappings (`None` when mapping succeeds),
   * the global descriptor sets, the shader module and the pipeline.
   */
  datatype BuildBackend = BuildBackend(
    descPool: HellResult<Handle>,
    setLayouts: seq<HellResult<Handle>>,
    mainBuffer: HellResult<Handle>,
    mainMapFailure: Option<SourceError>,
    localBuffer: HellResult<Handle>,
    localMapFailure: Option<SourceError>,
    globalDescSets: HellResult<DescriptorSets>,
    shader: HellResult<Handle>,
    pipeline: HellResult<Pipeline>)

  /** The failure of the first used scope, from scope `n` on, whose set layout cannot be created. */
  function FirstLayoutError(useSet: seq<bool>, layouts: seq<HellResult<Handle>>, n: nat): (r: Option<HellError>)
    requires |useSet| == |layouts| == SCOPE_COUNT && n <= SCOPE_COUNT
    ensures r.None? <==> forall s | n <= s < SCOPE_COUNT :: useSet[s] ==> layouts[s].Ok?
    decreases SCOPE_COUNT - n
  {
    if n == SCOPE_COUNT then None
    else if useSet[n] && layouts[n].Err? then Some(layouts[n].error)
    else FirstLayoutError(useSet, layouts, n + 1)
  }

  /** The error reported is that of a used scope, and every used scope before it has its layout. */
  lemma {:induction false} FirstLayoutErrorIsFirst(useSet: seq<bool>, layouts: seq<HellResult<Handle>>, n: nat)
    requires |useSet| == |layouts| == SCOPE_COUNT && n <= SCOPE_COUNT
    requires FirstLayoutError(useSet, layouts, n).Some?
    ensures exists s | n <= s < SCOPE_COUNT ::
      && useSet[s] && layouts[s] == Err(FirstLayoutError(useSet, layouts, n).value)
      && forall t | n <= t < s :: useSet[t] ==> layouts[t].Ok?
    decreases SCOPE_COUNT - n
  {
    if useSet[n] && layouts[n].Err? {
      assert useSet[n] && layouts[n] == Err(FirstLayoutError(useSet, layouts, n).value);
    } else {
      FirstLayoutErrorIsFirst(useSet, layouts, n + 1);
      var s :| n + 1 <= s < SCOPE_COUNT && useSet[s] && layouts[s] == Err(FirstLayoutError(useSet, layouts, n + 1).value)
               && forall t | n + 1 <= t < s :: useSet[t] ==> layouts[t].Ok?;
      assert forall t | n <= t < s :: useSet[t] ==> layouts[t].Ok?;
    }
  }

  /** Every Vulkan call before the global descriptor-set allocation succeeds, so `build` makes that allocation. */
  predicate GlobalAllocReached(useSet: seq<bool>, b: BuildBackend)
    requires |useSet| == |b.setLayouts| == SCOPE_COUNT
  {
    && b.descPool.Ok? && FirstLayoutError(useSet, b.setLayouts, 0).None?
    && b.mainBuffer.Ok? && b.mainMapFailure.None? && b.localBuffer.Ok? && b.localMapFailure.None?
  }

  /** Every Vulkan call before the pipeline's succeeds, so `build` goes on to create the pipeline. */
  predicate PipelineReached(useSet: seq<bool>, b: BuildBackend)
    requires |useSet| == |b.setLayouts| == SCOPE_COUNT
  {
    && b.descPool.Ok? && FirstLayoutError(useSet, b.setLayouts, 0).None?
    && b.mainBuffer.Ok? && b.mainMapFailure.None? && b.localBuffer.Ok? && b.localMapFailure.None?
    && b.globalDescSets.Ok? && b.shader.Ok?
  }

  /** The error `build` reports, if any: the first Vulkan call that fails, in the order `build` makes them. */
  function BuildError(useSet: seq<bool>, b: BuildBackend): (r: Option<HellError>)
    requires |useSet| == |b.setLayouts| == SCOPE_COUNT
    ensures r.None? <==> PipelineReached(useSet, b) && b.pipeline.Ok?
    ensures PipelineReached(useSet, b) && b.pipeline.Err? ==> r == Some(b.pipeline.error)
  {
    if b.descPool.Err? then Some(b.descPool.error)
    else if FirstLayoutError(useSet, b.setLayouts, 0).Some? then FirstLayoutError(useSet, b.setLayouts, 0)
    else if b.mainBuffer.Err? then Some(b.mainBuffer.error)
    else if b.mainMapFailure.Some? then Some(FromForeign(b.mainMapFailure.value))
    else if b.localBuffer.Err? then Some(b.localBuffer.error)
    else if b.localMapFailure.Some? then Some(FromForeign(b.localMapFailure.value))
    else if b.globalDescSets.Err? then Some(b.globalDescSets.error)
    else if b.shader.Err? then Some(b.shader.error)
    else if b.pipeline.Err? then Some(b.pipeline.error)
    else None
  }

  /** The per-scope tables the scope loop of `build` produces. */
  datatype ScopePlan = ScopePlan(
    setLayouts: seq<Handle>,
    descLayouts: seq<Option<Handle>>,
    ranges: seq<Option<ValueRange>>,
    mainBufferSize: nat,
    strides: seq<nat>,
    setMapping: seq<Option<nat>>)

  /**
   * The vertex part of `build`: attribute i at location i of binding 0,
   * offset by the sizes of the attributes before it; the stride is the
   * total.
   */
  method VertexInput(attrs: seq<AttributeInfo>) returns (stride: nat, descs: seq<VertexAttributeDescription>)
    requires |attrs| <= MAX_ATTRIBUTE_COUNT
    ensures stride == VertexStride(attrs)
    ensures |descs| == |attrs|
    ensures forall i | 0 <= i < |attrs| :: descs[i] == VertexDescription(attrs, i)
  {
    stride := 0;
    descs := [];
    for i := 0 to |attrs|
      invariant stride == VertexStride(attrs[..i])
      invariant |descs| == i
      invariant forall j | 0 <= j < i :: descs[j] == VertexDescription(attrs, j)
    {
      descs := descs + [VertexAttributeDescription(i, 0, ToVkFormat(attrs[i].format), stride)];
      assert attrs[..i + 1][..i] == attrs[..i];
      stride := stride + Size(attrs[i].format);
    }
    assert attrs[..|attrs|] == attrs;
  }

  /** The scope loop's tables once scopes `0..n` are planned; the later scopes keep their defaults. */
  ghost predicate Planned(useSet: seq<bool>, sizes: seq<nat>, layouts: seq<HellResult<Handle>>, p: ScopePlan, n: nat)
  {
    && |useSet| == |sizes| == |layouts| == |p.descLayouts| == |p.ranges| == |p.strides| == |p.setMapping| == SCOPE_COUNT
    && n <= SCOPE_COUNT
    && p.mainBufferSize == RegionStart(useSet, sizes, n)
    && |p.setLayouts| == UsedBefore(useSet, n)
    && (forall s | 0 <= s < n && useSet[s] ::
          && layouts[s].Ok?
          && UsedBefore(useSet, s) < |p.setLayouts|
          && p.setLayouts[UsedBefore(useSet, s)] == layouts[s].value)
    && (forall s | 0 <= s < n ::
          && p.ranges[s] == ScopeRange(useSet, sizes, s)
          && p.setMapping[s] == SetIndex(useSet, s)
          && p.descLayouts[s] == (if useSet[s] then Some(layouts[s].value) else None)
          && p.strides[s] == (if useSet[s] then ScopeStride(sizes[s]) else 0))
    && (forall s | n <= s < SCOPE_COUNT ::
          p.ranges[s] == None && p.setMapping[s] == None && p.descLayouts[s] == None && p.strides[s] == 0)
  }

  /** An unused scope is skipped: nothing of the plan changes. */
  lemma PlanSkip(useSet: seq<bool>, sizes: seq<nat>, layouts: seq<HellResult<Handle>>, p: ScopePlan, n: nat)
    requires Planned(useSet, sizes, layouts, p, n) && n < SCOPE_COUNT && !useSet[n]
    ensures Planned(useSet, sizes, layouts, p, n + 1)
  {
  }

  /**
   * One used scope's step of the loop: it takes the next set index (the
   * number of set layouts created so far), a region of `entryCount` strides
   * right after the regions before it, and its set layout.
   */
  function UseScope(p: ScopePlan, n: nat, stride: nat, entryCount: nat, layout: Handle): ScopePlan
    requires n < |p.descLayouts| && n < |p.ranges| && n < |p.strides| && n < |p.setMapping|
  {
    var size := stride * entryCount;
    ScopePlan(p.setLayouts + [layout],
              p.descLayouts[n := Some(layout)],
              p.ranges[n := Some(ValueRange(p.mainBufferSize, size))],
              p.mainBufferSize + size,
              p.strides[n := stride],
              p.setMapping[n := Some(|p.setLayouts|)])
  }

  /** A used scope whose layout exists extends the plan by one scope. */
  lemma PlanUse(useSet: seq<bool>, sizes: seq<nat>, layouts: seq<HellResult<Handle>>, p: ScopePlan, n: nat, stride: nat, entryCount: nat)
    requires Planned(useSet, sizes, layouts, p, n) && n < SCOPE_COUNT && useSet[n] && layouts[n].Ok?
    requires stride == ScopeStride(sizes[n]) && entryCount == SCOPE_ENTRY_COUNTS[n]
    ensures Planned(useSet, sizes, layouts, UseScope(p, n, stride, entryCount, layouts[n].value), n + 1)
  {
  }

  /** The planned tables once every scope is planned. */
  lemma PlannedAll(useSet: seq<bool>, sizes: seq<nat>, layouts: seq<HellResult<Handle>>, p: ScopePlan)
    requires Planned(useSet, sizes, layouts, p, SCOPE_COUNT)
    ensures p.mainBufferSize == MainBufferSize(useSet, sizes)
    ensures |p.setLayouts| == UsedBefore(useSet, SCOPE_COUNT)
  {
  }

  /**
   * The scope loop of `build`: every used scope, in scope order, gets the
   * next set index, a region of `entry_count` strides after the regions
   * before it, and a set layout (`layouts[s]`, the outcome of creating
   * it), which also joins the dense list of set layouts. The first layout
   * that cannot be created ends the loop.
   */
  method PlanScopes(b: ShaderProgramBuilder, layouts: seq<HellResult<Handle>>) returns (r: HellResult<ScopePlan>)
    requires b.uboAlignment == UBO_ALIGNMENT && b.scopeEntryCount == SCOPE_ENTRY_COUNTS
    requires |b.useSet| == |b.scopeSizes| == |layouts| == SCOPE_COUNT
    ensures r.Err? <==> FirstLayoutError(b.useSet, layouts, 0).Some?
    ensures r.Err? ==> r.error == FirstLayoutError(b.useSet, layouts, 0).value
    ensures r.Ok? ==> Planned(b.useSet, b.scopeSizes, layouts, r.value, SCOPE_COUNT)
    ensures r.Ok? ==> r.value.mainBufferSize == MainBufferSize(b.useSet, b.scopeSizes)
  {
    var useSet := b.useSet;
    var sizes := b.scopeSizes;
    var plan := ScopePlan([], [None, None, None, None], [None, None, None, None], 0, [0, 0, 0, 0], [None, None, None, None]);
    for idx := 0 to SCOPE_COUNT
      invariant Planned(useSet, sizes, layouts, plan, idx)
      invariant FirstLayoutError(useSet, layouts, 0) == FirstLayoutError(useSet, layouts, idx)
    {
      if !useSet[idx] {
        PlanSkip(useSet, sizes, layouts, plan, idx);
        continue;
      }
      var entryCount := b.scopeEntryCount[idx];
      var uboStride := b.CalculateUboStride(ScopeFromIdx(idx));
      ScopeIdxRoundTrip(Global, idx);
      if layouts[idx].Err? {
        return Err(layouts[idx].error);
      }
      PlanUse(useSet, sizes, layouts, plan, idx, uboStride, entryCount);
      plan := UseScope(plan, idx, uboStride, entryCount, layouts[idx].value);
    }
    PlannedAll(useSet, sizes, layouts, plan);
    r := Ok(plan);
  }

  /** What `build` relies on of the builder's invariant. */
  ghost predicate BuildReady(b: ShaderProgramBuilder)
    reads b
  {
    && b.uboAlignment == UBO_ALIGNMENT && b.scopeEntryCount == SCOPE_ENTRY_COUNTS
    && PerScope(b.Decls()) && |b.samplerCounts| == SCOPE_COUNT && |b.attributes| <= MAX_ATTRIBUTE_COUNT
    && UniformShape(b.uniforms, b.useSet) && LookupsPoint(b.uniforms, b.uniformLookups)
    && PushConstantTable(b.pushConstants, b.pushConstantSize, b.pushConstantLookups, |b.uniforms[3]|)
  }

  /** A valid builder is ready to build. */
  lemma ValidBuilderIsReady(b: ShaderProgramBuilder)
    requires b.Valid()
    ensures BuildReady(b)
  {
    forall s | 0 <= s < SCOPE_COUNT
      ensures b.useSet[s] <==> |b.uniforms[s]| > 0
    {
    }
  }

  /** The planned tables, with the Local stride replaced, are the program's scope tables. */
  lemma PlanGivesScopeTables(useSet: seq<bool>, sizes: seq<nat>, layouts: seq<HellResult<Handle>>, p: ScopePlan)
    requires Planned(useSet, sizes, layouts, p, SCOPE_COUNT)
    ensures ScopeTables(useSet, sizes, p.ranges, p.descLayouts, p.strides[3 := LOCAL_STRIDE], p.setMapping)
    ensures forall s | 0 <= s < SCOPE_COUNT :: p.descLayouts[s] == (if useSet[s] then Some(layouts[s].value) else None)
  {
  }

  /**
   * `ShaderProgramBuilder::build`. The main buffer must not be empty (a
   * debug assertion) and the global textures must fit a scope entry's
   * texture array (`StackArray::from` panics otherwise). The global
   * descriptor sets are allocated with entry 0 of the list of created set
   * layouts, which is the layout of the first USED scope (Global's only
   * when Global is used); `globalLayout` is that layout, present once the
   * calls before the allocation succeeded. `request` is what the pipeline
   * is created from, present once the calls before it succeeded.
   */
  method Build(b: ShaderProgramBuilder, backend: BuildBackend)
    returns (r: HellResult<ShaderProgram>, globalLayout: Option<Handle>, request: Option<PipelineRequest>)
    requires BuildReady(b) && |backend.setLayouts| == SCOPE_COUNT
    requires MainBufferSize(b.useSet, b.scopeSizes) > 0
    requires |b.globalTex| <= MAX_SAMPLERS_PER_SHADER
    ensures r.Err? <==> BuildError(b.useSet, backend).Some?
    ensures r.Err? ==> r.error == BuildError(b.useSet, backend).value
    ensures globalLayout.Some? <==> GlobalAllocReached(b.useSet, backend)
    ensures globalLayout.Some? ==> exists s | 0 <= s < SCOPE_COUNT :: b.useSet[s] && UsedBefore(b.useSet, s) == 0
    ensures globalLayout.Some? ==>
      forall s | 0 <= s < SCOPE_COUNT && b.useSet[s] && UsedBefore(b.useSet, s) == 0 ::
        globalLayout.value == backend.setLayouts[s].value
    ensures request.Some? <==> PipelineReached(b.useSet, backend)
    ensures request.Some? ==>
      && request.value.vertexStride == VertexStride(b.attributes)
      && |request.value.attributes| == |b.attributes|
      && (forall i | 0 <= i < |b.attributes| :: request.value.attributes[i] == VertexDescription(b.attributes, i))
      && |request.value.setLayouts| == UsedBefore(b.useSet, SCOPE_COUNT)
      && (forall s | 0 <= s < SCOPE_COUNT && b.useSet[s] :: UsedBefore(b.useSet, s) < |request.value.setLayouts|)
      && (forall s | 0 <= s < SCOPE_COUNT && b.useSet[s] ::
            request.value.setLayouts[UsedBefore(b.useSet, s)] == backend.setLayouts[s].value)
      && request.value.pushConstants == b.pushConstants
      && request.value.depthTest == b.depthTestEnabled && request.value.wireframe == b.isWireframe
    ensures r.Ok? ==>
      var p := r.value;
      && fresh(p) && fresh(p.mainMemory) && fresh(p.mainMemory.bytes) && fresh(p.localMemory) && fresh(p.localMemory.bytes)
      && p.Valid()
      && p.useSet == b.useSet && p.uniforms == b.uniforms && p.uniformLookups == b.uniformLookups
      && p.scopeSizes == b.scopeSizes && p.samplerCounts == b.samplerCounts
      && p.pushConstants == b.pushConstants && p.pushConstantLookups == b.pushConstantLookups
      && p.pipeline == backend.pipeline.value && p.descPool == backend.descPool.value
      && p.mainBuffer == backend.mainBuffer.value && p.localBuffer == backend.localBuffer.value
      && p.mainMemory.memMap.Some? && p.localMemory.memMap.Some?
      && (forall s | 0 <= s < SCOPE_COUNT ::
            p.scopeDescLayouts[s] == (if b.useSet[s] then Some(backend.setLayouts[s].value) else None))
      && p.scopeEntryStates == [[ScopeState(0, 0, p.scopeStrides[0], backend.globalDescSets.value, b.globalTex)], [], [], []]
      && p.boundScope == Global && p.boundEntry == 0 && p.boundOffset == 0
  {
    request := None;
    globalLayout := None;
    var vertStride, vertDescs := VertexInput(b.attributes);

    if backend.descPool.Err? {
      return Err(backend.descPool.error), None, None;
    }
    var descPool := backend.descPool.value;

    var plan := PlanScopes(b, backend.setLayouts);
    if plan.Err? {
      return Err(plan.error), None, None;
    }
    var p := plan.value;
    var mainBufferSize := p.mainBufferSize;

    if backend.mainBuffer.Err? {
      return Err(backend.mainBuffer.error), None, None;
    }
    var mainMemory := new VulkanDeviceMemory(mainBufferSize);
    var mainMap := mainMemory.MapMemory(0, mainBufferSize, backend.mainMapFailure);
    if mainMap.Err? {
      return Err(mainMap.error), None, None;
    }

    PlannedAll(b.useSet, b.scopeSizes, backend.setLayouts, p);
    PlanGivesScopeTables(b.useSet, b.scopeSizes, backend.setLayouts, p);
    var strides := p.strides[3 := LOCAL_STRIDE];
    var localBufferSize := LOCAL_STRIDE;
    if backend.localBuffer.Err? {
      return Err(backend.localBuffer.error), None, None;
    }
    var localMemory := new VulkanDeviceMemory(localBufferSize);
    var localMap := localMemory.MapMemory(0, localBufferSize, backend.localMapFailure);
    if localMap.Err? {
      return Err(localMap.error), None, None;
    }

    UsedWhenMainBuffer(b.useSet, b.scopeSizes);
    SetIndicesCover(b.useSet, 0);
    globalLayout := Some(p.setLayouts[0]);
    if backend.globalDescSets.Err? {
      return Err(backend.globalDescSets.error), globalLayout, None;
    }
    var globalDescSets := backend.globalDescSets.value;

    if backend.shader.Err? {
      return Err(backend.shader.error), globalLayout, None;
    }
    request := Some(PipelineRequest(vertStride, vertDescs, p.setLayouts, b.pushConstants, b.depthTestEnabled, b.isWireframe));
    if backend.pipeline.Err? {
      return Err(backend.pipeline.error), globalLayout, request;
    }

    var globalState := ScopeState(0, 0, strides[0], globalDescSets, b.globalTex);
    InitialEntryTables(globalState, p.ranges, strides, b.samplerCounts);
    var program := new ShaderProgram(b.Decls(), b.samplerCounts, backend.pipeline.value, descPool,
                                     backend.mainBuffer.value, mainMemory, backend.localBuffer.value, localMemory,
                                     p.ranges, p.descLayouts, strides, p.setMapping, globalState);
    r := Ok(program);
  }
}
