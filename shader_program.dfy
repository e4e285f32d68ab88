/**
 * `ShaderProgramBuilder` and `ShaderProgram` (hell_renderer
 * `vulkan/shader_program.rs`).
 *
 * The builder collects a shader's vertex attributes, uniforms, samplers and
 * push constants; `build` turns them into descriptor-set layouts, one main
 * uniform buffer split into per-scope regions, a local storage buffer and
 * a pipeline. The program then hands out scope entries (a slice of a
 * region plus descriptor sets), writes uniforms into the bound entry and
 * binds entries' descriptor sets.
 *
 * Vulkan calls are parameters: a `BuildBackend` says what each creation
 * call returns, and the descriptor updates and binds a scope application
 * records are returned as values.
 */
module ShaderPrograms {
  import opened Wrappers
  import opened HellErrors
  import opened Common
  import opened RenderTypes
  import opened Alignment
  import opened VulkanMemory
  import opened ShaderLayout

  const FAILED_UNIFORM: string := "failed to get uniform"
  const FAILED_PUSH_CONSTANT: string := "failed to get push-constant-handle"
  const FAILED_SCOPE_RANGE: string := "failed to get scope range"
  const FAILED_DESC_LAYOUT: string := "failed to get scope desc-layout"
  const FAILED_SCOPE_STATE: string := "failed to get scope state"
  const SAMPLER_TEX_MISMATCH: string := "sampler-count and tex-count do not match"
  const FAILED_SCOPE_MAPPING: string := "failed to get scope mapping"

  // ---------------------------------------------------------------------
  // The builder's declaration tables
  // ---------------------------------------------------------------------

  /**
   * What a `ShaderProgramBuilder` has been told about the shader's uniforms
   * and push constants: per scope (`PerScope` arrays of four) whether it
   * gets a descriptor set, its uniforms and its size; the name lookup; and
   * the push constants with their total size and lookup.
   */
  datatype Declarations = Declarations(
    useSet: seq<bool>,
    uniforms: seq<seq<UniformInfo>>,
    uniformLookups: map<string, UniformHandle>,
    scopeSizes: seq<nat>,
    pushConstantSize: nat,
    pushConstants: seq<PushConstantInfo>,
    pushConstantLookups: map<string, ResourceHandle>)

  /** The tables of `ShaderProgramBuilder::new`. */
  const NO_DECLARATIONS: Declarations :=
    Declarations([false, false, false, false], [[], [], [], []], map[], [0, 0, 0, 0], 0, [], map[])

  /** One entry per scope in each per-scope table. */
  predicate PerScope(d: Declarations)
  {
    |d.useSet| == SCOPE_COUNT && |d.uniforms| == SCOPE_COUNT && |d.scopeSizes| == SCOPE_COUNT
  }

  /**
   * Per scope: the uniforms are packed, the scope's size is their total,
   * and the scope gets a set exactly when it declares something.
   */
  ghost predicate UniformTables(uniforms: seq<seq<UniformInfo>>, sizes: seq<nat>, useSet: seq<bool>)
  {
    |uniforms| == |sizes| == |useSet| == SCOPE_COUNT
    && forall s :: 0 <= s < SCOPE_COUNT ==>
         PackedUniforms(uniforms[s], ScopeFromIdx(s)) && sizes[s] == SumRanges(uniforms[s])
         && (useSet[s] <==> |uniforms[s]| > 0)
  }

  /** Every lookup entry names a declared uniform of that name. */
  ghost predicate LookupsPoint(uniforms: seq<seq<UniformInfo>>, lookups: map<string, UniformHandle>)
    requires |uniforms| == SCOPE_COUNT
  {
    forall name :: name in lookups ==>
      lookups[name].idx < |uniforms[ScopeIdx(lookups[name].scope)]|
      && uniforms[ScopeIdx(lookups[name].scope)][lookups[name].idx].name == name
  }

  /**
   * The push constants: one packed `local_idx` per Local declaration, their
   * total size, and a lookup map naming the latest handle.
   */
  ghost predicate PushConstantTable(pcs: seq<PushConstantInfo>, size: nat, lookups: map<string, ResourceHandle>, localCount: nat)
  {
    PackedPushConstants(pcs) && size == SumPushConstants(pcs) && LocalIdxPushConstants(pcs)
    && |pcs| == localCount
    && lookups.Keys == (if |pcs| == 0 then {} else {LOCAL_IDX_NAME})
    && (|pcs| > 0 ==> lookups[LOCAL_IDX_NAME] == pcs[|pcs| - 1].handle)
  }

  /** The builder's invariant on its tables. */
  ghost predicate DeclsValid(d: Declarations)
  {
    PerScope(d)
    && UniformTables(d.uniforms, d.scopeSizes, d.useSet) && LookupsPoint(d.uniforms, d.uniformLookups)
    && PushConstantTable(d.pushConstants, d.pushConstantSize, d.pushConstantLookups, |d.uniforms[3]|)
  }

  /**
   * The uniform half of `push_uniform`: the scope is marked used, the
   * uniform is appended with the next index and a range at the scope's
   * current size (the empty range for a sampler), the scope grows by the
   * range, and the name is (re)bound to the new uniform.
   */
  function AppendUniformDecl(d: Declarations, name: string, scope: ShaderScope, size: nat, isSampler: bool): (d': Declarations)
    requires PerScope(d)
    ensures PerScope(d')
    ensures d'.pushConstants == d.pushConstants && d'.pushConstantSize == d.pushConstantSize
    ensures d'.pushConstantLookups == d.pushConstantLookups
  {
    var si := ScopeIdx(scope);
    var idx := |d.uniforms[si]|;
    var range := UniformRange(d.scopeSizes[si], size, isSampler);
    d.(useSet := d.useSet[si := true],
       uniforms := d.uniforms[si := d.uniforms[si] + [UniformInfo(name, scope, idx, range)]],
       uniformLookups := d.uniformLookups[name := UniformHandle(scope, idx)],
       scopeSizes := d.scopeSizes[si := d.scopeSizes[si] + range.range])
  }

  /**
   * `add_push_constant`: the range is the running total and the raw size,
   * each rounded up to 4; the handle is the number of names already in the
   * lookup map, and the name is (re)bound to it.
   */
  function AddPushConstantDecl(d: Declarations, name: string, raw: nat): (d': Declarations)
    ensures d'.useSet == d.useSet && d'.uniforms == d.uniforms && d'.scopeSizes == d.scopeSizes
    ensures d'.uniformLookups == d.uniformLookups
  {
    var range := GetAlignedRange(d.pushConstantSize, raw, PUSH_CONSTANT_ALIGNMENT);
    var handle := ResourceHandle(|d.pushConstantLookups|);
    d.(pushConstantSize := d.pushConstantSize + range.range,
       pushConstants := d.pushConstants + [PushConstantInfo(name, handle, range)],
       pushConstantLookups := d.pushConstantLookups[name := handle])
  }

  /** `push_uniform`: the uniform, then a `local_idx` push constant for a Local declaration. */
  function PushUniformDecl(d: Declarations, name: string, scope: ShaderScope, size: nat, isSampler: bool): (d': Declarations)
    requires PerScope(d)
    ensures PerScope(d')
  {
    var d1 := AppendUniformDecl(d, name, scope, size, isSampler);
    if scope == Local then AddPushConstantDecl(d1, LOCAL_IDX_NAME, U32_SIZE) else d1
  }

  /** The empty tables of `new` satisfy the invariant. */
  lemma NoDeclarationsValid()
    ensures DeclsValid(NO_DECLARATIONS)
  {
    var d := NO_DECLARATIONS;
    forall s | 0 <= s < SCOPE_COUNT
      ensures PackedUniforms(d.uniforms[s], ScopeFromIdx(s)) && d.scopeSizes[s] == SumRanges(d.uniforms[s])
    {
      assert d.uniforms[s] == [];
    }
  }

  /** Appending a uniform laid out after the others of scope `si` keeps the per-scope tables. */
  lemma UniformTablesAppend(uniforms: seq<seq<UniformInfo>>, sizes: seq<nat>, useSet: seq<bool>, si: nat, u: UniformInfo)
    requires UniformTables(uniforms, sizes, useSet) && si < SCOPE_COUNT
    requires u.idx == |uniforms[si]| && u.scope == ScopeFromIdx(si)
    requires u.range == ValueRange(0, 0) || u.range.offset == sizes[si]
    ensures UniformTables(uniforms[si := uniforms[si] + [u]], sizes[si := sizes[si] + u.range.range], useSet[si := true])
  {
    PackedUniformsAppend(uniforms[si], ScopeFromIdx(si), u);
  }

  /** Binding `name` to the newly appended uniform of scope `si` keeps every lookup pointing at its uniform. */
  lemma LookupsPointAppend(uniforms: seq<seq<UniformInfo>>, lookups: map<string, UniformHandle>, si: nat, u: UniformInfo)
    requires |uniforms| == SCOPE_COUNT && si < SCOPE_COUNT && LookupsPoint(uniforms, lookups)
    requires ScopeIdx(u.scope) == si && u.idx == |uniforms[si]|
    ensures LookupsPoint(uniforms[si := uniforms[si] + [u]], lookups[u.name := UniformHandle(u.scope, u.idx)])
  {
    var us: seq<seq<UniformInfo>> := uniforms[si := uniforms[si] + [u]];
    var ls: map<string, UniformHandle> := lookups[u.name := UniformHandle(u.scope, u.idx)];
    forall n: string | n in ls
      ensures ls[n].idx < |us[ScopeIdx(ls[n].scope)]| && us[ScopeIdx(ls[n].scope)][ls[n].idx].name == n
    {
      if n != u.name {
        var t := ScopeIdx(lookups[n].scope);
        assert lookups[n].idx < |uniforms[t]| && uniforms[t][lookups[n].idx].name == n;
        if t == si {
          assert us[t][lookups[n].idx] == uniforms[t][lookups[n].idx];
        }
      }
    }
  }

  /** The uniform half of `push_uniform` keeps the uniform tables and the lookup map sound. */
  lemma AppendUniformKeepsTables(d: Declarations, name: string, scope: ShaderScope, size: nat, isSampler: bool)
    requires DeclsValid(d)
    ensures var d' := AppendUniformDecl(d, name, scope, size, isSampler);
            UniformTables(d'.uniforms, d'.scopeSizes, d'.useSet) && LookupsPoint(d'.uniforms, d'.uniformLookups)
  {
    var si := ScopeIdx(scope);
    var range := UniformRange(d.scopeSizes[si], size, isSampler);
    var u := UniformInfo(name, scope, |d.uniforms[si]|, range);
    ScopeIdxRoundTrip(scope, si);
    UniformTablesAppend(d.uniforms, d.scopeSizes, d.useSet, si, u);
    LookupsPointAppend(d.uniforms, d.uniformLookups, si, u);
  }

  /** A `local_idx` push constant appended after the others keeps the per-constant facts. */
  lemma LocalIdxAppend(pcs: seq<PushConstantInfo>, h: ResourceHandle, range: ValueRange)
    requires LocalIdxPushConstants(pcs)
    requires range.range == U32_SIZE && h == ResourceHandle(if |pcs| == 0 then 0 else 1)
    ensures LocalIdxPushConstants(pcs + [PushConstantInfo(LOCAL_IDX_NAME, h, range)])
  {
    var pcs' := pcs + [PushConstantInfo(LOCAL_IDX_NAME, h, range)];
    forall i | 0 <= i < |pcs'|
      ensures pcs'[i].name == LOCAL_IDX_NAME && pcs'[i].range.range == U32_SIZE
              && pcs'[i].handle == ResourceHandle(if i == 0 then 0 else 1)
    {
      if i < |pcs| {
        assert pcs'[i] == pcs[i];
      }
    }
  }

  /** The handle `add_push_constant` gives the next `local_idx`: the number of names in the lookup. */
  lemma LocalIdxHandle(pcs: seq<PushConstantInfo>, lookups: map<string, ResourceHandle>)
    requires lookups.Keys == (if |pcs| == 0 then {} else {LOCAL_IDX_NAME})
    ensures |lookups| == (if |pcs| == 0 then 0 else 1)
    ensures lookups[LOCAL_IDX_NAME := ResourceHandle(|lookups|)].Keys == {LOCAL_IDX_NAME}
  {
    assert |lookups| == |lookups.Keys|;
  }

  /**
   * `add_push_constant::<u32>("local_idx")` on a valid table: the new
   * constant takes the next 4 bytes, its handle is 0 for the first and 1
   * for every later one, and the table stays valid.
   */
  lemma LocalIdxPush(pcs: seq<PushConstantInfo>, size: nat, lookups: map<string, ResourceHandle>, localCount: nat)
    requires PushConstantTable(pcs, size, lookups, localCount)
    ensures var h := ResourceHandle(|lookups|);
            var range := GetAlignedRange(size, U32_SIZE, PUSH_CONSTANT_ALIGNMENT);
            range == ValueRange(U32_SIZE * |pcs|, U32_SIZE)
            && h == ResourceHandle(if |pcs| == 0 then 0 else 1)
            && PushConstantTable(pcs + [PushConstantInfo(LOCAL_IDX_NAME, h, range)], size + range.range,
                                 lookups[LOCAL_IDX_NAME := h], localCount + 1)
  {
    LocalIdxHandle(pcs, lookups);
    var h := ResourceHandle(|lookups|);
    PushConstantAppend(pcs, LOCAL_IDX_NAME, h, U32_SIZE);
    LocalIdxTotal(pcs);
    var range := GetAlignedRange(size, U32_SIZE, PUSH_CONSTANT_ALIGNMENT);
    assert range.range % PUSH_CONSTANT_ALIGNMENT == 0 && U32_SIZE <= range.range < U32_SIZE + PUSH_CONSTANT_ALIGNMENT;
    LocalIdxAppend(pcs, h, range);
  }

  /** The size, range and handle of the next `local_idx` push constant, on their own. */
  lemma LocalIdxNext(pcs: seq<PushConstantInfo>, size: nat, lookups: map<string, ResourceHandle>, localCount: nat)
    requires PushConstantTable(pcs, size, lookups, localCount)
    ensures size == U32_SIZE * |pcs|
    ensures GetAlignedRange(size, U32_SIZE, PUSH_CONSTANT_ALIGNMENT) == ValueRange(U32_SIZE * |pcs|, U32_SIZE)
    ensures ResourceHandle(|lookups|) == ResourceHandle(if |pcs| == 0 then 0 else 1)
  {
    LocalIdxPush(pcs, size, lookups, localCount);
    LocalIdxTotal(pcs);
  }

  /** `push_uniform` keeps the builder's invariant. */
  lemma PushUniformKeepsValid(d: Declarations, name: string, scope: ShaderScope, size: nat, isSampler: bool)
    requires DeclsValid(d)
    ensures DeclsValid(PushUniformDecl(d, name, scope, size, isSampler))
  {
    if scope == Local {
      PushLocalUniformKeepsValid(d, name, size, isSampler);
    } else {
      var d1 := AppendUniformDecl(d, name, scope, size, isSampler);
      assert d1.uniforms[3] == d.uniforms[3];
      AppendUniformKeepsTables(d, name, scope, size, isSampler);
    }
  }

  /** The Local case: the uniform and its `local_idx` push constant together keep the invariant. */
  lemma PushLocalUniformKeepsValid(d: Declarations, name: string, size: nat, isSampler: bool)
    requires DeclsValid(d)
    ensures DeclsValid(PushUniformDecl(d, name, Local, size, isSampler))
  {
    var n := |d.uniforms[3]|;
    var h := ResourceHandle(|d.pushConstantLookups|);
    var range := GetAlignedRange(d.pushConstantSize, U32_SIZE, PUSH_CONSTANT_ALIGNMENT);
    var d1 := AppendUniformDecl(d, name, Local, size, isSampler);
    assert |d1.uniforms[3]| == n + 1;
    var d2 := AddPushConstantDecl(d1, LOCAL_IDX_NAME, U32_SIZE);
    assert |d2.uniforms[3]| == n + 1;
    assert d2 == PushUniformDecl(d, name, Local, size, isSampler);
    assert d2.pushConstants == d.pushConstants + [PushConstantInfo(LOCAL_IDX_NAME, h, range)];
    assert d2.pushConstantSize == d.pushConstantSize + range.range;
    assert d2.pushConstantLookups == d.pushConstantLookups[LOCAL_IDX_NAME := h];
    AppendUniformKeepsTables(d, name, Local, size, isSampler);
    LocalIdxPush(d.pushConstants, d.pushConstantSize, d.pushConstantLookups, n);
    assert UniformTables(d2.uniforms, d2.scopeSizes, d2.useSet);
    assert LookupsPoint(d2.uniforms, d2.uniformLookups);
    assert PushConstantTable(d2.pushConstants, d2.pushConstantSize, d2.pushConstantLookups, |d2.uniforms[3]|);
  }

  /**
   * After `push_uniform`, the name looks up the new uniform: the last of
   * its scope, with its name and index, and (unless it is a sampler) the
   * requested size placed after every earlier uniform of the scope, which
   * end at or before its offset; the scope's size is then the uniform's
   * end. The other scopes' uniforms are untouched.
   */
  lemma PushUniformLookup(d: Declarations, name: string, scope: ShaderScope, size: nat, isSampler: bool)
    requires DeclsValid(d)
    ensures var d' := PushUniformDecl(d, name, scope, size, isSampler);
            var si := ScopeIdx(scope);
            name in d'.uniformLookups && d'.uniformLookups[name] == UniformHandle(scope, |d.uniforms[si]|)
            && |d'.uniforms[si]| == |d.uniforms[si]| + 1
            && d'.uniforms[si][|d.uniforms[si]|].name == name
            && d'.useSet[si]
            && (isSampler ==> d'.uniforms[si][|d.uniforms[si]|].range == ValueRange(0, 0)
                              && d'.scopeSizes[si] == d.scopeSizes[si])
            && (!isSampler ==> d'.uniforms[si][|d.uniforms[si]|].range == ValueRange(d.scopeSizes[si], size)
                               && d'.scopeSizes[si] == d.scopeSizes[si] + size)
            && (forall t :: 0 <= t < SCOPE_COUNT && t != si ==> d'.uniforms[t] == d.uniforms[t])
  {
  }

  /** Every earlier uniform of a scope ends at or before the scope's size, where the next one starts. */
  lemma PushUniformAfterEarlier(d: Declarations, name: string, scope: ShaderScope, size: nat, j: nat)
    requires DeclsValid(d)
    requires j < |d.uniforms[ScopeIdx(scope)]|
    ensures var d' := PushUniformDecl(d, name, scope, size, false);
            var si := ScopeIdx(scope);
            End(d'.uniforms[si][j].range) <= d'.uniforms[si][|d.uniforms[si]|].range.offset
  {
    var si := ScopeIdx(scope);
    ScopeIdxRoundTrip(scope, si);
    UniformInScope(d.uniforms[si], scope, j);
    var d' := PushUniformDecl(d, name, scope, size, false);
    assert d'.uniforms[si][j] == d.uniforms[si][j];
  }

  /**
   * The push constants after `push_uniform`: a Local declaration adds one
   * `local_idx` of 4 bytes right after the others, whose handle (0 for
   * the first, 1 later) the lookup now names; other scopes add none.
   */
  lemma PushUniformPushConstants(d: Declarations, name: string, scope: ShaderScope, size: nat, isSampler: bool)
    requires DeclsValid(d)
    ensures var d' := PushUniformDecl(d, name, scope, size, isSampler);
            var n := |d.pushConstants|;
            && (scope == Local ==>
                  |d'.pushConstants| == n + 1 && d'.pushConstants[..n] == d.pushConstants
                  && d'.pushConstants[n] == PushConstantInfo(LOCAL_IDX_NAME, ResourceHandle(if n == 0 then 0 else 1),
                                                             ValueRange(U32_SIZE * n, U32_SIZE))
                  && d'.pushConstantLookups[LOCAL_IDX_NAME] == d'.pushConstants[n].handle
                  && d'.pushConstantSize == U32_SIZE * (n + 1))
            && (scope != Local ==> d'.pushConstants == d.pushConstants && d'.pushConstantLookups == d.pushConstantLookups
                                   && d'.pushConstantSize == d.pushConstantSize)
  {
    var d1 := AppendUniformDecl(d, name, scope, size, isSampler);
    if scope == Local {
      assert PushConstantTable(d.pushConstants, d.pushConstantSize, d.pushConstantLookups, |d.uniforms[3]|);
      LocalIdxNext(d.pushConstants, d.pushConstantSize, d.pushConstantLookups, |d.uniforms[3]|);
      LocalIdxAppended(d.pushConstants, d.pushConstantSize, d.pushConstantLookups, d1);
    } else {
      assert PushUniformDecl(d, name, scope, size, isSampler) == d1;
    }
  }

  /** The `local_idx` push constant added to tables `d1` whose push constants are `pcs`. */
  lemma LocalIdxAppended(pcs: seq<PushConstantInfo>, size: nat, lookups: map<string, ResourceHandle>, d1: Declarations)
    requires size == U32_SIZE * |pcs|
    requires GetAlignedRange(size, U32_SIZE, PUSH_CONSTANT_ALIGNMENT) == ValueRange(U32_SIZE * |pcs|, U32_SIZE)
    requires ResourceHandle(|lookups|) == ResourceHandle(if |pcs| == 0 then 0 else 1)
    requires d1.pushConstants == pcs && d1.pushConstantSize == size && d1.pushConstantLookups == lookups
    ensures var d' := AddPushConstantDecl(d1, LOCAL_IDX_NAME, U32_SIZE);
            var n := |pcs|;
            && |d'.pushConstants| == n + 1 && d'.pushConstants[..n] == pcs
            && d'.pushConstants[n] == PushConstantInfo(LOCAL_IDX_NAME, ResourceHandle(if n == 0 then 0 else 1),
                                                       ValueRange(U32_SIZE * n, U32_SIZE))
            && d'.pushConstantLookups[LOCAL_IDX_NAME] == d'.pushConstants[n].handle
            && d'.pushConstantSize == U32_SIZE * (n + 1)
  {
    var n := |pcs|;
    var h := ResourceHandle(|lookups|);
    var range := GetAlignedRange(size, U32_SIZE, PUSH_CONSTANT_ALIGNMENT);
    var d' := AddPushConstantDecl(d1, LOCAL_IDX_NAME, U32_SIZE);
    assert d'.pushConstants == pcs + [PushConstantInfo(LOCAL_IDX_NAME, h, range)];
    assert d'.pushConstants[..n] == pcs;
    assert d'.pushConstants[n] == PushConstantInfo(LOCAL_IDX_NAME, h, range);
    assert d'.pushConstantLookups[LOCAL_IDX_NAME] == h;
    assert range.range == U32_SIZE;
  }

  // ---------------------------------------------------------------------
  // ShaderProgramBuilder
  // ---------------------------------------------------------------------

  class ShaderProgramBuilder {
    const uboAlignment: nat
    const pushConstantStride: nat
    var depthTestEnabled: bool
    var isWireframe: bool
    const shaderPath: string
    var attributes: seq<AttributeInfo>
    var useSet: seq<bool>
    var samplerCounts: seq<nat>
    var uniforms: seq<seq<UniformInfo>>
    var uniformLookups: map<string, UniformHandle>
    var scopeSizes: seq<nat>
    const scopeEntryCount: seq<nat>
    var globalTex: seq<ResourceHandle>
    var pushConstantSize: nat
    var pushConstants: seq<PushConstantInfo>
    var pushConstantLookups: map<string, ResourceHandle>

    /** The declaration tables, as one value. */
    function Decls(): Declarations
      reads this
    {
      Declarations(useSet, uniforms, uniformLookups, scopeSizes, pushConstantSize, pushConstants, pushConstantLookups)
    }

    ghost predicate Valid()
      reads this
    {
      uboAlignment == UBO_ALIGNMENT && pushConstantStride == PUSH_CONSTANT_STRIDE
      && scopeEntryCount == SCOPE_ENTRY_COUNTS
      && DeclsValid(Decls())
      && |samplerCounts| == SCOPE_COUNT
      && |attributes| <= MAX_ATTRIBUTE_COUNT
      && forall i :: 0 <= i < |attributes| ==> attributes[i].location == i && attributes[i].binding == 0
    }

    /** `ShaderProgramBuilder::new`: nothing declared, depth test and wireframe off. */
    constructor (shaderPath: string)
      ensures Valid()
      ensures this.shaderPath == shaderPath && !depthTestEnabled && !isWireframe
      ensures attributes == [] && globalTex == [] && samplerCounts == [0, 0, 0, 0]
      ensures Decls() == NO_DECLARATIONS
    {
      uboAlignment := UBO_ALIGNMENT;
      pushConstantStride := PUSH_CONSTANT_STRIDE;
      depthTestEnabled := false;
      isWireframe := false;
      this.shaderPath := shaderPath;
      attributes := [];
      useSet := [false, false, false, false];
      samplerCounts := [0, 0, 0, 0];
      uniforms := [[], [], [], []];
      uniformLookups := map[];
      scopeSizes := [0, 0, 0, 0];
      scopeEntryCount := SCOPE_ENTRY_COUNTS;
      globalTex := [];
      pushConstantSize := 0;
      pushConstants := [];
      pushConstantLookups := map[];
      NoDeclarationsValid();
    }

    method WithDepthTest()
      requires Valid()
      modifies this
      ensures Valid() && depthTestEnabled
      ensures isWireframe == old(isWireframe) && attributes == old(attributes) && Decls() == old(Decls())
      ensures samplerCounts == old(samplerCounts) && globalTex == old(globalTex)
    {
      depthTestEnabled := true;
    }

    method WithWireframe()
      requires Valid()
      modifies this
      ensures Valid() && isWireframe
      ensures depthTestEnabled == old(depthTestEnabled) && attributes == old(attributes) && Decls() == old(Decls())
      ensures samplerCounts == old(samplerCounts) && globalTex == old(globalTex)
    {
      isWireframe := true;
    }

    /**
     * `with_attribute`: the attribute goes to binding 0 at the next location.
     * The attributes live in a `StackArray` of 32, whose `push` asserts it
     * is not full.
     */
    method WithAttribute(format: NumberFormat)
      requires Valid() && |attributes| < MAX_ATTRIBUTE_COUNT
      modifies this
      ensures Valid()
      ensures attributes == old(attributes) + [AttributeInfo(format, 0, old(|attributes|))]
      ensures Decls() == old(Decls()) && samplerCounts == old(samplerCounts) && globalTex == old(globalTex)
      ensures depthTestEnabled == old(depthTestEnabled) && isWireframe == old(isWireframe)
    {
      attributes := attributes + [AttributeInfo(format, 0, |attributes|)];
    }

    /** `push_uniform` (always `Ok`). */
    method PushUniform(name: string, scope: ShaderScope, size: nat, isSampler: bool)
      requires Valid()
      modifies this
      ensures Valid()
      ensures Decls() == PushUniformDecl(old(Decls()), name, scope, size, isSampler)
      ensures samplerCounts == old(samplerCounts) && globalTex == old(globalTex) && attributes == old(attributes)
      ensures depthTestEnabled == old(depthTestEnabled) && isWireframe == old(isWireframe)
    {
      PushUniformKeepsValid(Decls(), name, scope, size, isSampler);
      AppendUniform(name, scope, size, isSampler);
      if scope == Local {
        AddPushConstant(LOCAL_IDX_NAME, U32_SIZE);
      }
    }

    /** The uniform half of `push_uniform`. */
    method AppendUniform(name: string, scope: ShaderScope, size: nat, isSampler: bool)
      requires PerScope(Decls())
      modifies this
      ensures Decls() == AppendUniformDecl(old(Decls()), name, scope, size, isSampler)
      ensures samplerCounts == old(samplerCounts) && globalTex == old(globalTex) && attributes == old(attributes)
      ensures depthTestEnabled == old(depthTestEnabled) && isWireframe == old(isWireframe)
    {
      var si := ScopeIdx(scope);
      useSet := useSet[si := true];
      var idx := |uniforms[si]|;
      var offset := scopeSizes[si];
      var sz := size;
      if isSampler {
        offset := 0;
        sz := 0;
      }
      var range := ValueRange(offset, sz);
      var info := UniformInfo(name, scope, idx, range);
      scopeSizes := scopeSizes[si := scopeSizes[si] + info.range.range];
      uniforms := uniforms[si := uniforms[si] + [info]];
      uniformLookups := uniformLookups[name := UniformHandle(scope, idx)];
    }

    /** `add_push_constant::<T>(name)` with `raw == size_of::<T>()`. */
    method AddPushConstant(name: string, raw: nat)
      modifies this
      ensures Decls() == AddPushConstantDecl(old(Decls()), name, raw)
      ensures samplerCounts == old(samplerCounts) && globalTex == old(globalTex) && attributes == old(attributes)
      ensures depthTestEnabled == old(depthTestEnabled) && isWireframe == old(isWireframe)
    {
      var range := GetAlignedRange(pushConstantSize, raw, PUSH_CONSTANT_ALIGNMENT);
      pushConstantSize := pushConstantSize + range.range;
      var handle := ResourceHandle(|pushConstantLookups|);
      pushConstants := pushConstants + [PushConstantInfo(name, handle, range)];
      pushConstantLookups := pushConstantLookups[name := handle];
    }

    /** `with_uniform::<T>(name, scope)` with `size == size_of::<T>()`. */
    method WithUniform(name: string, scope: ShaderScope, size: nat)
      requires Valid()
      modifies this
      ensures Valid() && Decls() == PushUniformDecl(old(Decls()), name, scope, size, false)
      ensures samplerCounts == old(samplerCounts) && globalTex == old(globalTex) && attributes == old(attributes)
    {
      PushUniform(name, scope, size, false);
    }

    method WithGlobalUniform(name: string, size: nat)
      requires Valid()
      modifies this
      ensures Valid() && Decls() == PushUniformDecl(old(Decls()), name, Global, size, false)
      ensures samplerCounts == old(samplerCounts) && globalTex == old(globalTex) && attributes == old(attributes)
    {
      WithUniform(name, Global, size);
    }

    method WithSharedUniform(name: string, size: nat)
      requires Valid()
      modifies this
      ensures Valid() && Decls() == PushUniformDecl(old(Decls()), name, Shared, size, false)
      ensures samplerCounts == old(samplerCounts) && globalTex == old(globalTex) && attributes == old(attributes)
    {
      WithUniform(name, Shared, size);
    }

    method WithInstanceUniform(name: string, size: nat)
      requires Valid()
      modifies this
      ensures Valid() && Decls() == PushUniformDecl(old(Decls()), name, Instance, size, false)
      ensures samplerCounts == old(samplerCounts) && globalTex == old(globalTex) && attributes == old(attributes)
    {
      WithUniform(name, Instance, size);
    }

    method WithLocalUniform(name: string, size: nat)
      requires Valid()
      modifies this
      ensures Valid() && Decls() == PushUniformDecl(old(Decls()), name, Local, size, false)
      ensures samplerCounts == old(samplerCounts) && globalTex == old(globalTex) && attributes == old(attributes)
    {
      WithUniform(name, Local, size);
    }

    /** `with_sampler` (always `Ok`): one more sampler in the scope, declared as an empty uniform. */
    method WithSampler(name: string, scope: ShaderScope)
      requires Valid()
      modifies this
      ensures Valid() && Decls() == PushUniformDecl(old(Decls()), name, scope, 0, true)
      ensures samplerCounts == old(samplerCounts[ScopeIdx(scope) := samplerCounts[ScopeIdx(scope)] + 1])
      ensures globalTex == old(globalTex) && attributes == old(attributes)
    {
      var si := ScopeIdx(scope);
      ghost var decls := Decls();
      var counts := samplerCounts[si := samplerCounts[si] + 1];
      assert counts == old(samplerCounts[ScopeIdx(scope) := samplerCounts[ScopeIdx(scope)] + 1]);
      samplerCounts := counts;
      assert Decls() == decls;
      PushUniform(name, scope, 0, true);
      assert samplerCounts == counts;
    }

    /** `with_global_sampler`: the texture is remembered for the global entry, then a Global sampler is declared. */
    method WithGlobalSampler(name: string, texture: ResourceHandle)
      requires Valid()
      modifies this
      ensures Valid() && Decls() == PushUniformDecl(old(Decls()), name, Global, 0, true)
      ensures samplerCounts == old(samplerCounts[0 := samplerCounts[0] + 1])
      ensures globalTex == old(globalTex) + [texture] && attributes == old(attributes)
    {
      globalTex := globalTex + [texture];
      WithSampler(name, Global);
    }

    method WithPassSampler(name: string)
      requires Valid()
      modifies this
      ensures Valid() && Decls() == PushUniformDecl(old(Decls()), name, Shared, 0, true)
      ensures samplerCounts == old(samplerCounts[1 := samplerCounts[1] + 1])
      ensures globalTex == old(globalTex) && attributes == old(attributes)
    {
      WithSampler(name, Shared);
    }

    method WithInstanceSampler(name: string)
      requires Valid()
      modifies this
      ensures Valid() && Decls() == PushUniformDecl(old(Decls()), name, Instance, 0, true)
      ensures samplerCounts == old(samplerCounts[2 := samplerCounts[2] + 1])
      ensures globalTex == old(globalTex) && attributes == old(attributes)
    {
      WithSampler(name, Instance);
    }

    method WithLocalSampler(name: string)
      requires Valid()
      modifies this
      ensures Valid() && Decls() == PushUniformDecl(old(Decls()), name, Local, 0, true)
      ensures samplerCounts == old(samplerCounts[3 := samplerCounts[3] + 1])
      ensures globalTex == old(globalTex) && attributes == old(attributes)
    {
      WithSampler(name, Local);
    }

    /**
     * `calculate_ubo_stride`: the loop adds the UBO alignment until the
     * stride is not below the scope's size, which gives the size rounded up
     * to the least multiple of 256.
     */
    method CalculateUboStride(scope: ShaderScope) returns (stride: nat)
      requires uboAlignment == UBO_ALIGNMENT && |scopeSizes| == SCOPE_COUNT
      ensures stride == ScopeStride(scopeSizes[ScopeIdx(scope)])
    {
      var uboSize := scopeSizes[ScopeIdx(scope)];
      stride := 0;
      while stride < uboSize
        invariant stride % UBO_ALIGNMENT == 0
        invariant stride < uboSize + UBO_ALIGNMENT
        decreases uboSize - stride
      {
        stride := stride + uboAlignment;
      }
      UboStrideUnique(uboSize, UBO_ALIGNMENT, stride);
    }
  }
}
