/**
 * The parsed shader-program configuration (hell_renderer
 * `resources/shader/config.rs`): the records the configuration parser
 * produces, their `from_raw` constructors, the lookups, the pass that
 * back-fills descriptor sets and bindings, and the GLSL text a buffer
 * declaration is formatted into.
 */
module ShaderConfig {
  import opened Wrappers
  import opened Common
  import opened HellErrors
  import opened Text
  import Glsl
  import ShaderScopes
  import ShaderStages
  import opened Seqs

  // ---------------------------------------------------------------------
  // Records
  // ---------------------------------------------------------------------

  datatype InfoConfig = InfoConfig(version: string, name: string, pass: string)

  datatype UboVarConfig = UboVarConfig(typeUbo: Glsl.GlslType, ident: string)

  datatype BufferConfig = BufferConfig(descSet: nat, binding: nat, ident: string, varUbos: seq<UboVarConfig>)

  datatype SamplerConfig = SamplerConfig(descSet: nat, binding: nat, typeSampler: Glsl.GlslType, ident: string)

  datatype ScopeConfig = ScopeConfig(scopeType: ShaderScopes.ShaderScopeType, buffers: seq<BufferConfig>, samplers: seq<SamplerConfig>)

  datatype UniformUsage = UniformUsage(scopeType: ShaderScopes.ShaderScopeType, ident: string)

  datatype ShaderStageConfig = ShaderStageConfig(shaderType: ShaderStages.ShaderStageType, uniformUsages: seq<UniformUsage>)

  /** The set and binding of a buffer or sampler that has not been assigned one. */
  const UNASSIGNED: nat := USIZE_MAX

  // ---------------------------------------------------------------------
  // from_raw constructors
  // ---------------------------------------------------------------------

  /** `ShaderProgramInfoConfig::from_raw`: lower-cased; the name and pass also lose their double quotes. */
  function InfoFromRaw(version: string, name: string, pass: string): (r: InfoConfig)
    ensures IsLower(r.version) && IsLower(r.name) && IsLower(r.pass)
    ensures |r.version| == |version|
    ensures forall i | 0 <= i < |r.name| :: r.name[i] != '"'
    ensures forall i | 0 <= i < |r.pass| :: r.pass[i] != '"'
    ensures multiset(r.name) == multiset(ToLower(name))['"' := 0]
    ensures multiset(r.pass) == multiset(ToLower(pass))['"' := 0]
    ensures r.version == ToLower(version)
    ensures r.name == RemoveChar(ToLower(name), '"') && r.pass == RemoveChar(ToLower(pass), '"')
  {
    ToLowerIsLower(version);
    ToLowerIsLower(name);
    ToLowerIsLower(pass);
    var n := RemoveChar(ToLower(name), '"');
    var p := RemoveChar(ToLower(pass), '"');
    LowerKeptByRemove(ToLower(name), '"');
    LowerKeptByRemove(ToLower(pass), '"');
    InfoConfig(ToLower(version), n, p)
  }

  /** Removing characters from a lower-case text leaves it lower-case. */
  lemma {:induction false} LowerKeptByRemove(s: string, c: char)
    requires IsLower(s)
    ensures IsLower(RemoveChar(s, c))
  {
    if s != [] {
      LowerKeptByRemove(s[1..], c);
    }
  }

  /** `generate_path`: the name with every `/` turned into `_`. */
  function GeneratePath(info: InfoConfig): (r: string)
    ensures |r| == |info.name|
    ensures forall i | 0 <= i < |r| :: r[i] != '/'
    ensures forall i | 0 <= i < |r| :: info.name[i] == '/' ==> r[i] == '_'
    ensures forall i | 0 <= i < |r| :: info.name[i] != '/' ==> r[i] == info.name[i]
  {
    ReplaceChar(info.name, '/', '_')
  }

  /** `ShaderProgramScopeConfig::from_raw`: fails exactly when the scope name does not parse. */
  function ScopeFromRaw(name: string, buffers: seq<BufferConfig>, samplers: seq<SamplerConfig>): (r: HellResult<ScopeConfig>)
    ensures r.Ok? <==> ShaderScopes.TryFrom(name).Ok?
    ensures r.Ok? ==> r.value == ScopeConfig(ShaderScopes.TryFrom(name).value, buffers, samplers)
    ensures r.Err? ==> r.error == ShaderScopes.TryFrom(name).error
  {
    var scopeType := ShaderScopes.TryFrom(name);
    if scopeType.Err? then Err(scopeType.error) else Ok(ScopeConfig(scopeType.value, buffers, samplers))
  }

  /** `ShaderProgramShaderConfig::from_raw`: fails exactly when the stage name does not parse. */
  function ShaderFromRaw(shaderIdent: string, usages: seq<UniformUsage>): (r: HellResult<ShaderStageConfig>)
    ensures r.Ok? <==> ShaderStages.TryFrom(shaderIdent).Ok?
    ensures r.Ok? ==> r.value == ShaderStageConfig(ShaderStages.TryFrom(shaderIdent).value, usages)
    ensures r.Err? ==> r.error == ShaderStages.TryFrom(shaderIdent).error
  {
    var shaderType := ShaderStages.TryFrom(shaderIdent);
    if shaderType.Err? then Err(shaderType.error) else Ok(ShaderStageConfig(shaderType.value, usages))
  }

  /** `ShaderProgramBufferConfig::from_raw`: never fails; set and binding start unassigned. */
  function BufferFromRaw(ident: string, varUbos: seq<UboVarConfig>): (r: HellResult<BufferConfig>)
    ensures r.Ok? && r.value.descSet == UNASSIGNED && r.value.binding == UNASSIGNED
    ensures r.value.ident == ToLower(ident) && r.value.varUbos == varUbos
  {
    Ok(BufferConfig(UNASSIGNED, UNASSIGNED, ToLower(ident), varUbos))
  }

  /** `ShaderProgramUboVarConfig::from_raw`: fails exactly when the type is not a GLSL keyword. */
  function UboVarFromRaw(typeUbo: string, ident: string): (r: HellResult<UboVarConfig>)
    ensures r.Ok? <==> Glsl.TryFrom(typeUbo).Ok?
    ensures r.Ok? ==> Glsl.ToStr(r.value.typeUbo) == typeUbo && r.value.ident == ToLower(ident)
    ensures r.Err? ==> r.error == Glsl.TryFrom(typeUbo).error
  {
    var t := Glsl.TryFrom(typeUbo);
    if t.Err? then Err(t.error) else Ok(UboVarConfig(t.value, ToLower(ident)))
  }

  /** `ShaderProgramSamplerConfig::from_raw`: unassigned; fails exactly when the type does not parse. */
  function SamplerFromRaw(typeSampler: string, ident: string): (r: HellResult<SamplerConfig>)
    ensures r.Ok? <==> Glsl.TryFrom(typeSampler).Ok?
    ensures r.Ok? ==>
      && r.value.descSet == UNASSIGNED && r.value.binding == UNASSIGNED
      && Glsl.ToStr(r.value.typeSampler) == typeSampler && r.value.ident == ToLower(ident)
    ensures r.Err? ==> r.error == Glsl.TryFrom(typeSampler).error
  {
    var t := Glsl.TryFrom(typeSampler);
    if t.Err? then Err(t.error) else Ok(SamplerConfig(UNASSIGNED, UNASSIGNED, t.value, ToLower(ident)))
  }

  /** `ShaderProgramUniformUsage::from_raw`: fails exactly when the scope name does not parse. */
  function UsageFromRaw(scopeIdent: string, fieldIdent: string): (r: HellResult<UniformUsage>)
    ensures r.Ok? <==> ShaderScopes.TryFrom(scopeIdent).Ok?
    ensures r.Ok? ==> r.value == UniformUsage(ShaderScopes.TryFrom(scopeIdent).value, ToLower(fieldIdent))
    ensures r.Err? ==> r.error == ShaderScopes.TryFrom(scopeIdent).error
  {
    var scopeType := ShaderScopes.TryFrom(scopeIdent);
    if scopeType.Err? then Err(scopeType.error) else Ok(UniformUsage(scopeType.value, ToLower(fieldIdent)))
  }

  // ---------------------------------------------------------------------
  // Lookups
  // ---------------------------------------------------------------------

  /** `ShaderProgramScopeConfig::buffer`: the first buffer with that identifier. */
  function BufferRef(scope: ScopeConfig, ident: string): (r: Option<BufferConfig>)
    ensures r.None? <==> forall j | 0 <= j < |scope.buffers| :: scope.buffers[j].ident != ident
    ensures r.Some? ==> exists j | 0 <= j < |scope.buffers| ::
      && scope.buffers[j] == r.value && r.value.ident == ident
      && forall k | 0 <= k < j :: scope.buffers[k].ident != ident
  {
    var i := FindFirst(scope.buffers, (b: BufferConfig) => b.ident == ident);
    if i.None? then None else Some(scope.buffers[i.value])
  }

  /** `ShaderProgramScopeConfig::sampler`: the first sampler with that identifier. */
  function SamplerRef(scope: ScopeConfig, ident: string): (r: Option<SamplerConfig>)
    ensures r.None? <==> forall j | 0 <= j < |scope.samplers| :: scope.samplers[j].ident != ident
    ensures r.Some? ==> exists j | 0 <= j < |scope.samplers| ::
      && scope.samplers[j] == r.value && r.value.ident == ident
      && forall k | 0 <= k < j :: scope.samplers[k].ident != ident
  {
    var i := FindFirst(scope.samplers, (s: SamplerConfig) => s.ident == ident);
    if i.None? then None else Some(scope.samplers[i.value])
  }

  // ---------------------------------------------------------------------
  // Sets and bindings
  // ---------------------------------------------------------------------

  /**
   * What `update_set_and_bindings(set_idx)` makes of a scope: everything in
   * it gets set `set_idx`; the buffers get bindings 0.. in order and the
   * samplers the bindings after them. Nothing else changes.
   */
  function Assigned(scope: ScopeConfig, setIdx: nat): (r: ScopeConfig)
  {
    var nb := |scope.buffers|;
    scope.(buffers := seq(nb, i requires 0 <= i < nb => scope.buffers[i].(descSet := setIdx, binding := i)),
           samplers := seq(|scope.samplers|, j requires 0 <= j < |scope.samplers| => scope.samplers[j].(descSet := setIdx, binding := nb + j)))
  }

  /** The (set, binding) slots of a scope's buffers and then its samplers. */
  function Slots(scope: ScopeConfig): (r: seq<(nat, nat)>)
    ensures |r| == |scope.buffers| + |scope.samplers|
  {
    seq(|scope.buffers|, i requires 0 <= i < |scope.buffers| => (scope.buffers[i].descSet, scope.buffers[i].binding))
    + seq(|scope.samplers|, j requires 0 <= j < |scope.samplers| => (scope.samplers[j].descSet, scope.samplers[j].binding))
  }

  /**
   * After assignment, slot k of a scope is `(set_idx, k)`: the bindings are
   * exactly 0.. in declaration order, buffers first, with no gap and no
   * repetition.
   */
  lemma AssignedSlotsDense(scope: ScopeConfig, setIdx: nat)
    ensures var slots := Slots(Assigned(scope, setIdx));
      && |slots| == |scope.buffers| + |scope.samplers|
      && forall k | 0 <= k < |slots| :: slots[k] == (setIdx, k)
  {
  }

  /** Assignment keeps identifiers, types and members, and only the latest assignment counts. */
  lemma AssignedKeepsContent(scope: ScopeConfig, setIdx: nat, later: nat)
    ensures var r := Assigned(scope, setIdx);
      && r.scopeType == scope.scopeType
      && |r.buffers| == |scope.buffers| && |r.samplers| == |scope.samplers|
      && (forall i | 0 <= i < |r.buffers| :: r.buffers[i].ident == scope.buffers[i].ident && r.buffers[i].varUbos == scope.buffers[i].varUbos)
      && (forall j | 0 <= j < |r.samplers| :: r.samplers[j].ident == scope.samplers[j].ident && r.samplers[j].typeSampler == scope.samplers[j].typeSampler)
      && Assigned(r, later) == Assigned(scope, later)
  {
  }

  /**
   * `update_set_and_bindings`: the two loops with a running binding
   * counter, on a scope record.
   */
  method UpdateSetAndBindings(scope: ScopeConfig, setIdx: nat) returns (r: ScopeConfig)
    ensures r == Assigned(scope, setIdx)
  {
    var binding := 0;
    var buffers := scope.buffers;
    for i := 0 to |buffers|
      invariant |buffers| == |scope.buffers| && binding == i
      invariant forall k | 0 <= k < i :: buffers[k] == scope.buffers[k].(descSet := setIdx, binding := k)
      invariant forall k | i <= k < |buffers| :: buffers[k] == scope.buffers[k]
    {
      buffers := buffers[i := buffers[i].(descSet := setIdx, binding := binding)];
      binding := binding + 1;
    }
    var samplers := scope.samplers;
    for j := 0 to |samplers|
      invariant |samplers| == |scope.samplers| && binding == |buffers| + j
      invariant forall k | 0 <= k < j :: samplers[k] == scope.samplers[k].(descSet := setIdx, binding := |buffers| + k)
      invariant forall k | j <= k < |samplers| :: samplers[k] == scope.samplers[k]
    {
      samplers := samplers[j := samplers[j].(descSet := setIdx, binding := binding)];
      binding := binding + 1;
    }
    r := scope.(buffers := buffers, samplers := samplers);
  }

  /** The scopes of a configuration after `update_sets_and_bindings`: scope i gets set i. */
  function AssignedAll(scopes: seq<ScopeConfig>): (r: seq<ScopeConfig>)
  {
    seq(|scopes|, i requires 0 <= i < |scopes| => Assigned(scopes[i], i))
  }

  /**
   * After `update_sets_and_bindings` no two buffers or samplers anywhere in
   * the configuration share a (set, binding) slot.
   */
  lemma AssignedSlotsUnique(scopes: seq<ScopeConfig>, i1: nat, k1: nat, i2: nat, k2: nat)
    requires i1 < |scopes| && i2 < |scopes|
    requires k1 < |Slots(AssignedAll(scopes)[i1])| && k2 < |Slots(AssignedAll(scopes)[i2])|
    requires (i1, k1) != (i2, k2)
    ensures Slots(AssignedAll(scopes)[i1])[k1] != Slots(AssignedAll(scopes)[i2])[k2]
  {
    AssignedSlotsDense(scopes[i1], i1);
    AssignedSlotsDense(scopes[i2], i2);
  }

  // ---------------------------------------------------------------------
  // The configuration
  // ---------------------------------------------------------------------

  class ShaderProgramConfig {
    var info: InfoConfig
    var scopes: seq<ScopeConfig>
    var shaders: seq<ShaderStageConfig>

    constructor (info: InfoConfig, scopes: seq<ScopeConfig>, shaders: seq<ShaderStageConfig>)
      ensures this.info == info && this.scopes == scopes && this.shaders == shaders
    {
      this.info := info;
      this.scopes := scopes;
      this.shaders := shaders;
    }

    /** `scope_ref`: the first scope of that type. */
    function ScopeRef(scopeType: ShaderScopes.ShaderScopeType): (r: Option<ScopeConfig>)
      reads this
      ensures r.None? <==> forall j | 0 <= j < |scopes| :: scopes[j].scopeType != scopeType
      ensures r.Some? ==> exists j | 0 <= j < |scopes| ::
        && scopes[j] == r.value && r.value.scopeType == scopeType
        && forall k | 0 <= k < j :: scopes[k].scopeType != scopeType
    {
      var i := FindFirst(scopes, (s: ScopeConfig) => s.scopeType == scopeType);
      if i.None? then None else Some(scopes[i.value])
    }

    /** `shader_ref`: the first shader of that stage. */
    function ShaderRef(shaderType: ShaderStages.ShaderStageType): (r: Option<ShaderStageConfig>)
      reads this
      ensures r.None? <==> forall j | 0 <= j < |shaders| :: shaders[j].shaderType != shaderType
      ensures r.Some? ==> exists j | 0 <= j < |shaders| ::
        && shaders[j] == r.value && r.value.shaderType == shaderType
        && forall k | 0 <= k < j :: shaders[k].shaderType != shaderType
    {
      var i := FindFirst(shaders, (s: ShaderStageConfig) => s.shaderType == shaderType);
      if i.None? then None else Some(shaders[i.value])
    }

    /** `update_sets_and_bindings`: the scope at position i is assigned set i. */
    method UpdateSetsAndBindings()
      modifies this`scopes
      ensures scopes == AssignedAll(old(scopes))
    {
      for idx := 0 to |scopes|
        invariant |scopes| == |old(scopes)|
        invariant forall k | 0 <= k < idx :: scopes[k] == Assigned(old(scopes)[k], k)
        invariant forall k | idx <= k < |scopes| :: scopes[k] == old(scopes)[k]
      {
        var updated := UpdateSetAndBindings(scopes[idx], idx);
        scopes := scopes[idx := updated];
      }
    }
  }

  // ---------------------------------------------------------------------
  // GLSL text
  // ---------------------------------------------------------------------

  /** `Display` of a member: the type keyword, a space, the identifier and `;`. */
  function UboVarText(u: UboVarConfig): (r: string)
    ensures |r| == |Glsl.ToStr(u.typeUbo)| + |u.ident| + 2
    ensures r[..|Glsl.ToStr(u.typeUbo)|] == Glsl.ToStr(u.typeUbo) && r[|r| - 1] == ';'
  {
    Glsl.Display(u.typeUbo) + " " + u.ident + ";"
  }

  /** `layout(set = S, binding = B)`, the qualifier every block and sampler carries. */
  function LayoutText(descSet: nat, binding: nat): string
  {
    "layout(set = " + NatToString(descSet) + ", binding = " + NatToString(binding) + ")"
  }

  /** `Display` of a sampler: a comment line, its layout-qualified declaration, a comment line. */
  function SamplerText(s: SamplerConfig): (r: string)
  {
    SamplerStart(s) + LayoutText(s.descSet, s.binding) + SamplerEnd(s)
  }

  function SamplerStart(s: SamplerConfig): string
  {
    "// --- START: sampler '" + s.ident + "' ---\n"
  }

  function SamplerEnd(s: SamplerConfig): string
  {
    " " + Glsl.Display(s.typeSampler) + " " + s.ident + ";\n" + "// --- END: sampler '" + s.ident + "' ---\n"
  }

  /** Two samplers with the same identifier and type print the same text only with the same set and binding. */
  lemma SamplerTextNamesSlot(s: SamplerConfig, t: SamplerConfig)
    requires s.ident == t.ident && s.typeSampler == t.typeSampler
    requires SamplerText(s) == SamplerText(t)
    ensures s.descSet == t.descSet && s.binding == t.binding
  {
    var pre := SamplerStart(s);
    var post := SamplerEnd(s);
    var x := LayoutText(s.descSet, s.binding);
    var y := LayoutText(t.descSet, t.binding);
    assert SamplerText(s) == pre + x + post && SamplerText(t) == pre + y + post;
    assert x == SamplerText(s)[|pre|..|SamplerText(s)| - |post|];
    assert y == SamplerText(t)[|pre|..|SamplerText(t)| - |post|];
    LayoutTextInjective(s.descSet, s.binding, t.descSet, t.binding);
  }

  /** The layout qualifier names its set and binding unambiguously. */
  lemma LayoutTextInjective(s1: nat, b1: nat, s2: nat, b2: nat)
    requires LayoutText(s1, b1) == LayoutText(s2, b2)
    ensures s1 == s2 && b1 == b2
  {
    var p := "layout(set = ";
    var m := ", binding = ";
    var a1, d1 := NatToString(s1), NatToString(b1);
    var a2, d2 := NatToString(s2), NatToString(b2);
    Regroup4(p, a1, m, d1, ")");
    Regroup4(p, a2, m, d2, ")");
    MiddleEqual(p, a1 + (m + d1), a2 + (m + d2), ")");
    DigitsSplit(a1, d1, a2, d2, m);
    NatToStringInjective(s1, s2);
    NatToStringInjective(b1, b2);
  }

  lemma Regroup4(p: string, a: string, m: string, d: string, q: string)
    ensures p + a + m + d + q == p + (a + (m + d)) + q
  {
  }

  /** Equal texts with the same prefix and suffix have the same middle. */
  lemma MiddleEqual(p: string, x: string, y: string, q: string)
    requires p + x + q == p + y + q
    ensures x == y
  {
    assert |x| == |y|;
    assert x == (p + x + q)[|p|..|p| + |x|];
    assert y == (p + y + q)[|p|..|p| + |y|];
  }

  /** Digits followed by a separator that starts with a non-digit split one way only. */
  lemma DigitsSplit(a1: string, d1: string, a2: string, d2: string, m: string)
    requires forall i | 0 <= i < |a1| :: IsDigitChar(a1[i])
    requires forall i | 0 <= i < |a2| :: IsDigitChar(a2[i])
    requires m != [] && !IsDigitChar(m[0])
    requires a1 + (m + d1) == a2 + (m + d2)
    ensures a1 == a2 && d1 == d2
  {
    DigitsBeforeComma(a1, m + d1);
    DigitsBeforeComma(a2, m + d2);
    assert a1 == (a1 + (m + d1))[..|a1|];
    assert a2 == (a2 + (m + d2))[..|a2|];
    assert d1 == (a1 + (m + d1))[|a1| + |m|..];
    assert d2 == (a2 + (m + d2))[|a2| + |m|..];
  }

  predicate IsDigitChar(c: char)
  {
    '0' <= c <= '9'
  }

  /** The length of the run of decimal digits at the start of a text. */
  function LeadingDigits(s: string): (n: nat)
    ensures n <= |s|
  {
    if s == [] || !IsDigitChar(s[0]) then 0 else 1 + LeadingDigits(s[1..])
  }

  /** Digits followed by a non-digit: the leading run is exactly the digits. */
  lemma {:induction false} DigitsBeforeComma(a: string, t: string)
    requires forall i | 0 <= i < |a| :: IsDigitChar(a[i])
    requires t != [] && !IsDigitChar(t[0])
    ensures LeadingDigits(a + t) == |a|
  {
    if a != [] {
      assert (a + t)[1..] == a[1..] + t;
      DigitsBeforeComma(a[1..], t);
    } else {
      assert a + t == t;
    }
  }

  /** The name of a buffer's block type, `<ident>_buffer_type`. */
  function BufferTypeIdent(b: BufferConfig): string
  {
    b.ident + "_buffer_type"
  }

  /** The element struct a Local buffer declares: `inner_<ident>_buffer_type`. */
  function InnerTypeIdent(b: BufferConfig): string
  {
    "inner_" + BufferTypeIdent(b)
  }

  /** The member lines, one tab-indented `Display` line per member, in order. */
  function MemberLines(ubos: seq<UboVarConfig>): (r: string)
  {
    if ubos == [] then "" else MemberLines(ubos[..|ubos| - 1]) + MemberLine(ubos[|ubos| - 1])
  }

  function MemberLine(u: UboVarConfig): string
  {
    "\t" + UboVarText(u) + "\n"
  }

  function StartLine(b: BufferConfig): string
  {
    "// --- START: buffer '" + b.ident + "' ---\n"
  }

  function EndLine(b: BufferConfig): string
  {
    "// --- END: buffer '" + b.ident + "' ---\n"
  }

  /** The opening of the block: the element struct for Local, a uniform block at its set and binding otherwise. */
  function StartTag(b: BufferConfig, scope: ShaderScopes.ShaderScopeType): string
  {
    if scope == ShaderScopes.Local then StructDecl(b)
    else LayoutText(b.descSet, b.binding) + " uniform " + BufferTypeIdent(b) + " {\n"
  }

  /** The struct declaration opening a Local buffer. */
  function StructDecl(b: BufferConfig): string
  {
    "struct " + InnerTypeIdent(b) + " {\n"
  }

  /**
   * The element type the Local storage block declares its array of, as
   * written: the format argument is already `inner_…`, and the format
   * string prefixes `inner_` once more.
   */
  function LocalElementTypeAsWritten(b: BufferConfig): string
  {
    "inner_" + InnerTypeIdent(b)
  }

  /** The std140 storage block that closes a Local buffer, up to its element type. */
  function StorageHead(b: BufferConfig): string
  {
    "};\n// std140 enforces cpp memory layout\nlayout(std140, set = " + NatToString(b.descSet) + ", binding = "
    + NatToString(b.binding) + ") readonly buffer " + BufferTypeIdent(b) + " {\n    "
  }

  /** The rest of the storage block after its element type. */
  function StorageTail(b: BufferConfig): string
  {
    " data[];\n} " + b.ident + ";\n"
  }

  /** The closing of the block: the storage block of `elementType` for Local, `} <ident>;` otherwise. */
  function EndTag(b: BufferConfig, scope: ShaderScopes.ShaderScopeType, elementType: string): string
  {
    if scope == ShaderScopes.Local then StorageHead(b) + elementType + StorageTail(b)
    else "} " + b.ident + ";\n"
  }

  /** The text `format` appends, with the given Local element type. */
  function FormatWith(b: BufferConfig, scope: ShaderScopes.ShaderScopeType, elementType: string): string
  {
    StartLine(b) + StartTag(b, scope) + MemberLines(b.varUbos) + EndTag(b, scope, elementType) + EndLine(b)
  }

  /** `format` as written. */
  function FormatText(b: BufferConfig, scope: ShaderScopes.ShaderScopeType): string
  {
    FormatWith(b, scope, LocalElementTypeAsWritten(b))
  }

  /** `format` as evidently intended: the storage block's array has the struct just declared as its element. */
  function FormatTextIntended(b: BufferConfig, scope: ShaderScopes.ShaderScopeType): string
  {
    FormatWith(b, scope, InnerTypeIdent(b))
  }

  /** A Local buffer's text is its declarations around the element type of its storage block. */
  lemma LocalTextSplits(b: BufferConfig, elementType: string)
    ensures FormatWith(b, ShaderScopes.Local, elementType)
         == (StartLine(b) + StructDecl(b) + MemberLines(b.varUbos) + StorageHead(b)) + elementType + (StorageTail(b) + EndLine(b))
  {
    var a := StartLine(b) + StructDecl(b) + MemberLines(b.varUbos);
    assert FormatWith(b, ShaderScopes.Local, elementType) == a + (StorageHead(b) + elementType + StorageTail(b)) + EndLine(b);
    Regroup5(a, StorageHead(b), elementType, StorageTail(b), EndLine(b));
  }

  lemma Regroup5(a: string, h: string, e: string, t: string, x: string)
    ensures a + (h + e + t) + x == (a + h) + e + (t + x)
  {
  }

  /**
   * As written, a Local buffer's storage block names an element type the
   * text never declares: the struct is `inner_<ident>_buffer_type`, the
   * array is of `inner_inner_<ident>_buffer_type`, so the generated GLSL
   * does not compile. Outside Local the written and intended texts agree.
   */
  lemma LocalElementTypeUndeclared(b: BufferConfig)
    ensures StructDecl(b) == "struct " + InnerTypeIdent(b) + " {\n"
    ensures FormatText(b, ShaderScopes.Local)
         == (StartLine(b) + StructDecl(b) + MemberLines(b.varUbos) + StorageHead(b)) + LocalElementTypeAsWritten(b) + (StorageTail(b) + EndLine(b))
    ensures LocalElementTypeAsWritten(b) != InnerTypeIdent(b)
    ensures forall scope | scope != ShaderScopes.Local :: FormatText(b, scope) == FormatTextIntended(b, scope)
    ensures FormatText(b, ShaderScopes.Local) != FormatTextIntended(b, ShaderScopes.Local)
  {
    assert |LocalElementTypeAsWritten(b)| == |InnerTypeIdent(b)| + 6;
    LocalTextSplits(b, LocalElementTypeAsWritten(b));
    LocalTextSplits(b, InnerTypeIdent(b));
  }

  /** In the intended text the Local storage block's element type is the struct the text declares. */
  lemma LocalElementTypeDeclaredIntended(b: BufferConfig)
    ensures StructDecl(b) == "struct " + InnerTypeIdent(b) + " {\n"
    ensures FormatTextIntended(b, ShaderScopes.Local)
         == (StartLine(b) + StructDecl(b) + MemberLines(b.varUbos) + StorageHead(b)) + InnerTypeIdent(b) + (StorageTail(b) + EndLine(b))
  {
    LocalTextSplits(b, InnerTypeIdent(b));
  }

  /**
   * `ShaderProgramBufferConfig::format`: the block is appended to `txt`
   * piece by piece, one member line per loop step. Writing to a `String`
   * cannot fail, so the result is always `Ok`.
   */
  method Format(b: BufferConfig, scope: ShaderScopes.ShaderScopeType, txt: string) returns (out: string, r: HellResult<()>)
    ensures out == txt + FormatText(b, scope) && r == Ok(())
  {
    out := txt + StartLine(b);
    out := out + StartTag(b, scope);
    ghost var head := out;
    for i := 0 to |b.varUbos|
      invariant out == head + MemberLines(b.varUbos[..i])
    {
      MemberLinesStep(b.varUbos, i);
      AppendAssoc(head, MemberLines(b.varUbos[..i]), MemberLine(b.varUbos[i]));
      out := out + MemberLine(b.varUbos[i]);
    }
    assert b.varUbos[..|b.varUbos|] == b.varUbos;
    ghost var members := MemberLines(b.varUbos);
    assert out == txt + StartLine(b) + StartTag(b, scope) + members;
    var endTag := EndTag(b, scope, LocalElementTypeAsWritten(b));
    out := out + endTag;
    out := out + EndLine(b);
    AppendAssoc5(txt, StartLine(b), StartTag(b, scope), members, endTag, EndLine(b));
    r := Ok(());
  }

  lemma MemberLinesStep(ubos: seq<UboVarConfig>, i: nat)
    requires i < |ubos|
    ensures MemberLines(ubos[..i + 1]) == MemberLines(ubos[..i]) + MemberLine(ubos[i])
  {
    assert ubos[..i + 1][..i] == ubos[..i];
  }

  lemma AppendAssoc(a: string, b: string, c: string)
    ensures a + b + c == a + (b + c)
  {
  }

  lemma AppendAssoc5(t: string, a: string, b: string, c: string, d: string, e: string)
    ensures t + a + b + c + d + e == t + (a + b + c + d + e)
  {
  }
}
