/**
 * `ShaderManager` (hell_renderer `resources/shader/mod.rs`): a
 * get-or-create registry from a key to an index into a growing vector of
 * shader programs. The program type is a parameter `S`; building a program
 * is external, so its outcome is a parameter of `create_shader`.
 *
 * As written, `create_shader` inserts the key before the build runs, so a
 * failed build leaves the key mapped to an index that holds no program,
 * and the next successful creation under another key reuses that index.
 * `CreateShaderSpec` models that; `CreateShaderIntended` registers the key
 * only after a successful build.
 */
module ShaderManagers {
  import opened Wrappers
  import opened Common
  import opened HellErrors

  const FAILED_SHADER_HANDLE: string := "failed to get shader handle"

  datatype ShaderState<S> = ShaderState(handles: map<string, ResourceHandle>, shaders: seq<S>)

  /** What the code as written keeps: no handle points past the next index to be used. */
  predicate HandlesAtMostLen<S>(s: ShaderState<S>)
  {
    forall k | k in s.handles :: s.handles[k].idx <= |s.shaders|
  }

  /** What a registry is meant to keep: every handle resolves, and distinct keys name distinct programs. */
  predicate HandlesResolve<S>(s: ShaderState<S>)
  {
    && (forall k | k in s.handles :: s.handles[k].idx < |s.shaders|)
    && (forall k1, k2 | k1 in s.handles && k2 in s.handles && k1 != k2 :: s.handles[k1] != s.handles[k2])
  }

  /** `create_shader` as written: the key is registered before the build. */
  function CreateShaderSpec<S>(s: ShaderState<S>, key: string, built: HellResult<S>)
    : (r: (ShaderState<S>, HellResult<ResourceHandle>))
    ensures key in s.handles ==> r == (s, Ok(s.handles[key]))
    ensures key !in s.handles ==> r.0.handles == s.handles[key := ResourceHandle(|s.shaders|)]
    ensures key !in s.handles && built.Ok? ==>
      r.0.shaders == s.shaders + [built.value] && r.1 == Ok(ResourceHandle(|s.shaders|))
    ensures key !in s.handles && built.Err? ==> r.0.shaders == s.shaders && r.1 == Err(built.error)
  {
    if key in s.handles then (s, Ok(s.handles[key]))
    else
      var handle := ResourceHandle(|s.shaders|);
      var handles := s.handles[key := handle];
      if built.Err? then (ShaderState(handles, s.shaders), Err(built.error))
      else (ShaderState(handles, s.shaders + [built.value]), Ok(handle))
  }

  /** As written, creation keeps only the weaker bound `idx <= len`. */
  lemma CreateShaderKeepsBound<S>(s: ShaderState<S>, key: string, built: HellResult<S>)
    requires HandlesAtMostLen(s)
    ensures HandlesAtMostLen(CreateShaderSpec(s, key, built).0)
  {
    var s' := CreateShaderSpec(s, key, built).0;
    forall k | k in s'.handles
      ensures s'.handles[k].idx <= |s'.shaders|
    {
      if k != key {
        assert s'.handles[k] == s.handles[k];
      }
    }
  }

  /**
   * As written, a failed build followed by a successful one under another
   * key leaves both keys on the same program: `"a"` then resolves to the
   * program built for `"b"`, and before that `"a"` resolved to nothing.
   */
  lemma FailedBuildAliases<S>(prog: S, err: HellError)
    ensures var (s1, r1) := CreateShaderSpec(ShaderState(map[], []), "a", Err(err));
      var (s2, r2) := CreateShaderSpec(s1, "b", Ok(prog));
      && r1.Err? && "a" in s1.handles && s1.handles["a"].idx == |s1.shaders|
      && r2 == Ok(ResourceHandle(0))
      && s2.handles["a"] == s2.handles["b"]
      && !HandlesResolve(s2)
      && CreateShaderSpec(s2, "a", Err(err)) == (s2, Ok(ResourceHandle(0)))
  {
    var (s1, r1) := CreateShaderSpec(ShaderState(map[], []), "a", Err(err));
    var (s2, r2) := CreateShaderSpec(s1, "b", Ok(prog));
    assert s2.handles["a"] == s2.handles["b"] == ResourceHandle(0);
  }

  /** `create_shader` as evidently intended: the key is registered only once the build succeeded. */
  function CreateShaderIntended<S>(s: ShaderState<S>, key: string, built: HellResult<S>)
    : (r: (ShaderState<S>, HellResult<ResourceHandle>))
    ensures key in s.handles ==> r == (s, Ok(s.handles[key]))
    ensures key !in s.handles && built.Err? ==> r == (s, Err(built.error))
    ensures key !in s.handles && built.Ok? ==>
      && r.1 == Ok(ResourceHandle(|s.shaders|))
      && r.0 == ShaderState(s.handles[key := ResourceHandle(|s.shaders|)], s.shaders + [built.value])
  {
    if key in s.handles then (s, Ok(s.handles[key]))
    else if built.Err? then (s, Err(built.error))
    else
      var handle := ResourceHandle(|s.shaders|);
      (ShaderState(s.handles[key := handle], s.shaders + [built.value]), Ok(handle))
  }

  /** The intended creation keeps every handle resolving and keys apart. */
  lemma CreateShaderIntendedKeepsResolve<S>(s: ShaderState<S>, key: string, built: HellResult<S>)
    requires HandlesResolve(s)
    ensures HandlesResolve(CreateShaderIntended(s, key, built).0)
    ensures var (s', r) := CreateShaderIntended(s, key, built);
      r.Ok? ==> r.value.idx < |s'.shaders| && (built.Ok? && key !in s.handles ==> s'.shaders[r.value.idx] == built.value)
  {
    var (s', r) := CreateShaderIntended(s, key, built);
    if key !in s.handles && built.Ok? {
      forall k | k in s'.handles
        ensures s'.handles[k].idx < |s'.shaders|
      {
        if k != key {
          assert s'.handles[k] == s.handles[k];
        }
      }
      forall k1, k2 | k1 in s'.handles && k2 in s'.handles && k1 != k2
        ensures s'.handles[k1] != s'.handles[k2]
      {
        if k1 != key && k2 != key {
          assert s'.handles[k1] == s.handles[k1] && s'.handles[k2] == s.handles[k2];
        }
      }
    }
  }

  /** `handle_res` on a snapshot: the stored handle, or a render error for an unknown key. */
  function HandleRes<S>(s: ShaderState<S>, key: string): (r: HellResult<ResourceHandle>)
    ensures r.Ok? <==> key in s.handles
    ensures r.Ok? ==> r.value == s.handles[key]
    ensures r.Err? ==> r.error == RenderMsgErr(FAILED_SHADER_HANDLE)
  {
    OkOrRenderHerr(if key in s.handles then Some(s.handles[key]) else None, FAILED_SHADER_HANDLE)
  }

  class ShaderManager<S> {
    var handles: map<string, ResourceHandle>
    var shaders: seq<S>

    function State(): (s: ShaderState<S>)
      reads this
      ensures s.handles == handles && s.shaders == shaders
    {
      ShaderState(handles, shaders)
    }

    ghost predicate Valid()
      reads this
    {
      HandlesAtMostLen(State())
    }

    /** `ShaderManager::new` / `default`: nothing registered. */
    constructor ()
      ensures Valid() && handles == map[] && shaders == []
    {
      handles := map[];
      shaders := [];
    }

    /** `handle`: the handle stored for the key, if any. */
    function Handle(key: string): (r: Option<ResourceHandle>)
      reads this
      ensures r.Some? <==> key in handles
      ensures r.Some? ==> r.value == handles[key]
    {
      if key in handles then Some(handles[key]) else None
    }

    function HandleResult(key: string): (r: HellResult<ResourceHandle>)
      reads this
      ensures r == HandleRes(State(), key)
    {
      OkOrRenderHerr(Handle(key), FAILED_SHADER_HANDLE)
    }

    /** `create_shader`, as written. */
    method CreateShader(key: string, built: HellResult<S>) returns (r: HellResult<ResourceHandle>)
      requires Valid()
      modifies this
      ensures Valid()
      ensures (State(), r) == CreateShaderSpec(old(State()), key, built)
    {
      CreateShaderKeepsBound(State(), key, built);
      var known := Handle(key);
      if known.Some? {
        return Ok(known.value);
      }
      var handle := ResourceHandle(|shaders|);
      handles := handles[key := handle];
      if built.Err? {
        return Err(built.error);
      }
      shaders := shaders + [built.value];
      r := Ok(handle);
    }

    /** `shader` (and `shader_mut`): the program at the handle; an index past the end panics. */
    function Shader(handle: ResourceHandle): (p: S)
      requires handle.idx < |shaders|
      reads this
      ensures p == shaders[handle.idx]
    {
      shaders[handle.idx]
    }
  }
}
