/**
 * `MaterialManager` (hell_renderer `resources/materials.rs`): a
 * get-or-create registry of materials. A material names its shader and
 * maps texture names to textures acquired through the `TextureManager`.
 *
 * The `textures` table of a `MaterialInfo` is a `HashMap`; the model takes
 * its entries as a sequence in the order the map yields them. Reading and
 * parsing the material file is external: its outcome is a parameter.
 */
module Materials {
  import opened Wrappers
  import opened Common
  import opened HellErrors
  import opened Textures

  /** `MaterialManager::MAIN_TEX`. */
  const MAIN_TEX: string := "main_tex"

  /** One entry of `MaterialInfo::textures`: the texture's name in the material and its file. */
  datatype MaterialTextureInfo = MaterialTextureInfo(name: string, path: string)

  datatype MaterialInfo = MaterialInfo(name: string, shader: string, textures: seq<MaterialTextureInfo>)

  /** The outcome of the two external steps for one texture file. */
  datatype TextureOutcome = TextureOutcome(loaded: HellResult<RgbaImage>, created: HellResult<RenderTexture>)

  /**
   * The texture map of `acquire`: each entry acquired in turn through the
   * texture manager, keyed and located by its path, the first failure
   * ending the walk (`collect` into a `HellResult`). Textures acquired
   * before a failure stay in the texture manager.
   */
  function AcquireAllTextures(ts: TextureState, entries: seq<MaterialTextureInfo>, outcomes: seq<TextureOutcome>)
    : (r: (TextureState, HellResult<map<string, ResourceHandle>>))
    requires |outcomes| == |entries|
    ensures r.1.Ok? ==> r.1.value.Keys == set e | e in entries :: e.name
    decreases |entries|
  {
    if |entries| == 0 then (ts, Ok(map[]))
    else
      var n := |entries| - 1;
      var (ts1, acc) := AcquireAllTextures(ts, entries[..n], outcomes[..n]);
      if acc.Err? then (ts1, acc)
      else
        var e := entries[n];
        var (ts2, h) := AcquireSpec(ts1, e.path, Some(e.path), outcomes[n].loaded, outcomes[n].created);
        if h.Err? then (ts2, Err(h.error))
        else
          assert entries == entries[..n] + [e];
          (ts2, Ok(acc.value[e.name := h.value]))
  }

  /** Walking the textures keeps the texture manager's invariant. */
  lemma {:induction false} AcquireAllKeepsValid(ts: TextureState, entries: seq<MaterialTextureInfo>, outcomes: seq<TextureOutcome>)
    requires |outcomes| == |entries| && TexturesValid(ts)
    ensures TexturesValid(AcquireAllTextures(ts, entries, outcomes).0)
    decreases |entries|
  {
    if |entries| > 0 {
      var n := |entries| - 1;
      AcquireAllKeepsValid(ts, entries[..n], outcomes[..n]);
      var ts1 := AcquireAllTextures(ts, entries[..n], outcomes[..n]).0;
      AcquireKeepsValid(ts1, entries[n].path, Some(entries[n].path), outcomes[n].loaded, outcomes[n].created);
    }
  }

  /**
   * Every texture handle of an acquired material resolves in the texture
   * manager the walk leaves behind.
   */
  lemma {:induction false} AcquireAllResolves(ts: TextureState, entries: seq<MaterialTextureInfo>, outcomes: seq<TextureOutcome>)
    requires |outcomes| == |entries| && TexturesValid(ts)
    ensures var (ts', r) := AcquireAllTextures(ts, entries, outcomes);
      r.Ok? ==> forall k | k in r.value :: r.value[k].idx < |ts'.textures|
    decreases |entries|
  {
    if |entries| > 0 {
      var n := |entries| - 1;
      AcquireAllResolves(ts, entries[..n], outcomes[..n]);
      AcquireAllKeepsValid(ts, entries[..n], outcomes[..n]);
      var (ts1, acc) := AcquireAllTextures(ts, entries[..n], outcomes[..n]);
      AcquireKeepsValid(ts1, entries[n].path, Some(entries[n].path), outcomes[n].loaded, outcomes[n].created);
    }
  }

  /** The entries come from a map, so no two share a name. */
  predicate DistinctNames(entries: seq<MaterialTextureInfo>)
  {
    forall i, j | 0 <= i < j < |entries| :: entries[i].name != entries[j].name
  }

  /**
   * On success each texture name maps to the handle the texture manager
   * holds for that entry's path, that is, the handle `acquire_textuer`
   * returned for it.
   */
  lemma {:induction false} AcquireAllMapsPaths(ts: TextureState, entries: seq<MaterialTextureInfo>, outcomes: seq<TextureOutcome>)
    requires |outcomes| == |entries|
    ensures var (ts', r) := AcquireAllTextures(ts, entries, outcomes);
      r.Ok? && DistinctNames(entries) ==> forall i | 0 <= i < |entries| ::
        entries[i].path in ts'.handles && r.value[entries[i].name] == ts'.handles[entries[i].path]
    decreases |entries|
  {
    if |entries| > 0 {
      var n := |entries| - 1;
      AcquireAllMapsPaths(ts, entries[..n], outcomes[..n]);
      var (ts1, acc) := AcquireAllTextures(ts, entries[..n], outcomes[..n]);
      var e := entries[n];
      var (ts2, h) := AcquireSpec(ts1, e.path, Some(e.path), outcomes[n].loaded, outcomes[n].created);
      if acc.Ok? && h.Ok? && DistinctNames(entries) {
        assert DistinctNames(entries[..n]);
        forall i | 0 <= i < |entries|
          ensures entries[i].path in ts2.handles
          ensures acc.value[e.name := h.value][entries[i].name] == ts2.handles[entries[i].path]
        {
          if i < n {
            assert entries[..n][i] == entries[i];
            assert entries[i].name != e.name;
          }
        }
      }
    }
  }

  /** The texture manager only ever grows during the walk. */
  lemma {:induction false} AcquireAllOnlyGrows(ts: TextureState, entries: seq<MaterialTextureInfo>, outcomes: seq<TextureOutcome>)
    requires |outcomes| == |entries|
    ensures var ts' := AcquireAllTextures(ts, entries, outcomes).0;
      ts.textures <= ts'.textures && ts.handles.Keys <= ts'.handles.Keys
    decreases |entries|
  {
    if |entries| > 0 {
      var n := |entries| - 1;
      AcquireAllOnlyGrows(ts, entries[..n], outcomes[..n]);
    }
  }

  /** A snapshot of the manager's three fields. */
  datatype MaterialState = MaterialState(
    handles: map<string, ResourceHandle>,
    shader: seq<string>,
    textures: seq<map<string, ResourceHandle>>)

  /** `shader` and `textures` grow in lockstep and every stored handle resolves. */
  predicate MaterialsValid(s: MaterialState)
  {
    && |s.textures| == |s.shader|
    && forall k | k in s.handles :: s.handles[k].idx < |s.shader|
  }

  /** `acquire` on snapshots of both managers. */
  function AcquireMaterialSpec(s: MaterialState, ts: TextureState, path: string, info: MaterialInfo, outcomes: seq<TextureOutcome>)
    : (r: (MaterialState, TextureState, HellResult<ResourceHandle>))
    requires |outcomes| == |info.textures|
    ensures path in s.handles ==> r == (s, ts, Ok(s.handles[path]))
    ensures r.2.Err? ==> r.0 == s
    ensures path !in s.handles && r.2.Ok? ==>
      && r.2.value == ResourceHandle(|s.shader|)
      && r.0.handles == s.handles[path := r.2.value]
      && r.0.shader == s.shader + [info.shader]
      && |r.0.textures| == |s.textures| + 1 && r.0.textures[..|s.textures|] == s.textures
      && r.0.textures[|s.textures|].Keys == set e | e in info.textures :: e.name
    ensures path !in s.handles && r.2.Ok? && DistinctNames(info.textures) ==>
      forall i | 0 <= i < |info.textures| ::
        info.textures[i].path in r.1.handles
        && r.0.textures[|s.textures|][info.textures[i].name] == r.1.handles[info.textures[i].path]
  {
    if path in s.handles then (s, ts, Ok(s.handles[path]))
    else
      AcquireAllMapsPaths(ts, info.textures, outcomes);
      var handle := ResourceHandle(|s.shader|);
      var (ts', textures) := AcquireAllTextures(ts, info.textures, outcomes);
      if textures.Err? then (s, ts', Err(textures.error))
      else
        (MaterialState(s.handles[path := handle], s.shader + [info.shader], s.textures + [textures.value]), ts', Ok(handle))
  }

  /** Acquisition keeps both managers' invariants and the material's textures resolve. */
  lemma AcquireMaterialKeepsValid(s: MaterialState, ts: TextureState, path: string, info: MaterialInfo, outcomes: seq<TextureOutcome>)
    requires |outcomes| == |info.textures|
    requires MaterialsValid(s) && TexturesValid(ts)
    ensures var (s', ts', r) := AcquireMaterialSpec(s, ts, path, info, outcomes);
      && MaterialsValid(s') && TexturesValid(ts')
      && (r.Ok? && path !in s.handles ==>
            forall k | k in s'.textures[r.value.idx] :: s'.textures[r.value.idx][k].idx < |ts'.textures|)
  {
    AcquireAllKeepsValid(ts, info.textures, outcomes);
    AcquireAllResolves(ts, info.textures, outcomes);
    var (s', ts', r) := AcquireMaterialSpec(s, ts, path, info, outcomes);
    if path !in s.handles && r.Ok? {
      forall k | k in s'.handles
        ensures s'.handles[k].idx < |s'.shader|
      {
        if k != path {
          assert s'.handles[k] == s.handles[k];
        }
      }
    }
  }

  class MaterialManager {
    var handles: map<string, ResourceHandle>
    var shader: seq<string>
    var textures: seq<map<string, ResourceHandle>>

    function State(): (s: MaterialState)
      reads this
      ensures s.handles == handles && s.shader == shader && s.textures == textures
    {
      MaterialState(handles, shader, textures)
    }

    ghost predicate Valid()
      reads this
    {
      MaterialsValid(State())
    }

    /** `MaterialManager::new` / `default`: no materials. */
    constructor ()
      ensures Valid() && Len() == 0
      ensures handles == map[] && shader == [] && textures == []
    {
      handles := map[];
      shader := [];
      textures := [];
    }

    /** `len`: the number of materials, counted by their shaders. */
    function Len(): (n: nat)
      reads this
      ensures n == |shader|
    {
      |shader|
    }

    function IsEmpty(): (b: bool)
      reads this
      ensures b <==> Len() == 0
    {
      Len() == 0
    }

    /** `handle`: the handle stored for the path, if any. */
    function Handle(path: string): (r: Option<ResourceHandle>)
      reads this
      ensures r.Some? <==> path in handles
      ensures r.Some? ==> r.value == handles[path]
    {
      if path in handles then Some(handles[path]) else None
    }

    /**
     * `acquire`: a known path returns its handle; otherwise the textures are
     * acquired one by one and, only when all succeed, the material is
     * registered under handle `len()`.
     */
    method Acquire(texMan: TextureManager, path: string, info: MaterialInfo, outcomes: seq<TextureOutcome>)
      returns (r: HellResult<ResourceHandle>)
      requires |outcomes| == |info.textures|
      requires Valid() && texMan.Valid()
      modifies this, texMan
      ensures Valid() && texMan.Valid()
      ensures (State(), texMan.State(), r) == AcquireMaterialSpec(old(State()), old(texMan.State()), path, info, outcomes)
    {
      AcquireMaterialKeepsValid(State(), texMan.State(), path, info, outcomes);
      var known := Handle(path);
      if known.Some? {
        return Ok(known.value);
      }
      var handle := ResourceHandle(Len());
      var collected := CollectTextures(texMan, info.textures, outcomes);
      if collected.Err? {
        return Err(collected.error);
      }
      handles := handles[path := handle];
      shader := shader + [info.shader];
      textures := textures + [collected.value];
      r := Ok(handle);
    }

    /** `acquire_from_file`: `file` is the outcome of reading and parsing the material file. */
    method AcquireFromFile(texMan: TextureManager, path: string, file: HellResult<MaterialInfo>, outcomes: seq<TextureOutcome>)
      returns (r: HellResult<ResourceHandle>)
      requires file.Ok? ==> |outcomes| == |file.value.textures|
      requires Valid() && texMan.Valid()
      modifies this, texMan
      ensures Valid() && texMan.Valid()
      ensures file.Err? ==> r == Err(file.error) && State() == old(State()) && texMan.State() == old(texMan.State())
      ensures file.Ok? ==>
        (State(), texMan.State(), r) == AcquireMaterialSpec(old(State()), old(texMan.State()), path, file.value, outcomes)
    {
      if file.Err? {
        return Err(file.error);
      }
      r := Acquire(texMan, path, file.value, outcomes);
    }
  }

  /**
   * The `map(...).collect()` of `acquire`: each texture entry acquired in
   * turn, stopping at the first failure.
   */
  method CollectTextures(texMan: TextureManager, entries: seq<MaterialTextureInfo>, outcomes: seq<TextureOutcome>)
    returns (r: HellResult<map<string, ResourceHandle>>)
    requires |outcomes| == |entries| && texMan.Valid()
    modifies texMan
    ensures texMan.Valid()
    ensures (texMan.State(), r) == AcquireAllTextures(old(texMan.State()), entries, outcomes)
  {
    var acc: map<string, ResourceHandle> := map[];
    var i := 0;
    while i < |entries|
      invariant 0 <= i <= |entries|
      invariant texMan.Valid()
      invariant (texMan.State(), Ok(acc)) == AcquireAllTextures(old(texMan.State()), entries[..i], outcomes[..i])
    {
      var e := entries[i];
      assert entries[..i + 1][..i] == entries[..i];
      assert outcomes[..i + 1][..i] == outcomes[..i];
      var h := texMan.AcquireTexture(e.path, Some(e.path), outcomes[i].loaded, outcomes[i].created);
      if h.Err? {
        assert (texMan.State(), Err(h.error)) == AcquireAllTextures(old(texMan.State()), entries[..i + 1], outcomes[..i + 1]);
        AcquireAllPrefixErr(old(texMan.State()), entries, outcomes, i + 1);
        return Err(h.error);
      }
      acc := acc[e.name := h.value];
      i := i + 1;
    }
    assert entries[..i] == entries && outcomes[..i] == outcomes;
    r := Ok(acc);
  }

  /** Once a prefix of the walk fails, the whole walk fails with the same error and state. */
  lemma {:induction false} AcquireAllPrefixErr(ts: TextureState, entries: seq<MaterialTextureInfo>, outcomes: seq<TextureOutcome>, k: nat)
    requires |outcomes| == |entries| && k <= |entries|
    requires AcquireAllTextures(ts, entries[..k], outcomes[..k]).1.Err?
    ensures AcquireAllTextures(ts, entries, outcomes) == AcquireAllTextures(ts, entries[..k], outcomes[..k])
    decreases |entries|
  {
    if k < |entries| {
      var n := |entries| - 1;
      assert entries[..n][..k] == entries[..k] && outcomes[..n][..k] == outcomes[..k];
      AcquireAllPrefixErr(ts, entries[..n], outcomes[..n], k);
    } else {
      assert entries[..k] == entries && outcomes[..k] == outcomes;
    }
  }
}
