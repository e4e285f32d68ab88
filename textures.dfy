/**
 * `TextureManager` (hell_renderer `resources/textures.rs`): a
 * get-or-create registry from a key to an index into a growing vector of
 * textures, with the decoded image (when there was one) kept beside it.
 *
 * Loading the image file and creating the Vulkan texture are external: the
 * operations take their outcomes as parameters.
 */
module Textures {
  import opened Wrappers
  import opened Common
  import opened HellErrors

  /** The Vulkan texture: image, view and sampler handles. */
  datatype RenderTexture = RenderTexture(image: Handle, imgView: Handle, sampler: Handle)

  /** A decoded RGBA8 image. */
  datatype RgbaImage = RgbaImage(width: nat, height: nat, raw: seq<bv8>)

  const FAILED_TEXTURE: string := "failed to get texture"

  /** A snapshot of the manager's three fields. */
  datatype TextureState = TextureState(
    handles: map<string, ResourceHandle>,
    images: seq<Option<RgbaImage>>,
    textures: seq<RenderTexture>)

  const EMPTY_TEXTURES: TextureState := TextureState(map[], [], [])

  /** `images` and `textures` grow in lockstep and every stored handle resolves. */
  predicate TexturesValid(s: TextureState)
  {
    && |s.images| == |s.textures|
    && forall k | k in s.handles :: s.handles[k].idx < |s.textures|
  }

  /**
   * `acquire_textuer` on a snapshot. `loaded` is the outcome of loading the
   * file at `path` (consulted only when there is a path), `created` the
   * outcome of the backend call that creates the texture: from the image
   * when there is a path, the default texture otherwise.
   */
  function AcquireSpec(s: TextureState, key: string, path: Option<string>,
                       loaded: HellResult<RgbaImage>, created: HellResult<RenderTexture>)
    : (r: (TextureState, HellResult<ResourceHandle>))
    ensures key in s.handles ==> r == (s, Ok(s.handles[key]))
    ensures r.1.Err? ==> r.0 == s
    ensures key !in s.handles && r.1.Ok? ==>
      && r.1.value == ResourceHandle(|s.textures|)
      && created.Ok? && r.0.textures == s.textures + [created.value]
      && r.0.handles == s.handles[key := r.1.value]
  {
    if key in s.handles then (s, Ok(s.handles[key]))
    else if path.Some? && loaded.Err? then (s, Err(loaded.error))
    else if created.Err? then (s, Err(created.error))
    else
      var img := if path.Some? then Some(loaded.value) else None;
      var h := ResourceHandle(|s.textures|);
      (TextureState(s.handles[key := h], s.images + [img], s.textures + [created.value]), Ok(h))
  }

  /** The stored image is the loaded one with a path, and `None` without. */
  lemma AcquireStoresImage(s: TextureState, key: string, path: Option<string>,
                           loaded: HellResult<RgbaImage>, created: HellResult<RenderTexture>)
    requires key !in s.handles
    ensures var (s', r) := AcquireSpec(s, key, path, loaded, created);
      r.Ok? <==> (path.None? || loaded.Ok?) && created.Ok?
    ensures var (s', r) := AcquireSpec(s, key, path, loaded, created);
      r.Ok? ==> s'.images == s.images + [if path.Some? then Some(loaded.value) else None]
  {
  }

  /** Acquisition keeps the lockstep and every handle in range. */
  lemma AcquireKeepsValid(s: TextureState, key: string, path: Option<string>,
                          loaded: HellResult<RgbaImage>, created: HellResult<RenderTexture>)
    requires TexturesValid(s)
    ensures TexturesValid(AcquireSpec(s, key, path, loaded, created).0)
  {
    var (s', r) := AcquireSpec(s, key, path, loaded, created);
    if key !in s.handles && r.Ok? {
      forall k | k in s'.handles
        ensures s'.handles[k].idx < |s'.textures|
      {
        if k != key {
          assert s'.handles[k] == s.handles[k];
        }
      }
    }
  }

  /**
   * Get-or-create is idempotent: once a key is acquired, acquiring it again
   * returns the same handle and changes nothing, whatever the backend would
   * have done.
   */
  lemma AcquireIdempotent(s: TextureState, key: string, path: Option<string>,
                          loaded: HellResult<RgbaImage>, created: HellResult<RenderTexture>,
                          path2: Option<string>, loaded2: HellResult<RgbaImage>, created2: HellResult<RenderTexture>)
    requires AcquireSpec(s, key, path, loaded, created).1.Ok?
    ensures var (s1, r1) := AcquireSpec(s, key, path, loaded, created);
      AcquireSpec(s1, key, path2, loaded2, created2) == (s1, r1)
  {
  }

  /** `texture`: the texture at the handle, `None` past the end. */
  function TextureAt(s: TextureState, handle: ResourceHandle): (r: Option<RenderTexture>)
    ensures r.Some? <==> handle.idx < |s.textures|
    ensures r.Some? ==> r.value == s.textures[handle.idx]
  {
    if handle.idx < |s.textures| then Some(s.textures[handle.idx]) else None
  }

  /** `texture_res`: as `texture`, with a render error past the end. */
  function TextureRes(s: TextureState, handle: ResourceHandle): (r: HellResult<RenderTexture>)
    ensures r.Ok? <==> handle.idx < |s.textures|
    ensures r.Ok? ==> r.value == s.textures[handle.idx]
    ensures r.Err? ==> r.error == RenderMsgErr(FAILED_TEXTURE)
  {
    OkOrRenderHerr(TextureAt(s, handle), FAILED_TEXTURE)
  }

  /** A freshly acquired handle resolves to the texture just created. */
  lemma AcquiredTextureResolves(s: TextureState, key: string, path: Option<string>,
                                loaded: HellResult<RgbaImage>, created: HellResult<RenderTexture>)
    requires TexturesValid(s) && key !in s.handles
    requires AcquireSpec(s, key, path, loaded, created).1.Ok?
    ensures var (s', r) := AcquireSpec(s, key, path, loaded, created);
      TextureRes(s', r.value) == Ok(created.value)
      && forall i | 0 <= i < |s.textures| :: TextureAt(s', ResourceHandle(i)) == TextureAt(s, ResourceHandle(i))
  {
  }

  class TextureManager {
    var handles: map<string, ResourceHandle>
    var images: seq<Option<RgbaImage>>
    var textures: seq<RenderTexture>

    function State(): (s: TextureState)
      reads this
      ensures s.handles == handles && s.images == images && s.textures == textures
    {
      TextureState(handles, images, textures)
    }

    ghost predicate Valid()
      reads this
    {
      TexturesValid(State())
    }

    /** `TextureManager::new` / `default`: nothing registered. */
    constructor ()
      ensures Valid() && State() == EMPTY_TEXTURES
    {
      handles := map[];
      images := [];
      textures := [];
    }

    /** `handle`: the handle stored for the key, if any. */
    function Handle(key: string): (r: Option<ResourceHandle>)
      reads this
      ensures r.Some? <==> key in handles
      ensures r.Some? ==> r.value == handles[key]
    {
      if key in handles then Some(handles[key]) else None
    }

    /** `texture` and `texture_res` on the current state. */
    function Texture(handle: ResourceHandle): (r: Option<RenderTexture>)
      reads this
      ensures r == TextureAt(State(), handle)
    {
      if handle.idx < |textures| then Some(textures[handle.idx]) else None
    }

    function TextureResult(handle: ResourceHandle): (r: HellResult<RenderTexture>)
      reads this
      ensures r == TextureRes(State(), handle)
    {
      OkOrRenderHerr(Texture(handle), FAILED_TEXTURE)
    }

    /** `acquire_textuer`, following `AcquireSpec` step by step. */
    method AcquireTexture(key: string, path: Option<string>,
                          loaded: HellResult<RgbaImage>, created: HellResult<RenderTexture>)
      returns (r: HellResult<ResourceHandle>)
      requires Valid()
      modifies this
      ensures Valid()
      ensures (State(), r) == AcquireSpec(old(State()), key, path, loaded, created)
    {
      AcquireKeepsValid(State(), key, path, loaded, created);
      var known := Handle(key);
      if known.Some? {
        return Ok(known.value);
      }
      var img: Option<RgbaImage>;
      if path.Some? {
        if loaded.Err? {
          return Err(loaded.error);
        }
        img := Some(loaded.value);
      } else {
        img := None;
      }
      if created.Err? {
        return Err(created.error);
      }
      var handle := ResourceHandle(|textures|);
      handles := handles[key := handle];
      images := images + [img];
      textures := textures + [created.value];
      r := Ok(handle);
    }
  }
}
