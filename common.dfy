/**
 * Value types shared by several components: the `glam` vectors and
 * quaternion (over reals), `Transform`, `ResourceHandle`, the game's
 * `MovementData`, and the opaque handles that stand for Vulkan objects.
 */
module Common {

  /** The largest `usize` on the 64-bit targets the engine is built for. */
  const USIZE_MAX: nat := 0xFFFF_FFFF_FFFF_FFFF

  datatype Vec2 = Vec2(x: real, y: real)
  datatype Vec3 = Vec3(x: real, y: real, z: real)
  datatype Quat = Quat(x: real, y: real, z: real, w: real)

  const VEC2_ZERO: Vec2 := Vec2(0.0, 0.0)
  const VEC3_ZERO: Vec3 := Vec3(0.0, 0.0, 0.0)
  const VEC3_ONE: Vec3 := Vec3(1.0, 1.0, 1.0)
  const QUAT_IDENTITY: Quat := Quat(0.0, 0.0, 0.0, 1.0)

  datatype Transform = Transform(translation: Vec3, rotation: Quat, scale: Vec3)

  /** `Transform::identity`, which is also its `Default`. */
  const TRANSFORM_IDENTITY: Transform := Transform(VEC3_ZERO, QUAT_IDENTITY, VEC3_ONE)

  /** An index into one of the resource vectors. */
  datatype ResourceHandle = ResourceHandle(idx: nat)

  /** `ResourceHandle::INVALID`. */
  const INVALID_HANDLE: ResourceHandle := ResourceHandle(USIZE_MAX)

  /** The game's per-entity movement settings; the default velocity is zero. */
  datatype MovementData = MovementData(velocity: Vec2)

  /**
   * A Vulkan object (layout, descriptor set, pool, pipeline, image, ...):
   * the model only passes these around, so each is an opaque number.
   */
  datatype Handle = Handle(raw: nat)
}
