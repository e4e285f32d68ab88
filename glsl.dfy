/**
 * The GLSL basic types the shader configuration may name (the scalar,
 * vector, matrix and sampler types of section 4.1 of the OpenGL Shading
 * Language specification), with their keyword table.
 */
module Glsl {
  import opened Wrappers
  import opened HellErrors

  datatype GlslType =
    | Bool | Int | UInt | Float
    | BVec2 | BVec3 | BVec4
    | IVec2 | IVec3 | IVec4
    | UVec2 | UVec3 | UVec4
    | Vec2 | Vec3 | Vec4
    | DVec2 | DVec3 | DVec4
    | Mat2 | Mat3 | Mat4
    | DMat2 | DMat3 | DMat4
    | Sampler2d | Sampler2dArray

  const PARSE_ERROR: string := "failed to parse glsl-type"

  /** `is_sampler`: exactly the two sampler types, whose keywords start with "sampler". */
  predicate IsSampler(t: GlslType): (b: bool)
    ensures b <==> "sampler" <= ToStr(t)
  {
    t == Sampler2d || t == Sampler2dArray
  }

  /**
   * `GlslType::to_str`: the type's keyword, a lower-case-led word; exactly
   * the sampler types have keywords starting with "sampler".
   */
  function ToStr(t: GlslType): (r: string)
    ensures 3 <= |r| && 'a' <= r[0] <= 'z'
    ensures "sampler" <= r <==> t == Sampler2d || t == Sampler2dArray
  {
    match t
    case Bool => "bool"
    case Int => "int"
    case UInt => "uint"
    case Float => "float"
    case BVec2 => "bvec2"
    case BVec3 => "bvec3"
    case BVec4 => "bvec4"
    case IVec2 => "ivec2"
    case IVec3 => "ivec3"
    case IVec4 => "ivec4"
    case UVec2 => "uvec2"
    case UVec3 => "uvec3"
    case UVec4 => "uvec4"
    case Vec2 => "vec2"
    case Vec3 => "vec3"
    case Vec4 => "vec4"
    case DVec2 => "dvec2"
    case DVec3 => "dvec3"
    case DVec4 => "dvec4"
    case Mat2 => "mat2"
    case Mat3 => "mat3"
    case Mat4 => "mat4"
    case DMat2 => "dmat2"
    case DMat3 => "dmat3"
    case DMat4 => "dmat4"
    case Sampler2d => "sampler2D"
    case Sampler2dArray => "sampler2DArray"
  }

  /**
   * `GlslType::from_str`: exact, case-sensitive keyword match; anything else
   * is a render error.
   */
  function FromStr(s: string): (r: HellResult<GlslType>)
    ensures r.Ok? ==> ToStr(r.value) == s
    ensures r.Err? ==> r.error == RenderMsgErr(PARSE_ERROR)
  {
    match s
    case "bool" => Ok(Bool)
    case "int" => Ok(Int)
    case "uint" => Ok(UInt)
    case "float" => Ok(Float)
    case "bvec2" => Ok(BVec2)
    case "bvec3" => Ok(BVec3)
    case "bvec4" => Ok(BVec4)
    case "ivec2" => Ok(IVec2)
    case "ivec3" => Ok(IVec3)
    case "ivec4" => Ok(IVec4)
    case "uvec2" => Ok(UVec2)
    case "uvec3" => Ok(UVec3)
    case "uvec4" => Ok(UVec4)
    case "vec2" => Ok(Vec2)
    case "vec3" => Ok(Vec3)
    case "vec4" => Ok(Vec4)
    case "dvec2" => Ok(DVec2)
    case "dvec3" => Ok(DVec3)
    case "dvec4" => Ok(DVec4)
    case "mat2" => Ok(Mat2)
    case "mat3" => Ok(Mat3)
    case "mat4" => Ok(Mat4)
    case "dmat2" => Ok(DMat2)
    case "dmat3" => Ok(DMat3)
    case "dmat4" => Ok(DMat4)
    case "sampler2D" => Ok(Sampler2d)
    case "sampler2DArray" => Ok(Sampler2dArray)
    case _ => Err(RenderMsgErr(PARSE_ERROR))
  }

  /** `TryFrom<&str>` delegates to `from_str`. */
  function TryFrom(s: string): (r: HellResult<GlslType>)
    ensures r == FromStr(s)
    ensures r.Ok? <==> exists t :: ToStr(t) == s
    ensures r.Ok? ==> ToStr(r.value) == s
    ensures r.Err? ==> r.error == RenderMsgErr(PARSE_ERROR)
  {
    FromStrAcceptsExactlyKeywords(s);
    FromStr(s)
  }

  /** `Display` prints the keyword. */
  function Display(t: GlslType): (s: string)
    ensures s == ToStr(t)
    ensures FromStr(s) == Ok(t)
  {
    FromStrToStr(t);
    ToStr(t)
  }

  /** Parsing a type's keyword gives the type back. */
  lemma FromStrToStr(t: GlslType)
    ensures FromStr(ToStr(t)) == Ok(t)
  {
  }

  /** `from_str` accepts exactly the 27 keywords. */
  lemma FromStrAcceptsExactlyKeywords(s: string)
    ensures FromStr(s).Ok? <==> exists t :: ToStr(t) == s
  {
    if t :| ToStr(t) == s {
      FromStrToStr(t);
    }
  }

  /** Distinct types have distinct keywords. */
  lemma ToStrInjective(t: GlslType, u: GlslType)
    requires ToStr(t) == ToStr(u)
    ensures t == u
  {
    FromStrToStr(t);
    FromStrToStr(u);
  }

  /** A keyword parses to a type whose keyword it is, and parsing is case-sensitive. */
  lemma FromStrCaseSensitive()
    ensures FromStr("Vec3").Err? && FromStr("SAMPLER2D").Err? && FromStr("sampler2d").Err?
    ensures FromStr("vec3") == Ok(Vec3) && FromStr("sampler2D") == Ok(Sampler2d)
  {
  }
}
