/** The GLSL vector types the two shaders use, with reals for their float
 *  components, and the varyings the vertex stage hands to the fragment stage. */
module Glsl {
  datatype Vec2 = Vec2(x: real, y: real)
  datatype Vec4 = Vec4(x: real, y: real, z: real, w: real)

  function Add2(u: Vec2, v: Vec2): Vec2 { Vec2(u.x + v.x, u.y + v.y) }
  function Sub2(u: Vec2, v: Vec2): Vec2 { Vec2(u.x - v.x, u.y - v.y) }
  function Scale2(k: real, v: Vec2): Vec2 { Vec2(k * v.x, k * v.y) }

  function Add4(u: Vec4, v: Vec4): Vec4 { Vec4(u.x + v.x, u.y + v.y, u.z + v.z, u.w + v.w) }
  function Sub4(u: Vec4, v: Vec4): Vec4 { Vec4(u.x - v.x, u.y - v.y, u.z - v.z, u.w - v.w) }
  function Scale4(k: real, v: Vec4): Vec4 { Vec4(k * v.x, k * v.y, k * v.z, k * v.w) }

  /** The three texture coordinates interpolated from the vertex to the fragment
   *  stage. */
  datatype Varyings = Varyings(subjectTexCoord: Vec2, currentAvgTexCoord: Vec2, targetAvgTexCoord: Vec2)
}
