/** The vertex stage of `vertex_shader.js`: move the subject's vertex by twice the
 *  difference between the target-age and current-age average faces, convert the
 *  result from pixels to clip space with y pointing up, and pass the three texture
 *  coordinates on. */
module VertexShader {
  import opened Glsl

  /** The per-vertex attributes. */
  datatype Attributes = Attributes(
    subjectTexCoord: Vec2, currentAvgTexCoord: Vec2, targetAvgTexCoord: Vec2,
    subjectPosition: Vec2, currentAvgPosition: Vec2, targetAvgPosition: Vec2)

  /** What `main` writes: `gl_Position` and the varyings. */
  datatype Output = Output(position: Vec4, varyings: Varyings)

  /** How far along the current-to-target difference the vertex moves. */
  const Exaggeration: real := 2.0

  /** Line 17: `newPos`. */
  function NewPosition(subject: Vec2, current: Vec2, target: Vec2): Vec2
  {
    Add2(subject, Scale2(Exaggeration, Sub2(target, current)))
  }

  /** Line 17: the vertex stays where it is exactly when the two average faces agree
   *  at this vertex. */
  lemma NoDisplacementIff(subject: Vec2, current: Vec2, target: Vec2)
    ensures NewPosition(subject, current, target) == subject <==> target == current
  {
    if NewPosition(subject, current, target) == subject {
      assert 2.0 * (target.x - current.x) == 0.0;
      assert 2.0 * (target.y - current.y) == 0.0;
    }
  }

  /** Line 17: moving all three faces by the same offset moves the vertex by it. */
  lemma NewPositionFollowsTranslation(subject: Vec2, current: Vec2, target: Vec2, d: Vec2)
    ensures NewPosition(Add2(subject, d), Add2(current, d), Add2(target, d))
         == Add2(NewPosition(subject, current, target), d)
  {
  }

  /** Lines 18-21: pixel coordinates over the resolution, doubled, shifted by -1,
   *  and y negated. The resolution's components must not be zero. */
  function PixelToClip(pos: Vec2, resolution: Vec2): Vec2
    requires resolution.x != 0.0 && resolution.y != 0.0
  {
    var zeroToOne := Vec2(pos.x / resolution.x, pos.y / resolution.y);
    var zeroToTwo := Vec2(zeroToOne.x * 2.0, zeroToOne.y * 2.0);
    var clipSpace := Vec2(zeroToTwo.x - 1.0, zeroToTwo.y - 1.0);
    Vec2(clipSpace.x * 1.0, clipSpace.y * -1.0)
  }

  /** The inverse map, from clip space back to pixels. */
  function ClipToPixel(clip: Vec2, resolution: Vec2): Vec2
  {
    Vec2((clip.x + 1.0) / 2.0 * resolution.x, (1.0 - clip.y) / 2.0 * resolution.y)
  }

  /** The top-left pixel (0, 0) goes to clip (-1, 1) and the pixel at the
   *  resolution to clip (1, -1). */
  lemma ClipCorners(resolution: Vec2)
    requires resolution.x != 0.0 && resolution.y != 0.0
    ensures PixelToClip(Vec2(0.0, 0.0), resolution) == Vec2(-1.0, 1.0)
    ensures PixelToClip(resolution, resolution) == Vec2(1.0, -1.0)
  {
    assert resolution.x / resolution.x == 1.0 && resolution.y / resolution.y == 1.0;
  }

  /** With a positive resolution, clip x grows with pixel x and clip y falls as pixel
   *  y grows. */
  lemma ClipOrder(p: Vec2, q: Vec2, resolution: Vec2)
    requires resolution.x > 0.0 && resolution.y > 0.0
    ensures p.x < q.x ==> PixelToClip(p, resolution).x < PixelToClip(q, resolution).x
    ensures p.y < q.y ==> PixelToClip(p, resolution).y > PixelToClip(q, resolution).y
  {
    if p.x < q.x {
      DivisionKeepsOrder(p.x, q.x, resolution.x);
    }
    if p.y < q.y {
      DivisionKeepsOrder(p.y, q.y, resolution.y);
    }
  }

  lemma DivisionKeepsOrder(a: real, b: real, r: real)
    requires r > 0.0 && a < b
    ensures a / r < b / r
  {
  }

  /** The conversion loses nothing: back from clip space is the pixel again, ... */
  lemma PixelClipRoundTrip(pos: Vec2, resolution: Vec2)
    requires resolution.x != 0.0 && resolution.y != 0.0
    ensures ClipToPixel(PixelToClip(pos, resolution), resolution) == pos
  {
    AxisRoundTrip(pos.x, resolution.x);
    AxisRoundTrip(pos.y, resolution.y);
  }

  /** ... and every clip-space point is reached from some pixel. */
  lemma ClipPixelRoundTrip(clip: Vec2, resolution: Vec2)
    requires resolution.x != 0.0 && resolution.y != 0.0
    ensures PixelToClip(ClipToPixel(clip, resolution), resolution) == clip
  {
    AxisBack(clip.x + 1.0, resolution.x);
    AxisBack(1.0 - clip.y, resolution.y);
  }

  lemma AxisRoundTrip(p: real, r: real)
    requires r != 0.0
    ensures (p / r * 2.0 - 1.0 + 1.0) / 2.0 * r == p
    ensures (1.0 - (p / r * 2.0 - 1.0) * -1.0) / 2.0 * r == p
  {
    assert p / r * r == p;
  }

  lemma AxisBack(u: real, r: real)
    requires r != 0.0
    ensures u / 2.0 * r / r * 2.0 == u
  {
    assert u / 2.0 * r / r == u / 2.0;
  }

  /** Lines 16-26: `main`. The vertex lands at the clip-space image of the displaced
   *  position, in the z = 0 plane with w = 1, and the three texture coordinates pass
   *  through unchanged. */
  function Main(a: Attributes, resolution: Vec2): Output
    requires resolution.x != 0.0 && resolution.y != 0.0
  {
    var newPos := NewPosition(a.subjectPosition, a.currentAvgPosition, a.targetAvgPosition);
    var clip := PixelToClip(newPos, resolution);
    Output(Vec4(clip.x, clip.y, 0.0, 1.0),
           Varyings(a.subjectTexCoord, a.currentAvgTexCoord, a.targetAvgTexCoord))
  }

  /** When the two average faces agree at a vertex, `main` puts it where the subject
   *  has it: back in pixels, its position is the subject position. */
  lemma MainWithoutAgeingKeepsSubject(a: Attributes, resolution: Vec2)
    requires resolution.x != 0.0 && resolution.y != 0.0
    requires a.currentAvgPosition == a.targetAvgPosition
    ensures var p := Main(a, resolution).position;
            && p.z == 0.0 && p.w == 1.0
            && ClipToPixel(Vec2(p.x, p.y), resolution) == a.subjectPosition
  {
    NoDisplacementIff(a.subjectPosition, a.currentAvgPosition, a.targetAvgPosition);
    PixelClipRoundTrip(a.subjectPosition, resolution);
  }

  /** Lines 21-25: every vertex lies in the z = 0 plane with w = 1, and the texture
   *  coordinates are never changed by the vertex stage. */
  lemma MainPassesThrough(a: Attributes, resolution: Vec2)
    requires resolution.x != 0.0 && resolution.y != 0.0
    ensures Main(a, resolution).position.z == 0.0 && Main(a, resolution).position.w == 1.0
    ensures Main(a, resolution).varyings.subjectTexCoord == a.subjectTexCoord
    ensures Main(a, resolution).varyings.currentAvgTexCoord == a.currentAvgTexCoord
    ensures Main(a, resolution).varyings.targetAvgTexCoord == a.targetAvgTexCoord
  {
  }
}
