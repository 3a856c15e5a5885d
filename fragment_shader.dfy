/** The fragment stage of `fragment_shader.js`: sample the subject photograph and the
 *  two average-face textures at their own coordinates, and add three quarters of
 *  the target-minus-current colour difference to the subject's colour. */
module FragmentShader {
  import opened Glsl

  /** A bound texture, as the colour it yields at each texture coordinate. */
  type Sampler = Vec2 -> Vec4

  /** How much of the average faces' colour difference is added. */
  const Blending: real := 0.75

  /** Lines 13-15: `texture2D`, a lookup of the texture at the coordinate. */
  function Texture2D(image: Sampler, coord: Vec2): Vec4
  {
    image(coord)
  }

  /** Line 16: the written colour, alpha included. */
  function Blend(subject: Vec4, current: Vec4, target: Vec4): Vec4
  {
    Add4(subject, Scale4(Blending, Sub4(target, current)))
  }

  /** Line 16: the subject's colour is left alone exactly when the two averages have
   *  the same colour there. */
  lemma BlendIdentityIff(subject: Vec4, current: Vec4, target: Vec4)
    ensures Blend(subject, current, target) == subject <==> target == current
  {
    if Blend(subject, current, target) == subject {
      assert 0.75 * (target.x - current.x) == 0.0;
      assert 0.75 * (target.y - current.y) == 0.0;
      assert 0.75 * (target.z - current.z) == 0.0;
      assert 0.75 * (target.w - current.w) == 0.0;
    }
  }

  /** Line 16: brightening every average-face channel by the same amount shifts
   *  nothing, and the change in output is three quarters of the change in the
   *  difference. */
  lemma BlendFollowsDifference(subject: Vec4, current: Vec4, target: Vec4, d: Vec4)
    ensures Blend(subject, Add4(current, d), Add4(target, d)) == Blend(subject, current, target)
    ensures Blend(subject, current, Add4(target, d)) == Add4(Blend(subject, current, target), Scale4(Blending, d))
  {
  }

  /** Line 16: nothing clamps the sum, so a full subject channel with a full target
   *  and an empty current average gives 1.75, outside the [0, 1] colour range. */
  lemma BlendIsNotClamped()
    ensures Blend(Vec4(1.0, 1.0, 1.0, 1.0), Vec4(0.0, 0.0, 0.0, 0.0), Vec4(1.0, 1.0, 1.0, 1.0))
         == Vec4(1.75, 1.75, 1.75, 1.75)
  {
    ChannelNotClamped(1.0, 0.0, 1.0);
  }

  /** One channel of line 16 with a full subject and target and an empty current
   *  average. */
  lemma ChannelNotClamped(subject: real, current: real, target: real)
    requires subject == 1.0 && current == 0.0 && target == 1.0
    ensures subject + Blending * (target - current) == 1.75
  {
  }

  /** Lines 12-17: `main`. */
  function Main(subjectImage: Sampler, currentAvgImage: Sampler, targetAvgImage: Sampler, v: Varyings): Vec4
  {
    var subjectColor := Texture2D(subjectImage, v.subjectTexCoord);
    var currentAvgColor := Texture2D(currentAvgImage, v.currentAvgTexCoord);
    var targetAvgColor := Texture2D(targetAvgImage, v.targetAvgTexCoord);
    Blend(subjectColor, currentAvgColor, targetAvgColor)
  }

  /** Lines 12-17: each texture is read only at its own coordinate, so textures that
   *  agree there give the same fragment colour, whatever they hold elsewhere. */
  lemma MainReadsOwnCoordinates(s: Sampler, c: Sampler, t: Sampler, s': Sampler, c': Sampler, t': Sampler, v: Varyings)
    requires s(v.subjectTexCoord) == s'(v.subjectTexCoord)
    requires c(v.currentAvgTexCoord) == c'(v.currentAvgTexCoord)
    requires t(v.targetAvgTexCoord) == t'(v.targetAvgTexCoord)
    ensures Main(s, c, t, v) == Main(s', c', t', v)
  {
  }

  /** Lines 12-17: where the two averages sampled at their coordinates agree, the
   *  fragment shows the subject photograph unchanged. */
  lemma MainWithoutAgeingShowsSubject(s: Sampler, c: Sampler, t: Sampler, v: Varyings)
    requires c(v.currentAvgTexCoord) == t(v.targetAvgTexCoord)
    ensures Main(s, c, t, v) == s(v.subjectTexCoord)
  {
    BlendIdentityIff(s(v.subjectTexCoord), c(v.currentAvgTexCoord), t(v.targetAvgTexCoord));
  }
}
