/** The shader stage of `src/shaders.rs`: the vertex shader (projection,
    perspective division, viewport, normal matrix) and the fragment shader
    dispatch with the layer blends and the threshold shaders it calls.

    `color.rs` is not part of this model, so a `Color` is kept as the
    expression that produced it: an `Rgb` literal, a `lerp` of two colors or
    a color scaled by a factor. Noise samples come from the two functions in
    `Uniforms`, and `sin` from the `Trig` parameter. */
module Shaders {
  import opened Base
  import opened LinAlg

  /** `u8`. */
  type Byte = x: nat | x < 256

  /** `u32`. */
  type U32 = x: nat | x < 0x1_0000_0000

  datatype Color =
    | Rgb(r: Byte, g: Byte, b: Byte)
      /** `from.lerp(&to, t)` */
    | Lerp(from: Color, to: Color, t: real)
      /** `c * k` */
    | Times(c: Color, k: real)

  const Black: Color := Rgb(0, 0, 0)
  const White: Color := Rgb(255, 255, 255)

  datatype Vertex = Vertex(
    position: Vec3,
    normal: Vec3,
    texCoords: Vec2,
    color: Color,
    transformedPosition: Vec3,
    transformedNormal: Vec3)

  /** The fragment fields the shaders read: screen position, depth, the
      lighting intensity and the object-space position it was interpolated
      from. */
  datatype Fragment = Fragment(position: Vec2, depth: real, intensity: real, vertexPosition: Vec3)

  /** `Uniforms`; the `FastNoiseLite` generator is represented by its two
      sampling functions `get_noise_2d` and `get_noise_3d`. */
  datatype Uniforms = Uniforms(
    model: Mat4,
    view: Mat4,
    projection: Mat4,
    viewport: Mat4,
    time: U32,
    noise2: (real, real) -> real,
    noise3: (real, real, real) -> real)

  /** The variants `fragment_shader` names; `planet.rs` is not part of this
      model, and `Unlisted` stands for whatever else the enum declares
      (the `_` arm). */
  datatype PlanetType =
    | Sun | RockyPlanet | Earth | CrystalPlanet | FirePlanet | WaterPlanet
    | CloudPlanet | Moon | Asteroid | Trail | Spaceship | Unlisted

  /** `uniforms.time as f32` (rounding to `f32` is not modelled). */
  function Time(u: Uniforms): real {
    u.time as real
  }

  // ------------------------------------------------------------ vertex stage

  function Scale4(v: Vec4, k: real): Vec4 {
    Vec4(v.x * k, v.y * k, v.z * k, v.w * k)
  }

  /** `projection * view * model * (position, 1)`: the product matrix
      transforms the point exactly as the model, view and projection
      matrices do one after another. */
  function ClipPosition(u: Uniforms, p: Vec3): (r: Vec4)
    ensures r == MulVec4(u.projection, MulVec4(u.view, MulVec4(u.model, Vec4(p.x, p.y, p.z, 1.0))))
  {
    var h := Vec4(p.x, p.y, p.z, 1.0);
    MulVec4Assoc(Mul4(u.projection, u.view), u.model, h);
    MulVec4Assoc(u.projection, u.view, MulVec4(u.model, h));
    MulVec4(Mul4(Mul4(u.projection, u.view), u.model), h)
  }

  /** Perspective division. The source divides by `w` without a guard; on
      `f32` a zero `w` yields infinities or NaN, which reals do not have, so
      a non-zero `w` is required here. The result lies on the `w = 1` plane
      and multiplying back by `w` recovers the clip coordinates. */
  function PerspectiveDivide(c: Vec4): (r: Vec4)
    requires c.w != 0.0
    ensures r.w == 1.0
    ensures Scale4(r, c.w) == c
  {
    Vec4(c.x / c.w, c.y / c.w, c.z / c.w, 1.0)
  }

  /** Homogeneous coordinates: clip vectors that differ by a non-zero
      factor divide to the same point. */
  lemma PerspectiveDivideHomogeneous(c: Vec4, k: real)
    requires c.w != 0.0 && k != 0.0
    ensures PerspectiveDivide(Scale4(c, k)) == PerspectiveDivide(c)
  {
    CancelFactor(c.x, c.w, k);
    CancelFactor(c.y, c.w, k);
    CancelFactor(c.z, c.w, k);
  }

  lemma CancelFactor(a: real, w: real, k: real)
    requires w != 0.0 && k != 0.0
    ensures (a * k) / (w * k) == a / w
  {
    assert (a / w) * (w * k) == a * k;
  }

  /** The normal matrix: the inverse of the transposed upper 3x3 block of
      the model matrix, or the identity when that block is singular. */
  function NormalMatrix(model: Mat4): (r: Mat3)
    ensures Det3(Transpose3(Upper3(model))) != 0.0 ==> Mul3(Transpose3(Upper3(model)), r) == Identity3
    ensures Det3(Transpose3(Upper3(model))) == 0.0 ==> r == Identity3
  {
    match TryInverse3(Transpose3(Upper3(model)))
    case Some(inv) => inv
    case None => Identity3
  }

  /** `vertex_shader`: the four input attributes are carried through
      unchanged; only the screen position (the viewport image of the
      perspective-divided clip position) and the transformed normal are
      computed. */
  function VertexShader(v: Vertex, u: Uniforms): (r: Vertex)
    requires ClipPosition(u, v.position).w != 0.0
    ensures r.position == v.position && r.normal == v.normal
    ensures r.texCoords == v.texCoords && r.color == v.color
    ensures r.transformedNormal == MulVec3(NormalMatrix(u.model), v.normal)
    ensures var s := MulVec4(u.viewport, PerspectiveDivide(ClipPosition(u, v.position)));
            r.transformedPosition == Vec3(s.x, s.y, s.z)
  {
    var screen := MulVec4(u.viewport, PerspectiveDivide(ClipPosition(u, v.position)));
    v.(transformedPosition := Vec3(screen.x, screen.y, screen.z),
       transformedNormal := MulVec3(NormalMatrix(u.model), v.normal))
  }

  /** The computed fields depend only on the position and the normal: two
      vertices that agree there are shaded alike, whatever their texture
      coordinates, colors or previously transformed fields. */
  lemma VertexShaderReadsOnlyGeometry(v: Vertex, w: Vertex, u: Uniforms)
    requires v.position == w.position && v.normal == w.normal
    requires ClipPosition(u, v.position).w != 0.0
    ensures VertexShader(v, u).transformedPosition == VertexShader(w, u).transformedPosition
    ensures VertexShader(v, u).transformedNormal == VertexShader(w, u).transformedNormal
  {
  }

  /** Only the projective class of the clip position matters: uniforms
      whose clip positions for a vertex differ by a non-zero factor (a
      projection matrix scaled by `k`, say) and that share the viewport and
      model matrices give that vertex the same transformed fields. */
  lemma VertexShaderProjective(v: Vertex, u: Uniforms, u': Uniforms, k: real)
    requires k != 0.0 && ClipPosition(u, v.position).w != 0.0
    requires ClipPosition(u', v.position) == Scale4(ClipPosition(u, v.position), k)
    requires u'.viewport == u.viewport && u'.model == u.model
    ensures ClipPosition(u', v.position).w != 0.0
    ensures VertexShader(v, u') == VertexShader(v, u)
  {
    var c := ClipPosition(u, v.position);
    assert c.w * k != 0.0;
    PerspectiveDivideHomogeneous(c, k);
  }

  // ------------------------------------------------------------ fragment stage

  /** `blend_layers`: an even mix of base and overlay. */
  function BlendLayers(base: Color, overlay: Color): (r: Color)
    ensures r.Lerp? && r.from == base && r.to == overlay && r.t == 0.5
  {
    Lerp(base, overlay, 0.5)
  }

  const SkyBlue: Color := Rgb(30, 97, 145)

  /** The noise coordinates `cloud_shader` samples: the object-space
      position zoomed by 100, offset by 100, and drifting along x with time. */
  function CloudSample(f: Fragment, u: Uniforms): (real, real) {
    (f.vertexPosition.x * 100.0 + 100.0 + Time(u) * 0.5, f.vertexPosition.y * 100.0 + 100.0)
  }

  /** `cloud_shader`: white where the noise exceeds 0.5 and sky blue
      elsewhere, scaled by the fragment's intensity. */
  function CloudShader(f: Fragment, u: Uniforms): (r: Color)
    ensures r.Times? && r.k == f.intensity
    ensures r.c == White || r.c == SkyBlue
    ensures r.c == White <==> u.noise2(CloudSample(f, u).0, CloudSample(f, u).1) > 0.5
  {
    var (x, y) := CloudSample(f, u);
    Times(if u.noise2(x, y) > 0.5 then White else SkyBlue, f.intensity)
  }

  /** The clouds drift: two frames later the cloud layer is the one found
      a hundredth of a unit further along x now. */
  lemma CloudDrift(f: Fragment, u: Uniforms)
    requires u.time + 2 < 0x1_0000_0000
    ensures CloudShader(f, u.(time := u.time + 2))
         == CloudShader(f.(vertexPosition := f.vertexPosition.(x := f.vertexPosition.x + 0.01)), u)
  {
    var later := u.(time := u.time + 2);
    var shifted := f.(vertexPosition := f.vertexPosition.(x := f.vertexPosition.x + 0.01));
    assert CloudSample(f, later) == CloudSample(shifted, u);
  }

  const Crater: Color := Rgb(150, 150, 150)
  const MoonGray: Color := Rgb(200, 200, 200)

  /** The tint `moon_shader` blends towards white: `sin(time * 0.1) * 0.1`. */
  function MoonTint(u: Uniforms, t: Trig): real {
    t.sin(Time(u) * 0.1) * 0.1
  }

  /** `moon_shader`: crater gray where the noise at the zoomed position
      exceeds 0.5 and moon gray elsewhere, tinted towards white by the
      time-dependent amount, then scaled by the intensity. */
  function MoonShader(f: Fragment, u: Uniforms, t: Trig): (r: Color)
    ensures r.Times? && r.k == f.intensity
    ensures r.c.Lerp? && r.c.to == White && r.c.t == MoonTint(u, t)
    ensures r.c.from == Crater || r.c.from == MoonGray
    ensures r.c.from == Crater <==> u.noise2(f.vertexPosition.x * 100.0, f.vertexPosition.y * 100.0) > 0.5
  {
    var noise := u.noise2(f.vertexPosition.x * 100.0, f.vertexPosition.y * 100.0);
    var surface := if noise > 0.5 then Crater else MoonGray;
    Times(Lerp(surface, White, MoonTint(u, t)), f.intensity)
  }

  /** A bounded tint: the moon never moves more than a tenth of the way
      towards white (or away from it), provided `sin` stays in `[-1, 1]`. */
  lemma MoonTintBounded(u: Uniforms, t: Trig)
    requires -1.0 <= t.sin(Time(u) * 0.1) <= 1.0
    ensures -0.1 <= MoonTint(u, t) <= 0.1
  {
  }

  /** The moon and cloud layers are object-space textures: they read the
      fragment's object-space x and y and its intensity, never its screen
      position or depth. */
  lemma ObjectSpaceShaders(f: Fragment, g: Fragment, u: Uniforms, t: Trig)
    requires f.vertexPosition.x == g.vertexPosition.x && f.vertexPosition.y == g.vertexPosition.y
    requires f.intensity == g.intensity
    ensures MoonShader(f, u, t) == MoonShader(g, u, t)
    ensures CloudShader(f, u) == CloudShader(g, u)
  {
    assert CloudSample(f, u) == CloudSample(g, u);
  }

  const Land: Color := Rgb(34, 139, 34)
  const Water: Color := Rgb(0, 0, 255)
  const Island: Color := Rgb(0, 255, 0)

  /** `earth_shader`: land or water from one noise sample, an island layer
      (or black) from a second, finer one; the base is mixed half with the
      cloud layer and the result half with the island layer, then scaled by
      the intensity. */
  function EarthShader(f: Fragment, u: Uniforms): (r: Color)
    ensures r.Times? && r.k == f.intensity
    ensures r.c.Lerp? && r.c.t == 0.5 && r.c.from.Lerp? && r.c.from.t == 0.5
    ensures r.c.from.to == CloudShader(f, u)
    ensures r.c.from.from == Land <==> u.noise2(f.vertexPosition.x * 30.0, f.vertexPosition.y * 30.0) > 0.5
    ensures r.c.from.from == Land || r.c.from.from == Water
    ensures r.c.to == Island <==> u.noise2(f.vertexPosition.x * 30.0 * 3.0, f.vertexPosition.y * 30.0 * 3.0) > 0.5
    ensures r.c.to == Island || r.c.to == Black
  {
    var x := f.vertexPosition.x;
    var y := f.vertexPosition.y;
    var base := if u.noise2(x * 30.0, y * 30.0) > 0.5 then Land else Water;
    var island := if u.noise2(x * 30.0 * 3.0, y * 30.0 * 3.0) > 0.5 then Island else Black;
    Times(Lerp(Lerp(base, CloudShader(f, u), 0.5), island, 0.5), f.intensity)
  }

  const SunBright: Color := Rgb(255, 240, 0)
  const SunDark: Color := Rgb(211, 84, 0)

  /** The blend factor of `sun_shader`: the mean of two 3D noise samples at
      the zoomed position, with the depth axis pulsating with time. */
  function SunNoise(f: Fragment, u: Uniforms, t: Trig): real {
    var pulsate := t.sin(Time(u) * 0.01 * 0.2) * 0.5;
    var p := Vec3(f.vertexPosition.x, f.vertexPosition.y, f.depth);
    var n1 := u.noise3(p.x * 1000.0, p.y * 1000.0, (p.z + pulsate) * 1000.0);
    var n2 := u.noise3((p.x + 1000.0) * 1000.0, (p.y + 1000.0) * 1000.0, (p.z + 1000.0 + pulsate) * 1000.0);
    (n1 + n2) * 0.5
  }

  /** Noise samples in `[-1, 1]`, the range `FastNoiseLite` promises. */
  ghost predicate NoiseBounded(u: Uniforms) {
    && (forall x: real, y: real {:trigger u.noise2(x, y)} :: -1.0 <= u.noise2(x, y) <= 1.0)
    && (forall x: real, y: real, z: real {:trigger u.noise3(x, y, z)} :: -1.0 <= u.noise3(x, y, z) <= 1.0)
  }

  /** `sun_shader`: burnt orange blended towards yellow by the averaged
      noise, scaled by the intensity. */
  function SunShader(f: Fragment, u: Uniforms, t: Trig): (r: Color)
    ensures r.Times? && r.k == f.intensity
    ensures r.c.Lerp? && r.c.from == SunDark && r.c.to == SunBright
    ensures r.c.t == SunNoise(f, u, t)
    ensures NoiseBounded(u) ==> -1.0 <= r.c.t <= 1.0
  {
    Times(Lerp(SunDark, SunBright, SunNoise(f, u, t)), f.intensity)
  }

  const CloudPlanetSky: Color := Rgb(135, 206, 235)
  const CloudShadow: Color := Rgb(200, 200, 200)

  /** One optional cloud layer of `cloud_planet_shader`: when the sample
      exceeds the threshold, lerp towards `layer` by how far above the
      threshold it lies, rescaled to the remaining range. A layer keeps the
      base color and stacks at most one more lerp on it. */
  function CloudLayer(acc: Color, layer: Color, noise: real, threshold: real): (r: Color)
    requires threshold < 1.0
    ensures noise <= threshold ==> r == acc
    ensures noise > threshold ==> r.Lerp? && r.from == acc && r.to == layer
    ensures noise > threshold ==> r.t == (noise - threshold) / (1.0 - threshold)
    ensures threshold < noise <= 1.0 ==> r.Lerp? && 0.0 < r.t <= 1.0
    ensures BaseColor(r) == BaseColor(acc) && Depth(acc) <= Depth(r) <= Depth(acc) + 1
  {
    if noise > threshold then
      LayerWeightInRange(noise, threshold);
      Lerp(acc, layer, (noise - threshold) / (1.0 - threshold))
    else acc
  }

  /** The rescaled weight is positive above the threshold and at most one
      for samples in the noise range. */
  lemma LayerWeightInRange(noise: real, threshold: real)
    requires threshold < noise && threshold < 1.0
    ensures 0.0 < (noise - threshold) / (1.0 - threshold)
    ensures noise <= 1.0 ==> (noise - threshold) / (1.0 - threshold) <= 1.0
  {
    var d := 1.0 - threshold;
    assert d > 0.0;
    assert ((noise - threshold) / d) * d == noise - threshold;
  }

  /** `cloud_planet_shader`: sky blue, overlaid in turn by a cloud layer
      (threshold 0.4), a shadow layer (0.6) and a second cloud layer (0.8),
      each from its own noise sample, then scaled by the intensity. */
  function CloudPlanetShader(f: Fragment, u: Uniforms): (r: Color)
    ensures r.Times? && r.k == f.intensity
  {
    var x := f.vertexPosition.x;
    var y := f.vertexPosition.y;
    var t := Time(u) * 0.5;
    var n1 := u.noise2(x * 50.0 + t, y * 50.0 + t);
    var n2 := u.noise2(x * 50.0 * 0.5 + t, y * 50.0 * 0.5);
    var n3 := u.noise2(x * 50.0 * 2.0 + t, y * 50.0 * 2.0);
    var c1 := CloudLayer(CloudPlanetSky, White, n1, 0.4);
    var c2 := CloudLayer(c1, CloudShadow, n2, 0.6);
    var c3 := CloudLayer(c2, White, n3, 0.8);
    Times(c3, f.intensity)
  }

  /** Number of layers a color term stacks on its base color. */
  function Depth(c: Color): nat {
    match c
    case Rgb(_, _, _) => 0
    case Lerp(from, _, _) => Depth(from) + 1
    case Times(inner, _) => Depth(inner)
  }

  /** The base color under all the `lerp` layers. */
  function BaseColor(c: Color): Color {
    match c
    case Rgb(_, _, _) => c
    case Lerp(from, _, _) => BaseColor(from)
    case Times(inner, _) => BaseColor(inner)
  }

  /** Every cloud-planet fragment starts from the planet's sky blue and
      carries at most three layers; with all samples at or below their
      thresholds it is plain sky blue at the fragment's intensity. */
  lemma CloudPlanetLayers(f: Fragment, u: Uniforms)
    ensures BaseColor(CloudPlanetShader(f, u)) == CloudPlanetSky
    ensures Depth(CloudPlanetShader(f, u)) <= 3
  {
  }

  lemma CloudPlanetClearSky(f: Fragment, u: Uniforms)
    requires u.noise2(f.vertexPosition.x * 50.0 + Time(u) * 0.5, f.vertexPosition.y * 50.0 + Time(u) * 0.5) <= 0.4
    requires u.noise2(f.vertexPosition.x * 50.0 * 0.5 + Time(u) * 0.5, f.vertexPosition.y * 50.0 * 0.5) <= 0.6
    requires u.noise2(f.vertexPosition.x * 50.0 * 2.0 + Time(u) * 0.5, f.vertexPosition.y * 50.0 * 2.0) <= 0.8
    ensures CloudPlanetShader(f, u) == Times(CloudPlanetSky, f.intensity)
  {
  }

  /** The intensity of `calculate_trail_effect` for screen row `y` and
      `s = sin(time)`: `|y * s|`. */
  function TrailIntensity(y: real, s: real): (r: real)
    ensures r >= 0.0
    ensures r == 0.0 <==> y == 0.0 || s == 0.0
  {
    Abs(y * s)
  }

  /** `calculate_trail_effect`: red and green follow the intensity (255
      and 100 per unit, each saturating-cast to `u8`), blue is fixed at 200. */
  function TrailEffect(f: Fragment, u: Uniforms, t: Trig): (r: Color)
    ensures r.Rgb? && r.b == 200
    ensures r.r == AsU8(TrailIntensity(f.position.y, t.sin(Time(u))) * 255.0)
    ensures r.g == AsU8(TrailIntensity(f.position.y, t.sin(Time(u))) * 100.0)
  {
    var i := TrailIntensity(f.position.y, t.sin(Time(u)));
    Rgb(AsU8(i * 255.0), AsU8(i * 100.0), 200)
  }

  /** Red never falls below green, the trail saturates to full red from
      intensity 1 on, and a fragment on the `y = 0` row (or a frame where
      `sin(time) = 0`) gets pure blue `(0, 0, 200)`. */
  lemma TrailEffectShape(f: Fragment, u: Uniforms, t: Trig)
    ensures TrailEffect(f, u, t).r >= TrailEffect(f, u, t).g
    ensures TrailIntensity(f.position.y, t.sin(Time(u))) >= 1.0 ==> TrailEffect(f, u, t).r == 255
    ensures f.position.y == 0.0 || t.sin(Time(u)) == 0.0 ==> TrailEffect(f, u, t) == Rgb(0, 0, 200)
  {
    var i := TrailIntensity(f.position.y, t.sin(Time(u)));
    AsU8Monotone(i * 100.0, i * 255.0);
  }

  /** The intensity is even in the row: `|(-y) * s| = |y * s|`. */
  lemma TrailIntensityEven(y: real, s: real)
    ensures TrailIntensity(-y, s) == TrailIntensity(y, s)
  {
    assert (-y) * s == -(y * s);
  }

  /** Mirroring a fragment's screen row about `y = 0` does not change its
      trail color. */
  lemma TrailEffectSymmetric(f: Fragment, u: Uniforms, t: Trig)
    ensures TrailEffect(f.(position := f.position.(y := -f.position.y)), u, t) == TrailEffect(f, u, t)
  {
    TrailIntensityEven(f.position.y, t.sin(Time(u)));
  }

  const TrailBase: Color := Rgb(100, 100, 255)
  const SpaceshipGray: Color := Rgb(192, 192, 192)

  /** `fragment_shader`: one rule per planet type. `others` stands for the
      rocky, crystal, fire, water and asteroid shaders, whose palette
      arithmetic is not modelled; every other arm is modelled here. Earth
      and trail fragments are 50/50 blends; the spaceship is a constant
      gray and any unlisted type is black. */
  function FragmentShader(f: Fragment, u: Uniforms, p: PlanetType, t: Trig,
                          others: (PlanetType, Fragment, Uniforms) -> Color): (r: Color)
    ensures p == Sun ==> r == SunShader(f, u, t)
    ensures p == Earth ==> r == BlendLayers(EarthShader(f, u), CloudShader(f, u))
    ensures p == CloudPlanet ==> r == CloudPlanetShader(f, u)
    ensures p == Moon ==> r == MoonShader(f, u, t)
    ensures p == Trail ==> r == BlendLayers(TrailBase, TrailEffect(f, u, t))
    ensures p == Spaceship ==> r == SpaceshipGray
    ensures p == Unlisted ==> r == Black
    ensures p in {RockyPlanet, CrystalPlanet, FirePlanet, WaterPlanet, Asteroid} ==> r == others(p, f, u)
  {
    match p
    case Sun => SunShader(f, u, t)
    case RockyPlanet => others(p, f, u)
    case Earth => BlendLayers(EarthShader(f, u), CloudShader(f, u))
    case CrystalPlanet => others(p, f, u)
    case FirePlanet => others(p, f, u)
    case WaterPlanet => others(p, f, u)
    case CloudPlanet => CloudPlanetShader(f, u)
    case Moon => MoonShader(f, u, t)
    case Asteroid => others(p, f, u)
    case Trail => BlendLayers(TrailBase, TrailEffect(f, u, t))
    case Spaceship => SpaceshipGray
    case Unlisted => Black
  }

  /** The spaceship and unlisted arms ignore their inputs entirely. */
  lemma FragmentShaderConstantArms(f: Fragment, g: Fragment, u: Uniforms, v: Uniforms, t: Trig, s: Trig,
                                   others: (PlanetType, Fragment, Uniforms) -> Color,
                                   others': (PlanetType, Fragment, Uniforms) -> Color)
    ensures FragmentShader(f, u, Spaceship, t, others) == FragmentShader(g, v, Spaceship, s, others')
    ensures FragmentShader(f, u, Unlisted, t, others) == FragmentShader(g, v, Unlisted, s, others')
  {
  }

  /** Earth fragments carry the cloud layer twice: once inside
      `earth_shader` and once more from the blend in the dispatch, so an
      Earth fragment is a clouds-over-(clouds-over-surface) stack. */
  lemma EarthCloudsTwice(f: Fragment, u: Uniforms, t: Trig, others: (PlanetType, Fragment, Uniforms) -> Color)
    ensures FragmentShader(f, u, Earth, t, others).to == CloudShader(f, u)
    ensures FragmentShader(f, u, Earth, t, others).from.c.from.to == CloudShader(f, u)
    ensures Depth(FragmentShader(f, u, Earth, t, others)) == 3
  {
    var e := EarthShader(f, u);
    assert Depth(e.c.from) == 1;
    assert Depth(e) == 2;
  }
}
