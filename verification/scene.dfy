/** The scene logic of `main`'s frame loop in `src/main.rs`: the orbital
    update of the celestial bodies, the 100-entry trail history of each body,
    the trail drawing, and the orbit rings of `render_orbit`.

    A frame's window, input, skybox and rendering calls are not modelled;
    what is kept is the state the loop carries from frame to frame (body
    positions, orbit angles, trail histories, the moon's angle, and the
    Earth position captured before the loop) and the line segments it asks
    the framebuffer to draw. */
module Scene {
  import opened Base
  import opened LinAlg
  import opened Shaders

  datatype Body = Body(position: Vec3, scale: real, rotation: Vec3, kind: PlanetType)

  /** What the frame loop carries between frames. */
  datatype World = World(
    bodies: seq<Body>,
    angles: seq<real>,
    histories: seq<seq<Vec3>>,
    moonAngle: real,
    earthStart: Vec3)

  /** `planet_orbit_radii`, indexed by body position in the list. */
  const OrbitRadii: seq<real> := [8.0, 12.0, 16.0, 20.0, 24.0, 28.0, 32.0, 36.0, 6.0]
  const BaseOrbitSpeed: real := 0.01
  const MoonOrbitRadius: real := 0.5
  const MoonStep: real := 0.05
  const TrailCapacity: nat := 100

  /** The per-body vectors have one entry per body, and every body the
      update moves (every non-sun body) has an orbit radius; a moving body
      past the end of `planet_orbit_radii` would make the indexing panic. */
  predicate WellFormed(w: World) {
    && |w.angles| == |w.bodies|
    && |w.histories| == |w.bodies|
    && (forall i :: 0 <= i < |w.bodies| && w.bodies[i].kind != Sun ==> i < |OrbitRadii|)
  }

  // ------------------------------------------------------------ initial state

  function InitialBodies(): seq<Body> {
    [ Body(Vec3(0.0, 0.0, 0.0), 2.0, Zero3, Sun),
      Body(Vec3(-4.0, 0.0, 0.0), 0.3, Zero3, Asteroid),
      Body(Vec3(6.0, 0.0, 0.0), 0.4, Zero3, RockyPlanet),
      Body(Vec3(12.0, 0.0, 0.0), 0.6, Zero3, Earth),
      Body(Vec3(18.0, 0.0, 0.0), 0.5, Zero3, CrystalPlanet),
      Body(Vec3(24.0, 0.0, 0.0), 0.7, Zero3, FirePlanet),
      Body(Vec3(30.0, 0.0, 0.0), 1.0, Zero3, WaterPlanet),
      Body(Vec3(36.0, 0.0, 0.0), 0.8, Zero3, CloudPlanet),
      Body(Vec3(12.0, 0.0, 2.0), 0.2, Zero3, Moon) ]
  }

  /** The position of the first Earth in the list, or the origin when there
      is none (`find(...).map(...).unwrap_or(0)`). */
  function FindEarth(bodies: seq<Body>): (r: Vec3)
    ensures (forall i :: 0 <= i < |bodies| ==> bodies[i].kind != Earth) ==> r == Zero3
  {
    FindEarthFrom(bodies, 0)
  }

  /** The scan behind `FindEarth`, from index `from` on. */
  function FindEarthFrom(bodies: seq<Body>, from: nat): (r: Vec3)
    requires from <= |bodies|
    ensures (forall i :: from <= i < |bodies| ==> bodies[i].kind != Earth) ==> r == Zero3
    decreases |bodies| - from
  {
    if from == |bodies| then Zero3
    else if bodies[from].kind == Earth then bodies[from].position
    else FindEarthFrom(bodies, from + 1)
  }

  /** `find` stops at the first Earth. */
  lemma FindEarthFirst(bodies: seq<Body>, i: nat)
    requires i < |bodies| && bodies[i].kind == Earth
    requires forall j :: 0 <= j < i ==> bodies[j].kind != Earth
    ensures FindEarth(bodies) == bodies[i].position
  {
    FindEarthFromFirst(bodies, 0, i);
  }

  lemma {:induction false} FindEarthFromFirst(bodies: seq<Body>, from: nat, i: nat)
    requires from <= i < |bodies| && bodies[i].kind == Earth
    requires forall j :: from <= j < i ==> bodies[j].kind != Earth
    ensures FindEarthFrom(bodies, from) == bodies[i].position
    decreases i - from
  {
    if from < i {
      FindEarthFromFirst(bodies, from + 1, i);
    }
  }

  /** The state before the first frame: the nine bodies, every angle zero,
      every history empty, and the Earth position captured. */
  function InitialWorld(): (w: World)
    ensures WellFormed(w)
    ensures |w.bodies| == 9 && w.bodies[0].kind == Sun && w.bodies[3].kind == Earth && w.bodies[8].kind == Moon
    ensures w.earthStart == Vec3(12.0, 0.0, 0.0)
    ensures w.moonAngle == 0.0 && forall i :: 0 <= i < 9 ==> w.angles[i] == 0.0 && w.histories[i] == []
  {
    var bodies := InitialBodies();
    FindEarthFirst(bodies, 3);
    World(bodies, seq(9, _ => 0.0), seq(9, _ => []), 0.0, FindEarth(bodies))
  }

  // ------------------------------------------------------------ trail history

  /** `previous_positions[i].push(p)` followed by `remove(0)` when the
      history has grown past 100 entries. */
  function PushTrail(h: seq<Vec3>, p: Vec3): (r: seq<Vec3>)
    ensures |r| > 0 && r[|r| - 1] == p
    ensures |h| < TrailCapacity ==> r == h + [p]
    ensures |h| >= TrailCapacity ==> |r| == |h| && r[..|r| - 1] == h[1..]
    ensures |h| <= TrailCapacity ==> |r| <= TrailCapacity
  {
    var pushed := h + [p];
    if |pushed| > TrailCapacity then
      assert pushed[1..][..|h| - 1] == h[1..];
      pushed[1..]
    else pushed
  }

  /** The last (at most) 100 entries of a sequence. */
  function Window(s: seq<Vec3>): (r: seq<Vec3>)
    ensures |r| <= TrailCapacity
  {
    if |s| <= TrailCapacity then s else s[|s| - TrailCapacity..]
  }

  /** Pushing onto a window gives the window of the extended sequence. */
  lemma PushWindow(s: seq<Vec3>, p: Vec3)
    ensures PushTrail(Window(s), p) == Window(s + [p])
  {
    if |s| > TrailCapacity {
      assert Window(s)[1..] + [p] == (s + [p])[|s + [p]| - TrailCapacity..];
    } else if |s| == TrailCapacity {
      assert (s + [p])[1..] == (s + [p])[|s + [p]| - TrailCapacity..];
    }
  }

  /** Pushing a run of positions, oldest first. */
  function PushAll(h: seq<Vec3>, ps: seq<Vec3>): seq<Vec3>
    decreases |ps|
  {
    if ps == [] then h else PushTrail(PushAll(h, ps[..|ps| - 1]), ps[|ps| - 1])
  }

  /** The trail history is a FIFO window: starting from any history of at
      most 100 entries, after any run of pushes it holds exactly the last
      100 (or fewer) positions of the history followed by the run, oldest
      first. */
  lemma {:induction false} TrailWindow(h: seq<Vec3>, ps: seq<Vec3>)
    requires |h| <= TrailCapacity
    ensures PushAll(h, ps) == Window(h + ps)
    decreases |ps|
  {
    if ps != [] {
      var init := ps[..|ps| - 1];
      var last := ps[|ps| - 1];
      TrailWindow(h, init);
      PushWindow(h + init, last);
      assert h + init + [last] == h + ps;
    }
  }

  // ------------------------------------------------------------ orbital update

  /** The position `(r cos a, y, r sin a)` of a body on its orbit; the
      height is kept. */
  function OrbitPosition(p: Vec3, radius: real, angle: real, t: Trig): Vec3 {
    p.(x := radius * t.cos(angle), z := radius * t.sin(angle))
  }

  /** The moon's position: half a unit from `anchor` at the moon's angle. */
  function MoonPosition(anchor: Vec3, moonAngle: real, t: Trig): Vec3 {
    Add(anchor, CirclePoint(MoonOrbitRadius, moonAngle, t))
  }

  /** The bodies after the orbital step, before the moon is placed: every
      non-sun body moves to its orbit position for the current angle. */
  function Orbited(w: World, t: Trig): (r: seq<Body>)
    requires WellFormed(w)
    ensures |r| == |w.bodies|
    ensures forall i :: 0 <= i < |w.bodies| && w.bodies[i].kind == Sun ==> r[i] == w.bodies[i]
    ensures forall i :: 0 <= i < |w.bodies| && w.bodies[i].kind != Sun ==>
              r[i] == w.bodies[i].(position := OrbitPosition(w.bodies[i].position, OrbitRadii[i], w.angles[i], t))
  {
    seq(|w.bodies|, i requires 0 <= i < |w.bodies| =>
      var b := w.bodies[i];
      if b.kind == Sun then b else b.(position := OrbitPosition(b.position, OrbitRadii[i], w.angles[i], t)))
  }

  /** The bodies after one pass: every non-sun body on its orbit, then the
      moon placed around `anchor`. */
  function MovedBodies(w: World, anchor: Vec3, t: Trig): (r: seq<Body>)
    requires WellFormed(w)
    ensures |r| == |w.bodies|
    ensures forall i :: 0 <= i < |w.bodies| ==> r[i].kind == w.bodies[i].kind
    // only the position is written: scale and rotation are kept
    ensures forall i :: 0 <= i < |w.bodies| ==> r[i] == w.bodies[i].(position := r[i].position)
    ensures forall i :: 0 <= i < |w.bodies| && w.bodies[i].kind == Sun ==> r[i] == w.bodies[i]
    ensures forall i :: 0 <= i < |w.bodies| && w.bodies[i].kind == Moon ==>
              r[i].position == MoonPosition(anchor, w.moonAngle, t)
    ensures forall i :: 0 <= i < |w.bodies| && w.bodies[i].kind !in {Sun, Moon} ==>
              r[i].position == OrbitPosition(w.bodies[i].position, OrbitRadii[i], w.angles[i], t)
  {
    var moved := Orbited(w, t);
    seq(|moved|, i requires 0 <= i < |moved| =>
      if moved[i].kind == Moon then moved[i].(position := MoonPosition(anchor, w.moonAngle, t)) else moved[i])
  }

  /** The angles after one pass: the sun's is kept, every other grows by
      `0.01 / radius`. */
  function AdvancedAngles(w: World): (r: seq<real>)
    requires WellFormed(w)
    ensures |r| == |w.bodies|
    ensures forall i :: 0 <= i < |w.bodies| && w.bodies[i].kind == Sun ==> r[i] == w.angles[i]
    ensures forall i :: 0 <= i < |w.bodies| && w.bodies[i].kind != Sun ==>
              r[i] == w.angles[i] + BaseOrbitSpeed / OrbitRadii[i] && r[i] > w.angles[i]
  {
    seq(|w.bodies|, i requires 0 <= i < |w.bodies| =>
      if w.bodies[i].kind == Sun then w.angles[i] else w.angles[i] + BaseOrbitSpeed / OrbitRadii[i])
  }

  /** The histories after one pass: the sun's is kept, every other has the
      body's old position pushed. */
  function PushedHistories(w: World): (r: seq<seq<Vec3>>)
    requires WellFormed(w)
    ensures |r| == |w.bodies|
    ensures forall i :: 0 <= i < |w.bodies| && w.bodies[i].kind == Sun ==> r[i] == w.histories[i]
    ensures forall i :: 0 <= i < |w.bodies| && w.bodies[i].kind != Sun ==>
              r[i] == PushTrail(w.histories[i], w.bodies[i].position)
  {
    seq(|w.bodies|, i requires 0 <= i < |w.bodies| =>
      if w.bodies[i].kind == Sun then w.histories[i] else PushTrail(w.histories[i], w.bodies[i].position))
  }

  /** One pass of the update loop with the moon placed around `anchor`:
      the sun is skipped; every other body pushes its old position onto
      its history (trimmed to 100), moves to its orbit position and advances
      its angle by `0.01 / radius`; the moon is then placed around the
      anchor; finally the moon's angle advances by 0.05. */
  function Advance(w: World, anchor: Vec3, t: Trig): (r: World)
    requires WellFormed(w)
    ensures WellFormed(r) && |r.bodies| == |w.bodies|
    ensures r.earthStart == w.earthStart && r.moonAngle == w.moonAngle + MoonStep
    ensures forall i :: 0 <= i < |w.bodies| ==> r.bodies[i].kind == w.bodies[i].kind
    ensures forall i :: 0 <= i < |w.bodies| ==> r.bodies[i] == w.bodies[i].(position := r.bodies[i].position)
    ensures forall i :: 0 <= i < |w.bodies| && w.bodies[i].kind == Sun ==>
              r.bodies[i] == w.bodies[i] && r.angles[i] == w.angles[i] && r.histories[i] == w.histories[i]
    ensures forall i :: 0 <= i < |w.bodies| && w.bodies[i].kind != Sun ==>
              r.histories[i] == PushTrail(w.histories[i], w.bodies[i].position)
              && r.angles[i] == w.angles[i] + BaseOrbitSpeed / OrbitRadii[i] && r.angles[i] > w.angles[i]
    ensures forall i :: 0 <= i < |w.bodies| && w.bodies[i].kind == Moon ==>
              r.bodies[i].position == MoonPosition(anchor, w.moonAngle, t)
    ensures forall i :: 0 <= i < |w.bodies| && w.bodies[i].kind !in {Sun, Moon} ==>
              r.bodies[i].position == OrbitPosition(w.bodies[i].position, OrbitRadii[i], w.angles[i], t)
  {
    World(MovedBodies(w, anchor, t), AdvancedAngles(w), PushedHistories(w), w.moonAngle + MoonStep, w.earthStart)
  }

  /** One frame's update as written: the moon circles the Earth position
      captured before the loop started. */
  function UpdateAsWritten(w: World, t: Trig): (r: World)
    requires WellFormed(w)
    ensures WellFormed(r) && |r.bodies| == |w.bodies|
    ensures forall i :: 0 <= i < |w.bodies| ==> r.bodies[i].kind == w.bodies[i].kind
  {
    Advance(w, w.earthStart, t)
  }

  /** Where the first Earth from index `from` on stands after this frame's
      orbital step, or the origin when there is none: the value
      `find` returns when run after the orbital step. */
  function EarthAfterOrbit(w: World, t: Trig, from: nat): (r: Vec3)
    requires WellFormed(w) && from <= |w.bodies|
    decreases |w.bodies| - from
  {
    if from == |w.bodies| then Zero3
    else if w.bodies[from].kind == Earth then OrbitPosition(w.bodies[from].position, OrbitRadii[from], w.angles[from], t)
    else EarthAfterOrbit(w, t, from + 1)
  }

  /** The scan stops at the first Earth at or after `from`. */
  lemma {:induction false} EarthAfterOrbitFirst(w: World, t: Trig, from: nat, e: nat)
    requires WellFormed(w) && from <= e < |w.bodies| && w.bodies[e].kind == Earth
    requires forall j :: from <= j < e ==> w.bodies[j].kind != Earth
    ensures EarthAfterOrbit(w, t, from) == OrbitPosition(w.bodies[e].position, OrbitRadii[e], w.angles[e], t)
    decreases e - from
  {
    if from < e {
      EarthAfterOrbitFirst(w, t, from + 1, e);
    }
  }

  /** With no Earth at or after `from` the scan falls back to the origin,
      as `unwrap_or` does. */
  lemma {:induction false} EarthAfterOrbitNone(w: World, t: Trig, from: nat)
    requires WellFormed(w) && from <= |w.bodies|
    requires forall j :: from <= j < |w.bodies| ==> w.bodies[j].kind != Earth
    ensures EarthAfterOrbit(w, t, from) == Zero3
    decreases |w.bodies| - from
  {
    if from < |w.bodies| {
      EarthAfterOrbitNone(w, t, from + 1);
    }
  }

  /** The anchor is what `find` returns when run over the bodies after
      the orbital step. */
  lemma {:induction false} EarthAfterOrbitIsFind(w: World, t: Trig, from: nat)
    requires WellFormed(w) && from <= |w.bodies|
    ensures EarthAfterOrbit(w, t, from) == FindEarthFrom(Orbited(w, t), from)
    decreases |w.bodies| - from
  {
    if from < |w.bodies| {
      EarthAfterOrbitIsFind(w, t, from + 1);
    }
  }

  /** One frame's update with the moon circling the Earth's current
      position (the Earth's position after this frame's orbital step). */
  function Update(w: World, t: Trig): (r: World)
    requires WellFormed(w)
    ensures WellFormed(r) && |r.bodies| == |w.bodies|
    ensures forall i :: 0 <= i < |w.bodies| ==> r.bodies[i].kind == w.bodies[i].kind
  {
    Advance(w, EarthAfterOrbit(w, t, 0), t)
  }

  /** `n` frames of the update as written. */
  function RunAsWritten(w: World, n: nat, t: Trig): (r: World)
    requires WellFormed(w)
    ensures WellFormed(r) && |r.bodies| == |w.bodies|
    decreases n
  {
    if n == 0 then w else RunAsWritten(UpdateAsWritten(w, t), n - 1, t)
  }

  /** `n` frames of the corrected update. */
  function Run(w: World, n: nat, t: Trig): (r: World)
    requires WellFormed(w)
    ensures WellFormed(r) && |r.bodies| == |w.bodies|
    decreases n
  {
    if n == 0 then w else Run(Update(w, t), n - 1, t)
  }

  /** Every history has at most 100 entries, and the sun's is empty. */
  predicate TrailInvariant(w: World)
    requires WellFormed(w)
  {
    forall i :: 0 <= i < |w.bodies| ==>
      |w.histories[i]| <= TrailCapacity && (w.bodies[i].kind == Sun ==> w.histories[i] == [])
  }

  /** One frame keeps the invariant, whichever anchor the moon circles:
      the sun is never pushed onto, and trimming caps the others at 100. */
  lemma AdvanceKeepsTrailInvariant(w: World, anchor: Vec3, t: Trig)
    requires WellFormed(w) && TrailInvariant(w)
    ensures TrailInvariant(Advance(w, anchor, t))
  {
    var w1 := Advance(w, anchor, t);
    forall i | 0 <= i < |w1.bodies|
      ensures |w1.histories[i]| <= TrailCapacity && (w1.bodies[i].kind == Sun ==> w1.histories[i] == [])
    {
      if w.bodies[i].kind != Sun {
        assert w1.histories[i] == PushTrail(w.histories[i], w.bodies[i].position);
      }
    }
  }

  /** The invariant holds in every frame of the corrected run. */
  lemma {:induction false} RunKeepsTrailInvariant(w: World, n: nat, t: Trig)
    requires WellFormed(w) && TrailInvariant(w)
    ensures TrailInvariant(Run(w, n, t))
    decreases n
  {
    if n > 0 {
      var w1 := Update(w, t);
      AdvanceKeepsTrailInvariant(w, EarthAfterOrbit(w, t, 0), t);
      RunKeepsTrailInvariant(w1, n - 1, t);
      assert Run(w, n, t) == Run(w1, n - 1, t);
    }
  }

  /** The invariant holds in every frame of the run as written. */
  lemma {:induction false} RunAsWrittenKeepsTrailInvariant(w: World, n: nat, t: Trig)
    requires WellFormed(w) && TrailInvariant(w)
    ensures TrailInvariant(RunAsWritten(w, n, t))
    decreases n
  {
    if n > 0 {
      AdvanceKeepsTrailInvariant(w, w.earthStart, t);
      RunAsWrittenKeepsTrailInvariant(UpdateAsWritten(w, t), n - 1, t);
    }
  }

  lemma InitialTrailInvariant()
    ensures TrailInvariant(InitialWorld())
    ensures forall i :: 0 <= i < 9 ==> InitialWorld().histories[i] == [] && InitialWorld().angles[i] == 0.0
  {
  }

  // ------------------------------------------------------------ the moon

  /** The squared Euclidean distance between two points. */
  function Dist2(a: Vec3, b: Vec3): real {
    Dot(Sub(a, b), Sub(a, b))
  }

  /** Displacing a point by `offset` puts it `|offset|` away. */
  lemma DisplacedDistance(a: Vec3, offset: Vec3)
    ensures Dist2(Add(a, offset), a) == Dot(offset, offset)
  {
    AddSubCancel(a, offset);
  }

  /** The point at `angle` on the circle of `radius` in the `y = 0` plane. */
  function CirclePoint(radius: real, angle: real, t: Trig): Vec3 {
    Vec3(radius * t.cos(angle), 0.0, radius * t.sin(angle))
  }

  lemma CircleLength(radius: real, angle: real, t: Trig)
    requires Pythagorean(t)
    ensures Dot(CirclePoint(radius, angle, t), CirclePoint(radius, angle, t)) == radius * radius
  {
    var c, s := t.cos(angle), t.sin(angle);
    assert s * s + c * c == 1.0;
    calc {
      Dot(Vec3(radius * c, 0.0, radius * s), Vec3(radius * c, 0.0, radius * s));
      (radius * c) * (radius * c) + (radius * s) * (radius * s);
      (radius * radius) * (s * s + c * c);
      radius * radius;
    }
  }

  /** A point placed on a circle around a centre lies at the circle's
      radius from it. */
  lemma OnCircleAround(p: Vec3, centre: Vec3, radius: real, angle: real, t: Trig)
    requires Pythagorean(t) && p == Add(centre, CirclePoint(radius, angle, t))
    ensures Dist2(p, centre) == radius * radius
  {
    DisplacedDistance(centre, CirclePoint(radius, angle, t));
    CircleLength(radius, angle, t);
  }

  /** With the corrected update the moon is placed on its circle around
      the Earth's new position. */
  lemma MoonPlacedAroundEarth(w: World, t: Trig, e: nat, m: nat)
    requires WellFormed(w)
    requires e < |w.bodies| && w.bodies[e].kind == Earth
    requires forall j :: 0 <= j < e ==> w.bodies[j].kind != Earth
    requires m < |w.bodies| && w.bodies[m].kind == Moon
    ensures Update(w, t).bodies[m].position
            == Add(Update(w, t).bodies[e].position, CirclePoint(MoonOrbitRadius, w.moonAngle, t))
  {
    EarthAfterOrbitFirst(w, t, 0, e);
  }

  /** With the corrected update the moon stays half a unit from the
      Earth, frame after frame (the squared distance is `0.5 * 0.5`). */
  lemma MoonFollowsEarth(w: World, t: Trig, e: nat, m: nat)
    requires WellFormed(w) && Pythagorean(t)
    requires e < |w.bodies| && w.bodies[e].kind == Earth
    requires forall j :: 0 <= j < e ==> w.bodies[j].kind != Earth
    requires m < |w.bodies| && w.bodies[m].kind == Moon
    ensures Dist2(Update(w, t).bodies[m].position, Update(w, t).bodies[e].position) == 0.25
  {
    var moon, earth := Update(w, t).bodies[m].position, Update(w, t).bodies[e].position;
    assert moon == Add(earth, CirclePoint(MoonOrbitRadius, w.moonAngle, t)) by {
      MoonPlacedAroundEarth(w, t, e, m);
    }
    OnCircleAround(moon, earth, MoonOrbitRadius, w.moonAngle, t);
  }

  /** As written the moon does not follow the Earth: after the first
      frame (with `cos 0 = 1` and `sin 0 = 0`) the Earth has moved onto its
      orbit at `(20, 0, 0)` while the moon sits at `(12.5, 0, 0)`, half a
      unit from where the Earth started. */
  lemma MoonLeftBehind(t: Trig)
    requires t.cos(0.0) == 1.0 && t.sin(0.0) == 0.0
    ensures UpdateAsWritten(InitialWorld(), t).bodies[3].position == Vec3(20.0, 0.0, 0.0)
    ensures UpdateAsWritten(InitialWorld(), t).bodies[8].position == Vec3(12.5, 0.0, 0.0)
  {
    var w := InitialWorld();
    var r := UpdateAsWritten(w, t);
    assert w.bodies[3].kind == Earth && w.angles[3] == 0.0 && OrbitRadii[3] == 20.0;
    assert r.bodies[3].position == OrbitPosition(w.bodies[3].position, 20.0, 0.0, t);
    assert w.bodies[8].kind == Moon && w.moonAngle == 0.0;
    assert r.bodies[8].position == MoonPosition(Vec3(12.0, 0.0, 0.0), 0.0, t);
    assert CirclePoint(MoonOrbitRadius, 0.0, t) == Vec3(0.5, 0.0, 0.0);
  }

  /** The gap that leaves: the moon ends the first frame 7.5 units from
      the Earth instead of the intended half unit. */
  lemma MoonGapAfterFirstFrame(t: Trig)
    requires t.cos(0.0) == 1.0 && t.sin(0.0) == 0.0
    ensures Dist2(UpdateAsWritten(InitialWorld(), t).bodies[8].position,
                  UpdateAsWritten(InitialWorld(), t).bodies[3].position) == 56.25
  {
    MoonLeftBehind(t);
    assert Sub(Vec3(12.5, 0.0, 0.0), Vec3(20.0, 0.0, 0.0)) == Vec3(-7.5, 0.0, 0.0);
  }

  // ------------------------------------------------------------ trail drawing

  datatype Segment = Segment(from: Vec3, to: Vec3)

  /** The trail of a history: one segment between each pair of consecutive
      positions, none for a history of fewer than two. */
  function DrawTrail(h: seq<Vec3>): (r: seq<Segment>)
    ensures |h| == 0 ==> r == []
    ensures |h| > 0 ==> |r| == |h| - 1
    ensures forall j :: 0 <= j < |r| ==> r[j] == Segment(h[j], h[j + 1])
    ensures forall j :: 0 < j < |r| ==> r[j - 1].to == r[j].from
  {
    if |h| == 0 then [] else seq(|h| - 1, j requires 0 <= j < |h| - 1 => Segment(h[j], h[j + 1]))
  }

  /** The trail loop as written: `for j in 0..len - 1`, guarded by
      `j + 1 < len`. The subtraction is on `usize`, so an empty history
      underflows: `None` is that panic (a debug build aborts; a release
      build would wrap to `usize::MAX` and spin). Otherwise it draws the
      consecutive segments. */
  method DrawTrailAsWritten(h: seq<Vec3>) returns (lines: Option<seq<Segment>>)
    ensures lines.None? <==> |h| == 0
    ensures lines.Some? ==> lines.value == DrawTrail(h)
  {
    var bound := UsizeSub(|h|, 1);
    if bound.None? {
      return None;
    }
    var acc: seq<Segment> := [];
    for j := 0 to bound.value
      invariant |acc| == j
      invariant forall k :: 0 <= k < j ==> acc[k] == Segment(h[k], h[k + 1])
    {
      if j + 1 < |h| {
        acc := acc + [Segment(h[j], h[j + 1])];
      }
    }
    return Some(acc);
  }

  /** The trails of one frame as written, body by body: the first empty
      history aborts the frame. */
  function TrailsAsWritten(hs: seq<seq<Vec3>>): (r: Option<seq<seq<Segment>>>)
    ensures r.None? <==> exists i :: 0 <= i < |hs| && hs[i] == []
    ensures r.Some? ==> |r.value| == |hs| && forall i :: 0 <= i < |hs| ==> r.value[i] == DrawTrail(hs[i])
  {
    if hs == [] then Some([])
    else if hs[0] == [] then None
    else
      match TrailsAsWritten(hs[1..])
      case None =>
        var i :| 0 <= i < |hs[1..]| && hs[1..][i] == [];
        assert hs[i + 1] == [];
        None
      case Some(rest) =>
        Some([DrawTrail(hs[0])] + rest)
  }

  /** The corrected trails: every history draws its consecutive segments,
      and an empty history draws nothing. */
  function Trails(hs: seq<seq<Vec3>>): (r: seq<seq<Segment>>)
    ensures |r| == |hs|
    ensures forall i :: 0 <= i < |hs| ==> r[i] == DrawTrail(hs[i]) && (hs[i] == [] ==> r[i] == [])
  {
    seq(|hs|, i requires 0 <= i < |hs| => DrawTrail(hs[i]))
  }

  /** Where the histories are non-empty the two agree. */
  lemma TrailsAgree(hs: seq<seq<Vec3>>)
    requires forall i :: 0 <= i < |hs| ==> hs[i] != []
    ensures TrailsAsWritten(hs) == Some(Trails(hs))
  {
    var r := TrailsAsWritten(hs);
    assert r.Some?;
    assert r.value == Trails(hs);
  }

  /** The sun is skipped by the update, so its history stays empty in
      every frame, and the trail loop as written underflows on it in every
      frame, the first one included. */
  lemma SunTrailUnderflows(n: nat, t: Trig)
    ensures RunAsWritten(InitialWorld(), n, t).histories[0] == []
    ensures TrailsAsWritten(RunAsWritten(InitialWorld(), n, t).histories).None?
  {
    var w := InitialWorld();
    InitialTrailInvariant();
    RunAsWrittenKeepsTrailInvariant(w, n, t);
    RunAsWrittenKeepsKinds(w, n, t);
  }

  /** The corrected run never changes a body's type. */
  lemma {:induction false} RunKeepsKinds(w: World, n: nat, t: Trig)
    requires WellFormed(w)
    ensures forall i :: 0 <= i < |w.bodies| ==> Run(w, n, t).bodies[i].kind == w.bodies[i].kind
    decreases n
  {
    if n > 0 {
      var w1 := Update(w, t);
      RunKeepsKinds(w1, n - 1, t);
      forall i | 0 <= i < |w.bodies|
        ensures Run(w, n, t).bodies[i].kind == w.bodies[i].kind
      {
        assert Run(w, n, t) == Run(w1, n - 1, t);
        assert w1.bodies[i].kind == w.bodies[i].kind;
      }
    }
  }

  /** Nor does the run as written. */
  lemma {:induction false} RunAsWrittenKeepsKinds(w: World, n: nat, t: Trig)
    requires WellFormed(w)
    ensures forall i :: 0 <= i < |w.bodies| ==> RunAsWritten(w, n, t).bodies[i].kind == w.bodies[i].kind
    decreases n
  {
    if n > 0 {
      RunAsWrittenKeepsKinds(UpdateAsWritten(w, t), n - 1, t);
    }
  }

  /** With the corrected drawing and update the sun simply draws no trail,
      in every frame. */
  lemma SunDrawsNoTrail(n: nat, t: Trig)
    ensures Run(InitialWorld(), n, t).histories[0] == []
    ensures Trails(Run(InitialWorld(), n, t).histories)[0] == []
  {
    var w := InitialWorld();
    InitialTrailInvariant();
    RunKeepsTrailInvariant(w, n, t);
    RunKeepsKinds(w, n, t);
  }

  // ------------------------------------------------------------ orbit rings

  /** Point `i` of a ring of `segments` points: angle `2 PI i / segments`. */
  function RingPoint(radius: real, segments: nat, i: nat, t: Trig): Vec3
    requires segments > 0
  {
    CirclePoint(radius, 2.0 * Pi * (i as real / segments as real), t)
  }

  /** `render_orbit`: the points of the ring, then one segment from each
      point to the next, the last one back to the first. */
  method RenderOrbit(radius: real, segments: nat, t: Trig) returns (lines: seq<Segment>)
    ensures |lines| == segments
    ensures forall i :: 0 <= i < segments ==> lines[i].from == RingPoint(radius, segments, i, t)
    ensures forall i :: 0 <= i < segments ==> lines[i].to == lines[(i + 1) % segments].from
    ensures segments > 0 ==> lines[segments - 1].to == lines[0].from
  {
    var points: seq<Vec3> := [];
    for i := 0 to segments
      invariant |points| == i
      invariant forall k :: 0 <= k < i ==> points[k] == RingPoint(radius, segments, k, t)
    {
      points := points + [RingPoint(radius, segments, i, t)];
    }
    lines := [];
    for i := 0 to |points|
      invariant |lines| == i
      invariant forall k :: 0 <= k < i ==> lines[k] == Segment(points[k], points[(k + 1) % |points|])
    {
      var next := (i + 1) % |points|;
      lines := lines + [Segment(points[i], points[next])];
    }
  }

  /** Every point of a ring lies on the circle of its radius in the
      `y = 0` plane. */
  lemma RingOnCircle(radius: real, segments: nat, i: nat, t: Trig)
    requires segments > 0 && Pythagorean(t)
    ensures RingPoint(radius, segments, i, t).y == 0.0
    ensures Dot(RingPoint(radius, segments, i, t), RingPoint(radius, segments, i, t)) == radius * radius
  {
    CircleLength(radius, 2.0 * Pi * (i as real / segments as real), t);
  }

  /** The projection of a point onto the orbital (`y = 0`) plane. */
  function Flat(p: Vec3): Vec3 {
    Vec3(p.x, 0.0, p.z)
  }

  /** The orbit each body follows lies on its ring: a body moved by the
      update sits on the circle of its orbit radius around the sun's axis,
      at its own height. */
  lemma OrbitOnRing(w: World, i: nat, t: Trig)
    requires WellFormed(w) && Pythagorean(t)
    requires i < |w.bodies| && w.bodies[i].kind !in {Sun, Moon}
    ensures var p := UpdateAsWritten(w, t).bodies[i].position;
            Flat(p) == CirclePoint(OrbitRadii[i], w.angles[i], t)
            && Dot(Flat(p), Flat(p)) == OrbitRadii[i] * OrbitRadii[i]
            && p.y == w.bodies[i].position.y
  {
    CircleLength(OrbitRadii[i], w.angles[i], t);
  }
}
