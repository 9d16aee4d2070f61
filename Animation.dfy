/** The animation driver of `src/Experience.tsx`: the per-frame callback that
    eases the progress toward the current mode, rewrites the transform of every
    particle, spins the field and the star, bobs the star and lets the camera
    follow the pointer. */
module Animation {
  import opened MathUtils
  import opened Layout

  /** Easing factor of the progress per frame. */
  const ProgressFactor: real := 0.04
  /** Easing factor of the camera per frame. */
  const CameraFactor: real := 0.05
  /** Radians of x rotation of every particle per second of elapsed time. */
  const TumbleRate: real := 0.1
  /** Particle scale in the tree (progress 0) and in the chaos (progress 1). */
  const TreeScale: real := 1.0
  const ChaosScale: real := 0.5
  /** Rotation added to the whole field and to the star each frame. */
  const FieldSpin: real := 0.0015
  const StarSpin: real := 0.005
  /** Resting height of the star and the amplitude of its bob. */
  const StarRestY: real := 7.6
  const StarBob: real := 0.05

  /** Where one particle is drawn: position, Euler rotation and uniform scale. */
  datatype Transform = Transform(position: Vec3, rotation: Vec3, scale: real)

  /** The transform every instance holds before the first frame. */
  const Identity: Transform := Transform(Vec3(0.0, 0.0, 0.0), Vec3(0.0, 0.0, 0.0), 1.0)

  function TargetProgress(isChaos: bool): real
  {
    if isChaos then 1.0 else 0.0
  }

  /** One frame of progress: it moves 4% of the way to the mode's target, so it
      never leaves [0, 1] and its distance to the target shrinks by 0.96. */
  function ProgressStep(progress: real, isChaos: bool): (r: real)
    ensures 0.0 <= progress <= 1.0 ==> 0.0 <= r <= 1.0
    ensures Between(progress, TargetProgress(isChaos), r)
    ensures Abs(r - TargetProgress(isChaos)) == 0.96 * Abs(progress - TargetProgress(isChaos))
  {
    LerpTowards(progress, TargetProgress(isChaos), ProgressFactor);
    Lerp(progress, TargetProgress(isChaos), ProgressFactor)
  }

  /** Progress after a sequence of frames, the last mode applied last. */
  function ProgressRun(progress: real, modes: seq<bool>): real
  {
    if modes == [] then progress
    else ProgressStep(ProgressRun(progress, modes[..|modes| - 1]), modes[|modes| - 1])
  }

  /** Progress never leaves [0, 1], whatever the modes. */
  lemma {:induction false} ProgressStaysInUnit(progress: real, modes: seq<bool>)
    requires 0.0 <= progress <= 1.0
    ensures 0.0 <= ProgressRun(progress, modes) <= 1.0
  {
    if modes != [] {
      ProgressStaysInUnit(progress, modes[..|modes| - 1]);
    }
  }

  /** While the mode is held, progress after n frames is n eases toward its
      target, so the gap is exactly 0.96^n times the first one. */
  lemma {:induction false} HeldModeEases(progress: real, isChaos: bool, modes: seq<bool>)
    requires forall i :: 0 <= i < |modes| ==> modes[i] == isChaos
    ensures ProgressRun(progress, modes) == Ease(progress, TargetProgress(isChaos), ProgressFactor, |modes|)
    ensures ProgressRun(progress, modes) - TargetProgress(isChaos)
      == Pow(0.96, |modes|) * (progress - TargetProgress(isChaos))
  {
    if modes != [] {
      HeldModeEases(progress, isChaos, modes[..|modes| - 1]);
    }
    EaseGap(progress, TargetProgress(isChaos), ProgressFactor, |modes|);
  }

  /** From progress 0, a session that stays in the tree mode keeps progress at
      exactly 0. */
  lemma {:induction false} TreeModeRests(modes: seq<bool>)
    requires forall i :: 0 <= i < |modes| ==> !modes[i]
    ensures ProgressRun(0.0, modes) == 0.0
  {
    if modes != [] {
      TreeModeRests(modes[..|modes| - 1]);
    }
  }

  /** Over exact reals a progress below 1 never reaches 1, but a session held in
      chaos mode comes within any tolerance of it and stays there. */
  lemma ChaosSettles(progress: real, eps: real) returns (n: nat)
    requires eps > 0.0
    ensures forall modes: seq<bool> ::
      |modes| >= n && (forall i :: 0 <= i < |modes| ==> modes[i]) ==>
      Abs(ProgressRun(progress, modes) - 1.0) < eps
  {
    n := EaseConverges(progress, 1.0, ProgressFactor, eps);
    forall modes: seq<bool> | |modes| >= n && (forall i :: 0 <= i < |modes| ==> modes[i])
      ensures Abs(ProgressRun(progress, modes) - 1.0) < eps
    {
      HeldModeEases(progress, true, modes);
    }
  }

  function ParticleScale(progress: real): real
  {
    Lerp(TreeScale, ChaosScale, progress)
  }

  /** The transform written for particle `i`: its position blends from the tree
      point (progress 0) to the scattered point (progress 1) and stays between
      them on every axis; it shrinks from 1 to 0.5; it tumbles about x with time
      and is turned by its own index about y. */
  function ParticleTransform(tree: Vec3, chaos: Vec3, progress: real, i: nat, elapsed: real): (r: Transform)
    ensures 0.0 <= progress <= 1.0 ==>
      && Between(tree.x, chaos.x, r.position.x)
      && Between(tree.y, chaos.y, r.position.y)
      && Between(tree.z, chaos.z, r.position.z)
      && ChaosScale <= r.scale <= TreeScale
    ensures 0.0 <= progress <= 1.0 ==>
      && Abs(r.position.x - chaos.x) == (1.0 - progress) * Abs(tree.x - chaos.x)
      && Abs(r.position.y - chaos.y) == (1.0 - progress) * Abs(tree.y - chaos.y)
      && Abs(r.position.z - chaos.z) == (1.0 - progress) * Abs(tree.z - chaos.z)
      && Abs(r.scale - ChaosScale) == (1.0 - progress) * Abs(TreeScale - ChaosScale)
    ensures progress == 0.0 ==> r.position == tree && r.scale == TreeScale
    ensures progress == 1.0 ==> r.position == chaos && r.scale == ChaosScale
    ensures r.rotation == Vec3(elapsed * TumbleRate, i as real, 0.0)
  {
    var r := Transform(Lerp3(tree, chaos, progress), Vec3(elapsed * TumbleRate, i as real, 0.0), ParticleScale(progress));
    if 0.0 <= progress <= 1.0 then
      LerpTowards(tree.x, chaos.x, progress);
      LerpTowards(tree.y, chaos.y, progress);
      LerpTowards(tree.z, chaos.z, progress);
      LerpTowards(TreeScale, ChaosScale, progress);
      r
    else r
  }

  /** Where the camera heads for a pointer position. */
  function CameraTarget(pointer: Vec2): Vec2
  {
    Vec2(pointer.x * 7.0, 5.0 + pointer.y * 4.0)
  }

  /** One frame of the camera: x and y move 5% of the way to their targets. */
  function CameraStep(camera: Vec2, pointer: Vec2): (r: Vec2)
    ensures Between(camera.x, CameraTarget(pointer).x, r.x)
    ensures Between(camera.y, CameraTarget(pointer).y, r.y)
    ensures Abs(r.x - CameraTarget(pointer).x) == 0.95 * Abs(camera.x - CameraTarget(pointer).x)
    ensures Abs(r.y - CameraTarget(pointer).y) == 0.95 * Abs(camera.y - CameraTarget(pointer).y)
  {
    var target := CameraTarget(pointer);
    LerpTowards(camera.x, target.x, CameraFactor);
    LerpTowards(camera.y, target.y, CameraFactor);
    Vec2(Lerp(camera.x, target.x, CameraFactor), Lerp(camera.y, target.y, CameraFactor))
  }

  predicate InCameraBox(camera: Vec2)
  {
    -7.0 <= camera.x <= 7.0 && 1.0 <= camera.y <= 9.0
  }

  /** With the pointer in [-1, 1]^2 the camera targets lie in [-7, 7] x [1, 9],
      so a camera inside that box stays inside it. */
  lemma CameraStaysInBox(camera: Vec2, pointer: Vec2)
    requires -1.0 <= pointer.x <= 1.0 && -1.0 <= pointer.y <= 1.0
    requires InCameraBox(camera)
    ensures InCameraBox(CameraTarget(pointer))
    ensures InCameraBox(CameraStep(camera, pointer))
  {
  }

  /** Height of the star for `wave` = sin(1.5 * elapsed time). */
  function StarHeight(wave: real): (y: real)
    ensures -1.0 <= wave <= 1.0 ==> 7.55 <= y <= 7.65
    ensures wave == 0.0 ==> y == StarRestY
  {
    StarRestY + wave * StarBob
  }

  /** The state the per-frame callback reads and writes. The layouts and the
      colours are fixed references; the instance buffer is rewritten each frame. */
  class Experience {
    const chaosPos: array<real>
    const targetPos: array<real>
    const colours: array<Swatch>
    const instances: array<Transform>
    var progress: real
    var fieldSpinY: real
    var starSpinY: real
    var starY: real
    var camera: Vec2

    ghost predicate Valid()
      reads this
    {
      && chaosPos.Length == 3 * Count && targetPos.Length == 3 * Count
      && colours.Length == Count && instances.Length == Count
      && 0.0 <= progress <= 1.0
    }

    /** The transform particle `i` gets at progress `p` and elapsed time `t`. */
    ghost function Expected(i: nat, p: real, t: real): Transform
      reads this, chaosPos, targetPos
      requires Valid() && i < Count
    {
      ParticleTransform(PointAt(targetPos[..], i), PointAt(chaosPos[..], i), p, i, t)
    }

    /** Mounting: the layouts are generated once, progress starts at 0, the
        instances start at the identity transform, the star rests at 7.6 and
        the camera starts at x = 0, y = 4. */
    constructor (draws: seq<ParticleDraw>)
      requires |draws| == Count
      ensures Valid()
      ensures fresh(chaosPos) && fresh(targetPos) && fresh(colours) && fresh(instances)
      ensures forall i :: 0 <= i < Count ==>
        && PointAt(chaosPos[..], i) == ChaosPoint(draws[i])
        && PointAt(targetPos[..], i) == TreePoint(draws[i])
        && colours[i] == ColourOf(draws[i])
      ensures (forall i :: 0 <= i < Count ==> draws[i].InRange()) ==> LayoutBounded(chaosPos[..], targetPos[..])
      ensures progress == 0.0 && fieldSpinY == 0.0 && starSpinY == 0.0 && starY == StarRestY
      ensures camera == Vec2(0.0, 4.0)
      ensures forall i :: 0 <= i < Count ==> instances[i] == Identity
    {
      var c, t, k := GenerateLayout(draws);
      chaosPos, targetPos, colours := c, t, k;
      instances := new Transform[Count](_ => Identity);
      progress := 0.0;
      fieldSpinY, starSpinY, starY := 0.0, 0.0, StarRestY;
      camera := Vec2(0.0, 4.0);
    }

    /** The `useFrame` callback, given the mode and the pointer of the gesture
        adapter, the elapsed time and `wave` = sin(1.5 * elapsed time). */
    method OnFrame(isChaos: bool, pointer: Vec2, elapsed: real, wave: real)
      requires Valid()
      modifies this, instances
      ensures Valid()
      ensures progress == ProgressStep(old(progress), isChaos)
      ensures forall i :: 0 <= i < Count ==> instances[i] == Expected(i, progress, elapsed)
      ensures chaosPos[..] == old(chaosPos[..]) && targetPos[..] == old(targetPos[..])
      ensures colours[..] == old(colours[..])
      ensures fieldSpinY == old(fieldSpinY) + FieldSpin
      ensures starSpinY == old(starSpinY) + StarSpin && starY == StarHeight(wave)
      ensures camera == CameraStep(old(camera), pointer)
    {
      progress := Lerp(progress, TargetProgress(isChaos), ProgressFactor);
      WriteInstances(elapsed);
      fieldSpinY := fieldSpinY + FieldSpin;
      starSpinY := starSpinY + StarSpin;
      starY := StarRestY + wave * StarBob;
      var target := CameraTarget(pointer);
      camera := Vec2(Lerp(camera.x, target.x, CameraFactor), Lerp(camera.y, target.y, CameraFactor));
    }

    /** The loop over the particles: every one of the `Count` instances gets the
        transform blended at the current progress. */
    method WriteInstances(elapsed: real)
      requires Valid()
      modifies instances
      ensures forall i :: 0 <= i < Count ==> instances[i] == Expected(i, progress, elapsed)
    {
      for i := 0 to Count
        invariant forall j :: 0 <= j < i ==> instances[j] == Expected(j, progress, elapsed)
      {
        var tree := Vec3(targetPos[3 * i], targetPos[3 * i + 1], targetPos[3 * i + 2]);
        var chaos := Vec3(chaosPos[3 * i], chaosPos[3 * i + 1], chaosPos[3 * i + 2]);
        var position := Vec3(Lerp(tree.x, chaos.x, progress), Lerp(tree.y, chaos.y, progress), Lerp(tree.z, chaos.z, progress));
        var scale := Lerp(TreeScale, ChaosScale, progress);
        instances[i] := Transform(position, Vec3(elapsed * TumbleRate, i as real, 0.0), scale);
      }
    }
  }

  /** A session that never leaves the tree mode draws every particle exactly at
      its tree point with scale 1, frame after frame. */
  lemma TreeModeShowsTree(modes: seq<bool>, tree: Vec3, chaos: Vec3, i: nat, elapsed: real)
    requires forall k :: 0 <= k < |modes| ==> !modes[k]
    ensures var r := ParticleTransform(tree, chaos, ProgressRun(0.0, modes), i, elapsed);
      r.position == tree && r.scale == 1.0
  {
    TreeModeRests(modes);
  }
}
