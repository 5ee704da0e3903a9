/** The PhotoFrame component: a framed photo with the same three poses as Photo
    but a farther focus point and a larger focus scale, a wobble while it is in
    focus, and clicks that are always reported. */
module PhotoFrame {
  import opened Geometry
  import opened Types

  /** Where a focused frame goes: farther back than a focused Photo. */
  const FOCUS_POSITION: Vec3 := Vec3(0.0, 0.0, 8.0)
  const FOCUS_SCALE: real := 1.8
  const REST_SCALE: real := 1.0
  /** Amplitude of the per-frame vertical bob while focused. */
  const BOB_AMPLITUDE: real := 0.005
  /** Largest tilt about z while focused, in radians. */
  const TILT_AMPLITUDE: real := 0.05

  /** The pose the effect tweens the frame towards: focus pose when focused in
      galaxy mode, else the galaxy pose in galaxy mode, else the tree pose. */
  function TargetPose(data: PhotoData, isExploded: bool, isFocused: bool): (p: Pose)
    ensures isFocused && isExploded ==> p == Pose(FOCUS_POSITION, NO_ROTATION)
    ensures !isFocused && isExploded ==> p == Pose(data.place.galaxyPos, data.place.galaxyRot)
    ensures !isExploded ==> p == Pose(data.place.treePos, data.place.treeRot)
  {
    var position := if isFocused && isExploded then FOCUS_POSITION
                    else if isExploded then data.place.galaxyPos else data.place.treePos;
    var rotation := if isFocused && isExploded then NO_ROTATION
                    else if isExploded then data.place.galaxyRot else data.place.treeRot;
    Pose(position, rotation)
  }

  /** 1.8 when focused, else 1, whatever the mode. */
  function TargetScale(isFocused: bool): (k: real)
    ensures isFocused <==> k > REST_SCALE
    ensures k == REST_SCALE || k == FOCUS_SCALE
  {
    if isFocused then FOCUS_SCALE else REST_SCALE
  }

  /** The per-frame bob added to position.y while focused in galaxy mode. */
  function Bob(elapsed: real, m: Trig): real {
    m.sin(elapsed * 2.0) * BOB_AMPLITUDE
  }

  /** The tilt assigned to rotation.z while focused in galaxy mode. */
  function Tilt(elapsed: real, m: Trig): real {
    m.sin(elapsed * 0.5) * TILT_AMPLITUDE
  }

  /** Each frame's bob is at most 0.005 and the tilt stays within [-0.05, 0.05]. */
  lemma WobbleBounded(elapsed: real, m: Trig)
    requires Lawful(m)
    ensures -BOB_AMPLITUDE <= Bob(elapsed, m) <= BOB_AMPLITUDE
    ensures -TILT_AMPLITUDE <= Tilt(elapsed, m) <= TILT_AMPLITUDE
  {
    SinCosBounded(m, elapsed * 2.0);
    SinCosBounded(m, elapsed * 0.5);
  }

  /** The per-frame callback: it acts only on a mounted frame that is focused in
      galaxy mode, and then bobs position.y and sets rotation.z; otherwise the
      frame is left alone. */
  method WobbleFrame(group: Object3D?, isExploded: bool, isFocused: bool, elapsed: real, m: Trig)
    modifies group
    ensures group != null && isFocused && isExploded ==>
              && group.position == old(group.position).(y := old(group.position.y) + Bob(elapsed, m))
              && group.rotation == old(group.rotation).(z := Tilt(elapsed, m))
    ensures group != null && !(isFocused && isExploded) ==>
              group.position == old(group.position) && group.rotation == old(group.rotation)
    ensures group != null ==> group.scale == old(group.scale)
  {
    if isFocused && isExploded && group != null {
      group.position := group.position.(y := group.position.y + m.sin(elapsed * 2.0) * BOB_AMPLITUDE);
      group.rotation := group.rotation.(z := m.sin(elapsed * 0.5) * TILT_AMPLITUDE);
    }
  }

  /** A click always stops propagation and always reports the frame's own id, in
      either mode, unlike Photo, which does both only in galaxy mode. */
  function OnClick(data: PhotoData): (c: Click)
    ensures c.selected == Some(data.place.id)
    ensures c.stopsPropagation
  {
    Click(Some(data.place.id), true)
  }
}
