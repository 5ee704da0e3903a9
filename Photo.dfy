/** The Photo component: a polaroid that tweens between its tree pose, its galaxy
    pose and a focus pose in front of the camera, floats gently while it drifts in
    the galaxy, and reports clicks only in galaxy mode. */
module Photo {
  import opened Geometry
  import opened Types

  /** Where a focused photo goes: the centre of the screen, close to the camera. */
  const FOCUS_POSITION: Vec3 := Vec3(0.0, 0.0, 4.0)
  const FOCUS_SCALE: real := 1.5
  const REST_SCALE: real := 1.0
  /** Amplitude of the per-frame float in galaxy mode. */
  const FLOAT_AMPLITUDE: real := 0.002

  /** The pose the animation effect tweens the photo towards. The focus pose wins
      over the galaxy pose, which wins over the tree pose; the focus pose needs
      galaxy mode as well as focus. */
  function TargetPose(data: PhotoData, isExploded: bool, isFocused: bool): (p: Pose)
    ensures isFocused && isExploded ==> p == Pose(FOCUS_POSITION, NO_ROTATION)
    ensures !isFocused && isExploded ==> p == Pose(data.place.galaxyPos, data.place.galaxyRot)
    ensures !isExploded ==> p == Pose(data.place.treePos, data.place.treeRot)
  {
    if isFocused && isExploded then
      Pose(FOCUS_POSITION, NO_ROTATION)
    else if isExploded then
      Pose(data.place.galaxyPos, data.place.galaxyRot)
    else
      Pose(data.place.treePos, data.place.treeRot)
  }

  /** The uniform scale the effect tweens towards: 1.5 when focused, else 1. It
      depends on focus alone, not on the mode. */
  function TargetScale(isFocused: bool): (k: real)
    ensures isFocused <==> k > REST_SCALE
    ensures k == REST_SCALE || k == FOCUS_SCALE
  {
    if isFocused then FOCUS_SCALE else REST_SCALE
  }

  /** The focus pose is the same for every photo, whatever its stored poses. */
  lemma FocusPoseIgnoresData(d1: PhotoData, d2: PhotoData)
    ensures TargetPose(d1, true, true) == TargetPose(d2, true, true)
  {
  }

  /** In tree mode the focus flag has no effect on the pose. */
  lemma TreeModeIgnoresFocus(data: PhotoData, f1: bool, f2: bool)
    ensures TargetPose(data, false, f1) == TargetPose(data, false, f2)
  {
  }

  /** Seen from the scene: while the scene keeps its invariant, a photo stands in
      the focus pose exactly when it is the focused one, in its galaxy pose when
      the scene is exploded and it is not focused, and in its tree pose otherwise;
      and only the focused photo is scaled up. */
  lemma TargetInScene(s: SceneState, data: PhotoData)
    requires FocusNeedsGalaxy(s)
    ensures var focused := IsFocused(s, data.place.id);
            var p := TargetPose(data, s.isExploded, focused);
            && (focused <==> p == Pose(FOCUS_POSITION, NO_ROTATION) && TargetScale(focused) == FOCUS_SCALE)
            && (s.isExploded && !focused ==> p == Pose(data.place.galaxyPos, data.place.galaxyRot))
            && (!s.isExploded ==> p == Pose(data.place.treePos, data.place.treeRot) && TargetScale(focused) == REST_SCALE)
  {
    var focused := IsFocused(s, data.place.id);
    if focused {
      assert s.isExploded;
    }
  }

  /** The change one frame makes to position.y: a sine-driven float, applied only
      in galaxy mode to a photo that is not focused. */
  function FloatOffset(data: PhotoData, isExploded: bool, isFocused: bool, elapsed: real, m: Trig): (dy: real)
    ensures !(isExploded && !isFocused) ==> dy == 0.0
  {
    if isExploded && !isFocused then m.sin(elapsed + data.place.galaxyPos.x) * FLOAT_AMPLITUDE else 0.0
  }

  /** One frame moves the photo by at most the float amplitude. */
  lemma FloatOffsetBounded(data: PhotoData, isExploded: bool, isFocused: bool, elapsed: real, m: Trig)
    requires Lawful(m)
    ensures -FLOAT_AMPLITUDE <= FloatOffset(data, isExploded, isFocused, elapsed, m) <= FLOAT_AMPLITUDE
  {
    SinCosBounded(m, elapsed + data.place.galaxyPos.x);
  }

  /** The per-frame callback: nothing happens before the group is mounted; after
      that only position.y moves, by FloatOffset. */
  method FloatFrame(group: Object3D?, data: PhotoData, isExploded: bool, isFocused: bool, elapsed: real, m: Trig)
    modifies group
    ensures group != null ==> group.position == old(group.position).(y := old(group.position.y) + FloatOffset(data, isExploded, isFocused, elapsed, m))
    ensures group != null ==> group.rotation == old(group.rotation) && group.scale == old(group.scale)
  {
    if group == null {
      return;
    }
    if isExploded && !isFocused {
      group.position := group.position.(y := group.position.y + m.sin(elapsed + data.place.galaxyPos.x) * FLOAT_AMPLITUDE);
    }
  }

  /** A click is consumed and reported with the photo's own id in galaxy mode;
      in tree mode it is ignored and propagates. */
  function OnClick(data: PhotoData, isExploded: bool): (c: Click)
    ensures c.selected.Some? <==> isExploded
    ensures c.selected.Some? ==> c.selected.value == data.place.id
    ensures c.stopsPropagation <==> isExploded
  {
    if isExploded then Click(Some(data.place.id), true) else Click(None, false)
  }
}
