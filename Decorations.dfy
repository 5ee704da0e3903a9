/** The Decoration component: an ornament that tweens between its tree pose and its
    galaxy pose with a small random head start, glows more in tree mode, and is
    drawn as a sphere or an octahedron according to its kind. */
module Decorations {
  import opened Geometry
  import opened Types

  /** The longest random delay before the position tween starts, in seconds. */
  const MAX_POSITION_DELAY: real := 0.3
  /** The rotation tween starts at once. */
  const ROTATION_DELAY: real := 0.0
  const ORNAMENT_RADIUS: real := 0.35

  /** The pose the effect tweens the ornament towards: galaxy pose in galaxy mode,
      tree pose in tree mode. No focus enters into it. */
  function TargetPose(data: DecorationData, isExploded: bool): (p: Pose)
    ensures isExploded ==> p == Pose(data.place.galaxyPos, data.place.galaxyRot)
    ensures !isExploded ==> p == Pose(data.place.treePos, data.place.treeRot)
  {
    var position := if isExploded then data.place.galaxyPos else data.place.treePos;
    var rotation := if isExploded then data.place.galaxyRot else data.place.treeRot;
    Pose(position, rotation)
  }

  /** Switching mode changes an ornament's target unless its two stored poses
      coincide. */
  lemma ModeSwitchMoves(data: DecorationData, isExploded: bool)
    ensures TargetPose(data, !isExploded) == TargetPose(data, isExploded) <==>
              data.place.galaxyPos == data.place.treePos && data.place.galaxyRot == data.place.treeRot
  {
  }

  /** The head start of the position tween, scaled from one random draw. */
  function PositionDelay(jitter: Draw): (d: real) {
    jitter * MAX_POSITION_DELAY
  }

  /** The delay lies in [0, 0.3). */
  lemma PositionDelayBounded(jitter: Draw)
    ensures 0.0 <= PositionDelay(jitter) < MAX_POSITION_DELAY
    ensures ROTATION_DELAY == 0.0
  {
  }

  /** Glow strength: dimmer in the galaxy, brighter on the tree. */
  function EmissiveIntensity(isExploded: bool): (k: real)
    ensures isExploded <==> k < 0.2
    ensures k == 0.05 || k == 0.2
  {
    if isExploded then 0.05 else 0.2
  }

  /** The mesh geometry: a sphere with 24 segments each way or a plain octahedron,
      both of radius 0.35. */
  datatype Shape =
    | SphereGeometry(radius: real, widthSegments: nat, heightSegments: nat)
    | OctahedronGeometry(radius: real, detail: nat)

  /** A sphere exactly for the 'sphere' kind; every other kind is an octahedron.
      Both shapes have the same radius. */
  function ShapeOf(kind: DecorationType): (g: Shape)
    ensures g.SphereGeometry? <==> kind == Sphere
    ensures g.radius == ORNAMENT_RADIUS
    ensures g.SphereGeometry? ==> g.widthSegments == 24 && g.heightSegments == 24
    ensures g.OctahedronGeometry? ==> g.detail == 0
  {
    if kind == Sphere then SphereGeometry(ORNAMENT_RADIUS, 24, 24) else OctahedronGeometry(ORNAMENT_RADIUS, 0)
  }
}
