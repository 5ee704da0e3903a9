/** The records of types.ts: the per-item data built once at scene construction
    and the shared interaction state. */
module Types {
  import opened Geometry

  datatype Option<T> = None | Some(value: T)

  /** PositionData: an item's identity and its resting pose in each layout. */
  datatype PositionData = PositionData(
    id: string,
    treePos: Vec3,
    treeRot: Euler,
    galaxyPos: Vec3,
    galaxyRot: Euler)

  /** PhotoData extends PositionData with the image URL. */
  datatype PhotoData = PhotoData(place: PositionData, url: string)

  /** The two ornament kinds, 'sphere' and 'box'. */
  datatype DecorationType = Sphere | Box

  /** DecorationData extends PositionData with a kind and a colour string. */
  datatype DecorationData = DecorationData(place: PositionData, kind: DecorationType, color: string)

  /** SceneState without its setters: tree or galaxy mode, and the focused photo if any. */
  datatype SceneState = SceneState(isExploded: bool, focusedPhotoId: Option<string>)

  /** What a click on an item does: which id, if any, it hands to onSelect, and
      whether it stops the event from reaching the enclosing tree group. */
  datatype Click = Click(selected: Option<string>, stopsPropagation: bool)

  /** The invariant the handlers keep: a photo can be focused only in galaxy mode. */
  predicate FocusNeedsGalaxy(s: SceneState) {
    s.focusedPhotoId.Some? ==> s.isExploded
  }

  /** The isFocused prop the scene hands to the photo with the given id. */
  predicate IsFocused(s: SceneState, id: string) {
    s.focusedPhotoId == Some(id)
  }
}
