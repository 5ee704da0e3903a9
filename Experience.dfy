/** The scene component: its configuration, the photo and ornament data it builds
    once, the interaction state its three double-click/click handlers update, and
    the star target and camera-control flags derived from that state. */
module Experience {
  import opened Geometry
  import opened Types
  import opened MathUtils
  import Photo
  import Decorations

  // ------------------------------------------------------------ configuration

  const PHOTO_URLS: seq<string> := [
    "https://picsum.photos/id/1015/300/300",
    "https://picsum.photos/id/1018/300/300",
    "https://picsum.photos/id/1025/300/300",
    "https://picsum.photos/id/1036/300/300",
    "https://picsum.photos/id/1040/300/300",
    "https://picsum.photos/id/1050/300/300",
    "https://picsum.photos/id/1060/300/300",
    "https://picsum.photos/id/1070/300/300",
    "https://picsum.photos/id/1080/300/300",
    "https://picsum.photos/id/110/300/300",
    "https://picsum.photos/id/120/300/300",
    "https://picsum.photos/id/130/300/300"
  ]

  const TREE_HEIGHT: real := 12.0
  const TREE_RADIUS: real := 3.5
  const DECORATION_COUNT: nat := 40
  /** Ornaments spiral on a cone 20% wider than the photos' one. */
  const DECORATION_TREE_RADIUS: real := TREE_RADIUS * 1.2
  const PHOTO_GALAXY_RADIUS: real := 10.0
  const DECORATION_GALAXY_RADIUS: real := 15.0
  /** The ornament colours, indexed by a draw; the third entry is kept exactly as
      the scene spells it. */
  const PALETTE: seq<string> := ["#ff0000", "#d4af37", "#silver", "#00ff00"]

  // ------------------------------------------------------------ ids

  function DecimalDigit(d: int): char
    requires 0 <= d < 10
  {
    (('0' as int) + d) as char
  }

  /** The base-10 rendering a template literal gives a non-negative integer. */
  function NatToString(n: nat): (s: string)
    ensures 1 <= |s|
    ensures n >= 10 ==> |s| >= 2
    ensures forall k :: 0 <= k < |s| ==> '0' <= s[k] <= '9'
  {
    if n < 10 then [DecimalDigit(n)] else NatToString(n / 10) + [DecimalDigit(n % 10)]
  }

  /** The number a string of decimal digits denotes. */
  function DecimalValue(s: string): nat
    requires forall k :: 0 <= k < |s| ==> '0' <= s[k] <= '9'
  {
    if |s| == 0 then 0 else DecimalValue(s[..|s| - 1]) * 10 + (s[|s| - 1] as int - '0' as int)
  }

  /** Reading a rendered number back gives the number. */
  lemma {:induction false} DecimalRoundTrip(n: nat)
    ensures DecimalValue(NatToString(n)) == n
  {
    var s := NatToString(n);
    if n >= 10 {
      DecimalRoundTrip(n / 10);
      assert s[..|s| - 1] == NatToString(n / 10);
    }
  }

  /** Distinct numbers render differently. */
  lemma NatToStringInjective(a: nat, b: nat)
    ensures NatToString(a) == NatToString(b) <==> a == b
  {
    DecimalRoundTrip(a);
    DecimalRoundTrip(b);
  }

  /** The id `photo-${i}` of the i-th photo. */
  function PhotoId(i: nat): string {
    "photo-" + NatToString(i)
  }

  /** The id `deco-${i}` of the i-th ornament. */
  function DecorationId(i: nat): string {
    "deco-" + NatToString(i)
  }

  /** Photo ids are pairwise distinct, ornament ids are pairwise distinct, and no
      photo shares an id with an ornament. */
  lemma IdsDistinct(i: nat, j: nat)
    ensures PhotoId(i) == PhotoId(j) <==> i == j
    ensures DecorationId(i) == DecorationId(j) <==> i == j
    ensures PhotoId(i) != DecorationId(j)
  {
    if PhotoId(i) == PhotoId(j) {
      assert PhotoId(i)[6..] == NatToString(i);
      assert PhotoId(j)[6..] == NatToString(j);
    }
    if DecorationId(i) == DecorationId(j) {
      assert DecorationId(i)[5..] == NatToString(i);
      assert DecorationId(j)[5..] == NatToString(j);
    }
    NatToStringInjective(i, j);
    assert PhotoId(i)[0] != DecorationId(j)[0];
  }

  // ------------------------------------------------------------ data

  /** The Math.random results consumed for one photo, in the order they are drawn:
      three for its galaxy point, then two for its galaxy rotation. */
  datatype PhotoDraws = PhotoDraws(galaxy: GalaxyDraws, rotX: Draw, rotY: Draw)

  /** The draws for one ornament: kind, colour, galaxy point, galaxy rotation. */
  datatype DecorationDraws = DecorationDraws(kind: Draw, color: Draw, galaxy: GalaxyDraws, rotX: Draw, rotY: Draw)

  /** A galaxy rotation: random turns about x and y, none about z. */
  function GalaxyRotation(rotX: Draw, rotY: Draw): Euler {
    Euler(rotX * PI, rotY * PI, 0.0)
  }

  /** Both random angles lie in [0, π). */
  lemma GalaxyRotationBounds(rotX: Draw, rotY: Draw)
    ensures var e := GalaxyRotation(rotX, rotY);
            0.0 <= e.x < PI && 0.0 <= e.y < PI && e.z == 0.0
  {
    assert GalaxyRotation(rotX, rotY).x == Shrink(rotX, PI);
    assert GalaxyRotation(rotX, rotY).y == Shrink(rotY, PI);
  }

  /** A draw above one half makes a sphere, any other a box. */
  function KindOf(r: Draw): DecorationType {
    if r > 0.5 then Sphere else Box
  }

  /** The palette index Math.floor(r * 4). */
  function ColorIndex(r: Draw): (k: int)
    ensures 0 <= k < |PALETTE|
  {
    (r * 4.0).Floor
  }

  /** Each palette entry is picked by one quarter of [0, 1). */
  lemma ColorBands(r: Draw, k: int)
    requires 0 <= k < |PALETTE|
    ensures ColorIndex(r) == k <==> (k as real) / 4.0 <= r < (k as real + 1.0) / 4.0
  {
  }

  /** Photo i: its id, its URL, entry i of the photo spiral and its galaxy pose. */
  function PhotoAt(i: nat, spiral: TreePlacement, d: PhotoDraws, m: Trig): PhotoData
    requires i < |PHOTO_URLS|
  {
    var place := PositionData(PhotoId(i), spiral.pos, spiral.rot,
                              GalaxyPosition(PHOTO_GALAXY_RADIUS, d.galaxy, m), GalaxyRotation(d.rotX, d.rotY));
    PhotoData(place, PHOTO_URLS[i])
  }

  /** Ornament i: its id, kind, colour, entry i of the ornament spiral and its
      galaxy pose. */
  function DecorationAt(i: nat, spiral: TreePlacement, d: DecorationDraws, m: Trig): DecorationData {
    var place := PositionData(DecorationId(i), spiral.pos, spiral.rot,
                              GalaxyPosition(DECORATION_GALAXY_RADIUS, d.galaxy, m), GalaxyRotation(d.rotX, d.rotY));
    DecorationData(place, KindOf(d.kind), PALETTE[ColorIndex(d.color)])
  }

  /** photos is what the scene builds from the given draws: one photo per URL,
      placed on the photo spiral. */
  ghost predicate PhotosBuilt(photos: seq<PhotoData>, draws: nat -> PhotoDraws, m: Trig) {
    && |photos| == |PHOTO_URLS|
    && forall i :: 0 <= i < |photos| ==>
         photos[i] == PhotoAt(i, TreePlacementAt(i, |PHOTO_URLS|, TREE_RADIUS, TREE_HEIGHT, m), draws(i), m)
  }

  /** decorations is what the scene builds from the given draws: DECORATION_COUNT
      ornaments placed on the wider spiral. */
  ghost predicate DecorationsBuilt(decorations: seq<DecorationData>, draws: nat -> DecorationDraws, m: Trig) {
    && |decorations| == DECORATION_COUNT
    && forall i :: 0 <= i < |decorations| ==>
         decorations[i] == DecorationAt(i, TreePlacementAt(i, DECORATION_COUNT, DECORATION_TREE_RADIUS, TREE_HEIGHT, m), draws(i), m)
  }

  /** The photosData memo: the photo spiral, then one record per URL. */
  method BuildPhotos(draws: nat -> PhotoDraws, m: Trig) returns (photos: seq<PhotoData>)
    ensures PhotosBuilt(photos, draws, m)
  {
    var spiral := GenerateTreePositions(|PHOTO_URLS|, TREE_RADIUS, TREE_HEIGHT, m);
    photos := seq(|PHOTO_URLS|, i requires 0 <= i < |PHOTO_URLS| => PhotoAt(i, spiral[i], draws(i), m));
  }

  /** The decorationsData memo: the ornament spiral, then DECORATION_COUNT records. */
  method BuildDecorations(draws: nat -> DecorationDraws, m: Trig) returns (decorations: seq<DecorationData>)
    ensures DecorationsBuilt(decorations, draws, m)
  {
    var spiral := GenerateTreePositions(DECORATION_COUNT, DECORATION_TREE_RADIUS, TREE_HEIGHT, m);
    decorations := seq(DECORATION_COUNT, i requires 0 <= i < DECORATION_COUNT => DecorationAt(i, spiral[i], draws(i), m));
  }

  /** Every built photo has id photo-i and the i-th URL; its tree pose lies on the
      cone of radius 3.5 and height 12 inside the tree's height range; its galaxy
      point lies strictly inside the ball of radius 10 and its galaxy angles in
      [0, π). */
  lemma PhotosFacts(photos: seq<PhotoData>, draws: nat -> PhotoDraws, m: Trig, i: nat)
    requires Lawful(m) && PhotosBuilt(photos, draws, m) && i < |photos|
    ensures var p := photos[i].place;
            && p.id == PhotoId(i)
            && photos[i].url == PHOTO_URLS[i]
            && OnCone(p.treePos, TREE_RADIUS, TREE_HEIGHT)
            && -TREE_HEIGHT / 2.0 <= p.treePos.y < TREE_HEIGHT / 2.0
            && Norm2(p.galaxyPos) < PHOTO_GALAXY_RADIUS * PHOTO_GALAXY_RADIUS
            && 0.0 <= p.galaxyRot.x < PI && 0.0 <= p.galaxyRot.y < PI && p.galaxyRot.z == 0.0
  {
    var n := |PHOTO_URLS|;
    var e := TreePlacementAt(i, n, TREE_RADIUS, TREE_HEIGHT, m);
    var d := draws(i);
    assert photos[i] == PhotoAt(i, e, d, m);
    assert photos[i].place.treePos == e.pos;
    assert photos[i].place.galaxyPos == GalaxyPosition(PHOTO_GALAXY_RADIUS, d.galaxy, m);
    assert photos[i].place.galaxyRot == GalaxyRotation(d.rotX, d.rotY);
    TreeConeContainment(i, n, TREE_RADIUS, TREE_HEIGHT, m);
    TreeRadiusAndHeight(i, n, TREE_RADIUS, TREE_HEIGHT, m);
    GalaxyContainment(PHOTO_GALAXY_RADIUS, d.galaxy, m);
    GalaxyRotationBounds(d.rotX, d.rotY);
  }

  /** Every built ornament has id deco-i, a colour from the palette and a kind that
      is a sphere exactly when its kind draw exceeds one half; its tree pose lies on
      the wider cone and its galaxy point strictly inside the ball of radius 15. */
  lemma DecorationsFacts(decorations: seq<DecorationData>, draws: nat -> DecorationDraws, m: Trig, i: nat)
    requires Lawful(m) && DecorationsBuilt(decorations, draws, m) && i < |decorations|
    ensures var d := decorations[i];
            var p := d.place;
            && p.id == DecorationId(i)
            && d.color in PALETTE
            && (d.kind == Sphere <==> draws(i).kind > 0.5)
            && OnCone(p.treePos, DECORATION_TREE_RADIUS, TREE_HEIGHT)
            && -TREE_HEIGHT / 2.0 <= p.treePos.y < TREE_HEIGHT / 2.0
            && Norm2(p.galaxyPos) < DECORATION_GALAXY_RADIUS * DECORATION_GALAXY_RADIUS
  {
    var e := TreePlacementAt(i, DECORATION_COUNT, DECORATION_TREE_RADIUS, TREE_HEIGHT, m);
    var d := draws(i);
    assert decorations[i] == DecorationAt(i, e, d, m);
    assert decorations[i].place.treePos == e.pos;
    assert decorations[i].place.galaxyPos == GalaxyPosition(DECORATION_GALAXY_RADIUS, d.galaxy, m);
    assert decorations[i].color == PALETTE[ColorIndex(d.color)];
    TreeConeContainment(i, DECORATION_COUNT, DECORATION_TREE_RADIUS, TREE_HEIGHT, m);
    TreeRadiusAndHeight(i, DECORATION_COUNT, DECORATION_TREE_RADIUS, TREE_HEIGHT, m);
    GalaxyContainment(DECORATION_GALAXY_RADIUS, d.galaxy, m);
  }

  /** No two built photos share an id, and no two built ornaments do. */
  lemma BuiltIdsDistinct(photos: seq<PhotoData>, pdraws: nat -> PhotoDraws,
                         decorations: seq<DecorationData>, ddraws: nat -> DecorationDraws, m: Trig)
    requires PhotosBuilt(photos, pdraws, m) && DecorationsBuilt(decorations, ddraws, m)
    ensures forall i, j :: 0 <= i < j < |photos| ==> photos[i].place.id != photos[j].place.id
    ensures forall i, j :: 0 <= i < j < |decorations| ==> decorations[i].place.id != decorations[j].place.id
  {
    forall i, j | 0 <= i < j < |photos|
      ensures photos[i].place.id != photos[j].place.id
    {
      IdsDistinct(i, j);
    }
    forall i, j | 0 <= i < j < |decorations|
      ensures decorations[i].place.id != decorations[j].place.id
    {
      IdsDistinct(i, j);
    }
  }

  // ------------------------------------------------------------ interaction

  /** The state on mount: tree mode, nothing focused. */
  const INITIAL: SceneState := SceneState(false, None)

  /** handleTreeDoubleClick: explodes the tree; in galaxy mode it changes nothing. */
  function OnTreeDoubleClick(s: SceneState): (r: SceneState)
    ensures r.isExploded
    ensures r.focusedPhotoId == s.focusedPhotoId
    ensures s.isExploded ==> r == s
  {
    if !s.isExploded then s.(isExploded := true) else s
  }

  /** handleBackgroundDoubleClick: in galaxy mode clears focus and returns to the
      tree, whatever was focused; in tree mode changes nothing. */
  function OnBackgroundDoubleClick(s: SceneState): (r: SceneState)
    ensures s.isExploded ==> r == INITIAL
    ensures !s.isExploded ==> r == s
  {
    if s.isExploded then s.(focusedPhotoId := None).(isExploded := false) else s
  }

  /** handlePhotoSelect: only in galaxy mode, clears focus when the id is the
      focused one and otherwise focuses it, in one step; the mode never changes. */
  function OnPhotoSelect(s: SceneState, id: string): (r: SceneState)
    ensures r.isExploded == s.isExploded
    ensures !s.isExploded ==> r == s
    ensures s.isExploded && s.focusedPhotoId == Some(id) ==> r.focusedPhotoId == None
    ensures s.isExploded && s.focusedPhotoId != Some(id) ==> r.focusedPhotoId == Some(id)
  {
    if s.isExploded then
      if s.focusedPhotoId == Some(id) then s.(focusedPhotoId := None) else s.(focusedPhotoId := Some(id))
    else
      s
  }

  /** The user gestures the handlers respond to. */
  datatype Event = TreeDoubleClick | BackgroundDoubleClick | PhotoSelect(id: string)

  function Step(s: SceneState, e: Event): SceneState {
    match e
    case TreeDoubleClick => OnTreeDoubleClick(s)
    case BackgroundDoubleClick => OnBackgroundDoubleClick(s)
    case PhotoSelect(id) => OnPhotoSelect(s, id)
  }

  /** The state after handling the events in order. */
  function Run(s: SceneState, events: seq<Event>): SceneState
    decreases |events|
  {
    if |events| == 0 then s else Run(Step(s, events[0]), events[1..])
  }

  /** Each handler keeps "a photo is focused only in galaxy mode". */
  lemma StepKeepsInvariant(s: SceneState, e: Event)
    requires FocusNeedsGalaxy(s)
    ensures FocusNeedsGalaxy(Step(s, e))
  {
  }

  /** Any sequence of gestures keeps the invariant. */
  lemma {:induction false} RunKeepsInvariant(s: SceneState, events: seq<Event>)
    requires FocusNeedsGalaxy(s)
    ensures FocusNeedsGalaxy(Run(s, events))
    decreases |events|
  {
    if |events| > 0 {
      StepKeepsInvariant(s, events[0]);
      RunKeepsInvariant(Step(s, events[0]), events[1..]);
    }
  }

  /** Conversely every state with the invariant can be reached from the initial
      state, so the invariant describes exactly the reachable states. */
  lemma EveryInvariantStateReachable(s: SceneState)
    requires FocusNeedsGalaxy(s)
    ensures exists events :: Run(INITIAL, events) == s
  {
    if !s.isExploded {
      assert Run(INITIAL, []) == s;
    } else if s.focusedPhotoId.None? {
      var events := [TreeDoubleClick];
      assert Run(INITIAL, events) == Run(s, []) == s;
    } else {
      var id := s.focusedPhotoId.value;
      var events := [TreeDoubleClick, PhotoSelect(id)];
      assert events[1..] == [PhotoSelect(id)];
      assert Run(INITIAL, events) == Run(SceneState(true, None), [PhotoSelect(id)]);
      assert Run(SceneState(true, None), [PhotoSelect(id)]) == Run(s, []) == s;
    }
  }

  /** From any reachable state a background double-click returns to the initial
      state: in tree mode nothing can be focused, so there is nothing to clear. */
  lemma BackgroundAlwaysResets(s: SceneState)
    requires FocusNeedsGalaxy(s)
    ensures OnBackgroundDoubleClick(s) == INITIAL
  {
  }

  /** Selecting the same photo twice in galaxy mode ends with that photo focused
      exactly when it was focused at the start. */
  lemma SelectTwice(s: SceneState, id: string)
    requires s.isExploded
    ensures var r := OnPhotoSelect(OnPhotoSelect(s, id), id);
            r.isExploded && (r.focusedPhotoId == Some(id) <==> s.focusedPhotoId == Some(id))
            && (s.focusedPhotoId == Some(id) || s.focusedPhotoId == None ==> r == s)
  {
  }

  /** A sample session: explode, focus p-3, unfocus it, focus p-3 again, switch
      straight to p-7, then collapse back to the tree from the focused state. */
  lemma SampleSession()
    ensures Run(INITIAL, [TreeDoubleClick]) == SceneState(true, None)
    ensures Run(INITIAL, [TreeDoubleClick, PhotoSelect("p-3")]) == SceneState(true, Some("p-3"))
    ensures Run(INITIAL, [TreeDoubleClick, PhotoSelect("p-3"), PhotoSelect("p-3")]) == SceneState(true, None)
    ensures Run(INITIAL, [TreeDoubleClick, PhotoSelect("p-3"), PhotoSelect("p-3"), PhotoSelect("p-3"), PhotoSelect("p-7")])
              == SceneState(true, Some("p-7"))
    ensures Run(INITIAL, [TreeDoubleClick, PhotoSelect("p-7"), TreeDoubleClick, BackgroundDoubleClick]) == INITIAL
  {
    assert "p-3" != "p-7" by { assert "p-3"[2] != "p-7"[2]; }
  }

  /** A click on a photo, end to end: the photo forwards it only in galaxy mode and
      the handler acts on it. In tree mode nothing changes; in galaxy mode the
      clicked photo becomes focused exactly when it was not, the mode stays, and
      the invariant holds afterwards. */
  lemma PhotoClickEffect(s: SceneState, data: PhotoData)
    requires FocusNeedsGalaxy(s)
    ensures var c := Photo.OnClick(data, s.isExploded);
            var r := if c.selected.Some? then OnPhotoSelect(s, c.selected.value) else s;
            && FocusNeedsGalaxy(r)
            && (!s.isExploded ==> r == s)
            && (s.isExploded ==> r.isExploded && (IsFocused(r, data.place.id) <==> !IsFocused(s, data.place.id)))
  {
  }

  /** Selecting a photo never moves an ornament: ornaments depend on the mode only,
      and selection keeps the mode. */
  lemma PhotoSelectKeepsDecorations(s: SceneState, id: string, d: DecorationData)
    ensures Decorations.TargetPose(d, OnPhotoSelect(s, id).isExploded) == Decorations.TargetPose(d, s.isExploded)
    ensures Decorations.EmissiveIntensity(OnPhotoSelect(s, id).isExploded) == Decorations.EmissiveIntensity(s.isExploded)
  {
  }

  /** The indices of the photos handed isFocused = true, the only prop that selects
      the focus pose and the focus scale. */
  ghost function FocusedIndices(s: SceneState, photos: seq<PhotoData>): set<int> {
    set i | 0 <= i < |photos| && IsFocused(s, photos[i].place.id)
  }

  /** With distinct ids at most one photo is focused at a time, and when the focused
      id belongs to one of the photos, exactly that photo is. */
  lemma {:induction false} AtMostOneFocused(s: SceneState, photos: seq<PhotoData>)
    requires forall a, b :: 0 <= a < b < |photos| ==> photos[a].place.id != photos[b].place.id
    ensures |FocusedIndices(s, photos)| <= 1
    ensures forall k :: 0 <= k < |photos| && IsFocused(s, photos[k].place.id) ==> FocusedIndices(s, photos) == {k}
  {
    forall k | 0 <= k < |photos| && IsFocused(s, photos[k].place.id)
      ensures FocusedIndices(s, photos) == {k}
    {
      forall i | i in FocusedIndices(s, photos)
        ensures i == k
      {
        assert photos[i].place.id == photos[k].place.id;
      }
    }
    if FocusedIndices(s, photos) != {} {
      var k :| k in FocusedIndices(s, photos);
      assert FocusedIndices(s, photos) == {k};
    }
  }

  // ------------------------------------------------------------ star and camera

  /** The values the star's tweens aim at: its position, its uniform scale, and the
      delay before the scale tween starts. */
  datatype StarTarget = StarTarget(position: Vec3, scale: real, scaleDelay: real)

  /** Where the star is mounted: just above the apex of the tree. */
  const STAR_MOUNT_POSITION: Vec3 := Vec3(0.0, TREE_HEIGHT / 2.0 + 0.5, 0.0)

  /** In galaxy mode the star rises to y = 10 and shrinks to nothing at once; in
      tree mode it returns above the apex and grows back after a one-second delay. */
  function StarTargetFor(isExploded: bool): (t: StarTarget)
    ensures t.position.x == 0.0 && t.position.z == 0.0
    ensures isExploded ==> t.position.y == 10.0 && t.scale == 0.0 && t.scaleDelay == 0.0
    ensures !isExploded ==> t.position == STAR_MOUNT_POSITION && t.scale == 1.0 && t.scaleDelay == 1.0
  {
    var targetY := if isExploded then 10.0 else TREE_HEIGHT / 2.0 + 0.5;
    if isExploded then StarTarget(Vec3(0.0, targetY, 0.0), 0.0, 0.0)
    else StarTarget(Vec3(0.0, targetY, 0.0), 1.0, 1.0)
  }

  /** In tree mode the star sits above every photo and every ornament on the tree,
      and in galaxy mode it is invisible. */
  lemma StarCrownsTree(m: Trig, i: int, j: int)
    requires 0 <= i < |PHOTO_URLS| && 0 <= j < DECORATION_COUNT
    ensures TreePlacementAt(i, |PHOTO_URLS|, TREE_RADIUS, TREE_HEIGHT, m).pos.y < StarTargetFor(false).position.y
    ensures TreePlacementAt(j, DECORATION_COUNT, DECORATION_TREE_RADIUS, TREE_HEIGHT, m).pos.y < StarTargetFor(false).position.y
    ensures StarTargetFor(true).scale == 0.0
  {
    TreeRadiusAndHeight(i, |PHOTO_URLS|, TREE_RADIUS, TREE_HEIGHT, m);
    TreeRadiusAndHeight(j, DECORATION_COUNT, DECORATION_TREE_RADIUS, TREE_HEIGHT, m);
  }

  /** The OrbitControls switches the scene sets. */
  datatype Controls = Controls(enablePan: bool, enableZoom: bool, autoRotate: bool)

  /** JavaScript truthiness of focusedPhotoId: null and the empty string are falsy. */
  predicate FocusTruthy(focus: Option<string>) {
    focus.Some? && focus.value != ""
  }

  /** Panning is always off; zoom is on only in tree mode; the camera turns by itself
      only in tree mode with no (truthy) focused id. */
  function ControlsFor(s: SceneState): (c: Controls)
    ensures !c.enablePan
    ensures c.enableZoom <==> !s.isExploded
    ensures c.autoRotate <==> !s.isExploded && (s.focusedPhotoId.None? || s.focusedPhotoId == Some(""))
  {
    Controls(false, !s.isExploded, !s.isExploded && !FocusTruthy(s.focusedPhotoId))
  }

  /** Under the invariant the focus test is redundant: the camera auto-rotates
      exactly in tree mode, and whenever zoom is on. */
  lemma AutoRotateExactlyInTreeMode(s: SceneState)
    requires FocusNeedsGalaxy(s)
    ensures ControlsFor(s).autoRotate <==> !s.isExploded
    ensures ControlsFor(s).autoRotate <==> ControlsFor(s).enableZoom
  {
  }

  // ------------------------------------------------------------ the component

  /** ExperienceContent: the two state cells, updated in place by the handlers, and
      the data memoised on mount. */
  class ExperienceContent {
    var isExploded: bool
    var focusedPhotoId: Option<string>
    const photosData: seq<PhotoData>
    const decorationsData: seq<DecorationData>

    function State(): SceneState
      reads this
    {
      SceneState(isExploded, focusedPhotoId)
    }

    ghost predicate Valid()
      reads this
    {
      FocusNeedsGalaxy(State())
    }

    /** Mounting: the initial state and the data built from the draws. */
    constructor (photoDraws: nat -> PhotoDraws, decorationDraws: nat -> DecorationDraws, m: Trig)
      ensures State() == INITIAL && Valid()
      ensures PhotosBuilt(photosData, photoDraws, m)
      ensures DecorationsBuilt(decorationsData, decorationDraws, m)
    {
      var photos := BuildPhotos(photoDraws, m);
      var decorations := BuildDecorations(decorationDraws, m);
      isExploded := false;
      focusedPhotoId := None;
      photosData := photos;
      decorationsData := decorations;
    }

    method HandleTreeDoubleClick()
      modifies this
      ensures State() == OnTreeDoubleClick(old(State()))
      ensures old(Valid()) ==> Valid()
    {
      if !isExploded {
        isExploded := true;
      }
    }

    method HandleBackgroundDoubleClick()
      modifies this
      ensures State() == OnBackgroundDoubleClick(old(State()))
      ensures old(Valid()) ==> Valid()
    {
      if isExploded {
        focusedPhotoId := None;
        isExploded := false;
      }
    }

    method HandlePhotoSelect(id: string)
      modifies this
      ensures State() == OnPhotoSelect(old(State()), id)
      ensures old(Valid()) ==> Valid()
    {
      if isExploded {
        if focusedPhotoId == Some(id) {
          focusedPhotoId := None;
        } else {
          focusedPhotoId := Some(id);
        }
      }
    }
  }
}
