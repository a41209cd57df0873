/**
 * Shapes of generator/geometry.ts: the Box with its face-colour broadcast, the
 * markup `toHtml` produces and the numbers `toCss` emits, the placeholder
 * Plane, and the Camera. Outputs are structured values, not text: a markup tree
 * of class-tagged `div`s, and a style record holding the numbers of each rule.
 */
module Geometry {
  import opened Wrappers
  import Vectors

  /** `FRAME_RATE`: frames per second of the emitted animation. */
  const FRAME_RATE: real := 60.0

  /** One authoring-tool keyframe: a frame number and the loc/scale/rot snapshot at it. */
  datatype Keyframe = Keyframe(frame: int, loc: seq<real>, scale: seq<real>, rot: seq<real>)

  /** The viewpoint: a position and a rotation; only the position is ever read by a shape. */
  datatype Camera = Camera(pos: seq<real>, rot: seq<real>)

  /** A box: `rot` is axis-angle with the angle (degrees) in slot 0 and the axis in slots 1..3. */
  datatype Box = Box(
    index: int,
    pos: seq<real>,
    size: seq<real>,
    rot: seq<real>,
    faceColors: seq<string>,
    totalFrames: int,
    keyframes: seq<Keyframe>)

  datatype Shape = BoxShape(box: Box) | PlaneShape

  datatype Face = Front | Back | Right | Left | Top | Bottom

  datatype RenderError = NotImplemented | NoCamera

  /** The `Box` constructor: a single colour is copied to all six faces; any other colour
    * list (of whatever length) is kept as it is. */
  function NewBox(pos: seq<real>, size: seq<real>, rot: seq<real>, faceColors: seq<string>,
                  keyframes: seq<Keyframe>, index: int, totalFrames: int): (b: Box)
    ensures b.index == index && b.pos == pos && b.size == size && b.rot == rot
    ensures b.keyframes == keyframes && b.totalFrames == totalFrames
    ensures |faceColors| == 1 ==>
      |b.faceColors| == 6 && forall k :: 0 <= k < 6 ==> b.faceColors[k] == faceColors[0]
    ensures |faceColors| != 1 ==> b.faceColors == faceColors
  {
    var colors :=
      if |faceColors| == 1 then
        var c := faceColors[0]; [c, c, c, c, c, c]
      else faceColors;
    Box(index, pos, size, rot, colors, totalFrames, keyframes)
  }

  /** Given one or six colours, a box always ends up with six. */
  lemma NewBoxHasSixColors(pos: seq<real>, size: seq<real>, rot: seq<real>, faceColors: seq<string>,
                           keyframes: seq<Keyframe>, index: int, totalFrames: int)
    requires |faceColors| == 1 || |faceColors| == 6
    ensures |NewBox(pos, size, rot, faceColors, keyframes, index, totalFrames).faceColors| == 6
  {
  }

  // ---------------------------------------------------------------- markup

  /** The classes `toHtml` and the scene wrapper put on their `div`s:
    * `scene`, `box_<i>`, `box_face_<i>` and `box_face_<i>_<face>`. */
  datatype ClassName = SceneClass | BoxClass(index: int) | FaceClass(index: int) | FaceNameClass(index: int, face: Face)

  datatype Element = Div(classes: seq<ClassName>, children: seq<Element>)

  /** The order in which `toHtml` lists the face `div`s. */
  const MARKUP_FACES: seq<Face> := [Front, Back, Right, Left, Top, Bottom]

  /** The `div` of one face of box `index`. */
  function FaceDiv(index: int, face: Face): Element
  {
    Div([FaceClass(index), FaceNameClass(index, face)], [])
  }

  /** `Box.toHtml`: one container `box_<index>` holding six childless face `div`s, each
    * carrying the shared face class and its own face-name class, both tagged with the index. */
  function BoxToHtml(b: Box): (e: Element)
    ensures e.classes == [BoxClass(b.index)]
    ensures |e.children| == 6
    ensures forall k :: 0 <= k < 6 ==>
      e.children[k].children == [] &&
      e.children[k].classes == [FaceClass(b.index), FaceNameClass(b.index, MARKUP_FACES[k])]
  {
    Div([BoxClass(b.index)], seq(6, k requires 0 <= k < 6 => FaceDiv(b.index, MARKUP_FACES[k])))
  }

  /** Every class name occurring anywhere in an element tree. */
  function ClassesOf(e: Element): set<ClassName>
    decreases e
  {
    (set c | c in e.classes)
    + (set k, c | 0 <= k < |e.children| && c in ClassesOf(e.children[k]) :: c)
  }

  /** The six face `div`s name each face exactly once: every face has one child, and no two
    * children name the same face. */
  lemma MarkupNamesEachFaceOnce(b: Box, f: Face)
    ensures exists k :: 0 <= k < 6 && FaceNameClass(b.index, f) in BoxToHtml(b).children[k].classes
    ensures forall j, k :: 0 <= j < k < 6 ==> BoxToHtml(b).children[j] != BoxToHtml(b).children[k]
  {
    var e := BoxToHtml(b);
    var k := match f
      case Front => 0 case Back => 1 case Right => 2 case Left => 3 case Top => 4 case Bottom => 5;
    assert FaceNameClass(b.index, f) == e.children[k].classes[1];
    forall j, m | 0 <= j < m < 6 ensures e.children[j] != e.children[m] {
      assert e.children[j].classes[1] != e.children[m].classes[1];
    }
  }

  /** Every class in a box's markup carries that box's index, so boxes with different indices
    * share no class name and each stylesheet rule targets one box only. */
  lemma MarkupClassesCarryIndex(a: Box, b: Box)
    ensures forall c :: c in ClassesOf(BoxToHtml(a)) ==> !c.SceneClass? && c.index == a.index
    ensures a.index != b.index ==> ClassesOf(BoxToHtml(a)) !! ClassesOf(BoxToHtml(b))
  {
    forall x: Box ensures forall c :: c in ClassesOf(BoxToHtml(x)) ==> !c.SceneClass? && c.index == x.index {
      var e := BoxToHtml(x);
      forall k | 0 <= k < 6 ensures ClassesOf(e.children[k]) == {FaceClass(x.index), FaceNameClass(x.index, MARKUP_FACES[k])} {
        assert e.children[k] == FaceDiv(x.index, MARKUP_FACES[k]);
      }
    }
  }

  // ---------------------------------------------------------------- styles

  /** Where a transform places an element: the three translate amounts (the numbers written
    * inside `calc(50vw - …px)`, `calc(50vh - …px)` and `translateZ(…px)`) and the
    * `rotate3D(axis…, angle deg)` that follows them. */
  datatype Placement = Placement(tx: real, ty: real, tz: real, axis: seq<real>, angle: real)

  /** One `<percent>% { transform: … }` stop of the box's `@keyframes` block. */
  datatype Stop = Stop(percent: int, placement: Placement)

  datatype TurnAxis = AroundY | AroundX

  /** The numbers of one face's rules: its size, the `left:`/`top:` offset it has (if any),
    * its `background`, and its `rotateY`/`rotateX(<degrees>) translateZ(<depth>px)` turn. */
  datatype FaceStyle = FaceStyle(
    face: Face,
    width: real,
    height: real,
    left: Option<real>,
    top: Option<real>,
    background: Option<string>,
    turnAxis: TurnAxis,
    turnDegrees: int,
    depth: real)

  /** What `Box.toCss` emits for a box: the container's size and transform, the animation's
    * duration, the stops of the `box_<index>_animation` block, and the face rules. */
  datatype BoxStyle = BoxStyle(
    index: int,
    width: real,
    height: real,
    placement: Placement,
    duration: real,
    stops: seq<Stop>,
    faces: seq<FaceStyle>)

  /** The order in which `toCss` writes the background/turn rules. */
  const STYLE_FACES: seq<Face> := [Front, Right, Back, Left, Top, Bottom]

  predicate WellFormedKeyframe(k: Keyframe)
  {
    |k.loc| >= 3 && |k.scale| >= 3 && |k.rot| >= 4
  }

  /** A box whose vectors have the slots `toCss` reads, and whose keyframe percentages are
    * defined (a keyframe needs a positive frame count to divide by). */
  predicate WellFormedBox(b: Box)
  {
    |b.pos| >= 3 && |b.size| >= 3 && |b.rot| >= 4
    && (forall i :: 0 <= i < |b.keyframes| ==> WellFormedKeyframe(b.keyframes[i]))
    && (b.keyframes != [] ==> b.totalFrames > 0)
  }

  predicate WellFormedCamera(c: Camera)
  {
    |c.pos| >= 3
  }

  /** The transform `toCss` writes for an element at `pos` with extent `size` and rotation
    * `rot`: each translate is the element's centre minus the camera position; the rotation
    * axis is `rot[1..4]` and its angle `rot[0]`. */
  function PlacementOf(pos: seq<real>, size: seq<real>, rot: seq<real>, cam: Camera): (p: Placement)
    requires |pos| >= 3 && |size| >= 3 && |rot| >= 4 && WellFormedCamera(cam)
    ensures p.tx + cam.pos[0] == pos[0] + size[0] / 2.0
    ensures p.ty + cam.pos[1] == pos[1] + size[1] / 2.0
    ensures p.tz + cam.pos[2] == pos[2] + size[2] / 2.0
    ensures p.axis == rot[1..4] && p.angle == rot[0]
  {
    Placement(pos[0] + size[0] / 2.0 - cam.pos[0],
              pos[1] + size[1] / 2.0 - cam.pos[1],
              pos[2] + size[2] / 2.0 - cam.pos[2],
              rot[1..4], rot[0])
  }

  /** Only relative position matters: moving the element and the camera by the same amount
    * leaves the transform unchanged, which is how the camera appears to move the world. */
  lemma PlacementIsCameraRelative(pos: seq<real>, size: seq<real>, rot: seq<real>, cam: Camera, d: seq<real>)
    requires |pos| == 3 && |size| >= 3 && |rot| >= 4 && |cam.pos| == 3 && |d| == 3
    ensures PlacementOf(Vectors.Sum(pos, d), size, rot, cam.(pos := Vectors.Sum(cam.pos, d)))
         == PlacementOf(pos, size, rot, cam)
  {
  }

  /** The keyframe percentage `Math.floor(frame / totalFrames * 100)`, in exact arithmetic. */
  function Percent(frame: int, totalFrames: int): (p: int)
    requires totalFrames > 0
    ensures p as real <= (frame as real / totalFrames as real) * 100.0 < (p + 1) as real
  {
    ((frame as real / totalFrames as real) * 100.0).Floor
  }

  /** Multiplying both sides by the same positive number keeps their order. */
  lemma RealCancel(a: real, b: real, t: real)
    requires t > 0.0
    ensures a * t <= b * t ==> a <= b
    ensures a * t < b * t ==> a < b
  {
  }

  lemma IntCancel(a: int, b: int, t: int)
    requires t > 0
    ensures a * t <= b * t ==> a <= b
    ensures a * t < b * t ==> a < b
  {
  }

  /** The percentage is the integer quotient of `100 * frame` by the frame count. */
  lemma PercentIsQuotient(frame: int, totalFrames: int)
    requires totalFrames > 0
    ensures Percent(frame, totalFrames) == (100 * frame) / totalFrames
  {
    var t := totalFrames as real;
    var q := (100 * frame) / totalFrames;
    var x := (frame as real / t) * 100.0;
    assert x * t == (100 * frame) as real;
    assert q * totalFrames <= 100 * frame < (q + 1) * totalFrames;
    assert (q * totalFrames) as real == q as real * t;
    assert ((q + 1) * totalFrames) as real == (q as real + 1.0) * t;
    RealCancel(q as real, x, t);
    RealCancel(x, q as real + 1.0, t);
  }

  /** A frame within the loop lands in [0, 100]; the last frame lands on exactly 100. */
  lemma PercentInRange(frame: int, totalFrames: int)
    requires totalFrames > 0 && 0 <= frame <= totalFrames
    ensures 0 <= Percent(frame, totalFrames) <= 100
    ensures frame == totalFrames ==> Percent(frame, totalFrames) == 100
  {
    PercentIsQuotient(frame, totalFrames);
    var t := totalFrames;
    var q := (100 * frame) / t;
    assert q * t <= 100 * frame < (q + 1) * t;
    assert 100 * frame <= 100 * t;
    IntCancel(q, 100, t);
    assert 0 * t <= 100 * frame;
    IntCancel(0, q + 1, t);
    if frame == t {
      IntCancel(100, q + 1, t);
    }
  }

  /** Later frames never get an earlier percentage. */
  lemma PercentMonotone(f1: int, f2: int, totalFrames: int)
    requires totalFrames > 0 && f1 <= f2
    ensures Percent(f1, totalFrames) <= Percent(f2, totalFrames)
  {
    PercentIsQuotient(f1, totalFrames);
    PercentIsQuotient(f2, totalFrames);
    var q1, q2 := (100 * f1) / totalFrames, (100 * f2) / totalFrames;
    assert q1 * totalFrames <= 100 * f1 <= 100 * f2 < (q2 + 1) * totalFrames;
    IntCancel(q1, q2 + 1, totalFrames);
  }

  /** The stop `toCss` writes for one keyframe: its percentage, with the box transform
    * recomputed from the keyframe's loc, scale and rot. */
  function StopOf(k: Keyframe, totalFrames: int, cam: Camera): (s: Stop)
    requires WellFormedKeyframe(k) && totalFrames > 0 && WellFormedCamera(cam)
    ensures 0 <= k.frame <= totalFrames ==> 0 <= s.percent <= 100
    ensures s.placement.tx + cam.pos[0] == k.loc[0] + k.scale[0] / 2.0
    ensures s.placement.ty + cam.pos[1] == k.loc[1] + k.scale[1] / 2.0
    ensures s.placement.tz + cam.pos[2] == k.loc[2] + k.scale[2] / 2.0
    ensures s.placement.axis == k.rot[1..4] && s.placement.angle == k.rot[0]
  {
    var p := Percent(k.frame, totalFrames);
    assert 0 <= k.frame <= totalFrames ==> 0 <= p <= 100 by {
      if 0 <= k.frame <= totalFrames {
        PercentInRange(k.frame, totalFrames);
      }
    }
    Stop(p, PlacementOf(k.loc, k.scale, k.rot, cam))
  }

  /** Which colour slot paints each face: front 0, left 1, back 2, right 3, top 4, bottom 5. */
  function ColorSlot(f: Face): (k: nat)
    ensures k < 6
  {
    match f
    case Front => 0
    case Left => 1
    case Back => 2
    case Right => 3
    case Top => 4
    case Bottom => 5
  }

  /** The face order of colour lists: front, left, back, right, top, bottom. */
  const COLOR_ORDER: seq<Face> := [Front, Left, Back, Right, Top, Bottom]

  /** Distinct faces read distinct colour slots, so the table is a bijection onto 0..5. */
  lemma ColorSlotIsBijective()
    ensures forall f, g: Face :: f != g ==> ColorSlot(f) != ColorSlot(g)
    ensures forall k :: 0 <= k < 6 ==> ColorSlot(COLOR_ORDER[k]) == k
  {
    assert ColorSlot(Front) == 0 && ColorSlot(Left) == 1 && ColorSlot(Back) == 2;
    assert ColorSlot(Right) == 3 && ColorSlot(Top) == 4 && ColorSlot(Bottom) == 5;
  }

  /** `faceColors[k]`, which is `undefined` when the list is shorter. */
  function ColorAt(colors: seq<string>, k: nat): (r: Option<string>)
    ensures r.Some? <==> k < |colors|
    ensures r.Some? ==> r.value == colors[k]
  {
    if k < |colors| then Some(colors[k]) else None
  }

  /** The rules of one face: front and back are size.x by size.y; left and right are size.z
    * by size.y, moved left by size.x/2 - size.z/2; top and bottom are size.x by size.z, moved
    * down by size.y/2 - size.z/2. Each face turns to its side (front 0, right 90, back 180,
    * left -90 degrees about Y; top 90, bottom -90 about X) and is pushed out by half the
    * extent across it. */
  function FaceStyleOf(f: Face, size: seq<real>, colors: seq<string>): (r: FaceStyle)
    requires |size| >= 3
    ensures r.face == f && r.background == ColorAt(colors, ColorSlot(f))
    ensures f in {Front, Back} ==> r.left.None? && r.top.None? && r.turnAxis == AroundY
    ensures f in {Left, Right} ==> r.left.Some? && r.top.None? && r.turnAxis == AroundY
    ensures f in {Top, Bottom} ==> r.left.None? && r.top.Some? && r.turnAxis == AroundX
    ensures r.turnDegrees in {0, 90, 180, -90}
    ensures r.turnDegrees == TurnOf(f)
  {
    var background := ColorAt(colors, ColorSlot(f));
    match f
    case Front  => FaceStyle(f, size[0], size[1], None, None, background, AroundY, 0, size[2] / 2.0)
    case Back   => FaceStyle(f, size[0], size[1], None, None, background, AroundY, 180, size[2] / 2.0)
    case Right  => FaceStyle(f, size[2], size[1], Some(size[0] / 2.0 - size[2] / 2.0), None, background, AroundY, 90, size[0] / 2.0)
    case Left   => FaceStyle(f, size[2], size[1], Some(size[0] / 2.0 - size[2] / 2.0), None, background, AroundY, -90, size[0] / 2.0)
    case Top    => FaceStyle(f, size[0], size[2], None, Some(size[1] / 2.0 - size[2] / 2.0), background, AroundX, 90, size[1] / 2.0)
    case Bottom => FaceStyle(f, size[0], size[2], None, Some(size[1] / 2.0 - size[2] / 2.0), background, AroundX, -90, size[1] / 2.0)
  }

  /** The angle each face is turned by: front 0, right 90, back 180 and left -90 degrees
    * about Y; top 90 and bottom -90 degrees about X. */
  function TurnOf(f: Face): int
  {
    match f
    case Front => 0
    case Right => 90
    case Back => 180
    case Left => -90
    case Top => 90
    case Bottom => -90
  }

  /** `Box.toCss(camera)`, as the numbers it writes. */
  function BoxToCss(b: Box, cam: Camera): (s: BoxStyle)
    requires WellFormedBox(b) && WellFormedCamera(cam)
    ensures s.index == b.index && s.width == b.size[0] && s.height == b.size[1]
    ensures s.placement == PlacementOf(b.pos, b.size, b.rot, cam)
    ensures s.duration * FRAME_RATE == b.totalFrames as real
    ensures |s.stops| == |b.keyframes|
    ensures forall i :: 0 <= i < |b.keyframes| ==>
      s.stops[i].percent == Percent(b.keyframes[i].frame, b.totalFrames) &&
      s.stops[i].placement == PlacementOf(b.keyframes[i].loc, b.keyframes[i].scale, b.keyframes[i].rot, cam)
    ensures |s.faces| == 6
    ensures forall k :: 0 <= k < 6 ==> s.faces[k].face == STYLE_FACES[k]
  {
    var kfs := b.keyframes;
    BoxStyle(
      b.index, b.size[0], b.size[1],
      PlacementOf(b.pos, b.size, b.rot, cam),
      b.totalFrames as real / FRAME_RATE,
      seq(|kfs|, i requires 0 <= i < |kfs| => StopOf(kfs[i], b.totalFrames, cam)),
      seq(6, k requires 0 <= k < 6 => FaceStyleOf(STYLE_FACES[k], b.size, b.faceColors)))
  }

  /** A keyframed box whose frames all lie within the loop gets every stop in [0, 100], in
    * non-decreasing order when the frames are; no stop is dropped or merged. */
  lemma StopsWithinLoop(b: Box, cam: Camera)
    requires WellFormedBox(b) && WellFormedCamera(cam)
    requires forall i :: 0 <= i < |b.keyframes| ==> 0 <= b.keyframes[i].frame <= b.totalFrames
    ensures |BoxToCss(b, cam).stops| == |b.keyframes|
    ensures forall i :: 0 <= i < |b.keyframes| ==> 0 <= BoxToCss(b, cam).stops[i].percent <= 100
    ensures (forall i, j :: 0 <= i < j < |b.keyframes| ==> b.keyframes[i].frame <= b.keyframes[j].frame) ==>
      forall i, j :: 0 <= i < j < |b.keyframes| ==> BoxToCss(b, cam).stops[i].percent <= BoxToCss(b, cam).stops[j].percent
  {
    var s := BoxToCss(b, cam);
    forall i | 0 <= i < |b.keyframes| ensures 0 <= s.stops[i].percent <= 100 {
      PercentInRange(b.keyframes[i].frame, b.totalFrames);
    }
    if forall i, j :: 0 <= i < j < |b.keyframes| ==> b.keyframes[i].frame <= b.keyframes[j].frame {
      forall i, j | 0 <= i < j < |b.keyframes| ensures s.stops[i].percent <= s.stops[j].percent {
        PercentMonotone(b.keyframes[i].frame, b.keyframes[j].frame, b.totalFrames);
      }
    }
  }

  /** The face rules of a box: opposite faces share their size, the side faces are centred
    * within the container, each face is pushed out by half the extent across it, and its
    * background is the colour the fixed table picks. */
  lemma FaceGeometry(b: Box, cam: Camera, f: Face)
    requires WellFormedBox(b) && WellFormedCamera(cam)
    ensures var faces := BoxToCss(b, cam).faces;
      exists k :: 0 <= k < 6 && faces[k].face == f &&
        faces[k].background == ColorAt(b.faceColors, ColorSlot(f)) &&
        faces[k].turnDegrees == TurnOf(f) &&
        (f in {Front, Back, Left, Right} ==> faces[k].turnAxis == AroundY) &&
        (f in {Top, Bottom} ==> faces[k].turnAxis == AroundX) &&
        (f in {Front, Back} ==> faces[k].width == b.size[0] && faces[k].height == b.size[1] && faces[k].depth == b.size[2] / 2.0) &&
        (f in {Left, Right} ==> faces[k].width == b.size[2] && faces[k].height == b.size[1] && faces[k].depth == b.size[0] / 2.0 &&
                                faces[k].left.Some? && faces[k].left.value + faces[k].width / 2.0 == b.size[0] / 2.0) &&
        (f in {Top, Bottom} ==> faces[k].width == b.size[0] && faces[k].height == b.size[2] && faces[k].depth == b.size[1] / 2.0 &&
                                faces[k].top.Some? && faces[k].top.value + faces[k].height / 2.0 == b.size[1] / 2.0)
  {
    var faces := BoxToCss(b, cam).faces;
    var k := match f
      case Front => 0 case Right => 1 case Back => 2 case Left => 3 case Top => 4 case Bottom => 5;
    assert faces[k] == FaceStyleOf(f, b.size, b.faceColors);
  }

  /** A box built from a single colour paints all six faces with it. */
  lemma SingleColorPaintsEveryFace(pos: seq<real>, size: seq<real>, rot: seq<real>, c: string,
                                   keyframes: seq<Keyframe>, index: int, totalFrames: int, cam: Camera)
    requires var b := NewBox(pos, size, rot, [c], keyframes, index, totalFrames); WellFormedBox(b)
    requires WellFormedCamera(cam)
    ensures var s := BoxToCss(NewBox(pos, size, rot, [c], keyframes, index, totalFrames), cam);
      forall k :: 0 <= k < 6 ==> s.faces[k].background == Some(c)
  {
    var b := NewBox(pos, size, rot, [c], keyframes, index, totalFrames);
    var s := BoxToCss(b, cam);
    forall k | 0 <= k < 6 ensures s.faces[k].background == Some(c) {
      assert s.faces[k] == FaceStyleOf(STYLE_FACES[k], b.size, b.faceColors);
    }
  }

  /** The camera's rotation never influences a box's styles. */
  lemma CameraRotationUnused(b: Box, c1: Camera, c2: Camera)
    requires WellFormedBox(b) && WellFormedCamera(c1) && c1.pos == c2.pos
    ensures BoxToCss(b, c1) == BoxToCss(b, c2)
  {
    var s1, s2 := BoxToCss(b, c1), BoxToCss(b, c2);
    assert s1.stops == s2.stops;
  }

  /** `Shape.toHtml`: a box renders; a plane always fails. */
  function ShapeToHtml(s: Shape): (r: Result<Element, RenderError>)
    ensures r.Ok? <==> s.BoxShape?
    ensures s.BoxShape? ==> r.value == BoxToHtml(s.box)
    ensures s.PlaneShape? ==> r.error == NotImplemented
  {
    match s
    case BoxShape(b) => Ok(BoxToHtml(b))
    case PlaneShape => Err(NotImplemented)
  }

  /** `Shape.toCss(camera)`: a box renders; a plane always fails. */
  function ShapeToCss(s: Shape, cam: Camera): (r: Result<BoxStyle, RenderError>)
    requires s.BoxShape? ==> WellFormedBox(s.box)
    requires WellFormedCamera(cam)
    ensures r.Ok? <==> s.BoxShape?
    ensures s.BoxShape? ==> r.value == BoxToCss(s.box, cam)
    ensures s.PlaneShape? ==> r.error == NotImplemented
  {
    match s
    case BoxShape(b) => Ok(BoxToCss(b, cam))
    case PlaneShape => Err(NotImplemented)
  }
}
