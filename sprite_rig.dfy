/** The per-frame planning of the sprite-rig driver (class AnimeCharacterDriver):
    which part image is drawn where, and in which order. Rotation, scaling and
    the angle function belong to the renderer and are passed in as function
    values; the screen is the sequence of blits issued to it. */
module SpriteRig {
  import opened Wrappers
  import opened Numerics
  import opened Pose
  import opened RigTables

  /** Where an image's pixels come from. */
  datatype Origin = FromFile(file: string) | TranslucentRed

  /** A raster as far as the planner sees it: its size and its origin. */
  datatype Image = Image(width: nat, height: nat, origin: Origin)

  /** A loaded rig part: its image and its anchor fraction. (The program also
      keeps the image's rectangle, which is (0, 0, width, height).) */
  datatype Part = Part(image: Image, anchor: (real, real))

  /** What the image loader yields for one file. */
  datatype LoadResult = Loaded(image: Image) | LoadFailed

  /** The renderer's operations the planner calls: rotation by an angle in
      degrees (counter-clockwise), scaling to a target size, and atan2 in degrees. */
  datatype Renderer = Renderer(
    rotate: (Image, real) -> Image,
    scale: (Image, int, int) -> Image,
    degreesAtan2: (real, real) -> real)

  /** One image drawn onto the screen with its top-left corner at `pos`;
      `part` records which rig part it is. */
  datatype Blit = Blit(part: PartName, image: Image, pos: (int, int))

  /** The 50x50 translucent red square that stands in for a missing image. */
  const PLACEHOLDER: Image := Image(50, 50, TranslucentRed)
  const PLACEHOLDER_ANCHOR: (real, real) := (0.5, 0.5)

  // ---------------------------------------------------------------------------
  // Asset loader

  /** The dictionary entry for one asset: the loaded image with the table's
      anchor, or the placeholder with a centred anchor when loading failed. */
  function LoadPart(asset: PartAsset, loaded: LoadResult): (p: Part)
    ensures loaded.Loaded? ==> p.image == loaded.image && p.anchor == asset.anchor
    ensures loaded.LoadFailed? ==>
              p.image.width == 50 && p.image.height == 50 && p.image.origin == TranslucentRed &&
              p.anchor == (0.5, 0.5)
  {
    match loaded
    case Loaded(img) => Part(img, asset.anchor)
    case LoadFailed => Part(PLACEHOLDER, PLACEHOLDER_ANCHOR)
  }

  /** The asset names are those of a dictionary: none occurs twice. */
  predicate UniqueNames(assets: seq<PartAsset>) {
    forall i, j :: 0 <= i < j < |assets| ==> assets[i].name != assets[j].name
  }

  /** Loads every part of the asset table; `load` stands for opening
      `<resource_dir>/<file>` and converting it to per-pixel alpha. No failure
      escapes: every part gets an entry. */
  method LoadCharacterParts(assets: seq<PartAsset>, load: string -> LoadResult) returns (parts: map<PartName, Part>)
    requires UniqueNames(assets)
    ensures parts.Keys == set i | 0 <= i < |assets| :: assets[i].name
    ensures forall i :: 0 <= i < |assets| ==> parts[assets[i].name] == LoadPart(assets[i], load(assets[i].file))
  {
    parts := map[];
    for i := 0 to |assets|
      invariant parts.Keys == set j | 0 <= j < i :: assets[j].name
      invariant forall j :: 0 <= j < i ==> parts[assets[j].name] == LoadPart(assets[j], load(assets[j].file))
    {
      var info := assets[i];
      match load(info.file)
      case Loaded(img) =>
        parts := parts[info.name := Part(img, info.anchor)];
      case LoadFailed =>
        parts := parts[info.name := Part(PLACEHOLDER, PLACEHOLDER_ANCHOR)];
    }
  }

  // ---------------------------------------------------------------------------
  // Keypoint normaliser

  const SHRINK: real := 0.7
  const CENTRE_OFFSET: real := 0.15

  /** Shrinks a keypoint toward the centre of the canvas; the confidence is kept. */
  function Normalise(lm: Landmark): (n: Landmark)
    ensures n.visibility == lm.visibility
    ensures 0.0 <= lm.x <= 1.0 ==> 0.15 <= n.x <= 0.85
    ensures 0.0 <= lm.y <= 1.0 ==> 0.15 <= n.y <= 0.85
  {
    Landmark(lm.x * SHRINK + CENTRE_OFFSET, lm.y * SHRINK + CENTRE_OFFSET, lm.visibility)
  }

  /** Every keypoint normalised, in order. */
  function Normalised(landmarks: seq<Landmark>): seq<Landmark> {
    seq(|landmarks|, i requires 0 <= i < |landmarks| => Normalise(landmarks[i]))
  }

  /** Copies the keypoints and then shifts each copy in place. */
  method OffsetLandmarks(landmarks: seq<Landmark>) returns (offset: seq<Landmark>)
    ensures |offset| == |landmarks|
    ensures forall i :: 0 <= i < |landmarks| ==> offset[i] == Normalise(landmarks[i])
  {
    offset := [];
    for i := 0 to |landmarks|
      invariant offset == landmarks[..i]
    {
      var lm := landmarks[i];
      offset := offset + [Landmark(lm.x, lm.y, lm.visibility)];
    }
    for i := 0 to |offset|
      invariant |offset| == |landmarks|
      invariant forall j :: 0 <= j < i ==> offset[j] == Normalise(landmarks[j])
      invariant forall j :: i <= j < |offset| ==> offset[j] == landmarks[j]
    {
      var lm := offset[i];
      lm := lm.(x := lm.x * 0.7 + 0.15);
      lm := lm.(y := lm.y * 0.7 + 0.15);
      offset := offset[i := lm];
    }
  }

  /** A detector keypoint inside its image lands at a pixel strictly inside the
      window once normalised and truncated. */
  lemma NormalisedPixelOnScreen(lm: Landmark, width: nat, height: nat)
    requires 0.0 <= lm.x <= 1.0 && 0.0 <= lm.y <= 1.0
    requires width > 0 && height > 0
    ensures 0 <= ToPixel(Normalise(lm), width, height).0 < width
    ensures 0 <= ToPixel(Normalise(lm), width, height).1 < height
  {
    var n := Normalise(lm);
    TruncScaledInRange(n.x, width);
    TruncScaledInRange(n.y, height);
  }

  // ---------------------------------------------------------------------------
  // Part transform solver

  /** The pixel of a keypoint: `int(x * width)`, `int(y * height)`. */
  function ToPixel(lm: Landmark, width: nat, height: nat): (int, int) {
    (Trunc(lm.x * width as real), Trunc(lm.y * height as real))
  }

  /** The angle, in degrees, of the vector from `start` to `end`; the vertical
      difference is negated because screen y grows downward. */
  function CalculateRotation(degreesAtan2: (real, real) -> real, start: (int, int), end: (int, int)): real {
    var dx := end.0 - start.0;
    var dy := end.1 - start.1;
    degreesAtan2(-dy as real, dx as real)
  }

  /** The values atan2 (in degrees) takes on the axes. */
  ghost predicate AxisAngles(degreesAtan2: (real, real) -> real) {
    degreesAtan2(0.0, 0.0) == 0.0 &&
    (forall x: real :: x > 0.0 ==> degreesAtan2(0.0, x) == 0.0) &&
    (forall x: real :: x < 0.0 ==> degreesAtan2(0.0, x) == 180.0) &&
    (forall y: real :: y > 0.0 ==> degreesAtan2(y, 0.0) == 90.0) &&
    (forall y: real :: y < 0.0 ==> degreesAtan2(y, 0.0) == -90.0)
  }

  /** The angle depends only on the difference of the two points. */
  lemma RotationTranslationInvariant(f: (real, real) -> real, start: (int, int), end: (int, int), v: (int, int))
    ensures CalculateRotation(f, (start.0 + v.0, start.1 + v.1), (end.0 + v.0, end.1 + v.1))
         == CalculateRotation(f, start, end)
  {
  }

  /** Right is 0 degrees, left 180, screen-up 90, screen-down -90, and a
      degenerate vector 0. */
  lemma RotationOnAxes(f: (real, real) -> real, start: (int, int), end: (int, int))
    requires AxisAngles(f)
    ensures end.1 == start.1 && end.0 > start.0 ==> CalculateRotation(f, start, end) == 0.0
    ensures end.1 == start.1 && end.0 < start.0 ==> CalculateRotation(f, start, end) == 180.0
    ensures end.0 == start.0 && end.1 < start.1 ==> CalculateRotation(f, start, end) == 90.0
    ensures end.0 == start.0 && end.1 > start.1 ==> CalculateRotation(f, start, end) == -90.0
    ensures end == start ==> CalculateRotation(f, start, end) == 0.0
  {
    var dx := (end.0 - start.0) as real;
    var dy := -(end.1 - start.1) as real;
    assert CalculateRotation(f, start, end) == f(dy, dx);
  }

  /** `binding[1].value if binding[1] else None`: the landmark enumeration is an
      integer enumeration, so an end bound to NOSE (value 0) reads as absent. */
  function EndIndex(binding: Binding): Option<nat> {
    if binding.end.Some? && binding.end.value != NOSE then binding.end else None
  }

  /** The rotation of a part: 0 unless it has an end landmark within the
      sequence, in which case it is the angle between the two pixels. */
  function PartAngle(landmarks: seq<Landmark>, binding: Binding, width: nat, height: nat,
                     degreesAtan2: (real, real) -> real): (angle: real)
    requires binding.start < |landmarks|
    ensures (EndIndex(binding).None? || EndIndex(binding).value >= |landmarks|) ==> angle == 0.0
  {
    var end := EndIndex(binding);
    if end.Some? && end.value < |landmarks| then
      CalculateRotation(degreesAtan2,
                        ToPixel(landmarks[binding.start], width, height),
                        ToPixel(landmarks[end.value], width, height))
    else
      0.0
  }

  /** The angle reads only the start keypoint and, when it is in range, the end keypoint. */
  lemma PartAngleReadsOnlyBoundLandmarks(l1: seq<Landmark>, l2: seq<Landmark>, binding: Binding,
                                         width: nat, height: nat, f: (real, real) -> real)
    requires binding.start < |l1| && |l1| == |l2| && l1[binding.start] == l2[binding.start]
    requires EndIndex(binding).Some? && EndIndex(binding).value < |l1| ==>
               l1[EndIndex(binding).value] == l2[EndIndex(binding).value]
    ensures PartAngle(l1, binding, width, height, f) == PartAngle(l2, binding, width, height, f)
  {
  }

  /** The outcome of transforming one part: the rotated image and its top-left
      position, or the IndexError raised when the start landmark is missing. */
  datatype Transformed = Placed(image: Image, pos: (int, int)) | IndexError

  /** Places one part: the start keypoint's pixel is the centre of the rotated
      image's bounding box. The anchor is computed by the program but never
      used, so it plays no part here. */
  function TransformPart(part: Part, landmarks: seq<Landmark>, binding: Binding, scale: real,
                         width: nat, height: nat, r: Renderer): (t: Transformed)
    ensures t.Placed? <==> binding.start < |landmarks|
    ensures t.Placed? ==>
              var (sx, sy) := ToPixel(landmarks[binding.start], width, height);
              t.pos.0 <= sx <= t.pos.0 + t.image.width &&
              t.pos.1 <= sy <= t.pos.1 + t.image.height &&
              0 <= (t.pos.0 + t.image.width - sx) - (sx - t.pos.0) <= 1 &&
              0 <= (t.pos.1 + t.image.height - sy) - (sy - t.pos.1) <= 1
    ensures t.Placed? && scale == 1.0 ==>
              t.image == r.rotate(part.image, -PartAngle(landmarks, binding, width, height, r.degreesAtan2))
  {
    if binding.start >= |landmarks| then
      IndexError
    else
      var start := ToPixel(landmarks[binding.start], width, height);
      var angle := PartAngle(landmarks, binding, width, height, r.degreesAtan2);
      var rotated := r.rotate(ScaledImage(part.image, scale, r), -angle);
      Placed(rotated, (start.0 - rotated.width / 2, start.1 - rotated.height / 2))
  }

  /** The image handed to rotation: scaled to `int(w * scale)` x `int(h * scale)`
      unless the scale is exactly 1.0, in which case it is the original. */
  function ScaledImage(image: Image, scale: real, r: Renderer): Image {
    if scale != 1.0 then
      r.scale(image, Trunc(image.width as real * scale), Trunc(image.height as real * scale))
    else
      image
  }

  /** The anchor fraction never affects the placement. */
  lemma AnchorIgnored(part: Part, anchor: (real, real), landmarks: seq<Landmark>, binding: Binding,
                      scale: real, width: nat, height: nat, r: Renderer)
    ensures TransformPart(part.(anchor := anchor), landmarks, binding, scale, width, height, r)
         == TransformPart(part, landmarks, binding, scale, width, height, r)
  {
    assert part.(anchor := anchor).image == part.image;
  }

  // ---------------------------------------------------------------------------
  // Frame compositor

  /** The names in `order` that have both a loaded part and a binding, in order. */
  function Drawable(order: seq<PartName>, parts: map<PartName, Part>, bindings: map<PartName, Binding>): (d: seq<PartName>)
    ensures |d| <= |order|
    ensures forall n :: n in d <==> n in order && n in parts && n in bindings
    ensures Distinct(order) ==> Distinct(d)
  {
    if order == [] then []
    else
      var rest := Drawable(order[1..], parts, bindings);
      if order[0] in parts && order[0] in bindings then [order[0]] + rest else rest
  }

  /** The filter keeps the order of the walk: filtering a concatenation
      filters each part in turn. */
  lemma {:induction false} DrawableAppend(a: seq<PartName>, b: seq<PartName>, parts: map<PartName, Part>,
                                          bindings: map<PartName, Binding>)
    ensures Drawable(a + b, parts, bindings) == Drawable(a, parts, bindings) + Drawable(b, parts, bindings)
  {
    if a == [] {
      assert a + b == b;
    } else {
      assert (a + b)[0] == a[0] && (a + b)[1..] == a[1..] + b;
      DrawableAppend(a[1..], b, parts, bindings);
    }
  }

  /** The part names of a sequence of blits. */
  function BlitNames(blits: seq<Blit>): (names: seq<PartName>)
    ensures |names| == |blits|
    ensures forall i :: 0 <= i < |blits| ==> names[i] == blits[i].part
  {
    if blits == [] then [] else [blits[0].part] + BlitNames(blits[1..])
  }

  /** The draw calls of one frame and whether an IndexError escaped part-way. */
  datatype Plan = Plan(blits: seq<Blit>, raised: bool)

  /** Walks `order`, skipping names missing from either table, and blits each
      remaining part where TransformPart places it (at the default scale). */
  function PlanWalk(order: seq<PartName>, parts: map<PartName, Part>, bindings: map<PartName, Binding>,
                    landmarks: seq<Landmark>, width: nat, height: nat, r: Renderer): Plan
  {
    if order == [] then
      Plan([], false)
    else
      var name := order[0];
      if name in parts && name in bindings then
        match TransformPart(parts[name], landmarks, bindings[name], 1.0, width, height, r)
        case IndexError => Plan([], true)
        case Placed(img, pos) =>
          var rest := PlanWalk(order[1..], parts, bindings, landmarks, width, height, r);
          Plan([Blit(name, img, pos)] + rest.blits, rest.raised)
      else
        PlanWalk(order[1..], parts, bindings, landmarks, width, height, r)
  }

  /** The walk blits exactly the drawable names, in order, unless an
      IndexError stops it, in which case it blits a proper prefix of them. */
  lemma {:induction false} PlanWalkFollowsDrawable(order: seq<PartName>, parts: map<PartName, Part>,
                                                   bindings: map<PartName, Binding>, landmarks: seq<Landmark>,
                                                   width: nat, height: nat, r: Renderer)
    ensures var p := PlanWalk(order, parts, bindings, landmarks, width, height, r);
            (!p.raised ==> BlitNames(p.blits) == Drawable(order, parts, bindings)) &&
            (p.raised ==> |BlitNames(p.blits)| < |Drawable(order, parts, bindings)| &&
                          BlitNames(p.blits) == Drawable(order, parts, bindings)[..|p.blits|])
  {
    if order != [] {
      PlanWalkFollowsDrawable(order[1..], parts, bindings, landmarks, width, height, r);
      var name := order[0];
      if name in parts && name in bindings {
        match TransformPart(parts[name], landmarks, bindings[name], 1.0, width, height, r)
        case IndexError =>
        case Placed(img, pos) =>
          var rest := PlanWalk(order[1..], parts, bindings, landmarks, width, height, r);
          var blits := [Blit(name, img, pos)] + rest.blits;
          assert blits[0].part == name && blits[1..] == rest.blits;
          assert BlitNames(blits) == [name] + BlitNames(rest.blits);
      }
    }
  }

  /** A step of the walk at position `i` that blits the part there. */
  lemma PlanWalkStepPlaced(order: seq<PartName>, parts: map<PartName, Part>, bindings: map<PartName, Binding>,
                           landmarks: seq<Landmark>, width: nat, height: nat, r: Renderer, i: nat,
                           img: Image, pos: (int, int))
    requires i < |order| && order[i] in parts && order[i] in bindings
    requires TransformPart(parts[order[i]], landmarks, bindings[order[i]], 1.0, width, height, r) == Placed(img, pos)
    ensures var rest := PlanWalk(order[i + 1..], parts, bindings, landmarks, width, height, r);
            PlanWalk(order[i..], parts, bindings, landmarks, width, height, r)
              == Plan([Blit(order[i], img, pos)] + rest.blits, rest.raised)
  {
    assert order[i..][0] == order[i] && order[i..][1..] == order[i + 1..];
  }

  /** A step of the walk at position `i` whose part raises an IndexError. */
  lemma PlanWalkStepRaised(order: seq<PartName>, parts: map<PartName, Part>, bindings: map<PartName, Binding>,
                           landmarks: seq<Landmark>, width: nat, height: nat, r: Renderer, i: nat)
    requires i < |order| && order[i] in parts && order[i] in bindings
    requires TransformPart(parts[order[i]], landmarks, bindings[order[i]], 1.0, width, height, r) == IndexError
    ensures PlanWalk(order[i..], parts, bindings, landmarks, width, height, r) == Plan([], true)
  {
    assert order[i..][0] == order[i];
  }

  /** A step of the walk at position `i` that skips a name missing from a table. */
  lemma PlanWalkStepSkipped(order: seq<PartName>, parts: map<PartName, Part>, bindings: map<PartName, Binding>,
                            landmarks: seq<Landmark>, width: nat, height: nat, r: Renderer, i: nat)
    requires i < |order| && !(order[i] in parts && order[i] in bindings)
    ensures PlanWalk(order[i..], parts, bindings, landmarks, width, height, r)
         == PlanWalk(order[i + 1..], parts, bindings, landmarks, width, height, r)
  {
    assert order[i..][0] == order[i] && order[i..][1..] == order[i + 1..];
  }

  /** An IndexError escapes exactly when some drawable part's start landmark is
      missing from the sequence. */
  lemma {:induction false} PlanWalkRaises(order: seq<PartName>, parts: map<PartName, Part>,
                                          bindings: map<PartName, Binding>, landmarks: seq<Landmark>,
                                          width: nat, height: nat, r: Renderer)
    ensures PlanWalk(order, parts, bindings, landmarks, width, height, r).raised <==>
              exists i :: 0 <= i < |order| && order[i] in parts && order[i] in bindings &&
                          bindings[order[i]].start >= |landmarks|
  {
    if order != [] {
      PlanWalkRaises(order[1..], parts, bindings, landmarks, width, height, r);
      var n := order[0];
      if n in parts && n in bindings && bindings[n].start >= |landmarks| {
      } else {
        assert (exists i :: 0 <= i < |order| && order[i] in parts && order[i] in bindings &&
                            bindings[order[i]].start >= |landmarks|)
           <==> (exists i :: 0 <= i < |order[1..]| && order[1..][i] in parts && order[1..][i] in bindings &&
                            bindings[order[1..][i]].start >= |landmarks|) by {
          forall i | 0 < i < |order| ensures order[i] == order[1..][i - 1] { }
        }
      }
    }
  }

  /** Every blit of the walk is the placement TransformPart computes for its part. */
  lemma {:induction false} PlanWalkBlitsArePlacements(order: seq<PartName>, parts: map<PartName, Part>,
                                                      bindings: map<PartName, Binding>, landmarks: seq<Landmark>,
                                                      width: nat, height: nat, r: Renderer, k: nat)
    requires k < |PlanWalk(order, parts, bindings, landmarks, width, height, r).blits|
    ensures var b := PlanWalk(order, parts, bindings, landmarks, width, height, r).blits[k];
            b.part in parts && b.part in bindings &&
            TransformPart(parts[b.part], landmarks, bindings[b.part], 1.0, width, height, r) == Placed(b.image, b.pos)
  {
    var name := order[0];
    if name in parts && name in bindings {
      var t := TransformPart(parts[name], landmarks, bindings[name], 1.0, width, height, r);
      if k > 0 {
        PlanWalkBlitsArePlacements(order[1..], parts, bindings, landmarks, width, height, r, k - 1);
      }
    } else {
      PlanWalkBlitsArePlacements(order[1..], parts, bindings, landmarks, width, height, r, k);
    }
  }

  /** The blits of one frame: nothing for an absent or empty detection,
      otherwise the render order walked over the normalised keypoints. */
  function PlanFrame(landmarks: Option<seq<Landmark>>, order: seq<PartName>, parts: map<PartName, Part>,
                     bindings: map<PartName, Binding>, width: nat, height: nat, r: Renderer): Plan
  {
    if landmarks.None? || landmarks.value == [] then
      Plan([], false)
    else
      PlanWalk(order, parts, bindings, Normalised(landmarks.value), width, height, r)
  }

  /** A frame without a detected figure draws nothing. */
  lemma NoLandmarksNoBlits(order: seq<PartName>, parts: map<PartName, Part>, bindings: map<PartName, Binding>,
                           width: nat, height: nat, r: Renderer)
    ensures PlanFrame(None, order, parts, bindings, width, height, r) == Plan([], false)
    ensures PlanFrame(Some([]), order, parts, bindings, width, height, r) == Plan([], false)
  {
  }

  /** A walk over names that all have a part and a binding keeps every name. */
  lemma {:induction false} DrawableKeepsAll(order: seq<PartName>, parts: map<PartName, Part>,
                                            bindings: map<PartName, Binding>)
    requires forall i :: 0 <= i < |order| ==> order[i] in parts && order[i] in bindings
    ensures Drawable(order, parts, bindings) == order
  {
    if order != [] {
      DrawableKeepsAll(order[1..], parts, bindings);
    }
  }

  /** With every part loaded and a full detection, one frame draws every part of
      the render order once, in that order, with no IndexError: the legs and
      feet, then the torso, the arms and hands, and the head last. */
  lemma FullFrameDrawsRenderOrder(landmarks: seq<Landmark>, parts: map<PartName, Part>,
                                  width: nat, height: nat, r: Renderer)
    requires parts.Keys == BodyPartNames()
    requires |landmarks| == LANDMARK_COUNT
    ensures !PlanFrame(Some(landmarks), RENDER_ORDER, parts, PART_BINDINGS, width, height, r).raised
    ensures BlitNames(PlanFrame(Some(landmarks), RENDER_ORDER, parts, PART_BINDINGS, width, height, r).blits)
         == RENDER_ORDER
  {
    var normalised := Normalised(landmarks);
    RenderOrderAllDrawable(parts);
    PlanWalkFollowsDrawable(RENDER_ORDER, parts, PART_BINDINGS, normalised, width, height, r);
    BindingsWithinDetection();
    PlanWalkRaises(RENDER_ORDER, parts, PART_BINDINGS, normalised, width, height, r);
  }

  /** With every part loaded, every name of the render order is drawable. */
  lemma RenderOrderAllDrawable(parts: map<PartName, Part>)
    requires parts.Keys == BodyPartNames()
    ensures Drawable(RENDER_ORDER, parts, PART_BINDINGS) == RENDER_ORDER
  {
    TablesAgree();
    forall i | 0 <= i < |RENDER_ORDER| ensures RENDER_ORDER[i] in parts && RENDER_ORDER[i] in PART_BINDINGS {
      assert RENDER_ORDER[i] in BodyPartNames();
    }
    DrawableKeepsAll(RENDER_ORDER, parts, PART_BINDINGS);
  }

  /** For detector keypoints inside the image, the centre of every part drawn
      in a frame, which is its start keypoint's pixel, lies strictly inside the window. */
  lemma FrameBlitsCentredOnScreen(landmarks: seq<Landmark>, order: seq<PartName>, parts: map<PartName, Part>,
                                  bindings: map<PartName, Binding>, width: nat, height: nat, r: Renderer, k: nat)
    requires width > 0 && height > 0
    requires forall i :: 0 <= i < |landmarks| ==>
               0.0 <= landmarks[i].x <= 1.0 && 0.0 <= landmarks[i].y <= 1.0
    requires k < |PlanFrame(Some(landmarks), order, parts, bindings, width, height, r).blits|
    ensures var b := PlanFrame(Some(landmarks), order, parts, bindings, width, height, r).blits[k];
            0 <= b.pos.0 + b.image.width / 2 < width &&
            0 <= b.pos.1 + b.image.height / 2 < height
  {
    var normalised := Normalised(landmarks);
    PlanWalkBlitsArePlacements(order, parts, bindings, normalised, width, height, r, k);
    var b := PlanFrame(Some(landmarks), order, parts, bindings, width, height, r).blits[k];
    var binding := bindings[b.part];
    var t := TransformPart(parts[b.part], normalised, binding, 1.0, width, height, r);
    assert t == Placed(b.image, b.pos);
    NormalisedPixelOnScreen(landmarks[binding.start], width, height);
    assert normalised[binding.start] == Normalise(landmarks[binding.start]);
    var s := ToPixel(normalised[binding.start], width, height);
    assert b.pos.0 + b.image.width / 2 == s.0;
    assert b.pos.1 + b.image.height / 2 == s.1;
  }

  /** A worked frame on a 1000x700 window: the nose at (0.5, 0.3) normalises to
      pixel (500, 252); the shoulders at (0.4, 0.45) and (0.6, 0.45) land on
      (430, 325) and (570, 325), so the torso, bound from the left shoulder to
      the right one, is drawn unrotated. */
  lemma TorsoScenario(landmarks: seq<Landmark>, f: (real, real) -> real)
    requires |landmarks| == LANDMARK_COUNT && AxisAngles(f)
    requires landmarks[NOSE] == Landmark(0.5, 0.3, 1.0)
    requires landmarks[LEFT_SHOULDER] == Landmark(0.4, 0.45, 1.0)
    requires landmarks[RIGHT_SHOULDER] == Landmark(0.6, 0.45, 1.0)
    ensures ToPixel(Normalised(landmarks)[NOSE], 1000, 700) == (500, 252)
    ensures ToPixel(Normalised(landmarks)[LEFT_SHOULDER], 1000, 700) == (430, 325)
    ensures ToPixel(Normalised(landmarks)[RIGHT_SHOULDER], 1000, 700) == (570, 325)
    ensures PartAngle(Normalised(landmarks), PART_BINDINGS[Body], 1000, 700, f) == 0.0
  {
    var n := Normalised(landmarks);
    assert n[NOSE] == Landmark(0.5, 0.36, 1.0);
    assert n[LEFT_SHOULDER] == Landmark(0.43, 0.465, 1.0);
    assert n[RIGHT_SHOULDER] == Landmark(0.57, 0.465, 1.0);
    assert Trunc(325.5) == 325;
    var start, end := ToPixel(n[LEFT_SHOULDER], 1000, 700), ToPixel(n[RIGHT_SHOULDER], 1000, 700);
    assert start == (430, 325) && end == (570, 325);
    RotationOnAxes(f, start, end);
  }

  // ---------------------------------------------------------------------------
  // Input events

  datatype Key = Escape | Up | Down | Left | Right | OtherKey

  /** A window event: the close button, a key press, or anything else. */
  datatype Event = Quit | KeyDown(key: Key) | OtherEvent

  /** Whether events keep the program running, and the offsets after them. */
  datatype EventOutcome = EventOutcome(running: bool, offsetX: int, offsetY: int)

  const MOVE_STEP: int := 10

  predicate IsExit(e: Event) {
    e == Quit || e == KeyDown(Escape)
  }

  /** Processes a batch of events in order; the first exit event stops the
      program and the events after it are dropped. */
  function ApplyEvents(events: seq<Event>, x: int, y: int): EventOutcome {
    if events == [] then
      EventOutcome(true, x, y)
    else
      match events[0]
      case Quit => EventOutcome(false, x, y)
      case KeyDown(Escape) => EventOutcome(false, x, y)
      case KeyDown(Up) => ApplyEvents(events[1..], x, y - MOVE_STEP)
      case KeyDown(Down) => ApplyEvents(events[1..], x, y + MOVE_STEP)
      case KeyDown(Left) => ApplyEvents(events[1..], x - MOVE_STEP, y)
      case KeyDown(Right) => ApplyEvents(events[1..], x + MOVE_STEP, y)
      case _ => ApplyEvents(events[1..], x, y)
  }

  /** One event: an exit stops without moving; an arrow key moves by exactly 10
      along its own axis (up is toward smaller y); anything else changes nothing. */
  lemma SingleEvent(e: Event, x: int, y: int)
    ensures IsExit(e) ==> ApplyEvents([e], x, y) == EventOutcome(false, x, y)
    ensures e == KeyDown(Up) ==> ApplyEvents([e], x, y) == EventOutcome(true, x, y - 10)
    ensures e == KeyDown(Down) ==> ApplyEvents([e], x, y) == EventOutcome(true, x, y + 10)
    ensures e == KeyDown(Left) ==> ApplyEvents([e], x, y) == EventOutcome(true, x - 10, y)
    ensures e == KeyDown(Right) ==> ApplyEvents([e], x, y) == EventOutcome(true, x + 10, y)
    ensures (e == OtherEvent || e == KeyDown(OtherKey)) ==> ApplyEvents([e], x, y) == EventOutcome(true, x, y)
  {
    assert [e][1..] == [];
  }

  /** A batch splits at any point: the second part runs from where the first
      left the offsets, unless the first part already stopped. */
  lemma {:induction false} ApplyEventsAppend(a: seq<Event>, b: seq<Event>, x: int, y: int)
    ensures var o := ApplyEvents(a, x, y);
            ApplyEvents(a + b, x, y) == if o.running then ApplyEvents(b, o.offsetX, o.offsetY) else o
  {
    if a == [] {
      assert a + b == b;
    } else {
      assert (a + b)[0] == a[0];
      assert (a + b)[1..] == a[1..] + b;
      match a[0]
      case Quit =>
      case KeyDown(Escape) =>
      case KeyDown(Up) => ApplyEventsAppend(a[1..], b, x, y - MOVE_STEP);
      case KeyDown(Down) => ApplyEventsAppend(a[1..], b, x, y + MOVE_STEP);
      case KeyDown(Left) => ApplyEventsAppend(a[1..], b, x - MOVE_STEP, y);
      case KeyDown(Right) => ApplyEventsAppend(a[1..], b, x + MOVE_STEP, y);
      case KeyDown(OtherKey) => ApplyEventsAppend(a[1..], b, x, y);
      case OtherEvent => ApplyEventsAppend(a[1..], b, x, y);
    }
  }

  /** The program stops exactly when the batch holds a QUIT or an ESC key press. */
  lemma {:induction false} StopsIffExitEvent(events: seq<Event>, x: int, y: int)
    ensures !ApplyEvents(events, x, y).running <==> exists i :: 0 <= i < |events| && IsExit(events[i])
  {
    if events != [] {
      if !IsExit(events[0]) {
        var o := ApplyEvents([events[0]], x, y);
        SingleEvent(events[0], x, y);
        assert events == [events[0]] + events[1..];
        ApplyEventsAppend([events[0]], events[1..], x, y);
        StopsIffExitEvent(events[1..], o.offsetX, o.offsetY);
        forall i | 0 < i < |events| ensures events[i] == events[1..][i - 1] { }
      }
    }
  }

  // ---------------------------------------------------------------------------
  // The driver

  class AnimeCharacterDriver {
    const width: nat
    const height: nat
    const renderer: Renderer
    const characterParts: map<PartName, Part>
    const partBindings: map<PartName, Binding>
    const renderOrder: seq<PartName>
    var characterOffsetX: int
    var characterOffsetY: int
    /** The blits issued to the window surface so far. */
    var screen: seq<Blit>

    /** Every part of the asset table was loaded, or replaced by the placeholder. */
    ghost predicate Valid() {
      characterParts.Keys == BodyPartNames() && partBindings == PART_BINDINGS && renderOrder == RENDER_ORDER
    }

    /** `load` stands for opening the part files under the resource directory. */
    constructor (load: string -> LoadResult, width: nat, height: nat, renderer: Renderer)
      ensures Valid()
      ensures renderOrder == RENDER_ORDER && partBindings == PART_BINDINGS
      ensures forall n: PartName :: n in characterParts
      ensures this.width == width && this.height == height && this.renderer == renderer
      ensures forall i :: 0 <= i < |BODY_PARTS| ==>
                characterParts[BODY_PARTS[i].name] == LoadPart(BODY_PARTS[i], load(BODY_PARTS[i].file))
      ensures characterOffsetX == width / 2 && characterOffsetY == height / 2
      ensures screen == []
    {
      this.width := width;
      this.height := height;
      this.renderer := renderer;
      screen := [];
      AssetTableIsDictionary();
      var parts := LoadCharacterParts(BODY_PARTS, load);
      characterParts := parts;
      partBindings := PART_BINDINGS;
      renderOrder := RENDER_ORDER;
      characterOffsetX := width / 2;
      characterOffsetY := height / 2;
    }

    /** Draws one frame's parts onto the screen. `raised` reports an IndexError
        escaping part-way, after the blits issued before it. */
    method DrawCharacter(landmarks: Option<seq<Landmark>>) returns (raised: bool)
      modifies this`screen
      ensures screen == old(screen) + PlanFrame(landmarks, renderOrder, characterParts, partBindings, width, height, renderer).blits
      ensures raised == PlanFrame(landmarks, renderOrder, characterParts, partBindings, width, height, renderer).raised
    {
      raised := false;
      if landmarks.None? || landmarks.value == [] {
        return;
      }
      var offset := OffsetLandmarks(landmarks.value);
      assert offset == Normalised(landmarks.value);
      ghost var plan := PlanWalk(renderOrder, characterParts, partBindings, offset, width, height, renderer);
      assert renderOrder[0..] == renderOrder;
      for i := 0 to |renderOrder|
        invariant screen + PlanWalk(renderOrder[i..], characterParts, partBindings, offset, width, height, renderer).blits
               == old(screen) + plan.blits
        invariant PlanWalk(renderOrder[i..], characterParts, partBindings, offset, width, height, renderer).raised
               == plan.raised
      {
        var name := renderOrder[i];
        if name in characterParts && name in partBindings {
          var t := TransformPart(characterParts[name], offset, partBindings[name], 1.0, width, height, renderer);
          if t.IndexError? {
            PlanWalkStepRaised(renderOrder, characterParts, partBindings, offset, width, height, renderer, i);
            raised := true;
            return;
          }
          var blit := Blit(name, t.image, t.pos);
          PlanWalkStepPlaced(renderOrder, characterParts, partBindings, offset, width, height, renderer, i,
                             t.image, t.pos);
          ghost var rest := PlanWalk(renderOrder[i + 1..], characterParts, partBindings, offset, width, height, renderer);
          assert (screen + [blit]) + rest.blits == screen + ([blit] + rest.blits);
          screen := screen + [blit];
        } else {
          PlanWalkStepSkipped(renderOrder, characterParts, partBindings, offset, width, height, renderer, i);
        }
      }
      assert renderOrder[|renderOrder|..] == [];
    }

    /** Handles one batch of window events: returns false on QUIT or ESC, and
        moves the offsets by 10 per arrow key press before it. */
    method HandleEvents(events: seq<Event>) returns (running: bool)
      modifies this`characterOffsetX, this`characterOffsetY
      ensures EventOutcome(running, characterOffsetX, characterOffsetY)
           == ApplyEvents(events, old(characterOffsetX), old(characterOffsetY))
    {
      for i := 0 to |events|
        invariant ApplyEvents(events[i..], characterOffsetX, characterOffsetY)
               == ApplyEvents(events, old(characterOffsetX), old(characterOffsetY))
      {
        assert events[i..][0] == events[i] && events[i..][1..] == events[i + 1..];
        match events[i]
        case Quit =>
          return false;
        case KeyDown(key) =>
          if key == Escape {
            return false;
          } else if key == Up {
            characterOffsetY := characterOffsetY - 10;
          } else if key == Down {
            characterOffsetY := characterOffsetY + 10;
          } else if key == Left {
            characterOffsetX := characterOffsetX - 10;
          } else if key == Right {
            characterOffsetX := characterOffsetX + 10;
          }
        case OtherEvent =>
      }
      assert events[|events|..] == [];
      return true;
    }
  }

  /** A driver built by its constructor draws, for a full detection, every part
      of the render order once and in order, and raises nothing: together with
      DrawCharacter's contract, the screen gains exactly the whole rig. */
  lemma DriverDrawsWholeRig(driver: AnimeCharacterDriver, landmarks: seq<Landmark>)
    requires driver.Valid()
    requires |landmarks| == LANDMARK_COUNT
    ensures var plan := PlanFrame(Some(landmarks), driver.renderOrder, driver.characterParts, driver.partBindings,
                                  driver.width, driver.height, driver.renderer);
            !plan.raised && BlitNames(plan.blits) == RENDER_ORDER
  {
    FullFrameDrawsRenderOrder(landmarks, driver.characterParts, driver.width, driver.height, driver.renderer);
  }
}
