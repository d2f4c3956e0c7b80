/** The stick-figure renderer of try.py: from one frame's landmarks it issues
    lines and joint circles for the visible bones, then an anime-style head
    (face, hair, eyes, mouth) over the nose. The screen is the sequence of
    drawing primitives issued to it. */
module StickFigure {
  import opened Wrappers
  import opened Numerics
  import opened Pose

  const WIDTH: nat := 800
  const HEIGHT: nat := 600

  datatype Color = Rgb(red: nat, green: nat, blue: nat)

  const SKIN_COLOR: Color := Rgb(255, 224, 189)
  const HAIR_COLOR: Color := Rgb(60, 40, 20)
  const LINE_COLOR: Color := Rgb(50, 50, 50)
  const EYE_WHITE: Color := Rgb(255, 255, 255)
  const PUPIL_COLOR: Color := Rgb(0, 0, 0)
  const MOUTH_COLOR: Color := Rgb(200, 100, 100)

  const HEAD_RADIUS: nat := 40
  const JOINT_RADIUS: nat := 8
  const BONE_THICKNESS: nat := 3
  const EYE_RADIUS: nat := 8
  const PUPIL_RADIUS: nat := 4
  const EYE_OFFSET: int := 15
  const MOUTH_THICKNESS: nat := 2

  /** A landmark is drawn only when its confidence is strictly above this. */
  const VISIBILITY_THRESHOLD: real := 0.3

  /** A drawing call. Ellipse boxes are (left, top, width, height) in floating
      point, as the program computes them; the mouth arc spans 0 to pi radians
      of the box (left, top, width, height). */
  datatype Primitive =
    | Line(color: Color, from: (int, int), to: (int, int), thickness: nat)
    | Circle(color: Color, centre: (int, int), radius: nat)
    | Ellipse(color: Color, box: (real, real, real, real))
    | Arc(color: Color, rect: (int, int, int, int), thickness: nat)

  /** A bone between two landmarks, by their enumeration values. */
  datatype Connection = Connection(start: nat, end: nat)

  const CONNECTIONS: seq<Connection> := [
    // torso
    Connection(LEFT_HIP, RIGHT_HIP),
    Connection(LEFT_HIP, LEFT_SHOULDER),
    Connection(RIGHT_HIP, RIGHT_SHOULDER),
    Connection(LEFT_SHOULDER, RIGHT_SHOULDER),
    // left arm
    Connection(LEFT_SHOULDER, LEFT_ELBOW),
    Connection(LEFT_ELBOW, LEFT_WRIST),
    // right arm
    Connection(RIGHT_SHOULDER, RIGHT_ELBOW),
    Connection(RIGHT_ELBOW, RIGHT_WRIST),
    // left leg
    Connection(LEFT_HIP, LEFT_KNEE),
    Connection(LEFT_KNEE, LEFT_ANKLE),
    // right leg
    Connection(RIGHT_HIP, RIGHT_KNEE),
    Connection(RIGHT_KNEE, RIGHT_ANKLE),
    // face outline
    Connection(LEFT_EAR, LEFT_EYE_OUTER),
    Connection(LEFT_EYE_OUTER, LEFT_EYE),
    Connection(LEFT_EYE, NOSE),
    Connection(NOSE, RIGHT_EYE),
    Connection(RIGHT_EYE, RIGHT_EYE_OUTER),
    Connection(RIGHT_EYE_OUTER, RIGHT_EAR)
  ]

  /** The screen pixel of a landmark: `int(x * WIDTH)`, `int(y * HEIGHT)`. */
  function Pixel(lm: Landmark): (int, int) {
    (Trunc(lm.x * WIDTH as real), Trunc(lm.y * HEIGHT as real))
  }

  predicate Visible(lm: Landmark) {
    lm.visibility > VISIBILITY_THRESHOLD
  }

  /** The primitives of one bone: a line between the two pixels with a joint
      circle on each end, provided both landmarks exist and are visible. */
  function ConnectionPrimitives(landmarks: seq<Landmark>, c: Connection): (prims: seq<Primitive>)
    ensures prims != [] <==>
              c.start < |landmarks| && c.end < |landmarks| &&
              landmarks[c.start].visibility > 0.3 && landmarks[c.end].visibility > 0.3
    ensures prims != [] ==>
              |prims| == 3 &&
              prims[0] == Line(LINE_COLOR, Pixel(landmarks[c.start]), Pixel(landmarks[c.end]), BONE_THICKNESS) &&
              prims[1] == Circle(SKIN_COLOR, prims[0].from, JOINT_RADIUS) &&
              prims[2] == Circle(SKIN_COLOR, prims[0].to, JOINT_RADIUS)
  {
    if c.start < |landmarks| && c.end < |landmarks| &&
       Visible(landmarks[c.start]) && Visible(landmarks[c.end]) then
      var s := Pixel(landmarks[c.start]);
      var e := Pixel(landmarks[c.end]);
      [Line(LINE_COLOR, s, e, BONE_THICKNESS), Circle(SKIN_COLOR, s, JOINT_RADIUS), Circle(SKIN_COLOR, e, JOINT_RADIUS)]
    else
      []
  }

  /** The bones of all connections, in connection order. */
  function Bones(landmarks: seq<Landmark>, connections: seq<Connection>): (prims: seq<Primitive>)
    ensures |prims| <= 3 * |connections|
  {
    if connections == [] then []
    else ConnectionPrimitives(landmarks, connections[0]) + Bones(landmarks, connections[1..])
  }

  /** Connections are drawn in list order: the bones of a concatenation are the
      bones of the first list followed by those of the second. */
  lemma {:induction false} BonesAppend(landmarks: seq<Landmark>, a: seq<Connection>, b: seq<Connection>)
    ensures Bones(landmarks, a + b) == Bones(landmarks, a) + Bones(landmarks, b)
  {
    if a == [] {
      assert a + b == b;
    } else {
      assert (a + b)[0] == a[0] && (a + b)[1..] == a[1..] + b;
      BonesAppend(landmarks, a[1..], b);
    }
  }

  /** The bones of the first i + 1 connections extend those of the first i. */
  lemma BonesStep(landmarks: seq<Landmark>, connections: seq<Connection>, i: nat)
    requires i < |connections|
    ensures Bones(landmarks, connections[..i + 1])
         == Bones(landmarks, connections[..i]) + ConnectionPrimitives(landmarks, connections[i])
  {
    assert connections[..i + 1] == connections[..i] + [connections[i]];
    BonesAppend(landmarks, connections[..i], [connections[i]]);
    assert [connections[i]][1..] == [];
  }

  /** No landmarks, no bones: every index is out of range. */
  lemma {:induction false} NoLandmarksNoBones(connections: seq<Connection>)
    ensures Bones([], connections) == []
  {
    if connections != [] {
      NoLandmarksNoBones(connections[1..]);
    }
  }

  /** When every connection is in range and both its ends are visible, every
      connection contributes its three primitives. */
  lemma {:induction false} AllBonesDrawn(landmarks: seq<Landmark>, connections: seq<Connection>)
    requires forall i :: 0 <= i < |connections| ==>
               connections[i].start < |landmarks| && connections[i].end < |landmarks|
    requires forall i :: 0 <= i < |landmarks| ==> landmarks[i].visibility > 0.3
    ensures |Bones(landmarks, connections)| == 3 * |connections|
  {
    if connections != [] {
      assert connections[0].start < |landmarks|;
      AllBonesDrawn(landmarks, connections[1..]);
    }
  }

  /** The anime head over a visible nose: face circle, hair ellipse, the two eyes
      with their pupils, and the smiling mouth arc. */
  function HeadPrimitives(landmarks: seq<Landmark>): (prims: seq<Primitive>)
    ensures prims != [] <==> |landmarks| > NOSE && landmarks[NOSE].visibility > 0.3
    ensures prims != [] ==>
              var (hx, hy) := (Pixel(landmarks[NOSE]).0, Pixel(landmarks[NOSE]).1 - 40);
              |prims| == 7 &&
              // the face is centred 40 pixels above the nose pixel
              prims[0] == Circle(SKIN_COLOR, (hx, hy), HEAD_RADIUS) &&
              // the hair is centred horizontally on the face
              prims[1].Ellipse? && prims[1].box.0 + prims[1].box.2 / 2.0 == hx as real &&
              // the eyes are mirror images about the face's vertical axis, 5 above its centre
              prims[2] == Circle(EYE_WHITE, (hx - 15, hy - 5), EYE_RADIUS) &&
              prims[4] == Circle(EYE_WHITE, (hx + 15, hy - 5), EYE_RADIUS) &&
              prims[2].centre.0 + prims[4].centre.0 == 2 * hx &&
              // each pupil sits in its eye
              prims[3] == Circle(PUPIL_COLOR, prims[2].centre, PUPIL_RADIUS) &&
              prims[5] == Circle(PUPIL_COLOR, prims[4].centre, PUPIL_RADIUS) &&
              // the mouth is centred horizontally below the face centre
              prims[6].Arc? && prims[6].rect.0 + prims[6].rect.2 / 2 == hx && prims[6].rect.1 > hy
  {
    if |landmarks| > NOSE && Visible(landmarks[NOSE]) then
      var nose := Pixel(landmarks[NOSE]);
      var headX := nose.0;
      var headY := nose.1 - 40;
      var r := HEAD_RADIUS as real;
      [ Circle(SKIN_COLOR, (headX, headY), HEAD_RADIUS),
        Ellipse(HAIR_COLOR, (headX as real - r * 1.25, headY as real - r * 1.25, r * 2.5, r * 1.5)),
        Circle(EYE_WHITE, (headX - EYE_OFFSET, headY - 5), EYE_RADIUS),
        Circle(PUPIL_COLOR, (headX - EYE_OFFSET, headY - 5), PUPIL_RADIUS),
        Circle(EYE_WHITE, (headX + EYE_OFFSET, headY - 5), EYE_RADIUS),
        Circle(PUPIL_COLOR, (headX + EYE_OFFSET, headY - 5), PUPIL_RADIUS),
        Arc(MOUTH_COLOR, (headX - 20, headY + 10, 40, 20), MOUTH_THICKNESS) ]
    else
      []
  }

  /** Everything one call draws: nothing without landmarks, otherwise the bones
      followed by the head. */
  function Figure(landmarks: Option<seq<Landmark>>, connections: seq<Connection>): seq<Primitive> {
    match landmarks
    case None => []
    case Some(lms) => Bones(lms, connections) + HeadPrimitives(lms)
  }

  /** Issues the drawing calls of one frame, in the order the program makes them. */
  method DrawAnimeCharacter(landmarks: Option<seq<Landmark>>, connections: seq<Connection>)
    returns (drawn: seq<Primitive>)
    ensures drawn == Figure(landmarks, connections)
  {
    drawn := [];
    if landmarks.None? {
      return;
    }
    var lms := landmarks.value;
    for i := 0 to |connections|
      invariant drawn == Bones(lms, connections[..i])
    {
      ghost var before := drawn;
      var connection := connections[i];
      var startIdx := connection.start;
      var endIdx := connection.end;
      if startIdx < |lms| && endIdx < |lms| {
        var startPoint := lms[startIdx];
        var endPoint := lms[endIdx];
        if startPoint.visibility > VISIBILITY_THRESHOLD && endPoint.visibility > VISIBILITY_THRESHOLD {
          var startX := Trunc(startPoint.x * WIDTH as real);
          var startY := Trunc(startPoint.y * HEIGHT as real);
          var endX := Trunc(endPoint.x * WIDTH as real);
          var endY := Trunc(endPoint.y * HEIGHT as real);
          drawn := drawn + [Line(LINE_COLOR, (startX, startY), (endX, endY), BONE_THICKNESS)];
          drawn := drawn + [Circle(SKIN_COLOR, (startX, startY), JOINT_RADIUS)];
          drawn := drawn + [Circle(SKIN_COLOR, (endX, endY), JOINT_RADIUS)];
        }
      }
      assert drawn == before + ConnectionPrimitives(lms, connection);
      BonesStep(lms, connections, i);
    }
    assert connections[..|connections|] == connections;
    drawn := drawn + HeadPrimitives(lms);
  }

  /** No detection, no drawing; an empty detection still draws nothing. */
  lemma NothingWithoutLandmarks(connections: seq<Connection>)
    ensures Figure(None, connections) == []
    ensures Figure(Some([]), connections) == []
  {
    NoLandmarksNoBones(connections);
  }

  /** Every connection of the table refers to a landmark of a full detection. */
  lemma ConnectionsWithinDetection()
    ensures forall i :: 0 <= i < |CONNECTIONS| ==>
              CONNECTIONS[i].start < LANDMARK_COUNT && CONNECTIONS[i].end < LANDMARK_COUNT
  {
  }

  /** A full detection with every landmark visible draws all 18 bones (three
      primitives each) and the seven head primitives. */
  lemma FullVisibleFigure(landmarks: seq<Landmark>)
    requires |landmarks| == LANDMARK_COUNT
    requires forall i :: 0 <= i < |landmarks| ==> landmarks[i].visibility > 0.3
    ensures |Figure(Some(landmarks), CONNECTIONS)| == 3 * 18 + 7
  {
    ConnectionsWithinDetection();
    AllBonesDrawn(landmarks, CONNECTIONS);
    assert landmarks[NOSE].visibility > 0.3;
  }
}
