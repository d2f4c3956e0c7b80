/** The static rig definition of the sprite driver: the part assets with their
    anchor fractions, the landmark binding of every part and the back-to-front
    render order. */
module RigTables {
  import opened Wrappers
  import opened Pose

  /** The rig's part identifiers; `Spelling` gives the dictionary key the
      program uses for each. */
  datatype PartName =
    | Head | Body
    | LeftUpperArm | LeftLowerArm | LeftHand
    | RightUpperArm | RightLowerArm | RightHand
    | LeftUpperLeg | LeftLowerLeg | LeftFoot
    | RightUpperLeg | RightLowerLeg | RightFoot
  {
    function Spelling(): string {
      match this
      case Head => "head"
      case Body => "body"
      case LeftUpperArm => "left_upper_arm"
      case LeftLowerArm => "left_lower_arm"
      case LeftHand => "left_hand"
      case RightUpperArm => "right_upper_arm"
      case RightLowerArm => "right_lower_arm"
      case RightHand => "right_hand"
      case LeftUpperLeg => "left_upper_leg"
      case LeftLowerLeg => "left_lower_leg"
      case LeftFoot => "left_foot"
      case RightUpperLeg => "right_upper_leg"
      case RightLowerLeg => "right_lower_leg"
      case RightFoot => "right_foot"
    }
  }

  /** A part is oriented from its start landmark toward its end landmark;
      without an end landmark it is drawn unrotated. */
  datatype Binding = Binding(start: nat, end: Option<nat>)

  /** One entry of the asset table: part name, image file and anchor fraction. */
  datatype PartAsset = PartAsset(name: PartName, file: string, anchor: (real, real))

  const BODY_PARTS: seq<PartAsset> := [
    PartAsset(Head, "head.png", (0.5, 0.8)),
    PartAsset(Body, "body.png", (0.5, 0.2)),
    PartAsset(LeftUpperArm, "left_upper_arm.png", (0.2, 0.5)),
    PartAsset(LeftLowerArm, "left_lower_arm.png", (0.2, 0.8)),
    PartAsset(LeftHand, "left_hand.png", (0.5, 0.2)),
    PartAsset(RightUpperArm, "right_upper_arm.png", (0.8, 0.5)),
    PartAsset(RightLowerArm, "right_lower_arm.png", (0.8, 0.8)),
    PartAsset(RightHand, "right_hand.png", (0.5, 0.2)),
    PartAsset(LeftUpperLeg, "left_upper_leg.png", (0.3, 0.2)),
    PartAsset(LeftLowerLeg, "left_lower_leg.png", (0.5, 0.2)),
    PartAsset(LeftFoot, "left_foot.png", (0.5, 0.2)),
    PartAsset(RightUpperLeg, "right_upper_leg.png", (0.7, 0.2)),
    PartAsset(RightLowerLeg, "right_lower_leg.png", (0.5, 0.2)),
    PartAsset(RightFoot, "right_foot.png", (0.5, 0.2))
  ]

  const PART_BINDINGS: map<PartName, Binding> := map[
    Head := Binding(NOSE, None),
    Body := Binding(LEFT_SHOULDER, Some(RIGHT_SHOULDER)),
    LeftUpperArm := Binding(LEFT_SHOULDER, Some(LEFT_ELBOW)),
    LeftLowerArm := Binding(LEFT_ELBOW, Some(LEFT_WRIST)),
    LeftHand := Binding(LEFT_WRIST, Some(LEFT_PINKY)),
    RightUpperArm := Binding(RIGHT_SHOULDER, Some(RIGHT_ELBOW)),
    RightLowerArm := Binding(RIGHT_ELBOW, Some(RIGHT_WRIST)),
    RightHand := Binding(RIGHT_WRIST, Some(RIGHT_PINKY)),
    LeftUpperLeg := Binding(LEFT_HIP, Some(LEFT_KNEE)),
    LeftLowerLeg := Binding(LEFT_KNEE, Some(LEFT_ANKLE)),
    LeftFoot := Binding(LEFT_ANKLE, Some(LEFT_HEEL)),
    RightUpperLeg := Binding(RIGHT_HIP, Some(RIGHT_KNEE)),
    RightLowerLeg := Binding(RIGHT_KNEE, Some(RIGHT_ANKLE)),
    RightFoot := Binding(RIGHT_ANKLE, Some(RIGHT_HEEL))
  ]

  /** Back to front: legs and feet, the torso, arms and hands, the head on top. */
  const RENDER_ORDER: seq<PartName> := [
    LeftUpperLeg, RightUpperLeg,
    LeftLowerLeg, RightLowerLeg,
    LeftFoot, RightFoot,
    Body,
    LeftUpperArm, RightUpperArm,
    LeftLowerArm, RightLowerArm,
    LeftHand, RightHand,
    Head
  ]

  /** The names of the asset table, i.e. the keys of the loaded part dictionary:
      every part of the rig has an asset entry. */
  function BodyPartNames(): (names: set<PartName>)
    ensures forall n: PartName :: n in names
  {
    var names := set i | 0 <= i < |BODY_PARTS| :: BODY_PARTS[i].name;
    assert forall n: PartName :: n in names by {
      forall n: PartName ensures n in names {
        var i := AssetIndex(n);
      }
    }
    names
  }

  /** No element occurs twice. */
  predicate Distinct<T(==)>(s: seq<T>) {
    forall i, j :: 0 <= i < j < |s| ==> s[i] != s[j]
  }

  /** Where each part sits in the asset table. */
  function AssetIndex(n: PartName): (i: nat)
    ensures i < |BODY_PARTS| && BODY_PARTS[i].name == n
  {
    match n
    case Head => 0
    case Body => 1
    case LeftUpperArm => 2
    case LeftLowerArm => 3
    case LeftHand => 4
    case RightUpperArm => 5
    case RightLowerArm => 6
    case RightHand => 7
    case LeftUpperLeg => 8
    case LeftLowerLeg => 9
    case LeftFoot => 10
    case RightUpperLeg => 11
    case RightLowerLeg => 12
    case RightFoot => 13
  }

  /** Where each part sits in the render order. */
  function RenderIndex(n: PartName): (i: nat)
    ensures i < |RENDER_ORDER| && RENDER_ORDER[i] == n
  {
    match n
    case LeftUpperLeg => 0
    case RightUpperLeg => 1
    case LeftLowerLeg => 2
    case RightLowerLeg => 3
    case LeftFoot => 4
    case RightFoot => 5
    case Body => 6
    case LeftUpperArm => 7
    case RightUpperArm => 8
    case LeftLowerArm => 9
    case RightLowerArm => 10
    case LeftHand => 11
    case RightHand => 12
    case Head => 13
  }

  /** The asset table is a dictionary: each part name occurs once. */
  lemma AssetTableIsDictionary()
    ensures forall i, j :: 0 <= i < j < |BODY_PARTS| ==> BODY_PARTS[i].name != BODY_PARTS[j].name
  {
    forall i | 0 <= i < |BODY_PARTS| ensures AssetIndex(BODY_PARTS[i].name) == i { }
  }

  /** Every part of the asset table has exactly one binding and vice versa,
      and the render order names each of them exactly once. */
  lemma TablesAgree()
    ensures PART_BINDINGS.Keys == BodyPartNames()
    ensures (set i | 0 <= i < |RENDER_ORDER| :: RENDER_ORDER[i]) == BodyPartNames()
    ensures |RENDER_ORDER| == |BODY_PARTS| && Distinct(RENDER_ORDER)
  {
    AssetTableIsDictionary();
    var drawn := set i | 0 <= i < |RENDER_ORDER| :: RENDER_ORDER[i];
    forall n: PartName ensures n in drawn {
      var i := RenderIndex(n);
    }
  }

  /** Each asset's image file is named after its part's dictionary key. */
  lemma FilesNamedAfterParts()
    ensures forall i :: 0 <= i < |BODY_PARTS| ==> BODY_PARTS[i].file == BODY_PARTS[i].name.Spelling() + ".png"
  {
    UpperBodyFilesNamedAfterParts();
    LowerBodyFilesNamedAfterParts();
  }

  /** The head, torso, arm and hand entries. */
  lemma UpperBodyFilesNamedAfterParts()
    ensures forall i :: 0 <= i < 8 ==> BODY_PARTS[i].file == BODY_PARTS[i].name.Spelling() + ".png"
  {
  }

  /** The leg and foot entries. */
  lemma LowerBodyFilesNamedAfterParts()
    ensures forall i :: 8 <= i < |BODY_PARTS| ==> BODY_PARTS[i].file == BODY_PARTS[i].name.Spelling() + ".png"
  {
  }

  /** The leg and foot parts. */
  predicate IsLegPart(n: PartName) {
    n in {LeftUpperLeg, RightUpperLeg, LeftLowerLeg, RightLowerLeg, LeftFoot, RightFoot}
  }

  /** The torso is drawn over every leg and foot part, and the head last of all. */
  lemma RenderOrderLayers()
    ensures RENDER_ORDER[|RENDER_ORDER| - 1] == Head
    ensures forall i, j ::
              (0 <= i < |RENDER_ORDER| && 0 <= j < |RENDER_ORDER| &&
               IsLegPart(RENDER_ORDER[i]) && RENDER_ORDER[j] == Body) ==> i < j
  {
  }

  /** Every start landmark is at most RIGHT_ANKLE and every end landmark at most
      RIGHT_HEEL: a full detection of LANDMARK_COUNT landmarks covers them all. */
  lemma BindingsWithinDetection()
    ensures forall n :: n in PART_BINDINGS ==> PART_BINDINGS[n].start <= RIGHT_ANKLE
    ensures forall n :: n in PART_BINDINGS && PART_BINDINGS[n].end.Some? ==>
      PART_BINDINGS[n].end.value <= RIGHT_HEEL < LANDMARK_COUNT
  {
  }

  /** No binding ends at NOSE, the one landmark whose enumeration value is falsy. */
  lemma NoBindingEndsAtNose()
    ensures forall n :: n in PART_BINDINGS && PART_BINDINGS[n].end.Some? ==> PART_BINDINGS[n].end.value != NOSE
  {
  }
}
