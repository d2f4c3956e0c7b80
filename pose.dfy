/** One detected body landmark and the landmark enumeration of the MediaPipe
    pose model (PoseLandmark), which the rig treats as an external contract. */
module Pose {

  /** A keypoint as the detector reports it: coordinates normalised to the
      detector image, and a confidence score. */
  datatype Landmark = Landmark(x: real, y: real, visibility: real)

  /** The model reports this many landmarks per detected figure. */
  const LANDMARK_COUNT: nat := 33

  const NOSE: nat := 0
  const LEFT_EYE_INNER: nat := 1
  const LEFT_EYE: nat := 2
  const LEFT_EYE_OUTER: nat := 3
  const RIGHT_EYE_INNER: nat := 4
  const RIGHT_EYE: nat := 5
  const RIGHT_EYE_OUTER: nat := 6
  const LEFT_EAR: nat := 7
  const RIGHT_EAR: nat := 8
  const MOUTH_LEFT: nat := 9
  const MOUTH_RIGHT: nat := 10
  const LEFT_SHOULDER: nat := 11
  const RIGHT_SHOULDER: nat := 12
  const LEFT_ELBOW: nat := 13
  const RIGHT_ELBOW: nat := 14
  const LEFT_WRIST: nat := 15
  const RIGHT_WRIST: nat := 16
  const LEFT_PINKY: nat := 17
  const RIGHT_PINKY: nat := 18
  const LEFT_INDEX: nat := 19
  const RIGHT_INDEX: nat := 20
  const LEFT_THUMB: nat := 21
  const RIGHT_THUMB: nat := 22
  const LEFT_HIP: nat := 23
  const RIGHT_HIP: nat := 24
  const LEFT_KNEE: nat := 25
  const RIGHT_KNEE: nat := 26
  const LEFT_ANKLE: nat := 27
  const RIGHT_ANKLE: nat := 28
  const LEFT_HEEL: nat := 29
  const RIGHT_HEEL: nat := 30
  const LEFT_FOOT_INDEX: nat := 31
  const RIGHT_FOOT_INDEX: nat := 32
}
