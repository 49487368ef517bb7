/**
  The flippable pose card: a tap toggles it between a front face with the
  pose's summary and a back face with its description alone.
 */
module YogaPoseCard {
  import opened DifficultyLevel
  import opened YogaPose
  import opened Toggle

  /** What a face puts on screen, field by field. */
  datatype Face =
    | Front(day: int, name: string, description: string, image: ImageRef, difficulty: Difficulty)
    | Back(description: string)

  /** `CardFront`: day and name as the title, the description, the level, and the image. */
  function CardFront(pose: Pose): Face {
    Front(pose.day, pose.name, pose.description, pose.imageResId, pose.difficulty)
  }

  /** `CardBack`: the description only. */
  function CardBack(pose: Pose): Face {
    Back(pose.description)
  }

  /** A card is created unflipped. */
  const InitiallyFlipped: bool := false

  /** A tap on the card turns it over. */
  function OnCardClick(flipped: bool): (next: bool)
    ensures next != flipped
  {
    Flip(flipped)
  }

  /** The face `ToggleYogaPoseCard` shows for a flip state. */
  function ShownFace(pose: Pose, flipped: bool): (face: Face)
    ensures face.Back? <==> flipped
    ensures face.description == pose.description
    ensures face.Front? ==> && face.day == pose.day
                            && face.name == pose.name
                            && face.image == pose.imageResId
                            && face.difficulty == pose.difficulty
  {
    if flipped then CardBack(pose) else CardFront(pose)
  }

  /** The face shown after `taps` taps on a fresh card. */
  function FaceAfterTaps(pose: Pose, taps: nat): (face: Face)
    ensures face.Back? <==> taps % 2 == 1
  {
    FlipTimesParity(InitiallyFlipped, taps);
    ShownFace(pose, FlipTimes(InitiallyFlipped, taps))
  }

  /** A fresh card shows its front. */
  lemma FreshCardShowsFront(pose: Pose)
    ensures FaceAfterTaps(pose, 0) == CardFront(pose)
  {
  }

  /** A tap always changes the face, and a second tap brings the first one back. */
  lemma TapTwiceRestoresFace(pose: Pose, flipped: bool)
    ensures ShownFace(pose, OnCardClick(flipped)) != ShownFace(pose, flipped)
    ensures ShownFace(pose, OnCardClick(OnCardClick(flipped))) == ShownFace(pose, flipped)
  {
  }
}
