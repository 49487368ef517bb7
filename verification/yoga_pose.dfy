/**
  The pose record and the fixed catalogue of thirty poses the app shows.
 */
module YogaPose {
  import opened DifficultyLevel
  import opened Sequences

  /** A drawable resource, named by the number in its resource name `yoga_pose_N`. */
  datatype ImageRef = YogaPoseDrawable(n: nat)

  /** One catalogue entry; `day` is its identifier and its place in the programme. */
  datatype Pose = Pose(
    day: int,
    name: string,
    description: string,
    imageResId: ImageRef,
    difficulty: Difficulty)

  function Day(p: Pose): int {
    p.day
  }

  /**
    The thirty catalogue entries, one constant each, as listed in
    `data/YogaPose.kt`. The three descriptions longer than forty characters
    (days 13, 27 and 29) are written as two literals joined by `+`; each is
    the same string as the single literal of the catalogue, and proofs about
    its characters stay shallow.
   */
  const MountainPose: Pose := Pose(1, "Mountain Pose", "Improves posture and balance.", YogaPoseDrawable(1), Beginner)
  const DownwardDog: Pose := Pose(2, "Downward Dog", "Stretches the spine and calms the mind.", YogaPoseDrawable(2), Beginner)
  const WarriorI: Pose := Pose(3, "Warrior I", "Builds strength in legs and shoulders.", YogaPoseDrawable(3), Intermediate)
  const WarriorII: Pose := Pose(4, "Warrior II", "Increases stamina and focus.", YogaPoseDrawable(4), Intermediate)
  const TrianglePose: Pose := Pose(5, "Triangle Pose", "Stretches the legs and torso.", YogaPoseDrawable(5), Beginner)
  const TreePose: Pose := Pose(6, "Tree Pose", "Enhances balance and stability.", YogaPoseDrawable(6), Beginner)
  const ChairPose: Pose := Pose(7, "Chair Pose", "Strengthens legs and back.", YogaPoseDrawable(7), Intermediate)
  const PlankPose: Pose := Pose(8, "Plank Pose", "Tones the core muscles.", YogaPoseDrawable(8), Intermediate)
  const CobraPose: Pose := Pose(9, "Cobra Pose", "Opens the chest and relieves fatigue.", YogaPoseDrawable(9), Beginner)
  const BridgePose: Pose := Pose(10, "Bridge Pose", "Improves spine flexibility.", YogaPoseDrawable(10), Beginner)
  const ChildsPose: Pose := Pose(11, "Child\U{2019}s Pose", "Relaxes the body and mind.", YogaPoseDrawable(11), Beginner)
  const CatCowPose: Pose := Pose(12, "Cat-Cow Pose", "Improves spine mobility.", YogaPoseDrawable(12), Beginner)
  const SeatedForwardBend: Pose := Pose(13, "Seated Forward Bend", "Calms the mind " + "and stretches the hamstrings.", YogaPoseDrawable(13), Intermediate)
  const CamelPose: Pose := Pose(14, "Camel Pose", "Opens the heart and chest.", YogaPoseDrawable(14), Intermediate)
  const BoatPose: Pose := Pose(15, "Boat Pose", "Builds abdominal strength.", YogaPoseDrawable(15), Intermediate)
  const EaglePose: Pose := Pose(16, "Eagle Pose", "Improves focus and balance.", YogaPoseDrawable(16), Advanced)
  const HalfMoonPose: Pose := Pose(17, "Half Moon Pose", "Strengthens legs and improves balance.", YogaPoseDrawable(17), Intermediate)
  const RecliningTwist: Pose := Pose(18, "Reclining Twist", "Releases tension from spine.", YogaPoseDrawable(18), Beginner)
  const HappyBaby: Pose := Pose(19, "Happy Baby", "Relieves stress and fatigue.", YogaPoseDrawable(19), Beginner)
  const PigeonPose: Pose := Pose(20, "Pigeon Pose", "Opens hips and relieves tension.", YogaPoseDrawable(20), Intermediate)
  const SupineButterfly: Pose := Pose(21, "Supine Butterfly", "Opens hips and calms the nervous system.", YogaPoseDrawable(21), Beginner)
  const FishPose: Pose := Pose(22, "Fish Pose", "Expands the chest and throat.", YogaPoseDrawable(22), Intermediate)
  const CrowPose: Pose := Pose(23, "Crow Pose", "Builds arm strength and confidence.", YogaPoseDrawable(23), Advanced)
  const HeadToKneeForwardBend: Pose := Pose(24, "Head-to-Knee Forward Bend", "Soothes anxiety and stretches the spine.", YogaPoseDrawable(24), Intermediate)
  const LizardPose: Pose := Pose(25, "Lizard Pose", "Deep stretch for hips and legs.", YogaPoseDrawable(25), Intermediate)
  const LowLunge: Pose := Pose(26, "Low Lunge", "Strengthens thighs and groin.", YogaPoseDrawable(26), Beginner)
  const RevolvedTriangle: Pose := Pose(27, "Revolved Triangle", "Stimulates digestion " + "and strengthens the legs.", YogaPoseDrawable(27), Advanced)
  const ButterflyPose: Pose := Pose(28, "Butterfly Pose", "Improves hip flexibility.", YogaPoseDrawable(28), Beginner)
  const LegsUpTheWall: Pose := Pose(29, "Legs-Up-The-Wall", "Relieves tired legs " + "and promotes relaxation.", YogaPoseDrawable(29), Beginner)
  const Savasana: Pose := Pose(30, "Savasana", "Full body relaxation and integration.", YogaPoseDrawable(30), Beginner)

  /** The catalogue, in the order the app lists it. */
  function YogaPoses(): (poses: seq<Pose>)
    ensures |poses| == 30
  {
    [
      MountainPose,
      DownwardDog,
      WarriorI,
      WarriorII,
      TrianglePose,
      TreePose,
      ChairPose,
      PlankPose,
      CobraPose,
      BridgePose,
      ChildsPose,
      CatCowPose,
      SeatedForwardBend,
      CamelPose,
      BoatPose,
      EaglePose,
      HalfMoonPose,
      RecliningTwist,
      HappyBaby,
      PigeonPose,
      SupineButterfly,
      FishPose,
      CrowPose,
      HeadToKneeForwardBend,
      LizardPose,
      LowLunge,
      RevolvedTriangle,
      ButterflyPose,
      LegsUpTheWall,
      Savasana
    ]
  }

  /** The catalogue numbers its poses 1 to 30, in list order. */
  lemma CatalogueDays()
    ensures forall i :: 0 <= i < |YogaPoses()| ==> YogaPoses()[i].day == i + 1
  {
  }

  /** Days increase along the catalogue, so no two poses share a day. */
  lemma CatalogueDaysUnique()
    ensures IncreasingBy(YogaPoses(), Day)
    ensures DistinctBy(YogaPoses(), Day)
  {
    CatalogueDays();
  }

  /** Every pose carries a real level; none is rated `AllLevels`. */
  lemma CatalogueLevels()
    ensures forall i :: 0 <= i < |YogaPoses()| ==> IsPoseLevel(YogaPoses()[i].difficulty)
  {
  }

  /** Every pose has a name. */
  lemma CatalogueNamesNonEmpty()
    ensures forall i :: 0 <= i < |YogaPoses()| ==> |YogaPoses()[i].name| > 0
  {
  }
}
