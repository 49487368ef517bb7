/**
  The filter run, in proof, over the app's own catalogue: a level together
  with a query, and a level alone, with the lists they display.
 */
module CatalogueExamples {
  import opened DifficultyLevel
  import opened YogaPose
  import opened Sequences
  import opened Text
  import opened PoseFilter
  import opened Screen

  /** An entry of another level is not listed, whatever the query. */
  lemma EntryOfOtherLevel(poses: seq<Pose>, level: Difficulty, q: string, i: int)
    requires 0 <= i < |poses| && !MatchesDifficulty(level, poses[i])
    ensures poses[i] !in FilterPoses(poses, level, q)
  {
    FilterPosesMembership(poses, level, q, poses[i]);
  }

  /** Beginner poses matching "pose", in any letter case, include Cobra Pose, day 9. */
  lemma BeginnerPoseListsCobra(q: string)
    requires Lowercase(q) == "pose"
    ensures YogaPoses()[8] in FilterPoses(YogaPoses(), Beginner, q) && YogaPoses()[8].day == 9
  {
    NameWordListed(q, "pose", "Pose", YogaPoses(), Beginner, 8, 6);
  }

  /** They include Bridge Pose, day 10. */
  lemma BeginnerPoseListsBridge(q: string)
    requires Lowercase(q) == "pose"
    ensures YogaPoses()[9] in FilterPoses(YogaPoses(), Beginner, q) && YogaPoses()[9].day == 10
  {
    NameWordListed(q, "pose", "Pose", YogaPoses(), Beginner, 9, 7);
  }

  /** Whatever the query, Beginner leaves out Warrior I, day 3, which is rated Intermediate. */
  lemma BeginnerOmitsWarriorI(q: string)
    ensures YogaPoses()[2] !in FilterPoses(YogaPoses(), Beginner, q) && YogaPoses()[2].day == 3
  {
    EntryOfOtherLevel(YogaPoses(), Beginner, q, 2);
  }

  /**
    Beginner with "pose" lists Cobra Pose (day 9) and Bridge Pose (day 10) but
    not Warrior I (day 3).
   */
  lemma BeginnerPoseSearch()
    ensures var view := FilterPoses(YogaPoses(), Beginner, "pose");
      && YogaPoses()[8] in view && YogaPoses()[8].day == 9
      && YogaPoses()[9] in view && YogaPoses()[9].day == 10
      && YogaPoses()[2] !in view && YogaPoses()[2].day == 3
  {
    assert Lowercase("pose") == "pose";
    BeginnerPoseListsCobra("pose");
    BeginnerPoseListsBridge("pose");
    BeginnerOmitsWarriorI("pose");
  }

  /** An entry listed for a query stays listed when whitespace is typed after the query. */
  lemma TrailingSpaceKeepsEntry(poses: seq<Pose>, level: Difficulty, q: string, w: string, i: int)
    requires AllWhitespace(w)
    requires 0 <= i < |poses| && poses[i] in FilterPoses(poses, level, q)
    ensures poses[i] in FilterPoses(poses, level, q + w)
  {
    TrimIgnoresTrailing(q, w);
    QueryIsTrimmed(poses, level, q + w);
    QueryIsTrimmed(poses, level, q);
  }

  /**
    Spaces typed after "pose", in any letter case, as happens mid-search,
    still list Cobra Pose.
   */
  lemma PaddedPoseListsCobra(q: string, w: string)
    requires Lowercase(q) == "pose" && AllWhitespace(w)
    ensures YogaPoses()[8] in FilterPoses(YogaPoses(), Beginner, q + w)
  {
    BeginnerPoseListsCobra(q);
    TrailingSpaceKeepsEntry(YogaPoses(), Beginner, q, w, 8);
  }

  /** The positions of the catalogue's Advanced poses. */
  lemma AdvancedPositions()
    ensures forall i :: 0 <= i < |YogaPoses()| ==> (YogaPoses()[i].difficulty == Advanced <==> i in [15, 22, 26])
  {
  }

  /**
    With a specific level selected and an empty query, the list's keys are the
    days at the positions that hold that level, in order.
   */
  lemma LevelListKeys(poses: seq<Pose>, level: Difficulty, idx: seq<int>, keys: seq<int>)
    requires level != AllLevels && IsIndexList(idx, |poses|)
    requires forall i :: 0 <= i < |poses| ==> (poses[i].difficulty == level <==> i in idx)
    requires |keys| == |idx| && forall k :: 0 <= k < |idx| ==> poses[idx[k]].day == keys[k]
    ensures ListKeys(FilterPoses(poses, level, "")) == keys
  {
    BlankQueryKeepsLevel(poses, level, "");
    forall i | 0 <= i < |poses| ensures DifficultyStage(level)(poses[i]) <==> i in idx {
    }
    FilterIsPick(poses, DifficultyStage(level), idx);
  }

  /** Advanced with an empty query lists exactly days 16, 23 and 27, in that order. */
  lemma AdvancedList()
    ensures ListKeys(FilterPoses(YogaPoses(), Advanced, "")) == [16, 23, 27]
  {
    AdvancedPositions();
    LevelListKeys(YogaPoses(), Advanced, [15, 22, 26], [16, 23, 27]);
  }
}
