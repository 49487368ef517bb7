/**
  The search for "warrior" over the catalogue, in any letter case: it lists
  Warrior I and Warrior II and nothing else. Every other pose is ruled out by
  a letter of "warrior" missing from its name and the 'w' missing from its
  description.

  Each of the twenty-eight other poses is ruled out in a lemma of its own,
  naming the missing letter, so that every proof obligation holds the
  characters of one catalogue entry only; `WarriorMembers` then combines the
  thirty facts by a case split on the position.
 */
module WarriorSearch {
  import opened DifficultyLevel
  import opened YogaPose
  import opened Sequences
  import opened Text
  import opened PoseFilter
  import opened Screen

  /** Each letter of a query that lower-cases to "warrior" is a case form of the matching letter. */
  lemma WarriorQueryCases(q: string)
    requires Lowercase(q) == "warrior"
    ensures |q| == 7
    ensures forall k :: 0 <= k < 7 ==> LowercaseChar(q[k]) == "warrior"[k] && UppercaseChar(q[k]) == "WARRIOR"[k]
  {
    forall k | 0 <= k < 7 ensures UppercaseChar(q[k]) == "WARRIOR"[k] {
      SameLetterForms(q[k], "warrior"[k]);
    }
  }

  /**
    A pose whose name lacks the `k`-th letter of "warrior" and whose
    description lacks 'w' does not match the query.
   */
  lemma NotAWarrior(q: string, pose: Pose, k: int)
    requires Lowercase(q) == "warrior"
    requires 0 <= k < 7 && LacksChars(pose.name, "warrior"[k], "WARRIOR"[k])
    requires LacksChars(pose.description, 'w', 'W')
    ensures !MatchesQuery(q, pose)
  {
    WarriorQueryCases(q);
    FoldedTrimmed(q, "warrior");
    MissingLettersRuleOut(q, pose, k, 0);
  }

  /** Such a pose is therefore not listed. */
  lemma NotListed(q: string, poses: seq<Pose>, i: int, k: int)
    requires Lowercase(q) == "warrior"
    requires 0 <= i < |poses|
    requires 0 <= k < 7 && LacksChars(poses[i].name, "warrior"[k], "WARRIOR"[k])
    requires LacksChars(poses[i].description, 'w', 'W')
    ensures poses[i] !in FilterPoses(poses, AllLevels, q)
  {
    NotAWarrior(q, poses[i], k);
    FilterPosesMembership(poses, AllLevels, q, poses[i]);
  }

  /** Day 1: no 'w' in the name, no 'w' in the description. */
  lemma MountainPoseNotListed(q: string)
    requires Lowercase(q) == "warrior"
    ensures YogaPoses()[0] !in FilterPoses(YogaPoses(), AllLevels, q)
  {
    NotListed(q, YogaPoses(), 0, 0);
  }

  /** Day 2: no 'i' in the name, no 'w' in the description. */
  lemma DownwardDogNotListed(q: string)
    requires Lowercase(q) == "warrior"
    ensures YogaPoses()[1] !in FilterPoses(YogaPoses(), AllLevels, q)
  {
    NotListed(q, YogaPoses(), 1, 4);
  }

  /** Day 5: no 'w' in the name, no 'w' in the description. */
  lemma TrianglePoseNotListed(q: string)
    requires Lowercase(q) == "warrior"
    ensures YogaPoses()[4] !in FilterPoses(YogaPoses(), AllLevels, q)
  {
    NotListed(q, YogaPoses(), 4, 0);
  }

  /** Day 6: no 'w' in the name, no 'w' in the description. */
  lemma TreePoseNotListed(q: string)
    requires Lowercase(q) == "warrior"
    ensures YogaPoses()[5] !in FilterPoses(YogaPoses(), AllLevels, q)
  {
    NotListed(q, YogaPoses(), 5, 0);
  }

  /** Day 7: no 'w' in the name, no 'w' in the description. */
  lemma ChairPoseNotListed(q: string)
    requires Lowercase(q) == "warrior"
    ensures YogaPoses()[6] !in FilterPoses(YogaPoses(), AllLevels, q)
  {
    NotListed(q, YogaPoses(), 6, 0);
  }

  /** Day 8: no 'w' in the name, no 'w' in the description. */
  lemma PlankPoseNotListed(q: string)
    requires Lowercase(q) == "warrior"
    ensures YogaPoses()[7] !in FilterPoses(YogaPoses(), AllLevels, q)
  {
    NotListed(q, YogaPoses(), 7, 0);
  }

  /** Day 9: no 'w' in the name, no 'w' in the description. */
  lemma CobraPoseNotListed(q: string)
    requires Lowercase(q) == "warrior"
    ensures YogaPoses()[8] !in FilterPoses(YogaPoses(), AllLevels, q)
  {
    NotListed(q, YogaPoses(), 8, 0);
  }

  /** Day 10: no 'w' in the name, no 'w' in the description. */
  lemma BridgePoseNotListed(q: string)
    requires Lowercase(q) == "warrior"
    ensures YogaPoses()[9] !in FilterPoses(YogaPoses(), AllLevels, q)
  {
    NotListed(q, YogaPoses(), 9, 0);
  }

  /** Day 11: no 'w' in the name, no 'w' in the description. */
  lemma ChildsPoseNotListed(q: string)
    requires Lowercase(q) == "warrior"
    ensures YogaPoses()[10] !in FilterPoses(YogaPoses(), AllLevels, q)
  {
    NotListed(q, YogaPoses(), 10, 0);
  }

  /** Day 12: no 'i' in the name, no 'w' in the description. */
  lemma CatCowPoseNotListed(q: string)
    requires Lowercase(q) == "warrior"
    ensures YogaPoses()[11] !in FilterPoses(YogaPoses(), AllLevels, q)
  {
    NotListed(q, YogaPoses(), 11, 4);
  }

  /** Day 13: no 'i' in the name, no 'w' in the description. */
  lemma SeatedForwardBendNotListed(q: string)
    requires Lowercase(q) == "warrior"
    ensures YogaPoses()[12] !in FilterPoses(YogaPoses(), AllLevels, q)
  {
    LacksCharsConcat("Calms the mind ", "and stretches the hamstrings.", 'w', 'W');
    NotListed(q, YogaPoses(), 12, 4);
  }

  /** Day 14: no 'w' in the name, no 'w' in the description. */
  lemma CamelPoseNotListed(q: string)
    requires Lowercase(q) == "warrior"
    ensures YogaPoses()[13] !in FilterPoses(YogaPoses(), AllLevels, q)
  {
    NotListed(q, YogaPoses(), 13, 0);
  }

  /** Day 15: no 'w' in the name, no 'w' in the description. */
  lemma BoatPoseNotListed(q: string)
    requires Lowercase(q) == "warrior"
    ensures YogaPoses()[14] !in FilterPoses(YogaPoses(), AllLevels, q)
  {
    NotListed(q, YogaPoses(), 14, 0);
  }

  /** Day 16: no 'w' in the name, no 'w' in the description. */
  lemma EaglePoseNotListed(q: string)
    requires Lowercase(q) == "warrior"
    ensures YogaPoses()[15] !in FilterPoses(YogaPoses(), AllLevels, q)
  {
    NotListed(q, YogaPoses(), 15, 0);
  }

  /** Day 17: no 'w' in the name, no 'w' in the description. */
  lemma HalfMoonPoseNotListed(q: string)
    requires Lowercase(q) == "warrior"
    ensures YogaPoses()[16] !in FilterPoses(YogaPoses(), AllLevels, q)
  {
    NotListed(q, YogaPoses(), 16, 0);
  }

  /** Day 18: no 'o' in the name, no 'w' in the description. */
  lemma RecliningTwistNotListed(q: string)
    requires Lowercase(q) == "warrior"
    ensures YogaPoses()[17] !in FilterPoses(YogaPoses(), AllLevels, q)
  {
    NotListed(q, YogaPoses(), 17, 5);
  }

  /** Day 19: no 'w' in the name, no 'w' in the description. */
  lemma HappyBabyNotListed(q: string)
    requires Lowercase(q) == "warrior"
    ensures YogaPoses()[18] !in FilterPoses(YogaPoses(), AllLevels, q)
  {
    NotListed(q, YogaPoses(), 18, 0);
  }

  /** Day 20: no 'w' in the name, no 'w' in the description. */
  lemma PigeonPoseNotListed(q: string)
    requires Lowercase(q) == "warrior"
    ensures YogaPoses()[19] !in FilterPoses(YogaPoses(), AllLevels, q)
  {
    NotListed(q, YogaPoses(), 19, 0);
  }

  /** Day 21: no 'w' in the name, no 'w' in the description. */
  lemma SupineButterflyNotListed(q: string)
    requires Lowercase(q) == "warrior"
    ensures YogaPoses()[20] !in FilterPoses(YogaPoses(), AllLevels, q)
  {
    NotListed(q, YogaPoses(), 20, 0);
  }

  /** Day 22: no 'w' in the name, no 'w' in the description. */
  lemma FishPoseNotListed(q: string)
    requires Lowercase(q) == "warrior"
    ensures YogaPoses()[21] !in FilterPoses(YogaPoses(), AllLevels, q)
  {
    NotListed(q, YogaPoses(), 21, 0);
  }

  /** Day 23: no 'i' in the name, no 'w' in the description. */
  lemma CrowPoseNotListed(q: string)
    requires Lowercase(q) == "warrior"
    ensures YogaPoses()[22] !in FilterPoses(YogaPoses(), AllLevels, q)
  {
    NotListed(q, YogaPoses(), 22, 4);
  }

  /** Day 24: no 'i' in the name, no 'w' in the description. */
  lemma HeadToKneeForwardBendNotListed(q: string)
    requires Lowercase(q) == "warrior"
    ensures YogaPoses()[23] !in FilterPoses(YogaPoses(), AllLevels, q)
  {
    NotListed(q, YogaPoses(), 23, 4);
  }

  /** Day 25: no 'w' in the name, no 'w' in the description. */
  lemma LizardPoseNotListed(q: string)
    requires Lowercase(q) == "warrior"
    ensures YogaPoses()[24] !in FilterPoses(YogaPoses(), AllLevels, q)
  {
    NotListed(q, YogaPoses(), 24, 0);
  }

  /** Day 26: no 'i' in the name, no 'w' in the description. */
  lemma LowLungeNotListed(q: string)
    requires Lowercase(q) == "warrior"
    ensures YogaPoses()[25] !in FilterPoses(YogaPoses(), AllLevels, q)
  {
    NotListed(q, YogaPoses(), 25, 4);
  }

  /** Day 27: no 'w' in the name, no 'w' in the description. */
  lemma RevolvedTriangleNotListed(q: string)
    requires Lowercase(q) == "warrior"
    ensures YogaPoses()[26] !in FilterPoses(YogaPoses(), AllLevels, q)
  {
    LacksCharsConcat("Stimulates digestion ", "and strengthens the legs.", 'w', 'W');
    NotListed(q, YogaPoses(), 26, 0);
  }

  /** Day 28: no 'w' in the name, no 'w' in the description. */
  lemma ButterflyPoseNotListed(q: string)
    requires Lowercase(q) == "warrior"
    ensures YogaPoses()[27] !in FilterPoses(YogaPoses(), AllLevels, q)
  {
    NotListed(q, YogaPoses(), 27, 0);
  }

  /** Day 29: no 'i' in the name, no 'w' in the description. */
  lemma LegsUpTheWallNotListed(q: string)
    requires Lowercase(q) == "warrior"
    ensures YogaPoses()[28] !in FilterPoses(YogaPoses(), AllLevels, q)
  {
    LacksCharsConcat("Relieves tired legs ", "and promotes relaxation.", 'w', 'W');
    NotListed(q, YogaPoses(), 28, 4);
  }

  /** Day 30: no 'w' in the name, no 'w' in the description. */
  lemma SavasanaNotListed(q: string)
    requires Lowercase(q) == "warrior"
    ensures YogaPoses()[29] !in FilterPoses(YogaPoses(), AllLevels, q)
  {
    NotListed(q, YogaPoses(), 29, 0);
  }

  /** Day 3, Warrior I, is listed. */
  lemma WarriorIListed(q: string)
    requires Lowercase(q) == "warrior"
    ensures YogaPoses()[2] in FilterPoses(YogaPoses(), AllLevels, q)
  {
    NameWordListed(q, "warrior", "Warrior", YogaPoses(), AllLevels, 2, 0);
  }

  /** Day 4, Warrior II, is listed. */
  lemma WarriorIIListed(q: string)
    requires Lowercase(q) == "warrior"
    ensures YogaPoses()[3] in FilterPoses(YogaPoses(), AllLevels, q)
  {
    NameWordListed(q, "warrior", "Warrior", YogaPoses(), AllLevels, 3, 0);
  }

  /** Of the thirty poses, days 3 and 4 are listed and no other. */
  lemma WarriorMembers(q: string)
    requires Lowercase(q) == "warrior"
    ensures YogaPoses()[2] in FilterPoses(YogaPoses(), AllLevels, q)
    ensures YogaPoses()[3] in FilterPoses(YogaPoses(), AllLevels, q)
    ensures forall i :: 0 <= i < |YogaPoses()| && i != 2 && i != 3 ==>
      YogaPoses()[i] !in FilterPoses(YogaPoses(), AllLevels, q)
  {
    var c := YogaPoses();
    MountainPoseNotListed(q);
    DownwardDogNotListed(q);
    TrianglePoseNotListed(q);
    TreePoseNotListed(q);
    ChairPoseNotListed(q);
    PlankPoseNotListed(q);
    CobraPoseNotListed(q);
    BridgePoseNotListed(q);
    ChildsPoseNotListed(q);
    CatCowPoseNotListed(q);
    SeatedForwardBendNotListed(q);
    CamelPoseNotListed(q);
    BoatPoseNotListed(q);
    EaglePoseNotListed(q);
    HalfMoonPoseNotListed(q);
    RecliningTwistNotListed(q);
    HappyBabyNotListed(q);
    PigeonPoseNotListed(q);
    SupineButterflyNotListed(q);
    FishPoseNotListed(q);
    CrowPoseNotListed(q);
    HeadToKneeForwardBendNotListed(q);
    LizardPoseNotListed(q);
    LowLungeNotListed(q);
    RevolvedTriangleNotListed(q);
    ButterflyPoseNotListed(q);
    LegsUpTheWallNotListed(q);
    SavasanaNotListed(q);
    WarriorIListed(q);
    WarriorIIListed(q);
    forall i | 0 <= i < |c| && i != 2 && i != 3 ensures c[i] !in FilterPoses(c, AllLevels, q) {
      if i == 0 {
      } else if i == 1 {
      } else if i == 4 {
      } else if i == 5 {
      } else if i == 6 {
      } else if i == 7 {
      } else if i == 8 {
      } else if i == 9 {
      } else if i == 10 {
      } else if i == 11 {
      } else if i == 12 {
      } else if i == 13 {
      } else if i == 14 {
      } else if i == 15 {
      } else if i == 16 {
      } else if i == 17 {
      } else if i == 18 {
      } else if i == 19 {
      } else if i == 20 {
      } else if i == 21 {
      } else if i == 22 {
      } else if i == 23 {
      } else if i == 24 {
      } else if i == 25 {
      } else if i == 26 {
      } else if i == 27 {
      } else if i == 28 {
      } else {
        assert i == 29;
      }
    }
  }

  /** The warrior poses are the only catalogue entries listed. */
  lemma WarriorsOnly(q: string)
    requires Lowercase(q) == "warrior"
    ensures OnlyTwoAt(FilterPoses(YogaPoses(), AllLevels, q), YogaPoses(), 2, 3)
  {
    WarriorMembers(q);
  }

  /**
    A selection that holds exactly two entries of a list, with different
    days, shows those two days in list order.
   */
  lemma OnlyTwoKeys(shown: seq<Pose>, poses: seq<Pose>, a: int, b: int, ka: int, kb: int)
    requires IsSubsequence(shown, poses) && OnlyTwoAt(shown, poses, a, b)
    requires poses[a].day == ka && poses[b].day == kb && ka != kb
    ensures ListKeys(shown) == [ka, kb]
  {
    OnlyTwoAtIsPair(shown, poses, a, b);
  }

  /** Warrior I and Warrior II are the entries for days 3 and 4. */
  lemma WarriorDays()
    ensures YogaPoses()[2].day == 3 && YogaPoses()[3].day == 4
  {
  }

  /** Any letter case of "warrior", with every level selected, lists exactly days 3 and 4. */
  lemma WarriorList(q: string)
    requires Lowercase(q) == "warrior"
    ensures ListKeys(FilterPoses(YogaPoses(), AllLevels, q)) == [3, 4]
  {
    WarriorsOnly(q);
    WarriorDays();
    OnlyTwoKeys(FilterPoses(YogaPoses(), AllLevels, q), YogaPoses(), 2, 3, 3, 4);
  }

  /** Typed in capitals, "WARRIOR" lists exactly days 3 and 4. */
  lemma UppercaseWarriorList()
    ensures ListKeys(FilterPoses(YogaPoses(), AllLevels, "WARRIOR")) == [3, 4]
  {
    assert Lowercase("WARRIOR") == "warrior";
    WarriorList("WARRIOR");
  }

  /** Typed in lower case, "warrior" lists exactly days 3 and 4 as well. */
  lemma LowercaseWarriorList()
    ensures ListKeys(FilterPoses(YogaPoses(), AllLevels, "warrior")) == [3, 4]
  {
    assert Lowercase("warrior") == "warrior";
    WarriorList("warrior");
  }
}
