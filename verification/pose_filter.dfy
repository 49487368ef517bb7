/**
  The pose list shown by `YogaPosesScreen`: the catalogue passed through a
  difficulty filter and then a text filter, keeping the catalogue's order.
 */
module PoseFilter {
  import opened DifficultyLevel
  import opened YogaPose
  import opened Sequences
  import opened Text

  /**
    First stage: `AllLevels` is a wildcard that lets every pose through; a
    real level lets through exactly the poses rated at it.
   */
  function MatchesDifficulty(selected: Difficulty, pose: Pose): (b: bool)
    ensures selected == AllLevels ==> b
    ensures IsPoseLevel(selected) ==> (b <==> pose.difficulty == selected)
  {
    selected == AllLevels || pose.difficulty == selected
  }

  /**
    Second stage: the trimmed query is empty, or it occurs, ignoring case, in
    the pose's name or in its description. Equivalently: the query is blank,
    or its trimmed, lower-cased form occurs in the lower-cased name or the
    lower-cased description.
   */
  function MatchesQuery(query: string, pose: Pose): (b: bool)
    ensures b <==> || AllWhitespace(query)
                   || IsInfix(Lowercase(Trim(query)), Lowercase(pose.name))
                   || IsInfix(Lowercase(Trim(query)), Lowercase(pose.description))
  {
    TrimEmptyIffAllWhitespace(query);
    ContainsIgnoreCaseIsFoldedInfix(pose.name, Trim(query));
    ContainsIgnoreCaseIsFoldedInfix(pose.description, Trim(query));
    var q := Trim(query);
    || |q| == 0
    || ContainsIgnoreCase(pose.name, q)
    || ContainsIgnoreCase(pose.description, q)
  }

  /** The single condition under which a pose stays in the list. */
  predicate IsShown(selected: Difficulty, query: string, pose: Pose) {
    MatchesDifficulty(selected, pose) && MatchesQuery(query, pose)
  }

  function DifficultyStage(selected: Difficulty): Pose -> bool {
    pose => MatchesDifficulty(selected, pose)
  }

  function QueryStage(query: string): Pose -> bool {
    pose => MatchesQuery(query, pose)
  }

  function ShownStage(selected: Difficulty, query: string): Pose -> bool {
    pose => IsShown(selected, query, pose)
  }

  /**
    The list the screen displays for a selected level and a query: the poses
    that pass both stages, as a subsequence of the input. Which poses those
    are is stated by `FilterPosesSound` and `FilterPosesComplete`.
   */
  function FilterPoses(poses: seq<Pose>, selected: Difficulty, query: string): (shown: seq<Pose>)
    ensures IsSubsequence(shown, poses)
  {
    FilterTwice(poses, DifficultyStage(selected), QueryStage(query));
    Filter(Filter(poses, DifficultyStage(selected)), QueryStage(query))
  }

  /** Every listed pose passes both stages. */
  lemma FilterPosesSound(poses: seq<Pose>, selected: Difficulty, query: string)
    ensures forall i :: 0 <= i < |FilterPoses(poses, selected, query)| ==>
      IsShown(selected, query, FilterPoses(poses, selected, query)[i])
  {
    FilterTwice(poses, DifficultyStage(selected), QueryStage(query));
    var shown := FilterPoses(poses, selected, query);
    forall i | 0 <= i < |shown| ensures IsShown(selected, query, shown[i]) {
      assert DifficultyStage(selected)(shown[i]) && QueryStage(query)(shown[i]);
    }
  }

  /** Every input pose that passes both stages is listed. */
  lemma FilterPosesComplete(poses: seq<Pose>, selected: Difficulty, query: string)
    ensures forall i :: 0 <= i < |poses| && IsShown(selected, query, poses[i]) ==>
      poses[i] in FilterPoses(poses, selected, query)
  {
    FilterTwice(poses, DifficultyStage(selected), QueryStage(query));
  }

  /** The two-stage pipeline equals one pass with the combined condition. */
  lemma FilterPosesIsOnePass(poses: seq<Pose>, selected: Difficulty, query: string)
    ensures FilterPoses(poses, selected, query) == Filter(poses, ShownStage(selected, query))
  {
    FilterFusion(poses, DifficultyStage(selected), QueryStage(query));
    FilterCongruent(poses, Both(DifficultyStage(selected), QueryStage(query)), ShownStage(selected, query));
  }

  /**
    A pose occurs in the result exactly as often as in the input when it
    passes both stages, and not at all otherwise: nothing is duplicated or
    invented, and nothing that passes is dropped.
   */
  lemma FilterPosesMultiplicity(poses: seq<Pose>, selected: Difficulty, query: string, pose: Pose)
    ensures multiset(FilterPoses(poses, selected, query))[pose]
         == if IsShown(selected, query, pose) then multiset(poses)[pose] else 0
  {
    FilterPosesIsOnePass(poses, selected, query);
    FilterMultiplicity(poses, ShownStage(selected, query), pose);
  }

  /** A pose is listed if and only if it is in the input and passes both stages. */
  lemma FilterPosesMembership(poses: seq<Pose>, selected: Difficulty, query: string, pose: Pose)
    ensures pose in FilterPoses(poses, selected, query) <==> pose in poses && IsShown(selected, query, pose)
  {
    FilterPosesMultiplicity(poses, selected, query, pose);
  }

  /** With a specific level selected, every listed pose has exactly that level. */
  lemma SelectedLevelIsSound(poses: seq<Pose>, selected: Difficulty, query: string)
    requires selected != AllLevels
    ensures forall i :: 0 <= i < |FilterPoses(poses, selected, query)|
              ==> FilterPoses(poses, selected, query)[i].difficulty == selected
  {
    FilterPosesSound(poses, selected, query);
  }

  /** The text stage ignores the query's surrounding whitespace. */
  lemma QueryIsTrimmed(poses: seq<Pose>, selected: Difficulty, query: string)
    ensures FilterPoses(poses, selected, query) == FilterPoses(poses, selected, Trim(query))
  {
    TrimIdempotent(query);
    FilterCongruent(Filter(poses, DifficultyStage(selected)), QueryStage(query), QueryStage(Trim(query)));
  }

  /** Whitespace typed before or after a query changes nothing. */
  lemma QueryPaddingIgnored(poses: seq<Pose>, selected: Difficulty, w1: string, query: string, w2: string)
    requires AllWhitespace(w1) && AllWhitespace(w2)
    ensures FilterPoses(poses, selected, w1 + query + w2) == FilterPoses(poses, selected, query)
  {
    TrimIgnoresPadding(w1, query, w2);
    QueryIsTrimmed(poses, selected, w1 + query + w2);
    QueryIsTrimmed(poses, selected, query);
  }

  /** A blank query (empty or whitespace only) leaves the difficulty stage's list as is. */
  lemma BlankQueryKeepsLevel(poses: seq<Pose>, selected: Difficulty, query: string)
    requires AllWhitespace(query)
    ensures FilterPoses(poses, selected, query) == Filter(poses, DifficultyStage(selected))
  {
    TrimEmptyIffAllWhitespace(query);
    FilterKeepsAll(Filter(poses, DifficultyStage(selected)), QueryStage(query));
  }

  /** With every level selected and a blank query, the list is the input, unchanged. */
  lemma UnfilteredIsIdentity(poses: seq<Pose>, query: string)
    requires AllWhitespace(query)
    ensures FilterPoses(poses, AllLevels, query) == poses
  {
    BlankQueryKeepsLevel(poses, AllLevels, query);
    FilterKeepsAll(poses, DifficultyStage(AllLevels));
  }

  /** The text stage decides the same for two queries that differ only in letter case. */
  lemma MatchesQueryIgnoresCase(q1: string, q2: string, pose: Pose)
    requires Lowercase(q1) == Lowercase(q2)
    ensures MatchesQuery(q1, pose) == MatchesQuery(q2, pose)
  {
    TrimCommutesWithLowercase(q1);
    TrimCommutesWithLowercase(q2);
    var t1, t2 := Trim(q1), Trim(q2);
    assert |t1| == |Lowercase(t1)| == |Lowercase(t2)| == |t2|;
    ContainsIgnoresQueryCase(pose.name, t1, t2);
    ContainsIgnoresQueryCase(pose.description, t1, t2);
  }

  /** Two queries that differ only in letter case list the same poses. */
  lemma QueryIgnoresCase(poses: seq<Pose>, selected: Difficulty, q1: string, q2: string)
    requires Lowercase(q1) == Lowercase(q2)
    ensures FilterPoses(poses, selected, q1) == FilterPoses(poses, selected, q2)
  {
    var levelled := Filter(poses, DifficultyStage(selected));
    forall pose | pose in levelled ensures QueryStage(q1)(pose) == QueryStage(q2)(pose) {
      MatchesQueryIgnoresCase(q1, q2, pose);
    }
    FilterCongruent(levelled, QueryStage(q1), QueryStage(q2));
  }

  /**
    A query whose lower-case form occurs in the lower-cased name of a pose,
    at offset `at`, matches that pose: what trimming leaves of the query lies
    inside that occurrence.
   */
  lemma NameHoldsQuery(query: string, pose: Pose, at: int)
    requires 0 <= at && at + |query| <= |pose.name|
    requires Lowercase(pose.name)[at..at + |query|] == Lowercase(query)
    ensures MatchesQuery(query, pose)
  {
    ContainsTrimmedCore(pose.name, query, at);
  }

  /**
    An entry of the selected level whose name holds `cased` at offset `at` is
    listed for every query that lower-cases to `word`, when `cased` itself
    lower-cases to `word`.
   */
  lemma NameWordListed(q: string, word: string, cased: string, poses: seq<Pose>, level: Difficulty, i: int, at: int)
    requires Lowercase(q) == word && Lowercase(cased) == word
    requires 0 <= i < |poses| && MatchesDifficulty(level, poses[i])
    requires 0 <= at && at + |cased| <= |poses[i].name| && poses[i].name[at..at + |cased|] == cased
    ensures poses[i] in FilterPoses(poses, level, q)
  {
    var name := poses[i].name;
    assert Lowercase(name)[at..at + |q|] == Lowercase(q) by {
      forall k | 0 <= k < |q| ensures Lowercase(name)[at..at + |q|][k] == Lowercase(q)[k] {
        assert name[at + k] == cased[k];
      }
    }
    NameHoldsQuery(q, poses[i], at);
    FilterPosesMembership(poses, level, q, poses[i]);
  }

  /**
    A pose whose name and whose description each lack some letter of the
    trimmed query, in both cases, does not match a non-blank query.
   */
  lemma MissingLettersRuleOut(query: string, pose: Pose, k: int, l: int)
    requires 0 <= k < |Trim(query)| && LacksLetter(pose.name, Trim(query)[k])
    requires 0 <= l < |Trim(query)| && LacksLetter(pose.description, Trim(query)[l])
    ensures !MatchesQuery(query, pose)
  {
    MissingLetterRulesOutMatch(pose.name, Trim(query), k);
    MissingLetterRulesOutMatch(pose.description, Trim(query), l);
  }

  /** Typing a query only removes poses from the list shown for an empty query. */
  lemma QueryNarrows(poses: seq<Pose>, selected: Difficulty, query: string)
    ensures IsSubsequence(FilterPoses(poses, selected, query), FilterPoses(poses, selected, ""))
  {
    BlankQueryKeepsLevel(poses, selected, "");
  }

  /** Selecting a level only removes poses from the list shown for `AllLevels`. */
  lemma LevelNarrows(poses: seq<Pose>, selected: Difficulty, query: string)
    ensures IsSubsequence(FilterPoses(poses, selected, query), FilterPoses(poses, AllLevels, query))
  {
    FilterPosesIsOnePass(poses, selected, query);
    FilterPosesIsOnePass(poses, AllLevels, query);
    FilterMonotone(poses, ShownStage(selected, query), ShownStage(AllLevels, query));
  }

  /**
    Distinct (and increasing) days in the input stay distinct (and
    increasing) in the result, so they can serve as list keys.
   */
  lemma FilterPosesKeepsDays(poses: seq<Pose>, selected: Difficulty, query: string)
    ensures DistinctBy(poses, Day) ==> DistinctBy(FilterPoses(poses, selected, query), Day)
    ensures IncreasingBy(poses, Day) ==> IncreasingBy(FilterPoses(poses, selected, query), Day)
  {
    var shown := FilterPoses(poses, selected, query);
    if DistinctBy(poses, Day) {
      SubsequenceKeepsDistinct(shown, poses, Day);
    }
    if IncreasingBy(poses, Day) {
      SubsequenceKeepsIncreasing(shown, poses, Day);
    }
  }

  /**
    The lazy `asSequence().filter().filter().toList()` pipeline: each pose in
    turn is tested against both stages and appended when it passes.
   */
  method FilterPosesInOrder(poses: seq<Pose>, selected: Difficulty, query: string) returns (shown: seq<Pose>)
    ensures shown == FilterPoses(poses, selected, query)
  {
    var keep := ShownStage(selected, query);
    shown := [];
    for i := 0 to |poses|
      invariant shown == Filter(poses[..i], keep)
    {
      var pose := poses[i];
      FilterSnoc(poses[..i], pose, keep);
      assert poses[..i + 1] == poses[..i] + [pose];
      if MatchesDifficulty(selected, pose) && MatchesQuery(query, pose) {
        shown := shown + [pose];
      }
    }
    assert poses[..|poses|] == poses;
    FilterPosesIsOnePass(poses, selected, query);
  }
}
