/**
  The state `YogaPosesScreen` and the activity keep: the selected level and
  the query, the list they produce with its item keys, and the theme flag.
 */
module Screen {
  import opened DifficultyLevel
  import opened YogaPose
  import opened Sequences
  import opened PoseFilter
  import opened Toggle

  /** The two filter inputs the screen remembers. */
  datatype FilterState = FilterState(selectedDifficulty: Difficulty, query: string)

  /** Every level selected and nothing typed. */
  const InitialFilterState: FilterState := FilterState(AllLevels, "")

  /** A tap on one of the level circles. */
  function SelectDifficulty(state: FilterState, level: Difficulty): (next: FilterState)
    ensures next.selectedDifficulty == level
    ensures next.query == state.query
  {
    state.(selectedDifficulty := level)
  }

  /** An edit in the search bar, the clear button included, replaces the query. */
  function ChangeQuery(state: FilterState, query: string): (next: FilterState)
    ensures next.query == query
    ensures next.selectedDifficulty == state.selectedDifficulty
  {
    state.(query := query)
  }

  /** The poses the list displays for a state. */
  function VisiblePoses(poses: seq<Pose>, state: FilterState): seq<Pose> {
    FilterPoses(poses, state.selectedDifficulty, state.query)
  }

  /** The item keys the list uses: each displayed pose's day. */
  function ListKeys(view: seq<Pose>): (keys: seq<int>)
    ensures |keys| == |view|
    ensures forall i :: 0 <= i < |view| ==> keys[i] == view[i].day
  {
    seq(|view|, i requires 0 <= i < |view| => view[i].day)
  }

  /** Before any interaction the list shows every pose, in order. */
  lemma InitialViewIsFullList(poses: seq<Pose>)
    ensures VisiblePoses(poses, InitialFilterState) == poses
  {
    UnfilteredIsIdentity(poses, "");
  }

  /**
    Selecting `AllLevels` and clearing the search bar, from any state and in
    either order, brings the full list back.
   */
  lemma ResetShowsEverything(poses: seq<Pose>, state: FilterState)
    ensures VisiblePoses(poses, ChangeQuery(SelectDifficulty(state, AllLevels), "")) == poses
    ensures VisiblePoses(poses, SelectDifficulty(ChangeQuery(state, ""), AllLevels)) == poses
  {
    UnfilteredIsIdentity(poses, "");
  }

  /**
    Every state shows a subsequence of what the initial state shows: the
    filters only ever hide poses, never add or reorder them.
   */
  lemma EveryViewWithinInitial(poses: seq<Pose>, state: FilterState)
    ensures IsSubsequence(VisiblePoses(poses, state), VisiblePoses(poses, InitialFilterState))
  {
    InitialViewIsFullList(poses);
  }

  /**
    A tap on a level circle changes only the level, and what is then shown
    passes that level and the query already typed.
   */
  lemma SelectKeepsQuery(poses: seq<Pose>, state: FilterState, level: Difficulty)
    ensures SelectDifficulty(state, level).query == state.query
    ensures forall pose :: pose in VisiblePoses(poses, SelectDifficulty(state, level)) <==>
      pose in poses && MatchesDifficulty(level, pose) && MatchesQuery(state.query, pose)
  {
    forall pose ensures pose in VisiblePoses(poses, SelectDifficulty(state, level)) <==>
      pose in poses && MatchesDifficulty(level, pose) && MatchesQuery(state.query, pose)
    {
      FilterPosesMembership(poses, level, state.query, pose);
    }
  }

  /**
    An edit in the search bar changes only the query, and what is then shown
    passes the selected level and the new query.
   */
  lemma ChangeKeepsLevel(poses: seq<Pose>, state: FilterState, query: string)
    ensures ChangeQuery(state, query).selectedDifficulty == state.selectedDifficulty
    ensures forall pose :: pose in VisiblePoses(poses, ChangeQuery(state, query)) <==>
      pose in poses && MatchesDifficulty(state.selectedDifficulty, pose) && MatchesQuery(query, pose)
  {
    forall pose ensures pose in VisiblePoses(poses, ChangeQuery(state, query)) <==>
      pose in poses && MatchesDifficulty(state.selectedDifficulty, pose) && MatchesQuery(query, pose)
    {
      FilterPosesMembership(poses, state.selectedDifficulty, query, pose);
    }
  }

  /**
    Whatever the state, the list's keys are distinct whenever the input's
    days are, as the list requires of its keys.
   */
  lemma ListKeysUnique(poses: seq<Pose>, state: FilterState)
    requires DistinctBy(poses, Day)
    ensures var keys := ListKeys(VisiblePoses(poses, state));
      forall i, j :: 0 <= i < j < |keys| ==> keys[i] != keys[j]
  {
    FilterPosesKeepsDays(poses, state.selectedDifficulty, state.query);
  }

  /** For the catalogue, in every state, the keys are distinct and in day order. */
  lemma CatalogueKeysIncrease(state: FilterState)
    ensures var keys := ListKeys(VisiblePoses(YogaPoses(), state));
      forall i, j :: 0 <= i < j < |keys| ==> keys[i] < keys[j]
  {
    CatalogueDaysUnique();
    FilterPosesKeepsDays(YogaPoses(), state.selectedDifficulty, state.query);
  }

  /** The app starts in the light theme. */
  const InitiallyLight: bool := true

  /** The theme button in the app bar: a press switches between light and dark. */
  function OnThemeToggle(isLightTheme: bool): (next: bool)
    ensures DarkTheme(next) <==> !DarkTheme(isLightTheme)
  {
    Flip(isLightTheme)
  }

  /** The theme is dark exactly when the light flag is off. */
  function DarkTheme(isLightTheme: bool): bool {
    !isLightTheme
  }

  /** After `n` presses of the theme button the app is dark exactly when `n` is odd. */
  lemma DarkAfterOddToggles(n: nat)
    ensures DarkTheme(FlipTimes(InitiallyLight, n)) <==> n % 2 == 1
  {
    FlipTimesParity(InitiallyLight, n);
  }
}
