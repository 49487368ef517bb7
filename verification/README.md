# ZenPose in Dafny

ZenPose is an Android app that lists thirty yoga poses, one per day of a
thirty-day programme. The main screen `YogaPosesScreen` has two inputs:

- a row of difficulty circles (`AllLevels`, `Beginner`, `Intermediate`, `Advanced`);
- a search bar.

The screen keeps the poses that match the selected level, then keeps those
whose name or description contains the trimmed query, ignoring case. The
result goes to a lazy list keyed by each pose's day. The app bar switches
between a light and a dark theme. A flippable card, `ToggleYogaPoseCard`,
shows a pose's summary on its front and its description on its back.

This project models that core as pure Dafny functions and proves what the
screen and the card promise.

| file | module | contents |
|---|---|---|
| `difficulty_level.dfy` | `DifficultyLevel` | the four-valued level enum |
| `yoga_pose.dfy` | `YogaPose` | the pose record, the 30-pose catalogue, catalogue facts |
| `sequences.dfy` | `Sequences` | an order-preserving `Filter`, the subsequence relation, keys kept distinct or increasing |
| `text.dfy` | `Text` | Kotlin's `String.trim()` and `contains(q, ignoreCase = true)` |
| `pose_filter.dfy` | `PoseFilter` | the two-stage filter of `YogaPosesScreen` and its laws |
| `toggle.dfy` | `Toggle` | the boolean flip shared by the theme switch and the card |
| `screen.dfy` | `Screen` | the screen's remembered state, list keys, theme flag |
| `yoga_pose_card.dfy` | `YogaPoseCard` | the card's flip state and its two faces |
| `warrior_search.dfy` | `WarriorSearch` | "warrior", in any case, lists exactly days 3 and 4 |
| `catalogue_examples.dfy` | `CatalogueExamples` | the Beginner + "pose" search, and the Advanced list |

Inputs and outputs:

- Image resources are opaque references, `YogaPoseDrawable(n)` for `R.drawable.yoga_pose_n`.
- The UI is reduced to its state: the selected level, the query, the theme flag and the flip flag.
- User actions are functions from state to state.

## Model

All paths below are under `app/src/main/java/com/example/zenpose/`. The table lists them as relative paths from the repository root.

| member | source | states |
|---|---|---|
| YogaPose.YogaPoses | app/src/main/java/com/example/zenpose/data/YogaPose.kt:14-225 | the catalogue has exactly thirty entries |
| YogaPose.CatalogueDays | app/src/main/java/com/example/zenpose/data/YogaPose.kt:14-225 | the entry at position i is day i + 1, so days run 1..30 in list order |
| YogaPose.CatalogueDaysUnique | app/src/main/java/com/example/zenpose/data/YogaPose.kt:14-225 | days strictly increase along the catalogue, so no two poses share a day |
| YogaPose.CatalogueLevels | app/src/main/java/com/example/zenpose/data/YogaPose.kt:14-225 | no pose is rated `AllLevels`; that value only selects |
| YogaPose.CatalogueNamesNonEmpty | app/src/main/java/com/example/zenpose/data/YogaPose.kt:14-225 | every pose has a non-empty name |
| Sequences.Filter | app/src/main/java/com/example/zenpose/MainActivity.kt:156-162 | a sequence filter keeps exactly the elements that pass (sound and complete), in their original order, never more than the input |
| Sequences.FilterFusion | app/src/main/java/com/example/zenpose/MainActivity.kt:156-162 | two chained filters equal one filter with the conjunction |
| Sequences.FilterMultiplicity | app/src/main/java/com/example/zenpose/MainActivity.kt:156-162 | a filter keeps each passing element as often as the input holds it and drops every failing one |
| Sequences.FilterIsPick | app/src/main/java/com/example/zenpose/MainActivity.kt:156-162 | when idx lists exactly the passing positions in increasing order, the filter returns the elements at those positions |
| Sequences.FilterSnoc | app/src/main/java/com/example/zenpose/MainActivity.kt:156-162 | filtering a list with one more element appends that element exactly when it passes |
| Sequences.SubsequenceKeepsDistinct | app/src/main/java/com/example/zenpose/MainActivity.kt:166 | a subsequence of a list with distinct keys has distinct keys |
| Sequences.SubsequenceKeepsIncreasing | app/src/main/java/com/example/zenpose/MainActivity.kt:166 | a subsequence of a list with increasing keys has increasing keys |
| Sequences.OnlyTwoAtIsPair | app/src/main/java/com/example/zenpose/MainActivity.kt:156-162 | a subsequence holding exactly two different entries of a list, and no other, is those two in list order |
| Text.Trim | app/src/main/java/com/example/zenpose/MainActivity.kt:159 | `trim()` leaves no whitespace at either end |
| Text.TrimSplit | app/src/main/java/com/example/zenpose/MainActivity.kt:159 | the input is whitespace + the trimmed string + whitespace |
| Text.TrimReturnsCore | app/src/main/java/com/example/zenpose/MainActivity.kt:159 | a trimmed core padded with whitespace on both sides trims back to exactly that core |
| Text.TrimIgnoresPadding | app/src/main/java/com/example/zenpose/MainActivity.kt:159 | whitespace added around a string does not change its trim |
| Text.TrimIgnoresTrailing | app/src/main/java/com/example/zenpose/MainActivity.kt:159 | whitespace typed after a string does not change its trim |
| Text.TrimIdempotent | app/src/main/java/com/example/zenpose/MainActivity.kt:159 | trimming twice is trimming once |
| Text.TrimEmptyIffAllWhitespace | app/src/main/java/com/example/zenpose/MainActivity.kt:159-160 | `q.isEmpty()` holds after trimming exactly when the query is all whitespace |
| Text.TrimCommutesWithLowercase | app/src/main/java/com/example/zenpose/MainActivity.kt:159-160 | trimming and lower-casing commute |
| Text.CharsMatchFrom | app/src/main/java/com/example/zenpose/MainActivity.kt:160 | the character loop of a region match is true exactly when every remaining character is equal ignoring case |
| Text.RegionMatchesIgnoreCase | app/src/main/java/com/example/zenpose/MainActivity.kt:160 | a region match holds exactly when the query fits at that offset and matches there, ignoring case |
| Text.IndexOfIgnoreCase | app/src/main/java/com/example/zenpose/MainActivity.kt:160 | the result is -1 or a matching offset, and no earlier offset matches |
| Text.ContainsIgnoreCase | app/src/main/java/com/example/zenpose/MainActivity.kt:160 | `contains(q, true)` holds exactly when some offset matches ignoring case |
| Text.ContainsIgnoreCaseIsFoldedInfix | app/src/main/java/com/example/zenpose/MainActivity.kt:160 | case-insensitive containment is plain containment of the lower-cased query in the lower-cased text, in both directions |
| Text.ContainsIgnoresQueryCase | app/src/main/java/com/example/zenpose/MainActivity.kt:160 | queries that lower-case alike are contained in the same strings |
| Text.ContainsTrimmedCore | app/src/main/java/com/example/zenpose/MainActivity.kt:159-160 | when a query occurs in a text ignoring case, so does what trimming leaves of it |
| Text.CharEqualsIgnoreCaseFolds | app/src/main/java/com/example/zenpose/MainActivity.kt:160 | two characters are equal ignoring case exactly when their lower-case forms are equal |
| Text.MissingLetterRulesOutMatch | app/src/main/java/com/example/zenpose/MainActivity.kt:160 | a text lacking both case forms of one of the query's letters does not contain the query |
| Text.FoldedTrimmed | app/src/main/java/com/example/zenpose/MainActivity.kt:159 | a query whose lower-case form has no surrounding whitespace is unchanged by trimming |
| PoseFilter.MatchesDifficulty | app/src/main/java/com/example/zenpose/MainActivity.kt:157 | `AllLevels` lets every pose through; a real level lets through exactly the poses rated at it |
| PoseFilter.MatchesQuery | app/src/main/java/com/example/zenpose/MainActivity.kt:159-160 | a pose matches exactly when the query is blank, or its trimmed, lower-cased form occurs in the lower-cased name or the lower-cased description |
| PoseFilter.FilterPoses | app/src/main/java/com/example/zenpose/MainActivity.kt:155-163 | the displayed list is a subsequence of the poses passed to the screen |
| PoseFilter.FilterPosesSound | app/src/main/java/com/example/zenpose/MainActivity.kt:157-161 | every listed pose has the selected level (or `AllLevels` is selected) and matches the query |
| PoseFilter.FilterPosesComplete | app/src/main/java/com/example/zenpose/MainActivity.kt:157-161 | every input pose that passes both stages is listed |
| PoseFilter.FilterPosesMembership | app/src/main/java/com/example/zenpose/MainActivity.kt:155-163 | a pose is listed if and only if it is in the input and passes both stages |
| PoseFilter.FilterPosesMultiplicity | app/src/main/java/com/example/zenpose/MainActivity.kt:155-163 | each pose is listed as often as the input holds it if it passes, and never otherwise |
| PoseFilter.FilterPosesIsOnePass | app/src/main/java/com/example/zenpose/MainActivity.kt:156-162 | the two chained filters equal one filter with the combined condition |
| PoseFilter.FilterPosesInOrder | app/src/main/java/com/example/zenpose/MainActivity.kt:155-163 | the pose-by-pose loop of the lazy pipeline builds the same list as the filter |
| PoseFilter.SelectedLevelIsSound | app/src/main/java/com/example/zenpose/MainActivity.kt:157 | with a specific level selected, every listed pose has that level |
| PoseFilter.QueryIsTrimmed | app/src/main/java/com/example/zenpose/MainActivity.kt:159 | a query and its trimmed form list the same poses |
| PoseFilter.QueryPaddingIgnored | app/src/main/java/com/example/zenpose/MainActivity.kt:159 | whitespace typed before or after a query changes nothing |
| PoseFilter.BlankQueryKeepsLevel | app/src/main/java/com/example/zenpose/MainActivity.kt:159-160 | an empty or all-whitespace query lists exactly the poses of the selected level |
| PoseFilter.UnfilteredIsIdentity | app/src/main/java/com/example/zenpose/MainActivity.kt:155-163 | `AllLevels` with a blank query lists the input unchanged |
| PoseFilter.MatchesQueryIgnoresCase | app/src/main/java/com/example/zenpose/MainActivity.kt:159-160 | queries differing only in letter case match the same poses |
| PoseFilter.QueryIgnoresCase | app/src/main/java/com/example/zenpose/MainActivity.kt:159-160 | queries differing only in letter case produce the same list |
| PoseFilter.NameHoldsQuery | app/src/main/java/com/example/zenpose/MainActivity.kt:160 | a query whose lower-case form occurs in a pose's lower-cased name makes the pose match, padded or not, since what trimming leaves of it occurs there too |
| PoseFilter.NameWordListed | app/src/main/java/com/example/zenpose/MainActivity.kt:155-163 | a pose of the selected level whose name holds the query, ignoring case, is listed, whether or not the query carries surrounding whitespace |
| PoseFilter.MissingLettersRuleOut | app/src/main/java/com/example/zenpose/MainActivity.kt:160 | a pose whose name and description each lack a letter of the query does not match |
| PoseFilter.QueryNarrows | app/src/main/java/com/example/zenpose/MainActivity.kt:158-161 | typing a query only removes poses from the level's list |
| PoseFilter.LevelNarrows | app/src/main/java/com/example/zenpose/MainActivity.kt:157 | selecting a level only removes poses from the `AllLevels` list |
| PoseFilter.FilterPosesKeepsDays | app/src/main/java/com/example/zenpose/MainActivity.kt:166 | distinct or increasing days in the input stay so in the list |
| Screen.ListKeys | app/src/main/java/com/example/zenpose/MainActivity.kt:166 | each list item's key is its pose's day, position by position |
| Screen.SelectDifficulty | app/src/main/java/com/example/zenpose/MainActivity.kt:149 | a tap on a level circle sets the selected level and leaves the query as it was |
| Screen.ChangeQuery | app/src/main/java/com/example/zenpose/MainActivity.kt:141 | an edit in the search bar sets the query and leaves the selected level as it was |
| Screen.InitialViewIsFullList | app/src/main/java/com/example/zenpose/MainActivity.kt:126-127 | the initial state (`AllLevels`, empty query) shows every pose in order |
| Screen.ResetShowsEverything | app/src/main/java/com/example/zenpose/MainActivity.kt:141-149 | selecting `AllLevels` and clearing the query, in either order, restores the full list |
| Screen.EveryViewWithinInitial | app/src/main/java/com/example/zenpose/MainActivity.kt:126-163 | every state shows a subsequence of the initial list |
| Screen.SelectKeepsQuery | app/src/main/java/com/example/zenpose/MainActivity.kt:149 | a level tap keeps the query, and the list then holds exactly the poses of the new level that match it |
| Screen.ChangeKeepsLevel | app/src/main/java/com/example/zenpose/MainActivity.kt:141 | a query edit keeps the level, and the list then holds exactly the poses of that level that match the new query |
| Screen.ListKeysUnique | app/src/main/java/com/example/zenpose/MainActivity.kt:166 | if input days are distinct, the list's keys are distinct in every state |
| Screen.CatalogueKeysIncrease | app/src/main/java/com/example/zenpose/MainActivity.kt:88-89 | for the catalogue, every state's keys are distinct and in increasing day order |
| Screen.DarkAfterOddToggles | app/src/main/java/com/example/zenpose/MainActivity.kt:76-84 | starting light, the theme is dark exactly after an odd number of presses |
| Screen.OnThemeToggle | app/src/main/java/com/example/zenpose/MainActivity.kt:84 | a press of the theme button switches between the light and the dark theme |
| Toggle.FlipIsInvolution | app/src/main/java/com/example/zenpose/MainActivity.kt:84 | a press always changes the flag, and two presses restore it |
| Toggle.FlipTimesParity | app/src/main/java/com/example/zenpose/ui/components/YogaPoseCard.kt:45 | after n flips the flag has changed exactly when n is odd |
| YogaPoseCard.ShownFace | app/src/main/java/com/example/zenpose/ui/components/YogaPoseCard.kt:47-51 | the back is shown exactly when the card is flipped; both faces show the description; the front also shows day, name, image and level |
| YogaPoseCard.OnCardClick | app/src/main/java/com/example/zenpose/ui/components/YogaPoseCard.kt:45 | a tap always turns the card over |
| YogaPoseCard.FaceAfterTaps | app/src/main/java/com/example/zenpose/ui/components/YogaPoseCard.kt:40-51 | after n taps on a fresh card the back is shown exactly when n is odd |
| YogaPoseCard.FreshCardShowsFront | app/src/main/java/com/example/zenpose/ui/components/YogaPoseCard.kt:40 | a card that has not been tapped shows its front |
| YogaPoseCard.TapTwiceRestoresFace | app/src/main/java/com/example/zenpose/ui/components/YogaPoseCard.kt:45-51 | each tap changes the face, and a second tap brings the first face back |
| WarriorSearch.NotAWarrior | app/src/main/java/com/example/zenpose/MainActivity.kt:159-160 | a pose whose name lacks a letter of "warrior" and whose description lacks 'w' does not match any case form of "warrior" |
| WarriorSearch.WarriorMembers | app/src/main/java/com/example/zenpose/data/YogaPose.kt:29-42 | for any case form of "warrior", Warrior I and Warrior II are listed and no other catalogue entry is |
| WarriorSearch.WarriorList | app/src/main/java/com/example/zenpose/MainActivity.kt:155-166 | any case form of "warrior", with `AllLevels`, lists exactly the keys [3, 4] |
| WarriorSearch.UppercaseWarriorList | app/src/main/java/com/example/zenpose/MainActivity.kt:155-166 | "WARRIOR" lists exactly days 3 and 4 |
| WarriorSearch.LowercaseWarriorList | app/src/main/java/com/example/zenpose/MainActivity.kt:155-166 | "warrior" lists exactly days 3 and 4 |
| CatalogueExamples.EntryOfOtherLevel | app/src/main/java/com/example/zenpose/MainActivity.kt:157 | an entry of a level other than the selected one is never listed, whatever the query |
| CatalogueExamples.BeginnerPoseSearch | app/src/main/java/com/example/zenpose/data/YogaPose.kt:29-84 | `Beginner` with "pose" lists Cobra Pose (day 9) and Bridge Pose (day 10) but not Warrior I (day 3) |
| CatalogueExamples.TrailingSpaceKeepsEntry | app/src/main/java/com/example/zenpose/MainActivity.kt:159 | an entry listed for a query stays listed when whitespace is typed after the query |
| CatalogueExamples.PaddedPoseListsCobra | app/src/main/java/com/example/zenpose/data/YogaPose.kt:71-77 | "pose" in any letter case followed by whitespace, with `Beginner`, still lists Cobra Pose |
| CatalogueExamples.LevelListKeys | app/src/main/java/com/example/zenpose/MainActivity.kt:155-166 | with a specific level and an empty query, the keys are the days at that level's positions, in order |
| CatalogueExamples.AdvancedList | app/src/main/java/com/example/zenpose/data/YogaPose.kt:120-203 | `Advanced` with an empty query lists exactly the keys [16, 23, 27] |

## Left out

- Compose rendering is not modelled: layout, colours, fonts, padding, the `DifficultyIcon` emoji and labels, and string resources.
- Focus handling and the tap-to-clear-focus gesture are not modelled; they do not affect the list.
- `remember` and recomposition are not modelled. The screen's state is a plain value, and `remember(poses, selectedDifficulty, query)` is the pure function it caches.
- `LazyColumn` scrolling and item reuse are not modelled. Only the key each item gets is modelled.
- Case mapping covers the ASCII letters only. Kotlin's `uppercaseChar`/`lowercaseChar` map the whole of Unicode; every catalogue string and every query the proofs name is ASCII, apart from the apostrophe in "Child’s Pose", which has no case. The generic case lemmas (`Text.CharEqualsIgnoreCaseFolds`, `Text.MissingLetterRulesOutMatch`, `PoseFilter.MissingLettersRuleOut`, `WarriorSearch.NotAWarrior` and those built on them) hold under this ASCII mapping, not for Kotlin on non-ASCII input: on the JVM the dotless 'ı' (U+0131) upper-cases to 'I', so a name spelled "Warrıor" would match "warrior" in the app while the model says it does not.
- Strings are sequences of Unicode scalar values rather than UTF-16 code units. The catalogue and the example queries hold no character outside the Basic Multilingual Plane, where the two agree.
- Images are opaque references (`YogaPoseDrawable(n)`). The resource integers and the drawables themselves are not modelled.
- The screen renders `YogaPoseCard` (MainActivity.kt:167, defined at 293-333), a static card. This model covers the flippable `ToggleYogaPoseCard` of YogaPoseCard.kt. The static card shows what `CardFront` shows.
- PoseFilter.FilterPoses: its own contract states only that the list is a subsequence. Soundness and completeness are the separate lemmas `FilterPosesSound` and `FilterPosesComplete`, and membership is `FilterPosesMembership`.
- The theme itself (`ZenPoseTheme` colours) is not modelled. Only the flag and which theme it selects are.
