# Pancha Pakshi match predictor — a Dafny model

This project models the prediction engine of a cricket-match predictor
built on Pancha Pakshi, the Tamil five-bird system (`utils/panchaPakshi.ts`,
with the enumerations of `types.ts`). Each team captain is given one of five
birds: Vulture, Owl, Crow, Cock or Peacock. The bird comes from the
captain's birth star (one of 27 nakshatras) or, without a known star, from
the first letter of the name. Two time units matter:
- the day (06:00–18:00) and the night (18:00–06:00) each split into five
  yamas of 144 minutes;
- in each yama every bird is in one of five activities: Rule, Eat, Walk,
  Sleep or Die.

Each bird's activity starts from a table indexed by weekday, moon phase
(waxing or waning) and day half, and moves along a five-step cycle of that
phase. The yama's ruling bird is the first bird, in canonical order, that is
in Rule. A bird's power is the base power of its activity plus a bonus for
how it stands towards the ruler: itself, a friend or an enemy. The prediction
compares the two captains' powers at the match instant and at the toss
instant. It also samples both birds every 30 minutes over the match to build
a "match flow".

Modules, in dependency order:

- `Types` (`types.dfy`): birds, activities, phases, relations, captains,
  snapshots, flow points and the prediction record.
- `Tables` (`tables.dfy`): the constant tables and `Array.prototype.indexOf`.
  The tables are the star list, the bird order, the base powers, the two
  activity cycles, the friend/enemy table and the twenty starting sequences.
- `Resolver` (`resolver.dfy`): a captain's bird by star, by name (with the
  part of JavaScript's `trim`/`toLowerCase` that decides the letter class) and by
  the two together.
- `Engine` (`engine.dfy`): relationship, starting activity, the rotation
  along a cycle, and the ruling bird. `RulingBirdForYama` is the source's
  loop with its early return.
- `Snapshots` (`snapshot.dfy`): the state of one bird at one instant.
  `CalculateSnapshot` follows the source's if-chains.
- `MatchFlow` (`flow.dfy`): `GenerateMatchFlow` is the source's sampling loop.
- `Predictions` (`prediction.dfy`): the full prediction, with the toss and
  match verdicts.

Every imperative operation is a method proved against a pure
specification:
- `RulingBirdForYama` against `RulingBird`, a function of the same inputs;
- `CalculateSnapshot` against `SnapshotAt`, a function of the same inputs;
- `GenerateMatchFlow` against the predicate `IsMatchFlow`;
- `DecideToss` against `TossWinner`, a function of the same inputs;
- `DecideWinner` against `DominantTeam`, a function of the same inputs;
- `CalculatePrediction` against two specifications. It equals `PredictionOf`
  applied to its inputs and to the flow it generates, and that flow satisfies
  `IsMatchFlow` from the match instant.

The properties are proved as lemmas about those specifications.

Time is modelled without `Date`. An instant is a whole number of local
minutes from a Sunday midnight. Its weekday (`getDay`) is `(t / 1440) % 7`
and its clock minute (`getHours`·60 + `getMinutes`) is `t % 1440`. Dafny's
division is floor division for a positive divisor, so negative instants fall
on the right weekday as well.

Points of the code worth knowing:
- Magam (index 9) is in the second star group (`utils/panchaPakshi.ts:83`).
  So a Magam captain is Owl when waxing and Cock when waning
  (`Resolver.MagamCaptain`).
- `App.tsx:187-192` passes a ninth `selectedLocation` argument, and
  `App.tsx:823` reads `prediction.sunrise`. `calculatePrediction`
  (`utils/panchaPakshi.ts:313-319`) takes eight parameters, uses the fixed
  360/1080 boundaries (06:00/18:00) and returns no sunrise. The model follows
  `calculatePrediction`.
- After midnight, the night yamas take the weekday of the new calendar date,
  as `getDay` reports it (see `Snapshots.WaningNightOwlScoredAsEnemy`).

## Model

| member | source | states |
|---|---|---|
| `Tables.IndexOf` | utils/panchaPakshi.ts:132 | `indexOf`: -1 exactly when the element is absent, otherwise a position holding it with no earlier occurrence |
| `Tables.Rank` | utils/panchaPakshi.ts:12 | every bird has a position in the canonical order that holds it |
| `Tables.IndexOfFirstOccurrence` | utils/panchaPakshi.ts:132 | `indexOf` returns exactly the position of the first occurrence |
| `Tables.RankIsIndexOf` | utils/panchaPakshi.ts:12 | `birdsOrder.indexOf(b)` finds every bird at its rank, so the order lists each bird once |
| `Tables.ActivityPower` | utils/panchaPakshi.ts:15-21 | base power lies in 0..100 and is 100 exactly for Rule |
| `Tables.PowerStrictlyOrdered` | utils/panchaPakshi.ts:15-21 | Rule > Eat > Walk > Sleep > Die in base power |
| `Tables.CycleIndex` | utils/panchaPakshi.ts:209-210 | every activity has a position in each phase's cycle that holds it |
| `Tables.Cycle` | utils/panchaPakshi.ts:209 | the cycle of either phase has five steps, starts at Rule and holds every activity |
| `Tables.CycleIsPermutation` | utils/panchaPakshi.ts:25-28 | each cycle has five pairwise different activities |
| `Tables.CycleIndexOfCycle` | utils/panchaPakshi.ts:25-28 | the activity at cycle position k has position k |
| `Tables.CycleIndexIsIndexOf` | utils/panchaPakshi.ts:209-210 | `cycle.indexOf(a)` is the cycle position of `a` |
| `Tables.CyclesAreReversed` | utils/panchaPakshi.ts:24-28 | both cycles begin with Rule and the waning cycle runs the waxing one backwards |
| `Tables.MagamIndex` | utils/panchaPakshi.ts:4-10 | `NAKSHATRAS.indexOf("Magam")` is 9 |
| `Tables.EmptyIsNotAStar` | utils/panchaPakshi.ts:4-10 | the empty string is not a star name |
| `Tables.RelationshipTableWellFormed` | utils/panchaPakshi.ts:31-46 | in both phases, each bird's friend and enemy lists exclude the bird, are disjoint and together name the other four birds; friendship and enmity are symmetric |
| `Tables.Friends` | utils/panchaPakshi.ts:31-46 | each bird lists two different friends, never itself |
| `Tables.Enemies` | utils/panchaPakshi.ts:31-46 | each bird lists two different enemies, never itself and neither of them a friend |
| `Tables.StartSequence` | utils/panchaPakshi.ts:162-201 | every starting sequence has one entry per weekday |
| `Resolver.GroupOf` | utils/panchaPakshi.ts:82-86 | a position is in some star group exactly when it is in 0..26 |
| `Resolver.BirdByStar` | utils/panchaPakshi.ts:81-103 | a position in group g gets the g-th bird of the canonical order when waxing and the (6-g)-th when waning; a position in no group gets Vulture |
| `Resolver.StarGroupsPartition` | utils/panchaPakshi.ts:82-86 | the five groups have sizes 5, 6, 5, 5, 6 and every position 0..26 is in exactly one of them, any other in none |
| `Resolver.GroupRanges` | utils/panchaPakshi.ts:82-86 | each group is a run of consecutive positions |
| `Resolver.WaningMirrorsWaxing` | utils/panchaPakshi.ts:88-101 | when waning, group g gets the bird that group 6 - g gets when waxing |
| `Resolver.CrowIsFixed` | utils/panchaPakshi.ts:88-101 | in both phases a star gives Crow exactly when it is in the third group |
| `Resolver.StarOutsideGroupsIsVulture` | utils/panchaPakshi.ts:102 | a position in no group falls back to Vulture |
| `Resolver.SecondGroupBirds` | utils/panchaPakshi.ts:88-101 | the second group is Owl when waxing and Cock when waning |
| `Resolver.TrimStart` | utils/panchaPakshi.ts:107 | the result is a suffix, everything removed is white space, and it does not begin with white space |
| `Resolver.TrimEnd` | utils/panchaPakshi.ts:107 | the result is a prefix, everything removed is white space, and it does not end with white space |
| `Resolver.Trim` | utils/panchaPakshi.ts:107 | neither end of the trimmed name is white space, and it is empty exactly when the name is white space throughout |
| `Resolver.TrimIsSlice` | utils/panchaPakshi.ts:107 | the trimmed name is the slice of the name between a run of leading and a run of trailing white space |
| `Resolver.LowerFirstUnit` | utils/panchaPakshi.ts:107 | lower-casing never leaves an upper-case ASCII letter, keeps lower-case ones and maps A-Z to a-z |
| `Resolver.FirstLetter` | utils/panchaPakshi.ts:107 | the initial is `undefined` exactly when the name is white space throughout, and is never an upper-case ASCII letter |
| `Resolver.FirstLetterIsFirstNonSpace` | utils/panchaPakshi.ts:107 | the initial is the first character of the name that is not white space, mapped by `LowerFirstUnit` |
| `Resolver.ClassOf` | utils/panchaPakshi.ts:109-113 | an initial has a letter class exactly when it is one of a, i, l, r, u, k, e, m, t, o, n, p, s, and the A class is the letter a alone |
| `Resolver.BirdOfClass` | utils/panchaPakshi.ts:115-127 | the O class and an unclassified initial share the fallback bird: Peacock when waxing, Crow when waning |
| `Resolver.FirstLetterOfWord` | utils/panchaPakshi.ts:107 | a name starting with a non-space character has that character, lower-cased, as its initial |
| `Resolver.BirdByName` | utils/panchaPakshi.ts:106 | an empty name gives Vulture |
| `Resolver.ClassTableIsPermutation` | utils/panchaPakshi.ts:109-127 | in each phase the five letter classes go to five different birds |
| `Resolver.WhitespaceNameFallsThrough` | utils/panchaPakshi.ts:107-127 | a non-empty all-space name has no initial and gives Peacock when waxing, Crow when waning |
| `Resolver.LeadingWhitespaceIgnored` | utils/panchaPakshi.ts:105-128 | leading white space does not change the bird of a name |
| `Resolver.InitialCaseIgnored` | utils/panchaPakshi.ts:105-128 | an upper-case and a lower-case ASCII initial give the same bird |
| `Resolver.GetBird` | utils/panchaPakshi.ts:130-136 | the star decides exactly when it is one of the 27 star names, through its `indexOf` position; otherwise the name decides |
| `Resolver.MagamCaptain` | utils/panchaPakshi.ts:130-136 | a captain born under Magam is Owl when waxing and Cock when waning, whatever the name |
| `Engine.Relationship` | utils/panchaPakshi.ts:48-56 | Self exactly for the ruler itself, Friend or Enemy exactly as the table lists the ruler, and never Neutral |
| `Engine.RelationshipSymmetric` | utils/panchaPakshi.ts:31-56 | the relationship is the same seen from either bird |
| `Engine.ActivityForYama` | utils/panchaPakshi.ts:208-213 | the rotated activity is an element of the phase's cycle |
| `Engine.ColumnAt` | utils/panchaPakshi.ts:203-206 | a bird's starting activity on a weekday is its entry, by rank, in that weekday's column of the starting table |
| `Engine.RotationIdentity` | utils/panchaPakshi.ts:208-213 | the first yama keeps the starting activity |
| `Engine.RotationPeriodic` | utils/panchaPakshi.ts:208-213 | yama and yama + 5 give the same activity |
| `Engine.SameActivitySamePosition` | utils/panchaPakshi.ts:25-28 | two cycle positions holding the same activity are the same position |
| `Engine.RotationCompose` | utils/panchaPakshi.ts:208-213 | rotating by y1 - 1 and then by y2 - 1 steps is rotating by y1 + y2 - 2 steps |
| `Engine.RotationSteps` | utils/panchaPakshi.ts:208-213 | one step moves to the next activity of the cycle, wrapping at the end |
| `Engine.RotationInjective` | utils/panchaPakshi.ts:208-213 | in every yama different starting activities are in different activities |
| `Engine.RotationReachesRule` | utils/panchaPakshi.ts:208-213 | in every yama some starting activity has rotated to Rule |
| `Engine.FirstRulerIndex` | utils/panchaPakshi.ts:216-222 | the position found is in Rule (or past the end) and no bird before it is in Rule |
| `Engine.RulingBird` | utils/panchaPakshi.ts:215-224 | the ruling bird is in Rule or is the fallback Vulture; it is Vulture whenever Vulture rules; and no bird ranked before it rules |
| `Engine.RulingBirdIsFirstRuler` | utils/panchaPakshi.ts:215-224 | whenever some bird is in Rule, the ruling bird is in Rule and comes no later in canonical order; with none in Rule it is Vulture |
| `Engine.RulingBirdForYama` | utils/panchaPakshi.ts:215-224 | the loop with early return computes the ruling bird |
| `Engine.WaxingDayColumns` | utils/panchaPakshi.ts:167-173 | every weekday column of the waxing day table is a permutation of the five activities |
| `Engine.WaxingNightColumns` | utils/panchaPakshi.ts:174-180 | likewise for the waxing night table |
| `Engine.WaningDayColumns` | utils/panchaPakshi.ts:184-190 | likewise for the waning day table |
| `Engine.ColumnIsPermutation` | utils/panchaPakshi.ts:162-201 | outside the waning night, every weekday column is a permutation |
| `Engine.SomeRuler` | utils/panchaPakshi.ts:162-224 | outside the waning night some bird is in Rule in every yama |
| `Engine.AtMostOneRuler` | utils/panchaPakshi.ts:162-224 | outside the waning night no two birds are in Rule in the same yama |
| `Engine.ExactlyOneRuler` | utils/panchaPakshi.ts:162-224 | outside the waning night a bird is in Rule exactly when it is the ruling bird |
| `Engine.WaningNightVultureOwlAgree` | utils/panchaPakshi.ts:193-194 | in the waning night Vulture and Owl share a row, so they always have the same activity and rule together |
| `Engine.WaningSundayNightTwoRulers` | utils/panchaPakshi.ts:193-224 | on a waning Sunday night both Vulture and Owl rule the fourth yama and Vulture is reported |
| `Engine.WaningSundayNightNoRuler` | utils/panchaPakshi.ts:191-224 | on a waning Sunday night no bird rules the fifth yama and the fallback Vulture is reported |
| `Snapshots.Weekday` | utils/panchaPakshi.ts:228 | the weekday of an instant is in 0..6 |
| `Snapshots.MinuteOfDay` | utils/panchaPakshi.ts:229-231 | the clock minute of an instant is in 0..1439 |
| `Snapshots.HalfElapsed` | utils/panchaPakshi.ts:241-254 | the minutes since the current day half began are in 0..719 |
| `Snapshots.Yama` | utils/panchaPakshi.ts:241-254 | the yama is in 1..5 and is the 144-minute slot holding the elapsed minutes |
| `Snapshots.BranchYamas` | utils/panchaPakshi.ts:241-254 | each of the three clock branches computes the yama of the clock minute, and the cap at 5 never applies |
| `Snapshots.SnapshotAt` | utils/panchaPakshi.ts:227-278 | a snapshot has a yama in 1..5, is Day exactly from 06:00 to before 18:00, is never Neutral, is Self exactly when the bird is the reported ruling bird, and has power in -10..120 |
| `Snapshots.RelationBonus` | utils/panchaPakshi.ts:267-275 | the bonus lies in -10..20, is 20 exactly for Self, positive exactly for Self and Friend, and negative exactly for Enemy |
| `Snapshots.SnapshotPower` | utils/panchaPakshi.ts:264-275 | a snapshot's power is the base power of its activity plus the bonus of its relationship |
| `Snapshots.BasePlusBonus` | utils/panchaPakshi.ts:15-21 | every base power plus every relationship bonus is a multiple of 5 |
| `Snapshots.PowerMultipleOfFive` | utils/panchaPakshi.ts:264-275 | every snapshot power is a multiple of 5 |
| `Snapshots.CalculateSnapshot` | utils/panchaPakshi.ts:227-278 | the if-chains compute the snapshot of the bird at the instant |
| `Snapshots.YamaBoundaries` | utils/panchaPakshi.ts:236-254 | yama k of the day begins at 06:00 + 144(k-1), and of the night at 18:00 + 144(k-1) (past midnight) |
| `Snapshots.RulerIndependentOfSubject` | utils/panchaPakshi.ts:256-257 | the ruler, yama and day half do not depend on the subject bird |
| `Snapshots.SelfExactlyWhenRuling` | utils/panchaPakshi.ts:256-275 | outside the waning night a bird is Self exactly when it is in Rule, and its power is 120 exactly then |
| `Snapshots.WaningNightOwlScoredAsEnemy` | utils/panchaPakshi.ts:227-278 | on a waning Sunday at 01:12 Owl is in Rule yet scored as Vulture's enemy, 90 instead of 120 |
| `MatchFlow.DominantTeam` | utils/panchaPakshi.ts:296-298 | the stronger side is dominant and level power gives "Draw"; for team names other than "Draw", "Draw" means level power |
| `MatchFlow.DurationMinutes` | utils/panchaPakshi.ts:288 | the span is 240 minutes exactly for a T20 and 480 exactly for an ODI, a whole number of 30-minute steps |
| `MatchFlow.FlowPointAt` | utils/panchaPakshi.ts:292-307 | a flow point records the instant it is sampled at |
| `MatchFlow.GenerateMatchFlow` | utils/panchaPakshi.ts:281-310 | one point per 30 minutes from the start up to and including the end of the format's span, point k being both snapshots at start + 30k |
| `MatchFlow.FlowLengths` | utils/panchaPakshi.ts:288-291 | a T20 flow has 9 points and an ODI flow 17 |
| `MatchFlow.FlowEndpoints` | utils/panchaPakshi.ts:291-292 | the first point is at the start and the last at start + 240 (T20) or + 480 (ODI) |
| `MatchFlow.FlowPointSwap` | utils/panchaPakshi.ts:293-306 | listing the sides the other way round swaps the powers and activities and keeps the dominant label |
| `MatchFlow.SameBirdIsAlwaysDraw` | utils/panchaPakshi.ts:296-298 | two captains with the same bird are level at every point |
| `Predictions.TossWinner` | utils/panchaPakshi.ts:332-337 | the toss always goes to one of the two sides, the higher toss power wins |
| `Predictions.DecideToss` | utils/panchaPakshi.ts:332-337 | the reassigned toss winner is the toss winner |
| `Predictions.DecideWinner` | utils/panchaPakshi.ts:340-342 | the reassigned winner is the dominant side, "Draw" on level power |
| `Predictions.TossTieByOrder` | utils/panchaPakshi.ts:335-337 | on level toss power the first side wins exactly when `birdsOrder.indexOf(birdA) < birdsOrder.indexOf(birdB)` |
| `Predictions.SameBirdTossGoesToSecondSide` | utils/panchaPakshi.ts:336 | on level toss power with the same bird on both sides the second side wins |
| `Predictions.TossSideSwap` | utils/panchaPakshi.ts:332-337 | except for the same-bird tie, listing the sides the other way round does not change the toss winner |
| `Predictions.WinProbability` | utils/panchaPakshi.ts:352 | the confidence is at least 50, exactly 50 for level power, above 60 otherwise, and at most 86 for powers within a snapshot's range |
| `Predictions.WinProbabilityMonotone` | utils/panchaPakshi.ts:352 | a wider power gap never gives a lower confidence |
| `Predictions.ConfidenceIsWhole` | utils/panchaPakshi.ts:352 | on a power difference that is a multiple of 5 the confidence is the whole number 50, or 60 plus a fifth of the gap |
| `Predictions.VerdictSideSwap` | utils/panchaPakshi.ts:340-352 | listing the sides the other way round changes neither the match winner nor the confidence |
| `Predictions.CalculatePrediction` | utils/panchaPakshi.ts:313-370 | the prediction is built from the captains' birds and their match and toss snapshots, and its flow is the match flow from the match instant |
| `Predictions.PredictionOf` | utils/panchaPakshi.ts:347-369 | the prediction keeps the teams and the flow, gives each captain their resolved bird, names a winner among the two teams and "Draw", a toss winner among the two teams, a time slot in 1..5 and a weekday name |
| `Predictions.PredictionTimeFields` | utils/panchaPakshi.ts:353-359 | time slot in 1..5 and equal to the yama of the match instant, the day half, weekday name and ruling bird of that instant, and the first captain Self exactly when it is the ruler |
| `Predictions.PredictionVerdicts` | utils/panchaPakshi.ts:332-352 | the higher match power wins, level power is "Draw", confidence in 50..86 and 50 exactly on level power, the toss goes to one of the two sides |
| `Predictions.FlowStartsAtVerdict` | utils/panchaPakshi.ts:340-345 | when the flow starts with the point at the match instant, as every match flow does, that point has the match winner as dominant side and the same two activities |

## Left out

- `calculateNakshatra` (`utils/panchaPakshi.ts:59-78`) is not modelled. It parses date strings and does floating-point arithmetic; captains carry their star as given.
- `getBirdColor` (`utils/panchaPakshi.ts:139-158`) and the `birdColorA`/`birdColorB` fields return display CSS classes only, so they are not modelled.
- `Date` is not modelled: time zones, daylight saving and the `toLocaleTimeString` label of a flow point are absent. A flow point keeps its instant in minutes instead of the label. An invalid `Date` is also absent, since an integer instant cannot express it. `App.tsx:183-184` builds one from an empty date or time field. With it, `getDay`/`getHours` give NaN, every power is NaN, the match is a Draw at 50, and the toss goes by the canonical-order tie at `utils/panchaPakshi.ts:336`.
- `Resolver.LowerFirstUnit`: only A-Z, U+0130 and U+212A are lowered, because these are the only characters whose JavaScript lower case starts with an ASCII letter. Every other character is kept as it is, so `FirstLetter("Élise")` is 'É' where JavaScript gives 'é'. A `char` is a Unicode code point rather than a UTF-16 unit, so a name starting with a character outside the Basic Multilingual Plane gives that character where JavaScript gives a lone high surrogate. Neither difference changes the letter class or the bird, because `utils/panchaPakshi.ts:109-113` tests only ASCII letters.
- `Predictions.WinProbability` computes with exact rationals, not IEEE doubles. Every snapshot power is a multiple of 5 (`Snapshots.PowerMultipleOfFive`), so the difference divides by 5 exactly. The confidence is then an integer (`Predictions.ConfidenceIsWhole`), and a double represents it exactly. For a difference that is not a multiple of 5, the two would differ (1/5 has no exact double).
- `Engine.ActivityForYama` requires `yama >= 1`, and its callers only pass 1..5. For a smaller yama, JavaScript's `%` gives a negative index, and so `undefined`, only when `startIndex + yama - 1 < 0`. Otherwise it still returns a cycle entry. For example, Walk in the waxing cycle (`startIndex` 4) with yama 0 gives `cycle[3]`, Eat.
- `Engine.StartActivity` requires a weekday in 0..6, the range of `getDay`.
- The fallback sequence of `getStartSequence` (`utils/panchaPakshi.ts:200`) is unreachable for the five birds, and the model has no branch for it.
- The waning-night table is not claimed to have exactly one ruler. Its Vulture and Owl rows are identical, so there is no such property; what the model states there instead is `Engine.WaningSundayNightTwoRulers` and `Engine.WaningSundayNightNoRuler`.
- `App.tsx`, `services/geminiService.ts` and the React components are not part of this model. They cover UI state, local storage, geolocation and calls to an external language model.
- The `selectedLocation` argument and the `sunrise`/`sunset` fields that `App.tsx` uses (`App.tsx:187-192`, `App.tsx:823-824`) are absent from `calculatePrediction`. They have no counterpart in the model.
