# MLB spread and total predictor: the scoring and prediction pipeline

This project models the core of a one-page baseball prediction script in Dafny. For each game on the chosen date's schedule, the script fetches the two probable starting pitchers and the two teams' rosters. It turns each pitcher's career pitching line into a score clamped to [0, 100], and each roster's career hitting lines into the mean of per-player scores clamped to [0, 100]. From those four scores it predicts a run margin (home minus away) and a run total. Games that lack either probable pitcher are skipped. Rosters are kept in a per-run dictionary keyed by team id.

Modules:

- `Rounding`: Python's `round(x, 2)` over exact reals (half-to-even), with its oddness, monotonicity and fixed points.
- `Scoring`: stat records as maps from field name to `Num(real) | Malformed`; a missing field is an absent key. It holds `pitcher_score` as a function and `hitter_score` as a method with a loop, proved against the specification function `HitterScoreOf`.
- `Prediction`: `predict_margin` and `predict_total` and their symmetry, monotonicity and bounds.
- `RosterCache`: `team_rosters` and `get_cached_roster` as a class whose map field is filled lazily. A ghost log records which teams were fetched.
- `Driver`: the per-game loop as a method. It is proved to produce exactly `Report(games, feeds)`. The filter and order properties are proved about `Report`.

The remote services are the fields of a `Feeds` value, each a fixed function for the duration of one run: probable pitchers per game, pitching and hitting records per player, and the roster per team.

Three behaviours of the code are easy to misread:

- `predict_total` uses the coefficients 0.1, 0.08 and 8.5 (`MLB_PT_SPREAD_v1.00.py:89`), so the predicted total can be negative (`Prediction.TotalCanBeNegative`).
- A field that is present but not numeric does not fall back to its default. It makes the whole pitcher score 50, and it makes `hitter_score` skip the player.
- An empty pitching record (what the stats fetch returns on failure) scores 0, not the midpoint 50 (`Scoring.PitcherScoreEmpty`).

## Model

| member | source | states |
|---|---|---|
| `Rounding.RoundHalfEven` | MLB_PT_SPREAD_v1.00.py:86 | the integer chosen by `round` is within 0.5 of its argument |
| `Rounding.Round2` | MLB_PT_SPREAD_v1.00.py:86 | `round(x, 2)` is within 0.005 of `x` |
| `Rounding.RoundHalfEvenOdd` | MLB_PT_SPREAD_v1.00.py:86 | with ties to even, rounding a negated value gives the negated rounding |
| `Rounding.Round2Odd` | MLB_PT_SPREAD_v1.00.py:86 | `round(-x, 2) == -round(x, 2)` for every `x` |
| `Rounding.RoundHalfEvenMonotone` | MLB_PT_SPREAD_v1.00.py:86 | rounding to an integer preserves the order of two values |
| `Rounding.Round2Monotone` | MLB_PT_SPREAD_v1.00.py:86-89 | `x <= y` implies `round(x, 2) <= round(y, 2)` |
| `Rounding.Round2Exact` | MLB_PT_SPREAD_v1.00.py:86-89 | a value with at most two decimals is left unchanged by `round(x, 2)` |
| `Scoring.ReadField` | MLB_PT_SPREAD_v1.00.py:56-58 | `float(stat.get(key, default))` gives the default for a missing key and the number itself for a present number, and fails exactly when the present value is malformed |
| `Scoring.Clamp` | MLB_PT_SPREAD_v1.00.py:60 | `max(0, min(100, v))` lies in [0, 100], is `v` inside that range, 0 below it and 100 above it |
| `Scoring.ClampMonotone` | MLB_PT_SPREAD_v1.00.py:60 | clamping preserves the order of two values |
| `Scoring.PitchingFormula` | MLB_PT_SPREAD_v1.00.py:59 | the pitching blend is 0 at the league-average line (ERA 5.0, K/9 6.0, BB/9 3.0) and positive for a line better than average on all three |
| `Scoring.PitcherScore` | MLB_PT_SPREAD_v1.00.py:54-62 | the pitcher score lies in [0, 100] for every record, and is exactly 50 when any of the three fields is present but not numeric |
| `Scoring.PitcherScoreEmpty` | MLB_PT_SPREAD_v1.00.py:55-60 | the defaults 5.0, 6.0 and 3.0 cancel, so an empty record scores 0 |
| `Scoring.PitcherScoreOfNumbers` | MLB_PT_SPREAD_v1.00.py:56-60 | a record whose three fields are numbers, whatever other fields it has, scores the clamped formula of those numbers |
| `Scoring.PitcherScoreSample` | MLB_PT_SPREAD_v1.00.py:59-60 | ERA 3.00, K/9 9.0 and BB/9 2.0 score 53 |
| `Scoring.PitcherScoreMonotone` | MLB_PT_SPREAD_v1.00.py:59-60 | lower ERA, higher K/9 and lower BB/9 never give a lower score |
| `Scoring.HittingFormula` | MLB_PT_SPREAD_v1.00.py:78 | the hitting blend is 0 at the league-average line (AVG .250, OBP .320, SLG .400) and positive for a line at least average on all three and above it on SLG |
| `Scoring.HitterValue` | MLB_PT_SPREAD_v1.00.py:75-81 | a player's score lies in [0, 100], and the player is skipped exactly when one of avg, obp or slg fails to parse |
| `Scoring.HitterValueOfNumbers` | MLB_PT_SPREAD_v1.00.py:75-79 | a record whose avg, obp and slg are numbers, whatever other fields it has, scores the clamped hitting formula of those numbers |
| `Scoring.HitterValueMonotone` | MLB_PT_SPREAD_v1.00.py:78-79 | between two records that parse, higher avg, obp and slg never give a lower player score |
| `Scoring.KeptScores` | MLB_PT_SPREAD_v1.00.py:71-81 | the kept scores are no more than the players and each lies in [0, 100] |
| `Scoring.Sum` | MLB_PT_SPREAD_v1.00.py:82 | `sum(scores)` of n scores in [0, 100] lies in [0, 100 n] |
| `Scoring.MeanOrDefault` | MLB_PT_SPREAD_v1.00.py:82 | the result is 50 for no scores, and otherwise the mean: times the number of scores it gives back their sum |
| `Scoring.MeanBounds` | MLB_PT_SPREAD_v1.00.py:82 | the mean of scores in [0, 100], or 50 for none, lies in [0, 100] |
| `Scoring.HitterScoreOf` | MLB_PT_SPREAD_v1.00.py:70-82 | the hitter score lies in [0, 100] for any roster of records |
| `Scoring.KeptScoresAppend` | MLB_PT_SPREAD_v1.00.py:71-81 | the kept scores of two rosters joined are those of the first followed by those of the second |
| `Scoring.HitterScoreEmpty` | MLB_PT_SPREAD_v1.00.py:82 | an empty roster scores exactly 50 |
| `Scoring.MalformedPlayerSkipped` | MLB_PT_SPREAD_v1.00.py:74-81 | inserting a player whose record fails to parse anywhere in the roster changes neither the kept scores nor the hitter score |
| `Scoring.ParsedPlayerKept` | MLB_PT_SPREAD_v1.00.py:72-82 | a player whose record parses, anywhere in the roster, has their clamped score kept at their position, and the hitter score is the mean including it |
| `Scoring.AbsentPlayerCounts` | MLB_PT_SPREAD_v1.00.py:75-82 | the case of `Scoring.ParsedPlayerKept` for an empty record: the player, anywhere in the roster, is scored 0 and that 0 is kept: one more kept score than without them, and the hitter score is the mean including that 0 |
| `Scoring.HitterScore` | MLB_PT_SPREAD_v1.00.py:70-82 | the loop returns the mean of the kept scores, or 50 if none, and the result lies in [0, 100] |
| `Prediction.RawMargin` | MLB_PT_SPREAD_v1.00.py:86 | the unrounded margin is non-negative when home is at least as good on both scores, positive when better on both, non-positive when worse or equal on both |
| `Prediction.RawTotal` | MLB_PT_SPREAD_v1.00.py:89 | when all four scores equal s, the unrounded total is 8.5 + 0.04 s |
| `Prediction.PredictMargin` | MLB_PT_SPREAD_v1.00.py:85-86 | the returned margin is within 0.005 of the unrounded blend |
| `Prediction.PredictTotal` | MLB_PT_SPREAD_v1.00.py:88-89 | the returned total is within 0.005 of the unrounded blend |
| `Prediction.MarginAntisymmetric` | MLB_PT_SPREAD_v1.00.py:85-86 | swapping home and away negates the margin, before and after rounding |
| `Prediction.MarginZeroOnTie` | MLB_PT_SPREAD_v1.00.py:85-86 | equal home and away scores give a margin of 0 |
| `Prediction.MarginBounds` | MLB_PT_SPREAD_v1.00.py:85-86 | for scores in [0, 100] the margin lies in [-100, 100], before and after rounding |
| `Prediction.TotalSymmetric` | MLB_PT_SPREAD_v1.00.py:88-89 | swapping home and away leaves the total unchanged |
| `Prediction.TotalMonotone` | MLB_PT_SPREAD_v1.00.py:88-89 | the rounded total is non-decreasing in each hitter score and non-increasing in each pitcher score |
| `Prediction.TotalBounds` | MLB_PT_SPREAD_v1.00.py:88-89 | for scores in [0, 100] the total lies in [-7.5, 28.5], before and after rounding |
| `Prediction.TotalCanBeNegative` | MLB_PT_SPREAD_v1.00.py:88-89 | two pitchers scoring 100 facing two lineups scoring 0 give a total of -7.5 |
| `RosterCache.Cache.constructor` | MLB_PT_SPREAD_v1.00.py:102 | the cache starts empty, with nothing fetched |
| `RosterCache.Cache.GetCachedRoster` | MLB_PT_SPREAD_v1.00.py:104-107 | afterwards the team is a key and the result is its entry, equal to the service's roster; on a hit nothing changes and nothing is fetched; on a miss exactly that key is added, the other entries are untouched and one fetch is logged; every team is fetched at most once |
| `Driver.Truthy` | MLB_PT_SPREAD_v1.00.py:117 | a probable-pitcher id is false when absent or 0 and true otherwise |
| `Driver.Eligible` | MLB_PT_SPREAD_v1.00.py:117 | a game is skipped exactly when either probable-pitcher id is falsy, and a kept game has both ids |
| `Driver.RowFor` | MLB_PT_SPREAD_v1.00.py:114-142 | a kept game's row is labelled "away @ home", its four displayed scores lie in [0, 100], its margin in [-100, 100] and its total in [-7.5, 28.5] |
| `Driver.Report` | MLB_PT_SPREAD_v1.00.py:112-142 | never more rows than games, and one row per game when every game is kept |
| `Driver.ReportStep` | MLB_PT_SPREAD_v1.00.py:112-142 | one more game of the schedule adds its row and its two teams' roster lookups when it is kept, and nothing when it is skipped |
| `Driver.HittingRecords` | MLB_PT_SPREAD_v1.00.py:72-73 | the records scored are those of the roster's players, one per player, in roster order |
| `Driver.EligibleIndices` | MLB_PT_SPREAD_v1.00.py:112-119 | the indices of the games kept increase strictly, and an index is kept exactly when both probable-pitcher ids of its game are truthy |
| `Driver.ReportFollowsSchedule` | MLB_PT_SPREAD_v1.00.py:112-142 | the k-th row is the row of the k-th kept game, and there are as many rows as kept games and no more rows than games |
| `Driver.OneCompleteGameOneRow` | MLB_PT_SPREAD_v1.00.py:117-119 | a complete game followed by a game without an away pitcher gives exactly one row, the first game's |
| `Driver.Round2KeepsScore` | MLB_PT_SPREAD_v1.00.py:136-139 | a score in [0, 100] is still in [0, 100] after rounding for display |
| `Driver.PredictGame` | MLB_PT_SPREAD_v1.00.py:121-142 | a kept game's row is the row its pitchers' and rosters' records determine, and the cache afterwards also holds both teams |
| `Driver.RunPredictions` | MLB_PT_SPREAD_v1.00.py:101-144 | the rows are exactly those of the kept games in schedule order, so the cache never changes a row; each roster is fetched at most once, and only for teams of kept games |

## Left out

- The Streamlit page (title, date picker, warning, progress bar, spinner, table display) is presentation only. The stop on an empty schedule is also left out; the loop over an empty schedule yields no rows either way.
- HTTP fetching and its one-hour time-based caching are left out. The schedule, probable pitchers, stat records and rosters are inputs; each remote answer is a fixed function of its key for one run.
- The navigation of the API's JSON in the schedule, probable-pitcher, stats and roster fetches is left out. The probable pitchers' names are not modelled because the loop never reads them.
- The hitting-stats fetch inside `hitter_score` (line 73) runs outside its `try`, so an error raised while reading the fetched JSON (an empty `splits` list at line 51) ends the run from inside `hitter_score`; the model's fetched records are always stat maps.
- The pandas table and its final sort by margin are left out. The model promises the rows in schedule order, which is the order they are appended.
- Binary floating point is left out: arithmetic is over exact reals, and `round(x, 2)` is half-to-even on the exact value. `float()` also accepts "nan" and "inf", which have no real counterpart; such a field is outside the model.
- An exception raised inside the loop body outside the `try` blocks of the two scorers (a malformed game entry, or the fetch just described) ends the script; the model's games and fetched records are always well formed.
