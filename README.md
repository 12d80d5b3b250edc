# Game catalog report accumulator, in Dafny

This project models the in-process report accumulator of the game catalog
service (`backend/reportGeneration.go`). The accumulator receives games one at
a time. It keeps three running values:

- a comment count per user name;
- a most-liked candidate, a (title, total likes) pair replaced only by a
  strictly greater total;
- a list of `{title, averageLikes}` entries, one per game, in input order.

It then produces a `Report`: the user with the most comments, the highest-rated
game and the list of averages.

Layout:

- `game_model.dfy`, module `GameModel`: the `Game`, `Comment`, `Report` and
  `GameAverageLikes` records of `backend/model.go`. Only the fields the report
  reads are kept.
- `report_spec.dfy`, module `ReportSpec`: reference definitions of every
  statistic over a whole corpus. These are the total and ceiling-mean likes of
  a game, per-user comment counts, the commenters, the averages list, the
  strict-`>` running maximum, and two scans of the user map (as written and
  corrected). The module also holds the lemmas that state what those
  statistics mean.
- `report_generation.dfy`, module `ReportGeneration`: the accumulator as a
  class, with its fields `users: map<string, int>`, `mostLikedTitle`,
  `mostLikedLikes` and `averageLikes: seq<GameAverageLikes>`. A ghost field
  `processed` records the games seen so far. `Valid()` ties every field to the
  reference definitions over `processed`. Besides the class, the module holds
  `ProcessLikes` and a driver, `GenerateReport`.

Modelling choices:

- Go's map iteration order is unspecified. `Report` and `CorrectedReport`
  therefore take the order as a parameter `order`, which must list each key of
  `users` exactly once (`IsKeyOrder`). No concrete Go order is assumed.
- Ceiling of the mean. The source converts to `float64`, divides and applies
  `math.Ceil`. The model divides integers instead (`CeilDiv`, `-((-s) / n)`).
  Its contract is the defining property of the ceiling:
  `n * (r - 1) < s <= n * r`.
- Zero-comment game. The source computes the float division `0/0`, which is
  NaN, and converting NaN to `int` gives an implementation-defined value. The
  model defines the average of a game without comments as 0.
- Negative like counts are summed as given.
- No code in the repository drives the accumulator
  (`MongoDataSource.Report` uses store-side aggregation instead).
  `GenerateReport` is the driver added here. It creates the accumulator, feeds
  it every game in order, and calls the corrected report.

## Model

| member | source | states |
|---|---|---|
| `ReportSpec.CeilDiv` | backend/reportGeneration.go:66 | for a positive count n, the result is the ceiling of s / n: `n*(r-1) < s <= n*r`, also for negative sums |
| `ReportSpec.AverageLikes` | backend/reportGeneration.go:60-67 | a game without comments averages 0; otherwise the average is the ceiling of total likes over number of comments |
| `ReportGeneration.ProcessLikes` | backend/reportGeneration.go:60-68 | returns `total` equal to the sum of all comment likes, and `avg` equal to the ceiling mean (0 with no comments) |
| `ReportSpec.CountByPositive` | backend/reportGeneration.go:53-57 | a user has a positive count within a game's comments exactly when the user wrote one of them |
| `ReportSpec.CommentersExact` | backend/reportGeneration.go:53-57 | the keys accumulated are exactly the users who wrote some comment on some game (both directions) |
| `ReportSpec.CorpusCountPositive` | backend/reportGeneration.go:53-57 | a user's corpus-wide count is positive exactly when the user commented |
| `ReportSpec.UserCountsAtLeastOne` | backend/reportGeneration.go:53-57 | every count in the user map is at least 1 |
| `ReportSpec.UserCountsAppend` | backend/reportGeneration.go:53-57 | one more game adds that game's commenters as keys and raises each user's count by exactly that user's comments on the game; other users keep their count |
| `ReportSpec.AveragesOnePerGame` | backend/reportGeneration.go:48-51 | the averages list has one entry per game, in input order, with that game's title and its ceiling-mean likes |
| `ReportSpec.MostLikedBound` | backend/reportGeneration.go:44-47 | the candidate's likes are at least 0 and at least every game's total; while they are 0 the title is still "" |
| `ReportSpec.MostLikedAttained` | backend/reportGeneration.go:44-47 | when the candidate's likes are positive, they belong to the first game whose total reaches them, and the title is that game's title, so ties keep the earlier game |
| `ReportSpec.AsWrittenPicksLastKey` | backend/reportGeneration.go:24-33 | with every count positive, the scan as written returns the last key visited, whatever its count |
| `ReportSpec.AsWrittenMissesMaximum` | backend/reportGeneration.go:24-33 | counts {ann: 2, bob: 1} visited ann then bob make the scan as written return bob, who has the smaller count |
| `ReportSpec.ScanCorrectedIsMax` | backend/reportGeneration.go:24-33 | the corrected scan returns a visited key whose count is at least every visited count, or "" when no count is positive |
| `ReportSpec.CorpusReportAverages` | backend/reportGeneration.go:35-39 | the report's average list holds one entry per game, in input order, with that game's title and ceiling-mean likes |
| `ReportSpec.CorpusReportUser` | backend/reportGeneration.go:23-36 | the reported user is "" when no one commented; otherwise it is a commenter whose corpus-wide count is at least every other commenter's |
| `ReportSpec.CorpusReportHighest` | backend/reportGeneration.go:35-47 | the reported game is "" when no game's total is positive; otherwise it is the title of a game whose total is at least every game's total |
| `ReportSpec.MockGamesScenario` | service/gameservice/handler_test.go:102-141 | on the test fixture, Dummy averages 3, Solitary Voyage (total 9) is the most liked, and Jacqueline Dodson's comments on both games add up to 2 |
| `ReportSpec.EmptyCorpusScenario` | backend/reportGeneration.go:16-39 | an empty corpus yields `Report("", "", [])` |
| `ReportGeneration.ReportAccumulator.constructor` | backend/reportGeneration.go:16-21 | a new accumulator has an empty user map, an empty average list and the candidate ("", 0) |
| `ReportGeneration.ReportAccumulator.ProcessGame` | backend/reportGeneration.go:42-58 | replaces the candidate exactly when the game's total is strictly greater, appends exactly `{title, avg}` and keeps earlier entries, raises each user's count by exactly that user's comments on the game, and keeps every field equal to the corpus statistics of the games seen |
| `ReportGeneration.ReportAccumulator.CountComments` | backend/reportGeneration.go:53-57 | the user map gains exactly the game's commenters; each count rises by that user's comments on the game, a missing key counting from zero |
| `ReportGeneration.ReportAccumulator.Report` | backend/reportGeneration.go:23-40 | as written: returns "" for an empty user map, and otherwise the last key in iteration order, which is a key of the map; the title and the average list are copied unchanged |
| `ReportGeneration.ReportAccumulator.CorrectedReport` | backend/reportGeneration.go:23-40 | with the maximum updated during the scan: returns "" for an empty map, and otherwise a key whose count is at least every count; the title and the list are copied unchanged |
| `ReportGeneration.GenerateReport` | backend/reportGeneration.go:16-58 | a fresh accumulator fed every game in order returns exactly `CorpusReport`, the reference report whose meaning the three `CorpusReport*` lemmas state |

## Findings

| source | as written | input that shows it | evidently intended | confidence | as-written member | corrected member |
|---|---|---|---|---|---|---|
| backend/reportGeneration.go:24-33 | `maxComments` is never updated, so each key visited replaces `maxName` (all counts are at least 1), and the result is the last key in map order | counts {ann: 2, bob: 1} visited in the order ann, bob: the result is bob | raise `maxComments` along with `maxName`, so the result is a user with the most comments | high, not executed | `ReportSpec.AsWrittenMissesMaximum` (scan `ReportSpec.ScanAsWritten`, method `ReportGeneration.ReportAccumulator.Report`) | `ReportGeneration.ReportAccumulator.CorrectedReport` (scan `ReportSpec.ScanCorrected`, proved by `ReportSpec.ScanCorrectedIsMax`) |

`GenerateReport` uses the corrected scan. `ReportAccumulator.Report` keeps the
behaviour as written.

## Left out

- ProcessLikes: Go's `int` is 64 bits wide. The model's integers are unbounded, so an overflowing like sum is not modelled.
- ProcessLikes: the float64 division and `math.Ceil` agree with integer ceiling division only while the like sum stays below 2^53 in magnitude. Rounding beyond that is not modelled.
- ProcessLikes: the zero-comment average is fixed at 0. The source converts NaN to `int`, and that result is implementation-defined.
- Go's concrete map iteration order is unspecified. It is a parameter (`order`), so the model never fixes one.
- `Report` returns the same slice the accumulator holds (aliasing). In the model the report holds a value copy of the list.
- The fields of `Game` and `Comment` that the report does not read are left out: description, author, platforms, age rating, the denormalised like counter, message and creation date. So is the marshalling of `EpochToReadable` (`backend/model.go`).
- `backend/mongo.go` (the store connection, the single-game lookup and the aggregation-pipeline report) is not part of this model. The meaning of those pipelines is defined by the database server. In that file `HighestRatedGame` is overwritten on every row, because `first` is never cleared, and `Report` always returns a nil error. Neither defect is modelled.
- HTTP routing, JSON encoding and server start-up (`service/`, `server.go`) are I/O plumbing and are not modelled.
- `backend/datasource.go` declares interfaces only.
- Idempotence of the report is not stated as a lemma. It follows because `GenerateReport` returns a function of its inputs (`CorpusReport`).
