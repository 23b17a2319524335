# Quiz game read side, in Dafny

This project models the read side of a two-player quiz game (a NestJS/TypeORM
service): the query repository that turns stored games, questions and answers
into the records the HTTP API returns. It covers four parts.

- **The per-user statistics fold.** It walks the games found for a user and
  adds up the user's score and the wins, losses and draws (`Statistics`).
- **The list endpoints' page arithmetic and query defaults** (`Pagination`, `Listing`).
- **The ordering projections.** A game's questions are listed by id and a
  seat's answers by time (`Sorting`, `Views`).
- **The view mappers and the lookups** that raise `NotFound` for an unknown
  id (`Views`).

Database reads are replaced by inputs. The statistics fold gets the
sequence of games found for the user. A list endpoint gets the matching
rows in the order the query asks for. A lookup gets a map from ids to rows.
Ids and dates are natural numbers. A nullable column or an unloaded
relation is an `Option`.

Modules, leaves first:

- `Wrappers` holds `Option` and `Result`.
- `Domain` holds the stored entities and the error type.
- `Sorting` is the stable sort by a numeric key. It models `Array.prototype.sort`
  with a `(a, b) => key(a) - key(b)` comparator.
- `Pagination` holds the query defaults, the page count, the skip/take page
  and the fact that pages cover the items.
- `Views` holds the view records, the mappers and the lookups.
- `Listing` holds the two list endpoints.
- `Statistics` holds the fold, a method that mirrors the original loop, and
  the fold's properties.

The model follows the code as written in three places.

- **Unpaired games abort the fold.** A game found for the user whose second
  seat is empty makes the original loop read a field of `null`. The fold
  therefore fails with `MissingSeat`.
- **Game status is ignored.** The fold counts every game the user sits in,
  whatever its status.
- **A self-game counts twice.** If the user sits in both seats with unequal
  scores, the game is counted as a win and as a loss
  (`Statistics.SelfGameCountedTwice`). The wins/losses/draws partition is
  proved only for games where the user holds exactly one seat.

`getMyStatistics` recomputes a user's statistics by folding over the stored
games, and the model does the same. No caller of it appears in the code:
the live statistics endpoints (`src/features/quiz/api/quiz.controller.ts:77-79`
and `getAllStatistic`) serve stored statistics rows, and the code that
writes those rows is not part of this model.

## Model

| member | source | states |
|---|---|---|
| Statistics.GetMyStatistics | src/features/quiz/infrastructure/quiz.query-repository.to.ts:216-267 | Succeeds iff every game has both seats; otherwise fails naming a game with a missing seat. `gamesCount` is the number of games, and user id and login are copied. If the user holds exactly one seat of every game: `sumScore` is the sum of the user's own seat scores; wins, losses and draws count the games won, lost and drawn from the user's side; the three add up to `gamesCount`. |
| Statistics.GameTally | src/features/quiz/infrastructure/quiz.query-repository.to.ts:231-254 | One game's contribution succeeds iff both seats are present; otherwise the error is `MissingSeat` for that game. |
| Statistics.GameTallySeatedOnce | src/features/quiz/infrastructure/quiz.query-repository.to.ts:232-253 | When the user holds exactly one seat, a game adds the user's own score and exactly one of win (own score greater), loss (own score smaller) or draw (equal). This holds whichever seat the user holds. |
| Statistics.StatsFoldSucceeds | src/features/quiz/infrastructure/quiz.query-repository.to.ts:231-254 | The fold over the found games succeeds iff every game has both seats. |
| Statistics.StatsFoldMatchesOutcomes | src/features/quiz/infrastructure/quiz.query-repository.to.ts:227-254 | When the user holds exactly one seat of every game, the totals equal three independent counts (games won, lost and drawn from the user's side) and the sum of the user's own scores. |
| Statistics.OutcomesPartitionGames | src/features/quiz/infrastructure/quiz.query-repository.to.ts:237-255 | Won, lost and drawn games add up to the number of games when the user holds exactly one seat of each. |
| Statistics.StatsFoldAppend | src/features/quiz/infrastructure/quiz.query-repository.to.ts:227-254 | The fold over two batches of games is the sum of the folds over each batch, and a failure in the first batch is the one reported. |
| Statistics.StatsFoldSeatIndependent | src/features/quiz/infrastructure/quiz.query-repository.to.ts:237-253 | Exchanging the two seats of every game leaves the statistics unchanged when the user holds exactly one seat of each. |
| Statistics.OpponentScoreNotSummed | src/features/quiz/infrastructure/quiz.query-repository.to.ts:232-236 | Changing the opponent's score never changes the user's score total. |
| Statistics.SelfGameCountedTwice | src/features/quiz/infrastructure/quiz.query-repository.to.ts:237-253 | A game where the user holds both seats with unequal scores adds one win and one loss. |
| Pagination.PagesCount | src/features/quiz/infrastructure/quiz.query-repository.to.ts:65-66 | With a positive page size: `pagesCount` is 0 for no items. Otherwise `(pagesCount-1)*pageSize < totalCount <= pagesCount*pageSize`. |
| Pagination.PagesCountUnique | src/features/quiz/infrastructure/quiz.query-repository.to.ts:151-152 | The page count is the only number meeting those ceiling bounds. |
| Pagination.Page | src/features/quiz/infrastructure/quiz.query-repository.to.ts:39-40 | A page skips `(page-1)*pageSize` items and holds at most `pageSize` of the following ones, in order. It is empty past the end. |
| Pagination.PagesArePrefix | src/features/quiz/infrastructure/quiz.query-repository.to.ts:134-135 | Pages `1..n` read in order are the first `n*pageSize` items. |
| Pagination.PagesUpToCountNonEmpty | src/features/quiz/infrastructure/quiz.query-repository.to.ts:65-66 | Every page numbered `1..pagesCount` holds at least one item. |
| Pagination.PagesBeyondCountEmpty | src/features/quiz/infrastructure/quiz.query-repository.to.ts:151-152 | Every page numbered above `pagesCount` is empty. |
| Pagination.PagesCoverItems | src/features/quiz/infrastructure/quiz.query-repository.to.ts:39-40 | Pages `1..pagesCount` read in order list every item exactly once, in order. |
| Pagination.GenerateQuery | src/features/quiz/infrastructure/quiz.query-repository.to.ts:53-78 | Questions-list metadata. `pageSize` defaults to 10, page to 1, `sortBy` to `createdAt` and `sortDirection` to `desc`. The search term defaults to empty and the published status to `All`; an empty string also falls back to the default. The page count is the ceiling of `totalCount / pageSize`. |
| Pagination.GenerateQueryForMyGames | src/features/quiz/infrastructure/quiz.query-repository.to.ts:143-162 | Games-list metadata, with the same defaults except `sortBy`, which defaults to `pairCreatedDate`. Same ceiling page count. |
| Sorting.SortBy | src/features/quiz/infrastructure/quiz.query-repository.to.ts:111 | The sort returns a permutation of its input in ascending key order. |
| Sorting.SortBySortedIsIdentity | src/features/quiz/infrastructure/quiz.query-repository.to.ts:356 | An already sorted list comes back unchanged, so sorting a sorted result again changes nothing. |
| Sorting.SortedPermutationUnique | src/features/quiz/infrastructure/quiz.query-repository.to.ts:111 | With distinct keys, two sorted permutations of the same elements are equal. |
| Views.AnswerOutputMap | src/features/quiz/infrastructure/quiz.query-repository.to.ts:337-348 | An answer's view keeps its question id, status and time. |
| Views.AnswersOutputMap | src/features/quiz/infrastructure/quiz.query-repository.to.ts:350-358 | A seat's answers come back as a same-length permutation of their views, ascending by `addedAt`. |
| Views.AnswersOutputMapUnique | src/features/quiz/infrastructure/quiz.query-repository.to.ts:350-358 | With distinct answer times, that list is the only time-ordered arrangement of the answer views. |
| Views.QuestionOutputMap | src/features/quiz/infrastructure/quiz.query-repository.to.ts:90-104 | A question's view copies every field. `updatedAt` is null iff it is absent. |
| Views.QuestionsOutputMap | src/features/quiz/infrastructure/quiz.query-repository.to.ts:106-113 | A game's questions come back as a permutation of their `{id, body}` projections, ascending by id. |
| Views.QuestionsOutputMapUnique | src/features/quiz/infrastructure/quiz.query-repository.to.ts:106-113 | With distinct ids, that list is the only id-ordered arrangement of the projections. |
| Views.PlayerProgressOutputMap | src/features/quiz/infrastructure/quiz.query-repository.to.ts:188-203 | An empty seat shows no answers and an undefined player and score. A taken seat shows its player, its score and its answers sorted by time, with `[]` when there are none. |
| Views.GamePairOutputMap | src/features/quiz/infrastructure/quiz.query-repository.to.ts:175-210 | The second seat is null iff nobody has joined. The questions are null iff none were drawn; otherwise they are sorted by id. Status and the three dates are copied. |
| Views.QuestionOutput | src/features/quiz/infrastructure/quiz.query-repository.to.ts:80-88 | A question lookup returns the question's view iff the id is stored; otherwise it fails with NotFound for that id. |
| Views.GameOutput | src/features/quiz/infrastructure/quiz.query-repository.to.ts:164-173 | A game lookup succeeds iff the id is stored, and otherwise fails with NotFound for that id. It loads the seats' users and the questions but not the answers, so both seats list no answers. Every other field equals the stored game's full view. |
| Views.AnswerOutput | src/features/quiz/infrastructure/quiz.query-repository.to.ts:327-335 | An answer lookup returns the answer's view iff the id is stored; otherwise it fails with NotFound for that id. |
| Listing.GetAllQuestionsWithQuery | src/features/quiz/infrastructure/quiz.query-repository.to.ts:33-51 | A questions page carries the defaulted metadata for the matching count and holds at most `pageSize` items. |
| Listing.QuestionsPageItems | src/features/quiz/infrastructure/quiz.query-repository.to.ts:35-48 | Item k of a questions page is the view of the matching question at position `(page-1)*pageSize + k`. |
| Listing.QuestionsPageIsViewsPage | src/features/quiz/infrastructure/quiz.query-repository.to.ts:35-48 | The items of a questions page are exactly that page (skip `(page-1)*pageSize`, take `pageSize`) of the views of all matching questions: mapping and paging commute. |
| Listing.QuestionPagesCoverAll | src/features/quiz/infrastructure/quiz.query-repository.to.ts:33-51 | The `pagesCount` a questions page reports is exactly enough: pages `1..pagesCount` of the views, read in order, list every matching question once. |
| Listing.PairedCount | src/features/quiz/infrastructure/quiz.query-repository.to.ts:143-150 | The games-list total inner-joins both seats. It is at most the number of listed games, and equal iff every game has both seats; a single game counts 1 iff both its seats are taken. |
| Listing.PairedCountAppend | src/features/quiz/infrastructure/quiz.query-repository.to.ts:143-150 | The total is additive over batches of games. With the single-game value this fixes it as the number of the user's games with both seats taken. |
| Listing.GetAllMyGamesWithQueryAsWritten | src/features/quiz/infrastructure/quiz.query-repository.to.ts:119-141 | The games page as written: the metadata's total counts only the games with both seats taken, and the page holds at most `pageSize` items. |
| Listing.MyGamesPageAsWrittenIsViewsPage | src/features/quiz/infrastructure/quiz.query-repository.to.ts:121-135 | The items of a games page as written are the skip/take page of the views of all the user's games, pending ones included. |
| Listing.PendingGameHidesLastPage | src/features/quiz/infrastructure/quiz.query-repository.to.ts:143-152 | With one pending and one paired game and a page size of 1, the metadata says there is 1 page, yet page 2 lists the paired game. |
| Listing.GetAllMyGamesWithQuery | src/features/quiz/infrastructure/quiz.query-repository.to.ts:119-141 | The corrected games page: its total counts every listed game. |
| Listing.MyGamesPageIsViewsPage | src/features/quiz/infrastructure/quiz.query-repository.to.ts:121-135 | The items of a games page are exactly that page of the views of all the user's games. |
| Listing.MyGamesPagesCoverAll | src/features/quiz/infrastructure/quiz.query-repository.to.ts:119-141 | With the corrected total, the `pagesCount` a games page reports is exactly enough: pages `1..pagesCount` of the game views, read in order, list every game of the user once. |
| Listing.MyGamesPagesBeyondCountEmpty | src/features/quiz/infrastructure/quiz.query-repository.to.ts:134-135 | With the corrected total, a page numbered above `pagesCount`, given or defaulted, lists nothing. |
| Listing.AsWrittenAgreesWhenAllPaired | src/features/quiz/infrastructure/quiz.query-repository.to.ts:143-152 | The original and corrected games pages agree iff every game of the user has both seats taken. |
| Listing.FirstSeatlessGameNotCounted | src/features/quiz/infrastructure/quiz.query-repository.to.ts:121-152 | A game whose first seat is empty and whose second seat holds the user is listed, but the as-written total is 0: the count's inner join drops it. |

## Left out

- `avgScores`: floating-point division with `toFixed(2)`, which gives NaN for a user with no games.
- `getAllStatistic`, `allStatisticOutputMap` and `myStatisticOutputMap` only copy the fields of stored rows.
- The HTTP controller: routing, JWT guards and the auth-token lookup of the current user.
- Matchmaking, answer checking, the finish-first bonus, the time-out and the writing of stored statistics: `QuizService` and `GenerateStatisticHandler` are not part of this model.
- The database side of the queries: `LIKE`/`LOWER` search, the published-status filter, ordering by a caller-chosen column, joins and row counting. Each endpoint receives its matching rows in order instead.
- The statistics query itself: the games found for the user are an input.
- `PaginationBaseModel` is not part of this model. A page is modelled as its metadata plus its items.
- Pagination.GenerateQuery and Pagination.GenerateQueryForMyGames require a page size other than "0". The original divides by it and gets an infinite or NaN page count.
- Listing.GetAllQuestionsWithQuery and the two games-page functions also require a page number other than "0". The original would then skip a negative number of rows, and what TypeORM does with that is not modelled.
- Non-numeric, negative and fractional page sizes and page numbers (`NaN`, `"-1"`, `"2.5"`, which `+query.pageSize` and `Number(query.pageNumber)` accept) are not modelled: the numeric query fields are natural numbers or absent.
- Sorting.SortBy: ties between equal keys keep input order, as the engine's stable sort does, but that stability is not stated as a contract.
- Ids are natural numbers in the views too. `id.toString()` followed by `Number(...)` in the comparators gives the id back. Dates are natural numbers rather than `Date` objects.
- The `user` relation of a seat is always loaded in the model. An answer list that was not loaded is modelled as empty, which the original treats the same way.

## Findings

| source | as written | input that shows it | evidently intended | confidence | as-written member | corrected member |
|---|---|---|---|---|---|---|
| src/features/quiz/infrastructure/quiz.query-repository.to.ts:143-152 | The my-games total inner-joins both seats, but the listed games (lines 121-135) are read with outer joins. A game waiting for its opponent is listed but not counted. | Games: one pending game and one paired game, with `pageSize` 1. `pagesCount` is 1, yet page 2 lists the paired game. | The total counts every game the list pages through. | medium; not executed | Listing.GetAllMyGamesWithQueryAsWritten, exhibited by Listing.PendingGameHidesLastPage | Listing.GetAllMyGamesWithQuery, proved by Listing.MyGamesPagesCoverAll |
