/** The two list endpoints: one page of the questions matching a search,
    and one page of a user's games. The database's filtering, ordering and
    counting are not modelled; each endpoint receives the matching rows in
    their sorted order and pages through them with `Pagination.Page`. */
module Listing {
  import opened Wrappers
  import opened Domain
  import opened Pagination
  import opened Views
  import opened Sequences

  datatype QuestionsPage = QuestionsPage(meta: QuestionsQuery, items: seq<QuestionView>)

  datatype GamesPage = GamesPage(meta: GamesQuery, items: seq<GamePairView>)

  function QuestionViews(questions: seq<Question>): seq<QuestionView> {
    MapSeq(QuestionOutputMap, questions)
  }

  function GameViews(games: seq<GamePair>): seq<GamePairView> {
    MapSeq(GamePairOutputMap, games)
  }

  /** One page of the questions matching the query, `matching` being every
      matching question in the requested order. */
  function GetAllQuestionsWithQuery(query: QueryParams, matching: seq<Question>): (r: QuestionsPage)
    requires query.pageSize != Some(0) && query.pageNumber != Some(0)
    ensures r.meta == GenerateQuery(query, |matching|)
    ensures |r.items| <= PageSizeOf(query)
  {
    QuestionsPage(GenerateQuery(query, |matching|), QuestionViews(Page(matching, PageOf(query), PageSizeOf(query))))
  }

  /** Item `k` of a questions page is the view of the matching question at
      position `(page - 1) * pageSize + k`. */
  lemma QuestionsPageItems(query: QueryParams, matching: seq<Question>)
    requires query.pageSize != Some(0) && query.pageNumber != Some(0)
    ensures var items := GetAllQuestionsWithQuery(query, matching).items;
            var offset := Offset(PageOf(query), PageSizeOf(query));
            forall k :: 0 <= k < |items| ==> 0 <= offset + k < |matching| && items[k] == QuestionOutputMap(matching[offset + k])
  {
    MappedPageItems(QuestionOutputMap, matching, PageOf(query), PageSizeOf(query));
  }

  /** A questions page is the same page of the views of all matching
      questions. */
  lemma QuestionsPageIsViewsPage(query: QueryParams, matching: seq<Question>)
    requires query.pageSize != Some(0) && query.pageNumber != Some(0)
    ensures GetAllQuestionsWithQuery(query, matching).items == Page(QuestionViews(matching), PageOf(query), PageSizeOf(query))
  {
    PageOfMap(QuestionOutputMap, matching, PageOf(query), PageSizeOf(query));
  }

  /** The page count in a questions page's metadata is exactly enough: its
      pages `1..pagesCount`, read in order, list the view of every matching
      question once. */
  lemma QuestionPagesCoverAll(query: QueryParams, matching: seq<Question>)
    requires query.pageSize != Some(0) && query.pageNumber != Some(0)
    ensures var meta := GetAllQuestionsWithQuery(query, matching).meta;
            Pages(QuestionViews(matching), meta.pageSize, meta.pagesCount) == QuestionViews(matching)
  {
    PagesCoverItems(QuestionViews(matching), PageSizeOf(query));
  }

  /** The number of the user's games with both seats taken: the count query
      inner-joins both seats, so a game with either seat empty, such as one
      still waiting for its second player, is not counted. */
  function PairedCount(games: seq<GamePair>): (n: nat)
    ensures n <= |games|
    ensures n == |games| <==> forall i :: 0 <= i < |games| ==> BothSeated(games[i])
    ensures |games| == 1 ==> (n == 1 <==> BothSeated(games[0]))
  {
    if |games| == 0 then 0
    else PairedCount(games[..|games| - 1]) + if BothSeated(games[|games| - 1]) then 1 else 0
  }

  /** The count is additive: the games of two batches are counted
      separately and summed. With the value on a single game, this fixes
      the count as the number of both-seated games. */
  lemma {:induction false} PairedCountAppend(a: seq<GamePair>, b: seq<GamePair>)
    ensures PairedCount(a + b) == PairedCount(a) + PairedCount(b)
    decreases |b|
  {
    if |b| == 0 {
      assert a + b == a;
    } else {
      var last := b[|b| - 1];
      PairedCountAppend(a, b[..|b| - 1]);
      assert (a + b)[..|a + b| - 1] == a + b[..|b| - 1];
      assert (a + b)[|a + b| - 1] == last;
    }
  }

  /** One page of the user's games as the original computes it: the page
      metadata counts only paired games, while the listed games, read with
      outer joins, include a game still waiting for its second player. */
  function GetAllMyGamesWithQueryAsWritten(query: QueryParams, games: seq<GamePair>): (r: GamesPage)
    requires query.pageSize != Some(0) && query.pageNumber != Some(0)
    ensures r.meta == GenerateQueryForMyGames(query, PairedCount(games))
    ensures |r.items| <= PageSizeOf(query)
  {
    GamesPage(GenerateQueryForMyGames(query, PairedCount(games)), GameViews(Page(games, PageOf(query), PageSizeOf(query))))
  }

  /** A games page as written is the same page of the views of all the
      user's games: only its metadata differs from the corrected one. */
  lemma MyGamesPageAsWrittenIsViewsPage(query: QueryParams, games: seq<GamePair>)
    requires query.pageSize != Some(0) && query.pageNumber != Some(0)
    ensures GetAllMyGamesWithQueryAsWritten(query, games).items == Page(GameViews(games), PageOf(query), PageSizeOf(query))
  {
    var page := Page(games, PageOf(query), PageSizeOf(query));
    assert GetAllMyGamesWithQueryAsWritten(query, games).items == GameViews(page);
    PageOfMap(GamePairOutputMap, games, PageOf(query), PageSizeOf(query));
  }

  /** A game waiting for its opponent plus one paired game, one game per
      page: the metadata promises a single page, yet page 2 still lists a
      game, which no client that stops at `pagesCount` will ever see. */
  lemma PendingGameHidesLastPage()
    ensures var user := User(1, "first");
            var other := User(2, "second");
            var pending := GamePair(1, Some(PlayerProgress(user, 0, [])), None, [], PendingSecondPlayer, 20, None, None);
            var paired := GamePair(2, Some(PlayerProgress(user, 3, [])), Some(PlayerProgress(other, 2, [])), [], Finished, 10, Some(11), Some(12));
            var query := QueryParams(None, None, Some(1), Some(2), None, None);
            && GetAllMyGamesWithQueryAsWritten(query, [pending, paired]).meta.pagesCount == 1
            && GetAllMyGamesWithQueryAsWritten(query, [pending, paired]).items == [GamePairOutputMap(paired)]
  {
    var user := User(1, "first");
    var other := User(2, "second");
    var pending := GamePair(1, Some(PlayerProgress(user, 0, [])), None, [], PendingSecondPlayer, 20, None, None);
    var paired := GamePair(2, Some(PlayerProgress(user, 3, [])), Some(PlayerProgress(other, 2, [])), [], Finished, 10, Some(11), Some(12));
    var games := [pending, paired];
    assert games[..1] == [pending];
    assert PairedCount(games) == 1;
    assert Page(games, 2, 1) == [paired];
  }

  /** A game whose first seat is empty but whose second seat holds the user
      is listed, yet the count query's inner join on the first seat drops it. */
  lemma FirstSeatlessGameNotCounted()
    ensures var user := User(1, "first");
            var game := GamePair(1, None, Some(PlayerProgress(user, 0, [])), [], Active, 10, Some(11), None);
            var query := QueryParams(None, None, None, None, None, None);
            && GetAllMyGamesWithQueryAsWritten(query, [game]).meta.totalCount == 0
            && GetAllMyGamesWithQueryAsWritten(query, [game]).items == [GamePairOutputMap(game)]
  {
    var user := User(1, "first");
    var game := GamePair(1, None, Some(PlayerProgress(user, 0, [])), [], Active, 10, Some(11), None);
    assert [game][..0] == [];
    assert PairedCount([game]) == 0;
    assert Page([game], 1, 10) == [game];
  }

  /** One page of the user's games with the total counting every listed
      game, pending ones included. */
  function GetAllMyGamesWithQuery(query: QueryParams, games: seq<GamePair>): (r: GamesPage)
    requires query.pageSize != Some(0) && query.pageNumber != Some(0)
    ensures r.meta == GenerateQueryForMyGames(query, |games|)
    ensures |r.items| <= PageSizeOf(query)
  {
    GamesPage(GenerateQueryForMyGames(query, |games|), GameViews(Page(games, PageOf(query), PageSizeOf(query))))
  }

  /** A corrected games page is the same page of the views of all the
      user's games. */
  lemma MyGamesPageIsViewsPage(query: QueryParams, games: seq<GamePair>)
    requires query.pageSize != Some(0) && query.pageNumber != Some(0)
    ensures GetAllMyGamesWithQuery(query, games).items == Page(GameViews(games), PageOf(query), PageSizeOf(query))
  {
    PageOfMap(GamePairOutputMap, games, PageOf(query), PageSizeOf(query));
  }

  /** With the corrected total, the page count in the metadata is exactly
      enough: its pages `1..pagesCount`, read in order, list every game of
      the user once. */
  lemma MyGamesPagesCoverAll(query: QueryParams, games: seq<GamePair>)
    requires query.pageSize != Some(0) && query.pageNumber != Some(0)
    ensures var meta := GetAllMyGamesWithQuery(query, games).meta;
            Pages(GameViews(games), meta.pageSize, meta.pagesCount) == GameViews(games)
  {
    PagesCoverItems(GameViews(games), PageSizeOf(query));
  }

  /** With the corrected total, a page past `pagesCount` lists nothing,
      whether its number was given or defaulted. */
  lemma MyGamesPagesBeyondCountEmpty(query: QueryParams, games: seq<GamePair>)
    requires query.pageSize != Some(0) && query.pageNumber != Some(0)
    requires PageOf(query) > PagesCount(|games|, PageSizeOf(query))
    ensures GetAllMyGamesWithQuery(query, games).items == []
  {
    PagesBeyondCountEmpty(games, PageSizeOf(query), PageOf(query));
  }

  /** The original and the corrected page agree exactly when every game of
      the user has both seats taken. */
  lemma AsWrittenAgreesWhenAllPaired(query: QueryParams, games: seq<GamePair>)
    requires query.pageSize != Some(0) && query.pageNumber != Some(0)
    ensures (GetAllMyGamesWithQueryAsWritten(query, games) == GetAllMyGamesWithQuery(query, games))
            <==> forall i :: 0 <= i < |games| ==> BothSeated(games[i])
  {
    var a := GetAllMyGamesWithQueryAsWritten(query, games);
    var c := GetAllMyGamesWithQuery(query, games);
    if a == c {
      assert a.meta.totalCount == PairedCount(games);
      assert c.meta.totalCount == |games|;
    }
  }
}
