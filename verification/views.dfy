/** The view models the read side returns, and the mappers that build them
    from stored entities: absent parts become `null` (here `None`) or an
    empty list, answers are listed by time and questions by id. An id's
    `toString()` followed by `Number(...)` gives the id back, so view ids
    are kept as the same natural numbers. */
module Views {
  import opened Wrappers
  import opened Domain
  import opened Sorting
  import opened Sequences

  /** An answer as shown to a client. */
  datatype AnswerView = AnswerView(questionId: nat, answerStatus: AnswerStatus, addedAt: nat)

  /** A question as shown to an editor. */
  datatype QuestionView = QuestionView(
    id: nat,
    body: string,
    correctAnswers: seq<string>,
    published: bool,
    createdAt: nat,
    updatedAt: Option<nat>)

  /** A question as shown to the players of a game: no answers, no flags. */
  datatype QuestionForPair = QuestionForPair(id: nat, body: string)

  /** The player sitting in a seat; both fields are `undefined` when the
      seat is empty. */
  datatype PlayerView = PlayerView(id: Option<nat>, login: Option<string>)

  datatype PlayerProgressView = PlayerProgressView(answers: seq<AnswerView>, player: PlayerView, score: Option<int>)

  datatype GamePairView = GamePairView(
    id: nat,
    firstPlayerProgress: PlayerProgressView,
    secondPlayerProgress: Option<PlayerProgressView>,
    questions: Option<seq<QuestionForPair>>,
    status: GameStatus,
    pairCreatedDate: nat,
    startGameDate: Option<nat>,
    finishGameDate: Option<nat>)

  function AnswerOutputMap(answer: Answer): (v: AnswerView)
    ensures v.questionId == answer.questionId
    ensures v.answerStatus == answer.answerStatus
    ensures v.addedAt == answer.addedAt
  {
    AnswerView(answer.questionId, answer.answerStatus, answer.addedAt)
  }

  /** Each answer projected to its view, in input order. */
  function AnswerViews(answers: seq<Answer>): seq<AnswerView> {
    MapSeq(AnswerOutputMap, answers)
  }

  function AddedAt(v: AnswerView): nat { v.addedAt }

  /** The answers of a seat in the order they were given: a permutation of
      their views, ascending by `addedAt`. */
  function AnswersOutputMap(answers: seq<Answer>): (r: seq<AnswerView>)
    ensures |r| == |answers|
    ensures SortedBy(r, AddedAt)
    ensures multiset(r) == multiset(AnswerViews(answers))
  {
    SortBy(AnswerViews(answers), AddedAt)
  }

  function QuestionOutputMap(question: Question): (v: QuestionView)
    ensures v.id == question.id && v.body == question.body
    ensures v.correctAnswers == question.correctAnswers && v.published == question.published
    ensures v.createdAt == question.createdAt
    ensures v.updatedAt.None? <==> question.updatedAt.None?
    ensures question.updatedAt.Some? ==> v.updatedAt == question.updatedAt
  {
    QuestionView(
      question.id,
      question.body,
      question.correctAnswers,
      question.published,
      question.createdAt,
      if question.updatedAt.Some? then question.updatedAt else None)
  }

  /** A question reduced to its id and body. */
  function PairProjection(question: Question): QuestionForPair {
    QuestionForPair(question.id, question.body)
  }

  /** Each question projected to its id and body, in input order. */
  function QuestionsForPair(questions: seq<Question>): seq<QuestionForPair> {
    MapSeq(PairProjection, questions)
  }

  function PairQuestionId(q: QuestionForPair): nat { q.id }

  /** The questions of a game for its players: a permutation of their
      `{id, body}` projections, ascending by id. */
  function QuestionsOutputMap(questions: seq<Question>): (r: seq<QuestionForPair>)
    ensures |r| == |questions|
    ensures SortedBy(r, PairQuestionId)
    ensures multiset(r) == multiset(QuestionsForPair(questions))
  {
    SortBy(QuestionsForPair(questions), PairQuestionId)
  }

  /** With distinct question ids, the game's question list is the one and
      only id-ordered arrangement of the `{id, body}` projections. */
  lemma QuestionsOutputMapUnique(questions: seq<Question>, r: seq<QuestionForPair>)
    requires SortedBy(r, PairQuestionId) && DistinctKeys(r, PairQuestionId)
    requires multiset(r) == multiset(QuestionsForPair(questions))
    ensures r == QuestionsOutputMap(questions)
  {
    SortedPermutationUnique(r, QuestionsOutputMap(questions), PairQuestionId);
  }

  /** With distinct answer times, a seat's answer list is the one and only
      time-ordered arrangement of the answer views. */
  lemma AnswersOutputMapUnique(answers: seq<Answer>, r: seq<AnswerView>)
    requires SortedBy(r, AddedAt) && DistinctKeys(r, AddedAt)
    requires multiset(r) == multiset(AnswerViews(answers))
    ensures r == AnswersOutputMap(answers)
  {
    SortedPermutationUnique(r, AnswersOutputMap(answers), AddedAt);
  }

  /** One seat of a game: its answers by time (`[]` when there are none),
      its player and its score; every field is `undefined` when the seat is
      empty. */
  function PlayerProgressOutputMap(progress: Option<PlayerProgress>): (v: PlayerProgressView)
    ensures progress.None? ==> v == PlayerProgressView([], PlayerView(None, None), None)
    ensures progress.Some? ==> v.player == PlayerView(Some(progress.value.UserId()), Some(progress.value.user.login))
    ensures progress.Some? ==> v.score == Some(progress.value.score)
    ensures progress.Some? && |progress.value.answers| == 0 ==> v.answers == []
    ensures progress.Some? ==> |v.answers| == |progress.value.answers| && SortedBy(v.answers, AddedAt)
    ensures progress.Some? ==> multiset(v.answers) == multiset(AnswerViews(progress.value.answers))
  {
    match progress
    case None => PlayerProgressView([], PlayerView(None, None), None)
    case Some(p) =>
      PlayerProgressView(
        if |p.answers| > 0 then AnswersOutputMap(p.answers) else [],
        PlayerView(Some(p.UserId()), Some(p.user.login)),
        Some(p.score))
  }

  /** A game as shown to its players. The second seat is `null` exactly when
      nobody has joined yet, the question list is `null` exactly when no
      questions were drawn, and status and dates are copied unchanged. */
  function GamePairOutputMap(game: GamePair): (v: GamePairView)
    ensures v.id == game.id
    ensures v.firstPlayerProgress == PlayerProgressOutputMap(game.firstPlayerProgress)
    ensures v.secondPlayerProgress.None? <==> game.secondPlayerProgress.None?
    ensures game.secondPlayerProgress.Some? ==> v.secondPlayerProgress == Some(PlayerProgressOutputMap(game.secondPlayerProgress))
    ensures v.questions.None? <==> |game.questions| == 0
    ensures v.questions.Some? ==> |v.questions.value| == |game.questions| && SortedBy(v.questions.value, PairQuestionId)
    ensures v.questions.Some? ==> multiset(v.questions.value) == multiset(QuestionsForPair(game.questions))
    ensures v.status == game.status && v.pairCreatedDate == game.pairCreatedDate
    ensures v.startGameDate == game.startGameDate && v.finishGameDate == game.finishGameDate
  {
    GamePairView(
      game.id,
      PlayerProgressOutputMap(game.firstPlayerProgress),
      if game.secondPlayerProgress.Some? then Some(PlayerProgressOutputMap(game.secondPlayerProgress)) else None,
      if |game.questions| > 0 then Some(QuestionsOutputMap(game.questions)) else None,
      game.status,
      game.pairCreatedDate,
      game.startGameDate,
      game.finishGameDate)
  }

  /** Looks a question up by id: its view when stored, `NotFound` otherwise. */
  function QuestionOutput(questions: map<nat, Question>, id: nat): (r: Result<QuestionView, Error>)
    ensures r.Success? <==> id in questions
    ensures r.Success? ==> r.value == QuestionOutputMap(questions[id])
    ensures r.Failure? ==> r.error == NotFound(QuestionKind, id)
  {
    if id in questions then Success(QuestionOutputMap(questions[id])) else Failure(NotFound(QuestionKind, id))
  }

  /** A seat as the game lookup loads it: the user and the score, but not
      the answers relation. */
  function WithoutAnswers(progress: Option<PlayerProgress>): Option<PlayerProgress> {
    match progress
    case None => None
    case Some(p) => Some(p.(answers := []))
  }

  /** A stored game as the game lookup loads it: seats with their users and
      the questions, with no answer loaded for either seat. */
  function LoadedForLookup(game: GamePair): GamePair {
    game.(firstPlayerProgress := WithoutAnswers(game.firstPlayerProgress),
          secondPlayerProgress := WithoutAnswers(game.secondPlayerProgress))
  }

  /** Looks a game up by id: `NotFound` when it is not stored; otherwise the
      stored game's view, except that both seats list no answers because the
      lookup does not load them. */
  function GameOutput(games: map<nat, GamePair>, id: nat): (r: Result<GamePairView, Error>)
    ensures r.Success? <==> id in games
    ensures r.Failure? ==> r.error == NotFound(GameKind, id)
    ensures r.Success? ==> r.value.firstPlayerProgress.answers == []
    ensures r.Success? && r.value.secondPlayerProgress.Some? ==> r.value.secondPlayerProgress.value.answers == []
    ensures r.Success? ==>
              var full := GamePairOutputMap(games[id]);
              && r.value.firstPlayerProgress == full.firstPlayerProgress.(answers := [])
              && r.value.secondPlayerProgress.Some? == full.secondPlayerProgress.Some?
              && (full.secondPlayerProgress.Some? ==> r.value.secondPlayerProgress.value == full.secondPlayerProgress.value.(answers := []))
              && r.value.(firstPlayerProgress := full.firstPlayerProgress, secondPlayerProgress := full.secondPlayerProgress) == full
  {
    if id in games then Success(GamePairOutputMap(LoadedForLookup(games[id]))) else Failure(NotFound(GameKind, id))
  }

  /** Looks an answer up by id: its view when stored, `NotFound` otherwise. */
  function AnswerOutput(answers: map<nat, Answer>, id: nat): (r: Result<AnswerView, Error>)
    ensures r.Success? <==> id in answers
    ensures r.Success? ==> r.value == AnswerOutputMap(answers[id])
    ensures r.Failure? ==> r.error == NotFound(AnswerKind, id)
  {
    if id in answers then Success(AnswerOutputMap(answers[id])) else Failure(NotFound(AnswerKind, id))
  }
}
