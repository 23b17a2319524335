/** The stored entities the quiz read side works on: questions, answers,
    player progress (one per seat) and game pairs. Identifiers and dates are
    natural numbers; a nullable column or an unloaded relation is an `Option`. */
module Domain {
  import opened Wrappers

  datatype AnswerStatus = Correct | Incorrect

  /** One recorded answer of one player to one question. */
  datatype Answer = Answer(id: nat, questionId: nat, answerStatus: AnswerStatus, addedAt: nat)

  /** A question of the question bank; `updatedAt` is absent until the first edit. */
  datatype Question = Question(
    id: nat,
    body: string,
    correctAnswers: seq<string>,
    published: bool,
    createdAt: nat,
    updatedAt: Option<nat>)

  datatype User = User(id: nat, login: string)

  /** A player's state in one seat of a game: who sits there, the score so
      far and the answers given (empty when not loaded). */
  datatype PlayerProgress = PlayerProgress(user: User, score: int, answers: seq<Answer>) {
    function UserId(): nat { user.id }
  }

  datatype GameStatus = PendingSecondPlayer | Active | Finished

  /** A game pair: two seats, the questions drawn for it, its status and dates.
      The second seat is absent while the game waits for an opponent. */
  datatype GamePair = GamePair(
    id: nat,
    firstPlayerProgress: Option<PlayerProgress>,
    secondPlayerProgress: Option<PlayerProgress>,
    questions: seq<Question>,
    status: GameStatus,
    pairCreatedDate: nat,
    startGameDate: Option<nat>,
    finishGameDate: Option<nat>)

  /** Both seats of the game are taken: the condition of an inner join on
      both seats, and what the statistics fold needs to read a game. */
  predicate BothSeated(game: GamePair) {
    game.firstPlayerProgress.Some? && game.secondPlayerProgress.Some?
  }

  datatype EntityKind = QuestionKind | GameKind | AnswerKind

  /** The errors the read side raises: a lookup of an unknown id, and a
      game whose seat is missing where the statistics fold reads it (a
      `TypeError` on a `null` relation in the original). */
  datatype Error = NotFound(kind: EntityKind, id: nat) | MissingSeat(gameId: nat)
}
