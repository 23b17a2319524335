/** The per-user statistics fold: every game found for a user adds the
    score of the user's seat and one tick to wins, losses or draws. */
module Statistics {
  import opened Wrappers
  import opened Domain
  import opened Sequences

  /** The running totals of the fold. */
  datatype Tally = Tally(sumScore: int, wins: nat, losses: nat, draws: nat)

  /** The statistics returned for one user (the float average is not
      modelled). */
  datatype MyStatistics = MyStatistics(
    sumScore: int,
    gamesCount: nat,
    winsCount: nat,
    lossesCount: nat,
    drawsCount: nat,
    userId: nat,
    userLogin: string)

  datatype GameOutcome = Win | Loss | Draw

  const Zero := Tally(0, 0, 0, 0)

  function Add(a: Tally, b: Tally): Tally {
    Tally(a.sumScore + b.sumScore, a.wins + b.wins, a.losses + b.losses, a.draws + b.draws)
  }

  /** Both seats are taken and the user holds exactly one of them. */
  predicate SeatedOnce(game: GamePair, userId: nat) {
    && BothSeated(game)
    && (game.firstPlayerProgress.value.UserId() == userId) != (game.secondPlayerProgress.value.UserId() == userId)
  }

  /** The score of the seat the user holds. */
  function MyScore(game: GamePair, userId: nat): int
    requires SeatedOnce(game, userId)
  {
    if game.firstPlayerProgress.value.UserId() == userId then game.firstPlayerProgress.value.score
    else game.secondPlayerProgress.value.score
  }

  /** The score of the other seat. */
  function OpponentScore(game: GamePair, userId: nat): int
    requires SeatedOnce(game, userId)
  {
    if game.firstPlayerProgress.value.UserId() == userId then game.secondPlayerProgress.value.score
    else game.firstPlayerProgress.value.score
  }

  /** A game's result from one player's side. */
  function Outcome(mine: int, theirs: int): GameOutcome {
    if mine > theirs then Win else if mine < theirs then Loss else Draw
  }

  /** What a game with the given own and opponent scores should add. */
  function Expected(mine: int, theirs: int): Tally {
    var o := Outcome(mine, theirs);
    Tally(mine, if o == Win then 1 else 0, if o == Loss then 1 else 0, if o == Draw then 1 else 0)
  }

  /** One iteration of the fold on a game with both seats, branch for
      branch: the first seat's score is added if the user holds it, else the
      second seat's; a draw is counted on equal scores; a win or a loss is
      counted from each seat the user holds. */
  function SeatsTally(first: PlayerProgress, second: PlayerProgress, userId: nat): Tally {
    var sum := if first.UserId() == userId then first.score
               else if second.UserId() == userId then second.score
               else 0;
    var draws := if first.score == second.score then 1 else 0;
    var firstWin := if first.UserId() == userId && first.score > second.score then 1 else 0;
    var firstLoss := if first.UserId() == userId && !(first.score > second.score) && first.score < second.score then 1 else 0;
    var secondWin := if second.UserId() == userId && second.score > first.score then 1 else 0;
    var secondLoss := if second.UserId() == userId && !(second.score > first.score) && second.score < first.score then 1 else 0;
    Tally(sum, firstWin + secondWin, firstLoss + secondLoss, draws)
  }

  /** What one game adds to the totals; reading a missing seat raises. */
  function GameTally(game: GamePair, userId: nat): (r: Result<Tally, Error>)
    ensures r.Success? <==> BothSeated(game)
    ensures r.Failure? ==> r.error == MissingSeat(game.id)
  {
    if BothSeated(game) then Success(SeatsTally(game.firstPlayerProgress.value, game.secondPlayerProgress.value, userId))
    else Failure(MissingSeat(game.id))
  }

  /** When the user holds exactly one seat, a game adds the user's own score
      and exactly one of a win, a loss or a draw, as the user's and the
      opponent's scores decide, whichever seat the user holds. */
  lemma GameTallySeatedOnce(game: GamePair, userId: nat)
    requires SeatedOnce(game, userId)
    ensures GameTally(game, userId) == Success(Expected(MyScore(game, userId), OpponentScore(game, userId)))
  {
  }

  /** Adds two partial results; the earlier failure wins. */
  function Combine(x: Result<Tally, Error>, y: Result<Tally, Error>): (r: Result<Tally, Error>)
    ensures r.Success? <==> x.Success? && y.Success?
  {
    if x.Failure? then x else if y.Failure? then y else Success(Add(x.value, y.value))
  }

  /** The fold over the found games, left to right; the first game with a
      missing seat aborts it. */
  function StatsFold(games: seq<GamePair>, userId: nat): Result<Tally, Error> {
    if |games| == 0 then Success(Zero)
    else Combine(StatsFold(games[..|games| - 1], userId), GameTally(games[|games| - 1], userId))
  }

  /** The number of games the user holds one seat of and whose result from
      the user's side is `o`. */
  function CountOutcome(games: seq<GamePair>, userId: nat, o: GameOutcome): nat {
    if |games| == 0 then 0
    else
      var g := games[|games| - 1];
      CountOutcome(games[..|games| - 1], userId, o)
        + if SeatedOnce(g, userId) && Outcome(MyScore(g, userId), OpponentScore(g, userId)) == o then 1 else 0
  }

  /** The sum over the games of the score of the seat the user holds. */
  function SumMyScores(games: seq<GamePair>, userId: nat): int
    requires forall i :: 0 <= i < |games| ==> SeatedOnce(games[i], userId)
  {
    if |games| == 0 then 0
    else SumMyScores(games[..|games| - 1], userId) + MyScore(games[|games| - 1], userId)
  }

  /** The fold succeeds exactly when every game has both seats. */
  lemma {:induction false} StatsFoldSucceeds(games: seq<GamePair>, userId: nat)
    ensures StatsFold(games, userId).Success? <==> forall i :: 0 <= i < |games| ==> BothSeated(games[i])
  {
    if |games| > 0 {
      var prefix := games[..|games| - 1];
      StatsFoldSucceeds(prefix, userId);
      assert forall i :: 0 <= i < |prefix| ==> prefix[i] == games[i];
    }
  }

  /** When the user holds exactly one seat of every game, the totals are the
      sum of the user's own scores and the number of games won, lost and
      drawn from the user's side. */
  lemma {:induction false} StatsFoldMatchesOutcomes(games: seq<GamePair>, userId: nat)
    requires forall i :: 0 <= i < |games| ==> SeatedOnce(games[i], userId)
    ensures StatsFold(games, userId).Success?
    ensures StatsFold(games, userId).value
      == Tally(SumMyScores(games, userId),
               CountOutcome(games, userId, Win),
               CountOutcome(games, userId, Loss),
               CountOutcome(games, userId, Draw))
  {
    if |games| > 0 {
      var prefix := games[..|games| - 1];
      assert forall i :: 0 <= i < |prefix| ==> prefix[i] == games[i];
      StatsFoldMatchesOutcomes(prefix, userId);
    }
  }

  /** Every game the user holds one seat of has exactly one result. */
  lemma {:induction false} OutcomesPartitionGames(games: seq<GamePair>, userId: nat)
    requires forall i :: 0 <= i < |games| ==> SeatedOnce(games[i], userId)
    ensures CountOutcome(games, userId, Win) + CountOutcome(games, userId, Loss) + CountOutcome(games, userId, Draw) == |games|
  {
    if |games| > 0 {
      var prefix := games[..|games| - 1];
      assert forall i :: 0 <= i < |prefix| ==> prefix[i] == games[i];
      OutcomesPartitionGames(prefix, userId);
    }
  }

  /** The fold over a concatenation is the sum of the folds over the parts,
      so splitting the found games into batches does not change the totals. */
  lemma {:induction false} StatsFoldAppend(a: seq<GamePair>, b: seq<GamePair>, userId: nat)
    ensures StatsFold(a + b, userId) == Combine(StatsFold(a, userId), StatsFold(b, userId))
  {
    if |b| == 0 {
      assert a + b == a;
      if StatsFold(a, userId).Success? {
        AddZero(StatsFold(a, userId).value);
      }
    } else {
      var b' := b[..|b| - 1];
      var last := b[|b| - 1];
      assert (a + b)[..|a + b| - 1] == a + b';
      assert (a + b)[|a + b| - 1] == last;
      StatsFoldAppend(a, b', userId);
      CombineAssoc(StatsFold(a, userId), StatsFold(b', userId), GameTally(last, userId));
    }
  }

  lemma AddZero(x: Tally)
    ensures Add(x, Zero) == x
  {
  }

  lemma CombineAssoc(x: Result<Tally, Error>, y: Result<Tally, Error>, z: Result<Tally, Error>)
    ensures Combine(Combine(x, y), z) == Combine(x, Combine(y, z))
  {
  }

  /** The game with its two seats exchanged. */
  function SwapSeats(game: GamePair): GamePair {
    game.(firstPlayerProgress := game.secondPlayerProgress, secondPlayerProgress := game.firstPlayerProgress)
  }

  function SwapAll(games: seq<GamePair>): seq<GamePair> {
    MapSeq(SwapSeats, games)
  }

  /** The totals do not depend on which seat the user held in each game. */
  lemma {:induction false} StatsFoldSeatIndependent(games: seq<GamePair>, userId: nat)
    requires forall i :: 0 <= i < |games| ==> SeatedOnce(games[i], userId)
    ensures StatsFold(SwapAll(games), userId) == StatsFold(games, userId)
  {
    if |games| > 0 {
      var prefix := games[..|games| - 1];
      assert forall i :: 0 <= i < |prefix| ==> prefix[i] == games[i];
      assert SwapAll(games)[..|games| - 1] == SwapAll(prefix);
      StatsFoldSeatIndependent(prefix, userId);
    }
  }

  /** The opponent's score never enters the user's score total: lowering or
      raising it changes at most the win/loss/draw split. */
  lemma OpponentScoreNotSummed(game: GamePair, userId: nat, newScore: int)
    requires SeatedOnce(game, userId)
    ensures var other := if game.firstPlayerProgress.value.UserId() == userId
                         then game.(secondPlayerProgress := Some(game.secondPlayerProgress.value.(score := newScore)))
                         else game.(firstPlayerProgress := Some(game.firstPlayerProgress.value.(score := newScore)));
            GameTally(other, userId).value.sumScore == GameTally(game, userId).value.sumScore
  {
  }

  /** A game in which the user holds both seats with unequal scores is
      counted as a win and as a loss at once, so the three counts no
      longer add up to the number of games. */
  lemma SelfGameCountedTwice(game: GamePair, userId: nat)
    requires BothSeated(game)
    requires game.firstPlayerProgress.value.UserId() == userId && game.secondPlayerProgress.value.UserId() == userId
    requires game.firstPlayerProgress.value.score != game.secondPlayerProgress.value.score
    ensures GameTally(game, userId) == Success(Tally(game.firstPlayerProgress.value.score, 1, 1, 0))
  {
  }

  /** `getMyStatistics`: the fold written as the original loop, with the
      accumulators updated by the same chain of conditions. */
  method GetMyStatistics(games: seq<GamePair>, user: User) returns (r: Result<MyStatistics, Error>)
    ensures r.Success? <==> forall i :: 0 <= i < |games| ==> BothSeated(games[i])
    ensures r.Failure? ==> exists i :: 0 <= i < |games| && !BothSeated(games[i]) && r.error == MissingSeat(games[i].id)
    ensures r.Success? ==> r.value.gamesCount == |games| && r.value.userId == user.id && r.value.userLogin == user.login
    ensures r.Success? ==> StatsFold(games, user.id) == Success(Tally(r.value.sumScore, r.value.winsCount, r.value.lossesCount, r.value.drawsCount))
    ensures (forall i :: 0 <= i < |games| ==> SeatedOnce(games[i], user.id)) ==>
              && r.Success?
              && r.value.sumScore == SumMyScores(games, user.id)
              && r.value.winsCount == CountOutcome(games, user.id, Win)
              && r.value.lossesCount == CountOutcome(games, user.id, Loss)
              && r.value.drawsCount == CountOutcome(games, user.id, Draw)
              && r.value.winsCount + r.value.lossesCount + r.value.drawsCount == r.value.gamesCount
  {
    var sumScore := 0;
    var wins := 0;
    var losses := 0;
    var draws := 0;
    var i := 0;
    while i < |games|
      invariant 0 <= i <= |games|
      invariant forall j :: 0 <= j < i ==> BothSeated(games[j])
      invariant StatsFold(games[..i], user.id) == Success(Tally(sumScore, wins, losses, draws))
    {
      var game := games[i];
      if !BothSeated(game) {
        StatsFoldSucceeds(games, user.id);
        return Failure(MissingSeat(game.id));
      }
      var first := game.firstPlayerProgress.value;
      var second := game.secondPlayerProgress.value;
      ghost var before := Tally(sumScore, wins, losses, draws);
      if first.UserId() == user.id {
        sumScore := sumScore + first.score;
      } else if second.UserId() == user.id {
        sumScore := sumScore + second.score;
      }
      if first.score == second.score {
        draws := draws + 1;
      }
      if first.UserId() == user.id && first.score > second.score {
        wins := wins + 1;
      } else if first.UserId() == user.id && first.score < second.score {
        losses := losses + 1;
      }
      if second.UserId() == user.id && second.score > first.score {
        wins := wins + 1;
      } else if second.UserId() == user.id && second.score < first.score {
        losses := losses + 1;
      }
      assert Tally(sumScore, wins, losses, draws) == Add(before, SeatsTally(first, second, user.id));
      assert games[..i + 1][..i] == games[..i];
      assert StatsFold(games[..i + 1], user.id) == Combine(StatsFold(games[..i], user.id), GameTally(game, user.id));
      i := i + 1;
    }
    assert games[..i] == games;
    r := Success(MyStatistics(sumScore, |games|, wins, losses, draws, user.id, user.login));
    if forall j :: 0 <= j < |games| ==> SeatedOnce(games[j], user.id) {
      StatsFoldMatchesOutcomes(games, user.id);
      OutcomesPartitionGames(games, user.id);
    }
  }
}
