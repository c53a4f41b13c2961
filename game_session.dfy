/**
 * One player's run through a game (game-session.ts): the answers recorded, the score
 * formula of `calculateScore`, and the profile update `endGame` writes through the
 * collections store.
 */
module GameSessions {
  import opened Wrappers
  import opened Challenges
  import opened Players
  import opened Progression
  import opened Collections

  datatype SessionData = SessionData(roomId: string, gameType: string, difficulty: Difficulty, totalPuzzles: int)

  datatype Answer = Answer(puzzleId: string, answer: string, isCorrect: bool, timeSpent: int)

  /** What `endGame` resolves with; `newLevel` is present only on a level-up. */
  datatype EndResult = EndResult(
    gameId: string,
    finalScore: int,
    experience: int,
    achievements: seq<string>,
    levelUp: bool,
    newLevel: Option<int>)

  datatype GameError = GameNotStarted | NoPlayerData

  function GameErrorMessage(e: GameError): string {
    match e
    case GameNotStarted => "Game not started"
    case NoPlayerData => "Player data not found"
  }

  /** `answers.filter(a => a.isCorrect).length`. */
  function CorrectCount(answers: seq<Answer>): (n: nat)
    ensures n <= |answers|
    ensures n == |answers| <==> forall i :: 0 <= i < |answers| ==> answers[i].isCorrect
    ensures n == 0 <==> forall i :: 0 <= i < |answers| ==> !answers[i].isCorrect
  {
    if answers == [] then 0
    else CorrectCount(answers[..|answers| - 1]) + (if answers[|answers| - 1].isCorrect then 1 else 0)
  }

  /** The percentage of answers that are correct, 0 when none were recorded. */
  function Accuracy(correct: nat, completed: nat): (a: real)
    ensures completed == 0 ==> a == 0.0
    ensures completed > 0 ==> a * (completed as real) == (correct * 100) as real
    ensures correct <= completed ==> 0.0 <= a <= 100.0
  {
    if completed > 0 then (correct as real) / (completed as real) * 100.0 else 0.0
  }

  /** Whole seconds between two millisecond clock readings, floored. */
  function TimeSpent(startTime: int, endTime: int): (t: int)
    ensures 1000 * t <= endTime - startTime < 1000 * (t + 1)
  {
    (endTime - startTime) / 1000
  }

  /**
   * The speed bonus for `timeSpent / totalPuzzles`. With no puzzles the quotient is
   * NaN or plus infinity (no bonus) unless the clock went backwards (minus infinity).
   */
  function SpeedBonus(timeSpent: int, totalPuzzles: nat): (b: int)
    ensures totalPuzzles > 0 ==>
      var average := (timeSpent as real) / (totalPuzzles as real);
      && (b == 25 <==> average < 30.0)
      && (b == 15 <==> 30.0 <= average < 60.0)
      && (b == 0 <==> 60.0 <= average)
    ensures totalPuzzles == 0 ==> b == if timeSpent < 0 then 25 else 0
  {
    if totalPuzzles == 0 then (if timeSpent < 0 then 25 else 0)
    else
      AverageBelow(timeSpent, totalPuzzles, 30);
      AverageBelow(timeSpent, totalPuzzles, 60);
      if timeSpent < 30 * totalPuzzles then 25
      else if timeSpent < 60 * totalPuzzles then 15
      else 0
  }

  lemma AverageBelow(timeSpent: int, n: nat, limit: int)
    requires n > 0
    ensures (timeSpent as real) / (n as real) < limit as real <==> timeSpent < limit * n
  {
    var average := (timeSpent as real) / (n as real);
    assert average * (n as real) == timeSpent as real;
    assert (limit * n) as real == (limit as real) * (n as real);
  }

  /** The difficulty multiplier, `Math.floor(score * 1.0 / 1.2 / 1.5)`, over exact rationals. */
  function ApplyDifficulty(score: int, d: Difficulty): (r: int)
    ensures d == Easy ==> r == score
    ensures d == Medium ==> r as real <= (score as real) * 1.2 < (r + 1) as real
    ensures d == Hard ==> r as real <= (score as real) * 1.5 < (r + 1) as real
  {
    match d
    case Easy => score
    case Medium => score * 12 / 10
    case Hard => score * 15 / 10
  }

  lemma ApplyDifficultyMonotone(a: int, b: int, d: Difficulty)
    requires a <= b
    ensures ApplyDifficulty(a, d) <= ApplyDifficulty(b, d)
  {
    DivMonotone(a * 12, b * 12, 10);
    DivMonotone(a * 15, b * 15, 10);
  }

  /** The points before the multiplier: 10 per correct answer, the all-correct bonus, the speed bonus. */
  function RawScore(correctAnswers: int, timeSpent: int, totalPuzzles: nat): (r: int)
    ensures correctAnswers * 10 <= r <= correctAnswers * 10 + 75
    ensures correctAnswers == totalPuzzles ==> r >= correctAnswers * 10 + 50
    ensures correctAnswers != totalPuzzles ==> r <= correctAnswers * 10 + 25
  {
    correctAnswers * 10 + (if correctAnswers == totalPuzzles then 50 else 0) + SpeedBonus(timeSpent, totalPuzzles)
  }

  /** `calculateScore`, with the answer count passed as the puzzle total as `endGame` does. */
  function Score(correctAnswers: int, timeSpent: int, totalPuzzles: nat, d: Difficulty): (s: int)
    ensures s >= 0
    ensures s >= ApplyDifficulty(RawScore(correctAnswers, timeSpent, totalPuzzles), d)
  {
    var scaled := ApplyDifficulty(RawScore(correctAnswers, timeSpent, totalPuzzles), d);
    if scaled < 0 then 0 else scaled
  }

  /** More correct answers never lower the score. */
  lemma ScoreMonotone(c1: nat, c2: nat, timeSpent: int, totalPuzzles: nat, d: Difficulty)
    requires c1 <= c2 <= totalPuzzles
    ensures Score(c1, timeSpent, totalPuzzles, d) <= Score(c2, timeSpent, totalPuzzles, d)
  {
    ApplyDifficultyMonotone(RawScore(c1, timeSpent, totalPuzzles), RawScore(c2, timeSpent, totalPuzzles), d);
  }

  /** For the same answers, a harder session never scores less. */
  lemma HarderScoresMore(correctAnswers: nat, timeSpent: int, totalPuzzles: nat)
    ensures Score(correctAnswers, timeSpent, totalPuzzles, Easy) <= Score(correctAnswers, timeSpent, totalPuzzles, Medium)
    ensures Score(correctAnswers, timeSpent, totalPuzzles, Medium) <= Score(correctAnswers, timeSpent, totalPuzzles, Hard)
  {
    var raw := RawScore(correctAnswers, timeSpent, totalPuzzles);
    assert raw >= 0;
    DivMonotone(raw * 10, raw * 12, 10);
    DivMonotone(raw * 12, raw * 15, 10);
  }

  /** The score never exceeds that of an all-correct, fast, hard game. */
  lemma ScoreBound(correctAnswers: nat, timeSpent: int, totalPuzzles: nat, d: Difficulty)
    requires correctAnswers <= totalPuzzles
    ensures Score(correctAnswers, timeSpent, totalPuzzles, d) <= (totalPuzzles * 10 + 75) * 15 / 10
  {
    var raw := RawScore(correctAnswers, timeSpent, totalPuzzles);
    ApplyDifficultyMonotone(raw, totalPuzzles * 10 + 75, d);
    HarderScoresMore(totalPuzzles, -1, totalPuzzles);
    assert RawScore(totalPuzzles, -1, totalPuzzles) == totalPuzzles * 10 + 75;
    DivMonotone(raw * 10, (totalPuzzles * 10 + 75) * 10, 10);
    DivMonotone((totalPuzzles * 10 + 75) * 12, (totalPuzzles * 10 + 75) * 15, 10);
  }

  /** A game ended with no answers counts as all correct: 0 == 0 earns the 50-point bonus. */
  lemma ZeroAnswerGameTakesBonus(timeSpent: int)
    requires timeSpent >= 0
    ensures Score(0, timeSpent, 0, Easy) == 50
    ensures Score(0, timeSpent, 0, Medium) == 60
    ensures Score(0, timeSpent, 0, Hard) == 75
  {
  }

  /** A game is won at 80% accuracy or more. */
  predicate IsWin(accuracy: real) {
    accuracy >= 80.0
  }

  lemma ScaleCompare(a: real, b: real, n: real)
    requires n > 0.0
    ensures a >= b <==> a * n >= b * n
  {
    if a >= b {
      assert (a - b) * n >= 0.0;
    } else {
      assert (b - a) * n > 0.0;
    }
  }

  /** Over answer counts, a win is at least four correct answers in five; no answers is no win. */
  lemma WinAtFourFifths(correct: nat, completed: nat)
    ensures completed == 0 ==> !IsWin(Accuracy(correct, completed))
    ensures completed > 0 ==> (IsWin(Accuracy(correct, completed)) <==> 5 * correct >= 4 * completed)
  {
    if completed > 0 {
      var a, n := Accuracy(correct, completed), completed as real;
      ScaleCompare(a, 80.0, n);
      assert a * n == (correct * 100) as real;
      assert 80.0 * n == (80 * completed) as real;
    }
  }

  /** The statistics `endGame` passes to `updatePlayerStats`. */
  function GameStats(p: PlayerData, score: int, timeSpent: int, accuracy: real, experience: int): (s: StatsUpdate)
    ensures s.achievements.None?
    ensures s.totalGamesPlayed.Some? && s.totalScore.Some? && s.gamesWon.Some? && s.bestScore.Some?
    ensures s.totalPlayTime.Some? && s.currentStreak.Some? && s.bestStreak.Some?
    ensures s.experience.Some? && s.level.Some?
    ensures s.bestScore.value >= p.bestScore && s.bestScore.value >= score
    ensures s.bestScore.value == p.bestScore || s.bestScore.value == score
    ensures s.bestStreak.value >= p.bestStreak && s.bestStreak.value >= s.currentStreak.value
    ensures s.level.value == Level(s.experience.value)
  {
    var newStreak := if IsWin(accuracy) then p.currentStreak + 1 else 0;
    StatsUpdate(
      totalGamesPlayed := Some(p.totalGamesPlayed + 1),
      totalScore := Some(p.totalScore + score),
      bestScore := Some(if score > p.bestScore then score else p.bestScore),
      gamesWon := Some(if IsWin(accuracy) then p.gamesWon + 1 else p.gamesWon),
      totalPlayTime := Some(p.totalPlayTime + timeSpent / 60),
      currentStreak := Some(newStreak),
      bestStreak := Some(if newStreak > p.bestStreak then newStreak else p.bestStreak),
      experience := Some(p.experience + experience),
      level := Some(Level(p.experience + experience)),
      achievements := None)
  }

  /** The profile after a finished game, field by field. */
  lemma GameStatsEffect(p: PlayerData, score: int, timeSpent: int, accuracy: real, experience: int)
    ensures var q := ApplyStats(p, GameStats(p, score, timeSpent, accuracy, experience));
      && q.totalGamesPlayed == p.totalGamesPlayed + 1
      && q.totalScore == p.totalScore + score
      && q.bestScore >= p.bestScore && q.bestScore >= score && (q.bestScore == p.bestScore || q.bestScore == score)
      && q.totalPlayTime == p.totalPlayTime + timeSpent / 60
      && (IsWin(accuracy) ==> q.gamesWon == p.gamesWon + 1 && q.currentStreak == p.currentStreak + 1)
      && (!IsWin(accuracy) ==> q.gamesWon == p.gamesWon && q.currentStreak == 0)
      && q.bestStreak >= p.bestStreak && q.bestStreak >= q.currentStreak
      && q.experience == p.experience + experience
      && q.level == Level(q.experience)
      && q.averageScore == AverageScore(q.totalScore, q.totalGamesPlayed)
      && q.winRate == WinRate(q.gamesWon, q.totalGamesPlayed)
      && q.achievements == p.achievements
  {
  }

  /** A finished game keeps a consistent profile consistent, and so does the unlock that follows. */
  lemma EndGameKeepsSane(p: PlayerData, score: int, timeSpent: int, accuracy: real, experience: int, defs: seq<Achievement>)
    requires ProfileSane(p) && score >= 0 && timeSpent >= 0 && experience >= 0 && RewardsNonNegative(defs)
    ensures ProfileSane(ApplyStats(p, GameStats(p, score, timeSpent, accuracy, experience)))
    ensures ProfileSane(AfterUnlock(ApplyStats(p, GameStats(p, score, timeSpent, accuracy, experience)), defs))
  {
    var q := ApplyStats(p, GameStats(p, score, timeSpent, accuracy, experience));
    GameStatsEffect(p, score, timeSpent, accuracy, experience);
    assert 1 <= q.level by {
      LevelMonotone(0, q.experience);
      assert Level(0) >= 1;
    }
    UnlockKeepsSane(q, defs);
  }

  class GameSession {
    var gameId: Option<string>
    var playerId: string
    var playerName: string
    var sessionData: SessionData
    var startTime: int
    var answers: seq<Answer>

    /** A session for `user`, started on the clock reading `now` (milliseconds). */
    constructor(user: User, sessionData: SessionData, now: int)
      ensures gameId == None && answers == []
      ensures playerId == user.uid && this.sessionData == sessionData && startTime == now
      ensures playerName == if user.displayName == "" then "Guest Player" else user.displayName
    {
      gameId := None;
      playerId := user.uid;
      playerName := OrElse(user.displayName, "Guest Player");
      this.sessionData := sessionData;
      startTime := now;
      answers := [];
    }

    /** Whether a game record id is held; the empty string counts as none, as `!this.gameId` does. */
    predicate Started()
      reads this
    {
      gameId.Some? && gameId.value != ""
    }

    /** `startGame`: the id the new game record was stored under is kept. */
    method StartGame(newGameId: string)
      modifies this
      ensures gameId == Some(newGameId)
      ensures answers == old(answers) && playerId == old(playerId) && sessionData == old(sessionData)
      ensures startTime == old(startTime) && playerName == old(playerName)
    {
      gameId := Some(newGameId);
    }

    /** `recordAnswer`: exactly one entry is appended. */
    method RecordAnswer(puzzleId: string, answer: string, isCorrect: bool, timeSpent: int)
      modifies this
      ensures answers == old(answers) + [Answer(puzzleId, answer, isCorrect, timeSpent)]
      ensures gameId == old(gameId) && playerId == old(playerId) && sessionData == old(sessionData)
      ensures startTime == old(startTime) && playerName == old(playerName)
    {
      answers := answers + [Answer(puzzleId, answer, isCorrect, timeSpent)];
    }

    /** `calculateScore`, for this session's difficulty. */
    method CalculateScore(correctAnswers: int, timeSpent: int, totalPuzzles: nat) returns (score: int)
      ensures score == Score(correctAnswers, timeSpent, totalPuzzles, sessionData.difficulty)
    {
      score := correctAnswers * 10;
      if correctAnswers == totalPuzzles {
        score := score + 50;
      }
      if totalPuzzles > 0 {
        if timeSpent < 30 * totalPuzzles {
          score := score + 25;
        } else if timeSpent < 60 * totalPuzzles {
          score := score + 15;
        }
      } else if timeSpent < 0 {
        score := score + 25;
      }
      match sessionData.difficulty {
        case Easy =>
        case Medium => score := score * 12 / 10;
        case Hard => score := score * 15 / 10;
      }
      if score < 0 {
        score := 0;
      }
    }

    /**
     * `endGame` at clock reading `now`: score and experience from the recorded answers,
     * the profile statistics, then the achievement check against `defs`.
     */
    method EndGame(store: Store, now: int, defs: seq<Achievement>) returns (res: Result<EndResult, GameError>)
      requires store.Valid()
      modifies store
      ensures store.Valid()
      ensures store.rooms == old(store.rooms) && store.members == old(store.members)
      ensures !Started() ==> res == Err(GameNotStarted) && store.players == old(store.players)
      ensures Started() && playerId !in old(store.players) ==>
        res == Err(NoPlayerData) && store.players == old(store.players)
      ensures Started() && playerId in old(store.players) ==>
        var timeSpent := TimeSpent(startTime, now);
        var correct := CorrectCount(answers);
        var accuracy := Accuracy(correct, |answers|);
        var score := Score(correct, timeSpent, |answers|, sessionData.difficulty);
        var experience := CalculateExperience(score, timeSpent, accuracy);
        var p := old(store.players)[playerId];
        var q := ApplyStats(p, GameStats(p, score, timeSpent, accuracy, experience));
        var levelUp := q.level > p.level;
        && res == Ok(EndResult(gameId.value, score, experience, Names(Unlocked(q, defs)), levelUp,
                               if levelUp then Some(q.level) else None))
        && store.players == old(store.players)[playerId := AfterUnlock(q, defs)]
    {
      if !Started() {
        return Err(GameNotStarted);
      }
      var timeSpent := (now - startTime) / 1000;
      var puzzlesCompleted := |answers|;
      var correctAnswers := CorrectCount(answers);
      var accuracy := Accuracy(correctAnswers, puzzlesCompleted);
      var score := CalculateScore(correctAnswers, timeSpent, puzzlesCompleted);
      var experience := CalculateExperience(score, timeSpent, accuracy);
      if playerId !in store.players {
        return Err(NoPlayerData);
      }
      var p := store.players[playerId];
      var newLevel := CalculateLevel(p.experience + experience);
      var levelUp := newLevel > p.level;
      var stats := GameStats(p, score, timeSpent, accuracy, experience);
      ghost var q := ApplyStats(p, stats);
      assert q.level == newLevel;
      var _ := store.UpdatePlayerStats(playerId, stats);
      assert store.players[playerId] == q;
      var unlocked := store.CheckAndUnlockAchievements(playerId, defs);
      assert unlocked == Names(Unlocked(q, defs));
      assert store.players == old(store.players)[playerId := AfterUnlock(q, defs)];
      res := Ok(EndResult(gameId.value, score, experience, unlocked, levelUp, if levelUp then Some(newLevel) else None));
    }
  }
}
