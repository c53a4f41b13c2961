/**
 * Player profiles of collections.ts: the record, the defaults `createOrUpdatePlayer`
 * writes, the derived statistics of `updatePlayerStats`, and the unlock rule of
 * `checkAndUnlockAchievements`. The store operations themselves are methods of
 * `Collections.Store`; this module holds what they compute.
 */
module Players {
  import opened Wrappers
  import opened FieldTransforms
  import Progression

  datatype Theme = Light | Dark | Auto

  datatype Preferences = Preferences(theme: Theme, soundEnabled: bool, notificationsEnabled: bool, language: string)

  datatype PlayStats = PlayStats(fastestCompletion: int, mostAccurateGame: int, favoriteGameType: string)

  /** A `players/{uid}` document. Absent optional strings are "". */
  datatype PlayerData = PlayerData(
    uid: string,
    displayName: string,
    email: string,
    photoURL: string,
    isAnonymous: bool,
    loginCount: int,
    totalGamesPlayed: int,
    totalScore: int,
    bestScore: int,
    averageScore: int,
    gamesWon: int,
    winRate: int,
    totalPlayTime: int,
    currentStreak: int,
    bestStreak: int,
    level: int,
    experience: int,
    achievements: seq<string>,
    preferences: Preferences,
    stats: PlayStats,
    activeRooms: seq<string>)

  /** The signed-in user as the identity provider reports it; absent strings are "". */
  datatype User = User(uid: string, displayName: string, email: string, photoURL: string, isAnonymous: bool)

  /** The profile `createOrUpdatePlayer` creates on a first sign-in. */
  function NewPlayer(user: User): (p: PlayerData)
    ensures p.uid == user.uid && p.loginCount == 1
    ensures p.displayName == if user.displayName == "" then "Guest Player" else user.displayName
    ensures p.totalGamesPlayed == 0 && p.totalScore == 0 && p.gamesWon == 0
    ensures p.level == 1 && p.experience == 0 && p.achievements == []
  {
    PlayerData(
      user.uid, OrElse(user.displayName, "Guest Player"), user.email, user.photoURL, user.isAnonymous,
      1, 0, 0, 0, 0, 0, 0, 0, 0, 0, 1, 0, [],
      Preferences(Auto, true, true, "en"),
      PlayStats(0, 0, ""),
      [])
  }

  /** The fields `createOrUpdatePlayer` rewrites on a later sign-in; every statistic is kept. */
  function SignedInAgain(p: PlayerData, user: User): (q: PlayerData)
    ensures q.loginCount == p.loginCount + 1
    ensures q.displayName == (if user.displayName != "" then user.displayName else p.displayName)
    ensures q.email == (if user.email != "" then user.email else p.email)
    ensures q.photoURL == (if user.photoURL != "" then user.photoURL else p.photoURL)
    ensures q.isAnonymous == user.isAnonymous
    ensures q.(loginCount := p.loginCount, displayName := p.displayName, email := p.email,
               photoURL := p.photoURL, isAnonymous := p.isAnonymous) == p
  {
    p.(loginCount := p.loginCount + 1,
       displayName := OrElse(user.displayName, p.displayName),
       email := OrElse(user.email, p.email),
       photoURL := OrElse(user.photoURL, OrElse(p.photoURL, "")),
       isAnonymous := user.isAnonymous)
  }

  /** `Math.round(a / b)` for `b > 0`: the nearest integer, halves rounded up. */
  function RoundDiv(a: int, b: int): (r: int)
    requires b > 0
    ensures (2 * r - 1) * b <= 2 * a < (2 * r + 1) * b
  {
    (2 * a + b) / (2 * b)
  }

  /** `averageScore`: the rounded mean score, 0 before any game. */
  function AverageScore(totalScore: int, totalGamesPlayed: int): (r: int)
    ensures totalGamesPlayed <= 0 ==> r == 0
    ensures totalGamesPlayed > 0 ==>
      (2 * r - 1) * totalGamesPlayed <= 2 * totalScore < (2 * r + 1) * totalGamesPlayed
  {
    if totalGamesPlayed > 0 then RoundDiv(totalScore, totalGamesPlayed) else 0
  }

  /** `winRate`: the rounded percentage of games won, 0 before any game. */
  function WinRate(gamesWon: int, totalGamesPlayed: int): (r: int)
    ensures totalGamesPlayed <= 0 ==> r == 0
    ensures totalGamesPlayed > 0 ==>
      (2 * r - 1) * totalGamesPlayed <= 200 * gamesWon < (2 * r + 1) * totalGamesPlayed
  {
    if totalGamesPlayed > 0 then RoundDiv(gamesWon * 100, totalGamesPlayed) else 0
  }

  lemma WinRateIsPercentage(gamesWon: int, totalGamesPlayed: int)
    requires 0 <= gamesWon <= totalGamesPlayed
    ensures 0 <= WinRate(gamesWon, totalGamesPlayed) <= 100
    ensures gamesWon == totalGamesPlayed > 0 ==> WinRate(gamesWon, totalGamesPlayed) == 100
  {
    if totalGamesPlayed > 0 {
      var r, t := WinRate(gamesWon, totalGamesPlayed), totalGamesPlayed;
      assert t * (2 * r - 1) <= 200 * gamesWon <= 200 * t;
      Progression.CancelFactor(t, 2 * r - 1, 201);
      Progression.CancelFactor(t, 0, 2 * r + 1);
      if gamesWon == t {
        Progression.CancelFactor(t, 200, 2 * r + 1);
      }
    }
  }

  /** The fields a caller of `updatePlayerStats` may supply; `None` is an absent field. */
  datatype StatsUpdate = StatsUpdate(
    totalGamesPlayed: Option<int>,
    totalScore: Option<int>,
    bestScore: Option<int>,
    gamesWon: Option<int>,
    totalPlayTime: Option<int>,
    currentStreak: Option<int>,
    bestStreak: Option<int>,
    experience: Option<int>,
    level: Option<int>,
    achievements: Option<seq<string>>)

  /** The supplied value of a field, or its current value when the field is absent. */
  function Supplied<T>(o: Option<T>, current: T): T {
    if o.Some? then o.value else current
  }

  /**
   * The profile after `updatePlayerStats`: supplied fields are copied, `averageScore`
   * is recomputed only when games and score are both supplied, `winRate` only when
   * games and wins are both supplied.
   */
  function ApplyStats(p: PlayerData, s: StatsUpdate): (q: PlayerData)
    ensures q.totalGamesPlayed == Supplied(s.totalGamesPlayed, p.totalGamesPlayed)
    ensures q.totalScore == Supplied(s.totalScore, p.totalScore)
    ensures q.bestScore == Supplied(s.bestScore, p.bestScore)
    ensures q.gamesWon == Supplied(s.gamesWon, p.gamesWon)
    ensures q.totalPlayTime == Supplied(s.totalPlayTime, p.totalPlayTime)
    ensures q.currentStreak == Supplied(s.currentStreak, p.currentStreak)
    ensures q.bestStreak == Supplied(s.bestStreak, p.bestStreak)
    ensures q.experience == Supplied(s.experience, p.experience)
    ensures q.level == Supplied(s.level, p.level)
    ensures q.achievements == Supplied(s.achievements, p.achievements)
    ensures s.totalGamesPlayed.Some? && s.totalScore.Some? ==>
              q.averageScore == AverageScore(q.totalScore, q.totalGamesPlayed)
    ensures s.totalGamesPlayed.None? || s.totalScore.None? ==> q.averageScore == p.averageScore
    ensures s.totalGamesPlayed.Some? && s.gamesWon.Some? ==>
              q.winRate == WinRate(q.gamesWon, q.totalGamesPlayed)
    ensures s.totalGamesPlayed.None? || s.gamesWon.None? ==> q.winRate == p.winRate
    ensures q.(totalGamesPlayed := p.totalGamesPlayed, totalScore := p.totalScore, bestScore := p.bestScore,
               averageScore := p.averageScore, gamesWon := p.gamesWon, winRate := p.winRate,
               totalPlayTime := p.totalPlayTime, currentStreak := p.currentStreak, bestStreak := p.bestStreak,
               experience := p.experience, level := p.level, achievements := p.achievements) == p
  {
    var averageScore :=
      if s.totalGamesPlayed.Some? && s.totalScore.Some?
      then AverageScore(s.totalScore.value, s.totalGamesPlayed.value) else p.averageScore;
    var winRate :=
      if s.totalGamesPlayed.Some? && s.gamesWon.Some?
      then WinRate(s.gamesWon.value, s.totalGamesPlayed.value) else p.winRate;
    p.(totalGamesPlayed := Supplied(s.totalGamesPlayed, p.totalGamesPlayed),
       totalScore := Supplied(s.totalScore, p.totalScore),
       bestScore := Supplied(s.bestScore, p.bestScore),
       averageScore := averageScore,
       gamesWon := Supplied(s.gamesWon, p.gamesWon),
       winRate := winRate,
       totalPlayTime := Supplied(s.totalPlayTime, p.totalPlayTime),
       currentStreak := Supplied(s.currentStreak, p.currentStreak),
       bestStreak := Supplied(s.bestStreak, p.bestStreak),
       experience := Supplied(s.experience, p.experience),
       level := Supplied(s.level, p.level),
       achievements := Supplied(s.achievements, p.achievements))
  }

  /** Writing the same statistics twice leaves the profile as writing them once. */
  lemma ApplyStatsIdempotent(p: PlayerData, s: StatsUpdate)
    ensures ApplyStats(ApplyStats(p, s), s) == ApplyStats(p, s)
  {
  }

  /**
   * What a consistent profile satisfies: derived statistics agree with their inputs,
   * streaks and wins are bounded by games, and the stored level is never above the
   * level the experience earns.
   */
  predicate ProfileSane(p: PlayerData) {
    && 0 <= p.gamesWon <= p.totalGamesPlayed
    && 0 <= p.currentStreak <= p.bestStreak
    && p.currentStreak <= p.gamesWon
    && 0 <= p.bestScore <= p.totalScore
    && p.averageScore == AverageScore(p.totalScore, p.totalGamesPlayed)
    && p.winRate == WinRate(p.gamesWon, p.totalGamesPlayed)
    && 0 <= p.experience
    && 1 <= p.level <= Progression.Level(p.experience)
    && 0 <= p.totalPlayTime
    && NoDuplicates(p.achievements)
  }

  lemma NewPlayerIsSane(user: User)
    ensures ProfileSane(NewPlayer(user))
  {
    assert Progression.Level(0) == 1 by {
      assert Progression.Threshold(2) >= 1;
      Progression.LevelUnique(0, 1);
    }
  }

  // ---------------------------------------------------------------------------
  // Achievements
  // ---------------------------------------------------------------------------

  datatype RequirementType = TotalScoreReq | GamesPlayedReq | WinRateReq | CurrentStreakReq | OtherType(name: string)

  datatype Condition = GreaterThan | EqualTo | LessThan | OtherCondition(name: string)

  /** An `achievements` document. */
  datatype Achievement = Achievement(
    id: string,
    name: string,
    requirementType: RequirementType,
    requirementValue: int,
    condition: Condition,
    rewardExperience: int)

  /** The profile statistic a requirement type reads; none for an unknown type. */
  function PlayerValue(p: PlayerData, t: RequirementType): (v: Option<int>)
    ensures v.None? <==> t.OtherType?
  {
    match t
    case TotalScoreReq => Some(p.totalScore)
    case GamesPlayedReq => Some(p.totalGamesPlayed)
    case WinRateReq => Some(p.winRate)
    case CurrentStreakReq => Some(p.currentStreak)
    case OtherType(_) => None
  }

  /** Whether `value` meets the target; an unknown condition is never met. */
  predicate Meets(value: int, c: Condition, target: int)
    ensures c.OtherCondition? ==> !Meets(value, c, target)
  {
    match c
    case GreaterThan => value > target
    case EqualTo => value == target
    case LessThan => value < target
    case OtherCondition(_) => false
  }

  /** An achievement unlocks when the player lacks it, its type is known and its condition holds. */
  predicate Unlocks(p: PlayerData, a: Achievement)
    ensures Unlocks(p, a) ==> a.id !in p.achievements && !a.requirementType.OtherType? && !a.condition.OtherCondition?
  {
    && a.id !in p.achievements
    && PlayerValue(p, a.requirementType).Some?
    && Meets(PlayerValue(p, a.requirementType).value, a.condition, a.requirementValue)
  }

  /** The achievements of `defs` that unlock for `p`, in catalogue order. */
  function Unlocked(p: PlayerData, defs: seq<Achievement>): (us: seq<Achievement>)
    ensures |us| <= |defs|
    ensures forall i :: 0 <= i < |us| ==> Unlocks(p, us[i])
  {
    if defs == [] then []
    else Unlocked(p, defs[..|defs| - 1]) + (if Unlocks(p, defs[|defs| - 1]) then [defs[|defs| - 1]] else [])
  }

  lemma {:induction false} UnlockedExactly(p: PlayerData, defs: seq<Achievement>)
    ensures forall a :: a in Unlocked(p, defs) <==> a in defs && Unlocks(p, a)
    ensures forall a :: a in Unlocked(p, defs) ==> a.id !in p.achievements
    ensures |Unlocked(p, defs)| <= |defs|
  {
    if defs != [] {
      var init := defs[..|defs| - 1];
      UnlockedExactly(p, init);
      assert defs == init + [defs[|defs| - 1]];
    }
  }

  function Names(defs: seq<Achievement>): (names: seq<string>)
    ensures |names| == |defs| && forall i :: 0 <= i < |defs| ==> names[i] == defs[i].name
  {
    if defs == [] then [] else Names(defs[..|defs| - 1]) + [defs[|defs| - 1].name]
  }

  function Rewards(defs: seq<Achievement>): int {
    if defs == [] then 0 else Rewards(defs[..|defs| - 1]) + defs[|defs| - 1].rewardExperience
  }

  /** One batched update: `arrayUnion(id)` on achievements, `increment(reward)` on experience. */
  function GrantAll(p: PlayerData, us: seq<Achievement>): (q: PlayerData)
    ensures q.experience == p.experience + Rewards(us)
    ensures forall x :: x in q.achievements <==> x in p.achievements || exists a :: a in us && a.id == x
    ensures q.(achievements := p.achievements, experience := p.experience) == p
  {
    if us == [] then p
    else
      var q := GrantAll(p, us[..|us| - 1]);
      var a := us[|us| - 1];
      assert forall b :: b in us <==> b in us[..|us| - 1] || b == a;
      q.(achievements := ArrayUnion(q.achievements, a.id), experience := q.experience + a.rewardExperience)
  }

  lemma {:induction false} GrantAllKeepsNoDuplicates(p: PlayerData, us: seq<Achievement>)
    requires NoDuplicates(p.achievements)
    ensures NoDuplicates(GrantAll(p, us).achievements)
  {
    if us != [] {
      GrantAllKeepsNoDuplicates(p, us[..|us| - 1]);
      ArrayUnionKeepsNoDuplicates(GrantAll(p, us[..|us| - 1]).achievements, us[|us| - 1].id);
    }
  }

  /** The profile `checkAndUnlockAchievements` leaves: the batch is committed only if some unlock. */
  function AfterUnlock(p: PlayerData, defs: seq<Achievement>): (q: PlayerData)
    ensures q.experience == p.experience + Rewards(Unlocked(p, defs))
    ensures q.(achievements := p.achievements, experience := p.experience) == p
  {
    var us := Unlocked(p, defs);
    if us == [] then p else GrantAll(p, us)
  }

  /** After the check a player holds what they held plus the id of every achievement that unlocked. */
  lemma AfterUnlockAchievements(p: PlayerData, defs: seq<Achievement>, x: string)
    ensures x in AfterUnlock(p, defs).achievements <==>
      x in p.achievements || exists a :: a in defs && Unlocks(p, a) && a.id == x
  {
    UnlockedExactly(p, defs);
  }

  predicate RewardsNonNegative(defs: seq<Achievement>) {
    forall i :: 0 <= i < |defs| ==> defs[i].rewardExperience >= 0
  }

  lemma {:induction false} RewardsNonNegativeSum(defs: seq<Achievement>)
    requires RewardsNonNegative(defs)
    ensures Rewards(defs) >= 0
  {
    if defs != [] {
      RewardsNonNegativeSum(defs[..|defs| - 1]);
    }
  }

  lemma {:induction false} UnlockedRewardsNonNegative(p: PlayerData, defs: seq<Achievement>)
    requires RewardsNonNegative(defs)
    ensures RewardsNonNegative(Unlocked(p, defs))
  {
    if defs != [] {
      UnlockedRewardsNonNegative(p, defs[..|defs| - 1]);
    }
  }

  /**
   * Unlocking keeps a profile consistent when rewards are not negative; in particular
   * the stored level, which unlocking does not recompute, stays at or below the level
   * the increased experience earns.
   */
  lemma UnlockKeepsSane(p: PlayerData, defs: seq<Achievement>)
    requires ProfileSane(p) && RewardsNonNegative(defs)
    ensures ProfileSane(AfterUnlock(p, defs))
  {
    var us := Unlocked(p, defs);
    if us != [] {
      var q := GrantAll(p, us);
      UnlockedRewardsNonNegative(p, defs);
      RewardsNonNegativeSum(us);
      GrantAllKeepsNoDuplicates(p, us);
      Progression.LevelMonotone(p.experience, q.experience);
      assert q.(achievements := p.achievements, experience := p.experience) == p;
      assert ProfileSane(q);
    }
  }
}
