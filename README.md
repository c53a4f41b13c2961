# extramileplay-game: a verified model of the room, player and game-session core

extramileplay-game is a multiplayer trivia game backed by Cloud Firestore. A signed-in user
has a profile document under `players/{uid}`. A host creates a room under a random
six-character code (`rooms/{code}`), and other players join it. Each seated player gets a
member document in the room's `players` subcollection. The host starts, ends,
reconfigures or deletes the room; players leave or are kicked. After a game, the
player's statistics, experience and level are updated and achievements are unlocked. A
built-in catalogue of challenges (multiple choice, emoji puzzle, reaction, typing) is
grouped into fixed four-challenge sessions. The seeding code turns those sessions into
`gameTemplates` documents and copies one of them into a room.

This project models that core in Dafny and proves what the code promises about it.

**How the code is modelled:**

- **collections.ts.** Each transaction of `app/lib/firebase/collections.ts` is a method
  of the class `Collections.Store`, whose fields are a map per collection. The values
  each method writes are pure functions:
  - profiles are in `Players`;
  - rooms and member documents are in `Rooms`;
  - `arrayUnion` and `arrayRemove` are in `FieldTransforms`.
- **The room invariant.** `Store.Valid` is the invariant between a room and its member
  subcollection:
  - the counter equals the number of seated ids;
  - the ids are distinct;
  - the member documents are exactly those of the ids;
  - no room is over capacity.

  Every transaction preserves it. A failed guard throws before anything is written, and
  every method states that its error results leave the store unchanged.
- **firestore.ts.** The older room API in `app/lib/firebase/firestore.ts` is the class
  `Firestore.SimpleStore`. The join dialog calls it.
- **game-session.ts.** `GameSessions.GameSession` models the class of
  `app/lib/firebase/game-session.ts`. Its `EndGame` drives the `Collections.Store`
  methods as the source drives `updatePlayerStats` and `checkAndUnlockAchievements`.
- **JoinRoomModal.tsx.** The dialog `app/components/room/JoinRoomModal.tsx` is the class
  `JoinRoomModal.JoinRoomDialog`. Its fields are the component state: the code field,
  the error, the loading flag, the route pushed and whether `onClose` was called.
- **gameQuestions.ts and seedGameData.ts.** The catalogue and its getters
  (`app/lib/firebase/gameQuestions.ts`) are constants and functions in `GameQuestions`,
  each `find(...)!` backed by a lemma that the lookup succeeds. The template derivation
  and the room assignment (`app/lib/firebase/seedGameData.ts`) are in `SeedGameData`. In
  `Seeding` they are applied to the built-in catalogue.

**Inputs the model takes as parameters:**

- **Randomness.** Every `Math.random()` value is a `real` in `[0, 1)`.
- **Clock readings.** These are integers in milliseconds.
- **The achievements collection.** This is a sequence of definitions.
- **The game id.** `createGameRecord` would return it; the model passes it in.
- **The template query.** Whether the query of `gameTemplates` succeeds is a boolean.

**Numbers:**

- The source's floating-point expressions are exact integer or rational arithmetic:
  - `Math.floor(x * 0.2)` is `x / 5`, and `Math.floor(x * 0.3)` is `x * 3 / 10`;
  - `Math.round(a / b)` is `(2a + b) / (2b)`;
  - `Math.floor(100 * k^1.5)` is the integer square root of `10000 * k^3`;
  - `Math.floor(score * 1.2)` is `score * 12 / 10`.
- Dafny's `/` on a positive divisor is the floor, as the source's `Math.floor` is.

## Model

| member | source | states |
|---|---|---|
| Draws.RandomIndex | extramileplay-game/app/lib/firebase/collections.ts:1007 | `Math.floor(r * n)` for a value of `Math.random()` is a valid index below `n`, and it is the floor of `r * n` |
| Draws.ProductBelow | extramileplay-game/app/lib/firebase/collections.ts:1007 | a value of `Math.random()` times a positive length lies in `[0, n)` |
| RoomCodes.CharFor | extramileplay-game/app/lib/firebase/collections.ts:1004-1007 | the character drawn from the 36-character alphabet is an upper-case letter or a digit |
| RoomCodes.CodeFor | extramileplay-game/app/lib/firebase/collections.ts:1003-1010 | the code six draws spell out is a valid room code |
| RoomCodes.GenerateRoomCode | extramileplay-game/app/lib/firebase/collections.ts:1003-1010 | the loop returns the code the draws spell out: six characters of `[A-Z0-9]`, character `i` drawn by the `i`-th random value (firestore.ts:5-12 is the same loop) |
| Progression.Level | extramileplay-game/app/lib/firebase/collections.ts:1033-1044 | the level of a non-negative experience is at least 1, and the experience lies between the threshold of that level and the next |
| Progression.LevelStep | extramileplay-game/app/lib/firebase/collections.ts:1040 | the step to level `k` is `floor(100 * k^1.5)`: the largest integer whose square is at most `10000 * k^3`, and at least 1 |
| Progression.Threshold | extramileplay-game/app/lib/firebase/collections.ts:1036-1041 | the running total `expNeeded` at level `l`: 0 exactly at level 1, and at least `l - 1` because every step adds a point or more |
| Progression.ThresholdGrows | extramileplay-game/app/lib/firebase/collections.ts:1038-1041 | each level needs strictly more total experience than the one before |
| Progression.LevelUnique | extramileplay-game/app/lib/firebase/collections.ts:1033-1044 | exactly one level brackets a given experience, so the thresholds determine the level |
| Progression.LevelMonotone | extramileplay-game/app/lib/firebase/collections.ts:1033-1044 | more experience never gives a lower level |
| Progression.CalculateLevel | extramileplay-game/app/lib/firebase/collections.ts:1033-1044 | the counting loop terminates and returns the level the thresholds define, at least 1 for non-negative experience |
| Progression.CalculateExperience | extramileplay-game/app/lib/firebase/collections.ts:1012-1031 | at least 1 point and at least a tenth of the score; at most a tenth of the score times 1.2 times 1.3; exactly a tenth when neither the speed nor the accuracy bonus applies |
| Progression.ExperienceMonotone | extramileplay-game/app/lib/firebase/collections.ts:1012-1031 | a higher score never earns less experience |
| FieldTransforms.ArrayUnion | extramileplay-game/app/lib/firebase/collections.ts:456 | the element is present afterwards; the set of elements grows by exactly it; an array that held it is unchanged, otherwise the array grows by one |
| FieldTransforms.ArrayRemove | extramileplay-game/app/lib/firebase/collections.ts:511 | the element is absent afterwards, and every other element is kept |
| FieldTransforms.ArrayUnionIdempotent | extramileplay-game/app/lib/firebase/collections.ts:560 | applying `arrayUnion` of the same element twice is applying it once |
| FieldTransforms.ArrayUnionKeepsNoDuplicates | extramileplay-game/app/lib/firebase/collections.ts:456 | `arrayUnion` keeps an array free of duplicates |
| FieldTransforms.ArrayRemoveOnce | extramileplay-game/app/lib/firebase/collections.ts:511 | on a duplicate-free array, `arrayRemove` keeps it duplicate-free and shortens it by one exactly when the element was present |
| Players.NewPlayer | extramileplay-game/app/lib/firebase/collections.ts:178-210 | a first sign-in creates a profile with one login, zero statistics, level 1, no experience and no achievements; the name defaults to "Guest Player" |
| Players.SignedInAgain | extramileplay-game/app/lib/firebase/collections.ts:166-175 | a later sign-in counts one more login; it takes the user's name, email and photo when the user supplies them, keeps the stored ones otherwise, and changes no other field |
| Players.RoundDiv | extramileplay-game/app/lib/firebase/collections.ts:257 | `Math.round(a / b)` is the integer nearest `a / b`, with halves rounded up |
| Players.AverageScore | extramileplay-game/app/lib/firebase/collections.ts:256-258 | 0 with no games; otherwise the integer nearest total score over games, halves up |
| Players.WinRate | extramileplay-game/app/lib/firebase/collections.ts:264-266 | 0 with no games; otherwise the integer nearest 100 times wins over games, halves up |
| Players.WinRateIsPercentage | extramileplay-game/app/lib/firebase/collections.ts:264-266 | the win rate of at most as many wins as games lies in 0..100, and all games won gives 100 |
| Players.ApplyStats | extramileplay-game/app/lib/firebase/collections.ts:247-275 | each of the ten statistics is the supplied value when present and the stored one when absent; the average score is recomputed only when games and score are both supplied, the win rate only when games and wins are both supplied; every other field of the profile is unchanged |
| Players.ApplyStatsIdempotent | extramileplay-game/app/lib/firebase/collections.ts:247-277 | writing the same statistics twice leaves the profile as writing them once |
| Players.NewPlayerIsSane | extramileplay-game/app/lib/firebase/collections.ts:178-210 | a new profile satisfies the profile invariant: derived statistics agree with their inputs, wins and streaks are bounded, level 1 matches zero experience |
| Players.PlayerValue | extramileplay-game/app/lib/firebase/collections.ts:913-930 | a requirement type reads a profile statistic exactly when it is one of the four known types |
| Players.Meets | extramileplay-game/app/lib/firebase/collections.ts:932-943 | an unknown condition is never met |
| Players.Unlocks | extramileplay-game/app/lib/firebase/collections.ts:909-943 | an achievement that unlocks is not yet held and has a known requirement type and condition |
| Players.Unlocked | extramileplay-game/app/lib/firebase/collections.ts:905-954 | every achievement collected unlocks, and there are no more of them than definitions |
| Players.UnlockedExactly | extramileplay-game/app/lib/firebase/collections.ts:905-954 | an achievement is unlocked exactly when it is defined, not yet held, of a known requirement type, and its condition holds for the player's value |
| Players.Names | extramileplay-game/app/lib/firebase/collections.ts:952 | the names returned are those of the unlocked achievements, one per achievement, in order |
| Players.GrantAll | extramileplay-game/app/lib/firebase/collections.ts:945-950 | the batch adds each unlocked id to the achievements and each reward to the experience, and changes no other field |
| Players.GrantAllKeepsNoDuplicates | extramileplay-game/app/lib/firebase/collections.ts:948 | granting keeps the achievement list free of duplicates |
| Players.AfterUnlock | extramileplay-game/app/lib/firebase/collections.ts:945-958 | the experience grows by the rewards of the unlocked achievements and no field besides the achievements and the experience changes |
| Players.AfterUnlockAchievements | extramileplay-game/app/lib/firebase/collections.ts:945-958 | afterwards a player holds an id exactly when they held it or some definition with that id unlocked |
| Players.RewardsNonNegativeSum | extramileplay-game/app/lib/firebase/collections.ts:949 | non-negative rewards sum to non-negative experience |
| Players.UnlockedRewardsNonNegative | extramileplay-game/app/lib/firebase/collections.ts:905-954 | the unlocked achievements keep the non-negative rewards of the definitions |
| Players.UnlockKeepsSane | extramileplay-game/app/lib/firebase/collections.ts:892-965 | unlocking keeps a consistent profile consistent; the stored level, which unlocking does not recompute, stays at or below the level the new experience earns |
| Rooms.NewRoom | extramileplay-game/app/lib/firebase/collections.ts:321-339 | a new room is waiting, has eight seats and seats only the host; the host name defaults to "Unknown Host" |
| Rooms.HostMember | extramileplay-game/app/lib/firebase/collections.ts:348-359 | the host's member document is marked host and ready, with no score |
| Rooms.JoinedMember | extramileplay-game/app/lib/firebase/collections.ts:440-451 | a joiner's member document is neither host nor ready, with no score |
| Rooms.Joined | extramileplay-game/app/lib/firebase/collections.ts:454-457 | one more seat is counted, the joiner is seated beside everyone already seated, and nothing else in the room changes |
| Rooms.Left | extramileplay-game/app/lib/firebase/collections.ts:508-511 | one seat fewer is counted, the player is no longer seated, everyone else stays, and nothing else in the room changes |
| Rooms.Patched | extramileplay-game/app/lib/firebase/collections.ts:721-726 | each settings key present in the patch is written, every absent key is kept |
| Rooms.PatchedIdempotent | extramileplay-game/app/lib/firebase/collections.ts:721-726 | applying the same patch twice is applying it once |
| Rooms.NewRoomConsistent | extramileplay-game/app/lib/firebase/collections.ts:321-360 | a new room and its host's member document satisfy the room invariant |
| Rooms.JoinKeepsConsistent | extramileplay-game/app/lib/firebase/collections.ts:440-457 | a join that passed the capacity and duplicate guards keeps the room invariant and seats exactly one more player |
| Rooms.LeaveKeepsConsistent | extramileplay-game/app/lib/firebase/collections.ts:505-512 | removing a seated player keeps the room invariant and seats exactly one fewer |
| Rooms.JoinThenLeave | extramileplay-game/app/lib/firebase/collections.ts:454-457 | joining then leaving restores the seat count and the set of seated players |
| Rooms.CreateMembersAsWritten | extramileplay-game/app/lib/firebase/collections.ts:342-360 | creating a room under a code writes the host's member document (marked host and ready, score 0) and keeps every other member document already under that code, and the member documents of every other code are untouched |
| Rooms.CollisionBreaksConsistency | extramileplay-game/app/lib/firebase/collections.ts:312-360 | when the drawn code already holds a room seating another player, the created room disagrees with its subcollection |
| Rooms.CollisionExample | extramileplay-game/app/lib/firebase/collections.ts:312-360 | a concrete collision: room "ABC123" seats "p2", and host "h" draws the same code |
| Collections.JoinRoomMessage | extramileplay-game/app/lib/firebase/collections.ts:465-473 | any `joinRoom` error whose message mentions "not found" reaches the caller as the wrong-code message; every other message is passed on |
| Collections.MissingProfileReportedAsWrongCode | extramileplay-game/app/lib/firebase/collections.ts:433-436 | a joiner with no profile is told the room code is wrong, exactly as for a missing room |
| Collections.FirstOfDifficulty | extramileplay-game/app/lib/firebase/collections.ts:371-376 | the query with `limit(1)` finds a stored template of the difficulty, or reports that none exists |
| Collections.AvailableTemplates | extramileplay-game/app/lib/firebase/collections.ts:364-388 | at most one entry per difficulty queried, and none when no template is stored |
| Collections.AvailableTemplatesExactly | extramileplay-game/app/lib/firebase/collections.ts:364-388 | each collected entry names a stored template of a queried difficulty with its challenges, and every queried difficulty that some template has is collected; at most one entry per difficulty |
| Collections.FirstAt | extramileplay-game/app/lib/firebase/collections.ts:371-376 | the query returns the first template of the difficulty in store order |
| Collections.AllAvailable | extramileplay-game/app/lib/firebase/collections.ts:364-388 | templates stored in the queried order with distinct difficulties are all collected, in that order |
| Collections.ThreeAvailable | extramileplay-game/app/lib/firebase/collections.ts:364-388 | three templates of distinct difficulties, queried in their own order, are each collected |
| Collections.Activated | extramileplay-game/app/lib/firebase/collections.ts:559-561 | the profile lists the room among its active rooms beside those it listed, is unchanged if it listed it already, and changes in no other field |
| Collections.MarkActive | extramileplay-game/app/lib/firebase/collections.ts:555-565 | the loop updates profiles but never adds or removes one |
| Collections.MarkActiveExactly | extramileplay-game/app/lib/firebase/collections.ts:555-565 | after the loop, exactly the seated players that have a profile hold the room in `activeRooms`, each once; no other profile changes |
| Collections.Store.CreateOrUpdatePlayer | extramileplay-game/app/lib/firebase/collections.ts:155-218 | an absent user or one with an empty uid is refused; otherwise the profile is created, or refreshed on a later sign-in, and nothing else changes |
| Collections.Store.UpdatePlayerStats | extramileplay-game/app/lib/firebase/collections.ts:235-282 | a missing profile is refused; otherwise exactly that profile becomes `ApplyStats` of it |
| Collections.Store.CollectTemplates | extramileplay-game/app/lib/firebase/collections.ts:364-388 | the template loop returns what `AvailableTemplates` defines for the difficulties asked, in their order |
| Collections.Store.CreateRoom | extramileplay-game/app/lib/firebase/collections.ts:307-394 | a missing host profile is refused; otherwise the room is created exactly when the code the draws spell out is free (the corrected version refuses a code in use), under that code, seating its host alone, with the first template of each difficulty attached when the query succeeds and finds any; the room invariant is kept |
| Collections.Store.JoinRoom | extramileplay-game/app/lib/firebase/collections.ts:396-475 | the guards in source order: missing arguments, missing room, not waiting, full, already seated, no profile; on success the room gains one seat and the joiner's member document; the room invariant is kept |
| Collections.Store.LeaveRoom | extramileplay-game/app/lib/firebase/collections.ts:477-520 | a missing room or a player not seated is refused; otherwise the seat and the member document are removed and the room invariant is kept |
| Collections.Store.KickPlayer | extramileplay-game/app/lib/firebase/collections.ts:644-692 | missing room, non-host requester, kicking the host and a target not seated are refused in that order; otherwise the target's seat and member document are removed |
| Collections.Store.StartRoom | extramileplay-game/app/lib/firebase/collections.ts:522-572 | missing room, non-host and an empty room are refused; otherwise the room becomes active from any status, and every seated player with a profile records the room in `activeRooms` |
| Collections.Store.MarkPlayersActive | extramileplay-game/app/lib/firebase/collections.ts:555-565 | the loop over the seated ids leaves the profiles `MarkActive` defines and touches no room |
| Collections.Store.EndRoom | extramileplay-game/app/lib/firebase/collections.ts:574-592 | a missing room fails the update; any existing room becomes completed with the results, with no host check |
| Collections.Store.UpdateRoomSettings | extramileplay-game/app/lib/firebase/collections.ts:694-734 | missing room, non-host and a room no longer waiting are refused; otherwise only the settings change, by the patch |
| Collections.Store.DeleteRoom | extramileplay-game/app/lib/firebase/collections.ts:1064-1099 | missing room and non-host are refused; otherwise the room and its whole member subcollection are removed |
| Collections.Store.CheckAndUnlockAchievements | extramileplay-game/app/lib/firebase/collections.ts:892-965 | a missing profile yields no names and no change; otherwise the names of the unlocked achievements are returned in order, and the profile is granted them in one batch, committed only if any unlocked |
| Firestore.MemberFor | extramileplay-game/app/lib/firebase/firestore.ts:31-39 | the member document carries the user's id and email, no score, the host flag given, and the name defaulting to "Guest" |
| Firestore.SimpleStore.CreateRoom | extramileplay-game/app/lib/firebase/firestore.ts:14-42 | an unauthenticated caller is refused; otherwise a waiting room with one participant is written under the code the draws spell out, overwriting it, and the host's member document is added beside any already there |
| Firestore.SimpleStore.JoinRoom | extramileplay-game/app/lib/firebase/firestore.ts:44-70 | unauthenticated, missing room and a room not waiting are refused in that order; otherwise the joiner's member document is (re)written and the room is not touched |
| Firestore.RejoinOverwrites | extramileplay-game/app/lib/firebase/firestore.ts:61-69 | joining twice leaves one member document, with score 0, as joining once does |
| GameQuestions.Find | extramileplay-game/app/lib/firebase/gameQuestions.ts:230 | `find` by id returns a catalogue challenge with that id, or none exists |
| GameQuestions.FindAt | extramileplay-game/app/lib/firebase/gameQuestions.ts:230 | `find` returns the first challenge with the id |
| GameQuestions.FindConcat | extramileplay-game/app/lib/firebase/gameQuestions.ts:230 | `find` on a concatenation looks in the second part only when the first has no match |
| GameQuestions.FoundMcq001 | extramileplay-game/app/lib/firebase/gameQuestions.ts:246 | the lookup of "mcq-001" succeeds, so its `!` holds |
| GameQuestions.FoundMcq003 | extramileplay-game/app/lib/firebase/gameQuestions.ts:230 | the lookup of "mcq-003" succeeds |
| GameQuestions.FoundMcq004 | extramileplay-game/app/lib/firebase/gameQuestions.ts:254 | the lookup of "mcq-004" succeeds |
| GameQuestions.FoundEmoji001 | extramileplay-game/app/lib/firebase/gameQuestions.ts:233 | the lookup of "emoji-001" succeeds |
| GameQuestions.FoundEmoji002 | extramileplay-game/app/lib/firebase/gameQuestions.ts:255 | the lookup of "emoji-002" succeeds |
| GameQuestions.FoundEmoji003 | extramileplay-game/app/lib/firebase/gameQuestions.ts:247 | the lookup of "emoji-003" succeeds |
| GameQuestions.FoundEmoji005 | extramileplay-game/app/lib/firebase/gameQuestions.ts:263 | the lookup of "emoji-005" succeeds |
| GameQuestions.FoundReaction001 | extramileplay-game/app/lib/firebase/gameQuestions.ts:236 | the lookup of "reaction-001" succeeds |
| GameQuestions.FoundReaction002 | extramileplay-game/app/lib/firebase/gameQuestions.ts:256 | the lookup of "reaction-002" succeeds |
| GameQuestions.FoundReaction003 | extramileplay-game/app/lib/firebase/gameQuestions.ts:264 | the lookup of "reaction-003" succeeds |
| GameQuestions.FoundTyping001 | extramileplay-game/app/lib/firebase/gameQuestions.ts:239 | the lookup of "typing-001" succeeds |
| GameQuestions.FoundTyping002 | extramileplay-game/app/lib/firebase/gameQuestions.ts:257 | the lookup of "typing-002" succeeds |
| GameQuestions.FoundTyping004 | extramileplay-game/app/lib/firebase/gameQuestions.ts:265 | the lookup of "typing-004" succeeds |
| GameQuestions.OfType | extramileplay-game/app/lib/firebase/gameQuestions.ts:276 | `filter` on the type; it has no contract of its own, and `OfTypeExactly` states what it keeps |
| GameQuestions.FromCatalogueInQuestions | extramileplay-game/app/lib/firebase/gameQuestions.ts:228-267 | every challenge of a session built from the catalogue blocks is a catalogue challenge |
| GameQuestions.DefaultSession | extramileplay-game/app/lib/firebase/gameQuestions.ts:228-240 | the default session is mcq-003, emoji-001, reaction-001, typing-001: one of each type, in order, with distinct ids |
| GameQuestions.EasyVariant | extramileplay-game/app/lib/firebase/gameQuestions.ts:245-250 | the first variant is mcq-001, emoji-003, reaction-001, typing-001, one of each type in order |
| GameQuestions.MediumVariant | extramileplay-game/app/lib/firebase/gameQuestions.ts:253-258 | the second variant is mcq-004, emoji-002, reaction-002, typing-002, one of each type in order |
| GameQuestions.HardVariant | extramileplay-game/app/lib/firebase/gameQuestions.ts:261-266 | the third variant is mcq-003, emoji-005, reaction-003, typing-004, one of each type in order |
| GameQuestions.SessionVariants | extramileplay-game/app/lib/firebase/gameQuestions.ts:243-267 | there are three variants, each with one challenge of each type in order, distinct ids, taken from the catalogue |
| GameQuestions.OfTypeExactly | extramileplay-game/app/lib/firebase/gameQuestions.ts:276 | `filter` on the type keeps exactly the challenges of that type, in catalogue order |
| GameQuestions.OfTypeSplit | extramileplay-game/app/lib/firebase/gameQuestions.ts:276 | filtering a concatenation is concatenating the filtered parts |
| GameQuestions.OfTypeAll | extramileplay-game/app/lib/firebase/gameQuestions.ts:276 | filtering a list all of one type keeps all of it or none of it |
| GameQuestions.OfTypeOfBlocks | extramileplay-game/app/lib/firebase/gameQuestions.ts:16-225 | filtering four single-type blocks keeps exactly the blocks of the filtered type |
| GameQuestions.McqBlockOnly | extramileplay-game/app/lib/firebase/gameQuestions.ts:17-77 | the multiple-choice questions of the catalogue are exactly its first block of five |
| GameQuestions.EmojiBlockOnly | extramileplay-game/app/lib/firebase/gameQuestions.ts:79-139 | the emoji puzzles of the catalogue are exactly its second block of five |
| GameQuestions.GetMCQQuestions | extramileplay-game/app/lib/firebase/gameQuestions.ts:275-277 | the result holds exactly the catalogue's multiple-choice questions, as a subsequence in catalogue order: the five of the first block |
| GameQuestions.GetEmojiQuestions | extramileplay-game/app/lib/firebase/gameQuestions.ts:279-281 | the result holds exactly the catalogue's emoji puzzles, as a subsequence in catalogue order: the five of the second block |
| GameQuestions.GetRandomGameSession | extramileplay-game/app/lib/firebase/gameQuestions.ts:270-273 | the session picked is one of the three variants, so it is well shaped and taken from the catalogue |
| GameQuestions.GetRandomMCQ | extramileplay-game/app/lib/firebase/gameQuestions.ts:283-287 | the list indexed is never empty, and the question picked is a multiple-choice one from it |
| SeedGameData.NatToString | extramileplay-game/app/lib/firebase/seedGameData.ts:43-44 | the decimal rendering of `index + 1` is a non-empty string of digits |
| SeedGameData.NatToStringInjective | extramileplay-game/app/lib/firebase/seedGameData.ts:43-44 | distinct numbers render differently |
| SeedGameData.ChallengeIds | extramileplay-game/app/lib/firebase/seedGameData.ts:46 | the template lists the session's challenge ids in order |
| SeedGameData.TemplateFor | extramileplay-game/app/lib/firebase/seedGameData.ts:42-50 | a template's id and name carry the variant's 1-based position, and its challenges are the variant's ids |
| SeedGameData.DifficultyFor | extramileplay-game/app/lib/firebase/seedGameData.ts:45 | index 0 is easy, index 1 medium, and every later index hard |
| SeedGameData.TotalTime | extramileplay-game/app/lib/firebase/seedGameData.ts:47 | the summed time limits are non-negative when every limit is; `TotalsOfFour` spells out four |
| SeedGameData.MaxScore | extramileplay-game/app/lib/firebase/seedGameData.ts:48 | the summed points are non-negative when every challenge's are; `MaxScoreUniform` and `TotalsOfFour` give the totals |
| SeedGameData.Templates | extramileplay-game/app/lib/firebase/seedGameData.ts:42-50 | there is one template per variant, in order |
| SeedGameData.TemplateIdsDistinct | extramileplay-game/app/lib/firebase/seedGameData.ts:42-57 | distinct variants get distinct template ids, so no template document overwrites another |
| SeedGameData.ThreeTemplateIds | extramileplay-game/app/lib/firebase/seedGameData.ts:43-44 | three variants are stored as session-1, session-2 and session-3 |
| SeedGameData.MaxScoreUniform | extramileplay-game/app/lib/firebase/seedGameData.ts:48 | challenges all worth `m` points sum to `m` times their number |
| SeedGameData.TotalsOfFour | extramileplay-game/app/lib/firebase/seedGameData.ts:47-48 | the left-to-right `reduce` over four challenges is the plain sum of their time limits and of their points |
| SeedGameData.AssignSession | extramileplay-game/app/lib/firebase/seedGameData.ts:73-82 | one room challenge per challenge id, numbered from 1 and not completed; when ids repeat, the later `set` is the one kept |
| Seeding.EasyTotals | extramileplay-game/app/lib/firebase/seedGameData.ts:47-48 | the easy template lasts 145 seconds and is worth 400 points |
| Seeding.MediumTotals | extramileplay-game/app/lib/firebase/seedGameData.ts:47-48 | the medium template lasts 130 seconds and is worth 400 points |
| Seeding.HardTotals | extramileplay-game/app/lib/firebase/seedGameData.ts:47-48 | the hard template lasts 120 seconds and is worth 400 points |
| Seeding.SeededTemplates | extramileplay-game/app/lib/firebase/seedGameData.ts:42-50 | the seeded templates are easy, medium and hard in that order, 400 points each, lasting 145, 130 and 120 seconds |
| Seeding.SeededRoomOffersEveryDifficulty | extramileplay-game/app/lib/firebase/collections.ts:364-388 | after seeding, a new room is offered session-1, session-2 and session-3 for easy, medium and hard |
| Seeding.AssignQuestionsToRoom | extramileplay-game/app/lib/firebase/seedGameData.ts:64-86 | the room receives all four challenges of one random variant, numbered 1 to 4 in session order |
| GameSessions.CorrectCount | extramileplay-game/app/lib/firebase/game-session.ts:92 | the count of correct answers is at most the number of answers; it equals it exactly when all are correct, and is 0 exactly when none is |
| GameSessions.Accuracy | extramileplay-game/app/lib/firebase/game-session.ts:93 | the percentage correct, 0 with no answers, between 0 and 100 |
| GameSessions.TimeSpent | extramileplay-game/app/lib/firebase/game-session.ts:90 | the elapsed whole seconds, floored |
| GameSessions.SpeedBonus | extramileplay-game/app/lib/firebase/game-session.ts:166-172 | 25 below 30 seconds per puzzle, 15 below 60, otherwise 0; with no puzzles there is a bonus only for a negative time |
| GameSessions.AverageBelow | extramileplay-game/app/lib/firebase/game-session.ts:167-170 | comparing the average time per puzzle with a limit is comparing the total time with the limit times the number of puzzles |
| GameSessions.ApplyDifficulty | extramileplay-game/app/lib/firebase/game-session.ts:174-185 | easy keeps the score; medium and hard give the floor of the score times 1.2 and 1.5 |
| GameSessions.ApplyDifficultyMonotone | extramileplay-game/app/lib/firebase/game-session.ts:174-185 | the multiplier never reverses the order of two scores |
| GameSessions.RawScore | extramileplay-game/app/lib/firebase/game-session.ts:157-172 | 10 points per correct answer plus at most 75 in bonuses; at least 50 of them exactly when every puzzle was answered correctly, at most 25 otherwise |
| GameSessions.Score | extramileplay-game/app/lib/firebase/game-session.ts:157-188 | the score is never negative and never below the multiplied raw points |
| GameSessions.ScoreMonotone | extramileplay-game/app/lib/firebase/game-session.ts:157-188 | more correct answers never lower the score |
| GameSessions.HarderScoresMore | extramileplay-game/app/lib/firebase/game-session.ts:174-185 | for the same answers, medium scores at least easy and hard at least medium |
| GameSessions.ScoreBound | extramileplay-game/app/lib/firebase/game-session.ts:157-188 | no game scores more than an all-correct, fast, hard one: 1.5 times (10 per puzzle plus 75) |
| GameSessions.ZeroAnswerGameTakesBonus | extramileplay-game/app/lib/firebase/game-session.ts:162-164 | a game ended with no answers takes the 50-point completion bonus: 50, 60 or 75 points by difficulty |
| GameSessions.IsWin | extramileplay-game/app/lib/firebase/game-session.ts:126 | a win is an accuracy of 80 or more; it has no contract of its own, and `WinAtFourFifths` restates it over answer counts |
| GameSessions.WinAtFourFifths | extramileplay-game/app/lib/firebase/game-session.ts:92-126 | with answers, a game is won exactly when at least four in five are correct; with none it is never won |
| GameSessions.GameStats | extramileplay-game/app/lib/firebase/game-session.ts:116-142 | every statistic but the achievements is supplied; the best score and best streak are the larger of the old and the new; the level is the one the new experience earns |
| GameSessions.GameStatsEffect | extramileplay-game/app/lib/firebase/game-session.ts:116-142 | after a game: one more game played, the score added, the best score the larger, play time in whole minutes added, wins and streaks per the 80% rule, experience added, level recomputed from it, derived statistics recomputed |
| GameSessions.EndGameKeepsSane | extramileplay-game/app/lib/firebase/game-session.ts:116-145 | a finished game and the unlock that follows keep a consistent profile consistent |
| GameSessions.GameSession.constructor | extramileplay-game/app/lib/firebase/game-session.ts:42-47 | a session for the user, started at the given clock reading, with no game id and no answers; the name defaults to "Guest Player" |
| GameSessions.GameSession.StartGame | extramileplay-game/app/lib/firebase/game-session.ts:49-66 | the game id is recorded and nothing else changes |
| GameSessions.GameSession.RecordAnswer | extramileplay-game/app/lib/firebase/game-session.ts:68-75 | exactly one answer is appended, and nothing else changes |
| GameSessions.GameSession.CalculateScore | extramileplay-game/app/lib/firebase/game-session.ts:157-188 | the imperative computation equals the score formula for the session's difficulty |
| GameSessions.GameSession.EndGame | extramileplay-game/app/lib/firebase/game-session.ts:77-155 | an unstarted game (no id, or the empty id, which `!this.gameId` also rejects) or a missing profile is refused; otherwise it returns the score, experience, unlocked names and level-up, and the profile becomes the statistics update followed by the unlock |
| JoinRoomModal.ToUpper | extramileplay-game/app/components/room/JoinRoomModal.tsx:68 | lower-case ASCII letters become upper case and code characters stay; characters such as ß, ı and ﬁ expand to their Unicode upper case (SS, I, FI), so one character gives one to three |
| JoinRoomModal.Upper | extramileplay-game/app/components/room/JoinRoomModal.tsx:68 | upper-casing works character by character and can lengthen the text up to three times, never shorten it |
| JoinRoomModal.KeepCodeChars | extramileplay-game/app/components/room/JoinRoomModal.tsx:68 | the filter keeps only `[A-Z0-9]` characters and never lengthens the text |
| JoinRoomModal.KeepCodeCharsMembers | extramileplay-game/app/components/room/JoinRoomModal.tsx:68 | a character survives the filter exactly when it was typed and is a code character |
| JoinRoomModal.KeepCodeCharsOfCode | extramileplay-game/app/components/room/JoinRoomModal.tsx:68 | text made only of code characters passes the filter unchanged |
| JoinRoomModal.UpperOfCode | extramileplay-game/app/components/room/JoinRoomModal.tsx:52-53 | upper-casing a code is the identity, so the code joined is the code typed |
| JoinRoomModal.SanitizeKeepsCode | extramileplay-game/app/components/room/JoinRoomModal.tsx:67-72 | a stored code passes the code-change filter unchanged |
| JoinRoomModal.SanitizeIdempotent | extramileplay-game/app/components/room/JoinRoomModal.tsx:67-72 | filtering twice is filtering once |
| JoinRoomModal.Sanitize | extramileplay-game/app/components/room/JoinRoomModal.tsx:68 | the value derived from the typed text holds only code characters, at most three per character typed |
| JoinRoomModal.SharpSUpper | extramileplay-game/app/components/room/JoinRoomModal.tsx:68 | upper-casing "straße" gives "STRASSE" |
| JoinRoomModal.SharpSExpands | extramileplay-game/app/components/room/JoinRoomModal.tsx:68 | typing the six characters "straße" derives seven, "STRASSE", so the field refuses them |
| JoinRoomModal.JoinRoomDialog.constructor | extramileplay-game/app/components/room/JoinRoomModal.tsx:38-40 | the dialog opens with an empty code, no error and not loading |
| JoinRoomModal.JoinRoomDialog.HandleCodeChange | extramileplay-game/app/components/room/JoinRoomModal.tsx:67-73 | a filtered value of at most six characters replaces the field and clears the error; a longer one changes nothing; the field always holds at most six code characters |
| JoinRoomModal.JoinRoomDialog.HandleClose | extramileplay-game/app/components/room/JoinRoomModal.tsx:61-65 | the field and the error are reset and the parent is told to close |
| JoinRoomModal.JoinRoomDialog.HandleJoinRoom | extramileplay-game/app/components/room/JoinRoomModal.tsx:42-59 | a code not exactly six characters long is refused with no call and the busy flag left as it was; otherwise the join is attempted, its error message is shown on failure with no member document written, the room page is opened on success with exactly the joining player's document written, and the busy flag is cleared |

## Left out

- Timestamps are not modelled: `serverTimestamp()` fields, `createdAt`, `startedAt`, `endedAt` and `joinedAt`.
- Browser and Firestore concurrency is not modelled. Each transaction is one atomic step. The loop of `startRoom` over profiles runs after its transaction and is modelled as one further step.
- Firestore failures are not modelled: permission, network and availability errors. The `catch` blocks that wrap messages as "Failed to …: …" and the `joinRoom` remaps for "permission-denied" and "unavailable" are left out too. `Collections.Error` keeps the guard's own message.
- `Collections.Store.CreateRoom`: the outcome of the `gameTemplates` queries is one boolean, all or nothing. A failure part-way through the three queries is not modelled.
- `Collections.FirstOfDifficulty`: a query with `limit(1)` and no ordering returns documents in document-id order. The model takes the order of the `templates` sequence to be that order.
- `Collections.Store.JoinRoom`: the joiner's profile is read outside the transaction, and the model reads it in the same step. A room document without `playerIds` is not modelled, because every room the model creates has the field.
- `Collections.Store.CheckAndUnlockAchievements`: the `achievements` collection is passed in as a sequence of definitions. An error reading it, for which the source returns an empty list, is not modelled.
- `GameSessions.GameSession.EndGame`: `updateGameRecord` is left out because the games collection is not part of this model. `GameSessions.GameSession.StartGame`'s `createGameRecord` is left out for the same reason, and the id it returns is a parameter. A profile read that fails, which the source treats as a missing profile, is not modelled.
- These neighbouring functions of collections.ts are not part of this model: `getRoomData`, `getRoomPlayers`, `getRoomPlayerIds`, `isPlayerInRoom`, `togglePlayerReady`, `getActiveRooms`, `updatePlayerPreferences`, the games and leaderboard queries, and `getPlayerAchievements`/`getAllAchievements`.
- `seedGameQuestions`, which copies the catalogue into the `challenges` collection, is not part of this model. Template creation is modelled on values (`SeedGameData.Templates`), and the batch that stores them is not modelled.
- Floating-point arithmetic is written as exact arithmetic. This affects `Math.round`, `Math.pow(level, 1.5)`, `score * 1.2` and `* 1.5`, `exp * 0.2` and `* 0.3`, and the accuracy percentage. Where a double product lands just below an integer, the source's floor may be one lower than the model's.
- `GameSessions.SpeedBonus`: the source divides by zero when no puzzles were recorded. The model states the result of that case (infinity or NaN compared with 30 and 60), not the floating-point computation itself.
- `JoinRoomModal.ToUpper`: the characters whose upper case holds no ASCII letter or digit (é, ö, Greek, Cyrillic and the like) are kept as they are instead of being upper-cased. The filter of `JoinRoomModal.Sanitize` drops both forms, so the values `JoinRoomModal.JoinRoomDialog.HandleCodeChange` stores are the source's; only the intermediate upper-cased text differs. The characters that do upper-case to ASCII letters are those listed in `ToUpper`, taken from Unicode's case tables.
- The emoji strings of gameQuestions.ts are stored in the repository as UTF-8 bytes read as Windows-1252 text. The model holds the emoji they encode (for example U+1F981 U+1F451 for emoji-001).
- The React rendering, the dialog's `open` flag and the router are left out. The route pushed is recorded in `navigatedTo`.

## Findings

| source | as written | input that shows it | evidently intended | confidence | as-written member | corrected member |
|---|---|---|---|---|---|---|
| extramileplay-game/app/lib/firebase/collections.ts:312-360 | `createRoom` draws a code and `set`s the room and the host's member document without checking that the code is free. The overwritten room seats only the host, while the old room's member documents stay in its subcollection. | room "ABC123" seats "p2", and host "h" then draws "ABC123": the new room lists only "h" but its subcollection also holds "p2" (`Rooms.CollisionExample`) | a drawn code already in use is refused (or redrawn), so a room and its members always agree | not executed | Rooms.CreateMembersAsWritten | Collections.Store.CreateRoom |
