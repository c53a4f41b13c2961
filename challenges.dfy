/** The challenge record of gameQuestions.ts, shared by the catalogue, the templates and the rooms. */
module Challenges {
  import opened Wrappers

  datatype ChallengeType = Mcq | EmojiPuzzle | Reaction | Typing

  datatype Difficulty = Easy | Medium | Hard

  datatype Challenge = Challenge(
    challengeId: string,
    kind: ChallengeType,
    order: int,
    question: string,
    options: Option<seq<string>>,
    correctAnswer: string,
    emojis: Option<string>,
    targetText: Option<string>,
    maxScore: int,
    timeLimit: int,
    difficulty: Difficulty,
    category: Option<string>)
}
