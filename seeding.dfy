/** What seedGameData.ts writes for the built-in catalogue: the three templates and a room's challenges. */
module Seeding {
  import opened Challenges
  import opened Draws
  import opened GameQuestions
  import opened SeedGameData
  import opened Rooms
  import opened Collections

  lemma EasyTotals() ensures TotalTime(EasyVariant()) == 145 && MaxScore(EasyVariant()) == 400 {
    TotalsOfFour(EasyVariant());
  }

  lemma MediumTotals() ensures TotalTime(MediumVariant()) == 130 && MaxScore(MediumVariant()) == 400 {
    TotalsOfFour(MediumVariant());
  }

  lemma HardTotals() ensures TotalTime(HardVariant()) == 120 && MaxScore(HardVariant()) == 400 {
    TotalsOfFour(HardVariant());
  }

  /** The three seeded templates: easy, medium and hard, 400 points each, 145, 130 and 120 seconds. */
  lemma SeededTemplates()
    ensures var ts := Templates(SessionVariants());
      && |ts| == 3
      && ts[0].difficulty == Easy && ts[1].difficulty == Medium && ts[2].difficulty == Hard
      && ts[0].maxScore == 400 && ts[1].maxScore == 400 && ts[2].maxScore == 400
      && ts[0].totalTime == 145 && ts[1].totalTime == 130 && ts[2].totalTime == 120
  {
    EasyTotals();
    MediumTotals();
    HardTotals();
  }

  /** A room created after seeding offers all three templates: session-1, -2 and -3 for easy, medium and hard. */
  lemma SeededRoomOffersEveryDifficulty()
    ensures var found := AvailableTemplates(Templates(SessionVariants()), [Easy, Medium, Hard]);
      && |found| == 3
      && found[0].templateId == "session-1" && found[0].difficulty == Easy
      && found[1].templateId == "session-2" && found[1].difficulty == Medium
      && found[2].templateId == "session-3" && found[2].difficulty == Hard
  {
    var ts := Templates(SessionVariants());
    SeededTemplates();
    ThreeTemplateIds(SessionVariants());
    ThreeAvailable(ts);
    assert [ts[0].difficulty, ts[1].difficulty, ts[2].difficulty] == [Easy, Medium, Hard];
  }

  /** `assignQuestionsToRoom`: a random variant, written as one batch of room challenges. */
  method AssignQuestionsToRoom(roomId: string, r: real) returns (batch: map<string, RoomChallenge>)
    requires IsRandom(r)
    ensures var session := GetRandomGameSession(r);
      batch.Keys == (set k | 0 <= k < |session| :: session[k].challengeId)
    ensures var session := GetRandomGameSession(r);
      forall k :: 0 <= k < |session| ==>
        batch[session[k].challengeId] == RoomChallenge(session[k], roomId, k + 1, false)
  {
    var session := GetRandomGameSession(r);
    batch := AssignSession(roomId, session);
    forall k | 0 <= k < |session| ensures LastWithId(session, k, |session|) {
      assert WellShaped(session);
    }
  }
}
