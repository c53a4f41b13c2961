/** Session templates derived from the variants, and the assignment of a session to a room (seedGameData.ts). */
module SeedGameData {
  import opened Challenges

  /** A `gameTemplates` document: the challenge ids of one variant with its time and score totals. */
  datatype SessionTemplate = SessionTemplate(
    templateId: string,
    name: string,
    difficulty: Difficulty,
    challenges: seq<string>,
    totalTime: int,
    maxScore: int)

  /** A challenge copied under `rooms/{roomId}/challenges`. */
  datatype RoomChallenge = RoomChallenge(challenge: Challenge, roomId: string, playOrder: int, isCompleted: bool)

  function DigitChar(d: nat): (c: char)
    requires d < 10
    ensures '0' <= c <= '9'
  {
    (48 + d) as char
  }

  /** Decimal rendering of a natural number, as a template literal prints it. */
  function NatToString(n: nat): (s: string)
    ensures |s| >= 1
    ensures n >= 10 ==> |s| >= 2
    ensures forall i :: 0 <= i < |s| ==> '0' <= s[i] <= '9'
  {
    if n < 10 then [DigitChar(n)] else NatToString(n / 10) + [DigitChar(n % 10)]
  }

  lemma {:induction false} NatToStringInjective(a: nat, b: nat)
    requires NatToString(a) == NatToString(b)
    ensures a == b
  {
    var sa, sb := NatToString(a), NatToString(b);
    if a >= 10 && b >= 10 {
      assert sa[..|sa| - 1] == NatToString(a / 10);
      assert sb[..|sb| - 1] == NatToString(b / 10);
      NatToStringInjective(a / 10, b / 10);
      assert DigitChar(a % 10) == sa[|sa| - 1] == sb[|sb| - 1] == DigitChar(b % 10);
    }
  }

  /** The `reduce` over `timeLimit`, summed from the left. */
  function TotalTime(s: seq<Challenge>): (t: int)
    ensures (forall i :: 0 <= i < |s| ==> s[i].timeLimit >= 0) ==> t >= 0
  {
    if s == [] then 0 else TotalTime(s[..|s| - 1]) + s[|s| - 1].timeLimit
  }

  /** The `reduce` over `maxScore`, summed from the left. */
  function MaxScore(s: seq<Challenge>): (m: int)
    ensures (forall i :: 0 <= i < |s| ==> s[i].maxScore >= 0) ==> m >= 0
  {
    if s == [] then 0 else MaxScore(s[..|s| - 1]) + s[|s| - 1].maxScore
  }

  /** Index 0 is easy, index 1 medium, every later index hard. */
  function DifficultyFor(index: nat): (d: Difficulty)
    ensures d == Easy <==> index == 0
    ensures d == Medium <==> index == 1
    ensures d == Hard <==> index >= 2
  {
    if index == 0 then Easy else if index == 1 then Medium else Hard
  }

  function ChallengeIds(s: seq<Challenge>): (ids: seq<string>)
    ensures |ids| == |s|
    ensures forall i :: 0 <= i < |s| ==> ids[i] == s[i].challengeId
  {
    seq(|s|, i requires 0 <= i < |s| => s[i].challengeId)
  }

  function TemplateFor(session: seq<Challenge>, index: nat): (t: SessionTemplate)
    ensures t.templateId == "session-" + NatToString(index + 1)
    ensures t.name == "Game Session " + NatToString(index + 1)
    ensures t.challenges == ChallengeIds(session)
  {
    SessionTemplate(
      "session-" + NatToString(index + 1),
      "Game Session " + NatToString(index + 1),
      DifficultyFor(index),
      ChallengeIds(session),
      TotalTime(session),
      MaxScore(session))
  }

  /** `createGameSessionTemplates`: one template per variant, in order. */
  function Templates(variants: seq<seq<Challenge>>): (ts: seq<SessionTemplate>)
    ensures |ts| == |variants|
    ensures forall i :: 0 <= i < |ts| ==> ts[i] == TemplateFor(variants[i], i)
  {
    seq(|variants|, i requires 0 <= i < |variants| => TemplateFor(variants[i], i))
  }

  /** Distinct positions give distinct template ids, so no template document overwrites another. */
  lemma TemplateIdsDistinct(variants: seq<seq<Challenge>>, i: nat, j: nat)
    requires i < j < |variants|
    ensures Templates(variants)[i].templateId != Templates(variants)[j].templateId
  {
    var ts := Templates(variants);
    if ts[i].templateId == ts[j].templateId {
      var p := "session-";
      assert ts[i].templateId[|p|..] == NatToString(i + 1);
      assert ts[j].templateId[|p|..] == NatToString(j + 1);
      NatToStringInjective(i + 1, j + 1);
    }
  }

  /** Three variants are seeded as `session-1`, `session-2` and `session-3`. */
  lemma ThreeTemplateIds(variants: seq<seq<Challenge>>)
    requires |variants| == 3
    ensures Templates(variants)[0].templateId == "session-1"
    ensures Templates(variants)[1].templateId == "session-2"
    ensures Templates(variants)[2].templateId == "session-3"
    ensures Templates(variants)[2].name == "Game Session 3"
  {
    assert NatToString(1) == "1" && NatToString(2) == "2" && NatToString(3) == "3";
  }

  lemma {:induction false} MaxScoreUniform(s: seq<Challenge>, m: int)
    requires forall i :: 0 <= i < |s| ==> s[i].maxScore == m
    ensures MaxScore(s) == m * |s|
  {
    if s != [] {
      MaxScoreUniform(s[..|s| - 1], m);
    }
  }

  lemma TotalsOfFour(s: seq<Challenge>)
    requires |s| == 4
    ensures TotalTime(s) == s[0].timeLimit + s[1].timeLimit + s[2].timeLimit + s[3].timeLimit
    ensures MaxScore(s) == s[0].maxScore + s[1].maxScore + s[2].maxScore + s[3].maxScore
  {
    var s3, s2, s1 := s[..3], s[..2], s[..1];
    assert s3[..2] == s2 && s2[..1] == s1 && s1[..0] == [];
    assert TotalTime(s1) == s[0].timeLimit && MaxScore(s1) == s[0].maxScore;
    assert TotalTime(s2) == TotalTime(s1) + s[1].timeLimit && MaxScore(s2) == MaxScore(s1) + s[1].maxScore;
    assert TotalTime(s3) == TotalTime(s2) + s[2].timeLimit && MaxScore(s3) == MaxScore(s2) + s[2].maxScore;
  }

  /** No challenge among the first `n` after position `k` has the id of `session[k]`. */
  predicate LastWithId(session: seq<Challenge>, k: nat, n: nat)
    requires k < n <= |session|
  {
    forall j :: k < j < n ==> session[j].challengeId != session[k].challengeId
  }

  /** The documents written for the first `k` challenges, each the last of its id so far. */
  predicate AssignedUpTo(batch: map<string, RoomChallenge>, roomId: string, session: seq<Challenge>, k: nat)
    requires k <= |session|
  {
    && (forall j :: 0 <= j < k ==> session[j].challengeId in batch)
    && (forall j :: 0 <= j < k && LastWithId(session, j, k) ==>
          batch[session[j].challengeId] == RoomChallenge(session[j], roomId, j + 1, false))
  }

  lemma AssignStep(batch: map<string, RoomChallenge>, roomId: string, session: seq<Challenge>, k: nat)
    requires k < |session| && AssignedUpTo(batch, roomId, session, k)
    ensures AssignedUpTo(batch[session[k].challengeId := RoomChallenge(session[k], roomId, k + 1, false)],
                         roomId, session, k + 1)
  {
    var next := batch[session[k].challengeId := RoomChallenge(session[k], roomId, k + 1, false)];
    forall j | 0 <= j < k + 1 && LastWithId(session, j, k + 1)
      ensures next[session[j].challengeId] == RoomChallenge(session[j], roomId, j + 1, false)
    {
      if j < k {
        assert session[k].challengeId != session[j].challengeId;
        assert LastWithId(session, j, k);
      }
    }
  }

  /**
   * The `forEach` of `assignQuestionsToRoom`: one document per challenge id, numbered
   * from 1; when two challenges share an id the later `set` is the one kept.
   */
  method AssignSession(roomId: string, session: seq<Challenge>) returns (batch: map<string, RoomChallenge>)
    ensures batch.Keys == (set k | 0 <= k < |session| :: session[k].challengeId)
    ensures forall k :: 0 <= k < |session| && LastWithId(session, k, |session|) ==>
      batch[session[k].challengeId] == RoomChallenge(session[k], roomId, k + 1, false)
  {
    batch := map[];
    for k := 0 to |session|
      invariant batch.Keys == (set j | 0 <= j < k :: session[j].challengeId)
      invariant AssignedUpTo(batch, roomId, session, k)
    {
      var id := session[k].challengeId;
      AssignStep(batch, roomId, session, k);
      batch := batch[id := RoomChallenge(session[k], roomId, k + 1, false)];
      assert (set j | 0 <= j < k + 1 :: session[j].challengeId)
          == (set j | 0 <= j < k :: session[j].challengeId) + {id};
    }
  }
}
