/** The question catalogue of gameQuestions.ts, its filters and the fixed sessions. */
module GameQuestions {
  import opened Wrappers
  import opened Draws
  import opened Challenges

  function McqQuestion(id: string, question: string, options: seq<string>, answer: string,
                       difficulty: Difficulty, category: string): Challenge {
    Challenge(id, Mcq, 1, question, Some(options), answer, None, None, 100, 30, difficulty, Some(category))
  }

  function EmojiQuestion(id: string, question: string, emojis: string, answer: string,
                         difficulty: Difficulty, category: string): Challenge {
    Challenge(id, EmojiPuzzle, 2, question, None, answer, Some(emojis), None, 100, 45, difficulty, Some(category))
  }

  function ReactionQuestion(id: string, question: string, difficulty: Difficulty): Challenge {
    Challenge(id, Reaction, 3, question, None, "reaction_time", None, None, 100, 10, difficulty, Some("Reflexes"))
  }

  function TypingQuestion(id: string, question: string, text: string, timeLimit: int,
                          difficulty: Difficulty, category: string): Challenge {
    Challenge(id, Typing, 4, question, None, text, None, Some(text), 100, timeLimit, difficulty, Some(category))
  }

  const Mcq001 := McqQuestion("mcq-001", "Which planet is known as the \"Red Planet\"?",
                ["Venus", "Mars", "Jupiter", "Saturn"], "Mars", Easy, "Science")
  const Mcq002 := McqQuestion("mcq-002", "Who painted the famous artwork \"The Starry Night\"?",
                ["Pablo Picasso", "Leonardo da Vinci", "Vincent van Gogh", "Claude Monet"],
                "Vincent van Gogh", Medium, "Art")
  const Mcq003 := McqQuestion("mcq-003", "What is the capital city of Australia?",
                ["Sydney", "Melbourne", "Brisbane", "Canberra"], "Canberra", Medium, "Geography")
  const Mcq004 := McqQuestion("mcq-004", "Which element has the chemical symbol \"Au\"?",
                ["Silver", "Gold", "Aluminum", "Argon"], "Gold", Medium, "Chemistry")
  const Mcq005 := McqQuestion("mcq-005", "In which year did World War II end?",
                ["1944", "1945", "1946", "1947"], "1945", Easy, "History")
  const Emoji001 := EmojiQuestion("emoji-001", "Guess the movie from these emojis:",
                  "\U{1F981}\U{1F451}", "The Lion King", Easy, "Movies")
  const Emoji002 := EmojiQuestion("emoji-002", "What famous landmark is represented by these emojis?",
                  "\U{1F5FD}\U{1F1FA}\U{1F1F8}", "Statue of Liberty", Easy, "Landmarks")
  const Emoji003 := EmojiQuestion("emoji-003", "Guess the food dish from these emojis:",
                  "\U{1F355}\U{1F1EE}\U{1F1F9}", "Pizza", Easy, "Food")
  const Emoji004 := EmojiQuestion("emoji-004", "What sport is represented by these emojis?",
                  "\U{26BD}\U{1F945}", "Soccer", Easy, "Sports")
  const Emoji005 := EmojiQuestion("emoji-005", "Guess the animal from these emojis:",
                  "\U{1F418}\U{1F95C}", "Elephant", Medium, "Animals")
  const Reaction001 := ReactionQuestion("reaction-001", "Click the button as soon as it turns GREEN! Get ready...", Medium)
  const Reaction002 := ReactionQuestion("reaction-002", "Lightning reflexes test! Click when you see GREEN!", Medium)
  const Reaction003 := ReactionQuestion("reaction-003", "Speed challenge! Tap the button the moment it changes to GREEN!", Hard)
  const Typing001 := TypingQuestion("typing-001", "Type the following sentence exactly as shown:",
                   "The quick brown fox jumps over the lazy dog", 60, Easy, "Typing")
  const Typing002 := TypingQuestion("typing-002", "Type this programming quote accurately:",
                   "Code is like humor. When you have to explain it, it's bad.", 45, Medium, "Programming")
  const Typing003 := TypingQuestion("typing-003", "Speed typing challenge - type exactly:",
                   "JavaScript is the language of the web and beyond", 40, Medium, "Technology")
  const Typing004 := TypingQuestion("typing-004", "Type this tongue twister perfectly:",
                   "She sells seashells by the seashore", 35, Hard, "Language")

  const McqBlock: seq<Challenge> := [Mcq001, Mcq002, Mcq003, Mcq004, Mcq005]
  const EmojiBlock: seq<Challenge> := [Emoji001, Emoji002, Emoji003, Emoji004, Emoji005]
  const ReactionBlock: seq<Challenge> := [Reaction001, Reaction002, Reaction003]
  const TypingBlock: seq<Challenge> := [Typing001, Typing002, Typing003, Typing004]

  /** `gameQuestions`: five multiple-choice, five emoji, three reaction and four typing challenges. */
  const Questions: seq<Challenge> := McqBlock + EmojiBlock + ReactionBlock + TypingBlock

  /** `Array.prototype.find` by id: the first challenge with that id. */
  function Find(qs: seq<Challenge>, id: string): (r: Option<Challenge>)
    ensures r.Some? ==> r.value in qs && r.value.challengeId == id
    ensures r.None? ==> forall q :: q in qs ==> q.challengeId != id
  {
    if qs == [] then None
    else if qs[0].challengeId == id then Some(qs[0])
    else Find(qs[1..], id)
  }

  lemma {:induction false} FindAt(qs: seq<Challenge>, id: string, k: nat)
    requires k < |qs| && qs[k].challengeId == id
    requires forall j :: 0 <= j < k ==> qs[j].challengeId != id
    ensures Find(qs, id) == Some(qs[k])
  {
    if k > 0 {
      FindAt(qs[1..], id, k - 1);
    }
  }

  lemma {:induction false} FindConcat(a: seq<Challenge>, b: seq<Challenge>, id: string)
    ensures Find(a + b, id) == if Find(a, id).Some? then Find(a, id) else Find(b, id)
  {
    if a == [] {
      assert a + b == b;
    } else {
      assert (a + b)[1..] == a[1..] + b;
      FindConcat(a[1..], b, id);
    }
  }

  lemma NotIn(qs: seq<Challenge>, id: string)
    requires forall i :: 0 <= i < |qs| ==> qs[i].challengeId != id
    ensures Find(qs, id) == None
  {}

  /** A lookup that skips a prefix without the id lands on the first match in the next block. */
  lemma FindAcross(pre: seq<Challenge>, blk: seq<Challenge>, post: seq<Challenge>, id: string, k: nat)
    requires forall i :: 0 <= i < |pre| ==> pre[i].challengeId != id
    requires k < |blk| && blk[k].challengeId == id
    requires forall j :: 0 <= j < k ==> blk[j].challengeId != id
    ensures Find(pre + blk + post, id) == Some(blk[k])
  {
    NotIn(pre, id);
    FindAt(blk, id, k);
    FindConcat(pre, blk, id);
    FindConcat(pre + blk, post, id);
  }

  lemma FindMcq(id: string, k: nat)
    requires k < |McqBlock| && McqBlock[k].challengeId == id
    requires forall j :: 0 <= j < k ==> McqBlock[j].challengeId != id
    ensures Find(Questions, id) == Some(McqBlock[k])
  {
    assert Questions == [] + McqBlock + (EmojiBlock + ReactionBlock + TypingBlock);
    FindAcross([], McqBlock, EmojiBlock + ReactionBlock + TypingBlock, id, k);
  }

  lemma FindEmoji(id: string, k: nat)
    requires k < |EmojiBlock| && EmojiBlock[k].challengeId == id
    requires forall j :: 0 <= j < k ==> EmojiBlock[j].challengeId != id
    requires forall i :: 0 <= i < |McqBlock| ==> McqBlock[i].challengeId != id
    ensures Find(Questions, id) == Some(EmojiBlock[k])
  {
    assert Questions == McqBlock + EmojiBlock + (ReactionBlock + TypingBlock);
    FindAcross(McqBlock, EmojiBlock, ReactionBlock + TypingBlock, id, k);
  }

  lemma FindReaction(id: string, k: nat)
    requires k < |ReactionBlock| && ReactionBlock[k].challengeId == id
    requires forall j :: 0 <= j < k ==> ReactionBlock[j].challengeId != id
    requires forall i :: 0 <= i < |McqBlock + EmojiBlock| ==> (McqBlock + EmojiBlock)[i].challengeId != id
    ensures Find(Questions, id) == Some(ReactionBlock[k])
  {
    FindAcross(McqBlock + EmojiBlock, ReactionBlock, TypingBlock, id, k);
  }

  lemma FindTyping(id: string, k: nat)
    requires k < |TypingBlock| && TypingBlock[k].challengeId == id
    requires forall j :: 0 <= j < k ==> TypingBlock[j].challengeId != id
    requires forall i :: 0 <= i < |McqBlock + EmojiBlock + ReactionBlock| ==>
      (McqBlock + EmojiBlock + ReactionBlock)[i].challengeId != id
    ensures Find(Questions, id) == Some(TypingBlock[k])
  {
    assert Questions == McqBlock + EmojiBlock + ReactionBlock + TypingBlock + [];
    FindAcross(McqBlock + EmojiBlock + ReactionBlock, TypingBlock, [], id, k);
  }

  /** Four challenges, one of each type in the order mcq, emoji, reaction, typing, with distinct ids. */
  predicate WellShaped(s: seq<Challenge>) {
    && |s| == 4
    && s[0].kind == Mcq && s[1].kind == EmojiPuzzle && s[2].kind == Reaction && s[3].kind == Typing
    && forall i, j :: 0 <= i < j < |s| ==> s[i].challengeId != s[j].challengeId
  }

  // One lookup per lemma: each `!` of the session definitions finds its challenge.
  lemma FoundMcq001() ensures Find(Questions, "mcq-001") == Some(Mcq001) { FindMcq("mcq-001", 0); }
  lemma FoundMcq003() ensures Find(Questions, "mcq-003") == Some(Mcq003) { FindMcq("mcq-003", 2); }
  lemma FoundMcq004() ensures Find(Questions, "mcq-004") == Some(Mcq004) { FindMcq("mcq-004", 3); }
  lemma FoundEmoji001() ensures Find(Questions, "emoji-001") == Some(Emoji001) { FindEmoji("emoji-001", 0); }
  lemma FoundEmoji002() ensures Find(Questions, "emoji-002") == Some(Emoji002) { FindEmoji("emoji-002", 1); }
  lemma FoundEmoji003() ensures Find(Questions, "emoji-003") == Some(Emoji003) { FindEmoji("emoji-003", 2); }
  lemma FoundEmoji005() ensures Find(Questions, "emoji-005") == Some(Emoji005) { FindEmoji("emoji-005", 4); }
  lemma FoundReaction001() ensures Find(Questions, "reaction-001") == Some(Reaction001) { FindReaction("reaction-001", 0); }
  lemma FoundReaction002() ensures Find(Questions, "reaction-002") == Some(Reaction002) { FindReaction("reaction-002", 1); }
  lemma FoundReaction003() ensures Find(Questions, "reaction-003") == Some(Reaction003) { FindReaction("reaction-003", 2); }
  lemma FoundTyping001() ensures Find(Questions, "typing-001") == Some(Typing001) { FindTyping("typing-001", 0); }
  lemma FoundTyping002() ensures Find(Questions, "typing-002") == Some(Typing002) { FindTyping("typing-002", 1); }
  lemma FoundTyping004() ensures Find(Questions, "typing-004") == Some(Typing004) { FindTyping("typing-004", 3); }

  /** Each challenge of a session is taken from the catalogue block of its type. */
  predicate FromCatalogue(s: seq<Challenge>) {
    |s| == 4 && s[0] in McqBlock && s[1] in EmojiBlock && s[2] in ReactionBlock && s[3] in TypingBlock
  }

  lemma FromCatalogueInQuestions(s: seq<Challenge>)
    requires FromCatalogue(s)
    ensures forall q :: q in s ==> q in Questions
  {
    forall q | q in s ensures q in Questions {
      assert q == s[0] || q == s[1] || q == s[2] || q == s[3];
    }
  }

  lemma DefaultSessionShape()
    ensures WellShaped([Mcq003, Emoji001, Reaction001, Typing001]) && FromCatalogue([Mcq003, Emoji001, Reaction001, Typing001])
  {
  }

  /** `gameSession`: the default four-challenge session. */
  function DefaultSession(): (s: seq<Challenge>)
    ensures s == [Mcq003, Emoji001, Reaction001, Typing001]
    ensures WellShaped(s) && FromCatalogue(s)
  {
    FoundMcq003();
    FoundEmoji001();
    FoundReaction001();
    FoundTyping001();
    DefaultSessionShape();
    [ Find(Questions, "mcq-003").value,
      Find(Questions, "emoji-001").value,
      Find(Questions, "reaction-001").value,
      Find(Questions, "typing-001").value ]
  }

  lemma EasyVariantShape()
    ensures WellShaped([Mcq001, Emoji003, Reaction001, Typing001]) && FromCatalogue([Mcq001, Emoji003, Reaction001, Typing001])
  {
  }

  /** The first of `gameSessionVariants` (easy). */
  function EasyVariant(): (s: seq<Challenge>)
    ensures s == [Mcq001, Emoji003, Reaction001, Typing001]
    ensures WellShaped(s) && FromCatalogue(s)
  {
    FoundMcq001();
    FoundEmoji003();
    FoundReaction001();
    FoundTyping001();
    EasyVariantShape();
    [ Find(Questions, "mcq-001").value,
      Find(Questions, "emoji-003").value,
      Find(Questions, "reaction-001").value,
      Find(Questions, "typing-001").value ]
  }

  lemma MediumVariantShape()
    ensures WellShaped([Mcq004, Emoji002, Reaction002, Typing002]) && FromCatalogue([Mcq004, Emoji002, Reaction002, Typing002])
  {
  }

  /** The second of `gameSessionVariants` (medium). */
  function MediumVariant(): (s: seq<Challenge>)
    ensures s == [Mcq004, Emoji002, Reaction002, Typing002]
    ensures WellShaped(s) && FromCatalogue(s)
  {
    FoundMcq004();
    FoundEmoji002();
    FoundReaction002();
    FoundTyping002();
    MediumVariantShape();
    [ Find(Questions, "mcq-004").value,
      Find(Questions, "emoji-002").value,
      Find(Questions, "reaction-002").value,
      Find(Questions, "typing-002").value ]
  }

  lemma HardVariantShape()
    ensures WellShaped([Mcq003, Emoji005, Reaction003, Typing004]) && FromCatalogue([Mcq003, Emoji005, Reaction003, Typing004])
  {
  }

  /** The third of `gameSessionVariants` (hard). */
  function HardVariant(): (s: seq<Challenge>)
    ensures s == [Mcq003, Emoji005, Reaction003, Typing004]
    ensures WellShaped(s) && FromCatalogue(s)
  {
    FoundMcq003();
    FoundEmoji005();
    FoundReaction003();
    FoundTyping004();
    HardVariantShape();
    [ Find(Questions, "mcq-003").value,
      Find(Questions, "emoji-005").value,
      Find(Questions, "reaction-003").value,
      Find(Questions, "typing-004").value ]
  }

  /** `gameSessionVariants`: three sessions, listed as easy, medium and hard. */
  function SessionVariants(): (vs: seq<seq<Challenge>>)
    ensures |vs| == 3
    ensures WellShaped(vs[0]) && WellShaped(vs[1]) && WellShaped(vs[2])
    ensures FromCatalogue(vs[0]) && FromCatalogue(vs[1]) && FromCatalogue(vs[2])
  {
    [EasyVariant(), MediumVariant(), HardVariant()]
  }

  /** `Array.prototype.filter` on the challenge type. */
  function OfType(qs: seq<Challenge>, t: ChallengeType): seq<Challenge> {
    if qs == [] then []
    else (if qs[0].kind == t then [qs[0]] else []) + OfType(qs[1..], t)
  }

  /** `a` is `b` with some elements left out, the rest in their order. */
  predicate IsSubsequence(a: seq<Challenge>, b: seq<Challenge>)
    decreases |b|
  {
    if a == [] then true
    else if b == [] then false
    else if a[0] == b[0] then IsSubsequence(a[1..], b[1..])
    else IsSubsequence(a, b[1..])
  }

  lemma {:induction false} OfTypeExactly(qs: seq<Challenge>, t: ChallengeType)
    ensures forall q :: q in OfType(qs, t) <==> q in qs && q.kind == t
    ensures IsSubsequence(OfType(qs, t), qs)
  {
    if qs != [] {
      OfTypeExactly(qs[1..], t);
      assert forall q :: q in qs <==> q == qs[0] || q in qs[1..];
      var rest := OfType(qs[1..], t);
      if qs[0].kind == t {
        assert ([qs[0]] + rest)[1..] == rest;
      } else {
        assert OfType(qs, t) == rest;
        if rest != [] {
          assert rest[0] in rest;
          assert rest[0] != qs[0];
        }
      }
    }
  }

  lemma {:induction false} OfTypeSplit(a: seq<Challenge>, b: seq<Challenge>, t: ChallengeType)
    ensures OfType(a + b, t) == OfType(a, t) + OfType(b, t)
  {
    if a != [] {
      assert (a + b)[1..] == a[1..] + b;
      OfTypeSplit(a[1..], b, t);
    } else {
      assert a + b == b;
    }
  }

  lemma {:induction false} OfTypeAll(qs: seq<Challenge>, t: ChallengeType, keep: bool)
    requires forall i :: 0 <= i < |qs| ==> (qs[i].kind == t) == keep
    ensures OfType(qs, t) == if keep then qs else []
  {
    if qs != [] {
      OfTypeAll(qs[1..], t, keep);
    }
  }

  /** `getMCQQuestions`: the five multiple-choice questions, in catalogue order. */
  function GetMCQQuestions(): (r: seq<Challenge>)
    ensures forall q :: q in r <==> q in Questions && q.kind == Mcq
    ensures IsSubsequence(r, Questions)
    ensures r == McqBlock
  {
    OfTypeExactly(Questions, Mcq);
    McqBlockOnly();
    OfType(Questions, Mcq)
  }

  /** `getEmojiQuestions`: the five emoji puzzles, in catalogue order. */
  function GetEmojiQuestions(): (r: seq<Challenge>)
    ensures forall q :: q in r <==> q in Questions && q.kind == EmojiPuzzle
    ensures IsSubsequence(r, Questions)
    ensures r == EmojiBlock
  {
    OfTypeExactly(Questions, EmojiPuzzle);
    EmojiBlockOnly();
    OfType(Questions, EmojiPuzzle)
  }

  predicate AllOfKind(qs: seq<Challenge>, t: ChallengeType) {
    forall i :: 0 <= i < |qs| ==> qs[i].kind == t
  }

  lemma McqBlockKinds() ensures AllOfKind(McqBlock, Mcq) { }
  lemma EmojiBlockKinds() ensures AllOfKind(EmojiBlock, EmojiPuzzle) { }
  lemma ReactionBlockKinds() ensures AllOfKind(ReactionBlock, Reaction) { }
  lemma TypingBlockKinds() ensures AllOfKind(TypingBlock, Typing) { }

  /** Filtering four single-type blocks keeps exactly the blocks of the filtered type. */
  lemma OfTypeOfBlocks(a: seq<Challenge>, b: seq<Challenge>, c: seq<Challenge>, d: seq<Challenge>,
                       ta: ChallengeType, tb: ChallengeType, tc: ChallengeType, td: ChallengeType, t: ChallengeType)
    requires AllOfKind(a, ta) && AllOfKind(b, tb) && AllOfKind(c, tc) && AllOfKind(d, td)
    ensures OfType(a + b + c + d, t) ==
      (if ta == t then a else []) + (if tb == t then b else []) + (if tc == t then c else []) + (if td == t then d else [])
  {
    OfTypeSplit(a + b + c, d, t);
    OfTypeSplit(a + b, c, t);
    OfTypeSplit(a, b, t);
    OfTypeAll(a, t, ta == t);
    OfTypeAll(b, t, tb == t);
    OfTypeAll(c, t, tc == t);
    OfTypeAll(d, t, td == t);
  }

  /** The catalogue holds the multiple-choice questions in one leading block. */
  lemma McqBlockOnly()
    ensures OfType(Questions, Mcq) == McqBlock
  {
    McqBlockKinds();
    EmojiBlockKinds();
    ReactionBlockKinds();
    TypingBlockKinds();
    OfTypeOfBlocks(McqBlock, EmojiBlock, ReactionBlock, TypingBlock, Mcq, EmojiPuzzle, Reaction, Typing, Mcq);
    assert McqBlock + [] + [] + [] == McqBlock;
  }

  /** The catalogue holds the emoji puzzles in one block after the multiple-choice ones. */
  lemma EmojiBlockOnly()
    ensures OfType(Questions, EmojiPuzzle) == EmojiBlock
  {
    McqBlockKinds();
    EmojiBlockKinds();
    ReactionBlockKinds();
    TypingBlockKinds();
    OfTypeOfBlocks(McqBlock, EmojiBlock, ReactionBlock, TypingBlock, Mcq, EmojiPuzzle, Reaction, Typing, EmojiPuzzle);
    assert [] + EmojiBlock + [] + [] == EmojiBlock;
  }

  /** `getRandomGameSession`: one of the three variants. */
  function GetRandomGameSession(r: real): (s: seq<Challenge>)
    requires IsRandom(r)
    ensures s in SessionVariants() && WellShaped(s) && FromCatalogue(s)
  {
    var vs := SessionVariants();
    var i := RandomIndex(r, |vs|);
    if i == 0 then vs[0] else if i == 1 then vs[1] else vs[2]
  }

  /** `getRandomMCQ`: a multiple-choice question; the list it indexes is never empty. */
  function GetRandomMCQ(r: real): (q: Challenge)
    requires IsRandom(r)
    ensures q in GetMCQQuestions() && q.kind == Mcq
  {
    var mcqs := GetMCQQuestions();
    mcqs[RandomIndex(r, |mcqs|)]
  }
}
