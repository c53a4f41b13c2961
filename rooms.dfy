/**
 * Room documents of collections.ts: `rooms/{code}` with its `players` subcollection,
 * the invariant the join, leave and kick transactions are meant to keep between the
 * two, and the room values those transactions write.
 */
module Rooms {
  import opened Wrappers
  import opened FieldTransforms
  import opened Challenges
  import opened Players

  datatype Status = Waiting | Active | Completed | Cancelled

  datatype Settings = Settings(timeLimit: int, difficulty: Difficulty, allowSpectators: bool, isPrivate: bool)

  /** A `Partial` of the settings; `None` is a key the caller left out. */
  datatype SettingsPatch = SettingsPatch(
    timeLimit: Option<int>,
    difficulty: Option<Difficulty>,
    allowSpectators: Option<bool>,
    isPrivate: Option<bool>)

  datatype ScoreEntry = ScoreEntry(playerId: string, playerName: string, score: int)

  datatype Results = Results(winnerId: string, winnerName: string, topScores: seq<ScoreEntry>)

  /** An entry of `templatesAvailable`: the first template found for a difficulty. */
  datatype TemplateRef = TemplateRef(templateId: string, difficulty: Difficulty, challenges: seq<string>)

  datatype Room = Room(
    roomId: string,
    hostId: string,
    hostName: string,
    status: Status,
    gameType: string,
    maxPlayers: int,
    currentPlayers: int,
    playerIds: seq<string>,
    currentChallengeIndex: int,
    totalChallenges: int,
    settings: Settings,
    results: Option<Results>,
    templatesAvailable: Option<seq<TemplateRef>>)

  /** A `rooms/{code}/players/{uid}` document. */
  datatype RoomPlayer = RoomPlayer(
    playerId: string,
    displayName: string,
    email: string,
    photoURL: string,
    totalScore: int,
    isHost: bool,
    currentChallengeIndex: int,
    completedChallenges: seq<string>,
    isReady: bool)

  /**
   * A room agrees with its subcollection: the counter is the number of ids, ids are
   * distinct, the member documents are exactly those of the ids, the room is not over
   * capacity, and only the host's document is marked as host.
   */
  predicate Consistent(room: Room, members: map<string, RoomPlayer>) {
    && room.currentPlayers == |room.playerIds|
    && NoDuplicates(room.playerIds)
    && (forall id :: id in members ==> id in room.playerIds)
    && (forall id :: id in room.playerIds ==> id in members)
    && room.currentPlayers <= room.maxPlayers
    && (forall id :: id in members ==> members[id].playerId == id)
    && (forall id :: id in members && members[id].isHost ==> id == room.hostId)
  }

  /** The room `createRoom` writes: eight seats, the host seated, default settings. */
  function NewRoom(code: string, hostId: string, host: PlayerData, gameType: string): (r: Room)
    ensures r.roomId == code && r.hostId == hostId && r.status == Waiting
    ensures r.playerIds == [hostId] && r.currentPlayers == 1 && r.maxPlayers == 8
    ensures r.hostName == if host.displayName == "" then "Unknown Host" else host.displayName
  {
    Room(code, hostId, OrElse(host.displayName, "Unknown Host"), Waiting, gameType, 8, 1, [hostId],
         0, 4, Settings(30, Medium, true, false), None, None)
  }

  /** The host's member document: ready, marked as host, no score yet. */
  function HostMember(hostId: string, host: PlayerData): (m: RoomPlayer)
    ensures m.playerId == hostId && m.isHost && m.isReady && m.totalScore == 0
  {
    RoomPlayer(hostId, host.displayName, host.email, host.photoURL, 0, true, 0, [], true)
  }

  /** A joining player's member document: not host, not ready, no score yet. */
  function JoinedMember(playerId: string, p: PlayerData): (m: RoomPlayer)
    ensures m.playerId == playerId && !m.isHost && !m.isReady && m.totalScore == 0
  {
    RoomPlayer(playerId, p.displayName, p.email, p.photoURL, 0, false, 0, [], false)
  }

  /** `increment(1)` on the counter and `arrayUnion(playerId)` on the ids. */
  function Joined(room: Room, playerId: string): (r: Room)
    ensures r.currentPlayers == room.currentPlayers + 1
    ensures forall id :: id in r.playerIds <==> id in room.playerIds || id == playerId
    ensures r.(currentPlayers := room.currentPlayers, playerIds := room.playerIds) == room
  {
    room.(currentPlayers := room.currentPlayers + 1, playerIds := ArrayUnion(room.playerIds, playerId))
  }

  /** `increment(-1)` on the counter and `arrayRemove(playerId)` on the ids. */
  function Left(room: Room, playerId: string): (r: Room)
    ensures r.currentPlayers == room.currentPlayers - 1
    ensures forall id :: id in r.playerIds <==> id in room.playerIds && id != playerId
    ensures r.(currentPlayers := room.currentPlayers, playerIds := room.playerIds) == room
  {
    room.(currentPlayers := room.currentPlayers - 1, playerIds := ArrayRemove(room.playerIds, playerId))
  }

  /** Only the keys present in the patch are written. */
  function Patched(s: Settings, p: SettingsPatch): (t: Settings)
    ensures p.timeLimit.None? ==> t.timeLimit == s.timeLimit
    ensures p.timeLimit.Some? ==> t.timeLimit == p.timeLimit.value
    ensures p.difficulty.None? ==> t.difficulty == s.difficulty
    ensures p.difficulty.Some? ==> t.difficulty == p.difficulty.value
    ensures p.allowSpectators.None? ==> t.allowSpectators == s.allowSpectators
    ensures p.allowSpectators.Some? ==> t.allowSpectators == p.allowSpectators.value
    ensures p.isPrivate.None? ==> t.isPrivate == s.isPrivate
    ensures p.isPrivate.Some? ==> t.isPrivate == p.isPrivate.value
  {
    Settings(Supplied(p.timeLimit, s.timeLimit), Supplied(p.difficulty, s.difficulty),
             Supplied(p.allowSpectators, s.allowSpectators), Supplied(p.isPrivate, s.isPrivate))
  }

  lemma PatchedIdempotent(s: Settings, p: SettingsPatch)
    ensures Patched(Patched(s, p), p) == Patched(s, p)
  {
  }

  lemma NewRoomConsistent(code: string, hostId: string, host: PlayerData, gameType: string)
    ensures Consistent(NewRoom(code, hostId, host, gameType), map[hostId := HostMember(hostId, host)])
  {
  }

  /** A successful join keeps a room consistent and seats exactly one more player. */
  lemma JoinKeepsConsistent(room: Room, members: map<string, RoomPlayer>, playerId: string, p: PlayerData)
    requires Consistent(room, members)
    requires room.currentPlayers < room.maxPlayers && playerId !in room.playerIds
    ensures Consistent(Joined(room, playerId), members[playerId := JoinedMember(playerId, p)])
    ensures |Joined(room, playerId).playerIds| == |room.playerIds| + 1
  {
    ArrayUnionKeepsNoDuplicates(room.playerIds, playerId);
  }

  /** A successful leave or kick keeps a room consistent and seats exactly one fewer player. */
  lemma LeaveKeepsConsistent(room: Room, members: map<string, RoomPlayer>, playerId: string)
    requires Consistent(room, members)
    requires playerId in room.playerIds
    ensures Consistent(Left(room, playerId), members - {playerId})
    ensures |Left(room, playerId).playerIds| == |room.playerIds| - 1
  {
    ArrayRemoveOnce(room.playerIds, playerId);
  }

  /** Joining then leaving restores the seat count and the set of seated players. */
  lemma JoinThenLeave(room: Room, playerId: string)
    requires playerId !in room.playerIds
    ensures Left(Joined(room, playerId), playerId).currentPlayers == room.currentPlayers
    ensures forall id :: id in Left(Joined(room, playerId), playerId).playerIds <==> id in room.playerIds
  {
  }

  /**
   * `createRoom` as written: the room document is overwritten and the host's member
   * document is set, but member documents already under the same code are kept.
   */
  function CreateMembersAsWritten(members: map<string, map<string, RoomPlayer>>, code: string,
                                  hostId: string, host: PlayerData): (ms: map<string, map<string, RoomPlayer>>)
    ensures code in ms && hostId in ms[code] && ms[code][hostId] == HostMember(hostId, host)
    ensures code in members ==> forall id :: id in members[code] && id != hostId ==>
      id in ms[code] && ms[code][id] == members[code][id]
    ensures forall c :: c in members && c != code ==> c in ms && ms[c] == members[c]
    ensures ms.Keys == members.Keys + {code}
  {
    var existing := if code in members then members[code] else map[];
    members[code := existing[hostId := HostMember(hostId, host)]]
  }

  /**
   * When the drawn code is already taken by a room with another player, the as-written
   * creation leaves a room whose subcollection disagrees with its ids.
   */
  lemma CollisionBreaksConsistency(members: map<string, map<string, RoomPlayer>>, code: string,
                                   hostId: string, host: PlayerData, gameType: string, other: string)
    requires code in members && other in members[code] && other != hostId
    ensures !Consistent(NewRoom(code, hostId, host, gameType), CreateMembersAsWritten(members, code, hostId, host)[code])
  {
    var ms := CreateMembersAsWritten(members, code, hostId, host)[code];
    assert other in ms;
    assert other !in NewRoom(code, hostId, host, gameType).playerIds;
  }

  /** A concrete case: room "ABC123" seats "p2"; host "h" draws the same code. */
  lemma CollisionExample()
    ensures var host := NewPlayer(User("h", "Host", "", "", false));
      var members := map["ABC123" := map["p2" := JoinedMember("p2", NewPlayer(User("p2", "", "", "", true)))]];
      !Consistent(NewRoom("ABC123", "h", host, "mixed"), CreateMembersAsWritten(members, "ABC123", "h", host)["ABC123"])
  {
    var host := NewPlayer(User("h", "Host", "", "", false));
    var members := map["ABC123" := map["p2" := JoinedMember("p2", NewPlayer(User("p2", "", "", "", true)))]];
    CollisionBreaksConsistency(members, "ABC123", "h", host, "mixed", "p2");
  }
}
