/**
 * The Firestore collections of collections.ts as one store: `players/{uid}`,
 * `rooms/{code}` with `rooms/{code}/players/{uid}`, and the read-only `gameTemplates`.
 * Each transaction is a method; a failed guard throws before anything is written,
 * so every error leaves the store unchanged.
 */
module Collections {
  import opened Wrappers
  import opened FieldTransforms
  import opened Challenges
  import opened Players
  import opened Rooms
  import opened RoomCodes
  import opened SeedGameData

  datatype Error =
    | InvalidUser
    | PlayerNotFound
    | HostDataNotFound
    | CodeInUse
    | MissingArguments
    | RoomNotFound
    | NotAccepting
    | RoomFull(maxPlayers: int)
    | AlreadyInRoom
    | PlayerDataNotFound
    | PlayerNotInRoom
    | NotHost(action: string)
    | HostCannotBeKicked
    | KickTargetNotInRoom
    | NoPlayers
    | SettingsLocked
    | NoDocumentToUpdate

  function IntToString(n: int): string {
    if n < 0 then "-" + NatToString(-n) else NatToString(n)
  }

  /** The text each guard throws with. */
  function Message(e: Error): string {
    match e
    case InvalidUser => "Invalid user object"
    case PlayerNotFound => "Player not found"
    case HostDataNotFound => "Host player data not found"
    case CodeInUse => "Room code already in use"
    case MissingArguments => "Room code and player ID are required"
    case RoomNotFound => "Room not found"
    case NotAccepting => "Room is not accepting new players. Game has already started."
    case RoomFull(m) => "Room is full (" + IntToString(m) + "/" + IntToString(m) + " players)"
    case AlreadyInRoom => "You are already in this room"
    case PlayerDataNotFound => "Player data not found"
    case PlayerNotInRoom => "Player not in room"
    case NotHost(action) => "Only the host can " + action
    case HostCannotBeKicked => "Host cannot be kicked"
    case KickTargetNotInRoom => "Player is not in this room"
    case NoPlayers => "Cannot start game with no players"
    case SettingsLocked => "Cannot change settings after game has started"
    case NoDocumentToUpdate => "No document to update"
  }

  predicate OccursAt(s: string, part: string, i: int) {
    0 <= i && i + |part| <= |s| && s[i..i + |part|] == part
  }

  predicate Contains(s: string, part: string) {
    exists i :: 0 <= i <= |s| - |part| && OccursAt(s, part, i)
  }

  /** The `catch` of `joinRoom`: any message mentioning "not found" is reported as a wrong code. */
  function JoinRoomMessage(e: Error): (m: string)
    ensures Contains(Message(e), "not found") ==> m == "Room not found. Please check the room code."
    ensures !Contains(Message(e), "not found") ==> m == Message(e)
  {
    if Contains(Message(e), "not found") then "Room not found. Please check the room code." else Message(e)
  }

  /** A joiner whose profile is missing is told the room code is wrong. */
  lemma MissingProfileReportedAsWrongCode()
    ensures JoinRoomMessage(PlayerDataNotFound) == JoinRoomMessage(RoomNotFound)
    ensures JoinRoomMessage(PlayerDataNotFound) == "Room not found. Please check the room code."
  {
    assert OccursAt(Message(PlayerDataNotFound), "not found", 12);
    assert OccursAt(Message(RoomNotFound), "not found", 5);
  }

  /** The query `where('difficulty', '==', d), limit(1)`: the first template of that difficulty. */
  function FirstOfDifficulty(ts: seq<SessionTemplate>, d: Difficulty): (r: Option<SessionTemplate>)
    ensures r.Some? ==> r.value in ts && r.value.difficulty == d
    ensures r.None? ==> forall t :: t in ts ==> t.difficulty != d
  {
    if ts == [] then None
    else if ts[0].difficulty == d then Some(ts[0])
    else FirstOfDifficulty(ts[1..], d)
  }

  /** The `sessions` the template loop of `createRoom` collects for the difficulties `ds`. */
  function AvailableTemplates(ts: seq<SessionTemplate>, ds: seq<Difficulty>): (r: seq<TemplateRef>)
    ensures |r| <= |ds|
    ensures ts == [] ==> r == []
  {
    if ds == [] then []
    else
      var found := FirstOfDifficulty(ts, ds[|ds| - 1]);
      AvailableTemplates(ts, ds[..|ds| - 1])
        + (if found.Some? then [TemplateRef(found.value.templateId, ds[|ds| - 1], found.value.challenges)] else [])
  }

  /**
   * Every collected entry names a stored template of its difficulty, and every
   * difficulty some stored template has is collected.
   */
  lemma {:induction false} AvailableTemplatesExactly(ts: seq<SessionTemplate>, ds: seq<Difficulty>)
    ensures |AvailableTemplates(ts, ds)| <= |ds|
    ensures forall r :: r in AvailableTemplates(ts, ds) ==>
      && r.difficulty in ds
      && (exists t :: t in ts && t.difficulty == r.difficulty && t.templateId == r.templateId && t.challenges == r.challenges)
    ensures forall d, t :: d in ds && t in ts && t.difficulty == d ==>
      exists r :: r in AvailableTemplates(ts, ds) && r.difficulty == d
  {
    if ds != [] {
      var init, d := ds[..|ds| - 1], ds[|ds| - 1];
      AvailableTemplatesExactly(ts, init);
      assert ds == init + [d];
      var found := FirstOfDifficulty(ts, d);
      if found.Some? {
        var entry := TemplateRef(found.value.templateId, d, found.value.challenges);
        assert entry in AvailableTemplates(ts, ds);
      }
    }
  }

  lemma {:induction false} FirstAt(ts: seq<SessionTemplate>, d: Difficulty, k: nat)
    requires k < |ts| && ts[k].difficulty == d && forall j :: 0 <= j < k ==> ts[j].difficulty != d
    ensures FirstOfDifficulty(ts, d) == Some(ts[k])
  {
    if k > 0 {
      FirstAt(ts[1..], d, k - 1);
    }
  }

  /** Templates seeded with distinct difficulties, in the order queried, are all offered, in that order. */
  lemma {:induction false} AllAvailable(ts: seq<SessionTemplate>, ds: seq<Difficulty>)
    requires |ds| <= |ts|
    requires forall i :: 0 <= i < |ds| ==> ts[i].difficulty == ds[i]
    requires forall i, j :: 0 <= i < j < |ds| ==> ds[i] != ds[j]
    ensures |AvailableTemplates(ts, ds)| == |ds|
    ensures forall i :: 0 <= i < |ds| ==>
      AvailableTemplates(ts, ds)[i] == TemplateRef(ts[i].templateId, ds[i], ts[i].challenges)
  {
    if ds != [] {
      var k := |ds| - 1;
      AllAvailable(ts, ds[..k]);
      FirstAt(ts, ds[k], k);
    }
  }

  /** Three templates of distinct difficulties, queried in their own order, are each offered. */
  lemma ThreeAvailable(ts: seq<SessionTemplate>)
    requires |ts| == 3
    requires ts[0].difficulty != ts[1].difficulty && ts[0].difficulty != ts[2].difficulty && ts[1].difficulty != ts[2].difficulty
    ensures var found := AvailableTemplates(ts, [ts[0].difficulty, ts[1].difficulty, ts[2].difficulty]);
      && |found| == 3
      && found[0] == TemplateRef(ts[0].templateId, ts[0].difficulty, ts[0].challenges)
      && found[1] == TemplateRef(ts[1].templateId, ts[1].difficulty, ts[1].challenges)
      && found[2] == TemplateRef(ts[2].templateId, ts[2].difficulty, ts[2].challenges)
  {
    AllAvailable(ts, [ts[0].difficulty, ts[1].difficulty, ts[2].difficulty]);
  }

  /** `arrayUnion(roomId)` on a profile's `activeRooms`. */
  function Activated(p: PlayerData, roomId: string): (q: PlayerData)
    ensures forall r :: r in q.activeRooms <==> r in p.activeRooms || r == roomId
    ensures roomId in p.activeRooms ==> q == p
    ensures q.(activeRooms := p.activeRooms) == p
  {
    p.(activeRooms := ArrayUnion(p.activeRooms, roomId))
  }

  /** The profiles after the loop of `startRoom`; a missing profile fails its update and is skipped. */
  function MarkActive(ps: map<string, PlayerData>, ids: seq<string>, roomId: string): (r: map<string, PlayerData>)
    ensures r.Keys == ps.Keys
  {
    if ids == [] then ps
    else
      var before := MarkActive(ps, ids[..|ids| - 1], roomId);
      var pid := ids[|ids| - 1];
      if pid in before then before[pid := Activated(before[pid], roomId)] else before
  }

  /** Exactly the listed players that have a profile gain the room, each once. */
  lemma {:induction false} MarkActiveExactly(ps: map<string, PlayerData>, ids: seq<string>, roomId: string)
    ensures MarkActive(ps, ids, roomId).Keys == ps.Keys
    ensures forall uid :: uid in ps ==>
      MarkActive(ps, ids, roomId)[uid] == if uid in ids then Activated(ps[uid], roomId) else ps[uid]
  {
    if ids != [] {
      var init, pid := ids[..|ids| - 1], ids[|ids| - 1];
      MarkActiveExactly(ps, init, roomId);
      assert ids == init + [pid];
      if pid in ps {
        ArrayUnionIdempotent(ps[pid].activeRooms, roomId);
      }
    }
  }

  class Store {
    var players: map<string, PlayerData>
    var rooms: map<string, Room>
    var members: map<string, map<string, RoomPlayer>>
    var templates: seq<SessionTemplate>

    /** Every room has a subcollection, is stored under its own code, and agrees with it. */
    predicate Valid()
      reads this
    {
      && rooms.Keys == members.Keys
      && forall code :: code in rooms ==> rooms[code].roomId == code && Consistent(rooms[code], members[code])
    }

    constructor(templates: seq<SessionTemplate>)
      ensures Valid()
      ensures players == map[] && rooms == map[] && members == map[] && this.templates == templates
    {
      players := map[];
      rooms := map[];
      members := map[];
      this.templates := templates;
    }

    /** `createOrUpdatePlayer`: a first sign-in creates the profile, a later one refreshes it. */
    method CreateOrUpdatePlayer(user: Option<User>) returns (res: Result<(), Error>)
      requires Valid()
      modifies this
      ensures Valid()
      ensures rooms == old(rooms) && members == old(members) && templates == old(templates)
      ensures user.None? || user.value.uid == "" ==> res == Err(InvalidUser) && players == old(players)
      ensures user.Some? && user.value.uid != "" ==>
        && res.Ok?
        && players == old(players)[user.value.uid :=
             if user.value.uid in old(players) then SignedInAgain(old(players)[user.value.uid], user.value)
             else NewPlayer(user.value)]
    {
      if user.None? || user.value.uid == "" {
        return Err(InvalidUser);
      }
      var u := user.value;
      if u.uid in players {
        players := players[u.uid := SignedInAgain(players[u.uid], u)];
      } else {
        players := players[u.uid := NewPlayer(u)];
      }
      res := Ok(());
    }

    /** `updatePlayerStats`: the supplied fields and the statistics derived from them. */
    method UpdatePlayerStats(uid: string, stats: StatsUpdate) returns (res: Result<(), Error>)
      requires Valid()
      modifies this
      ensures Valid()
      ensures rooms == old(rooms) && members == old(members) && templates == old(templates)
      ensures uid !in old(players) ==> res == Err(PlayerNotFound) && players == old(players)
      ensures uid in old(players) ==> res.Ok? && players == old(players)[uid := ApplyStats(old(players)[uid], stats)]
    {
      if uid !in players {
        return Err(PlayerNotFound);
      }
      players := players[uid := ApplyStats(players[uid], stats)];
      res := Ok(());
    }

    /**
     * `createRoom`, corrected to refuse a drawn code that is already a room. On success
     * the new room is seated with its host alone and, if the template query succeeded
     * and found any, carries the first template of each difficulty.
     */
    method CreateRoom(hostId: string, gameType: string, draws: seq<real>, templatesReadable: bool)
      returns (res: Result<string, Error>)
      requires Valid() && ValidDraws(draws)
      modifies this
      ensures Valid()
      ensures players == old(players) && templates == old(templates)
      ensures res.Err? ==> rooms == old(rooms) && members == old(members)
      ensures hostId !in old(players) ==> res == Err(HostDataNotFound)
      ensures hostId in old(players) && CodeFor(draws) in old(rooms) ==> res == Err(CodeInUse)
      ensures hostId in old(players) && CodeFor(draws) !in old(rooms) ==> res == Ok(CodeFor(draws))
      ensures res.Ok? ==> IsRoomCode(res.value) && res.value !in old(rooms) && hostId in old(players)
      ensures res.Ok? ==>
        var code := res.value;
        var found := if templatesReadable then AvailableTemplates(templates, [Easy, Medium, Hard]) else [];
        var room := NewRoom(code, hostId, old(players)[hostId], gameType);
        && rooms == old(rooms)[code := if found == [] then room else room.(templatesAvailable := Some(found))]
        && members == old(members)[code := map[hostId := HostMember(hostId, old(players)[hostId])]]
      ensures res.Err? ==> res.error == HostDataNotFound || res.error == CodeInUse
    {
      var code := GenerateRoomCode(draws);
      if hostId !in players {
        return Err(HostDataNotFound);
      }
      if code in rooms {
        return Err(CodeInUse);
      }
      var host := players[hostId];
      var room := NewRoom(code, hostId, host, gameType);
      NewRoomConsistent(code, hostId, host, gameType);
      var sessions: seq<TemplateRef> := [];
      if templatesReadable {
        sessions := CollectTemplates([Easy, Medium, Hard]);
      }
      if sessions != [] {
        room := room.(templatesAvailable := Some(sessions));
      }
      rooms := rooms[code := room];
      members := members[code := map[hostId := HostMember(hostId, host)]];
      res := Ok(code);
    }

    /** The template loop of `createRoom`: the first stored template of each difficulty, in the order asked. */
    method CollectTemplates(difficulties: seq<Difficulty>) returns (sessions: seq<TemplateRef>)
      ensures sessions == AvailableTemplates(templates, difficulties)
    {
      sessions := [];
      for i := 0 to |difficulties|
        invariant sessions == AvailableTemplates(templates, difficulties[..i])
      {
        assert difficulties[..i + 1][..i] == difficulties[..i];
        var t := FirstOfDifficulty(templates, difficulties[i]);
        if t.Some? {
          sessions := sessions + [TemplateRef(t.value.templateId, difficulties[i], t.value.challenges)];
        }
      }
      assert difficulties[..|difficulties|] == difficulties;
    }

    /** `joinRoom`: the guards in the order the transaction checks them, then one seat more. */
    method JoinRoom(roomCode: string, playerId: string) returns (res: Result<(), Error>)
      requires Valid()
      modifies this
      ensures Valid()
      ensures players == old(players) && templates == old(templates)
      ensures res.Err? ==> rooms == old(rooms) && members == old(members)
      ensures roomCode == "" || playerId == "" ==> res == Err(MissingArguments)
      ensures roomCode != "" && playerId != "" ==>
        if roomCode !in old(rooms) then res == Err(RoomNotFound)
        else
          var room := old(rooms)[roomCode];
          if room.status != Waiting then res == Err(NotAccepting)
          else if room.currentPlayers >= room.maxPlayers then res == Err(RoomFull(room.maxPlayers))
          else if playerId in room.playerIds then res == Err(AlreadyInRoom)
          else if playerId !in old(players) then res == Err(PlayerDataNotFound)
          else res.Ok?
      ensures res.Ok? ==>
        && rooms == old(rooms)[roomCode := Joined(old(rooms)[roomCode], playerId)]
        && members == old(members)[roomCode :=
             old(members)[roomCode][playerId := JoinedMember(playerId, old(players)[playerId])]]
        && playerId !in old(rooms)[roomCode].playerIds
    {
      if roomCode == "" || playerId == "" {
        return Err(MissingArguments);
      }
      if roomCode !in rooms {
        return Err(RoomNotFound);
      }
      var room := rooms[roomCode];
      if room.status != Waiting {
        return Err(NotAccepting);
      }
      if room.currentPlayers >= room.maxPlayers {
        return Err(RoomFull(room.maxPlayers));
      }
      if playerId in room.playerIds {
        return Err(AlreadyInRoom);
      }
      if playerId !in players {
        return Err(PlayerDataNotFound);
      }
      var member := JoinedMember(playerId, players[playerId]);
      JoinKeepsConsistent(room, members[roomCode], playerId, players[playerId]);
      members := members[roomCode := members[roomCode][playerId := member]];
      rooms := rooms[roomCode := Joined(room, playerId)];
      res := Ok(());
    }

    /** `leaveRoom`: a seated player gives up the seat and the member document. */
    method LeaveRoom(roomCode: string, playerId: string) returns (res: Result<(), Error>)
      requires Valid()
      modifies this
      ensures Valid()
      ensures players == old(players) && templates == old(templates)
      ensures res.Err? ==> rooms == old(rooms) && members == old(members)
      ensures roomCode !in old(rooms) ==> res == Err(RoomNotFound)
      ensures roomCode in old(rooms) && playerId !in old(rooms)[roomCode].playerIds ==> res == Err(PlayerNotInRoom)
      ensures roomCode in old(rooms) && playerId in old(rooms)[roomCode].playerIds ==>
        && res.Ok?
        && rooms == old(rooms)[roomCode := Left(old(rooms)[roomCode], playerId)]
        && members == old(members)[roomCode := old(members)[roomCode] - {playerId}]
    {
      if roomCode !in rooms {
        return Err(RoomNotFound);
      }
      var room := rooms[roomCode];
      if playerId !in room.playerIds || playerId !in members[roomCode] {
        return Err(PlayerNotInRoom);
      }
      LeaveKeepsConsistent(room, members[roomCode], playerId);
      members := members[roomCode := members[roomCode] - {playerId}];
      rooms := rooms[roomCode := Left(room, playerId)];
      res := Ok(());
    }

    /** `kickPlayer`: the host removes another seated player. */
    method KickPlayer(roomCode: string, hostId: string, playerIdToKick: string) returns (res: Result<(), Error>)
      requires Valid()
      modifies this
      ensures Valid()
      ensures players == old(players) && templates == old(templates)
      ensures res.Err? ==> rooms == old(rooms) && members == old(members)
      ensures
        if roomCode !in old(rooms) then res == Err(RoomNotFound)
        else
          var room := old(rooms)[roomCode];
          if room.hostId != hostId then res == Err(NotHost("kick players"))
          else if playerIdToKick == hostId then res == Err(HostCannotBeKicked)
          else if playerIdToKick !in room.playerIds then res == Err(KickTargetNotInRoom)
          else
            && res.Ok?
            && rooms == old(rooms)[roomCode := Left(room, playerIdToKick)]
            && members == old(members)[roomCode := old(members)[roomCode] - {playerIdToKick}]
    {
      if roomCode !in rooms {
        return Err(RoomNotFound);
      }
      var room := rooms[roomCode];
      if room.hostId != hostId {
        return Err(NotHost("kick players"));
      }
      if playerIdToKick == hostId {
        return Err(HostCannotBeKicked);
      }
      if playerIdToKick !in room.playerIds {
        return Err(KickTargetNotInRoom);
      }
      LeaveKeepsConsistent(room, members[roomCode], playerIdToKick);
      members := members[roomCode := members[roomCode] - {playerIdToKick}];
      rooms := rooms[roomCode := Left(room, playerIdToKick)];
      res := Ok(());
    }

    /**
     * `startRoom`: the host activates a room with at least one player (from any status),
     * then each seated player with a profile records the room in `activeRooms`.
     */
    method StartRoom(roomId: string, hostId: string) returns (res: Result<(), Error>)
      requires Valid()
      modifies this
      ensures Valid()
      ensures members == old(members) && templates == old(templates)
      ensures res.Err? ==> rooms == old(rooms) && players == old(players)
      ensures
        if roomId !in old(rooms) then res == Err(RoomNotFound)
        else
          var room := old(rooms)[roomId];
          if room.hostId != hostId then res == Err(NotHost("start the game"))
          else if room.currentPlayers < 1 then res == Err(NoPlayers)
          else
            && res.Ok?
            && rooms == old(rooms)[roomId := room.(status := Active)]
            && players == MarkActive(old(players), room.playerIds, roomId)
    {
      if roomId !in rooms {
        return Err(RoomNotFound);
      }
      var room := rooms[roomId];
      if room.hostId != hostId {
        return Err(NotHost("start the game"));
      }
      if room.currentPlayers < 1 {
        return Err(NoPlayers);
      }
      rooms := rooms[roomId := room.(status := Active)];
      MarkPlayersActive(room.playerIds, roomId);
      res := Ok(());
    }

    /** The loop of `startRoom`: each listed player's profile gains the room; a missing one is skipped. */
    method MarkPlayersActive(playerIds: seq<string>, roomId: string)
      modifies this
      ensures players == MarkActive(old(players), playerIds, roomId)
      ensures rooms == old(rooms) && members == old(members) && templates == old(templates)
    {
      for i := 0 to |playerIds|
        invariant players == MarkActive(old(players), playerIds[..i], roomId)
        invariant rooms == old(rooms) && members == old(members) && templates == old(templates)
      {
        assert playerIds[..i + 1][..i] == playerIds[..i];
        var pid := playerIds[i];
        if pid in players {
          players := players[pid := Activated(players[pid], roomId)];
        }
      }
      assert playerIds[..|playerIds|] == playerIds;
    }

    /** `endRoom`: any existing room is marked completed with its results; no host check. */
    method EndRoom(roomId: string, results: Results) returns (res: Result<(), Error>)
      requires Valid()
      modifies this
      ensures Valid()
      ensures players == old(players) && members == old(members) && templates == old(templates)
      ensures roomId !in old(rooms) ==> res == Err(NoDocumentToUpdate) && rooms == old(rooms)
      ensures roomId in old(rooms) ==>
        res.Ok? && rooms == old(rooms)[roomId := old(rooms)[roomId].(status := Completed, results := Some(results))]
    {
      if roomId !in rooms {
        return Err(NoDocumentToUpdate);
      }
      rooms := rooms[roomId := rooms[roomId].(status := Completed, results := Some(results))];
      res := Ok(());
    }

    /** `updateRoomSettings`: the host patches the settings of a waiting room. */
    method UpdateRoomSettings(roomId: string, hostId: string, patch: SettingsPatch) returns (res: Result<(), Error>)
      requires Valid()
      modifies this
      ensures Valid()
      ensures players == old(players) && members == old(members) && templates == old(templates)
      ensures res.Err? ==> rooms == old(rooms)
      ensures
        if roomId !in old(rooms) then res == Err(RoomNotFound)
        else
          var room := old(rooms)[roomId];
          if room.hostId != hostId then res == Err(NotHost("update room settings"))
          else if room.status != Waiting then res == Err(SettingsLocked)
          else res.Ok? && rooms == old(rooms)[roomId := room.(settings := Patched(room.settings, patch))]
    {
      if roomId !in rooms {
        return Err(RoomNotFound);
      }
      var room := rooms[roomId];
      if room.hostId != hostId {
        return Err(NotHost("update room settings"));
      }
      if room.status != Waiting {
        return Err(SettingsLocked);
      }
      rooms := rooms[roomId := room.(settings := Patched(room.settings, patch))];
      res := Ok(());
    }

    /** `deleteRoom`: the host removes the room and every member document under it. */
    method DeleteRoom(roomId: string, hostId: string) returns (res: Result<(), Error>)
      requires Valid()
      modifies this
      ensures Valid()
      ensures players == old(players) && templates == old(templates)
      ensures res.Err? ==> rooms == old(rooms) && members == old(members)
      ensures
        if roomId !in old(rooms) then res == Err(RoomNotFound)
        else if old(rooms)[roomId].hostId != hostId then res == Err(NotHost("delete the room"))
        else res.Ok? && rooms == old(rooms) - {roomId} && members == old(members) - {roomId}
    {
      if roomId !in rooms {
        return Err(RoomNotFound);
      }
      if rooms[roomId].hostId != hostId {
        return Err(NotHost("delete the room"));
      }
      rooms := rooms - {roomId};
      members := members - {roomId};
      res := Ok(());
    }

    /**
     * `checkAndUnlockAchievements`: every definition the profile meets and does not
     * hold yet is granted in one batch; the names are returned in definition order.
     */
    method CheckAndUnlockAchievements(playerId: string, defs: seq<Achievement>) returns (names: seq<string>)
      requires Valid()
      modifies this
      ensures Valid()
      ensures rooms == old(rooms) && members == old(members) && templates == old(templates)
      ensures playerId !in old(players) ==> names == [] && players == old(players)
      ensures playerId in old(players) ==>
        && names == Names(Unlocked(old(players)[playerId], defs))
        && players == old(players)[playerId := AfterUnlock(old(players)[playerId], defs)]
    {
      if playerId !in players {
        return [];
      }
      var p := players[playerId];
      var unlocked: seq<Achievement> := [];
      names := [];
      for i := 0 to |defs|
        invariant unlocked == Unlocked(p, defs[..i])
        invariant names == Names(unlocked)
        invariant players == old(players)
      {
        var a := defs[i];
        assert defs[..i + 1][..i] == defs[..i];
        assert Unlocked(p, defs[..i + 1]) == unlocked + (if Unlocks(p, a) then [a] else []);
        if a.id in p.achievements {
          continue;
        }
        var value: int;
        match a.requirementType {
          case TotalScoreReq => value := p.totalScore;
          case GamesPlayedReq => value := p.totalGamesPlayed;
          case WinRateReq => value := p.winRate;
          case CurrentStreakReq => value := p.currentStreak;
          case OtherType(_) => continue;
        }
        var isUnlocked := false;
        match a.condition {
          case GreaterThan => isUnlocked := value > a.requirementValue;
          case EqualTo => isUnlocked := value == a.requirementValue;
          case LessThan => isUnlocked := value < a.requirementValue;
          case OtherCondition(_) =>
        }
        assert isUnlocked == Unlocks(p, a);
        if isUnlocked {
          assert (unlocked + [a])[..|unlocked|] == unlocked;
          unlocked := unlocked + [a];
          names := names + [a.name];
        }
      }
      assert defs[..|defs|] == defs;
      if |names| > 0 {
        players := players[playerId := GrantAll(p, unlocked)];
      }
    }
  }
}
