/**
 * The older room API of firestore.ts, which the join dialog calls. Its rooms carry a
 * `participantCount` instead of a seat list and capacity, and its join has only the
 * authentication, existence and status guards.
 */
module Firestore {
  import opened Wrappers
  import opened RoomCodes

  /** `auth.currentUser`; an absent display name is "", an absent email is `None`. */
  datatype AuthUser = AuthUser(uid: string, displayName: string, email: Option<string>)

  /** A `rooms/{code}` document as this API writes it; `startedAt` is always null. */
  datatype SimpleRoom = SimpleRoom(roomId: string, hostId: string, status: string, participantCount: int)

  /** A `rooms/{code}/players/{uid}` document as this API writes it. */
  datatype SimpleMember = SimpleMember(playerId: string, displayName: string, email: Option<string>, totalScore: int, isHost: bool)

  datatype Error = NotAuthenticated | RoomNotFound | NotAccepting

  function Message(e: Error): string {
    match e
    case NotAuthenticated => "User not authenticated"
    case RoomNotFound => "Room not found"
    case NotAccepting => "Room is not accepting new players"
  }

  /** The member document both `createRoom` and `joinRoom` write for `user`. */
  function MemberFor(user: AuthUser, isHost: bool): (m: SimpleMember)
    ensures m.playerId == user.uid && m.totalScore == 0 && m.isHost == isHost && m.email == user.email
    ensures m.displayName == if user.displayName == "" then "Guest" else user.displayName
  {
    SimpleMember(user.uid, OrElse(user.displayName, "Guest"), user.email, 0, isHost)
  }

  class SimpleStore {
    var rooms: map<string, SimpleRoom>
    var members: map<string, map<string, SimpleMember>>

    /** Every member document lies under a room, each room is stored under its own code. */
    predicate Valid()
      reads this
    {
      && members.Keys <= rooms.Keys
      && forall code :: code in rooms ==> rooms[code].roomId == code
    }

    constructor()
      ensures Valid() && rooms == map[] && members == map[]
    {
      rooms := map[];
      members := map[];
    }

    /**
     * `createRoom`: a waiting room with one participant and its host as a member. The
     * two writes overwrite whatever the drawn code held; earlier members stay.
     */
    method CreateRoom(user: Option<AuthUser>, draws: seq<real>) returns (res: Result<string, Error>)
      requires Valid() && ValidDraws(draws)
      modifies this
      ensures Valid()
      ensures user.None? ==> res == Err(NotAuthenticated) && rooms == old(rooms) && members == old(members)
      ensures user.Some? ==>
        && res == Ok(CodeFor(draws)) && IsRoomCode(res.value)
        && rooms == old(rooms)[res.value := SimpleRoom(res.value, user.value.uid, "waiting", 1)]
        && members == old(members)[res.value :=
             (if res.value in old(members) then old(members)[res.value] else map[])[user.value.uid := MemberFor(user.value, true)]]
    {
      if user.None? {
        return Err(NotAuthenticated);
      }
      var u := user.value;
      var code := GenerateRoomCode(draws);
      rooms := rooms[code := SimpleRoom(code, u.uid, "waiting", 1)];
      var existing := if code in members then members[code] else map[];
      members := members[code := existing[u.uid := MemberFor(u, true)]];
      res := Ok(code);
    }

    /**
     * `joinRoom`: no capacity or duplicate check; the member document is (re)written,
     * so a player who joins again starts over at score 0, and the room is not touched.
     */
    method JoinRoom(user: Option<AuthUser>, roomCode: string) returns (res: Result<(), Error>)
      requires Valid()
      modifies this
      ensures Valid()
      ensures rooms == old(rooms)
      ensures res.Err? ==> members == old(members)
      ensures
        if user.None? then res == Err(NotAuthenticated)
        else if roomCode !in old(rooms) then res == Err(RoomNotFound)
        else if old(rooms)[roomCode].status != "waiting" then res == Err(NotAccepting)
        else
          && res.Ok?
          && members == old(members)[roomCode :=
               (if roomCode in old(members) then old(members)[roomCode] else map[])[user.value.uid := MemberFor(user.value, false)]]
    {
      if user.None? {
        return Err(NotAuthenticated);
      }
      if roomCode !in rooms {
        return Err(RoomNotFound);
      }
      if rooms[roomCode].status != "waiting" {
        return Err(NotAccepting);
      }
      var u := user.value;
      var existing := if roomCode in members then members[roomCode] else map[];
      members := members[roomCode := existing[u.uid := MemberFor(u, false)]];
      res := Ok(());
    }
  }

  /** Joining twice leaves the same single member document as joining once. */
  lemma RejoinOverwrites(ms: map<string, SimpleMember>, user: AuthUser)
    ensures ms[user.uid := MemberFor(user, false)][user.uid := MemberFor(user, false)] == ms[user.uid := MemberFor(user, false)]
    ensures ms[user.uid := MemberFor(user, false)][user.uid].totalScore == 0
    ensures |ms[user.uid := MemberFor(user, false)].Keys| <= |ms.Keys| + 1
  {
    if user.uid !in ms {
      assert ms[user.uid := MemberFor(user, false)].Keys == ms.Keys + {user.uid};
    } else {
      assert ms[user.uid := MemberFor(user, false)].Keys == ms.Keys;
    }
  }
}
