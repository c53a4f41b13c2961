/**
 * The state of the join dialog (JoinRoomModal.tsx): the code field with its input
 * filter, the error line, the busy flag, and the navigation a successful join triggers.
 */
module JoinRoomModal {
  import opened Wrappers
  import opened RoomCodes
  import opened Firestore

  /**
   * `toUpperCase` on one character. Besides the ASCII letters, these are the lower-case
   * characters whose upper case is or contains an ASCII letter in Unicode's case tables
   * (UnicodeData.txt and the unconditional mappings of SpecialCasing.txt); some of them
   * expand to several characters. Every other character is kept as it is.
   */
  function ToUpper(c: char): (u: string)
    ensures 1 <= |u| <= 3
    ensures 'a' <= c <= 'z' ==> u == [(c as int - 32) as char]
    ensures IsCodeChar(c) ==> u == [c]
  {
    if 'a' <= c <= 'z' then [(c as int - 32) as char]
    else if c == '\U{00DF}' then "SS"          // sharp s
    else if c == '\U{0131}' then "I"           // dotless i
    else if c == '\U{017F}' then "S"           // long s
    else if c == '\U{0149}' then "\U{02BC}N"   // n preceded by apostrophe
    else if c == '\U{01F0}' then "J\U{030C}"   // j with caron
    else if c == '\U{1E96}' then "H\U{0331}"   // h with line below
    else if c == '\U{1E97}' then "T\U{0308}"   // t with diaeresis
    else if c == '\U{1E98}' then "W\U{030A}"   // w with ring above
    else if c == '\U{1E99}' then "Y\U{030A}"   // y with ring above
    else if c == '\U{1E9A}' then "A\U{02BE}"   // a with right half ring
    else if c == '\U{FB00}' then "FF"          // the Latin ligatures
    else if c == '\U{FB01}' then "FI"
    else if c == '\U{FB02}' then "FL"
    else if c == '\U{FB03}' then "FFI"
    else if c == '\U{FB04}' then "FFL"
    else if c == '\U{FB05}' then "ST"
    else if c == '\U{FB06}' then "ST"
    else [c]
  }

  /** `toUpperCase` on a string: each character's upper case, in order. */
  function Upper(s: string): (r: string)
    ensures |s| <= |r| <= 3 * |s|
  {
    if s == [] then [] else Upper(s[..|s| - 1]) + ToUpper(s[|s| - 1])
  }

  /** `replace(/[^A-Z0-9]/g, '')`: the code characters of `s`, in order. */
  function KeepCodeChars(s: string): (r: string)
    ensures |r| <= |s|
    ensures forall i :: 0 <= i < |r| ==> IsCodeChar(r[i])
  {
    if s == [] then []
    else KeepCodeChars(s[..|s| - 1]) + (if IsCodeChar(s[|s| - 1]) then [s[|s| - 1]] else [])
  }

  /** A character survives the filter exactly when it was typed and is a code character. */
  lemma {:induction false} KeepCodeCharsMembers(s: string, c: char)
    ensures c in KeepCodeChars(s) <==> c in s && IsCodeChar(c)
  {
    if s != [] {
      var init, last := s[..|s| - 1], s[|s| - 1];
      KeepCodeCharsMembers(init, c);
      assert s == init + [last];
      assert c in s <==> c in init || c == last;
    }
  }

  predicate AllCodeChars(s: string) {
    forall i :: 0 <= i < |s| ==> IsCodeChar(s[i])
  }

  /** The value `handleCodeChange` derives from the text typed: code characters only. */
  function Sanitize(raw: string): (r: string)
    ensures AllCodeChars(r)
    ensures |r| <= 3 * |raw|
  {
    KeepCodeChars(Upper(raw))
  }

  lemma {:induction false} KeepCodeCharsOfCode(s: string)
    requires AllCodeChars(s)
    ensures KeepCodeChars(s) == s
  {
    if s != [] {
      var init, last := s[..|s| - 1], s[|s| - 1];
      assert AllCodeChars(init) by {
        forall i | 0 <= i < |init| ensures IsCodeChar(init[i]) {
          assert init[i] == s[i];
        }
      }
      KeepCodeCharsOfCode(init);
      assert IsCodeChar(last);
      assert KeepCodeChars(s) == init + [last];
      assert s == init + [last];
    }
  }

  /** Upper-casing leaves a code unchanged. */
  lemma {:induction false} UpperOfCode(s: string)
    requires AllCodeChars(s)
    ensures Upper(s) == s
  {
    if s != [] {
      var init := s[..|s| - 1];
      assert AllCodeChars(init) by {
        forall i | 0 <= i < |init| ensures IsCodeChar(init[i]) {
          assert init[i] == s[i];
        }
      }
      UpperOfCode(init);
      assert s == init + [s[|s| - 1]];
    }
  }

  /** Text that is already a stored code passes the filter unchanged. */
  lemma SanitizeKeepsCode(s: string)
    requires AllCodeChars(s)
    ensures Sanitize(s) == s
  {
    UpperOfCode(s);
    KeepCodeCharsOfCode(s);
  }

  /** Filtering twice is filtering once. */
  lemma SanitizeIdempotent(raw: string)
    ensures Sanitize(Sanitize(raw)) == Sanitize(raw)
  {
    SanitizeKeepsCode(Sanitize(raw));
  }

  lemma UpperSnoc(s: string, c: char)
    ensures Upper(s + [c]) == Upper(s) + ToUpper(c)
  {
    assert (s + [c])[..|s|] == s;
  }

  /** Upper-casing "straße" gives the seven letters "STRASSE". */
  lemma SharpSUpper(raw: string)
    requires raw == "stra\U{00DF}e"
    ensures Upper(raw) == "STRASSE"
  {
    assert raw[..0] == [];
    UpperSnoc(raw[..0], raw[0]);
    assert raw[..0] + [raw[0]] == raw[..1];
    UpperSnoc(raw[..1], raw[1]);
    assert raw[..1] + [raw[1]] == raw[..2];
    UpperSnoc(raw[..2], raw[2]);
    assert raw[..2] + [raw[2]] == raw[..3];
    UpperSnoc(raw[..3], raw[3]);
    assert raw[..3] + [raw[3]] == raw[..4];
    UpperSnoc(raw[..4], raw[4]);
    assert raw[..4] + [raw[4]] == raw[..5];
    UpperSnoc(raw[..5], raw[5]);
    assert raw[..5] + [raw[5]] == raw;
  }

  /** Typing "straße" fills the field with the seven characters "STRASSE". */
  lemma SharpSExpands(raw: string)
    requires raw == "stra\U{00DF}e"
    ensures Sanitize(raw) == "STRASSE"
    ensures |Sanitize(raw)| > CodeLength
  {
    SharpSUpper(raw);
    var up := Upper(raw);
    assert AllCodeChars(up);
    KeepCodeCharsOfCode(up);
  }

  const InvalidCodeMessage: string := "Please enter a valid 6-character room code"

  class JoinRoomDialog {
    var roomCode: string
    var error: Option<string>
    var loading: bool
    /** The route passed to `router.push`, if any. */
    var navigatedTo: Option<string>
    /** Whether `onClose` has been called. */
    var closeRequested: bool

    /** The field holds at most six code characters. */
    predicate Valid()
      reads this
    {
      |roomCode| <= CodeLength && AllCodeChars(roomCode)
    }

    constructor()
      ensures Valid()
      ensures roomCode == "" && error == None && !loading && navigatedTo == None && !closeRequested
    {
      roomCode := "";
      error := None;
      loading := false;
      navigatedTo := None;
      closeRequested := false;
    }

    /** `handleCodeChange`: a filtered value of at most six characters replaces the field and clears the error. */
    method HandleCodeChange(raw: string)
      requires Valid()
      modifies this
      ensures Valid()
      ensures |Sanitize(raw)| <= CodeLength ==> roomCode == Sanitize(raw) && error == None
      ensures |Sanitize(raw)| > CodeLength ==> roomCode == old(roomCode) && error == old(error)
      ensures loading == old(loading) && navigatedTo == old(navigatedTo) && closeRequested == old(closeRequested)
    {
      var value := Sanitize(raw);
      if |value| <= CodeLength {
        roomCode := value;
        error := None;
      }
    }

    /** `handleClose`: the field and the error are reset, then the parent is told. */
    method HandleClose()
      modifies this
      ensures Valid()
      ensures roomCode == "" && error == None && closeRequested
      ensures loading == old(loading) && navigatedTo == old(navigatedTo)
    {
      roomCode := "";
      error := None;
      closeRequested := true;
    }

    /**
     * `handleJoinRoom`: a code of any length but six is refused without a call; otherwise
     * the upper-cased code is joined and the room page opened only if the join succeeds.
     */
    method HandleJoinRoom(store: SimpleStore, user: Option<AuthUser>)
      requires Valid() && store.Valid()
      modifies this, store
      ensures Valid() && store.Valid()
      ensures roomCode == old(roomCode) && closeRequested == old(closeRequested)
      ensures store.rooms == old(store.rooms)
      ensures |old(roomCode)| != CodeLength ==>
        && error == Some(InvalidCodeMessage)
        && loading == old(loading)
        && navigatedTo == old(navigatedTo)
        && store.members == old(store.members)
      ensures |old(roomCode)| == CodeLength ==> !loading
      ensures |old(roomCode)| == CodeLength ==>
        var code := old(roomCode);
        if user.None? then
          error == Some(Message(NotAuthenticated)) && navigatedTo == old(navigatedTo) && store.members == old(store.members)
        else if code !in old(store.rooms) then
          error == Some(Message(RoomNotFound)) && navigatedTo == old(navigatedTo) && store.members == old(store.members)
        else if old(store.rooms)[code].status != "waiting" then
          error == Some(Message(NotAccepting)) && navigatedTo == old(navigatedTo) && store.members == old(store.members)
        else
          && error == None
          && navigatedTo == Some("/room/" + code)
          && store.members == old(store.members)[code :=
               (if code in old(store.members) then old(store.members)[code] else map[])[user.value.uid := MemberFor(user.value, false)]]
    {
      if roomCode == "" || |roomCode| != CodeLength {
        error := Some(InvalidCodeMessage);
        return;
      }
      loading := true;
      error := None;
      UpperOfCode(roomCode);
      var res := store.JoinRoom(user, Upper(roomCode));
      if res.Ok? {
        navigatedTo := Some("/room/" + Upper(roomCode));
      } else {
        error := Some(OrElse(Message(res.error), "Failed to join room"));
      }
      loading := false;
    }
  }
}
