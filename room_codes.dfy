/** Room codes: `generateRoomCode` (identical in collections.ts and firestore.ts). */
module RoomCodes {
  import opened Draws

  /** The 36 characters a code is drawn from. */
  const Alphabet: string := "ABCDEFGHIJKLMNOPQRSTUVWXYZ0123456789"

  const CodeLength: nat := 6

  /** A character matched by the class `[A-Z0-9]`. */
  predicate IsCodeChar(c: char) {
    'A' <= c <= 'Z' || '0' <= c <= '9'
  }

  /** Six characters, each from `[A-Z0-9]`. */
  predicate IsRoomCode(s: string) {
    |s| == CodeLength && forall i :: 0 <= i < |s| ==> IsCodeChar(s[i])
  }

  lemma AlphabetIsCodeChars()
    ensures |Alphabet| == 36
    ensures forall i :: 0 <= i < |Alphabet| ==> IsCodeChar(Alphabet[i])
  {
  }

  /** One random draw per character: each `draws[i]` is a value of `Math.random()`. */
  predicate ValidDraws(draws: seq<real>) {
    |draws| == CodeLength && forall i :: 0 <= i < |draws| ==> IsRandom(draws[i])
  }

  /** The character `chars.charAt(Math.floor(r * chars.length))`. */
  function CharFor(r: real): (c: char)
    requires IsRandom(r)
    ensures IsCodeChar(c)
  {
    AlphabetIsCodeChars();
    Alphabet[RandomIndex(r, |Alphabet|)]
  }

  /** The code a sequence of six draws spells out: character `i` comes from draw `i`. */
  function CodeFor(draws: seq<real>): (code: string)
    requires ValidDraws(draws)
    ensures IsRoomCode(code)
  {
    seq(CodeLength, i requires 0 <= i < CodeLength => CharFor(draws[i]))
  }

  /** Appends one drawn character per iteration, six times. */
  method GenerateRoomCode(draws: seq<real>) returns (code: string)
    requires ValidDraws(draws)
    ensures IsRoomCode(code)
    ensures forall i :: 0 <= i < |code| ==> code[i] == CharFor(draws[i])
    ensures code == CodeFor(draws)
  {
    code := "";
    for i := 0 to CodeLength
      invariant |code| == i
      invariant forall k :: 0 <= k < i ==> code[k] == CharFor(draws[k])
    {
      code := code + [CharFor(draws[i])];
    }
  }
}
