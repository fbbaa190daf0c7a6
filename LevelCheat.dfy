/**
 * The level-change cheat: its code followed by a two-digit level number
 * (for example `idclev` then `15`).
 */
module LevelCheat {
  import opened Wrappers
  import opened DotNet
  import opened CheatTypes

  /** A level cheat never toggles, and always clears the typed string when it fires. */
  const IsToggleCheat: bool := false
  const ClearTypedCheatString: bool := true
  const InitialLevelNumber: int := 1

  /**
   * `PartialMatch`: the typed string is a prefix of the code, or it starts
   * with the code and carries at most two more characters.
   */
  function PartialMatch(code: string, s: string): (b: bool)
    ensures b <==> (s <= code || (code <= s && |s| <= |code| + 2))
  {
    if StartsWith(code, s) then true
    else |s| <= |code| + 2 && StartsWith(s, code)
  }

  /**
   * The level number `IsMatch` reads from the typed string, or None when it
   * does not match: the string must partially match, be exactly two
   * characters longer than the code, end in two digits, and those two
   * characters must parse as an integer.
   */
  function MatchedLevel(code: string, s: string): (r: Option<int>)
    ensures r.Some? <==> |s| == |code| + 2 && code <= s && IsDigit(s[|s| - 1]) && IsDigit(s[|s| - 2])
    ensures r.Some? ==> 0 <= r.value <= 99
    ensures r.Some? ==> r.value == 10 * DigitValue(s[|s| - 2]) + DigitValue(s[|s| - 1])
  {
    if PartialMatch(code, s) && |s| == |code| + 2 && IsDigit(s[|s| - 1]) && IsDigit(s[|s| - 2]) then
      TwoDigitsParse(s[|s| - 2..]);
      ParseInt32(s[|s| - 2..])
    else None
  }

  /** `int.TryParse` of two ASCII digits always succeeds with their value. */
  lemma TwoDigitsParse(digits: string)
    requires |digits| == 2 && AllDigits(digits)
    ensures ParseInt32(digits) == Some(10 * DigitValue(digits[0]) + DigitValue(digits[1]))
  {
    assert TrimStart(digits) == digits;
    assert TrimEnd(digits) == digits;
    assert digits[..1] == [digits[0]];
    assert DigitsValue(digits[..1]) == DigitValue(digits[0]);
  }

  /** Every prefix of the code, the empty string included, partially matches. */
  lemma PrefixesPartiallyMatch(code: string, n: nat)
    requires n <= |code|
    ensures PartialMatch(code, code[..n])
  {
  }

  /** A full match is also a partial match. */
  lemma MatchIsPartialMatch(code: string, s: string)
    requires MatchedLevel(code, s).Some?
    ensures PartialMatch(code, s)
  {
  }

  /** The code followed by any two digits matches, with their value as the level. */
  lemma CodeWithLevelMatches(code: string, level: nat)
    requires level <= 99
    ensures MatchedLevel(code, code + [DigitChar(level / 10), DigitChar(level % 10)]) == Some(level)
  {
    var s := code + [DigitChar(level / 10), DigitChar(level % 10)];
    assert s[|s| - 2] == DigitChar(level / 10) && s[|s| - 1] == DigitChar(level % 10);
    assert code <= s;
  }

  class LevelCheat {
    const cheatName: string
    const cheatType: CheatType
    const code: string
    var activated: bool
    var levelNumber: int

    constructor (name: string, code: string, cheatType: CheatType)
      ensures this.code == code && this.cheatName == name && this.cheatType == cheatType
      ensures !activated && levelNumber == InitialLevelNumber
    {
      this.code := code;
      this.cheatName := name;
      this.cheatType := cheatType;
      activated := false;
      levelNumber := InitialLevelNumber;
    }

    /** `IsMatch`: on success the level number becomes the typed two-digit suffix. */
    method IsMatch(s: string) returns (matched: bool)
      modifies this`levelNumber
      ensures matched <==> MatchedLevel(code, s).Some?
      ensures matched ==> levelNumber == MatchedLevel(code, s).value && 0 <= levelNumber <= 99
      ensures !matched ==> levelNumber == old(levelNumber)
    {
      matched := false;
      if PartialMatch(code, s) && |s| == |code| + 2 && IsDigit(s[|s| - 1]) && IsDigit(s[|s| - 2]) {
        var digits := s[|s| - 2..];
        var parsed := ParseInt32(digits);
        if parsed.Some? {
          levelNumber := parsed.value;
          matched := true;
        }
      }
    }
  }
}
