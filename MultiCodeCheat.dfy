/** The cheat type tag the cheat manager keys its lookup by. */
module CheatTypes {
  /** A value of the `CheatType` enumeration, identified by its ordinal. */
  datatype CheatType = CheatType(ordinal: nat)
}

/**
 * A cheat recognised by any one of several codes, compared without regard
 * to letter case.
 */
module MultiCodeCheat {
  import opened DotNet
  import opened CheatTypes

  datatype MultiCodeCheat = MultiCodeCheat(
    cheatName: string,
    codes: seq<string>,
    consoleCommand: string,
    cheatType: CheatType,
    isToggleCheat: bool,
    clearTypedCheatString: bool)

  /** The constructor; the two flags default to true as in the source. */
  function Create(name: string, codes: seq<string>, consoleCommand: string, cheatType: CheatType,
                  canToggle: bool := true, clearTypedCheatString: bool := true): (c: MultiCodeCheat)
    ensures c.codes == codes && c.cheatType == cheatType
    ensures c.isToggleCheat == canToggle && c.clearTypedCheatString == clearTypedCheatString
  {
    MultiCodeCheat(name, codes, consoleCommand, cheatType, canToggle, clearTypedCheatString)
  }

  /** `IsMatch`: some code equals the typed string, ignoring case. */
  function IsMatch(cheat: MultiCodeCheat, s: string): (b: bool)
    ensures b <==> exists i :: 0 <= i < |cheat.codes| && EqualsIgnoreCase(cheat.codes[i], s)
  {
    AnyEquals(cheat.codes, s)
  }

  /** `PartialMatch`: some code starts with the typed string, ignoring case. */
  function PartialMatch(cheat: MultiCodeCheat, s: string): (b: bool)
    ensures b <==> exists i :: 0 <= i < |cheat.codes| && StartsWithIgnoreCase(cheat.codes[i], s)
  {
    AnyStartsWith(cheat.codes, s)
  }

  /** LINQ `Any` over the codes with a case-insensitive equality. */
  function AnyEquals(codes: seq<string>, s: string): (b: bool)
    ensures b <==> exists i :: 0 <= i < |codes| && EqualsIgnoreCase(codes[i], s)
  {
    if codes == [] then false
    else EqualsIgnoreCase(codes[0], s) || AnyEquals(codes[1..], s)
  }

  /** LINQ `Any` over the codes with a case-insensitive `StartsWith`. */
  function AnyStartsWith(codes: seq<string>, s: string): (b: bool)
    ensures b <==> exists i :: 0 <= i < |codes| && StartsWithIgnoreCase(codes[i], s)
  {
    if codes == [] then false
    else StartsWithIgnoreCase(codes[0], s) || AnyStartsWith(codes[1..], s)
  }

  lemma DefaultFlags(name: string, codes: seq<string>, consoleCommand: string, cheatType: CheatType)
    ensures Create(name, codes, consoleCommand, cheatType).isToggleCheat
    ensures Create(name, codes, consoleCommand, cheatType).clearTypedCheatString
  {
  }

  /** A full match is also a partial match. */
  lemma MatchIsPartialMatch(cheat: MultiCodeCheat, s: string)
    requires IsMatch(cheat, s)
    ensures PartialMatch(cheat, s)
  {
    var i :| 0 <= i < |cheat.codes| && EqualsIgnoreCase(cheat.codes[i], s);
    assert StartsWithIgnoreCase(cheat.codes[i], s);
  }

  /** The empty string partially matches exactly when there is at least one code. */
  lemma EmptyPartialMatch(cheat: MultiCodeCheat)
    ensures PartialMatch(cheat, "") <==> |cheat.codes| > 0
  {
    if |cheat.codes| > 0 {
      assert StartsWithIgnoreCase(cheat.codes[0], "");
    }
  }

  /** Changing the letter case of the typed string changes neither answer. */
  lemma CaseInsensitive(cheat: MultiCodeCheat, s: string)
    ensures IsMatch(cheat, ToUpper(s)) == IsMatch(cheat, s)
    ensures IsMatch(cheat, ToLower(s)) == IsMatch(cheat, s)
    ensures PartialMatch(cheat, ToUpper(s)) == PartialMatch(cheat, s)
    ensures PartialMatch(cheat, ToLower(s)) == PartialMatch(cheat, s)
  {
    ToLowerOfUpper(s);
    ToLowerIdempotent(s);
  }
}
