/**
 * The cheat manager: a buffer of typed characters, lower-cased, that is
 * matched against every registered cheat after each character. A full
 * match activates the first matching cheat and clears the buffer; a
 * character that leaves no cheat partially matching clears it too.
 */
module CheatManager {
  import opened Wrappers
  import opened DotNet
  import opened CheatTypes
  import LC = LevelCheat
  import MC = MultiCodeCheat

  /** The registered cheats are level cheats or multi-code cheats. */
  datatype CheatKind =
    | Level(name: string, code: string, levelType: CheatType)
    | MultiCode(cheat: MC.MultiCodeCheat)

  function TypeOf(k: CheatKind): CheatType {
    match k
    case Level(_, _, t) => t
    case MultiCode(c) => c.cheatType
  }

  function IsToggle(k: CheatKind): bool {
    match k
    case Level(_, _, _) => LC.IsToggleCheat
    case MultiCode(c) => c.isToggleCheat
  }

  function PartialMatches(k: CheatKind, s: string): bool {
    match k
    case Level(_, code, _) => LC.PartialMatch(code, s)
    case MultiCode(c) => MC.PartialMatch(c, s)
  }

  function Matches(k: CheatKind, s: string): bool {
    match k
    case Level(_, code, _) => LC.MatchedLevel(code, s).Some?
    case MultiCode(c) => MC.IsMatch(c, s)
  }

  /** Every cheat's full match is also a partial match. */
  lemma MatchesIsPartial(k: CheatKind, s: string)
    requires Matches(k, s)
    ensures PartialMatches(k, s)
  {
    match k
    case Level(_, code, _) => LC.MatchIsPartialMatch(code, s);
    case MultiCode(c) => MC.MatchIsPartialMatch(c, s);
  }

  /** The lookup dictionary is built by `ToDictionary`, which needs distinct keys. */
  predicate DistinctTypes(kinds: seq<CheatKind>) {
    forall i, j :: 0 <= i < j < |kinds| ==> TypeOf(kinds[i]) != TypeOf(kinds[j])
  }

  /** `m_cheats.Any(x => x.PartialMatch(s))`. */
  function AnyPartial(kinds: seq<CheatKind>, s: string): (b: bool)
    ensures b <==> exists i :: 0 <= i < |kinds| && PartialMatches(kinds[i], s)
  {
    if kinds == [] then false else PartialMatches(kinds[0], s) || AnyPartial(kinds[1..], s)
  }

  /** `m_cheats.FirstOrDefault(x => x.IsMatch(s))`, as an index. */
  function FirstMatch(kinds: seq<CheatKind>, s: string): (r: Option<nat>)
    ensures r.Some? ==> r.value < |kinds| && Matches(kinds[r.value], s)
    ensures r.Some? ==> forall j :: 0 <= j < r.value ==> !Matches(kinds[j], s)
    ensures r.None? ==> forall j :: 0 <= j < |kinds| ==> !Matches(kinds[j], s)
  {
    if kinds == [] then None
    else if Matches(kinds[0], s) then Some(0)
    else
      var rest := FirstMatch(kinds[1..], s);
      assert forall j :: 1 <= j < |kinds| ==> kinds[j] == kinds[1..][j - 1];
      if rest.None? then None else Some(rest.value + 1)
  }

  /** The first index whose cheat matches is what `FirstMatch` returns. */
  lemma FirstMatchAt(kinds: seq<CheatKind>, s: string, i: nat)
    requires i < |kinds| && Matches(kinds[i], s)
    requires forall j :: 0 <= j < i ==> !Matches(kinds[j], s)
    ensures FirstMatch(kinds, s) == Some(i)
  {
  }

  /** When no cheat matches, `FirstMatch` finds nothing. */
  lemma FirstMatchNone(kinds: seq<CheatKind>, s: string)
    requires forall j :: 0 <= j < |kinds| ==> !Matches(kinds[j], s)
    ensures FirstMatch(kinds, s) == None
  {
  }

  /** The index the lookup dictionary holds for a cheat type, if any. */
  function IndexOfType(kinds: seq<CheatKind>, t: CheatType): (r: Option<nat>)
    ensures r.Some? ==> r.value < |kinds| && TypeOf(kinds[r.value]) == t
    ensures r.None? ==> forall j :: 0 <= j < |kinds| ==> TypeOf(kinds[j]) != t
  {
    if kinds == [] then None
    else if TypeOf(kinds[0]) == t then Some(0)
    else match IndexOfType(kinds[1..], t)
      case None => None
      case Some(j) => Some(j + 1)
  }

  /** With distinct types, looking up a cheat's own type finds that cheat. */
  lemma IndexOfOwnType(kinds: seq<CheatKind>, i: nat)
    requires DistinctTypes(kinds) && i < |kinds|
    ensures IndexOfType(kinds, TypeOf(kinds[i])) == Some(i)
  {
    assert IndexOfType(kinds, TypeOf(kinds[i])).Some?;
  }

  /** The lookup dictionary: each registered type to the position of its cheat. */
  function Lookup(kinds: seq<CheatKind>): (m: map<CheatType, nat>)
    requires DistinctTypes(kinds)
    ensures forall t :: t in m <==> IndexOfType(kinds, t).Some?
    ensures forall t :: t in m ==> m[t] == IndexOfType(kinds, t).value
  {
    var m := map i | 0 <= i < |kinds| :: TypeOf(kinds[i]) := i;
    forall t | t in m ensures m[t] == IndexOfType(kinds, t).value {
      var i :| 0 <= i < |kinds| && TypeOf(kinds[i]) == t;
      IndexOfOwnType(kinds, i);
    }
    forall t | IndexOfType(kinds, t).Some? ensures t in m {
      var i := IndexOfType(kinds, t).value;
      assert TypeOf(kinds[i]) in m;
    }
    m
  }

  /** The part of the manager a sequence of typed characters changes. */
  datatype State = State(activated: seq<bool>, levelNumbers: seq<int>, buffer: string)

  predicate WellFormed(kinds: seq<CheatKind>, st: State) {
    |st.activated| == |kinds| && |st.levelNumbers| == |kinds|
  }

  /**
   * `ActivateCheat` on values: the new activation flags and whether the
   * activation-changed event is raised.
   */
  function Activate(kinds: seq<CheatKind>, activated: seq<bool>, t: CheatType): (r: (seq<bool>, bool))
    requires |activated| == |kinds|
    ensures |r.0| == |kinds|
    ensures r.1 <==> IndexOfType(kinds, t).Some?
    ensures forall j :: 0 <= j < |kinds| && IndexOfType(kinds, t) != Some(j) ==> r.0[j] == activated[j]
  {
    match IndexOfType(kinds, t)
    case None => (activated, false)
    case Some(i) => (if IsToggle(kinds[i]) then activated[i := !activated[i]] else activated, true)
  }

  /** Activating an unregistered type changes nothing and raises no event. */
  lemma ActivateUnregistered(kinds: seq<CheatKind>, activated: seq<bool>, t: CheatType)
    requires |activated| == |kinds|
    requires forall i :: 0 <= i < |kinds| ==> TypeOf(kinds[i]) != t
    ensures Activate(kinds, activated, t) == (activated, false)
  {
    assert IndexOfType(kinds, t).None?;
  }

  /** Activating a registered cheat flips its flag if it toggles, and leaves every flag alone otherwise. */
  lemma ActivateRegistered(kinds: seq<CheatKind>, activated: seq<bool>, i: nat)
    requires DistinctTypes(kinds) && |activated| == |kinds| && i < |kinds|
    ensures var (act, fired) := Activate(kinds, activated, TypeOf(kinds[i]));
      fired && |act| == |kinds| &&
      act[i] == (if IsToggle(kinds[i]) then !activated[i] else activated[i]) &&
      forall j :: 0 <= j < |kinds| && j != i ==> act[j] == activated[j]
  {
    IndexOfOwnType(kinds, i);
  }

  /** One typed character, as the body of the loop in `HandleInput`. */
  function Step(kinds: seq<CheatKind>, st: State, c: char): (r: (State, seq<CheatType>))
    requires WellFormed(kinds, st)
    ensures WellFormed(kinds, r.0)
    ensures |r.1| <= 1 && forall e :: e in r.1 ==> IndexOfType(kinds, e).Some?
  {
    var b := st.buffer + [ToLowerChar(c)];
    if !AnyPartial(kinds, b) then (st.(buffer := []), [])
    else match FirstMatch(kinds, b)
      case None => (st.(buffer := b), [])
      case Some(i) =>
        var levels := if kinds[i].Level? then st.levelNumbers[i := LC.MatchedLevel(kinds[i].code, b).value]
                      else st.levelNumbers;
        var (act, fired) := Activate(kinds, st.activated, TypeOf(kinds[i]));
        (State(act, levels, []), if fired then [TypeOf(kinds[i])] else [])
  }

  /**
   * `HandleInput` on values: the characters in order, with the events
   * raised: at most one per character, and only of registered cheats.
   */
  function Run(kinds: seq<CheatKind>, st: State, keys: seq<char>): (r: (State, seq<CheatType>))
    requires WellFormed(kinds, st)
    ensures WellFormed(kinds, r.0)
    ensures |r.1| <= |keys| && forall e :: e in r.1 ==> IndexOfType(kinds, e).Some?
    decreases |keys|
  {
    if keys == [] then (st, [])
    else
      var (mid, firedBefore) := Run(kinds, st, keys[..|keys| - 1]);
      var (next, firedNow) := Step(kinds, mid, keys[|keys| - 1]);
      (next, firedBefore + firedNow)
  }

  /** The buffer either is cleared or grows by the lower-cased character. */
  lemma StepBuffer(kinds: seq<CheatKind>, st: State, c: char)
    requires WellFormed(kinds, st)
    ensures var b := Step(kinds, st, c).0.buffer; b == [] || b == st.buffer + [ToLowerChar(c)]
  {
  }

  /** When no cheat partially matches, the buffer is cleared and nothing else changes. */
  lemma StepNoPartialMatch(kinds: seq<CheatKind>, st: State, c: char)
    requires WellFormed(kinds, st)
    requires !AnyPartial(kinds, st.buffer + [ToLowerChar(c)])
    ensures Step(kinds, st, c) == (st.(buffer := []), [])
  {
  }

  /** A partial match without a full match keeps the extended buffer and changes nothing else. */
  lemma StepPartialMatchOnly(kinds: seq<CheatKind>, st: State, c: char)
    requires WellFormed(kinds, st)
    requires AnyPartial(kinds, st.buffer + [ToLowerChar(c)])
    requires forall i :: 0 <= i < |kinds| ==> !Matches(kinds[i], st.buffer + [ToLowerChar(c)])
    ensures Step(kinds, st, c) == (st.(buffer := st.buffer + [ToLowerChar(c)]), [])
  {
  }

  /**
   * A full match activates the first matching cheat in registration order,
   * records a level cheat's level number, raises one event and clears the buffer.
   */
  lemma StepFullMatch(kinds: seq<CheatKind>, st: State, c: char, i: nat)
    requires WellFormed(kinds, st) && DistinctTypes(kinds)
    requires i < |kinds| && Matches(kinds[i], st.buffer + [ToLowerChar(c)])
    requires forall j :: 0 <= j < i ==> !Matches(kinds[j], st.buffer + [ToLowerChar(c)])
    ensures var (next, fired) := Step(kinds, st, c);
      next.buffer == [] && fired == [TypeOf(kinds[i])] &&
      next.activated[i] == (if IsToggle(kinds[i]) then !st.activated[i] else st.activated[i]) &&
      (forall j :: 0 <= j < |kinds| && j != i ==> next.activated[j] == st.activated[j]) &&
      (kinds[i].Level? ==> next.levelNumbers[i] == LC.MatchedLevel(kinds[i].code, st.buffer + [ToLowerChar(c)]).value) &&
      (forall j :: 0 <= j < |kinds| && j != i ==> next.levelNumbers[j] == st.levelNumbers[j])
  {
    var b := st.buffer + [ToLowerChar(c)];
    MatchesIsPartial(kinds[i], b);
    assert AnyPartial(kinds, b);
    assert FirstMatch(kinds, b) == Some(i);
    var levels := if kinds[i].Level? then st.levelNumbers[i := LC.MatchedLevel(kinds[i].code, b).value]
                  else st.levelNumbers;
    var (act, fired) := Activate(kinds, st.activated, TypeOf(kinds[i]));
    assert Step(kinds, st, c) == (State(act, levels, []), if fired then [TypeOf(kinds[i])] else []);
    ActivateRegistered(kinds, st.activated, i);
  }

  /** A level cheat never toggles, so firing it leaves every activation flag as it was. */
  lemma LevelCheatKeepsFlags(kinds: seq<CheatKind>, st: State, c: char, i: nat)
    requires WellFormed(kinds, st) && DistinctTypes(kinds)
    requires i < |kinds| && kinds[i].Level?
    requires FirstMatch(kinds, st.buffer + [ToLowerChar(c)]) == Some(i)
    ensures Step(kinds, st, c).0.activated == st.activated
  {
    var b := st.buffer + [ToLowerChar(c)];
    MatchesIsPartial(kinds[i], b);
    assert AnyPartial(kinds, b);
    IndexOfOwnType(kinds, i);
  }

  /** A buffer that is empty or partially matches some cheat. */
  predicate Matchable(kinds: seq<CheatKind>, buffer: string) {
    buffer == [] || AnyPartial(kinds, buffer)
  }

  /** After any sequence of characters the buffer is empty or still partially matches some cheat. */
  lemma {:induction false} RunKeepsBufferMatchable(kinds: seq<CheatKind>, st: State, keys: seq<char>)
    requires WellFormed(kinds, st) && Matchable(kinds, st.buffer)
    ensures Matchable(kinds, Run(kinds, st, keys).0.buffer)
    decreases |keys|
  {
    if keys != [] {
      RunKeepsBufferMatchable(kinds, st, keys[..|keys| - 1]);
    }
  }


  class CheatManager {
    const kinds: seq<CheatKind>
    const lookup: map<CheatType, nat>
    var activated: seq<bool>
    var levelNumbers: seq<int>
    var currentCheat: string

    ghost predicate Valid()
      reads this
    {
      DistinctTypes(kinds) && lookup == Lookup(kinds) &&
      |activated| == |kinds| && |levelNumbers| == |kinds|
    }

    function StateOf(): (st: State)
      reads this
      requires Valid()
      ensures WellFormed(kinds, st)
    {
      State(activated, levelNumbers, currentCheat)
    }

    /** Registers the cheats; no cheat is active, every level number is 1 and the buffer is empty. */
    constructor (cheats: seq<CheatKind>)
      requires DistinctTypes(cheats)
      ensures Valid() && kinds == cheats
      ensures activated == seq(|cheats|, _ => false)
      ensures levelNumbers == seq(|cheats|, _ => LC.InitialLevelNumber)
      ensures currentCheat == ""
    {
      kinds := cheats;
      lookup := Lookup(cheats);
      activated := seq(|cheats|, _ => false);
      levelNumbers := seq(|cheats|, _ => LC.InitialLevelNumber);
      currentCheat := "";
    }

    /** `ActivateCheat`: flips a registered toggle cheat and reports whether the event is raised. */
    method ActivateCheat(t: CheatType) returns (fired: bool)
      requires Valid()
      modifies this`activated
      ensures Valid()
      ensures (activated, fired) == Activate(kinds, old(activated), t)
    {
      fired := false;
      if t in lookup {
        var i := lookup[t];
        if IsToggle(kinds[i]) {
          activated := activated[i := !activated[i]];
        }
        fired := true;
      }
    }

    /** `IsCheatActive`: false for unregistered types, else that cheat's flag. */
    function IsCheatActive(t: CheatType): (b: bool)
      reads this
      requires Valid()
      ensures IndexOfType(kinds, t).None? ==> !b
      ensures IndexOfType(kinds, t).Some? ==> b == activated[IndexOfType(kinds, t).value]
    {
      if t in lookup then activated[lookup[t]] else false
    }

    /** `HandleInput`: processes the typed characters one at a time. */
    method HandleInput(keys: seq<char>) returns (fired: seq<CheatType>)
      requires Valid()
      modifies this
      ensures Valid()
      ensures (StateOf(), fired) == Run(kinds, old(StateOf()), keys)
    {
      fired := [];
      var k := 0;
      while k < |keys|
        invariant 0 <= k <= |keys|
        invariant Valid()
        invariant (StateOf(), fired) == Run(kinds, old(StateOf()), keys[..k])
      {
        assert keys[..k + 1][..k] == keys[..k];
        var firedNow := HandleChar(keys[k]);
        fired := fired + firedNow;
        k := k + 1;
      }
      assert keys[..k] == keys;
    }

    /** The body of the `HandleInput` loop for one typed character. */
    method HandleChar(c: char) returns (fired: seq<CheatType>)
      requires Valid()
      modifies this
      ensures Valid()
      ensures (StateOf(), fired) == Step(kinds, old(StateOf()), c)
    {
      fired := [];
      currentCheat := currentCheat + [ToLowerChar(c)];
      if AnyPartial(kinds, currentCheat) {
        var matchIndex := FindAndApplyMatch();
        if matchIndex.Some? {
          var t := TypeOf(kinds[matchIndex.value]);
          var f := ActivateCheat(t);
          if f {
            fired := [t];
          }
          currentCheat := "";
        }
      } else {
        currentCheat := "";
      }
    }

    /**
     * `m_cheats.FirstOrDefault(x => x.IsMatch(m_currentCheat))`: the level
     * cheat's `IsMatch` records the level number when it matches.
     */
    method FindAndApplyMatch() returns (matchIndex: Option<nat>)
      requires Valid()
      modifies this`levelNumbers
      ensures Valid()
      ensures matchIndex == FirstMatch(kinds, currentCheat)
      ensures matchIndex.Some? && kinds[matchIndex.value].Level? ==>
        levelNumbers == old(levelNumbers)[matchIndex.value := LC.MatchedLevel(kinds[matchIndex.value].code, currentCheat).value]
      ensures matchIndex.None? || !kinds[matchIndex.value].Level? ==> levelNumbers == old(levelNumbers)
    {
      var typed := currentCheat;
      var i := 0;
      while i < |kinds|
        invariant 0 <= i <= |kinds|
        invariant forall j :: 0 <= j < i ==> !Matches(kinds[j], typed)
        invariant levelNumbers == old(levelNumbers)
      {
        if Matches(kinds[i], typed) {
          FirstMatchAt(kinds, typed, i);
          if kinds[i].Level? {
            levelNumbers := levelNumbers[i := LC.MatchedLevel(kinds[i].code, typed).value];
          }
          return Some(i);
        }
        i := i + 1;
      }
      FirstMatchNone(kinds, typed);
      return None;
    }
  }
}
