/**
 * Map warping: a warp number or an "episode level" string becomes an
 * episode and a level, and candidate map names are tried in a fixed order
 * against the map definitions and the loaded archives.
 */
module MapWarp {
  import opened Wrappers
  import opened DotNet

  datatype EpisodeDef = EpisodeDef(startMap: string)

  /**
   * What the lookups consult, with the map-definition type `D` left open:
   * the episode definitions, `MapInfo.GetMap`, `MapInfo.GetMapInfoOrDefault`,
   * whether `ArchiveCollection.FindMap` finds a map, and the two regular
   * expressions applied to an episode's start map: `mapPattern` yields the
   * "map" group of `(?<map>[^\s\d]+)\d+`, and `episodePattern` yields the
   * "episode" and "map" groups of `(?<episode>[^\s\d]+)\d+(?<map>[^\s\d]+)\d+`.
   */
  datatype Resources<D> = Resources(
    episodes: seq<EpisodeDef>,
    getMap: string -> Option<D>,
    getMapInfoOrDefault: string -> D,
    findMap: string -> bool,
    mapPattern: string -> Option<string>,
    episodePattern: string -> Option<(string, string)>)

  // ---- warp numbers ----

  datatype EpisodeLevel = EpisodeLevel(episode: int, level: int)

  /**
   * `GetMap(int warp, ...)`: the tens (truncated toward zero) are the episode,
   * the rest the level. The split loses nothing; a non-negative warp gives a
   * level from 0 to 9.
   */
  function SplitWarp(warp: int): (r: EpisodeLevel)
    ensures 10 * r.episode + r.level == warp
    ensures warp >= 0 ==> 0 <= r.level <= 9 && r.episode == warp / 10
    ensures warp < 0 ==> -9 <= r.level <= 0 && r.episode <= 0
  {
    TruncDivRemainder(warp, 10);
    var episode := TruncDiv(warp, 10);
    EpisodeLevel(episode, warp - episode * 10)
  }

  // ---- warp strings ----

  /** `Split(' ', RemoveEmptyEntries)`, with `token` the part of the current token read so far. */
  function SplitFrom(s: string, token: string): (r: seq<string>)
    requires ' ' !in token
    ensures forall i :: 0 <= i < |r| ==> r[i] != [] && ' ' !in r[i]
    decreases |s|
  {
    if s == [] then (if token == [] then [] else [token])
    else if s[0] == ' ' then
      (if token == [] then SplitFrom(s[1..], []) else [token] + SplitFrom(s[1..], []))
    else SplitFrom(s[1..], token + [s[0]])
  }

  function SplitSpaces(s: string): (r: seq<string>)
    ensures forall i :: 0 <= i < |r| ==> r[i] != [] && ' ' !in r[i]
  {
    SplitFrom(s, [])
  }

  lemma {:induction false} SplitFromWord(word: string, rest: string, token: string)
    requires ' ' !in word && ' ' !in token
    ensures SplitFrom(word + rest, token) == SplitFrom(rest, token + word)
    decreases |word|
  {
    if word != [] {
      assert (word + rest)[1..] == word[1..] + rest;
      assert (token + [word[0]]) + word[1..] == token + word;
      SplitFromWord(word[1..], rest, token + [word[0]]);
    } else {
      assert word + rest == rest;
      assert token + word == token;
    }
  }

  /** Two space-free words joined by a space split back into the two words. */
  lemma SplitTwoWords(a: string, b: string)
    requires a != [] && b != [] && ' ' !in a && ' ' !in b
    ensures SplitSpaces(a + " " + b) == [a, b]
  {
    SplitFromWord(a, " " + b, []);
    assert a + " " + b == a + (" " + b);
    assert [] + a == a;
    assert (" " + b)[1..] == b;
    SplitFromWord(b, [], []);
    assert b + [] == b;
    assert [] + b == b;
  }

  /** A run of `n` spaces. */
  function Spaces(n: nat): (r: string)
    ensures |r| == n && forall i :: 0 <= i < n ==> r[i] == ' '
  {
    if n == 0 then [] else " " + Spaces(n - 1)
  }

  /** Non-empty words without spaces: the tokens `SplitSpaces` produces. */
  predicate Words(ws: seq<string>) {
    forall i :: 0 <= i < |ws| ==> ws[i] != [] && ' ' !in ws[i]
  }

  /**
   * The words laid out with runs of spaces: `gaps[0]` spaces before the
   * first word and `gaps[i + 1]` after word `i`.
   */
  function Padded(ws: seq<string>, gaps: seq<nat>): string
    requires |gaps| == |ws| + 1
    decreases |ws|
  {
    Spaces(gaps[0]) + (if ws == [] then [] else ws[0] + Padded(ws[1..], gaps[1..]))
  }

  /** Leading spaces produce no token. */
  lemma {:induction false} SkipSpaces(n: nat, rest: string)
    ensures SplitFrom(Spaces(n) + rest, []) == SplitFrom(rest, [])
    decreases n
  {
    if n == 0 {
      assert Spaces(n) + rest == rest;
    } else {
      assert (Spaces(n) + rest)[0] == ' ';
      assert (Spaces(n) + rest)[1..] == Spaces(n - 1) + rest;
      SkipSpaces(n - 1, rest);
    }
  }

  /** A token read so far is complete at the end of the input or at a space. */
  lemma EndToken(rest: string, token: string)
    requires token != [] && ' ' !in token
    requires rest == [] || rest[0] == ' '
    ensures SplitFrom(rest, token) == [token] + SplitFrom(rest, [])
  {
  }

  /**
   * Space-free words separated by one or more spaces, with any number of
   * spaces before and after, split back into exactly those words.
   */
  lemma {:induction false} SplitSpacesPadded(ws: seq<string>, gaps: seq<nat>)
    requires Words(ws) && |gaps| == |ws| + 1
    requires forall i :: 1 <= i < |ws| ==> gaps[i] >= 1
    ensures SplitSpaces(Padded(ws, gaps)) == ws
    decreases |ws|
  {
    var s := Padded(ws, gaps);
    if ws == [] {
      assert s == Spaces(gaps[0]) + [];
      SkipSpaces(gaps[0], []);
    } else {
      var rest := Padded(ws[1..], gaps[1..]);
      assert s == Spaces(gaps[0]) + (ws[0] + rest);
      SkipSpaces(gaps[0], ws[0] + rest);
      SplitFromWord(ws[0], rest, []);
      assert [] + ws[0] == ws[0];
      assert rest == Spaces(gaps[1]) + (if ws[1..] == [] then [] else ws[1..][0] + Padded(ws[1..][1..], gaps[1..][1..]));
      if |ws| > 1 {
        assert rest[0] == ' ';
      }
      EndToken(rest, ws[0]);
      SplitSpacesPadded(ws[1..], gaps[1..]);
      assert [ws[0]] + ws[1..] == ws;
    }
  }

  /**
   * A warp string of two or more spaced words uses its first two words as
   * the episode and the level and ignores the rest; it finds nothing unless
   * both parse.
   */
  lemma PaddedStringWarps<D>(ws: seq<string>, gaps: seq<nat>, res: Resources<D>)
    requires Words(ws) && |ws| >= 2 && |gaps| == |ws| + 1
    requires forall i :: 1 <= i < |ws| ==> gaps[i] >= 1
    ensures GetMapFromString(Padded(ws, gaps), res)
         == if ParseInt32(ws[0]).Some? && ParseInt32(ws[1]).Some?
            then GetMapByEpisode(ParseInt32(ws[0]).value, ParseInt32(ws[1]).value, res)
            else None
  {
    SplitSpacesPadded(ws, gaps);
    var s := Padded(ws, gaps);
    var rest := Padded(ws[1..], gaps[1..]);
    assert s == Spaces(gaps[0]) + (ws[0] + rest);
    assert rest == Spaces(gaps[1]) + (ws[1..][0] + Padded(ws[1..][1..], gaps[1..][1..]));
    assert s[gaps[0] + |ws[0]|] == rest[0] == ' ';
  }

  /**
   * `GetMap(string warpString, ...)`: with a space, the first two tokens are
   * the episode and the level; without one, the whole string is a warp number.
   */
  function GetMapFromString<D>(warpString: string, res: Resources<D>): (r: Option<D>)
    ensures r.Some? ==> exists episode, level :: r == GetMapByEpisode(episode, level, res)
  {
    if ' ' in warpString then
      var items := SplitSpaces(warpString);
      if |items| >= 2 && ParseInt32(items[0]).Some? && ParseInt32(items[1]).Some? then
        GetMapByEpisode(ParseInt32(items[0]).value, ParseInt32(items[1]).value, res)
      else None
    else
      var warp := ParseInt32(warpString);
      if warp.None? then None else GetMapByWarp(warp.value, res)
  }

  /** A warp names episode `warp / 10` and level `warp % 10`, both truncated toward zero. */
  function GetMapByWarp<D>(warp: int, res: Resources<D>): (r: Option<D>)
    ensures warp >= 0 ==> r == GetMapByEpisode(warp / 10, warp % 10, res)
    ensures warp < 0 ==> r == GetMapByEpisode(-((-warp) / 10), -((-warp) % 10), res)
  {
    var split := SplitWarp(warp);
    GetMapByEpisode(split.episode, split.level, res)
  }

  /** A warp number written out in decimal warps to that number. */
  lemma NumberStringWarps<D>(warp: int, res: Resources<D>)
    requires InInt32(warp)
    ensures GetMapFromString(DecimalString(warp), res) == GetMapByWarp(warp, res)
  {
    var s := DecimalString(warp);
    NoWhiteSpaceInDecimal(warp);
    assert ' ' !in s;
    ParseDecimalString(warp);
    assert ParseInt32(s) == Some(warp);
  }

  /** "episode level" written out in decimal warps to that episode and level. */
  lemma PairStringWarps<D>(episode: int, level: int, res: Resources<D>)
    requires InInt32(episode) && InInt32(level)
    ensures GetMapFromString(DecimalString(episode) + " " + DecimalString(level), res)
         == GetMapByEpisode(episode, level, res)
  {
    var e := DecimalString(episode);
    var l := DecimalString(level);
    NoWhiteSpaceInDecimal(episode);
    NoWhiteSpaceInDecimal(level);
    ParseDecimalString(episode);
    ParseDecimalString(level);
    SplitTwoWords(e, l);
    assert (e + " " + l)[|e|] == ' ';
  }

  /** Strings the parse rejects find no map. */
  lemma MalformedStringsFail<D>(warpString: string, res: Resources<D>)
    ensures ' ' in warpString && |SplitSpaces(warpString)| < 2 ==> GetMapFromString(warpString, res).None?
    ensures ' ' in warpString && |SplitSpaces(warpString)| >= 2 && ParseInt32(SplitSpaces(warpString)[0]).None?
      ==> GetMapFromString(warpString, res).None?
    ensures ' ' !in warpString && ParseInt32(warpString).None? ==> GetMapFromString(warpString, res).None?
    ensures " " == warpString ==> GetMapFromString(warpString, res).None?
  {
    if warpString == " " {
      assert SplitSpaces(" ") == [];
    }
  }

  // ---- candidate names ----

  /** `GetMapNameString`: the first episode's map prefix, then the episode and level numbers. */
  function MapNameString<D>(episode: int, level: int, res: Resources<D>): (r: Option<string>)
    ensures r.Some? ==> |res.episodes| > 0 && res.mapPattern(res.episodes[0].startMap).Some?
    ensures r.Some? ==> var digits := DecimalString(level); |digits| <= |r.value| && r.value[|r.value| - |digits|..] == digits
  {
    if |res.episodes| > 0 then
      var prefix := res.mapPattern(res.episodes[0].startMap);
      if prefix.Some? then Some(prefix.value + DecimalString(episode) + DecimalString(level)) else None
    else None
  }

  /** `Math.Clamp`. */
  function Clamp(value: int, min: int, max: int): (r: int)
    requires min <= max
    ensures min <= r <= max
    ensures min <= value <= max ==> r == value
  {
    if value < min then min else if value > max then max else value
  }

  /** `GetEpisodeMapNameString`: the named episode's two prefixes with the clamped episode and the level. */
  function EpisodeMapNameString<D>(episode: int, level: int, res: Resources<D>): (r: Option<string>)
    ensures r.Some? ==> 1 <= Clamp(episode, 1, Int32Max) <= |res.episodes|
    ensures r.Some? ==> var digits := DecimalString(level); |digits| <= |r.value| && r.value[|r.value| - |digits|..] == digits
  {
    var ep := Clamp(episode, 1, Int32Max);
    var episodeIndex := ep - 1;
    if 0 <= episodeIndex < |res.episodes| then
      var groups := res.episodePattern(res.episodes[episodeIndex].startMap);
      if groups.Some? then Some(groups.value.0 + DecimalString(ep) + groups.value.1 + DecimalString(level)) else None
    else None
  }

  /** `GetMapName`: the definition of the map-style name, looked up with `MapInfo.GetMap`. */
  function GetMapName<D>(episode: int, level: int, res: Resources<D>): (r: Option<D>)
    ensures r.Some? ==>
      (|res.episodes| > 0 && res.mapPattern(res.episodes[0].startMap).Some?
       && r == res.getMap(res.mapPattern(res.episodes[0].startMap).value + DecimalString(episode) + DecimalString(level)))
  {
    var name := MapNameString(episode, level, res);
    if name.Some? then res.getMap(name.value) else None
  }

  /** `GetEpisodeMapName`: the definition of the episode-style name, looked up with `MapInfo.GetMap`. */
  function GetEpisodeMapName<D>(episode: int, level: int, res: Resources<D>): (r: Option<D>)
    ensures r.Some? ==> var ep := Clamp(episode, 1, Int32Max);
      ep <= |res.episodes| && res.episodePattern(res.episodes[ep - 1].startMap).Some?
      && var groups := res.episodePattern(res.episodes[ep - 1].startMap).value;
         r == res.getMap(groups.0 + DecimalString(ep) + groups.1 + DecimalString(level))
  {
    var name := EpisodeMapNameString(episode, level, res);
    if name.Some? then res.getMap(name.value) else None
  }

  /** A candidate name found in the archives, with its definition or a default one. */
  function FoundInArchive<D>(name: Option<string>, res: Resources<D>): Option<D>
  {
    if name.Some? && res.findMap(name.value) then Some(res.getMapInfoOrDefault(name.value)) else None
  }

  /** `GetMap(episode, level, ...)`: the four candidates in order; the first success wins. */
  function GetMapByEpisode<D>(episode: int, level: int, res: Resources<D>): (r: Option<D>)
    ensures GetMapName(episode, level, res).Some? ==> r == GetMapName(episode, level, res)
    ensures r.Some? ==>
      (r == GetMapName(episode, level, res) || r == GetEpisodeMapName(episode, level, res)
       || (MapNameString(episode, level, res).Some? && res.findMap(MapNameString(episode, level, res).value)
           && r == Some(res.getMapInfoOrDefault(MapNameString(episode, level, res).value)))
       || (EpisodeMapNameString(episode, level, res).Some? && res.findMap(EpisodeMapNameString(episode, level, res).value)
           && r == Some(res.getMapInfoOrDefault(EpisodeMapNameString(episode, level, res).value))))
  {
    var byMapName := GetMapName(episode, level, res);
    if byMapName.Some? then byMapName
    else
      var byEpisodeName := GetEpisodeMapName(episode, level, res);
      if byEpisodeName.Some? then byEpisodeName
      else
        var inArchive := FoundInArchive(MapNameString(episode, level, res), res);
        if inArchive.Some? then inArchive
        else FoundInArchive(EpisodeMapNameString(episode, level, res), res)
  }

  /** `options[i]` is present and none before it is. */
  predicate FirstSomeAt<T>(options: seq<Option<T>>, i: int) {
    0 <= i < |options| && options[i].Some? && forall k :: 0 <= k < i ==> options[k].None?
  }

  /** The first present option of a list. */
  function FirstSome<T>(options: seq<Option<T>>): (r: Option<T>)
    ensures r.None? <==> forall i :: 0 <= i < |options| ==> options[i].None?
    ensures r.Some? ==> exists i :: FirstSomeAt(options, i) && options[i] == r
  {
    if options == [] then None
    else if options[0].Some? then options[0]
    else
      var r := FirstSome(options[1..]);
      assert r.Some? ==> exists i :: FirstSomeAt(options, i) && options[i] == r by {
        if r.Some? {
          var i :| FirstSomeAt(options[1..], i) && options[1..][i] == r;
          assert options[i + 1] == r;
          forall k | 0 <= k < i + 1
            ensures options[k].None?
          {
            if k > 0 {
              assert options[k] == options[1..][k - 1];
            }
          }
        }
      }
      r
  }

  /**
   * The lookup order: map-style definition, episode-style definition,
   * map-style name in the archives, episode-style name in the archives; no
   * map is found only when all four fail.
   */
  lemma LookupOrder<D>(episode: int, level: int, res: Resources<D>)
    ensures GetMapByEpisode(episode, level, res) == FirstSome([
      GetMapName(episode, level, res),
      GetEpisodeMapName(episode, level, res),
      FoundInArchive(MapNameString(episode, level, res), res),
      FoundInArchive(EpisodeMapNameString(episode, level, res), res)])
    ensures GetMapByEpisode(episode, level, res).None? <==>
      (MapNameString(episode, level, res).None? ||
        (res.getMap(MapNameString(episode, level, res).value).None? && !res.findMap(MapNameString(episode, level, res).value)))
      && (EpisodeMapNameString(episode, level, res).None? ||
        (res.getMap(EpisodeMapNameString(episode, level, res).value).None? && !res.findMap(EpisodeMapNameString(episode, level, res).value)))
  {
    FirstSomeOfFour(GetMapName(episode, level, res), GetEpisodeMapName(episode, level, res),
      FoundInArchive(MapNameString(episode, level, res), res),
      FoundInArchive(EpisodeMapNameString(episode, level, res), res));
  }

  /** The first present option of four, tried in order. */
  lemma FirstSomeOfFour<T>(a: Option<T>, b: Option<T>, c: Option<T>, d: Option<T>)
    ensures FirstSome([a, b, c, d]) == if a.Some? then a else if b.Some? then b else if c.Some? then c else d
  {
    var options := [a, b, c, d];
    assert FirstSome(options[3..]) == d by {
      assert options[3..][1..] == [];
    }
    assert FirstSome(options[2..]) == if c.Some? then c else FirstSome(options[3..]) by {
      assert options[2..][1..] == options[3..];
    }
    assert FirstSome(options[1..]) == if b.Some? then b else FirstSome(options[2..]) by {
      assert options[1..][1..] == options[2..];
    }
  }

  /** The map-style name needs an episode definition and uses the first one, whatever the episode. */
  lemma MapNameSource<D>(episode: int, level: int, res: Resources<D>)
    ensures MapNameString(episode, level, res).Some? <==>
      |res.episodes| > 0 && res.mapPattern(res.episodes[0].startMap).Some?
    ensures MapNameString(episode, level, res).Some? ==>
      MapNameString(episode, level, res).value
        == res.mapPattern(res.episodes[0].startMap).value + DecimalString(episode) + DecimalString(level)
  {
  }

  /** Episodes below 1 read as episode 1 in the episode-style name. */
  lemma EpisodeNameClamps<D>(episode: int, level: int, res: Resources<D>)
    requires episode < 1
    ensures EpisodeMapNameString(episode, level, res) == EpisodeMapNameString(1, level, res)
  {
    assert Clamp(episode, 1, Int32Max) == 1 == Clamp(1, 1, Int32Max);
  }

  /**
   * The episode-style name uses the definition of the episode itself and
   * is absent for episodes past the definitions.
   */
  lemma EpisodeNameSource<D>(episode: int, level: int, res: Resources<D>)
    requires InInt32(episode)
    ensures episode > |res.episodes| ==> EpisodeMapNameString(episode, level, res).None?
    ensures 1 <= episode <= |res.episodes| ==>
      (EpisodeMapNameString(episode, level, res).Some? <==> res.episodePattern(res.episodes[episode - 1].startMap).Some?)
  {
    if episode >= 1 {
      assert Clamp(episode, 1, Int32Max) == episode;
    }
  }

  /** Two single digits side by side read as the two-digit number. */
  lemma TwoDigits(tens: int, units: int)
    requires 1 <= tens <= 9 && 0 <= units <= 9
    ensures DecimalString(tens) + DecimalString(units) == DecimalString(10 * tens + units)
  {
    var n := 10 * tens + units;
    assert n / 10 == tens && n % 10 == units;
  }

  /**
   * With a map-style prefix such as "MAP", warps 0 to 9 name the map with a
   * leading zero (warp 1 gives MAP01) and warps 10 to 99 name it with the
   * warp's own digits.
   */
  lemma MapStyleWarpNames<D>(warp: int, res: Resources<D>)
    requires 0 <= warp <= 99
    requires |res.episodes| > 0 && res.mapPattern(res.episodes[0].startMap).Some?
    ensures var prefix := res.mapPattern(res.episodes[0].startMap).value;
      var split := SplitWarp(warp);
      MapNameString(split.episode, split.level, res)
        == Some(prefix + (if warp < 10 then "0" else "") + DecimalString(warp))
  {
    var prefix := res.mapPattern(res.episodes[0].startMap).value;
    var split := SplitWarp(warp);
    if warp < 10 {
      assert split == EpisodeLevel(0, warp);
      assert DecimalString(0) == "0";
    } else {
      TwoDigits(split.episode, split.level);
      assert prefix + "" == prefix;
      assert prefix + DecimalString(split.episode) + DecimalString(split.level)
          == prefix + (DecimalString(split.episode) + DecimalString(split.level));
    }
  }

  /**
   * With episode-style prefixes such as "E" and "M" at every episode, warp
   * 10e + l for digits e >= 1 and l names episode e's map l ("E2M3" for 23).
   */
  lemma EpisodeStyleWarpNames<D>(warp: int, res: Resources<D>)
    requires 10 <= warp <= 99
    requires SplitWarp(warp).episode <= |res.episodes|
    requires res.episodePattern(res.episodes[SplitWarp(warp).episode - 1].startMap).Some?
    ensures var groups := res.episodePattern(res.episodes[warp / 10 - 1].startMap).value;
      var split := SplitWarp(warp);
      EpisodeMapNameString(split.episode, split.level, res)
        == Some(groups.0 + DecimalString(warp / 10) + groups.1 + DecimalString(warp % 10))
  {
  }
}
