# Helion core components in Dafny

A model of several small, sequential parts of the Helion Doom engine. Each is
stated in Dafny and has its properties proved:

- **Segment geometry.** The members that `SegmentGenerator` emits for its
  2D/3D segment types are modelled over exact reals: endpoints, bounding box,
  translation, `FromTime`/`ToTime`, the side tests (`PerpDot`, `OnRight`,
  `DifferentSides`, `ToSide`), `Parallel`/`Collinear`, line intersection and
  `ClosestPoint`. The generator's own loop over the twelve variants is also
  modelled.
- **Cheat codes.** This covers the case-insensitive multi-code cheat, the
  level cheat with its two-digit suffix, and `CheatManager`. The manager is a
  state machine over a lower-cased typed buffer: it resets on a mismatch, and
  it fires the first fully matching cheat and then clears the buffer.
- **The PNAMES lump parser.** It reads an int32 count followed by 8-byte
  names, checks the lengths, and upper-cases the names. A writer for the same
  format is defined and proved to round-trip.
- **The OpenTK input adapter.** It covers the key translation table, the
  pending input event that the key, mouse, wheel and character handlers update
  in place, and `PollInput`. `PollInput` hands the event out and carries the
  held keys forward.
- **The `bind`, `bindadd` and `unbind` console commands.** These work over the
  configuration's key-to-commands table.
- **The teleport special.** It finds the destination by thing id and/or
  sector tag, then `Tick` updates the entity.
- **Map warping.** A warp number or an "episode level" string becomes an
  episode and a level. Four candidate lookups are tried in order.
- **HUD alignment anchors** (`AlignHelper.Translate`).
- **The entity renderer's integer logic.** This is the 32-bit sprite-rotation
  selection, the per-position render counter and the light-level average.

Each source file is one Dafny module. `Wrappers.dfy` and `DotNet.dfy` hold
shared helpers. `Option` is in `Wrappers.dfy`. `DotNet.dfy` has the .NET
semantics the code relies on:
- C# truncating division;
- `int.TryParse`;
- decimal formatting;
- ASCII case folding.

C# `/` and `%` truncate toward zero and are written out where an operand can
be negative. Unsigned 32-bit wrap-around is written out as `% 2^32`.

Parts are stateful where the source is stateful, and are Dafny classes with
`modifies` clauses:
- `CheatManager`;
- `LevelCheat.IsMatch`;
- the input adapter's pending event;
- the key-binding table;
- the teleported entity;
- the renderer's position table.

Each such method's `ensures` gives its whole new state. In places it does so
through a specification function, and the properties are proved about that
function: `CheatManager.Run`, `InputAdapter.AfterPoll`, `BindCommands.Bind`
and `BindCommands.Unbind`, and `LevelCheat.MatchedLevel`.

## Model

| member | source | states |
|---|---|---|
| Align.Anchor | Core/Render/Common/Enums/Align.cs:93-105 | The nine-way switch picks x from the column word (0, w/2 truncated, w-1) and y from the row word (0, h/2, h-1) |
| Align.Translate | Core/Render/Common/Enums/Align.cs:89-108 | The result is the point moved by the anchor. TopLeft leaves the point unchanged. For w, h >= 1 the offset lies in [0, w-1] x [0, h-1] |
| Align.AnchorSeparates | Core/Render/Common/Enums/Align.cs:93-105 | Alignments sharing a column word share the anchor's x; alignments sharing a row word share its y |
| Align.TranslateIsTranslation | Core/Render/Common/Enums/Align.cs:107 | Translate is additive in the point: it is a translation |
| MultiCodeCheat.Create | Core/World/Cheats/MultiCodeCheat.cs:17-26 | Codes, type and both flags are taken from the constructor arguments |
| MultiCodeCheat.DefaultFlags | Core/World/Cheats/MultiCodeCheat.cs:17-18 | IsToggleCheat and ClearTypedCheatString default to true |
| MultiCodeCheat.IsMatch | Core/World/Cheats/MultiCodeCheat.cs:28 | True exactly when some code equals the string, ignoring case |
| MultiCodeCheat.PartialMatch | Core/World/Cheats/MultiCodeCheat.cs:30 | True exactly when some code starts with the string, ignoring case |
| MultiCodeCheat.MatchIsPartialMatch | Core/World/Cheats/MultiCodeCheat.cs:28-30 | A full match is a partial match |
| MultiCodeCheat.EmptyPartialMatch | Core/World/Cheats/MultiCodeCheat.cs:30 | The empty string partially matches exactly when there is a code |
| MultiCodeCheat.CaseInsensitive | Core/World/Cheats/MultiCodeCheat.cs:28-30 | Upper- or lower-casing the input changes neither answer |
| LevelCheat.PartialMatch | Core/World/Cheats/LevelCheat.cs:37-42 | True exactly when the string is a prefix of the code, or starts with the code and is at most two characters longer |
| LevelCheat.MatchedLevel | Core/World/Cheats/LevelCheat.cs:22-35 | A match requires length = code + 2, the code as prefix and two trailing digits. The level is the two digits' value, in 0..99 |
| LevelCheat.TwoDigitsParse | Core/World/Cheats/LevelCheat.cs:26-27 | int.TryParse of two ASCII digits succeeds with their value |
| LevelCheat.PrefixesPartiallyMatch | Core/World/Cheats/LevelCheat.cs:39-40 | Every prefix of the code, the empty one included, partially matches |
| LevelCheat.MatchIsPartialMatch | Core/World/Cheats/LevelCheat.cs:24 | A full match is a partial match |
| LevelCheat.CodeWithLevelMatches | Core/World/Cheats/LevelCheat.cs:22-35 | The code followed by any two digits matches with that level |
| LevelCheat.LevelCheat.constructor | Core/World/Cheats/LevelCheat.cs:9-20 | Not activated, LevelNumber starts at 1 |
| LevelCheat.LevelCheat.IsMatch | Core/World/Cheats/LevelCheat.cs:22-35 | Matches exactly as MatchedLevel. On a match LevelNumber becomes the level (0..99); otherwise it is unchanged |
| CheatManager.MatchesIsPartial | Core/Cheats/CheatManager.cs:50-52 | Any cheat's full match is also its partial match, so a full match is always reached through the partial-match test |
| CheatManager.AnyPartial | Core/Cheats/CheatManager.cs:50 | True exactly when some cheat partially matches |
| CheatManager.FirstMatch | Core/Cheats/CheatManager.cs:52 | FirstOrDefault: the least index whose cheat fully matches, or none when none does |
| CheatManager.FirstMatchAt | Core/Cheats/CheatManager.cs:52 | The first matching index is the one found |
| CheatManager.IndexOfType | Core/Cheats/CheatManager.cs:29-33 | The cheat registered for a type, or none when no cheat has it |
| CheatManager.IndexOfOwnType | Core/Cheats/CheatManager.cs:24-27 | With distinct types, each cheat is found under its own type |
| CheatManager.Lookup | Core/Cheats/CheatManager.cs:24-27 | The dictionary built by ToDictionary maps exactly the registered types to their cheats |
| CheatManager.ActivateUnregistered | Core/Cheats/CheatManager.cs:29-33 | Activating an unregistered type changes nothing and raises no event |
| CheatManager.ActivateRegistered | Core/Cheats/CheatManager.cs:35-39 | A registered cheat's flag flips if it toggles and stays otherwise. No other flag changes. The event is raised |
| CheatManager.Activate | Core/Cheats/CheatManager.cs:29-40 | The event is raised exactly for a registered type. Only that cheat's flag can change |
| CheatManager.Step | Core/Cheats/CheatManager.cs:46-63 | One typed character keeps the manager's state well formed |
| CheatManager.StepBuffer | Core/Cheats/CheatManager.cs:46-62 | The buffer either is cleared or grows by the lower-cased character |
| CheatManager.StepNoPartialMatch | Core/Cheats/CheatManager.cs:50-62 | With no partial match the buffer empties and nothing else changes |
| CheatManager.StepPartialMatchOnly | Core/Cheats/CheatManager.cs:50-58 | A partial match without a full match keeps the extended buffer and changes nothing else |
| CheatManager.StepFullMatch | Core/Cheats/CheatManager.cs:52-57 | The first fully matching cheat is activated. A level cheat's number is set. The buffer is cleared. Other cheats are untouched |
| CheatManager.LevelCheatKeepsFlags | Core/World/Cheats/LevelCheat.cs:9 | A level cheat never toggles, so firing it changes no activation flag |
| CheatManager.RunKeepsBufferMatchable | Core/Cheats/CheatManager.cs:42-64 | After any input the buffer is empty or still partially matches some cheat |
| CheatManager.Run | Core/Cheats/CheatManager.cs:42-64 | The state stays well formed. At most one activation per character, and only of registered types |
| CheatManager.CheatManager.StateOf | Core/Cheats/CheatManager.cs:11-18 | The manager's fields form a well-formed state |
| CheatManager.CheatManager.constructor | Core/Cheats/CheatManager.cs:24-27 | Requires distinct types (a dictionary key). Nothing is active and the buffer is empty |
| CheatManager.CheatManager.ActivateCheat | Core/Cheats/CheatManager.cs:29-40 | The flags and the event are those of Activate |
| CheatManager.CheatManager.IsCheatActive | Core/Cheats/CheatManager.cs:66-71 | False for unregistered types, otherwise the cheat's Activated flag |
| CheatManager.CheatManager.HandleInput | Core/Cheats/CheatManager.cs:42-64 | The loop over the characters leaves the state and events that Run gives |
| CheatManager.CheatManager.HandleChar | Core/Cheats/CheatManager.cs:46-63 | One loop iteration equals Step |
| CheatManager.CheatManager.FindAndApplyMatch | Core/Cheats/CheatManager.cs:52 | Finds FirstMatch. A level cheat's IsMatch stores its level; the level numbers are otherwise unchanged |
| Pnames.ReadInt32 | Core/Resources/Definitions/Texture/Pnames.cs:37 | Four bytes read little-endian as a signed 32-bit value, or a failure past the end |
| Pnames.NameChars | Core/Resources/Definitions/Texture/Pnames.cs:44 | The name field's bytes up to the first NUL |
| Pnames.ReadEightByteString | Core/Resources/Definitions/Texture/Pnames.cs:44 | Reads eight bytes as a NUL-terminated name, or fails past the end |
| Pnames.ShortInputRejected | Core/Resources/Definitions/Texture/Pnames.cs:29-30 | Inputs shorter than four bytes fail the C# `%` length check |
| Pnames.ParseAccepts | Core/Resources/Definitions/Texture/Pnames.cs:27-52 | Accepted exactly when length = 4 + 8k and the declared count is at most k |
| Pnames.Parse | Core/Resources/Definitions/Texture/Pnames.cs:37-51 | On success: max(count, 0) names, at most the entries present. Entry i comes from bytes 4+8i.. and is upper-cased. Trailing entries are ignored |
| Pnames.ParseUpperCases | Core/Resources/Definitions/Texture/Pnames.cs:44 | No stored name has a lower-case letter |
| Pnames.From | Core/Resources/Definitions/Texture/Pnames.cs:27-52 | The checks and the cursor loop give exactly Parse. The caught read failure cannot occur once the checks pass |
| Pnames.Int32RoundTrip | Core/Resources/Definitions/Texture/Pnames.cs:37 | Reading an encoded count gives it back |
| Pnames.NameRoundTrip | Core/Resources/Definitions/Texture/Pnames.cs:44 | Reading an encoded name gives it back |
| Pnames.Encode | Core/Resources/Definitions/Texture/Pnames.cs:29-44 | Builds a lump in the layout From reads: 4 + 8n bytes whose count field reads back as n |
| Pnames.ParseEncode | Core/Resources/Definitions/Texture/Pnames.cs:27-52 | A lump written from storable names parses back to those names upper-cased |
| InputAdapter.ToInputKey | Client/OpenTK/OpenTKInputAdapter.cs:11-222 | Unknown exactly for unlisted keys. Never a mouse key |
| InputAdapter.ToInputKeyInverse | Client/OpenTK/OpenTKInputAdapter.cs:11-222 | The inverse table recovers each listed key up to its canonical alias, and the alias translates alike |
| InputAdapter.FromInputKey | Client/OpenTK/OpenTKInputAdapter.cs:11-222 | Defined exactly on the keyboard input keys (not Unknown, not mouse). It gives a listed, canonical OpenTK key |
| InputAdapter.FromInputKeyInverse | Client/OpenTK/OpenTKInputAdapter.cs:11-222 | Translating the recovered key gives the input key back |
| InputAdapter.SameInputKey | Client/OpenTK/OpenTKInputAdapter.cs:11-222 | Two listed keys translate alike exactly when they are aliases |
| InputAdapter.Aliases | Client/OpenTK/OpenTKInputAdapter.cs:59-218 | Keypad and number-row digits, KeypadEnter and Enter, BackSlash and NonUSBackSlash each give the same input key |
| InputAdapter.MouseKeys | Client/OpenTK/OpenTKInputAdapter.cs:255-298 | Every button except LastButton has a mouse key, and the button is recoverable from it |
| InputAdapter.MouseKeysDistinct | Client/OpenTK/OpenTKInputAdapter.cs:255-343 | Distinct buttons give distinct mouse keys |
| InputAdapter.PressRelease | Client/OpenTK/OpenTKInputAdapter.cs:241-253 | Down adds a known key and up removes it. Unknown changes nothing. Both are idempotent |
| InputAdapter.AfterPoll | Client/OpenTK/OpenTKInputAdapter.cs:345-357 | The new event is empty except that InputDown and InputPrevDown both hold the old InputDown |
| InputAdapter.PollTwice | Client/OpenTK/OpenTKInputAdapter.cs:345-357 | Polling with no input in between changes nothing more; held keys become the previous keys |
| InputAdapter.OpenTKInputAdapter.constructor | Client/OpenTK/OpenTKInputAdapter.cs:9 | Starts with an empty event |
| InputAdapter.OpenTKInputAdapter.HandleMouseMovement | Client/OpenTK/OpenTKInputAdapter.cs:224-227 | Adds the negated deltas; nothing else changes |
| InputAdapter.OpenTKInputAdapter.HandleMouseWheelInput | Client/OpenTK/OpenTKInputAdapter.cs:229-234 | Adds the scroll delta; nothing else changes |
| InputAdapter.OpenTKInputAdapter.HandleKeyPress | Client/OpenTK/OpenTKInputAdapter.cs:236-239 | Appends the typed character |
| InputAdapter.OpenTKInputAdapter.HandleKeyDown | Client/OpenTK/OpenTKInputAdapter.cs:241-246 | InputDown becomes Press of the translated key |
| InputAdapter.OpenTKInputAdapter.HandleKeyUp | Client/OpenTK/OpenTKInputAdapter.cs:248-253 | InputDown becomes Release of the translated key |
| InputAdapter.OpenTKInputAdapter.HandleMouseDown | Client/OpenTK/OpenTKInputAdapter.cs:255-298 | Adds the button's mouse key. LastButton changes nothing |
| InputAdapter.OpenTKInputAdapter.HandleMouseUp | Client/OpenTK/OpenTKInputAdapter.cs:300-343 | Removes the button's mouse key. LastButton changes nothing |
| InputAdapter.OpenTKInputAdapter.PollInput | Client/OpenTK/OpenTKInputAdapter.cs:345-357 | Returns the accumulated event. The copy loop leaves the new event equal to AfterPoll of it |
| BindCommands.LexLeTotal | Client/Client.Commands.Bind.cs:124 | The ordinal string order is total |
| BindCommands.LexLeTransitive | Client/Client.Commands.Bind.cs:124 | The ordinal string order is transitive |
| BindCommands.Insert | Client/Client.Commands.Bind.cs:124 | Insertion adds exactly the one element |
| BindCommands.InsertSorted | Client/Client.Commands.Bind.cs:124 | Inserting into a sorted list keeps it sorted |
| BindCommands.Sort | Client/Client.Commands.Bind.cs:124 | The sort is a permutation |
| BindCommands.SortSorted | Client/Client.Commands.Bind.cs:124 | The sort's result is sorted |
| BindCommands.AvailableInputCommands | Client/Client.Commands.Bind.cs:121-125 | The constant names, as a sorted permutation |
| BindCommands.CheckAvailableInputCommands | Client/Client.Commands.Bind.cs:127-137 | True exactly when some listed command equals the command, ignoring case |
| BindCommands.CheckIgnoresOrder | Client/Client.Commands.Bind.cs:121-137 | Checking the sorted list is checking the constants themselves |
| BindCommands.GetInputKey | Client/Client.Commands.Bind.cs:107-119 | Succeeds exactly when some key name equals the argument ignoring case, and gives that declared name |
| BindCommands.GetInputKeyIgnoresCase | Client/Client.Commands.Bind.cs:109 | Letter case of the argument does not matter |
| BindCommands.Without | Client/Client.Commands.Bind.cs:80-87 | Exactly the other commands remain |
| BindCommands.KeyBindings.Add | Client/Client.Commands.Bind.cs:52 | The command is appended to the key's commands |
| BindCommands.KeyBindings.Remove | Client/Client.Commands.Bind.cs:73-78 | The key loses every command; the result says whether it had any |
| BindCommands.KeyBindings.RemovePair | Client/Client.Commands.Bind.cs:80-87 | The one pair is removed; false and no change when absent |
| BindCommands.RemovedPair | Client/Client.Commands.Bind.cs:80-87 | Only the key's entry changes. It is dropped when no command remains |
| BindCommands.Bind | Client/Client.Commands.Bind.cs:27-53 | Every outcome except Bound leaves the table unchanged. No arguments, and only then, lists. One argument is an error |
| BindCommands.Unbind | Client/Client.Commands.Bind.cs:55-88 | Every outcome except Unbound and NoCommands leaves the table unchanged. No arguments, and only then, lists |
| BindCommands.BindReplaces | Client/Client.Commands.Bind.cs:27-53 | A bind succeeds exactly when key and command validate. The key then has just that command; other keys are untouched |
| BindCommands.BindAddIsBind | Client/Client.Commands.Bind.cs:15-27 | removeExisting is not consulted: bind and bindadd have the same effect |
| BindCommands.UnbindRemoves | Client/Client.Commands.Bind.cs:55-88 | `unbind key` removes all the key's commands and reports none exactly when it had none. `unbind key cmd` removes only that pair |
| BindCommands.Client.constructor | Client/Client.Commands.Bind.cs:107-125 | An empty table with the key names and the input-command names |
| BindCommands.Client.ExecuteBind | Client/Client.Commands.Bind.cs:27-53 | The outcome and the new table are those of Bind |
| BindCommands.Client.BindCommand | Client/Client.Commands.Bind.cs:15-19 | bind is ExecuteBind with removeExisting set |
| BindCommands.Client.BindAddCommand | Client/Client.Commands.Bind.cs:21-25 | bindadd is ExecuteBind with removeExisting cleared |
| BindCommands.Client.UnbindCommand | Client/Client.Commands.Bind.cs:55-88 | The outcome and the new table are those of Unbind |
| BindCommands.BindAddDropsExisting | Client/Client.Commands.Bind.cs:21-52 | As written, `bindadd w jump` on W bound to Forward leaves W with jump alone |
| BindCommands.IntendedBindAddKeeps | Client/Client.Commands.Bind.cs:21-25 | With the flag honoured, bindadd keeps the key's commands and appends the new one, and bind is unchanged |
| BindCommands.IntendedBindAddExample | Client/Client.Commands.Bind.cs:21-25 | On the same input the corrected bindadd leaves W with Forward and jump |
| Teleport.SectorsWithTag | Core/World/Special/Specials/TeleportSpecial.cs:83 | Exactly the sectors with the tag; order is kept by SectorsWithTagAppend |
| Teleport.SectorsWithTagAppend | Core/World/Special/Specials/TeleportSpecial.cs:83 | The tag filter keeps order: filtering a concatenation is filtering each part, and one sector stays exactly when tagged |
| Teleport.EntitiesWithTid | Core/World/Special/Specials/TeleportSpecial.cs:90 | Exactly the entities with the thing id; order is kept by EntitiesWithTidAppend |
| Teleport.EntitiesWithTidAppend | Core/World/Special/Specials/TeleportSpecial.cs:90 | The thing-id filter keeps order: filtering a concatenation is filtering each part, and one entity stays exactly when its id matches |
| Teleport.FindBySectorTag | Core/World/Special/Specials/TeleportSpecial.cs:83 | The world's sectors with the tag, and all of them |
| Teleport.FindByTid | Core/World/Special/Specials/TeleportSpecial.cs:90 | The world's entities with the thing id, and all of them |
| Teleport.FirstSpot | Core/World/Special/Specials/TeleportSpecial.cs:84-92 | The first teleport-spot entity matching the optional thing id, or none exactly when there is none |
| Teleport.FirstSpotInSectors | Core/World/Special/Specials/TeleportSpecial.cs:81-100 | The nested search returns only destinations |
| Teleport.FirstSpotAppend | Core/World/Special/Specials/TeleportSpecial.cs:81-100 | Searching a concatenation searches the first part first |
| Teleport.NestedSearchIsFlatSearch | Core/World/Special/Specials/TeleportSpecial.cs:81-100 | The sector-by-sector search equals one search over the sectors' entities in order |
| Teleport.TidSearch | Core/World/Special/Specials/TeleportSpecial.cs:88-92 | Searching the entities with the thing id equals searching all for a spot with that id |
| Teleport.FindTeleportSpot | Core/World/Special/Specials/TeleportSpecial.cs:72-103 | A result is always a teleport spot |
| Teleport.FindTeleportSpotCases | Core/World/Special/Specials/TeleportSpecial.cs:72-103 | No tid and no tag: none. Tag only: first spot in tagged sectors. Tid only: first spot with the tid. Both: first spot in tagged sectors with the tid |
| Teleport.TeleportSpecial.constructor | Core/World/Special/Specials/TeleportSpecial.cs:19-23 | Records the entity, tid, tag and world |
| Teleport.TeleportSpecial.Tick | Core/World/Special/Specials/TeleportSpecial.cs:25-51 | Always Destroy. No destination: the entity is unchanged. Otherwise it is frozen 18 tics and stopped, takes the spot's position and angle, a player's pitch becomes 0, and it takes the ground state |
| MapWarp.SplitWarp | Core/World/Util/MapWarp.cs:29-34 | 10 * episode + level == warp. For warp >= 0 the level is 0..9 and the episode warp / 10; negative warps give levels -9..0 |
| MapWarp.GetMapByWarp | Core/World/Util/MapWarp.cs:29-34 | A warp looks up episode warp / 10 and level warp % 10, both truncated toward zero for a negative warp |
| MapWarp.SplitFrom | Core/World/Util/MapWarp.cs:16 | Split with RemoveEmptyEntries yields non-empty tokens without spaces |
| MapWarp.SplitSpaces | Core/World/Util/MapWarp.cs:16 | Split with RemoveEmptyEntries yields non-empty tokens without spaces |
| MapWarp.SplitTwoWords | Core/World/Util/MapWarp.cs:16 | Two words joined by a space split back into the two words |
| MapWarp.SplitSpacesPadded | Core/World/Util/MapWarp.cs:16 | Space-free words joined by one or more spaces, with any leading and trailing spaces, split back into exactly those words |
| MapWarp.PaddedStringWarps | Core/World/Util/MapWarp.cs:14-20 | A string of two or more spaced words warps with its first two words, and finds nothing unless both parse |
| MapWarp.GetMapFromString | Core/World/Util/MapWarp.cs:11-27 | Any map found is the lookup of some episode and level |
| MapWarp.NumberStringWarps | Core/World/Util/MapWarp.cs:23-26 | A decimal number string warps as that number |
| MapWarp.PairStringWarps | Core/World/Util/MapWarp.cs:14-18 | "episode level" in decimal warps to that episode and level |
| MapWarp.MalformedStringsFail | Core/World/Util/MapWarp.cs:14-24 | Fewer than two tokens, a non-integer first token, or an unparseable string without spaces find no map |
| MapWarp.Clamp | Core/World/Util/MapWarp.cs:104 | Math.Clamp: the result lies in the range and is the value when it already does |
| MapWarp.FirstSome | Core/World/Util/MapWarp.cs:36-58 | The first present option, and none exactly when all are absent |
| MapWarp.LookupOrder | Core/World/Util/MapWarp.cs:36-58 | Map-style definition, episode-style definition, then each name in the archives; no map exactly when all four fail |
| MapWarp.GetMapByEpisode | Core/World/Util/MapWarp.cs:36-58 | A map-style definition wins. Any map found is a definition found by name, or an archive map with its default definition |
| MapWarp.GetMapName | Core/World/Util/MapWarp.cs:60-70 | A definition found is GetMap of the first episode's prefix + episode + level |
| MapWarp.GetEpisodeMapName | Core/World/Util/MapWarp.cs:90-100 | A definition found is GetMap of the clamped episode's two prefixes with the episode and level |
| MapWarp.MapNameSource | Core/World/Util/MapWarp.cs:72-88 | The map-style name needs an episode definition, uses the first one, and is prefix + episode + level |
| MapWarp.MapNameString | Core/World/Util/MapWarp.cs:72-88 | A name needs an episode definition whose start map matches the pattern, and ends with the level's digits |
| MapWarp.EpisodeNameClamps | Core/World/Util/MapWarp.cs:104 | Episodes below 1 build the name of episode 1 |
| MapWarp.EpisodeNameSource | Core/World/Util/MapWarp.cs:102-121 | The episode-style name uses Episodes[episode-1] and is absent past the last episode |
| MapWarp.EpisodeMapNameString | Core/World/Util/MapWarp.cs:102-121 | A name needs the clamped episode to be defined, and ends with the level's digits |
| MapWarp.MapStyleWarpNames | Core/World/Util/MapWarp.cs:72-88 | With a map-style prefix, warp 1 names MAP01 and warp 23 names MAP23 |
| MapWarp.EpisodeStyleWarpNames | Core/World/Util/MapWarp.cs:102-121 | With episode-style prefixes, warp 23 names E2M3 |
| EntityRenderer.CalculateRotation | Core/Render/OpenGL/Renderers/Legacy/World/Entities/EntityRenderer.cs:74-96 | Always 0..7: the top three bits of the wrapped 32-bit sum |
| EntityRenderer.RotationAngleValue | Core/Render/OpenGL/Renderers/Legacy/World/Entities/EntityRenderer.cs:79 | The offset 9 * (uint.MaxValue / 16) is 0x8FFFFFF7, just under four and a half sectors |
| EntityRenderer.RotationDependsOnDifference | Core/Render/OpenGL/Renderers/Legacy/World/Entities/EntityRenderer.cs:95 | Only the wrapped difference of the two angles matters |
| EntityRenderer.EqualAnglesGiveRotationFour | Core/Render/OpenGL/Renderers/Legacy/World/Entities/EntityRenderer.cs:79-95 | Equal angles give rotation 4 |
| EntityRenderer.OppositeAnglesGiveRotationZero | Core/Render/OpenGL/Renderers/Legacy/World/Entities/EntityRenderer.cs:79-95 | Facing the viewer gives rotation 0 |
| EntityRenderer.SelectRotation | Core/Render/OpenGL/Renderers/Legacy/World/Entities/EntityRenderer.cs:134-141 | 0 without a sprite definition or rotations, otherwise CalculateRotation |
| EntityRenderer.LightLevel | Core/Render/OpenGL/Renderers/Legacy/World/Entities/EntityRenderer.cs:164-165 | 255 when bright. Otherwise the average of the two levels truncated toward zero, for both signs of the sum: between them, within half a unit of the mean |
| EntityRenderer.EntityRenderer.constructor | Core/Render/OpenGL/Renderers/Legacy/World/Entities/EntityRenderer.cs:37-48 | No positions and no vertices; the Z check as configured |
| EntityRenderer.EntityRenderer.Clear | Core/Render/OpenGL/Renderers/Legacy/World/Entities/EntityRenderer.cs:60-69 | Empties the position counts and the vertices and rereads the Z check |
| EntityRenderer.EntityRenderer.CountPosition | Core/Render/OpenGL/Renderers/Legacy/World/Entities/EntityRenderer.cs:143-156 | The position's count is one more than its earlier renders (1 the first time); other positions are untouched |
| EntityRenderer.EntityRenderer.RenderEntity | Core/Render/OpenGL/Renderers/Legacy/World/Entities/EntityRenderer.cs:125-202 | Counts the position only with the Z check on, and pushes one vertex with the selected rotation, light level and nudge count |
| Segments.Box | Generators/Generators/SegmentGenerator.cs:80 | The 2D box's corners are the per-axis min and max of the endpoints |
| Segments.Box3Of | Generators/Generators/SegmentGenerator.cs:82 | The 3D box's corners are the per-axis min and max of the endpoints |
| Segments.Index | Generators/Generators/SegmentGenerator.cs:169 | Index 0 is Start, any other index End |
| Segments.At | Generators/Generators/SegmentGenerator.cs:170 | Start is vertex 0 and End is vertex 1 |
| Segments.Opposite | Generators/Generators/SegmentGenerator.cs:195 | With At it names both endpoints. It differs from At when the endpoints differ |
| Segments.Vertices | Generators/Generators/SegmentGenerator.cs:452-456 | Exactly two vertices |
| Segments.EndpointsPartition | Generators/Generators/SegmentGenerator.cs:169-195 | An endpoint and its opposite are the two endpoints. The indexers and Vertices agree |
| Segments.Plus | Generators/Generators/SegmentGenerator.cs:177-178 | Both endpoints move by the vector; Delta is unchanged |
| Segments.Minus | Generators/Generators/SegmentGenerator.cs:179-180 | Both endpoints move back by the vector; Delta is unchanged |
| Segments.Plus3 | Generators/Generators/SegmentGenerator.cs:177-178 | The 3D form of Plus |
| Segments.Minus3 | Generators/Generators/SegmentGenerator.cs:179-180 | The 3D form of Minus |
| Segments.TranslationInverse | Generators/Generators/SegmentGenerator.cs:177-180 | `+` and `-` by the same vector undo each other |
| Segments.TranslationInverse3 | Generators/Generators/SegmentGenerator.cs:177-180 | The same for 3D segments |
| Segments.WithStart | Generators/Generators/SegmentGenerator.cs:199-200 | Replaces only Start |
| Segments.WithEnd | Generators/Generators/SegmentGenerator.cs:201-202 | Replaces only End |
| Segments.FromTime | Generators/Generators/SegmentGenerator.cs:205 | Every time gives a point on the segment's line (perp-dot zero) |
| Segments.FromTimeEndpoints | Generators/Generators/SegmentGenerator.cs:205 | FromTime(0) is Start and FromTime(1) is End |
| Segments.FromTimeEndpoints3 | Generators/Generators/SegmentGenerator.cs:205 | The same in 3D |
| Segments.FromTimeTranslates | Generators/Generators/SegmentGenerator.cs:177-205 | FromTime commutes with translation |
| Segments.PerpDot | Generators/Generators/SegmentGenerator.cs:227-234 | Zero at both endpoints |
| Segments.PerpDotOnLine | Generators/Generators/SegmentGenerator.cs:227-234 | PerpDot is zero at Start, at End and at every FromTime point |
| Segments.PerpDotReversed | Generators/Generators/SegmentGenerator.cs:227-234 | Reversing the segment negates PerpDot |
| Segments.OnRight | Generators/Generators/SegmentGenerator.cs:238 | Both endpoints count as on the right |
| Segments.DifferentSides | Generators/Generators/SegmentGenerator.cs:245 | False for one point twice. When one point is an endpoint, the other must be strictly left |
| Segments.SideTests | Generators/Generators/SegmentGenerator.cs:236-249 | Points on the line are on the right. DifferentSides is symmetric and false for one point. The 3D and segment forms agree with the 2D point form |
| Segments.ReversedSides | Generators/Generators/SegmentGenerator.cs:238 | Off the line, reversing the segment swaps the side |
| Segments.ToSide | Generators/Generators/SegmentGenerator.cs:253-264 | On within epsilon of the line, otherwise Right for negative PerpDot and Left for positive |
| Segments.ToSideAgreesWithOnRight | Generators/Generators/SegmentGenerator.cs:238-264 | Right implies OnRight and Left implies not. Points of the segment are On. With zero epsilon On means PerpDot = 0 |
| Segments.ToTime | Generators/Generators/SegmentGenerator.cs:266-277 | Undefined exactly when the chosen coordinate's span is zero |
| Segments.ToTimeFromTime | Generators/Generators/SegmentGenerator.cs:266-277 | ToTime(FromTime(t)) = t when the span is non-zero; Start gives 0 and End gives 1 |
| Segments.SpanOfProperSegment | Generators/Generators/SegmentGenerator.cs:266-277 | With epsilon >= 0 the span is non-zero exactly when the X values differ by more than epsilon or the Y values differ. With epsilon 0, exactly when the endpoints differ |
| Segments.ShortFlatSegmentHasNoTime | Generators/Generators/SegmentGenerator.cs:266-277 | A flat segment shorter than epsilon is treated as vertical and has no time |
| Segments.Parallel | Generators/Generators/SegmentGenerator.cs:279-290 | A segment is parallel to itself for epsilon >= 0; nothing is parallel for a negative epsilon |
| Segments.Collinear | Generators/Generators/SegmentGenerator.cs:292-306 | A segment is collinear with itself for epsilon >= 0; nothing is collinear for a negative epsilon |
| Segments.CollinearIsOn | Generators/Generators/SegmentGenerator.cs:292-306 | Collinear holds exactly when both of the other segment's endpoints are On this line |
| Segments.ParallelCollinearSelf | Generators/Generators/SegmentGenerator.cs:279-306 | Parallel is symmetric. A segment is parallel and collinear to itself |
| Segments.IntersectionAsLine | Generators/Generators/SegmentGenerator.cs:343-365 | No intersection exactly when the determinant is approximately zero |
| Segments.IntersectionAsLineTwo | Generators/Generators/SegmentGenerator.cs:367-392 | The same condition; its first time equals the one-result form |
| Segments.IntersectionOnOtherLine | Generators/Generators/SegmentGenerator.cs:343-365 | The point at the returned time lies on the other segment's line |
| Segments.IntersectionTimesAgree | Generators/Generators/SegmentGenerator.cs:367-392 | Both returned times name the same point |
| Segments.ClosestPoint | Generators/Generators/SegmentGenerator.cs:394-412 | Start when the projected time is <= 0, End when >= 1, otherwise FromTime of it |
| Segments.ClampedTime | Generators/Generators/SegmentGenerator.cs:394-404 | The closest point is FromTime of a time in [0, 1] |
| Segments.ClosestPointIsClosest | Generators/Generators/SegmentGenerator.cs:394-412 | No point of the segment is nearer to the query point |
| Segments.ClassName | Generators/Generators/SegmentGenerator.cs:13 | Begins with "Seg". It ends in `>` exactly for the generic class |
| Segments.FileName | Generators/Generators/SegmentGenerator.cs:63 | The file name is the class name without `<V>` |
| Segments.VariantAt | Generators/Generators/SegmentGenerator.cs:459-470 | Each of the twelve loop positions is a generated variant |
| Segments.VariantsCovered | Generators/Generators/SegmentGenerator.cs:459-470 | Every generated variant (type x dimension x kind) is one of the twelve |
| Segments.FileNamesDistinct | Generators/Generators/SegmentGenerator.cs:13-24 | Distinct variants get distinct file names |
| Segments.PerformGeneration | Generators/Generators/SegmentGenerator.cs:36-67 | Writes to Geometry/Segments/<file name>.cs |
| Segments.Generate | Generators/Generators/SegmentGenerator.cs:459-470 | The nested loops generate exactly the twelve variants in order |
| Segments.FilePathInjective | Generators/Generators/SegmentGenerator.cs:63-64 | Distinct variants write distinct paths |
| Segments.GeneratedPathsDistinct | Generators/Generators/SegmentGenerator.cs:459-470 | The twelve generated files are all different |
| DotNet.TruncDiv | Core/World/Util/MapWarp.cs:31 | C# `/`: the Euclidean quotient for a non-negative dividend and positive divisor; the sign follows the operands' signs |
| DotNet.TruncDivRemainder | Core/World/Util/MapWarp.cs:31-32 | The C# remainder by a positive divisor is smaller than it and has the dividend's sign |
| DotNet.ParseInt32 | Core/World/Util/MapWarp.cs:17 | int.TryParse succeeds only with a 32-bit value |
| DotNet.ParseDecimalString | Core/World/Util/MapWarp.cs:17-23 | Parsing a formatted 32-bit integer gives it back |

## Left out

- The BSP builder. `Core/BSP/Builder/OptimizedBspBuilder.cs` only drives a `BspBuilder`. That builder's partitioning and splitting are not part of this model.
- The following are parameters of the model, not part of it:
  - logging;
  - the `CheatActivationChanged` event, modelled as the returned list of fired types;
  - the `CheatManager.Instance` singleton;
  - reflection over `Constants.Input`, modelled as a list of names;
  - the `Key` enum's names;
  - `MapInfo`, `ArchiveCollection.FindMap` and the two regular expressions in MapWarp, modelled as functions in `MapWarp.Resources`.
- `ByteReader` is not part of this model. Its `ReadInt32` is modelled as little-endian two's complement. `ReadEightByteString` is modelled as the bytes up to the first NUL, one character per byte.
- Case folding, digits and white space are ASCII only. .NET culture rules and non-ASCII letters are not modelled.
- CheatManager: the concrete cheat list (exact-match cheats, the change-level cheat and so on) is not part of this model. The manager is parameterised by a list of multi-code and level cheats.
- CheatManager: `HandleInput` takes the typed characters as a sequence; the input event it reads them from is not modelled.
- BindCommands.GetInputKey: it does not model `Enum.TryParse`'s numeric and comma-separated forms, nor its trimming of white space around the name (so `" w"` is rejected here but names W in the source); only declared names, ignoring case, are accepted.
- BindCommands.AvailableInputCommands: it sorts by ordinal character order. `OrderBy` uses the culture's string comparer, whose order is not modelled.
- BindCommands.KeyBindings: the configuration's key container is not part of this model. It is modelled as a key-to-sequence map where a key with no commands has no entry.
- The bind listing (`LogKeyBindings`) and `InputCommands` only write to the log. They are modelled as the `ListedBindings` outcome.
- InputAdapter: only the keys the adapter translates are modelled. `InputKey` values are grouped by kind. `InputDown` and `InputPrevDown` are modelled as sets because their collection type is not part of this model.
- InputAdapter: the concrete numeric values of OpenTK's and Helion's key enums are not modelled. Unlisted OpenTK keys are one constructor carrying their code.
- Segments.Length: not modelled, because the square root has no exact real form. `DistanceSquared` is used instead.
- Segments: `SameDirection`, `Intersection`, `Intersects(seg)` and `Intersects(box)` are not modelled. They depend on `DifferentSign` and `Box.Overlaps`, which are not part of this model. `Intersection`'s inner sign test (SegmentGenerator.cs:321) repeats its outer one, but without `DifferentSign` the effect on touching segments cannot be stated.
- Segments: `ToString`, `Equals`, `GetHashCode`, `Deconstruct` and the implicit tuple conversion are not modelled. Nor is the class text `PerformGeneration` writes; only the file path is modelled.
- Segments: floating point is modelled as exact reals. Epsilon is a parameter, and `ApproxEquals` is taken as inclusive.
- Segments.ToTime: a zero span yields no time. In the source it yields an IEEE infinity or NaN.
- Segments.ClosestPoint: requires distinct endpoints. The source divides 0 by 0 there.
- Segments.IntersectionAsLine: requires a non-negative epsilon, which the source's default tolerance is.
- Segments: the float/double shorthand in class names is assumed to be `F`/`D`, because `GetShorthand` is not part of this model.
- EntityRenderer.RenderEntity: it does not model `GetOffsetZ`, the nudge vector's float geometry, interpolation or the texture lookup. Only the integer content of the pushed vertex is stated.
- EntityRenderer.LightLevel: the cast of the average back to `short` is exact for 16-bit inputs and needs no wrap-around.
- Teleport.TeleportSpecial.Tick: it does not model unlinking and relinking the entity, interpolation, or the teleport fog (empty in the source). `CheckOnGround` after relinking is a parameter.
- Teleport: the map's entity and sector search structures are sequences in iteration order.
- Teleport: `EntityManager.NoTid` and `Sector.NoTag` are taken to be 0. Their declarations are not part of this model.
- Teleport.Entity.constructor: builds entities for the model's own use. How the engine spawns entities is not part of this model.
- Segments.ToTime: a segment whose X values are within epsilon and whose Y values are equal has no time. This holds even when its X values differ (`ShortFlatSegmentHasNoTime`); the source divides by zero there.
- Align.Translate: `point + offset` is unbounded here. The source's signed 32-bit addition can wrap.
- InputAdapter.OpenTKInputAdapter.HandleMouseMovement: the negation and the sums are unbounded here. The source's signed 32-bit arithmetic (OpenTKInputAdapter.cs:226) can wrap.
- InputAdapter.OpenTKInputAdapter.HandleMouseWheelInput: the scroll sum is unbounded here. The source's signed 32-bit sum (OpenTKInputAdapter.cs:233) can wrap.
- CheatManager: it keeps each cheat's level number in its own sequence rather than holding `LevelCheat` objects. `FindAndApplyMatch` is proved against `LevelCheat.MatchedLevel`, the function `LevelCheat.LevelCheat.IsMatch` is proved against, so both record the same level.

## Findings

| source | as written | input that shows it | evidently intended | confidence | as-written member | corrected member |
|---|---|---|---|---|---|---|
| Client/Client.Commands.Bind.cs:21-52 | `ExecuteBind` ignores `removeExisting`. It always removes the key's commands before adding, so `bindadd` replaces bindings just as `bind` does | W bound to Forward, then `bindadd w jump`: W ends with only jump | `bindadd` keeps the existing commands and appends the new one | high (not executed) | BindCommands.BindAddDropsExisting | BindCommands.IntendedBindAddKeeps |
