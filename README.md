# StardewSpeak core, modelled in Dafny

StardewSpeak lets a player control Stardew Valley by voice. It has two parts:

- **The C# mod.** It reports game state. Its projection of a farm animal into a flat payload is modelled here.
- **The Python speech client.** It turns recognised utterances into game actions. Five of its pieces are modelled:
  - spoken numbers;
  - how recognised extras become the arguments of an action;
  - typing by voice (the spelling alphabet and the shift-key state machine);
  - the spoken names of game locations, their command table, and the tiles of points;
  - the deterministic parts of objectives: the target of "move n tiles", the plot of "hoe a plot", the hoe-dirt filters, and the hand-off between the active and the pending objective.

There is one Dafny module per source file:

| file | module | models |
|---|---|---|
| `common.dfy` | `Common` | `Option`, `Result`, and the order-preserving list filter behind the Python list comprehensions |
| `serialization.dfy` | `Serialization` | `Serialization.cs` |
| `df_utils.dfy` | `DfUtils` | `df_utils.py` |
| `letters.dfy` | `Letters` | `letters.py` |
| `locations.dfy` | `Locations` | `locations.py` |
| `objective.dfy` | `Objective` | `objective.py` |

Each piece keeps the form it has in the source:

- **Loops become methods.** These are `format_args`, `flatten_list`, `type_characters`, `commands`, `get_locations`, `MoveNTilesObjective`'s `to_x`/`to_y` updates and `HoePlotObjective`'s nested loops. Each loop is a `method` with loop invariants, proved against a specification function. `MoveNTilesTarget` has no loop; it is a `method` because the source updates `to_x` and `to_y` step by step, and its `ensures` give the target outright.
- **Comprehensions and expressions become functions.**
- **Constructed objects become classes.** `Location` and `Point` are classes whose fields are set once by the constructor.
- **Module globals become a class.** `active_objective` and `pending_objective` are the mutable fields of the class `ObjectiveSlots`.

Error paths are modelled as `Result` values:

- an animal without a location;
- `commands` meeting a repeated command;
- an unknown direction for "move n tiles";
- a `Point` given an empty tile list.

Where the code leaves a failure implicit, the model makes it explicit:

- **Missing location.** Reading `currentLocation.NameOrUniqueName` of an animal with no location is a null dereference in the code. The model returns `Failure(MissingLocation)` for it.
- **Missing animal.** A missing animal cannot be represented at all, because a Dafny datatype value is never null.

## Model

| member | source | states |
|---|---|---|
| Serialization.SerializeAnimal | StardewSpeak/Serialization.cs:12-34 | fails exactly when the animal has no location; otherwise `isMature` iff age ≥ maturity age (the byte), `readyForHarvest` iff mature and produce > 0, produce copied unchanged, `position` = `[X, Y]`, `center` = `[standingX, standingY]`, tile, pet flag, type, name, harvest tool copied, `location` = the location's name |
| Serialization.ReadyImpliesMature | StardewSpeak/Serialization.cs:15-17 | a payload ready for harvest is mature; no produce means not ready |
| Serialization.MaturityBoundary | StardewSpeak/Serialization.cs:15 | the maturity comparison is inclusive: age equal to the maturity age is mature, one less is not |
| Serialization.PayloadDeterminesCopiedFields | StardewSpeak/Serialization.cs:19-33 | two animals with equal payloads agree on every field the projection copies (the payload loses only age and maturity age) |
| DfUtils.Kwargs | StardewSpeak/lib/speech-client/speech-client/df_utils.py:22 | the keyword map holds exactly the entries of the data whose key does not start with `_`, with their values |
| DfUtils.FormatArg | StardewSpeak/lib/speech-client/speech-client/df_utils.py:45-48 | a string naming a keyword becomes that keyword's value; every other value, and a list whose lookup raises `TypeError`, is kept |
| DfUtils.FormattedArgs | StardewSpeak/lib/speech-client/speech-client/df_utils.py:42-50 | same length as the arguments; element i is the argument's keyword value when it names a keyword, otherwise the argument itself |
| DfUtils.FormatArgs | StardewSpeak/lib/speech-client/speech-client/df_utils.py:42-50 | the append loop yields a list of the arguments' length whose element i is `kw[args[i]]` when that key is present and `args[i]` otherwise (unhashable lists included), equal to `FormattedArgs` |
| DfUtils.ExecuteCall | StardewSpeak/lib/speech-client/speech-client/df_utils.py:20-26 | without an argument list the function gets exactly the non-`_` entries as keywords; with one it fails exactly when the data has an `args` entry, which `format_args` would receive twice, and otherwise gets the list formatted against those entries, element for element |
| DfUtils.UnderscoreEntriesIgnored | StardewSpeak/lib/speech-client/speech-client/df_utils.py:20-26 | adding, changing or removing a `_`-prefixed entry never changes the call an action makes |
| DfUtils.DigitMapInverse | StardewSpeak/lib/speech-client/speech-client/df_utils.py:67-78 | every word of the digit table stands for a digit below ten, its position in the list of digit words |
| DfUtils.DigitWordsInMap | StardewSpeak/lib/speech-client/speech-client/df_utils.py:67-78 | each digit 0–9 has its word in the digit table |
| DfUtils.DigitTables | StardewSpeak/lib/speech-client/speech-client/df_utils.py:67-90 | the non-zero table is the digit table without "zero"; the digit table's values are exactly the digits 0–9, each word a different digit; the non-zero values lie in 1..9 |
| DfUtils.NatToString | StardewSpeak/lib/speech-client/speech-client/df_utils.py:95 | `str(n)` is a non-empty digit string that reads back as n, a single digit for n < 10, and without a leading zero otherwise |
| DfUtils.ParseNumrep | StardewSpeak/lib/speech-client/speech-client/df_utils.py:93-96 | `int` of `str(first)` followed by the joined `str(d)` of the rest; for digits, the decimal number whose digits are `first` then `rest` in order |
| DfUtils.ParseNumrepSingle | StardewSpeak/lib/speech-client/speech-client/df_utils.py:95 | `parse_numrep((d, []))` is d |
| DfUtils.ParseNumrepDigitCount | StardewSpeak/lib/speech-client/speech-client/df_utils.py:93-96 | with a first digit in 1..9 the result is at least 1 and has exactly `1 + len(rest)` decimal digits |
| DfUtils.PositiveNum | StardewSpeak/lib/speech-client/speech-client/df_utils.py:99-103 | a digit sequence gives the decimal number of its digits, in order, which has `1 + len(rest)` digits; "ten", "eleven" and "twelve" give 10, 11 and 12; every result is ≥ 1 |
| DfUtils.PositiveIndex | StardewSpeak/lib/speech-client/speech-client/df_utils.py:104 | the index is the spoken number minus one, hence never negative |
| Letters.UpperLetters | StardewSpeak/lib/speech-client/speech-client/letters.py:43 | `str.upper` keeps the length, turns each lower-case letter into the upper-case letter that lower-cases back to it, and keeps every other character (ASCII) |
| Letters.LowerLetters | StardewSpeak/lib/speech-client/speech-client/letters.py:71 | `str.lower` keeps the length, turns each upper-case letter into the lower-case letter that upper-cases back to it, and keeps every other character (ASCII) |
| Letters.IsUpper | StardewSpeak/lib/speech-client/speech-client/letters.py:70 | `str.isupper`: at least one upper-case letter and no lower-case letter (ASCII) |
| Letters.UpperStringCase | StardewSpeak/lib/speech-client/speech-client/letters.py:70-71 | a string for which `isupper()` holds is unchanged by `upper()` and changed by `lower()` |
| Letters.CapitalLetterMap | StardewSpeak/lib/speech-client/speech-client/letters.py:43 | every entry `k: v` of the letter table gives `"big " + k` mapped to `v.upper()`, and every key is of that form |
| Letters.Numbers | StardewSpeak/lib/speech-client/speech-client/letters.py:41 | the same words as the digit table, each typing its digit as a one-character string |
| Letters.MultiplyKeys | StardewSpeak/lib/speech-client/speech-client/letters.py:53-56 | n copies of the key, n defaulting to 1 when the count is `None` and no copy for a negative count |
| Letters.FlattenList | StardewSpeak/lib/speech-client/speech-client/letters.py:58-62 | the extend loop yields the in-order concatenation of the lists |
| Letters.ConcatLength | StardewSpeak/lib/speech-client/speech-client/letters.py:58-62 | the flattened list is as long as the lists together |
| Letters.ConcatAt | StardewSpeak/lib/speech-client/speech-client/letters.py:58-62 | each list appears unchanged in the flattened list, right after the lists before it |
| Letters.TypeCharacters | StardewSpeak/lib/speech-client/speech-client/letters.py:67-80 | the loop over characters with its `shift_down` flag emits exactly the event trace `TypeFrom(letters, false)` |
| Letters.StepState | StardewSpeak/lib/speech-client/speech-client/letters.py:70-78 | after one character shift is held exactly when the character is upper-case, and the one press is of its lower-case form |
| Letters.TypedPresses | StardewSpeak/lib/speech-client/speech-client/letters.py:68-78 | one press per input character, in input order, of the lower-cased character, with shift held exactly when the character was upper-case |
| Letters.TypedReleasesShift | StardewSpeak/lib/speech-client/speech-client/letters.py:79-80 | shift is not held once the trace ends |
| Letters.TypedShiftAlternates | StardewSpeak/lib/speech-client/speech-client/letters.py:72-77 | shift downs and ups strictly alternate, the first one changing the initial state |
| Letters.NoShiftWithoutUpper | StardewSpeak/lib/speech-client/speech-client/letters.py:69-80 | from the released state there is no shift event at all exactly when no character is upper-case |
| Letters.TypeCharactersFacts | StardewSpeak/lib/speech-client/speech-client/letters.py:67-80 | together: presses in order with the right shift state, alternation starting with a key-down, shift released at the end |
| Locations.CapitalWords | StardewSpeak/lib/speech-client/speech-client/locations.py:65 | every match of `[A-Z][a-z]*` is an upper-case letter followed by lower-case letters only |
| Locations.CapitalWordsCount | StardewSpeak/lib/speech-client/speech-client/locations.py:65 | there is one match per upper-case letter of the name |
| Locations.CapitalWordsOfConcat | StardewSpeak/lib/speech-client/speech-client/locations.py:65 | a CamelCase name split into its capitalised words gives back the words it was made of |
| Locations.CapitalWordsSplit | StardewSpeak/lib/speech-client/speech-client/locations.py:65 | a character that is neither upper- nor lower-case (a digit, `_`) separates the matches: the words of `a + [c] + b` are the words of `a` followed by those of `b` |
| Locations.CapitalWordsSkip | StardewSpeak/lib/speech-client/speech-client/locations.py:65 | characters before the first upper-case letter start no match |
| Locations.CommandsFromName | StardewSpeak/lib/speech-client/speech-client/locations.py:63-67 | a single command that starts with "[the] " and has no upper-case letter after it |
| Locations.CommandsFromCamelCase | StardewSpeak/lib/speech-client/speech-client/locations.py:63-67 | the command of a CamelCase name is "[the] " followed by its words, lower-cased, joined by single spaces |
| Locations.FarmCaveCommand | StardewSpeak/lib/speech-client/speech-client/locations.py:64 | `FarmCave` is spoken "[the] farm cave" |
| Locations.CommandsFromCamelCaseSuffix | StardewSpeak/lib/speech-client/speech-client/locations.py:63-67 | a CamelCase name followed by an uncased character has the command of the CamelCase name alone |
| Locations.IslandWestCaveCommand | StardewSpeak/lib/speech-client/speech-client/locations.py:18 | the default location `IslandWestCave1`, which has no table entry, is spoken "[the] island west cave" |
| Locations.Location.constructor | StardewSpeak/lib/speech-client/speech-client/locations.py:56-61 | without commands a location gets those derived from its name; given commands are stored unchanged |
| Locations.Commands | StardewSpeak/lib/speech-client/speech-client/locations.py:196-204 | fails exactly when some command occurs twice across the locations, naming the first repeat; otherwise the result is `CommandTable(locs)`, its keys are exactly all commands and each command maps to its location |
| Locations.CommandTableKeys | StardewSpeak/lib/speech-client/speech-client/locations.py:199-203 | the keys of the table built from the locations are exactly their commands |
| Locations.CommandTableMaps | StardewSpeak/lib/speech-client/speech-client/locations.py:199-203 | when no command repeats, the table maps every command of every location to that location |
| Locations.DuplicateFound | StardewSpeak/lib/speech-client/speech-client/locations.py:201-202 | a command already in the table when reached is the first repeated command of the whole list |
| Locations.LocationNames | StardewSpeak/lib/speech-client/speech-client/locations.py:47 | the game's list of names, or the default names when the answer is missing or empty |
| Locations.LocationsFrom | StardewSpeak/lib/speech-client/speech-client/locations.py:48-52 | the loop yields one location per name, in order, with the commands the table gives the name and the derived ones otherwise |
| Locations.GetLocations | StardewSpeak/lib/speech-client/speech-client/locations.py:46-52 | the same over the default name list and the command table of the module |
| Locations.NormaliseTiles | StardewSpeak/lib/speech-client/speech-client/locations.py:73-75 | a function is kept, a single tile becomes a one-tile list, a non-empty list is kept as is, and only the empty list fails |
| Locations.TileDicts | StardewSpeak/lib/speech-client/speech-client/locations.py:90 | same length and order as the tiles, `tileX` the first and `tileY` the second coordinate |
| Locations.TileDictsRoundTrip | StardewSpeak/lib/speech-client/speech-client/locations.py:90 | reading the coordinates back out of the dictionaries gives the tiles again |
| Locations.Point.constructor | StardewSpeak/lib/speech-client/speech-client/locations.py:71-79 | the point keeps the commands, tiles, location and facing direction it is given |
| Locations.Point.GetTiles | StardewSpeak/lib/speech-client/speech-client/locations.py:87-90 | for a list of tiles, the list of tile dictionaries; for a tile function, nothing known here |
| Locations.NewPoint | StardewSpeak/lib/speech-client/speech-client/locations.py:71-79 | a point with the given commands, location and facing direction and the normalised tiles; fails exactly for an empty tile list |
| Objective.MoveNTilesTarget | StardewSpeak/lib/speech-client/speech-client/objective.py:121-132 | north y − n, south y + n, east x + n, west x − n, one axis only and n tiles away; any other direction fails naming it |
| Objective.XIncrement | StardewSpeak/lib/speech-client/speech-client/objective.py:233 | −1 exactly when the last east/west facing was west, +1 otherwise |
| Objective.YIncrement | StardewSpeak/lib/speech-client/speech-client/objective.py:234 | −1 exactly when the last north/south facing was north, +1 otherwise |
| Objective.HoePlotTiles | StardewSpeak/lib/speech-client/speech-client/objective.py:232-239 | the nested loops build exactly the set `{(sx + i·xinc, sy + j·yinc) : 0 ≤ i < n1, 0 ≤ j < n2}` |
| Objective.HoePlotSize | StardewSpeak/lib/speech-client/speech-client/objective.py:235-239 | the plot has exactly n1·n2 tiles, and none when either count is not positive |
| Objective.UnwateredCrops | StardewSpeak/lib/speech-client/speech-client/objective.py:170-173 | keeps exactly the tiles with a crop that is not watered, in their order, each as often as listed |
| Objective.PlantableHoeDirt | StardewSpeak/lib/speech-client/speech-client/objective.py:205-207 | keeps exactly the tiles where the seed can be planted, in their order, each as often as listed |
| Objective.HoeDirtFiltersAppend | StardewSpeak/lib/speech-client/speech-client/objective.py:172 | filtering a listing in two parts gives the two results one after the other |
| Objective.ObjectiveSlots.constructor | StardewSpeak/lib/speech-client/speech-client/objective.py:20-21 | no active and no pending objective at start |
| Objective.ObjectiveSlots.GetActiveObjective | StardewSpeak/lib/speech-client/speech-client/objective.py:23-24 | the active objective |
| Objective.ObjectiveSlots.CancelActiveObjective | StardewSpeak/lib/speech-client/speech-client/objective.py:278-283 | afterwards there is no active objective; a running one is recorded as cancelled; the pending one is untouched |
| Objective.ObjectiveSlots.NewActiveObjective | StardewSpeak/lib/speech-client/speech-client/objective.py:286-294 | the old objective is cancelled; when nothing was running, or no other request came in during the wait, or it was the same objective, pending becomes empty and the new one becomes active and is started; otherwise the newer request stays pending and nothing starts |

## Left out

- Floating point: the position of an animal is a pair of `real`s, copied without arithmetic.
- Serialization.SerializeAnimal: does not model a null animal. A Dafny datatype value is never null, so there is nothing to reject.
- The `(byte)` cast of the maturity age is the identity: the maturity age is a byte already (`Byte`).
- All async and stream code: `run_and_cancel`, `wrap_run`, `TalkToNPCObjective`, `ObjectiveQueue`, and the `server.*` and `game.*` awaits. These are concurrency and calls into game-side modules (`game.py`, `server.py`) that are not part of this model.
- Objective.ObjectiveSlots.NewActiveObjective: models concurrency only by its parameter `overtakenBy`. That stands for a newer objective made pending while the cancellation is awaited, the one point where another request can interleave. The wait happens only when an objective is running, so with none running `overtakenBy` has no effect. Objectives are identities (`nat`), and `started` records the `wrap_run` call without modelling the run.
- Objective.MoveNTilesTarget: the player's tile comes in as parameters instead of from the game's status stream. The pathfinding to the target is left out.
- Objective.HoePlotTiles: the start tile is a parameter. `game.next_tile` and the facing memory `game.last_faced_*` are in `game.py`, which is not part of this model.
- `constants.py` is not part of this model. The directions take the game's facing numbers: north 0, east 1, south 2, west 3. Only the comparisons with `WEST` and `NORTH` matter.
- Text case: `str.upper`, `str.lower` and `str.isupper` are modelled on ASCII letters only. The letter table, the digit words and the location names are ASCII.
- `title_case`: Python's `str.title` rules are not modelled.
- The dragonfly grammar: `load_grammar`, the element wiring of `positive_digits`, `positive_num`, `letters_and_keys` and the location `Choice`, and the defaults. `DfUtils.Recognised` states what those elements can produce: a non-zero digit word and at most nine more digit words, since dragonfly's `Repetition` treats its maximum of 10 as exclusive, or one of "ten", "eleven" and "twelve".
- `pydirectinput`: its calls are modelled as the event trace `KeyEvent`.
- `get_locations`' `server.request`: the game's answer is a parameter.
- `init_locations` and the points table: the static list of points is data with no logic beyond the `Point` constructor, which is modelled.
- Locations.Point.GetTiles: the callable branch awaits a game function, so it gives `None` here.
- `pathfind_fn` and `on_arrival` of `Point`: these are game callbacks and are not stored. `Point.location` is a `string` here; the elevator and ladder points pass a compiled mine-level pattern instead (locations.py:191-192), which the constructor would store in the same way.
- `Point.commands_from_name`: it is the same code as `Location.commands_from_name`, modelled once as `Locations.CommandsFromName`.
- `AsyncFunction.execute`: it differs from `SyncFunction.execute` only in scheduling the call, so both are `DfUtils.ExecuteCall`. The `dict` assertion is the map type.
- DfUtils.FormatArg: models only one source of `TypeError`, the unhashable list, which keeps the literal. Values other than strings, integers and lists (`None`, a function) are the one case `Other`, told apart by a tag; none of them is a key, so each is kept.
- The menu command tables and the build script: static mappings and build plumbing.
- Locations.CapitalWords: its own contract says only that each match is a capitalised word and, with `CapitalWordsCount`, how many there are. The exact matches are stated for names built from capitalised words, uncased separators and leading text without capitals, by `CapitalWordsOfConcat`, `CapitalWordsSplit` and `CapitalWordsSkip`.
- Locations.CommandsFromName: its own contract gives only the "[the] " prefix and the absence of capitals. The exact command is stated by `CommandsFromCamelCase` and `CommandsFromCamelCaseSuffix`, together with the lemmas about `CapitalWords`.
- DfUtils.ExecuteCall: the wrapped function's own argument errors are not modelled; the call it receives is the result.
