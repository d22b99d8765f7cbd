# Gorillas: a verified model of the game core

This project models the core of a Python port of QBasic GORILLAS.BAS, in
which two gorillas on a city skyline throw bananas at each other. The model
covers the following parts:

- **The skyline generator** (`make_cityscape`: `Skyline`). A row of
  buildings starts at x = 2. Their heights follow one of six slope modes,
  and each has a grid of lit and dark windows. The round's wind is drawn
  at the same time.
- **The damageable city surface** (`rebuild_city_surface` and the carve
  made when a banana hits a building: `Terrain`). It is a 640 × 350
  `array2<bool>` that is true where the surface is opaque. It is painted
  with half-open rectangles and cleared by a carve.
- **One match** (`Game.Gorillas`). The class holds the skyline, the
  surface, the two gorillas, the wind, the scores, the "sun shocked" flag
  and the alive flags. Its methods are:
  - gorilla placement;
  - the read-only hit test `check_collision`;
  - the step decisions of `plot_shot`;
  - the round and turn loop of `play_game`, with its scoring.
- **The PUT-array sprite decoder** (`decode_put_array`: `Sprite`).
  Signed 32-bit words become little-endian bytes. A 16-bit header gives
  width − 1 and height − 1. Each row is then four most-significant-bit-first
  bitplanes, merged into 4-bit EGA colours.
- **The PLAY macro interpreter** (`_read_number` and the `player` loop:
  `Play`). It produces the events a macro string plays (pauses and tones,
  with tempo, length and dot) instead of sound. It also produces the
  faults the loop can raise.
- **The line editor** (`get_input` and `get_inputs`: `Editor`). It covers
  the editing keys, the default answer, the numeric and text modes, names
  cut to 10 characters, and the number of points to play for.

## Inputs in place of randomness and I/O

- **Random draws are inputs.**
  - `Skyline.Draws` gives the draw made at every `random` call site of the
    generator. They are indexed by building, and for windows by building and
    window position.
  - `Game.Setup` gathers one round's draws: slope, skyline draws, wind, gust
    roll, gust and the two placement draws.
- **A banana's flight is a sequence of `Game.Frame`s.** A frame is either
  Escape, or the displacement from the launch point that the source's float
  kinematics computes at t = 0, 0.1, 0.2, …. The model decides what happens
  at each frame exactly as `plot_shot` does, from the launch point, bounds,
  truncation toward zero and the hit test.
- **The keyboard is a sequence of keys** (`Editor.Key`), and a player's
  move in `play_game` is a `Game.Turn`: quit, or a throw with its frames.

## Behaviour at the edges

- **Negative note numbers.** A negative note number (after `<` or a low
  `O`) indexes NOTE_TABLE from its end, as a Python list does. Below −49
  it raises. The model follows the code (`Play.TableEntry`) and does not
  exclude these inputs.
- **`T0`.** A tempo of 0 raises a division by zero at the next note or
  pause. The model returns the fault `ZeroTempo`.
- **`MB`.** A macro string starting with `MB` plays on a background
  thread. The model computes the same events either way.
- **The `Editor.Silent` key.** A key without a character has
  `event.unicode == ""`. In Python `"" in "0123456789."` is true, and
  `"".isprintable()` is true. Both append nothing, so such a key is
  modelled as changing nothing.

## Model

| member | source | states |
|---|---|---|
| Skyline.Generate | GORILLAS_BAS.py:609-670 | the buildings the generator's while-loop appends, from x = 2 while x < 630, are exactly the row `City(slope, d)` |
| Skyline.LayBuilding | GORILLAS_BAS.py:641-668 | one loop pass yields the drawn width cut to 640 − x − 2 at the right edge, height clamped to 10..200, the drawn colour and the window grid |
| Skyline.LayWindows | GORILLAS_BAS.py:652-660 | the window columns are laid every 10 from x + 3 while left of x + width − 3 |
| Skyline.LayColumn | GORILLAS_BAS.py:655-659 | a window column runs every 15 from top + 3 while above bottom − 3; a window is lit (14) when its draw is above 1, else dark (8) |
| Skyline.CityValid | GORILLAS_BAS.py:612-670 | every skyline is valid: it starts at x = 2; each next x is the previous x + width + 2; heights are 10..200; colours are 4..7; widths are 9..74 and end by x = 640; every window is on its building's grid |
| Skyline.OutlinesValid | GORILLAS_BAS.py:624-670 | from any x < 630, the building outlines form a valid row that reaches the stopping point |
| Skyline.FurnishValid | GORILLAS_BAS.py:652-660 | adding each building's window grid to a valid row gives a valid skyline |
| Skyline.GridOnGrid | GORILLAS_BAS.py:653-660 | every window of a grid is on it: 10 apart across and 15 apart down, within the margins, lit or dark |
| Skyline.OnlyLastTruncated | GORILLAS_BAS.py:641-643 | only the last building can have its drawn width cut at the right edge |
| Skyline.OutlinesTruncation | GORILLAS_BAS.py:641-643 | in any row of outlines, every building but the last keeps its drawn width |
| Skyline.AtLeastNine | GORILLAS_BAS.py:624-670 | a valid skyline has at least 9 buildings, since each step advances at most 76 from 2 until 630 |
| Skyline.RowReach | GORILLAS_BAS.py:641-670 | building k of a row from x0 starts at most 76k to the right of x0 |
| Skyline.RowOrdered | GORILLAS_BAS.py:670 | an earlier building ends at least 2 before a later one starts |
| Skyline.BaselineHeights | GORILLAS_BAS.py:624-646 | each building of a row is its random offset above its baseline, clamped to 10..200, and its baseline is the previous one after the slope update for its x |
| Skyline.SteadyBaselines | GORILLAS_BAS.py:626-629 | in slope modes 1 and 2 the j-th baseline is the starting one moved by 10(j + 1), up in mode 1 and down in mode 2 |
| Skyline.CityOutlines | GORILLAS_BAS.py:641-668 | laying out the windows keeps each building's x and height |
| Skyline.SlopeOneCity | GORILLAS_BAS.py:615-646 | in slope mode 1, building j of the skyline is clamp(extra(j) + 15 + 10(j + 1)) tall |
| Skyline.SlopeTwoCity | GORILLAS_BAS.py:615-646 | in slope mode 2, building j of the skyline is clamp(extra(j) + 130 − 10(j + 1)) tall |
| Skyline.HillCity | GORILLAS_BAS.py:619-646 | in slope modes 3–6, building j stands on the previous baseline (15, or 130 in mode 6, before the first) moved by 20: up left of x = 320 and down past it in modes 3–5, the other way round in mode 6 |
| Skyline.Wind | GORILLAS_BAS.py:673-678 | the wind is in −20..20; it is the draw when no gust is rolled; a gust moves it away from zero by the gust (a positive draw up, a zero or negative draw down), so it is then never 0 |
| Terrain.MaxWy | GORILLAS_BAS.py:722 | the lowest window row is at least every window's row and is the row of one of them |
| Terrain.PaintedByIsBody | GORILLAS_BAS.py:706-734 | for a building laid on its grid, the body plus every window not on the lowest row covers exactly the body |
| Terrain.PaintedIsCovered | GORILLAS_BAS.py:704-734 | what the rebuild paints is opaque exactly on the union of the body rectangles, in both directions |
| Terrain.PaintRect | GORILLAS_BAS.py:712-716 | a rectangle fill makes its half-open rectangle opaque on the surface and leaves every other cell as it was |
| Terrain.PaintBuilding | GORILLAS_BAS.py:706-734 | one building adds its body and its windows off the lowest row, and nothing else |
| Terrain.Rasterize | GORILLAS_BAS.py:698-734 | a fresh 640 × 350 surface holds exactly the cells the buildings paint |
| Terrain.ClearWhere | GORILLAS_BAS.py:969-970 | the carve only clears cells: a cell in the hole becomes transparent and every other cell keeps its state |
| Terrain.ClearTwice | GORILLAS_BAS.py:970 | carving the same hole twice leaves the surface as one carve does |
| Game.Trunc | GORILLAS_BAS.py:903 | `int()` on a float truncates toward zero |
| Game.ThrowAngle | GORILLAS_BAS.py:927-928 | player 1's angle is mirrored to 180 − angle, and player 0's is kept |
| Game.LaunchInOwnBox | GORILLAS_BAS.py:933-934 | the launch point (gx + 25 or gx + 5, gy + 8) lies in the thrower's own hit box |
| Game.Other | GORILLAS_BAS.py:1069 | the opponent is the other of the two players |
| Game.Winner | GORILLAS_BAS.py:1067 | the shooter wins exactly when the gorilla hit is not itself |
| Game.Award | GORILLAS_BAS.py:1061-1065 | exactly one score rises by one, and the other is unchanged |
| Game.TallyCountsHits | GORILLAS_BAS.py:1059-1067 | with no self-hit in a match log, each player's score rises by exactly the number of hits it threw |
| Game.LogStep | GORILLAS_BAS.py:1059-1073 | one more shot keeps the log alternating and adds the shot's point, if any, to the tally |
| Game.Judge | GORILLAS_BAS.py:946-978 | Escape stops the shot; leaving the field is tested first; at y ≤ 0 the banana flies on; at y > 0 it strikes exactly when the truncated point is in the opponent's box, crashes exactly when it is not and the terrain is solid there, and passes the sun exactly when neither holds and the point is in the sun |
| Game.EscapeEndsThrow | GORILLAS_BAS.py:948-951 | a flight whose first frame is an Escape ends there as a miss, whatever frames follow |
| Game.FirstEnd | GORILLAS_BAS.py:946-978 | the shot ends at the first frame whose step ends it, and no earlier frame ends it |
| Game.VictimIsOpponent | GORILLAS_BAS.py:961-978 | a flight returns no one or the thrower's opponent |
| Game.CarveSolid | GORILLAS_BAS.py:967-970 | after a shot, the surface is the old surface less exactly the disc of radius 14 around a building hit, and unchanged by any other ending |
| Game.RoundBoard | GORILLAS_BAS.py:1045-1046 | a round starts on the setup's skyline `City(slope, d)` with no craters |
| Game.RunBetween | GORILLAS_BAS.py:1040-1049 | between rounds the match ends with True once a score reaches numGames; otherwise the next setup starts a round |
| Game.RunStops | GORILLAS_BAS.py:1051-1055 | in a round, a quit ends the match with False |
| Game.RunThrow | GORILLAS_BAS.py:1056-1073 | a throw that flies is logged with its victim; a hit scores for Winner and ends the round; a miss hands the turn over on the carved board |
| Game.RunSound | GORILLAS_BAS.py:1040-1076 | from any state that keeps the loop invariant, the match's shots extend the log, alternate and have no self-hits, and their tally is the score; a True ending has a score at numGames and none past it; a False ending is a quit; every other turn used is a throw, with at most one shot each |
| Game.MatchSound | GORILLAS_BAS.py:1038-1076 | everything `RunSound` states holds of a match from its start |
| Game.PlacementSound | GORILLAS_BAS.py:782-794 | on a valid skyline the two buildings chosen are in range and distinct; each gorilla's feet are on its roof and its box is within its building; the left box ends before the right one starts |
| Game.Gorillas.constructor | GORILLAS_BAS.py:186-197 | the initial state: no skyline, no surface, gorillas at (0, 0), wind 0, scores 0–0, sun calm, both alive, 3 points to play for |
| Game.Gorillas.RebuildCitySurface | GORILLAS_BAS.py:698-734 | the new surface is opaque exactly on the union of the buildings' bodies |
| Game.Gorillas.MakeCityscape | GORILLAS_BAS.py:609-680 | the skyline is `City(slope, d)` and valid, with at least 9 buildings; the wind is `Wind`; a fresh surface holds the bodies |
| Game.Gorillas.PlaceGorillas | GORILLAS_BAS.py:782-794 | player 0 stands centred on building 1 or 2, and player 1 on the second or third building from the right |
| Game.Gorillas.CheckCollision | GORILLAS_BAS.py:892-922 | the shooter is never reported; the opponent's inclusive box comes first, then the terrain, then the sun (squared distance below 144), else no hit |
| Game.Gorillas.Classify | GORILLAS_BAS.py:946-978 | the same decisions as `Judge`, against this state's gorillas and terrain: Escape stops; leaving the field comes first; at y ≤ 0 the banana flies on; at y > 0 a strike exactly in the opponent's box, a crash at the truncated point exactly where the terrain is solid outside it, a sun pass exactly where neither holds and the point is in the sun |
| Game.Gorillas.ShowsSteps | GORILLAS_BAS.py:946-978 | on a state that is a board, every frame is decided as on the board |
| Game.Gorillas.PlotShot | GORILLAS_BAS.py:924-978 | the shot returns the opponent's index exactly when its first ending frame strikes it; a crash carves exactly the disc of radius 14; a strike clears that gorilla's alive flag; sunHit is set when the sun was hit before that frame |
| Game.Gorillas.NewRound | GORILLAS_BAS.py:1045-1049 | a round starts on the setup's board: the skyline `City(slope, d)`, valid, with a fresh surface holding exactly the bodies; the wind; the gorillas placed; both alive and the sun calm; the scores unchanged |
| Game.Gorillas.BuildRound | GORILLAS_BAS.py:1045-1046 | make_cityscape then place_gorillas give the round board's skyline, gorillas and a fresh surface holding the bodies |
| Game.Gorillas.TakeShot | GORILLAS_BAS.py:1053-1057 | a throw flies exactly when one of its frames ends the shot, the frames after the first such one being ignored; it then returns the gorilla its first ending frame strikes, clears that gorilla's alive flag, leaves the state showing the carved board and sets sunHit when the sun was hit on the way; otherwise nothing changes |
| Game.Gorillas.PlayGame | GORILLAS_BAS.py:1038-1076 | the result, the final scores, the shot log and the turns used are exactly `Run` from the start (whose properties `MatchSound` states); a quit happens with the sun calm |
| Game.Gorillas.PlayRound | GORILLAS_BAS.py:1042-1073 | one pass of the outer loop on the next setup goes where `Run` goes: to the match's end, or on to the next round with both gorillas hidden by the victory dance |
| Game.Gorillas.PlayTurns | GORILLAS_BAS.py:1050-1073 | the inner loop on the round's board goes where `Run` goes: to the match's end, or out of the round after a hit, with both gorillas hidden by the victory dance |
| Play.RunEnd | GORILLAS_BAS.py:30-35 | the digit run from i is maximal: every character up to it is a digit and the next one is not |
| Play.ReadNumber | GORILLAS_BAS.py:30-35 | `_read_number` returns the value of the maximal digit run and the index after it, and 0 with the index unchanged when there are no digits |
| Play.UpperChar | GORILLAS_BAS.py:60 | no lower-case letter is left; a lower-case letter becomes the capital at its place in the alphabet; every other character is kept |
| Play.Upper | GORILLAS_BAS.py:60 | the upper-cased string has the same length and no lower-case letter |
| Play.UpperIdempotent | GORILLAS_BAS.py:60 | upper-casing twice is upper-casing once |
| Play.TableEntry | GORILLAS_BAS.py:16-120 | the NOTE_TABLE lookup: numbers past the 49 entries are rests; −49..−1 index from the end; below that the lookup raises |
| Play.Accidental | GORILLAS_BAS.py:111-118 | the semitone is the letter's offset plus one exactly after + or #, minus one exactly after −, and the offset itself exactly when no sign follows; a sign is consumed exactly when present |
| Play.Step | GORILLAS_BAS.py:69-128 | every pass strictly advances i and keeps the length at least 1; an event carries the tempo and length in force; a pass raises ZeroTempo only at tempo 0, and at tempo 0 always does on a pause, a note number or a letter note in the table |
| Play.LetterNote | GORILLAS_BAS.py:110-126 | a letter note plays entry octave·12 + semitone + 1, with + or # adding one and − subtracting one; it is dotted exactly when a '.' follows the accidental, and the pass resumes after the letter, its accidental and its dot |
| Play.HighOctavesRest | GORILLAS_BAS.py:16-28 | from octave 4 up every letter note is a rest, except C− at octave 4, which plays entry 48 |
| Play.PerformLengths | GORILLAS_BAS.py:92-126 | every event played has a length of at least 1 and a positive tempo |
| Play.PlayedLengths | GORILLAS_BAS.py:59-133 | the same for the whole macro string |
| Play.Pass | GORILLAS_BAS.py:69-128 | one pass of the loop, run as the source runs it, is `Step` |
| Play.Player | GORILLAS_BAS.py:63-128 | the loop plays exactly `Perform(s, 0, Initial)`: the events of the passes in order, or the first fault |
| Play.PlayString | GORILLAS_BAS.py:59-133 | PLAY plays the upper-cased string |
| Sprite.ByteAt | GORILLAS_BAS.py:212-219 | a byte of a number is in 0..255 |
| Sprite.Low32 | GORILLAS_BAS.py:211-213 | masking with 0xFFFFFFFF does not change the four bytes taken |
| Sprite.FourBytes | GORILLAS_BAS.py:214-219 | the bytes the loop extracts are the word's little-endian bytes |
| Sprite.WordBytesRoundTrip | GORILLAS_BAS.py:208-219 | the four bytes of a word, recombined little-endian, give the word modulo 2^32 |
| Sprite.WordHalves | GORILLAS_BAS.py:223-224 | the two header fields are the low and the high 16 bits of the first word |
| Sprite.WordsToBytes | GORILLAS_BAS.py:207-220 | the byte list holds four little-endian bytes per word, in order |
| Sprite.PixelUpToBound | GORILLAS_BAS.py:234-243 | after merging q planes a pixel is below 2^q |
| Sprite.PixelIsColour | GORILLAS_BAS.py:234-243 | every pixel is one of the 16 EGA colours |
| Sprite.PixelPlanes | GORILLAS_BAS.py:234-243 | bit p of a pixel is exactly its bit in plane p, at offset y·bpl·4 + p·bpl + x/8, bit 7 − x%8 |
| Sprite.PastDataBlank | GORILLAS_BAS.py:240-241 | a row whose planes start past the data is blank, since bytes past the end read as 0 |
| Sprite.MergePlane | GORILLAS_BAS.py:236-243 | one plane's bit is ORed into every pixel of the row, and the other rows are unchanged |
| Sprite.DecodeRow | GORILLAS_BAS.py:235-243 | the four planes turn a blank row into its pixels, and the other rows are unchanged |
| Sprite.DecodePutArray | GORILLAS_BAS.py:205-245 | an empty array fails; otherwise the image has (w0 >> 16 & 0xFFFF) + 1 rows of (w0 & 0xFFFF) + 1 pixels, each the merge of its plane bits |
| Editor.DropLast | GORILLAS_BAS.py:435 | Backspace removes exactly the last character: the result plus that character is the text; the empty text stays empty |
| Editor.EditShaped | GORILLAS_BAS.py:432-445 | an answer is the default or a non-empty text of numerals (numeric mode) or of at most 20 printable characters (text mode) |
| Editor.ReturnFirstTail | GORILLAS_BAS.py:428-445 | a key that neither answers nor cancels does not change whether a Return comes first |
| Editor.EnteredIff | GORILLAS_BAS.py:428-437 | an answer is given exactly when a Return comes before any Escape or close |
| Editor.EraseTyped | GORILLAS_BAS.py:435-445 | Backspace undoes an accepted character |
| Editor.GetInput | GORILLAS_BAS.py:415-445 | the key loop, run as the source runs it, is `Edit` |
| Editor.Name | GORILLAS_BAS.py:481 | a name is the answer's first 10 characters |
| Editor.NumGames | GORILLAS_BAS.py:491-496 | for an answer of numerals, the points to play for are max(1, int(answer)), or 3 when int() raises; they are always at least 1 |
| Editor.GetInputs | GORILLAS_BAS.py:473-508 | the settings are ready exactly when all four questions are answered, and aborted exactly when the first question not answered was cancelled; the names are `Name` (the first 10 characters) of their answers; the points are `NumGames` of the third answer, at least 1; the gravity is the fourth answer |

## Left out

- Rendering, animation and sound are left out because they are UI, library and audio calls. This covers drawing, the intro and game-over screens, the explosions, the victory dance's drawing, sprite surfaces, the square-wave synthesis, `time.sleep` and frame-clock ticks. The victory dance's one state change, hiding both gorillas, is modelled.
- The float kinematics of `plot_shot` (angle in radians, cos and sin, `t += 0.1`) are floating point. The displacement at each frame is an input instead.
- NOTE_TABLE's frequencies and the seconds `60 / tempo * (4 / length)` are floating point. Events carry the table entry, tempo, length and dot instead.
- Gravity, and the angle and velocity prompts (`get_shot_input`), are float parsing. Gravity is kept as the text typed.
- `pygame.draw.circle`'s own pixel set is a library detail. The carve clears a nominal Euclidean disc of radius 14 (`Game.InDisc`).
- `pygame.event.get` batches events. When a question is answered, the rest of that batch is dropped; the model instead gives each question its own run of keys.
- `check_collision`'s `shooter=None` default is never used by `plot_shot`, so the shooter is always given.
- `str.isdigit`, `str.upper` and `str.isprintable` are modelled for ASCII only.
- Editor.NumGames takes only answers the numeric editor can build (digits and '.'). So `int()` on a sign, a space or an underscore never arises, though `int("-3")` would give −3 and then 1. Python 3.11 and later also raise on strings of more than 4300 digits, and the source then uses 3; the model takes the digits' value for every length.
- Play.ReadNumber: `_read_number` also calls `int()` on its digit run, so on Python 3.11 and later a run of more than 4300 digits raises there. The model takes the digits' value for every length; every PLAY string the game plays is a short literal.
- Game.Gorillas.PlayGame returns None when the given setups or turns run out, which the endless source loop never does.
- Game.Gorillas.TakeShot: when none of a throw's frames ends the shot (the frames stop before the flight does), it reports `flown == false` and changes nothing. The source would keep stepping, so this case is an artefact of the finite input.
- `get_inputs` stores the names, the points and the gravity in the game object. `Editor.GetInputs` returns them as a value, and `Game.Gorillas` has no name or gravity fields.
