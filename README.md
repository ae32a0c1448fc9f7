# Orison terminal scaffold, modelled in Dafny

Orison is a text adventure. This model covers the early scaffold of its
engine:

- the hint oracle (`TerminalArbiter.trade_memory_for_hint`), which turns a
  free-text memory into one of four fixed hints;
- the two value records `Mark` and `Contract` and their display strings;
- the session record `GameState` with its `stop` and `goto` mutators;
- the terminal app: the intro and end scenes, the `SCENES` registry and the
  driver loop of `run_terminal_app`.

Layout, one module per source file:

- `text.dfy` (`Text`): `str.strip`, `str.lower`, the substring test `in`
  and `str.join` over the ASCII range, with their properties. The
  whitespace set is the ASCII whitespace Python strips: space, tab,
  newline, vertical tab, form feed, carriage return and the separators
  0x1C–0x1F.
- `arbiter.dfy` (`Arbiter`): the hint oracle and the rule-by-rule lemmas.
- `contract.dfy` (`Contracts`), `mark.dfy` (`Marks`): the records, their
  defaults and their renderings.
- `game_state.dfy` (`Engine`): `Session`, the value of a game state, and the
  class `GameState`, whose methods change it in place.
- `terminal_app.dfy` (`TerminalApp`): the input/output ports as a class
  holding a queue of unread lines and a log of written lines; each scene
  as a pure step function and as a method over the live state and ports;
  the driver loop as a `while` loop, proved equal to the function `Drive`.

The scene interface of `src/orison/engine/scene.py` is a datatype `Scene`
with a dispatch method `RunScene`. The registry is a `map` from scene id to
`Scene`.

This code is an early scaffold of the game. Where the test suite expects
more than it does (tests/test_step1_2.py:27 expects the choice "1" at the
intro to lead to "audit", while src/orison/io/terminal/app.py:28-29 ignores
that line and moves to "end"), the model follows this code. The intro scene
takes the first line as the name verbatim. It ignores the second line and
always moves to `end`; the numbered menu does not exist in this code. The
only scenes are `intro` and `end`.

## Model

| member | source | states |
|---|---|---|
| `Text.TrimStart` | src/orison/models/arbiter.py:9 | the result is a suffix of the input that starts with a non-space; everything dropped is whitespace |
| `Text.TrimEnd` | src/orison/models/arbiter.py:9 | the result is a prefix of the input that ends with a non-space; everything dropped is whitespace |
| `Text.Strip` | src/orison/models/arbiter.py:9 | the stripped text is no longer than the input, neither starts nor ends with whitespace, and occurs in the input right after the leading whitespace, and everything after it is whitespace; `StripEmptyIffBlank` relates it to blankness |
| `Text.StripEmptyIffBlank` | src/orison/models/arbiter.py:9 | `strip()` yields the empty string exactly when the text is all whitespace |
| `Text.Lower` | src/orison/models/arbiter.py:11-13 | lower-casing keeps the length, leaves no upper-case letter and keeps every other character; `LowerIdempotent`, `LowerOfUpper`, `LowerKeepsBlank` and `LowerConcat` state its algebra |
| `Text.Contains` | src/orison/models/arbiter.py:11-13 | the empty word occurs in every text, and a word that occurs is no longer than the text; `ContainsPadded` relates it to padding |
| `Text.ContainsPadded` | src/orison/models/arbiter.py:11-13 | a keyword with no whitespace at its ends occurs in whitespace-padded text exactly when it occurs in the unpadded text |
| `Text.Join` | src/orison/models/contract.py:18 | a join of one or more parts starts with the first part; `JoinSnoc` and `JoinLength` state the order and the length |
| `Text.JoinSnoc` | src/orison/models/contract.py:18 | joining one more part appends the separator and that part, so parts keep their order |
| `Text.JoinLength` | src/orison/models/contract.py:18 | the joined length is the sum of the part lengths plus one separator per neighbouring pair |
| `Arbiter.TradeMemoryForHint` | src/orison/models/arbiter.py:8-15 | the oracle is total and always answers one of exactly four fixed strings |
| `Arbiter.HintsDistinct` | src/orison/models/arbiter.py:10-15 | the four answers are pairwise different |
| `Arbiter.Rules` | src/orison/models/arbiter.py:9-15 | the rules, tried in order: blank memory, then "canal", then "dock", then the generic hint, with blankness meaning all-whitespace |
| `Arbiter.BlankIsRefused` | src/orison/models/arbiter.py:9-10 | the answer is "You must offer a real memory" if and only if the memory is empty or whitespace only |
| `Arbiter.CanalRule` | src/orison/models/arbiter.py:11-12 | the canal/ledger hint is given if and only if the memory is non-blank and contains "canal" in any letter case |
| `Arbiter.DockRule` | src/orison/models/arbiter.py:13-14 | the dock/blackwater hint is given if and only if the memory is non-blank, contains "dock" in any case and no "canal" |
| `Arbiter.GenericRule` | src/orison/models/arbiter.py:15 | the generic hint is given if and only if the memory is non-blank and contains neither keyword |
| `Arbiter.CanalBeatsDock` | src/orison/models/arbiter.py:11-14 | a memory with both keywords gets the canal hint and not the dock hint |
| `Arbiter.SameAnswer` | src/orison/models/arbiter.py:9-15 | the answer depends only on blankness and on the two keyword tests |
| `Arbiter.IgnoresCase` | src/orison/models/arbiter.py:11-13 | lower-casing or upper-casing the memory never changes the answer |
| `Arbiter.IgnoresSurroundingSpace` | src/orison/models/arbiter.py:9-13 | whitespace before and after the memory never changes the answer, although the keyword search runs on the unstripped text |
| `Arbiter.CanalMemoryPointsToLedger` | tests/test_step5_arbiter.py:23 | "I saw the canal" gets the canal hint ("The canals hide more than water ...") |
| `Contracts.NewContract` | src/orison/models/contract.py:11-14 | a contract given only id and title has no clauses and is public |
| `Contracts.Render` | src/orison/models/contract.py:16-19 | the rendering opens with "Contract[" and is 23 characters longer than id, title and clause part together; `RenderLayout` gives each part's position |
| `Contracts.RenderLayout` | src/orison/models/contract.py:16-19 | the rendering is `Contract[id] title (`, the visibility word, `) - `, then the clause part, at fixed offsets |
| `Contracts.RenderVisibility` | src/orison/models/contract.py:17 | the visibility word is "public" if and only if the contract is public, and "secret" if and only if it is not |
| `Contracts.RenderNoClause` | src/orison/models/contract.py:18 | with no clauses the rendering ends in exactly "no clause" |
| `Contracts.RenderSingleClause` | src/orison/models/contract.py:18 | a single clause is shown verbatim, with no separator |
| `Contracts.RenderAddClause` | src/orison/models/contract.py:18-19 | adding a clause to a non-empty list appends "; " and that clause to the rendering, so clauses appear in order |
| `Contracts.RenderLength` | src/orison/models/contract.py:18-19 | with clauses, the rendering's length is `TailStart` (header, visibility word and `) - `) plus the clause lengths plus 2 per neighbouring pair |
| `Contracts.RenderDefault` | src/orison/models/contract.py:13-19 | a contract given only id and title renders as `Contract[id] title (public) - no clause` |
| `Contracts.RenderSecretExample` | tests/test_step1_2.py:7-11 | secret contract C-1 "Test" with clauses a, b renders as `Contract[C-1] Test (secret) - a; b` |
| `Marks.NewMark` | src/orison/models/mark.py:11-13 | a mark built without a witness flag is not a witness |
| `Marks.Render` | src/orison/models/mark.py:15-17 | the rendering opens with "Mark[", closes with ")" and is 11 characters longer than id, kind and status word together; `RenderLayout` and `RenderStatus` give the parts |
| `Marks.RenderLayout` | src/orison/models/mark.py:15-17 | the rendering is `Mark[id] (kind, `, the status word, then `)` |
| `Marks.RenderStatus` | src/orison/models/mark.py:16-17 | the rendering ends in "witness)" if and only if the mark is a witness, and in ", token)" if and only if it is not |
| `Marks.RenderDefault` | src/orison/models/mark.py:13-17 | a mark built without a witness flag renders with "token" |
| `Marks.RenderWitnessExample` | tests/test_step1_2.py:8-12 | `Mark("M-1", "witness", true)` renders containing "Mark[M-1]" and "witness" |
| `Engine.GameState.constructor` | src/orison/engine/game_state.py:14-16 | a fresh state has no name, is at "intro" and is running |
| `Engine.GameState.Stop` | src/orison/engine/game_state.py:19-20 | `stop` clears `running` and keeps the name and the scene |
| `Engine.GameState.Goto` | src/orison/engine/game_state.py:22-23 | `goto` sets the scene and keeps the name and `running` |
| `Engine.StopIdempotent` | src/orison/engine/game_state.py:19-20 | stopping twice equals stopping once |
| `Engine.GotoKeepsStopped` | src/orison/engine/game_state.py:19-23 | `goto` after `stop` leaves the session stopped; the two commute |
| `Engine.GotoLastWins` | src/orison/engine/game_state.py:22-23 | of two moves only the last one matters |
| `TerminalApp.Ports.ReadLine` | src/orison/engine/scene.py:13-14 | reading takes the first unread line and leaves the output log alone |
| `TerminalApp.Ports.WriteLine` | src/orison/engine/scene.py:9-10 | writing appends one line to the log and reads no input |
| `TerminalApp.RegistryKeyedById` | src/orison/io/terminal/app.py:41-44 | the registry holds exactly "intro" and "end", each mapped to the scene with that id |
| `TerminalApp.IntroStep` | src/orison/io/terminal/app.py:22-29 | intro always moves to "end" and keeps `running`; with no name it reads two lines and the first becomes the name verbatim, otherwise it reads one line and keeps the name; a greeting is written if and only if the name was empty, and then it greets the first line |
| `TerminalApp.EndStep` | src/orison/io/terminal/app.py:36-38 | end writes the goodbye line, stops the session, keeps name and scene and reads nothing |
| `TerminalApp.SceneStep` | src/orison/io/terminal/app.py:55 | `scene.run` consumes exactly the lines the scene reads, never restarts a stopped session, and running the current scene brings the session closer to stopping (`Measure` decreases) |
| `TerminalApp.Drive` | src/orison/io/terminal/app.py:50-55 | from any state the loop runs at most two scenes, only as [], [end] or [intro, end]; it exits stopped or at an unknown id, and stopped whenever it starts at a known id |
| `TerminalApp.StoppedRunsNothing` | src/orison/io/terminal/app.py:50 | a stopped session runs no scene, reads nothing and writes nothing |
| `TerminalApp.UnknownSceneHalts` | src/orison/io/terminal/app.py:51-54 | an unknown scene id is reported as "Unknown scene: id" and no scene runs |
| `TerminalApp.FreshRun` | src/orison/io/terminal/app.py:47-55 | from a fresh state with two input lines the loop runs intro then end, names the player after the first line, writes the four lines in order and ends stopped at "end" |
| `TerminalApp.NamedRun` | src/orison/io/terminal/app.py:22-29 | a named player at the intro reads one line, is not greeted and keeps the name |
| `TerminalApp.RunIntro` | src/orison/io/terminal/app.py:22-29 | the intro method changes the state, the input queue and the log exactly as `IntroStep` says |
| `TerminalApp.RunEnd` | src/orison/io/terminal/app.py:36-38 | the end method changes the state and the log exactly as `EndStep` says |
| `TerminalApp.RunScene` | src/orison/io/terminal/app.py:55 | dispatching a scene does what that scene's step says |
| `TerminalApp.RunLoop` | src/orison/io/terminal/app.py:50-55 | the `while state.running` loop ends in the state, input, log and scene sequence that `Drive` gives |
| `TerminalApp.RunTerminalApp` | src/orison/io/terminal/app.py:47-55 | a whole run on two or more lines invokes intro then end, writes welcome, greeting, prompt and goodbye, and ends stopped at "end" with the first line as the name |

## Left out

- `ConsoleIO` (`print`/`input`): replaced by the `Ports` class, a queue of input lines and a log of output lines. The prompts passed to `read_line` are advisory and are not logged, although Python's `input` would echo them.
- Running out of input (`EOFError` from `input`, `StopIteration` from the test fakes): sufficient input is a precondition (`InputNeeded`, `LinesRead`), not an error path.
- `str.strip` and `str.lower` are modelled on ASCII only: the whitespace set is space, tab, newline, vertical tab, form feed, carriage return and 0x1C–0x1F, and only `A`–`Z` are lower-cased. Python's non-ASCII whitespace (such as U+0085 or U+00A0) and Unicode case mappings are not modelled.
- The arbiter's hint strings are kept verbatim, including the typo "Check th ledger"; no lemma states that the canal hint contains the word "ledger".
- The `Arbiter` protocol and the abstract `Scene` base class only declare interfaces; the scene interface is the `Scene` datatype and `RunScene` dispatch, and the `scene_id` attribute is `Scene.SceneId`.
- `GameState` is only built with its defaults, as the terminal app does; construction with explicit field values is not modelled.
- The pygame front end (`src/orison/io/pygame/app.py`) is UI around a foreign library and is not part of this model.
- The later game (audit, arbiter, decision and ritual scenes, the numbered menus, inventory, flags, reputation, JSON save and load, contract conflict detection) appears only in the test suite, not in this code, and is not part of this model.
