# rustnake in Dafny

A verified model of the core of rustnake, a terminal Snake game. It covers:

- **the engine**: `Snake` and `Game`, including movement on a wrapping board, food, the five power-ups, the effect timer, the redraw set and `tick`;
- **the main loop's coordination**: the menu state machine, the pending-turn queue, the tick interval, the per-pass update and the high-score ratchet;
- **the board layout** arithmetic;
- **the high-score record** and its legacy migration;
- **the renderer's text helpers**: display-width clipping, padding and centring;
- **the menu's redraw caches** and the ANSI text of a menu row.

The modules follow the source files:

| Dafny file | module | source |
|---|---|---|
| utils.dfy | `Utils` | src/utils/mod.rs: positions, directions, difficulties, power-ups, `u16` |
| core.dfy | `Core` | src/core/mod.rs |
| main_loop.dfy | `MainLoop` | src/main.rs |
| layout.dfy | `Layout` | src/layout/mod.rs |
| storage.dfy | `Storage` | src/storage/mod.rs |
| shared.dfy | `Shared` | src/render/shared.rs |
| menu_cache.dfy | `MenuCache` | src/render/menu/menu_cache.rs |
| menu_main.dfy | `MenuMain` | src/render/menu/menu_main.rs |

Imperative code stays imperative:

- `Snake`, `Game`, the direction queue, the play session, the menu and the redraw caches are classes whose methods update fields.
- The engine's methods are proved against pure step functions over a `GameState` snapshot. For example, `Game.Tick` ensures `State() == TickResult(old(State()), …)`. The promises of a tick are then lemmas about `TickResult`.
- The menu works the same way: `Menu.HandleInput` and `Menu.Run` are proved equal to `MenuStep` and `MenuRun`.

Randomness is an oracle passed in by the caller:

- A rejection-sampling loop receives the sequence of positions the generator would draw, each already inside the board's interior.
- The 30% spawn roll and the 2% per-tick roll are booleans.
- The power-up kind is a parameter.

A character's display width is a function parameter `w`, and a string's width is the sum of its characters' widths. Time reaches the main loop as the elapsed milliseconds, and input as one event per call.

`src/main.rs` was written against a later engine than `src/core/mod.rs`: it calls members that `src/core/mod.rs` and `src/layout/mod.rs` do not define. The model takes those as parameters:

- `game.high_score` is the `highScore` argument of `PlaySession.UpdatePass`.
- The two speed percentages are arguments too.
- The number of languages is the menu's `languageCount`.
- The five-argument `compute_layout(term_width, term_height, map_width, map_height, language)` is the `LayoutCheck` parameter `fits` of the menu and of the play session, applied to the current terminal size, the board size and the current language. `src/layout/mod.rs` defines only a four-argument `compute_layout`, whose 49-column minimum is the English controls line, so the model does not substitute it.

The engine is modelled as `src/core/mod.rs` defines it, including its three-tier `Difficulty` and its three-argument `Game::new`. The menu's `Extreme` difficulty is the separate constructor `MainLoop.MenuDifficulty.Extreme`.

## Model

| member | source | states |
|---|---|---|
| Utils.WrappingDec | src/core/mod.rs:31 | `u16` wrapping decrement: one less, and 0 wraps to 65535 |
| Utils.WrappingInc | src/core/mod.rs:35 | `u16` wrapping increment: one more, and 65535 wraps to 0 |
| Core.NextHeadIsTorusStep | src/core/mod.rs:26-58 | from an interior head, the new head is a step along the heading on the torus of interior cells, so it stays in the interior |
| Core.TorusCoordAgrees | src/core/mod.rs:47-58 | the edge fix-up on one coordinate maps 0 to size-2 and size-1 to 1, and always lands in 1..size-2 |
| Core.NextHeadWrapsAtEdges | src/core/mod.rs:47-58 | leaving through the left, right, top or bottom border re-enters at the opposite interior edge |
| Core.Snake.constructor | src/core/mod.rs:15-24 | a new snake is (10,10),(11,10),(12,10), heading left |
| Core.Snake.MoveForward | src/core/mod.rs:26-65 | new head in front; the old body follows, whole when growing and without its last cell otherwise; heading kept |
| Core.Snake.ChangeDirection | src/core/mod.rs:67-76 | the heading becomes the new one unless that is the exact reverse, which changes nothing |
| Core.NextHead | src/core/mod.rs:26-58 | from an interior head the new head is interior; a vertical step keeps the column and a horizontal step keeps the row |
| Core.Snake.HeadPosition | src/core/mod.rs:78-80 | the head is the first body cell |
| Core.Snake.OverlapsWith | src/core/mod.rs:82-84 | a cell overlaps the snake iff some body segment is on it |
| Core.TickRates | src/core/mod.rs:142-157 | the horizontal interval is 60 to 150 ms, and the vertical one is twice the horizontal |
| Core.HarderTicksFaster | src/core/mod.rs:142-157 | a harder tier has strictly shorter intervals in both directions |
| Core.CountDown | src/core/mod.rs:207-214 | the timer drops by one and disappears when it reaches 0; a timer in 1..100 stays in range |
| Core.TimerExpiresAfter | src/core/mod.rs:207-214 | a timer set to n is present for the next n-1 ticks and gone after n |
| Core.NoneStaysNone | src/core/mod.rs:207-214 | counting down an absent timer leaves it absent |
| Core.Collected | src/core/mod.rs:159-161 | a pickup happens iff a power-up exists, is active and sits on the head; its kind is collected |
| Core.EffectBodyShape | src/core/mod.rs:185-203 | Grow appends two copies of the last cell; Shrink drops up to two tail cells but never below 3; other kinds keep the body |
| Core.FirstFree | src/core/mod.rs:223-238 | a placement is a drawn cell off the snake and off the avoided cells; there is none iff every draw is taken |
| Core.FirstFreeIsFirst | src/core/mod.rs:223-238 | the placement is the first acceptable draw |
| Core.SpawnResult | src/core/mod.rs:246-284 | a spawned power-up is active, of the rolled kind, on a drawn cell off the snake and the food; none iff the roll fails or no draw fits |
| Core.VacatedCells | src/core/mod.rs:292-293 | exactly the pre-tick cells that the moved body no longer covers |
| Core.Game.constructor | src/core/mod.rs:104-128 | the state is `NewGame`: food placed, one power-up attempt, and every occupied cell marked |
| Core.NewGame | src/core/mod.rs:104-128 | a new game is well-formed: three segments, no timer, any power-up active |
| Core.Game.MarkInitialCells | src/core/mod.rs:121-127 | every body cell, the food and any power-up join the redraw set; nothing else changes |
| Core.NewGameStarts | src/core/mod.rs:104-128 | a new game is the start snake heading left with score 0, food on the first free draw, the spawn of the first roll, and the snake, food and power-up cells all marked |
| Core.Game.TogglePause | src/core/mod.rs:132-136 | pause flips unless the game is over, and nothing else changes |
| Core.Game.ToggleMute | src/core/mod.rs:362-364 | mute flips and nothing else changes |
| Core.Game.MarkPositionDirty | src/core/mod.rs:216-218 | the cell joins the redraw set and nothing else changes |
| Core.Game.UpdateSnakeDirection | src/core/mod.rs:350-352 | the engine's heading follows the turn rule of `change_direction` |
| Core.Game.ApplyPowerUpEffect | src/core/mod.rs:169-205 | the state is `EffectApplied`, which changes only body, score and timer and keeps the game well-formed |
| Core.Game.UpdatePowerUpEffects | src/core/mod.rs:207-214 | the timer counts down once and nothing else changes |
| Core.EffectApplied | src/core/mod.rs:169-205 | an effect keeps the game well-formed and the head in place, never lowers the score, and changes only body, score and timer |
| Core.TimerStepped | src/core/mod.rs:207-214 | one countdown step of the timer, keeping it in 1..100 or absent, and nothing else |
| Core.Game.GenerateFood | src/core/mod.rs:220-239 | with interior draws, the state is `FoodPlaced`: food moves to the first draw off the snake, the old and new food cells are marked, and new food is inside the border |
| Core.FoodPlaced | src/core/mod.rs:220-239 | only food and marks change; new food is a draw off the snake; both food cells are marked when it moves |
| Core.Game.GeneratePowerUp | src/core/mod.rs:241-285 | with interior draws, the state is `PowerUpPlaced`: nothing while a power-up exists, otherwise the spawn of the roll, marked and inside the border |
| Core.PowerUpPlaced | src/core/mod.rs:241-285 | only the power-up and marks change; a new power-up is active, of the rolled kind, off the snake and the food, and marked |
| Core.Game.CheckPowerUpCollision | src/core/mod.rs:159-167 | the state is `PowerUpCollected`: effect applied, power-up removed, one respawn attempt |
| Core.PowerUpCollected | src/core/mod.rs:159-167 | without a pickup nothing changes; a pickup removes the collected power-up, and any replacement is of the rolled kind, on a drawn cell off the new body and the food; score never drops, marks only grow, food, heading and flags are kept |
| Core.CollectStage | src/core/mod.rs:159-205 | after collection, body, timer and score are the collected kind's effect, or unchanged without a pickup |
| Core.Fed | src/core/mod.rs:305-314 | eating adds exactly 10, marks the eaten and the new food cell, and places food on the first free draw; otherwise nothing changes |
| Core.FoodEaten | src/core/mod.rs:305-314 | eating adds exactly 10, marks the eaten and the new food cell, moves food only to a draw off the snake, and changes nothing else |
| Core.Spawned | src/core/mod.rs:324-329 | the occasional spawn changes only the power-up and marks, and places an active power-up off the snake and the food |
| Core.Moved | src/core/mod.rs:330 | the move is one cell longer when growing and the same length otherwise; new head in front, old body behind |
| Core.Game.MoveAndMark | src/core/mod.rs:330-347 | the snake moves; the new head and the old head are marked, and the pre-tick tail when not growing and the pre-tick body is longer than the moved one |
| Core.Game.MarkOldTail | src/core/mod.rs:342-347 | the pre-tick tail joins the redraw set exactly under the written condition; nothing else changes |
| Core.MarkedAfterMove | src/core/mod.rs:333-347 | only the marks change: they grow by the new head, the old head and the written tail mark |
| Core.Game.Tick | src/core/mod.rs:287-348 | with interior draws, the new state is `TickResult` of the old one, including the marks as written, and the game stays well-formed (body ≥ 3, timer None or 1..100, power-up active) |
| Core.TickResult | src/core/mod.rs:287-348 | a tick keeps the state well-formed |
| Core.LiveTick | src/core/mod.rs:295-347 | a live tick decides food and pickup at the pre-move head, then moves, then marks |
| Core.PreMove | src/core/mod.rs:304-329 | food, pickup, countdown and occasional spawn keep the game well-formed; what they do is stated by `PreMoveScore`, `PreMoveBody`, `PreMoveTimer` and `PreMoveMarks` |
| Core.TickStopsOnGameOver | src/core/mod.rs:288-302 | a finished game ignores ticks; a head on its own body ends the game and changes nothing else; otherwise the game goes on |
| Core.TickScore | src/core/mod.rs:305-307 | the score never drops; a live tick adds 10 for food and 50 for ExtraPoints, nothing more |
| Core.PreMoveScore | src/core/mod.rs:305-322 | before the move, the score has gained 10 for food and 50 for ExtraPoints |
| Core.TickMovesSnake | src/core/mod.rs:305-331 | the new head is the pre-move head's step; the rest is the effect-shaped body, grown by one on food and shortened by its tail otherwise |
| Core.PreMoveBody | src/core/mod.rs:305-329 | before the move, heading and flags are unchanged and the body is the effect-shaped body |
| Core.OrdinaryTickShiftsBody | src/core/mod.rs:326-331 | without food or pickup, the body shifts one cell and keeps its length |
| Core.EatingGrowsByOne | src/core/mod.rs:305-331 | eating without a pickup adds exactly one cell and keeps every old cell |
| Core.TickMarksChangedCells | src/core/mod.rs:307-347 | marks only grow; the new head, the old head and both food cells are marked, and the old tail under the written shrink condition |
| Core.TickResultIntended | src/core/mod.rs:342-347 | the corrected tick differs from the tick as written only by marking more cells, and stays well-formed |
| Core.IntendedTickMarksVacatedCells | src/core/mod.rs:342-347 | the corrected tick marks the new head, the old head, both food cells and every cell the body left |
| Core.PreMoveMarks | src/core/mod.rs:305-329 | the pre-move parts only add marks, mark both food cells on eating, and move food only when it is eaten |
| Core.TickPlacesFood | src/core/mod.rs:305-314 | food moves only when eaten, to the first draw off the pre-tick snake |
| Core.TickTimer | src/core/mod.rs:318-323 | a speed pickup restarts the timer at 100, which this tick counts down to 99; otherwise the timer counts down |
| Core.PreMoveTimer | src/core/mod.rs:318-323 | the same timer rule, before the move |
| Core.TickPowerUp | src/core/mod.rs:316-329 | a power-up not collected stays; a collected one is gone unless replaced by a new one; a new one is active, of a rolled kind, on a drawn cell off the shaped body and the food, and marked |
| Core.ShapedCells | src/core/mod.rs:185-203 | the effect-shaped body uses only cells of the old body |
| Core.TickBodyOnBoard | src/core/mod.rs:331 | after a live tick every body cell is inside the border when every old one was |
| Core.TickKeepsOnBoard | src/core/mod.rs:225-226 | with interior draws, a tick keeps the body, the food and any power-up inside the border |
| Core.NewGameOnBoard | src/core/mod.rs:104-128 | with interior draws on a board of at least 14x12, a new game whose food draw succeeds has everything inside the border |
| Core.TailMarkAsWrittenSkipsOrdinaryMove | src/core/mod.rs:342-347 | as written, the tail mark never fires on an ordinary move |
| Core.TailMarkAsWrittenMissesVacatedTail | src/core/mod.rs:342-347 | the first left step of a new snake vacates (12,10), and the written tail mark does not mark it |
| Core.TailMarkAsWritten | src/core/mod.rs:342-347 | the pre-tick last cell, when not growing and the pre-tick body is longer than the moved body, and nothing otherwise |
| Core.OrdinaryTickMarksOldTail | src/core/mod.rs:342-347 | with the corrected tail mark, an ordinary tick marks the old tail cell whenever the body has left it |
| Core.TickAsWrittenLeavesOldTail | src/core/mod.rs:287-347 | a new game with food at (20,5) stepping left: the tick as written marks exactly (9,10) and (10,10), leaving the vacated (12,10) unmarked, which the corrected tick marks |
| MainLoop.IsReverseDirection | src/main.rs:376-384 | a reversal iff the new heading is the opposite of the current one |
| MainLoop.ReverseDirectionProperties | src/main.rs:376-384 | `is_reverse_direction` holds exactly for opposite headings, so it is symmetric and irreflexive |
| MainLoop.DifficultyToIndex | src/main.rs:67-74 | indices are 0 to 3 |
| MainLoop.DifficultyFromIndex | src/main.rs:76-84 | rows 0 to 3 name Easy, Medium, Hard and Extreme, and any other row Medium; stated by `DifficultyIndexRoundTrip` |
| MainLoop.DifficultyIndexRoundTrip | src/main.rs:67-84 | index then back gives the difficulty; back then index gives any index up to 3; larger indices give Medium |
| MainLoop.Admit | src/main.rs:473-487 | a queue of at most two stays at most two, and a changed queue ends with the offered turn |
| MainLoop.AdmitProperties | src/main.rs:473-487 | the queue keeps at most two turns and keeps its front when full; a turn is dropped iff it repeats or reverses the back (or the heading when empty), and an admitted turn becomes the back |
| MainLoop.QueueCanHoldReversalPair | src/main.rs:473-487 | heading Left, the presses Up, Left, Down leave [Up, Down] queued |
| MainLoop.DirectionQueue.constructor | src/main.rs:445 | a new queue is empty |
| MainLoop.DirectionQueue.Offer | src/main.rs:473-487 | the queue becomes `Admit` of the old queue, so it never exceeds two turns |
| MainLoop.DirectionQueue.PopFront | src/main.rs:538 | an empty queue gives nothing; otherwise the oldest turn is removed and returned |
| MainLoop.TickInterval | src/main.rs:517-525 | the interval is never below 20 ms |
| MainLoop.TickIntervalProperties | src/main.rs:517-525 | the interval is never below 20 ms, equals the base at 100% and 100%, and grows with the base |
| MainLoop.TickRateFor | src/main.rs:527-534 | the vertical interval applies when the front queued turn, or else the heading, is Up or Down; the horizontal one otherwise |
| MainLoop.VerticalTicksTwiceAsLong | src/main.rs:527-534 | the chosen base interval is the horizontal one or twice it |
| MainLoop.RatchetHighScore | src/main.rs:542-545 | the difficulty's stored score becomes the larger of old and new; the others are unchanged |
| MainLoop.RatchetMonotone | src/main.rs:542-545 | ratcheting never lowers any stored score and is idempotent |
| MainLoop.PlaySession.constructor | src/main.rs:436-445 | a session starts with an empty queue and the game muted iff sound is off, and keeps the settings' language and the layout check |
| MainLoop.PlaySession.HandleInput | src/main.rs:454-491 | menu-confirm returns to the menu and quit quits; direction keys go through `Admit`; pause, mute and focus loss act on the game; a game that is over only hears resize, menu-confirm and quit |
| MainLoop.PlaySession.UpdatePass | src/main.rs:496-546 | a tick happens iff the game runs, is unpaused, the layout check passes for the terminal size, the board and the session's language, and the due interval has elapsed; then exactly one queued turn is taken, the game becomes `TickResult` of the steered state, and the high score is ratcheted; otherwise nothing changes |
| MainLoop.SteeredNeverReverses | src/main.rs:537-540 | the turn taken before a tick never reverses the snake, and changes only its heading |
| MainLoop.MenuStart | src/main.rs:139-145 | the menu opens on the main screen with Play highlighted, the reset prompt on No, and the current difficulty and language highlighted |
| MainLoop.Menu.constructor | src/main.rs:139-145 | the menu state is `MenuStart`, with every highlight in range, and the layout check is kept |
| MainLoop.Menu.HandleInput | src/main.rs:254-371 | one received input changes the menu exactly as `MenuStep`, with the layout check made in the current language, keeping every highlight in range |
| MainLoop.Menu.ConfirmSelected | src/main.rs:302-366 | given the layout verdict for the current size and language, confirming acts exactly as `Confirm` for the current screen and row |
| MainLoop.Menu.SelectRow | src/main.rs:267-277 | the current screen's highlight moves to the row; the high-score list stays on Back |
| MainLoop.Menu.Highlighted | src/main.rs:255-301 | the current screen's highlighted row |
| MainLoop.Menu.Run | src/main.rs:147-372 | inputs are handled in order until one starts a game or exits, as `MenuRun` |
| MainLoop.Confirm | src/main.rs:302-366 | confirming keeps the terminal size; a start needs the main screen and a passing layout check in the current language, and uses the selected difficulty; exit iff Quit is confirmed on the main screen; scores change only on the reset prompt, to zero |
| MainLoop.MenuStep | src/main.rs:254-371 | only confirm or quit end the menu; only confirm changes the screen; only resize changes the terminal size |
| MainLoop.MenuRun | src/main.rs:147-372 | a run ends with a start or an exit only if a confirm or a quit was among its inputs |
| MainLoop.MenuStepKeepsRanges | src/main.rs:255-301 | every input keeps each highlight within its screen's rows (4, 4, pinned 4, 4, language count, 1) and the language valid |
| MainLoop.ConfirmKeepsRanges | src/main.rs:302-366 | confirming keeps each highlight within its screen's rows |
| MainLoop.MenuRunKeepsRanges | src/main.rs:147-372 | any input sequence keeps each highlight in range |
| MainLoop.StartOnlyFromPlay | src/main.rs:304-309 | a game starts iff Play is confirmed on the main screen while the layout check passes in the current language, at the selected difficulty |
| MainLoop.ExitOnlyOnQuit | src/main.rs:302-369 | the menu exits iff Quit arrives or the Quit row is confirmed |
| MainLoop.ScoresResetOnlyOnYes | src/main.rs:337-359 | stored scores change only on a confirmed Yes, and then become zero; the prompt opens on No |
| MainLoop.UpDownRoundTrip | src/main.rs:278-301 | away from the ends, Down undoes Up and Up undoes Down; Up stops at the first row and Down at the last |
| MainLoop.DifficultyChoice | src/main.rs:310-321 | a listed difficulty becomes both the selection and the saved default; Back keeps both; reopening and confirming keeps the choice |
| MainLoop.LanguageChoiceRoundTrip | src/main.rs:323-352 | opening the language list and confirming at once keeps the settings |
| Layout.MinTerminalSize | src/layout/mod.rs:61-68 | the minimum is max(map width, 49) by map height + 5 |
| Layout.ComputeLayout | src/layout/mod.rs:70-97 | `Err` iff the terminal is narrower than the map or the controls line, or shorter than map + 5, echoing the size and the minimum; `Ok` keeps both sizes |
| Layout.ControlsTextWidth | src/layout/mod.rs:6 | the controls line is 49 characters |
| Layout.LayoutIsCentred | src/layout/mod.rs:85-96 | the margins left and right of the board differ by at most one, and so do those above and below the board plus HUD |
| Layout.LayoutFits | src/layout/mod.rs:32-54 | origins are at least 1, the board's right edge is inside the terminal, and the controls row is map bottom + 5, inside the terminal |
| Layout.Layout.MapRight | src/layout/mod.rs:31-33 | the board's rightmost column; stated by `BoardCorners` and `LayoutFits` |
| Layout.Layout.MapBottom | src/layout/mod.rs:35-37 | the board's bottom row; stated by `BoardCorners` and `HudRowsOrdered` |
| Layout.Layout.BoardToScreen | src/layout/mod.rs:39-41 | board cell (x, y) on the terminal, offset by the origin; stated by `BoardCorners` |
| Layout.Layout.HudScoreY | src/layout/mod.rs:43-45 | the score row, below the board; stated by `HudRowsOrdered` |
| Layout.Layout.HudInfoY | src/layout/mod.rs:47-49 | the info row, below the score row; stated by `HudRowsOrdered` |
| Layout.Layout.HudControlsY | src/layout/mod.rs:51-53 | the controls row, last and inside the terminal; stated by `HudRowsOrdered` and `LayoutFits` |
| Layout.BoardCorners | src/layout/mod.rs:32-42 | board cell (1,1) is the origin and the far corner is (map right, map bottom) |
| Layout.HudRowsOrdered | src/layout/mod.rs:44-54 | score row < info row < controls row, all below the board |
| Layout.LayoutExamples | src/layout/mod.rs:103-116 | 20x10 rejects a 40x20 board; 100x40 puts it at (31,8) with right edge 70 and bottom 27 |
| Storage.HighScores.Set | src/storage/mod.rs:23-29 | the set difficulty reads back the new score and the others are unchanged |
| Storage.HighScores.Get | src/storage/mod.rs:15-21 | the score of one tier; stated by `HighScores.Set`, `SetThenGet` and `DefaultHighScores` |
| Storage.SetThenGet | src/storage/mod.rs:15-29 | get after set returns the score; a second set overrides the first; setting the current score changes nothing |
| Storage.DefaultHighScores | src/storage/mod.rs:7-12 | all scores are zero |
| Storage.FromLegacy | src/storage/mod.rs:42-50 | the legacy single score becomes every tier's score |
| Storage.LoadHighScores | src/storage/mod.rs:60-73 | an unreadable file gives defaults; otherwise the current format wins, then the legacy format, then defaults |
| Storage.CurrentFormatWins | src/storage/mod.rs:66-68 | when the current format parses, the legacy parser is never consulted |
| Shared.CenterStart | src/render/shared.rs:35-37 | the start is at least 1, is 1 when the content does not fit, and centres fitting content with the extra cell on the right |
| Shared.TextWidthConcat | src/render/shared.rs:39-41 | the width of a concatenation is the sum of the widths |
| Shared.DisplayWidth | src/render/shared.rs:39-41 | the display width is the sum of the character widths when that fits in `u16` |
| Shared.ClipByDisplayWidth | src/render/shared.rs:43-61 | the loop's result is `Clip` of the text |
| Shared.ClipFromBounds | src/render/shared.rs:51-58 | the clipped text is a prefix whose width fits in what is left |
| Shared.ClipFromStopsAtOverflow | src/render/shared.rs:51-60 | clipping stops only at a positive-width character that would overflow |
| Shared.ClipFromKeepsFittingText | src/render/shared.rs:51-60 | text that fits is kept whole |
| Shared.Clip | src/render/shared.rs:43-61 | the clip is a prefix of the text no wider than the limit |
| Shared.ClipProperties | src/render/shared.rs:43-61 | a zero width gives the empty string; otherwise the result is a prefix within the width, the whole text when it fits, and stops only at an overflowing character |
| Shared.Spaces | src/render/shared.rs:71-77 | n spaces |
| Shared.SpacesWidth | src/render/shared.rs:71-77 | n spaces are n columns wide |
| Shared.PadToDisplayWidth | src/render/shared.rs:71-77 | the text is kept as a prefix and only spaces follow it |
| Shared.PadProperties | src/render/shared.rs:71-77 | text at least as wide as the target is unchanged; otherwise exactly target - width spaces are appended, reaching the target |
| MenuCache.RectUnion | src/render/menu/menu_cache.rs:67-74 | the union covers both rectangles, and each edge is the edge of one of them |
| MenuCache.RectUnionProperties | src/render/menu/menu_cache.rs:67-74 | the union covers both rectangles, is the least such rectangle, and is commutative and idempotent |
| MenuCache.TransitionRedrawRegion | src/render/menu/menu_cache.rs:76-78 | with no previous region the current one is redrawn; otherwise the union of both |
| MenuCache.KeyFromView | src/render/menu/menu_cache.rs:101-113 | a key built from a view matches that view |
| MenuCache.KeyMatchesIffFromView | src/render/menu/menu_cache.rs:89-113 | a key matches a view iff it is the key built from it |
| MenuCache.MenuRenderCaches.constructor | src/render/menu/menu_cache.rs:52-65 | all three caches start empty |
| MenuCache.MenuRenderCaches.ClaimRedrawRegion | src/render/menu/menu_cache.rs:80-87 | returns the transition region from the stored one and stores only the current region |
| MenuCache.MenuRenderCaches.MenuRedrawState | src/render/menu/menu_cache.rs:115-136 | full redraw iff no key is cached or it differs from the view; the previous selection is reported only otherwise; key and selection are stored |
| MenuCache.MenuRenderCaches.MarkMenuDraw | src/render/menu/menu_cache.rs:138-143 | only the high-scores key is cleared |
| MenuCache.MenuRenderCaches.BeginHighScoresDraw | src/render/menu/menu_cache.rs:145-177 | cached iff the identical key is stored; otherwise the key is stored and the menu key and selection are cleared |
| MenuCache.MenuRenderCaches.InvalidateMenuRenderCaches | src/render/menu/menu_cache.rs:179-199 | all caches are cleared |
| MenuCache.ClaimSequence | src/render/menu.rs:82-95 | claiming main, high scores, main returns main, then union(main, hs), then union(hs, main) |
| MenuCache.ClaimSequenceExample | src/render/menu.rs:69-95 | with the concrete rectangles, the second and third claims are (20,110,5,25) |
| MenuMain.SelectedOptionStyle | src/render/menu/menu_main.rs:35-40 | the danger flag picks the danger-selected style, otherwise the mid style |
| MenuMain.DecimalString | src/render/menu/menu_main.rs:75-79 | a decimal numeral: digits only, no leading zero |
| MenuMain.DecimalRoundTrip | src/render/menu/menu_main.rs:75-79 | reading the numeral back gives the number |
| MenuMain.MenuOptionLineText | src/render/menu/menu_main.rs:64-83 | a line has at least six characters and starts with `>` iff its row is selected |
| MenuMain.MenuOptionLineShape | src/render/menu/menu_main.rs:64-83 | marker `>` iff selected, else a space; shortcut `[k+1]` below 6, else `[ ]`; then the label clipped and padded to the label width |
| MenuMain.MenuOptionLineSnapshot | src/render/menu.rs:22-23 | option 0 "Play", selected, width 10 gives "> [1] Play      " |
| MenuMain.BuildHighlightRowAnsi | src/render/menu/menu_main.rs:42-62 | the ANSI text of a highlighted row; its layout is stated by `HighlightRowSegments` and `HighlightRowText`, and the two test strings by `SelectedRowSnapshot` and `DangerRowSnapshot` |
| MenuMain.HighlightRowSegments | src/render/menu/menu_main.rs:42-62 | a highlighted row is style and cursor move, exactly the row width in spaces, reset, style and cursor move, the line's clip, reset |
| MenuMain.HighlightRowText | src/render/menu/menu_main.rs:42-62 | the text written over the row is a prefix of the line no wider than the row, and the whole line when it fits |
| MenuMain.SelectedRowSnapshot | src/render/menu.rs:31-41 | the selected-row ANSI string of the snapshot test |
| MenuMain.DangerRowSnapshot | src/render/menu.rs:49-59 | the danger-row ANSI string of the snapshot test |
| MenuMain.AsciiFits | src/render/shared.rs:43-61 | printable ASCII of at most the width is not clipped |
| MenuMain.AsciiWidth | src/render/shared.rs:39-41 | printable ASCII is one column per character |
| MenuMain.RowStyle | src/render/menu/menu_main.rs:99-105 | selected rows use the selected style (danger or not); unselected danger rows the danger style; others the plain style |
| MenuMain.PartialRedrawRows | src/render/menu/menu_main.rs:290-307 | at most two distinct rows, all in range and each the previous or the selected row: the previous row first iff it is in range, and the selected row, last, iff it is in range |

## Left out

- Random draws, and the 0.3 and 0.02 spawn probabilities: the caller passes the draws and the roll outcomes. `generate_food` loops until a free cell is drawn; the model consumes a finite draw sequence and leaves the food where it was when the sequence runs out. The source would keep drawing.
- Core.SpawnResult, Core.PowerUpPlaced, Core.Game.GeneratePowerUp: `generate_power_up` also keeps drawing until a cell is off the snake and the food, and never returns when there is none. The model consumes a finite draw sequence and gives no power-up when every draw is taken, even though the 0.3 roll succeeded; the source would keep drawing.
- `play_sound` (a terminal bell) and `persist_config` (a disk write) have no effect on the modelled state and are omitted.
- Terminal setup, the input thread and channel, sleeping, the clock, `run_smoke_check` and all drawing are I/O. Elapsed time and input events are parameters. `src/input/mod.rs` and `src/i18n/mod.rs` are not part of this model.
- TOML parsing and file access in `load_high_scores` are parser-function parameters. `save_high_scores` is not modelled.
- Core.Game.Tick: the score is an unbounded `nat`. The source's `u32` would overflow only after about 400 million food.
- Shared.Clip, Shared.ClipByDisplayWidth: the width accumulator is unbounded, while the source's is a saturating `u16`. The two differ only at `max_width == 65535`: there the saturated sum can never exceed the limit, so the source keeps the whole text however wide it is, while the model stops at 65535 columns and `Shared.Clip`'s width bound does not hold of the source. Below 65535 the accumulator never exceeds `max_width`, so saturation never changes the test. The menu never passes 65535: its row and panel widths are at most the terminal width minus 2.
- MainLoop.BoardFits, MainLoop.Confirm, MainLoop.StartOnlyFromPlay, MainLoop.Menu.HandleInput, MainLoop.Menu.ConfirmSelected, MainLoop.PlaySession.UpdatePass: the localized layout check is the parameter `fits`, so the model states when a game starts or ticks in terms of its verdict but not what minimum size each language needs; that depends on the localized control hints of `src/i18n/mod.rs`, which is not part of this model.
- Shared.DisplayWidth: a string's width is the sum of its characters' widths. The `unicode_width` crate's string width can differ from that sum for some sequences.
- MainLoop.TickInterval: the arithmetic is unbounded; the source's `u64` cannot overflow at these magnitudes.
- Layout.ComputeLayout: requires `map_height + 5` to fit in `u16`, as the source's `u16` addition does.
- Storage.HighScores.Set: modelled as returning the updated record rather than assigning through `&mut self`.
- Storage.HighScores: scores are unbounded `nat`, where the source stores `u32`; a score above 4294967295 cannot be stored there.
- MainLoop.PlaySession.UpdatePass: the play session takes the engine's three-tier difficulty. `main.rs` can also start an `Extreme` game, but `src/core/mod.rs`'s `Game` has no tick rates for `Extreme` and `src/storage/mod.rs`'s `HighScores` has no slot for it.
- `src/main.rs` calls `Game::new` with a fourth argument and reads `game.high_score`; `src/core/mod.rs` defines neither. The high score reaches `UpdatePass` as a parameter.
- `src/main.rs` also calls speed-percentage methods that `src/core/mod.rs` does not define; their values also reach `UpdatePass` as parameters.
- The menu's language list is represented by its length alone. `Language::ALL[i]` is the index `i`.
- `MoveAndMark`, `MarkInitialCells`, `SelectRow` and `ConfirmSelected` are parts of `tick`, `Game::new` and `show_menu`, split out as separate methods.

## Findings

| source | as written | input that shows it | evidently intended | confidence | as-written member | corrected member |
|---|---|---|---|---|---|---|
| src/core/mod.rs:342-347 | the old tail is marked only when `!grow` and the pre-tick body is longer than the moved body, which never happens on an ordinary move (the lengths are equal) | a new game with food at (20,5) stepping left: body (10,10),(11,10),(12,10) becomes (9,10),(10,10),(11,10); the tick marks only (9,10) and (10,10), so the vacated (12,10) is not cleared | mark every pre-tick cell the moved body no longer covers (the comment says the tail is marked "to clear it") | not executed | Core.TickAsWrittenLeavesOldTail | Core.OrdinaryTickMarksOldTail |
