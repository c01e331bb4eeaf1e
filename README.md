# MapleStoryBot core, modelled in Dafny

MapleStoryBot drives a MapleStory client through the OS keyboard. It does this from a
bot controller with a state machine (INITIALIZING, PLACEMENT, HUNTING, RUNE), a summon
cooldown table, a movement controller that walks the character to named map points,
and a keyboard macro player and recorder. It also has three vision workers: window
capture, template detection and frame preprocessing. These share their latest frame and
result through slots that a background loop fills.

This project models that core and proves what each part promises:

- **Effects.** Every key event and sleep the bot issues is appended to an effect log
  (`Effects.Log`). An operation's behaviour is a `Run`: the effects it emitted, and
  whether it returned or raised.
- **Operations.** Each operation is stated against a specification function of that
  kind, and the lemmas about those functions carry the properties.
- **Classes.** The source's classes are Dafny classes whose methods update their fields.
  Their loops are `while`/`for` loops proved against the specification functions.
- **Inputs.** Configuration and macro files are already-parsed documents. The clock,
  the position reader, the window list, screenshots and the OpenCV stages are inputs.

Files:

- `effects.dfy`: errors, outcomes, delays, effects, runs, and the effect log.
- `bot_action.dfy`: `BotConfig.get`/`get_key` and the pattern records.
- `bot_utils.dfy`: loading bindings and patterns; dispatching named actions.
- `background_input.dfy`: key-name resolution, `press`, `hold` and window lookup.
- `movement_controller.dfy`: the two bounded approach loops.
- `auto_bot.dfy`: the state machine, cooldowns, summon cycle, sweeps and main loop.
- `macro_files.dfy`, `macro_player.dfy`, `macro_recorder.dfy`: the macro documents,
  the player and the recorder.
- `frames.dfy`: image buffers (`array2<int>`) and their pixel values.
- `window_capture.dfy`, `object_detector.dfy`, `vision_preprocessor.dfy`: the vision
  workers.

## Model

| member | source | states |
|---|---|---|
| Effects.RepeatFailSticks | utils/bot/background_input.py:63-68 | once an iteration of a `for` loop has raised, more iterations add no effect and the loop keeps that error |
| Effects.RepeatPassing | utils/bot/background_input.py:63-68 | a loop body that returns, run n times, emits n copies of its effects back to back and returns |
| Effects.RepeatFailing | utils/bot/background_input.py:63-68 | a loop body that raises ends the loop in its first iteration with exactly that iteration's effects |
| BotAction.Get | models/bot_action.py:19-23 | returns the stored action iff it is in the category's group; otherwise KeyError naming category and action |
| BotAction.GetKey | models/bot_action.py:25-26 | the key of `get`'s action (None allowed) when `get` succeeds; `get`'s KeyError unchanged otherwise |
| BotAction.UnknownCategoryRaises | models/bot_action.py:20-22 | a category that is none of the four fields movement/attacks/buffs/specials reads as the default empty group, so `get` and `get_key` raise KeyError naming the category and the action |
| Utils.GroupOfContents | utils/bot/__init__.py:13-24 | a name is in the group iff some item carries it as a non-empty name; its entry comes from the last such item, so later items overwrite earlier ones |
| Utils.LoadGroup | utils/bot/__init__.py:13-24 | the loop builds exactly the group of the items in the list; a missing list gives an empty group |
| Utils.BotUtils.LoadBotConfig | utils/bot/__init__.py:26-41 | each of the four groups is built from the same-named list of the document, and the result becomes the stored config |
| Utils.HuntingLoopOfSteps | utils/bot/__init__.py:62-73 | the hunting loop loads iff every step has its required fields; it then has one step per entry, in order |
| Utils.LoadHuntingLoop | utils/bot/__init__.py:62-73 | the append loop over `hunting_loop or []` yields the step list, or the error of the first malformed step |
| Utils.HuntingLoopErrSticks | utils/bot/__init__.py:63-73 | a malformed step decides the result whatever steps follow it |
| Utils.LoadPatternConfig | utils/bot/__init__.py:43-80 | the loaded pattern is the document's points, summons and hunting loop with map_name, or the error of the first part that fails |
| Utils.PatternShape | utils/bot/__init__.py:49-80 | points keep exactly the document's names, each point's name equal to its key with the given x and y; jumps defaults to 0 and style to "hold"; missing summons or hunting_loop give empty lists; a missing map_name raises |
| Utils.UnboundKeyDispatch | utils/bot/__init__.py:85-104 | with no key bound, press/key_down/key_up actions emit nothing and return while hold_action raises ValueError; an absent action makes all four raise KeyError |
| Utils.BotUtils.constructor | utils/bot/__init__.py:9-11 | a fresh dispatcher has no bindings and is attached to the input that AutoBot assigns once it is built |
| Utils.BotUtils.PressAction | utils/bot/__init__.py:85-88 | the log grows by the action's press of its bound key, by nothing when the key is unbound, and KeyError leaves it unchanged |
| Utils.BotUtils.HoldBegin | utils/bot/__init__.py:90-94 | on success the bound key resolves and exactly its key-down is logged; on failure nothing is logged and `with hold_action` raises that same error for any body |
| Utils.BotUtils.HoldEnd | utils/bot/background_input.py:75-76 | exactly the key-up of the held key is logged |
| Utils.BotUtils.KeyDownAction | utils/bot/__init__.py:96-99 | the log grows by the bound key's key-down, by nothing when unbound; absent actions raise KeyError |
| Utils.BotUtils.KeyUpAction | utils/bot/__init__.py:101-104 | the log grows by the bound key's key-up, by nothing when unbound; absent actions raise KeyError |
| Input.CaseMapping | utils/bot/background_input.py:40 | lower- and upper-casing act character by character and keep the length |
| Input.LowerAbsorbs | utils/bot/background_input.py:40 | lower-casing is idempotent and forgets any earlier upper-casing |
| Input.VkResolution | utils/bot/background_input.py:39-50 | the named-key table wins; otherwise a single character maps to the code of its upper case; anything else raises the unknown-key error, carrying the lower-cased name, and only then |
| Input.VkIgnoresCase | utils/bot/background_input.py:40 | a name, its upper-cased form and its lower-cased form resolve to the same code or the same error |
| Input.MatchingHandlesHead | utils/bot/background_input.py:11-22 | the callback's result list is empty iff no visible window's title contains the keyword case-insensitively; otherwise its head belongs to the first such window |
| Input.FindWindowByTitle | utils/bot/background_input.py:11-22 | None iff no visible window matches; otherwise the handle of the first match in enumeration order |
| Input.PressOnceShape | utils/bot/background_input.py:64-68 | one press of a resolved key is key-down, 30 ms, key-up, then the interval only when it is positive |
| Input.PressOnceKeys | utils/bot/background_input.py:64-68 | the key events of one press are exactly its key-down followed by its key-up |
| Input.PressEmitsPairs | utils/bot/background_input.py:62-68 | `press(key, n)` returns and emits exactly n strictly alternating down/up pairs of the key's code, nothing for n <= 0; an unknown key raises before any event when n > 0 |
| Input.HoldAlwaysReleases | utils/bot/background_input.py:70-76 | `hold` brackets the body's effects between the key's down and up, whether the body returns or raises, and passes the body's outcome through |
| Input.BackgroundInput.constructor | utils/bot/background_input.py:30-31 | the input is bound to the given window handle, key table and log |
| Input.BackgroundInput.KeyDown | utils/bot/background_input.py:52-55 | the log grows by the key-down of the resolved code, or the resolution error is raised with nothing logged |
| Input.BackgroundInput.KeyUp | utils/bot/background_input.py:57-60 | the log grows by the key-up of the resolved code, or the resolution error is raised with nothing logged |
| Input.BackgroundInput.PressOne | utils/bot/background_input.py:64-68 | one iteration of press: the log grows by exactly one press |
| Input.BackgroundInput.Press | utils/bot/background_input.py:62-68 | the loop's log growth and outcome are those of `presses` presses stopped by the first error, so PressEmitsPairs applies |
| Input.Open | utils/bot/background_input.py:30-33 | RuntimeError (window not found) exactly when no window matches or the first match is the null handle; a first match with a nonzero handle gives a new input bound to it |
| Movement.Clamp | utils/bot/movement_controller.py:68 | the result lies in [0.02, 1.0]; it equals the input inside that band and the nearer end outside it |
| Movement.ClampMonotone | utils/bot/movement_controller.py:68 | clamping preserves order |
| Movement.Remaining | utils/bot/movement_controller.py:63 | never negative; equals the distance beyond the tolerance when the distance exceeds it |
| Movement.HoldTime | utils/bot/movement_controller.py:63-68 | ZeroDivisionError iff the speed is 0; otherwise a hold time in [0.02, 1.0] |
| Movement.HoldTimeMonotone | utils/bot/movement_controller.py:63-68 | with a positive speed a farther target is held at least as long |
| Movement.Direction | utils/bot/movement_controller.py:62 | move_right iff the difference is positive, move_left otherwise |
| Movement.WalkedSticks | utils/bot/movement_controller.py:53-59 | once a phase has broken out within tolerance or raised, later iterations change nothing |
| Movement.WalkedStops | utils/bot/movement_controller.py:53-59 | a loop of n iterations reads at most n positions and stops at the first read within tolerance; every earlier read was out of tolerance and gave one step, in order; a loop that neither arrived nor raised used all n iterations |
| Movement.ConstantGapWalk | utils/bot/movement_controller.py:53-59 | with a difference that never changes, the loop either does nothing or repeats the same step in every iteration |
| Movement.PhaseBound | utils/bot/movement_controller.py:51-90 | a phase takes at most 20 (horizontal) or 100 (vertical) steps, each at a read out of tolerance, and stops at the first read within tolerance |
| Movement.ConstantPositionPhase | utils/bot/movement_controller.py:53-90 | with a constant position and a step that returns, a phase takes either no steps or exactly its maximum number of steps, all the same |
| Movement.ApproachPhases | utils/bot/movement_controller.py:33-40 | move_to_point finishes the horizontal phase before the vertical one starts; the vertical reads all come after the horizontal ones; at most 120 reads in all; a raise in the horizontal phase skips the vertical one |
| Movement.HorizontalMoveKeys | utils/bot/movement_controller.py:70-75 | with a nonzero speed, a horizontal step returns and its key events are exactly one down and one up of the chosen direction |
| Movement.DownStepKeys | utils/bot/movement_controller.py:102-110 | a down step returns, and its key events are move_down held around exactly one jump press |
| Movement.UpStepKeys | utils/bot/movement_controller.py:112-119 | an up step returns, and its key events are exactly one up_rope press |
| Movement.VerticalMoveChoice | utils/bot/movement_controller.py:92-99 | a vertical step goes down iff the target is lower on screen (positive difference), and up otherwise, then waits 0.05 s |
| Movement.UnpackAsWritten | utils/bot/movement_controller.py:54 | unpacking the position argument without calling it succeeds iff the argument is a tuple |
| Movement.PositionReading | utils/bot/movement_controller.py:86 | with a callable argument every read as written raises TypeError, while the intended read returns the callable's value; with a tuple both agree and the reading is constant |
| Movement.FeedOf | utils/bot/movement_controller.py:54 | the position feed calls the callable at each read, and agrees with the source wherever unpacking the argument succeeds |
| Movement.AsWrittenSendsNoKey | utils/bot/movement_controller.py:33-54 | with the callable AutoBot passes, `move_to_point` as written raises TypeError before it sends any key or reads any position, whatever the point; with a tuple it is the intended move on a constant position |
| Movement.MovementController.constructor | utils/bot/movement_controller.py:16-30 | the controller keeps its dispatcher, position source, tolerances, speed and offset, and its steps are those of the shared bindings |
| Movement.MovementController.ReadPosition | utils/bot/movement_controller.py:54 | each read returns the next position of the source and advances the read count by one |
| Movement.MovementController.MoveToPoint | utils/bot/movement_controller.py:33-40 | the log grows by the horizontal phase, then the vertical phase, as ApproachPhases describes, and the read count advances by the reads taken |
| Movement.MovementController.MoveHorizontally | utils/bot/movement_controller.py:43-75 | the loop with early break matches the horizontal phase: its effects, its outcome and its number of reads |
| Movement.MovementController.HorizontalStep | utils/bot/movement_controller.py:62-75 | one iteration past the tolerance test: the direction held for the clamped hold time, then 0.03 s |
| Movement.MovementController.MoveVertically | utils/bot/movement_controller.py:77-99 | the loop with early break matches the vertical phase: its effects, its outcome and its number of reads |
| Movement.MovementController.VerticalStep | utils/bot/movement_controller.py:92-99 | one iteration past the tolerance test: a down or up step by the sign of the difference, then 0.05 s |
| Movement.MovementController.VerticalDownStep | utils/bot/movement_controller.py:102-110 | move_down held around one jump press and 0.15 s, released even when the press raises |
| Movement.MovementController.VerticalUpStep | utils/bot/movement_controller.py:112-119 | one up_rope press, then 0.30 s |
| Bot.TransitionSources | components/bot/auto_bot.py:115-153 | RUNE comes only from HUNTING with the rune flag; PLACEMENT from INITIALIZING, or from HUNTING without rune but with a ready summon; HUNTING from PLACEMENT, or from HUNTING with neither; INITIALIZING from RUNE or an unknown state; an unknown state is never produced |
| Bot.ReachesHunting | components/bot/auto_bot.py:115-143 | without a rune every state reaches HUNTING within three passes |
| Bot.SeededExactly | components/bot/auto_bot.py:170-181 | initialisation puts exactly the pattern summons found in specials into the table, all at the same time now |
| Bot.MarkedEffect | components/bot/auto_bot.py:186-197 | marking a known summon sets its ready time to now plus its cooldown (now when the cooldown is None) and touches no other summon; an unknown summon changes nothing |
| Bot.MarkedNotReady | components/bot/auto_bot.py:186-210 | a summon just marked with a cooldown is not ready again before that cooldown has passed |
| Bot.AbsentSummonReady | components/bot/auto_bot.py:202-210 | a pattern summon that is missing from the table reads as ready at 0, so every readiness check from time 0 on succeeds |
| Bot.PlaceableOnly | components/bot/auto_bot.py:240-249 | keeps, in order, only summons that are in specials with a key bound |
| Bot.PlacementsVisitPlaceable | components/bot/auto_bot.py:240-258 | the summon loop visits exactly the placeable summons, in declared order, and skips all others |
| Bot.PlacementsExtend | components/bot/auto_bot.py:240-258 | the summon loop only appends to the effects before it, and after a raise it does nothing more |
| Bot.PlacementsKeepUnplaced | components/bot/auto_bot.py:240-256 | the cooldown of a summon that is never placed is left as it was |
| Bot.PlacementsSticks | components/bot/auto_bot.py:240-258 | once a placement has raised, the remaining summons change nothing |
| Bot.SummonCycleOrder | components/bot/auto_bot.py:233-262 | the cycle moves to start_left first, and if that raises nothing else happens and no cooldown changes; a cycle that returns ends with the move to start_right after the whole summon loop |
| Bot.SweepDirection | components/bot/auto_bot.py:292 | move_left iff the end point is left of the start point, so equal x gives move_right |
| Bot.SweepsOnly | components/bot/auto_bot.py:272-280 | keeps, in order, only the steps of type "sweep" |
| Bot.HuntingRunsSweepsOnly | components/bot/auto_bot.py:270-280 | a hunting pass behaves exactly like the pass over its sweep steps alone, in order |
| Bot.HuntingPassSticks | components/bot/auto_bot.py:272-283 | once a sweep has raised, the remaining steps change nothing |
| Bot.JumpsKeys | components/bot/auto_bot.py:301 | the jumps return and press the jump key exactly twice |
| Bot.HoldStyleKeys | components/bot/auto_bot.py:298-302 | one hold-style iteration: the direction's key-down, two jump presses, the direction's key-up |
| Bot.PressStyleKeys | components/bot/auto_bot.py:304-308 | one press-style iteration: the direction held around two jump presses and one attack press |
| Bot.SweepKeys | components/bot/auto_bot.py:297-315 | with all keys bound, every style holds the direction exactly `jumps` times (none when `jumps` is not positive), each around two jump presses; "press" adds one attack press inside each hold; "hold" and any other style hold the attack around them all |
| Bot.SweepUnboundAttack | components/bot/auto_bot.py:297-315 | with no attack key, "hold" and unknown styles raise before any iteration, while "press" with no jumps does nothing |
| Bot.LoopBodyFollowsRule | components/bot/auto_bot.py:110-155 | a pass that returns follows the transition rule, using the rune flag as re-read after the hunting pass, so a rune then wins over a ready summon; a raising pass keeps the state; only clearing a rune or an outside set changes the flag |
| Bot.NoRuneWithoutFlag | components/bot/auto_bot.py:110-155 | if nothing outside raises the rune flag, the bot never enters RUNE and its flag stays down |
| Bot.SessionsSticks | components/bot/auto_bot.py:106-160 | once the loop is stopped or a pass has raised, further ticks change nothing |
| Bot.AutoBot.constructor | components/bot/auto_bot.py:22-60 | a new bot is stopped, in INITIALIZING, with no rune, with a table seeded from the pattern's summons, and drives a fresh movement controller that reads the given position source with the default tolerances of 5 and 5 pixels |
| Bot.AutoBot.Start | components/bot/auto_bot.py:70-80 | a running bot is left as it is with nothing emitted; a stopped bot is marked running and waits 0.1 s |
| Bot.AutoBot.Stop | components/bot/auto_bot.py:85-87 | sets the stop flag and nothing else |
| Bot.AutoBot.SetRuneFlag | components/bot/auto_bot.py:93-97 | sets the rune flag to the value and nothing else |
| Bot.AutoBot.TransitionTo | components/bot/auto_bot.py:162-165 | sets the state and nothing else |
| Bot.AutoBot.InitSummonCooldowns | components/bot/auto_bot.py:170-181 | the table gains exactly the seeded entries |
| Bot.AutoBot.MarkSummonUsed | components/bot/auto_bot.py:186-197 | the table becomes the marked table, with no other field changed |
| Bot.AutoBot.IsAnySummonReady | components/bot/auto_bot.py:202-210 | true iff some pattern summon has now at or past its ready time, an absent one counting as 0 |
| Bot.AutoBot.GoTo | components/bot/auto_bot.py:218-225 | KeyError for an unknown point with nothing emitted; otherwise the move to that point |
| Bot.AutoBot.PlaceAt | components/bot/auto_bot.py:251-255 | the move to the summon's point, 0.2 s, one press of its key |
| Bot.AutoBot.VisitSummon | components/bot/auto_bot.py:251-258 | placing the summon, then, only if that returned, marking it used and waiting 0.1 s |
| Bot.AutoBot.PlaceSummons | components/bot/auto_bot.py:240-258 | the summon loop's effects, cursor and cooldown table are those of the placement specification |
| Bot.AutoBot.RunSummonCycle | components/bot/auto_bot.py:233-262 | the whole cycle's effects, reads and cooldown table are those of the cycle specification, so SummonCycleOrder and PlacementsVisitPlaceable apply |
| Bot.AutoBot.JumpsThenPause | components/bot/auto_bot.py:301-302 | the two jumps, then 0.10 s |
| Bot.AutoBot.JumpsAttackThenPause | components/bot/auto_bot.py:306-308 | the two jumps, one attack press, then 0.10 s |
| Bot.AutoBot.HoldStyleIteration | components/bot/auto_bot.py:300-302 | one hold-style iteration, with the direction released even when the body raises |
| Bot.AutoBot.PressStyleIteration | components/bot/auto_bot.py:305-308 | one press-style iteration, with the direction released even when the body raises |
| Bot.AutoBot.HoldStyleLoop | components/bot/auto_bot.py:299-302 | `jumps` hold-style iterations, stopped by the first that raises |
| Bot.AutoBot.HoldStyleSweep | components/bot/auto_bot.py:298-302 | the attack held around the hold-style loop |
| Bot.AutoBot.PressStyleSweep | components/bot/auto_bot.py:304-308 | `jumps` press-style iterations, stopped by the first that raises |
| Bot.AutoBot.RunSweep | components/bot/auto_bot.py:285-315 | KeyError for an unknown from/to point; otherwise the move to the start point, then the style's key actions in the chosen direction |
| Bot.AutoBot.RunHuntingLoopOnce | components/bot/auto_bot.py:270-280 | the effects and reads of the hunting pass over the pattern's loop |
| Bot.AutoBot.ClearRune | components/bot/auto_bot.py:323-335 | 2.0 s, then the rune flag is lowered; nothing else changes |
| Bot.AutoBot.LoopStep | components/bot/auto_bot.py:110-155 | one pass of the main loop: its effects and the new state, flag, table and reads are those of the pass specification |
| Bot.AutoBot.RunLoop | components/bot/auto_bot.py:106-157 | the main loop over the ticks: passes while not stopped, ended by the first raise; effects and final state are those of the session specification |
| MacroFiles.Files.Write | utils/__init__.py:34-51 | writing with replace leaves exactly the new document at the path and every other file as it was |
| Player.ListingReleases | components/bot/macro_player.py:135-140 | key-ups over a list of a set's keys release each of its keys exactly once |
| Player.UpsRelease | components/bot/macro_player.py:126-130 | a run of key-ups leaves down exactly the held keys it does not name |
| Player.ReleasesLeaveNothing | components/bot/macro_player.py:132-143 | releasing exactly the held keys, in any order, leaves none down |
| Player.StepTracks | components/bot/macro_player.py:169-182 | one event keeps the held set equal to what the strokes sent leave down |
| Player.WalkTracksHeld | components/bot/macro_player.py:164-182 | after any prefix of a walk, the held set is exactly what its strokes leave down: down adds, up removes, other types do nothing |
| Player.WalkPrefix | components/bot/macro_player.py:164-177 | stopping early only cuts the walk short: the strokes of a prefix of the events are a prefix of the strokes of them all |
| Player.WalkFailSticks | components/bot/macro_player.py:169-171 | once an entry lacks a field, later entries add nothing |
| Player.ReplayRecording | components/bot/macro_player.py:164-182 | playing back a recording raises nothing and sends exactly its recorded downs and ups, in recorded order |
| Player.RecordThenPlay | components/bot/macro_recorder.py:41-71 | a recording made from hook events and saved plays back as exactly the down/up events the filter kept, in order |
| Player.MacroPlayer.constructor | components/bot/macro_player.py:47-53 | a new player is stopped, holds no keys and has no macro loaded |
| Player.MacroPlayer.Load | components/bot/macro_player.py:92-110 | a missing file, a document that is not a mapping, or `events` that is not a list is rejected with macro and events unchanged; otherwise both are replaced by the document's |
| Player.MacroPlayer.PressKey | components/bot/macro_player.py:120-124 | sends the key-down and adds the key to the held set |
| Player.MacroPlayer.ReleaseKey | components/bot/macro_player.py:126-130 | sends the key-up and removes the key from the held set; a key not held leaves the set unchanged |
| Player.MacroPlayer.ReleaseAllKeys | components/bot/macro_player.py:132-143 | sends one key-up for each held key, in some listing order, and empties the held set |
| Player.MacroPlayer.Stop | components/bot/macro_player.py:215-223 | sets stopped, releases every held key and leaves none held |
| Player.MacroPlayer.Start | components/bot/macro_player.py:188-210 | raises with nothing changed when no events are loaded; a no-op when already running; otherwise marks running and waits 0.1 s |
| Player.MacroPlayer.PlayEvents | components/bot/macro_player.py:164-182 | the for loop over the examined events sends the walk's strokes and leaves the walk's held set, or raises at the first malformed entry |
| Player.MacroPlayer.PlayOnce | components/bot/macro_player.py:145-185 | walks the events, in order, that come before stop() lands; then releases every key still held, whether playback ended normally, early or by an exception; an empty list returns at once |
| Player.MacroPlayer.Run | components/bot/macro_player.py:227-242 | after the rounds, the player is stopped and holds no keys, the keyboard record only grew, and what was sent leaves no key down |
| Player.OpenPlayer | components/bot/macro_player.py:61-70 | an error exactly when no window matches the title or the first match is the null handle; a first match with a nonzero handle gives a new stopped player bound to it |
| Recorder.Round4Monotone | components/bot/macro_recorder.py:67 | rounding to four places keeps order |
| Recorder.AcceptedOnlyAccepted | components/bot/macro_recorder.py:46-58 | every event the filter keeps is a down or up event with a name that is not a control key |
| Recorder.CapturedIsFiltered | components/bot/macro_recorder.py:41-71 | a recording is the filtered events, in order, each stamped relative to the first one kept, whose time becomes start_time |
| Recorder.FirstAtZero | components/bot/macro_recorder.py:60-67 | the first recorded event has relative time 0 |
| Recorder.CapturedBounded | components/bot/macro_recorder.py:60-71 | start_time is set exactly when something was recorded, and no recorded time exceeds the rounded span of the input times |
| Recorder.TimesNonDecreasing | components/bot/macro_recorder.py:60-71 | with hook times that never go back, recorded times never go back |
| Recorder.JoinPathNonEmpty | components/bot/macro_recorder.py:125 | the joined path is non-empty and ends with the file name |
| Recorder.MacroRecorder.constructor | components/bot/macro_recorder.py:26-35 | a new recorder has no events, no hook, no start time, is not recording and has saved nothing |
| Recorder.MacroRecorder.Callback | components/bot/macro_recorder.py:41-71 | ignored unless recording; otherwise one filtered, relatively stamped append |
| Recorder.MacroRecorder.Start | components/bot/macro_recorder.py:76-89 | a no-op while recording; otherwise clears events and start_time, hooks, and starts recording |
| Recorder.MacroRecorder.Stop | components/bot/macro_recorder.py:94-108 | ends recording and unhooks without saving; when not recording only the flag stays false |
| Recorder.MacroRecorder.Save | components/bot/macro_recorder.py:113-139 | "" and no write with no events; otherwise the recording written to record_<stamp>.yaml under the directory, whose path is returned and remembered |
| Recorder.MacroRecorder.StopAndSave | components/bot/macro_recorder.py:144-156 | None with nothing changed when not recording, `last_saved_path` included; otherwise stops, then saves; with events, returns the new path and records it as `last_saved_path`; with none, returns None and leaves the files and `last_saved_path` as they were |
| Frames.Copy | components/vision/object_detector.py:120 | `.copy()`: a new buffer of the same shape holding the same pixels |
| Frames.FromPixels | components/vision/window_capture.py:176-182 | a new buffer holding exactly the given pixels, with their height and width |
| Frames.Region | components/vision/vision_preprocessor.py:127 | the slice has y2 - y1 rows of x2 - x1 columns, pixel (i, j) being the image's (y1 + i, x1 + j) |
| Frames.Crop | components/vision/vision_preprocessor.py:127 | a new buffer holding that slice of the frame |
| Capture.FindWindow | components/vision/window_capture.py:80 | a nonzero handle belongs to a window with exactly that title; 0 when there is none |
| Capture.GetWindowRect | components/vision/window_capture.py:93 | the rectangle of a window with that handle iff one exists; an invalid-handle error otherwise |
| Capture.MetricsCutBorder | components/vision/window_capture.py:97-108 | width is the window's less 16 and height less 38; the client area starts at (8, 30) in the window; the screen offset is the window's corner plus that origin |
| Capture.ClientInsideWindow | components/vision/window_capture.py:97-108 | every client pixel maps to a screen point inside the window rectangle, clear of the border and the title bar |
| Capture.ToScreenInjective | components/vision/window_capture.py:201-206 | distinct client positions map to distinct screen positions |
| Capture.CapturingStopped | components/vision/window_capture.py:252 | a worker that has ended (stopped, or left by an exception) does nothing, whatever comes next |
| Capture.CapturingSticks | components/vision/window_capture.py:252-262 | once the worker has stopped or raised, later passes change nothing |
| Capture.WindowGoneStops | components/vision/window_capture.py:252-257 | a window that is gone stops the worker, clears the handle, and keeps the last screenshot |
| Capture.ShotFromSomePass | components/vision/window_capture.py:252-262 | the slot holds the first screenshot, or, for a capturable client size, the pixels captured by a pass that found the window |
| Capture.LastPass | components/vision/window_capture.py:252-262 | the last pass of a running worker: gone means stopped with no handle; found means that handle and stopped exactly when a stop was requested, with those pixels for a positive client size and, otherwise, an exception that ends the thread and keeps the old screenshot |
| Capture.ShotHasClientSize | components/vision/window_capture.py:141-182 | given pixels of the client size from GDI, every screenshot the worker stores is an (h, w) image |
| Capture.BadShapeNoShot | components/vision/window_capture.py:154-170 | with a client width or height that is not positive, no pass ever stores a screenshot |
| Capture.WindowCapture.constructor | components/vision/window_capture.py:23-45 | stopped, no screenshot, no handle, zero geometry, no worker started |
| Capture.WindowCapture.InitWindowHandle | components/vision/window_capture.py:78-84 | the handle becomes what the lookup returned; the null handle raises window-not-found |
| Capture.WindowCapture.InitWindowMetrics | components/vision/window_capture.py:86-108 | raises without a handle; otherwise the geometry of the handle's rectangle, or an invalid-handle error with the geometry unchanged |
| Capture.WindowCapture.TrackWindowClosed | components/vision/window_capture.py:120-134 | true with the handle cleared iff the window is no longer found; otherwise false with the handle refreshed |
| Capture.WindowCapture.GetScreenshot | components/vision/window_capture.py:139-182 | raises without a handle, and when the client width or height is not positive; otherwise a new (h, w) buffer with the captured client pixels |
| Capture.WindowCapture.ScreenPosition | components/vision/window_capture.py:201-206 | a client position offset by the client area's screen origin |
| Capture.WindowCapture.WindowSize | components/vision/window_capture.py:210-213 | the client area's width and height, as the metrics computed them |
| Capture.WindowCapture.Start | components/vision/window_capture.py:221-233 | a running worker is left alone; a stopped one is marked running and one worker is started |
| Capture.WindowCapture.Stop | components/vision/window_capture.py:238-241 | sets the flag and nothing else |
| Capture.WindowCapture.CapturePass | components/vision/window_capture.py:252-262 | one pass of `_run` is one capture step of the specification, and raises exactly when that step ends the thread on an exception |
| Capture.WindowCapture.RunWorker | components/vision/window_capture.py:246-262 | the worker loop's flag, handle and slot, and whether it raised, are those of the passes it gets to make |
| Capture.Open | components/vision/window_capture.py:23-49 | window-not-found when the title is absent; otherwise a capture bound to the found window, with its metrics |
| Detector.RowHitsExact | components/vision/object_detector.py:84-87 | a row's hits are exactly its cells scoring at least the threshold, left to right |
| Detector.HitsExact | components/vision/object_detector.py:84-87 | every hit scores at least the threshold and every such cell is a hit, in strictly increasing row-major order |
| Detector.MatchTemplate | components/vision/object_detector.py:79-101 | one record per hit, in hit order, carrying the template size |
| Detector.MatchTemplateRecords | components/vision/object_detector.py:83-99 | one record per cell at or above the threshold, in row-major order, with the template's w and h, and the centre (x + w // 2, y + h // 2) |
| Detector.ObjectDetector.MatchErrorKeepsCoords | components/vision/object_detector.py:179-194 | a pass whose matching raises keeps the previous results, and the loop goes on unless a stop was requested |
| Detector.ObjectDetector.NoShotNoCoords | components/vision/object_detector.py:171-195 | until a screenshot arrives the results stay as they were (empty on a new detector) |
| Detector.ObjectDetector.CoordsFromMatching | components/vision/object_detector.py:171-195 | the results are always the initial ones or the records of a grid the matcher returned |
| Detector.ObjectDetector.DetectingSticks | components/vision/object_detector.py:171 | once the worker has stopped, later passes change nothing |
| Detector.ObjectDetector.constructor | components/vision/object_detector.py:31-50 | a new detector is stopped, with no screenshot, no results, the template's width and height, and no worker started |
| Detector.ObjectDetector.Update | components/vision/object_detector.py:113-120 | the slot gets a new copy of the frame, not the caller's buffer |
| Detector.ObjectDetector.GetCoordinates | components/vision/object_detector.py:124-131 | the latest results |
| Detector.ObjectDetector.Start | components/vision/object_detector.py:135-150 | running stays running with no new worker; stopped becomes running with one new worker |
| Detector.ObjectDetector.Stop | components/vision/object_detector.py:152-157 | sets the flag and nothing else |
| Detector.ObjectDetector.RunPass | components/vision/object_detector.py:171-195 | one pass of run is one detection step of the specification |
| Detector.ObjectDetector.Run | components/vision/object_detector.py:162-201 | the loop's slot and results are those of the passes it makes, and the flag is set on exit |
| Detector.Open | components/vision/object_detector.py:56-64 | FileNotFoundError iff the path holds no image; otherwise a new stopped detector with that template, its size and no results |
| Preprocess.RoiBoxInBounds | components/vision/vision_preprocessor.py:124-126 | a crop that is applied lies inside the image and is not empty |
| Preprocess.RoiBoxIsIntersection | components/vision/vision_preprocessor.py:120-127 | a pixel is in the crop iff it is both in the image and in the ROI rectangle |
| Preprocess.RoiBoxWhen | components/vision/vision_preprocessor.py:120-127 | the crop is applied iff the ROI is enabled, has a positive size and overlaps the image |
| Preprocess.KernelSizeOdd | components/vision/vision_preprocessor.py:144-146 | the kernel is odd and at least 1; it is g or g + 1 (the latter g even) when g >= 1; it is 1, so no blur, iff g <= 1 |
| Preprocess.VisionPreprocessor.constructor | components/vision/vision_preprocessor.py:15-37 | stopped, no input or output, ROI disabled at zero, blur setting 1, no worker started |
| Preprocess.VisionPreprocessor.ProcessedShape | components/vision/vision_preprocessor.py:123-127 | the crop depends only on the frame's own shape; an image with no rows is never cropped |
| Preprocess.VisionPreprocessor.BlurOnlyAboveOne | components/vision/vision_preprocessor.py:129-146 | an image with no pixels raises EmptyImage before any stage; an error of the colour mask is passed on; otherwise a setting of 1 or less skips the blur, and a larger one blurs with an odd kernel above 1 |
| Preprocess.VisionPreprocessor.EmptyFrameRaises | components/vision/vision_preprocessor.py:120-137 | a frame with no rows or no columns makes process_frame raise; a crop that applies always has pixels, and the filters then run on it |
| Preprocess.VisionPreprocessor.PreparingSticks | components/vision/vision_preprocessor.py:176-190 | once the worker has stopped or died of an exception, later passes change nothing |
| Preprocess.VisionPreprocessor.RaisingPassLeavesOutput | components/vision/vision_preprocessor.py:176-190 | a pass raises iff it has an input whose processing fails; the thread then ends with the flag still down, the output stale and the failing frame in the input slot |
| Preprocess.VisionPreprocessor.OutputFollowsInput | components/vision/vision_preprocessor.py:176-187 | from an empty start, the output stays empty until an input arrives; while no pass has raised, it is the processing of the latest input; once one has, the latest input is a frame whose processing fails and the flag is still down |
| Preprocess.VisionPreprocessor.SetRoi | components/vision/vision_preprocessor.py:93-97 | sets the five ROI fields and nothing else |
| Preprocess.VisionPreprocessor.SetInput | components/vision/vision_preprocessor.py:102-105 | the input slot gets a new copy of the frame, not the caller's buffer |
| Preprocess.VisionPreprocessor.GetOutput | components/vision/vision_preprocessor.py:109-112 | None iff nothing has been output yet; otherwise a new copy of the output |
| Preprocess.VisionPreprocessor.ProcessFrame | components/vision/vision_preprocessor.py:116-157 | a new buffer holding the filters applied to the clamped ROI crop, or to the whole image when no crop applies; the error instead when the image is empty or OpenCV refuses the mask or edge stage |
| Preprocess.VisionPreprocessor.Start | components/vision/vision_preprocessor.py:159-165 | no guard: every call marks running and starts one more worker |
| Preprocess.VisionPreprocessor.Stop | components/vision/vision_preprocessor.py:169-171 | sets the flag and nothing else |
| Preprocess.VisionPreprocessor.RunPass | components/vision/vision_preprocessor.py:179-186 | one pass of run is one step of the specification, raised or not; a Fail outcome is the processing error of the frame in the input slot |
| Preprocess.VisionPreprocessor.Run | components/vision/vision_preprocessor.py:176-190 | the loop's slots are those of the passes it makes, up to the stop or the first exception; a Fail outcome is the processing error of the frame in the input slot |

## Left out

- Threads, locks and daemon workers are not modelled. Each worker loop is a sequence of passes. The inputs of each pass (`Tick`, `Turn`) say what other threads did since the previous pass: a new frame, a rune flag set, a stop request. A stop is seen at the next test of the loop condition. The starts of workers are counted, not run.
- The clock is a parameter. `time.time()` is fixed for one pass of the bot loop, and `perf_counter` is not read at all. The macro player's busy wait until an event's time is one `WaitUntil(t)` stroke.
- `time.sleep` is an effect in the bot, movement and macro player logs. In the vision workers (`buffer_time`, `sleep_interval`, the 0.01 s pass pause) sleeps are not modelled, because nothing observes them there.
- `random_num(0.07, 0.12)` stays symbolic as a uniform delay, because its value is random.
- BOT_SPEED and BOT_OFFSET are constructor parameters, because their values come from an environment file.
- YAML reading and writing is out, because it is library file I/O. Documents arrive already parsed, and writing stores a document in a file map. The save→load round trip is stated on documents, not on YAML text.
- A non-mapping entry in a loaded `events` list, and a field that `float()` cannot convert, are folded into the missing-field error.
- Utils.StepOf: a hunting step whose `jumps` is present but null loads as 0, like a missing one. The source keeps None there, and the sweep's `range(jumps)` then raises TypeError (components/bot/auto_bot.py:299-312). Parsed fields are absent or present, never null.
- Win32, pydirectinput, the keyboard hook and OpenCV are out, because they are foreign calls:
  - window enumeration is a list of windows;
  - `keybd_event` and `pydirectinput` become log entries;
  - the GDI copy in `get_screenshot` is its resulting pixels;
  - preprocessing and `matchTemplate`, `inRange`, GaussianBlur, Canny and dilate/erode are opaque functions of the detector and the preprocessor.
- `ShowWindow`, `SetForegroundWindow` and the focus sleeps in the input and player constructors are out, because they only affect window focus.
- `_set_dpi_awareness`, `list_window_names` and `_draw_debug_rectangles` are out, because they are OS settings and debug output.
- `WindowCapture` with `window_name=None` is not modelled. FindWindow is matched on exact titles only.
- The grayscale/HSV branch of `process_frame` and the control panel are out, because they are floating-point image operations and UI. The colour stage is one opaque mask function.
- The ROI crop is a numpy view in the source; here it is a copy. Nothing in the source writes through the view.
- CustomException wrapping and logging are out. Each failure is an error value.
- Preprocess.VisionPreprocessor.ProcessFrame: GaussianBlur is modelled as never raising. It runs only on the non-empty output of the mask, with an odd positive kernel. The mask and the edge stages are modelled as functions that may raise; which inputs OpenCV refuses there is not modelled, except for an empty image.
- Case mapping is ASCII only, because Python's Unicode case rules are not modelled.
- `os.path.join` is modelled for a plain file name only.
- Utils.BotUtils.constructor: the source's `config = None` is modelled as an empty configuration. The source would raise AttributeError on a lookup before `load_bot_config`, and every caller loads first. The source also starts with `input = None`, and AutoBot assigns the input once `BackgroundInput` is built (components/bot/auto_bot.py:36-38); that later assignment is folded into the constructor.
- BotAction.UnknownCategoryRaises: category names that are other attributes of the BotConfig dataclass (`get`, `get_key`, `__dict__`, `__doc__`, ...) are not modelled; `getattr` returns those attributes instead of the empty default, so the source raises TypeError or returns other data there. Every call site passes one of the four field names.
- Python floats are modelled as exact `real`s, because IEEE rounding is not modelled. This covers the hold time (utils/bot/movement_controller.py:63-68), the cooldown sums and readiness comparisons (components/bot/auto_bot.py:186-210), and the recorder's relative times.
- Capture.WindowCapture.GetScreenshot: the GDI copy is its resulting pixels, taken to have the client size. A zero width or height is treated as raising, like a negative one; GDI then gives a 1x1 monochrome bitmap that cannot be reshaped to an empty image. Such a raise ends the worker thread and leaves the flag down.
- Recorder.Round4Monotone: `Round4` rounds ties up, where Python's `round` rounds half to even on the binary value. Only monotonicity is used.
- Player.MacroPlayer.Run: the contract states only the outcome of all rounds: stopped, nothing held, the record only grown, nothing left down. It does not state the strokes of each round (PlayOnce states those).
- Player.MacroPlayer.Stop: a `stop()` from another thread lands between two events, not while an event is being handled.
- Movement: the position reader is modelled as intended (a callable called at each read), with the source as written kept beside it; see Findings.

## Findings

| source | as written | input that shows it | evidently intended | confidence | as-written member | corrected member |
|---|---|---|---|---|---|---|
| utils/bot/movement_controller.py:54 | `cur_x, _ = self.get_position` unpacks the constructor argument without calling it (also at :86) | AutoBot passes a callable `get_position` (components/bot/auto_bot.py:27, :44); unpacking a function raises TypeError on the first read, so no move ever emits a key (Movement.AsWrittenSendsNoKey) | `self.get_position()`: call the reader at each iteration | high, not executed | Movement.UnpackAsWritten | Movement.FeedOf |
