# Harmony arcade: the game rules in Dafny

This project models the rule engines of a small browser arcade of two-player
games and the tournament that chains them:

- **Snake battle** (`SnakeBattle`, `snake_battle.dfy`): two snakes share one
  square grid, each moving on its own clock. A move is fatal on a wall, on
  the snake's own body or on the other snake. Food either grows the snake or
  boosts its speed. The survivor wins.
- **Dual-lane runner** (`Runner`, `runner.dfy`): one dinosaur per lane jumps
  over ground obstacles and crouches under flying ones. In harmony mode both
  lanes get the same obstacle kind, in disharmony mode opposite kinds. A
  collision in either lane ends the run, and the score and speed rise with
  the ticks survived.
- **Boxing round** (`Boxing`, `boxing.dfy`): both players are shown a move
  and must press it once a cue has slid to them. A joint hit hurts the
  monster and speeds the game up. Wrong keys, early keys and timeouts hurt
  the players.
- **Tournament store** (`Leaderboard`, `leaderboard.dfy`): one session of
  two named players playing the three games in order, and a global
  leaderboard of at most ten finished sessions, ordered by combined total.

`wrappers.dfy` holds the `Option` type shared by all four.

Each piece of state the games update in place is a Dafny `class` whose
methods modify its fields:

- `SnakeBattle.Battle`: the battle.
- `Runner.Game` and its two `Runner.Dino` objects: the runner.
- `Boxing.Bout`: the boxing round.
- `Leaderboard.Store`: the browser's key-value store.

Each method's postcondition ties the new state to specification functions
of the old state. The lemmas beside them prove what the games promise about
those functions.

Inputs from the environment are parameters of the operations that read
them:

- the random draws
- the current time in milliseconds
- the pressed key

The callbacks the boxing game schedules with timers are a queue
(`Bout.pending`) of effects that have not happened yet. `Bout.Fire` lets the
caller choose which effect happens next.

## Model

| member | source | states |
|---|---|---|
| SnakeBattle.Collides | game1v1.js:254-256 | a body collides with a cell exactly when some segment of it is on that cell |
| SnakeBattle.Expire | game1v1.js:306-313 | a boost survives exactly while `now` is before its end time; nothing else of the snake changes |
| SnakeBattle.StepDeath | game1v1.js:319-328 | a due move is fatal exactly when the new head is off the grid, on any own cell (tail included) or on any cell of the other snake; a fatal move leaves body, score and growth counter as they were, and records the move time |
| SnakeBattle.StepWaits | game1v1.js:319-320 | a dead snake, or one whose interval (150 ms boosted, 250 ms otherwise) has not passed, does not change at all |
| SnakeBattle.StepShift | game1v1.js:320-358 | a successful move puts old head + direction first and shifts the old cells back one place; the tail is kept, and the counter drops by one, exactly when the counter after eating is positive; otherwise the tail is dropped |
| SnakeBattle.FedEffects | game1v1.js:337-348 | the three foods have disjoint effects: normal gives score +1 and sets the counter to 1, length gives score +2 and sets it to 2, speed leaves score and counter alone and starts a boost ending at now + 3000 |
| SnakeBattle.NormalFoodGrowsOne | game1v1.js:334-358 | the move that eats normal food leaves the snake one segment longer, with no growth pending |
| SnakeBattle.LengthFoodGrowsTwo | game1v1.js:334-358 | after the move that eats length food and the next successful move, the snake is two segments longer and has scored 2 |
| SnakeBattle.PlainMoveKeepsLength | game1v1.js:354-358 | a successful move without food or pending growth keeps the length |
| SnakeBattle.StepKeepsShape | game1v1.js:319-358 | a move keeps a snake well formed (at least three distinct, connected cells, a unit heading) and keeps it apart from the other snake |
| SnakeBattle.SteerNeverReverses | game1v1.js:532-541 | a direction key never sets the exact reverse of the current heading, and a unit heading stays a unit heading |
| SnakeBattle.TwoKeysCanReverse | game1v1.js:532-535 | two keys pressed between moves can still reverse the snake: heading right, `w` then `a` heads it left, onto its own neck |
| SnakeBattle.KindOf | game1v1.js:108-109 | the food type is normal for a draw below 0.5, length from 0.5 below 0.75, speed otherwise |
| SnakeBattle.Pick | game1v1.js:100-107 | the chosen cell is a drawn cell that passes the acceptance test; when there is none, no draw passes |
| SnakeBattle.RespawnAvoidsSnakes | game1v1.js:99-111 | a placed food is on no cell of either snake and follows the type rule |
| SnakeBattle.RespawnInGrid | game1v1.js:99-103 | with every drawn cell on the grid, as `Math.floor(Math.random()*gridSize)` gives, the food stays on the grid |
| SnakeBattle.ColumnZeroMayRepeat | game1v1.js:105 | a previous food in column 0 counts as no previous food, so the new food may land on its cell; elsewhere it may not |
| SnakeBattle.WinnerOf | game1v1.js:409-421 | both dead is a draw, otherwise the survivor wins |
| SnakeBattle.TournamentScore | game1v1.js:434-442 | the tournament score is the survivor's score, or the larger one on a draw |
| SnakeBattle.Battle.constructor | game1v1.js:55-66 | both snakes at their start cells and headings, nothing moving, the first food placed by the spawn rule and on the grid |
| SnakeBattle.Battle.SpawnFood | game1v1.js:99-111 | the draw loop places the food of the first acceptable draw, with the drawn type |
| SnakeBattle.Battle.MoveSnake | game1v1.js:319-362 | one snake's half of the tick is the move specification, and the food is replaced exactly when that snake ate |
| SnakeBattle.Battle.Loop | game1v1.js:297-421 | boosts expire, snake 1 moves against snake 2's old body, then snake 2 against snake 1's new body; the battle stays well formed with the food on the grid, and once a snake is dead the interval stops and the winner and tournament score are reported |
| SnakeBattle.Battle.ExpireBoosts | game1v1.js:306-313 | both snakes' boosts that are over are switched off |
| SnakeBattle.Battle.Report | game1v1.js:409-442 | with a dead snake the interval stops and the outcome is reported; otherwise nothing is reported |
| SnakeBattle.Battle.Key | game1v1.js:507-542 | space starts the battle, asks for a rematch once a snake is dead, or toggles the pause; other keys steer both snakes only while started and not paused |
| Runner.Fallen | dino-game.js:353-365 | a jumping dinosaur stays airborne exactly when y + vy + 0.6 is still above the landing line, and then it is at that y with speed vy + 0.6; otherwise it lands exactly on the line with speed 0; height and crouch are kept; a dinosaur not jumping is unchanged; reachable states stay reachable |
| Runner.Jumped | dino-game.js:110-117 | a jump starts, with speed −12, only when the dinosaur is neither jumping nor crouching; the crouch flag is never changed |
| Runner.Crouched | dino-game.js:118-124 | crouching works only when not jumping and gives height 30 with the top edge at ground − 30; the jump flag and speed are never changed |
| Runner.Released | dino-game.js:150-160 | releasing the crouch key always restores height 50 with the top edge at ground − 50, even in mid-jump |
| Runner.KeysKeepSettled | dino-game.js:110-160 | the jump, crouch and release rules keep a dinosaur in a reachable state |
| Runner.JumpClosedForm | dino-game.js:353-365 | after k ticks of a jump from standing, the speed is −12 + 0.6k and the height above the start is 12k − 0.3k(k+1); at tick 39 the dinosaur is standing again |
| Runner.JumpLasts39Ticks | dino-game.js:353-365 | a jump from standing is in the air for exactly 38 ticks and lands on the 39th |
| Runner.Make | dino-game.js:222-276 | a new obstacle enters at x = 800; a flying one is 50×50 at ground − 85, a ground one 40×50 at ground − 45 |
| Runner.KindOf | dino-game.js:214-215 | the obstacle kind is ground exactly for draws below 0.5 |
| Runner.LaneKinds | dino-game.js:212-284 | harmony gives both lanes the drawn kind; any other mode, including none yet, gives the bottom lane the opposite kind |
| Runner.HitboxesWithinBoxes | dino-game.js:367-393 | overlapping hitboxes imply overlapping drawn boxes |
| Runner.CrouchPassesFlying | dino-game.js:118-124 | a crouching dinosaur passes under any flying obstacle of its lane |
| Runner.StandingMeetsFlying | dino-game.js:367-393 | a standing dinosaur is hit by a flying obstacle level with it |
| Runner.GroundObstacleNeedsJump | dino-game.js:367-393 | a ground obstacle level with a dinosaur on the ground hits it, standing or crouching |
| Runner.CheckCollision | dino-game.js:367-393 | the loop answers true exactly when some obstacle's 6-pixel inset box strictly overlaps the dinosaur's on both axes |
| Runner.Arrivals | dino-game.js:451-454 | a spawn adds exactly one new obstacle to a lane, otherwise nothing |
| Runner.ScrollCull | dino-game.js:460-474 | a scrolled lane is no longer than before and holds no obstacle entirely left of the canvas |
| Runner.ScrollCullAppend | dino-game.js:460-474 | scrolling works obstacle by obstacle: a lane in two parts scrolls as its two parts |
| Runner.ScrollCullMembers | dino-game.js:460-474 | an obstacle is in the scrolled lane exactly when it is a moved old obstacle that is not entirely off the canvas |
| Runner.ScrollCullKeepsAll | dino-game.js:460-474 | when no obstacle leaves, the lane keeps its length and order and every obstacle moves by the speed |
| Runner.Scroll | dino-game.js:460-474 | the reverse loop with in-place removal yields exactly the scrolled lane |
| Runner.SpeedUp | dino-game.js:483-490 | the speed-up test on the incremented score holds exactly on the positive multiples of 4000 ticks |
| Runner.NewHighScore | dino-game.js:401-406 | the high score after a run is the larger of the old one and the displayed score |
| Runner.ModeOf | dino-game.js:199 | harmony exactly for draws below 0.5 |
| Runner.Dino.constructor | dino-game.js:61-84 | a dinosaur starts standing on its ground |
| Runner.Dino.Land | dino-game.js:179-189 | the reset of `startGame` puts the dinosaur standing on its ground |
| Runner.Dino.Fall | dino-game.js:353-365 | the fields after `updateDino` are the fallen pose |
| Runner.Dino.Jump | dino-game.js:110-117 | the fields after the jump key are the jumped pose |
| Runner.Dino.Crouch | dino-game.js:118-124 | the fields after the crouch key are the crouched pose |
| Runner.Dino.Release | dino-game.js:150-160 | the fields after releasing the crouch key are the released pose |
| Runner.Game.constructor | dino-game.js:49-90 | the loaded page: no run, dinosaurs standing, empty lanes, spawn rate 100, first mode change at 150, the saved high score |
| Runner.Game.SelectNewMode | dino-game.js:196-209 | the old mode is remembered, the new one follows the draw, and the next change is 150 to 249 ticks away |
| Runner.Game.StartGame | dino-game.js:163-194 | a fresh run in a new mode with both dinosaurs standing; the spawn rate and the high score carry over |
| Runner.Game.SpawnObstacle | dino-game.js:211-351 | each lane gets exactly one obstacle more, of the kinds the mode gives, and the count rises by one |
| Runner.Game.GameOver | dino-game.js:395-408 | the run stops and the high score keeps the better of old and displayed score |
| Runner.Game.AdvanceMode | dino-game.js:441-444 | the mode timer rises by one and a new mode is drawn exactly when it reaches the next change |
| Runner.Game.AdvanceSpawn | dino-game.js:451-457 | a spawn happens exactly when the timer reaches the rate; then the timer resets and the rate drops by one to at least 50, so it never rises |
| Runner.Game.Advance | dino-game.js:441-474 | the mode timer rises by one and the mode, previous mode and next change are redrawn exactly at the change; both dinosaurs fall; a spawn happens exactly when the timer reaches the rate, then the timer resets and the rate becomes max(50, rate − 1); both lanes are scrolled and culled |
| Runner.Game.MoveDinos | dino-game.js:447-448 | both dinosaurs fall on their own ground and stay in reachable states |
| Runner.Game.SpawnAndScroll | dino-game.js:451-474 | the lanes after the spawn step and the scroll are the scrolled old lanes with their arrivals |
| Runner.Game.Judge | dino-game.js:477-490 | a collision in either lane ends the run before the score counts the tick; otherwise the score rises by one and the speed by 0.3 exactly on the positive multiples of 4000 |
| Runner.Game.Update | dino-game.js:431-490 | nothing happens unless a run is going and not paused; otherwise one full tick as in Advance, with the mode, spawn timer and spawn rate stated as there, then the collision judgement, keeping the game invariant |
| Runner.Game.KeyDown | dino-game.js:94-144 | space starts a run (every field reset as by StartGame) or toggles the pause of a running one and changes nothing else; other keys jump or crouch the lane's dinosaur only in a running, unpaused run and leave every game field as it was |
| Runner.Game.PressKey | dino-game.js:109-143 | 'w'/'W' and ArrowUp jump, 's'/'S' and ArrowDown crouch, each on its own lane's dinosaur; the other dinosaur is unchanged |
| Runner.Game.KeyUp | dino-game.js:146-161 | releasing a crouch key stands that lane's dinosaur up, in any game state |
| Boxing.Upper | boxing-game.js:140 | upper-casing keeps the length and upper-cases each ASCII letter |
| Boxing.PressP1 | boxing-game.js:139-141 | player 1's key is considered exactly while not hit, with a move assigned, for the eight WASD keys; it is correct exactly when it is the move or the move in capitals |
| Boxing.PressP2 | boxing-game.js:214-215 | player 2's key is considered exactly while not hit, with a move assigned, for the four arrow keys; it is correct exactly when it equals the move |
| Boxing.P1CaseInsensitive | boxing-game.js:139-141 | among the WASD keys exactly the move and its capital are correct, and the other six are wrong |
| Boxing.OneKeyOnePlayer | boxing-game.js:139-214 | no key concerns both players |
| Boxing.Penalty | boxing-game.js:170-209 | a wrong key schedules exactly one −20 for its player; a correct key schedules it exactly when the cue has not arrived |
| Boxing.Ramp | boxing-game.js:358-359 | after a joint hit the interval is the larger of 60 and interval − 5, and the cue speed the smaller of 15 and speed + 0.5; within their bounds neither eases |
| Boxing.RampClosedForm | boxing-game.js:358-359 | after n joint hits the interval is max(60, 200 − 5n) and the speed min(15, 3 + 0.5n) |
| Boxing.RampBounded | boxing-game.js:298-299 | the difficulty stays in [60, 200] and [3, 15] and never eases |
| Boxing.DisplayHealth | boxing-game.js:462-464 | shown health is max(0, h) |
| Boxing.StepRight | boxing-game.js:486-496 | player 1's cue never passes its target, is marked arrived exactly when it reaches it, and then stays put |
| Boxing.StepLeft | boxing-game.js:498-508 | player 2's cue mirrors this, moving left |
| Boxing.CuesNeverVanish | boxing-game.js:493-507 | cues with the players' targets never leave the canvas, so they are never dropped |
| Boxing.RightClosedForm | boxing-game.js:486-496 | a fresh player 1 cue is at −50 + n·speed after n ticks until it reaches 190, then rests there, arrived |
| Boxing.LeftClosedForm | boxing-game.js:498-508 | a fresh player 2 cue is at 850 − n·speed after n ticks until it reaches 610, then rests there, arrived |
| Boxing.Bout.constructor | boxing-game.js:25-101 | the loaded page: full health, no moves, the starting difficulty, nothing scheduled |
| Boxing.Bout.SpawnNewMoves | boxing-game.js:320-348 | both players get the drawn moves, both cues start off-screen, and the hit and waiting flags are cleared |
| Boxing.Bout.CheckGameOver | boxing-game.js:430-459 | the game stops exactly when some player's health is at or below zero |
| Boxing.Bout.StartGame | boxing-game.js:289-318 | health 100/100/500, score 0, interval 200, cue speed 3, a first round, all flags cleared; effects scheduled earlier stay scheduled |
| Boxing.Bout.CheckBothPlayers | boxing-game.js:350-428 | only when both have hit: monster −40, score +10, waiting, the ramped difficulty, the monster check scheduled, and a player at or below zero ends the game |
| Boxing.Bout.PressOne | boxing-game.js:139-211 | player 1's press sets the hit flag exactly on a correct key, schedules the penalty, then resolves a joint hit |
| Boxing.Bout.PressTwo | boxing-game.js:214-286 | player 2's press, likewise |
| Boxing.Bout.KeyDown | boxing-game.js:105-287 | space starts a game when none is running, otherwise pauses or resumes and changes nothing else; any other key counts only in a running, unpaused round that is not waiting, and then for at most one player |
| Boxing.Bout.MoveCues | boxing-game.js:486-508 | both cues take one tick step |
| Boxing.Bout.Timeout | boxing-game.js:511-537 | once the timer reaches the interval outside a joint hit, each player without a hit loses exactly 10, and a game still running starts a new round |
| Boxing.Bout.Update | boxing-game.js:479-538 | nothing unless running and not paused; then the timer counts and the cues move; on a timeout each player without a hit loses 10 and a game still running starts a fresh round; the difficulty, score, monster and queue are kept; the invariant holds |
| Boxing.Bout.Fire | boxing-game.js:170-191 | a scheduled damage takes 20 from its player with no game-over check and leaves the round as it was; the monster check ends the game when the monster is at or below zero, and otherwise starts a fresh round if the game still runs; score, monster, difficulty and pause never change |
| Boxing.JointHitRound | boxing-game.js:117-428 | a round from a fresh game in which both cues arrive and both players press correctly: monster 460, score 10, nobody hurt, only the monster check scheduled |
| Boxing.AwaitCues | boxing-game.js:479-508 | 80 frames at the starting speed bring both cues to their targets and change nothing else |
| Leaderboard.Scores.Set | global-leaderboard.js:53-54 | setting a game's score changes that game and leaves the other two |
| Leaderboard.NameOr | global-leaderboard.js:24-33 | the name is the argument or the default; a present, non-empty argument is kept; with a non-empty default the name is never empty |
| Leaderboard.EntryOf | global-leaderboard.js:72-84 | the new entry copies both names, both totals and all six game scores from the session |
| Leaderboard.Insert | global-leaderboard.js:87 | inserting adds exactly the one entry |
| Leaderboard.SortByCombined | global-leaderboard.js:87 | the sort is a permutation of its input |
| Leaderboard.InsertSorted | global-leaderboard.js:87 | inserting into an ordered board keeps it ordered |
| Leaderboard.SortByCombinedCorrect | global-leaderboard.js:87 | the sorted board is non-increasing by combined total and holds exactly the entries it was given |
| Leaderboard.InsertWithTotal | global-leaderboard.js:87 | an inserted entry goes in front of every entry with its total, and the others with that total keep their order |
| Leaderboard.SortByCombinedStable | global-leaderboard.js:87 | the sort is stable: the entries of any one total keep their input order, which decides which entry `splice(10)` drops |
| Leaderboard.KeepTop | global-leaderboard.js:90-92 | the cut keeps the first min(n, 10) entries |
| Leaderboard.CompletedProperties | global-leaderboard.js:72-92 | the completed board is ordered, has min(old length + 1, 10) entries, and holds only old entries and the new one |
| Leaderboard.CompletedKeepsTop | global-leaderboard.js:86-92 | the kept and the cut entries are together exactly the old entries and the new one, and no cut entry has a larger combined total than a kept one |
| Leaderboard.CompletedKeepsEntryWhenRoom | global-leaderboard.js:72-92 | when the board had fewer than ten entries, the new entry is on it |
| Leaderboard.StageGame | global-leaderboard.js:116-117 | stages 0, 1, 2 are dino, snake, boxing, and there is no game past the last stage |
| Leaderboard.NatToString | global-leaderboard.js:139 | decimal rendering gives at least one digit, only digits, one digit exactly below 10, and no leading zero |
| Leaderboard.ParseNatToString | global-leaderboard.js:139 | reading the decimal rendering back gives the number |
| Leaderboard.PadTwo | global-leaderboard.js:139 | the padded string has length max(2, n), ends with the input, and has only zeros in front of it |
| Leaderboard.FormatTime | global-leaderboard.js:136-140 | the result is the minutes in decimal, a colon, and a two-character digit field |
| Leaderboard.FormatTimeRoundTrip | global-leaderboard.js:136-140 | reading the result back gives mins·60 + secs = seconds, with the seconds field equal to seconds mod 60 |
| Leaderboard.Store.constructor | global-leaderboard.js:15-18 | the store holds what the two keys held |
| Leaderboard.Store.StartNewSession | global-leaderboard.js:21-46 | a new session with the default names for falsy arguments, all scores and totals 0, stage 0, totals agreeing with the scores |
| Leaderboard.Store.UpdateSessionScore | global-leaderboard.js:49-60 | without a session nothing happens; otherwise the game gets both scores, the other games keep theirs, and each total is the sum of that player's scores |
| Leaderboard.Store.CompleteSession | global-leaderboard.js:63-98 | without a session nothing happens; otherwise the board is the completed board (ordered, one entry more up to ten) and the session is removed |
| Leaderboard.Store.ClearSession | global-leaderboard.js:107-109 | the session is removed and the board kept |
| Leaderboard.Store.GetNextGame | global-leaderboard.js:112-118 | no game without a session; otherwise the game of the current stage |
| Leaderboard.Store.AdvanceToNextGame | global-leaderboard.js:121-133 | the stage rises by exactly one; the answer is complete from stage 3 on, otherwise the new stage's game |
| Leaderboard.TournamentRoundTrip | global-leaderboard.js:21-98 | a whole tournament on an empty store leaves one entry, with the names, the six scores and a combined total equal to their sum |

## Specification functions

These functions define the rules the methods are proved against; they carry
no contract of their own, and the lemmas named here state their properties.

- `SnakeBattle.Step` (game1v1.js:319-358), one move attempt: `StepDeath`, `StepWaits`, `StepShift`, `StepKeepsShape`, `NormalFoodGrowsOne`, `LengthFoodGrowsTwo`, `PlainMoveKeepsLength`.
- `SnakeBattle.Fed` (game1v1.js:337-348), the food effects: `FedEffects`.
- `SnakeBattle.Settle` (game1v1.js:354-358), the tail rule: `StepShift`.
- `SnakeBattle.Steer` (game1v1.js:532-541), the direction keys: `SteerNeverReverses`, `TwoKeysCanReverse`.
- `SnakeBattle.Respawn` (game1v1.js:99-111), the placed food: `RespawnAvoidsSnakes`, `ColumnZeroMayRepeat`.
- `SnakeBattle.FoodAfter` (game1v1.js:334-351), the food after one snake's move: the contracts of `Battle.MoveSnake` and `Battle.Loop`.
- `Runner.Airborne` (dino-game.js:353-365), repeated ticks of a jump: `JumpClosedForm`, `JumpLasts39Ticks`.
- `Runner.Hits` (dino-game.js:367-393), the collision test: `CheckCollision`, `CrouchPassesFlying`, `StandingMeetsFlying`, `GroundObstacleNeedsJump`.
- `Boxing.RampN` (boxing-game.js:358-359), the difficulty after n joint hits: `RampClosedForm`, `RampBounded`.
- `Boxing.TickRight` and `Boxing.TickLeft` (boxing-game.js:486-508), one tick of a cue slot: `StepRight`, `StepLeft`, `CuesNeverVanish`, and the contracts of `Bout.MoveCues` and `Bout.Update`.
- `Leaderboard.Completed` (global-leaderboard.js:72-92), the completed board: `CompletedProperties`, `CompletedKeepsEntryWhenRoom`, `Store.CompleteSession`.
- `Leaderboard.ParseTime` (global-leaderboard.js:136-140), the reader of an `M:SS` string: `FormatTimeRoundTrip`.

## Left out

- Rendering is not modelled: canvas drawing, sprites, overlays, animation states, notifications, health colouring and the speed-boost countdown. None of it feeds the rules.
- Audio and image preloading are not modelled: they are side effects only.
- The visual positions (`lerp`) of the snake segments and the runner's parallax background are not modelled: they are floating-point display state that never feeds the rules.
- Timers are not modelled. The clock is the parameter `now`. `setInterval` and `requestAnimationFrame` are the caller calling `Loop` and `Update`. Each boxing `setTimeout` chain is one pending effect, reduced to its state change. The caller chooses the order of those effects, so races between pause and timers are allowed but not analysed.
- `Math.random` is not modelled: every draw is a parameter. The snake battle's food cells are required to lie on the grid, as `Math.floor(Math.random()*gridSize)` gives them. The integer draws, the runner's mode offset and the boxing move indices, are bounded as the code produces them. The real-valued draws (`r`, `modeRand`, `spawnRand`) are not bounded to [0, 1). Each is used only through a `< 0.5` or `< 0.75` threshold, which sorts every real the way it sorts [0, 1).
- SnakeBattle.Battle.SpawnFood: the source draws until it finds an acceptable cell. Here the draws are a finite list, and when no draw is acceptable the food stays where it was.
- The per-tick eat debounce (`justAte1`, `justAte2`) is not modelled: it is reset before each move and only read by the mover itself, so it is always false where it is tested.
- The sprite variants (note type, ground type, attack side) are not modelled: they are drawn but never read.
- IEEE-754 arithmetic is not modelled: `gameSpeed`, `GRAVITY`, positions and `arrowSpeed` are exact reals, and no rounding behaviour is claimed.
- The boost end is `now + 3000` with the tick's own `now`, where the source reads the clock again.
- localStorage, JSON, the URL query, navigation and `console.log` are environment I/O and are not modelled. `Leaderboard.Store` stands for the two stored keys. The session's `startTime` and the entry's `duration` and `date` are left out.
- The tournament hooks in the games (`updateSessionScore`, `advanceToNextGame` and `completeSession` calls after a match) are not modelled as calls. The snake battle's `MatchEnd` carries the score it would write.
- JavaScript's `null`, `undefined` and a missing food all become `None`. A name argument is an `Option<string>`, and it is falsy when absent or empty.
- Leaderboard.Store.UpdateSessionScore: `game` is one of the three games. The source would also accept another key and add it to the totals.
- Leaderboard.FormatTime: modelled for whole, nonnegative seconds only. Fractional and negative inputs are not.
- Boxing moves are the `Move` datatype rather than key strings. Player 1's key for a move is its lower-case letter, and player 2's is its arrow key.
- The boxing setup-menu guard and the dino game's `keys` map are not modelled: they are DOM state, and the map is never read.
- The rematch of the snake battle (`startCrazyVersus` again) is building a new `Battle`. `Key` only reports that one was asked for.
