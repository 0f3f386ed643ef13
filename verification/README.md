# Flappy game state in Dafny

A model of the game-state logic of a one-screen Flappy-Bird-style canvas game
(`script.js`). The game keeps its state in global variables: two phase flags
(`isPreGame`, `isGameOver`), the bird's `y` and `velocity`, the list of pipe
pairs, a frame counter, two scroll offsets for the floor and the background,
and the touch state used to choose a bird. Here those globals are the fields
of one class, `Flappy.Game`. Every function of the script that changes them
is a method of that class:

- `gameLoop` is `Tick`, and the block it runs while the game is not over is `Play`;
- `bird.update` is `UpdateBird` and `bird.flap` is `Flap`;
- `addPipe` is `AddPipe` and `updatePipes` is `UpdatePipes`;
- `resetGame` is `Reset`;
- the `touchstart`, `touchmove`, `touchend` and `keydown` handlers are
  `TouchStart`, `TouchMove`, `TouchEnd` and `KeyDown`.

The methods that compute are proved against pure specifications, and the
properties are proved about those specifications. `Flap`, `Reset` and the
event handlers state their new fields directly.

- `Bird.Update` specifies one bird update. It covers gravity integration, the
  floor clamp that ends the game, the ceiling clamp, and the pre-game hover.
- `Pipes.SpawnedPipe` specifies a new pipe. Its top, gap and bottom fill the
  canvas height, and its margins are bounded.
- `Pipes.Scroll` specifies the pipe list after one scroll step. Every pipe
  moves 3 px left, and pipes that left the screen are dropped. The order of the
  others is kept.
- `Selection.Swipe` specifies one swipe: the selected bird changes by at most
  one, clamped at both ends.
- `Flappy.ScrollOffset` specifies a scroll offset that wraps back to 0.

The class invariant `Valid()` holds after every event and every tick. It says:

- the game is never in pre-game and game-over at once;
- the bird is never above the ceiling, and after game over it lies on the floor;
- the selected bird is a valid index;
- both scroll offsets lie within one canvas width to the left of 0;
- every pipe keeps its gap invariant and stays in the screen's horizontal
  range, and the pipes are ordered left to right as they were spawned.

Inputs the game takes from its environment are parameters:

- `wobble` is the pre-game hover offset `Math.sin(frame / 10) * 10`;
- `r` is the `Math.random()` draw, in [0, 1);
- `now` is the `touchend` timestamp in milliseconds;
- `clientX` is a touch position.

The canvas size and the floor image height are fixed when the game is
constructed. Positions and speeds are exact `real`s.

Where the code and a plain reading of the game's design differ, the model
follows the code:

- Only floor contact ends the game. There is no collision between the bird and
  the pipes.
- The `unlockedBirds` flags are never consulted, so every bird, the locked one
  included, can be selected and played (`Selection.EveryBirdSelectable`).
- A single `touchend` after game over resets the game, although the screen
  says "Double-tap to restart".
- `touchstart` flaps whenever the game is not in pre-game, also after game
  over. After game over this changes only the velocity, which the next reset
  clears.
- On the tick the bird lands, pipes are still spawned and scrolled and the
  floor still moves. `gameLoop` checks `isPreGame` there, not `isGameOver`
  (`Flappy.Game.Play`).
- Pipes spawn on running ticks whose frame counter, before it is incremented,
  is a multiple of 90. A run of `n > 0` running ticks that starts on such a
  frame therefore has `(n - 1) / 90 + 1` spawn frames (`Pipes.SpawnCadence`),
  and each of them adds exactly one pipe (`Pipes.SpawnSurvivesScroll`).
- `lastTapTime` is only updated by taps in pre-game. The first tap after the
  script loads is compared with 0.
- On a canvas shorter than 230 px the spawn range turns around. Below 210 px
  the top pipe can get a negative height, and below 170 px the bottom pipe can
  too. `Pipes.SpawnedPipe` states the range in both cases.

## Model

| member | source | states |
|---|---|---|
| `Bird.Update` | script.js:60-81 | The bird never ends above the ceiling (`y >= 0`). It touches the floor exactly when running and `y + velocity + gravity + height >= floorTop`, and then rests on the floor with velocity 0. While running it never ends below the floor when the floor leaves room for it. With no clamp it takes a semi-implicit Euler step. In pre-game only the hover position applies and the game never ends. |
| `Pipes.SpawnedPipe` | script.js:94-103 | A new pipe starts at `x = canvas.width` with `top + bottom + 150 == canvas.height`. On a canvas taller than 230 px, `20 <= top < height - 210` and `bottom > 60`. On shorter canvases the range is reversed. |
| `Pipes.Scroll` | script.js:115-123 | Scrolling never lengthens the list, and every pipe left afterwards is on screen (`x + 70 >= 0`). |
| `Pipes.BackToFrontStep` | script.js:116-122 | One iteration of the back-to-front loop leaves the indices before `i` untouched and everything from `i` on scrolled. So the splice never skips a pipe. |
| `Pipes.ScrollMembers` | script.js:117-120 | A pipe survives a scroll exactly when it is some old pipe moved 3 px left that is still on screen (both directions). |
| `Pipes.ScrollAppend` | script.js:115-123 | Scrolling acts on each part of the list separately, so the surviving pipes keep their relative order. |
| `Pipes.ScrollAllOnScreen` | script.js:117-119 | When no pipe leaves the screen, none is dropped and each moves left by exactly 3 px. |
| `Pipes.ScrollSorted` | script.js:115-123 | Scrolling keeps the pipes ordered left to right. |
| `Pipes.ScrollWellFormed` | script.js:115-123 | Scrolling keeps every pipe's gap invariant, margins and horizontal range. |
| `Pipes.SpawnCadence` | script.js:164 | The number of spawn frames in any window of frames is the number of multiples of the spawn interval (90) in it. A run of `n > 0` frames that starts on a spawn frame holds `(n - 1) / 90 + 1` spawn frames. |
| `Pipes.SpawnSurvivesScroll` | script.js:164-168 | A pipe spawned on a running tick is not dropped by that tick's scroll: it ends up moved left once at the end of the list, after the scrolled older pipes. So every spawn frame adds exactly one pipe. |
| `Selection.Swipe` | script.js:212-229 | The selection stays in `[0, 2]` and moves by at most one, with no wrap-around. It moves left exactly when the touch is more than 50 px left of the reference point and a bird is to the left; right is symmetric. The reference point moves to the touch only when the threshold is crossed. |
| `Selection.SwipeAllInRange` | script.js:212-229 | After any sequence of swipes the selection is still in range and has moved by at most one per event. |
| `Selection.SwipeRightward` | script.js:212-229 | A drag to the right moves the selection one bird per touch until the last bird, without looking at the lock flags. |
| `Selection.EveryBirdSelectable` | script.js:34 | Every bird index in `[0, 3)`, the locked third bird included, is reached from the first bird by swiping right. |
| `Flappy.ScrollOffset` | script.js:153-157 | A scroll offset in `(-canvas.width, 0]` stays there. It moves left by the speed, and wraps to 0 only when it would reach `-canvas.width`. |
| `Flappy.Game.constructor` | script.js:35-46 | The initial state: pre-game, bird centred vertically with velocity 0, no pipes, frame 0, offsets 0, first bird selected. The class invariant holds. |
| `Flappy.Game.UpdateBird` | script.js:60-81 | The new `y`, `velocity` and `isGameOver` are exactly `Bird.Update` of the old bird, and the class invariant is kept. |
| `Flappy.Game.Flap` | script.js:82-84 | The velocity becomes exactly `lift` (-8), whatever it was, and nothing else changes. |
| `Flappy.Game.AddPipe` | script.js:94-103 | Exactly one pipe, `SpawnedPipe(r, ...)`, is appended at the end. The existing pipes are unchanged, and the pipes stay ordered left to right. |
| `Flappy.Game.UpdatePipes` | script.js:115-123 | The in-place back-to-front loop leaves exactly `Scroll` of the old list: no longer than before, every survivor on screen, and the invariant kept. |
| `Flappy.Game.Reset` | script.js:125-133 | Back to pre-game with no pipes, the bird centred with velocity 0, and both offsets 0. The frame counter and the selected bird are unchanged. |
| `Flappy.Game.Play` | script.js:159-180 | The bird moves by `Bird.Update` and the floor scrolls. Pipes spawn on frames that are multiples of 90 and then scroll, whenever the game is not in pre-game, even on the tick the bird lands. |
| `Flappy.Game.Tick` | script.js:146-199 | The frame grows by exactly 1 on every tick, and the background always scrolls. After game over nothing else moves. Otherwise the bird and floor move as in `Play`, and pipes spawn and scroll only if the tick started running. The phase changes only from running to game over. |
| `Flappy.Game.TouchStart` | script.js:203-209 | In pre-game it sets the swipe reference point. Otherwise it flaps, also after game over. |
| `Flappy.Game.TouchMove` | script.js:212-229 | In pre-game the selection and reference point become `Swipe` of the old ones. In other phases nothing changes. |
| `Flappy.Game.TouchEnd` | script.js:233-245 | In pre-game it always records the tap time, and it starts the game exactly when the previous tap was less than 300 ms earlier. After game over it resets. While running it flaps. Every phase change is an allowed one. |
| `Flappy.Game.KeyDown` | script.js:248-256 | Any key starts the game from pre-game, resets after game over, and flaps while running. Every phase change is an allowed one. |

## Left out

- Drawing: `bird.show`, `drawPipes`, `displayGameOver` and every `ctx.*` call in `gameLoop`. They only draw and change no state.
- Image loading, the `onload` counter that starts the loop, and the extra `requestAnimationFrame` at the end of the script. This is asset I/O and host scheduling, which can start more than one loop. The model runs one loop, one `Tick` per call.
- `requestAnimationFrame` itself. A tick is one call of `Tick`, and events are calls between ticks.
- The window `resize` handler. The canvas width and height and the floor image height are constants of a `Game`.
- `Math.sin`, `Math.random` and `new Date().getTime()`. Their values are the parameters `wobble`, `r` and `now`.
- IEEE-754 rounding of 0.6, 0.5 and the other constants. All arithmetic is exact over `real`, and the frame counter is an unbounded `nat`.
- Flappy.Game.UpdateBird: requires that the game is not over, as its only caller `gameLoop` ensures. Calling it after game over would let the bird leave the floor, which the class invariant excludes.
