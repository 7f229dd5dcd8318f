# gym-chrome-dino: episode policy and game wrapper, in Dafny

This project models the decision logic of gym-chrome-dino, a reinforcement-learning
environment around the browser's endless-runner dinosaur game. All real work
happens inside the browser page. The repository owns a thin layer on top:

- which key a `step` sends for an action;
- how `reward` and `done` follow from the crash flag and the score mode;
- which input modes and score modes are accepted;
- capturing, zeroing and restoring the acceleration parameter;
- reading the score from the distance meter's digit glyphs;
- the fallback values of the obstacle queries when there is no obstacle.

The page is an oracle object, `Game.Page`. It holds only the state the wrapper
touches: the crash flag, the meter's digit strings, the dinosaur's x and y, the
obstacle list, the current speed, the parameter map, an append-only key log and
a restart counter. It accepts three commands: send a key, assign a parameter,
restart. `Game.DinoGame` drives it the way `dino_game.py` does. `DinoEnv`
holds `ChromeDinoGAEnv` (feature-vector observations, configurable score mode)
and `ChromeDinoEnv`, of which the constructor and `step` are modelled (pixel
observations, fixed penalization).

Files:

- `outcomes.dfy` has module `Outcomes`: the exceptions the code raises, and `Result`/`Option`.
- `dino_game.dfy` has module `Game`: `Page`, `DinoGame`, score parsing and the obstacle queries.
- `chrome_dino_env.dfy` has module `DinoEnv`: mode parsing, key dispatch, the reward policy,
  feature observations and both environment classes.

Key presses and parameter assignments state the page's whole new state as a record
update of `old(page.State())`. So "changes nothing but the key log" (or the parameter
map) is part of each such contract. Restart is different: the page resets its own
game by script code outside the model, so after a restart the crash flag, meter,
dino, obstacles and speed may hold any value. Only the parameters and the key log
are promised to stay the same. Queries are functions, so they cannot change anything.

Behaviour the model keeps exactly as the code has it:

- An unknown input mode is rejected only after the `DinoGame` has been built. By then the
  page has had its SPACE press, and its acceleration is zeroed unless `accelerate` was set
  (`DinoEnv.NewChromeDinoGAEnv`).
- Both `step`s also send SPACE for action 3, even though the declared action spaces have
  2 and 3 actions. Every other value outside 1..3 sends nothing.
- In two-obstacle mode, slots 6 to 9 of the feature vector query obstacle 1 again, not
  obstacle 2 (`DinoEnv.SecondObstacleSlotsRepeatFirst`). Only their scaling differs,
  because slots 8 and 9 have different declared bounds.
- In normal score mode, `step` reads the score before the crash flag. An unreadable score
  raises `ValueError` after the key press and the observation have already happened.
- The defaults are captured before the acceleration is zeroed. `defaults` is a `const` of
  `DinoGame`, so `set_acceleration(True)` restores the original value however many
  toggles came before.

## Model

| member | source | states |
|---|---|---|
| `Game.Page.SendKey` | gym_chrome_dino/game/dino_game.py:63 | `send_keys` on the page body appends the key to the key log and changes nothing else |
| `Game.Page.Assign` | gym_chrome_dino/game/dino_game.py:123 | the script `Runner.<key> = <value>` changes that one parameter and nothing else |
| `Game.Page.ExecuteRestart` | gym_chrome_dino/game/dino_game.py:78 | the restart script grows the restart count by one and leaves the parameters and key log alone; the game fields are left to the page |
| `Game.ParametersOf` | gym_chrome_dino/game/dino_game.py:46-48 | the captured parameter map has exactly one key, 'config.ACCELERATION', holding the page's current value |
| `Game.DinoGame.constructor` | gym_chrome_dino/game/dino_game.py:39-44 | defaults map ACCELERATION to the page's original value, not 0; afterwards ACCELERATION is 0 unless accelerating and unchanged otherwise; exactly one SPACE is appended to the key log; nothing else on the page changes |
| `Game.DinoGame.PressSpace` | gym_chrome_dino/game/dino_game.py:62-63 | appends SPACE to the key log and changes nothing else |
| `Game.DinoGame.PressUp` | gym_chrome_dino/game/dino_game.py:65-66 | appends UP to the key log and changes nothing else |
| `Game.DinoGame.PressDown` | gym_chrome_dino/game/dino_game.py:68-69 | appends DOWN to the key log and changes nothing else |
| `Game.DinoGame.Restart` | gym_chrome_dino/game/dino_game.py:77-78 | issues one restart command and changes neither the parameters nor the key log; the game state is whatever the page resets it to |
| `Game.DinoGame.SetParameter` | gym_chrome_dino/game/dino_game.py:122-123 | changes parameter k to v and leaves every other parameter and the rest of the page alone |
| `Game.DinoGame.RestoreParameter` | gym_chrome_dino/game/dino_game.py:125-126 | succeeds iff the key is 'config.ACCELERATION' and then sets it to its captured default; any other key raises KeyError and changes nothing |
| `Game.DinoGame.IsCrashed` | gym_chrome_dino/game/dino_game.py:50-51 | reports the page's crash flag and changes nothing |
| `Game.DinoGame.DinoX` | gym_chrome_dino/game/dino_game.py:87-88 | reports the dino's x position and changes nothing |
| `Game.DinoGame.DinoY` | gym_chrome_dino/game/dino_game.py:90-91 | reports the dino's y position and changes nothing |
| `Game.DinoGame.Speed` | gym_chrome_dino/game/dino_game.py:115-116 | reports the page's current speed and changes nothing |
| `Game.Join` | gym_chrome_dino/game/dino_game.py:85 | `''.join` of one-character glyphs has one character per glyph, and starts with the first part |
| `Game.JoinAppend` | gym_chrome_dino/game/dino_game.py:85 | joining a concatenation of parts is concatenating the joins |
| `Game.ParseInt` | gym_chrome_dino/game/dino_game.py:85 | `int(s)` succeeds iff s is a non-empty string of decimal digits and yields its base-10 value; otherwise ValueError |
| `Game.DecimalValue` | gym_chrome_dino/game/dino_game.py:85 | the value of an n-digit numeral is below 10^n |
| `Game.DinoGame.Score` | gym_chrome_dino/game/dino_game.py:83-85 | the score is the concatenation of the digit strings read in base 10 when it is a non-empty digit string, else ValueError |
| `Game.DecimalRoundTrip` | gym_chrome_dino/game/dino_game.py:85 | reading the decimal numeral of n gives back n |
| `Game.LeadingZerosVanish` | gym_chrome_dino/game/dino_game.py:85 | any number of leading zeros leaves the value of a numeral unchanged |
| `Game.JoinGlyphs` | gym_chrome_dino/game/dino_game.py:85 | joining a numeral's one-character glyphs gives back the numeral |
| `Game.ScoreOfPaddedMeter` | gym_chrome_dino/game/dino_game.py:83-85 | a meter showing n zero-padded on the left, one glyph per digit, reads exactly n |
| `Game.DinoGame.ObstacleWidth` | gym_chrome_dino/game/dino_game.py:93-96 | 0 when there are no obstacles; obstacle n-1's width when 1 <= n <= count; a script error for any other n |
| `Game.DinoGame.ObstacleHeight` | gym_chrome_dino/game/dino_game.py:98-101 | 0 when there are no obstacles; obstacle n-1's height when 1 <= n <= count; a script error for any other n |
| `Game.DinoGame.ObstacleXDistance` | gym_chrome_dino/game/dino_game.py:103-107 | obstacle n-1's x (600 when there are none) minus the dino's x; a script error for an n outside a non-empty list |
| `Game.DinoGame.ObstacleYDistance` | gym_chrome_dino/game/dino_game.py:109-113 | obstacle n-1's y (150 when there are none) minus the dino's y; a script error for an n outside a non-empty list |
| `DinoEnv.ParseInputMode` | gym_chrome_dino/envs/chrome_dino_env.py:100-148 | accepts exactly 'one_obstacle' and 'two_obstacle', each to its own mode; every other string is rejected |
| `DinoEnv.InputModeRoundTrip` | gym_chrome_dino/envs/chrome_dino_env.py:100-148 | the accepted strings and the modes are in one-to-one correspondence |
| `DinoEnv.ParseScoreMode` | gym_chrome_dino/envs/chrome_dino_env.py:249-254 | accepts exactly 'normal' and 'penalization', each to its own mode; every other string is rejected |
| `DinoEnv.ScoreModeRoundTrip` | gym_chrome_dino/envs/chrome_dino_env.py:249-254 | the accepted strings and the score modes are in one-to-one correspondence |
| `DinoEnv.KeysFor` | gym_chrome_dino/envs/chrome_dino_env.py:211-216 | at most one key per step: UP iff action 1, DOWN iff 2, SPACE iff 3, nothing iff any other value |
| `DinoEnv.UnknownActionIsNoop` | gym_chrome_dino/envs/chrome_dino_env.py:211-216 | an action outside 1..3 sends the same keys as NOOP, which is none |
| `DinoEnv.SendAction` | gym_chrome_dino/envs/chrome_dino_env.py:211-216 | the three independent action tests append exactly KeysFor(action) to the key log and change nothing else |
| `DinoEnv.ActionMeanings` | gym_chrome_dino/envs/chrome_dino_env.py:246-247 | the meanings of the action set are ["NOOP", "UP", "DOWN"], in that order |
| `DinoEnv.MeaningsMatchDispatch` | gym_chrome_dino/envs/chrome_dino_env.py:257-262 | every label of the meaning table names the key its action sends, or NOOP when it sends none |
| `DinoEnv.PenalizationOutcome` | gym_chrome_dino/envs/chrome_dino_env.py:54-59 | done equals the crash flag and info is empty; the reward is 0.1 iff not crashed and -1 iff crashed |
| `DinoEnv.StepOutcome` | gym_chrome_dino/envs/chrome_dino_env.py:218-223 | done equals the crash flag and info is empty; penalization mode gives the penalization outcome; normal mode gives the score as reward whether crashed or not, and raises exactly when the score cannot be read |
| `DinoEnv.NormalCrashOnlyEndsEpisode` | gym_chrome_dino/envs/chrome_dino_env.py:218-222 | in normal mode a crash leaves the reward unchanged and only sets done |
| `DinoEnv.Low` | gym_chrome_dino/envs/chrome_dino_env.py:115-144 | the declared lower bounds have 7 slots in one-obstacle mode and 11 in two-obstacle mode |
| `DinoEnv.High` | gym_chrome_dino/envs/chrome_dino_env.py:115-144 | the declared upper bounds have as many slots as the lower bounds |
| `DinoEnv.Midpoints` | gym_chrome_dino/envs/chrome_dino_env.py:171-177 | each slot's scale is the mean of its two declared bounds, and none of them is zero |
| `DinoEnv.RawFeatures` | gym_chrome_dino/envs/chrome_dino_env.py:160-206 | the feature vector read from the game has the declared length for its mode |
| `DinoEnv.Normalize` | gym_chrome_dino/envs/chrome_dino_env.py:170-206 | each scaled slot times the midpoint of its bounds is the raw value |
| `DinoEnv.EmptyHorizonFeatures` | gym_chrome_dino/envs/chrome_dino_env.py:164-167 | with no obstacle, slots 2..5 are 600 - x, 150 - y, 0 and 0 |
| `DinoEnv.SecondObstacleSlotsRepeatFirst` | gym_chrome_dino/envs/chrome_dino_env.py:184-191 | in two-obstacle mode slots 6..9 equal slots 2..5, and the first six slots equal the one-obstacle ones |
| `DinoEnv.DinoAtMidpointNormalizesToOne` | gym_chrome_dino/envs/chrome_dino_env.py:171 | a dino x of 300 becomes 1.0 after scaling |
| `DinoEnv.ChromeDinoGAEnv.constructor` | gym_chrome_dino/envs/chrome_dino_env.py:150-156 | the score mode starts as penalization and the stored frame is the lower-bound vector of the input mode |
| `DinoEnv.ChromeDinoGAEnv.Observation` | gym_chrome_dino/envs/chrome_dino_env.py:158-208 | the observation always has the declared shape of the input mode |
| `DinoEnv.ChromeDinoGAEnv.Observe` | gym_chrome_dino/envs/chrome_dino_env.py:158-208 | stores and returns the scaled feature vector of the page as it is now, and changes nothing else |
| `DinoEnv.ChromeDinoGAEnv.Step` | gym_chrome_dino/envs/chrome_dino_env.py:210-224 | the key log grows by exactly KeysFor(action) and nothing else on the page changes; the frame is a fresh observation; the result is StepOutcome of the score mode, that frame, the crash flag after the press and the score |
| `DinoEnv.ChromeDinoGAEnv.Score` | gym_chrome_dino/envs/chrome_dino_env.py:237-238 | `get_score` gives exactly the game's score, or its ValueError |
| `DinoEnv.ChromeDinoGAEnv.Reset` | gym_chrome_dino/envs/chrome_dino_env.py:226-228 | issues one restart, changes neither the parameters nor the key log, and returns and stores the observation of the restarted page |
| `DinoEnv.ChromeDinoGAEnv.Render` | gym_chrome_dino/envs/chrome_dino_env.py:230-232 | succeeds iff the mode is 'rgb_array' and returns the stored frame without touching the game; any other mode is an assertion error |
| `DinoEnv.ChromeDinoGAEnv.SetAcceleration` | gym_chrome_dino/envs/chrome_dino_env.py:240-244 | ACCELERATION becomes the value captured at construction when enabling and 0 when disabling; nothing else changes |
| `DinoEnv.ChromeDinoGAEnv.SetScoreMode` | gym_chrome_dino/envs/chrome_dino_env.py:249-254 | succeeds iff the string is 'normal' or 'penalization' and then sets that mode; otherwise raises and leaves the score mode unchanged |
| `DinoEnv.NewChromeDinoGAEnv` | gym_chrome_dino/envs/chrome_dino_env.py:96-156 | the game is constructed whatever the input mode; construction fails iff the input mode is unknown; on success the environment uses that page, that mode, penalization and the lower-bound frame |
| `DinoEnv.Blank` | gym_chrome_dino/envs/chrome_dino_env.py:27-33 | the pixel environment's initial frame is 80 rows of 80 zeros |
| `DinoEnv.ChromeDinoEnv.constructor` | gym_chrome_dino/envs/chrome_dino_env.py:24-34 | once the game is built, the stored frame is the 80 by 80 zero low bound, so the frame invariant holds from the start |
| `DinoEnv.ChromeDinoEnv.Step` | gym_chrome_dino/envs/chrome_dino_env.py:46-60 | same key dispatch as the feature environment; the processed 80 by 80 frame is stored and the frame invariant kept; the result is the penalization outcome for the crash flag after the press |

## Left out

- Browser plumbing is not modelled: the chromedriver download, Chrome options, starting the driver, the `DINO_URL` variable, the swallowed `WebDriverException` when navigating, and the arcade-scale script patch. The model starts from an already loaded `Page`.
- The `render` and `autoscale` constructor flags are not modelled. The first only picks headless mode. The second is ignored by both environments, so the arcade-scale patch always runs.
- The canvas pipeline is not modelled: `get_canvas`, base64 decoding, PIL, `rgba2rgb`, and the OpenCV grayscale, crop and resize in `ChromeDinoEnv._observe` and `process_img`. These are foreign image libraries, so `DinoEnv.ChromeDinoEnv.Step` takes the processed frame as a parameter.
- `ChromeDinoEnv`'s `reset`, `render`, `get_score`, `set_acceleration`, `get_action_meanings` and `close` are not modelled separately. They are the same code as in `ChromeDinoGAEnv`.
- `DinoEnv.Normalize`: scaling uses exact real division. The float64 rounding of the division, and the float64 dtype of the array in place of the declared float32, are not modelled.
- `Game.Page`: the page's numbers are Dafny reals. The JavaScript double representation is not modelled.
- gym's `spaces.Box` and `spaces.Discrete` objects are not modelled. Only their bounds survive, as `DinoEnv.Low` and `DinoEnv.High`.
- The registration table in `gym_chrome_dino/__init__.py` is configuration, not logic.
- `close` is not modelled. It is driver teardown.
- The page queries and commands the envs never use are not modelled: `is_inverted`, `is_paused`, `is_playing`, `pause` and `resume`.
- `Game.DinoGame.Restart`: what `Runner.instance_.restart()` does inside the page is script code not shown here. The model leaves the crash flag, meter, dino, obstacles and speed unconstrained afterwards instead of stating the page's reset values.
- The page's own evolution is not modelled. The real game runs on its own clock between commands, and its keys move the dino. In the model the game fields change only on a restart, so a key press leaves the observation as it was.
- `DinoEnv.KeysFor`: actions are Dafny integers. Python's `action == 1` also holds for `1.0` and `True`; such values are not modelled. Likewise `render`'s default `mode='rgb_array'` is not modelled; `DinoEnv.ChromeDinoGAEnv.Render` always takes the mode explicitly.
- `Game.ParseInt`: Python's `int` also accepts surrounding whitespace, a sign, underscores between digits and non-ASCII digits. The model treats all of these as `ValueError`. The distance meter shows only ASCII digit glyphs.
- `Game.DinoGame.SetParameter`: the page assignment is a map update for any key. The script error for a path whose parent object does not exist is not modelled, and neither is the textual formatting of the value into the script.
- `Game.ParametersOf`: the page is assumed always to define `Runner.config.ACCELERATION` (`Game.Page.Valid`). An undefined value read back as `None` is not modelled.
- `DinoEnv.ChromeDinoGAEnv.Render`: the check is an `assert` statement, which Python skips when run with `-O`. The model always raises.
