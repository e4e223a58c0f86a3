# BopItWii round logic in Dafny

BopItWii is a Wiimote memory game. Each round the game shows a sequence of
trials, which are Wiimote buttons or a shake. The player then repeats the
sequence. A right answer moves on to the next trial. Finishing the sequence
adds one trial, makes the reveal faster and raises the level. A wrong answer
beeps, rumbles and sends the player back to the menu at level 1.

This project models the game logic of `wiimote_game.py`:

- `trial_model.dfy`, module `TrialModel`: the class `BopItWiiModel` as the
  class `Model`. It holds the trial list and the reveal speed. `AddTrial`
  keeps the source's rejection loop as a `while` loop, and `InitModel` keeps
  its `for` loop. Both are specified by pure functions: `FirstFresh` (which
  draw the rejection loop keeps), `Extend` (one `add_trial`) and `Seed`
  (`init_model`). `Decay` is `decrease_speed`.
- `game.dfy`, module `Game`: the state logic of `BopItWiiWidget` as the class
  `Widget`. Its fields are `level`, `elapsed` (-1 while input is not
  accepted), the `model`, and `sink`, a log of the presentation commands the
  widget issues (menu, level text, reveal, echoed input in green or red,
  hide, beep, rumble). `Valid()` is the invariant every operation keeps:
  `level == |model.trials|`, `-1 <= elapsed < |model.trials|`, the list is
  made of `TRIALS` and has no two equal neighbours, and
  `model.speed == RoundSpeed(level - 1)`. So the speed is fixed by the level:
  it is `max(2 - 0.25 (level - 1), 0.25)` (`RoundSpeedClosedForm`) and it
  never grows.

Inputs that a real run gets from outside are parameters here:

- `batch: seq<nat>` holds the results of `randint(0, len(TRIALS) - 1)` that
  one `add_trial` would draw. `Diverse(batch)` says the draws name at least
  two different symbols, so the rejection loop always settles.
- `pending: seq<string>` holds the inputs that arrive while a sequence is
  revealed. `StartTurn` hands them to `RegisterInput` while `elapsed == -1`,
  so they are dropped. This is the part of what `processEvents` at
  `wiimote_game.py:78` does that the model keeps: inputs delivered while
  `elapsed == -1` change nothing.
- Key presses come as a `Key`: `Space`, `Escape`, `R` or any other key.
  Acceleration samples come as three integers, and button events as an id
  and a pressed flag.

`RegisterInput` has four outcomes, stated once in the two-state predicate
`Widget.Registered`:

- While input is off, nothing changes.
- A wrong input resets to a new game (`NewGame`): level 1, `elapsed == -1`,
  speed 2 and one fresh trial.
- A right input that is not the last one only advances `elapsed`.
- The last right input of a round extends the list by `Extend`, so the old
  list is a prefix of the new one. It also raises the level by one, decays
  the speed by 0.25 (clamped) and ends with `elapsed == 0` after the new
  reveal.

The button and shake handlers are stated in terms of the same predicate.

Facts about this version of the game that the model keeps:

- This version of the game has no direction-pad normalisation. Its buttons
  are `A`, `One`, `Two` and `B`; any other id is ignored.
- Starting a turn does not regenerate the list; it reveals the model's list
  as it is.
- Shake detection has no edge latch. Each sample with an axis above 750 is
  one `"Shake"` input. The source only disconnects the signal while that
  input is handled.
- The rejection loop compares with `is` (`wiimote_game.py:235`). Both sides
  are elements of the same `TRIALS` list, so this is value equality, and the
  model uses value equality.

## Model

| member | source | states |
|---|---|---|
| `TrialModel.FirstFresh` | wiimote_game.py:232-236 | the kept draw is the first one in the batch whose symbol differs from the last trial; every draw before it names the last trial |
| `TrialModel.Extend` | wiimote_game.py:231-238 | add_trial appends exactly one symbol of TRIALS, keeps the old list as a prefix, never repeats the last trial, and keeps "from TRIALS and no equal neighbours" |
| `TrialModel.Seed` | wiimote_game.py:226-228 | init_model's list has exactly as many trials as add_trial calls, all from TRIALS, with no two equal neighbours |
| `TrialModel.SeedPrefix` | wiimote_game.py:226-228 | seeding with the first i draw batches gives the first i trials of the full seeding, so the list grows only by appending |
| `TrialModel.Decay` | wiimote_game.py:241-244 | decrease_speed gives speed - t unless that is below 0.25, in which case it gives 0.25; the result is never below 0.25 and, for t >= 0 and an old speed of at least 0.25, never above the old speed |
| `TrialModel.Model.constructor` | wiimote_game.py:219-223 | the model keeps the given speed and holds the seeded list of starting_level trials, with level equal to its length |
| `TrialModel.Model.InitModel` | wiimote_game.py:226-228 | the for loop calls add_trial starting_level times and leaves the seeded list, with level equal to its length and the speed unchanged |
| `TrialModel.Model.AddTrial` | wiimote_game.py:231-238 | the while loop leaves the list extended as Extend says, says which draw was kept and that every draw it rejected named the last trial, and sets level to the new length |
| `TrialModel.Model.DecreaseSpeed` | wiimote_game.py:241-244 | the new speed is the clamped decay of the old one; the trials are unchanged |
| `Game.RoundSpeed` | wiimote_game.py:123-126 | the speed after n cleared rounds lies between 0.25 and 2 |
| `Game.RoundSpeedClosedForm` | wiimote_game.py:123-126 | after n cleared rounds the speed is 2 - 0.25 n for n < 7 and 0.25 from then on |
| `Game.RoundSpeedNonIncreasing` | wiimote_game.py:241-244 | the speed of a later round is never greater than that of an earlier round |
| `Game.IsShake` | wiimote_game.py:154 | some axis of the sample is above 750 |
| `Game.Widget.constructor` | wiimote_game.py:21-40 | a new widget is in the new-game state with a fresh model, and the menu is shown |
| `Game.Widget.InitGame` | wiimote_game.py:62-68 | resets to level 1 with elapsed -1 and a fresh model of speed 2 holding one trial (the first draw); keeps the invariant |
| `Game.Widget.StartTurn` | wiimote_game.py:71-79 | shows the level and reveals the list at the current speed; inputs arriving meanwhile change nothing; afterwards elapsed is 0 and nothing else has changed |
| `Game.Widget.RegisterInput` | wiimote_game.py:96-107 | ignored while elapsed < 0; a mismatch resets the game; a match advances elapsed; the last match of a round appends a trial, raises the level by one, decays the speed by 0.25 and restarts the turn with elapsed 0; the invariant is kept |
| `Game.Widget.WrongButtonPressed` | wiimote_game.py:112-118 | beep, rumble for 0.1 s and echo the input in red, then the new-game state of InitGame |
| `Game.Widget.PrepareNextTurn` | wiimote_game.py:123-130 | the list is extended by one trial, the level goes up by one, the speed decays by 0.25 clamped, and the next turn starts with elapsed 0 |
| `Game.Widget.KeyPressEvent` | wiimote_game.py:144-150 | Space starts a turn only while elapsed < 0 and changes nothing otherwise; R resets to a new game; Escape changes nothing and asks to quit; other keys change nothing |
| `Game.Widget.WiiMoveEventReceived` | wiimote_game.py:153-159 | a sample with no axis above 750 changes nothing; otherwise it is the input "Shake" followed by hiding the text |
| `Game.Widget.WiiButtonEventReceived` | wiimote_game.py:162-168 | a button outside A, One, Two, B changes nothing; a release only hides the text; a press is registered as that input |

## Left out

- Randomness: `randint` is replaced by the draws passed in `batch`. That the rejection loop ends with probability 1 is not modelled. Instead a batch must name at least two different symbols (`Diverse`) or, for `AddTrial` itself, contain a draw that differs from the last trial.
- Qt rendering (`initUI`, the display loop of `showSequence`, `showPressedButton`, `hideDisplayText`, style sheets, repaint, show and hide) is reduced to the commands appended to `sink`. The reveal is one `Reveal(trials, speed)` command.
- `time.sleep` calls (reveal delay, 1 s after a failure, 0.2 s and 0.5 s between turns, 0.2 s after a shake) are not modelled, since the model has no clock.
- Threads and signals (`QThread`, `pyqtSignal`, `BopItWiiInputEventHandler`, the disconnect and reconnect in `wiiMoveEventReceived`) are not modelled. Events reach the widget one at a time as method calls.
- Events other than game inputs that `processEvents` could deliver during a reveal are not modelled: a Space or R key, or a button release. `pending` carries only inputs for `registerInput`.
- `StartTurn`: a shake sample queued during the reveal reaches `wiiMoveEventReceived`, which calls `hideDisplayText` after its ignored input. So the source logs one extra hide per such sample. `StartTurn` does not log it, since `pending` is handed straight to `RegisterInput`. The game state is the same either way.
- Speeds are exact reals, where the source uses Python floats. This agrees with the source because it only ever subtracts 0.25 from 2. `DecreaseSpeed` with a step such as 0.1 would not round the way a float subtraction does.
- `sys.exit(0)` on Escape: `KeyPressEvent` returns `quit == true` and the process exit itself is not modelled.
- `wiimote.speaker.beep()` and `wiimote.rumble(0.1)` are foreign calls. They appear only as the `Beep` and `Rumble(0.1)` commands.
- `init_wiimote`, `main` and the command-line handling are device and process plumbing, and `analyze.py` is a plotting tool; neither is part of this model.
