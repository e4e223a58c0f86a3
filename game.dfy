/** The round logic of the BopItWii game (class BopItWiiWidget in
    wiimote_game.py): a level counter, the index `elapsed` of the next
    expected trial (-1 while input is not accepted) and a TrialModel.Model.

    What the widget shows, plays or rumbles is appended to `sink`, the log of
    presentation commands. Every operation that may build a fresh model or
    add a trial takes the random draws as a `batch`; an operation that may
    start a turn takes `pending`, the inputs that arrive while the sequence is
    revealed.
 */
module Game {
  import opened TrialModel

  /** The Wiimote buttons the game reacts to. */
  const BUTTONS: seq<string> := ["A", "One", "Two", "B"]

  /** An acceleration above this on any axis is a shake. */
  const SHAKE_THRESHOLD: int := 750

  /** The symbol a shake is compared with. */
  const SHAKE: string := "Shake"

  /** The seconds per trial a new game reveals at. */
  const INITIAL_SPEED: real := 2.0

  /** How much faster the reveal gets after each cleared round. */
  const SPEED_STEP: real := 0.25

  /** The colour of the echoed input: green when right, red when wrong. */
  datatype Color = Correct | Wrong

  /** What the widget asks the screen, speaker and rumble motor to do. */
  datatype Command =
    | ShowMenu                                   // hide text and level, show instructions
    | ShowLevel(level: int)                      // "Level n"
    | Reveal(trials: seq<string>, speed: real)   // each trial shown for `speed` seconds
    | ShowPressed(text: string, color: Color)
    | HideText
    | Beep
    | Rumble(seconds: real)

  /** The keyboard keys the widget distinguishes. */
  datatype Key = Space | Escape | R | OtherKey

  /** The part of the widget's state one round of play changes. */
  datatype Round = Round(level: int, elapsed: int, trials: seq<string>, speed: real)

  /** The speed after `n` cleared rounds of one game. */
  function RoundSpeed(n: nat): (r: real)
    ensures MIN_SPEED <= r <= INITIAL_SPEED
  {
    if n == 0 then INITIAL_SPEED else Decay(RoundSpeed(n - 1), SPEED_STEP)
  }

  /** Seven steps of 0.25 bring the speed from 2 down to its floor. */
  lemma {:induction false} RoundSpeedClosedForm(n: nat)
    ensures RoundSpeed(n) == if n < 7 then INITIAL_SPEED - SPEED_STEP * (n as real) else MIN_SPEED
  {
    if n > 0 {
      RoundSpeedClosedForm(n - 1);
    }
  }

  /** The reveal never gets slower as the level grows. */
  lemma {:induction false} RoundSpeedNonIncreasing(m: nat, n: nat)
    requires m <= n
    ensures RoundSpeed(n) <= RoundSpeed(m)
  {
    if m < n {
      RoundSpeedNonIncreasing(m, n - 1);
    }
  }

  /** The shake test of wiiMoveEventReceived: some axis of the sample is
      above the threshold. */
  predicate IsShake(x: int, y: int, z: int): (r: bool)
    ensures r <==> exists axis :: 0 <= axis < 3 && [x, y, z][axis] > SHAKE_THRESHOLD
  {
    var sample := [x, y, z];
    assert sample[0] == x && sample[1] == y && sample[2] == z;
    x > SHAKE_THRESHOLD || y > SHAKE_THRESHOLD || z > SHAKE_THRESHOLD
  }

  class Widget {
    var level: int
    var elapsed: int
    var model: Model
    var sink: seq<Command>

    ghost function State(): Round
      reads this, model
    {
      Round(level, elapsed, model.trials, model.speed)
    }

    /** Everything but the bound on `elapsed`, which a cleared round
        exceeds until the next turn starts. */
    ghost predicate Consistent()
      reads this, model
    {
      model.Valid() && 1 <= level == |model.trials| && model.speed == RoundSpeed(level - 1)
    }

    ghost predicate Valid()
      reads this, model
    {
      Consistent() && -1 <= elapsed < |model.trials|
    }

    /** The state initGame leaves: the menu of a new game at level 1 whose
        one trial is the first draw of `batch`. */
    ghost predicate NewGame(batch: seq<nat>)
      reads this, model
    {
      |batch| > 0 && batch[0] < |TRIALS| &&
      level == 1 && elapsed == -1 &&
      model.trials == [TRIALS[batch[0]]] && model.speed == INITIAL_SPEED
    }

    /** What registerInput(input) does to the state and to the command log,
        followed in the log by `after`: nothing while input is off; a reset
        on a wrong input; one step on a right one; and on the last right
        input of a round a longer, faster round whose reveal has started. */
    twostate predicate Registered(input: string, batch: seq<nat>, after: seq<Command>)
      reads this, model
    {
      var e, t := old(elapsed), old(model.trials);
      && (e < 0 ==>
            model == old(model) && State() == old(State()) && sink == old(sink) + after)
      && (0 <= e < |t| && input != t[e] ==>
            fresh(model) && NewGame(batch) &&
            sink == old(sink) + [Beep, Rumble(0.1), ShowPressed(input, Wrong), ShowMenu] + after)
      && (0 <= e && e + 1 < |t| && input == t[e] ==>
            model == old(model) && State() == old(State()).(elapsed := e + 1) &&
            sink == old(sink) + [ShowPressed(input, Correct)] + after)
      && (0 <= e && e + 1 == |t| && input == t[e] ==>
            model == old(model) &&
            CanResample(t, batch) && model.trials == Extend(t, batch) &&
            level == old(level) + 1 &&
            model.speed == Decay(old(model.speed), SPEED_STEP) &&
            elapsed == 0 &&
            sink == old(sink) + [ShowPressed(input, Correct), HideText,
                                 ShowLevel(level), Reveal(model.trials, model.speed)] + after)
    }

    constructor (batch: seq<nat>)
      requires Diverse(batch)
      ensures Valid() && fresh(model)
      ensures NewGame(batch)
      ensures sink == [ShowMenu]
    {
      level := 0;
      elapsed := -1;
      model := new Model(INITIAL_SPEED, 0, []);
      sink := [];
      new;
      InitGame(batch);
    }

    /** initGame: back to the menu at level 1 with a fresh one-trial model. */
    method InitGame(batch: seq<nat>)
      requires Diverse(batch)
      modifies this
      ensures Valid() && fresh(model)
      ensures NewGame(batch)
      ensures sink == old(sink) + [ShowMenu]
    {
      sink := sink + [ShowMenu];
      level := 1;
      elapsed := -1;
      model := new Model(INITIAL_SPEED, level, [batch]);
      assert [batch][..1] == [batch];
    }

    /** startTurn: reveal the sequence with input switched off, so that the
        inputs that arrive meanwhile are dropped, then accept input. */
    method StartTurn(batch: seq<nat>, pending: seq<string>)
      requires Consistent() && Diverse(batch)
      modifies this, model
      decreases 1
      ensures Valid() && model == old(model)
      ensures State() == old(State()).(elapsed := 0)
      ensures sink == old(sink) + [ShowLevel(level), Reveal(model.trials, model.speed)]
    {
      elapsed := -1;
      sink := sink + [ShowLevel(level), Reveal(model.trials, model.speed)];
      for i := 0 to |pending|
        invariant Valid() && elapsed == -1 && model == old(model)
        invariant State() == old(State()).(elapsed := -1)
        invariant sink == old(sink) + [ShowLevel(level), Reveal(model.trials, model.speed)]
      {
        RegisterInput(pending[i], batch, []);
      }
      elapsed := 0;
    }

    /** registerInput: compare the input with the next expected trial. */
    method RegisterInput(input: string, batch: seq<nat>, pending: seq<string>)
      requires Valid() && Diverse(batch)
      modifies this, model
      decreases if elapsed < 0 then 0 else 3
      ensures Valid() && Registered(input, batch, [])
    {
      if elapsed < 0 {
        return;
      }
      if model.trials[elapsed] != input {
        WrongButtonPressed(input, batch);
        return;
      }
      sink := sink + [ShowPressed(input, Correct)];
      elapsed := elapsed + 1;
      if elapsed >= |model.trials| {
        PrepareNextTurn(batch, pending);
        return;
      }
    }

    /** wrongButtonPressed: fail feedback, then back to the menu. */
    method WrongButtonPressed(button: string, batch: seq<nat>)
      requires Diverse(batch)
      modifies this
      ensures Valid() && fresh(model)
      ensures NewGame(batch)
      ensures sink == old(sink) + [Beep, Rumble(0.1), ShowPressed(button, Wrong), ShowMenu]
    {
      sink := sink + [Beep, Rumble(0.1), ShowPressed(button, Wrong)];
      InitGame(batch);
    }

    /** prepareNextTurn: one more trial, a faster reveal, the next level. */
    method PrepareNextTurn(batch: seq<nat>, pending: seq<string>)
      requires Consistent() && Diverse(batch)
      modifies this, model
      decreases 2
      ensures Valid() && model == old(model)
      ensures model.trials == Extend(old(model.trials), batch)
      ensures level == old(level) + 1
      ensures model.speed == Decay(old(model.speed), SPEED_STEP)
      ensures elapsed == 0
      ensures sink == old(sink) + [HideText, ShowLevel(level), Reveal(model.trials, model.speed)]
    {
      DiverseCanResample(model.trials, batch);
      var _ := model.AddTrial(batch);
      model.DecreaseSpeed(SPEED_STEP);
      level := level + 1;
      sink := sink + [HideText];
      StartTurn(batch, pending);
    }

    /** keyPressEvent: Space starts a turn only while input is off, R resets.
        `quit` is set for Escape, on which the program exits. */
    method KeyPressEvent(key: Key, batch: seq<nat>, pending: seq<string>) returns (quit: bool)
      requires Valid() && Diverse(batch)
      modifies this, model
      ensures Valid()
      ensures quit <==> key == Escape
      ensures key == Space && old(elapsed) < 0 ==>
        model == old(model) && State() == old(State()).(elapsed := 0) &&
        sink == old(sink) + [ShowLevel(level), Reveal(model.trials, model.speed)]
      ensures (key == Space && old(elapsed) >= 0) || key == Escape || key == OtherKey ==>
        model == old(model) && State() == old(State()) && sink == old(sink)
      ensures key == R ==> fresh(model) && NewGame(batch) && sink == old(sink) + [ShowMenu]
    {
      quit := false;
      if key == Space && elapsed < 0 {
        StartTurn(batch, pending);
      }
      if key == Escape {
        quit := true;
      }
      if key == R {
        InitGame(batch);
      }
    }

    /** wiiMoveEventReceived: a shake counts as the input "Shake". */
    method WiiMoveEventReceived(x: int, y: int, z: int, batch: seq<nat>, pending: seq<string>)
      requires Valid() && Diverse(batch)
      modifies this, model
      ensures Valid()
      ensures !IsShake(x, y, z) ==>
        model == old(model) && State() == old(State()) && sink == old(sink)
      ensures IsShake(x, y, z) ==> Registered(SHAKE, batch, [HideText])
    {
      if IsShake(x, y, z) {
        RegisterInput(SHAKE, batch, pending);
        sink := sink + [HideText];
      }
    }

    /** wiiButtonEventReceived: unknown buttons are ignored, a press is an
        input, a release only hides the text. */
    method WiiButtonEventReceived(button: string, pressed: bool, batch: seq<nat>, pending: seq<string>)
      requires Valid() && Diverse(batch)
      modifies this, model
      ensures Valid()
      ensures button !in BUTTONS ==>
        model == old(model) && State() == old(State()) && sink == old(sink)
      ensures button in BUTTONS && !pressed ==>
        model == old(model) && State() == old(State()) && sink == old(sink) + [HideText]
      ensures button in BUTTONS && pressed ==> Registered(button, batch, [])
    {
      if button !in BUTTONS {
        return;
      }
      if pressed {
        RegisterInput(button, batch, pending);
      } else {
        sink := sink + [HideText];
      }
    }
  }
}
