/** The trial sequence and reveal speed of the BopItWii game (class
    BopItWiiModel in wiimote_game.py).

    The source draws trials with `randint`; here every call of AddTrial is
    given the draws the random source would produce, as a `batch` of indices
    into TRIALS, and the rejection loop walks through that batch.
 */
module TrialModel {

  /** The alphabet a trial is drawn from. */
  const TRIALS: seq<string> := ["A", "One", "Two", "B", "Shake"]

  /** The reveal speed never goes below this many seconds per trial. */
  const MIN_SPEED: real := 0.25

  /** Every draw is a result of randint(0, len(TRIALS) - 1). */
  predicate ValidDraws(batch: seq<nat>)
  {
    forall i :: 0 <= i < |batch| ==> batch[i] < |TRIALS|
  }

  /** The draws name at least two different symbols, so the rejection loop
      settles whatever the previous trial was. */
  predicate Diverse(batch: seq<nat>)
  {
    ValidDraws(batch) &&
    exists i, j :: 0 <= i < |batch| && 0 <= j < |batch| && TRIALS[batch[i]] != TRIALS[batch[j]]
  }

  function Last(s: seq<string>): string
    requires |s| > 0
  {
    s[|s| - 1]
  }

  /** The draws let add_trial finish on `trials`: there is a first draw, and
      when the list is not empty some draw differs from its last element. */
  predicate CanResample(trials: seq<string>, batch: seq<nat>)
  {
    ValidDraws(batch) && |batch| > 0 &&
    (|trials| > 0 ==> exists i :: 0 <= i < |batch| && TRIALS[batch[i]] != Last(trials))
  }

  /** No two adjacent trials are equal. */
  predicate NoRepeats(s: seq<string>)
  {
    forall i :: 0 < i < |s| ==> s[i - 1] != s[i]
  }

  predicate FromAlphabet(s: seq<string>)
  {
    forall i :: 0 <= i < |s| ==> s[i] in TRIALS
  }

  predicate WellFormed(s: seq<string>)
  {
    FromAlphabet(s) && NoRepeats(s)
  }

  /** Draws naming two different symbols can always be resampled. */
  lemma DiverseCanResample(trials: seq<string>, batch: seq<nat>)
    requires Diverse(batch)
    ensures CanResample(trials, batch)
  {
  }

  /** The index of the draw the rejection loop keeps: the first one whose
      symbol is not `last`; every draw before it is rejected. */
  function FirstFresh(batch: seq<nat>, last: string): (k: nat)
    requires ValidDraws(batch)
    requires exists i :: 0 <= i < |batch| && TRIALS[batch[i]] != last
    ensures k < |batch| && TRIALS[batch[k]] != last
    ensures forall j :: 0 <= j < k ==> TRIALS[batch[j]] == last
    decreases |batch|
  {
    if TRIALS[batch[0]] != last then 0
    else
      var w :| 0 <= w < |batch| && TRIALS[batch[w]] != last;
      assert batch[1..][w - 1] == batch[w];
      1 + FirstFresh(batch[1..], last)
  }

  /** The list add_trial leaves behind: the first draw when the list is
      empty, otherwise the first draw that differs from the last trial. */
  function Extend(trials: seq<string>, batch: seq<nat>): (r: seq<string>)
    requires CanResample(trials, batch)
    ensures |r| == |trials| + 1 && r[..|trials|] == trials
    ensures r[|trials|] in TRIALS
    ensures |trials| > 0 ==> r[|trials|] != Last(trials)
    ensures WellFormed(trials) ==> WellFormed(r)
  {
    var k := if |trials| == 0 then 0 else FirstFresh(batch, Last(trials));
    trials + [TRIALS[batch[k]]]
  }

  /** The list init_model builds from an empty one: one Extend per batch. */
  function Seed(batches: seq<seq<nat>>): (r: seq<string>)
    requires forall i :: 0 <= i < |batches| ==> Diverse(batches[i])
    ensures |r| == |batches| && WellFormed(r)
    decreases |batches|
  {
    if |batches| == 0 then []
    else
      var prev := Seed(batches[..|batches| - 1]);
      DiverseCanResample(prev, batches[|batches| - 1]);
      Extend(prev, batches[|batches| - 1])
  }

  /** Seeding is add_trial repeated: seeding with the first `i` batches gives
      the first `i` trials of seeding with all of them. */
  lemma {:induction false} SeedPrefix(batches: seq<seq<nat>>, i: nat)
    requires forall k :: 0 <= k < |batches| ==> Diverse(batches[k])
    requires i <= |batches|
    ensures Seed(batches[..i]) == Seed(batches)[..i]
    decreases |batches|
  {
    if i < |batches| {
      var init := batches[..|batches| - 1];
      assert init[..i] == batches[..i];
      SeedPrefix(init, i);
      assert Seed(batches)[..i] == Seed(init)[..i];
    } else {
      assert batches[..i] == batches;
    }
  }

  /** decrease_speed: subtract `t`, then clamp to MIN_SPEED. */
  function Decay(speed: real, t: real): (r: real)
    ensures r >= MIN_SPEED
    ensures r == speed - t || r == MIN_SPEED
    ensures speed - t >= MIN_SPEED ==> r == speed - t
    ensures t >= 0.0 && speed >= MIN_SPEED ==> r <= speed
  {
    if speed - t < MIN_SPEED then MIN_SPEED else speed - t
  }

  class Model {
    var speed: real
    var level: int
    var trials: seq<string>

    /** add_trial keeps `level` equal to the length of the list. */
    ghost predicate Valid()
      reads this
    {
      level == |trials| && WellFormed(trials)
    }

    constructor (speed: real, startingLevel: nat, batches: seq<seq<nat>>)
      requires startingLevel <= |batches|
      requires forall i :: 0 <= i < startingLevel ==> Diverse(batches[i])
      ensures Valid()
      ensures this.speed == speed && level == startingLevel
      ensures trials == Seed(batches[..startingLevel])
    {
      this.speed := speed;
      level := startingLevel;
      trials := [];
      new;
      InitModel(batches);
    }

    /** Calls add_trial `level` times on the empty list. */
    method InitModel(batches: seq<seq<nat>>)
      requires trials == [] && 0 <= level <= |batches|
      requires forall i :: 0 <= i < level ==> Diverse(batches[i])
      modifies this
      ensures Valid() && speed == old(speed) && level == old(level)
      ensures trials == Seed(batches[..old(level)])
    {
      var n := level;
      assert batches[..0] == [];
      for i := 0 to n
        invariant level == (if i == 0 then n else i)
        invariant trials == Seed(batches[..i])
        invariant speed == old(speed)
      {
        DiverseCanResample(trials, batches[i]);
        var _ := AddTrial(batches[i]);
        assert batches[..i + 1][..i] == batches[..i];
      }
    }

    /** Appends one trial, rejecting draws equal to the current last trial.
        `used` is how many draws were taken from `batch`. */
    method AddTrial(batch: seq<nat>) returns (used: nat)
      requires WellFormed(trials) && CanResample(trials, batch)
      modifies this
      ensures Valid() && speed == old(speed)
      ensures trials == Extend(old(trials), batch)
      ensures 0 < used <= |batch| && Last(trials) == TRIALS[batch[used - 1]]
      ensures old(trials) == [] ==> used == 1
      ensures old(trials) != [] ==>
        forall j :: 0 <= j < used - 1 ==> TRIALS[batch[j]] == Last(old(trials))
    {
      used := 1;
      var newTrial := TRIALS[batch[0]];
      if |trials| > 0 {
        while trials[|trials| - 1] == newTrial
          invariant 0 < used <= |batch| && newTrial == TRIALS[batch[used - 1]]
          invariant forall j :: 0 <= j < used - 1 ==> TRIALS[batch[j]] == Last(trials)
          invariant TRIALS[batch[used - 1]] == Last(trials) ==> used <= FirstFresh(batch, Last(trials))
          decreases |batch| - used
        {
          used := used + 1;
          newTrial := TRIALS[batch[used - 1]];
        }
      }
      trials := trials + [newTrial];
      level := |trials|;
    }

    /** decrease_speed */
    method DecreaseSpeed(timeInSeconds: real)
      modifies this
      ensures speed == Decay(old(speed), timeInSeconds)
      ensures level == old(level) && trials == old(trials)
    {
      speed := speed - timeInSeconds;
      if speed < MIN_SPEED {
        speed := MIN_SPEED;
      }
    }
  }
}
