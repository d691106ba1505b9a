/** The loading screen's progress sequencer: while loading, an interval
    raises `progress` by a random step clamped at 100; at 100 a one-shot
    timer clears `isLoading`, and only then is the calculator shown. */
module LoadingSequencer {

  /** A value `Math.random()` can return. */
  predicate IsUnit(random: real) {
    0.0 <= random < 1.0
  }

  /** Every draw in the sequence is a value `Math.random()` can return. */
  predicate AllUnit(randoms: seq<real>) {
    forall i :: 0 <= i < |randoms| ==> IsUnit(randoms[i])
  }

  /** `Math.floor(Math.random() * 15) + 5`: a step between 5 and 19. */
  function Increment(random: real): (inc: int)
    requires IsUnit(random)
    ensures 5 <= inc <= 19
  {
    (random * 15.0).Floor + 5
  }

  /** Every step from 5 to 19 is drawn by some value of `Math.random()`. */
  lemma EveryIncrementDrawable(inc: int)
    requires 5 <= inc <= 19
    ensures IsUnit((inc - 5) as real / 15.0) && Increment((inc - 5) as real / 15.0) == inc
  {
    var r := (inc - 5) as real / 15.0;
    assert r * 15.0 == (inc - 5) as real;
  }

  /** The state updater passed to `setProgress`: add the step and clamp at 100. */
  function NextProgress(prevProgress: int, random: real): (newProgress: int)
    requires IsUnit(random)
    ensures newProgress <= 100
    ensures newProgress == 100 || newProgress == prevProgress + Increment(random)
    ensures newProgress <= prevProgress + Increment(random)
    ensures prevProgress <= 100 ==> prevProgress <= newProgress
    ensures prevProgress < 100 ==> newProgress == 100 || newProgress >= prevProgress + 5
  {
    var randomIncrement := Increment(random);
    if prevProgress + randomIncrement < 100 then prevProgress + randomIncrement else 100
  }

  /** The progress after the interval has fired once per draw in `randoms`,
      starting from `start`; once progress is 100 the interval is cleared and
      further draws are not used. */
  function ProgressAfter(start: int, randoms: seq<real>): (progress: int)
    requires AllUnit(randoms)
    ensures 0 <= start <= 100 ==> start <= progress <= 100
    ensures start >= 100 ==> progress == start
  {
    if randoms == [] then start
    else
      var before := ProgressAfter(start, randoms[..|randoms| - 1]);
      if before < 100 then NextProgress(before, randoms[|randoms| - 1]) else before
  }

  /** Progress stays within [start, 100] and, until it saturates, gains at
      least 5 per tick. */
  lemma {:induction false} ProgressAfterBounds(start: int, randoms: seq<real>)
    requires 0 <= start <= 100 && AllUnit(randoms)
    ensures var p := ProgressAfter(start, randoms);
            start <= p <= 100 && (p == 100 || p >= start + 5 * |randoms|)
  {
    if randoms != [] {
      ProgressAfterBounds(start, randoms[..|randoms| - 1]);
    }
  }

  /** Progress never decreases from one tick to a later one. */
  lemma {:induction false} ProgressAfterMonotone(start: int, randoms: seq<real>, k: nat)
    requires 0 <= start <= 100 && AllUnit(randoms) && k <= |randoms|
    ensures ProgressAfter(start, randoms[..k]) <= ProgressAfter(start, randoms)
  {
    if k < |randoms| {
      var shorter := randoms[..|randoms| - 1];
      assert shorter[..k] == randoms[..k];
      ProgressAfterMonotone(start, shorter, k);
      ProgressAfterBounds(start, shorter);
    } else {
      assert randoms[..k] == randoms;
    }
  }

  /** From any start, ceil((100 - start) / 5) ticks are enough to reach
      100; from 0 that is at most 20 ticks. */
  lemma SaturatesWithinBound(start: int, randoms: seq<real>)
    requires 0 <= start <= 100 && AllUnit(randoms)
    requires 5 * |randoms| >= 100 - start
    ensures ProgressAfter(start, randoms) == 100
  {
    ProgressAfterBounds(start, randoms);
  }

  /** The loading state of the page. */
  class Loader {
    var progress: int
    var isLoading: bool

    /** Progress lies in [0, 100], and loading has ended only at 100. */
    ghost predicate Valid()
      reads this
    {
      0 <= progress <= 100 && (!isLoading ==> progress == 100)
    }

    /** The initial state: loading, at 0%. */
    constructor ()
      ensures Valid() && progress == 0 && isLoading
    {
      progress := 0;
      isLoading := true;
    }

    /** One firing of the interval, which exists only while loading below 100. */
    method Tick(random: real)
      requires Valid() && isLoading && progress < 100
      requires IsUnit(random)
      modifies this
      ensures Valid() && isLoading
      ensures progress == NextProgress(old(progress), random)
      ensures old(progress) + 5 <= progress || progress == 100
    {
      progress := NextProgress(progress, random);
    }

    /** The settle timer, which exists only while loading at 100. */
    method Settle()
      requires Valid() && isLoading && progress == 100
      modifies this
      ensures Valid() && !isLoading && progress == 100
    {
      isLoading := false;
    }

    /** The next state change the effect schedules from the current state:
        a tick below 100, the settle step at 100, nothing once loading ended. */
    method Step(random: real)
      requires Valid() && IsUnit(random)
      modifies this
      ensures Valid()
      ensures old(progress) <= progress
      ensures old(isLoading) && old(progress) < 100 ==>
                isLoading && progress == NextProgress(old(progress), random)
      ensures old(isLoading) && old(progress) == 100 ==> !isLoading && progress == 100
      ensures !old(isLoading) ==> !isLoading && progress == old(progress)
    {
      if isLoading {
        if progress < 100 {
          Tick(random);
        } else if progress == 100 {
          Settle();
        }
      }
    }

    /** The gate in front of the calculator: it is shown only once loading
        has ended, and so only after progress has reached 100. */
    function ShowsCalculator(): (shown: bool)
      reads this
      requires Valid()
      ensures shown ==> progress == 100
    {
      !isLoading
    }

    /** Runs the loading screen to its end, drawing one random value per
        tick. It ticks until progress first reaches 100, then settles; from
        0 that takes at most 20 ticks. */
    method Load(randoms: seq<real>) returns (ticks: nat)
      requires Valid() && AllUnit(randoms) && |randoms| >= 20
      modifies this
      ensures Valid() && !isLoading && progress == 100
      ensures ticks <= 20
      ensures !old(isLoading) ==> ticks == 0
      ensures 5 * (ticks - 1) < 100 - old(progress)
      ensures ProgressAfter(old(progress), randoms[..ticks]) == 100
      ensures forall k :: 0 <= k < ticks ==> ProgressAfter(old(progress), randoms[..k]) < 100
    {
      ghost var start := progress;
      ticks := 0;
      while isLoading
        invariant Valid()
        invariant 0 <= ticks <= |randoms|
        invariant !old(isLoading) ==> ticks == 0 && !isLoading
        invariant 5 * (ticks - 1) < 100 - start
        invariant progress == ProgressAfter(start, randoms[..ticks])
        invariant progress < 100 ==> progress >= start + 5 * ticks
        invariant forall k :: 0 <= k < ticks ==> ProgressAfter(start, randoms[..k]) < 100
        decreases 100 - progress, isLoading
      {
        if progress < 100 {
          assert randoms[..ticks + 1][..ticks] == randoms[..ticks];
          Tick(randoms[ticks]);
          ticks := ticks + 1;
        } else {
          Settle();
        }
      }
    }
  }
}
