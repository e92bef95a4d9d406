/**
 * The morph engine: it copies the base sequence, builds the Euclidean target with the base's
 * metadata, computes the probability steps once, and samples them into new step sequences.
 * The random number generator is replaced by the list of samples it would have produced.
 */
module Morpher {
  import opened Options
  import opened Numbers
  import opened StepSeq
  import opened Euclid
  import opened ProbSteps

  /** The target's steps: `init_from_list(euc(onsets, subdivisions, rotation))` with default velocity `velocity`. */
  function TargetSteps(onsets: int, subdivisions: int, rotation: int, velocity: int): seq<Step>
  {
    FromPattern(Euclidean(onsets, subdivisions, rotation), velocity)
  }

  /**
   * The target has one step per subdivision, an onset exactly where the Euclidean pattern has a
   * one, and some onset exactly when there is at least one onset and one subdivision.
   */
  lemma TargetShape(onsets: int, subdivisions: int, rotation: int, velocity: int)
    ensures var t, p := TargetSteps(onsets, subdivisions, rotation, velocity), Euclidean(onsets, subdivisions, rotation);
      |t| == Max(subdivisions, 0) &&
      (forall i :: 0 <= i < |t| ==> t[i].onset == (p[i] == 1)) &&
      (AnyOnset(t) <==> onsets >= 1 && subdivisions >= 1)
  {
    var p := Euclidean(onsets, subdivisions, rotation);
    var t := TargetSteps(onsets, subdivisions, rotation, velocity);
    EuclideanLength(onsets, subdivisions, rotation);
    EuclideanHasOnset(onsets, subdivisions, rotation);
    EuclideanDegenerate(onsets, subdivisions, rotation);
    FromPatternOnsets(p, velocity);
    if 0 <= onsets <= subdivisions {
      EuclideanCounts(onsets, subdivisions, rotation);
    }
    forall i | 0 <= i < |t|
      ensures t[i].onset == (p[i] == 1)
    {
      assert p[i] in p;
    }
    if onsets >= 1 && subdivisions >= 1 {
      var k :| 0 <= k < |p| && p[k] == 1;
      assert t[k].onset;
    }
  }

  /** The probability steps of a morpher built from `base` and `euc(onsets, subdivisions, rotation)`. */
  function MorphedSteps(algorithm: Algorithm, base: seq<Step>, onsets: int, subdivisions: int, rotation: int,
                        velocity: int, randomness: int): (ps: seq<ProbStep>)
    requires AnyOnset(base) || (onsets >= 1 && subdivisions >= 1)
    ensures |ps| > 0
  {
    TargetShape(onsets, subdivisions, rotation, velocity);
    ProbStepsOf(algorithm, base, TargetSteps(onsets, subdivisions, rotation, velocity), randomness)
  }

  /**
   * The length `generate(num_bars)` produces on a morpher built from `base` and
   * `euc(onsets, subdivisions, rotation)`: the merged length for `None` or `<= 0`, otherwise
   * `num_bars` copies of the base's length.
   */
  function GeneratedLength(base: seq<Step>, onsets: int, subdivisions: int, rotation: int,
                           velocity: int, numBars: Option<int>): nat
    requires AnyOnset(base) || (onsets >= 1 && subdivisions >= 1)
  {
    TargetShape(onsets, subdivisions, rotation, velocity);
    if numBars.None? || numBars.value <= 0 then MergedLength(base, TargetSteps(onsets, subdivisions, rotation, velocity))
    else |base| * numBars.value
  }

  /**
   * The steps `generate` produces from probability steps `ps`: step `i` is an onset with
   * velocity `velocity` when sample `i` is below the probability at `(i + startPos) mod |ps|`,
   * and a default step otherwise.
   */
  function Sampled(ps: seq<ProbStep>, samples: seq<real>, startPos: int, length: nat, velocity: int): (out: seq<Step>)
    requires |ps| > 0 && |samples| >= length
    ensures |out| == length
  {
    seq(length, i requires 0 <= i < length =>
      if samples[i] < ps[(i + startPos) % |ps|].probability then Step(true, velocity) else Step(false, 0))
  }

  /**
   * Position continuity: sampling `n1` steps from `startPos` and then `n2` steps from
   * `(startPos + n1) mod |ps|` reads the same probabilities, step for step, as sampling
   * `n1 + n2` steps from `startPos` at once.
   */
  lemma SampledContinues(ps: seq<ProbStep>, u1: seq<real>, u2: seq<real>, startPos: int, n1: nat, n2: nat, velocity: int)
    requires |ps| > 0 && |u1| == n1 && |u2| >= n2
    ensures Sampled(ps, u1 + u2, startPos, n1 + n2, velocity)
         == Sampled(ps, u1, startPos, n1, velocity) + Sampled(ps, u2, (startPos + n1) % |ps|, n2, velocity)
  {
    var whole := Sampled(ps, u1 + u2, startPos, n1 + n2, velocity);
    var parts := Sampled(ps, u1, startPos, n1, velocity) + Sampled(ps, u2, (startPos + n1) % |ps|, n2, velocity);
    forall i | 0 <= i < n1 + n2
      ensures whole[i] == parts[i]
    {
      if i >= n1 {
        IndexShift(i, n1, startPos, |ps|);
      } else {
        assert (u1 + u2)[i] == u1[i];
      }
    }
  }

  /** Step `i` of the whole run is step `i - n1` of the run that starts `n1` steps later. */
  lemma IndexShift(i: int, n1: int, startPos: int, length: int)
    requires length > 0
    ensures (i + startPos) % length == ((i - n1) + (startPos + n1) % length) % length
  {
    ModShift(i - n1, startPos + n1, length);
    assert i + startPos == (i - n1) + (startPos + n1);
  }

  /**
   * With samples in `[0, 1)`, a step of probability 1 (or more) is always sampled as an onset
   * and a step of probability 0 (or less) never is.
   */
  lemma SampledCertainties(ps: seq<ProbStep>, samples: seq<real>, startPos: int, length: nat, velocity: int, i: nat)
    requires |ps| > 0 && |samples| >= length && i < length
    requires forall k :: 0 <= k < |samples| ==> 0.0 <= samples[k] < 1.0
    ensures var p := ps[(i + startPos) % |ps|].probability;
      (p >= 1.0 ==> Sampled(ps, samples, startPos, length, velocity)[i] == Step(true, velocity)) &&
      (p <= 0.0 ==> Sampled(ps, samples, startPos, length, velocity)[i] == Step(false, 0))
  {
  }

  /**
   * With TestingNoRandom, and samples in `[0, 1)`, the output is the merged onset pattern read
   * cyclically from `startPos`: step `i` is an onset exactly when the base or the target has an
   * onset at `(i + startPos) mod L`.
   */
  lemma TestingNoRandomSampling(base: seq<Step>, target: seq<Step>, r: int, samples: seq<real>,
                                startPos: int, length: nat, velocity: int)
    requires Mergeable(base, target) && |samples| >= length
    requires forall k :: 0 <= k < |samples| ==> 0.0 <= samples[k] < 1.0
    ensures var ps := ProbStepsOf(TestingNoRandom, base, target, r);
      var out := Sampled(ps, samples, startPos, length, velocity);
      forall i :: 0 <= i < length ==>
        var j := (i + startPos) % |ps|;
        out[i].onset == ((|base| > 0 && OnsetAt(base, j)) || (|target| > 0 && OnsetAt(target, j)))
  {
    var ps := ProbStepsOf(TestingNoRandom, base, target, r);
    var out := Sampled(ps, samples, startPos, length, velocity);
    TestingNoRandomIsDeterministic(base, target, r, r);
    forall i | 0 <= i < length
      ensures var j := (i + startPos) % |ps|;
        out[i].onset == ((|base| > 0 && OnsetAt(base, j)) || (|target| > 0 && OnsetAt(target, j)))
    {
      var j := (i + startPos) % |ps|;
      ProbStepMarks(TestingNoRandom, base, target, r, j);
      SampledCertainties(ps, samples, startPos, length, velocity, i);
    }
  }

  lemma InstanceBase(velocity: int, i: nat)
    requires i < 8
    ensures var base := FromPattern([1, 0, 0, 0, 1, 0, 0, 0], velocity);
      |base| == 8 && (OnsetAt(base, i) <==> i % 4 == 0)
  {
    var p := [1, 0, 0, 0, 1, 0, 0, 0];
    assert i % 8 == i;
    assert (p[i] != 0) == (i % 4 == 0);
  }

  lemma TresilloShape(p: seq<int>, velocity: int, i: nat)
    requires p == [1, 0, 0, 1, 0, 0, 1, 0] && i < 8
    ensures var target := FromPattern(p, velocity);
      |target| == 8 && (OnsetAt(target, i) <==> i % 3 == 0)
  {
    assert i % 8 == i;
    assert (p[i] != 0) == (i % 3 == 0);
  }

  lemma InstanceTarget(velocity: int, i: nat)
    requires i < 8
    ensures var target := TargetSteps(3, 8, 0, velocity);
      |target| == 8 && (OnsetAt(target, i) <==> i % 3 == 0)
  {
    Tresillo();
    TresilloShape(Euclidean(3, 8, 0), velocity, i);
  }

  /**
   * A worked instance: base `x...x...`, target `euclidean(3, 8, 0)` = `x..x..x.`, morph amount 0,
   * DirectMorph100. Both base onsets keep probability 1; the target-only onsets at 3 and 6 are
   * marked but get probability 0, like every rest.
   */
  lemma DirectMorph100Instance(velocity: int)
    ensures var base := FromPattern([1, 0, 0, 0, 1, 0, 0, 0], velocity);
      var target := TargetSteps(3, 8, 0, velocity);
      Mergeable(base, target) &&
      var ps := ProbStepsOf(DirectMorph100, base, target, 0);
      |ps| == 8 &&
      (forall i :: 0 <= i < 8 ==> ps[i].probability == if i % 4 == 0 then 1.0 else 0.0) &&
      ps[3].onset && ps[6].onset && !ps[1].onset
  {
    var base := FromPattern([1, 0, 0, 0, 1, 0, 0, 0], velocity);
    var target := TargetSteps(3, 8, 0, velocity);
    InstanceBase(velocity, 0);
    InstanceTarget(velocity, 0);
    assert base[0].onset;
    MergedLengthEqual(base, target);
    var ps := ProbStepsOf(DirectMorph100, base, target, 0);
    forall i | 0 <= i < 8
      ensures ps[i].probability == if i % 4 == 0 then 1.0 else 0.0
    {
      NoMorphKeepsBase(DirectMorph100, base, target, 0, i);
      InstanceBase(velocity, i);
    }
    ProbStepMarks(DirectMorph100, base, target, 0, 3);
    InstanceTarget(velocity, 3);
    ProbStepMarks(DirectMorph100, base, target, 0, 6);
    InstanceTarget(velocity, 6);
    ProbStepMarks(DirectMorph100, base, target, 0, 1);
    InstanceTarget(velocity, 1);
    InstanceBase(velocity, 1);
  }

  class EucMorpher {
    const algorithm: Algorithm
    /** The morph amount the probability steps were computed with; the program does not keep it. */
    ghost const randomness: int
    var base: StepSequence
    var target: StepSequence
    var probSteps: seq<ProbStep>

    /** The cached probability steps are the algorithm's result on the stored base and target. */
    ghost predicate Valid()
      reads this, base, target
    {
      base != target &&
      Mergeable(base.steps, target.steps) &&
      probSteps == ProbStepsOf(algorithm, base.steps, target.steps, randomness)
    }

    /**
     * `EucMorpher(s, onsets, subdivisions, rotation, randomness, algorithm)`: the base is a deep
     * copy of `s`; the target is the Euclidean pattern with `s`'s note, default velocity, tempo
     * and subdivision; the probability steps are computed here, once.
     */
    constructor (s: StepSequence, onsets: int, subdivisions: int, rotation: int, randomness: int, algorithm: Algorithm)
      requires AnyOnset(s.steps) || (onsets >= 1 && subdivisions >= 1)
      ensures Valid() && fresh(base) && fresh(target)
      ensures this.algorithm == algorithm && this.randomness == randomness
      ensures base.steps == s.steps && base.note == s.note && base.defaultVelocity == s.defaultVelocity
      ensures base.tempo == s.tempo && base.subdivision == s.subdivision
      ensures target.steps == TargetSteps(onsets, subdivisions, rotation, s.defaultVelocity)
      ensures target.note == s.note && target.defaultVelocity == s.defaultVelocity
      ensures target.tempo == s.tempo && target.subdivision == s.subdivision
    {
      this.algorithm := algorithm;
      this.randomness := randomness;
      var copy := s.DeepCopy();
      var pattern := Euc(onsets, subdivisions, rotation);
      var e := new StepSequence(note := s.note, defaultVelocity := s.defaultVelocity,
                                tempo := s.tempo, subdivision := s.subdivision);
      e := e.InitFromList(pattern);
      TargetShape(onsets, subdivisions, rotation, s.defaultVelocity);
      var ps := GenerateProbSteps(algorithm, copy.steps, e.steps, randomness);
      base := copy;
      target := e;
      probSteps := ps;
    }

    /** `prob_steps()`: the cached probability steps. */
    function CachedSteps(): seq<ProbStep>
      reads this
    {
      probSteps
    }

    /** The length `generate(num_bars)` produces: the whole probability sequence for `None` or `<= 0`. */
    function OutputLength(numBars: Option<int>): nat
      reads this, base
    {
      if numBars.None? || numBars.value <= 0 then |probSteps| else |base.steps| * numBars.value
    }

    /**
     * `generate(num_bars, start_pos)`, with `samples` in place of the calls to `random()`:
     * a new sequence with the base's metadata whose steps are sampled from the probability
     * steps, starting at `start_pos`. The morpher itself does not change.
     */
    method Generate(samples: seq<real>, numBars: Option<int> := None, startPos: int := 0) returns (v: StepSequence)
      requires Valid() && |samples| >= OutputLength(numBars)
      ensures fresh(v)
      ensures v.note == base.note && v.defaultVelocity == base.defaultVelocity
      ensures v.tempo == base.tempo && v.subdivision == base.subdivision
      ensures v.steps == Sampled(probSteps, samples, startPos, OutputLength(numBars), base.defaultVelocity)
    {
      var length := if numBars.None? || numBars.value <= 0 then |probSteps| else base.Length() * numBars.value;
      assert |probSteps| > 0;
      v := new StepSequence(length, base.note, base.defaultVelocity, base.tempo, base.subdivision);
      SampleInto(v, probSteps, samples, startPos);
    }
  }

  /**
   * The loop of `generate`: step `i` of `v`, a rest so far, is set where the sample drawn for
   * it falls below the probability of step `(i + start_pos) mod L`.
   */
  method SampleInto(v: StepSequence, ps: seq<ProbStep>, samples: seq<real>, startPos: int)
    requires |ps| > 0 && |samples| >= |v.steps| && v.steps == Rests(|v.steps|)
    modifies v
    ensures v.steps == Sampled(ps, samples, startPos, |old(v.steps)|, v.defaultVelocity)
    ensures v.note == old(v.note) && v.defaultVelocity == old(v.defaultVelocity)
    ensures v.tempo == old(v.tempo) && v.subdivision == old(v.subdivision)
  {
    var length := v.Length();
    ghost var velocity := v.defaultVelocity;
    ghost var want := Sampled(ps, samples, startPos, length, velocity);
    for i := 0 to v.Length()
      invariant v.defaultVelocity == velocity && |v.steps| == length
      invariant v.note == old(v.note) && v.tempo == old(v.tempo) && v.subdivision == old(v.subdivision)
      invariant v.steps[..i] == want[..i]
      invariant v.steps[i..] == Rests(length - i)
    {
      var p := ps[(i + startPos) % |ps|].probability;
      ghost var prior := v.steps;
      assert want[i] == if samples[i] < p then Step(true, velocity) else Step(false, 0);
      assert prior[i] == Step(false, 0);
      if samples[i] < p {
        v.SetStep(i);
        assert PyIndex(i, |prior|) == i;
        assert v.steps == prior[i := Step(true, velocity)];
      }
      assert v.steps == prior[i := want[i]];
      FillNext(prior, want, i);
    }
    assert v.steps == v.steps[..length];
  }

  /** Writing step `i` of the wanted result onto the rests that remain extends the filled prefix by one. */
  lemma FillNext(prior: seq<Step>, want: seq<Step>, i: nat)
    requires |prior| == |want| && i < |want|
    requires prior[..i] == want[..i] && prior[i..] == Rests(|prior| - i)
    ensures prior[i := want[i]][..i + 1] == want[..i + 1]
    ensures prior[i := want[i]][i + 1..] == Rests(|prior| - (i + 1))
  {
    var next := prior[i := want[i]];
    assert next[..i + 1] == prior[..i] + [want[i]];
    assert next[i + 1..] == prior[i + 1..];
  }

  /**
   * The base is a copy: editing the caller's sequence after construction leaves the morpher's
   * base and its cached probability steps as they were.
   */
  method CallerEditsDoNotReachMorpher(s: StepSequence, onsets: int, subdivisions: int, rotation: int,
                                      randomness: int, algorithm: Algorithm, index: int)
    requires AnyOnset(s.steps) || (onsets >= 1 && subdivisions >= 1)
    requires -|s.steps| <= index < |s.steps|
    modifies s
  {
    var m := new EucMorpher(s, onsets, subdivisions, rotation, randomness, algorithm);
    ghost var before := m.CachedSteps();
    ghost var baseBefore := m.base.steps;
    s.ToggleStep(index);
    assert m.Valid() && m.CachedSteps() == before && m.base.steps == baseBefore;
  }
}
