/**
 * Probability steps and the six algorithms that merge a base rhythm and a target rhythm into
 * one sequence of probability steps.
 *
 * Every algorithm runs the same merge first: inputs without an onset are dropped, the merged
 * length is the lcm of the remaining lengths, and step `i` is an onset when some remaining
 * input has an onset at `i` modulo its length, tagged with the inputs that have one there.
 * Each algorithm then assigns probabilities by its own table.
 */
module ProbSteps {
  import opened StepSeq
  import opened Numbers

  /** Where an onset came from: the base (`'base'`, `'s'`) or the target (`'extra'`, `'e'`). */
  datatype Tag = Base | Extra

  datatype ProbStep = ProbStep(onset: bool, probability: real, properties: set<Tag>)

  datatype Algorithm =
    | SimpleProbStepAlg
    | SimpleProbStepAlgV2
    | MegaMorphV1
    | DirectMorph100
    | DirectMorph50
    | TestingNoRandom
  {
    /** Every algorithm but SimpleProbStepAlg records the source tags of its onsets. */
    predicate Tagged()
    {
      !SimpleProbStepAlg?
    }
  }

  /** `np.clip(r / 100, 0, 1)`. */
  function Clamp(r: int): (rp: real)
    ensures 0.0 <= rp <= 1.0
    ensures r <= 0 ==> rp == 0.0
    ensures r >= 100 ==> rp == 1.0
    ensures 0 <= r <= 100 ==> rp == r as real / 100.0
  {
    var x := r as real / 100.0;
    if x < 0.0 then 0.0 else if x > 1.0 then 1.0 else x
  }

  function MaxReal(x: real, y: real): real
  {
    if x >= y then x else y
  }

  // ---------------------------------------------------------------------------
  // The merge.

  /** An input that has an onset, with the tag of the parameter it was passed as. */
  datatype Source = Source(tag: Tag, steps: seq<Step>)

  /** `[seq.sequence() for seq in (s, e) if seq.has_onset()]`. */
  function Sources(base: seq<Step>, target: seq<Step>): (srcs: seq<Source>)
    ensures forall k :: 0 <= k < |srcs| ==> AnyOnset(srcs[k].steps)
    ensures |srcs| == (if AnyOnset(base) then 1 else 0) + (if AnyOnset(target) then 1 else 0)
    ensures AnyOnset(base) ==> srcs[0] == Source(Base, base)
    ensures AnyOnset(target) ==> srcs[|srcs| - 1] == Source(Extra, target)
  {
    (if AnyOnset(base) then [Source(Base, base)] else []) +
    (if AnyOnset(target) then [Source(Extra, target)] else [])
  }

  /** At least one input has an onset, so that the lcm is taken over a non-empty list. */
  predicate Mergeable(base: seq<Step>, target: seq<Step>)
  {
    AnyOnset(base) || AnyOnset(target)
  }

  function Lengths(srcs: seq<Source>): (ns: seq<nat>)
    ensures |ns| == |srcs| && forall k :: 0 <= k < |srcs| ==> ns[k] == |srcs[k].steps|
  {
    seq(|srcs|, k requires 0 <= k < |srcs| => |srcs[k].steps|)
  }

  /** `np.lcm.reduce([len(item) for item in seqs])`. */
  function MergedLength(base: seq<Step>, target: seq<Step>): (length: nat)
    requires Mergeable(base, target)
    ensures length > 0
    ensures AnyOnset(base) ==> Divides(|base|, length)
    ensures AnyOnset(target) ==> Divides(|target|, length)
  {
    var srcs := Sources(base, target);
    var ns := Lengths(srcs);
    assert AnyOnset(base) ==> ns[0] == |base|;
    assert AnyOnset(target) ==> ns[|ns| - 1] == |target|;
    LcmAll(ns)
  }

  /** Inputs of one common length merge to that length, whichever of them survive. */
  lemma MergedLengthEqual(base: seq<Step>, target: seq<Step>)
    requires Mergeable(base, target) && |base| == |target|
    ensures MergedLength(base, target) == |base|
  {
    var srcs := Sources(base, target);
    var ns := Lengths(srcs);
    var n := |base|;
    if AnyOnset(base) && AnyOnset(target) {
      assert srcs == [Source(Base, base), Source(Extra, target)];
      assert ns == [n, n];
      assert ns[..1] == [n];
      assert LcmAll(ns) == Lcm(LcmAll([n]), n);
      LcmSelf(n);
    } else {
      assert |srcs| == 1 && (srcs[0].steps == base || srcs[0].steps == target);
      assert ns == [n];
    }
  }

  /** `seq[i % len(seq)].onset`: the input, repeated, has an onset at `i`. */
  predicate OnsetAt(steps: seq<Step>, i: nat)
    requires |steps| > 0
  {
    steps[i % |steps|].onset
  }

  /** Some of the first `count` sources has an onset at `i`. */
  predicate OnsetFrom(srcs: seq<Source>, count: nat, i: nat)
    requires count <= |srcs| && forall k :: 0 <= k < |srcs| ==> |srcs[k].steps| > 0
  {
    count > 0 && (OnsetFrom(srcs, count - 1, i) || OnsetAt(srcs[count - 1].steps, i))
  }

  /** The tags of the first `count` sources that have an onset at `i`. */
  function TagsFrom(srcs: seq<Source>, count: nat, i: nat): set<Tag>
    requires count <= |srcs| && forall k :: 0 <= k < |srcs| ==> |srcs[k].steps| > 0
  {
    if count == 0 then {}
    else TagsFrom(srcs, count - 1, i) + (if OnsetAt(srcs[count - 1].steps, i) then {srcs[count - 1].tag} else {})
  }

  /**
   * Probability step `i` after the merge loop has looked at the first `count` sources:
   * TestingNoRandom gives an onset probability 1.0 there, every other algorithm leaves it 0.0.
   */
  function PartialStep(alg: Algorithm, srcs: seq<Source>, count: nat, i: nat): ProbStep
    requires count <= |srcs| && forall k :: 0 <= k < |srcs| ==> |srcs[k].steps| > 0
  {
    var onset := OnsetFrom(srcs, count, i);
    ProbStep(onset,
             if alg == TestingNoRandom && onset then 1.0 else 0.0,
             if alg.Tagged() then TagsFrom(srcs, count, i) else {})
  }

  /** The probability steps when the merge loop is done. */
  function Merge(alg: Algorithm, base: seq<Step>, target: seq<Step>): (m: seq<ProbStep>)
    requires Mergeable(base, target)
    ensures |m| == MergedLength(base, target)
  {
    var srcs := Sources(base, target);
    seq(MergedLength(base, target), i requires i >= 0 => PartialStep(alg, srcs, |srcs|, i))
  }

  // ---------------------------------------------------------------------------
  // The probability tables.

  /** `prob_steps[i - 1]`: index `-1` is the last element. */
  function Prev(i: nat, length: nat): nat
    requires i < length
  {
    if i == 0 then length - 1 else i - 1
  }

  /** `prob_steps[(i + 1) % length]`. */
  function Next(i: nat, length: nat): nat
    requires i < length
  {
    (i + 1) % length
  }

  /**
   * SimpleProbStepAlg: an onset gets `1 - rp/2`; a rest next to an onset on either side
   * gets `rp/2`; any other rest keeps 0.
   */
  function SimpleProbability(rp: real, prev: ProbStep, cur: ProbStep, next: ProbStep): (p: real)
    requires 0.0 <= rp <= 1.0
    ensures 0.0 <= p <= 1.0
  {
    if !cur.onset then
      if prev.onset || next.onset then rp / 2.0 else 0.0
    else 1.0 - rp / 2.0
  }

  /**
   * SimpleProbStepAlgV2: an onset gets `1 - rp/4` if base-tagged, else `1 - rp/2`; a rest next
   * to an onset gets `rp/4` if a neighbour is base-tagged, else `rp/2`; any other rest keeps 0.
   */
  function V2Probability(rp: real, prev: ProbStep, cur: ProbStep, next: ProbStep): (p: real)
    requires 0.0 <= rp <= 1.0
    ensures 0.0 <= p <= 1.0
  {
    if !cur.onset then
      if prev.onset || next.onset then
        if Base in prev.properties || Base in next.properties then rp / 4.0 else rp / 2.0
      else 0.0
    else if Base in cur.properties then 1.0 - rp / 4.0
    else 1.0 - rp / 2.0
  }

  /**
   * MegaMorphV1: an onset gets `1 - rp/4` with both tags, `1 - rp/2` with the base tag only and
   * `rp` with the target tag only; a rest gets `rp/4` next to a step with both tags, else `rp/2`
   * next to a base-tagged step, else keeps 0.
   */
  function MegaMorphProbability(rp: real, prev: ProbStep, cur: ProbStep, next: ProbStep): (p: real)
    requires 0.0 <= rp <= 1.0
    ensures 0.0 <= p <= 1.0
  {
    if !cur.onset then
      if (Base in prev.properties && Extra in prev.properties) || (Base in next.properties && Extra in next.properties) then rp / 4.0
      else if Base in prev.properties || Base in next.properties then rp / 2.0
      else 0.0
    else if Base in cur.properties && Extra in cur.properties then 1.0 - rp / 4.0
    else if Base in cur.properties then 1.0 - rp / 2.0
    else if Extra in cur.properties then rp
    else 0.0
  }

  /**
   * DirectMorph100: an onset gets `max(1 - rp, rp)` with both tags, `1 - rp` with the base tag
   * only and `rp` with the target tag only; every rest keeps 0.
   */
  function Direct100Probability(rp: real, cur: ProbStep): (p: real)
    requires 0.0 <= rp <= 1.0
    ensures 0.0 <= p <= 1.0
  {
    if cur.onset then
      if Base in cur.properties && Extra in cur.properties then MaxReal(1.0 - rp, rp)
      else if Base in cur.properties then 1.0 - rp
      else if Extra in cur.properties then rp
      else 0.0
    else 0.0
  }

  /**
   * DirectMorph50: a base-tagged onset (with or without the target tag) gets `1 - rp/2`, an
   * onset with the target tag only gets `rp/2`; every rest keeps 0.
   */
  function Direct50Probability(rp: real, cur: ProbStep): (p: real)
    requires 0.0 <= rp <= 1.0
    ensures 0.0 <= p <= 1.0
  {
    if cur.onset then
      if Base in cur.properties then 1.0 - rp / 2.0
      else if Extra in cur.properties then rp / 2.0
      else 0.0
    else 0.0
  }

  /**
   * The probability the second loop of `alg` gives a step, from the step and its cyclic
   * neighbours; TestingNoRandom has no second loop and keeps the step's probability.
   */
  function Rule(alg: Algorithm, rp: real, prev: ProbStep, cur: ProbStep, next: ProbStep): (p: real)
    requires 0.0 <= rp <= 1.0 && 0.0 <= cur.probability <= 1.0
    ensures 0.0 <= p <= 1.0
  {
    match alg
    case SimpleProbStepAlg => SimpleProbability(rp, prev, cur, next)
    case SimpleProbStepAlgV2 => V2Probability(rp, prev, cur, next)
    case MegaMorphV1 => MegaMorphProbability(rp, prev, cur, next)
    case DirectMorph100 => Direct100Probability(rp, cur)
    case DirectMorph50 => Direct50Probability(rp, cur)
    case TestingNoRandom => cur.probability
  }

  /** Steps that agree on onset and tags: what the tables look at. */
  predicate SameMark(x: ProbStep, y: ProbStep)
  {
    x.onset == y.onset && x.properties == y.properties
  }

  /** The tables read the onset flags and tags of the neighbours, never their probabilities. */
  lemma RuleReadsMarks(alg: Algorithm, rp: real, prev: ProbStep, cur: ProbStep, next: ProbStep,
                       prev': ProbStep, next': ProbStep)
    requires 0.0 <= rp <= 1.0 && 0.0 <= cur.probability <= 1.0
    requires SameMark(prev, prev') && SameMark(next, next')
    ensures Rule(alg, rp, prev, cur, next) == Rule(alg, rp, prev', cur, next')
  {
  }

  // ---------------------------------------------------------------------------
  // The result of `generate_prob_steps`.

  lemma MergedProbabilities(alg: Algorithm, base: seq<Step>, target: seq<Step>)
    requires Mergeable(base, target)
    ensures forall i :: 0 <= i < |Merge(alg, base, target)| ==>
      0.0 <= Merge(alg, base, target)[i].probability <= 1.0
  {
  }

  function ProbStepsOf(alg: Algorithm, base: seq<Step>, target: seq<Step>, r: int): (ps: seq<ProbStep>)
    requires Mergeable(base, target)
    ensures |ps| == MergedLength(base, target)
    ensures forall i :: 0 <= i < |ps| ==> 0.0 <= ps[i].probability <= 1.0
    ensures forall i :: 0 <= i < |ps| ==> SameMark(ps[i], Merge(alg, base, target)[i])
  {
    var m := Merge(alg, base, target);
    var rp := Clamp(r);
    MergedProbabilities(alg, base, target);
    seq(|m|, i requires 0 <= i < |m| =>
      m[i].(probability := Rule(alg, rp, m[Prev(i, |m|)], m[i], m[Next(i, |m|)])))
  }

  /** The tags the merge gives step `i`: one per input that has an onset at `i` modulo its length. */
  function InputTags(base: seq<Step>, target: seq<Step>, i: nat): set<Tag>
  {
    (if |base| > 0 && OnsetAt(base, i) then {Base} else {}) +
    (if |target| > 0 && OnsetAt(target, i) then {Extra} else {})
  }

  lemma InputTagsMembers(base: seq<Step>, target: seq<Step>, i: nat)
    ensures Base in InputTags(base, target, i) <==> |base| > 0 && OnsetAt(base, i)
    ensures Extra in InputTags(base, target, i) <==> |target| > 0 && OnsetAt(target, i)
  {
  }

  lemma {:induction false} OnsetFromHasTag(srcs: seq<Source>, count: nat, i: nat)
    requires count <= |srcs| && forall k :: 0 <= k < |srcs| ==> |srcs[k].steps| > 0
    ensures OnsetFrom(srcs, count, i) <==> TagsFrom(srcs, count, i) != {}
  {
    if count > 0 {
      OnsetFromHasTag(srcs, count - 1, i);
    }
  }

  /** Dropping the inputs without onsets loses no onset: the merge marks step `i` from both inputs. */
  lemma MergeSeesBothInputs(base: seq<Step>, target: seq<Step>, i: nat)
    requires Mergeable(base, target)
    ensures var srcs := Sources(base, target);
      TagsFrom(srcs, |srcs|, i) == InputTags(base, target, i) &&
      (OnsetFrom(srcs, |srcs|, i) <==> InputTags(base, target, i) != {})
  {
    var srcs := Sources(base, target);
    OnsetFromHasTag(srcs, |srcs|, i);
    if |base| > 0 && !AnyOnset(base) {
      assert !base[i % |base|].onset;
    }
    if |target| > 0 && !AnyOnset(target) {
      assert !target[i % |target|].onset;
    }
    if AnyOnset(base) && AnyOnset(target) {
      assert srcs == [Source(Base, base), Source(Extra, target)];
      assert TagsFrom(srcs, 1, i) == if OnsetAt(base, i) then {Base} else {};
    } else if AnyOnset(base) {
      assert srcs == [Source(Base, base)];
    } else {
      assert srcs == [Source(Extra, target)];
    }
  }

  /**
   * Step `i` of the result is an onset exactly when the base or the target has an onset at `i`
   * modulo its length; a tagging algorithm records exactly those inputs and nothing else, so a
   * step is an onset exactly when its tags are non-empty; SimpleProbStepAlg records no tags.
   */
  lemma ProbStepMarks(alg: Algorithm, base: seq<Step>, target: seq<Step>, r: int, i: nat)
    requires Mergeable(base, target) && i < MergedLength(base, target)
    ensures var ps := ProbStepsOf(alg, base, target, r);
      (ps[i].onset <==> (|base| > 0 && OnsetAt(base, i)) || (|target| > 0 && OnsetAt(target, i))) &&
      (alg.Tagged() ==> ps[i].properties == InputTags(base, target, i)) &&
      (alg.Tagged() ==> (ps[i].onset <==> ps[i].properties != {})) &&
      (!alg.Tagged() ==> ps[i].properties == {})
  {
    var ps := ProbStepsOf(alg, base, target, r);
    MergeSeesBothInputs(base, target, i);
    assert SameMark(ps[i], Merge(alg, base, target)[i]);
  }

  /**
   * With no morph (`r <= 0`) MegaMorphV1, DirectMorph100 and DirectMorph50 reproduce the base:
   * probability 1 exactly where the base has an onset and 0 elsewhere.
   */
  lemma NoMorphKeepsBase(alg: Algorithm, base: seq<Step>, target: seq<Step>, r: int, i: nat)
    requires alg == MegaMorphV1 || alg == DirectMorph100 || alg == DirectMorph50
    requires Mergeable(base, target) && i < MergedLength(base, target) && r <= 0
    ensures ProbStepsOf(alg, base, target, r)[i].probability
         == if |base| > 0 && OnsetAt(base, i) then 1.0 else 0.0
  {
    var m := Merge(alg, base, target);
    var L := |m|;
    var ps := ProbStepsOf(alg, base, target, r);
    assert (m[i].onset <==> m[i].properties != {}) &&
           (Base in m[i].properties <==> |base| > 0 && OnsetAt(base, i)) by {
      ProbStepMarks(alg, base, target, r, i);
      assert alg.Tagged();
      assert m[i].properties == ps[i].properties == InputTags(base, target, i);
      InputTagsMembers(base, target, i);
    }
    assert 0.0 <= m[i].probability <= 1.0 &&
           ps[i].probability == Rule(alg, 0.0, m[Prev(i, L)], m[i], m[Next(i, L)]) by {
      ProbStepAt(alg, base, target, r, i);
    }
    RuleWithoutMorph(alg, m[Prev(i, L)], m[i], m[Next(i, L)]);
  }

  lemma RuleWithoutMorph(alg: Algorithm, prev: ProbStep, cur: ProbStep, next: ProbStep)
    requires alg == MegaMorphV1 || alg == DirectMorph100 || alg == DirectMorph50
    requires 0.0 <= cur.probability <= 1.0
    requires cur.onset <==> cur.properties != {}
    ensures Rule(alg, 0.0, prev, cur, next) == if Base in cur.properties then 1.0 else 0.0
  {
  }

  /**
   * With no morph (`r <= 0`) SimpleProbStepAlg, SimpleProbStepAlgV2 and TestingNoRandom give
   * probability 1 at every merged onset and 0 at every rest.
   */
  lemma NoMorphKeepsOnsets(alg: Algorithm, base: seq<Step>, target: seq<Step>, r: int, i: nat)
    requires alg == SimpleProbStepAlg || alg == SimpleProbStepAlgV2 || alg == TestingNoRandom
    requires Mergeable(base, target) && i < MergedLength(base, target) && r <= 0
    ensures var ps := ProbStepsOf(alg, base, target, r);
      ps[i].probability == if ps[i].onset then 1.0 else 0.0
  {
    var m := Merge(alg, base, target);
    var L := |m|;
    assert ProbStepsOf(alg, base, target, r)[i].probability
        == Rule(alg, 0.0, m[Prev(i, L)], m[i], m[Next(i, L)]);
  }

  /** With a full morph (`r >= 100`) DirectMorph100 reproduces the target. */
  lemma FullMorphDirect100(base: seq<Step>, target: seq<Step>, r: int, i: nat)
    requires Mergeable(base, target) && i < MergedLength(base, target) && r >= 100
    ensures ProbStepsOf(DirectMorph100, base, target, r)[i].probability
         == if |target| > 0 && OnsetAt(target, i) then 1.0 else 0.0
  {
    Direct100Table(base, target, r, i);
    OnsetTags(base, target, i);
    InputTagsMembers(base, target, i);
    assert Clamp(r) == 1.0;
  }

  /**
   * TestingNoRandom gives probability 1 to every onset and 0 to every rest, whatever the morph
   * amount.
   */
  lemma TestingNoRandomIsDeterministic(base: seq<Step>, target: seq<Step>, r: int, r': int)
    requires Mergeable(base, target)
    ensures var ps := ProbStepsOf(TestingNoRandom, base, target, r);
      forall i :: 0 <= i < |ps| ==> ps[i].probability == if ps[i].onset then 1.0 else 0.0
    ensures ProbStepsOf(TestingNoRandom, base, target, r) == ProbStepsOf(TestingNoRandom, base, target, r')
  {
    var m := Merge(TestingNoRandom, base, target);
    var ps, ps' := ProbStepsOf(TestingNoRandom, base, target, r), ProbStepsOf(TestingNoRandom, base, target, r');
    forall i | 0 <= i < |m|
      ensures ps[i] == m[i] && ps'[i] == m[i]
      ensures m[i].probability == if m[i].onset then 1.0 else 0.0
    {
      ProbStepAt(TestingNoRandom, base, target, r, i);
      ProbStepAt(TestingNoRandom, base, target, r', i);
    }
    assert ps == m && ps' == m;
  }

  /** The first loop of `generate_prob_steps`: one probability step per index, marked from each surviving input. */
  method MarkOnsets(alg: Algorithm, base: seq<Step>, target: seq<Step>) returns (ps: seq<ProbStep>)
    requires Mergeable(base, target)
    ensures ps == Merge(alg, base, target)
  {
    var data := Sources(base, target);
    var length := MergedLength(base, target);
    ps := [];
    for i := 0 to length
      invariant |ps| == i
      invariant forall j :: 0 <= j < i ==> ps[j] == Merge(alg, base, target)[j]
    {
      ps := ps + [ProbStep(false, 0.0, {})];
      ps := MarkStep(alg, data, ps, i);
    }
  }

  /** The inner loop of the first loop: step `i`, a fresh rest, is marked from each input in turn. */
  method MarkStep(alg: Algorithm, data: seq<Source>, ps0: seq<ProbStep>, i: nat) returns (ps: seq<ProbStep>)
    requires forall k :: 0 <= k < |data| ==> |data[k].steps| > 0
    requires i < |ps0| && ps0[i] == ProbStep(false, 0.0, {})
    ensures ps == ps0[i := PartialStep(alg, data, |data|, i)]
  {
    ps := ps0;
    for d := 0 to |data|
      invariant |ps| == |ps0| && ps[i] == PartialStep(alg, data, d, i)
      invariant forall j :: 0 <= j < |ps| && j != i ==> ps[j] == ps0[j]
    {
      var src := data[d].steps;
      if src[i % |src|].onset {
        ps := ps[i := ps[i].(onset := true)];
        if alg == TestingNoRandom {
          ps := ps[i := ps[i].(probability := 1.0)];
        }
        if alg.Tagged() {
          ps := ps[i := ps[i].(properties := ps[i].properties + {data[d].tag})];
        }
      }
    }
    assert ps == ps0[i := PartialStep(alg, data, |data|, i)];
  }

  /** The second loop of `generate_prob_steps`: each step's probability by the algorithm's table. */
  method AssignProbabilities(alg: Algorithm, rp: real, m: seq<ProbStep>) returns (ps: seq<ProbStep>)
    requires 0.0 <= rp <= 1.0
    requires forall j :: 0 <= j < |m| ==> 0.0 <= m[j].probability <= 1.0
    ensures |ps| == |m|
    ensures forall j :: 0 <= j < |m| ==>
      ps[j] == m[j].(probability := Rule(alg, rp, m[Prev(j, |m|)], m[j], m[Next(j, |m|)]))
  {
    var length := |m|;
    ps := m;
    for i := 0 to length
      invariant |ps| == length
      invariant forall j :: 0 <= j < length ==> SameMark(ps[j], m[j])
      invariant forall j :: 0 <= j < i ==>
        ps[j] == m[j].(probability := Rule(alg, rp, m[Prev(j, length)], m[j], m[Next(j, length)]))
      invariant forall j :: i <= j < length ==> ps[j] == m[j]
    {
      var prev, next := if i == 0 then length - 1 else i - 1, (i + 1) % length;
      RuleReadsMarks(alg, rp, ps[prev], ps[i], ps[next], m[prev], m[next]);
      var p := Rule(alg, rp, ps[prev], ps[i], ps[next]);
      ps := ps[i := ps[i].(probability := p)];
    }
  }

  /** Step `i` of the result is step `i` of the merge with the probability its table gives. */
  lemma ProbStepAt(alg: Algorithm, base: seq<Step>, target: seq<Step>, r: int, i: nat)
    requires Mergeable(base, target) && i < MergedLength(base, target)
    ensures var m := Merge(alg, base, target);
      0.0 <= m[i].probability <= 1.0 &&
      ProbStepsOf(alg, base, target, r)[i]
        == m[i].(probability := Rule(alg, Clamp(r), m[Prev(i, |m|)], m[i], m[Next(i, |m|)]))
  {
    MergedProbabilities(alg, base, target);
  }

  // ---------------------------------------------------------------------------
  // Each table, stated on the inputs.

  /** Some input has an onset at `i`, modulo its length. */
  predicate Marked(base: seq<Step>, target: seq<Step>, i: nat)
  {
    (|base| > 0 && OnsetAt(base, i)) || (|target| > 0 && OnsetAt(target, i))
  }

  /** Step `j` of the merge: an onset exactly where an input has one, tagged by the inputs that do. */
  lemma MergeMarks(alg: Algorithm, base: seq<Step>, target: seq<Step>, j: nat)
    requires Mergeable(base, target) && j < MergedLength(base, target)
    ensures var m := Merge(alg, base, target);
      (m[j].onset <==> Marked(base, target, j)) &&
      (alg.Tagged() ==> m[j].properties == InputTags(base, target, j))
  {
    ProbStepMarks(alg, base, target, 0, j);
  }

  /** The marks of step `i` and of its two cyclic neighbours in the merge. */
  lemma NeighbourMarks(alg: Algorithm, base: seq<Step>, target: seq<Step>, i: nat)
    requires Mergeable(base, target) && i < MergedLength(base, target)
    ensures var m, L := Merge(alg, base, target), MergedLength(base, target);
      forall j :: j in {Prev(i, L), i, Next(i, L)} ==>
        j < L &&
        (m[j].onset <==> Marked(base, target, j)) &&
        (alg.Tagged() ==> m[j].properties == InputTags(base, target, j))
  {
    var L := MergedLength(base, target);
    MergeMarks(alg, base, target, Prev(i, L));
    MergeMarks(alg, base, target, i);
    MergeMarks(alg, base, target, Next(i, L));
  }

  /**
   * SimpleProbStepAlg on the inputs: `1 - rp/2` where an input has an onset; `rp/2` at a rest
   * whose cyclic neighbour (the last step for step 0) has one; 0 elsewhere.
   */
  lemma SimpleTable(base: seq<Step>, target: seq<Step>, r: int, i: nat)
    requires Mergeable(base, target) && i < MergedLength(base, target)
    ensures var ps, rp := ProbStepsOf(SimpleProbStepAlg, base, target, r), Clamp(r);
      var L := |ps|;
      ps[i].probability ==
        if Marked(base, target, i) then 1.0 - rp / 2.0
        else if Marked(base, target, Prev(i, L)) || Marked(base, target, Next(i, L)) then rp / 2.0
        else 0.0
  {
    ProbStepAt(SimpleProbStepAlg, base, target, r, i);
    NeighbourMarks(SimpleProbStepAlg, base, target, i);
  }

  /**
   * SimpleProbStepAlgV2 on the inputs: an onset gets `1 - rp/4` where the base has one and
   * `1 - rp/2` where only the target has one; a rest next to an onset gets `rp/4` when a
   * neighbour is a base onset and `rp/2` otherwise; every other rest gets 0.
   */
  lemma V2Table(base: seq<Step>, target: seq<Step>, r: int, i: nat)
    requires Mergeable(base, target) && i < MergedLength(base, target)
    ensures var ps, rp := ProbStepsOf(SimpleProbStepAlgV2, base, target, r), Clamp(r);
      var L := |ps|;
      var p, n := Prev(i, L), Next(i, L);
      ps[i].probability ==
        if Marked(base, target, i) then
          (if Base in InputTags(base, target, i) then 1.0 - rp / 4.0 else 1.0 - rp / 2.0)
        else if Marked(base, target, p) || Marked(base, target, n) then
          (if Base in InputTags(base, target, p) || Base in InputTags(base, target, n) then rp / 4.0 else rp / 2.0)
        else 0.0
  {
    ProbStepAt(SimpleProbStepAlgV2, base, target, r, i);
    NeighbourMarks(SimpleProbStepAlgV2, base, target, i);
  }

  /**
   * MegaMorphV1 on the inputs: an onset of both inputs gets `1 - rp/4`, of the base only
   * `1 - rp/2`, of the target only `rp`; a rest gets `rp/4` next to an onset of both inputs,
   * else `rp/2` next to a base onset, else 0.
   */
  lemma MegaMorphTable(base: seq<Step>, target: seq<Step>, r: int, i: nat)
    requires Mergeable(base, target) && i < MergedLength(base, target)
    ensures var ps, rp := ProbStepsOf(MegaMorphV1, base, target, r), Clamp(r);
      var L := |ps|;
      var t, tp, tn := InputTags(base, target, i), InputTags(base, target, Prev(i, L)), InputTags(base, target, Next(i, L));
      ps[i].probability ==
        if t == {} then
          (if tp == {Base, Extra} || tn == {Base, Extra} then rp / 4.0
           else if Base in tp || Base in tn then rp / 2.0
           else 0.0)
        else if t == {Base, Extra} then 1.0 - rp / 4.0
        else if t == {Base} then 1.0 - rp / 2.0
        else rp
  {
    var L := MergedLength(base, target);
    ProbStepAt(MegaMorphV1, base, target, r, i);
    NeighbourMarks(MegaMorphV1, base, target, i);
    OnsetTags(base, target, i);
    OnsetTags(base, target, Prev(i, L));
    OnsetTags(base, target, Next(i, L));
  }

  /**
   * DirectMorph100 on the inputs: `max(1 - rp, rp)` where both inputs have an onset,
   * `1 - rp` where only the base has one, `rp` where only the target has one, 0 elsewhere.
   */
  lemma Direct100Table(base: seq<Step>, target: seq<Step>, r: int, i: nat)
    requires Mergeable(base, target) && i < MergedLength(base, target)
    ensures var ps, rp := ProbStepsOf(DirectMorph100, base, target, r), Clamp(r);
      var t := InputTags(base, target, i);
      ps[i].probability ==
        if t == {Base, Extra} then MaxReal(1.0 - rp, rp)
        else if t == {Base} then 1.0 - rp
        else if t == {Extra} then rp
        else 0.0
  {
    ProbStepAt(DirectMorph100, base, target, r, i);
    NeighbourMarks(DirectMorph100, base, target, i);
    OnsetTags(base, target, i);
  }

  /**
   * DirectMorph50 on the inputs: `1 - rp/2` where the base has an onset, `rp/2` where only the
   * target has one, 0 elsewhere.
   */
  lemma Direct50Table(base: seq<Step>, target: seq<Step>, r: int, i: nat)
    requires Mergeable(base, target) && i < MergedLength(base, target)
    ensures var ps, rp := ProbStepsOf(DirectMorph50, base, target, r), Clamp(r);
      var t := InputTags(base, target, i);
      ps[i].probability ==
        if Base in t then 1.0 - rp / 2.0
        else if Extra in t then rp / 2.0
        else 0.0
  {
    ProbStepAt(DirectMorph50, base, target, r, i);
    NeighbourMarks(DirectMorph50, base, target, i);
    OnsetTags(base, target, i);
  }

  /** The tags of a step are one of four sets, and empty exactly where no input has an onset. */
  lemma OnsetTags(base: seq<Step>, target: seq<Step>, j: nat)
    ensures var t := InputTags(base, target, j);
      (t == {} <==> !Marked(base, target, j)) &&
      (t == {} || t == {Base} || t == {Extra} || t == {Base, Extra}) &&
      (Base in t && Extra in t <==> t == {Base, Extra}) &&
      (Base in t && Extra !in t <==> t == {Base}) &&
      (Base !in t && Extra in t <==> t == {Extra})
  {
    InputTagsMembers(base, target, j);
  }

  /**
   * `generate_prob_steps(s, e, r)` of algorithm `alg`: the merge loop, then (for all but
   * TestingNoRandom) the loop that assigns the probabilities.
   */
  method GenerateProbSteps(alg: Algorithm, base: seq<Step>, target: seq<Step>, r: int)
    returns (ps: seq<ProbStep>)
    requires Mergeable(base, target)
    ensures ps == ProbStepsOf(alg, base, target, r)
  {
    var rp := Clamp(r);
    ps := MarkOnsets(alg, base, target);
    MergedProbabilities(alg, base, target);
    if alg != TestingNoRandom {
      ps := AssignProbabilities(alg, rp, ps);
    }
  }
}
