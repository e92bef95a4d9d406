/**
 * Step sequences: an ordered list of steps, each an onset flag and a velocity, together with
 * the sequence's note, default velocity, tempo and subdivision.
 */
module StepSeq {
  import opened Options

  /** One step; `Step(false, 0)` is the default step. */
  datatype Step = Step(onset: bool, velocity: int)

  /** A Python list index `index` on a list of length `n`: a negative index counts from the end. */
  function PyIndex(index: int, n: nat): (k: nat)
    requires -(n as int) <= index < n
    ensures k < n && (index >= 0 ==> k == index) && (index < 0 ==> k == n + index)
  {
    if index < 0 then index + n else index
  }

  /** `[Step() for _ in range(length)]`: `length` default steps, none when `length <= 0`. */
  function Rests(length: int): seq<Step>
  {
    seq(if length < 0 then 0 else length, _ => Step(false, 0))
  }

  /** `any(step.onset for step in steps)`. */
  predicate AnyOnset(steps: seq<Step>)
    ensures AnyOnset(steps) <==> exists i :: 0 <= i < |steps| && steps[i].onset
  {
    steps != [] && (steps[0].onset || AnyOnset(steps[1..]))
  }

  /** The onset flags of the steps, in order: the sequence's rhythm. */
  function Onsets(steps: seq<Step>): (r: seq<bool>)
    ensures |r| == |steps| && forall i :: 0 <= i < |steps| ==> r[i] == steps[i].onset
  {
    seq(|steps|, i requires 0 <= i < |steps| => steps[i].onset)
  }

  /** Equal length and equal onset flags at every index; velocities do not matter. */
  predicate SameRhythm(a: seq<Step>, b: seq<Step>)
  {
    |a| == |b| && forall i :: 0 <= i < |a| ==> a[i].onset == b[i].onset
  }

  /** Two step lists have the same rhythm exactly when their onset flags are equal. */
  lemma SameRhythmIsOnsetEquality(a: seq<Step>, b: seq<Step>)
    ensures SameRhythm(a, b) <==> Onsets(a) == Onsets(b)
  {
    if Onsets(a) == Onsets(b) {
      assert |a| == |Onsets(a)|;
      forall i | 0 <= i < |a| ensures a[i].onset == b[i].onset {
        assert Onsets(a)[i] == Onsets(b)[i];
      }
    }
  }

  /** Having the same rhythm is reflexive, symmetric and transitive. */
  lemma SameRhythmIsEquivalence(a: seq<Step>, b: seq<Step>, c: seq<Step>)
    ensures SameRhythm(a, a)
    ensures SameRhythm(a, b) ==> SameRhythm(b, a)
    ensures SameRhythm(a, b) && SameRhythm(b, c) ==> SameRhythm(a, c)
  {
  }

  /**
   * The steps `init_from_list(pattern)` produces: an onset with velocity `velocity` where the
   * pattern's element is truthy (non-zero), a default step elsewhere.
   */
  function FromPattern(pattern: seq<int>, velocity: int): seq<Step>
  {
    seq(|pattern|, i requires 0 <= i < |pattern| => if pattern[i] != 0 then Step(true, velocity) else Step(false, 0))
  }

  /** A sequence built from a pattern has an onset exactly where the pattern is non-zero. */
  lemma FromPatternOnsets(pattern: seq<int>, velocity: int)
    ensures Onsets(FromPattern(pattern, velocity)) == seq(|pattern|, i requires 0 <= i < |pattern| => pattern[i] != 0)
    ensures AnyOnset(FromPattern(pattern, velocity)) <==> exists i :: 0 <= i < |pattern| && pattern[i] != 0
  {
    var steps := FromPattern(pattern, velocity);
    if exists i :: 0 <= i < |pattern| && pattern[i] != 0 {
      var i :| 0 <= i < |pattern| && pattern[i] != 0;
      assert steps[i].onset;
    }
  }

  /** `toggle_step`: the onset flag of step `k` flipped. */
  function Toggled(steps: seq<Step>, k: nat): (r: seq<Step>)
    requires k < |steps|
    ensures |r| == |steps| && r[k].onset == !steps[k].onset && r[k].velocity == steps[k].velocity
    ensures forall i :: 0 <= i < |steps| && i != k ==> r[i] == steps[i]
  {
    steps[k := steps[k].(onset := !steps[k].onset)]
  }

  /** Toggling the same step twice restores the steps. */
  lemma ToggleTwice(steps: seq<Step>, k: nat)
    requires k < |steps|
    ensures Toggled(Toggled(steps, k), k) == steps
  {
  }

  /** `set_step`: step `k` becomes an onset with velocity `velocity`. */
  function WithOnset(steps: seq<Step>, k: nat, velocity: int): (r: seq<Step>)
    requires k < |steps|
    ensures |r| == |steps| && r[k] == Step(true, velocity)
    ensures forall i :: 0 <= i < |steps| && i != k ==> r[i] == steps[i]
  {
    steps[k := Step(true, velocity)]
  }

  /** Setting the same step twice is the same as setting it once. */
  lemma SetStepIdempotent(steps: seq<Step>, k: nat, velocity: int)
    requires k < |steps|
    ensures WithOnset(WithOnset(steps, k, velocity), k, velocity) == WithOnset(steps, k, velocity)
  {
  }

  /** One character per step: `'x'` for an onset, `'.'` for a rest. */
  function Notation(steps: seq<Step>): (r: string)
    ensures |r| == |steps|
    ensures forall i :: 0 <= i < |steps| ==> r[i] == if steps[i].onset then 'x' else '.'
  {
    if steps == [] then "" else [if steps[0].onset then 'x' else '.'] + Notation(steps[1..])
  }

  class StepSequence {
    var note: int
    var defaultVelocity: int
    var tempo: int
    var subdivision: int
    var steps: seq<Step>

    /** `StepSequence(length, note, default_velocity, tempo, subdivision)`, with the program's defaults. */
    constructor (length: int := 0, note: int := 36, defaultVelocity: int := 100,
                 tempo: int := 120, subdivision: int := 4)
      ensures this.note == note && this.defaultVelocity == defaultVelocity
      ensures this.tempo == tempo && this.subdivision == subdivision
      ensures steps == Rests(length)
    {
      this.note := note;
      this.defaultVelocity := defaultVelocity;
      this.tempo := tempo;
      this.subdivision := subdivision;
      steps := Rests(length);
    }

    /** `len(self._sequence)`. */
    function Length(): nat
      reads this
    {
      |steps|
    }

    /**
     * `init_from_list`: the steps are replaced by one per pattern element, set with the default
     * velocity where the element is non-zero; the metadata is kept and the object itself returned.
     */
    method InitFromList(pattern: seq<int>) returns (self: StepSequence)
      modifies this
      ensures self == this
      ensures steps == FromPattern(pattern, defaultVelocity)
      ensures note == old(note) && defaultVelocity == old(defaultVelocity)
      ensures tempo == old(tempo) && subdivision == old(subdivision)
    {
      steps := Rests(|pattern|);
      for i := 0 to |pattern|
        invariant |steps| == |pattern|
        invariant note == old(note) && defaultVelocity == old(defaultVelocity)
        invariant tempo == old(tempo) && subdivision == old(subdivision)
        invariant forall j :: 0 <= j < i ==> steps[j] == FromPattern(pattern, defaultVelocity)[j]
        invariant forall j :: i <= j < |pattern| ==> steps[j] == Step(false, 0)
      {
        if pattern[i] != 0 {
          SetStep(i);
        }
      }
      self := this;
    }

    /** `toggle_step(index)`: flips the onset of one step and changes nothing else. */
    method ToggleStep(index: int)
      requires -|steps| <= index < |steps|
      modifies this
      ensures steps == Toggled(old(steps), PyIndex(index, |old(steps)|))
      ensures note == old(note) && defaultVelocity == old(defaultVelocity)
      ensures tempo == old(tempo) && subdivision == old(subdivision)
    {
      var k := PyIndex(index, |steps|);
      steps := steps[k := steps[k].(onset := !steps[k].onset)];
    }

    /**
     * `set_step(index, velocity=None)`: makes one step an onset with the given velocity, or the
     * default velocity when none is given; nothing else changes.
     */
    method SetStep(index: int, velocity: Option<int> := None)
      requires -|steps| <= index < |steps|
      modifies this
      ensures steps == WithOnset(old(steps), PyIndex(index, |old(steps)|), velocity.GetOr(defaultVelocity))
      ensures note == old(note) && defaultVelocity == old(defaultVelocity)
      ensures tempo == old(tempo) && subdivision == old(subdivision)
    {
      var k := PyIndex(index, |steps|);
      steps := steps[k := steps[k].(onset := true)];
      steps := steps[k := steps[k].(velocity := if velocity.Some? then velocity.value else defaultVelocity)];
    }

    /** `add(onset=False, velocity=None)`: appends one step. */
    method Add(onset: bool := false, velocity: Option<int> := None)
      modifies this
      ensures steps == old(steps) + [Step(onset, velocity.GetOr(defaultVelocity))]
      ensures note == old(note) && defaultVelocity == old(defaultVelocity)
      ensures tempo == old(tempo) && subdivision == old(subdivision)
    {
      var v := if velocity.None? then defaultVelocity else velocity.value;
      steps := steps + [Step(onset, v)];
    }

    /** `has_onset()`: some step is an onset. */
    function HasOnset(): (r: bool)
      reads this
      ensures r <==> exists i :: 0 <= i < |steps| && steps[i].onset
    {
      AnyOnset(steps)
    }

    /**
     * `is_same_rhythm(other)`: `other` is a step sequence (`null` stands for `None`) of the same
     * length with the same onset flag at every index.
     */
    method IsSameRhythm(other: StepSequence?) returns (same: bool)
      ensures same <==> other != null && SameRhythm(steps, other.steps)
    {
      if other == null {
        return false;
      }
      if |steps| != |other.steps| {
        return false;
      }
      for i := 0 to |steps|
        invariant forall j :: 0 <= j < i ==> steps[j].onset == other.steps[j].onset
      {
        if steps[i].onset != other.steps[i].onset {
          return false;
        }
      }
      return true;
    }

    /** `rhythm_notation()`: `'['`, one character per step, `']'`. */
    function RhythmNotation(): (r: string)
      reads this
      ensures |r| == |steps| + 2 && r[0] == '[' && r[|r| - 1] == ']'
      ensures forall i :: 0 <= i < |steps| ==> r[i + 1] == if steps[i].onset then 'x' else '.'
    {
      "[" + Notation(steps) + "]"
    }

    method SetTempo(tempo: int)
      modifies this
      ensures this.tempo == tempo && steps == old(steps)
      ensures note == old(note) && defaultVelocity == old(defaultVelocity) && subdivision == old(subdivision)
    {
      this.tempo := tempo;
    }

    method SetSubdivision(subdivision: int)
      modifies this
      ensures this.subdivision == subdivision && steps == old(steps)
      ensures note == old(note) && defaultVelocity == old(defaultVelocity) && tempo == old(tempo)
    {
      this.subdivision := subdivision;
    }

    /** `copy.deepcopy(self)`: a new sequence with the same steps and metadata. */
    method DeepCopy() returns (c: StepSequence)
      ensures fresh(c)
      ensures c.steps == steps && c.note == note && c.defaultVelocity == defaultVelocity
      ensures c.tempo == tempo && c.subdivision == subdivision
    {
      c := new StepSequence(0, note, defaultVelocity, tempo, subdivision);
      c.steps := steps;
    }
  }
}
