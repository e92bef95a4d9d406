/**
 * The controller's generation state: where in the probability steps the next `generate`
 * starts, and the parameters and base rhythm of the previous call that decide whether it
 * continues or starts over. Reading the form fields and printing are not part of this model;
 * their values arrive as parameters.
 */
module Control {
  import opened Options
  import opened Numbers
  import opened StepSeq
  import opened ProbSteps
  import opened Morpher
  import opened Midi

  /** The position after generating `count` steps from `start`, cyclically over `length` steps. */
  function Advance(start: int, count: nat, length: int): (next: int)
    requires length > 0
    ensures 0 <= next < length
    ensures 0 <= start && start + count < length ==> next == start + count
  {
    (start + count) % length
  }

  /**
   * The morpher `handle_generate` builds for the base `s`, and the sequence it generates from
   * `start`; `length` is the number of probability steps the position advances over.
   */
  method MorphAndGenerate(s: StepSequence, onsets: int, subdivisions: int, rotation: int, amount: int,
                          algorithm: Algorithm, samples: seq<real>, numBars: Option<int>, start: int)
    returns (v: StepSequence, length: int)
    requires AnyOnset(s.steps) || (onsets >= 1 && subdivisions >= 1)
    requires |samples| >= GeneratedLength(s.steps, onsets, subdivisions, rotation, s.defaultVelocity, numBars)
    ensures fresh(v)
    ensures length == |MorphedSteps(algorithm, s.steps, onsets, subdivisions, rotation, s.defaultVelocity, amount)|
    ensures v.steps == Sampled(MorphedSteps(algorithm, s.steps, onsets, subdivisions, rotation, s.defaultVelocity, amount),
                               samples, start,
                               GeneratedLength(s.steps, onsets, subdivisions, rotation, s.defaultVelocity, numBars),
                               s.defaultVelocity)
    ensures v.note == s.note && v.defaultVelocity == s.defaultVelocity
    ensures v.tempo == s.tempo && v.subdivision == s.subdivision
  {
    var m := new EucMorpher(s, onsets, subdivisions, rotation, amount, algorithm);
    v := m.Generate(samples, numBars, start);
    length := |m.CachedSteps()|;
  }

  /** The base `handle_generate` reads from the form: `pattern` with default velocity 100. */
  method BaseSequence(pattern: seq<int>, note: int, tempo: int, subdivision: int) returns (s: StepSequence)
    ensures fresh(s) && s.steps == FromPattern(pattern, 100)
    ensures s.note == note && s.defaultVelocity == 100 && s.tempo == tempo && s.subdivision == subdivision
  {
    s := new StepSequence(tempo := tempo, subdivision := subdivision, note := note);
    s := s.InitFromList(pattern);
  }

  class Controller {
    var writer: MidiWriter
    var oldEucParams: (int, int, int)
    var oldSeq: StepSequence?
    var pos: int

    ghost predicate Valid()
      reads this, writer
    {
      writer.Valid() && pos >= 0
    }

    /** A fresh controller: position 0, no previous parameters or sequence, a fresh writer. */
    constructor ()
      ensures Valid() && fresh(writer)
      ensures writer.tempo == 120 && writer.subdivision == 4 && writer.timestep == 120
      ensures writer.timer == 0 && writer.track == []
      ensures pos == 0 && oldEucParams == (-1, -1, -1) && oldSeq == null
    {
      writer := new MidiWriter();
      oldEucParams := (-1, -1, -1);
      oldSeq := null;
      pos := 0;
    }

    /**
     * `handle_generate`: the base is built from `pattern` and the tempo, subdivision and note;
     * generation starts where the previous call stopped when the Euclidean parameters are the
     * same and the base has the same rhythm, and at 0 otherwise; the position then advances by
     * the generated length, cyclically, and the result goes to the writer. The algorithms on
     * offer are the five of the controller's table.
     */
    method HandleGenerate(onsets: int, subdivisions: int, rotation: int, amount: int, algorithm: Algorithm,
                          note: int, tempo: int, subdivision: int, pattern: seq<int>,
                          numBars: Option<int>, samples: seq<real>)
      returns (v: StepSequence, startPos: int)
      requires Valid() && algorithm != DirectMorph50 && subdivision != 0
      requires AnyOnset(FromPattern(pattern, 100)) || (onsets >= 1 && subdivisions >= 1)
      requires |samples| >= GeneratedLength(FromPattern(pattern, 100), onsets, subdivisions, rotation, 100, numBars)
      modifies this, writer
      ensures Valid() && writer == old(writer) && fresh(v)
      ensures v.steps == Sampled(MorphedSteps(algorithm, FromPattern(pattern, 100), onsets, subdivisions, rotation, 100, amount),
                                 samples, startPos,
                                 GeneratedLength(FromPattern(pattern, 100), onsets, subdivisions, rotation, 100, numBars), 100)
      ensures var L := |MorphedSteps(algorithm, FromPattern(pattern, 100), onsets, subdivisions, rotation, 100, amount)|;
        pos == Advance(startPos, |v.steps|, L)
      ensures var same := old(oldSeq) != null && SameRhythm(FromPattern(pattern, 100), old(oldSeq.steps));
        startPos == if old(oldEucParams) == (onsets, subdivisions, rotation) && same then old(pos) else 0
      ensures v.note == note && v.defaultVelocity == 100 && v.tempo == tempo && v.subdivision == subdivision
      ensures oldEucParams == (onsets, subdivisions, rotation)
      ensures oldSeq != null && fresh(oldSeq) && oldSeq.steps == FromPattern(pattern, 100)
      ensures writer.tempo == tempo && writer.subdivision == subdivision
      ensures writer.timestep == if subdivision == old(writer.subdivision) then old(writer.timestep)
                                 else FloorDiv(TicksPerBeat, subdivision)
      ensures writer.track == old(writer.track) + TempoMessages(old(writer.tempo), tempo)
                            + Encode(v.steps, note, writer.timestep, old(writer.timer)).messages
      ensures writer.timer == Encode(v.steps, note, writer.timestep, old(writer.timer)).timer
    {
      var s := BaseSequence(pattern, note, tempo, subdivision);
      startPos := Restart(onsets, subdivisions, rotation, s);
      var length;
      v, length := MorphAndGenerate(s, onsets, subdivisions, rotation, amount, algorithm, samples, numBars, pos);
      pos := Advance(pos, v.Length(), length);
      writer.Add(v);
      oldEucParams := (onsets, subdivisions, rotation);
      oldSeq := s;
    }

    /**
     * The position `handle_generate` starts from: the stored one when the Euclidean parameters
     * and the rhythm of the base are those of the previous call, 0 otherwise.
     */
    method Restart(onsets: int, subdivisions: int, rotation: int, s: StepSequence) returns (start: int)
      requires pos >= 0
      modifies this
      ensures start == pos && pos >= 0
      ensures start == if old(oldEucParams) == (onsets, subdivisions, rotation) &&
                           old(oldSeq) != null && SameRhythm(s.steps, old(oldSeq.steps)) then old(pos) else 0
      ensures writer == old(writer) && oldEucParams == old(oldEucParams) && oldSeq == old(oldSeq)
    {
      var same := s.IsSameRhythm(oldSeq);
      if oldEucParams != (onsets, subdivisions, rotation) || !same {
        pos := 0;
      }
      start := pos;
    }

    /** `handle_save`: the writer's track is closed and handed out, and a new writer takes its place. */
    method HandleSave() returns (saved: seq<Message>)
      modifies this, writer
      ensures saved == old(writer.track) + [EndOfTrack(old(writer.timer))]
      ensures fresh(writer) && writer.Valid() && writer.timer == 0 && writer.track == []
      ensures writer.tempo == 120 && writer.subdivision == 4
      ensures pos == old(pos) && oldEucParams == old(oldEucParams) && oldSeq == old(oldSeq)
    {
      writer.Save();
      saved := writer.track;
      writer := new MidiWriter();
    }

    /** `handle_clear`: a new writer; the generation state stays. */
    method HandleClear()
      modifies this
      ensures fresh(writer) && writer.Valid() && writer.timer == 0 && writer.track == []
      ensures writer.tempo == 120 && writer.subdivision == 4
      ensures pos == old(pos) && oldEucParams == old(oldEucParams) && oldSeq == old(oldSeq)
    {
      writer := new MidiWriter();
    }
  }

  /**
   * The first call starts at 0, and a second call with the same Euclidean parameters and the
   * same rhythm continues where the first stopped, even with another morph amount, algorithm,
   * tempo, note or bar count; a save in between does not change that.
   */
  method ContinueAcrossCalls(pattern: seq<int>, samples: seq<real>, onsets: int, subdivisions: int, rotation: int)
    requires onsets >= 1 && subdivisions >= 1
    requires |samples| >= GeneratedLength(FromPattern(pattern, 100), onsets, subdivisions, rotation, 100, Some(2))
    requires |samples| >= GeneratedLength(FromPattern(pattern, 100), onsets, subdivisions, rotation, 100, None)
  {
    var c := new Controller();
    var v1, start1 := c.HandleGenerate(onsets, subdivisions, rotation, 30, MegaMorphV1, 36, 120, 4, pattern, None, samples);
    assert start1 == 0;
    var end1 := c.pos;
    var saved := c.HandleSave();
    var v2, start2 := c.HandleGenerate(onsets, subdivisions, rotation, 80, DirectMorph100, 40, 90, 4, pattern, Some(2), samples);
    SameRhythmIsEquivalence(FromPattern(pattern, 100), FromPattern(pattern, 100), FromPattern(pattern, 100));
    assert start2 == end1;
    assert c.writer.tempo == 90 && c.writer.subdivision == 4 && c.writer.timestep == 120;
  }

  /** Changing the rotation starts over at 0. */
  method RestartOnNewParameters(pattern: seq<int>, samples: seq<real>)
    requires |samples| >= GeneratedLength(FromPattern(pattern, 100), 3, 8, 0, 100, None)
    requires |samples| >= GeneratedLength(FromPattern(pattern, 100), 3, 8, 1, 100, None)
  {
    var c := new Controller();
    var v1, start1 := c.HandleGenerate(3, 8, 0, 50, TestingNoRandom, 36, 120, 4, pattern, None, samples);
    var v2, start2 := c.HandleGenerate(3, 8, 1, 50, TestingNoRandom, 36, 120, 4, pattern, None, samples);
    assert start2 == 0;
  }
}
