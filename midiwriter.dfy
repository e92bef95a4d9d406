/**
 * The MIDI writer: step sequences are serialised into one track of delta-timed messages.
 * A timer accumulates the ticks of rest steps; every onset step emits a note-on carrying the
 * accumulated ticks followed by a note-off one timestep later, and resets the timer.
 */
module Midi {
  import opened Numbers
  import opened StepSeq

  /** `ticks_per_beat` of the MIDI file. */
  const TicksPerBeat: int := 480

  /**
   * Track messages. Times are delta times in ticks; the tempo message keeps the bpm value
   * (the conversion to microseconds per beat is not part of this model).
   */
  datatype Message =
    | SetTempo(bpm: int)
    | NoteOn(note: int, velocity: int, time: int)
    | NoteOff(note: int, time: int)
    | EndOfTrack(time: int)

  /** The delta time of a message; `set_tempo` is written with time 0. */
  function Time(m: Message): int
  {
    match m
    case SetTempo(_) => 0
    case NoteOn(_, _, t) => t
    case NoteOff(_, t) => t
    case EndOfTrack(t) => t
  }

  function TotalTime(ms: seq<Message>): int
  {
    if ms == [] then 0 else Time(ms[0]) + TotalTime(ms[1..])
  }

  /** The messages the step loop of `add` appends, and the timer it leaves behind. */
  datatype Encoding = Encoding(messages: seq<Message>, timer: int)

  /** The step loop of `add`, for steps played on `note` with `timestep` ticks each. */
  function Encode(steps: seq<Step>, note: int, timestep: int, timer: int): Encoding
  {
    if steps == [] then Encoding([], timer)
    else if steps[0].onset then
      var rest := Encode(steps[1..], note, timestep, 0);
      Encoding([NoteOn(note, steps[0].velocity, timer), NoteOff(note, timestep)] + rest.messages, rest.timer)
    else
      Encode(steps[1..], note, timestep, timer + timestep)
  }

  /** The velocities of the onset steps, in order. */
  function OnsetVelocities(steps: seq<Step>): seq<int>
  {
    if steps == [] then []
    else (if steps[0].onset then [steps[0].velocity] else []) + OnsetVelocities(steps[1..])
  }

  function CountNoteOns(ms: seq<Message>): nat
  {
    if ms == [] then 0 else (if ms[0].NoteOn? then 1 else 0) + CountNoteOns(ms[1..])
  }

  /** `set_tempo` is emitted exactly when the sequence's tempo differs from the recorded one. */
  function TempoMessages(recorded: int, tempo: int): (ms: seq<Message>)
    ensures |ms| <= 1
    ensures ms != [] <==> tempo != recorded
    ensures ms != [] ==> ms[0] == SetTempo(tempo)
  {
    if tempo != recorded then [SetTempo(tempo)] else []
  }

  /**
   * `ms` is one note-on/note-off pair per entry of `vs`, in order: pair `k` is a note-on on
   * `note` with velocity `vs[k]`, followed by a note-off on `note` one timestep later.
   */
  predicate Paired(ms: seq<Message>, vs: seq<int>, note: int, timestep: int)
  {
    |ms| == 2 * |vs| &&
    forall k :: 0 <= k < |vs| ==>
      ms[2 * k].NoteOn? && ms[2 * k].note == note && ms[2 * k].velocity == vs[k] &&
      ms[2 * k + 1] == NoteOff(note, timestep)
  }

  /** A pair in front of a paired list keeps it paired. */
  lemma PairedCons(ms: seq<Message>, vs: seq<int>, note: int, timestep: int, velocity: int, timer: int)
    requires Paired(ms, vs, note, timestep)
    ensures Paired([NoteOn(note, velocity, timer), NoteOff(note, timestep)] + ms, [velocity] + vs, note, timestep)
  {
    var ms', vs' := [NoteOn(note, velocity, timer), NoteOff(note, timestep)] + ms, [velocity] + vs;
    forall k | 1 <= k < |vs'|
      ensures ms'[2 * k].NoteOn? && ms'[2 * k].note == note && ms'[2 * k].velocity == vs'[k]
      ensures ms'[2 * k + 1] == NoteOff(note, timestep)
    {
      assert ms'[2 * k] == ms[2 * (k - 1)] && ms'[2 * k + 1] == ms[2 * (k - 1) + 1];
    }
  }

  /** The step loop's first step, on the encoding of the steps after it. */
  lemma EncodeFirst(steps: seq<Step>, note: int, timestep: int, timer: int)
    requires steps != []
    ensures steps[0].onset ==>
      Encode(steps, note, timestep, timer).messages
        == [NoteOn(note, steps[0].velocity, timer), NoteOff(note, timestep)] + Encode(steps[1..], note, timestep, 0).messages &&
      OnsetVelocities(steps) == [steps[0].velocity] + OnsetVelocities(steps[1..])
    ensures !steps[0].onset ==>
      Encode(steps, note, timestep, timer) == Encode(steps[1..], note, timestep, timer + timestep) &&
      OnsetVelocities(steps) == OnsetVelocities(steps[1..])
  {
    assert !steps[0].onset ==> OnsetVelocities(steps) == [] + OnsetVelocities(steps[1..]);
  }

  /** The shape of the encoding: one note-on/note-off pair per onset step, in order. */
  lemma {:induction false} EncodePairs(steps: seq<Step>, note: int, timestep: int, timer: int)
    ensures Paired(Encode(steps, note, timestep, timer).messages, OnsetVelocities(steps), note, timestep)
  {
    if steps != [] {
      EncodeFirst(steps, note, timestep, timer);
      if steps[0].onset {
        EncodePairs(steps[1..], note, timestep, 0);
        PairedCons(Encode(steps[1..], note, timestep, 0).messages, OnsetVelocities(steps[1..]),
                   note, timestep, steps[0].velocity, timer);
      } else {
        EncodePairs(steps[1..], note, timestep, timer + timestep);
      }
    }
  }

  /** `add` appends exactly one note-on per onset step, and twice as many messages in all. */
  lemma {:induction false} EncodeCounts(steps: seq<Step>, note: int, timestep: int, timer: int)
    ensures CountNoteOns(Encode(steps, note, timestep, timer).messages) == |OnsetVelocities(steps)|
    ensures |Encode(steps, note, timestep, timer).messages| == 2 * |OnsetVelocities(steps)|
  {
    if steps != [] {
      if steps[0].onset {
        EncodeCounts(steps[1..], note, timestep, 0);
        var ms := Encode(steps, note, timestep, timer).messages;
        assert ms[1..][1..] == Encode(steps[1..], note, timestep, 0).messages;
      } else {
        EncodeCounts(steps[1..], note, timestep, timer + timestep);
      }
    }
  }

  /**
   * Time is conserved: the delta times of the appended note messages plus the timer left
   * behind add up to the starting timer plus one timestep per step.
   */
  lemma {:induction false} EncodeConservesTime(steps: seq<Step>, note: int, timestep: int, timer: int)
    ensures var e := Encode(steps, note, timestep, timer);
      TotalTime(e.messages) + e.timer == timer + |steps| * timestep
  {
    if steps != [] {
      var n := |steps| - 1;
      assert |steps| * timestep == n * timestep + timestep;
      if steps[0].onset {
        EncodeConservesTime(steps[1..], note, timestep, 0);
        var ms := Encode(steps, note, timestep, timer).messages;
        assert ms[1..][1..] == Encode(steps[1..], note, timestep, 0).messages;
        assert TotalTime(ms) == timer + timestep + TotalTime(ms[1..][1..]);
      } else {
        EncodeConservesTime(steps[1..], note, timestep, timer + timestep);
      }
    }
  }

  /**
   * Encoding continues across calls: encoding `a` and then `b` from the timer `a` left behind
   * appends the same messages, and leaves the same timer, as encoding `a + b` at once.
   */
  lemma {:induction false} EncodeConcat(a: seq<Step>, b: seq<Step>, note: int, timestep: int, timer: int)
    ensures var ea := Encode(a, note, timestep, timer);
      var eb := Encode(b, note, timestep, ea.timer);
      Encode(a + b, note, timestep, timer) == Encoding(ea.messages + eb.messages, eb.timer)
  {
    if a == [] {
      assert a + b == b;
    } else {
      assert (a + b)[1..] == a[1..] + b;
      assert (a + b)[0] == a[0];
      if a[0].onset {
        EncodeConcat(a[1..], b, note, timestep, 0);
      } else {
        EncodeConcat(a[1..], b, note, timestep, timer + timestep);
      }
    }
  }

  /** A rest's velocity is not written to the track; onset steps keep theirs. */
  function Written(steps: seq<Step>): seq<Step>
  {
    seq(|steps|, i requires 0 <= i < |steps| => if steps[i].onset then steps[i] else Step(false, 0))
  }

  /**
   * Reading a track back, for a positive timestep: each note-on stands for `time / timestep`
   * rest steps followed by an onset with its velocity; the final timer stands for the trailing
   * rests. Other messages carry no steps.
   */
  function Decode(ms: seq<Message>, timer: int, timestep: int): seq<Step>
    requires timestep > 0
  {
    if ms == [] then Rests(timer / timestep)
    else if ms[0].NoteOn? then Rests(ms[0].time / timestep) + [Step(true, ms[0].velocity)] + Decode(ms[1..], timer, timestep)
    else Decode(ms[1..], timer, timestep)
  }

  lemma RestsSplit(j: nat)
    ensures Rests(j + 1) == Rests(j) + [Step(false, 0)]
    ensures Rests(j + 1) == [Step(false, 0)] + Rests(j)
  {
  }

  /**
   * The track determines the rhythm: with a positive timestep, decoding what `add` appends
   * (after `j` rests worth of timer) gives back those `j` rests and then the steps as written.
   */
  lemma {:induction false} DecodeEncode(steps: seq<Step>, note: int, timestep: int, j: nat)
    requires timestep > 0
    ensures var e := Encode(steps, note, timestep, j * timestep);
      Decode(e.messages, e.timer, timestep) == Rests(j) + Written(steps)
  {
    var e := Encode(steps, note, timestep, j * timestep);
    MulMod(j, timestep);
    if steps == [] {
      assert Written(steps) == [];
    } else {
      var tail := Written(steps[1..]);
      assert Written(steps) == Written(steps[..1]) + tail;
      if steps[0].onset {
        DecodeEncode(steps[1..], note, timestep, 0);
        var ms := e.messages;
        assert ms[1..][1..] == Encode(steps[1..], note, timestep, 0).messages;
        assert Decode(ms, e.timer, timestep) == Rests(j) + [Step(true, steps[0].velocity)] + Decode(ms[1..][1..], e.timer, timestep);
        assert Written(steps[..1]) == [steps[0]];
        assert Rests(0) == [];
      } else {
        assert j * timestep + timestep == (j + 1) * timestep;
        DecodeEncode(steps[1..], note, timestep, j + 1);
        RestsSplit(j);
        assert Written(steps[..1]) == [Step(false, 0)];
      }
    }
  }

  class MidiWriter {
    var tempo: int
    var subdivision: int
    var timestep: int
    var timer: int
    var track: seq<Message>

    /** The timestep always matches the recorded subdivision, which is never zero. */
    ghost predicate Valid()
      reads this
    {
      subdivision != 0 && timestep == FloorDiv(TicksPerBeat, subdivision)
    }

    /** A fresh writer: tempo 120, four subdivisions per beat, 120 ticks per step, an empty track. */
    constructor ()
      ensures Valid()
      ensures tempo == 120 && subdivision == 4 && timestep == 120 && timer == 0 && track == []
    {
      tempo := 120;
      subdivision := 4;
      timestep := FloorDiv(TicksPerBeat, 4);
      timer := 0;
      track := [];
    }

    /**
     * `add(s)`: a tempo change is recorded and emitted, a subdivision change recomputes the
     * timestep silently, and then every step of `s` is encoded from the current timer.
     */
    method Add(s: StepSequence)
      requires Valid() && s.subdivision != 0
      modifies this
      ensures Valid()
      ensures tempo == s.tempo && subdivision == s.subdivision
      ensures timestep == if s.subdivision == old(subdivision) then old(timestep) else FloorDiv(TicksPerBeat, s.subdivision)
      ensures track == old(track) + TempoMessages(old(tempo), s.tempo)
                     + Encode(s.steps, s.note, timestep, old(timer)).messages
      ensures timer == Encode(s.steps, s.note, timestep, old(timer)).timer
    {
      if s.tempo != tempo {
        tempo := s.tempo;
        track := track + [SetTempo(tempo)];
      }
      if s.subdivision != subdivision {
        subdivision := s.subdivision;
        timestep := FloorDiv(TicksPerBeat, subdivision);
      }
      Play(s.steps, s.note);
    }

    /** The step loop of `add`: every step is encoded from the current timer, in order. */
    method Play(steps: seq<Step>, note: int)
      modifies this
      ensures track == old(track) + Encode(steps, note, timestep, old(timer)).messages
      ensures timer == Encode(steps, note, timestep, old(timer)).timer
      ensures tempo == old(tempo) && subdivision == old(subdivision) && timestep == old(timestep)
    {
      ghost var prefix := track;
      ghost var whole := Encode(steps, note, timestep, timer);
      for i := 0 to |steps|
        invariant tempo == old(tempo) && subdivision == old(subdivision) && timestep == old(timestep)
        invariant track + Encode(steps[i..], note, timestep, timer).messages == prefix + whole.messages
        invariant Encode(steps[i..], note, timestep, timer).timer == whole.timer
      {
        assert steps[i..][1..] == steps[i + 1..];
        var step := steps[i];
        if step.onset {
          track := track + [NoteOn(note, step.velocity, timer), NoteOff(note, timestep)];
          timer := 0;
        } else {
          timer := timer + timestep;
        }
      }
      assert steps[|steps|..] == [];
    }

    /** `save()`: the end-of-track message carries the pending timer; writing the file is not modelled. */
    method Save()
      modifies this
      ensures track == old(track) + [EndOfTrack(old(timer))]
      ensures tempo == old(tempo) && subdivision == old(subdivision)
      ensures timestep == old(timestep) && timer == old(timer)
    {
      track := track + [EndOfTrack(timer)];
    }
  }

  /** Two sequences added one after the other write the track of their concatenation. */
  method AddTwice(a: StepSequence, b: StepSequence)
    requires a.subdivision == b.subdivision == 4 && a.tempo == b.tempo == 120 && a.note == b.note
  {
    var w := new MidiWriter();
    w.Add(a);
    w.Add(b);
    EncodeConcat(a.steps, b.steps, a.note, 120, 0);
    assert w.track == Encode(a.steps + b.steps, a.note, 120, 0).messages;
  }
}
