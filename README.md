# Euclidean Morpher in Dafny

A model of the rhythm pipeline of the Euclidean Morpher, a tool that morphs a drum pattern
into a Euclidean rhythm and writes the result to MIDI. The pipeline has these parts:

- **Euclidean generator** (`Euclid`, `euc.dfy`). This is the bucket-merge form of
  Bjorklund's algorithm, followed by a rotation through Python slicing.
  - `Euc` is written as the program runs it: a list of buckets merged by nested loops.
  - `Euclidean` is the same computation as one function per loop.
  - The lemmas prove the result's length, its counts of ones and zeros, the degenerate
    cases, the rotation, its first element and the tresillo vector.
- **Step sequence** (`StepSeq`, `stepseq.dfy`). It is a class holding a list of steps
  (onset, velocity) and its metadata (note, default velocity, tempo, subdivision). It has
  index-addressed edits and rhythm queries, and the class's methods are proved against
  functions on the step list.
- **Probability-step algorithms** (`ProbSteps`, `probsteps.dfy`). There are six variants
  (SimpleProbStepAlg, SimpleProbStepAlgV2, MegaMorphV1, DirectMorph100, DirectMorph50,
  TestingNoRandom) and they share one merge.
  - The merge drops inputs without onsets and takes the lcm of the lengths of the rest.
  - It marks step `i` when some input has an onset at `i` modulo its length, and tags the
    step with the inputs that do.
  - Each variant then applies its own probability table. Probabilities are exact reals.
- **Morph engine** (`Morpher`, `eucmorpher.dfy`). It deep-copies the base, builds the
  Euclidean target with the base's metadata, and caches the probability steps. It then
  samples new sequences from them. The random number stream is an explicit list of samples.
- **Controller position state** (`Control`, `controller.dfy`). Generation either continues
  from where the previous call stopped or starts over at 0.
- **MIDI writer** (`Midi`, `midiwriter.dfy`). It serialises step sequences into one track
  of delta-timed messages.

`Numbers` (`numbers.dfy`) holds gcd, lcm and Python's floor division. `Options`
(`options.dfy`) holds the `Option` type that stands for Python's `None` defaults.

Two behaviours of the code that a reader of its descriptions might not expect:

- The controller's table of algorithms (controller.py:15-21) offers five variants, not
  six: DirectMorph50 cannot be chosen. `Control.Controller.HandleGenerate` therefore
  excludes it.
- With no morph (`r <= 0`), an onset that only the target has gets probability 0 under
  MegaMorphV1, DirectMorph100 and DirectMorph50 (probsteps.py:123-124, 154-155, 182-183).
  It does not get a probability in `(0, 1]`. `ProbSteps.NoMorphKeepsBase` states this.

## Model

| member | source | states |
|---|---|---|
| `Numbers.GcdDivides` | seqmorph/probsteps.py:37 | the gcd of two positive numbers is positive and divides both |
| `Numbers.DividesSum` | seqmorph/probsteps.py:37 | a common divisor of `b` and `r` divides `b * d + r`, the step of Euclid's algorithm |
| `Numbers.Lcm` | seqmorph/probsteps.py:37 | the lcm of two positive lengths is a positive common multiple, at most their product |
| `Numbers.LcmAll` | seqmorph/probsteps.py:37 | `np.lcm.reduce` over a non-empty list of positive lengths: a positive number that every length divides |
| `Numbers.LcmSelf` | seqmorph/probsteps.py:37 | the lcm of a length with itself is that length |
| `Numbers.FloorDiv` | midi/midiwriter.py:24 | Python's `//`: the quotient rounded toward negative infinity, for either sign of the divisor |
| `Euclid.InitialBuckets` | seq/euc.py:9 | one starting bucket per subdivision, none for a negative count |
| `Euclid.Fold` | seq/euc.py:17 | one `s[j].extend(s.pop())` removes exactly one bucket |
| `Euclid.Collapse` | seq/euc.py:21-27 | definition of the `while b > 1` phase: `a // b` sweeps of width `b`, then `(a, b) := (b, a % b)`; that it only rearranges is `Euclid.CollapseMoves` |
| `Euclid.Flatten` | seq/euc.py:29 | definition of `chain.from_iterable`: the buckets concatenated in order; its permutation properties are `Euclid.MovedFlattens` |
| `Euclid.Unrotated` | seq/euc.py:9-29 | definition of the pattern before `return`'s rotation, for `1 <= k < n`; `Euclid.UnrotatedMoves` states it is a permutation of the initial singletons starting with 1 |
| `Euclid.Euclidean` | seq/euc.py:8-30 | definition of `euc` for every integer input; its length, counts, permutation, degenerate cases, rotation and onsets are the `Euclid.Euclidean*` lemmas below |
| `Euclid.Sweep` | seq/euc.py:16-17 | the remaining folds of one round remove one bucket each; the bucket bound keeps every fold in range |
| `Euclid.Rounds` | seq/euc.py:15-17 | `rounds` rounds of width `w` remove `rounds * w` buckets |
| `Euclid.RemainderRounds` | seq/euc.py:15-19 | after `b // a` rounds of width `a`, exactly `a + b % a` buckets remain, so every later index is in range |
| `Euclid.FoldMoves` | seq/euc.py:17 | a fold keeps the flattened contents as a multiset and keeps the first element |
| `Euclid.RoundsMoves` | seq/euc.py:15-17 | the first merge phase only moves elements between buckets and keeps the first element |
| `Euclid.CollapseMoves` | seq/euc.py:21-27 | the `while b > 1` phase only moves elements and keeps the first element |
| `Euclid.SliceIndex` | seq/euc.py:30 | a slice bound, after Python's normalisation (defined in the body: negative counts from the end, clipped), lies within the list; what the slices then give is stated by `Euclid.Rotate` |
| `Euclid.Rotate` | seq/euc.py:30 | `p[-r:] + p[:-r]` is a permutation of `p`; it is `p` for `r == 0` and for rotations of at least the length either way; for `0 < r < len(p)` it is the last `r` elements then the rest; negative `r` is the mirror case |
| `Euclid.EuclideanLength` | seq/euc.py:8-30 | the pattern has exactly `subdivisions` elements (none when that is negative) |
| `Euclid.UnrotatedMoves` | seq/euc.py:9-29 | the unrotated pattern is a permutation of the initial singletons and starts with 1 |
| `Euclid.MovedFlattens` | seq/euc.py:9-29 | two rearrangements of the buckets in a row flatten to a permutation of the original elements that keeps the first one in front |
| `Euclid.EuclideanPermutesInitial` | seq/euc.py:8-30 | for `0 <= k <= n` the pattern is a permutation of `k` ones and `n - k` zeros |
| `Euclid.EuclideanCounts` | seq/euc.py:8-30 | for `0 <= k <= n` the pattern has exactly `k` ones, `n - k` zeros and nothing else |
| `Euclid.EuclideanDegenerate` | seq/euc.py:9-13 | `onsets <= 0` gives all zeros and `onsets >= subdivisions` all ones, whatever the rotation |
| `Euclid.EuclideanRotation` | seq/euc.py:29-30 | the pattern for rotation `r` is the unrotated one rotated right by `r` for `0 < r < n`, and unchanged for `r == 0` or `r >= n` |
| `Euclid.EuclideanStartsWithOnset` | seq/euc.py:9-29 | with at least one onset, the unrotated pattern starts with 1 |
| `Euclid.EuclideanHasOnset` | seq/euc.py:8-30 | the pattern contains a 1 exactly when `onsets >= 1` and `subdivisions >= 1` |
| `Euclid.Tresillo` | seq/euc.py:8-30 | `euc(3, 8, 0) == [1,0,0,1,0,0,1,0]` |
| `Euclid.TresilloFirstPhase` | seq/euc.py:15-17 | for `euc(3, 8, _)` the `for` phase is one round of width 3, leaving `[[1,0],[1,0],[1,0],[0],[0]]` |
| `Euclid.TresilloSecondPhase` | seq/euc.py:21-27 | the `while` phase then runs one round of width 2 and stops at `b == 1`, leaving `[[1,0,0],[1,0,0],[1,0]]` |
| `Euclid.MergeRounds` | seq/euc.py:15-17 | the nested merge loops compute `Rounds` |
| `Euclid.Euc` | seq/euc.py:8-30 | the generator's loops compute `Euclidean` for every integer input |
| `StepSeq.PyIndex` | seq/stepseq.py:49 | Python list indexing: a non-negative index as is, a negative one from the end, always in range |
| `StepSeq.Rests` | seq/stepseq.py:21 | definition of `[Step() for _ in range(length)]`: `max(length, 0)` rests with velocity 0 |
| `StepSeq.FromPattern` | seq/stepseq.py:23-28 | definition of the steps `init_from_list` leaves: an onset with the default velocity at each non-zero element, a rest elsewhere; stated by `StepSeq.FromPatternOnsets` and `StepSeq.StepSequence.InitFromList` |
| `StepSeq.StepSequence.Length` | seq/stepseq.py:73-74 | `length()`: the number of steps |
| `StepSeq.AnyOnset` | seq/stepseq.py:60-61 | `any(step.onset ...)` holds exactly when some step is an onset |
| `StepSeq.SameRhythmIsOnsetEquality` | seq/stepseq.py:63-71 | two step lists have the same rhythm exactly when their onset flags are equal, ignoring velocities |
| `StepSeq.SameRhythmIsEquivalence` | seq/stepseq.py:63-71 | having the same rhythm is reflexive, symmetric and transitive |
| `StepSeq.FromPatternOnsets` | seq/stepseq.py:23-28 | a step built from a pattern is an onset exactly where the element is non-zero, and some step is an onset exactly when some element is non-zero |
| `StepSeq.Toggled` | seq/stepseq.py:48-49 | toggling flips the onset of step `k` only, keeping its velocity and every other step |
| `StepSeq.ToggleTwice` | seq/stepseq.py:48-49 | toggling a step twice restores the sequence |
| `StepSeq.WithOnset` | seq/stepseq.py:51-53 | setting step `k` makes it an onset with the given velocity and changes no other step |
| `StepSeq.SetStepIdempotent` | seq/stepseq.py:51-53 | setting a step twice is the same as setting it once |
| `StepSeq.Notation` | seq/stepseq.py:46 | one character per step, `x` for an onset and `.` for a rest |
| `StepSeq.StepSequence.constructor` | seq/stepseq.py:15-21 | `length` default steps (none for a negative length) and the metadata as given |
| `StepSeq.StepSequence.InitFromList` | seq/stepseq.py:23-28 | the steps become one per pattern element, onsets with the default velocity where it is non-zero; metadata kept; the object itself is returned |
| `StepSeq.StepSequence.ToggleStep` | seq/stepseq.py:48-49 | the steps become `Toggled` at the Python index, metadata unchanged |
| `StepSeq.StepSequence.SetStep` | seq/stepseq.py:51-53 | the steps become `WithOnset` at the Python index with the given velocity or the default |
| `StepSeq.StepSequence.Add` | seq/stepseq.py:55-58 | exactly one step is appended, with the given onset and velocity or the default |
| `StepSeq.StepSequence.HasOnset` | seq/stepseq.py:60-61 | true exactly when some step is an onset |
| `StepSeq.StepSequence.IsSameRhythm` | seq/stepseq.py:63-71 | true exactly when the other sequence exists, has the same length and the same onset flag at every index |
| `StepSeq.StepSequence.RhythmNotation` | seq/stepseq.py:45-46 | `[`, then `x` or `.` per step, then `]`: two more characters than steps |
| `StepSeq.StepSequence.SetTempo` | seq/stepseq.py:88-89 | only the tempo changes |
| `StepSeq.StepSequence.SetSubdivision` | seq/stepseq.py:94-95 | only the subdivision changes |
| `StepSeq.StepSequence.DeepCopy` | seqmorph/eucmorpher.py:12 | a fresh object with equal steps and metadata |
| `ProbSteps.Clamp` | seqmorph/probsteps.py:35 | `clip(r/100, 0, 1)` lies in `[0, 1]`: 0 for `r <= 0`, 1 for `r >= 100`, `r/100` between |
| `ProbSteps.Sources` | seqmorph/probsteps.py:36 | exactly the inputs that have an onset survive, the base first and the target last, each with its own tag |
| `ProbSteps.OnsetAt` | seqmorph/probsteps.py:104 | definition of `seq[i % len(seq)].onset`, the input read cyclically |
| `ProbSteps.Prev` | seqmorph/probsteps.py:112 | definition of `i - 1` as a Python index: step 0's previous neighbour is the last step |
| `ProbSteps.Next` | seqmorph/probsteps.py:112 | definition of `(i + 1) % length`: the last step's next neighbour is step 0 |
| `ProbSteps.MergedLength` | seqmorph/probsteps.py:36-37 | the merged length is positive and a multiple of the length of every input that has an onset |
| `ProbSteps.MergedLengthEqual` | seqmorph/probsteps.py:36-37 | inputs of one common length merge to that length |
| `ProbSteps.Merge` | seqmorph/probsteps.py:101-109 | the merge has the merged length |
| `ProbSteps.SimpleProbability` | seqmorph/probsteps.py:48-53 | SimpleProbStepAlg's table gives a probability in `[0, 1]` |
| `ProbSteps.V2Probability` | seqmorph/probsteps.py:76-88 | SimpleProbStepAlgV2's table gives a probability in `[0, 1]` |
| `ProbSteps.MegaMorphProbability` | seqmorph/probsteps.py:111-124 | MegaMorphV1's table gives a probability in `[0, 1]` |
| `ProbSteps.Direct100Probability` | seqmorph/probsteps.py:148-155 | DirectMorph100's table gives a probability in `[0, 1]` |
| `ProbSteps.Direct50Probability` | seqmorph/probsteps.py:178-183 | DirectMorph50's table gives a probability in `[0, 1]` |
| `ProbSteps.Rule` | seqmorph/probsteps.py:48-183 | every variant's second loop assigns a probability in `[0, 1]` |
| `ProbSteps.RuleReadsMarks` | seqmorph/probsteps.py:48-183 | the tables read the onset flags and tags of the neighbours, never their probabilities |
| `ProbSteps.MergedProbabilities` | seqmorph/probsteps.py:195-204 | the merge leaves probabilities in `[0, 1]` (TestingNoRandom's `1.00`) |
| `ProbSteps.ProbStepsOf` | seqmorph/probsteps.py:33-206 | the result has the merged length, every probability is in `[0, 1]`, and every step carries the merge's onset flag and tags |
| `ProbSteps.ProbStepMarks` | seqmorph/probsteps.py:101-109 | step `i` is an onset exactly when an input has an onset at `i` modulo its length; tagged variants carry exactly those inputs' tags, so onset holds exactly when tags exist; SimpleProbStepAlg has none |
| `ProbSteps.NoMorphKeepsBase` | seqmorph/probsteps.py:111-183 | at `r <= 0`, MegaMorphV1, DirectMorph100 and DirectMorph50 give probability 1 exactly at base onsets and 0 elsewhere |
| `ProbSteps.NoMorphKeepsOnsets` | seqmorph/probsteps.py:48-204 | at `r <= 0`, SimpleProbStepAlg, SimpleProbStepAlgV2 and TestingNoRandom give probability 1 exactly at merged onsets and 0 elsewhere |
| `ProbSteps.FullMorphDirect100` | seqmorph/probsteps.py:148-155 | at `r >= 100`, DirectMorph100 gives probability 1 exactly at target onsets and 0 elsewhere |
| `ProbSteps.TestingNoRandomIsDeterministic` | seqmorph/probsteps.py:188-206 | TestingNoRandom gives 1 at every onset and 0 at every rest, and the same result for every `r` |
| `ProbSteps.MergeMarks` | seqmorph/probsteps.py:101-109 | step `j` of the merge is an onset exactly where an input has one, and is tagged by exactly those inputs |
| `ProbSteps.OnsetTags` | seqmorph/probsteps.py:101-109 | a step's tags are one of the four subsets of {base, target}, and empty exactly where no input has an onset |
| `ProbSteps.SimpleTable` | seqmorph/probsteps.py:48-53 | on the inputs: `1 - rp/2` at a merged onset, `rp/2` at a rest whose cyclic neighbour (wrapping at both ends) is an onset, 0 elsewhere |
| `ProbSteps.V2Table` | seqmorph/probsteps.py:76-88 | on the inputs: `1 - rp/4` or `1 - rp/2` at an onset with or without the base; `rp/4` or `rp/2` at a rest next to a base onset or another onset; 0 elsewhere |
| `ProbSteps.MegaMorphTable` | seqmorph/probsteps.py:111-124 | on the inputs: both `1 - rp/4`, base only `1 - rp/2`, target only `rp`; a rest `rp/4` next to a both-input onset, else `rp/2` next to a base onset, else 0 |
| `ProbSteps.Direct100Table` | seqmorph/probsteps.py:148-155 | on the inputs: both `max(1 - rp, rp)`, base only `1 - rp`, target only `rp`, rests 0 |
| `ProbSteps.Direct50Table` | seqmorph/probsteps.py:178-183 | on the inputs: a base onset `1 - rp/2`, a target-only onset `rp/2`, rests 0 |
| `ProbSteps.ProbStepAt` | seqmorph/probsteps.py:33-206 | step `i` of the result is step `i` of the merge with the probability its table gives from its cyclic neighbours |
| `ProbSteps.MarkOnsets` | seqmorph/probsteps.py:101-109 | the first loop builds the merge |
| `ProbSteps.MarkStep` | seqmorph/probsteps.py:102-109 | the inner loop marks step `i`, a fresh rest, as the merge's step `i` and changes no other step |
| `ProbSteps.AssignProbabilities` | seqmorph/probsteps.py:111-124 | the second loop gives each step its table's probability from the unchanged marks of its neighbours |
| `ProbSteps.GenerateProbSteps` | seqmorph/probsteps.py:33-206 | `generate_prob_steps` computes `ProbStepsOf`; TestingNoRandom skips the second loop |
| `Morpher.TargetShape` | seqmorph/eucmorpher.py:13-15 | the target has one step per subdivision, an onset exactly where `euc` has a one, and some onset exactly when `onsets >= 1` and `subdivisions >= 1` |
| `Morpher.TargetSteps` | seqmorph/eucmorpher.py:13-15 | definition of the target's steps, `init_from_list(euc(k, n, r))` at the base's default velocity; stated by `Morpher.TargetShape` |
| `Morpher.GeneratedLength` | seqmorph/eucmorpher.py:22-25 | definition of `generate`'s length for a base: the number of probability steps when `num_bars` is None or at most 0, else the base length times `num_bars`; `Morpher.EucMorpher.Generate` uses it through `OutputLength` |
| `Morpher.MorphedSteps` | seqmorph/eucmorpher.py:13-16 | the cached probability steps are never empty |
| `Morpher.Sampled` | seqmorph/eucmorpher.py:27-33 | the generated sequence has the requested length |
| `Morpher.SampledContinues` | seqmorph/eucmorpher.py:29-30 | generating `n1` steps from `p`, then `n2` from `(p + n1) mod L`, reads the same probabilities as generating `n1 + n2` from `p` |
| `Morpher.IndexShift` | seqmorph/eucmorpher.py:29-30 | reading index `i` from `start_pos` is reading index `i - n1` from `(start_pos + n1) mod L` |
| `Morpher.SampledCertainties` | seqmorph/eucmorpher.py:31-32 | with samples in `[0, 1)`, probability 1 always gives an onset with the default velocity, and probability 0 never does |
| `Morpher.TestingNoRandomSampling` | seqmorph/eucmorpher.py:29-32 | with TestingNoRandom, the output is the merged onset pattern read cyclically from `start_pos` |
| `Morpher.DirectMorph100Instance` | seqmorph/probsteps.py:148-155 | base `x...x...`, target `euc(3,8,0)`, `r = 0`: the base onsets get 1 and the target-only onsets at 3 and 6 are marked but get 0 |
| `Morpher.EucMorpher.constructor` | seqmorph/eucmorpher.py:10-16 | the base is a fresh copy; the target is `euc`'s pattern with the base's metadata; the cached steps are `ProbStepsOf` of the two |
| `Morpher.EucMorpher.Generate` | seqmorph/eucmorpher.py:21-33 | on a valid morpher, a fresh sequence with the base's metadata; its steps are sampled from the cached probabilities from `start_pos`, with the length `num_bars` asks for |
| `Morpher.SampleInto` | seqmorph/eucmorpher.py:29-32 | the loop of `generate` turns the rests of `v` into `Sampled`'s steps and keeps `v`'s metadata |
| `Morpher.EucMorpher.CachedSteps` | seqmorph/eucmorpher.py:18-19 | `prob_steps()`: the cached list, which `Valid` ties to `ProbStepsOf` |
| `Morpher.EucMorpher.OutputLength` | seqmorph/eucmorpher.py:22-25 | the length `generate` gives on this morpher's cached steps and base |
| `Morpher.CallerEditsDoNotReachMorpher` | seqmorph/eucmorpher.py:12 | a client: toggling a step of the caller's sequence after construction leaves the morpher valid, with its base and cached steps as they were |
| `Morpher.FillNext` | seqmorph/eucmorpher.py:29-32 | writing the wanted step `i` onto the remaining rests extends the filled prefix by one and leaves rests after it |
| `Midi.TempoMessages` | midi/midiwriter.py:17-21 | a `set_tempo` with the new bpm is emitted exactly when the tempo differs from the recorded one |
| `Midi.Encode` | midi/midiwriter.py:26-34 | definition of the step loop of `add`: a note-on with the pending timer and a note-off one timestep later per onset, the timer reset to 0, and one timestep added per rest; stated by `Midi.EncodePairs`, `Midi.EncodeCounts`, `Midi.EncodeConservesTime`, `Midi.EncodeConcat` and `Midi.DecodeEncode` |
| `Midi.EncodePairs` | midi/midiwriter.py:26-34 | one note-on/note-off pair per onset step, in order: note-on with the step's note and velocity, then note-off one timestep later |
| `Midi.PairedCons` | midi/midiwriter.py:28-31 | a note-on/note-off pair in front of a paired track keeps it paired, with the new velocity first |
| `Midi.EncodeFirst` | midi/midiwriter.py:26-34 | the step loop's first step: an onset writes a pair and resets the timer, a rest adds one timestep |
| `Midi.EncodeCounts` | midi/midiwriter.py:26-31 | the note-on count equals the onset count, and twice that many messages are appended |
| `Midi.EncodeConservesTime` | midi/midiwriter.py:24-34 | the appended delta times plus the final timer equal the starting timer plus one timestep per step |
| `Midi.EncodeConcat` | midi/midiwriter.py:26-34 | encoding two sequences one after the other, carrying the timer, equals encoding their concatenation |
| `Midi.DecodeEncode` | midi/midiwriter.py:26-34 | with a positive timestep, the track and final timer give back the pending rests and the steps (rest velocities are not written) |
| `Midi.MidiWriter.constructor` | midi/midiwriter.py:6-14 | tempo 120, subdivision 4, timestep 120, timer 0, empty track |
| `Midi.MidiWriter.Add` | midi/midiwriter.py:16-34 | tempo and subdivision are recorded, and the timestep is recomputed only on a subdivision change; the track grows by the tempo message and the encoding of the steps from the old timer |
| `Midi.MidiWriter.Play` | midi/midiwriter.py:26-34 | the step loop appends `Encode`'s messages and leaves its timer |
| `Midi.MidiWriter.Save` | midi/midiwriter.py:36-39 | end-of-track with the pending timer is appended, and nothing else changes |
| `Midi.AddTwice` | midi/midiwriter.py:16-34 | a client: two adds at the writer's tempo and subdivision write the encoding of the two sequences concatenated |
| `Control.Advance` | controller.py:46 | the next position is in `[0, L)`, and is `start + count` when that stays below `L` |
| `Control.MorphAndGenerate` | controller.py:38-45 | the morpher built for the base gives a fresh sequence sampled from `start` and the number of probability steps |
| `Control.BaseSequence` | controller.py:37 | the base is a fresh sequence with the form's pattern at default velocity 100 and the form's note, tempo and subdivision |
| `Control.Controller.constructor` | controller.py:11-14 | position 0, previous parameters `(-1, -1, -1)`, no previous sequence, a fresh writer |
| `Control.Controller.Restart` | controller.py:40-43 | the start position is the stored one exactly when the Euclidean parameters and the base rhythm equal the previous call's, and 0 otherwise; it becomes the stored position |
| `Control.Controller.HandleGenerate` | controller.py:37-51 | the output is sampled from the morphed steps and carries the form's note, tempo and subdivision with default velocity 100; restarts at 0 exactly unless `(k, n, r)` and the base rhythm equal the previous call's; advances the position cyclically by the output length into `[0, L)`; records the current parameters and sequence; the writer takes the form's tempo and subdivision, recomputes its timestep only on a subdivision change, and appends the tempo message and the output's encoding from its old timer, whose final timer it keeps |
| `Control.Controller.HandleSave` | controller.py:63-67 | the finished track (with end-of-track) is returned and a new writer replaces the old; the position state is unchanged |
| `Control.Controller.HandleClear` | controller.py:69-70 | a new writer replaces the old; the position state is unchanged |
| `Control.ContinueAcrossCalls` | controller.py:40-46 | a client: a first call starts at 0, and a second with the same `(k, n, r)` and rhythm starts where the first stopped, across a save and other settings, and the writer then holds the second call's tempo, subdivision and timestep |
| `Control.RestartOnNewParameters` | controller.py:40-41 | a client: a second call with another rotation starts at 0 |

## Left out

- gui.py and main.py: the Tk widgets and the entry point. The only effect of gui.py's
  clamping is on the inputs, which the model takes unconstrained.
- The controller's reads of Tk variables and its debug printing (controller.py:24-35,
  53-61) are not modelled. Its digit-string parsing (controller.py:37) is not modelled
  either: `HandleGenerate` takes the parsed pattern as a list of integers.
- mido is not modelled: `MidiFile.save`, the file name, `bpm2tempo` and the concrete
  message classes. `set_tempo` keeps the bpm, so a tempo of 0, which `bpm2tempo` rejects,
  is not excluded. `MidiWriter.print` is left out too.
- `random()` is not modelled. `Generate` takes the samples it would have drawn, and the
  lemmas about certainty require them to lie in `[0, 1)`. Each step is sampled
  independently of the others, as in the source.
- `np.clip` and `np.lcm.reduce` are replaced by the model's own `Clamp` and `LcmAll`.
- Numbers.Lcm, Numbers.LcmAll, ProbSteps.MergedLength: state a positive common multiple
  (at most the product, for `Lcm`), not that it is the least one; the merged length is
  therefore not proved minimal.
- Probabilities are reals, not floats: the model does no rounding.
- `__str__`, `seq_string`, `ProbStep.__str__` and `str_list` are debug text and are left out.
- The merge where neither input has an onset is excluded by `Mergeable`. There the
  source takes `np.lcm.reduce` of an empty list, which fails inside `generate_prob_steps`,
  so the morpher's constructor fails and `generate` is never reached.
- `seq is s.sequence()` (object identity) is modelled as the input position, base or
  target. When both arguments are the same list, the source tags a step with both tags.
  That case does not arise from the morpher, whose target is always a new sequence.
- SimpleProbStepAlg builds its merge with a different loop shape (test then append a finished step); it
  shares the other variants' merge loop in the model, which gives the same steps.
- `ProbSteps.Rule` assigns 0 where the source leaves a step's initial 0.0; the results are equal.
- Morpher.EucMorpher.Generate: requires a valid morpher, whose probability list is never
  empty. The source also survives an empty list when the length is zero.
- Control.Controller.HandleGenerate: requires a non-zero subdivision; the writer's
  `480 // subdivision` fails on 0.
- Midi.MidiWriter.Add: requires a non-zero subdivision; the ZeroDivisionError that
  `ticks_per_beat // self._subdivision` raises on 0 (midi/midiwriter.py:24) is not modelled.
- StepSeq.StepSequence.ToggleStep: requires `-len <= index < len`; the IndexError that
  `self._sequence[index]` raises outside that range (seq/stepseq.py:49) is not modelled.
- StepSeq.StepSequence.SetStep: requires `-len <= index < len`; the IndexError that
  `self._sequence[index]` raises outside that range (seq/stepseq.py:52) is not modelled.
