# Ear trainer: verified model of the quiz core

A Dafny model of the core of an ear-training quiz. The program plays two
tones a random interval apart and the user names the interval. The model
covers:

- **Catalog**: the twelve intervals, from minor second (1 semitone) to
  octave (12). Also the filter that turns the interval checkboxes into the
  list of intervals a question may use (`get_active_intervals`).
- **Synth**: the integer and index structure of `generate_wave`. This is the
  sample count `int(44100 * duration)`, the envelope, and the 16-bit stereo
  frames. The envelope is an array of ones. Its first 2205 entries are
  overwritten with a fade-in and its last 4410 with a fade-out. The module
  also covers the int16 sum of two 0.5-volume tones played as a chord.
- **Playback**: the mode string decides the playback order. If it contains
  "和声" both tones play together. Otherwise, if it contains "下行", the
  target plays before the root. Otherwise the root plays before the target.
  The result is a list of play/wait instructions.
- **Trainer**: the session state of `EarTrainerApp` as a class `EarTrainer`.
  Its fields are `currentAnswer`, `lastFreqs`, `historyCorrect` and
  `historyTotal`. The session is a two-state machine: it awaits either a
  question or an answer. `PlayNewInterval`, `Replay` and `CheckAnswer` are
  its methods, and `Valid()` is the invariant they keep.

Inputs the program gets from the UI or the runtime become parameters:

- the checkbox flags (`map<int, bool>`);
- the mode string;
- the raw waveform values (`seq<real>` in [-1, 1]).

The two random picks (`random.randint(48, 72)` and `random.choice(active)`)
are nondeterministic choices (`:|`) limited to the same ranges. A frequency
is represented by the MIDI note it is computed from (`Freq.FromMidi`). The
model does not compute the float in Hz.

Two behaviours of the program are worth stating plainly:

- Replay does nothing whenever no answer is awaited. That includes the time
  after an answer was scored, while `last_freqs` is still set
  (ear_training.py:202-203).
- The sample count and each sample are truncated by `int(...)` and
  `astype(np.int16)`, not rounded.

## Model

| member | source | states |
|---|---|---|
| `Catalog.IntervalName` | ear_training.py:23-36 | The name returned is the catalog's entry for the interval. It differs from the name of every other interval, so the reported name identifies the correct answer. |
| `Catalog.NamesDistinct` | ear_training.py:23-36 | The twelve display names are pairwise different. |
| `Catalog.CheckedFrom` | ear_training.py:174-175 | The checked semitones from `from` to 12. A semitone is listed iff it is in that range and its flag is set. The list is strictly increasing. |
| `Catalog.ActiveIntervals` | ear_training.py:174-175 | The active list holds exactly the semitones 1..12 whose checkbox is ticked. They are in catalog order, without duplicates, and there are at most 12. |
| `Catalog.AllCheckedIsWholeCatalog` | ear_training.py:79-81 | With every box ticked (the start-up default), the active list is 1, 2, ..., 12. |
| `Synth.Truncate` | ear_training.py:134 | Python's `int()` on a float truncates toward zero. For x ≥ 0 it is the largest integer ≤ x. For x ≤ 0 it is the smallest integer ≥ x. |
| `Synth.SampleCount` | ear_training.py:134 | The sample count is the floor of 44100 × duration. |
| `Synth.WindowSizes` | ear_training.py:153-154 | The fade-in is 2205 samples (50 ms) and the fade-out 4410 samples (100 ms). A 0.8 s tone has 35280 samples and a 1.0 s tone 44100. Both are long enough for the two windows. |
| `Synth.FadeIn` | ear_training.py:158 | The fade-in ramp `linspace(0, 1, 2205)` stays in [0, 1]. It is 0 exactly at its first index and 1 exactly at its last. |
| `Synth.FadeOut` | ear_training.py:160 | The fade-out ramp `linspace(1, 0, 4410)` stays in [0, 1]. It is 1 exactly at its first index and 0 exactly at its last. |
| `Synth.EnvelopeAt` | ear_training.py:156-160 | The envelope gain is always in [0, 1]. |
| `Synth.EnvelopeShape` | ear_training.py:156-160 | For a tone that holds both windows, the gain is 0 at the first and the last sample. It rises strictly over [0, 2205) to 1, is 1 in between, and falls strictly from 1 over the last 4410 samples. |
| `Synth.BuildEnvelope` | ear_training.py:156-160 | The array built in place has n entries, and entry i is the envelope gain at i. |
| `Synth.Quantize` | ear_training.py:165 | A value in [-1, 1] scaled by 32767 and truncated lies in [-32767, 32767], so the int16 cast never wraps. Zero maps to 0. |
| `Synth.Sample` | ear_training.py:162-165 | The 16-bit sample of waveform × gain × volume is 0 whenever the waveform value, the gain or the volume is 0. |
| `Synth.QuantizeBound` | ear_training.py:162-165 | A waveform value in [-1, 1] times a gain in [0, 1] times a volume quantises to at most the volume's full-scale sample in magnitude. |
| `Synth.HalfVolumePeak` | ear_training.py:132 | At the default volume 0.5 the full-scale sample is 16383. |
| `Synth.GenerateWave` | ear_training.py:132-167 | The wave has int(44100 × duration) frames. The two channels are equal, and each sample is the quantised product of waveform, envelope gain and volume. No sample exceeds the volume's peak. For a tone that holds both windows (at least 6615 samples, which covers every tone the trainer plays), the first and last frames are silent. A tone shorter than a fade window fails: the numpy slice assignment raises. |
| `Synth.Wrap16` | ear_training.py:217 | numpy int16 addition gives a value in [-32768, 32767] that is congruent to the exact sum modulo 65536. |
| `Synth.MixFrames` | ear_training.py:217 | The int16 sum of two equally long buffers has their length. Every channel stays in [-32768, 32767], and equal channels stay equal. |
| `Synth.MixWithoutOverflow` | ear_training.py:217 | Summing two buffers whose samples are within 16383 never wraps. Each mixed sample is the exact sum, at most 32766 in magnitude. |
| `Synth.RenderChord` | ear_training.py:215-218 | The harmonic buffer has 44100 frames with equal channels. Each sample is the sum of the two tones' 0.5-volume samples and stays within 32766. |
| `Playback.Contains` | ear_training.py:215-219 | Python's substring test: a prefix is always found, and nothing longer than the string is found. |
| `Playback.OrderOf` | ear_training.py:215-224 | The order is Harmonic iff "和声" occurs in the mode. It is Descending iff "和声" does not occur and "下行" does. Otherwise it is Ascending. |
| `Playback.ContainsIffOccurs` | ear_training.py:215-219 | Python's substring test `m in mode` holds exactly when m occurs at some index of mode. |
| `Playback.PlaybackPlan` | ear_training.py:206-228 | If the harmonic marker occurs, both tones play together for 1.0 s, whatever else the mode holds. Otherwise, if the descending marker occurs, the target starts, then the root starts 0.6 s later. Otherwise the root starts, then the target starts 0.6 s later. Sequential tones last 0.8 s, so they overlap. |
| `Playback.UnmarkedIsAscending` | ear_training.py:215-228 | A mode string containing neither the character 和 nor the character 下 plays root then target. |
| `Playback.AscendingModeOrder` | ear_training.py:66-67 | The menu entry "上行 (Ascending)" selects ascending order. |
| `Playback.DescendingModeOrder` | ear_training.py:66-67 | The menu entry "下行 (Descending)" selects descending order. |
| `Playback.HarmonicModeOrder` | ear_training.py:66-67 | The menu entry "和声 (Harmonic)" selects harmonic order. |
| `Trainer.EarTrainer.constructor` | ear_training.py:46-48 | A new session has no live question and a score of 0 / 0. |
| `Trainer.EarTrainer.PlayNewInterval` | ear_training.py:177-199 | With nothing ticked, it warns and changes no field. Otherwise it sets the answer to a member of the active list and the root to a note in [48, 72]. The target is root + answer, so it lies in [49, 84]. It records both tones, leaves the counters alone, and returns the playback plan. An unanswered earlier question is replaced without being scored. |
| `Trainer.EarTrainer.Replay` | ear_training.py:201-204 | With no live question it plays nothing. Otherwise it replays exactly the recorded tones. It never changes state. |
| `Trainer.EarTrainer.CheckAnswer` | ear_training.py:232-249 | With no live question it changes nothing. Otherwise the total rises by exactly 1, and the correct count rises by 1 iff the guess equals the answer. The question is closed, and the feedback names the correct interval. `Valid()` keeps correct ≤ total and keeps the tones recorded while a question is live. |
| `Trainer.ScoreOneTrial` | ear_training.py:232-249 | On a fresh session, one question answered twice scores exactly once. The total is 1, and the correct count is 1 iff the guess matched an answer drawn from the active list. |

## Left out

- The tkinter UI is not modelled: window layout, option menus, checkbox and answer-button grids (`create_ui`, `refresh_answer_buttons`), label texts and colours, and the warning dialog. The warning becomes the `NoIntervalsSelected` error.
- The score percentage in the score label (integer part of a float division) is display text only.
- pygame mixer initialisation, `play_sound_data` and `make_sound` are foreign audio calls. Playback is modelled as the returned instruction list.
- The playback thread and the 0.6 s `time.sleep` are not modelled. Only the order of the play instructions is kept, and the sleep is a `Wait` instruction.
- Playback timing is not modelled. Starting a tone does not block: `play_sound_data` returns once playback has started. So the second tone starts 0.6 s after the first, while the first (0.8 s) is still sounding. The model records only the start order and the 0.6 s start-to-start delay, not the overlap in time.
- The waveform formulas (sine, square, sawtooth, triangle), the time axis `np.linspace(0, duration, n, False)` and the MIDI-to-Hz conversion are float numerics. Waveform values are a parameter in [-1, 1], and frequencies are their MIDI notes.
- The trainer methods do not render samples. They return instructions, and `Synth.GenerateWave` and `Synth.RenderChord` describe the buffers those instructions produce.
- `random.randint` and `random.choice` are modelled as nondeterministic choices in their ranges, without their distribution.
- Synth.Truncate: reals stand in for floats. `int(44100 * d)`, the `linspace` ramps and the sample products are exact, so float rounding at the last bit is not modelled. For the durations used (0.8 s, 1.0 s, 50 ms, 100 ms) the counts agree with the float computation.
- Synth.GenerateWave: int16 wrap-around in `astype(np.int16)` is not modelled. For waveform values in [-1, 1] and volume ≤ 1 the product is within ±32767, so the cast never wraps.
