/**
 * The integer and index structure of tone synthesis: how many samples a
 * tone has, the fade-in/fade-out envelope written into an array, the
 * conversion to 16-bit stereo frames, and the 16-bit sum used to play two
 * tones at once.
 */
module Synth {
  import opened Wrappers

  /** Samples per second. */
  const SampleRate: nat := 44100

  /** Fade-in window: int(44100 * 0.05) samples. */
  const Attack: nat := 2205

  /** Fade-out window: int(44100 * 0.1) samples. */
  const Release: nat := 4410

  /** Full scale of a signed 16-bit sample. */
  const Int16Max: int := 32767
  const Int16Min: int := -32768

  /** Length of a tone played in sequence, and of a tone played as a chord. */
  const ToneSeconds: real := 0.8
  const ChordSeconds: real := 1.0

  /** Volume every tone is generated at. */
  const DefaultVolume: real := 0.5

  /** Python's `int(x)` on a float: truncation toward zero. */
  function Truncate(x: real): (r: int)
    ensures 0.0 <= x ==> r as real <= x < r as real + 1.0
    ensures x <= 0.0 ==> r as real - 1.0 < x <= r as real
  {
    if 0.0 <= x then x.Floor else -((-x).Floor)
  }

  function Abs(x: int): int {
    if x < 0 then -x else x
  }

  /** Number of samples of a tone lasting `seconds`: int(sample_rate * duration). */
  function SampleCount(seconds: real): (n: nat)
    requires 0.0 <= seconds
    ensures n as real <= SampleRate as real * seconds < n as real + 1.0
  {
    Truncate(SampleRate as real * seconds)
  }

  /** The window sizes are the sample counts of 50 ms and 100 ms, and the two tone lengths hold 35280 and 44100 samples. */
  lemma WindowSizes()
    ensures Attack == SampleCount(0.05) && Release == SampleCount(0.1)
    ensures SampleCount(ToneSeconds) == 35280 && SampleCount(ChordSeconds) == 44100
    ensures Attack + Release <= SampleCount(ToneSeconds) <= SampleCount(ChordSeconds)
  {
  }

  /** Value i of linspace(0, 1, Attack). */
  function FadeIn(i: int): (g: real)
    requires 0 <= i < Attack
    ensures 0.0 <= g <= 1.0
    ensures g == 0.0 <==> i == 0
    ensures g == 1.0 <==> i == Attack - 1
  {
    i as real / (Attack - 1) as real
  }

  /** Value j of linspace(1, 0, Release). */
  function FadeOut(j: int): (g: real)
    requires 0 <= j < Release
    ensures 0.0 <= g <= 1.0
    ensures g == 1.0 <==> j == 0
    ensures g == 0.0 <==> j == Release - 1
  {
    (Release - 1 - j) as real / (Release - 1) as real
  }

  /**
   * Gain at index i of the envelope of an n-sample tone: all ones, then the
   * first Attack entries overwritten by the fade-in, then the last Release
   * entries overwritten by the fade-out (which wins where the two overlap).
   */
  function EnvelopeAt(n: nat, i: nat): (g: real)
    requires Release <= n && i < n
    ensures 0.0 <= g <= 1.0
  {
    if n - Release <= i then FadeOut(i - (n - Release))
    else if i < Attack then FadeIn(i)
    else 1.0
  }

  /** Shape of the envelope of a tone long enough for both windows (every tone the trainer plays). */
  lemma EnvelopeShape(n: nat)
    requires Attack + Release <= n
    ensures EnvelopeAt(n, 0) == 0.0 && EnvelopeAt(n, n - 1) == 0.0
    ensures EnvelopeAt(n, Attack - 1) == 1.0 && EnvelopeAt(n, n - Release) == 1.0
    ensures forall i :: Attack <= i < n - Release ==> EnvelopeAt(n, i) == 1.0
    ensures forall i, k :: 0 <= i < k < Attack ==> EnvelopeAt(n, i) < EnvelopeAt(n, k)
    ensures forall i, k :: n - Release <= i < k < n ==> EnvelopeAt(n, i) > EnvelopeAt(n, k)
  {
  }

  /**
   * Builds the envelope in place: an array of ones whose front slice is
   * overwritten with the fade-in and whose back slice with the fade-out.
   */
  method BuildEnvelope(n: nat) returns (envelope: array<real>)
    requires Release <= n
    ensures fresh(envelope)
    ensures envelope.Length == n
    ensures forall i :: 0 <= i < n ==> envelope[i] == EnvelopeAt(n, i)
  {
    envelope := new real[n](_ => 1.0);
    forall i | 0 <= i < Attack {
      envelope[i] := FadeIn(i);
    }
    forall j | 0 <= j < Release {
      envelope[n - Release + j] := FadeOut(j);
    }
  }

  /** One stereo frame of 16-bit samples. */
  datatype Frame = Frame(left: int, right: int)

  /** Why a tone could not be generated: a fade slice is longer than the tone. */
  datatype WaveError = FadeInDoesNotFit | FadeOutDoesNotFit

  /** Raw waveform values stay within full scale. */
  ghost predicate Normalised(raw: seq<real>) {
    forall i :: 0 <= i < |raw| ==> -1.0 <= raw[i] <= 1.0
  }

  /** Every sample of every channel has magnitude at most `peak`. */
  ghost predicate PeakWithin(frames: seq<Frame>, peak: int) {
    forall i :: 0 <= i < |frames| ==> Abs(frames[i].left) <= peak && Abs(frames[i].right) <= peak
  }

  /** A sample in [-1, 1] scaled to 16 bits and truncated toward zero. */
  function Quantize(x: real): (sample: int)
    ensures -1.0 <= x <= 1.0 ==> -Int16Max <= sample <= Int16Max
    ensures x == 0.0 ==> sample == 0
  {
    Truncate(x * 32767.0)
  }

  /** Multiplying by a non-negative factor k keeps a value of [-1, 1] within [-k, k]. */
  lemma UnitScale(a: real, k: real)
    requires -1.0 <= a <= 1.0 && 0.0 <= k
    ensures -k <= a * k && a * k <= k
  {
    assert (1.0 - a) * k >= 0.0;
    assert (1.0 + a) * k >= 0.0;
  }

  /** Truncation toward zero never increases magnitude, and is monotone. */
  lemma TruncateWithin(x: real, top: real)
    requires -top <= x <= top
    ensures Abs(Truncate(x)) <= Truncate(top)
  {
  }

  /** The 16-bit sample for waveform value w under envelope gain `gain` at volume `volume`. */
  function Sample(w: real, gain: real, volume: real): (sample: int)
    ensures w == 0.0 || gain == 0.0 || volume == 0.0 ==> sample == 0
  {
    Quantize(w * gain * volume)
  }

  /** A waveform value in [-1, 1] times a gain in [0, 1] times a volume lies within [-volume, volume]. */
  lemma ProductWithin(w: real, gain: real, volume: real)
    requires -1.0 <= w <= 1.0 && 0.0 <= gain <= 1.0 && 0.0 <= volume
    ensures -volume <= w * gain * volume <= volume
  {
    UnitScale(w, gain);
    UnitScale(w * gain, volume);
  }

  /** A value within [-volume, volume] quantises to at most the volume's full-scale sample in magnitude. */
  lemma QuantizeWithin(x: real, volume: real)
    requires -volume <= x <= volume
    ensures Abs(Quantize(x)) <= Quantize(volume)
  {
    TruncateWithin(x * 32767.0, volume * 32767.0);
  }

  /** A waveform sample scaled by a gain in [0, 1] and a volume stays within the volume's full scale. */
  lemma QuantizeBound(w: real, gain: real, volume: real)
    requires -1.0 <= w <= 1.0 && 0.0 <= gain <= 1.0 && 0.0 <= volume
    ensures Abs(Sample(w, gain, volume)) <= Quantize(volume)
  {
    ProductWithin(w, gain, volume);
    QuantizeWithin(w * gain * volume, volume);
  }

  /** A tone at volume 0.5 peaks at 16383. */
  lemma HalfVolumePeak()
    ensures Quantize(DefaultVolume) == 16383
  {
  }

  /**
   * The stereo 16-bit buffer of a tone. `raw` holds the waveform value at
   * each sample time (sine, square, sawtooth or triangle of the tone's
   * frequency); `seconds` and `volume` are the tone's duration and volume.
   */
  method GenerateWave(raw: seq<real>, seconds: real, volume: real) returns (r: Result<seq<Frame>, WaveError>)
    requires 0.0 <= seconds && 0.0 <= volume <= 1.0
    requires |raw| == SampleCount(seconds)
    requires Normalised(raw)
    ensures r.Failure? <==> |raw| < Release
    ensures r == Failure(FadeInDoesNotFit) <==> |raw| < Attack
    ensures r.Success? ==> |r.value| == |raw|
    ensures r.Success? ==> forall i :: 0 <= i < |raw| ==>
      var sample := Sample(raw[i], EnvelopeAt(|raw|, i), volume);
      r.value[i] == Frame(sample, sample)
    ensures r.Success? ==> PeakWithin(r.value, Quantize(volume))
    ensures r.Success? && Attack + Release <= |raw| ==> r.value[0] == Frame(0, 0) && r.value[|raw| - 1] == Frame(0, 0)
  {
    var n := SampleCount(seconds);
    if n < Attack {
      return Failure(FadeInDoesNotFit);
    }
    if n < Release {
      return Failure(FadeOutDoesNotFit);
    }
    var envelope := BuildEnvelope(n);
    var gain := envelope[..];
    var audio := seq(n, i requires 0 <= i < n => Sample(raw[i], gain[i], volume));
    forall i | 0 <= i < n ensures Abs(audio[i]) <= Quantize(volume) {
      QuantizeBound(raw[i], gain[i], volume);
    }
    if Attack + Release <= n {
      EnvelopeShape(n);
    }
    r := Success(seq(n, i requires 0 <= i < n => Frame(audio[i], audio[i])));
  }

  /** numpy's int16 addition: the exact sum wrapped into [-32768, 32767]. */
  function Wrap16(x: int): (r: int)
    ensures Int16Min <= r <= Int16Max
    ensures (r - x) % 65536 == 0
  {
    (x - Int16Min) % 65536 + Int16Min
  }

  /** A value already in the 16-bit range is left alone by the wrap. */
  lemma Wrap16InRange(x: int)
    requires Int16Min <= x <= Int16Max
    ensures Wrap16(x) == x
  {
  }

  /** Frame-wise int16 sum of two equally long buffers. */
  function MixFrames(a: seq<Frame>, b: seq<Frame>): (m: seq<Frame>)
    requires |a| == |b|
    ensures |m| == |a|
    ensures forall i :: 0 <= i < |m| ==>
      Int16Min <= m[i].left <= Int16Max && Int16Min <= m[i].right <= Int16Max
    ensures (forall i :: 0 <= i < |a| ==> a[i].left == a[i].right && b[i].left == b[i].right) ==>
      forall i :: 0 <= i < |m| ==> m[i].left == m[i].right
  {
    seq(|a|, i requires 0 <= i < |a| =>
      Frame(Wrap16(a[i].left + b[i].left), Wrap16(a[i].right + b[i].right)))
  }

  /** Two buffers at volume 0.5 sum without wrapping: each mixed sample is the exact sum and stays within 32766. */
  lemma {:induction false} MixWithoutOverflow(a: seq<Frame>, b: seq<Frame>)
    requires |a| == |b|
    requires PeakWithin(a, 16383) && PeakWithin(b, 16383)
    ensures forall i :: 0 <= i < |a| ==>
      MixFrames(a, b)[i] == Frame(a[i].left + b[i].left, a[i].right + b[i].right)
    ensures PeakWithin(MixFrames(a, b), 2 * 16383)
  {
    forall i | 0 <= i < |a|
      ensures MixFrames(a, b)[i] == Frame(a[i].left + b[i].left, a[i].right + b[i].right)
    {
      Wrap16InRange(a[i].left + b[i].left);
      Wrap16InRange(a[i].right + b[i].right);
    }
  }

  /**
   * The buffer played in harmonic mode: both tones generated for 1.0 s at
   * volume 0.5 and summed sample by sample as int16.
   */
  method RenderChord(raw1: seq<real>, raw2: seq<real>) returns (r: Result<seq<Frame>, WaveError>)
    requires |raw1| == SampleCount(ChordSeconds) && |raw2| == SampleCount(ChordSeconds)
    requires Normalised(raw1) && Normalised(raw2)
    ensures r.Success? && |r.value| == SampleCount(ChordSeconds)
    ensures forall i :: 0 <= i < |r.value| ==>
      var g := EnvelopeAt(|raw1|, i);
      var sample := Sample(raw1[i], g, DefaultVolume) + Sample(raw2[i], g, DefaultVolume);
      r.value[i] == Frame(sample, sample)
    ensures PeakWithin(r.value, 32766)
  {
    WindowSizes();
    HalfVolumePeak();
    var sound1 := GenerateWave(raw1, ChordSeconds, DefaultVolume);
    var sound2 := GenerateWave(raw2, ChordSeconds, DefaultVolume);
    MixWithoutOverflow(sound1.value, sound2.value);
    r := Success(MixFrames(sound1.value, sound2.value));
  }
}
