/**
 * What a trial plays and in which order: the mode string picks harmonic,
 * descending or ascending playback of the root and target tones.
 */
module Playback {
  import opened Synth

  /**
   * A tone frequency, identified by the MIDI note it is computed from
   * (440 * 2^((midi - 69) / 12) Hz; the conversion is strictly increasing,
   * so distinct notes give distinct frequencies).
   */
  datatype Freq = FromMidi(midi: int)

  /**
   * One step of a playback sequence handed to the audio output. Starting a
   * tone does not wait for it to finish, so `Wait` separates the start of
   * one tone from the start of the next.
   */
  datatype Instruction =
    | Play(tone: Freq, seconds: real)                         // start one tone
    | Wait(seconds: real)                                     // wait this long after starting the previous tone
    | PlayTogether(first: Freq, second: Freq, seconds: real)  // start both tones mixed into one buffer

  /** The three playback orders. */
  datatype Order = Ascending | Descending | Harmonic

  /** Mode-string markers: "harmonic" and "descending". */
  const HarmonicMarker: string := "和声"
  const DescendingMarker: string := "下行"

  /** The three entries of the mode menu. */
  const AscendingMode: string := "上行 (Ascending)"
  const DescendingMode: string := "下行 (Descending)"
  const HarmonicMode: string := "和声 (Harmonic)"

  /** Delay between the starts of the two tones of a sequential trial (shorter than a tone, so they overlap). */
  const GapSeconds: real := 0.6

  /** `sub in s` on strings: scans s for sub, one start position at a time. */
  function Contains(s: string, sub: string): (found: bool)
    ensures sub <= s ==> found
    ensures found ==> |sub| <= |s|
    decreases |s|
  {
    if sub <= s then true
    else if s == [] then false
    else Contains(s[1..], sub)
  }

  /** sub occurs in s starting at index i. */
  ghost predicate OccursAt(s: string, sub: string, i: int) {
    0 <= i && i + |sub| <= |s| && s[i..i + |sub|] == sub
  }

  /** The scan finds sub exactly when sub occurs somewhere in s. */
  lemma {:induction false} ContainsIffOccurs(s: string, sub: string)
    ensures Contains(s, sub) <==> exists i :: OccursAt(s, sub, i)
    decreases |s|
  {
    if sub <= s {
      assert s[0..|sub|] == sub;
      assert OccursAt(s, sub, 0);
    } else if s == [] {
      assert sub != [];
    } else {
      ContainsIffOccurs(s[1..], sub);
      if Contains(s[1..], sub) {
        var i :| OccursAt(s[1..], sub, i);
        assert s[i + 1..i + 1 + |sub|] == s[1..][i..i + |sub|];
        assert OccursAt(s, sub, i + 1);
      } else {
        forall i ensures !OccursAt(s, sub, i) {
          if i == 0 {
            assert |sub| <= |s| ==> s[0..|sub|] != sub;
          } else if 0 < i && i + |sub| <= |s| {
            assert s[1..][i - 1..i - 1 + |sub|] == s[i..i + |sub|];
            assert !OccursAt(s[1..], sub, i - 1);
          }
        }
      }
    }
  }

  /** A string lacking the first character of sub does not contain sub. */
  lemma AbsentLead(s: string, sub: string)
    requires sub != [] && sub[0] !in s
    ensures !Contains(s, sub)
  {
    ContainsIffOccurs(s, sub);
    forall i ensures !OccursAt(s, sub, i) {
      if 0 <= i < |s| { assert s[i] in s; }
    }
  }

  /** A string that starts with sub contains it. */
  lemma StartsWith(s: string, sub: string)
    requires sub <= s
    ensures Contains(s, sub)
  {
  }

  /** The playback order a mode string selects: harmonic is tested first, then descending. */
  function OrderOf(mode: string): (order: Order)
    ensures order == Harmonic <==> exists i :: OccursAt(mode, HarmonicMarker, i)
    ensures order == Descending <==>
      (!exists i :: OccursAt(mode, HarmonicMarker, i)) && exists i :: OccursAt(mode, DescendingMarker, i)
  {
    ContainsIffOccurs(mode, HarmonicMarker);
    ContainsIffOccurs(mode, DescendingMarker);
    if Contains(mode, HarmonicMarker) then Harmonic
    else if Contains(mode, DescendingMarker) then Descending
    else Ascending
  }

  /** A mode holding neither marker's first character plays in ascending order. */
  lemma UnmarkedIsAscending(mode: string)
    requires HarmonicMarker[0] !in mode && DescendingMarker[0] !in mode
    ensures OrderOf(mode) == Ascending
  {
    AbsentLead(mode, HarmonicMarker);
    AbsentLead(mode, DescendingMarker);
  }

  /** The menu's ascending entry selects ascending order. */
  lemma AscendingModeOrder()
    ensures OrderOf(AscendingMode) == Ascending
  {
    UnmarkedIsAscending(AscendingMode);
  }

  /** The menu's descending entry selects descending order. */
  lemma DescendingModeOrder()
    ensures OrderOf(DescendingMode) == Descending
  {
    AbsentLead(DescendingMode, HarmonicMarker);
    StartsWith(DescendingMode, DescendingMarker);
  }

  /** The menu's harmonic entry selects harmonic order. */
  lemma HarmonicModeOrder()
    ensures OrderOf(HarmonicMode) == Harmonic
  {
    StartsWith(HarmonicMode, HarmonicMarker);
  }

  /**
   * The instructions a trial with root tone f1 and target tone f2 plays
   * under `mode`: both tones at once when the harmonic marker occurs in the
   * mode (whatever else it holds), target then root when only the
   * descending marker occurs, root then target otherwise.
   */
  function PlaybackPlan(mode: string, f1: Freq, f2: Freq): (plan: seq<Instruction>)
    ensures (exists i :: OccursAt(mode, HarmonicMarker, i)) ==>
      plan == [PlayTogether(f1, f2, ChordSeconds)]
    ensures (!exists i :: OccursAt(mode, HarmonicMarker, i)) && (exists i :: OccursAt(mode, DescendingMarker, i)) ==>
      plan == [Play(f2, ToneSeconds), Wait(GapSeconds), Play(f1, ToneSeconds)]
    ensures (!exists i :: OccursAt(mode, HarmonicMarker, i)) && (!exists i :: OccursAt(mode, DescendingMarker, i)) ==>
      plan == [Play(f1, ToneSeconds), Wait(GapSeconds), Play(f2, ToneSeconds)]
  {
    match OrderOf(mode)
    case Harmonic => [PlayTogether(f1, f2, ChordSeconds)]
    case Descending => [Play(f2, ToneSeconds), Wait(GapSeconds), Play(f1, ToneSeconds)]
    case Ascending => [Play(f1, ToneSeconds), Wait(GapSeconds), Play(f2, ToneSeconds)]
  }
}
