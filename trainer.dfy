/**
 * The quiz session: one live trial at most, and a running score.
 * The session is either awaiting a question (no live trial) or awaiting
 * an answer (a live trial whose interval is `currentAnswer`).
 */
module Trainer {
  import opened Wrappers
  import opened Catalog
  import opened Playback

  /** Range of root notes a question draws from: C3 to C5. */
  const LowestRoot: int := 48
  const HighestRoot: int := 72

  /** Why no question was started. */
  datatype TrialError = NoIntervalsSelected

  /** What the status line reports after an answer is scored. */
  datatype Feedback = Feedback(correct: bool, answerName: string)

  /** A root and a target tone that form a question whose interval is `semitones`. */
  ghost predicate IsTrial(freqs: (Freq, Freq), semitones: int) {
    && InCatalog(semitones)
    && LowestRoot <= freqs.0.midi <= HighestRoot
    && freqs.1.midi == freqs.0.midi + semitones
  }

  class EarTrainer {
    /** The interval of the live trial, or None when no answer is awaited. */
    var currentAnswer: Option<int>
    /** Root and target tone of the last question asked (absent before the first). */
    var lastFreqs: Option<(Freq, Freq)>
    var historyCorrect: nat
    var historyTotal: nat

    /** Session invariant: never more correct answers than answers, and a live trial has its tones recorded. */
    ghost predicate Valid()
      reads this
    {
      && historyCorrect <= historyTotal
      && (currentAnswer.Some? ==> lastFreqs.Some? && IsTrial(lastFreqs.value, currentAnswer.value))
    }

    /** A fresh session: no trial, score 0 / 0. */
    constructor ()
      ensures Valid()
      ensures currentAnswer == None && lastFreqs == None
      ensures historyCorrect == 0 && historyTotal == 0
    {
      currentAnswer := None;
      lastFreqs := None;
      historyCorrect := 0;
      historyTotal := 0;
    }

    /**
     * Starts a question: picks a root note in [48, 72] and an interval from
     * the ticked ones (both at random), records the tones and returns what
     * to play. With nothing ticked it warns and changes nothing.
     */
    method PlayNewInterval(flags: map<int, bool>, mode: string) returns (r: Result<seq<Instruction>, TrialError>)
      requires Valid() && WellFormedFlags(flags)
      modifies this
      ensures Valid()
      ensures historyCorrect == old(historyCorrect) && historyTotal == old(historyTotal)
      ensures ActiveIntervals(flags) == [] ==>
        && r == Failure(NoIntervalsSelected)
        && currentAnswer == old(currentAnswer)
        && lastFreqs == old(lastFreqs)
      ensures ActiveIntervals(flags) != [] ==>
        && currentAnswer.Some? && currentAnswer.value in ActiveIntervals(flags)
        && lastFreqs.Some?
        && var (root, target) := lastFreqs.value;
           && LowestRoot <= root.midi <= HighestRoot
           && target.midi == root.midi + currentAnswer.value
           && LowestRoot + 1 <= target.midi <= HighestRoot + 12
           && r == Success(PlaybackPlan(mode, root, target))
    {
      var active := ActiveIntervals(flags);
      if active == [] {
        return Failure(NoIntervalsSelected);
      }
      var rootMidi :| LowestRoot <= rootMidi <= HighestRoot;
      var semitones :| semitones in active;
      currentAnswer := Some(semitones);
      var targetMidi := rootMidi + semitones;
      lastFreqs := Some((FromMidi(rootMidi), FromMidi(targetMidi)));
      r := Success(PlaybackPlan(mode, FromMidi(rootMidi), FromMidi(targetMidi)));
    }

    /** Plays the live question again; does nothing when no answer is awaited. */
    method Replay(mode: string) returns (plan: seq<Instruction>)
      requires Valid()
      ensures currentAnswer.None? ==> plan == []
      ensures currentAnswer.Some? ==> plan == PlaybackPlan(mode, lastFreqs.value.0, lastFreqs.value.1)
    {
      if currentAnswer.None? {
        return [];
      }
      plan := PlaybackPlan(mode, lastFreqs.value.0, lastFreqs.value.1);
    }

    /**
     * Scores `guess` against the live question exactly once and closes it.
     * Without a live question nothing changes.
     */
    method CheckAnswer(guess: int) returns (feedback: Option<Feedback>)
      requires Valid()
      modifies this
      ensures Valid()
      ensures old(currentAnswer).None? ==>
        && feedback == None
        && currentAnswer == None
        && lastFreqs == old(lastFreqs)
        && historyCorrect == old(historyCorrect) && historyTotal == old(historyTotal)
      ensures old(currentAnswer).Some? ==>
        && var answer := old(currentAnswer).value;
           && historyTotal == old(historyTotal) + 1
           && historyCorrect == old(historyCorrect) + (if guess == answer then 1 else 0)
           && currentAnswer == None
           && lastFreqs == old(lastFreqs)
           && feedback == Some(Feedback(guess == answer, IntervalName(answer)))
    {
      if currentAnswer.None? {
        return None;
      }
      var answer := currentAnswer.value;
      historyTotal := historyTotal + 1;
      if guess == answer {
        historyCorrect := historyCorrect + 1;
      }
      feedback := Some(Feedback(guess == answer, IntervalName(answer)));
      currentAnswer := None;
    }
  }

  /**
   * A whole round on a fresh session: ask one question, then submit the
   * same guess twice. Only the first submission is scored.
   */
  method ScoreOneTrial(flags: map<int, bool>, mode: string, guess: int) returns (answer: int, correct: nat, total: nat)
    requires WellFormedFlags(flags) && ActiveIntervals(flags) != []
    ensures answer in ActiveIntervals(flags)
    ensures total == 1
    ensures correct == (if guess == answer then 1 else 0)
  {
    var session := new EarTrainer();
    var started := session.PlayNewInterval(flags, mode);
    answer := session.currentAnswer.value;
    var first := session.CheckAnswer(guess);
    var second := session.CheckAnswer(guess);
    assert second == None;
    correct, total := session.historyCorrect, session.historyTotal;
  }
}
