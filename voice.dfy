/**
  The voice tab: recording state, the transcription shown while recording,
  and the delayed spoken reply. Stopping a recording shows a processing
  message, waits for a short settle step, then counts down five ticks of a
  repeating timer; when the countdown runs out the last transcription is
  shown again and spoken.

  The speech recogniser, the audio engine and the synthesiser are not
  modelled: the authorisation outcome and each recognition result are
  inputs, and speaking appends to the ghost log `spoken`. Timers are named
  by a generation number; `invalidate()` is modelled by the session no
  longer holding the timer's number, so a tick of any other timer has no
  effect. Ticks and the settle step are explicit calls.
*/
module Voice {
  import opened Wrappers

  const ProcessingText: string := "\U{1F9E0} Processing..."
  const MicrophoneDenied: string := "Microphone access not granted"

  /** The countdown `stopRecording` asks for. */
  const ReplyDelay: int := 5

  /** What one tick of the countdown timer does. */
  datatype TickOutcome = Continue(next: int) | Finish

  /** The timer body: a positive count goes down by one; a count at zero or
      below, or no count at all, ends the countdown. */
  function TickRule(countdown: Option<int>): (r: TickOutcome)
    ensures r.Continue? <==> countdown.Some? && countdown.value > 0
    ensures r.Continue? ==> r.next == countdown.value - 1
  {
    if countdown.Some? && countdown.value > 0 then Continue(countdown.value - 1) else Finish
  }

  function CountMeasure(countdown: Option<int>): nat
  {
    if countdown.Some? && countdown.value > 0 then countdown.value else 0
  }

  /** The count each successive tick finds, up to and including the tick
      that ends the countdown. */
  function Trace(countdown: Option<int>): seq<Option<int>>
    decreases CountMeasure(countdown)
  {
    match TickRule(countdown)
    case Continue(n) => [countdown] + Trace(Some(n))
    case Finish => [countdown]
  }

  /** `s, s - 1, ..., 0`. */
  function Descending(s: nat): (r: seq<Option<int>>)
    ensures |r| == s + 1
  {
    seq(s + 1, i requires 0 <= i <= s => Some(s - i))
  }

  lemma DescendingStep(s: nat)
    requires s > 0
    ensures Descending(s) == [Some(s)] + Descending(s - 1)
  {
    var r := [Some(s)] + Descending(s - 1);
    forall i | 0 <= i <= s ensures r[i] == Descending(s)[i] {
      if i > 0 { assert r[i] == Descending(s - 1)[i - 1]; }
    }
  }

  lemma {:induction false} TraceIsDescending(s: nat)
    ensures Trace(Some(s)) == Descending(s)
  {
    if s > 0 {
      assert TickRule(Some(s)) == Continue(s - 1);
      TraceIsDescending(s - 1);
      DescendingStep(s);
    }
  }

  /** A countdown from `s >= 0` sees `s, s - 1, ..., 0` and ends on tick
      `s + 1`; only the last tick ends it. */
  lemma CountdownFrom(s: nat)
    ensures Trace(Some(s)) == Descending(s)
    ensures forall k :: 0 <= k < s ==> TickRule(Trace(Some(s))[k]).Continue?
    ensures TickRule(Trace(Some(s))[s]) == Finish
  {
    TraceIsDescending(s);
  }

  /** A countdown started below zero ends on its first tick. */
  lemma NegativeCountdownEndsAtOnce(s: int)
    requires s < 0
    ensures Trace(Some(s)) == [Some(s)] && TickRule(Some(s)) == Finish
  {
  }

  class VoiceSession {
    var message: string
    var isRecording: bool
    var recognizedText: string
    var countdown: Option<int>
    /** The generation number of the countdown timer the view holds, if any. */
    var countdownTimer: Option<nat>
    var isProcessing: bool
    var finalText: string
    /** The generation number the next scheduled timer gets. */
    var nextTimer: nat
    /** Settle steps scheduled by `stopRecording` that have not run yet. */
    var pendingSettles: nat
    /** Everything handed to the synthesiser, in order. */
    ghost var spoken: seq<string>

    /** A count is shown exactly while a countdown timer is held, and the
        held timer is always the most recently scheduled one. */
    ghost predicate Valid()
      reads this
    {
      && (countdown.Some? <==> countdownTimer.Some?)
      && (countdownTimer.Some? ==> countdownTimer.value + 1 == nextTimer)
    }

    constructor ()
      ensures Valid()
      ensures message == "Not signed in" && !isRecording && recognizedText == ""
      ensures countdown == None && countdownTimer == None && !isProcessing && finalText == ""
      ensures nextTimer == 0 && pendingSettles == 0 && spoken == []
    {
      message, isRecording, recognizedText := "Not signed in", false, "";
      countdown, countdownTimer, isProcessing, finalText := None, None, false, "";
      nextTimer, pendingSettles := 0, 0;
      spoken := [];
    }

    /** The authorisation callback of `startRecording`. Refused: only the
        message changes. Granted: recording starts with an empty display;
        the previous transcription is kept. */
    method StartRecording(authorized: bool)
      requires Valid()
      modifies this
      ensures Valid()
      ensures !authorized ==> message == MicrophoneDenied && isRecording == old(isRecording) && recognizedText == old(recognizedText)
      ensures authorized ==> message == old(message) && isRecording && recognizedText == ""
      ensures finalText == old(finalText) && isProcessing == old(isProcessing)
      ensures countdown == old(countdown) && countdownTimer == old(countdownTimer)
      ensures nextTimer == old(nextTimer) && pendingSettles == old(pendingSettles) && spoken == old(spoken)
    {
      if !authorized {
        message := MicrophoneDenied;
        return;
      }
      isRecording := true;
      recognizedText := "";
    }

    /** The recognition task's callback. A result sets both the transcription
        and the display to its text; the callback's error and final flags
        lead to nothing, so a call without a result changes nothing. */
    method OnRecognition(result: Option<string>)
      requires Valid()
      modifies this
      ensures Valid()
      ensures result.Some? ==> finalText == result.value && recognizedText == result.value
      ensures result.None? ==> finalText == old(finalText) && recognizedText == old(recognizedText)
      ensures message == old(message) && isRecording == old(isRecording) && isProcessing == old(isProcessing)
      ensures countdown == old(countdown) && countdownTimer == old(countdownTimer)
      ensures nextTimer == old(nextTimer) && pendingSettles == old(pendingSettles) && spoken == old(spoken)
    {
      if result.Some? {
        finalText := result.value;
        recognizedText := finalText;
      }
    }

    /** `stopRecording`: show the processing message and schedule the settle step. */
    method StopRecording()
      requires Valid()
      modifies this
      ensures Valid()
      ensures !isRecording && isProcessing && recognizedText == ProcessingText
      ensures pendingSettles == old(pendingSettles) + 1
      ensures message == old(message) && finalText == old(finalText)
      ensures countdown == old(countdown) && countdownTimer == old(countdownTimer)
      ensures nextTimer == old(nextTimer) && spoken == old(spoken)
    {
      isRecording := false;
      isProcessing := true;
      recognizedText := ProcessingText;
      pendingSettles := pendingSettles + 1;
    }

    /** The record button: stop while recording, start otherwise. */
    method RecordButton(authorized: bool)
      requires Valid()
      modifies this
      ensures Valid()
      ensures old(isRecording) ==> !isRecording && isProcessing && recognizedText == ProcessingText
                                   && pendingSettles == old(pendingSettles) + 1 && message == old(message)
      ensures !old(isRecording) && !authorized ==> message == MicrophoneDenied && !isRecording
                                                   && recognizedText == old(recognizedText) && pendingSettles == old(pendingSettles)
      ensures !old(isRecording) && authorized ==> isRecording && recognizedText == ""
                                                  && pendingSettles == old(pendingSettles) && message == old(message)
      ensures !old(isRecording) ==> isProcessing == old(isProcessing)
      ensures finalText == old(finalText) && countdown == old(countdown) && countdownTimer == old(countdownTimer)
      ensures nextTimer == old(nextTimer) && spoken == old(spoken)
    {
      if isRecording {
        StopRecording();
      } else {
        StartRecording(authorized);
      }
    }

    /** `startCountdown(seconds:)`: show the count, drop the timer held so far
        (so it can no longer tick) and hold a newly scheduled one. */
    method StartCountdown(seconds: int)
      requires Valid()
      modifies this
      ensures Valid()
      ensures countdown == Some(seconds) && countdownTimer == Some(old(nextTimer)) && nextTimer == old(nextTimer) + 1
      ensures old(countdownTimer).Some? ==> countdownTimer != old(countdownTimer)
      ensures message == old(message) && isRecording == old(isRecording) && recognizedText == old(recognizedText)
      ensures isProcessing == old(isProcessing) && finalText == old(finalText)
      ensures pendingSettles == old(pendingSettles) && spoken == old(spoken)
    {
      countdown := Some(seconds);
      countdownTimer := Some(nextTimer);
      nextTimer := nextTimer + 1;
    }

    /** A scheduled settle step runs: start the reply countdown. With none
        scheduled nothing happens. */
    method Settle() returns (ran: bool)
      requires Valid()
      modifies this
      ensures Valid()
      ensures ran == (old(pendingSettles) > 0)
      ensures ran ==> pendingSettles == old(pendingSettles) - 1 && countdown == Some(ReplyDelay)
                      && countdownTimer == Some(old(nextTimer)) && nextTimer == old(nextTimer) + 1
      ensures !ran ==> pendingSettles == 0 && countdown == old(countdown)
                       && countdownTimer == old(countdownTimer) && nextTimer == old(nextTimer)
      ensures message == old(message) && isRecording == old(isRecording) && recognizedText == old(recognizedText)
      ensures isProcessing == old(isProcessing) && finalText == old(finalText) && spoken == old(spoken)
    {
      ran := pendingSettles > 0;
      if ran {
        pendingSettles := pendingSettles - 1;
        StartCountdown(ReplyDelay);
      }
    }

    /** Timer `timer` fires. A timer the session no longer holds does nothing.
        The held one applies the tick rule; when the countdown ends the timer
        is dropped, the count hidden, and the completion of `stopRecording`
        runs: processing ends, the transcription is shown and spoken. */
    method TimerFired(timer: nat) returns (completed: bool)
      requires Valid()
      modifies this
      ensures Valid()
      ensures completed ==> old(countdownTimer) == Some(timer) && timer + 1 == nextTimer
      ensures old(countdownTimer) != Some(timer) ==>
                !completed && countdown == old(countdown) && countdownTimer == old(countdownTimer)
                && isProcessing == old(isProcessing) && recognizedText == old(recognizedText) && spoken == old(spoken)
      ensures old(countdownTimer) == Some(timer) && TickRule(old(countdown)).Continue? ==>
                !completed && countdown == Some(TickRule(old(countdown)).next) && countdownTimer == old(countdownTimer)
                && isProcessing == old(isProcessing) && recognizedText == old(recognizedText) && spoken == old(spoken)
      ensures old(countdownTimer) == Some(timer) && TickRule(old(countdown)) == Finish ==>
                completed && countdown == None && countdownTimer == None
                && !isProcessing && recognizedText == finalText && spoken == old(spoken) + [finalText]
      ensures message == old(message) && isRecording == old(isRecording) && finalText == old(finalText)
      ensures nextTimer == old(nextTimer) && pendingSettles == old(pendingSettles)
    {
      completed := false;
      if countdownTimer != Some(timer) {
        return;
      }
      match TickRule(countdown)
      case Continue(n) =>
        countdown := Some(n);
      case Finish =>
        countdownTimer := None;
        countdown := None;
        completed := true;
        isProcessing := false;
        recognizedText := finalText;
        spoken := spoken + [finalText];
    }
  }

  /** Record "hello world", stop, settle, and let the countdown run: the five
      ticks after the settle step leave the reply unspoken, the sixth speaks
      exactly the transcription. */
  method HelloWorld() returns (shown: string, done: bool)
    ensures shown == "hello world" && done
  {
    var v := new VoiceSession();
    v.RecordButton(true);
    v.OnRecognition(Some("hello"));
    v.OnRecognition(Some("hello world"));
    v.RecordButton(true);
    assert v.recognizedText == ProcessingText;
    var ran := v.Settle();
    var t := v.countdownTimer.value;
    var c := v.TimerFired(t);
    c := v.TimerFired(t);
    c := v.TimerFired(t);
    c := v.TimerFired(t);
    c := v.TimerFired(t);
    assert !c && v.countdown == Some(0) && v.spoken == [];
    c := v.TimerFired(t);
    assert v.spoken == ["hello world"];
    shown, done := v.recognizedText, c;
  }

  /** A second stop before the first countdown ends replaces that countdown:
      the first timer can no longer tick, only the newer one completes. */
  method RestartedCountdown() returns (staleCompleted: bool, count: Option<int>)
    ensures !staleCompleted && count == Some(ReplyDelay)
  {
    var v := new VoiceSession();
    v.RecordButton(true);
    v.RecordButton(true);
    var ran := v.Settle();
    var first := v.countdownTimer.value;
    var c := v.TimerFired(first);
    v.RecordButton(true);
    v.RecordButton(true);
    ran := v.Settle();
    staleCompleted := v.TimerFired(first);
    count := v.countdown;
  }
}
