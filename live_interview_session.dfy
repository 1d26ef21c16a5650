/** The live interview screen's controller
    (project/src/components/LiveInterviewSession.tsx): the question index,
    the answer box, the three speaking-time counters and the two flags,
    updated by one method per handler. A timer tick is a method call, and
    the calls the screen makes back into the root controller are returned
    as a sequence of intents. */
module LiveInterviewSession {
  import opened Types

  /** What the screen asks of the root controller. */
  datatype Intent = SubmitAnswer(questionId: string, answer: string) | CompleteInterview

  /** One entry of a speech-recognition result list. */
  datatype SpeechResult = SpeechResult(transcript: string, isFinal: bool)

  // ---------------------------------------------------------------------
  // Blank answers
  // ---------------------------------------------------------------------

  /** The characters `String.prototype.trim` removes: ECMAScript white space
      and line terminators. */
  predicate IsWhitespace(c: char) {
    || c == '\t' || c == '\n' || c == '\U{B}' || c == '\U{C}' || c == '\r' || c == ' '
    || c == '\U{A0}' || c == '\U{1680}' || ('\U{2000}' <= c <= '\U{200A}')
    || c == '\U{2028}' || c == '\U{2029}' || c == '\U{202F}' || c == '\U{205F}'
    || c == '\U{3000}' || c == '\U{FEFF}'
  }

  /** Every character is one `trim` removes. */
  predicate IsBlank(s: string) {
    forall i :: 0 <= i < |s| ==> IsWhitespace(s[i])
  }

  /** Drops the leading white space: what is left is a suffix that is empty
      or starts with a character `trim` keeps, and what is dropped is blank. */
  function TrimStart(s: string): (r: string)
    ensures |r| <= |s| && r == s[|s| - |r|..]
    ensures r == "" || !IsWhitespace(r[0])
    ensures IsBlank(s[..|s| - |r|])
    decreases |s|
  {
    if s != [] && IsWhitespace(s[0]) then TrimStart(s[1..]) else s
  }

  /** Drops the trailing white space, symmetrically. */
  function TrimEnd(s: string): (r: string)
    ensures r <= s
    ensures r == "" || !IsWhitespace(r[|r| - 1])
    ensures IsBlank(s[|r|..])
    decreases |s|
  {
    if s != [] && IsWhitespace(s[|s| - 1]) then TrimEnd(s[..|s| - 1]) else s
  }

  /** `String.prototype.trim`: the result is empty exactly when the input is
      blank, and otherwise starts and ends with a character it keeps. */
  function Trim(s: string): (r: string)
    ensures r == "" <==> IsBlank(s)
    ensures r == "" || (!IsWhitespace(r[0]) && !IsWhitespace(r[|r| - 1]))
  {
    TrimEnd(TrimStart(s))
  }

  // ---------------------------------------------------------------------
  // Transcript accumulation
  // ---------------------------------------------------------------------

  /** One final segment joins the accumulated text after a single space, or
      with no separator when nothing has been accumulated yet. */
  function AppendFinal(acc: string, segment: string): (r: string)
    ensures acc <= r
    ensures acc == "" ==> r == segment
    ensures acc != "" ==> r[|acc|..] == [' '] + segment
  {
    acc + (if acc != "" then " " else "") + segment
  }

  /** The accumulated text after the final segments of `results`, in order. */
  function Finals(acc: string, results: seq<SpeechResult>): string
    decreases |results|
  {
    if results == [] then acc
    else
      var prev := Finals(acc, results[..|results| - 1]);
      var last := results[|results| - 1];
      if last.isFinal then AppendFinal(prev, last.transcript) else prev
  }

  /** The transcript of the last non-final entry, or "" if there is none. */
  function LastInterim(results: seq<SpeechResult>): string
    decreases |results|
  {
    if results == [] then ""
    else if !results[|results| - 1].isFinal then results[|results| - 1].transcript
    else LastInterim(results[..|results| - 1])
  }

  /** Accumulation only ever extends the text. */
  lemma {:induction false} FinalsExtends(acc: string, results: seq<SpeechResult>)
    ensures acc <= Finals(acc, results)
    decreases |results|
  {
    if results != [] {
      FinalsExtends(acc, results[..|results| - 1]);
    }
  }

  /** The loop of the `onresult` callback over the entries from `resultIndex`
      on: final entries are appended to the accumulated text, the last
      non-final one is kept as the interim text. */
  method AccumulateTranscript(appended: string, results: seq<SpeechResult>, resultIndex: nat)
    returns (newAppended: string, interim: string)
    ensures resultIndex <= |results| ==> newAppended == Finals(appended, results[resultIndex..])
    ensures resultIndex <= |results| ==> interim == LastInterim(results[resultIndex..])
    ensures resultIndex > |results| ==> newAppended == appended && interim == ""
    ensures appended <= newAppended
  {
    newAppended, interim := appended, "";
    var i := resultIndex;
    while i < |results|
      invariant resultIndex <= i <= |results| || (i == resultIndex && resultIndex > |results|)
      invariant i <= |results| ==> newAppended == Finals(appended, results[resultIndex..i])
      invariant i <= |results| ==> interim == LastInterim(results[resultIndex..i])
      invariant resultIndex > |results| ==> newAppended == appended && interim == ""
      invariant appended <= newAppended
      decreases |results| - i
    {
      assert results[resultIndex..i + 1][..i - resultIndex] == results[resultIndex..i];
      if results[i].isFinal {
        newAppended := AppendFinal(newAppended, results[i].transcript);
      } else {
        interim := results[i].transcript;
      }
      i := i + 1;
    }
    if resultIndex <= |results| {
      assert results[resultIndex..|results|] == results[resultIndex..];
    }
  }

  // ---------------------------------------------------------------------
  // The controller
  // ---------------------------------------------------------------------

  class Controller {
    const questions: seq<Question>
    var currentQuestionIndex: nat
    var currentAnswer: string
    var userSpeakingTime: nat
    var aiSpeakingTime: nat
    var sessionTime: nat
    var isRecording: bool
    var isPaused: bool
    /** The text the speech recogniser started from plus the final segments
        it has delivered since. */
    var appendedTranscript: string

    /** The index names a question, and the total time is split between
        the user and the interviewer. */
    ghost predicate Valid()
      reads this
    {
      && 0 < |questions|
      && currentQuestionIndex < |questions|
      && sessionTime == userSpeakingTime + aiSpeakingTime
    }

    constructor (questions: seq<Question>)
      requires 0 < |questions|
      ensures Valid()
      ensures this.questions == questions
      ensures currentQuestionIndex == 0 && currentAnswer == ""
      ensures userSpeakingTime == 0 && aiSpeakingTime == 0 && sessionTime == 0
      ensures !isRecording && !isPaused && appendedTranscript == ""
    {
      this.questions := questions;
      currentQuestionIndex := 0;
      currentAnswer := "";
      userSpeakingTime, aiSpeakingTime, sessionTime := 0, 0, 0;
      isRecording, isPaused := false, false;
      appendedTranscript := "";
    }

    /** Moves to the next question, or asks for completion on the last one. */
    method Advance() returns (emitted: seq<Intent>)
      requires Valid()
      modifies this`currentQuestionIndex
      ensures Valid()
      ensures old(currentQuestionIndex) < |questions| - 1 ==>
                currentQuestionIndex == old(currentQuestionIndex) + 1 && emitted == []
      ensures old(currentQuestionIndex) == |questions| - 1 ==>
                currentQuestionIndex == old(currentQuestionIndex) && emitted == [CompleteInterview]
    {
      if currentQuestionIndex < |questions| - 1 {
        currentQuestionIndex := currentQuestionIndex + 1;
        emitted := [];
      } else {
        emitted := [CompleteInterview];
      }
    }

    /** The Submit button: nothing happens for a blank answer; otherwise the
        untrimmed answer is submitted for the current question, the box is
        cleared and the interview advances. */
    method HandleSubmitAnswer() returns (emitted: seq<Intent>)
      requires Valid()
      modifies this`currentQuestionIndex, this`currentAnswer
      ensures Valid()
      ensures IsBlank(old(currentAnswer)) ==>
                emitted == [] && currentAnswer == old(currentAnswer)
                && currentQuestionIndex == old(currentQuestionIndex)
      ensures !IsBlank(old(currentAnswer)) ==>
                && currentAnswer == ""
                && |emitted| >= 1
                && emitted[0] == SubmitAnswer(questions[old(currentQuestionIndex)].id, old(currentAnswer))
                && (old(currentQuestionIndex) < |questions| - 1 ==>
                      currentQuestionIndex == old(currentQuestionIndex) + 1 && |emitted| == 1)
                && (old(currentQuestionIndex) == |questions| - 1 ==>
                      currentQuestionIndex == old(currentQuestionIndex) && emitted[1..] == [CompleteInterview])
    {
      if IsBlank(currentAnswer) {
        emitted := [];
        return;
      }
      var submitted := SubmitAnswer(questions[currentQuestionIndex].id, currentAnswer);
      currentAnswer := "";
      var next := Advance();
      emitted := [submitted] + next;
    }

    /** The Skip button: clears the answer without submitting it and advances. */
    method HandleSkipQuestion() returns (emitted: seq<Intent>)
      requires Valid()
      modifies this`currentQuestionIndex, this`currentAnswer
      ensures Valid()
      ensures currentAnswer == ""
      ensures old(currentQuestionIndex) < |questions| - 1 ==>
                currentQuestionIndex == old(currentQuestionIndex) + 1 && emitted == []
      ensures old(currentQuestionIndex) == |questions| - 1 ==>
                currentQuestionIndex == old(currentQuestionIndex) && emitted == [CompleteInterview]
    {
      currentAnswer := "";
      emitted := Advance();
    }

    /** One second of the session timer. While paused the timer does not
        run, so nothing changes; otherwise the second is added to the total
        and to the user's time when recording, to the interviewer's if not. */
    method Tick()
      requires Valid()
      modifies this`sessionTime, this`userSpeakingTime, this`aiSpeakingTime
      ensures Valid()
      ensures old(isPaused) ==>
                sessionTime == old(sessionTime) && userSpeakingTime == old(userSpeakingTime)
                && aiSpeakingTime == old(aiSpeakingTime)
      ensures !old(isPaused) ==> sessionTime == old(sessionTime) + 1
      ensures !old(isPaused) && isRecording ==>
                userSpeakingTime == old(userSpeakingTime) + 1 && aiSpeakingTime == old(aiSpeakingTime)
      ensures !old(isPaused) && !isRecording ==>
                aiSpeakingTime == old(aiSpeakingTime) + 1 && userSpeakingTime == old(userSpeakingTime)
    {
      if isPaused {
        return;
      }
      sessionTime := sessionTime + 1;
      if isRecording {
        userSpeakingTime := userSpeakingTime + 1;
      } else {
        aiSpeakingTime := aiSpeakingTime + 1;
      }
    }

    method TogglePause()
      requires Valid()
      modifies this`isPaused
      ensures Valid()
      ensures isPaused == !old(isPaused)
    {
      isPaused := !isPaused;
    }

    method ToggleRecording()
      requires Valid()
      modifies this`isRecording
      ensures Valid()
      ensures isRecording == !old(isRecording)
    {
      isRecording := !isRecording;
    }

    /** Typing in the answer box. */
    method EditAnswer(text: string)
      requires Valid()
      modifies this`currentAnswer
      ensures Valid()
      ensures currentAnswer == text
    {
      currentAnswer := text;
    }

    /** Starting speech recognition: it accumulates onto the current answer. */
    method StartListening()
      requires Valid()
      modifies this`appendedTranscript
      ensures Valid()
      ensures appendedTranscript == currentAnswer
    {
      appendedTranscript := currentAnswer;
    }

    /** A recognition result event: the final entries extend the accumulated
        text, and the answer box shows that text followed by the last
        interim entry. */
    method OnResult(results: seq<SpeechResult>, resultIndex: nat)
      requires Valid()
      modifies this`appendedTranscript, this`currentAnswer
      ensures Valid()
      ensures old(appendedTranscript) <= appendedTranscript
      ensures resultIndex <= |results| ==>
                && appendedTranscript == Finals(old(appendedTranscript), results[resultIndex..])
                && currentAnswer == appendedTranscript + LastInterim(results[resultIndex..])
      ensures resultIndex > |results| ==>
                appendedTranscript == old(appendedTranscript) && currentAnswer == appendedTranscript
    {
      var interim;
      appendedTranscript, interim := AccumulateTranscript(appendedTranscript, results, resultIndex);
      currentAnswer := appendedTranscript + interim;
    }
  }

  /** Pausing twice, or toggling recording twice, restores the flag. */
  method FlagToggleRoundTrip(c: Controller)
    requires c.Valid()
    modifies c`isPaused, c`isRecording
    ensures c.Valid()
    ensures c.isPaused == old(c.isPaused) && c.isRecording == old(c.isRecording)
  {
    c.TogglePause();
    c.TogglePause();
    c.ToggleRecording();
    c.ToggleRecording();
  }
}
