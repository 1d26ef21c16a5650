/** Scoring and formatting helpers (project/src/utils.ts). The random draws
    of `Math.random()` are parameters: reals in [0, 1). */
module Utils {
  import opened Types

  // ---------------------------------------------------------------------
  // Decimal rendering and parsing of natural numbers
  // ---------------------------------------------------------------------

  predicate IsDigit(c: char) {
    '0' <= c <= '9'
  }

  predicate AllDigits(s: string) {
    forall i :: 0 <= i < |s| ==> IsDigit(s[i])
  }

  function DigitChar(d: nat): (c: char)
    requires d < 10
    ensures IsDigit(c)
  {
    ('0' as int + d) as char
  }

  function DigitValue(c: char): (d: nat)
    requires IsDigit(c)
    ensures d < 10
  {
    c as int - '0' as int
  }

  /** The decimal numeral of `n`, as `Number.prototype.toString` writes it. */
  function NatToString(n: nat): (r: string)
    ensures AllDigits(r)
    ensures |r| >= 1
    ensures n < 10 <==> |r| == 1
    ensures n >= 10 ==> r[0] != '0'
    decreases n
  {
    if n < 10 then [DigitChar(n)] else NatToString(n / 10) + [DigitChar(n % 10)]
  }

  /** The value of a string of decimal digits (the empty string reads as 0). */
  function ParseDigits(s: string): nat
    requires AllDigits(s)
  {
    if s == [] then 0 else ParseDigits(s[..|s| - 1]) * 10 + DigitValue(s[|s| - 1])
  }

  lemma {:induction false} ParseNatToString(n: nat)
    ensures ParseDigits(NatToString(n)) == n
    decreases n
  {
    var s := NatToString(n);
    if n >= 10 {
      ParseNatToString(n / 10);
      assert s[..|s| - 1] == NatToString(n / 10);
    }
  }

  /** `String.prototype.padStart(width, c)` for a one-character pad. */
  function PadStart(s: string, width: nat, c: char): (r: string)
    ensures |r| == if |s| >= width then |s| else width
    ensures r[|r| - |s|..] == s
    ensures forall i :: 0 <= i < |r| - |s| ==> r[i] == c
  {
    if |s| >= width then s else seq(width - |s|, _ => c) + s
  }

  // ---------------------------------------------------------------------
  // formatTime
  // ---------------------------------------------------------------------

  /** The seconds field: `k` (below 60) padded with '0' to two digits. */
  lemma {:induction false} SecondsField(k: nat)
    requires k < 60
    ensures var p := PadStart(NatToString(k), 2, '0');
            |p| == 2 && AllDigits(p) && ParseDigits(p) == k
  {
    var d := NatToString(k);
    var p := PadStart(d, 2, '0');
    ParseNatToString(k);
    if k < 10 {
      assert p == ['0'] + d;
      assert p[..1] == ['0'];
    } else {
      assert p == d;
    }
  }

  /** `r` displays `seconds` as `m:ss`: the numeral of the whole minutes,
      a colon, and two digits whose value is the remaining seconds. */
  predicate IsTimeDisplay(r: string, seconds: nat) {
    && |r| >= 4 && r[|r| - 3] == ':'
    && r[..|r| - 3] == NatToString(seconds / 60)
    && AllDigits(r[|r| - 2..]) && ParseDigits(r[|r| - 2..]) == seconds % 60
  }

  /** `m:ss`: the whole minutes, a colon, and the remaining seconds padded
      with '0' to exactly two digits. */
  function FormatTime(seconds: nat): (r: string)
    ensures IsTimeDisplay(r, seconds)
  {
    var mins := NatToString(seconds / 60);
    var secs := PadStart(NatToString(seconds % 60), 2, '0');
    SecondsField(seconds % 60);
    var r := mins + ":" + secs;
    assert r[..|r| - 3] == mins;
    assert r[|r| - 2..] == secs;
    r
  }

  /** Reads an `m:ss` string back into seconds; `None` for anything that is
      not minutes, a colon and two digits below 60. */
  function ParseTime(t: string): Option<nat> {
    if |t| >= 4 && t[|t| - 3] == ':' && AllDigits(t[..|t| - 3]) && AllDigits(t[|t| - 2..])
       && ParseDigits(t[|t| - 2..]) < 60
    then Some(ParseDigits(t[..|t| - 3]) * 60 + ParseDigits(t[|t| - 2..]))
    else None
  }

  /** ParseTime reads the two fields of a well-shaped `m:ss` string. */
  lemma ParseTimeFields(t: string, mins: nat, secs: nat)
    requires |t| >= 4 && t[|t| - 3] == ':'
    requires AllDigits(t[..|t| - 3]) && ParseDigits(t[..|t| - 3]) == mins
    requires AllDigits(t[|t| - 2..]) && ParseDigits(t[|t| - 2..]) == secs < 60
    ensures ParseTime(t) == Some(mins * 60 + secs)
  {
  }

  /** Any display of `seconds` parses back to it. */
  lemma FormatTimeShapeParses(t: string, seconds: nat)
    requires IsTimeDisplay(t, seconds)
    ensures ParseTime(t) == Some(seconds)
  {
    ParseNatToString(seconds / 60);
    ParseTimeFields(t, seconds / 60, seconds % 60);
  }

  lemma FormatTimeRoundTrip(seconds: nat)
    ensures ParseTime(FormatTime(seconds)) == Some(seconds)
  {
    FormatTimeShapeParses(FormatTime(seconds), seconds);
  }

  lemma FormatTimeInjective(s1: nat, s2: nat)
    requires FormatTime(s1) == FormatTime(s2)
    ensures s1 == s2
  {
    FormatTimeRoundTrip(s1);
    FormatTimeRoundTrip(s2);
  }

  // ---------------------------------------------------------------------
  // generateQuestions
  // ---------------------------------------------------------------------

  const IntroductionText: string :=
    "Could you introduce yourself, focusing on your skills, strengths, and career aspirations?"

  /** The fixed question list; role and company are not used. */
  function GenerateQuestions(role: string, company: string): (qs: seq<Question>)
    ensures |qs| == 1
    ensures qs[0].id == "1" && qs[0].category == "Behavioral" && qs[0].difficulty == Easy
    ensures qs[0].text == IntroductionText
  {
    [Question("1", IntroductionText, "Behavioral", Easy)]
  }

  lemma GenerateQuestionsIgnoresJob(r1: string, c1: string, r2: string, c2: string)
    ensures GenerateQuestions(r1, c1) == GenerateQuestions(r2, c2)
  {
  }

  // ---------------------------------------------------------------------
  // generateFeedback
  // ---------------------------------------------------------------------

  const Feedbacks: seq<string> := [
    "Great answer! Your response demonstrates strong understanding and experience.",
    "Good response with solid examples. Consider adding more specific details.",
    "Excellent insight! Your answer shows deep knowledge of the subject.",
    "Well articulated answer. You effectively addressed the key points.",
    "Strong response with clear structure and relevant examples."
  ]

  datatype Feedback = Feedback(score: int, feedback: string)

  /** A random draw as `Math.random()` returns it. */
  predicate IsDraw(x: real) {
    0.0 <= x < 1.0
  }

  /** `scoreDraw` and `pickDraw` are the two `Math.random()` results; the
      answer text and the question take no part. */
  function GenerateFeedback(answer: string, question: Question, scoreDraw: real, pickDraw: real): (f: Feedback)
    requires IsDraw(scoreDraw) && IsDraw(pickDraw)
    ensures 7 <= f.score <= 10
    ensures f.feedback in Feedbacks
  {
    var idx := (pickDraw * (|Feedbacks| as real)).Floor;
    Feedback((scoreDraw * 4.0).Floor + 7, Feedbacks[idx])
  }

  lemma FeedbackIgnoresAnswer(a1: string, q1: Question, a2: string, q2: Question, scoreDraw: real, pickDraw: real)
    requires IsDraw(scoreDraw) && IsDraw(pickDraw)
    ensures GenerateFeedback(a1, q1, scoreDraw, pickDraw) == GenerateFeedback(a2, q2, scoreDraw, pickDraw)
  {
  }

  /** Every score in [7, 10] and every canned sentence is produced by some draw. */
  lemma FeedbackCoversRange(answer: string, question: Question, score: int, k: nat)
    requires 7 <= score <= 10 && k < |Feedbacks|
    ensures GenerateFeedback(answer, question, (score - 7) as real / 4.0, k as real / 5.0)
            == Feedback(score, Feedbacks[k])
  {
  }

  // ---------------------------------------------------------------------
  // calculateOverallScore
  // ---------------------------------------------------------------------

  /** The `reduce` fold: the sum of the scores, left to right. */
  function SumScores(answers: seq<Answer>): int {
    if answers == [] then 0 else SumScores(answers[..|answers| - 1]) + answers[|answers| - 1].score
  }

  /** 0 for no answers, otherwise the unrounded arithmetic mean of the scores. */
  function CalculateOverallScore(answers: seq<Answer>): (r: real)
    ensures answers == [] ==> r == 0.0
    ensures answers != [] ==> r * (|answers| as real) == SumScores(answers) as real
  {
    if |answers| == 0 then 0.0 else SumScores(answers) as real / |answers| as real
  }

  predicate ScoresWithin(answers: seq<Answer>, lo: int, hi: int) {
    forall i :: 0 <= i < |answers| ==> lo <= answers[i].score <= hi
  }

  lemma {:induction false} SumScoresBounds(answers: seq<Answer>, lo: int, hi: int)
    requires ScoresWithin(answers, lo, hi)
    ensures |answers| * lo <= SumScores(answers) <= |answers| * hi
    decreases |answers|
  {
    if answers != [] {
      var init := answers[..|answers| - 1];
      assert ScoresWithin(init, lo, hi) by {
        forall i | 0 <= i < |init| ensures lo <= init[i].score <= hi {
          assert init[i] == answers[i];
        }
      }
      SumScoresBounds(init, lo, hi);
    }
  }

  /** The mean of scores that all lie in [lo, hi] lies in [lo, hi]. */
  lemma MeanWithinBounds(answers: seq<Answer>, lo: int, hi: int)
    requires answers != [] && ScoresWithin(answers, lo, hi)
    ensures lo as real <= CalculateOverallScore(answers) <= hi as real
  {
    SumScoresBounds(answers, lo, hi);
    var n := |answers| as real;
    var m := CalculateOverallScore(answers);
    assert m * n == SumScores(answers) as real;
    assert (lo as real) * n <= m * n <= (hi as real) * n;
  }

  /** Appending one answer moves the total by that answer's score, so the mean
      can be kept incrementally. */
  lemma MeanAfterAppend(answers: seq<Answer>, a: Answer)
    ensures CalculateOverallScore(answers + [a]) * ((|answers| + 1) as real)
            == CalculateOverallScore(answers) * (|answers| as real) + a.score as real
  {
    assert (answers + [a])[..|answers|] == answers;
  }

  // ---------------------------------------------------------------------
  // getRatingLabel
  // ---------------------------------------------------------------------

  datatype Rating = Rating(labelText: string, color: string)

  const Outstanding := Rating("Outstanding", "text-emerald-600")
  const StrongHire := Rating("Strong Hire", "text-green-600")
  const Good := Rating("Good", "text-blue-600")
  const Average := Rating("Average", "text-yellow-600")
  const NeedsImprovement := Rating("Needs Improvement", "text-red-600")

  /** The bands, from lowest (0) to highest (4). */
  function BandRank(r: Rating): nat {
    if r == Outstanding then 4
    else if r == StrongHire then 3
    else if r == Good then 2
    else if r == Average then 1
    else 0
  }

  function GetRatingLabel(score: real): (r: Rating)
    ensures r == Outstanding <==> score >= 9.0
    ensures r == StrongHire <==> 8.0 <= score < 9.0
    ensures r == Good <==> 7.0 <= score < 8.0
    ensures r == Average <==> 6.0 <= score < 7.0
    ensures r == NeedsImprovement <==> score < 6.0
  {
    if score >= 9.0 then Outstanding
    else if score >= 8.0 then StrongHire
    else if score >= 7.0 then Good
    else if score >= 6.0 then Average
    else NeedsImprovement
  }

  /** A higher score never gets a lower band. */
  lemma RatingMonotone(s1: real, s2: real)
    requires s1 <= s2
    ensures BandRank(GetRatingLabel(s1)) <= BandRank(GetRatingLabel(s2))
  {
  }

  /** Any non-empty list of answers scored by GenerateFeedback rates Good or better. */
  lemma FeedbackScoredAnswersRateAtLeastGood(answers: seq<Answer>)
    requires answers != [] && ScoresWithin(answers, 7, 10)
    ensures BandRank(GetRatingLabel(CalculateOverallScore(answers))) >= BandRank(Good)
  {
    MeanWithinBounds(answers, 7, 10);
  }
}
