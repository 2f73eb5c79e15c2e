/** The quiz screen: a runner that steps through a fixed, non-empty list of
    questions, plus the requested question count and the finish screen's
    percentage and message. */
module QuizView {
  import opened Types
  import JsMath

  /** How many questions are requested from the generator. */
  function RequestedCount(mode: QuizMode): (n: nat)
    ensures n == 10 <==> mode.Simulasi?
    ensures n == 5 <==> mode.Latihan?
  {
    if mode == Simulasi then 10 else 5
  }

  /** How many of the answers locked in for the first |picks| questions
      equal those questions' correct answers. */
  function CorrectCount(qs: seq<QuizQuestion>, picks: seq<nat>): (c: nat)
    requires |picks| <= |qs|
    ensures c <= |picks|
  {
    if picks == [] then 0
    else
      var k := |picks| - 1;
      CorrectCount(qs, picks[..k]) + (if picks[k] == qs[k].correctAnswer then 1 else 0)
  }

  /** Every answer counts toward the score exactly when it is right: the
      count is full if and only if every locked-in answer was correct. */
  lemma {:induction false} CorrectCountFull(qs: seq<QuizQuestion>, picks: seq<nat>)
    requires |picks| <= |qs|
    ensures CorrectCount(qs, picks) == |picks| <==>
      forall i :: 0 <= i < |picks| ==> picks[i] == qs[i].correctAnswer
  {
    if picks != [] {
      var k := |picks| - 1;
      CorrectCountFull(qs, picks[..k]);
      assert forall i :: 0 <= i < k ==> picks[..k][i] == picks[i];
    }
  }

  /** The finish screen's percentage, `Math.round(score / total * 100)`. */
  function FinishPercentage(score: nat, total: nat): (p: int)
    requires total > 0
    ensures p as real - 0.5 <= (score as real) / (total as real) * 100.0 < p as real + 0.5
    ensures score <= total ==> 0 <= p <= 100
  {
    var x := (score as real) / (total as real) * 100.0;
    if score <= total then
      JsMath.DivAtLeast(score as real, 0.0, total as real);
      JsMath.DivAtMost(score as real, 1.0, total as real);
      JsMath.RoundWithin(x, 0, 100);
      JsMath.Round(x)
    else
      JsMath.Round(x)
  }

  const Excellent: string := "Luar biasa! Pertahankan prestasimu."
  const GoodWork: string := "Kerja bagus, sedikit lagi kamu akan mahir."
  const KeepGoing: string := "Tetap semangat! Coba pelajari lagi materinya."

  /** The tutor's message on the finish screen. */
  function FinishMessage(percentage: int): (m: string)
    ensures m == Excellent <==> percentage >= 80
    ensures m == GoodWork <==> 60 <= percentage < 80
    ensures m == KeepGoing <==> percentage < 60
  {
    if percentage >= 80 then Excellent
    else if percentage >= 60 then GoodWork
    else KeepGoing
  }

  /** A better score never earns a lower message tier. */
  lemma MessageMonotone(s1: nat, s2: nat, total: nat)
    requires 0 < total && s1 <= s2
    ensures FinishPercentage(s1, total) <= FinishPercentage(s2, total)
    ensures FinishMessage(FinishPercentage(s1, total)) != KeepGoing ==>
      FinishMessage(FinishPercentage(s2, total)) != KeepGoing
    ensures FinishMessage(FinishPercentage(s1, total)) == Excellent ==>
      FinishMessage(FinishPercentage(s2, total)) == Excellent
  {
    var t := total as real;
    var x1 := (s1 as real) / t;
    var x2 := (s2 as real) / t;
    JsMath.DivAtMost(s1 as real, x2, t);
    assert x2 * t == s2 as real;
    JsMath.RoundMonotone(x1 * 100.0, x2 * 100.0);
  }

  /** The runner's state. Each handler is one atomic step. */
  class QuizRunner {
    const level: HSKLevel
    const mode: QuizMode
    const questions: seq<QuizQuestion>
    var currentIndex: nat
    var selectedAnswer: Option<nat>
    var score: nat
    var showResult: bool
    var isFinished: bool
    /** The answer locked in at each question advanced past, in order. */
    ghost var answers: seq<nat>

    ghost predicate Valid()
      reads this
      ensures Valid() ==> score <= |answers| <= |questions|
    {
      && |questions| > 0
      && currentIndex < |questions|
      && |answers| == currentIndex + (if isFinished then 1 else 0)
      && score == CorrectCount(questions, answers)
      && (showResult ==> selectedAnswer.Some?)
      && (isFinished ==> showResult && currentIndex == |questions| - 1)
      && (selectedAnswer.Some? ==> selectedAnswer.value < |questions[currentIndex].options|)
    }

    /** The runner as it stands once the questions have arrived. */
    constructor (level: HSKLevel, mode: QuizMode, questions: seq<QuizQuestion>)
      requires |questions| > 0
      ensures Valid()
      ensures this.level == level && this.mode == mode && this.questions == questions
      ensures currentIndex == 0 && selectedAnswer == None && score == 0
      ensures !showResult && !isFinished && answers == []
    {
      this.level := level;
      this.mode := mode;
      this.questions := questions;
      currentIndex := 0;
      selectedAnswer := None;
      score := 0;
      showResult := false;
      isFinished := false;
      answers := [];
    }

    /** Clicking option k of the current question: it becomes the selection
        unless the answer is already revealed. */
    method SelectOption(k: nat)
      requires Valid() && !isFinished
      requires k < |questions[currentIndex].options|
      modifies this
      ensures Valid()
      ensures selectedAnswer == if old(showResult) then old(selectedAnswer) else Some(k)
      ensures currentIndex == old(currentIndex) && score == old(score)
      ensures showResult == old(showResult) && isFinished == old(isFinished)
      ensures answers == old(answers)
    {
      if !showResult {
        selectedAnswer := Some(k);
      }
    }

    /** "Cek Jawaban": reveals the answer if one is selected. The result is
        the correctness signal handed to the haptics routine (`None` when
        the handler returns early). */
    method CheckAnswer() returns (signal: Option<bool>)
      requires Valid() && !isFinished && !showResult
      modifies this
      ensures Valid()
      ensures showResult <==> old(selectedAnswer).Some?
      ensures signal.Some? <==> old(selectedAnswer).Some?
      ensures signal.Some? ==>
        signal.value == (selectedAnswer.value == questions[currentIndex].correctAnswer)
      ensures currentIndex == old(currentIndex) && score == old(score)
      ensures selectedAnswer == old(selectedAnswer) && isFinished == old(isFinished)
      ensures answers == old(answers)
    {
      if selectedAnswer == None {
        signal := None;
        return;
      }
      signal := Some(selectedAnswer.value == questions[currentIndex].correctAnswer);
      showResult := true;
    }

    /** "Lanjut" / "Lihat Hasil": scores the revealed answer, then moves to
        the next question or finishes on the last one. */
    method HandleNext()
      requires Valid() && !isFinished && showResult
      modifies this
      ensures Valid()
      ensures answers == old(answers) + [old(selectedAnswer).value]
      ensures score == old(score) +
        (if old(selectedAnswer).value == questions[old(currentIndex)].correctAnswer then 1 else 0)
      ensures old(currentIndex) < |questions| - 1 ==>
        && currentIndex == old(currentIndex) + 1
        && selectedAnswer == None && !showResult && !isFinished
      ensures old(currentIndex) == |questions| - 1 ==>
        && currentIndex == old(currentIndex)
        && selectedAnswer == old(selectedAnswer) && showResult && isFinished
    {
      var pick := selectedAnswer.value;
      answers := answers + [pick];
      assert answers[..currentIndex] == old(answers);
      if pick == questions[currentIndex].correctAnswer {
        score := score + 1;
      }
      if currentIndex < |questions| - 1 {
        currentIndex := currentIndex + 1;
        selectedAnswer := None;
        showResult := false;
      } else {
        isFinished := true;
      }
    }

    /** "Simpan & Kembali": the one record this quiz emits. */
    method Finish(id: string, timestamp: int) returns (r: ScoreRecord)
      requires Valid() && isFinished
      ensures r.id == id && r.timestamp == timestamp
      ensures r.level == level && r.mode == mode
      ensures r.score == score && r.total == |questions|
      ensures 0 < r.total && r.score <= r.total
      ensures r.score == CorrectCount(questions, answers) && |answers| == r.total
    {
      r := ScoreRecord(id, level, mode, score, |questions|, timestamp);
    }
  }
}
