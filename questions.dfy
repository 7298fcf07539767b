/**
 * Question records and the stage lookup of `loadQuestions` (app.js
 * lines 59-63), with the count of correctly answered questions that the
 * quiz score is made of.
 */
module Questions {
  import opened Options

  /** One entry of a stage in questions.json. */
  datatype Question = Question(
    text: string,
    choices: seq<string>,
    correctIndex: int,
    hint: Option<string>,
    signImage: Option<string>)

  /** The stage the quiz route loads. */
  const DefaultStage: string := "stage1"

  /**
   * `data[stageId] || []`: the parsed questions.json is given as `data`
   * (the fetch is left out). A known stage yields its list, an unknown one
   * the empty list rather than an error.
   */
  function LoadQuestions(data: map<string, seq<Question>>, stageId: string): (qs: seq<Question>)
    ensures stageId in data ==> qs == data[stageId]
    ensures stageId !in data ==> qs == []
  {
    if stageId in data then data[stageId] else []
  }

  /** Whether `answer`, the first accepted selection for `q`, scores. */
  function Scores(q: Question, answer: Option<int>): (correct: bool)
    ensures correct <==> answer.Some? && answer.value == q.correctIndex
    ensures answer == None ==> !correct
  {
    answer == Some(q.correctIndex)
  }

  /**
   * The number of questions whose first accepted selection was the
   * correct choice; `answers[j]` is that selection for `qs[j]`, or `None`.
   */
  function CountCorrect(qs: seq<Question>, answers: seq<Option<int>>): (n: nat)
    requires |answers| == |qs|
    ensures n <= |qs|
    ensures n == 0 <== forall j :: 0 <= j < |qs| ==> answers[j] == None
  {
    if qs == [] then 0
    else (if Scores(qs[0], answers[0]) then 1 else 0) + CountCorrect(qs[1..], answers[1..])
  }

  /** A list of `n` unanswered questions. */
  function NoAnswers(n: nat): (a: seq<Option<int>>)
    ensures |a| == n && forall j :: 0 <= j < n ==> a[j] == None
  {
    seq(n, j => None)
  }

  /**
   * Recording the first selection `i` for a so far unanswered question
   * `j` adds one correct answer exactly when `i` is that question's
   * correct index, and none otherwise.
   */
  lemma {:induction false} CountCorrectAnswer(qs: seq<Question>, answers: seq<Option<int>>, j: nat, i: int)
    requires |answers| == |qs| && j < |qs| && answers[j] == None
    ensures CountCorrect(qs, answers[j := Some(i)])
         == CountCorrect(qs, answers) + (if i == qs[j].correctIndex then 1 else 0)
  {
    var a := answers[j := Some(i)];
    if j == 0 {
      assert a[1..] == answers[1..];
    } else {
      assert a[1..] == answers[1..][j - 1 := Some(i)];
      CountCorrectAnswer(qs[1..], answers[1..], j - 1, i);
    }
  }
}
