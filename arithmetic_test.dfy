/**
 * The arithmetic quiz: the correct answers of the two levels, the answer
 * check, the scoring loops and the level prompt. The random operands and
 * operators and the user's answers are parameters.
 */
module ArithmeticTest {
  import opened Wrappers

  /** The number of tasks in one test. */
  const TasksCount: nat := 5

  datatype Operation = Plus | Minus | Times

  /** A simple-level task `num1 op num2`. */
  datatype SimpleTask = SimpleTask(num1: int, num2: int, op: Operation)

  /** The operands the simple level draws: both in 2..9. */
  predicate InSimpleRange(task: SimpleTask)
  {
    2 <= task.num1 <= 9 && 2 <= task.num2 <= 9
  }

  /** The correct answer of a simple task; with operands in 2..9 it lies in -7..81. */
  function SimpleAnswer(task: SimpleTask): (r: int)
    ensures InSimpleRange(task) && task.op == Plus ==> 4 <= r <= 18
    ensures InSimpleRange(task) && task.op == Minus ==> -7 <= r <= 7
    ensures InSimpleRange(task) && task.op == Times ==> 4 <= r <= 81
    ensures InSimpleRange(task) ==> -7 <= r <= 81
  {
    match task.op
    case Plus => task.num1 + task.num2
    case Minus => task.num1 - task.num2
    case Times =>
      ProductBounds(task.num1, task.num2);
      task.num1 * task.num2
  }

  lemma ProductBounds(a: int, b: int)
    ensures 2 <= a <= 9 && 2 <= b <= 9 ==> 4 <= a * b <= 81
  {
    if 2 <= a <= 9 && 2 <= b <= 9 {
      assert 2 * b <= a * b <= 9 * b;
    }
  }

  /** The number the hard level draws: in 11..29. */
  predicate InHardRange(number: int)
  {
    11 <= number <= 29
  }

  /** The correct answer of a hard task is the square; with the number in 11..29 it lies in 121..841. */
  function HardAnswer(number: int): (r: int)
    ensures r >= 0
    ensures InHardRange(number) ==> 121 <= r <= 841
  {
    SquareBounds(number);
    number * number
  }

  lemma SquareBounds(n: int)
    ensures n * n >= 0
    ensures 11 <= n <= 29 ==> 121 <= n * n <= 841
  {
    if n < 0 {
      assert n * n == (-n) * (-n);
    }
    if 11 <= n <= 29 {
      assert 11 * n <= n * n <= 29 * n;
    }
  }

  /** An answer is right exactly when it equals the correct one. */
  function CheckAnswer(correct: int, user: int): (right: bool)
    ensures right <==> user == correct
  {
    user == correct
  }

  /** The number of positions where the user's answer matches the correct one. */
  function Matches(correct: seq<int>, answers: seq<int>): (n: nat)
    requires |correct| == |answers|
    ensures n <= |correct|
  {
    if correct == [] then 0
    else
      Matches(correct[..|correct| - 1], answers[..|answers| - 1])
      + (if CheckAnswer(correct[|correct| - 1], answers[|answers| - 1]) then 1 else 0)
  }

  /** The positions where the user's answer is right. */
  function RightPositions(correct: seq<int>, answers: seq<int>): set<int>
    requires |correct| == |answers|
  {
    set k | 0 <= k < |correct| && correct[k] == answers[k]
  }

  /** The score is the number of tasks answered correctly. */
  lemma {:induction false} MatchesCountsRightAnswers(correct: seq<int>, answers: seq<int>)
    requires |correct| == |answers|
    ensures Matches(correct, answers) == |RightPositions(correct, answers)|
    decreases |correct|
  {
    if correct != [] {
      var n := |correct| - 1;
      var c, a := correct[..n], answers[..n];
      MatchesCountsRightAnswers(c, a);
      var before := RightPositions(c, a);
      if correct[n] == answers[n] {
        assert RightPositions(correct, answers) == before + {n};
        assert n !in before;
      } else {
        assert RightPositions(correct, answers) == before;
      }
    }
  }

  /** Full marks exactly when every answer is right. */
  lemma {:induction false} FullMarks(correct: seq<int>, answers: seq<int>)
    requires |correct| == |answers|
    ensures Matches(correct, answers) == |correct| <==> correct == answers
    decreases |correct|
  {
    if correct != [] {
      var n := |correct| - 1;
      FullMarks(correct[..n], answers[..n]);
      if correct == answers {
        assert correct[..n] == answers[..n];
      } else if correct[..n] == answers[..n] {
        assert correct[n] != answers[n] by {
          assert correct == correct[..n] + [correct[n]];
          assert answers == answers[..n] + [answers[n]];
        }
      }
    }
  }

  /** A score of zero exactly when every answer is wrong. */
  lemma {:induction false} ZeroMarks(correct: seq<int>, answers: seq<int>)
    requires |correct| == |answers|
    ensures Matches(correct, answers) == 0 <==> forall k :: 0 <= k < |correct| ==> correct[k] != answers[k]
    decreases |correct|
  {
    if correct != [] {
      var n := |correct| - 1;
      ZeroMarks(correct[..n], answers[..n]);
      assert forall k :: 0 <= k < n ==> correct[..n][k] == correct[k] && answers[..n][k] == answers[k];
    }
  }

  /** The correct answers of a simple test. */
  function SimpleAnswers(tasks: seq<SimpleTask>): (r: seq<int>)
    ensures |r| == |tasks|
    ensures forall k :: 0 <= k < |tasks| && InSimpleRange(tasks[k]) ==> -7 <= r[k] <= 81
  {
    seq(|tasks|, k requires 0 <= k < |tasks| => SimpleAnswer(tasks[k]))
  }

  /** The correct answers of a hard test. */
  function HardAnswers(numbers: seq<int>): (r: seq<int>)
    ensures |r| == |numbers|
    ensures forall k :: 0 <= k < |numbers| && InHardRange(numbers[k]) ==> 121 <= r[k] <= 841
  {
    seq(|numbers|, k requires 0 <= k < |numbers| => HardAnswer(numbers[k]))
  }

  /** The simple test: one point for every task whose answer is right. */
  method SimpleTest(tasks: nat, problems: seq<SimpleTask>, answers: seq<int>) returns (score: nat)
    requires |problems| == tasks && |answers| == tasks
    ensures score == Matches(SimpleAnswers(problems), answers)
    ensures score <= tasks
  {
    ghost var correct := SimpleAnswers(problems);
    score := 0;
    var i := 0;
    while i < tasks
      invariant 0 <= i <= tasks
      invariant score == Matches(correct[..i], answers[..i])
    {
      var task := problems[i];
      var correctAnswer;
      if task.op == Plus {
        correctAnswer := task.num1 + task.num2;
      } else if task.op == Minus {
        correctAnswer := task.num1 - task.num2;
      } else {
        correctAnswer := task.num1 * task.num2;
      }
      assert correctAnswer == correct[i];
      assert correct[..i + 1][..i] == correct[..i] && answers[..i + 1][..i] == answers[..i];
      score := score + if CheckAnswer(correctAnswer, answers[i]) then 1 else 0;
      i := i + 1;
    }
    assert correct[..i] == correct && answers[..i] == answers;
  }

  /** The hard test: one point for every square computed right. */
  method HardTest(tasks: nat, numbers: seq<int>, answers: seq<int>) returns (score: nat)
    requires |numbers| == tasks && |answers| == tasks
    ensures score == Matches(HardAnswers(numbers), answers)
    ensures score <= tasks
  {
    ghost var correct := HardAnswers(numbers);
    score := 0;
    var i := 0;
    while i < tasks
      invariant 0 <= i <= tasks
      invariant score == Matches(correct[..i], answers[..i])
    {
      var correctAnswer := numbers[i] * numbers[i];
      assert correctAnswer == correct[i];
      assert correct[..i + 1][..i] == correct[..i] && answers[..i + 1][..i] == answers[..i];
      score := score + if CheckAnswer(correctAnswer, answers[i]) then 1 else 0;
      i := i + 1;
    }
    assert correct[..i] == correct && answers[..i] == answers;
  }

  /** An answer to a choice prompt is accepted when it is numeric and one of the valid choices. */
  predicate AcceptsChoice(validChoices: seq<int>, answer: Option<int>)
  {
    answer.Some? && answer.value in validChoices
  }

  /** Asks until an answer is one of the valid choices (None: the answers ran out). */
  method GetChoice(validChoices: seq<int>, answers: seq<Option<int>>) returns (choice: Option<int>)
    ensures choice.Some? ==> choice.value in validChoices
    ensures choice.None? <==> forall k :: 0 <= k < |answers| ==> !AcceptsChoice(validChoices, answers[k])
    ensures choice.Some? ==> exists k :: 0 <= k < |answers| && answers[k] == choice &&
                                         (forall j :: 0 <= j < k ==> !AcceptsChoice(validChoices, answers[j]))
  {
    var i := 0;
    while i < |answers|
      invariant 0 <= i <= |answers|
      invariant forall j :: 0 <= j < i ==> !AcceptsChoice(validChoices, answers[j])
    {
      var answer := answers[i];
      if answer.Some? && answer.value in validChoices {
        return answer;
      }
      i := i + 1;
    }
    return None;
  }

  /** The level that was chosen and the score reached in it. */
  datatype Outcome = Outcome(level: int, score: nat)

  /**
   * The quiz: asks for level 1 or 2, then runs that level's test of five
   * tasks. None when the level answers run out before a valid one.
   */
  method Quiz(levelAnswers: seq<Option<int>>, simpleTasks: seq<SimpleTask>, hardNumbers: seq<int>, answers: seq<int>)
    returns (outcome: Option<Outcome>)
    requires |simpleTasks| == TasksCount && |hardNumbers| == TasksCount && |answers| == TasksCount
    ensures outcome.None? <==> forall k :: 0 <= k < |levelAnswers| ==> !AcceptsChoice([1, 2], levelAnswers[k])
    ensures outcome.Some? ==> (outcome.value.level == 1 || outcome.value.level == 2) && outcome.value.score <= TasksCount
    ensures outcome.Some? ==> exists k :: 0 <= k < |levelAnswers| && levelAnswers[k] == Some(outcome.value.level) &&
                                          (forall j :: 0 <= j < k ==> !AcceptsChoice([1, 2], levelAnswers[j]))
    ensures outcome.Some? && outcome.value.level == 1 ==> outcome.value.score == Matches(SimpleAnswers(simpleTasks), answers)
    ensures outcome.Some? && outcome.value.level == 2 ==> outcome.value.score == Matches(HardAnswers(hardNumbers), answers)
  {
    var levelChoice := GetChoice([1, 2], levelAnswers);
    if levelChoice.None? {
      return None;
    }
    var level := levelChoice.value;
    var score;
    if level == 1 {
      score := SimpleTest(TasksCount, simpleTasks, answers);
    } else {
      assert level == 2;
      score := HardTest(TasksCount, hardNumbers, answers);
    }
    return Some(Outcome(level, score));
  }
}
