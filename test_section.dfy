/**
 * The test-taking screen: a list of tests, a question-by-question attempt
 * over a fixed bank of multiple-choice questions, and a results screen
 * with the score, the correct/incorrect/unanswered counts and a review of
 * every question. An answer is the index of the chosen option (the screen
 * keeps it as that index's decimal text and compares it with the decimal
 * text of the correct index, which comes to the same thing).
 */
module TestSection {
  import opened Wrappers

  datatype Question = Question(prompt: string, options: seq<string>, correct: nat)

  /** Every question's correct option exists, and there is at least one question. */
  predicate WellFormedBank(bank: seq<Question>)
  {
    |bank| > 0 && forall i :: 0 <= i < |bank| ==> bank[i].correct < |bank[i].options|
  }

  /** The questions every test is taken on, whichever test was started. */
  const SampleQuestions: seq<Question> := [
    Question("If a train travels at 60 km/h for 2 hours, how far does it travel?",
             ["100 km", "110 km", "120 km", "130 km"], 2),
    Question("What is the value of x in the equation: 2x + 5 = 15?",
             ["3", "5", "7", "10"], 1),
    Question("A rectangle has length 8 cm and width 6 cm. What is its perimeter?",
             ["24 cm", "26 cm", "28 cm", "30 cm"], 2),
    Question("If 25% of a number is 50, what is the number?",
             ["150", "175", "200", "225"], 2),
    Question("What is the average of 12, 18, 24, and 30?",
             ["18", "21", "24", "27"], 1)
  ]

  datatype Status = Completed | Available | Upcoming

  datatype TestInfo = TestInfo(id: nat, title: string, status: Status)

  const Tests: seq<TestInfo> := [
    TestInfo(1, "Weekly Test #12 - Quantitative Aptitude", Completed),
    TestInfo(2, "Weekly Test #13 - Verbal Ability", Completed),
    TestInfo(3, "Weekly Test #14 - Logical Reasoning", Available),
    TestInfo(4, "Mock Test - Full Length CAT", Available),
    TestInfo(5, "Weekly Test #15 - Data Interpretation", Upcoming)
  ]

  /** A test card offers "Start Test" only when the test is available. */
  predicate CanStart(t: TestInfo)
  {
    t.status == Available
  }

  /** Of the listed tests, exactly those with ids 3 and 4 can be started. */
  lemma StartableTests()
    ensures forall i :: 0 <= i < |Tests| ==> (CanStart(Tests[i]) <==> Tests[i].id in {3, 4})
  {
  }

  /** Question index to chosen option index; a missing key is an unanswered question. */
  type Answers = map<int, nat>

  predicate KeysInRange(bank: seq<Question>, answers: Answers)
  {
    forall k :: k in answers ==> 0 <= k < |bank|
  }

  /** Every key is a question of the bank and every value one of its options. */
  predicate AnswersValid(bank: seq<Question>, answers: Answers)
  {
    forall k :: k in answers ==> 0 <= k < |bank| && answers[k] < |bank[k].options|
  }

  /** handleAnswer: `question` now holds `option`, replacing any earlier answer; nothing else changes. */
  function Recorded(answers: Answers, question: int, option: nat): (r: Answers)
    ensures question in r && r[question] == option
    ensures r.Keys == answers.Keys + {question}
    ensures forall k :: k in answers && k != question ==> r[k] == answers[k]
  {
    answers[question := option]
  }

  /** Recording an in-range answer keeps every key and value in range. */
  lemma RecordedValid(bank: seq<Question>, answers: Answers, question: int, option: nat)
    requires AnswersValid(bank, answers)
    requires 0 <= question < |bank| && option < |bank[question].options|
    ensures AnswersValid(bank, Recorded(answers, question, option))
  {
  }

  /** Answering twice keeps only the later answer. */
  lemma RecordedTwice(answers: Answers, question: int, first: nat, second: nat)
    ensures Recorded(Recorded(answers, question, first), question, second) == Recorded(answers, question, second)
  {
  }

  predicate IsCorrect(bank: seq<Question>, answers: Answers, i: int)
    requires 0 <= i < |bank|
  {
    i in answers && answers[i] == bank[i].correct
  }

  /** The number of correctly answered questions among the first `n`. */
  function CorrectCount(bank: seq<Question>, answers: Answers, n: nat): (r: nat)
    requires n <= |bank|
    ensures r <= n
  {
    if n == 0 then 0
    else CorrectCount(bank, answers, n - 1) + (if IsCorrect(bank, answers, n - 1) then 1 else 0)
  }

  lemma {:induction false} CorrectCountAll(bank: seq<Question>, answers: Answers, n: nat)
    requires n <= |bank|
    ensures CorrectCount(bank, answers, n) == n <==> forall i :: 0 <= i < n ==> IsCorrect(bank, answers, i)
    ensures CorrectCount(bank, answers, n) == 0 <==> forall i :: 0 <= i < n ==> !IsCorrect(bank, answers, i)
  {
    if n > 0 {
      CorrectCountAll(bank, answers, n - 1);
    }
  }

  /** calculateScore: the percentage of questions answered correctly. */
  function Score(bank: seq<Question>, answers: Answers): (r: real)
    requires |bank| > 0
    ensures 0.0 <= r <= 100.0
    ensures r * |bank| as real == CorrectCount(bank, answers, |bank|) as real * 100.0
  {
    var c := CorrectCount(bank, answers, |bank|);
    RatioBounds(c, |bank|);
    (c as real / |bank| as real) * 100.0
  }

  lemma RatioBounds(c: nat, n: nat)
    requires 0 < n && c <= n
    ensures 0.0 <= (c as real / n as real) * 100.0 <= 100.0
    ensures (c as real / n as real) * 100.0 == 100.0 <==> c == n
    ensures (c as real / n as real) * 100.0 == 0.0 <==> c == 0
  {
    var q := c as real / n as real;
    assert q * (n as real) == c as real;
    if q == 1.0 {
      assert c as real == n as real;
    }
    if q == 0.0 {
      assert c as real == 0.0;
    }
  }

  /**
   * The score lies in [0, 100]; it is 100 exactly when every question is
   * answered correctly and 0 exactly when none is.
   */
  lemma ScoreBounds(bank: seq<Question>, answers: Answers)
    requires |bank| > 0
    ensures 0.0 <= Score(bank, answers) <= 100.0
    ensures Score(bank, answers) == 100.0 <==> forall i :: 0 <= i < |bank| ==> IsCorrect(bank, answers, i)
    ensures Score(bank, answers) == 0.0 <==> forall i :: 0 <= i < |bank| ==> !IsCorrect(bank, answers, i)
  {
    RatioBounds(CorrectCount(bank, answers, |bank|), |bank|);
    CorrectCountAll(bank, answers, |bank|);
  }

  /** The keys whose answer matches the correct option (the "Correct" tile's filter). */
  function CorrectKeys(bank: seq<Question>, answers: Answers, n: nat): set<int>
    requires n <= |bank|
  {
    set k | k in answers && 0 <= k < n && answers[k] == bank[k].correct
  }

  /** The keys below `n` whose answer differs from the correct option (the "Incorrect" tile's filter). */
  function IncorrectKeys(bank: seq<Question>, answers: Answers, n: nat): set<int>
    requires n <= |bank|
  {
    set k | k in answers && 0 <= k < n && answers[k] != bank[k].correct
  }

  /** The number of answered but wrongly answered questions among the first `n`. */
  function IncorrectCount(bank: seq<Question>, answers: Answers, n: nat): nat
    requires n <= |bank|
  {
    if n == 0 then 0
    else IncorrectCount(bank, answers, n - 1) + (if n - 1 in answers && !IsCorrect(bank, answers, n - 1) then 1 else 0)
  }

  /** The number of questions without an answer among the first `n`. */
  function UnansweredCount(answers: Answers, n: nat): nat
  {
    if n == 0 then 0
    else UnansweredCount(answers, n - 1) + (if n - 1 in answers then 0 else 1)
  }

  /** Every question is correct, incorrect or unanswered, and exactly one of these. */
  lemma {:induction false} CountsPartition(bank: seq<Question>, answers: Answers, n: nat)
    requires n <= |bank|
    ensures CorrectCount(bank, answers, n) + IncorrectCount(bank, answers, n) + UnansweredCount(answers, n) == n
  {
    if n > 0 {
      CountsPartition(bank, answers, n - 1);
    }
  }

  lemma {:induction false} IncorrectKeysCount(bank: seq<Question>, answers: Answers, n: nat)
    requires n <= |bank|
    ensures |IncorrectKeys(bank, answers, n)| == IncorrectCount(bank, answers, n)
  {
    if n > 0 {
      IncorrectKeysCount(bank, answers, n - 1);
      if n - 1 in answers && !IsCorrect(bank, answers, n - 1) {
        assert IncorrectKeys(bank, answers, n) == IncorrectKeys(bank, answers, n - 1) + {n - 1};
      } else {
        assert IncorrectKeys(bank, answers, n) == IncorrectKeys(bank, answers, n - 1);
      }
    }
  }

  /** A set of indices below `n` has at most `n` members. */
  lemma {:induction false} IndicesBelowSize(keys: set<int>, n: nat)
    requires forall k :: k in keys ==> 0 <= k < n
    ensures |keys| <= n
  {
    if n > 0 {
      var rest := keys - {n - 1};
      IndicesBelowSize(rest, n - 1);
    } else {
      assert forall k :: k !in keys;
      assert keys == {};
    }
  }

  lemma {:induction false} CorrectKeysCount(bank: seq<Question>, answers: Answers, n: nat)
    requires n <= |bank|
    ensures |CorrectKeys(bank, answers, n)| == CorrectCount(bank, answers, n)
  {
    if n > 0 {
      CorrectKeysCount(bank, answers, n - 1);
      if IsCorrect(bank, answers, n - 1) {
        assert CorrectKeys(bank, answers, n) == CorrectKeys(bank, answers, n - 1) + {n - 1};
      } else {
        assert CorrectKeys(bank, answers, n) == CorrectKeys(bank, answers, n - 1);
      }
    }
  }

  datatype Counts = Counts(correct: nat, incorrect: nat, unanswered: int)

  /**
   * The three tiles of the results screen. Whenever the keys are question
   * indices, "Correct" is the count the score is computed from, "Incorrect"
   * counts the answered questions whose answer is wrong, "Unanswered" counts
   * the questions with no answer, and the three add up to the number of
   * questions.
   */
  function DisplayedCounts(bank: seq<Question>, answers: Answers): (c: Counts)
    requires KeysInRange(bank, answers)
    ensures c.correct + c.incorrect + c.unanswered == |bank|
    ensures c.unanswered >= 0
    ensures c.correct == CorrectCount(bank, answers, |bank|)
    ensures c.incorrect == IncorrectCount(bank, answers, |bank|)
    ensures c.unanswered == UnansweredCount(answers, |bank|)
  {
    var ck := CorrectKeys(bank, answers, |bank|);
    var ik := IncorrectKeys(bank, answers, |bank|);
    assert answers.Keys == ck + ik;
    assert ck * ik == {};
    IndicesBelowSize(answers.Keys, |bank|);
    CorrectKeysCount(bank, answers, |bank|);
    IncorrectKeysCount(bank, answers, |bank|);
    CountsPartition(bank, answers, |bank|);
    Counts(|ck|, |ik|, |bank| - |answers|)
  }

  /** One entry of the answer review. */
  datatype ReviewItem = ReviewItem(prompt: string, isCorrect: bool, yourAnswer: string, correctAnswer: Option<string>)

  /**
   * The answer review: one entry per question, in bank order. An unanswered
   * question reads "Not answered" and is marked not correct; the correct
   * option is shown exactly for the entries not marked correct.
   */
  function Review(bank: seq<Question>, answers: Answers): (r: seq<ReviewItem>)
    requires WellFormedBank(bank) && AnswersValid(bank, answers)
    ensures |r| == |bank|
    ensures forall i :: 0 <= i < |r| ==> r[i].prompt == bank[i].prompt
    ensures forall i :: 0 <= i < |r| ==> (r[i].isCorrect <==> IsCorrect(bank, answers, i))
    ensures forall i :: 0 <= i < |r| && i !in answers ==> !r[i].isCorrect && r[i].yourAnswer == "Not answered"
    ensures forall i :: 0 <= i < |r| && i in answers ==> r[i].yourAnswer == bank[i].options[answers[i]]
    ensures forall i :: 0 <= i < |r| ==>
      (r[i].correctAnswer.Some? <==> !r[i].isCorrect) &&
      (r[i].correctAnswer.Some? ==> r[i].correctAnswer.value == bank[i].options[bank[i].correct])
  {
    seq(|bank|, i requires 0 <= i < |bank| =>
      var q := bank[i];
      var ok := i in answers && answers[i] == q.correct;
      ReviewItem(q.prompt, ok,
                 if i in answers then q.options[answers[i]] else "Not answered",
                 if ok then None else Some(q.options[q.correct])))
  }

  /** Progress bar value on question `current` of `total`. */
  function Progress(current: int, total: int): (r: real)
    requires 0 <= current < total
    ensures 0.0 < r <= 100.0
    ensures r == 100.0 <==> current == total - 1
  {
    RatioBounds(current + 1, total);
    ((current + 1) as real / total as real) * 100.0
  }

  /** "Previous": one question back, never below the first. */
  function PreviousIndex(current: int): (r: int)
    requires 0 <= current
    ensures 0 <= r <= current
    ensures current > 0 ==> r == current - 1
  {
    if current - 1 > 0 then current - 1 else 0
  }

  /** "Next": one question on, never past the last. */
  function NextIndex(current: int, total: int): (r: int)
    requires 0 <= current < total
    ensures current <= r < total
    ensures current < total - 1 ==> r == current + 1
  {
    if total - 1 < current + 1 then total - 1 else current + 1
  }

  /** "Previous" is disabled exactly on the first question, where it would not move. */
  predicate PreviousEnabled(current: int): (r: bool)
    requires 0 <= current
    ensures r <==> PreviousIndex(current) != current
  {
    current != 0
  }

  datatype ForwardButton = NextButton | SubmitButton

  /** The button beside "Previous": Submit on the last question, Next elsewhere. */
  function Forward(current: int, total: int): (b: ForwardButton)
    ensures b == SubmitButton <==> current == total - 1
  {
    if current == total - 1 then SubmitButton else NextButton
  }

  datatype Screen = TestList | Taking | Results

  /** Which screen renders: the question screen first, then results, else the list. */
  function ScreenOf(activeTest: Option<TestInfo>, showResults: bool): (s: Screen)
    ensures s == Taking <==> activeTest.Some? && !showResults
    ensures s == Results <==> showResults
  {
    if activeTest.Some? && !showResults then Taking
    else if showResults then Results
    else TestList
  }

  class QuizEngine {
    const bank: seq<Question>
    var activeTest: Option<TestInfo>
    var currentQuestion: int
    var answers: Answers
    var showResults: bool

    /**
     * The current question is a question of the bank, every answer is an
     * option of its question, results are only shown for a started test,
     * and only an available test is ever started.
     */
    ghost predicate Valid()
      reads this
    {
      && WellFormedBank(bank)
      && 0 <= currentQuestion < |bank|
      && AnswersValid(bank, answers)
      && (showResults ==> activeTest.Some?)
      && (activeTest.Some? ==> CanStart(activeTest.value))
    }

    function CurrentScreen(): Screen
      reads this
    {
      ScreenOf(activeTest, showResults)
    }

    constructor ()
      ensures Valid() && bank == SampleQuestions
      ensures activeTest == None && currentQuestion == 0 && answers == map[] && !showResults
      ensures CurrentScreen() == TestList
    {
      bank := SampleQuestions;
      activeTest := None;
      currentQuestion := 0;
      answers := map[];
      showResults := false;
    }

    /** handleStartTest, reachable from an available test's card on the list screen. */
    method StartTest(t: TestInfo)
      requires Valid() && CurrentScreen() == TestList && CanStart(t)
      modifies this
      ensures Valid()
      ensures activeTest == Some(t) && currentQuestion == 0 && answers == map[] && !showResults
      ensures CurrentScreen() == Taking
    {
      activeTest := Some(t);
      currentQuestion := 0;
      answers := map[];
      showResults := false;
    }

    /** handleAnswer(currentQuestion, option) from the current question's radio group. */
    method Answer(option: nat)
      requires Valid() && CurrentScreen() == Taking && option < |bank[currentQuestion].options|
      modifies this`answers
      ensures Valid()
      ensures answers == Recorded(old(answers), currentQuestion, option)
    {
      RecordedValid(bank, answers, currentQuestion, option);
      answers := Recorded(answers, currentQuestion, option);
    }

    /** The question screen's "Previous" button. */
    method Previous()
      requires Valid() && CurrentScreen() == Taking
      modifies this`currentQuestion
      ensures Valid()
      ensures currentQuestion == PreviousIndex(old(currentQuestion))
      ensures currentQuestion != old(currentQuestion) <==> PreviousEnabled(old(currentQuestion))
    {
      currentQuestion := if currentQuestion - 1 > 0 then currentQuestion - 1 else 0;
    }

    /** The question screen's "Next" button, shown before the last question. */
    method Next()
      requires Valid() && CurrentScreen() == Taking && Forward(currentQuestion, |bank|) == NextButton
      modifies this`currentQuestion
      ensures Valid()
      ensures currentQuestion == NextIndex(old(currentQuestion), |bank|)
    {
      currentQuestion := if |bank| - 1 < currentQuestion + 1 then |bank| - 1 else currentQuestion + 1;
    }

    /** handleSubmit, bound to the Submit button shown on the last question. */
    method Submit()
      requires Valid() && CurrentScreen() == Taking && Forward(currentQuestion, |bank|) == SubmitButton
      modifies this`showResults
      ensures Valid() && showResults
      ensures CurrentScreen() == Results
    {
      showResults := true;
    }

    /** "Back to Tests": clears the test and the results flag; answers and position stay. */
    method BackToTests()
      requires Valid() && CurrentScreen() == Results
      modifies this`activeTest, this`showResults
      ensures Valid()
      ensures activeTest == None && !showResults
      ensures CurrentScreen() == TestList
    {
      activeTest := None;
      showResults := false;
    }

    /** calculateScore, counting the correct answers in one pass over the bank. */
    method CalculateScore() returns (score: real)
      requires Valid()
      ensures score == Score(bank, answers)
    {
      var correct := 0;
      var i := 0;
      while i < |bank|
        invariant 0 <= i <= |bank|
        invariant correct == CorrectCount(bank, answers, i)
      {
        if i in answers && answers[i] == bank[i].correct {
          correct := correct + 1;
        }
        i := i + 1;
      }
      score := (correct as real / |bank| as real) * 100.0;
    }

    function CurrentProgress(): (r: real)
      reads this
      requires Valid()
      ensures 0.0 < r <= 100.0
      ensures r == 100.0 <==> Forward(currentQuestion, |bank|) == SubmitButton
    {
      Progress(currentQuestion, |bank|)
    }
  }

  /**
   * Five questions; the first three answered correctly, the fourth wrongly,
   * the fifth left open: a score of 60 with 3 correct, 1 incorrect and
   * 1 unanswered.
   */
  lemma SampleScenario()
    ensures var a: Answers := map[0 := 2, 1 := 1, 2 := 2, 3 := 0];
      Score(SampleQuestions, a) == 60.0 && DisplayedCounts(SampleQuestions, a) == Counts(3, 1, 1)
  {
    var a: Answers := map[0 := 2, 1 := 1, 2 := 2, 3 := 0];
    assert CorrectCount(SampleQuestions, a, 5) == 3;
    assert |a| == 4;
  }
}
