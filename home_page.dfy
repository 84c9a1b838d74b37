/** The page's client-side state: the running score with its scoring rule and
    progress bar, and the per-problem flags that generating a problem resets
    and that submitting an answer guards on. Requests to the two handlers are
    replaced by their replies, passed in as parameters (`None` when the fetch
    or the decoding of its body throws). */
module HomePage {
  import opened JsValues
  import opened ProblemRoute
  import opened SubmitRoute

  /** The levels and topics the page offers (page.tsx lines 347 and 364-372). */
  const Levels: set<string> := {"easy", "medium", "hard"}
  const Topics: set<string> := {"addition", "subtraction", "multiplication", "division", "mixed"}

  /** The score at which the progress bar is full. */
  const ScoreTarget: int := 20

  const GenerateFailedMessage: string := "Failed to generate problem. Please try again."
  const SubmitFailedMessage: string := "Failed to submit answer. Please try again."
  const ErrorMessage: string := "An error occurred. Please try again."

  /** Points for a correct answer without a hint. */
  function BasePoints(level: string): nat
  {
    if level == "easy" then 1 else if level == "medium" then 2 else if level == "hard" then 3 else 0
  }

  /** The score change for one answered problem. */
  function Delta(correct: bool, level: string, hintWasUsed: bool): (r: int)
    ensures -1 <= r <= 3
    ensures hintWasUsed ==> r <= 2
    ensures !correct ==> r <= 0
  {
    if correct then BasePoints(level) - (if hintWasUsed then 1 else 0)
    else if hintWasUsed then -1 else 0
  }

  /** A correct answer without a hint scores 1, 2 or 3 by difficulty; with a
      hint, one point less. */
  lemma CorrectAnswerScores()
    ensures Delta(true, "easy", false) == 1 && Delta(true, "medium", false) == 2 && Delta(true, "hard", false) == 3
    ensures Delta(true, "easy", true) == 0 && Delta(true, "medium", true) == 1 && Delta(true, "hard", true) == 2
  {
  }

  /** Using the hint costs exactly one point on a correct answer, at every
      level. */
  lemma HintCostsOnePoint(level: string)
    ensures Delta(true, level, true) == Delta(true, level, false) - 1
  {
  }

  /** A wrong answer scores 0 without a hint and -1 with one, whatever the
      level. */
  lemma WrongAnswerScores(level: string, hintWasUsed: bool)
    ensures Delta(false, level, hintWasUsed) == if hintWasUsed then -1 else 0
  {
  }

  /** A level other than the three known ones scores like a wrong answer. */
  lemma UnknownLevelScores(level: string, correct: bool, hintWasUsed: bool)
    requires level != "easy" && level != "medium" && level != "hard"
    ensures Delta(correct, level, hintWasUsed) == if hintWasUsed then -1 else 0
  {
  }

  /** One answered problem, as `updateScore` receives it. */
  datatype Answer = Answer(correct: bool, level: string, hintWasUsed: bool)

  /** The running total after scoring `answers` in order from `start`, as
      repeated `updateScore` calls leave it. Each answer moves the score by at
      most three points up and one point down, so after n answers the total
      lies within [start - n, start + 3n]. */
  function Total(start: int, answers: seq<Answer>): (r: int)
    ensures start - |answers| <= r <= start + 3 * |answers|
  {
    if answers == [] then start
    else
      var a := answers[|answers| - 1];
      Total(start, answers[..|answers| - 1]) + Delta(a.correct, a.level, a.hintWasUsed)
  }

  /** Without hints the score never goes down. */
  lemma {:induction false} NoHintNeverLoses(start: int, answers: seq<Answer>)
    requires forall i :: 0 <= i < |answers| ==> !answers[i].hintWasUsed
    ensures Total(start, answers) >= start
  {
    if answers != [] {
      NoHintNeverLoses(start, answers[..|answers| - 1]);
    }
  }

  /** The progress bar's width in percent, `Math.round(total / 20 * 100)`
      clamped to [0, 100]; for an integer total the rounded value is
      `5 * total`. */
  function Percent(total: int): (r: int)
    ensures 0 <= r <= 100
    ensures total <= 0 ==> r == 0
    ensures total >= ScoreTarget ==> r == 100
    ensures 0 <= total <= ScoreTarget ==> r * ScoreTarget == total * 100
  {
    if total * 5 < 0 then 0 else if total * 5 > 100 then 100 else total * 5
  }

  /** A higher score never shows less progress. */
  lemma PercentMonotone(a: int, b: int)
    requires a <= b
    ensures Percent(a) <= Percent(b)
  {
  }

  /** The page component's state. */
  class Home {
    var problem: Option<Problem>
    var userAnswer: string
    var feedback: string
    var isLoading: bool
    var sessionId: Option<SessionId>
    var isCorrect: Option<bool>
    var difficulty: string
    var problemType: string
    var showHint: bool
    var showSolution: bool
    var totalScore: int
    var hintUsed: bool

    /** The hint is never on screen without having been charged for, an
        answer is only ever graded against a session, and the selections are
        among those offered. */
    ghost predicate Valid()
      reads this
    {
      (showHint ==> hintUsed) && (isCorrect.Some? ==> HasSession()) &&
      difficulty in Levels && problemType in Topics
    }

    /** `sessionId` is truthy: set, and not the empty string. */
    predicate HasSession()
      reads this
    {
      sessionId.Some? && sessionId.value != []
    }

    /** The submit button is enabled (page.tsx line 529). An enabled button
        implies an editable answer field. */
    predicate CanSubmit()
      reads this
      ensures CanSubmit() ==> AnswerEditable() && userAnswer != []
    {
      userAnswer != [] && !isLoading && isCorrect.None?
    }

    /** The answer field accepts input (page.tsx line 524): it is locked once
        the answer has been graded, which happens only against a session. */
    predicate AnswerEditable()
      reads this
      ensures Valid() && !AnswerEditable() ==> HasSession()
    {
      isCorrect.None?
    }

    /** The initial state; the score saved in the browser is not loaded. */
    constructor ()
      ensures Valid()
      ensures problem.None? && userAnswer == [] && feedback == [] && !isLoading && sessionId.None?
      ensures isCorrect.None? && difficulty == "medium" && problemType == "addition"
      ensures !showHint && !showSolution && totalScore == 0 && !hintUsed
    {
      problem := None;
      userAnswer := "";
      feedback := "";
      isLoading := false;
      sessionId := None;
      isCorrect := None;
      difficulty := "medium";
      problemType := "addition";
      showHint := false;
      showSolution := false;
      totalScore := 0;
      hintUsed := false;
    }

    /** The body the page posts to the problem-generation handler: the
        handler reads back from it exactly the selected difficulty and topic,
        never a default. */
    function GenerateRequest(): (body: Value)
      reads this
      requires Valid()
      ensures !body.Null?
      ensures Setting(body, "difficulty", DefaultDifficulty) == Some(difficulty)
      ensures Setting(body, "problem_type", DefaultProblemType) == Some(problemType)
    {
      Obj(map["difficulty" := Str(difficulty), "problem_type" := Str(problemType)])
    }

    /** A difficulty button. */
    method SelectDifficulty(level: string)
      requires Valid() && level in Levels
      modifies this`difficulty
      ensures Valid() && difficulty == level
    {
      difficulty := level;
    }

    /** A topic button. */
    method SelectProblemType(topic: string)
      requires Valid() && topic in Topics
      modifies this`problemType
      ensures Valid() && problemType == topic
    {
      problemType := topic;
    }

    /** Adds the score change for one answer to the running total; nothing
        else changes. */
    method UpdateScore(correct: bool, level: string, hintWasUsed: bool)
      modifies this`totalScore
      ensures totalScore == old(totalScore) + Delta(correct, level, hintWasUsed)
    {
      var points := 0;
      if correct {
        if level == "easy" {
          points := 1;
        } else if level == "medium" {
          points := 2;
        } else if level == "hard" {
          points := 3;
        }
        if hintWasUsed {
          points := points - 1;
        }
      } else {
        if hintWasUsed {
          points := -1;
        }
      }
      totalScore := totalScore + points;
    }

    method ResetScore()
      modifies this`totalScore
      ensures totalScore == 0
    {
      totalScore := 0;
    }

    /** The answer field's change handler. */
    method SetAnswer(text: string)
      requires Valid()
      modifies this`userAnswer
      ensures Valid() && userAnswer == text
    {
      userAnswer := text;
    }

    /** The hint button: toggles the hint, and the first opening sets the
        latch that charges for it. */
    method ToggleHint()
      requires Valid()
      modifies this`showHint, this`hintUsed
      ensures Valid()
      ensures showHint == !old(showHint)
      ensures hintUsed == (old(hintUsed) || !old(showHint))
    {
      var wasShown := showHint;
      showHint := !showHint;
      if !wasShown && !hintUsed {
        hintUsed := true;
      }
    }

    /** The solution button (the hint button is hidden while the solution is
        shown). */
    method ToggleSolution()
      requires Valid()
      modifies this`showSolution
      ensures Valid() && showSolution == !old(showSolution)
    {
      showSolution := !showSolution;
    }

    /** Requests a new problem. The per-problem state is cleared first,
        whatever the reply; only a successful reply replaces the problem and
        the session, so after a failure the previous problem stays on screen
        with its session. */
    method GenerateProblem(reply: Option<GenerateReply>)
      requires Valid()
      modifies this`isLoading, this`feedback, this`userAnswer, this`isCorrect, this`showHint, this`showSolution,
               this`hintUsed, this`problem, this`sessionId
      ensures Valid()
      ensures userAnswer == [] && isCorrect.None? && !showHint && !showSolution && !hintUsed && !isLoading
      ensures match reply
              case Some(Generated(id, p)) => problem == Some(p) && sessionId == Some(id) && feedback == []
              case Some(GenerateFailed(_, _)) =>
                problem == old(problem) && sessionId == old(sessionId) && feedback == GenerateFailedMessage
              case None => problem == old(problem) && sessionId == old(sessionId) && feedback == ErrorMessage
      ensures totalScore == old(totalScore)
    {
      isLoading := true;
      feedback := "";
      userAnswer := "";
      isCorrect := None;
      showHint := false;
      showSolution := false;
      hintUsed := false;
      match reply {
        case Some(Generated(id, p)) =>
          problem := Some(p);
          sessionId := Some(id);
        case Some(GenerateFailed(_, _)) =>
          feedback := GenerateFailedMessage;
        case None =>
          feedback := ErrorMessage;
      }
      isLoading := false;
    }

    /** The level the score is computed for: the problem's difficulty, or
        "medium" when there is no problem or its difficulty is empty. */
    function ScoringLevel(): (level: string)
      reads this
      ensures level != []
      ensures problem.Some? && problem.value.difficulty != [] ==> level == problem.value.difficulty
      ensures !(problem.Some? && problem.value.difficulty != []) ==> level == "medium"
    {
      if problem.Some? && problem.value.difficulty != [] then problem.value.difficulty else "medium"
    }

    /** Submits the answer. Without a session id (none, or the empty string)
        or with an empty answer nothing
        happens; otherwise a successful reply records the grading, shows its
        feedback and scores it with the hint latch, and a failed one shows a
        message. */
    method SubmitAnswer(reply: Option<SubmitReply>)
      requires Valid()
      modifies this`isLoading, this`isCorrect, this`feedback, this`totalScore
      ensures Valid()
      ensures !HasSession() || userAnswer == [] ==>
                isLoading == old(isLoading) && isCorrect == old(isCorrect) && feedback == old(feedback) &&
                totalScore == old(totalScore)
      ensures HasSession() && userAnswer != [] ==>
                !isLoading &&
                match reply
                case Some(Submitted(correct, text, _)) =>
                  isCorrect == Some(correct) && feedback == text && !AnswerEditable() && !CanSubmit() &&
                  totalScore == old(totalScore) + Delta(correct, old(ScoringLevel()), hintUsed)
                case Some(SubmitFailed(_, _)) =>
                  isCorrect == old(isCorrect) && feedback == SubmitFailedMessage && totalScore == old(totalScore)
                case None =>
                  isCorrect == old(isCorrect) && feedback == ErrorMessage && totalScore == old(totalScore)
    {
      if !HasSession() || userAnswer == [] {
        return;
      }
      isLoading := true;
      match reply {
        case Some(Submitted(correct, text, _)) =>
          isCorrect := Some(correct);
          feedback := text;
          UpdateScore(correct, ScoringLevel(), hintUsed);
        case Some(SubmitFailed(_, _)) =>
          feedback := SubmitFailedMessage;
        case None =>
          feedback := ErrorMessage;
      }
      isLoading := false;
    }
  }

  /** The page's own request never makes the problem-generation handler
      fail on its settings and never falls back to a default: the handler
      plans an insert exactly when the generated text parses and validates,
      and then with the difficulty and topic the page selected. */
  lemma SelectionsReachHandler(h: Home, aiText: Option<string>, parse: string -> Option<Value>)
    requires h.Valid()
    ensures var plan := Prepare(Some(h.GenerateRequest()), aiText, parse);
            (plan.Insert? <==> aiText.Some? && parse(Clean(aiText.value)).Some? &&
                               Validate(parse(Clean(aiText.value)).value).Some?) &&
            (plan.Insert? ==> plan.difficulty == h.difficulty && plan.problemType == h.problemType)
  {
  }
}
