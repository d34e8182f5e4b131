/**
 * components/games/emotion-quiz.tsx: five multiple-choice questions on emotional intelligence,
 * answered one at a time; the result screen and the saved score are the share of right answers.
 */
module EmotionQuizzes {

  import opened Wrappers
  import opened Builtins
  import opened Records
  import opened Storage
  import GameCompletion
  import Games
  import Gamification

  datatype Question = Question(question: string, options: seq<string>, correct: int)

  /** `questions.length`. */
  const QuestionCount: nat := 5

  /** `questions`: five questions of four options each, whose right option is a valid index. */
  function Questions(): (qs: seq<Question>)
    ensures |qs| == QuestionCount
    ensures forall i :: 0 <= i < |qs| ==> |qs[i].options| == 4 && 0 <= qs[i].correct < |qs[i].options|
  {
    [ Question("Qual emoção está relacionada ao medo de algo que pode acontecer?",
               ["Alegria", "Ansiedade", "Raiva", "Tristeza"], 1),
      Question("O que é inteligência emocional?",
               ["Ser muito inteligente", "Reconhecer e gerenciar emoções", "Não sentir emoções", "Ser sempre feliz"], 1),
      Question("Qual é uma boa forma de lidar com a raiva?",
               ["Gritar com alguém", "Respirar fundo e contar até 10", "Ignorar a emoção", "Bater em algo"], 1),
      Question("Por que é importante falar sobre nossos sentimentos?",
               ["Para chamar atenção", "Para ajudar a processar emoções", "Não é importante", "Para parecer fraco"], 1),
      Question("O que é empatia?",
               ["Sentir pena de alguém", "Se colocar no lugar do outro", "Concordar com tudo", "Ignorar os outros"], 1) ]
  }

  /** `Math.round((correctAnswers / questions.length) * 100)`: twenty points per right answer. */
  function QuizScore(correctAnswers: nat): (score: int)
    requires correctAnswers <= QuestionCount
    ensures score == 20 * correctAnswers
    ensures 0 <= score <= 100
  {
    Round((correctAnswers as real / QuestionCount as real) * 100.0)
  }

  /** How many of the recorded answers were right. */
  function RightCount(answers: seq<bool>): (n: nat)
    ensures n <= |answers|
  {
    if answers == [] then 0 else RightCount(answers[..|answers| - 1]) + (if answers[|answers| - 1] then 1 else 0)
  }

  /**
   * The score `handleNext` saves on the last question, as written: it reads `correctAnswers`
   * in the same call that schedules its increment, so the last answer is not counted
   * (`lastRight` plays no part).
   */
  function SavedScoreAsWritten(rightBefore: nat, lastRight: bool): (score: int)
    requires rightBefore < QuestionCount
    ensures score == 20 * rightBefore
    ensures 0 <= score <= 80
  {
    QuizScore(rightBefore)
  }

  /** The score the completion screen then shows, from the count that includes the last answer. */
  function DisplayedScore(rightBefore: nat, lastRight: bool): int
    requires rightBefore < QuestionCount
  {
    QuizScore(rightBefore + if lastRight then 1 else 0)
  }

  /** As written, a right last answer is saved twenty points below what is shown: all five right saves 80. */
  lemma SavedScoreAsWrittenLosesLastAnswer(rightBefore: nat)
    requires rightBefore < QuestionCount
    ensures SavedScoreAsWritten(rightBefore, true) == DisplayedScore(rightBefore, true) - 20
    ensures SavedScoreAsWritten(4, true) == 80 && DisplayedScore(4, true) == 100
  {
  }

  /** The score as evidently intended: the share of right answers including the last one. */
  function SavedScore(rightBefore: nat, lastRight: bool): (score: int)
    requires rightBefore < QuestionCount
    ensures 0 <= score <= 100
  {
    QuizScore(rightBefore + if lastRight then 1 else 0)
  }

  /** The intended saved score is the one shown, and it is twenty points per right answer of the whole quiz. */
  lemma SavedScoreMatchesDisplay(answers: seq<bool>)
    requires |answers| == QuestionCount
    ensures RightCount(answers[..|answers| - 1]) < QuestionCount
    ensures var before := RightCount(answers[..|answers| - 1]);
            var last := answers[|answers| - 1];
            SavedScore(before, last) == DisplayedScore(before, last) == 20 * RightCount(answers)
  {
  }

  class EmotionQuiz {
    var currentQuestion: int
    var selectedAnswer: Option<int>
    var correctAnswers: nat
    var showResult: bool
    var isComplete: bool
    /** Whether each question handled so far was answered right. */
    ghost var answers: seq<bool>

    ghost predicate Valid()
      reads this
    {
      && 0 <= currentQuestion < QuestionCount
      && |answers| == currentQuestion + (if isComplete then 1 else 0)
      && correctAnswers == RightCount(answers)
      && (showResult ==> selectedAnswer.Some?)
    }

    constructor ()
      ensures Valid()
      ensures currentQuestion == 0 && selectedAnswer == None && correctAnswers == 0
      ensures !showResult && !isComplete && answers == []
    {
      currentQuestion := 0;
      selectedAnswer := None;
      correctAnswers := 0;
      showResult := false;
      isComplete := false;
      answers := [];
    }

    /** An option click: it selects the option unless the result is already shown. */
    method HandleAnswer(index: int)
      requires Valid()
      modifies this
      ensures Valid()
      ensures selectedAnswer == if old(showResult) then old(selectedAnswer) else Some(index)
      ensures currentQuestion == old(currentQuestion) && correctAnswers == old(correctAnswers)
      ensures showResult == old(showResult) && isComplete == old(isComplete) && answers == old(answers)
    {
      if !showResult {
        selectedAnswer := Some(index);
      }
    }

    /** "Verificar Resposta": it reveals the result, and does nothing while no option is selected. */
    method HandleShowResult()
      requires Valid()
      modifies this
      ensures Valid()
      ensures showResult == (old(showResult) || old(selectedAnswer).Some?)
      ensures currentQuestion == old(currentQuestion) && selectedAnswer == old(selectedAnswer)
      ensures correctAnswers == old(correctAnswers) && isComplete == old(isComplete) && answers == old(answers)
    {
      if selectedAnswer.Some? {
        showResult := true;
      }
    }

    /**
     * `handleNext`, offered once the result is shown: a right answer is counted; before the last
     * question the quiz moves on with a clear selection; on the last one the score is saved,
     * the reward credited and the quiz complete. As written, the saved score is computed from the count
     * read before the last answer is added (see `SavedScoreAsWrittenLosesLastAnswer`).
     */
    method HandleNext(st: LocalStorage, userId: string, game: Game, now: Timestamp)
      requires Valid() && st.Valid()
      requires showResult && !isComplete
      modifies this, st
      ensures Valid() && st.Valid()
      ensures var right := old(selectedAnswer) == Some(Questions()[old(currentQuestion)].correct);
              && answers == old(answers) + [right]
              && correctAnswers == old(correctAnswers) + (if right then 1 else 0)
      ensures old(currentQuestion) < QuestionCount - 1 ==>
                && currentQuestion == old(currentQuestion) + 1
                && selectedAnswer == None && !showResult && !isComplete
                && st.items == old(st.items) && st.keys == old(st.keys)
      ensures old(currentQuestion) == QuestionCount - 1 ==>
                && isComplete
                && currentQuestion == old(currentQuestion)
                && selectedAnswer == old(selectedAnswer) && showResult == old(showResult)
                && Games.GetGameScores(st, userId)
                   == old(Games.GetGameScores(st, userId)) + [GameScore(userId, game.id, QuizScore(old(correctAnswers)), now)]
                && st.items == old(st.items)
                     [Games.ScoresKey(userId) := ScoreList(old(Games.GetGameScores(st, userId)) + [GameScore(userId, game.id, QuizScore(old(correctAnswers)), now)])]
                     [Gamification.ProgressKey(userId) := ProgressRecord(old(Gamification.GetUserProgress(st, userId)).(points := game.pointsReward))]
    {
      var questions := Questions();
      var right := selectedAnswer == Some(questions[currentQuestion].correct);
      var before := correctAnswers;
      if right {
        correctAnswers := correctAnswers + 1;
      }
      answers := answers + [right];
      assert answers[..|answers| - 1] == old(answers);

      if currentQuestion < |questions| - 1 {
        currentQuestion := currentQuestion + 1;
        selectedAnswer := None;
        showResult := false;
      } else {
        var score := SavedScoreAsWritten(before, right);
        GameCompletion.CompleteGame(st, userId, game, score, now);
        isComplete := true;
      }
    }
  }

  /** A finished quiz has one recorded answer per question and scores twenty points per right one. */
  lemma FinishedQuizScore(answers: seq<bool>, correctAnswers: nat)
    requires |answers| == QuestionCount && correctAnswers == RightCount(answers)
    ensures correctAnswers <= QuestionCount
    ensures 0 <= QuizScore(correctAnswers) <= 100
    ensures (forall i :: 0 <= i < |answers| ==> answers[i]) ==> QuizScore(correctAnswers) == 100
  {
    if forall i :: 0 <= i < |answers| ==> answers[i] {
      AllRight(answers);
    }
  }

  lemma {:induction false} AllRight(answers: seq<bool>)
    requires forall i :: 0 <= i < |answers| ==> answers[i]
    ensures RightCount(answers) == |answers|
    decreases |answers|
  {
    if answers != [] {
      AllRight(answers[..|answers| - 1]);
    }
  }
}
