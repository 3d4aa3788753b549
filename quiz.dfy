/**
 * The landing-page quiz (src/app/page.tsx).
 *
 * `Home` keeps the index of the current question, the selected answer,
 * whether the explanation is shown, the score, whether the quiz is over,
 * and one "answered" flag per question.  The handlers are the methods of
 * `QuizPage`; the score message is a function of the score.
 */
module Quiz {
  import opened Wrappers

  datatype Question = Question(
    id: nat, question: string, options: seq<string>, correctAnswer: int, explanation: string)

  /** `quizQuestions`. */
  const Questions: seq<Question> := [
    Question(1, "Qual é o principal benefício do Face Yoga?",
      ["Perder peso rapidamente", "Tonificar músculos faciais naturalmente",
       "Mudar a cor da pele", "Aumentar o tamanho dos olhos"], 1,
      "O Face Yoga tonifica os músculos faciais de forma natural, proporcionando um rosto mais firme e jovem sem procedimentos invasivos."),
    Question(2, "Quanto tempo leva para ver resultados com o Glowface?",
      ["1 dia", "6 meses", "2-4 semanas", "1 ano"], 2,
      "A maioria dos usuários nota diferenças visíveis em 2-4 semanas de prática regular e consistente."),
    Question(3, "Qual celebridade é conhecida por usar Face Yoga?",
      ["Taylor Swift", "Kim Kardashian", "Beyoncé", "Rihanna"], 1,
      "Kim Kardashian é uma das celebridades que utiliza o método de Face Yoga desenvolvido pela instrutora Koko."),
    Question(4, "O que você precisa para praticar Face Yoga?",
      ["Equipamentos caros", "Uma academia", "Apenas seu rosto e dedicação",
       "Produtos químicos especiais"], 2,
      "Você não precisa de nenhum equipamento! Apenas seu rosto e alguns minutos por dia são suficientes."),
    Question(5, "Quantos exercícios exclusivos o Glowface oferece?",
      ["10 exercícios", "20 exercícios", "30+ exercícios", "5 exercícios"], 2,
      "O Glowface oferece mais de 30 exercícios exclusivos com orientações em vídeo de alta qualidade."),
    Question(6, "Qual tecnologia o Glowface usa para ajudar nos exercícios?",
      ["Realidade Virtual", "Inteligência Artificial", "Hologramas", "Nenhuma tecnologia"], 1,
      "O Glowface utiliza Inteligência Artificial para orientar cada movimento e garantir a execução perfeita dos exercícios."),
    Question(7, "O Face Yoga é adequado para qual faixa etária?",
      ["Apenas para jovens", "Apenas para idosos", "Todas as idades", "Apenas para adultos"], 2,
      "O Face Yoga é adequado para todas as idades. Quanto mais cedo começar, melhores os resultados preventivos!"),
    Question(8, "Qual é a principal vantagem do Glowface em relação a cirurgias?",
      ["É mais caro", "É natural e não invasivo", "Dá resultados instantâneos", "Requer internação"], 1,
      "O Glowface oferece uma solução natural e não invasiva, sem os riscos e custos de procedimentos cirúrgicos.")
  ]

  /** Every question's correct answer is one of its options. */
  lemma QuestionsWellFormed()
    ensures |Questions| == 8
    ensures forall q :: q in Questions ==> 0 <= q.correctAnswer < |q.options|
  {
  }

  /** The number of `true` flags. */
  function CountAnswered(flags: seq<bool>): (n: nat)
    ensures n <= |flags|
  {
    if flags == [] then 0 else (if flags[0] then 1 else 0) + CountAnswered(flags[1..])
  }

  /** Raising one flag adds one to the count if it was down, nothing otherwise. */
  lemma {:induction false} CountAnsweredMark(flags: seq<bool>, i: nat)
    requires i < |flags|
    ensures CountAnswered(flags[i := true]) == CountAnswered(flags) + (if flags[i] then 0 else 1)
  {
    if i > 0 {
      CountAnsweredMark(flags[1..], i - 1);
      assert flags[i := true][1..] == flags[1..][i - 1 := true];
    } else {
      assert flags[i := true][1..] == flags[1..];
    }
  }

  /** A list of flags that are all down counts zero. */
  lemma {:induction false} CountAnsweredNone(n: nat)
    ensures CountAnswered(seq(n, _ => false)) == 0
  {
    if n > 0 {
      CountAnsweredNone(n - 1);
      assert seq(n, _ => false)[1..] == seq(n - 1, _ => false);
    }
  }

  const PerfectMessage := "🏆 Perfeito! Você é um expert em Face Yoga!"
  const ExcellentMessage := "⭐ Excelente! Você conhece muito bem o Glowface!"
  const GoodMessage := "👍 Bom trabalho! Continue aprendendo!"
  const KeepPractisingMessage := "💪 Continue praticando! O conhecimento vem com o tempo!"

  /** `getScoreMessage`: the percentage `score / 8 * 100`, computed exactly
      (for eight questions every such double is exact), picks the message. */
  function ScoreMessage(score: nat): (m: string)
    ensures m == PerfectMessage <==> score == |Questions|
    ensures m == ExcellentMessage <==> score != |Questions| && 4 * score >= 3 * |Questions|
    ensures m == GoodMessage <==> 4 * score < 3 * |Questions| && 2 * score >= |Questions|
    ensures m == KeepPractisingMessage <==> 2 * score < |Questions|
  {
    var percentage := (score as real / |Questions| as real) * 100.0;
    if percentage == 100.0 then PerfectMessage
    else if percentage >= 75.0 then ExcellentMessage
    else if percentage >= 50.0 then GoodMessage
    else KeepPractisingMessage
  }

  /** The state of `Home`. */
  class QuizPage {
    var currentQuestion: nat
    var selectedAnswer: Option<int>
    var showExplanation: bool
    var score: nat
    var quizCompleted: bool
    var answeredQuestions: seq<bool>

    /** One flag per question, the index on a question, and each question
        scored at most once, so the score never exceeds the answered count. */
    ghost predicate Valid()
      reads this
    {
      && |answeredQuestions| == |Questions|
      && currentQuestion < |Questions|
      && score <= CountAnswered(answeredQuestions)
    }

    /** The initial state, also restored by `Restart`. */
    ghost predicate Initial()
      reads this
    {
      && currentQuestion == 0
      && selectedAnswer == None
      && !showExplanation
      && score == 0
      && !quizCompleted
      && answeredQuestions == seq(|Questions|, _ => false)
    }

    constructor ()
      ensures Valid() && Initial()
    {
      currentQuestion := 0;
      selectedAnswer := None;
      showExplanation := false;
      score := 0;
      quizCompleted := false;
      answeredQuestions := seq(|Questions|, _ => false);
      CountAnsweredNone(|Questions|);
    }

    /** `handleAnswerSelect`: ignored while the explanation is shown. */
    method SelectAnswer(answerIndex: int)
      requires Valid()
      modifies this
      ensures Valid()
      ensures selectedAnswer == if old(showExplanation) then old(selectedAnswer) else Some(answerIndex)
      ensures currentQuestion == old(currentQuestion) && showExplanation == old(showExplanation)
      ensures score == old(score) && quizCompleted == old(quizCompleted)
      ensures answeredQuestions == old(answeredQuestions)
    {
      if showExplanation {
        return;
      }
      selectedAnswer := Some(answerIndex);
    }

    /** `handleSubmitAnswer`: ignored with no selection; otherwise scores a
        correct answer to a question not answered before, marks the
        question answered and shows the explanation. */
    method SubmitAnswer()
      requires Valid()
      modifies this
      ensures Valid()
      ensures old(selectedAnswer) == None ==>
        && score == old(score) && answeredQuestions == old(answeredQuestions)
        && showExplanation == old(showExplanation)
      ensures old(selectedAnswer) != None ==>
        && score == old(score) + (if old(selectedAnswer).value == Questions[old(currentQuestion)].correctAnswer
                                     && !old(answeredQuestions)[old(currentQuestion)] then 1 else 0)
        && answeredQuestions == old(answeredQuestions)[old(currentQuestion) := true]
        && showExplanation
      ensures currentQuestion == old(currentQuestion) && selectedAnswer == old(selectedAnswer)
      ensures quizCompleted == old(quizCompleted)
    {
      if selectedAnswer == None {
        return;
      }
      var isCorrect := selectedAnswer.value == Questions[currentQuestion].correctAnswer;
      CountAnsweredMark(answeredQuestions, currentQuestion);
      if isCorrect && !answeredQuestions[currentQuestion] {
        score := score + 1;
      }
      answeredQuestions := answeredQuestions[currentQuestion := true];
      showExplanation := true;
    }

    /** `handleNextQuestion`: moves to the next question, or on the last one
        only marks the quiz completed. */
    method NextQuestion()
      requires Valid()
      modifies this
      ensures Valid()
      ensures old(currentQuestion) < |Questions| - 1 ==>
        && currentQuestion == old(currentQuestion) + 1
        && selectedAnswer == None && !showExplanation
        && quizCompleted == old(quizCompleted)
      ensures old(currentQuestion) == |Questions| - 1 ==>
        && currentQuestion == old(currentQuestion)
        && selectedAnswer == old(selectedAnswer) && showExplanation == old(showExplanation)
        && quizCompleted
      ensures score == old(score) && answeredQuestions == old(answeredQuestions)
    {
      if currentQuestion < |Questions| - 1 {
        currentQuestion := currentQuestion + 1;
        selectedAnswer := None;
        showExplanation := false;
      } else {
        quizCompleted := true;
      }
    }

    /** `handleRestartQuiz`: back to the initial state. */
    method Restart()
      modifies this
      ensures Valid() && Initial()
    {
      currentQuestion := 0;
      selectedAnswer := None;
      showExplanation := false;
      score := 0;
      quizCompleted := false;
      answeredQuestions := seq(|Questions|, _ => false);
      CountAnsweredNone(|Questions|);
    }
  }

  /** In every reachable state the score is at most the number of questions. */
  lemma ScoreAtMostQuestions(score: nat, answered: seq<bool>)
    requires |answered| == |Questions| && score <= CountAnswered(answered)
    ensures score <= 8
  {
  }
}
