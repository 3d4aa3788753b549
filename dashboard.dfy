/**
 * The exercise dashboard (src/app/dashboard/page.tsx).
 *
 * The page lists the mock exercises under a difficulty filter and plays one
 * exercise at a time: a step cursor over its instructions and a countdown
 * of its duration in seconds.  The handlers are the methods of
 * `DashboardPage`; one tick of the one-second interval is the method `Tick`.
 */
module Dashboard {
  import opened Wrappers

  datatype Exercise = Exercise(
    id: string,
    title: string,
    description: string,
    duration: nat,
    difficulty: string,
    category: string,
    instructions: Option<seq<string>>,
    benefits: Option<seq<string>>,
    isPremium: bool,
    orderIndex: int)

  /** `MOCK_EXERCISES`. */
  const MockExercises: seq<Exercise> := [
    Exercise("1", "Elevação de Sobrancelhas",
      "Exercício para fortalecer a testa e reduzir linhas de expressão", 180, "beginner", "Testa",
      Some(["Coloque os dedos indicadores acima das sobrancelhas",
            "Pressione suavemente para baixo enquanto tenta levantar as sobrancelhas",
            "Mantenha a tensão por 5 segundos",
            "Relaxe e repita 10 vezes",
            "Faça 3 séries com 30 segundos de descanso entre elas"]),
      Some(["Reduz rugas", "Fortalece músculos"]), false, 1),
    Exercise("2", "Massagem nas Bochechas",
      "Tonifica as bochechas e melhora a circulação facial", 240, "beginner", "Bochechas",
      Some(["Coloque as palmas das mãos nas bochechas",
            "Faça movimentos circulares suaves por 30 segundos",
            "Mude a direção e continue por mais 30 segundos",
            "Use os dedos para fazer pequenos círculos ao redor das maçãs do rosto",
            "Repita toda a sequência 3 vezes"]),
      Some(["Tonifica", "Melhora circulação"]), false, 2),
    Exercise("3", "Exercício do Sorriso",
      "Fortalece os músculos ao redor da boca e previne linhas", 120, "beginner", "Boca",
      Some(["Sorria o mais amplamente possível, mostrando os dentes",
            "Mantenha o sorriso por 10 segundos",
            "Relaxe e repita 15 vezes",
            "Faça movimentos de \"beijo\" projetando os lábios para frente",
            "Alterne entre sorriso e beijo por 2 minutos"]),
      Some(["Previne rugas", "Fortalece"]), false, 3),
    Exercise("4", "Lifting Natural do Pescoço",
      "Exercício avançado para tonificar o pescoço e queixo", 300, "intermediate", "Pescoço",
      Some(["Sente-se com a coluna ereta",
            "Incline a cabeça para trás olhando para o teto",
            "Projete o queixo para frente e para cima",
            "Mantenha por 10 segundos e relaxe",
            "Repita 20 vezes em 3 séries"]),
      Some(["Define queixo", "Tonifica pescoço"]), true, 4),
    Exercise("5", "Contorno Facial Completo",
      "Rotina completa para definir o contorno facial", 600, "intermediate", "Rosto Completo",
      Some(["Comece com massagem circular na testa por 2 minutos",
            "Trabalhe as têmporas com movimentos ascendentes",
            "Massageie as bochechas de dentro para fora",
            "Faça drenagem linfática no pescoço",
            "Finalize com tapotagem suave em todo o rosto"]),
      Some(["Define contorno", "Efeito lifting"]), true, 5),
    Exercise("6", "Anti-Aging Intensivo",
      "Programa intensivo para combater sinais de envelhecimento", 900, "advanced", "Rosto Completo",
      Some(["Aqueça o rosto com movimentos circulares por 3 minutos",
            "Trabalhe cada área facial com exercícios específicos",
            "Faça 20 repetições de cada exercício",
            "Inclua exercícios de resistência com os dedos",
            "Finalize com relaxamento facial profundo"]),
      Some(["Anti-idade", "Resultados intensos"]), true, 6)
  ]

  // ----- the difficulty filter -----

  /** `exercises.filter(ex => ex.difficulty === difficulty)`. */
  function WithDifficulty(exercises: seq<Exercise>, difficulty: string): (r: seq<Exercise>)
    ensures |r| <= |exercises|
    ensures forall e :: e in r <==> e in exercises && e.difficulty == difficulty
  {
    if exercises == [] then []
    else
      (if exercises[0].difficulty == difficulty then [exercises[0]] else [])
      + WithDifficulty(exercises[1..], difficulty)
  }

  /** `filteredExercises`: everything under "all", else one difficulty. */
  function Filtered(exercises: seq<Exercise>, filter: string): (r: seq<Exercise>)
    ensures filter == "all" ==> r == exercises
    ensures filter != "all" ==> forall e :: e in r <==> e in exercises && e.difficulty == filter
    ensures |r| <= |exercises|
  {
    if filter == "all" then exercises else WithDifficulty(exercises, filter)
  }

  /** Filtering distributes over concatenation, so the kept exercises stay
      in their original order. */
  lemma {:induction false} WithDifficultyAppend(a: seq<Exercise>, b: seq<Exercise>, difficulty: string)
    ensures WithDifficulty(a + b, difficulty) == WithDifficulty(a, difficulty) + WithDifficulty(b, difficulty)
  {
    if a != [] {
      assert (a + b)[1..] == a[1..] + b;
      WithDifficultyAppend(a[1..], b, difficulty);
    } else {
      assert a + b == b;
    }
  }

  /** A difficulty keeps each exercise of that difficulty as many times as
      it occurs in the list, and no other exercise. */
  lemma {:induction false} WithDifficultyCounts(exercises: seq<Exercise>, difficulty: string)
    ensures forall e ::
              multiset(WithDifficulty(exercises, difficulty))[e] ==
              if e.difficulty == difficulty then multiset(exercises)[e] else 0
  {
    if exercises != [] {
      WithDifficultyCounts(exercises[1..], difficulty);
      assert exercises == [exercises[0]] + exercises[1..];
    }
  }

  /** "all" keeps the whole list; a difficulty keeps exactly the exercises of
      that difficulty, each once per occurrence. */
  lemma FilteredSelects(exercises: seq<Exercise>, filter: string)
    ensures filter == "all" ==> Filtered(exercises, filter) == exercises
    ensures filter != "all" ==>
      forall e ::
        multiset(Filtered(exercises, filter))[e] ==
        if e.difficulty == filter then multiset(exercises)[e] else 0
  {
    WithDifficultyCounts(exercises, filter);
  }

  /** `getDifficultyLabel`. */
  function DifficultyLabel(difficulty: string): (text: string)
    ensures difficulty == "beginner" ==> text == "Iniciante"
    ensures difficulty == "intermediate" ==> text == "Intermediário"
    ensures difficulty == "advanced" ==> text == "Avançado"
    ensures difficulty !in {"beginner", "intermediate", "advanced"} ==> text == difficulty
  {
    if difficulty == "beginner" then "Iniciante"
    else if difficulty == "intermediate" then "Intermediário"
    else if difficulty == "advanced" then "Avançado"
    else difficulty
  }

  // ----- formatTime -----

  function DigitChar(d: nat): char
    requires d < 10
  {
    "0123456789"[d]
  }

  predicate IsDigit(c: char)
  {
    '0' <= c <= '9'
  }

  predicate AllDigits(s: string)
  {
    forall i :: 0 <= i < |s| ==> IsDigit(s[i])
  }

  /** `n.toString()` for a whole number. */
  function Decimal(n: nat): (s: string)
    ensures |s| >= 1 && AllDigits(s)
    ensures n < 10 <==> |s| == 1
    ensures n > 0 ==> s[0] != '0'
  {
    if n < 10 then [DigitChar(n)] else Decimal(n / 10) + [DigitChar(n % 10)]
  }

  /** The number a string of digits denotes. */
  function DecimalValue(s: string): nat
    requires AllDigits(s)
  {
    if s == [] then 0
    else
      assert IsDigit(s[|s| - 1]);
      10 * DecimalValue(s[..|s| - 1]) + (s[|s| - 1] as int - '0' as int)
  }

  /** Printing a number in decimal and reading it back gives the number. */
  lemma {:induction false} DecimalRoundTrip(n: nat)
    ensures DecimalValue(Decimal(n)) == n
  {
    if n >= 10 {
      DecimalRoundTrip(n / 10);
      var s := Decimal(n);
      assert s[..|s| - 1] == Decimal(n / 10);
    }
  }

  /** `s.padStart(2, '0')`. */
  function PadStart2(s: string): (r: string)
    ensures |s| <= 2 ==> |r| == 2
    ensures |s| >= 2 ==> r == s
    ensures |r| >= |s| && r[|r| - |s|..] == s
    ensures forall i :: 0 <= i < |r| - |s| ==> r[i] == '0'
  {
    if |s| < 2 then seq(2 - |s|, _ => '0') + s else s
  }

  /** A number below 100, padded, is two digits that read back as the number. */
  lemma PaddedTwoDigits(n: nat)
    requires n < 100
    ensures var p := PadStart2(Decimal(n));
      |p| == 2 && AllDigits(p) && DecimalValue(p) == n
  {
    var d := Decimal(n);
    DecimalRoundTrip(n);
    if n < 10 {
      var p := PadStart2(d);
      assert p == ['0'] + d;
      assert p[..1] == ['0'];
      assert p[1..] == d;
    } else {
      assert Decimal(n / 10) == [DigitChar(n / 10)];
    }
  }

  /** `formatTime`: minutes, a colon, and the seconds padded to two digits. */
  function FormatTime(seconds: nat): (t: string)
    ensures |t| >= 4 && t[|t| - 3] == ':'
    ensures seconds < 600 <==> |t| == 4
  {
    Decimal(seconds / 60) + ":" + PadStart2(Decimal(seconds % 60))
  }

  /** The position of the first colon in `t`, or `|t|` if there is none. */
  function ColonIndex(t: string): (i: nat)
    ensures i <= |t|
    ensures forall j :: 0 <= j < i ==> t[j] != ':'
    ensures i < |t| ==> t[i] == ':'
  {
    if t == [] then 0 else if t[0] == ':' then 0 else 1 + ColonIndex(t[1..])
  }

  /** Reads "m:ss" back as the pair (minutes, seconds). */
  function ParseTime(t: string): Option<(nat, nat)>
  {
    var i := ColonIndex(t);
    if i < |t| && AllDigits(t[..i]) && AllDigits(t[i + 1..])
    then Some((DecimalValue(t[..i]), DecimalValue(t[i + 1..])))
    else None
  }

  /** The minutes field of `FormatTime(s)` reads back as `s / 60` and the
      seconds field is exactly two digits reading back as `s % 60`, so
      minutes * 60 + seconds gives `s` back and the seconds are below 60. */
  lemma FormatTimeRoundTrip(s: nat)
    ensures var t := FormatTime(s);
      && |t| >= 4
      && t[|t| - 3] == ':'
      && ParseTime(t) == Some((s / 60, s % 60))
      && (s / 60) * 60 + s % 60 == s
      && s % 60 < 60
  {
    var m := Decimal(s / 60);
    var sec := PadStart2(Decimal(s % 60));
    PaddedTwoDigits(s % 60);
    DecimalRoundTrip(s / 60);
    ParseJoined(m, sec);
  }

  /** Digits, a colon and digits parse back as the two digit strings' values. */
  lemma ParseJoined(m: string, sec: string)
    requires AllDigits(m) && AllDigits(sec)
    ensures ParseTime(m + ":" + sec) == Some((DecimalValue(m), DecimalValue(sec)))
  {
    var t := m + ":" + sec;
    assert t[|m|] == ':';
    assert ColonIndex(t) == |m| by {
      forall j | 0 <= j < |m| ensures t[j] != ':' { assert t[j] == m[j]; }
    }
    assert t[..|m|] == m;
    assert t[|m| + 1..] == sec;
  }

  // ----- the exercise player -----

  /** The number of steps the step buttons clamp to: the instruction count,
      or 1 when there are none (`instructions?.length || 1`). */
  function StepCount(e: Exercise): (n: nat)
    ensures n >= 1
    ensures e.instructions.Some? && |e.instructions.value| > 0 ==> n == |e.instructions.value|
    ensures !(e.instructions.Some? && |e.instructions.value| > 0) ==> n == 1
  {
    if e.instructions.Some? && |e.instructions.value| > 0 then |e.instructions.value| else 1
  }

  /** One tick of the countdown on (isExercising, timeRemaining). */
  function TickStep(running: bool, time: nat): (r: (bool, nat))
    ensures running && time > 0 ==> r.1 == time - 1 && (r.0 <==> time > 1)
    ensures !(running && time > 0) ==> r == (running, time)
  {
    if running && time > 0 then
      if time <= 1 then (false, 0) else (true, time - 1)
    else (running, time)
  }

  /** `n` ticks in a row. */
  function Ticks(running: bool, time: nat, n: nat): (r: (bool, nat))
    ensures r.1 <= time
    ensures r.1 < time ==> running
    ensures !running ==> r == (running, time)
    decreases n
  {
    if n == 0 then (running, time)
    else var next := TickStep(running, time); Ticks(next.0, next.1, n - 1)
  }

  /** A running countdown from `d` seconds counts down one second per tick,
      reaches 0 after exactly `d` ticks, and then stops the exercise. */
  lemma {:induction false} CountdownFinishes(d: nat, n: nat)
    requires d > 0
    ensures n < d ==> Ticks(true, d, n) == (true, d - n)
    ensures n >= d ==> Ticks(true, d, n) == (false, 0)
    decreases n
  {
    if n > 0 {
      if d > 1 {
        CountdownFinishes(d - 1, n - 1);
      }
    }
  }

  /** A stopped countdown at 0 never moves again. */
  lemma StoppedStaysStopped(n: nat)
    ensures Ticks(false, 0, n) == (false, 0)
  {
  }

  /** The state of `DashboardPage`. */
  class DashboardPage {
    var exercises: seq<Exercise>
    var loading: bool
    var filter: string
    var selectedExercise: Option<Exercise>
    var isExercising: bool
    var currentStep: nat
    var timeRemaining: nat

    /** The step cursor stays on one of the selected exercise's steps. */
    ghost predicate Valid()
      reads this
    {
      selectedExercise.Some? ==> currentStep < StepCount(selectedExercise.value)
    }

    constructor ()
      ensures Valid()
      ensures exercises == [] && loading && filter == "all"
      ensures selectedExercise == None && !isExercising && currentStep == 0 && timeRemaining == 0
    {
      exercises := [];
      loading := true;
      filter := "all";
      selectedExercise := None;
      isExercising := false;
      currentStep := 0;
      timeRemaining := 0;
    }

    /** `loadExercises`, once its simulated delay has elapsed. */
    method LoadExercises()
      requires Valid()
      modifies this
      ensures Valid() && exercises == MockExercises && !loading
      ensures filter == old(filter) && selectedExercise == old(selectedExercise)
      ensures isExercising == old(isExercising) && currentStep == old(currentStep)
      ensures timeRemaining == old(timeRemaining)
    {
      exercises := MockExercises;
      loading := false;
    }

    /** The filter buttons. */
    method SetFilter(f: string)
      requires Valid()
      requires f in {"all", "beginner", "intermediate", "advanced"}
      modifies this
      ensures Valid() && filter == f
      ensures exercises == old(exercises) && loading == old(loading)
      ensures selectedExercise == old(selectedExercise) && isExercising == old(isExercising)
      ensures currentStep == old(currentStep) && timeRemaining == old(timeRemaining)
    {
      filter := f;
    }

    /** The exercises shown under the current filter. */
    function FilteredExercises(): (r: seq<Exercise>)
      reads this
      ensures filter == "all" ==> r == exercises
      ensures filter != "all" ==> forall e :: e in r <==> e in exercises && e.difficulty == filter
    {
      Filtered(exercises, filter)
    }

    /** `handleStartExercise`: a premium exercise is not opened and the page
        goes to the checkout instead; a free one is opened at step 0 with
        its full duration on the clock. */
    method StartExercise(e: Exercise) returns (redirect: Option<string>)
      requires Valid()
      modifies this
      ensures Valid()
      ensures e.isPremium ==>
        && redirect == Some("/checkout")
        && selectedExercise == old(selectedExercise) && currentStep == old(currentStep)
        && timeRemaining == old(timeRemaining)
      ensures !e.isPremium ==>
        && redirect == None
        && selectedExercise == Some(e) && currentStep == 0 && timeRemaining == e.duration
      ensures isExercising == old(isExercising)
      ensures exercises == old(exercises) && filter == old(filter) && loading == old(loading)
    {
      if e.isPremium {
        redirect := Some("/checkout");
      } else {
        redirect := None;
        selectedExercise := Some(e);
        currentStep := 0;
        timeRemaining := e.duration;
      }
    }

    /** `handleBeginExercise`. */
    method BeginExercise()
      requires Valid()
      modifies this
      ensures Valid() && isExercising
      ensures selectedExercise == old(selectedExercise) && currentStep == old(currentStep)
      ensures timeRemaining == old(timeRemaining)
      ensures exercises == old(exercises) && filter == old(filter) && loading == old(loading)
    {
      isExercising := true;
    }

    /** `handleCloseExercise`. */
    method CloseExercise()
      requires Valid()
      modifies this
      ensures Valid()
      ensures selectedExercise == None && !isExercising && currentStep == 0 && timeRemaining == 0
      ensures exercises == old(exercises) && filter == old(filter) && loading == old(loading)
    {
      selectedExercise := None;
      isExercising := false;
      currentStep := 0;
      timeRemaining := 0;
    }

    /** "Passo Anterior": `max(0, step - 1)`. */
    method PreviousStep()
      requires Valid()
      modifies this
      ensures Valid()
      ensures currentStep == if old(currentStep) > 0 then old(currentStep) - 1 else 0
      ensures currentStep <= old(currentStep)
      ensures selectedExercise == old(selectedExercise) && isExercising == old(isExercising)
      ensures timeRemaining == old(timeRemaining)
      ensures exercises == old(exercises) && filter == old(filter) && loading == old(loading)
    {
      var stepBack: int := currentStep - 1;
      currentStep := if stepBack > 0 then stepBack else 0;
    }

    /** "Próximo Passo", shown only with an exercise open:
        `min(len - 1, step + 1)` with `len` the step count. */
    method NextStep()
      requires Valid() && selectedExercise.Some?
      modifies this
      ensures Valid()
      ensures selectedExercise == old(selectedExercise) && isExercising == old(isExercising)
      ensures currentStep == if old(currentStep) + 1 < StepCount(selectedExercise.value)
                             then old(currentStep) + 1 else StepCount(selectedExercise.value) - 1
      ensures currentStep <= StepCount(selectedExercise.value) - 1
      ensures timeRemaining == old(timeRemaining)
      ensures exercises == old(exercises) && filter == old(filter) && loading == old(loading)
    {
      var last := StepCount(selectedExercise.value) - 1;
      currentStep := if last < currentStep + 1 then last else currentStep + 1;
    }

    /** One firing of the one-second interval, which runs only while
        exercising with time left. */
    method Tick()
      requires Valid()
      modifies this
      ensures Valid()
      ensures (isExercising, timeRemaining) == TickStep(old(isExercising), old(timeRemaining))
      ensures selectedExercise == old(selectedExercise) && currentStep == old(currentStep)
      ensures exercises == old(exercises) && filter == old(filter) && loading == old(loading)
    {
      if isExercising && timeRemaining > 0 {
        if timeRemaining <= 1 {
          isExercising := false;
          timeRemaining := 0;
        } else {
          timeRemaining := timeRemaining - 1;
        }
      }
    }
  }
}
