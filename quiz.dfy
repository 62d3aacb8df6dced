/** The emergency-preparedness quiz: a fixed catalog of ten questions, a
    session that moves through them under a five-minute countdown, and the
    grading of the submitted answers. */
module Quiz {
  import opened Common
  import opened Text

  // ---------------------------------------------------------------- catalog

  datatype Question = Question(text: string, options: seq<string>, correct: int, explanation: string)

  /** The `correct` option of each catalog question, in catalog order. */
  const CorrectOptions: seq<int> := [1, 2, 1, 1, 2, 1, 1, 1, 1, 0]

  const QuestionCount: nat := |CorrectOptions|

  /** The catalog, in the order the quiz presents it. */
  const Questions: seq<Question> := [
    Question(
      "What should you do first when you hear the fire alarm in school?",
      ["Pack your belongings quickly",
       "Stop what you're doing and listen for instructions",
       "Continue with your work",
       "Look out the window to see if there's a fire"],
      CorrectOptions[0],
      "The first step is to stop immediately and listen for teacher instructions. This ensures everyone follows the proper evacuation procedure."),
    Question(
      "During an earthquake drill, what is the correct 'Drop, Cover, and Hold On' procedure?",
      ["Drop to the floor, cover your head, hold onto a desk",
       "Drop your books, cover your eyes, hold your breath",
       "Drop to your knees, cover under a table, hold on until shaking stops",
       "Drop everything, cover your ears, hold onto a friend"],
      CorrectOptions[1],
      "Drop to your hands and knees, take cover under a sturdy desk or table, and hold on to your shelter while protecting your head and neck."),
    Question(
      "What information should you provide when calling emergency services?",
      ["Only your name",
       "Location, type of emergency, number of people involved",
       "Just the address",
       "Your age and grade level"],
      CorrectOptions[2],
      "Always provide: your location, what type of emergency it is, how many people are involved, and any immediate dangers."),
    Question(
      "In a lockdown situation, what should students do?",
      ["Hide under desks and stay quiet",
       "Lock doors, turn off lights, move away from windows, stay quiet",
       "Exit the building immediately",
       "Call their parents"],
      CorrectOptions[3],
      "During lockdown: secure the room (lock doors), turn off lights, move away from windows and doors, remain quiet until given all-clear by authorities."),
    Question(
      "How often should schools conduct fire drills?",
      ["Once a year",
       "Once a semester",
       "Monthly or as required by local regulations",
       "Only when there's an actual fire"],
      CorrectOptions[4],
      "Most regulations require monthly fire drills to ensure students and staff are familiar with evacuation procedures."),
    Question(
      "What should you do if someone is having a medical emergency at school?",
      ["Try to help them yourself",
       "Get a teacher or nurse immediately and call for help",
       "Give them water",
       "Move them to a more comfortable location"],
      CorrectOptions[5],
      "Never attempt medical treatment yourself. Get trained medical personnel (nurse) and trained staff immediately."),
    Question(
      "During severe weather warnings, students should:",
      ["Go outside to see the weather",
       "Move to designated safe areas away from windows",
       "Continue normal activities",
       "Go to the gymnasium"],
      CorrectOptions[6],
      "Move to predetermined safe areas (usually interior rooms/hallways) away from windows and potential flying debris."),
    Question(
      "What is the universal sign for choking?",
      ["Pointing to your throat",
       "Hands clutching the throat",
       "Raising both hands",
       "Lying down on the floor"],
      CorrectOptions[7],
      "The universal choking sign is hands clutching the throat. If you see this, get help immediately and alert trained personnel."),
    Question(
      "In case of a chemical spill in the science lab, you should:",
      ["Clean it up yourself",
       "Alert the teacher immediately and evacuate the area",
       "Pour water on it",
       "Ignore it if it's small"],
      CorrectOptions[8],
      "Never handle chemical spills yourself. Alert the teacher immediately and follow their evacuation instructions."),
    Question(
      "What is the most important thing to remember during any emergency?",
      ["Stay calm and follow instructions",
       "Run as fast as possible",
       "Help everyone else first",
       "Take photos for social media"],
      CorrectOptions[9],
      "Staying calm and following instructions from trained personnel is crucial for everyone's safety during emergencies.")
  ]

  /** Seconds on the clock when a quiz starts. */
  const TimeLimit: int := 300

  const CertificateScore: int := 8
  const PassScore: int := 6

  lemma CatalogSize()
    ensures QuestionCount == 10 && |Questions| == QuestionCount
  {
  }

  /** Every question offers four options, and its `correct` field is one of
      them and agrees with the answer key. */
  lemma CatalogWellFormed(i: int)
    requires 0 <= i < |Questions|
    ensures |Questions[i].options| == 4
    ensures Questions[i].correct == CorrectOptions[i]
    ensures 0 <= Questions[i].correct < |Questions[i].options|
  {
  }

  // ---------------------------------------------------------------- answers

  /** The learner's answers as the page keeps them: a JavaScript array that
      may have holes (None) where no answer was given. */
  type Answers = seq<Option<int>>

  function Holes(n: nat): (r: Answers)
    ensures |r| == n
    ensures forall j :: 0 <= j < n ==> r[j] == None
  {
    seq(n, _ => None)
  }

  /** `a[k] = v` on a JavaScript array: overwrites slot k, or grows the array
      to k + 1 slots, leaving holes between the old end and k. */
  function WriteSlot(a: Answers, k: nat, v: int): (r: Answers)
    ensures |r| == if k < |a| then |a| else k + 1
    ensures r[k] == Some(v)
    ensures forall j :: 0 <= j < |a| && j != k ==> r[j] == a[j]
    ensures forall j :: |a| <= j < |r| && j != k ==> r[j] == None
  {
    if k < |a| then a[k := Some(v)] else a + Holes(k - |a|) + [Some(v)]
  }

  /** The score the page shows: one point per recorded answer that equals the
      question's correct option. `reduce` skips holes, so an unanswered
      question scores nothing. */
  function Score(a: Answers): (r: nat)
    requires |a| <= QuestionCount
    ensures r <= |a|
  {
    if a == [] then 0
    else
      var n := |a| - 1;
      Score(a[..n]) + (if a[n] == Some(CorrectOptions[n]) then 1 else 0)
  }

  /** Whether the answer recorded for question i is its correct option. */
  predicate Hit(a: Answers, i: int)
    requires |a| <= QuestionCount
  {
    0 <= i < |a| && a[i] == Some(CorrectOptions[i])
  }

  /** Reference definition of the score: the set of correctly answered questions. */
  ghost function MatchedQuestions(a: Answers): set<int>
    requires |a| <= QuestionCount
  {
    set i | 0 <= i < |a| && Hit(a, i)
  }

  lemma {:induction false} ScoreCountsMatches(a: Answers)
    requires |a| <= QuestionCount
    ensures Score(a) == |MatchedQuestions(a)|
    ensures Score(a) <= QuestionCount
  {
    if a != [] {
      var n := |a| - 1;
      ScoreCountsMatches(a[..n]);
      MatchedExtend(a);
    }
  }

  /** Extending the answers by one slot adds that slot to the matches when it hits. */
  lemma MatchedExtend(a: Answers)
    requires 0 < |a| <= QuestionCount
    ensures var n := |a| - 1;
      MatchedQuestions(a) == MatchedQuestions(a[..n]) + (if Hit(a, n) then {n} else {})
      && n !in MatchedQuestions(a[..n])
  {
    var n := |a| - 1;
    var p := a[..n];
    forall i | 0 <= i < n ensures Hit(a, i) == Hit(p, i) {
      assert a[i] == p[i];
    }
  }

  /** The accumulation `selectedAnswers.reduce(...)` performs. */
  method ReduceScore(a: Answers) returns (acc: nat)
    requires |a| <= QuestionCount
    ensures acc == Score(a)
  {
    acc := 0;
    var index := 0;
    while index < |a|
      invariant 0 <= index <= |a|
      invariant acc == Score(a[..index])
    {
      assert a[..index + 1][..index] == a[..index];
      acc := acc + (if a[index] == Some(CorrectOptions[index]) then 1 else 0);
      index := index + 1;
    }
    assert a[..|a|] == a;
  }

  // ---------------------------------------------------------------- grading

  datatype Tier = CertificateEligible | Passed | NeedsReview

  /** The badge on the results page. */
  function TierOf(score: int): (t: Tier)
    ensures t == CertificateEligible <==> score >= CertificateScore
    ensures t == Passed <==> PassScore <= score < CertificateScore
    ensures t == NeedsReview <==> score < PassScore
  {
    if score >= CertificateScore then CertificateEligible
    else if score >= PassScore then Passed
    else NeedsReview
  }

  function TierRank(t: Tier): nat {
    match t
    case NeedsReview => 0
    case Passed => 1
    case CertificateEligible => 2
  }

  lemma TierMonotone(s1: int, s2: int)
    requires s1 <= s2
    ensures TierRank(TierOf(s1)) <= TierRank(TierOf(s2))
  {
  }

  /** Whether the "Quiz Completed" notification uses the destructive style. */
  function CompletionIsDestructive(score: int): (destructive: bool)
    ensures destructive <==> TierOf(score) == NeedsReview
  {
    score < PassScore
  }

  // ---------------------------------------------------------------- clock

  /** `secs.toString().padStart(2, '0')` for a seconds field below 60. */
  function Pad2(n: nat): (r: string)
    requires n < 100
    ensures |r| == 2 && AllDigits(r) && DecimalToNat(r) == n
  {
    DecimalRoundTrip(n);
    if n < 10 then
      var r := "0" + NatToDecimal(n);
      assert r[..1] == "0" && r[..1][..0] == [];
      r
    else NatToDecimal(n)
  }

  /** The "m:ss" clock text shown while a quiz runs. */
  function FormatTime(seconds: nat): (r: string)
    ensures |r| >= 4 && r[|r| - 3] == ':'
    ensures AllDigits(r[..|r| - 3]) && AllDigits(r[|r| - 2..])
    ensures DecimalToNat(r[..|r| - 3]) * 60 + DecimalToNat(r[|r| - 2..]) == seconds
    ensures DecimalToNat(r[|r| - 2..]) < 60
    ensures (r[0] == '0') == (seconds < 60)
    ensures r[0] == '0' ==> |r| == 4
  {
    var mins := seconds / 60;
    var secs := seconds % 60;
    DecimalRoundTrip(mins);
    var m := NatToDecimal(mins);
    var p := Pad2(secs);
    var r := m + ":" + p;
    assert r[..|r| - 3] == m && r[|r| - 2..] == p;
    r
  }

  /** The clock shown when a quiz starts. */
  lemma StartClock()
    ensures FormatTime(TimeLimit) == "5:00"
  {
    assert NatToDecimal(5) == "5" && NatToDecimal(0) == "0";
  }

  /** Seconds below ten are padded with a zero. */
  lemma PaddedClock()
    ensures FormatTime(65) == "1:05"
  {
    assert NatToDecimal(1) == "1" && NatToDecimal(5) == "5";
  }

  // ---------------------------------------------------------------- session

  datatype Session = Session(
    quizStarted: bool,
    currentQuestion: nat,
    selectedAnswers: Answers,
    timeRemaining: int,
    showResults: bool)

  /** The state the page is mounted with. */
  const Initial: Session := Session(false, 0, [], TimeLimit, false)

  ghost predicate WellFormed(s: Session) {
    && s.currentQuestion < QuestionCount
    && |s.selectedAnswers| <= QuestionCount
    && 0 <= s.timeRemaining <= TimeLimit
  }

  datatype Phase = NotStarted | InProgress | Completed

  /** Which of the three screens the page renders. */
  function PhaseOf(s: Session): Phase {
    if !s.quizStarted then NotStarted
    else if s.showResults then Completed
    else InProgress
  }

  function AfterStart(s: Session): (r: Session)
    ensures r.quizStarted && r.currentQuestion == 0 && r.selectedAnswers == []
    ensures !r.showResults && r.timeRemaining == TimeLimit
    ensures PhaseOf(r) == InProgress
  {
    Session(true, 0, [], TimeLimit, false)
  }

  function AfterRestart(s: Session): (r: Session)
    ensures r == AfterStart(s).(quizStarted := false)
    ensures PhaseOf(r) == NotStarted
  {
    Session(false, 0, [], TimeLimit, false)
  }

  function AfterSelect(s: Session, answerIndex: int): (r: Session)
    ensures |r.selectedAnswers| ==
      if s.currentQuestion < |s.selectedAnswers| then |s.selectedAnswers| else s.currentQuestion + 1
    ensures r.selectedAnswers[s.currentQuestion] == Some(answerIndex)
    ensures forall j :: 0 <= j < |s.selectedAnswers| && j != s.currentQuestion ==>
      r.selectedAnswers[j] == s.selectedAnswers[j]
    ensures forall j :: |s.selectedAnswers| <= j < s.currentQuestion ==> r.selectedAnswers[j] == None
    ensures r == s.(selectedAnswers := r.selectedAnswers)
  {
    s.(selectedAnswers := WriteSlot(s.selectedAnswers, s.currentQuestion, answerIndex))
  }

  function AfterNext(s: Session): (r: Session)
    ensures s.currentQuestion < QuestionCount - 1 ==> r.currentQuestion == s.currentQuestion + 1
    ensures s.currentQuestion >= QuestionCount - 1 ==> r == s
    ensures r == s.(currentQuestion := r.currentQuestion)
  {
    if s.currentQuestion < QuestionCount - 1 then s.(currentQuestion := s.currentQuestion + 1) else s
  }

  function AfterPrevious(s: Session): (r: Session)
    ensures s.currentQuestion > 0 ==> r.currentQuestion == s.currentQuestion - 1
    ensures s.currentQuestion == 0 ==> r == s
    ensures r == s.(currentQuestion := r.currentQuestion)
  {
    if s.currentQuestion > 0 then s.(currentQuestion := s.currentQuestion - 1) else s
  }

  function AfterSubmit(s: Session): (r: Session)
    ensures r.showResults && r == s.(showResults := true)
    ensures s.quizStarted ==> PhaseOf(r) == Completed
  {
    s.(showResults := true)
  }

  /** One second of the countdown: the pending timeout fires while the quiz
      runs, and the effect that re-runs on the new state submits once the
      clock shows zero on a started quiz. */
  function AfterTick(s: Session): (r: Session)
    ensures s.quizStarted && !s.showResults && s.timeRemaining > 1 ==>
      r == s.(timeRemaining := s.timeRemaining - 1)
    ensures s.quizStarted && !s.showResults && s.timeRemaining == 1 ==>
      r == s.(timeRemaining := 0, showResults := true)
    ensures s.quizStarted && s.timeRemaining == 0 ==> r == AfterSubmit(s)
    ensures !s.quizStarted || (s.showResults && s.timeRemaining != 0) ==> r == s
    ensures s.timeRemaining >= 0 ==> r.timeRemaining >= 0
  {
    var t := if s.quizStarted && !s.showResults && s.timeRemaining > 0
             then s.(timeRemaining := s.timeRemaining - 1) else s;
    if t.timeRemaining == 0 && t.quizStarted then AfterSubmit(t) else t
  }

  lemma StepsPreserveWellFormed(s: Session, answerIndex: int)
    requires WellFormed(s)
    ensures WellFormed(AfterStart(s)) && WellFormed(AfterRestart(s))
    ensures WellFormed(AfterSelect(s, answerIndex))
    ensures WellFormed(AfterNext(s)) && WellFormed(AfterPrevious(s))
    ensures WellFormed(AfterSubmit(s)) && WellFormed(AfterTick(s))
  {
  }

  /** The Next and Submit buttons are disabled while the current question has
      no recorded answer; the handlers themselves do not check this. */
  predicate CanAdvance(s: Session) {
    s.currentQuestion < |s.selectedAnswers| && s.selectedAnswers[s.currentQuestion].Some?
  }

  /** No question has been skipped: every slot holds an answer, and the
      current question is at most one past the last answered one. */
  ghost predicate NoSkips(s: Session) {
    && s.currentQuestion <= |s.selectedAnswers|
    && forall i :: 0 <= i < |s.selectedAnswers| ==> s.selectedAnswers[i].Some?
  }

  /** With the buttons' guard in place, the page never leaves a hole. */
  lemma GuardedStepsKeepNoSkips(s: Session, answerIndex: int)
    requires NoSkips(s)
    ensures NoSkips(AfterStart(s)) && NoSkips(AfterRestart(s))
    ensures NoSkips(AfterSelect(s, answerIndex)) && NoSkips(AfterPrevious(s))
    ensures NoSkips(AfterTick(s))
    ensures CanAdvance(s) ==> NoSkips(AfterNext(s)) && NoSkips(AfterSubmit(s))
  {
  }

  /** Without the guard, calling the Next handler on an unanswered question
      and then answering leaves a hole. */
  lemma UnguardedNextLeavesHole(answerIndex: int)
    ensures var s := AfterStart(Initial);
      !CanAdvance(s) && NoSkips(s)
      && AfterSelect(AfterNext(s), answerIndex).selectedAnswers == [None, Some(answerIndex)]
  {
  }

  lemma InitialWellFormed()
    ensures WellFormed(Initial) && Initial == AfterRestart(Initial)
  {
  }

  lemma NextThenPrevious(s: Session)
    requires s.currentQuestion < QuestionCount - 1
    ensures AfterPrevious(AfterNext(s)) == s
  {
  }

  lemma PreviousThenNext(s: Session)
    requires 0 < s.currentQuestion < QuestionCount
    ensures AfterNext(AfterPrevious(s)) == s
  {
  }

  /** Answering, moving on and coming back finds the answer still recorded. */
  lemma NavigationKeepsAnswer(s: Session, answerIndex: int)
    requires s.currentQuestion < QuestionCount - 1
    ensures var t := AfterPrevious(AfterNext(AfterSelect(s, answerIndex)));
      t.currentQuestion == s.currentQuestion &&
      t.selectedAnswers[s.currentQuestion] == Some(answerIndex) &&
      t == AfterSelect(s, answerIndex)
  {
  }

  lemma SubmitIdempotent(s: Session)
    ensures AfterSubmit(AfterSubmit(s)) == AfterSubmit(s)
  {
  }

  /** A timer that fires after the results are shown changes nothing. */
  lemma TickAfterSubmitIsNoop(s: Session)
    requires s.showResults && s.timeRemaining >= 0
    ensures AfterTick(s) == s
  {
  }

  function Ticks(s: Session, n: nat): Session {
    if n == 0 then s else AfterTick(Ticks(s, n - 1))
  }

  /** k seconds into a running quiz the clock shows k seconds less, and the
      quiz is submitted exactly when the clock reaches zero. */
  lemma {:induction false} Countdown(s: Session, k: nat)
    requires s.quizStarted && !s.showResults && 0 < s.timeRemaining && k <= s.timeRemaining
    ensures Ticks(s, k) == s.(timeRemaining := s.timeRemaining - k, showResults := k == s.timeRemaining)
  {
    if k > 0 {
      Countdown(s, k - 1);
      var before := s.(timeRemaining := s.timeRemaining - (k - 1), showResults := false);
      assert Ticks(s, k) == AfterTick(before);
      assert before.timeRemaining >= 1;
    }
  }

  /** Left alone, a fresh quiz is auto-submitted after exactly 300 ticks, and
      later ticks leave the results untouched. */
  lemma {:induction false} TimeoutSubmits(s: Session, extra: nat)
    ensures PhaseOf(Ticks(AfterStart(s), TimeLimit - 1)) == InProgress
    ensures var done := Ticks(AfterStart(s), TimeLimit);
      PhaseOf(done) == Completed && done.timeRemaining == 0 && Ticks(done, extra) == done
  {
    Countdown(AfterStart(s), TimeLimit - 1);
    Countdown(AfterStart(s), TimeLimit);
    var done := Ticks(AfterStart(s), TimeLimit);
    StaleTicks(done, extra);
  }

  lemma {:induction false} StaleTicks(s: Session, n: nat)
    requires s.showResults && s.timeRemaining >= 0
    ensures Ticks(s, n) == s
  {
    if n > 0 {
      StaleTicks(s, n - 1);
    }
  }

  /** The answer key: every question answered with its correct option. */
  function AnswerKey(): (a: Answers)
    ensures |a| == QuestionCount
    ensures forall i :: 0 <= i < |a| ==> a[i] == Some(CorrectOptions[i])
  {
    seq(QuestionCount, i requires 0 <= i < QuestionCount => Some(CorrectOptions[i]))
  }

  lemma {:induction false} KeyPrefixScore(k: nat)
    requires k <= QuestionCount
    ensures Score(AnswerKey()[..k]) == k
  {
    if k > 0 {
      KeyPrefixScore(k - 1);
      assert AnswerKey()[..k][..k - 1] == AnswerKey()[..k - 1];
    }
  }

  /** Unanswered questions after the answered ones add nothing to the score. */
  lemma {:induction false} HolesScoreNothing(a: Answers, n: nat)
    requires |a| + n <= QuestionCount
    ensures Score(a + Holes(n)) == Score(a)
  {
    if n > 0 {
      HolesScoreNothing(a, n - 1);
      assert (a + Holes(n))[..|a| + n - 1] == a + Holes(n - 1);
    } else {
      assert a + Holes(0) == a;
    }
  }

  lemma PerfectScore()
    ensures Score(AnswerKey()) == 10 && TierOf(Score(AnswerKey())) == CertificateEligible
  {
    KeyPrefixScore(10);
    assert AnswerKey()[..10] == AnswerKey();
  }

  /** Skipping the first m questions and answering the next ones correctly
      up to question k scores k - m. */
  lemma {:induction false} KeySuffixScore(m: nat, k: nat)
    requires m <= k <= QuestionCount
    ensures Score(Holes(m) + AnswerKey()[m..k]) == k - m
  {
    if k == m {
      HolesScoreNothing([], m);
      assert Holes(m) + AnswerKey()[m..k] == [] + Holes(m);
    } else {
      KeySuffixScore(m, k - 1);
      var key := AnswerKey();
      assert key[m..k] == key[m..k - 1] + [key[k - 1]];
      var a := Holes(m) + key[m..k];
      assert a == (Holes(m) + key[m..k - 1]) + [key[k - 1]];
      assert a[..k - 1] == Holes(m) + key[m..k - 1];
    }
  }

  /** Five questions answered correctly and five left unanswered. The page
      produces only the first shape: five answers, then the clock runs out
      on the sixth question. The second, with the first five skipped, is
      reachable through the handlers alone, whose Next has no guard. */
  lemma HalfAnswered()
    ensures var a := AnswerKey()[..5];
      Score(a) == 5 && TierOf(Score(a)) == NeedsReview
    ensures var b := Holes(5) + AnswerKey()[5..];
      Score(b) == 5 && TierOf(Score(b)) == NeedsReview
  {
    KeyPrefixScore(5);
    KeySuffixScore(5, 10);
    assert AnswerKey()[5..10] == AnswerKey()[5..];
  }

  // ---------------------------------------------------------------- page

  /** The quiz page's state and its handlers. */
  class QuizPage {
    var currentQuestion: nat
    var selectedAnswers: Answers
    var showResults: bool
    var timeRemaining: int
    var quizStarted: bool

    function State(): Session
      reads this
    {
      Session(quizStarted, currentQuestion, selectedAnswers, timeRemaining, showResults)
    }

    ghost predicate Valid()
      reads this
    {
      WellFormed(State())
    }

    constructor ()
      ensures State() == Initial && Valid()
    {
      currentQuestion := 0;
      selectedAnswers := [];
      showResults := false;
      timeRemaining := TimeLimit;
      quizStarted := false;
    }

    method StartQuiz()
      modifies this
      ensures State() == AfterStart(old(State())) && Valid()
    {
      quizStarted := true;
      currentQuestion := 0;
      selectedAnswers := [];
      showResults := false;
      timeRemaining := TimeLimit;
    }

    /** Copies the answers, writes the current slot and stores the copy. */
    method SelectAnswer(answerIndex: int)
      requires Valid()
      modifies this
      ensures State() == AfterSelect(old(State()), answerIndex) && Valid()
    {
      var old_ := selectedAnswers;
      var n := if currentQuestion < |old_| then |old_| else currentQuestion + 1;
      var newAnswers := new Option<int>[n](j => if 0 <= j < |old_| then old_[j] else None);
      newAnswers[currentQuestion] := Some(answerIndex);
      assert newAnswers[..] == WriteSlot(old_, currentQuestion, answerIndex);
      selectedAnswers := newAnswers[..];
    }

    method NextQuestion()
      modifies this
      ensures State() == AfterNext(old(State()))
      ensures old(Valid()) ==> Valid()
    {
      if currentQuestion < QuestionCount - 1 {
        currentQuestion := currentQuestion + 1;
      }
    }

    method PreviousQuestion()
      modifies this
      ensures State() == AfterPrevious(old(State()))
      ensures old(Valid()) ==> Valid()
    {
      if currentQuestion > 0 {
        currentQuestion := currentQuestion - 1;
      }
    }

    /** Shows the results and reports the score for the notification. */
    method HandleSubmitQuiz() returns (score: nat)
      requires Valid()
      modifies this
      ensures State() == AfterSubmit(old(State())) && Valid()
      ensures score == Score(selectedAnswers)
    {
      showResults := true;
      score := ReduceScore(selectedAnswers);
    }

    method RestartQuiz()
      modifies this
      ensures State() == AfterRestart(old(State())) && Valid()
    {
      quizStarted := false;
      currentQuestion := 0;
      selectedAnswers := [];
      showResults := false;
      timeRemaining := TimeLimit;
    }

    /** One second of the timer effect. */
    method Tick()
      requires Valid()
      modifies this
      ensures State() == AfterTick(old(State())) && Valid()
    {
      if quizStarted && !showResults && timeRemaining > 0 {
        timeRemaining := timeRemaining - 1;
      }
      if timeRemaining == 0 && quizStarted {
        var _ := HandleSubmitQuiz();
      }
    }

    /** The score the results screen displays. */
    method CurrentScore() returns (score: nat)
      requires Valid()
      ensures score == Score(selectedAnswers) && score <= QuestionCount
    {
      score := ReduceScore(selectedAnswers);
    }
  }
}
