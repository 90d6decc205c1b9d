/**
 * A student's run through a quiz (components/StudentQuiz.tsx): the start
 * guard, the selection and shuffling of the questions, answering with a
 * feedback pause, and the attempt recorded at the end.
 *
 * The feedback pause is split in two steps: `Submit` shows the feedback and
 * arms the timer, `Commit` is the timer firing. The clock readings and the
 * shuffle's random order are chosen by the caller.
 */
module Quiz {
  import opened Types
  import opened Storage

  /** The topic value that disables the topic filter. */
  const AllTopics: string := "all"

  /**
   * The characters `String.prototype.trim` strips from both ends: the
   * ECMAScript WhiteSpace and LineTerminator code points.
   */
  predicate IsTrimmable(c: char) {
    var n := c as int;
    n == 0x09 || n == 0x0A || n == 0x0B || n == 0x0C || n == 0x0D || n == 0x20 || n == 0xA0
    || n == 0x1680 || (0x2000 <= n <= 0x200A) || n == 0x2028 || n == 0x2029 || n == 0x202F
    || n == 0x205F || n == 0x3000 || n == 0xFEFF
  }

  /** `s` without its leading trimmable characters. */
  function TrimStart(s: string): (r: string)
    ensures |r| <= |s| && r == s[|s| - |r|..]
    ensures r == [] || !IsTrimmable(r[0])
    ensures forall i :: 0 <= i < |s| - |r| ==> IsTrimmable(s[i])
  {
    if s != [] && IsTrimmable(s[0]) then TrimStart(s[1..]) else s
  }

  /** `s` without its trailing trimmable characters. */
  function TrimEnd(s: string): (r: string)
    ensures |r| <= |s| && r == s[..|r|]
    ensures r == [] || !IsTrimmable(r[|r| - 1])
    ensures forall i :: |r| <= i < |s| ==> IsTrimmable(s[i])
  {
    if s != [] && IsTrimmable(s[|s| - 1]) then TrimEnd(s[..|s| - 1]) else s
  }

  function Trim(s: string): string {
    TrimEnd(TrimStart(s))
  }

  /** A name passes the start guard when trimming leaves something. */
  predicate NonBlank(name: string) {
    Trim(name) != []
  }

  /** Some character of `s` is not trimmable. */
  predicate HasVisibleChar(s: string) {
    exists i :: 0 <= i < |s| && !IsTrimmable(s[i])
  }

  /** Trimming yields the empty string exactly when every character is trimmable. */
  lemma NonBlankIff(name: string)
    ensures NonBlank(name) <==> HasVisibleChar(name)
  {
  }

  /** Whether a question belongs to the chosen grade and, unless the topic is "all", the topic. */
  predicate Matches(q: Question, grade: GradeLevel, topic: string) {
    q.gradeLevel == grade && (topic == AllTopics || q.category == Some(topic))
  }

  /** The bank filtered by grade, then by topic unless the topic is "all". */
  function SelectQuestions(bank: seq<Question>, grade: GradeLevel, topic: string): (r: seq<Question>)
    ensures forall i :: 0 <= i < |r| ==> Matches(r[i], grade, topic)
  {
    var byGrade := Filter(bank, (q: Question) => q.gradeLevel == grade);
    if topic != AllTopics then Filter(byGrade, (q: Question) => q.category == Some(topic))
    else byGrade
  }

  /** The selection holds exactly the matching questions, each as often as in the bank. */
  lemma SelectQuestionsCount(bank: seq<Question>, grade: GradeLevel, topic: string)
    ensures forall q :: multiset(SelectQuestions(bank, grade, topic))[q]
                        == if Matches(q, grade, topic) then multiset(bank)[q] else 0
  {
    var byGrade := Filter(bank, (q: Question) => q.gradeLevel == grade);
    FilterCount(bank, (q: Question) => q.gradeLevel == grade);
    FilterCount(byGrade, (q: Question) => q.category == Some(topic));
  }

  /**
   * Selecting grade `g` from a group of questions all of grade `group`
   * followed by `rest` keeps the whole group or none of it.
   */
  lemma SelectGroup(block: seq<Question>, group: GradeLevel, rest: seq<Question>, g: GradeLevel)
    requires forall i :: 0 <= i < |block| ==> block[i].gradeLevel == group
    ensures Filter(block + rest, (q: Question) => q.gradeLevel == g)
            == (if group == g then block else []) + Filter(rest, (q: Question) => q.gradeLevel == g)
  {
    FilterConcat(block, rest, (q: Question) => q.gradeLevel == g);
    if group == g {
      FilterKeepsAll(block, (q: Question) => q.gradeLevel == g);
    } else {
      FilterKeepsNone(block, (q: Question) => q.gradeLevel == g);
    }
  }

  /**
   * On a bank holding only the built-in questions, choosing a grade and
   * "all" topics selects exactly that grade's questions, in order.
   */
  lemma SeedSelection(loadTime: int, g: GradeLevel)
    ensures SelectQuestions(InitialQuestions(loadTime), g, AllTopics) == SeedOf(g, loadTime)
  {
    var s6, s7, s8, s9 := SeedGrade6(loadTime), SeedGrade7(loadTime),
                          SeedGrade8(loadTime), SeedGrade9(loadTime);
    SeedOfShape(Grade6, loadTime);
    SeedOfShape(Grade7, loadTime);
    SeedOfShape(Grade8, loadTime);
    SeedOfShape(Grade9, loadTime);
    assert InitialQuestions(loadTime) == s6 + (s7 + (s8 + (s9 + [])));
    SelectGroup(s9, Grade9, [], g);
    SelectGroup(s8, Grade8, s9 + [], g);
    SelectGroup(s7, Grade7, s8 + (s9 + []), g);
    SelectGroup(s6, Grade6, s7 + (s8 + (s9 + [])), g);
  }

  /** A quiz started on the built-in questions with "all" topics has three questions. */
  lemma SeedQuizSize(loadTime: int, g: GradeLevel)
    ensures |SelectQuestions(InitialQuestions(loadTime), g, AllTopics)| == 3
  {
    SeedSelection(loadTime, g);
    SeedOfShape(g, loadTime);
  }

  /** Reordering a selection keeps every question matching the filter. */
  lemma ReorderedMatches(filtered: seq<Question>, reordered: seq<Question>, grade: GradeLevel, topic: string)
    requires forall i :: 0 <= i < |filtered| ==> Matches(filtered[i], grade, topic)
    requires multiset(reordered) == multiset(filtered)
    ensures forall i :: 0 <= i < |reordered| ==> Matches(reordered[i], grade, topic)
  {
    forall i | 0 <= i < |reordered|
      ensures Matches(reordered[i], grade, topic)
    {
      assert reordered[i] in multiset(filtered);
    }
  }

  /**
   * The questions a session starts with: the selection, reordered by the
   * random-comparator sort. Any ordering may come out.
   */
  method ShuffledSelection(bank: seq<Question>, grade: GradeLevel, topic: string) returns (qs: seq<Question>)
    ensures multiset(qs) == multiset(SelectQuestions(bank, grade, topic))
    ensures forall i :: 0 <= i < |qs| ==> Matches(qs[i], grade, topic)
  {
    var filtered := SelectQuestions(bank, grade, topic);
    qs :| multiset(qs) == multiset(filtered);
    ReorderedMatches(filtered, qs, grade, topic);
  }

  /** The record of one answer: correct exactly when the chosen index is the question's. */
  function AnswerFor(q: Question, optionIndex: int): StudentAnswer {
    StudentAnswer(q.id, optionIndex, optionIndex == q.correctOptionIndex, 0)
  }

  /** Score and size of an attempt agree with its answers. */
  predicate ConsistentAttempt(a: QuizAttempt) {
    a.score == CountCorrect(a.answers) && a.totalQuestions == |a.answers|
    && 0 <= a.score <= a.totalQuestions
  }

  /**
   * The percentage on the results screen: 100 * score / total rounded to the
   * nearest integer, halves rounded up.
   */
  function Percentage(score: nat, total: nat): (p: nat)
    requires 0 < total && score <= total
    ensures p <= 100
    ensures 2 * total * p <= 200 * score + total < 2 * total * (p + 1)
    ensures score == total ==> p == 100
    ensures score == 0 ==> p == 0
  {
    var p := (200 * score + total) / (2 * total);
    PercentageBounds(score, total, p);
    p
  }

  /** The quotient in `Percentage` is the rounded ratio and stays within 0..100. */
  lemma PercentageBounds(score: nat, total: nat, p: nat)
    requires 0 < total && score <= total
    requires p == (200 * score + total) / (2 * total)
    ensures 2 * total * p <= 200 * score + total < 2 * total * (p + 1)
    ensures p <= 100
    ensures score == total ==> p == 100
    ensures score == 0 ==> p == 0
  {
    var n, d := 200 * score + total, 2 * total;
    DivisionBounds(n, d, p);
    assert n < d * 101;
    if p > 100 {
      MulMonotone(d, 101, p);
    }
    if score == total {
      assert d * 100 <= n;
      if p < 100 {
        MulMonotone(d, p + 1, 100);
      }
    }
    if score == 0 {
      assert n < d;
      if p > 0 {
        MulMonotone(d, 1, p);
      }
    }
  }

  /** What integer division computes, stated without division. */
  lemma DivisionBounds(n: nat, d: nat, p: nat)
    requires 0 < d && p == n / d
    ensures d * p <= n < d * (p + 1)
  {
  }

  lemma MulMonotone(d: nat, a: nat, b: nat)
    requires a <= b
    ensures d * a <= d * b
  {
  }

  datatype Feedback = Correct | Incorrect

  /** The screens the component shows, in the order its render checks them. */
  datatype Phase = NotStarted | Empty | InProgress | Pending | Finished

  class QuizSession {
    const store: Store
    var name: string
    var selectedGrade: Option<GradeLevel>
    var selectedTopic: string
    var hasStarted: bool
    var questions: seq<Question>
    var currentIndex: nat
    var answers: seq<StudentAnswer>
    var isFinished: bool
    var selectedOption: Option<int>
    var feedback: Option<Feedback>
    /** The answer the armed feedback timer records when it fires. */
    var pending: Option<StudentAnswer>
    /** The attempts this session has written to the store. */
    ghost var emitted: seq<QuizAttempt>

    function Phase(): Phase
      reads this
    {
      if !hasStarted then NotStarted
      else if |questions| == 0 then Empty
      else if isFinished then Finished
      else if feedback.Some? then Pending
      else InProgress
    }

    ghost predicate Valid()
      reads this
    {
      && (!hasStarted ==>
            questions == [] && currentIndex == 0 && answers == [] && !isFinished
            && selectedOption.None? && feedback.None? && pending.None?)
      && (hasStarted ==> selectedGrade.Some? && HasVisibleChar(name))
      && (questions == [] ==>
            currentIndex == 0 && answers == [] && !isFinished
            && selectedOption.None? && feedback.None? && pending.None?)
      && (questions != [] ==> currentIndex < |questions|)
      && (!isFinished ==>
            |answers| == currentIndex && emitted == []
            && (feedback.Some? <==> pending.Some?) && (selectedOption.Some? <==> pending.Some?))
      && (pending.Some? ==>
            !isFinished && selectedOption.Some?
            && pending.value == AnswerFor(questions[currentIndex], selectedOption.value)
            && feedback == Some(if pending.value.isCorrect then Correct else Incorrect))
      && (isFinished ==>
            hasStarted && |answers| == |questions| && currentIndex == |questions| - 1
            && pending.None? && |emitted| == 1
            && emitted[0].studentName == name && emitted[0].gradeLevel == selectedGrade.value
            && emitted[0].answers == answers && emitted[0].totalQuestions == |questions|)
    }

    constructor (store: Store)
      ensures Valid() && Phase() == NotStarted && this.store == store
      ensures name == "" && selectedGrade.None? && selectedTopic == AllTopics
    {
      this.store := store;
      name := "";
      selectedGrade := None;
      selectedTopic := AllTopics;
      hasStarted := false;
      questions := [];
      currentIndex := 0;
      answers := [];
      isFinished := false;
      selectedOption := None;
      feedback := None;
      pending := None;
      emitted := [];
    }

    /** Typing in the name field of the start screen. */
    method SetName(n: string)
      requires Valid() && Phase() == NotStarted
      modifies this`name
      ensures Valid() && name == n
    {
      name := n;
    }

    /** Choosing a grade resets the topic filter to "all". */
    method SelectGrade(g: GradeLevel)
      requires Valid() && Phase() == NotStarted
      modifies this`selectedGrade, this`selectedTopic
      ensures Valid() && selectedGrade == Some(g) && selectedTopic == AllTopics
    {
      selectedGrade := Some(g);
      selectedTopic := AllTopics;
    }

    /** Choosing a topic; the topic list is only shown once a grade is chosen. */
    method SelectTopic(t: string)
      requires Valid() && Phase() == NotStarted && selectedGrade.Some?
      modifies this`selectedTopic
      ensures Valid() && selectedTopic == t
    {
      selectedTopic := t;
    }

    /**
     * The start button. Without a non-blank name and a grade nothing
     * happens; otherwise the session holds some ordering of the matching
     * questions of the bank, and is Empty when there are none.
     */
    method Start()
      requires Valid() && Phase() == NotStarted
      modifies this, store
      ensures Valid()
      ensures name == old(name) && selectedGrade == old(selectedGrade) && selectedTopic == old(selectedTopic)
      ensures !(NonBlank(old(name)) && old(selectedGrade).Some?) ==>
                unchanged(this) && unchanged(store)
      ensures NonBlank(old(name)) && old(selectedGrade).Some? ==>
                && hasStarted
                && multiset(questions)
                   == multiset(SelectQuestions(old(store.Questions()), selectedGrade.value, selectedTopic))
                && (forall i :: 0 <= i < |questions| ==> Matches(questions[i], selectedGrade.value, selectedTopic))
                && currentIndex == 0 && answers == [] && emitted == []
                && Phase() == (if questions == [] then Empty else InProgress)
                && store.questionsKey == Some(old(store.Questions()))
                && store.attemptsKey == old(store.attemptsKey)
    {
      if NonBlank(name) && selectedGrade.Some? {
        NonBlankIff(name);
        var allQuestions := store.GetQuestions();
        var shuffled := ShuffledSelection(allQuestions, selectedGrade.value, selectedTopic);
        Begin(shuffled);
      }
    }

    /** Shows the first of the chosen questions, or the empty screen when there are none. */
    method Begin(chosen: seq<Question>)
      requires Valid() && Phase() == NotStarted && selectedGrade.Some? && HasVisibleChar(name)
      modifies this`hasStarted, this`questions
      ensures Valid() && hasStarted && questions == chosen
      ensures Phase() == (if chosen == [] then Empty else InProgress)
    {
      questions := chosen;
      hasStarted := true;
    }

    /**
     * Clicking an option. While feedback is shown a click is ignored;
     * otherwise the answer is computed, the feedback shown and the timer
     * armed with the answer it will record.
     */
    method Submit(optionIndex: int)
      requires Valid() && (Phase() == InProgress || Phase() == Pending)
      modifies this`selectedOption, this`feedback, this`pending
      ensures Valid()
      ensures old(feedback).Some? ==> unchanged(this)
      ensures old(feedback).None? ==>
                && Phase() == Pending
                && selectedOption == Some(optionIndex)
                && pending == Some(AnswerFor(questions[currentIndex], optionIndex))
                && (pending.value.isCorrect <==> optionIndex == questions[currentIndex].correctOptionIndex)
                && pending.value.questionId == questions[currentIndex].id
                && pending.value.timeSpentSeconds == 0
                && feedback == Some(if pending.value.isCorrect then Correct else Incorrect)
    {
      if feedback.Some? {
        return;
      }
      selectedOption := Some(optionIndex);
      var currentQ := questions[currentIndex];
      var answer := AnswerFor(currentQ, optionIndex);
      feedback := Some(if answer.isCorrect then Correct else Incorrect);
      pending := Some(answer);
    }

    /**
     * The feedback timer firing: the pending answer is appended; then the
     * session moves to the next question, or, after the last one, finishes
     * and writes its attempt (id and clock reading supplied by the caller).
     */
    method Commit(attemptId: string, now: int)
      requires Valid() && Phase() == Pending
      modifies this, store
      ensures Valid()
      ensures answers == old(answers) + [old(pending).value]
      ensures questions == old(questions) && name == old(name) && selectedGrade == old(selectedGrade)
      ensures selectedTopic == old(selectedTopic) && hasStarted
      ensures pending.None?
      ensures old(currentIndex) < |questions| - 1 ==>
                && Phase() == InProgress && currentIndex == old(currentIndex) + 1
                && |answers| == currentIndex
                && selectedOption.None? && feedback.None? && emitted == []
                && unchanged(store)
      ensures old(currentIndex) == |questions| - 1 ==>
                && Phase() == Finished && isFinished
                && currentIndex == old(currentIndex) && |answers| == |questions|
                && feedback == old(feedback) && selectedOption == old(selectedOption)
                && emitted == [QuizAttempt(attemptId, name, selectedGrade.value, now,
                                           CountCorrect(answers), |questions|, answers)]
                && ConsistentAttempt(emitted[0])
                && store.attemptsKey == Some(emitted + old(store.Attempts()))
                && store.questionsKey == old(store.questionsKey)
    {
      var answer := pending.value;
      pending := None;
      var newAnswers := answers + [answer];
      assert |newAnswers| == currentIndex + 1;
      answers := newAnswers;
      if currentIndex < |questions| - 1 {
        currentIndex := currentIndex + 1;
        selectedOption := None;
        feedback := None;
        assert !isFinished && pending.None? && |answers| == currentIndex && emitted == [];
      } else {
        FinishQuiz(newAnswers, attemptId, now);
      }
    }

    /** Builds the attempt from the final answers, stores it and shows the results. */
    method FinishQuiz(finalAnswers: seq<StudentAnswer>, attemptId: string, now: int)
      requires hasStarted && selectedGrade.Some? && HasVisibleChar(name)
      requires questions != [] && !isFinished && pending.None? && feedback.Some? && selectedOption.Some?
      requires currentIndex == |questions| - 1 && answers == finalAnswers && |finalAnswers| == |questions|
      modifies this, store
      ensures isFinished && Valid()
      ensures answers == old(answers) && questions == old(questions) && currentIndex == old(currentIndex)
      ensures name == old(name) && selectedGrade == old(selectedGrade) && selectedTopic == old(selectedTopic)
      ensures hasStarted == old(hasStarted)
      ensures pending.None? && feedback == old(feedback) && selectedOption == old(selectedOption)
      ensures emitted == [QuizAttempt(attemptId, name, selectedGrade.value, now,
                                      CountCorrect(finalAnswers), |questions|, finalAnswers)]
      ensures ConsistentAttempt(emitted[0])
      ensures store.attemptsKey == Some(emitted + old(store.Attempts()))
      ensures store.questionsKey == old(store.questionsKey)
    {
      var score := CountCorrect(finalAnswers);
      var attempt := QuizAttempt(attemptId, name, selectedGrade.value, now, score, |questions|, finalAnswers);
      store.SaveAttempt(attempt);
      emitted := [attempt];
      isFinished := true;
    }

    /** The percentage on the results screen. */
    function FinalPercentage(): (p: nat)
      reads this
      requires Valid() && Phase() == Finished
      ensures p <= 100
      ensures (forall i :: 0 <= i < |answers| ==> answers[i].isCorrect) ==> p == 100
      ensures (forall i :: 0 <= i < |answers| ==> !answers[i].isCorrect) ==> p == 0
    {
      CountCorrectFull(answers);
      CountCorrectZero(answers);
      Percentage(CountCorrect(answers), |questions|)
    }
  }

  /**
   * A session that found no questions can neither answer nor finish, so it
   * never writes an attempt.
   */
  lemma EmptySessionEmitsNothing(s: QuizSession)
    requires s.Valid() && s.Phase() == Empty
    ensures s.emitted == [] && !s.isFinished && s.pending.None? && s.answers == []
  {
  }
}
