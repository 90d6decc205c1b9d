/**
 * The teacher's side (components/TeacherDashboard.tsx): the manual question
 * form and its validation, wrapping a generated question, deleting and
 * resetting through the store, and the ranking of the recorded attempts.
 *
 * The generation service is a function the caller supplies (`None` stands
 * for any failure of the call); clock readings are parameters.
 */
module Dashboard {
  import opened Types
  import opened Storage

  /** Category given to a manual question whose category field is empty. */
  const DefaultCategory: string := "Geral"

  // ---------------------------------------------------------------- ranking

  /** The ranking comparator: negative when `a` is listed before `b`. */
  function Compare(a: QuizAttempt, b: QuizAttempt): int {
    if b.score - a.score != 0 then b.score - a.score else b.timestamp - a.timestamp
  }

  /** `a` ranks at least as high as `b`: a higher score, or the same score and a timestamp no older. */
  predicate RanksAtLeast(a: QuizAttempt, b: QuizAttempt) {
    a.score > b.score || (a.score == b.score && a.timestamp >= b.timestamp)
  }

  /** Same score and same timestamp: the comparator cannot tell the two apart. */
  predicate Tied(a: QuizAttempt, b: QuizAttempt) {
    a.score == b.score && a.timestamp == b.timestamp
  }

  /** The comparator orders by score descending, then by timestamp descending. */
  lemma CompareMeaning(a: QuizAttempt, b: QuizAttempt)
    ensures Compare(a, b) <= 0 <==> RanksAtLeast(a, b)
    ensures Compare(a, b) == 0 <==> Tied(a, b)
    ensures Compare(a, b) < 0 <==> Compare(b, a) > 0
  {
  }

  predicate Ranked(s: seq<QuizAttempt>) {
    forall i, j :: 0 <= i < j < |s| ==> RanksAtLeast(s[i], s[j])
  }

  /**
   * Places `x` in front of the first element it ranks at least as high as;
   * every element it passes outranks it strictly.
   */
  function Insert(x: QuizAttempt, ranked: seq<QuizAttempt>): (r: seq<QuizAttempt>)
    ensures multiset(r) == multiset(ranked) + multiset{x}
  {
    if ranked == [] then [x]
    else if Compare(x, ranked[0]) <= 0 then [x] + ranked
    else
      assert ranked == [ranked[0]] + ranked[1..];
      [ranked[0]] + Insert(x, ranked[1..])
  }

  /**
   * The leaderboard order of the attempts: a stable sort by the comparator,
   * as `Array.prototype.sort` is. The attempts themselves are a value and
   * are not changed.
   */
  function Ranking(attempts: seq<QuizAttempt>): (r: seq<QuizAttempt>)
    ensures multiset(r) == multiset(attempts)
  {
    if attempts == [] then []
    else
      assert attempts == [attempts[0]] + attempts[1..];
      Insert(attempts[0], Ranking(attempts[1..]))
  }

  /** The elements of `s` tied with `a`, in their order in `s`. */
  function TiedWith(s: seq<QuizAttempt>, a: QuizAttempt): seq<QuizAttempt> {
    Filter(s, (b: QuizAttempt) => Tied(a, b))
  }

  lemma {:induction false} InsertRanked(x: QuizAttempt, ranked: seq<QuizAttempt>)
    requires Ranked(ranked)
    ensures Ranked(Insert(x, ranked))
  {
    if ranked != [] && Compare(x, ranked[0]) > 0 {
      var rest := Insert(x, ranked[1..]);
      InsertRanked(x, ranked[1..]);
      assert multiset(rest) == multiset(ranked[1..]) + multiset{x};
      forall j | 0 <= j < |rest|
        ensures RanksAtLeast(ranked[0], rest[j])
      {
        assert rest[j] in multiset(rest);
        if rest[j] != x {
          assert rest[j] in ranked[1..];
        }
      }
    }
  }

  /** The ranking lists the attempts by score descending, then by timestamp descending. */
  lemma {:induction false} RankingRanked(attempts: seq<QuizAttempt>)
    ensures Ranked(Ranking(attempts))
  {
    if attempts != [] {
      RankingRanked(attempts[1..]);
      InsertRanked(attempts[0], Ranking(attempts[1..]));
    }
  }

  lemma TiedWithConcat(s: seq<QuizAttempt>, t: seq<QuizAttempt>, a: QuizAttempt)
    ensures TiedWith(s + t, a) == TiedWith(s, a) + TiedWith(t, a)
  {
    FilterConcat(s, t, (b: QuizAttempt) => Tied(a, b));
  }

  lemma TiedWithSingleton(x: QuizAttempt, a: QuizAttempt)
    ensures TiedWith([x], a) == if Tied(a, x) then [x] else []
  {
    assert [x][1..] == [];
  }

  /** Inserting `x` adds it in front of the elements it is tied with and nowhere else. */
  lemma {:induction false} InsertTied(x: QuizAttempt, ranked: seq<QuizAttempt>, a: QuizAttempt)
    ensures TiedWith(Insert(x, ranked), a)
            == (if Tied(a, x) then [x] + TiedWith(ranked, a) else TiedWith(ranked, a))
  {
    TiedWithSingleton(x, a);
    if ranked == [] {
      assert Insert(x, ranked) == [x] + [];
      TiedWithConcat([x], [], a);
    } else if Compare(x, ranked[0]) <= 0 {
      TiedWithConcat([x], ranked, a);
    } else {
      var y := ranked[0];
      TiedWithSingleton(y, a);
      TiedWithConcat([y], Insert(x, ranked[1..]), a);
      TiedWithConcat([y], ranked[1..], a);
      assert [y] + ranked[1..] == ranked;
      InsertTied(x, ranked[1..], a);
      // x is passed over only by attempts that strictly outrank it
      assert Tied(a, x) ==> !Tied(a, y);
    }
  }

  /**
   * Stability: attempts the comparator ties keep the order they have in the
   * store.
   */
  lemma {:induction false} RankingStable(attempts: seq<QuizAttempt>, a: QuizAttempt)
    ensures TiedWith(Ranking(attempts), a) == TiedWith(attempts, a)
  {
    if attempts != [] {
      var x := attempts[0];
      var rest := attempts[1..];
      assert Ranking(attempts) == Insert(x, Ranking(rest));
      RankingStable(rest, a);
      InsertTied(x, Ranking(rest), a);
      TiedWithSingleton(x, a);
      TiedWithConcat([x], rest, a);
      assert [x] + rest == attempts;
    }
  }

  // ------------------------------------------------------- question authoring

  /** The save guard: an empty statement or any empty option rejects the form. */
  predicate IsIncomplete(text: string, options: seq<string>) {
    text == "" || exists i :: 0 <= i < |options| && options[i] == ""
  }

  /** The question a manual save stores; an empty category becomes "Geral". */
  function ManualQuestion(id: string, now: int, text: string, options: seq<string>, correct: int,
                          category: string, difficulty: Difficulty, grade: GradeLevel): Question
  {
    Question(id, text, options, correct,
             Some(if category == "" then DefaultCategory else category),
             Some(difficulty), grade, now)
  }

  /** What the generation service returns: a question without its creation time. */
  datatype GeneratedQuestion = GeneratedQuestion(
    id: string,
    text: string,
    options: seq<string>,
    correctOptionIndex: int,
    category: Option<string>,
    difficulty: Option<Difficulty>,
    gradeLevel: GradeLevel)

  /** A generated question completed with its creation time. */
  function WithCreatedAt(g: GeneratedQuestion, now: int): Question {
    Question(g.id, g.text, g.options, g.correctOptionIndex, g.category, g.difficulty, g.gradeLevel, now)
  }

  class TeacherDashboard {
    const store: Store
    /** The lists shown, as last read from the store. */
    var questions: seq<Question>
    var attempts: seq<QuizAttempt>
    // the manual form
    var newQText: string
    var newQOptions: seq<string>
    var newQCorrect: int
    var newQGrade: GradeLevel
    var newQCategory: string
    var newQDifficulty: Difficulty
    // the generation form
    var aiGrade: GradeLevel
    var aiTopic: string
    var aiDifficulty: Difficulty

    /** The form always has four option slots and one of them is marked correct. */
    ghost predicate Valid()
      reads this
    {
      |newQOptions| == 4 && 0 <= newQCorrect < 4
    }

    /**
     * The dashboard once mounted: the initial state followed by the
     * mount-time effects, which read both lists from the store (seeding the
     * questions if absent) and set the category and topic to the sixth
     * grade's first curriculum topic.
     */
    constructor (store: Store)
      modifies store
      ensures Valid() && this.store == store
      ensures questions == old(store.Questions()) && attempts == store.Attempts()
      ensures store.questionsKey == Some(questions) && store.attemptsKey == old(store.attemptsKey)
      ensures newQText == "" && newQOptions == ["", "", "", ""] && newQCorrect == 0
      ensures newQGrade == Grade6 && newQDifficulty == Medium && newQCategory == BnccTopics(Grade6)[0]
      ensures aiGrade == Grade6 && aiDifficulty == Medium && aiTopic == BnccTopics(Grade6)[0]
    {
      this.store := store;
      questions := [];
      attempts := [];
      newQText := "";
      newQOptions := ["", "", "", ""];
      newQCorrect := 0;
      newQGrade := Grade6;
      newQDifficulty := Medium;
      aiGrade := Grade6;
      aiDifficulty := Medium;
      newQCategory := BnccTopics(Grade6)[0];
      aiTopic := BnccTopics(Grade6)[0];
      new;
      Refresh();
    }

    /** Re-reads both lists from the store (seeding the questions if absent). */
    method Refresh()
      modifies this`questions, this`attempts, store
      ensures questions == old(store.Questions()) && attempts == store.Attempts()
      ensures store.questionsKey == Some(questions) && store.attemptsKey == old(store.attemptsKey)
    {
      questions := store.GetQuestions();
      attempts := store.GetAttempts();
    }

    /** Changing the form's grade selects that grade's first curriculum topic. */
    method SetFormGrade(g: GradeLevel)
      modifies this`newQGrade, this`newQCategory
      ensures newQGrade == g && newQCategory == BnccTopics(g)[0] && newQCategory in BnccTopics(g)
    {
      newQGrade := g;
      if |BnccTopics(g)| > 0 {
        newQCategory := BnccTopics(g)[0];
      }
    }

    /** Changing the generation grade selects that grade's first curriculum topic. */
    method SetAiGrade(g: GradeLevel)
      modifies this`aiGrade, this`aiTopic
      ensures aiGrade == g && aiTopic == BnccTopics(g)[0] && aiTopic in BnccTopics(g)
    {
      aiGrade := g;
      if |BnccTopics(g)| > 0 {
        aiTopic := BnccTopics(g)[0];
      }
    }

    method SetFormText(text: string)
      modifies this`newQText
      ensures newQText == text
    {
      newQText := text;
    }

    /** Marking option slot `idx` as the correct one (the radio buttons). */
    method SetFormCorrect(idx: int)
      requires Valid() && 0 <= idx < |newQOptions|
      modifies this`newQCorrect
      ensures Valid() && newQCorrect == idx
    {
      newQCorrect := idx;
    }

    method SetFormCategory(category: string)
      modifies this`newQCategory
      ensures newQCategory == category
    {
      newQCategory := category;
    }

    method SetFormDifficulty(d: Difficulty)
      modifies this`newQDifficulty
      ensures newQDifficulty == d
    {
      newQDifficulty := d;
    }

    method SetAiTopic(topic: string)
      modifies this`aiTopic
      ensures aiTopic == topic
    {
      aiTopic := topic;
    }

    method SetAiDifficulty(d: Difficulty)
      modifies this`aiDifficulty
      ensures aiDifficulty == d
    {
      aiDifficulty := d;
    }

    /** Typing `val` into option slot `idx` changes that slot and no other. */
    method AddOption(idx: int, val: string)
      requires Valid() && 0 <= idx < |newQOptions|
      modifies this`newQOptions
      ensures Valid() && |newQOptions| == |old(newQOptions)|
      ensures newQOptions[idx] == val
      ensures forall j :: 0 <= j < |newQOptions| && j != idx ==> newQOptions[j] == old(newQOptions)[j]
    {
      var newOpts := newQOptions;
      newOpts := newOpts[idx := val];
      newQOptions := newOpts;
    }

    /**
     * The save button. An incomplete form stores nothing and changes nothing;
     * otherwise the question is put in front of the bank, the statement and
     * options are cleared and the lists re-read.
     */
    method SaveQuestion(id: string, now: int) returns (saved: bool)
      requires Valid()
      modifies this, store
      ensures Valid()
      ensures saved <==> !IsIncomplete(old(newQText), old(newQOptions))
      ensures !saved ==> unchanged(this) && unchanged(store)
      ensures saved ==>
                var q := ManualQuestion(id, now, old(newQText), old(newQOptions), old(newQCorrect),
                                        old(newQCategory), old(newQDifficulty), old(newQGrade));
                && WellFormed(q)
                && store.questionsKey == Some([q] + old(store.Questions()))
                && store.attemptsKey == old(store.attemptsKey)
                && questions == store.questionsKey.value && attempts == store.Attempts()
                && newQText == "" && newQOptions == ["", "", "", ""]
                && newQCorrect == old(newQCorrect) && newQGrade == old(newQGrade)
                && newQCategory == old(newQCategory) && newQDifficulty == old(newQDifficulty)
                && aiGrade == old(aiGrade) && aiTopic == old(aiTopic) && aiDifficulty == old(aiDifficulty)
    {
      if IsIncomplete(newQText, newQOptions) {
        return false;
      }
      var q := ManualQuestion(id, now, newQText, newQOptions, newQCorrect,
                              newQCategory, newQDifficulty, newQGrade);
      store.SaveQuestion(q);
      newQText := "";
      newQOptions := ["", "", "", ""];
      Refresh();
      saved := true;
    }

    /**
     * The generation button. With an empty topic nothing happens; otherwise
     * the service is asked for a question of the chosen topic, difficulty
     * and grade, and a question it returns is stored with its creation time
     * attached. A failed call stores nothing. The returned question is not
     * checked, so nothing is promised about its correct index.
     */
    method GenerateAI(generate: (string, Difficulty, GradeLevel) -> Option<GeneratedQuestion>, now: int)
      returns (stored: Option<Question>)
      modifies this`questions, this`attempts, store
      ensures aiTopic == "" ==> stored.None? && unchanged(this) && unchanged(store)
      ensures aiTopic != "" && generate(aiTopic, aiDifficulty, aiGrade).None? ==>
                stored.None? && unchanged(this) && unchanged(store)
      ensures aiTopic != "" && generate(aiTopic, aiDifficulty, aiGrade).Some? ==>
                && stored == Some(WithCreatedAt(generate(aiTopic, aiDifficulty, aiGrade).value, now))
                && stored.value.createdAt == now
                && store.questionsKey == Some([stored.value] + old(store.Questions()))
                && store.attemptsKey == old(store.attemptsKey)
                && questions == store.questionsKey.value && attempts == store.Attempts()
    {
      if aiTopic == "" {
        return None;
      }
      var reply := generate(aiTopic, aiDifficulty, aiGrade);
      if reply.None? {
        return None;
      }
      var question := WithCreatedAt(reply.value, now);
      store.SaveQuestion(question);
      Refresh();
      stored := Some(question);
    }

    /** The delete button: on confirmation every question with that id is removed. */
    method Delete(id: string, confirmed: bool)
      modifies this`questions, this`attempts, store
      ensures !confirmed ==> unchanged(this) && unchanged(store)
      ensures confirmed ==>
                && store.questionsKey == Some(RemoveById(old(store.Questions()), id))
                && store.attemptsKey == old(store.attemptsKey)
                && questions == store.questionsKey.value && attempts == store.Attempts()
                && forall q :: q in questions <==> q in old(store.Questions()) && q.id != id
    {
      if confirmed {
        store.DeleteQuestion(id);
        Refresh();
      }
    }

    /** The reset link: both keys are removed (the page reload is not modelled). */
    method ResetAll()
      modifies store
      ensures store.Questions() == store.seed && store.Attempts() == []
      ensures store.questionsKey.None? && store.attemptsKey.None?
    {
      store.ClearAllData();
    }

    /** The results table: the attempts in leaderboard order. */
    function SortedAttempts(): (r: seq<QuizAttempt>)
      reads this
      ensures multiset(r) == multiset(attempts)
      ensures Ranked(r)
    {
      RankingRanked(attempts);
      Ranking(attempts)
    }
  }
}
