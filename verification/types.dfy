/**
 * The records of the quiz application (types.ts): questions, the answers a
 * student gives and the attempt recorded when a quiz is finished.
 * Timestamps are plain integers (milliseconds) supplied by the caller.
 */
module Types {

  datatype Option<+T> = None | Some(value: T)

  /** The four school years the question bank is partitioned by. */
  datatype GradeLevel = Grade6 | Grade7 | Grade8 | Grade9

  datatype Difficulty = Easy | Medium | Hard

  /** `category` and `difficulty` are optional fields of the record. */
  datatype Question = Question(
    id: string,
    text: string,
    options: seq<string>,
    correctOptionIndex: int,
    category: Option<string>,
    difficulty: Option<Difficulty>,
    gradeLevel: GradeLevel,
    createdAt: int)

  datatype StudentAnswer = StudentAnswer(
    questionId: string,
    selectedOptionIndex: int,
    isCorrect: bool,
    timeSpentSeconds: int)

  datatype QuizAttempt = QuizAttempt(
    id: string,
    studentName: string,
    gradeLevel: GradeLevel,
    timestamp: int,
    score: int,
    totalQuestions: int,
    answers: seq<StudentAnswer>)

  /** Four options and a correct index that points at one of them. */
  predicate WellFormed(q: Question) {
    |q.options| == 4 && 0 <= q.correctOptionIndex < |q.options|
  }

  /** Number of answers marked correct: the score of an attempt. */
  function CountCorrect(answers: seq<StudentAnswer>): (n: nat)
    ensures n <= |answers|
  {
    if answers == [] then 0
    else (if answers[0].isCorrect then 1 else 0) + CountCorrect(answers[1..])
  }

  /** The score is full exactly when every answer is correct. */
  lemma {:induction false} CountCorrectFull(answers: seq<StudentAnswer>)
    ensures CountCorrect(answers) == |answers| <==> forall i :: 0 <= i < |answers| ==> answers[i].isCorrect
  {
    if answers != [] {
      CountCorrectFull(answers[1..]);
      assert forall i :: 1 <= i < |answers| ==> answers[i] == answers[1..][i - 1];
    }
  }

  /** The score is zero exactly when no answer is correct. */
  lemma {:induction false} CountCorrectZero(answers: seq<StudentAnswer>)
    ensures CountCorrect(answers) == 0 <==> forall i :: 0 <= i < |answers| ==> !answers[i].isCorrect
  {
    if answers != [] {
      CountCorrectZero(answers[1..]);
      assert forall i :: 1 <= i < |answers| ==> answers[i] == answers[1..][i - 1];
    }
  }

  lemma {:induction false} CountCorrectAppend(answers: seq<StudentAnswer>, a: StudentAnswer)
    ensures CountCorrect(answers + [a]) == CountCorrect(answers) + (if a.isCorrect then 1 else 0)
  {
    if answers != [] {
      assert (answers + [a])[1..] == answers[1..] + [a];
      CountCorrectAppend(answers[1..], a);
    }
  }

  /**
   * The elements of `s` that `keep` accepts, in their original order (the
   * array `filter` the application uses throughout).
   */
  function Filter<T(!new)>(s: seq<T>, keep: T -> bool): (r: seq<T>)
    ensures |r| <= |s|
    ensures forall i :: 0 <= i < |r| ==> keep(r[i]) && r[i] in s
  {
    if s == [] then []
    else if keep(s[0]) then [s[0]] + Filter(s[1..], keep)
    else Filter(s[1..], keep)
  }

  /** Every kept element occurs in the result as often as in `s`; no other element occurs. */
  lemma {:induction false} FilterCount<T(!new)>(s: seq<T>, keep: T -> bool)
    ensures forall x :: multiset(Filter(s, keep))[x] == if keep(x) then multiset(s)[x] else 0
  {
    if s != [] {
      FilterCount(s[1..], keep);
      assert s == [s[0]] + s[1..];
    }
  }

  /** The result holds exactly the kept elements of `s`. */
  lemma FilterMembers<T(!new)>(s: seq<T>, keep: T -> bool)
    ensures forall x :: x in Filter(s, keep) <==> x in s && keep(x)
  {
    FilterCount(s, keep);
    forall x
      ensures x in Filter(s, keep) <==> x in s && keep(x)
    {
      assert x in Filter(s, keep) <==> multiset(Filter(s, keep))[x] > 0;
      assert x in s <==> multiset(s)[x] > 0;
    }
  }

  /** Filtering distributes over concatenation: order among survivors is kept. */
  lemma {:induction false} FilterConcat<T(!new)>(a: seq<T>, b: seq<T>, keep: T -> bool)
    ensures Filter(a + b, keep) == Filter(a, keep) + Filter(b, keep)
  {
    if a == [] {
      assert a + b == b;
    } else {
      assert (a + b)[0] == a[0];
      assert (a + b)[1..] == a[1..] + b;
      FilterConcat(a[1..], b, keep);
    }
  }

  /** A sequence every element of which is kept is returned unchanged. */
  lemma {:induction false} FilterKeepsAll<T(!new)>(s: seq<T>, keep: T -> bool)
    requires forall i :: 0 <= i < |s| ==> keep(s[i])
    ensures Filter(s, keep) == s
  {
    if s != [] {
      FilterKeepsAll(s[1..], keep);
    }
  }

  /** A sequence no element of which is kept is filtered to the empty sequence. */
  lemma {:induction false} FilterKeepsNone<T(!new)>(s: seq<T>, keep: T -> bool)
    requires forall i :: 0 <= i < |s| ==> !keep(s[i])
    ensures Filter(s, keep) == []
  {
    if s != [] {
      FilterKeepsNone(s[1..], keep);
    }
  }
}
