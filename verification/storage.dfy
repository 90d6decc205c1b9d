/**
 * The persisted state of the application (services/storageService.ts): two
 * whole collections kept under two keys of the browser's key-value store,
 * the curriculum topic table and the built-in questions the bank is seeded
 * with. Serialisation to JSON is taken to be the identity: a key holds the
 * sequence itself.
 */
module Storage {
  import opened Types

  // The curriculum topics, named after their subject.
  const NumberSystem: string := "Sistema de Numeração Decimal"
  const NaturalOperations: string := "Operações com Naturais"
  const FractionsDecimals: string := "Frações e Decimais"
  const PlaneSolidGeometry: string := "Geometria Plana e Espacial"
  const Measures: string := "Grandezas e Medidas"
  const ProbabilityStatistics: string := "Probabilidade e Estatística"
  const Integers: string := "Números Inteiros"
  const Rationals: string := "Números Racionais"
  const LinearEquations: string := "Equações de 1º Grau"
  const GeometricTransformations: string := "Transformações Geométricas"
  const Proportionality: string := "Proporcionalidade e Regra de 3"
  const MeansCharts: string := "Médias e Gráficos"
  const PowersRoots: string := "Potenciação e Radiciação"
  const ScientificNotation: string := "Notação Científica"
  const Polynomials: string := "Polinômios e Produtos Notáveis"
  const SystemsOfEquations: string := "Sistemas de Equações"
  const GeometryTriangles: string := "Geometria e Triângulos"
  const PlaneAreas: string := "Áreas de Figuras Planas"
  const Reals: string := "Números Reais"
  const QuadraticEquations: string := "Equações de 2º Grau"
  const FunctionsGraphs: string := "Funções e Gráficos"
  const Pythagoras: string := "Teorema de Pitágoras"
  const Trigonometry: string := "Trigonometria"
  const ProbabilityCombinatorics: string := "Probabilidade e Combinatória"

  /** The six curriculum topics of each grade, in the order the forms list them. */
  function BnccTopics(g: GradeLevel): (topics: seq<string>)
    ensures |topics| == 6
    ensures forall i, j :: 0 <= i < j < |topics| ==> topics[i] != topics[j]
  {
    match g
    case Grade6 => [NumberSystem, NaturalOperations, FractionsDecimals,
                   PlaneSolidGeometry, Measures, ProbabilityStatistics]
    case Grade7 => [Integers, Rationals, LinearEquations,
                   GeometricTransformations, Proportionality, MeansCharts]
    case Grade8 => [PowersRoots, ScientificNotation, Polynomials,
                   SystemsOfEquations, GeometryTriangles, PlaneAreas]
    case Grade9 => [Reals, QuadraticEquations, FunctionsGraphs,
                   Pythagoras, Trigonometry, ProbabilityCombinatorics]
  }

  // The statements of the built-in questions.
  const Text6Easy: string := "Qual é o resultado da multiplicação 7 x 8?"
  const Text6Medium: string := "Maria tinha 12 balas e deu 1/3 para seu irmão. Quantas balas ela deu?"
  const Text6Hard: string := "Quantas faces tem um cubo?"
  const Text7Easy: string := "Qual o resultado de: -5 + 8?"
  const Text7Medium: string := "Resolva a equação: 2x + 10 = 20"
  const Text7Hard: string := "Se 3 quilos de ração custam R$ 15,00, quanto custam 7 quilos?"
  const Text8Easy: string := "Qual a soma dos ângulos internos de um triângulo?"
  const Text8Medium: string := "Simplifique a expressão algébrica: 2a + 3b + 5a - b"
  const Text8Hard: string := "Qual é a área de um círculo com raio de 5cm? (Considere π = 3)"
  const Text9Easy: string := "Como se escreve 0,0004 em notação científica?"
  const Text9Medium: string := "Em um triângulo retângulo, catetos medem 3 e 4. A hipotenusa mede:"
  const Text9Hard: string := "Quantas raízes reais tem a equação x² - 4x + 4 = 0?"

  /**
   * The built-in questions of each grade, in the order they are listed. In
   * storageService.ts every entry reads the clock for its own `createdAt`
   * while the module is loaded; the model stamps all twelve with the one
   * reading `loadTime`.
   */
  function SeedGrade6(loadTime: int): seq<Question> {
    [ Question("6-easy", Text6Easy,
               ["54", "56", "48", "64"], 1, Some(NaturalOperations), Some(Easy), Grade6, loadTime),
      Question("6-medium", Text6Medium,
               ["3", "4", "6", "2"], 1, Some(FractionsDecimals), Some(Medium), Grade6, loadTime),
      Question("6-hard", Text6Hard,
               ["4", "8", "6", "12"], 2, Some(PlaneSolidGeometry), Some(Hard), Grade6, loadTime) ]
  }

  function SeedGrade7(loadTime: int): seq<Question> {
    [ Question("7-easy", Text7Easy,
               ["-3", "-13", "3", "13"], 2, Some(Integers), Some(Easy), Grade7, loadTime),
      Question("7-medium", Text7Medium,
               ["5", "10", "2", "15"], 0, Some(LinearEquations), Some(Medium), Grade7, loadTime),
      Question("7-hard", Text7Hard,
               ["R$ 30,00", "R$ 45,00", "R$ 35,00", "R$ 25,00"], 2,
               Some(Proportionality), Some(Hard), Grade7, loadTime) ]
  }

  function SeedGrade8(loadTime: int): seq<Question> {
    [ Question("8-easy", Text8Easy,
               ["180°", "360°", "90°", "270°"], 0, Some(GeometryTriangles), Some(Easy), Grade8, loadTime),
      Question("8-medium", Text8Medium,
               ["7a + 2b", "7a + 4b", "10ab", "7a - 2b"], 0,
               Some(Polynomials), Some(Medium), Grade8, loadTime),
      Question("8-hard", Text8Hard,
               ["15 cm²", "25 cm²", "75 cm²", "30 cm²"], 2,
               Some(PlaneAreas), Some(Hard), Grade8, loadTime) ]
  }

  function SeedGrade9(loadTime: int): seq<Question> {
    [ Question("9-easy", Text9Easy,
               ["4 x 10⁻³", "4 x 10⁻⁴", "4 x 10³", "4 x 10⁴"], 1,
               Some(Reals), Some(Easy), Grade9, loadTime),
      Question("9-medium", Text9Medium,
               ["5", "6", "7", "8"], 0, Some(Pythagoras), Some(Medium), Grade9, loadTime),
      Question("9-hard", Text9Hard,
               ["Nenhuma", "Duas distintas", "Uma única (real)", "Três"], 2,
               Some(QuadraticEquations), Some(Hard), Grade9, loadTime) ]
  }

  function SeedOf(g: GradeLevel, loadTime: int): seq<Question> {
    match g
    case Grade6 => SeedGrade6(loadTime)
    case Grade7 => SeedGrade7(loadTime)
    case Grade8 => SeedGrade8(loadTime)
    case Grade9 => SeedGrade9(loadTime)
  }

  /** The built-in questions: the sixth-grade ones first, the ninth-grade ones last. */
  function InitialQuestions(loadTime: int): seq<Question> {
    SeedGrade6(loadTime) + SeedGrade7(loadTime) + SeedGrade8(loadTime) + SeedGrade9(loadTime)
  }

  /**
   * Each grade has three built-in questions of that grade, each with four
   * options, a correct index among them and a category from the grade's
   * curriculum topics.
   */
  lemma SeedOfShape(g: GradeLevel, loadTime: int)
    ensures |SeedOf(g, loadTime)| == 3
    ensures forall i :: 0 <= i < |SeedOf(g, loadTime)| ==>
              var q := SeedOf(g, loadTime)[i];
              && WellFormed(q) && q.gradeLevel == g && q.createdAt == loadTime
              && q.category.Some? && q.category.value in BnccTopics(g)
  {
    var s := SeedOf(g, loadTime);
    var topics := BnccTopics(g);
    match g
    case Grade6 =>
      assert s[0].category.value == topics[1];
      assert s[1].category.value == topics[2];
      assert s[2].category.value == topics[3];
    case Grade7 =>
      assert s[0].category.value == topics[0];
      assert s[1].category.value == topics[2];
      assert s[2].category.value == topics[4];
    case Grade8 =>
      assert s[0].category.value == topics[4];
      assert s[1].category.value == topics[2];
      assert s[2].category.value == topics[5];
    case Grade9 =>
      assert s[0].category.value == topics[0];
      assert s[1].category.value == topics[3];
      assert s[2].category.value == topics[1];
  }

  /**
   * Twelve built-in questions, each well formed and filed under one of its
   * grade's curriculum topics.
   */
  lemma SeedWellFormed(loadTime: int)
    ensures |InitialQuestions(loadTime)| == 12
    ensures forall q :: q in InitialQuestions(loadTime) ==>
              && WellFormed(q) && q.createdAt == loadTime
              && q.category.Some? && q.category.value in BnccTopics(q.gradeLevel)
  {
    SeedOfShape(Grade6, loadTime);
    SeedOfShape(Grade7, loadTime);
    SeedOfShape(Grade8, loadTime);
    SeedOfShape(Grade9, loadTime);
    forall q | q in InitialQuestions(loadTime)
      ensures WellFormed(q) && q.createdAt == loadTime
      ensures q.category.Some? && q.category.value in BnccTopics(q.gradeLevel)
    {
      var g :| q in SeedOf(g, loadTime);
      var i :| 0 <= i < |SeedOf(g, loadTime)| && SeedOf(g, loadTime)[i] == q;
    }
  }

  /** Every question whose id differs from `id`, in their original order. */
  function RemoveById(qs: seq<Question>, id: string): (r: seq<Question>)
    ensures forall q :: q in r <==> q in qs && q.id != id
  {
    FilterMembers(qs, (q: Question) => q.id != id);
    Filter(qs, (q: Question) => q.id != id)
  }

  /** Deleting the same id twice is the same as deleting it once. */
  lemma RemoveByIdIdempotent(qs: seq<Question>, id: string)
    ensures RemoveById(RemoveById(qs, id), id) == RemoveById(qs, id)
  {
    var once := RemoveById(qs, id);
    FilterKeepsAll(once, (q: Question) => q.id != id);
  }

  /** Deleting from a concatenation deletes from each part: survivors keep their order. */
  lemma RemoveByIdConcat(a: seq<Question>, b: seq<Question>, id: string)
    ensures RemoveById(a + b, id) == RemoveById(a, id) + RemoveById(b, id)
  {
    FilterConcat(a, b, (q: Question) => q.id != id);
  }

  /**
   * The browser's key-value store restricted to the application's two keys.
   * `None` is an absent key.
   */
  class Store {
    var questionsKey: Option<seq<Question>>
    var attemptsKey: Option<seq<QuizAttempt>>
    /** Clock reading that stamps every built-in question (see `SeedGrade6`). */
    const loadTime: int
    /** The built-in questions, fixed when the module is loaded. */
    const seed: seq<Question>

    /** The seed is the built-in question list stamped with the load time. */
    ghost predicate Valid()
      reads this
    {
      seed == InitialQuestions(loadTime)
    }

    /** The question list a read returns: the seed while the key is absent. */
    function Questions(): seq<Question>
      reads this
    {
      if questionsKey.None? then seed else questionsKey.value
    }

    /** The attempt list a read returns: empty while the key is absent. */
    function Attempts(): seq<QuizAttempt>
      reads this
    {
      if attemptsKey.None? then [] else attemptsKey.value
    }

    /** A store whose keys hold the given values (`None`: absent). */
    constructor (loadTime: int, questionsKey: Option<seq<Question>>, attemptsKey: Option<seq<QuizAttempt>>)
      ensures Valid() && this.loadTime == loadTime
      ensures this.questionsKey == questionsKey && this.attemptsKey == attemptsKey
    {
      this.loadTime := loadTime;
      seed := InitialQuestions(loadTime);
      this.questionsKey := questionsKey;
      this.attemptsKey := attemptsKey;
    }

    /** Reads the questions, writing the seed under the key when it is absent. */
    method GetQuestions() returns (qs: seq<Question>)
      modifies this
      ensures qs == old(Questions())
      ensures questionsKey == Some(qs)
      ensures old(questionsKey).Some? ==> questionsKey == old(questionsKey)
      ensures attemptsKey == old(attemptsKey)
    {
      if questionsKey.None? {
        questionsKey := Some(seed);
        return seed;
      }
      qs := questionsKey.value;
    }

    /** Puts `q` in front of the current questions. */
    method SaveQuestion(q: Question)
      modifies this
      ensures questionsKey == Some([q] + old(Questions()))
      ensures attemptsKey == old(attemptsKey)
    {
      var qs := GetQuestions();
      questionsKey := Some([q] + qs);
    }

    /** Drops every question whose id is `id`. */
    method DeleteQuestion(id: string)
      modifies this
      ensures questionsKey == Some(RemoveById(old(Questions()), id))
      ensures attemptsKey == old(attemptsKey)
    {
      var qs := GetQuestions();
      questionsKey := Some(RemoveById(qs, id));
    }

    /** Reads the attempts; an absent key reads as no attempts. */
    method GetAttempts() returns (attempts: seq<QuizAttempt>)
      ensures attemptsKey.None? ==> attempts == []
      ensures attemptsKey.Some? ==> attempts == attemptsKey.value
    {
      attempts := Attempts();
    }

    /** Puts `a` in front of the current attempts; the questions are untouched. */
    method SaveAttempt(a: QuizAttempt)
      modifies this
      ensures attemptsKey == Some([a] + old(Attempts()))
      ensures questionsKey == old(questionsKey)
    {
      var attempts := GetAttempts();
      attemptsKey := Some([a] + attempts);
    }

    /** Removes both keys (the page reload that follows is not modelled). */
    method ClearAllData()
      modifies this
      ensures questionsKey.None? && attemptsKey.None?
      ensures Questions() == seed && Attempts() == []
    {
      questionsKey := None;
      attemptsKey := None;
    }
  }

  /** After a reset the next read of the questions yields exactly the seed, and stores it. */
  method ResetThenRead(s: Store) returns (qs: seq<Question>, attempts: seq<QuizAttempt>)
    requires s.Valid()
    modifies s
    ensures qs == s.seed && |qs| == 12
    ensures attempts == []
    ensures s.questionsKey == Some(qs) && s.attemptsKey.None?
  {
    s.ClearAllData();
    qs := s.GetQuestions();
    attempts := s.GetAttempts();
    SeedWellFormed(s.loadTime);
  }

  /** Seeding happens once: a second read returns what the first one stored. */
  method ReadTwice(s: Store) returns (first: seq<Question>, second: seq<Question>)
    modifies s
    ensures first == second == old(s.Questions())
    ensures s.questionsKey == Some(first) && s.attemptsKey == old(s.attemptsKey)
  {
    first := s.GetQuestions();
    second := s.GetQuestions();
  }
}
