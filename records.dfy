/** The rows of the application's tables and the database that holds them. Each
    table is a sequence of rows in insertion order; a query's `.first()` is the
    first row that matches. Timestamps other than a result's `created_at`, the
    password hash and the relationship attributes are not part of the model. */
module Records {
  import opened Common

  datatype UserRole = RoleUser | RoleAdmin | RoleOrientador

  datatype QuestionType = MultipleChoice | Scale | Boolean

  datatype User = User(
    id: int,
    email: string,
    fullName: string,
    role: UserRole,
    isActive: bool)

  datatype Question = Question(
    id: int,
    text: string,
    questionType: QuestionType,
    category: string,
    order: int,
    isActive: bool)

  /** An answer option with its weight for each of the five courses. */
  datatype QuestionOption = QuestionOption(
    id: int,
    questionId: int,
    text: string,
    value: string,
    order: int,
    weightTi: real,
    weightEnfermagem: real,
    weightLogistica: real,
    weightAdministracao: real,
    weightEstetica: real)

  /** One stored answer of one questionnaire session. */
  datatype QuestionnaireResponse = QuestionnaireResponse(
    id: int,
    userId: Option<int>,
    sessionId: string,
    questionId: int,
    selectedOptionId: int,
    responseTimeMs: int)

  /** The stored outcome of one session; `createdAt` is the database clock, in seconds. */
  datatype RecommendationResult = RecommendationResult(
    id: int,
    userId: Option<int>,
    sessionId: string,
    scoreTi: real,
    scoreEnfermagem: real,
    scoreLogistica: real,
    scoreAdministracao: real,
    scoreEstetica: real,
    recommendedCourse: string,
    confidenceScore: real,
    modelVersion: string,
    processingTimeMs: int,
    createdAt: int)

  /** What a new option is built from, when a question is updated. */
  datatype OptionData = OptionData(
    text: string,
    value: string,
    order: int,
    weightTi: real,
    weightEnfermagem: real,
    weightLogistica: real,
    weightAdministracao: real,
    weightEstetica: real)

  /** The option row `data` becomes once the database gives it `id` under `questionId`. */
  function NewOption(id: int, questionId: int, data: OptionData): (o: QuestionOption)
    ensures o.id == id && o.questionId == questionId
    ensures o.text == data.text && o.value == data.value && o.order == data.order
    ensures o.weightTi == data.weightTi && o.weightEnfermagem == data.weightEnfermagem
    ensures o.weightLogistica == data.weightLogistica && o.weightAdministracao == data.weightAdministracao
    ensures o.weightEstetica == data.weightEstetica
  {
    QuestionOption(id, questionId, data.text, data.value, data.order, data.weightTi,
      data.weightEnfermagem, data.weightLogistica, data.weightAdministracao, data.weightEstetica)
  }

  /** Every id of a table lies below the next id the database will hand out. */
  predicate QuestionIdsBelow(qs: seq<Question>, next: int) {
    forall i :: 0 <= i < |qs| ==> qs[i].id < next
  }

  predicate OptionIdsBelow(os: seq<QuestionOption>, next: int) {
    forall i :: 0 <= i < |os| ==> os[i].id < next
  }

  predicate ResponseIdsBelow(rs: seq<QuestionnaireResponse>, next: int) {
    forall i :: 0 <= i < |rs| ==> rs[i].id < next
  }

  predicate ResultIdsBelow(rs: seq<RecommendationResult>, next: int) {
    forall i :: 0 <= i < |rs| ==> rs[i].id < next
  }

  /** The database session: five tables and the auto-increment counter of each
      table that the endpoints insert into. */
  class Database {
    var users: seq<User>
    var questions: seq<Question>
    var options: seq<QuestionOption>
    var responses: seq<QuestionnaireResponse>
    var results: seq<RecommendationResult>
    var nextQuestionId: int
    var nextOptionId: int
    var nextResponseId: int
    var nextResultId: int

    /** Auto-increment keys: every stored id is below its table's counter, so an id
        the database hands out is never in use. */
    predicate Valid()
      reads this
    {
      QuestionIdsBelow(questions, nextQuestionId) &&
      OptionIdsBelow(options, nextOptionId) &&
      ResponseIdsBelow(responses, nextResponseId) &&
      ResultIdsBelow(results, nextResultId)
    }

    /** An empty database. */
    constructor ()
      ensures Valid()
      ensures users == [] && questions == [] && options == [] && responses == [] && results == []
    {
      users := [];
      questions := [];
      options := [];
      responses := [];
      results := [];
      nextQuestionId := 1;
      nextOptionId := 1;
      nextResponseId := 1;
      nextResultId := 1;
    }
  }

  /** The option rows `data` becomes under `questionId`, numbered from `firstId`. */
  function NewOptions(firstId: int, questionId: int, data: seq<OptionData>): (os: seq<QuestionOption>)
    ensures |os| == |data|
    ensures forall k :: 0 <= k < |data| ==> os[k] == NewOption(firstId + k, questionId, data[k])
  {
    seq(|data|, k requires 0 <= k < |data| => NewOption(firstId + k, questionId, data[k]))
  }

  /** `db.add` of one option row per entry of `data`, all under `questionId`, in order. */
  method AddOptions(db: Database, questionId: int, data: seq<OptionData>)
    requires db.Valid()
    modifies db
    ensures db.Valid()
    ensures db.options == old(db.options) + NewOptions(old(db.nextOptionId), questionId, data)
    ensures db.nextOptionId == old(db.nextOptionId) + |data|
    ensures db.users == old(db.users) && db.questions == old(db.questions)
    ensures db.responses == old(db.responses) && db.results == old(db.results)
    ensures db.nextQuestionId == old(db.nextQuestionId) && db.nextResponseId == old(db.nextResponseId)
    ensures db.nextResultId == old(db.nextResultId)
  {
    var i := 0;
    while i < |data|
      invariant 0 <= i <= |data|
      invariant db.Valid()
      invariant db.nextOptionId == old(db.nextOptionId) + i
      invariant db.options == old(db.options) + NewOptions(old(db.nextOptionId), questionId, data[..i])
      invariant db.users == old(db.users) && db.questions == old(db.questions)
      invariant db.responses == old(db.responses) && db.results == old(db.results)
      invariant db.nextQuestionId == old(db.nextQuestionId) && db.nextResponseId == old(db.nextResponseId)
      invariant db.nextResultId == old(db.nextResultId)
    {
      assert NewOptions(old(db.nextOptionId), questionId, data[..i + 1]) ==
        NewOptions(old(db.nextOptionId), questionId, data[..i]) + [NewOption(db.nextOptionId, questionId, data[i])];
      db.options := db.options + [NewOption(db.nextOptionId, questionId, data[i])];
      db.nextOptionId := db.nextOptionId + 1;
      i := i + 1;
    }
    assert data[..i] == data;
  }

  // ---------------------------------------------------------------------------
  // `.filter(X.id == id).first()`
  // ---------------------------------------------------------------------------

  /** The position of the first row whose id is `id`, if any. */
  function FirstWithId<T>(rows: seq<T>, idOf: T -> int, id: int): (r: Option<nat>)
    ensures r.Some? ==> r.value < |rows| && idOf(rows[r.value]) == id
    ensures r.Some? ==> forall j :: 0 <= j < r.value ==> idOf(rows[j]) != id
    ensures r.None? <==> forall j :: 0 <= j < |rows| ==> idOf(rows[j]) != id
  {
    if |rows| == 0 then None
    else if idOf(rows[0]) == id then Some(0)
    else match FirstWithId(rows[1..], idOf, id)
      case None => None
      case Some(k) => Some(k + 1)
  }

  function QuestionIndex(qs: seq<Question>, id: int): Option<nat> {
    FirstWithId(qs, (q: Question) => q.id, id)
  }

  function OptionIndex(os: seq<QuestionOption>, id: int): Option<nat> {
    FirstWithId(os, (o: QuestionOption) => o.id, id)
  }

  function UserIndex(us: seq<User>, id: int): Option<nat> {
    FirstWithId(us, (u: User) => u.id, id)
  }
}
