/** The administration endpoints that change or aggregate the tables: the admin
    gate every handler applies first, the partial update of a question, the
    deactivate-or-delete rule, the toggle of a user's status and the per-course
    aggregation of the stored recommendations. */
module Admin {
  import opened Common
  import opened Records

  // ---------------------------------------------------------------------------
  // Gate
  // ---------------------------------------------------------------------------

  /** `get_admin_user`: only an administrator gets through, unchanged; anyone else gets 403. */
  function GetAdminUser(currentUser: User): (r: Result<User>)
    ensures r.Ok? <==> currentUser.role == RoleAdmin
    ensures r.Ok? ==> r.value == currentUser
    ensures r.Err? ==> r.error.status == Forbidden
  {
    if currentUser.role != RoleAdmin then Err(HttpError(Forbidden)) else Ok(currentUser)
  }

  // ---------------------------------------------------------------------------
  // Question update
  // ---------------------------------------------------------------------------

  /** The body of `PUT /admin/questions/{id}`: every field may be left out (`None`). */
  datatype QuestionUpdate = QuestionUpdate(
    text: Option<string>,
    questionType: Option<QuestionType>,
    category: Option<string>,
    order: Option<int>,
    isActive: Option<bool>,
    options: Option<seq<OptionData>>)

  /** The given value, or `current` when none is given. */
  function UpdatedField<T>(given: Option<T>, current: T): T {
    if given.Some? then given.value else current
  }

  /** The question after the update's scalar fields are assigned. */
  function ApplyUpdate(q: Question, u: QuestionUpdate): (r: Question)
    ensures r.id == q.id
  {
    q.(text := UpdatedField(u.text, q.text),
       questionType := UpdatedField(u.questionType, q.questionType),
       category := UpdatedField(u.category, q.category),
       order := UpdatedField(u.order, q.order),
       isActive := UpdatedField(u.isActive, q.isActive))
  }

  /** A field changes only when the update gives it a value, and then takes that value. */
  lemma ApplyUpdateFieldwise(q: Question, u: QuestionUpdate)
    ensures ApplyUpdate(q, u).text != q.text ==> u.text == Some(ApplyUpdate(q, u).text)
    ensures ApplyUpdate(q, u).questionType != q.questionType ==> u.questionType == Some(ApplyUpdate(q, u).questionType)
    ensures ApplyUpdate(q, u).category != q.category ==> u.category == Some(ApplyUpdate(q, u).category)
    ensures ApplyUpdate(q, u).order != q.order ==> u.order == Some(ApplyUpdate(q, u).order)
    ensures ApplyUpdate(q, u).isActive != q.isActive ==> u.isActive == Some(ApplyUpdate(q, u).isActive)
    ensures u.text.Some? ==> ApplyUpdate(q, u).text == u.text.value
    ensures u.questionType.Some? ==> ApplyUpdate(q, u).questionType == u.questionType.value
    ensures u.category.Some? ==> ApplyUpdate(q, u).category == u.category.value
    ensures u.order.Some? ==> ApplyUpdate(q, u).order == u.order.value
    ensures u.isActive.Some? ==> ApplyUpdate(q, u).isActive == u.isActive.value
  {
  }

  /** An update that gives nothing leaves the question as it was. */
  lemma EmptyUpdateKeepsQuestion(q: Question)
    ensures ApplyUpdate(q, QuestionUpdate(None, None, None, None, None, None)) == q
  {
  }

  /** Sending the same update twice has the effect of sending it once. */
  lemma ApplyUpdateIdempotent(q: Question, u: QuestionUpdate)
    ensures ApplyUpdate(ApplyUpdate(q, u), u) == ApplyUpdate(q, u)
  {
  }

  /** The options of question `questionId`, in table order. */
  function OptionsOf(os: seq<QuestionOption>, questionId: int): (r: seq<QuestionOption>)
    ensures forall k :: 0 <= k < |r| ==> r[k].questionId == questionId
  {
    if |os| == 0 then []
    else if os[0].questionId == questionId then [os[0]] + OptionsOf(os[1..], questionId)
    else OptionsOf(os[1..], questionId)
  }

  /** `filter(QuestionOption.question_id == id).delete()`: the options of every other question, in order. */
  function WithoutOptionsOf(os: seq<QuestionOption>, questionId: int): (r: seq<QuestionOption>)
    ensures forall k :: 0 <= k < |r| ==> r[k].questionId != questionId
  {
    if |os| == 0 then []
    else if os[0].questionId == questionId then WithoutOptionsOf(os[1..], questionId)
    else [os[0]] + WithoutOptionsOf(os[1..], questionId)
  }

  /** Removing rows keeps every remaining id below the counter. */
  lemma {:induction false} WithoutOptionsOfIdsBelow(os: seq<QuestionOption>, questionId: int, next: int)
    requires OptionIdsBelow(os, next)
    ensures OptionIdsBelow(WithoutOptionsOf(os, questionId), next)
  {
    if |os| > 0 {
      assert OptionIdsBelow(os[1..], next) by {
        forall i | 0 <= i < |os| - 1 ensures os[1..][i].id < next {
          assert os[1..][i] == os[i + 1];
        }
      }
      WithoutOptionsOfIdsBelow(os[1..], questionId, next);
    }
  }

  lemma {:induction false} OptionsOfAppend(a: seq<QuestionOption>, b: seq<QuestionOption>, questionId: int)
    ensures OptionsOf(a + b, questionId) == OptionsOf(a, questionId) + OptionsOf(b, questionId)
  {
    if |a| > 0 {
      OptionsOfAppend(a[1..], b, questionId);
      assert (a + b)[1..] == a[1..] + b;
    } else {
      assert a + b == b;
    }
  }

  /** Removing a question's options removes nothing of any other question. */
  lemma {:induction false} WithoutOptionsOfKeepsOthers(os: seq<QuestionOption>, questionId: int, other: int)
    requires other != questionId
    ensures OptionsOf(WithoutOptionsOf(os, questionId), other) == OptionsOf(os, other)
    ensures OptionsOf(WithoutOptionsOf(os, questionId), questionId) == []
  {
    if |os| > 0 {
      WithoutOptionsOfKeepsOthers(os[1..], questionId, other);
      if os[0].questionId != questionId {
        assert WithoutOptionsOf(os, questionId) == [os[0]] + WithoutOptionsOf(os[1..], questionId);
        assert ([os[0]] + WithoutOptionsOf(os[1..], questionId))[1..] == WithoutOptionsOf(os[1..], questionId);
      }
    }
  }

  /** Every new option row belongs to the question it was created under. */
  lemma {:induction false} NewOptionsAllOf(firstId: int, questionId: int, data: seq<OptionData>)
    ensures OptionsOf(NewOptions(firstId, questionId, data), questionId) == NewOptions(firstId, questionId, data)
    decreases |data|
  {
    if |data| > 0 {
      var os := NewOptions(firstId, questionId, data);
      NewOptionsAllOf(firstId + 1, questionId, data[1..]);
      assert os[1..] == NewOptions(firstId + 1, questionId, data[1..]);
    }
  }

  lemma {:induction false} NewOptionsNoneOf(firstId: int, questionId: int, data: seq<OptionData>, other: int)
    requires other != questionId
    ensures OptionsOf(NewOptions(firstId, questionId, data), other) == []
    decreases |data|
  {
    if |data| > 0 {
      var os := NewOptions(firstId, questionId, data);
      NewOptionsNoneOf(firstId + 1, questionId, data[1..], other);
      assert os[1..] == NewOptions(firstId + 1, questionId, data[1..]);
    }
  }

  /** The option table after an update that gives options: the question's old
      options are gone and the new ones are appended, numbered from `firstId`. */
  function ReplacedOptions(os: seq<QuestionOption>, questionId: int, firstId: int, data: seq<OptionData>): seq<QuestionOption> {
    WithoutOptionsOf(os, questionId) + NewOptions(firstId, questionId, data)
  }

  /** Replacing a question's options: that question has exactly the new options,
      and every other question keeps exactly the options it had. */
  lemma ReplacedOptionsSpec(os: seq<QuestionOption>, questionId: int, firstId: int, data: seq<OptionData>)
    ensures OptionsOf(ReplacedOptions(os, questionId, firstId, data), questionId) == NewOptions(firstId, questionId, data)
    ensures forall other :: other != questionId ==>
      OptionsOf(ReplacedOptions(os, questionId, firstId, data), other) == OptionsOf(os, other)
  {
    var kept := WithoutOptionsOf(os, questionId);
    var added := NewOptions(firstId, questionId, data);
    OptionsOfAppend(kept, added, questionId);
    WithoutOptionsOfKeepsOthers(os, questionId, questionId + 1);
    NewOptionsAllOf(firstId, questionId, data);
    forall other | other != questionId
      ensures OptionsOf(ReplacedOptions(os, questionId, firstId, data), other) == OptionsOf(os, other)
    {
      OptionsOfAppend(kept, added, other);
      WithoutOptionsOfKeepsOthers(os, questionId, other);
      NewOptionsNoneOf(firstId, questionId, data, other);
    }
  }

  /** `update_question`: 403 for a non-administrator, 404 for an unknown id;
      otherwise the first question with that id gets the given fields, and, only
      when options are given, its options are replaced by new rows. */
  method UpdateQuestion(db: Database, currentUser: User, questionId: int, update: QuestionUpdate)
    returns (r: Result<Question>)
    requires db.Valid()
    modifies db
    ensures db.Valid()
    ensures currentUser.role != RoleAdmin ==> r == Err(HttpError(Forbidden))
    ensures currentUser.role == RoleAdmin && QuestionIndex(old(db.questions), questionId).None? ==>
      r == Err(HttpError(NotFound))
    ensures r.Err? ==> db.questions == old(db.questions) && db.options == old(db.options)
    ensures r.Ok? <==> currentUser.role == RoleAdmin && QuestionIndex(old(db.questions), questionId).Some?
    ensures r.Ok? ==>
      var i := QuestionIndex(old(db.questions), questionId).value;
      r.value == ApplyUpdate(old(db.questions)[i], update) &&
      db.questions == old(db.questions)[i := r.value]
    ensures r.Ok? && update.options.None? ==> db.options == old(db.options)
    ensures r.Ok? && update.options.Some? ==>
      db.options == ReplacedOptions(old(db.options), questionId, old(db.nextOptionId), update.options.value)
    ensures db.users == old(db.users) && db.responses == old(db.responses) && db.results == old(db.results)
  {
    var gate := GetAdminUser(currentUser);
    if gate.Err? {
      return Err(gate.error);
    }
    var found := QuestionIndex(db.questions, questionId);
    if found.None? {
      return Err(HttpError(NotFound));
    }
    var i := found.value;
    var question := ApplyUpdate(db.questions[i], update);
    db.questions := db.questions[i := question];
    if update.options.Some? {
      WithoutOptionsOfIdsBelow(db.options, questionId, db.nextOptionId);
      db.options := WithoutOptionsOf(db.options, questionId);
      AddOptions(db, question.id, update.options.value);
    }
    r := Ok(question);
  }

  // ---------------------------------------------------------------------------
  // Question removal
  // ---------------------------------------------------------------------------

  /** The two messages of `delete_question`. */
  datatype DeleteOutcome = Deactivated(responseCount: nat) | Removed

  /** How many stored responses answer question `questionId`. */
  function ResponseCount(rs: seq<QuestionnaireResponse>, questionId: int): nat {
    if |rs| == 0 then 0
    else ResponseCount(rs[..|rs| - 1], questionId) + (if rs[|rs| - 1].questionId == questionId then 1 else 0)
  }

  /** The count is positive exactly when some stored response answers the question. */
  lemma {:induction false} ResponseCountPositive(rs: seq<QuestionnaireResponse>, questionId: int)
    ensures ResponseCount(rs, questionId) > 0 <==> exists k :: 0 <= k < |rs| && rs[k].questionId == questionId
  {
    if |rs| > 0 {
      var front := rs[..|rs| - 1];
      ResponseCountPositive(front, questionId);
      if ResponseCount(front, questionId) > 0 {
        var k :| 0 <= k < |front| && front[k].questionId == questionId;
        assert rs[k] == front[k];
      }
      if exists k :: 0 <= k < |rs| && rs[k].questionId == questionId {
        var k :| 0 <= k < |rs| && rs[k].questionId == questionId;
        if k < |rs| - 1 {
          assert front[k] == rs[k];
        }
      }
    }
  }

  /** `delete_question`: 403 for a non-administrator, 404 for an unknown id. A
      question some response answers is only deactivated and keeps its options;
      any other is removed together with its options. */
  method DeleteQuestion(db: Database, currentUser: User, questionId: int) returns (r: Result<DeleteOutcome>)
    requires db.Valid()
    modifies db
    ensures db.Valid()
    ensures currentUser.role != RoleAdmin ==> r == Err(HttpError(Forbidden))
    ensures currentUser.role == RoleAdmin && QuestionIndex(old(db.questions), questionId).None? ==>
      r == Err(HttpError(NotFound))
    ensures r.Err? ==> db.questions == old(db.questions) && db.options == old(db.options)
    ensures r.Ok? <==> currentUser.role == RoleAdmin && QuestionIndex(old(db.questions), questionId).Some?
    ensures r.Ok? && ResponseCount(old(db.responses), questionId) > 0 ==>
      var i := QuestionIndex(old(db.questions), questionId).value;
      r.value == Deactivated(ResponseCount(old(db.responses), questionId)) &&
      db.questions == old(db.questions)[i := old(db.questions)[i].(isActive := false)] &&
      db.options == old(db.options)
    ensures r.Ok? && ResponseCount(old(db.responses), questionId) == 0 ==>
      var i := QuestionIndex(old(db.questions), questionId).value;
      r.value == Removed &&
      db.questions == old(db.questions)[..i] + old(db.questions)[i + 1..] &&
      db.options == WithoutOptionsOf(old(db.options), questionId)
    ensures db.users == old(db.users) && db.responses == old(db.responses) && db.results == old(db.results)
  {
    var gate := GetAdminUser(currentUser);
    if gate.Err? {
      return Err(gate.error);
    }
    var found := QuestionIndex(db.questions, questionId);
    if found.None? {
      return Err(HttpError(NotFound));
    }
    var i := found.value;
    var count := ResponseCount(db.responses, questionId);
    if count > 0 {
      db.questions := db.questions[i := db.questions[i].(isActive := false)];
      r := Ok(Deactivated(count));
    } else {
      WithoutOptionsOfIdsBelow(db.options, questionId, db.nextOptionId);
      db.questions := db.questions[..i] + db.questions[i + 1..];
      db.options := WithoutOptionsOf(db.options, questionId);
      r := Ok(Removed);
    }
  }

  // ---------------------------------------------------------------------------
  // User status
  // ---------------------------------------------------------------------------

  /** The user table with the first user of that id switched between active and
      inactive, or `None` when there is no such user. */
  function ToggledUsers(users: seq<User>, userId: int): (r: Option<seq<User>>)
    ensures r.None? <==> UserIndex(users, userId).None?
  {
    match UserIndex(users, userId)
    case None => None
    case Some(i) => Some(users[i := users[i].(isActive := !users[i].isActive)])
  }

  /** Toggling changes only the target user's flag, and flips it. */
  lemma ToggleChangesOnlyTarget(users: seq<User>, userId: int)
    requires UserIndex(users, userId).Some?
    ensures var i := UserIndex(users, userId).value;
      var after := ToggledUsers(users, userId).value;
      |after| == |users| && after[i].isActive == !users[i].isActive &&
      after[i].(isActive := users[i].isActive) == users[i] &&
      forall j :: 0 <= j < |users| && j != i ==> after[j] == users[j]
  {
  }

  /** Toggling the same user twice restores the table. */
  lemma ToggleTwiceRestores(users: seq<User>, userId: int)
    requires UserIndex(users, userId).Some?
    ensures ToggledUsers(users, userId).Some?
    ensures ToggledUsers(ToggledUsers(users, userId).value, userId) == Some(users)
  {
    var i := UserIndex(users, userId).value;
    var once := ToggledUsers(users, userId).value;
    assert forall j :: 0 <= j < |once| ==> once[j].id == users[j].id;
    assert UserIndex(once, userId) == Some(i) by {
      FirstWithIdSameIds(users, once, (u: User) => u.id, userId);
    }
    assert once[i].(isActive := !once[i].isActive) == users[i];
    assert once[i := users[i]] == users;
  }

  /** Tables with the same ids, position by position, find the same first row. */
  lemma FirstWithIdSameIds<T>(a: seq<T>, b: seq<T>, idOf: T -> int, id: int)
    requires |a| == |b| && forall j :: 0 <= j < |a| ==> idOf(a[j]) == idOf(b[j])
    ensures FirstWithId(a, idOf, id) == FirstWithId(b, idOf, id)
  {
  }

  /** `toggle_user_status`: 403 for a non-administrator, 404 for an unknown id;
      otherwise the user's `is_active` is negated and the updated user returned. */
  method ToggleUserStatus(db: Database, currentUser: User, userId: int) returns (r: Result<User>)
    requires db.Valid()
    modifies db
    ensures db.Valid()
    ensures currentUser.role != RoleAdmin ==> r == Err(HttpError(Forbidden))
    ensures currentUser.role == RoleAdmin && UserIndex(old(db.users), userId).None? ==> r == Err(HttpError(NotFound))
    ensures r.Err? ==> db.users == old(db.users)
    ensures r.Ok? <==> currentUser.role == RoleAdmin && UserIndex(old(db.users), userId).Some?
    ensures r.Ok? ==> ToggledUsers(old(db.users), userId) == Some(db.users)
    ensures r.Ok? ==> r.value == db.users[UserIndex(old(db.users), userId).value]
    ensures db.questions == old(db.questions) && db.options == old(db.options)
    ensures db.responses == old(db.responses) && db.results == old(db.results)
  {
    var gate := GetAdminUser(currentUser);
    if gate.Err? {
      return Err(gate.error);
    }
    var found := UserIndex(db.users, userId);
    if found.None? {
      return Err(HttpError(NotFound));
    }
    var i := found.value;
    var user := db.users[i].(isActive := !db.users[i].isActive);
    db.users := db.users[i := user];
    r := Ok(user);
  }

  // ---------------------------------------------------------------------------
  // Analytics
  // ---------------------------------------------------------------------------

  /** The query parameters of `GET /admin/responses`; dates are the database clock, in seconds. */
  datatype AnalyticsFilter = AnalyticsFilter(startDate: Option<int>, endDate: Option<int>, course: Option<string>)

  /** The filters the handler applies: a date bound when given, and the course when
      given and non-empty (an empty string is falsy, so it filters nothing). */
  predicate Passes(f: AnalyticsFilter, r: RecommendationResult) {
    (f.startDate.Some? ==> r.createdAt >= f.startDate.value) &&
    (f.endDate.Some? ==> r.createdAt <= f.endDate.value) &&
    (f.course.Some? && f.course.value != "" ==> r.recommendedCourse == f.course.value)
  }

  /** `query.all()` after the filters, in table order. */
  function Filtered(results: seq<RecommendationResult>, f: AnalyticsFilter): (r: seq<RecommendationResult>)
    ensures |r| <= |results|
    ensures forall i :: 0 <= i < |r| ==> Passes(f, r[i])
  {
    if |results| == 0 then []
    else if Passes(f, results[0]) then [results[0]] + Filtered(results[1..], f)
    else Filtered(results[1..], f)
  }

  /** The filtered results are exactly the stored results that pass every given filter. */
  lemma {:induction false} FilteredMembers(results: seq<RecommendationResult>, f: AnalyticsFilter)
    ensures forall r :: r in Filtered(results, f) <==> r in results && Passes(f, r)
  {
    if |results| > 0 {
      FilteredMembers(results[1..], f);
      assert results == [results[0]] + results[1..];
    }
  }

  /** `course_distribution`: course name to count, keys in first-occurrence order. */
  type Distribution = seq<(string, nat)>

  /** `dist.get(course, 0)`. */
  function CountIn(dist: Distribution, course: string): nat {
    if |dist| == 0 then 0
    else if dist[0].0 == course then dist[0].1
    else CountIn(dist[1..], course)
  }

  predicate HasKey(dist: Distribution, course: string) {
    exists k :: 0 <= k < |dist| && dist[k].0 == course
  }

  predicate DistinctKeys(dist: Distribution) {
    forall i, j :: 0 <= i < j < |dist| ==> dist[i].0 != dist[j].0
  }

  /** `dist[course] = dist.get(course, 0) + 1`: an existing key keeps its place, a new one goes last. */
  function Increment(dist: Distribution, course: string): Distribution {
    if |dist| == 0 then [(course, 1)]
    else if dist[0].0 == course then [(course, dist[0].1 + 1)] + dist[1..]
    else [dist[0]] + Increment(dist[1..], course)
  }

  /** The sum of all counts. */
  function CountTotal(dist: Distribution): nat {
    if |dist| == 0 then 0 else dist[0].1 + CountTotal(dist[1..])
  }

  /** The rest of a distribution with distinct keys has distinct keys and lacks its first key. */
  lemma TailOfDistinct(dist: Distribution)
    requires |dist| > 0 && DistinctKeys(dist)
    ensures DistinctKeys(dist[1..]) && !HasKey(dist[1..], dist[0].0)
  {
    var rest := dist[1..];
    forall i, j | 0 <= i < j < |rest| ensures rest[i].0 != rest[j].0 {
      assert rest[i] == dist[i + 1] && rest[j] == dist[j + 1];
    }
    forall k | 0 <= k < |rest| ensures rest[k].0 != dist[0].0 {
      assert rest[k] == dist[k + 1];
    }
  }

  /** Incrementing adds one to `course`'s count and to no other. */
  lemma {:induction false} IncrementCount(dist: Distribution, course: string, c: string)
    requires DistinctKeys(dist)
    ensures CountIn(Increment(dist, course), c) == CountIn(dist, c) + (if c == course then 1 else 0)
  {
    if |dist| > 0 {
      TailOfDistinct(dist);
      if dist[0].0 == course {
        if c == course {
          assert Increment(dist, course)[0] == (course, dist[0].1 + 1);
        } else {
          assert Increment(dist, course)[1..] == dist[1..];
        }
      } else {
        IncrementCount(dist[1..], course, c);
        assert Increment(dist, course)[1..] == Increment(dist[1..], course);
      }
    }
  }

  /** Incrementing adds `course` as a key and no other. */
  lemma {:induction false} IncrementKeys(dist: Distribution, course: string, c: string)
    ensures HasKey(Increment(dist, course), c) <==> HasKey(dist, c) || c == course
  {
    var after := Increment(dist, course);
    if |dist| == 0 {
      assert after[0].0 == course;
    } else if dist[0].0 == course {
      assert |after| == |dist| && forall k :: 0 <= k < |dist| ==> after[k].0 == dist[k].0;
    } else {
      var rest := dist[1..];
      var inc := Increment(rest, course);
      IncrementKeys(rest, course, c);
      assert after == [dist[0]] + inc;
      assert after[0] == dist[0];
      if HasKey(dist, c) && c != dist[0].0 {
        var k :| 0 <= k < |dist| && dist[k].0 == c;
        assert rest[k - 1].0 == c;
      }
      if HasKey(rest, c) {
        var k :| 0 <= k < |rest| && rest[k].0 == c;
        assert dist[k + 1].0 == c;
      }
      if HasKey(after, c) && c != dist[0].0 {
        var k :| 0 <= k < |after| && after[k].0 == c;
        assert inc[k - 1].0 == c;
      }
      if HasKey(inc, c) {
        var k :| 0 <= k < |inc| && inc[k].0 == c;
        assert after[k + 1].0 == c;
      }
    }
  }

  /** Incrementing keeps keys distinct. */
  lemma {:induction false} IncrementDistinct(dist: Distribution, course: string)
    requires DistinctKeys(dist)
    ensures DistinctKeys(Increment(dist, course))
  {
    if |dist| > 0 {
      TailOfDistinct(dist);
      var after := Increment(dist, course);
      if dist[0].0 == course {
        forall i, j | 0 <= i < j < |after| ensures after[i].0 != after[j].0 {
          assert after[j] == dist[j];
          if i > 0 {
            assert after[i] == dist[i];
          }
        }
      } else {
        var inc := Increment(dist[1..], course);
        IncrementDistinct(dist[1..], course);
        IncrementKeys(dist[1..], course, dist[0].0);
        assert after == [dist[0]] + inc;
        forall i, j | 0 <= i < j < |after| ensures after[i].0 != after[j].0 {
          assert after[j] == inc[j - 1];
          if i > 0 {
            assert after[i] == inc[i - 1];
          } else {
            assert HasKey(inc, inc[j - 1].0);
          }
        }
      }
    }
  }

  /** Incrementing adds one to the total. */
  lemma {:induction false} IncrementTotal(dist: Distribution, course: string)
    ensures CountTotal(Increment(dist, course)) == CountTotal(dist) + 1
  {
    if |dist| > 0 {
      if dist[0].0 == course {
        assert Increment(dist, course)[1..] == dist[1..];
      } else {
        IncrementTotal(dist[1..], course);
        assert Increment(dist, course)[1..] == Increment(dist[1..], course);
      }
    }
  }

  /** The distribution of a sequence of results, folded from the left as the loop does. */
  function DistributionOf(rs: seq<RecommendationResult>): Distribution {
    if |rs| == 0 then [] else Increment(DistributionOf(rs[..|rs| - 1]), rs[|rs| - 1].recommendedCourse)
  }

  /** How many results recommend `course`. */
  function Recommending(rs: seq<RecommendationResult>, course: string): nat {
    if |rs| == 0 then 0
    else Recommending(rs[..|rs| - 1], course) + (if rs[|rs| - 1].recommendedCourse == course then 1 else 0)
  }

  predicate Recommended(rs: seq<RecommendationResult>, course: string) {
    exists k :: 0 <= k < |rs| && rs[k].recommendedCourse == course
  }

  /** Each course's count is the number of results recommending it, the keys are
      exactly the courses that occur, each once, and the counts add up to the
      number of results. */
  lemma {:induction false} DistributionSpec(rs: seq<RecommendationResult>)
    ensures DistinctKeys(DistributionOf(rs))
    ensures forall c :: CountIn(DistributionOf(rs), c) == Recommending(rs, c)
    ensures forall c :: HasKey(DistributionOf(rs), c) <==> Recommended(rs, c)
    ensures CountTotal(DistributionOf(rs)) == |rs|
  {
    if |rs| > 0 {
      var front := rs[..|rs| - 1];
      var last := rs[|rs| - 1].recommendedCourse;
      DistributionSpec(front);
      IncrementDistinct(DistributionOf(front), last);
      IncrementTotal(DistributionOf(front), last);
      forall c ensures CountIn(DistributionOf(rs), c) == Recommending(rs, c) {
        IncrementCount(DistributionOf(front), last, c);
      }
      forall c ensures HasKey(DistributionOf(rs), c) <==> Recommended(rs, c) {
        IncrementKeys(DistributionOf(front), last, c);
        if Recommended(front, c) {
          var k :| 0 <= k < |front| && front[k].recommendedCourse == c;
          assert rs[k] == front[k];
        }
        if Recommended(rs, c) && c != last {
          var k :| 0 <= k < |rs| && rs[k].recommendedCourse == c;
          assert front[k] == rs[k];
        }
      }
    }
  }

  /** `sum(r.confidence_score for r in rs)`. */
  function TotalConfidence(rs: seq<RecommendationResult>): real {
    if |rs| == 0 then 0.0 else TotalConfidence(rs[..|rs| - 1]) + rs[|rs| - 1].confidenceScore
  }

  /** `sum(r.processing_time_ms for r in rs)`. */
  function TotalProcessingTime(rs: seq<RecommendationResult>): int {
    if |rs| == 0 then 0 else TotalProcessingTime(rs[..|rs| - 1]) + rs[|rs| - 1].processingTimeMs
  }

  /** One entry of the `results` list of the response. */
  datatype ResultSummary = ResultSummary(id: int, sessionId: string, recommendedCourse: string,
                                         confidenceScore: real, createdAt: int)

  /** The response body; `results` is absent (`None`) in the empty-set answer. */
  datatype Analytics = Analytics(
    totalResults: nat,
    courseDistribution: Distribution,
    averageConfidence: real,
    averageProcessingTime: real,
    results: Option<seq<ResultSummary>>)

  function Summary(r: RecommendationResult): ResultSummary {
    ResultSummary(r.id, r.sessionId, r.recommendedCourse, r.confidenceScore, r.createdAt)
  }

  /** The answer of `get_responses_analytics` for the filtered results `rs`. */
  function AnalyticsOf(rs: seq<RecommendationResult>): (a: Analytics)
    ensures a.totalResults == |rs|
    ensures |rs| == 0 ==> a == Analytics(0, [], 0.0, 0.0, None)
    ensures |rs| > 0 ==> a.averageConfidence * (|rs| as real) == TotalConfidence(rs)
    ensures |rs| > 0 ==> a.averageProcessingTime * (|rs| as real) == TotalProcessingTime(rs) as real
    ensures |rs| > 0 ==> a.courseDistribution == DistributionOf(rs)
    ensures |rs| > 0 ==> a.results.Some? && |a.results.value| == |rs|
    ensures |rs| > 0 ==> forall k :: 0 <= k < |rs| ==>
      a.results.value[k].id == rs[k].id && a.results.value[k].sessionId == rs[k].sessionId &&
      a.results.value[k].recommendedCourse == rs[k].recommendedCourse &&
      a.results.value[k].confidenceScore == rs[k].confidenceScore && a.results.value[k].createdAt == rs[k].createdAt
  {
    if |rs| == 0 then Analytics(0, [], 0.0, 0.0, None)
    else
      var n := |rs| as real;
      Analytics(|rs|, DistributionOf(rs), TotalConfidence(rs) / n, TotalProcessingTime(rs) as real / n,
        Some(seq(|rs|, k requires 0 <= k < |rs| => Summary(rs[k]))))
  }

  /** The aggregation loop: the distribution and the two running totals over `rs`. */
  method Aggregate(rs: seq<RecommendationResult>) returns (dist: Distribution, confidence: real, time: int)
    ensures dist == DistributionOf(rs)
    ensures confidence == TotalConfidence(rs) && time == TotalProcessingTime(rs)
  {
    dist, confidence, time := [], 0.0, 0;
    var i := 0;
    while i < |rs|
      invariant 0 <= i <= |rs|
      invariant dist == DistributionOf(rs[..i])
      invariant confidence == TotalConfidence(rs[..i]) && time == TotalProcessingTime(rs[..i])
    {
      assert rs[..i + 1][..i] == rs[..i];
      dist := Increment(dist, rs[i].recommendedCourse);
      confidence := confidence + rs[i].confidenceScore;
      time := time + rs[i].processingTimeMs;
      i := i + 1;
    }
    assert rs[..i] == rs;
  }

  /** `get_responses_analytics`: 403 for a non-administrator; otherwise the
      aggregate of the results that pass the filters. */
  method GetResponsesAnalytics(db: Database, currentUser: User, f: AnalyticsFilter) returns (r: Result<Analytics>)
    ensures currentUser.role != RoleAdmin ==> r == Err(HttpError(Forbidden))
    ensures currentUser.role == RoleAdmin ==> r == Ok(AnalyticsOf(Filtered(db.results, f)))
  {
    var gate := GetAdminUser(currentUser);
    if gate.Err? {
      return Err(gate.error);
    }
    var results := Filtered(db.results, f);
    if |results| == 0 {
      return Ok(Analytics(0, [], 0.0, 0.0, None));
    }
    var dist, confidence, time := Aggregate(results);
    var n := |results| as real;
    var summaries := seq(|results|, k requires 0 <= k < |results| => Summary(results[k]));
    r := Ok(Analytics(|results|, dist, confidence / n, time as real / n, Some(summaries)));
  }
}
