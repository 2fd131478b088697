/** The questionnaire endpoints: the list of active questions (seeding the sample
    questions into an empty table), the submission of a session's answers with
    the stored recommendation, and the lookup of a stored result. */
module Questionnaire {
  import opened Common
  import opened Scoring
  import opened ScoringProperties
  import opened Records

  // ---------------------------------------------------------------------------
  // Active questions
  // ---------------------------------------------------------------------------

  /** `filter(Question.is_active == True)`, keeping the table's order. */
  function ActiveOnly(qs: seq<Question>): (r: seq<Question>)
    ensures forall i :: 0 <= i < |r| ==> r[i].isActive
  {
    if |qs| == 0 then []
    else if qs[0].isActive then [qs[0]] + ActiveOnly(qs[1..])
    else ActiveOnly(qs[1..])
  }

  predicate SortedByOrder(qs: seq<Question>) {
    forall i, j :: 0 <= i < j < |qs| ==> qs[i].order <= qs[j].order
  }

  /** `q` placed into `sorted` before the first question whose order is not smaller. */
  function InsertByOrder(q: Question, sorted: seq<Question>): seq<Question> {
    if |sorted| == 0 then [q]
    else if q.order <= sorted[0].order then [q] + sorted
    else [sorted[0]] + InsertByOrder(q, sorted[1..])
  }

  /** `order_by(Question.order)`: an insertion sort that puts each question before
      the later ones of equal order, so questions with equal order keep their table order. */
  function SortByOrder(qs: seq<Question>): seq<Question> {
    if |qs| == 0 then [] else InsertByOrder(qs[0], SortByOrder(qs[1..]))
  }

  /** The rows `get_active_questions` returns. */
  function ActiveQuestions(qs: seq<Question>): seq<Question> {
    SortByOrder(ActiveOnly(qs))
  }

  lemma {:induction false} ActiveOnlyMembers(qs: seq<Question>)
    ensures forall q :: multiset(ActiveOnly(qs))[q] == if q.isActive then multiset(qs)[q] else 0
    ensures forall q :: q in qs && q.isActive ==> q in ActiveOnly(qs)
  {
    if |qs| > 0 {
      var rest := qs[1..];
      ActiveOnlyMembers(rest);
      assert qs == [qs[0]] + rest;
      assert multiset(qs) == multiset{qs[0]} + multiset(rest);
      if qs[0].isActive {
        assert ActiveOnly(qs) == [qs[0]] + ActiveOnly(rest);
        assert multiset(ActiveOnly(qs)) == multiset{qs[0]} + multiset(ActiveOnly(rest));
      } else {
        assert ActiveOnly(qs) == ActiveOnly(rest);
      }
      forall q | q in qs && q.isActive ensures q in ActiveOnly(qs) {
        if q != qs[0] {
          assert q in rest;
        }
      }
    }
  }

  /** Every order in `s` is at least `lo`. */
  predicate OrdersAtLeast(s: seq<Question>, lo: int) {
    forall i :: 0 <= i < |s| ==> lo <= s[i].order
  }

  lemma {:induction false} InsertByOrderBound(q: Question, s: seq<Question>, lo: int)
    requires OrdersAtLeast(s, lo) && lo <= q.order
    ensures OrdersAtLeast(InsertByOrder(q, s), lo)
  {
    if |s| > 0 && q.order > s[0].order {
      InsertByOrderBound(q, s[1..], lo);
    }
  }

  lemma {:induction false} InsertByOrderElements(q: Question, s: seq<Question>)
    ensures |InsertByOrder(q, s)| == |s| + 1
    ensures multiset(InsertByOrder(q, s)) == multiset(s) + multiset{q}
  {
    if |s| > 0 && q.order > s[0].order {
      InsertByOrderElements(q, s[1..]);
      assert s == [s[0]] + s[1..];
    }
  }

  lemma {:induction false} InsertByOrderSorted(q: Question, sorted: seq<Question>)
    requires SortedByOrder(sorted)
    ensures SortedByOrder(InsertByOrder(q, sorted))
  {
    if |sorted| == 0 {
    } else if q.order <= sorted[0].order {
      var all := [q] + sorted;
      forall i, j | 0 <= i < j < |all| ensures all[i].order <= all[j].order {
        assert all[j] == sorted[j - 1];
        if i > 0 {
          assert all[i] == sorted[i - 1];
        }
      }
    } else {
      var rest := sorted[1..];
      InsertByOrderSorted(q, rest);
      assert OrdersAtLeast(rest, sorted[0].order) by {
        forall i | 0 <= i < |rest| ensures sorted[0].order <= rest[i].order {
          assert rest[i] == sorted[i + 1];
        }
      }
      InsertByOrderBound(q, rest, sorted[0].order);
      var ins := InsertByOrder(q, rest);
      var all := [sorted[0]] + ins;
      forall i, j | 0 <= i < j < |all| ensures all[i].order <= all[j].order {
        assert all[j] == ins[j - 1];
        if i > 0 {
          assert all[i] == ins[i - 1];
        }
      }
    }
  }

  lemma {:induction false} SortByOrderSorted(qs: seq<Question>)
    ensures SortedByOrder(SortByOrder(qs))
  {
    if |qs| > 0 {
      SortByOrderSorted(qs[1..]);
      InsertByOrderSorted(qs[0], SortByOrder(qs[1..]));
    }
  }

  lemma {:induction false} SortByOrderElements(qs: seq<Question>)
    ensures multiset(SortByOrder(qs)) == multiset(qs)
  {
    if |qs| > 0 {
      SortByOrderElements(qs[1..]);
      InsertByOrderElements(qs[0], SortByOrder(qs[1..]));
      assert qs == [qs[0]] + qs[1..];
    }
  }

  /** `[q]` when `q` has order `n`, otherwise nothing. */
  function WithOrderOne(q: Question, n: int): seq<Question> {
    if q.order == n then [q] else []
  }

  /** The questions of `qs` whose order is `n`, in sequence order. */
  function WithOrder(qs: seq<Question>, n: int): seq<Question> {
    if |qs| == 0 then [] else WithOrderOne(qs[0], n) + WithOrder(qs[1..], n)
  }

  lemma WithOrderCons(q: Question, rest: seq<Question>, n: int)
    ensures WithOrder([q] + rest, n) == WithOrderOne(q, n) + WithOrder(rest, n)
  {
    assert ([q] + rest)[1..] == rest;
  }

  lemma {:induction false} InsertByOrderTies(q: Question, s: seq<Question>, n: int)
    ensures WithOrder(InsertByOrder(q, s), n) == WithOrderOne(q, n) + WithOrder(s, n)
  {
    if |s| == 0 {
    } else if q.order <= s[0].order {
      WithOrderCons(q, s, n);
    } else {
      InsertByOrderTies(q, s[1..], n);
      WithOrderCons(s[0], InsertByOrder(q, s[1..]), n);
      WithOrderCons(s[0], s[1..], n);
      assert [s[0]] + s[1..] == s;
      if q.order == n {
        assert WithOrderOne(s[0], n) == [];
      } else {
        assert WithOrderOne(q, n) == [];
      }
    }
  }

  /** The sort is stable: the questions of any one order come out in table order. */
  lemma {:induction false} SortByOrderStable(qs: seq<Question>, n: int)
    ensures WithOrder(SortByOrder(qs), n) == WithOrder(qs, n)
  {
    if |qs| > 0 {
      SortByOrderStable(qs[1..], n);
      InsertByOrderTies(qs[0], SortByOrder(qs[1..]), n);
    }
  }

  /** `get_active_questions` lists exactly the active questions, each as often as
      it is stored, sorted by `order`. */
  lemma ActiveQuestionsSpec(qs: seq<Question>)
    ensures SortedByOrder(ActiveQuestions(qs))
    ensures multiset(ActiveQuestions(qs)) == multiset(ActiveOnly(qs))
    ensures forall q :: multiset(ActiveQuestions(qs))[q] == if q.isActive then multiset(qs)[q] else 0
    ensures forall q :: q in ActiveQuestions(qs) <==> q in qs && q.isActive
  {
    SortByOrderSorted(ActiveOnly(qs));
    SortByOrderElements(ActiveOnly(qs));
    ActiveOnlyMembers(qs);
    forall q ensures q in ActiveQuestions(qs) <==> q in qs && q.isActive {
      assert q in ActiveQuestions(qs) <==> q in multiset(ActiveQuestions(qs));
      assert q in ActiveOnly(qs) <==> q in multiset(ActiveOnly(qs));
      assert q in qs <==> q in multiset(qs);
      if q in ActiveOnly(qs) {
        var k :| 0 <= k < |ActiveOnly(qs)| && ActiveOnly(qs)[k] == q;
      }
    }
  }

  // ---------------------------------------------------------------------------
  // Sample questions
  // ---------------------------------------------------------------------------

  datatype SampleQuestion = SampleQuestion(
    text: string,
    questionType: QuestionType,
    category: string,
    order: int,
    options: seq<OptionData>)

  const FirstSampleText: string := "Qual área de conhecimento mais desperta seu interesse?"
  const SecondSampleText: string := "Como você prefere trabalhar?"
  const ThirdSampleText: string := "Qual ambiente de trabalho você prefere?"

  /** The three demonstration questions and their options. */
  const SampleQuestions: seq<SampleQuestion> := [
    SampleQuestion(FirstSampleText, MultipleChoice,
      "Interesse Acadêmico", 1, [
        OptionData("Tecnologia e Computação", "tech", 1, 10.0, 2.0, 3.0, 4.0, 1.0),
        OptionData("Ciências da Saúde", "health", 2, 2.0, 10.0, 1.0, 3.0, 4.0),
        OptionData("Gestão e Negócios", "business", 3, 3.0, 2.0, 8.0, 10.0, 2.0),
        OptionData("Arte e Beleza", "beauty", 4, 1.0, 3.0, 2.0, 2.0, 10.0),
        OptionData("Logística e Operações", "logistics", 5, 4.0, 1.0, 10.0, 6.0, 1.0)]),
    SampleQuestion(SecondSampleText, MultipleChoice,
      "Estilo de Trabalho", 2, [
        OptionData("Sozinho, focado em projetos técnicos", "solo_tech", 1, 9.0, 3.0, 4.0, 2.0, 5.0),
        OptionData("Em equipe, cuidando de pessoas", "team_care", 2, 3.0, 9.0, 5.0, 7.0, 8.0),
        OptionData("Coordenando processos e pessoas", "coordination", 3, 4.0, 5.0, 9.0, 9.0, 3.0),
        OptionData("Criando e transformando", "creative", 4, 5.0, 4.0, 2.0, 3.0, 9.0)]),
    SampleQuestion(ThirdSampleText, MultipleChoice,
      "Ambiente de Trabalho", 3, [
        OptionData("Escritório com computadores", "office_tech", 1, 9.0, 2.0, 6.0, 8.0, 3.0),
        OptionData("Hospital ou clínica", "healthcare", 2, 1.0, 10.0, 1.0, 2.0, 3.0),
        OptionData("Armazém ou centro de distribuição", "warehouse", 3, 3.0, 2.0, 10.0, 4.0, 1.0),
        OptionData("Salão de beleza ou spa", "salon", 4, 1.0, 3.0, 1.0, 2.0, 10.0)])
  ]

  /** Some stored question has this text. */
  predicate HasText(qs: seq<Question>, text: string) {
    exists i :: 0 <= i < |qs| && qs[i].text == text
  }

  /** How many stored questions have this text. */
  function TextCount(qs: seq<Question>, text: string): nat {
    if |qs| == 0 then 0
    else TextCount(qs[..|qs| - 1], text) + (if qs[|qs| - 1].text == text then 1 else 0)
  }

  lemma {:induction false} TextCountPositive(qs: seq<Question>, text: string)
    ensures TextCount(qs, text) > 0 <==> HasText(qs, text)
  {
    if |qs| > 0 {
      var front := qs[..|qs| - 1];
      TextCountPositive(front, text);
      if HasText(qs, text) && qs[|qs| - 1].text != text {
        var i :| 0 <= i < |qs| && qs[i].text == text;
        assert front[i].text == text;
      }
      if HasText(front, text) {
        var i :| 0 <= i < |front| && front[i].text == text;
        assert qs[i].text == text;
      }
    }
  }

  /** A sample whose text is already stored adds nothing; the others each add their text once. */
  function SeededCount(before: seq<Question>, done: nat, text: string): nat
    requires done <= |SampleQuestions|
  {
    if TextCount(before, text) == 0 && exists j :: 0 <= j < done && SampleQuestions[j].text == text
    then 1
    else TextCount(before, text)
  }

  /** A new question row built from a sample. */
  function SampleRow(id: int, s: SampleQuestion): Question {
    Question(id, s.text, s.questionType, s.category, s.order, true)
  }

  lemma SampleTextsDistinct()
    ensures forall i, j :: 0 <= i < j < |SampleQuestions| ==> SampleQuestions[i].text != SampleQuestions[j].text
  {
    assert |FirstSampleText| != |SecondSampleText| && |SecondSampleText| != |ThirdSampleText|;
    assert |FirstSampleText| != |ThirdSampleText|;
  }

  /** The first sample in `samples` with this text, if any. */
  function SampleNamed(samples: seq<SampleQuestion>, text: string): (r: Option<SampleQuestion>)
    ensures r.Some? ==> r.value in samples && r.value.text == text
    ensures r.None? <==> forall j :: 0 <= j < |samples| ==> samples[j].text != text
  {
    if |samples| == 0 then None
    else if samples[0].text == text then Some(samples[0])
    else SampleNamed(samples[1..], text)
  }

  /** Among samples with distinct texts, a sample's text names that sample. */
  lemma {:induction false} SampleNamedAt(samples: seq<SampleQuestion>, i: nat)
    requires i < |samples|
    requires forall a, b :: 0 <= a < b < |samples| ==> samples[a].text != samples[b].text
    ensures SampleNamed(samples, samples[i].text) == Some(samples[i])
  {
    if i > 0 {
      var rest := samples[1..];
      assert samples[0].text != samples[i].text;
      assert rest[i - 1] == samples[i];
      forall a, b | 0 <= a < b < |rest| ensures rest[a].text != rest[b].text {
        assert rest[a] == samples[a + 1] && rest[b] == samples[b + 1];
      }
      SampleNamedAt(rest, i - 1);
    }
  }

  /** A question row that seeding added: the row of the sample with its text. */
  predicate IsSampleRow(q: Question) {
    SampleNamed(SampleQuestions, q.text).Some? && q == SampleRow(q.id, SampleNamed(SampleQuestions, q.text).value)
  }

  /** The options seeding adds with question row `q`: those of the sample with its text. */
  function SampleOptionData(q: Question): seq<OptionData> {
    match SampleNamed(SampleQuestions, q.text)
    case Some(s) => s.options
    case None => []
  }

  /** The option rows added with the question rows `added`, in order, numbered from
      `firstId`: row `q` comes with the options `dataOf(q)`. */
  function SeedOptions(added: seq<Question>, dataOf: Question -> seq<OptionData>, firstId: int): seq<QuestionOption> {
    if |added| == 0 then []
    else
      var front := SeedOptions(added[..|added| - 1], dataOf, firstId);
      front + NewOptions(firstId + |front|, added[|added| - 1].id, dataOf(added[|added| - 1]))
  }

  /** `create_sample_questions`: each sample whose text no stored question has is
      added, active, with its options; a sample whose text exists is skipped. */
  method CreateSampleQuestions(db: Database)
    requires db.Valid()
    modifies db
    ensures db.Valid()
    ensures SeedProgress(old(db.questions), old(db.options), old(db.nextQuestionId), old(db.nextOptionId),
      db.questions, db.options, |SampleQuestions|)
    ensures db.users == old(db.users) && db.responses == old(db.responses) && db.results == old(db.results)
  {
    var i := 0;
    while i < |SampleQuestions|
      invariant 0 <= i <= |SampleQuestions|
      invariant db.Valid()
      invariant db.nextQuestionId >= old(db.nextQuestionId)
      invariant db.nextOptionId == old(db.nextOptionId) + |db.options| - |old(db.options)|
      invariant SeedProgress(old(db.questions), old(db.options), old(db.nextQuestionId), old(db.nextOptionId),
        db.questions, db.options, i)
      invariant db.users == old(db.users) && db.responses == old(db.responses) && db.results == old(db.results)
    {
      ghost var questionsBefore, optionsBefore, idBefore := db.questions, db.options, db.nextQuestionId;
      ghost var optionIdBefore := db.nextOptionId;
      SeedSample(db, i);
      SeedStep(old(db.questions), old(db.options), old(db.nextQuestionId), old(db.nextOptionId),
        questionsBefore, optionsBefore, idBefore, optionIdBefore, db.questions, db.options, i);
      i := i + 1;
    }
  }

  /** What the first `done` turns of `create_sample_questions` have achieved, from
      tables `q0` and `o0` and next ids `next0` (questions) and `optionNext0` (options),
      up to tables `qs` and `os`: the rows added are sample rows with their options
      (`SeedRows`), the texts are counted as seeded (`SeedTexts`), and nothing is
      added when every sample text was stored to begin with. */
  ghost predicate SeedProgress(q0: seq<Question>, o0: seq<QuestionOption>, next0: int, optionNext0: int,
                               qs: seq<Question>, os: seq<QuestionOption>, done: nat)
    requires done <= |SampleQuestions|
  {
    SeedRows(q0, o0, next0, optionNext0, qs, os) && SeedTexts(q0, qs, done) &&
    ((forall j :: 0 <= j < |SampleQuestions| ==> HasText(q0, SampleQuestions[j].text)) ==> qs == q0 && os == o0)
  }

  /** The tables extend `q0` and `o0`; each added question row is the row of the
      sample with its text, under a fresh id, and the added options are exactly
      those samples' options under the new question ids, in order. */
  ghost predicate SeedRows(q0: seq<Question>, o0: seq<QuestionOption>, next0: int, optionNext0: int,
                           qs: seq<Question>, os: seq<QuestionOption>)
  {
    |qs| >= |q0| && qs[..|q0|] == q0 &&
    os == o0 + SeedOptions(qs[|q0|..], SampleOptionData, optionNext0) &&
    (forall k :: |q0| <= k < |qs| ==> qs[k].id >= next0 && IsSampleRow(qs[k]))
  }

  /** The first `done` sample texts are stored, each text as often as `SeededCount` says. */
  ghost predicate SeedTexts(q0: seq<Question>, qs: seq<Question>, done: nat)
    requires done <= |SampleQuestions|
  {
    (forall j :: 0 <= j < done ==> HasText(qs, SampleQuestions[j].text)) &&
    (forall t :: TextCount(qs, t) == SeededCount(q0, done, t))
  }

  /** One turn, as `SeedSample` states it, keeps `SeedProgress` for one more sample. */
  lemma SeedStep(q0: seq<Question>, o0: seq<QuestionOption>, next0: int, optionNext0: int,
                 qs: seq<Question>, os: seq<QuestionOption>, nextId: int, nextOptionId: int,
                 qs': seq<Question>, os': seq<QuestionOption>, i: nat)
    requires i < |SampleQuestions| && nextId >= next0
    requires SeedProgress(q0, o0, next0, optionNext0, qs, os, i)
    requires nextOptionId == optionNext0 + |os| - |o0|
    requires HasText(qs, SampleQuestions[i].text) ==> qs' == qs && os' == os
    requires !HasText(qs, SampleQuestions[i].text) ==>
      qs' == qs + [SampleRow(nextId, SampleQuestions[i])] &&
      os' == os + NewOptions(nextOptionId, nextId, SampleQuestions[i].options)
    ensures SeedProgress(q0, o0, next0, optionNext0, qs', os', i + 1)
  {
    if HasText(qs, SampleQuestions[i].text) {
      SkippedSampleCount(q0, qs, i);
    } else {
      SeedAddStep(q0, o0, next0, optionNext0, qs, os, nextId, nextOptionId, i);
    }
  }

  /** The turn that adds sample `i` keeps `SeedProgress` for one more sample. */
  lemma SeedAddStep(q0: seq<Question>, o0: seq<QuestionOption>, next0: int, optionNext0: int,
                    qs: seq<Question>, os: seq<QuestionOption>, nextId: int, nextOptionId: int, i: nat)
    requires i < |SampleQuestions| && nextId >= next0
    requires SeedProgress(q0, o0, next0, optionNext0, qs, os, i)
    requires nextOptionId == optionNext0 + |os| - |o0|
    requires !HasText(qs, SampleQuestions[i].text)
    ensures SeedProgress(q0, o0, next0, optionNext0, qs + [SampleRow(nextId, SampleQuestions[i])],
      os + NewOptions(nextOptionId, nextId, SampleQuestions[i].options), i + 1)
  {
    SeedAddTexts(q0, qs, nextId, i);
    SeedAddRows(q0, o0, next0, optionNext0, qs, os, nextId, nextOptionId, i);
  }

  /** The turn that adds sample `i` keeps `SeedTexts` for one more sample. */
  lemma SeedAddTexts(q0: seq<Question>, qs: seq<Question>, nextId: int, i: nat)
    requires i < |SampleQuestions|
    requires SeedTexts(q0, qs, i)
    requires !HasText(qs, SampleQuestions[i].text)
    ensures SeedTexts(q0, qs + [SampleRow(nextId, SampleQuestions[i])], i + 1)
  {
    var row := SampleRow(nextId, SampleQuestions[i]);
    var qs' := qs + [row];
    NewSampleCount(q0, qs, i);
    forall j | 0 <= j < i ensures HasText(qs', SampleQuestions[j].text) {
      var k :| 0 <= k < |qs| && qs[k].text == SampleQuestions[j].text;
      assert qs'[k] == qs[k];
    }
    assert HasText(qs', SampleQuestions[i].text) by {
      assert qs'[|qs|] == row;
    }
  }

  /** The turn that adds sample `i` keeps `SeedRows`. */
  lemma SeedAddRows(q0: seq<Question>, o0: seq<QuestionOption>, next0: int, optionNext0: int,
                    qs: seq<Question>, os: seq<QuestionOption>, nextId: int, nextOptionId: int, i: nat)
    requires i < |SampleQuestions| && nextId >= next0
    requires SeedRows(q0, o0, next0, optionNext0, qs, os)
    requires nextOptionId == optionNext0 + |os| - |o0|
    ensures SeedRows(q0, o0, next0, optionNext0, qs + [SampleRow(nextId, SampleQuestions[i])],
      os + NewOptions(nextOptionId, nextId, SampleQuestions[i].options))
  {
    var qs' := qs + [SampleRow(nextId, SampleQuestions[i])];
    assert |qs'| == |qs| + 1 && qs'[..|qs|] == qs;
    PrefixesKept(q0, qs, qs');
    SeedAddedRow(q0, next0, qs, nextId, i);
    SampleOptionDataAt(nextId, i);
    SeedAddedOptions(q0, o0, optionNext0, qs, os, SampleRow(nextId, SampleQuestions[i]), SampleOptionData, nextOptionId);
  }

  /** Appending the row of sample `i` keeps every added row a sample row under a fresh id. */
  lemma SeedAddedRow(q0: seq<Question>, next0: int, qs: seq<Question>, nextId: int, i: nat)
    requires i < |SampleQuestions| && nextId >= next0 && |qs| >= |q0|
    requires forall k :: |q0| <= k < |qs| ==> qs[k].id >= next0 && IsSampleRow(qs[k])
    ensures forall k :: |q0| <= k < |qs| + 1 ==>
      (qs + [SampleRow(nextId, SampleQuestions[i])])[k].id >= next0 &&
      IsSampleRow((qs + [SampleRow(nextId, SampleQuestions[i])])[k])
  {
    SampleTextsDistinct();
    SampleNamedAt(SampleQuestions, i);
    var qs' := qs + [SampleRow(nextId, SampleQuestions[i])];
    forall k | |q0| <= k < |qs'| ensures qs'[k].id >= next0 && IsSampleRow(qs'[k]) {
      if k < |qs| {
        assert qs'[k] == qs[k];
      }
    }
  }

  /** Appending the options `dataOf(row)` for one more added row extends `SeedOptions` by that row. */
  lemma SeedAddedOptions(q0: seq<Question>, o0: seq<QuestionOption>, optionNext0: int,
                         qs: seq<Question>, os: seq<QuestionOption>, row: Question,
                         dataOf: Question -> seq<OptionData>, nextOptionId: int)
    requires |qs| >= |q0|
    requires os == o0 + SeedOptions(qs[|q0|..], dataOf, optionNext0)
    requires nextOptionId == optionNext0 + |os| - |o0|
    ensures os + NewOptions(nextOptionId, row.id, dataOf(row)) ==
      o0 + SeedOptions((qs + [row])[|q0|..], dataOf, optionNext0)
  {
    SuffixSnoc(qs, |q0|, row);
    SeedOptionsSnoc(qs[|q0|..], row, dataOf, optionNext0);
    ConcatAssociative(o0, SeedOptions(qs[|q0|..], dataOf, optionNext0), NewOptions(nextOptionId, row.id, dataOf(row)));
  }

  lemma ConcatAssociative<T>(a: seq<T>, b: seq<T>, c: seq<T>)
    ensures (a + b) + c == a + (b + c)
  {
  }

  /** Appending to a sequence appends to each of its suffixes. */
  lemma SuffixSnoc<T>(s: seq<T>, n: nat, x: T)
    requires n <= |s|
    ensures (s + [x])[n..] == s[n..] + [x]
  {
  }

  lemma SeedOptionsSnoc(added: seq<Question>, row: Question, dataOf: Question -> seq<OptionData>, firstId: int)
    ensures SeedOptions(added + [row], dataOf, firstId) ==
      SeedOptions(added, dataOf, firstId) + NewOptions(firstId + |SeedOptions(added, dataOf, firstId)|, row.id, dataOf(row))
  {
    var whole := added + [row];
    assert whole[..|whole| - 1] == added;
    assert whole[|whole| - 1] == row;
  }

  /** The row of sample `i` is seeded with that sample's options. */
  lemma SampleOptionDataAt(id: int, i: nat)
    requires i < |SampleQuestions|
    ensures SampleOptionData(SampleRow(id, SampleQuestions[i])) == SampleQuestions[i].options
  {
    SampleTextsDistinct();
    SampleNamedAt(SampleQuestions, i);
  }

  /** Seeding into a table that holds each sample text at most once leaves each
      sample text stored exactly once. */
  lemma SeededTextsOnce(q0: seq<Question>, o0: seq<QuestionOption>, next0: int, optionNext0: int,
                        qs: seq<Question>, os: seq<QuestionOption>)
    requires SeedProgress(q0, o0, next0, optionNext0, qs, os, |SampleQuestions|)
    requires forall j :: 0 <= j < |SampleQuestions| ==> TextCount(q0, SampleQuestions[j].text) <= 1
    ensures forall j :: 0 <= j < |SampleQuestions| ==> TextCount(qs, SampleQuestions[j].text) == 1
  {
    forall j | 0 <= j < |SampleQuestions| ensures TextCount(qs, SampleQuestions[j].text) == 1 {
      var t := SampleQuestions[j].text;
      assert TextCount(qs, t) == SeededCount(q0, |SampleQuestions|, t);
      if TextCount(q0, t) == 0 {
        assert exists i :: 0 <= i < |SampleQuestions| && SampleQuestions[i].text == t;
      }
    }
  }

  /** Seeding a second time adds nothing: after the first run every sample text is stored. */
  lemma SeedingTwiceAddsNothing(q0: seq<Question>, o0: seq<QuestionOption>, next0: int, optionNext0: int,
                                q1: seq<Question>, o1: seq<QuestionOption>, next1: int, optionNext1: int,
                                q2: seq<Question>, o2: seq<QuestionOption>)
    requires SeedProgress(q0, o0, next0, optionNext0, q1, o1, |SampleQuestions|)
    requires SeedProgress(q1, o1, next1, optionNext1, q2, o2, |SampleQuestions|)
    ensures q2 == q1 && o2 == o1
  {
  }

  /** A prefix of a prefix is a prefix. */
  lemma PrefixesKept<T>(a: seq<T>, b: seq<T>, c: seq<T>)
    requires |a| <= |b| <= |c| && b[..|a|] == a && c[..|b|] == b
    ensures c[..|a|] == a
  {
    assert c[..|a|] == c[..|b|][..|a|];
  }

  /** One turn of `create_sample_questions`: sample `i` is skipped when a stored
      question has its text, and otherwise added with its options. */
  method SeedSample(db: Database, i: nat)
    requires db.Valid() && i < |SampleQuestions|
    modifies db
    ensures db.Valid()
    ensures HasText(old(db.questions), SampleQuestions[i].text) ==>
      db.questions == old(db.questions) && db.options == old(db.options) &&
      db.nextQuestionId == old(db.nextQuestionId) && db.nextOptionId == old(db.nextOptionId)
    ensures !HasText(old(db.questions), SampleQuestions[i].text) ==>
      db.questions == old(db.questions) + [SampleRow(old(db.nextQuestionId), SampleQuestions[i])] &&
      db.nextQuestionId == old(db.nextQuestionId) + 1 &&
      db.options == old(db.options) +
        NewOptions(old(db.nextOptionId), old(db.nextQuestionId), SampleQuestions[i].options) &&
      db.nextOptionId == old(db.nextOptionId) + |SampleQuestions[i].options|
    ensures db.users == old(db.users) && db.responses == old(db.responses) && db.results == old(db.results)
  {
    var sample := SampleQuestions[i];
    if HasText(db.questions, sample.text) {
      return;
    }
    var id := db.nextQuestionId;
    db.questions := db.questions + [SampleRow(id, sample)];
    db.nextQuestionId := db.nextQuestionId + 1;
    AddOptions(db, id, sample.options);
    assert db.questions[|db.questions| - 1].text == sample.text;
  }

  /** Skipping sample `i`, whose text is stored, leaves every count as seeded so far. */
  lemma SkippedSampleCount(before: seq<Question>, now: seq<Question>, i: nat)
    requires i < |SampleQuestions|
    requires forall t :: TextCount(now, t) == SeededCount(before, i, t)
    requires HasText(now, SampleQuestions[i].text)
    ensures forall t :: TextCount(now, t) == SeededCount(before, i + 1, t)
  {
    forall t ensures TextCount(now, t) == SeededCount(before, i + 1, t) {
      if t == SampleQuestions[i].text {
        TextCountPositive(now, t);
        if TextCount(before, t) == 0 {
          assert exists j :: 0 <= j < i && SampleQuestions[j].text == t;
        }
      } else if exists j :: 0 <= j < i + 1 && SampleQuestions[j].text == t {
        var j :| 0 <= j < i + 1 && SampleQuestions[j].text == t;
        assert j < i;
      }
    }
  }

  /** Adding sample `i`, whose text is not stored, adds one to its own count only. */
  lemma NewSampleCount(before: seq<Question>, now: seq<Question>, i: nat)
    requires i < |SampleQuestions|
    requires forall t :: TextCount(now, t) == SeededCount(before, i, t)
    requires !HasText(now, SampleQuestions[i].text)
    ensures forall id, t :: TextCount(now + [SampleRow(id, SampleQuestions[i])], t) == SeededCount(before, i + 1, t)
  {
    var s := SampleQuestions[i].text;
    TextCountPositive(now, s);
    forall id, t ensures TextCount(now + [SampleRow(id, SampleQuestions[i])], t) == SeededCount(before, i + 1, t) {
      var after := now + [SampleRow(id, SampleQuestions[i])];
      assert after[..|after| - 1] == now;
      if t == s {
        assert TextCount(before, t) == 0;
      } else if exists j :: 0 <= j < i + 1 && SampleQuestions[j].text == t {
        var j :| 0 <= j < i + 1 && SampleQuestions[j].text == t;
        assert j < i;
      }
    }
  }

  /** `get_active_questions`: the active questions by order; when there are none,
      the samples are seeded first and the query is repeated. */
  method GetActiveQuestions(db: Database) returns (qs: seq<Question>)
    requires db.Valid()
    modifies db
    ensures db.Valid()
    ensures qs == ActiveQuestions(db.questions)
    ensures ActiveQuestions(old(db.questions)) != [] ==> db.questions == old(db.questions) && db.options == old(db.options)
    ensures ActiveQuestions(old(db.questions)) == [] ==>
      SeedProgress(old(db.questions), old(db.options), old(db.nextQuestionId), old(db.nextOptionId),
        db.questions, db.options, |SampleQuestions|)
    ensures |db.questions| >= |old(db.questions)|
    ensures db.questions[..|old(db.questions)|] == old(db.questions)
    ensures db.users == old(db.users) && db.responses == old(db.responses) && db.results == old(db.results)
  {
    qs := ActiveQuestions(db.questions);
    if qs == [] {
      CreateSampleQuestions(db);
      qs := ActiveQuestions(db.questions);
    }
  }

  // ---------------------------------------------------------------------------
  // Submission
  // ---------------------------------------------------------------------------

  /** One answer of a submission. */
  datatype ResponseSubmission = ResponseSubmission(questionId: int, selectedOptionId: int, responseTimeMs: int)

  datatype QuestionnaireSubmission = QuestionnaireSubmission(sessionId: string, responses: seq<ResponseSubmission>)

  /** Both the question and the option an answer names are stored (not necessarily together). */
  predicate Referenced(questions: seq<Question>, options: seq<QuestionOption>, a: ResponseSubmission) {
    QuestionIndex(questions, a.questionId).Some? && OptionIndex(options, a.selectedOptionId).Some?
  }

  predicate AllReferenced(questions: seq<Question>, options: seq<QuestionOption>, answers: seq<ResponseSubmission>) {
    forall k :: 0 <= k < |answers| ==> Referenced(questions, options, answers[k])
  }

  /** The weight dictionary built from an option: the five plain course keys. */
  function OptionWeights(o: QuestionOption): (w: WeightMap)
    ensures CourseKeyed(w)
  {
    var w := [("ti", Some(o.weightTi)), ("enfermagem", Some(o.weightEnfermagem)),
      ("logistica", Some(o.weightLogistica)), ("administracao", Some(o.weightAdministracao)),
      ("estetica", Some(o.weightEstetica))];
    assert forall c :: 0 <= c < CourseCount ==> w[c].0 == CourseKeys[c];
    w
  }

  /** The dictionary handed to the scorer for one answer. */
  function ScorerResponse(options: seq<QuestionOption>, a: ResponseSubmission): Response
    requires OptionIndex(options, a.selectedOptionId).Some?
  {
    Response(Some(a.questionId), Some(a.selectedOptionId), Some(a.responseTimeMs),
      Some(OptionWeights(options[OptionIndex(options, a.selectedOptionId).value])))
  }

  /** `responses_with_weights`. */
  function ScorerInput(options: seq<QuestionOption>, answers: seq<ResponseSubmission>): seq<Response>
    requires forall k :: 0 <= k < |answers| ==> OptionIndex(options, answers[k].selectedOptionId).Some?
  {
    seq(|answers|, k requires 0 <= k < |answers| => ScorerResponse(options, answers[k]))
  }

  /** Every dictionary a submission hands to the scorer holds exactly the five
      course keys, so the scores it gets back never come from a raise. */
  lemma ScorerInputCourseKeyed(options: seq<QuestionOption>, answers: seq<ResponseSubmission>)
    requires forall k :: 0 <= k < |answers| ==> OptionIndex(options, answers[k].selectedOptionId).Some?
    ensures AllCourseKeyed(ScorerInput(options, answers))
    ensures !Raises(ScorerInput(options, answers))
  {
    var rs := ScorerInput(options, answers);
    forall i | 0 <= i < |rs| ensures CourseKeyed(WeightsOf(rs[i])) {
      assert WeightsOf(rs[i]) == OptionWeights(options[OptionIndex(options, answers[i].selectedOptionId).value]);
    }
    NoRaiseWhenCourseKeyed(rs);
  }

  /** Without a classifier, and with some weight in the submission, the stored scores
      add up to 100 (each in [0, 100] when the options' weights are non-negative). */
  lemma SubmittedScoresSumTo100(options: seq<QuestionOption>, answers: seq<ResponseSubmission>, model: Model, elapsedMs: int)
    requires forall k :: 0 <= k < |answers| ==> OptionIndex(options, answers[k].selectedOptionId).Some?
    requires model.classifier.None? && TotalWeight(ScorerInput(options, answers)) > 0.0
    ensures ScoreSum(Classification(ScorerInput(options, answers), model, elapsedMs).scores) == 100.0
  {
    ScorerInputCourseKeyed(options, answers);
    UnboostedScoresSumTo100(ScorerInput(options, answers), model, elapsedMs);
  }

  /** A submission's answer is the fallback exactly when the classifier raises. */
  lemma SubmissionFallbackOnlyFromClassifier(options: seq<QuestionOption>, answers: seq<ResponseSubmission>, model: Model, elapsedMs: int)
    requires forall k :: 0 <= k < |answers| ==> OptionIndex(options, answers[k].selectedOptionId).Some?
    ensures Classification(ScorerInput(options, answers), model, elapsedMs) == Fallback <==>
      ClassifierFails(ScorerInput(options, answers), model)
  {
    ScorerInputCourseKeyed(options, answers);
    FallbackExactlyOnFailure(ScorerInput(options, answers), model, elapsedMs);
  }

  function UserIdOf(currentUser: Option<User>): Option<int> {
    match currentUser
    case Some(u) => Some(u.id)
    case None => None
  }

  /** The stored response row for answer `a`. */
  function ResponseRow(id: int, userId: Option<int>, sessionId: string, a: ResponseSubmission): QuestionnaireResponse {
    QuestionnaireResponse(id, userId, sessionId, a.questionId, a.selectedOptionId, a.responseTimeMs)
  }

  /** The stored result row for a classification: the five scores, the course, the
      confidence and the model version copied over, with the handler's own time. */
  function ResultRow(id: int, userId: Option<int>, sessionId: string, c: ClassificationResult,
                     elapsedMs: int, createdAt: int): (row: RecommendationResult)
    requires |c.scores| == CourseCount
    ensures row.id == id && row.userId == userId && row.sessionId == sessionId
    ensures [row.scoreTi, row.scoreEnfermagem, row.scoreLogistica, row.scoreAdministracao, row.scoreEstetica] == c.scores
    ensures row.recommendedCourse == c.recommendedCourse && row.confidenceScore == c.confidenceScore
    ensures row.modelVersion == c.modelVersion
    ensures row.processingTimeMs == elapsedMs && row.createdAt == createdAt
  {
    var s := c.scores;
    var row := RecommendationResult(id, userId, sessionId, s[0], s[1], s[2], s[3], s[4],
      c.recommendedCourse, c.confidenceScore, c.modelVersion, elapsedMs, createdAt);
    FiveScores(s, row.scoreTi, row.scoreEnfermagem, row.scoreLogistica, row.scoreAdministracao, row.scoreEstetica);
    row
  }

  /** `submit_questionnaire`. An answer naming an unknown question or option aborts
      the whole submission with nothing stored; the `HTTPException(400)` raised for
      it is caught by the handler's own `except Exception` and re-raised as 500.
      Otherwise one response row per answer, then one result row copying the
      classification, are stored. `elapsedMs` is the handler's measured time and
      `createdAt` the database clock. */
  method SubmitQuestionnaire(db: Database, submission: QuestionnaireSubmission, currentUser: Option<User>,
                             model: Model, elapsedMs: int, createdAt: int)
    returns (r: Result<RecommendationResult>)
    requires db.Valid()
    modifies db
    ensures db.Valid()
    ensures r.Err? <==> !AllReferenced(old(db.questions), old(db.options), submission.responses)
    ensures r.Err? ==> r.error.status == InternalServerError
    ensures r.Err? ==> db.responses == old(db.responses) && db.results == old(db.results)
    ensures db.users == old(db.users) && db.questions == old(db.questions) && db.options == old(db.options)
    ensures r.Ok? ==>
      db.responses == old(db.responses) +
        ResponseRows(old(db.nextResponseId), UserIdOf(currentUser), submission.sessionId, submission.responses)
    ensures r.Ok? ==>
      db.results == old(db.results) + [r.value] &&
      r.value == ResultRow(old(db.nextResultId), UserIdOf(currentUser), submission.sessionId,
        Classification(ScorerInput(old(db.options), submission.responses), model, elapsedMs), elapsedMs, createdAt)
  {
    var answers := submission.responses;
    var userId := UserIdOf(currentUser);
    var staged := StageResponses(db.questions, db.options, answers, db.nextResponseId, userId, submission.sessionId);
    if staged.None? {
      return Err(HttpError(InternalServerError));
    }
    StoreResponses(db, staged.value);
    var input := BuildScorerInput(db.options, answers);
    var classification := ClassifyResponses(input, model, elapsedMs);
    var row := ResultRow(db.nextResultId, userId, submission.sessionId, classification, elapsedMs, createdAt);
    StoreResult(db, row);
    r := Ok(row);
  }

  /** The response rows of a submission's answers, numbered from `firstId`. */
  function ResponseRows(firstId: int, userId: Option<int>, sessionId: string,
                        answers: seq<ResponseSubmission>): (rows: seq<QuestionnaireResponse>)
    ensures |rows| == |answers|
    ensures forall k :: 0 <= k < |answers| ==>
      rows[k].id == firstId + k && rows[k].userId == userId && rows[k].sessionId == sessionId &&
      rows[k].questionId == answers[k].questionId && rows[k].selectedOptionId == answers[k].selectedOptionId &&
      rows[k].responseTimeMs == answers[k].responseTimeMs
  {
    seq(|answers|, k requires 0 <= k < |answers| => ResponseRow(firstId + k, userId, sessionId, answers[k]))
  }

  /** `db.add` of each staged response row, then `db.commit()`. */
  method StoreResponses(db: Database, rows: seq<QuestionnaireResponse>)
    requires db.Valid()
    requires forall k :: 0 <= k < |rows| ==> rows[k].id == db.nextResponseId + k
    modifies db
    ensures db.Valid()
    ensures db.responses == old(db.responses) + rows && db.nextResponseId == old(db.nextResponseId) + |rows|
    ensures db.users == old(db.users) && db.questions == old(db.questions) && db.options == old(db.options)
    ensures db.results == old(db.results) && db.nextResultId == old(db.nextResultId)
  {
    db.responses := db.responses + rows;
    db.nextResponseId := db.nextResponseId + |rows|;
  }

  /** `db.add(db_result)` and `db.commit()`. */
  method StoreResult(db: Database, row: RecommendationResult)
    requires db.Valid() && row.id == db.nextResultId
    modifies db
    ensures db.Valid()
    ensures db.results == old(db.results) + [row] && db.nextResultId == old(db.nextResultId) + 1
    ensures db.users == old(db.users) && db.questions == old(db.questions) && db.options == old(db.options)
    ensures db.responses == old(db.responses)
  {
    db.results := db.results + [row];
    db.nextResultId := db.nextResultId + 1;
  }

  /** The first loop of `submit_questionnaire`: checks each answer's question and
      option in turn and builds its response row, numbered from `firstId`; `None`
      is the `HTTPException` raised at the first answer that names an unknown one. */
  method StageResponses(questions: seq<Question>, options: seq<QuestionOption>, answers: seq<ResponseSubmission>,
                        firstId: int, userId: Option<int>, sessionId: string)
    returns (rows: Option<seq<QuestionnaireResponse>>)
    ensures rows.None? <==> !AllReferenced(questions, options, answers)
    ensures rows.Some? ==> rows.value == ResponseRows(firstId, userId, sessionId, answers)
  {
    var staged: seq<QuestionnaireResponse> := [];
    var i := 0;
    while i < |answers|
      invariant 0 <= i <= |answers|
      invariant forall k :: 0 <= k < i ==> Referenced(questions, options, answers[k])
      invariant |staged| == i
      invariant forall k :: 0 <= k < i ==> staged[k] == ResponseRow(firstId + k, userId, sessionId, answers[k])
    {
      var answer := answers[i];
      if QuestionIndex(questions, answer.questionId).None? || OptionIndex(options, answer.selectedOptionId).None? {
        assert !Referenced(questions, options, answers[i]);
        return None;
      }
      staged := staged + [ResponseRow(firstId + i, userId, sessionId, answer)];
      i := i + 1;
    }
    rows := Some(staged);
  }

  /** The second loop of `submit_questionnaire`: the scorer's input, one dictionary per answer. */
  method BuildScorerInput(options: seq<QuestionOption>, answers: seq<ResponseSubmission>) returns (input: seq<Response>)
    requires forall k :: 0 <= k < |answers| ==> OptionIndex(options, answers[k].selectedOptionId).Some?
    ensures input == ScorerInput(options, answers)
  {
    input := [];
    var i := 0;
    while i < |answers|
      invariant 0 <= i <= |answers|
      invariant |input| == i
      invariant forall k :: 0 <= k < i ==> input[k] == ScorerResponse(options, answers[k])
    {
      input := input + [ScorerResponse(options, answers[i])];
      i := i + 1;
    }
  }

  // ---------------------------------------------------------------------------
  // Result lookup
  // ---------------------------------------------------------------------------

  predicate NoSessionBefore(results: seq<RecommendationResult>, k: nat, sessionId: string)
    requires k <= |results|
  {
    forall j :: 0 <= j < k ==> results[j].sessionId != sessionId
  }

  /** `get_result`: the first stored result of the session, or 404. */
  function GetResult(results: seq<RecommendationResult>, sessionId: string): (r: Result<RecommendationResult>)
    ensures r.Ok? ==> r.value in results && r.value.sessionId == sessionId
    ensures r.Ok? ==> exists k :: 0 <= k < |results| && results[k] == r.value && NoSessionBefore(results, k, sessionId)
    ensures r.Err? <==> forall k :: 0 <= k < |results| ==> results[k].sessionId != sessionId
    ensures r.Err? ==> r.error.status == NotFound
  {
    if |results| == 0 then Err(HttpError(NotFound))
    else if results[0].sessionId == sessionId then Ok(results[0])
    else
      var rest := GetResult(results[1..], sessionId);
      if rest.Ok? then
        assert forall j :: 1 <= j < |results| ==> results[j] == results[1..][j - 1];
        rest
      else rest
  }
}
