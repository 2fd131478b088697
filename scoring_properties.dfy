/** What the scorer promises about its output: scores that add up to 100 and stay
    within [0, 100] when every weight dictionary holds exactly the five course keys,
    the effect of the classifier boost, and an answer that is recognisably the
    fallback exactly when something raised. */
module ScoringProperties {
  import opened Common
  import opened Scoring

  /** The dictionary's keys are exactly the five course keys (in any order), and
      no value is `None`. */
  predicate CourseKeyed(w: WeightMap) {
    (forall i :: 0 <= i < |w| ==> w[i].0 in CourseKeys && w[i].1.Some?) &&
    (forall c :: 0 <= c < CourseCount ==> HasKey(w, CourseKeys[c]))
  }

  predicate AllCourseKeyed(rs: seq<Response>) {
    forall i :: 0 <= i < |rs| ==> CourseKeyed(WeightsOf(rs[i]))
  }

  predicate NonNegative(w: Entries) {
    forall i :: 0 <= i < |w| && w[i].1.Some? ==> w[i].1.value >= 0.0
  }

  predicate AllNonNegative(rs: seq<Response>) {
    forall i :: 0 <= i < |rs| ==> NonNegative(WeightsOf(rs[i]))
  }

  predicate Distinct(ks: seq<string>) {
    forall i, j :: 0 <= i < j < |ks| ==> ks[i] != ks[j]
  }

  function EntryValue(e: (string, Option<real>)): real {
    match e.1
    case Some(x) => x
    case None => 0.0
  }

  /** The value under `key`, with 0 for a missing key or a `None`. */
  function ValueOf(w: Entries, key: string): real {
    match Find(w, key)
    case Some(Some(x)) => x
    case _ => 0.0
  }

  /** All values of the dictionary added up, in entry order. */
  function ValueSum(w: Entries): real {
    if |w| == 0 then 0.0 else EntryValue(w[0]) + ValueSum(w[1..])
  }

  /** The values under the keys `ks`, added up in the order of `ks`. */
  function KeyedSum(w: Entries, ks: seq<string>): real {
    if |ks| == 0 then 0.0 else ValueOf(w, ks[0]) + KeyedSum(w, ks[1..])
  }

  // ---------------------------------------------------------------------------
  // Dictionary lemmas
  // ---------------------------------------------------------------------------

  /** In a dictionary, looking up the key of an entry finds that entry's value. */
  lemma {:induction false} FindAt(w: Entries, i: nat)
    requires DistinctKeys(w) && i < |w|
    ensures Find(w, w[i].0) == Some(w[i].1)
  {
    if i > 0 {
      assert w[0].0 != w[i].0;
      assert DistinctKeys(w[1..]);
      assert w[1..][i - 1] == w[i];
      FindAt(w[1..], i - 1);
    }
  }

  lemma {:induction false} SumValuesWithoutNone(w: Entries)
    requires !HasNone(w)
    ensures SumValues(w) == Some(ValueSum(w))
  {
    if |w| > 0 {
      assert !HasNone(w[1..]) by {
        forall i | 0 <= i < |w[1..]| ensures w[1..][i].1.Some? {
          assert w[1..][i] == w[i + 1];
        }
      }
      SumValuesWithoutNone(w[1..]);
    }
  }

  lemma {:induction false} KeyedSumOfEmpty(ks: seq<string>)
    ensures KeyedSum([], ks) == 0.0
  {
    if |ks| > 0 {
      KeyedSumOfEmpty(ks[1..]);
    }
  }

  /** Setting aside the first entry of a dictionary takes its value out of the keyed
      sum when its key is among `ks`, and changes nothing else. */
  lemma {:induction false} KeyedSumDropFirst(w: Entries, ks: seq<string>)
    requires |w| > 0 && !HasKey(w[1..], w[0].0) && Distinct(ks)
    ensures KeyedSum(w, ks) == KeyedSum(w[1..], ks) + (if w[0].0 in ks then EntryValue(w[0]) else 0.0)
  {
    if |ks| > 0 {
      assert Distinct(ks[1..]);
      KeyedSumDropFirst(w, ks[1..]);
      if ks[0] == w[0].0 {
        assert w[0].0 !in ks[1..] by {
          forall j | 0 <= j < |ks[1..]| ensures ks[1..][j] != ks[0] {
            assert ks[1..][j] == ks[j + 1];
          }
        }
        assert ValueOf(w[1..], ks[0]) == 0.0;
      } else {
        assert ValueOf(w, ks[0]) == ValueOf(w[1..], ks[0]);
      }
    }
  }

  /** When every key of a dictionary is among the distinct keys `ks`, summing its
      values key by key in the order of `ks` gives the sum of all its values. */
  lemma {:induction false} KeyedSumCoversAll(w: Entries, ks: seq<string>)
    requires DistinctKeys(w) && Distinct(ks)
    requires forall i :: 0 <= i < |w| ==> w[i].0 in ks
    ensures KeyedSum(w, ks) == ValueSum(w)
  {
    if |w| == 0 {
      KeyedSumOfEmpty(ks);
    } else {
      assert !HasKey(w[1..], w[0].0) by {
        forall i | 0 <= i < |w[1..]| ensures w[1..][i].0 != w[0].0 {
          assert w[1..][i] == w[i + 1];
        }
      }
      KeyedSumDropFirst(w, ks);
      assert DistinctKeys(w[1..]);
      assert forall i :: 0 <= i < |w[1..]| ==> w[1..][i] == w[i + 1];
      KeyedSumCoversAll(w[1..], ks);
    }
  }

  // ---------------------------------------------------------------------------
  // One response
  // ---------------------------------------------------------------------------

  /** No course key starts with `weight_`, so a dictionary holding only course keys
      is read through the plain keys. */
  lemma NoPrefixedKey(w: WeightMap, c: nat)
    requires CourseKeyed(w) && c < CourseCount
    ensures Find(w, PrefixedKey(c)) == None
  {
    assert PrefixedKey(c)[0] == 'w';
    forall i | 0 <= i < |w| ensures w[i].0 != PrefixedKey(c) {
      assert w[i].0 in CourseKeys;
      assert w[i].0[0] != 'w';
    }
  }

  lemma CourseWeightOfCourseKeyed(w: WeightMap, c: nat)
    requires CourseKeyed(w) && c < CourseCount
    ensures CourseWeight(w, c) == Some(ValueOf(w, CourseKeys[c]))
  {
    NoPrefixedKey(w, c);
    var v := Find(w, CourseKeys[c]);
    assert v.Some?;
    assert (CourseKeys[c], v.value) in w;
  }

  lemma KeyedSumOfFive(w: Entries, ks: seq<string>)
    requires |ks| == 5
    ensures KeyedSum(w, ks) == ValueOf(w, ks[0]) + ValueOf(w, ks[1]) + ValueOf(w, ks[2]) +
      ValueOf(w, ks[3]) + ValueOf(w, ks[4])
  {
    var k1 := ks[1..];
    var k2 := k1[1..];
    var k3 := k2[1..];
    var k4 := k3[1..];
    assert KeyedSum(w, k4[1..]) == 0.0;
    assert KeyedSum(w, k4) == ValueOf(w, ks[4]);
    assert KeyedSum(w, k3) == ValueOf(w, ks[3]) + ValueOf(w, ks[4]);
    assert KeyedSum(w, k2) == ValueOf(w, ks[2]) + ValueOf(w, ks[3]) + ValueOf(w, ks[4]);
    assert KeyedSum(w, k1) == ValueOf(w, ks[1]) + ValueOf(w, ks[2]) + ValueOf(w, ks[3]) + ValueOf(w, ks[4]);
  }

  /** A response whose dictionary holds exactly the course keys contributes, over
      the five courses, exactly the sum of its weights. */
  lemma ContributionsAddUp(r: Response)
    requires CourseKeyed(WeightsOf(r))
    ensures Contribution(r, 0) + Contribution(r, 1) + Contribution(r, 2) + Contribution(r, 3) +
            Contribution(r, 4) == ResponseTotal(r)
  {
    var w := WeightsOf(r);
    CourseWeightOfCourseKeyed(w, 0);
    CourseWeightOfCourseKeyed(w, 1);
    CourseWeightOfCourseKeyed(w, 2);
    CourseWeightOfCourseKeyed(w, 3);
    CourseWeightOfCourseKeyed(w, 4);
    KeyedSumOfFive(w, CourseKeys);
    CourseKeysDistinct();
    KeyedSumCoversAll(w, CourseKeys);
    assert !HasNone(w);
    SumValuesWithoutNone(w);
  }

  lemma CourseKeysDistinct()
    ensures Distinct(CourseKeys)
  {
  }

  // ---------------------------------------------------------------------------
  // All responses
  // ---------------------------------------------------------------------------

  lemma NoRaiseWhenCourseKeyed(rs: seq<Response>)
    requires AllCourseKeyed(rs)
    ensures !Raises(rs)
  {
    forall i | 0 <= i < |rs| ensures SumValues(WeightsOf(rs[i])).Some? {
      assert !HasNone(WeightsOf(rs[i]));
    }
  }

  /** With course-keyed dictionaries the five raw scores add up to the total weight. */
  lemma {:induction false} RawScoresAddUpToTotal(rs: seq<Response>)
    requires AllCourseKeyed(rs)
    ensures ScoreSum(RawScores(rs)) == TotalWeight(rs)
  {
    if |rs| > 0 {
      var front := rs[..|rs| - 1];
      assert AllCourseKeyed(front) by {
        assert forall i :: 0 <= i < |front| ==> front[i] == rs[i];
      }
      RawScoresAddUpToTotal(front);
      ContributionsAddUp(rs[|rs| - 1]);
    }
  }

  /** With non-negative weights every raw score is at least 0. */
  lemma {:induction false} RawScoreNonNegative(rs: seq<Response>, c: nat)
    requires AllCourseKeyed(rs) && AllNonNegative(rs) && c < CourseCount
    ensures RawScore(rs, c) >= 0.0
  {
    if |rs| > 0 {
      var front := rs[..|rs| - 1];
      assert forall i :: 0 <= i < |front| ==> front[i] == rs[i];
      RawScoreNonNegative(front, c);
      var w := WeightsOf(rs[|rs| - 1]);
      CourseWeightOfCourseKeyed(w, c);
      var v := Find(w, CourseKeys[c]);
      assert (CourseKeys[c], v.value) in w;
    }
  }

  lemma PercentOfTotal(a: real, b: real, c: real, d: real, e: real, t: real)
    requires t > 0.0 && a + b + c + d + e == t
    ensures Percent(a, t) + Percent(b, t) + Percent(c, t) + Percent(d, t) + Percent(e, t) == 100.0
  {
    assert a / t + b / t + c / t + d / t + e / t == (a + b + c + d + e) / t;
  }

  lemma PercentBounds(x: real, t: real)
    requires t > 0.0 && 0.0 <= x <= t
    ensures 0.0 <= Percent(x, t) <= 100.0
  {
    assert x / t * t == x;
  }

  /** The weighted scores of responses whose dictionaries hold exactly the five
      course keys: they never raise, and they add up to 100 when the total weight
      is positive (and to the total itself, left un-normalised, otherwise). */
  lemma WeightedScoresSum(rs: seq<Response>)
    requires AllCourseKeyed(rs)
    ensures WeightedScores(rs).Some?
    ensures ScoreSum(WeightedScores(rs).value) == if TotalWeight(rs) > 0.0 then 100.0 else TotalWeight(rs)
  {
    NoRaiseWhenCourseKeyed(rs);
    RawScoresAddUpToTotal(rs);
    var raw := RawScores(rs);
    var t := TotalWeight(rs);
    if t > 0.0 {
      PercentOfTotal(raw[0], raw[1], raw[2], raw[3], raw[4], t);
    }
  }

  /** A non-negative part of a sum of non-negative terms is at most the sum. */
  lemma PartOfSum(s: seq<real>, c: nat)
    requires |s| == CourseCount && c < CourseCount
    requires forall d :: 0 <= d < CourseCount ==> s[d] >= 0.0
    ensures 0.0 <= s[c] <= ScoreSum(s)
  {
  }

  /** Non-negative raw scores normalised by their own sum lie in [0, 100]. */
  lemma NormaliseBounded(raw: seq<real>, total: real)
    requires |raw| == CourseCount && total == ScoreSum(raw)
    requires raw[0] >= 0.0 && raw[1] >= 0.0 && raw[2] >= 0.0 && raw[3] >= 0.0 && raw[4] >= 0.0
    ensures forall c :: 0 <= c < CourseCount ==> 0.0 <= Normalise(raw, total)[c] <= 100.0
  {
    forall c | 0 <= c < CourseCount ensures 0.0 <= Normalise(raw, total)[c] <= 100.0 {
      PartOfSum(raw, c);
      if total > 0.0 {
        PercentBounds(raw[c], total);
      }
    }
  }

  /** With non-negative weights in course-keyed dictionaries every score lies in [0, 100]. */
  lemma WeightedScoresBounded(rs: seq<Response>)
    requires AllCourseKeyed(rs) && AllNonNegative(rs)
    ensures WeightedScores(rs).Some? && |WeightedScores(rs).value| == CourseCount
    ensures forall c :: 0 <= c < CourseCount ==> 0.0 <= WeightedScores(rs).value[c] <= 100.0
  {
    NoRaiseWhenCourseKeyed(rs);
    RawScoresAddUpToTotal(rs);
    RawScoreNonNegative(rs, 0);
    RawScoreNonNegative(rs, 1);
    RawScoreNonNegative(rs, 2);
    RawScoreNonNegative(rs, 3);
    RawScoreNonNegative(rs, 4);
    NormaliseBounded(RawScores(rs), TotalWeight(rs));
  }

  /** No responses: nothing to normalise by, so every score stays 0. */
  lemma EmptyInputScoresZero()
    ensures WeightedScores([]) == Some([0.0, 0.0, 0.0, 0.0, 0.0])
  {
  }

  // ---------------------------------------------------------------------------
  // Classification
  // ---------------------------------------------------------------------------

  /** The classifier is present and raises on the responses' feature row. */
  predicate ClassifierFails(rs: seq<Response>, model: Model) {
    model.classifier.Some? &&
    model.classifier.value(FeatureVector(rs, TargetLength(model.featureNames))).Fails?
  }

  /** Equal scores leave no gap, so a computed answer with five equal scores has the
      least confidence and recommends the first course. */
  lemma EqualScoresRecommendation(s: seq<real>, elapsedMs: int)
    requires |s| == CourseCount && forall c :: 0 <= c < CourseCount ==> s[c] == s[0]
    ensures Recommendation(s, elapsedMs).recommendedCourse == CourseNames[0]
    ensures Recommendation(s, elapsedMs).confidenceScore == 0.1
    ensures Recommendation(s, elapsedMs) == ClassificationResult(s, CourseNames[0], 0.1, elapsedMs, ModelVersion)
  {
    var k := ArgMax(s);
    assert s[0] == s[k];
    var m := SecondLargest(s);
    var j :| 0 <= j < |s| && j != k && s[j] == m;
  }

  /** A computed answer is never the fallback: five scores of 20 would give
      confidence 0.1, not 0.5. */
  lemma RecommendationIsNotFallback(s: seq<real>, elapsedMs: int)
    requires |s| == CourseCount
    ensures Recommendation(s, elapsedMs) != Fallback
  {
    if s == Fallback.scores {
      EqualScoresRecommendation(s, elapsedMs);
    }
  }

  /** The answer is the fallback exactly when the weighted scores or the classifier
      raised, so a caller can tell the two apart after all. */
  lemma FallbackExactlyOnFailure(rs: seq<Response>, model: Model, elapsedMs: int)
    ensures Classification(rs, model, elapsedMs) == Fallback <==> Raises(rs) || ClassifierFails(rs, model)
  {
    match WeightedScores(rs)
    case None =>
    case Some(s) =>
      match model.classifier
      case None =>
        RecommendationIsNotFallback(s, elapsedMs);
      case Some(predict) =>
        match predict(FeatureVector(rs, TargetLength(model.featureNames)))
        case Fails =>
        case Label(index) =>
          RecommendationIsNotFallback(Boost(s, index), elapsedMs);
  }

  /** Without a classifier, course-keyed responses with a positive total weight get
      scores adding up to 100, each in [0, 100] when the weights are non-negative. */
  lemma UnboostedScoresSumTo100(rs: seq<Response>, model: Model, elapsedMs: int)
    requires model.classifier.None? && AllCourseKeyed(rs) && TotalWeight(rs) > 0.0
    ensures ScoreSum(Classification(rs, model, elapsedMs).scores) == 100.0
    ensures AllNonNegative(rs) ==>
      forall c :: 0 <= c < CourseCount ==> 0.0 <= Classification(rs, model, elapsedMs).scores[c] <= 100.0
  {
    WeightedScoresSum(rs);
    if AllNonNegative(rs) {
      WeightedScoresBounded(rs);
    }
  }

  /** With a classifier label the predicted course's score is boosted by 1.2 and the
      others kept, so the scores add up to 100 plus a fifth of the boosted score. */
  lemma BoostedScoresExceed100(rs: seq<Response>, model: Model, elapsedMs: int)
    requires AllCourseKeyed(rs) && TotalWeight(rs) > 0.0
    requires model.classifier.Some?
    requires model.classifier.value(FeatureVector(rs, TargetLength(model.featureNames))).Label?
    ensures var s := WeightedScores(rs).value;
      var index := model.classifier.value(FeatureVector(rs, TargetLength(model.featureNames))).index;
      var k := BoostedCourse(index);
      var r := Classification(rs, model, elapsedMs);
      r.scores[k] == s[k] * 1.2 &&
      (forall c :: 0 <= c < CourseCount && c != k ==> r.scores[c] == s[c]) &&
      ScoreSum(r.scores) == 100.0 + s[k] / 5.0
  {
    WeightedScoresSum(rs);
    var index := model.classifier.value(FeatureVector(rs, TargetLength(model.featureNames))).index;
    BoostChangesOneScore(WeightedScores(rs).value, index);
  }

  lemma DefaultWeightsCourseKeyed()
    ensures CourseKeyed(DefaultWeights)
  {
    var w := DefaultWeights;
    forall c | 0 <= c < CourseCount ensures HasKey(w, CourseKeys[c]) {
      assert w[c].0 == CourseKeys[c];
    }
  }

  lemma PercentOfFifth(x: real)
    requires x > 0.0
    ensures Percent(x, 5.0 * x) == 20.0
  {
    assert x / (5.0 * x) * (5.0 * x) == x;
  }

  /** Five equal raw scores normalised by their sum are 20 each. */
  lemma NormaliseEqualScores(raw: seq<real>, total: real, x: real)
    requires x > 0.0 && total == 5.0 * x && raw == [x, x, x, x, x]
    ensures Normalise(raw, total) == [20.0, 20.0, 20.0, 20.0, 20.0]
  {
    PercentOfFifth(x);
    var s := Normalise(raw, total);
    assert forall c :: 0 <= c < CourseCount ==> s[c] == Percent(x, total);
  }

  /** Five equal raw scores making up the total normalise to 20 each. */
  lemma EqualRawScoresNormalise(rs: seq<Response>, x: real)
    requires !Raises(rs) && x > 0.0 && TotalWeight(rs) == 5.0 * x
    requires RawScores(rs) == [x, x, x, x, x]
    ensures WeightedScores(rs) == Some([20.0, 20.0, 20.0, 20.0, 20.0])
  {
    NormaliseEqualScores(RawScores(rs), TotalWeight(rs), x);
  }

  /** Responses that carry no weights are all scored with 5.0 per course, so every
      course gets 20. */
  lemma UnweightedResponsesScoreEqually(rs: seq<Response>)
    requires |rs| > 0 && forall i :: 0 <= i < |rs| ==> rs[i].weights.None?
    ensures !Raises(rs)
    ensures WeightedScores(rs) == Some([20.0, 20.0, 20.0, 20.0, 20.0])
  {
    DefaultWeightsCourseKeyed();
    assert AllCourseKeyed(rs) by {
      forall i | 0 <= i < |rs| ensures CourseKeyed(WeightsOf(rs[i])) {
        assert WeightsOf(rs[i]) == DefaultWeights;
      }
    }
    NoRaiseWhenCourseKeyed(rs);
    var x := 5.0 * |rs| as real;
    assert RawScores(rs) == [x, x, x, x, x] by {
      EqualRawScores(rs);
      assert RawScore(rs, 0) == x && RawScore(rs, 1) == x && RawScore(rs, 2) == x;
      assert RawScore(rs, 3) == x && RawScore(rs, 4) == x;
    }
    RawScoresAddUpToTotal(rs);
    EqualRawScoresNormalise(rs, x);
  }

  /** Without a classifier the weighted scores are reported as they are. */
  lemma ClassificationWithoutClassifier(rs: seq<Response>, model: Model, elapsedMs: int)
    requires model.classifier.None? && !Raises(rs)
    ensures Classification(rs, model, elapsedMs) == Recommendation(WeightedScores(rs).value, elapsedMs)
  {
  }

  /** Without weights and without a classifier, the first course is recommended
      with the least confidence. */
  lemma UnweightedResponsesTie(rs: seq<Response>, elapsedMs: int)
    requires |rs| > 0 && forall i :: 0 <= i < |rs| ==> rs[i].weights.None?
    ensures Classification(rs, Model([], None), elapsedMs) ==
      ClassificationResult([20.0, 20.0, 20.0, 20.0, 20.0], CourseNames[0], 0.1, elapsedMs, ModelVersion)
  {
    var s := [20.0, 20.0, 20.0, 20.0, 20.0];
    EqualScoresRecommendation(s, elapsedMs);
    UnweightedResponsesScoreEqually(rs);
    ClassificationWithoutClassifier(rs, Model([], None), elapsedMs);
  }

  /** Every unweighted response adds 5.0 to each course. */
  lemma {:induction false} EqualRawScores(rs: seq<Response>)
    requires forall i :: 0 <= i < |rs| ==> rs[i].weights.None?
    ensures forall c :: 0 <= c < CourseCount ==> RawScore(rs, c) == 5.0 * |rs| as real
  {
    if |rs| > 0 {
      var front := rs[..|rs| - 1];
      assert forall i :: 0 <= i < |front| ==> front[i] == rs[i];
      EqualRawScores(front);
      var last := rs[|rs| - 1];
      var w := WeightsOf(last);
      assert w == DefaultWeights;
      forall c | 0 <= c < CourseCount ensures Contribution(last, c) == 5.0 {
        FindAt(w, c);
        assert w[c].0 == CourseKeys[c];
        assert forall d :: 0 <= d < CourseCount ==> w[d].0 != PrefixedKey(c) by {
          assert PrefixedKey(c)[0] == 'w';
        }
      }
    }
  }
}
