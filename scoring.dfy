/** The recommendation scorer of the ML service: the feature row handed to the
    classifier, the weighted course scores, the classifier boost, the recommended
    course, the confidence and the fallback answer. */
module Scoring {
  import opened Common

  /** The keys of the score dictionary, in its insertion order. Position `c` is also
      the class index `c` of the service's `course_mapping`. */
  const CourseKeys: seq<string> := ["ti", "enfermagem", "logistica", "administracao", "estetica"]

  /** Display names, position by position: both `course_mapping` and the
      `course_names` table map to these. */
  const CourseNames: seq<string> :=
    ["Tecnologia da Informação", "Enfermagem", "Logística", "Administração", "Estética"]

  const CourseCount: nat := 5
  const ModelVersion: string := "1.0.0"
  /** Length of the feature row when no feature names are loaded. */
  const DefaultFeatureCount: nat := 20
  /** Weight of a course that a weight dictionary does not mention. */
  const DefaultWeight: real := 5.0
  /** The factor applied to the classifier's course (1.2, exactly). */
  const BoostFactor: real := 1.2

  /** The entries of a Python dictionary of weights, in insertion order; a value may be `None`. */
  type Entries = seq<(string, Option<real>)>

  predicate DistinctKeys(w: Entries) {
    forall i, j :: 0 <= i < j < |w| ==> w[i].0 != w[j].0
  }

  /** A weight dictionary: no key occurs twice. */
  type WeightMap = w: Entries | DistinctKeys(w) witness []

  /** One response as the scorer receives it: each field may be absent from the dictionary. */
  datatype Response = Response(
    questionId: Option<int>,
    selectedOptionId: Option<int>,
    responseTimeMs: Option<int>,
    weights: Option<WeightMap>)

  /** The classifier's answer for one feature row: a class index, or an exception. */
  datatype Prediction = Label(index: int) | Fails

  /** What the service has loaded: the feature names, and the scaler and random
      forest together as one function from a feature row to a prediction (`None`
      when either of them is missing). */
  datatype Model = Model(featureNames: seq<string>, classifier: Option<seq<int> -> Prediction>)

  datatype ClassificationResult = ClassificationResult(
    scores: seq<real>,
    recommendedCourse: string,
    confidenceScore: real,
    processingTimeMs: int,
    modelVersion: string)

  /** The answer returned when anything in the classification raises. */
  const Fallback: ClassificationResult :=
    ClassificationResult([20.0, 20.0, 20.0, 20.0, 20.0], CourseNames[0], 0.5, 100, ModelVersion)

  /** The weights used for a response that carries none. */
  const DefaultWeights: WeightMap :=
    [("ti", Some(5.0)), ("enfermagem", Some(5.0)), ("logistica", Some(5.0)),
     ("administracao", Some(5.0)), ("estetica", Some(5.0))]

  // ---------------------------------------------------------------------------
  // Feature row
  // ---------------------------------------------------------------------------

  /** `response.get(field, 0)`. */
  function FieldOrZero(v: Option<int>): int {
    match v
    case Some(x) => x
    case None => 0
  }

  /** The three features of one response. */
  function Triple(r: Response): seq<int> {
    [FieldOrZero(r.questionId), FieldOrZero(r.selectedOptionId), FieldOrZero(r.responseTimeMs)]
  }

  /** The features of all responses, three per response, in order. */
  function Flatten(rs: seq<Response>): seq<int> {
    if |rs| == 0 then [] else Flatten(rs[..|rs| - 1]) + Triple(rs[|rs| - 1])
  }

  /** The classifier's row length: the number of feature names, or 20 when there are none. */
  function TargetLength(featureNames: seq<string>): nat {
    if |featureNames| > 0 then |featureNames| else DefaultFeatureCount
  }

  /** A short row is padded with zeros at the end; a long one keeps its prefix. */
  function FitTo(f: seq<int>, n: nat): seq<int> {
    if |f| < n then f + seq(n - |f|, _ => 0)
    else if |f| > n then f[..n]
    else f
  }

  function FeatureVector(rs: seq<Response>, n: nat): seq<int> {
    FitTo(Flatten(rs), n)
  }

  lemma {:induction false} FlattenAt(rs: seq<Response>, i: nat)
    requires i < 3 * |rs|
    ensures |Flatten(rs)| == 3 * |rs|
    ensures Flatten(rs)[i] == Triple(rs[i / 3])[i % 3]
  {
    var n := |rs|;
    var front := rs[..n - 1];
    if i < 3 * (n - 1) {
      FlattenAt(front, i);
      assert front[i / 3] == rs[i / 3];
    } else {
      if n > 1 {
        FlattenAt(front, 0);
      }
      assert |Flatten(front)| == 3 * (n - 1);
      assert i / 3 == n - 1;
    }
  }

  /** The feature row has the target length; position `i` holds feature `i % 3` of
      response `i / 3` while there is one, and 0 after that. */
  lemma FeatureVectorAt(rs: seq<Response>, n: nat, i: nat)
    requires i < n
    ensures |FeatureVector(rs, n)| == n
    ensures FeatureVector(rs, n)[i] == if i < 3 * |rs| then Triple(rs[i / 3])[i % 3] else 0
  {
    if |rs| > 0 {
      FlattenAt(rs, 0);
    }
    if i < 3 * |rs| {
      FlattenAt(rs, i);
    }
  }

  /** `preprocess_responses`: builds the feature row by extending a list, then pads
      or truncates it to the classifier's length. */
  method PreprocessResponses(responses: seq<Response>, featureNames: seq<string>)
    returns (features: seq<int>)
    ensures features == FeatureVector(responses, TargetLength(featureNames))
  {
    features := [];
    var i := 0;
    while i < |responses|
      invariant 0 <= i <= |responses|
      invariant features == Flatten(responses[..i])
    {
      var response := responses[i];
      var questionId := FieldOrZero(response.questionId);
      var optionId := FieldOrZero(response.selectedOptionId);
      var responseTime := FieldOrZero(response.responseTimeMs);
      features := features + [questionId, optionId, responseTime];
      assert responses[..i + 1][..i] == responses[..i];
      i := i + 1;
    }
    assert responses[..i] == responses;
    var targetLength := if |featureNames| > 0 then |featureNames| else DefaultFeatureCount;
    if |features| < targetLength {
      features := features + seq(targetLength - |features|, _ => 0);
    } else if |features| > targetLength {
      features := features[..targetLength];
    }
  }

  // ---------------------------------------------------------------------------
  // Weight lookup
  // ---------------------------------------------------------------------------

  /** `key in d`. */
  predicate HasKey(w: Entries, key: string) {
    exists i :: 0 <= i < |w| && w[i].0 == key
  }

  /** Some value of the dictionary is `None`. */
  predicate HasNone(w: Entries) {
    exists i :: 0 <= i < |w| && w[i].1.None?
  }

  /** `d.get(key)`: the value stored under `key`, when the key is present. */
  function Find(w: Entries, key: string): (r: Option<Option<real>>)
    ensures r.Some? <==> HasKey(w, key)
    ensures r.Some? ==> (key, r.value) in w
  {
    if |w| == 0 then None
    else if w[0].0 == key then Some(w[0].1)
    else
      var r := Find(w[1..], key);
      assert HasKey(w[1..], key) ==> HasKey(w, key);
      assert HasKey(w, key) && w[0].0 != key ==> HasKey(w[1..], key) by {
        if HasKey(w, key) && w[0].0 != key {
          var i :| 0 <= i < |w| && w[i].0 == key;
          assert w[1..][i - 1].0 == key;
        }
      }
      r
  }

  /** `sum(weights.values())`: `None` exactly when a value is `None`, since adding
      `None` raises. */
  function SumValues(w: Entries): (r: Option<real>)
    ensures r.None? <==> HasNone(w)
  {
    if |w| == 0 then Some(0.0)
    else
      var rest := SumValues(w[1..]);
      assert HasNone(w[1..]) ==> HasNone(w);
      assert HasNone(w) && w[0].1.Some? ==> HasNone(w[1..]) by {
        if HasNone(w) && w[0].1.Some? {
          var i :| 0 <= i < |w| && w[i].1.None?;
          assert w[1..][i - 1].1.None?;
        }
      }
      if w[0].1.None? || rest.None? then None
      else Some(w[0].1.value + rest.value)
  }

  /** The key with the `weight_` prefix that the scorer looks up first for course `c`
      (for `ti` the source spells it out, with the same result). */
  function PrefixedKey(c: nat): string
    requires c < CourseCount
  {
    "weight_" + CourseKeys[c]
  }

  /** `weights.get("weight_<c>", weights.get("<c>", 5.0))` for course position `c`;
      `None` when the value found is `None`, which then raises. */
  function CourseWeight(w: Entries, c: nat): (r: Option<real>)
    requires c < CourseCount
    ensures r.None? ==> SumValues(w).None?
  {
    match Find(w, PrefixedKey(c))
    case Some(v) => v
    case None =>
      match Find(w, CourseKeys[c])
      case Some(v) => v
      case None => Some(DefaultWeight)
  }

  // ---------------------------------------------------------------------------
  // Weighted scores
  // ---------------------------------------------------------------------------

  /** `response.get("weights", {... 5.0 ...})`. */
  function WeightsOf(r: Response): WeightMap {
    match r.weights
    case Some(w) => w
    case None => DefaultWeights
  }

  /** Some response's weight dictionary holds a `None`, so the weighted-score loop raises. */
  predicate Raises(rs: seq<Response>) {
    exists i :: 0 <= i < |rs| && SumValues(WeightsOf(rs[i])).None?
  }

  function Contribution(r: Response, c: nat): real
    requires c < CourseCount
  {
    match CourseWeight(WeightsOf(r), c)
    case Some(x) => x
    case None => 0.0
  }

  /** The un-normalised score of course `c`: its weights added over all responses. */
  function RawScore(rs: seq<Response>, c: nat): real
    requires c < CourseCount
  {
    if |rs| == 0 then 0.0 else RawScore(rs[..|rs| - 1], c) + Contribution(rs[|rs| - 1], c)
  }

  function RawScores(rs: seq<Response>): seq<real> {
    [RawScore(rs, 0), RawScore(rs, 1), RawScore(rs, 2), RawScore(rs, 3), RawScore(rs, 4)]
  }

  function ResponseTotal(r: Response): real {
    match SumValues(WeightsOf(r))
    case Some(x) => x
    case None => 0.0
  }

  /** `total_weight`: every value of every weight dictionary, added up. */
  function TotalWeight(rs: seq<Response>): real {
    if |rs| == 0 then 0.0 else TotalWeight(rs[..|rs| - 1]) + ResponseTotal(rs[|rs| - 1])
  }

  /** `(score / total_weight) * 100`. */
  function Percent(score: real, total: real): real
    requires total > 0.0
  {
    score / total * 100.0
  }

  /** Scores divided by the total and scaled to 100, or left as they are when the total is not positive. */
  function Normalise(raw: seq<real>, total: real): seq<real>
    requires |raw| == CourseCount
  {
    if total > 0.0 then seq(CourseCount, c requires 0 <= c < CourseCount => Percent(raw[c], total))
    else raw
  }

  /** `calculate_weighted_scores`: the five scores, or `None` when it raises. */
  function WeightedScores(rs: seq<Response>): Option<seq<real>> {
    if Raises(rs) then None else Some(Normalise(RawScores(rs), TotalWeight(rs)))
  }

  /** The prefix of `rs` one response longer: its last element is `rs[i]`. */
  lemma PrefixStep(rs: seq<Response>, i: nat)
    requires i < |rs|
    ensures rs[..i + 1][..i] == rs[..i] && rs[..i + 1][i] == rs[i] && |rs[..i + 1]| == i + 1
  {
  }

  /** One more response adds its contribution to every course's raw score. */
  lemma RawScoreStep(rs: seq<Response>, i: nat)
    requires i < |rs|
    ensures forall d :: 0 <= d < CourseCount ==> RawScore(rs[..i + 1], d) == RawScore(rs[..i], d) + Contribution(rs[i], d)
  {
    PrefixStep(rs, i);
  }

  /** One more response adds all its weights to the total. */
  lemma TotalWeightStep(rs: seq<Response>, i: nat)
    requires i < |rs|
    ensures TotalWeight(rs[..i + 1]) == TotalWeight(rs[..i]) + ResponseTotal(rs[i])
  {
    PrefixStep(rs, i);
  }

  /** One more response raises only if its own dictionary holds a `None`. */
  lemma RaisesStep(rs: seq<Response>, i: nat)
    requires i < |rs|
    ensures Raises(rs[..i + 1]) <==> Raises(rs[..i]) || SumValues(WeightsOf(rs[i])).None?
  {
    var done := rs[..i + 1];
    PrefixStep(rs, i);
    assert forall j :: 0 <= j < i ==> done[j] == rs[..i][j];
  }

  /** A five-element sequence is the display of its elements. */
  lemma FiveScores(s: seq<real>, a: real, b: real, c: real, d: real, e: real)
    requires |s| == CourseCount && s[0] == a && s[1] == b && s[2] == c && s[3] == d && s[4] == e
    ensures s == [a, b, c, d, e]
  {
  }

  /** One dictionary holding a `None` makes the whole calculation raise. */
  lemma RaisingResponse(rs: seq<Response>, i: nat)
    requires i < |rs| && SumValues(WeightsOf(rs[i])).None?
    ensures WeightedScores(rs) == None
  {
  }

  /** `calculate_weighted_scores`, with its loops over responses and courses. */
  method CalculateWeightedScores(responses: seq<Response>) returns (result: Option<seq<real>>)
    ensures result == WeightedScores(responses)
    ensures result.Some? ==> |result.value| == CourseCount
  {
    var scores: seq<real> := [0.0, 0.0, 0.0, 0.0, 0.0];
    var totalWeight: real := 0.0;
    var i := 0;
    while i < |responses|
      invariant 0 <= i <= |responses|
      invariant !Raises(responses[..i])
      invariant |scores| == CourseCount
      invariant forall d :: 0 <= d < CourseCount ==> scores[d] == RawScore(responses[..i], d)
      invariant totalWeight == TotalWeight(responses[..i])
    {
      RawScoreStep(responses, i);
      TotalWeightStep(responses, i);
      RaisesStep(responses, i);
      var added := AddResponseWeights(scores, responses[i]);
      if added.None? {
        RaisingResponse(responses, i);
        return None;
      }
      scores := added.value;
      var sum := SumValues(WeightsOf(responses[i]));
      if sum.None? {
        RaisingResponse(responses, i);
        return None;
      }
      totalWeight := totalWeight + sum.value;
      i := i + 1;
    }
    assert responses[..i] == responses;
    FiveScores(scores, RawScore(responses, 0), RawScore(responses, 1), RawScore(responses, 2),
      RawScore(responses, 3), RawScore(responses, 4));
    scores := NormaliseScores(scores, totalWeight);
    result := Some(scores);
  }

  /** The inner loop of `calculate_weighted_scores`: each course's weight from one
      response added to its score, or `None` where adding a null value raises. */
  method AddResponseWeights(scores: seq<real>, r: Response) returns (next: Option<seq<real>>)
    requires |scores| == CourseCount
    ensures next.None? ==> SumValues(WeightsOf(r)).None?
    ensures next.Some? ==> |next.value| == CourseCount
    ensures next.Some? ==> forall d :: 0 <= d < CourseCount ==> next.value[d] == scores[d] + Contribution(r, d)
  {
    var weights := WeightsOf(r);
    var current := scores;
    var c := 0;
    while c < CourseCount
      invariant 0 <= c <= CourseCount && |current| == CourseCount
      invariant forall d :: 0 <= d < c ==> current[d] == scores[d] + Contribution(r, d)
      invariant forall d :: c <= d < CourseCount ==> current[d] == scores[d]
    {
      var w := CourseWeight(weights, c);
      if w.None? {
        return None;
      }
      current := current[c := current[c] + w.value];
      c := c + 1;
    }
    return Some(current);
  }

  /** The division step of `calculate_weighted_scores`, one course at a time. */
  method NormaliseScores(raw: seq<real>, total: real) returns (scores: seq<real>)
    requires |raw| == CourseCount
    ensures scores == Normalise(raw, total)
  {
    scores := raw;
    if total > 0.0 {
      var c := 0;
      while c < CourseCount
        invariant 0 <= c <= CourseCount && |scores| == CourseCount
        invariant forall d :: 0 <= d < c ==> scores[d] == Percent(raw[d], total)
        invariant forall d :: c <= d < CourseCount ==> scores[d] == raw[d]
      {
        scores := scores[c := Percent(scores[c], total)];
        c := c + 1;
      }
    }
  }

  // ---------------------------------------------------------------------------
  // Boost, recommendation, confidence
  // ---------------------------------------------------------------------------

  /** The score a classifier index boosts: `course_mapping.get(index, "Tecnologia da
      Informação")`, mapped back to its key; an unknown index boosts `ti`. */
  function BoostedCourse(index: int): (c: nat)
    ensures c < CourseCount
  {
    if 0 <= index < CourseCount then index else 0
  }

  /** The boosted course is the one the classifier names, and TI for an index it does not know. */
  lemma BoostedCourseName(index: int)
    ensures 0 <= index < CourseCount ==> CourseNames[BoostedCourse(index)] == CourseNames[index]
    ensures !(0 <= index < CourseCount) ==> CourseNames[BoostedCourse(index)] == "Tecnologia da Informação"
  {
  }

  /** `weighted_scores[key] *= 1.2` for the classifier's course. */
  function Boost(s: seq<real>, index: int): seq<real>
    requires |s| == CourseCount
  {
    s[BoostedCourse(index) := s[BoostedCourse(index)] * BoostFactor]
  }

  /** The five scores added up. */
  function ScoreSum(s: seq<real>): real
    requires |s| == CourseCount
  {
    s[0] + s[1] + s[2] + s[3] + s[4]
  }

  /** The boost multiplies the predicted course's score by 1.2, leaves the other four
      as they are, and renormalises nothing: the total grows by a fifth of that score. */
  lemma BoostChangesOneScore(s: seq<real>, index: int)
    requires |s| == CourseCount
    ensures |Boost(s, index)| == CourseCount
    ensures Boost(s, index)[BoostedCourse(index)] == s[BoostedCourse(index)] * 1.2
    ensures forall c :: 0 <= c < CourseCount && c != BoostedCourse(index) ==> Boost(s, index)[c] == s[c]
    ensures ScoreSum(Boost(s, index)) == ScoreSum(s) + s[BoostedCourse(index)] / 5.0
  {
  }

  /** `max(scores, key=scores.get)`: the first position holding the largest score. */
  function ArgMax(s: seq<real>): (k: nat)
    requires |s| > 0
    ensures k < |s|
    ensures forall j :: 0 <= j < |s| ==> s[j] <= s[k]
    ensures forall j :: 0 <= j < k ==> s[j] < s[k]
  {
    if |s| == 1 then 0
    else
      var k := ArgMax(s[..|s| - 1]);
      if s[|s| - 1] > s[k] then |s| - 1 else k
  }

  /** `sorted(scores, reverse=True)[1]`: the largest score once one copy of the
      largest has been set aside. */
  function SecondLargest(s: seq<real>): (m: real)
    requires |s| > 1
    ensures exists j :: 0 <= j < |s| && j != ArgMax(s) && s[j] == m
    ensures forall j :: 0 <= j < |s| && j != ArgMax(s) ==> s[j] <= m
  {
    var k := ArgMax(s);
    var rest := s[..k] + s[k + 1..];
    var a := ArgMax(rest);
    assert forall j :: 0 <= j < k ==> s[j] == rest[j];
    assert forall j :: k < j < |s| ==> s[j] == rest[j - 1];
    assert if a < k then s[a] == rest[a] else s[a + 1] == rest[a];
    rest[a]
  }

  /** `min(max(x, 0.1), 1.0)`. */
  function Clamp(x: real): (r: real)
    ensures 0.1 <= r <= 1.0
    ensures 0.1 <= x <= 1.0 ==> r == x
  {
    if x < 0.1 then 0.1 else if x > 1.0 then 1.0 else x
  }

  /** The gap between the two largest scores over 100, clamped to [0.1, 1.0]; 0.8
      (clamped) when there is a single score. */
  function Confidence(s: seq<real>): (r: real)
    requires |s| > 0
    ensures 0.1 <= r <= 1.0
    ensures |s| > 1 && s[ArgMax(s)] - SecondLargest(s) >= 100.0 ==> r == 1.0
    ensures |s| > 1 && s[ArgMax(s)] - SecondLargest(s) <= 10.0 ==> r == 0.1
  {
    Clamp(if |s| > 1 then (s[ArgMax(s)] - SecondLargest(s)) / 100.0 else 0.8)
  }

  /** The successful answer for the final scores. */
  function Recommendation(s: seq<real>, elapsedMs: int): ClassificationResult
    requires |s| == CourseCount
  {
    ClassificationResult(s, CourseNames[ArgMax(s)], Confidence(s), elapsedMs, ModelVersion)
  }

  /** `classify_responses`: weighted scores, the optional boost, the recommended
      course and the confidence; the fallback when any step raises. */
  function Classification(rs: seq<Response>, model: Model, elapsedMs: int): (r: ClassificationResult)
    ensures |r.scores| == CourseCount
    ensures r.modelVersion == ModelVersion
    ensures 0.1 <= r.confidenceScore <= 1.0
    ensures r.recommendedCourse == CourseNames[ArgMax(r.scores)]
  {
    match WeightedScores(rs)
    case None =>
      assert ArgMax(Fallback.scores) == 0 by {
        var k := ArgMax(Fallback.scores);
        assert Fallback.scores[0] == Fallback.scores[k];
      }
      Fallback
    case Some(s) =>
      match model.classifier
      case None => Recommendation(s, elapsedMs)
      case Some(predict) =>
        match predict(FeatureVector(rs, TargetLength(model.featureNames)))
        case Fails =>
          assert ArgMax(Fallback.scores) == 0 by {
            var k := ArgMax(Fallback.scores);
            assert Fallback.scores[0] == Fallback.scores[k];
          }
          Fallback
        case Label(index) => Recommendation(Boost(s, index), elapsedMs)
  }

  /** `weighted_scores[course_key] *= 1.2`, on the score of the classifier's course. */
  method BoostInPlace(scores: seq<real>, index: int) returns (boosted: seq<real>)
    requires |scores| == CourseCount
    ensures boosted == Boost(scores, index)
  {
    var c := BoostedCourse(index);
    boosted := scores[c := scores[c] * BoostFactor];
  }

  /** `classify_responses`, step by step, with the boost applied in place. */
  method ClassifyResponses(responses: seq<Response>, model: Model, elapsedMs: int)
    returns (result: ClassificationResult)
    ensures result == Classification(responses, model, elapsedMs)
  {
    var weighted := CalculateWeightedScores(responses);
    if weighted.None? {
      return Fallback;
    }
    var scores := weighted.value;
    if model.classifier.Some? {
      var features := PreprocessResponses(responses, model.featureNames);
      var prediction := model.classifier.value(features);
      if prediction.Fails? {
        return Fallback;
      }
      scores := BoostInPlace(scores, prediction.index);
    }
    var recommended := ArgMax(scores);
    result := ClassificationResult(scores, CourseNames[recommended], Confidence(scores), elapsedMs, ModelVersion);
    assert result == Recommendation(scores, elapsedMs);
  }
}
