/**
 * `apps/ml/services.py`, `AIMatchingService`: candidate selection, the nine-feature rows, the
 * scoring rules, the fallback ranking, the re-ranking by a language model and the match reasons.
 *
 * The loaded LightGBM model, the cosine of two vectors and the parsed reply of the language
 * model are given from outside; the order's embedding comes from an `EmbeddingStore`.
 */
module MlServices {
  import opened Optional
  import opened Text
  import opened Http
  import opened Money
  import opened Tables
  import opened Sorting
  import opened TutorModels
  import opened OrderModels
  import opened Embeddings

  // ---------------------------------------------------------------- _get_candidate_tutors

  /** `candidates[:200]`. */
  const MaxCandidates: nat := 200

  /** `is_verified=True, user__is_active=True, subjects__in=[order.subject]`. */
  predicate Eligible(o: Order, t: Tutor) {
    t.isVerified && t.user.isActive && Teaches(t, o.subject.id)
  }

  /** `hourly_rate <= budget_max * 1.1`, compared exactly in kopecks. */
  predicate Affordable(o: Order, t: Tutor) {
    10 * t.hourlyRate <= 11 * o.budgetMax
  }

  /** `Q(city__icontains=order.city) | Q(region__icontains=order.region)`. */
  predicate Nearby(o: Order, t: Tutor) {
    Contains(Lower(t.city), Lower(o.city)) || Contains(Lower(t.region), Lower(o.region))
  }

  /** `order.format_offline and order.city`. */
  predicate OfflineWithCity(o: Order) {
    o.formatOffline && o.city != ""
  }

  /** Every condition a candidate meets; the budget and the place apply only when the order asks. */
  predicate Candidate(o: Order, t: Tutor) {
    && Eligible(o, t)
    && (o.budgetMax > 0 ==> Affordable(o, t))
    && (OfflineWithCity(o) ==> Nearby(o, t))
  }

  /** The filters of `_get_candidate_tutors`, one after another. */
  function Filtered(o: Order, tutors: seq<Tutor>): seq<Tutor> {
    var eligible := Where(tutors, (t: Tutor) => Eligible(o, t));
    var affordable := if o.budgetMax > 0 then Where(eligible, (t: Tutor) => Affordable(o, t)) else eligible;
    if OfflineWithCity(o) then Where(affordable, (t: Tutor) => Nearby(o, t)) else affordable
  }

  /** `_get_candidate_tutors`: the filtered tutors, at most the first 200. */
  function CandidateTutors(o: Order, tutors: seq<Tutor>): seq<Tutor> {
    Take(Filtered(o, tutors), MaxCandidates)
  }

  /** The filters admit exactly the tutors meeting every condition, and keep the key unique. */
  lemma FilteredSpec(o: Order, tutors: seq<Tutor>)
    ensures forall t :: t in Filtered(o, tutors) <==> t in tutors && Candidate(o, t)
    ensures KeysUnique(tutors, TutorKey) ==> KeysUnique(Filtered(o, tutors), TutorKey)
  {
    var eligible := Where(tutors, (t: Tutor) => Eligible(o, t));
    var affordable := if o.budgetMax > 0 then Where(eligible, (t: Tutor) => Affordable(o, t)) else eligible;
    if KeysUnique(tutors, TutorKey) {
      WhereKeepsKeysUnique(tutors, TutorKey, (t: Tutor) => Eligible(o, t));
      if o.budgetMax > 0 {
        WhereKeepsKeysUnique(eligible, TutorKey, (t: Tutor) => Affordable(o, t));
      }
      if OfflineWithCity(o) {
        WhereKeepsKeysUnique(affordable, TutorKey, (t: Tutor) => Nearby(o, t));
      }
    }
  }

  /**
   * Every candidate is a tutor meeting every condition; either all such tutors are candidates
   * or the cap of 200 is reached; no tutor appears twice.
   */
  lemma CandidatesSpec(o: Order, tutors: seq<Tutor>)
    ensures |CandidateTutors(o, tutors)| <= MaxCandidates
    ensures forall t :: t in CandidateTutors(o, tutors) ==> t in tutors && Candidate(o, t)
    ensures |CandidateTutors(o, tutors)| == MaxCandidates || forall t :: t in tutors && Candidate(o, t) ==> t in CandidateTutors(o, tutors)
    ensures KeysUnique(tutors, TutorKey) ==> KeysUnique(CandidateTutors(o, tutors), TutorKey)
  {
    var near := Filtered(o, tutors);
    FilteredSpec(o, tutors);
    var c := Take(near, MaxCandidates);
    forall t | t in c ensures t in near {
      var i :| 0 <= i < |c| && c[i] == t;
      assert near[i] == t;
    }
    if KeysUnique(tutors, TutorKey) {
      assert forall i :: 0 <= i < |c| ==> c[i] == near[i];
    }
  }

  /** The region filter with an empty order region admits every tutor. */
  lemma EmptyRegionAdmitsAll(o: Order, t: Tutor)
    requires o.region == ""
    ensures Nearby(o, t)
  {
    assert Lower(o.region) == "";
    ContainsAt(Lower(t.region), "", 0);
  }

  /** The exact budget test is the ten-percent tolerance the comment promises. */
  lemma AffordableIsTenPercent(o: Order, t: Tutor)
    ensures Affordable(o, t) <==> Rubles(t.hourlyRate) <= Rubles(o.budgetMax) * 1.1
  {
  }

  /** `order.budget_max * 1.1` as written: a `Decimal` column value times a `float`. */
  function BudgetCapAsWritten(o: Order): Option<PyNumber> {
    PyMul(PyDecimal(Rubles(o.budgetMax)), PyFloat(1.1))
  }

  /** The written budget cap raises `TypeError` for every order. */
  lemma BudgetCapAsWrittenRaises(o: Order)
    ensures BudgetCapAsWritten(o).None?
  {
  }

  // ---------------------------------------------------------------- scoring rules

  /** `_calculate_availability_overlap`: a placeholder, 0.8 when both schedules are given. */
  function AvailabilityOverlap(o: Order, t: Tutor): real {
    if !Truthy(t.availability) || !Truthy(o.schedule) then 0.5 else 0.8
  }

  lemma AvailabilityDefaults(o: Order, t: Tutor)
    ensures AvailabilityOverlap(o, t) == 0.5 <==> !Truthy(t.availability) || !Truthy(o.schedule)
    ensures AvailabilityOverlap(o, t) == 0.5 || AvailabilityOverlap(o, t) == 0.8
  {
  }

  /** `_calculate_location_match`. */
  function LocationMatch(o: Order, t: Tutor): real {
    if !o.formatOffline then 1.0
    else if o.city != "" && t.city != "" then
      if Contains(Lower(t.city), Lower(o.city)) then 1.0
      else if o.region != "" && t.region != "" && Contains(Lower(t.region), Lower(o.region)) then 0.7
      else 0.3
    else 0.3
  }

  /**
   * The tiers: 1.0 for an order that is not offline or whose city occurs in the tutor's; 0.7
   * for a region match, reached only when both cities are given; 0.3 otherwise.
   */
  lemma LocationTiers(o: Order, t: Tutor)
    ensures LocationMatch(o, t) == 1.0 || LocationMatch(o, t) == 0.7 || LocationMatch(o, t) == 0.3
    ensures LocationMatch(o, t) == 1.0 <==>
      !o.formatOffline || (o.city != "" && t.city != "" && Contains(Lower(t.city), Lower(o.city)))
    ensures LocationMatch(o, t) == 0.7 <==>
      && o.formatOffline && o.city != "" && t.city != "" && !Contains(Lower(t.city), Lower(o.city))
      && o.region != "" && t.region != "" && Contains(Lower(t.region), Lower(o.region))
  {
  }

  /** `np.linalg.norm(v) == 0`: a Euclidean norm is zero exactly when every component is. */
  predicate ZeroNorm(v: seq<real>) {
    forall i :: 0 <= i < |v| ==> v[i] == 0.0
  }

  /** Python's falsity of a missing or empty vector. */
  predicate NoVector(v: Option<seq<real>>) {
    v.None? || v.value == []
  }

  /** The text the order's embedding is asked for. */
  function OrderText(o: Order): string {
    o.title + " " + o.description + " " + o.goalText
  }

  /** `_calculate_vector_similarity` given the order's embedding: the guards, then the cosine. */
  function Similarity(tutorVector: Option<seq<real>>, orderEmbedding: Option<seq<real>>,
                      cosine: (seq<real>, seq<real>) -> real): real
  {
    if NoVector(tutorVector) || NoVector(orderEmbedding) then 0.5
    else if ZeroNorm(tutorVector.value) || ZeroNorm(orderEmbedding.value) then 0.5
    else cosine(tutorVector.value, orderEmbedding.value)
  }

  /** The similarity is the neutral 0.5 unless both vectors are given with a non-zero component. */
  lemma SimilarityGuards(tutorVector: Option<seq<real>>, orderEmbedding: Option<seq<real>>,
                         cosine: (seq<real>, seq<real>) -> real)
    ensures NoVector(tutorVector) || NoVector(orderEmbedding) ==> Similarity(tutorVector, orderEmbedding, cosine) == 0.5
    ensures !NoVector(tutorVector) && !NoVector(orderEmbedding) ==>
      if ZeroNorm(tutorVector.value) || ZeroNorm(orderEmbedding.value) then Similarity(tutorVector, orderEmbedding, cosine) == 0.5
      else Similarity(tutorVector, orderEmbedding, cosine) == cosine(tutorVector.value, orderEmbedding.value)
  {
  }

  // ---------------------------------------------------------------- _generate_features

  const FeatureCount: nat := 9

  /** `max(order.budget_max, 1)`, in roubles. */
  function BudgetDivisor(o: Order): real {
    if Rubles(o.budgetMax) >= 1.0 then Rubles(o.budgetMax) else 1.0
  }

  /**
   * One feature row: rate, rate over budget, within budget, rating, review count, experience,
   * availability, location and similarity.
   */
  function FeatureRow(o: Order, t: Tutor, similarity: real): (r: seq<real>)
    ensures |r| == FeatureCount
  {
    [ Rubles(t.hourlyRate), Rubles(t.hourlyRate) / BudgetDivisor(o),
      if t.hourlyRate <= o.budgetMax then 1.0 else 0.0,
      t.rating, t.ratingCount as real, t.experienceYears as real,
      AvailabilityOverlap(o, t), LocationMatch(o, t), similarity ]
  }

  // ---------------------------------------------------------------- _rank_with_lightgbm

  /** A loaded model: the number of features it was trained on, and its score of a row. */
  datatype Model = Model(width: nat, score: seq<real> -> real)

  const NeutralScore: real := 0.5

  /** LightGBM refuses rows of another width than the model was trained on. */
  predicate Fits(m: Model, features: seq<seq<real>>) {
    forall i :: 0 <= i < |features| ==> |features[i]| == m.width
  }

  /** `_rank_with_lightgbm`: the model's scores, or 0.5 for every row when there is no model or it raises. */
  function LearnedScores(model: Option<Model>, features: seq<seq<real>>): (r: seq<real>)
    ensures |r| == |features|
  {
    if model.Some? && Fits(model.value, features) then
      seq(|features|, i requires 0 <= i < |features| => model.value.score(features[i]))
    else seq(|features|, _ => NeutralScore)
  }

  /** A model of another width than the rows scores every row 0.5. */
  lemma MismatchedModelIsNeutral(m: Model, features: seq<seq<real>>)
    requires features != [] && forall i :: 0 <= i < |features| ==> |features[i]| != m.width
    ensures forall i :: 0 <= i < |features| ==> LearnedScores(Some(m), features)[i] == NeutralScore
  {
    assert |features[0]| != m.width;
  }

  // ---------------------------------------------------------------- _fallback_ranking

  /** `1.0 - abs(hourly_rate - budget_max) / budget_max`, exactly. */
  function PriceScore(o: Order, t: Tutor): real
    requires o.budgetMax > 0
  {
    1.0 - Abs(t.hourlyRate - o.budgetMax) as real / o.budgetMax as real
  }

  function AtMostOne(x: real): real {
    if x <= 1.0 then x else 1.0
  }

  /** The fallback score: weighted rating, price, experience, review count, location and similarity. */
  function FallbackScore(o: Order, t: Tutor, similarity: real): real {
    t.rating / 5.0 * 0.3
    + (if o.budgetMax > 0 then (if PriceScore(o, t) > 0.0 then PriceScore(o, t) else 0.0) * 0.2 else 0.0)
    + AtMostOne(t.experienceYears as real / 10.0) * 0.2
    + AtMostOne(t.ratingCount as real / 100.0) * 0.1
    + LocationMatch(o, t) * 0.1
    + similarity * 0.1
  }

  lemma PriceScoreAtMostOne(o: Order, t: Tutor)
    requires o.budgetMax > 0
    ensures PriceScore(o, t) <= 1.0
  {
    var q := Abs(t.hourlyRate - o.budgetMax) as real / o.budgetMax as real;
    assert q >= 0.0;
  }

  /** With a rating in 0..5 and a cosine in -1..1 the fallback score lies in -0.07..1.0. */
  lemma FallbackScoreWithin(o: Order, t: Tutor, similarity: real)
    requires 0.0 <= t.rating <= 5.0 && -1.0 <= similarity <= 1.0
    ensures -0.07 <= FallbackScore(o, t, similarity) <= 1.0
  {
    LocationTiers(o, t);
    if o.budgetMax > 0 {
      PriceScoreAtMostOne(o, t);
    }
  }

  /** Without a budget the tutor's rate does not affect the fallback score. */
  lemma FallbackIgnoresRateWithoutBudget(o: Order, t: Tutor, rate: Cents, similarity: real)
    requires o.budgetMax <= 0
    ensures FallbackScore(o, t.(hourlyRate := rate), similarity) == FallbackScore(o, t, similarity)
  {
  }

  /** A higher rating, all else equal, never lowers the fallback score. */
  lemma FallbackPrefersRating(o: Order, t: Tutor, rating: real, similarity: real)
    requires rating >= t.rating
    ensures FallbackScore(o, t.(rating := rating), similarity) >= FallbackScore(o, t, similarity)
  {
  }

  /** `1.0 - abs(...) / budget_max` as written: a `float` minus a `Decimal`. */
  function PriceScoreAsWritten(o: Order, t: Tutor): Option<PyNumber>
    requires o.budgetMax > 0
  {
    PySub(PyFloat(1.0), PyDecimal(Abs(t.hourlyRate - o.budgetMax) as real / o.budgetMax as real))
  }

  /** The written price score raises `TypeError` whenever the order has a budget. */
  lemma PriceScoreAsWrittenRaises(o: Order, t: Tutor)
    requires o.budgetMax > 0
    ensures PriceScoreAsWritten(o, t).None?
  {
  }

  /** `key=lambda x: x[1], reverse=True`. */
  function ByScore(a: (Tutor, real), b: (Tutor, real)): bool {
    a.1 >= b.1
  }

  lemma ByScoreIsPreorder()
    ensures TotalPreorder(ByScore)
  {
  }

  /** `zip(candidates, scores)`. */
  function Zip(candidates: seq<Tutor>, scores: seq<real>): (r: seq<(Tutor, real)>)
    requires |scores| == |candidates|
    ensures |r| == |candidates|
  {
    seq(|candidates|, i requires 0 <= i < |candidates| => (candidates[i], scores[i]))
  }

  /** `sorted(..., key=score, reverse=True)`: a permutation, best first, ties in input order. */
  lemma RankingSpec(scored: seq<(Tutor, real)>, z: (Tutor, real))
    ensures multiset(Sort(scored, ByScore)) == multiset(scored)
    ensures Sorted(Sort(scored, ByScore), ByScore)
    ensures Peers(Sort(scored, ByScore), z, ByScore) == Peers(scored, z, ByScore)
  {
    ByScoreIsPreorder();
    SortPermutation(scored, ByScore);
    SortSorted(scored, ByScore);
    SortStable(scored, z, ByScore);
  }

  // ---------------------------------------------------------------- match reasons

  /** One match reason; the language model's own reasons are `Given`. */
  datatype Reason =
    | Specialises(subject: string)
    | WithinBudget
    | HighRating(rating: real)
    | Experienced(years: nat)
    | InYourCity
    | Given(text: string)

  /** The position of each reason kind in the fixed order of `_get_match_reasons`. */
  function Rank(r: Reason): nat {
    match r
    case Specialises(_) => 0
    case WithinBudget => 1
    case HighRating(_) => 2
    case Experienced(_) => 3
    case InYourCity => 4
    case Given(_) => 5
  }

  predicate InBudget(o: Order, t: Tutor) {
    o.budgetMin <= t.hourlyRate <= o.budgetMax
  }

  predicate InCity(o: Order, t: Tutor) {
    o.formatOffline && t.city != "" && o.city != "" && Contains(Lower(t.city), Lower(o.city))
  }

  /** `_get_match_reasons`: each reason appended when its condition holds. */
  function MatchReasons(o: Order, t: Tutor): seq<Reason> {
    (if Teaches(t, o.subject.id) then [Specialises(o.subject.name)] else [])
    + (if InBudget(o, t) then [WithinBudget] else [])
    + (if t.rating >= 4.5 then [HighRating(t.rating)] else [])
    + (if t.experienceYears >= 5 then [Experienced(t.experienceYears)] else [])
    + (if InCity(o, t) then [InYourCity] else [])
  }

  /** Each reason is present exactly when its condition holds. */
  lemma MatchReasonsPresent(o: Order, t: Tutor)
    ensures var r := MatchReasons(o, t);
      && (Specialises(o.subject.name) in r <==> Teaches(t, o.subject.id))
      && (WithinBudget in r <==> InBudget(o, t))
      && (HighRating(t.rating) in r <==> t.rating >= 4.5)
      && (Experienced(t.experienceYears) in r <==> t.experienceYears >= 5)
      && (InYourCity in r <==> InCity(o, t))
  {
  }

  /** The reasons come in the fixed order, each kind at most once. */
  lemma MatchReasonsOrdered(o: Order, t: Tutor)
    ensures var r := MatchReasons(o, t);
      forall i, j :: 0 <= i < j < |r| ==> Rank(r[i]) < Rank(r[j])
  {
    ReasonsRise(Teaches(t, o.subject.id), InBudget(o, t), t.rating >= 4.5, t.experienceYears >= 5, InCity(o, t),
                o.subject.name, t.rating, t.experienceYears);
  }

  /** Whichever conditions hold, the five reason kinds appended in their order have rising ranks. */
  lemma ReasonsRise(subject: bool, budget: bool, rated: bool, experienced: bool, city: bool,
                    name: string, rating: real, years: nat)
    ensures RanksRise((if subject then [Specialises(name)] else [])
      + (if budget then [WithinBudget] else [])
      + (if rated then [HighRating(rating)] else [])
      + (if experienced then [Experienced(years)] else [])
      + (if city then [InYourCity] else []))
  {
    var r0 := if subject then [Specialises(name)] else [];
    var r1 := r0 + (if budget then [WithinBudget] else []);
    var r2 := r1 + (if rated then [HighRating(rating)] else []);
    var r3 := r2 + (if experienced then [Experienced(years)] else []);
    assert RanksRise(r0) && forall i :: 0 <= i < |r0| ==> Rank(r0[i]) < 1;
    AppendRanked(r0, WithinBudget, budget, 2);
    AppendRanked(r1, HighRating(rating), rated, 3);
    AppendRanked(r2, Experienced(years), experienced, 4);
    AppendRanked(r3, InYourCity, city, 5);
  }

  /** Reasons whose ranks rise along the sequence. */
  ghost predicate RanksRise(r: seq<Reason>) {
    forall i, j :: 0 <= i < j < |r| ==> Rank(r[i]) < Rank(r[j])
  }

  /** A reason ranked above all before it, appended or not, keeps the ranks rising. */
  lemma AppendRanked(r: seq<Reason>, x: Reason, c: bool, n: nat)
    requires RanksRise(r) && forall i :: 0 <= i < |r| ==> Rank(r[i]) < Rank(x)
    requires Rank(x) + 1 == n
    ensures var r' := r + (if c then [x] else []);
      RanksRise(r') && forall i :: 0 <= i < |r'| ==> Rank(r'[i]) < n
  {
  }

  /** A city reason is given only where the location score is the full 1.0. */
  lemma CityReasonMeansFullLocation(o: Order, t: Tutor)
    requires InCity(o, t)
    ensures LocationMatch(o, t) == 1.0
  {
  }

  // ---------------------------------------------------------------- _llm_rerank after parsing

  /** An item of the parsed reply: its `id` (None when the key is missing) and its `reason`. */
  datatype Pick = Pick(id: Option<int>, reason: Option<string>)

  /** A ranked tutor with its score and reasons. */
  datatype Match = Match(tutor: Tutor, score: real, reasons: seq<Reason>)

  const LlmScore: real := 0.9

  /** `next((t for t in candidates if t.id == tutor_id), None)`. */
  function Named(candidates: seq<Tutor>, id: int): (r: Option<Tutor>)
    ensures r.Some? ==> r.value in candidates && r.value.id == id
  {
    if id < 0 then None else Find(candidates, TutorKey, id as nat)
  }

  /** Every item carries an `id`; reading a missing one raises `KeyError`. */
  predicate WellFormed(picks: seq<Pick>) {
    forall i :: 0 <= i < |picks| ==> picks[i].id.Some?
  }

  /** The picks naming a candidate, in reply order, each with score 0.9 and its reason ("" by default). */
  function Picked(candidates: seq<Tutor>, picks: seq<Pick>): (r: seq<Match>)
    requires WellFormed(picks)
    ensures |r| <= |picks|
    ensures forall m :: m in r ==> m.tutor in candidates && m.score == LlmScore && |m.reasons| == 1
  {
    if picks == [] then []
    else
      var last := picks[|picks| - 1];
      Picked(candidates, picks[..|picks| - 1])
      + match Named(candidates, last.id.value)
        case None => []
        case Some(t) => [Match(t, LlmScore, [Given(last.reason.GetOr(""))])]
  }

  /** What `_llm_rerank` returns for a reply: None when the call or parsing failed or an id is missing. */
  function Reranked(candidates: seq<Tutor>, reply: Option<seq<Pick>>, limit: int): Option<seq<Match>> {
    if reply.None? || !WellFormed(reply.value) then None
    else Some(PySliceTo(Picked(candidates, reply.value), limit))
  }

  /** A re-ranking holds only candidates, scored 0.9, and at most `limit` of them. */
  lemma RerankedSpec(candidates: seq<Tutor>, reply: Option<seq<Pick>>, limit: int)
    ensures var r := Reranked(candidates, reply, limit);
      && (r.Some? <==> reply.Some? && WellFormed(reply.value))
      && (r.Some? ==> forall m :: m in r.value ==> m.tutor in candidates && m.score == LlmScore)
      && (r.Some? && limit >= 0 ==> |r.value| <= limit)
  {
    if reply.Some? && WellFormed(reply.value) {
      var p := Picked(candidates, reply.value);
      var r := PySliceTo(p, limit);
      forall m | m in r ensures m in p {
        var i :| 0 <= i < |r| && r[i] == m;
        assert p[i] == m;
      }
    }
  }

  /** The loop of `_llm_rerank` over the parsed reply. */
  method LlmRerank(candidates: seq<Tutor>, reply: Option<seq<Pick>>, limit: int) returns (r: Option<seq<Match>>)
    ensures r == Reranked(candidates, reply, limit)
  {
    if reply.None? {
      return None;
    }
    var picks := reply.value;
    var reranked: seq<Match> := [];
    for i := 0 to |picks|
      invariant WellFormed(picks[..i])
      invariant reranked == Picked(candidates, picks[..i])
    {
      var item := picks[i];
      if item.id.None? {
        return None;
      }
      assert picks[..i + 1][..i] == picks[..i];
      var tutor := Named(candidates, item.id.value);
      if tutor.Some? {
        reranked := reranked + [Match(tutor.value, LlmScore, [Given(item.reason.GetOr(""))])];
      }
    }
    assert picks[..|picks|] == picks;
    r := Some(PySliceTo(reranked, limit));
  }

  // ---------------------------------------------------------------- get_ai_matches

  function Firsts(ranked: seq<(Tutor, real)>): (r: seq<Tutor>)
    ensures |r| == |ranked|
  {
    seq(|ranked|, i requires 0 <= i < |ranked| => ranked[i].0)
  }

  /** The ranked tutors with their scores and reasons. */
  function WithReasons(o: Order, ranked: seq<(Tutor, real)>): (r: seq<Match>)
    ensures |r| == |ranked|
  {
    seq(|ranked|, i requires 0 <= i < |ranked| => Match(ranked[i].0, ranked[i].1, MatchReasons(o, ranked[i].0)))
  }

  /**
   * The composition after ranking: a re-ranking is asked for only when the first `2 * limit`
   * ranked tutors are more than `limit`, and used only when it is not empty; otherwise the
   * first `limit` ranked tutors with their reasons.
   */
  function Assemble(o: Order, ranked: seq<(Tutor, real)>, limit: int, reply: Option<seq<Pick>>): seq<Match> {
    var top := Firsts(PySliceTo(ranked, 2 * limit));
    var reranked := if |top| > limit then Reranked(top, reply, limit) else None;
    if reranked.Some? && reranked.value != [] then reranked.value
    else WithReasons(o, PySliceTo(ranked, limit))
  }

  /** At most `limit` matches, each of a ranked tutor. */
  lemma AssembleSpec(o: Order, ranked: seq<(Tutor, real)>, limit: int, reply: Option<seq<Pick>>)
    ensures limit >= 0 ==> |Assemble(o, ranked, limit, reply)| <= limit
    ensures forall m :: m in Assemble(o, ranked, limit, reply) ==> m.tutor in Firsts(ranked)
    ensures ranked == [] ==> Assemble(o, ranked, limit, reply) == []
  {
    var top := Firsts(PySliceTo(ranked, 2 * limit));
    RerankedSpec(top, reply, limit);
    forall t | t in top ensures t in Firsts(ranked) {
      var i :| 0 <= i < |top| && top[i] == t;
      assert Firsts(ranked)[i] == t;
    }
    if ranked == [] && reply.Some? && WellFormed(reply.value) {
      var r := Reranked(top, reply, limit).value;
      assert |r| == 0 || r[0] in r;
    }
    var plain := PySliceTo(ranked, limit);
    forall m | m in WithReasons(o, plain) ensures m.tutor in Firsts(ranked) {
      var i :| 0 <= i < |plain| && WithReasons(o, plain)[i] == m;
      assert m.tutor == Firsts(ranked)[i];
    }
  }

  /** The similarities given the order embedding obtained for each candidate. */
  function Similarities(candidates: seq<Tutor>, embeddings: seq<Option<seq<real>>>, cosine: (seq<real>, seq<real>) -> real): (r: seq<real>)
    requires |embeddings| == |candidates|
    ensures |r| == |candidates|
  {
    seq(|candidates|, i requires 0 <= i < |candidates| => Similarity(candidates[i].vector, embeddings[i], cosine))
  }

  function FallbackScores(o: Order, candidates: seq<Tutor>, similarities: seq<real>): (r: seq<real>)
    requires |similarities| == |candidates|
    ensures |r| == |candidates|
  {
    seq(|candidates|, i requires 0 <= i < |candidates| => FallbackScore(o, candidates[i], similarities[i]))
  }

  /** The feature rows `_generate_features` builds from the candidates and their similarities. */
  function FeatureRows(o: Order, candidates: seq<Tutor>, similarities: seq<real>): (r: seq<seq<real>>)
    requires |similarities| == |candidates|
    ensures |r| == |candidates| && forall i :: 0 <= i < |r| ==> |r[i]| == FeatureCount
  {
    seq(|candidates|, i requires 0 <= i < |candidates| => FeatureRow(o, candidates[i], similarities[i]))
  }

  // ---------------------------------------------------------------- the lookups of the order's embedding

  /** The lookup `_calculate_vector_similarity` makes for one tutor: none when the tutor has no vector. */
  function TutorLookup(store: EmbeddingStore, o: Order, t: Tutor, entries: seq<EmbeddingEntry>, calls: nat): LookupResult {
    if NoVector(t.vector) then LookupResult(None, entries, calls)
    else store.Lookup(entries, calls, OrderText(o))
  }

  /** The order's embedding as each candidate's similarity saw it, and the table and call count left. */
  datatype Lookups = Lookups(vectors: seq<Option<seq<real>>>, entries: seq<EmbeddingEntry>, calls: nat)

  /** The lookups of one pass over the candidates, in candidate order, each from the state the previous left. */
  function LookupsOn(store: EmbeddingStore, o: Order, candidates: seq<Tutor>, entries: seq<EmbeddingEntry>, calls: nat): (r: Lookups)
    ensures |r.vectors| == |candidates|
  {
    if candidates == [] then Lookups([], entries, calls)
    else
      var before := LookupsOn(store, o, candidates[..|candidates| - 1], entries, calls);
      var l := TutorLookup(store, o, candidates[|candidates| - 1], before.entries, before.calls);
      Lookups(before.vectors + [l.vector], l.entries, l.calls)
  }

  /** The pass over one more candidate is the pass over the first ones, then that candidate's lookup. */
  lemma LookupsOnSnoc(store: EmbeddingStore, o: Order, candidates: seq<Tutor>, i: nat, entries: seq<EmbeddingEntry>, calls: nat)
    requires i < |candidates|
    ensures var before := LookupsOn(store, o, candidates[..i], entries, calls);
      var l := TutorLookup(store, o, candidates[i], before.entries, before.calls);
      LookupsOn(store, o, candidates[..i + 1], entries, calls) == Lookups(before.vectors + [l.vector], l.entries, l.calls)
  {
    assert candidates[..i + 1][..i] == candidates[..i];
  }

  /**
   * A pass stores the order's embedding at most once: the table is unchanged, or it gained one
   * entry that later lookups of the order's text find. Each candidate makes at most one call.
   */
  lemma {:induction false} LookupsOnStoresOnce(store: EmbeddingStore, o: Order, candidates: seq<Tutor>, entries: seq<EmbeddingEntry>, calls: nat)
    ensures var r := LookupsOn(store, o, candidates, entries, calls);
      && calls <= r.calls <= calls + |candidates|
      && (r.entries == entries
          || (&& |r.entries| == |entries| + 1 && r.entries[..|entries|] == entries
              && Strip(OrderText(o)) != "" && FirstWithHash(r.entries, store.hash(OrderText(o))).Some?))
  {
    if candidates != [] {
      var init := candidates[..|candidates| - 1];
      LookupsOnStoresOnce(store, o, init, entries, calls);
      var before := LookupsOn(store, o, init, entries, calls);
      var text := OrderText(o);
      if !NoVector(candidates[|candidates| - 1].vector) && Strip(text) != ""
         && FirstWithHash(before.entries, store.hash(text)).None? && store.embed(before.calls).Some? && store.accepts(before.calls) {
        var e := EmbeddingEntry(Take(text, StoredTextLength), store.hash(text), store.embed(before.calls).value);
        HitAfterStore(before.entries, e);
        assert (before.entries + [e])[..|entries|] == entries;
      }
    }
  }

  /** The order's embedding `v` as each candidate sees it: None for a tutor without a vector. */
  function SeenAs(candidates: seq<Tutor>, v: seq<real>): (r: seq<Option<seq<real>>>)
    ensures |r| == |candidates|
    ensures forall k :: 0 <= k < |candidates| ==> r[k] == if NoVector(candidates[k].vector) then None else Some(v)
  {
    if candidates == [] then []
    else SeenAs(candidates[..|candidates| - 1], v) + [if NoVector(candidates[|candidates| - 1].vector) then None else Some(v)]
  }

  /** With the order's embedding already cached, a pass makes no call, stores nothing and sees that embedding. */
  lemma {:induction false} LookupsOnCached(store: EmbeddingStore, o: Order, candidates: seq<Tutor>, entries: seq<EmbeddingEntry>, calls: nat, v: seq<real>)
    requires store.Lookup(entries, calls, OrderText(o)) == LookupResult(Some(v), entries, calls)
    ensures LookupsOn(store, o, candidates, entries, calls) == Lookups(SeenAs(candidates, v), entries, calls)
  {
    if candidates != [] {
      var init := candidates[..|candidates| - 1];
      LookupsOnCached(store, o, init, entries, calls, v);
    }
  }

  /** One more candidate's row, from the similarity of its vector to the order's embedding. */
  lemma FeaturesStep(o: Order, candidates: seq<Tutor>, cosine: (seq<real>, seq<real>) -> real,
                     features: seq<seq<real>>, embeddings: seq<Option<seq<real>>>, s: real, e: Option<seq<real>>)
    requires |features| == |embeddings| < |candidates|
    requires forall k :: 0 <= k < |features| ==>
      features[k] == FeatureRow(o, candidates[k], Similarity(candidates[k].vector, embeddings[k], cosine))
    requires s == Similarity(candidates[|features|].vector, e, cosine)
    ensures var f, m := features + [FeatureRow(o, candidates[|features|], s)], embeddings + [e];
      forall k :: 0 <= k < |features| + 1 ==> f[k] == FeatureRow(o, candidates[k], Similarity(candidates[k].vector, m[k], cosine))
  {
  }

  /** Rows built candidate by candidate are the rows of all candidates. */
  lemma FeaturesDone(o: Order, candidates: seq<Tutor>, cosine: (seq<real>, seq<real>) -> real,
                     features: seq<seq<real>>, embeddings: seq<Option<seq<real>>>)
    requires |features| == |embeddings| == |candidates|
    requires forall k :: 0 <= k < |features| ==>
      features[k] == FeatureRow(o, candidates[k], Similarity(candidates[k].vector, embeddings[k], cosine))
    ensures features == FeatureRows(o, candidates, Similarities(candidates, embeddings, cosine))
  {
    var expected := FeatureRows(o, candidates, Similarities(candidates, embeddings, cosine));
    assert forall k :: 0 <= k < |candidates| ==> features[k] == expected[k];
  }

  /** One more candidate's fallback score, from the similarity of its vector to the order's embedding. */
  lemma ScoresStep(o: Order, candidates: seq<Tutor>, cosine: (seq<real>, seq<real>) -> real,
                   scored: seq<(Tutor, real)>, embeddings: seq<Option<seq<real>>>, score: real, e: Option<seq<real>>)
    requires |scored| == |embeddings| < |candidates|
    requires forall k :: 0 <= k < |scored| ==>
      scored[k] == (candidates[k], FallbackScore(o, candidates[k], Similarity(candidates[k].vector, embeddings[k], cosine)))
    requires score == FallbackScore(o, candidates[|scored|], Similarity(candidates[|scored|].vector, e, cosine))
    ensures var t, m := scored + [(candidates[|scored|], score)], embeddings + [e];
      forall k :: 0 <= k < |scored| + 1 ==>
        t[k] == (candidates[k], FallbackScore(o, candidates[k], Similarity(candidates[k].vector, m[k], cosine)))
  {
  }

  /** Scores built candidate by candidate are the candidates zipped with their fallback scores. */
  lemma ScoresDone(o: Order, candidates: seq<Tutor>, cosine: (seq<real>, seq<real>) -> real,
                   scored: seq<(Tutor, real)>, embeddings: seq<Option<seq<real>>>)
    requires |scored| == |embeddings| == |candidates|
    requires forall k :: 0 <= k < |scored| ==>
      scored[k] == (candidates[k], FallbackScore(o, candidates[k], Similarity(candidates[k].vector, embeddings[k], cosine)))
    ensures scored == Zip(candidates, FallbackScores(o, candidates, Similarities(candidates, embeddings, cosine)))
  {
    var expected := Zip(candidates, FallbackScores(o, candidates, Similarities(candidates, embeddings, cosine)));
    assert forall k :: 0 <= k < |candidates| ==> scored[k] == expected[k];
  }

  /** The service with its loaded model (None when no model file exists) and its embedding store. */
  class MatchingService {
    const store: EmbeddingStore
    const model: Option<Model>
    const cosine: (seq<real>, seq<real>) -> real

    constructor(store: EmbeddingStore, model: Option<Model>, cosine: (seq<real>, seq<real>) -> real)
      ensures this.store == store && this.model == model && this.cosine == cosine
    {
      this.store := store;
      this.model := model;
      this.cosine := cosine;
    }

    /** `_calculate_vector_similarity`: the order's embedding is asked for only when the tutor has a vector. */
    method VectorSimilarity(o: Order, t: Tutor) returns (s: real, e: Option<seq<real>>)
      requires store.Valid()
      modifies store
      ensures store.Valid()
      ensures s == Similarity(t.vector, e, cosine)
      ensures NoVector(t.vector) ==> e.None? && store.entries == old(store.entries) && store.calls == old(store.calls)
      ensures !NoVector(t.vector) ==> e == old(store.Outcome(OrderText(o)))
      ensures LookupResult(e, store.entries, store.calls) == TutorLookup(store, o, t, old(store.entries), old(store.calls))
    {
      if NoVector(t.vector) {
        return 0.5, None;
      }
      e := store.GetEmbedding(OrderText(o));
      s := Similarity(t.vector, e, cosine);
    }

    /** `_generate_features`: one nine-feature row per candidate, in candidate order. */
    method GenerateFeatures(o: Order, candidates: seq<Tutor>) returns (features: seq<seq<real>>, ghost embeddings: seq<Option<seq<real>>>)
      requires store.Valid()
      modifies store
      ensures store.Valid()
      ensures |features| == |candidates| && |embeddings| == |candidates|
      ensures features == FeatureRows(o, candidates, Similarities(candidates, embeddings, cosine))
      ensures Lookups(embeddings, store.entries, store.calls) == LookupsOn(store, o, candidates, old(store.entries), old(store.calls))
    {
      features, embeddings := [], [];
      ghost var entries0, calls0 := store.entries, store.calls;
      for i := 0 to |candidates|
        invariant store.Valid()
        invariant |features| == i && |embeddings| == i
        invariant Lookups(embeddings, store.entries, store.calls) == LookupsOn(store, o, candidates[..i], entries0, calls0)
        invariant forall k :: 0 <= k < i ==>
          features[k] == FeatureRow(o, candidates[k], Similarity(candidates[k].vector, embeddings[k], cosine))
      {
        var tutor := candidates[i];
        var s, e := VectorSimilarity(o, tutor);
        FeaturesStep(o, candidates, cosine, features, embeddings, s, e);
        LookupsOnSnoc(store, o, candidates, i, entries0, calls0);
        features := features + [FeatureRow(o, tutor, s)];
        embeddings := embeddings + [e];
      }
      assert candidates[..|candidates|] == candidates;
      FeaturesDone(o, candidates, cosine, features, embeddings);
    }

    /** `_fallback_ranking`: the score of each candidate accumulated term by term, then sorted best first. */
    method FallbackRanking(o: Order, candidates: seq<Tutor>) returns (ranked: seq<(Tutor, real)>, ghost embeddings: seq<Option<seq<real>>>)
      requires store.Valid()
      modifies store
      ensures store.Valid()
      ensures |embeddings| == |candidates|
      ensures ranked == Sort(Zip(candidates, FallbackScores(o, candidates, Similarities(candidates, embeddings, cosine))), ByScore)
      ensures Lookups(embeddings, store.entries, store.calls) == LookupsOn(store, o, candidates, old(store.entries), old(store.calls))
    {
      var scored: seq<(Tutor, real)> := [];
      embeddings := [];
      ghost var entries0, calls0 := store.entries, store.calls;
      for i := 0 to |candidates|
        invariant store.Valid()
        invariant |scored| == i && |embeddings| == i
        invariant Lookups(embeddings, store.entries, store.calls) == LookupsOn(store, o, candidates[..i], entries0, calls0)
        invariant forall k :: 0 <= k < i ==>
          scored[k] == (candidates[k], FallbackScore(o, candidates[k], Similarity(candidates[k].vector, embeddings[k], cosine)))
      {
        var tutor := candidates[i];
        var score, e := ScoreOf(o, tutor);
        LookupsOnSnoc(store, o, candidates, i, entries0, calls0);
        ScoresStep(o, candidates, cosine, scored, embeddings, score, e);
        scored := scored + [(tutor, score)];
        embeddings := embeddings + [e];
      }
      assert candidates[..|candidates|] == candidates;
      ScoresDone(o, candidates, cosine, scored, embeddings);
      ranked := Sort(scored, ByScore);
    }

    /** The loop body of `_fallback_ranking`: one candidate's score, term by term. */
    method ScoreOf(o: Order, tutor: Tutor) returns (score: real, e: Option<seq<real>>)
      requires store.Valid()
      modifies store
      ensures store.Valid()
      ensures score == FallbackScore(o, tutor, Similarity(tutor.vector, e, cosine))
      ensures LookupResult(e, store.entries, store.calls) == TutorLookup(store, o, tutor, old(store.entries), old(store.calls))
    {
      score := 0.0;
      score := score + tutor.rating / 5.0 * 0.3;
      if o.budgetMax > 0 {
        var price := PriceScore(o, tutor);
        score := score + (if price > 0.0 then price else 0.0) * 0.2;
      }
      score := score + AtMostOne(tutor.experienceYears as real / 10.0) * 0.2;
      score := score + AtMostOne(tutor.ratingCount as real / 100.0) * 0.1;
      score := score + LocationMatch(o, tutor) * 0.1;
      var s;
      s, e := VectorSimilarity(o, tutor);
      score := score + s * 0.1;
    }

    /**
     * `get_ai_matches`: no candidates give no matches and no lookups; otherwise the candidates are
     * ranked by the model when one is loaded and by the fallback scores otherwise, and the
     * ranking is assembled with the re-ranking the reply gives.
     */
    method GetAiMatches(o: Order, tutors: seq<Tutor>, limit: int, reply: Option<seq<Pick>>)
      returns (matches: seq<Match>, ghost ranked: seq<(Tutor, real)>, ghost scores: seq<real>,
               ghost embeddings: seq<Option<seq<real>>>)
      requires store.Valid()
      modifies store
      ensures store.Valid()
      ensures CandidateTutors(o, tutors) == [] ==>
        matches == [] && store.entries == old(store.entries) && store.calls == old(store.calls)
      ensures |embeddings| == |CandidateTutors(o, tutors)|
      ensures var candidates := CandidateTutors(o, tutors);
        var similarities := Similarities(candidates, embeddings, cosine);
        scores == if model.Some? then LearnedScores(model, FeatureRows(o, candidates, similarities))
                  else FallbackScores(o, candidates, similarities)
      ensures ranked == Sort(Zip(CandidateTutors(o, tutors), scores), ByScore)
      ensures matches == Assemble(o, ranked, limit, reply)
      ensures var candidates := CandidateTutors(o, tutors);
        var features := LookupsOn(store, o, candidates, old(store.entries), old(store.calls));
        Lookups(embeddings, store.entries, store.calls) ==
          if model.Some? then features else LookupsOn(store, o, candidates, features.entries, features.calls)
    {
      var candidates := CandidateTutors(o, tutors);
      if candidates == [] {
        AssembleSpec(o, [], limit, reply);
        return [], [], [], [];
      }
      var ranking;
      ranking, scores, embeddings := RankCandidates(o, candidates);
      ranked := ranking;
      matches := AssembleMatches(o, ranking, limit, reply);
    }

    /**
     * Steps 2 and 3 of `get_ai_matches`: the features of every candidate, then the ranking by the
     * model's scores when one is loaded, and otherwise the fallback ranking, which asks for the
     * order's embedding a second time for each candidate.
     */
    method RankCandidates(o: Order, candidates: seq<Tutor>)
      returns (ranked: seq<(Tutor, real)>, ghost scores: seq<real>, ghost embeddings: seq<Option<seq<real>>>)
      requires store.Valid()
      modifies store
      ensures store.Valid()
      ensures |embeddings| == |candidates|
      ensures var similarities := Similarities(candidates, embeddings, cosine);
        scores == if model.Some? then LearnedScores(model, FeatureRows(o, candidates, similarities))
                  else FallbackScores(o, candidates, similarities)
      ensures ranked == Sort(Zip(candidates, scores), ByScore)
      ensures var features := LookupsOn(store, o, candidates, old(store.entries), old(store.calls));
        Lookups(embeddings, store.entries, store.calls) ==
          if model.Some? then features else LookupsOn(store, o, candidates, features.entries, features.calls)
    {
      var features;
      features, embeddings := GenerateFeatures(o, candidates);
      if model.Some? {
        var learned := LearnedScores(model, features);
        ranked := Sort(Zip(candidates, learned), ByScore);
        scores := learned;
      } else {
        ranked, embeddings := FallbackRanking(o, candidates);
        scores := FallbackScores(o, candidates, Similarities(candidates, embeddings, cosine));
      }
    }

    /** Step 4 of `get_ai_matches`: the re-ranked picks when they are not empty, else the top of the ranking with reasons. */
    method AssembleMatches(o: Order, ranked: seq<(Tutor, real)>, limit: int, reply: Option<seq<Pick>>) returns (matches: seq<Match>)
      ensures matches == Assemble(o, ranked, limit, reply)
    {
      var top := Firsts(PySliceTo(ranked, 2 * limit));
      if |top| > limit {
        var reranked := LlmRerank(top, reply, limit);
        if reranked.Some? && reranked.value != [] {
          return reranked.value;
        }
      }
      matches := WithReasons(o, PySliceTo(ranked, limit));
    }
  }
}
