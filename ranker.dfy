/**
 * `ml/ranker.py`, `TutorRanker`: the eight-feature extractor, the grouping of training rows by
 * order, the sample-count guard of training, the stable ranking of `predict` and the bounds of
 * `get_top_k`.
 *
 * A trained model is an `MlServices.Model`; fitting one is the oracle `fit`, and the scores
 * `np.random.random()` draws when no model is loaded are the oracle `random`.
 */
module Ranker {
  import opened Optional
  import opened Text
  import opened Http
  import opened Money
  import opened Tables
  import opened Sorting
  import opened TutorModels
  import opened OrderModels
  import opened MlServices

  // ---------------------------------------------------------------- extract_features

  const FeatureNames: seq<string> := [
    "tutor_rating", "tutor_experience", "tutor_price",
    "subject_match", "location_match", "format_match",
    "rating_count", "availability_score"]

  /** `order.city and tutor.city and order.city.lower() == tutor.city.lower()`. */
  predicate SameCity(o: Order, t: Tutor) {
    o.city != "" && t.city != "" && Lower(o.city) == Lower(t.city)
  }

  /** `format_match`: online orders match any tutor, offline-only orders a tutor in the same city. */
  function FormatMatch(o: Order, t: Tutor): real {
    if o.formatOnline && o.formatOffline then 1.0
    else if o.formatOnline then 1.0
    else if o.formatOffline && SameCity(o, t) then 1.0
    else 0.0
  }

  /** `extract_features`: the features in the order of `FeatureNames`. */
  function ExtractFeatures(o: Order, t: Tutor): (r: seq<real>)
    ensures |r| == |FeatureNames|
  {
    [ t.rating, t.experienceYears as real, Rubles(t.hourlyRate),
      if Teaches(t, o.subject.id) then 1.0 else 0.0,
      if SameCity(o, t) then 1.0 else 0.0,
      FormatMatch(o, t),
      t.ratingCount as real,
      if Truthy(t.availability) then 1.0 else 0.5 ]
  }

  /** The rules of the subject, location, format and availability features. */
  lemma FeatureRules(o: Order, t: Tutor)
    ensures var f := ExtractFeatures(o, t);
      && |f| == 8
      && FeatureNames[3] == "subject_match" && (f[3] == 1.0 <==> Teaches(t, o.subject.id)) && (f[3] == 0.0 || f[3] == 1.0)
      && FeatureNames[4] == "location_match" && (f[4] == 1.0 <==> o.city != "" && t.city != "" && Lower(o.city) == Lower(t.city))
      && (f[4] == 0.0 || f[4] == 1.0)
      && FeatureNames[5] == "format_match" && (f[5] == 1.0 <==> o.formatOnline || (o.formatOffline && f[4] == 1.0))
      && (f[5] == 0.0 || f[5] == 1.0)
      && FeatureNames[7] == "availability_score" && f[7] == (if Truthy(t.availability) then 1.0 else 0.5)
  {
  }

  /** A same-city match here is a full location score for the matching service too. */
  lemma SameCityIsServiceLocation(o: Order, t: Tutor)
    requires SameCity(o, t)
    ensures MlServices.LocationMatch(o, t) == 1.0
  {
    ContainsSelf(Lower(t.city));
  }

  // ---------------------------------------------------------------- prepare_training_data

  /** An application of the booked order, with its tutor. */
  datatype Applicant = Applicant(application: Application, tutor: Tutor)

  /** One completed booking as the loop sees it: the booked order and that order's applicants. */
  datatype Visit = Visit(order: Order, applicants: seq<Applicant>)

  /** `booking.application.order`. */
  function BookedOrder(b: Booking, applications: seq<Application>, orders: seq<Order>): (r: Option<Order>)
    ensures r.Some? ==> r.value in orders
  {
    match Find(applications, ApplicationKey, b.application)
    case None => None
    case Some(a) => Find(orders, OrderKey, a.order)
  }

  /** The applications whose tutor is found, with that tutor. */
  function ApplicantsOf(apps: seq<Application>, tutors: seq<Tutor>): (r: seq<Applicant>)
    ensures |r| <= |apps|
    ensures TutorsResolve(apps, tutors) ==> |r| == |apps|
  {
    if apps == [] then []
    else
      var init := ApplicantsOf(apps[..|apps| - 1], tutors);
      var a := apps[|apps| - 1];
      assert forall x :: x in apps[..|apps| - 1] ==> x in apps;
      match Find(tutors, TutorKey, a.tutor)
      case None => init
      case Some(t) => init + [Applicant(a, t)]
  }

  /** `order.applications.select_related('tutor')`: the order's applications, newest first. */
  function OrderApplicants(orderId: nat, applications: seq<Application>, tutors: seq<Tutor>): seq<Applicant> {
    ApplicantsOf(Sort(Where(applications, (a: Application) => a.order == orderId), NewestApplicationFirst), tutors)
  }

  function VisitsOf(completed: seq<Booking>, orders: seq<Order>, applications: seq<Application>, tutors: seq<Tutor>): (r: seq<Visit>)
    ensures |r| <= |completed|
  {
    if completed == [] then []
    else
      var rest := VisitsOf(completed[1..], orders, applications, tutors);
      match BookedOrder(completed[0], applications, orders)
      case None => rest
      case Some(o) => [Visit(o, OrderApplicants(o.id, applications, tutors))] + rest
  }

  /** `Booking.objects.filter(status='completed')`, newest first, each with its order and that order's applicants. */
  function CompletedVisits(orders: seq<Order>, applications: seq<Application>, bookings: seq<Booking>, tutors: seq<Tutor>): seq<Visit> {
    VisitsOf(Sort(Where(bookings, (b: Booking) => b.status == BookingCompleted), NewestBookingFirst), orders, applications, tutors)
  }

  /** In constrained tables every booking of `completed` has its order, so none is dropped. */
  lemma {:induction false} VisitsOfAll(completed: seq<Booking>, orders: seq<Order>, applications: seq<Application>, bookings: seq<Booking>, tutors: seq<Tutor>)
    requires Constrained(orders, applications, bookings)
    requires forall b :: b in completed ==> b in bookings
    ensures |VisitsOf(completed, orders, applications, tutors)| == |completed|
  {
    if completed != [] {
      assert completed[0] in bookings;
      var a := Find(applications, ApplicationKey, completed[0].application);
      assert a.Some?;
      assert Find(orders, OrderKey, a.value.order).Some?;
      assert forall b :: b in completed[1..] ==> b in completed;
      VisitsOfAll(completed[1..], orders, applications, bookings, tutors);
    }
  }

  /** In constrained tables there is one visit per completed booking. */
  lemma CompletedVisitsCount(orders: seq<Order>, applications: seq<Application>, bookings: seq<Booking>, tutors: seq<Tutor>)
    requires Constrained(orders, applications, bookings)
    ensures |CompletedVisits(orders, applications, bookings, tutors)| == |Where(bookings, (b: Booking) => b.status == BookingCompleted)|
  {
    var done := Where(bookings, (b: Booking) => b.status == BookingCompleted);
    SortPermutation(done, NewestBookingFirst);
    forall b | b in Sort(done, NewestBookingFirst) ensures b in bookings {
      assert b in multiset(done);
    }
    VisitsOfAll(Sort(done, NewestBookingFirst), orders, applications, bookings, tutors);
  }

  /** The three lists and the two counters of the loop. */
  datatype Training = Training(group: nat, current: Option<nat>, features: seq<seq<real>>, labels: seq<int>, groups: seq<nat>)

  /** `1 if app.is_chosen else 0`. */
  function Label(a: Application): (r: int)
    ensures r == 1 <==> a.isChosen
    ensures r == 0 || r == 1
  {
    if a.isChosen then 1 else 0
  }

  function FeaturesOf(v: Visit): (r: seq<seq<real>>)
    ensures |r| == |v.applicants|
  {
    seq(|v.applicants|, i requires 0 <= i < |v.applicants| => ExtractFeatures(v.order, v.applicants[i].tutor))
  }

  function LabelsOf(v: Visit): (r: seq<int>)
    ensures |r| == |v.applicants|
  {
    seq(|v.applicants|, i requires 0 <= i < |v.applicants| => Label(v.applicants[i].application))
  }

  /** One pass of the loop body: a booking of a new order opens a group and adds a row per applicant. */
  function Step(s: Training, v: Visit): Training {
    if s.current == Some(v.order.id) then s
    else
      var g := s.group + 1;
      Training(g, Some(v.order.id), s.features + FeaturesOf(v), s.labels + LabelsOf(v),
               s.groups + seq(|v.applicants|, _ => g))
  }

  const Start: Training := Training(0, None, [], [], [])

  /** The loop state after the given bookings. */
  function Run(visits: seq<Visit>): Training {
    if visits == [] then Start else Step(Run(visits[..|visits| - 1]), visits[|visits| - 1])
  }

  /** The number of groups opened: one per booking whose order differs from the previous booking's. */
  function Changes(visits: seq<Visit>): nat {
    if visits == [] then 0
    else
      var init := visits[..|visits| - 1];
      Changes(init) + (if init != [] && init[|init| - 1].order.id == visits[|visits| - 1].order.id then 0 else 1)
  }

  /**
   * The three lists have equal length, every row has eight features, every group id lies in
   * 1..group, the ids never decrease, and the counter is the number of order changes.
   */
  lemma {:induction false} RunSpec(visits: seq<Visit>)
    ensures var s := Run(visits);
      && |s.features| == |s.labels| == |s.groups|
      && (forall i :: 0 <= i < |s.features| ==> |s.features[i]| == |FeatureNames|)
      && (forall i :: 0 <= i < |s.labels| ==> s.labels[i] == 0 || s.labels[i] == 1)
      && (forall i :: 0 <= i < |s.groups| ==> 1 <= s.groups[i] <= s.group)
      && (forall i, j :: 0 <= i < j < |s.groups| ==> s.groups[i] <= s.groups[j])
      && s.group == Changes(visits)
      && (s.current.None? <==> visits == [])
      && (visits != [] ==> s.current == Some(visits[|visits| - 1].order.id))
  {
    if visits != [] {
      var init := visits[..|visits| - 1];
      RunSpec(init);
    }
  }

  /** Returning to an earlier order after another opens a third group and repeats its rows. */
  lemma RevisitOpensGroup(a: Visit, b: Visit)
    requires a.order.id != b.order.id
    ensures Run([a, b, a]).group == 3
    ensures |Run([a, b, a]).features| == 2 * |a.applicants| + |b.applicants|
    ensures Run([a, b, a]).groups == seq(|a.applicants|, _ => 1) + seq(|b.applicants|, _ => 2) + seq(|a.applicants|, _ => 3)
  {
    assert [a][..0] == [];
    assert [a, b][..1] == [a];
    assert [a, b, a][..2] == [a, b];
    var s1 := Step(Start, a);
    assert Run([a]) == s1;
    var s2 := Step(s1, b);
    assert Run([a, b]) == s2;
    assert Run([a, b, a]) == Step(s2, a);
    assert s1.groups == seq(|a.applicants|, _ => 1);
  }

  /** Consecutive bookings of one order add its rows once. */
  lemma RepeatAddsNothing(visits: seq<Visit>, v: Visit)
    requires visits != [] && visits[|visits| - 1].order.id == v.order.id
    ensures Run(visits + [v]) == Run(visits)
  {
    RunSnoc(visits, v);
    RunCurrent(visits);
    StepSameOrder(Run(visits), v);
  }

  lemma RunSnoc(visits: seq<Visit>, v: Visit)
    ensures Run(visits + [v]) == Step(Run(visits), v)
  {
    assert (visits + [v])[..|visits|] == visits;
  }

  lemma StepSameOrder(s: Training, v: Visit)
    requires s.current == Some(v.order.id)
    ensures Step(s, v) == s
  {
  }

  /** After a booking, the current order is that booking's order. */
  lemma RunCurrent(visits: seq<Visit>)
    requires visits != []
    ensures Run(visits).current == Some(visits[|visits| - 1].order.id)
  {
    StepCurrent(Run(visits[..|visits| - 1]), visits[|visits| - 1]);
  }

  lemma StepCurrent(s: Training, v: Visit)
    ensures Step(s, v).current == Some(v.order.id)
  {
  }

  /** The data returned when no booking gave a row: one row of eight zeros, label 0, group 1. */
  const DummyFeatures: seq<seq<real>> := [[0.0, 0.0, 0.0, 0.0, 0.0, 0.0, 0.0, 0.0]]
  const DummyLabels: seq<int> := [0]
  const DummyGroups: seq<nat> := [1]

  /** The loop of `prepare_training_data` over the given bookings, with its two counters. */
  method GroupRows(visits: seq<Visit>) returns (features: seq<seq<real>>, labels: seq<int>, groups: seq<nat>)
    ensures var s := Run(visits); features == s.features && labels == s.labels && groups == s.groups
  {
    features, labels, groups := [], [], [];
    var currentGroup := 0;
    var currentOrderId: Option<nat> := None;
    for i := 0 to |visits|
      invariant Run(visits[..i]) == Training(currentGroup, currentOrderId, features, labels, groups)
    {
      assert visits[..i + 1][..i] == visits[..i];
      var visit := visits[i];
      if currentOrderId != Some(visit.order.id) {
        currentOrderId := Some(visit.order.id);
        currentGroup := currentGroup + 1;
        ghost var before := Training(currentGroup - 1, Some(visit.order.id), features, labels, groups);
        var applicants := visit.applicants;
        for k := 0 to |applicants|
          invariant features == before.features + FeaturesOf(visit)[..k]
          invariant labels == before.labels + LabelsOf(visit)[..k]
          invariant groups == before.groups + seq(k, _ => currentGroup)
        {
          features := features + [ExtractFeatures(visit.order, applicants[k].tutor)];
          labels := labels + [Label(applicants[k].application)];
          groups := groups + [currentGroup];
          assert FeaturesOf(visit)[..k + 1] == FeaturesOf(visit)[..k] + [FeaturesOf(visit)[k]];
          assert LabelsOf(visit)[..k + 1] == LabelsOf(visit)[..k] + [LabelsOf(visit)[k]];
          assert seq(k + 1, _ => currentGroup) == seq(k, _ => currentGroup) + [currentGroup];
        }
        assert FeaturesOf(visit)[..|applicants|] == FeaturesOf(visit);
        assert LabelsOf(visit)[..|applicants|] == LabelsOf(visit);
      }
    }
    assert visits[..|visits|] == visits;
  }

  /** `prepare_training_data`: the rows of `Run` over the completed bookings, or the dummy data when there are none. */
  method PrepareTrainingData(orders: seq<Order>, applications: seq<Application>, bookings: seq<Booking>, tutors: seq<Tutor>)
    returns (features: seq<seq<real>>, labels: seq<int>, groups: seq<nat>)
    ensures var s := Run(CompletedVisits(orders, applications, bookings, tutors));
      if s.features == [] then features == DummyFeatures && labels == DummyLabels && groups == DummyGroups
      else features == s.features && labels == s.labels && groups == s.groups
  {
    var visits := CompletedVisits(orders, applications, bookings, tutors);
    features, labels, groups := GroupRows(visits);
    if features == [] {
      features, labels, groups := DummyFeatures, DummyLabels, DummyGroups;
    }
  }

  /** The guard of `train`: fewer than two rows raise `ValueError`. */
  predicate EnoughSamples(features: seq<seq<real>>) {
    |features| >= 2
  }

  /** Without training rows the guard always refuses: the dummy data is a single row. */
  lemma DummyNeverTrains()
    ensures !EnoughSamples(DummyFeatures)
    ensures |DummyFeatures| == |DummyLabels| == |DummyGroups| == 1
    ensures |DummyFeatures[0]| == |FeatureNames|
  {
  }

  // ---------------------------------------------------------------- predict and get_top_k

  /** `get_top_k` considers at most 50 tutors. */
  const MaxConsidered: nat := 50

  /** `filter(subjects=order.subject)`, then `city__iexact` for an offline-only order with a city. */
  predicate Considered(o: Order, t: Tutor) {
    && Teaches(t, o.subject.id)
    && (o.formatOffline && !o.formatOnline && o.city != "" ==> Lower(t.city) == Lower(o.city))
  }

  function ConsideredTutors(o: Order, tutors: seq<Tutor>): seq<Tutor> {
    var teaching := Where(tutors, (t: Tutor) => Teaches(t, o.subject.id));
    var near := if o.formatOffline && !o.formatOnline && o.city != "" then Where(teaching, (t: Tutor) => Lower(t.city) == Lower(o.city)) else teaching;
    Take(near, MaxConsidered)
  }

  lemma ConsideredSpec(o: Order, tutors: seq<Tutor>)
    ensures |ConsideredTutors(o, tutors)| <= MaxConsidered
    ensures forall t :: t in ConsideredTutors(o, tutors) ==> t in tutors && Considered(o, t)
  {
    var teaching := Where(tutors, (t: Tutor) => Teaches(t, o.subject.id));
    var near := if o.formatOffline && !o.formatOnline && o.city != "" then Where(teaching, (t: Tutor) => Lower(t.city) == Lower(o.city)) else teaching;
    var c := Take(near, MaxConsidered);
    forall t | t in c ensures t in near {
      var i :| 0 <= i < |c| && c[i] == t;
      assert near[i] == t;
    }
  }

  /** One result of `get_top_k`. */
  datatype TopEntry = TopEntry(
    tutorId: nat, userId: nat, name: string, rating: real, experienceYears: nat,
    hourlyRate: real, city: string, score: real)

  function Entry(ranked: (Tutor, real)): TopEntry {
    var t := ranked.0;
    TopEntry(t.id, t.user.id, t.user.firstName + " " + t.user.lastName, t.rating, t.experienceYears,
             Rubles(t.hourlyRate), t.city, ranked.1)
  }

  /** The model's score of each tutor's features. */
  function Scores(m: Model, o: Order, tutors: seq<Tutor>): (r: seq<real>)
    ensures |r| == |tutors|
  {
    seq(|tutors|, i requires 0 <= i < |tutors| => m.score(ExtractFeatures(o, tutors[i])))
  }

  /** `predict` with a model is the stable ranking by score: a permutation, best first, ties in input order. */
  lemma PredictSpec(tutors: seq<Tutor>, scores: seq<real>, z: (Tutor, real))
    requires |scores| == |tutors|
    ensures multiset(Sort(Zip(tutors, scores), ByScore)) == multiset(Zip(tutors, scores))
    ensures Sorted(Sort(Zip(tutors, scores), ByScore), ByScore)
    ensures Peers(Sort(Zip(tutors, scores), ByScore), z, ByScore) == Peers(Zip(tutors, scores), z, ByScore)
  {
    RankingSpec(Zip(tutors, scores), z);
  }

  /** Every pair of the ranking holds one of the ranked tutors. */
  lemma PairsFromTutors(tutors: seq<Tutor>, scores: seq<real>, ranked: seq<(Tutor, real)>)
    requires |scores| == |tutors|
    requires ranked == Sort(Zip(tutors, scores), ByScore)
    ensures |ranked| == |tutors|
    ensures forall p :: p in ranked ==> p.0 in tutors
  {
    SortPermutation(Zip(tutors, scores), ByScore);
    forall p | p in ranked ensures p.0 in tutors {
      SortPermutation(Zip(tutors, scores), ByScore);
      assert p in multiset(Zip(tutors, scores));
      var i :| 0 <= i < |tutors| && Zip(tutors, scores)[i] == p;
    }
  }

  /** The ranker and its model (None until one is trained or loaded). */
  class TutorRanker {
    var model: Option<Model>
    const fit: (seq<seq<real>>, seq<int>, seq<nat>) -> Model
    const random: nat -> real

    constructor(model: Option<Model>, fit: (seq<seq<real>>, seq<int>, seq<nat>) -> Model, random: nat -> real)
      ensures this.model == model && this.fit == fit && this.random == random
    {
      this.model := model;
      this.fit := fit;
      this.random := random;
    }

    /** `train`: fewer than two rows leave the model as it was and report the error. */
    method Train(orders: seq<Order>, applications: seq<Application>, bookings: seq<Booking>, tutors: seq<Tutor>) returns (trained: bool)
      modifies this`model
      ensures var s := Run(CompletedVisits(orders, applications, bookings, tutors));
        && (trained <==> |s.features| >= 2)
        && (trained ==> model == Some(fit(s.features, s.labels, s.groups)))
        && (!trained ==> model == old(model))
    {
      var x, y, groups := PrepareTrainingData(orders, applications, bookings, tutors);
      if !EnoughSamples(x) {
        return false;
      }
      model := Some(fit(x, y, groups));
      trained := true;
    }

    /**
     * `predict`: with no model, each tutor with a random score in input order; with a model,
     * None when the model refuses rows of eight features, else the pairs sorted in place by score.
     */
    method Predict(o: Order, tutors: seq<Tutor>) returns (r: Option<seq<(Tutor, real)>>)
      ensures model.None? ==> r == Some(seq(|tutors|, i requires 0 <= i < |tutors| => (tutors[i], random(i))))
      ensures model.Some? && tutors == [] ==> r == Some([])
      ensures model.Some? && tutors != [] && model.value.width != |FeatureNames| ==> r.None?
      ensures model.Some? && tutors != [] && model.value.width == |FeatureNames| ==>
        r == Some(Sort(Zip(tutors, Scores(model.value, o, tutors)), ByScore))
      ensures r.Some? ==> |r.value| == |tutors| && forall p :: p in r.value ==> p.0 in tutors
    {
      if model.None? {
        return Some(seq(|tutors|, i requires 0 <= i < |tutors| => (tutors[i], random(i))));
      }
      if tutors == [] {
        return Some([]);
      }
      var m := model.value;
      if m.width != |FeatureNames| {
        return None;
      }
      var scores := Scores(m, o, tutors);
      var pairs := new (Tutor, real)[|tutors|](i requires 0 <= i < |tutors| => (tutors[i], scores[i]));
      assert pairs[..] == Zip(tutors, scores);
      ByScoreIsPreorder();
      SortInPlace(pairs, ByScore);
      r := Some(pairs[..]);
      PairsFromTutors(tutors, scores, r.value);
    }

    /**
     * `get_top_k`: an unknown order gives no results; otherwise the considered tutors are
     * ranked and the first `k` reported; None when `predict` raises.
     */
    method GetTopK(orderId: nat, k: int, orders: seq<Order>, tutors: seq<Tutor>) returns (r: Option<seq<TopEntry>>)
      ensures Find(orders, OrderKey, orderId).None? ==> r == Some([])
      ensures r.Some? && k >= 0 ==> |r.value| <= k
      ensures r.Some? ==> |r.value| <= MaxConsidered
      ensures Find(orders, OrderKey, orderId).Some? && r.Some? ==>
        forall e :: e in r.value ==> exists t :: t in tutors && t.id == e.tutorId && Considered(Find(orders, OrderKey, orderId).value, t)
    {
      var found := Find(orders, OrderKey, orderId);
      if found.None? {
        return Some([]);
      }
      var order := found.value;
      var considered := ConsideredTutors(order, tutors);
      ConsideredSpec(order, tutors);
      if considered == [] {
        return Some([]);
      }
      var ranked := Predict(order, considered);
      if ranked.None? {
        return None;
      }
      var top := PySliceTo(ranked.value, k);
      var results := seq(|top|, i requires 0 <= i < |top| => Entry(top[i]));
      forall e | e in results ensures exists t :: t in tutors && t.id == e.tutorId && Considered(order, t) {
        var i :| 0 <= i < |results| && results[i] == e;
        assert top[i] in ranked.value;
      }
      r := Some(results);
    }
  }
}
