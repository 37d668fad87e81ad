/**
 * `ml/scripts/train_ranker.py`: the location tiers it repeats, the rows `load_training_data`
 * builds from every order with applications, the columns the model is trained on, and the
 * per-order NDCG evaluation.
 *
 * Fitting, the train/test split and `ndcg_score` are foreign code: the split is given as the
 * test rows with their predictions, and `ndcg_score` is the oracle `ndcg` (None when it raises).
 */
module TrainRankerScript {
  import opened Optional
  import opened Text
  import opened Money
  import opened Tables
  import opened Sorting
  import opened TutorModels
  import opened OrderModels
  import opened MlServices

  // ---------------------------------------------------------------- calculate_location_match

  /** `calculate_location_match`. */
  function CalculateLocationMatch(o: Order, t: Tutor): real {
    if !o.formatOffline then 1.0
    else if o.city != "" && t.city != "" then
      if Contains(Lower(t.city), Lower(o.city)) then 1.0
      else if o.region != "" && t.region != "" && Contains(Lower(t.region), Lower(o.region)) then 0.7
      else 0.3
    else 0.3
  }

  /** The script's tiers are the matching service's: 1.0, 0.7 or 0.3 under the same conditions. */
  lemma SameTiersAsService(o: Order, t: Tutor)
    ensures CalculateLocationMatch(o, t) == MlServices.LocationMatch(o, t)
    ensures CalculateLocationMatch(o, t) == 0.7 ==> o.city != "" && t.city != ""
    ensures CalculateLocationMatch(o, t) in {1.0, 0.7, 0.3}
  {
    LocationTiers(o, t);
  }

  // ---------------------------------------------------------------- load_training_data

  /** One application with its tutor and its booking, if it has one. */
  datatype Applicant = Applicant(application: Application, tutor: Tutor, booking: Option<Booking>)

  /** One order the query yields, with its applications. */
  datatype Visit = Visit(order: Order, applicants: seq<Applicant>)

  /** One dictionary `training_data` receives. */
  datatype Row = Row(
    orderId: nat, tutorId: nat,
    tutorPrice: real, priceRatio: real, inBudget: int,
    tutorRating: real, tutorReviews: real, tutorExperience: real,
    locationMatch: real, wasChosen: int, wasBooked: int)

  function BookedApplication(b: Booking): nat { b.application }

  /** The applications of one order, in table order. */
  function ApplicationsFor(applications: seq<Application>, orderId: nat): seq<Application> {
    Where(applications, (a: Application) => a.order == orderId)
  }

  /** `order.applications.all()` with each application's tutor and booking. */
  function Applicants(orderId: nat, applications: seq<Application>, tutors: seq<Tutor>, bookings: seq<Booking>): seq<Applicant> {
    ApplicantsOf(Sort(ApplicationsFor(applications, orderId), NewestApplicationFirst), tutors, bookings)
  }

  /** The applications whose tutor is found, each with its booking. */
  function ApplicantsOf(apps: seq<Application>, tutors: seq<Tutor>, bookings: seq<Booking>): (r: seq<Applicant>)
    ensures |r| <= |apps|
    ensures TutorsResolve(apps, tutors) ==> |r| == |apps|
  {
    if apps == [] then []
    else
      var init := ApplicantsOf(apps[..|apps| - 1], tutors, bookings);
      var a := apps[|apps| - 1];
      assert forall x :: x in apps[..|apps| - 1] ==> x in apps;
      match Find(tutors, TutorKey, a.tutor)
      case None => init
      case Some(t) => init + [Applicant(a, t, Find(bookings, BookedApplication, a.id))]
  }

  /**
   * `Order.objects.filter(applications__isnull=False)`: newest order first, and, with no
   * `distinct()`, every order repeated once per application it has.
   */
  function Visits(orders: seq<Order>, applications: seq<Application>, tutors: seq<Tutor>, bookings: seq<Booking>): seq<Visit> {
    VisitsOf(Sort(orders, NewestOrderFirst), applications, tutors, bookings)
  }

  function VisitsOf(orders: seq<Order>, applications: seq<Application>, tutors: seq<Tutor>, bookings: seq<Booking>): seq<Visit> {
    if orders == [] then []
    else
      var o := orders[0];
      var n := |ApplicationsFor(applications, o.id)|;
      seq(n, _ => Visit(o, Applicants(o.id, applications, tutors, bookings)))
      + VisitsOf(orders[1..], applications, tutors, bookings)
  }

  /** The row of one application, with the budget floored at one rouble in the ratio. */
  function MakeRow(o: Order, a: Applicant): (r: Row)
    ensures r.orderId == o.id && r.tutorId == a.tutor.id
    ensures r.inBudget == 1 <==> a.tutor.hourlyRate <= o.budgetMax
    ensures r.wasChosen == 1 <==> a.application.isChosen
    ensures r.wasBooked == 1 <==> a.booking.Some? && a.booking.value.status == BookingCompleted
    ensures r.inBudget in {0, 1} && r.wasChosen in {0, 1} && r.wasBooked in {0, 1}
    ensures r.locationMatch == MlServices.LocationMatch(o, a.tutor)
  {
    SameTiersAsService(o, a.tutor);
    Row(o.id, a.tutor.id,
        Rubles(a.tutor.hourlyRate), Rubles(a.tutor.hourlyRate) / BudgetDivisor(o),
        if a.tutor.hourlyRate <= o.budgetMax then 1 else 0,
        a.tutor.rating, a.tutor.ratingCount as real, a.tutor.experienceYears as real,
        CalculateLocationMatch(o, a.tutor),
        if a.application.isChosen then 1 else 0,
        if a.booking.Some? && a.booking.value.status == BookingCompleted then 1 else 0)
  }

  function RowsOf(v: Visit): (r: seq<Row>)
    ensures |r| == |v.applicants|
  {
    seq(|v.applicants|, i requires 0 <= i < |v.applicants| => MakeRow(v.order, v.applicants[i]))
  }

  /** The rows of all visits, in visiting order. */
  function Rows(visits: seq<Visit>): seq<Row> {
    if visits == [] then [] else Rows(visits[..|visits| - 1]) + RowsOf(visits[|visits| - 1])
  }

  /** The nested loop of `load_training_data`: one row per application on every visit of its order. */
  method CollectRows(visits: seq<Visit>) returns (data: seq<Row>)
    ensures data == Rows(visits)
  {
    data := [];
    for i := 0 to |visits|
      invariant data == Rows(visits[..i])
    {
      assert visits[..i + 1][..i] == visits[..i];
      var order := visits[i].order;
      var applicants := visits[i].applicants;
      ghost var before := data;
      for k := 0 to |applicants|
        invariant data == before + RowsOf(visits[i])[..k]
      {
        data := data + [MakeRow(order, applicants[k])];
        assert RowsOf(visits[i])[..k + 1] == RowsOf(visits[i])[..k] + [RowsOf(visits[i])[k]];
      }
      assert RowsOf(visits[i])[..|applicants|] == RowsOf(visits[i]);
    }
    assert visits[..|visits|] == visits;
  }

  /** `load_training_data` over the tables. */
  method LoadTrainingData(orders: seq<Order>, applications: seq<Application>, tutors: seq<Tutor>, bookings: seq<Booking>)
    returns (data: seq<Row>)
    ensures data == Rows(Visits(orders, applications, tutors, bookings))
  {
    data := CollectRows(Visits(orders, applications, tutors, bookings));
  }

  /** The rows of a sequence of visits are those of each part. */
  lemma {:induction false} RowsAppend(a: seq<Visit>, b: seq<Visit>)
    ensures Rows(a + b) == Rows(a) + Rows(b)
    decreases |b|
  {
    if b == [] {
      assert a + b == a;
    } else {
      var init, last := b[..|b| - 1], b[|b| - 1];
      assert (a + b)[..|a + b| - 1] == a + init && (a + b)[|a + b| - 1] == last;
      RowsAppend(a, init);
      assert Rows(a + b) == Rows(a + init) + RowsOf(last);
      assert Rows(b) == Rows(init) + RowsOf(last);
      assert Rows(a) + Rows(init) + RowsOf(last) == Rows(a) + (Rows(init) + RowsOf(last));
    }
  }

  /** Visiting an order n times yields n copies of its rows. */
  lemma {:induction false} RepeatedVisits(v: Visit, n: nat)
    ensures |Rows(seq(n, _ => v))| == n * |v.applicants|
  {
    if n > 0 {
      assert seq(n, _ => v)[..n - 1] == seq(n - 1, _ => v);
      RepeatedVisits(v, n - 1);
    }
  }

  /** With every tutor found, an order has one applicant per application. */
  lemma ApplicantsCount(orderId: nat, applications: seq<Application>, tutors: seq<Tutor>, bookings: seq<Booking>)
    requires TutorsResolve(applications, tutors)
    ensures |Applicants(orderId, applications, tutors, bookings)| == |ApplicationsFor(applications, orderId)|
  {
    var mine := ApplicationsFor(applications, orderId);
    SortPermutation(mine, NewestApplicationFirst);
    var sorted := Sort(mine, NewestApplicationFirst);
    forall a | a in sorted ensures Find(tutors, TutorKey, a.tutor).Some? {
      assert a in multiset(mine);
    }
  }

  /** A single order is visited once per application it has. */
  lemma SingleOrderVisits(o: Order, applications: seq<Application>, tutors: seq<Tutor>, bookings: seq<Booking>)
    ensures Visits([o], applications, tutors, bookings)
      == seq(|ApplicationsFor(applications, o.id)|, _ => Visit(o, Applicants(o.id, applications, tutors, bookings)))
  {
    assert [o][..0] == [];
    assert Sort([o], NewestOrderFirst) == [o];
    assert [o][1..] == [];
    var r := VisitsOf([o], applications, tutors, bookings);
    var v := Visit(o, Applicants(o.id, applications, tutors, bookings));
    var n := |ApplicationsFor(applications, o.id)|;
    assert VisitsOf([], applications, tutors, bookings) == [];
    assert r == seq(n, _ => v) + VisitsOf([o][1..], applications, tutors, bookings);
    assert forall i :: 0 <= i < |r| ==> r[i] == v;
  }

  /**
   * An order whose n applications all have their tutor gives n visits of n rows each: n * n rows.
   */
  lemma SquaredRows(o: Order, applications: seq<Application>, tutors: seq<Tutor>, bookings: seq<Booking>)
    requires TutorsResolve(applications, tutors)
    ensures var n := |ApplicationsFor(applications, o.id)|;
      |Rows(Visits([o], applications, tutors, bookings))| == n * n
  {
    var n := |ApplicationsFor(applications, o.id)|;
    var v := Visit(o, Applicants(o.id, applications, tutors, bookings));
    ApplicantsCount(o.id, applications, tutors, bookings);
    SingleOrderVisits(o, applications, tutors, bookings);
    RepeatedVisits(v, n);
  }

  // ---------------------------------------------------------------- train_ranker

  const FeatureColumns: seq<string> := [
    "tutor_price", "price_ratio", "in_budget",
    "tutor_rating", "tutor_reviews", "tutor_experience",
    "location_match"]

  /** `df[feature_columns].values` for one row. */
  function Projected(r: Row): (x: seq<real>)
    ensures |x| == |FeatureColumns|
  {
    [r.tutorPrice, r.priceRatio, r.inBudget as real, r.tutorRating, r.tutorReviews, r.tutorExperience, r.locationMatch]
  }

  /** The matrix and labels handed to LightGBM, or None when the script stops for lack of data. */
  function TrainingSet(rows: seq<Row>): (r: Option<(seq<seq<real>>, seq<int>)>)
    ensures r.None? <==> rows == []
    ensures r.Some? ==> |r.value.0| == |r.value.1| == |rows|
    ensures r.Some? ==> forall i :: 0 <= i < |rows| ==> |r.value.0[i]| == |FeatureColumns| && r.value.1[i] == rows[i].wasChosen
  {
    if rows == [] then None
    else Some((seq(|rows|, i requires 0 <= i < |rows| => Projected(rows[i])),
               seq(|rows|, i requires 0 <= i < |rows| => rows[i].wasChosen)))
  }

  /** The three sanity-check candidates, each as wide as the feature columns. */
  const TestFeatures: seq<seq<real>> := [
    [1000.0, 0.8, 1.0, 4.5, 20.0, 3.0, 1.0],
    [2000.0, 1.6, 0.0, 3.0, 5.0, 1.0, 0.5],
    [800.0, 0.6, 1.0, 4.8, 50.0, 5.0, 1.0]]

  lemma TestFeaturesFit()
    ensures forall i :: 0 <= i < |TestFeatures| ==> |TestFeatures[i]| == |FeatureColumns|
    ensures |TestFeatures| == 3
  {
  }

  /**
   * The script's seven columns are the matching service's feature row without its availability
   * and similarity entries, in the same order.
   */
  lemma ColumnsOfServiceRow(o: Order, a: Applicant, similarity: real)
    ensures var f := FeatureRow(o, a.tutor, similarity);
      Projected(MakeRow(o, a)) == f[..6] + [f[7]]
  {
  }

  /** A model fitted on the seven columns fits no row of the matching service: it scores every one 0.5. */
  lemma ScriptModelIsNeutral(m: Model, features: seq<seq<real>>)
    requires m.width == |FeatureColumns|
    requires features != [] && forall i :: 0 <= i < |features| ==> |features[i]| == FeatureCount
    ensures forall i :: 0 <= i < |features| ==> LearnedScores(Some(m), features)[i] == NeutralScore
  {
    MismatchedModelIsNeutral(m, features);
  }

  // ---------------------------------------------------------------- NDCG on the test orders

  /** A test row with its prediction. */
  type Scored = (Row, real)

  /** `unique()`: the distinct order ids in order of first appearance. */
  function UniqueOrders(test: seq<Scored>): (r: seq<nat>)
    ensures forall id :: id in r <==> exists i :: 0 <= i < |test| && test[i].0.orderId == id
    ensures forall i, j :: 0 <= i < j < |r| ==> r[i] != r[j]
  {
    if test == [] then []
    else
      var init := UniqueOrders(test[..|test| - 1]);
      var id := test[|test| - 1].0.orderId;
      assert forall i :: 0 <= i < |test| - 1 ==> test[..|test| - 1][i] == test[i];
      if id in init then init else init + [id]
  }

  /** `test_df[test_df['order_id'] == order_id]`. */
  function OrderRows(test: seq<Scored>, id: nat): seq<Scored> {
    Where(test, (s: Scored) => s.0.orderId == id)
  }

  function Chosen(g: seq<Scored>): seq<int> {
    seq(|g|, i requires 0 <= i < |g| => g[i].0.wasChosen)
  }

  function Predictions(g: seq<Scored>): seq<real> {
    seq(|g|, i requires 0 <= i < |g| => g[i].1)
  }

  /** The NDCG of one order: computed only with two candidates or more, and kept only when it did not raise. */
  function OrderNdcg(test: seq<Scored>, id: nat, ndcg: (seq<int>, seq<real>) -> Option<real>): Option<real> {
    var g := OrderRows(test, id);
    if |g| > 1 then ndcg(Chosen(g), Predictions(g)) else None
  }

  /** The scores collected for the given orders, in their order. */
  function NdcgOf(ids: seq<nat>, test: seq<Scored>, ndcg: (seq<int>, seq<real>) -> Option<real>): seq<real> {
    if ids == [] then []
    else
      var s := OrderNdcg(test, ids[|ids| - 1], ndcg);
      NdcgOf(ids[..|ids| - 1], test, ndcg) + (if s.Some? then [s.value] else [])
  }

  /** Every collected score is the NDCG of a test order with at least two candidates, at most one per order. */
  lemma {:induction false} NdcgSpec(ids: seq<nat>, test: seq<Scored>, ndcg: (seq<int>, seq<real>) -> Option<real>)
    ensures |NdcgOf(ids, test, ndcg)| <= |ids|
    ensures forall x :: x in NdcgOf(ids, test, ndcg) ==>
      exists id :: id in ids && |OrderRows(test, id)| > 1 && OrderNdcg(test, id, ndcg) == Some(x)
  {
    if ids != [] {
      var init := ids[..|ids| - 1];
      NdcgSpec(init, test, ndcg);
      assert forall id :: id in init ==> id in ids;
    }
  }

  /** The evaluation loop over the test orders. */
  method NdcgScores(test: seq<Scored>, ndcg: (seq<int>, seq<real>) -> Option<real>) returns (scores: seq<real>)
    ensures scores == NdcgOf(UniqueOrders(test), test, ndcg)
  {
    var ids := UniqueOrders(test);
    scores := [];
    for i := 0 to |ids|
      invariant scores == NdcgOf(ids[..i], test, ndcg)
    {
      assert ids[..i + 1][..i] == ids[..i];
      var orderData := OrderRows(test, ids[i]);
      if |orderData| > 1 {
        var result := ndcg(Chosen(orderData), Predictions(orderData));
        if result.Some? {
          scores := scores + [result.value];
        }
      }
    }
    assert ids[..|ids|] == ids;
  }
}
