/**
 * `apps/orders/views.py`: the order and booking listings, closing an order, applying to an
 * order, choosing an application (which books it) and the two booking status actions.
 *
 * `get_object` is modelled as the lookup, by key, in the action's own queryset; a key that is
 * not there answers 404 and changes nothing.
 */
module OrderViews {
  import opened Optional
  import opened Text
  import opened Http
  import opened Money
  import opened Tables
  import opened Sorting
  import opened TutorModels
  import opened OrderModels

  // ---------------------------------------------------------------- the order listing

  /** The query parameters of the order list; an absent or empty parameter is "" (or None). */
  datatype OrderQuery = OrderQuery(status: string, subject: Option<nat>, city: string, format: string)

  /** The two values of the `format` parameter that filter. */
  const FormatOnline: string := "online"
  const FormatOffline: string := "offline"

  /** Every filter of the order list, as one condition. */
  predicate AdmitsOrder(q: OrderQuery, o: Order) {
    && (q.status != "" ==> o.status == q.status)
    && (q.subject.Some? ==> o.subject.id == q.subject.value)
    && (q.city != "" ==> Contains(Lower(o.city), Lower(q.city)))
    && (q.format == FormatOnline ==> o.formatOnline)
    && (q.format == FormatOffline ==> o.formatOffline)
  }

  /** The filters applied one after another, each only when its parameter is given. */
  function FilteredOrders(orders: seq<Order>, q: OrderQuery): seq<Order> {
    var byStatus := if q.status != "" then Where(orders, (o: Order) => o.status == q.status) else orders;
    var bySubject := if q.subject.Some? then Where(byStatus, (o: Order) => o.subject.id == q.subject.value) else byStatus;
    var byCity := if q.city != "" then Where(bySubject, (o: Order) => Contains(Lower(o.city), Lower(q.city))) else bySubject;
    if q.format == FormatOnline then Where(byCity, (o: Order) => o.formatOnline)
    else if q.format == FormatOffline then Where(byCity, (o: Order) => o.formatOffline)
    else byCity
  }

  lemma FilteredOrdersConjunctive(orders: seq<Order>, q: OrderQuery, o: Order)
    ensures o in FilteredOrders(orders, q) <==> o in orders && AdmitsOrder(q, o)
  {
  }

  /** `OrderViewSet.get_queryset`. */
  function OrderQueryset(orders: seq<Order>, q: OrderQuery): seq<Order> {
    Sort(FilteredOrders(orders, q), NewestOrderFirst)
  }

  /** The order list holds the admitted orders, as often as in the table, newest first. */
  lemma OrderQuerysetSpec(orders: seq<Order>, q: OrderQuery)
    ensures multiset(OrderQueryset(orders, q)) == multiset(FilteredOrders(orders, q))
    ensures forall o :: o in OrderQueryset(orders, q) <==> o in orders && AdmitsOrder(q, o)
    ensures Sorted(OrderQueryset(orders, q), NewestOrderFirst)
  {
    SortPermutation(FilteredOrders(orders, q), NewestOrderFirst);
    assert TotalPreorder(NewestOrderFirst);
    SortSorted(FilteredOrders(orders, q), NewestOrderFirst);
    forall o ensures o in OrderQueryset(orders, q) <==> o in orders && AdmitsOrder(q, o) {
      assert o in OrderQueryset(orders, q) <==> o in multiset(OrderQueryset(orders, q));
      FilteredOrdersConjunctive(orders, q, o);
    }
  }

  // ---------------------------------------------------------------- the booking listing

  /** The user of the tutor profile with the given key. */
  function TutorUser(tutor: nat, tutors: seq<Tutor>): Option<nat> {
    match Find(tutors, TutorKey, tutor)
    case None => None
    case Some(t) => Some(t.user.id)
  }

  /** The user is the booked order's student or the booked application's tutor. */
  predicate Party(b: Booking, user: nat, applications: seq<Application>, orders: seq<Order>, tutors: seq<Tutor>) {
    || BookingStudent(b, applications, orders) == Some(user)
    || (match BookingTutor(b, applications)
        case None => false
        case Some(t) => TutorUser(t, tutors) == Some(user))
  }

  /** `BookingViewSet.get_queryset`: the bookings the user is a party to. */
  function BookingQueryset(bookings: seq<Booking>, user: nat, applications: seq<Application>, orders: seq<Order>, tutors: seq<Tutor>): seq<Booking> {
    Sort(Where(bookings, (b: Booking) => Party(b, user, applications, orders, tutors)), NewestBookingFirst)
  }

  /** A booking is listed exactly when the user is its student or its tutor; newest first. */
  lemma BookingQuerysetSpec(bookings: seq<Booking>, user: nat, applications: seq<Application>, orders: seq<Order>, tutors: seq<Tutor>)
    ensures forall b :: b in BookingQueryset(bookings, user, applications, orders, tutors) <==>
      b in bookings && Party(b, user, applications, orders, tutors)
    ensures Sorted(BookingQueryset(bookings, user, applications, orders, tutors), NewestBookingFirst)
  {
    var visible := Where(bookings, (b: Booking) => Party(b, user, applications, orders, tutors));
    SortPermutation(visible, NewestBookingFirst);
    assert TotalPreorder(NewestBookingFirst);
    SortSorted(visible, NewestBookingFirst);
    forall b ensures b in BookingQueryset(bookings, user, applications, orders, tutors) <==> b in visible {
      assert b in Sort(visible, NewestBookingFirst) <==> b in multiset(Sort(visible, NewestBookingFirst));
    }
  }

  // ---------------------------------------------------------------- the booking amounts

  /** The platform's commission: a tenth of the price. */
  function PlatformFee(price: Cents): real {
    Rubles(price) * 0.1
  }

  /** What the tutor receives: nine tenths of the price. */
  function TutorAmount(price: Cents): real {
    Rubles(price) * 0.9
  }

  /** The fee and the tutor's share add up to the price, and neither is negative for a non-negative price. */
  lemma AmountsAddUp(price: Cents)
    ensures PlatformFee(price) + TutorAmount(price) == Rubles(price)
    ensures price >= 0 ==> 0.0 <= PlatformFee(price) <= TutorAmount(price)
  {
  }

  /** `application.price * 0.1` as written: a `Decimal` column value times a `float`. */
  function PlatformFeeAsWritten(price: Cents): Option<PyNumber> {
    PyMul(PyDecimal(Rubles(price)), PyFloat(0.1))
  }

  /** Whatever the price, the written fee computation raises `TypeError`. */
  lemma PlatformFeeAsWrittenRaises(price: Cents)
    ensures PlatformFeeAsWritten(price).None?
  {
  }

  // ---------------------------------------------------------------- the validated application form

  /** `ApplicationSerializer.validated_data` for an order id: `order` is read-only, so only `order_id` is kept. */
  function ApplicationValidatedData(orderId: nat): map<string, nat> {
    map["order_id" := orderId]
  }

  /** `serializer.validated_data['order']` as written: None stands for the `KeyError`. */
  function ValidatedOrderAsWritten(data: map<string, nat>): Option<nat> {
    if "order" in data then Some(data["order"]) else None
  }

  /** The written lookup fails for every application form. */
  lemma ValidatedOrderAsWrittenRaises(orderId: nat)
    ensures ValidatedOrderAsWritten(ApplicationValidatedData(orderId)).None?
  {
  }

  /** The lookup the view evidently intends: the order id the form was given. */
  function ValidatedOrder(data: map<string, nat>): Option<nat> {
    if "order_id" in data then Some(data["order_id"]) else None
  }

  lemma ValidatedOrderReadsForm(orderId: nat)
    ensures ValidatedOrder(ApplicationValidatedData(orderId)) == Some(orderId)
  {
  }

  // ---------------------------------------------------------------- choosing an application

  /** `filter(order=order).update(is_chosen=False)` then `is_chosen = True` on the chosen row. */
  function Rechosen(applications: seq<Application>, order: nat, chosen: nat): (r: seq<Application>)
    ensures |r| == |applications|
  {
    if applications == [] then []
    else var a := applications[0];
      [if a.order == order then a.(isChosen := a.id == chosen) else a] + Rechosen(applications[1..], order, chosen)
  }

  /**
   * After choosing, the applications of the order are chosen exactly when they are the chosen
   * one; the other orders' applications and every other column stay as they were.
   */
  lemma {:induction false} RechosenSpec(applications: seq<Application>, order: nat, chosen: nat)
    ensures forall i :: 0 <= i < |applications| ==>
      var a, r := applications[i], Rechosen(applications, order, chosen)[i];
      && r == a.(isChosen := r.isChosen)
      && (a.order == order ==> (r.isChosen <==> a.id == chosen))
      && (a.order != order ==> r == a)
  {
    if applications != [] {
      RechosenSpec(applications[1..], order, chosen);
      var r := Rechosen(applications, order, chosen);
      assert r[1..] == Rechosen(applications[1..], order, chosen);
      forall i | 1 <= i < |applications| ensures r[i] == r[1..][i - 1] && applications[i] == applications[1..][i - 1] {
      }
    }
  }

  /** With unique keys, exactly one application of the order is chosen afterwards: the chosen one. */
  lemma OneChosen(applications: seq<Application>, k: nat)
    requires KeysUnique(applications, ApplicationKey) && k < |applications|
    ensures var r := Rechosen(applications, applications[k].order, applications[k].id);
      && r[k].isChosen
      && forall i :: 0 <= i < |r| && r[i].order == applications[k].order && r[i].isChosen ==> i == k
  {
    RechosenSpec(applications, applications[k].order, applications[k].id);
  }

  /** The order of the application, read through its key. */
  predicate OrderedBy(user: nat, a: Application, orders: seq<Order>) {
    match Find(orders, OrderKey, a.order)
    case None => false
    case Some(o) => o.student == user
  }

  /** Some booking already books the application. */
  predicate Booked(bookings: seq<Booking>, application: nat) {
    exists b :: b in bookings && b.application == application
  }

  lemma RechosenKeepsConstraints(orders: seq<Order>, applications: seq<Application>, bookings: seq<Booking>, order: nat, chosen: nat)
    requires Constrained(orders, applications, bookings)
    ensures Constrained(orders, Rechosen(applications, order, chosen), bookings)
    ensures forall k :: Find(Rechosen(applications, order, chosen), ApplicationKey, k).None? <==> Find(applications, ApplicationKey, k).None?
  {
    var r := Rechosen(applications, order, chosen);
    RechosenSpec(applications, order, chosen);
    assert SameColumns(r, applications);
    SameColumnsFind(r, applications);
    SameColumnsConstrained(orders, applications, r, bookings);
  }

  /** Two application tables that agree, row by row, on the key, the order and the tutor. */
  ghost predicate SameColumns(r: seq<Application>, applications: seq<Application>) {
    && |r| == |applications|
    && forall i :: 0 <= i < |r| ==> r[i].id == applications[i].id && r[i].order == applications[i].order && r[i].tutor == applications[i].tutor
  }

  lemma SameColumnsFind(r: seq<Application>, applications: seq<Application>)
    requires SameColumns(r, applications)
    ensures forall k :: Find(r, ApplicationKey, k).None? <==> Find(applications, ApplicationKey, k).None?
  {
    forall k ensures Find(r, ApplicationKey, k).None? <==> Find(applications, ApplicationKey, k).None? {
      if Find(r, ApplicationKey, k).Some? {
        var i :| 0 <= i < |r| && r[i] == Find(r, ApplicationKey, k).value;
        assert applications[i] in applications;
      }
      if Find(applications, ApplicationKey, k).Some? {
        var i :| 0 <= i < |applications| && applications[i] == Find(applications, ApplicationKey, k).value;
        assert r[i] in r;
      }
    }
  }

  lemma SameColumnsConstrained(orders: seq<Order>, applications: seq<Application>, r: seq<Application>, bookings: seq<Booking>)
    requires Constrained(orders, applications, bookings) && SameColumns(r, applications)
    requires forall k :: Find(r, ApplicationKey, k).None? <==> Find(applications, ApplicationKey, k).None?
    ensures Constrained(orders, r, bookings)
  {
    forall a | a in r ensures Find(orders, OrderKey, a.order).Some? {
      var i :| 0 <= i < |r| && r[i] == a;
      assert applications[i] in applications;
    }
  }

  lemma BookingKeepsConstraints(orders: seq<Order>, applications: seq<Application>, bookings: seq<Booking>, b: Booking)
    requires Constrained(orders, applications, bookings)
    requires b.id == NextKey(bookings, BookingKey) && !Booked(bookings, b.application)
    requires Find(applications, ApplicationKey, b.application).Some?
    ensures Constrained(orders, applications, bookings + [b])
  {
    InsertKeepsKeysUnique(bookings, BookingKey, b);
    var bs := bookings + [b];
    forall i, j | 0 <= i < j < |bs| ensures bs[i].application != bs[j].application {
      if j == |bookings| {
        assert bs[i] in bookings;
      }
    }
  }

  lemma ApplicationKeepsConstraints(orders: seq<Order>, applications: seq<Application>, bookings: seq<Booking>, a: Application)
    requires Constrained(orders, applications, bookings)
    requires a.id == NextKey(applications, ApplicationKey) && Find(orders, OrderKey, a.order).Some?
    requires forall x :: x in applications ==> (x.order, x.tutor) != (a.order, a.tutor)
    ensures Constrained(orders, applications + [a], bookings)
  {
    InsertKeepsKeysUnique(applications, ApplicationKey, a);
    var rs := applications + [a];
    forall i, j | 0 <= i < j < |rs| ensures (rs[i].order, rs[i].tutor) != (rs[j].order, rs[j].tutor) {
      if j == |applications| {
        assert rs[i] in applications;
      }
    }
    forall b | b in bookings ensures Find(rs, ApplicationKey, b.application).Some? {
      var x := Find(applications, ApplicationKey, b.application).value;
      assert x in rs;
    }
  }

  lemma UpdateKeepsConstraints(orders: seq<Order>, applications: seq<Application>, bookings: seq<Booking>,
                               orders': seq<Order>, bookings': seq<Booking>)
    requires Constrained(orders, applications, bookings)
    requires KeysUnique(orders', OrderKey) && KeysUnique(bookings', BookingKey)
    requires forall k :: Find(orders', OrderKey, k).None? <==> Find(orders, OrderKey, k).None?
    requires |bookings'| == |bookings|
    requires forall i :: 0 <= i < |bookings| ==> bookings'[i].application == bookings[i].application
    ensures Constrained(orders', applications, bookings')
  {
    forall b | b in bookings' ensures Find(applications, ApplicationKey, b.application).Some? {
      var i :| 0 <= i < |bookings'| && bookings'[i] == b;
      assert bookings[i] in bookings;
    }
  }

  // ---------------------------------------------------------------- choose on the tables

  /** What `choose` answers and the two tables it leaves. */
  datatype Choice = Choice(status: nat, booking: Option<nat>, applications: seq<Application>, bookings: seq<Booking>)

  /**
   * `ApplicationViewSet.choose` on the tables: 404 for an unknown application, 403 for anyone but
   * the order's student; otherwise the order's applications are rechosen, and then either a
   * pending booking is added or, when the application is already booked, 500 with the choice kept.
   */
  function ChooseOn(orders: seq<Order>, applications: seq<Application>, bookings: seq<Booking>,
                    user: nat, applicationId: nat, now: int): Choice
  {
    match Find(applications, ApplicationKey, applicationId)
    case None => Choice(HttpNotFound, None, applications, bookings)
    case Some(a) =>
      if !OrderedBy(user, a, orders) then Choice(HttpForbidden, None, applications, bookings)
      else
        var chosen := Rechosen(applications, a.order, applicationId);
        if Booked(bookings, applicationId) then Choice(HttpServerError, None, chosen, bookings)
        else
          var id := NextKey(bookings, BookingKey);
          Choice(HttpOk, Some(id), chosen, bookings + [NewBooking(id, applicationId, Rubles(a.price), PlatformFee(a.price), TutorAmount(a.price), now)])
  }

  /**
   * Choosing keeps every declared constraint. A refusal (404, 403) changes nothing; a booking is
   * added exactly on 200, under a fresh key, for the chosen application, pending, with a fee and a
   * share that add up to its total.
   */
  lemma ChooseOnSpec(orders: seq<Order>, applications: seq<Application>, bookings: seq<Booking>,
                     user: nat, applicationId: nat, now: int)
    requires Constrained(orders, applications, bookings)
    ensures var r := ChooseOn(orders, applications, bookings, user, applicationId, now);
      && Constrained(orders, r.applications, r.bookings)
      && (r.status == HttpNotFound || r.status == HttpForbidden ==> r.applications == applications && r.bookings == bookings)
      && (r.status == HttpOk <==> r.booking.Some?)
      && (r.status == HttpOk <==> |r.bookings| == |bookings| + 1)
      && (r.status != HttpOk ==> r.bookings == bookings)
      && (r.status == HttpOk ==>
            var b := r.bookings[|bookings|];
            && r.bookings[..|bookings|] == bookings
            && r.booking == Some(b.id) && (forall x :: x in bookings ==> x.id != b.id)
            && b.application == applicationId && b.status == BookingPending
            && b.platformFee + b.tutorAmount == b.totalAmount)
  {
    var r := ChooseOn(orders, applications, bookings, user, applicationId, now);
    var found := Find(applications, ApplicationKey, applicationId);
    if found.Some? && OrderedBy(user, found.value, orders) {
      var a := found.value;
      RechosenKeepsConstraints(orders, applications, bookings, a.order, applicationId);
      if !Booked(bookings, applicationId) {
        var b := r.bookings[|bookings|];
        assert Find(r.applications, ApplicationKey, applicationId).Some?;
        BookingKeepsConstraints(orders, r.applications, bookings, b);
        AmountsAddUp(a.price);
        assert r.bookings[..|bookings|] == bookings;
      }
    }
  }

  /** After a choice the user was allowed to make, the chosen application is the only chosen one of its order. */
  lemma ChooseOnChoosesOne(orders: seq<Order>, applications: seq<Application>, bookings: seq<Booking>,
                           user: nat, applicationId: nat, now: int)
    requires Constrained(orders, applications, bookings)
    ensures var r := ChooseOn(orders, applications, bookings, user, applicationId, now);
      r.status == HttpOk || r.status == HttpServerError ==>
        exists k :: 0 <= k < |r.applications| && r.applications[k].id == applicationId && r.applications[k].isChosen
          && forall i :: 0 <= i < |r.applications| && r.applications[i].order == r.applications[k].order && r.applications[i].isChosen ==> i == k
  {
    var r := ChooseOn(orders, applications, bookings, user, applicationId, now);
    if r.status == HttpOk || r.status == HttpServerError {
      var a := Find(applications, ApplicationKey, applicationId).value;
      var k :| 0 <= k < |applications| && applications[k] == a;
      OneChosen(applications, k);
      RechosenSpec(applications, a.order, applicationId);
      assert r.applications[k].id == applicationId && r.applications[k].isChosen;
    }
  }

  // ---------------------------------------------------------------- the tables and the actions

  /** The three tables the order views write, and the tutor profiles they read. */
  class Marketplace {
    var orders: seq<Order>
    var applications: seq<Application>
    var bookings: seq<Booking>
    var tutors: seq<Tutor>

    ghost predicate Valid()
      reads this
    {
      Constrained(orders, applications, bookings)
    }

    constructor(tutors: seq<Tutor>)
      ensures this.tutors == tutors && orders == [] && applications == [] && bookings == [] && Valid()
    {
      this.tutors := tutors;
      orders := [];
      applications := [];
      bookings := [];
    }

    /** `OrderViewSet.close`: only the order's author may close it, and then it is completed. */
    method Close(user: nat, orderId: nat, q: OrderQuery) returns (status: nat)
      requires Valid()
      modifies this`orders
      ensures Valid()
      ensures var found := Find(FilteredOrders(old(orders), q), OrderKey, orderId);
        && (found.None? ==> status == HttpNotFound && orders == old(orders))
        && (found.Some? && found.value.student != user ==> status == HttpForbidden && orders == old(orders))
        && (found.Some? && found.value.student == user ==>
              status == HttpOk && orders == Update(old(orders), OrderKey, orderId, (o: Order) => o.(status := OrderCompleted)))
    {
      var found := Find(FilteredOrders(orders, q), OrderKey, orderId);
      if found.None? {
        return HttpNotFound;
      }
      if found.value.student != user {
        return HttpForbidden;
      }
      var close := (o: Order) => o.(status := OrderCompleted);
      UpdateSpec(orders, OrderKey, orderId, close);
      UpdateKeepsConstraints(orders, applications, bookings, Update(orders, OrderKey, orderId, close), bookings);
      orders := Update(orders, OrderKey, orderId, close);
      status := HttpOk;
    }

    /**
     * `ApplicationViewSet.perform_create` (with the order read from `order_id`): applying to
     * one's own order is refused; `tutor` is the applicant's tutor profile. An `order_id` naming
     * no order gets past the view and fails at `serializer.save()` on the foreign key (500).
     */
    method PerformCreate(user: nat, tutor: nat, orderId: nat, price: Cents, message: string, now: int) returns (status: nat)
      requires Valid()
      modifies this`applications
      ensures Valid()
      ensures var found := Find(old(orders), OrderKey, orderId);
        && (found.None? ==> status == HttpServerError && applications == old(applications))
        && (found.Some? && found.value.student == user ==> status == HttpBadRequest && applications == old(applications))
        && (found.Some? && found.value.student != user && (exists a :: a in old(applications) && a.order == orderId && a.tutor == tutor) ==>
              status == HttpServerError && applications == old(applications))
        && (found.Some? && found.value.student != user && !(exists a :: a in old(applications) && a.order == orderId && a.tutor == tutor) ==>
              status == HttpCreated
              && applications == old(applications) + [NewApplication(NextKey(old(applications), ApplicationKey), orderId, tutor, price, message, now)])
    {
      var found := Find(orders, OrderKey, orderId);
      if found.None? {
        return HttpServerError;
      }
      if found.value.student == user {
        return HttpBadRequest;
      }
      if exists a :: a in applications && a.order == orderId && a.tutor == tutor {
        return HttpServerError;
      }
      var a := NewApplication(NextKey(applications, ApplicationKey), orderId, tutor, price, message, now);
      ApplicationKeepsConstraints(orders, applications, bookings, a);
      applications := applications + [a];
      status := HttpCreated;
    }

    /**
     * `ApplicationViewSet.choose`: only the order's student may choose; the other applications
     * of the order are unchosen, this one chosen, and a pending booking created whose fee and
     * tutor share add up to the price. A second booking of the same application violates the
     * one-to-one constraint: the choice stays recorded and no booking is added.
     */
    method Choose(user: nat, applicationId: nat, now: int) returns (status: nat, booking: Option<nat>)
      requires Valid()
      modifies this`applications, this`bookings
      ensures Valid()
      ensures Choice(status, booking, applications, bookings) == ChooseOn(orders, old(applications), old(bookings), user, applicationId, now)
    {
      ChooseOnSpec(orders, applications, bookings, user, applicationId, now);
      var found := Find(applications, ApplicationKey, applicationId);
      if found.None? {
        return HttpNotFound, None;
      }
      var application := found.value;
      if !OrderedBy(user, application, orders) {
        return HttpForbidden, None;
      }
      applications := Rechosen(applications, application.order, applicationId);
      if Booked(bookings, applicationId) {
        return HttpServerError, None;
      }
      var id := NextKey(bookings, BookingKey);
      bookings := bookings + [NewBooking(id, applicationId, Rubles(application.price), PlatformFee(application.price), TutorAmount(application.price), now)];
      status, booking := HttpOk, Some(id);
    }

    /** `BookingViewSet.confirm_payment`: whatever its status, a booking the user is party to becomes confirmed. */
    method ConfirmPayment(user: nat, bookingId: nat) returns (status: nat)
      requires Valid()
      modifies this`bookings
      ensures Valid()
      ensures Find(BookingQueryset(old(bookings), user, applications, orders, tutors), BookingKey, bookingId).None? ==>
        status == HttpNotFound && bookings == old(bookings)
      ensures Find(BookingQueryset(old(bookings), user, applications, orders, tutors), BookingKey, bookingId).Some? ==>
        status == HttpOk && bookings == Update(old(bookings), BookingKey, bookingId, (b: Booking) => b.(status := BookingConfirmed))
    {
      if Find(BookingQueryset(bookings, user, applications, orders, tutors), BookingKey, bookingId).None? {
        return HttpNotFound;
      }
      var confirm := (b: Booking) => b.(status := BookingConfirmed);
      SetBooking(confirm, bookingId);
      status := HttpOk;
    }

    /** `BookingViewSet.complete_session`: the booking becomes completed with the notes given, "" by default. */
    method CompleteSession(user: nat, bookingId: nat, notes: Option<string>) returns (status: nat)
      requires Valid()
      modifies this`bookings
      ensures Valid()
      ensures Find(BookingQueryset(old(bookings), user, applications, orders, tutors), BookingKey, bookingId).None? ==>
        status == HttpNotFound && bookings == old(bookings)
      ensures Find(BookingQueryset(old(bookings), user, applications, orders, tutors), BookingKey, bookingId).Some? ==>
        status == HttpOk
        && bookings == Update(old(bookings), BookingKey, bookingId, (b: Booking) => b.(status := BookingCompleted, sessionNotes := notes.GetOr("")))
    {
      if Find(BookingQueryset(bookings, user, applications, orders, tutors), BookingKey, bookingId).None? {
        return HttpNotFound;
      }
      var complete := (b: Booking) => b.(status := BookingCompleted, sessionNotes := notes.GetOr(""));
      SetBooking(complete, bookingId);
      status := HttpOk;
    }

    /** Rewrites the booking with the key by `f`, which keeps its key and its application. */
    method SetBooking(f: Booking -> Booking, bookingId: nat)
      requires Valid()
      requires forall b :: f(b).id == b.id && f(b).application == b.application
      modifies this`bookings
      ensures Valid()
      ensures bookings == Update(old(bookings), BookingKey, bookingId, f)
    {
      UpdateSpec(bookings, BookingKey, bookingId, f);
      UpdateKeepsConstraints(orders, applications, bookings, orders, Update(bookings, BookingKey, bookingId, f));
      bookings := Update(bookings, BookingKey, bookingId, f);
    }
  }
}
