/**
 * `apps/orders/models.py`: orders, applications, bookings and cached embeddings as table rows,
 * their derived properties, their defaults and the constraints the tables declare.
 */
module OrderModels {
  import opened Optional
  import opened Text
  import opened Http
  import opened Money
  import opened Tables
  import opened TutorModels

  /** A row of `orders`; `status` is one of `OrderStatuses` when written by the platform. */
  datatype Order = Order(
    id: nat, student: nat, subject: Subject, title: string, description: string, goalText: string,
    budgetMin: Cents, budgetMax: Cents, schedule: Json, timezone: string,
    formatOnline: bool, formatOffline: bool, city: string, region: string,
    status: string, createdAt: int)

  const OrderOpen: string := "open"
  const OrderCompleted: string := "completed"
  const OrderStatuses: seq<string> := [OrderOpen, "in_progress", OrderCompleted, "cancelled"]

  /** A row of `applications`: a tutor's proposal for an order. */
  datatype Application = Application(
    id: nat, order: nat, tutor: nat, price: Cents, message: string, isChosen: bool, createdAt: int)

  /** A row of `bookings`; the amounts are in roubles. */
  datatype Booking = Booking(
    id: nat, application: nat, stripeSessionId: string, stripePaymentIntentId: string,
    totalAmount: real, platformFee: real, tutorAmount: real, status: string,
    sessionNotes: string, createdAt: int)

  const BookingPending: string := "pending"
  const BookingConfirmed: string := "confirmed"
  const BookingCompleted: string := "completed"
  const BookingStatuses: seq<string> := [BookingPending, BookingConfirmed, BookingCompleted, "cancelled", "refunded"]

  /** A row of `embedding_cache`. */
  datatype EmbeddingEntry = EmbeddingEntry(text: string, textHash: string, vector: seq<real>)

  // ---------------------------------------------------------------- defaults

  const DefaultTimezone: string := "UTC"

  /** A new order with every defaulted column at its default. */
  function NewOrder(id: nat, student: nat, subject: Subject, title: string, description: string, createdAt: int): Order {
    Order(id, student, subject, title, description, "", 0, 0, Obj(map[]), DefaultTimezone, true, false, "", "", OrderOpen, createdAt)
  }

  function NewApplication(id: nat, order: nat, tutor: nat, price: Cents, message: string, createdAt: int): Application {
    Application(id, order, tutor, price, message, false, createdAt)
  }

  function NewBooking(id: nat, application: nat, total: real, fee: real, tutorAmount: real, createdAt: int): Booking {
    Booking(id, application, "", "", total, fee, tutorAmount, BookingPending, "", createdAt)
  }

  /** The declared defaults: open, no budget, online only, not chosen, pending payment. */
  lemma Defaults(id: nat, student: nat, subject: Subject, title: string, description: string, createdAt: int)
    ensures var o := NewOrder(id, student, subject, title, description, createdAt);
      o.status == OrderOpen && o.budgetMin == 0 && o.budgetMax == 0 && o.formatOnline && !o.formatOffline
      && o.status in OrderStatuses
    ensures !NewApplication(id, id, id, 0, "", createdAt).isChosen
    ensures NewBooking(id, id, 0.0, 0.0, 0.0, createdAt).status == BookingPending
    ensures NewBooking(id, id, 0.0, 0.0, 0.0, createdAt).status in BookingStatuses
  {
  }

  // ---------------------------------------------------------------- budget_display

  const BudgetSuffix: string := " ₽/час"

  /** `budget_display`: one amount when the bounds agree, else "min-max", then the suffix. */
  function BudgetDisplay(o: Order): string {
    if o.budgetMin == o.budgetMax then DecimalText(o.budgetMin) + BudgetSuffix
    else DecimalText(o.budgetMin) + "-" + DecimalText(o.budgetMax) + BudgetSuffix
  }

  /** "x-y" splits back into x and y when x holds its only point three from its end. */
  lemma RangeParts(x: string, y: string, x': string, y': string)
    requires PointAt3(x) && PointAt3(x') && x + "-" + y == x' + "-" + y'
    ensures x == x' && y == y'
  {
    assert x + "-" + y == x + ("-" + y);
    assert x' + "-" + y' == x' + ("-" + y');
    SamePoint(x, "-" + y, x', "-" + y');
    SameTail(x, "-" + y, x', "-" + y');
    SameTail("-", y, "-", y');
  }

  /** Texts "a-b" and "a'-b'" that agree have a == a' and b == b'. */
  lemma RangeTextInjective(a: Cents, b: Cents, a': Cents, b': Cents)
    requires DecimalText(a) + "-" + DecimalText(b) == DecimalText(a') + "-" + DecimalText(b')
    ensures a == a' && b == b'
  {
    DecimalTextShape(a);
    DecimalTextShape(a');
    RangeParts(DecimalText(a), DecimalText(b), DecimalText(a'), DecimalText(b'));
    DecimalTextInjective(a, a');
    DecimalTextInjective(b, b');
  }

  /** A single amount never reads like a range. */
  lemma SingleIsNotRange(m: Cents, a: Cents, b: Cents)
    ensures DecimalText(m) != DecimalText(a) + "-" + DecimalText(b)
  {
    DecimalTextShape(m);
    DecimalTextShape(a);
    NotRangeText(DecimalText(m), DecimalText(a), DecimalText(b));
  }

  /** A text whose first point is third from the end is not another such text, a dash and more. */
  lemma NotRangeText(z: string, x: string, y: string)
    requires PointAt3(z) && PointAt3(x)
    ensures z != x + "-" + y
  {
    if z == x + "-" + y {
      assert z + [] == x + ("-" + y);
      SamePoint(z, [], x, "-" + y);
    }
  }

  /** The display determines both budget bounds. */
  lemma BudgetDisplayInjective(o: Order, o': Order)
    requires BudgetDisplay(o) == BudgetDisplay(o')
    ensures o.budgetMin == o'.budgetMin && o.budgetMax == o'.budgetMax
  {
    var body := if o.budgetMin == o.budgetMax then DecimalText(o.budgetMin)
      else DecimalText(o.budgetMin) + "-" + DecimalText(o.budgetMax);
    var body' := if o'.budgetMin == o'.budgetMax then DecimalText(o'.budgetMin)
      else DecimalText(o'.budgetMin) + "-" + DecimalText(o'.budgetMax);
    assert BudgetDisplay(o) == body + BudgetSuffix && BudgetDisplay(o') == body' + BudgetSuffix;
    SameTail(body, BudgetSuffix, body', BudgetSuffix);
    if o.budgetMin == o.budgetMax && o'.budgetMin == o'.budgetMax {
      DecimalTextInjective(o.budgetMin, o'.budgetMin);
    } else if o.budgetMin == o.budgetMax {
      SingleIsNotRange(o.budgetMin, o'.budgetMin, o'.budgetMax);
    } else if o'.budgetMin == o'.budgetMax {
      SingleIsNotRange(o'.budgetMin, o.budgetMin, o.budgetMax);
    } else {
      RangeTextInjective(o.budgetMin, o.budgetMax, o'.budgetMin, o'.budgetMax);
    }
  }

  /** The range form is used exactly when the bounds differ. */
  lemma BudgetDisplayForm(o: Order)
    ensures o.budgetMin == o.budgetMax <==> BudgetDisplay(o) == DecimalText(o.budgetMin) + BudgetSuffix
  {
    if o.budgetMin != o.budgetMax && BudgetDisplay(o) == DecimalText(o.budgetMin) + BudgetSuffix {
      SameTail(DecimalText(o.budgetMin) + "-" + DecimalText(o.budgetMax), BudgetSuffix, DecimalText(o.budgetMin), BudgetSuffix);
      SingleIsNotRange(o.budgetMin, o.budgetMin, o.budgetMax);
    }
  }

  // ---------------------------------------------------------------- Booking.student and Booking.tutor

  function OrderKey(o: Order): nat { o.id }
  function ApplicationKey(a: Application): nat { a.id }
  function BookingKey(b: Booking): nat { b.id }

  /** `Meta.ordering = ['-created_at']` of orders, applications and bookings: newest first. */
  function NewestOrderFirst(a: Order, b: Order): bool {
    a.createdAt >= b.createdAt
  }

  function NewestApplicationFirst(a: Application, b: Application): bool {
    a.createdAt >= b.createdAt
  }

  function NewestBookingFirst(a: Booking, b: Booking): bool {
    a.createdAt >= b.createdAt
  }

  /** `Booking.student`: the student of the order the booked application answers. */
  function BookingStudent(b: Booking, applications: seq<Application>, orders: seq<Order>): (r: Option<nat>)
    ensures r.Some? ==>
      exists a, o :: a in applications && o in orders && a.id == b.application && o.id == a.order && o.student == r.value
  {
    match Find(applications, ApplicationKey, b.application)
    case None => None
    case Some(a) =>
      match Find(orders, OrderKey, a.order)
      case None => None
      case Some(o) => Some(o.student)
  }

  /** `Booking.tutor`: the tutor of the booked application. */
  function BookingTutor(b: Booking, applications: seq<Application>): (r: Option<nat>)
    ensures r.Some? ==> exists a :: a in applications && a.id == b.application && a.tutor == r.value
  {
    match Find(applications, ApplicationKey, b.application)
    case None => None
    case Some(a) => Some(a.tutor)
  }

  // ---------------------------------------------------------------- declared constraints

  /**
   * What the tables declare: primary keys; one application per (order, tutor); a booking per
   * application at most (one-to-one); every foreign key resolving.
   */
  ghost predicate Constrained(orders: seq<Order>, applications: seq<Application>, bookings: seq<Booking>) {
    && KeysUnique(orders, OrderKey)
    && KeysUnique(applications, ApplicationKey)
    && KeysUnique(bookings, BookingKey)
    && (forall i, j :: 0 <= i < j < |applications| ==>
          (applications[i].order, applications[i].tutor) != (applications[j].order, applications[j].tutor))
    && (forall i, j :: 0 <= i < j < |bookings| ==> bookings[i].application != bookings[j].application)
    && (forall a :: a in applications ==> Find(orders, OrderKey, a.order).Some?)
    && (forall b :: b in bookings ==> Find(applications, ApplicationKey, b.application).Some?)
  }

  /** Every application's tutor is a row of `tutor_profiles`. */
  ghost predicate TutorsResolve(applications: seq<Application>, tutors: seq<Tutor>) {
    forall a :: a in applications ==> Find(tutors, TutorKey, a.tutor).Some?
  }

  /** In constrained tables every booking has a student and a tutor, those of its application. */
  lemma BookingPartiesResolve(orders: seq<Order>, applications: seq<Application>, bookings: seq<Booking>, i: nat)
    requires Constrained(orders, applications, bookings) && i < |bookings|
    ensures BookingStudent(bookings[i], applications, orders).Some?
    ensures BookingTutor(bookings[i], applications).Some?
    ensures exists a :: a in applications && a.id == bookings[i].application && BookingTutor(bookings[i], applications) == Some(a.tutor)
  {
    assert bookings[i] in bookings;
  }

  /** `text_hash` is unique and at most 64 characters long. */
  ghost predicate EmbeddingsConstrained(entries: seq<EmbeddingEntry>) {
    && (forall i, j :: 0 <= i < j < |entries| ==> entries[i].textHash != entries[j].textHash)
    && (forall i :: 0 <= i < |entries| ==> |entries[i].textHash| <= 64)
  }

  /** `EmbeddingCache.__str__`: a label built from the first 50 characters of the text only. */
  function EmbeddingLabel(e: EmbeddingEntry): string {
    "Embedding cache for " + Take(e.text, 50) + "..."
  }

  /** Two entries share a label exactly when their texts share the first 50 characters. */
  lemma EmbeddingLabelIffPrefix(e: EmbeddingEntry, e': EmbeddingEntry)
    ensures EmbeddingLabel(e) == EmbeddingLabel(e') <==> Take(e.text, 50) == Take(e'.text, 50)
  {
    if EmbeddingLabel(e) == EmbeddingLabel(e') {
      SameTail("Embedding cache for " + Take(e.text, 50), "...", "Embedding cache for " + Take(e'.text, 50), "...");
      var head := "Embedding cache for ";
      assert (head + Take(e.text, 50))[|head|..] == Take(e.text, 50);
      assert (head + Take(e'.text, 50))[|head|..] == Take(e'.text, 50);
    }
  }
}
