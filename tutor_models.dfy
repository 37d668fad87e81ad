/**
 * `apps/tutors/models.py`: the tutor profile's rating aggregate, the subjects it displays and the
 * rules a tutor review obeys.
 */
module TutorModels {
  import opened Optional
  import opened Text
  import opened Http
  import opened Money

  /** The review rating choices `range(1, 6)`. */
  const MinReviewRating: nat := 1
  const MaxReviewRating: nat := 5

  // ---------------------------------------------------------------- the running mean

  function Total(rs: seq<nat>): nat {
    if rs == [] then 0 else Total(rs[..|rs| - 1]) + rs[|rs| - 1]
  }

  /** The mean of the ratings added so far; 0 for none, the field's default. */
  function Mean(rs: seq<nat>): real {
    if rs == [] then 0.0 else Total(rs) as real / |rs| as real
  }

  /** `(rating * rating_count + r) / (rating_count + 1)`: the rating after one more. */
  function Updated(rating: real, count: nat, r: nat): (m: real)
    ensures m * (count + 1) as real == rating * count as real + r as real
  {
    (rating * count as real + r as real) / (count + 1) as real
  }

  lemma MeanTimesCount(rs: seq<nat>)
    ensures Mean(rs) * |rs| as real == Total(rs) as real
  {
  }

  /** Updating the mean of `rs` with `r` gives the mean of `rs + [r]`. */
  lemma UpdatedKeepsMean(rs: seq<nat>, r: nat)
    ensures Updated(Mean(rs), |rs|, r) == Mean(rs + [r])
  {
    var rs' := rs + [r];
    assert rs'[..|rs'| - 1] == rs;
    MeanTimesCount(rs);
  }

  /** Adding 5 and then 4 to a fresh profile gives 4.5. */
  lemma FiveThenFour()
    ensures Updated(Updated(0.0, 0, 5), 1, 4) == 4.5
    ensures Mean([5, 4]) == 4.5
  {
    assert [5, 4][..1] == [5];
    assert [5][..0] == [];
  }

  /** The mean stays within the range of the ratings added. */
  lemma MeanWithin(rs: seq<nat>, lo: nat, hi: nat)
    requires rs != []
    requires forall i :: 0 <= i < |rs| ==> lo <= rs[i] <= hi
    ensures lo as real <= Mean(rs) <= hi as real
  {
    TotalWithin(rs, lo, hi);
    QuotientWithin(lo, hi, Total(rs), |rs|);
  }

  /** A total between `Times(lo, n)` and `Times(hi, n)` has its quotient by `n` between `lo` and `hi`. */
  lemma QuotientWithin(lo: nat, hi: nat, t: nat, n: nat)
    requires n > 0 && Times(lo, n) <= t <= Times(hi, n)
    ensures lo as real <= t as real / n as real <= hi as real
  {
    TimesIsProduct(lo, n);
    TimesIsProduct(hi, n);
    RealQuotient(lo as real, hi as real, t as real, n as real);
  }

  lemma RealQuotient(lo: real, hi: real, t: real, n: real)
    requires n > 0.0 && lo * n <= t <= hi * n
    ensures lo <= t / n <= hi
  {
    var q := t / n;
    assert q * n == t;
    Scale(lo, q, n);
    Scale(q, hi, n);
  }

  /** `a * n` as repeated addition, so that the bounds below are linear. */
  function Times(a: nat, n: nat): nat {
    if n == 0 then 0 else Times(a, n - 1) + a
  }

  lemma {:induction false} TimesIsProduct(a: nat, n: nat)
    ensures Times(a, n) as real == a as real * n as real
  {
    if n > 0 {
      TimesIsProduct(a, n - 1);
      StepProduct(a as real, (n - 1) as real, n as real);
    }
  }

  lemma StepProduct(a: real, k: real, n: real)
    requires n == k + 1.0
    ensures a * n == a * k + a
  {
  }

  /** The total of ratings within [lo, hi] lies within [lo·n, hi·n]. */
  lemma {:induction false} TotalWithin(rs: seq<nat>, lo: nat, hi: nat)
    requires forall i :: 0 <= i < |rs| ==> lo <= rs[i] <= hi
    ensures Times(lo, |rs|) <= Total(rs) <= Times(hi, |rs|)
  {
    if rs != [] {
      var init := rs[..|rs| - 1];
      assert forall i :: 0 <= i < |init| ==> init[i] == rs[i];
      TotalWithin(init, lo, hi);
    }
  }

  lemma Scale(a: real, b: real, c: real)
    requires c > 0.0 && a * c <= b * c
    ensures a <= b
  {
  }

  /** A review rating is one of the choices 1..5. */
  predicate ValidReviewRating(r: nat) {
    MinReviewRating <= r <= MaxReviewRating
  }

  /** A tutor whose ratings all came from reviews has a rating within 1..5. */
  lemma ReviewedRatingInRange(rs: seq<nat>)
    requires rs != [] && forall i :: 0 <= i < |rs| ==> ValidReviewRating(rs[i])
    ensures 1.0 <= Mean(rs) <= 5.0
  {
    MeanWithin(rs, MinReviewRating, MaxReviewRating);
  }

  // ---------------------------------------------------------------- the profile

  /**
   * `TutorProfile`, the fields `add_rating` updates and the defaults of the flags. `ratings` is
   * the history of ratings added since the profile was created.
   */
  class TutorProfile {
    const id: nat
    const user: nat
    var rating: real
    var ratingCount: nat
    var isPremium: bool
    var isVerified: bool
    ghost var ratings: seq<nat>

    /** The rating is the mean of the ratings added, and rating × count is their sum. */
    ghost predicate Valid()
      reads this
    {
      && ratingCount == |ratings|
      && rating == Mean(ratings)
      && rating * ratingCount as real == Total(ratings) as real
    }

    /** A new profile: rating 0, count 0, not premium, not verified. */
    constructor(id: nat, user: nat)
      ensures this.id == id && this.user == user
      ensures rating == 0.0 && ratingCount == 0 && !isPremium && !isVerified
      ensures ratings == [] && Valid()
    {
      this.id := id;
      this.user := user;
      rating := 0.0;
      ratingCount := 0;
      isPremium := false;
      isVerified := false;
      ratings := [];
    }

    /** `add_rating`: one more rating, folded into the mean. */
    method AddRating(r: nat)
      requires Valid()
      modifies this`rating, this`ratingCount, this`ratings
      ensures Valid()
      ensures ratingCount == old(ratingCount) + 1
      ensures rating == Updated(old(rating), old(ratingCount), r)
      ensures ratings == old(ratings) + [r]
    {
      UpdatedKeepsMean(ratings, r);
      MeanTimesCount(ratings + [r]);
      var totalRating := rating * ratingCount as real + r as real;
      ratingCount := ratingCount + 1;
      rating := totalRating / ratingCount as real;
      ratings := ratings + [r];
    }
  }

  // ---------------------------------------------------------------- rows

  datatype Subject = Subject(id: nat, name: string)

  /** The fields of the `users` row that the tutor code reads. */
  datatype User = User(id: nat, username: string, firstName: string, lastName: string, isActive: bool)

  /**
   * A row of `tutor_profiles` as the queries read it, joined with its user and its subjects
   * (`vector` is None when the column is null; `availability` is the JSON schedule).
   */
  datatype Tutor = Tutor(
    id: nat, user: User, bio: string, experienceYears: nat, hourlyRate: Cents,
    rating: real, ratingCount: nat, isPremium: bool, vector: Option<seq<real>>,
    availability: Json, city: string, region: string, isVerified: bool, createdAt: int,
    subjects: seq<Subject>)

  function TutorKey(t: Tutor): nat { t.id }

  /** `tutor.subjects.filter(id=subject).exists()`. */
  predicate Teaches(t: Tutor, subject: nat) {
    exists i :: 0 <= i < |t.subjects| && t.subjects[i].id == subject
  }

  // ---------------------------------------------------------------- subjects and reviews

  function Names(subjects: seq<Subject>): (r: seq<string>)
    ensures |r| == |subjects| && forall i :: 0 <= i < |r| ==> r[i] == subjects[i].name
  {
    if subjects == [] then [] else [subjects[0].name] + Names(subjects[1..])
  }

  /** `subjects_display`: the subject names joined by ", ". */
  function SubjectsDisplay(subjects: seq<Subject>): string {
    Join(Names(subjects), ", ")
  }

  /** No subjects display as the empty string; names without a comma can be read back by splitting. */
  lemma SubjectsDisplayReadsBack(subjects: seq<Subject>)
    ensures subjects == [] ==> SubjectsDisplay(subjects) == ""
    ensures subjects != [] && (forall k, i :: 0 <= k < |subjects| && 0 <= i < |subjects[k].name| ==> subjects[k].name[i] != ',')
      ==> Split(SubjectsDisplay(subjects), ", ") == Names(subjects)
  {
    if subjects != [] && (forall k, i :: 0 <= k < |subjects| && 0 <= i < |subjects[k].name| ==> subjects[k].name[i] != ',') {
      SplitJoin(Names(subjects), ',', ' ');
    }
  }

  /** `TutorReview`: who reviewed which tutor, and the rating given. */
  datatype Review = Review(tutor: nat, student: nat, rating: nat, text: string)

  /** `unique_together = ['tutor', 'student']`, and every rating one of the choices. */
  ghost predicate ReviewsValid(reviews: seq<Review>) {
    && (forall i, j :: 0 <= i < j < |reviews| ==>
          (reviews[i].tutor, reviews[i].student) != (reviews[j].tutor, reviews[j].student))
    && (forall i :: 0 <= i < |reviews| ==> ValidReviewRating(reviews[i].rating))
  }

  predicate Reviewed(reviews: seq<Review>, tutor: nat, student: nat) {
    exists i :: 0 <= i < |reviews| && reviews[i].tutor == tutor && reviews[i].student == student
  }

  /** A review with a valid rating from a student who has not reviewed the tutor keeps the table valid. */
  lemma AddReviewKeepsValid(reviews: seq<Review>, r: Review)
    requires ReviewsValid(reviews)
    requires !Reviewed(reviews, r.tutor, r.student) && ValidReviewRating(r.rating)
    ensures ReviewsValid(reviews + [r])
  {
    var rs := reviews + [r];
    forall i, j | 0 <= i < j < |rs|
      ensures (rs[i].tutor, rs[i].student) != (rs[j].tutor, rs[j].student)
    {
      if j == |reviews| {
        assert rs[i] == reviews[i];
      }
    }
  }
}
