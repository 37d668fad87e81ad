/**
 * `apps/tutors/views.py`: the tutor list with its query filters and order, the search action,
 * profile creation and the review action.
 */
module TutorViews {
  import opened Optional
  import opened Text
  import opened Http
  import opened Money
  import opened Tables
  import opened Sorting
  import opened TutorModels

  // ---------------------------------------------------------------- the list query

  /**
   * The list endpoint's query parameters. A parameter that is absent or empty is None (or "");
   * `min_rating` and `max_price` are given after `float(...)`.
   */
  datatype TutorQuery = TutorQuery(
    subject: Option<nat>, city: string, minRating: Option<real>, maxPrice: Option<real>, verified: string)

  /** All the filters of `get_queryset`, as one condition on a tutor. */
  predicate Admits(q: TutorQuery, t: Tutor) {
    && (q.subject.Some? ==> Teaches(t, q.subject.value))
    && (q.city != "" ==> Contains(Lower(t.city), Lower(q.city)))
    && (q.minRating.Some? ==> t.rating >= q.minRating.value)
    && (q.maxPrice.Some? ==> Rubles(t.hourlyRate) <= q.maxPrice.value)
    && (q.verified == "true" ==> t.isVerified)
  }

  /** The filters applied one after another, each only when its parameter is given. */
  function Filtered(tutors: seq<Tutor>, q: TutorQuery): seq<Tutor> {
    var bySubject := if q.subject.Some? then Where(tutors, (t: Tutor) => Teaches(t, q.subject.value)) else tutors;
    var byCity := if q.city != "" then Where(bySubject, (t: Tutor) => Contains(Lower(t.city), Lower(q.city))) else bySubject;
    var byRating := if q.minRating.Some? then Where(byCity, (t: Tutor) => t.rating >= q.minRating.value) else byCity;
    var byPrice := if q.maxPrice.Some? then Where(byRating, (t: Tutor) => Rubles(t.hourlyRate) <= q.maxPrice.value) else byRating;
    if q.verified == "true" then Where(byPrice, (t: Tutor) => t.isVerified) else byPrice
  }

  /** The filters are conjunctive: a tutor is listed exactly when it passes every given filter. */
  lemma FilteredConjunctive(tutors: seq<Tutor>, q: TutorQuery, t: Tutor)
    ensures t in Filtered(tutors, q) <==> t in tutors && Admits(q, t)
  {
  }

  /** `order_by('-rating', '-created_at')`: higher rating first, then newer first. */
  function BestFirst(a: Tutor, b: Tutor): bool {
    a.rating > b.rating || (a.rating == b.rating && a.createdAt >= b.createdAt)
  }

  lemma BestFirstIsPreorder()
    ensures TotalPreorder(BestFirst)
  {
  }

  /** `get_queryset`: the filtered tutors in their listing order. */
  function GetQueryset(tutors: seq<Tutor>, q: TutorQuery): seq<Tutor> {
    Sort(Filtered(tutors, q), BestFirst)
  }

  /**
   * The listing holds the admitted tutors, each as often as in the table, ordered by rating and
   * then by creation time, both descending.
   */
  lemma GetQuerysetSpec(tutors: seq<Tutor>, q: TutorQuery)
    ensures multiset(GetQueryset(tutors, q)) == multiset(Filtered(tutors, q))
    ensures forall t :: t in GetQueryset(tutors, q) <==> t in tutors && Admits(q, t)
    ensures Sorted(GetQueryset(tutors, q), BestFirst)
  {
    SortPermutation(Filtered(tutors, q), BestFirst);
    BestFirstIsPreorder();
    SortSorted(Filtered(tutors, q), BestFirst);
    forall t ensures t in GetQueryset(tutors, q) <==> t in tutors && Admits(q, t) {
      assert t in GetQueryset(tutors, q) <==> t in multiset(GetQueryset(tutors, q));
      FilteredConjunctive(tutors, q, t);
    }
  }

  // ---------------------------------------------------------------- search

  /** A tutor matches the text when its first name, last name, bio or a subject name contains it. */
  predicate MatchesText(t: Tutor, text: string) {
    || Contains(Lower(t.user.firstName), Lower(text))
    || Contains(Lower(t.user.lastName), Lower(text))
    || Contains(Lower(t.bio), Lower(text))
    || exists i :: 0 <= i < |t.subjects| && Contains(Lower(t.subjects[i].name), Lower(text))
  }

  /** `search`: nothing for an empty query; otherwise the listing restricted to matching tutors. */
  function Search(tutors: seq<Tutor>, q: TutorQuery, text: string): seq<Tutor> {
    if text == "" then [] else Where(GetQueryset(tutors, q), t => MatchesText(t, text))
  }

  /** A search finds the listed tutors that match, in listing order, and nothing for empty text. */
  lemma SearchSpec(tutors: seq<Tutor>, q: TutorQuery, text: string)
    ensures text == "" ==> Search(tutors, q, text) == []
    ensures text != "" ==> forall t :: t in Search(tutors, q, text) <==> t in tutors && Admits(q, t) && MatchesText(t, text)
    ensures Sorted(Search(tutors, q, text), BestFirst)
  {
    GetQuerysetSpec(tutors, q);
    if text != "" {
      WhereKeepsSorted(GetQueryset(tutors, q), t => MatchesText(t, text), BestFirst);
    }
  }

  // ---------------------------------------------------------------- profiles and reviews

  /** The review form: the rating given (None when missing) and the text. */
  datatype ReviewInput = ReviewInput(rating: Option<int>, text: string)

  /** `TutorReviewSerializer.is_valid`: the rating is one of the choices 1..5. */
  predicate ValidInput(input: ReviewInput) {
    input.rating.Some? && MinReviewRating <= input.rating.value <= MaxReviewRating
  }

  predicate NoDuplicates(users: seq<nat>) {
    forall i, j :: 0 <= i < j < |users| ==> users[i] != users[j]
  }

  /** The tables the tutor views write: who owns a profile, and the reviews. */
  class TutorProfileViewSet {
    var profileUsers: seq<nat>
    var reviews: seq<Review>

    /** At most one profile per user; reviews unique per (tutor, student) with ratings 1..5. */
    ghost predicate Valid()
      reads this
    {
      NoDuplicates(profileUsers) && ReviewsValid(reviews)
    }

    constructor()
      ensures profileUsers == [] && reviews == [] && Valid()
    {
      profileUsers := [];
      reviews := [];
    }

    /** `perform_create`: a user who already has a profile is refused. */
    method PerformCreate(user: nat) returns (status: nat)
      requires Valid()
      modifies this`profileUsers
      ensures Valid()
      ensures user in old(profileUsers) ==> status == HttpBadRequest && profileUsers == old(profileUsers)
      ensures user !in old(profileUsers) ==> status == HttpCreated && profileUsers == old(profileUsers) + [user]
    {
      if user in profileUsers {
        return HttpBadRequest;
      }
      profileUsers := profileUsers + [user];
      status := HttpCreated;
    }

    /**
     * `add_review`: refused for the tutor's own user, for a second review by the same student
     * and for an invalid form; otherwise the review is stored and folded into the rating once.
     */
    method AddReview(tutor: TutorProfile, user: nat, input: ReviewInput) returns (status: nat)
      requires Valid() && tutor.Valid()
      modifies this`reviews, tutor`rating, tutor`ratingCount, tutor`ratings
      ensures Valid() && tutor.Valid()
      ensures tutor.user == user || Reviewed(old(reviews), tutor.id, user) || !ValidInput(input) ==>
        && status == HttpBadRequest && reviews == old(reviews)
        && tutor.rating == old(tutor.rating) && tutor.ratingCount == old(tutor.ratingCount)
        && tutor.ratings == old(tutor.ratings)
      ensures tutor.user != user && !Reviewed(old(reviews), tutor.id, user) && ValidInput(input) ==>
        && status == HttpCreated
        && reviews == old(reviews) + [Review(tutor.id, user, input.rating.value, input.text)]
        && tutor.ratings == old(tutor.ratings) + [input.rating.value]
        && tutor.ratingCount == old(tutor.ratingCount) + 1
        && tutor.rating == Updated(old(tutor.rating), old(tutor.ratingCount), input.rating.value)
    {
      if tutor.user == user {
        return HttpBadRequest;
      }
      if Reviewed(reviews, tutor.id, user) {
        return HttpBadRequest;
      }
      if !ValidInput(input) {
        return HttpBadRequest;
      }
      var review := Review(tutor.id, user, input.rating.value, input.text);
      AddReviewKeepsValid(reviews, review);
      reviews := reviews + [review];
      tutor.AddRating(review.rating);
      status := HttpCreated;
    }
  }
}
