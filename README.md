# Tutors platform core, modelled in Dafny

This project models the logic of a tutoring marketplace and proves properties of that model. On the marketplace, students post orders, tutors apply, a student chooses an application, and that choice creates a booking. The model also covers the rest of the repository's core:
- the AI matching service that proposes tutors for an order;
- the learning-to-rank helper and the script that trains it;
- three exchange-rate checkers;
- a code-style fixer.

The storage layer becomes plain Dafny sequences of rows:
- `seq<Order>`, `seq<Application>`, `seq<Booking>`, `seq<Tutor>`;
- `.get(id=…)` is `Tables.Find`;
- `.filter(…)` is `Tables.Where`;
- a model's `Meta.ordering` is a stable `Sorting.Sort`.

Foreign code becomes parameters (oracles):
- the network: `net: nat -> Response`, the reply to the n-th request;
- the clock: `now`;
- OpenAI embeddings, the LLM reply, LightGBM models, SHA-256, cosine similarity and `ndcg_score`.

Money is held in cents (`Money.Cents`, an `int`). Scores and rates are `real`.

Modules, one per source file, plus shared ones:

| module | models |
|---|---|
| `Optional`, `Text`, `Http`, `Money`, `Tables`, `Sorting` | shared: Option; Python string operations (`lower`, `strip`, `split`, `join`, `in`, slicing); decoded JSON and replies; Decimal amounts and the Decimal/float `TypeError`; ORM tables; Python's stable `sorted`/`list.sort` |
| `TutorModels`, `TutorViews` | `apps/tutors/models.py`, `apps/tutors/views.py` |
| `OrderModels`, `OrderViews` | `apps/orders/models.py`, `apps/orders/views.py` (with the application serializer) |
| `Embeddings` | `_get_embedding` and the `EmbeddingCache` table |
| `MlServices` | `apps/ml/services.py` |
| `Ranker` | `ml/ranker.py` |
| `TrainRankerScript` | `ml/scripts/train_ranker.py` |
| `FinalExchange`, `ImprovedExchange`, `SimpleExchange` | the three exchange-rate scripts |
| `CodeStyle` | `fix_code_style.py` |

Where the source changes state in place, the model uses classes with `modifies` clauses:
- `TutorModels.TutorProfile`, `TutorViews.TutorProfileViewSet`, `OrderViews.Marketplace`;
- `Embeddings.EmbeddingStore`, `MlServices.MatchingService`, `Ranker.TutorRanker`;
- the exchange-rate services and managers.

Each loop in the source is a method with a loop, proved against a specification function, with one exception: the `for part in parts[1:]` loop of `fix_long_lines` sits inside the per-line rewrite that the line loop applies, and is the recursive function `CodeStyle.Continuations`.

The training script and the matching service use different feature sets:
- The script fits its model on seven columns (`TrainRankerScript.FeatureColumns`).
- The service builds nine features per candidate.
- So a model from the script scores every candidate with the neutral 0.5, and the service's ranking is then the candidate order.

`TrainRankerScript.ColumnsOfServiceRow` and `TrainRankerScript.ScriptModelIsNeutral` state this.

## Model

| member | source | states |
|---|---|---|
| TutorModels.TutorProfile.AddRating | apps/tutors/models.py:49-54 | one more rating: the count grows by one, and the rating becomes `(rating*count + r)/(count+1)`; the stored rating stays the mean of all ratings added, so rating × count = sum of ratings |
| TutorModels.UpdatedKeepsMean | apps/tutors/models.py:49-54 | updating the mean of a list of ratings with one more rating gives the mean of the longer list |
| TutorModels.Updated | apps/tutors/models.py:51-53 | the updated mean times the new count equals the old total plus the new rating |
| TutorModels.FiveThenFour | apps/tutors/models.py:49-54 | a fresh profile rated 5 and then 4 has rating 4.5 |
| TutorModels.MeanWithin | apps/tutors/models.py:49-54 | the running mean stays within the range of the ratings added |
| TutorModels.ReviewedRatingInRange | apps/tutors/models.py:90 | a tutor whose ratings all come from reviews (choices 1..5) has a rating in 1..5 |
| TutorModels.TutorProfile.constructor | apps/tutors/models.py:15-35 | a new profile has the declared defaults: rating 0, count 0, not premium, not verified |
| TutorModels.Names | apps/tutors/models.py:59 | the subject names in table order, one per subject |
| TutorModels.SubjectsDisplay | apps/tutors/models.py:56-59 | the subject names joined by ", "; `SubjectsDisplayReadsBack` states it |
| TutorModels.SubjectsDisplayReadsBack | apps/tutors/models.py:56-59 | no subjects display as ""; names without commas are read back from the display by splitting at ", " |
| TutorModels.AddReviewKeepsValid | apps/tutors/models.py:90-99 | a review with rating 1..5 from a student who has not yet reviewed that tutor keeps `unique_together (tutor, student)` and the rating range |
| TutorViews.FilteredConjunctive | apps/tutors/views.py:30-45 | a tutor is listed exactly when it passes every filter given (subject, city icontains, minimum rating, maximum price, verified) |
| TutorViews.GetQueryset | apps/tutors/views.py:24-47 | the admitted tutors sorted best first; `GetQuerysetSpec` states it |
| TutorViews.GetQuerysetSpec | apps/tutors/views.py:24-47 | the listing is a permutation of the admitted tutors, sorted by rating and then by creation time, both descending |
| TutorViews.Search | apps/tutors/views.py:99-115 | the listed tutors matching the text; `SearchSpec` states which |
| TutorViews.SearchSpec | apps/tutors/views.py:99-115 | empty text finds nothing; otherwise a listed tutor is found exactly when its first name, last name, bio or a subject name contains the text; order as in the listing |
| TutorViews.TutorProfileViewSet.PerformCreate | apps/tutors/views.py:49-55 | a user who already has a profile gets 400 and nothing changes; otherwise 201 and the profile is recorded |
| TutorViews.TutorProfileViewSet.AddReview | apps/tutors/views.py:70-97 | 400 with nothing changed for a self-review, a second review by the same student or an invalid form; otherwise 201, the review is stored and the tutor's rating is updated by `add_rating` |
| OrderModels.Defaults | apps/orders/models.py:27-43 | a new order is open, with a zero budget, online only; a new application is not chosen; a new booking is pending |
| OrderModels.BudgetDisplay | apps/orders/models.py:63-67 | "min ₽/час" for equal bounds, else "min-max ₽/час"; `BudgetDisplayForm` and `BudgetDisplayInjective` state it |
| OrderModels.BudgetDisplayForm | apps/orders/models.py:63-67 | the single-amount form "min ₽/час" is used exactly when the two bounds are equal |
| OrderModels.BudgetDisplayInjective | apps/orders/models.py:63-67 | the display determines both budget bounds |
| OrderModels.RangeTextInjective | apps/orders/models.py:67 | two range texts "a-b" that agree have the same a and the same b |
| OrderModels.SingleIsNotRange | apps/orders/models.py:66-67 | a single amount never reads like a range |
| Money.DecimalTextInjective | apps/orders/models.py:66-67 | two amounts with two decimal places and the same text are the same amount |
| Money.DecimalTextShape | apps/orders/models.py:66-67 | an amount's text ends in a point and two digits, and that point is the first one in the text |
| OrderModels.BookingStudent | apps/orders/models.py:143-145 | a booking's student is the student of the order that the booked application answers |
| OrderModels.BookingTutor | apps/orders/models.py:147-149 | a booking's tutor is the tutor of the booked application |
| OrderModels.BookingPartiesResolve | apps/orders/models.py:111-149 | in tables that meet the declared constraints, every booking has a student and a tutor |
| OrderModels.EmbeddingLabelIffPrefix | apps/orders/models.py:167-168 | two cache entries share a label exactly when their texts share the first 50 characters |
| OrderViews.FilteredOrdersConjunctive | apps/orders/views.py:23-37 | an order is listed exactly when it passes every filter given (status, subject, city icontains, format) |
| OrderViews.OrderQueryset | apps/orders/views.py:18-39 | the admitted orders sorted newest first; `OrderQuerysetSpec` states it |
| OrderViews.OrderQuerysetSpec | apps/orders/views.py:18-39 | the order list is a permutation of the admitted orders, newest first |
| OrderViews.BookingQueryset | apps/orders/views.py:143-147 | the user's bookings sorted newest first; `BookingQuerysetSpec` states it |
| OrderViews.BookingQuerysetSpec | apps/orders/views.py:143-147 | a booking is listed exactly when the user is its student or its tutor's user; newest first (`Meta.ordering`) |
| OrderViews.AmountsAddUp | apps/orders/views.py:122-128 | the 10% fee and the 90% tutor share add up to the price; for a non-negative price neither is negative and the fee is at most the share |
| OrderViews.PlatformFeeAsWrittenRaises | apps/orders/views.py:125-126 | as written, `Decimal price * 0.1` raises `TypeError` for every price |
| OrderViews.ValidatedOrderAsWrittenRaises | apps/orders/views.py:77 | as written, `validated_data['order']` fails for every application form, whose only order field is `order_id` |
| OrderViews.ValidatedOrderReadsForm | apps/orders/serializers.py:54-65 | reading `order_id` from the validated form yields the order id that was posted |
| OrderViews.Rechosen | apps/orders/views.py:115-119 | unchoosing the order's applications and then choosing one keeps the table's length |
| OrderViews.RechosenSpec | apps/orders/views.py:115-119 | afterwards an application of the order is chosen exactly when it is the chosen one; other orders' applications and every other column are unchanged |
| OrderViews.OneChosen | apps/orders/views.py:115-119 | with unique keys, exactly one application of the order is chosen afterwards, the chosen one |
| OrderViews.RechosenKeepsConstraints | apps/orders/models.py:92 | choosing keeps every declared constraint and the set of application keys |
| OrderViews.BookingKeepsConstraints | apps/orders/models.py:111 | a new booking of an unbooked application keeps the one-to-one constraint |
| OrderViews.ApplicationKeepsConstraints | apps/orders/models.py:92 | a new application of a different (order, tutor) pair keeps `unique_together` |
| OrderViews.UpdateKeepsConstraints | apps/orders/models.py:92-111 | updates that keep keys and booked applications keep the constraints |
| OrderViews.Marketplace.Close | apps/orders/views.py:48-60 | 404 for an order outside the listing; 403 for anyone but its student; otherwise 200 and the order becomes completed, with nothing else changed |
| OrderViews.Marketplace.PerformCreate | apps/orders/views.py:75-82 | 400 for one's own order; 500 for an `order_id` naming no order (the foreign key fails on save); 500 for a second application to the same order (`unique_together`); otherwise 201 and one new unchosen application |
| OrderViews.Marketplace.Choose | apps/orders/views.py:102-133 | the answer and both tables afterwards are those of `ChooseOn` on the tables before, and the constraints still hold |
| OrderViews.ChooseOn | apps/orders/views.py:102-133 | status, booking and the new tables of `choose`; `ChooseOnSpec` and `ChooseOnChoosesOne` state its properties |
| OrderViews.ChooseOnSpec | apps/orders/views.py:102-133 | choosing keeps every declared constraint; 404 and 403 change nothing; a booking is added exactly on 200, under a fresh key, for the chosen application, pending, with fee and share adding up to its total, and no booking is added otherwise |
| OrderViews.ChooseOnChoosesOne | apps/orders/views.py:115-119 | after an allowed choice (200, or 500 on a second booking) the chosen application is the only chosen application of its order |
| OrderViews.Marketplace.ConfirmPayment | apps/orders/views.py:149-158 | 404 for a booking the user is not party to; otherwise 200 and the booking's status becomes confirmed, whatever it was |
| OrderViews.Marketplace.CompleteSession | apps/orders/views.py:160-170 | 404 for a booking the user is not party to; otherwise 200, status completed, notes as given ("" by default) |
| OrderViews.Marketplace.SetBooking | apps/orders/views.py:155-156 | a save of one booking rewrites exactly that row and keeps the constraints |
| Embeddings.FirstWithHash | apps/ml/services.py:196 | nothing is found exactly when no entry has that digest; what is found is an entry with that digest |
| Embeddings.EmbeddingStore.GetEmbedding | apps/ml/services.py:187-220 | blank text (only Python whitespace) gives None with no lookup; a cached digest gives the stored vector with no call; otherwise one call, and on success with the insert accepted, one new entry (the first 1000 characters, the digest, the vector); the digests stay unique; the vector, entries and calls afterwards are those of `Lookup` on the state before |
| Embeddings.StoreKeepsConstraints | apps/orders/models.py:157 | a new entry with an absent digest keeps `text_hash` unique |
| Embeddings.HitAfterStore | apps/ml/services.py:196-216 | after storing a computed embedding, the next lookup of that text is a hit that returns the stored vector |
| Embeddings.LookupServedFromCache | apps/ml/services.py:187-220 | a lookup that returned a vector, repeated on the state it left, returns the same vector with no call and no new entry |
| MlServices.CandidateTutors | apps/ml/services.py:85-107 | the first 50 tutors that pass the filters, in table order; `FilteredSpec` states which tutors pass |
| MlServices.FilteredSpec | apps/ml/services.py:88-105 | the filters admit exactly the verified tutors with an active user who teach the subject, within the budget when there is one, and near the order when it is offline with a city |
| MlServices.CandidatesSpec | apps/ml/services.py:85-107 | at most 200 candidates, each a tutor meeting every condition, none twice; either all such tutors are candidates or the 200 cap is reached |
| MlServices.AffordableIsTenPercent | apps/ml/services.py:95-98 | the budget test admits a rate exactly when it is at most 110% of `budget_max` |
| MlServices.BudgetCapAsWrittenRaises | apps/ml/services.py:97 | as written, `Decimal budget_max * 1.1` raises `TypeError` for every order |
| MlServices.EmptyRegionAdmitsAll | apps/ml/services.py:101-105 | with an empty order region the location filter admits every tutor, because "" is contained in every region |
| MlServices.AvailabilityOverlap | apps/ml/services.py:138-145 | 0.5 unless both schedules are given, then 0.8, as `AvailabilityDefaults` states |
| MlServices.AvailabilityDefaults | apps/ml/services.py:138-145 | the availability score is 0.8 when both schedules are given and 0.5 otherwise |
| MlServices.LocationMatch | apps/ml/services.py:147-159 | the location tier of a tutor for an order; `LocationTiers` states the three tiers and when each applies |
| MlServices.LocationTiers | apps/ml/services.py:147-159 | 1.0 for an order that is not offline, or whose city occurs in the tutor's city; 0.7 for a region match, reached only when both cities are non-empty; 0.3 otherwise; no other value |
| MlServices.Similarity | apps/ml/services.py:161-185 | the cosine guarded against missing, empty and zero-norm vectors; `SimilarityGuards` states the guards |
| MlServices.SimilarityGuards | apps/ml/services.py:161-185 | 0.5 when either vector is missing or empty, or has a zero norm; otherwise the cosine |
| MlServices.FeatureRow | apps/ml/services.py:109-136 | nine features per candidate |
| MlServices.LearnedScores | apps/ml/services.py:222-232 | one score per feature row |
| MlServices.MismatchedModelIsNeutral | apps/ml/services.py:227-232 | a model of another width than the rows scores every row 0.5 |
| MlServices.PriceScoreAtMostOne | apps/ml/services.py:246 | the price score is at most 1 |
| MlServices.FallbackScore | apps/ml/services.py:239-261 | the weighted sum of the six fallback terms; `FallbackScoreWithin` bounds it |
| MlServices.FallbackScoreWithin | apps/ml/services.py:238-261 | with a rating in 0..5 and a cosine in -1..1, the fallback score lies in -0.07..1.0 |
| MlServices.FallbackIgnoresRateWithoutBudget | apps/ml/services.py:245-247 | without a budget, the tutor's rate does not affect the fallback score |
| MlServices.FallbackPrefersRating | apps/ml/services.py:242 | with all else equal, a higher rating never lowers the fallback score |
| MlServices.PriceScoreAsWrittenRaises | apps/ml/services.py:246 | as written, `1.0 - Decimal` raises `TypeError` whenever the order has a budget |
| MlServices.Zip | apps/ml/services.py:58-59 | one (tutor, score) pair per candidate |
| MlServices.RankingSpec | apps/ml/services.py:58-62 | `sorted(…, key=score, reverse=True)` is a permutation, best first, with ties kept in input order |
| MlServices.MatchReasons | apps/ml/services.py:347-372 | the reasons, in the source's order; `MatchReasonsPresent` states when each is given |
| MlServices.MatchReasonsPresent | apps/ml/services.py:347-372 | each reason is given exactly when its condition holds: subject taught, rate within [min, max], rating ≥ 4.5, experience ≥ 5, and an offline order whose city occurs in the tutor's |
| MlServices.MatchReasonsOrdered | apps/ml/services.py:347-372 | the reasons come in their fixed order, each kind at most once |
| MlServices.CityReasonMeansFullLocation | apps/ml/services.py:368-370 | a city reason is given only where the location score is 1.0 |
| MlServices.Named | apps/ml/services.py:333 | a candidate found has the id asked for and is one of the candidates |
| MlServices.Picked | apps/ml/services.py:328-339 | the picks that name a candidate, in reply order, at most one per pick, each with score 0.9 and its one reason |
| MlServices.Reranked | apps/ml/services.py:327-345 | the picks of a well-formed reply resolved against the candidates, cut to `limit`; `RerankedSpec` states what a re-ranking holds |
| MlServices.RerankedSpec | apps/ml/services.py:327-345 | a reply with an item that has no id gives None; otherwise at most `limit` matches, each a candidate, scored 0.9 |
| MlServices.LlmRerank | apps/ml/services.py:327-341 | the loop over the parsed reply computes the re-ranking |
| MlServices.Firsts | apps/ml/services.py:68 | the tutors of the ranked pairs, in order |
| MlServices.WithReasons | apps/ml/services.py:76-83 | each ranked pair with its tutor's match reasons |
| MlServices.Assemble | apps/ml/services.py:66-83 | the re-ranking when it is tried and non-empty, else the first `limit` ranked tutors with their reasons; `AssembleSpec` bounds it |
| MlServices.AssembleSpec | apps/ml/services.py:67-83 | at most `limit` matches, each of a ranked tutor; none for an empty ranking |
| MlServices.Similarities | apps/ml/services.py:259 | one similarity per candidate |
| MlServices.FallbackScores | apps/ml/services.py:238-261 | one fallback score per candidate |
| MlServices.FeatureRows | apps/ml/services.py:109-136 | one nine-feature row per candidate |
| MlServices.MatchingService.VectorSimilarity | apps/ml/services.py:161-185 | the order's embedding is asked for only when the tutor has a vector; the similarity follows the guards; the embedding seen and the store afterwards are those of `TutorLookup` on the store before |
| MlServices.MatchingService.GenerateFeatures | apps/ml/services.py:109-136 | one nine-feature row per candidate, in candidate order, whose similarity uses the embedding the candidate's lookup returned; the embeddings seen and the store afterwards are those of `LookupsOn`, one lookup per candidate in order |
| MlServices.MatchingService.ScoreOf | apps/ml/services.py:239-261 | one candidate's fallback score, accumulated term by term, with the similarity of the embedding its lookup returned; the store afterwards is that of `TutorLookup` |
| MlServices.MatchingService.FallbackRanking | apps/ml/services.py:234-263 | the stable sort, best first, of the candidates paired with their fallback scores; the embeddings seen and the store afterwards are those of `LookupsOn` |
| MlServices.MatchingService.GetAiMatches | apps/ml/services.py:34-83 | no candidates give [] with no embedding lookups; otherwise the candidates are sorted best first by the model's scores of their nine-feature rows when a model is loaded, else by their fallback scores; the result is the re-ranking when the first 2·limit ranked tutors are more than `limit` and the reply gives a non-empty one, else the first `limit` with their reasons; the store afterwards is that of one pass of lookups over the candidates, or of two passes without a model |
| MlServices.MatchingService.RankCandidates | apps/ml/services.py:51-64 | the model's scores of the feature rows or the fallback scores, the candidates sorted best first by them, and the store after one pass of lookups (two without a model) |
| MlServices.MatchingService.AssembleMatches | apps/ml/services.py:66-83 | the answer is `Assemble` of the ranking: the non-empty re-ranking when more than `limit` tutors are in the top 2·limit, else the first `limit` with their reasons |
| MlServices.LookupsOnStoresOnce | apps/ml/services.py:109-136 | a pass of lookups over the candidates makes at most one call per candidate and stores the order's embedding at most once, after which its digest is found |
| MlServices.LookupsOnCached | apps/ml/services.py:161-220 | with the order's embedding cached, a pass makes no call, stores nothing, and every candidate with a vector sees that embedding |
| Ranker.ExtractFeatures | ml/ranker.py:32-68 | eight features, as many as `feature_names` |
| Ranker.FeatureRules | ml/ranker.py:23-66 | subject 1.0 iff the tutor teaches it; location 1.0 iff both cities are given and equal ignoring case; format 1.0 iff online, or offline with a location match; availability 1.0 if given, else 0.5; each of these is 0/1 |
| Ranker.SameCityIsServiceLocation | ml/ranker.py:48 | a same-city match here is a full 1.0 location score for the matching service |
| Ranker.BookedOrder | ml/ranker.py:88 | the booked order is a row of the orders table |
| Ranker.ApplicantsOf | ml/ranker.py:97-100 | one applicant per application whose tutor is found; all of them when every tutor exists |
| Ranker.VisitsOf | ml/ranker.py:87-97 | at most one visit per completed booking |
| Ranker.VisitsOfAll | ml/ranker.py:87-97 | in tables that meet the constraints, no completed booking is dropped |
| Ranker.CompletedVisitsCount | ml/ranker.py:74-97 | one visit per completed booking |
| Ranker.Label | ml/ranker.py:104 | the label is 1 exactly when the application was chosen, else 0 |
| Ranker.FeaturesOf | ml/ranker.py:99-101 | one feature row per applicant of the order |
| Ranker.LabelsOf | ml/ranker.py:103-105 | one label per applicant of the order |
| Ranker.Run | ml/ranker.py:84-106 | the three lists and the group counter after the bookings visited so far; `RunSpec` states its invariant |
| Ranker.RunSpec | ml/ranker.py:84-106 | the three lists are equally long; every row has eight features; labels are 0/1; group ids lie in 1..counter and never decrease; the counter is the number of changes of order between consecutive bookings |
| Ranker.RevisitOpensGroup | ml/ranker.py:92-94 | bookings of orders A, B, A give three groups, and A's rows appear twice |
| Ranker.RepeatAddsNothing | ml/ranker.py:92 | a booking of the same order as the previous one adds nothing |
| Ranker.GroupRows | ml/ranker.py:80-106 | the loop with its two counters yields the lists of `Run` |
| Ranker.PrepareTrainingData | ml/ranker.py:70-120 | the rows of the completed bookings, or one row of eight zeros with label 0 and group 1 when there are none |
| Ranker.DummyNeverTrains | ml/ranker.py:108-129 | the dummy data is a single row, so training on it always raises |
| Ranker.TutorRanker.Train | ml/ranker.py:122-157 | fewer than two rows: refused, model unchanged; otherwise the model is the fit of the prepared data |
| Ranker.Scores | ml/ranker.py:185-190 | one model score per tutor |
| Ranker.PredictSpec | ml/ranker.py:192-196 | the sorted pairs are a permutation, best first, with ties in input order |
| Ranker.PairsFromTutors | ml/ranker.py:193-196 | the ranking has one pair per tutor, each holding one of the tutors |
| Sorting.SortInPlace | ml/ranker.py:194 | the in-place sort leaves the array holding the stable descending sort of its old contents |
| Ranker.TutorRanker.Predict | ml/ranker.py:173-196 | no model: each tutor with a random score, in input order; no tutors: []; a model for rows of another width: raises; otherwise the pairs sorted in place by score |
| Ranker.ConsideredSpec | ml/ranker.py:207-216 | at most 50 tutors, each teaching the order's subject and, for an offline-only order with a city, in that city ignoring case |
| Ranker.TutorRanker.GetTopK | ml/ranker.py:198-238 | an unknown order gives []; otherwise at most `k` (for k ≥ 0) and at most 50 results, each of a considered tutor |
| TrainRankerScript.SameTiersAsService | ml/scripts/train_ranker.py:26-38 | the script's location tiers equal the matching service's, 1.0/0.7/0.3, with the region tier only when both cities are given |
| TrainRankerScript.ApplicantsOf | ml/scripts/train_ranker.py:54-57 | one applicant per application whose tutor is found; all of them when every tutor exists |
| TrainRankerScript.MakeRow | ml/scripts/train_ranker.py:60-82 | in_budget is 1 iff rate ≤ budget; was_chosen is 1 iff chosen; was_booked is 1 iff a booking exists with status completed; each is 0/1; the location is the service's tier |
| TrainRankerScript.RowsOf | ml/scripts/train_ranker.py:56-84 | one row per application of the visited order |
| TrainRankerScript.CollectRows | ml/scripts/train_ranker.py:52-84 | the nested loop yields the rows of all visits in visiting order |
| TrainRankerScript.LoadTrainingData | ml/scripts/train_ranker.py:41-86 | the rows of every visit the order query yields |
| TrainRankerScript.Rows | ml/scripts/train_ranker.py:52-84 | the rows of the visits in visiting order; `RowsAppend` and `SquaredRows` state their shape |
| TrainRankerScript.RowsAppend | ml/scripts/train_ranker.py:52-84 | the rows of consecutive visit lists are the rows of each, concatenated |
| TrainRankerScript.RepeatedVisits | ml/scripts/train_ranker.py:46-56 | visiting an order n times yields n copies of its rows |
| TrainRankerScript.ApplicantsCount | ml/scripts/train_ranker.py:54 | with every tutor found, an order has one applicant per application |
| TrainRankerScript.Visits | ml/scripts/train_ranker.py:46-56 | the orders newest first, each once per application it has; `SingleOrderVisits` and `RepeatedVisits` state it |
| TrainRankerScript.SingleOrderVisits | ml/scripts/train_ranker.py:46-48 | with no `distinct()`, an order is visited once per application it has |
| TrainRankerScript.SquaredRows | ml/scripts/train_ranker.py:46-84 | an order with n applications contributes n·n rows |
| TrainRankerScript.Projected | ml/scripts/train_ranker.py:106-113 | seven features per row, as many as `feature_columns` |
| TrainRankerScript.TrainingSet | ml/scripts/train_ranker.py:94-114 | no rows: the script stops before training; otherwise one seven-wide row and one was_chosen label per record |
| TrainRankerScript.TestFeaturesFit | ml/scripts/train_ranker.py:250-254 | the three test candidates are each seven wide |
| TrainRankerScript.ColumnsOfServiceRow | ml/scripts/train_ranker.py:106-110 | the seven columns are the matching service's feature row without its availability and similarity, in the same order |
| TrainRankerScript.ScriptModelIsNeutral | ml/scripts/train_ranker.py:106-110 | a model fitted on the seven columns scores every nine-wide service row with the neutral 0.5 |
| TrainRankerScript.UniqueOrders | ml/scripts/train_ranker.py:193 | exactly the order ids of the test rows, none twice |
| TrainRankerScript.NdcgSpec | ml/scripts/train_ranker.py:192-204 | at most one score per order, each the NDCG of an order with at least two candidates |
| TrainRankerScript.NdcgScores | ml/scripts/train_ranker.py:192-204 | the loop collects the NDCG of each test order with more than one row that did not raise |
| FinalExchange.ProviderUrl | final_exchange_check.py:53-74 | each provider's URL, None for a keyed provider without its key; `ProviderUrlKeys` states which |
| FinalExchange.ProviderUrlKeys | final_exchange_check.py:53-74 | exactly the two keyed providers are skipped without their key, and the key goes into their URL |
| FinalExchange.ParseProviderResponse | final_exchange_check.py:181-211 | the rate a provider's body holds; `ParseProviderResponseCases` states where each provider keeps it |
| FinalExchange.ParseProviderResponseCases | final_exchange_check.py:181-211 | where each provider's body holds the rate, and the `success` flag the keyed providers check first |
| FinalExchange.UnsuccessfulBodyGivesNoRate | final_exchange_check.py:192-204 | a keyed provider that reports failure never yields a rate |
| FinalExchange.FetchResult | final_exchange_check.py:142-179 | the rate record a reply yields; `FetchResultCases` states its cases |
| FinalExchange.FetchResultCases | final_exchange_check.py:163-179 | a request yields a rate exactly when its body parses; the rate records the pair, the provider, the URL and the time; every exception yields none |
| FinalExchange.Retry | final_exchange_check.py:114-140 | the trace of the retry loop from a given attempt: rate, requests, sleeps and clock; `RetryBounds`, `RetryClock` and `RetryAllFail` state its properties |
| FinalExchange.RetryClock | final_exchange_check.py:118-137 | the clock after the retry loop has moved on by exactly the sleeps taken |
| FinalExchange.RetryAdvance | final_exchange_check.py:118-137 | a failed attempt moves its request and its back-off sleep from the rest of the trace to what is done |
| FinalExchange.RetryFinish | final_exchange_check.py:120-122 | an attempt that yields a rate ends the loop with its one request |
| FinalExchange.RetryExhausted | final_exchange_check.py:139-140 | nothing is left once every attempt is spent |
| FinalExchange.RetryBounds | final_exchange_check.py:118-140 | at most one request per remaining attempt, each the provider's request; the rate is one a fetch gave |
| FinalExchange.TryTraceRate | final_exchange_check.py:114-140 | at most three requests, each to the provider's URL; a rate returned is the provider's, for the pair asked |
| FinalExchange.RetryAllFail | final_exchange_check.py:136-137 | when every attempt fails, the provider is abandoned after sleeping 1 s and then 2 s |
| FinalExchange.RetryWithoutKey | final_exchange_check.py:148-159 | a provider without its key makes no request, yet all three attempts and both sleeps are spent |
| FinalExchange.RetryFirstSuccess | final_exchange_check.py:120-122 | a first attempt that yields a rate is the only request, and no sleep is taken |
| FinalExchange.TryForTriesWell | final_exchange_check.py:103-104 | each provider is tried as `_try_provider` describes |
| FinalExchange.FromProviders | final_exchange_check.py:103-112 | the trace of the provider loop, stopping at the first rate; `FromProvidersFirst`, `FromProvidersAllFail` and `FromProvidersClock` state its properties |
| FinalExchange.FromProvidersFirst | final_exchange_check.py:103-109 | a rate comes from a provider of the list, for the pair asked |
| FinalExchange.FromProvidersAllFail | final_exchange_check.py:103-112 | when no provider yields a rate, each spends two sleeps and at most three requests |
| FinalExchange.FromProvidersClock | final_exchange_check.py:103-109 | the clock after the provider loop has moved on by exactly the sleeps taken |
| FinalExchange.ProvidersAdvance | final_exchange_check.py:103-105 | a provider that yields nothing moves its requests and sleeps to what is done |
| FinalExchange.ProvidersFinish | final_exchange_check.py:105-109 | a provider that yields a rate ends the loop |
| FinalExchange.ProvidersExhausted | final_exchange_check.py:111-112 | nothing is left once every provider is tried |
| FinalExchange.FromProvidersStopsAtFirst | final_exchange_check.py:103-109 | a first provider that yields a rate is the only one tried |
| FinalExchange.CacheKey | final_exchange_check.py:88 | `from_to`; `CacheKeySeparator` and `CacheKeyInjective` state that it separates the codes |
| FinalExchange.CacheKeySeparator | final_exchange_check.py:88 | for a code without an underscore, the key's first underscore is the separator |
| FinalExchange.CacheKeyInjective | final_exchange_check.py:88 | codes without underscores never share a cache key |
| FinalExchange.GetCacheStats | final_exchange_check.py:260-267 | size and keys of the cache; the oldest and newest timestamps are those of some entry, and bound all the others; None for an empty cache |
| FinalExchange.ExchangeRateService.FetchFromProvider | final_exchange_check.py:142-179 | one request, unless the provider lacks its key; the rate is that attempt's |
| FinalExchange.ExchangeRateService.Sleep | final_exchange_check.py:137 | the sleep is recorded and the clock moves on by it |
| FinalExchange.ExchangeRateService.TryOnce | final_exchange_check.py:119-137 | one fetch; on failure the back-off sleep of that attempt |
| FinalExchange.ExchangeRateService.TryProvider | final_exchange_check.py:114-140 | the retry loop: rate, requests, sleeps and clock as the retry trace gives them |
| FinalExchange.ExchangeRateService.LookupFrom | final_exchange_check.py:76-112 | what `get_exchange_rate` leaves: requests and sleeps only grow; a rate found is cached under the pair's key, and no other key is added or changed |
| FinalExchange.ExchangeRateService.GetExchangeRate | final_exchange_check.py:76-112 | a fresh cached rate with no request; otherwise the providers in order, and the first rate found is cached and returned; rate, cache, requests, sleeps and clock afterwards are those of `LookupFrom` |
| FinalExchange.ExchangeRateService.ConvertAmount | final_exchange_check.py:213-223 | no lookup and no change for a non-positive amount, the clock included; otherwise the amount times the rate `get_exchange_rate` returns, or None, with the cache, requests, sleeps and clock it leaves |
| FinalExchange.RateOf | final_exchange_check.py:222-223 | the rate of a rate record, present exactly when a record was found |
| FinalExchange.Share | final_exchange_check.py:317 | a share of a positive whole lies in 0..1 and is 1 or 0 exactly when the part is the whole or nothing |
| FinalExchange.SuccessRate | final_exchange_check.py:316-317 | 0 when nothing was done; always in 0..100; 100 exactly when there were successes and no errors; 0 exactly when there were no successes |
| FinalExchange.ExchangeRateManager.GetRate | final_exchange_check.py:279-295 | the rate is that of the service's `get_exchange_rate`, whose new state the service is left in; every call counts once, as a success exactly when a rate is returned; a failure sets the last error |
| FinalExchange.ExchangeRateManager.Convert | final_exchange_check.py:297-312 | the result and the service's new state are those of `convert_amount`; every call counts once, as a success exactly when an amount is returned; a failure sets the last error |
| FinalExchange.ExchangeRateManager.GetStats | final_exchange_check.py:314-326 | the counters, their total, the success rate, the last error and the cache statistics: size, keys, and the oldest and newest timestamps, which are those of some entry and bound all the others, None for an empty cache |
| Http.NumberAt | improved_exchange_check.py:79-80 | `data[outer][inner]` is found exactly when both keys are present in nested objects and the value is a number |
| Http.ParseRates | simple_exchange_check.py:57-66 | a rate exactly when the reply decoded and its `rates` object holds a number for the currency |
| Http.Converted | final_exchange_check.py:220-223 | a converted amount exists exactly when a rate was found |
| ImprovedExchange.CachedRate | improved_exchange_check.py:44-48 | a cached rate is served exactly when its entry is younger than five minutes |
| ImprovedExchange.CacheServesFreshEntry | improved_exchange_check.py:29-48 | a rate just cached is served for the next five minutes and not after |
| ImprovedExchange.ExchangeRateChecker.TryPrimaryApi | improved_exchange_check.py:71-99 | one request to the primary endpoint with a 10 s timeout; the rate is the parsed reply's |
| ImprovedExchange.ExchangeRateChecker.TryFallbackApi | improved_exchange_check.py:101-129 | one request to the fallback endpoint with a 15 s timeout; the rate is the parsed reply's |
| ImprovedExchange.ExchangeRateChecker.GetExchangeRate | improved_exchange_check.py:31-69 | a fresh cached rate with no request; otherwise the primary, and the fallback only when the primary yields nothing; a rate found is cached |
| ImprovedExchange.ExchangeRateChecker.ConvertAmount | improved_exchange_check.py:131-151 | no lookup and no change for a non-positive amount; otherwise the amount times the rate found, with the requests and the cache `get_exchange_rate` leaves |
| SimpleExchange.Answer | simple_exchange_check.py:38-69 | None for an empty code; 1.0 for equal codes; None inside the one-second window; otherwise the parsed reply |
| SimpleExchange.SameCurrencyIgnoresLimiter | simple_exchange_check.py:43-51 | the same-currency answer comes before the limiter, and makes no request |
| SimpleExchange.LimiterWindow | simple_exchange_check.py:47-51 | after a request at t, a new request is made exactly once a full second has passed |
| SimpleExchange.SimpleExchangeChecker.GetRate | simple_exchange_check.py:27-85 | at most one request; the last request time moves to now only when the reply decoded |
| SimpleExchange.SimpleExchangeChecker.Convert | simple_exchange_check.py:87-109 | no lookup and no change for a non-positive amount; otherwise the amount times the answer, with the request and the last request time `get_rate` leaves |
| CodeStyle.AddNewlineAtEnd | fix_code_style.py:12-25 | writes exactly when the content is non-empty and lacks a final newline, and then writes it with one newline added |
| CodeStyle.AddNewlineIdempotent | fix_code_style.py:18-20 | after the fix, non-empty content ends in a newline, and a second run writes nothing |
| CodeStyle.ReadLines | fix_code_style.py:32 | `readlines` pieces are non-empty, and all but the last end in a newline |
| CodeStyle.ConcatReadLines | fix_code_style.py:32-42 | writing back the lines read reproduces the content |
| CodeStyle.ReadLinesConcat | fix_code_style.py:32-42 | well-shaped lines are read back unchanged after writing |
| CodeStyle.Rewritten | fix_code_style.py:35-38 | each line is replaced by its rewrite where one fires, else kept |
| CodeStyle.RewriteLines | fix_code_style.py:35-38 | the loop computes the rewritten lines, and `modified` is set exactly when some rewrite fires |
| CodeStyle.TrimLine | fix_code_style.py:37 | `rstrip() + '\n'` for a line with trailing whitespace, else no rewrite; `CleanLineShape` states the shape of the result |
| CodeStyle.CleanLines | fix_code_style.py:35-38 | each line becomes `rstrip() + '\n'` when it has trailing whitespace |
| CodeStyle.RemoveTrailingWhitespace | fix_code_style.py:28-47 | writes exactly when some line differs from its `rstrip()`, and then writes the cleaned lines |
| CodeStyle.CleanLineShape | fix_code_style.py:37 | a cleaned line has no trailing whitespace, or ends in exactly one newline with none before it; cleaning it again changes nothing |
| CodeStyle.CleanLinesShaped | fix_code_style.py:35-42 | cleaned lines keep the shape of lines read from a file |
| CodeStyle.CleanContent | fix_code_style.py:35-42 | the cleaned lines written back; `CleanContentIdempotent` and `CleanContentUnchanged` state its properties |
| CodeStyle.CleanContentIdempotent | fix_code_style.py:35-42 | cleaning the cleaned content gives the same content |
| CodeStyle.NewlineCountsAsTrailingSpace | fix_code_style.py:36-40 | any content holding a newline is reported modified, because `rstrip` strips the newline too |
| CodeStyle.LineHolding | fix_code_style.py:32 | a newline of the content ends one of the lines read |
| CodeStyle.CleanContentUnchanged | fix_code_style.py:35-42 | content with no line to fix would be written back unchanged |
| CodeStyle.FStringMatch | fix_code_style.py:64 | the first `f"` and the text up to the next double quote, which holds no double quote |
| CodeStyle.FixFString | fix_code_style.py:62-76 | the branch fires only when the literal is longer than 50 characters and contains ". " |
| CodeStyle.FStringPartsRejoin | fix_code_style.py:69-74 | the two new literals together hold exactly the text of the old one |
| CodeStyle.FixFStringSplices | fix_code_style.py:71-74 | with a single `f"`, only the matched literal is replaced; the text around it is kept |
| CodeStyle.LiteralOnlyOnce | fix_code_style.py:71-74 | in a line with a single `f"`, the matched literal occurs nowhere else |
| CodeStyle.FixLogger | fix_code_style.py:78-95 | the logger branch fires only on lines with `logger.info(`, `logger.warning(` or `logger.error(`, and only on lines longer than `max_length - 20` |
| CodeStyle.Continuations | fix_code_style.py:91-93 | one `indent + "    + " + part` line per remaining part, in order; `FixLogger` uses it |
| CodeStyle.FixLine | fix_code_style.py:59-95 | a line no longer than the limit is never rewritten; a fix of a line with a single `f"` is the f-string branch's fix |
| CodeStyle.FixLines | fix_code_style.py:59-95 | each line is replaced by its fix where one fires |
| CodeStyle.FixLongLines | fix_code_style.py:50-104 | writes exactly when a rule fires on some line, and then writes the fixed lines joined by newlines |
| CodeStyle.ShortLinesUnchanged | fix_code_style.py:59-60 | content whose lines are all within the limit is never written, and would be unchanged |
| CodeStyle.ModuleName | fix_code_style.py:125-132 | the module name of an import statement; `FromBranchUnreachable` states which branch gives it |
| CodeStyle.FromBranchUnreachable | fix_code_style.py:125-132 | the `from … import` branch is never taken, because " import " contains "import " |
| CodeStyle.StrippedLines | fix_code_style.py:114-119 | one stripped line per line of the content |
| CodeStyle.CheckUnusedImports | fix_code_style.py:107-146 | an import is flagged exactly when no later code line contains its name |
| CodeStyle.ScanImports | fix_code_style.py:118-143 | the two loops flag the imports whose name is unused |
| CodeStyle.UsedBeforeSkip | fix_code_style.py:122 | a blank, comment or import line marks nothing used |
| CodeStyle.MarkUsed | fix_code_style.py:124-132 | the inner loop marks the names of the imports seen so far that the code line contains |
| CodeStyle.UnusedSingle | fix_code_style.py:118-143 | a name given by one import is flagged exactly when no code line after that import contains it |
| CodeStyle.Unused | fix_code_style.py:134-143 | the imports whose name no later code line contains; `UnusedMember` and `UnusedSingle` state it |
| CodeStyle.UnusedMember | fix_code_style.py:134-143 | an import is reported exactly when it has a name that is never marked used |
| CodeStyle.ProcessFile | fix_code_style.py:149-159 | the three fixers run in turn, each on what the previous left; the count is the number that wrote, at most 3; then the import scan |

## Left out

- HTTP, OpenAI, LightGBM, pickle, file reads and writes, `os.walk`, `time.sleep`, `datetime.now()` and logging are foreign. The network is an oracle indexed by request number, the clock is a parameter and sleeps are recorded delays.
- `get_supported_currencies`, `clear_cache` and the `main` functions of the exchange scripts are not part of this model: plain network reads and printing.
- SHA-256 is a given function (`EmbeddingStore.hash`) assumed to give 64-character digests. No collision property is assumed, so a hit is a hit on the digest.
- `Text.Lower` covers ASCII and basic Cyrillic only. SQL `icontains`/`iexact` are modelled by `Lower` and substring or equality.
- MlServices.Similarity: the cosine is a given function, and a zero norm is modelled as "every component is zero". That is exact over the reals; float rounding is not modelled.
- MlServices.MatchingService.VectorSimilarity: a tutor vector is "missing" when absent or empty. How pgvector answers `not tutor.vector` is not modelled.
- Prompt building, the chat call and `json.loads` of the LLM reply are left out. The reply is given as an already-parsed list of picks (an absent list when the call or the parse raises).
- MlServices.MatchReasonsPresent: the reason texts carry their values (`HighRating(rating)`), not the rendered Russian strings with Decimal formatting.
- Ranker.TutorRanker.Predict: with no model, the random scores are given by the function `random`. The global random state is not modelled.
- Ranker.TutorRanker.Train: fitting is the function `fit`. `np.bincount(groups)`, the training parameters, saving and the returned metrics are left out.
- `load_model`, `save_model` and `_load_model` are left out (pickle files). A loaded model is a constructor argument.
- TrainRankerScript: `train_test_split`, LightGBM training, feature importances and the JSON and model files are left out. The test split is given as the scored test rows, and `ndcg_score` is a given function. The mean and deviation of the NDCG scores are printed only.
- float32 casts in `extract_features` and float casts of Decimal amounts are exact reals here.
- Amounts are exact: `DecimalField(decimal_places=2)` rounding of the stored rating, fee and tutor share is not modelled.
- Tutors' `rating` is stored with two decimals in the source; `TutorProfile.AddRating` keeps the exact mean.
- OrderViews.Marketplace.Choose: the source has no transaction around `choose`. When the booking insert fails with 500, the new choice is kept, and so is the model's.
- OrderViews.Marketplace.PerformCreate: the serializer's `get_or_create` of the applicant's tutor profile is not modelled; the applicant's profile id is given.
- Permissions, authentication, serializers' field lists and response bodies are left out. Responses are status codes and the rows changed.
- The orders query of `load_training_data` is modelled as each order repeated once per application in a block, newest order first. The SQL join may interleave orders with equal creation times.
- Http.NumberAt, Http.ParseRates, FinalExchange.ParseProviderResponse: a rate is kept only when the value found is a JSON number. The scripts return whatever value they find under the currency (a string, a list, an object), and the final script caches it; such a value is no rate here.
- CodeStyle.Continuations: the `for part in parts[1:]` loop of `fix_long_lines` is a recursive function, as it runs inside `FixLine`, the function each line is rewritten by.
- Stripe, WebSocket consumers, Celery tasks, the demo-data generator and the training command stub are left out.

## Findings

| source | as written | input that shows it | evidently intended | confidence | as-written member | corrected member |
|---|---|---|---|---|---|---|
| apps/orders/views.py:77 | `serializer.validated_data['order']`, while the serializer's only writable order field is `order_id` (the nested `order` is read-only) | any POST of an application with `order_id` | read the order named by `order_id` | not executed; high | OrderViews.ValidatedOrderAsWrittenRaises | OrderViews.ValidatedOrderReadsForm |
| apps/orders/views.py:125-126 | `application.price * 0.1` and `* 0.9` multiply a Decimal by a float, which raises `TypeError` | choosing any application, e.g. price 1000.00 | a 10% fee and a 90% tutor share | not executed; high | OrderViews.PlatformFeeAsWrittenRaises | OrderViews.AmountsAddUp |
| apps/ml/services.py:97 | `order.budget_max * 1.1`, a Decimal times a float | any order with `budget_max > 0` | admit rates up to 110% of the budget | not executed; high | MlServices.BudgetCapAsWrittenRaises | MlServices.AffordableIsTenPercent |
| apps/ml/services.py:246 | `1.0 - abs(Decimal) / Decimal`, a float minus a Decimal | any fallback ranking of an order with `budget_max > 0` | the price score `1 - |rate - budget| / budget` | not executed; high | MlServices.PriceScoreAsWrittenRaises | MlServices.PriceScoreAtMostOne |
