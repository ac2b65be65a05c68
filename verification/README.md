# SafeCrib: proofs about the trust engine

SafeCrib lets students book rooms from agents and landlords. This project models
the parts of its backend that decide whom and what to trust, and proves what
those parts keep over every input and every run:

- the perceptual hash of a photo (`ImagePhash`, `ImageHash`, `OrthogonalTransform`),
- the trust score over an append-only ledger (`Statistics`, `TrustScore`,
  `TrustScoreProperties`, `ScoreLaws`, `TrustStore`),
- duplicate detection, text similarity and the table of duplicate flags
  (`DuplicateDetector`, `DuplicateSweep`, `DuplicateLaws`, `TextSimilarity`,
  `TextWeights`),
- the booking state machine, listings and bookings (`BookingStateMachine`,
  `Marketplace`, `MarketplaceProofs`, `BookingHistories`, `SaleOutcomes`,
  `SaleWitnesses`, `LedgerAccounts`, `BookingRecords`, `ListingRecords`,
  `MarketplaceService`),
- provider pages, student profiles and the admin review queue (`Verification`,
  `VerificationProofs`, `ReviewOutcomes`, `VerificationRows`, `VerificationService`),
- the life of uploaded media (`Media`, `MediaProofs`, `UploadPolicies`, `MediaService`).

## How it is built

The numeric code is written as methods with loops over arrays, sequences and
maps, proved against direct definitions; the properties are lemmas about those
definitions. The stateful code comes twice: as functions from tables to tables,
on which runs and invariants are stated, and as classes whose methods follow the
handlers statement by statement. Each handler requires and keeps `Valid()`, which is
the invariant proved of every run, and is proved to do exactly what its function
says; `ServeAll` serves a sequence of requests, jobs and notices and ends in the
state of the run, so what is proved of runs holds of the classes. A run is any
sequence of events with any parameters, so it covers every order, repetition and
delay of requests and jobs. One guarded read and write is one step, except that
confirming a booking, filing a fraud report and the cleanup of stale uploads are two
steps each with anything in between, since their two accesses share no transaction.

The laws in `ScoreLaws`, `DuplicateLaws`, `TextWeights`, `LedgerAccounts`,
`BookingRecords`, `ListingRecords`, `ReviewOutcomes`, `VerificationRows` and
`UploadPolicies` look at the same steps from the other side: not what one operation
does to all tables, but what all operations together may do to one row, one user or
one number, stated on the fields themselves.

Numbers are real or unbounded integers. Cosine table, decay rate, logarithm and
square root are parameters with only the facts needed: rows k >= 1 of the table
sum to zero, or all rows are at right angles with squared lengths n and n/2 and the
two factors have squares 1/n and 2/n; the decay halves a weight in 180 days; the
logarithm of a number from 1 on is not negative (for some results also increasing, or
zero at 1); the root is the non-negative root. Unique indexes are tables of their own. Clocks, new identifiers, the answers of the storage service
and of limited queries are parameters.

`Sums` holds the finite sums everything numeric is stated with, `Matrices` the square
matrices behind the transform, and `Counting` the counts behind the books.

## Where the code and its documents differ

- Both README files say that a hold turns a listing FLAGGED and that a partial
  unique index backs this up. The code writes INACTIVE, and no migration creates
  such an index, so a booking request is modelled as one atomic step.
- A hold that runs out leaves its listing ACTIVE, not VERIFIED. Only VERIFIED
  listings can be booked, so the room is off the market for good. Every other step
  that cancels a booking leaves VERIFIED (`SaleOutcomes.ExpiryRetiresRoom`,
  `SaleOutcomes.CancellationFreesRoom`).
- A confirmation that is overtaken by a cancellation makes the room SOLD without a
  buyer: with nobody holding it, for good, or over another student's unpaid hold.
  The exact condition is `SaleOutcomes.SoldUntilLateWrite`; both cases are reachable
  (`SaleWitnesses`).
- A FLAGGED listing is documented to need action by support or an admin
  (`safecrib-backend/docs/agent-landlord-frontend-workflow.md`, line 119). In the code
  it loses its flag without any: releasing its hold or cancelling its booking makes it
  VERIFIED, its hold running out makes it ACTIVE, and the late second write of a
  confirmation makes it SOLD. These are the only ways (`SaleOutcomes.FlagLifted`), and
  all are reachable (`SaleWitnesses.FlaggedHoldIsReachable`,
  `SaleWitnesses.FlaggedSaleIsReachable`).
- The duplicate workers read ACTIVE and FLAGGED listings, not VERIFIED ones. Every
  ACTIVE one is a room that is off the market for good
  (`SaleOutcomes.ActiveRoomsAreRetired`).
- The cleanup of stale uploads selects pending rows and then marks them FAILED by id, so
  a row that became READY in between is failed too
  (`MediaProofs.CleanupFailsReadyRow`; all ways out of READY are in
  `MediaProofs.ReadyEnds`).
- The approval of a student profile looks for the account by email and creates one if
  there is none. On the tables the modelled services produce there always is one
  (`VerificationRows.AccountBirth`).
- In the booking state machine a disputed stay that ends as completed gets no time of
  completion (`BookingStateMachine.OperationRecords`).
- An event weight that is not positive is replaced by the default of its type, so
  the different penalty sizes the services store never count
  (`TrustScoreProperties.PenaltySizesAreIgnored`). One of them is the row of -10 that
  filing a fraud report writes against the reporter
  (`TrustScoreProperties.FiledReportCountsAsConfirmed`).
- A VERIFIED page does not imply a provider role
  (`VerificationProofs.StudentOwnerIsReachable`); the exact condition is
  `VerificationProofs.ProvidersUntilDemoted`.
- One pair of listings can have two flag rows, one in each order. The exact
  conditions are `DuplicateSweep.SweepKeepsOneRowPerPair` for the sweep and
  `DuplicateSweep.PhotoKeepsOneRowPerPair` for the image-hash job.
- The configured threshold for position and price is never read
  (`DuplicateDetector.GeoPriceThresholdIsNotRead`).
- The results about hashes are about exact arithmetic. The code computes with
  rounded numbers; `ImageHash.BitSurvivesRounding` says which bits that cannot
  change. A single-colour photo has none such: its hash is decided by rounding alone
  (`ImageHash.RoundingDecidesPlainHashes`).
- An upload notice that finds no row is dropped and never acts later
  (`MediaProofs.RedeliveryIsNoOp`). The row of a requested upload exists before its
  public id, a fresh random one, is given out, so no notice for it can come too early.

## Model

| member | source | states |
|---|---|---|
| ImagePhash.Dct1D | safecrib-backend/src/domain/fraud/image-phash.ts:61-74 | each output is the direct sum of signal values against the table row read with stride n, times the factor of its index; the input buffer is only read |
| ImagePhash.StoreRow | safecrib-backend/src/domain/fraud/image-phash.ts:43-45 | exactly the cells of one row of the flat result change, and they take the transformed values |
| ImagePhash.StoreColumn | safecrib-backend/src/domain/fraud/image-phash.ts:53-55 | exactly the cells of one column change, all other cells keep their values |
| ImagePhash.TransformRow | safecrib-backend/src/domain/fraud/image-phash.ts:38-46 | after pass y the rows up to y hold their row coefficients, although every pass reuses one buffer |
| ImagePhash.TransformColumn | safecrib-backend/src/domain/fraud/image-phash.ts:48-56 | after pass x the columns up to x are final while the rest still hold row coefficients |
| ImagePhash.RowThenColumn | safecrib-backend/src/domain/fraud/image-phash.ts:32-59 | for any table and any shape, transforming rows and then a column of the results is the direct double sum over all pixels |
| ImagePhash.Dct2D | safecrib-backend/src/domain/fraud/image-phash.ts:32-59 | the in-place row-then-column transform returns at [v][u] exactly the scaled double sum of pixel[y][x] times the two table entries, for every width, height and table |
| ImageHash.LowFrequencies | safecrib-backend/src/domain/fraud/image-phash.ts:15-21 | the 8x8 corner is copied out row by row from the flat result |
| ImageHash.Threshold | safecrib-backend/src/domain/fraud/image-phash.ts:23-27 | the bits are the comparisons of the 63 later entries with their mean, the constant term left out of both |
| ImageHash.ComputePhash | safecrib-backend/src/domain/fraud/image-phash.ts:3-30 | the hash of an image is the thresholded corner of its exact two-dimensional transform |
| ImageHash.HashShape | safecrib-backend/src/domain/fraud/image-phash.ts:23-27 | a hash has 63 binary digits, at least one of them 0, and is all zeros exactly when the 63 coefficients are equal |
| ImageHash.AdjustedCoefficient | safecrib-backend/src/domain/fraud/image-phash.ts:32-74 | when every pixel p becomes a*p+c, the offset reaches only the constant coefficient; every other one is multiplied by a |
| ImageHash.ScaledHash | safecrib-backend/src/domain/fraud/image-phash.ts:23-27 | scaling the coefficients keeps every bit for a positive factor; a negative factor keeps exactly the bits of coefficients equal to the mean; factor zero gives all zeros |
| ImageHash.HashIgnoresBrightnessAndContrast | safecrib-backend/src/domain/fraud/image-phash.ts:3-30 | in exact arithmetic, two images that differ by brightness and a positive contrast factor have the same hash |
| ImageHash.MeanWithin | safecrib-backend/src/domain/fraud/image-phash.ts:23 | if each of the 63 coefficients is off by at most eps, so is their mean |
| ImageHash.BitSurvivesRounding | safecrib-backend/src/domain/fraud/image-phash.ts:23-27 | a bit is the same with an error of up to eps in every coefficient when its coefficient is more than 2*eps from the mean |
| ImageHash.PlainImagesAreLevel | safecrib-backend/src/domain/fraud/image-phash.ts:23-27 | in exact arithmetic the 63 later coefficients of a single-colour image and their mean are zero: no bit has any margin |
| ImageHash.RoundingDecidesPlainHashes | safecrib-backend/src/domain/fraud/image-phash.ts:23-27 | so errors of any size eps > 0 can turn the coefficients of a single-colour image into any hash with at least one 0, and into no other: rounding alone decides it |
| OrthogonalTransform.FactorsByRoots | safecrib-backend/src/domain/fraud/image-phash.ts:69 | the two factors as the code takes them, roots of 1/n and 2/n, have the squares the results below need |
| OrthogonalTransform.BasisOfTwo | safecrib-backend/src/domain/fraud/image-phash.ts:69-84 | for n = 2 the cosines themselves are such a table |
| OrthogonalTransform.EnergyOfSignal | safecrib-backend/src/domain/fraud/image-phash.ts:61-74 | with the cosine table and the factors of the code the transform keeps the sum of squares of every signal |
| OrthogonalTransform.SignalFromCoefficients | safecrib-backend/src/domain/fraud/image-phash.ts:61-74 | the transposed table gives the signal back |
| OrthogonalTransform.TransformOfTableRow | safecrib-backend/src/domain/fraud/image-phash.ts:61-74 | a multiple c of one table row has that coefficient alone: c*n times the first factor for row 0, c*n/2 times the second for any other |
| OrthogonalTransform.EnergyOfImage | safecrib-backend/src/domain/fraud/image-phash.ts:32-59 | the squares of all cells of the two-dimensional transform add up to the squares of all pixels |
| OrthogonalTransform.TransformIsInjective | safecrib-backend/src/domain/fraud/image-phash.ts:32-59 | no two images of one shape have the same transform |
| OrthogonalTransform.TransformOfPattern | safecrib-backend/src/domain/fraud/image-phash.ts:32-59 | an image of table row v downwards times row u across has the coefficient [v][u] alone |
| OrthogonalTransform.HashOfPattern | safecrib-backend/src/domain/fraud/image-phash.ts:3-30 | the hash of such an image is 63 digits of which exactly the one at 8*v+u-1 is 1 |
| Statistics.ParallelAxis | safecrib-backend/src/domain/trust/trust-score.engine.ts:123-128 | spread around any point is count times (variance plus squared distance of the mean from the point) |
| Statistics.VarianceWithinRange | safecrib-backend/src/domain/trust/trust-score.engine.ts:123-128 | values in an interval of width w have variance at most w*w/4 |
| Statistics.VariancePermutation | safecrib-backend/src/domain/trust/trust-score.engine.ts:123-128 | variance does not depend on the order of the values |
| Statistics.VarianceScales | safecrib-backend/src/domain/trust/trust-score.engine.ts:123-128 | multiplying every value by k multiplies the variance by k*k |
| TrustScore.WeighEvent | safecrib-backend/src/domain/trust/trust-score.engine.ts:53-61 | the branch-by-branch weighing of one event equals its effective weight: default for a non-positive weight, decay, clamped reviewer factor on reviews only |
| TrustScore.ComputeVariance | safecrib-backend/src/domain/trust/trust-score.engine.ts:123-128 | the two reduces compute the mean squared distance from the mean, 0 for no values |
| TrustScore.CategorySpread | safecrib-backend/src/domain/trust/trust-score.engine.ts:99-104 | the variance from the running sum and count of a category is the variance of its values, also when there is one value |
| TrustScore.CategoryVarianceOfValues | safecrib-backend/src/domain/trust/trust-score.engine.ts:96-106 | the variance of the value list collected for a category is the variance of that category over the ledger |
| TrustScore.OverallVarianceOfValues | safecrib-backend/src/domain/trust/trust-score.engine.ts:106-114 | the variance of all values collected category by category is the variance over the ledger, whatever order the categories were first met in |
| TrustScore.ComputeVarianceAndFlags | safecrib-backend/src/domain/trust/trust-score.engine.ts:88-121 | the flag is raised exactly when some category of two or more values exceeds 200 or more than three values together exceed 100 |
| TrustScore.DisputeWithinSixMonths | safecrib-backend/src/domain/trust/trust-score.engine.ts:130-137 | found exactly when a lost dispute or confirmed report is less than 180 days old |
| TrustScore.ComputeTrustScore | safecrib-backend/src/domain/trust/trust-score.engine.ts:43-86 | the fold with its mutable tables yields exactly the score, breakdown and flag defined by sums and variances over the ledger |
| TrustScoreProperties.BreakdownDeterminesScore | safecrib-backend/src/domain/trust/trust-score.engine.ts:71-82 | the breakdown entries add up to the total, so the score is a function of the breakdown alone, and is an integer from 0 to 100 |
| TrustScoreProperties.PooledVariance | safecrib-backend/src/domain/trust/trust-score.engine.ts:88-128 | n times the overall variance is the sum over categories of n_c*variance_c + n_c*(mean_c - mean)^2 |
| TrustScoreProperties.MajorityCategoryFiresOverall | safecrib-backend/src/domain/trust/trust-score.engine.ts:108-118 | with more than three events, a category above its threshold that holds at least half of them also puts the overall variance above its threshold |
| TrustScoreProperties.PositiveLedgerIsNotFlagged | safecrib-backend/src/domain/trust/trust-score.engine.ts:52-121 | no ledger of positive events of weight at most 20 (every positive weight the services write) is ever flagged, whatever its length and whatever the time |
| TrustScoreProperties.PositiveWeightBoundIsExact | safecrib-backend/src/domain/trust/trust-score.engine.ts:108-118 | 20 is exactly the largest weight for which that holds |
| TrustScoreProperties.ScoreIgnoresOrder | safecrib-backend/src/domain/trust/trust-score.engine.ts:43-86 | score, breakdown and flag do not depend on the order of the ledger |
| TrustScoreProperties.ErasedWeight | safecrib-backend/src/infra/queue/trust-recompute.processor.ts:39-44 | dropping the reviewer factor leaves the weight of an event alone exactly when the factor is neutral or the event lies in the future |
| TrustScoreProperties.RecomputePathsAgree | safecrib-backend/src/infra/queue/trust-recompute.processor.ts:32-44 | ascending without factors and descending with factors give the same result as long as every stored factor is neutral |
| TrustScoreProperties.PenaltySizesAreIgnored | safecrib-backend/src/domain/trust/trust-score.engine.ts:53 | two ledgers that differ only in the sizes of non-positive weights have the same result, so stored penalties of -5, -10, -30, -40 and -60 all count as the default of their type |
| TrustScoreProperties.FiledReportCountsAsConfirmed | safecrib-backend/src/modules/fraud/fraud.service.ts:36-43 | the -10 row that filing a report writes has the effect of a report confirmed against the reporter, and flags them for 180 days |
| TrustScoreProperties.TotalDecays | safecrib-backend/src/domain/trust/trust-score.engine.ts:37-41 | without new or future events the total after d milliseconds is decay(d) times the total now |
| TrustScoreProperties.TotalHalves | safecrib-backend/src/domain/trust/trust-score.engine.ts:31-41 | after 180 days it is exactly half |
| TrustScoreProperties.ScoreRelaxesTowardNeutral | safecrib-backend/src/domain/trust/trust-score.engine.ts:75-82 | left alone, the rounded score never moves away from 50 and never crosses it |
| TrustScoreProperties.VariancesDecay | safecrib-backend/src/domain/trust/trust-score.engine.ts:96-128 | without new or future events every category variance and the overall one after d milliseconds are decay(d) squared times what they are now |
| TrustScoreProperties.UnflaggedStaysUnflagged | safecrib-backend/src/domain/trust/trust-score.engine.ts:79-137 | so, left alone, a user not flagged for review never becomes flagged |
| ScoreLaws.DirectionOfEvent | safecrib-backend/src/domain/trust/trust-score.engine.ts:52-77 | a row of a penalty type without a positive weight never raises a score, every other row never lowers it |
| ScoreLaws.FreshLedgerScore | safecrib-backend/src/domain/trust/trust-score.engine.ts:22-29 | k fresh rows without a weight score max(0, 50-15k) as confirmed reports, and likewise in plain numbers for the five other types |
| ScoreLaws.FreshRewardsScore | safecrib-backend/src/domain/trust/trust-score.engine.ts:53-77 | k fresh rows of positive weight w score 50+kw/4, rounded, at most 100 |
| ScoreLaws.BreakdownEntry | safecrib-backend/src/domain/trust/trust-score.engine.ts:63-72 | the breakdown entry of a type is the total of the rows of that type alone |
| ScoreLaws.ReviewerFactorScales | safecrib-backend/src/domain/trust/trust-score.engine.ts:58-61 | a review counts in proportion to the factor cut off at 0 and 1; no other event reads it |
| ScoreLaws.SmallLedgerFlag | safecrib-backend/src/domain/trust/trust-score.engine.ts:88-137 | at most three rows of different types are flagged exactly when one is a lost dispute or confirmed report younger than 15552000 seconds |
| ScoreLaws.TwoOfAKindFlag | safecrib-backend/src/domain/trust/trust-score.engine.ts:96-110 | two fresh rows of one type, no dispute, are flagged exactly when the square of the difference of their weights exceeds 800 |
| ScoreLaws.FourKindsFlag | safecrib-backend/src/domain/trust/trust-score.engine.ts:112-118 | four fresh rows of the four other types are flagged exactly when their squared distances from their mean exceed 400 together |
| TrustStore.Store.RecordTrustEvent | safecrib-backend/src/modules/trust/trust.service.ts:78-92 | appends one row and changes nothing else |
| TrustStore.Store.RecomputeScore | safecrib-backend/src/modules/trust/trust.service.ts:46-76 | overwrites exactly the cache of an existing user with the score of the ledger, and reports score, breakdown, flag and event count |
| TrustStore.Store.ProcessRecompute | safecrib-backend/src/infra/queue/trust-recompute.processor.ts:29-57 | the worker overwrites the same cache with the factor-free score, which equals the service's when the ledger holds only neutral factors |
| TrustStore.NeutralRows | safecrib-backend/src/modules/reviews/reviews.service.ts:33 | a ledger whose stored factors are all neutral, as the review service writes them, gives every user a neutral event list |
| DuplicateDetector.ComparePhash | safecrib-backend/src/domain/fraud/duplicate-detector.engine.ts:29-36 | the loop returns the number of differing positions, or infinity for unequal lengths |
| DuplicateDetector.PhashDistanceIsMetric | safecrib-backend/src/domain/fraud/duplicate-detector.engine.ts:29-36 | on hashes of one length the distance is a metric bounded by the length |
| DuplicateDetector.SimilarityRange | safecrib-backend/src/domain/fraud/duplicate-detector.engine.ts:38-49 | text similarity lies in [0,1], is symmetric, is 1 exactly for equal non-empty token sets and 0 exactly for disjoint ones |
| DuplicateDetector.TextDistanceTriangle | safecrib-backend/src/domain/fraud/duplicate-detector.engine.ts:38-49 | one minus text similarity satisfies the triangle inequality, empty token sets included |
| DuplicateDetector.MatchesChain | safecrib-backend/src/domain/fraud/duplicate-detector.engine.ts:84-92 | two matches at 0.85 through a shared listing force the outer two to at least 0.70 |
| DuplicateDetector.EvaluatePair | safecrib-backend/src/domain/fraud/duplicate-detector.engine.ts:69-106 | the three tests on one pair push, in this order, exactly the flags of the tests that pass |
| DuplicateDetector.EvaluateDuplicateRisk | safecrib-backend/src/domain/fraud/duplicate-detector.engine.ts:61-109 | the loop returns the flags of the candidate against the list, in list order, skipping the candidate itself |
| DuplicateDetector.PairTestIsSymmetric | safecrib-backend/src/domain/fraud/duplicate-detector.engine.ts:72-105 | test and similarity do not depend on which listing is the candidate |
| DuplicateDetector.FlagsAreTheMatches | safecrib-backend/src/domain/fraud/duplicate-detector.engine.ts:61-109 | a flag is returned exactly when its pair passes the test it names |
| DuplicateDetector.GeoPriceThresholdIsNotRead | safecrib-backend/src/domain/fraud/duplicate-detector.engine.ts:17-27 | the flags are the same for every value of the threshold for position and price |
| DuplicateDetector.IsHighRiskFlag | safecrib-backend/src/domain/fraud/duplicate-detector.engine.ts:111-118 | true exactly when some flag meets its threshold |
| DuplicateDetector.HighRiskByDistance | safecrib-backend/src/domain/fraud/duplicate-detector.engine.ts:111-118 | with default thresholds and 63-digit hashes a match is high risk exactly when it is text, position and price, or a photo distance of at most 12 |
| DuplicateDetector.HighRiskVerdict | safecrib-backend/src/domain/fraud/duplicate-detector.engine.ts:61-118 | the verdict on the detector's whole output is that some listing is such a close match |
| DuplicateSweep.FlagTable.UpsertFlag | safecrib-backend/src/infra/queue/duplicate-sweep.processor.ts:77-94 | inserts as PENDING, or refreshes the similarity and keeps the status |
| DuplicateSweep.FlagTable.UpsertFlags | safecrib-backend/src/infra/queue/duplicate-sweep.processor.ts:75-99 | the upsert loop applies the flags one after the other |
| DuplicateSweep.FlagTable.Sweep | safecrib-backend/src/infra/queue/duplicate-sweep.processor.ts:65-100 | the nested loop upserts the flags of each listing against those after it, and counts them |
| DuplicateSweep.FlagTable.CheckPhoto | safecrib-backend/src/infra/queue/image-hash.processor.ts:87-108 | the one-against-all loop upserts the flags with the new listing first |
| DuplicateSweep.FlagTable.Resolve | safecrib-backend/src/modules/fraud/fraud.service.ts:143-173 | only a pending flag is settled, and only its status changes |
| DuplicateSweep.UpsertFrame | safecrib-backend/src/infra/queue/duplicate-sweep.processor.ts:77-94 | upserting keeps every status, leaves keys without a flag alone, and inserts the others as PENDING |
| DuplicateSweep.SweepFindsMatches | safecrib-backend/src/infra/queue/duplicate-sweep.processor.ts:67-71 | a flag comes out exactly for an earlier and a later listing of the batch that match |
| DuplicateSweep.SweepFlagsOncePerPair | safecrib-backend/src/infra/queue/duplicate-sweep.processor.ts:67-71 | at most one flag per unordered pair and kind of match |
| DuplicateSweep.SweepEffect | safecrib-backend/src/infra/queue/duplicate-sweep.processor.ts:67-100 | exactly the accepted pairs get a row, with their similarity; no status and no other row changes |
| DuplicateSweep.SweepTwice | safecrib-backend/src/infra/queue/duplicate-sweep.processor.ts:67-100 | sweeping the same batch again changes nothing |
| DuplicateSweep.SweepKeepsOneRowPerPair | safecrib-backend/src/infra/queue/duplicate-sweep.processor.ts:67-100 | one row per unordered pair is kept exactly when no accepted pair is already stored the other way round |
| DuplicateSweep.PhotoEffect | safecrib-backend/src/infra/queue/image-hash.processor.ts:87-108 | exactly the listings the candidate matches get a row with the candidate first; no status changes |
| DuplicateSweep.PhotoKeepsOneRowPerPair | safecrib-backend/src/infra/queue/image-hash.processor.ts:87-108 | an image-hash job keeps one row per unordered pair exactly when no listing the candidate matches is already stored in front of it |
| DuplicateSweep.WorkersStoreMirroredRows | safecrib-backend/src/infra/queue/image-hash.processor.ts:87-108 | a photo added to the older of two matching listings leads to both rows, whether the job or the sweep (which lists the later-created listing first) comes first |
| DuplicateLaws.FlagsByFields | safecrib-backend/src/domain/fraud/duplicate-detector.engine.ts:61-109 | a flag is returned exactly for a listing with hashes of one length and at most 15 differing digits, or at least 17 shared words in 20, or the same price and less than 0.001 degrees apart each way, with the similarity these give |
| DuplicateLaws.SweptByFields | safecrib-backend/src/infra/queue/duplicate-sweep.processor.ts:65-100 | after a sweep a pair that had no row has one, PENDING, exactly when its listings are such duplicates |
| DuplicateLaws.PlaceChainsAreTight | safecrib-backend/src/domain/fraud/duplicate-detector.engine.ts:94-98 | along any chain of n rows by place and price in a swept table the price is one, and the ends are less than 0.001*n degrees apart |
| DuplicateLaws.PhotoByFields | safecrib-backend/src/infra/queue/image-hash.processor.ts:87-108 | an image-hash job writes a new row exactly for such a duplicate of the candidate |
| TextSimilarity.CollectVocabulary | safecrib-backend/src/domain/fraud/text-similarity.ts:23-28 | the vocabulary is the set of all tokens of all documents |
| TextSimilarity.CountTerms | safecrib-backend/src/domain/fraud/text-similarity.ts:35-39 | the counting loop gives every present token its number of occurrences |
| TextSimilarity.CountDocs | safecrib-backend/src/domain/fraud/text-similarity.ts:54-56 | counts the documents that contain the term |
| TextSimilarity.ComputeTfidf | safecrib-backend/src/domain/fraud/text-similarity.ts:21-52 | one vector per document with one tf-idf entry per vocabulary term |
| TextSimilarity.CosineSimilarity | safecrib-backend/src/domain/fraud/text-similarity.ts:58-74 | the single loop computes the dot product over the two roots, 0 for unequal lengths or a zero vector |
| TextSimilarity.ComputeTextSimilarity | safecrib-backend/src/domain/fraud/text-similarity.ts:76-82 | the result is the cosine for every listing of the common vocabulary; it lies in [0,1], is 0 exactly when no token is shared, and 1 exactly for non-empty texts with the same token shares |
| TextSimilarity.CauchySchwarz | safecrib-backend/src/domain/fraud/text-similarity.ts:58-74 | dot squared is at most the product of the two magnitudes squared, for vectors of any length |
| TextSimilarity.CauchySchwarzEquality | safecrib-backend/src/domain/fraud/text-similarity.ts:58-74 | it is an equality exactly when one vector is a multiple of the other |
| TextSimilarity.CosineRange | safecrib-backend/src/domain/fraud/text-similarity.ts:58-74 | the cosine lies in [-1,1] and is 1 for a non-zero vector with itself |
| TextSimilarity.EntryPresence | safecrib-backend/src/domain/fraud/text-similarity.ts:42-47 | an entry is zero exactly when the document lacks the term, and positive otherwise |
| TextSimilarity.DotSign | safecrib-backend/src/domain/fraud/text-similarity.ts:41-68 | the dot product of two document vectors vanishes exactly when the documents share no token |
| TextSimilarity.SimilarityRange | safecrib-backend/src/domain/fraud/text-similarity.ts:76-82 | text similarity lies in [0,1], is 0 exactly when no kept token is shared, and 1 for equal non-empty texts |
| TextSimilarity.SimilarityIsOne | safecrib-backend/src/domain/fraud/text-similarity.ts:76-82 | the similarity is 1 exactly for two non-empty texts in which every token makes up the same share |
| TextSimilarity.SimilarityIsSymmetric | safecrib-backend/src/domain/fraud/text-similarity.ts:76-82 | symmetric, and independent of the order in which the vocabulary is listed |
| TextWeights.RarerWordsWeighMore | safecrib-backend/src/domain/fraud/text-similarity.ts:45 | a word weighs less exactly when more documents have it |
| TextWeights.EntryOfWord | safecrib-backend/src/domain/fraud/text-similarity.ts:35-48 | between two texts a word weighs 1 if both have it and 1+ln(3/2) if one has it, times its count |
| TextWeights.SimilarityByCounts | safecrib-backend/src/domain/fraud/text-similarity.ts:58-82 | the similarity is the non-negative number whose square times both squared lengths is the square of the product of the word counts |
| BookingStateMachine.FirstReachingResult | safecrib-backend/src/domain/booking/booking-state-machine.ts:89-98 | the search finds a handler exactly when some handler of the list reaches the target, and returns that handler's result |
| BookingStateMachine.EdgesOfTable | safecrib-backend/src/domain/booking/booking-state-machine.ts:101-115 | probing the handlers with a blank state yields exactly the listed edges |
| BookingStateMachine.ApplyFollowsTable | safecrib-backend/src/domain/booking/booking-state-machine.ts:79-107 | applying a transition succeeds exactly when canTransition says so, reaches the target, and keeps identity and deposit |
| BookingStateMachine.Machine.constructor | safecrib-backend/src/domain/booking/booking-state-machine.ts:126-137 | the wrapper starts AVAILABLE whatever it was given |
| BookingStateMachine.Machine.Do | safecrib-backend/src/domain/booking/booking-state-machine.ts:139-161 | an operation that is not an edge throws and leaves the captured state as it was |
| BookingStateMachine.PerformFacts | safecrib-backend/src/domain/booking/booking-state-machine.ts:139-161 | one wrapper call stays or moves along an edge, keeps the identity, and records a deadline only on a hold |
| BookingStateMachine.WrapperRuns | safecrib-backend/src/domain/booking/booking-state-machine.ts:126-162 | over any sequence of calls completed and cancelled bookings stay so, and each status change after the hold uses up one of at most two steps left |
| BookingStateMachine.OperationRecords | safecrib-backend/src/domain/booking/booking-state-machine.ts:35-77 | what each legal operation records: deposit and deadline, time of confirmation, time of completion unless the stay was disputed; and nothing else |
| VerificationService.VerificationTables.RegisterUser | safecrib-backend/src/modules/auth/auth.service.ts:78-118 | creates an account under an unused email; the onboarding path also vouches and writes one identity event |
| VerificationService.VerificationTables.VouchForIdentity | safecrib-backend/src/modules/admin/admin.service.ts:116-145 | marks an existing account and writes an identity event that names no page |
| VerificationService.VerificationTables.SetUserRole | safecrib-backend/src/modules/users/users.service.ts:129-148 | sets the role of an existing account and nothing else |
| VerificationService.VerificationTables.Create | safecrib-backend/src/modules/provider-pages/provider-pages.service.ts:44-89 | a new page, or a rejected one reused as a draft; any other existing page is a conflict |
| VerificationService.VerificationTables.Update | safecrib-backend/src/modules/provider-pages/provider-pages.service.ts:91-130 | only draft and rejected pages can be edited, and become drafts |
| VerificationService.VerificationTables.Submit | safecrib-backend/src/modules/provider-pages/provider-pages.service.ts:132-184 | a complete draft or rejected page becomes SUBMITTED, and exactly one pending row is about it |
| VerificationService.VerificationTables.FindPending | safecrib-backend/src/modules/provider-pages/provider-pages.service.ts:273-282 | the scan from the end returns the newest pending row of the page |
| VerificationService.VerificationTables.SettlePageAndRow | safecrib-backend/src/modules/provider-pages/provider-pages.service.ts:288-332 | the transaction: page, queue row, audit, and on approval account and ledger, or nothing when the owner is missing |
| VerificationService.VerificationTables.Review | safecrib-backend/src/modules/provider-pages/provider-pages.service.ts:258-341 | settles a submitted page; afterwards no pending row is about it |
| VerificationService.VerificationTables.Resubmit | safecrib-backend/src/modules/student-profiles/student-profiles.service.ts:69-142 | a rejected profile becomes PENDING together with one new pending row |
| VerificationService.VerificationTables.SubmitFirst | safecrib-backend/src/modules/student-profiles/student-profiles.service.ts:69-142 | a first profile is created PENDING together with one pending row |
| VerificationService.VerificationTables.Complete | safecrib-backend/src/modules/student-profiles/student-profiles.service.ts:33-146 | afterwards exactly one pending row is about the profile of the user |
| VerificationService.VerificationTables.ReviewRow | safecrib-backend/src/modules/admin/admin.service.ts:215-373 | settles any pending row with its page or profile; afterwards no pending row is about either |
| VerificationService.VerificationTables.SettleRowAndEntity | safecrib-backend/src/modules/admin/admin.service.ts:263-373 | the transaction: row and audit first, both taken back when the page or profile part is refused |
| VerificationService.VerificationTables.Moderate | safecrib-backend/src/modules/admin/admin.service.ts:342-372 | the page part of that transaction |
| VerificationService.VerificationTables.Attach | safecrib-backend/src/modules/admin/admin.service.ts:289-340 | the profile part: the account found or created by email becomes a STUDENT and owns the profile |
| VerificationService.VerificationTables.ServeAll | safecrib-backend/src/modules/admin/admin.service.ts:30-373 | requests served one after the other on valid tables keep them valid and are a run |
| VerificationProofs.SubmitOutcome | safecrib-backend/src/modules/provider-pages/provider-pages.service.ts:132-184 | a granted submission leaves exactly one pending row for the page |
| VerificationProofs.ReviewOutcome | safecrib-backend/src/modules/provider-pages/provider-pages.service.ts:258-332 | a page review leaves none |
| VerificationProofs.ProfileOutcome | safecrib-backend/src/modules/student-profiles/student-profiles.service.ts:33-142 | a granted profile submission leaves exactly one pending row for the profile |
| VerificationProofs.SubmissionOutcome | safecrib-backend/src/modules/admin/admin.service.ts:215-373 | settling a row leaves no pending row about the same page or profile |
| VerificationProofs.NewestPendingFinds | safecrib-backend/src/modules/provider-pages/provider-pages.service.ts:273-285 | a pending row is found exactly when one exists |
| VerificationProofs.StepKeepsInv | safecrib-backend/src/modules/provider-pages/provider-pages.service.ts:44-341 | every operation keeps indexes, queue references, page and profile lockstep, and the one-identity-event rule |
| VerificationProofs.Lockstep | safecrib-backend/src/modules/provider-pages/provider-pages.service.ts:132-341 | in every reachable state a page is SUBMITTED (a profile PENDING) exactly when exactly one pending row is about it; exactly the VERIFIED pages are named by an identity event, once each |
| VerificationProofs.PendingRowsAreOpen | safecrib-backend/src/modules/admin/admin.service.ts:215-257 | in every reachable state a pending row is about a submitted page, or a pending profile of the same email |
| VerificationProofs.VerifiedPageStays | safecrib-backend/src/modules/provider-pages/provider-pages.service.ts:91-95 | no step changes the row of a verified page |
| VerificationProofs.VerifiedPageStaysOverRuns | safecrib-backend/src/modules/provider-pages/provider-pages.service.ts:91-95 | nor does any run |
| VerificationProofs.ReviewPathsAgree | safecrib-backend/src/modules/admin/admin.service.ts:215-373 | the two review paths leave pages, profiles, queue, users and ledger exactly alike and answer alike; only the audit entry differs |
| VerificationProofs.RoleChanges | safecrib-backend/src/modules/admin/admin.service.ts:300-371 | after any step an existing account has the role the step assigns to it, read off the tables before and the event, and otherwise the role it had |
| VerificationProofs.ProvidersUntilDemoted | safecrib-backend/src/modules/admin/admin.service.ts:304-313 | starting with providers behind all verified pages, a step breaks this exactly when it sets the owner of one to STUDENT or ADMIN, or approves a pending student profile of such an owner |
| VerificationProofs.VerifiedPageOwnedByStudent | safecrib-backend/src/modules/admin/admin.service.ts:304-313 | approving the owner's student profile turns the role back to STUDENT while the page stays VERIFIED |
| VerificationProofs.StudentOwnerIsReachable | safecrib-backend/src/modules/admin/admin.service.ts:304-313 | such a state is reachable from empty tables |
| ReviewOutcomes.NewestRowRecords | safecrib-backend/src/modules/provider-pages/provider-pages.service.ts:288-310 | in every reachable state a page is VERIFIED exactly when its newest row is APPROVED, SUBMITTED exactly when it is PENDING; reviewer and reason agree; a profile has status, reviewer and reason of its newest row; one approved row at most |
| ReviewOutcomes.DecisionTakesEffect | safecrib-backend/src/modules/admin/admin.service.ts:215-373 | a granted decision is what the admin asked for, on the row and on its page or profile alike |
| ReviewOutcomes.PageReviewForm | safecrib-backend/src/modules/provider-pages/provider-pages.service.ts:288-332 | what a granted page review writes: row, page, audit entry, and on approval role, identity and a ledger row of 15 for the owner |
| ReviewOutcomes.PageRowForm | safecrib-backend/src/modules/admin/admin.service.ts:263-372 | the same for settling a row about a page |
| ReviewOutcomes.ProfileRowForm | safecrib-backend/src/modules/admin/admin.service.ts:263-340 | settling a row about a profile touches this row, this profile and, on approval, the account it came from |
| ReviewOutcomes.EveryDecisionIsLogged | safecrib-backend/src/modules/admin/admin.service.ts:263-285 | in every reachable state the log has one entry per submission, and per admin as many approvals and rejections as the queue has rows so decided by this admin |
| ReviewOutcomes.IdentityRowsAreEarned | safecrib-backend/src/modules/provider-pages/provider-pages.service.ts:318-327 | in every reachable state the ledger holds rows of 15 about accounts with a known identity; one that names a page names a verified page of that account |
| VerificationRows.PageAfterStep | safecrib-backend/src/modules/provider-pages/provider-pages.service.ts:44-332 | exactly which steps change a page, and to what |
| VerificationRows.PageBirth | safecrib-backend/src/modules/provider-pages/provider-pages.service.ts:44-89 | exactly which steps create one: the first creation by a user who is no admin |
| VerificationRows.PageReviewGranted | safecrib-backend/src/modules/provider-pages/provider-pages.service.ts:258-285 | a page review is granted exactly for a submitted page with a decision that gives a reason if it rejects; the guards on row and owner never refuse |
| VerificationRows.RowReviewGranted | safecrib-backend/src/modules/admin/admin.service.ts:215-257 | settling a row is granted exactly when it is pending and a rejection gives a reason; no later guard ever refuses |
| VerificationRows.ProfileAfterStep | safecrib-backend/src/modules/student-profiles/student-profiles.service.ts:33-142 | exactly which steps change a profile, and to what |
| VerificationRows.ProfileBirth | safecrib-backend/src/modules/student-profiles/student-profiles.service.ts:69-142 | exactly which steps create one |
| VerificationRows.AccountAfterStep | safecrib-backend/src/modules/admin/admin.service.ts:116-372 | exactly which steps change an account, and to what, and which rows a step adds to the ledger |
| VerificationRows.AccountBirth | safecrib-backend/src/modules/admin/admin.service.ts:289-313 | accounts come from registrations only: approving a profile never has to create one |
| MarketplaceService.MarketTables.Create | safecrib-backend/src/modules/listings/listings.service.ts:46-70 | only agents and landlords with a verified page get a draft listing, tied to that page |
| MarketplaceService.MarketTables.Update | safecrib-backend/src/modules/listings/listings.service.ts:102-142 | the owner changes content, never the status |
| MarketplaceService.MarketTables.Delete | safecrib-backend/src/modules/listings/listings.service.ts:144-161 | the owner deletes a listing that no booking or duplicate flag refers to |
| MarketplaceService.MarketTables.Submit | safecrib-backend/src/modules/listings/listings.service.ts:302-322 | a presentable draft or rejected listing becomes SUBMITTED, with an audit entry |
| MarketplaceService.MarketTables.Review | safecrib-backend/src/modules/listings/listings.service.ts:329-341 | a submitted listing becomes VERIFIED or REJECTED, with an audit entry |
| MarketplaceService.MarketTables.Flag | safecrib-backend/src/modules/admin/admin.service.ts:147-163 | any listing becomes FLAGGED, whatever its status |
| MarketplaceService.MarketTables.ReportFraud | safecrib-backend/src/modules/fraud/fraud.service.ts:20-34 | up to the first write: a report with an existing target is stored PENDING |
| MarketplaceService.MarketTables.ChargeForReport | safecrib-backend/src/modules/fraud/fraud.service.ts:36-43 | the second write: a -10 ledger row against the reporter |
| MarketplaceService.MarketTables.Punish | safecrib-backend/src/modules/fraud/fraud.service.ts:114-137 | flags the listing and charges the user named, with one recompute job |
| MarketplaceService.MarketTables.ResolveFraudReport | safecrib-backend/src/modules/fraud/fraud.service.ts:78-141 | a PENDING report is settled once; a confirmed one takes effect, or everything is taken back |
| MarketplaceService.MarketTables.Transition | safecrib-backend/src/domain/booking/booking-state-machine.ts:79-99 | the handlers' question to the state machine is answered by the edges of the table |
| MarketplaceService.MarketTables.Request | safecrib-backend/src/modules/bookings/bookings.service.ts:47-100 | a hold on a VERIFIED listing; the listing becomes INACTIVE, an expiry job is queued, and the hold is the only live booking of the room |
| MarketplaceService.MarketTables.Confirm | safecrib-backend/src/modules/bookings/bookings.service.ts:102-137 | up to the first write: only the booking row changes, and it is the only live booking of its room |
| MarketplaceService.MarketTables.SellListing | safecrib-backend/src/modules/bookings/bookings.service.ts:139-154 | the second write: the listing becomes SOLD and two recompute jobs are queued |
| MarketplaceService.MarketTables.Release | safecrib-backend/src/modules/bookings/bookings.service.ts:166-214 | a held booking is CANCELLED and its listing VERIFIED again; anything else is left alone |
| MarketplaceService.MarketTables.Cancel | safecrib-backend/src/modules/bookings/bookings.service.ts:216-276 | the student's held or confirmed booking is CANCELLED, its listing VERIFIED again and without a live booking |
| MarketplaceService.MarketTables.Conclude | safecrib-backend/src/modules/bookings/bookings.service.ts:327-365 | booking row, one or two ledger rows, and the recompute jobs with the owner first |
| MarketplaceService.MarketTables.Complete | safecrib-backend/src/modules/bookings/bookings.service.ts:278-360 | a confirmed booking becomes COMPLETED, with +5 and +10 |
| MarketplaceService.MarketTables.Dispute | safecrib-backend/src/modules/bookings/bookings.service.ts:370-450 | a confirmed booking becomes DISPUTED, with -5 and -30 |
| MarketplaceService.MarketTables.Expire | safecrib-backend/src/infra/queue/booking-hold-expiry.processor.ts:35-89 | one delivery of an expiry job cancels a hold past its deadline and leaves the listing ACTIVE, retired for good |
| MarketplaceService.MarketTables.ServeAll | safecrib-backend/src/modules/bookings/bookings.service.ts:47-450 | requests, jobs and second writes served one after the other on valid tables keep them valid and are a run |
| MarketplaceProofs.RequestOutcome | safecrib-backend/src/modules/bookings/bookings.service.ts:57-91 | a granted request leaves its own hold as the only live booking of the room |
| MarketplaceProofs.ConfirmOutcome | safecrib-backend/src/modules/bookings/bookings.service.ts:102-137 | a confirmed booking is the only live one of its room |
| MarketplaceProofs.CancelOutcome | safecrib-backend/src/modules/bookings/bookings.service.ts:216-276 | a cancelled booking leaves its room VERIFIED without a live booking |
| MarketplaceProofs.StepKeepsInv | safecrib-backend/src/modules/bookings/bookings.service.ts:47-450 | every step, the second write of a confirmation and repeated jobs included, keeps one live booking per listing, reviewed listings and verified pages |
| MarketplaceProofs.NoDoubleSelling | safecrib-backend/src/modules/bookings/bookings.service.ts:57-91 | in every reachable state each listing has at most one booking that is not CANCELLED, and has one only while it is INACTIVE, SOLD or FLAGGED |
| MarketplaceProofs.ExistingBookingCheckIsRedundant | safecrib-backend/src/modules/bookings/bookings.service.ts:61-71 | the search for an active booking never refuses a VERIFIED listing: the request does the same without it |
| MarketplaceProofs.BookingProvenance | safecrib-backend/src/modules/listings/listings.service.ts:57-74 | every booking is for a listing with a LISTING_VERIFIED audit entry whose page is VERIFIED and owned by the listing's owner |
| BookingHistories.StepMovesBookings | safecrib-backend/src/modules/bookings/bookings.service.ts:102-450 | a step leaves a booking alone or moves it along HELD to BOOKED or CANCELLED, or BOOKED to COMPLETED, DISPUTED or CANCELLED; new bookings start HELD |
| BookingHistories.HistoryIsPath | safecrib-backend/src/domain/booking/booking-state-machine.ts:35-77 | over every run the history of a booking is a path of the table that starts with HELD, ends in its status and has at most two further steps |
| BookingHistories.HoldNeverReturns | safecrib-backend/src/infra/queue/booking-hold-expiry.processor.ts:50-53 | a booking that has left HELD is never HELD again |
| BookingHistories.StaleJobDoesNothing | safecrib-backend/src/infra/queue/booking-hold-expiry.processor.ts:50-89 | its expiry job is then a no-op forever, so it never releases a later hold on the same room |
| BookingHistories.RetiredStep | safecrib-backend/src/modules/bookings/bookings.service.ts:166-276 | no step brings a retired room back: one that was booked, is off sale, and has no booking left to cancel |
| BookingHistories.RetiredForever | safecrib-backend/src/modules/bookings/bookings.service.ts:57-59 | over every run such a room is never VERIFIED again and refuses every booking request |
| BookingHistories.SettledRoomIsRetired | safecrib-backend/src/modules/bookings/bookings.service.ts:300-450 | a room with a completed or disputed booking is retired |
| LedgerAccounts.BooksBalance | safecrib-backend/src/modules/bookings/bookings.service.ts:341-356 | in every reachable state the ledger has exactly 5 for the student and 10 for the owner of every completed booking, -5 and -30 of every disputed one, -60 for every report confirmed against a user, and -10 for every report whose second write was made |
| LedgerAccounts.ResolutionForm | safecrib-backend/src/modules/fraud/fraud.service.ts:99-137 | what settling a report writes: its outcome and, if confirmed against a user, one row of -60 |
| BookingRecords.TimestampsTellTheStory | safecrib-backend/src/modules/bookings/bookings.service.ts:73-450 | in every reachable state the timestamps fit the status: completed exactly with a time of completion, a deadline exactly on what was never confirmed |
| BookingRecords.HoldLastsOneDay | safecrib-backend/src/infra/queue/booking-hold-expiry.processor.ts:50-60 | however much happens in between, the job of a hold that is still HELD ends it from 86400000 ms after the request on and does nothing before |
| BookingRecords.RequestsGranted | safecrib-backend/src/modules/bookings/bookings.service.ts:47-450 | in every reachable state a request about a booking is granted exactly when it is the student's own and in the right status, and a hold exactly on a VERIFIED room: no other guard refuses |
| BookingRecords.BookingAfterStep | safecrib-backend/src/modules/bookings/bookings.service.ts:102-450 | exactly which steps change a booking, and to what |
| BookingRecords.BookingBirth | safecrib-backend/src/modules/bookings/bookings.service.ts:57-91 | exactly which steps create one: a hold with a deadline one day later |
| ListingRecords.StatusAfterStep | safecrib-backend/src/modules/listings/listings.service.ts:302-341 | exactly which steps change the status of a listing, and to what |
| ListingRecords.ContentAfterStep | safecrib-backend/src/modules/listings/listings.service.ts:102-161 | a listing is changed or deleted by its owner alone; owner and page never change |
| ListingRecords.ListingBirth | safecrib-backend/src/modules/listings/listings.service.ts:46-70 | exactly which steps create one: a draft of a provider's verified page |
| SaleOutcomes.ExpiryRetiresRoom | safecrib-backend/src/infra/queue/booking-hold-expiry.processor.ts:50-89 | a job acts exactly when it is queued and its booking is HELD past the deadline, and then retires the room, since it is left ACTIVE and only VERIFIED rooms can be booked |
| SaleOutcomes.CancellationFreesRoom | safecrib-backend/src/modules/bookings/bookings.service.ts:204-213 | every step that cancels a booking sets its room to VERIFIED, except exactly an expiring hold, which leaves it ACTIVE |
| SaleWitnesses.ExpiryIsReachable | safecrib-backend/src/infra/queue/booking-hold-expiry.processor.ts:50-89 | a run from empty tables reaches a due job |
| BookingHistories.LateSoldWriteRetiresRoom | safecrib-backend/src/modules/bookings/bookings.service.ts:129-142 | a second write that finds its room without a live booking leaves it SOLD, for good |
| SaleOutcomes.SoldUntilLateWrite | safecrib-backend/src/modules/bookings/bookings.service.ts:129-142 | starting with a buyer behind every SOLD room, a step leads to one without exactly when it is a late second write on a room without a buyer; both with any live booking as buyer and with confirmed ones only |
| SaleWitnesses.SaleWithoutBookingIsReachable | safecrib-backend/src/modules/bookings/bookings.service.ts:129-142 | a run reaches a late second write on a room nobody holds |
| SaleWitnesses.SaleOverHoldIsReachable | safecrib-backend/src/modules/bookings/bookings.service.ts:129-142 | a run reaches one on a room that another student holds and has not paid for |
| SaleOutcomes.FlagLifted | safecrib-backend/src/modules/bookings/bookings.service.ts:139-275 | a FLAGGED room that is not deleted keeps its flag in a step except exactly: its hold is released or its booking cancelled (VERIFIED), its hold expires (ACTIVE), or a pending second write for it comes (SOLD) |
| SaleOutcomes.FlagLiftedByCancellation | safecrib-backend/src/modules/bookings/bookings.service.ts:204-275 | so a FLAGGED room goes back on sale in a step exactly when its hold is released or its booking cancelled by the student |
| SaleWitnesses.FlaggedHoldIsReachable | safecrib-backend/src/modules/admin/admin.service.ts:147-163 | a run from empty tables reaches a FLAGGED room whose hold a release, and a due job, would end |
| SaleWitnesses.FlaggedSaleIsReachable | safecrib-backend/src/modules/bookings/bookings.service.ts:139-142 | a run reaches a FLAGGED room with its second write pending |
| SaleOutcomes.ActiveRoomsAreRetired | safecrib-backend/src/infra/queue/booking-hold-expiry.processor.ts:80-89 | in every reachable state every ACTIVE room is off the market for good |
| SaleOutcomes.ReportSettledOnce | safecrib-backend/src/modules/fraud/fraud.service.ts:99-112 | a settled report keeps its outcome in every run, and settling it again is refused and charges nobody |
| MediaService.MediaTables.SetReady | safecrib-backend/src/modules/media/media.repository.ts:73-103 | marks READY, records the key, and keeps the recorded size when none is given |
| MediaService.MediaTables.RequestUploadSignature | safecrib-backend/src/modules/media/services/media.service.ts:49-107 | a PENDING row for an allowed type and size; afterwards the pending uploads of owner and purpose are within the quota |
| MediaService.MediaTables.UploadDirectly | safecrib-backend/src/modules/media/services/media.service.ts:114-177 | a READY row with the size and key the storage service reports |
| MediaService.MediaTables.Confirm | safecrib-backend/src/modules/media/services/media.service.ts:183-233 | READY is left alone, videos and oversized files are refused, a key of another row returns that row, otherwise the pending row becomes READY |
| MediaService.MediaTables.CancelPendingUpload | safecrib-backend/src/modules/media/services/media.service.ts:294-298 | only the owner's pending row is deleted |
| MediaService.MediaTables.Delete | safecrib-backend/src/modules/media/services/media.service.ts:304-333 | owner or admin; a row not yet being deleted becomes DELETING with a job |
| MediaService.MediaTables.HandleUploadComplete | safecrib-backend/src/modules/media/queues/webhook.processor.ts:66-148 | known key, unknown row or settled row: nothing; bad size: removed from storage and FAILED, or thrown; else READY |
| MediaService.MediaTables.OverwriteStatus | safecrib-backend/src/modules/media/queues/webhook.processor.ts:150-178 | error and delete notices overwrite any status |
| MediaService.MediaTables.ProcessNotification | safecrib-backend/src/modules/media/queues/webhook.processor.ts:52-64 | dispatch by type; a handled upload notice is absorbed: no later delivery of it has an effect |
| MediaService.MediaTables.ProcessDeletion | safecrib-backend/src/modules/media/queues/deletion.processor.ts:63-88 | DELETED when the asset is removed or was gone, thrown otherwise |
| MediaService.MediaTables.OldestStale | safecrib-backend/src/modules/media/media.repository.ts:166-177 | picks the oldest pending rows past the age limit, at most 200, and all of them when there are fewer |
| MediaService.MediaTables.SelectStale | safecrib-backend/src/modules/media/media.repository.ts:166-177 | such a batch is what the cleanup keeps for its update |
| MediaService.MediaTables.CancelStale | safecrib-backend/src/modules/media/media.repository.ts:181-187 | the batch is marked FAILED by id, whatever the rows have become since |
| MediaService.MediaTables.FindDeleting | safecrib-backend/src/modules/media/media.repository.ts:195-201 | picks rows being deleted, at most 50, and all of them when there are fewer |
| MediaService.MediaTables.RequeueDeletions | safecrib-backend/src/modules/media/queues/cleanup.processor.ts:92-119 | one job per row of such an answer, none twice |
| MediaService.MediaTables.RequeueFound | safecrib-backend/src/modules/media/queues/cleanup.processor.ts:88-95 | the query and the loop together: jobs for at most 50 rows still DELETING, for all of them when there are fewer, and nothing else changes |
| MediaService.MediaTables.ServeAll | safecrib-backend/src/modules/media/queues/webhook.processor.ts:31-40 | requests, notices and jobs served one after the other on valid tables keep them valid and are a run |
| MediaProofs.StepMovesRows | safecrib-backend/src/modules/media/queues/webhook.processor.ts:66-178 | in every step each row keeps its origin, moves along the status graph, and keeps key and size once READY |
| MediaProofs.EdgesAreTaken | safecrib-backend/src/modules/media/queues/webhook.processor.ts:150-178 | every edge that does not lead to READY can be taken: FAILED, DELETING and DELETED are not ordered |
| MediaProofs.ReadyAtMostOnce | safecrib-backend/src/modules/media/queues/webhook.processor.ts:91-143 | over every run a row enters READY at most once, only while it had not left PENDING, and never returns to PENDING |
| MediaProofs.ReadyEnds | safecrib-backend/src/modules/media/media.repository.ts:105-187 | a READY row stops being READY exactly by an error or delete notice for its public id, a delete by its owner or an admin, a deletion job that succeeds, or the update of a cleanup batch that holds it |
| MediaProofs.CleanupFailsReadyRow | safecrib-backend/src/modules/media/media.repository.ts:166-187 | the last case is reachable: a run in which a pending row is selected, becomes READY, and is then in the batch to be marked FAILED |
| MediaProofs.StepKeepsInv | safecrib-backend/src/modules/media/services/media.service.ts:49-333 | every step keeps unique keys and public ids, keys exactly on rows past PENDING, and the quotas |
| MediaProofs.QuotaAndUniqueKeys | safecrib-backend/src/modules/media/services/media-policy.service.ts:46-54 | in every reachable state pending rows per owner and purpose are within the quota, and keys and public ids are unique |
| MediaProofs.RedeliveryIsNoOp | safecrib-backend/src/modules/media/queues/webhook.processor.ts:76-96 | an upload notice that has been handled does nothing when delivered again in any later state, also when it found no row |
| MediaProofs.NoticeActsOnPending | safecrib-backend/src/modules/media/queues/webhook.processor.ts:76-143 | a handled upload notice changes a row exactly when its public id has a PENDING row and its key is new |
| MediaProofs.SizesKeptUnlessOverstated | safecrib-backend/src/modules/media/services/media.service.ts:133-167 | a step keeps ready rows within their limit, and ready videos with a known size, except exactly when the storage service reports more bytes than allowed for an accepted direct upload |
| MediaProofs.ReadySizes | safecrib-backend/src/modules/media/queues/webhook.processor.ts:98-143 | if it reports the size it was given, every reachable ready row with a known size is within its limit and every ready video has one |
| UploadPolicies.RowOrigin | safecrib-backend/src/modules/media/services/media-policy.service.ts:24-54 | every row of every run was stored by one request of the run that named its owner, purpose, public id and time, with a file type and size its purpose allows |
| UploadPolicies.RowAfterStep | safecrib-backend/src/modules/media/queues/webhook.processor.ts:66-178 | exactly which steps change a row, and to what |
| UploadPolicies.PendingUploads | safecrib-backend/src/modules/media/services/media-policy.service.ts:46-54 | no user ever has more than 43 uploads pending, over all purposes |
| UploadPolicies.StaleMeansHalfAnHour | safecrib-backend/src/modules/media/media.repository.ts:161-177 | a cleanup selects only rows requested more than 1800000 ms before, and all of them when there are fewer than 200 |
| UploadPolicies.OldestAreSelected | safecrib-backend/src/modules/media/media.repository.ts:166-177 | a stale row is selected as soon as fewer than 200 others are at least as old |
| UploadPolicies.KeysTellUploadsApart | safecrib-backend/src/modules/media/services/media.service.ts:211 | two uploads have the same key exactly when asset id, or public id for want of one, and version are the same, versions being numbers |

## Left out

- Controllers, guards, request validation, bootstrap and module wiring: no behaviour of their own.
- Decoding and resizing of images, the storage service, mail, password hashing, tokens, Redis and the job queues themselves: foreign code; their answers are parameters and jobs may be delivered late, repeatedly and in any order.
- Floating-point rounding, and the numeric values of cosine, power, logarithm and square root.
- Splitting, lower-casing and stop words of texts: token sets and token lists are given.
- Interleaving inside a booking handler other than between the two writes of a confirmation: nothing in the code guards against it.
- Failing upserts inside a sweep, which the worker logs and skips.
- The reads that pick a sweep batch or the listings compared with a new photo: the lists are given.
- The cached path of getTrustScore, the reviewer factor computed from a reviewer's own history (computeReviewerTrustFactor, which no service calls), and the score breakdown endpoint.
- Type, text and notes of fraud reports, listing them, and the ledger rows written when a duplicate flag is confirmed.
- Review queue rows without an entity, which older data may hold, and their fallback by email; every row written by the modelled handlers has one.
- The content checks of pages, profiles, discounts and listings: each enters as a yes or no.
- Case and blanks in emails: addresses are taken as already normalised.
- Which fields beyond owner, state, role and review outcome a page, profile or user has, and audit metadata.
- Format, dimensions, duration, asset id and timestamps of media rows other than their creation time; attachments, access links and their log.
- Photos, videos, bookmarks, support chat, user profile editing, refresh tokens and password flows: independent and simpler.
- ImageHash.ComputePhash: images narrower or lower than 8 pixels, which the fixed resize to 32 by 32 never yields.
- MediaService.MediaTables.RequestUploadSignature: counting the pending uploads and creating the row are one step here; the code does not hold a lock between them. The random public id is taken to be new.
- MediaService.MediaTables.FindDeleting: the code takes the 50 rows updated longest ago; update times are not modelled, so when there are more than 50 any 50 of them may come.
- MarketplaceProofs.ExistingBookingCheckIsRedundant: holds for handlers that run one at a time; two requests that both pass their guards before either writes are outside the model.
