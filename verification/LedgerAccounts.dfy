/**
  The books of the marketplace: over every run the ledger holds, for each user,
  exactly the rows that completed and disputed bookings and fraud reports account for.
 */
module LedgerAccounts {
  import opened Wrappers
  import opened Counting
  import opened BookingStateMachine
  import opened Marketplace
  import opened BookingHistories
  import TrustScore
  import V = Verification
  import VP = VerificationProofs
  import RO = ReviewOutcomes
  import MP = MarketplaceProofs

  type Kind = TrustScore.EventType

  const FRAUD: Kind := TrustScore.FraudReportConfirmed

  function Charge(kind: Kind, u: Id, w: int): V.LedgerRow -> bool {
    (row: V.LedgerRow) => row.eventType == kind && row.userId == u && row.weight == w
  }

  function AsStudent(status: BookingStatus, u: Id): Booking -> bool {
    (b: Booking) => b.status == status && b.studentId == u
  }

  function AsOwner(listings: map<Id, Listing>, status: BookingStatus, u: Id): Booking -> bool {
    (b: Booking) => b.status == status && b.listingId in listings && listings[b.listingId].ownerId == u
  }

  /** For every user u and weight w, the ledger has as many rows of the kind as there
      are bookings of that status with student u, if w is the student's weight, and on
      a room of u, if w is the owner's. */
  ghost predicate Balanced(ledger: seq<V.LedgerRow>, bookings: map<Id, Booking>, listings: map<Id, Listing>,
                           kind: Kind, status: BookingStatus, studentWeight: int, ownerWeight: int) {
    forall u: Id, w: int :: CountIf(ledger, Charge(kind, u, w)) ==
      (if w == studentWeight then |Matching(bookings, AsStudent(status, u))| else 0)
      + (if w == ownerWeight then |Matching(bookings, AsOwner(listings, status, u))| else 0)
  }

  function ConfirmedAgainst(u: Id): Report -> bool {
    (r: Report) => r.status == ReportConfirmed && r.targetUser == Some(u)
  }

  function FiledBy(u: Id): Report -> bool {
    (r: Report) => r.reporterId == u
  }

  /** Rows against u of weight w about reports, written or still to be written. */
  function Charges(ledger: seq<V.LedgerRow>, charges: multiset<Id>, u: Id, w: int): nat {
    CountIf(ledger, Charge(FRAUD, u, w)) + (if w == -10 then charges[u] else 0)
  }

  /** The ledger has -60 for every report confirmed against u, and -10 for every report u
      filed whose second write has been made. */
  ghost predicate ReportsBalanced(ledger: seq<V.LedgerRow>, reports: map<Id, Report>, charges: multiset<Id>) {
    forall u: Id, w: int :: Charges(ledger, charges, u, w) ==
      (if w == -60 then |Matching(reports, ConfirmedAgainst(u))| else 0)
      + (if w == -10 then |Matching(reports, FiledBy(u))| else 0)
  }

  ghost predicate Books(m: Market) {
    && Balanced(m.t.ledger, m.bookings, m.listings, TrustScore.BookingCompleted, Completed, 5, 10)
    && Balanced(m.t.ledger, m.bookings, m.listings, TrustScore.DisputeResolvedAgainst, Disputed, -5, -30)
    && ReportsBalanced(m.t.ledger, m.reports, m.charges)
  }

  // ---------------------------------------------------------------------------
  // Steps that leave the books alone
  // ---------------------------------------------------------------------------

  /** As many rows of the kind for every user and weight. */
  ghost predicate SameCharges(ledger: seq<V.LedgerRow>, ledger': seq<V.LedgerRow>, kind: Kind) {
    forall u: Id, w: int :: CountIf(ledger', Charge(kind, u, w)) == CountIf(ledger, Charge(kind, u, w))
  }

  predicate Concluded(s: BookingStatus) {
    s == Completed || s == Disputed
  }

  /** The concluded bookings are the same, with the same owners. */
  ghost predicate SameConcluded(bookings: map<Id, Booking>, listings: map<Id, Listing>, bookings': map<Id, Booking>,
                                listings': map<Id, Listing>) {
    && (forall b :: b in bookings && Concluded(bookings[b].status) ==> b in bookings' && bookings'[b] == bookings[b])
    && (forall b :: b in bookings' && Concluded(bookings'[b].status) ==> b in bookings && bookings[b] == bookings'[b])
    && (forall b :: b in bookings && Concluded(bookings[b].status) ==>
          var l := bookings[b].listingId;
          l in listings && l in listings' && listings'[l].ownerId == listings[l].ownerId)
  }

  lemma BalanceFrame(ledger: seq<V.LedgerRow>, bookings: map<Id, Booking>, listings: map<Id, Listing>,
                     ledger': seq<V.LedgerRow>, bookings': map<Id, Booking>, listings': map<Id, Listing>, kind: Kind,
                     status: BookingStatus, sw: int, ow: int)
    requires Balanced(ledger, bookings, listings, kind, status, sw, ow) && Concluded(status)
    requires SameCharges(ledger, ledger', kind) && SameConcluded(bookings, listings, bookings', listings')
    ensures Balanced(ledger', bookings', listings', kind, status, sw, ow)
  {
    hide CountIf;
    forall u
      ensures Matching(bookings', AsStudent(status, u)) == Matching(bookings, AsStudent(status, u))
      ensures Matching(bookings', AsOwner(listings', status, u)) == Matching(bookings, AsOwner(listings, status, u))
    {
    }
    hide Matching, AsStudent, AsOwner, Charge;
  }

  /** Targets, reporters and outcomes of the reports are the same. */
  ghost predicate SameReports(reports: map<Id, Report>, reports': map<Id, Report>) {
    && reports'.Keys == reports.Keys
    && forall r :: r in reports ==>
         reports'[r].reporterId == reports[r].reporterId && reports'[r].targetUser == reports[r].targetUser
         && reports'[r].status == reports[r].status
  }

  lemma ReportsFrame(ledger: seq<V.LedgerRow>, reports: map<Id, Report>, charges: multiset<Id>,
                     ledger': seq<V.LedgerRow>, reports': map<Id, Report>)
    requires ReportsBalanced(ledger, reports, charges)
    requires SameCharges(ledger, ledger', FRAUD) && SameReports(reports, reports')
    ensures ReportsBalanced(ledger', reports', charges)
  {
    hide CountIf;
    forall u
      ensures Matching(reports', ConfirmedAgainst(u)) == Matching(reports, ConfirmedAgainst(u))
      ensures Matching(reports', FiledBy(u)) == Matching(reports, FiledBy(u))
    {
      forall r ensures r in reports' <==> r in reports {
        assert r in reports'.Keys <==> r in reports.Keys;
      }
    }
    hide Matching, ConfirmedAgainst, FiledBy, Charge;
    forall u: Id, w: int ensures Charges(ledger', charges, u, w) == Charges(ledger, charges, u, w) {
    }
  }

  lemma ChargeAppend(ledger: seq<V.LedgerRow>, row: V.LedgerRow, kind: Kind)
    ensures forall u: Id, w: int :: CountIf(ledger + [row], Charge(kind, u, w)) ==
              CountIf(ledger, Charge(kind, u, w))
              + (if row.eventType == kind && row.userId == u && row.weight == w then 1 else 0)
    ensures row.eventType != kind ==> SameCharges(ledger, ledger + [row], kind)
  {
    hide CountIf;
    forall u: Id, w: int
      ensures CountIf(ledger + [row], Charge(kind, u, w)) ==
                CountIf(ledger, Charge(kind, u, w))
                + (if row.eventType == kind && row.userId == u && row.weight == w then 1 else 0)
    {
      CountAppend(ledger, row, Charge(kind, u, w));
    }
  }

  /** The verification workflow writes identity rows only. */
  lemma IdentityRowsOnly(t: V.Tables, e: V.Event, kind: Kind)
    requires VP.Inv(t) && kind != TrustScore.IdentityVerified
    ensures SameCharges(t.ledger, V.Step(t, e).ledger, kind)
  {
    hide VP.Inv, V.Step, CountIf, Charge;
    if e.EReviewPage? || e.EReviewSubmission? {
      RO.ReviewsEarn(t, e);
    } else {
      RO.OtherStepsEarn(t, e);
    }
    var ledger' := V.Step(t, e).ledger;
    if ledger' != t.ledger {
      assert ledger' == t.ledger + [ledger'[|t.ledger|]];
      ChargeAppend(t.ledger, ledger'[|t.ledger|], kind);
    }
  }

  /** The two steps that conclude a booking. */
  predicate Concludes(e: Event) {
    e.ECompleteBooking? || e.EDisputeBooking?
  }

  /** The steps about reports that change the books. */
  predicate Reports(e: Event) {
    e.EFileReport? || e.EChargeReporter? || e.EResolveReport?
  }

  lemma HandlersDoNotConclude(m: Market, e: Event, b: Id)
    requires e.ECreateBooking? || e.EConfirmBooking? || e.EReleaseHold? || e.ECancelBooking? || e.EExpireHold?
    requires b in Step(m, e).bookings && Concluded(Step(m, e).bookings[b].status)
    ensures b in m.bookings && m.bookings[b] == Step(m, e).bookings[b]
  {
    hide CreateListing, UpdateListing, DeleteListing, SubmitListing, ReviewListing, FlagListing, FileReport,
      ChargeReporter, ResolveReport, CompleteBooking, DisputeBooking, WriteSold, HasActiveBooking, SetStatus, V.Step;
  }

  lemma ConcludedOnlyByConclusion(m: Market, e: Event, b: Id)
    requires !Concludes(e) && b in Step(m, e).bookings && Concluded(Step(m, e).bookings[b].status)
    ensures b in m.bookings && m.bookings[b] == Step(m, e).bookings[b]
  {
    hide Step;
    if e.ECreateBooking? || e.EConfirmBooking? || e.EReleaseHold? || e.ECancelBooking? || e.EExpireHold? {
      HandlersDoNotConclude(m, e, b);
    } else {
      OtherStepsKeepBookings(m, e);
    }
  }

  lemma ConcludedStays(m: Market, e: Event, b: Id)
    requires MP.Inv(m) && b in m.bookings && Concluded(m.bookings[b].status)
    ensures b in Step(m, e).bookings && Step(m, e).bookings[b] == m.bookings[b]
  {
    hide MP.Inv, Step;
    StepMovesBookings(m, e, b);
  }

  lemma OwnerAfterListingSteps(m: Market, e: Event, l: Id)
    requires e.ECreateListing? || e.EUpdateListing? || e.EDeleteListing? || e.ESubmitListing? || e.EReviewListing?
    requires l in m.listings && HasBooking(m.bookings, l)
    ensures SameOwner(m.listings, Step(m, e).listings, l)
  {
    hide FlagListing, FileReport, ChargeReporter, ResolveReport, CreateBooking, ConfirmBooking, WriteSold, ReleaseHold,
      CancelBooking, CompleteBooking, DisputeBooking, ExpireHold, V.Step, HasBooking;
  }

  predicate SameOwner(listings: map<Id, Listing>, listings': map<Id, Listing>, l: Id)
    requires l in listings
  {
    l in listings' && listings'[l].ownerId == listings[l].ownerId
  }

  lemma FlaggingKeepsOwner(m: Market, f: Id, l: Id)
    requires l in m.listings
    ensures SameOwner(m.listings, FlagListing(m, f).0.listings, l)
  {
  }

  lemma SellingKeepsOwner(m: Market, w: SoldWrite, l: Id)
    requires l in m.listings
    ensures SameOwner(m.listings, WriteSold(m, w).listings, l)
  {
  }

  lemma ResolvingKeepsOwner(m: Market, r: Id, confirmed: bool, l: Id)
    requires l in m.listings
    ensures SameOwner(m.listings, ResolveReport(m, r, confirmed).0.listings, l)
  {
    hide Charged;
  }

  lemma ReportingKeepsListings(m: Market, r: Id, o: Id, u: Option<Id>, t: Option<Id>)
    ensures FileReport(m, r, o, u, t).0.listings == m.listings && ChargeReporter(m, o).listings == m.listings
  {
  }

  lemma OwnerAfterModeration(m: Market, e: Event, l: Id)
    requires e.EVerification? || e.EFlagListing? || e.EFileReport? || e.EChargeReporter? || e.EResolveReport? ||
             e.EWriteSold?
    requires l in m.listings
    ensures SameOwner(m.listings, Step(m, e).listings, l)
  {
    hide CreateListing, UpdateListing, DeleteListing, SubmitListing, ReviewListing, FlagListing, FileReport,
      ChargeReporter, ResolveReport, CreateBooking, ConfirmBooking, WriteSold, ReleaseHold, CancelBooking,
      CompleteBooking, DisputeBooking, ExpireHold, V.Step;
    match e
    case EVerification(_) =>
    case EFlagListing(f) => FlaggingKeepsOwner(m, f, l);
    case EFileReport(r, o, u, t) => ReportingKeepsListings(m, r, o, u, t);
    case EChargeReporter(u) => ReportingKeepsListings(m, 0, u, None, None);
    case EResolveReport(r, c) => ResolvingKeepsOwner(m, r, c, l);
    case EWriteSold(w) => SellingKeepsOwner(m, w, l);
  }

  lemma OwnerAfterBookingSteps(m: Market, e: Event, l: Id)
    requires e.ECreateBooking? || e.EConfirmBooking? || e.EReleaseHold? || e.ECancelBooking? || e.EExpireHold? ||
             Concludes(e)
    requires l in m.listings
    ensures SameOwner(m.listings, Step(m, e).listings, l)
  {
    hide CreateListing, UpdateListing, DeleteListing, SubmitListing, ReviewListing, FlagListing, FileReport,
      ChargeReporter, ResolveReport, WriteSold, Charged, V.Step, HasActiveBooking;
  }

  /** A room that was ever booked keeps its owner. */
  lemma OwnerStays(m: Market, e: Event, l: Id)
    requires l in m.listings && HasBooking(m.bookings, l)
    ensures SameOwner(m.listings, Step(m, e).listings, l)
  {
    hide Step, HasBooking;
    if e.ECreateListing? || e.EUpdateListing? || e.EDeleteListing? || e.ESubmitListing? || e.EReviewListing? {
      OwnerAfterListingSteps(m, e, l);
    } else if e.EVerification? || e.EFlagListing? || e.EFileReport? || e.EChargeReporter? || e.EResolveReport?
              || e.EWriteSold? {
      OwnerAfterModeration(m, e, l);
    } else {
      OwnerAfterBookingSteps(m, e, l);
    }
  }

  lemma BookedRoomExists(m: Market, b: Id)
    requires MP.Inv(m) && b in m.bookings
    ensures m.bookings[b].listingId in m.listings && HasBooking(m.bookings, m.bookings[b].listingId)
  {
    hide VP.Inv;
  }

  lemma ConcludedAreTheSame(m: Market, e: Event)
    requires MP.Inv(m) && !Concludes(e)
    ensures SameConcluded(m.bookings, m.listings, Step(m, e).bookings, Step(m, e).listings)
  {
    hide MP.Inv, Step, HasBooking;
    var m' := Step(m, e);
    forall b | b in m.bookings && Concluded(m.bookings[b].status)
      ensures b in m'.bookings && m'.bookings[b] == m.bookings[b]
      ensures var l := m.bookings[b].listingId;
              l in m.listings && l in m'.listings && m'.listings[l].ownerId == m.listings[l].ownerId
    {
      ConcludedStays(m, e, b);
      BookedRoomExists(m, b);
      OwnerStays(m, e, m.bookings[b].listingId);
    }
    forall b | b in m'.bookings && Concluded(m'.bookings[b].status)
      ensures b in m.bookings && m.bookings[b] == m'.bookings[b]
    {
      ConcludedOnlyByConclusion(m, e, b);
    }
  }

  /** Nothing about reports or the ledger changes. */
  ghost predicate Quiet(m: Market, m': Market) {
    m'.charges == m.charges && SameReports(m.reports, m'.reports) && m'.t.ledger == m.t.ledger
  }

  lemma QuietListingSteps(m: Market, e: Event)
    requires e.ECreateListing? || e.EUpdateListing? || e.EDeleteListing? || e.ESubmitListing? || e.EReviewListing?
    ensures Quiet(m, Step(m, e))
  {
    hide FlagListing, FileReport, ChargeReporter, ResolveReport, CreateBooking, ConfirmBooking, WriteSold, ReleaseHold,
      CancelBooking, CompleteBooking, DisputeBooking, ExpireHold, V.Step, HasBooking, SetStatus;
  }

  lemma QuietBookingSteps(m: Market, e: Event)
    requires e.ECreateBooking? || e.EConfirmBooking? || e.EReleaseHold? || e.ECancelBooking? || e.EExpireHold?
    ensures Quiet(m, Step(m, e))
  {
    hide CreateListing, UpdateListing, DeleteListing, SubmitListing, ReviewListing, FlagListing, FileReport,
      ChargeReporter, ResolveReport, CompleteBooking, DisputeBooking, WriteSold, HasActiveBooking, SetStatus, V.Step;
  }

  lemma QuietOtherSteps(m: Market, e: Event)
    requires e.EVerification? || e.EFlagListing? || e.EWriteSold?
    ensures Step(m, e).charges == m.charges && Step(m, e).reports == m.reports
    ensures Step(m, e).t.ledger == if e.EVerification? then V.Step(m.t, e.e).ledger else m.t.ledger
  {
    hide CreateListing, UpdateListing, DeleteListing, SubmitListing, ReviewListing, FileReport, ChargeReporter,
      ResolveReport, CreateBooking, ConfirmBooking, ReleaseHold, CancelBooking, CompleteBooking, DisputeBooking,
      ExpireHold, SetStatus, V.Step;
  }

  /** Every other step leaves reports and charges alone and charges nobody. */
  lemma QuietStep(m: Market, e: Event)
    requires !Concludes(e) && !Reports(e)
    ensures Step(m, e).charges == m.charges && SameReports(m.reports, Step(m, e).reports)
    ensures Step(m, e).t.ledger == if e.EVerification? then V.Step(m.t, e.e).ledger else m.t.ledger
  {
    hide Step, V.Step;
    if e.ECreateListing? || e.EUpdateListing? || e.EDeleteListing? || e.ESubmitListing? || e.EReviewListing? {
      QuietListingSteps(m, e);
    } else if e.EVerification? || e.EFlagListing? || e.EWriteSold? {
      QuietOtherSteps(m, e);
    } else {
      QuietBookingSteps(m, e);
    }
  }

  lemma NothingCharged(m: Market, e: Event, kind: Kind)
    requires MP.Inv(m) && !Concludes(e) && !Reports(e) && kind != TrustScore.IdentityVerified
    ensures SameCharges(m.t.ledger, Step(m, e).t.ledger, kind)
  {
    QuietStep(m, e);
    hide Step, V.Step, VP.Inv, CountIf, Charge;
    if e.EVerification? {
      IdentityRowsOnly(m.t, e.e, kind);
    }
  }

  lemma QuietStepKeepsBooks(m: Market, e: Event)
    requires MP.Inv(m) && Books(m) && !Concludes(e) && !Reports(e)
    ensures Books(Step(m, e))
  {
    hide MP.Inv, Step, Balanced, ReportsBalanced, SameCharges, SameReports, SameConcluded;
    var m' := Step(m, e);
    QuietStep(m, e);
    ConcludedAreTheSame(m, e);
    NothingCharged(m, e, TrustScore.BookingCompleted);
    NothingCharged(m, e, TrustScore.DisputeResolvedAgainst);
    NothingCharged(m, e, FRAUD);
    BalanceFrame(m.t.ledger, m.bookings, m.listings, m'.t.ledger, m'.bookings, m'.listings,
                 TrustScore.BookingCompleted, Completed, 5, 10);
    BalanceFrame(m.t.ledger, m.bookings, m.listings, m'.t.ledger, m'.bookings, m'.listings,
                 TrustScore.DisputeResolvedAgainst, Disputed, -5, -30);
    ReportsFrame(m.t.ledger, m.reports, m.charges, m'.t.ledger, m'.reports);
  }

  // ---------------------------------------------------------------------------
  // Conclusions
  // ---------------------------------------------------------------------------

  /** Two rows, one for the student and one for the owner. */
  lemma ConclusionBalances(ledger: seq<V.LedgerRow>, bookings: map<Id, Booking>, listings: map<Id, Listing>, b: Id,
                           row: Booking, kind: Kind, status: BookingStatus, sw: int, ow: int)
    requires Balanced(ledger, bookings, listings, kind, status, sw, ow)
    requires b in bookings && bookings[b].status != status && row.status == status && row.listingId in listings
    ensures var owner := listings[row.listingId].ownerId;
            Balanced(ledger + [V.LedgerRow(row.studentId, kind, sw, None)] + [V.LedgerRow(owner, kind, ow, None)],
                     bookings[b := row], listings, kind, status, sw, ow)
  {
    hide CountIf, Charge;
    var owner := listings[row.listingId].ownerId;
    var ledger1 := ledger + [V.LedgerRow(row.studentId, kind, sw, None)];
    ChargeAppend(ledger, V.LedgerRow(row.studentId, kind, sw, None), kind);
    ChargeAppend(ledger1, V.LedgerRow(owner, kind, ow, None), kind);
    forall u
      ensures |Matching(bookings[b := row], AsStudent(status, u))| ==
                |Matching(bookings, AsStudent(status, u))| + (if u == row.studentId then 1 else 0)
      ensures |Matching(bookings[b := row], AsOwner(listings, status, u))| ==
                |Matching(bookings, AsOwner(listings, status, u))| + (if u == owner then 1 else 0)
    {
      MatchingUpdate(bookings, b, row, AsStudent(status, u));
      MatchingUpdate(bookings, b, row, AsOwner(listings, status, u));
    }
    hide Matching, AsStudent, AsOwner;
  }

  /** A booking that is concluded another way counts neither before nor after. */
  lemma OtherConclusion(ledger: seq<V.LedgerRow>, ledger': seq<V.LedgerRow>, bookings: map<Id, Booking>,
                        listings: map<Id, Listing>, b: Id, row: Booking, kind: Kind, status: BookingStatus, sw: int,
                        ow: int)
    requires Balanced(ledger, bookings, listings, kind, status, sw, ow) && SameCharges(ledger, ledger', kind)
    requires b in bookings && bookings[b].status != status && row.status != status
    ensures Balanced(ledger', bookings[b := row], listings, kind, status, sw, ow)
  {
    hide CountIf, Charge;
    forall u
      ensures Matching(bookings[b := row], AsStudent(status, u)) == Matching(bookings, AsStudent(status, u))
      ensures Matching(bookings[b := row], AsOwner(listings, status, u)) ==
        Matching(bookings, AsOwner(listings, status, u))
    {
    }
    hide Matching, AsStudent, AsOwner;
  }

  lemma TwoOtherCharges(ledger: seq<V.LedgerRow>, r1: V.LedgerRow, r2: V.LedgerRow, kind: Kind)
    requires r1.eventType != kind && r2.eventType != kind
    ensures SameCharges(ledger, ledger + [r1] + [r2], kind)
  {
    hide CountIf, Charge;
    ChargeAppend(ledger, r1, kind);
    ChargeAppend(ledger + [r1], r2, kind);
  }

  /** The ledger after a booking was concluded: the student's row, then the owner's. */
  function Paid(m: Market, b: Id, kind: Kind, sw: int, ow: int): seq<V.LedgerRow>
    requires b in m.bookings && m.bookings[b].listingId in m.listings
  {
    m.t.ledger + [V.LedgerRow(m.bookings[b].studentId, kind, sw, None)]
    + [V.LedgerRow(m.listings[m.bookings[b].listingId].ownerId, kind, ow, None)]
  }

  lemma SettleForm(m: Market, b: Id, row: Booking, kind: Kind, sw: int, ow: int)
    requires b in m.bookings && m.bookings[b].listingId in m.listings
    requires row.listingId == m.bookings[b].listingId && row.studentId == m.bookings[b].studentId
    ensures var m' := Settle(m, b, row, kind, sw, ow);
            && m'.reports == m.reports && m'.charges == m.charges && m'.listings == m.listings
            && m'.bookings == m.bookings[b := row] && m'.t.ledger == Paid(m, b, kind, sw, ow)
  {
  }

  lemma CompletionForm(m: Market, b: Id, s: Id, now: int)
    requires MP.Inv(m)
    ensures var (m', r) := CompleteBooking(m, b, s, now);
            && m'.reports == m.reports && m'.charges == m.charges && m'.listings == m.listings
            && (r != V.Ok ==> m' == m)
            && (r == V.Ok ==>
                  && b in m.bookings && m.bookings[b].status == Booked && m.bookings[b].listingId in m.listings
                  && m'.bookings == m.bookings[b := m.bookings[b].(status := Completed, completedAt := Some(now))]
                  && m'.t.ledger == Paid(m, b, TrustScore.BookingCompleted, 5, 10))
  {
    hide MP.Inv, HasBooking, Settle, Paid;
    if b in m.bookings {
      BookedRoomExists(m, b);
      SettleForm(m, b, m.bookings[b].(status := Completed, completedAt := Some(now)), TrustScore.BookingCompleted, 5,
                 10);
    }
  }

  lemma DisputeForm(m: Market, b: Id, s: Id)
    requires MP.Inv(m)
    ensures var (m', r) := DisputeBooking(m, b, s);
            && m'.reports == m.reports && m'.charges == m.charges && m'.listings == m.listings
            && (r != V.Ok ==> m' == m)
            && (r == V.Ok ==>
                  && b in m.bookings && m.bookings[b].status == Booked && m.bookings[b].listingId in m.listings
                  && m'.bookings == m.bookings[b := m.bookings[b].(status := Disputed, holdExpiresAt := None)]
                  && m'.t.ledger == Paid(m, b, TrustScore.DisputeResolvedAgainst, -5, -30))
  {
    hide MP.Inv, HasBooking, Settle, Paid;
    if b in m.bookings {
      BookedRoomExists(m, b);
      SettleForm(m, b, m.bookings[b].(status := Disputed, holdExpiresAt := None), TrustScore.DisputeResolvedAgainst,
                 -5, -30);
    }
  }

  lemma ConclusionCharges(m: Market, b: Id, kind: Kind, other: Kind, sw: int, ow: int)
    requires b in m.bookings && m.bookings[b].listingId in m.listings && other != kind
    ensures SameCharges(m.t.ledger, Paid(m, b, kind, sw, ow), other)
  {
    hide SameCharges;
    TwoOtherCharges(m.t.ledger, V.LedgerRow(m.bookings[b].studentId, kind, sw, None),
                    V.LedgerRow(m.listings[m.bookings[b].listingId].ownerId, kind, ow, None), other);
  }

  lemma SameReportsSelf(reports: map<Id, Report>)
    ensures SameReports(reports, reports)
  {
  }

  lemma CompletionKeepsBooks(m: Market, b: Id, s: Id, now: int)
    requires MP.Inv(m) && Books(m)
    ensures Books(CompleteBooking(m, b, s, now).0)
  {
    CompletionForm(m, b, s, now);
    hide MP.Inv, CompleteBooking, Balanced, ReportsBalanced, SameCharges, SameReports;
    if CompleteBooking(m, b, s, now).1 == V.Ok {
      var row := m.bookings[b].(status := Completed, completedAt := Some(now));
      var ledger' := Paid(m, b, TrustScore.BookingCompleted, 5, 10);
      ConclusionBalances(m.t.ledger, m.bookings, m.listings, b, row, TrustScore.BookingCompleted, Completed, 5, 10);
      ConclusionCharges(m, b, TrustScore.BookingCompleted, TrustScore.DisputeResolvedAgainst, 5, 10);
      OtherConclusion(m.t.ledger, ledger', m.bookings, m.listings, b, row, TrustScore.DisputeResolvedAgainst, Disputed,
                      -5, -30);
      ConclusionCharges(m, b, TrustScore.BookingCompleted, FRAUD, 5, 10);
      SameReportsSelf(m.reports);
      ReportsFrame(m.t.ledger, m.reports, m.charges, ledger', m.reports);
    }
  }

  lemma DisputeKeepsBooks(m: Market, b: Id, s: Id)
    requires MP.Inv(m) && Books(m)
    ensures Books(DisputeBooking(m, b, s).0)
  {
    DisputeForm(m, b, s);
    hide MP.Inv, DisputeBooking, Balanced, ReportsBalanced, SameCharges, SameReports;
    if DisputeBooking(m, b, s).1 == V.Ok {
      var row := m.bookings[b].(status := Disputed, holdExpiresAt := None);
      var ledger' := Paid(m, b, TrustScore.DisputeResolvedAgainst, -5, -30);
      ConclusionBalances(m.t.ledger, m.bookings, m.listings, b, row, TrustScore.DisputeResolvedAgainst, Disputed, -5,
                         -30);
      ConclusionCharges(m, b, TrustScore.DisputeResolvedAgainst, TrustScore.BookingCompleted, -5, -30);
      OtherConclusion(m.t.ledger, ledger', m.bookings, m.listings, b, row, TrustScore.BookingCompleted, Completed, 5,
                      10);
      ConclusionCharges(m, b, TrustScore.DisputeResolvedAgainst, FRAUD, -5, -30);
      SameReportsSelf(m.reports);
      ReportsFrame(m.t.ledger, m.reports, m.charges, ledger', m.reports);
    }
  }

  // ---------------------------------------------------------------------------
  // Reports
  // ---------------------------------------------------------------------------

  /** A step about reports changes bookings, owners and the other kinds not at all. */
  lemma ReportStepFrame(m: Market, e: Event)
    requires MP.Inv(m) && Books(m) && Reports(e)
    requires SameCharges(m.t.ledger, Step(m, e).t.ledger, TrustScore.BookingCompleted)
    requires SameCharges(m.t.ledger, Step(m, e).t.ledger, TrustScore.DisputeResolvedAgainst)
    requires ReportsBalanced(Step(m, e).t.ledger, Step(m, e).reports, Step(m, e).charges)
    ensures Books(Step(m, e))
  {
    hide MP.Inv, Step, Balanced, ReportsBalanced, SameCharges, SameConcluded;
    var m' := Step(m, e);
    ConcludedAreTheSame(m, e);
    BalanceFrame(m.t.ledger, m.bookings, m.listings, m'.t.ledger, m'.bookings, m'.listings,
                 TrustScore.BookingCompleted, Completed, 5, 10);
    BalanceFrame(m.t.ledger, m.bookings, m.listings, m'.t.ledger, m'.bookings, m'.listings,
                 TrustScore.DisputeResolvedAgainst, Disputed, -5, -30);
  }

  /** What one report accounts for. */
  function Due(r: Report, u: Id, w: int): nat {
    (if w == -60 && ConfirmedAgainst(u)(r) then 1 else 0) + (if w == -10 && FiledBy(u)(r) then 1 else 0)
  }

  lemma ReportChange(ledger: seq<V.LedgerRow>, reports: map<Id, Report>, charges: multiset<Id>,
                     ledger': seq<V.LedgerRow>, charges': multiset<Id>, r: Id, row: Report)
    requires ReportsBalanced(ledger, reports, charges)
    requires forall u: Id, w: int ::
               Charges(ledger', charges', u, w) + (if r in reports then Due(reports[r], u, w) else 0)
                 == Charges(ledger, charges, u, w) + Due(row, u, w)
    ensures ReportsBalanced(ledger', reports[r := row], charges')
  {
    hide CountIf, Charge, ConfirmedAgainst, FiledBy;
    forall u
      ensures |Matching(reports[r := row], ConfirmedAgainst(u))|
              + (if r in reports && ConfirmedAgainst(u)(reports[r]) then 1 else 0)
           == |Matching(reports, ConfirmedAgainst(u))| + (if ConfirmedAgainst(u)(row) then 1 else 0)
      ensures |Matching(reports[r := row], FiledBy(u))| + (if r in reports && FiledBy(u)(reports[r]) then 1 else 0)
           == |Matching(reports, FiledBy(u))| + (if FiledBy(u)(row) then 1 else 0)
    {
      MatchingUpdate(reports, r, row, ConfirmedAgainst(u));
      MatchingUpdate(reports, r, row, FiledBy(u));
    }
    hide Matching;
    forall u: Id, w: int
      ensures Charges(ledger', charges', u, w) ==
        (if w == -60 then |Matching(reports[r := row], ConfirmedAgainst(u))| else 0)
        + (if w == -10 then |Matching(reports[r := row], FiledBy(u))| else 0)
    {
      assert Charges(ledger, charges, u, w) ==
        (if w == -60 then |Matching(reports, ConfirmedAgainst(u))| else 0)
        + (if w == -10 then |Matching(reports, FiledBy(u))| else 0);
    }
  }

  lemma FilingKeepsBooks(m: Market, r: Id, o: Id, u: Option<Id>, l: Option<Id>)
    requires Books(m)
    ensures var m' := FileReport(m, r, o, u, l).0;
            m'.t.ledger == m.t.ledger && ReportsBalanced(m'.t.ledger, m'.reports, m'.charges)
  {
    hide CountIf, Charge, ReportsBalanced, Balanced;
    if FileReport(m, r, o, u, l).1 == V.Ok {
      ReportChange(m.t.ledger, m.reports, m.charges, m.t.ledger, m.charges + multiset{o}, r,
                   Report(o, u, l, ReportPending));
    }
  }

  lemma PendingCharge(ledger: seq<V.LedgerRow>, reports: map<Id, Report>, charges: multiset<Id>, u: Id)
    requires ReportsBalanced(ledger, reports, charges) && u in charges
    ensures ReportsBalanced(ledger + [V.LedgerRow(u, FRAUD, -10, None)], reports, charges - multiset{u})
  {
    hide CountIf, Charge, Matching;
    var ledger' := ledger + [V.LedgerRow(u, FRAUD, -10, None)];
    ChargeAppend(ledger, V.LedgerRow(u, FRAUD, -10, None), FRAUD);
    forall v: Id, w: int ensures Charges(ledger', charges - multiset{u}, v, w) == Charges(ledger, charges, v, w) {
    }
  }

  lemma ChargingKeepsBooks(m: Market, u: Id)
    requires Books(m)
    ensures var m' := ChargeReporter(m, u);
            && ReportsBalanced(m'.t.ledger, m'.reports, m'.charges)
            && SameCharges(m.t.ledger, m'.t.ledger, TrustScore.BookingCompleted)
            && SameCharges(m.t.ledger, m'.t.ledger, TrustScore.DisputeResolvedAgainst)
  {
    hide Balanced, ReportsBalanced, SameCharges;
    SameChargesSelf(m.t.ledger);
    if u in m.charges {
      PendingCharge(m.t.ledger, m.reports, m.charges, u);
      ChargeAppend(m.t.ledger, V.LedgerRow(u, FRAUD, -10, None), TrustScore.BookingCompleted);
      ChargeAppend(m.t.ledger, V.LedgerRow(u, FRAUD, -10, None), TrustScore.DisputeResolvedAgainst);
    }
    hide Charge, CountIf;
  }

  /** What settling a report writes: its outcome and, if it is confirmed against a user,
      one row of -60. */
  lemma ResolutionForm(m: Market, r: Id, confirmed: bool)
    ensures var (m', reply) := ResolveReport(m, r, confirmed);
            && m'.charges == m.charges
            && (reply != V.Ok ==> m' == m)
            && (reply == V.Ok ==>
                  && r in m.reports && m.reports[r].status == ReportPending
                  && m'.reports == m.reports[r := m.reports[r].(status := if confirmed then ReportConfirmed
                                                                    else ReportDismissed)]
                  && m'.t.ledger == if confirmed && m.reports[r].targetUser.Some?
                     then m.t.ledger + [V.LedgerRow(m.reports[r].targetUser.value, FRAUD,
                                                    -60, None)]
                     else m.t.ledger)
  {
    hide SetStatus;
  }

  lemma ResolvingKeepsBooks(m: Market, r: Id, confirmed: bool)
    requires Books(m)
    ensures var m' := ResolveReport(m, r, confirmed).0;
            && ReportsBalanced(m'.t.ledger, m'.reports, m'.charges)
            && SameCharges(m.t.ledger, m'.t.ledger, TrustScore.BookingCompleted)
            && SameCharges(m.t.ledger, m'.t.ledger, TrustScore.DisputeResolvedAgainst)
  {
    ResolutionForm(m, r, confirmed);
    hide ResolveReport, CountIf, Charge, Balanced, ReportsBalanced;
    var (m', reply) := ResolveReport(m, r, confirmed);
    if reply == V.Ok {
      var row := m.reports[r].(status := if confirmed then ReportConfirmed else ReportDismissed);
      if confirmed && row.targetUser.Some? {
        var charge := V.LedgerRow(row.targetUser.value, FRAUD, -60, None);
        ChargeAppend(m.t.ledger, charge, FRAUD);
        ChargeAppend(m.t.ledger, charge, TrustScore.BookingCompleted);
        ChargeAppend(m.t.ledger, charge, TrustScore.DisputeResolvedAgainst);
      }
      ReportChange(m.t.ledger, m.reports, m.charges, m'.t.ledger, m.charges, r, row);
    }
  }

  lemma ReportStepsKeepBooks(m: Market, e: Event)
    requires MP.Inv(m) && Books(m) && Reports(e)
    ensures Books(Step(m, e))
  {
    hide MP.Inv, Books, ReportsBalanced, Balanced, SameCharges, FileReport, ChargeReporter, ResolveReport, V.Step,
      CreateListing, UpdateListing, DeleteListing, SubmitListing, ReviewListing, FlagListing, CreateBooking,
      ConfirmBooking, WriteSold, ReleaseHold, CancelBooking, CompleteBooking, DisputeBooking, ExpireHold;
    match e {
      case EFileReport(r, o, u, l) =>
        FilingKeepsBooks(m, r, o, u, l);
        SameChargesSelf(m.t.ledger);
      case EChargeReporter(u) => ChargingKeepsBooks(m, u);
      case EResolveReport(r, c) => ResolvingKeepsBooks(m, r, c);
    }
    ReportStepFrame(m, e);
  }

  lemma SameChargesSelf(ledger: seq<V.LedgerRow>)
    ensures forall kind :: SameCharges(ledger, ledger, kind)
  {
    hide CountIf, Charge;
  }

  // ---------------------------------------------------------------------------
  // Over all runs
  // ---------------------------------------------------------------------------

  lemma ConclusionsKeepBooks(m: Market, e: Event)
    requires MP.Inv(m) && Books(m) && Concludes(e)
    ensures Books(Step(m, e))
  {
    hide MP.Inv, Books, FileReport, ChargeReporter, ResolveReport, V.Step, CreateListing, UpdateListing, DeleteListing,
      SubmitListing, ReviewListing, FlagListing, CreateBooking, ConfirmBooking, WriteSold, ReleaseHold, CancelBooking,
      CompleteBooking, DisputeBooking, ExpireHold;
    match e
    case ECompleteBooking(b, s, now) => CompletionKeepsBooks(m, b, s, now);
    case EDisputeBooking(b, s) => DisputeKeepsBooks(m, b, s);
  }

  lemma StepKeepsBooks(m: Market, e: Event)
    requires MP.Inv(m) && Books(m)
    ensures Books(Step(m, e))
  {
    hide MP.Inv, Books, Step;
    if Concludes(e) {
      ConclusionsKeepBooks(m, e);
    } else if Reports(e) {
      ReportStepsKeepBooks(m, e);
    } else {
      QuietStepKeepsBooks(m, e);
    }
  }

  lemma EmptyBooks()
    ensures Books(EMPTY_MARKET)
  {
    assert EMPTY_MARKET.t.ledger == [];
    forall u: Id, status
      ensures Matching(EMPTY_MARKET.bookings, AsStudent(status, u)) == {}
      ensures Matching(EMPTY_MARKET.bookings, AsOwner(EMPTY_MARKET.listings, status, u)) == {}
      ensures Matching(EMPTY_MARKET.reports, ConfirmedAgainst(u)) == {}
      ensures Matching(EMPTY_MARKET.reports, FiledBy(u)) == {}
    {
    }
    hide Matching, AsStudent, AsOwner, ConfirmedAgainst, FiledBy;
  }

  /** In every reachable state the books balance: every completed booking accounts for
      one row of 5 for its student and one of 10 for the owner of its room, every
      disputed one for -5 and -30, every report confirmed against a user for -60, every
      report whose second write has been made for -10 against the reporter; and there
      are no other rows of these kinds. */
  lemma {:induction false} BooksBalance(events: seq<Event>)
    ensures Books(Run(EMPTY_MARKET, events))
  {
    hide MP.Inv, Step, Books;
    if |events| == 0 {
      EmptyBooks();
    } else {
      var prefix := events[..|events| - 1];
      BooksBalance(prefix);
      MP.EmptyMarketInv();
      MP.RunKeepsInv(EMPTY_MARKET, prefix);
      StepKeepsBooks(Run(EMPTY_MARKET, prefix), events[|events| - 1]);
    }
  }
}
