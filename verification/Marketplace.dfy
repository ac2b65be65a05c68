/**
  Listings and bookings: the request handlers, the delayed hold-expiry job and
  the moderation steps, each one guarded read and write on shared tables.

  Confirming a booking is two separate writes, so it is two steps here: the
  booking row first, and later, with anything in between, the listing row.
 */
module Marketplace {
  import opened Wrappers
  import opened BookingStateMachine
  import TrustScore
  import V = Verification

  datatype ListingStatus =
    | LDraft | LSubmitted | LUnderReview | LVerified | LRejected | LActive | LInactive | LSold | LFlagged

  /** `presentable` says whether price, place and media allow submission. */
  datatype Listing = Listing(ownerId: Id, pageId: Id, status: ListingStatus, presentable: bool)

  datatype Booking = Booking(
    listingId: Id, studentId: Id, status: BookingStatus, depositAmount: int, holdExpiresAt: Option<int>,
    bookedAt: Option<int>, completedAt: Option<int>, cancelledAt: Option<int>)

  datatype ReportStatus = ReportPending | ReportConfirmed | ReportDismissed

  datatype Report = Report(reporterId: Id, targetUser: Option<Id>, targetListing: Option<Id>, status: ReportStatus)

  datatype HoldJob = HoldJob(bookingId: Id, listingId: Id)

  /** The second write of a confirmation that has not happened yet. */
  datatype SoldWrite = SoldWrite(listingId: Id, studentId: Id)

  /** `issued` holds every listing id ever given out; hold jobs may be delivered
      any number of times, so they are never removed. */
  datatype Market = Market(
    t: V.Tables, listings: map<Id, Listing>, issued: set<Id>, bookings: map<Id, Booking>,
    reports: map<Id, Report>, charges: multiset<Id>, holdJobs: set<HoldJob>, soldWrites: multiset<SoldWrite>,
    recomputeJobs: seq<Id>)

  const HOLD_DURATION_MS: int := 24 * 60 * 60 * 1000

  const EMPTY_MARKET := Market(V.EMPTY, map[], {}, map[], map[], multiset{}, {}, multiset{}, [])

  function SetStatus(m: Market, l: Id, s: ListingStatus): map<Id, Listing>
    requires l in m.listings
  {
    m.listings[l := m.listings[l].(status := s)]
  }

  function Logged(t: V.Tables, actorId: Id, action: V.Action, entityId: Id): V.Tables {
    t.(audits := t.audits + [V.Audit(actorId, action, entityId)])
  }

  function Charged(t: V.Tables, userId: Id, kind: TrustScore.EventType, weight: int): V.Tables {
    t.(ledger := t.ledger + [V.LedgerRow(userId, kind, weight, None)])
  }

  // ---------------------------------------------------------------------------
  // Listings
  // ---------------------------------------------------------------------------

  predicate HasVerifiedPage(t: V.Tables, ownerId: Id) {
    V.HasPage(t, ownerId) && t.pages[t.pageByOwner[ownerId]].state == V.PageVerified
  }

  function CreateListing(m: Market, ownerId: Id, role: V.Role, l: Id, presentable: bool, discountValid: bool,
                         photos: nat): (Market, V.Reply) {
    if role != V.Agent && role != V.Landlord then (m, V.Forbidden)
    else if !discountValid then (m, V.BadRequest)
    else if photos > 5 then (m, V.Conflict)
    else if !HasVerifiedPage(m.t, ownerId) then (m, V.Forbidden)
    else if l in m.issued || l in m.listings then (m, V.ConstraintViolation)
    else
      (m.(listings := m.listings[l := Listing(ownerId, m.t.pageByOwner[ownerId], LDraft, presentable)],
          issued := m.issued + {l}), V.Ok)
  }

  function UpdateListing(m: Market, l: Id, ownerId: Id, presentable: bool, discountValid: bool): (Market, V.Reply) {
    if l !in m.listings then (m, V.NotFound)
    else if m.listings[l].ownerId != ownerId then (m, V.Forbidden)
    else if !discountValid then (m, V.BadRequest)
    else (m.(listings := m.listings[l := m.listings[l].(presentable := presentable)]), V.Ok)
  }

  predicate HasBooking(bookings: map<Id, Booking>, l: Id) {
    exists b :: b in bookings && bookings[b].listingId == l
  }

  /** Reports lose their reference to a deleted listing. */
  function Untargeted(reports: map<Id, Report>, l: Id): map<Id, Report> {
    map r | r in reports ::
      if reports[r].targetListing == Some(l) then reports[r].(targetListing := None) else reports[r]
  }

  /** Bookings and duplicate flags restrict the deletion of their listing. */
  function DeleteListing(m: Market, l: Id, ownerId: Id, hasDuplicateFlags: bool): (Market, V.Reply) {
    if l !in m.listings then (m, V.NotFound)
    else if m.listings[l].ownerId != ownerId then (m, V.Forbidden)
    else if HasBooking(m.bookings, l) || hasDuplicateFlags then (m, V.ConstraintViolation)
    else (m.(listings := m.listings - {l}, reports := Untargeted(m.reports, l)), V.Ok)
  }

  function SubmitListing(m: Market, l: Id, ownerId: Id): (Market, V.Reply) {
    if l !in m.listings then (m, V.NotFound)
    else if m.listings[l].ownerId != ownerId then (m, V.Forbidden)
    else if m.listings[l].status != LDraft && m.listings[l].status != LRejected then (m, V.Forbidden)
    else if !m.listings[l].presentable then (m, V.BadRequest)
    else (m.(listings := SetStatus(m, l, LSubmitted), t := Logged(m.t, ownerId, V.ListingSubmitted, l)), V.Ok)
  }

  function ReviewListing(m: Market, l: Id, adminId: Id, approved: bool): (Market, V.Reply) {
    if l !in m.listings then (m, V.NotFound)
    else if m.listings[l].status != LSubmitted && m.listings[l].status != LUnderReview then (m, V.Forbidden)
    else
      (m.(listings := SetStatus(m, l, if approved then LVerified else LRejected),
          t := Logged(m.t, adminId, if approved then V.ListingVerified else V.ListingRejected, l)), V.Ok)
  }

  function FlagListing(m: Market, l: Id): (Market, V.Reply) {
    if l !in m.listings then (m, V.NotFound)
    else (m.(listings := SetStatus(m, l, LFlagged)), V.Ok)
  }

  // ---------------------------------------------------------------------------
  // Fraud reports
  // ---------------------------------------------------------------------------

  predicate TargetsExist(m: Market, targetUser: Option<Id>, targetListing: Option<Id>) {
    (targetUser.Some? ==> targetUser.value in m.t.users) && (targetListing.Some? ==> targetListing.value in m.listings)
  }

  /** First write of a report: the report itself. */
  function FileReport(m: Market, r: Id, reporterId: Id, targetUser: Option<Id>,
                      targetListing: Option<Id>): (Market, V.Reply) {
    if targetUser.None? && targetListing.None? then (m, V.BadRequest)
    else if r in m.reports || reporterId !in m.t.users || !TargetsExist(m, targetUser, targetListing) then
      (m, V.ConstraintViolation)
    else
      (m.(reports := m.reports[r := Report(reporterId, targetUser, targetListing, ReportPending)],
          charges := m.charges + multiset{reporterId}), V.Ok)
  }

  /** Second write of a report: a ledger row against the reporter. */
  function ChargeReporter(m: Market, u: Id): Market {
    if u !in m.charges then m
    else
      m.(charges := m.charges - multiset{u}, t := Charged(m.t, u, TrustScore.FraudReportConfirmed, -10))
  }

  /** The effect of a confirmed report against a user, a listing, or both. */
  function ConfirmFraud(m: Market, targetUser: Option<Id>, targetListing: Option<Id>): Market
    requires TargetsExist(m, targetUser, targetListing)
  {
    var m1 := if targetListing.Some? then m.(listings := SetStatus(m, targetListing.value, LFlagged)) else m;
    if targetUser.Some? then
      m1.(t := Charged(m.t, targetUser.value, TrustScore.FraudReportConfirmed, -60),
          recomputeJobs := m.recomputeJobs + [targetUser.value])
    else m1
  }

  /** A pending report is settled once; a missing target takes everything back. */
  function ResolveReport(m: Market, r: Id, confirmed: bool): (Market, V.Reply) {
    if r !in m.reports then (m, V.NotFound)
    else if m.reports[r].status != ReportPending then (m, V.BadRequest)
    else
      var row := m.reports[r];
      var m1 := m.(reports := m.reports[r := row.(status := if confirmed then ReportConfirmed else ReportDismissed)]);
      if !confirmed then (m1, V.Ok)
      else if !TargetsExist(m, row.targetUser, row.targetListing) then (m, V.ConstraintViolation)
      else (ConfirmFraud(m1, row.targetUser, row.targetListing), V.Ok)
  }

  // ---------------------------------------------------------------------------
  // Bookings
  // ---------------------------------------------------------------------------

  predicate HeldOrBooked(s: BookingStatus) {
    s == Held || s == Booked
  }

  predicate HasActiveBooking(m: Market, l: Id) {
    exists b :: b in m.bookings && m.bookings[b].listingId == l && HeldOrBooked(m.bookings[b].status)
  }

  /** The effect of a booking request once its guards have passed. */
  function TakeHoldOn(m: Market, studentId: Id, l: Id, deposit: int, b: Id, now: int): Market
    requires l in m.listings
  {
    m.(bookings := m.bookings[b := Booking(l, studentId, Held, deposit, Some(now + HOLD_DURATION_MS), None, None,
                                           None)],
       listings := SetStatus(m, l, LInactive),
       holdJobs := m.holdJobs + {HoldJob(b, l)})
  }

  function CreateBooking(m: Market, studentId: Id, l: Id, deposit: int, b: Id, now: int): (Market, V.Reply) {
    if l !in m.listings then (m, V.NotFound)
    else if m.listings[l].status != LVerified then (m, V.Conflict)
    else if HasActiveBooking(m, l) then (m, V.Conflict)
    else if b in m.bookings || studentId !in m.t.users then (m, V.ConstraintViolation)
    else (TakeHoldOn(m, studentId, l, deposit, b, now), V.Ok)
  }

  /** First write of a confirmation: the booking row. */
  function ConfirmBooking(m: Market, b: Id, studentId: Id, deposit: Option<int>, now: int): (Market, V.Reply) {
    if b !in m.bookings then (m, V.NotFound)
    else if m.bookings[b].studentId != studentId then (m, V.Conflict)
    else if !IsEdge(m.bookings[b].status, Booked) then (m, V.BadRequest)
    else
      var row := m.bookings[b];
      (m.(bookings := m.bookings[b := row.(status := Booked, holdExpiresAt := None, bookedAt := Some(now),
                                           depositAmount := if deposit.Some? then deposit.value
                                             else row.depositAmount)],
          soldWrites := m.soldWrites + multiset{SoldWrite(row.listingId, studentId)}), V.Ok)
  }

  /** Second write of a confirmation: the listing row, and the recompute jobs. */
  function WriteSold(m: Market, w: SoldWrite): Market {
    if w !in m.soldWrites || w.listingId !in m.listings then m
    else
      m.(soldWrites := m.soldWrites - multiset{w},
         listings := SetStatus(m, w.listingId, LSold),
         recomputeJobs := m.recomputeJobs + [w.studentId, m.listings[w.listingId].ownerId])
  }

  function Cancelling(m: Market, b: Id, row: Booking, s: ListingStatus): Market
    requires b in m.bookings && m.bookings[b].listingId in m.listings
  {
    m.(bookings := m.bookings[b := row], listings := SetStatus(m, m.bookings[b].listingId, s))
  }

  function ReleaseHold(m: Market, b: Id): (Market, V.Reply) {
    if b !in m.bookings then (m, V.NotFound)
    else if m.bookings[b].status != Held || !IsEdge(m.bookings[b].status, Available) then (m, V.Ok)
    else if m.bookings[b].listingId !in m.listings then (m, V.NotFound)
    else (Cancelling(m, b, m.bookings[b].(status := Cancelled), LVerified), V.Ok)
  }

  function CancelBooking(m: Market, b: Id, studentId: Id, now: int): (Market, V.Reply) {
    if b !in m.bookings then (m, V.NotFound)
    else if m.bookings[b].studentId != studentId then (m, V.Conflict)
    else if !HeldOrBooked(m.bookings[b].status) || !IsEdge(m.bookings[b].status, Cancelled) then (m, V.BadRequest)
    else if m.bookings[b].listingId !in m.listings then (m, V.NotFound)
    else (Cancelling(m, b, m.bookings[b].(status := Cancelled, cancelledAt := Some(now)), LVerified), V.Ok)
  }

  /** The student gets a ledger row, and so does the owner when the listing is
      found; the owner's recompute is queued first. */
  function Settle(m: Market, b: Id, row: Booking, kind: TrustScore.EventType, studentWeight: int,
                  ownerWeight: int): Market {
    var t1 := Charged(m.t, row.studentId, kind, studentWeight);
    if row.listingId in m.listings then
      var owner := m.listings[row.listingId].ownerId;
      m.(bookings := m.bookings[b := row], t := Charged(t1, owner, kind, ownerWeight),
         recomputeJobs := m.recomputeJobs + [owner, row.studentId])
    else
      m.(bookings := m.bookings[b := row], t := t1, recomputeJobs := m.recomputeJobs + [row.studentId])
  }

  function CompleteBooking(m: Market, b: Id, studentId: Id, now: int): (Market, V.Reply) {
    if b !in m.bookings then (m, V.NotFound)
    else if m.bookings[b].studentId != studentId then (m, V.Conflict)
    else if m.bookings[b].status != Booked || !IsEdge(m.bookings[b].status, Completed) then (m, V.BadRequest)
    else (Settle(m, b, m.bookings[b].(status := Completed, completedAt := Some(now)), TrustScore.BookingCompleted,
                 5, 10), V.Ok)
  }

  function DisputeBooking(m: Market, b: Id, studentId: Id): (Market, V.Reply) {
    if b !in m.bookings then (m, V.NotFound)
    else if m.bookings[b].studentId != studentId then (m, V.Conflict)
    else if m.bookings[b].status != Booked || !IsEdge(m.bookings[b].status, Disputed) then (m, V.BadRequest)
    else (Settle(m, b, m.bookings[b].(status := Disputed, holdExpiresAt := None), TrustScore.DisputeResolvedAgainst,
                 -5, -30), V.Ok)
  }

  /** The delayed job. It writes the listing named in its own data, and leaves it
      ACTIVE, not VERIFIED. */
  function ExpireHold(m: Market, job: HoldJob, now: int): Market {
    if job !in m.holdJobs then m
    else if job.bookingId !in m.bookings || m.bookings[job.bookingId].status != Held then m
    else
      var row := m.bookings[job.bookingId];
      if row.holdExpiresAt.Some? && row.holdExpiresAt.value > now then m
      else if !IsEdge(row.status, Available) || job.listingId !in m.listings then m
      else
        m.(bookings := m.bookings[job.bookingId := row.(status := Cancelled)],
           listings := SetStatus(m, job.listingId, LActive))
  }

  // ---------------------------------------------------------------------------
  // Runs
  // ---------------------------------------------------------------------------

  datatype Event =
    | EVerification(e: V.Event)
    | ECreateListing(ownerId: Id, role: V.Role, l: Id, presentable: bool, discountValid: bool, photos: nat)
    | EUpdateListing(l: Id, ownerId: Id, presentable: bool, discountValid: bool)
    | EDeleteListing(l: Id, ownerId: Id, hasDuplicateFlags: bool)
    | ESubmitListing(l: Id, ownerId: Id)
    | EReviewListing(l: Id, adminId: Id, approved: bool)
    | EFlagListing(l: Id)
    | EFileReport(r: Id, reporterId: Id, targetUser: Option<Id>, targetListing: Option<Id>)
    | EChargeReporter(reporter: Id)
    | EResolveReport(r: Id, confirmed: bool)
    | ECreateBooking(studentId: Id, l: Id, deposit: int, b: Id, now: int)
    | EConfirmBooking(b: Id, studentId: Id, newDeposit: Option<int>, now: int)
    | EWriteSold(w: SoldWrite)
    | EReleaseHold(b: Id)
    | ECancelBooking(b: Id, studentId: Id, now: int)
    | ECompleteBooking(b: Id, studentId: Id, now: int)
    | EDisputeBooking(b: Id, studentId: Id)
    | EExpireHold(job: HoldJob, now: int)

  function Step(m: Market, e: Event): Market {
    match e
    case EVerification(v) => m.(t := V.Step(m.t, v))
    case ECreateListing(o, role, l, p, d, n) => CreateListing(m, o, role, l, p, d, n).0
    case EUpdateListing(l, o, p, d) => UpdateListing(m, l, o, p, d).0
    case EDeleteListing(l, o, f) => DeleteListing(m, l, o, f).0
    case ESubmitListing(l, o) => SubmitListing(m, l, o).0
    case EReviewListing(l, a, ok) => ReviewListing(m, l, a, ok).0
    case EFlagListing(l) => FlagListing(m, l).0
    case EFileReport(r, o, u, l) => FileReport(m, r, o, u, l).0
    case EChargeReporter(u) => ChargeReporter(m, u)
    case EResolveReport(r, c) => ResolveReport(m, r, c).0
    case ECreateBooking(s, l, d, b, now) => CreateBooking(m, s, l, d, b, now).0
    case EConfirmBooking(b, s, d, now) => ConfirmBooking(m, b, s, d, now).0
    case EWriteSold(w) => WriteSold(m, w)
    case EReleaseHold(b) => ReleaseHold(m, b).0
    case ECancelBooking(b, s, now) => CancelBooking(m, b, s, now).0
    case ECompleteBooking(b, s, now) => CompleteBooking(m, b, s, now).0
    case EDisputeBooking(b, s) => DisputeBooking(m, b, s).0
    case EExpireHold(job, now) => ExpireHold(m, job, now)
  }

  function Run(m: Market, events: seq<Event>): Market {
    if |events| == 0 then m else Step(Run(m, events[..|events| - 1]), events[|events| - 1])
  }
}
