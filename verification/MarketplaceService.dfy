/**
  Listing, booking and moderation handlers and the hold-expiry worker as they are
  written: reads, guards, the booking state machine, and single updates. Each keeps
  the tables valid, which is the invariant of every run, and does exactly what its
  function in Marketplace says; so requests and jobs served one after the other are
  a run, and everything proved of runs holds of them.
 */
module MarketplaceService {
  import opened Wrappers
  import opened BookingStateMachine
  import opened Marketplace
  import opened VerificationService
  import TrustScore
  import V = Verification
  import MP = MarketplaceProofs
  import BH = BookingHistories
  import SO = SaleOutcomes

  class MarketTables {
    const accounts: VerificationTables
    var listings: map<Id, Listing>
    var issued: set<Id>
    var bookings: map<Id, Booking>
    var reports: map<Id, Report>
    var charges: multiset<Id>
    var holdJobs: set<HoldJob>
    var soldWrites: multiset<SoldWrite>
    var recomputeJobs: seq<Id>

    constructor (accounts: VerificationTables)
      requires accounts.Valid()
      ensures this.accounts == accounts
      ensures Valid()
      ensures Model() == EMPTY_MARKET.(t := accounts.Model())
    {
      this.accounts := accounts;
      listings, issued, bookings, reports, charges := map[], {}, map[], map[], multiset{};
      holdJobs, soldWrites, recomputeJobs := {}, multiset{}, [];
    }

    /** No room is sold twice, jobs name existing bookings, and every listing has a
        verified page behind it and a review before it. */
    ghost predicate Valid()
      reads this, accounts
    {
      MP.Inv(Model())
    }

    ghost function Model(): Market
      reads this, accounts
    {
      Market(accounts.Model(), listings, issued, bookings, reports, charges, holdJobs, soldWrites, recomputeJobs)
    }

    method SetListingStatus(l: Id, s: ListingStatus)
      requires l in listings
      modifies this`listings
      ensures listings == SetStatus(old(Model()), l, s)
    {
      var row := listings[l];
      listings := listings[l := row.(status := s)];
    }

    method QueueRecompute(userId: Id)
      modifies this`recomputeJobs
      ensures recomputeJobs == old(recomputeJobs) + [userId]
    {
      recomputeJobs := recomputeJobs + [userId];
    }

    // -------------------------------------------------------------------------
    // Listings and moderation
    // -------------------------------------------------------------------------

    method Create(ownerId: Id, role: V.Role, l: Id, presentable: bool, discountValid: bool, photos: nat)
      returns (reply: V.Reply)
      requires Valid()
      modifies this
      ensures (Model(), reply) == CreateListing(old(Model()), ownerId, role, l, presentable, discountValid, photos)
      ensures Valid()
      ensures reply == V.Ok ==>
                && (role == V.Agent || role == V.Landlord) && photos <= 5 && l in listings
                && listings[l].ownerId == ownerId && listings[l].status == LDraft
    {
      hide MP.Inv;
      MP.CreateListingKeepsInv(Model(), ownerId, role, l, presentable, discountValid, photos);
      if role != V.Agent && role != V.Landlord {
        return V.Forbidden;
      }
      if !discountValid {
        return V.BadRequest;
      }
      if photos > 5 {
        return V.Conflict;
      }
      var page := accounts.FindPageOf(ownerId);
      if page.None? || accounts.pages[page.value].state != V.PageVerified {
        return V.Forbidden;
      }
      if l in issued || l in listings {
        return V.ConstraintViolation;
      }
      listings := listings[l := Listing(ownerId, page.value, LDraft, presentable)];
      issued := issued + {l};
      return V.Ok;
    }

    method Update(l: Id, ownerId: Id, presentable: bool, discountValid: bool) returns (reply: V.Reply)
      requires Valid()
      modifies this
      ensures (Model(), reply) == UpdateListing(old(Model()), l, ownerId, presentable, discountValid)
      ensures Valid()
    {
      hide MP.Inv;
      MP.UpdateListingKeepsInv(Model(), l, ownerId, presentable, discountValid);
      if l !in listings {
        return V.NotFound;
      }
      if listings[l].ownerId != ownerId {
        return V.Forbidden;
      }
      if !discountValid {
        return V.BadRequest;
      }
      listings := listings[l := listings[l].(presentable := presentable)];
      return V.Ok;
    }

    method Delete(l: Id, ownerId: Id, hasDuplicateFlags: bool) returns (reply: V.Reply)
      requires Valid()
      modifies this
      ensures (Model(), reply) == DeleteListing(old(Model()), l, ownerId, hasDuplicateFlags)
      ensures Valid()
    {
      hide MP.Inv;
      MP.DeleteListingKeepsInv(Model(), l, ownerId, hasDuplicateFlags);
      if l !in listings {
        return V.NotFound;
      }
      if listings[l].ownerId != ownerId {
        return V.Forbidden;
      }
      if HasBooking(bookings, l) || hasDuplicateFlags {
        return V.ConstraintViolation;
      }
      listings := listings - {l};
      reports := Untargeted(reports, l);
      return V.Ok;
    }

    method Submit(l: Id, ownerId: Id) returns (reply: V.Reply)
      requires Valid()
      modifies this, accounts
      ensures (Model(), reply) == SubmitListing(old(Model()), l, ownerId)
      ensures Valid()
      ensures reply == V.Ok ==> accounts.audits == old(accounts.audits) + [V.Audit(ownerId, V.ListingSubmitted, l)]
    {
      hide MP.Inv;
      MP.SubmitListingKeepsInv(Model(), l, ownerId);
      if l !in listings {
        return V.NotFound;
      }
      var listing := listings[l];
      if listing.ownerId != ownerId {
        return V.Forbidden;
      }
      if listing.status != LDraft && listing.status != LRejected {
        return V.Forbidden;
      }
      if !listing.presentable {
        return V.BadRequest;
      }
      SetListingStatus(l, LSubmitted);
      accounts.Log(ownerId, V.ListingSubmitted, l);
      return V.Ok;
    }

    method Review(l: Id, adminId: Id, approved: bool) returns (reply: V.Reply)
      requires Valid()
      modifies this, accounts
      ensures (Model(), reply) == ReviewListing(old(Model()), l, adminId, approved)
      ensures Valid()
      ensures reply == V.Ok ==>
                var action := if approved then V.ListingVerified else V.ListingRejected;
                accounts.audits == old(accounts.audits) + [V.Audit(adminId, action, l)]
    {
      hide MP.Inv;
      MP.ReviewListingKeepsInv(Model(), l, adminId, approved);
      if l !in listings {
        return V.NotFound;
      }
      if listings[l].status != LSubmitted && listings[l].status != LUnderReview {
        return V.Forbidden;
      }
      SetListingStatus(l, if approved then LVerified else LRejected);
      accounts.Log(adminId, if approved then V.ListingVerified else V.ListingRejected, l);
      return V.Ok;
    }

    method Flag(l: Id) returns (reply: V.Reply)
      requires Valid()
      modifies this
      ensures (Model(), reply) == FlagListing(old(Model()), l)
      ensures Valid()
    {
      hide MP.Inv;
      MP.FlagListingKeepsInv(Model(), l);
      if l !in listings {
        return V.NotFound;
      }
      SetListingStatus(l, LFlagged);
      return V.Ok;
    }

    // -------------------------------------------------------------------------
    // Fraud reports
    // -------------------------------------------------------------------------

    method TargetsFound(targetUser: Option<Id>, targetListing: Option<Id>) returns (found: bool)
      ensures found == TargetsExist(Model(), targetUser, targetListing)
    {
      found := (targetUser.None? || targetUser.value in accounts.users)
        && (targetListing.None? || targetListing.value in listings);
    }

    /** Up to the first write; the second one is ChargeForReport, some time later. */
    method ReportFraud(r: Id, reporterId: Id, targetUser: Option<Id>, targetListing: Option<Id>)
      returns (reply: V.Reply)
      requires Valid()
      modifies this
      ensures (Model(), reply) == FileReport(old(Model()), r, reporterId, targetUser, targetListing)
      ensures Valid()
      ensures reply == V.Ok ==>
                r in reports && reports[r] == Report(reporterId, targetUser, targetListing, ReportPending)
    {
      hide MP.Inv;
      MP.FileReportKeepsInv(Model(), r, reporterId, targetUser, targetListing);
      if targetUser.None? && targetListing.None? {
        return V.BadRequest;
      }
      var found := TargetsFound(targetUser, targetListing);
      if r in reports || reporterId !in accounts.users || !found {
        return V.ConstraintViolation;
      }
      reports := reports[r := Report(reporterId, targetUser, targetListing, ReportPending)];
      charges := charges + multiset{reporterId};
      return V.Ok;
    }

    /** The second write of a report. */
    method ChargeForReport(reporter: Id)
      requires reporter in charges
      requires Valid()
      modifies this, accounts
      ensures Model() == ChargeReporter(old(Model()), reporter)
      ensures Valid()
    {
      hide MP.Inv;
      MP.ChargeReporterKeepsInv(Model(), reporter);
      charges := charges - multiset{reporter};
      accounts.RecordEvent(reporter, TrustScore.FraudReportConfirmed, -10, None);
    }

    /** The part of the transaction that follows a confirmation. */
    method Punish(targetUser: Option<Id>, targetListing: Option<Id>)
      requires TargetsExist(Model(), targetUser, targetListing)
      modifies this, accounts
      ensures Model() == ConfirmFraud(old(Model()), targetUser, targetListing)
      ensures reports == old(reports)
    {
      if targetUser.Some? {
        accounts.RecordEvent(targetUser.value, TrustScore.FraudReportConfirmed, -60, None);
        if targetListing.Some? {
          SetListingStatus(targetListing.value, LFlagged);
        }
        QueueRecompute(targetUser.value);
      } else if targetListing.Some? {
        SetListingStatus(targetListing.value, LFlagged);
      }
    }

    method ResolveFraudReport(r: Id, confirmed: bool) returns (reply: V.Reply)
      requires Valid()
      modifies this, accounts
      ensures (Model(), reply) == ResolveReport(old(Model()), r, confirmed)
      ensures Valid()
      ensures reply == V.Ok ==>
                r in reports && reports[r].status == if confirmed then ReportConfirmed else ReportDismissed
    {
      hide MP.Inv, ConfirmFraud;
      MP.ResolveReportKeepsInv(Model(), r, confirmed);
      if r !in reports {
        return V.NotFound;
      }
      var report := reports[r];
      if report.status != ReportPending {
        return V.BadRequest;
      }
      var reports0 := reports;
      reports := reports[r := report.(status := if confirmed then ReportConfirmed else ReportDismissed)];
      if confirmed {
        var found := TargetsFound(report.targetUser, report.targetListing);
        if !found {
          reports := reports0;
          return V.ConstraintViolation;
        }
        Punish(report.targetUser, report.targetListing);
      }
      return V.Ok;
    }

    // -------------------------------------------------------------------------
    // Bookings
    // -------------------------------------------------------------------------

    /** Asks the state machine whether a booking may move; None is the refusal. */
    method Transition(b: Id, target: BookingStatus, ctx: Context) returns (updated: Option<BookingState>)
      requires b in bookings
      ensures updated.Some? <==> IsEdge(bookings[b].status, target)
      ensures updated.Some? ==> updated.value.status == target
    {
      var row := bookings[b];
      var state := BookingState(b, row.listingId, row.status, row.holdExpiresAt, row.depositAmount, None, None);
      updated := ApplyTransition(state, target, ctx);
      ApplyFollowsTable(state, target, ctx);
    }

    method Request(studentId: Id, l: Id, deposit: int, b: Id, now: int) returns (reply: V.Reply)
      requires Valid()
      modifies this
      ensures (Model(), reply) == CreateBooking(old(Model()), studentId, l, deposit, b, now)
      ensures Valid()
      ensures reply == V.Ok ==> l in listings && listings[l].status == LInactive
      ensures reply == V.Ok ==> b in bookings && bookings[b].status == Held && MP.OnlyLive(bookings, l, b)
    {
      hide MP.Inv;
      MP.RequestOutcome(Model(), studentId, l, deposit, b, now);
      if l !in listings {
        return V.NotFound;
      }
      if listings[l].status != LVerified {
        return V.Conflict;
      }
      if exists a :: a in bookings && bookings[a].listingId == l && HeldOrBooked(bookings[a].status) {
        return V.Conflict;
      }
      if b in bookings || studentId !in accounts.users {
        return V.ConstraintViolation;
      }
      bookings := bookings[b := Booking(l, studentId, Held, deposit, Some(now + HOLD_DURATION_MS), None, None, None)];
      SetListingStatus(l, LInactive);
      holdJobs := holdJobs + {HoldJob(b, l)};
      return V.Ok;
    }

    /** Up to the first write; the second one is SellListing, some time later. */
    method Confirm(b: Id, studentId: Id, deposit: Option<int>, now: int) returns (reply: V.Reply)
      requires Valid()
      modifies this
      ensures (Model(), reply) == ConfirmBooking(old(Model()), b, studentId, deposit, now)
      ensures Valid()
      ensures reply == V.Ok ==>
                && b in old(bookings) && b in bookings && bookings[b].bookedAt == Some(now)
                && bookings[b].depositAmount ==
                     (if deposit.Some? then deposit.value else old(bookings)[b].depositAmount)
                && soldWrites == old(soldWrites) + multiset{SoldWrite(bookings[b].listingId, studentId)}
      ensures reply == V.Ok ==> b in bookings && bookings[b].status == Booked && bookings[b].studentId == studentId
      ensures reply == V.Ok ==> MP.OnlyLive(bookings, bookings[b].listingId, b)
    {
      hide MP.Inv;
      MP.ConfirmOutcome(Model(), b, studentId, deposit, now);
      if b !in bookings {
        return V.NotFound;
      }
      var booking := bookings[b];
      if booking.studentId != studentId {
        return V.Conflict;
      }
      var updated := Transition(b, Booked, NO_CONTEXT.(bookedAt := Some(now)));
      if updated.None? {
        return V.BadRequest;
      }
      var amount := if deposit.Some? then deposit.value else booking.depositAmount;
      bookings := bookings[b := booking.(status := updated.value.status, holdExpiresAt := None, bookedAt := Some(now),
                                         depositAmount := amount)];
      soldWrites := soldWrites + multiset{SoldWrite(booking.listingId, booking.studentId)};
      return V.Ok;
    }

    method SellListing(w: SoldWrite)
      requires w in soldWrites
      requires Valid()
      modifies this
      ensures Model() == WriteSold(old(Model()), w)
      ensures Valid()
      ensures w.listingId in listings && listings[w.listingId].status == LSold
      ensures recomputeJobs == old(recomputeJobs) + [w.studentId, listings[w.listingId].ownerId]
    {
      hide MP.Inv;
      MP.SoldWriteTarget(Model(), w);
      MP.WriteSoldKeepsInv(Model(), w);
      soldWrites := soldWrites - multiset{w};
      SetListingStatus(w.listingId, LSold);
      QueueRecompute(w.studentId);
      QueueRecompute(listings[w.listingId].ownerId);
    }

    method Release(b: Id) returns (reply: V.Reply)
      requires Valid()
      modifies this
      ensures (Model(), reply) == ReleaseHold(old(Model()), b)
      ensures Valid()
    {
      hide MP.Inv;
      MP.ReleaseHoldKeepsInv(Model(), b);
      if b !in bookings {
        return V.NotFound;
      }
      var booking := bookings[b];
      if booking.status != Held {
        return V.Ok;
      }
      var updated := Transition(b, Available, NO_CONTEXT);
      if updated.None? {
        return V.Ok;
      }
      if booking.listingId !in listings {
        return V.NotFound;
      }
      bookings := bookings[b := booking.(status := Cancelled)];
      SetListingStatus(booking.listingId, LVerified);
      return V.Ok;
    }

    method Cancel(b: Id, studentId: Id, now: int) returns (reply: V.Reply)
      requires Valid()
      modifies this
      ensures (Model(), reply) == CancelBooking(old(Model()), b, studentId, now)
      ensures Valid()
      ensures reply == V.Ok ==> b in bookings && bookings[b].status == Cancelled && bookings[b].listingId in listings
      ensures reply == V.Ok ==>
                && listings[bookings[b].listingId].status == LVerified
                && MP.NoLiveBooking(bookings, bookings[b].listingId)
    {
      hide MP.Inv;
      MP.CancelOutcome(Model(), b, studentId, now);
      if b !in bookings {
        return V.NotFound;
      }
      var booking := bookings[b];
      if booking.studentId != studentId {
        return V.Conflict;
      }
      if booking.status != Held && booking.status != Booked {
        return V.BadRequest;
      }
      var updated := Transition(b, Cancelled, NO_CONTEXT);
      if updated.None? {
        return V.BadRequest;
      }
      if booking.listingId !in listings {
        return V.NotFound;
      }
      bookings := bookings[b := booking.(status := Cancelled, cancelledAt := Some(now))];
      SetListingStatus(booking.listingId, LVerified);
      return V.Ok;
    }

    /** The transaction shared by completion and dispute, and the jobs after it. */
    method Conclude(b: Id, row: Booking, kind: TrustScore.EventType, studentWeight: int, ownerWeight: int)
      modifies this, accounts
      ensures Model() == Settle(old(Model()), b, row, kind, studentWeight, ownerWeight)
      ensures row.listingId in listings ==>
                recomputeJobs == old(recomputeJobs) + [listings[row.listingId].ownerId, row.studentId]
    {
      bookings := bookings[b := row];
      accounts.RecordEvent(row.studentId, kind, studentWeight, None);
      if row.listingId in listings {
        accounts.RecordEvent(listings[row.listingId].ownerId, kind, ownerWeight, None);
        QueueRecompute(listings[row.listingId].ownerId);
      }
      QueueRecompute(row.studentId);
    }

    method Complete(b: Id, studentId: Id, now: int) returns (reply: V.Reply)
      requires Valid()
      modifies this, accounts
      ensures (Model(), reply) == CompleteBooking(old(Model()), b, studentId, now)
      ensures Valid()
    {
      hide MP.Inv;
      MP.CompleteBookingKeepsInv(Model(), b, studentId, now);
      hide Settle;
      if b !in bookings {
        return V.NotFound;
      }
      var booking := bookings[b];
      if booking.studentId != studentId {
        return V.Conflict;
      }
      if booking.status != Booked {
        return V.BadRequest;
      }
      var updated := Transition(b, Completed, NO_CONTEXT.(completedAt := Some(now)));
      if updated.None? {
        return V.BadRequest;
      }
      Conclude(b, booking.(status := Completed, completedAt := Some(now)), TrustScore.BookingCompleted, 5, 10);
      return V.Ok;
    }

    method Dispute(b: Id, studentId: Id) returns (reply: V.Reply)
      requires Valid()
      modifies this, accounts
      ensures (Model(), reply) == DisputeBooking(old(Model()), b, studentId)
      ensures Valid()
    {
      hide MP.Inv;
      MP.DisputeBookingKeepsInv(Model(), b, studentId);
      hide Settle;
      if b !in bookings {
        return V.NotFound;
      }
      var booking := bookings[b];
      if booking.studentId != studentId {
        return V.Conflict;
      }
      if booking.status != Booked {
        return V.BadRequest;
      }
      var updated := Transition(b, Disputed, NO_CONTEXT);
      if updated.None? {
        return V.BadRequest;
      }
      Conclude(b, booking.(status := Disputed, holdExpiresAt := None), TrustScore.DisputeResolvedAgainst, -5, -30);
      return V.Ok;
    }

    /** The worker, for one delivery of one job. */
    method Expire(job: HoldJob, now: int)
      requires job in holdJobs
      requires Valid()
      modifies this
      ensures Model() == ExpireHold(old(Model()), job, now)
      ensures Valid()
      ensures SO.ExpiryDue(old(Model()), job, now) ==> BH.Retired(Model(), job.listingId)
    {
      hide MP.Inv;
      MP.ExpireHoldKeepsInv(Model(), job, now);
      SO.ExpiryRetiresRoom(Model(), job, now);
      hide SO.ExpiryDue, BH.Retired;
      if job.bookingId !in bookings || bookings[job.bookingId].status != Held {
        return;
      }
      var booking := bookings[job.bookingId];
      if booking.holdExpiresAt.Some? && booking.holdExpiresAt.value > now {
        return;
      }
      var updated := Transition(job.bookingId, Available, NO_CONTEXT);
      if updated.None? || job.listingId !in listings {
        return;
      }
      bookings := bookings[job.bookingId := booking.(status := Cancelled)];
      SetListingStatus(job.listingId, LActive);
    }

    // -------------------------------------------------------------------------
    // Runs
    // -------------------------------------------------------------------------

    method ServeListing(e: Event)
      requires Valid()
      requires e.ECreateListing? || e.EUpdateListing? || e.EDeleteListing? || e.ESubmitListing? || e.EReviewListing?
               || e.EFlagListing?
      modifies this, accounts
      ensures Model() == Step(old(Model()), e)
      ensures Valid()
    {
      hide MP.Inv, CreateListing, UpdateListing, DeleteListing, SubmitListing, ReviewListing, FlagListing;
      var reply;
      match e {
        case ECreateListing(o, role, l, p, d, n) => reply := Create(o, role, l, p, d, n);
        case EUpdateListing(l, o, p, d) => reply := Update(l, o, p, d);
        case EDeleteListing(l, o, f) => reply := Delete(l, o, f);
        case ESubmitListing(l, o) => reply := Submit(l, o);
        case EReviewListing(l, a, ok) => reply := Review(l, a, ok);
        case EFlagListing(l) => reply := Flag(l);
      }
    }

    method ServeBooking(e: Event)
      requires Valid()
      requires e.ECreateBooking? || e.EConfirmBooking? || e.EReleaseHold? || e.ECancelBooking? || e.ECompleteBooking?
               || e.EDisputeBooking?
      modifies this, accounts
      ensures Model() == Step(old(Model()), e)
      ensures Valid()
    {
      hide MP.Inv, MP.OnlyLive, MP.NoLiveBooking, CreateBooking, ConfirmBooking, ReleaseHold, CancelBooking,
        CompleteBooking, DisputeBooking;
      var reply;
      match e {
        case ECreateBooking(s, l, d, b, now) => reply := Request(s, l, d, b, now);
        case EConfirmBooking(b, s, d, now) => reply := Confirm(b, s, d, now);
        case EReleaseHold(b) => reply := Release(b);
        case ECancelBooking(b, s, now) => reply := Cancel(b, s, now);
        case ECompleteBooking(b, s, now) => reply := Complete(b, s, now);
        case EDisputeBooking(b, s) => reply := Dispute(b, s);
      }
    }

    method ServeVerification(v: V.Event)
      requires Valid()
      modifies this, accounts
      ensures Model() == old(Model()).(t := V.Step(old(Model()).t, v))
      ensures Valid()
    {
      hide V.Step;
      MP.VerificationStepKeepsInv(Model(), v);
      hide MP.Inv;
      accounts.Serve(v);
    }

    /** A job or a second write that is not outstanding cannot be delivered. */
    method Serve(e: Event)
      requires Valid()
      modifies this, accounts
      ensures Model() == Step(old(Model()), e)
      ensures Valid()
    {
      hide MP.Inv, V.Step, CreateListing, UpdateListing, DeleteListing, SubmitListing, ReviewListing, FlagListing,
        FileReport, ResolveReport, CreateBooking, ConfirmBooking, ReleaseHold, CancelBooking, CompleteBooking,
        DisputeBooking;
      if e.ECreateBooking? || e.EConfirmBooking? || e.EReleaseHold? || e.ECancelBooking? || e.ECompleteBooking?
         || e.EDisputeBooking? {
        ServeBooking(e);
      } else if e.ECreateListing? || e.EUpdateListing? || e.EDeleteListing? || e.ESubmitListing? || e.EReviewListing?
                || e.EFlagListing? {
        ServeListing(e);
      } else {
        match e {
          case EVerification(v) => ServeVerification(v);
          case EFileReport(r, o, u, l) => var _ := ReportFraud(r, o, u, l);
          case EChargeReporter(u) =>
            if u in charges {
              ChargeForReport(u);
            }
          case EResolveReport(r, c) => var _ := ResolveFraudReport(r, c);
          case EWriteSold(w) =>
            if w in soldWrites {
              SellListing(w);
            }
          case EExpireHold(job, now) =>
            if job in holdJobs {
              Expire(job, now);
            }
        }
      }
    }

    method ServeAll(events: seq<Event>)
      requires Valid()
      modifies this, accounts
      ensures Model() == Run(old(Model()), events)
      ensures Valid()
    {
      hide MP.Inv, Step;
      for k := 0 to |events|
        invariant Valid()
        invariant Model() == Run(old(Model()), events[..k])
      {
        assert events[..k + 1][..k] == events[..k];
        Serve(events[k]);
      }
      assert events[..|events|] == events;
    }
  }
}
