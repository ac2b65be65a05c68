/**
  Listings row by row: exactly which steps create or delete a listing, exactly which
  change its status or content, and to what.
 */
module ListingRecords {
  import opened Wrappers
  import opened BookingStateMachine
  import opened Marketplace
  import opened MarketplaceProofs
  import opened SaleOutcomes
  import opened BookingRecords
  import V = Verification
  import LA = LedgerAccounts

  // ---------------------------------------------------------------------------
  // The status of a listing
  // ---------------------------------------------------------------------------

  /** A pending report about listing l that is being confirmed and can be. */
  predicate ReportHits(m: Market, e: Event, l: Id) {
    && e.EResolveReport? && e.confirmed && e.r in m.reports && m.reports[e.r].status == ReportPending
    && m.reports[e.r].targetListing == Some(l)
    && (m.reports[e.r].targetUser.Some? ==> m.reports[e.r].targetUser.value in m.t.users)
  }

  /** The status of listing l after a step, read off the tables before. */
  function NextStatus(m: Market, e: Event, l: Id): ListingStatus
    requires l in m.listings
  {
    var row := m.listings[l];
    if e.ESubmitListing? && e.l == l && e.ownerId == row.ownerId && row.presentable
       && (row.status == LDraft || row.status == LRejected) then LSubmitted
    else if e.EReviewListing? && e.l == l && (row.status == LSubmitted || row.status == LUnderReview) then
      if e.approved then LVerified else LRejected
    else if (e.EFlagListing? && e.l == l) || ReportHits(m, e, l) then LFlagged
    else if e.ECreateBooking? && e.l == l && row.status == LVerified && e.b !in m.bookings && e.studentId in m.t.users
    then LInactive
    else if CancelsOn(m, e, l) then LVerified
    else if ExpiresOn(m, e, l) then LActive
    else if SellsOn(m, e, l) then LSold
    else row.status
  }

  predicate StatusIs(listings: map<Id, Listing>, l: Id, s: ListingStatus) {
    l in listings ==> listings[l].status == s
  }

  lemma RoomAfterEdits(m: Market, o: Id, role: V.Role, n: Id, p: bool, d: bool, photos: nat, flags: bool, l: Id)
    requires l in m.listings
    ensures StatusIs(CreateListing(m, o, role, n, p, d, photos).0.listings, l, m.listings[l].status)
    ensures StatusIs(UpdateListing(m, n, o, p, d).0.listings, l, m.listings[l].status)
    ensures StatusIs(DeleteListing(m, n, o, flags).0.listings, l, m.listings[l].status)
  {
    hide HasBooking, HasVerifiedPage;
  }

  lemma RoomAfterSubmission(m: Market, n: Id, o: Id, l: Id)
    requires l in m.listings
    ensures StatusIs(SubmitListing(m, n, o).0.listings, l, NextStatus(m, ESubmitListing(n, o), l))
  {
    hide Logged;
  }

  lemma RoomAfterReview(m: Market, n: Id, a: Id, ok: bool, l: Id)
    requires l in m.listings
    ensures StatusIs(ReviewListing(m, n, a, ok).0.listings, l, NextStatus(m, EReviewListing(n, a, ok), l))
  {
    hide Logged;
  }

  lemma RoomAfterFlag(m: Market, n: Id, l: Id)
    requires l in m.listings
    ensures StatusIs(FlagListing(m, n).0.listings, l, if n == l then LFlagged else m.listings[l].status)
  {
  }

  lemma RoomAfterResolution(m: Market, r: Id, confirmed: bool, l: Id)
    requires l in m.listings
    ensures StatusIs(ResolveReport(m, r, confirmed).0.listings, l,
                     if ReportHits(m, EResolveReport(r, confirmed), l) then LFlagged else m.listings[l].status)
  {
    hide Charged;
  }

  lemma StatusAfterModeration(m: Market, e: Event, l: Id)
    requires e.ECreateListing? || e.EUpdateListing? || e.EDeleteListing? || e.ESubmitListing? || e.EReviewListing?
             || e.EVerification? || e.EFlagListing? || e.EFileReport? || e.EChargeReporter? || e.EResolveReport?
    requires l in m.listings
    ensures StatusIs(Step(m, e).listings, l, NextStatus(m, e, l))
  {
    hide CreateListing, UpdateListing, DeleteListing, SubmitListing, ReviewListing, FlagListing, FileReport,
      ChargeReporter, ResolveReport, CreateBooking, ConfirmBooking, ReleaseHold, CancelBooking, CompleteBooking,
      DisputeBooking, ExpireHold, WriteSold, V.Step, ReportHits, CancelsOn, ExpiresOn, SellsOn;
    OneExitAtMost(m, e, l);
    NoReportHit(m, e, l);
    match e
    case ECreateListing(o, role, n, p, d, photos) => RoomAfterEdits(m, o, role, n, p, d, photos, false, l);
    case EUpdateListing(n, o, p, d) => RoomAfterEdits(m, o, V.Agent, n, p, d, 0, false, l);
    case EDeleteListing(n, o, f) => RoomAfterEdits(m, o, V.Agent, n, true, true, 0, f, l);
    case ESubmitListing(n, o) => RoomAfterSubmission(m, n, o, l);
    case EReviewListing(n, a, ok) => RoomAfterReview(m, n, a, ok, l);
    case EFlagListing(n) => RoomAfterFlag(m, n, l);
    case EFileReport(r, o, u, t) => LA.ReportingKeepsListings(m, r, o, u, t);
    case EChargeReporter(u) => LA.ReportingKeepsListings(m, 0, u, None, None);
    case EResolveReport(r, c) => RoomAfterResolution(m, r, c, l);
    case EVerification(_) =>
  }

  lemma NoReportHit(m: Market, e: Event, l: Id)
    ensures ReportHits(m, e, l) ==> e.EResolveReport?
  {
  }

  lemma RoomAfterRequest(m: Market, s: Id, r: Id, d: int, b: Id, now: int, l: Id)
    requires l in m.listings && (r in m.listings && m.listings[r].status == LVerified ==> !HasActiveBooking(m, r))
    ensures StatusIs(CreateBooking(m, s, r, d, b, now).0.listings, l,
                     if r == l && m.listings[l].status == LVerified && b !in m.bookings && s in m.t.users then LInactive
                     else m.listings[l].status)
  {
    hide HasActiveBooking;
  }

  lemma RoomAfterRelease(m: Market, b: Id, l: Id)
    requires l in m.listings
    ensures StatusIs(ReleaseHold(m, b).0.listings, l,
                     if CancelsOn(m, EReleaseHold(b), l) then LVerified else m.listings[l].status)
  {
  }

  lemma RoomAfterCancellation(m: Market, b: Id, s: Id, now: int, l: Id)
    requires l in m.listings
    ensures StatusIs(CancelBooking(m, b, s, now).0.listings, l,
                     if CancelsOn(m, ECancelBooking(b, s, now), l) then LVerified else m.listings[l].status)
  {
  }

  lemma RoomAfterExpiry(m: Market, job: HoldJob, now: int, l: Id)
    requires l in m.listings
    requires job in m.holdJobs ==> job.listingId in m.listings
    ensures StatusIs(ExpireHold(m, job, now).listings, l,
                     if ExpiresOn(m, EExpireHold(job, now), l) then LActive else m.listings[l].status)
  {
  }

  lemma RoomAfterSale(m: Market, w: SoldWrite, l: Id)
    requires l in m.listings
    ensures StatusIs(WriteSold(m, w).listings, l,
                     if SellsOn(m, EWriteSold(w), l) then LSold else m.listings[l].status)
  {
  }

  lemma StatusAfterBookingSteps(m: Market, e: Event, l: Id)
    requires Inv(m) && l in m.listings
    requires e.ECreateBooking? || e.EReleaseHold? || e.ECancelBooking? || e.EExpireHold? || e.EWriteSold?
    ensures StatusIs(Step(m, e).listings, l, NextStatus(m, e, l))
  {
    hide Inv, HasActiveBooking, CancelsOn, ExpiresOn, SellsOn, CreateListing, UpdateListing, DeleteListing,
      SubmitListing, ReviewListing, FlagListing, FileReport, ChargeReporter, ResolveReport, CreateBooking,
      ConfirmBooking, ReleaseHold, CancelBooking, CompleteBooking, DisputeBooking, ExpireHold, WriteSold, V.Step;
    OneExitAtMost(m, e, l);
    match e
    case ECreateBooking(s, r, d, b, now) =>
      if r in m.listings && m.listings[r].status == LVerified {
        NothingActiveOnSale(m, r);
      }
      RoomAfterRequest(m, s, r, d, b, now, l);
    case EReleaseHold(b) => RoomAfterRelease(m, b, l);
    case ECancelBooking(b, s, now) => RoomAfterCancellation(m, b, s, now, l);
    case EExpireHold(job, now) =>
      if job in m.holdJobs {
        JobTarget(m, job);
      }
      RoomAfterExpiry(m, job, now, l);
    case EWriteSold(w) => RoomAfterSale(m, w, l);
  }

  lemma OneExitAtMost(m: Market, e: Event, l: Id)
    ensures CancelsOn(m, e, l) ==> e.EReleaseHold? || e.ECancelBooking?
    ensures ExpiresOn(m, e, l) ==> e.EExpireHold?
    ensures SellsOn(m, e, l) ==> e.EWriteSold?
  {
  }

  lemma StatusAfterOthers(m: Market, e: Event, l: Id)
    requires e.EConfirmBooking? || e.ECompleteBooking? || e.EDisputeBooking?
    requires l in m.listings
    ensures StatusIs(Step(m, e).listings, l, NextStatus(m, e, l))
  {
    hide CreateListing, UpdateListing, DeleteListing, SubmitListing, ReviewListing, FlagListing, FileReport,
      ChargeReporter, ResolveReport, CreateBooking, ReleaseHold, CancelBooking, ExpireHold, WriteSold, Charged,
      V.Step;
  }

  /** Exactly when a step changes the status of a listing, and to what. */
  lemma StatusAfterStep(m: Market, e: Event, l: Id)
    requires Inv(m) && l in m.listings && l in Step(m, e).listings
    ensures Step(m, e).listings[l].status == NextStatus(m, e, l)
  {
    hide Inv, Step, NextStatus;
    if e.ECreateListing? || e.EUpdateListing? || e.EDeleteListing? || e.ESubmitListing? || e.EReviewListing?
       || e.EVerification? || e.EFlagListing? || e.EFileReport? || e.EChargeReporter? || e.EResolveReport? {
      StatusAfterModeration(m, e, l);
    } else if e.EConfirmBooking? || e.ECompleteBooking? || e.EDisputeBooking? {
      StatusAfterOthers(m, e, l);
    } else {
      StatusAfterBookingSteps(m, e, l);
    }
  }

  // ---------------------------------------------------------------------------
  // The rest of a listing
  // ---------------------------------------------------------------------------

  /** The owner deletes a listing nothing refers to. */
  predicate Deletes(m: Market, e: Event, l: Id) {
    && e.EDeleteListing? && e.l == l && l in m.listings && e.ownerId == m.listings[l].ownerId
    && !HasBooking(m.bookings, l) && !e.hasDuplicateFlags
  }

  /** A provider with a verified page gets a listing under an unused id. */
  predicate Creates(m: Market, e: Event, l: Id) {
    && e.ECreateListing? && e.l == l && (e.role == V.Agent || e.role == V.Landlord) && e.discountValid && e.photos <= 5
    && HasVerifiedPage(m.t, e.ownerId) && l !in m.issued
  }

  /** Whether listing l can be submitted after a step that keeps it. */
  function NextPresentable(m: Market, e: Event, l: Id): bool
    requires l in m.listings
  {
    if e.EUpdateListing? && e.l == l && e.ownerId == m.listings[l].ownerId && e.discountValid then e.presentable
    else m.listings[l].presentable
  }

  /** Owner, page and content of listing l are the same. */
  predicate StatusOnly(listings: map<Id, Listing>, listings': map<Id, Listing>, l: Id)
    requires l in listings
  {
    l in listings' && listings'[l] == listings[l].(status := listings'[l].status)
  }

  predicate ContentIs(m: Market, m': Market, e: Event, l: Id)
    requires l in m.listings
  {
    if Deletes(m, e, l) then l !in m'.listings
    else
      l in m'.listings
      && m'.listings[l] == m.listings[l].(status := m'.listings[l].status, presentable := NextPresentable(m, e, l))
  }

  lemma ContentAfterCreation(m: Market, o: Id, role: V.Role, n: Id, p: bool, d: bool, photos: nat, l: Id)
    requires l in m.listings
    ensures StatusOnly(m.listings, CreateListing(m, o, role, n, p, d, photos).0.listings, l)
  {
    hide HasVerifiedPage;
  }

  lemma ContentAfterUpdate(m: Market, n: Id, o: Id, p: bool, d: bool, l: Id)
    requires l in m.listings
    ensures ContentIs(m, UpdateListing(m, n, o, p, d).0, EUpdateListing(n, o, p, d), l)
  {
    hide HasBooking;
  }

  lemma ContentAfterDeletion(m: Market, n: Id, o: Id, flags: bool, l: Id)
    requires l in m.listings
    ensures ContentIs(m, DeleteListing(m, n, o, flags).0, EDeleteListing(n, o, flags), l)
  {
    hide HasBooking;
  }

  lemma ContentAfterReview(m: Market, n: Id, o: Id, ok: bool, l: Id)
    requires l in m.listings
    ensures StatusOnly(m.listings, SubmitListing(m, n, o).0.listings, l)
    ensures StatusOnly(m.listings, ReviewListing(m, n, o, ok).0.listings, l)
    ensures StatusOnly(m.listings, FlagListing(m, n).0.listings, l)
  {
    hide Logged;
  }

  lemma ContentAfterResolution(m: Market, r: Id, confirmed: bool, l: Id)
    requires l in m.listings
    ensures StatusOnly(m.listings, ResolveReport(m, r, confirmed).0.listings, l)
  {
    hide Charged;
  }

  lemma ContentAfterRequests(m: Market, s: Id, r: Id, d: int, b: Id, c: Option<int>, now: int, l: Id)
    requires l in m.listings
    ensures StatusOnly(m.listings, CreateBooking(m, s, r, d, b, now).0.listings, l)
    ensures StatusOnly(m.listings, ConfirmBooking(m, b, s, c, now).0.listings, l)
  {
    hide HasActiveBooking;
  }

  lemma ContentAfterCancellation(m: Market, b: Id, s: Id, now: int, l: Id)
    requires l in m.listings
    ensures StatusOnly(m.listings, ReleaseHold(m, b).0.listings, l)
    ensures StatusOnly(m.listings, CancelBooking(m, b, s, now).0.listings, l)
  {
  }

  lemma ContentAfterJobs(m: Market, now: int, job: HoldJob, w: SoldWrite, l: Id)
    requires l in m.listings
    ensures StatusOnly(m.listings, ExpireHold(m, job, now).listings, l)
    ensures StatusOnly(m.listings, WriteSold(m, w).listings, l)
  {
  }

  lemma ContentAfterConclusions(m: Market, b: Id, s: Id, now: int, l: Id)
    requires l in m.listings
    ensures StatusOnly(m.listings, CompleteBooking(m, b, s, now).0.listings, l)
    ensures StatusOnly(m.listings, DisputeBooking(m, b, s).0.listings, l)
  {
    hide Settle;
    if b in m.bookings {
      BookingAfterCompletion(m, b, s, now, b);
      BookingAfterDispute(m, b, s, b);
    }
  }

  lemma ContentAfterBookingSteps(m: Market, e: Event, l: Id)
    requires l in m.listings && (IsBookingStep(e) || e.EWriteSold?)
    ensures StatusOnly(m.listings, Step(m, e).listings, l)
  {
    hide CreateListing, UpdateListing, DeleteListing, SubmitListing, ReviewListing, FlagListing, FileReport,
      ChargeReporter, ResolveReport, CreateBooking, ConfirmBooking, ReleaseHold, CancelBooking, CompleteBooking,
      DisputeBooking, ExpireHold, WriteSold, V.Step, StatusOnly;
    match e
    case ECreateBooking(s, r, d, b, now) => ContentAfterRequests(m, s, r, d, b, None, now, l);
    case EConfirmBooking(b, s, c, now) => ContentAfterRequests(m, s, l, 0, b, c, now, l);
    case ECancelBooking(b, s, now) => ContentAfterCancellation(m, b, s, now, l);
    case EReleaseHold(b) => ContentAfterCancellation(m, b, 0, 0, l);
    case EExpireHold(job, now) => ContentAfterJobs(m, now, job, SoldWrite(0, 0), l);
    case EWriteSold(w) => ContentAfterJobs(m, 0, HoldJob(0, 0), w, l);
    case ECompleteBooking(b, s, now) => ContentAfterConclusions(m, b, s, now, l);
    case EDisputeBooking(b, s) => ContentAfterConclusions(m, b, s, 0, l);
  }

  lemma StatusOnlyIsContent(m: Market, m': Market, e: Event, l: Id)
    requires l in m.listings && StatusOnly(m.listings, m'.listings, l) && !e.EUpdateListing? && !e.EDeleteListing?
    ensures ContentIs(m, m', e, l)
  {
  }

  lemma ContentAfterOthers(m: Market, e: Event, l: Id)
    requires l in m.listings
    requires e.ECreateListing? || e.ESubmitListing? || e.EReviewListing? || e.EFlagListing? || e.EVerification?
             || e.EFileReport? || e.EChargeReporter? || e.EResolveReport?
    ensures StatusOnly(m.listings, Step(m, e).listings, l)
  {
    hide CreateListing, UpdateListing, DeleteListing, SubmitListing, ReviewListing, FlagListing, FileReport,
      ChargeReporter, ResolveReport, CreateBooking, ConfirmBooking, ReleaseHold, CancelBooking, CompleteBooking,
      DisputeBooking, ExpireHold, WriteSold, V.Step;
    match e
    case ECreateListing(o, role, n, p, d, photos) => ContentAfterCreation(m, o, role, n, p, d, photos, l);
    case ESubmitListing(n, o) => ContentAfterReview(m, n, o, true, l);
    case EReviewListing(n, a, ok) => ContentAfterReview(m, n, a, ok, l);
    case EFlagListing(n) => ContentAfterReview(m, n, 0, true, l);
    case EFileReport(r, o, u, t) => LA.ReportingKeepsListings(m, r, o, u, t);
    case EChargeReporter(u) => LA.ReportingKeepsListings(m, 0, u, None, None);
    case EResolveReport(r, c) => ContentAfterResolution(m, r, c, l);
    case EVerification(_) =>
  }

  lemma StepOfEdit(m: Market, e: Event)
    ensures e.EUpdateListing? ==> Step(m, e) == UpdateListing(m, e.l, e.ownerId, e.presentable, e.discountValid).0
    ensures e.EDeleteListing? ==> Step(m, e) == DeleteListing(m, e.l, e.ownerId, e.hasDuplicateFlags).0
  {
    hide UpdateListing, DeleteListing, CreateListing, SubmitListing, ReviewListing, FlagListing, FileReport,
      ChargeReporter, ResolveReport, CreateBooking, ConfirmBooking, ReleaseHold, CancelBooking, CompleteBooking,
      DisputeBooking, ExpireHold, WriteSold, V.Step;
  }

  /** A listing is deleted, or its content changed, by its owner alone; owner and page
      never change. */
  lemma ContentAfterStep(m: Market, e: Event, l: Id)
    requires l in m.listings
    ensures ContentIs(m, Step(m, e), e, l)
  {
    hide Step, UpdateListing, DeleteListing, ContentIs, StatusOnly;
    StepOfEdit(m, e);
    if e.EUpdateListing? {
      ContentAfterUpdate(m, e.l, e.ownerId, e.presentable, e.discountValid, l);
    } else if e.EDeleteListing? {
      ContentAfterDeletion(m, e.l, e.ownerId, e.hasDuplicateFlags, l);
    } else {
      if e.ECreateListing? || e.ESubmitListing? || e.EReviewListing? || e.EFlagListing? || e.EVerification?
         || e.EFileReport? || e.EChargeReporter? || e.EResolveReport? {
        ContentAfterOthers(m, e, l);
      } else {
        ContentAfterBookingSteps(m, e, l);
      }
      StatusOnlyIsContent(m, Step(m, e), e, l);
    }
  }

  lemma OnlyCreationAdds(m: Market, e: Event, l: Id)
    requires l !in m.listings && !e.ECreateListing?
    ensures l !in Step(m, e).listings
  {
    hide CreateListing, HasBooking, HasActiveBooking, Charged, Logged, V.Step;
  }

  lemma NewListing(m: Market, o: Id, role: V.Role, n: Id, p: bool, d: bool, photos: nat, l: Id)
    requires l !in m.listings
    ensures var m', e := CreateListing(m, o, role, n, p, d, photos).0, ECreateListing(o, role, n, p, d, photos);
            && (l in m'.listings <==> Creates(m, e, l))
            && (Creates(m, e, l) ==> m'.listings[l] == Listing(o, m.t.pageByOwner[o], LDraft, p))
  {
  }

  /** Exactly which steps create a listing: it starts as a draft of the page. */
  lemma ListingBirth(m: Market, e: Event, l: Id)
    requires l !in m.listings
    ensures l in Step(m, e).listings <==> Creates(m, e, l)
    ensures Creates(m, e, l) ==>
              Step(m, e).listings[l] == Listing(e.ownerId, m.t.pageByOwner[e.ownerId], LDraft, e.presentable)
  {
    if e.ECreateListing? {
      NewListing(m, e.ownerId, e.role, e.l, e.presentable, e.discountValid, e.photos, l);
      hide CreateListing, HasVerifiedPage;
    } else {
      OnlyCreationAdds(m, e, l);
      hide Step;
    }
  }
}
