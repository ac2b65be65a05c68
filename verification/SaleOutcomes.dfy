/**
  What becomes of a room when a booking is cancelled, when a hold runs out, and
  when the second write of a confirmation comes late: which steps free a room,
  which leave it SOLD without a buyer, and which take it out of a flag.
 */
module SaleOutcomes {
  import opened Wrappers
  import opened BookingStateMachine
  import opened Marketplace
  import opened MarketplaceProofs
  import opened BookingHistories
  import V = Verification
  import VP = VerificationProofs

  // ---------------------------------------------------------------------------
  // Steps that cancel
  // ---------------------------------------------------------------------------

  /** The steps that can cancel a booking at all. */
  predicate MayCancel(e: Event) {
    e.EReleaseHold? || e.ECancelBooking? || e.EExpireHold?
  }

  lemma RequestsKeepLive(m: Market, e: Event, b: Id)
    requires b in m.bookings && Live(m.bookings[b]) && (e.ECreateBooking? || e.EConfirmBooking?)
    ensures b in Step(m, e).bookings && Live(Step(m, e).bookings[b])
  {
    hide CreateListing, UpdateListing, DeleteListing, SubmitListing, ReviewListing, FlagListing, FileReport,
      ResolveReport, CompleteBooking, DisputeBooking, ExpireHold, HasActiveBooking, WriteSold, ReleaseHold,
      CancelBooking;
  }

  lemma ConclusionsKeepLive(m: Market, e: Event, b: Id)
    requires b in m.bookings && Live(m.bookings[b]) && (e.ECompleteBooking? || e.EDisputeBooking?)
    ensures b in Step(m, e).bookings && Live(Step(m, e).bookings[b])
  {
    hide CreateListing, UpdateListing, DeleteListing, SubmitListing, ReviewListing, FlagListing, FileReport,
      ResolveReport, CreateBooking, ConfirmBooking, ExpireHold, WriteSold, ReleaseHold, CancelBooking, Charged;
  }

  lemma OthersKeepLive(m: Market, e: Event, b: Id)
    requires b in m.bookings && Live(m.bookings[b]) && !MayCancel(e)
    ensures b in Step(m, e).bookings && Live(Step(m, e).bookings[b])
  {
    hide Step;
    if e.ECreateBooking? || e.EConfirmBooking? {
      RequestsKeepLive(m, e, b);
    } else if e.ECompleteBooking? || e.EDisputeBooking? {
      ConclusionsKeepLive(m, e, b);
    } else {
      OtherStepsKeepBookings(m, e);
    }
  }

  /** What cancelling booking b leaves: itself CANCELLED and its room with status s,
      or nothing changed. */
  predicate Freed(m: Market, m': Market, b: Id, s: ListingStatus)
    requires b in m.bookings
  {
    b in m'.bookings && (m'.bookings[b].status == Cancelled && m.bookings[b].status != Cancelled ==>
      m.bookings[b].listingId in m'.listings && m'.listings[m.bookings[b].listingId].status == s)
  }

  lemma ReleaseFrees(m: Market, b: Id, a: Id)
    requires b in m.bookings
    ensures Freed(m, ReleaseHold(m, a).0, b, LVerified)
  {
  }

  lemma CancelFrees(m: Market, b: Id, a: Id, s: Id, now: int)
    requires b in m.bookings
    ensures Freed(m, CancelBooking(m, a, s, now).0, b, LVerified)
  {
  }

  lemma ExpiryFrees(m: Market, b: Id, job: HoldJob, now: int)
    requires b in m.bookings && (job in m.holdJobs && job.bookingId == b ==> m.bookings[b].listingId == job.listingId)
    ensures Freed(m, ExpireHold(m, job, now), b, LActive)
  {
  }

  lemma CancellingStep(m: Market, e: Event, b: Id)
    requires Inv(m) && MayCancel(e) && b in m.bookings
    ensures Freed(m, Step(m, e), b, if e.EExpireHold? then LActive else LVerified)
  {
    hide Inv, ReleaseHold, CancelBooking, ExpireHold, Freed;
    match e {
      case EReleaseHold(a) => ReleaseFrees(m, b, a);
      case ECancelBooking(a, s, now) => CancelFrees(m, b, a, s, now);
      case EExpireHold(job, now) =>
        if job in m.holdJobs {
          JobTarget(m, job);
        }
        ExpiryFrees(m, b, job, now);
    }
  }

  /** Whatever step cancels a booking sets its room to VERIFIED, except exactly that
      an expiring hold leaves it ACTIVE. */
  lemma CancellationFreesRoom(m: Market, e: Event, b: Id)
    requires Inv(m) && b in m.bookings && Live(m.bookings[b])
    requires b in Step(m, e).bookings && Step(m, e).bookings[b].status == Cancelled
    ensures var l := m.bookings[b].listingId;
            && MayCancel(e) && l in Step(m, e).listings
            && (Step(m, e).listings[l].status == LVerified <==> !e.EExpireHold?)
            && (Step(m, e).listings[l].status == LActive <==> e.EExpireHold?)
  {
    hide Inv, Step;
    if MayCancel(e) {
      CancellingStep(m, e, b);
    } else {
      OthersKeepLive(m, e, b);
    }
  }

  // ---------------------------------------------------------------------------
  // Expired holds
  // ---------------------------------------------------------------------------

  /** The guard of the worker: a queued job whose booking is HELD past its deadline. */
  predicate ExpiryDue(m: Market, job: HoldJob, now: int) {
    && job in m.holdJobs && job.bookingId in m.bookings
    && m.bookings[job.bookingId].status == Held
    && (m.bookings[job.bookingId].holdExpiresAt.Some? ==> m.bookings[job.bookingId].holdExpiresAt.value <= now)
  }

  /** Exactly the due jobs do anything; what they do retires the room for good. */
  lemma ExpiryRetiresRoom(m: Market, job: HoldJob, now: int)
    requires Inv(m)
    ensures ExpireHold(m, job, now) != m <==> ExpiryDue(m, job, now)
    ensures ExpiryDue(m, job, now) ==> Retired(ExpireHold(m, job, now), job.listingId)
  {
    if job in m.holdJobs {
      JobTarget(m, job);
    }
    var m' := ExpireHold(m, job, now);
    if ExpiryDue(m, job, now) {
      assert m'.bookings[job.bookingId].status == Cancelled;
      ExpiredHoldRetires(m, job, now);
    }
    hide Inv, Retired;
  }

  /** The other bookings of a held room are all cancelled. */
  lemma RoomOfHold(m: Market, b: Id)
    requires Inv(m) && b in m.bookings && m.bookings[b].status == Held
    ensures forall a :: a in m.bookings && a != b && m.bookings[a].listingId == m.bookings[b].listingId ==>
              m.bookings[a].status == Cancelled
  {
    hide VP.Inv, PagesBehind, ReviewedFirst, JobsOk;
  }

  lemma ExpiredHoldRetires(m: Market, job: HoldJob, now: int)
    requires Inv(m) && ExpiryDue(m, job, now)
    ensures Retired(ExpireHold(m, job, now), job.listingId)
  {
    hide VP.Inv, PagesBehind, ReviewedFirst, SetStatus, HasBooking;
    JobTarget(m, job);
    RoomOfHold(m, job.bookingId);
    hide Inv, SoldOnce, JobsOk;
    var m' := ExpireHold(m, job, now);
    SomeBooking(m'.bookings, job.bookingId);
    assert m'.listings[job.listingId].status == LActive by {
      assert m'.listings == SetStatus(m, job.listingId, LActive);
      StatusSet(m, job.listingId, LActive);
    }
  }

  lemma SomeBooking(bookings: map<Id, Booking>, b: Id)
    requires b in bookings
    ensures HasBooking(bookings, bookings[b].listingId)
  {
  }

  lemma StatusSet(m: Market, l: Id, s: ListingStatus)
    requires l in m.listings
    ensures l in SetStatus(m, l, s) && SetStatus(m, l, s)[l].status == s
  {
  }

  // ---------------------------------------------------------------------------
  // Sold rooms and their buyers
  // ---------------------------------------------------------------------------

  /** A booking that was confirmed and not cancelled. */
  predicate Paid(b: Booking) {
    b.status == Booked || b.status == Completed || b.status == Disputed
  }

  /** With `paid`, a confirmed booking; without, any live one. */
  predicate IsBuyer(b: Booking, l: Id, paid: bool) {
    b.listingId == l && (if paid then Paid(b) else Live(b))
  }

  ghost predicate HasBuyer(bookings: map<Id, Booking>, l: Id, paid: bool) {
    exists b :: b in bookings && IsBuyer(bookings[b], l, paid)
  }

  ghost predicate SoldHasBuyer(m: Market, paid: bool) {
    forall l :: l in m.listings && m.listings[l].status == LSold ==> HasBuyer(m.bookings, l, paid)
  }

  /** The second write of a confirmation, at a moment when its room has no buyer. */
  ghost predicate SaleWithoutBuyer(m: Market, e: Event, paid: bool) {
    e.EWriteSold? && e.w in m.soldWrites && e.w.listingId in m.listings && !HasBuyer(m.bookings, e.w.listingId, paid)
  }

  lemma ListingStepsDoNotSell(m: Market, e: Event, l: Id)
    requires e.ECreateListing? || e.EUpdateListing? || e.EDeleteListing? || e.ESubmitListing? || e.EReviewListing?
    requires l in Step(m, e).listings && Step(m, e).listings[l].status == LSold
    ensures l in m.listings && m.listings[l].status == LSold
  {
    hide FlagListing, FileReport, ResolveReport, CreateBooking, ConfirmBooking, ReleaseHold, CancelBooking,
      CompleteBooking, DisputeBooking, ExpireHold, WriteSold, HasBooking, Logged;
  }

  lemma ModerationDoesNotSell(m: Market, e: Event, l: Id)
    requires e.EVerification? || e.EFlagListing? || e.EFileReport? || e.EChargeReporter? || e.EResolveReport?
    requires l in Step(m, e).listings && Step(m, e).listings[l].status == LSold
    ensures l in m.listings && m.listings[l].status == LSold
  {
    hide CreateListing, UpdateListing, DeleteListing, SubmitListing, ReviewListing, CreateBooking, ConfirmBooking,
      ReleaseHold, CancelBooking, CompleteBooking, DisputeBooking, ExpireHold, WriteSold, Charged, V.Step;
  }

  lemma BookingsDoNotSell(m: Market, e: Event, l: Id)
    requires e.ECreateBooking? || e.EConfirmBooking? || MayCancel(e) || e.ECompleteBooking? || e.EDisputeBooking?
    requires l in Step(m, e).listings && Step(m, e).listings[l].status == LSold
    ensures l in m.listings && m.listings[l].status == LSold
  {
    hide CreateListing, UpdateListing, DeleteListing, SubmitListing, ReviewListing, FlagListing, FileReport,
      ResolveReport, WriteSold, HasActiveBooking, Charged;
  }

  lemma OnlySaleSells(m: Market, e: Event, l: Id)
    requires !e.EWriteSold? && l in Step(m, e).listings && Step(m, e).listings[l].status == LSold
    ensures l in m.listings && m.listings[l].status == LSold
  {
    hide Step;
    if e.ECreateBooking? || e.EConfirmBooking? || MayCancel(e) || e.ECompleteBooking? || e.EDisputeBooking? {
      BookingsDoNotSell(m, e, l);
    } else if e.EVerification? || e.EFlagListing? || e.EFileReport? || e.EChargeReporter? || e.EResolveReport? {
      ModerationDoesNotSell(m, e, l);
    } else {
      ListingStepsDoNotSell(m, e, l);
    }
  }

  lemma BuyerStays(m: Market, e: Event, l: Id, paid: bool)
    requires Inv(m) && HasBuyer(m.bookings, l, paid)
    requires l in Step(m, e).listings && Step(m, e).listings[l].status == LSold
    ensures HasBuyer(Step(m, e).bookings, l, paid)
  {
    hide Inv, Step;
    var b :| b in m.bookings && IsBuyer(m.bookings[b], l, paid);
    StepMovesBookings(m, e, b);
    if Step(m, e).bookings[b].status == Cancelled && m.bookings[b].status != Cancelled {
      CancellationFreesRoom(m, e, b);
    }
    assert IsBuyer(Step(m, e).bookings[b], l, paid);
  }

  lemma SaleEffect(m: Market, w: SoldWrite)
    ensures WriteSold(m, w).bookings == m.bookings
    ensures WriteSold(m, w).listings ==
            if w in m.soldWrites && w.listingId in m.listings then SetStatus(m, w.listingId, LSold) else m.listings
  {
  }

  lemma SaleKeepsBuyers(m: Market, w: SoldWrite, paid: bool)
    requires SoldHasBuyer(m, paid)
    ensures SoldHasBuyer(WriteSold(m, w), paid) <==>
            !(w in m.soldWrites && w.listingId in m.listings && !HasBuyer(m.bookings, w.listingId, paid))
  {
    SaleEffect(m, w);
    hide WriteSold, HasBuyer;
    if w in m.soldWrites && w.listingId in m.listings {
      assert WriteSold(m, w).listings[w.listingId].status == LSold;
    }
  }

  lemma OthersKeepBuyers(m: Market, e: Event, paid: bool)
    requires Inv(m) && SoldHasBuyer(m, paid) && !e.EWriteSold?
    ensures SoldHasBuyer(Step(m, e), paid)
  {
    hide Inv, Step, HasBuyer;
    forall l | l in Step(m, e).listings && Step(m, e).listings[l].status == LSold
      ensures HasBuyer(Step(m, e).bookings, l, paid)
    {
      OnlySaleSells(m, e, l);
      BuyerStays(m, e, l, paid);
    }
  }

  lemma StepOfSale(m: Market, e: Event)
    requires e.EWriteSold?
    ensures Step(m, e) == WriteSold(m, e.w)
  {
    hide WriteSold;
  }

  /** Starting with a buyer behind every SOLD room, a step leads to a SOLD room
      without one exactly when it is a late second write on a room that has none;
      both for any live booking as buyer and for confirmed bookings only. */
  lemma SoldUntilLateWrite(m: Market, e: Event, paid: bool)
    requires Inv(m) && SoldHasBuyer(m, paid)
    ensures SoldHasBuyer(Step(m, e), paid) <==> !SaleWithoutBuyer(m, e, paid)
  {
    hide Inv, Step, HasBuyer, SoldHasBuyer;
    if e.EWriteSold? {
      StepOfSale(m, e);
      SaleKeepsBuyers(m, e.w, paid);
    } else {
      OthersKeepBuyers(m, e, paid);
    }
  }

  /** A room without a confirmed booking has no live booking at all, or one that is
      only HELD: the two ways in which a late write goes wrong. */
  lemma TwoWaysUnpaid(m: Market, l: Id)
    requires Inv(m)
    ensures !HasBuyer(m.bookings, l, true) <==>
            forall b :: b in m.bookings && IsBuyer(m.bookings[b], l, false) ==> m.bookings[b].status == Held
  {
    hide Inv;
    forall b | b in m.bookings && IsBuyer(m.bookings[b], l, false)
      ensures m.bookings[b].status == Held || IsBuyer(m.bookings[b], l, true)
    {
      StatusInRange(m, b);
    }
    if !HasBuyer(m.bookings, l, true) {
      forall b | b in m.bookings && IsBuyer(m.bookings[b], l, false) ensures m.bookings[b].status == Held {
        assert !IsBuyer(m.bookings[b], l, true);
      }
    }
  }

  // ---------------------------------------------------------------------------
  // Flagged rooms
  // ---------------------------------------------------------------------------

  /** The requests that release or cancel the current booking of room l. */
  predicate CancelsOn(m: Market, e: Event, l: Id) {
    match e
    case EReleaseHold(b) => b in m.bookings && m.bookings[b].listingId == l && m.bookings[b].status == Held
    case ECancelBooking(b, s, _) =>
      b in m.bookings && m.bookings[b].listingId == l && m.bookings[b].studentId == s &&
        HeldOrBooked(m.bookings[b].status)
    case _ => false
  }

  /** A pending second write for room l. */
  predicate SellsOn(m: Market, e: Event, l: Id) {
    e.EWriteSold? && e.w in m.soldWrites && e.w.listingId == l
  }

  /** A due expiry job for room l. */
  predicate ExpiresOn(m: Market, e: Event, l: Id) {
    e.EExpireHold? && ExpiryDue(m, e.job, e.now) && e.job.listingId == l
  }

  /** The status of a flagged room after a step that keeps it, read off the tables
      before. */
  function AfterFlag(m: Market, e: Event, l: Id): ListingStatus {
    if CancelsOn(m, e, l) then LVerified
    else if ExpiresOn(m, e, l) then LActive
    else if SellsOn(m, e, l) then LSold
    else LFlagged
  }

  predicate IsFlagged(listings: map<Id, Listing>, l: Id) {
    l in listings && listings[l].status == LFlagged
  }

  lemma ListingStepsKeepFlag(m: Market, e: Event, l: Id)
    requires e.ECreateListing? || e.EUpdateListing? || e.EDeleteListing? || e.ESubmitListing? || e.EReviewListing?
    requires IsFlagged(m.listings, l)
    ensures l in Step(m, e).listings ==> IsFlagged(Step(m, e).listings, l)
  {
    hide FlagListing, FileReport, ResolveReport, CreateBooking, ConfirmBooking, ReleaseHold, CancelBooking,
      CompleteBooking, DisputeBooking, ExpireHold, WriteSold, HasBooking, Logged;
  }

  lemma ModerationKeepsFlag(m: Market, e: Event, l: Id)
    requires e.EVerification? || e.EFlagListing? || e.EFileReport? || e.EChargeReporter? || e.EResolveReport?
    requires IsFlagged(m.listings, l)
    ensures IsFlagged(Step(m, e).listings, l)
  {
    hide CreateListing, UpdateListing, DeleteListing, SubmitListing, ReviewListing, CreateBooking, ConfirmBooking,
      ReleaseHold, CancelBooking, CompleteBooking, DisputeBooking, ExpireHold, WriteSold, Charged, V.Step;
  }

  lemma BookingsKeepFlag(m: Market, e: Event, l: Id)
    requires e.ECreateBooking? || e.EConfirmBooking? || e.ECompleteBooking? || e.EDisputeBooking?
    requires IsFlagged(m.listings, l)
    ensures IsFlagged(Step(m, e).listings, l)
  {
    hide CreateListing, UpdateListing, DeleteListing, SubmitListing, ReviewListing, FlagListing, FileReport,
      ResolveReport, WriteSold, HasActiveBooking, Charged, ReleaseHold, CancelBooking, ExpireHold;
  }

  lemma ReleaseExit(m: Market, b: Id, l: Id)
    requires IsFlagged(m.listings, l)
    ensures var m' := ReleaseHold(m, b).0;
            && l in m'.listings
            && m'.listings[l].status == if CancelsOn(m, EReleaseHold(b), l) then LVerified else LFlagged
  {
  }

  lemma CancelExit(m: Market, b: Id, s: Id, now: int, l: Id)
    requires IsFlagged(m.listings, l)
    ensures var m' := CancelBooking(m, b, s, now).0;
            && l in m'.listings
            && m'.listings[l].status == if CancelsOn(m, ECancelBooking(b, s, now), l) then LVerified else LFlagged
  {
  }

  lemma ExpiryExit(m: Market, job: HoldJob, now: int, l: Id)
    requires IsFlagged(m.listings, l)
    ensures var m' := ExpireHold(m, job, now);
            && l in m'.listings
            && m'.listings[l].status == if ExpiresOn(m, EExpireHold(job, now), l) then LActive else LFlagged
  {
  }

  lemma SaleExit(m: Market, w: SoldWrite, l: Id)
    requires IsFlagged(m.listings, l)
    ensures var m' := WriteSold(m, w);
            l in m'.listings && m'.listings[l].status == if SellsOn(m, EWriteSold(w), l) then LSold else LFlagged
  {
  }

  lemma ExitsOfFlag(m: Market, e: Event, l: Id)
    requires (MayCancel(e) || e.EWriteSold?) && IsFlagged(m.listings, l)
    ensures l in Step(m, e).listings && Step(m, e).listings[l].status == AfterFlag(m, e, l)
  {
    hide ReleaseHold, CancelBooking, ExpireHold, WriteSold, IsFlagged, ExpiryDue;
    match e {
      case EReleaseHold(b) => ReleaseExit(m, b, l);
      case ECancelBooking(b, s, now) => CancelExit(m, b, s, now, l);
      case EExpireHold(job, now) => ExpiryExit(m, job, now, l);
      case EWriteSold(w) => SaleExit(m, w, l);
    }
  }

  /** The status of a flagged room after any step that does not delete it. */
  lemma FlaggedRoomAfter(m: Market, e: Event, l: Id)
    requires IsFlagged(m.listings, l) && l in Step(m, e).listings
    ensures Step(m, e).listings[l].status == AfterFlag(m, e, l)
  {
    if MayCancel(e) || e.EWriteSold? {
      ExitsOfFlag(m, e, l);
      hide Step, AfterFlag;
    } else {
      hide Step;
      if e.ECreateBooking? || e.EConfirmBooking? || e.ECompleteBooking? || e.EDisputeBooking? {
        BookingsKeepFlag(m, e, l);
      } else if e.EVerification? || e.EFlagListing? || e.EFileReport? || e.EChargeReporter? || e.EResolveReport? {
        ModerationKeepsFlag(m, e, l);
      } else {
        ListingStepsKeepFlag(m, e, l);
      }
    }
  }

  /** A FLAGGED room loses its flag, without any review, in exactly three ways: a
      release or cancellation puts it back on sale, a hold that runs out makes it
      ACTIVE, and the second write of a confirmation makes it SOLD. */
  lemma FlagLifted(m: Market, e: Event, l: Id)
    requires IsFlagged(m.listings, l) && l in Step(m, e).listings
    ensures Step(m, e).listings[l].status != LFlagged <==> CancelsOn(m, e, l) || ExpiresOn(m, e, l) || SellsOn(m, e, l)
    ensures Step(m, e).listings[l].status == LVerified <==> CancelsOn(m, e, l)
    ensures Step(m, e).listings[l].status == LActive <==> ExpiresOn(m, e, l)
    ensures Step(m, e).listings[l].status == LSold <==> SellsOn(m, e, l)
  {
    hide Step, ExpiryDue;
    FlaggedRoomAfter(m, e, l);
  }

  /** So it goes back on sale exactly when its hold is released or its booking is
      cancelled by the student. */
  lemma FlagLiftedByCancellation(m: Market, e: Event, l: Id)
    requires l in m.listings && m.listings[l].status == LFlagged
    ensures (l in Step(m, e).listings && Step(m, e).listings[l].status == LVerified) <==> CancelsOn(m, e, l)
  {
    hide Step, CancelsOn;
    if l in Step(m, e).listings {
      FlagLifted(m, e, l);
    } else if MayCancel(e) {
      ExitsOfFlag(m, e, l);
    } else {
      NoCancellation(m, e, l);
    }
  }

  lemma NoCancellation(m: Market, e: Event, l: Id)
    requires !MayCancel(e)
    ensures !CancelsOn(m, e, l)
  {
  }

  // ---------------------------------------------------------------------------
  // Rooms left ACTIVE
  // ---------------------------------------------------------------------------

  predicate IsActive(listings: map<Id, Listing>, l: Id) {
    l in listings && listings[l].status == LActive
  }

  /** Every ACTIVE room is off the market for good. */
  ghost predicate ActiveIsRetired(m: Market) {
    forall l :: IsActive(m.listings, l) ==> Retired(m, l)
  }

  lemma ListingStepsDoNotActivate(m: Market, e: Event, l: Id)
    requires e.ECreateListing? || e.EUpdateListing? || e.EDeleteListing? || e.ESubmitListing? || e.EReviewListing?
    requires IsActive(Step(m, e).listings, l)
    ensures IsActive(m.listings, l)
  {
    hide FlagListing, FileReport, ResolveReport, CreateBooking, ConfirmBooking, ReleaseHold, CancelBooking,
      CompleteBooking, DisputeBooking, ExpireHold, WriteSold, HasBooking, Logged;
  }

  lemma ModerationDoesNotActivate(m: Market, e: Event, l: Id)
    requires e.EVerification? || e.EFlagListing? || e.EFileReport? || e.EChargeReporter? || e.EResolveReport?
             || e.EWriteSold?
    requires IsActive(Step(m, e).listings, l)
    ensures IsActive(m.listings, l)
  {
    hide CreateListing, UpdateListing, DeleteListing, SubmitListing, ReviewListing, CreateBooking, ConfirmBooking,
      ReleaseHold, CancelBooking, CompleteBooking, DisputeBooking, ExpireHold, Charged, V.Step;
  }

  lemma BookingsDoNotActivate(m: Market, e: Event, l: Id)
    requires e.ECreateBooking? || e.EConfirmBooking? || e.EReleaseHold? || e.ECancelBooking? || e.ECompleteBooking?
             || e.EDisputeBooking?
    requires IsActive(Step(m, e).listings, l)
    ensures IsActive(m.listings, l)
  {
    hide CreateListing, UpdateListing, DeleteListing, SubmitListing, ReviewListing, FlagListing, FileReport,
      ResolveReport, WriteSold, HasActiveBooking, Charged, ExpireHold;
  }

  lemma ExpiryActivates(m: Market, job: HoldJob, now: int, l: Id)
    requires IsActive(ExpireHold(m, job, now).listings, l) && !IsActive(m.listings, l)
    ensures ExpireHold(m, job, now) != m && job.listingId == l
  {
  }

  lemma StepOfExpiry(m: Market, e: Event)
    requires e.EExpireHold?
    ensures Step(m, e) == ExpireHold(m, e.job, e.now)
  {
    hide ExpireHold;
  }

  lemma ActiveAfterStep(m: Market, e: Event, l: Id)
    requires Inv(m) && ActiveIsRetired(m) && IsActive(Step(m, e).listings, l)
    ensures Retired(Step(m, e), l)
  {
    hide Inv, Step, Retired, IsActive, ExpireHold, ExpiryDue;
    if IsActive(m.listings, l) {
      RetiredStep(m, e, l);
    } else if e.EExpireHold? {
      StepOfExpiry(m, e);
      ExpiryActivates(m, e.job, e.now, l);
      ExpiryRetiresRoom(m, e.job, e.now);
    } else if e.ECreateBooking? || e.EConfirmBooking? || e.EReleaseHold? || e.ECancelBooking? || e.ECompleteBooking?
              || e.EDisputeBooking? {
      BookingsDoNotActivate(m, e, l);
    } else if e.ECreateListing? || e.EUpdateListing? || e.EDeleteListing? || e.ESubmitListing? || e.EReviewListing? {
      ListingStepsDoNotActivate(m, e, l);
    } else {
      ModerationDoesNotActivate(m, e, l);
    }
  }

  /** In every reachable state every ACTIVE room is retired. The duplicate workers
      read ACTIVE and FLAGGED listings only: the unflagged rooms among them are the
      ones that can never be booked again. */
  lemma {:induction false} ActiveRoomsAreRetired(events: seq<Event>)
    ensures ActiveIsRetired(Run(EMPTY_MARKET, events))
  {
    hide Step, Inv, Retired;
    if |events| > 0 {
      var prefix := events[..|events| - 1];
      ActiveRoomsAreRetired(prefix);
      EmptyMarketInv();
      MarketplaceProofs.RunKeepsInv(EMPTY_MARKET, prefix);
      var m, e := Run(EMPTY_MARKET, prefix), events[|events| - 1];
      forall l | IsActive(Step(m, e).listings, l) ensures Retired(Step(m, e), l) {
        ActiveAfterStep(m, e, l);
      }
    }
  }

  // ---------------------------------------------------------------------------
  // Reports
  // ---------------------------------------------------------------------------

  lemma ReportStepsKeepSettled(m: Market, e: Event, r: Id)
    requires r in m.reports && m.reports[r].status != ReportPending
    requires e.EFileReport? || e.EResolveReport? || e.EDeleteListing?
    ensures r in Step(m, e).reports && Step(m, e).reports[r].status == m.reports[r].status
  {
    hide CreateListing, UpdateListing, SubmitListing, ReviewListing, FlagListing, CreateBooking, ConfirmBooking,
      ReleaseHold, CancelBooking, CompleteBooking, DisputeBooking, ExpireHold, WriteSold, HasBooking, Charged, V.Step;
  }

  lemma OtherStepsKeepReports(m: Market, e: Event)
    requires !e.EFileReport? && !e.EResolveReport? && !e.EDeleteListing?
    ensures Step(m, e).reports == m.reports
  {
    hide DeleteListing, FileReport, ResolveReport, HasActiveBooking, Charged, Logged, V.Step;
  }

  /** A report is settled at most once: from then on no run changes its outcome, and
      settling it again is refused and charges nobody. */
  lemma {:induction false} ReportSettledOnce(m: Market, events: seq<Event>, r: Id, confirmed: bool)
    requires r in m.reports && m.reports[r].status != ReportPending
    ensures var m' := Run(m, events);
            && r in m'.reports && m'.reports[r].status == m.reports[r].status
            && ResolveReport(m', r, confirmed) == (m', V.BadRequest)
  {
    hide Step;
    if |events| > 0 {
      var before, e := Run(m, events[..|events| - 1]), events[|events| - 1];
      ReportSettledOnce(m, events[..|events| - 1], r, confirmed);
      if e.EFileReport? || e.EResolveReport? || e.EDeleteListing? {
        ReportStepsKeepSettled(before, e, r);
      } else {
        OtherStepsKeepReports(before, e);
      }
    }
  }
}
