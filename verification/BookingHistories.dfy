/**
  Whole-run properties of single bookings and listings: the path a booking takes,
  jobs that can no longer do anything, and rooms that never come back on sale.
 */
module BookingHistories {
  import opened Wrappers
  import opened BookingStateMachine
  import opened Marketplace
  import opened MarketplaceProofs
  import V = Verification
  import VP = VerificationProofs

  // ---------------------------------------------------------------------------
  // The path of a booking
  // ---------------------------------------------------------------------------

  /** The transitions the handlers write; the table allows more. */
  predicate HandlerEdge(a: BookingStatus, b: BookingStatus) {
    (a == Held && (b == Booked || b == Cancelled)) ||
      (a == Booked && (b == Completed || b == Disputed || b == Cancelled))
  }

  /** What one step may do to one booking. */
  ghost predicate BookingMoves(m: Market, m': Market, b: Id) {
    if b in m.bookings then
      && b in m'.bookings
      && m'.bookings[b].listingId == m.bookings[b].listingId && m'.bookings[b].studentId == m.bookings[b].studentId
      && (m'.bookings[b] == m.bookings[b] || HandlerEdge(m.bookings[b].status, m'.bookings[b].status))
    else b in m'.bookings ==> m'.bookings[b].status == Held
  }

  lemma HandlersMoveBookings(m: Market, e: Event, b: Id)
    requires e.ECreateBooking? || e.EConfirmBooking? || e.EReleaseHold? || e.ECancelBooking?
    requires b in m.bookings ==> m.bookings[b].status != Available
    ensures BookingMoves(m, Step(m, e), b)
  {
    hide CreateListing, UpdateListing, DeleteListing, SubmitListing, ReviewListing, FlagListing, FileReport,
      ResolveReport, CompleteBooking, DisputeBooking, ExpireHold, HasActiveBooking, WriteSold;
  }

  lemma OutcomesMoveBookings(m: Market, e: Event, b: Id)
    requires e.ECompleteBooking? || e.EDisputeBooking? || e.EExpireHold?
    ensures BookingMoves(m, Step(m, e), b)
  {
    hide CreateListing, UpdateListing, DeleteListing, SubmitListing, ReviewListing, FlagListing, FileReport,
      ResolveReport, CreateBooking, ConfirmBooking, ReleaseHold, CancelBooking, WriteSold, Charged;
  }

  lemma ListingStepsKeepBookings(m: Market, e: Event)
    requires e.ECreateListing? || e.EUpdateListing? || e.EDeleteListing? || e.ESubmitListing? || e.EReviewListing?
    ensures Step(m, e).bookings == m.bookings && Step(m, e).holdJobs == m.holdJobs
  {
    hide FlagListing, FileReport, ResolveReport, Charged, CreateBooking, ConfirmBooking, WriteSold, ReleaseHold,
      CancelBooking, CompleteBooking, DisputeBooking, ExpireHold, V.Step, HasBooking;
  }

  lemma ResolvingKeepsBookings(m: Market, r: Id, confirmed: bool)
    ensures var m' := ResolveReport(m, r, confirmed).0; m'.bookings == m.bookings && m'.holdJobs == m.holdJobs
  {
    hide SetStatus, Charged;
  }

  lemma FilingKeepsBookings(m: Market, r: Id, o: Id, u: Option<Id>, l: Option<Id>)
    ensures var m' := FileReport(m, r, o, u, l).0; m'.bookings == m.bookings && m'.holdJobs == m.holdJobs
  {
  }

  lemma ChargingKeepsBookings(m: Market, u: Id)
    ensures var m' := ChargeReporter(m, u); m'.bookings == m.bookings && m'.holdJobs == m.holdJobs
  {
  }

  lemma FlaggingKeepsBookings(m: Market, l: Id)
    ensures var m' := FlagListing(m, l).0; m'.bookings == m.bookings && m'.holdJobs == m.holdJobs
  {
  }

  lemma SellingKeepsBookings(m: Market, w: SoldWrite)
    ensures var m' := WriteSold(m, w); m'.bookings == m.bookings && m'.holdJobs == m.holdJobs
  {
  }

  lemma ModerationKeepsBookings(m: Market, e: Event)
    requires e.EVerification? || e.EFlagListing? || e.EFileReport? || e.EChargeReporter? || e.EResolveReport? ||
             e.EWriteSold?
    ensures Step(m, e).bookings == m.bookings && Step(m, e).holdJobs == m.holdJobs
  {
    hide CreateListing, UpdateListing, DeleteListing, SubmitListing, ReviewListing, FlagListing, FileReport,
      ChargeReporter, ResolveReport, CreateBooking, ConfirmBooking, WriteSold, ReleaseHold, CancelBooking,
      CompleteBooking, DisputeBooking, ExpireHold, V.Step;
    match e
    case EVerification(_) =>
    case EFlagListing(l) => FlaggingKeepsBookings(m, l);
    case EFileReport(r, o, u, l) => FilingKeepsBookings(m, r, o, u, l);
    case EChargeReporter(u) => ChargingKeepsBookings(m, u);
    case EResolveReport(r, c) => ResolvingKeepsBookings(m, r, c);
    case EWriteSold(w) => SellingKeepsBookings(m, w);
  }

  lemma OtherStepsKeepBookings(m: Market, e: Event)
    requires !(e.ECreateBooking? || e.EConfirmBooking? || e.EReleaseHold? || e.ECancelBooking?)
    requires !(e.ECompleteBooking? || e.EDisputeBooking? || e.EExpireHold?)
    ensures Step(m, e).bookings == m.bookings && Step(m, e).holdJobs == m.holdJobs
  {
    hide Step;
    if e.ECreateListing? || e.EUpdateListing? || e.EDeleteListing? || e.ESubmitListing? || e.EReviewListing? {
      ListingStepsKeepBookings(m, e);
    } else {
      ModerationKeepsBookings(m, e);
    }
  }

  lemma StepMovesBookings(m: Market, e: Event, b: Id)
    requires Inv(m)
    ensures BookingMoves(m, Step(m, e), b)
  {
    if b in m.bookings {
      StatusInRange(m, b);
    }
    hide Inv, Step;
    if e.ECreateBooking? || e.EConfirmBooking? || e.EReleaseHold? || e.ECancelBooking? {
      HandlersMoveBookings(m, e, b);
    } else if e.ECompleteBooking? || e.EDisputeBooking? || e.EExpireHold? {
      OutcomesMoveBookings(m, e, b);
    } else {
      OtherStepsKeepBookings(m, e);
    }
  }

  /** The statuses a booking has had, without repetitions, over a run from empty tables. */
  function History(events: seq<Event>, b: Id): seq<BookingStatus> {
    if |events| == 0 then []
    else
      var before := History(events[..|events| - 1], b);
      var m := Run(EMPTY_MARKET, events);
      if b !in m.bookings || (|before| > 0 && before[|before| - 1] == m.bookings[b].status) then before
      else before + [m.bookings[b].status]
  }

  predicate IsPath(h: seq<BookingStatus>) {
    && (|h| > 0 ==> h[0] == Held)
    && forall i :: 0 <= i < |h| - 1 ==> IsEdge(h[i], h[i + 1])
  }

  /** How many statuses a history ending here can have. */
  function Rank(s: BookingStatus): nat {
    match s
    case Available => 0
    case Held => 1
    case Booked => 2
    case Completed => 3
    case Disputed => 3
    case Cancelled => 3
  }

  /** Every booking's history is a path of the transition table that starts with
      HELD, ends in the current status, and has at most two further steps. */
  lemma {:induction false} HistoryIsPath(events: seq<Event>, b: Id)
    ensures var m, h := Run(EMPTY_MARKET, events), History(events, b);
            && (h == [] <==> b !in m.bookings)
            && IsPath(h) && |h| <= 3
            && (b in m.bookings ==> h[|h| - 1] == m.bookings[b].status && |h| <= Rank(m.bookings[b].status))
  {
    hide Step, Inv;
    if |events| > 0 {
      var prefix := events[..|events| - 1];
      HistoryIsPath(prefix, b);
      EmptyMarketInv();
      MarketplaceProofs.RunKeepsInv(EMPTY_MARKET, prefix);
      StepMovesBookings(Run(EMPTY_MARKET, prefix), events[|events| - 1], b);
    }
  }

  // ---------------------------------------------------------------------------
  // Jobs that can no longer do anything
  // ---------------------------------------------------------------------------

  /** A booking that has left HELD is never HELD again, whatever runs. */
  lemma {:induction false} HoldNeverReturns(m: Market, events: seq<Event>, b: Id)
    requires Inv(m) && b in m.bookings && m.bookings[b].status != Held
    ensures b in Run(m, events).bookings && Run(m, events).bookings[b].status != Held
  {
    hide Step, Inv;
    if |events| > 0 {
      var prefix := events[..|events| - 1];
      HoldNeverReturns(m, prefix, b);
      MarketplaceProofs.RunKeepsInv(m, prefix);
      StepMovesBookings(Run(m, prefix), events[|events| - 1], b);
    }
  }

  /** From then on its expiry job is a no-op, however often and however late it
      is delivered; so it never touches a later hold on the same room. */
  lemma StaleJobDoesNothing(m: Market, events: seq<Event>, job: HoldJob, now: int)
    requires Inv(m) && job.bookingId in m.bookings && m.bookings[job.bookingId].status != Held
    ensures ExpireHold(Run(m, events), job, now) == Run(m, events)
  {
    HoldNeverReturns(m, events, job.bookingId);
    hide Run, Inv;
  }

  // ---------------------------------------------------------------------------
  // Rooms that never come back
  // ---------------------------------------------------------------------------

  /** Booked at least once, off the list of rooms on sale or under review, and
      with no booking left that could be cancelled to put it back. */
  ghost predicate Retired(m: Market, l: Id) {
    && l in m.listings && HasBooking(m.bookings, l)
    && (OffSale(m.listings[l].status) || m.listings[l].status == LActive)
    && forall b :: b in m.bookings && m.bookings[b].listingId == l ==> !HeldOrBooked(m.bookings[b].status)
  }

  lemma BookingStaysKnown(m: Market, m': Market, l: Id)
    requires HasBooking(m.bookings, l) && forall b :: BookingMoves(m, m', b)
    ensures HasBooking(m'.bookings, l)
  {
    var b :| b in m.bookings && m.bookings[b].listingId == l;
    assert BookingMoves(m, m', b);
    assert b in m'.bookings && m'.bookings[b].listingId == l;
  }

  lemma RetiredListingAfterHandlers(m: Market, e: Event, l: Id)
    requires Retired(m, l)
    requires e.EConfirmBooking? || e.EReleaseHold? || e.ECancelBooking? || e.EExpireHold?
    requires forall j :: j in m.holdJobs ==>
      j.bookingId in m.bookings && m.bookings[j.bookingId].listingId == j.listingId
    ensures l in Step(m, e).listings && Step(m, e).listings[l] == m.listings[l]
  {
    hide CreateListing, UpdateListing, DeleteListing, SubmitListing, ReviewListing, FlagListing, FileReport,
      ResolveReport, CreateBooking, CompleteBooking, DisputeBooking, HasBooking, WriteSold;
  }

  lemma RetiredListingAfterOthers(m: Market, e: Event, l: Id)
    requires Retired(m, l)
    requires !(e.EConfirmBooking? || e.EReleaseHold? || e.ECancelBooking? || e.EExpireHold?)
    ensures l in Step(m, e).listings
    ensures OffSale(Step(m, e).listings[l].status) || Step(m, e).listings[l].status == LActive
  {
    hide ConfirmBooking, ReleaseHold, CancelBooking, ExpireHold, V.Step, HasActiveBooking, HasBooking, Charged;
  }

  /** A booking request for a retired room is turned down. */
  lemma RetiredTakesNoBooking(m: Market, s: Id, l: Id, l': Id, d: int, b: Id, now: int)
    requires Retired(m, l) && b !in m.bookings
    ensures var m' := CreateBooking(m, s, l', d, b, now).0;
            b in m'.bookings ==> m'.bookings[b].listingId == l' != l
  {
    hide HasActiveBooking, HasBooking, HeldOrBooked;
  }

  lemma RetiredBookings(m: Market, e: Event, l: Id, b: Id)
    requires Inv(m) && Retired(m, l)
    requires b in Step(m, e).bookings && Step(m, e).bookings[b].listingId == l
    ensures b in m.bookings && !HeldOrBooked(Step(m, e).bookings[b].status)
  {
    hide Step, Inv, CreateBooking;
    if b in m.bookings {
      StepMovesBookings(m, e, b);
    } else if e.ECreateBooking? {
      StepOfRequest(m, e);
      if b == e.b {
        RetiredTakesNoBooking(m, e.studentId, l, e.l, e.deposit, b, e.now);
      } else {
        OnlyNamedBookingAppears(m, e.studentId, e.l, e.deposit, e.b, e.now);
      }
    } else {
      NoOtherStepCreates(m, e, b);
    }
  }

  lemma StepOfRequest(m: Market, e: Event)
    requires e.ECreateBooking?
    ensures Step(m, e) == CreateBooking(m, e.studentId, e.l, e.deposit, e.b, e.now).0
  {
    hide CreateBooking;
  }

  lemma OnlyNamedBookingAppears(m: Market, s: Id, l: Id, d: int, b: Id, now: int)
    ensures forall x :: x in CreateBooking(m, s, l, d, b, now).0.bookings ==> x == b || x in m.bookings
  {
    hide HasActiveBooking, SetStatus;
  }

  lemma NoOtherStepCreates(m: Market, e: Event, b: Id)
    requires !e.ECreateBooking? && b !in m.bookings
    ensures b !in Step(m, e).bookings
  {
    hide CreateBooking, V.Step, HasBooking, Charged;
  }

  lemma JobsNameBookings(m: Market)
    requires Inv(m)
    ensures forall j :: j in m.holdJobs ==>
      j.bookingId in m.bookings && m.bookings[j.bookingId].listingId == j.listingId
  {
    hide VP.Inv, SoldOnce, PagesBehind, ReviewedFirst;
  }

  lemma RetiredListing(m: Market, e: Event, l: Id)
    requires Inv(m) && Retired(m, l)
    ensures l in Step(m, e).listings
    ensures OffSale(Step(m, e).listings[l].status) || Step(m, e).listings[l].status == LActive
  {
    hide Inv, Step;
    JobsNameBookings(m);
    if e.EConfirmBooking? || e.EReleaseHold? || e.ECancelBooking? || e.EExpireHold? {
      RetiredListingAfterHandlers(m, e, l);
    } else {
      RetiredListingAfterOthers(m, e, l);
    }
  }

  lemma RetiredStep(m: Market, e: Event, l: Id)
    requires Inv(m) && Retired(m, l)
    ensures Retired(Step(m, e), l)
  {
    hide Inv, Step, BookingMoves, HasBooking, HeldOrBooked;
    forall b ensures BookingMoves(m, Step(m, e), b) {
      StepMovesBookings(m, e, b);
    }
    BookingStaysKnown(m, Step(m, e), l);
    RetiredListing(m, e, l);
    forall b | b in Step(m, e).bookings && Step(m, e).bookings[b].listingId == l
      ensures !HeldOrBooked(Step(m, e).bookings[b].status)
    {
      RetiredBookings(m, e, l, b);
    }
  }

  /** A retired room is never on sale again and takes no further booking. */
  lemma {:induction false} RetiredForever(m: Market, events: seq<Event>, l: Id)
    requires Inv(m) && Retired(m, l)
    ensures var m' := Run(m, events);
            && Retired(m', l)
            && l in m'.listings && m'.listings[l].status != LVerified
            && forall s, d, b, now :: CreateBooking(m', s, l, d, b, now) == (m', V.Conflict)
  {
    hide Step, Inv;
    if |events| > 0 {
      var prefix := events[..|events| - 1];
      RetiredForever(m, prefix, l);
      MarketplaceProofs.RunKeepsInv(m, prefix);
      RetiredStep(Run(m, prefix), events[|events| - 1], l);
    }
  }

  /** A room with a completed or disputed booking is retired. */
  lemma SettledRoomIsRetired(m: Market, b: Id)
    requires Inv(m) && b in m.bookings && (m.bookings[b].status == Completed || m.bookings[b].status == Disputed)
    ensures Retired(m, m.bookings[b].listingId)
  {
    hide VP.Inv, PagesBehind, ReviewedFirst, JobsOk;
    assert HasBooking(m.bookings, m.bookings[b].listingId);
  }

  lemma SoldListing(m: Market, w: SoldWrite)
    requires w in m.soldWrites && w.listingId in m.listings
    ensures var m' := WriteSold(m, w);
            m'.bookings == m.bookings && w.listingId in m'.listings && m'.listings[w.listingId].status == LSold
  {
  }

  lemma BookedBefore(m: Market, w: SoldWrite)
    requires Inv(m) && w in m.soldWrites
    ensures HasBooking(m.bookings, w.listingId)
  {
    hide VP.Inv, SoldOnce, PagesBehind, ReviewedFirst;
  }

  /** A confirmation whose second write comes after the booking was cancelled and
      before anyone booked again leaves a room SOLD without a buyer, for good. */
  lemma LateSoldWriteRetiresRoom(m: Market, w: SoldWrite)
    requires Inv(m) && w in m.soldWrites && NoLiveBooking(m.bookings, w.listingId)
    ensures Retired(WriteSold(m, w), w.listingId)
  {
    hide Inv, Reviewed, HasBooking, WriteSold;
    BookedBefore(m, w);
    SoldWriteTarget(m, w);
    SoldListing(m, w);
    forall b | b in m.bookings && m.bookings[b].listingId == w.listingId ensures !HeldOrBooked(m.bookings[b].status) {
      assert !Live(m.bookings[b]);
    }
  }
}
