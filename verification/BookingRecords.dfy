/**
  Bookings row by row: timestamps tell the story of a booking, a hold lasts one day and
  no longer, requests are granted by status alone, and every step makes exactly the
  listed change to every booking.
 */
module BookingRecords {
  import opened Wrappers
  import opened BookingStateMachine
  import opened Marketplace
  import opened MarketplaceProofs
  import opened BookingHistories
  import opened SaleOutcomes
  import V = Verification
  import LA = LedgerAccounts
  import TrustScore

  // ---------------------------------------------------------------------------
  // Timestamps
  // ---------------------------------------------------------------------------

  /** A deadline stands on a hold, and on one that ended without a confirmation; the time
      of confirmation on everything that was confirmed; the time of completion exactly
      on completed stays; the time of cancellation on cancelled bookings only. */
  predicate Stamped(b: Booking) {
    && b.status != Available
    && (b.holdExpiresAt.Some? <==> b.bookedAt.None?)
    && (b.status == Held ==> b.bookedAt.None?)
    && (b.status == Booked || b.status == Completed || b.status == Disputed ==> b.bookedAt.Some?)
    && (b.completedAt.Some? <==> b.status == Completed)
    && (b.cancelledAt.Some? ==> b.status == Cancelled)
  }

  ghost predicate AllStamped(bookings: map<Id, Booking>) {
    forall b :: b in bookings ==> Stamped(bookings[b])
  }

  lemma RequestsStamp(m: Market, e: Event)
    requires AllStamped(m.bookings) && (e.ECreateBooking? || e.EConfirmBooking?)
    ensures AllStamped(Step(m, e).bookings)
  {
    hide CreateListing, UpdateListing, DeleteListing, SubmitListing, ReviewListing, FlagListing, FileReport,
      ChargeReporter, ResolveReport, ReleaseHold, CancelBooking, CompleteBooking, DisputeBooking, ExpireHold, WriteSold,
      HasActiveBooking, SetStatus, V.Step;
  }

  lemma CancellationsStamp(m: Market, e: Event)
    requires AllStamped(m.bookings) && (e.EReleaseHold? || e.ECancelBooking? || e.EExpireHold?)
    ensures AllStamped(Step(m, e).bookings)
  {
    hide CreateListing, UpdateListing, DeleteListing, SubmitListing, ReviewListing, FlagListing, FileReport,
      ChargeReporter, ResolveReport, CreateBooking, ConfirmBooking, CompleteBooking, DisputeBooking, WriteSold,
      SetStatus, V.Step;
  }

  lemma ConclusionsStamp(m: Market, e: Event)
    requires AllStamped(m.bookings) && (e.ECompleteBooking? || e.EDisputeBooking?)
    ensures AllStamped(Step(m, e).bookings)
  {
    hide CreateListing, UpdateListing, DeleteListing, SubmitListing, ReviewListing, FlagListing, FileReport,
      ChargeReporter, ResolveReport, CreateBooking, ConfirmBooking, ReleaseHold, CancelBooking, ExpireHold, WriteSold,
      Charged, V.Step;
  }

  /** In every reachable state the timestamps of every booking fit its status. */
  lemma {:induction false} TimestampsTellTheStory(events: seq<Event>)
    ensures AllStamped(Run(EMPTY_MARKET, events).bookings)
  {
    hide Step, AllStamped;
    if |events| == 0 {
      assert AllStamped(EMPTY_MARKET.bookings) by {
        NothingStamped();
      }
    } else {
      var m, e := Run(EMPTY_MARKET, events[..|events| - 1]), events[|events| - 1];
      TimestampsTellTheStory(events[..|events| - 1]);
      if e.ECreateBooking? || e.EConfirmBooking? {
        RequestsStamp(m, e);
      } else if e.EReleaseHold? || e.ECancelBooking? || e.EExpireHold? {
        CancellationsStamp(m, e);
      } else if e.ECompleteBooking? || e.EDisputeBooking? {
        ConclusionsStamp(m, e);
      } else {
        OtherStepsKeepBookings(m, e);
      }
    }
  }

  lemma NothingStamped()
    ensures AllStamped(EMPTY_MARKET.bookings)
  {
  }

  // ---------------------------------------------------------------------------
  // One day
  // ---------------------------------------------------------------------------

  /** While a booking is HELD nothing about its row changes. */
  lemma {:induction false} HeldRowStays(m: Market, events: seq<Event>, b: Id)
    requires Inv(m) && b in m.bookings && m.bookings[b].status == Held
    ensures b in Run(m, events).bookings
    ensures Run(m, events).bookings[b].status == Held ==> Run(m, events).bookings[b] == m.bookings[b]
  {
    hide Step, Inv;
    if |events| > 0 {
      var prefix := events[..|events| - 1];
      HeldRowStays(m, prefix, b);
      MarketplaceProofs.RunKeepsInv(m, prefix);
      StepMovesBookings(Run(m, prefix), events[|events| - 1], b);
    }
  }

  lemma JobsStay(m: Market, e: Event, job: HoldJob)
    requires job in m.holdJobs
    ensures job in Step(m, e).holdJobs
  {
    if e.ECreateBooking? || e.EConfirmBooking? || e.EReleaseHold? || e.ECancelBooking? || e.ECompleteBooking?
       || e.EDisputeBooking? || e.EExpireHold? {
      hide CreateListing, UpdateListing, DeleteListing, SubmitListing, ReviewListing, FlagListing, FileReport,
        ChargeReporter, ResolveReport, WriteSold, HasActiveBooking, SetStatus, Charged, V.Step;
    } else {
      OtherStepsKeepBookings(m, e);
      hide Step;
    }
  }

  lemma {:induction false} JobsStayOverRuns(m: Market, events: seq<Event>, job: HoldJob)
    requires job in m.holdJobs
    ensures job in Run(m, events).holdJobs
  {
    hide Step;
    if |events| > 0 {
      JobsStayOverRuns(m, events[..|events| - 1], job);
      JobsStay(Run(m, events[..|events| - 1]), events[|events| - 1], job);
    }
  }

  lemma HoldTaken(m: Market, s: Id, l: Id, d: int, b: Id, now: int)
    requires CreateBooking(m, s, l, d, b, now).1 == V.Ok
    ensures var m' := CreateBooking(m, s, l, d, b, now).0;
            && HoldJob(b, l) in m'.holdJobs && b in m'.bookings
            && m'.bookings[b] == Booking(l, s, Held, d, Some(now + 86_400_000), None, None, None)
  {
    hide HasActiveBooking, SetStatus;
  }

  lemma JobActs(m: Market, job: HoldJob, t: int)
    requires Inv(m) && job in m.holdJobs && job.bookingId in m.bookings
    requires m.bookings[job.bookingId].status == Held && m.bookings[job.bookingId].holdExpiresAt.Some?
    ensures var m' := ExpireHold(m, job, t);
            && job.bookingId in m'.bookings
            && (m'.bookings[job.bookingId].status == Cancelled <==> m.bookings[job.bookingId].holdExpiresAt.value <= t)
            && (m.bookings[job.bookingId].holdExpiresAt.value > t ==> m' == m)
  {
    JobTarget(m, job);
    hide Inv;
  }

  /** A hold granted at `now` lasts exactly one day: however much happens in between,
      as long as it is still HELD its expiry job ends it from 24 hours after the
      request on, and does nothing before. */
  lemma HoldLastsOneDay(m: Market, s: Id, l: Id, d: int, b: Id, now: int, events: seq<Event>, t: int)
    requires Inv(m) && CreateBooking(m, s, l, d, b, now).1 == V.Ok
    requires var m1 := Run(CreateBooking(m, s, l, d, b, now).0, events);
             b in m1.bookings && m1.bookings[b].status == Held
    ensures var m1 := Run(CreateBooking(m, s, l, d, b, now).0, events);
            var m2 := ExpireHold(m1, HoldJob(b, l), t);
            && b in m2.bookings
            && (m2.bookings[b].status == Cancelled <==> t - now >= 24 * 60 * 60 * 1000)
            && (t - now < 24 * 60 * 60 * 1000 ==> m2 == m1)
  {
    hide Inv, CreateBooking, Run, ExpireHold;
    CreateBookingKeepsInv(m, s, l, d, b, now);
    HoldTaken(m, s, l, d, b, now);
    var m0 := CreateBooking(m, s, l, d, b, now).0;
    HeldRowStays(m0, events, b);
    JobsStayOverRuns(m0, events, HoldJob(b, l));
    MarketplaceProofs.RunKeepsInv(m0, events);
    JobActs(Run(m0, events), HoldJob(b, l), t);
  }

  // ---------------------------------------------------------------------------
  // Which requests are granted
  // ---------------------------------------------------------------------------

  /** Whether a request of student s about booking b finds it in one of the statuses. */
  predicate Finds(m: Market, b: Id, s: Id, statuses: set<BookingStatus>) {
    b in m.bookings && m.bookings[b].studentId == s && m.bookings[b].status in statuses
  }

  /** In every reachable state a request about a booking is granted exactly when it is
      the student's own and has the right status, and a hold is taken exactly on a
      VERIFIED room: no other guard ever refuses. */
  lemma RequestsGranted(events: seq<Event>, b: Id, s: Id, l: Id, d: Option<int>, deposit: int, now: int)
    ensures var m := Run(EMPTY_MARKET, events);
            && (ConfirmBooking(m, b, s, d, now).1 == V.Ok <==> Finds(m, b, s, {Held}))
            && (CancelBooking(m, b, s, now).1 == V.Ok <==> Finds(m, b, s, {Held, Booked}))
            && (CompleteBooking(m, b, s, now).1 == V.Ok <==> Finds(m, b, s, {Booked}))
            && (DisputeBooking(m, b, s).1 == V.Ok <==> Finds(m, b, s, {Booked}))
            && (ReleaseHold(m, b).0 != m <==> b in m.bookings && m.bookings[b].status == Held)
            && (CreateBooking(m, s, l, deposit, b, now).1 == V.Ok <==>
                  l in m.listings && m.listings[l].status == LVerified && b !in m.bookings && s in m.t.users)
  {
    var m := Run(EMPTY_MARKET, events);
    EmptyMarketInv();
    MarketplaceProofs.RunKeepsInv(EMPTY_MARKET, events);
    hide Run, Inv;
    if b in m.bookings {
      BookedRoom(m, b);
      StatusInRange(m, b);
    }
    ConfirmsHeld(m, b, s, d, now);
    CancelsLive(m, b, s, now);
    ConcludesBooked(m, b, s, now);
    ReleasesHeld(m, b);
    if l in m.listings && m.listings[l].status == LVerified {
      NothingActiveOnSale(m, l);
    }
    hide HasActiveBooking, ConfirmBooking, CancelBooking, CompleteBooking, DisputeBooking, ReleaseHold, TakeHoldOn;
  }

  lemma BookedRoom(m: Market, b: Id)
    requires Inv(m) && b in m.bookings
    ensures m.bookings[b].listingId in m.listings
  {
  }

  lemma ConfirmsHeld(m: Market, b: Id, s: Id, d: Option<int>, now: int)
    requires b in m.bookings ==> m.bookings[b].status != Available
    ensures ConfirmBooking(m, b, s, d, now).1 == V.Ok <==> Finds(m, b, s, {Held})
  {
  }

  lemma CancelsLive(m: Market, b: Id, s: Id, now: int)
    requires b in m.bookings ==> m.bookings[b].listingId in m.listings
    ensures CancelBooking(m, b, s, now).1 == V.Ok <==> Finds(m, b, s, {Held, Booked})
  {
    hide Cancelling;
  }

  lemma ConcludesBooked(m: Market, b: Id, s: Id, now: int)
    ensures CompleteBooking(m, b, s, now).1 == V.Ok <==> Finds(m, b, s, {Booked})
    ensures DisputeBooking(m, b, s).1 == V.Ok <==> Finds(m, b, s, {Booked})
  {
    hide Settle;
  }

  lemma ReleasesHeld(m: Market, b: Id)
    requires b in m.bookings ==> m.bookings[b].listingId in m.listings
    ensures ReleaseHold(m, b).0 != m <==> b in m.bookings && m.bookings[b].status == Held
  {
  }

  /** Booking b after a step, read off the tables before. */
  function NextBooking(m: Market, e: Event, b: Id): Booking
    requires b in m.bookings
  {
    var row := m.bookings[b];
    match e
    case EConfirmBooking(a, s, d, now) =>
      if a == b && Finds(m, b, s, {Held}) then
        row.(status := Booked, holdExpiresAt := None, bookedAt := Some(now),
             depositAmount := if d.Some? then d.value else row.depositAmount)
      else row
    case ECancelBooking(a, s, now) =>
      if a == b && Finds(m, b, s, {Held, Booked}) then row.(status := Cancelled, cancelledAt := Some(now)) else row
    case ECompleteBooking(a, s, now) =>
      if a == b && Finds(m, b, s, {Booked}) then row.(status := Completed, completedAt := Some(now)) else row
    case EDisputeBooking(a, s) =>
      if a == b && Finds(m, b, s, {Booked}) then row.(status := Disputed, holdExpiresAt := None) else row
    case EReleaseHold(a) => if a == b && row.status == Held then row.(status := Cancelled) else row
    case EExpireHold(job, now) =>
      if job.bookingId == b && ExpiryDue(m, job, now) then row.(status := Cancelled) else row
    case _ => row
  }

  predicate BookingIs(bookings: map<Id, Booking>, b: Id, row: Booking) {
    b in bookings && bookings[b] == row
  }

  lemma BookingAfterCreation(m: Market, s: Id, l: Id, d: int, a: Id, now: int, b: Id)
    requires b in m.bookings
    ensures BookingIs(CreateBooking(m, s, l, d, a, now).0.bookings, b, m.bookings[b])
  {
    hide HasActiveBooking, SetStatus;
  }

  lemma BookingAfterConfirmation(m: Market, a: Id, s: Id, d: Option<int>, now: int, b: Id)
    requires b in m.bookings && m.bookings[b].status != Available
    ensures BookingIs(ConfirmBooking(m, a, s, d, now).0.bookings, b, NextBooking(m, EConfirmBooking(a, s, d, now), b))
  {
  }

  lemma BookingAfterCancellation(m: Market, a: Id, s: Id, now: int, b: Id)
    requires b in m.bookings && m.bookings[b].listingId in m.listings
    ensures BookingIs(CancelBooking(m, a, s, now).0.bookings, b, NextBooking(m, ECancelBooking(a, s, now), b))
  {
    hide SetStatus;
  }

  lemma SettledBooking(m: Market, b: Id, row: Booking, kind: LA.Kind, sw: int, ow: int)
    ensures var m' := Settle(m, b, row, kind, sw, ow); m'.bookings == m.bookings[b := row] && m'.listings == m.listings
  {
    hide Charged;
  }

  lemma BookingAfterCompletion(m: Market, a: Id, s: Id, now: int, b: Id)
    requires b in m.bookings
    ensures BookingIs(CompleteBooking(m, a, s, now).0.bookings, b, NextBooking(m, ECompleteBooking(a, s, now), b))
    ensures CompleteBooking(m, a, s, now).0.listings == m.listings
  {
    hide Settle;
    if a in m.bookings {
      SettledBooking(m, a, m.bookings[a].(status := Completed, completedAt := Some(now)), TrustScore.BookingCompleted,
                     5, 10);
    }
  }

  lemma BookingAfterDispute(m: Market, a: Id, s: Id, b: Id)
    requires b in m.bookings
    ensures BookingIs(DisputeBooking(m, a, s).0.bookings, b, NextBooking(m, EDisputeBooking(a, s), b))
    ensures DisputeBooking(m, a, s).0.listings == m.listings
  {
    hide Settle;
    if a in m.bookings {
      SettledBooking(m, a, m.bookings[a].(status := Disputed, holdExpiresAt := None),
                     TrustScore.DisputeResolvedAgainst, -5, -30);
    }
  }

  lemma BookingAfterRelease(m: Market, a: Id, b: Id)
    requires b in m.bookings && m.bookings[b].listingId in m.listings
    ensures BookingIs(ReleaseHold(m, a).0.bookings, b, NextBooking(m, EReleaseHold(a), b))
  {
    hide SetStatus;
  }

  lemma BookingAfterExpiry(m: Market, job: HoldJob, now: int, b: Id)
    requires b in m.bookings && (job in m.holdJobs ==> job.listingId in m.listings)
    ensures BookingIs(ExpireHold(m, job, now).bookings, b, NextBooking(m, EExpireHold(job, now), b))
  {
    hide SetStatus;
  }

  predicate IsBookingStep(e: Event) {
    e.ECreateBooking? || e.EConfirmBooking? || e.ECancelBooking? || e.ECompleteBooking? || e.EDisputeBooking?
    || e.EReleaseHold? || e.EExpireHold?
  }

  lemma UntouchedBooking(m: Market, e: Event, b: Id)
    requires b in m.bookings && (e.ECreateBooking? || !IsBookingStep(e))
    ensures NextBooking(m, e, b) == m.bookings[b]
  {
    hide Finds, ExpiryDue;
  }

  lemma BookingAfterRequests(m: Market, e: Event, b: Id)
    requires b in m.bookings && m.bookings[b].status != Available && m.bookings[b].listingId in m.listings
    requires e.ECreateBooking? || e.EConfirmBooking? || e.ECancelBooking? || e.EReleaseHold?
    ensures BookingIs(Step(m, e).bookings, b, NextBooking(m, e, b))
  {
    hide CreateListing, UpdateListing, DeleteListing, SubmitListing, ReviewListing, FlagListing, FileReport,
      ChargeReporter, ResolveReport, CreateBooking, ConfirmBooking, ReleaseHold, CancelBooking, CompleteBooking,
      DisputeBooking, ExpireHold, WriteSold, V.Step, NextBooking, BookingIs;
    match e
    case ECreateBooking(s, l, d, a, now) =>
      BookingAfterCreation(m, s, l, d, a, now, b);
      UntouchedBooking(m, e, b);
    case EConfirmBooking(a, s, d, now) => BookingAfterConfirmation(m, a, s, d, now, b);
    case ECancelBooking(a, s, now) => BookingAfterCancellation(m, a, s, now, b);
    case EReleaseHold(a) => BookingAfterRelease(m, a, b);
  }

  lemma BookingAfterOutcomes(m: Market, e: Event, b: Id)
    requires b in m.bookings && (e.ECompleteBooking? || e.EDisputeBooking? || e.EExpireHold?)
    requires e.EExpireHold? && e.job in m.holdJobs ==> e.job.listingId in m.listings
    ensures BookingIs(Step(m, e).bookings, b, NextBooking(m, e, b))
  {
    hide CreateListing, UpdateListing, DeleteListing, SubmitListing, ReviewListing, FlagListing, FileReport,
      ChargeReporter, ResolveReport, CreateBooking, ConfirmBooking, ReleaseHold, CancelBooking, CompleteBooking,
      DisputeBooking, ExpireHold, WriteSold, V.Step, NextBooking, BookingIs;
    match e
    case ECompleteBooking(a, s, now) => BookingAfterCompletion(m, a, s, now, b);
    case EDisputeBooking(a, s) => BookingAfterDispute(m, a, s, b);
    case EExpireHold(job, now) => BookingAfterExpiry(m, job, now, b);
  }

  /** Exactly what every step makes of every booking. */
  lemma BookingAfterStep(m: Market, e: Event, b: Id)
    requires Inv(m) && b in m.bookings
    ensures b in Step(m, e).bookings && Step(m, e).bookings[b] == NextBooking(m, e, b)
  {
    hide Inv, Step, NextBooking;
    if e.ECreateBooking? || e.EConfirmBooking? || e.ECancelBooking? || e.EReleaseHold? {
      BookedRoom(m, b);
      StatusInRange(m, b);
      BookingAfterRequests(m, e, b);
    } else if e.ECompleteBooking? || e.EDisputeBooking? || e.EExpireHold? {
      if e.EExpireHold? && e.job in m.holdJobs {
        JobTarget(m, e.job);
      }
      BookingAfterOutcomes(m, e, b);
    } else {
      OtherStepsKeepBookings(m, e);
      UntouchedBooking(m, e, b);
    }
  }

  /** A granted request is for a known student, an unused id and a VERIFIED room. */
  predicate Requests(m: Market, e: Event, b: Id) {
    && e.ECreateBooking? && e.b == b && e.l in m.listings && m.listings[e.l].status == LVerified
    && e.studentId in m.t.users
  }

  lemma BookingCreated(m: Market, s: Id, l: Id, d: int, a: Id, now: int, b: Id)
    requires b !in m.bookings && (l in m.listings && m.listings[l].status == LVerified ==> !HasActiveBooking(m, l))
    ensures var m', e := CreateBooking(m, s, l, d, a, now).0, ECreateBooking(s, l, d, a, now);
            && (b in m'.bookings <==> Requests(m, e, b))
            && (Requests(m, e, b) ==>
                  m'.bookings[b] == Booking(l, s, Held, d, Some(now + 86_400_000), None, None, None))
  {
    hide HasActiveBooking, SetStatus;
  }

  /** Exactly which steps create a booking: a hold for one day. */
  lemma BookingBirth(m: Market, e: Event, b: Id)
    requires Inv(m) && b !in m.bookings
    ensures b in Step(m, e).bookings <==> Requests(m, e, b)
    ensures Requests(m, e, b) ==>
              Step(m, e).bookings[b] ==
                Booking(e.l, e.studentId, Held, e.deposit, Some(e.now + 86_400_000), None, None, None)
  {
    hide Inv, Step, HasActiveBooking, CreateBooking;
    if e.ECreateBooking? {
      if e.l in m.listings && m.listings[e.l].status == LVerified {
        NothingActiveOnSale(m, e.l);
      }
      StepOfRequest(m, e);
      BookingCreated(m, e.studentId, e.l, e.deposit, e.b, e.now, b);
    } else {
      NoOtherStepCreates(m, e, b);
    }
  }
}
