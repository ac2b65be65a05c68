/**
  Runs from empty tables into the states in which a sale goes wrong: a hold that
  runs out, a late second write on a room nobody holds, and one on a room that
  another student holds.
 */
module SaleWitnesses {
  import opened Wrappers
  import opened BookingStateMachine
  import opened Marketplace
  import opened MarketplaceProofs
  import opened SaleOutcomes
  import V = Verification
  import VP = VerificationProofs

  const ACCOUNTS: seq<V.Event> :=
    [V.ERegister(1, "ada", V.Agent, false)] + [V.ERegister(2, "ben", V.Student, false)]
    + [V.ERegister(3, "cleo", V.Student, false)]

  lemma RunPush(m: Market, events: seq<Event>, e: Event)
    ensures Run(m, events + [e]) == Step(Run(m, events), e)
  {
    assert (events + [e])[..|events|] == events;
  }

  function Lift(vs: seq<V.Event>): seq<Event> {
    seq(|vs|, i requires 0 <= i < |vs| => EVerification(vs[i]))
  }

  lemma {:induction false} LiftedRun(vs: seq<V.Event>)
    ensures Run(EMPTY_MARKET, Lift(vs)) == EMPTY_MARKET.(t := V.Run(V.EMPTY, vs))
  {
    hide V.Step;
    if |vs| > 0 {
      LiftedRun(vs[..|vs| - 1]);
      assert Lift(vs)[..|vs| - 1] == Lift(vs[..|vs| - 1]);
    }
  }

  lemma AccountsOpen()
    ensures var t := V.Run(V.EMPTY, ACCOUNTS);
            && t.users.Keys == {1, 2, 3} && t.users[1].role == V.Agent
            && t.pages == map[] && t.pageByOwner == map[] && t.queue == []
  {
    var a, b := V.ERegister(1, "ada", V.Agent, false), V.ERegister(2, "ben", V.Student, false);
    var c := V.ERegister(3, "cleo", V.Student, false);
    assert V.Run(V.EMPTY, []) == V.EMPTY;
    hide V.Run, V.CreatePage, V.UpdatePage, V.SubmitPage, V.ReviewPage, V.CompleteProfile, V.ReviewSubmission;
    VP.RunPush(V.EMPTY, [], a);
    VP.RunPush(V.EMPTY, [a], b);
    VP.RunPush(V.EMPTY, [a] + [b], c);
    assert [] + [a] == [a];
  }

  lemma PageSubmits(t: V.Tables)
    requires 1 in t.users && t.users[1].role == V.Agent && t.pages == map[] && t.pageByOwner == map[] && t.queue == []
    ensures var t2 := V.SubmitPage(V.CreatePage(t, 1, 10, true, true, true).0, 1).0;
            && t2.users == t.users && t2.pageByOwner == map[1 := 10] && t2.pages.Keys == {10}
            && t2.pages[10].ownerId == 1 && t2.pages[10].state == V.PageSubmitted
            && |t2.queue| == 1 && V.PendingFor(t2.queue[0], V.PageEntity(10))
  {
  }

  lemma PageVerifies(t: V.Tables)
    requires 1 in t.users && t.pageByOwner == map[1 := 10] && t.pages.Keys == {10}
    requires t.pages[10].ownerId == 1 && t.pages[10].state == V.PageSubmitted
    requires |t.queue| == 1 && V.PendingFor(t.queue[0], V.PageEntity(10))
    ensures var t3 := V.ReviewPage(t, 10, 9, true, None).0; HasVerifiedPage(t3, 1) && t3.users.Keys == t.users.Keys
  {
    assert V.NewestPending(t.queue, V.PageEntity(10)) == Some(0);
    hide V.NewestPending, V.Settled;
  }

  /** The page service takes an agent's new page to VERIFIED. */
  lemma PageOpens(t: V.Tables)
    requires 1 in t.users && t.users[1].role == V.Agent && t.pages == map[] && t.pageByOwner == map[] && t.queue == []
    ensures var t2 := V.SubmitPage(V.CreatePage(t, 1, 10, true, true, true).0, 1).0;
            var t3 := V.ReviewPage(t2, 10, 9, true, None).0;
            HasVerifiedPage(t3, 1) && t3.users.Keys == t.users.Keys
  {
    hide *;
    PageSubmits(t);
    PageVerifies(V.SubmitPage(V.CreatePage(t, 1, 10, true, true, true).0, 1).0);
  }

  lemma VerifiedOwner() returns (events: seq<Event>)
    ensures var m := Run(EMPTY_MARKET, events);
            m == EMPTY_MARKET.(t := m.t) && HasVerifiedPage(m.t, 1) && m.t.users.Keys == {1, 2, 3}
  {
    hide V.Run, V.CreatePage, V.SubmitPage, V.ReviewPage, Run;
    AccountsOpen();
    var t := V.Run(V.EMPTY, ACCOUNTS);
    PageOpens(t);
    var c, s, r := V.ECreatePage(1, 10, true, true, true), V.ESubmitPage(1), V.EReviewPage(10, 9, true, None);
    VP.RunPush(V.EMPTY, ACCOUNTS, c);
    VP.RunPush(V.EMPTY, ACCOUNTS + [c], s);
    VP.RunPush(V.EMPTY, ACCOUNTS + [c] + [s], r);
    LiftedRun(ACCOUNTS + [c] + [s] + [r]);
    events := Lift(ACCOUNTS + [c] + [s] + [r]);
  }

  /** Room 20 on sale, with no booking, job or pending write. */
  ghost predicate OnSale(m: Market) {
    && 20 in m.listings && m.listings[20].status == LVerified
    && m.bookings == map[] && m.holdJobs == {} && m.soldWrites == multiset{} && m.t.users.Keys == {1, 2, 3}
  }

  lemma ListingOpens(m: Market)
    requires m == EMPTY_MARKET.(t := m.t) && HasVerifiedPage(m.t, 1) && m.t.users.Keys == {1, 2, 3}
    ensures var m1 := CreateListing(m, 1, V.Agent, 20, true, true, 0).0;
            var m2 := SubmitListing(m1, 20, 1).0;
            OnSale(ReviewListing(m2, 20, 9, true).0)
  {
  }

  lemma RoomOnSale() returns (events: seq<Event>)
    ensures OnSale(Run(EMPTY_MARKET, events))
  {
    hide Run, CreateListing, SubmitListing, ReviewListing;
    var before := VerifiedOwner();
    var c, s, r := ECreateListing(1, V.Agent, 20, true, true, 0), ESubmitListing(20, 1), EReviewListing(20, 9, true);
    ListingOpens(Run(EMPTY_MARKET, before));
    RunPush(EMPTY_MARKET, before, c);
    RunPush(EMPTY_MARKET, before + [c], s);
    RunPush(EMPTY_MARKET, before + [c] + [s], r);
    events := before + [c] + [s] + [r];
  }

  lemma FirstHold(m: Market)
    requires OnSale(m)
    ensures CreateBooking(m, 2, 20, 100, 30, 0) == (TakeHoldOn(m, 2, 20, 100, 30, 0), V.Ok)
  {
    hide TakeHoldOn;
  }

  /** A hold whose deadline has passed is reachable. */
  lemma ExpiryIsReachable() returns (events: seq<Event>, job: HoldJob, now: int)
    ensures ExpiryDue(Run(EMPTY_MARKET, events), job, now)
  {
    hide Run, CreateBooking, OnSale;
    var before := RoomOnSale();
    var m := Run(EMPTY_MARKET, before);
    assert 20 in m.listings && m.holdJobs == {} by {
      DefinitionOfOnSale(m);
    }
    FirstHold(m);
    RunPush(EMPTY_MARKET, before, ECreateBooking(2, 20, 100, 30, 0));
    events, job, now := before + [ECreateBooking(2, 20, 100, 30, 0)], HoldJob(30, 20), HOLD_DURATION_MS;
  }

  lemma DefinitionOfOnSale(m: Market)
    requires OnSale(m)
    ensures 20 in m.listings && m.holdJobs == {}
  {
  }

  const W := SoldWrite(20, 2)

  /** Booked, confirmed and cancelled again before the second write. */
  ghost predicate WriteOutstanding(m: Market) {
    && 20 in m.listings && m.listings[20].status == LVerified && W in m.soldWrites && m.t.users.Keys == {1, 2, 3}
    && m.bookings.Keys == {30} && m.bookings[30].listingId == 20 && m.bookings[30].status == Cancelled
  }

  lemma ConfirmedThenCancelled(m: Market)
    requires OnSale(m)
    ensures var m2 := ConfirmBooking(TakeHoldOn(m, 2, 20, 100, 30, 0), 30, 2, None, 1).0;
            WriteOutstanding(CancelBooking(m2, 30, 2, 2).0)
  {
  }

  lemma OutstandingWrite() returns (events: seq<Event>)
    ensures WriteOutstanding(Run(EMPTY_MARKET, events))
  {
    hide Run, CreateBooking, ConfirmBooking, CancelBooking, TakeHoldOn, WriteOutstanding;
    var before := RoomOnSale();
    var m := Run(EMPTY_MARKET, before);
    FirstHold(m);
    DefinitionOfOnSale(m);
    ConfirmedThenCancelled(m);
    var h, c, x := ECreateBooking(2, 20, 100, 30, 0), EConfirmBooking(30, 2, None, 1), ECancelBooking(30, 2, 2);
    RunPush(EMPTY_MARKET, before, h);
    RunPush(EMPTY_MARKET, before + [h], c);
    RunPush(EMPTY_MARKET, before + [h] + [c], x);
    events := before + [h] + [c] + [x];
  }

  /** The late write can find a room without any live booking. */
  lemma SaleWithoutBookingIsReachable() returns (events: seq<Event>)
    ensures var m := Run(EMPTY_MARKET, events);
            SaleWithoutBuyer(m, EWriteSold(W), false) && NoLiveBooking(m.bookings, W.listingId)
  {
    hide Run;
    events := OutstandingWrite();
  }

  lemma SecondHold(m: Market)
    requires WriteOutstanding(m)
    ensures CreateBooking(m, 3, 20, 100, 31, 3) == (TakeHoldOn(m, 3, 20, 100, 31, 3), V.Ok)
    ensures var m' := TakeHoldOn(m, 3, 20, 100, 31, 3);
            && SaleWithoutBuyer(m', EWriteSold(W), true) && HasBuyer(m'.bookings, 20, false)
            && 31 in m'.bookings && m'.bookings[31].listingId == 20 && m'.bookings[31].status == Held
  {
    var m' := TakeHoldOn(m, 3, 20, 100, 31, 3);
    assert IsBuyer(m'.bookings[31], 20, false);
  }

  /** Or a room that another student only holds: it becomes SOLD over that hold. */
  lemma SaleOverHoldIsReachable() returns (events: seq<Event>)
    ensures var m := Run(EMPTY_MARKET, events);
            && SaleWithoutBuyer(m, EWriteSold(W), true) && HasBuyer(m.bookings, 20, false)
            && 31 in m.bookings && m.bookings[31].listingId == 20 && m.bookings[31].status == Held
  {
    hide Run, CreateBooking, TakeHoldOn, WriteOutstanding, SaleWithoutBuyer, HasBuyer;
    var before := OutstandingWrite();
    SecondHold(Run(EMPTY_MARKET, before));
    RunPush(EMPTY_MARKET, before, ECreateBooking(3, 20, 100, 31, 3));
    events := before + [ECreateBooking(3, 20, 100, 31, 3)];
  }

  lemma FlaggedHold(m: Market)
    requires OnSale(m)
    ensures var m' := FlagListing(TakeHoldOn(m, 2, 20, 100, 30, 0), 20).0;
            && IsFlagged(m'.listings, 20)
            && CancelsOn(m', EReleaseHold(30), 20)
            && ExpiresOn(m', EExpireHold(HoldJob(30, 20), HOLD_DURATION_MS), 20)
  {
  }

  /** A held room can be FLAGGED; then a release or the end of the hold lifts the flag. */
  lemma FlaggedHoldIsReachable() returns (events: seq<Event>)
    ensures var m := Run(EMPTY_MARKET, events);
            && IsFlagged(m.listings, 20)
            && CancelsOn(m, EReleaseHold(30), 20)
            && ExpiresOn(m, EExpireHold(HoldJob(30, 20), HOLD_DURATION_MS), 20)
  {
    hide Run, CreateBooking, TakeHoldOn, FlagListing, OnSale, CancelsOn, ExpiresOn, IsFlagged;
    var before := RoomOnSale();
    var m := Run(EMPTY_MARKET, before);
    FirstHold(m);
    DefinitionOfOnSale(m);
    FlaggedHold(m);
    var h, f := ECreateBooking(2, 20, 100, 30, 0), EFlagListing(20);
    RunPush(EMPTY_MARKET, before, h);
    RunPush(EMPTY_MARKET, before + [h], f);
    events := before + [h] + [f];
  }

  lemma FlaggedSale(m: Market)
    requires OnSale(m)
    ensures var m2 := ConfirmBooking(TakeHoldOn(m, 2, 20, 100, 30, 0), 30, 2, None, 1).0;
            var m' := FlagListing(m2, 20).0;
            IsFlagged(m'.listings, 20) && SellsOn(m', EWriteSold(W), 20)
  {
  }

  /** A room can be FLAGGED between the two writes of a confirmation; then the second
      one lifts the flag. */
  lemma FlaggedSaleIsReachable() returns (events: seq<Event>)
    ensures var m := Run(EMPTY_MARKET, events);
            IsFlagged(m.listings, 20) && SellsOn(m, EWriteSold(W), 20)
  {
    hide Run, CreateBooking, ConfirmBooking, TakeHoldOn, FlagListing, OnSale, SellsOn, IsFlagged;
    var before := RoomOnSale();
    var m := Run(EMPTY_MARKET, before);
    FirstHold(m);
    DefinitionOfOnSale(m);
    FlaggedSale(m);
    var h, c, f := ECreateBooking(2, 20, 100, 30, 0), EConfirmBooking(30, 2, None, 1), EFlagListing(20);
    RunPush(EMPTY_MARKET, before, h);
    RunPush(EMPTY_MARKET, before + [h], c);
    RunPush(EMPTY_MARKET, before + [h] + [c], f);
    events := before + [h] + [c] + [f];
  }
}
