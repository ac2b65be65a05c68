/**
  What every run of the marketplace keeps: no room is sold twice, every booking
  has a provenance, and rooms that leave the market stay away.
 */
module MarketplaceProofs {
  import opened Wrappers
  import opened BookingStateMachine
  import opened Marketplace
  import TrustScore
  import V = Verification
  import VP = VerificationProofs

  // ---------------------------------------------------------------------------
  // The invariant
  // ---------------------------------------------------------------------------

  /** A booking that still claims its room. */
  predicate Live(b: Booking) {
    b.status != Cancelled
  }

  predicate OffSale(s: ListingStatus) {
    s == LInactive || s == LSold || s == LFlagged
  }

  /** At most one live booking per listing, and only while the listing is off sale. */
  ghost predicate SoldOnce(bookings: map<Id, Booking>, listings: map<Id, Listing>) {
    && (forall b :: b in bookings ==> bookings[b].listingId in listings && bookings[b].status != Available)
    && (forall b :: b in bookings && Live(bookings[b]) ==> OffSale(listings[bookings[b].listingId].status))
    && (forall a, b :: a in bookings && b in bookings && a != b && Live(bookings[a]) && Live(bookings[b]) ==>
          bookings[a].listingId != bookings[b].listingId)
  }

  /** Pending second writes and hold jobs name bookings that exist. */
  ghost predicate JobsOk(bookings: map<Id, Booking>, soldWrites: multiset<SoldWrite>, holdJobs: set<HoldJob>) {
    && (forall w :: w in soldWrites ==> HasBooking(bookings, w.listingId))
    && (forall j :: j in holdJobs ==> j.bookingId in bookings && bookings[j.bookingId].listingId == j.listingId)
  }

  /** Every listing belongs to a verified page of its owner. */
  ghost predicate PagesBehind(listings: map<Id, Listing>, pages: map<Id, V.Page>) {
    forall l :: l in listings ==>
      listings[l].pageId in pages && pages[listings[l].pageId].state == V.PageVerified
      && pages[listings[l].pageId].ownerId == listings[l].ownerId
  }

  ghost predicate Reviewed(audits: seq<V.Audit>, l: Id) {
    exists i :: 0 <= i < |audits| && audits[i].action == V.ListingVerified && audits[i].entityId == l
  }

  predicate OnMarket(s: ListingStatus) {
    s == LVerified || s == LActive || s == LInactive || s == LSold
  }

  /** Listings that were ever offered or booked have passed review. */
  ghost predicate ReviewedFirst(listings: map<Id, Listing>, bookings: map<Id, Booking>, audits: seq<V.Audit>) {
    && (forall l :: l in listings && OnMarket(listings[l].status) ==> Reviewed(audits, l))
    && (forall b :: b in bookings ==> Reviewed(audits, bookings[b].listingId))
  }

  ghost predicate Inv(m: Market) {
    && VP.Inv(m.t)
    && SoldOnce(m.bookings, m.listings)
    && JobsOk(m.bookings, m.soldWrites, m.holdJobs)
    && PagesBehind(m.listings, m.t.pages)
    && ReviewedFirst(m.listings, m.bookings, m.t.audits)
  }

  // ---------------------------------------------------------------------------
  // How each change carries the invariant
  // ---------------------------------------------------------------------------

  ghost predicate NoLiveBooking(bookings: map<Id, Booking>, l: Id) {
    forall b :: b in bookings && bookings[b].listingId == l ==> !Live(bookings[b])
  }

  lemma RowChange(bookings: map<Id, Booking>, listings: map<Id, Listing>, l: Id, row: Listing)
    requires SoldOnce(bookings, listings) && l in listings
    requires OffSale(row.status) || row.status == listings[l].status || NoLiveBooking(bookings, l)
    ensures SoldOnce(bookings, listings[l := row])
  {
  }

  lemma PageOfRow(listings: map<Id, Listing>, pages: map<Id, V.Page>, l: Id, row: Listing)
    requires PagesBehind(listings, pages) && l in listings
    requires row.pageId == listings[l].pageId && row.ownerId == listings[l].ownerId
    ensures PagesBehind(listings[l := row], pages)
  {
  }

  lemma ReviewOfRow(listings: map<Id, Listing>, bookings: map<Id, Booking>, audits: seq<V.Audit>, l: Id, row: Listing)
    requires ReviewedFirst(listings, bookings, audits)
    requires OnMarket(row.status) ==> Reviewed(audits, l)
    ensures ReviewedFirst(listings[l := row], bookings, audits)
  {
  }

  lemma AuditAppend(listings: map<Id, Listing>, bookings: map<Id, Booking>, audits: seq<V.Audit>, a: V.Audit)
    requires ReviewedFirst(listings, bookings, audits)
    ensures ReviewedFirst(listings, bookings, audits + [a])
    ensures a.action == V.ListingVerified ==> Reviewed(audits + [a], a.entityId)
  {
    var audits' := audits + [a];
    forall l | Reviewed(audits, l) ensures Reviewed(audits', l) {
      var i :| 0 <= i < |audits| && audits[i].action == V.ListingVerified && audits[i].entityId == l;
      assert audits'[i] == audits[i];
    }
    assert audits'[|audits|] == a;
  }

  lemma UnpaidCharge(t: V.Tables, userId: Id, kind: TrustScore.EventType, weight: int)
    requires VP.Inv(t)
    ensures VP.Inv(Charged(t, userId, kind, weight))
  {
    VP.UnnamedRow(t.ledger, V.LedgerRow(userId, kind, weight, None), t.pages);
    hide VP.NamedOnce, VP.UsersOk, VP.PagesOk, VP.ProfilesOk, VP.QueueOk, VP.LockPages, VP.LockProfiles;
  }

  /** Changing the status of one listing. */
  lemma StatusKeepsInv(m: Market, l: Id, s: ListingStatus)
    requires Inv(m) && l in m.listings
    requires OffSale(s) || NoLiveBooking(m.bookings, l)
    requires OnMarket(s) ==> Reviewed(m.t.audits, l)
    ensures Inv(m.(listings := SetStatus(m, l, s)))
  {
    var row := m.listings[l].(status := s);
    RowChange(m.bookings, m.listings, l, row);
    PageOfRow(m.listings, m.t.pages, l, row);
    ReviewOfRow(m.listings, m.bookings, m.t.audits, l, row);
    hide VP.Inv, SoldOnce, PagesBehind, ReviewedFirst, JobsOk;
  }

  lemma LoggedKeepsInv(m: Market, actorId: Id, action: V.Action, l: Id)
    requires Inv(m)
    ensures Inv(m.(t := Logged(m.t, actorId, action, l)))
    ensures action == V.ListingVerified ==> Reviewed(Logged(m.t, actorId, action, l).audits, l)
  {
    AuditAppend(m.listings, m.bookings, m.t.audits, V.Audit(actorId, action, l));
    VP.InvIgnoresAudits(m.t, m.t.audits + [V.Audit(actorId, action, l)]);
    hide VP.Inv, SoldOnce, PagesBehind, ReviewedFirst, Reviewed, JobsOk;
  }

  lemma ChargedKeepsInv(m: Market, userId: Id, kind: TrustScore.EventType, weight: int)
    requires Inv(m)
    ensures Inv(m.(t := Charged(m.t, userId, kind, weight)))
  {
    UnpaidCharge(m.t, userId, kind, weight);
    hide VP.Inv, SoldOnce, PagesBehind, ReviewedFirst, JobsOk;
  }

  lemma RecomputeKeepsInv(m: Market, jobs: seq<Id>)
    requires Inv(m)
    ensures Inv(m.(recomputeJobs := jobs))
  {
    hide VP.Inv, SoldOnce, PagesBehind, ReviewedFirst, JobsOk;
  }

  // ---- listings ----

  lemma ListingAdd(m: Market, l: Id, row: Listing)
    requires SoldOnce(m.bookings, m.listings) && PagesBehind(m.listings, m.t.pages) &&
      ReviewedFirst(m.listings, m.bookings, m.t.audits)
    requires l !in m.listings && row.status == LDraft
    requires row.pageId in m.t.pages && m.t.pages[row.pageId].state == V.PageVerified &&
      m.t.pages[row.pageId].ownerId == row.ownerId
    ensures SoldOnce(m.bookings, m.listings[l := row])
    ensures PagesBehind(m.listings[l := row], m.t.pages)
    ensures ReviewedFirst(m.listings[l := row], m.bookings, m.t.audits)
  {
    hide Reviewed;
  }

  lemma CreateListingKeepsInv(m: Market, o: Id, role: V.Role, l: Id, p: bool, d: bool, n: nat)
    requires Inv(m)
    ensures Inv(CreateListing(m, o, role, l, p, d, n).0)
  {
    if CreateListing(m, o, role, l, p, d, n).1 == V.Ok {
      VP.OwnersPage(m.t, o);
      hide VP.Inv, SoldOnce, PagesBehind, ReviewedFirst, JobsOk;
      ListingAdd(m, l, Listing(o, m.t.pageByOwner[o], LDraft, p));
    }
  }

  lemma UpdateListingKeepsInv(m: Market, l: Id, o: Id, p: bool, d: bool)
    requires Inv(m)
    ensures Inv(UpdateListing(m, l, o, p, d).0)
  {
    if UpdateListing(m, l, o, p, d).1 == V.Ok {
      var row := m.listings[l].(presentable := p);
      RowChange(m.bookings, m.listings, l, row);
      PageOfRow(m.listings, m.t.pages, l, row);
      ReviewOfRow(m.listings, m.bookings, m.t.audits, l, row);
      hide VP.Inv, SoldOnce, PagesBehind, ReviewedFirst, JobsOk;
    }
  }

  lemma DeleteListingKeepsInv(m: Market, l: Id, o: Id, flags: bool)
    requires Inv(m)
    ensures Inv(DeleteListing(m, l, o, flags).0)
  {
    hide VP.Inv, Reviewed, JobsOk;
  }

  lemma NotForSaleYet(m: Market, l: Id)
    requires SoldOnce(m.bookings, m.listings) && l in m.listings && !OffSale(m.listings[l].status)
    ensures NoLiveBooking(m.bookings, l)
  {
  }

  lemma SubmitListingKeepsInv(m: Market, l: Id, o: Id)
    requires Inv(m)
    ensures Inv(SubmitListing(m, l, o).0)
  {
    if SubmitListing(m, l, o).1 == V.Ok {
      NotForSaleYet(m, l);
      hide Inv, NoLiveBooking;
      StatusKeepsInv(m, l, LSubmitted);
      LoggedKeepsInv(m.(listings := SetStatus(m, l, LSubmitted)), o, V.ListingSubmitted, l);
    }
  }

  lemma OutcomeKeepsInv(m: Market, l: Id, approved: bool)
    requires Inv(m) && l in m.listings && NoLiveBooking(m.bookings, l)
    requires approved ==> Reviewed(m.t.audits, l)
    ensures Inv(m.(listings := SetStatus(m, l, if approved then LVerified else LRejected)))
  {
    hide Inv, NoLiveBooking, Reviewed;
    StatusKeepsInv(m, l, if approved then LVerified else LRejected);
  }

  lemma ReviewListingKeepsInv(m: Market, l: Id, admin: Id, approved: bool)
    requires Inv(m)
    ensures Inv(ReviewListing(m, l, admin, approved).0)
  {
    if ReviewListing(m, l, admin, approved).1 == V.Ok {
      NotForSaleYet(m, l);
      hide Inv, NoLiveBooking, Reviewed, Logged;
      LoggedKeepsInv(m, admin, if approved then V.ListingVerified else V.ListingRejected, l);
      OutcomeKeepsInv(m.(t := Logged(m.t, admin, if approved then V.ListingVerified else V.ListingRejected, l)), l,
                      approved);
    }
  }

  lemma FlagListingKeepsInv(m: Market, l: Id)
    requires Inv(m)
    ensures Inv(FlagListing(m, l).0)
  {
    hide Inv;
    if l in m.listings {
      StatusKeepsInv(m, l, LFlagged);
    }
  }

  lemma ReportsKeepInv(m: Market, reports: map<Id, Report>)
    requires Inv(m)
    ensures Inv(m.(reports := reports))
  {
    hide VP.Inv, SoldOnce, PagesBehind, ReviewedFirst, JobsOk;
  }

  lemma ChargesKeepInv(m: Market, charges: multiset<Id>)
    requires Inv(m)
    ensures Inv(m.(charges := charges))
  {
    hide VP.Inv, SoldOnce, PagesBehind, ReviewedFirst, JobsOk;
  }

  lemma FileReportKeepsInv(m: Market, r: Id, o: Id, u: Option<Id>, l: Option<Id>)
    requires Inv(m)
    ensures Inv(FileReport(m, r, o, u, l).0)
  {
    hide Inv;
    if FileReport(m, r, o, u, l).1 == V.Ok {
      ReportsKeepInv(m, m.reports[r := Report(o, u, l, ReportPending)]);
      ChargesKeepInv(m.(reports := m.reports[r := Report(o, u, l, ReportPending)]), m.charges + multiset{o});
    }
  }

  lemma ChargeReporterKeepsInv(m: Market, u: Id)
    requires Inv(m)
    ensures Inv(ChargeReporter(m, u))
  {
    hide Inv, Charged;
    if u in m.charges {
      ChargesKeepInv(m, m.charges - multiset{u});
      ChargedKeepsInv(m.(charges := m.charges - multiset{u}), u, TrustScore.FraudReportConfirmed, -10);
    }
  }

  lemma ConfirmFraudKeepsInv(m: Market, u: Option<Id>, l: Option<Id>)
    requires Inv(m) && TargetsExist(m, u, l)
    ensures Inv(ConfirmFraud(m, u, l))
  {
    hide Inv;
    var m1 := m;
    if l.Some? {
      FlagListingKeepsInv(m, l.value);
      m1 := FlagListing(m, l.value).0;
    }
    if u.Some? {
      ChargedKeepsInv(m1, u.value, TrustScore.FraudReportConfirmed, -60);
      RecomputeKeepsInv(m1.(t := Charged(m1.t, u.value, TrustScore.FraudReportConfirmed, -60)),
                        m.recomputeJobs + [u.value]);
    }
  }

  lemma ResolveReportKeepsInv(m: Market, r: Id, confirmed: bool)
    requires Inv(m)
    ensures Inv(ResolveReport(m, r, confirmed).0)
  {
    hide Inv, ConfirmFraud;
    if ResolveReport(m, r, confirmed).1 == V.Ok {
      var row := m.reports[r];
      var reports := m.reports[r := row.(status := if confirmed then ReportConfirmed else ReportDismissed)];
      ReportsKeepInv(m, reports);
      if confirmed {
        ConfirmFraudKeepsInv(m.(reports := reports), row.targetUser, row.targetListing);
      }
    }
  }

  // ---- bookings ----

  /** A room on sale has no live booking, so a hold can be taken on it. */
  lemma NewBooking(bookings: map<Id, Booking>, listings: map<Id, Listing>, b: Id, row: Booking, listing: Listing)
    requires SoldOnce(bookings, listings) && b !in bookings && row.status == Held && row.listingId in listings
    requires NoLiveBooking(bookings, row.listingId) && OffSale(listing.status)
    ensures SoldOnce(bookings[b := row], listings[row.listingId := listing])
  {
  }

  lemma JobsAfterBooking(m: Market, b: Id, row: Booking)
    requires JobsOk(m.bookings, m.soldWrites, m.holdJobs) &&
      (b in m.bookings ==> m.bookings[b].listingId == row.listingId)
    ensures JobsOk(m.bookings[b := row], m.soldWrites, m.holdJobs)
    ensures JobsOk(m.bookings[b := row], m.soldWrites, m.holdJobs + {HoldJob(b, row.listingId)})
    ensures forall s :: JobsOk(m.bookings[b := row], m.soldWrites + multiset{SoldWrite(row.listingId, s)}, m.holdJobs)
  {
    forall l | HasBooking(m.bookings, l) ensures HasBooking(m.bookings[b := row], l) {
      var a :| a in m.bookings && m.bookings[a].listingId == l;
      assert a in m.bookings[b := row] && m.bookings[b := row][a].listingId == l;
    }
    assert m.bookings[b := row][b].listingId == row.listingId;
    assert HasBooking(m.bookings[b := row], row.listingId);
  }

  lemma TakeHoldKeepsInv(m: Market, s: Id, l: Id, d: int, b: Id, now: int)
    requires Inv(m) && l in m.listings && m.listings[l].status == LVerified && b !in m.bookings
    ensures Inv(TakeHoldOn(m, s, l, d, b, now))
  {
    NotForSaleYet(m, l);
    var row := Booking(l, s, Held, d, Some(now + HOLD_DURATION_MS), None, None, None);
    var listing := m.listings[l].(status := LInactive);
    assert Reviewed(m.t.audits, l);
    hide VP.Inv, SoldOnce, PagesBehind, ReviewedFirst, JobsOk, NoLiveBooking, Reviewed;
    NewBooking(m.bookings, m.listings, b, row, listing);
    PageOfRow(m.listings, m.t.pages, l, listing);
    ReviewOfRow(m.listings, m.bookings, m.t.audits, l, listing);
    ReviewOfBooking(SetStatus(m, l, LInactive), m.bookings, m.t.audits, b, row);
    JobsAfterBooking(m, b, row);
  }

  lemma ReviewOfBooking(listings: map<Id, Listing>, bookings: map<Id, Booking>, audits: seq<V.Audit>, b: Id,
                        row: Booking)
    requires ReviewedFirst(listings, bookings, audits) && Reviewed(audits, row.listingId)
    ensures ReviewedFirst(listings, bookings[b := row], audits)
  {
  }

  lemma CreateBookingKeepsInv(m: Market, s: Id, l: Id, d: int, b: Id, now: int)
    requires Inv(m)
    ensures Inv(CreateBooking(m, s, l, d, b, now).0)
  {
    hide Inv, TakeHoldOn, HasActiveBooking;
    if CreateBooking(m, s, l, d, b, now).1 == V.Ok {
      TakeHoldKeepsInv(m, s, l, d, b, now);
    }
  }

  /** A booking row may change while it stays live or stops being so. */
  lemma BookingChange(bookings: map<Id, Booking>, listings: map<Id, Listing>, b: Id, row: Booking)
    requires SoldOnce(bookings, listings) && b in bookings
    requires row.listingId == bookings[b].listingId && row.status != Available
    requires Live(row) ==> Live(bookings[b])
    ensures SoldOnce(bookings[b := row], listings)
    ensures !Live(row) && Live(bookings[b]) ==> NoLiveBooking(bookings[b := row], row.listingId)
  {
  }

  lemma BookingKeepsInv(m: Market, b: Id, row: Booking)
    requires Inv(m) && b in m.bookings
    requires row.listingId == m.bookings[b].listingId && row.status != Available
    requires Live(row) ==> Live(m.bookings[b])
    ensures Inv(m.(bookings := m.bookings[b := row]))
    ensures Inv(m.(bookings := m.bookings[b := row],
                   soldWrites := m.soldWrites + multiset{SoldWrite(row.listingId, row.studentId)}))
    ensures !Live(row) && Live(m.bookings[b]) ==> NoLiveBooking(m.bookings[b := row], row.listingId)
    ensures row.listingId in m.listings && Reviewed(m.t.audits, row.listingId)
  {
    assert row.listingId in m.listings && Reviewed(m.t.audits, row.listingId);
    BookingChange(m.bookings, m.listings, b, row);
    JobsAfterBooking(m, b, row);
    ReviewOfBooking(m.listings, m.bookings, m.t.audits, b, row);
    hide VP.Inv, SoldOnce, PagesBehind, ReviewedFirst, JobsOk, NoLiveBooking, Reviewed;
  }

  lemma ConfirmBookingKeepsInv(m: Market, b: Id, s: Id, d: Option<int>, now: int)
    requires Inv(m)
    ensures Inv(ConfirmBooking(m, b, s, d, now).0)
  {
    hide Inv, NoLiveBooking, Reviewed;
    if ConfirmBooking(m, b, s, d, now).1 == V.Ok {
      StatusInRange(m, b);
      var row := ConfirmBooking(m, b, s, d, now).0.bookings[b];
      BookingKeepsInv(m, b, row);
    }
  }

  lemma StatusInRange(m: Market, b: Id)
    requires Inv(m) && b in m.bookings
    ensures m.bookings[b].status != Available
  {
  }

  lemma SoldWriteTarget(m: Market, w: SoldWrite)
    requires Inv(m) && w in m.soldWrites
    ensures w.listingId in m.listings && Reviewed(m.t.audits, w.listingId)
  {
    assert HasBooking(m.bookings, w.listingId);
  }

  lemma SoldWriteDone(bookings: map<Id, Booking>, soldWrites: multiset<SoldWrite>, holdJobs: set<HoldJob>, w: SoldWrite)
    requires JobsOk(bookings, soldWrites, holdJobs)
    ensures JobsOk(bookings, soldWrites - multiset{w}, holdJobs)
  {
  }

  lemma WriteSoldKeepsInv(m: Market, w: SoldWrite)
    requires Inv(m)
    ensures Inv(WriteSold(m, w))
  {
    if w in m.soldWrites && w.listingId in m.listings {
      SoldWriteTarget(m, w);
      SoldWriteDone(m.bookings, m.soldWrites, m.holdJobs, w);
      StatusKeepsInv(m, w.listingId, LSold);
      hide VP.Inv, SoldOnce, PagesBehind, ReviewedFirst, JobsOk, NoLiveBooking, Reviewed;
    }
  }

  /** Cancelling the live booking of a room and giving the room a new status. */
  lemma CancellingKeepsInv(m: Market, b: Id, row: Booking, s: ListingStatus)
    requires Inv(m) && b in m.bookings && Live(m.bookings[b]) && row.status == Cancelled
    requires row.listingId == m.bookings[b].listingId && m.bookings[b].listingId in m.listings
    ensures Inv(Cancelling(m, b, row, s))
  {
    hide Inv, NoLiveBooking, Reviewed;
    BookingKeepsInv(m, b, row);
    StatusKeepsInv(m.(bookings := m.bookings[b := row]), row.listingId, s);
  }

  lemma ReleaseHoldKeepsInv(m: Market, b: Id)
    requires Inv(m)
    ensures Inv(ReleaseHold(m, b).0)
  {
    hide Inv, Cancelling;
    if b in m.bookings && m.bookings[b].status == Held && m.bookings[b].listingId in m.listings {
      CancellingKeepsInv(m, b, m.bookings[b].(status := Cancelled), LVerified);
    }
  }

  lemma CancelBookingKeepsInv(m: Market, b: Id, s: Id, now: int)
    requires Inv(m)
    ensures Inv(CancelBooking(m, b, s, now).0)
  {
    hide Inv, Cancelling;
    if CancelBooking(m, b, s, now).1 == V.Ok {
      CancellingKeepsInv(m, b, m.bookings[b].(status := Cancelled, cancelledAt := Some(now)), LVerified);
    }
  }

  lemma SettleKeepsInv(m: Market, b: Id, row: Booking, kind: TrustScore.EventType, sw: int, ow: int)
    requires Inv(m) && b in m.bookings && row.listingId == m.bookings[b].listingId
    requires Live(m.bookings[b]) && row.status != Available
    ensures Inv(Settle(m, b, row, kind, sw, ow))
  {
    hide Inv, NoLiveBooking, Reviewed, Charged;
    BookingKeepsInv(m, b, row);
    var m1 := m.(bookings := m.bookings[b := row]);
    ChargedKeepsInv(m1, row.studentId, kind, sw);
    var m2 := m1.(t := Charged(m1.t, row.studentId, kind, sw));
    var owner := m.listings[row.listingId].ownerId;
    ChargedKeepsInv(m2, owner, kind, ow);
    RecomputeKeepsInv(m2.(t := Charged(m2.t, owner, kind, ow)), m.recomputeJobs + [owner, row.studentId]);
  }

  lemma CompleteBookingKeepsInv(m: Market, b: Id, s: Id, now: int)
    requires Inv(m)
    ensures Inv(CompleteBooking(m, b, s, now).0)
  {
    hide Inv, Settle;
    if CompleteBooking(m, b, s, now).1 == V.Ok {
      SettleKeepsInv(m, b, m.bookings[b].(status := Completed, completedAt := Some(now)), TrustScore.BookingCompleted,
                     5, 10);
    }
  }

  lemma DisputeBookingKeepsInv(m: Market, b: Id, s: Id)
    requires Inv(m)
    ensures Inv(DisputeBooking(m, b, s).0)
  {
    hide Inv, Settle;
    if DisputeBooking(m, b, s).1 == V.Ok {
      SettleKeepsInv(m, b, m.bookings[b].(status := Disputed, holdExpiresAt := None), TrustScore.DisputeResolvedAgainst,
                     -5, -30);
    }
  }

  /** The job's own listing id is the booking's. */
  lemma JobTarget(m: Market, job: HoldJob)
    requires Inv(m) && job in m.holdJobs
    ensures job.bookingId in m.bookings && m.bookings[job.bookingId].listingId == job.listingId &&
      job.listingId in m.listings
  {
  }

  lemma ExpireHoldKeepsInv(m: Market, job: HoldJob, now: int)
    requires Inv(m)
    ensures Inv(ExpireHold(m, job, now))
  {
    hide Inv;
    if job in m.holdJobs {
      JobTarget(m, job);
      if m.bookings[job.bookingId].status == Held {
        ExpiryKeepsInv(m, job.bookingId);
      }
    }
  }

  lemma ExpiryKeepsInv(m: Market, b: Id)
    requires Inv(m) && b in m.bookings && m.bookings[b].status == Held && m.bookings[b].listingId in m.listings
    ensures Inv(m.(bookings := m.bookings[b := m.bookings[b].(status := Cancelled)],
                   listings := SetStatus(m, m.bookings[b].listingId, LActive)))
  {
    hide Inv;
    CancellingKeepsInv(m, b, m.bookings[b].(status := Cancelled), LActive);
  }

  lemma VerificationStepKeepsInv(m: Market, e: V.Event)
    requires Inv(m)
    ensures Inv(m.(t := V.Step(m.t, e)))
  {
    VP.StepKeepsInv(m.t, e);
    AuditsGrow(m.t, e);
    forall p | p in m.t.pages && m.t.pages[p].state == V.PageVerified
      ensures VP.PageKept(m.t, V.Step(m.t, e), p)
    {
      VP.VerifiedPageStays(m.t, e, p);
    }
    hide V.Step, VP.Inv, SoldOnce, JobsOk;
    PagesFrame(m.listings, m.t.pages, V.Step(m.t, e).pages);
    AuditsFrame(m.listings, m.bookings, m.t.audits, V.Step(m.t, e).audits);
  }

  lemma PagesFrame(listings: map<Id, Listing>, pages: map<Id, V.Page>, pages': map<Id, V.Page>)
    requires PagesBehind(listings, pages)
    requires forall p :: p in pages && pages[p].state == V.PageVerified ==> p in pages' && pages'[p] == pages[p]
    ensures PagesBehind(listings, pages')
  {
  }

  lemma AuditsFrame(listings: map<Id, Listing>, bookings: map<Id, Booking>, audits: seq<V.Audit>, audits': seq<V.Audit>)
    requires ReviewedFirst(listings, bookings, audits) && audits <= audits'
    ensures ReviewedFirst(listings, bookings, audits')
  {
    forall l | Reviewed(audits, l) ensures Reviewed(audits', l) {
      var i :| 0 <= i < |audits| && audits[i].action == V.ListingVerified && audits[i].entityId == l;
      assert audits'[i] == audits[i];
    }
  }

  lemma AuditsGrow(t: V.Tables, e: V.Event)
    ensures t.audits <= V.Step(t, e).audits
  {
    if e.EReviewPage? {
      PageReviewAudits(t, e.pageId, e.adminId, e.approved, e.reason);
      hide V.ReviewPage;
    } else if e.EReviewSubmission? {
      SubmissionReviewAudits(t, e.submissionId, e.adminId, e.approved, e.reason, e.newUserId);
      hide V.ReviewSubmission;
    } else {
      hide V.ReviewPage, V.ReviewSubmission;
    }
  }

  lemma PageReviewAudits(t: V.Tables, p: Id, admin: Id, approved: bool, reason: Option<string>)
    ensures t.audits <= V.ReviewPage(t, p, admin, approved, reason).0.audits
  {
    hide V.NewestPending, V.Settled, V.ReviewedPage;
  }

  lemma SubmissionReviewAudits(t: V.Tables, i: nat, admin: Id, approved: bool, reason: Option<string>, newUserId: Id)
    ensures t.audits <= V.ReviewSubmission(t, i, admin, approved, reason, newUserId).0.audits
  {
    hide V.CanAttach, V.Settled, V.ReviewedPage, V.AccountFor;
  }

  // ---------------------------------------------------------------------------
  // What single requests leave
  // ---------------------------------------------------------------------------

  /** No live booking on room l but possibly b. */
  ghost predicate OnlyLive(bookings: map<Id, Booking>, l: Id, b: Id) {
    forall a :: a in bookings && bookings[a].listingId == l && Live(bookings[a]) ==> a == b
  }

  lemma LiveIsAlone(m: Market, b: Id)
    requires Inv(m) && b in m.bookings && Live(m.bookings[b])
    ensures OnlyLive(m.bookings, m.bookings[b].listingId, b)
    ensures m.bookings[b].listingId in m.listings && OffSale(m.listings[m.bookings[b].listingId].status)
  {
    hide VP.Inv, PagesBehind, ReviewedFirst, JobsOk;
  }

  lemma RequestedBooking(m: Market, s: Id, l: Id, d: int, b: Id, now: int)
    requires CreateBooking(m, s, l, d, b, now).1 == V.Ok
    ensures var m' := CreateBooking(m, s, l, d, b, now).0;
            && l in m'.listings && m'.listings[l].status == LInactive
            && b in m'.bookings && m'.bookings[b].listingId == l && m'.bookings[b].status == Held
  {
    hide HasActiveBooking;
  }

  /** A granted request leaves its own hold as the only live booking of the room. */
  lemma RequestOutcome(m: Market, s: Id, l: Id, d: int, b: Id, now: int)
    requires Inv(m)
    ensures var (m', r) := CreateBooking(m, s, l, d, b, now);
            && Inv(m')
            && (r == V.Ok ==>
                  && l in m'.listings && m'.listings[l].status == LInactive
                  && b in m'.bookings && m'.bookings[b].status == Held && OnlyLive(m'.bookings, l, b))
  {
    hide Inv, CreateBooking, OnlyLive;
    CreateBookingKeepsInv(m, s, l, d, b, now);
    var (m', r) := CreateBooking(m, s, l, d, b, now);
    if r == V.Ok {
      RequestedBooking(m, s, l, d, b, now);
      LiveIsAlone(m', b);
    }
  }

  lemma CancelledRoom(m: Market, b: Id, s: Id, now: int)
    requires CancelBooking(m, b, s, now).1 == V.Ok
    ensures var m' := CancelBooking(m, b, s, now).0;
            && b in m.bookings && Live(m.bookings[b]) && m.bookings[b].listingId in m.listings
            && m'.bookings == m.bookings[b := m'.bookings[b]] && m'.bookings[b].status == Cancelled
            && m'.bookings[b].listingId == m.bookings[b].listingId
            && m.bookings[b].listingId in m'.listings && m'.listings[m.bookings[b].listingId].status == LVerified
  {
  }

  /** A cancelled booking leaves its room on sale, with no live booking. */
  lemma CancelOutcome(m: Market, b: Id, s: Id, now: int)
    requires Inv(m)
    ensures var (m', r) := CancelBooking(m, b, s, now);
            && Inv(m')
            && (r == V.Ok ==>
                  && b in m'.bookings && m'.bookings[b].status == Cancelled
                  && m'.bookings[b].listingId in m'.listings
                  && m'.listings[m'.bookings[b].listingId].status == LVerified
                  && NoLiveBooking(m'.bookings, m'.bookings[b].listingId))
  {
    hide Inv, CancelBooking;
    CancelBookingKeepsInv(m, b, s, now);
    if CancelBooking(m, b, s, now).1 == V.Ok {
      CancelledRoom(m, b, s, now);
      LiveIsAlone(m, b);
    }
  }

  lemma ConfirmedBooking(m: Market, b: Id, s: Id, d: Option<int>, now: int)
    requires ConfirmBooking(m, b, s, d, now).1 == V.Ok
    ensures var m' := ConfirmBooking(m, b, s, d, now).0;
            b in m'.bookings && m'.bookings[b].status == Booked && m'.bookings[b].studentId == s
  {
  }

  /** A confirmed booking is the only live one of its room. */
  lemma ConfirmOutcome(m: Market, b: Id, s: Id, d: Option<int>, now: int)
    requires Inv(m)
    ensures var (m', r) := ConfirmBooking(m, b, s, d, now);
            && Inv(m')
            && (r == V.Ok ==>
                  && b in m'.bookings && m'.bookings[b].status == Booked && m'.bookings[b].studentId == s
                  && OnlyLive(m'.bookings, m'.bookings[b].listingId, b))
  {
    hide Inv, ConfirmBooking, OnlyLive;
    ConfirmBookingKeepsInv(m, b, s, d, now);
    if ConfirmBooking(m, b, s, d, now).1 == V.Ok {
      ConfirmedBooking(m, b, s, d, now);
      LiveIsAlone(ConfirmBooking(m, b, s, d, now).0, b);
    }
  }

  // ---------------------------------------------------------------------------
  // Over all runs
  // ---------------------------------------------------------------------------

  lemma StepKeepsInv(m: Market, e: Event)
    requires Inv(m)
    ensures Inv(Step(m, e))
  {
    hide Inv, CreateListing, UpdateListing, DeleteListing, SubmitListing, ReviewListing, FlagListing, FileReport,
      ResolveReport, CreateBooking, ConfirmBooking, WriteSold, ReleaseHold, CancelBooking, CompleteBooking,
      DisputeBooking, ExpireHold;
    match e
    case EVerification(v) => VerificationStepKeepsInv(m, v);
    case ECreateListing(o, role, l, p, d, n) => CreateListingKeepsInv(m, o, role, l, p, d, n);
    case EUpdateListing(l, o, p, d) => UpdateListingKeepsInv(m, l, o, p, d);
    case EDeleteListing(l, o, f) => DeleteListingKeepsInv(m, l, o, f);
    case ESubmitListing(l, o) => SubmitListingKeepsInv(m, l, o);
    case EReviewListing(l, a, ok) => ReviewListingKeepsInv(m, l, a, ok);
    case EFlagListing(l) => FlagListingKeepsInv(m, l);
    case EFileReport(r, o, u, l) => FileReportKeepsInv(m, r, o, u, l);
    case EChargeReporter(u) => ChargeReporterKeepsInv(m, u);
    case EResolveReport(r, c) => ResolveReportKeepsInv(m, r, c);
    case ECreateBooking(s, l, d, b, now) => CreateBookingKeepsInv(m, s, l, d, b, now);
    case EConfirmBooking(b, s, d, now) => ConfirmBookingKeepsInv(m, b, s, d, now);
    case EWriteSold(w) => WriteSoldKeepsInv(m, w);
    case EReleaseHold(b) => ReleaseHoldKeepsInv(m, b);
    case ECancelBooking(b, s, now) => CancelBookingKeepsInv(m, b, s, now);
    case ECompleteBooking(b, s, now) => CompleteBookingKeepsInv(m, b, s, now);
    case EDisputeBooking(b, s) => DisputeBookingKeepsInv(m, b, s);
    case EExpireHold(job, now) => ExpireHoldKeepsInv(m, job, now);
  }

  lemma EmptyMarketInv()
    ensures Inv(EMPTY_MARKET)
  {
    VP.RunKeepsInv([]);
    assert V.Run(V.EMPTY, []) == V.EMPTY;
  }

  lemma {:induction false} RunKeepsInv(m: Market, events: seq<Event>)
    requires Inv(m)
    ensures Inv(Run(m, events))
  {
    hide Inv, Step;
    if |events| > 0 {
      RunKeepsInv(m, events[..|events| - 1]);
      StepKeepsInv(Run(m, events[..|events| - 1]), events[|events| - 1]);
    }
  }

  /** In every reachable state a listing has at most one booking that is not
      cancelled, and has one only while it is INACTIVE, SOLD or FLAGGED; whatever
      ran between the two writes of a confirmation. */
  lemma NoDoubleSelling(events: seq<Event>)
    ensures var m := Run(EMPTY_MARKET, events);
            && (forall b :: b in m.bookings && Live(m.bookings[b]) ==>
                  m.bookings[b].listingId in m.listings && OffSale(m.listings[m.bookings[b].listingId].status))
            && (forall a, b ::
                  a in m.bookings && b in m.bookings && a != b && Live(m.bookings[a]) && Live(m.bookings[b]) ==>
                  m.bookings[a].listingId != m.bookings[b].listingId)
  {
    EmptyMarketInv();
    RunKeepsInv(EMPTY_MARKET, events);
    hide Run, VP.Inv, PagesBehind, ReviewedFirst, JobsOk;
  }

  /** Every booking is for a listing that passed review and whose page is verified
      and belongs to the listing's owner. */
  lemma BookingProvenance(events: seq<Event>, b: Id)
    requires b in Run(EMPTY_MARKET, events).bookings
    ensures var m := Run(EMPTY_MARKET, events);
            var l := m.bookings[b].listingId;
            && l in m.listings
            && Reviewed(m.t.audits, l)
            && m.listings[l].pageId in m.t.pages
            && m.t.pages[m.listings[l].pageId].state == V.PageVerified
            && m.t.pages[m.listings[l].pageId].ownerId == m.listings[l].ownerId
  {
    EmptyMarketInv();
    RunKeepsInv(EMPTY_MARKET, events);
    hide Run, VP.Inv, JobsOk, Reviewed;
  }

  /** The search for an existing hold or booking never refuses a room that is on
      sale: dropping it changes nothing in any reachable state. */
  lemma ExistingBookingCheckIsRedundant(events: seq<Event>, s: Id, l: Id, d: int, b: Id, now: int)
    ensures var m := Run(EMPTY_MARKET, events);
            l in m.listings && m.listings[l].status == LVerified ==>
              && !HasActiveBooking(m, l)
              && (b !in m.bookings && s in m.t.users ==>
                    CreateBooking(m, s, l, d, b, now) == (TakeHoldOn(m, s, l, d, b, now), V.Ok))
  {
    hide Run, Inv, TakeHoldOn;
    EmptyMarketInv();
    RunKeepsInv(EMPTY_MARKET, events);
    var m := Run(EMPTY_MARKET, events);
    if l in m.listings && m.listings[l].status == LVerified {
      NothingActiveOnSale(m, l);
    }
  }

  lemma NothingActiveOnSale(m: Market, l: Id)
    requires Inv(m) && l in m.listings && m.listings[l].status == LVerified
    ensures !HasActiveBooking(m, l)
  {
    NotForSaleYet(m, l);
  }
}
