/**
  What a decision leaves behind, over every run: the newest queue row of a page or
  profile records its state, its reviewer and the reason given; the audit log counts
  every decision of every admin; and the ledger names exactly the owners of verified
  pages.
 */
module ReviewOutcomes {
  import opened Wrappers
  import opened Counting
  import opened TrustScore
  import opened Verification
  import opened VerificationProofs

  // ---------------------------------------------------------------------------
  // The newest row
  // ---------------------------------------------------------------------------

  /** The newest row about a page or profile. */
  function Newest(queue: seq<QueueRow>, e: Entity): Option<QueueRow> {
    if |queue| == 0 then None
    else if queue[|queue| - 1].entity == e then Some(queue[|queue| - 1])
    else Newest(queue[..|queue| - 1], e)
  }

  function ApprovedFor(e: Entity): QueueRow -> bool {
    (row: QueueRow) => row.entity == e && row.status == Approved
  }

  lemma NewestAppend(queue: seq<QueueRow>, row: QueueRow, e: Entity)
    ensures Newest(queue + [row], e) == if row.entity == e then Some(row) else Newest(queue, e)
  {
    assert (queue + [row])[..|queue|] == queue;
  }

  lemma {:induction false} NewestOfOthers(queue: seq<QueueRow>, i: nat, row: QueueRow, e: Entity)
    requires i < |queue| && row.entity == queue[i].entity != e
    ensures Newest(queue[i := row], e) == Newest(queue, e)
  {
    var init := queue[..|queue| - 1];
    if i == |queue| - 1 {
      assert queue[i := row][..|queue| - 1] == init;
    } else {
      NewestOfOthers(init, i, row, e);
      assert queue[i := row][..|queue| - 1] == init[i := row];
    }
  }

  /** The only pending row of an entity is its newest one, if that one is pending. */
  lemma {:induction false} SettlingNewest(queue: seq<QueueRow>, i: nat, row: QueueRow, e: Entity)
    requires i < |queue| && PendingFor(queue[i], e) && row.entity == e && PendingCount(queue, e) == 1
    requires Newest(queue, e).Some? && Newest(queue, e).value.status == Pending
    ensures Newest(queue[i := row], e) == Some(row)
  {
    var last := |queue| - 1;
    var init := queue[..last];
    if i < last {
      PendingPositive(init, i, e);
      assert queue[last].entity != e;
      SettlingNewest(init, i, row, e);
      assert queue[i := row][..last] == init[i := row];
    }
  }

  lemma {:induction false} NewestOfNone(queue: seq<QueueRow>, e: Entity)
    requires forall i :: 0 <= i < |queue| ==> queue[i].entity != e
    ensures Newest(queue, e) == None
  {
    if |queue| > 0 {
      NewestOfNone(queue[..|queue| - 1], e);
    }
  }

  // ---------------------------------------------------------------------------
  // Records
  // ---------------------------------------------------------------------------

  /** What the newest row of a page says about it. */
  predicate PageRecord(page: Page, newest: Option<QueueRow>, approvals: nat) {
    match page.state
    case PageDraft =>
      && (newest.Some? ==> newest.value.status == Rejected)
      && page.verifiedBy == None && page.notes == None && approvals == 0
    case PageSubmitted =>
      && newest.Some? && newest.value.status == Pending && page.complete
      && page.verifiedBy == None && page.notes == None && approvals == 0
    case PageVerified =>
      && newest.Some? && newest.value.status == Approved && page.complete && approvals == 1
      && page.verifiedBy.Some? && page.verifiedBy == newest.value.reviewedBy
      && page.notes == newest.value.reviewNotes && newest.value.rejectionReason == None
    case PageRejected =>
      && newest.Some? && newest.value.status == Rejected && page.complete && approvals == 0
      && page.verifiedBy == None && newest.value.reviewedBy.Some?
      && page.notes.Some? && page.notes == newest.value.reviewNotes == newest.value.rejectionReason
  }

  /** What the newest row of a profile says about it. */
  predicate ProfileRecord(profile: Profile, newest: Option<QueueRow>, approvals: nat) {
    && newest.Some? && newest.value.status == profile.status
    && profile.reviewedBy == newest.value.reviewedBy && profile.rejectionReason == newest.value.rejectionReason
    && (profile.status == Pending <==> profile.reviewedBy == None)
    && (profile.status == Rejected <==> profile.rejectionReason.Some?)
    && approvals == if profile.status == Approved then 1 else 0
  }

  predicate PageRecorded(queue: seq<QueueRow>, pages: map<Id, Page>, p: Id)
    requires p in pages
  {
    PageRecord(pages[p], Newest(queue, PageEntity(p)), CountIf(queue, ApprovedFor(PageEntity(p))))
  }

  predicate ProfileRecorded(queue: seq<QueueRow>, profiles: map<Id, Profile>, f: Id)
    requires f in profiles
  {
    ProfileRecord(profiles[f], Newest(queue, ProfileEntity(f)), CountIf(queue, ApprovedFor(ProfileEntity(f))))
  }

  ghost predicate Records(queue: seq<QueueRow>, pages: map<Id, Page>, profiles: map<Id, Profile>) {
    && (forall p :: p in pages ==> PageRecorded(queue, pages, p))
    && (forall f :: f in profiles ==> ProfileRecorded(queue, profiles, f))
  }

  /** Nothing changes for the rows of other entities. */
  ghost predicate OnlyAbout(queue: seq<QueueRow>, queue': seq<QueueRow>, e: Entity) {
    forall e' :: e' != e ==>
      Newest(queue', e') == Newest(queue, e') && CountIf(queue', ApprovedFor(e')) == CountIf(queue, ApprovedFor(e'))
  }

  lemma PageMoves(queue: seq<QueueRow>, queue': seq<QueueRow>, pages: map<Id, Page>, profiles: map<Id, Profile>, p: Id,
                  page: Page)
    requires Records(queue, pages, profiles) && OnlyAbout(queue, queue', PageEntity(p))
    requires PageRecord(page, Newest(queue', PageEntity(p)), CountIf(queue', ApprovedFor(PageEntity(p))))
    ensures Records(queue', pages[p := page], profiles)
  {
    hide Newest, CountIf, ApprovedFor, PageRecord, ProfileRecord;
    var pages' := pages[p := page];
    forall q | q in pages' ensures PageRecorded(queue', pages', q) {
      if q != p {
        assert PageRecorded(queue, pages, q);
      }
    }
    forall f | f in profiles ensures ProfileRecorded(queue', profiles, f) {
      assert ProfileRecorded(queue, profiles, f);
    }
  }

  lemma ProfileMoves(queue: seq<QueueRow>, queue': seq<QueueRow>, pages: map<Id, Page>, profiles: map<Id, Profile>,
                     f: Id, profile: Profile)
    requires Records(queue, pages, profiles) && OnlyAbout(queue, queue', ProfileEntity(f))
    requires ProfileRecord(profile, Newest(queue', ProfileEntity(f)), CountIf(queue', ApprovedFor(ProfileEntity(f))))
    ensures Records(queue', pages, profiles[f := profile])
  {
    hide Newest, CountIf, ApprovedFor, PageRecord, ProfileRecord;
    var profiles' := profiles[f := profile];
    forall g | g in profiles' ensures ProfileRecorded(queue', profiles', g) {
      if g != f {
        assert ProfileRecorded(queue, profiles, g);
      }
    }
    forall q | q in pages ensures PageRecorded(queue', pages, q) {
      assert PageRecorded(queue, pages, q);
    }
  }

  lemma AppendingRow(queue: seq<QueueRow>, row: QueueRow)
    requires row.status == Pending
    ensures OnlyAbout(queue, queue + [row], row.entity)
    ensures Newest(queue + [row], row.entity) == Some(row)
    ensures CountIf(queue + [row], ApprovedFor(row.entity)) == CountIf(queue, ApprovedFor(row.entity))
  {
    hide Newest, CountIf;
    forall e
      ensures Newest(queue + [row], e) == if row.entity == e then Some(row) else Newest(queue, e)
      ensures CountIf(queue + [row], ApprovedFor(e)) == CountIf(queue, ApprovedFor(e))
    {
      NewestAppend(queue, row, e);
      CountAppend(queue, row, ApprovedFor(e));
    }
  }

  lemma SettlingRow(queue: seq<QueueRow>, i: nat, row: QueueRow, e: Entity)
    requires i < |queue| && PendingFor(queue[i], e) && row.entity == e && PendingCount(queue, e) == 1
    requires Newest(queue, e).Some? && Newest(queue, e).value.status == Pending
    ensures OnlyAbout(queue, queue[i := row], e)
    ensures Newest(queue[i := row], e) == Some(row)
    ensures CountIf(queue[i := row], ApprovedFor(e))
         == CountIf(queue, ApprovedFor(e)) + (if row.status == Approved then 1 else 0)
  {
    hide Newest, CountIf, PendingCount;
    SettlingNewest(queue, i, row, e);
    CountUpdate(queue, i, row, ApprovedFor(e));
    forall e' | e' != e
      ensures Newest(queue[i := row], e') == Newest(queue, e')
      ensures CountIf(queue[i := row], ApprovedFor(e')) == CountIf(queue, ApprovedFor(e'))
    {
      NewestOfOthers(queue, i, row, e');
      CountUpdate(queue, i, row, ApprovedFor(e'));
    }
  }

  lemma UnknownEntity(t: Tables, e: Entity)
    requires Inv(t)
    requires match e case PageEntity(p) => p !in t.pages case ProfileEntity(f) => f !in t.profiles
    ensures Newest(t.queue, e) == None && CountIf(t.queue, ApprovedFor(e)) == 0
  {
    forall i | 0 <= i < |t.queue| ensures t.queue[i].entity != e {
      RowIsKnown(t, i);
    }
    NewestOfNone(t.queue, e);
    CountNone(t.queue, ApprovedFor(e));
  }

  // ---------------------------------------------------------------------------
  // Every operation keeps the records
  // ---------------------------------------------------------------------------

  /** A page is written anew as a draft. */
  lemma DraftKeepsRecords(t: Tables, p: Id, page: Page)
    requires Inv(t) && Records(t.queue, t.pages, t.profiles)
    requires p in t.pages ==> Editable(t.pages[p].state)
    requires page.state == PageDraft && page.verifiedBy == None && page.notes == None
    ensures Records(t.queue, t.pages[p := page], t.profiles)
  {
    hide Inv, Newest, CountIf;
    if p in t.pages {
      assert PageRecorded(t.queue, t.pages, p);
    } else {
      UnknownEntity(t, PageEntity(p));
    }
    PageMoves(t.queue, t.queue, t.pages, t.profiles, p, page);
  }

  lemma EditsKeepRecords(t: Tables, e: Event)
    requires Inv(t) && Records(t.queue, t.pages, t.profiles) && (e.ECreatePage? || e.EUpdatePage?)
    ensures var t' := Step(t, e); Records(t'.queue, t'.pages, t'.profiles)
  {
    hide Inv, Records;
    match e
    case ECreatePage(o, p, agent, complete, valid) =>
      if CreatePage(t, o, p, agent, complete, valid).1 == Ok {
        var q := if HasPage(t, o) then t.pageByOwner[o] else p;
        DraftKeepsRecords(t, q, Page(o, PageDraft, agent, complete, None, None));
      }
    case EUpdatePage(o, agent, complete, valid) =>
      if UpdatePage(t, o, agent, complete, valid).1 == Ok {
        var q := t.pageByOwner[o];
        DraftKeepsRecords(t, q, t.pages[q].(state := PageDraft, agent := agent, complete := complete,
                                            verifiedBy := None, notes := None));
      }
  }

  lemma SubmissionKeepsRecords(t: Tables, o: Id)
    requires Inv(t) && Records(t.queue, t.pages, t.profiles)
    ensures var t' := SubmitPage(t, o).0; Records(t'.queue, t'.pages, t'.profiles)
  {
    hide Inv, Newest, CountIf;
    if SubmitPage(t, o).1 == Ok {
      var p := t.pageByOwner[o];
      var row := QueueRow(t.users[o].email, PageEntity(p), Pending, None, None, None);
      assert PageRecorded(t.queue, t.pages, p);
      AppendingRow(t.queue, row);
      hide Records;
      PageMoves(t.queue, t.queue + [row], t.pages, t.profiles, p,
                t.pages[p].(state := PageSubmitted, verifiedBy := None, notes := None));
    }
  }

  lemma CompletionKeepsRecords(t: Tables, u: Id, f: Id)
    requires Inv(t) && Records(t.queue, t.pages, t.profiles)
    ensures var t' := CompleteProfile(t, u, f).0; Records(t'.queue, t'.pages, t'.profiles)
  {
    hide Inv, Newest, CountIf;
    if CompleteProfile(t, u, f).1 == Ok {
      var email := t.users[u].email;
      if u in t.profileByUser && t.profileByUser[u] in t.profiles {
        var g := t.profileByUser[u];
        var row := QueueRow(email, ProfileEntity(g), Pending, None, None, None);
        assert ProfileRecorded(t.queue, t.profiles, g);
        AppendingRow(t.queue, row);
        ProfileMoves(t.queue, t.queue + [row], t.pages, t.profiles, g,
                     t.profiles[g].(status := Pending, reviewedBy := None, rejectionReason := None));
      } else {
        var row := QueueRow(email, ProfileEntity(f), Pending, None, None, None);
        UnknownEntity(t, ProfileEntity(f));
        AppendingRow(t.queue, row);
        ProfileMoves(t.queue, t.queue + [row], t.pages, t.profiles, f, Profile(u, email, Pending, None, None));
      }
    }
  }

  /** A submitted page and its pending row are settled together. */
  lemma PageDecisionKeepsRecords(t: Tables, p: Id, i: nat, adminId: Id, approved: bool, reason: Option<string>)
    requires Inv(t) && Records(t.queue, t.pages, t.profiles) && (approved || reason.Some?)
    requires p in t.pages && t.pages[p].state == PageSubmitted && i < |t.queue| &&
      PendingFor(t.queue[i], PageEntity(p))
    ensures Records(t.queue[i := Settled(t.queue[i], adminId, approved, reason)],
                    t.pages[p := ReviewedPage(t.pages[p], adminId, approved, reason)], t.profiles)
  {
    hide Inv, Newest, CountIf, PendingCount;
    var row := Settled(t.queue[i], adminId, approved, reason);
    RowsOfEntity(t, PageEntity(p));
    assert PageRecorded(t.queue, t.pages, p);
    SettlingRow(t.queue, i, row, PageEntity(p));
    hide Records;
    PageMoves(t.queue, t.queue[i := row], t.pages, t.profiles, p, ReviewedPage(t.pages[p], adminId, approved, reason));
  }

  lemma ProfileDecisionKeepsRecords(t: Tables, f: Id, i: nat, adminId: Id, approved: bool, reason: Option<string>)
    requires Inv(t) && Records(t.queue, t.pages, t.profiles) && (approved || reason.Some?)
    requires f in t.profiles && t.profiles[f].status == Pending && i < |t.queue| &&
      PendingFor(t.queue[i], ProfileEntity(f))
    ensures Records(t.queue[i := Settled(t.queue[i], adminId, approved, reason)], t.pages,
                    t.profiles[f := SettledProfile(t.profiles[f], adminId, approved, reason)])
  {
    hide Inv, Newest, CountIf, PendingCount;
    var row := Settled(t.queue[i], adminId, approved, reason);
    RowsOfEntity(t, ProfileEntity(f));
    assert ProfileRecorded(t.queue, t.profiles, f);
    SettlingRow(t.queue, i, row, ProfileEntity(f));
    hide Records;
    ProfileMoves(t.queue, t.queue[i := row], t.pages, t.profiles, f,
                 SettledProfile(t.profiles[f], adminId, approved, reason));
  }

  /** What a granted page review writes. */
  lemma PageReviewForm(t: Tables, p: Id, adminId: Id, approved: bool, reason: Option<string>)
    requires Inv(t) && ReviewPage(t, p, adminId, approved, reason).1 == Ok
    ensures p in t.pages && t.pages[p].state == PageSubmitted && (approved || reason.Some?)
    ensures var t', q := ReviewPage(t, p, adminId, approved, reason).0, NewestPending(t.queue, PageEntity(p));
            && q.Some? && q.value < |t.queue| && PendingFor(t.queue[q.value], PageEntity(p))
            && t'.queue == t.queue[q.value := Settled(t.queue[q.value], adminId, approved, reason)]
            && t'.pages == t.pages[p := ReviewedPage(t.pages[p], adminId, approved, reason)]
            && t'.profiles == t.profiles
            && t'.audits == t.audits + [Audit(adminId, if approved then PageWasVerified else PageWasRejected, p)]
            && GrantedOnApproval(t, t', p, approved)
  {
    ReviewPageAsSettlement(t, p, adminId, approved, reason);
    hide Inv, NewestPending, Settled, ReviewedPage, PendingFor;
  }

  /** An approved page makes its owner an agent or a landlord with a known identity, and
      earns one ledger row of 15 that names the page; a rejected one changes neither. */
  predicate GrantedOnApproval(t: Tables, t': Tables, p: Id, approved: bool) {
    p in t.pages &&
    var u := t.pages[p].ownerId;
    if approved then
      && u in t.users
      && t'.users == t.users[u := t.users[u].(role := if t.pages[p].agent then Agent else Landlord,
                                              identityVerified := true)]
      && t'.ledger == t.ledger + [LedgerRow(u, IdentityVerified, 15, Some(p))]
    else t'.users == t.users && t'.ledger == t.ledger
  }

  /** What settling a row about a page writes. */
  lemma PageRowForm(t: Tables, i: nat, p: Id, adminId: Id, approved: bool, reason: Option<string>, newUserId: Id)
    requires ReviewSubmission(t, i, adminId, approved, reason, newUserId).1 == Ok
    requires i < |t.queue| && t.queue[i].entity == PageEntity(p)
    ensures p in t.pages && t.pages[p].state == PageSubmitted && t.queue[i].status == Pending
    ensures approved || reason.Some?
    ensures var t' := ReviewSubmission(t, i, adminId, approved, reason, newUserId).0;
            && t'.queue == t.queue[i := Settled(t.queue[i], adminId, approved, reason)]
            && t'.pages == t.pages[p := ReviewedPage(t.pages[p], adminId, approved, reason)]
            && t'.profiles == t.profiles
            && t'.audits == t.audits + [Audit(adminId, if approved then SubmissionApproved else SubmissionRejected, i)]
            && GrantedOnApproval(t, t', p, approved)
  {
    hide SettleProfile, CanAttach, Settled, ReviewedPage;
  }

  /** What settling a row about a profile writes. */
  lemma ProfileRowForm(t: Tables, i: nat, f: Id, adminId: Id, approved: bool, reason: Option<string>, newUserId: Id)
    requires Inv(t) && ReviewSubmission(t, i, adminId, approved, reason, newUserId).1 == Ok
    requires i < |t.queue| && t.queue[i].entity == ProfileEntity(f)
    ensures f in t.profiles && t.profiles[f].status == Pending && t.queue[i].status == Pending
    ensures approved || reason.Some?
    ensures t.profiles[f].userId in t.users
    ensures var t' := ReviewSubmission(t, i, adminId, approved, reason, newUserId).0;
            var u := t.profiles[f].userId;
            && t'.queue == t.queue[i := Settled(t.queue[i], adminId, approved, reason)]
            && t'.pages == t.pages
            && t'.profiles == t.profiles[f := SettledProfile(t.profiles[f], adminId, approved, reason)]
            && t'.audits == t.audits + [Audit(adminId, if approved then SubmissionApproved else SubmissionRejected, i)]
            && t'.users == t.users[u := ApprovedAccount(t.users[u], approved)] && t'.ledger == t.ledger
  {
    RowRefersHere(t, i, f);
    var t1 := RowSettled(t, i, adminId, approved, reason);
    SettleProfileForm(t1, f, adminId, approved, reason, newUserId);
    hide Inv, SettleProfile, SettlePage, CanAttach, Settled, SettledProfile, ApprovedAccount;
  }

  lemma RowRefersHere(t: Tables, i: nat, f: Id)
    requires Inv(t) && i < |t.queue| && t.queue[i].entity == ProfileEntity(f)
    ensures f in t.profiles && t.profiles[f].email == t.queue[i].email
  {
    assert RowRefers(t.queue[i], t.pages, t.profiles);
  }

  /** A granted decision is what the admin asked for, on the row and on its page or
      profile alike. */
  lemma DecisionTakesEffect(t: Tables, i: nat, adminId: Id, approved: bool, reason: Option<string>, newUserId: Id)
    requires Inv(t) && ReviewSubmission(t, i, adminId, approved, reason, newUserId).1 == Ok
    ensures var t' := ReviewSubmission(t, i, adminId, approved, reason, newUserId).0;
            && i < |t'.queue| && t'.queue[i].status == (if approved then Approved else Rejected)
            && t'.queue[i].reviewedBy == Some(adminId)
            && match t'.queue[i].entity
               case PageEntity(p) =>
                 p in t'.pages && t'.pages[p].state == if approved then PageVerified else PageRejected
               case ProfileEntity(f) =>
                 && f in t'.profiles && t'.profiles[f].status == (if approved then Approved else Rejected)
                 && t'.profiles[f].userId in t'.users
                 && (approved ==> t'.users[t'.profiles[f].userId].role == Student
                                  && t'.users[t'.profiles[f].userId].identityVerified)
  {
    assert i < |t.queue|;
    hide Inv;
    match t.queue[i].entity
    case PageEntity(p) =>
      PageRowForm(t, i, p, adminId, approved, reason, newUserId);
      hide ReviewSubmission;
    case ProfileEntity(f) =>
      ProfileRowForm(t, i, f, adminId, approved, reason, newUserId);
      hide ReviewSubmission;
  }

  lemma ReviewsKeepRecords(t: Tables, e: Event)
    requires Inv(t) && Records(t.queue, t.pages, t.profiles) && (e.EReviewPage? || e.EReviewSubmission?)
    ensures var t' := Step(t, e); Records(t'.queue, t'.pages, t'.profiles)
  {
    hide Inv, Records, Settled, ReviewedPage, SettledProfile;
    match e
    case EReviewPage(p, admin, approved, reason) =>
      if ReviewPage(t, p, admin, approved, reason).1 == Ok {
        PageReviewForm(t, p, admin, approved, reason);
        PageDecisionKeepsRecords(t, p, NewestPending(t.queue, PageEntity(p)).value, admin, approved, reason);
        hide ReviewPage;
      }
    case EReviewSubmission(i, admin, approved, reason, n) =>
      if ReviewSubmission(t, i, admin, approved, reason, n).1 == Ok {
        RowDecisionKeepsRecords(t, i, admin, approved, reason, n);
      }
  }

  lemma RowDecisionKeepsRecords(t: Tables, i: nat, admin: Id, approved: bool, reason: Option<string>, n: Id)
    requires Inv(t) && Records(t.queue, t.pages, t.profiles)
    requires i < |t.queue| && ReviewSubmission(t, i, admin, approved, reason, n).1 == Ok
    ensures var t' := ReviewSubmission(t, i, admin, approved, reason, n).0; Records(t'.queue, t'.pages, t'.profiles)
  {
    hide Inv, Records, ReviewSubmission, Settled, ReviewedPage, SettledProfile;
    match t.queue[i].entity
    case PageEntity(p) =>
      PageRowForm(t, i, p, admin, approved, reason, n);
      PageDecisionKeepsRecords(t, p, i, admin, approved, reason);
    case ProfileEntity(f) =>
      ProfileRowForm(t, i, f, admin, approved, reason, n);
      ProfileDecisionKeepsRecords(t, f, i, admin, approved, reason);
  }

  lemma AccountStepsKeepRecords(t: Tables, e: Event)
    requires e.ERegister? || e.EVerifyIdentity? || e.ESetRole?
    ensures var t' := Step(t, e); t'.queue == t.queue && t'.pages == t.pages && t'.profiles == t.profiles
  {
    hide CreatePage, UpdatePage, SubmitPage, ReviewPage, CompleteProfile, ReviewSubmission;
  }

  lemma StepKeepsRecords(t: Tables, e: Event)
    requires Inv(t) && Records(t.queue, t.pages, t.profiles)
    ensures var t' := Step(t, e); Records(t'.queue, t'.pages, t'.profiles)
  {
    hide Inv, Records, Register, VerifyIdentity, SetRole, CreatePage, UpdatePage, SubmitPage, ReviewPage,
      CompleteProfile, ReviewSubmission;
    match e
    case ECreatePage(_, _, _, _, _) => EditsKeepRecords(t, e);
    case EUpdatePage(_, _, _, _) => EditsKeepRecords(t, e);
    case ESubmitPage(o) => SubmissionKeepsRecords(t, o);
    case ECompleteProfile(u, f) => CompletionKeepsRecords(t, u, f);
    case EReviewPage(_, _, _, _) => ReviewsKeepRecords(t, e);
    case EReviewSubmission(_, _, _, _, _) => ReviewsKeepRecords(t, e);
    case _ => AccountStepsKeepRecords(t, e);
  }

  lemma {:induction false} RunKeepsRecords(events: seq<Event>)
    ensures var t := Run(EMPTY, events); Records(t.queue, t.pages, t.profiles)
  {
    hide Inv, Step;
    if |events| > 0 {
      RunKeepsInv(events[..|events| - 1]);
      RunKeepsRecords(events[..|events| - 1]);
      hide Records;
      StepKeepsRecords(Run(EMPTY, events[..|events| - 1]), events[|events| - 1]);
    }
  }

  /** In every reachable state the newest row of a page or profile records how it
      stands: a page is VERIFIED exactly when its newest row is APPROVED, and then it
      is its only approved row and names the admin on the page; a REJECTED page has a
      newest row REJECTED for the reason on the page; a draft has none or a rejected
      one; a profile has status, reviewer and reason of its newest row. */
  lemma NewestRowRecords(events: seq<Event>)
    ensures var t := Run(EMPTY, events);
            && (forall p :: p in t.pages ==>
                  var page, row := t.pages[p], Newest(t.queue, PageEntity(p));
                  && (page.state == PageVerified <==> row.Some? && row.value.status == Approved)
                  && (page.state == PageSubmitted <==> row.Some? && row.value.status == Pending)
                  && (page.state == PageRejected ==>
                        && row.Some? && row.value.status == Rejected
                        && page.notes == row.value.reviewNotes == row.value.rejectionReason)
                  && (page.state == PageVerified ==> page.verifiedBy == row.value.reviewedBy && page.verifiedBy.Some?)
                  && (page.state != PageDraft ==> page.complete)
                  && CountIf(t.queue, ApprovedFor(PageEntity(p))) == if page.state == PageVerified then 1 else 0)
            && (forall f :: f in t.profiles ==>
                  var profile, row := t.profiles[f], Newest(t.queue, ProfileEntity(f));
                  && row.Some? && row.value.status == profile.status
                  && row.value.reviewedBy == profile.reviewedBy && row.value.rejectionReason == profile.rejectionReason
                  && CountIf(t.queue, ApprovedFor(ProfileEntity(f))) == if profile.status == Approved then 1 else 0)
  {
    RunKeepsRecords(events);
    var t := Run(EMPTY, events);
    hide Run, Newest, CountIf, ApprovedFor;
    forall p | p in t.pages ensures PageRecorded(t.queue, t.pages, p) {
    }
    forall f | f in t.profiles ensures ProfileRecorded(t.queue, t.profiles, f) {
    }
  }

  // ---------------------------------------------------------------------------
  // The audit log
  // ---------------------------------------------------------------------------

  /** Rows that admin a settled with status s, and log entries that say so. */
  function DecidedBy(a: Id, s: ReviewStatus): QueueRow -> bool {
    (row: QueueRow) => row.status == s && row.reviewedBy == Some(a)
  }

  function LoggedBy(a: Id, s: ReviewStatus): Audit -> bool {
    (entry: Audit) => entry.actorId == a && match s
      case Pending => false
      case Approved => entry.action == PageWasVerified || entry.action == SubmissionApproved
      case Rejected => entry.action == PageWasRejected || entry.action == SubmissionRejected
  }

  function Submission(): Audit -> bool {
    (entry: Audit) => entry.action == PageSubmittedForReview || entry.action == ProfileSubmitted
  }

  ghost predicate FullyLogged(queue: seq<QueueRow>, audits: seq<Audit>) {
    && |queue| == CountIf(audits, Submission())
    && (forall a, s :: s != Pending ==> CountIf(queue, DecidedBy(a, s)) == CountIf(audits, LoggedBy(a, s)))
  }

  lemma OtherEntry(queue: seq<QueueRow>, audits: seq<Audit>, entry: Audit)
    requires FullyLogged(queue, audits) && (entry.action == PageCreated || entry.action == PageUpdated)
    ensures FullyLogged(queue, audits + [entry])
  {
    hide CountIf;
    CountAppend(audits, entry, Submission());
    forall a, s ensures CountIf(audits + [entry], LoggedBy(a, s)) == CountIf(audits, LoggedBy(a, s)) {
      CountAppend(audits, entry, LoggedBy(a, s));
    }
  }

  lemma SubmissionEntry(queue: seq<QueueRow>, row: QueueRow, audits: seq<Audit>, entry: Audit)
    requires FullyLogged(queue, audits) && row.status == Pending
    requires entry.action == PageSubmittedForReview || entry.action == ProfileSubmitted
    ensures FullyLogged(queue + [row], audits + [entry])
  {
    hide CountIf;
    CountAppend(audits, entry, Submission());
    forall a, s | s != Pending
      ensures CountIf(audits + [entry], LoggedBy(a, s)) == CountIf(audits, LoggedBy(a, s))
      ensures CountIf(queue + [row], DecidedBy(a, s)) == CountIf(queue, DecidedBy(a, s))
    {
      CountAppend(audits, entry, LoggedBy(a, s));
      CountAppend(queue, row, DecidedBy(a, s));
    }
  }

  lemma DecisionEntry(queue: seq<QueueRow>, i: nat, adminId: Id, approved: bool, reason: Option<string>,
                      audits: seq<Audit>, entry: Audit)
    requires FullyLogged(queue, audits) && i < |queue| && queue[i].status == Pending
    requires entry.actorId == adminId
    requires if approved then entry.action == PageWasVerified || entry.action == SubmissionApproved
             else entry.action == PageWasRejected || entry.action == SubmissionRejected
    ensures FullyLogged(queue[i := Settled(queue[i], adminId, approved, reason)], audits + [entry])
  {
    hide CountIf;
    var row := Settled(queue[i], adminId, approved, reason);
    CountAppend(audits, entry, Submission());
    forall a, s | s != Pending
      ensures CountIf(audits + [entry], LoggedBy(a, s)) == CountIf(queue[i := row], DecidedBy(a, s))
    {
      CountAppend(audits, entry, LoggedBy(a, s));
      CountUpdate(queue, i, row, DecidedBy(a, s));
    }
  }

  lemma ReviewsAreLogged(t: Tables, e: Event)
    requires Inv(t) && FullyLogged(t.queue, t.audits) && (e.EReviewPage? || e.EReviewSubmission?)
    ensures FullyLogged(Step(t, e).queue, Step(t, e).audits)
  {
    hide Inv, FullyLogged, Settled, ReviewedPage, SettledProfile;
    match e
    case EReviewPage(p, admin, approved, reason) =>
      if ReviewPage(t, p, admin, approved, reason).1 == Ok {
        PageReviewForm(t, p, admin, approved, reason);
        DecisionEntry(t.queue, NewestPending(t.queue, PageEntity(p)).value, admin, approved, reason, t.audits,
                      Audit(admin, if approved then PageWasVerified else PageWasRejected, p));
        hide ReviewPage;
      }
    case EReviewSubmission(i, admin, approved, reason, n) =>
      if ReviewSubmission(t, i, admin, approved, reason, n).1 == Ok {
        RowDecisionIsLogged(t, i, admin, approved, reason, n);
      }
  }

  lemma RowDecisionIsLogged(t: Tables, i: nat, admin: Id, approved: bool, reason: Option<string>, n: Id)
    requires Inv(t) && FullyLogged(t.queue, t.audits)
    requires i < |t.queue| && ReviewSubmission(t, i, admin, approved, reason, n).1 == Ok
    ensures var t' := ReviewSubmission(t, i, admin, approved, reason, n).0; FullyLogged(t'.queue, t'.audits)
  {
    hide *;
    match t.queue[i].entity {
      case PageEntity(p) => PageRowForm(t, i, p, admin, approved, reason, n);
      case ProfileEntity(f) => ProfileRowForm(t, i, f, admin, approved, reason, n);
    }
    DecisionEntry(t.queue, i, admin, approved, reason, t.audits,
                  Audit(admin, if approved then SubmissionApproved else SubmissionRejected, i));
  }

  lemma SubmissionsAreLogged(t: Tables, e: Event)
    requires FullyLogged(t.queue, t.audits) && (e.ESubmitPage? || e.ECompleteProfile?)
    ensures FullyLogged(Step(t, e).queue, Step(t, e).audits)
  {
    hide FullyLogged;
    match e
    case ESubmitPage(o) =>
      if SubmitPage(t, o).1 == Ok {
        var p := t.pageByOwner[o];
        SubmissionEntry(t.queue, QueueRow(t.users[o].email, PageEntity(p), Pending, None, None, None), t.audits,
                        Audit(o, PageSubmittedForReview, p));
      }
    case ECompleteProfile(u, f) =>
      if CompleteProfile(t, u, f).1 == Ok {
        var g := if u in t.profileByUser && t.profileByUser[u] in t.profiles then t.profileByUser[u] else f;
        SubmissionEntry(t.queue, QueueRow(t.users[u].email, ProfileEntity(g), Pending, None, None, None), t.audits,
                        Audit(u, ProfileSubmitted, g));
      }
  }

  lemma OtherStepsAreLogged(t: Tables, e: Event)
    requires FullyLogged(t.queue, t.audits) && (e.ERegister? || e.EVerifyIdentity? || e.ESetRole? || e.ECreatePage? ||
      e.EUpdatePage?)
    ensures FullyLogged(Step(t, e).queue, Step(t, e).audits)
  {
    hide FullyLogged, SubmitPage, ReviewPage, CompleteProfile, ReviewSubmission;
    match e
    case ECreatePage(o, p, agent, complete, valid) =>
      var q := if HasPage(t, o) then t.pageByOwner[o] else p;
      OtherEntry(t.queue, t.audits, Audit(o, if HasPage(t, o) then PageUpdated else PageCreated, q));
    case EUpdatePage(o, agent, complete, valid) =>
      if HasPage(t, o) {
        OtherEntry(t.queue, t.audits, Audit(o, PageUpdated, t.pageByOwner[o]));
      }
    case _ =>
  }

  /** In every reachable state the log has one entry for every submission, and for every
      admin as many approvals and as many rejections as the queue has rows that this
      admin approved or rejected. */
  lemma {:induction false} EveryDecisionIsLogged(events: seq<Event>)
    ensures FullyLogged(Run(EMPTY, events).queue, Run(EMPTY, events).audits)
  {
    hide Inv, Step;
    if |events| > 0 {
      var t, e := Run(EMPTY, events[..|events| - 1]), events[|events| - 1];
      RunKeepsInv(events[..|events| - 1]);
      EveryDecisionIsLogged(events[..|events| - 1]);
      hide FullyLogged;
      if e.EReviewPage? || e.EReviewSubmission? {
        ReviewsAreLogged(t, e);
      } else if e.ESubmitPage? || e.ECompleteProfile? {
        SubmissionsAreLogged(t, e);
      } else {
        OtherStepsAreLogged(t, e);
      }
    }
  }

  // ---------------------------------------------------------------------------
  // The ledger
  // ---------------------------------------------------------------------------

  /** Every identity row weighs 15 and is about an account with a known identity; one that
      names a page names a verified page of that account. */
  predicate RowEarned(row: LedgerRow, users: map<Id, User>, pages: map<Id, Page>) {
    && row.eventType == IdentityVerified && row.weight == 15
    && row.userId in users && users[row.userId].identityVerified
    && (row.page.Some? ==>
          row.page.value in pages && pages[row.page.value].state == PageVerified
          && pages[row.page.value].ownerId == row.userId)
  }

  ghost predicate LedgerEarned(ledger: seq<LedgerRow>, users: map<Id, User>, pages: map<Id, Page>) {
    forall k :: 0 <= k < |ledger| ==> RowEarned(ledger[k], users, pages)
  }

  ghost predicate IdentitiesKept(users: map<Id, User>, users': map<Id, User>) {
    forall u :: u in users ==> u in users' && (users[u].identityVerified ==> users'[u].identityVerified)
  }

  ghost predicate VerifiedKept(pages: map<Id, Page>, pages': map<Id, Page>) {
    forall p :: p in pages && pages[p].state == PageVerified ==> p in pages' && pages'[p] == pages[p]
  }

  /** The ledger is left alone or gets one earned row. */
  ghost predicate LedgerGrows(t: Tables, t': Tables) {
    || t'.ledger == t.ledger
    || (|t'.ledger| == |t.ledger| + 1 && t'.ledger[..|t.ledger|] == t.ledger
        && RowEarned(t'.ledger[|t.ledger|], t'.users, t'.pages))
  }

  lemma LedgerFrame(t: Tables, t': Tables)
    requires LedgerEarned(t.ledger, t.users, t.pages)
    requires IdentitiesKept(t.users, t'.users) && VerifiedKept(t.pages, t'.pages) && LedgerGrows(t, t')
    ensures LedgerEarned(t'.ledger, t'.users, t'.pages)
  {
    forall k | 0 <= k < |t'.ledger| ensures RowEarned(t'.ledger[k], t'.users, t'.pages) {
      if k < |t.ledger| {
        assert t'.ledger[k] == t.ledger[k];
        assert RowEarned(t.ledger[k], t.users, t.pages);
      }
    }
  }

  lemma DecisionEarns(t: Tables, t': Tables, p: Id, approved: bool)
    requires GrantedOnApproval(t, t', p, approved)
    requires approved ==>
               p in t'.pages && t'.pages[p].state == PageVerified && t'.pages[p].ownerId == t.pages[p].ownerId
    ensures IdentitiesKept(t.users, t'.users) && LedgerGrows(t, t')
  {
  }

  lemma PageReviewEarns(t: Tables, p: Id, admin: Id, approved: bool, reason: Option<string>)
    requires Inv(t)
    ensures var t' := ReviewPage(t, p, admin, approved, reason).0;
            IdentitiesKept(t.users, t'.users) && LedgerGrows(t, t')
  {
    hide Inv, Settled, GrantedOnApproval;
    if ReviewPage(t, p, admin, approved, reason).1 == Ok {
      PageReviewForm(t, p, admin, approved, reason);
      hide ReviewPage, IdentitiesKept, LedgerGrows;
      DecisionEarns(t, ReviewPage(t, p, admin, approved, reason).0, p, approved);
    }
  }

  lemma ProfileDecisionEarns(t: Tables, t': Tables, u: Id, approved: bool)
    requires u in t.users && t'.users == t.users[u := ApprovedAccount(t.users[u], approved)] && t'.ledger == t.ledger
    ensures IdentitiesKept(t.users, t'.users) && LedgerGrows(t, t')
  {
  }

  lemma RowDecisionEarns(t: Tables, i: nat, admin: Id, approved: bool, reason: Option<string>, n: Id)
    requires Inv(t) && i < |t.queue| && ReviewSubmission(t, i, admin, approved, reason, n).1 == Ok
    ensures var t' := ReviewSubmission(t, i, admin, approved, reason, n).0;
            IdentitiesKept(t.users, t'.users) && LedgerGrows(t, t')
  {
    hide Inv, ReviewSubmission, Settled, SettledProfile, ApprovedAccount, GrantedOnApproval, IdentitiesKept,
      LedgerGrows;
    var t' := ReviewSubmission(t, i, admin, approved, reason, n).0;
    match t.queue[i].entity
    case PageEntity(p) =>
      PageRowForm(t, i, p, admin, approved, reason, n);
      DecisionEarns(t, t', p, approved);
    case ProfileEntity(f) =>
      ProfileRowForm(t, i, f, admin, approved, reason, n);
      ProfileDecisionEarns(t, t', t.profiles[f].userId, approved);
  }

  lemma ReviewsEarn(t: Tables, e: Event)
    requires Inv(t) && (e.EReviewPage? || e.EReviewSubmission?)
    ensures IdentitiesKept(t.users, Step(t, e).users) && LedgerGrows(t, Step(t, e))
  {
    hide Inv, ReviewPage;
    match e
    case EReviewPage(p, admin, approved, reason) => PageReviewEarns(t, p, admin, approved, reason);
    case EReviewSubmission(i, admin, approved, reason, n) =>
      hide SettlePage, SettleProfile, RowSettled, CanAttach;
      if ReviewSubmission(t, i, admin, approved, reason, n).1 == Ok {
        RowDecisionEarns(t, i, admin, approved, reason, n);
        hide ReviewSubmission;
      }
  }

  lemma OtherStepsEarn(t: Tables, e: Event)
    requires !e.EReviewPage? && !e.EReviewSubmission?
    ensures IdentitiesKept(t.users, Step(t, e).users) && LedgerGrows(t, Step(t, e))
  {
    hide ReviewPage, ReviewSubmission;
  }

  /** In every reachable state the ledger of the workflow holds identity rows of 15 only,
      each about an account with a known identity; those that name a page name a
      verified page of that very account. */
  lemma {:induction false} IdentityRowsAreEarned(events: seq<Event>)
    ensures var t := Run(EMPTY, events); LedgerEarned(t.ledger, t.users, t.pages)
  {
    hide Inv, Step;
    if |events| > 0 {
      var t, e := Run(EMPTY, events[..|events| - 1]), events[|events| - 1];
      RunKeepsInv(events[..|events| - 1]);
      IdentityRowsAreEarned(events[..|events| - 1]);
      hide LedgerEarned, IdentitiesKept, LedgerGrows;
      forall p | p in t.pages && t.pages[p].state == PageVerified ensures PageKept(t, Step(t, e), p) {
        VerifiedPageStays(t, e, p);
      }
      if e.EReviewPage? || e.EReviewSubmission? {
        ReviewsEarn(t, e);
      } else {
        OtherStepsEarn(t, e);
      }
      LedgerFrame(t, Step(t, e));
    }
  }
}
