/**
  The verification workflow seen from one page, profile or account: exactly which steps
  create it, exactly which change it, and to what. Nothing else ever touches it.
 */
module VerificationRows {
  import opened Wrappers
  import opened TrustScore
  import opened Verification
  import opened VerificationProofs
  import opened ReviewOutcomes

  // ---------------------------------------------------------------------------
  // Pages
  // ---------------------------------------------------------------------------

  predicate Edits(t: Tables, e: Event, page: Page) {
    && page.ownerId in t.users
    && (e.ECreatePage? || e.EUpdatePage?) && e.ownerId == page.ownerId && e.payoutsValid
    && (e.ECreatePage? ==> t.users[e.ownerId].role != Admin && page.state == PageRejected)
    && (page.state == PageDraft || page.state == PageRejected)
  }

  /** A decision about the entity: by a review of the page, or by its pending row. A
      rejection needs a reason. */
  predicate Decides(t: Tables, e: Event, entity: Entity) {
    && (e.EReviewPage? || e.EReviewSubmission?) && (e.approved || e.reason.Some?)
    && (e.EReviewPage? ==> entity == PageEntity(e.pageId))
    && (e.EReviewSubmission? ==> e.submissionId < |t.queue| && PendingFor(t.queue[e.submissionId], entity))
  }

  /** Page p after a step, read off the tables before. */
  function NextPage(t: Tables, e: Event, p: Id): Page
    requires p in t.pages
  {
    var page := t.pages[p];
    if Edits(t, e, page) then Page(page.ownerId, PageDraft, e.agent, e.complete, None, None)
    else if e.ESubmitPage? && e.ownerId == page.ownerId && page.complete
            && (page.state == PageDraft || page.state == PageRejected)
    then page.(state := PageSubmitted, verifiedBy := None, notes := None)
    else if Decides(t, e, PageEntity(p)) && page.state == PageSubmitted then
      if e.approved then page.(state := PageVerified, verifiedBy := Some(e.adminId), notes := e.reason)
      else page.(state := PageRejected, verifiedBy := None, notes := e.reason)
    else page
  }

  /** The first page of a user who is no admin. */
  predicate CreatesPage(t: Tables, e: Event, p: Id) {
    && e.ECreatePage? && e.pageId == p && e.payoutsValid
    && e.ownerId in t.users && t.users[e.ownerId].role != Admin && e.ownerId !in t.pageByOwner
  }

  predicate PageIs(pages: map<Id, Page>, p: Id, page: Page) {
    p in pages && pages[p] == page
  }

  lemma OwnerOfPage(t: Tables, p: Id)
    requires Inv(t) && p in t.pages
    ensures var o := t.pages[p].ownerId;
            o in t.users && o in t.pageByOwner && t.pageByOwner[o] == p
    ensures forall o :: o in t.pageByOwner && t.pageByOwner[o] == p ==> o == t.pages[p].ownerId
  {
  }

  lemma PagesAfterCreation(t: Tables, o: Id, q: Id, agent: bool, complete: bool, valid: bool)
    ensures var pages', page := CreatePage(t, o, q, agent, complete, valid).0.pages,
                                Page(o, PageDraft, agent, complete, None, None);
            pages' ==
              if o !in t.users || t.users[o].role == Admin || !valid then t.pages
              else if HasPage(t, o) then
                if t.pages[t.pageByOwner[o]].state == PageRejected then t.pages[t.pageByOwner[o] := page] else t.pages
              else if q in t.pages then t.pages
              else t.pages[q := page]
  {
  }

  lemma PageAfterCreation(t: Tables, o: Id, q: Id, agent: bool, complete: bool, valid: bool, p: Id)
    requires Inv(t) && p in t.pages
    ensures PageIs(CreatePage(t, o, q, agent, complete, valid).0.pages, p,
                   NextPage(t, ECreatePage(o, q, agent, complete, valid), p))
  {
    OwnerOfPage(t, p);
    OwnersPage(t, o);
    PagesAfterCreation(t, o, q, agent, complete, valid);
    hide Inv, CreatePage;
  }

  lemma PageAfterUpdate(t: Tables, o: Id, agent: bool, complete: bool, valid: bool, p: Id)
    requires Inv(t) && p in t.pages
    ensures PageIs(UpdatePage(t, o, agent, complete, valid).0.pages, p,
                   NextPage(t, EUpdatePage(o, agent, complete, valid), p))
  {
    OwnerOfPage(t, p);
    OwnersPage(t, o);
    hide Inv;
  }

  lemma PageAfterSubmission(t: Tables, o: Id, p: Id)
    requires Inv(t) && p in t.pages
    ensures PageIs(SubmitPage(t, o).0.pages, p, NextPage(t, ESubmitPage(o), p))
  {
    OwnerOfPage(t, p);
    OwnersPage(t, o);
    hide Inv;
  }

  lemma PageReviewGranted(t: Tables, p: Id, adminId: Id, approved: bool, reason: Option<string>)
    requires Inv(t)
    ensures ReviewPage(t, p, adminId, approved, reason).1 == Ok
       <==> p in t.pages && t.pages[p].state == PageSubmitted && (approved || reason.Some?)
    ensures ReviewPage(t, p, adminId, approved, reason).1 != Ok ==> ReviewPage(t, p, adminId, approved, reason).0 == t
  {
    if p in t.pages {
      OwnerOfPage(t, p);
      RowsOfEntity(t, PageEntity(p));
    }
    NewestPendingFinds(t.queue, PageEntity(p));
    hide Inv, PageSettled, PendingCount, NewestPending;
  }

  lemma RowReviewGranted(t: Tables, i: nat, adminId: Id, approved: bool, reason: Option<string>, n: Id)
    requires Inv(t)
    ensures ReviewSubmission(t, i, adminId, approved, reason, n).1 == Ok
       <==> i < |t.queue| && t.queue[i].status == Pending && (approved || reason.Some?)
    ensures ReviewSubmission(t, i, adminId, approved, reason, n).1 != Ok ==>
              ReviewSubmission(t, i, adminId, approved, reason, n).0 == t
  {
    if i < |t.queue| && t.queue[i].status == Pending {
      OpenRow(t, i);
      if t.queue[i].entity.ProfileEntity? {
        AttachedAccount(t, t.queue[i].entity.profile, n);
      }
    }
    hide Inv, SettlePage, SettleProfile, RowSettled;
  }

  lemma DecidedPage(t: Tables, e: Event, p: Id)
    requires p in t.pages && (e.EReviewPage? || e.EReviewSubmission?)
    ensures NextPage(t, e, p) ==
              if Decides(t, e, PageEntity(p)) && t.pages[p].state == PageSubmitted
              then ReviewedPage(t.pages[p], e.adminId, e.approved, e.reason) else t.pages[p]
  {
    hide Decides;
  }

  lemma RowDecides(t: Tables, i: nat, admin: Id, approved: bool, reason: Option<string>, n: Id, entity: Entity)
    ensures Decides(t, EReviewSubmission(i, admin, approved, reason, n), entity) <==>
              i < |t.queue| && t.queue[i].status == Pending && t.queue[i].entity == entity
              && (approved || reason.Some?)
  {
  }

  lemma PageAfterPageReview(t: Tables, q: Id, admin: Id, approved: bool, reason: Option<string>, p: Id)
    requires Inv(t) && p in t.pages
    ensures PageIs(ReviewPage(t, q, admin, approved, reason).0.pages, p,
                   NextPage(t, EReviewPage(q, admin, approved, reason), p))
  {
    DecidedPage(t, EReviewPage(q, admin, approved, reason), p);
    hide Inv, Settled, ReviewPage, ReviewedPage, NextPage;
    PageReviewGranted(t, q, admin, approved, reason);
    if ReviewPage(t, q, admin, approved, reason).1 == Ok {
      PageReviewForm(t, q, admin, approved, reason);
    }
  }

  lemma PageAfterRow(t: Tables, i: nat, admin: Id, approved: bool, reason: Option<string>, n: Id, p: Id)
    requires Inv(t) && p in t.pages
    ensures PageIs(ReviewSubmission(t, i, admin, approved, reason, n).0.pages, p,
                   NextPage(t, EReviewSubmission(i, admin, approved, reason, n), p))
  {
    hide Inv, Settled, SettledProfile, ApprovedAccount, GrantedOnApproval, ReviewSubmission, ReviewedPage, NextPage,
      Decides;
    DecidedPage(t, EReviewSubmission(i, admin, approved, reason, n), p);
    RowDecides(t, i, admin, approved, reason, n, PageEntity(p));
    RowReviewGranted(t, i, admin, approved, reason, n);
    if ReviewSubmission(t, i, admin, approved, reason, n).1 == Ok {
      match t.queue[i].entity {
        case PageEntity(q) => PageRowForm(t, i, q, admin, approved, reason, n);
        case ProfileEntity(f) => ProfileRowForm(t, i, f, admin, approved, reason, n);
      }
    }
  }

  lemma OthersKeepPages(t: Tables, e: Event)
    requires e.ERegister? || e.EVerifyIdentity? || e.ESetRole? || e.ECompleteProfile?
    ensures Step(t, e).pages == t.pages
  {
    hide CreatePage, UpdatePage, SubmitPage, ReviewPage, ReviewSubmission;
  }

  /** Exactly what every step makes of every page. */
  lemma PageAfterStep(t: Tables, e: Event, p: Id)
    requires Inv(t) && p in t.pages
    ensures p in Step(t, e).pages && Step(t, e).pages[p] == NextPage(t, e, p)
  {
    hide Inv, CreatePage, UpdatePage, SubmitPage, ReviewPage, CompleteProfile, ReviewSubmission, Register,
      VerifyIdentity, SetRole;
    match e
    case ECreatePage(o, q, agent, complete, valid) => PageAfterCreation(t, o, q, agent, complete, valid, p);
    case EUpdatePage(o, agent, complete, valid) => PageAfterUpdate(t, o, agent, complete, valid, p);
    case ESubmitPage(o) => PageAfterSubmission(t, o, p);
    case EReviewPage(q, admin, approved, reason) => PageAfterPageReview(t, q, admin, approved, reason, p);
    case EReviewSubmission(i, admin, approved, reason, n) => PageAfterRow(t, i, admin, approved, reason, n, p);
    case _ => OthersKeepPages(t, e);
  }

  lemma NewPageByCreation(t: Tables, e: Event, p: Id)
    requires Inv(t) && p !in t.pages && e.ECreatePage?
    ensures p in Step(t, e).pages <==> CreatesPage(t, e, p)
    ensures CreatesPage(t, e, p) ==> Step(t, e).pages[p] == Page(e.ownerId, PageDraft, e.agent, e.complete, None, None)
  {
    OwnersPage(t, e.ownerId);
    hide Inv, Register, VerifyIdentity, SetRole, UpdatePage, SubmitPage, ReviewPage, CompleteProfile, ReviewSubmission;
  }

  lemma ReviewsAddNoPage(t: Tables, e: Event, p: Id)
    requires Inv(t) && p !in t.pages && (e.EReviewPage? || e.EReviewSubmission?)
    ensures p !in Step(t, e).pages
  {
    hide Inv, Settled, SettledProfile, ApprovedAccount, GrantedOnApproval, ReviewedPage;
    match e
    case EReviewPage(q, admin, approved, reason) =>
      PageReviewGranted(t, q, admin, approved, reason);
      if ReviewPage(t, q, admin, approved, reason).1 == Ok {
        PageReviewForm(t, q, admin, approved, reason);
      }
      hide ReviewPage;
    case EReviewSubmission(i, admin, approved, reason, n) =>
      RowReviewGranted(t, i, admin, approved, reason, n);
      if ReviewSubmission(t, i, admin, approved, reason, n).1 == Ok {
        match t.queue[i].entity {
          case PageEntity(q) => PageRowForm(t, i, q, admin, approved, reason, n);
          case ProfileEntity(f) => ProfileRowForm(t, i, f, admin, approved, reason, n);
        }
      }
      hide ReviewSubmission;
  }

  lemma EditsAddNoPage(t: Tables, e: Event, p: Id)
    requires p !in t.pages && (e.EUpdatePage? || e.ESubmitPage?)
    ensures p !in Step(t, e).pages
  {
    hide Register, VerifyIdentity, SetRole, CreatePage, ReviewPage, CompleteProfile, ReviewSubmission;
  }

  /** Exactly which steps create a page. */
  lemma PageBirth(t: Tables, e: Event, p: Id)
    requires Inv(t) && p !in t.pages
    ensures p in Step(t, e).pages <==> CreatesPage(t, e, p)
    ensures CreatesPage(t, e, p) ==> Step(t, e).pages[p] == Page(e.ownerId, PageDraft, e.agent, e.complete, None, None)
  {
    hide Inv, Step;
    if e.ECreatePage? {
      NewPageByCreation(t, e, p);
    } else if e.EReviewPage? || e.EReviewSubmission? {
      ReviewsAddNoPage(t, e, p);
    } else if e.EUpdatePage? || e.ESubmitPage? {
      EditsAddNoPage(t, e, p);
    } else {
      OthersKeepPages(t, e);
    }
  }

  // ---------------------------------------------------------------------------
  // Profiles
  // ---------------------------------------------------------------------------

  /** Profile f after a step, read off the tables before. */
  function NextProfile(t: Tables, e: Event, f: Id): Profile
    requires f in t.profiles
  {
    var profile := t.profiles[f];
    if e.ECompleteProfile? && e.userId == profile.userId && profile.userId in t.users
       && t.users[profile.userId].role == Student && profile.status == Rejected
    then profile.(status := Pending, reviewedBy := None, rejectionReason := None)
    else if Decides(t, e, ProfileEntity(f)) && profile.status == Pending then
      profile.(status := if e.approved then Approved else Rejected, reviewedBy := Some(e.adminId),
               rejectionReason := if e.approved then None else e.reason)
    else profile
  }

  /** The first profile of a student whose email no other profile has. */
  predicate CreatesProfile(t: Tables, e: Event, f: Id) {
    && e.ECompleteProfile? && e.profileId == f && e.userId in t.users && t.users[e.userId].role == Student
    && e.userId !in t.profileByUser && t.users[e.userId].email !in t.profileByEmail
  }

  predicate ProfileIs(profiles: map<Id, Profile>, f: Id, profile: Profile) {
    f in profiles && profiles[f] == profile
  }

  lemma UserOfProfile(t: Tables, f: Id)
    requires Inv(t) && f in t.profiles
    ensures var u := t.profiles[f].userId; u in t.users && u in t.profileByUser && t.profileByUser[u] == f
    ensures forall u :: u in t.profileByUser && t.profileByUser[u] == f ==> u == t.profiles[f].userId
  {
  }

  lemma ProfilesAfterCompletion(t: Tables, u: Id, g: Id)
    ensures var profiles' := CompleteProfile(t, u, g).0.profiles;
            profiles' ==
              if u !in t.users || t.users[u].role != Student then t.profiles
              else if u in t.profileByUser && t.profileByUser[u] in t.profiles then
                var f := t.profileByUser[u];
                if t.profiles[f].status == Rejected
                then t.profiles[f := t.profiles[f].(status := Pending, reviewedBy := None, rejectionReason := None)]
                else t.profiles
              else if g in t.profiles || t.users[u].email in t.profileByEmail then t.profiles
              else t.profiles[g := Profile(u, t.users[u].email, Pending, None, None)]
  {
  }

  lemma ProfileAfterCompletion(t: Tables, u: Id, g: Id, f: Id)
    requires Inv(t) && f in t.profiles
    ensures ProfileIs(CompleteProfile(t, u, g).0.profiles, f, NextProfile(t, ECompleteProfile(u, g), f))
  {
    UserOfProfile(t, f);
    UsersProfile(t, u);
    ProfilesAfterCompletion(t, u, g);
    hide Inv, CompleteProfile;
  }

  lemma DecidedProfile(t: Tables, e: Event, f: Id)
    requires f in t.profiles && e.EReviewSubmission?
    ensures NextProfile(t, e, f) ==
              if Decides(t, e, ProfileEntity(f)) && t.profiles[f].status == Pending
              then SettledProfile(t.profiles[f], e.adminId, e.approved, e.reason) else t.profiles[f]
  {
    hide Decides;
  }

  lemma ProfileAfterRow(t: Tables, i: nat, admin: Id, approved: bool, reason: Option<string>, n: Id, f: Id)
    requires Inv(t) && f in t.profiles
    ensures ProfileIs(ReviewSubmission(t, i, admin, approved, reason, n).0.profiles, f,
                      NextProfile(t, EReviewSubmission(i, admin, approved, reason, n), f))
  {
    hide Inv, Settled, ReviewedPage, ApprovedAccount, GrantedOnApproval, ReviewSubmission, SettledProfile, NextProfile,
      Decides;
    DecidedProfile(t, EReviewSubmission(i, admin, approved, reason, n), f);
    RowDecides(t, i, admin, approved, reason, n, ProfileEntity(f));
    RowReviewGranted(t, i, admin, approved, reason, n);
    if ReviewSubmission(t, i, admin, approved, reason, n).1 == Ok {
      match t.queue[i].entity {
        case PageEntity(q) => PageRowForm(t, i, q, admin, approved, reason, n);
        case ProfileEntity(g) => ProfileRowForm(t, i, g, admin, approved, reason, n);
      }
    }
  }

  lemma OthersKeepProfiles(t: Tables, e: Event)
    requires !e.ECompleteProfile? && !e.EReviewSubmission?
    ensures Step(t, e).profiles == t.profiles
  {
    hide CompleteProfile, ReviewSubmission;
  }

  /** Exactly what every step makes of every profile. */
  lemma ProfileAfterStep(t: Tables, e: Event, f: Id)
    requires Inv(t) && f in t.profiles
    ensures f in Step(t, e).profiles && Step(t, e).profiles[f] == NextProfile(t, e, f)
  {
    if e.ECompleteProfile? {
      ProfileAfterCompletion(t, e.userId, e.profileId, f);
      hide Inv, CompleteProfile, NextProfile;
    } else if e.EReviewSubmission? {
      ProfileAfterRow(t, e.submissionId, e.adminId, e.approved, e.reason, e.newUserId, f);
      hide Inv, ReviewSubmission, NextProfile;
    } else {
      OthersKeepProfiles(t, e);
      hide Inv, Step;
    }
  }

  lemma NewProfile(t: Tables, u: Id, g: Id, f: Id)
    requires Inv(t) && f !in t.profiles
    ensures var profiles', e := CompleteProfile(t, u, g).0.profiles, ECompleteProfile(u, g);
            && (f in profiles' <==> CreatesProfile(t, e, f))
            && (CreatesProfile(t, e, f) ==> profiles'[f] == Profile(u, t.users[u].email, Pending, None, None))
  {
    UsersProfile(t, u);
    ProfilesAfterCompletion(t, u, g);
    hide Inv, CompleteProfile;
  }

  /** Exactly which steps create a profile. */
  lemma ProfileBirth(t: Tables, e: Event, f: Id)
    requires Inv(t) && f !in t.profiles
    ensures f in Step(t, e).profiles <==> CreatesProfile(t, e, f)
    ensures CreatesProfile(t, e, f) ==>
              Step(t, e).profiles[f] == Profile(e.userId, t.users[e.userId].email, Pending, None, None)
  {
    if e.ECompleteProfile? {
      NewProfile(t, e.userId, e.profileId, f);
      hide Inv, CompleteProfile;
    } else if e.EReviewSubmission? {
      RowsAddNoProfile(t, e, f);
      hide Inv, Step;
    } else {
      OthersKeepProfiles(t, e);
      hide Inv, Step;
    }
  }

  lemma RowsAddNoProfile(t: Tables, e: Event, f: Id)
    requires Inv(t) && f !in t.profiles && e.EReviewSubmission?
    ensures f !in Step(t, e).profiles
  {
    var i, admin, approved, reason, n := e.submissionId, e.adminId, e.approved, e.reason, e.newUserId;
    RowReviewGranted(t, i, admin, approved, reason, n);
    hide Inv, Settled, SettledProfile, ApprovedAccount, GrantedOnApproval, ReviewedPage, ReviewSubmission;
    if ReviewSubmission(t, i, admin, approved, reason, n).1 == Ok {
      match t.queue[i].entity {
        case PageEntity(q) => PageRowForm(t, i, q, admin, approved, reason, n);
        case ProfileEntity(g) => ProfileRowForm(t, i, g, admin, approved, reason, n);
      }
    }
  }

  // ---------------------------------------------------------------------------
  // Accounts and the ledger
  // ---------------------------------------------------------------------------

  /** The submitted page that a step approves, if any. */
  function ApprovedPage(t: Tables, e: Event): Option<Id> {
    match e
    case EReviewPage(p, _, true, _) => if p in t.pages && t.pages[p].state == PageSubmitted then Some(p) else None
    case EReviewSubmission(i, _, true, _, _) =>
      if i < |t.queue| && t.queue[i].status == Pending && t.queue[i].entity.PageEntity?
      then Some(t.queue[i].entity.page) else None
    case _ => None
  }

  /** The pending profile that a step approves, if any. */
  function ApprovedProfile(t: Tables, e: Event): Option<Id> {
    match e
    case EReviewSubmission(i, _, true, _, _) =>
      if i < |t.queue| && t.queue[i].status == Pending && t.queue[i].entity.ProfileEntity?
      then Some(t.queue[i].entity.profile) else None
    case _ => None
  }

  predicate OwnsPage(t: Tables, p: Option<Id>, u: Id) {
    p.Some? && p.value in t.pages && t.pages[p.value].ownerId == u
  }

  predicate OwnsProfile(t: Tables, f: Option<Id>, u: Id) {
    f.Some? && f.value in t.profiles && t.profiles[f.value].userId == u
  }

  /** Account u after a step, read off the tables before. */
  function NextUser(t: Tables, e: Event, u: Id): User
    requires u in t.users
  {
    var user := t.users[u];
    if e == EVerifyIdentity(u) then user.(identityVerified := true)
    else if e.ESetRole? && e.userId == u then user.(role := e.role)
    else if OwnsPage(t, ApprovedPage(t, e), u) then
      user.(role := if t.pages[ApprovedPage(t, e).value].agent then Agent else Landlord, identityVerified := true)
    else if OwnsProfile(t, ApprovedProfile(t, e), u) then
      user.(role := Student, emailVerified := true, identityVerified := true)
    else user
  }

  /** What a step adds to the ledger. */
  function EarnedRows(t: Tables, e: Event): seq<LedgerRow> {
    match e
    case ERegister(u, email, _, vouched) =>
      if vouched && email !in t.userByEmail && u !in t.users then [LedgerRow(u, IdentityVerified, 15, None)] else []
    case EVerifyIdentity(u) => if u in t.users then [LedgerRow(u, IdentityVerified, 15, None)] else []
    case _ =>
      var p := ApprovedPage(t, e);
      if p.Some? && p.value in t.pages then [LedgerRow(t.pages[p.value].ownerId, IdentityVerified, 15, p)] else []
  }

  predicate UserIs(users: map<Id, User>, u: Id, user: User) {
    u in users && users[u] == user
  }

  predicate AccountIs(t: Tables, t': Tables, e: Event, u: Id)
    requires u in t.users
  {
    UserIs(t'.users, u, NextUser(t, e, u)) && t'.ledger == t.ledger + EarnedRows(t, e)
  }

  lemma AfterRegistration(t: Tables, v: Id, email: string, role: Role, vouched: bool, u: Id)
    requires u in t.users
    ensures AccountIs(t, Register(t, v, email, role, vouched).0, ERegister(v, email, role, vouched), u)
  {
  }

  lemma AfterVouching(t: Tables, v: Id, u: Id)
    requires u in t.users
    ensures AccountIs(t, VerifyIdentity(t, v).0, EVerifyIdentity(v), u)
  {
  }

  lemma AfterRoleChange(t: Tables, v: Id, role: Role, u: Id)
    requires u in t.users
    ensures AccountIs(t, SetRole(t, v, role).0, ESetRole(v, role), u)
  {
  }

  lemma AfterEdits(t: Tables, e: Event, u: Id)
    requires u in t.users && (e.ECreatePage? || e.EUpdatePage? || e.ESubmitPage? || e.ECompleteProfile?)
    ensures AccountIs(t, Step(t, e), e, u)
  {
    OtherStepsKeepUsers(t, e);
    EditsEarnNothing(t, e);
    hide Step;
  }

  lemma EditsEarnNothing(t: Tables, e: Event)
    requires e.ECreatePage? || e.EUpdatePage? || e.ESubmitPage? || e.ECompleteProfile?
    ensures Step(t, e).ledger == t.ledger
  {
    hide Register, VerifyIdentity, SetRole, ReviewPage, ReviewSubmission;
  }

  lemma AfterPageDecision(t: Tables, t': Tables, e: Event, p: Id, approved: bool, u: Id)
    requires u in t.users && GrantedOnApproval(t, t', p, approved) && (e.EReviewPage? || e.EReviewSubmission?)
    requires ApprovedPage(t, e) == (if approved then Some(p) else None) && ApprovedProfile(t, e) == None
    ensures AccountIs(t, t', e, u)
  {
    hide ApprovedPage, ApprovedProfile;
  }

  lemma AfterProfileDecision(t: Tables, t': Tables, e: Event, f: Id, approved: bool, u: Id)
    requires u in t.users && e.EReviewSubmission? && f in t.profiles && t.profiles[f].userId in t.users
    requires var v := t.profiles[f].userId; t'.users == t.users[v := ApprovedAccount(t.users[v], approved)]
    requires t'.ledger == t.ledger
    requires ApprovedProfile(t, e) == (if approved then Some(f) else None) && ApprovedPage(t, e) == None
    ensures AccountIs(t, t', e, u)
  {
    hide ApprovedPage, ApprovedProfile;
  }

  lemma NothingDecided(t: Tables, e: Event, u: Id)
    requires u in t.users && (e.EReviewPage? || e.EReviewSubmission?)
    requires ApprovedProfile(t, e) == None && ApprovedPage(t, e) == None
    ensures AccountIs(t, t, e, u)
  {
    hide ApprovedPage, ApprovedProfile;
  }

  lemma AfterPageReview(t: Tables, p: Id, admin: Id, approved: bool, reason: Option<string>, u: Id)
    requires Inv(t) && u in t.users
    ensures AccountIs(t, ReviewPage(t, p, admin, approved, reason).0, EReviewPage(p, admin, approved, reason), u)
  {
    hide Inv, ReviewPage, AccountIs, GrantedOnApproval;
    var e := EReviewPage(p, admin, approved, reason);
    PageReviewGranted(t, p, admin, approved, reason);
    if ReviewPage(t, p, admin, approved, reason).1 == Ok {
      PageReviewForm(t, p, admin, approved, reason);
      AfterPageDecision(t, ReviewPage(t, p, admin, approved, reason).0, e, p, approved, u);
    } else {
      NothingDecided(t, e, u);
    }
  }

  lemma AfterRow(t: Tables, i: nat, admin: Id, approved: bool, reason: Option<string>, n: Id, u: Id)
    requires Inv(t) && u in t.users
    ensures AccountIs(t, ReviewSubmission(t, i, admin, approved, reason, n).0,
                      EReviewSubmission(i, admin, approved, reason, n), u)
  {
    hide Inv, ReviewSubmission, AccountIs, GrantedOnApproval, ApprovedAccount;
    var e, t' := EReviewSubmission(i, admin, approved, reason, n), ReviewSubmission(t, i, admin, approved, reason, n).0;
    RowReviewGranted(t, i, admin, approved, reason, n);
    if ReviewSubmission(t, i, admin, approved, reason, n).1 == Ok {
      match t.queue[i].entity
      case PageEntity(p) =>
        PageRowForm(t, i, p, admin, approved, reason, n);
        AfterPageDecision(t, t', e, p, approved, u);
      case ProfileEntity(f) =>
        ProfileRowForm(t, i, f, admin, approved, reason, n);
        AfterProfileDecision(t, t', e, f, approved, u);
    } else {
      NothingDecided(t, e, u);
    }
  }

  /** Exactly what every step makes of every account, and what it adds to the ledger. */
  lemma AccountAfterStep(t: Tables, e: Event, u: Id)
    requires Inv(t) && u in t.users
    ensures u in Step(t, e).users && Step(t, e).users[u] == NextUser(t, e, u)
    ensures Step(t, e).ledger == t.ledger + EarnedRows(t, e)
  {
    hide Inv, CreatePage, UpdatePage, SubmitPage, ReviewPage, CompleteProfile, ReviewSubmission, Register,
      VerifyIdentity, SetRole, NextUser, EarnedRows;
    match e
    case ERegister(v, email, role, vouched) => AfterRegistration(t, v, email, role, vouched, u);
    case EVerifyIdentity(v) => AfterVouching(t, v, u);
    case ESetRole(v, role) => AfterRoleChange(t, v, role, u);
    case EReviewPage(p, admin, approved, reason) => AfterPageReview(t, p, admin, approved, reason, u);
    case EReviewSubmission(i, admin, approved, reason, n) => AfterRow(t, i, admin, approved, reason, n, u);
    case _ => AfterEdits(t, e, u);
  }

  lemma ReviewsAddNoUser(t: Tables, e: Event, u: Id)
    requires Inv(t) && u !in t.users && (e.EReviewPage? || e.EReviewSubmission?)
    ensures u !in Step(t, e).users
  {
    hide Inv, Settled, SettledProfile, ReviewedPage;
    match e
    case EReviewPage(q, admin, approved, reason) =>
      PageReviewGranted(t, q, admin, approved, reason);
      if ReviewPage(t, q, admin, approved, reason).1 == Ok {
        PageReviewForm(t, q, admin, approved, reason);
      }
      hide ReviewPage;
    case EReviewSubmission(i, admin, approved, reason, n) =>
      RowReviewGranted(t, i, admin, approved, reason, n);
      if ReviewSubmission(t, i, admin, approved, reason, n).1 == Ok {
        match t.queue[i].entity {
          case PageEntity(q) => PageRowForm(t, i, q, admin, approved, reason, n);
          case ProfileEntity(f) => ProfileRowForm(t, i, f, admin, approved, reason, n);
        }
      }
      hide ReviewSubmission;
  }

  lemma OnlyRegistrationAdds(t: Tables, e: Event, u: Id)
    requires u !in t.users && !e.EReviewPage? && !e.EReviewSubmission?
    ensures u in Step(t, e).users <==> e.ERegister? && e.userId == u && e.email !in t.userByEmail
    ensures u in Step(t, e).users ==> Step(t, e).users[u] == User(e.email, e.role, e.vouched || e.role == Admin, true)
  {
    hide ReviewPage, ReviewSubmission;
  }

  /** Accounts come from registrations only: on consistent tables the approval of a
      profile never has to create one. */
  lemma AccountBirth(t: Tables, e: Event, u: Id)
    requires Inv(t) && u !in t.users
    ensures u in Step(t, e).users <==> e.ERegister? && e.userId == u && e.email !in t.userByEmail
    ensures u in Step(t, e).users ==> Step(t, e).users[u] == User(e.email, e.role, e.vouched || e.role == Admin, true)
  {
    hide Inv, Step;
    if e.EReviewPage? || e.EReviewSubmission? {
      ReviewsAddNoUser(t, e, u);
    } else {
      OnlyRegistrationAdds(t, e, u);
    }
  }
}
