/**
  Who may offer rooms and who may book them: provider pages and student profiles
  go through one admin review queue, which two services can settle.

  Each operation is a function from tables to tables. A row of the queue is known
  by its position (rows are never removed); the unique indexes on user email, page
  owner, profile user and profile email are tables of their own.
 */
module Verification {
  import opened Wrappers
  import opened TrustScore

  type Id = nat

  datatype Role = Student | Agent | Landlord | Admin

  datatype User = User(email: string, role: Role, identityVerified: bool, emailVerified: bool)

  datatype PageState = PageDraft | PageSubmitted | PageVerified | PageRejected

  /** `agent` is providerType === 'AGENT'; `complete` says whether the content
      passes the submission checks. */
  datatype Page = Page(ownerId: Id, state: PageState, agent: bool, complete: bool, verifiedBy: Option<Id>,
                       notes: Option<string>)

  datatype ReviewStatus = Pending | Approved | Rejected

  datatype Profile = Profile(userId: Id, email: string, status: ReviewStatus, reviewedBy: Option<Id>,
                             rejectionReason: Option<string>)

  datatype Entity = PageEntity(page: Id) | ProfileEntity(profile: Id)

  datatype QueueRow = QueueRow(email: string, entity: Entity, status: ReviewStatus, reviewedBy: Option<Id>,
                               reviewNotes: Option<string>, rejectionReason: Option<string>)

  /** A ledger row; `page` is the page named in the payload, if any. */
  datatype LedgerRow = LedgerRow(userId: Id, eventType: EventType, weight: int, page: Option<Id>)

  datatype Action =
    | PageCreated | PageUpdated | PageSubmittedForReview | PageWasVerified | PageWasRejected
    | SubmissionApproved | SubmissionRejected | ProfileSubmitted
    | ListingSubmitted | ListingVerified | ListingRejected

  datatype Audit = Audit(actorId: Id, action: Action, entityId: Id)

  datatype Tables = Tables(
    users: map<Id, User>, userByEmail: map<string, Id>,
    pages: map<Id, Page>, pageByOwner: map<Id, Id>,
    profiles: map<Id, Profile>, profileByUser: map<Id, Id>, profileByEmail: map<string, Id>,
    queue: seq<QueueRow>, ledger: seq<LedgerRow>, audits: seq<Audit>)

  datatype Reply = Ok | NotFound | Forbidden | Conflict | BadRequest | ConstraintViolation

  const EMPTY := Tables(map[], map[], map[], map[], map[], map[], map[], [], [], [])

  // ---------------------------------------------------------------------------
  // Operations
  // ---------------------------------------------------------------------------

  /** Account creation (sign-up, agent onboarding, admin creation): the onboarding
      path also vouches for the identity. */
  function Register(t: Tables, userId: Id, email: string, role: Role, vouched: bool): (Tables, Reply) {
    if email in t.userByEmail then (t, Conflict)
    else if userId in t.users then (t, ConstraintViolation)
    else
      (t.(users := t.users[userId := User(email, role, vouched || role == Admin, true)],
          userByEmail := t.userByEmail[email := userId],
          ledger := if vouched then t.ledger + [LedgerRow(userId, IdentityVerified, 15, None)] else t.ledger), Ok)
  }

  /** An admin vouches for an identity by hand; the payload names no page. */
  function VerifyIdentity(t: Tables, userId: Id): (Tables, Reply) {
    if userId !in t.users then (t, NotFound)
    else
      (t.(users := t.users[userId := t.users[userId].(identityVerified := true)],
          ledger := t.ledger + [LedgerRow(userId, IdentityVerified, 15, None)]), Ok)
  }

  /** An admin sets a role outright. */
  function SetRole(t: Tables, userId: Id, role: Role): (Tables, Reply) {
    if userId !in t.users then (t, NotFound)
    else (t.(users := t.users[userId := t.users[userId].(role := role)]), Ok)
  }

  function CreatePage(t: Tables, ownerId: Id, pageId: Id, agent: bool, complete: bool,
                      payoutsValid: bool): (Tables, Reply) {
    if ownerId !in t.users then (t, NotFound)
    else if t.users[ownerId].role == Admin then (t, Forbidden)
    else if !payoutsValid then (t, BadRequest)
    else if HasPage(t, ownerId) then
      var p := t.pageByOwner[ownerId];
      if t.pages[p].state != PageRejected then (t, Conflict)
      else
        (t.(pages := t.pages[p := Page(ownerId, PageDraft, agent, complete, None, None)],
            audits := t.audits + [Audit(ownerId, PageUpdated, p)]), Ok)
    else if pageId in t.pages then (t, ConstraintViolation)
    else
      (t.(pages := t.pages[pageId := Page(ownerId, PageDraft, agent, complete, None, None)],
          pageByOwner := t.pageByOwner[ownerId := pageId],
          audits := t.audits + [Audit(ownerId, PageCreated, pageId)]), Ok)
  }

  predicate HasPage(t: Tables, ownerId: Id) {
    ownerId in t.pageByOwner && t.pageByOwner[ownerId] in t.pages
  }

  predicate Editable(s: PageState) {
    s == PageDraft || s == PageRejected
  }

  function UpdatePage(t: Tables, ownerId: Id, agent: bool, complete: bool, payoutsValid: bool): (Tables, Reply) {
    if !HasPage(t, ownerId) then (t, NotFound)
    else
      var p := t.pageByOwner[ownerId];
      if !Editable(t.pages[p].state) then (t, Conflict)
      else if !payoutsValid then (t, BadRequest)
      else
        (t.(pages := t.pages[p := t.pages[p].(state := PageDraft, agent := agent, complete := complete,
                                              verifiedBy := None, notes := None)],
            audits := t.audits + [Audit(ownerId, PageUpdated, p)]), Ok)
  }

  function SubmitPage(t: Tables, ownerId: Id): (Tables, Reply) {
    if !HasPage(t, ownerId) then (t, NotFound)
    else
      var p := t.pageByOwner[ownerId];
      if !Editable(t.pages[p].state) then (t, Conflict)
      else if ownerId !in t.users then (t, NotFound)
      else if !t.pages[p].complete then (t, BadRequest)
      else
        (t.(pages := t.pages[p := t.pages[p].(state := PageSubmitted, verifiedBy := None, notes := None)],
            queue := t.queue + [QueueRow(t.users[ownerId].email, PageEntity(p), Pending, None, None, None)],
            audits := t.audits + [Audit(ownerId, PageSubmittedForReview, p)]), Ok)
  }

  /** The newest pending row of an entity. */
  function NewestPending(queue: seq<QueueRow>, e: Entity): Option<nat> {
    if |queue| == 0 then None
    else if PendingFor(queue[|queue| - 1], e) then Some(|queue| - 1)
    else NewestPending(queue[..|queue| - 1], e)
  }

  predicate PendingFor(row: QueueRow, e: Entity) {
    row.entity == e && row.status == Pending
  }

  function ProviderRole(agent: bool): Role {
    if agent then Agent else Landlord
  }

  function Settled(row: QueueRow, adminId: Id, approved: bool, reason: Option<string>): QueueRow {
    row.(status := if approved then Approved else Rejected, reviewedBy := Some(adminId),
         reviewNotes := reason, rejectionReason := if approved then None else reason)
  }

  function ReviewedPage(page: Page, adminId: Id, approved: bool, reason: Option<string>): Page {
    page.(state := if approved then PageVerified else PageRejected,
          verifiedBy := if approved then Some(adminId) else None, notes := reason)
  }

  /** The transaction of the page service: page, queue row i, audit, and on approval
      account and ledger. */
  function PageSettled(t: Tables, pageId: Id, i: nat, adminId: Id, approved: bool, reason: Option<string>): Tables
    requires pageId in t.pages && i < |t.queue| && (approved ==> t.pages[pageId].ownerId in t.users)
  {
    var page := t.pages[pageId];
    var role := ProviderRole(page.agent);
    t.(pages := t.pages[pageId := ReviewedPage(page, adminId, approved, reason)],
       queue := t.queue[i := Settled(t.queue[i], adminId, approved, reason)],
       audits := t.audits + [Audit(adminId, if approved then PageWasVerified else PageWasRejected, pageId)],
       users := if approved
                then t.users[page.ownerId := t.users[page.ownerId].(role := role, identityVerified := true)]
                else t.users,
       ledger := if approved
                 then t.ledger + [LedgerRow(page.ownerId, IdentityVerified, 15, Some(pageId))]
                 else t.ledger)
  }

  /** The page service settles a page by its id; `reason` is the trimmed note. */
  function ReviewPage(t: Tables, pageId: Id, adminId: Id, approved: bool, reason: Option<string>): (Tables, Reply) {
    if pageId !in t.pages then (t, NotFound)
    else if t.pages[pageId].state != PageSubmitted then (t, Conflict)
    else if !approved && reason.None? then (t, BadRequest)
    else
      var q := NewestPending(t.queue, PageEntity(pageId));
      if q.None? || q.value >= |t.queue| then (t, NotFound)
      else if approved && t.pages[pageId].ownerId !in t.users then (t, NotFound)
      else (PageSettled(t, pageId, q.value, adminId, approved, reason), Ok)
  }

  /** A rejected profile goes back into review. */
  function Resubmitted(t: Tables, userId: Id, f: Id): Tables
    requires userId in t.users && f in t.profiles
  {
    t.(profiles := t.profiles[f := t.profiles[f].(status := Pending, reviewedBy := None, rejectionReason := None)],
       queue := t.queue + [QueueRow(t.users[userId].email, ProfileEntity(f), Pending, None, None, None)],
       audits := t.audits + [Audit(userId, ProfileSubmitted, f)])
  }

  /** A new profile goes into review. */
  function FirstSubmitted(t: Tables, userId: Id, f: Id): Tables
    requires userId in t.users
  {
    var email := t.users[userId].email;
    t.(profiles := t.profiles[f := Profile(userId, email, Pending, None, None)],
       profileByUser := t.profileByUser[userId := f],
       profileByEmail := t.profileByEmail[email := f],
       queue := t.queue + [QueueRow(email, ProfileEntity(f), Pending, None, None, None)],
       audits := t.audits + [Audit(userId, ProfileSubmitted, f)])
  }

  function CompleteProfile(t: Tables, userId: Id, profileId: Id): (Tables, Reply) {
    if userId !in t.users then (t, NotFound)
    else if t.users[userId].role != Student then (t, Forbidden)
    else if userId in t.profileByUser && t.profileByUser[userId] in t.profiles then
      var f := t.profileByUser[userId];
      if t.profiles[f].status == Pending || t.profiles[f].status == Approved then (t, Conflict)
      else (Resubmitted(t, userId, f), Ok)
    else if profileId in t.profiles || t.users[userId].email in t.profileByEmail then (t, ConstraintViolation)
    else (FirstSubmitted(t, userId, profileId), Ok)
  }

  /** First part of the admin service's transaction: queue row and audit. */
  function RowSettled(t: Tables, i: nat, adminId: Id, approved: bool, reason: Option<string>): Tables
    requires i < |t.queue|
  {
    t.(queue := t.queue[i := Settled(t.queue[i], adminId, approved, reason)],
       audits := t.audits + [Audit(adminId, if approved then SubmissionApproved else SubmissionRejected, i)])
  }

  /** The admin service settles a row of the queue, whatever it is about. */
  function ReviewSubmission(t: Tables, submissionId: nat, adminId: Id, approved: bool, reason: Option<string>,
                            newUserId: Id): (Tables, Reply) {
    if submissionId >= |t.queue| then (t, NotFound)
    else if t.queue[submissionId].status != Pending then (t, Conflict)
    else if !approved && reason.None? then (t, BadRequest)
    else
      var row := t.queue[submissionId];
      var t1 := RowSettled(t, submissionId, adminId, approved, reason);
      match row.entity
      case PageEntity(pageId) =>
        if pageId !in t.pages then (t, NotFound)
        else if t.pages[pageId].state != PageSubmitted then (t, Conflict)
        else if approved && t.pages[pageId].ownerId !in t.users then (t, NotFound)
        else (SettlePage(t1, pageId, adminId, approved, reason), Ok)
      case ProfileEntity(f) =>
        if f !in t.profiles then (t, NotFound)
        else if t.profiles[f].status != Pending then (t, Conflict)
        else if approved && !CanAttach(t, row.email, f, newUserId) then (t, ConstraintViolation)
        else (SettleProfile(t1, row.email, f, adminId, approved, reason, newUserId), Ok)
  }

  function SettlePage(t: Tables, pageId: Id, adminId: Id, approved: bool, reason: Option<string>): Tables
    requires pageId in t.pages && (approved ==> t.pages[pageId].ownerId in t.users)
  {
    var page := t.pages[pageId];
    var t1 := t.(pages := t.pages[pageId := ReviewedPage(page, adminId, approved, reason)]);
    if !approved then t1
    else
      t1.(users := t.users[page.ownerId := t.users[page.ownerId].(role := ProviderRole(page.agent),
                                                                  identityVerified := true)],
          ledger := t.ledger + [LedgerRow(page.ownerId, IdentityVerified, 15, Some(pageId))])
  }

  /** The account an approved profile is attached to: found by email, or new. */
  function AccountFor(t: Tables, email: string, newUserId: Id): Id {
    if email in t.userByEmail then t.userByEmail[email] else newUserId
  }

  predicate CanAttach(t: Tables, email: string, f: Id, newUserId: Id) {
    var u := AccountFor(t, email, newUserId);
    && (if email in t.userByEmail then u in t.users else u !in t.users)
    && (u in t.profileByUser ==> t.profileByUser[u] == f)
  }

  function SettleProfile(t: Tables, email: string, f: Id, adminId: Id, approved: bool, reason: Option<string>,
                         newUserId: Id): Tables
    requires f in t.profiles && (approved ==> CanAttach(t, email, f, newUserId))
  {
    if !approved then
      t.(profiles := t.profiles[f := t.profiles[f].(status := Rejected, reviewedBy := Some(adminId),
                                                    rejectionReason := reason)])
    else
      var u := AccountFor(t, email, newUserId);
      var account := if email in t.userByEmail
        then t.users[u].(role := Student, emailVerified := true, identityVerified := true)
                     else User(email, Student, true, true);
      var old' := t.profiles[f].userId;
      t.(users := t.users[u := account],
         userByEmail := t.userByEmail[email := u],
         profiles := t.profiles[f := t.profiles[f].(userId := u, status := Approved, reviewedBy := Some(adminId),
                                                    rejectionReason := None)],
         profileByUser := (t.profileByUser - {old'})[u := f])
  }

  // ---------------------------------------------------------------------------
  // Runs
  // ---------------------------------------------------------------------------

  datatype Event =
    | ERegister(userId: Id, email: string, role: Role, vouched: bool)
    | EVerifyIdentity(userId: Id)
    | ESetRole(userId: Id, role: Role)
    | ECreatePage(ownerId: Id, pageId: Id, agent: bool, complete: bool, payoutsValid: bool)
    | EUpdatePage(ownerId: Id, agent: bool, complete: bool, payoutsValid: bool)
    | ESubmitPage(ownerId: Id)
    | EReviewPage(pageId: Id, adminId: Id, approved: bool, reason: Option<string>)
    | ECompleteProfile(userId: Id, profileId: Id)
    | EReviewSubmission(submissionId: nat, adminId: Id, approved: bool, reason: Option<string>, newUserId: Id)

  function Step(t: Tables, e: Event): Tables {
    match e
    case ERegister(u, email, role, vouched) => Register(t, u, email, role, vouched).0
    case EVerifyIdentity(u) => VerifyIdentity(t, u).0
    case ESetRole(u, role) => SetRole(t, u, role).0
    case ECreatePage(o, p, a, c, v) => CreatePage(t, o, p, a, c, v).0
    case EUpdatePage(o, a, c, v) => UpdatePage(t, o, a, c, v).0
    case ESubmitPage(o) => SubmitPage(t, o).0
    case EReviewPage(p, admin, ok, reason) => ReviewPage(t, p, admin, ok, reason).0
    case ECompleteProfile(u, f) => CompleteProfile(t, u, f).0
    case EReviewSubmission(s, admin, ok, reason, n) => ReviewSubmission(t, s, admin, ok, reason, n).0
  }

  function Run(t: Tables, events: seq<Event>): Tables {
    if |events| == 0 then t else Step(Run(t, events[..|events| - 1]), events[|events| - 1])
  }
}
