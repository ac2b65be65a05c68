/**
  Page, profile and review handlers as they are written: reads, guards, and then a
  transaction of single updates, taken back as a whole when one of them is refused.
  Each handler keeps the tables valid, which is the invariant of every run, and does
  exactly what its function in Verification says; so a sequence of requests served
  one after the other is a run, and everything proved of runs holds of it.
 */
module VerificationService {
  import opened Wrappers
  import opened TrustScore
  import opened Verification
  import VP = VerificationProofs
  import RO = ReviewOutcomes

  class VerificationTables {
    var users: map<Id, User>
    var userByEmail: map<string, Id>
    var pages: map<Id, Page>
    var pageByOwner: map<Id, Id>
    var profiles: map<Id, Profile>
    var profileByUser: map<Id, Id>
    var profileByEmail: map<string, Id>
    var queue: seq<QueueRow>
    var ledger: seq<LedgerRow>
    var audits: seq<Audit>

    constructor ()
      ensures Valid() && Model() == EMPTY
    {
      users, userByEmail, pages, pageByOwner := map[], map[], map[], map[];
      profiles, profileByUser, profileByEmail := map[], map[], map[];
      queue, ledger, audits := [], [], [];
      new;
      VP.RunKeepsInv([]);
    }

    /** Indexes, queue references, lockstep and identity events are in order. */
    ghost predicate Valid()
      reads this
    {
      VP.Inv(Model())
    }

    ghost function Model(): Tables
      reads this
    {
      Tables(users, userByEmail, pages, pageByOwner, profiles, profileByUser, profileByEmail, queue, ledger, audits)
    }

    method Log(actorId: Id, action: Action, entityId: Id)
      modifies this`audits
      ensures audits == old(audits) + [Audit(actorId, action, entityId)]
    {
      audits := audits + [Audit(actorId, action, entityId)];
    }

    method RecordEvent(userId: Id, eventType: EventType, weight: int, page: Option<Id>)
      modifies this`ledger
      ensures ledger == old(ledger) + [LedgerRow(userId, eventType, weight, page)]
    {
      ledger := ledger + [LedgerRow(userId, eventType, weight, page)];
    }

    method FindPageOf(ownerId: Id) returns (found: Option<Id>)
      ensures found.Some? <==> HasPage(Model(), ownerId)
      ensures found.Some? ==> found.value == pageByOwner[ownerId]
    {
      found := None;
      if ownerId in pageByOwner && pageByOwner[ownerId] in pages {
        found := Some(pageByOwner[ownerId]);
      }
    }

    // -------------------------------------------------------------------------
    // Accounts
    // -------------------------------------------------------------------------

    method RegisterUser(userId: Id, email: string, role: Role, vouched: bool) returns (reply: Reply)
      requires Valid()
      modifies this
      ensures (Model(), reply) == Register(old(Model()), userId, email, role, vouched)
      ensures Valid()
    {
      hide VP.Inv, VP.PendingCount;
      ghost var after := Register(Model(), userId, email, role, vouched).0;
      VP.RegisterKeepsInv(Model(), userId, email, role, vouched);
      if email in userByEmail {
        assert Model() == after;
        return Conflict;
      }
      if userId in users {
        assert Model() == after;
        return ConstraintViolation;
      }
      users := users[userId := User(email, role, vouched || role == Admin, true)];
      userByEmail := userByEmail[email := userId];
      if vouched {
        RecordEvent(userId, IdentityVerified, 15, None);
      }
      assert Model() == after;
      return Ok;
    }

    method VouchForIdentity(userId: Id) returns (reply: Reply)
      requires Valid()
      modifies this
      ensures (Model(), reply) == VerifyIdentity(old(Model()), userId)
      ensures Valid()
    {
      hide VP.Inv, VP.PendingCount;
      VP.VerifyIdentityKeepsInv(Model(), userId);
      if userId !in users {
        return NotFound;
      }
      users := users[userId := users[userId].(identityVerified := true)];
      RecordEvent(userId, IdentityVerified, 15, None);
      return Ok;
    }

    method SetUserRole(userId: Id, role: Role) returns (reply: Reply)
      requires Valid()
      modifies this
      ensures (Model(), reply) == SetRole(old(Model()), userId, role)
      ensures Valid()
    {
      hide VP.Inv, VP.PendingCount;
      VP.SetRoleKeepsInv(Model(), userId, role);
      if userId !in users {
        return NotFound;
      }
      users := users[userId := users[userId].(role := role)];
      return Ok;
    }

    // -------------------------------------------------------------------------
    // Provider pages
    // -------------------------------------------------------------------------

    method Create(ownerId: Id, pageId: Id, agent: bool, complete: bool, payoutsValid: bool) returns (reply: Reply)
      requires Valid()
      modifies this
      ensures (Model(), reply) == CreatePage(old(Model()), ownerId, pageId, agent, complete, payoutsValid)
      ensures Valid()
      ensures reply == Ok ==>
                && HasPage(Model(), ownerId)
                && pages[pageByOwner[ownerId]] == Page(ownerId, PageDraft, agent, complete, None, None)
    {
      hide VP.Inv, VP.PendingCount;
      ghost var after := CreatePage(Model(), ownerId, pageId, agent, complete, payoutsValid).0;
      VP.CreatePageKeepsInv(Model(), ownerId, pageId, agent, complete, payoutsValid);
      if ownerId !in users {
        assert Model() == after;
        return NotFound;
      }
      if users[ownerId].role == Admin {
        assert Model() == after;
        return Forbidden;
      }
      if !payoutsValid {
        assert Model() == after;
        return BadRequest;
      }
      var existing := FindPageOf(ownerId);
      if existing.Some? {
        if pages[existing.value].state != PageRejected {
          assert Model() == after;
          return Conflict;
        }
        pages := pages[existing.value := Page(ownerId, PageDraft, agent, complete, None, None)];
        Log(ownerId, PageUpdated, existing.value);
        assert Model() == after;
        return Ok;
      }
      if pageId in pages {
        assert Model() == after;
        return ConstraintViolation;
      }
      pages := pages[pageId := Page(ownerId, PageDraft, agent, complete, None, None)];
      pageByOwner := pageByOwner[ownerId := pageId];
      Log(ownerId, PageCreated, pageId);
      assert Model() == after;
      return Ok;
    }

    method Update(ownerId: Id, agent: bool, complete: bool, payoutsValid: bool) returns (reply: Reply)
      requires Valid()
      modifies this
      ensures (Model(), reply) == UpdatePage(old(Model()), ownerId, agent, complete, payoutsValid)
      ensures Valid()
      ensures reply == Ok ==>
                && HasPage(Model(), ownerId)
                && pages[pageByOwner[ownerId]] == Page(ownerId, PageDraft, agent, complete, None, None)
    {
      hide VP.Inv, VP.PendingCount;
      VP.UpdateOutcome(Model(), ownerId, agent, complete, payoutsValid);
      var found := FindPageOf(ownerId);
      if found.None? {
        return NotFound;
      }
      var page := pages[found.value];
      if page.state != PageDraft && page.state != PageRejected {
        return Conflict;
      }
      if !payoutsValid {
        return BadRequest;
      }
      pages := pages[found.value := page.(state := PageDraft, agent := agent, complete := complete, verifiedBy := None,
                                          notes := None)];
      Log(ownerId, PageUpdated, found.value);
      return Ok;
    }

    method Submit(ownerId: Id) returns (reply: Reply)
      requires Valid()
      modifies this
      ensures (Model(), reply) == SubmitPage(old(Model()), ownerId)
      ensures Valid()
      ensures reply == Ok ==>
                && HasPage(Model(), ownerId) && pages[pageByOwner[ownerId]].state == PageSubmitted
                && VP.PendingCount(queue, PageEntity(pageByOwner[ownerId])) == 1
                && ownerId in users
                && queue == old(queue) + [QueueRow(users[ownerId].email, PageEntity(pageByOwner[ownerId]), Pending,
                                                   None, None, None)]
    {
      hide VP.Inv, VP.PendingCount;
      VP.SubmitOutcome(Model(), ownerId);
      var found := FindPageOf(ownerId);
      if found.None? {
        return NotFound;
      }
      var page := pages[found.value];
      if page.state != PageDraft && page.state != PageRejected {
        return Conflict;
      }
      if ownerId !in users {
        return NotFound;
      }
      if !page.complete {
        return BadRequest;
      }
      pages := pages[found.value := page.(state := PageSubmitted, verifiedBy := None, notes := None)];
      queue := queue + [QueueRow(users[ownerId].email, PageEntity(found.value), Pending, None, None, None)];
      Log(ownerId, PageSubmittedForReview, found.value);
      return Ok;
    }

    /** The newest pending row of an entity, by a scan from the end. */
    method FindPending(e: Entity) returns (found: Option<nat>)
      ensures found == NewestPending(queue, e)
      ensures found.Some? ==> found.value < |queue|
    {
      var i := |queue|;
      assert queue[..i] == queue;
      while i > 0 && !PendingFor(queue[i - 1], e)
        invariant 0 <= i <= |queue|
        invariant NewestPending(queue, e) == NewestPending(queue[..i], e)
      {
        assert queue[..i][..i - 1] == queue[..i - 1];
        i := i - 1;
      }
      if i == 0 {
        return None;
      }
      return Some(i - 1);
    }

    method SettleQueueRow(i: nat, adminId: Id, approved: bool, reason: Option<string>)
      requires i < |queue|
      modifies this`queue
      ensures queue == old(queue)[i := Settled(old(queue)[i], adminId, approved, reason)]
    {
      var row := queue[i];
      row := row.(reviewedBy := Some(adminId), reviewNotes := reason);
      if approved {
        row := row.(status := Approved, rejectionReason := None);
      } else {
        row := row.(status := Rejected, rejectionReason := reason);
      }
      queue := queue[i := row];
    }

    /** The transaction of the page service, taken back when the owner is missing. */
    method SettlePageAndRow(pageId: Id, i: nat, adminId: Id, approved: bool, reason: Option<string>)
      returns (reply: Reply)
      requires pageId in pages && i < |queue|
      modifies this
      ensures var t := old(Model());
              if approved && t.pages[pageId].ownerId !in t.users then (Model(), reply) == (t, NotFound)
              else (Model(), reply) == (PageSettled(t, pageId, i, adminId, approved, reason), Ok)
    {
      hide Settled, ReviewedPage;
      var pages0, queue0, audits0 := pages, queue, audits;
      var page := pages[pageId];
      pages := pages[pageId := ReviewedPage(page, adminId, approved, reason)];
      SettleQueueRow(i, adminId, approved, reason);
      Log(adminId, if approved then PageWasVerified else PageWasRejected, pageId);
      if approved {
        if page.ownerId !in users {
          pages, queue, audits := pages0, queue0, audits0;
          return NotFound;
        }
        users := users[page.ownerId := users[page.ownerId].(role := ProviderRole(page.agent),
                                                            identityVerified := true)];
        RecordEvent(page.ownerId, IdentityVerified, 15, Some(pageId));
      }
      return Ok;
    }

    method Review(pageId: Id, adminId: Id, approved: bool, reason: Option<string>) returns (reply: Reply)
      requires Valid()
      modifies this
      ensures (Model(), reply) == ReviewPage(old(Model()), pageId, adminId, approved, reason)
      ensures Valid()
      ensures reply == Ok ==>
                && pageId in pages && VP.PendingCount(queue, PageEntity(pageId)) == 0
                && (approved <==> pages[pageId].state == PageVerified)
    {
      hide VP.Inv, VP.PendingCount, PageSettled, NewestPending;
      VP.ReviewOutcome(Model(), pageId, adminId, approved, reason);
      if pageId !in pages {
        return NotFound;
      }
      if pages[pageId].state != PageSubmitted {
        return Conflict;
      }
      if !approved && reason.None? {
        return BadRequest;
      }
      var row := FindPending(PageEntity(pageId));
      if row.None? {
        return NotFound;
      }
      reply := SettlePageAndRow(pageId, row.value, adminId, approved, reason);
    }

    // -------------------------------------------------------------------------
    // Student profiles and the review queue
    // -------------------------------------------------------------------------

    method SubmitProfile(userId: Id, f: Id, email: string)
      modifies this`queue, this`audits
      ensures queue == old(queue) + [QueueRow(email, ProfileEntity(f), Pending, None, None, None)]
      ensures audits == old(audits) + [Audit(userId, ProfileSubmitted, f)]
    {
      queue := queue + [QueueRow(email, ProfileEntity(f), Pending, None, None, None)];
      Log(userId, ProfileSubmitted, f);
    }

    method Resubmit(userId: Id, f: Id)
      requires userId in users && f in profiles
      modifies this
      ensures Model() == Resubmitted(old(Model()), userId, f)
    {
      profiles := profiles[f := profiles[f].(status := Pending, reviewedBy := None, rejectionReason := None)];
      SubmitProfile(userId, f, users[userId].email);
    }

    method SubmitFirst(userId: Id, f: Id)
      requires userId in users
      modifies this
      ensures Model() == FirstSubmitted(old(Model()), userId, f)
    {
      var email := users[userId].email;
      profiles := profiles[f := Profile(userId, email, Pending, None, None)];
      profileByUser := profileByUser[userId := f];
      profileByEmail := profileByEmail[email := f];
      SubmitProfile(userId, f, email);
    }

    method Complete(userId: Id, profileId: Id) returns (reply: Reply)
      requires Valid()
      modifies this
      ensures (Model(), reply) == CompleteProfile(old(Model()), userId, profileId)
      ensures Valid()
      ensures reply == Ok ==>
                && userId in profileByUser && profileByUser[userId] in profiles
                && VP.PendingCount(queue, ProfileEntity(profileByUser[userId])) == 1
    {
      hide VP.Inv, VP.PendingCount, Resubmitted, FirstSubmitted;
      VP.ProfileOutcome(Model(), userId, profileId);
      if userId !in users {
        return NotFound;
      }
      var user := users[userId];
      if user.role != Student {
        return Forbidden;
      }
      if userId in profileByUser && profileByUser[userId] in profiles {
        var f := profileByUser[userId];
        if profiles[f].status == Pending || profiles[f].status == Approved {
          return Conflict;
        }
        Resubmit(userId, f);
      } else {
        if profileId in profiles || user.email in profileByEmail {
          return ConstraintViolation;
        }
        SubmitFirst(userId, profileId);
      }
      return Ok;
    }

    /** The second review path: any row of the queue. */
    method ReviewRow(submissionId: nat, adminId: Id, approved: bool, reason: Option<string>, newUserId: Id)
      returns (reply: Reply)
      requires Valid()
      modifies this
      ensures (Model(), reply) == ReviewSubmission(old(Model()), submissionId, adminId, approved, reason, newUserId)
      ensures Valid()
      ensures reply == Ok ==> submissionId < |queue| && VP.PendingCount(queue, queue[submissionId].entity) == 0
      ensures reply == Ok ==> queue[submissionId].status == if approved then Approved else Rejected
    {
      hide VP.Inv, VP.PendingCount, SettlePage, SettleProfile, RowSettled, CanAttach;
      VP.SubmissionOutcome(Model(), submissionId, adminId, approved, reason, newUserId);
      if ReviewSubmission(Model(), submissionId, adminId, approved, reason, newUserId).1 == Ok {
        RO.DecisionTakesEffect(Model(), submissionId, adminId, approved, reason, newUserId);
      }
      if submissionId >= |queue| {
        return NotFound;
      }
      var row := queue[submissionId];
      if row.status != Pending {
        return Conflict;
      }
      if !approved && reason.None? {
        return BadRequest;
      }
      match row.entity {
        case PageEntity(p) =>
          if p !in pages {
            return NotFound;
          }
          if pages[p].state != PageSubmitted {
            return Conflict;
          }
        case ProfileEntity(f) =>
          if f !in profiles {
            return NotFound;
          }
          if profiles[f].status != Pending {
            return Conflict;
          }
      }
      reply := SettleRowAndEntity(submissionId, adminId, approved, reason, newUserId);
    }

    /** The transaction of the admin service, taken back when one part is refused. */
    method SettleRowAndEntity(i: nat, adminId: Id, approved: bool, reason: Option<string>, newUserId: Id)
      returns (reply: Reply)
      requires i < |queue|
      requires match queue[i].entity case PageEntity(p) => p in pages case ProfileEntity(f) => f in profiles
      modifies this
      ensures var t := old(Model());
              var t1 := RowSettled(t, i, adminId, approved, reason);
              match t.queue[i].entity
              case PageEntity(p) =>
                if approved && t.pages[p].ownerId !in t.users then (Model(), reply) == (t, NotFound)
                else (Model(), reply) == (SettlePage(t1, p, adminId, approved, reason), Ok)
              case ProfileEntity(f) =>
                var email := t.queue[i].email;
                if approved && !CanAttach(t, email, f, newUserId) then (Model(), reply) == (t, ConstraintViolation)
                else (Model(), reply) == (SettleProfile(t1, email, f, adminId, approved, reason, newUserId), Ok)
    {
      hide SettlePage, SettleProfile, Settled;
      var queue0, audits0 := queue, audits;
      var row := queue[i];
      SettleQueueRow(i, adminId, approved, reason);
      Log(adminId, if approved then SubmissionApproved else SubmissionRejected, i);
      match row.entity {
        case PageEntity(p) => reply := Moderate(p, adminId, approved, reason);
        case ProfileEntity(f) => reply := Attach(row.email, f, adminId, approved, reason, newUserId);
      }
      if reply != Ok {
        queue, audits := queue0, audits0;
      }
    }

    /** The page part of the transaction. */
    method Moderate(p: Id, adminId: Id, approved: bool, reason: Option<string>) returns (reply: Reply)
      requires p in pages
      modifies this
      ensures var t := old(Model());
              if approved && t.pages[p].ownerId !in t.users then (Model(), reply) == (t, NotFound)
              else (Model(), reply) == (SettlePage(t, p, adminId, approved, reason), Ok)
    {
      var page := pages[p];
      if approved && page.ownerId !in users {
        return NotFound;
      }
      pages := pages[p := ReviewedPage(page, adminId, approved, reason)];
      if approved {
        users := users[page.ownerId := users[page.ownerId].(role := ProviderRole(page.agent),
                                                            identityVerified := true)];
        RecordEvent(page.ownerId, IdentityVerified, 15, Some(p));
      }
      return Ok;
    }

    /** The profile part: on approval it finds or creates the account by email. */
    method Attach(email: string, f: Id, adminId: Id, approved: bool, reason: Option<string>, newUserId: Id)
      returns (reply: Reply)
      requires f in profiles
      modifies this
      ensures var t := old(Model());
              if approved && !CanAttach(t, email, f, newUserId) then (Model(), reply) == (t, ConstraintViolation)
              else (Model(), reply) == (SettleProfile(t, email, f, adminId, approved, reason, newUserId), Ok)
    {
      var profile := profiles[f];
      if !approved {
        profiles := profiles[f := profile.(status := Rejected, reviewedBy := Some(adminId), rejectionReason := reason)];
        return Ok;
      }
      var u := if email in userByEmail then userByEmail[email] else newUserId;
      var taken := if email in userByEmail then u !in users else u in users;
      if taken || (u in profileByUser && profileByUser[u] != f) {
        return ConstraintViolation;
      }
      if email in userByEmail {
        users := users[u := users[u].(role := Student, emailVerified := true, identityVerified := true)];
      } else {
        users := users[u := User(email, Student, true, true)];
      }
      userByEmail := userByEmail[email := u];
      profiles := profiles[f := profile.(userId := u, status := Approved, reviewedBy := Some(adminId),
                                         rejectionReason := None)];
      profileByUser := (profileByUser - {profile.userId})[u := f];
      return Ok;
    }

    // -------------------------------------------------------------------------
    // Runs
    // -------------------------------------------------------------------------

    method Serve(e: Event)
      requires Valid()
      modifies this
      ensures Model() == Step(old(Model()), e)
      ensures Valid()
    {
      hide VP.Inv, Register, VerifyIdentity, SetRole, CreatePage, UpdatePage, SubmitPage, ReviewPage, CompleteProfile,
        ReviewSubmission, HasPage, VP.PendingCount;
      var reply;
      match e {
        case ERegister(u, email, role, vouched) => reply := RegisterUser(u, email, role, vouched);
        case EVerifyIdentity(u) => reply := VouchForIdentity(u);
        case ESetRole(u, role) => reply := SetUserRole(u, role);
        case ECreatePage(o, p, a, c, v) => reply := Create(o, p, a, c, v);
        case EUpdatePage(o, a, c, v) => reply := Update(o, a, c, v);
        case ESubmitPage(o) => reply := Submit(o);
        case EReviewPage(p, admin, ok, reason) => reply := Review(p, admin, ok, reason);
        case ECompleteProfile(u, f) => reply := Complete(u, f);
        case EReviewSubmission(i, admin, ok, reason, n) => reply := ReviewRow(i, admin, ok, reason, n);
      }
    }

    method ServeAll(events: seq<Event>)
      requires Valid()
      modifies this
      ensures Model() == Run(old(Model()), events)
      ensures Valid()
    {
      hide VP.Inv, Step;
      for k := 0 to |events|
        invariant Valid()
        invariant Model() == Run(old(Model()), events[..k])
      {
        assert events[..k + 1][..k] == events[..k];
        Serve(events[k]);
      }
      assert events[..|events|] == events;
    }
  }
}
