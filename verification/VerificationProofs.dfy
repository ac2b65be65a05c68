/**
  What every run of the verification workflow keeps: pages, profiles, queue and
  ledger in lockstep, and verified pages for good.
 */
module VerificationProofs {
  import opened Wrappers
  import opened TrustScore
  import opened Verification

  // ---------------------------------------------------------------------------
  // Counting queue rows and ledger rows
  // ---------------------------------------------------------------------------

  function PendingCount(queue: seq<QueueRow>, e: Entity): nat {
    if |queue| == 0 then 0
    else PendingCount(queue[..|queue| - 1], e) + (if PendingFor(queue[|queue| - 1], e) then 1 else 0)
  }

  /** Identity events whose payload names the page. */
  function NamingCount(ledger: seq<LedgerRow>, page: Id): nat {
    if |ledger| == 0 then 0
    else NamingCount(ledger[..|ledger| - 1], page) + (if Names(ledger[|ledger| - 1], page) then 1 else 0)
  }

  predicate Names(row: LedgerRow, page: Id) {
    row.eventType == IdentityVerified && row.page == Some(page)
  }

  lemma PendingAppend(queue: seq<QueueRow>, row: QueueRow)
    ensures forall e :: PendingCount(queue + [row], e) == PendingCount(queue, e) + (if PendingFor(row, e) then 1 else 0)
  {
    assert (queue + [row])[..|queue|] == queue;
  }

  lemma NamingAppend(ledger: seq<LedgerRow>, row: LedgerRow)
    ensures forall p :: NamingCount(ledger + [row], p) == NamingCount(ledger, p) + (if Names(row, p) then 1 else 0)
  {
    assert (ledger + [row])[..|ledger|] == ledger;
  }

  lemma {:induction false} PendingUpdateAt(queue: seq<QueueRow>, i: nat, row: QueueRow, e: Entity)
    requires i < |queue|
    ensures PendingCount(queue[i := row], e) + (if PendingFor(queue[i], e) then 1 else 0)
         == PendingCount(queue, e) + (if PendingFor(row, e) then 1 else 0)
  {
    var init := queue[..|queue| - 1];
    if i == |queue| - 1 {
      assert queue[i := row][..|queue| - 1] == init;
    } else {
      PendingUpdateAt(init, i, row, e);
      assert queue[i := row][..|queue| - 1] == init[i := row];
    }
  }

  lemma {:induction false} PendingPositive(queue: seq<QueueRow>, i: nat, e: Entity)
    requires i < |queue| && PendingFor(queue[i], e)
    ensures PendingCount(queue, e) >= 1
  {
    if i < |queue| - 1 {
      PendingPositive(queue[..|queue| - 1], i, e);
    }
  }

  lemma {:induction false} PendingZero(queue: seq<QueueRow>, e: Entity)
    requires forall i :: 0 <= i < |queue| ==> queue[i].entity != e
    ensures PendingCount(queue, e) == 0
  {
    if |queue| > 0 {
      PendingZero(queue[..|queue| - 1], e);
    }
  }

  /** The search for the newest pending row finds one exactly when there is one. */
  lemma {:induction false} NewestPendingFinds(queue: seq<QueueRow>, e: Entity)
    ensures var q := NewestPending(queue, e);
            && (q.Some? <==> PendingCount(queue, e) >= 1)
            && (q.Some? ==> q.value < |queue| && PendingFor(queue[q.value], e))
  {
    if |queue| > 0 {
      NewestPendingFinds(queue[..|queue| - 1], e);
    }
  }

  lemma {:induction false} OnlyPendingRow(queue: seq<QueueRow>, i: nat, j: nat, e: Entity)
    requires i < |queue| && j < |queue| && PendingFor(queue[i], e) && PendingFor(queue[j], e)
    requires PendingCount(queue, e) == 1
    ensures i == j
  {
    var last := |queue| - 1;
    if i == last && j < last {
      PendingPositive(queue[..last], j, e);
    } else if j == last && i < last {
      PendingPositive(queue[..last], i, e);
    } else if i < last && j < last {
      PendingPositive(queue[..last], i, e);
      OnlyPendingRow(queue[..last], i, j, e);
    }
  }

  // ---------------------------------------------------------------------------
  // The invariant
  // ---------------------------------------------------------------------------

  ghost predicate UsersOk(users: map<Id, User>, byEmail: map<string, Id>) {
    && (forall u :: u in users ==> users[u].email in byEmail && byEmail[users[u].email] == u)
    && (forall m :: m in byEmail ==> byEmail[m] in users && users[byEmail[m]].email == m)
  }

  ghost predicate PagesOk(pages: map<Id, Page>, byOwner: map<Id, Id>, users: map<Id, User>) {
    && (forall p :: p in pages ==>
        pages[p].ownerId in byOwner && byOwner[pages[p].ownerId] == p && pages[p].ownerId in users)
    && (forall o :: o in byOwner ==> byOwner[o] in pages && pages[byOwner[o]].ownerId == o)
  }

  ghost predicate ProfilesOk(profiles: map<Id, Profile>, byUser: map<Id, Id>, byEmail: map<string, Id>,
                             users: map<Id, User>) {
    && (forall f :: f in profiles ==>
          && profiles[f].userId in users && users[profiles[f].userId].email == profiles[f].email
          && profiles[f].userId in byUser && byUser[profiles[f].userId] == f
          && profiles[f].email in byEmail && byEmail[profiles[f].email] == f)
    && (forall u :: u in byUser ==> byUser[u] in profiles && profiles[byUser[u]].userId == u)
    && (forall m :: m in byEmail ==> byEmail[m] in profiles && profiles[byEmail[m]].email == m)
  }

  predicate RowRefers(row: QueueRow, pages: map<Id, Page>, profiles: map<Id, Profile>) {
    match row.entity
    case PageEntity(p) => p in pages
    case ProfileEntity(f) => f in profiles && profiles[f].email == row.email
  }

  ghost predicate QueueOk(queue: seq<QueueRow>, pages: map<Id, Page>, profiles: map<Id, Profile>) {
    forall i :: 0 <= i < |queue| ==> RowRefers(queue[i], pages, profiles)
  }

  /** A page is SUBMITTED exactly when it has exactly one pending queue row;
      otherwise it has none. */
  ghost predicate LockPages(queue: seq<QueueRow>, pages: map<Id, Page>) {
    forall p :: p in pages ==> PendingCount(queue, PageEntity(p)) == if pages[p].state == PageSubmitted then 1 else 0
  }

  /** The same for student profiles. */
  ghost predicate LockProfiles(queue: seq<QueueRow>, profiles: map<Id, Profile>) {
    forall f :: f in profiles ==>
      PendingCount(queue, ProfileEntity(f)) == if profiles[f].status == Pending then 1 else 0
  }

  /** Exactly the verified pages are named by an identity event, once each. */
  ghost predicate NamedOnce(ledger: seq<LedgerRow>, pages: map<Id, Page>) {
    forall p :: NamingCount(ledger, p) == if p in pages && pages[p].state == PageVerified then 1 else 0
  }

  ghost predicate Inv(t: Tables) {
    && UsersOk(t.users, t.userByEmail)
    && PagesOk(t.pages, t.pageByOwner, t.users)
    && ProfilesOk(t.profiles, t.profileByUser, t.profileByEmail, t.users)
    && QueueOk(t.queue, t.pages, t.profiles)
    && LockPages(t.queue, t.pages)
    && LockProfiles(t.queue, t.profiles)
    && NamedOnce(t.ledger, t.pages)
  }

  // ---------------------------------------------------------------------------
  // How each table change carries the invariant
  // ---------------------------------------------------------------------------

  ghost predicate SameAccounts(users: map<Id, User>, users': map<Id, User>) {
    forall u :: u in users ==> u in users' && users'[u].email == users[u].email
  }

  lemma AccountChange(users: map<Id, User>, byEmail: map<string, Id>, u: Id, user: User)
    requires UsersOk(users, byEmail) && u in users && user.email == users[u].email
    ensures UsersOk(users[u := user], byEmail) && SameAccounts(users, users[u := user])
  {
  }

  lemma AccountAdd(users: map<Id, User>, byEmail: map<string, Id>, u: Id, user: User)
    requires UsersOk(users, byEmail) && u !in users && user.email !in byEmail
    ensures UsersOk(users[u := user], byEmail[user.email := u]) && SameAccounts(users, users[u := user])
  {
  }

  lemma AccountsFrame(t: Tables, users': map<Id, User>)
    requires PagesOk(t.pages, t.pageByOwner, t.users) &&
      ProfilesOk(t.profiles, t.profileByUser, t.profileByEmail, t.users)
    requires SameAccounts(t.users, users')
    ensures PagesOk(t.pages, t.pageByOwner, users') && ProfilesOk(t.profiles, t.profileByUser, t.profileByEmail, users')
  {
  }

  lemma PageChange(pages: map<Id, Page>, byOwner: map<Id, Id>, users: map<Id, User>, p: Id, page: Page)
    requires PagesOk(pages, byOwner, users) && p in pages && page.ownerId == pages[p].ownerId
    ensures PagesOk(pages[p := page], byOwner, users)
  {
  }

  lemma PageAdd(pages: map<Id, Page>, byOwner: map<Id, Id>, users: map<Id, User>, p: Id, page: Page)
    requires PagesOk(pages, byOwner, users) && p !in pages && page.ownerId !in byOwner && page.ownerId in users
    ensures PagesOk(pages[p := page], byOwner[page.ownerId := p], users)
  {
  }

  lemma QueueFrame(queue: seq<QueueRow>, pages: map<Id, Page>, profiles: map<Id, Profile>, pages': map<Id, Page>,
                   profiles': map<Id, Profile>)
    requires QueueOk(queue, pages, profiles)
    requires forall p :: p in pages ==> p in pages'
    requires forall f :: f in profiles ==> f in profiles' && profiles'[f].email == profiles[f].email
    ensures QueueOk(queue, pages', profiles')
  {
    forall i | 0 <= i < |queue| ensures RowRefers(queue[i], pages', profiles') {
      assert RowRefers(queue[i], pages, profiles);
    }
  }

  lemma QueueAppend(queue: seq<QueueRow>, row: QueueRow, pages: map<Id, Page>, profiles: map<Id, Profile>)
    requires QueueOk(queue, pages, profiles) && RowRefers(row, pages, profiles)
    ensures QueueOk(queue + [row], pages, profiles)
  {
  }

  lemma QueueUpdate(queue: seq<QueueRow>, i: nat, row: QueueRow, pages: map<Id, Page>, profiles: map<Id, Profile>)
    requires QueueOk(queue, pages, profiles) && i < |queue| && row.entity == queue[i].entity &&
      row.email == queue[i].email
    ensures QueueOk(queue[i := row], pages, profiles)
  {
    assert RowRefers(queue[i], pages, profiles);
  }

  ghost predicate SameCounts(queue: seq<QueueRow>, queue': seq<QueueRow>, except: Entity) {
    forall e :: e != except ==> PendingCount(queue', e) == PendingCount(queue, e)
  }

  /** One page moves together with its own queue rows. */
  lemma LockPage(queue: seq<QueueRow>, queue': seq<QueueRow>, pages: map<Id, Page>, profiles: map<Id, Profile>, p: Id,
                 page: Page)
    requires LockPages(queue, pages) && LockProfiles(queue, profiles)
    requires SameCounts(queue, queue', PageEntity(p))
    requires PendingCount(queue', PageEntity(p)) == if page.state == PageSubmitted then 1 else 0
    ensures LockPages(queue', pages[p := page]) && LockProfiles(queue', profiles)
  {
  }

  /** One profile moves together with its own queue rows. */
  lemma LockProfile(queue: seq<QueueRow>, queue': seq<QueueRow>, pages: map<Id, Page>, profiles: map<Id, Profile>,
                    f: Id, profile: Profile)
    requires LockPages(queue, pages) && LockProfiles(queue, profiles)
    requires SameCounts(queue, queue', ProfileEntity(f))
    requires PendingCount(queue', ProfileEntity(f)) == if profile.status == Pending then 1 else 0
    ensures LockPages(queue', pages) && LockProfiles(queue', profiles[f := profile])
  {
  }

  lemma AppendPending(queue: seq<QueueRow>, row: QueueRow)
    requires row.status == Pending
    ensures SameCounts(queue, queue + [row], row.entity)
    ensures PendingCount(queue + [row], row.entity) == PendingCount(queue, row.entity) + 1
  {
    PendingAppend(queue, row);
  }

  lemma SettleRow(queue: seq<QueueRow>, i: nat, row: QueueRow)
    requires i < |queue| && queue[i].status == Pending && row.entity == queue[i].entity && row.status != Pending
    ensures SameCounts(queue, queue[i := row], row.entity)
    ensures PendingCount(queue[i := row], row.entity) == PendingCount(queue, row.entity) - 1
  {
    forall e ensures PendingCount(queue[i := row], e) + (if e == row.entity then 1 else 0) == PendingCount(queue, e) {
      PendingUpdateAt(queue, i, row, e);
    }
  }

  lemma FreshEntity(queue: seq<QueueRow>, pages: map<Id, Page>, profiles: map<Id, Profile>, e: Entity)
    requires QueueOk(queue, pages, profiles)
    requires match e case PageEntity(p) => p !in pages case ProfileEntity(f) => f !in profiles
    ensures PendingCount(queue, e) == 0
  {
    forall i | 0 <= i < |queue| ensures queue[i].entity != e {
      assert RowRefers(queue[i], pages, profiles);
    }
    PendingZero(queue, e);
  }

  lemma UnnamedRow(ledger: seq<LedgerRow>, row: LedgerRow, pages: map<Id, Page>)
    requires NamedOnce(ledger, pages) && row.page == None
    ensures NamedOnce(ledger + [row], pages)
  {
    NamingAppend(ledger, row);
  }

  lemma UnverifiedChange(ledger: seq<LedgerRow>, pages: map<Id, Page>, p: Id, page: Page)
    requires NamedOnce(ledger, pages) && page.state != PageVerified
    requires p in pages ==> pages[p].state != PageVerified
    ensures NamedOnce(ledger, pages[p := page])
  {
  }

  lemma NamedRow(ledger: seq<LedgerRow>, row: LedgerRow, pages: map<Id, Page>, p: Id, page: Page)
    requires NamedOnce(ledger, pages) && Names(row, p) && page.state == PageVerified
    requires p in pages && pages[p].state != PageVerified
    ensures NamedOnce(ledger + [row], pages[p := page])
  {
    NamingAppend(ledger, row);
  }

  // ---------------------------------------------------------------------------
  // Every operation keeps the invariant
  // ---------------------------------------------------------------------------

  lemma RegisterKeepsInv(t: Tables, userId: Id, email: string, role: Role, vouched: bool)
    requires Inv(t)
    ensures Inv(Register(t, userId, email, role, vouched).0)
  {
    hide UsersOk, PagesOk, ProfilesOk, QueueOk, LockPages, LockProfiles, NamedOnce;
    if email !in t.userByEmail && userId !in t.users {
      var user := User(email, role, vouched || role == Admin, true);
      AccountAdd(t.users, t.userByEmail, userId, user);
      AccountsFrame(t, t.users[userId := user]);
      UnnamedRow(t.ledger, LedgerRow(userId, IdentityVerified, 15, None), t.pages);
    }
  }

  lemma AccountEditKeepsInv(t: Tables, u: Id, user: User)
    requires Inv(t) && u in t.users && user.email == t.users[u].email
    ensures Inv(t.(users := t.users[u := user]))
  {
    hide UsersOk, PagesOk, ProfilesOk, QueueOk, LockPages, LockProfiles, NamedOnce;
    AccountChange(t.users, t.userByEmail, u, user);
    AccountsFrame(t, t.users[u := user]);
  }

  lemma VerifyIdentityKeepsInv(t: Tables, u: Id)
    requires Inv(t)
    ensures Inv(VerifyIdentity(t, u).0)
  {
    hide UsersOk, PagesOk, ProfilesOk, QueueOk, LockPages, LockProfiles, NamedOnce;
    if u in t.users {
      AccountEditKeepsInv(t, u, t.users[u].(identityVerified := true));
      UnnamedRow(t.ledger, LedgerRow(u, IdentityVerified, 15, None), t.pages);
    }
  }

  lemma SetRoleKeepsInv(t: Tables, u: Id, role: Role)
    requires Inv(t)
    ensures Inv(SetRole(t, u, role).0)
  {
    if u in t.users {
      AccountEditKeepsInv(t, u, t.users[u].(role := role));
    }
  }

  /** A page that is neither submitted nor verified is rewritten as a draft. */
  lemma RedraftKeepsInv(t: Tables, p: Id, page: Page)
    requires Inv(t) && p in t.pages && Editable(t.pages[p].state)
    requires page.ownerId == t.pages[p].ownerId && page.state == PageDraft
    ensures Inv(t.(pages := t.pages[p := page]))
  {
    assert PendingCount(t.queue, PageEntity(p)) == 0;
    hide UsersOk, PagesOk, ProfilesOk, QueueOk, LockPages, LockProfiles, NamedOnce, PendingCount;
    PageChange(t.pages, t.pageByOwner, t.users, p, page);
    QueueFrame(t.queue, t.pages, t.profiles, t.pages[p := page], t.profiles);
    LockPage(t.queue, t.queue, t.pages, t.profiles, p, page);
    UnverifiedChange(t.ledger, t.pages, p, page);
  }

  lemma InvIgnoresAudits(t: Tables, audits: seq<Audit>)
    requires Inv(t)
    ensures Inv(t.(audits := audits))
  {
  }

  lemma NewPageKeepsInv(t: Tables, o: Id, p: Id, page: Page)
    requires Inv(t) && p !in t.pages && o !in t.pageByOwner && o in t.users
    requires page.ownerId == o && page.state == PageDraft
    ensures Inv(t.(pages := t.pages[p := page], pageByOwner := t.pageByOwner[o := p]))
  {
    hide UsersOk, PagesOk, ProfilesOk, QueueOk, LockPages, LockProfiles, NamedOnce, PendingCount;
    FreshEntity(t.queue, t.pages, t.profiles, PageEntity(p));
    PageAdd(t.pages, t.pageByOwner, t.users, p, page);
    QueueFrame(t.queue, t.pages, t.profiles, t.pages[p := page], t.profiles);
    LockPage(t.queue, t.queue, t.pages, t.profiles, p, page);
    UnverifiedChange(t.ledger, t.pages, p, page);
  }

  lemma OwnersPage(t: Tables, o: Id)
    requires PagesOk(t.pages, t.pageByOwner, t.users)
    ensures HasPage(t, o) <==> o in t.pageByOwner
    ensures HasPage(t, o) ==> t.pages[t.pageByOwner[o]].ownerId == o
  {
  }

  lemma CreatePageKeepsInv(t: Tables, o: Id, p: Id, agent: bool, complete: bool, valid: bool)
    requires Inv(t)
    ensures Inv(CreatePage(t, o, p, agent, complete, valid).0)
  {
    OwnersPage(t, o);
    hide Inv;
    var page := Page(o, PageDraft, agent, complete, None, None);
    if CreatePage(t, o, p, agent, complete, valid).1 == Ok {
      if HasPage(t, o) {
        var p := t.pageByOwner[o];
        RedraftKeepsInv(t, p, page);
        InvIgnoresAudits(t.(pages := t.pages[p := page]), t.audits + [Audit(o, PageUpdated, p)]);
      } else {
        NewPageKeepsInv(t, o, p, page);
        InvIgnoresAudits(t.(pages := t.pages[p := page], pageByOwner := t.pageByOwner[o := p]),
                         t.audits + [Audit(o, PageCreated, p)]);
      }
    }
  }

  /** What a granted edit leaves: the owner's page, as a draft with the new content. */
  lemma UpdateOutcome(t: Tables, o: Id, agent: bool, complete: bool, valid: bool)
    requires Inv(t)
    ensures var (t', r) := UpdatePage(t, o, agent, complete, valid);
            && Inv(t')
            && (r == Ok ==>
                  HasPage(t', o) && t'.pages[t'.pageByOwner[o]] == Page(o, PageDraft, agent, complete, None, None))
  {
    UpdatePageKeepsInv(t, o, agent, complete, valid);
    OwnersPage(t, o);
    hide Inv;
  }

  lemma UpdatePageKeepsInv(t: Tables, o: Id, agent: bool, complete: bool, valid: bool)
    requires Inv(t)
    ensures Inv(UpdatePage(t, o, agent, complete, valid).0)
  {
    hide Inv;
    if UpdatePage(t, o, agent, complete, valid).1 == Ok {
      var p := t.pageByOwner[o];
      var page := t.pages[p].(state := PageDraft, agent := agent, complete := complete, verifiedBy := None,
                              notes := None);
      RedraftKeepsInv(t, p, page);
      InvIgnoresAudits(t.(pages := t.pages[p := page]), t.audits + [Audit(o, PageUpdated, p)]);
    }
  }

  /** A page and one new pending row. */
  lemma SubmissionKeepsInv(t: Tables, p: Id, page: Page, row: QueueRow)
    requires Inv(t) && p in t.pages && Editable(t.pages[p].state)
    requires page.ownerId == t.pages[p].ownerId && page.state == PageSubmitted
    requires row.entity == PageEntity(p) && row.status == Pending
    ensures Inv(t.(pages := t.pages[p := page], queue := t.queue + [row]))
  {
    assert PendingCount(t.queue, PageEntity(p)) == 0;
    hide UsersOk, PagesOk, ProfilesOk, QueueOk, LockPages, LockProfiles, NamedOnce, PendingCount;
    PageChange(t.pages, t.pageByOwner, t.users, p, page);
    QueueFrame(t.queue, t.pages, t.profiles, t.pages[p := page], t.profiles);
    QueueAppend(t.queue, row, t.pages[p := page], t.profiles);
    AppendPending(t.queue, row);
    LockPage(t.queue, t.queue + [row], t.pages, t.profiles, p, page);
    UnverifiedChange(t.ledger, t.pages, p, page);
  }

  lemma SubmitPageKeepsInv(t: Tables, o: Id)
    requires Inv(t)
    ensures Inv(SubmitPage(t, o).0)
  {
    hide Inv;
    if SubmitPage(t, o).1 == Ok {
      var p := t.pageByOwner[o];
      var page := t.pages[p].(state := PageSubmitted, verifiedBy := None, notes := None);
      var row := QueueRow(t.users[o].email, PageEntity(p), Pending, None, None, None);
      SubmissionKeepsInv(t, p, page, row);
      InvIgnoresAudits(t.(pages := t.pages[p := page], queue := t.queue + [row]),
                       t.audits + [Audit(o, PageSubmittedForReview, p)]);
    }
  }

  /** A submitted page and its pending row are settled together. */
  lemma SettlementKeepsInv(t: Tables, p: Id, i: nat, adminId: Id, approved: bool, reason: Option<string>)
    requires Inv(t) && p in t.pages && t.pages[p].state == PageSubmitted
    requires i < |t.queue| && PendingFor(t.queue[i], PageEntity(p))
    ensures t.pages[p].ownerId in t.users
    ensures Inv(SettlePage(t.(queue := t.queue[i := Settled(t.queue[i], adminId, approved, reason)]), p, adminId,
                           approved, reason))
  {
    assert PendingCount(t.queue, PageEntity(p)) == 1;
    hide UsersOk, ProfilesOk, QueueOk, LockPages, LockProfiles, NamedOnce, PendingCount;
    var page := ReviewedPage(t.pages[p], adminId, approved, reason);
    var row := Settled(t.queue[i], adminId, approved, reason);
    var owner := page.ownerId;
    assert owner in t.users;
    hide PagesOk;
    PageChange(t.pages, t.pageByOwner, t.users, p, page);
    QueueFrame(t.queue, t.pages, t.profiles, t.pages[p := page], t.profiles);
    QueueUpdate(t.queue, i, row, t.pages[p := page], t.profiles);
    SettleRow(t.queue, i, row);
    LockPage(t.queue, t.queue[i := row], t.pages, t.profiles, p, page);
    var t1 := t.(pages := t.pages[p := page], queue := t.queue[i := row]);
    if approved {
      var ledgerRow := LedgerRow(owner, IdentityVerified, 15, Some(p));
      NamedRow(t.ledger, ledgerRow, t.pages, p, page);
      var t2 := t1.(ledger := t.ledger + [ledgerRow]);
      AccountEditKeepsInv(t2, owner, t.users[owner].(role := ProviderRole(page.agent), identityVerified := true));
    } else {
      UnverifiedChange(t.ledger, t.pages, p, page);
    }
  }

  lemma ReviewPageAsSettlement(t: Tables, p: Id, adminId: Id, approved: bool, reason: Option<string>)
    requires Inv(t) && ReviewPage(t, p, adminId, approved, reason).1 == Ok
    ensures var q := NewestPending(t.queue, PageEntity(p));
            && q.Some? && q.value < |t.queue| && PendingFor(t.queue[q.value], PageEntity(p))
            && ReviewPage(t, p, adminId, approved, reason).0
               == SettlePage(t.(queue := t.queue[q.value := Settled(t.queue[q.value], adminId, approved, reason)]), p,
                             adminId, approved, reason)
                  .(audits := t.audits + [Audit(adminId, if approved then PageWasVerified else PageWasRejected, p)])
  {
    hide Inv;
    NewestPendingFinds(t.queue, PageEntity(p));
  }

  lemma ReviewPageKeepsInv(t: Tables, p: Id, adminId: Id, approved: bool, reason: Option<string>)
    requires Inv(t)
    ensures Inv(ReviewPage(t, p, adminId, approved, reason).0)
  {
    hide Inv;
    if ReviewPage(t, p, adminId, approved, reason).1 == Ok {
      ReviewPageAsSettlement(t, p, adminId, approved, reason);
      var i := NewestPending(t.queue, PageEntity(p)).value;
      hide NewestPending;
      SettlementKeepsInv(t, p, i, adminId, approved, reason);
      hide SettlePage;
      InvIgnoresAudits(SettlePage(t.(queue := t.queue[i := Settled(t.queue[i], adminId, approved, reason)]), p, adminId,
                                  approved, reason),
                       t.audits + [Audit(adminId, if approved then PageWasVerified else PageWasRejected, p)]);
    }
  }

  // ---- student profiles ----

  lemma ProfileChange(profiles: map<Id, Profile>, byUser: map<Id, Id>, byEmail: map<string, Id>, users: map<Id, User>,
                      f: Id, profile: Profile)
    requires ProfilesOk(profiles, byUser, byEmail, users) && f in profiles
    requires profile.userId == profiles[f].userId && profile.email == profiles[f].email
    ensures ProfilesOk(profiles[f := profile], byUser, byEmail, users)
  {
  }

  lemma ProfileAdd(profiles: map<Id, Profile>, byUser: map<Id, Id>, byEmail: map<string, Id>, users: map<Id, User>,
                   f: Id, profile: Profile)
    requires ProfilesOk(profiles, byUser, byEmail, users) && f !in profiles
    requires profile.userId in users && users[profile.userId].email == profile.email
    requires profile.userId !in byUser && profile.email !in byEmail
    ensures ProfilesOk(profiles[f := profile], byUser[profile.userId := f], byEmail[profile.email := f], users)
  {
  }

  lemma ResubmissionKeepsInv(t: Tables, f: Id, profile: Profile, row: QueueRow)
    requires Inv(t) && f in t.profiles && t.profiles[f].status == Rejected
    requires profile.userId == t.profiles[f].userId && profile.email == t.profiles[f].email && profile.status == Pending
    requires row.entity == ProfileEntity(f) && row.status == Pending && row.email == profile.email
    ensures Inv(t.(profiles := t.profiles[f := profile], queue := t.queue + [row]))
  {
    assert PendingCount(t.queue, ProfileEntity(f)) == 0;
    hide UsersOk, PagesOk, ProfilesOk, QueueOk, LockPages, LockProfiles, NamedOnce, PendingCount;
    ProfileChange(t.profiles, t.profileByUser, t.profileByEmail, t.users, f, profile);
    QueueFrame(t.queue, t.pages, t.profiles, t.pages, t.profiles[f := profile]);
    QueueAppend(t.queue, row, t.pages, t.profiles[f := profile]);
    AppendPending(t.queue, row);
    LockProfile(t.queue, t.queue + [row], t.pages, t.profiles, f, profile);
  }

  lemma FirstSubmissionKeepsInv(t: Tables, f: Id, profile: Profile, row: QueueRow)
    requires Inv(t) && f !in t.profiles && profile.status == Pending
    requires profile.userId in t.users && t.users[profile.userId].email == profile.email
    requires profile.userId !in t.profileByUser && profile.email !in t.profileByEmail
    requires row.entity == ProfileEntity(f) && row.status == Pending && row.email == profile.email
    ensures Inv(t.(profiles := t.profiles[f := profile], profileByUser := t.profileByUser[profile.userId := f],
                   profileByEmail := t.profileByEmail[profile.email := f], queue := t.queue + [row]))
  {
    hide UsersOk, PagesOk, ProfilesOk, QueueOk, LockPages, LockProfiles, NamedOnce, PendingCount;
    FreshEntity(t.queue, t.pages, t.profiles, ProfileEntity(f));
    ProfileAdd(t.profiles, t.profileByUser, t.profileByEmail, t.users, f, profile);
    QueueFrame(t.queue, t.pages, t.profiles, t.pages, t.profiles[f := profile]);
    QueueAppend(t.queue, row, t.pages, t.profiles[f := profile]);
    AppendPending(t.queue, row);
    LockProfile(t.queue, t.queue + [row], t.pages, t.profiles, f, profile);
  }

  lemma UsersProfile(t: Tables, u: Id)
    requires ProfilesOk(t.profiles, t.profileByUser, t.profileByEmail, t.users)
    ensures u in t.profileByUser ==>
              t.profileByUser[u] in t.profiles && t.profiles[t.profileByUser[u]].userId == u
              && u in t.users && t.users[u].email == t.profiles[t.profileByUser[u]].email
  {
  }

  lemma CompleteProfileKeepsInv(t: Tables, u: Id, f: Id)
    requires Inv(t)
    ensures Inv(CompleteProfile(t, u, f).0)
  {
    UsersProfile(t, u);
    hide Inv;
    if CompleteProfile(t, u, f).1 == Ok {
      var m := t.users[u].email;
      if u in t.profileByUser {
        var g := t.profileByUser[u];
        var profile := t.profiles[g].(status := Pending, reviewedBy := None, rejectionReason := None);
        var row := QueueRow(m, ProfileEntity(g), Pending, None, None, None);
        ResubmissionKeepsInv(t, g, profile, row);
        InvIgnoresAudits(t.(profiles := t.profiles[g := profile], queue := t.queue + [row]),
                         t.audits + [Audit(u, ProfileSubmitted, g)]);
      } else {
        var profile := Profile(u, m, Pending, None, None);
        var row := QueueRow(m, ProfileEntity(f), Pending, None, None, None);
        FirstSubmissionKeepsInv(t, f, profile, row);
        InvIgnoresAudits(t.(profiles := t.profiles[f := profile], profileByUser := t.profileByUser[u := f],
                            profileByEmail := t.profileByEmail[m := f], queue := t.queue + [row]),
                         t.audits + [Audit(u, ProfileSubmitted, f)]);
      }
    }
  }

  /** An approved profile is attached to the account it came from. */
  lemma AttachedAccount(t: Tables, f: Id, newUserId: Id)
    requires UsersOk(t.users, t.userByEmail) && ProfilesOk(t.profiles, t.profileByUser, t.profileByEmail, t.users)
    requires f in t.profiles
    ensures var m := t.profiles[f].email;
            && m in t.userByEmail && AccountFor(t, m, newUserId) == t.profiles[f].userId
            && t.profiles[f].userId in t.users && t.users[t.profiles[f].userId].email == m
            && t.userByEmail[m := t.profiles[f].userId] == t.userByEmail
            && CanAttach(t, m, f, newUserId)
            && t.profiles[f].userId in t.profileByUser
            && (t.profileByUser - {t.profiles[f].userId})[t.profiles[f].userId := f] == t.profileByUser
  {
  }

  /** A pending profile and its pending row are settled together. */
  lemma ProfileRowKeepsInv(t: Tables, f: Id, i: nat, profile: Profile, row: QueueRow)
    requires Inv(t) && f in t.profiles && t.profiles[f].status == Pending
    requires profile.userId == t.profiles[f].userId && profile.email == t.profiles[f].email && profile.status != Pending
    requires i < |t.queue| && PendingFor(t.queue[i], ProfileEntity(f))
    requires row.entity == ProfileEntity(f) && row.email == t.queue[i].email && row.status != Pending
    ensures Inv(t.(queue := t.queue[i := row], profiles := t.profiles[f := profile]))
  {
    assert PendingCount(t.queue, ProfileEntity(f)) == 1;
    hide UsersOk, PagesOk, ProfilesOk, QueueOk, LockPages, LockProfiles, NamedOnce, PendingCount;
    ProfileChange(t.profiles, t.profileByUser, t.profileByEmail, t.users, f, profile);
    QueueFrame(t.queue, t.pages, t.profiles, t.pages, t.profiles[f := profile]);
    QueueUpdate(t.queue, i, row, t.pages, t.profiles[f := profile]);
    SettleRow(t.queue, i, row);
    LockProfile(t.queue, t.queue[i := row], t.pages, t.profiles, f, profile);
  }

  function SettledProfile(profile: Profile, adminId: Id, approved: bool, reason: Option<string>): Profile {
    if approved then profile.(status := Approved, reviewedBy := Some(adminId), rejectionReason := None)
    else profile.(status := Rejected, reviewedBy := Some(adminId), rejectionReason := reason)
  }

  function ApprovedAccount(user: User, approved: bool): User {
    if approved then user.(role := Student, emailVerified := true, identityVerified := true) else user
  }

  /** On consistent tables, settling a profile touches its row and its own account only. */
  lemma SettleProfileForm(t: Tables, f: Id, adminId: Id, approved: bool, reason: Option<string>, newUserId: Id)
    requires UsersOk(t.users, t.userByEmail) && ProfilesOk(t.profiles, t.profileByUser, t.profileByEmail, t.users)
    requires f in t.profiles
    ensures var m, u := t.profiles[f].email, t.profiles[f].userId;
            && u in t.users && t.users[u].email == m
            && CanAttach(t, m, f, newUserId)
            && SettleProfile(t, m, f, adminId, approved, reason, newUserId)
               == t.(profiles := t.profiles[f := SettledProfile(t.profiles[f], adminId, approved, reason)],
                     users := t.users[u := ApprovedAccount(t.users[u], approved)])
  {
    AttachedAccount(t, f, newUserId);
    hide UsersOk, ProfilesOk;
    if !approved {
      var u := t.profiles[f].userId;
      assert t.users[u := t.users[u]] == t.users;
    }
  }

  lemma ProfileSettlementKeepsInv(t: Tables, f: Id, i: nat, adminId: Id, approved: bool, reason: Option<string>,
                                  newUserId: Id)
    requires Inv(t) && f in t.profiles && t.profiles[f].status == Pending
    requires i < |t.queue| && PendingFor(t.queue[i], ProfileEntity(f))
    ensures var t1 := t.(queue := t.queue[i := Settled(t.queue[i], adminId, approved, reason)]);
            t.queue[i].email == t.profiles[f].email
            && CanAttach(t1, t.queue[i].email, f, newUserId)
            && Inv(SettleProfile(t1, t.queue[i].email, f, adminId, approved, reason, newUserId))
  {
    assert RowRefers(t.queue[i], t.pages, t.profiles);
    var u := t.profiles[f].userId;
    var row := Settled(t.queue[i], adminId, approved, reason);
    var profile := SettledProfile(t.profiles[f], adminId, approved, reason);
    SettleProfileForm(t.(queue := t.queue[i := row]), f, adminId, approved, reason, newUserId);
    hide Inv, SettleProfile, CanAttach;
    ProfileRowKeepsInv(t, f, i, profile, row);
    AccountEditKeepsInv(t.(queue := t.queue[i := row], profiles := t.profiles[f := profile]), u,
                        ApprovedAccount(t.users[u], approved));
  }

  lemma ReviewSubmissionKeepsInv(t: Tables, i: nat, adminId: Id, approved: bool, reason: Option<string>, newUserId: Id)
    requires Inv(t)
    ensures Inv(ReviewSubmission(t, i, adminId, approved, reason, newUserId).0)
  {
    hide Inv;
    var r := ReviewSubmission(t, i, adminId, approved, reason, newUserId);
    if r.1 == Ok {
      var row := Settled(t.queue[i], adminId, approved, reason);
      var audit := Audit(adminId, if approved then SubmissionApproved else SubmissionRejected, i);
      var t1 := t.(queue := t.queue[i := row]);
      InvIgnoresAudits(t, t.audits + [audit]);
      match t.queue[i].entity
      case PageEntity(p) =>
        hide ReviewedPage;
        SettlementKeepsInv(t.(audits := t.audits + [audit]), p, i, adminId, approved, reason);
      case ProfileEntity(f) =>
        ProfileSettlementKeepsInv(t.(audits := t.audits + [audit]), f, i, adminId, approved, reason, newUserId);
    }
  }

  // ---------------------------------------------------------------------------
  // Over all runs
  // ---------------------------------------------------------------------------

  lemma StepKeepsInv(t: Tables, e: Event)
    requires Inv(t)
    ensures Inv(Step(t, e))
  {
    hide Inv, Register, VerifyIdentity, SetRole, CreatePage, UpdatePage, SubmitPage, ReviewPage, CompleteProfile,
      ReviewSubmission;
    match e
    case ERegister(u, email, role, vouched) => RegisterKeepsInv(t, u, email, role, vouched);
    case EVerifyIdentity(u) => VerifyIdentityKeepsInv(t, u);
    case ESetRole(u, role) => SetRoleKeepsInv(t, u, role);
    case ECreatePage(o, p, a, c, v) => CreatePageKeepsInv(t, o, p, a, c, v);
    case EUpdatePage(o, a, c, v) => UpdatePageKeepsInv(t, o, a, c, v);
    case ESubmitPage(o) => SubmitPageKeepsInv(t, o);
    case EReviewPage(p, admin, ok, reason) => ReviewPageKeepsInv(t, p, admin, ok, reason);
    case ECompleteProfile(u, f) => CompleteProfileKeepsInv(t, u, f);
    case EReviewSubmission(s, admin, ok, reason, n) => ReviewSubmissionKeepsInv(t, s, admin, ok, reason, n);
  }

  /** In every reachable state pages, profiles, queue and ledger are in lockstep. */
  lemma {:induction false} RunKeepsInv(events: seq<Event>)
    ensures Inv(Run(EMPTY, events))
  {
    if |events| > 0 {
      RunKeepsInv(events[..|events| - 1]);
      hide Inv, Step;
      StepKeepsInv(Run(EMPTY, events[..|events| - 1]), events[|events| - 1]);
    }
  }

  /** The lockstep, for one page or profile. */
  lemma RowsOfEntity(t: Tables, e: Entity)
    requires Inv(t)
    ensures match e
            case PageEntity(p) =>
              p in t.pages ==> PendingCount(t.queue, e) == if t.pages[p].state == PageSubmitted then 1 else 0
            case ProfileEntity(f) =>
              f in t.profiles ==> PendingCount(t.queue, e) == if t.profiles[f].status == Pending then 1 else 0
  {
    hide UsersOk, PagesOk, ProfilesOk, QueueOk, NamedOnce, PendingCount;
  }

  lemma RowIsKnown(t: Tables, i: nat)
    requires Inv(t) && i < |t.queue|
    ensures match t.queue[i].entity case PageEntity(p) => p in t.pages case ProfileEntity(f) => f in t.profiles
  {
    assert RowRefers(t.queue[i], t.pages, t.profiles);
  }

  /** What a page submission leaves: one pending row for the page. */
  lemma SubmitOutcome(t: Tables, o: Id)
    requires Inv(t)
    ensures var (t', r) := SubmitPage(t, o);
            && Inv(t')
            && (r == Ok ==>
                  HasPage(t', o) && t'.pages[t'.pageByOwner[o]].state == PageSubmitted
                  && PendingCount(t'.queue, PageEntity(t'.pageByOwner[o])) == 1)
  {
    hide Inv, PendingCount;
    SubmitPageKeepsInv(t, o);
    if SubmitPage(t, o).1 == Ok {
      RowsOfEntity(SubmitPage(t, o).0, PageEntity(t.pageByOwner[o]));
    }
  }

  /** What a page review leaves: no pending row for the page. */
  lemma ReviewOutcome(t: Tables, p: Id, adminId: Id, approved: bool, reason: Option<string>)
    requires Inv(t)
    ensures var (t', r) := ReviewPage(t, p, adminId, approved, reason);
            && Inv(t')
            && (r == Ok ==>
                  p in t'.pages && (approved <==> t'.pages[p].state == PageVerified)
                  && PendingCount(t'.queue, PageEntity(p)) == 0)
  {
    hide Inv, PendingCount, NewestPending, Settled;
    ReviewPageKeepsInv(t, p, adminId, approved, reason);
    RowsOfEntity(ReviewPage(t, p, adminId, approved, reason).0, PageEntity(p));
  }

  /** What a profile submission leaves: one pending row for the profile. */
  lemma ProfileOutcome(t: Tables, u: Id, f: Id)
    requires Inv(t)
    ensures var (t', r) := CompleteProfile(t, u, f);
            && Inv(t')
            && (r == Ok ==>
                  u in t'.profileByUser && t'.profileByUser[u] in t'.profiles
                  && PendingCount(t'.queue, ProfileEntity(t'.profileByUser[u])) == 1)
  {
    hide Inv, PendingCount;
    CompleteProfileKeepsInv(t, u, f);
    var (t', r) := CompleteProfile(t, u, f);
    if r == Ok {
      RowsOfEntity(t', ProfileEntity(t'.profileByUser[u]));
    }
  }

  /** What settling a row leaves: no pending row about the same page or profile. */
  lemma SubmissionOutcome(t: Tables, i: nat, adminId: Id, approved: bool, reason: Option<string>, newUserId: Id)
    requires Inv(t)
    ensures var (t', r) := ReviewSubmission(t, i, adminId, approved, reason, newUserId);
            Inv(t') && (r == Ok ==> i < |t'.queue| && PendingCount(t'.queue, t'.queue[i].entity) == 0)
  {
    hide Inv, PendingCount, ReviewSubmission;
    ReviewSubmissionKeepsInv(t, i, adminId, approved, reason, newUserId);
    var (t', r) := ReviewSubmission(t, i, adminId, approved, reason, newUserId);
    if r == Ok {
      SettlingClosesEntity(t, i, adminId, approved, reason, newUserId);
      RowIsKnown(t', i);
      RowsOfEntity(t', t'.queue[i].entity);
    }
  }

  lemma SettlingClosesEntity(t: Tables, i: nat, adminId: Id, approved: bool, reason: Option<string>, newUserId: Id)
    requires ReviewSubmission(t, i, adminId, approved, reason, newUserId).1 == Ok
    ensures var t' := ReviewSubmission(t, i, adminId, approved, reason, newUserId).0;
            && i < |t'.queue|
            && match t'.queue[i].entity
               case PageEntity(p) => p in t'.pages ==> t'.pages[p].state != PageSubmitted
               case ProfileEntity(f) => f in t'.profiles ==> t'.profiles[f].status != Pending
  {
    hide CanAttach, AccountFor;
  }

  /** In every reachable state a page is SUBMITTED exactly when one pending queue row
      is about it, and never has two; likewise a student profile that is PENDING. A
      page is named by exactly one identity event if it is VERIFIED, and by none
      otherwise. */
  lemma Lockstep(events: seq<Event>)
    ensures var t := Run(EMPTY, events);
            && (forall p :: p in t.pages ==>
                  PendingCount(t.queue, PageEntity(p)) <= 1
                  && (t.pages[p].state == PageSubmitted <==> PendingCount(t.queue, PageEntity(p)) == 1))
            && (forall f :: f in t.profiles ==>
                  PendingCount(t.queue, ProfileEntity(f)) <= 1
                  && (t.profiles[f].status == Pending <==> PendingCount(t.queue, ProfileEntity(f)) == 1))
            && (forall p :: NamingCount(t.ledger, p) <= 1)
            && (forall p :: NamingCount(t.ledger, p) == 1 <==> (p in t.pages && t.pages[p].state == PageVerified))
  {
    RunKeepsInv(events);
    hide Run, UsersOk, PagesOk, ProfilesOk, QueueOk, PendingCount, NamingCount;
  }

  /** Seen from the queue: a pending row is always about a submitted page or a
      pending profile of the same email. */
  lemma PendingRowsAreOpen(events: seq<Event>, i: nat)
    requires i < |Run(EMPTY, events).queue| && Run(EMPTY, events).queue[i].status == Pending
    ensures var t := Run(EMPTY, events);
            match t.queue[i].entity
            case PageEntity(p) => p in t.pages && t.pages[p].state == PageSubmitted
            case ProfileEntity(f) =>
              f in t.profiles && t.profiles[f].status == Pending && t.profiles[f].email == t.queue[i].email
  {
    RunKeepsInv(events);
    var t := Run(EMPTY, events);
    assert RowRefers(t.queue[i], t.pages, t.profiles);
    PendingPositive(t.queue, i, t.queue[i].entity);
    hide Run, UsersOk, PagesOk, ProfilesOk, QueueOk, NamedOnce, PendingCount;
  }

  ghost predicate PageKept(t: Tables, t': Tables, p: Id)
    requires p in t.pages
  {
    p in t'.pages && t'.pages[p] == t.pages[p]
  }

  lemma EditsKeepVerified(t: Tables, e: Event, p: Id)
    requires p in t.pages && t.pages[p].state == PageVerified
    requires e.ECreatePage? || e.EUpdatePage? || e.ESubmitPage?
    ensures PageKept(t, Step(t, e), p)
  {
    hide Register, VerifyIdentity, SetRole, ReviewPage, CompleteProfile, ReviewSubmission;
  }

  lemma PageReviewKeepsVerified(t: Tables, q: Id, adminId: Id, approved: bool, reason: Option<string>, p: Id)
    requires p in t.pages && t.pages[p].state == PageVerified
    ensures PageKept(t, ReviewPage(t, q, adminId, approved, reason).0, p)
  {
    hide NewestPending;
  }

  lemma SettledPageKeepsOthers(t: Tables, q: Id, adminId: Id, approved: bool, reason: Option<string>, p: Id)
    requires p in t.pages && q in t.pages && q != p && (approved ==> t.pages[q].ownerId in t.users)
    ensures PageKept(t, SettlePage(t, q, adminId, approved, reason), p)
  {
  }

  lemma SettledProfileKeepsPages(t: Tables, email: string, f: Id, adminId: Id, approved: bool, reason: Option<string>,
                                 newUserId: Id, p: Id)
    requires p in t.pages && f in t.profiles && (approved ==> CanAttach(t, email, f, newUserId))
    ensures PageKept(t, SettleProfile(t, email, f, adminId, approved, reason, newUserId), p)
  {
    hide CanAttach;
  }

  lemma SubmissionReviewKeepsVerified(t: Tables, i: nat, adminId: Id, approved: bool, reason: Option<string>,
                                      newUserId: Id, p: Id)
    requires p in t.pages && t.pages[p].state == PageVerified
    ensures PageKept(t, ReviewSubmission(t, i, adminId, approved, reason, newUserId).0, p)
  {
    hide Settled, SettlePage, SettleProfile;
    if i < |t.queue| {
      var t1 := RowSettled(t, i, adminId, approved, reason);
      match t.queue[i].entity
      case PageEntity(q) =>
        if q in t.pages && q != p && (approved ==> t.pages[q].ownerId in t.users) {
          SettledPageKeepsOthers(t1, q, adminId, approved, reason, p);
        }
      case ProfileEntity(f) =>
        if f in t.profiles && (approved ==> CanAttach(t1, t.queue[i].email, f, newUserId)) {
          SettledProfileKeepsPages(t1, t.queue[i].email, f, adminId, approved, reason, newUserId, p);
        }
    }
  }

  /** The row of a verified page never changes again. */
  lemma VerifiedPageStays(t: Tables, e: Event, p: Id)
    requires p in t.pages && t.pages[p].state == PageVerified
    ensures PageKept(t, Step(t, e), p)
  {
    if e.ECreatePage? || e.EUpdatePage? || e.ESubmitPage? {
      EditsKeepVerified(t, e, p);
    } else if e.EReviewPage? {
      PageReviewKeepsVerified(t, e.pageId, e.adminId, e.approved, e.reason, p);
    } else if e.EReviewSubmission? {
      SubmissionReviewKeepsVerified(t, e.submissionId, e.adminId, e.approved, e.reason, e.newUserId, p);
    } else {
      hide CreatePage, UpdatePage, SubmitPage, ReviewPage, ReviewSubmission;
    }
  }

  lemma {:induction false} VerifiedPageStaysOverRuns(t: Tables, events: seq<Event>, p: Id)
    requires p in t.pages && t.pages[p].state == PageVerified
    ensures PageKept(t, Run(t, events), p)
  {
    hide Step;
    if |events| > 0 {
      VerifiedPageStaysOverRuns(t, events[..|events| - 1], p);
      VerifiedPageStays(Run(t, events[..|events| - 1]), events[|events| - 1], p);
    }
  }

  /** The two review paths leave pages, queue, users, profiles and ledger exactly
      alike; only the audit entry differs. */
  lemma ReviewPathsAgree(t: Tables, i: nat, p: Id, adminId: Id, approved: bool, reason: Option<string>, newUserId: Id)
    requires Inv(t) && i < |t.queue| && PendingFor(t.queue[i], PageEntity(p))
    ensures var (byPage, r1) := ReviewPage(t, p, adminId, approved, reason);
            var (byRow, r2) := ReviewSubmission(t, i, adminId, approved, reason, newUserId);
            && r1 == r2
            && byPage.(audits := []) == byRow.(audits := [])
            && |byPage.audits| == |byRow.audits|
  {
    assert RowRefers(t.queue[i], t.pages, t.profiles);
    PendingPositive(t.queue, i, PageEntity(p));
    assert t.pages[p].state == PageSubmitted && PendingCount(t.queue, PageEntity(p)) == 1;
    assert t.pages[p].ownerId in t.users;
    NewestPendingFinds(t.queue, PageEntity(p));
    OnlyPendingRow(t.queue, i, NewestPending(t.queue, PageEntity(p)).value, PageEntity(p));
    hide Inv, NewestPending, PendingCount;
  }

  // ---------------------------------------------------------------------------
  // Roles
  // ---------------------------------------------------------------------------

  /** The role a step gives to account u, read off the tables before it and the event. */
  function AssignedRole(t: Tables, e: Event, u: Id): Option<Role> {
    match e
    case ESetRole(v, role) => if v == u then Some(role) else None
    case EReviewPage(p, _, approved, _) =>
      if approved && p in t.pages && t.pages[p].state == PageSubmitted && t.pages[p].ownerId == u
      then Some(ProviderRole(t.pages[p].agent)) else None
    case EReviewSubmission(i, _, approved, _, _) =>
      if approved && i < |t.queue| && t.queue[i].status == Pending then RowRole(t, t.queue[i].entity, u) else None
    case _ => None
  }

  /** What approving a pending row about the entity makes of account u. */
  function RowRole(t: Tables, entity: Entity, u: Id): Option<Role> {
    match entity
    case PageEntity(p) => if p in t.pages && t.pages[p].ownerId == u then Some(ProviderRole(t.pages[p].agent)) else None
    case ProfileEntity(f) => if f in t.profiles && t.profiles[f].userId == u then Some(Student) else None
  }

  predicate RoleIs(users: map<Id, User>, users': map<Id, User>, u: Id, given: Option<Role>)
    requires u in users
  {
    u in users' && users'[u].role == if given.Some? then given.value else users[u].role
  }

  lemma RoleAfterPageReview(t: Tables, e: Event, u: Id)
    requires Inv(t) && u in t.users && e.EReviewPage?
    ensures RoleIs(t.users, Step(t, e).users, u, AssignedRole(t, e, u))
  {
    NewestPendingFinds(t.queue, PageEntity(e.pageId));
    if e.pageId in t.pages && t.pages[e.pageId].state == PageSubmitted {
      assert PendingCount(t.queue, PageEntity(e.pageId)) == 1;
      assert t.pages[e.pageId].ownerId in t.users;
    }
    hide Inv, NewestPending, PendingCount, PendingFor;
  }

  /** A pending row is about a submitted page or a pending profile. */
  lemma OpenRow(t: Tables, i: nat)
    requires Inv(t) && i < |t.queue| && t.queue[i].status == Pending
    ensures match t.queue[i].entity
            case PageEntity(p) => p in t.pages && t.pages[p].state == PageSubmitted && t.pages[p].ownerId in t.users
            case ProfileEntity(f) =>
              f in t.profiles && t.profiles[f].status == Pending && t.profiles[f].email == t.queue[i].email
  {
    assert RowRefers(t.queue[i], t.pages, t.profiles);
    PendingPositive(t.queue, i, t.queue[i].entity);
    hide UsersOk, ProfilesOk, QueueOk, NamedOnce, PendingCount;
  }

  lemma RoleAfterPageRow(t: Tables, i: nat, adminId: Id, approved: bool, reason: Option<string>, newUserId: Id, u: Id)
    requires i < |t.queue| && t.queue[i].status == Pending && t.queue[i].entity.PageEntity? && u in t.users
    requires var p := t.queue[i].entity.page;
             p in t.pages && t.pages[p].state == PageSubmitted && t.pages[p].ownerId in t.users
    ensures var t' := ReviewSubmission(t, i, adminId, approved, reason, newUserId).0;
            (approved || reason.Some?) ==>
              RoleIs(t.users, t'.users, u, if approved then RowRole(t, t.queue[i].entity, u) else None)
    ensures !approved && reason.None? ==> ReviewSubmission(t, i, adminId, approved, reason, newUserId).0 == t
  {
    hide SettleProfile, CanAttach, Settled;
  }

  /** Approving a profile row rewrites the account of the profile and no other. */
  lemma UsersAfterProfileRow(t: Tables, i: nat, adminId: Id, approved: bool, reason: Option<string>, newUserId: Id)
    requires Inv(t) && i < |t.queue| && t.queue[i].status == Pending && t.queue[i].entity.ProfileEntity?
    ensures var t', f := ReviewSubmission(t, i, adminId, approved, reason, newUserId).0, t.queue[i].entity.profile;
            && f in t.profiles && t.profiles[f].userId in t.users
            && t'.users == t.users[t.profiles[f].userId := ApprovedAccount(t.users[t.profiles[f].userId], approved)]
  {
    OpenRow(t, i);
    var f := t.queue[i].entity.profile;
    var row := Settled(t.queue[i], adminId, approved, reason);
    var audit := Audit(adminId, if approved then SubmissionApproved else SubmissionRejected, i);
    var t1 := t.(queue := t.queue[i := row], audits := t.audits + [audit]);
    SettleProfileForm(t1, f, adminId, approved, reason, newUserId);
    assert t.users[t.profiles[f].userId := t.users[t.profiles[f].userId]] == t.users;
    hide Inv, SettleProfile, SettlePage, CanAttach, Settled, PendingFor;
  }

  lemma RoleAfterProfileRow(t: Tables, i: nat, adminId: Id, approved: bool, reason: Option<string>, newUserId: Id,
                            u: Id)
    requires Inv(t) && i < |t.queue| && t.queue[i].status == Pending && t.queue[i].entity.ProfileEntity? && u in t.users
    ensures var t' := ReviewSubmission(t, i, adminId, approved, reason, newUserId).0;
            RoleIs(t.users, t'.users, u, if approved then RowRole(t, t.queue[i].entity, u) else None)
  {
    hide Inv, ReviewSubmission;
    UsersAfterProfileRow(t, i, adminId, approved, reason, newUserId);
  }

  lemma RoleAfterRow(t: Tables, i: nat, adminId: Id, approved: bool, reason: Option<string>, newUserId: Id, u: Id)
    requires Inv(t) && i < |t.queue| && t.queue[i].status == Pending && u in t.users
    ensures var t' := ReviewSubmission(t, i, adminId, approved, reason, newUserId).0;
            RoleIs(t.users, t'.users, u, if approved then RowRole(t, t.queue[i].entity, u) else None)
  {
    hide Inv, ReviewSubmission, RowRole;
    if t.queue[i].entity.ProfileEntity? {
      RoleAfterProfileRow(t, i, adminId, approved, reason, newUserId, u);
    } else {
      OpenRow(t, i);
      RoleAfterPageRow(t, i, adminId, approved, reason, newUserId, u);
    }
  }

  lemma RegisterKeepsUser(t: Tables, v: Id, email: string, role: Role, vouched: bool, u: Id)
    requires u in t.users
    ensures RoleIs(t.users, Register(t, v, email, role, vouched).0.users, u, None)
  {
  }

  lemma VouchingKeepsRole(t: Tables, v: Id, u: Id)
    requires u in t.users
    ensures RoleIs(t.users, VerifyIdentity(t, v).0.users, u, None)
  {
  }

  lemma SetRoleSets(t: Tables, v: Id, role: Role, u: Id)
    requires u in t.users
    ensures RoleIs(t.users, SetRole(t, v, role).0.users, u, if v == u then Some(role) else None)
  {
  }

  lemma RoleAfterAccountSteps(t: Tables, e: Event, u: Id)
    requires u in t.users && (e.ERegister? || e.EVerifyIdentity? || e.ESetRole?)
    ensures RoleIs(t.users, Step(t, e).users, u, AssignedRole(t, e, u))
  {
    hide RoleIs, Register, VerifyIdentity, SetRole;
    match e {
      case ERegister(v, email, role, vouched) => RegisterKeepsUser(t, v, email, role, vouched, u);
      case EVerifyIdentity(v) => VouchingKeepsRole(t, v, u);
      case ESetRole(v, role) => SetRoleSets(t, v, role, u);
    }
  }

  lemma OtherStepsKeepUsers(t: Tables, e: Event)
    requires e.ECreatePage? || e.EUpdatePage? || e.ESubmitPage? || e.ECompleteProfile?
    ensures Step(t, e).users == t.users
  {
    hide ReviewPage, ReviewSubmission, Register, VerifyIdentity, SetRole;
  }

  /** After any step an account has the role the step assigns to it, and otherwise
      the role it had. */
  lemma RoleChanges(t: Tables, e: Event, u: Id)
    requires Inv(t) && u in t.users
    ensures RoleIs(t.users, Step(t, e).users, u, AssignedRole(t, e, u))
  {
    hide RoleIs;
    if e.EReviewPage? {
      RoleAfterPageReview(t, e, u);
      hide Inv, Step;
    } else if e.EReviewSubmission? {
      hide Inv, RowRole, SettlePage, SettleProfile, Settled, CanAttach;
      if e.submissionId < |t.queue| && t.queue[e.submissionId].status == Pending {
        RoleAfterRow(t, e.submissionId, e.adminId, e.approved, e.reason, e.newUserId, u);
        hide ReviewSubmission;
      } else {
        UnchangedRole(t.users, u);
      }
    } else if e.ERegister? || e.EVerifyIdentity? || e.ESetRole? {
      RoleAfterAccountSteps(t, e, u);
      hide Inv, Step;
    } else {
      OtherStepsKeepUsers(t, e);
      UnchangedRole(t.users, u);
      hide Inv, Step;
    }
  }

  lemma UnchangedRole(users: map<Id, User>, u: Id)
    requires u in users
    ensures RoleIs(users, users, u, None)
  {
  }

  predicate OwnsVerified(t: Tables, u: Id) {
    HasPage(t, u) && t.pages[t.pageByOwner[u]].state == PageVerified
  }

  predicate IsProvider(role: Role) {
    role == Agent || role == Landlord
  }

  /** Every verified page belongs to an agent or a landlord. */
  ghost predicate ProvidersOnly(t: Tables) {
    forall p :: p in t.pages && t.pages[p].state == PageVerified ==>
      t.pages[p].ownerId in t.users && IsProvider(t.users[t.pages[p].ownerId].role)
  }

  /** The steps that take the provider role from the owner of a verified page. */
  predicate Demotes(t: Tables, e: Event) {
    match e
    case ESetRole(u, role) => u in t.users && OwnsVerified(t, u) && !IsProvider(role)
    case EReviewSubmission(i, _, approved, _, _) =>
      && approved && i < |t.queue| && t.queue[i].status == Pending && t.queue[i].entity.ProfileEntity?
      && t.queue[i].entity.profile in t.profiles
      && OwnsVerified(t, t.profiles[t.queue[i].entity.profile].userId)
    case _ => false
  }

  lemma OwnerOfVerified(t: Tables, p: Id)
    requires Inv(t) && p in t.pages && t.pages[p].state == PageVerified
    ensures t.pages[p].ownerId in t.users && OwnsVerified(t, t.pages[p].ownerId)
    ensures t.pageByOwner[t.pages[p].ownerId] == p
  {
  }

  lemma VerifiedOfOwner(t: Tables, u: Id)
    requires Inv(t) && OwnsVerified(t, u)
    ensures t.pages[t.pageByOwner[u]].ownerId == u && u in t.users
  {
  }

  /** What a step that newly verifies page p has done. */
  predicate MadeProvider(t: Tables, pages': map<Id, Page>, p: Id, given: Option<Role>)
    requires p in pages'
  {
    p in t.pages && pages'[p].ownerId == t.pages[p].ownerId && t.pages[p].ownerId in t.users
    && given == Some(ProviderRole(t.pages[p].agent))
  }

  lemma NewlyVerifiedByPage(t: Tables, e: Event, p: Id)
    requires e.EReviewPage? && p in Step(t, e).pages && Step(t, e).pages[p].state == PageVerified
    requires !(p in t.pages && t.pages[p].state == PageVerified)
    ensures p in t.pages && MadeProvider(t, Step(t, e).pages, p, AssignedRole(t, e, t.pages[p].ownerId))
  {
    hide NewestPending, Settled;
  }

  /** Settling a row rewrites at most the submitted page it is about. */
  lemma PagesAfterRow(t: Tables, i: nat, adminId: Id, approved: bool, reason: Option<string>, newUserId: Id)
    ensures var t' := ReviewSubmission(t, i, adminId, approved, reason, newUserId).0;
            || t'.pages == t.pages
            || (i < |t.queue| && t.queue[i].status == Pending && t.queue[i].entity.PageEntity?
                && var p := t.queue[i].entity.page;
                p in t.pages && (approved ==> t.pages[p].ownerId in t.users)
                && t'.pages == t.pages[p := ReviewedPage(t.pages[p], adminId, approved, reason)])
  {
    hide CanAttach, Settled, AccountFor, ReviewedPage;
  }

  lemma NewlyVerifiedByRow(t: Tables, e: Event, p: Id)
    requires e.EReviewSubmission? && p in Step(t, e).pages && Step(t, e).pages[p].state == PageVerified
    requires !(p in t.pages && t.pages[p].state == PageVerified)
    ensures p in t.pages && MadeProvider(t, Step(t, e).pages, p, AssignedRole(t, e, t.pages[p].ownerId))
  {
    hide ReviewSubmission;
    PagesAfterRow(t, e.submissionId, e.adminId, e.approved, e.reason, e.newUserId);
  }

  lemma NothingNewlyVerified(t: Tables, e: Event, p: Id)
    requires !e.EReviewPage? && !e.EReviewSubmission?
    requires p in Step(t, e).pages && Step(t, e).pages[p].state == PageVerified
    ensures p in t.pages && t.pages[p].state == PageVerified
  {
    hide ReviewPage, ReviewSubmission;
  }

  /** A page is newly verified only by a review that makes its owner a provider. */
  lemma NewlyVerified(t: Tables, e: Event, p: Id)
    requires p in Step(t, e).pages && Step(t, e).pages[p].state == PageVerified
    requires !(p in t.pages && t.pages[p].state == PageVerified)
    ensures p in t.pages && MadeProvider(t, Step(t, e).pages, p, AssignedRole(t, e, t.pages[p].ownerId))
  {
    hide Step, AssignedRole, MadeProvider;
    if e.EReviewPage? {
      NewlyVerifiedByPage(t, e, p);
    } else if e.EReviewSubmission? {
      NewlyVerifiedByRow(t, e, p);
    } else {
      NothingNewlyVerified(t, e, p);
    }
  }

  lemma KeepsProviders(t: Tables, e: Event, p: Id)
    requires Inv(t) && ProvidersOnly(t) && !Demotes(t, e)
    requires p in Step(t, e).pages && Step(t, e).pages[p].state == PageVerified
    ensures var t' := Step(t, e); t'.pages[p].ownerId in t'.users && IsProvider(t'.users[t'.pages[p].ownerId].role)
  {
    hide Step, Inv;
    if p in t.pages && t.pages[p].state == PageVerified {
      VerifiedPageStays(t, e, p);
      OwnerOfVerified(t, p);
    } else {
      NewlyVerified(t, e, p);
    }
    RoleChanges(t, e, t.pages[p].ownerId);
  }

  lemma DemotionShows(t: Tables, e: Event)
    requires Inv(t) && Demotes(t, e)
    ensures !ProvidersOnly(Step(t, e))
  {
    hide Step, Inv;
    var u := if e.ESetRole? then e.userId else t.profiles[t.queue[e.submissionId].entity.profile].userId;
    VerifiedOfOwner(t, u);
    VerifiedPageStays(t, e, t.pageByOwner[u]);
    RoleChanges(t, e, u);
  }

  /** From a state in which every verified page belongs to a provider, a step leads
      to one in which some does not exactly when an admin sets its owner to STUDENT
      or ADMIN, or a pending student profile of its owner is approved. */
  lemma ProvidersUntilDemoted(t: Tables, e: Event)
    requires Inv(t) && ProvidersOnly(t)
    ensures ProvidersOnly(Step(t, e)) <==> !Demotes(t, e)
  {
    hide Step, Inv, Demotes;
    if Demotes(t, e) {
      DemotionShows(t, e);
    } else {
      forall p | p in Step(t, e).pages && Step(t, e).pages[p].state == PageVerified
        ensures Step(t, e).pages[p].ownerId in Step(t, e).users
        ensures IsProvider(Step(t, e).users[Step(t, e).pages[p].ownerId].role)
      {
        KeepsProviders(t, e, p);
      }
    }
  }

  /** A verified page does not make its owner a provider: approving the owner's
      student profile afterwards turns the role back to STUDENT. */
  lemma VerifiedPageOwnedByStudent(t: Tables, i: nat, f: Id, adminId: Id, reason: Option<string>, newUserId: Id, p: Id)
    requires Inv(t) && p in t.pages && t.pages[p].state == PageVerified
    requires i < |t.queue| && PendingFor(t.queue[i], ProfileEntity(f))
    requires f in t.profiles && t.profiles[f].userId == t.pages[p].ownerId && t.profiles[f].status == Pending
    ensures var t' := ReviewSubmission(t, i, adminId, true, reason, newUserId).0;
            && PageKept(t, t', p) && t'.users[t.pages[p].ownerId].role == Student
  {
    assert RowRefers(t.queue[i], t.pages, t.profiles);
    var t1 := t.(queue := t.queue[i := Settled(t.queue[i], adminId, true, reason)],
                 audits := t.audits + [Audit(adminId, SubmissionApproved, i)]);
    SettleProfileForm(t1, f, adminId, true, reason, newUserId);
    hide Inv, SettleProfile, CanAttach;
  }

  lemma RunPush(t: Tables, events: seq<Event>, e: Event)
    ensures Run(t, events + [e]) == Step(Run(t, events), e)
  {
    assert (events + [e])[..|events|] == events;
  }

  const DRAFTED: seq<Event> := [ERegister(7, "ada", Student, false)] + [ECreatePage(7, 1, false, true, true)]
  const SUBMITTED_BOTH: seq<Event> := DRAFTED + [ESubmitPage(7)] + [ECompleteProfile(7, 2)]

  /** One account with a draft page. */
  lemma PageDrafted()
    ensures var t := Run(EMPTY, DRAFTED);
            && t.users == map[7 := User("ada", Student, false, true)]
            && t.pages == map[1 := Page(7, PageDraft, false, true, None, None)] && t.pageByOwner == map[7 := 1]
            && t.profiles == map[] && t.profileByUser == map[] && t.profileByEmail == map[] && t.queue == []
  {
    RunPush(EMPTY, [], ERegister(7, "ada", Student, false));
    RunPush(EMPTY, [ERegister(7, "ada", Student, false)], ECreatePage(7, 1, false, true, true));
    assert [] + [ERegister(7, "ada", Student, false)] == [ERegister(7, "ada", Student, false)];
  }

  /** The same account with a submitted page and a pending profile. */
  lemma BothSubmitted()
    ensures var t := Run(EMPTY, SUBMITTED_BOTH);
            && t.users == map[7 := User("ada", Student, false, true)]
            && t.pages == map[1 := Page(7, PageSubmitted, false, true, None, None)]
            && t.profiles == map[2 := Profile(7, "ada", Pending, None, None)]
            && t.queue == [QueueRow("ada", PageEntity(1), Pending, None, None, None),
                           QueueRow("ada", ProfileEntity(2), Pending, None, None, None)]
  {
    hide Run, Register, VerifyIdentity, SetRole, CreatePage, UpdatePage, ReviewPage, ReviewSubmission;
    PageDrafted();
    RunPush(EMPTY, DRAFTED, ESubmitPage(7));
    RunPush(EMPTY, DRAFTED + [ESubmitPage(7)], ECompleteProfile(7, 2));
    var t3 := Run(EMPTY, DRAFTED + [ESubmitPage(7)]);
    assert t3.pages == map[1 := Page(7, PageSubmitted, false, true, None, None)];
    assert t3.queue == [QueueRow("ada", PageEntity(1), Pending, None, None, None)];
  }

  /** Such a state is reachable: both are submitted, then the page is approved,
      then the profile. */
  lemma StudentOwnerIsReachable()
    ensures exists events :: var t := Run(EMPTY, events);
              1 in t.pages && t.pages[1].state == PageVerified && t.pages[1].ownerId in t.users
              && t.users[t.pages[1].ownerId].role == Student
  {
    hide Run, Inv, Register, VerifyIdentity, SetRole, CreatePage, UpdatePage, SubmitPage, ReviewPage, CompleteProfile,
      ReviewSubmission;
    var es := SUBMITTED_BOTH;
    var e4, e5 := EReviewPage(1, 9, true, None), EReviewSubmission(1, 9, true, None, 8);
    var t3 := Run(EMPTY, es);
    var t4 := Run(EMPTY, es + [e4]);
    BothSubmitted();
    RunPush(EMPTY, es, e4);
    RunKeepsInv(es + [e4]);
    RunPush(EMPTY, es + [e4], e5);
    PageApprovalOutcome(t3);
    assert t4 == ReviewPage(t3, 1, 9, true, None).0;
    VerifiedPageOwnedByStudent(t4, 1, 2, 9, None, 8, 1);
    var t5 := Run(EMPTY, es + [e4] + [e5]);
    assert t5 == ReviewSubmission(t4, 1, 9, true, None, 8).0;
    RunKeepsInv(es + [e4] + [e5]);
    PageOwnerHasAccount(t5, 1);
    assert t5.pages[1].ownerId == 7;
  }

  lemma PageOwnerHasAccount(t: Tables, p: Id)
    requires Inv(t) && p in t.pages
    ensures t.pages[p].ownerId in t.users
  {
  }

  lemma PageApprovalOutcome(t: Tables)
    requires t.users == map[7 := User("ada", Student, false, true)]
    requires t.pages == map[1 := Page(7, PageSubmitted, false, true, None, None)]
    requires |t.queue| == 2 && PendingFor(t.queue[0], PageEntity(1)) && !PendingFor(t.queue[1], PageEntity(1))
    ensures var t' := ReviewPage(t, 1, 9, true, None).0;
            && 1 in t'.pages && t'.pages[1].state == PageVerified && t'.pages[1].ownerId == 7
            && |t'.queue| == 2 && t'.queue[1] == t.queue[1] && t'.profiles == t.profiles && 7 in t'.users
  {
    assert t.queue[..1][0] == t.queue[0];
    assert NewestPending(t.queue, PageEntity(1)) == Some(0);
  }
}
