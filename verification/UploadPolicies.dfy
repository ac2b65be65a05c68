/**
  Where media rows come from and what becomes of them: every row of every run goes
  back to one accepted request, with a file type and size its purpose allows; every
  step makes exactly the listed changes to it; and the quotas of all purposes together
  bound what one user has pending.
 */
module UploadPolicies {
  import opened Wrappers
  import opened Media
  import opened MediaProofs

  /** The file types by family: moving pictures for listing videos and nothing else,
      PDF for documents, GIF for avatars and SVG for logos only. */
  predicate TypeFits(p: Purpose, mime: string) {
    match mime
    case "image/jpeg" => p != ListingVideo && p != ContractDocument
    case "image/png" => p != ListingVideo && p != ContractDocument
    case "image/webp" => p != ListingVideo && p != ContractDocument
    case "image/gif" => p == Avatar
    case "image/svg+xml" => p == ProviderLogo
    case "application/pdf" =>
      p == StudentId || p == ProofOfStudentship || p == ProofOfLicense || p == ContractDocument
    case _ =>
      p == ListingVideo &&
      (mime == "video/mp4" || mime == "video/quicktime" || mime == "video/x-msvideo" || mime == "video/webm")
  }

  /** The size limits in megabytes. */
  predicate SizeFits(p: Purpose, size: int) {
    size <= 1_048_576 * if p == ListingVideo then 100
                        else if p == ContractDocument then 25
                        else if p == ListingPhoto then 15
                        else if p == Avatar || p == ProviderLogo then 5
                        else 10
  }

  lemma AllowedSizes(p: Purpose, size: int)
    ensures size <= PolicyOf(p).maxBytes <==> SizeFits(p, size)
  {
  }

  lemma AllowedTypes(p: Purpose, mime: string)
    ensures mime in PolicyOf(p).mimeTypes <==> TypeFits(p, mime)
  {
  }

  /** The event that stored row i: an accepted request for an upload, or an accepted
      direct upload. */
  predicate Stores(e: Event, i: Id, row: Row) {
    match e
    case ERequestUpload(o, p, mime, size, id, publicId, now) =>
      && id == i && row.ownerId == o && row.purpose == p && row.publicId == publicId && row.createdAt == now
      && TypeFits(p, mime) && SizeFits(p, size)
    case EUploadAsset(o, p, hasFile, mime, size, id, up, now) =>
      && hasFile && id == i && row.ownerId == o && row.purpose == p && row.publicId == up.publicId
      && row.createdAt == now && TypeFits(p, mime) && SizeFits(p, size)
    case _ => false
  }

  lemma NewRowIsStored(s: Store, e: Event, i: Id)
    requires i !in s.rows && i in Step(s, e).rows
    ensures Stores(e, i, Step(s, e).rows[i])
  {
    match e
    case ERequestUpload(o, p, mime, size, id, publicId, now) =>
      AllowedTypes(p, mime);
      AllowedSizes(p, size);
      hide PolicyOf, PendingOf, TypeFits, SizeFits;
    case EUploadAsset(o, p, hasFile, mime, size, id, up, now) =>
      AllowedTypes(p, mime);
      AllowedSizes(p, size);
      hide PolicyOf, Key, TypeFits, SizeFits;
    case ENotice(n, answer) =>
      hide Process;
      NoticesAddNoRow(s, n, answer, i);
    case _ =>
      hide Step;
      OthersAddNoRow(s, e, i);
  }

  /** Every row of every run was stored by one request of its run, which named its
      owner, purpose, public id and time and was within the policy of the purpose. */
  lemma {:induction false} RowOrigin(events: seq<Event>, i: Id) returns (k: nat)
    requires i in Run(NO_MEDIA, events).rows
    ensures k < |events| && Stores(events[k], i, Run(NO_MEDIA, events).rows[i])
  {
    hide Step, Stores;
    assert |events| > 0;
    var prefix, e := events[..|events| - 1], events[|events| - 1];
    var s := Run(NO_MEDIA, prefix);
    if i in s.rows {
      k := RowOrigin(prefix, i);
      StepMovesRows(s, e);
      OriginStays(events[k], i, s.rows[i], Step(s, e).rows[i]);
    } else {
      k := |events| - 1;
      NewRowIsStored(s, e, i);
    }
  }

  lemma OriginStays(e: Event, i: Id, a: Row, b: Row)
    requires Stores(e, i, a) && RowMoves(a, b)
    ensures Stores(e, i, b)
  {
    hide TypeFits, SizeFits;
  }

  // ---------------------------------------------------------------------------
  // Numbers
  // ---------------------------------------------------------------------------

  const PURPOSES: seq<Purpose> :=
    [Avatar, CoverPhoto, ListingPhoto, ListingVideo, ProviderLogo, StudentId, ProofOfStudentship, ProofOfLicense,
     ContractDocument]

  function PendingFor(rows: map<Id, Row>, o: Id): set<Id> {
    set i | i in rows && rows[i].ownerId == o && rows[i].status == Pending
  }

  function Up(rows: map<Id, Row>, o: Id, purposes: seq<Purpose>): set<Id> {
    if |purposes| == 0 then {} else Up(rows, o, purposes[1..]) + PendingOf(rows, o, purposes[0])
  }

  function QuotaSum(purposes: seq<Purpose>): nat {
    if |purposes| == 0 then 0 else QuotaSum(purposes[1..]) + PolicyOf(purposes[0]).maxPending
  }

  lemma {:induction false} UpWithinQuotas(rows: map<Id, Row>, o: Id, purposes: seq<Purpose>)
    requires forall p :: |PendingOf(rows, o, p)| <= PolicyOf(p).maxPending
    ensures |Up(rows, o, purposes)| <= QuotaSum(purposes)
  {
    if |purposes| > 0 {
      UpWithinQuotas(rows, o, purposes[1..]);
      hide PolicyOf, PendingOf;
      var rest, more := Up(rows, o, purposes[1..]), PendingOf(rows, o, purposes[0]);
      assert rest + more == rest + (more - rest);
      SubsetIsSmaller(more - rest, more);
    }
  }

  lemma {:induction false} UpContains(rows: map<Id, Row>, o: Id, purposes: seq<Purpose>, i: Id)
    requires i in PendingFor(rows, o) && rows[i].purpose in purposes
    ensures i in Up(rows, o, purposes)
  {
    if rows[i].purpose != purposes[0] {
      UpContains(rows, o, purposes[1..], i);
    }
  }

  lemma QuotasAddUp()
    ensures QuotaSum(PURPOSES) == 43
  {
    assert PURPOSES[1..] == [CoverPhoto, ListingPhoto, ListingVideo, ProviderLogo, StudentId, ProofOfStudentship,
                             ProofOfLicense, ContractDocument];
    assert PURPOSES[1..][1..] == [ListingPhoto, ListingVideo, ProviderLogo, StudentId, ProofOfStudentship,
                                  ProofOfLicense, ContractDocument];
    assert PURPOSES[1..][1..][1..] == [ListingVideo, ProviderLogo, StudentId, ProofOfStudentship, ProofOfLicense,
                                       ContractDocument];
    assert [ListingVideo, ProviderLogo, StudentId, ProofOfStudentship, ProofOfLicense, ContractDocument][1..]
        == [ProviderLogo, StudentId, ProofOfStudentship, ProofOfLicense, ContractDocument];
    assert [ProviderLogo, StudentId, ProofOfStudentship, ProofOfLicense, ContractDocument][1..]
        == [StudentId, ProofOfStudentship, ProofOfLicense, ContractDocument];
    assert [StudentId, ProofOfStudentship, ProofOfLicense, ContractDocument][1..]
        == [ProofOfStudentship, ProofOfLicense, ContractDocument];
    assert [ProofOfStudentship, ProofOfLicense, ContractDocument][1..] == [ProofOfLicense, ContractDocument];
    assert [ProofOfLicense, ContractDocument][1..] == [ContractDocument];
    assert [ContractDocument][1..] == [];
  }

  /** No user ever has more than 43 uploads pending, over all purposes. */
  lemma PendingUploads(events: seq<Event>, o: Id)
    ensures |PendingFor(Run(NO_MEDIA, events).rows, o)| <= 43
  {
    var rows := Run(NO_MEDIA, events).rows;
    QuotaAndUniqueKeys(events);
    hide Run;
    UpWithinQuotas(rows, o, PURPOSES);
    QuotasAddUp();
    forall i | i in PendingFor(rows, o) ensures i in Up(rows, o, PURPOSES) {
      EveryPurpose(rows[i].purpose);
      UpContains(rows, o, PURPOSES, i);
    }
    SubsetIsSmaller(PendingFor(rows, o), Up(rows, o, PURPOSES));
  }

  lemma EveryPurpose(p: Purpose)
    ensures p in PURPOSES
  {
    assert PURPOSES[0] == Avatar && PURPOSES[1] == CoverPhoto && PURPOSES[2] == ListingPhoto;
    assert PURPOSES[3] == ListingVideo && PURPOSES[4] == ProviderLogo && PURPOSES[5] == StudentId;
    assert PURPOSES[6] == ProofOfStudentship && PURPOSES[7] == ProofOfLicense && PURPOSES[8] == ContractDocument;
  }

  /** A cleanup can only select a row whose request is more than 30 minutes old. */
  lemma StaleMeansHalfAnHour(s: Store, now: int, batch: set<Id>, i: Id)
    requires StaleAnswer(s.rows, now, batch) && i in s.rows
    ensures i in batch ==> s.rows[i].status == Pending && now - s.rows[i].createdAt > 1_800_000
    ensures |batch| < 200 && s.rows[i].status == Pending && now - s.rows[i].createdAt > 1_800_000 ==> i in batch
  {
  }

  /** The stale rows besides i that were requested no later than i. */
  function AtLeastAsOld(rows: map<Id, Row>, now: int, i: Id): set<Id>
    requires i in rows
  {
    set j | j in rows && j != i && Stale(rows[j], now) && rows[j].createdAt <= rows[i].createdAt
  }

  /** A stale row is selected as soon as fewer than 200 others are at least as old: the
      oldest ones go first, so none is passed over for good. */
  lemma OldestAreSelected(s: Store, now: int, batch: set<Id>, i: Id)
    requires StaleAnswer(s.rows, now, batch) && i in s.rows && Stale(s.rows[i], now)
    requires |AtLeastAsOld(s.rows, now, i)| < 200
    ensures i in batch
  {
    if i !in batch {
      SubsetIsSmaller(batch, AtLeastAsOld(s.rows, now, i));
    }
  }

  // ---------------------------------------------------------------------------
  // Every step, row by row
  // ---------------------------------------------------------------------------

  /** An upload of row i was reported under this key: it is new, or its own. */
  predicate KeyFree(s: Store, key: string, i: Id) {
    key in s.byKey ==> s.byKey[key] == i
  }

  function MadeReady(row: Row, bytes: Option<int>, name: Option<string>, version: string): Row {
    row.(status := Ready, bytes := bytes,
         key := Some((if name.Some? then name.value else row.publicId) + ":" + version))
  }

  /** Row i after a step, read off the tables before. */
  function NextRow(s: Store, e: Event, i: Id): Row
    requires i in s.rows
  {
    var row := s.rows[i];
    match e
    case ENotice(UploadNotice(p, asset, version, bytes), answer) =>
      if p != row.publicId || p == "" || row.status != Pending
         || (if asset.Some? then asset.value else p) + ":" + version in s.byKey then row
      else if bytes.Some? && SizeFits(row.purpose, bytes.value) then MadeReady(row, bytes, asset, version)
      else if answer == Removed then row.(status := Failed)
      else row
    case ENotice(ErrorNotice(p), _) => if p == row.publicId && p != "" then row.(status := Failed) else row
    case ENotice(DeleteNotice(p), _) => if p == row.publicId && p != "" then row.(status := Deleted) else row
    case EConfirmUpload(id, requester, asset, version, bytes) =>
      if id == i && requester == row.ownerId && row.status == Pending && row.purpose != ListingVideo
         && (bytes.Some? ==> SizeFits(row.purpose, bytes.value))
         && KeyFree(s, (if asset.Some? then asset.value else row.publicId) + ":" + version, i)
      then MadeReady(row, bytes, asset, version)
      else row
    case ECancelPending(id, requester) =>
      if id == i && requester == row.ownerId && row.status == Pending then row.(status := Deleting) else row
    case EDeleteMedia(id, requester, admin) =>
      if id == i && (admin || requester == row.ownerId) && row.status != Deleted then row.(status := Deleting) else row
    case EDeletionJob(id, answer) =>
      if id == i && i in s.deletionJobs && answer == Removed then row.(status := Deleted) else row
    case EMarkStale(batch) => if i in batch && batch in s.staleBatches then row.(status := Failed) else row
    case _ => row
  }

  predicate RowIs(rows: map<Id, Row>, i: Id, row: Row) {
    i in rows && rows[i] == row
  }

  lemma RowAfterUploadNotice(s: Store, n: Notification, answer: Deletion, i: Id)
    requires Inv(s) && i in s.rows && n.UploadNotice?
    ensures RowIs(Process(s, n, answer).0.rows, i, NextRow(s, ENotice(n, answer), i))
  {
    AllowedNoticeSize(s.rows[i].purpose, n.bytes);
    hide WithinQuota, PolicyOf, SizeFits, SizeAllowed, KeysOk;
  }

  lemma AllowedNoticeSize(p: Purpose, bytes: Option<int>)
    ensures SizeAllowed(p, bytes) <==> bytes.Some? && SizeFits(p, bytes.value)
  {
    if bytes.Some? {
      AllowedSizes(p, bytes.value);
    }
  }

  lemma RowAfterOtherNotice(s: Store, n: Notification, answer: Deletion, i: Id)
    requires Inv(s) && i in s.rows && !n.UploadNotice?
    ensures RowIs(Process(s, n, answer).0.rows, i, NextRow(s, ENotice(n, answer), i))
  {
    hide WithinQuota, KeysOk, KeyedWhenReady;
  }

  lemma RowAfterConfirmation(s: Store, id: Id, r: Id, asset: Option<string>, version: string, bytes: Option<int>,
                             i: Id)
    requires Inv(s) && i in s.rows
    ensures RowIs(ConfirmUpload(s, id, r, asset, version, bytes).0.rows, i,
                  NextRow(s, EConfirmUpload(id, r, asset, version, bytes), i))
  {
    if bytes.Some? && id in s.rows {
      AllowedSizes(s.rows[id].purpose, bytes.value);
    }
    hide WithinQuota, PolicyOf, SizeFits, KeysOk, PublicIdsOk;
  }

  lemma RowAfterDeletion(s: Store, e: Event, i: Id)
    requires i in s.rows && (e.ECancelPending? || e.EDeleteMedia? || e.EDeletionJob?)
    ensures RowIs(Step(s, e).rows, i, NextRow(s, e, i))
  {
    hide RequestUpload, UploadAsset, ConfirmUpload, Process, FindStale, MarkStale, Requeue;
  }

  lemma RowAfterCleanup(s: Store, e: Event, i: Id)
    requires i in s.rows && (e.EFindStale? || e.EMarkStale? || e.ERequeue?)
    ensures RowIs(Step(s, e).rows, i, NextRow(s, e, i))
  {
    hide RequestUpload, UploadAsset, ConfirmUpload, CancelPending, DeleteMedia, Process, DeletionJob, StaleAnswer,
      DeletingAnswer;
  }

  lemma RowAfterNewUpload(s: Store, e: Event, i: Id)
    requires i in s.rows && (e.ERequestUpload? || e.EUploadAsset?)
    ensures RowIs(Step(s, e).rows, i, NextRow(s, e, i))
  {
    hide ConfirmUpload, CancelPending, DeleteMedia, Process, DeletionJob, FindStale, MarkStale, Requeue, PolicyOf,
      PendingOf, Key;
  }

  /** Exactly what every step makes of every row. */
  lemma RowAfterStep(s: Store, e: Event, i: Id)
    requires Inv(s) && i in s.rows
    ensures i in Step(s, e).rows && Step(s, e).rows[i] == NextRow(s, e, i)
  {
    hide Inv, NextRow, RequestUpload, UploadAsset, ConfirmUpload, CancelPending, DeleteMedia, Process, DeletionJob,
      FindStale, MarkStale, Requeue;
    match e
    case ENotice(n, answer) =>
      if n.UploadNotice? {
        RowAfterUploadNotice(s, n, answer, i);
      } else {
        RowAfterOtherNotice(s, n, answer, i);
      }
    case EConfirmUpload(id, r, asset, version, bytes) => RowAfterConfirmation(s, id, r, asset, version, bytes, i);
    case EFindStale(_, _) => RowAfterCleanup(s, e, i);
    case EMarkStale(_) => RowAfterCleanup(s, e, i);
    case ERequeue(_) => RowAfterCleanup(s, e, i);
    case ERequestUpload(_, _, _, _, _, _, _) => RowAfterNewUpload(s, e, i);
    case EUploadAsset(_, _, _, _, _, _, _, _) => RowAfterNewUpload(s, e, i);
    case _ => RowAfterDeletion(s, e, i);
  }

  // ---------------------------------------------------------------------------
  // Keys
  // ---------------------------------------------------------------------------

  lemma SplitAtColon(a: string, b: string, v: string, w: string)
    requires a + ":" + v == b + ":" + w && |a| <= |b| && ':' !in v
    ensures a == b && v == w
  {
    var k := a + ":" + v;
    assert k == b + ":" + w && k[|b|] == ':';
    assert a == k[..|a|] && b == (b + ":" + w)[..|b|];
    assert v == k[|a| + 1..] && w == (b + ":" + w)[|b| + 1..];
  }

  /** A key tells apart uploads of different assets and different versions, since a
      version is written in digits. */
  lemma KeysTellUploadsApart(asset: Option<string>, p: string, v: string, asset': Option<string>, p': string,
                             v': string)
    requires ':' !in v && ':' !in v'
    ensures Key(asset, p, v) == Key(asset', p', v') <==>
              (if asset.Some? then asset.value else p) == (if asset'.Some? then asset'.value else p') && v == v'
  {
    var a, b := if asset.Some? then asset.value else p, if asset'.Some? then asset'.value else p';
    if a + ":" + v == b + ":" + v' {
      if |a| <= |b| {
        SplitAtColon(a, b, v, v');
      } else {
        SplitAtColon(b, a, v', v);
      }
    }
  }
}
