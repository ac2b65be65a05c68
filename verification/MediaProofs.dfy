/**
  What every run of the media tables keeps: the life of a row, the unique keys,
  the quota, the size limits, and notifications that are safe to redeliver.
 */
module MediaProofs {
  import opened Wrappers
  import opened Media

  // ---------------------------------------------------------------------------
  // The life of one row
  // ---------------------------------------------------------------------------

  /** READY is entered only from PENDING, and PENDING never; a failed or deleted
      row still moves among FAILED, DELETING and DELETED. */
  predicate StatusEdge(a: Status, b: Status) {
    match a
    case Pending => b != Pending
    case Ready => b == Failed || b == Deleting || b == Deleted
    case Failed => b == Deleting || b == Deleted
    case Deleting => b == Failed || b == Deleted
    case Deleted => b == Failed
  }

  /** How one row may change in one step: its origin is fixed, and key and size are
      recorded on entering READY and kept from then on. */
  predicate RowMoves(a: Row, b: Row) {
    && b.ownerId == a.ownerId && b.purpose == a.purpose && b.publicId == a.publicId && b.createdAt == a.createdAt
    && (b.status == a.status || StatusEdge(a.status, b.status))
    && (if a.status == Pending && b.status == Ready then b.key.Some? else b.key == a.key && b.bytes == a.bytes)
  }

  predicate RowBorn(b: Row) {
    if b.status == Pending then b.key.None? && b.bytes.None? else b.status == Ready && b.key.Some?
  }

  ghost predicate RowsMove(rows: map<Id, Row>, rows': map<Id, Row>) {
    && (forall i :: i in rows ==> i in rows' && RowMoves(rows[i], rows'[i]))
    && (forall i :: i in rows' && i !in rows ==> RowBorn(rows'[i]))
  }

  lemma UploadsMoveRows(s: Store, e: Event)
    requires e.ERequestUpload? || e.EUploadAsset?
    ensures RowsMove(s.rows, Step(s, e).rows)
  {
    hide PolicyOf, PendingOf, Key, Process, DeletionJob, FindStale, MarkStale, Requeue, ConfirmUpload, CancelPending,
      DeleteMedia;
  }

  lemma OwnersMoveRows(s: Store, e: Event)
    requires e.EConfirmUpload? || e.ECancelPending? || e.EDeleteMedia?
    ensures RowsMove(s.rows, Step(s, e).rows)
  {
    hide PolicyOf, Key, Without, Process, DeletionJob, FindStale, MarkStale, Requeue, RequestUpload, UploadAsset;
  }

  lemma NoticesMoveRows(s: Store, n: Notification, answer: Deletion)
    ensures RowsMove(s.rows, Process(s, n, answer).0.rows)
  {
    hide SizeAllowed, Key, Without;
  }

  lemma FailedBatchMovesRows(rows: map<Id, Row>, batch: set<Id>)
    ensures RowsMove(rows, FailAll(rows, batch))
  {
  }

  lemma JobsMoveRows(s: Store, e: Event)
    requires e.EDeletionJob? || e.EFindStale? || e.EMarkStale? || e.ERequeue?
    ensures RowsMove(s.rows, Step(s, e).rows)
  {
    hide RequestUpload, UploadAsset, ConfirmUpload, CancelPending, DeleteMedia, Process, StaleAnswer, DeletingAnswer,
      FailAll;
    if e.EMarkStale? {
      FailedBatchMovesRows(s.rows, e.batch);
      assert RowsMove(s.rows, s.rows);
      hide RowsMove;
    }
  }

  lemma StepMovesRows(s: Store, e: Event)
    ensures RowsMove(s.rows, Step(s, e).rows)
  {
    if e.ENotice? {
      NoticesMoveRows(s, e.n, e.answer);
      hide Process, RowsMove;
    } else {
      hide Step, RowsMove;
      if e.EDeletionJob? || e.EFindStale? || e.EMarkStale? || e.ERequeue? {
        JobsMoveRows(s, e);
      } else if e.ERequestUpload? || e.EUploadAsset? {
        UploadsMoveRows(s, e);
      } else {
        OwnersMoveRows(s, e);
      }
    }
  }

  /** A step that moves a row along an edge that does not lead to READY. */
  function EdgeEvent(i: Id, row: Row, b: Status): Event {
    match b
    case Failed => ENotice(ErrorNotice(row.publicId), Removed)
    case Deleted => ENotice(DeleteNotice(row.publicId), Removed)
    case Deleting => EDeleteMedia(i, row.ownerId, false)
    case Ready => ENotice(OtherNotice, Removed)
    case Pending => ENotice(OtherNotice, Removed)
  }

  /** Errors and deletions are unordered: every edge of the graph that does not lead
      to READY can be taken from any state with such a row. */
  lemma EdgesAreTaken(s: Store, i: Id, b: Status)
    requires i in s.rows && s.rows[i].publicId != "" && StatusEdge(s.rows[i].status, b) && b != Ready
    requires s.rows[i].publicId in s.byPublicId && s.byPublicId[s.rows[i].publicId] == i
    ensures var s' := Step(s, EdgeEvent(i, s.rows[i], b)); i in s'.rows && s'.rows[i] == s.rows[i].(status := b)
  {
    hide ProcessUpload, RequestUpload, UploadAsset, ConfirmUpload, CancelPending, DeletionJob, FindStale, MarkStale,
      Requeue;
  }

  /** The steps of a run in which a row enters READY. */
  ghost function ReadyEntries(s: Store, events: seq<Event>, id: Id): nat {
    if |events| == 0 then 0
    else
      var before := Run(s, events[..|events| - 1]);
      var after := Run(s, events);
      ReadyEntries(s, events[..|events| - 1], id)
      + (if id in after.rows && after.rows[id].status == Ready &&
         (id !in before.rows || before.rows[id].status != Ready) then 1 else 0)
  }

  /** How many more times a row can enter READY. */
  function EntriesLeft(s: Store, id: Id): nat {
    if id !in s.rows || s.rows[id].status == Pending then 1 else 0
  }

  /** Over every run from every state, a row enters READY at most once, and not at
      all once it has left PENDING; and a row that has left PENDING never returns. */
  lemma {:induction false} ReadyAtMostOnce(s: Store, events: seq<Event>, id: Id)
    ensures ReadyEntries(s, events, id) + EntriesLeft(Run(s, events), id) <= EntriesLeft(s, id)
    ensures id in s.rows ==>
              && id in Run(s, events).rows
              && (s.rows[id].status != Pending ==> Run(s, events).rows[id].status != Pending)
  {
    hide Step;
    if |events| > 0 {
      var prefix := events[..|events| - 1];
      ReadyAtMostOnce(s, prefix, id);
      StepMovesRows(Run(s, prefix), events[|events| - 1]);
    }
  }

  // ---------------------------------------------------------------------------
  // The invariant
  // ---------------------------------------------------------------------------

  ghost predicate KeysOk(rows: map<Id, Row>, byKey: map<string, Id>) {
    && (forall i :: i in rows && rows[i].key.Some? ==> rows[i].key.value in byKey && byKey[rows[i].key.value] == i)
    && (forall k :: k in byKey ==> byKey[k] in rows && rows[byKey[k]].key == Some(k))
  }

  ghost predicate PublicIdsOk(rows: map<Id, Row>, byPublicId: map<string, Id>) {
    && (forall i :: i in rows ==> rows[i].publicId in byPublicId && byPublicId[rows[i].publicId] == i)
    && (forall p :: p in byPublicId ==> byPublicId[p] in rows && rows[byPublicId[p]].publicId == p)
  }

  /** A pending row has no key and no size; a ready one has a key. */
  ghost predicate KeyedWhenReady(rows: map<Id, Row>) {
    forall i :: i in rows ==>
      (rows[i].status == Pending ==> rows[i].key.None? && rows[i].bytes.None?) &&
        (rows[i].status == Ready ==> rows[i].key.Some?)
  }

  ghost predicate WithinQuota(rows: map<Id, Row>) {
    forall o, p :: |PendingOf(rows, o, p)| <= PolicyOf(p).maxPending
  }

  ghost predicate Inv(s: Store) {
    && KeysOk(s.rows, s.byKey)
    && PublicIdsOk(s.rows, s.byPublicId)
    && KeyedWhenReady(s.rows)
    && WithinQuota(s.rows)
    && (forall i :: i in s.deletionJobs ==> i in s.rows)
  }

  lemma QuotaHolds(s: Store, o: Id, p: Purpose)
    requires Inv(s)
    ensures |PendingOf(s.rows, o, p)| <= PolicyOf(p).maxPending
  {
    hide KeysOk, PublicIdsOk, KeyedWhenReady, PendingOf, PolicyOf;
  }

  lemma SubsetIsSmaller<T>(a: set<T>, b: set<T>)
    requires a <= b
    ensures |a| <= |b|
  {
    if a == {} {
    } else {
      var x :| x in a;
      SubsetIsSmaller(a - {x}, b - {x});
    }
  }

  lemma QuotaAfterMoves(rows: map<Id, Row>, rows': map<Id, Row>)
    requires WithinQuota(rows) && RowsMove(rows, rows') && rows'.Keys == rows.Keys
    ensures WithinQuota(rows')
  {
    forall o, p ensures |PendingOf(rows', o, p)| <= PolicyOf(p).maxPending {
      SubsetIsSmaller(PendingOf(rows', o, p), PendingOf(rows, o, p));
      assert |PendingOf(rows, o, p)| <= PolicyOf(p).maxPending;
    }
  }

  predicate CountsFor(row: Row, o: Id, p: Purpose) {
    row.ownerId == o && row.purpose == p && row.status == Pending
  }

  lemma PendingMembers(rows: map<Id, Row>, o: Id, p: Purpose, i: Id)
    ensures i in PendingOf(rows, o, p) <==> i in rows && CountsFor(rows[i], o, p)
  {
  }

  lemma PendingAfterCreation(rows: map<Id, Row>, id: Id, row: Row, o: Id, p: Purpose)
    requires id !in rows
    ensures id !in PendingOf(rows, o, p)
    ensures PendingOf(rows[id := row], o, p) == PendingOf(rows, o, p) + (if CountsFor(row, o, p) then {id} else {})
  {
    hide *;
    var after := PendingOf(rows[id := row], o, p);
    var expected := PendingOf(rows, o, p) + (if CountsFor(row, o, p) then {id} else {});
    forall i: Id ensures i in after <==> i in expected {
      PendingMembers(rows, o, p, i);
      PendingMembers(rows[id := row], o, p, i);
    }
    PendingMembers(rows, o, p, id);
  }

  lemma QuotaAfterCreation(rows: map<Id, Row>, id: Id, row: Row)
    requires WithinQuota(rows) && id !in rows
    requires row.status == Pending ==> |PendingOf(rows, row.ownerId, row.purpose)| < PolicyOf(row.purpose).maxPending
    ensures WithinQuota(rows[id := row])
  {
    hide PolicyOf, PendingOf;
    var rows' := rows[id := row];
    forall o, p: Purpose ensures |PendingOf(rows', o, p)| <= PolicyOf(p).maxPending {
      assert |PendingOf(rows, o, p)| <= PolicyOf(p).maxPending;
      PendingAfterCreation(rows, id, row, o, p);
    }
  }

  lemma KeyedAfterMoves(rows: map<Id, Row>, rows': map<Id, Row>)
    requires KeyedWhenReady(rows) && RowsMove(rows, rows')
    ensures KeyedWhenReady(rows')
  {
  }

  /** The indexes follow a row that keeps its key and public id. */
  ghost predicate SameIndexed(rows: map<Id, Row>, rows': map<Id, Row>) {
    rows'.Keys == rows.Keys && forall i :: i in rows ==>
      rows'[i].key == rows[i].key && rows'[i].publicId == rows[i].publicId
  }

  lemma IndexesFrame(s: Store, rows': map<Id, Row>)
    requires KeysOk(s.rows, s.byKey) && PublicIdsOk(s.rows, s.byPublicId) && SameIndexed(s.rows, rows')
    ensures KeysOk(rows', s.byKey) && PublicIdsOk(rows', s.byPublicId)
  {
  }

  /** Changing statuses, recording no key. */
  lemma StatusesKeepInv(s: Store, s': Store)
    requires Inv(s) && RowsMove(s.rows, s'.rows) && SameIndexed(s.rows, s'.rows)
    requires s'.byKey == s.byKey && s'.byPublicId == s.byPublicId
    requires forall i :: i in s'.deletionJobs ==> i in s.rows
    ensures Inv(s')
  {
    IndexesFrame(s, s'.rows);
    QuotaAfterMoves(s.rows, s'.rows);
    KeyedAfterMoves(s.rows, s'.rows);
    hide KeysOk, PublicIdsOk, KeyedWhenReady, WithinQuota, RowsMove;
  }

  lemma CreationKeepsInv(s: Store, id: Id, row: Row)
    requires Inv(s) && id !in s.rows && row.publicId !in s.byPublicId && RowBorn(row)
    requires row.key.Some? ==> row.key.value !in s.byKey
    requires row.status == Pending ==> |PendingOf(s.rows, row.ownerId, row.purpose)| < PolicyOf(row.purpose).maxPending
    ensures Inv(s.(rows := s.rows[id := row], byPublicId := s.byPublicId[row.publicId := id],
                   byKey := if row.key.Some? then s.byKey[row.key.value := id] else s.byKey))
  {
    QuotaAfterCreation(s.rows, id, row);
    hide WithinQuota;
  }

  lemma ReadyKeepsInv(s: Store, id: Id, bytes: Option<int>, key: string)
    requires Inv(s) && id in s.rows && s.rows[id].status == Pending && key !in s.byKey
    ensures Inv(MarkReady(s, id, bytes, key))
  {
    var s' := MarkReady(s, id, bytes, key);
    assert RowsMove(s.rows, s'.rows);
    QuotaAfterMoves(s.rows, s'.rows);
    hide WithinQuota, RowsMove;
  }

  lemma RequestUploadKeepsInv(s: Store, o: Id, p: Purpose, mime: string, size: int, id: Id, publicId: string, now: int)
    requires Inv(s)
    ensures Inv(RequestUpload(s, o, p, mime, size, id, publicId, now).0)
  {
    hide Inv, PolicyOf, PendingOf;
    var r := RequestUpload(s, o, p, mime, size, id, publicId, now);
    if r.1 == Ok {
      CreationKeepsInv(s, id, Row(o, p, publicId, Pending, None, None, now));
    }
  }

  lemma UploadAssetKeepsInv(s: Store, o: Id, p: Purpose, hasFile: bool, mime: string, size: int, id: Id, up: Uploaded,
                            now: int)
    requires Inv(s)
    ensures Inv(UploadAsset(s, o, p, hasFile, mime, size, id, up, now).0)
  {
    hide Inv, PolicyOf, PendingOf, Key;
    if UploadAsset(s, o, p, hasFile, mime, size, id, up, now).1 == Ok {
      CreationKeepsInv(s, id, Row(o, p, up.publicId, Ready, Some(up.bytes),
                                  Some(Key(Some(up.assetId), up.publicId, "0")), now));
    }
  }

  /** In these states a known key belongs to a row that is past PENDING. */
  lemma KnownKeyIsUsed(s: Store, key: string)
    requires Inv(s) && key in s.byKey
    ensures s.byKey[key] in s.rows && s.rows[s.byKey[key]].status != Pending
  {
  }

  lemma ConfirmKeepsInv(s: Store, id: Id, r: Id, assetId: Option<string>, version: string, bytes: Option<int>)
    requires Inv(s)
    ensures Inv(ConfirmUpload(s, id, r, assetId, version, bytes).0)
  {
    hide Inv, PolicyOf, Key, MarkReady;
    if id in s.rows && s.rows[id].status == Pending {
      var key := Key(assetId, s.rows[id].publicId, version);
      if key !in s.byKey {
        ReadyKeepsInv(s, id, bytes, key);
      } else {
        KnownKeyIsUsed(s, key);
      }
    }
  }

  lemma StatusKeepsInv(s: Store, id: Id, status: Status)
    requires Inv(s) && id in s.rows && (status == s.rows[id].status || StatusEdge(s.rows[id].status, status)) &&
      status != Ready
    ensures Inv(s.(rows := SetStatus(s.rows, id, status)))
    ensures Inv(s.(rows := SetStatus(s.rows, id, status), deletionJobs := s.deletionJobs + {id}))
  {
    var rows' := SetStatus(s.rows, id, status);
    assert RowsMove(s.rows, rows') && SameIndexed(s.rows, rows');
    assert forall i :: i in s.deletionJobs ==> i in s.rows;
    hide KeysOk, PublicIdsOk, KeyedWhenReady, WithinQuota, RowsMove, SameIndexed, SetStatus;
    StatusesKeepInv(s, s.(rows := rows'));
    StatusesKeepInv(s, s.(rows := rows', deletionJobs := s.deletionJobs + {id}));
  }

  lemma DeleteKeepsInv(s: Store, id: Id, r: Id, admin: bool)
    requires Inv(s)
    ensures Inv(DeleteMedia(s, id, r, admin).0)
  {
    hide Inv, SetStatus;
    if id in s.rows && s.rows[id].status != Deleted && s.rows[id].status != Deleting {
      StatusKeepsInv(s, id, Deleting);
    }
  }

  lemma OverwriteKeepsInv(s: Store, publicId: string, status: Status)
    requires Inv(s) && (status == Failed || status == Deleted)
    ensures Inv(Overwrite(s, publicId, status))
  {
    hide Inv, SetStatus;
    if KnownRow(s, publicId) {
      StatusKeepsInv(s, s.byPublicId[publicId], status);
    }
  }

  lemma HearKeepsInv(s: Store, publicId: string)
    requires Inv(s)
    ensures Inv(Hear(s, publicId))
  {
    hide KeysOk, PublicIdsOk, KeyedWhenReady, WithinQuota;
  }

  lemma ProcessKeepsInv(s: Store, n: Notification, answer: Deletion)
    requires Inv(s)
    ensures Inv(Process(s, n, answer).0)
  {
    hide Inv, SetStatus, MarkReady, SizeAllowed, Key, Overwrite, Hear;
    match n
    case UploadNotice(p, assetId, version, bytes) =>
      HearKeepsInv(s, p);
      UploadKeepsInv(Hear(s, p), n, answer);
    case ErrorNotice(p) =>
      HearKeepsInv(s, p);
      OverwriteKeepsInv(Hear(s, p), p, Failed);
    case DeleteNotice(p) =>
      HearKeepsInv(s, p);
      OverwriteKeepsInv(Hear(s, p), p, Deleted);
    case OtherNotice =>
  }

  lemma UploadKeepsInv(s: Store, n: Notification, answer: Deletion)
    requires Inv(s) && n.UploadNotice?
    ensures Inv(ProcessUpload(s, n, answer).0)
  {
    hide Inv, SetStatus, MarkReady, SizeAllowed, Key;
    var key := Key(n.assetId, n.publicId, n.version);
    if KnownRow(s, n.publicId) && s.rows[s.byPublicId[n.publicId]].status == Pending && key !in s.byKey {
      StatusKeepsInv(s, s.byPublicId[n.publicId], Failed);
      ReadyKeepsInv(s, s.byPublicId[n.publicId], n.bytes, key);
    }
  }

  lemma DeletionJobKeepsInv(s: Store, id: Id, answer: Deletion)
    requires Inv(s)
    ensures Inv(DeletionJob(s, id, answer).0)
  {
    hide Inv, SetStatus;
    if id in s.rows {
      StatusKeepsInv(s, id, Deleted);
    }
  }

  lemma MarkStaleKeepsInv(s: Store, batch: set<Id>)
    requires Inv(s)
    ensures Inv(MarkStale(s, batch))
  {
    FailedBatchMovesRows(s.rows, batch);
    assert SameIndexed(s.rows, FailAll(s.rows, batch));
    assert forall i :: i in s.deletionJobs ==> i in s.rows;
    hide FailAll, RowsMove, SameIndexed, KeysOk, PublicIdsOk, KeyedWhenReady, WithinQuota;
    if batch in s.staleBatches {
      StatusesKeepInv(s, MarkStale(s, batch));
    }
  }

  lemma QueriesKeepInv(s: Store, now: int, batch: set<Id>)
    requires Inv(s)
    ensures Inv(FindStale(s, now, batch)) && Inv(Requeue(s, batch))
  {
    hide StaleAnswer, KeysOk, PublicIdsOk, KeyedWhenReady, WithinQuota;
  }

  lemma StepKeepsInv(s: Store, e: Event)
    requires Inv(s)
    ensures Inv(Step(s, e))
  {
    hide Inv, RequestUpload, UploadAsset, ConfirmUpload, DeleteMedia, Process, DeletionJob, FindStale, MarkStale,
      Requeue;
    match e
    case ERequestUpload(o, p, mime, size, id, publicId, now) =>
      RequestUploadKeepsInv(s, o, p, mime, size, id, publicId, now);
    case EUploadAsset(o, p, f, mime, size, id, up, now) => UploadAssetKeepsInv(s, o, p, f, mime, size, id, up, now);
    case EConfirmUpload(id, r, a, v, b) => ConfirmKeepsInv(s, id, r, a, v, b);
    case ECancelPending(id, o) => DeleteKeepsInv(s, id, o, false);
    case EDeleteMedia(id, r, admin) => DeleteKeepsInv(s, id, r, admin);
    case ENotice(n, answer) => ProcessKeepsInv(s, n, answer);
    case EDeletionJob(id, answer) => DeletionJobKeepsInv(s, id, answer);
    case EFindStale(now, batch) => QueriesKeepInv(s, now, batch);
    case EMarkStale(batch) => MarkStaleKeepsInv(s, batch);
    case ERequeue(batch) => QueriesKeepInv(s, 0, batch);
  }

  lemma NoMediaInv()
    ensures Inv(NO_MEDIA)
  {
    forall o, p ensures PendingOf(NO_MEDIA.rows, o, p) == {} {
    }
  }

  lemma {:induction false} RunKeepsInv(s: Store, events: seq<Event>)
    requires Inv(s)
    ensures Inv(Run(s, events))
  {
    hide Inv, Step;
    if |events| > 0 {
      RunKeepsInv(s, events[..|events| - 1]);
      StepKeepsInv(Run(s, events[..|events| - 1]), events[|events| - 1]);
    }
  }

  /** In every reachable state each owner's pending uploads are within the quota of
      their purpose, and no two rows share a deduplication key or a public id. */
  lemma QuotaAndUniqueKeys(events: seq<Event>)
    ensures var rows := Run(NO_MEDIA, events).rows;
            && (forall o, p :: |PendingOf(rows, o, p)| <= PolicyOf(p).maxPending)
            && (forall i, j :: i in rows && j in rows && rows[i].key.Some? && rows[i].key == rows[j].key ==> i == j)
            && (forall i, j :: i in rows && j in rows && rows[i].publicId == rows[j].publicId ==> i == j)
  {
    NoMediaInv();
    RunKeepsInv(NO_MEDIA, events);
    hide Run, PendingOf, PolicyOf;
  }

  // ---------------------------------------------------------------------------
  // Leaving READY
  // ---------------------------------------------------------------------------

  /** The steps that end the service of a ready row, read off the tables before. */
  predicate LeavesReady(s: Store, e: Event, i: Id)
    requires i in s.rows
  {
    match e
    case ENotice(n, _) => (n.ErrorNotice? || n.DeleteNotice?) && n.publicId != "" && n.publicId == s.rows[i].publicId
    case EDeleteMedia(id, r, admin) => id == i && (admin || s.rows[i].ownerId == r)
    case EDeletionJob(id, answer) => id == i && i in s.deletionJobs && answer == Removed
    case EMarkStale(batch) => i in batch && batch in s.staleBatches
    case _ => false
  }

  lemma NoticesLeaveReady(s: Store, n: Notification, answer: Deletion, i: Id)
    requires Inv(s) && i in s.rows && s.rows[i].status == Ready
    ensures i in Process(s, n, answer).0.rows
    ensures Process(s, n, answer).0.rows[i].status != Ready <==> LeavesReady(s, ENotice(n, answer), i)
  {
    hide KeysOk, KeyedWhenReady, WithinQuota, SizeAllowed, Key, Without;
  }

  lemma RequestsLeaveReady(s: Store, e: Event, i: Id)
    requires e.ERequestUpload? || e.EUploadAsset? || e.EConfirmUpload? || e.ECancelPending? || e.EDeleteMedia?
    requires i in s.rows && s.rows[i].status == Ready
    ensures i in Step(s, e).rows
    ensures Step(s, e).rows[i].status != Ready <==> LeavesReady(s, e, i)
  {
    hide PolicyOf, PendingOf, Key, Without, Process, DeletionJob, FindStale, MarkStale, Requeue;
  }

  lemma JobsLeaveReady(s: Store, e: Event, i: Id)
    requires e.EDeletionJob? || e.EFindStale? || e.EMarkStale? || e.ERequeue?
    requires i in s.rows && s.rows[i].status == Ready
    ensures i in Step(s, e).rows
    ensures Step(s, e).rows[i].status != Ready <==> LeavesReady(s, e, i)
  {
    hide RequestUpload, UploadAsset, ConfirmUpload, CancelPending, DeleteMedia, Process, StaleAnswer, DeletingAnswer;
  }

  /** A ready row stops being ready exactly by an error or delete notice for its
      public id, a deletion by its owner or an admin, a deletion job that succeeds,
      or the update of a cleanup that had selected it while it was pending. */
  lemma ReadyEnds(s: Store, e: Event, i: Id)
    requires Inv(s) && i in s.rows && s.rows[i].status == Ready
    ensures i in Step(s, e).rows
    ensures Step(s, e).rows[i].status != Ready <==> LeavesReady(s, e, i)
  {
    if e.ENotice? {
      hide Inv, Process;
      NoticesLeaveReady(s, e.n, e.answer, i);
    } else {
      hide Inv, Step, LeavesReady;
      if e.EDeletionJob? || e.EFindStale? || e.EMarkStale? || e.ERequeue? {
        JobsLeaveReady(s, e, i);
      } else {
        RequestsLeaveReady(s, e, i);
      }
    }
  }

  lemma RunPush(s: Store, events: seq<Event>, e: Event)
    ensures Run(s, events + [e]) == Step(Run(s, events), e)
  {
    assert (events + [e])[..|events|] == events;
  }

  lemma SelectedThenReady(s: Store)
    requires s == NO_MEDIA
    ensures var s1 := RequestUpload(s, 1, Avatar, "image/png", 1, 5, "p", 0).0;
            var s2 := FindStale(s1, ORPHAN_AGE_MS + 1, {5});
            var s3 := Process(s2, UploadNotice("p", None, "1", Some(1)), Removed).0;
            && "p" !in s.heard
            && 5 in s3.rows && s3.rows[5].status == Ready && {5} in s3.staleBatches
  {
    assert PendingOf(s.rows, 1, Avatar) == {};
    var s1 := RequestUpload(s, 1, Avatar, "image/png", 1, 5, "p", 0).0;
    assert s1.rows == map[5 := Row(1, Avatar, "p", Pending, None, None, 0)];
    assert StaleAnswer(s1.rows, ORPHAN_AGE_MS + 1, {5});
    hide StaleAnswer, Key, PendingOf;
  }

  /** Such an update can hit a ready row: the cleanup selects a pending upload, its
      notice arrives, and the batch is marked after that. */
  lemma CleanupFailsReadyRow() returns (events: seq<Event>, i: Id, batch: set<Id>)
    ensures var s := Run(NO_MEDIA, events);
            && i in s.rows && s.rows[i].status == Ready
            && LeavesReady(s, EMarkStale(batch), i)
  {
    hide RequestUpload, FindStale, Process;
    var e1, e2 := ERequestUpload(1, Avatar, "image/png", 1, 5, "p", 0), EFindStale(ORPHAN_AGE_MS + 1, {5});
    var e3 := ENotice(UploadNotice("p", None, "1", Some(1)), Removed);
    SelectedThenReady(NO_MEDIA);
    assert Run(NO_MEDIA, []) == NO_MEDIA;
    hide Run;
    RunPush(NO_MEDIA, [], e1);
    RunPush(NO_MEDIA, [] + [e1], e2);
    RunPush(NO_MEDIA, [] + [e1] + [e2], e3);
    events, i, batch := [] + [e1] + [e2] + [e3], 5, {5};
  }

  // ---------------------------------------------------------------------------
  // Redelivered notifications
  // ---------------------------------------------------------------------------

  /** The upload this notice reports has been dealt with, or can no longer get a
      pending row. */
  predicate Absorbed(s: Store, n: Notification)
    requires n.UploadNotice?
  {
    || n.publicId == ""
    || (n.publicId in s.heard
        && (Key(n.assetId, n.publicId, n.version) in s.byKey || NotPending(s, n.publicId)))
  }

  predicate NotPending(s: Store, publicId: string) {
    KnownRow(s, publicId) ==> s.rows[s.byPublicId[publicId]].status != Pending
  }

  lemma AbsorbedIsNoOp(s: Store, n: Notification, answer: Deletion)
    requires n.UploadNotice? && Absorbed(s, n)
    ensures Process(s, n, answer) == (s, Handled)
  {
    hide Key;
    assert n.publicId != "" ==> s.heard + {n.publicId} == s.heard;
  }

  lemma KeyStays(s: Store, s': Store, key: string)
    requires KeysOk(s.rows, s.byKey) && KeyedWhenReady(s.rows) && key in s.byKey
    requires KeysOk(s'.rows, s'.byKey) && RowsMove(s.rows, s'.rows)
    ensures key in s'.byKey
  {
    assert RowMoves(s.rows[s.byKey[key]], s'.rows[s.byKey[key]]);
  }

  lemma RequestIsUnheard(s: Store, e: Event, i: Id)
    requires e.ERequestUpload? || e.EUploadAsset?
    requires i !in s.rows && i in Step(s, e).rows && Step(s, e).rows[i].status == Pending
    ensures Step(s, e).rows[i].publicId !in s.heard
  {
    hide PolicyOf, PendingOf, Key;
  }

  lemma OthersAddNoRow(s: Store, e: Event, i: Id)
    requires !e.ERequestUpload? && !e.EUploadAsset? && !e.ENotice? && i !in s.rows
    ensures i !in Step(s, e).rows
  {
    hide RequestUpload, UploadAsset, PolicyOf, Key, Without, Process, StaleAnswer, DeletingAnswer;
  }

  /** A row that appears as PENDING has a public id no notice has named. */
  lemma NewRowIsUnheard(s: Store, e: Event, i: Id)
    requires i !in s.rows && i in Step(s, e).rows && Step(s, e).rows[i].status == Pending
    ensures Step(s, e).rows[i].publicId !in s.heard
  {
    if e.ERequestUpload? || e.EUploadAsset? {
      RequestIsUnheard(s, e, i);
      hide Step;
    } else if e.ENotice? {
      hide Process;
      NoticesAddNoRow(s, e.n, e.answer, i);
    } else {
      hide Step;
      OthersAddNoRow(s, e, i);
    }
  }

  lemma NoticesAddNoRow(s: Store, n: Notification, answer: Deletion, i: Id)
    requires i !in s.rows
    ensures i !in Process(s, n, answer).0.rows
  {
    hide SizeAllowed, Key, Without;
  }

  lemma HeardGrows(s: Store, e: Event)
    ensures s.heard <= Step(s, e).heard
  {
    hide PolicyOf, PendingOf, Key, Without, SizeAllowed, StaleAnswer, DeletingAnswer, FailAll;
  }

  lemma NotPendingStays(s: Store, e: Event, publicId: string)
    requires Inv(s) && Inv(Step(s, e)) && RowsMove(s.rows, Step(s, e).rows)
    requires publicId in s.heard && NotPending(s, publicId)
    ensures NotPending(Step(s, e), publicId)
  {
    hide Step, KeysOk, KeyedWhenReady, WithinQuota, RowMoves;
    var s' := Step(s, e);
    if KnownRow(s', publicId) && s'.rows[s'.byPublicId[publicId]].status == Pending {
      var i := s'.byPublicId[publicId];
      if i !in s.rows {
        NewRowIsUnheard(s, e, i);
      } else {
        StillPending(s.rows[i], s'.rows[i]);
      }
    }
  }

  lemma StillPending(a: Row, b: Row)
    requires RowMoves(a, b) && b.status == Pending
    ensures a.status == Pending && a.publicId == b.publicId
  {
  }

  /** Keys, public ids and the end of the pending phase are permanent. */
  lemma AbsorbedStays(s: Store, e: Event, n: Notification)
    requires Inv(s) && n.UploadNotice? && Absorbed(s, n)
    ensures Absorbed(Step(s, e), n)
  {
    StepMovesRows(s, e);
    StepKeepsInv(s, e);
    HeardGrows(s, e);
    hide Step, Key, KeysOk, PublicIdsOk, KeyedWhenReady, WithinQuota, RowsMove, NotPending;
    if Key(n.assetId, n.publicId, n.version) in s.byKey {
      KeyStays(s, Step(s, e), Key(n.assetId, n.publicId, n.version));
    } else if n.publicId != "" {
      NotPendingStays(s, e, n.publicId);
    }
  }

  lemma {:induction false} AbsorbedForever(s: Store, events: seq<Event>, n: Notification)
    requires Inv(s) && n.UploadNotice? && Absorbed(s, n)
    ensures Absorbed(Run(s, events), n)
  {
    hide Step, Inv, Absorbed;
    if |events| > 0 {
      AbsorbedForever(s, events[..|events| - 1], n);
      RunKeepsInv(s, events[..|events| - 1]);
      AbsorbedStays(Run(s, events[..|events| - 1]), events[|events| - 1], n);
    }
  }

  lemma HandlingAbsorbs(s: Store, n: Notification, answer: Deletion)
    requires Inv(s) && n.UploadNotice? && Process(s, n, answer).1 == Handled
    ensures Absorbed(Process(s, n, answer).0, n)
  {
    hide Inv, Key, SizeAllowed;
  }

  /** Once an upload notice has been handled, delivering it again does nothing in
      any later state, whatever requests, uploads, errors, deletes, client
      confirmations and cleanups came in between; also when it found no row. */
  lemma RedeliveryIsNoOp(s: Store, n: Notification, answer: Deletion, events: seq<Event>, answer': Deletion)
    requires Inv(s) && n.UploadNotice? && Process(s, n, answer).1 == Handled
    ensures var later := Run(Process(s, n, answer).0, events);
            Process(later, n, answer') == (later, Handled)
  {
    hide Inv, Process, Absorbed, Key, Run;
    HandlingAbsorbs(s, n, answer);
    ProcessKeepsInv(s, n, answer);
    AbsorbedForever(Process(s, n, answer).0, events, n);
    AbsorbedIsNoOp(Run(Process(s, n, answer).0, events), n, answer');
  }

  /** A handled upload notice changes a row exactly when its id has a PENDING row and
      its key is new; one that names no row changes none. */
  lemma NoticeActsOnPending(s: Store, n: Notification, answer: Deletion)
    requires n.UploadNotice? && Process(s, n, answer).1 == Handled
    ensures Process(s, n, answer).0.rows != s.rows <==>
            && n.publicId != "" && KnownRow(s, n.publicId)
            && s.rows[s.byPublicId[n.publicId]].status == Pending
            && Key(n.assetId, n.publicId, n.version) !in s.byKey
  {
    hide Key, Without;
    if n.publicId != "" && KnownRow(s, n.publicId) {
      var i := s.byPublicId[n.publicId];
      if s.rows[i].status == Pending && Key(n.assetId, n.publicId, n.version) !in s.byKey {
        assert Process(s, n, answer).0.rows[i].status != Pending;
      }
    }
  }

  // ---------------------------------------------------------------------------
  // Sizes
  // ---------------------------------------------------------------------------

  predicate SizeOk(row: Row) {
    row.status == Ready ==>
      && (row.bytes.Some? ==> row.bytes.value <= PolicyOf(row.purpose).maxBytes)
      && (row.purpose == ListingVideo ==> row.bytes.Some?)
  }

  ghost predicate SizesOk(rows: map<Id, Row>) {
    forall i :: i in rows ==> SizeOk(rows[i])
  }

  /** The storage service reports more bytes than the purpose allows. */
  predicate Overstated(s: Store, e: Event) {
    e.EUploadAsset? && UploadAsset(s, e.ownerId, e.purpose, e.hasFile, e.mime, e.size, e.id, e.up, e.now).1 == Ok
    && e.up.bytes > PolicyOf(e.purpose).maxBytes
  }

  lemma MarkedReadyIsSized(s: Store, id: Id, bytes: Option<int>, key: string)
    requires Inv(s) && SizesOk(s.rows) && id in s.rows && s.rows[id].status == Pending
    requires if bytes.None? then s.rows[id].purpose != ListingVideo
      else bytes.value <= PolicyOf(s.rows[id].purpose).maxBytes
    ensures SizesOk(MarkReady(s, id, bytes, key).rows)
  {
    hide PolicyOf, KeysOk, PublicIdsOk, WithinQuota;
  }

  lemma NoticeKeepsSizes(s: Store, n: Notification, answer: Deletion)
    requires Inv(s) && SizesOk(s.rows)
    ensures SizesOk(Process(s, n, answer).0.rows)
  {
    hide Inv, PolicyOf, Key, MarkReady;
    if n.UploadNotice? && KnownRow(s, n.publicId) {
      var id := s.byPublicId[n.publicId];
      HearKeepsInv(s, n.publicId);
      if s.rows[id].status == Pending && SizeAllowed(s.rows[id].purpose, n.bytes) {
        MarkedReadyIsSized(Hear(s, n.publicId), id, n.bytes, Key(n.assetId, n.publicId, n.version));
      }
    }
  }

  lemma ConfirmKeepsSizes(s: Store, id: Id, r: Id, assetId: Option<string>, version: string, bytes: Option<int>)
    requires Inv(s) && SizesOk(s.rows)
    ensures SizesOk(ConfirmUpload(s, id, r, assetId, version, bytes).0.rows)
  {
    hide Inv, PolicyOf, Key, MarkReady, SizesOk;
    if ConfirmUpload(s, id, r, assetId, version, bytes).1 == Ok && s.rows[id].status == Pending {
      MarkedReadyIsSized(s, id, bytes, Key(assetId, s.rows[id].publicId, version));
    }
  }

  lemma UploadedSize(s: Store, e: Event)
    requires SizesOk(s.rows) && e.EUploadAsset?
    ensures SizesOk(Step(s, e).rows) <==> !Overstated(s, e)
  {
    hide PolicyOf, Key;
    var r := UploadAsset(s, e.ownerId, e.purpose, e.hasFile, e.mime, e.size, e.id, e.up, e.now);
    if r.1 == Ok {
      assert r.0.rows[e.id].bytes == Some(e.up.bytes);
      assert SizesOk(r.0.rows) <==> SizeOk(r.0.rows[e.id]);
    }
  }

  /** A row that does not enter READY cannot break the limits. */
  lemma OtherStepsKeepSizes(s: Store, e: Event)
    requires SizesOk(s.rows) && !e.EUploadAsset? && !e.EConfirmUpload? && !e.ENotice?
    ensures SizesOk(Step(s, e).rows)
  {
    StepMovesRows(s, e);
    NoReadyEntry(s, e);
    hide Step, PolicyOf;
  }

  predicate NewlyReady(rows: map<Id, Row>, rows': map<Id, Row>, i: Id) {
    i in rows' && rows'[i].status == Ready && !(i in rows && rows[i].status == Ready)
  }

  lemma RequestsEnterNoReady(s: Store, e: Event)
    requires e.ERequestUpload? || e.ECancelPending? || e.EDeleteMedia?
    ensures forall i :: !NewlyReady(s.rows, Step(s, e).rows, i)
  {
    hide UploadAsset, ConfirmUpload, Process, DeletionJob, FindStale, MarkStale, Requeue, PolicyOf, PendingOf;
  }

  lemma JobsEnterNoReady(s: Store, e: Event)
    requires e.EDeletionJob? || e.EFindStale? || e.EMarkStale? || e.ERequeue?
    ensures forall i :: !NewlyReady(s.rows, Step(s, e).rows, i)
  {
    hide RequestUpload, UploadAsset, ConfirmUpload, CancelPending, DeleteMedia, Process, StaleAnswer, DeletingAnswer;
  }

  lemma NoReadyEntry(s: Store, e: Event)
    requires !e.EUploadAsset? && !e.EConfirmUpload? && !e.ENotice?
    ensures forall i :: i in Step(s, e).rows && Step(s, e).rows[i].status == Ready ==>
      i in s.rows && s.rows[i].status == Ready
  {
    hide Step;
    if e.ERequestUpload? || e.ECancelPending? || e.EDeleteMedia? {
      RequestsEnterNoReady(s, e);
    } else {
      JobsEnterNoReady(s, e);
    }
    forall i | i in Step(s, e).rows && Step(s, e).rows[i].status == Ready
      ensures i in s.rows && s.rows[i].status == Ready
    {
      assert !NewlyReady(s.rows, Step(s, e).rows, i);
    }
  }

  /** A step keeps every ready row within its limit, and every ready listing video
      with a known size, except exactly when a direct upload is accepted for which
      the storage service reports more bytes than allowed. */
  lemma SizesKeptUnlessOverstated(s: Store, e: Event)
    requires Inv(s) && SizesOk(s.rows)
    ensures SizesOk(Step(s, e).rows) <==> !Overstated(s, e)
  {
    hide Inv, SizesOk, PolicyOf, UploadAsset, Process, ConfirmUpload;
    if e.EUploadAsset? {
      UploadedSize(s, e);
      hide Step;
    } else if e.EConfirmUpload? {
      ConfirmKeepsSizes(s, e.id, e.requesterId, e.assetId, e.version, e.bytes);
    } else if e.ENotice? {
      NoticeKeepsSizes(s, e.n, e.answer);
    } else {
      OtherStepsKeepSizes(s, e);
      hide Step;
    }
  }

  /** If the storage service reports the size it was given, every reachable ready
      row with a known size is within its limit, and every ready video has one. */
  lemma {:induction false} ReadySizes(events: seq<Event>)
    requires forall k :: 0 <= k < |events| && events[k].EUploadAsset? ==> events[k].up.bytes == events[k].size
    ensures SizesOk(Run(NO_MEDIA, events).rows)
  {
    hide Step, Inv;
    if |events| > 0 {
      var prefix := events[..|events| - 1];
      forall k | 0 <= k < |prefix| && prefix[k].EUploadAsset? ensures prefix[k].up.bytes == prefix[k].size {
        assert prefix[k] == events[k];
      }
      ReadySizes(prefix);
      NoMediaInv();
      RunKeepsInv(NO_MEDIA, prefix);
      AcceptedSizeIsWithinLimit(Run(NO_MEDIA, prefix), events[|events| - 1]);
      SizesKeptUnlessOverstated(Run(NO_MEDIA, prefix), events[|events| - 1]);
    }
  }

  lemma AcceptedSizeIsWithinLimit(s: Store, e: Event)
    requires e.EUploadAsset? ==> e.up.bytes == e.size
    ensures !Overstated(s, e)
  {
    hide PolicyOf, Key;
  }
}
