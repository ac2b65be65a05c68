/**
  The media service and its workers as they are written: lookups, guards and single
  updates on shared tables. Each keeps the tables valid, which is the invariant of
  every run, and does exactly what its function in Media says; so requests, notices
  and jobs served one after the other are a run, and everything proved of runs holds
  of them.
 */
module MediaService {
  import opened Wrappers
  import opened Media
  import P = MediaProofs

  class MediaTables {
    var rows: map<Id, Row>
    var byKey: map<string, Id>
    var byPublicId: map<string, Id>
    var deletionJobs: set<Id>
    var staleBatches: multiset<set<Id>>
    ghost var heard: set<string>

    constructor ()
      ensures Valid() && Model() == NO_MEDIA
    {
      rows, byKey, byPublicId, deletionJobs, staleBatches, heard := map[], map[], map[], {}, multiset{}, {};
      new;
      P.NoMediaInv();
    }

    /** Keys and public ids are unique, only rows past PENDING have a key, and every
        owner is within the quotas. */
    ghost predicate Valid()
      reads this
    {
      P.Inv(Model())
    }

    ghost function Model(): Store
      reads this
    {
      Store(rows, byKey, byPublicId, deletionJobs, staleBatches, heard)
    }

    // -------------------------------------------------------------------------
    // The repository
    // -------------------------------------------------------------------------

    method FindByPublicId(publicId: string) returns (found: Option<Id>)
      ensures found.Some? <==> KnownRow(Model(), publicId)
      ensures found.Some? ==> found.value == byPublicId[publicId]
    {
      found := None;
      if publicId in byPublicId && byPublicId[publicId] in rows {
        found := Some(byPublicId[publicId]);
      }
    }

    method SetRowStatus(id: Id, status: Status)
      requires id in rows
      modifies this`rows
      ensures rows == SetStatus(old(rows), id, status)
    {
      var row := rows[id];
      rows := rows[id := row.(status := status)];
    }

    method SetReady(id: Id, bytes: Option<int>, key: string)
      requires id in rows
      modifies this`rows, this`byKey
      ensures Model() == MarkReady(old(Model()), id, bytes, key)
    {
      var row := rows[id];
      if row.key.Some? {
        byKey := byKey - {row.key.value};
      }
      byKey := byKey[key := id];
      row := row.(status := Ready, key := Some(key));
      if bytes.Some? {
        row := row.(bytes := bytes);
      }
      rows := rows[id := row];
    }

    // -------------------------------------------------------------------------
    // Requests
    // -------------------------------------------------------------------------

    /** `publicId` is drawn at random, so nobody has named it before. */
    method RequestUploadSignature(ownerId: Id, purpose: Purpose, mime: string, size: int, id: Id, publicId: string,
                                  now: int) returns (reply: Reply)
      requires Valid() && publicId !in heard
      modifies this
      ensures (Model(), reply) == RequestUpload(old(Model()), ownerId, purpose, mime, size, id, publicId, now)
      ensures Valid()
      ensures |PendingOf(rows, ownerId, purpose)| <= PolicyOf(purpose).maxPending
    {
      hide P.Inv;
      P.RequestUploadKeepsInv(Model(), ownerId, purpose, mime, size, id, publicId, now);
      P.QuotaHolds(RequestUpload(Model(), ownerId, purpose, mime, size, id, publicId, now).0, ownerId, purpose);
      var policy := PolicyOf(purpose);
      if mime !in policy.mimeTypes {
        return BadRequest;
      }
      if size > policy.maxBytes {
        return BadRequest;
      }
      var pendingCount := |PendingOf(rows, ownerId, purpose)|;
      if pendingCount >= policy.maxPending {
        return TooManyRequests;
      }
      if id in rows || publicId in byPublicId {
        return ConstraintViolation;
      }
      rows := rows[id := Row(ownerId, purpose, publicId, Pending, None, None, now)];
      byPublicId := byPublicId[publicId := id];
      return Ok;
    }

    method UploadDirectly(ownerId: Id, purpose: Purpose, hasFile: bool, mime: string, size: int, id: Id, up: Uploaded,
                          now: int) returns (reply: Reply)
      requires Valid()
      modifies this
      ensures (Model(), reply) == UploadAsset(old(Model()), ownerId, purpose, hasFile, mime, size, id, up, now)
      ensures Valid()
    {
      hide P.Inv;
      P.UploadAssetKeepsInv(Model(), ownerId, purpose, hasFile, mime, size, id, up, now);
      if !hasFile {
        return BadRequest;
      }
      var policy := PolicyOf(purpose);
      if mime !in policy.mimeTypes {
        return BadRequest;
      }
      if size > policy.maxBytes {
        return BadRequest;
      }
      var key := Key(Some(up.assetId), up.publicId, "0");
      if id in rows || up.publicId in byPublicId || key in byKey {
        return ConstraintViolation;
      }
      rows := rows[id := Row(ownerId, purpose, up.publicId, Ready, Some(up.bytes), Some(key), now)];
      byKey := byKey[key := id];
      byPublicId := byPublicId[up.publicId := id];
      return Ok;
    }

    method Confirm(id: Id, requesterId: Id, assetId: Option<string>, version: string, bytes: Option<int>)
      returns (reply: Reply)
      requires Valid()
      modifies this
      ensures (Model(), reply) == ConfirmUpload(old(Model()), id, requesterId, assetId, version, bytes)
      ensures Valid()
      ensures reply == Ok ==> id in rows && rows[id].status == Ready
    {
      hide P.Inv;
      P.ConfirmKeepsInv(Model(), id, requesterId, assetId, version, bytes);
      if id !in rows {
        return NotFound;
      }
      var media := rows[id];
      if media.ownerId != requesterId {
        return Forbidden;
      }
      if media.status == Ready {
        return Ok;
      }
      if media.status != Pending {
        return Forbidden;
      }
      if media.purpose == ListingVideo {
        return BadRequest;
      }
      if bytes.Some? && bytes.value > PolicyOf(media.purpose).maxBytes {
        return BadRequest;
      }
      var key := Key(assetId, media.publicId, version);
      if key in byKey && byKey[key] != id {
        return Existing(byKey[key]);
      }
      SetReady(id, bytes, key);
      return Ok;
    }

    method Delete(id: Id, requesterId: Id, admin: bool) returns (reply: Reply)
      requires Valid()
      modifies this
      ensures (Model(), reply) == DeleteMedia(old(Model()), id, requesterId, admin)
      ensures Valid()
      ensures reply == Ok ==> id in rows && (rows[id].status == Deleting || rows[id].status == Deleted)
    {
      hide P.Inv;
      P.DeleteKeepsInv(Model(), id, requesterId, admin);
      if id !in rows {
        return NotFound;
      }
      if !admin && rows[id].ownerId != requesterId {
        return Forbidden;
      }
      if rows[id].status == Deleted || rows[id].status == Deleting {
        return Ok;
      }
      SetRowStatus(id, Deleting);
      deletionJobs := deletionJobs + {id};
      return Ok;
    }

    method CancelPendingUpload(id: Id, ownerId: Id) returns (reply: Reply)
      requires Valid()
      modifies this
      ensures (Model(), reply) == CancelPending(old(Model()), id, ownerId)
      ensures Valid()
    {
      hide P.Inv;
      P.DeleteKeepsInv(Model(), id, ownerId, false);
      if id !in rows {
        return NotFound;
      }
      if rows[id].ownerId != ownerId {
        return Forbidden;
      }
      if rows[id].status != Pending {
        return Ok;
      }
      reply := Delete(id, ownerId, false);
    }

    // -------------------------------------------------------------------------
    // Workers
    // -------------------------------------------------------------------------

    method HandleUploadComplete(n: Notification, answer: Deletion) returns (outcome: Outcome)
      requires n.UploadNotice?
      requires Valid()
      modifies this
      ensures (Model(), outcome) == ProcessUpload(old(Model()), n, answer)
      ensures Valid()
    {
      hide P.Inv;
      P.UploadKeepsInv(Model(), n, answer);
      if n.publicId == "" {
        return Handled;
      }
      var key := Key(n.assetId, n.publicId, n.version);
      if key in byKey {
        return Handled;
      }
      var found := FindByPublicId(n.publicId);
      if found.None? {
        return Handled;
      }
      var media := rows[found.value];
      if media.status != Pending {
        return Handled;
      }
      if n.bytes.None? || n.bytes.value > PolicyOf(media.purpose).maxBytes {
        if answer == Refused {
          return Thrown;
        }
        SetRowStatus(found.value, Failed);
        return Handled;
      }
      SetReady(found.value, n.bytes, key);
      return Handled;
    }

    method OverwriteStatus(publicId: string, status: Status)
      requires Valid() && (status == Failed || status == Deleted)
      modifies this`rows
      ensures Model() == Overwrite(old(Model()), publicId, status)
      ensures Valid()
    {
      hide P.Inv;
      P.OverwriteKeepsInv(Model(), publicId, status);
      if publicId == "" {
        return;
      }
      var found := FindByPublicId(publicId);
      if found.None? {
        return;
      }
      SetRowStatus(found.value, status);
    }

    /** A notice is on record before it is looked at; a handled upload notice is
        absorbed, so it can be delivered again at any later time without effect. */
    method ProcessNotification(n: Notification, answer: Deletion) returns (outcome: Outcome)
      requires Valid()
      modifies this
      ensures (Model(), outcome) == Process(old(Model()), n, answer)
      ensures Valid()
      ensures n.UploadNotice? && outcome == Handled ==> P.Absorbed(Model(), n)
    {
      hide P.Inv, P.Absorbed, ProcessUpload, Overwrite;
      P.ProcessKeepsInv(Model(), n, answer);
      if n.UploadNotice? && Process(Model(), n, answer).1 == Handled {
        P.HandlingAbsorbs(Model(), n, answer);
      }
      outcome := Handled;
      match n {
        case UploadNotice(publicId, _, _, _) =>
          Note(publicId);
          outcome := HandleUploadComplete(n, answer);
        case ErrorNotice(publicId) =>
          Note(publicId);
          OverwriteStatus(publicId, Failed);
        case DeleteNotice(publicId) =>
          Note(publicId);
          OverwriteStatus(publicId, Deleted);
        case OtherNotice =>
      }
    }

    ghost method Note(publicId: string)
      requires Valid()
      modifies this`heard
      ensures Model() == Hear(old(Model()), publicId)
      ensures Valid()
    {
      P.HearKeepsInv(Model(), publicId);
      hide P.Inv;
      if publicId != "" {
        heard := heard + {publicId};
      }
    }

    method ProcessDeletion(id: Id, answer: Deletion) returns (outcome: Outcome)
      requires id in deletionJobs && id in rows
      requires Valid()
      modifies this`rows
      ensures (Model(), outcome) == DeletionJob(old(Model()), id, answer)
      ensures Valid()
    {
      hide P.Inv;
      P.DeletionJobKeepsInv(Model(), id, answer);
      if answer == Refused {
        return Thrown;
      }
      SetRowStatus(id, Deleted);
      return Handled;
    }

    /** The oldest row of a set, by a scan. */
    method Oldest(ids: set<Id>) returns (oldest: Id)
      requires ids != {} && forall i :: i in ids ==> i in rows
      ensures oldest in ids && forall i :: i in ids ==> rows[oldest].createdAt <= rows[i].createdAt
    {
      oldest :| oldest in ids;
      var rest := ids - {oldest};
      while rest != {}
        invariant rest <= ids && oldest in ids
        invariant forall i :: i in ids - rest ==> rows[oldest].createdAt <= rows[i].createdAt
        decreases |rest|
      {
        var i :| i in rest;
        if rows[i].createdAt < rows[oldest].createdAt {
          oldest := i;
        }
        rest := rest - {i};
      }
    }

    /** The query of the cleanup: the oldest stale rows, up to the limit. */
    method OldestStale(now: int) returns (batch: set<Id>)
      ensures StaleAnswer(rows, now, batch)
    {
      var rest := set i | i in rows && Stale(rows[i], now);
      batch := {};
      while |batch| < STALE_LIMIT && rest != {}
        invariant |batch| <= STALE_LIMIT && batch !! rest
        invariant forall i :: i in batch || i in rest <==> i in rows && Stale(rows[i], now)
        invariant forall i, j :: i in rest && j in batch ==> rows[j].createdAt <= rows[i].createdAt
        decreases |rest|
      {
        var oldest := Oldest(rest);
        rest, batch := rest - {oldest}, batch + {oldest};
      }
    }

    method SelectStale(now: int) returns (batch: set<Id>)
      requires Valid()
      modifies this`staleBatches
      ensures StaleAnswer(rows, now, batch)
      ensures Model() == FindStale(old(Model()), now, batch)
      ensures Valid()
    {
      hide P.Inv, StaleAnswer, FindStale;
      batch := OldestStale(now);
      KeepBatch(now, batch);
    }

    /** Any answer the query may give is kept until it is marked. */
    method KeepBatch(now: int, batch: set<Id>)
      requires Valid() && StaleAnswer(rows, now, batch)
      modifies this`staleBatches
      ensures Model() == FindStale(old(Model()), now, batch)
      ensures Valid()
    {
      hide P.Inv, StaleAnswer;
      P.QueriesKeepInv(Model(), now, batch);
      staleBatches := staleBatches + multiset{batch};
    }

    method CancelStale(batch: set<Id>)
      requires batch in staleBatches
      requires Valid()
      modifies this`rows, this`staleBatches
      ensures Model() == MarkStale(old(Model()), batch)
      ensures Valid()
    {
      hide P.Inv;
      P.MarkStaleKeepsInv(Model(), batch);
      rows := map i | i in rows :: if i in batch then rows[i].(status := Failed) else rows[i];
      staleBatches := staleBatches - multiset{batch};
    }

    /** The query for deletions in progress, in some order, up to the limit. */
    method FindDeleting() returns (deleting: seq<Id>)
      ensures DeletingAnswer(rows, Members(deleting))
    {
      var rest := set i | i in rows && rows[i].status == Deleting;
      var found: set<Id> := {};
      while |found| < DELETING_LIMIT && rest != {}
        invariant |found| <= DELETING_LIMIT
        invariant forall i :: i in found || i in rest <==> i in rows && rows[i].status == Deleting
        decreases |rest|
      {
        var i :| i in rest;
        found, rest := found + {i}, rest - {i};
      }
      deleting := Listed(found);
    }

    /** Second half of a cleanup. */
    method RequeueFound() returns (deleting: seq<Id>)
      requires Valid()
      modifies this`deletionJobs
      ensures DeletingAnswer(rows, Members(deleting))
      ensures Model() == Requeue(old(Model()), Members(deleting))
      ensures Valid()
    {
      hide P.Inv, DeletingAnswer, Requeue;
      deleting := FindDeleting();
      RequeueDeletions(deleting);
    }

    /** One job for each row of an answer of the query. */
    method RequeueDeletions(deleting: seq<Id>)
      requires Valid() && DeletingAnswer(rows, Members(deleting))
      modifies this`deletionJobs
      ensures Model() == Requeue(old(Model()), Members(deleting))
      ensures Valid()
    {
      hide P.Inv, DeletingAnswer;
      P.QueriesKeepInv(Model(), 0, Members(deleting));
      QueueAll(deleting);
    }

    method QueueAll(ids: seq<Id>)
      modifies this`deletionJobs
      ensures deletionJobs == old(deletionJobs) + Members(ids)
    {
      for k := 0 to |ids|
        invariant deletionJobs == old(deletionJobs) + Members(ids[..k])
      {
        assert ids[..k + 1] == ids[..k] + [ids[k]];
        deletionJobs := deletionJobs + {ids[k]};
      }
      assert ids[..|ids|] == ids;
    }

    // -------------------------------------------------------------------------
    // Runs
    // -------------------------------------------------------------------------

    method Listed(ids: set<Id>) returns (list: seq<Id>)
      ensures Members(list) == ids
    {
      list := [];
      var rest := ids;
      while rest != {}
        invariant rest <= ids && Members(list) == ids - rest
        decreases |rest|
      {
        var i :| i in rest;
        assert Members(list + [i]) == Members(list) + {i};
        list, rest := list + [i], rest - {i};
      }
    }

    method ServeRequest(e: Event)
      requires Valid()
      requires e.ERequestUpload? || e.EUploadAsset? || e.EConfirmUpload? || e.ECancelPending? || e.EDeleteMedia?
      requires e.ERequestUpload? ==> e.publicId !in heard
      modifies this
      ensures Model() == Step(old(Model()), e)
      ensures Valid()
    {
      hide P.Inv, RequestUpload, UploadAsset, ConfirmUpload, CancelPending, DeleteMedia, PendingOf;
      var reply;
      match e {
        case ERequestUpload(o, p, mime, size, id, publicId, now) =>
          reply := RequestUploadSignature(o, p, mime, size, id, publicId, now);
        case EUploadAsset(o, p, hasFile, mime, size, id, up, now) =>
          reply := UploadDirectly(o, p, hasFile, mime, size, id, up, now);
        case EConfirmUpload(id, r, assetId, version, bytes) => reply := Confirm(id, r, assetId, version, bytes);
        case ECancelPending(id, o) => reply := CancelPendingUpload(id, o);
        case EDeleteMedia(id, r, admin) => reply := Delete(id, r, admin);
      }
    }

    /** A job that is not queued and a batch that was not selected cannot be served. */
    method Serve(e: Event)
      requires Valid()
      requires e.ERequestUpload? ==> e.publicId !in heard
      modifies this
      ensures Model() == Step(old(Model()), e)
      ensures Valid()
    {
      hide P.Inv, RequestUpload, UploadAsset, ConfirmUpload, CancelPending, DeleteMedia, Process, StaleAnswer,
        DeletingAnswer, P.Absorbed, FailAll, SetStatus;
      match e {
        case ENotice(n, answer) => var _ := ProcessNotification(n, answer);
        case EDeletionJob(id, answer) =>
          if id in deletionJobs && id in rows {
            var _ := ProcessDeletion(id, answer);
          }
        case EFindStale(now, batch) =>
          if StaleAnswer(rows, now, batch) {
            KeepBatch(now, batch);
          }
        case EMarkStale(batch) =>
          if batch in staleBatches {
            CancelStale(batch);
          }
        case ERequeue(batch) =>
          if DeletingAnswer(rows, batch) {
            var list := Listed(batch);
            RequeueDeletions(list);
          }
        case ERequestUpload(_, _, _, _, _, _, _) => ServeRequest(e);
        case EUploadAsset(_, _, _, _, _, _, _, _) => ServeRequest(e);
        case EConfirmUpload(_, _, _, _, _) => ServeRequest(e);
        case ECancelPending(_, _) => ServeRequest(e);
        case EDeleteMedia(_, _, _) => ServeRequest(e);
      }
    }

    /** The public id of each request is new when the request is served. */
    method ServeAll(events: seq<Event>)
      requires Valid()
      requires forall k :: 0 <= k < |events| && events[k].ERequestUpload? ==>
                 events[k].publicId !in Run(Model(), events[..k]).heard
      modifies this
      ensures Model() == Run(old(Model()), events)
      ensures Valid()
    {
      hide P.Inv, Step;
      for k := 0 to |events|
        invariant Valid()
        invariant Model() == Run(old(Model()), events[..k])
      {
        assert events[..k + 1][..k] == events[..k];
        Serve(events[k]);
      }
      assert events[..|events|] == events;
    }
  }
}
