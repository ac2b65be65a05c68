/**
  Uploaded media: upload requests, confirmations by the client, notifications from
  the storage service, deletions, and the periodic cleanup.

  Each operation is a function on the media tables. Notifications and jobs may be
  delivered late, repeatedly and in any order. What the storage service answers,
  and which rows a limited query returns, are parameters.
 */
module Media {
  import opened Wrappers

  type Id = nat

  datatype Purpose =
    | Avatar | CoverPhoto | ListingPhoto | ListingVideo | ProviderLogo
    | StudentId | ProofOfStudentship | ProofOfLicense | ContractDocument

  datatype Policy = Policy(mimeTypes: set<string>, maxBytes: int, maxPending: nat)

  const MB := 1024 * 1024
  const PHOTO: set<string> := {"image/jpeg", "image/png", "image/webp"}
  const PHOTO_OR_GIF: set<string> := {"image/jpeg", "image/png", "image/webp", "image/gif"}
  const PHOTO_OR_SVG: set<string> := {"image/jpeg", "image/png", "image/webp", "image/svg+xml"}
  const PHOTO_OR_PDF: set<string> := {"image/jpeg", "image/png", "image/webp", "application/pdf"}
  const VIDEO: set<string> := {"video/mp4", "video/quicktime", "video/x-msvideo", "video/webm"}
  const PDF: set<string> := {"application/pdf"}

  function PolicyOf(p: Purpose): Policy {
    match p
    case Avatar => Policy(PHOTO_OR_GIF, 5 * MB, 2)
    case CoverPhoto => Policy(PHOTO, 10 * MB, 2)
    case ListingPhoto => Policy(PHOTO, 15 * MB, 20)
    case ListingVideo => Policy(VIDEO, 100 * MB, 3)
    case ProviderLogo => Policy(PHOTO_OR_SVG, 5 * MB, 2)
    case StudentId => Policy(PHOTO_OR_PDF, 10 * MB, 3)
    case ProofOfStudentship => Policy(PHOTO_OR_PDF, 10 * MB, 3)
    case ProofOfLicense => Policy(PHOTO_OR_PDF, 10 * MB, 3)
    case ContractDocument => Policy(PDF, 25 * MB, 5)
  }

  datatype Status = Pending | Ready | Failed | Deleting | Deleted

  datatype Row = Row(ownerId: Id, purpose: Purpose, publicId: string, status: Status, bytes: Option<int>,
                     key: Option<string>, createdAt: int)

  /** `byKey` and `byPublicId` are the unique indexes. Deletion jobs may be
      delivered any number of times, so they are never removed. `staleBatches`
      holds the batches a cleanup has selected and not yet marked; `heard`, kept for
      the proofs alone, the public ids that notices have named. */
  datatype Store = Store(
    rows: map<Id, Row>, byKey: map<string, Id>, byPublicId: map<string, Id>,
    deletionJobs: set<Id>, staleBatches: multiset<set<Id>>, heard: set<string>)

  const NO_MEDIA := Store(map[], map[], map[], {}, multiset{}, {})

  /** `Existing` answers with another row than the one asked about. */
  datatype Reply = Ok | Existing(id: Id) | NotFound | Forbidden | BadRequest | TooManyRequests | ConstraintViolation

  // ---------------------------------------------------------------------------
  // The repository
  // ---------------------------------------------------------------------------

  /** The deduplication key; `version` is its decimal text, "0" when absent. */
  function Key(assetId: Option<string>, publicId: string, version: string): string {
    (if assetId.Some? then assetId.value else publicId) + ":" + version
  }

  function SetStatus(rows: map<Id, Row>, id: Id, status: Status): map<Id, Row>
    requires id in rows
  {
    rows[id := rows[id].(status := status)]
  }

  function Without(byKey: map<string, Id>, key: Option<string>): map<string, Id> {
    if key.Some? then byKey - {key.value} else byKey
  }

  /** A size left out of the update keeps the recorded one. */
  function MarkReady(s: Store, id: Id, bytes: Option<int>, key: string): Store
    requires id in s.rows
  {
    var row := s.rows[id];
    s.(rows := s.rows[id := row.(status := Ready, bytes := if bytes.Some? then bytes else row.bytes, key := Some(key))],
       byKey := Without(s.byKey, row.key)[key := id])
  }

  function PendingOf(rows: map<Id, Row>, ownerId: Id, purpose: Purpose): set<Id> {
    set i | i in rows && rows[i].ownerId == ownerId && rows[i].purpose == purpose && rows[i].status == Pending
  }

  predicate KnownRow(s: Store, publicId: string) {
    publicId in s.byPublicId && s.byPublicId[publicId] in s.rows
  }

  // ---------------------------------------------------------------------------
  // Requests
  // ---------------------------------------------------------------------------

  function RequestUpload(s: Store, ownerId: Id, purpose: Purpose, mime: string, size: int, id: Id, publicId: string,
                         now: int): (Store, Reply) {
    var policy := PolicyOf(purpose);
    if mime !in policy.mimeTypes then (s, BadRequest)
    else if size > policy.maxBytes then (s, BadRequest)
    else if |PendingOf(s.rows, ownerId, purpose)| >= policy.maxPending then (s, TooManyRequests)
    else if id in s.rows || publicId in s.byPublicId then (s, ConstraintViolation)
    else
      (s.(rows := s.rows[id := Row(ownerId, purpose, publicId, Pending, None, None, now)],
          byPublicId := s.byPublicId[publicId := id]), Ok)
  }

  /** What the storage service answers to an upload made by the server. */
  datatype Uploaded = Uploaded(publicId: string, assetId: string, bytes: int)

  function UploadAsset(s: Store, ownerId: Id, purpose: Purpose, hasFile: bool, mime: string, size: int, id: Id,
                       up: Uploaded, now: int): (Store, Reply) {
    var policy := PolicyOf(purpose);
    var key := Key(Some(up.assetId), up.publicId, "0");
    if !hasFile then (s, BadRequest)
    else if mime !in policy.mimeTypes then (s, BadRequest)
    else if size > policy.maxBytes then (s, BadRequest)
    else if id in s.rows || up.publicId in s.byPublicId || key in s.byKey then (s, ConstraintViolation)
    else
      (s.(rows := s.rows[id := Row(ownerId, purpose, up.publicId, Ready, Some(up.bytes), Some(key), now)],
          byKey := s.byKey[key := id], byPublicId := s.byPublicId[up.publicId := id]), Ok)
  }

  function ConfirmUpload(s: Store, id: Id, requesterId: Id, assetId: Option<string>, version: string,
                         bytes: Option<int>): (Store, Reply) {
    if id !in s.rows then (s, NotFound)
    else
      var row := s.rows[id];
      if row.ownerId != requesterId then (s, Forbidden)
      else if row.status == Ready then (s, Ok)
      else if row.status != Pending then (s, Forbidden)
      else if row.purpose == ListingVideo then (s, BadRequest)
      else if bytes.Some? && bytes.value > PolicyOf(row.purpose).maxBytes then (s, BadRequest)
      else
        var key := Key(assetId, row.publicId, version);
        if key in s.byKey && s.byKey[key] != id then (s, Existing(s.byKey[key]))
        else (MarkReady(s, id, bytes, key), Ok)
  }

  function DeleteMedia(s: Store, id: Id, requesterId: Id, admin: bool): (Store, Reply) {
    if id !in s.rows then (s, NotFound)
    else if !admin && s.rows[id].ownerId != requesterId then (s, Forbidden)
    else if s.rows[id].status == Deleted || s.rows[id].status == Deleting then (s, Ok)
    else (s.(rows := SetStatus(s.rows, id, Deleting), deletionJobs := s.deletionJobs + {id}), Ok)
  }

  function CancelPending(s: Store, id: Id, ownerId: Id): (Store, Reply) {
    if id !in s.rows then (s, NotFound)
    else if s.rows[id].ownerId != ownerId then (s, Forbidden)
    else if s.rows[id].status != Pending then (s, Ok)
    else DeleteMedia(s, id, ownerId, false)
  }

  // ---------------------------------------------------------------------------
  // Notifications and jobs
  // ---------------------------------------------------------------------------

  /** An empty `publicId` stands for a missing one too. Uploads and eager
      transformations are reported alike. */
  datatype Notification =
    | UploadNotice(publicId: string, assetId: Option<string>, version: string, bytes: Option<int>)
    | ErrorNotice(publicId: string)
    | DeleteNotice(publicId: string)
    | OtherNotice

  /** Removed is 'ok' or 'not found'; Refused is any other answer. */
  datatype Deletion = Removed | Refused

  /** Thrown jobs are retried by the queue. */
  datatype Outcome = Handled | Thrown

  predicate SizeAllowed(purpose: Purpose, bytes: Option<int>) {
    bytes.Some? && bytes.value <= PolicyOf(purpose).maxBytes
  }

  function ProcessUpload(s: Store, n: Notification, answer: Deletion): (Store, Outcome)
    requires n.UploadNotice?
  {
    if n.publicId == "" then (s, Handled)
    else
      var key := Key(n.assetId, n.publicId, n.version);
      if key in s.byKey then (s, Handled)
      else if !KnownRow(s, n.publicId) then (s, Handled)
      else
        var id := s.byPublicId[n.publicId];
        if s.rows[id].status != Pending then (s, Handled)
        else if !SizeAllowed(s.rows[id].purpose, n.bytes) then
          if answer == Refused then (s, Thrown) else (s.(rows := SetStatus(s.rows, id, Failed)), Handled)
        else (MarkReady(s, id, n.bytes, key), Handled)
  }

  /** Errors and deletions overwrite whatever status the row has. */
  function Overwrite(s: Store, publicId: string, status: Status): Store {
    if publicId == "" || !KnownRow(s, publicId) then s
    else s.(rows := SetStatus(s.rows, s.byPublicId[publicId], status))
  }

  function Hear(s: Store, publicId: string): Store {
    if publicId == "" then s else s.(heard := s.heard + {publicId})
  }

  function Process(s: Store, n: Notification, answer: Deletion): (Store, Outcome) {
    match n
    case UploadNotice(p, _, _, _) => ProcessUpload(Hear(s, p), n, answer)
    case ErrorNotice(p) => (Overwrite(Hear(s, p), p, Failed), Handled)
    case DeleteNotice(p) => (Overwrite(Hear(s, p), p, Deleted), Handled)
    case OtherNotice => (s, Handled)
  }

  function DeletionJob(s: Store, id: Id, answer: Deletion): (Store, Outcome) {
    if id !in s.deletionJobs || id !in s.rows then (s, Handled)
    else if answer == Refused then (s, Thrown)
    else (s.(rows := SetStatus(s.rows, id, Deleted)), Handled)
  }

  const ORPHAN_AGE_MS: int := 30 * 60 * 1000
  const STALE_LIMIT: nat := 200
  const DELETING_LIMIT: nat := 50

  /** What the query for stale uploads may answer: the oldest ones, up to a limit. */
  predicate StaleAnswer(rows: map<Id, Row>, now: int, batch: set<Id>) {
    && |batch| <= STALE_LIMIT
    && (forall i :: i in batch ==> i in rows && Stale(rows[i], now))
    && (forall i, j :: i in rows && Stale(rows[i], now) && i !in batch && j in batch ==>
        rows[j].createdAt <= rows[i].createdAt)
    && (|batch| < STALE_LIMIT ==> forall i :: i in rows && Stale(rows[i], now) ==> i in batch)
  }

  predicate Stale(row: Row, now: int) {
    row.status == Pending && row.createdAt < now - ORPHAN_AGE_MS
  }

  /** First half of the cancellation of stale uploads: the query. */
  function FindStale(s: Store, now: int, batch: set<Id>): Store {
    if !StaleAnswer(s.rows, now, batch) then s else s.(staleBatches := s.staleBatches + multiset{batch})
  }

  /** Second half: the update by id, which does not look at the status again. */
  function MarkStale(s: Store, batch: set<Id>): Store {
    if batch !in s.staleBatches then s
    else s.(rows := FailAll(s.rows, batch), staleBatches := s.staleBatches - multiset{batch})
  }

  function FailAll(rows: map<Id, Row>, batch: set<Id>): map<Id, Row> {
    map i | i in rows :: if i in batch then rows[i].(status := Failed) else rows[i]
  }

  /** What the query for deletions in progress may answer: up to a limit of them. */
  predicate DeletingAnswer(rows: map<Id, Row>, batch: set<Id>) {
    && |batch| <= DELETING_LIMIT
    && (forall i :: i in batch ==> i in rows && rows[i].status == Deleting)
    && (|batch| < DELETING_LIMIT ==> forall i :: i in rows && rows[i].status == Deleting ==> i in batch)
  }

  function Members(list: seq<Id>): set<Id> {
    set i | i in list
  }

  function Requeue(s: Store, batch: set<Id>): Store {
    if !DeletingAnswer(s.rows, batch) then s else s.(deletionJobs := s.deletionJobs + batch)
  }

  // ---------------------------------------------------------------------------
  // Runs
  // ---------------------------------------------------------------------------

  datatype Event =
    | ERequestUpload(ownerId: Id, purpose: Purpose, mime: string, size: int, id: Id, publicId: string, now: int)
    | EUploadAsset(ownerId: Id, purpose: Purpose, hasFile: bool, mime: string, size: int, id: Id, up: Uploaded,
                   now: int)
    | EConfirmUpload(id: Id, requesterId: Id, assetId: Option<string>, version: string, bytes: Option<int>)
    | ECancelPending(id: Id, ownerId: Id)
    | EDeleteMedia(id: Id, requesterId: Id, admin: bool)
    | ENotice(n: Notification, answer: Deletion)
    | EDeletionJob(id: Id, answer: Deletion)
    | EFindStale(now: int, batch: set<Id>)
    | EMarkStale(batch: set<Id>)
    | ERequeue(batch: set<Id>)

  /** A request draws a new random public id and stores its row before anyone is
      told the id, so no earlier notice can have named it. A direct upload is known
      to the storage service before its row exists, so a notice may come first. */
  function Step(s: Store, e: Event): Store {
    match e
    case ERequestUpload(o, p, mime, size, id, publicId, now) =>
      if publicId in s.heard then s else RequestUpload(s, o, p, mime, size, id, publicId, now).0
    case EUploadAsset(o, p, hasFile, mime, size, id, up, now) =>
      UploadAsset(s, o, p, hasFile, mime, size, id, up, now).0
    case EConfirmUpload(id, r, assetId, version, bytes) => ConfirmUpload(s, id, r, assetId, version, bytes).0
    case ECancelPending(id, o) => CancelPending(s, id, o).0
    case EDeleteMedia(id, r, admin) => DeleteMedia(s, id, r, admin).0
    case ENotice(n, answer) => Process(s, n, answer).0
    case EDeletionJob(id, answer) => DeletionJob(s, id, answer).0
    case EFindStale(now, batch) => FindStale(s, now, batch)
    case EMarkStale(batch) => MarkStale(s, batch)
    case ERequeue(batch) => Requeue(s, batch)
  }

  function Run(s: Store, events: seq<Event>): Store {
    if |events| == 0 then s else Step(Run(s, events[..|events| - 1]), events[|events| - 1])
  }
}
