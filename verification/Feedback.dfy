/** Feedback reports: the effect of each store transaction on the report and the cleanup
    tables. `Db` is the state one transaction reads and writes under the store's lock;
    every function says what that transaction does, or why it is rolled back. */
module Feedback {
  import opened Common
  import M = Manifest

  const LEASE_TIME: int := 5 * MINUTE
  const COMPENSATION_TIME: int := 15 * MINUTE
  const TOKEN_TIME: int := 30 * MINUTE
  const UPLOAD_WINDOW: int := 7 * DAY
  const READY_WINDOW: int := 30 * DAY
  const TOMBSTONE_TIME: int := 30 * DAY
  const MAX_UPLOADS: nat := 2

  type ReportId = string
  type ArtifactId = string
  type Lease = string

  // Keys are built from a hash of report and artifact, and the lease; distinct triples
  // give distinct keys.
  datatype Key = Key(report: ReportId, artifact: ArtifactId, lease: Lease)

  datatype Phase = Declared | Uploading | Received

  datatype Slot = Slot(art: M.Artifact, phase: Phase, lease: Option<Lease>, leaseEnds: Time, key: Option<Key>)

  datatype UploadState = Open | Ready | Expired

  datatype Status = Unresolved | Investigating | Resolved

  datatype Operation = Investigate | Resolve | Reopen

  datatype OperationInput = OperationInput(
    expected: int, idempotencyKey: string, publicSummary: string, requestHash: string, wellFormed: bool)

  datatype Event = Event(
    operation: Operation, before: Status, after: Status, versionBefore: int, versionAfter: int,
    user: string, idempotencyKey: string, requestHash: string, at: Time)

  // Tokens are kept as hashes; a token is known by its hash.
  datatype Report = Report(
    client: string, requestHash: string, manifestHash: string, complete: bool,
    uploadToken: Option<string>, uploadTokenEnds: Time, recoveryToken: Option<string>, recoveryEnds: Time,
    state: UploadState, quarantined: bool, submittedAt: Option<Time>, expiresAt: Time, tombstoneAt: Option<Time>,
    slots: seq<Slot>, reserved: nat,
    status: Status, version: int, assignedTo: string, resolvedAt: Option<Time>, resolvedBy: string,
    publicSummary: string,
    events: seq<Event>)

  datatype Reason = Compensation | ReportExpired

  datatype Task = Task(report: ReportId, reason: Reason, attempts: nat, next: Time)

  datatype Db = Db(reports: map<ReportId, Report>, tasks: map<Key, Task>)

  datatype Failure =
    | InvalidManifest | QuotaExceeded | FeedbackExpired | CreateConflict | CapacityExceeded | AdmissionDenied
    | InvalidCredential | UploadConflict | NotFound | ArtifactMismatch | CleanupPending | UploadInProgress
    | StorageUnavailable | ManifestMismatch | PartialConsentRequired | ArtifactsMissing
    | InvalidOperation | MaterialsUnavailable | IdempotencyConflict | VersionConflict | StateConflict

  datatype Outcome<+T> = Done(db: Db, value: T) | RolledBack(why: Failure)

  // ---- Credentials ----

  predicate Live(r: Report, now: Time) {
    now < r.expiresAt && r.state != Expired
  }

  predicate UploadCredential(r: Report, raw: string, now: Time) {
    now < r.uploadTokenEnds && r.uploadToken == Some(raw)
  }

  predicate RecoveryCredential(r: Report, raw: string, now: Time) {
    now < r.recoveryEnds && r.recoveryToken == Some(raw)
  }

  // The order of the checks of every call that presents a credential.
  function Refusal(credential: bool, r: Report, now: Time): Option<Failure> {
    if !credential then Some(InvalidCredential)
    else if !Live(r, now) then Some(FeedbackExpired)
    else None
  }

  // ---- Creating and recovering ----

  datatype CreateInput = CreateInput(
    client: string, recoveryToken: string, requestHash: string, manifestHash: string,
    suspicious: bool, manifest: M.Manifest)

  datatype Created = Resumed(id: ReportId) | Fresh(id: ReportId)

  function Reserved(reports: map<ReportId, Report>): map<ReportId, nat> {
    map id | id in reports :: reports[id].reserved
  }

  function WithUploadToken(r: Report, token: string, now: Time): Report {
    r.(uploadToken := Some(token), uploadTokenEnds := now + TOKEN_TIME)
  }

  function NewReport(input: CreateInput, total: nat, now: Time): Report {
    Report(input.client, input.requestHash, input.manifestHash, input.manifest.complete,
           None, now, Some(input.recoveryToken), now + UPLOAD_WINDOW,
           Open, input.suspicious, None, now + UPLOAD_WINDOW, None,
           seq(|input.manifest.artifacts|, i requires 0 <= i < |input.manifest.artifacts| =>
             Slot(input.manifest.artifacts[i], Declared, None, now, None)),
           total, Unresolved, 1, "", None, "", "", [])
  }

  // `existing` is the report already filed under the client's id, if any. `storageOk` is
  // the answer of the storage probe; `denied` is what the deployment credential and the
  // rate limiter say about a new report.
  ghost function Create(db: Db, now: Time, capacity: nat, input: CreateInput, storageOk: bool,
                        existing: Option<ReportId>, denied: bool, id: ReportId, token: string): Outcome<Created>
    requires existing.Some? ==> existing.value in db.reports
  {
    match M.Verdict(input.manifest)
    case Err(why) => RolledBack(if why == M.InvalidManifest then InvalidManifest else QuotaExceeded)
    case Ok(total) =>
      if !storageOk then RolledBack(StorageUnavailable)
      else if existing.Some? then
        var prior := existing.value;
        var r := db.reports[prior];
        if r.state == Expired then RolledBack(FeedbackExpired)
        else if r.recoveryToken != Some(input.recoveryToken) || r.requestHash != input.requestHash
          then RolledBack(CreateConflict)
        else
          var refusal := Refusal(RecoveryCredential(r, input.recoveryToken, now), r, now);
          if refusal.Some? then RolledBack(refusal.value)
          else if r.submittedAt.Some? then Done(db, Resumed(prior))
          else Done(db.(reports := db.reports[prior := WithUploadToken(r, token, now)]), Resumed(prior))
      else if denied then RolledBack(AdmissionDenied)
      else if total > capacity - Total(Reserved(db.reports)) then RolledBack(CapacityExceeded)
      else Done(db.(reports := db.reports[id := WithUploadToken(NewReport(input, total, now), token, now)]), Fresh(id))
  }

  function Recover(db: Db, now: Time, id: ReportId, raw: string, token: string): Outcome<()> {
    if id !in db.reports then RolledBack(InvalidCredential)
    else
      var r := db.reports[id];
      var refusal := Refusal(RecoveryCredential(r, raw, now), r, now);
      if refusal.Some? then RolledBack(refusal.value)
      else if r.submittedAt.Some? then Done(db, ())
      else if r.state != Open then RolledBack(UploadConflict)
      else Done(db.(reports := db.reports[id := WithUploadToken(r, token, now)]), ())
  }

  // ---- Uploading one artifact ----

  datatype UploadRequest = UploadRequest(
    report: ReportId, artifact: ArtifactId, token: string, contentType: string, digest: string, size: int)

  datatype Begun = AlreadyReceived | Started(art: M.Artifact)

  predicate LeaseActive(s: Slot, now: Time) {
    s.phase == Uploading && now < s.leaseEnds
  }

  function ActiveLeases(slots: seq<Slot>, now: Time): nat {
    if slots == [] then 0
    else ActiveLeases(slots[..|slots| - 1], now) + if LeaseActive(slots[|slots| - 1], now) then 1 else 0
  }

  // The position of the last slot for an artifact, or -1.
  function SlotOf(slots: seq<Slot>, aid: ArtifactId): (i: int)
    ensures -1 <= i < |slots| && (i >= 0 ==> slots[i].art.id == aid)
  {
    if slots == [] then -1
    else if slots[|slots| - 1].art.id == aid then |slots| - 1
    else SlotOf(slots[..|slots| - 1], aid)
  }

  predicate PendingObject(tasks: map<Key, Task>, report: ReportId, aid: ArtifactId) {
    exists k :: k in tasks && k.report == report && k.artifact == aid
  }

  predicate PendingCleanup(tasks: map<Key, Task>, report: ReportId) {
    exists k :: k in tasks && tasks[k].report == report
  }

  function BeginUpload(db: Db, now: Time, q: UploadRequest, lease: Lease): Outcome<Begun> {
    if q.report !in db.reports then RolledBack(InvalidCredential)
    else
      var r := db.reports[q.report];
      var refusal := Refusal(UploadCredential(r, q.token, now), r, now);
      var i := SlotOf(r.slots, q.artifact);
      if refusal.Some? then RolledBack(refusal.value)
      else if r.state != Open || r.submittedAt.Some? then RolledBack(UploadConflict)
      else if i < 0 then RolledBack(NotFound)
      else
        var s := r.slots[i];
        if q.size != s.art.size || q.contentType != s.art.contentType || q.digest != s.art.digest then
          RolledBack(ArtifactMismatch)
        else if s.phase == Received then Done(db, AlreadyReceived)
        else if PendingObject(db.tasks, q.report, q.artifact) then RolledBack(CleanupPending)
        else if LeaseActive(s, now) || ActiveLeases(r.slots, now) >= MAX_UPLOADS then RolledBack(UploadInProgress)
        else
          var s' := s.(phase := Uploading, lease := Some(lease), leaseEnds := now + LEASE_TIME);
          Done(Db(db.reports[q.report := r.(slots := r.slots[i := s'])],
                  db.tasks[Key(q.report, q.artifact, lease) :=
                      Task(q.report, Compensation, 0, now + COMPENSATION_TIME)]),
               Started(s.art))
  }

  predicate Holds(s: Slot, key: Key) {
    s.art.id == key.artifact && s.lease == Some(key.lease)
  }

  // The position of the first slot that the upload to `key` still holds, or -1.
  function HeldSlot(slots: seq<Slot>, key: Key): (i: int)
    ensures -1 <= i < |slots| && (i >= 0 ==> Holds(slots[i], key))
  {
    if slots == [] then -1
    else if Holds(slots[0], key) then 0
    else
      var i := HeldSlot(slots[1..], key);
      if i < 0 then -1 else i + 1
  }

  function Released(slots: seq<Slot>, key: Key): seq<Slot> {
    seq(|slots|, i requires 0 <= i < |slots| =>
      if Holds(slots[i], key) then slots[i].(phase := Declared, lease := None) else slots[i])
  }

  // After a failed upload; `deleted` says whether its object is known to be gone.
  function AbortUpload(db: Db, key: Key, deleted: bool): Outcome<()> {
    if key.report !in db.reports then RolledBack(NotFound)
    else
      var r := db.reports[key.report];
      Done(Db(db.reports[key.report := r.(slots := Released(r.slots, key))],
              if deleted then db.tasks - {key} else db.tasks), ())
  }

  function CommitUpload(db: Db, now: Time, key: Key, quarantined: bool): Outcome<()> {
    if key.report !in db.reports then RolledBack(NotFound)
    else
      var r := db.reports[key.report];
      var i := HeldSlot(r.slots, key);
      if !Live(r, now) then RolledBack(FeedbackExpired)
      else if r.state != Open || i < 0 then RolledBack(UploadConflict)
      else
        var s := r.slots[i].(phase := Received, key := Some(key), lease := None);
        Done(Db(db.reports[key.report := r.(slots := r.slots[i := s], quarantined := r.quarantined || quarantined)],
                db.tasks - {key}), ())
  }

  // ---- Submitting ----

  predicate AllReceived(slots: seq<Slot>) {
    forall s :: s in slots ==> s.phase == Received
  }

  function Submit(db: Db, now: Time, id: ReportId, raw: string, manifestHash: string, partialOk: bool): Outcome<()> {
    if id !in db.reports then RolledBack(InvalidCredential)
    else
      var r := db.reports[id];
      var refusal := Refusal(UploadCredential(r, raw, now), r, now);
      if refusal.Some? then RolledBack(refusal.value)
      else if manifestHash != r.manifestHash then RolledBack(ManifestMismatch)
      else if !r.complete && !partialOk then RolledBack(PartialConsentRequired)
      else if r.submittedAt.Some? then Done(db, ())
      else if r.state != Open then RolledBack(UploadConflict)
      else if !AllReceived(r.slots) then RolledBack(ArtifactsMissing)
      else
        var r' := r.(submittedAt := Some(now), expiresAt := now + READY_WINDOW, state := Ready);
        Done(db.(reports := db.reports[id := r']), ())
  }

  // ---- Operating on a submitted report ----

  datatype EventResult = EventResult(status: Status, version: int, at: Time, user: string)

  function ResultOf(e: Event): EventResult {
    EventResult(e.after, e.versionAfter, e.at, e.user)
  }

  predicate SameRequest(e: Event, user: string, op: Operation, input: OperationInput) {
    e.user == user && e.operation == op && e.idempotencyKey == input.idempotencyKey
  }

  // The first event for a (user, operation, idempotency key), if any.
  function Earlier(events: seq<Event>, user: string, op: Operation, input: OperationInput): Option<Event> {
    if events == [] then None
    else if SameRequest(events[0], user, op, input) then Some(events[0])
    else Earlier(events[1..], user, op, input)
  }

  predicate Allowed(op: Operation, before: Status) {
    match op
    case Investigate => before == Unresolved
    case Resolve => before != Resolved
    case Reopen => before == Resolved
  }

  function Operated(r: Report, now: Time, user: string, op: Operation, input: OperationInput): Report {
    match op
    case Investigate => r.(status := Investigating, assignedTo := user)
    case Resolve =>
      r.(status := Resolved, resolvedAt := Some(now), resolvedBy := user, publicSummary := input.publicSummary)
    case Reopen => r.(status := Unresolved, resolvedAt := None, resolvedBy := "", assignedTo := "", publicSummary := "")
  }

  function Operate(
      db: Db, now: Time, id: ReportId, user: string, op: Operation, input: OperationInput): Outcome<EventResult> {
    if !input.wellFormed || input.expected < 1 then RolledBack(InvalidOperation)
    else if id !in db.reports then RolledBack(NotFound)
    else
      var r := db.reports[id];
      var earlier := Earlier(r.events, user, op, input);
      if !Live(r, now) then RolledBack(FeedbackExpired)
      else if r.state != Ready || r.quarantined then RolledBack(MaterialsUnavailable)
      else if earlier.Some? then
        if earlier.value.requestHash != input.requestHash then RolledBack(IdempotencyConflict)
        else Done(db, ResultOf(earlier.value))
      else if r.version != input.expected then RolledBack(VersionConflict)
      else if !Allowed(op, r.status) then RolledBack(StateConflict)
      else
        var r' := Operated(r, now, user, op, input);
        var e := Event(op, r.status, r'.status, r.version, r.version + 1, user, input.idempotencyKey,
            input.requestHash, now);
        Done(db.(reports := db.reports[id := r'.(version := r.version + 1, events := r.events + [e])]), ResultOf(e))
  }

  // ---- Cleanup ----

  predicate IsExpired(r: Report, now: Time) {
    || (r.expiresAt <= now && r.state != Expired)
    || (r.reserved == 0 && r.tombstoneAt.Some? && r.tombstoneAt.value <= now)
  }

  // A task for every stored artifact, unless the key already has one.
  function AddTasks(tasks: map<Key, Task>, id: ReportId, slots: seq<Slot>, now: Time): map<Key, Task> {
    if slots == [] then tasks
    else
      var tasks := AddTasks(tasks, id, slots[..|slots| - 1], now);
      match slots[|slots| - 1].key
      case None => tasks
      case Some(k) => if k in tasks then tasks else tasks[k := Task(id, ReportExpired, 0, now)]
  }

  function Emptied(r: Report, now: Time): Report {
    r.(state := Expired, recoveryToken := None, uploadToken := None, slots := [], events := [],
       assignedTo := "", resolvedBy := "", publicSummary := "", tombstoneAt := Some(now + TOMBSTONE_TIME))
  }

  function ExpireOne(db: Db, id: ReportId, now: Time): Db
    requires id in db.reports
  {
    var r := db.reports[id];
    if r.state == Expired then db.(reports := db.reports - {id})
    else if now < r.expiresAt then db
    else
      var tasks := AddTasks(db.tasks, id, r.slots, now);
      var r' := if PendingCleanup(tasks, id) then Emptied(r, now) else Emptied(r, now).(reserved := 0);
      Db(db.reports[id := r'], tasks)
  }

  // The expiry transaction handles the reports its query returned, one after another.
  function ExpireAll(db: Db, ids: seq<ReportId>, now: Time): Db {
    if ids == [] then db
    else
      var db := ExpireAll(db, ids[..|ids| - 1], now);
      var id := ids[|ids| - 1];
      if id in db.reports then ExpireOne(db, id, now) else db
  }

  // After one attempt to delete the object of a task.
  function FinishCleanup(db: Db, now: Time, key: Key, report: ReportId, deleted: bool): Outcome<()> {
    if !deleted then
      if key in db.tasks then
        var t := db.tasks[key];
        Done(db.(tasks := db.tasks[key := t.(attempts := t.attempts + 1, next := now + MINUTE)]), ())
      else Done(db, ())
    else
      var tasks := db.tasks - {key};
      if PendingCleanup(tasks, report) then Done(db.(tasks := tasks), ())
      else if report !in db.reports then RolledBack(NotFound)
      else if db.reports[report].state != Expired then Done(db.(tasks := tasks), ())
      else Done(Db(db.reports[report := db.reports[report].(reserved := 0)], tasks), ())
  }
}
