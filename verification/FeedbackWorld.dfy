/** The feedback store together with everything that runs around its transactions: the
    object storage, uploads between their transactions, and cleanup passes between
    theirs. An event is one transaction or one step outside of them; a run is any list
    of possible events. Uploads and cleanup passes may stop for good at any point. */
module FeedbackWorld {
  import opened Common
  import opened Feedback
  import M = Manifest

  datatype Object = Object(size: nat, digest: string)

  // Where an upload stands: its lease is taken, its object is stored and checked, its
  // object is refused, or the refused object has been (tried to be) deleted.
  datatype Stage = Begun | Checked(quarantined: bool) | Broken | Undone(deleted: bool)

  datatype Upload = Upload(key: Key, art: M.Artifact, deadline: Time, stage: Stage)

  // A task that a cleanup pass has read, and how deleting its object went.
  datatype Sweep = Sweep(key: Key, report: ReportId, deleted: Option<bool>)

  // History: the bytes each report declared, the artifacts announced, the latest key of each
  // artifact, the leases ever drawn, the latest report of each client.
  datatype Log = Log(
    declared: map<ReportId, map<ArtifactId, nat>>,
    announced: map<(ReportId, ArtifactId), M.Artifact>,
    holder: map<(ReportId, ArtifactId), Key>,
    leases: set<Lease>,
    filed: map<string, ReportId>)

  // `limit` is how long after it began an upload may commit.
  datatype World = World(
    limit: Time,
    db: Db,
    objects: map<Key, Object>,
    uploads: map<Lease, Upload>,
    sweeps: map<nat, Sweep>,
    now: Time,
    capacity: nat,
    log: Log)

  datatype WorldEvent =
    | Tick(to: Time)
    | CreateCall(input: CreateInput, storageOk: bool, denied: bool, existing: Option<ReportId>, id: ReportId,
        token: string)
    | RecoverCall(id: ReportId, raw: string, token: string)
    | BeginCall(q: UploadRequest, lease: Lease)
    | PutStep(lease: Lease, stored: Option<Object>, verdict: Option<bool>)
    | UndoStep(lease: Lease, removed: bool, reported: bool)
    | AbortCall(lease: Lease)
    | CommitCall(lease: Lease)
    | CrashStep(lease: Lease)
    | SubmitCall(id: ReportId, raw: string, manifestHash: string, partialOk: bool)
    | OperateCall(id: ReportId, user: string, op: Operation, request: OperationInput)
    | ExpireCall(ids: seq<ReportId>)
    | ListStep(n: nat, key: Key)
    | DeleteStep(n: nat, removed: bool, reported: bool)
    | FinishCall(n: nat)
    | DropStep(n: nat)

  function Start(capacity: nat, limit: Time): World {
    World(limit, Db(map[], map[]), map[], map[], map[], 0, capacity, Log(map[], map[], map[], {}, map[]))
  }

  predicate Fits(o: Object, art: M.Artifact) {
    o.size == art.size && o.digest == art.digest
  }

  // Whether an event can happen.
  //  - Report ids and leases are drawn at random: they are new.
  //  - The storage never keeps more than the declared size, and reports what it kept; a
  //    verdict is only reached on an object of the declared size and digest. A deletion
  //    reported as successful has removed the object.
  //  - An upload stores its object before its compensation task falls due, and commits
  //    within its limit.
  ghost predicate Possible(w: World, e: WorldEvent) {
    match e
    case Tick(to) => w.now <= to
    case CreateCall(input, _, _, existing, id, _) =>
      && id !in w.log.declared
      && (existing.Some? ==> existing.value in w.db.reports && w.db.reports[existing.value].client == input.client)
      && (existing.None? ==> forall i :: i in w.db.reports ==> w.db.reports[i].client != input.client)
    case BeginCall(_, lease) => lease !in w.log.leases
    case PutStep(lease, stored, verdict) =>
      && lease in w.uploads && w.uploads[lease].stage == Begun
      && (stored.Some? ==> w.now < w.uploads[lease].deadline && stored.value.size <= w.uploads[lease].art.size)
      && (verdict.Some? ==> stored.Some? && Fits(stored.value, w.uploads[lease].art))
    case UndoStep(lease, removed, reported) =>
      lease in w.uploads && w.uploads[lease].stage == Broken && (reported ==> removed)
    case AbortCall(lease) => lease in w.uploads && w.uploads[lease].stage.Undone?
    case CommitCall(lease) =>
      && lease in w.uploads && w.uploads[lease].stage.Checked?
      && w.now < w.uploads[lease].deadline - COMPENSATION_TIME + w.limit
    case CrashStep(lease) => lease in w.uploads
    case ExpireCall(ids) =>
      Distinct(ids) && forall id :: id in ids ==> id in w.db.reports && IsExpired(w.db.reports[id], w.now)
    case ListStep(n, key) => n !in w.sweeps && key in w.db.tasks && w.db.tasks[key].next <= w.now
    case DeleteStep(n, removed, reported) => n in w.sweeps && w.sweeps[n].deleted.None? && (reported ==> removed)
    case FinishCall(n) => n in w.sweeps && w.sweeps[n].deleted.Some?
    case DropStep(n) => n in w.sweeps
    case _ => true
  }

  function DbAfter<T>(o: Outcome<T>, db: Db): Db {
    match o
    case Done(db', _) => db'
    case RolledBack(_) => db
  }

  ghost function AfterCreate(w: World, input: CreateInput, storageOk: bool, denied: bool, existing: Option<ReportId>,
                             id: ReportId, token: string): World
    requires existing.Some? ==> existing.value in w.db.reports
  {
    match Create(w.db, w.now, w.capacity, input, storageOk, existing, denied, id, token)
    case RolledBack(_) => w
    case Done(db, Resumed(_)) => w.(db := db)
    case Done(db, Fresh(_)) =>
      w.(db := db, log := w.log.(
        declared := w.log.declared[id := M.Sizes(input.manifest.artifacts)],
        announced := Announced(w.log.announced, id, db.reports[id].slots), filed := w.log.filed[input.client := id]))
  }

  ghost function Announced(arts: map<(ReportId, ArtifactId), M.Artifact>, id: ReportId, slots: seq<Slot>)
    : map<(ReportId, ArtifactId), M.Artifact>
  {
    if slots == [] then arts
    else
      var s := slots[|slots| - 1];
      Announced(arts, id, slots[..|slots| - 1])[(id, s.art.id) := s.art]
  }

  ghost function AfterBegin(w: World, q: UploadRequest, lease: Lease): World {
    var key := Key(q.report, q.artifact, lease);
    match BeginUpload(w.db, w.now, q, lease)
    case Done(db, Started(art)) =>
      w.(db := db, uploads := w.uploads[lease := Upload(key, art, w.now + COMPENSATION_TIME, Begun)],
         log := w.log.(holder := w.log.holder[(q.report, q.artifact) := key], leases := w.log.leases + {lease}))
    case _ => w.(log := w.log.(leases := w.log.leases + {lease}))
  }

  ghost function AtStage(w: World, lease: Lease, stage: Stage): World
    requires lease in w.uploads
  {
    w.(uploads := w.uploads[lease := w.uploads[lease].(stage := stage)])
  }

  ghost function WithoutObject(w: World, key: Key, removed: bool): World {
    if removed then w.(objects := w.objects - {key}) else w
  }

  ghost function Ended(w: World, lease: Lease): World {
    w.(uploads := w.uploads - {lease})
  }

  ghost function After(w: World, e: WorldEvent): World
    requires Possible(w, e)
  {
    match e
    case Tick(to) => w.(now := to)
    case CreateCall(input, storageOk, denied, existing, id, token) =>
      AfterCreate(w, input, storageOk, denied, existing, id, token)
    case RecoverCall(id, raw, token) => w.(db := DbAfter(Recover(w.db, w.now, id, raw, token), w.db))
    case BeginCall(q, lease) => AfterBegin(w, q, lease)
    case PutStep(lease, stored, verdict) =>
      var w' := AtStage(w, lease, if verdict.Some? then Checked(verdict.value) else Broken);
      if stored.Some? then w'.(objects := w.objects[w.uploads[lease].key := stored.value]) else w'
    case UndoStep(lease, removed, reported) =>
      AtStage(WithoutObject(w, w.uploads[lease].key, removed), lease, Undone(reported))
    case AbortCall(lease) =>
      var u := w.uploads[lease];
      Ended(w.(db := DbAfter(AbortUpload(w.db, u.key, u.stage.deleted), w.db)), lease)
    case CommitCall(lease) =>
      var u := w.uploads[lease];
      Ended(w.(db := DbAfter(CommitUpload(w.db, w.now, u.key, u.stage.quarantined), w.db)), lease)
    case CrashStep(lease) => Ended(w, lease)
    case SubmitCall(id, raw, hash, partialOk) => w.(db := DbAfter(Submit(w.db, w.now, id, raw, hash, partialOk), w.db))
    case OperateCall(id, user, op, request) => w.(db := DbAfter(Operate(w.db, w.now, id, user, op, request), w.db))
    case ExpireCall(ids) => w.(db := ExpireAll(w.db, ids, w.now))
    case ListStep(n, key) => w.(sweeps := w.sweeps[n := Sweep(key, w.db.tasks[key].report, None)])
    case DeleteStep(n, removed, reported) =>
      var w' := WithoutObject(w, w.sweeps[n].key, removed);
      w'.(sweeps := w.sweeps[n := w.sweeps[n].(deleted := Some(reported))])
    case FinishCall(n) =>
      var s := w.sweeps[n];
      w.(db := DbAfter(FinishCleanup(w.db, w.now, s.key, s.report, s.deleted.value), w.db), sweeps := w.sweeps - {n})
    case DropStep(n) => w.(sweeps := w.sweeps - {n})
  }

  ghost predicate IsRun(w: World, events: seq<WorldEvent>)
    decreases |events|
  {
    events == [] || (Possible(w, events[0]) && IsRun(After(w, events[0]), events[1..]))
  }

  ghost function Final(w: World, events: seq<WorldEvent>): World
    requires IsRun(w, events)
    decreases |events|
  {
    if events == [] then w else Final(After(w, events[0]), events[1..])
  }

  // ---- What every reachable world satisfies ----

  // The key is the storage key of an artifact of some report.
  ghost predicate Stored(reports: map<ReportId, Report>, k: Key) {
    k.report in reports && exists s :: s in reports[k.report].slots && s.key == Some(k)
  }

  ghost predicate KeyOk(w: World, k: Key) {
    && (k in w.db.tasks ==>
          && w.db.tasks[k].report == k.report && k.report in w.db.reports && w.db.reports[k.report].reserved > 0
          && k.lease in w.log.leases && !Stored(w.db.reports, k)
          && (k.report, k.artifact) in w.log.holder && w.log.holder[(k.report, k.artifact)] == k)
    && (k in w.objects ==>
          && (k in w.db.tasks || Stored(w.db.reports, k))
          && k.report in w.log.declared && k.artifact in w.log.declared[k.report]
          && w.objects[k].size <= w.log.declared[k.report][k.artifact])
  }

  ghost predicate SlotOk(w: World, id: ReportId, s: Slot) {
    && id in w.log.declared && s.art.id in w.log.declared[id] && w.log.declared[id][s.art.id] == s.art.size
    && (id, s.art.id) in w.log.announced && w.log.announced[(id, s.art.id)] == s.art
    && (s.phase == Received <==> s.key.Some?)
    && (s.phase == Uploading <==> s.lease.Some?)
    && (s.lease.Some? ==> s.lease.value in w.log.leases)
    && (s.key.Some? ==>
          var k := s.key.value;
          && k.report == id && k.artifact == s.art.id && k.lease in w.log.leases
          && k in w.objects && Fits(w.objects[k], s.art)
          && (id, s.art.id) in w.log.holder && w.log.holder[(id, s.art.id)] == k)
  }

  ghost predicate DistinctSlots(slots: seq<Slot>) {
    forall i, j :: 0 <= i < j < |slots| ==> slots[i].art.id != slots[j].art.id
  }

  function Reached(op: Operation): Status {
    match op
    case Investigate => Investigating
    case Resolve => Resolved
    case Reopen => Unresolved
  }

  ghost predicate Linked(events: seq<Event>, i: nat)
    requires i < |events|
  {
    var e := events[i];
    && e.versionBefore == i + 1 && e.versionAfter == i + 2
    && e.before == StatusAfter(events[..i])
    && Allowed(e.operation, e.before) && e.after == Reached(e.operation)
  }

  ghost function StatusAfter(events: seq<Event>): Status {
    if events == [] then Unresolved else events[|events| - 1].after
  }

  ghost predicate SameRequester(e: Event, f: Event) {
    e.user == f.user && e.operation == f.operation && e.idempotencyKey == f.idempotencyKey
  }

  ghost predicate Chain(events: seq<Event>) {
    && (forall i :: 0 <= i < |events| ==> Linked(events, i))
    && (forall i, j :: 0 <= i < j < |events| ==> !SameRequester(events[i], events[j]))
  }

  // The events of a report form one chain of versions and statuses from its creation to
  // its present state, with no request recorded twice.
  ghost predicate History(r: Report) {
    && Chain(r.events) && r.version == 1 + |r.events| && r.status == StatusAfter(r.events)
    && r.resolvedAt == (if r.status == Resolved && r.events != [] then Some(r.events[|r.events| - 1].at) else None)
  }

  ghost predicate StateOk(r: Report, declared: map<ArtifactId, nat>, now: Time) {
    && DistinctSlots(r.slots) && ActiveLeases(r.slots, now) <= MAX_UPLOADS
    && Total(declared) > 0
    && (r.state != Expired ==> r.reserved == Total(declared) && History(r))
    && (r.state == Expired ==> r.slots == [] && r.events == [] && (r.reserved == 0 || r.reserved == Total(declared)))
    && (r.state == Open ==> r.submittedAt.None?)
    && (r.state == Ready ==> r.submittedAt.Some? && AllReceived(r.slots))
    && (r.tombstoneAt.Some? ==> r.state == Expired)
  }

  ghost predicate ReportOk(w: World, id: ReportId) {
    id in w.db.reports ==>
      var r := w.db.reports[id];
      && id in w.log.declared && r.client in w.log.filed && w.log.filed[r.client] == id
      && StateOk(r, w.log.declared[id], w.now)
      && (forall s :: s in r.slots ==> SlotOk(w, id, s))
  }

  // Until its deadline an upload has its compensation task, which no cleanup pass has
  // read, and the object it has checked is there.
  ghost predicate UploadOk(w: World, l: Lease) {
    l in w.uploads ==>
      var u := w.uploads[l];
      && u.key.lease == l && l in w.log.leases && !Stored(w.db.reports, u.key)
      && u.key.report in w.log.declared && u.key.artifact in w.log.declared[u.key.report]
      && w.log.declared[u.key.report][u.key.artifact] == u.art.size
      && (u.key.report, u.key.artifact) in w.log.announced && w.log.announced[(u.key.report, u.key.artifact)] == u.art
      && (w.now < u.deadline ==> u.key in w.db.tasks && w.db.tasks[u.key].next == u.deadline)
      && (w.now < u.deadline && u.stage.Checked? ==> u.key in w.objects && Fits(w.objects[u.key], u.art))
      && (u.stage == Undone(true) ==> u.key !in w.objects)
  }

  ghost predicate SweepOk(w: World, n: nat) {
    n in w.sweeps ==>
      var s := w.sweeps[n];
      && s.report == s.key.report && s.key.lease in w.log.leases && !Stored(w.db.reports, s.key)
      && (s.key.lease in w.uploads && w.uploads[s.key.lease].key == s.key ==> w.uploads[s.key.lease].deadline <= w.now)
      && (s.deleted == Some(true) ==> s.key !in w.objects)
  }

  ghost predicate KeysOk(w: World) {
    forall k :: KeyOk(w, k)
  }

  ghost predicate ReportsOk(w: World) {
    forall id :: ReportOk(w, id)
  }

  ghost predicate AroundOk(w: World) {
    (forall l :: UploadOk(w, l)) && (forall n :: SweepOk(w, n))
  }

  ghost predicate BooksOk(w: World) {
    && (forall p :: p in w.log.announced ==> p.0 in w.log.declared)
    && Total(Reserved(w.db.reports)) <= w.capacity && w.limit <= COMPENSATION_TIME
  }

  ghost predicate Inv(w: World) {
    KeysOk(w) && ReportsOk(w) && AroundOk(w) && BooksOk(w)
  }
}
