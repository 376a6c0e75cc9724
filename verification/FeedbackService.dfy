/** The feedback store and the service calls that run inside its transactions. Every call
    works on the tables in place; one that fails leaves them as they were. */
module FeedbackService {
  import opened Common
  import opened Feedback
  import M = Manifest

  // How a call's answer and the tables after it follow from its transaction.
  ghost predicate Follows<T>(o: Outcome<T>, before: Db, after: Db, answer: Result<T, Failure>) {
    match o
    case Done(db, value) => after == db && answer == Ok(value)
    case RolledBack(why) => after == before && answer == Err(why)
  }

  // ---- What the calls promise, over the fields of a report ----

  ghost predicate HasUploadToken(reports: map<ReportId, Report>, id: ReportId, raw: string, now: Time) {
    id in reports && reports[id].uploadToken == Some(raw) && now < reports[id].uploadTokenEnds
  }

  ghost predicate HasRecoveryToken(reports: map<ReportId, Report>, id: ReportId, raw: string, now: Time) {
    id in reports && reports[id].recoveryToken == Some(raw) && now < reports[id].recoveryEnds
  }

  ghost predicate Unexpired(r: Report, now: Time) {
    r.state != Expired && now < r.expiresAt
  }

  ghost predicate Within(m: M.Manifest) {
    && M.WellFormed(m) && Total(M.Sizes(m.artifacts)) <= 200 * 1024 * 1024
    && M.Screenshots(m.artifacts) <= 5
  }

  // A new report: everything declared, nothing uploaded, its bytes reserved.
  ghost predicate IsNew(r: Report, input: CreateInput, token: string, now: Time) {
    && r.client == input.client && r.requestHash == input.requestHash && r.manifestHash == input.manifestHash
    && r.complete == input.manifest.complete && r.quarantined == input.suspicious
    && r.uploadToken == Some(token) && r.uploadTokenEnds == now + 30 * MINUTE
    && r.recoveryToken == Some(input.recoveryToken) && r.recoveryEnds == r.expiresAt == now + 7 * DAY
    && r.state == Open && r.submittedAt == None && r.tombstoneAt == None && r.status == Unresolved && r.version == 1
    && r.assignedTo == r.resolvedBy == r.publicSummary == "" && r.resolvedAt == None && r.events == []
    && r.reserved == Total(M.Sizes(input.manifest.artifacts)) && |r.slots| == |input.manifest.artifacts|
    && forall i :: 0 <= i < |r.slots| ==>
         && r.slots[i].art == input.manifest.artifacts[i] && r.slots[i].phase == Declared
         && r.slots[i].lease == None && r.slots[i].key == None
  }

  // A new upload token, and nothing else new.
  ghost predicate Reissued(r: Report, r': Report, token: string, now: Time) {
    r' == r.(uploadToken := Some(token), uploadTokenEnds := now + 30 * MINUTE)
  }

  ghost predicate Leased(s: Slot, now: Time) {
    s.phase == Uploading && now < s.leaseEnds
  }

  // Two uploads of the report are on their way.
  ghost predicate TwoLeased(slots: seq<Slot>, now: Time) {
    exists i, j :: 0 <= i < j < |slots| && Leased(slots[i], now) && Leased(slots[j], now)
  }

  lemma {:induction false} NoneLeased(slots: seq<Slot>, now: Time)
    ensures ActiveLeases(slots, now) == 0 <==> forall i :: 0 <= i < |slots| ==> !Leased(slots[i], now)
  {
    if slots != [] {
      NoneLeased(slots[..|slots| - 1], now);
    }
  }

  lemma {:induction false} LeasesCounted(slots: seq<Slot>, now: Time)
    ensures ActiveLeases(slots, now) >= 2 <==> TwoLeased(slots, now)
  {
    if slots != [] {
      var front := slots[..|slots| - 1];
      LeasesCounted(front, now);
      NoneLeased(front, now);
      if TwoLeased(front, now) {
        var i, j :| 0 <= i < j < |front| && Leased(front[i], now) && Leased(front[j], now);
        assert Leased(slots[i], now) && Leased(slots[j], now);
      }
    }
  }

  // The caller may upload to the report.
  ghost predicate MayUpload(reports: map<ReportId, Report>, q: UploadRequest, now: Time) {
    && HasUploadToken(reports, q.report, q.token, now) && Unexpired(reports[q.report], now)
    && reports[q.report].state == Open && reports[q.report].submittedAt.None?
  }

  ghost predicate AsDeclared(q: UploadRequest, art: M.Artifact) {
    q.size == art.size && q.contentType == art.contentType && q.digest == art.digest
  }

  // ... and the artifact is declared and not received yet.
  ghost predicate Uploadable(reports: map<ReportId, Report>, q: UploadRequest, at: int, now: Time) {
    && MayUpload(reports, q, now) && 0 <= at < |reports[q.report].slots|
    && AsDeclared(q, reports[q.report].slots[at].art) && reports[q.report].slots[at].phase != Received
  }

  // The slot at `at` is the last one for the artifact; there is none when it is negative.
  ghost predicate IsSlotFor(slots: seq<Slot>, aid: ArtifactId, at: int) {
    && at < |slots| && (at >= 0 ==> slots[at].art.id == aid)
    && forall i :: 0 <= i < |slots| && i > at ==> slots[i].art.id != aid
  }

  lemma {:induction false} SlotFound(slots: seq<Slot>, aid: ArtifactId)
    ensures IsSlotFor(slots, aid, SlotOf(slots, aid))
  {
    if slots != [] && slots[|slots| - 1].art.id != aid {
      SlotFound(slots[..|slots| - 1], aid);
    }
  }

  // The caller holds the upload token, means this manifest, and consents to a partial one.
  ghost predicate Submittable(
      reports: map<ReportId, Report>, id: ReportId, raw: string, manifestHash: string, partialOk: bool, now: Time) {
    && HasUploadToken(reports, id, raw, now) && Unexpired(reports[id], now)
    && manifestHash == reports[id].manifestHash && (reports[id].complete || partialOk)
  }

  // The upload's own lease is given back.
  ghost predicate GivenBack(s: Slot, s': Slot, key: Key) {
    if s.art.id == key.artifact && s.lease == Some(key.lease) then s' == s.(phase := Declared, lease := None)
    else s' == s
  }

  ghost predicate IsFor(e: Event, user: string, op: Operation, key: string) {
    e.user == user && e.operation == op && e.idempotencyKey == key
  }

  // The report has run out, or its time as an empty record has.
  ghost predicate RunOut(r: Report, now: Time) {
    || (r.state != Expired && r.expiresAt <= now)
    || (r.reserved == 0 && r.tombstoneAt.Some? && r.tombstoneAt.value <= now)
  }

  // The reports that a cleanup pass handles: up to a hundred that have run out, in order, and
  // none of them later than one that is left over.
  ghost predicate IsExpiredList(ids: seq<ReportId>, reports: map<ReportId, Report>, now: Time) {
    && Distinct(ids) && |ids| <= 100
    && (forall id :: id in ids ==> id in reports && RunOut(reports[id], now))
    && (forall i, j :: 0 <= i < j < |ids| ==> reports[ids[i]].expiresAt <= reports[ids[j]].expiresAt)
    && forall o :: o in reports && o !in ids && RunOut(reports[o], now) ==>
         |ids| == 100 && forall id :: id in ids ==> reports[id].expiresAt <= reports[o].expiresAt
  }

  ghost predicate Named(tasks: map<Key, Task>, id: ReportId) {
    exists k :: k in tasks && tasks[k].report == id
  }

  // Of an expired report only who filed it and when it expired is left; its reservation is,
  // while objects are left to clean up.
  ghost predicate IsEmptied(r: Report, r': Report, tasks: map<Key, Task>, id: ReportId, now: Time) {
    && r'.state == Expired && r'.slots == [] && r'.events == [] && r'.uploadToken == r'.recoveryToken == None
    && r'.assignedTo == r'.resolvedBy == r'.publicSummary == "" && r'.tombstoneAt == Some(now + 30 * DAY)
    && r'.reserved == (if Named(tasks, id) then r.reserved else 0)
    && r'.client == r.client && r'.requestHash == r.requestHash && r'.manifestHash == r.manifestHash
    && r'.expiresAt == r.expiresAt && r'.submittedAt == r.submittedAt && r'.version == r.version
    && r'.status == r.status
  }

  // What becomes of one report in a cleanup pass.
  ghost predicate IsSwept(before: map<ReportId, Report>, after: Db, id: ReportId, now: Time)
    requires id in before
  {
    var r := before[id];
    if r.state == Expired then id !in after.reports
    else id in after.reports && if now < r.expiresAt then after.reports[id] == r
                                else IsEmptied(r, after.reports[id], after.tasks, id, now)
  }

  ghost predicate Keeps(slots: seq<Slot>, k: Key) {
    exists s :: s in slots && s.key == Some(k)
  }

  lemma OneMoreKey(slots: seq<Slot>, i: nat)
    requires i < |slots|
    ensures forall k :: Keeps(slots[..i + 1], k) <==> Keeps(slots[..i], k) || slots[i].key == Some(k)
  {
    assert slots[..i + 1] == slots[..i] + [slots[i]];
    assert slots[i] in slots[..i + 1];
  }

  // Handled reports are swept, all others stay.
  ghost predicate ReportsSwept(before: map<ReportId, Report>, after: Db, ids: seq<ReportId>, now: Time) {
    && (forall id :: id in ids ==> id in before && IsSwept(before, after, id, now))
    && (forall id :: id !in ids ==> (id in after.reports <==> id in before))
    && (forall id :: id !in ids && id in before ==> after.reports[id] == before[id])
  }

  // A report whose stored keys are listed now.
  ghost predicate Lists(before: map<ReportId, Report>, ids: seq<ReportId>, id: ReportId, k: Key, now: Time) {
    && id in ids && id in before && before[id].state != Expired && before[id].expiresAt <= now
    && Keeps(before[id].slots, k)
  }

  // The keys that handled reports store have tasks; all new tasks are for such keys.
  ghost predicate TasksSwept(before: Db, tasks: map<Key, Task>, ids: seq<ReportId>, now: Time) {
    && (forall k :: k in before.tasks ==> k in tasks && tasks[k] == before.tasks[k])
    && (forall id, k :: Lists(before.reports, ids, id, k, now) ==> k in tasks)
    && forall k :: k in tasks && k !in before.tasks ==>
         tasks[k] == Task(tasks[k].report, ReportExpired, 0, now) && Lists(before.reports, ids, tasks[k].report, k, now)
  }

  lemma {:induction false} AddTasksGives(tasks: map<Key, Task>, id: ReportId, slots: seq<Slot>, now: Time)
    ensures var tasks' := AddTasks(tasks, id, slots, now);
      && (forall k :: k in tasks' <==> k in tasks || Keeps(slots, k))
      && forall k :: k in tasks' ==> tasks'[k] == if k in tasks then tasks[k] else Task(id, ReportExpired, 0, now)
  {
    if slots != [] {
      var n := |slots| - 1;
      AddTasksGives(tasks, id, slots[..n], now);
      OneMoreKey(slots, n);
      assert slots[..n + 1] == slots;
    }
  }

  lemma ExpireOneSweeps(db: Db, id: ReportId, now: Time)
    requires id in db.reports
    ensures ReportsSwept(db.reports, ExpireOne(db, id, now), [id], now)
    ensures TasksSwept(db, ExpireOne(db, id, now).tasks, [id], now)
  {
    AddTasksGives(db.tasks, id, db.reports[id].slots, now);
    assert Named(ExpireOne(db, id, now).tasks, id) <==> PendingCleanup(ExpireOne(db, id, now).tasks, id);
  }

  // Handling one more report changes nothing about those handled before.
  lemma ReportsSweptOn(first: map<ReportId, Report>, db: Db, ids: seq<ReportId>, id: ReportId, now: Time)
    requires id !in ids && id in db.reports && id in first && first[id] == db.reports[id]
    requires ReportsSwept(first, db, ids, now)
    ensures ReportsSwept(first, ExpireOne(db, id, now), ids + [id], now)
  {
    var db' := ExpireOne(db, id, now);
    ExpireOneSweeps(db, id, now);
    forall i | i in ids
      ensures i in first && IsSwept(first, db', i, now)
    {
      assert i !in [id] && IsSwept(first, db, i, now);
      forall k | k in db'.tasks && db'.tasks[k].report == i
        ensures k in db.tasks && db.tasks[k].report == i
      {
        assert k !in db.tasks ==> Lists(db.reports, [id], db'.tasks[k].report, k, now);
      }
      assert Named(db'.tasks, i) <==> Named(db.tasks, i);
    }
    assert IsSwept(db.reports, db', id, now);
  }

  lemma TasksSweptOn(first: Db, db: Db, ids: seq<ReportId>, id: ReportId, now: Time)
    requires id !in ids && id in db.reports && id in first.reports && first.reports[id] == db.reports[id]
    requires TasksSwept(first, db.tasks, ids, now)
    ensures TasksSwept(first, ExpireOne(db, id, now).tasks, ids + [id], now)
  {
    var tasks := ExpireOne(db, id, now).tasks;
    ExpireOneSweeps(db, id, now);
    forall i, k | Lists(first.reports, ids + [id], i, k, now)
      ensures k in tasks
    {
      assert if i == id then Lists(db.reports, [id], i, k, now) else Lists(first.reports, ids, i, k, now);
    }
    forall k | k in tasks && k !in first.tasks
      ensures tasks[k] == Task(tasks[k].report, ReportExpired, 0, now)
      ensures Lists(first.reports, ids + [id], tasks[k].report, k, now)
    {
      assert if k in db.tasks then Lists(first.reports, ids, tasks[k].report, k, now)
             else Lists(db.reports, [id], tasks[k].report, k, now);
    }
  }

  lemma {:induction false} ExpireAllSweeps(db: Db, ids: seq<ReportId>, now: Time)
    requires Distinct(ids) && forall id :: id in ids ==> id in db.reports
    ensures ReportsSwept(db.reports, ExpireAll(db, ids, now), ids, now)
    ensures TasksSwept(db, ExpireAll(db, ids, now).tasks, ids, now)
  {
    if ids != [] {
      var n := |ids| - 1;
      var front, id := ids[..n], ids[n];
      assert ids == front + [id];
      ExpireAllSweeps(db, front, now);
      var db' := ExpireAll(db, front, now);
      assert id !in front && id in db'.reports;
      ReportsSweptOn(db.reports, db', front, id, now);
      TasksSweptOn(db, db', front, id, now);
    }
  }

  // The report is there to be operated on.
  ghost predicate Operable(reports: map<ReportId, Report>, id: ReportId, input: OperationInput, now: Time) {
    && input.wellFormed && input.expected >= 1 && id in reports && Unexpired(reports[id], now)
    && reports[id].state == Ready && !reports[id].quarantined
  }

  ghost predicate IsFirst(events: seq<Event>, at: nat, user: string, op: Operation, input: OperationInput) {
    && at <= |events| && (at < |events| ==> IsFor(events[at], user, op, input.idempotencyKey))
    && forall i :: 0 <= i < at ==> !IsFor(events[i], user, op, input.idempotencyKey)
  }

  ghost predicate Answers(result: EventResult, e: Event) {
    result.status == e.after && result.version == e.versionAfter && result.at == e.at && result.user == e.user
  }

  // What an operation makes of a report, and what it records.
  ghost predicate IsOperated(r: Report, r': Report, user: string, op: Operation, input: OperationInput, now: Time) {
    && r'.version == r.version + 1 && |r'.events| == |r.events| + 1 && r'.events[..|r.events|] == r.events
    && (match op
        case Investigate =>
          && r.status == Unresolved && r'.status == Investigating && r'.assignedTo == user
          && r' == r.(status := r'.status, assignedTo := user, version := r'.version, events := r'.events)
        case Resolve =>
          && r.status != Resolved && r'.status == Resolved
          && r' == r.(status := Resolved, resolvedAt := Some(now), resolvedBy := user,
                      publicSummary := input.publicSummary, version := r'.version, events := r'.events)
        case Reopen =>
          && r.status == Resolved && r'.status == Unresolved
          && r' == r.(status := Unresolved, resolvedAt := None, resolvedBy := "", assignedTo := "",
                      publicSummary := "", version := r'.version, events := r'.events))
    && var e := r'.events[|r.events|];
       && IsFor(e, user, op, input.idempotencyKey) && e.requestHash == input.requestHash && e.at == now
       && e.before == r.status && e.after == r'.status && e.versionBefore == r.version && e.versionAfter == r'.version
  }

  class Store {
    var reports: map<ReportId, Report>
    var tasks: map<Key, Task>

    ghost function View(): Db
      reads this
    {
      Db(reports, tasks)
    }

    constructor ()
      ensures View() == Db(map[], map[])
    {
      reports, tasks := map[], map[];
    }

    method FindClient(client: string) returns (found: Option<ReportId>)
      ensures found.Some? ==> found.value in reports && reports[found.value].client == client
      ensures found.None? ==> forall id :: id in reports ==> reports[id].client != client
    {
      var rest := reports.Keys;
      while rest != {}
        invariant rest <= reports.Keys
        invariant forall id :: id in reports && id !in rest ==> reports[id].client != client
      {
        var id :| id in rest;
        if reports[id].client == client {
          return Some(id);
        }
        rest := rest - {id};
      }
      found := None;
    }

    method ReservedBytes() returns (total: nat)
      ensures total == Total(Reserved(reports))
    {
      total := 0;
      var rest := reports;
      while rest != map[]
        invariant rest.Keys <= reports.Keys
        invariant total + Total(Reserved(rest)) == Total(Reserved(reports))
        decreases |rest|
      {
        var id :| id in rest;
        total := total + rest[id].reserved;
        TotalWithout(Reserved(rest), id);
        assert Reserved(rest) - {id} == Reserved(rest - {id});
        rest := rest - {id};
      }
      assert Reserved(rest) == map[];
    }

    method HasPendingObject(report: ReportId, aid: ArtifactId) returns (pending: bool)
      ensures pending == PendingObject(tasks, report, aid)
    {
      var rest := tasks.Keys;
      while rest != {}
        invariant rest <= tasks.Keys
        invariant forall k :: k in tasks && k !in rest ==> !(k.report == report && k.artifact == aid)
      {
        var k :| k in rest;
        if k.report == report && k.artifact == aid {
          return true;
        }
        rest := rest - {k};
      }
      pending := false;
    }

    method HasPendingCleanup(report: ReportId) returns (pending: bool)
      ensures pending == PendingCleanup(tasks, report)
    {
      var rest := tasks.Keys;
      while rest != {}
        invariant rest <= tasks.Keys
        invariant forall k :: k in tasks && k !in rest ==> tasks[k].report != report
      {
        var k :| k in rest;
        if tasks[k].report == report {
          return true;
        }
        rest := rest - {k};
      }
      pending := false;
    }

    // `existing` is the report found for the client.
    method CreateReport(input: CreateInput, capacity: nat, storageOk: bool, denied: bool,
                        id: ReportId, token: string, now: Time)
      returns (answer: Result<Created, Failure>, ghost existing: Option<ReportId>)
      modifies this
      ensures existing.Some? ==> existing.value in old(reports) && old(reports)[existing.value].client == input.client
      ensures existing.None? ==> forall i :: i in old(reports) ==> old(reports)[i].client != input.client
      ensures match answer
        case Err(InvalidManifest) => !M.WellFormed(input.manifest)
        case Err(QuotaExceeded) => M.WellFormed(input.manifest) && !Within(input.manifest)
        case Err(StorageUnavailable) => Within(input.manifest) && !storageOk
        case Err(FeedbackExpired) =>
          && Within(input.manifest) && storageOk && existing.Some?
          && var r := old(reports)[existing.value];
             || r.state == Expired
             || (now >= r.expiresAt && r.requestHash == input.requestHash
                 && HasRecoveryToken(old(reports), existing.value, input.recoveryToken, now))
        case Err(CreateConflict) =>
          && Within(input.manifest) && storageOk && existing.Some?
          && var r := old(reports)[existing.value];
             r.state != Expired && (r.recoveryToken != Some(input.recoveryToken) || r.requestHash != input.requestHash)
        case Err(InvalidCredential) =>
          && Within(input.manifest) && storageOk && existing.Some?
          && var r := old(reports)[existing.value];
             && r.state != Expired && r.recoveryToken == Some(input.recoveryToken) && r.requestHash == input.requestHash
             && now >= r.recoveryEnds
        case Err(AdmissionDenied) => Within(input.manifest) && storageOk && existing.None? && denied
        case Err(CapacityExceeded) =>
          && Within(input.manifest) && storageOk && existing.None? && !denied
          && Total(M.Sizes(input.manifest.artifacts)) + Total(Reserved(old(reports))) > capacity
        case Ok(Resumed(prior)) =>
          && Within(input.manifest) && storageOk && existing == Some(prior) && prior in reports
          && var r := old(reports)[prior];
             && HasRecoveryToken(old(reports), prior, input.recoveryToken, now) && r.requestHash == input.requestHash
             && Unexpired(r, now) && reports == old(reports)[prior := reports[prior]]
             && if r.submittedAt.Some? then reports[prior] == r else Reissued(r, reports[prior], token, now)
        case Ok(Fresh(filed)) =>
          && Within(input.manifest) && storageOk && existing.None? && !denied && filed == id
          && Total(M.Sizes(input.manifest.artifacts)) + Total(Reserved(old(reports))) <= capacity
          && id in reports && reports == old(reports)[id := reports[id]] && IsNew(reports[id], input, token, now)
        case _ => false
      ensures tasks == old(tasks) && (answer.Err? ==> reports == old(reports))
      ensures Follows(Create(old(View()), now, capacity, input, storageOk, existing, denied, id, token),
                      old(View()), View(), answer)
    {
      existing := None;
      var found := FindClient(input.client);
      existing := found;
      var verdict := M.Validate(input.manifest);
      if verdict.Err? {
        var why := if verdict.error == M.InvalidManifest then InvalidManifest else QuotaExceeded;
        return Err(why), existing;
      }
      if !storageOk {
        return Err(StorageUnavailable), existing;
      }
      var total := verdict.value;
      if found.Some? {
        var r := reports[found.value];
        if r.state == Expired {
          return Err(FeedbackExpired), existing;
        }
        if r.recoveryToken != Some(input.recoveryToken) || r.requestHash != input.requestHash {
          return Err(CreateConflict), existing;
        }
        var refusal := Refusal(RecoveryCredential(r, input.recoveryToken, now), r, now);
        if refusal.Some? {
          return Err(refusal.value), existing;
        }
        if r.submittedAt.None? {
          reports := reports[found.value := WithUploadToken(r, token, now)];
        }
        return Ok(Resumed(found.value)), existing;
      }
      if denied {
        return Err(AdmissionDenied), existing;
      }
      var used := ReservedBytes();
      if total > capacity - used {
        return Err(CapacityExceeded), existing;
      }
      var r := NewReport(input, total, now);
      reports := reports[id := WithUploadToken(r, token, now)];
      return Ok(Fresh(id)), existing;
    }

    // The new token replaces the old one; nothing else changes.
    method RecoverReport(id: ReportId, raw: string, token: string, now: Time) returns (answer: Result<(), Failure>)
      modifies this
      ensures match answer
        case Err(InvalidCredential) => !HasRecoveryToken(old(reports), id, raw, now)
        case Err(FeedbackExpired) =>
          HasRecoveryToken(old(reports), id, raw, now) && !Unexpired(old(reports)[id], now)
        case Err(UploadConflict) =>
          && HasRecoveryToken(old(reports), id, raw, now) && Unexpired(old(reports)[id], now)
          && old(reports)[id].submittedAt.None? && old(reports)[id].state != Open
        case Ok(_) =>
          && HasRecoveryToken(old(reports), id, raw, now) && Unexpired(old(reports)[id], now)
          && var r := old(reports)[id];
             && id in reports && reports == old(reports)[id := reports[id]]
             && if r.submittedAt.Some? then reports[id] == r
                else r.state == Open && Reissued(r, reports[id], token, now)
        case _ => false
      ensures tasks == old(tasks) && (answer.Err? ==> reports == old(reports))
      ensures Follows(Recover(old(View()), now, id, raw, token), old(View()), View(), answer)
    {
      if id !in reports {
        return Err(InvalidCredential);
      }
      var r := reports[id];
      var refusal := Refusal(RecoveryCredential(r, raw, now), r, now);
      if refusal.Some? {
        return Err(refusal.value);
      }
      if r.submittedAt.Some? {
        return Ok(());
      }
      if r.state != Open {
        return Err(UploadConflict);
      }
      reports := reports[id := WithUploadToken(r, token, now)];
      answer := Ok(());
    }

    // `at` is the place of the artifact's slot.
    method Begin(q: UploadRequest, lease: Lease, now: Time) returns (answer: Result<Begun, Failure>, ghost at: int)
      modifies this
      ensures q.report in old(reports) ==> IsSlotFor(old(reports)[q.report].slots, q.artifact, at)
      ensures match answer
        case Err(InvalidCredential) => !HasUploadToken(old(reports), q.report, q.token, now)
        case Err(FeedbackExpired) =>
          HasUploadToken(old(reports), q.report, q.token, now) && !Unexpired(old(reports)[q.report], now)
        case Err(UploadConflict) =>
          && HasUploadToken(old(reports), q.report, q.token, now) && Unexpired(old(reports)[q.report], now)
          && (old(reports)[q.report].state != Open || old(reports)[q.report].submittedAt.Some?)
        case Err(NotFound) => MayUpload(old(reports), q, now) && at < 0
        case Err(ArtifactMismatch) =>
          MayUpload(old(reports), q, now) && at >= 0 && !AsDeclared(q, old(reports)[q.report].slots[at].art)
        case Ok(AlreadyReceived) =>
          && MayUpload(old(reports), q, now) && at >= 0 && AsDeclared(q, old(reports)[q.report].slots[at].art)
          && old(reports)[q.report].slots[at].phase == Received && View() == old(View())
        case Err(CleanupPending) =>
          && Uploadable(old(reports), q, at, now)
          && exists k :: k in old(tasks) && k.report == q.report && k.artifact == q.artifact
        case Err(UploadInProgress) =>
          && Uploadable(old(reports), q, at, now)
          && (forall k :: k in old(tasks) ==> !(k.report == q.report && k.artifact == q.artifact))
          && (Leased(old(reports)[q.report].slots[at], now) || TwoLeased(old(reports)[q.report].slots, now))
        case Ok(Started(art)) =>
          && Uploadable(old(reports), q, at, now) && art == old(reports)[q.report].slots[at].art
          && (forall k :: k in old(tasks) ==> !(k.report == q.report && k.artifact == q.artifact))
          && !Leased(old(reports)[q.report].slots[at], now) && !TwoLeased(old(reports)[q.report].slots, now)
          && (var key := Key(q.report, q.artifact, lease);
              tasks == old(tasks)[key := Task(q.report, Compensation, 0, now + 15 * MINUTE)])
          && var r := old(reports)[q.report];
             reports == old(reports)[q.report := r.(slots := r.slots[at := r.slots[at].(
               phase := Uploading, lease := Some(lease), leaseEnds := now + 5 * MINUTE)])]
        case _ => false
      ensures answer.Err? ==> View() == old(View())
      ensures Follows(BeginUpload(old(View()), now, q, lease), old(View()), View(), answer)
    {
      at := -1;
      if q.report !in reports {
        return Err(InvalidCredential), at;
      }
      var r := reports[q.report];
      at := SlotOf(r.slots, q.artifact);
      SlotFound(r.slots, q.artifact);
      LeasesCounted(r.slots, now);
      var refusal := Refusal(UploadCredential(r, q.token, now), r, now);
      if refusal.Some? {
        return Err(refusal.value), at;
      }
      if r.state != Open || r.submittedAt.Some? {
        return Err(UploadConflict), at;
      }
      var index, active := -1, 0;
      for i := 0 to |r.slots|
        invariant active == ActiveLeases(r.slots[..i], now)
        invariant index == SlotOf(r.slots[..i], q.artifact)
      {
        assert r.slots[..i + 1][..i] == r.slots[..i];
        if LeaseActive(r.slots[i], now) {
          active := active + 1;
        }
        if r.slots[i].art.id == q.artifact {
          index := i;
        }
      }
      assert r.slots[..|r.slots|] == r.slots;
      if index < 0 {
        return Err(NotFound), at;
      }
      var s := r.slots[index];
      if q.size != s.art.size || q.contentType != s.art.contentType || q.digest != s.art.digest {
        return Err(ArtifactMismatch), at;
      }
      if s.phase == Received {
        return Ok(AlreadyReceived), at;
      }
      var pending := HasPendingObject(q.report, q.artifact);
      if pending {
        return Err(CleanupPending), at;
      }
      if LeaseActive(s, now) || active >= MAX_UPLOADS {
        return Err(UploadInProgress), at;
      }
      var s' := s.(phase := Uploading, lease := Some(lease), leaseEnds := now + LEASE_TIME);
      tasks := tasks[Key(q.report, q.artifact, lease) := Task(q.report, Compensation, 0, now + COMPENSATION_TIME)];
      reports := reports[q.report := r.(slots := r.slots[index := s'])];
      answer := Ok(Started(s.art));
    }

    method Abort(key: Key, deleted: bool) returns (answer: Result<(), Failure>)
      modifies this
      ensures match answer
        case Err(why) => why == NotFound && key.report !in old(reports) && View() == old(View())
        case Ok(_) =>
          && key.report in old(reports) && tasks == (if deleted then old(tasks) - {key} else old(tasks))
          && key.report in reports
          && reports == old(reports)[key.report := old(reports)[key.report].(slots := reports[key.report].slots)]
          && |reports[key.report].slots| == |old(reports)[key.report].slots|
          && forall i :: 0 <= i < |reports[key.report].slots| ==>
               GivenBack(old(reports)[key.report].slots[i], reports[key.report].slots[i], key)
      ensures Follows(AbortUpload(old(View()), key, deleted), old(View()), View(), answer)
    {
      if key.report !in reports {
        return Err(NotFound);
      }
      var r := reports[key.report];
      var slots := r.slots;
      for i := 0 to |slots|
        invariant |slots| == |r.slots|
        invariant slots[..i] == Released(r.slots, key)[..i] && slots[i..] == r.slots[i..]
      {
        assert slots[i] == r.slots[i];
        if Holds(slots[i], key) {
          slots := slots[i := slots[i].(phase := Declared, lease := None)];
        }
        assert slots[i] == Released(r.slots, key)[i];
      }
      assert slots == Released(r.slots, key);
      reports := reports[key.report := r.(slots := slots)];
      if deleted {
        tasks := tasks - {key};
      }
      answer := Ok(());
    }

    // `at` is the place of the slot that the upload holds.
    method Commit(key: Key, quarantined: bool, now: Time) returns (answer: Result<(), Failure>, ghost at: int)
      modifies this
      ensures match answer
        case Err(NotFound) => key.report !in old(reports)
        case Err(FeedbackExpired) => key.report in old(reports) && !Unexpired(old(reports)[key.report], now)
        case Err(UploadConflict) =>
          && key.report in old(reports) && Unexpired(old(reports)[key.report], now)
          && var r := old(reports)[key.report];
             r.state != Open || forall s :: s in r.slots ==> !(s.art.id == key.artifact && s.lease == Some(key.lease))
        case Ok(_) =>
          && key.report in old(reports) && Unexpired(old(reports)[key.report], now) && tasks == old(tasks) - {key}
          && var r := old(reports)[key.report];
             && r.state == Open && 0 <= at < |r.slots|
             && r.slots[at].art.id == key.artifact && r.slots[at].lease == Some(key.lease)
             && (forall i :: 0 <= i < at ==>
                   !(r.slots[i].art.id == key.artifact && r.slots[i].lease == Some(key.lease)))
             && reports == old(reports)[key.report := r.(
                  slots := r.slots[at := r.slots[at].(phase := Received, key := Some(key), lease := None)],
                  quarantined := r.quarantined || quarantined)]
        case _ => false
      ensures answer.Err? ==> View() == old(View())
      ensures Follows(CommitUpload(old(View()), now, key, quarantined), old(View()), View(), answer)
    {
      at := -1;
      if key.report !in reports {
        return Err(NotFound), at;
      }
      var r := reports[key.report];
      if !Live(r, now) {
        return Err(FeedbackExpired), at;
      }
      if r.state != Open {
        return Err(UploadConflict), at;
      }
      for i := 0 to |r.slots|
        invariant HeldSlot(r.slots, key)
            == if HeldSlot(r.slots[i..], key) < 0 then -1 else HeldSlot(r.slots[i..], key) + i
        invariant View() == old(View()) && at == -1
        invariant forall j :: 0 <= j < i ==> !Holds(r.slots[j], key)
      {
        assert r.slots[i..][1..] == r.slots[i + 1..];
        if Holds(r.slots[i], key) {
          var s := r.slots[i].(phase := Received, key := Some(key), lease := None);
          reports := reports[key.report := r.(slots := r.slots[i := s], quarantined := r.quarantined || quarantined)];
          tasks := tasks - {key};
          return Ok(()), i;
        }
      }
      answer := Err(UploadConflict);
    }

    method SubmitReport(id: ReportId, raw: string, manifestHash: string, partialOk: bool, now: Time)
      returns (answer: Result<(), Failure>)
      modifies this
      ensures match answer
        case Err(InvalidCredential) => !HasUploadToken(old(reports), id, raw, now)
        case Err(FeedbackExpired) => HasUploadToken(old(reports), id, raw, now) && !Unexpired(old(reports)[id], now)
        case Err(ManifestMismatch) =>
          && HasUploadToken(old(reports), id, raw, now) && Unexpired(old(reports)[id], now)
          && manifestHash != old(reports)[id].manifestHash
        case Err(PartialConsentRequired) =>
          && HasUploadToken(old(reports), id, raw, now) && Unexpired(old(reports)[id], now)
          && manifestHash == old(reports)[id].manifestHash && !old(reports)[id].complete && !partialOk
        case Err(UploadConflict) =>
          && Submittable(old(reports), id, raw, manifestHash, partialOk, now)
          && old(reports)[id].submittedAt.None? && old(reports)[id].state != Open
        case Err(ArtifactsMissing) =>
          && Submittable(old(reports), id, raw, manifestHash, partialOk, now)
          && old(reports)[id].submittedAt.None? && old(reports)[id].state == Open
          && exists s :: s in old(reports)[id].slots && s.phase != Received
        case Ok(_) =>
          && Submittable(old(reports), id, raw, manifestHash, partialOk, now)
          && var r := old(reports)[id];
             && id in reports && reports == old(reports)[id := reports[id]]
             && if r.submittedAt.Some? then reports[id] == r
                else
                  && r.state == Open && (forall s :: s in r.slots ==> s.phase == Received)
                  && reports[id] == r.(submittedAt := Some(now), expiresAt := now + 30 * DAY, state := Ready)
        case _ => false
      ensures tasks == old(tasks) && (answer.Err? ==> reports == old(reports))
      ensures Follows(Submit(old(View()), now, id, raw, manifestHash, partialOk), old(View()), View(), answer)
    {
      if id !in reports {
        return Err(InvalidCredential);
      }
      var r := reports[id];
      var refusal := Refusal(UploadCredential(r, raw, now), r, now);
      if refusal.Some? {
        return Err(refusal.value);
      }
      if manifestHash != r.manifestHash {
        return Err(ManifestMismatch);
      }
      if !r.complete && !partialOk {
        return Err(PartialConsentRequired);
      }
      if r.submittedAt.Some? {
        return Ok(());
      }
      if r.state != Open {
        return Err(UploadConflict);
      }
      for i := 0 to |r.slots|
        invariant forall j :: 0 <= j < i ==> r.slots[j].phase == Received
      {
        if r.slots[i].phase != Received {
          assert r.slots[i] in r.slots;
          return Err(ArtifactsMissing);
        }
      }
      reports := reports[id := r.(submittedAt := Some(now), expiresAt := now + READY_WINDOW, state := Ready)];
      answer := Ok(());
    }

    // `at` is the place of the first event for this request, or the number of events.
    method OperateOn(id: ReportId, user: string, op: Operation, input: OperationInput, now: Time)
      returns (answer: Result<EventResult, Failure>, ghost at: nat)
      modifies this
      ensures match answer
        case Err(InvalidOperation) => !input.wellFormed || input.expected < 1
        case Err(NotFound) => input.wellFormed && input.expected >= 1 && id !in old(reports)
        case Err(FeedbackExpired) =>
          input.wellFormed && input.expected >= 1 && id in old(reports) && !Unexpired(old(reports)[id], now)
        case Err(MaterialsUnavailable) =>
          && input.wellFormed && input.expected >= 1 && id in old(reports) && Unexpired(old(reports)[id], now)
          && (old(reports)[id].state != Ready || old(reports)[id].quarantined)
        case Err(IdempotencyConflict) =>
          && Operable(old(reports), id, input, now) && IsFirst(old(reports)[id].events, at, user, op, input)
          && at < |old(reports)[id].events| && old(reports)[id].events[at].requestHash != input.requestHash
        case Err(VersionConflict) =>
          && Operable(old(reports), id, input, now) && IsFirst(old(reports)[id].events, at, user, op, input)
          && at == |old(reports)[id].events| && old(reports)[id].version != input.expected
        case Err(StateConflict) =>
          && Operable(old(reports), id, input, now) && IsFirst(old(reports)[id].events, at, user, op, input)
          && at == |old(reports)[id].events| && old(reports)[id].version == input.expected
          && (match op
              case Investigate => old(reports)[id].status != Unresolved
              case Resolve => old(reports)[id].status == Resolved
              case Reopen => old(reports)[id].status != Resolved)
        case Ok(result) =>
          && Operable(old(reports), id, input, now) && IsFirst(old(reports)[id].events, at, user, op, input)
          && id in reports && reports == old(reports)[id := reports[id]]
          && var r := old(reports)[id];
             if at < |r.events| then
               r.events[at].requestHash == input.requestHash && reports[id] == r && Answers(result, r.events[at])
             else
               && r.version == input.expected && IsOperated(r, reports[id], user, op, input, now)
               && Answers(result, reports[id].events[|r.events|])
        case _ => false
      ensures tasks == old(tasks) && (answer.Err? ==> reports == old(reports))
      ensures Follows(Operate(old(View()), now, id, user, op, input), old(View()), View(), answer)
    {
      at := 0;
      if !input.wellFormed || input.expected < 1 {
        return Err(InvalidOperation), at;
      }
      if id !in reports {
        return Err(NotFound), at;
      }
      var r := reports[id];
      if !Live(r, now) {
        return Err(FeedbackExpired), at;
      }
      if r.state != Ready || r.quarantined {
        return Err(MaterialsUnavailable), at;
      }
      for i := 0 to |r.events|
        invariant Earlier(r.events, user, op, input) == Earlier(r.events[i..], user, op, input)
        invariant forall j :: 0 <= j < i ==> !IsFor(r.events[j], user, op, input.idempotencyKey)
      {
        at := i;
        assert r.events[i..][1..] == r.events[i + 1..];
        var e := r.events[i];
        if SameRequest(e, user, op, input) {
          if e.requestHash != input.requestHash {
            return Err(IdempotencyConflict), at;
          }
          return Ok(ResultOf(e)), at;
        }
      }
      at := |r.events|;
      if r.version != input.expected {
        return Err(VersionConflict), at;
      }
      var before := r.status;
      if !Allowed(op, before) {
        return Err(StateConflict), at;
      }
      r := Operated(r, now, user, op, input);
      var e := Event(op, before, r.status, r.version, r.version + 1, user, input.idempotencyKey, input.requestHash,
          now);
      r := r.(version := r.version + 1, events := r.events + [e]);
      reports := reports[id := r];
      answer := Ok(ResultOf(e));
    }

    // The report that expires first of some.
    method FirstToExpire(candidates: set<ReportId>) returns (id: ReportId)
      requires candidates != {} && candidates <= reports.Keys
      ensures id in candidates && forall o :: o in candidates ==> reports[id].expiresAt <= reports[o].expiresAt
    {
      id :| id in candidates;
      var rest := candidates - {id};
      while rest != {}
        invariant rest <= candidates && id in candidates
        invariant forall o :: o in candidates && o !in rest ==> reports[id].expiresAt <= reports[o].expiresAt
      {
        var o :| o in rest;
        rest := rest - {o};
        if reports[o].expiresAt < reports[id].expiresAt {
          id := o;
        }
      }
    }

    // At most a hundred reports at a time, in the order in which they expire; what is left
    // for later expires no earlier.
    method ExpiredReports(now: Time) returns (ids: seq<ReportId>)
      ensures IsExpiredList(ids, reports, now)
    {
      ids := [];
      var rest := set id | id in reports && IsExpired(reports[id], now);
      assert forall id :: id in rest <==> id in reports && RunOut(reports[id], now);
      while rest != {} && |ids| < 100
        invariant |ids| <= 100 && Distinct(ids) && forall id :: id in ids ==> id !in rest
        invariant forall id :: (id in ids || id in rest) <==> id in reports && RunOut(reports[id], now)
        invariant forall i, j :: 0 <= i < j < |ids| ==> reports[ids[i]].expiresAt <= reports[ids[j]].expiresAt
        invariant forall id, o :: id in ids && o in rest ==> reports[id].expiresAt <= reports[o].expiresAt
      {
        var id := FirstToExpire(rest);
        rest := rest - {id};
        ids := ids + [id];
      }
    }

    // The expiry transaction of a cleanup pass.
    method ExpirePass(now: Time) returns (ghost ids: seq<ReportId>)
      modifies this
      ensures IsExpiredList(ids, old(reports), now)
      ensures ReportsSwept(old(reports), View(), ids, now) && TasksSwept(old(View()), tasks, ids, now)
      ensures View() == ExpireAll(old(View()), ids, now)
    {
      var expired := ExpiredReports(now);
      ids := expired;
      ExpireAllSweeps(View(), ids, now);
      for n := 0 to |expired|
        invariant View() == ExpireAll(old(View()), expired[..n], now)
        invariant forall i :: n <= i < |expired| ==> expired[i] in reports
      {
        var id := expired[n];
        var r := reports[id];
        assert expired[..n + 1][..n] == expired[..n];
        if r.state == Expired {
          reports := reports - {id};
        } else if now >= r.expiresAt {
          AddCleanupTasks(id, r.slots, now);
          var pending := HasPendingCleanup(id);
          var r' := Emptied(r, now);
          if !pending {
            r' := r'.(reserved := 0);
          }
          reports := reports[id := r'];
        }
      }
      assert expired[..|expired|] == expired;
    }

    method AddCleanupTasks(id: ReportId, slots: seq<Slot>, now: Time)
      modifies this`tasks
      ensures forall k :: k in tasks <==> k in old(tasks) || Keeps(slots, k)
      ensures forall k :: k in tasks ==>
          tasks[k] == if k in old(tasks) then old(tasks)[k] else Task(id, ReportExpired, 0, now)
      ensures tasks == AddTasks(old(tasks), id, slots, now)
    {
      for i := 0 to |slots|
        invariant tasks == AddTasks(old(tasks), id, slots[..i], now)
        invariant forall k :: k in tasks <==> k in old(tasks) || Keeps(slots[..i], k)
        invariant forall k :: k in tasks ==>
            tasks[k] == if k in old(tasks) then old(tasks)[k] else Task(id, ReportExpired, 0, now)
      {
        assert slots[..i + 1][..i] == slots[..i];
        OneMoreKey(slots, i);
        match slots[i].key
        case None =>
        case Some(k) =>
          if k !in tasks {
            tasks := tasks[k := Task(id, ReportExpired, 0, now)];
          }
      }
      assert slots[..|slots|] == slots;
    }

    method Finish(key: Key, report: ReportId, deleted: bool, now: Time) returns (answer: Result<(), Failure>)
      modifies this
      ensures match answer
        case Err(why) =>
          && why == NotFound && deleted && report !in old(reports) && !Named(old(tasks) - {key}, report)
          && View() == old(View())
        case Ok(_) =>
          if !deleted then
            && reports == old(reports)
            && tasks == if key in old(tasks)
                        then old(tasks)[key :=
                            old(tasks)[key].(attempts := old(tasks)[key].attempts + 1, next := now + 60)]
                        else old(tasks)
          else
            && tasks == old(tasks) - {key}
            && reports == if Named(tasks, report) || report !in old(reports) || old(reports)[report].state != Expired
                          then old(reports)
                          else old(reports)[report := old(reports)[report].(reserved := 0)]
      ensures Follows(FinishCleanup(old(View()), now, key, report, deleted), old(View()), View(), answer)
    {
      if !deleted {
        if key in tasks {
          var t := tasks[key];
          tasks := tasks[key := t.(attempts := t.attempts + 1, next := now + MINUTE)];
        }
        return Ok(());
      }
      var before := tasks;
      tasks := tasks - {key};
      var pending := HasPendingCleanup(report);
      if pending {
        return Ok(());
      }
      if report !in reports {
        tasks := before;
        return Err(NotFound);
      }
      if reports[report].state == Expired {
        reports := reports[report := reports[report].(reserved := 0)];
      }
      answer := Ok(());
    }
  }
}
