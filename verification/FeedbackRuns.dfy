/** What the feedback service promises over every run: every interleaving of its calls,
    of uploads and cleanup passes that may stop anywhere, and of the passing of time. */
module FeedbackRuns {
  import opened Common
  import opened Feedback
  import opened FeedbackWorld
  import opened FeedbackCalls
  import M = Manifest

  ghost predicate Attainable(w: World, limit: Time) {
    exists capacity: nat, events ::
      IsRun(Start(capacity, limit), events) && w == Final(Start(capacity, limit), events)
  }

  // Worlds whose uploads commit before their compensation tasks fall due.
  ghost predicate Reachable(w: World) {
    exists limit :: limit <= COMPENSATION_TIME && Attainable(w, limit)
  }

  lemma ReachableInv(w: World)
    requires Reachable(w)
    ensures Inv(w)
  {
    var limit :| limit <= COMPENSATION_TIME && Attainable(w, limit);
    var capacity: nat, events :| IsRun(Start(capacity, limit), events) && w == Final(Start(capacity, limit), events);
    var s := Start(capacity, limit);
    forall k
      ensures KeyOk(s, k)
    {}
    assert Reserved(s.db.reports) == map[];
    RunKeeps(s, events);
  }

  // ---- Storage stays within what has been reserved ----

  ghost function ObjectSizes(objects: map<Key, Object>): map<Key, nat> {
    map k | k in objects :: objects[k].size
  }

  // One object at most per artifact, each within its declared size.
  lemma {:induction false} OneObjectEach(sizes: map<Key, nat>, declared: map<ArtifactId, nat>)
    requires forall k :: k in sizes ==> k.artifact in declared && sizes[k] <= declared[k.artifact]
    requires forall k, l :: k in sizes && l in sizes && k.artifact == l.artifact ==> k == l
    ensures Total(sizes) <= Total(declared)
    decreases |sizes|
  {
    if sizes != map[] {
      var k :| k in sizes;
      TotalWithout(sizes, k);
      TotalWithout(declared, k.artifact);
      OneObjectEach(sizes - {k}, declared - {k.artifact});
    }
  }

  // The object of an artifact has the artifact's latest key.
  lemma ObjectHasLatestKey(w: World, k: Key)
    requires Inv(w) && k in w.objects
    ensures (k.report, k.artifact) in w.log.holder && w.log.holder[(k.report, k.artifact)] == k
    ensures k.report in w.db.reports && w.db.reports[k.report].reserved > 0
  {
    assert KeyOk(w, k) && ReportOk(w, k.report);
    if k !in w.db.tasks {
      var s :| s in w.db.reports[k.report].slots && s.key == Some(k);
      assert SlotOk(w, k.report, s);
    }
  }

  lemma ReportWithinReservation(w: World, id: ReportId)
    requires Inv(w) && id in w.db.reports
    ensures Total(OwnedBy(ObjectSizes(w.objects), (k: Key) => k.report, id)) <= w.db.reports[id].reserved
  {
    var mine := OwnedBy(ObjectSizes(w.objects), (k: Key) => k.report, id);
    assert ReportOk(w, id);
    forall k | k in mine
      ensures k in w.objects && k.report == id && k.artifact in w.log.declared[id]
          && mine[k] <= w.log.declared[id][k.artifact]
      ensures w.db.reports[id].reserved > 0
      ensures (id, k.artifact) in w.log.holder && w.log.holder[(id, k.artifact)] == k
    {
      assert KeyOk(w, k);
      ObjectHasLatestKey(w, k);
    }
    if w.db.reports[id].reserved == 0 {
      assert mine == map[];
    } else {
      OneObjectEach(mine, w.log.declared[id]);
    }
  }

  // The bytes in storage never exceed the bytes reserved, nor those the capacity.
  lemma StorageWithinReservation(w: World)
    requires Reachable(w)
    ensures Total(ObjectSizes(w.objects)) <= Total(Reserved(w.db.reports)) <= w.capacity
  {
    ReachableInv(w);
    var sizes := ObjectSizes(w.objects);
    forall k | k in sizes
      ensures k.report in Reserved(w.db.reports)
    {
      ObjectHasLatestKey(w, k);
    }
    forall id | id in Reserved(w.db.reports)
      ensures Total(OwnedBy(sizes, (k: Key) => k.report, id)) <= Reserved(w.db.reports)[id]
    {
      ReportWithinReservation(w, id);
    }
    TotalByOwner(sizes, (k: Key) => k.report, Reserved(w.db.reports));
  }

  // ---- Nothing is orphaned and nothing in use is lost ----

  // Every stored object either belongs to a received artifact of an unexpired report or
  // has a cleanup task, and no key ever both.
  lemma EveryObjectIsAccountedFor(w: World, k: Key)
    requires Reachable(w)
    ensures k in w.objects ==> (k in w.db.tasks <==> !Stored(w.db.reports, k))
    ensures !(k in w.db.tasks && Stored(w.db.reports, k))
    ensures Stored(w.db.reports, k) ==> w.db.reports[k.report].state != UploadState.Expired
  {
    ReachableInv(w);
    assert KeyOk(w, k) && ReportOk(w, k.report);
  }

  // Every received artifact of an unexpired report has its object, of the declared size
  // and digest.
  lemma ReceivedArtifactsAreStored(w: World, id: ReportId, s: Slot)
    requires Reachable(w) && id in w.db.reports && s in w.db.reports[id].slots && s.phase == Received
    ensures s.key.Some? && s.key.value in w.objects && Fits(w.objects[s.key.value], s.art)
    ensures s.key.value.report == id && s.key.value.artifact == s.art.id
  {
    ReachableInv(w);
    assert ReportOk(w, id) && SlotOk(w, id, s);
  }

  // A report ready for reading has all of its artifacts in storage.
  lemma ReadyReportsAreWhole(w: World, id: ReportId)
    requires Reachable(w) && id in w.db.reports && w.db.reports[id].state == Ready
    ensures w.db.reports[id].submittedAt.Some?
    ensures forall s :: s in w.db.reports[id].slots ==>
        s.phase == Received && s.key.Some? && s.key.value in w.objects && Fits(w.objects[s.key.value], s.art)
  {
    ReachableInv(w);
    assert ReportOk(w, id);
    forall s | s in w.db.reports[id].slots
      ensures s.phase == Received && s.key.Some? && s.key.value in w.objects && Fits(w.objects[s.key.value], s.art)
    {
      assert SlotOk(w, id, s);
    }
  }

  // Every cleanup task names a report that still exists and still holds its reservation:
  // while its row is there, finishing it never aborts.
  lemma CleanupTasksNameReports(w: World, k: Key, now: Time)
    requires Reachable(w) && k in w.db.tasks
    ensures var id := w.db.tasks[k].report;
      && id in w.db.reports && w.db.reports[id].reserved > 0
      && FinishCleanup(w.db, now, k, id, true).Done? && FinishCleanup(w.db, now, k, id, false).Done?
  {
    ReachableInv(w);
    assert KeyOk(w, k);
  }

  // A reservation is given up only when no task and no object of the report is left.
  lemma ReleasedReportsAreEmpty(w: World, id: ReportId, k: Key)
    requires Reachable(w) && id in w.db.reports && w.db.reports[id].reserved == 0 && k.report == id
    ensures k !in w.objects && k !in w.db.tasks
  {
    ReachableInv(w);
    assert KeyOk(w, k);
    if k in w.objects {
      ObjectHasLatestKey(w, k);
    }
  }

  // ---- The life of an upload ----

  lemma AtMostTwoLeases(w: World, id: ReportId)
    requires Reachable(w) && id in w.db.reports
    ensures ActiveLeases(w.db.reports[id].slots, w.now) <= MAX_UPLOADS
  {
    ReachableInv(w);
    assert ReportOk(w, id);
  }

  // An artifact is leased again only when no object of it is left.
  lemma LeasedArtifactsHaveNoObject(w: World, q: UploadRequest, lease: Lease, k: Key)
    requires Reachable(w) && lease !in w.log.leases
    requires BeginUpload(w.db, w.now, q, lease).Done? && BeginUpload(w.db, w.now, q, lease).value.Started?
    requires k.report == q.report && k.artifact == q.artifact
    ensures k !in w.objects
  {
    ReachableInv(w);
    var slots := w.db.reports[q.report].slots;
    var i := SlotOf(slots, q.artifact);
    assert KeyOk(w, k) && ReportOk(w, q.report);
    FreeWhenNotReceived(w, q.report, i);
  }

  // What may become of one artifact in one event: only the holder of its lease moves it
  // out of an upload, and a received artifact stays as it is.
  ghost predicate SlotMove(w: World, e: WorldEvent, id: ReportId, s: Slot, s': Slot) {
    || s' == s
    || (e.BeginCall? && e.q.report == id && e.q.artifact == s.art.id && s.phase != Received && !LeaseActive(s, w.now)
        && s' == s.(phase := Uploading, lease := Some(e.lease), leaseEnds := w.now + LEASE_TIME))
    || (e.AbortCall? && e.lease in w.uploads && s.phase == Uploading && s.lease == Some(e.lease)
        && s' == s.(phase := Declared, lease := None))
    || (e.CommitCall? && e.lease in w.uploads && s.phase == Uploading && s.lease == Some(e.lease)
        && s' == s.(phase := Received, lease := None, key := Some(w.uploads[e.lease].key)))
  }

  lemma BeginMoves(w: World, q: UploadRequest, lease: Lease, i: nat)
    requires q.report in w.db.reports && i < |w.db.reports[q.report].slots|
    requires BeginUpload(w.db, w.now, q, lease).Done?
    ensures var slots' := BeginUpload(w.db, w.now, q, lease).db.reports[q.report].slots;
      |slots'| == |w.db.reports[q.report].slots|
      && SlotMove(w, BeginCall(q, lease), q.report, w.db.reports[q.report].slots[i], slots'[i])
  {}

  lemma AbortMoves(w: World, lease: Lease, i: nat)
    requires Possible(w, AbortCall(lease)) && w.uploads[lease].key.report in w.db.reports
    requires i < |w.db.reports[w.uploads[lease].key.report].slots|
    requires var id := w.uploads[lease].key.report; UploadOk(w, lease) && SlotOk(w, id, w.db.reports[id].slots[i])
    ensures var id := w.uploads[lease].key.report;
      |After(w, AbortCall(lease)).db.reports[id].slots| == |w.db.reports[id].slots|
      && SlotMove(w, AbortCall(lease), id, w.db.reports[id].slots[i],
          After(w, AbortCall(lease)).db.reports[id].slots[i])
  {}

  lemma CommitMoves(w: World, lease: Lease, i: nat)
    requires Possible(w, CommitCall(lease)) && w.uploads[lease].key.report in w.db.reports
    requires i < |w.db.reports[w.uploads[lease].key.report].slots|
    requires var id := w.uploads[lease].key.report;
        UploadOk(w, lease) && forall s :: s in w.db.reports[id].slots ==> SlotOk(w, id, s)
    ensures var id := w.uploads[lease].key.report;
      |After(w, CommitCall(lease)).db.reports[id].slots| == |w.db.reports[id].slots|
      && SlotMove(w, CommitCall(lease), id, w.db.reports[id].slots[i],
          After(w, CommitCall(lease)).db.reports[id].slots[i])
  {
    var id := w.uploads[lease].key.report;
    assert w.db.reports[id].slots[i] in w.db.reports[id].slots;
  }

  function Rank(state: UploadState): nat {
    match state
    case Open => 0
    case Ready => 1
    case Expired => 2
  }

  // Calls that move no artifact leave the slots of every report and may only advance
  // its state.
  ghost predicate Advances(db: Db, db': Db, id: ReportId) {
    id in db.reports ==>
      && id in db'.reports && db'.reports[id].slots == db.reports[id].slots
      && Rank(db.reports[id].state) <= Rank(db'.reports[id].state)
  }

  lemma CreateAdvances(
      db: Db, now: Time, capacity: nat, input: CreateInput, storageOk: bool, existing: Option<ReportId>,
      denied: bool, at: ReportId, token: string, id: ReportId)
    requires (at == id ==> id !in db.reports) && (existing.Some? ==> existing.value in db.reports)
    ensures Advances(db, DbAfter(Create(db, now, capacity, input, storageOk, existing, denied, at, token), db), id)
  {}

  lemma CreateCallAdvances(w: World, e: WorldEvent, id: ReportId)
    requires Possible(w, e) && e.CreateCall? && (id in w.db.reports ==> id in w.log.declared)
    ensures Advances(w.db, After(w, e).db, id)
  {
    CreateAdvances(w.db, w.now, w.capacity, e.input, e.storageOk, e.existing, e.denied, e.id, e.token, id);
    var o := Create(w.db, w.now, w.capacity, e.input, e.storageOk, e.existing, e.denied, e.id, e.token);
    assert After(w, e).db == DbAfter(o, w.db);
  }

  lemma RecoverAdvances(db: Db, now: Time, at: ReportId, raw: string, token: string, id: ReportId)
    ensures Advances(db, DbAfter(Recover(db, now, at, raw, token), db), id)
  {}

  lemma SubmitAdvances(db: Db, now: Time, at: ReportId, raw: string, hash: string, partialOk: bool, id: ReportId)
    ensures Advances(db, DbAfter(Submit(db, now, at, raw, hash, partialOk), db), id)
  {}

  lemma OperateAdvances(
      db: Db, now: Time, at: ReportId, user: string, op: Operation, input: OperationInput, id: ReportId)
    ensures Advances(db, DbAfter(Operate(db, now, at, user, op, input), db), id)
  {}

  lemma FinishAdvances(db: Db, now: Time, key: Key, report: ReportId, deleted: bool, id: ReportId)
    ensures Advances(db, DbAfter(FinishCleanup(db, now, key, report, deleted), db), id)
  {}

  predicate MovesArtifacts(e: WorldEvent) {
    e.BeginCall? || e.AbortCall? || e.CommitCall? || e.ExpireCall?
  }

  lemma OthersAdvance(w: World, e: WorldEvent, id: ReportId)
    requires Possible(w, e) && !MovesArtifacts(e) && (id in w.db.reports ==> id in w.log.declared)
    ensures Advances(w.db, After(w, e).db, id)
  {
    match e
    case CreateCall(_, _, _, _, _, _) => CreateCallAdvances(w, e, id);
    case RecoverCall(at, raw, token) => RecoverAdvances(w.db, w.now, at, raw, token, id);
    case SubmitCall(at, raw, hash, partialOk) => SubmitAdvances(w.db, w.now, at, raw, hash, partialOk, id);
    case OperateCall(at, user, op, request) => OperateAdvances(w.db, w.now, at, user, op, request, id);
    case FinishCall(n) =>
      FinishAdvances(w.db, w.now, w.sweeps[n].key, w.sweeps[n].report, w.sweeps[n].deleted.value, id);
    case _ => OutsideCalls(w, e);
  }

  predicate IsCall(e: WorldEvent) {
    e.CreateCall? || e.RecoverCall? || e.SubmitCall? || e.OperateCall? || e.FinishCall?
  }

  // What happens outside of the transactions leaves the tables alone.
  lemma OutsideCalls(w: World, e: WorldEvent)
    requires Possible(w, e) && !MovesArtifacts(e) && !IsCall(e)
    ensures After(w, e).db == w.db
  {
    match e
    case Tick(_) =>
    case PutStep(_, _, _) =>
    case UndoStep(_, _, _) =>
    case CrashStep(_) =>
    case ListStep(_, _) =>
    case DeleteStep(_, _, _) =>
    case DropStep(_) =>
  }

  // An upload's transactions touch its own report only, and keep its state.
  ghost predicate Confined(db: Db, db': Db, at: ReportId, id: ReportId) {
    id in db.reports ==>
      && id in db'.reports && db'.reports[id].state == db.reports[id].state
      && |db'.reports[id].slots| == |db.reports[id].slots|
      && (id != at ==> db'.reports[id] == db.reports[id])
  }

  lemma BeginConfined(db: Db, now: Time, q: UploadRequest, lease: Lease, id: ReportId)
    ensures Confined(db, DbAfter(BeginUpload(db, now, q, lease), db), q.report, id)
  {}

  lemma AbortConfined(db: Db, key: Key, deleted: bool, id: ReportId)
    ensures Confined(db, DbAfter(AbortUpload(db, key, deleted), db), key.report, id)
  {}

  lemma CommitConfined(db: Db, now: Time, key: Key, quarantined: bool, id: ReportId)
    ensures Confined(db, DbAfter(CommitUpload(db, now, key, quarantined), db), key.report, id)
  {}

  lemma UploadsConfined(w: World, e: WorldEvent, id: ReportId)
    requires Possible(w, e) && (e.BeginCall? || e.AbortCall? || e.CommitCall?)
    ensures Confined(w.db, After(w, e).db, if e.BeginCall? then e.q.report else w.uploads[e.lease].key.report, id)
  {
    match e
    case BeginCall(q, lease) => BeginConfined(w.db, w.now, q, lease, id);
    case AbortCall(lease) => AbortConfined(w.db, w.uploads[lease].key, w.uploads[lease].stage.deleted, id);
    case CommitCall(lease) => CommitConfined(w.db, w.now, w.uploads[lease].key, w.uploads[lease].stage.quarantined, id);
  }

  lemma UploadSlotsMove(w: World, e: WorldEvent, id: ReportId, i: nat)
    requires Inv(w) && Possible(w, e) && (e.AbortCall? || e.CommitCall?)
    requires id in w.db.reports && i < |w.db.reports[id].slots|
    ensures Confined(w.db, After(w, e).db, w.uploads[e.lease].key.report, id)
    ensures SlotMove(w, e, id, w.db.reports[id].slots[i], After(w, e).db.reports[id].slots[i])
  {
    UploadsConfined(w, e, id);
    if w.uploads[e.lease].key.report == id {
      assert UploadOk(w, e.lease) && ReportOk(w, id) && w.db.reports[id].slots[i] in w.db.reports[id].slots;
      if e.AbortCall? {
        AbortMoves(w, e.lease, i);
      } else {
        CommitMoves(w, e.lease, i);
      }
    }
  }

  lemma SlotsMove(w: World, e: WorldEvent, id: ReportId, i: nat)
    requires Reachable(w) && Possible(w, e) && !e.ExpireCall?
    requires id in w.db.reports && i < |w.db.reports[id].slots|
    ensures id in After(w, e).db.reports && |After(w, e).db.reports[id].slots| == |w.db.reports[id].slots|
    ensures SlotMove(w, e, id, w.db.reports[id].slots[i], After(w, e).db.reports[id].slots[i])
  {
    ReachableInv(w);
    assert ReportOk(w, id);
    if e.AbortCall? || e.CommitCall? {
      UploadSlotsMove(w, e, id, i);
    } else if e.BeginCall? {
      UploadsConfined(w, e, id);
      if e.q.report == id && BeginUpload(w.db, w.now, e.q, e.lease).Done? {
        BeginMoves(w, e.q, e.lease, i);
      }
    } else {
      OthersAdvance(w, e, id);
    }
  }

  // A report's state only moves forward; an expiry leaves a report alone or empties it.
  lemma StatesMoveForward(w: World, e: WorldEvent, id: ReportId)
    requires Reachable(w) && Possible(w, e) && id in w.db.reports && id in After(w, e).db.reports
    ensures Rank(w.db.reports[id].state) <= Rank(After(w, e).db.reports[id].state)
    ensures e.ExpireCall? ==>
        After(w, e).db.reports[id] == w.db.reports[id] || After(w, e).db.reports[id].state == UploadState.Expired
  {
    ReachableInv(w);
    assert ReportOk(w, id);
    if e.ExpireCall? {
      ExpiryOutcome(w.db, e.ids, w.now, id);
    } else if !MovesArtifacts(e) {
      OthersAdvance(w, e, id);
    } else {
      UploadsConfined(w, e, id);
    }
  }

  lemma {:induction false} ExpiryOutcome(db: Db, ids: seq<ReportId>, now: Time, id: ReportId)
    requires Distinct(ids)
    ensures id in ExpireAll(db, ids, now).reports ==> id in db.reports
    ensures id in db.reports && id in ExpireAll(db, ids, now).reports ==>
        ExpireAll(db, ids, now).reports[id] == db.reports[id]
        || ExpireAll(db, ids, now).reports[id].state == UploadState.Expired
  {
    if ids != [] {
      ExpiryOutcome(db, ids[..|ids| - 1], now, id);
    }
  }

  // ---- The record of operations ----

  // Version and events of an unexpired report agree, and the events link its creation
  // to its present status.
  lemma EventsAreAChain(w: World, id: ReportId)
    requires Reachable(w) && id in w.db.reports && w.db.reports[id].state != UploadState.Expired
    ensures History(w.db.reports[id])
    ensures w.db.reports[id].resolvedAt.Some? <==> w.db.reports[id].status == Resolved
  {
    ReachableInv(w);
    assert ReportOk(w, id);
    var r := w.db.reports[id];
    if r.events != [] {
      assert Linked(r.events, |r.events| - 1);
    }
  }

  // Repeating a recorded request answers as the first time and changes nothing; the same
  // key with another request is refused.
  lemma RepeatedOperation(w: World, id: ReportId, i: nat, user: string, op: Operation, input: OperationInput)
    requires Reachable(w) && id in w.db.reports && i < |w.db.reports[id].events|
    requires Live(w.db.reports[id], w.now) && !w.db.reports[id].quarantined && w.db.reports[id].state == Ready
    requires SameRequest(w.db.reports[id].events[i], user, op, input) && input.wellFormed && input.expected >= 1
    ensures Operate(w.db, w.now, id, user, op, input)
         == if w.db.reports[id].events[i].requestHash == input.requestHash
            then Done(w.db, ResultOf(w.db.reports[id].events[i])) else RolledBack(IdempotencyConflict)
  {
    ReachableInv(w);
    assert ReportOk(w, id);
    OnlyOne(w.db.reports[id].events, i, user, op, input);
  }

  lemma {:induction false} OnlyOne(events: seq<Event>, i: nat, user: string, op: Operation, input: OperationInput)
    requires i < |events| && SameRequest(events[i], user, op, input)
    requires forall i, j :: 0 <= i < j < |events| ==> !SameRequester(events[i], events[j])
    ensures Earlier(events, user, op, input) == Some(events[i])
  {
    if i > 0 {
      assert !SameRequester(events[0], events[i]);
      OnlyOne(events[1..], i - 1, user, op, input);
    }
  }

  // ---- One report per client ----

  lemma OneReportPerClient(w: World, a: ReportId, b: ReportId)
    requires Reachable(w) && a in w.db.reports && b in w.db.reports && w.db.reports[a].client == w.db.reports[b].client
    ensures a == b
  {
    ReachableInv(w);
    assert ReportOk(w, a) && ReportOk(w, b);
  }

  // ---- Why commits must be timely ----

  const EXAMPLE_ARTIFACT :=
    M.Artifact("artifact", M.Diagnostics, "application/x-ndjson", 1, "digest", "source", 1, 0, 0, 0, true)
  const EXAMPLE_MANIFEST := M.Manifest(true, M.Basic, false, 0, 0, [EXAMPLE_ARTIFACT], [])
  const EXAMPLE_INPUT := CreateInput("client", "recovery", "request", "manifest", false, EXAMPLE_MANIFEST)
  const EXAMPLE_KEY := Key("report", "artifact", "lease")
  const EXAMPLE_REPORT := WithUploadToken(NewReport(EXAMPLE_INPUT, 1, 0), "token", 0)

  // A report for one artifact, and its upload up to the point of committing.
  ghost function ExampleCreated(limit: Time): World {
    Start(1, limit).(db := Db(map["report" := EXAMPLE_REPORT], map[]),
      log := Log(map["report" := map["artifact" := 1]], map[("report", "artifact") := EXAMPLE_ARTIFACT], map[], {},
                 map["client" := "report"]))
  }

  ghost function ExampleUploaded(limit: Time): World {
    ExampleCreated(limit).(
      db := Db(map["report" := EXAMPLE_REPORT.(slots := [EXAMPLE_LEASED])],
          map[EXAMPLE_KEY := Task("report", Compensation, 0, COMPENSATION_TIME)]),
      objects := map[EXAMPLE_KEY := Object(1, "digest")],
      uploads := map["lease" := Upload(EXAMPLE_KEY, EXAMPLE_ARTIFACT, COMPENSATION_TIME, Checked(false))],
      log := ExampleCreated(limit).log.(holder := map[("report", "artifact") := EXAMPLE_KEY], leases := {"lease"}))
  }

  lemma ExampleVerdict()
    ensures M.Verdict(EXAMPLE_MANIFEST) == Ok(1) && M.Sizes([EXAMPLE_ARTIFACT]) == map["artifact" := 1]
  {
    assert M.ArtifactOk(EXAMPLE_MANIFEST, 0);
    assert M.Sizes([]) == map[] && [EXAMPLE_ARTIFACT][..0] == [];
    TotalWith<string>(map[], "artifact", 1);
    assert M.Sizes([EXAMPLE_ARTIFACT]) == map["artifact" := 1];
    assert M.Screenshots([EXAMPLE_ARTIFACT]) == 0;
  }

  lemma ExampleCreates(limit: Time)
    ensures var e := CreateCall(EXAMPLE_INPUT, true, false, None, "report", "token");
      Possible(Start(1, limit), e) && After(Start(1, limit), e) == ExampleCreated(limit)
  {
    ExampleVerdict();
    assert Reserved(map[]) == map[];
    var slot := Slot(EXAMPLE_ARTIFACT, Declared, None, 0, None);
    assert EXAMPLE_REPORT.slots == [slot];
    assert Announced(map[], "report", []) == map[] && [slot][..0] == [];
  }

  const EXAMPLE_REQUEST := UploadRequest("report", "artifact", "token", "application/x-ndjson", "digest", 1)
  const EXAMPLE_LEASED := Slot(EXAMPLE_ARTIFACT, Uploading, Some("lease"), LEASE_TIME, None)

  lemma ExampleBegins(limit: Time)
    ensures var o := BeginUpload(ExampleCreated(limit).db, 0, EXAMPLE_REQUEST, "lease");
      o == Done(ExampleUploaded(limit).db, Started(EXAMPLE_ARTIFACT))
  {
    var slots := EXAMPLE_REPORT.slots;
    assert slots == [Slot(EXAMPLE_ARTIFACT, Declared, None, 0, None)];
    assert SlotOf(slots, "artifact") == 0;
    assert ActiveLeases(slots, 0) == 0;
    assert slots[0 := EXAMPLE_LEASED] == [EXAMPLE_LEASED];
  }

  lemma ExampleUploads(limit: Time)
    ensures var begin, put := BeginCall(EXAMPLE_REQUEST, "lease"),
        PutStep("lease", Some(Object(1, "digest")), Some(false));
      && Possible(ExampleCreated(limit), begin) && Possible(After(ExampleCreated(limit), begin), put)
      && After(After(ExampleCreated(limit), begin), put) == ExampleUploaded(limit)
  {
    ExampleBegins(limit);
    var begun := After(ExampleCreated(limit), BeginCall(EXAMPLE_REQUEST, "lease"));
    assert begun.uploads == map["lease" := Upload(EXAMPLE_KEY, EXAMPLE_ARTIFACT, COMPENSATION_TIME, Begun)];
    assert begun.log.leases == {"lease"};
  }

  // Every received artifact has its object.
  ghost predicate ReceivedStored(w: World) {
    forall id, s :: id in w.db.reports && s in w.db.reports[id].slots && s.phase == Received ==>
      s.key.Some? && s.key.value in w.objects && Fits(w.objects[s.key.value], s.art)
  }

  // Nothing in the code stops an upload from committing after its compensation task fell
  // due. Received artifacts keep their objects in all runs if and only if that does not
  // happen.
  lemma ObjectsNeedTimelyCommits(limit: Time)
    ensures (forall w :: Attainable(w, limit) ==> ReceivedStored(w)) <==> limit <= COMPENSATION_TIME
  {
    forall w | Attainable(w, limit) && limit <= COMPENSATION_TIME
      ensures ReceivedStored(w)
    {
      forall id, s | id in w.db.reports && s in w.db.reports[id].slots && s.phase == Received
        ensures s.key.Some? && s.key.value in w.objects && Fits(w.objects[s.key.value], s.art)
      {
        ReceivedArtifactsAreStored(w, id, s);
      }
    }
    if limit > COMPENSATION_TIME {
      var w := LateCommitLosesTheObject(limit);
      assert !ReceivedStored(w);
    }
  }

  // A run in which a cleanup pass comes between an upload and its commit: the artifact
  // then counts as received although its object is gone.
  lemma LateCommitLosesTheObject(limit: Time) returns (w: World)
    requires limit > COMPENSATION_TIME
    ensures Attainable(w, limit) && w.objects == map[] && "report" in w.db.reports
    ensures exists s :: s in w.db.reports["report"].slots && s.phase == Received
  {
    var swept := SweptExample(limit);
    w := CommitAfterSweep(swept);
    OneMoreEvent(swept, limit, CommitCall("lease"));
  }

  lemma CommitAfterSweep(w: World) returns (w': World)
    requires w.now == COMPENSATION_TIME < w.limit && w.objects == map[]
    requires w.db.reports == ExampleUploaded(w.limit).db.reports && w.uploads == ExampleUploaded(w.limit).uploads
    ensures Possible(w, CommitCall("lease")) && w' == After(w, CommitCall("lease"))
    ensures w'.objects == map[] && "report" in w'.db.reports
    ensures exists s :: s in w'.db.reports["report"].slots && s.phase == Received
  {
    w' := After(w, CommitCall("lease"));
    var slots := w.db.reports["report"].slots;
    assert slots == [EXAMPLE_LEASED] && HeldSlot(slots, EXAMPLE_KEY) == 0;
    var after := CommitUpload(w.db, w.now, EXAMPLE_KEY, false).db.reports["report"].slots;
    assert after[0] in after && after[0].phase == Received;
  }

  // Attainable worlds stay so with one more event.
  lemma OneMoreEvent(w: World, limit: Time, e: WorldEvent)
    requires Attainable(w, limit) && Possible(w, e)
    ensures Attainable(After(w, e), limit)
  {
    var capacity: nat, events :| IsRun(Start(capacity, limit), events) && w == Final(Start(capacity, limit), events);
    RunThen(Start(capacity, limit), events, e);
  }

  lemma {:induction false} RunThen(w: World, events: seq<WorldEvent>, e: WorldEvent)
    requires IsRun(w, events) && Possible(Final(w, events), e)
    ensures IsRun(w, events + [e]) && Final(w, events + [e]) == After(Final(w, events), e)
    decreases |events|
  {
    if events == [] {
      Step(w, e, After(w, e), []);
      assert [] + [e] == [e] + [];
    } else {
      RunThen(After(w, events[0]), events[1..], e);
      assert (events + [e])[1..] == events[1..] + [e];
    }
  }

  // What follows the example's upload is part of a run from an empty store.
  lemma UploadedExample(limit: Time, rest: seq<WorldEvent>)
    requires IsRun(ExampleUploaded(limit), rest)
    ensures Attainable(Final(ExampleUploaded(limit), rest), limit)
  {
    var create := CreateCall(EXAMPLE_INPUT, true, false, None, "report", "token");
    var begin, put := BeginCall(EXAMPLE_REQUEST, "lease"), PutStep("lease", Some(Object(1, "digest")), Some(false));
    ExampleCreates(limit);
    ExampleUploads(limit);
    Step(After(ExampleCreated(limit), begin), put, ExampleUploaded(limit), rest);
    Step(ExampleCreated(limit), begin, After(ExampleCreated(limit), begin), [put] + rest);
    Step(Start(1, limit), create, ExampleCreated(limit), [begin] + ([put] + rest));
  }

  ghost function ExampleListed(limit: Time): World {
    ExampleUploaded(limit).(now := COMPENSATION_TIME, sweeps := map[0 := Sweep(EXAMPLE_KEY, "report", None)])
  }

  ghost function ExampleDeleted(limit: Time): World {
    ExampleListed(limit).(objects := map[], sweeps := map[0 := Sweep(EXAMPLE_KEY, "report", Some(true))])
  }

  lemma ExampleLists(limit: Time, rest: seq<WorldEvent>)
    requires IsRun(ExampleListed(limit), rest)
    ensures var events := [Tick(COMPENSATION_TIME)] + ([ListStep(0, EXAMPLE_KEY)] + rest);
      IsRun(ExampleUploaded(limit), events)
          && Final(ExampleUploaded(limit), events) == Final(ExampleListed(limit), rest)
  {
    var due := ExampleUploaded(limit).(now := COMPENSATION_TIME);
    Step(due, ListStep(0, EXAMPLE_KEY), ExampleListed(limit), rest);
    Step(ExampleUploaded(limit), Tick(COMPENSATION_TIME), due, [ListStep(0, EXAMPLE_KEY)] + rest);
  }

  lemma ExampleDeletes(limit: Time)
    ensures Possible(ExampleListed(limit), DeleteStep(0, true, true))
    ensures After(ExampleListed(limit), DeleteStep(0, true, true)) == ExampleDeleted(limit)
  {}

  // The cleanup pass that comes between the upload and its commit.
  lemma SweptExample(limit: Time) returns (w: World)
    ensures Attainable(w, limit) && w.limit == limit
    ensures w.now == COMPENSATION_TIME && w.uploads == ExampleUploaded(limit).uploads && w.objects == map[]
    ensures w.db.reports == ExampleUploaded(limit).db.reports
  {
    ExampleDeletes(limit);
    w := ExampleFinishes(limit);
    var rest := [DeleteStep(0, true, true)] + ([FinishCall(0)] + []);
    Step(ExampleListed(limit), DeleteStep(0, true, true), ExampleDeleted(limit), [FinishCall(0)] + []);
    ExampleLists(limit, rest);
    UploadedExample(limit, [Tick(COMPENSATION_TIME)] + ([ListStep(0, EXAMPLE_KEY)] + rest));
  }

  lemma ExampleFinishes(limit: Time) returns (w: World)
    ensures IsRun(ExampleDeleted(limit), [FinishCall(0)] + [])
        && w == Final(ExampleDeleted(limit), [FinishCall(0)] + [])
    ensures w.limit == limit && w.now == COMPENSATION_TIME && w.uploads == ExampleUploaded(limit).uploads
        && w.objects == map[]
    ensures w.db.reports == ExampleUploaded(limit).db.reports
  {
    w := After(ExampleDeleted(limit), FinishCall(0));
    Step(ExampleDeleted(limit), FinishCall(0), w, []);
  }

  lemma Step(w: World, e: WorldEvent, w': World, rest: seq<WorldEvent>)
    requires Possible(w, e) && After(w, e) == w' && IsRun(w', rest)
    ensures IsRun(w, [e] + rest) && Final(w, [e] + rest) == Final(w', rest)
  {
    assert ([e] + rest)[1..] == rest;
  }
}
