/** Each transaction of the feedback store keeps the invariant of its world. */
module FeedbackCalls {
  import opened Common
  import opened Feedback
  import opened FeedbackWorld
  import opened FeedbackSteps
  import M = Manifest

  // ---- Creating and recovering ----

  lemma {:induction false} NoLeases(slots: seq<Slot>, now: Time)
    requires forall s :: s in slots ==> s.phase == Declared
    ensures ActiveLeases(slots, now) == 0
  {
    if slots != [] {
      assert slots[|slots| - 1] in slots;
      NoLeases(slots[..|slots| - 1], now);
    }
  }

  lemma NewReportOk(input: CreateInput, total: nat, now: Time, token: string)
    requires M.WellFormed(input.manifest) && total == Total(M.Sizes(input.manifest.artifacts))
    ensures var r, sizes := WithUploadToken(NewReport(input, total, now), token, now),
        M.Sizes(input.manifest.artifacts);
      StateOk(r, sizes, now) && forall s :: s in r.slots ==> Untouched(s, sizes)
  {
    M.AcceptedSizes(input.manifest);
    var r := WithUploadToken(NewReport(input, total, now), token, now);
    forall s | s in r.slots
      ensures Untouched(s, M.Sizes(input.manifest.artifacts))
    {
      var i :| 0 <= i < |r.slots| && r.slots[i] == s;
      assert input.manifest.artifacts[i] in input.manifest.artifacts;
    }
    NoLeases(r.slots, now);
  }

  lemma NewTokenKeeps(w: World, id: ReportId, token: string)
    requires Inv(w) && id in w.db.reports
    ensures Inv(WithReport(w, id, WithUploadToken(w.db.reports[id], token, w.now)))
  {
    assert ReportOk(w, id);
    TouchKeeps(w, id, WithUploadToken(w.db.reports[id], token, w.now));
  }

  lemma CreateKeeps(w: World, e: WorldEvent)
    requires Inv(w) && Possible(w, e) && e.CreateCall?
    ensures Inv(After(w, e))
  {
    var CreateCall(input, storageOk, denied, existing, id, token) := e;
    var o := Create(w.db, w.now, w.capacity, input, storageOk, existing, denied, id, token);
    if o.Done? && existing.Some? {
      NewTokenKeeps(w, existing.value, token);
    } else if o.Done? {
      FreshKeeps(w, input, id, token);
    }
  }

  lemma FreshKeeps(w: World, input: CreateInput, id: ReportId, token: string)
    requires Inv(w) && id !in w.log.declared && M.Verdict(input.manifest).Ok?
    requires forall i :: i in w.db.reports ==> w.db.reports[i].client != input.client
    requires M.Verdict(input.manifest).value <= w.capacity - Total(Reserved(w.db.reports))
    ensures var total := M.Verdict(input.manifest).value;
      Inv(Filed(w, id, WithUploadToken(NewReport(input, total, w.now), token, w.now),
          M.Sizes(input.manifest.artifacts)))
  {
    var sizes := M.Sizes(input.manifest.artifacts);
    NewReportOk(input, Total(sizes), w.now, token);
    FiledKeeps(w, id, WithUploadToken(NewReport(input, Total(sizes), w.now), token, w.now), sizes);
  }

  lemma RecoverKeeps(w: World, id: ReportId, raw: string, token: string)
    requires Inv(w)
    ensures Inv(w.(db := DbAfter(Recover(w.db, w.now, id, raw, token), w.db)))
  {
    if id in w.db.reports {
      NewTokenKeeps(w, id, token);
    }
  }

  // ---- Beginning an upload ----

  // A key not used before becomes the key of an artifact whose earlier keys are gone.
  ghost function KeyTaken(w: World, key: Key, art: M.Artifact): World {
    var deadline := w.now + COMPENSATION_TIME;
    w.(db := w.db.(tasks := w.db.tasks[key := Task(key.report, Compensation, 0, deadline)]),
       uploads := w.uploads[key.lease := Upload(key, art, deadline, Begun)],
       log := w.log.(
         holder := w.log.holder[(key.report, key.artifact) := key], leases := w.log.leases + {key.lease}))
  }

  ghost predicate ArtifactFree(w: World, report: ReportId, aid: ArtifactId) {
    && !PendingObject(w.db.tasks, report, aid)
    && forall k :: Stored(w.db.reports, k) && k.report == report ==> k.artifact != aid
  }

  lemma NewLeaseUnused(w: World, key: Key)
    requires Inv(w) && key.lease !in w.log.leases
    ensures key !in w.db.tasks && key !in w.objects && key.lease !in w.uploads && !Stored(w.db.reports, key)
    ensures forall n :: n in w.sweeps ==> w.sweeps[n].key != key
  {
    assert KeyOk(w, key) && UploadOk(w, key.lease) && ReportOk(w, key.report);
    if key.report in w.db.reports {
      forall s | s in w.db.reports[key.report].slots
        ensures s.key != Some(key)
      {
        assert SlotOk(w, key.report, s);
      }
    }
    forall n | n in w.sweeps
      ensures w.sweeps[n].key != key
    {
      assert SweepOk(w, n);
    }
  }

  lemma KeyTakenKeys(w: World, key: Key, art: M.Artifact, k: Key)
    requires KeyOk(w, k) && ArtifactFree(w, key.report, key.artifact) && !Stored(w.db.reports, key)
    requires key.report in w.db.reports && w.db.reports[key.report].reserved > 0 && key !in w.objects
    ensures KeyOk(KeyTaken(w, key, art), k)
  {
    if k in w.db.tasks && k != key {
      assert !(k.report == key.report && k.artifact == key.artifact);
    }
  }

  lemma KeyTakenAround(w: World, key: Key, art: M.Artifact, l: Lease, n: nat)
    requires UploadOk(w, l) && SweepOk(w, n) && key.lease !in w.log.leases && !Stored(w.db.reports, key)
        && key !in w.db.tasks
    requires n in w.sweeps ==> w.sweeps[n].key != key
    requires key.report in w.log.declared && key.artifact in w.log.declared[key.report]
    requires w.log.declared[key.report][key.artifact] == art.size
    requires (key.report, key.artifact) in w.log.announced && w.log.announced[(key.report, key.artifact)] == art
    ensures UploadOk(KeyTaken(w, key, art), l) && SweepOk(KeyTaken(w, key, art), n)
  {}

  lemma KeyTakenKeeps(w: World, key: Key, art: M.Artifact)
    requires Inv(w) && key.lease !in w.log.leases && ArtifactFree(w, key.report, key.artifact)
    requires key.report in w.db.reports && w.db.reports[key.report].reserved > 0
    requires key.report in w.log.declared && key.artifact in w.log.declared[key.report]
    requires w.log.declared[key.report][key.artifact] == art.size
    requires (key.report, key.artifact) in w.log.announced && w.log.announced[(key.report, key.artifact)] == art
    ensures Inv(KeyTaken(w, key, art))
  {
    var w' := KeyTaken(w, key, art);
    NewLeaseUnused(w, key);
    forall k
      ensures KeyOk(w', k)
    {
      assert KeyOk(w, k);
      KeyTakenKeys(w, key, art, k);
    }
    forall id
      ensures ReportOk(w', id)
    {
      assert ReportOk(w, id);
      if id in w.db.reports {
        forall s | s in w.db.reports[id].slots && s.key.Some?
          ensures SameKey(w, w', s.key.value)
        {
          assert SlotOk(w, id, s);
          assert Stored(w.db.reports, s.key.value);
        }
      }
      ReportFrame(w, w', id);
    }
    forall l
      ensures UploadOk(w', l)
    {
      assert UploadOk(w, l) && SweepOk(w, 0);
      KeyTakenAround(w, key, art, l, 0);
    }
    forall n
      ensures SweepOk(w', n)
    {
      assert UploadOk(w, "") && SweepOk(w, n);
      KeyTakenAround(w, key, art, "", n);
    }
  }

  lemma {:induction false} LeasesWithOneMore(slots: seq<Slot>, i: nat, s: Slot, now: Time)
    requires i < |slots|
    ensures ActiveLeases(slots[i := s], now)
        == ActiveLeases(slots, now) - (if LeaseActive(slots[i], now) then 1 else 0) + (if LeaseActive(s, now) then 1
            else 0)
  {
    var last := |slots| - 1;
    if i < last {
      assert slots[i := s][..last] == slots[..last][i := s];
      LeasesWithOneMore(slots[..last], i, s, now);
    } else {
      assert slots[i := s][..last] == slots[..last];
    }
  }

  // An artifact not yet received and without a cleanup task has no key at all.
  lemma FreeWhenNotReceived(w: World, id: ReportId, i: nat)
    requires ReportOk(w, id) && id in w.db.reports && i < |w.db.reports[id].slots|
    requires w.db.reports[id].slots[i].phase != Received
    requires !PendingObject(w.db.tasks, id, w.db.reports[id].slots[i].art.id)
    ensures ArtifactFree(w, id, w.db.reports[id].slots[i].art.id)
  {
    var slots := w.db.reports[id].slots;
    forall k | Stored(w.db.reports, k) && k.report == id
      ensures k.artifact != slots[i].art.id
    {
      var s :| s in slots && s.key == Some(k);
      assert SlotOk(w, id, s);
      var j :| 0 <= j < |slots| && slots[j] == s;
      assert SlotOk(w, id, slots[i]);
    }
  }

  // The lease is noted in the artifact's slot.
  lemma LeasedKeeps(w: World, id: ReportId, i: nat, lease: Lease)
    requires Inv(w) && id in w.db.reports && w.db.reports[id].state == Open && i < |w.db.reports[id].slots|
    requires w.db.reports[id].slots[i].phase != Received && lease in w.log.leases
    requires !LeaseActive(w.db.reports[id].slots[i], w.now) && ActiveLeases(w.db.reports[id].slots, w.now) < MAX_UPLOADS
    ensures var slots := w.db.reports[id].slots;
      Inv(Reslotted(w, id,
          slots[i := slots[i].(phase := Uploading, lease := Some(lease), leaseEnds := w.now + LEASE_TIME)]))
  {
    var slots := w.db.reports[id].slots;
    var s := slots[i].(phase := Uploading, lease := Some(lease), leaseEnds := w.now + LEASE_TIME);
    LeasesWithOneMore(slots, i, s, w.now);
    assert ReportOk(w, id) && slots[i] in slots && SlotOk(w, id, slots[i]);
    forall t | t in slots[i := s]
      ensures SlotOk(w, id, t)
    {
      assert t in slots ==> SlotOk(w, id, t);
    }
    ReslottedKeeps(w, id, slots[i := s]);
  }

  // Starting an upload takes its key and leases the artifact's slot.
  lemma BeginIs(w: World, q: UploadRequest, lease: Lease) returns (i: nat, art: M.Artifact)
    requires BeginUpload(w.db, w.now, q, lease).Done? && BeginUpload(w.db, w.now, q, lease).value.Started?
    ensures q.report in w.db.reports && i < |w.db.reports[q.report].slots|
    ensures var slots, key := w.db.reports[q.report].slots, Key(q.report, q.artifact, lease);
      && w.db.reports[q.report].state == Open && slots[i].art == art && art.id == q.artifact
      && slots[i].phase != Received
      && !PendingObject(w.db.tasks, q.report, q.artifact)
      && !LeaseActive(slots[i], w.now) && ActiveLeases(slots, w.now) < MAX_UPLOADS
      && AfterBegin(w, q, lease) == Reslotted(KeyTaken(w, key, art), q.report,
           slots[i := slots[i].(phase := Uploading, lease := Some(lease), leaseEnds := w.now + LEASE_TIME)])
  {
    i := SlotOf(w.db.reports[q.report].slots, q.artifact);
    art := w.db.reports[q.report].slots[i].art;
  }

  lemma BeginKeeps(w: World, q: UploadRequest, lease: Lease)
    requires Inv(w) && lease !in w.log.leases
    ensures Inv(AfterBegin(w, q, lease))
  {
    var o := BeginUpload(w.db, w.now, q, lease);
    if o.Done? && o.value.Started? {
      var i, art := BeginIs(w, q, lease);
      var r, key := w.db.reports[q.report], Key(q.report, q.artifact, lease);
      assert ReportOk(w, q.report) && r.slots[i] in r.slots && SlotOk(w, q.report, r.slots[i]);
      FreeWhenNotReceived(w, q.report, i);
      KeyTakenKeeps(w, key, art);
      LeasedKeeps(KeyTaken(w, key, art), q.report, i, lease);
    } else {
      MoreLeasesKeep(w, lease);
    }
  }

  lemma MoreLeasesKeep(w: World, lease: Lease)
    requires Inv(w)
    ensures Inv(w.(log := w.log.(leases := w.log.leases + {lease})))
  {
    var w' := w.(log := w.log.(leases := w.log.leases + {lease}));
    forall k
      ensures KeyOk(w', k)
    {
      assert KeyOk(w, k);
    }
    forall id
      ensures ReportOk(w', id)
    {
      assert ReportOk(w, id);
      ReportFrame(w, w', id);
    }
    forall l
      ensures UploadOk(w', l)
    {
      assert UploadOk(w, l);
    }
    forall n
      ensures SweepOk(w', n)
    {
      assert SweepOk(w, n);
    }
  }

  // ---- Storing and giving up an object ----

  lemma PutKeeps(w: World, e: WorldEvent)
    requires Inv(w) && Possible(w, e) && e.PutStep?
    ensures Inv(After(w, e))
  {
    var PutStep(lease, stored, verdict) := e;
    var stage := if verdict.Some? then Checked(verdict.value) else Broken;
    if stored.Some? {
      AddObjectKeeps(w, lease, stored.value);
      StageKeeps(WithObject(w, w.uploads[lease].key, stored.value), lease, stage);
    } else {
      StageKeeps(w, lease, stage);
    }
  }

  lemma UndoKeeps(w: World, e: WorldEvent)
    requires Inv(w) && Possible(w, e) && e.UndoStep?
    ensures Inv(After(w, e))
  {
    var UndoStep(lease, removed, reported) := e;
    var key := w.uploads[lease].key;
    assert UploadOk(w, lease);
    if removed {
      RemoveObjectKeeps(w, key);
    }
    StageKeeps(WithoutObject(w, key, removed), lease, Undone(reported));
  }

  lemma {:induction false} ReleasingLeases(slots: seq<Slot>, key: Key, now: Time)
    ensures ActiveLeases(Released(slots, key), now) <= ActiveLeases(slots, now)
  {
    if slots != [] {
      var last := |slots| - 1;
      assert Released(slots, key)[..last] == Released(slots[..last], key);
      ReleasingLeases(slots[..last], key, now);
    }
  }

  lemma ReleasedKeeps(w: World, key: Key)
    requires Inv(w) && key.report in w.db.reports && w.db.reports[key.report].state != Ready
    ensures Inv(Reslotted(w, key.report, Released(w.db.reports[key.report].slots, key)))
  {
    var r := w.db.reports[key.report];
    assert ReportOk(w, key.report);
    if r.state == Expired {
      assert Released(r.slots, key) == r.slots;
      TouchKeeps(w, key.report, r);
    } else {
      ReleasingLeases(r.slots, key, w.now);
      forall s | s in Released(r.slots, key)
        ensures SlotOk(w, key.report, s)
      {
        var i :| 0 <= i < |r.slots| && Released(r.slots, key)[i] == s;
        assert SlotOk(w, key.report, r.slots[i]);
      }
      ReslottedKeeps(w, key.report, Released(r.slots, key));
    }
  }

  // A report that is ready holds no lease.
  lemma NothingToRelease(w: World, key: Key)
    requires ReportOk(w, key.report) && key.report in w.db.reports && w.db.reports[key.report].state == Ready
    ensures Released(w.db.reports[key.report].slots, key) == w.db.reports[key.report].slots
  {
    var slots := w.db.reports[key.report].slots;
    forall i | 0 <= i < |slots|
      ensures !Holds(slots[i], key)
    {
      assert slots[i] in slots && SlotOk(w, key.report, slots[i]);
    }
  }

  lemma AbortedKeeps(w: World, key: Key)
    requires Inv(w) && key.report in w.db.reports
    ensures Inv(Reslotted(w, key.report, Released(w.db.reports[key.report].slots, key)))
  {
    var r := w.db.reports[key.report];
    assert ReportOk(w, key.report);
    if r.state == Ready {
      NothingToRelease(w, key);
      TouchKeeps(w, key.report, r);
    } else {
      ReleasedKeeps(w, key);
    }
  }

  lemma AbortKeeps(w: World, lease: Lease)
    requires Inv(w) && lease in w.uploads && w.uploads[lease].stage.Undone?
    ensures Inv(After(w, AbortCall(lease)))
  {
    var u := w.uploads[lease];
    var w1 := Ended(w, lease);
    assert UploadOk(w, lease);
    EndedKeeps(w, lease);
    if u.key.report in w.db.reports {
      var w2 := Reslotted(w1, u.key.report, Released(w1.db.reports[u.key.report].slots, u.key));
      AbortedKeeps(w1, u.key);
      if u.stage.deleted {
        TasksKeep(w2, u.key, w2.db.tasks - {u.key});
      }
    }
  }

  // ---- Committing ----

  // The object of a finished upload becomes that of its artifact.
  ghost function Kept(w: World, i: nat, key: Key, quarantined: bool): World
    requires key.report in w.db.reports && i < |w.db.reports[key.report].slots|
  {
    var r := w.db.reports[key.report];
    var s := r.slots[i].(phase := Received, key := Some(key), lease := None);
    w.(db := Db(w.db.reports[key.report := r.(slots := r.slots[i := s], quarantined := r.quarantined || quarantined)],
                w.db.tasks - {key}))
  }

  ghost predicate ReadyToKeep(w: World, i: nat, key: Key) {
    && key in w.db.tasks && key.report in w.db.reports
    && var r := w.db.reports[key.report];
    && r.state == Open && i < |r.slots| && Holds(r.slots[i], key)
    && key in w.objects && Fits(w.objects[key], r.slots[i].art)
    && (forall l :: l in w.uploads ==> w.uploads[l].key != key)
    && (forall n :: n in w.sweeps ==> w.sweeps[n].key != key)
  }

  lemma KeptStored(w: World, i: nat, key: Key, q: bool, k: Key)
    requires ReadyToKeep(w, i, key) && ReportOk(w, key.report)
    ensures Stored(Kept(w, i, key, q).db.reports, k) == (Stored(w.db.reports, k) || k == key)
  {
    var before, after := w.db.reports[key.report].slots, Kept(w, i, key, q).db.reports[key.report].slots;
    assert before[i] in before && SlotOk(w, key.report, before[i]);
    assert after[i] in after && after[i].key == Some(key);
    if k.report == key.report && k != key {
      if s :| s in before && s.key == Some(k) {
        var j :| 0 <= j < |before| && before[j] == s;
        assert j != i && after[j] == s && after[j] in after;
      }
      if s :| s in after && s.key == Some(k) {
        var j :| 0 <= j < |after| && after[j] == s;
        assert j != i && before[j] == s && before[j] in before;
      }
    }
  }

  lemma KeptReport(w: World, i: nat, key: Key, q: bool)
    requires ReadyToKeep(w, i, key) && ReportOk(w, key.report) && KeyOk(w, key)
    ensures ReportOk(Kept(w, i, key, q), key.report)
  {
    var w' := Kept(w, i, key, q);
    var r, r' := w.db.reports[key.report], w'.db.reports[key.report];
    assert r.slots[i] in r.slots && SlotOk(w, key.report, r.slots[i]);
    LeasesWithOneMore(r.slots, i, r'.slots[i], w.now);
    ReslottedState(r, r'.slots, w.log.declared[key.report], w.now);
    assert StateOk(r', w.log.declared[key.report], w.now) by {
      assert History(r.(slots := r'.slots));
    }
    forall s | s in r'.slots
      ensures SlotOk(w', key.report, s)
    {
      assert s in r.slots ==> SlotOk(w, key.report, s);
    }
  }

  lemma KeptKeys(w: World, i: nat, key: Key, q: bool)
    requires KeysOk(w) && ReadyToKeep(w, i, key) && ReportOk(w, key.report)
    ensures KeysOk(Kept(w, i, key, q))
  {
    forall k
      ensures KeyOk(Kept(w, i, key, q), k)
    {
      assert KeyOk(w, k);
      KeptStored(w, i, key, q, k);
    }
  }

  lemma KeptAround(w: World, i: nat, key: Key, q: bool)
    requires AroundOk(w) && ReadyToKeep(w, i, key) && ReportOk(w, key.report)
    ensures AroundOk(Kept(w, i, key, q))
  {
    forall l
      ensures UploadOk(Kept(w, i, key, q), l)
    {
      assert UploadOk(w, l);
      if l in w.uploads {
        KeptStored(w, i, key, q, w.uploads[l].key);
      }
    }
    forall n
      ensures SweepOk(Kept(w, i, key, q), n)
    {
      assert SweepOk(w, n);
      if n in w.sweeps {
        KeptStored(w, i, key, q, w.sweeps[n].key);
      }
    }
  }

  lemma KeptReports(w: World, i: nat, key: Key, q: bool)
    requires KeysOk(w) && ReportsOk(w) && ReadyToKeep(w, i, key)
    ensures ReportsOk(Kept(w, i, key, q))
  {
    assert KeyOk(w, key);
    forall id
      ensures ReportOk(Kept(w, i, key, q), id)
    {
      assert ReportOk(w, id);
      if id == key.report {
        KeptReport(w, i, key, q);
      } else {
        ReportFrame(w, Kept(w, i, key, q), id);
      }
    }
  }

  lemma KeptKeeps(w: World, i: nat, key: Key, q: bool)
    requires Inv(w) && ReadyToKeep(w, i, key)
    ensures Inv(Kept(w, i, key, q))
  {
    var w' := Kept(w, i, key, q);
    assert ReportOk(w, key.report);
    KeptKeys(w, i, key, q);
    KeptReports(w, i, key, q);
    KeptAround(w, i, key, q);
    assert Reserved(w'.db.reports) == Reserved(w.db.reports);
  }

  lemma CommitKeeps(w: World, lease: Lease)
    requires Inv(w) && Possible(w, CommitCall(lease))
    ensures Inv(After(w, CommitCall(lease)))
  {
    var u := w.uploads[lease];
    var w1 := Ended(w, lease);
    assert UploadOk(w, lease);
    EndedKeeps(w, lease);
    var o := CommitUpload(w.db, w.now, u.key, u.stage.quarantined);
    if o.Done? {
      var r := w.db.reports[u.key.report];
      var i := HeldSlot(r.slots, u.key);
      forall l | l in w1.uploads
        ensures w1.uploads[l].key != u.key
      {
        assert UploadOk(w, l);
      }
      forall n | n in w1.sweeps
        ensures w1.sweeps[n].key != u.key
      {
        assert SweepOk(w, n);
      }
      assert ReportOk(w, u.key.report) && r.slots[i] in r.slots && SlotOk(w, u.key.report, r.slots[i]);
      KeptKeeps(w1, i, u.key, u.stage.quarantined);
    }
  }

  // ---- Submitting and operating ----

  lemma SubmitKeeps(w: World, id: ReportId, raw: string, hash: string, partialOk: bool)
    requires Inv(w)
    ensures Inv(w.(db := DbAfter(Submit(w.db, w.now, id, raw, hash, partialOk), w.db)))
  {
    var o := Submit(w.db, w.now, id, raw, hash, partialOk);
    if o.Done? {
      assert ReportOk(w, id);
      assert w.db.reports[id := w.db.reports[id]] == w.db.reports;
      var r' := o.db.reports[id];
      assert History(r') by {
        assert History(w.db.reports[id]);
      }
      TouchKeeps(w, id, r');
    }
  }

  lemma {:induction false} EarlierNone(events: seq<Event>, user: string, op: Operation, input: OperationInput)
    requires Earlier(events, user, op, input).None?
    ensures forall e :: e in events ==> !SameRequest(e, user, op, input)
  {
    if events != [] {
      EarlierNone(events[1..], user, op, input);
    }
  }

  lemma ChainAppend(events: seq<Event>, e: Event)
    requires Chain(events) && e.versionBefore == |events| + 1 && e.versionAfter == |events| + 2
    requires e.before == StatusAfter(events) && Allowed(e.operation, e.before) && e.after == Reached(e.operation)
    requires forall f :: f in events ==> !SameRequester(f, e)
    ensures Chain(events + [e])
  {
    var all := events + [e];
    forall i | 0 <= i < |all|
      ensures Linked(all, i)
    {
      assert all[..i] == events[..i];
      assert events[..|events|] == events;
      if i < |events| {
        assert Linked(events, i);
      }
    }
    forall i, j | 0 <= i < j < |all|
      ensures !SameRequester(all[i], all[j])
    {
      assert all[i] in events;
    }
  }

  lemma OperatedHistory(db: Db, now: Time, id: ReportId, user: string, op: Operation, input: OperationInput)
    requires id in db.reports && History(db.reports[id])
    requires Operate(db, now, id, user, op, input).Done?
    ensures History(Operate(db, now, id, user, op, input).db.reports[id])
  {
    var r := db.reports[id];
    var o := Operate(db, now, id, user, op, input);
    if o.db != db {
      EarlierNone(r.events, user, op, input);
      var e := o.db.reports[id].events[|r.events|];
      assert o.db.reports[id].events == r.events + [e];
      ChainAppend(r.events, e);
    }
  }

  lemma OperateKeeps(w: World, id: ReportId, user: string, op: Operation, input: OperationInput)
    requires Inv(w)
    ensures Inv(w.(db := DbAfter(Operate(w.db, w.now, id, user, op, input), w.db)))
  {
    var o := Operate(w.db, w.now, id, user, op, input);
    if o.Done? {
      assert ReportOk(w, id);
      OperatedHistory(w.db, w.now, id, user, op, input);
      if o.db != w.db {
        TouchKeeps(w, id, o.db.reports[id]);
      }
    }
  }

  // ---- Expiry ----

  lemma {:induction false} TasksAdded(tasks: map<Key, Task>, id: ReportId, slots: seq<Slot>, now: Time)
    ensures forall k :: k in tasks ==>
        k in AddTasks(tasks, id, slots, now) && AddTasks(tasks, id, slots, now)[k] == tasks[k]
    ensures forall s :: s in slots && s.key.Some? ==> s.key.value in AddTasks(tasks, id, slots, now)
    ensures forall k :: k in AddTasks(tasks, id, slots, now) && k !in tasks ==>
        AddTasks(tasks, id, slots, now)[k].report == id && exists s :: s in slots && s.key == Some(k)
  {
    if slots != [] {
      var last := |slots| - 1;
      TasksAdded(tasks, id, slots[..last], now);
      assert slots == slots[..last] + [slots[last]];
    }
  }

  ghost function ExpiredWorld(w: World, id: ReportId): World
    requires id in w.db.reports
  {
    w.(db := ExpireOne(w.db, id, w.now))
  }

  // An expiring report stores no key any more, and every key it stored has a task.
  lemma ExpiredStored(w: World, id: ReportId, k: Key)
    requires id in w.db.reports && ReportOk(w, id) && IsExpired(w.db.reports[id], w.now)
    ensures Stored(ExpiredWorld(w, id).db.reports, k) <==> Stored(w.db.reports, k) && k.report != id
  {
    assert w.db.reports[id].state == UploadState.Expired ==> w.db.reports[id].slots == [];
  }

  lemma ExpiredTasks(w: World, id: ReportId, k: Key)
    requires id in w.db.reports && ReportOk(w, id) && IsExpired(w.db.reports[id], w.now)
    ensures var tasks, tasks' := w.db.tasks, ExpiredWorld(w, id).db.tasks;
      && (k in tasks ==> k in tasks' && tasks'[k] == tasks[k])
      && (k in tasks' && k !in tasks ==> tasks'[k].report == id && k.report == id && Stored(w.db.reports, k))
      && (Stored(w.db.reports, k) && k.report == id ==> k in tasks')
  {
    var r := w.db.reports[id];
    if r.state != UploadState.Expired {
      TasksAdded(w.db.tasks, id, r.slots, w.now);
      forall s | s in r.slots
        ensures s.key.Some? ==> s.key.value.report == id
      {
        assert SlotOk(w, id, s);
      }
    }
  }

  lemma ExpiredKey(w: World, id: ReportId, k: Key)
    requires ReportOk(w, id) && KeyOk(w, k) && id in w.db.reports && IsExpired(w.db.reports[id], w.now)
    ensures KeyOk(ExpiredWorld(w, id), k)
    ensures Stored(ExpiredWorld(w, id).db.reports, k) ==> Stored(w.db.reports, k)
  {
    ExpiredStored(w, id, k);
    ExpiredTasks(w, id, k);
    if Stored(w.db.reports, k) && k.report == id {
      StoredIsLatest(w, k);
    }
    ReservedWhileTasks(w, id, k);
  }

  // A key that a report stores is its artifact's latest.
  lemma StoredIsLatest(w: World, k: Key)
    requires ReportOk(w, k.report) && Stored(w.db.reports, k)
    ensures k.lease in w.log.leases && (k.report, k.artifact) in w.log.holder
        && w.log.holder[(k.report, k.artifact)] == k
  {
    var s :| s in w.db.reports[k.report].slots && s.key == Some(k);
    assert SlotOk(w, k.report, s);
  }

  // A report with a task left keeps its reservation as it expires.
  lemma ReservedWhileTasks(w: World, id: ReportId, k: Key)
    requires id in w.db.reports && ReportOk(w, id) && KeyOk(w, k) && IsExpired(w.db.reports[id], w.now)
    ensures var db := ExpiredWorld(w, id).db;
      k in db.tasks && db.tasks[k].report == k.report ==> k.report in db.reports && db.reports[k.report].reserved > 0
  {
    ExpiredTasks(w, id, k);
  }

  lemma ExpiredKeys(w: World, id: ReportId)
    requires KeysOk(w) && ReportOk(w, id) && id in w.db.reports && IsExpired(w.db.reports[id], w.now)
    ensures KeysOk(ExpiredWorld(w, id))
    ensures forall k :: Stored(ExpiredWorld(w, id).db.reports, k) ==> Stored(w.db.reports, k)
  {
    forall k
      ensures KeyOk(ExpiredWorld(w, id), k)
      ensures Stored(ExpiredWorld(w, id).db.reports, k) ==> Stored(w.db.reports, k)
    {
      assert KeyOk(w, k);
      ExpiredKey(w, id, k);
    }
  }

  lemma ExpiredAround(w: World, id: ReportId)
    requires AroundOk(w) && id in w.db.reports
    requires forall k :: Stored(ExpiredWorld(w, id).db.reports, k) ==> Stored(w.db.reports, k)
    ensures AroundOk(ExpiredWorld(w, id))
  {
    TasksAdded(w.db.tasks, id, w.db.reports[id].slots, w.now);
    forall l
      ensures UploadOk(ExpiredWorld(w, id), l)
    {
      assert UploadOk(w, l);
    }
    forall n
      ensures SweepOk(ExpiredWorld(w, id), n)
    {
      assert SweepOk(w, n);
    }
  }

  lemma ExpiredKeeps(w: World, id: ReportId)
    requires Inv(w) && id in w.db.reports && IsExpired(w.db.reports[id], w.now)
    ensures Inv(ExpiredWorld(w, id))
  {
    var w' := ExpiredWorld(w, id);
    assert ReportOk(w, id);
    ExpiredKeys(w, id);
    ExpiredAround(w, id);
    forall i
      ensures ReportOk(w', i)
    {
      assert ReportOk(w, i);
      ExpiredReport(w, id, i);
    }
    TotalMonotone(Reserved(w'.db.reports), Reserved(w.db.reports));
  }

  lemma ExpiredReport(w: World, id: ReportId, i: ReportId)
    requires ReportOk(w, id) && ReportOk(w, i) && id in w.db.reports && IsExpired(w.db.reports[id], w.now)
    requires forall k :: KeyOk(ExpiredWorld(w, id), k)
    ensures ReportOk(ExpiredWorld(w, id), i)
  {
    if i != id {
      ReportFrame(w, ExpiredWorld(w, id), i);
    }
  }

  lemma {:induction false} ExpiryLeavesOthers(db: Db, ids: seq<ReportId>, now: Time, id: ReportId)
    requires id !in ids
    ensures id in ExpireAll(db, ids, now).reports <==> id in db.reports
    ensures id in db.reports ==> ExpireAll(db, ids, now).reports[id] == db.reports[id]
  {
    if ids != [] {
      assert ids[|ids| - 1] in ids;
      ExpiryLeavesOthers(db, ids[..|ids| - 1], now, id);
    }
  }

  lemma {:induction false} ExpireKeeps(w: World, ids: seq<ReportId>)
    requires Inv(w) && Distinct(ids)
    requires forall id :: id in ids ==> id in w.db.reports && IsExpired(w.db.reports[id], w.now)
    ensures Inv(w.(db := ExpireAll(w.db, ids, w.now)))
    decreases |ids|
  {
    if ids != [] {
      var before, id := ids[..|ids| - 1], ids[|ids| - 1];
      assert id in ids && forall i :: i in before ==> i in ids;
      ExpireKeeps(w, before);
      ExpiryLeavesOthers(w.db, before, w.now, id);
      ExpiredKeeps(w.(db := ExpireAll(w.db, before, w.now)), id);
    }
  }

  // ---- Finishing a cleanup task ----

  lemma DeleteKeeps(w: World, n: nat, removed: bool, reported: bool)
    requires Inv(w) && Possible(w, DeleteStep(n, removed, reported))
    ensures Inv(After(w, DeleteStep(n, removed, reported)))
  {
    var key := w.sweeps[n].key;
    assert SweepOk(w, n);
    if removed {
      RemoveObjectKeeps(w, key);
    }
    SweptKeeps(WithoutObject(w, key, removed), n, w.sweeps[n].(deleted := Some(reported)));
  }

  // The reservation of an expired report without tasks is given up.
  lemma ReleaseKeeps(w: World, id: ReportId)
    requires Inv(w) && id in w.db.reports && w.db.reports[id].state == UploadState.Expired
        && !PendingCleanup(w.db.tasks, id)
    ensures Inv(WithReport(w, id, w.db.reports[id].(reserved := 0)))
  {
    var r' := w.db.reports[id].(reserved := 0);
    var w' := WithReport(w, id, r');
    forall k
      ensures KeyOk(w', k) && Stored(w'.db.reports, k) == Stored(w.db.reports, k)
    {
      assert KeyOk(w, k);
      SameStored(w.db.reports, id, r', k);
    }
    forall i
      ensures ReportOk(w', i)
    {
      assert ReportOk(w, i);
      if i != id {
        ReportFrame(w, w', i);
      }
    }
    AroundFrame(w, w');
    TotalMonotone(Reserved(w'.db.reports), Reserved(w.db.reports));
  }

  // What finishing a cleanup task does to the tasks, and whether it releases the report.
  ghost function TasksFinished(db: Db, now: Time, key: Key, deleted: bool): map<Key, Task> {
    if deleted then db.tasks - {key}
    else if key in db.tasks
      then db.tasks[key := db.tasks[key].(attempts := db.tasks[key].attempts + 1, next := now + MINUTE)]
    else db.tasks
  }

  lemma FinishIs(db: Db, now: Time, key: Key, report: ReportId, deleted: bool)
    ensures var o, tasks := FinishCleanup(db, now, key, report, deleted), TasksFinished(db, now, key, deleted);
      || DbAfter(o, db) == db
      || DbAfter(o, db) == db.(tasks := tasks)
      || (report in db.reports && db.reports[report].state == UploadState.Expired && !PendingCleanup(tasks, report)
          && DbAfter(o, db) == Db(db.reports[report := db.reports[report].(reserved := 0)], tasks))
  {}

  lemma FinishedTasksKeep(w: World, n: nat)
    requires Inv(w) && n in w.sweeps && w.sweeps[n].deleted.Some?
    ensures var w1 := w.(sweeps := w.sweeps - {n});
      Inv(w1) && Inv(WithTasks(w1, TasksFinished(w.db, w.now, w.sweeps[n].key, w.sweeps[n].deleted.value)))
  {
    var s, w1 := w.sweeps[n], w.(sweeps := w.sweeps - {n});
    assert SweepOk(w, n) && KeyOk(w, s.key);
    SweptKeeps(w, n, s);
    TasksKeep(w1, s.key, TasksFinished(w.db, w.now, s.key, s.deleted.value));
  }

  lemma FinishKeeps(w: World, n: nat)
    requires Inv(w) && n in w.sweeps && w.sweeps[n].deleted.Some?
    ensures Inv(After(w, FinishCall(n)))
  {
    var s, w1 := w.sweeps[n], w.(sweeps := w.sweeps - {n});
    var tasks := TasksFinished(w.db, w.now, s.key, s.deleted.value);
    FinishedTasksKeep(w, n);
    FinishIs(w.db, w.now, s.key, s.report, s.deleted.value);
    if s.report in w.db.reports && w.db.reports[s.report].state == UploadState.Expired
        && !PendingCleanup(tasks, s.report) {
      ReleaseKeeps(WithTasks(w1, tasks), s.report);
    }
  }

  // ---- Any event, any run ----

  lemma EventKeeps(w: World, e: WorldEvent)
    requires Inv(w) && Possible(w, e)
    ensures Inv(After(w, e))
  {
    match e
    case Tick(to) => TickKeeps(w, to);
    case CreateCall(_, _, _, _, _, _) => CreateKeeps(w, e);
    case RecoverCall(id, raw, token) => RecoverKeeps(w, id, raw, token);
    case BeginCall(q, lease) => BeginKeeps(w, q, lease);
    case PutStep(_, _, _) => PutKeeps(w, e);
    case UndoStep(_, _, _) => UndoKeeps(w, e);
    case AbortCall(lease) => AbortKeeps(w, lease);
    case CommitCall(lease) => CommitKeeps(w, lease);
    case CrashStep(lease) => EndedKeeps(w, lease);
    case SubmitCall(id, raw, hash, partialOk) => SubmitKeeps(w, id, raw, hash, partialOk);
    case OperateCall(id, user, op, request) => OperateKeeps(w, id, user, op, request);
    case ExpireCall(ids) => ExpireKeeps(w, ids);
    case ListStep(n, key) => ListKeeps(w, n, key);
    case DeleteStep(n, removed, reported) => DeleteKeeps(w, n, removed, reported);
    case FinishCall(n) => FinishKeeps(w, n);
    case DropStep(n) => DropKeeps(w, n);
  }

  lemma DropKeeps(w: World, n: nat)
    requires Inv(w) && n in w.sweeps
    ensures Inv(w.(sweeps := w.sweeps - {n}))
  {
    assert SweepOk(w, n) && Swept(w, n, w.sweeps[n]) == w;
    SweptKeeps(w, n, w.sweeps[n]);
  }

  lemma {:induction false} RunKeeps(w: World, events: seq<WorldEvent>)
    requires Inv(w) && IsRun(w, events)
    ensures Inv(Final(w, events))
    decreases |events|
  {
    if events != [] {
      EventKeeps(w, events[0]);
      RunKeeps(After(w, events[0]), events[1..]);
    }
  }
}
