/** Each event of the feedback world keeps its invariant. Most events are one of a few
    small changes to the world; each change is treated on its own. */
module FeedbackSteps {
  import opened Common
  import opened Feedback
  import opened FeedbackWorld
  import M = Manifest

  // ---- Time ----

  lemma {:induction false} LeasesOnlyRunOut(slots: seq<Slot>, now: Time, later: Time)
    requires now <= later
    ensures ActiveLeases(slots, later) <= ActiveLeases(slots, now)
  {
    if slots != [] {
      LeasesOnlyRunOut(slots[..|slots| - 1], now, later);
    }
  }

  lemma TickKeeps(w: World, to: Time)
    requires Inv(w) && w.now <= to
    ensures Inv(w.(now := to))
  {
    var w' := w.(now := to);
    forall k
      ensures KeyOk(w', k)
    {
      assert KeyOk(w, k);
    }
    forall id
      ensures ReportOk(w', id)
    {
      assert ReportOk(w, id);
      if id in w.db.reports {
        LeasesOnlyRunOut(w.db.reports[id].slots, w.now, to);
        forall s | s in w.db.reports[id].slots
          ensures SlotOk(w', id, s)
        {
          assert SlotOk(w, id, s);
        }
      }
    }
    forall l
      ensures UploadOk(w', l)
    {
      assert UploadOk(w, l);
    }
    forall n
      ensures SweepOk(w', n)
    {
      assert SweepOk(w, n);
    }
  }

  // ---- What a change leaves alone ----

  // Everything a report's consistency rests on is as before.
  ghost predicate SameFor(w: World, w': World, id: ReportId) {
    id in w'.db.reports ==>
      && id in w.db.reports && w'.db.reports[id] == w.db.reports[id] && w'.now == w.now
      && SameHistory(w, w')
      && (var c := w.db.reports[id].client; c in w.log.filed ==> c in w'.log.filed && w'.log.filed[c] == w.log.filed[c])
      && forall s :: s in w.db.reports[id].slots && s.key.Some? ==> SameKey(w, w', s.key.value)
  }

  // What has been declared and announced stays so, and leases are only added.
  ghost predicate SameHistory(w: World, w': World) {
    && w.log.leases <= w'.log.leases
    && (forall i :: i in w.log.declared ==> i in w'.log.declared && w'.log.declared[i] == w.log.declared[i])
    && (forall p :: p in w.log.announced ==> p in w'.log.announced && w'.log.announced[p] == w.log.announced[p])
  }

  ghost predicate SameKey(w: World, w': World, k: Key) {
    var p := (k.report, k.artifact);
    && (k in w.objects ==> k in w'.objects && w'.objects[k] == w.objects[k])
    && (p in w.log.holder ==> p in w'.log.holder && w'.log.holder[p] == w.log.holder[p])
  }

  lemma ReportFrame(w: World, w': World, id: ReportId)
    requires ReportOk(w, id) && SameFor(w, w', id)
    ensures ReportOk(w', id)
  {
    if id in w'.db.reports {
      forall s | s in w.db.reports[id].slots
        ensures SlotOk(w', id, s)
      {
        assert SlotOk(w, id, s);
      }
    }
  }

  // Everything the consistency of uploads and cleanup passes rests on is as before, but
  // for the tables themselves.
  ghost predicate SameAround(w: World, w': World) {
    && w'.uploads == w.uploads && w'.sweeps == w.sweeps && w'.objects == w.objects
    && w'.now == w.now && w'.capacity == w.capacity && SameHistory(w, w')
  }

  lemma AroundFrame(w: World, w': World)
    requires AroundOk(w) && SameAround(w, w') && w'.db.tasks == w.db.tasks
    requires forall k :: Stored(w'.db.reports, k) ==> Stored(w.db.reports, k)
    ensures AroundOk(w')
  {
    forall l
      ensures UploadOk(w', l)
    {
      assert UploadOk(w, l);
    }
    forall n
      ensures SweepOk(w', n)
    {
      assert SweepOk(w, n);
    }
  }

  // ---- One report replaced by another with the same slots ----

  ghost function WithReport(w: World, id: ReportId, r: Report): World {
    w.(db := w.db.(reports := w.db.reports[id := r]))
  }

  lemma SameStored(reports: map<ReportId, Report>, id: ReportId, r: Report, k: Key)
    requires id in reports && r.slots == reports[id].slots
    ensures Stored(reports[id := r], k) == Stored(reports, k)
  {}

  lemma TouchKeeps(w: World, id: ReportId, r: Report)
    requires Inv(w) && id in w.db.reports
    requires r.slots == w.db.reports[id].slots && r.client == w.db.reports[id].client
    requires r.reserved == w.db.reports[id].reserved && id in w.log.declared && StateOk(r, w.log.declared[id], w.now)
    ensures Inv(WithReport(w, id, r))
  {
    var w' := WithReport(w, id, r);
    forall k
      ensures KeyOk(w', k) && Stored(w'.db.reports, k) == Stored(w.db.reports, k)
    {
      assert KeyOk(w, k);
      SameStored(w.db.reports, id, r, k);
    }
    forall i
      ensures ReportOk(w', i)
    {
      assert ReportOk(w, i);
      if i != id {
        ReportFrame(w, w', i);
      } else {
        forall s | s in r.slots
          ensures SlotOk(w', i, s)
        {
          assert SlotOk(w, i, s);
        }
      }
    }
    AroundFrame(w, w');
    assert Reserved(w'.db.reports) == Reserved(w.db.reports);
  }

  // ---- A new report ----

  ghost function Filed(w: World, id: ReportId, r: Report, sizes: map<ArtifactId, nat>): World {
    w.(db := w.db.(reports := w.db.reports[id := r]), log := w.log.(
      declared := w.log.declared[id := sizes], announced := Announced(w.log.announced, id, r.slots),
      filed := w.log.filed[r.client := id]))
  }

  lemma {:induction false} AnnouncedAll(arts: map<(ReportId, ArtifactId), M.Artifact>, id: ReportId, slots: seq<Slot>)
    requires DistinctSlots(slots)
    ensures forall s :: s in slots ==>
        (id, s.art.id) in Announced(arts, id, slots) && Announced(arts, id, slots)[(id, s.art.id)] == s.art
    ensures forall p :: p in arts && p.0 != id ==>
        p in Announced(arts, id, slots) && Announced(arts, id, slots)[p] == arts[p]
    ensures forall p :: p in Announced(arts, id, slots) ==> p in arts || p.0 == id
  {
    if slots != [] {
      var last := |slots| - 1;
      AnnouncedAll(arts, id, slots[..last]);
      assert slots == slots[..last] + [slots[last]];
    }
  }

  predicate Untouched(s: Slot, sizes: map<ArtifactId, nat>) {
    s.key.None? && s.lease.None? && s.phase == Declared && s.art.id in sizes && sizes[s.art.id] == s.art.size
  }

  lemma FiledStored(reports: map<ReportId, Report>, id: ReportId, r: Report, k: Key)
    requires id !in reports && forall s :: s in r.slots ==> s.key.None?
    ensures Stored(reports[id := r], k) == Stored(reports, k)
  {}

  lemma FiledReport(w: World, id: ReportId, r: Report, sizes: map<ArtifactId, nat>, i: ReportId)
    requires ReportOk(w, i) && (i in w.db.reports ==> w.db.reports[i].client != r.client) && id !in w.log.declared
    requires StateOk(r, sizes, w.now) && forall s :: s in r.slots ==> Untouched(s, sizes)
    requires SameHistory(w, Filed(w, id, r, sizes))
    ensures ReportOk(Filed(w, id, r, sizes), i)
  {
    var w' := Filed(w, id, r, sizes);
    AnnouncedAll(w.log.announced, id, r.slots);
    if i != id {
      ReportFrame(w, w', i);
    }
  }

  lemma FiledKeys(w: World, id: ReportId, r: Report, sizes: map<ArtifactId, nat>)
    requires KeysOk(w) && id !in w.db.reports && id !in w.log.declared
    requires forall s :: s in r.slots ==> Untouched(s, sizes)
    ensures KeysOk(Filed(w, id, r, sizes))
    ensures forall k :: Stored(Filed(w, id, r, sizes).db.reports, k) == Stored(w.db.reports, k)
  {
    forall k
      ensures KeyOk(Filed(w, id, r, sizes), k)
          && Stored(Filed(w, id, r, sizes).db.reports, k) == Stored(w.db.reports, k)
    {
      assert KeyOk(w, k);
      FiledStored(w.db.reports, id, r, k);
    }
  }

  lemma FiledBooks(w: World, id: ReportId, r: Report, sizes: map<ArtifactId, nat>)
    requires BooksOk(w) && id !in w.db.reports && id !in w.log.declared && DistinctSlots(r.slots)
    requires r.reserved <= w.capacity - Total(Reserved(w.db.reports))
    ensures BooksOk(Filed(w, id, r, sizes)) && SameHistory(w, Filed(w, id, r, sizes))
  {
    AnnouncedAll(w.log.announced, id, r.slots);
    FiledReservations(w.db.reports, id, r);
  }

  lemma FiledReservations(reports: map<ReportId, Report>, id: ReportId, r: Report)
    requires id !in reports
    ensures Total(Reserved(reports[id := r])) == Total(Reserved(reports)) + r.reserved
  {
    TotalWith(Reserved(reports), id, r.reserved);
    assert Reserved(reports[id := r]) == Reserved(reports)[id := r.reserved];
  }

  lemma FiledKeeps(w: World, id: ReportId, r: Report, sizes: map<ArtifactId, nat>)
    requires Inv(w) && id !in w.log.declared
    requires forall i :: i in w.db.reports ==> w.db.reports[i].client != r.client
    requires StateOk(r, sizes, w.now) && r.reserved == Total(sizes) <= w.capacity - Total(Reserved(w.db.reports))
    requires forall s :: s in r.slots ==> Untouched(s, sizes)
    ensures Inv(Filed(w, id, r, sizes))
  {
    var w' := Filed(w, id, r, sizes);
    assert ReportOk(w, id);
    FiledBooks(w, id, r, sizes);
    FiledKeys(w, id, r, sizes);
    forall i
      ensures ReportOk(w', i)
    {
      assert ReportOk(w, i);
      FiledReport(w, id, r, sizes, i);
    }
    AroundFrame(w, w');
  }

  // ---- Uploads and cleanup passes between their transactions ----

  lemma EndedKeeps(w: World, lease: Lease)
    requires Inv(w)
    ensures Inv(Ended(w, lease))
  {
    var w' := Ended(w, lease);
    forall k
      ensures KeyOk(w', k)
    {
      assert KeyOk(w, k);
    }
    forall id
      ensures ReportOk(w', id)
    {
      assert ReportOk(w, id);
      ReportFrame(w, w', id);
    }
    forall l
      ensures UploadOk(w', l)
    {
      assert UploadOk(w, l);
    }
    forall n
      ensures SweepOk(w', n)
    {
      assert SweepOk(w, n);
    }
  }

  ghost function Swept(w: World, n: nat, s: Sweep): World {
    w.(sweeps := w.sweeps[n := s])
  }

  lemma SweptKeeps(w: World, n: nat, s: Sweep)
    requires Inv(w) && SweepOk(Swept(w, n, s), n)
    ensures Inv(Swept(w, n, s)) && Inv(w.(sweeps := w.sweeps - {n}))
  {
    SweepsFrame(w, Swept(w, n, s));
    SweepsFrame(w, w.(sweeps := w.sweeps - {n}));
  }

  lemma SweepsFrame(w: World, w': World)
    requires Inv(w) && w' == w.(sweeps := w'.sweeps)
    requires forall n :: n in w'.sweeps ==> SweepOk(w', n) || (n in w.sweeps && w.sweeps[n] == w'.sweeps[n])
    ensures Inv(w')
  {
    forall k
      ensures KeyOk(w', k)
    {
      assert KeyOk(w, k);
    }
    forall id
      ensures ReportOk(w', id)
    {
      assert ReportOk(w, id);
      ReportFrame(w, w', id);
    }
    forall l
      ensures UploadOk(w', l)
    {
      assert UploadOk(w, l);
    }
    forall n
      ensures SweepOk(w', n)
    {
      assert SweepOk(w, n);
    }
  }

  lemma ListKeeps(w: World, n: nat, key: Key)
    requires Inv(w) && key in w.db.tasks && w.db.tasks[key].next <= w.now
    ensures Inv(Swept(w, n, Sweep(key, w.db.tasks[key].report, None)))
  {
    assert KeyOk(w, key) && UploadOk(w, key.lease);
    SweptKeeps(w, n, Sweep(key, w.db.tasks[key].report, None));
  }

  // An upload moves on; its object, if it has one, stays as it is.
  lemma StageKeeps(w: World, lease: Lease, stage: Stage)
    requires Inv(w) && lease in w.uploads
    requires var u := w.uploads[lease];
      && (stage.Checked? && w.now < u.deadline ==> u.key in w.objects && Fits(w.objects[u.key], u.art))
      && (stage == Undone(true) ==> u.key !in w.objects)
    ensures Inv(AtStage(w, lease, stage))
  {
    var w' := AtStage(w, lease, stage);
    forall k
      ensures KeyOk(w', k)
    {
      assert KeyOk(w, k);
    }
    forall id
      ensures ReportOk(w', id)
    {
      assert ReportOk(w, id);
      ReportFrame(w, w', id);
    }
    forall l
      ensures UploadOk(w', l)
    {
      assert UploadOk(w, l);
    }
    forall n
      ensures SweepOk(w', n)
    {
      assert SweepOk(w, n);
    }
  }

  // ---- Objects ----

  lemma RemoveObjectTables(w: World, key: Key)
    requires KeysOk(w) && ReportsOk(w) && !Stored(w.db.reports, key)
    ensures KeysOk(WithoutObject(w, key, true)) && ReportsOk(WithoutObject(w, key, true))
  {
    var w' := WithoutObject(w, key, true);
    forall k
      ensures KeyOk(w', k)
    {
      assert KeyOk(w, k);
    }
    forall id
      ensures ReportOk(w', id)
    {
      assert ReportOk(w, id);
      ReportFrame(w, w', id);
    }
  }

  lemma RemoveObjectKeeps(w: World, key: Key)
    requires Inv(w) && !Stored(w.db.reports, key)
    requires key.lease in w.uploads && w.uploads[key.lease].key == key ==>
        !w.uploads[key.lease].stage.Checked? || w.uploads[key.lease].deadline <= w.now
    ensures Inv(WithoutObject(w, key, true))
  {
    var w' := WithoutObject(w, key, true);
    RemoveObjectTables(w, key);
    forall l
      ensures UploadOk(w', l)
    {
      assert UploadOk(w, l);
    }
    forall n
      ensures SweepOk(w', n)
    {
      assert SweepOk(w, n);
    }
  }

  ghost function WithObject(w: World, key: Key, o: Object): World {
    w.(objects := w.objects[key := o])
  }

  lemma AddObjectKeeps(w: World, lease: Lease, o: Object)
    requires Inv(w) && lease in w.uploads && w.uploads[lease].stage == Begun
    requires w.now < w.uploads[lease].deadline && o.size <= w.uploads[lease].art.size
    ensures Inv(WithObject(w, w.uploads[lease].key, o))
  {
    var key := w.uploads[lease].key;
    var w' := WithObject(w, key, o);
    assert UploadOk(w, lease);
    forall k
      ensures KeyOk(w', k)
    {
      assert KeyOk(w, k);
    }
    forall id
      ensures ReportOk(w', id)
    {
      assert ReportOk(w, id);
      ReportFrame(w, w', id);
    }
    forall l
      ensures UploadOk(w', l)
    {
      assert UploadOk(w, l);
    }
    forall n
      ensures SweepOk(w', n)
    {
      assert SweepOk(w, n);
    }
  }

  // ---- Slots ----

  ghost function Reslotted(w: World, id: ReportId, slots: seq<Slot>): World
    requires id in w.db.reports
  {
    WithReport(w, id, w.db.reports[id].(slots := slots))
  }

  ghost predicate SameArtifacts(a: seq<Slot>, b: seq<Slot>) {
    |a| == |b| && forall i :: 0 <= i < |a| ==> a[i].art == b[i].art
  }

  ghost predicate SameKeys(a: seq<Slot>, b: seq<Slot>) {
    SameArtifacts(a, b) && forall i :: 0 <= i < |a| ==> a[i].key == b[i].key
  }

  lemma SameKeysStored(reports: map<ReportId, Report>, id: ReportId, slots: seq<Slot>, k: Key)
    requires id in reports && SameKeys(reports[id].slots, slots)
    ensures Stored(reports[id := reports[id].(slots := slots)], k) == Stored(reports, k)
  {
    if k.report == id {
      var before := reports[id].slots;
      if s :| s in before && s.key == Some(k) {
        var i :| 0 <= i < |before| && before[i] == s;
        assert slots[i] in slots && slots[i].key == Some(k);
      }
      if s :| s in slots && s.key == Some(k) {
        var i :| 0 <= i < |slots| && slots[i] == s;
        assert before[i] in before && before[i].key == Some(k);
      }
    }
  }

  lemma ReslottedState(r: Report, slots: seq<Slot>, declared: map<ArtifactId, nat>, now: Time)
    requires StateOk(r, declared, now) && r.state == Open
    requires SameArtifacts(r.slots, slots) && ActiveLeases(slots, now) <= MAX_UPLOADS
    ensures StateOk(r.(slots := slots), declared, now)
  {
    forall i, j | 0 <= i < j < |slots|
      ensures slots[i].art.id != slots[j].art.id
    {
      assert r.slots[i].art.id != r.slots[j].art.id;
    }
  }

  lemma ReslottedReport(w: World, id: ReportId, slots: seq<Slot>)
    requires ReportOk(w, id) && id in w.db.reports && w.db.reports[id].state == Open
    requires SameArtifacts(w.db.reports[id].slots, slots) && ActiveLeases(slots, w.now) <= MAX_UPLOADS
    requires forall s :: s in slots ==> SlotOk(w, id, s)
    ensures ReportOk(Reslotted(w, id, slots), id)
  {
    var w' := Reslotted(w, id, slots);
    ReslottedState(w.db.reports[id], slots, w.log.declared[id], w.now);
    forall s | s in slots
      ensures SlotOk(w', id, s)
    {
      assert SlotOk(w, id, s);
    }
  }

  lemma ReslottedKeeps(w: World, id: ReportId, slots: seq<Slot>)
    requires Inv(w) && id in w.db.reports && w.db.reports[id].state == Open
    requires SameKeys(w.db.reports[id].slots, slots) && ActiveLeases(slots, w.now) <= MAX_UPLOADS
    requires forall s :: s in slots ==> SlotOk(w, id, s)
    ensures Inv(Reslotted(w, id, slots))
  {
    var w' := Reslotted(w, id, slots);
    forall k
      ensures KeyOk(w', k) && Stored(w'.db.reports, k) == Stored(w.db.reports, k)
    {
      assert KeyOk(w, k);
      SameKeysStored(w.db.reports, id, slots, k);
    }
    forall i
      ensures ReportOk(w', i)
    {
      assert ReportOk(w, i);
      if i != id {
        ReportFrame(w, w', i);
      } else {
        ReslottedReport(w, id, slots);
      }
    }
    AroundFrame(w, w');
    assert Reserved(w'.db.reports) == Reserved(w.db.reports);
  }

  // ---- Tasks ----

  ghost function WithTasks(w: World, tasks: map<Key, Task>): World {
    w.(db := w.db.(tasks := tasks))
  }

  // A task whose object is gone is dropped, or one that is due is put off.
  lemma TasksKeep(w: World, key: Key, tasks: map<Key, Task>)
    requires Inv(w)
    requires forall k :: k in tasks ==> k in w.db.tasks && tasks[k].report == w.db.tasks[k].report
    requires forall k :: k in w.db.tasks && k != key ==> k in tasks && tasks[k] == w.db.tasks[k]
    requires key in w.objects ==> key in tasks || key !in w.db.tasks
    requires key.lease in w.uploads && w.uploads[key.lease].key == key ==> w.uploads[key.lease].deadline <= w.now
    ensures Inv(WithTasks(w, tasks))
  {
    var w' := WithTasks(w, tasks);
    forall k
      ensures KeyOk(w', k)
    {
      assert KeyOk(w, k);
    }
    forall id
      ensures ReportOk(w', id)
    {
      assert ReportOk(w, id);
      ReportFrame(w, w', id);
    }
    forall l
      ensures UploadOk(w', l)
    {
      assert UploadOk(w, l);
    }
    forall n
      ensures SweepOk(w', n)
    {
      assert SweepOk(w, n);
    }
  }
}
