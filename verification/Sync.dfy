/** Collecting business data: the sources, their sync runs, and the transactions on both. */
module Sync {
  import opened Common

  type SourceId = string
  type RunId = string

  const BY_USER := "bilibili_sync_disabled"
  const REAUTH := "bilibili_reauth_required"
  const DEAUTHORIZED := "bilibili_deauthorized"
  const INTERRUPTED := "run_interrupted"

  datatype SourceStatus = Active | Disabled

  datatype Source = Source(
    account: string, status: SourceStatus, nextSync: Option<Time>, reason: string, lastAttempt: Option<Time>,
    lastSuccess: Option<Time>)

  datatype RunStatus = Queued | Running | Success | Failed

  datatype Run = Run(
    source: SourceId, status: RunStatus, code: string, fetched: nat, upserted: nat, first: int, last: int,
    created: Time, started: Option<Time>, finished: Option<Time>)

  datatype Db = Db(sources: map<SourceId, Source>, runs: map<RunId, Run>)

  datatype SyncError = NotFound | SourceDisabled | AuthorizationRequired | InvalidRequest

  // ---- Dates in the fixed zone of the business ----

  // The next 02:10 after `now`.
  function NextScheduled(now: Time): Time {
    var local := now + ZONE;
    var next := local - local % DAY + 2 * HOUR + 10 * MINUTE;
    (if next > local then next else next + DAY) - ZONE
  }

  function Today(now: Time): int {
    (now + ZONE) / DAY
  }

  // The next run lies ahead, at ten past two, and at no such time before.
  lemma ScheduleIsNext(now: Time, t: Time)
    ensures now < NextScheduled(now) <= now + DAY
    ensures (NextScheduled(now) + ZONE) % DAY == 2 * HOUR + 10 * MINUTE
    ensures now < t < NextScheduled(now) ==> (t + ZONE) % DAY != 2 * HOUR + 10 * MINUTE
  {}

  // ---- Transactions ----

  predicate InProgress(r: Run) {
    r.status == Queued || r.status == Running
  }

  predicate HasRunInProgress(runs: map<RunId, Run>, source: SourceId) {
    exists r :: r in runs && runs[r].source == source && InProgress(runs[r])
  }

  predicate OneInProgress(runs: map<RunId, Run>) {
    forall a, b :: a in runs && b in runs && runs[a].source == runs[b].source && InProgress(runs[a])
        && InProgress(runs[b])
      ==> a == b
  }

  function NewRun(source: SourceId, now: Time): Run {
    Run(source, Queued, "", 0, 0, Today(now) - 6, Today(now), now, None, None)
  }

  // Queues a run unless the source has one queued or running.
  function Insert(runs: map<RunId, Run>, id: RunId, source: SourceId, now: Time): map<RunId, Run> {
    if HasRunInProgress(runs, source) then runs else runs[id := NewRun(source, now)]
  }

  function QueueOne(db: Db, source: SourceId, now: Time, id: RunId): Result<Db, SyncError> {
    if source !in db.sources then Err(NotFound)
    else if db.sources[source].status != Active then Err(SourceDisabled)
    else Ok(db.(runs := Insert(db.runs, id, source, now)))
  }

  // The queued runs of a source fail when its user disables it.
  function Abandoned(runs: map<RunId, Run>, source: SourceId, now: Time): map<RunId, Run> {
    map r | r in runs ::
      if runs[r].source == source && runs[r].status == Queued
      then runs[r].(status := Failed, code := BY_USER, finished := Some(now)) else runs[r]
  }

  function SetEnabled(db: Db, source: SourceId, enabled: bool, now: Time, id: RunId): Result<Db, SyncError> {
    if source !in db.sources then Err(NotFound)
    else
      var s := db.sources[source];
      if !enabled then
        if s.status != Active then Ok(db)
        else Ok(Db(db.sources[source := s.(status := Disabled, nextSync := None, reason := BY_USER)],
            Abandoned(db.runs, source, now)))
      else if s.status == Active then Ok(db)
      else if s.reason != BY_USER then Err(AuthorizationRequired)
      else
        Ok(Db(db.sources[source := s.(status := Active, nextSync := Some(NextScheduled(now)), reason := "")],
              Insert(db.runs, id, source, now)))
  }

  function Delete(db: Db, source: SourceId): Db {
    Db(db.sources - {source}, map r | r in db.runs && db.runs[r].source != source :: db.runs[r])
  }

  predicate Due(s: Source, now: Time) {
    s.status == Active && s.nextSync.Some? && s.nextSync.value <= now
  }

  // Runs for the given sources; those that were due are rescheduled.
  function QueueAll(db: Db, sources: seq<SourceId>, ids: seq<RunId>, now: Time, reschedule: bool): Db
    requires |ids| == |sources|
  {
    if sources == [] then db
    else
      var n := |sources| - 1;
      var db := QueueAll(db, sources[..n], ids[..n], now, reschedule);
      var source := sources[n];
      var runs := Insert(db.runs, ids[n], source, now);
      if reschedule && source in db.sources
      then Db(db.sources[source := db.sources[source].(nextSync := Some(NextScheduled(now)))], runs)
      else db.(runs := runs)
  }

  // A queued run asks for the seven days up to today, in the fixed zone.
  ghost predicate IsNewRun(r: Run, source: SourceId, now: Time) {
    && r.source == source && r.status == Queued && r.code == "" && r.fetched == r.upserted == 0
    && r.created == now && r.started == None && r.finished == None
    && r.last * DAY <= now + 8 * HOUR < (r.last + 1) * DAY && r.first == r.last - 6
  }

  lemma NewRunIs(source: SourceId, now: Time)
    ensures IsNewRun(NewRun(source, now), source, now)
  {}

  // ---- What the queueing queries return ----

  function DueAt(sources: map<SourceId, Source>, s: SourceId): Time {
    if s in sources && sources[s].nextSync.Some? then sources[s].nextSync.value else 0
  }

  ghost predicate IsDue(s: Source, now: Time) {
    s.status == Active && s.nextSync.Some? && s.nextSync.value <= now
  }

  // As many due sources as the limit allows, none before another that is due earlier. Those
  // locked by other transactions are left to them.
  ghost predicate IsDueList(
      due: seq<SourceId>, sources: map<SourceId, Source>, now: Time, limit: int, locked: set<SourceId>) {
    var most := if limit <= 0 then 100 else limit;
    && Distinct(due) && |due| <= most
    && (forall s :: s in due ==> s in sources && s !in locked && IsDue(sources[s], now))
    && (forall i, j :: 0 <= i < j < |due| ==> DueAt(sources, due[i]) <= DueAt(sources, due[j]))
    && forall s :: s in sources && s !in locked && IsDue(sources[s], now) && s !in due ==>
         |due| == most && forall d :: d in due ==> DueAt(sources, d) <= DueAt(sources, s)
  }

  ghost predicate IsActiveList(active: seq<SourceId>, sources: map<SourceId, Source>) {
    Distinct(active) && forall s :: s in active <==> s in sources && sources[s].status == Active
  }

  function Ids(newId: nat -> RunId, n: nat): (ids: seq<RunId>)
    ensures |ids| == n
  {
    seq(n, i requires 0 <= i => newId(i))
  }

  // Ids drawn for runs are new.
  ghost predicate NewIds(newId: nat -> RunId, runs: map<RunId, Run>) {
    (forall i :: newId(i) !in runs) && forall i, j :: newId(i) == newId(j) ==> i == j
  }

  // How many of the sources have no run in progress.
  ghost function WithoutRun(runs: map<RunId, Run>, sources: seq<SourceId>): nat {
    if sources == [] then 0
    else
      WithoutRun(runs, sources[..|sources| - 1])
      + if HasRunInProgress(runs, sources[|sources| - 1]) then 0 else 1
  }

  // Every source in the list has a run afterwards, and other sources have one as before.
  lemma {:induction false} QueueAllGives(
    db: Db, sources: seq<SourceId>, newId: nat -> RunId, now: Time, reschedule: bool, s: SourceId)
    requires NewIds(newId, db.runs)
    ensures var db' := QueueAll(db, sources, Ids(newId, |sources|), now, reschedule);
      && (HasRunInProgress(db'.runs, s) <==> s in sources || HasRunInProgress(db.runs, s))
      && (forall i :: i >= |sources| ==> newId(i) !in db'.runs)
      && db'.sources.Keys == db.sources.Keys
      && (forall k :: k in db.runs ==> k in db'.runs && db'.runs[k] == db.runs[k])
      && (forall k :: k in db'.runs && k !in db.runs ==>
            db'.runs[k].source in sources && IsNewRun(db'.runs[k], db'.runs[k].source, now))
  {
    if sources != [] {
      var n := |sources| - 1;
      QueueAllGives(db, sources[..n], newId, now, reschedule, s);
      QueueAllGives(db, sources[..n], newId, now, reschedule, sources[n]);
      assert Ids(newId, |sources|)[..n] == Ids(newId, n);
      NewRunIs(sources[n], now);
      InsertGives(QueueAll(db, sources[..n], Ids(newId, n), now, reschedule).runs, newId(n), sources[n], now, s);
    }
  }

  // The listed sources get the next time when they are rescheduled; nothing else changes.
  lemma {:induction false} QueueAllReschedules(
    db: Db, sources: seq<SourceId>, newId: nat -> RunId, now: Time, reschedule: bool, s: SourceId)
    requires s in db.sources
    ensures var db' := QueueAll(db, sources, Ids(newId, |sources|), now, reschedule);
      && s in db'.sources
      && db'.sources[s] == if reschedule && s in sources then db.sources[s].(nextSync := Some(NextScheduled(now)))
                           else db.sources[s]
  {
    if sources != [] {
      var n := |sources| - 1;
      QueueAllReschedules(db, sources[..n], newId, now, reschedule, s);
      assert Ids(newId, |sources|)[..n] == Ids(newId, n);
    }
  }

  lemma InsertGives(runs: map<RunId, Run>, id: RunId, source: SourceId, now: Time, s: SourceId)
    requires id !in runs
    ensures HasRunInProgress(Insert(runs, id, source, now), s) <==> s == source || HasRunInProgress(runs, s)
  {
    var runs' := Insert(runs, id, source, now);
    if !HasRunInProgress(runs, source) {
      assert runs'[id] == NewRun(source, now);
      forall r | r in runs && runs[r].source == s && InProgress(runs[r])
        ensures HasRunInProgress(runs', s)
      {
        assert runs'[r] == runs[r];
      }
    }
  }

  function Claim(db: Db, run: RunId, now: Time): Db
    requires run in db.runs
  {
    var r := db.runs[run];
    Db(if r.source in db.sources then db.sources[r.source := db.sources[r.source].(lastAttempt := Some(now))]
        else db.sources,
       db.runs[run := r.(status := Running, started := Some(now))])
  }

  datatype Completion = Completion(success: bool, code: string, fetched: nat, upserted: nat)

  function Complete(db: Db, run: RunId, source: SourceId, c: Completion, now: Time): Result<Db, SyncError> {
    if run !in db.runs || db.runs[run].source != source || db.runs[run].status != Running then Err(NotFound)
    else
      var r := db.runs[run].(status := if c.success then Success else Failed, code := c.code, fetched := c.fetched,
                             upserted := c.upserted, finished := Some(now));
      Ok(Db(if source in db.sources then db.sources[source := Noted(db.sources[source], c, now)]
          else db.sources, db.runs[run := r]))
  }

  // A run that finished reports how it went and keeps everything else.
  predicate Reports(r: Run, r': Run, c: Completion, now: Time) {
    && (r'.status == Success <==> c.success) && (r'.status == Failed <==> !c.success)
    && r'.code == c.code && r'.fetched == c.fetched && r'.upserted == c.upserted && r'.finished == Some(now)
    && r'.source == r.source && r'.first == r.first && r'.last == r.last && r'.created == r.created
    && r'.started == r.started
  }

  // A success is noted with its time, a failure of an active source with its reason; only a
  // lost authorisation disables it. A source that is disabled by then keeps status and reason.
  predicate Notes(s: Source, s': Source, c: Completion, now: Time) {
    && s'.account == s.account && s'.lastAttempt == s.lastAttempt
    && s'.lastSuccess == (if c.success then Some(now) else s.lastSuccess)
    && (s.status == Disabled ==> s'.status == Disabled && s'.reason == s.reason && s'.nextSync == s.nextSync)
    && (s.status == Active ==>
          && s'.reason == (if c.success then "" else c.code)
          && (s'.status == Disabled <==> !c.success && c.code == REAUTH)
          && s'.nextSync == (if s'.status == Disabled then None else s.nextSync))
  }

  // What finishing a run leaves on its source: a disabled one keeps status and reason.
  function Noted(s: Source, c: Completion, now: Time): Source {
    if c.success then
      if s.status == Active then s.(lastSuccess := Some(now), reason := "") else s.(lastSuccess := Some(now))
    else if s.status != Active then s
    else if c.code == REAUTH then s.(reason := c.code, status := Disabled, nextSync := None)
    else s.(reason := c.code)
  }

  function Recovered(runs: map<RunId, Run>, now: Time): map<RunId, Run> {
    map r | r in runs ::
      if runs[r].status == Running then runs[r].(status := Failed, code := INTERRUPTED, finished := Some(now))
      else runs[r]
  }

  predicate WasInterrupted(runs: map<RunId, Run>, source: SourceId, now: Time) {
    exists r :: r in runs && runs[r].source == source && runs[r].status == Failed && runs[r].code == INTERRUPTED
      && runs[r].finished == Some(now)
  }

  function Recover(db: Db, now: Time): Db {
    var runs := Recovered(db.runs, now);
    Db(map s | s in db.sources ::
         if db.sources[s].status == Active && WasInterrupted(runs, s, now) then db.sources[s].(reason := INTERRUPTED)
         else db.sources[s],
       runs)
  }

  // Whether a batch may be written.
  function WriteRefusal(db: Db, run: RunId, source: SourceId): Option<SyncError> {
    if run !in db.runs || db.runs[run].source != source || db.runs[run].status != Running || source !in db.sources
    then Some(NotFound)
    else if db.sources[source].status != Active then Some(SourceDisabled)
    else None
  }

  // A (renewed) authorisation activates the account's source, or a new one, due at once.
  function Authorize(db: Db, source: SourceId, account: string, now: Time): Db {
    var s := if source in db.sources then db.sources[source] else Source(account, Active, Some(now), "", None, None);
    db.(sources := db.sources[source := s.(status := Active, nextSync := Some(now), reason := "")])
  }

  function Deauthorize(db: Db, account: string): Db {
    db.(sources := map s | s in db.sources ::
      if db.sources[s].account == account
      then db.sources[s].(status := Disabled, nextSync := None, reason := DEAUTHORIZED) else db.sources[s])
  }

  // ---- What authorising, deauthorising and deleting mean ----

  lemma AuthorizeGives(db: Db, source: SourceId, account: string, now: Time)
    ensures var db' := Authorize(db, source, account, now);
      && db'.runs == db.runs && source in db'.sources && db'.sources == db.sources[source := db'.sources[source]]
      && var s := db'.sources[source];
         && s.status == Active && s.nextSync == Some(now) && s.reason == ""
         && (source in db.sources ==>
               s == db.sources[source].(status := Active, nextSync := Some(now), reason := ""))
         && (source !in db.sources ==> s.account == account && s.lastAttempt == None && s.lastSuccess == None)
  {}

  lemma DeauthorizeGives(db: Db, account: string)
    ensures var db' := Deauthorize(db, account);
      && db'.runs == db.runs && db'.sources.Keys == db.sources.Keys
      && forall s :: s in db.sources ==>
           if db.sources[s].account == account
           then db'.sources[s]
               == db.sources[s].(status := Disabled, nextSync := None, reason := "bilibili_deauthorized")
           else db'.sources[s] == db.sources[s]
  {}

  lemma DeleteGives(db: Db, source: SourceId)
    ensures var db' := Delete(db, source);
      && (forall s :: s in db'.sources <==> s in db.sources && s != source)
      && (forall s :: s in db'.sources ==> db'.sources[s] == db.sources[s])
      && (forall k :: k in db'.runs <==> k in db.runs && db.runs[k].source != source)
      && (forall k :: k in db'.runs ==> db'.runs[k] == db.runs[k])
  {}

  // ---- The store ----

  class BusinessStore {
    var db: Db

    constructor ()
      ensures db == Db(map[], map[])
    {
      db := Db(map[], map[]);
    }

    // INSERT ... ON CONFLICT DO NOTHING under the unique index on runs in progress.
    method InsertRun(id: RunId, source: SourceId, now: Time) returns (inserted: nat)
      modifies this
      ensures HasRunInProgress(db.runs, source) && db.sources == old(db).sources
      ensures inserted <= 1
      ensures inserted == 0 <==>
          exists k :: k in old(db).runs && old(db).runs[k].source == source
            && (old(db).runs[k].status == Queued || old(db).runs[k].status == Running)
      ensures inserted == 0 ==> db.runs == old(db).runs
      ensures inserted == 1 ==> id in db.runs && IsNewRun(db.runs[id], source, now)
      ensures forall r :: r != id ==> (r in db.runs <==> r in old(db).runs)
      ensures forall r :: r != id && r in db.runs ==> db.runs[r] == old(db).runs[r]
      ensures id !in old(db).runs && OneInProgress(old(db).runs) ==> OneInProgress(db.runs)
      ensures db == old(db).(runs := Insert(old(db).runs, id, source, now))
    {
      if HasRunInProgress(db.runs, source) {
        return 0;
      }
      db := db.(runs := db.runs[id := NewRun(source, now)]);
      inserted := 1;
      NewRunIs(source, now);
      assert InProgress(db.runs[id]);
    }

    method QueueBilibiliSourceRun(source: SourceId, now: Time, id: RunId) returns (r: Result<nat, SyncError>)
      modifies this
      ensures r == Err(NotFound) <==> source !in old(db).sources
      ensures r == Err(SourceDisabled) <==> source in old(db).sources && old(db).sources[source].status == Disabled
      ensures r.Err? ==> db == old(db)
      ensures r.Ok? ==>
          && source in old(db).sources && old(db).sources[source].status == Active && r.value <= 1
          && (r.value == 0 <==> exists k :: k in old(db).runs && old(db).runs[k].source == source
                                  && (old(db).runs[k].status == Queued || old(db).runs[k].status == Running))
          && db.sources == old(db).sources && HasRunInProgress(db.runs, source)
          && (r.value == 0 ==> db.runs == old(db).runs)
          && (r.value == 1 ==>
                id in db.runs && db.runs == old(db).runs[id := db.runs[id]] && IsNewRun(db.runs[id], source, now))
      ensures match QueueOne(old(db), source, now, id)
        case Err(e) => r == Err(e) && db == old(db)
        case Ok(db') => r.Ok? && db == db' && (r.value == 1 <==> !HasRunInProgress(old(db).runs, source))
    {
      if source !in db.sources {
        return Err(NotFound);
      }
      if db.sources[source].status != Active {
        return Err(SourceDisabled);
      }
      var n := InsertRun(id, source, now);
      r := Ok(n);
    }

    method SetBilibiliSourceSyncEnabled(source: SourceId, enabled: bool, now: Time, id: RunId)
      returns (r: Result<(), SyncError>)
      modifies this
      ensures r == Err(NotFound) <==> source !in old(db).sources
      ensures r == Err(AuthorizationRequired) <==>
          enabled && source in old(db).sources && old(db).sources[source].status == Disabled
          && old(db).sources[source].reason != BY_USER
      ensures r.Ok? ==> source in db.sources && db.sources[source].status == (if enabled then Active else Disabled)
      ensures r.Err? || db.sources[source].status == old(db).sources[source].status ==> db == old(db)
      ensures db != old(db) && !enabled ==>
          && db.sources[source].reason == BY_USER && db.sources[source].nextSync == None
          && db.runs.Keys == old(db).runs.Keys
          && (forall k :: k in db.runs ==>
                if old(db).runs[k].source == source && old(db).runs[k].status == Queued
                then db.runs[k]
                    == old(db).runs[k].(status := Failed, code := "bilibili_sync_disabled", finished := Some(now))
                else db.runs[k] == old(db).runs[k])
      ensures db != old(db) && enabled ==>
          && db.sources[source].reason == "" && db.sources[source].nextSync == Some(NextScheduled(now))
          && HasRunInProgress(db.runs, source)
          && (db.runs == old(db).runs
              || (id in db.runs && db.runs == old(db).runs[id := db.runs[id]] && IsNewRun(db.runs[id], source, now)))
      ensures source in old(db).sources ==>
          source in db.sources && db.sources[source] == old(db).sources[source].(
            status := db.sources[source].status, nextSync := db.sources[source].nextSync,
            reason := db.sources[source].reason)
      ensures forall s :: s != source ==> (s in db.sources <==> s in old(db).sources)
      ensures forall s :: s != source && s in db.sources ==> db.sources[s] == old(db).sources[s]
      ensures match SetEnabled(old(db), source, enabled, now, id)
        case Err(e) => r == Err(e) && db == old(db)
        case Ok(db') => r == Ok(()) && db == db'
    {
      if source !in db.sources {
        return Err(NotFound);
      }
      var item := db.sources[source];
      if !enabled {
        if item.status == Active {
          db := db.(sources := db.sources[source := item.(status := Disabled, nextSync := None, reason := BY_USER)]);
          db := db.(runs := Abandoned(db.runs, source, now));
        }
      } else if item.status != Active {
        if item.reason != BY_USER {
          return Err(AuthorizationRequired);
        }
        db := db.(sources :=
            db.sources[source := item.(status := Active, nextSync := Some(NextScheduled(now)), reason := "")]);
        var _ := InsertRun(id, source, now);
      }
      r := Ok(());
    }

    // The earliest source of some that are due.
    method Earliest(candidates: set<SourceId>) returns (s: SourceId)
      requires candidates != {} && candidates <= db.sources.Keys
      ensures s in candidates && forall o :: o in candidates ==> DueAt(db.sources, s) <= DueAt(db.sources, o)
    {
      s :| s in candidates;
      var rest := candidates - {s};
      while rest != {}
        invariant rest <= candidates && s in candidates
        invariant forall o :: o in candidates && o !in rest ==> DueAt(db.sources, s) <= DueAt(db.sources, o)
      {
        var o :| o in rest;
        rest := rest - {o};
        if DueAt(db.sources, o) < DueAt(db.sources, s) {
          s := o;
        }
      }
    }

    // The query for due sources: the earliest that no other transaction has locked, up to a
    // limit.
    method DueSources(now: Time, limit: int, locked: set<SourceId>) returns (due: seq<SourceId>)
      ensures IsDueList(due, db.sources, now, limit, locked)
    {
      var most := if limit <= 0 then 100 else limit;
      var rest := set s | s in db.sources && s !in locked && Due(db.sources[s], now);
      assert forall s :: s in rest <==> s in db.sources && s !in locked && IsDue(db.sources[s], now);
      due := [];
      while rest != {} && |due| < most
        invariant |due| <= most && Distinct(due) && forall s :: s in due ==> s !in rest
        invariant forall s :: (s in due || s in rest) <==> s in db.sources && s !in locked && IsDue(db.sources[s], now)
        invariant forall i, j :: 0 <= i < j < |due| ==> DueAt(db.sources, due[i]) <= DueAt(db.sources, due[j])
        invariant forall s, o :: s in due && o in rest ==> DueAt(db.sources, s) <= DueAt(db.sources, o)
      {
        var s := Earliest(rest);
        rest := rest - {s};
        due := due + [s];
      }
    }

    // The sources that were due get new times, and runs unless they have one.
    method QueueDueRuns(now: Time, limit: int, locked: set<SourceId>, newId: nat -> RunId)
      returns (queued: nat, ghost due: seq<SourceId>)
      requires NewIds(newId, db.runs)
      modifies this
      ensures IsDueList(due, old(db).sources, now, limit, locked)
      ensures db == QueueAll(old(db), due, Ids(newId, |due|), now, true)
      ensures queued == WithoutRun(old(db).runs, due)
    {
      var sources := DueSources(now, limit, locked);
      due, queued := sources, 0;
      for i := 0 to |sources|
        invariant db == QueueAll(old(db), sources[..i], Ids(newId, i), now, true)
        invariant queued == WithoutRun(old(db).runs, sources[..i])
        invariant forall s :: s in sources ==> s in db.sources
      {
        assert sources[..i + 1][..i] == sources[..i] && Ids(newId, i + 1)[..i] == Ids(newId, i);
        QueueAllGives(old(db), sources[..i], newId, now, true, sources[i]);
        var n := InsertRun(newId(i), sources[i], now);
        queued := queued + n;
        db := db.(sources := db.sources[sources[i] := db.sources[sources[i]].(nextSync := Some(NextScheduled(now)))]);
      }
      assert sources[..|sources|] == sources;
    }

    // The query for active sources.
    method ActiveSources() returns (active: seq<SourceId>)
      ensures IsActiveList(active, db.sources)
    {
      active := [];
      var rest := db.sources.Keys;
      while rest != {}
        invariant rest <= db.sources.Keys && Distinct(active) && forall s :: s in active ==> s !in rest
        invariant forall s :: s in active <==> s in db.sources && s !in rest && db.sources[s].status == Active
      {
        var s :| s in rest;
        rest := rest - {s};
        if db.sources[s].status == Active {
          active := active + [s];
        }
      }
    }

    method QueueProviderRuns(now: Time, newId: nat -> RunId)
      returns (sources: nat, queued: nat, ghost active: seq<SourceId>)
      requires NewIds(newId, db.runs)
      modifies this
      ensures IsActiveList(active, old(db).sources) && sources == |active|
      ensures db == QueueAll(old(db), active, Ids(newId, |active|), now, false)
      ensures queued == WithoutRun(old(db).runs, active)
    {
      var all := ActiveSources();
      active, sources, queued := all, |all|, 0;
      for i := 0 to |all|
        invariant db == QueueAll(old(db), all[..i], Ids(newId, i), now, false)
        invariant queued == WithoutRun(old(db).runs, all[..i])
      {
        assert all[..i + 1][..i] == all[..i] && Ids(newId, i + 1)[..i] == Ids(newId, i);
        QueueAllGives(old(db), all[..i], newId, now, false, all[i]);
        var n := InsertRun(newId(i), all[i], now);
        queued := queued + n;
      }
      assert all[..|all|] == all;
    }

    // Claims the run that was queued first, of those that no other transaction has locked.
    method ClaimNextRun(now: Time, locked: set<RunId>) returns (run: Option<RunId>)
      modifies this
      ensures run.None? <==> forall k :: k in old(db).runs && k !in locked ==> old(db).runs[k].status != Queued
      ensures run.None? ==> db == old(db)
      ensures run.Some? ==>
          && run.value in old(db).runs && run.value !in locked && old(db).runs[run.value].status == Queued
          && (forall k :: k in old(db).runs && k !in locked && old(db).runs[k].status == Queued ==>
                old(db).runs[run.value].created <= old(db).runs[k].created)
          && db.runs == old(db).runs[run.value := old(db).runs[run.value].(status := Running, started := Some(now))]
          && (var s := old(db).runs[run.value].source;
              db.sources == if s in old(db).sources
                            then old(db).sources[s := old(db).sources[s].(lastAttempt := Some(now))]
                            else old(db).sources)
          && db == Claim(old(db), run.value, now)
    {
      run := None;
      var rest := db.runs.Keys;
      while rest != {}
        invariant rest <= db.runs.Keys && (run.Some? ==> run.value in db.runs && run.value !in locked)
        invariant run.Some? ==> db.runs[run.value].status == Queued
        invariant forall k :: k in db.runs && k !in rest && k !in locked && db.runs[k].status == Queued ==>
            run.Some? && db.runs[run.value].created <= db.runs[k].created
      {
        var k :| k in rest;
        rest := rest - {k};
        if k !in locked && db.runs[k].status == Queued
           && (run.None? || db.runs[k].created < db.runs[run.value].created) {
          run := Some(k);
        }
      }
      if run.Some? {
        var r := db.runs[run.value];
        db := db.(runs := db.runs[run.value := r.(status := Running, started := Some(now))]);
        if r.source in db.sources {
          db := db.(sources := db.sources[r.source := db.sources[r.source].(lastAttempt := Some(now))]);
        }
      }
    }

    method CompleteRun(run: RunId, source: SourceId, c: Completion, now: Time) returns (r: Result<(), SyncError>)
      modifies this
      ensures r.Ok? <==>
          run in old(db).runs && old(db).runs[run].source == source && old(db).runs[run].status == Running
      ensures r.Err? ==> r == Err(NotFound) && db == old(db)
      ensures db.runs.Keys == old(db).runs.Keys && db.sources.Keys == old(db).sources.Keys
      ensures forall k :: k in db.runs && k != run ==> db.runs[k] == old(db).runs[k]
      ensures forall s :: s in db.sources && s != source ==> db.sources[s] == old(db).sources[s]
      ensures r.Ok? ==> Reports(old(db).runs[run], db.runs[run], c, now)
      ensures r.Ok? && source in db.sources ==> Notes(old(db).sources[source], db.sources[source], c, now)
      ensures match Complete(old(db), run, source, c, now)
        case Err(e) => r == Err(e) && db == old(db)
        case Ok(db') => r == Ok(()) && db == db'
    {
      if run !in db.runs || db.runs[run].source != source || db.runs[run].status != Running {
        return Err(NotFound);
      }
      db := db.(runs := db.runs[run := db.runs[run].(status := if c.success then Success else Failed, code := c.code,
                                                     fetched := c.fetched, upserted := c.upserted,
                                                     finished := Some(now))]);
      if source in db.sources {
        var s := db.sources[source];
        if c.success {
          s := s.(lastSuccess := Some(now), reason := if s.status == Active then "" else s.reason);
        } else if s.status == Active {
          s := s.(reason := c.code);
          if c.code == REAUTH {
            s := s.(status := Disabled, nextSync := None);
          }
        }
        db := db.(sources := db.sources[source := s]);
      }
      r := Ok(());
    }

    method RecoverRunningRuns(now: Time)
      modifies this
      ensures db.runs.Keys == old(db).runs.Keys && db.sources.Keys == old(db).sources.Keys
      ensures forall k :: k in db.runs ==> db.runs[k].status != Running
      ensures forall k :: k in db.runs && old(db).runs[k].status != Running ==> db.runs[k] == old(db).runs[k]
      ensures forall k :: k in db.runs && old(db).runs[k].status == Running ==>
          Reports(old(db).runs[k], db.runs[k],
                  Completion(false, INTERRUPTED, old(db).runs[k].fetched, old(db).runs[k].upserted), now)
      ensures forall s :: s in db.sources && old(db).sources[s].status == Disabled ==>
          db.sources[s] == old(db).sources[s]
      ensures forall s :: s in db.sources ==> db.sources[s] == old(db).sources[s].(reason := db.sources[s].reason)
      ensures forall k :: k in db.runs && old(db).runs[k].status == Running ==>
          var s := db.runs[k].source;
          s in db.sources && db.sources[s].status == Active ==> db.sources[s].reason == INTERRUPTED
      ensures db == Recover(old(db), now)
    {
      db := db.(runs := Recovered(db.runs, now));
      db := db.(sources := map s | s in db.sources ::
        if db.sources[s].status == Active && WasInterrupted(db.runs, s, now) then db.sources[s].(reason := INTERRUPTED)
        else db.sources[s]);
    }
  }
}
