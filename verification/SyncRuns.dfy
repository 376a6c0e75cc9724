/** What the collection of business data promises over every run of the system: every
    interleaving of its transactions and of the drivers that execute sync runs, each of
    which may stop anywhere. */
module SyncRuns {
  import opened Common
  import opened Sync

  type DriverId = nat

  // What a driver does next: look at the source, pull from its platform, write the batch,
  // or report how the run went.
  datatype Pc = Look | Pull | Write(count: nat) | Report(c: Completion)

  datatype Driver = Driver(run: RunId, source: SourceId, fetched: nat, pc: Pc)

  // A batch written: for which run, and how many records.
  datatype Written = Written(run: RunId, source: SourceId, count: nat)

  // Who disabled a source last.
  datatype Cause = User | Platform

  datatype World = World(
    db: Db,
    drivers: map<DriverId, Driver>,
    writes: seq<Written>,
    // History: runs ever queued, drivers ever started, who executes a run, which write it
    // made, and who disabled a source last.
    known: set<RunId>,
    born: set<DriverId>,
    executor: map<RunId, DriverId>,
    wrote: map<RunId, nat>,
    cause: map<SourceId, Cause>)

  datatype Pulled = Batch(count: nat, valid: bool) | NeedsReauth | Limited | PullFailed

  // What a driver's step does not decide itself: a failing store, what the platform says.
  datatype Chance = Chance(fails: bool, pulled: Pulled, now: Time)

  datatype Event =
    | QueueCall(source: SourceId, now: Time, id: RunId)
    | EnableCall(source: SourceId, enabled: bool, now: Time, id: RunId)
    | DeleteCall(source: SourceId)
    | QueueAllCall(sources: seq<SourceId>, ids: seq<RunId>, now: Time, reschedule: bool)
    | ClaimCall(run: RunId, d: DriverId, now: Time)
    | RecoverCall(now: Time)
    | AuthorizeCall(source: SourceId, account: string, now: Time)
    | DeauthorizeCall(account: string)
    | DriverStep(d: DriverId, chance: Chance)
    | DriverStops(d: DriverId)

  const EMPTY := World(Db(map[], map[]), map[], [], {}, {}, map[], map[], map[])

  // Run and driver ids are new. The sources that a queueing call handles are active, and
  // due when it reschedules them. An account has one source.
  ghost predicate Possible(w: World, e: Event) {
    match e
    case QueueCall(_, _, id) => id !in w.known
    case EnableCall(_, _, _, id) => id !in w.known
    case QueueAllCall(sources, ids, now, reschedule) =>
      && |ids| == |sources| && Distinct(ids) && (forall i :: i in ids ==> i !in w.known)
      && forall s :: s in sources
          ==> s in w.db.sources && w.db.sources[s].status == Active && (reschedule ==> Due(w.db.sources[s], now))
    case ClaimCall(run, d, _) => run in w.db.runs && w.db.runs[run].status == Queued && d !in w.born
    case AuthorizeCall(source, account, _) => source in w.db.sources ==> w.db.sources[source].account == account
    case DriverStep(d, _) => d in w.drivers
    case DriverStops(d) => d in w.drivers
    case _ => true
  }

  function DbAfter(r: Result<Db, SyncError>, db: Db): Db {
    match r
    case Ok(db') => db'
    case Err(_) => db
  }

  function Failing(code: string, fetched: nat): Pc {
    Report(Completion(false, code, fetched, 0))
  }

  // ---- The driver of a run ----

  function AfterLook(w: World, d: DriverId, fails: bool): Pc
    requires d in w.drivers
  {
    var source := w.drivers[d].source;
    if fails || source !in w.db.sources then Failing("store_failed", 0)
    else if w.db.sources[source].status != Active then Failing(BY_USER, 0)
    else Pull
  }

  function AfterPull(p: Pulled): Pc {
    match p
    case NeedsReauth => Failing(REAUTH, 0)
    case Limited => Failing("bilibili_rate_limited", 0)
    case PullFailed => Failing("connector_failed", 0)
    case Batch(count, valid) => if valid then Write(count) else Failing("batch_invalid", count)
  }

  function WriteFailure(e: SyncError): string {
    if e == SourceDisabled then BY_USER else "store_failed"
  }

  ghost function WithPc(w: World, d: DriverId, pc: Pc): World
    requires d in w.drivers
  {
    w.(drivers := w.drivers[d := w.drivers[d].(pc := pc)])
  }

  ghost function WithWrite(w: World, d: DriverId, count: nat): World
    requires d in w.drivers
  {
    var run := w.drivers[d].run;
    WithPc(w.(writes := w.writes + [Written(run, w.drivers[d].source, count)], wrote := w.wrote[run := |w.writes|]),
           d, Report(Completion(true, "", count, count)))
  }

  ghost function WithReport(w: World, d: DriverId, c: Completion, now: Time): World
    requires d in w.drivers
  {
    var x := w.drivers[d];
    var disables := !c.success && c.code == REAUTH && Complete(w.db, x.run, x.source, c, now).Ok?
                    && x.source in w.db.sources && w.db.sources[x.source].status == Active;
    w.(db := DbAfter(Complete(w.db, x.run, x.source, c, now), w.db), drivers := w.drivers - {d},
       cause := if disables then w.cause[x.source := Platform] else w.cause)
  }

  ghost function AfterDriver(w: World, d: DriverId, c: Chance): World
    requires d in w.drivers
  {
    var x := w.drivers[d];
    match x.pc
    case Look => WithPc(w, d, AfterLook(w, d, c.fails))
    case Pull => WithPc(w, d, AfterPull(c.pulled))
    case Write(count) =>
      var refusal := WriteRefusal(w.db, x.run, x.source);
      if c.fails then WithPc(w, d, Failing("store_failed", count))
      else if refusal.Some? then WithPc(w, d, Failing(WriteFailure(refusal.value), count))
      else WithWrite(w, d, count)
    case Report(k) => if c.fails then w.(drivers := w.drivers - {d}) else WithReport(w, d, k, c.now)
  }

  // ---- Events ----

  ghost function Disabling(w: World, source: SourceId, enabled: bool): map<SourceId, Cause> {
    if !enabled && source in w.db.sources && w.db.sources[source].status == Active then w.cause[source := User]
    else w.cause
  }

  ghost function AllDeauthorized(w: World, account: string): map<SourceId, Cause> {
    w.cause + map s | s in w.db.sources && w.db.sources[s].account == account :: Platform
  }

  ghost function After(w: World, e: Event): World
    requires Possible(w, e)
  {
    match e
    case QueueCall(source, now, id) => w.(db := DbAfter(QueueOne(w.db, source, now, id), w.db), known := w.known + {id})
    case EnableCall(source, enabled, now, id) =>
      w.(db := DbAfter(SetEnabled(w.db, source, enabled, now, id), w.db), known := w.known + {id},
         cause := Disabling(w, source, enabled))
    case DeleteCall(source) => w.(db := Delete(w.db, source))
    case QueueAllCall(sources, ids, now, reschedule) =>
      w.(db := QueueAll(w.db, sources, ids, now, reschedule), known := w.known + set i | i in ids)
    case ClaimCall(run, d, now) =>
      w.(db := Claim(w.db, run, now), drivers := w.drivers[d := Driver(run, w.db.runs[run].source, 0, Look)],
         born := w.born + {d}, executor := w.executor[run := d])
    case RecoverCall(now) => w.(db := Recover(w.db, now))
    case AuthorizeCall(source, account, now) => w.(db := Authorize(w.db, source, account, now))
    case DeauthorizeCall(account) => w.(db := Deauthorize(w.db, account), cause := AllDeauthorized(w, account))
    case DriverStep(d, chance) => AfterDriver(w, d, chance)
    case DriverStops(d) => w.(drivers := w.drivers - {d})
  }

  ghost predicate IsRun(w: World, events: seq<Event>)
    decreases |events|
  {
    events == [] || (Possible(w, events[0]) && IsRun(After(w, events[0]), events[1..]))
  }

  ghost function Final(w: World, events: seq<Event>): World
    requires IsRun(w, events)
    decreases |events|
  {
    if events == [] then w else Final(After(w, events[0]), events[1..])
  }

  // ---- What every reachable world satisfies ----

  ghost predicate SourceOk(w: World, s: SourceId) {
    s in w.db.sources ==>
      var x := w.db.sources[s];
      && (x.nextSync.Some? <==> x.status == Active)
      && (x.status == Disabled ==>
            s in w.cause && (x.reason == BY_USER <==> w.cause[s] == User)
            && (x.reason == BY_USER || x.reason == REAUTH || x.reason == DEAUTHORIZED))
  }

  ghost predicate RunOk(w: World, r: RunId) {
    && (r in w.wrote || r in w.executor ==> r in w.known)
    && (r in w.wrote ==> r in w.executor && w.wrote[r] < |w.writes| && w.writes[w.wrote[r]].run == r)
    && (r in w.db.runs ==>
          var x := w.db.runs[r];
          && r in w.known && x.source in w.db.sources
          && (x.status == Queued ==> r !in w.executor)
          && (x.status == Running ==> r in w.executor)
          && (x.status == Success ==> r in w.wrote && w.writes[w.wrote[r]].count == x.upserted)
          && (x.status == Failed && r in w.wrote ==> x.code == INTERRUPTED))
  }

  ghost predicate DriverOk(w: World, d: DriverId) {
    d in w.drivers ==>
      var x := w.drivers[d];
      && d in w.born && x.run in w.executor && w.executor[x.run] == d
      && (x.run in w.db.runs ==> w.db.runs[x.run].source == x.source)
      && match x.pc
         case Report(c) =>
           if c.success
             then x.run in w.wrote && w.wrote[x.run] < |w.writes| && w.writes[w.wrote[x.run]].count == c.upserted
           else x.run !in w.wrote
         case _ => x.run !in w.wrote
  }

  ghost predicate WriteOk(w: World, n: nat) {
    n < |w.writes| ==> w.writes[n].run in w.wrote && w.wrote[w.writes[n].run] == n
  }

  ghost predicate ExecutorOk(w: World, r: RunId) {
    r in w.executor ==> w.executor[r] in w.born
  }

  ghost predicate Inv(w: World) {
    && OneInProgress(w.db.runs)
    && (forall s :: SourceOk(w, s))
    && (forall r :: RunOk(w, r) && ExecutorOk(w, r))
    && (forall d :: DriverOk(w, d))
    && (forall n: nat :: WriteOk(w, n))
  }

  // ---- Changes of the tables keep it ----

  // The runs change, without touching their sources, and so does what is known.
  ghost predicate RunsFit(w: World, runs: map<RunId, Run>, known: set<RunId>) {
    && w.known <= known && OneInProgress(runs)
    && forall r :: RunOk(w.(db := w.db.(runs := runs), known := known), r)
  }

  ghost predicate SameOwners(runs: map<RunId, Run>, runs': map<RunId, Run>, known: set<RunId>) {
    forall r :: r in runs' && r in known ==> r in runs && runs'[r].source == runs[r].source
  }

  lemma RunsKeep(w: World, runs: map<RunId, Run>, known: set<RunId>)
    requires Inv(w) && RunsFit(w, runs, known) && SameOwners(w.db.runs, runs, w.known)
    ensures Inv(w.(db := w.db.(runs := runs), known := known))
  {
    var w' := w.(db := w.db.(runs := runs), known := known);
    forall r
      ensures ExecutorOk(w', r)
    {
      assert ExecutorOk(w, r);
    }
    forall s
      ensures SourceOk(w', s)
    {
      assert SourceOk(w, s);
    }
    forall d
      ensures DriverOk(w', d)
    {
      assert DriverOk(w, d);
      if d in w.drivers {
        assert RunOk(w, w.drivers[d].run);
      }
    }
    forall n: nat
      ensures WriteOk(w', n)
    {
      assert WriteOk(w, n);
    }
  }

  // The sources change; none goes.
  lemma SourcesKeep(w: World, sources: map<SourceId, Source>, cause: map<SourceId, Cause>)
    requires Inv(w) && w.db.sources.Keys <= sources.Keys
    requires forall s :: SourceOk(w.(db := w.db.(sources := sources), cause := cause), s)
    ensures Inv(w.(db := w.db.(sources := sources), cause := cause))
  {
    var w' := w.(db := w.db.(sources := sources), cause := cause);
    forall r
      ensures RunOk(w', r) && ExecutorOk(w', r)
    {
      assert RunOk(w, r) && ExecutorOk(w, r);
    }
    forall d
      ensures DriverOk(w', d)
    {
      assert DriverOk(w, d);
    }
    forall n: nat
      ensures WriteOk(w', n)
    {
      assert WriteOk(w, n);
    }
  }

  lemma InsertKeeps(w: World, id: RunId, source: SourceId, now: Time)
    requires Inv(w) && id !in w.known && source in w.db.sources
    ensures Inv(w.(db := w.db.(runs := Insert(w.db.runs, id, source, now)), known := w.known + {id}))
  {
    var runs, known := Insert(w.db.runs, id, source, now), w.known + {id};
    forall r
      ensures RunOk(w.(db := w.db.(runs := runs), known := known), r)
    {
      assert RunOk(w, r);
    }
    assert forall r :: r in w.db.runs && w.db.runs[r].source == source && InProgress(w.db.runs[r]) ==>
        HasRunInProgress(w.db.runs, source);
    RunsKeep(w, runs, known);
  }

  lemma KnownKeeps(w: World, id: RunId)
    requires Inv(w)
    ensures Inv(w.(known := w.known + {id}))
  {
    var known := w.known + {id};
    forall r
      ensures RunOk(w.(db := w.db.(runs := w.db.runs), known := known), r)
    {
      assert RunOk(w, r);
    }
    RunsKeep(w, w.db.runs, known);
    assert w.(known := known) == w.(db := w.db.(runs := w.db.runs), known := known);
  }

  lemma QueueKeeps(w: World, source: SourceId, now: Time, id: RunId)
    requires Inv(w) && id !in w.known
    ensures Inv(After(w, QueueCall(source, now, id)))
  {
    if QueueOne(w.db, source, now, id).Ok? {
      InsertKeeps(w, id, source, now);
    } else {
      KnownKeeps(w, id);
    }
  }

  lemma AbandonKeeps(w: World, source: SourceId, now: Time)
    requires Inv(w)
    ensures Inv(w.(db := w.db.(runs := Abandoned(w.db.runs, source, now))))
  {
    var runs := Abandoned(w.db.runs, source, now);
    forall r
      ensures RunOk(w.(db := w.db.(runs := runs), known := w.known), r)
    {
      assert RunOk(w, r);
    }
    RunsKeep(w, runs, w.known);
    assert w.(db := w.db.(runs := runs)) == w.(db := w.db.(runs := runs), known := w.known);
  }

  lemma EnableKeeps(w: World, source: SourceId, enabled: bool, now: Time, id: RunId)
    requires Inv(w) && id !in w.known
    ensures Inv(After(w, EnableCall(source, enabled, now, id)))
  {
    if source !in w.db.sources || (w.db.sources[source].status == Active <==> enabled)
       || (enabled && w.db.sources[source].reason != BY_USER) {
      KnownKeeps(w, id);
      assert After(w, EnableCall(source, enabled, now, id)) == w.(known := w.known + {id});
    } else {
      var s := w.db.sources[source];
      var s' := if enabled then s.(status := Active, nextSync := Some(NextScheduled(now)), reason := "")
                else s.(status := Disabled, nextSync := None, reason := BY_USER);
      var sources, cause := w.db.sources[source := s'], Disabling(w, source, enabled);
      forall t
        ensures SourceOk(w.(db := w.db.(sources := sources), cause := cause), t)
      {
        assert SourceOk(w, t);
      }
      SourcesKeep(w, sources, cause);
      var w1 := w.(db := w.db.(sources := sources), cause := cause);
      if enabled {
        InsertKeeps(w1, id, source, now);
      } else {
        AbandonKeeps(w1, source, now);
        KnownKeeps(w1.(db := w1.db.(runs := Abandoned(w1.db.runs, source, now))), id);
      }
    }
  }

  lemma DeleteKeeps(w: World, source: SourceId)
    requires Inv(w)
    ensures Inv(w.(db := Delete(w.db, source)))
  {
    var w' := w.(db := Delete(w.db, source));
    forall s
      ensures SourceOk(w', s)
    {
      assert SourceOk(w, s);
    }
    forall r
      ensures RunOk(w', r) && ExecutorOk(w', r)
    {
      assert RunOk(w, r) && ExecutorOk(w, r);
    }
    forall d
      ensures DriverOk(w', d)
    {
      assert DriverOk(w, d);
    }
    forall n: nat
      ensures WriteOk(w', n)
    {
      assert WriteOk(w, n);
    }
  }

  lemma RescheduleKeeps(w: World, source: SourceId, now: Time)
    requires Inv(w) && source in w.db.sources && w.db.sources[source].status == Active
    ensures Inv(w.(db :=
        w.db.(sources := w.db.sources[source := w.db.sources[source].(nextSync := Some(NextScheduled(now)))])))
  {
    var sources := w.db.sources[source := w.db.sources[source].(nextSync := Some(NextScheduled(now)))];
    forall t
      ensures SourceOk(w.(db := w.db.(sources := sources), cause := w.cause), t)
    {
      assert SourceOk(w, t);
    }
    SourcesKeep(w, sources, w.cause);
  }

  ghost function WithQueued(w: World, sources: seq<SourceId>, ids: seq<RunId>, now: Time, reschedule: bool): World
    requires |ids| == |sources|
  {
    w.(db := QueueAll(w.db, sources, ids, now, reschedule), known := w.known + set i | i in ids)
  }

  lemma {:induction false} QueueAllKeeps(w: World, sources: seq<SourceId>, ids: seq<RunId>, now: Time, reschedule: bool)
    requires Inv(w) && |ids| == |sources| && Distinct(ids) && (forall i :: i in ids ==> i !in w.known)
    requires forall s :: s in sources ==> s in w.db.sources && w.db.sources[s].status == Active
    ensures Inv(WithQueued(w, sources, ids, now, reschedule))
    ensures forall s :: s in w.db.sources ==>
        var db := QueueAll(w.db, sources, ids, now, reschedule);
        s in db.sources && db.sources[s].status == w.db.sources[s].status
  {
    if sources == [] {
      assert WithQueued(w, sources, ids, now, reschedule) == w;
    } else {
      var n := |sources| - 1;
      QueueAllKeeps(w, sources[..n], ids[..n], now, reschedule);
      var w1 := WithQueued(w, sources[..n], ids[..n], now, reschedule);
      assert ids == ids[..n] + [ids[n]];
      assert ids[n] !in w1.known;
      InsertKeeps(w1, ids[n], sources[n], now);
      var w2 := w1.(db := w1.db.(runs := Insert(w1.db.runs, ids[n], sources[n], now)), known := w1.known + {ids[n]});
      assert w2.known == w.known + set i | i in ids;
      if reschedule {
        RescheduleKeeps(w2, sources[n], now);
      }
    }
  }

  lemma ClaimKeeps(w: World, run: RunId, d: DriverId, now: Time)
    requires Inv(w) && Possible(w, ClaimCall(run, d, now))
    ensures Inv(After(w, ClaimCall(run, d, now)))
  {
    var w' := After(w, ClaimCall(run, d, now));
    assert RunOk(w, run);
    forall s
      ensures SourceOk(w', s)
    {
      assert SourceOk(w, s);
    }
    forall r
      ensures RunOk(w', r) && ExecutorOk(w', r)
    {
      assert RunOk(w, r) && ExecutorOk(w, r);
    }
    forall e
      ensures DriverOk(w', e)
    {
      assert DriverOk(w, e);
    }
    forall n: nat
      ensures WriteOk(w', n)
    {
      assert WriteOk(w, n);
    }
  }

  lemma RecoverKeeps(w: World, now: Time)
    requires Inv(w)
    ensures Inv(w.(db := Recover(w.db, now)))
  {
    var runs := Recovered(w.db.runs, now);
    forall r
      ensures RunOk(w.(db := w.db.(runs := runs), known := w.known), r)
    {
      assert RunOk(w, r);
    }
    RunsKeep(w, runs, w.known);
    var w1 := w.(db := w.db.(runs := runs), known := w.known);
    var sources := Recover(w.db, now).sources;
    forall t
      ensures SourceOk(w1.(db := w1.db.(sources := sources), cause := w1.cause), t)
    {
      assert SourceOk(w, t);
    }
    SourcesKeep(w1, sources, w1.cause);
  }

  lemma AuthorizationKeeps(w: World, source: SourceId, account: string, now: Time)
    requires Inv(w)
    ensures Inv(w.(db := Authorize(w.db, source, account, now)))
    ensures Inv(w.(db := Deauthorize(w.db, account), cause := AllDeauthorized(w, account)))
  {
    var sources := Authorize(w.db, source, account, now).sources;
    forall t
      ensures SourceOk(w.(db := w.db.(sources := sources), cause := w.cause), t)
    {
      assert SourceOk(w, t);
    }
    SourcesKeep(w, sources, w.cause);
    var without, cause := Deauthorize(w.db, account).sources, AllDeauthorized(w, account);
    forall t
      ensures SourceOk(w.(db := w.db.(sources := without), cause := cause), t)
    {
      assert SourceOk(w, t);
    }
    SourcesKeep(w, without, cause);
  }

  // ---- Drivers keep it ----

  lemma PcKeeps(w: World, d: DriverId, pc: Pc)
    requires Inv(w) && d in w.drivers && DriverOk(WithPc(w, d, pc), d)
    ensures Inv(WithPc(w, d, pc))
  {
    var w' := WithPc(w, d, pc);
    forall s
      ensures SourceOk(w', s)
    {
      assert SourceOk(w, s);
    }
    forall r
      ensures RunOk(w', r) && ExecutorOk(w', r)
    {
      assert RunOk(w, r) && ExecutorOk(w, r);
    }
    forall e
      ensures DriverOk(w', e)
    {
      assert DriverOk(w, e);
    }
    forall n: nat
      ensures WriteOk(w', n)
    {
      assert WriteOk(w, n);
    }
  }

  lemma StopKeeps(w: World, d: DriverId)
    requires Inv(w)
    ensures Inv(w.(drivers := w.drivers - {d}))
  {
    var w' := w.(drivers := w.drivers - {d});
    forall s
      ensures SourceOk(w', s)
    {
      assert SourceOk(w, s);
    }
    forall r
      ensures RunOk(w', r) && ExecutorOk(w', r)
    {
      assert RunOk(w, r) && ExecutorOk(w, r);
    }
    forall e
      ensures DriverOk(w', e)
    {
      assert DriverOk(w, e);
    }
    forall n: nat
      ensures WriteOk(w', n)
    {
      assert WriteOk(w, n);
    }
  }

  lemma WriteKeeps(w: World, d: DriverId, count: nat)
    requires Inv(w) && d in w.drivers && w.drivers[d].pc == Write(count)
    requires WriteRefusal(w.db, w.drivers[d].run, w.drivers[d].source).None?
    ensures Inv(WithWrite(w, d, count))
  {
    var w', run := WithWrite(w, d, count), w.drivers[d].run;
    assert DriverOk(w, d) && RunOk(w, run);
    forall s
      ensures SourceOk(w', s)
    {
      assert SourceOk(w, s);
    }
    forall r
      ensures RunOk(w', r) && ExecutorOk(w', r)
    {
      assert RunOk(w, r) && ExecutorOk(w, r);
    }
    forall e
      ensures DriverOk(w', e)
    {
      assert DriverOk(w, e);
    }
    forall n: nat
      ensures WriteOk(w', n)
    {
      assert WriteOk(w, n);
    }
  }

  lemma CompleteKeeps(w: World, d: DriverId, c: Completion, now: Time)
    requires Inv(w) && d in w.drivers && w.drivers[d].pc == Report(c)
    requires Complete(w.db, w.drivers[d].run, w.drivers[d].source, c, now).Ok?
    ensures Inv(WithReport(w, d, c, now))
  {
    var x, db := w.drivers[d], Complete(w.db, w.drivers[d].run, w.drivers[d].source, c, now).value;
    assert DriverOk(w, d) && RunOk(w, x.run) && SourceOk(w, x.source);
    forall r
      ensures RunOk(w.(db := w.db.(runs := db.runs), known := w.known), r)
    {
      assert RunOk(w, r);
    }
    RunsKeep(w, db.runs, w.known);
    var w1, cause := w.(db := w.db.(runs := db.runs), known := w.known), WithReport(w, d, c, now).cause;
    forall t
      ensures SourceOk(w1.(db := w1.db.(sources := db.sources), cause := cause), t)
    {
      assert SourceOk(w, t);
    }
    SourcesKeep(w1, db.sources, cause);
    StopKeeps(w1.(db := w1.db.(sources := db.sources), cause := cause), d);
  }

  lemma DriverKeeps(w: World, d: DriverId, c: Chance)
    requires Inv(w) && d in w.drivers
    ensures Inv(AfterDriver(w, d, c))
  {
    var x := w.drivers[d];
    assert DriverOk(w, d);
    match x.pc
    case Look => PcKeeps(w, d, AfterLook(w, d, c.fails));
    case Pull => PcKeeps(w, d, AfterPull(c.pulled));
    case Write(count) =>
      var refusal := WriteRefusal(w.db, x.run, x.source);
      if c.fails {
        PcKeeps(w, d, Failing("store_failed", count));
      } else if refusal.Some? {
        PcKeeps(w, d, Failing(WriteFailure(refusal.value), count));
      } else {
        WriteKeeps(w, d, count);
      }
    case Report(k) =>
      if !c.fails && Complete(w.db, x.run, x.source, k, c.now).Ok? {
        CompleteKeeps(w, d, k, c.now);
      } else {
        StopKeeps(w, d);
      }
  }

  lemma EventKeeps(w: World, e: Event)
    requires Inv(w) && Possible(w, e)
    ensures Inv(After(w, e))
  {
    match e
    case QueueCall(source, now, id) => QueueKeeps(w, source, now, id);
    case EnableCall(source, enabled, now, id) => EnableKeeps(w, source, enabled, now, id);
    case DeleteCall(source) => DeleteKeeps(w, source);
    case QueueAllCall(sources, ids, now, reschedule) => QueueAllKeeps(w, sources, ids, now, reschedule);
    case ClaimCall(run, d, now) => ClaimKeeps(w, run, d, now);
    case RecoverCall(now) => RecoverKeeps(w, now);
    case AuthorizeCall(source, account, now) => AuthorizationKeeps(w, source, account, now);
    case DeauthorizeCall(account) => AuthorizationKeeps(w, "", account, 0);
    case DriverStep(d, chance) => DriverKeeps(w, d, chance);
    case DriverStops(d) => StopKeeps(w, d);
  }

  lemma {:induction false} RunKeeps(w: World, events: seq<Event>)
    requires Inv(w) && IsRun(w, events)
    ensures Inv(Final(w, events))
    decreases |events|
  {
    if events != [] {
      EventKeeps(w, events[0]);
      RunKeeps(After(w, events[0]), events[1..]);
    }
  }

  // ---- Main results ----

  ghost predicate Reachable(w: World) {
    exists events :: IsRun(EMPTY, events) && w == Final(EMPTY, events)
  }

  lemma ReachableInv(w: World)
    requires Reachable(w)
    ensures Inv(w)
  {
    var events :| IsRun(EMPTY, events) && w == Final(EMPTY, events);
    RunKeeps(EMPTY, events);
  }

  // A source has at most one run queued or running.
  lemma OneRunPerSource(w: World, a: RunId, b: RunId)
    requires Reachable(w) && a in w.db.runs && b in w.db.runs && w.db.runs[a].source == w.db.runs[b].source
    requires w.db.runs[a].status == Queued || w.db.runs[a].status == Running
    requires w.db.runs[b].status == Queued || w.db.runs[b].status == Running
    ensures a == b
  {
    ReachableInv(w);
  }

  // A source is scheduled just when it is active.
  lemma ScheduledWhenActive(w: World, s: SourceId)
    requires Reachable(w) && s in w.db.sources
    ensures w.db.sources[s].nextSync.Some? <==> w.db.sources[s].status == Active
  {
    ReachableInv(w);
    assert SourceOk(w, s);
  }

  // A run writes one batch at most. A run that succeeded has written one, of just the
  // number of records it reports; one that failed has written none unless it was
  // interrupted; one that is queued has written none.
  lemma SuccessMeansWritten(w: World, r: RunId, m: nat, n: nat)
    requires Reachable(w) && r in w.db.runs
    ensures m < |w.writes| && n < |w.writes| && w.writes[m].run == r && w.writes[n].run == r ==> m == n
    ensures w.db.runs[r].status == Success ==>
        exists k :: 0 <= k < |w.writes| && w.writes[k].run == r && w.writes[k].count == w.db.runs[r].upserted
    ensures (w.db.runs[r].status == Failed && w.db.runs[r].code != INTERRUPTED) || w.db.runs[r].status == Queued ==>
        forall k :: 0 <= k < |w.writes| ==> w.writes[k].run != r
  {
    ReachableInv(w);
    assert RunOk(w, r) && WriteOk(w, m) && WriteOk(w, n);
    if w.db.runs[r].status == Success {
      assert 0 <= w.wrote[r] && w.writes[w.wrote[r]].run == r;
    }
    forall k: nat | k < |w.writes| && w.writes[k].run == r
      ensures r in w.wrote
    {
      assert WriteOk(w, k);
    }
  }

  // Batches are written only for running runs of active sources: once a source is
  // disabled, nothing of it is written until it is active again.
  lemma WritesOnlyWhileActive(w: World, e: Event)
    requires Reachable(w) && Possible(w, e)
    ensures After(w, e).writes == w.writes || |After(w, e).writes| == |w.writes| + 1
    ensures After(w, e).writes != w.writes ==>
        var x := After(w, e).writes[|w.writes|];
        && After(w, e).writes == w.writes + [x]
        && x.run in w.db.runs && w.db.runs[x.run].status == Running && w.db.runs[x.run].source == x.source
        && x.source in w.db.sources && w.db.sources[x.source].status == Active
  {}

  // The moves a run can make.
  predicate RunMove(r: Run, r': Run) {
    || r' == r
    || (r.status == Queued && r'.status == Running && r' == r.(status := Running, started := r'.started))
    || (r.status == Queued && r'.status == Failed && r'.code == BY_USER)
    || (r.status == Running && (r'.status == Success || r'.status == Failed) && r'.finished.Some?)
  }

  lemma {:induction false} QueueAllLeavesRuns(
      db: Db, sources: seq<SourceId>, ids: seq<RunId>, now: Time, reschedule: bool, r: RunId)
    requires |ids| == |sources| && r !in ids && r in db.runs
    ensures r in QueueAll(db, sources, ids, now, reschedule).runs
        && QueueAll(db, sources, ids, now, reschedule).runs[r] == db.runs[r]
  {
    if sources != [] {
      QueueAllLeavesRuns(db, sources[..|sources| - 1], ids[..|ids| - 1], now, reschedule, r);
    }
  }

  // Runs only move forward, and a finished one never changes; it goes only together with
  // its source.
  lemma RunsMoveForward(w: World, e: Event, r: RunId)
    requires Reachable(w) && Possible(w, e) && r in w.db.runs
    ensures if r in After(w, e).db.runs then
        RunMove(w.db.runs[r], After(w, e).db.runs[r])
            && (!InProgress(w.db.runs[r]) ==> After(w, e).db.runs[r] == w.db.runs[r])
      else e == DeleteCall(w.db.runs[r].source)
  {
    ReachableInv(w);
    assert RunOk(w, r);
    if e.QueueAllCall? {
      QueueAllLeavesRuns(w.db, e.sources, e.ids, e.now, e.reschedule, r);
    } else if e.DriverStep? {
      DriverMovesRuns(w, e.d, e.chance, r);
    }
  }

  lemma DriverMovesRuns(w: World, d: DriverId, c: Chance, r: RunId)
    requires d in w.drivers && r in w.db.runs
    ensures var runs := AfterDriver(w, d, c).db.runs;
      r in runs && RunMove(w.db.runs[r], runs[r]) && (!InProgress(w.db.runs[r]) ==> runs[r] == w.db.runs[r])
  {}

  lemma {:induction false} QueueAllLeavesDisabled(
      db: Db, sources: seq<SourceId>, ids: seq<RunId>, now: Time, reschedule: bool, s: SourceId)
    requires |ids| == |sources| && s !in sources
    ensures var db' := QueueAll(db, sources, ids, now, reschedule);
      (s in db.sources <==> s in db'.sources) && (s in db.sources ==> db'.sources[s] == db.sources[s])
  {
    if sources != [] {
      QueueAllLeavesDisabled(db, sources[..|sources| - 1], ids[..|ids| - 1], now, reschedule, s);
    }
  }

  ghost predicate Addresses(w: World, e: Event, s: SourceId)
    requires s in w.db.sources
  {
    || (e.EnableCall? && e.source == s && e.enabled)
    || (e.AuthorizeCall? && e.source == s)
    || (e.DeauthorizeCall? && e.account == w.db.sources[s].account)
  }

  // Once a source is disabled, no run that finishes or is recovered changes its status or
  // reason: only enabling it, authorising or deauthorising its account, or deleting it do.
  lemma DisabledStays(w: World, e: Event, s: SourceId)
    requires Reachable(w) && Possible(w, e) && s in w.db.sources && w.db.sources[s].status == Disabled
    ensures e == DeleteCall(s) || s in After(w, e).db.sources
    ensures s in After(w, e).db.sources && !Addresses(w, e, s) ==>
        After(w, e).db.sources[s].status == Disabled && After(w, e).db.sources[s].reason == w.db.sources[s].reason
  {
    if e.QueueAllCall? {
      QueueAllLeavesDisabled(w.db, e.sources, e.ids, e.now, e.reschedule, s);
    } else if e.DriverStep? {
      DriverLeavesDisabled(w, e.d, e.chance, s);
    }
  }

  lemma DriverLeavesDisabled(w: World, d: DriverId, c: Chance, s: SourceId)
    requires d in w.drivers && s in w.db.sources && w.db.sources[s].status == Disabled
    ensures var sources := AfterDriver(w, d, c).db.sources;
      s in sources && sources[s].status == Disabled && sources[s].reason == w.db.sources[s].reason
  {}

  // Enabling a disabled source succeeds just when its user disabled it and the platform
  // has not deauthorised it since; it is then active, scheduled, and has a run.
  lemma EnablingNeedsItsUser(w: World, s: SourceId, now: Time, id: RunId)
    requires Reachable(w) && s in w.db.sources && w.db.sources[s].status == Disabled && id !in w.known
    ensures s in w.cause && (SetEnabled(w.db, s, true, now, id).Ok? <==> w.cause[s] == User)
    ensures w.cause[s] == User ==>
        var db := SetEnabled(w.db, s, true, now, id).value;
        && db.sources[s].status == Active && db.sources[s].nextSync == Some(NextScheduled(now))
        && HasRunInProgress(db.runs, s)
  {
    ReachableInv(w);
    assert SourceOk(w, s);
    if w.cause[s] == User {
      var db := SetEnabled(w.db, s, true, now, id).value;
      assert !HasRunInProgress(w.db.runs, s) ==> db.runs[id] == NewRun(s, now);
    }
  }

  // ---- What each step of a driver does ----

  // Looking at the source: a driver goes on to pull just when it finds it active; otherwise it
  // reports the failure.
  lemma DriverLooks(w: World, d: DriverId, c: Chance)
    requires d in w.drivers && w.drivers[d].pc.Look?
    ensures var w', s := After(w, DriverStep(d, c)), w.drivers[d].source;
      && w'.db == w.db && w'.writes == w.writes && d in w'.drivers
      && w'.drivers[d].pc == if c.fails || s !in w.db.sources then Report(Completion(false, "store_failed", 0, 0))
                             else if w.db.sources[s].status == Disabled
                             then Report(Completion(false, "bilibili_sync_disabled", 0, 0))
                             else Pull
  {}

  // Pulling: a valid batch is written; a lost authorisation, a limit and any other failure are
  // reported as such, and so is a batch that is not valid.
  lemma DriverPulls(w: World, d: DriverId, c: Chance)
    requires d in w.drivers && w.drivers[d].pc.Pull?
    ensures var w' := After(w, DriverStep(d, c));
      && w'.db == w.db && w'.writes == w.writes && d in w'.drivers
      && match c.pulled
         case NeedsReauth => w'.drivers[d].pc == Report(Completion(false, "bilibili_reauth_required", 0, 0))
         case Limited => w'.drivers[d].pc == Report(Completion(false, "bilibili_rate_limited", 0, 0))
         case PullFailed => w'.drivers[d].pc == Report(Completion(false, "connector_failed", 0, 0))
         case Batch(count, valid) =>
           w'.drivers[d].pc == if valid then Write(count) else Report(Completion(false, "batch_invalid", count, 0))
  {}

  // Writing: the batch is written just when its run is still running and its source active;
  // the driver then reports it, or why it was not.
  lemma DriverWrites(w: World, d: DriverId, c: Chance)
    requires d in w.drivers && w.drivers[d].pc.Write?
    ensures var w', x := After(w, DriverStep(d, c)), w.drivers[d];
      var runs := x.run in w.db.runs && w.db.runs[x.run].status == Running && w.db.runs[x.run].source == x.source;
      var known := runs && x.source in w.db.sources;
      && w'.db == w.db && d in w'.drivers
      && if c.fails || !known then
           w'.writes == w.writes && w'.drivers[d].pc == Report(Completion(false, "store_failed", x.pc.count, 0))
         else if w.db.sources[x.source].status == Disabled then
           && w'.writes == w.writes
           && w'.drivers[d].pc == Report(Completion(false, "bilibili_sync_disabled", x.pc.count, 0))
         else
           && w'.writes == w.writes + [Written(x.run, x.source, x.pc.count)]
           && w'.drivers[d].pc == Report(Completion(true, "", x.pc.count, x.pc.count))
  {}

  // Reporting: a run still running is completed as the driver says; the driver is done.
  lemma DriverReports(w: World, d: DriverId, c: Chance)
    requires d in w.drivers && w.drivers[d].pc.Report?
    ensures var w', x := After(w, DriverStep(d, c)), w.drivers[d];
      && w'.writes == w.writes && w'.drivers == w.drivers - {d}
      && if !c.fails && x.run in w.db.runs && w.db.runs[x.run].status == Running && w.db.runs[x.run].source == x.source
         then
           && x.run in w'.db.runs && w'.db.runs == w.db.runs[x.run := w'.db.runs[x.run]]
           && Reports(w.db.runs[x.run], w'.db.runs[x.run], x.pc.c, c.now)
           && w'.db.sources.Keys == w.db.sources.Keys
           && (x.source in w.db.sources ==>
                 Notes(w.db.sources[x.source], w'.db.sources[x.source], x.pc.c, c.now))
           && (forall s :: s in w.db.sources && s != x.source ==> w'.db.sources[s] == w.db.sources[s])
         else w'.db == w.db
  {}

  // A run is claimed by one driver only.
  lemma ClaimedOnce(w: World, c: DriverId, d: DriverId)
    requires Reachable(w) && c in w.drivers && d in w.drivers && w.drivers[c].run == w.drivers[d].run
    ensures c == d
  {
    ReachableInv(w);
    assert DriverOk(w, c) && DriverOk(w, d);
  }
}
