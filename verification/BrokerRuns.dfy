/** Every interleaving of submitters, pullers and completions over one broker.

    A world is the broker with the pullers that sleep on a wakeup channel and the
    record of what has happened. An event is one critical section of one caller, or
    what a caller does between two of them; a run is any list of possible events. */
module BrokerRuns {
  import opened Common
  import opened BrokerState

  type PullerId = nat

  datatype Sleeper = Sleeper(collector: string, channel: ChannelId)

  // What has happened: the collector of every task ever submitted; per collector, the tasks in
  // order of submission and of claiming; what was submitted as each task, what was handed out
  // of it to which collector, and under which claim id; the tasks given up while they waited;
  // everything ever put on a task's result channel, and taken from it.
  datatype Log = Log(
    home: map<TaskId, string>,
    submitted: map<string, seq<TaskId>>,
    claimed: map<string, seq<TaskId>>,
    claimIds: map<TaskId, string>,
    asked: map<TaskId, Submission>,
    handed: map<TaskId, (string, Delivery)>,
    withdrawn: set<TaskId>,
    sent: map<TaskId, seq<Completion>>,
    received: map<TaskId, seq<Completion>>)

  datatype World = World(broker: State, asleep: map<PullerId, Sleeper>, log: Log)

  datatype Event =
    | SubmitEvent(sub: Submission, id: TaskId, now: Time)
    | PullEvent(puller: PullerId, collector: string, claimId: string)
    | StopPulling(puller: PullerId)
    | CompleteEvent(collector: string, req: Completion, now: Time)
    | ReceiveEvent(id: TaskId)
    | GiveUp(id: TaskId)

  const START := World(EMPTY, map[], Log(map[], map[], map[], map[], map[], map[], {}, map[], map[]))

  // Task ids are drawn at random: a submission always gets one never used before.
  // A sleeping puller runs again only once its channel has been closed.
  ghost predicate Possible(w: World, e: Event) {
    match e
    case SubmitEvent(_, id, _) => id !in w.log.sent
    case PullEvent(p, c, _) =>
      p in w.asleep ==> w.asleep[p].channel in w.broker.closed && w.asleep[p].collector == c
    case StopPulling(p) => p in w.asleep
    case CompleteEvent(_, _, _) => true
    case ReceiveEvent(id) => id in w.broker.results && w.broker.results[id] != [] && id in w.log.received
    case GiveUp(id) => id in w.log.sent
  }

  function AfterSubmit(w: World, sub: Submission, id: TaskId, now: Time): World {
    var (s, failure) := Submit(w.broker, sub, id, now);
    var c := sub.collector;
    if failure.Some? then w.(broker := s)
    else w.(broker := s, log := w.log.(
           home := w.log.home[id := c], submitted := w.log.submitted[c := Queue(w.log.submitted, c) + [id]],
           asked := w.log.asked[id := sub], sent := w.log.sent[id := []], received := w.log.received[id := []]))
  }

  function AfterPull(w: World, p: PullerId, c: string, claimId: string): World {
    var (s, outcome) := Pull(w.broker, c, claimId);
    var w := w.(broker := s, asleep := w.asleep - {p});
    match outcome
    case Wait(channel) => w.(asleep := w.asleep[p := Sleeper(c, channel)])
    case Got(delivery) =>
      w.(log := w.log.(
        claimed := w.log.claimed[c := Queue(w.log.claimed, c) + [delivery.taskId]],
        claimIds := w.log.claimIds[delivery.taskId := claimId],
        handed := w.log.handed[delivery.taskId := (c, delivery)]))
    case Refused(_) => w
  }

  function AfterComplete(w: World, collector: string, req: Completion, now: Time): World {
    var (s, failure) := Complete(w.broker, collector, req, now);
    if req.taskId in w.broker.tasks && req.taskId !in s.tasks && req.taskId in w.log.sent then
      w.(broker := s, log := w.log.(sent := w.log.sent[req.taskId := w.log.sent[req.taskId] + [req]]))
    else w.(broker := s)
  }

  function AfterGiveUp(w: World, id: TaskId): World {
    var waiting := id in w.broker.tasks && w.broker.tasks[id].phase == Pending;
    w.(broker := Cancel(w.broker, id),
       log := if waiting then w.log.(withdrawn := w.log.withdrawn + {id}) else w.log)
  }

  function AfterReceive(w: World, id: TaskId): World {
    if id in w.log.received && id in w.broker.results && w.broker.results[id] != [] then
      w.(log := w.log.(received := w.log.received[id := w.log.received[id] + [w.broker.results[id][0]]]),
         broker := w.broker.(results := w.broker.results[id := w.broker.results[id][1..]]))
    else w
  }

  function After(w: World, e: Event): World {
    match e
    case SubmitEvent(sub, id, now) => AfterSubmit(w, sub, id, now)
    case PullEvent(p, c, claimId) => AfterPull(w, p, c, claimId)
    case StopPulling(p) => w.(asleep := w.asleep - {p})
    case CompleteEvent(c, req, now) => AfterComplete(w, c, req, now)
    case ReceiveEvent(id) => AfterReceive(w, id)
    case GiveUp(id) => AfterGiveUp(w, id)
  }

  ghost predicate IsRun(w: World, events: seq<Event>)
    decreases |events|
  {
    events == [] || (Possible(w, events[0]) && IsRun(After(w, events[0]), events[1..]))
  }

  function Outcome(w: World, events: seq<Event>): World
    decreases |events|
  {
    if events == [] then w else Outcome(After(w, events[0]), events[1..])
  }

  // ---- What every reachable world satisfies ----

  // The ids of `s` that have not been withdrawn.
  ghost function Kept(s: seq<TaskId>, withdrawn: set<TaskId>): seq<TaskId> {
    if s == [] then []
    else if s[0] in withdrawn then Kept(s[1..], withdrawn)
    else [s[0]] + Kept(s[1..], withdrawn)
  }

  // Claims come first, then what is still queued: together, everything submitted
  // and not withdrawn, in submission order.
  ghost predicate Fifo(w: World, c: string) {
    && Queue(w.log.claimed, c) + Queue(w.broker.pending, c) == Kept(Queue(w.log.submitted, c), w.log.withdrawn)
    && Distinct(Queue(w.log.submitted, c))
    && (forall id :: id in Queue(w.log.submitted, c) ==> id in w.log.home && w.log.home[id] == c)
  }

  // Every queue entry is a waiting task of that collector.
  ghost predicate QueueOfTasks(w: World, c: string) {
    forall id :: id in Queue(w.broker.pending, c) ==> Claimable(w.broker.tasks, id) && w.broker.tasks[id].collector == c
  }

  // Every waiting task is queued, and every other task is held under the claim id that
  // its one claim handed out; a task given up is gone.
  ghost predicate TaskTracked(w: World, id: TaskId) {
    id in w.broker.tasks ==>
      var t := w.broker.tasks[id];
      && id !in w.log.withdrawn && t.delivery.taskId == id && id in w.log.home && w.log.home[id] == t.collector
      && (t.phase == Pending ==> id in Queue(w.broker.pending, t.collector))
      && (t.phase == Claimed ==> id in w.log.claimIds && w.log.claimIds[id] == t.delivery.claimId)
      && id in w.log.asked && AsAsked(w.log.asked[id], t.collector, t.delivery)
  }

  // A delivery holds what was submitted, and is for the collector it was submitted for.
  ghost predicate AsAsked(sub: Submission, collector: string, d: Delivery) {
    && collector == sub.collector && d.traceId == sub.traceId && d.upstream == sub.upstream
    && d.tool == sub.tool && d.arguments == sub.arguments
  }

  // What was handed out of a task was what had been submitted, under its one claim id.
  ghost predicate HandedOk(w: World, id: TaskId) {
    && (id in w.log.handed <==> id in w.log.claimIds)
    && (id in w.log.handed ==>
          && id in w.log.home && id in w.log.asked && AsAsked(w.log.asked[id], w.log.handed[id].0, w.log.handed[id].1)
          && w.log.handed[id].1.taskId == id && w.log.handed[id].1.claimId == w.log.claimIds[id])
  }

  ghost predicate WithinLimit(s: State, c: string) {
    |InFlight(s.tasks, c)| <= MAX_IN_FLIGHT
  }

  // One result at most is ever put on a task's channel, when the channel is empty, and
  // only by a caller that presents the claim id of the task's one claim.
  ghost predicate ResultOnce(w: World, id: TaskId) {
    && (id in w.log.sent <==> id in w.log.home) && (id in w.log.received <==> id in w.log.home)
    && (id in w.broker.results <==> id in w.log.home)
    && (id in w.log.home ==> w.log.received[id] + w.broker.results[id] == w.log.sent[id] && |w.log.sent[id]| <= 1)
    && (id in w.broker.tasks ==> id in w.log.home && w.log.sent[id] == [])
    && (id in w.broker.finished ==> id in w.log.home && w.log.sent[id] != [])
    && (id in w.log.home && w.log.sent[id] != [] ==>
          w.log.sent[id][0].taskId == id && id in w.log.claimIds && w.log.sent[id][0].claimId == w.log.claimIds[id])
    && (id in w.log.claimIds ==> id in w.log.home && id in Queue(w.log.claimed, w.log.home[id]))
    && (id in w.log.withdrawn ==> id in w.log.home)
  }

  // A puller still asleep on an open channel sleeps on its collector's current one,
  // and that collector's queue is empty.
  ghost predicate RightlyAsleep(w: World, p: PullerId) {
    p in w.asleep ==>
      var s := w.asleep[p];
      || s.channel in w.broker.closed
      || (s.collector in w.broker.notify && w.broker.notify[s.collector] == s.channel
          && Queue(w.broker.pending, s.collector) == [])
  }

  // No current channel is closed and no two collectors share one, so that closing it
  // to signal is always legal.
  ghost predicate ChannelsSound(s: State) {
    && (forall c :: c in s.notify ==> s.notify[c] !in s.closed && s.notify[c] < s.nextChannel)
    && (forall n :: n in s.closed ==> n < s.nextChannel)
    && (forall c, d :: c in s.notify && d in s.notify && s.notify[c] == s.notify[d] ==> c == d)
  }

  ghost predicate Inv(w: World) {
    && (forall c :: Fifo(w, c) && QueueOfTasks(w, c) && WithinLimit(w.broker, c))
    && (forall id :: TaskTracked(w, id) && ResultOnce(w, id) && HandedOk(w, id))
    && (forall p :: RightlyAsleep(w, p))
    && ChannelsSound(w.broker)
  }

  // ---- Lists without some of their entries ----

  lemma {:induction false} KeptAppend(s: seq<TaskId>, id: TaskId, withdrawn: set<TaskId>)
    requires id !in withdrawn
    ensures Kept(s + [id], withdrawn) == Kept(s, withdrawn) + [id]
  {
    if s == [] {
      assert s + [id] == [id];
    } else {
      assert (s + [id])[1..] == s[1..] + [id];
      KeptAppend(s[1..], id, withdrawn);
    }
  }

  lemma {:induction false} KeptDistinct(s: seq<TaskId>, withdrawn: set<TaskId>)
    requires Distinct(s)
    ensures Distinct(Kept(s, withdrawn))
    ensures forall id :: id in Kept(s, withdrawn) <==> id in s && id !in withdrawn
  {
    if s != [] {
      KeptDistinct(s[1..], withdrawn);
    }
  }

  lemma {:induction false} KeptOthers(s: seq<TaskId>, id: TaskId, withdrawn: set<TaskId>)
    requires id !in s
    ensures Kept(s, withdrawn + {id}) == Kept(s, withdrawn)
  {
    if s != [] {
      KeptOthers(s[1..], id, withdrawn);
    }
  }

  lemma {:induction false} KeptWithdraw(s: seq<TaskId>, id: TaskId, withdrawn: set<TaskId>)
    requires Distinct(s)
    ensures Kept(s, withdrawn + {id}) == WithoutFirst(Kept(s, withdrawn), id)
  {
    if s != [] {
      KeptWithdraw(s[1..], id, withdrawn);
      if s[0] == id {
        KeptOthers(s[1..], id, withdrawn);
        KeptDistinct(s[1..], withdrawn);
        if id in withdrawn {
          WithoutAbsent(Kept(s[1..], withdrawn), id);
        }
      }
    }
  }

  lemma {:induction false} WithoutAbsent(s: seq<TaskId>, id: TaskId)
    requires id !in s
    ensures WithoutFirst(s, id) == s
  {
    if s != [] {
      WithoutAbsent(s[1..], id);
    }
  }

  lemma {:induction false} WithoutFirstLater(a: seq<TaskId>, b: seq<TaskId>, id: TaskId)
    requires id !in a
    ensures WithoutFirst(a + b, id) == a + WithoutFirst(b, id)
  {
    if a == [] {
      assert a + b == b;
    } else {
      assert (a + b)[1..] == a[1..] + b;
      WithoutFirstLater(a[1..], b, id);
    }
  }

  lemma {:induction false} WithoutFirstMembers(s: seq<TaskId>, id: TaskId)
    requires Distinct(s)
    ensures forall x :: x in WithoutFirst(s, id) <==> x in s && x != id
  {
    if s != [] {
      WithoutFirstMembers(s[1..], id);
    }
  }

  // ---- Each event keeps the invariant ----

  // In a consistent world no queue entry is stale.
  lemma NothingStale(w: World, c: string)
    requires QueueOfTasks(w, c)
    ensures SkipStale(w.broker.tasks, Queue(w.broker.pending, c)) == Queue(w.broker.pending, c)
  {
    var q := Queue(w.broker.pending, c);
    if q != [] {
      assert q[0] in q;
    }
  }

  // What is claimed and what is queued never meet.
  lemma ClaimedNotQueued(w: World, c: string)
    requires Fifo(w, c)
    ensures Distinct(Queue(w.broker.pending, c)) && Distinct(Queue(w.log.claimed, c))
    ensures forall id :: id in Queue(w.broker.pending, c) ==>
        id !in Queue(w.log.claimed, c) && id !in w.log.withdrawn && id in w.log.home && w.log.home[id] == c
  {
    KeptDistinct(Queue(w.log.submitted, c), w.log.withdrawn);
    var a, b := Queue(w.log.claimed, c), Queue(w.broker.pending, c);
    assert Distinct(a + b);
    DistinctParts(a, b);
    assert forall id :: id in b ==> id in a + b;
  }

  lemma DistinctParts<T>(a: seq<T>, b: seq<T>)
    requires Distinct(a + b)
    ensures Distinct(a) && Distinct(b)
    ensures forall x :: x in b ==> x !in a
  {
    forall i, j | 0 <= i < j < |a|
      ensures a[i] != a[j]
    {
      assert (a + b)[i] != (a + b)[j];
    }
    forall i, j | 0 <= i < j < |b|
      ensures b[i] != b[j]
    {
      assert (a + b)[|a| + i] != (a + b)[|a| + j];
    }
    forall i, j | 0 <= i < |a| && 0 <= j < |b|
      ensures a[i] != b[j]
    {
      assert (a + b)[i] != (a + b)[|a| + j];
    }
  }

  // A queued task that leaves its queue unclaimed, marked as withdrawn.
  lemma Withdrawing(w: World, id: TaskId, c: string)
    requires Fifo(w, c) && id in Queue(w.broker.pending, c)
    ensures Kept(Queue(w.log.submitted, c), w.log.withdrawn + {id})
         == Queue(w.log.claimed, c) + WithoutFirst(Queue(w.broker.pending, c), id)
    ensures forall x :: x in WithoutFirst(Queue(w.broker.pending, c), id) <==>
        x in Queue(w.broker.pending, c) && x != id
  {
    ClaimedNotQueued(w, c);
    KeptWithdraw(Queue(w.log.submitted, c), id, w.log.withdrawn);
    WithoutFirstLater(Queue(w.log.claimed, c), Queue(w.broker.pending, c), id);
    WithoutFirstMembers(Queue(w.broker.pending, c), id);
  }

  // Every event is one or two of the following small changes; each keeps the invariant.

  ghost function Retire(w: World, now: Time): World {
    w.(broker := w.broker.(finished := Retained(w.broker.finished, now)))
  }

  lemma RetireKeeps(w: World, now: Time)
    requires Inv(w)
    ensures Inv(Retire(w, now))
  {
    var w' := Retire(w, now);
    forall c
      ensures Fifo(w', c) && QueueOfTasks(w', c) && WithinLimit(w'.broker, c)
    {
      assert Fifo(w, c) && QueueOfTasks(w, c) && WithinLimit(w.broker, c);
    }
    forall x
      ensures TaskTracked(w', x) && ResultOnce(w', x) && HandedOk(w', x)
    {
      assert TaskTracked(w, x) && ResultOnce(w, x) && HandedOk(w, x);
    }
    forall p
      ensures RightlyAsleep(w', p)
    {
      assert RightlyAsleep(w, p);
    }
  }

  ghost function Enqueue(w: World, t: Task, id: TaskId, sub: Submission): World {
    var c := t.collector;
    var s := w.broker.(tasks := w.broker.tasks[id := t],
                       pending := w.broker.pending[c := Queue(w.broker.pending, c) + [id]],
                       results := w.broker.results[id := []]);
    w.(broker := Signal(s, c), log := w.log.(
      home := w.log.home[id := c], submitted := w.log.submitted[c := Queue(w.log.submitted, c) + [id]],
      asked := w.log.asked[id := sub], sent := w.log.sent[id := []], received := w.log.received[id := []]))
  }

  lemma EnqueueFifo(w: World, t: Task, id: TaskId, sub: Submission, c: string)
    requires Fifo(w, c) && id !in w.log.withdrawn && id !in w.log.home
    ensures Fifo(Enqueue(w, t, id, sub), c)
  {
    if c == t.collector {
      KeptAppend(Queue(w.log.submitted, c), id, w.log.withdrawn);
      assert Queue(w.log.claimed, c) + (Queue(w.broker.pending, c) + [id])
          == Queue(w.log.claimed, c) + Queue(w.broker.pending, c) + [id];
    }
  }

  lemma EnqueueQueue(w: World, t: Task, id: TaskId, sub: Submission, c: string)
    requires QueueOfTasks(w, c) && id !in w.broker.tasks && t.phase == Pending
    ensures QueueOfTasks(Enqueue(w, t, id, sub), c)
  {}

  lemma EnqueueLimit(w: World, t: Task, id: TaskId, sub: Submission, c: string)
    requires WithinLimit(w.broker, c) && id !in w.broker.tasks
    requires |InFlight(w.broker.tasks, t.collector)| < MAX_IN_FLIGHT
    ensures WithinLimit(Enqueue(w, t, id, sub).broker, c)
  {
    var now := InFlight(Enqueue(w, t, id, sub).broker.tasks, c);
    assert now == if c == t.collector then InFlight(w.broker.tasks, c) + {id} else InFlight(w.broker.tasks, c);
  }

  lemma EnqueueTask(w: World, t: Task, id: TaskId, sub: Submission, x: TaskId)
    requires TaskTracked(w, x) && ResultOnce(w, x) && HandedOk(w, x) && (x == id ==> id !in w.log.home)
    requires t.phase == Pending && t.delivery.taskId == id && AsAsked(sub, t.collector, t.delivery)
    ensures var w' := Enqueue(w, t, id, sub); TaskTracked(w', x) && ResultOnce(w', x) && HandedOk(w', x)
  {
    var q := Queue(w.broker.pending, t.collector);
    assert id in q + [id];
    assert x in q ==> x in q + [id];
  }

  lemma EnqueueKeeps(w: World, t: Task, id: TaskId, sub: Submission)
    requires Inv(w) && id !in w.log.home
    requires t.phase == Pending && t.delivery.taskId == id && AsAsked(sub, t.collector, t.delivery)
    requires |InFlight(w.broker.tasks, t.collector)| < MAX_IN_FLIGHT
    ensures Inv(Enqueue(w, t, id, sub))
  {
    assert ResultOnce(w, id);
    var w' := Enqueue(w, t, id, sub);
    forall c
      ensures Fifo(w', c) && QueueOfTasks(w', c) && WithinLimit(w'.broker, c)
    {
      EnqueueFifo(w, t, id, sub, c);
      EnqueueQueue(w, t, id, sub, c);
      EnqueueLimit(w, t, id, sub, c);
    }
    forall x { EnqueueTask(w, t, id, sub, x); }
    forall p
      ensures RightlyAsleep(Enqueue(w, t, id, sub), p)
    {
      assert RightlyAsleep(w, p);
    }
  }

  lemma SubmitKeeps(w: World, sub: Submission, id: TaskId, now: Time)
    requires Inv(w) && id !in w.log.home
    ensures Inv(AfterSubmit(w, sub, id, now))
  {
    RetireKeeps(w, now);
    var (s, failure) := Submit(w.broker, sub, id, now);
    if failure.None? {
      assert AfterSubmit(w, sub, id, now) == Enqueue(Retire(w, now), NewTask(sub, id), id, sub);
      EnqueueKeeps(Retire(w, now), NewTask(sub, id), id, sub);
    } else {
      assert AfterSubmit(w, sub, id, now) == w || AfterSubmit(w, sub, id, now) == Retire(w, now);
    }
  }

  ghost function WakeUp(w: World, p: PullerId): World {
    w.(asleep := w.asleep - {p})
  }

  lemma WakeUpKeeps(w: World, p: PullerId)
    requires Inv(w)
    ensures Inv(WakeUp(w, p))
  {
    var w' := WakeUp(w, p);
    forall c
      ensures Fifo(w', c) && QueueOfTasks(w', c)
    {
      assert Fifo(w, c) && QueueOfTasks(w, c);
    }
    forall x
      ensures TaskTracked(w', x) && ResultOnce(w', x) && HandedOk(w', x)
    {
      assert TaskTracked(w, x) && ResultOnce(w, x) && HandedOk(w, x);
    }
    forall o
      ensures RightlyAsleep(w', o)
    {
      assert RightlyAsleep(w, o);
    }
  }

  // A collector's channel is opened when it has none.
  ghost function Opened(w: World, c: string): World {
    var s := w.broker;
    if c in s.notify then w
    else w.(broker := s.(notify := s.notify[c := s.nextChannel], nextChannel := s.nextChannel + 1))
  }

  ghost function FallAsleep(w: World, p: PullerId, c: string): World {
    var w' := Opened(w, c);
    w'.(asleep := w'.asleep[p := Sleeper(c, w'.broker.notify[c])])
  }

  lemma OpenedCollector(w: World, c: string, d: string)
    requires Fifo(w, d) && QueueOfTasks(w, d) && WithinLimit(w.broker, d)
    ensures Fifo(Opened(w, c), d) && QueueOfTasks(Opened(w, c), d) && WithinLimit(Opened(w, c).broker, d)
  {}

  lemma OpenedTask(w: World, c: string, x: TaskId)
    requires TaskTracked(w, x) && ResultOnce(w, x) && HandedOk(w, x)
    ensures TaskTracked(Opened(w, c), x) && ResultOnce(Opened(w, c), x) && HandedOk(Opened(w, c), x)
  {}

  lemma OpenedPuller(w: World, c: string, o: PullerId)
    requires RightlyAsleep(w, o)
    ensures RightlyAsleep(Opened(w, c), o)
  {}

  lemma OpenedChannels(w: World, c: string)
    requires ChannelsSound(w.broker)
    ensures ChannelsSound(Opened(w, c).broker) && c in Opened(w, c).broker.notify
  {}

  lemma OpenedKeeps(w: World, c: string)
    requires Inv(w)
    ensures Inv(Opened(w, c)) && c in Opened(w, c).broker.notify
  {
    forall d { OpenedCollector(w, c, d); }
    forall x { OpenedTask(w, c, x); }
    forall o { OpenedPuller(w, c, o); }
    OpenedChannels(w, c);
  }

  lemma DozeKeeps(w: World, p: PullerId, c: string)
    requires Inv(w) && Queue(w.broker.pending, c) == [] && c in w.broker.notify
    ensures Inv(w.(asleep := w.asleep[p := Sleeper(c, w.broker.notify[c])]))
  {
    var w' := w.(asleep := w.asleep[p := Sleeper(c, w.broker.notify[c])]);
    forall d
      ensures Fifo(w', d) && QueueOfTasks(w', d) && WithinLimit(w'.broker, d)
    {
      assert Fifo(w, d) && QueueOfTasks(w, d) && WithinLimit(w.broker, d);
    }
    forall x
      ensures TaskTracked(w', x) && ResultOnce(w', x) && HandedOk(w', x)
    {
      assert TaskTracked(w, x) && ResultOnce(w, x) && HandedOk(w, x);
    }
    forall o
      ensures RightlyAsleep(w', o)
    {
      assert RightlyAsleep(w, o);
    }
  }

  lemma FallAsleepKeeps(w: World, p: PullerId, c: string)
    requires Inv(w) && Queue(w.broker.pending, c) == []
    ensures Inv(FallAsleep(w, p, c))
  {
    OpenedKeeps(w, c);
    DozeKeeps(Opened(w, c), p, c);
  }

  // The head of a queue is claimed.
  ghost function ClaimHead(w: World, c: string, claim: string): World
    requires Queue(w.broker.pending, c) != [] && Queue(w.broker.pending, c)[0] in w.broker.tasks
  {
    var q := Queue(w.broker.pending, c);
    w.(broker := w.broker.(pending := w.broker.pending[c := q[1..]],
                           tasks := w.broker.tasks[q[0] := ClaimedTask(w.broker.tasks[q[0]], claim)]),
       log := w.log.(
         claimed := w.log.claimed[c := Queue(w.log.claimed, c) + [q[0]]],
         claimIds := w.log.claimIds[q[0] := claim],
         handed := w.log.handed[q[0] := (c, ClaimedTask(w.broker.tasks[q[0]], claim).delivery)]))
  }

  lemma ClaimHeadCollector(w: World, c: string, claim: string, d: string)
    requires Fifo(w, c) && QueueOfTasks(w, c) && Fifo(w, d) && QueueOfTasks(w, d) && WithinLimit(w.broker, d)
    requires Queue(w.broker.pending, c) != [] && Queue(w.broker.pending, c)[0] in Queue(w.broker.pending, c)
    ensures var w' := ClaimHead(w, c, claim); Fifo(w', d) && QueueOfTasks(w', d) && WithinLimit(w'.broker, d)
  {
    var q := Queue(w.broker.pending, c);
    var w' := ClaimHead(w, c, claim);
    assert InFlight(w'.broker.tasks, d) == InFlight(w.broker.tasks, d);
    if d == c {
      Withdrawing(w, q[0], c);
      assert Queue(w.log.claimed, c) + [q[0]] + q[1..] == Queue(w.log.claimed, c) + q;
    } else {
      ClaimedNotQueued(w, c);
      ClaimedNotQueued(w, d);
    }
  }

  lemma ClaimHeadTask(w: World, c: string, claim: string, x: TaskId)
    requires Fifo(w, c) && QueueOfTasks(w, c) && TaskTracked(w, x) && ResultOnce(w, x) && HandedOk(w, x)
    requires Queue(w.broker.pending, c) != [] && Queue(w.broker.pending, c)[0] in Queue(w.broker.pending, c)
    ensures var w' := ClaimHead(w, c, claim); TaskTracked(w', x) && ResultOnce(w', x) && HandedOk(w', x)
  {
    var q := Queue(w.broker.pending, c);
    Withdrawing(w, q[0], c);
    ClaimedNotQueued(w, c);
    assert q[0] in Queue(w.log.claimed, c) + [q[0]];
  }

  lemma ClaimHeadKeeps(w: World, c: string, claim: string)
    requires Inv(w) && Queue(w.broker.pending, c) != []
    ensures Queue(w.broker.pending, c)[0] in w.broker.tasks && Inv(ClaimHead(w, c, claim))
  {
    assert Fifo(w, c) && QueueOfTasks(w, c);
    assert Queue(w.broker.pending, c)[0] in Queue(w.broker.pending, c);
    forall d { ClaimHeadCollector(w, c, claim, d); }
    forall x { ClaimHeadTask(w, c, claim, x); }
    forall p
      ensures RightlyAsleep(ClaimHead(w, c, claim), p)
    {
      assert RightlyAsleep(w, p);
    }
  }

  // A queued task leaves the broker with its place in the queue.
  ghost function Unqueue(w: World, c: string, id: TaskId): World {
    w.(broker := w.broker.(pending := w.broker.pending[c := WithoutFirst(Queue(w.broker.pending, c), id)],
                           tasks := w.broker.tasks - {id}),
       log := w.log.(withdrawn := w.log.withdrawn + {id}))
  }

  lemma UnqueueCollector(w: World, c: string, id: TaskId, d: string)
    requires Fifo(w, c) && Fifo(w, d) && QueueOfTasks(w, d) && WithinLimit(w.broker, d)
        && id in Queue(w.broker.pending, c)
    ensures var w' := Unqueue(w, c, id); Fifo(w', d) && QueueOfTasks(w', d) && WithinLimit(w'.broker, d)
  {
    if d == c {
      UnqueueOwn(w, c, id);
    } else {
      UnqueueOther(w, c, id, d);
    }
  }

  lemma UnqueueOwn(w: World, c: string, id: TaskId)
    requires Fifo(w, c) && QueueOfTasks(w, c) && WithinLimit(w.broker, c) && id in Queue(w.broker.pending, c)
    ensures var w' := Unqueue(w, c, id); Fifo(w', c) && QueueOfTasks(w', c) && WithinLimit(w'.broker, c)
  {
    Withdrawing(w, id, c);
    ClaimedNotQueued(w, c);
    SmallerSet(InFlight(Unqueue(w, c, id).broker.tasks, c), InFlight(w.broker.tasks, c));
  }

  lemma UnqueueOther(w: World, c: string, id: TaskId, d: string)
    requires Fifo(w, c) && Fifo(w, d) && QueueOfTasks(w, d) && WithinLimit(w.broker, d)
        && id in Queue(w.broker.pending, c) && d != c
    ensures var w' := Unqueue(w, c, id); Fifo(w', d) && QueueOfTasks(w', d) && WithinLimit(w'.broker, d)
  {
    ClaimedNotQueued(w, c);
    ClaimedNotQueued(w, d);
    SmallerSet(InFlight(Unqueue(w, c, id).broker.tasks, d), InFlight(w.broker.tasks, d));
    KeptOthers(Queue(w.log.submitted, d), id, w.log.withdrawn);
  }

  lemma UnqueueTask(w: World, c: string, id: TaskId, x: TaskId)
    requires Fifo(w, c) && TaskTracked(w, x) && ResultOnce(w, x) && HandedOk(w, x) && id in Queue(w.broker.pending, c)
    ensures var w' := Unqueue(w, c, id); TaskTracked(w', x) && ResultOnce(w', x) && HandedOk(w', x)
  {
    Withdrawing(w, id, c);
    ClaimedNotQueued(w, c);
  }

  lemma UnqueueKeeps(w: World, c: string, id: TaskId)
    requires Inv(w) && id in Queue(w.broker.pending, c)
    ensures Inv(Unqueue(w, c, id))
  {
    assert Fifo(w, c);
    var w' := Unqueue(w, c, id);
    forall d { UnqueueCollector(w, c, id, d); }
    forall x { UnqueueTask(w, c, id, x); }
    Withdrawing(w, id, c);
    forall p
      ensures RightlyAsleep(w', p)
    {
      assert RightlyAsleep(w, p);
    }
  }

  lemma PullIs(w: World, p: PullerId, c: string, claimId: string, q: seq<TaskId>)
    requires !Blank(c) && q == Queue(w.broker.pending, c) && SkipStale(w.broker.tasks, q) == q
    requires q != [] ==> q[0] in w.broker.tasks && w.broker.tasks[q[0]].delivery.taskId == q[0]
    ensures q == [] ==> AfterPull(w, p, c, claimId) == FallAsleep(WakeUp(w, p), p, c)
    ensures q != [] ==> AfterPull(w, p, c, claimId) == ClaimHead(WakeUp(w, p), c, claimId)
  {
    if q == [] && c in w.broker.pending {
      assert w.broker.pending[c := []] == w.broker.pending;
    }
  }

  lemma PullKeeps(w: World, p: PullerId, c: string, claimId: string)
    requires Inv(w)
    ensures Inv(AfterPull(w, p, c, claimId))
  {
    var w0 := WakeUp(w, p);
    WakeUpKeeps(w, p);
    if Blank(c) {
      assert AfterPull(w, p, c, claimId) == w0;
    } else {
      assert QueueOfTasks(w, c);
      NothingStale(w, c);
      var q := Queue(w.broker.pending, c);
      if q != [] {
        assert q[0] in q;
        assert TaskTracked(w, q[0]);
      }
      PullIs(w, p, c, claimId, q);
      if q == [] {
        FallAsleepKeeps(w0, p, c);
      } else {
        ClaimHeadKeeps(w0, c, claimId);
      }
    }
  }

  // A task that is not queued leaves the broker.
  ghost function Forget(w: World, id: TaskId): World {
    w.(broker := w.broker.(tasks := w.broker.tasks - {id}))
  }

  lemma ForgetCollector(w: World, id: TaskId, c: string)
    requires QueueOfTasks(w, c) && WithinLimit(w.broker, c) && id !in Queue(w.broker.pending, c)
    ensures QueueOfTasks(Forget(w, id), c) && WithinLimit(Forget(w, id).broker, c)
  {
    SmallerSet(InFlight(Forget(w, id).broker.tasks, c), InFlight(w.broker.tasks, c));
  }

  lemma ForgetKeeps(w: World, id: TaskId)
    requires Inv(w) && forall c :: id !in Queue(w.broker.pending, c)
    ensures Inv(Forget(w, id))
  {
    var w' := Forget(w, id);
    forall c
      ensures Fifo(w', c) && QueueOfTasks(w', c) && WithinLimit(w'.broker, c)
    {
      assert Fifo(w, c) && QueueOfTasks(w, c) && WithinLimit(w.broker, c);
      ForgetCollector(w, id, c);
    }
    forall x
      ensures TaskTracked(w', x) && ResultOnce(w', x) && HandedOk(w', x)
    {
      assert TaskTracked(w, x) && ResultOnce(w, x) && HandedOk(w, x);
    }
    forall p
      ensures RightlyAsleep(w', p)
    {
      assert RightlyAsleep(w, p);
    }
  }

  // The one result of a task already forgotten.
  ghost function Report(w: World, c: string, req: Completion, now: Time): World
    requires req.taskId in w.broker.results && req.taskId in w.log.sent
  {
    var s := w.broker;
    w.(broker := s.(results := s.results[req.taskId := s.results[req.taskId] + [req]],
                    finished := s.finished[req.taskId := Finished(c, req.claimId, now)]),
       log := w.log.(sent := w.log.sent[req.taskId := w.log.sent[req.taskId] + [req]]))
  }

  lemma ReportKeeps(w: World, c: string, req: Completion, now: Time)
    requires Inv(w) && req.taskId in w.log.home && req.taskId !in w.broker.tasks
    requires req.taskId in w.log.sent && w.log.sent[req.taskId] == []
    requires req.taskId in w.log.claimIds && w.log.claimIds[req.taskId] == req.claimId
    ensures req.taskId in w.broker.results && Inv(Report(w, c, req, now))
  {
    assert ResultOnce(w, req.taskId);
    var w' := Report(w, c, req, now);
    forall c
      ensures Fifo(w', c) && QueueOfTasks(w', c) && WithinLimit(w'.broker, c)
    {
      assert Fifo(w, c) && QueueOfTasks(w, c) && WithinLimit(w.broker, c);
    }
    forall x
      ensures TaskTracked(w', x) && ResultOnce(w', x) && HandedOk(w', x)
    {
      assert TaskTracked(w, x) && ResultOnce(w, x) && HandedOk(w, x);
    }
    forall p
      ensures RightlyAsleep(w', p)
    {
      assert RightlyAsleep(w, p);
    }
  }

  lemma ClaimedIsNotQueued(w: World, id: TaskId)
    requires Inv(w) && id in w.broker.tasks && w.broker.tasks[id].phase == Claimed
    ensures forall c :: id !in Queue(w.broker.pending, c)
  {
    forall c
      ensures id !in Queue(w.broker.pending, c)
    {
      assert QueueOfTasks(w, c);
    }
  }

  lemma CompleteKeeps(w: World, c: string, req: Completion, now: Time)
    requires Inv(w)
    ensures Inv(AfterComplete(w, c, req, now))
  {
    var w0, id := Retire(w, now), req.taskId;
    RetireKeeps(w, now);
    var (s, failure) := Complete(w.broker, c, req, now);
    if failure.None? && id in w.broker.tasks {
      assert TaskTracked(w, id) && ResultOnce(w, id);
      ClaimedIsNotQueued(w0, id);
      ForgetKeeps(w0, id);
      ReportKeeps(Forget(w0, id), c, req, now);
      assert AfterComplete(w, c, req, now) == Report(Forget(w0, id), c, req, now);
    } else {
      assert AfterComplete(w, c, req, now) == w || AfterComplete(w, c, req, now) == w0;
    }
  }

  lemma GiveUpKeeps(w: World, id: TaskId)
    requires Inv(w)
    ensures Inv(AfterGiveUp(w, id))
  {
    var w' := AfterGiveUp(w, id);
    if id in w.broker.tasks {
      var t := w.broker.tasks[id];
      assert TaskTracked(w, id) && ResultOnce(w, id) && Fifo(w, t.collector) && QueueOfTasks(w, t.collector);
      if id in Queue(w.broker.pending, t.collector) {
        UnqueueKeeps(w, t.collector, id);
        assert w' == Unqueue(w, t.collector, id);
      } else {
        forall d
          ensures id !in Queue(w.broker.pending, d)
        {
          assert QueueOfTasks(w, d);
        }
        ForgetKeeps(w, id);
        assert w' == Forget(w, id);
      }
    } else {
      assert w' == w;
    }
  }

  lemma ReceiveKeeps(w: World, id: TaskId)
    requires Inv(w)
    ensures Inv(AfterReceive(w, id))
  {
    var w' := AfterReceive(w, id);
    forall c
      ensures Fifo(w', c) && QueueOfTasks(w', c) && WithinLimit(w'.broker, c)
    {
      assert Fifo(w, c) && QueueOfTasks(w, c) && WithinLimit(w.broker, c);
    }
    forall x
      ensures TaskTracked(w', x) && ResultOnce(w', x) && HandedOk(w', x)
    {
      assert TaskTracked(w, x) && ResultOnce(w, x) && HandedOk(w, x);
      if id in w.log.received && id in w.broker.results && w.broker.results[id] != [] {
        assert w.log.received[id] + [w.broker.results[id][0]] + w.broker.results[id][1..]
            == w.log.received[id] + w.broker.results[id];
      }
    }
    forall p
      ensures RightlyAsleep(w', p)
    {
      assert RightlyAsleep(w, p);
    }
  }

  lemma EventKeeps(w: World, e: Event)
    requires Inv(w) && Possible(w, e)
    ensures Inv(After(w, e))
  {
    match e
    case SubmitEvent(sub, id, now) =>
      assert ResultOnce(w, id);
      SubmitKeeps(w, sub, id, now);
    case PullEvent(p, c, claimId) => PullKeeps(w, p, c, claimId);
    case StopPulling(p) => WakeUpKeeps(w, p);
    case CompleteEvent(c, req, now) => CompleteKeeps(w, c, req, now);
    case ReceiveEvent(id) => ReceiveKeeps(w, id);
    case GiveUp(id) => GiveUpKeeps(w, id);
  }

  lemma {:induction false} RunKeeps(w: World, events: seq<Event>)
    requires Inv(w) && IsRun(w, events)
    ensures Inv(Outcome(w, events))
    decreases |events|
  {
    if events != [] {
      EventKeeps(w, events[0]);
      RunKeeps(After(w, events[0]), events[1..]);
    }
  }

  // ---- What callers can rely on ----

  lemma ReachableInv(events: seq<Event>)
    requires IsRun(START, events)
    ensures Inv(Outcome(START, events))
  {
    forall c
      ensures Fifo(START, c) && WithinLimit(START.broker, c)
    {
      assert InFlight(START.broker.tasks, c) == {};
    }
    RunKeeps(START, events);
  }

  // Each task is claimed at most once, and claims follow the order of submission: they
  // are a prefix of what was submitted and not withdrawn, and the queue is the rest.
  lemma ClaimsFollowSubmissions(events: seq<Event>, c: string)
    requires IsRun(START, events)
    ensures var w := Outcome(START, events);
      && Distinct(Queue(w.log.claimed, c))
      && Kept(Queue(w.log.submitted, c), w.log.withdrawn) == Queue(w.log.claimed, c) + Queue(w.broker.pending, c)
      && |InFlight(w.broker.tasks, c)| <= MAX_IN_FLIGHT
  {
    ReachableInv(events);
    var w := Outcome(START, events);
    assert Fifo(w, c) && WithinLimit(w.broker, c);
    ClaimedNotQueued(w, c);
  }

  // Queue entries are exactly the waiting tasks of the collector, each once.
  lemma QueueIsTheWaitingTasks(events: seq<Event>, c: string, id: TaskId)
    requires IsRun(START, events)
    ensures var w := Outcome(START, events);
      && Distinct(Queue(w.broker.pending, c))
      && (id in Queue(w.broker.pending, c) <==> Claimable(w.broker.tasks, id) && w.broker.tasks[id].collector == c)
      && (id in w.log.withdrawn ==> id !in w.broker.tasks)
      && !(id in w.broker.tasks && id in w.broker.finished)
  {
    ReachableInv(events);
    var w := Outcome(START, events);
    assert Fifo(w, c) && QueueOfTasks(w, c) && TaskTracked(w, id) && ResultOnce(w, id);
    ClaimedNotQueued(w, c);
  }

  // A submitter receives at most one result, for its own task, sent under the claim id
  // that the task's one claim handed out; and a result is only ever put on an empty
  // channel, so that the broker never blocks while it holds its mutex.
  lemma OneResultPerTask(events: seq<Event>, id: TaskId)
    requires IsRun(START, events) && id in Outcome(START, events).log.home
    ensures var w := Outcome(START, events);
      && id in w.log.received && id in w.log.sent && |w.log.sent[id]| <= 1 && w.log.received[id] <= w.log.sent[id]
      && (forall r :: r in w.log.received[id] ==>
            r.taskId == id && id in w.log.claimIds && r.claimId == w.log.claimIds[id])
      && (id in w.broker.tasks ==> id in w.broker.results && w.broker.results[id] == [])
  {
    ReachableInv(events);
    var w := Outcome(START, events);
    assert ResultOnce(w, id);
    if w.log.received[id] != [] {
      assert w.log.sent[id] == [w.log.received[id][0]] + (w.log.received[id][1..] + w.broker.results[id]);
    }
  }

  // Whatever waits, is claimed or was ever handed out is what was submitted, for the
  // collector that it was submitted for, under the ids drawn for it.
  lemma DeliveriesAreAsSubmitted(events: seq<Event>, id: TaskId)
    requires IsRun(START, events)
    ensures var w := Outcome(START, events);
      && (id in w.broker.tasks || id in w.log.handed ==> id in w.log.asked)
      && (id in w.broker.tasks ==>
            var t, sub := w.broker.tasks[id], w.log.asked[id];
            && t.collector == sub.collector && t.delivery.taskId == id && t.delivery.traceId == sub.traceId
            && t.delivery.upstream == sub.upstream && t.delivery.tool == sub.tool
            && t.delivery.arguments == sub.arguments)
      && (id in w.log.handed ==>
            var d, sub := w.log.handed[id].1, w.log.asked[id];
            && w.log.handed[id].0 == sub.collector && d.taskId == id && d.traceId == sub.traceId
            && d.upstream == sub.upstream && d.tool == sub.tool && d.arguments == sub.arguments
            && id in w.log.claimIds && d.claimId == w.log.claimIds[id])
  {
    ReachableInv(events);
    var w := Outcome(START, events);
    assert TaskTracked(w, id) && HandedOk(w, id);
  }

  // A pull of a collector that has work hands out the first task in its queue, as it was
  // submitted and under the claim id drawn for the pull.
  lemma PullHandsOutTheFirst(events: seq<Event>, c: string, claimId: string)
    requires IsRun(START, events) && !Blank(c) && Queue(Outcome(START, events).broker.pending, c) != []
    ensures var w := Outcome(START, events);
      var o, id := Pull(w.broker, c, claimId).1, Queue(w.broker.pending, c)[0];
      && o.Got? && id in w.log.asked
      && var d, sub := o.delivery, w.log.asked[id];
         && sub.collector == c && d.taskId == id && d.claimId == claimId && d.traceId == sub.traceId
         && d.upstream == sub.upstream && d.tool == sub.tool && d.arguments == sub.arguments
  {
    ReachableInv(events);
    var w := Outcome(START, events);
    var id := Queue(w.broker.pending, c)[0];
    assert id in Queue(w.broker.pending, c);
    assert QueueOfTasks(w, c) && TaskTracked(w, id);
    NothingStale(w, c);
  }

  // No puller sleeps on while its collector has work: its channel has been closed.
  lemma NobodySleepsThroughWork(events: seq<Event>, p: PullerId)
    requires IsRun(START, events) && p in Outcome(START, events).asleep
    ensures var w := Outcome(START, events);
      Queue(w.broker.pending, w.asleep[p].collector) != [] ==> w.asleep[p].channel in w.broker.closed
  {
    ReachableInv(events);
    assert RightlyAsleep(Outcome(START, events), p);
  }

  // Signalling closes an open channel only: closing one twice would stop the process.
  lemma SignalClosesOpenChannels(events: seq<Event>, c: string)
    requires IsRun(START, events)
    ensures var s := Outcome(START, events).broker; c in s.notify ==> s.notify[c] !in s.closed
  {
    ReachableInv(events);
  }

  // ---- Repeated completions ----

  predicate NoLaterThan(e: Event, limit: Time) {
    match e
    case SubmitEvent(_, _, now) => now <= limit
    case CompleteEvent(_, _, now) => now <= limit
    case _ => true
  }

  lemma RememberedNext(w: World, e: Event, id: TaskId, f: Finished)
    requires Possible(w, e) && ResultOnce(w, id) && NoLaterThan(e, f.at + RETENTION)
    requires id in w.broker.finished && w.broker.finished[id] == f
    ensures var s := After(w, e).broker; id in s.finished && s.finished[id] == f
  {
    match e
    case SubmitEvent(sub, newId, now) => SubmitRemembers(w.broker, sub, newId, now, id);
    case PullEvent(_, c, claimId) => PullRemembers(w.broker, c, claimId);
    case CompleteEvent(c, req, now) => CompleteRemembers(w.broker, c, req, now, id);
    case StopPulling(_) =>
    case ReceiveEvent(_) =>
    case GiveUp(_) =>
  }

  lemma SubmitRemembers(s: State, sub: Submission, newId: TaskId, now: Time, id: TaskId)
    requires id in s.finished && now <= s.finished[id].at + RETENTION
    ensures var s' := Submit(s, sub, newId, now).0; id in s'.finished && s'.finished[id] == s.finished[id]
  {}

  lemma PullRemembers(s: State, c: string, claimId: string)
    ensures Pull(s, c, claimId).0.finished == s.finished
  {}

  lemma CompleteRemembers(s: State, c: string, req: Completion, now: Time, id: TaskId)
    requires id in s.finished && now <= s.finished[id].at + RETENTION && id !in s.tasks
    ensures var s' := Complete(s, c, req, now).0; id in s'.finished && s'.finished[id] == s.finished[id]
  {}

  // For ten minutes after a completion the broker remembers who made it.
  lemma {:induction false} Remembered(w: World, events: seq<Event>, id: TaskId, f: Finished)
    requires Inv(w) && IsRun(w, events)
    requires id in w.broker.finished && w.broker.finished[id] == f
    requires forall e :: e in events ==> NoLaterThan(e, f.at + RETENTION)
    ensures var s := Outcome(w, events).broker; id in s.finished && s.finished[id] == f
    decreases |events|
  {
    if events != [] {
      assert events[0] in events;
      EventKeeps(w, events[0]);
      RememberedNext(w, events[0], id, f);
      forall e | e in events[1..]
        ensures NoLaterThan(e, f.at + RETENTION)
      {
        assert e in events;
      }
      Remembered(After(w, events[0]), events[1..], id, f);
    }
  }

  // Completing again within ten minutes: the claimant gets the same success, anyone
  // else a conflict, and nothing is sent a second time.
  lemma CompletionIsIdempotent(before: seq<Event>, after: seq<Event>, c: string, req: Completion, now: Time,
                               c': string, again: Completion, later: Time)
    requires IsRun(START, before)
    requires Complete(Outcome(START, before).broker, c, req, now).1.None?
    requires req.taskId in Outcome(START, before).broker.tasks
    requires IsRun(AfterComplete(Outcome(START, before), c, req, now), after)
    requires forall e :: e in after ==> NoLaterThan(e, now + RETENTION)
    requires again.taskId == req.taskId && WellFormed(c', again) && later <= now + RETENTION
    ensures var s := Outcome(AfterComplete(Outcome(START, before), c, req, now), after).broker;
      && Complete(s, c', again, later).1
           == (if c' == c && again.claimId == req.claimId then None else Some(Conflict))
      && Complete(s, c', again, later).0.results == s.results
      && Complete(s, c', again, later).0.tasks == s.tasks
  {
    ReachableInv(before);
    var w := Outcome(START, before);
    assert ResultOnce(w, req.taskId);
    CompleteKeeps(w, c, req, now);
    Remembered(AfterComplete(w, c, req, now), after, req.taskId, Finished(c, req.claimId, now));
  }

  // A completed task never comes back: any later completion of it, however late, sends
  // nothing.
  lemma CompletedForGood(events: seq<Event>, c: string, req: Completion, now: Time)
    requires IsRun(START, events)
    requires req.taskId in Outcome(START, events).log.sent && Outcome(START, events).log.sent[req.taskId] != []
    ensures var s := Outcome(START, events).broker; Complete(s, c, req, now).0.results == s.results
  {
    ReachableInv(events);
    assert ResultOnce(Outcome(START, events), req.taskId);
  }
}
