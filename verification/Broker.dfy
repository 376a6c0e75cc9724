/** The collector pull broker: tasks submitted by the gateway wait in one queue per
    collector until that collector claims them, and its result travels back on a
    channel the submitter listens to.

    `State` is what the broker's mutex protects, with the wakeup channels and the
    result channels it writes. Each function is the effect of one critical section,
    stated without loops; class `Broker` performs the same sections step by step.
    Identifiers and names arrive trimmed; a random id can always be drawn. */
module BrokerState {
  import opened Common

  const MAX_IN_FLIGHT: nat := 4
  const RETENTION: int := 10 * MINUTE

  type TaskId = string
  type ChannelId = nat

  datatype Phase = Pending | Claimed

  datatype Delivery = Delivery(
    taskId: TaskId, traceId: string, upstream: string, tool: string, arguments: map<string, string>, claimId: string)

  datatype Task = Task(collector: string, phase: Phase, delivery: Delivery)

  datatype Finished = Finished(collector: string, claimId: string, at: Time)

  datatype Submission = Submission(
    collector: string, upstream: string, traceId: string, tool: string, arguments: map<string, string>)

  datatype Status = Succeeded | Failed | OtherStatus

  // `answer` and `errorCode` are absent when the request carries no output or no error.
  datatype Completion = Completion(
    taskId: TaskId, claimId: string, status: Status, answer: Option<string>, errorCode: Option<string>)

  datatype Failure = Busy | Conflict | Invalid | NotFound

  datatype State = State(
    tasks: map<TaskId, Task>,
    pending: map<string, seq<TaskId>>,
    notify: map<string, ChannelId>,
    finished: map<TaskId, Finished>,
    closed: set<ChannelId>,
    nextChannel: ChannelId,
    results: map<TaskId, seq<Completion>>)

  const EMPTY := State(map[], map[], map[], map[], {}, 0, map[])

  function Queue(pending: map<string, seq<TaskId>>, c: string): seq<TaskId> {
    if c in pending then pending[c] else []
  }

  function InFlight(tasks: map<TaskId, Task>, c: string): set<TaskId> {
    set id | id in tasks && tasks[id].collector == c
  }

  function Retained(finished: map<TaskId, Finished>, now: Time): map<TaskId, Finished> {
    map id | id in finished && now - RETENTION <= finished[id].at :: finished[id]
  }

  // Closes the collector's wakeup channel, if it has one, and installs a fresh one.
  function Signal(s: State, c: string): State {
    s.(closed := if c in s.notify then s.closed + {s.notify[c]} else s.closed,
       notify := s.notify[c := s.nextChannel],
       nextChannel := s.nextChannel + 1)
  }

  function NewTask(sub: Submission, id: TaskId): Task {
    Task(sub.collector, Pending, Delivery(id, sub.traceId, sub.upstream, sub.tool, sub.arguments, ""))
  }

  function Submit(s: State, sub: Submission, id: TaskId, now: Time): (State, Option<Failure>) {
    var c := sub.collector;
    if Blank(c) || Blank(sub.upstream) || Blank(sub.tool) then (s, Some(Invalid))
    else
      var s := s.(finished := Retained(s.finished, now));
      if |InFlight(s.tasks, c)| >= MAX_IN_FLIGHT then (s, Some(Busy))
      else
        var s := s.(tasks := s.tasks[id := NewTask(sub, id)],
                    pending := s.pending[c := Queue(s.pending, c) + [id]],
                    results := s.results[id := []]);
        (Signal(s, c), None)
  }

  predicate Claimable(tasks: map<TaskId, Task>, id: TaskId) {
    id in tasks && tasks[id].phase == Pending
  }

  // The queue from its first entry that can still be claimed.
  function SkipStale(tasks: map<TaskId, Task>, queue: seq<TaskId>): (rest: seq<TaskId>)
    ensures rest != [] ==> Claimable(tasks, rest[0])
  {
    if queue == [] || Claimable(tasks, queue[0]) then queue else SkipStale(tasks, queue[1..])
  }

  datatype PullOutcome = Got(delivery: Delivery) | Wait(channel: ChannelId) | Refused(why: Failure)

  function ClaimedTask(t: Task, claimId: string): Task {
    t.(phase := Claimed, delivery := t.delivery.(claimId := claimId))
  }

  // The critical section of one round of Pull; `claimId` is the random id it may draw.
  function Pull(s: State, c: string, claimId: string): (State, PullOutcome) {
    if Blank(c) then (s, Refused(Invalid))
    else
      var rest := SkipStale(s.tasks, Queue(s.pending, c));
      if rest == [] then
        var s := if c in s.pending then s.(pending := s.pending[c := []]) else s;
        if c in s.notify then (s, Wait(s.notify[c]))
        else (s.(notify := s.notify[c := s.nextChannel], nextChannel := s.nextChannel + 1), Wait(s.nextChannel))
      else
        var t := ClaimedTask(s.tasks[rest[0]], claimId);
        (s.(pending := s.pending[c := rest[1..]], tasks := s.tasks[rest[0] := t]), Got(t.delivery))
  }

  predicate WellFormed(collector: string, req: Completion) {
    && !Blank(collector) && !Blank(req.taskId) && !Blank(req.claimId)
    && req.status != OtherStatus
    && (req.status == Succeeded ==> req.answer.Some? && !Blank(req.answer.value))
    && (req.status == Failed ==> req.errorCode.Some? && !Blank(req.errorCode.value))
  }

  function Complete(s: State, c: string, req: Completion, now: Time): (State, Option<Failure>) {
    var id := req.taskId;
    if !WellFormed(c, req) then (s, Some(Invalid))
    else
      var s := s.(finished := Retained(s.finished, now));
      if id in s.finished then
        (s, if s.finished[id].collector == c && s.finished[id].claimId == req.claimId then None else Some(Conflict))
      else if id !in s.tasks then (s, Some(NotFound))
      else if s.tasks[id].collector != c || s.tasks[id].phase != Claimed
        || s.tasks[id].delivery.claimId != req.claimId then (s, Some(Conflict))
      else
        (s.(results := s.results[id := (if id in s.results then s.results[id] else []) + [req]],
            tasks := s.tasks - {id},
            finished := s.finished[id := Finished(c, req.claimId, now)]), None)
  }

  function WithoutFirst(queue: seq<TaskId>, id: TaskId): seq<TaskId> {
    if queue == [] then []
    else if queue[0] == id then queue[1..]
    else [queue[0]] + WithoutFirst(queue[1..], id)
  }

  function Cancel(s: State, id: TaskId): State {
    if id !in s.tasks then s
    else
      var t := s.tasks[id];
      var s := s.(tasks := s.tasks - {id});
      var queue := Queue(s.pending, t.collector);
      if t.phase != Pending || id !in queue then s
      else s.(pending := s.pending[t.collector := WithoutFirst(queue, id)])
  }
}

/** The broker as it runs: maps changed in place under its mutex, one method per
    critical section. */
module CollectorBroker {
  import opened Common
  import opened BrokerState

  // ---- What the calls promise, over what callers hand in and see ----

  ghost predicate IsWhole(sub: Submission) {
    !Blank(sub.collector) && !Blank(sub.upstream) && !Blank(sub.tool)
  }

  // The task waits for its collector with just what was submitted.
  ghost predicate IsSubmitted(t: Task, sub: Submission, id: TaskId) {
    && t.collector == sub.collector && t.phase == Pending
    && t.delivery.taskId == id && t.delivery.claimId == "" && t.delivery.traceId == sub.traceId
    && t.delivery.upstream == sub.upstream && t.delivery.tool == sub.tool && t.delivery.arguments == sub.arguments
  }

  ghost predicate Waits(tasks: map<TaskId, Task>, id: TaskId) {
    id in tasks && tasks[id].phase == Pending
  }

  // The task is handed out as it was, under a claim id of its own.
  ghost predicate IsClaimed(t: Task, t': Task, claimId: string) {
    && t'.phase == Claimed && t'.collector == t.collector
    && t'.delivery.claimId == claimId && t.delivery == t'.delivery.(claimId := t.delivery.claimId)
  }

  // A pull passes over what cannot be claimed any more. It hands out the first task that can,
  // out of its queue and under the claim id, or else the collector's wakeup channel.
  ghost predicate IsPulled(s: State, s': State, c: string, claimId: string, outcome: PullOutcome, skipped: nat) {
    var queue := Queue(s.pending, c);
    && skipped <= |queue| && (forall i :: 0 <= i < skipped ==> !Waits(s.tasks, queue[i]))
    && s'.closed == s.closed && s'.finished == s.finished && s'.results == s.results
    && (forall d :: d != c ==> Queue(s'.pending, d) == Queue(s.pending, d))
    && match outcome
       case Refused(why) => why == Invalid && Blank(c) && s' == s
       case Wait(channel) =>
         && !Blank(c) && skipped == |queue| && s'.tasks == s.tasks && Queue(s'.pending, c) == []
         && c in s'.notify && s'.notify[c] == channel && s'.notify == s.notify[c := channel]
         && (c in s.notify ==> channel == s.notify[c])
       case Got(delivery) =>
         && !Blank(c) && skipped < |queue| && Waits(s.tasks, queue[skipped])
         && s'.pending == s.pending[c := queue[skipped + 1..]] && s'.notify == s.notify
         && queue[skipped] in s'.tasks && s'.tasks == s.tasks[queue[skipped] := s'.tasks[queue[skipped]]]
         && IsClaimed(s.tasks[queue[skipped]], s'.tasks[queue[skipped]], claimId)
         && delivery == s'.tasks[queue[skipped]].delivery
  }

  lemma {:induction false} SkipStaleMeans(tasks: map<TaskId, Task>, queue: seq<TaskId>) returns (skipped: nat)
    ensures skipped <= |queue| && SkipStale(tasks, queue) == queue[skipped..]
    ensures forall i :: 0 <= i < skipped ==> !Waits(tasks, queue[i])
    ensures skipped < |queue| ==> Waits(tasks, queue[skipped])
  {
    skipped := 0;
    if queue != [] && !Waits(tasks, queue[0]) {
      var more := SkipStaleMeans(tasks, queue[1..]);
      skipped := more + 1;
    }
  }

  lemma PullMeans(s: State, c: string, claimId: string) returns (skipped: nat)
    ensures IsPulled(s, Pull(s, c, claimId).0, c, claimId, Pull(s, c, claimId).1, skipped)
  {
    skipped := SkipStaleMeans(s.tasks, Queue(s.pending, c));
  }

  ghost predicate Malformed(c: string, req: Completion) {
    || Blank(c) || Blank(req.taskId) || Blank(req.claimId) || req.status == OtherStatus
    || (req.status == Succeeded && (req.answer == None || Blank(req.answer.value)))
    || (req.status == Failed && (req.errorCode == None || Blank(req.errorCode.value)))
  }

  // Finished tasks are remembered for ten minutes.
  ghost predicate Remembers(finished: map<TaskId, Finished>, id: TaskId, now: Time) {
    id in finished && now <= finished[id].at + 10 * MINUTE
  }

  ghost predicate FinishedBy(f: Finished, c: string, claimId: string) {
    f.collector == c && f.claimId == claimId
  }

  ghost predicate HeldBy(t: Task, c: string, claimId: string) {
    t.phase == Claimed && t.collector == c && t.delivery.claimId == claimId
  }

  class Broker {
    var tasks: map<TaskId, Task>
    var pending: map<string, seq<TaskId>>
    var notify: map<string, ChannelId>
    var finished: map<TaskId, Finished>
    // Wakeup channels that have been closed; the next channel to be made.
    var closed: set<ChannelId>
    var nextChannel: ChannelId
    // What lies unread in each task's result channel.
    var results: map<TaskId, seq<Completion>>

    ghost function View(): State
      reads this
    {
      State(tasks, pending, notify, finished, closed, nextChannel, results)
    }

    constructor ()
      ensures View() == EMPTY
    {
      tasks, pending, notify, finished := map[], map[], map[], map[];
      closed, nextChannel, results := {}, 0, map[];
    }

    method CountInFlight(c: string) returns (count: nat)
      ensures count == |InFlight(tasks, c)|
    {
      count := 0;
      var rest := tasks.Keys;
      ghost var counted: set<TaskId> := {};
      while rest != {}
        invariant rest <= tasks.Keys
        invariant counted == InFlight(tasks, c) - rest
        invariant count == |counted|
      {
        var id :| id in rest;
        rest := rest - {id};
        if tasks[id].collector == c {
          counted := counted + {id};
          count := count + 1;
        }
      }
    }

    method CleanupFinished(now: Time)
      modifies this`finished
      ensures forall id :: id in finished <==> id in old(finished) && now <= old(finished)[id].at + 10 * MINUTE
      ensures forall id :: id in finished ==> finished[id] == old(finished)[id]
      ensures finished == Retained(old(finished), now)
    {
      var rest := finished.Keys;
      while rest != {}
        invariant rest <= finished.Keys <= old(finished).Keys
        invariant forall id :: id in finished ==> finished[id] == old(finished)[id]
        invariant forall id :: id in old(finished) && id !in rest ==>
            (id in finished <==> now - RETENTION <= old(finished)[id].at)
      {
        var id :| id in rest;
        rest := rest - {id};
        if finished[id].at < now - RETENTION {
          finished := finished - {id};
        }
      }
    }

    method SignalWaiting(c: string)
      modifies this
      ensures closed == old(closed) + if c in old(notify) then {old(notify)[c]} else {}
      ensures notify == old(notify)[c := old(nextChannel)] && nextChannel > old(nextChannel)
      ensures tasks == old(tasks) && pending == old(pending) && finished == old(finished) && results == old(results)
      ensures View() == Signal(old(View()), c)
    {
      if c in notify {
        closed := closed + {notify[c]};
      }
      notify := notify[c := nextChannel];
      nextChannel := nextChannel + 1;
    }

    method SubmitTask(sub: Submission, id: TaskId, now: Time) returns (failure: Option<Failure>)
      modifies this
      ensures match failure
        case Some(Invalid) => !IsWhole(sub) && View() == old(View())
        case Some(Busy) =>
          && IsWhole(sub) && |set t | t in old(tasks) && old(tasks)[t].collector == sub.collector| >= 4
          && View() == old(View()).(finished := finished)
        case None =>
          && IsWhole(sub) && |set t | t in old(tasks) && old(tasks)[t].collector == sub.collector| < 4
          && id in tasks && tasks == old(tasks)[id := tasks[id]] && IsSubmitted(tasks[id], sub, id)
          && pending == old(pending)[sub.collector := Queue(old(pending), sub.collector) + [id]]
          && results == old(results)[id := []] && notify == old(notify)[sub.collector := old(nextChannel)]
          && closed == old(closed) + if sub.collector in old(notify) then {old(notify)[sub.collector]} else {}
        case _ => false
      ensures failure != Some(Invalid) ==>
          && (forall t :: t in finished <==> t in old(finished) && now <= old(finished)[t].at + 10 * MINUTE)
          && (forall t :: t in finished ==> finished[t] == old(finished)[t])
      ensures (View(), failure) == Submit(old(View()), sub, id, now)
    {
      var c := sub.collector;
      if Blank(c) || Blank(sub.upstream) || Blank(sub.tool) {
        return Some(Invalid);
      }
      CleanupFinished(now);
      var count := CountInFlight(c);
      if count >= MAX_IN_FLIGHT {
        return Some(Busy);
      }
      tasks := tasks[id := NewTask(sub, id)];
      pending := pending[c := Queue(pending, c) + [id]];
      results := results[id := []];
      SignalWaiting(c);
      failure := None;
    }

    // What this means is said by `PullMeans`.
    method PullOnce(c: string, claimId: string) returns (outcome: PullOutcome)
      modifies this
      ensures (View(), outcome) == Pull(old(View()), c, claimId)
    {
      if Blank(c) {
        return Refused(Invalid);
      }
      var queue := Queue(pending, c);
      while queue != []
        invariant SkipStale(tasks, queue) == SkipStale(old(tasks), Queue(old(pending), c))
        invariant View() == if Queue(old(pending), c) == queue then old(View())
                            else old(View()).(pending := old(pending)[c := queue])
        invariant queue != Queue(old(pending), c) ==> |queue| < |Queue(old(pending), c)|
        decreases |queue|
      {
        var id := queue[0];
        queue := queue[1..];
        pending := pending[c := queue];
        if id in tasks && tasks[id].phase == Pending {
          assert SkipStale(old(tasks), Queue(old(pending), c)) == [id] + queue;
          assert pending == old(pending)[c := queue];
          var t := ClaimedTask(tasks[id], claimId);
          tasks := tasks[id := t];
          return Got(t.delivery);
        }
      }
      if c !in notify {
        notify := notify[c := nextChannel];
        nextChannel := nextChannel + 1;
      }
      assert c in pending ==> pending == old(pending)[c := []];
      outcome := Wait(notify[c]);
    }

    method CompleteTask(c: string, req: Completion, now: Time) returns (failure: Option<Failure>)
      modifies this
      ensures match failure
        case Some(Invalid) => Malformed(c, req) && View() == old(View())
        case Some(NotFound) =>
          !Malformed(c, req) && !Remembers(old(finished), req.taskId, now) && req.taskId !in old(tasks)
        case Some(Conflict) =>
          && !Malformed(c, req)
          && if Remembers(old(finished), req.taskId, now) then !FinishedBy(old(finished)[req.taskId], c, req.claimId)
             else req.taskId in old(tasks) && !HeldBy(old(tasks)[req.taskId], c, req.claimId)
        case None =>
          && !Malformed(c, req)
          && if Remembers(old(finished), req.taskId, now)
             then FinishedBy(old(finished)[req.taskId], c, req.claimId) && tasks == old(tasks)
                 && results == old(results)
             else
               && req.taskId in old(tasks) && HeldBy(old(tasks)[req.taskId], c, req.claimId)
               && tasks == old(tasks) - {req.taskId} && req.taskId in results && req.taskId in finished
               && results == old(results)[req.taskId :=
                    (if req.taskId in old(results) then old(results)[req.taskId] else []) + [req]]
               && FinishedBy(finished[req.taskId], c, req.claimId) && finished[req.taskId].at == now
        case _ => false
      ensures failure.Some? ==> tasks == old(tasks) && results == old(results)
      ensures pending == old(pending) && notify == old(notify) && closed == old(closed)
      ensures failure != Some(Invalid) ==> forall t :: t != req.taskId ==>
          && (t in finished <==> Remembers(old(finished), t, now))
          && (t in finished ==> finished[t] == old(finished)[t])
      ensures (View(), failure) == Complete(old(View()), c, req, now)
    {
      if Blank(c) || Blank(req.taskId) || Blank(req.claimId) {
        return Some(Invalid);
      }
      if req.status != Succeeded && req.status != Failed {
        return Some(Invalid);
      }
      if req.status == Succeeded && (req.answer.None? || Blank(req.answer.value)) {
        return Some(Invalid);
      }
      if req.status == Failed && (req.errorCode.None? || Blank(req.errorCode.value)) {
        return Some(Invalid);
      }
      CleanupFinished(now);
      if req.taskId in finished {
        if finished[req.taskId].collector == c && finished[req.taskId].claimId == req.claimId {
          return None;
        }
        return Some(Conflict);
      }
      if req.taskId !in tasks {
        return Some(NotFound);
      }
      var t := tasks[req.taskId];
      if t.collector != c || t.phase != Claimed || t.delivery.claimId != req.claimId {
        return Some(Conflict);
      }
      results := results[req.taskId := (if req.taskId in results then results[req.taskId] else []) + [req]];
      tasks := tasks - {req.taskId};
      finished := finished[req.taskId := Finished(c, req.claimId, now)];
      failure := None;
    }

    // `at` is the place in its queue that the task leaves, if it does.
    method CancelTask(id: TaskId) returns (ghost at: int)
      modifies this
      ensures tasks == old(tasks) - {id}
      ensures at < 0 ==> pending == old(pending)
      ensures at < 0 && Waits(old(tasks), id) ==> id !in Queue(old(pending), old(tasks)[id].collector)
      ensures at >= 0 ==>
          && Waits(old(tasks), id)
          && var c, queue := old(tasks)[id].collector, Queue(old(pending), old(tasks)[id].collector);
             && at < |queue| && queue[at] == id && id !in queue[..at]
             && pending == old(pending)[c := queue[..at] + queue[at + 1..]]
      ensures View() == old(View()).(tasks := tasks, pending := pending)
      ensures View() == Cancel(old(View()), id)
    {
      at := -1;
      if id !in tasks {
        return;
      }
      var t := tasks[id];
      tasks := tasks - {id};
      if t.phase != Pending {
        return;
      }
      var queue := Queue(pending, t.collector);
      for index := 0 to |queue|
        invariant id !in queue[..index]
        invariant WithoutFirst(queue, id) == queue[..index] + WithoutFirst(queue[index..], id)
        invariant View() == old(View()).(tasks := old(tasks) - {id})
      {
        assert queue[index..][1..] == queue[index + 1..];
        if queue[index] == id {
          pending := pending[t.collector := queue[..index] + queue[index + 1..]];
          return index;
        }
        assert queue[..index + 1] == queue[..index] + [queue[index]];
      }
    }
  }
}
