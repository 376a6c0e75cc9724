/** Who decides on a gate, and how: every decision is what its request came for, made on a
    gate that was found as it has to be; and a request that finds it so decides. */
module GateDecisions {
  import opened Common
  import opened Gates
  import opened GateRuns

  // ---- What a request may do ----

  // A retry asks for the call that the gate holds back: made by the same active agent, of the
  // same name, at the same endpoint, with the same arguments, and in the same session.
  ghost predicate RetriesTheCall(env: Env, a: Asked, q: RetryRequest) {
    && a.byUser && q.caller == a.request.caller && q.caller.agent in env.agents
    && env.agents[q.caller.agent].active && env.agents[q.caller.agent].tenant == a.request.caller.tenant
    && q.exposedName == a.cap.exposedName && q.endpoint == a.request.endpoint && q.args == a.request.args
    && (q.session == a.request.session || q.session == "" || a.request.session == "")
  }

  ghost predicate Accepting(e: Entry) {
    e.Accept? || e.Answered? || (e.Retry? && e.action == AcceptIt)
  }

  ghost predicate Declining(e: Entry) {
    e.Decline? || (e.Retry? && e.action == DeclineIt)
  }

  ghost predicate RetryChecked(w: World, t: ThreadId) {
    && t in w.log.entered && w.log.entered[t].1.Retry? && w.log.entered[t].0 in w.gates
    && w.log.entered[t].0 in w.log.asked
    && t in w.log.checked && w.log.checked[t] < |w.past|
    && RetriesTheCall(w.past[w.log.checked[t]].env, w.log.asked[w.log.entered[t].0], w.log.entered[t].1.request)
  }

  // What a request may decide: what it came for, on a gate that it found unexpired, or that
  // the gate has expired, when it found that.
  ghost predicate Decides(w: World, t: ThreadId, to: Status, found: nat) {
    && t in w.log.entered && found < |w.past|
    && var id, e := w.log.entered[t].0, w.log.entered[t].1;
       && id in w.gates && id in w.log.asked && (e.Retry? ==> RetryChecked(w, t) && w.log.checked[t] <= found)
       && match to
          case Accepted =>
            && Accepting(e)
            && w.past[found].now <= w.log.asked[id].at + (if e.Answered? then w.patience else 30 * MINUTE)
          case Rejected => Declining(e) && w.past[found].now <= w.log.asked[id].at + 30 * MINUTE
          case Expired =>
            !e.Answered? && (Accepting(e) || Declining(e)) && w.past[found].now > w.log.asked[id].at + 30 * MINUTE
          case _ => false
  }

  // ---- What every reachable world satisfies ----

  ghost predicate DecidedOk(w: World, id: GateId) {
    && (id in w.log.decided ==> id in w.gates)
    && (id in w.gates ==>
          && (w.gates[id].status == Pending <==> id !in w.log.decided)
          && (w.gates[id].status == Rejected <==> id in w.log.decided && w.log.decided[id].to == Rejected)
          && (w.gates[id].status == Expired <==> id in w.log.decided && w.log.decided[id].to == Expired))
    && (id in w.log.decided ==>
          var d := w.log.decided[id];
          && d.found <= d.at < |w.past| && d.who in w.log.entered && w.log.entered[d.who].0 == id
          && Decides(w, d.who, d.to, d.found)
          && w.gates[id].decidedBy == w.log.asked[id].request.caller.actor
          && w.gates[id].decidedAt == Some(w.past[d.at].now))
  }

  // The reading that a request does first, or again once a declining retry has been checked.
  ghost predicate ReadsFor(w: World, t: ThreadId, entry: Entry) {
    && t in w.log.entered
    && var e := w.log.entered[t].1;
       && (e.Accept? || e.Decline? || e.Retry?)
       && (entry == e || (entry.Decline? && Declining(e) && t in w.log.checked))
  }

  ghost predicate PcFits(w: World, t: ThreadId, pc: Pc) {
    match pc
    case ReadGate(entry) => ReadsFor(w, t, entry)
    case CheckRetry(_, entry) => t in w.log.entered && w.log.entered[t].1 == entry
    case Decide(to, _, found) => Decides(w, t, to, found)
    case _ => true
  }

  ghost predicate RequestOk(w: World, t: ThreadId) {
    && (t in w.threads ==>
          t in w.log.entered && w.log.entered[t].0 == w.threads[t].id && PcFits(w, t, w.threads[t].pc))
    && (t in w.log.checked ==> RetryChecked(w, t))
  }

  ghost predicate Recorded(w: World) {
    (forall id :: DecidedOk(w, id)) && (forall t :: RequestOk(w, t))
  }

  // ---- Steps keep it ----

  // A gate's decision is as before.
  ghost predicate SameDecision(w: World, w': World, id: GateId) {
    && (id in w.gates ==>
          && id in w'.gates && w'.gates[id].decidedBy == w.gates[id].decidedBy
          && w'.gates[id].decidedAt == w.gates[id].decidedAt
          && (w'.gates[id].status == w.gates[id].status
              || (WasAccepted(w.gates[id].status) && WasAccepted(w'.gates[id].status))))
    && (id in w'.gates ==> id in w.gates)
  }

  // Nothing that decisions rest on changes, and time may pass.
  ghost predicate SameRecords(w: World, w': World) {
    && w.past <= w'.past && w'.patience == w.patience && w'.log.entered == w.log.entered
    && w'.log.checked == w.log.checked
    && w'.log.asked == w.log.asked && w'.log.decided == w.log.decided && forall id :: SameDecision(w, w', id)
  }

  lemma RetryFrame(w: World, w': World, t: ThreadId)
    requires SameRecords(w, w') && RetryChecked(w, t)
    ensures RetryChecked(w', t)
  {
    assert SameDecision(w, w', w.log.entered[t].0);
    assert w'.past[w.log.checked[t]] == w.past[w.log.checked[t]];
  }

  lemma DecidesFrame(w: World, w': World, t: ThreadId, to: Status, found: nat)
    requires SameRecords(w, w') && Decides(w, t, to, found)
    ensures Decides(w', t, to, found)
  {
    assert SameDecision(w, w', w.log.entered[t].0);
    assert w'.past[found] == w.past[found];
    if w.log.entered[t].1.Retry? {
      RetryFrame(w, w', t);
    }
  }

  lemma DecidedFrame(w: World, w': World, id: GateId)
    requires SameRecords(w, w') && DecidedOk(w, id)
    ensures DecidedOk(w', id)
  {
    assert SameDecision(w, w', id);
    if id in w.log.decided {
      var d := w.log.decided[id];
      DecidesFrame(w, w', d.who, d.to, d.found);
      assert w'.past[d.at] == w.past[d.at];
    }
  }

  // A request goes on with a step that fits.
  ghost predicate GoesOnAs(w: World, w': World, t: ThreadId)
    requires t in w'.threads
  {
    && t in w.threads && w'.threads[t].id == w.threads[t].id
    && (w'.threads[t].pc == w.threads[t].pc || PcFits(w', t, w'.threads[t].pc))
  }

  lemma RequestFrame(w: World, w': World, t: ThreadId)
    requires SameRecords(w, w') && RequestOk(w, t)
    requires t in w'.threads ==> GoesOnAs(w, w', t)
    ensures RequestOk(w', t)
  {
    if t in w.log.checked {
      RetryFrame(w, w', t);
    }
    if t in w'.threads && w'.threads[t].pc == w.threads[t].pc && w.threads[t].pc.Decide? {
      DecidesFrame(w, w', t, w.threads[t].pc.to, w.threads[t].pc.found);
    }
  }

  lemma RecordsFrame(w: World, w': World)
    requires Recorded(w) && SameRecords(w, w')
    requires forall t :: t in w'.threads ==> GoesOnAs(w, w', t)
    ensures Recorded(w')
  {
    forall id
      ensures DecidedOk(w', id)
    {
      assert DecidedOk(w, id);
      DecidedFrame(w, w', id);
    }
    forall t
      ensures RequestOk(w', t)
    {
      assert RequestOk(w, t);
      RequestFrame(w, w', t);
    }
  }

  lemma MoveKeepsRecords(w: World, t: ThreadId, pc: Pc)
    requires Recorded(w) && t in w.threads && PcFits(w, t, pc)
    ensures Recorded(At(w, t, pc)) && Recorded(Ended(w, t))
  {
    var w' := At(w, t, pc);
    assert forall id :: SameDecision(w, w', id) && SameDecision(w, Ended(w, t), id);
    if pc.Decide? {
      DecidesFrame(w, w', t, pc.to, pc.found);
    }
    RecordsFrame(w, w');
    RecordsFrame(w, Ended(w, t));
  }

  lemma CreateKeepsRecords(w: World, id: GateId, byUser: bool, cap: Capability, q: RetryRequest, nonce: nat)
    requires Recorded(w) && Possible(w, Create(id, byUser, cap, q, nonce)) && GateOk(w, id)
    ensures Recorded(AfterCreate(w, id, byUser, cap, q, nonce))
  {
    var w' := AfterCreate(w, id, byUser, cap, q, nonce);
    assert DecidedOk(w, id);
    forall i
      ensures DecidedOk(w', i)
    {
      assert DecidedOk(w, i);
    }
    forall t
      ensures RequestOk(w', t)
    {
      assert RequestOk(w, t);
    }
  }

  lemma EnterKeepsRecords(w: World, t: ThreadId, id: GateId, entry: Entry)
    requires Recorded(w) && Possible(w, Enter(t, id, entry)) && GateOk(w, id)
    ensures Recorded(After(w, Enter(t, id, entry)))
  {
    var w' := After(w, Enter(t, id, entry));
    assert RequestOk(w, t);
    forall i
      ensures DecidedOk(w', i)
    {
      assert DecidedOk(w, i);
    }
    forall u
      ensures RequestOk(w', u)
    {
      assert RequestOk(w, u);
    }
  }

  lemma ReadKeepsRecords(w: World, t: ThreadId, entry: Entry)
    requires Recorded(w) && w.past != [] && t in w.threads && w.threads[t].pc == ReadGate(entry)
    requires w.threads[t].id in w.gates && GateOk(w, w.threads[t].id)
    ensures Recorded(AfterRead(w, t, entry, w.gates[w.threads[t].id]))
  {
    assert RequestOk(w, t);
    var g := w.gates[w.threads[t].id];
    if entry.Retry? {
      MoveKeepsRecords(w, t, CheckRetry(g, entry));
    } else if g.status != Pending {
      MoveKeepsRecords(w, t, Claim);
    } else if PastExpiry(g, Now(w)) {
      MoveKeepsRecords(w, t, Decide(Expired, entry, Last(w)));
    } else {
      MoveKeepsRecords(w, t, Decide(if entry.Decline? then Rejected else Accepted, entry, Last(w)));
    }
  }

  lemma CheckPassed(w: World, t: ThreadId)
    requires Recorded(w) && w.past != [] && t in w.threads && w.threads[t].pc.CheckRetry?
        && w.threads[t].pc.entry.Retry?
    requires var id := w.threads[t].id;
      && id in w.gates && GateOk(w, id) && w.threads[t].pc.gate.held == w.gates[id].held
    requires RetryAllowed(Surroundings(w), w.threads[t].pc.gate.held, w.threads[t].pc.entry.request)
    ensures RetryChecked(WithCheck(w, t), t) && Recorded(WithCheck(w, t))
  {
    var w' := WithCheck(w, t);
    assert RequestOk(w, t);
    forall i
      ensures DecidedOk(w', i)
    {
      assert DecidedOk(w, i);
    }
    forall u
      ensures RequestOk(w', u)
    {
      assert RequestOk(w, u);
    }
  }

  lemma RetryCheckKeepsRecords(w: World, t: ThreadId, entry: Entry, g: Gate)
    requires Recorded(w) && Inv(w) && t in w.threads && w.threads[t].pc == CheckRetry(g, entry) && entry.Retry?
    ensures Recorded(AfterRetryCheck(w, t, entry, g))
  {
    assert ThreadOk(w, t) && GateOk(w, w.threads[t].id) && RequestOk(w, t);
    if !RetryAllowed(Surroundings(w), g.held, entry.request) || g.status != Pending {
      MoveKeepsRecords(w, t, Claim);
    } else {
      CheckPassed(w, t);
      var w' := WithCheck(w, t);
      if PastExpiry(g, Now(w)) {
        MoveKeepsRecords(w', t, Decide(Expired, entry, Last(w)));
      } else if entry.action == DeclineIt {
        MoveKeepsRecords(w', t, ReadGate(Decline));
      } else {
        MoveKeepsRecords(w', t, Decide(Accepted, entry, Last(w)));
      }
    }
  }

  lemma DecisionKeepsRequest(
      w: World, id: GateId, who: ThreadId, to: Status, entry: Entry, found: nat, t: ThreadId)
    requires w.past != [] && id in w.gates && RequestOk(w, t)
    ensures RequestOk(WithDecision(w, id, who, to, entry, found), t)
  {}

  lemma DecisionKeepsOthers(
      w: World, id: GateId, who: ThreadId, to: Status, entry: Entry, found: nat, i: GateId)
    requires w.past != [] && id in w.gates && i != id && DecidedOk(w, i)
    ensures DecidedOk(WithDecision(w, id, who, to, entry, found), i)
  {}

  lemma DecisionKeepsRecords(w: World, id: GateId, who: ThreadId, to: Status, entry: Entry, found: nat)
    requires Recorded(w) && w.past != [] && id in w.gates && w.gates[id].status == Pending && GateOk(w, id)
    requires who in w.log.entered && w.log.entered[who].0 == id && Decides(w, who, to, found)
    ensures Recorded(WithDecision(w, id, who, to, entry, found))
  {
    var w' := WithDecision(w, id, who, to, entry, found);
    forall i
      ensures DecidedOk(w', i)
    {
      assert DecidedOk(w, i);
      if i != id {
        DecisionKeepsOthers(w, id, who, to, entry, found, i);
      }
    }
    forall t
      ensures RequestOk(w', t)
    {
      assert RequestOk(w, t);
      DecisionKeepsRequest(w, id, who, to, entry, found, t);
    }
  }

  lemma DecideKeepsRecords(w: World, t: ThreadId, to: Status, entry: Entry, found: nat)
    requires Recorded(w) && Inv(w) && t in w.threads && w.threads[t].pc == Decide(to, entry, found)
    ensures Recorded(AfterDecide(w, t, to, entry, found))
  {
    var id := w.threads[t].id;
    assert ThreadOk(w, t) && GateOk(w, id) && RequestOk(w, t);
    if id in w.gates && w.gates[id].status == Pending {
      DecisionKeepsRecords(w, id, t, to, entry, found);
      MoveKeepsRecords(WithDecision(w, id, t, to, entry, found), t, Claim);
    } else {
      MoveKeepsRecords(w, t, Claim);
    }
  }

  // Executing changes nothing about decisions.
  lemma ExecutionKeepsRecords(w: World, w': World, t: ThreadId)
    requires Recorded(w) && t in w.threads && SameRecords(w, w')
    requires w'.threads.Keys <= w.threads.Keys
    requires forall u :: u in w'.threads && u != t ==> w'.threads[u] == w.threads[u]
    requires t in w'.threads ==>
        && w'.threads[t].id == w.threads[t].id
        && !w'.threads[t].pc.ReadGate? && !w'.threads[t].pc.CheckRetry? && !w'.threads[t].pc.Decide?
    ensures Recorded(w')
  {
    RecordsFrame(w, w');
  }

  lemma ClaimKeepsRecords(w: World, t: ThreadId)
    requires Recorded(w) && w.past != [] && t in w.threads && w.threads[t].pc.Claim?
    ensures Recorded(AfterClaim(w, t))
  {
    var w' := AfterClaim(w, t);
    assert forall id :: SameDecision(w, w', id);
    ExecutionKeepsRecords(w, w', t);
  }

  lemma FinishKeepsRecords(w: World, t: ThreadId, to: Status, answer: Option<Answer>)
    requires Recorded(w) && w.past != [] && t in w.threads && (to == Completed || to == Failed)
    ensures Recorded(AfterFinish(w, t, to, answer))
  {
    var w' := AfterFinish(w, t, to, answer);
    assert forall id :: SameDecision(w, w', id);
    ExecutionKeepsRecords(w, w', t);
  }

  lemma CheckKeepsRecords(w: World, t: ThreadId, h: Held, marks: seq<nat>, cap: Option<Capability>, ready: bool)
    requires Recorded(w) && w.past != [] && t in w.threads && 1 <= |marks| <= 6 && marks[0] < |w.past|
    ensures Recorded(AfterCheck(w, t, h, marks, cap, ready))
  {
    MoveKeepsRecords(w, t, AfterLooking(w.past[Last(w)], Last(w), w.past[marks[0]].now, h, marks, cap, ready));
  }

  lemma CallKeepsRecords(w: World, t: ThreadId, c: Chance)
    requires Recorded(w) && Possible(w, Step(t, c)) && (w.threads[t].pc.Send? || w.threads[t].pc.Await?)
    ensures Recorded(AfterStep(w, t, c))
  {
    var w' := AfterStep(w, t, c);
    assert forall id :: SameDecision(w, w', id);
    ExecutionKeepsRecords(w, w', t);
  }

  lemma StepKeepsRecords(w: World, t: ThreadId, c: Chance)
    requires Recorded(w) && Inv(w) && Possible(w, Step(t, c))
    ensures Recorded(After(w, Step(t, c)))
  {
    assert ThreadOk(w, t) && GateOk(w, w.threads[t].id);
    MoveKeepsRecords(w, t, FAILED);
    match w.threads[t].pc
    case ReadGate(entry) =>
      if !c.fails && w.threads[t].id in w.gates {
        ReadKeepsRecords(w, t, entry);
      }
    case CheckRetry(g, entry) =>
      if !c.fails {
        RetryCheckKeepsRecords(w, t, entry, g);
      }
    case Decide(to, entry, found) =>
      if !c.fails {
        DecideKeepsRecords(w, t, to, entry, found);
      }
    case Claim =>
      if !c.fails {
        ClaimKeepsRecords(w, t);
      }
    case Check(h, marks, cap) =>
      if !c.fails {
        CheckKeepsRecords(w, t, h, marks, cap, c.ready);
      }
    case Finish(to, answer) =>
      if !c.fails {
        FinishKeepsRecords(w, t, to, answer);
      }
    case _ => CallKeepsRecords(w, t, c);
  }

  lemma EventKeepsRecords(w: World, e: Event)
    requires Recorded(w) && Inv(w) && Possible(w, e)
    ensures Recorded(After(w, e))
  {
    match e
    case Passing(env, now) =>
      assert forall id :: SameDecision(w, After(w, e), id);
      RecordsFrame(w, After(w, e));
    case Create(id, byUser, cap, q, nonce) =>
      assert GateOk(w, id);
      CreateKeepsRecords(w, id, byUser, cap, q, nonce);
    case Enter(t, id, entry) =>
      assert GateOk(w, id);
      EnterKeepsRecords(w, t, id, entry);
    case Step(t, c) => StepKeepsRecords(w, t, c);
    case Crash(t) => MoveKeepsRecords(w, t, FAILED);
  }

  lemma {:induction false} RunKeepsRecords(w: World, events: seq<Event>)
    requires Recorded(w) && Inv(w) && IsRun(w, events)
    ensures Recorded(Final(w, events))
    decreases |events|
  {
    if events != [] {
      EventKeeps(w, events[0]);
      EventKeepsRecords(w, events[0]);
      RunKeepsRecords(After(w, events[0]), events[1..]);
    }
  }

  lemma ReachableRecords(w: World)
    requires Reachable(w)
    ensures Inv(w) && Recorded(w)
  {
    ReachableInv(w);
    var env, now, patience, events :|
      IsRun(Start(env, now, patience), events) && w == Final(Start(env, now, patience), events);
    StartInv(env, now, patience);
    RunKeepsRecords(Start(env, now, patience), events);
  }

  // ---- Main results ----

  // Every decision is what its request came for. A gate is accepted only through a call that
  // accepts, found unexpired before or answering in time; rejected only through one that
  // declines, found unexpired; expired only when it was found so; and a retry decides only
  // when it was found to be the call that the gate holds back.
  lemma DecisionsFollowRequests(w: World, id: GateId)
    requires Reachable(w) && id in w.gates
    ensures w.gates[id].status == Pending <==> id !in w.log.decided
    ensures id in w.log.asked && id in w.log.decided ==>
        var d := w.log.decided[id];
        && d.found <= d.at < |w.past| && d.who in w.log.entered && w.log.entered[d.who].0 == id
        && w.gates[id].decidedAt == Some(w.past[d.at].now)
        && w.gates[id].decidedBy == w.log.asked[id].request.caller.actor
    ensures id in w.log.asked && id in w.log.decided ==>
        var d := w.log.decided[id];
        var e, found, expires := w.log.entered[d.who].1, w.past[d.found].now, w.log.asked[id].at + 30 * MINUTE;
        && (e.Retry? ==> d.who in w.log.checked && w.log.checked[d.who] <= d.found
                         && RetriesTheCall(w.past[w.log.checked[d.who]].env, w.log.asked[id], e.request))
        && if w.gates[id].status == Rejected then
             (e.Decline? || (e.Retry? && e.action == DeclineIt)) && found <= expires
           else if w.gates[id].status == Expired then (e.Accept? || e.Decline? || e.Retry?) && found > expires
           else
             || (e.Answered? && found <= w.log.asked[id].at + w.patience)
             || ((e.Accept? || (e.Retry? && e.action == AcceptIt)) && found <= expires)
  {
    ReachableRecords(w);
    assert GateOk(w, id) && DecidedOk(w, id);
  }

  // A gate that counts as rejected or expired is never executed.
  lemma DeclinedIsNotExecuted(w: World, id: GateId, n: nat)
    requires Reachable(w) && id in w.gates && id in w.log.decided && w.log.decided[id].to != Accepted && n < |w.calls|
    ensures w.calls[n].id != id && id !in w.log.claimant && w.gates[id].status == w.log.decided[id].to
  {
    ReachableRecords(w);
    assert GateOk(w, id) && DecidedOk(w, id) && CallOk(w, n);
  }

  // ---- What each step of a request does ----

  // Reading a gate: a retry goes on to be checked. Others end when the gate is decided on, and
  // otherwise decide: that it has expired, or what they came for.
  lemma ReadingLeadsToDecision(w: World, t: ThreadId, c: Chance)
    requires Reachable(w) && Possible(w, Step(t, c)) && w.threads[t].pc.ReadGate? && w.threads[t].id in w.gates
        && !c.fails
    ensures t in w.log.entered && w.threads[t].id in w.log.asked
    ensures var w', id := After(w, Step(t, c)), w.threads[t].id;
      && w'.gates == w.gates && w'.calls == w.calls
      && if w.threads[t].pc.entry.Retry? then
           t in w'.threads && w'.threads[t].pc == CheckRetry(w.gates[id], w.log.entered[t].1)
         else if w.gates[id].status != Pending then t !in w'.threads
         else
           && t in w'.threads && w'.threads[t].pc.Decide?
           && w'.threads[t].pc.to == (if Now(w) > w.log.asked[id].at + 30 * MINUTE then Expired
                                      else if Declining(w.log.entered[t].1) then Rejected else Accepted)
  {
    ReachableRecords(w);
    assert RequestOk(w, t) && ThreadOk(w, t) && GateOk(w, w.threads[t].id);
    assert After(w, Step(t, c)) == AfterRead(w, t, w.threads[t].pc.entry, w.gates[w.threads[t].id]);
  }

  // Checking a retry: it ends unless it asks for the call that the gate holds back and the
  // gate was pending; it then decides, or goes on to decline.
  lemma RetryIsChecked(w: World, t: ThreadId, c: Chance)
    requires Reachable(w) && Possible(w, Step(t, c)) && w.threads[t].pc.CheckRetry? && !c.fails
    ensures t in w.log.entered && w.log.entered[t].1.Retry? && w.threads[t].id in w.log.asked
    ensures var w', id, q := After(w, Step(t, c)), w.threads[t].id, w.log.entered[t].1;
      && w'.gates == w.gates && w'.calls == w.calls
      && if !RetriesTheCall(Surroundings(w), w.log.asked[id], q.request) || w.threads[t].pc.gate.status != Pending
         then t !in w'.threads
         else
           && t in w'.threads
           && if Now(w) > w.log.asked[id].at + 30 * MINUTE
              then w'.threads[t].pc.Decide? && w'.threads[t].pc.to == Expired
              else if q.action == DeclineIt then w'.threads[t].pc == ReadGate(Decline)
              else w'.threads[t].pc.Decide? && w'.threads[t].pc.to == Accepted
  {
    ReachableRecords(w);
    assert RequestOk(w, t) && ThreadOk(w, t) && GateOk(w, w.threads[t].id);
    assert After(w, Step(t, c)) == AfterRetryCheck(w, t, w.threads[t].pc.entry, w.threads[t].pc.gate);
  }

  // Deciding: a gate still pending gets the decision, and only then does the request go on,
  // to execute what it accepted.
  lemma DecisionTakesEffect(w: World, t: ThreadId, c: Chance)
    requires Reachable(w) && Possible(w, Step(t, c)) && w.threads[t].pc.Decide? && !c.fails
    ensures w.threads[t].id in w.gates && w.threads[t].id in w.log.asked
    ensures var w', id, to := After(w, Step(t, c)), w.threads[t].id, w.threads[t].pc.to;
      && w'.calls == w.calls
      && if w.gates[id].status != Pending then w'.gates == w.gates && t !in w'.threads
         else
           && w'.gates == w.gates[id := w.gates[id].(
                status := to, decidedBy := w.log.asked[id].request.caller.actor, decidedAt := Some(Now(w)))]
           && (if to == Accepted then t in w'.threads && w'.threads[t].pc == Claim else t !in w'.threads)
  {
    ReachableRecords(w);
    assert RequestOk(w, t) && ThreadOk(w, t) && GateOk(w, w.threads[t].id);
  }

  predicate OfOthers(e: Event, t: ThreadId) {
    match e
    case Step(u, _) => u != t
    case Crash(u) => u != t
    case _ => true
  }

  // While only others act, a request and what its gate was asked for stay as they are.
  lemma {:induction false} OthersLeaveRequest(w: World, events: seq<Event>, t: ThreadId)
    requires Inv(w) && IsRun(w, events) && t in w.threads && (forall e :: e in events ==> OfOthers(e, t))
    requires w.threads[t].id in w.gates && w.threads[t].id in w.log.asked
    ensures var w', id := Final(w, events), w.threads[t].id;
      && t in w'.threads && w'.threads[t] == w.threads[t] && id in w'.gates && id in w'.log.asked
      && w'.log.asked[id] == w.log.asked[id]
    decreases |events|
  {
    if events != [] {
      assert events[0] in events && ThreadOk(w, t);
      OtherLeavesRequest(w, events[0], t);
      EventKeeps(w, events[0]);
      OthersLeaveRequest(After(w, events[0]), events[1..], t);
    }
  }

  lemma OtherLeavesRequest(w: World, e: Event, t: ThreadId)
    requires Possible(w, e) && t in w.threads && t in w.log.entered && OfOthers(e, t)
    requires w.threads[t].id in w.gates && w.threads[t].id in w.log.asked
    ensures var w', id := After(w, e), w.threads[t].id;
      && t in w'.threads && w'.threads[t] == w.threads[t] && id in w'.gates && id in w'.log.asked
      && w'.log.asked[id] == w.log.asked[id]
  {
    if e.Step? {
      StepOfOther(w, e.t, e.chance);
      assert t in (w.threads - {e.t});
    }
  }

  // Only the request itself moves, and gates stay known.
  ghost predicate LeavesOthers(w: World, w': World, u: ThreadId) {
    w'.threads - {u} == w.threads - {u} && w'.log.asked == w.log.asked && w.gates.Keys <= w'.gates.Keys
  }

  lemma GoingLeavesOthers(w: World, u: ThreadId, next: Option<Pc>)
    requires u in w.threads
    ensures LeavesOthers(w, Going(w, u, next), u)
  {}

  lemma CheckingLeavesOthers(w: World, u: ThreadId, pc: Pc)
    requires u in w.threads && w.past != []
    ensures LeavesOthers(w, At(WithCheck(w, u), u, pc), u) && LeavesOthers(w, Ended(w, u), u)
  {}

  lemma DecidingLeavesOthers(w: World, u: ThreadId, to: Status, entry: Entry, found: nat)
    requires u in w.threads && w.past != []
    ensures LeavesOthers(w, AfterDecide(w, u, to, entry, found), u)
  {}

  lemma ExecutingLeavesOthers(w: World, u: ThreadId, to: Status, answer: Option<Answer>)
    requires u in w.threads && w.past != []
    ensures LeavesOthers(w, AfterClaim(w, u), u) && LeavesOthers(w, AfterFinish(w, u, to, answer), u)
  {}

  lemma StepOfOther(w: World, u: ThreadId, c: Chance)
    requires Possible(w, Step(u, c))
    ensures LeavesOthers(w, AfterStep(w, u, c), u)
  {
    match w.threads[u].pc
    case ReadGate(entry) =>
      if w.threads[u].id in w.gates {
        GoingLeavesOthers(w, u, AfterReading(w.gates[w.threads[u].id], entry, Now(w), Last(w)));
      }
    case CheckRetry(g, entry) => CheckingLeavesOthers(w, u, AfterChecking(g, entry, Now(w), Last(w)));
    case Decide(to, entry, found) => DecidingLeavesOthers(w, u, to, entry, found);
    case Claim => ExecutingLeavesOthers(w, u, Failed, None);
    case Finish(to, answer) => ExecutingLeavesOthers(w, u, to, answer);
    case _ =>
  }

  // A console decision that finds its gate pending gets its way, whatever happens in between,
  // if the gate is still pending then: declining rejects, accepting accepts, unless the gate
  // was found expired.
  lemma DecisionsGetTheirWay(w: World, t: ThreadId, c: Chance, events: seq<Event>, c': Chance)
    requires Reachable(w) && Possible(w, Step(t, c)) && !c.fails && w.threads[t].id in w.gates
    requires w.threads[t].pc.ReadGate? && !w.threads[t].pc.entry.Retry? && w.gates[w.threads[t].id].status == Pending
    requires IsRun(After(w, Step(t, c)), events) && (forall e :: e in events ==> OfOthers(e, t)) && !c'.fails
    ensures var w2, id := Final(After(w, Step(t, c)), events), w.threads[t].id;
      && t in w.log.entered && id in w.log.asked && id in w2.gates && Possible(w2, Step(t, c'))
      && (w2.gates[id].status == Pending ==>
            var w3 := After(w2, Step(t, c'));
            && id in w3.gates && w3.gates[id].decidedAt == Some(Now(w2))
            && w3.gates[id].status == (if Now(w) > w.log.asked[id].at + 30 * MINUTE then Expired
                                       else if Declining(w.log.entered[t].1) then Rejected else Accepted))
  {
    ReadingLeadsToDecision(w, t, c);
    ReachableRecords(w);
    var w1 := After(w, Step(t, c));
    EventKeeps(w, Step(t, c));
    OthersLeaveRequest(w1, events, t);
    var w2 := Final(w1, events);
    ReachesOn(w, [Step(t, c)] + events);
    assert ([Step(t, c)] + events)[1..] == events;
    RequestsCanGoOn(w2, t, c');
    DecisionTakesEffect(w2, t, c');
  }

  // What follows a reachable world is reachable.
  lemma ReachesOn(w: World, events: seq<Event>)
    requires Reachable(w) && IsRun(w, events)
    ensures Reachable(Final(w, events))
  {
    var env, now, patience, before :|
      IsRun(Start(env, now, patience), before) && w == Final(Start(env, now, patience), before);
    RunsJoin(Start(env, now, patience), before, events);
  }

  lemma {:induction false} RunsJoin(w: World, a: seq<Event>, b: seq<Event>)
    requires IsRun(w, a) && IsRun(Final(w, a), b)
    ensures IsRun(w, a + b) && Final(w, a + b) == Final(Final(w, a), b)
    decreases |a|
  {
    if a == [] {
      assert a + b == b;
    } else {
      RunsJoin(After(w, a[0]), a[1..], b);
      assert (a + b)[1..] == a[1..] + b;
    }
  }

  // Claiming: only an accepted gate is executed, from now on by this request.
  lemma ClaimTakesEffect(w: World, t: ThreadId, c: Chance)
    requires Reachable(w) && Possible(w, Step(t, c)) && w.threads[t].pc.Claim? && !c.fails
    ensures var w', id := After(w, Step(t, c)), w.threads[t].id;
      && w'.calls == w.calls
      && if id !in w.gates || w.gates[id].status != Accepted then w'.gates == w.gates && t !in w'.threads
         else
           && w'.gates == w.gates[id := w.gates[id].(status := Executing, response := None)]
           && t in w'.threads && w'.threads[t].pc == Check(w.gates[id].held, [Last(w)], None)
  {}

  // What the reading number k of an execution has to find.
  ghost predicate FindsInOrder(w: World, a: Asked, marks: seq<nat>, cap: Option<Capability>, k: nat)
    requires w.past != [] && marks != [] && marks[0] < |w.past|
  {
    var env, who := Surroundings(w), a.request.caller;
    && (k == 1 ==> who.agent in env.agents && env.agents[who.agent].active)
    && (k == 2 ==> (who.user, who.agent) in env.callers)
    && (k == 3 ==>
          && a.cap.exposedName in env.capabilities
          && var c := env.capabilities[a.cap.exposedName];
             && c.server == a.cap.server && c.isTool && c.active
             && (a.request.endpoint == "" || a.request.endpoint == a.cap.server))
    && (k == 4 ==>
          cap.Some? && Grants.IsAllowed(w.past[marks[0]].now, env.grants, who.user, cap.value.id, "tool"))
    && (k == 5 ==> a.cap.server in env.servers && env.servers[a.cap.server])
  }

  // Executing: each reading goes on just when it finds everything in order; the call is then
  // sent just when the tool's schema is the one asked for and its input is accepted.
  lemma ReadingsGoOn(w: World, t: ThreadId, c: Chance)
    requires Reachable(w) && Possible(w, Step(t, c)) && w.threads[t].pc.Check?
    ensures w.threads[t].id in w.log.asked
    ensures var w', pc, a := After(w, Step(t, c)), w.threads[t].pc, w.log.asked[w.threads[t].id];
      && w'.gates == w.gates && w'.calls == w.calls && t in w'.threads
      && var next := w'.threads[t].pc;
         if c.fails then next == Finish(Failed, None)
         else if |pc.marks| <= 5 then
           if FindsInOrder(w, a, pc.marks, pc.cap, |pc.marks|) then
             && next.Check? && next.held == pc.held && next.marks == pc.marks + [Last(w)]
             && (|pc.marks| == 3 ==> next.cap == Some(Surroundings(w).capabilities[a.cap.exposedName]))
             && (|pc.marks| != 3 ==> next.cap == pc.cap)
           else next == Finish(Failed, None)
         else if pc.cap.Some? && pc.cap.value.schemaHash == a.cap.schemaHash && c.ready then
           && next.Send? && next.held == pc.held && next.marks == pc.marks && next.tool == pc.cap.value
           && IsSentFor(next.tool, a.request.args, next.args)
         else next == Finish(Failed, None)
  {
    ReachableInv(w);
    assert ThreadOk(w, t) && GateOk(w, w.threads[t].id);
    if w.threads[t].pc.cap.Some? {
      PreparedIsSent(w.threads[t].pc.cap.value, w.log.asked[w.threads[t].id].request.args);
    }
  }

  // Sending and waiting: one call is added; what it returns completes the gate, but for an
  // answer of a knowledge search with an error whose audit record is lost.
  lemma CallsAreMade(w: World, t: ThreadId, c: Chance)
    requires Reachable(w) && Possible(w, Step(t, c)) && (w.threads[t].pc.Send? || w.threads[t].pc.Await?)
    ensures w.threads[t].id in w.log.asked && (w.threads[t].pc.Await? ==> w.threads[t].pc.call < |w.calls|)
    ensures var w', id, pc := After(w, Step(t, c)), w.threads[t].id, w.threads[t].pc;
      && w'.gates == w.gates && t in w'.threads
      && if pc.Send? then
           && w'.calls == w.calls + [Call(id, pc.tool, pc.args, pc.marks, None)]
           && w'.threads[t].pc.Await? && w'.threads[t].pc.call == |w.calls|
         else
           var call, o := w.calls[pc.call], c.outcome;
           && w'.calls == w.calls[pc.call := call.(outcome := Some(o))]
           && if o.Failure? || (IsKnowledgeSearch(call.tool) && o.isError && !c.auditSaved)
              then w'.threads[t].pc == Finish(Failed, None)
              else w'.threads[t].pc == Finish(Completed, Some(
                if !IsKnowledgeSearch(w.log.asked[id].cap) then Whole(o.response)
                else if o.isError then ProviderError else Projected(o.response)))
  {
    ReachableInv(w);
    assert ThreadOk(w, t) && GateOk(w, w.threads[t].id);
  }

  // Ending: the gate under execution gets the status and the answer.
  lemma EndTakesEffect(w: World, t: ThreadId, c: Chance)
    requires Reachable(w) && Possible(w, Step(t, c)) && w.threads[t].pc.Finish? && !c.fails
    ensures w.threads[t].id in w.gates
    ensures var w', id := After(w, Step(t, c)), w.threads[t].id;
      && w'.gates == w.gates[id := w.gates[id].(status := w.threads[t].pc.to, response := w.threads[t].pc.answer)]
      && w'.calls == w.calls && t !in w'.threads
  {
    ReachableInv(w);
    assert ThreadOk(w, t);
  }

  // A store that fails while a request reads, decides, claims or ends a gate ends the request
  // and changes nothing.
  lemma FailuresChangeNothing(w: World, t: ThreadId, c: Chance)
    requires Possible(w, Step(t, c)) && c.fails
    requires !w.threads[t].pc.Check? && !w.threads[t].pc.Send? && !w.threads[t].pc.Await?
    ensures var w' := After(w, Step(t, c));
      w'.gates == w.gates && w'.calls == w.calls && w'.threads == w.threads - {t}
  {
    match w.threads[t].pc
    case ReadGate(_) =>
    case CheckRetry(_, _) =>
    case Decide(_, _, _) =>
    case Claim =>
    case Finish(_, _) =>
  }
}
