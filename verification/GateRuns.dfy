/** What confirmation gates promise over every run: every interleaving of decisions,
    retries and executions, each of which may stop anywhere, while everything else that
    an execution looks at keeps changing. */
module GateRuns {
  import opened Common
  import opened Gates

  // ---- What every reachable world satisfies ----

  predicate WasAccepted(s: Status) {
    s == Accepted || s == Executing || s == Completed || s == Failed
  }

  predicate WasClaimed(s: Status) {
    s == Executing || s == Completed || s == Failed
  }

  // The gate holds back just the call that was asked for.
  predicate Holds(h: Held, a: Asked) {
    && h.exposedName == a.cap.exposedName && h.upstreamName == a.cap.upstreamName && h.server == a.cap.server
    && h.schemaHash == a.cap.schemaHash && h.digest == a.request.args && Restore(h) == Some(a.request.args)
    && h.byUser == a.byUser && h.caller == a.request.caller && h.endpoint == a.request.endpoint
    && h.session == a.request.session && a.cap.server != "" && h.expiresAt == a.at + 30 * MINUTE
  }

  // Accepting is preceded by finding the gate unexpired, and by finding a retry to be the
  // call that the gate holds back; or by an answer that its user gave in time.
  predicate FoundOk(past: seq<Moment>, patience: Time, h: Held, entry: Entry, found: nat) {
    && found < |past|
    && past[found].now <= (if entry.Answered? then h.expiresAt - GATE_TIME + patience else h.expiresAt)
    && (entry.Retry? ==> RetryAllowed(past[found].env, h, entry.request))
  }

  ghost predicate AcceptanceOk(w: World, id: GateId)
    requires id in w.gates && id in w.log.accepted
  {
    var a := w.log.accepted[id];
    && a.at < |w.past| && FoundOk(w.past, w.patience, w.gates[id].held, a.entry, a.found) && a.found <= a.at
    && w.gates[id].decidedAt == Some(w.past[a.at].now)
  }

  // The call returned, and this is what a gate keeps of its answer.
  predicate Answers(c: Call, h: Held, response: Option<Answer>) {
    && c.outcome.Some? && c.outcome.value.Returned?
    && response == Some(KeptAnswer(h, c.outcome.value.response, c.outcome.value.isError))
  }

  ghost predicate AnsweredOk(w: World, id: GateId, response: Option<Answer>) {
    && id in w.log.sent && w.log.sent[id] < |w.calls| 
    && id in w.gates && Answers(w.calls[w.log.sent[id]], w.gates[id].held, response)
  }

  ghost predicate GateOk(w: World, id: GateId) {
    && (id in w.gates <==> id in w.log.asked)
    && (id in w.log.accepted || id in w.log.claimant || id in w.log.sent ==> id in w.gates)
    && (id in w.log.sent ==> id in w.log.claimant && w.log.sent[id] < |w.calls| && w.calls[w.log.sent[id]].id == id)
    && (id in w.gates ==>
          var g := w.gates[id];
          && Holds(g.held, w.log.asked[id])
          && (WasAccepted(g.status) <==> id in w.log.accepted) && (WasClaimed(g.status) <==> id in w.log.claimant)
          && (g.status == Pending <==> g.decidedAt.None?)
          && (id in w.log.accepted ==> AcceptanceOk(w, id))
          && (g.status == Completed ==> AnsweredOk(w, id, g.response)))
  }

  predicate Rising(marks: seq<nat>, limit: nat) {
    && (forall i :: 0 <= i < |marks| ==> marks[i] < limit)
    && (forall i, j :: 0 <= i <= j < |marks| ==> marks[i] <= marks[j])
  }

  function ToolAt(past: seq<Moment>, h: Held, marks: seq<nat>): Option<Capability> {
    if |marks| > 3 && marks[3] < |past| && h.exposedName in past[marks[3]].env.capabilities
    then Some(past[marks[3]].env.capabilities[h.exposedName]) else None
  }

  // The readings so far found everything in order, one after another since the claim.
  ghost predicate Seen(past: seq<Moment>, h: Held, marks: seq<nat>, cap: Option<Capability>) {
    && 1 <= |marks| <= 6 && Rising(marks, |past|)
    && cap == ToolAt(past, h, marks)
    && forall k :: 1 <= k < |marks| ==> InOrder(past[marks[k]].env, past[marks[0]].now, h, cap, k)
  }

  // This request has claimed the gate, and nobody has ended its execution.
  ghost predicate Owns(w: World, t: ThreadId) {
    t in w.threads
    && var id := w.threads[t].id;
       id in w.log.claimant && w.log.claimant[id] == t && id in w.gates && w.gates[id].status == Executing
  }

  ghost predicate SinceAcceptance(w: World, id: GateId, marks: seq<nat>) {
    id in w.log.accepted && marks != [] && w.log.accepted[id].at <= marks[0]
  }

  // The call is the one asked for, with the tool as read.
  ghost predicate CallAsAsked(tool: Capability, args: Arguments, a: Asked) {
    tool.schemaHash == a.cap.schemaHash && tool.server == a.cap.server && args == Prepared(tool, a.request.args)
  }

  ghost predicate PcOk(w: World, t: ThreadId)
    requires t in w.threads
  {
    var id := w.threads[t].id;
    match w.threads[t].pc
    case ReadGate(entry) => !entry.Answered?
    case CheckRetry(g, entry) => entry.Retry? && id in w.gates && g.held == w.gates[id].held
    case Decide(to, entry, found) =>
      && (to == Accepted || to == Rejected || to == Expired)
      && (to == Accepted ==> id in w.gates && FoundOk(w.past, w.patience, w.gates[id].held, entry, found))
    case Claim => true
    case Check(h, marks, cap) =>
      Owns(w, t) && id !in w.log.sent && h == w.gates[id].held && SinceAcceptance(w, id, marks)
          && Seen(w.past, h, marks, cap)
    case Send(h, marks, tool, args) =>
      && Owns(w, t) && id !in w.log.sent && h == w.gates[id].held && SinceAcceptance(w, id, marks)
      && |marks| == 6 && Seen(w.past, h, marks, Some(tool)) && id in w.log.asked
      && CallAsAsked(tool, args, w.log.asked[id])
    case Await(h, n) => Owns(w, t) && h == w.gates[id].held && id in w.log.sent && w.log.sent[id] == n && n < |w.calls|
    case Finish(to, answer) => Owns(w, t) && (to == Failed || (to == Completed && AnsweredOk(w, id, answer)))
  }

  ghost predicate ThreadOk(w: World, t: ThreadId) {
    t in w.threads ==> t in w.log.entered && PcOk(w, t)
  }

  ghost predicate CallOk(w: World, n: nat) {
    n < |w.calls| ==>
      var c := w.calls[n];
      && c.id in w.log.sent && w.log.sent[c.id] == n && c.id in w.gates && c.id in w.log.asked
      && |c.marks| == 6 && Seen(w.past, w.gates[c.id].held, c.marks, Some(c.tool))
      && SinceAcceptance(w, c.id, c.marks) && CallAsAsked(c.tool, c.args, w.log.asked[c.id])
  }

  ghost predicate ClaimOk(w: World, id: GateId) {
    id in w.log.claimant ==> w.log.claimant[id] in w.log.entered
  }

  ghost predicate Inv(w: World) {
    && w.past != []
    && (forall id :: GateOk(w, id)) && (forall id :: ClaimOk(w, id))
    && (forall t :: ThreadOk(w, t))
    && (forall n: nat :: CallOk(w, n))
  }

  lemma StartInv(env: Env, now: Time, patience: Time)
    ensures Inv(Start(env, now, patience))
  {}

  // ---- Steps keep it ----

  lemma SeenStays(past: seq<Moment>, m: Moment, h: Held, marks: seq<nat>, cap: Option<Capability>)
    requires Seen(past, h, marks, cap)
    ensures Seen(past + [m], h, marks, cap)
  {}

  lemma PassingKeeps(w: World, env: Env, now: Time)
    requires Inv(w) && Now(w) <= now
    ensures Inv(w.(past := w.past + [Moment(env, now)]))
  {
    var m := Moment(env, now);
    var w' := w.(past := w.past + [m]);
    forall id
      ensures GateOk(w', id) && ClaimOk(w', id)
    {
      assert GateOk(w, id) && ClaimOk(w, id);
    }
    forall t
      ensures ThreadOk(w', t)
    {
      PassingKeepsThread(w, m, t);
    }
    forall n: nat
      ensures CallOk(w', n)
    {
      assert CallOk(w, n);
      if n < |w.calls| {
        SeenStays(w.past, m, w.gates[w.calls[n].id].held, w.calls[n].marks, Some(w.calls[n].tool));
      }
    }
  }

  lemma PassingKeepsThread(w: World, m: Moment, t: ThreadId)
    requires ThreadOk(w, t)
    ensures ThreadOk(w.(past := w.past + [m]), t)
  {
    if t in w.threads {
      match w.threads[t].pc
      case Check(h, marks, cap) => SeenStays(w.past, m, h, marks, cap);
      case Send(h, marks, tool, _) => SeenStays(w.past, m, h, marks, Some(tool));
      case _ =>
    }
  }

  // Only one request changes, and nothing else does.
  lemma MoveKeeps(w: World, t: ThreadId, pc: Pc)
    requires Inv(w) && t in w.threads
    requires PcOk(At(w, t, pc), t)
    ensures Inv(At(w, t, pc))
  {
    var w' := At(w, t, pc);
    forall id
      ensures GateOk(w', id) && ClaimOk(w', id)
    {
      assert GateOk(w, id) && ClaimOk(w, id);
    }
    forall u
      ensures ThreadOk(w', u)
    {
      assert ThreadOk(w, t) && ThreadOk(w, u);
    }
    forall n: nat
      ensures CallOk(w', n)
    {
      assert CallOk(w, n);
    }
  }

  lemma EndKeeps(w: World, t: ThreadId)
    requires Inv(w)
    ensures Inv(Ended(w, t))
  {
    var w' := Ended(w, t);
    forall id
      ensures GateOk(w', id) && ClaimOk(w', id)
    {
      assert GateOk(w, id) && ClaimOk(w, id);
    }
    forall u
      ensures ThreadOk(w', u)
    {
      assert ThreadOk(w, u);
    }
    forall n: nat
      ensures CallOk(w', n)
    {
      assert CallOk(w, n);
    }
  }

  lemma EnterKeeps(w: World, t: ThreadId, id: GateId, entry: Entry)
    requires Inv(w) && Possible(w, Enter(t, id, entry))
    ensures Inv(After(w, Enter(t, id, entry)))
  {
    var w' := After(w, Enter(t, id, entry));
    forall i
      ensures GateOk(w', i) && ClaimOk(w', i)
    {
      assert GateOk(w, i) && ClaimOk(w, i);
    }
    forall u
      ensures ThreadOk(w', u)
    {
      assert ThreadOk(w, u);
    }
    forall n: nat
      ensures CallOk(w', n)
    {
      assert CallOk(w, n);
    }
  }

  // What a gate stores gives back the arguments asked for.
  lemma RestoreUndoesProtect(byUser: bool, cap: Capability, q: RetryRequest, nonce: nat, now: Time)
    requires cap.server != "" && Protect(cap, q.args, nonce).Some?
    ensures Restore(HeldCall(byUser, cap, q, Protect(cap, q.args, nonce).value, now)) == Some(q.args)
  {
    if IsKnowledge(cap.server, cap.upstreamName) {
      var stored := Protect(cap, q.args, nonce).value;
      assert stored["query" := Text(stored["query"].plain)] == q.args;
    }
  }

  lemma CreateKeepsThread(w: World, id: GateId, byUser: bool, cap: Capability, q: RetryRequest, nonce: nat, t: ThreadId)
    requires w.past != [] && id !in w.gates && ThreadOk(w, t)
    ensures ThreadOk(AfterCreate(w, id, byUser, cap, q, nonce), t)
  {}

  lemma CreateKeepsGate(w: World, id: GateId, byUser: bool, cap: Capability, q: RetryRequest, nonce: nat, i: GateId)
    requires Possible(w, Create(id, byUser, cap, q, nonce)) && GateOk(w, id) && GateOk(w, i)
    ensures GateOk(AfterCreate(w, id, byUser, cap, q, nonce), i)
  {
    if Protect(cap, q.args, nonce).Some? {
      RestoreUndoesProtect(byUser, cap, q, nonce, Now(w));
    }
  }

  lemma CreateKeeps(w: World, id: GateId, byUser: bool, cap: Capability, q: RetryRequest, nonce: nat)
    requires Inv(w) && Possible(w, Create(id, byUser, cap, q, nonce))
    ensures Inv(AfterCreate(w, id, byUser, cap, q, nonce))
  {
    var w' := AfterCreate(w, id, byUser, cap, q, nonce);
    assert GateOk(w, id);
    forall i
      ensures GateOk(w', i) && ClaimOk(w', i)
    {
      assert GateOk(w, i) && ClaimOk(w, i);
      CreateKeepsGate(w, id, byUser, cap, q, nonce, i);
    }
    forall t
      ensures ThreadOk(w', t)
    {
      CreateKeepsThread(w, id, byUser, cap, q, nonce, t);
    }
    forall n: nat
      ensures CallOk(w', n)
    {
      assert CallOk(w, n);
    }
  }

  // ---- Decisions ----

  lemma ReadKeeps(w: World, t: ThreadId, entry: Entry)
    requires Inv(w) && t in w.threads && w.threads[t].pc == ReadGate(entry) && w.threads[t].id in w.gates
    ensures Inv(AfterRead(w, t, entry, w.gates[w.threads[t].id]))
  {
    assert ThreadOk(w, t);
    var g := w.gates[w.threads[t].id];
    if entry.Retry? {
      MoveKeeps(w, t, CheckRetry(g, entry));
    } else if g.status != Pending {
      EndKeeps(w, t);
    } else if PastExpiry(g, Now(w)) {
      MoveKeeps(w, t, Decide(Expired, entry, Last(w)));
    } else {
      MoveKeeps(w, t, Decide(if entry.Decline? then Rejected else Accepted, entry, Last(w)));
    }
  }

  lemma WithCheckKeeps(w: World, t: ThreadId)
    requires Inv(w)
    ensures Inv(WithCheck(w, t))
  {
    var w' := WithCheck(w, t);
    forall i
      ensures GateOk(w', i) && ClaimOk(w', i)
    {
      assert GateOk(w, i) && ClaimOk(w, i);
    }
    forall u
      ensures ThreadOk(w', u)
    {
      assert ThreadOk(w, u);
    }
    forall n: nat
      ensures CallOk(w', n)
    {
      assert CallOk(w, n);
    }
  }

  lemma RetryCheckKeeps(w: World, t: ThreadId, entry: Entry, g: Gate)
    requires Inv(w) && t in w.threads && w.threads[t].pc == CheckRetry(g, entry)
    ensures entry.Retry? && Inv(AfterRetryCheck(w, t, entry, g))
  {
    assert ThreadOk(w, t);
    if !RetryAllowed(Surroundings(w), g.held, entry.request) || g.status != Pending {
      EndKeeps(w, t);
    } else {
      WithCheckKeeps(w, t);
      var w' := WithCheck(w, t);
      if PastExpiry(g, Now(w)) {
        MoveKeeps(w', t, Decide(Expired, entry, Last(w)));
      } else if entry.action == DeclineIt {
        MoveKeeps(w', t, ReadGate(Decline));
      } else {
        MoveKeeps(w', t, Decide(Accepted, entry, Last(w)));
      }
    }
  }

  // A pending gate is decided on.
  ghost function WithDecision(w: World, id: GateId, who: ThreadId, to: Status, entry: Entry, found: nat): World
    requires id in w.gates && w.past != []
  {
    var w' := w.(
      gates := w.gates[id := w.gates[id].(
        status := to, decidedBy := w.gates[id].held.caller.actor, decidedAt := Some(Now(w)))],
      log := w.log.(decided := w.log.decided[id := Decision(Last(w), to, who, found)]));
    if to != Accepted then w'
    else w'.(log := w'.log.(accepted := w.log.accepted[id := Acceptance(Last(w), entry, found)]))
  }

  lemma DecisionKeeps(w: World, id: GateId, who: ThreadId, to: Status, entry: Entry, found: nat)
    requires Inv(w) && id in w.gates && w.gates[id].status == Pending
    requires to == Accepted || to == Rejected || to == Expired
    requires to == Accepted ==> FoundOk(w.past, w.patience, w.gates[id].held, entry, found)
    ensures Inv(WithDecision(w, id, who, to, entry, found))
  {
    var w' := WithDecision(w, id, who, to, entry, found);
    assert GateOk(w, id);
    forall i
      ensures GateOk(w', i) && ClaimOk(w', i)
    {
      assert GateOk(w, i) && ClaimOk(w, i);
    }
    forall t
      ensures ThreadOk(w', t)
    {
      assert ThreadOk(w, t);
      DecisionKeepsThread(w, id, who, to, entry, found, t);
    }
    forall n: nat
      ensures CallOk(w', n)
    {
      assert CallOk(w, n);
      if n < |w.calls| {
        assert GateOk(w, w.calls[n].id);
      }
    }
  }

  lemma DecisionKeepsThread(w: World, id: GateId, who: ThreadId, to: Status, entry: Entry, found: nat, t: ThreadId)
    requires w.past != [] && ThreadOk(w, t) && GateOk(w, id) && id in w.gates && w.gates[id].status == Pending
    ensures ThreadOk(WithDecision(w, id, who, to, entry, found), t)
  {
    if t in w.threads && Executes(w.threads[t].pc) {
      DecisionKeepsExecution(w, id, who, to, entry, found, t);
    } else {
      DecisionKeepsDeciders(w, id, who, to, entry, found, t);
    }
  }

  predicate Executes(pc: Pc) {
    pc.Check? || pc.Send? || pc.Await? || pc.Finish?
  }

  lemma DecisionKeepsDeciders(w: World, id: GateId, who: ThreadId, to: Status, entry: Entry, found: nat, t: ThreadId)
    requires w.past != [] && ThreadOk(w, t) && id in w.gates
    requires t in w.threads ==> !Executes(w.threads[t].pc)
    ensures ThreadOk(WithDecision(w, id, who, to, entry, found), t)
  {}

  // A gate under execution is not the one that is decided on.
  lemma DecisionKeepsExecution(w: World, id: GateId, who: ThreadId, to: Status, entry: Entry, found: nat, t: ThreadId)
    requires w.past != [] && ThreadOk(w, t) && GateOk(w, id) && id in w.gates && w.gates[id].status == Pending
    requires Owns(w, t)
    ensures ThreadOk(WithDecision(w, id, who, to, entry, found), t)
  {
    var w', own := WithDecision(w, id, who, to, entry, found), w.threads[t].id;
    assert own != id && w'.gates[own] == w.gates[own];
    assert own in w.log.accepted ==> w'.log.accepted[own] == w.log.accepted[own];
  }

  lemma DecideKeeps(w: World, t: ThreadId, to: Status, entry: Entry, found: nat)
    requires Inv(w) && t in w.threads && w.threads[t].pc == Decide(to, entry, found)
    ensures Inv(AfterDecide(w, t, to, entry, found))
  {
    assert ThreadOk(w, t);
    var id := w.threads[t].id;
    if id in w.gates && w.gates[id].status == Pending {
      DecisionKeeps(w, id, t, to, entry, found);
      var w' := WithDecision(w, id, t, to, entry, found);
      if to == Accepted {
        MoveKeeps(w', t, Claim);
      } else {
        EndKeeps(w', t);
      }
    } else {
      EndKeeps(w, t);
    }
  }

  // ---- Executions ----

  ghost function WithClaim(w: World, t: ThreadId, id: GateId): World
    requires id in w.gates && t in w.threads && w.past != []
  {
    At(w.(gates := w.gates[id := w.gates[id].(status := Executing, response := None)],
          log := w.log.(claimant := w.log.claimant[id := t])),
       t, Check(w.gates[id].held, [Last(w)], None))
  }

  lemma ClaimKeepsThread(w: World, t: ThreadId, id: GateId, u: ThreadId)
    requires Inv(w) && t in w.threads && w.threads[t] == Thread(id, Claim) && id in w.gates
        && w.gates[id].status == Accepted
    ensures ThreadOk(WithClaim(w, t, id), u)
  {
    assert ThreadOk(w, t) && GateOk(w, id) && ThreadOk(w, u);
  }

  lemma ClaimKeeps(w: World, t: ThreadId)
    requires Inv(w) && t in w.threads && w.threads[t].pc.Claim?
    ensures Inv(AfterClaim(w, t))
  {
    var id := w.threads[t].id;
    assert ThreadOk(w, t) && GateOk(w, id);
    if id in w.gates && w.gates[id].status == Accepted {
      var w' := WithClaim(w, t, id);
      forall i
        ensures GateOk(w', i) && ClaimOk(w', i)
      {
        assert GateOk(w, i) && ClaimOk(w, i);
      }
      forall u
        ensures ThreadOk(w', u)
      {
        ClaimKeepsThread(w, t, id, u);
      }
      forall n: nat
        ensures CallOk(w', n)
      {
        assert CallOk(w, n);
      }
    } else {
      EndKeeps(w, t);
    }
  }

  lemma SeenOneMore(past: seq<Moment>, h: Held, marks: seq<nat>, cap: Option<Capability>)
    requires past != [] && Seen(past, h, marks, cap) && |marks| <= 5
    requires InOrder(past[|past| - 1].env, past[marks[0]].now, h, cap, |marks|)
    ensures var cap' := if |marks| == 3 then Some(past[|past| - 1].env.capabilities[h.exposedName]) else cap;
      Seen(past, h, marks + [|past| - 1], cap')
  {}

  lemma CheckKeeps(w: World, t: ThreadId, h: Held, marks: seq<nat>, cap: Option<Capability>, ready: bool)
    requires Inv(w) && t in w.threads && w.threads[t].pc == Check(h, marks, cap)
    ensures 1 <= |marks| <= 6 && marks[0] < |w.past| && Inv(AfterCheck(w, t, h, marks, cap, ready))
  {
    assert ThreadOk(w, t) && GateOk(w, w.threads[t].id);
    var env := Surroundings(w);
    if |marks| <= 5 {
      if InOrder(env, w.past[marks[0]].now, h, cap, |marks|) {
        SeenOneMore(w.past, h, marks, cap);
        MoveKeeps(w, t,
            Check(h, marks + [Last(w)], if |marks| == 3 then Some(env.capabilities[h.exposedName]) else cap));
      } else {
        MoveKeeps(w, t, FAILED);
      }
    } else if cap.None? || h.schemaHash != cap.value.schemaHash || Restore(h).None? || !ready {
      MoveKeeps(w, t, FAILED);
    } else {
      assert InOrder(w.past[marks[3]].env, w.past[marks[0]].now, h, cap, 3);
      MoveKeeps(w, t, Send(h, marks, cap.value, Prepared(cap.value, Restore(h).value)));
    }
  }

  lemma SendKeeps(w: World, t: ThreadId, h: Held, marks: seq<nat>, tool: Capability, args: Arguments)
    requires Inv(w) && t in w.threads && w.threads[t].pc == Send(h, marks, tool, args)
    ensures Inv(AfterSend(w, t, h, marks, tool, args))
  {
    var w', id := AfterSend(w, t, h, marks, tool, args), w.threads[t].id;
    assert ThreadOk(w, t);
    forall i
      ensures GateOk(w', i) && ClaimOk(w', i)
    {
      assert GateOk(w, i) && ClaimOk(w, i);
    }
    forall u
      ensures ThreadOk(w', u)
    {
      assert ThreadOk(w, u);
    }
    forall n: nat
      ensures CallOk(w', n)
    {
      assert CallOk(w, n);
    }
  }

  ghost function WithOutcome(w: World, n: nat, o: Outcome): World
    requires n < |w.calls|
  {
    w.(calls := w.calls[n := w.calls[n].(outcome := Some(o))])
  }

  lemma OutcomeKeepsGate(w: World, n: nat, o: Outcome, i: GateId)
    requires GateOk(w, i) && n < |w.calls|
    requires i in w.gates && i in w.log.sent && w.log.sent[i] == n ==> w.gates[i].status != Completed
    ensures GateOk(WithOutcome(w, n, o), i)
  {}

  lemma OutcomeKeepsThread(w: World, n: nat, o: Outcome, u: ThreadId)
    requires ThreadOk(w, u) && n < |w.calls|
    requires u in w.threads && w.threads[u].pc.Finish? ==>
        !(w.threads[u].id in w.log.sent && w.log.sent[w.threads[u].id] == n)
    ensures ThreadOk(WithOutcome(w, n, o), u)
  {}

  lemma OutcomeKeeps(w: World, t: ThreadId, h: Held, n: nat, o: Outcome)
    requires Inv(w) && t in w.threads && w.threads[t].pc == Await(h, n)
    ensures n < |w.calls| && Inv(WithOutcome(w, n, o))
  {
    assert ThreadOk(w, t) && CallOk(w, n);
    var w', id := WithOutcome(w, n, o), w.threads[t].id;
    forall i
      ensures GateOk(w', i) && ClaimOk(w', i)
    {
      assert GateOk(w, i) && ClaimOk(w, i) && GateOk(w, id);
      OutcomeKeepsGate(w, n, o, i);
    }
    forall u
      ensures ThreadOk(w', u)
    {
      assert ThreadOk(w, u);
      if u in w.threads {
        assert GateOk(w, w.threads[u].id) && GateOk(w, id);
      }
      OutcomeKeepsThread(w, n, o, u);
    }
    forall m: nat
      ensures CallOk(w', m)
    {
      assert CallOk(w, m);
    }
  }

  lemma AwaitKeeps(w: World, t: ThreadId, h: Held, n: nat, o: Outcome, auditSaved: bool)
    requires Inv(w) && t in w.threads && w.threads[t].pc == Await(h, n)
    ensures n < |w.calls| && Inv(AfterAwait(w, t, h, n, o, auditSaved))
  {
    assert ThreadOk(w, t);
    OutcomeKeeps(w, t, h, n, o);
    MoveKeeps(WithOutcome(w, n, o), t, Ending(h, w.calls[n].tool, o, auditSaved));
  }

  lemma FinishKeepsThread(w: World, t: ThreadId, to: Status, answer: Option<Answer>, u: ThreadId)
    requires Inv(w) && t in w.threads && w.threads[t].pc == Finish(to, answer)
    ensures ThreadOk(AfterFinish(w, t, to, answer), u)
  {
    assert ThreadOk(w, t) && ThreadOk(w, u);
  }

  lemma FinishKeepsGate(w: World, t: ThreadId, to: Status, answer: Option<Answer>, id: GateId)
    requires Inv(w) && t in w.threads && w.threads[t].pc == Finish(to, answer)
    ensures GateOk(AfterFinish(w, t, to, answer), id)
  {
    assert ThreadOk(w, t) && GateOk(w, id);
  }

  lemma FinishKeeps(w: World, t: ThreadId, to: Status, answer: Option<Answer>)
    requires Inv(w) && t in w.threads && w.threads[t].pc == Finish(to, answer)
    ensures Inv(AfterFinish(w, t, to, answer))
  {
    var w' := AfterFinish(w, t, to, answer);
    assert ThreadOk(w, t);
    forall i
      ensures GateOk(w', i) && ClaimOk(w', i)
    {
      assert ClaimOk(w, i);
      FinishKeepsGate(w, t, to, answer, i);
    }
    forall u
      ensures ThreadOk(w', u)
    {
      FinishKeepsThread(w, t, to, answer, u);
    }
    forall n: nat
      ensures CallOk(w', n)
    {
      assert CallOk(w, n);
    }
  }

  lemma StepKeeps(w: World, t: ThreadId, c: Chance)
    requires Inv(w) && Possible(w, Step(t, c))
    ensures Inv(After(w, Step(t, c)))
  {
    match w.threads[t].pc
    case Send(h, marks, tool, args) => SendKeeps(w, t, h, marks, tool, args);
    case Await(h, n) => AwaitKeeps(w, t, h, n, c.outcome, c.auditSaved);
    case Check(h, marks, cap) =>
      CheckKeeps(w, t, h, marks, cap, c.ready);
      assert ThreadOk(w, t);
      if c.fails {
        MoveKeeps(w, t, FAILED);
      }
    case ReadGate(entry) =>
      if c.fails || w.threads[t].id !in w.gates { EndKeeps(w, t); } else { ReadKeeps(w, t, entry); }
    case CheckRetry(g, entry) => RetryCheckKeeps(w, t, entry, g); EndKeeps(w, t);
    case Decide(to, entry, found) => DecideKeeps(w, t, to, entry, found); EndKeeps(w, t);
    case Claim => ClaimKeeps(w, t); EndKeeps(w, t);
    case Finish(to, answer) => FinishKeeps(w, t, to, answer); EndKeeps(w, t);
  }

  lemma EventKeeps(w: World, e: Event)
    requires Inv(w) && Possible(w, e)
    ensures Inv(After(w, e))
  {
    match e
    case Passing(env, now) => PassingKeeps(w, env, now);
    case Create(id, byUser, cap, q, nonce) => CreateKeeps(w, id, byUser, cap, q, nonce);
    case Enter(t, id, entry) => EnterKeeps(w, t, id, entry);
    case Step(t, c) => StepKeeps(w, t, c);
    case Crash(t) => EndKeeps(w, t);
  }

  lemma {:induction false} RunKeeps(w: World, events: seq<Event>)
    requires Inv(w) && IsRun(w, events)
    ensures Inv(Final(w, events))
    decreases |events|
  {
    if events != [] {
      EventKeeps(w, events[0]);
      RunKeeps(After(w, events[0]), events[1..]);
    }
  }

  // ---- Arguments, over what is asked and sent ----

  ghost predicate IsKnowledgeSearch(cap: Capability) {
    cap.server == "knowledge-adapter" && cap.upstreamName == "search"
  }

  ghost predicate AllSpace(s: string) {
    forall i :: 0 <= i < |s| ==> IsSpace(s[i])
  }

  // The text without the white space around it.
  ghost predicate IsTrimmed(s: string, trimmed: string) {
    && (exists before, after :: AllSpace(before) && AllSpace(after) && s == before + trimmed + after)
    && (trimmed != "" ==> !IsSpace(trimmed[0]) && !IsSpace(trimmed[|trimmed| - 1]))
  }

  // What is sent upstream: the arguments; of a knowledge search with its query trimmed and a
  // number of results.
  ghost predicate IsSentFor(tool: Capability, args: Arguments, sent: Arguments) {
    if !IsKnowledgeSearch(tool) then sent == args
    else
      && sent.Keys == args.Keys + {"top_k"}
      && (forall k :: k in args && k != "query" ==> sent[k] == args[k])
      && ("top_k" !in args ==> sent["top_k"] == Number(5))
      && ("query" in args ==>
            if args["query"].Text? then sent["query"].Text? && IsTrimmed(args["query"].text, sent["query"].text)
            else sent["query"] == args["query"])
  }

  lemma {:induction false} TrimmedLeft(s: string) returns (before: string)
    ensures s == before + TrimLeft(s) && AllSpace(before)
    ensures TrimLeft(s) != "" ==> !IsSpace(TrimLeft(s)[0])
  {
    before := "";
    if s != "" && IsSpace(s[0]) {
      var more := TrimmedLeft(s[1..]);
      before := [s[0]] + more;
    }
  }

  lemma {:induction false} TrimmedRight(s: string) returns (after: string)
    ensures s == TrimRight(s) + after && AllSpace(after)
    ensures TrimRight(s) != "" ==> !IsSpace(TrimRight(s)[|TrimRight(s)| - 1])
  {
    after := "";
    if s != "" && IsSpace(s[|s| - 1]) {
      var more := TrimmedRight(s[..|s| - 1]);
      after := more + [s[|s| - 1]];
    }
  }

  lemma TrimmedIs(s: string)
    ensures IsTrimmed(s, TrimRight(TrimLeft(s)))
  {
    var left := TrimLeft(s);
    var trimmed := TrimRight(left);
    var before := TrimmedLeft(s);
    var after := TrimmedRight(left);
    assert before + (trimmed + after) == before + trimmed + after;
    assert trimmed != "" ==> trimmed[0] == left[0];
  }

  lemma PreparedIsSent(tool: Capability, args: Arguments)
    ensures IsSentFor(tool, args, Prepared(tool, args))
  {
    if "query" in args && args["query"].Text? {
      TrimmedIs(args["query"].text);
    }
  }

  // What a gate stores of its arguments: a knowledge search hides its query, and can only be
  // held back when it has one; everything else is stored as it is.
  lemma StoredArguments(cap: Capability, args: Arguments, nonce: nat)
    ensures Protect(cap, args, nonce).None? <==>
        IsKnowledgeSearch(cap) && !("query" in args && args["query"].Text?)
    ensures Protect(cap, args, nonce).Some? ==>
        var stored := Protect(cap, args, nonce).value;
        && stored.Keys == args.Keys && (forall k :: k in args && k != "query" ==> stored[k] == args[k])
        && (IsKnowledgeSearch(cap) ==> stored["query"] == Sealed(args["query"].text, nonce))
        && (!IsKnowledgeSearch(cap) ==> stored == args)
  {}

  // ---- Main results ----

  ghost predicate Reachable(w: World) {
    exists env, now, patience, events ::
      IsRun(Start(env, now, patience), events) && w == Final(Start(env, now, patience), events)
  }

  lemma ReachableInv(w: World)
    requires Reachable(w)
    ensures Inv(w)
  {
    var env, now, patience, events :|
      IsRun(Start(env, now, patience), events) && w == Final(Start(env, now, patience), events);
    StartInv(env, now, patience);
    RunKeeps(Start(env, now, patience), events);
  }

  // Every request in progress can always take its next step: what `Possible` asks of its
  // shape excludes none.
  lemma RequestsCanGoOn(w: World, t: ThreadId, c: Chance)
    requires Reachable(w) && t in w.threads
    ensures Possible(w, Step(t, c))
  {
    ReachableInv(w);
    assert ThreadOk(w, t);
  }

  // At most one call is ever sent for a gate.
  lemma OneCallPerGate(w: World, m: nat, n: nat)
    requires Reachable(w) && m < |w.calls| && n < |w.calls| && w.calls[m].id == w.calls[n].id
    ensures m == n
  {
    ReachableInv(w);
    assert CallOk(w, m) && CallOk(w, n);
  }

  // A call is sent only for a gate that its user or an approver accepted before, and only
  // as it was asked for: the restored arguments are the original ones, the tool is the
  // present holder of the same name, on the same server and with the same schema.
  lemma CallsAreAsAsked(w: World, n: nat)
    requires Reachable(w) && n < |w.calls|
    ensures var c := w.calls[n];
      && c.id in w.gates && c.id in w.log.asked && c.id in w.log.accepted && WasClaimed(w.gates[c.id].status)
      && |c.marks| == 6 && Rising(c.marks, |w.past|) && w.log.accepted[c.id].at <= c.marks[0]
      && w.gates[c.id].decidedAt == Some(w.past[w.log.accepted[c.id].at].now)
      && (var name, tools := w.log.asked[c.id].cap.exposedName, w.past[c.marks[3]].env.capabilities;
          name in tools && tools[name] == c.tool)
      && c.tool.server == w.log.asked[c.id].cap.server && c.tool.schemaHash == w.log.asked[c.id].cap.schemaHash
      && IsSentFor(c.tool, w.log.asked[c.id].request.args, c.args)
  {
    ReachableInv(w);
    assert CallOk(w, n) && GateOk(w, w.calls[n].id);
    PreparedIsSent(w.calls[n].tool, w.log.asked[w.calls[n].id].request.args);
  }

  // Between acceptance and call, one after another, the agent was active, its owner's
  // account valid, the tool active, the user granted its use, and the server active.
  lemma CallsAreAuthorised(w: World, n: nat)
    requires Reachable(w) && n < |w.calls|
    ensures var c := w.calls[n];
      && |c.marks| == 6 && Rising(c.marks, |w.past|) && c.id in w.log.asked && c.id in w.log.accepted
      && w.log.accepted[c.id].at <= c.marks[0]
    ensures var c := w.calls[n];
      var a := w.log.asked[c.id];
      var who, name := a.request.caller, a.cap.exposedName;
      && who.agent in w.past[c.marks[1]].env.agents && w.past[c.marks[1]].env.agents[who.agent].active
      && (who.user, who.agent) in w.past[c.marks[2]].env.callers
      && name in w.past[c.marks[3]].env.capabilities && c.tool == w.past[c.marks[3]].env.capabilities[name]
      && c.tool.isTool && c.tool.active && (a.request.endpoint != "" ==> c.tool.server == a.request.endpoint)
      && Grants.IsAllowed(w.past[c.marks[0]].now, w.past[c.marks[4]].env.grants, who.user, c.tool.id, "tool")
      && a.cap.server in w.past[c.marks[5]].env.servers && w.past[c.marks[5]].env.servers[a.cap.server]
  {
    ReachableInv(w);
    var c := w.calls[n];
    assert CallOk(w, n) && GateOk(w, c.id);
    var h := w.gates[c.id].held;
    forall k | 1 <= k < 6
      ensures InOrder(w.past[c.marks[k]].env, w.past[c.marks[0]].now, h, Some(c.tool), k)
    {}
    assert InOrder(w.past[c.marks[3]].env, w.past[c.marks[0]].now, h, Some(c.tool), 3);
  }

  // A gate that counts as completed had its call, the call returned, and the gate keeps what
  // it returned, or what may be kept of it.
  lemma CompletedMeansReturned(w: World, id: GateId)
    requires Reachable(w) && id in w.gates && w.gates[id].status == Completed
    ensures id in w.log.asked && exists n :: 0 <= n < |w.calls| && ReturnedFor(w, w.calls[n], id)
  {
    ReachableInv(w);
    assert GateOk(w, id);
    assert 0 <= w.log.sent[id] && ReturnedFor(w, w.calls[w.log.sent[id]], id);
  }

  // The call was the gate's, it returned, and this is what the gate keeps: of a knowledge
  // search only a projection, or a fixed text when it answered with an error.
  ghost predicate ReturnedFor(w: World, c: Call, id: GateId)
    requires id in w.gates && id in w.log.asked
  {
    && c.id == id && c.outcome.Some? && c.outcome.value.Returned?
    && var o := c.outcome.value;
       w.gates[id].response == Some(
         if !IsKnowledgeSearch(w.log.asked[id].cap) then Whole(o.response)
         else if o.isError then ProviderError else Projected(o.response))
  }

  // While a gate is undecided or refused nothing has been sent for it.
  lemma NothingSentBefore(w: World, id: GateId, n: nat)
    requires Reachable(w) && id in w.gates && !WasClaimed(w.gates[id].status) && n < |w.calls|
    ensures w.calls[n].id != id
  {
    ReachableInv(w);
    assert CallOk(w, n) && GateOk(w, id);
  }

  // The moves a gate's status can make.
  predicate Allowed(s: Status, s': Status) {
    || s' == s
    || (s == Pending && (s' == Accepted || s' == Rejected || s' == Expired))
    || (s == Accepted && s' == Executing)
    || (s == Executing && (s' == Completed || s' == Failed))
  }

  predicate Terminal(s: Status) {
    s == Rejected || s == Expired || s == Completed || s == Failed
  }

  // One gate from one world to the next: it keeps the call it holds back, makes an allowed
  // move or none, does not change once it has ended, and what was recorded of its
  // acceptance and claim stays.
  ghost predicate Advances(w: World, w': World, id: GateId) {
    && (id in w.gates ==>
          && id in w'.gates && w'.gates[id].held == w.gates[id].held
          && Allowed(w.gates[id].status, w'.gates[id].status)
          && (Terminal(w.gates[id].status) ==> w'.gates[id] == w.gates[id]))
    && (id in w.log.accepted ==> id in w'.log.accepted && w'.log.accepted[id] == w.log.accepted[id])
    && (id in w.log.claimant ==> id in w'.log.claimant && w'.log.claimant[id] == w.log.claimant[id])
  }

  lemma DecideAdvances(w: World, t: ThreadId, to: Status, entry: Entry, found: nat, id: GateId)
    requires Inv(w) && t in w.threads && w.threads[t].pc == Decide(to, entry, found)
    ensures Advances(w, AfterDecide(w, t, to, entry, found), id)
  {
    assert ThreadOk(w, t) && GateOk(w, id);
  }

  lemma ClaimAdvances(w: World, t: ThreadId, id: GateId)
    requires Inv(w) && t in w.threads && w.threads[t].pc.Claim?
    ensures Advances(w, AfterClaim(w, t), id)
  {
    assert GateOk(w, id);
  }

  lemma FinishAdvances(w: World, t: ThreadId, to: Status, answer: Option<Answer>, id: GateId)
    requires Inv(w) && t in w.threads && w.threads[t].pc == Finish(to, answer)
    ensures Advances(w, AfterFinish(w, t, to, answer), id)
  {
    assert ThreadOk(w, t);
  }

  // Gates and the records of their acceptance and claim are left alone.
  ghost predicate Still(w: World, w': World) {
    w'.gates == w.gates && w'.log.accepted == w.log.accepted && w'.log.claimant == w.log.claimant
  }

  lemma CheckIsStill(w: World, t: ThreadId, h: Held, marks: seq<nat>, cap: Option<Capability>, ready: bool)
    requires t in w.threads && w.past != [] && 1 <= |marks| <= 6 && marks[0] < |w.past|
    ensures Still(w, AfterCheck(w, t, h, marks, cap, ready))
  {}

  lemma ReadIsStill(w: World, t: ThreadId, entry: Entry, g: Gate)
    requires t in w.threads && w.past != []
    ensures Still(w, AfterRead(w, t, entry, g))
  {}

  lemma RetryCheckIsStill(w: World, t: ThreadId, entry: Entry, g: Gate)
    requires t in w.threads && w.past != [] && entry.Retry?
    ensures Still(w, AfterRetryCheck(w, t, entry, g))
  {}

  lemma StepAdvances(w: World, t: ThreadId, c: Chance, id: GateId)
    requires Inv(w) && Possible(w, Step(t, c))
    ensures Advances(w, AfterStep(w, t, c), id)
  {
    match w.threads[t].pc
    case Decide(to, entry, found) => DecideAdvances(w, t, to, entry, found, id);
    case Claim => ClaimAdvances(w, t, id);
    case Finish(to, answer) => FinishAdvances(w, t, to, answer, id);
    case _ => LookingIsStill(w, t, c);
  }

  // Steps that only read or call change no gate.
  lemma LookingIsStill(w: World, t: ThreadId, c: Chance)
    requires Possible(w, Step(t, c)) && !w.threads[t].pc.Decide? && !w.threads[t].pc.Claim? && !w.threads[t].pc.Finish?
    ensures Still(w, AfterStep(w, t, c))
  {
    match w.threads[t].pc
    case Check(h, marks, cap) => CheckIsStill(w, t, h, marks, cap, c.ready);
    case ReadGate(entry) =>
      if w.threads[t].id in w.gates { ReadIsStill(w, t, entry, w.gates[w.threads[t].id]); }
    case CheckRetry(g, entry) => RetryCheckIsStill(w, t, entry, g);
    case _ =>
  }

  // Every event takes every gate forward.
  lemma GatesMoveForward(w: World, e: Event, id: GateId)
    requires Reachable(w) && Possible(w, e)
    ensures Advances(w, After(w, e), id)
  {
    ReachableInv(w);
    assert GateOk(w, id);
    if e.Step? {
      StepAdvances(w, e.t, e.chance, id);
    }
  }

  // Nobody accepts a gate without having found it unexpired, except for a user who answers
  // the waiting call, within the time for that; and a retry accepts it only when it is the
  // call that the gate holds back, made by the same active agent.
  lemma AcceptedInTime(w: World, id: GateId)
    requires Reachable(w) && id in w.log.accepted
    ensures id in w.gates && id in w.log.asked && w.log.accepted[id].found <= w.log.accepted[id].at < |w.past|
    ensures var a, h := w.log.accepted[id], w.gates[id].held;
      && h.expiresAt == w.log.asked[id].at + GATE_TIME
      && w.past[a.found].now <= (if a.entry.Answered? then w.log.asked[id].at + w.patience else h.expiresAt)
      && (a.entry.Retry? ==> RetryAllowed(w.past[a.found].env, h, a.entry.request))
  {
    ReachableInv(w);
    assert GateOk(w, id);
  }

  // Every acceptance found its gate unexpired.
  ghost predicate FoundUnexpired(w: World) {
    forall id :: id in w.log.accepted ==>
      id in w.gates && w.log.accepted[id].found < |w.past|
          && w.past[w.log.accepted[id].found].now <= w.gates[id].held.expiresAt
  }

  // An answer to the waiting call is not held against the gate's expiry. It needs not be,
  // if and only if no answer can come later than gates expire.
  lemma AnswersNeedNoExpiry(patience: Time)
    ensures (forall w :: Reachable(w) && w.patience == patience ==> FoundUnexpired(w)) <==> patience <= GATE_TIME
  {
    forall w | Reachable(w) && w.patience == patience && patience <= GATE_TIME
      ensures FoundUnexpired(w)
    {
      forall id | id in w.log.accepted
        ensures id in w.gates && w.log.accepted[id].found < |w.past|
            && w.past[w.log.accepted[id].found].now <= w.gates[id].held.expiresAt
      {
        AcceptedInTime(w, id);
      }
    }
    if patience > GATE_TIME {
      var w := LateAnswer(Env(map[], {}, map[], [], map[]), patience);
      assert !FoundUnexpired(w);
    }
  }

  const EXAMPLE_TOOL := Capability("cap", "server", "tool", "tool", true, true, "schema")
  const EXAMPLE_REQUEST := RetryRequest(Caller("agent", "", "user", "actor", "", ""), "tool", "", "", map[])

  lemma OneMore(w: World, e: Event, rest: seq<Event>)
    requires Possible(w, e) && IsRun(After(w, e), rest)
    ensures IsRun(w, [e] + rest) && Final(w, [e] + rest) == Final(After(w, e), rest)
  {
    assert ([e] + rest)[1..] == rest;
  }

  // With a longer patience, a run in which an answer comes after the gate expired.
  lemma LateAnswer(env: Env, patience: Time) returns (w: World)
    requires patience > GATE_TIME
    ensures Reachable(w) && w.patience == patience
    ensures "gate" in w.gates && w.gates["gate"].status == Accepted && w.gates["gate"].held.expiresAt == GATE_TIME
    ensures "gate" in w.log.accepted && w.log.accepted["gate"].found < |w.past|
    ensures w.past[w.log.accepted["gate"].found].now == GATE_TIME + 1
  {
    var create, wait := Create("gate", true, EXAMPLE_TOOL, EXAMPLE_REQUEST, 0), Passing(env, GATE_TIME + 1);
    var answer, accept := Enter(0, "gate", Answered), Step(0, Chance(false, true, Failure, true));
    var w0 := Start(env, 0, patience);
    var w1 := After(w0, create);
    var w2 := After(w1, wait);
    var w3 := After(w2, answer);
    w := After(w3, accept);
    OneMore(w3, accept, []);
    OneMore(w2, answer, [accept] + []);
    OneMore(w1, wait, [answer] + ([accept] + []));
    OneMore(w0, create, [wait] + ([answer] + ([accept] + [])));
  }
}
