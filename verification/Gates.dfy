/** Confirmation gates: a tool call that waits for its user's decision. Requests to decide
    on a gate or to execute it run side by side; each is a list of steps, a step being one
    store access with the clock readings around it. */
module Gates {
  import opened Common
  import Grants

  type GateId = string
  type ThreadId = nat

  // What matters of a JSON argument: texts are told apart from the rest, and an encrypted
  // text is known by what it decrypts to and the randomness that went into it.
  datatype Value = Text(text: string) | Number(number: int) | Sealed(plain: string, nonce: nat)

  type Arguments = map<string, Value>

  const KNOWLEDGE_SERVER := "knowledge-adapter"
  const KNOWLEDGE_SEARCH := "search"
  const KNOWLEDGE_EXPOSED := "knowledge.search"
  const GATE_TIME: int := 30 * MINUTE

  datatype Capability = Capability(
    id: string, server: string, exposedName: string, upstreamName: string, isTool: bool, active: bool,
    schemaHash: string)

  datatype Caller = Caller(agent: string, tenant: string, user: string, actor: string, tokenId: string,
      tokenHash: string)

  datatype Status = Pending | Accepted | Rejected | Expired | Executing | Completed | Failed

  // What a gate says of the call it holds back; it never changes. `digest` stands for the
  // hash of the original arguments.
  datatype Held = Held(
    byUser: bool, caller: Caller, exposedName: string, upstreamName: string, server: string, endpoint: string,
    session: string, stored: Arguments, digest: Arguments, schemaHash: string, expiresAt: Time)

  // What a gate keeps of an answer: of a knowledge search only a projection, or a fixed
  // text when it answered with an error.
  datatype Answer = Whole(response: string) | Projected(response: string) | ProviderError

  datatype Gate = Gate(
    held: Held, status: Status, decidedBy: string, decidedAt: Option<Time>, response: Option<Answer>)

  // ---- Arguments that a gate keeps ----

  predicate IsKnowledge(server: string, upstreamName: string) {
    server == KNOWLEDGE_SERVER && upstreamName == KNOWLEDGE_SEARCH
  }

  predicate IsKnowledgeGate(h: Held) {
    IsKnowledge(h.server, h.upstreamName)
        || (h.server == "" && h.upstreamName == "" && h.exposedName == KNOWLEDGE_EXPOSED)
  }

  // Arguments as stored with a gate: the query of a knowledge search is encrypted.
  function Protect(cap: Capability, args: Arguments, nonce: nat): Option<Arguments> {
    if !IsKnowledge(cap.server, cap.upstreamName) then Some(args)
    else if "query" in args && args["query"].Text? then Some(args["query" := Sealed(args["query"].text, nonce)])
    else None
  }

  function Restore(h: Held): Option<Arguments> {
    if !IsKnowledgeGate(h) then Some(h.stored)
    else if "query" in h.stored && h.stored["query"].Sealed?
      then Some(h.stored["query" := Text(h.stored["query"].plain)])
    else None
  }

  function KeptAnswer(h: Held, response: string, isError: bool): Answer {
    if !IsKnowledgeGate(h) then Whole(response) else if isError then ProviderError else Projected(response)
  }

  function TrimLeft(s: string): string {
    if s != "" && IsSpace(s[0]) then TrimLeft(s[1..]) else s
  }

  function TrimRight(s: string): string {
    if s != "" && IsSpace(s[|s| - 1]) then TrimRight(s[..|s| - 1]) else s
  }

  // Arguments as sent upstream.
  function Prepared(cap: Capability, args: Arguments): Arguments {
    if !IsKnowledge(cap.server, cap.upstreamName) then args
    else
      var trimmed := if "query" in args && args["query"].Text?
                     then args["query" := Text(TrimRight(TrimLeft(args["query"].text)))] else args;
      if "top_k" in trimmed then trimmed else trimmed["top_k" := Number(5)]
  }

  // ---- The store ----

  datatype Access = Done(gate: Gate) | Conflict | NotFound

  function Decided(gates: map<GateId, Gate>, id: GateId, to: Status, now: Time): (map<GateId, Gate>, Access) {
    if id !in gates then (gates, NotFound)
    else if gates[id].status != Pending then (gates, Conflict)
    else
      var g := gates[id].(status := to, decidedBy := gates[id].held.caller.actor, decidedAt := Some(now));
      (gates[id := g], Done(g))
  }

  function Executed(gates: map<GateId, Gate>, id: GateId, from: Status, to: Status, response: Option<Answer>)
    : (map<GateId, Gate>, Access)
  {
    if id !in gates then (gates, NotFound)
    else if gates[id].status != from then (gates, Conflict)
    else
      var g := gates[id].(status := to, response := response);
      (gates[id := g], Done(g))
  }

  class GateStore {
    var gates: map<GateId, Gate>

    constructor ()
      ensures gates == map[]
    {
      gates := map[];
    }

    method UpdateGateDecision(id: GateId, from: Status, to: Status, decidedBy: string, now: Time) returns (a: Access)
      modifies this
      ensures id !in old(gates) ==> a == NotFound && gates == old(gates)
      ensures id in old(gates) && old(gates)[id].status != from ==> a == Conflict && gates == old(gates)
      ensures id in old(gates) && old(gates)[id].status == from ==>
          && a.Done? && gates == old(gates)[id := a.gate]
          && a.gate == old(gates)[id].(status := to, decidedBy := decidedBy, decidedAt := Some(now))
      ensures id in old(gates) && from == Pending && decidedBy == old(gates)[id].held.caller.actor ==>
          (gates, a) == Decided(old(gates), id, to, now)
    {
      if id !in gates {
        return NotFound;
      }
      var gate := gates[id];
      if gate.status != from {
        return Conflict;
      }
      gate := gate.(status := to, decidedBy := decidedBy, decidedAt := Some(now));
      gates := gates[id := gate];
      a := Done(gate);
    }

    method UpdateGateExecution(id: GateId, from: Status, to: Status, response: Option<Answer>) returns (a: Access)
      modifies this
      ensures a == NotFound <==> id !in old(gates)
      ensures a == Conflict <==> id in old(gates) && old(gates)[id].status != from
      ensures !a.Done? ==> gates == old(gates)
      ensures a.Done? ==>
          && gates == old(gates)[id := a.gate] && a.gate.status == to && a.gate.response == response
          && a.gate.held == old(gates)[id].held && a.gate.decidedBy == old(gates)[id].decidedBy
          && a.gate.decidedAt == old(gates)[id].decidedAt
      ensures (gates, a) == Executed(old(gates), id, from, to, response)
    {
      if id !in gates {
        return NotFound;
      }
      var gate := gates[id];
      if gate.status != from {
        return Conflict;
      }
      gate := gate.(status := to, response := response);
      gates := gates[id := gate];
      a := Done(gate);
    }
  }

  // ---- Everything a gate's execution looks at besides the gate ----

  datatype Env = Env(
    agents: map<string, Agent>,
    callers: set<(string, string)>,
    capabilities: map<string, Capability>,
    grants: seq<Grants.Grant>,
    servers: map<string, bool>)

  datatype Agent = Agent(tenant: string, active: bool)

  // The surroundings at one moment.
  datatype Moment = Moment(env: Env, now: Time)

  // ---- Requests in progress ----

  datatype Action = AcceptIt | DeclineIt

  datatype RetryRequest = RetryRequest(
    caller: Caller, exposedName: string, endpoint: string, session: string, args: Arguments)

  // A console decision, the retry of the original call, the user's answer while the call
  // waits, or an execution asked for on its own.
  datatype Entry = Accept | Decline | Retry(action: Action, request: RetryRequest) | Answered | Execute

  // What a request does next.
  datatype Pc =
    | ReadGate(entry: Entry)
    | CheckRetry(gate: Gate, entry: Entry)
    | Decide(to: Status, entry: Entry, found: nat)
    | Claim
    | Check(held: Held, marks: seq<nat>, cap: Option<Capability>)
    | Send(held: Held, marks: seq<nat>, tool: Capability, args: Arguments)
    | Await(held: Held, call: nat)
    | Finish(to: Status, answer: Option<Answer>)

  datatype Thread = Thread(id: GateId, pc: Pc)

  datatype Outcome = Failure | Returned(response: string, isError: bool)

  // A call sent upstream. `marks` are the moments of claiming the gate and of reading the
  // agent, its owner, the capability, the grants and the server.
  datatype Call = Call(id: GateId, tool: Capability, args: Arguments, marks: seq<nat>, outcome: Option<Outcome>)

  // A gate's acceptance: when, and through which entry; `found` is the moment at which the
  // gate was last seen unexpired, or at which its user's answer came.
  datatype Acceptance = Acceptance(at: nat, entry: Entry, found: nat)

  // A decision on a gate: when, which one, by which request, and at which moment the gate was
  // found to be as it has to be.
  datatype Decision = Decision(at: nat, to: Status, who: ThreadId, found: nat)

  datatype Asked = Asked(byUser: bool, cap: Capability, request: RetryRequest, at: Time)

  // History: every request ever made to a gate and the moment at which a retry first passed its
  // check, what was asked, who decided, who accepted, who claimed, which call was sent.
  datatype Log = Log(
    entered: map<ThreadId, (GateId, Entry)>,
    checked: map<ThreadId, nat>,
    decided: map<GateId, Decision>,
    asked: map<GateId, Asked>,
    accepted: map<GateId, Acceptance>,
    claimant: map<GateId, ThreadId>,
    sent: map<GateId, nat>)

  // `patience` is how long after the creation of a gate an answer of its user can come: the
  // time limit on the question with what passes before it is asked.
  datatype World = World(
    patience: Time,
    gates: map<GateId, Gate>,
    threads: map<ThreadId, Thread>,
    past: seq<Moment>,
    calls: seq<Call>,
    log: Log)

  // What a step does not decide itself: a store failing, input failing its schema or the
  // call's preparation failing, what the upstream answers, whether its audit is saved.
  datatype Chance = Chance(fails: bool, ready: bool, outcome: Outcome, auditSaved: bool)

  datatype Event =
    | Passing(env: Env, now: Time)
    | Create(id: GateId, byUser: bool, cap: Capability, request: RetryRequest, nonce: nat)
    | Enter(t: ThreadId, id: GateId, entry: Entry)
    | Step(t: ThreadId, chance: Chance)
    | Crash(t: ThreadId)

  function Last(w: World): nat
    requires w.past != []
  {
    |w.past| - 1
  }

  function Now(w: World): Time
    requires w.past != []
  {
    w.past[Last(w)].now
  }

  function Surroundings(w: World): Env
    requires w.past != []
  {
    w.past[Last(w)].env
  }

  function Start(env: Env, now: Time, patience: Time): World {
    World(patience, map[], map[], [Moment(env, now)], [], Log(map[], map[], map[], map[], map[], map[], map[]))
  }

  // What a request's earlier steps make sure of for its next one.
  predicate ThreadShape(w: World, pc: Pc) {
    && (pc.CheckRetry? ==> pc.entry.Retry?)
    && (pc.Check? ==> 1 <= |pc.marks| <= 6 && pc.marks[0] < |w.past|)
    && (pc.Await? ==> pc.call < |w.calls|)
  }

  // The request that asked for the call still waits for its user's answer.
  predicate AwaitsAnswer(w: World, id: GateId)
    requires w.past != []
  {
    id in w.gates && w.gates[id].held.byUser && Now(w) <= w.gates[id].held.expiresAt - GATE_TIME + w.patience
  }

  ghost predicate Possible(w: World, e: Event) {
    && w.past != []
    && match e
       case Passing(_, now) => Now(w) <= now
       case Create(id, _, cap, request, _) =>
         id !in w.gates && cap.server != "" && cap.exposedName == request.exposedName
       case Enter(t, id, entry) => t !in w.log.entered && (entry.Answered? ==> AwaitsAnswer(w, id))
       case Step(t, _) => t in w.threads && ThreadShape(w, w.threads[t].pc)
       case Crash(t) => t in w.threads
  }

  function HeldCall(byUser: bool, cap: Capability, q: RetryRequest, stored: Arguments, now: Time): Held {
    Held(byUser, q.caller, cap.exposedName, cap.upstreamName, cap.server, q.endpoint, q.session, stored, q.args,
         cap.schemaHash, now + GATE_TIME)
  }

  function AfterCreate(w: World, id: GateId, byUser: bool, cap: Capability, q: RetryRequest, nonce: nat): World
    requires w.past != []
  {
    match Protect(cap, q.args, nonce)
    case None => w
    case Some(stored) =>
      w.(gates := w.gates[id := Gate(HeldCall(byUser, cap, q, stored, Now(w)), Pending, "", None, None)],
         log := w.log.(asked := w.log.asked[id := Asked(byUser, cap, q, Now(w))]))
  }

  // Where a request begins: a user's answer needs no reading of the gate.
  function Entering(entry: Entry, now: nat): Pc {
    match entry
    case Answered => Decide(Accepted, entry, now)
    case Execute => Claim
    case _ => ReadGate(entry)
  }

  // ---- Steps ----

  function At(w: World, t: ThreadId, pc: Pc): World
    requires t in w.threads
  {
    w.(threads := w.threads[t := w.threads[t].(pc := pc)])
  }

  function Ended(w: World, t: ThreadId): World {
    w.(threads := w.threads - {t})
  }

  predicate PastExpiry(g: Gate, now: Time) {
    now > g.held.expiresAt
  }

  // A request goes on to its next step, or ends.
  function Going(w: World, t: ThreadId, next: Option<Pc>): World
    requires t in w.threads
  {
    match next
    case None => Ended(w, t)
    case Some(pc) => At(w, t, pc)
  }

  // Deciding on a gate as it was read.
  function AfterReading(g: Gate, entry: Entry, now: Time, moment: nat): Option<Pc> {
    if entry.Retry? then Some(CheckRetry(g, entry))
    else if g.status != Pending then None
    else if PastExpiry(g, now) then Some(Decide(Expired, entry, moment))
    else Some(Decide(if entry.Decline? then Rejected else Accepted, entry, moment))
  }

  function AfterRead(w: World, t: ThreadId, entry: Entry, g: Gate): World
    requires t in w.threads && w.past != []
  {
    Going(w, t, AfterReading(g, entry, Now(w), Last(w)))
  }

  // The retried call is the one that the gate holds back.
  predicate SameCall(h: Held, q: RetryRequest, tenant: string) {
    && h.caller == q.caller && h.caller.tenant == tenant
    && h.exposedName == q.exposedName && h.endpoint == q.endpoint && h.digest == q.args
    && (h.session != "" && q.session != "" ==> h.session == q.session)
  }

  predicate RetryAllowed(env: Env, h: Held, q: RetryRequest) {
    h.byUser && q.caller.agent in env.agents && env.agents[q.caller.agent].active
    && SameCall(h, q, env.agents[q.caller.agent].tenant)
  }

  // A retry that passes its check is remembered.
  function WithCheck(w: World, t: ThreadId): World
    requires w.past != []
  {
    w.(log := w.log.(checked := if t in w.log.checked then w.log.checked else w.log.checked[t := Last(w)]))
  }

  function AfterChecking(g: Gate, entry: Entry, now: Time, moment: nat): Pc
    requires entry.Retry?
  {
    if PastExpiry(g, now) then Decide(Expired, entry, moment)
    else if entry.action == DeclineIt then ReadGate(Decline)
    else Decide(Accepted, entry, moment)
  }

  function AfterRetryCheck(w: World, t: ThreadId, entry: Entry, g: Gate): World
    requires t in w.threads && w.past != [] && entry.Retry?
  {
    if !RetryAllowed(Surroundings(w), g.held, entry.request) || g.status != Pending then Ended(w, t)
    else At(WithCheck(w, t), t, AfterChecking(g, entry, Now(w), Last(w)))
  }

  function AfterDecide(w: World, t: ThreadId, to: Status, entry: Entry, found: nat): World
    requires t in w.threads && w.past != []
  {
    var id := w.threads[t].id;
    var d := Decided(w.gates, id, to, Now(w));
    if !d.1.Done? then Ended(w, t)
    else
      var w := w.(gates := d.0, log := w.log.(decided := w.log.decided[id := Decision(Last(w), to, t, found)]));
      if to != Accepted then Ended(w, t)
      else
        At(w.(log := w.log.(accepted := w.log.accepted[id := Acceptance(Last(w), entry, found)])), t, Claim)
  }

  function AfterClaim(w: World, t: ThreadId): World
    requires t in w.threads && w.past != []
  {
    var id := w.threads[t].id;
    var d := Executed(w.gates, id, Accepted, Executing, None);
    if !d.1.Done? then Ended(w, t)
    else
      At(w.(gates := d.0, log := w.log.(claimant := w.log.claimant[id := t])), t,
         Check(d.1.gate.held, [Last(w)], None))
  }

  // The reading number k of an execution: is what it finds in order?
  predicate InOrder(env: Env, claimed: Time, h: Held, cap: Option<Capability>, k: nat) {
    if k == 1 then h.caller.agent in env.agents && env.agents[h.caller.agent].active
    else if k == 2 then (h.caller.user, h.caller.agent) in env.callers
    else if k == 3 then
      h.exposedName in env.capabilities
      && var c := env.capabilities[h.exposedName];
         c.server == h.server && (h.endpoint != "" ==> c.server == h.endpoint) && c.isTool && c.active
    else if k == 4 then
      cap.Some? && Grants.IsAllowed(claimed, env.grants, h.caller.user, cap.value.id, Grants.TOOL_GRANT)
    else k == 5 && h.server in env.servers && env.servers[h.server]
  }

  const FAILED := Finish(Failed, None)

  // What follows a reading of an execution, or the last look at the call before it is sent.
  function AfterLooking(
      m: Moment, moment: nat, claimed: Time, h: Held, marks: seq<nat>, cap: Option<Capability>, ready: bool): Pc
    requires 1 <= |marks| <= 6
  {
    if |marks| <= 5 then
      if !InOrder(m.env, claimed, h, cap, |marks|) then FAILED
      else Check(h, marks + [moment], if |marks| == 3 then Some(m.env.capabilities[h.exposedName]) else cap)
    else if cap.None? || h.schemaHash != cap.value.schemaHash || Restore(h).None? || !ready then FAILED
    else Send(h, marks, cap.value, Prepared(cap.value, Restore(h).value))
  }

  function AfterCheck(w: World, t: ThreadId, h: Held, marks: seq<nat>, cap: Option<Capability>, ready: bool): World
    requires t in w.threads && w.past != [] && 1 <= |marks| <= 6 && marks[0] < |w.past|
  {
    At(w, t, AfterLooking(w.past[Last(w)], Last(w), w.past[marks[0]].now, h, marks, cap, ready))
  }

  function AfterSend(w: World, t: ThreadId, h: Held, marks: seq<nat>, tool: Capability, args: Arguments): World
    requires t in w.threads
  {
    var id, n := w.threads[t].id, |w.calls|;
    At(w.(calls := w.calls + [Call(id, tool, args, marks, None)], log := w.log.(sent := w.log.sent[id := n])), t,
       Await(h, n))
  }

  // How a gate ends after its call: an error that a knowledge search answers with fails
  // the gate only when its audit record is lost.
  function Ending(h: Held, tool: Capability, o: Outcome, auditSaved: bool): Pc {
    match o
    case Failure => FAILED
    case Returned(response, isError) =>
      if IsKnowledge(tool.server, tool.upstreamName) && isError && !auditSaved then FAILED
      else Finish(Completed, Some(KeptAnswer(h, response, isError)))
  }

  function AfterAwait(w: World, t: ThreadId, h: Held, n: nat, o: Outcome, auditSaved: bool): World
    requires t in w.threads && n < |w.calls|
  {
    At(w.(calls := w.calls[n := w.calls[n].(outcome := Some(o))]), t, Ending(h, w.calls[n].tool, o, auditSaved))
  }

  function AfterFinish(w: World, t: ThreadId, to: Status, answer: Option<Answer>): World
    requires t in w.threads
  {
    Ended(w.(gates := Executed(w.gates, w.threads[t].id, Executing, to, answer).0), t)
  }

  // A failing store ends a request, or fails the gate that it executes.
  ghost function AfterStep(w: World, t: ThreadId, c: Chance): World
    requires t in w.threads && w.past != [] && ThreadShape(w, w.threads[t].pc)
  {
    var id := w.threads[t].id;
    match w.threads[t].pc
    case Send(h, marks, tool, args) => AfterSend(w, t, h, marks, tool, args)
    case Await(h, n) => AfterAwait(w, t, h, n, c.outcome, c.auditSaved)
    case ReadGate(entry) =>
      if c.fails || id !in w.gates then Ended(w, t) else AfterRead(w, t, entry, w.gates[id])
    case CheckRetry(g, entry) => if c.fails then Ended(w, t) else AfterRetryCheck(w, t, entry, g)
    case Decide(to, entry, found) => if c.fails then Ended(w, t) else AfterDecide(w, t, to, entry, found)
    case Claim => if c.fails then Ended(w, t) else AfterClaim(w, t)
    case Check(h, marks, cap) => if c.fails then At(w, t, FAILED) else AfterCheck(w, t, h, marks, cap, c.ready)
    case Finish(to, answer) => if c.fails then Ended(w, t) else AfterFinish(w, t, to, answer)
  }

  ghost function After(w: World, e: Event): World
    requires Possible(w, e)
  {
    match e
    case Passing(env, now) => w.(past := w.past + [Moment(env, now)])
    case Create(id, byUser, cap, request, nonce) => AfterCreate(w, id, byUser, cap, request, nonce)
    case Enter(t, id, entry) =>
      w.(threads := w.threads[t := Thread(id, Entering(entry, Last(w)))],
         log := w.log.(entered := w.log.entered[t := (id, entry)]))
    case Step(t, chance) => AfterStep(w, t, chance)
    case Crash(t) => Ended(w, t)
  }

  ghost predicate IsRun(w: World, events: seq<Event>)
    decreases |events|
  {
    events == [] || (Possible(w, events[0]) && IsRun(After(w, events[0]), events[1..]))
  }

  ghost function Final(w: World, events: seq<Event>): World
    requires IsRun(w, events)
    decreases |events|
  {
    if events == [] then w else Final(After(w, events[0]), events[1..])
  }
}
