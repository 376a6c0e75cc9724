/** The tables around user accounts, their keys and references, and the governance
    transactions that move an agent, or everything, from one account to another. */
module AccountTables {
  import opened Common

  type User = string
  type AgentId = string

  // A row that belongs to a user: what it is for, and on which terms.
  datatype Row<W, T> = Row(user: User, what: W, terms: T)

  type Table<W, T> = map<string, Row<W, T>>

  datatype Use = Use(capability: string, kind: string)

  datatype Terms = Terms(scope: Option<string>, expiresAt: Option<Time>)

  datatype Resource = Resource(kind: string, id: string, action: string)

  datatype IdentityKey = IdentityKey(provider: string, realm: string, subject: string)

  datatype AccountStatus = Active | Disabled

  datatype Session = Session(user: User, agent: Option<AgentId>)

  datatype CollectorToken = CollectorToken(user: Option<User>, agent: AgentId)

  datatype GateRow = GateRow(agent: AgentId, open: bool)

  // Rows that refer to a user and do not go with the account: what workflows, approvals by an
  // outside service, and requests for approval have recorded.
  datatype RecordKind =
    | TemplateCreator | TemplateEditor | WorkflowStarter | WorkflowParticipant | TaskAssignee
    | ApprovalInitiator | RequestApprover

  datatype Record = Record(kind: RecordKind, user: User)

  datatype Db = Db(
    accounts: map<User, AccountStatus>,
    sessions: map<string, Session>,
    logins: map<string, Option<User>>,
    codes: map<string, User>,
    grants: Table<Use, Terms>,
    actors: map<AgentId, User>,
    owners: map<AgentId, User>,
    roles: set<(User, string)>,
    dataGrants: Table<Resource, ()>,
    identities: map<IdentityKey, User>,
    collectors: map<string, CollectorToken>,
    registrations: map<string, Option<User>>,
    tokens: map<string, User>,
    // The gates of agents, and whether they are pending or executing.
    gates: map<string, GateRow>,
    records: map<string, Record>,
    // Who is set to approve in which space; such rows go with the account.
    approvers: set<(User, string)>)

  // ---- Keys and references ----

  predicate OnePerUse<W(==), T>(t: Table<W, T>) {
    forall i, j :: i in t && j in t && t[i].user == t[j].user && t[i].what == t[j].what ==> i == j
  }

  predicate UsersKnown<W, T>(t: Table<W, T>, accounts: map<User, AccountStatus>) {
    forall i :: i in t ==> t[i].user in accounts
  }

  predicate SameProvider(k: IdentityKey, l: IdentityKey) {
    k.provider == l.provider && k.realm == l.realm
  }

  predicate IdentitiesOk(identities: map<IdentityKey, User>, accounts: map<User, AccountStatus>) {
    && (forall k :: k in identities ==> identities[k] in accounts)
    && forall k, l :: k in identities && l in identities && SameProvider(k, l) && identities[k] == identities[l]
        ==> k == l
  }

  predicate AgentsOk(owners: map<AgentId, User>, actors: map<AgentId, User>, accounts: map<User, AccountStatus>) {
    forall a :: a in owners ==> owners[a] in accounts && a in actors
  }

  predicate SessionsOk(sessions: map<string, Session>, owners: map<AgentId, User>, accounts: map<User, AccountStatus>) {
    forall s :: s in sessions ==>
      && sessions[s].user in accounts
      && (sessions[s].agent.Some?
          ==> sessions[s].agent.value in owners && owners[sessions[s].agent.value] == sessions[s].user)
  }

  predicate RolesOk(roles: set<(User, string)>, accounts: map<User, AccountStatus>) {
    forall r :: r in roles ==> r.0 in accounts
  }

  predicate CollectorsOk(collectors: map<string, CollectorToken>, accounts: map<User, AccountStatus>) {
    forall i :: i in collectors && collectors[i].user.Some? ==> collectors[i].user.value in accounts
  }

  predicate OptionalUsers(t: map<string, Option<User>>, accounts: map<User, AccountStatus>) {
    forall i :: i in t && t[i].Some? ==> t[i].value in accounts
  }

  predicate RecordsOk(records: map<string, Record>, accounts: map<User, AccountStatus>) {
    forall i :: i in records ==> records[i].user in accounts
  }

  predicate PlainUsers(t: map<string, User>, accounts: map<User, AccountStatus>) {
    forall i :: i in t ==> t[i] in accounts
  }

  predicate Valid(db: Db) {
    && OnePerUse(db.grants) && UsersKnown(db.grants, db.accounts)
    && OnePerUse(db.dataGrants) && UsersKnown(db.dataGrants, db.accounts)
    && IdentitiesOk(db.identities, db.accounts)
    && AgentsOk(db.owners, db.actors, db.accounts) && SessionsOk(db.sessions, db.owners, db.accounts)
    && RolesOk(db.roles, db.accounts)
    && OptionalUsers(db.logins, db.accounts) && PlainUsers(db.codes, db.accounts)
    && OptionalUsers(db.registrations, db.accounts) && CollectorsOk(db.collectors, db.accounts)
    && PlainUsers(db.tokens, db.accounts)
    && RecordsOk(db.records, db.accounts) && RolesOk(db.approvers, db.accounts)
  }

  // ---- The statements ----

  datatype Statement =
    | EndSessions | DropLogins | DropCodes
    | DropDuplicateGrants | MoveGrants
    | SetActors | MoveAgents | CopyRoles
    | DropDuplicateDataGrants | MoveDataGrants
    | MoveIdentities | MoveCollectors | MoveRegistrations
    | DeleteAccount

  const MERGE := [EndSessions, DropLogins, DropCodes, DropDuplicateGrants, MoveGrants, SetActors, MoveAgents, CopyRoles,
                  DropDuplicateDataGrants, MoveDataGrants, MoveIdentities, MoveCollectors, MoveRegistrations,
                  DeleteAccount]

  // Rows of the source that the target has a row of its own for.
  function Deduplicated<W(==), T>(t: Table<W, T>, source: User, target: User): Table<W, T> {
    map i | i in t
        && !(t[i].user == source && exists j :: j in t && t[j].user == target && t[j].what == t[i].what) :: t[i]
  }

  function Reassigned<W, T>(t: Table<W, T>, source: User, target: User): Table<W, T> {
    map i | i in t :: if t[i].user == source then t[i].(user := target) else t[i]
  }

  function Renamed<K>(t: map<K, User>, source: User, target: User): map<K, User> {
    map k | k in t :: if t[k] == source then target else t[k]
  }

  function RenamedSome(t: map<string, Option<User>>, source: User, target: User): map<string, Option<User>> {
    map k | k in t :: if t[k] == Some(source) then Some(target) else t[k]
  }

  function RowsWithout<W, T>(t: Table<W, T>, user: User): Table<W, T> {
    map i | i in t && t[i].user != user :: t[i]
  }

  function WithoutUser<K>(t: map<K, User>, user: User): map<K, User> {
    map k | k in t && t[k] != user :: t[k]
  }

  // Deleting an account deletes the rows that refer to it, where they are declared to go
  // with it.
  function Cascaded(db: Db, user: User): Db {
    db.(accounts := db.accounts - {user},
        sessions := (map s | s in db.sessions && db.sessions[s].user != user :: db.sessions[s]),
        logins := (map s | s in db.logins && db.logins[s] != Some(user) :: db.logins[s]),
        codes := WithoutUser(db.codes, user), grants := RowsWithout(db.grants, user),
        owners := WithoutUser(db.owners, user),
        roles := (set r | r in db.roles && r.0 != user), dataGrants := RowsWithout(db.dataGrants, user),
        identities := WithoutUser(db.identities, user), tokens := WithoutUser(db.tokens, user),
        approvers := (set r | r in db.approvers && r.0 != user))
  }

  function Effect(db: Db, st: Statement, source: User, target: User, agents: set<AgentId>): Db {
    match st
    case EndSessions => db.(sessions := map s | s in db.sessions && db.sessions[s].user != source :: db.sessions[s])
    case DropLogins => db.(logins := map s | s in db.logins && db.logins[s] != Some(source) :: db.logins[s])
    case DropCodes => db.(codes := WithoutUser(db.codes, source))
    case DropDuplicateGrants => db.(grants := Deduplicated(db.grants, source, target))
    case MoveGrants => db.(grants := Reassigned(db.grants, source, target))
    case SetActors => db.(actors := map a | a in db.actors :: if a in agents then target else db.actors[a])
    case MoveAgents => db.(owners := Renamed(db.owners, source, target))
    case CopyRoles => db.(roles := db.roles + set r | r in db.roles && r.0 == source :: (target, r.1))
    case DropDuplicateDataGrants => db.(dataGrants := Deduplicated(db.dataGrants, source, target))
    case MoveDataGrants => db.(dataGrants := Reassigned(db.dataGrants, source, target))
    case MoveIdentities => db.(identities := Renamed(db.identities, source, target))
    case MoveCollectors =>
      db.(collectors := map k | k in db.collectors ::
        if db.collectors[k].user == Some(source) then db.collectors[k].(user := Some(target)) else db.collectors[k])
    case MoveRegistrations => db.(registrations := RenamedSome(db.registrations, source, target))
    case DeleteAccount => Cascaded(db, source)
  }

  // A statement that breaks a key or a reference fails.
  function Apply(db: Db, st: Statement, source: User, target: User, agents: set<AgentId>): Option<Db> {
    var db' := Effect(db, st, source, target, agents);
    if Valid(db') then Some(db') else None
  }

  function ApplyAll(db: Db, sts: seq<Statement>, source: User, target: User, agents: set<AgentId>): Option<Db> {
    if sts == [] then Some(db)
    else
      match ApplyAll(db, sts[..|sts| - 1], source, target, agents)
      case None => None
      case Some(db') => Apply(db', sts[|sts| - 1], source, target, agents)
  }

  // ---- Merging accounts ----

  datatype GovernanceError =
    | AccountNotFound | SourceNotDisabled | TargetNotActive | IdentityConflict | PendingGate | GrantConflict
    | AgentNotFound | OwnerConflict | OwnerInconsistent | ConstraintViolated

  function AgentsOf(db: Db, user: User): set<AgentId> {
    set a | a in db.owners && db.owners[a] == user && a in db.actors
  }

  predicate SharedProvider(identities: map<IdentityKey, User>, source: User, target: User) {
    exists k, l :: k in identities && l in identities && identities[k] == source && identities[l] == target
        && SameProvider(k, l)
  }

  predicate OpenGate(gates: map<string, GateRow>, agents: set<AgentId>) {
    exists g :: g in gates && gates[g].agent in agents && gates[g].open
  }

  // Two rows for one use on different terms.
  predicate Conflicting<W(==), T(==)>(t: Table<W, T>, source: User, target: User) {
    exists i, j :: i in t && j in t && t[i].user == source && t[j].user == target && t[i].what == t[j].what
      && t[i].terms != t[j].terms
  }

  function MergeRefusal(db: Db, source: User, target: User): Option<GovernanceError> {
    if source == target || source !in db.accounts || target !in db.accounts then Some(AccountNotFound)
    else if db.accounts[source] != Disabled then Some(SourceNotDisabled)
    else if db.accounts[target] != Active then Some(TargetNotActive)
    else if SharedProvider(db.identities, source, target) then Some(IdentityConflict)
    else if OpenGate(db.gates, AgentsOf(db, source)) then Some(PendingGate)
    else if Conflicting(db.grants, source, target) then Some(GrantConflict)
    else None
  }

  function Merged(db: Db, source: User, target: User): Result<Db, GovernanceError> {
    match MergeRefusal(db, source, target)
    case Some(e) => Err(e)
    case None =>
      match ApplyAll(db, MERGE, source, target, AgentsOf(db, source))
      case None => Err(ConstraintViolated)
      case Some(db') => Ok(db')
  }

  function OfAgentTo(collectors: map<string, CollectorToken>, agent: AgentId, user: User): map<string, CollectorToken> {
    map k | k in collectors ::
        if collectors[k].agent == agent then collectors[k].(user := Some(user)) else collectors[k]
  }

  function TransferRefusal(db: Db, agent: AgentId, source: User, target: User): Option<GovernanceError> {
    if source == target || source !in db.accounts || target !in db.accounts then Some(AccountNotFound)
    else if db.accounts[target] != Active then Some(TargetNotActive)
    else if agent !in db.owners || agent !in db.actors then Some(AgentNotFound)
    else if db.owners[agent] != source then Some(OwnerConflict)
    else if db.actors[agent] != source then Some(OwnerInconsistent)
    else if OpenGate(db.gates, {agent}) then Some(PendingGate)
    else None
  }

  // ---- What the calls promise, over the rows of the tables ----

  ghost predicate AreAccounts(db: Db, source: User, target: User) {
    source != target && source in db.accounts && target in db.accounts
  }

  // Both accounts sign in with one provider.
  ghost predicate ShareProvider(db: Db, source: User, target: User) {
    exists k, l :: k in db.identities && l in db.identities && db.identities[k] == source && db.identities[l] == target
      && k.provider == l.provider && k.realm == l.realm
  }

  // An agent of the account is in the middle of a confirmation.
  ghost predicate IsBusy(db: Db, user: User) {
    exists g :: g in db.gates && db.gates[g].open && db.gates[g].agent in db.owners && db.gates[g].agent in db.actors
      && db.owners[db.gates[g].agent] == user
  }

  // Both have a grant for one use, on different terms.
  ghost predicate HaveConflict(db: Db, source: User, target: User) {
    exists i, j :: i in db.grants && j in db.grants && db.grants[i].user == source && db.grants[j].user == target
      && db.grants[i].what == db.grants[j].what && db.grants[i].terms != db.grants[j].terms
  }

  ghost predicate MayMerge(db: Db, source: User, target: User) {
    AreAccounts(db, source, target) && db.accounts[source] == Disabled && db.accounts[target] == Active
  }

  ghost predicate MayTransfer(db: Db, agent: AgentId, source: User, target: User) {
    && AreAccounts(db, source, target) && db.accounts[target] == Active && agent in db.owners && agent in db.actors
    && db.owners[agent] == source
  }

  // The reason for a refusal is the first that applies.
  lemma MergeRefusedFor(db: Db, source: User, target: User)
    ensures match MergeRefusal(db, source, target)
      case Some(AccountNotFound) => !AreAccounts(db, source, target)
      case Some(SourceNotDisabled) => AreAccounts(db, source, target) && db.accounts[source] != Disabled
      case Some(TargetNotActive) =>
        AreAccounts(db, source, target) && db.accounts[source] == Disabled && db.accounts[target] != Active
      case Some(IdentityConflict) => MayMerge(db, source, target) && ShareProvider(db, source, target)
      case Some(PendingGate) =>
        MayMerge(db, source, target) && !ShareProvider(db, source, target) && IsBusy(db, source)
      case Some(GrantConflict) =>
        && MayMerge(db, source, target) && !ShareProvider(db, source, target) && !IsBusy(db, source)
        && HaveConflict(db, source, target)
      case None =>
        && MayMerge(db, source, target) && !ShareProvider(db, source, target) && !IsBusy(db, source)
        && !HaveConflict(db, source, target)
      case _ => false
  {
    assert SharedProvider(db.identities, source, target) <==> ShareProvider(db, source, target);
    assert OpenGate(db.gates, AgentsOf(db, source)) <==> IsBusy(db, source);
    assert Conflicting(db.grants, source, target) <==> HaveConflict(db, source, target);
  }

  lemma TransferRefusedFor(db: Db, agent: AgentId, source: User, target: User)
    ensures match TransferRefusal(db, agent, source, target)
      case Some(AccountNotFound) => !AreAccounts(db, source, target)
      case Some(TargetNotActive) => AreAccounts(db, source, target) && db.accounts[target] != Active
      case Some(AgentNotFound) =>
        && AreAccounts(db, source, target) && db.accounts[target] == Active
        && (agent !in db.owners || agent !in db.actors)
      case Some(OwnerConflict) =>
        && AreAccounts(db, source, target) && db.accounts[target] == Active
        && agent in db.owners && agent in db.actors && db.owners[agent] != source
      case Some(OwnerInconsistent) => MayTransfer(db, agent, source, target) && db.actors[agent] != source
      case Some(PendingGate) =>
        && MayTransfer(db, agent, source, target) && db.actors[agent] == source
        && exists g :: g in db.gates && db.gates[g].agent == agent && db.gates[g].open
      case None =>
        && MayTransfer(db, agent, source, target) && db.actors[agent] == source
        && forall g :: g in db.gates && db.gates[g].agent == agent ==> !db.gates[g].open
      case _ => false
  {}

  class GovernanceStore {
    var db: Db

    constructor (initial: Db)
      ensures db == initial
    {
      db := initial;
    }

    // All statements run in one transaction: the first that fails undoes the others.
    method MergeAccounts(source: User, target: User) returns (r: Result<(), GovernanceError>)
      modifies this
      ensures match r
        case Err(AccountNotFound) => !AreAccounts(old(db), source, target)
        case Err(SourceNotDisabled) => AreAccounts(old(db), source, target) && old(db).accounts[source] != Disabled
        case Err(TargetNotActive) =>
          && AreAccounts(old(db), source, target) && old(db).accounts[source] == Disabled
          && old(db).accounts[target] != Active
        case Err(IdentityConflict) => MayMerge(old(db), source, target) && ShareProvider(old(db), source, target)
        case Err(PendingGate) =>
          MayMerge(old(db), source, target) && !ShareProvider(old(db), source, target) && IsBusy(old(db), source)
        case Err(GrantConflict) =>
          && MayMerge(old(db), source, target) && !ShareProvider(old(db), source, target) && !IsBusy(old(db), source)
          && HaveConflict(old(db), source, target)
        case _ =>
          && MayMerge(old(db), source, target) && !ShareProvider(old(db), source, target) && !IsBusy(old(db), source)
          && !HaveConflict(old(db), source, target) && (r.Err? ==> r.error == ConstraintViolated)
      ensures r.Err? ==> db == old(db)
      ensures match Merged(old(db), source, target)
        case Err(e) => r == Err(e) && db == old(db)
        case Ok(db') => r == Ok(()) && db == db'
    {
      MergeRefusedFor(db, source, target);
      var refusal := MergeRefusal(db, source, target);
      if refusal.Some? {
        return Err(refusal.value);
      }
      var agents, work := AgentsOf(db, source), db;
      for i := 0 to |MERGE|
        invariant db == old(db)
        invariant ApplyAll(db, MERGE[..i], source, target, agents) == Some(work)
      {
        var next := Apply(work, MERGE[i], source, target, agents);
        OneMore(db, i, source, target, agents);
        if next.None? {
          StuckStays(db, i + 1, source, target, agents);
          return Err(ConstraintViolated);
        }
        work := next.value;
      }
      assert MERGE[..|MERGE|] == MERGE;
      db := work;
      r := Ok(());
    }

    method TransferAgent(agent: AgentId, source: User, target: User) returns (r: Result<(), GovernanceError>)
      requires Valid(db)
      modifies this
      ensures match r
        case Err(AccountNotFound) => !AreAccounts(old(db), source, target)
        case Err(TargetNotActive) => AreAccounts(old(db), source, target) && old(db).accounts[target] != Active
        case Err(AgentNotFound) =>
          && AreAccounts(old(db), source, target) && old(db).accounts[target] == Active
          && (agent !in old(db).owners || agent !in old(db).actors)
        case Err(OwnerConflict) =>
          && AreAccounts(old(db), source, target) && old(db).accounts[target] == Active
          && agent in old(db).owners && agent in old(db).actors && old(db).owners[agent] != source
        case Err(OwnerInconsistent) =>
          MayTransfer(old(db), agent, source, target) && old(db).actors[agent] != source
        case Err(PendingGate) =>
          && MayTransfer(old(db), agent, source, target) && old(db).actors[agent] == source
          && exists g :: g in old(db).gates && old(db).gates[g].agent == agent && old(db).gates[g].open
        case Ok(_) =>
          && MayTransfer(old(db), agent, source, target) && old(db).actors[agent] == source
          && forall g :: g in old(db).gates && old(db).gates[g].agent == agent ==> !old(db).gates[g].open
        case _ => false
      ensures r.Err? ==> db == old(db)
      ensures r.Ok? ==>
          && Valid(db)
          && db.owners == old(db).owners[agent := target] && db.actors == old(db).actors[agent := target]
          && db.sessions == (map s | s in old(db).sessions
              && old(db).sessions[s] != Session(source, Some(agent)) :: old(db).sessions[s])
          && db.collectors.Keys == old(db).collectors.Keys
          && (forall k :: k in db.collectors ==>
                if old(db).collectors[k].agent == agent then db.collectors[k] == CollectorToken(Some(target), agent)
                else db.collectors[k] == old(db).collectors[k])
          && db == old(db).(owners := db.owners, actors := db.actors, sessions := db.sessions,
              collectors := db.collectors)
    {
      TransferRefusedFor(db, agent, source, target);
      var refusal := TransferRefusal(db, agent, source, target);
      if refusal.Some? {
        return Err(refusal.value);
      }
      db := db.(sessions := map s | s in db.sessions
          && db.sessions[s] != Session(source, Some(agent)) :: db.sessions[s]);
      db := db.(owners := db.owners[agent := target]);
      db := db.(collectors := OfAgentTo(db.collectors, agent, target));
      db := db.(actors := db.actors[agent := target]);
      r := Ok(());
    }
  }

  lemma OneMore(db: Db, i: nat, source: User, target: User, agents: set<AgentId>)
    requires i < |MERGE|
    ensures ApplyAll(db, MERGE[..i + 1], source, target, agents) ==
      match ApplyAll(db, MERGE[..i], source, target, agents)
      case None => None
      case Some(work) => Apply(work, MERGE[i], source, target, agents)
  {
    assert MERGE[..i + 1][..i] == MERGE[..i];
  }

  lemma {:induction false} StuckStays(db: Db, i: nat, source: User, target: User, agents: set<AgentId>)
    requires i <= |MERGE| && ApplyAll(db, MERGE[..i], source, target, agents).None?
    ensures ApplyAll(db, MERGE, source, target, agents).None?
    decreases |MERGE| - i
  {
    if i == |MERGE| {
      assert MERGE[..i] == MERGE;
    } else {
      assert MERGE[..i + 1][..i] == MERGE[..i];
      StuckStays(db, i + 1, source, target, agents);
    }
  }
}
