/** What merging two accounts preserves. */
module AccountMerge {
  import opened Common
  import Grants
  import opened AccountTables

  // ---- One table of rows ----

  ghost predicate HasRow<W, T>(t: Table<W, T>, user: User, what: W, terms: T) {
    exists i :: i in t && t[i] == Row(user, what, terms)
  }

  lemma UniqueAfterMerge<W, T>(t: Table<W, T>, source: User, target: User)
    requires OnePerUse(t) && source != target
    ensures OnePerUse(Deduplicated(t, source, target))
    ensures OnePerUse(Reassigned(Deduplicated(t, source, target), source, target))
  {}

  // The target's rows after a merge, for one use: on the source's or the target's terms.
  lemma RowsUnited<W, T>(t: Table<W, T>, source: User, target: User, what: W, terms: T)
    requires source != target && !Conflicting(t, source, target)
    ensures HasRow(Reassigned(Deduplicated(t, source, target), source, target), target, what, terms)
      <==> HasRow(t, source, what, terms) || HasRow(t, target, what, terms)
  {
    var d := Deduplicated(t, source, target);
    var m := Reassigned(d, source, target);
    if HasRow(m, target, what, terms) {
      var i :| i in m && m[i] == Row(target, what, terms);
      assert t[i] == Row(source, what, terms) || t[i] == Row(target, what, terms);
    }
    if HasRow(t, target, what, terms) {
      var j :| j in t && t[j] == Row(target, what, terms);
      assert j in m && m[j] == t[j];
    } else if HasRow(t, source, what, terms) {
      var i :| i in t && t[i] == Row(source, what, terms);
      assert i in d && m[i] == Row(target, what, terms);
    }
  }

  lemma OthersKept<W, T>(t: Table<W, T>, source: User, target: User, user: User, what: W, terms: T)
    requires user != source && user != target
    ensures HasRow(Reassigned(Deduplicated(t, source, target), source, target), user, what, terms)
        <==> HasRow(t, user, what, terms)
  {
    var m := Reassigned(Deduplicated(t, source, target), source, target);
    if HasRow(m, user, what, terms) {
      var i :| i in m && m[i] == Row(user, what, terms);
      assert t[i] == m[i];
    }
    if HasRow(t, user, what, terms) {
      var i :| i in t && t[i] == Row(user, what, terms);
      assert m[i] == t[i];
    }
  }

  // ---- The statements one by one ----

  // Each table after the first n statements of a merge.
  ghost function GrantsAt<W, T>(t: Table<W, T>, n: nat, dropped: nat, source: User, target: User): Table<W, T> {
    if n > dropped then Reassigned(Deduplicated(t, source, target), source, target)
    else if n == dropped then Deduplicated(t, source, target) else t
  }

  ghost function SessionsAt(db: Db, n: nat, source: User): map<string, Session> {
    if n >= 1 then map s | s in db.sessions && db.sessions[s].user != source :: db.sessions[s] else db.sessions
  }

  ghost function LoginsAt(db: Db, n: nat, source: User): map<string, Option<User>> {
    if n >= 2 then map s | s in db.logins && db.logins[s] != Some(source) :: db.logins[s] else db.logins
  }

  ghost function ActorsAt(db: Db, n: nat, target: User, agents: set<AgentId>): map<AgentId, User> {
    if n >= 6 then map a | a in db.actors :: if a in agents then target else db.actors[a] else db.actors
  }

  ghost function OwnersAt(db: Db, n: nat, source: User, target: User): map<AgentId, User> {
    if n >= 7 then Renamed(db.owners, source, target) else db.owners
  }

  ghost function RolesAt(db: Db, n: nat, source: User, target: User): set<(User, string)> {
    if n >= 8 then db.roles + set r | r in db.roles && r.0 == source :: (target, r.1) else db.roles
  }

  ghost function IdentitiesAt(db: Db, n: nat, source: User, target: User): map<IdentityKey, User> {
    if n >= 11 then Renamed(db.identities, source, target) else db.identities
  }

  ghost function CollectorsAt(db: Db, n: nat, source: User, target: User): map<string, CollectorToken> {
    if n >= 12 then Effect(db, MoveCollectors, source, target, {}).collectors else db.collectors
  }

  ghost function RegistrationsAt(db: Db, n: nat, source: User, target: User): map<string, Option<User>> {
    if n >= 13 then RenamedSome(db.registrations, source, target) else db.registrations
  }

  ghost function Stage(db: Db, n: nat, source: User, target: User, agents: set<AgentId>): Db {
    Db(db.accounts, SessionsAt(db, n, source), LoginsAt(db, n, source),
       if n >= 3 then WithoutUser(db.codes, source) else db.codes,
       GrantsAt(db.grants, n, 4, source, target), ActorsAt(db, n, target, agents), OwnersAt(db, n, source, target),
       RolesAt(db, n, source, target), GrantsAt(db.dataGrants, n, 9, source, target),
       IdentitiesAt(db, n, source, target),
       CollectorsAt(db, n, source, target), RegistrationsAt(db, n, source, target), db.tokens, db.gates,
       db.records, db.approvers)
  }

  // Statement by statement.
  lemma FirstStages(db: Db, source: User, target: User, agents: set<AgentId>)
    ensures Effect(Stage(db, 0, source, target, agents), MERGE[0], source, target, agents)
        == Stage(db, 1, source, target, agents)
    ensures Effect(Stage(db, 1, source, target, agents), MERGE[1], source, target, agents)
        == Stage(db, 2, source, target, agents)
    ensures Effect(Stage(db, 2, source, target, agents), MERGE[2], source, target, agents)
        == Stage(db, 3, source, target, agents)
  {}

  lemma GrantStages(db: Db, source: User, target: User, agents: set<AgentId>)
    ensures Effect(Stage(db, 3, source, target, agents), MERGE[3], source, target, agents)
        == Stage(db, 4, source, target, agents)
    ensures Effect(Stage(db, 4, source, target, agents), MERGE[4], source, target, agents)
        == Stage(db, 5, source, target, agents)
  {}

  lemma AgentStages(db: Db, source: User, target: User, agents: set<AgentId>)
    ensures Effect(Stage(db, 5, source, target, agents), MERGE[5], source, target, agents)
        == Stage(db, 6, source, target, agents)
    ensures Effect(Stage(db, 6, source, target, agents), MERGE[6], source, target, agents)
        == Stage(db, 7, source, target, agents)
    ensures Effect(Stage(db, 7, source, target, agents), MERGE[7], source, target, agents)
        == Stage(db, 8, source, target, agents)
  {}

  lemma DataStages(db: Db, source: User, target: User, agents: set<AgentId>)
    ensures Effect(Stage(db, 8, source, target, agents), MERGE[8], source, target, agents)
        == Stage(db, 9, source, target, agents)
    ensures Effect(Stage(db, 9, source, target, agents), MERGE[9], source, target, agents)
        == Stage(db, 10, source, target, agents)
  {}

  lemma LastStages(db: Db, source: User, target: User, agents: set<AgentId>)
    ensures Effect(Stage(db, 10, source, target, agents), MERGE[10], source, target, agents)
        == Stage(db, 11, source, target, agents)
    ensures Effect(Stage(db, 11, source, target, agents), MERGE[11], source, target, agents)
        == Stage(db, 12, source, target, agents)
    ensures Effect(Stage(db, 12, source, target, agents), MERGE[12], source, target, agents)
        == Stage(db, 13, source, target, agents)
  {}

  lemma StageStep(db: Db, n: nat, source: User, target: User, agents: set<AgentId>)
    requires n < 13
    ensures Effect(Stage(db, n, source, target, agents), MERGE[n], source, target, agents)
        == Stage(db, n + 1, source, target, agents)
  {
    if n < 5 {
      EarlyStage(db, n, source, target, agents);
    } else if n < 10 {
      LaterStage(db, n, source, target, agents);
    } else {
      LastStages(db, source, target, agents);
    }
  }

  lemma EarlyStage(db: Db, n: nat, source: User, target: User, agents: set<AgentId>)
    requires n < 5
    ensures Effect(Stage(db, n, source, target, agents), MERGE[n], source, target, agents)
        == Stage(db, n + 1, source, target, agents)
  {
    if n < 3 {
      FirstStages(db, source, target, agents);
    } else {
      GrantStages(db, source, target, agents);
    }
  }

  lemma LaterStage(db: Db, n: nat, source: User, target: User, agents: set<AgentId>)
    requires 5 <= n < 10
    ensures Effect(Stage(db, n, source, target, agents), MERGE[n], source, target, agents)
        == Stage(db, n + 1, source, target, agents)
  {
    if n < 8 {
      AgentStages(db, source, target, agents);
    } else {
      DataStages(db, source, target, agents);
    }
  }

  // At each stage every key and reference holds.
  lemma TableOk<W, T>(
      t: Table<W, T>, accounts: map<User, AccountStatus>, n: nat, dropped: nat, source: User, target: User)
    requires OnePerUse(t) && UsersKnown(t, accounts) && source != target && target in accounts
    ensures OnePerUse(GrantsAt(t, n, dropped, source, target))
        && UsersKnown(GrantsAt(t, n, dropped, source, target), accounts)
  {
    UniqueAfterMerge(t, source, target);
  }

  lemma IdentitiesStay(db: Db, n: nat, source: User, target: User)
    requires IdentitiesOk(db.identities, db.accounts) && target in db.accounts
        && !SharedProvider(db.identities, source, target)
    ensures IdentitiesOk(IdentitiesAt(db, n, source, target), db.accounts)
  {}

  lemma AgentsStay(db: Db, n: nat, source: User, target: User, agents: set<AgentId>)
    requires AgentsOk(db.owners, db.actors, db.accounts) && SessionsOk(db.sessions, db.owners, db.accounts)
        && target in db.accounts
    ensures AgentsOk(OwnersAt(db, n, source, target), ActorsAt(db, n, target, agents), db.accounts)
    ensures SessionsOk(SessionsAt(db, n, source), OwnersAt(db, n, source, target), db.accounts)
  {}

  lemma UsersStay(db: Db, n: nat, source: User, target: User)
    requires Valid(db) && target in db.accounts
    ensures RolesOk(RolesAt(db, n, source, target), db.accounts) && OptionalUsers(LoginsAt(db, n, source), db.accounts)
    ensures PlainUsers(WithoutUser(db.codes, source), db.accounts)
    ensures CollectorsOk(CollectorsAt(db, n, source, target), db.accounts)
    ensures OptionalUsers(RegistrationsAt(db, n, source, target), db.accounts)
  {}

  lemma StageOk(db: Db, n: nat, source: User, target: User, agents: set<AgentId>)
    requires Valid(db) && MergeRefusal(db, source, target).None?
    ensures Valid(Stage(db, n, source, target, agents))
  {
    TableOk(db.grants, db.accounts, n, 4, source, target);
    TableOk(db.dataGrants, db.accounts, n, 9, source, target);
    IdentitiesStay(db, n, source, target);
    AgentsStay(db, n, source, target, agents);
    UsersStay(db, n, source, target);
  }

  lemma {:induction false} StagesApply(db: Db, n: nat, source: User, target: User, agents: set<AgentId>)
    requires Valid(db) && MergeRefusal(db, source, target).None? && n <= 13
    ensures ApplyAll(db, MERGE[..n], source, target, agents) == Some(Stage(db, n, source, target, agents))
  {
    if n == 0 {
      assert Stage(db, 0, source, target, agents) == db;
    } else {
      StagesApply(db, n - 1, source, target, agents);
      StageStep(db, n - 1, source, target, agents);
      StageOk(db, n, source, target, agents);
      assert MERGE[..n][..n - 1] == MERGE[..n - 1];
    }
  }

  ghost function Result(db: Db, source: User, target: User): Db {
    Cascaded(Stage(db, 13, source, target, AgentsOf(db, source)), source)
  }

  // Once everything has moved, no row refers to the source but those that go with it.
  ghost predicate Cleared(w: Db, source: User) {
    && (forall a :: a in w.owners ==> w.owners[a] != source)
    && (forall i :: i in w.collectors ==> w.collectors[i].user != Some(source))
    && (forall i :: i in w.registrations ==> w.registrations[i] != Some(source))
  }

  // Some record refers to the account.
  ghost predicate Recorded(w: Db, user: User) {
    exists i :: i in w.records && w.records[i].user == user
  }

  lemma CascadeTablesOk(w: Db, source: User)
    requires Valid(w)
    ensures var d := Cascaded(w, source);
      && OnePerUse(d.grants) && UsersKnown(d.grants, d.accounts)
      && OnePerUse(d.dataGrants) && UsersKnown(d.dataGrants, d.accounts)
      && IdentitiesOk(d.identities, d.accounts)
  {}

  lemma CascadeUsersOk(w: Db, source: User)
    requires Valid(w) && Cleared(w, source)
    ensures var d := Cascaded(w, source);
      && AgentsOk(d.owners, d.actors, d.accounts) && SessionsOk(d.sessions, d.owners, d.accounts)
      && RolesOk(d.roles, d.accounts)
      && OptionalUsers(d.logins, d.accounts) && PlainUsers(d.codes, d.accounts)
      && OptionalUsers(d.registrations, d.accounts) && PlainUsers(d.tokens, d.accounts)
  {}

  lemma CascadeCollectorsOk(w: Db, source: User)
    requires Valid(w) && Cleared(w, source)
    ensures var d := Cascaded(w, source);
      && CollectorsOk(d.collectors, d.accounts)
      && RolesOk(d.approvers, d.accounts)
      && (RecordsOk(d.records, d.accounts) <==> !Recorded(w, source))
  {}

  lemma CascadeOk(w: Db, source: User)
    requires Valid(w) && Cleared(w, source)
    ensures Valid(Cascaded(w, source)) <==> !Recorded(w, source)
  {
    CascadeTablesOk(w, source);
    CascadeUsersOk(w, source);
    CascadeCollectorsOk(w, source);
  }

  lemma StageCleared(db: Db, source: User, target: User, agents: set<AgentId>)
    requires source != target
    ensures Cleared(Stage(db, 13, source, target, agents), source)
    ensures Stage(db, 13, source, target, agents).records == db.records
  {}

  lemma LastOk(db: Db, source: User, target: User)
    requires Valid(db) && MergeRefusal(db, source, target).None?
    ensures Valid(Result(db, source, target)) <==> !Recorded(db, source)
  {
    var agents := AgentsOf(db, source);
    StageOk(db, 13, source, target, agents);
    StageCleared(db, source, target, agents);
    CascadeOk(Stage(db, 13, source, target, agents), source);
  }

  lemma LastStatement(db: Db, source: User, target: User)
    requires Valid(db) && MergeRefusal(db, source, target).None?
    ensures ApplyAll(db, MERGE, source, target, AgentsOf(db, source))
         == if Valid(Result(db, source, target)) then Some(Result(db, source, target)) else None
  {
    var agents := AgentsOf(db, source);
    StagesApply(db, 13, source, target, agents);
    AllStatements(db, Stage(db, 13, source, target, agents), source, target, agents);
  }

  lemma AllStatements(db: Db, w: Db, source: User, target: User, agents: set<AgentId>)
    requires ApplyAll(db, MERGE[..13], source, target, agents) == Some(w)
    ensures ApplyAll(db, MERGE, source, target, agents)
        == if Valid(Cascaded(w, source)) then Some(Cascaded(w, source)) else None
  {
    assert |MERGE| == 14 && MERGE[13] == DeleteAccount;
    assert Apply(w, DeleteAccount, source, target, agents)
        == if Valid(Cascaded(w, source)) then Some(Cascaded(w, source)) else None;
  }

  // ---- Main results ----

  // A merge that is not refused breaks no key and no reference; it fails just when a record
  // of a workflow or an approval refers to the source.
  lemma MergeSucceeds(db: Db, source: User, target: User)
    requires Valid(db) && MergeRefusal(db, source, target).None?
    ensures Merged(db, source, target).Ok? <==> !Recorded(db, source)
    ensures Merged(db, source, target).Ok? ==>
        Valid(Merged(db, source, target).value) && Merged(db, source, target).value == Result(db, source, target)
  {
    LastOk(db, source, target);
    LastStatement(db, source, target);
  }

  const NO_ROWS := Db(map[], map[], map[], map[], map[], map[], map[], {}, map[], map[], map[], map[], map[], map[],
                      map[], {})
  const TWO_ACCOUNTS := NO_ROWS.(accounts := map["source" := Disabled, "target" := Active])

  // A merge that no check refuses and that fails: the source once started a workflow.
  lemma RecordedAccountStays()
    ensures var db := TWO_ACCOUNTS.(records := map["instance" := Record(WorkflowStarter, "source")]);
      && Valid(db) && MergeRefusal(db, "source", "target").None?
      && Merged(db, "source", "target") == Err(ConstraintViolated)
  {
    var db := TWO_ACCOUNTS.(records := map["instance" := Record(WorkflowStarter, "source")]);
    assert db.records["instance"].user == "source";
    MergeSucceeds(db, "source", "target");
  }

  // Rights to approve in a space do not move to the target: it keeps its own, and those of
  // the source are lost. They are united just when the target had them all anyway.
  lemma ApproversAreLost(db: Db, source: User, target: User)
    requires Valid(db) && Merged(db, source, target).Ok?
    ensures var after := Merged(db, source, target).value.approvers;
      && after == (set r | r in db.approvers && r.0 != source)
      && ((forall space ::
             (target, space) in after <==> (target, space) in db.approvers || (source, space) in db.approvers)
          <==> forall space :: (source, space) in db.approvers ==> (target, space) in db.approvers)
  {
    MergeSucceeds(db, source, target);
    var after := Merged(db, source, target).value.approvers;
    assert forall space :: (target, space) in after <==> (target, space) in db.approvers;
  }

  // A merge that loses one.
  lemma ApproverLost()
    ensures var db := TWO_ACCOUNTS.(approvers := {("source", "space")});
      && Valid(db) && Merged(db, "source", "target").Ok?
      && ("target", "space") !in Merged(db, "source", "target").value.approvers
  {
    var db := TWO_ACCOUNTS.(approvers := {("source", "space")});
    NothingRefuses({("source", "space")});
    MergeSucceeds(db, "source", "target");
    ApproversAreLost(db, "source", "target");
  }

  lemma NothingRefuses(approvers: set<(User, string)>)
    requires forall a :: a in approvers ==> a.0 == "source"
    ensures var db := TWO_ACCOUNTS.(approvers := approvers);
      Valid(db) && MergeRefusal(db, "source", "target").None? && !Recorded(db, "source")
  {}

  // A listing of the grants of the store, in whatever order.
  ghost predicate Lists(l: seq<Grants.Grant>, t: Table<Use, Terms>) {
    forall g: Grants.Grant :: g in l <==>
      g.id in t && t[g.id] == Row(g.user, Use(g.capability, g.kind), Terms(g.scope, g.expiresAt))
  }

  lemma AllowedByRow(
      now: Time, l: seq<Grants.Grant>, t: Table<Use, Terms>, user: User, capability: string, kind: string)
    requires Lists(l, t)
    ensures Grants.IsAllowed(now, l, user, capability, kind) <==>
      exists terms: Terms :: HasRow(t, user, Use(capability, kind), terms)
          && (terms.expiresAt.Some? ==> now < terms.expiresAt.value)
  {
    if Grants.IsAllowed(now, l, user, capability, kind) {
      var g :| g in l && Grants.Concerns(g, user, capability, kind) && Grants.Current(g, now);
      assert t[g.id] == Row(user, Use(capability, kind), Terms(g.scope, g.expiresAt));
      assert HasRow(t, user, Use(capability, kind), Terms(g.scope, g.expiresAt));
    }
    if terms: Terms :|
        HasRow(t, user, Use(capability, kind), terms) && (terms.expiresAt.Some? ==> now < terms.expiresAt.value) {
      var i :| i in t && t[i] == Row(user, Use(capability, kind), terms);
      assert Grants.Grant(i, user, capability, kind, terms.scope, terms.expiresAt) in l;
    }
  }

  // At every time and for every use, the target may after a merge what source or target
  // might before; everybody else may what they might.
  lemma AuthorityIsUnited(db: Db, source: User, target: User, now: Time, capability: string, kind: string,
                          before: seq<Grants.Grant>, after: seq<Grants.Grant>, user: User)
    requires Valid(db) && Merged(db, source, target).Ok?
    requires Lists(before, db.grants) && Lists(after, Merged(db, source, target).value.grants)
    ensures Grants.IsAllowed(now, after, target, capability, kind) <==>
      Grants.IsAllowed(now, before, source, capability, kind) || Grants.IsAllowed(now, before, target, capability, kind)
    ensures !Grants.IsAllowed(now, after, source, capability, kind)
    ensures user != source && user != target ==>
        (Grants.IsAllowed(now, after, user, capability, kind) <==>
         Grants.IsAllowed(now, before, user, capability, kind))
  {
    MergeSucceeds(db, source, target);
    var t', use := Merged(db, source, target).value.grants, Use(capability, kind);
    MergedRows(db.grants, source, target);
    assert t' == Reassigned(Deduplicated(db.grants, source, target), source, target);
    forall terms
      ensures HasRow(t', target, use, terms)
          <==> HasRow(db.grants, source, use, terms) || HasRow(db.grants, target, use, terms)
      ensures user != source && user != target
          ==> (HasRow(t', user, use, terms) <==> HasRow(db.grants, user, use, terms))
    {
      RowsUnited(db.grants, source, target, use, terms);
      if user != source && user != target {
        OthersKept(db.grants, source, target, user, use, terms);
      }
    }
    AllowedByRow(now, after, t', target, capability, kind);
    AllowedByRow(now, after, t', source, capability, kind);
    AllowedByRow(now, after, t', user, capability, kind);
    AllowedByRow(now, before, db.grants, target, capability, kind);
    AllowedByRow(now, before, db.grants, source, capability, kind);
    AllowedByRow(now, before, db.grants, user, capability, kind);
  }

  // After the moves nothing is left for the deletion of the source to take along.
  lemma MergedRows<W, T>(t: Table<W, T>, source: User, target: User)
    requires source != target
    ensures var m := Reassigned(Deduplicated(t, source, target), source, target);
      RowsWithout(m, source) == m && forall what, terms :: !HasRow(m, source, what, terms)
  {}

  // The grants of the target become the union of both accounts', on the terms they had;
  // everybody else keeps theirs.
  lemma GrantsAreUnited(db: Db, source: User, target: User, user: User, use: Use, terms: Terms)
    requires Valid(db) && Merged(db, source, target).Ok?
    ensures var grants := Merged(db, source, target).value.grants;
      && (HasRow(grants, target, use, terms) <==>
          HasRow(db.grants, source, use, terms) || HasRow(db.grants, target, use, terms))
      && !HasRow(grants, source, use, terms)
      && (user != source && user != target ==>
            (HasRow(grants, user, use, terms) <==> HasRow(db.grants, user, use, terms)))
  {
    MergeSucceeds(db, source, target);
    MergedRows(db.grants, source, target);
    RowsUnited(db.grants, source, target, use, terms);
    if user != source && user != target {
      OthersKept(db.grants, source, target, user, use, terms);
    }
  }

  // Data grants and roles become the union of both accounts', too.
  lemma DataGrantsAreUnited(db: Db, source: User, target: User, user: User, what: Resource)
    requires Valid(db) && Merged(db, source, target).Ok?
    ensures var grants := Merged(db, source, target).value.dataGrants;
      && (HasRow(grants, target, what, ()) <==>
          HasRow(db.dataGrants, source, what, ()) || HasRow(db.dataGrants, target, what, ()))
      && !HasRow(grants, source, what, ())
      && (user != source && user != target ==>
            (HasRow(grants, user, what, ()) <==> HasRow(db.dataGrants, user, what, ())))
  {
    MergeSucceeds(db, source, target);
    MergedRows(db.dataGrants, source, target);
    forall i | i in db.dataGrants
      ensures db.dataGrants[i].terms == ()
    {
      match db.dataGrants[i].terms case () =>
    }
    RowsUnited(db.dataGrants, source, target, what, ());
    if user != source && user != target {
      OthersKept(db.dataGrants, source, target, user, what, ());
    }
  }

  lemma RolesAreUnited(db: Db, source: User, target: User, user: User, role: string)
    requires Valid(db) && Merged(db, source, target).Ok?
    ensures var roles := Merged(db, source, target).value.roles;
      && ((target, role) in roles <==> (source, role) in db.roles || (target, role) in db.roles)
      && (source, role) !in roles
      && (user != source && user != target ==> ((user, role) in roles <==> (user, role) in db.roles))
  {
    MergeSucceeds(db, source, target);
  }

  // Every collector token keeps its agent, and is the target's where it was the source's; so
  // is every registration code.
  lemma CollectorsMove(db: Db, source: User, target: User, k: string)
    requires Valid(db) && Merged(db, source, target).Ok?
    ensures var db' := Merged(db, source, target).value;
      && (k in db'.collectors <==> k in db.collectors) && (k in db'.registrations <==> k in db.registrations)
      && (k in db.collectors ==>
            && db'.collectors[k].agent == db.collectors[k].agent
            && db'.collectors[k].user == (if db.collectors[k].user == Some(source) then Some(target)
                                          else db.collectors[k].user))
      && (k in db.registrations ==>
            db'.registrations[k] == (if db.registrations[k] == Some(source) then Some(target) else db.registrations[k]))
  {
    MergeSucceeds(db, source, target);
  }

  // The source is gone with its sessions, sign-ins, codes and tokens, and its place among the
  // approvers; those of others stay.
  lemma NothingOfTheSourceRemains(db: Db, source: User, target: User)
    requires Valid(db) && Merged(db, source, target).Ok?
    ensures var db' := Merged(db, source, target).value;
      && (forall u :: u in db'.accounts <==> u in db.accounts && u != source)
      && (forall s :: s in db'.sessions <==> s in db.sessions && db.sessions[s].user != source)
      && (forall s :: s in db'.logins <==> s in db.logins && db.logins[s] != Some(source))
      && (forall c :: c in db'.codes <==> c in db.codes && db.codes[c] != source)
      && (forall k :: k in db'.tokens <==> k in db.tokens && db.tokens[k] != source)
      && (forall r :: r in db'.approvers <==> r in db.approvers && r.0 != source)
  {
    MergeSucceeds(db, source, target);
  }

  // What stays of all these is as it was, and so is everything else that is not the source's.
  lemma OthersStay(db: Db, source: User, target: User)
    requires Valid(db) && Merged(db, source, target).Ok?
    ensures var db' := Merged(db, source, target).value;
      && (forall u :: u in db'.accounts ==> u in db.accounts && db'.accounts[u] == db.accounts[u])
      && (forall s :: s in db'.sessions ==> s in db.sessions && db'.sessions[s] == db.sessions[s])
      && (forall s :: s in db'.logins ==> s in db.logins && db'.logins[s] == db.logins[s])
      && (forall c :: c in db'.codes ==> c in db.codes && db'.codes[c] == db.codes[c])
      && (forall k :: k in db'.tokens ==> k in db.tokens && db'.tokens[k] == db.tokens[k])
      && db'.gates == db.gates && db'.records == db.records && db'.owners.Keys == db.owners.Keys
      && db'.actors.Keys == db.actors.Keys
      && (forall a :: a in db.actors && !(a in db.owners && db.owners[a] == source) ==> db'.actors[a] == db.actors[a])
  {
    MergeSucceeds(db, source, target);
  }

  // Every identity of the source now signs in to the target; nobody else's changes and
  // none is lost.
  lemma IdentitiesMove(db: Db, source: User, target: User, k: IdentityKey)
    requires Valid(db) && Merged(db, source, target).Ok?
    ensures var db' := Merged(db, source, target).value;
      && (k in db'.identities <==> k in db.identities)
      && (k in db.identities ==> db'.identities[k] == if db.identities[k] == source then target else db.identities[k])
  {
    MergeSucceeds(db, source, target);
  }

  // Every agent of the source now belongs to the target, by its owner row and its actor
  // alike; other agents keep both.
  lemma AgentsMove(db: Db, source: User, target: User, a: AgentId)
    requires Valid(db) && Merged(db, source, target).Ok? && a in db.owners
    ensures var db' := Merged(db, source, target).value;
      && a in db'.owners && a in db'.actors && a in db.actors
      && (db.owners[a] == source ==> db'.owners[a] == target && db'.actors[a] == target)
      && (db.owners[a] != source ==> db'.owners[a] == db.owners[a] && db'.actors[a] == db.actors[a])
  {
    MergeSucceeds(db, source, target);
  }

  ghost predicate OwnersAgree(db: Db) {
    forall a :: a in db.owners && a in db.actors ==> db.owners[a] == db.actors[a]
  }

  // Owner rows and actors that agree go on agreeing.
  lemma OwnersGoOnAgreeing(db: Db, source: User, target: User)
    requires Valid(db) && Merged(db, source, target).Ok? && OwnersAgree(db)
    ensures OwnersAgree(Merged(db, source, target).value)
  {
    var db' := Merged(db, source, target).value;
    forall a | a in db'.owners && a in db'.actors
      ensures db'.owners[a] == db'.actors[a]
    {
      OnlyOldOwners(db, source, target, a);
      AgentsMove(db, source, target, a);
    }
  }

  lemma OnlyOldOwners(db: Db, source: User, target: User, a: AgentId)
    requires Valid(db) && Merged(db, source, target).Ok? && a in Merged(db, source, target).value.owners
    ensures a in db.owners
  {
    MergeSucceeds(db, source, target);
  }

  // Why terms must not differ: dropping the source's row for a use that the target has a
  // row for keeps the united authority just when the target's row lasts as long.
  lemma DroppingNeedsAgreement(t: Table<Use, Terms>, source: User, target: User, use: Use, s: Terms, k: Terms)
    requires OnePerUse(t) && source != target && HasRow(t, source, use, s) && HasRow(t, target, use, k)
    ensures (forall now: Time :: KeepsForce(t, source, target, use, now))
        <==> k.expiresAt.None? || (s.expiresAt.Some? && s.expiresAt.value <= k.expiresAt.value)
  {
    var m := Reassigned(Deduplicated(t, source, target), source, target);
    forall now: Time
      ensures InForce(t, source, use, now) <==> (s.expiresAt.Some? ==> now < s.expiresAt.value)
      ensures InForce(t, target, use, now) <==> (k.expiresAt.Some? ==> now < k.expiresAt.value)
      ensures InForce(m, target, use, now) <==> (k.expiresAt.Some? ==> now < k.expiresAt.value)
    {
      OnlyRow(t, source, use, s, now);
      OnlyRow(t, target, use, k, now);
      UniqueAfterMerge(t, source, target);
      var j :| j in t && t[j] == Row(target, use, k);
      assert j in m && m[j] == t[j];
      OnlyRow(m, target, use, k, now);
    }
    assert forall now: Time :: KeepsForce(t, source, target, use, now) <==>
      (InForce(m, target, use, now) <==> InForce(t, source, use, now) || InForce(t, target, use, now));
    if k.expiresAt.Some? && (s.expiresAt.None? || s.expiresAt.value > k.expiresAt.value) {
      assert !KeepsForce(t, source, target, use, k.expiresAt.value);
    }
  }

  ghost predicate KeepsForce(t: Table<Use, Terms>, source: User, target: User, use: Use, now: Time) {
    var m := Reassigned(Deduplicated(t, source, target), source, target);
    InForce(m, target, use, now) <==> InForce(t, source, use, now) || InForce(t, target, use, now)
  }

  ghost predicate InForce(t: Table<Use, Terms>, user: User, use: Use, now: Time) {
    exists i :: i in t && t[i].user == user && t[i].what == use
        && (t[i].terms.expiresAt.Some? ==> now < t[i].terms.expiresAt.value)
  }

  lemma OnlyRow(t: Table<Use, Terms>, user: User, use: Use, terms: Terms, now: Time)
    requires OnePerUse(t) && HasRow(t, user, use, terms)
    ensures InForce(t, user, use, now) <==> (terms.expiresAt.Some? ==> now < terms.expiresAt.value)
  {
    var i :| i in t && t[i] == Row(user, use, terms);
  }
}
