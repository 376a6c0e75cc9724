/** The audit log is a faithful journal of the grants on data resources. */
module DataGrantRuns {
  import opened Common
  import opened DataGrants

  datatype Event =
    | CreateCall(s: Subject, actions: seq<Action>, ids: map<string, Action>)
    | ReplaceCall(s: Subject, actions: seq<Action>, ids: map<string, Action>)
    | RemoveCall(s: Subject)
    | FailureCall(s: Subject)

  // New grants get new ids, one for each accepted action.
  ghost predicate Possible(db: Db, e: Event) {
    (e.CreateCall? || e.ReplaceCall?) && Accepted(e.s, e.actions).Ok? ==>
      && (forall i :: i in e.ids ==> i !in db.grants)
      && e.ids.Values == Accepted(e.s, e.actions).value
      && forall i, j :: i in e.ids && j in e.ids && e.ids[i] == e.ids[j] ==> i == j
  }

  ghost function Accepted(s: Subject, actions: seq<Action>): Result<set<Action>, DataError> {
    if s.user == "" || !ValidResource(s.kind, s.resource) then Err(InvalidRequest)
    else Normalized(s.kind, s.resource, actions)
  }

  function DbAfter(r: Result<Db, DataError>, db: Db): Db {
    match r
    case Ok(db') => db'
    case Err(_) => db
  }

  ghost function After(db: Db, e: Event): Db
    requires Possible(db, e)
  {
    match e
    case CreateCall(s, actions, ids) => if Accepted(s, actions).Ok? then DbAfter(Create(db, s, ids), db) else db
    case ReplaceCall(s, actions, ids) => if Accepted(s, actions).Ok? then DbAfter(Replace(db, s, ids), db) else db
    case RemoveCall(s) => if s.user == "" || !ValidResource(s.kind, s.resource) then db else DbAfter(Delete(db, s), db)
    case FailureCall(s) => Failure(db, s)
  }

  ghost predicate IsRun(db: Db, events: seq<Event>)
    decreases |events|
  {
    events == [] || (Possible(db, events[0]) && IsRun(After(db, events[0]), events[1..]))
  }

  ghost function Final(db: Db, events: seq<Event>): Db
    requires IsRun(db, events)
    decreases |events|
  {
    if events == [] then db else Final(After(db, events[0]), events[1..])
  }

  // ---- The log as a journal ----

  // What the log says a subject may do: the outcome of its last successful entry.
  ghost function Told(audits: seq<Audit>, s: Subject): set<Action> {
    if audits == [] then {}
    else
      var a := audits[|audits| - 1];
      if a.success && a.subject == s then a.after else Told(audits[..|audits| - 1], s)
  }

  // Each entry begins with what the log told so far; a failed one ends with the same.
  ghost predicate Consistent(audits: seq<Audit>, i: nat)
    requires i < |audits|
  {
    audits[i].before == Told(audits[..i], audits[i].subject)
        && (!audits[i].success ==> audits[i].after == audits[i].before)
  }

  ghost predicate Journal(audits: seq<Audit>) {
    forall i :: 0 <= i < |audits| ==> Consistent(audits, i)
  }

  ghost predicate OneEach(grants: map<string, Grant>) {
    forall i, j :: i in grants && j in grants && grants[i] == grants[j] ==> i == j
  }

  // The actions that a subject may have.
  ghost predicate Fit(s: Subject, actions: set<Action>) {
    actions == {} || (s.user != "" && ValidResource(s.kind, s.resource) && actions <= ActionsOf(s.kind, s.resource)
        && ReadsToo(s.kind, actions))
  }

  ghost predicate SubjectOk(db: Db, s: Subject) {
    Told(db.audits, s) == Existing(db.grants, s) && Fit(s, Existing(db.grants, s))
  }

  ghost predicate Inv(db: Db) {
    Journal(db.audits) && OneEach(db.grants) && forall s :: SubjectOk(db, s)
  }

  lemma OneMoreEntry(audits: seq<Audit>, a: Audit, s: Subject)
    requires Journal(audits) && a.before == Told(audits, a.subject) && (!a.success ==> a.after == a.before)
    ensures Journal(audits + [a])
    ensures Told(audits + [a], s) == if a.success && a.subject == s then a.after else Told(audits, s)
  {
    forall i | 0 <= i < |audits + [a]|
      ensures Consistent(audits + [a], i)
    {
      assert (audits + [a])[..i] == audits[..i];
      assert i == |audits| ==> audits[..i] == audits;
      assert i < |audits| ==> Consistent(audits, i);
    }
    assert (audits + [a])[..|audits|] == audits;
  }

  lemma ExistingWith(grants: map<string, Grant>, s: Subject, items: map<string, Action>, t: Subject)
    requires forall i :: i in items ==> i !in grants
    ensures Existing(With(grants, s, items), t)
        == if t == s then Existing(grants, s) + items.Values else Existing(grants, t)
  {
    var w := With(grants, s, items);
    forall a | a in Existing(grants, t)
      ensures a in Existing(w, t)
    {
      var i :| i in grants && grants[i].subject == t && grants[i].action == a;
      assert w[i] == grants[i];
    }
    if t == s {
      forall a | a in items.Values
        ensures a in Existing(w, s)
      {
        var i :| i in items && items[i] == a;
        assert w[i] == Grant(s, a);
      }
    }
  }

  lemma ExistingWithout(grants: map<string, Grant>, s: Subject, t: Subject)
    ensures Existing(Without(grants, s), t) == if t == s then {} else Existing(grants, t)
  {
    forall a | a in Existing(grants, t) && t != s
      ensures a in Existing(Without(grants, s), t)
    {
      var i :| i in grants && grants[i].subject == t && grants[i].action == a;
      assert i in Without(grants, s);
    }
  }

  lemma CreateKeeps(db: Db, s: Subject, items: map<string, Action>)
    requires Inv(db) && Create(db, s, items).Ok? && (forall i :: i in items ==> i !in db.grants)
    requires forall i, j :: i in items && j in items && items[i] == items[j] ==> i == j
    requires s.user != "" && ValidResource(s.kind, s.resource) && items.Values <= ActionsOf(s.kind, s.resource)
        && ReadsToo(s.kind, items.Values)
    ensures Inv(Create(db, s, items).value)
  {
    var db' := Create(db, s, items).value;
    assert SubjectOk(db, s);
    forall i, j | i in db'.grants && j in db'.grants && db'.grants[i] == db'.grants[j]
      ensures i == j
    {
      assert i in db.grants && db.grants[i].subject == s ==> db.grants[i].action in Existing(db.grants, s);
      assert j in db.grants && db.grants[j].subject == s ==> db.grants[j].action in Existing(db.grants, s);
      assert i in items ==> items[i] in items.Values;
      assert j in items ==> items[j] in items.Values;
    }
    forall t
      ensures SubjectOk(db', t)
    {
      assert SubjectOk(db, t);
      OneMoreEntry(db.audits, db'.audits[|db.audits|], t);
      ExistingWith(db.grants, s, items, t);
    }
    OneMoreEntry(db.audits, db'.audits[|db.audits|], s);
  }

  lemma ReplaceKeeps(db: Db, s: Subject, items: map<string, Action>)
    requires Inv(db) && Replace(db, s, items).Ok? && (forall i :: i in items ==> i !in db.grants)
    requires forall i, j :: i in items && j in items && items[i] == items[j] ==> i == j
    requires s.user != "" && ValidResource(s.kind, s.resource) && items.Values <= ActionsOf(s.kind, s.resource)
        && ReadsToo(s.kind, items.Values)
    ensures Inv(Replace(db, s, items).value)
  {
    var db' := Replace(db, s, items).value;
    assert SubjectOk(db, s);
    forall t
      ensures SubjectOk(db', t)
    {
      assert SubjectOk(db, t);
      OneMoreEntry(db.audits, db'.audits[|db.audits|], t);
      ExistingWithout(db.grants, s, t);
      ExistingWith(Without(db.grants, s), s, items, t);
    }
    OneMoreEntry(db.audits, db'.audits[|db.audits|], s);
  }

  lemma DeleteKeeps(db: Db, s: Subject)
    requires Inv(db) && Delete(db, s).Ok?
    ensures Inv(Delete(db, s).value)
  {
    var db' := Delete(db, s).value;
    assert SubjectOk(db, s);
    forall t
      ensures SubjectOk(db', t)
    {
      assert SubjectOk(db, t);
      OneMoreEntry(db.audits, db'.audits[|db.audits|], t);
      ExistingWithout(db.grants, s, t);
    }
    OneMoreEntry(db.audits, db'.audits[|db.audits|], s);
  }

  lemma FailureKeeps(db: Db, s: Subject)
    requires Inv(db)
    ensures Inv(Failure(db, s))
  {
    var db' := Failure(db, s);
    assert SubjectOk(db, s);
    forall t
      ensures SubjectOk(db', t)
    {
      assert SubjectOk(db, t);
      OneMoreEntry(db.audits, db'.audits[|db.audits|], t);
    }
    OneMoreEntry(db.audits, db'.audits[|db.audits|], s);
  }

  lemma EventKeeps(db: Db, e: Event)
    requires Inv(db) && Possible(db, e)
    ensures Inv(After(db, e))
  {
    match e
    case CreateCall(s, actions, ids) =>
      if Accepted(s, actions).Ok? && Create(db, s, ids).Ok? {
        CreateKeeps(db, s, ids);
      }
    case ReplaceCall(s, actions, ids) =>
      if Accepted(s, actions).Ok? && Replace(db, s, ids).Ok? {
        ReplaceKeeps(db, s, ids);
      }
    case RemoveCall(s) =>
      if Delete(db, s).Ok? {
        DeleteKeeps(db, s);
      }
    case FailureCall(s) => FailureKeeps(db, s);
  }

  lemma {:induction false} RunKeeps(db: Db, events: seq<Event>)
    requires Inv(db) && IsRun(db, events)
    ensures Inv(Final(db, events))
    decreases |events|
  {
    if events != [] {
      EventKeeps(db, events[0]);
      RunKeeps(After(db, events[0]), events[1..]);
    }
  }

  // ---- Main results ----

  ghost predicate Reachable(db: Db) {
    exists events :: IsRun(Db(map[], []), events) && db == Final(Db(map[], []), events)
  }

  lemma ReachableInv(db: Db)
    requires Reachable(db)
    ensures Inv(db)
  {
    var events :| IsRun(Db(map[], []), events) && db == Final(Db(map[], []), events);
    RunKeeps(Db(map[], []), events);
  }

  // Reading the log from its start tells just what is granted now.
  lemma LogTellsTheGrants(db: Db, s: Subject)
    requires Reachable(db)
    ensures Told(db.audits, s) == Existing(db.grants, s)
  {
    ReachableInv(db);
    assert SubjectOk(db, s);
  }

  // No action is granted twice to a subject.
  lemma NoDuplicateGrants(db: Db, i: string, j: string)
    requires Reachable(db) && i in db.grants && j in db.grants && db.grants[i] == db.grants[j]
    ensures i == j
  {
    ReachableInv(db);
  }

  // Between two successive successful entries for a subject the first one's outcome is the
  // second one's beginning; failed entries in between record just this state.
  lemma EntriesFollowOn(db: Db, i: nat, j: nat)
    requires Reachable(db) && i < j < |db.audits| && db.audits[i].success
        && db.audits[j].subject == db.audits[i].subject
    requires forall k :: i < k < j && db.audits[k].subject == db.audits[i].subject ==> !db.audits[k].success
    ensures db.audits[j].before == db.audits[i].after
    ensures !db.audits[j].success ==> db.audits[j].after == db.audits[i].after
  {
    ReachableInv(db);
    assert Consistent(db.audits, j);
    LastTold(db.audits[..j], i);
  }

  lemma {:induction false} LastTold(audits: seq<Audit>, i: nat)
    requires i < |audits| && audits[i].success
    requires forall k :: i < k < |audits| && audits[k].subject == audits[i].subject ==> !audits[k].success
    ensures Told(audits, audits[i].subject) == audits[i].after
  {
    if i < |audits| - 1 {
      LastTold(audits[..|audits| - 1], i);
    }
  }

  // Whoever may upload to a knowledge base, write to a shared space, or connect or manage
  // a data view may read it.
  lemma UseNeedsReading(db: Db, s: Subject)
    requires Reachable(db) && Existing(db.grants, s) * NeedingRead(s.kind) != {}
    ensures READ in Existing(db.grants, s)
  {
    ReachableInv(db);
    assert SubjectOk(db, s);
  }

  // The actions that may be granted without reading: writing to a skill space, and calling
  // a knowledge base, each alone.
  ghost predicate WithoutReading(kind: string, actions: set<Action>) {
    (kind == SKILL_SPACE && actions == {WRITE}) || (kind == KNOWLEDGE_BASE && actions == {MCP})
  }

  // A request is accepted without reading just when it is for one of these.
  lemma AcceptedWithoutReading(s: Subject, actions: seq<Action>)
    requires Accepted(s, actions).Ok?
    ensures READ !in actions <==> WithoutReading(s.kind, Accepted(s, actions).value)
  {
    var set' := Accepted(s, actions).value;
    assert forall a :: a in set' <==> a in actions;
    NoOtherActions(s, set');
  }

  lemma NoOtherActions(s: Subject, actions: set<Action>)
    requires actions != {} && actions <= ActionsOf(s.kind, s.resource) && ReadsToo(s.kind, actions)
    ensures READ !in actions <==> WithoutReading(s.kind, actions)
  {
    var a :| a in actions;
    assert READ !in actions && s.kind == SKILL_SPACE ==> actions == {WRITE};
    assert READ !in actions && s.kind == KNOWLEDGE_BASE ==> actions == {MCP};
  }

  // And just so in every table that calls can lead to.
  lemma UsersWithoutReading(db: Db, s: Subject)
    requires Reachable(db) && Existing(db.grants, s) != {}
    ensures READ !in Existing(db.grants, s) <==> WithoutReading(s.kind, Existing(db.grants, s))
  {
    ReachableInv(db);
    assert SubjectOk(db, s);
    NoOtherActions(s, Existing(db.grants, s));
  }

  // What a request has to be to be accepted: for a user, a resource and actions that there
  // are, with reading where it is asked for.
  lemma RequestsAccepted(s: Subject, actions: seq<Action>)
    ensures Accepted(s, actions).Ok? <==>
      s.user != "" && ValidResource(s.kind, s.resource) && IsAccepted(s.kind, s.resource, actions)
  {
    NormalizedMeans(s.kind, s.resource, actions);
  }

  // One call leads to either.
  lemma UserWithoutReading(kind: string, action: Action) returns (db: Db, s: Subject)
    requires WithoutReading(kind, {action})
    ensures Reachable(db) && s.kind == kind && Existing(db.grants, s) == {action}
  {
    s := Subject("user", kind, "resource");
    db := FirstGrant(s, action);
    var empty, events := Db(map[], []), [FirstCall(s, action)];
    assert events[1..] == [];
    assert IsRun(db, []) && Final(db, []) == db;
    assert IsRun(empty, events) && Final(empty, events) == db;
  }

  function FirstCall(s: Subject, action: Action): Event {
    CreateCall(s, [action], map["grant" := action])
  }

  lemma FirstGrant(s: Subject, action: Action) returns (db: Db)
    requires WithoutReading(s.kind, {action}) && s.user != "" && s.resource == "resource"
    ensures Possible(Db(map[], []), FirstCall(s, action)) && db == After(Db(map[], []), FirstCall(s, action))
    ensures Existing(db.grants, s) == {action}
  {
    FirstAccepted(s, action);
    var ids := map["grant" := action];
    assert ids["grant"] == action && ids.Values == {action};
    db := After(Db(map[], []), FirstCall(s, action));
    assert db.grants["grant"] == Grant(s, action);
  }

  lemma FirstAccepted(s: Subject, action: Action)
    requires WithoutReading(s.kind, {action}) && s.user != "" && s.resource == "resource"
    ensures Accepted(s, [action]) == Ok({action})
  {
    assert 'r' in s.resource;
    assert action in {action};
    assert action == WRITE || action == MCP;
    assert [action][0] == action && (set a | a in [action]) == {action};
  }
}
