/** Grants on data resources and the audit log that goes with them. Sets stand for the
    sorted lists of actions, which never hold an action twice; texts arrive trimmed. */
module DataGrants {
  import opened Common

  type Action = string

  // A user's relation to one resource.
  datatype Subject = Subject(user: string, kind: string, resource: string)

  datatype Grant = Grant(subject: Subject, action: Action)

  datatype Audit = Audit(subject: Subject, before: set<Action>, after: set<Action>, success: bool)

  datatype Db = Db(grants: map<string, Grant>, audits: seq<Audit>)

  datatype DataError = InvalidRequest | Conflict | NotFound

  const READ := "read"
  const UPLOAD := "upload"
  const MCP := "mcp"
  const WRITE := "write"
  const CONNECT := "connect"
  const MANAGE := "manage"
  const FEEDBACK := "feedback"
  const ALL_FEEDBACK := "all_feedback"
  const KNOWLEDGE_BASE := "knowledge_base"
  const SHARED_SPACE := "shared_space"
  const SKILL_SPACE := "skill_space"
  const DATA_VIEW := "data_view"
  const VIEWS := {"agent_activity", "xiaohongshu_operation", "douyin_ads", "bilibili_operation"}
  const BILIBILI := "bilibili_operation"

  // ---- What may be granted ----

  function ActionsOf(kind: string, resource: string): set<Action> {
    if kind == FEEDBACK then {READ}
    else if kind == SHARED_SPACE || kind == SKILL_SPACE then {READ, WRITE}
    else if kind == KNOWLEDGE_BASE then {READ, UPLOAD, MCP}
    else if kind == DATA_VIEW then if resource == BILIBILI then {READ, CONNECT, MANAGE} else {READ}
    else {}
  }

  predicate ValidResource(kind: string, resource: string) {
    if kind == FEEDBACK then resource == ALL_FEEDBACK
    else if kind == DATA_VIEW then resource in VIEWS
    else (kind == SHARED_SPACE || kind == SKILL_SPACE || kind == KNOWLEDGE_BASE) && !Blank(resource)
  }

  // The actions that the service refuses to grant without reading.
  function NeedingRead(kind: string): set<Action> {
    if kind == KNOWLEDGE_BASE then {UPLOAD}
    else if kind == SHARED_SPACE then {WRITE}
    else if kind == DATA_VIEW then {CONNECT, MANAGE}
    else {}
  }

  predicate ReadsToo(kind: string, actions: set<Action>) {
    READ in actions || actions !! NeedingRead(kind)
  }

  // Whether a list of actions is accepted for a resource, and as which set.
  ghost function Normalized(kind: string, resource: string, actions: seq<Action>): Result<set<Action>, DataError> {
    var seen := set a | a in actions;
    if seen == {} || !(seen <= ActionsOf(kind, resource)) || !ReadsToo(kind, seen) then Err(InvalidRequest)
    else Ok(seen)
  }

  // The resources for which an action is defined.
  ghost predicate IsDefined(kind: string, resource: string, a: Action) {
    || (a == "read" && kind in {"feedback", "shared_space", "skill_space", "knowledge_base", "data_view"})
    || (a == "write" && kind in {"shared_space", "skill_space"})
    || (a in {"upload", "mcp"} && kind == "knowledge_base")
    || (a in {"connect", "manage"} && kind == "data_view" && resource == "bilibili_operation")
  }

  ghost predicate AsksForReading(kind: string, a: Action) {
    || (a == "upload" && kind == "knowledge_base") || (a == "write" && kind == "shared_space")
    || (a in {"connect", "manage"} && kind == "data_view")
  }

  ghost predicate IsAccepted(kind: string, resource: string, actions: seq<Action>) {
    && actions != [] && (forall a :: a in actions ==> IsDefined(kind, resource, a))
    && ((exists a :: a in actions && AsksForReading(kind, a)) ==> "read" in actions)
  }

  lemma NormalizedMeans(kind: string, resource: string, actions: seq<Action>)
    ensures Normalized(kind, resource, actions).Ok? <==> IsAccepted(kind, resource, actions)
    ensures Normalized(kind, resource, actions).Err? ==> Normalized(kind, resource, actions).error == InvalidRequest
    ensures Normalized(kind, resource, actions).Ok? ==>
        forall a :: a in Normalized(kind, resource, actions).value <==> a in actions
  {
    var seen := set a | a in actions;
    if actions != [] {
      assert actions[0] in seen;
    }
    assert forall a :: a in ActionsOf(kind, resource) <==> IsDefined(kind, resource, a);
    assert forall a :: a in NeedingRead(kind) <==> AsksForReading(kind, a);
  }

  lemma ResourcesMean(kind: string, resource: string)
    ensures ValidResource(kind, resource) <==>
      || (kind == "feedback" && resource == "all_feedback")
      || (kind == "data_view"
          && resource in {"agent_activity", "xiaohongshu_operation", "douyin_ads", "bilibili_operation"})
      || (kind in {"shared_space", "skill_space", "knowledge_base"} && exists c :: c in resource && !IsSpace(c))
  {}

  method NormalizeActions(kind: string, resource: string, actions: seq<Action>)
    returns (r: Result<set<Action>, DataError>)
    ensures r.Ok? <==> IsAccepted(kind, resource, actions)
    ensures r.Err? ==> r.error == InvalidRequest
    ensures r.Ok? ==> forall a :: a in r.value <==> a in actions
    ensures r == Normalized(kind, resource, actions)
  {
    NormalizedMeans(kind, resource, actions);
    var seen := {};
    for i := 0 to |actions|
      invariant seen == set a | a in actions[..i]
      invariant seen <= ActionsOf(kind, resource)
    {
      if actions[i] !in ActionsOf(kind, resource) {
        assert actions[i] in set a | a in actions;
        return Err(InvalidRequest);
      }
      assert actions[..i + 1] == actions[..i] + [actions[i]];
      seen := seen + {actions[i]};
    }
    assert actions[..|actions|] == actions;
    if seen == {} {
      return Err(InvalidRequest);
    }
    if kind == KNOWLEDGE_BASE && UPLOAD in seen && READ !in seen {
      return Err(InvalidRequest);
    }
    if kind == SHARED_SPACE && WRITE in seen && READ !in seen {
      return Err(InvalidRequest);
    }
    if kind == DATA_VIEW && (CONNECT in seen || MANAGE in seen) && READ !in seen {
      return Err(InvalidRequest);
    }
    r := Ok(seen);
  }

  // ---- The store ----

  function Existing(grants: map<string, Grant>, s: Subject): set<Action> {
    set i | i in grants && grants[i].subject == s :: grants[i].action
  }

  // The actions of a subject among the grants but for those of `ids`.
  function Besides(grants: map<string, Grant>, ids: set<string>, s: Subject): set<Action> {
    set i | i in grants && i !in ids && grants[i].subject == s :: grants[i].action
  }

  lemma BesidesOneLess(grants: map<string, Grant>, ids: set<string>, s: Subject, i: string)
    requires i in grants && i in ids
    ensures Besides(grants, ids - {i}, s) == Besides(grants, ids, s)
        + if grants[i].subject == s then {grants[i].action} else {}
  {
    var less := ids - {i};
    assert grants[i].subject == s ==> grants[i].action in Besides(grants, less, s);
    forall a | a in Besides(grants, ids, s)
      ensures a in Besides(grants, less, s)
    {
      var j :| j in grants && j !in ids && grants[j].subject == s && grants[j].action == a;
      assert j !in less;
    }
  }

  lemma BesidesNone(grants: map<string, Grant>, s: Subject)
    ensures Besides(grants, {}, s) == Existing(grants, s) && Besides(grants, grants.Keys, s) == {}
  {}

  lemma Clashes(grants: map<string, Grant>, s: Subject, i: string, wanted: set<Action>)
    requires i in grants && grants[i].subject == s && grants[i].action in wanted
    ensures !(Existing(grants, s) !! wanted)
  {
    assert grants[i].action in Existing(grants, s);
  }

  function Without(grants: map<string, Grant>, s: Subject): map<string, Grant> {
    map i | i in grants && grants[i].subject != s :: grants[i]
  }

  // New grants for a subject, by their ids.
  function With(grants: map<string, Grant>, s: Subject, items: map<string, Action>): map<string, Grant> {
    grants + map i | i in items :: Grant(s, items[i])
  }

  function Create(db: Db, s: Subject, items: map<string, Action>): Result<Db, DataError> {
    var before := Existing(db.grants, s);
    if before !! items.Values
    then Ok(Db(With(db.grants, s, items), db.audits + [Audit(s, before, before + items.Values, true)]))
    else Err(Conflict)
  }

  function Replace(db: Db, s: Subject, items: map<string, Action>): Result<Db, DataError> {
    var before := Existing(db.grants, s);
    if before == {} then Err(NotFound)
    else Ok(Db(With(Without(db.grants, s), s, items), db.audits + [Audit(s, before, items.Values, true)]))
  }

  function Delete(db: Db, s: Subject): Result<Db, DataError> {
    var before := Existing(db.grants, s);
    if before == {} then Err(NotFound)
    else Ok(Db(Without(db.grants, s), db.audits + [Audit(s, before, {}, true)]))
  }

  // A refused request is recorded too, with what the subject had and keeps.
  function Failure(db: Db, s: Subject): Db {
    var actions := if s.user != "" && ValidResource(s.kind, s.resource) then Existing(db.grants, s) else {};
    db.(audits := db.audits + [Audit(s, actions, actions, false)])
  }

  // The table when the subject's grants are gone but for those among `ids`.
  function Remainder(grants: map<string, Grant>, ids: set<string>, s: Subject): map<string, Grant> {
    map i | i in grants && (i in ids || grants[i].subject != s) :: grants[i]
  }

  lemma RemainderOneLess(grants: map<string, Grant>, ids: set<string>, s: Subject, i: string)
    requires i in grants && i in ids
    ensures Remainder(grants, ids - {i}, s)
         == if grants[i].subject == s then Remainder(grants, ids, s) - {i} else Remainder(grants, ids, s)
  {}

  lemma RemainderAll(grants: map<string, Grant>, s: Subject)
    ensures Remainder(grants, grants.Keys, s) == grants && Remainder(grants, {}, s) == Without(grants, s)
  {}

  // What a subject may do, and whether one of `wanted` is among it.
  method Collect(grants: map<string, Grant>, s: Subject, wanted: set<Action>) returns (before: set<Action>, clash: bool)
    ensures clash <==> !(Existing(grants, s) !! wanted)
    ensures !clash ==> before == Existing(grants, s)
  {
    before, clash := {}, false;
    var ids := grants.Keys;
    BesidesNone(grants, s);
    while ids != {}
      invariant ids <= grants.Keys && before == Besides(grants, ids, s) && before !! wanted
      decreases |ids|
    {
      var i :| i in ids;
      BesidesOneLess(grants, ids, s, i);
      if grants[i].subject == s {
        if grants[i].action in wanted {
          Clashes(grants, s, i, wanted);
          return before, true;
        }
        before := before + {grants[i].action};
      }
      ids := ids - {i};
    }
  }

  // Takes the grants of one subject out, and says what they allowed.
  method TakeOut(grants: map<string, Grant>, s: Subject)
    returns (rest: map<string, Grant>, before: set<Action>, found: bool)
    ensures before == Existing(grants, s) && (found <==> before != {}) && rest == Without(grants, s)
  {
    rest, before, found := grants, {}, false;
    var ids := grants.Keys;
    BesidesNone(grants, s);
    RemainderAll(grants, s);
    while ids != {}
      invariant ids <= grants.Keys && before == Besides(grants, ids, s) && rest == Remainder(grants, ids, s)
      invariant found <==> before != {}
      decreases |ids|
    {
      var i :| i in ids;
      BesidesOneLess(grants, ids, s, i);
      RemainderOneLess(grants, ids, s, i);
      if grants[i].subject == s {
        rest, before, found := rest - {i}, before + {grants[i].action}, true;
      }
      ids := ids - {i};
    }
  }

  // ---- What the store's calls promise, over grants and entries ----

  // These are the actions that the subject is granted.
  ghost predicate Grants(grants: map<string, Grant>, s: Subject, actions: set<Action>) {
    forall a :: a in actions <==> exists i :: i in grants && grants[i] == Grant(s, a)
  }

  lemma ClashMeans(grants: map<string, Grant>, s: Subject, items: map<string, Action>)
    ensures !(Existing(grants, s) !! items.Values) <==>
      exists i, j :: i in grants && j in items && grants[i] == Grant(s, items[j])
  {
    ExistingGranted(grants, s);
    if a :| a in Existing(grants, s) && a in items.Values {
      var i :| i in grants && grants[i] == Grant(s, a);
      var j :| j in items && items[j] == a;
      assert grants[i] == Grant(s, items[j]);
    }
    if i, j :| i in grants && j in items && grants[i] == Grant(s, items[j]) {
      assert items[j] in Existing(grants, s) && items[j] in items.Values;
    }
  }

  lemma NobodyMeans(grants: map<string, Grant>, s: Subject)
    ensures Existing(grants, s) == {} <==> forall i :: i in grants ==> grants[i].subject != s
  {
    forall i | i in grants && grants[i].subject == s
      ensures grants[i].action in Existing(grants, s)
    {}
  }

  lemma ExistingGranted(grants: map<string, Grant>, s: Subject)
    ensures Grants(grants, s, Existing(grants, s))
  {
    forall a | a in Existing(grants, s)
      ensures exists i :: i in grants && grants[i] == Grant(s, a)
    {
      var i :| i in grants && grants[i].subject == s && grants[i].action == a;
      assert grants[i] == Grant(s, a);
    }
  }

  // One successful entry more, which says what the subject was granted.
  ghost predicate Enters(before: Db, after: Db, s: Subject) {
    && |after.audits| == |before.audits| + 1 && after.audits[..|before.audits|] == before.audits
    && var a := after.audits[|before.audits|];
       a.subject == s && a.success && Grants(before.grants, s, a.before)
  }

  // New grants are there beside those that stay.
  ghost predicate Holds(before: map<string, Grant>, after: map<string, Grant>, s: Subject, items: map<string, Action>) {
    && (forall i :: i in items ==> i in after && after[i] == Grant(s, items[i]))
    && (forall i :: i in after && i !in items ==> i in before && after[i] == before[i])
  }

  class DataGrantStore {
    var db: Db

    constructor ()
      ensures db == Db(map[], [])
    {
      db := Db(map[], []);
    }

    method CreateGrants(s: Subject, items: map<string, Action>) returns (r: Result<(), DataError>)
      requires forall i :: i in items ==> i !in db.grants
      modifies this
      ensures r.Err? <==> exists i, j :: i in old(db).grants && j in items && old(db).grants[i] == Grant(s, items[j])
      ensures r.Err? ==> r.error == Conflict && db == old(db)
      ensures r.Ok? ==>
          && Holds(old(db).grants, db.grants, s, items) && old(db).grants.Keys <= db.grants.Keys
          && Enters(old(db), db, s)
          && (var a := db.audits[|old(db).audits|]; a.after == a.before + items.Values)
      ensures match Create(old(db), s, items)
        case Err(e) => r == Err(e) && db == old(db)
        case Ok(db') => r == Ok(()) && db == db'
    {
      ExistingGranted(db.grants, s);
      var before, clash := Collect(db.grants, s, items.Values);
      ClashMeans(db.grants, s, items);
      if clash {
        return Err(Conflict);
      }
      db := Db(With(db.grants, s, items), db.audits + [Audit(s, before, before + items.Values, true)]);
      r := Ok(());
    }

    method ReplaceGrants(s: Subject, items: map<string, Action>) returns (r: Result<(), DataError>)
      modifies this
      ensures r.Err? <==> forall i :: i in old(db).grants ==> old(db).grants[i].subject != s
      ensures r.Err? ==> r.error == NotFound && db == old(db)
      ensures r.Ok? ==>
          && Holds(old(db).grants, db.grants, s, items)
          && (forall i :: i in db.grants && i !in items ==> db.grants[i].subject != s)
          && (forall i :: i in old(db).grants && old(db).grants[i].subject != s ==> i in db.grants)
          && Enters(old(db), db, s) && db.audits[|old(db).audits|].after == items.Values
      ensures match Replace(old(db), s, items)
        case Err(e) => r == Err(e) && db == old(db)
        case Ok(db') => r == Ok(()) && db == db'
    {
      ExistingGranted(db.grants, s);
      NobodyMeans(db.grants, s);
      var rest, before, found := TakeOut(db.grants, s);
      if !found {
        return Err(NotFound);
      }
      db := Db(With(rest, s, items), db.audits + [Audit(s, before, items.Values, true)]);
      r := Ok(());
    }

    method DeleteGrants(s: Subject) returns (r: Result<(), DataError>)
      modifies this
      ensures r.Err? <==> forall i :: i in old(db).grants ==> old(db).grants[i].subject != s
      ensures r.Err? ==> r.error == NotFound && db == old(db)
      ensures r.Ok? ==>
          && (forall i :: i in db.grants <==> i in old(db).grants && old(db).grants[i].subject != s)
          && (forall i :: i in db.grants ==> db.grants[i] == old(db).grants[i])
          && Enters(old(db), db, s) && db.audits[|old(db).audits|].after == {}
      ensures match Delete(old(db), s)
        case Err(e) => r == Err(e) && db == old(db)
        case Ok(db') => r == Ok(()) && db == db'
    {
      ExistingGranted(db.grants, s);
      NobodyMeans(db.grants, s);
      var rest, before, found := TakeOut(db.grants, s);
      if !found {
        return Err(NotFound);
      }
      db := Db(rest, db.audits + [Audit(s, before, {}, true)]);
      r := Ok(());
    }

    // A refused request is entered, with what its subject is granted, if it names one.
    method RecordFailure(s: Subject)
      modifies this
      ensures db.grants == old(db).grants && |db.audits| == |old(db).audits| + 1
      ensures db.audits[..|old(db).audits|] == old(db).audits
      ensures var a := db.audits[|old(db).audits|];
        && a.subject == s && !a.success && a.before == a.after
        && (if s.user != "" && ValidResource(s.kind, s.resource) then Grants(old(db).grants, s, a.before)
            else a.before == {})
      ensures db == Failure(old(db), s)
    {
      ExistingGranted(db.grants, s);
      var actions := {};
      if s.user != "" && ValidResource(s.kind, s.resource) {
        var before, _ := Collect(db.grants, s, {});
        actions := before;
      }
      db := db.(audits := db.audits + [Audit(s, actions, actions, false)]);
    }
  }
}
