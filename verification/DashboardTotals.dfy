/** What the dashboard's figures mean: changes that add up to differences, comparisons with
    the value before the range, and a list of contents that is the top of all of them. */
module DashboardTotals {
  import opened Common
  import opened Dashboard

  // ---- Changes telescope ----

  // The sum of a counter's changes over the first n days of a trend.
  ghost function Changes(seen: map<Day, int>, base: Option<int>, first: Day, n: nat): int {
    if n == 0 then 0 else Changes(seen, base, first, n - 1) + PointAt(seen, base, first, first + n - 1).change
  }

  // The first value ever known: the baseline, or else the first observation.
  ghost function FirstKnown(seen: map<Day, int>, base: Option<int>, first: Day, n: nat): Option<int> {
    if n == 0 then base
    else if FirstKnown(seen, base, first, n - 1).Some? then FirstKnown(seen, base, first, n - 1)
    else Known(seen, base, first, first + n - 1)
  }

  // The changes of a range add up to the last value less the first one known.
  lemma {:induction false} ChangesTelescope(seen: map<Day, int>, base: Option<int>, first: Day, n: nat)
    ensures Known(seen, base, first, first + n - 1).Some? <==> FirstKnown(seen, base, first, n).Some?
    ensures Changes(seen, base, first, n)
        == Or0(Known(seen, base, first, first + n - 1)) - Or0(FirstKnown(seen, base, first, n))
  {
    if n > 0 {
      ChangesTelescope(seen, base, first, n - 1);
    }
  }

  ghost predicate NoneSeen(seen: map<Day, int>, from: Day, before: Day) {
    forall d :: from <= d < before ==> d !in seen
  }

  // The first value known is the baseline; without one, that of the earliest day observed,
  // if there is any.
  lemma {:induction false} FirstIsEarliest(seen: map<Day, int>, base: Option<int>, first: Day, n: nat, d: Day)
    requires first <= d < first + n
    ensures base.Some? ==> FirstKnown(seen, base, first, n) == base
    ensures base.None? && d in seen && NoneSeen(seen, first, d) ==> FirstKnown(seen, base, first, n) == Some(seen[d])
    ensures base.None? && NoneSeen(seen, first, first + n) ==> FirstKnown(seen, base, first, n) == None
  {
    LastIsLatest(seen, base, first, first + n - 1, first + n - 1);
    if d < first + n - 1 {
      FirstIsEarliest(seen, base, first, n - 1, d);
    } else if base.Some? || NoneSeen(seen, first, d) {
      FirstFrom(seen, base, first, n - 1);
    }
  }

  // Before any observation nothing but the baseline is known.
  lemma {:induction false} FirstFrom(seen: map<Day, int>, base: Option<int>, first: Day, n: nat)
    requires base.Some? || NoneSeen(seen, first, first + n)
    ensures FirstKnown(seen, base, first, n) == base
  {
    if n > 0 {
      FirstFrom(seen, base, first, n - 1);
      LastIsLatest(seen, base, first, first + n - 1, first + n - 1);
    }
  }

  // The value known at the end of a day is that of the latest day observed, or the baseline.
  lemma {:induction false} LastIsLatest(seen: map<Day, int>, base: Option<int>, first: Day, day: Day, d: Day)
    requires first <= d <= day
    ensures d in seen && NoneSeen(seen, d + 1, day + 1) ==> Known(seen, base, first, day) == Some(seen[d])
    ensures NoneSeen(seen, first, day + 1) ==> Known(seen, base, first, day) == base
    decreases day - first
  {
    if first < day && day !in seen {
      LastIsLatest(seen, base, first, day - 1, if d < day then d else day - 1);
    }
  }

  // A day's point: the value is that of the latest day observed, or the baseline, or nothing;
  // the change is against the latest value from before the day, on a day observed.
  lemma PointsMean(seen: map<Day, int>, base: Option<int>, first: Day, d: Day, e: Day)
    requires first <= e < d
    ensures d in seen ==> PointAt(seen, base, first, d).count == seen[d]
    ensures d !in seen ==>
        && PointAt(seen, base, first, d).change == 0
        && (e in seen && NoneSeen(seen, e + 1, d) ==> PointAt(seen, base, first, d).count == seen[e])
        && (NoneSeen(seen, first, d) ==> PointAt(seen, base, first, d).count == if base.Some? then base.value else 0)
    ensures d in seen ==>
        && (e in seen && NoneSeen(seen, e + 1, d) ==> PointAt(seen, base, first, d).change == seen[d] - seen[e])
        && (NoneSeen(seen, first, d) ==>
              PointAt(seen, base, first, d).change == if base.Some? then seen[d] - base.value else 0)
  {
    LastIsLatest(seen, base, first, d - 1, e);
  }

  // ---- Comparing with before the range ----

  // What a comparison takes for the value before: the first day's value less its change.
  function Previous(p: Point): int {
    p.count - p.change
  }

  // It is the baseline; without one, the first day's own observation, or nothing.
  lemma PreviousIsTheBaseline(seen: map<Day, int>, base: Option<int>, first: Day)
    ensures Previous(PointAt(seen, base, first, first)) ==
      if base.Some? then base.value else if first in seen then seen[first] else 0
  {
    assert Known(seen, base, first, first - 1) == base;
  }

  // ---- Accounts put together ----

  ghost predicate Covers(a: Account, first: Day, last: Day) {
    && |a.trend| == last - first + 1
    && forall i :: 0 <= i < |a.trend| ==> a.trend[i].day == first + i
  }

  // In a trend of consecutive days each day has just its own point.
  lemma {:induction false} OnePointPerDay(trend: seq<TrendPoint>, first: Day, d: Day)
    requires forall i :: 0 <= i < |trend| ==> trend[i].day == first + i
    ensures OnDay(trend, d) == if first <= d < first + |trend| then trend[d - first].values else ZERO
  {
    if trend != [] {
      var n := |trend| - 1;
      OnePointPerDay(trend[..n], first, d);
      if d == first + n {
        assert OnDay(trend[..n], d) == ZERO;
      }
    }
  }

  ghost function Sum(accounts: seq<Account>, f: Account -> int): int {
    if accounts == [] then 0
    else
      var a := accounts[|accounts| - 1];
      Sum(accounts[..|accounts| - 1], f) + if a.available then f(a) else 0
  }

  // One counter of a trend's points.
  datatype Counter = Followers | Views | Interactions

  function Of(v: Values, c: Counter): Point {
    match c
    case Followers => v.followers
    case Views => v.views
    case Interactions => v.interactions
  }

  function PointOn(a: Account, c: Counter, i: int): Point {
    if 0 <= i < |a.trend| then Of(a.trend[i].values, c) else Point(0, 0)
  }

  // Each day's figures are the sums of the accounts' figures of that day.
  lemma {:induction false} DaysAreSums(accounts: seq<Account>, c: Counter, first: Day, last: Day, i: nat)
    requires forall a :: a in accounts && a.available ==> Covers(a, first, last)
    requires first + i <= last
    ensures Of(AllOnDay(accounts, first + i), c).count == Sum(accounts, (a: Account) => PointOn(a, c, i).count)
    ensures Of(AllOnDay(accounts, first + i), c).change == Sum(accounts, (a: Account) => PointOn(a, c, i).change)
  {
    if accounts != [] {
      var n := |accounts| - 1;
      DaysAreSums(accounts[..n], c, first, last, i);
      if accounts[n].available {
        OnePointPerDay(accounts[n].trend, first, first + i);
      }
    }
  }

  // Every total is the sum over the available accounts.
  lemma {:induction false} TotalsAreSums(accounts: seq<Account>)
    ensures var t := SumTotals(accounts);
      && t.followers == Sum(accounts, (a: Account) => a.totals.followers)
      && t.following == Sum(accounts, (a: Account) => a.totals.following)
      && t.published == Sum(accounts, (a: Account) => a.totals.published)
      && t.collected == Sum(accounts, (a: Account) => a.totals.collected)
      && t.views == Sum(accounts, (a: Account) => a.totals.views)
      && t.danmaku == Sum(accounts, (a: Account) => a.totals.danmaku)
    ensures var t := SumTotals(accounts);
      && t.replies == Sum(accounts, (a: Account) => a.totals.replies)
      && t.favorites == Sum(accounts, (a: Account) => a.totals.favorites)
      && t.coins == Sum(accounts, (a: Account) => a.totals.coins)
      && t.shares == Sum(accounts, (a: Account) => a.totals.shares)
      && t.likes == Sum(accounts, (a: Account) => a.totals.likes)
      && t.interactions == Sum(accounts, (a: Account) => a.totals.interactions)
  {
    if accounts != [] {
      TotalsAreSums(accounts[..|accounts| - 1]);
    }
  }

  // The capture shown is the latest one of the available accounts, or the start of time.
  lemma {:induction false} LatestIsLatest(accounts: seq<Account>, zero: Time)
    ensures zero <= Latest(accounts, zero)
    ensures forall a :: a in accounts && a.available ==> a.captured <= Latest(accounts, zero)
    ensures Latest(accounts, zero) == zero ||
        exists a :: a in accounts && a.available && a.captured == Latest(accounts, zero)
  {
    if accounts != [] {
      var n := |accounts| - 1;
      LatestIsLatest(accounts[..n], zero);
      assert accounts == accounts[..n] + [accounts[n]];
      assert accounts[n] in accounts;
    }
  }

  // The missing parts are the names of the accounts without data, each once, in the order in
  // which they first come.
  lemma {:induction false} MissingAre(accounts: seq<Account>) returns (at: seq<nat>)
    ensures |at| == |Missing(accounts)| && forall i, j :: 0 <= i < j < |at| ==> at[i] < at[j]
    ensures forall i :: 0 <= i < |at| ==>
        && at[i] < |accounts| && !accounts[at[i]].available && accounts[at[i]].name == Missing(accounts)[i]
        && forall k :: 0 <= k < at[i] && !accounts[k].available ==> accounts[k].name != Missing(accounts)[i]
    ensures forall a :: a in accounts && !a.available ==> a.name in Missing(accounts)
  {
    at := [];
    if accounts != [] {
      var n := |accounts| - 1;
      at := MissingAre(accounts[..n]);
      assert accounts == accounts[..n] + [accounts[n]];
      if !accounts[n].available && accounts[n].name !in Missing(accounts[..n]) {
        forall k | 0 <= k < n && !accounts[k].available
          ensures accounts[k].name != accounts[n].name
        {
          assert accounts[k] in accounts[..n];
        }
        at := at + [n];
      }
    }
  }

  // ---- The changes of all accounts telescope ----

  // What was observed of one account, and its figures from before the range.
  datatype Observed = Observed(account: map<Day, int>, content: map<Day, Daily>, base: Baseline)

  function SeenOf(o: Observed, c: Counter): map<Day, int> {
    match c
    case Followers => o.account
    case Views => Dashboard.Views(o.content)
    case Interactions => Dashboard.Interactions(o.content)
  }

  function BaseOf(o: Observed, c: Counter): Option<int> {
    match c
    case Followers => o.base.followers
    case Views => ViewsOf(o.base.content)
    case Interactions => InteractionsOf(o.base.content)
  }

  // An account's trend is the one filled from what was observed of it.
  ghost predicate IsFilled(a: Account, o: Observed, first: Day, n: nat) {
    |a.trend| == n && forall i :: 0 <= i < n ==> a.trend[i] == TrendAt(o.account, o.content, o.base, first, first + i)
  }

  // The changes of n days added up, over all accounts and in one account's trend.
  ghost function AllChanges(accounts: seq<Account>, c: Counter, first: Day, n: nat): int {
    if n == 0 then 0
    else AllChanges(accounts, c, first, n - 1) + Of(AllOnDay(accounts, first + n - 1), c).change
  }

  ghost function OwnChanges(a: Account, c: Counter, first: Day, n: nat): int {
    if n == 0 then 0 else OwnChanges(a, c, first, n - 1) + Of(OnDay(a.trend, first + n - 1), c).change
  }

  // What is known last of the counters of all available accounts, and what first.
  ghost function SumLast(accounts: seq<Account>, seen: seq<Observed>, c: Counter, first: Day, n: nat): int
    requires |seen| == |accounts|
  {
    if accounts == [] then 0
    else
      var k := |accounts| - 1;
      SumLast(accounts[..k], seen[..k], c, first, n)
      + if accounts[k].available then Or0(Known(SeenOf(seen[k], c), BaseOf(seen[k], c), first, first + n - 1)) else 0
  }

  ghost function SumFirst(accounts: seq<Account>, seen: seq<Observed>, c: Counter, first: Day, n: nat): int
    requires |seen| == |accounts|
  {
    if accounts == [] then 0
    else
      var k := |accounts| - 1;
      SumFirst(accounts[..k], seen[..k], c, first, n)
      + if accounts[k].available then Or0(FirstKnown(SeenOf(seen[k], c), BaseOf(seen[k], c), first, n)) else 0
  }

  lemma {:induction false} NoChanges(c: Counter, first: Day, n: nat)
    ensures AllChanges([], c, first, n) == 0
  {
    if n > 0 {
      NoChanges(c, first, n - 1);
    }
  }

  // The last account adds its own changes, when it is available.
  lemma {:induction false} LastAccountAdds(accounts: seq<Account>, c: Counter, first: Day, n: nat)
    requires accounts != []
    ensures var k := |accounts| - 1;
      AllChanges(accounts, c, first, n) == AllChanges(accounts[..k], c, first, n)
        + if accounts[k].available then OwnChanges(accounts[k], c, first, n) else 0
  {
    if n > 0 {
      LastAccountAdds(accounts, c, first, n - 1);
    }
  }

  // In a filled trend these are the changes of the counter.
  lemma {:induction false} OwnChangesAre(a: Account, o: Observed, c: Counter, first: Day, days: nat, n: nat)
    requires IsFilled(a, o, first, days) && n <= days
    ensures OwnChanges(a, c, first, n) == Changes(SeenOf(o, c), BaseOf(o, c), first, n)
  {
    if n > 0 {
      OwnChangesAre(a, o, c, first, days, n - 1);
      OnePointPerDay(a.trend, first, first + n - 1);
      assert a.trend[n - 1] == TrendAt(o.account, o.content, o.base, first, first + n - 1);
    }
  }

  // The changes that the dashboard shows for all accounts add up, over any first n days of
  // its range, to what is known last of the available accounts less what was known first.
  lemma {:induction false} AllChangesTelescope(
    accounts: seq<Account>, seen: seq<Observed>, c: Counter, first: Day, days: nat, n: nat)
    requires |seen| == |accounts| && n <= days
    requires forall k :: 0 <= k < |accounts| && accounts[k].available ==> IsFilled(accounts[k], seen[k], first, days)
    ensures AllChanges(accounts, c, first, n)
         == SumLast(accounts, seen, c, first, n) - SumFirst(accounts, seen, c, first, n)
  {
    if accounts == [] {
      NoChanges(c, first, n);
    } else {
      var k := |accounts| - 1;
      AllChangesTelescope(accounts[..k], seen[..k], c, first, days, n);
      LastAccountAdds(accounts, c, first, n);
      if accounts[k].available {
        OwnChangesAre(accounts[k], seen[k], c, first, days, n);
        ChangesTelescope(SeenOf(seen[k], c), BaseOf(seen[k], c), first, n);
      }
    }
  }

  lemma {:induction false} SumOfDifferences(accounts: seq<Account>, f: Account -> int, g: Account -> int)
    ensures Sum(accounts, f) - Sum(accounts, g) == Sum(accounts, (a: Account) => f(a) - g(a))
  {
    if accounts != [] {
      SumOfDifferences(accounts[..|accounts| - 1], f, g);
    }
  }

  // The value that the comparison of all accounts takes for before the range is the sum of
  // what the accounts' own comparisons take.
  lemma PreviousIsTheSum(accounts: seq<Account>, c: Counter, first: Day, last: Day)
    requires forall a :: a in accounts && a.available ==> Covers(a, first, last)
    requires first <= last
    ensures Previous(Of(AllOnDay(accounts, first), c)) == Sum(accounts, (a: Account) => Previous(PointOn(a, c, 0)))
  {
    DaysAreSums(accounts, c, first, last, 0);
    var count, change := (a: Account) => PointOn(a, c, 0).count, (a: Account) => PointOn(a, c, 0).change;
    SumOfDifferences(accounts, count, change);
    SameSum(accounts, (a: Account) => count(a) - change(a), (a: Account) => Previous(PointOn(a, c, 0)));
  }

  lemma {:induction false} SameSum(accounts: seq<Account>, f: Account -> int, g: Account -> int)
    requires forall a :: f(a) == g(a)
    ensures Sum(accounts, f) == Sum(accounts, g)
  {
    if accounts != [] {
      SameSum(accounts[..|accounts| - 1], f, g);
    }
  }

  // ---- The top of all contents ----

  ghost predicate InOrder(s: seq<Content>) {
    forall i, j :: 0 <= i < j < |s| ==> Before(s[i], s[j])
  }

  // The top of some contents: in order, as many as are wanted or there are, and before
  // all the others.
  ghost predicate IsTop(top: seq<Content>, all: set<Content>) {
    && InOrder(top) && (forall c :: c in top ==> c in all)
    && |top| == (if |all| > TOP then TOP else |all|)
    && forall c, t :: c in all && c !in top && t in top ==> Before(t, c)
  }

  ghost function Elements(s: seq<Content>): set<Content> {
    set c | c in s
  }

  // One entry per content: two entries with the same ids are the same.
  ghost predicate OneEach(all: set<Content>) {
    forall a, b :: a in all && b in all && a.source == b.source && a.id == b.id ==> a == b
  }

  lemma OrderIsTotal(all: set<Content>, a: Content, b: Content)
    requires OneEach(all) && a in all && b in all && a != b
    ensures Before(a, b) <==> !Before(b, a)
  {}

  lemma {:induction false} InsertedInOrder(s: seq<Content>, c: Content, all: set<Content>)
    requires InOrder(s) && OneEach(all) && c in all && c !in s && forall d :: d in s ==> d in all
    ensures InOrder(Inserted(s, c)) && Elements(Inserted(s, c)) == Elements(s) + {c} && |Inserted(s, c)| == |s| + 1
  {
    if s != [] && !Before(c, s[0]) {
      OrderIsTotal(all, c, s[0]);
      var r := Inserted(s[1..], c);
      InsertedInOrder(s[1..], c, all);
      assert s == [s[0]] + s[1..];
      forall j | 0 <= j < |r|
        ensures Before(s[0], r[j])
      {
        assert r[j] in Elements(r);
      }
    } else if s != [] {
      forall j | 0 <= j < |s|
        ensures Before(c, s[j])
      {}
    }
  }

  // Sorting puts distinct contents in order and keeps them all.
  lemma {:induction false} SortedInOrder(s: seq<Content>)
    requires Distinct(s) && OneEach(Elements(s))
    ensures InOrder(Sorted(s)) && Elements(Sorted(s)) == Elements(s) && |Sorted(s)| == |s|
  {
    if s != [] {
      var n := |s| - 1;
      assert s == s[..n] + [s[n]];
      SortedInOrder(s[..n]);
      assert s[n] !in Elements(s[..n]) && Elements(s) == Elements(s[..n]) + {s[n]};
      forall d | d in Sorted(s[..n])
        ensures d in Elements(s[..n])
      {
        assert d in Elements(Sorted(s[..n]));
      }
      InsertedInOrder(Sorted(s[..n]), s[n], Elements(s));
    }
  }

  lemma {:induction false} DistinctSize(s: seq<Content>)
    requires Distinct(s)
    ensures |Elements(s)| == |s|
  {
    if s != [] {
      var n := |s| - 1;
      DistinctSize(s[..n]);
      assert s == s[..n] + [s[n]];
      assert Elements(s) == Elements(s[..n]) + {s[n]};
    }
  }

  // The first of the sorted contents are their top.
  lemma FirstIsTop(s: seq<Content>)
    requires Distinct(s) && OneEach(Elements(s))
    ensures IsTop(FirstOf(Sorted(s)), Elements(s))
  {
    SortedInOrder(s);
    DistinctSize(s);
    var r := Sorted(s);
    forall c | c in r
      ensures c in Elements(s)
    {
      assert c in Elements(r);
    }
    assert forall k :: 0 <= k < |FirstOf(r)| ==> FirstOf(r)[k] == r[k] && r[k] in FirstOf(r);
    forall c, t | c in Elements(s) && c !in FirstOf(r) && t in FirstOf(r)
      ensures Before(t, c)
    {
      assert c in Elements(r);
      var i :| 0 <= i < |r| && r[i] == c;
      var j :| 0 <= j < |FirstOf(r)| && FirstOf(r)[j] == t;
    }
  }

  // Fewer contents come before one of the top than there are places.
  lemma FewBefore(top: seq<Content>, all: set<Content>, y: Content, some: set<Content>)
    requires IsTop(top, all) && OneEach(all) && y in top
    requires some <= all && forall z :: z in some ==> Before(z, y)
    ensures |some| < TOP
  {
    var k :| 0 <= k < |top| && top[k] == y;
    forall z | z in some
      ensures z in Elements(top[..k])
    {
      assert !Before(y, z);
      var i :| 0 <= i < |top| && top[i] == z;
      assert i < k;
      assert top[..k][i] == z;
    }
    InOrderIsDistinct(top);
    assert Distinct(top[..k]);
    DistinctSize(top[..k]);
    SmallerSet(some, Elements(top[..k]));
  }

  lemma InOrderIsDistinct(s: seq<Content>)
    requires InOrder(s)
    ensures Distinct(s)
  {}

  lemma SameSizeSame(a: set<Content>, b: set<Content>)
    requires a <= b && |a| == |b|
    ensures a == b
  {
    if x :| x in b && x !in a {
      SmallerSet(a, b - {x});
    }
  }

  // A top that leaves something out has all its places taken.
  lemma FullWhenLeavingOut(top: seq<Content>, all: set<Content>, c: Content)
    requires IsTop(top, all) && c in all && c !in top
    ensures |Elements(top)| == TOP && |top| == TOP
  {
    InOrderIsDistinct(top);
    DistinctSize(top);
    if |all| <= TOP {
      SameSizeSame(Elements(top), all);
    }
  }

  // ---- All accounts' contents ----

  // `owned` are the contents of the accounts; each account has its own source.
  ghost predicate Tops(accounts: seq<Account>, owned: seq<set<Content>>, ids: seq<Id>) {
    && |owned| == |accounts| && |ids| == |accounts| && Distinct(ids)
    && forall i :: 0 <= i < |accounts| ==> TopOfOne(accounts[i], owned[i], ids[i])
  }

  ghost predicate TopOfOne(a: Account, owned: set<Content>, id: Id) {
    (forall c :: c in owned ==> c.source == id) && OneEach(owned) && (a.available ==> IsTop(a.top, owned))
  }

  ghost function AllOf(accounts: seq<Account>, owned: seq<set<Content>>): set<Content>
    requires |owned| == |accounts|
  {
    if accounts == [] then {}
    else
      var n := |accounts| - 1;
      AllOf(accounts[..n], owned[..n]) + if accounts[n].available then owned[n] else {}
  }

  lemma {:induction false} OwnersOf(accounts: seq<Account>, owned: seq<set<Content>>, ids: seq<Id>, c: Content)
    requires Tops(accounts, owned, ids)
    ensures c in AllOf(accounts, owned) <==> exists i :: 0 <= i < |accounts| && accounts[i].available && c in owned[i]
    ensures c in TopsOf(accounts) <==> exists i :: 0 <= i < |accounts| && accounts[i].available && c in accounts[i].top
  {
    if accounts != [] {
      var n := |accounts| - 1;
      OwnersOf(accounts[..n], owned[..n], ids[..n], c);
    }
  }

  lemma AllHasOneEach(accounts: seq<Account>, owned: seq<set<Content>>, ids: seq<Id>)
    requires Tops(accounts, owned, ids)
    ensures OneEach(AllOf(accounts, owned)) && Elements(TopsOf(accounts)) <= AllOf(accounts, owned)
  {
    var all := AllOf(accounts, owned);
    forall a, b | a in all && b in all && a.source == b.source && a.id == b.id
      ensures a == b
    {
      OwnersOf(accounts, owned, ids, a);
      OwnersOf(accounts, owned, ids, b);
      var i :| 0 <= i < |accounts| && accounts[i].available && a in owned[i];
      var j :| 0 <= j < |accounts| && accounts[j].available && b in owned[j];
      assert TopOfOne(accounts[i], owned[i], ids[i]) && TopOfOne(accounts[j], owned[j], ids[j]);
      assert i == j;
    }
    forall c | c in TopsOf(accounts)
      ensures c in all
    {
      OwnersOf(accounts, owned, ids, c);
      var i :| 0 <= i < |accounts| && accounts[i].available && c in accounts[i].top;
      assert TopOfOne(accounts[i], owned[i], ids[i]);
    }
  }

  lemma DistinctTogether(a: seq<Content>, b: seq<Content>)
    requires Distinct(a) && Distinct(b) && forall c :: c in a ==> c !in b
    ensures Distinct(a + b)
  {
    forall i, j | 0 <= i < j < |a + b|
      ensures (a + b)[i] != (a + b)[j]
    {
      if i < |a| <= j {
        assert (a + b)[i] in a && (a + b)[j] == b[j - |a|];
      }
    }
  }

  lemma {:induction false} TopsAreDistinct(accounts: seq<Account>, owned: seq<set<Content>>, ids: seq<Id>)
    requires Tops(accounts, owned, ids)
    ensures Distinct(TopsOf(accounts))
  {
    if accounts != [] {
      var n := |accounts| - 1;
      TopsAreDistinct(accounts[..n], owned[..n], ids[..n]);
      var front, a := TopsOf(accounts[..n]), accounts[n];
      if a.available {
        assert TopOfOne(a, owned[n], ids[n]);
        InOrderIsDistinct(a.top);
        forall c | c in front
          ensures c !in a.top
        {
          OwnersOf(accounts[..n], owned[..n], ids[..n], c);
          var i :| 0 <= i < n && accounts[i].available && c in accounts[i].top;
          assert TopOfOne(accounts[i], owned[i], ids[i]) && ids[i] != ids[n];
        }
        DistinctTogether(front, a.top);
      }
    }
  }

  lemma OneOwner(accounts: seq<Account>, owned: seq<set<Content>>, ids: seq<Id>, i: nat, j: nat, c: Content)
    requires Tops(accounts, owned, ids) && i < |accounts| && j < |accounts| && c in owned[i] && c in owned[j]
    ensures i == j
  {
    assert TopOfOne(accounts[i], owned[i], ids[i]) && TopOfOne(accounts[j], owned[j], ids[j]);
  }

  lemma NotAmongTops(accounts: seq<Account>, owned: seq<set<Content>>, ids: seq<Id>, i: nat, c: Content)
    requires Tops(accounts, owned, ids) && i < |accounts| && accounts[i].available && c in owned[i]
        && c !in accounts[i].top
    ensures c !in TopsOf(accounts)
  {
    OwnersOf(accounts, owned, ids, c);
    forall j | 0 <= j < |accounts| && accounts[j].available
      ensures c !in accounts[j].top
    {
      assert TopOfOne(accounts[j], owned[j], ids[j]);
      if c in owned[j] {
        OneOwner(accounts, owned, ids, i, j, c);
      }
    }
  }

  // A content left out of its account's top is behind all of the top of the tops.
  lemma BehindItsOwnTop(
      accounts: seq<Account>, owned: seq<set<Content>>, ids: seq<Id>, top: seq<Content>, i: nat, c: Content, y: Content)
    requires Tops(accounts, owned, ids) && IsTop(top, Elements(TopsOf(accounts)))
    requires i < |accounts| && accounts[i].available && c in owned[i] && c !in accounts[i].top && y in top
    ensures Before(y, c)
  {
    AllHasOneEach(accounts, owned, ids);
    var all, mine := AllOf(accounts, owned), accounts[i].top;
    OwnersOf(accounts, owned, ids, c);
    assert TopOfOne(accounts[i], owned[i], ids[i]);
    NotAmongTops(accounts, owned, ids, i, c);
    assert y in Elements(TopsOf(accounts));
    if !Before(y, c) {
      OrderIsTotal(all, y, c);
      FullWhenLeavingOut(mine, owned[i], c);
      forall z | z in Elements(mine)
        ensures Before(z, y) && z in Elements(TopsOf(accounts))
      {
        assert Before(z, c);
        OwnersOf(accounts, owned, ids, z);
        assert accounts[i].available && z in accounts[i].top;
      }
      FewBefore(top, Elements(TopsOf(accounts)), y, Elements(mine));
    }
  }

  // With places left, the accounts' tops leave nothing out.
  lemma NothingLeftOut(accounts: seq<Account>, owned: seq<set<Content>>, ids: seq<Id>, c: Content)
    requires Tops(accounts, owned, ids) && |TopsOf(accounts)| < TOP && c in AllOf(accounts, owned)
    ensures c in TopsOf(accounts)
  {
    OwnersOf(accounts, owned, ids, c);
    var i :| 0 <= i < |accounts| && accounts[i].available && c in owned[i];
    assert TopOfOne(accounts[i], owned[i], ids[i]);
    if c !in accounts[i].top {
      FullWhenLeavingOut(accounts[i].top, owned[i], c);
      TopsAreDistinct(accounts, owned, ids);
      DistinctSize(TopsOf(accounts));
      forall z | z in Elements(accounts[i].top)
        ensures z in Elements(TopsOf(accounts))
      {
        OwnersOf(accounts, owned, ids, z);
      }
      SmallerSet(Elements(accounts[i].top), Elements(TopsOf(accounts)));
    }
  }

  // The dashboard's list, made from the accounts' own tops, is the top of all contents of
  // the available accounts.
  lemma TopOfTops(accounts: seq<Account>, owned: seq<set<Content>>, ids: seq<Id>)
    requires Tops(accounts, owned, ids)
    ensures IsTop(FirstOf(Sorted(TopsOf(accounts))), AllOf(accounts, owned))
  {
    var all, merged := AllOf(accounts, owned), TopsOf(accounts);
    var top := FirstOf(Sorted(merged));
    AllHasOneEach(accounts, owned, ids);
    TopsAreDistinct(accounts, owned, ids);
    FirstIsTop(merged);
    DistinctSize(merged);
    SmallerSet(Elements(merged), all);
    if |merged| < TOP {
      forall c | c in all
        ensures c in Elements(merged)
      {
        NothingLeftOut(accounts, owned, ids, c);
      }
      assert all == Elements(merged);
    } else {
      forall c, y | c in all && c !in top && y in top
        ensures Before(y, c)
      {
        if c !in merged {
          OwnersOf(accounts, owned, ids, c);
          var i: nat :| i < |accounts| && accounts[i].available && c in owned[i];
          assert !(accounts[i].available && c in accounts[i].top);
          BehindItsOwnTop(accounts, owned, ids, top, i, c, y);
        } else {
          assert c in Elements(merged);
        }
      }
    }
  }

  // So it shows the most viewed contents, up to twenty, most viewed first and those with as
  // many views by account and id; what is left out is no more viewed than any of them.
  lemma MostViewedAreShown(accounts: seq<Account>, owned: seq<set<Content>>, ids: seq<Id>)
    requires Tops(accounts, owned, ids)
    ensures var top, all := FirstOf(Sorted(TopsOf(accounts))), AllOf(accounts, owned);
      && |top| == (if |all| > 20 then 20 else |all|) && (forall c :: c in top ==> c in all)
      && (forall i, j :: 0 <= i < j < |top| ==>
            && top[i].views >= top[j].views
            && (top[i].views == top[j].views ==> top[i].source <= top[j].source)
            && (top[i].views == top[j].views && top[i].source == top[j].source ==> top[i].id < top[j].id))
      && (forall c, k :: c in all && c !in top && 0 <= k < |top| ==>
            && c.views <= top[k].views
            && (c.views == top[k].views ==> top[k].source <= c.source)
            && (c.views == top[k].views && c.source == top[k].source ==> top[k].id < c.id))
  {
    TopOfTops(accounts, owned, ids);
    var top, all := FirstOf(Sorted(TopsOf(accounts))), AllOf(accounts, owned);
    forall c, k | c in all && c !in top && 0 <= k < |top|
      ensures Before(top[k], c)
    {
      assert top[k] in top;
    }
  }

  // There is only one top.
  lemma TopIsUnique(a: seq<Content>, b: seq<Content>, all: set<Content>)
    requires IsTop(a, all) && IsTop(b, all) && OneEach(all)
    ensures a == b
  {
    forall c | c in a
      ensures c in b
    {
      Contained(a, b, all, c);
    }
    forall c | c in b
      ensures c in a
    {
      Contained(b, a, all, c);
    }
    assert Elements(a) == Elements(b);
    SameOrder(a, b);
  }

  lemma Contained(a: seq<Content>, b: seq<Content>, all: set<Content>, c: Content)
    requires IsTop(a, all) && IsTop(b, all) && OneEach(all) && c in a
    ensures c in b
  {
    if c !in b {
      FullWhenLeavingOut(b, all, c);
      FewBefore(a, all, c, Elements(b));
    }
  }

  lemma HeadComesFirst(s: seq<Content>, c: Content)
    requires InOrder(s) && c in s
    ensures c == s[0] || Before(s[0], c)
  {
    var i :| 0 <= i < |s| && s[i] == c;
  }

  lemma {:induction false} SameOrder(a: seq<Content>, b: seq<Content>)
    requires InOrder(a) && InOrder(b) && Elements(a) == Elements(b)
    ensures a == b
  {
    InOrderIsDistinct(a);
    InOrderIsDistinct(b);
    DistinctSize(a);
    DistinctSize(b);
    if a != [] {
      assert a[0] in Elements(b) && b[0] in Elements(a);
      HeadComesFirst(b, a[0]);
      HeadComesFirst(a, b[0]);
      assert a == [a[0]] + a[1..] && b == [b[0]] + b[1..];
      forall c | c in a[1..]
        ensures c in b[1..]
      {
        assert c in Elements(b) && c != a[0];
      }
      forall c | c in b[1..]
        ensures c in a[1..]
      {
        assert c in Elements(a) && c != b[0];
      }
      assert Elements(a[1..]) == Elements(b[1..]);
      SameOrder(a[1..], b[1..]);
    }
  }
}
