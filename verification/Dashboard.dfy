/** The operations dashboard over video accounts: filling one account's trend, and putting
    the accounts together. Days are numbered; ids stand for their place in the order that
    the database and the service share. */
module Dashboard {
  import opened Common

  type Day = int
  type Id = nat

  const TOP: nat := 20

  // ---- One account's trend ----

  // A counter's value at the end of a day, and what the day changed.
  datatype Point = Point(count: int, change: int)

  datatype Values = Values(followers: Point, views: Point, interactions: Point)

  datatype TrendPoint = TrendPoint(day: Day, values: Values)

  datatype Content = Content(source: Id, id: Id, views: int)

  datatype Daily = Daily(views: int, interactions: int)

  // Days before the range: what was last seen of each counter.
  datatype Baseline = Baseline(followers: Option<int>, content: Option<Daily>)

  function Views(content: map<Day, Daily>): map<Day, int> {
    map d | d in content :: content[d].views
  }

  function Interactions(content: map<Day, Daily>): map<Day, int> {
    map d | d in content :: content[d].interactions
  }

  function ViewsOf(d: Option<Daily>): Option<int> {
    if d.Some? then Some(d.value.views) else None
  }

  function InteractionsOf(d: Option<Daily>): Option<int> {
    if d.Some? then Some(d.value.interactions) else None
  }

  // The value known at the end of day `d`, from the observations since day `first` and
  // the baseline before it.
  function Known(seen: map<Day, int>, base: Option<int>, first: Day, d: Day): Option<int>
    decreases d - first
  {
    if d < first then base
    else if d in seen then Some(seen[d])
    else Known(seen, base, first, d - 1)
  }

  function Or0(v: Option<int>): int {
    if v.Some? then v.value else 0
  }

  // The point of day `d`: a day without observation repeats the last one, and a change is
  // only told against an earlier value.
  function PointAt(seen: map<Day, int>, base: Option<int>, first: Day, d: Day): Point {
    var before := Known(seen, base, first, d - 1);
    Point(Or0(Known(seen, base, first, d)), if d in seen && before.Some? then seen[d] - before.value else 0)
  }

  function TrendAt(account: map<Day, int>, content: map<Day, Daily>, base: Baseline, first: Day, d: Day): TrendPoint {
    TrendPoint(d,
        Values(PointAt(account, base.followers, first, d), PointAt(Views(content), ViewsOf(base.content), first, d),
                         PointAt(Interactions(content), InteractionsOf(base.content), first, d)))
  }

  method FillTrend(first: Day, last: Day, base: Baseline, account: map<Day, int>, content: map<Day, Daily>)
    returns (trend: seq<TrendPoint>)
    ensures |trend| == if last < first then 0 else last - first + 1
    ensures forall i :: 0 <= i < |trend| ==> trend[i] == TrendAt(account, content, base, first, first + i)
  {
    trend := [];
    var followers, followersKnown := Or0(base.followers), base.followers.Some?;
    var views, interactions := Or0(ViewsOf(base.content)), Or0(InteractionsOf(base.content));
    var contentKnown := base.content.Some?;
    var day := first;
    while day <= last
      invariant first <= day && |trend| == day - first && (day <= last + 1 || day == first)
      invariant forall i :: 0 <= i < |trend| ==> trend[i] == TrendAt(account, content, base, first, first + i)
      invariant Known(account, base.followers, first, day - 1) == if followersKnown then Some(followers) else None
      invariant !followersKnown ==> followers == 0
      invariant Known(Views(content), ViewsOf(base.content), first, day - 1)
          == if contentKnown then Some(views) else None
      invariant Known(Interactions(content), InteractionsOf(base.content), first, day - 1)
             == if contentKnown then Some(interactions) else None
      invariant !contentKnown ==> views == 0 && interactions == 0
    {
      var followerChange, viewChange, interactionChange := 0, 0, 0;
      if day in account {
        if followersKnown {
          followerChange := account[day] - followers;
        }
        followers, followersKnown := account[day], true;
      }
      if day in content {
        if contentKnown {
          viewChange, interactionChange := content[day].views - views, content[day].interactions - interactions;
        }
        views, interactions, contentKnown := content[day].views, content[day].interactions, true;
      }
      var values :=
          Values(Point(followers, followerChange), Point(views, viewChange), Point(interactions, interactionChange));
      trend := trend + [TrendPoint(day, values)];
      day := day + 1;
    }
  }

  // ---- All accounts ----

  datatype Totals = Totals(followers: int, following: int, published: int, collected: int, views: int, danmaku: int,
                           replies: int, favorites: int, coins: int, shares: int, likes: int, interactions: int)

  const NONE := Totals(0, 0, 0, 0, 0, 0, 0, 0, 0, 0, 0, 0)

  function Plus(a: Totals, b: Totals): Totals {
    Totals(a.followers + b.followers, a.following + b.following, a.published + b.published, a.collected + b.collected,
           a.views + b.views, a.danmaku + b.danmaku, a.replies + b.replies, a.favorites + b.favorites,
           a.coins + b.coins,
           a.shares + b.shares, a.likes + b.likes, a.interactions + b.interactions)
  }

  // What one account contributes: nothing when its data is not available.
  datatype Account = Account(name: string, available: bool, totals: Totals, captured: Time, trend: seq<TrendPoint>,
      top: seq<Content>)

  datatype View = View(totals: Totals, captured: Time, trend: seq<TrendPoint>, top: seq<Content>, missing: seq<string>)

  function SumTotals(accounts: seq<Account>): Totals {
    if accounts == [] then NONE
    else
      var a := accounts[|accounts| - 1];
      if a.available then Plus(SumTotals(accounts[..|accounts| - 1]), a.totals)
      else SumTotals(accounts[..|accounts| - 1])
  }

  function Latest(accounts: seq<Account>, zero: Time): Time {
    if accounts == [] then zero
    else
      var a, t := accounts[|accounts| - 1], Latest(accounts[..|accounts| - 1], zero);
      if a.available && a.captured > t then a.captured else t
  }

  function PlusPoint(p: Point, q: Point): Point {
    Point(p.count + q.count, p.change + q.change)
  }

  function PlusValues(p: Values, q: Values): Values {
    Values(PlusPoint(p.followers, q.followers), PlusPoint(p.views, q.views), PlusPoint(p.interactions, q.interactions))
  }

  const ZERO := Values(Point(0, 0), Point(0, 0), Point(0, 0))

  // The points of one day, added up.
  function OnDay(trend: seq<TrendPoint>, d: Day): Values {
    if trend == [] then ZERO
    else
      var p := trend[|trend| - 1];
      if p.day == d then PlusValues(OnDay(trend[..|trend| - 1], d), p.values) else OnDay(trend[..|trend| - 1], d)
  }

  function AllOnDay(accounts: seq<Account>, d: Day): Values {
    if accounts == [] then ZERO
    else
      var a, p := accounts[|accounts| - 1], AllOnDay(accounts[..|accounts| - 1], d);
      if a.available then PlusValues(p, OnDay(a.trend, d)) else p
  }

  function TopsOf(accounts: seq<Account>): seq<Content> {
    if accounts == [] then []
    else
      var a, tops := accounts[|accounts| - 1], TopsOf(accounts[..|accounts| - 1]);
      if a.available then tops + a.top else tops
  }

  function Missing(accounts: seq<Account>): seq<string> {
    if accounts == [] then []
    else
      var a, names := accounts[|accounts| - 1], Missing(accounts[..|accounts| - 1]);
      if a.available || a.name in names then names else names + [a.name]
  }

  // More views first, then by account, then by content.
  predicate Before(a: Content, b: Content) {
    || a.views > b.views
    || (a.views == b.views && a.source < b.source)
    || (a.views == b.views && a.source == b.source && a.id < b.id)
  }

  function Inserted(s: seq<Content>, c: Content): seq<Content> {
    if s == [] || Before(c, s[0]) then [c] + s else [s[0]] + Inserted(s[1..], c)
  }

  function Sorted(s: seq<Content>): seq<Content> {
    if s == [] then [] else Inserted(Sorted(s[..|s| - 1]), s[|s| - 1])
  }

  function FirstOf(s: seq<Content>): seq<Content> {
    if |s| > TOP then s[..TOP] else s
  }

  function At(byDay: map<Day, Values>, d: Day): Values {
    if d in byDay then byDay[d] else ZERO
  }

  lemma PlusAssociates(a: Values, b: Values, c: Values)
    ensures PlusValues(a, PlusValues(b, c)) == PlusValues(PlusValues(a, b), c)
  {}

  lemma AddValues(s: Values, a: Values, b: Values, c: Values)
    requires s == PlusValues(a, b)
    ensures PlusValues(s, c) == PlusValues(a, PlusValues(b, c))
  {
    PlusAssociates(a, b, c);
  }

  lemma PlusZero(a: Values)
    ensures PlusValues(a, ZERO) == a
  {}

  lemma OneMorePoint(trend: seq<TrendPoint>, p: TrendPoint, d: Day)
    ensures OnDay(trend + [p], d) == if p.day == d then PlusValues(OnDay(trend, d), p.values) else OnDay(trend, d)
  {
    assert (trend + [p])[..|trend|] == trend;
  }

  // Adding one more point of a trend to what was there adds it on its day.
  lemma AddPoint(byDay: map<Day, Values>, sum: map<Day, Values>, trend: seq<TrendPoint>, p: TrendPoint, d: Day)
    requires At(sum, d) == PlusValues(At(byDay, d), OnDay(trend, d))
    ensures At(sum[p.day := PlusValues(At(sum, p.day), p.values)], d) == PlusValues(At(byDay, d), OnDay(trend + [p], d))
  {
    OneMorePoint(trend, p, d);
    if p.day == d {
      AddValues(At(sum, d), At(byDay, d), OnDay(trend, d), p.values);
    } else {
      assert At(sum[p.day := PlusValues(At(sum, p.day), p.values)], d) == At(sum, d);
    }
  }

  method AddTrend(byDay: map<Day, Values>, trend: seq<TrendPoint>) returns (sum: map<Day, Values>)
    ensures forall d :: At(sum, d) == PlusValues(At(byDay, d), OnDay(trend, d))
  {
    sum := byDay;
    forall d
      ensures At(sum, d) == PlusValues(At(byDay, d), OnDay([], d))
    {
      PlusZero(At(byDay, d));
    }
    for i := 0 to |trend|
      invariant forall d :: At(sum, d) == PlusValues(At(byDay, d), OnDay(trend[..i], d))
    {
      var p := trend[i];
      var sum' := sum[p.day := PlusValues(At(sum, p.day), p.values)];
      assert trend[..i + 1] == trend[..i] + [p];
      forall d
        ensures At(sum', d) == PlusValues(At(byDay, d), OnDay(trend[..i + 1], d))
      {
        AddPoint(byDay, sum, trend[..i], p, d);
      }
      sum := sum';
    }
    assert trend[..|trend|] == trend;
  }

  method BilibiliView(accounts: seq<Account>, first: Day, last: Day, zero: Time) returns (v: View)
    ensures v.totals == SumTotals(accounts) && v.captured == Latest(accounts, zero) && v.missing == Missing(accounts)
    ensures |v.trend| == if last < first then 0 else last - first + 1
    ensures forall i :: 0 <= i < |v.trend| ==> v.trend[i] == TrendPoint(first + i, AllOnDay(accounts, first + i))
    ensures v.top == FirstOf(Sorted(TopsOf(accounts)))
  {
    var totals, captured, top, missing := NONE, zero, [], [];
    var byDay: map<Day, Values> := map[];
    for i := 0 to |accounts|
      invariant totals == SumTotals(accounts[..i]) && captured == Latest(accounts[..i], zero)
      invariant top == TopsOf(accounts[..i]) && missing == Missing(accounts[..i])
      invariant forall d :: At(byDay, d) == AllOnDay(accounts[..i], d)
    {
      var a := accounts[i];
      assert accounts[..i + 1][..i] == accounts[..i];
      if !a.available {
        if a.name !in missing {
          missing := missing + [a.name];
        }
        continue;
      }
      totals := Plus(totals, a.totals);
      if a.captured > captured {
        captured := a.captured;
      }
      top := top + a.top;
      byDay := AddTrend(byDay, a.trend);
    }
    assert accounts[..|accounts|] == accounts;
    var trend, day := [], first;
    while day <= last
      invariant first <= day && |trend| == day - first && (day <= last + 1 || day == first)
      invariant forall i :: 0 <= i < |trend| ==> trend[i] == TrendPoint(first + i, AllOnDay(accounts, first + i))
    {
      trend := trend + [TrendPoint(day, At(byDay, day))];
      day := day + 1;
    }
    v := View(totals, captured, trend, FirstOf(Sorted(top)), missing);
  }
}
