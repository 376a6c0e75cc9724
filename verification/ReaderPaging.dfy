/** What paging through a report's records gives: every matching line of every selected
    part, once and in order, exactly when each such line is well formed up to its last
    fragment. */
module ReaderPaging {
  import opened Common
  import opened Utf8
  import opened FeedbackReader

  // ---- The reference: lines of parts ----

  datatype Line = Line(artifact: string, source: string, offset: nat, text: Bytes)

  ghost function LinesOf(p: Part, o: nat): seq<Line>
    requires o <= |p.content|
    decreases |p.content| - o
  {
    if o == |p.content| then []
    else [Line(p.id, p.source, o, TextAt(p.content, o))] + LinesOf(p, LineEnd(p.content, o))
  }

  ghost function AllLines(parts: seq<Part>): seq<Line> {
    if parts == [] then [] else LinesOf(parts[0], 0) + AllLines(parts[1..])
  }

  ghost function Matching(lines: seq<Line>, f: Filter): seq<Line> {
    if lines == [] then []
    else (if Matches(f, lines[0].text) then [lines[0]] else []) + Matching(lines[1..], f)
  }

  // The lines of a part make up its content: joined by newlines they give it back, and no
  // line has a newline inside.
  ghost function Content(lines: seq<Line>): Bytes {
    if lines == [] then [] else lines[0].text + [NEWLINE] + Content(lines[1..])
  }

  lemma {:induction false} LinesTileContent(p: Part, o: nat)
    requires o <= |p.content|
    ensures Content(LinesOf(p, o)) == p.content[o..] || Content(LinesOf(p, o)) == p.content[o..] + [NEWLINE]
    decreases |p.content| - o
  {
    if o < |p.content| {
      var e, text := LineEnd(p.content, o), TextAt(p.content, o);
      LinesTileContent(p, e);
      assert LinesOf(p, o)[0].text == text && LinesOf(p, o)[1..] == LinesOf(p, e);
      LineAndRest(p.content, o);
      if e == |p.content| {
        assert LinesOf(p, e) == [];
      }
    }
  }

  // A line, its newline unless it is the last without one, and the rest.
  lemma LineAndRest(t: Bytes, o: nat)
    requires o < |t|
    ensures var e := LineEnd(t, o);
      t[o..] == TextAt(t, o) + [NEWLINE] + t[e..] || (e == |t| && t[o..] == TextAt(t, o))
  {
    var e := LineEnd(t, o);
    LineIsOne(t, o);
    assert t[o..] == t[o..e] + t[e..];
    if t[e - 1] == NEWLINE {
      assert t[o..e] == TextAt(t, o) + [NEWLINE];
    } else {
      assert t[o..e] == TextAt(t, o) && t[e..] == [];
    }
  }

  lemma {:induction false} LinesAreSingle(p: Part, o: nat)
    requires o <= |p.content|
    ensures forall l :: l in LinesOf(p, o) ==> NEWLINE !in l.text
    decreases |p.content| - o
  {
    if o < |p.content| {
      LineIsOne(p.content, o);
      LinesAreSingle(p, LineEnd(p.content, o));
    }
  }

  // A line goes up to the next newline, or to the end.
  lemma {:induction false} LineEndIsNext(t: Bytes, o: nat)
    requires o < |t|
    ensures t[LineEnd(t, o) - 1] == NEWLINE || LineEnd(t, o) == |t|
    ensures forall i :: o <= i < LineEnd(t, o) - 1 ==> t[i] != NEWLINE
    decreases |t| - o
  {
    if t[o] != NEWLINE && o + 1 < |t| {
      LineEndIsNext(t, o + 1);
    }
  }

  lemma LineIsOne(t: Bytes, o: nat)
    requires o < |t|
    ensures NEWLINE !in TextAt(t, o)
    ensures t[LineEnd(t, o) - 1] == NEWLINE || LineEnd(t, o) == |t|
  {
    LineEndIsNext(t, o);
    var line, text := t[o..LineEnd(t, o)], TextAt(t, o);
    forall i | 0 <= i < |text|
      ensures text[i] != NEWLINE
    {
      assert text[i] == line[i] == t[o + i];
    }
  }

  // ---- Everything that is still to come ----

  function SizeAt(parts: seq<Part>, c: Cursor): nat {
    if c.part < |parts| then |parts[c.part].content| else 0
  }

  // The records still to come after a cursor; none are when reading no longer moves on.
  ghost function Remaining(parts: seq<Part>, f: Filter, c: Cursor): Option<seq<Record>>
    requires CursorIn(parts, c)
    decreases |parts| - c.part, SizeAt(parts, c) - c.offset, SizeAt(parts, c) - c.fragment
  {
    if c.part == |parts| then Some([])
    else
      match Step(parts, f, c)
      case Refused => None
      case Moved(emitted, _, to) =>
        if to == c then None
        else
          match Remaining(parts, f, to)
          case None => None
          case Some(rest) => Some(emitted + rest)
  }

  // Records of one line put together again.
  ghost function Joined(records: seq<Record>): seq<Line> {
    if records == [] then []
    else
      var r, rest := records[0], Joined(records[1..]);
      if r.continuation && rest != [] then [Line(r.artifact, r.source, r.offset, r.text + rest[0].text)] + rest[1..]
      else [Line(r.artifact, r.source, r.offset, r.text)] + rest
  }

  // The matching lines from a cursor on, the first without its part before the cursor.
  ghost function Expected(parts: seq<Part>, f: Filter, c: Cursor): seq<Line>
    requires CursorIn(parts, c)
  {
    if c.part == |parts| then []
    else if c.offset == SizeAt(parts, c) then Matching(AllLines(parts[c.part + 1..]), f)
    else Current(parts, f, c) + Matching(After(parts, c), f)
  }

  ghost function After(parts: seq<Part>, c: Cursor): seq<Line>
    requires CursorIn(parts, c) && c.part < |parts| && c.offset < SizeAt(parts, c)
  {
    LinesOf(parts[c.part], LineEnd(parts[c.part].content, c.offset)) + AllLines(parts[c.part + 1..])
  }

  ghost function Current(parts: seq<Part>, f: Filter, c: Cursor): seq<Line>
    requires CursorIn(parts, c) && c.part < |parts| && c.offset < SizeAt(parts, c)
  {
    var p := parts[c.part];
    var text := TextAt(p.content, c.offset);
    if c.fragment <= |text| && Matches(f, text) then [Line(p.id, p.source, c.offset, text[c.fragment..])] else []
  }

  lemma FirstLine(parts: seq<Part>, c: Cursor)
    requires CursorIn(parts, c) && c.part < |parts| && c.offset < SizeAt(parts, c)
    ensures LinesOf(parts[c.part], c.offset) + AllLines(parts[c.part + 1..])
         == [Line(parts[c.part].id, parts[c.part].source, c.offset,
             TextAt(parts[c.part].content, c.offset))] + After(parts, c)
  {}

  lemma MatchingFirst(line: Line, lines: seq<Line>, f: Filter)
    ensures Matching([line] + lines, f) == (if Matches(f, line.text) then [line] else []) + Matching(lines, f)
  {
    assert ([line] + lines)[1..] == lines;
  }

  // At the start of a line the matching lines from there on are expected.
  lemma AtLineStart(parts: seq<Part>, f: Filter, c: Cursor)
    requires CursorIn(parts, c) && c.part < |parts| && c.fragment == 0
    ensures Expected(parts, f, c) == Matching(LinesOf(parts[c.part], c.offset) + AllLines(parts[c.part + 1..]), f)
  {
    var p, rest := parts[c.part], AllLines(parts[c.part + 1..]);
    if c.offset == |p.content| {
      assert LinesOf(p, c.offset) + rest == rest;
    } else {
      var text := TextAt(p.content, c.offset);
      assert text[0..] == text;
      FirstLine(parts, c);
      MatchingFirst(Line(p.id, p.source, c.offset, text), After(parts, c), f);
    }
  }

  lemma AtPartStart(parts: seq<Part>, f: Filter, i: nat)
    requires i <= |parts|
    ensures CursorIn(parts, Cursor(i, 0, 0)) && Expected(parts, f, Cursor(i, 0, 0)) == Matching(AllLines(parts[i..]), f)
  {
    if i < |parts| {
      AtLineStart(parts, f, Cursor(i, 0, 0));
      assert parts[i..][1..] == parts[i + 1..];
    } else {
      assert parts[i..] == [];
    }
  }

  // ---- When reading reaches the end ----

  // The well-formed part of the text reaches to within one fragment of its end.
  predicate Passable(text: Bytes) {
    |text| - SoundLength(text) <= FRAGMENT
  }

  ghost predicate AllPassable(lines: seq<Line>) {
    forall l :: l in lines ==> Passable(l.text)
  }

  // Taking one fragment off a long text: it moves on just when some of the text is well
  // formed, and leaves a text that is passable just when the whole is.
  lemma TakeKeepsPassable(text: Bytes)
    requires |text| > FRAGMENT
    ensures Take(text) > 0 <==> SoundLength(text) > 0
    ensures Take(text) == 0 ==> !Passable(text)
    ensures Passable(text[Take(text)..]) <==> Passable(text)
  {
    CutProgress(text, FRAGMENT);
    CutIsValid(text, FRAGMENT);
    SoundAfterPrefix(text, Take(text));
  }

  ghost predicate WithinLine(parts: seq<Part>, c: Cursor)
    requires CursorIn(parts, c)
  {
    c.part < |parts| ==>
      c.fragment <= if c.offset < SizeAt(parts, c) then |TextAt(parts[c.part].content, c.offset)| else 0
  }

  // One move takes just its records off what is expected, given what comes after it.
  ghost predicate MoveAgrees(parts: seq<Part>, f: Filter, c: Cursor, m: Move, rest: seq<Record>)
    requires CursorIn(parts, c) && m.Moved? && CursorIn(parts, m.to)
  {
    && WithinLine(parts, m.to)
    && (AllPassable(Expected(parts, f, c)) <==> m.to != c && AllPassable(Expected(parts, f, m.to)))
    && (m.to != c && Joined(rest) == Expected(parts, f, m.to) ==> Joined(m.emitted + rest) == Expected(parts, f, c))
  }

  lemma PartEndAgrees(parts: seq<Part>, f: Filter, c: Cursor, rest: seq<Record>)
    requires CursorIn(parts, c) && c.part < |parts| && c.offset == SizeAt(parts, c)
    ensures Step(parts, f, c).Moved? && MoveAgrees(parts, f, c, Step(parts, f, c), rest)
  {
    AtPartStart(parts, f, c.part + 1);
    assert [] + rest == rest;
  }

  // Behind a line the lines after it are expected.
  lemma BehindLine(parts: seq<Part>, f: Filter, c: Cursor) returns (next: Cursor)
    requires CursorIn(parts, c) && c.part < |parts| && c.offset < SizeAt(parts, c)
    ensures next == Cursor(c.part, LineEnd(parts[c.part].content, c.offset), 0) && next != c
    ensures CursorIn(parts, next) && WithinLine(parts, next) && Expected(parts, f, next) == Matching(After(parts, c), f)
  {
    next := Cursor(c.part, LineEnd(parts[c.part].content, c.offset), 0);
    AtLineStart(parts, f, next);
  }

  // A line that does not match is passed over.
  lemma PassedOver(parts: seq<Part>, f: Filter, c: Cursor, rest: seq<Record>)
    requires CursorIn(parts, c) && c.part < |parts| && c.offset < SizeAt(parts, c) && WithinLine(parts, c)
    requires !Matches(f, TextAt(parts[c.part].content, c.offset))
    ensures Step(parts, f, c).Moved? && MoveAgrees(parts, f, c, Step(parts, f, c), rest)
  {
    var next := BehindLine(parts, f, c);
    assert [] + rest == rest;
  }

  // The last record of a line holds all that is left of it.
  lemma LineEndMove(parts: seq<Part>, f: Filter, c: Cursor, text: Bytes)
    requires CursorIn(parts, c) && c.part < |parts| && c.offset < SizeAt(parts, c) && c.fragment <= |text|
    requires text == TextAt(parts[c.part].content, c.offset) && Matches(f, text)
    requires Step(parts, f, c).Moved? && Step(parts, f, c).to.offset > c.offset
    ensures var p, m := parts[c.part], Step(parts, f, c);
      && |text[c.fragment..]| <= FRAGMENT && m.to == Cursor(c.part, LineEnd(p.content, c.offset), 0)
      && m.emitted == [Record(p.id, p.source, c.offset, c.fragment, text[c.fragment..], false)]
  {
    assert text[c.fragment..|text|] == text[c.fragment..];
  }

  lemma JoinedBefore(r: Record, rest: seq<Record>)
    requires !r.continuation
    ensures Joined([r] + rest) == [Line(r.artifact, r.source, r.offset, r.text)] + Joined(rest)
  {
    assert ([r] + rest)[1..] == rest;
  }

  lemma LineEndAgrees(parts: seq<Part>, f: Filter, c: Cursor, rest: seq<Record>)
    requires CursorIn(parts, c) && c.part < |parts| && c.offset < SizeAt(parts, c) && WithinLine(parts, c)
    requires Matches(f, TextAt(parts[c.part].content, c.offset))
    requires Step(parts, f, c).Moved? && Step(parts, f, c).to.offset > c.offset
    ensures MoveAgrees(parts, f, c, Step(parts, f, c), rest)
  {
    var m, text := Step(parts, f, c), TextAt(parts[c.part].content, c.offset);
    LineEndMove(parts, f, c, text);
    var next := BehindLine(parts, f, c);
    ExpectedInside(parts, f, c, text);
    LastRecord(m.emitted[0], rest, Matching(After(parts, c), f));
  }

  lemma LastRecord(r: Record, rest: seq<Record>, later: seq<Line>)
    requires !r.continuation && |r.text| <= FRAGMENT
    ensures var line := Line(r.artifact, r.source, r.offset, r.text);
      && (AllPassable([line] + later) <==> AllPassable(later))
      && (Joined(rest) == later ==> Joined([r] + rest) == [line] + later)
  {
    PassableFirst(Line(r.artifact, r.source, r.offset, r.text), later);
    JoinedBefore(r, rest);
  }

  // A record put before the lines that continue it.
  lemma JoinedOnto(r: Record, rest: seq<Record>, left: Line, later: seq<Line>)
    requires r.continuation && Joined(rest) == [left] + later
    ensures Joined([r] + rest) == [Line(r.artifact, r.source, r.offset, r.text + left.text)] + later
  {
    assert ([r] + rest)[1..] == rest;
    assert ([left] + later)[1..] == later;
  }

  lemma PassableFirst(l: Line, later: seq<Line>)
    ensures AllPassable([l] + later) <==> Passable(l.text) && AllPassable(later)
  {
    assert forall k :: k in [l] + later <==> k == l || k in later;
  }

  lemma ExpectedInside(parts: seq<Part>, f: Filter, c: Cursor, text: Bytes)
    requires CursorIn(parts, c) && c.part < |parts| && c.offset < SizeAt(parts, c)
    requires text == TextAt(parts[c.part].content, c.offset) && Matches(f, text) && c.fragment <= |text|
    ensures Expected(parts, f, c) ==
      [Line(parts[c.part].id, parts[c.part].source, c.offset, text[c.fragment..])] + Matching(After(parts, c), f)
  {}

  // A move that stays in its line emits the next fragment.
  lemma FragmentMove(parts: seq<Part>, f: Filter, c: Cursor, text: Bytes)
    requires CursorIn(parts, c) && c.part < |parts| && c.offset < SizeAt(parts, c)
    requires text == TextAt(parts[c.part].content, c.offset) && c.fragment <= |text|
    requires Step(parts, f, c).Moved? && Step(parts, f, c).to.part == c.part && Step(parts, f, c).to.offset == c.offset
    ensures Matches(f, text) && |text[c.fragment..]| > FRAGMENT
    ensures var p, m, k := parts[c.part], Step(parts, f, c), Take(text[c.fragment..]);
      && m.to == c.(fragment := c.fragment + k)
      && m.emitted == [Record(p.id, p.source, c.offset, c.fragment, text[c.fragment..][..k], true)]
  {
    var k := Take(text[c.fragment..]);
    assert text[c.fragment..c.fragment + k] == text[c.fragment..][..k];
  }

  lemma FragmentAgrees(parts: seq<Part>, f: Filter, c: Cursor, rest: seq<Record>)
    requires CursorIn(parts, c) && c.part < |parts| && c.offset < SizeAt(parts, c) && WithinLine(parts, c)
    requires Step(parts, f, c).Moved? && Step(parts, f, c).to.part == c.part && Step(parts, f, c).to.offset == c.offset
    ensures MoveAgrees(parts, f, c, Step(parts, f, c), rest)
  {
    var p, m := parts[c.part], Step(parts, f, c);
    var text := TextAt(p.content, c.offset);
    FragmentMove(parts, f, c, text);
    var remaining, later := text[c.fragment..], Matching(After(parts, c), f);
    var k := Take(remaining);
    assert text[m.to.fragment..] == remaining[k..];
    ExpectedInside(parts, f, c, text);
    ExpectedInside(parts, f, m.to, text);
    FragmentPassable(Line(p.id, p.source, c.offset, remaining), Line(p.id, p.source, c.offset, remaining[k..]), later);
    if Joined(rest) == Expected(parts, f, m.to) {
      FragmentJoined(parts, f, c, rest);
    }
  }

  lemma FragmentJoined(parts: seq<Part>, f: Filter, c: Cursor, rest: seq<Record>)
    requires CursorIn(parts, c) && c.part < |parts| && c.offset < SizeAt(parts, c) && WithinLine(parts, c)
    requires Step(parts, f, c).Moved? && Step(parts, f, c).to.part == c.part && Step(parts, f, c).to.offset == c.offset
    requires CursorIn(parts, Step(parts, f, c).to) && Joined(rest) == Expected(parts, f, Step(parts, f, c).to)
    ensures Joined(Step(parts, f, c).emitted + rest) == Expected(parts, f, c)
  {
    var p, m := parts[c.part], Step(parts, f, c);
    var text := TextAt(p.content, c.offset);
    FragmentMove(parts, f, c, text);
    var remaining := text[c.fragment..];
    var k := Take(remaining);
    assert text[m.to.fragment..] == remaining[k..];
    ExpectedInside(parts, f, c, text);
    ExpectedInside(parts, f, m.to, text);
    assert remaining[..k] + remaining[k..] == remaining;
    JoinedOnto(m.emitted[0], rest, Line(p.id, p.source, c.offset, remaining[k..]), Matching(After(parts, c), f));
  }

  // Of a long line and the line without its first fragment both are passable or neither,
  // and neither when there is no fragment.
  lemma FragmentPassable(whole: Line, left: Line, later: seq<Line>)
    requires |whole.text| > FRAGMENT && left == whole.(text := whole.text[Take(whole.text)..])
    ensures AllPassable([whole] + later) <==> Take(whole.text) > 0 && AllPassable([left] + later)
  {
    TakeKeepsPassable(whole.text);
    PassableFirst(whole, later);
    PassableFirst(left, later);
  }

  lemma MovesAgree(parts: seq<Part>, f: Filter, c: Cursor, rest: seq<Record>)
    requires CursorIn(parts, c) && c.part < |parts| && WithinLine(parts, c)
    ensures Step(parts, f, c).Moved? && MoveAgrees(parts, f, c, Step(parts, f, c), rest)
  {
    if c.offset == SizeAt(parts, c) {
      PartEndAgrees(parts, f, c, rest);
    } else if !Matches(f, TextAt(parts[c.part].content, c.offset)) {
      PassedOver(parts, f, c, rest);
    } else if Step(parts, f, c).to.offset == c.offset {
      FragmentAgrees(parts, f, c, rest);
    } else {
      LineEndAgrees(parts, f, c, rest);
    }
  }

  lemma {:induction false} RemainingIsExpected(parts: seq<Part>, f: Filter, c: Cursor)
    requires CursorIn(parts, c) && WithinLine(parts, c)
    ensures Remaining(parts, f, c).Some? <==> AllPassable(Expected(parts, f, c))
    ensures Remaining(parts, f, c).Some? ==> Joined(Remaining(parts, f, c).value) == Expected(parts, f, c)
    decreases |parts| - c.part, SizeAt(parts, c) - c.offset, SizeAt(parts, c) - c.fragment
  {
    if c.part < |parts| {
      MovesAgree(parts, f, c, []);
      var m := Step(parts, f, c);
      if m.to != c {
        RemainingIsExpected(parts, f, m.to);
        if Remaining(parts, f, m.to).Some? {
          MovesAgree(parts, f, c, Remaining(parts, f, m.to).value);
        }
      }
    }
  }

  // ---- Pages ----

  ghost predicate Onward(parts: seq<Part>, f: Filter, c: Cursor) {
    CursorIn(parts, c) && WithinLine(parts, c)
  }

  // Reading on from some progress: what was still to come is now read or still to come.
  ghost predicate ReadsOn(parts: seq<Part>, f: Filter, p: Progress, q: Progress)
    requires Onward(parts, f, p.t.at)
  {
    && Onward(parts, f, q.t.at)
    && (Remaining(parts, f, p.t.at).Some? <==> Remaining(parts, f, q.t.at).Some?)
    && (Remaining(parts, f, p.t.at).Some? ==>
          && (q == p || Precedes(p.t.at, q.t.at))
          && q.t.records + Remaining(parts, f, q.t.at).value == p.t.records + Remaining(parts, f, p.t.at).value)
  }

  lemma MovesOnward(parts: seq<Part>, f: Filter, c: Cursor)
    requires Onward(parts, f, c) && c.part < |parts|
    ensures Step(parts, f, c).Moved? && Onward(parts, f, Step(parts, f, c).to)
  {
    MovesAgree(parts, f, c, []);
  }

  lemma Associate(a: seq<Record>, b: seq<Record>, c: seq<Record>)
    ensures a + (b + c) == (a + b) + c
  {}

  lemma MoveReadsOn(parts: seq<Part>, f: Filter, size: Record -> nat, p: Progress, m: Move)
    requires Onward(parts, f, p.t.at) && p.t.at.part < |parts| && m == Step(parts, f, p.t.at)
    ensures m.Moved? && ReadsOn(parts, f, p, Further(p, m, size))
    ensures Remaining(parts, f, p.t.at).Some? ==> Precedes(p.t.at, m.to)
  {
    MovesOnward(parts, f, p.t.at);
    if Remaining(parts, f, p.t.at).Some? {
      Associate(p.t.records, m.emitted, Remaining(parts, f, m.to).value);
    }
  }

  lemma {:induction false} ReadOnReadsOn(parts: seq<Part>, f: Filter, limit: nat, size: Record -> nat, p: Progress)
    requires Onward(parts, f, p.t.at)
    ensures ReadOn(parts, f, limit, size, p).Some? && ReadsOn(parts, f, p, ReadOn(parts, f, limit, size, p).value)
    decreases |parts| - p.t.at.part, MAX_SCANNED - p.t.scanned
  {
    if p.t.at.part < |parts| && GoesOn(p, limit) {
      var m := Step(parts, f, p.t.at);
      MoveReadsOn(parts, f, size, p, m);
      if m.to.fragment == 0 {
        ReadOnReadsOn(parts, f, limit, size, Further(p, m, size));
      }
    }
  }

  // Where a page starts, one move at least is made.
  lemma PageReadsOn(parts: seq<Part>, f: Filter, limit: int, size: Record -> nat, c: Cursor) returns (q: Progress)
    requires Onward(parts, f, c) && c.part < |parts|
    ensures FirstPage(parts, f, c, Limit(limit), size) == Ok(PageOf(parts, q))
    ensures ReadsOn(parts, f, Progress(Trace([], 0, c), 0), q)
    ensures Remaining(parts, f, c).Some? ==> Precedes(c, q.t.at)
  {
    var p, m := Progress(Trace([], 0, c), 0), Step(parts, f, c);
    MoveReadsOn(parts, f, size, p, m);
    q := Further(p, m, size);
    if m.to.fragment == 0 {
      ReadOnReadsOn(parts, f, Limit(limit), size, q);
      q := ReadOn(parts, f, Limit(limit), size, q).value;
    }
  }

  // One page: never refused where the last one left off; when every line ahead is
  // passable, the next cursor lies strictly further on and nothing is lost between pages.
  ghost predicate PageKeeps(parts: seq<Part>, f: Filter, c: Cursor, page: Page)
    requires Onward(parts, f, c)
  {
    match page.next
    case None => Remaining(parts, f, c) == Some(page.records)
    case Some(d) =>
      && Onward(parts, f, d) && d.part < |parts|
      && (Remaining(parts, f, c).Some? <==> Remaining(parts, f, d).Some?)
      && (Remaining(parts, f, c).Some? ==>
            Precedes(c, d) && page.records + Remaining(parts, f, d).value == Remaining(parts, f, c).value)
  }

  lemma OnePage(parts: seq<Part>, f: Filter, limit: int, size: Record -> nat, c: Cursor)
    requires Onward(parts, f, c) && c.part < |parts|
    ensures FirstPage(parts, f, c, Limit(limit), size).Ok?
    ensures PageKeeps(parts, f, c, FirstPage(parts, f, c, Limit(limit), size).value)
  {
    var q := PageReadsOn(parts, f, limit, size, c);
    assert q.t.records + [] == q.t.records;
    if Remaining(parts, f, c).Some? {
      assert [] + Remaining(parts, f, c).value == Remaining(parts, f, c).value;
    }
  }

  // Where page n of a report starts, when each page may ask for its own number of records.
  ghost function CursorOf(
      parts: seq<Part>, f: Filter, limits: nat -> int, size: Record -> nat, n: nat): Option<Cursor> {
    if n == 0 then Some(START)
    else
      match CursorOf(parts, f, limits, size, n - 1)
      case None => None
      case Some(c) =>
        match PageAt(parts, f, limits(n - 1), size, c)
        case Err(_) => None
        case Ok(page) => page.next
  }

  ghost function PageAt(
      parts: seq<Part>, f: Filter, limit: int, size: Record -> nat, c: Cursor): Result<Page, ReadError> {
    if CursorIn(parts, c) then FirstPage(parts, f, c, Limit(limit), size) else Err(InvalidCursor)
  }

  // The records of the first n pages.
  ghost function Paged(parts: seq<Part>, f: Filter, limits: nat -> int, size: Record -> nat, n: nat): seq<Record> {
    if n == 0 then []
    else
      Paged(parts, f, limits, size, n - 1)
      + match CursorOf(parts, f, limits, size, n - 1)
        case None => []
        case Some(c) =>
          match PageAt(parts, f, limits(n - 1), size, c)
          case Err(_) => []
          case Ok(page) => page.records
  }

  // What has been read and what is still to come from the next cursor make up all.
  ghost predicate MakeUp(
      parts: seq<Part>, f: Filter, all: Option<seq<Record>>, done: seq<Record>, next: Option<Cursor>) {
    match next
    case None => all == Some(done)
    case Some(c) =>
      && Onward(parts, f, c) && c.part < |parts|
      && (all.Some? <==> Remaining(parts, f, c).Some?)
      && (all.Some? ==> done + Remaining(parts, f, c).value == all.value)
  }

  lemma PageMakesUp(parts: seq<Part>, f: Filter, all: Option<seq<Record>>, done: seq<Record>, c: Cursor, page: Page)
    requires MakeUp(parts, f, all, done, Some(c)) && PageKeeps(parts, f, c, page)
    ensures MakeUp(parts, f, all, done + page.records, page.next)
  {
    if all.Some? && page.next.Some? {
      Associate(done, page.records, Remaining(parts, f, page.next.value).value);
    }
  }

  lemma StartsOnward(parts: seq<Part>, f: Filter)
    requires parts != []
    ensures Onward(parts, f, START)
    ensures Remaining(parts, f, START).Some? <==> AllPassable(Matching(AllLines(parts), f))
    ensures Remaining(parts, f, START).Some?
        ==> Joined(Remaining(parts, f, START).value) == Matching(AllLines(parts), f)
  {
    AtPartStart(parts, f, 0);
    assert parts[0..] == parts;
    RemainingIsExpected(parts, f, START);
  }

  // Page n, when there is one, leads to page n + 1.
  lemma NextPage(parts: seq<Part>, f: Filter, limits: nat -> int, size: Record -> nat, n: nat, c: Cursor)
    returns (page: Page)
    requires CursorOf(parts, f, limits, size, n) == Some(c) && Onward(parts, f, c) && c.part < |parts|
    ensures PageKeeps(parts, f, c, page)
    ensures CursorOf(parts, f, limits, size, n + 1) == page.next
    ensures Paged(parts, f, limits, size, n + 1) == Paged(parts, f, limits, size, n) + page.records
  {
    OnePage(parts, f, limits(n), size, c);
    page := FirstPage(parts, f, c, Limit(limits(n)), size).value;
  }

  lemma NoMorePages(parts: seq<Part>, f: Filter, limits: nat -> int, size: Record -> nat, n: nat)
    requires CursorOf(parts, f, limits, size, n).None?
    ensures CursorOf(parts, f, limits, size, n + 1).None?
    ensures Paged(parts, f, limits, size, n + 1) == Paged(parts, f, limits, size, n)
  {}

  lemma NothingYet(parts: seq<Part>, f: Filter)
    requires parts != [] && Onward(parts, f, START)
    ensures MakeUp(parts, f, Remaining(parts, f, START), [], Some(START))
  {
    var all := Remaining(parts, f, START);
    assert all.Some? ==> [] + all.value == all.value;
  }

  ghost predicate PagedSoFar(
      parts: seq<Part>, f: Filter, limits: nat -> int, size: Record -> nat, all: Option<seq<Record>>, n: nat) {
    MakeUp(parts, f, all, Paged(parts, f, limits, size, n), CursorOf(parts, f, limits, size, n))
  }

  lemma PageSoFar(
      parts: seq<Part>, f: Filter, limits: nat -> int, size: Record -> nat, all: Option<seq<Record>>, n: nat)
    requires PagedSoFar(parts, f, limits, size, all, n)
    ensures PagedSoFar(parts, f, limits, size, all, n + 1)
  {
    var before := CursorOf(parts, f, limits, size, n);
    if before.None? {
      NoMorePages(parts, f, limits, size, n);
    } else {
      var page := NextPage(parts, f, limits, size, n, before.value);
      PageMakesUp(parts, f, all, Paged(parts, f, limits, size, n), before.value, page);
    }
  }

  lemma {:induction false} PagingKeeps(parts: seq<Part>, f: Filter, limits: nat -> int, size: Record -> nat, n: nat)
    requires parts != [] && Onward(parts, f, START)
    ensures PagedSoFar(parts, f, limits, size, Remaining(parts, f, START), n)
  {
    if n == 0 {
      NothingYet(parts, f);
    } else {
      PagingKeeps(parts, f, limits, size, n - 1);
      PageSoFar(parts, f, limits, size, Remaining(parts, f, START), n - 1);
    }
  }

  lemma Closer(parts: seq<Part>, f: Filter, c: Cursor, d: Cursor)
    requires Onward(parts, f, c) && Onward(parts, f, d) && Precedes(c, d)
    ensures d.part == c.part ==> SizeAt(parts, d) == SizeAt(parts, c)
    ensures d.offset <= SizeAt(parts, d) && d.fragment <= SizeAt(parts, d)
  {}

  // From a cursor with passable lines ahead, paging comes to an end.
  lemma {:induction false} PagingEndsFrom(
      parts: seq<Part>, f: Filter, limits: nat -> int, size: Record -> nat, n: nat, c: Cursor)
    returns (m: nat)
    requires CursorOf(parts, f, limits, size, n) == Some(c)
    requires Onward(parts, f, c) && c.part < |parts| && Remaining(parts, f, c).Some?
    ensures CursorOf(parts, f, limits, size, m).None?
    decreases |parts| - c.part, SizeAt(parts, c) - c.offset, SizeAt(parts, c) - c.fragment
  {
    var page := NextPage(parts, f, limits, size, n, c);
    if page.next.None? {
      m := n + 1;
    } else {
      var d := page.next.value;
      Closer(parts, f, c, d);
      m := PagingEndsFrom(parts, f, limits, size, n + 1, d);
    }
  }

  // ---- Main results ----

  // Whatever limits the pages ask for, paging from the start comes to an end just when
  // every matching line is well formed to within one fragment of its end.
  lemma PagingEnds(parts: seq<Part>, f: Filter, limits: nat -> int, size: Record -> nat)
    requires parts != []
    ensures (exists n :: CursorOf(parts, f, limits, size, n).None?) <==> AllPassable(Matching(AllLines(parts), f))
  {
    StartsOnward(parts, f);
    if Remaining(parts, f, START).Some? {
      var n := PagingEndsFrom(parts, f, limits, size, 0, START);
    }
    if exists n :: CursorOf(parts, f, limits, size, n).None? {
      var n :| CursorOf(parts, f, limits, size, n).None?;
      PagingKeeps(parts, f, limits, size, n);
    }
  }

  // Once paging has come to an end its records, put together, are the matching lines of
  // all parts: each once, whole and in order.
  lemma PagesGiveTheMatchingLines(parts: seq<Part>, f: Filter, limits: nat -> int, size: Record -> nat, n: nat)
    requires parts != [] && CursorOf(parts, f, limits, size, n).None?
    ensures Joined(Paged(parts, f, limits, size, n)) == Matching(AllLines(parts), f)
  {
    StartsOnward(parts, f);
    PagingKeeps(parts, f, limits, size, n);
  }

  // A fragment of a well-formed text falls short of its full length by three octets at most.
  lemma FragmentsAreLong(text: Bytes)
    requires Valid(text) && |text| > FRAGMENT
    ensures FRAGMENT - 3 <= Take(text) <= FRAGMENT && Valid(text[..Take(text)]) && Valid(text[Take(text)..])
  {
    CutLosesLittle(text, FRAGMENT);
    CutIsValid(text, FRAGMENT);
    SoundAfterPrefix(text, Take(text));
  }

  // ---- A text on which paging never ends ----

  // The JSON object {"a":"..."} with a long text of octets that start no character: the check
  // of an upload takes such a line for JSON.
  const HEAD: Bytes := [0x7B, 0x22, 0x61, 0x22, 0x3A, 0x22]
  const BROKEN_TEXT: Bytes := seq(FRAGMENT + 1, _ => 0xFF as byte)
  const BROKEN: Part := Part("logs", "logs", "source", HEAD + BROKEN_TEXT + [0x22, 0x7D])

  lemma {:induction false} NoNewline(t: Bytes, o: nat)
    requires o <= |t| && NEWLINE !in t
    ensures LineEnd(t, o) == |t|
    decreases |t| - o
  {
    if o < |t| {
      NoNewline(t, o + 1);
    }
  }

  lemma BrokenIsNotPassable()
    ensures !Passable(BROKEN.content) && NEWLINE !in BROKEN.content
  {
    var t := BROKEN.content;
    assert t[..6] == HEAD;
    assert Valid(HEAD) by {
      assert HEAD[1..] == [0x22, 0x61, 0x22, 0x3A, 0x22];
      assert HEAD[1..][1..] == [0x61, 0x22, 0x3A, 0x22];
      assert HEAD[1..][1..][1..] == [0x22, 0x3A, 0x22];
      assert HEAD[1..][1..][1..][1..] == [0x3A, 0x22];
      assert HEAD[1..][1..][1..][1..][1..] == [0x22];
    }
    SoundAfterPrefix(t, 6);
    assert t[6..][0] == 0xFF && CharLength(t[6..]) == 0;
  }

  lemma PagingCanStall(limits: nat -> int, size: Record -> nat, n: nat)
    ensures CursorOf([BROKEN], Filter([], _ => true), limits, size, n).Some?
  {
    var parts, f, t := [BROKEN], Filter([], _ => true), BROKEN.content;
    BrokenIsNotPassable();
    NoNewline(t, 0);
    assert TextAt(t, 0) == t by {
      assert t[0..|t|] == t;
    }
    var line := Line(BROKEN.id, BROKEN.source, 0, t);
    assert LinesOf(BROKEN, 0) == [line] + LinesOf(BROKEN, |t|);
    assert AllLines(parts) == [line];
    assert line in Matching(AllLines(parts), f) && !Passable(line.text);
    PagingEnds(parts, f, limits, size);
  }
}
