/** Reading a report's records page by page: one call of the reader, as a loop over parts
    and lines that stops at a limit and hands out a cursor to go on from. */
module FeedbackReader {
  import opened Common
  import opened Utf8

  const NEWLINE: byte := 0x0A
  const FRAGMENT: nat := 16 * 1024
  const MAX_SCANNED: nat := 500
  const MAX_PAGE_BYTES: nat := 128 * 1024
  const MAX_ARTIFACT_BYTES: nat := 16 * 1024 * 1024

  datatype Part = Part(id: string, kind: string, source: string, content: Bytes)

  // The keyword, and whatever the level, run and time filters say of a line's fields.
  datatype Filter = Filter(keyword: Bytes, fields: Bytes -> bool)

  datatype Cursor = Cursor(part: nat, offset: nat, fragment: nat)

  datatype Supplied = Supplied(binding: string, part: int, offset: int, fragment: int)

  datatype Record = Record(artifact: string, source: string, offset: nat, fragment: nat, text: Bytes,
      continuation: bool)

  datatype Page = Page(records: seq<Record>, next: Option<Cursor>, scanned: nat)

  datatype ReadError = InvalidFilter | NotFound | InvalidCursor

  const START := Cursor(0, 0, 0)

  // ---- Lines ----

  // Just past the newline that ends the line at `o`, or the end of the text.
  function LineEnd(t: Bytes, o: nat): (e: nat)
    requires o <= |t|
    ensures o <= e <= |t| && (o < |t| ==> o < e)
    decreases |t| - o
  {
    if o == |t| then o
    else if t[o] == NEWLINE then o + 1
    else LineEnd(t, o + 1)
  }

  function WithoutNewline(line: Bytes): Bytes {
    if line != [] && line[|line| - 1] == NEWLINE then line[..|line| - 1] else line
  }

  function TextAt(t: Bytes, o: nat): (text: Bytes)
    requires o <= |t|
    ensures |text| <= |t|
  {
    WithoutNewline(t[o..LineEnd(t, o)])
  }

  predicate FoundAt(text: Bytes, keyword: Bytes, i: nat) {
    i + |keyword| <= |text| && text[i..i + |keyword|] == keyword
  }

  predicate Matches(f: Filter, text: Bytes) {
    (f.keyword == [] || exists i | 0 <= i <= |text| :: FoundAt(text, f.keyword, i)) && f.fields(text)
  }

  // ---- One move of the reader ----

  predicate CursorIn(parts: seq<Part>, c: Cursor) {
    && c.part <= |parts|
    && (if c.part < |parts| then c.offset <= |parts[c.part].content| else c.offset == 0 && c.fragment == 0)
  }

  predicate Precedes(c: Cursor, d: Cursor) {
    || c.part < d.part
    || (c.part == d.part && c.offset < d.offset)
    || (c.part == d.part && c.offset == d.offset && c.fragment < d.fragment)
  }

  // How much of what is left of a line goes into one record.
  function Take(remaining: Bytes): (n: nat)
    ensures n <= |remaining| && (|remaining| > FRAGMENT ==> n < |remaining|)
  {
    if |remaining| > FRAGMENT then Cut(remaining, FRAGMENT) else |remaining|
  }

  datatype Move = Refused | Moved(emitted: seq<Record>, scanned: nat, to: Cursor)

  function Step(parts: seq<Part>, f: Filter, c: Cursor): (m: Move)
    requires CursorIn(parts, c) && c.part < |parts|
    ensures m.Moved? ==> CursorIn(parts, m.to) && (m.to == c || Precedes(c, m.to))
  {
    var p := parts[c.part];
    if c.offset == |p.content| then Moved([], 0, Cursor(c.part + 1, 0, 0))
    else
      var text, after := TextAt(p.content, c.offset), Cursor(c.part, LineEnd(p.content, c.offset), 0);
      if c.fragment > |text| then Refused
      else if !Matches(f, text) then Moved([], 1, after)
      else
        var stop := c.fragment + Take(text[c.fragment..]);
        var record := Record(p.id, p.source, c.offset, c.fragment, text[c.fragment..stop], stop < |text|);
        Moved([record], 1, if stop < |text| then c.(fragment := stop) else after)
  }

  datatype Trace = Trace(records: seq<Record>, scanned: nat, at: Cursor)

  function Moving(t: Trace, m: Move): Trace
    requires m.Moved?
  {
    Trace(t.records + m.emitted, t.scanned + m.scanned, m.to)
  }

  // ---- A call ----

  predicate Wanted(p: Part, kind: string, artifact: string) {
    || (kind == "conversation" && p.kind == kind)
    || (kind == "logs" && p.id == artifact && (p.kind == "logs" || p.kind == "diagnostics"))
  }

  function Selected(parts: seq<Part>, kind: string, artifact: string): seq<Part> {
    if parts == [] then []
    else
      var rest, p := Selected(parts[..|parts| - 1], kind, artifact), parts[|parts| - 1];
      if Wanted(p, kind, artifact) then rest + [p] else rest
  }

  predicate Acceptable(parts: seq<Part>, s: Supplied, binding: string) {
    && s.binding == binding && 0 <= s.part < |parts|
    && 0 <= s.offset <= |parts[s.part].content| && 0 <= s.fragment <= MAX_ARTIFACT_BYTES
  }

  // Where a call starts reading, or why it does not.
  function Opening(
      parts: seq<Part>, f: Filter, supplied: Option<Supplied>, binding: string): (r: Result<Cursor, ReadError>)
    ensures r.Ok? ==> CursorIn(parts, r.value) && r.value.part < |parts|
  {
    if |f.keyword| > 256 then Err(InvalidFilter)
    else if parts == [] then Err(NotFound)
    else
      match supplied
      case None => Ok(START)
      case Some(s) =>
        if Acceptable(parts, s, binding) then Ok(Cursor(s.part, s.offset, s.fragment)) else Err(InvalidCursor)
  }

  function Limit(limit: int): nat {
    if limit < 1 then 100 else if limit > 500 then 500 else limit
  }

  // What a call has at hand between moves: the records so far and their encoded size.
  datatype Progress = Progress(t: Trace, bytes: nat)

  predicate GoesOn(p: Progress, limit: nat) {
    |p.t.records| < limit && p.t.scanned < MAX_SCANNED && p.bytes < MAX_PAGE_BYTES
  }

  function Further(p: Progress, m: Move, size: Record -> nat): Progress
    requires m.Moved?
  {
    Progress(Moving(p.t, m), if m.emitted == [] then p.bytes else p.bytes + size(m.emitted[0]))
  }

  // Moves are made until nothing is left, the page is full, or a record breaks off
  // inside its line; a cursor that points behind its line is refused.
  function ReadOn(parts: seq<Part>, f: Filter, limit: nat, size: Record -> nat, p: Progress): Option<Progress>
    requires CursorIn(parts, p.t.at)
    decreases |parts| - p.t.at.part, MAX_SCANNED - p.t.scanned
  {
    if p.t.at.part == |parts| || !GoesOn(p, limit) then Some(p)
    else
      match Step(parts, f, p.t.at)
      case Refused => None
      case Moved(_, _, to) =>
        var p' := Further(p, Step(parts, f, p.t.at), size);
        if to.fragment > 0 then Some(p') else ReadOn(parts, f, limit, size, p')
  }

  function PageOf(parts: seq<Part>, p: Progress): Page {
    Page(p.t.records, if p.t.at.part < |parts| then Some(p.t.at) else None, p.t.scanned)
  }

  function FirstPage(
      parts: seq<Part>, f: Filter, start: Cursor, limit: nat, size: Record -> nat): Result<Page, ReadError>
    requires CursorIn(parts, start)
  {
    match ReadOn(parts, f, limit, size, Progress(Trace([], 0, start), 0))
    case None => Err(InvalidCursor)
    case Some(p) => Ok(PageOf(parts, p))
  }

  // ---- What a call promises, over what it is asked and what it answers ----

  // The encoded size of a page's records.
  function Encoded(records: seq<Record>, size: Record -> nat): nat {
    if records == [] then 0 else Encoded(records[..|records| - 1], size) + size(records[|records| - 1])
  }

  // `most` records at most, from at most 500 lines, and 128 KiB before the last one at most.
  ghost predicate WithinLimits(records: seq<Record>, scanned: nat, most: int, size: Record -> nat) {
    && |records| <= most && scanned <= 500
    && (records != [] ==> Encoded(records[..|records| - 1], size) < 128 * 1024)
  }

  // The page ends because a limit is reached, or where its last record breaks off.
  ghost predicate HasToEnd(records: seq<Record>, scanned: nat, most: int, size: Record -> nat) {
    || |records| >= most || scanned == 500 || Encoded(records, size) >= 128 * 1024
    || (records != [] && records[|records| - 1].continuation)
  }

  // A record is what it says: a piece of 16 KiB at most of a matching line of one of the parts.
  ghost predicate IsPiece(r: Record, p: Part, f: Filter) {
    && r.artifact == p.id && r.source == p.source && r.offset < |p.content|
    && var line := TextAt(p.content, r.offset);
       && f.fields(line) && (exists before, after :: line == before + f.keyword + after)
       && r.fragment + |r.text| <= |line| && line[r.fragment..r.fragment + |r.text|] == r.text && |r.text| <= 16 * 1024
       && (r.continuation <==> r.fragment + |r.text| < |line|)
  }

  ghost predicate IsPage(parts: seq<Part>, f: Filter, most: int, size: Record -> nat, page: Page) {
    && WithinLimits(page.records, page.scanned, most, size)
    && (page.next.Some? ==> HasToEnd(page.records, page.scanned, most, size))
    && forall r :: r in page.records ==> exists p :: p in parts && IsPiece(r, p, f)
  }

  lemma MatchesMeans(f: Filter, text: Bytes)
    ensures Matches(f, text) <==> f.fields(text) && exists before, after :: text == before + f.keyword + after
  {
    if f.keyword == [] {
      assert text == [] + f.keyword + text;
    }
    if i :| 0 <= i <= |text| && FoundAt(text, f.keyword, i) {
      assert text == text[..i] + f.keyword + text[i + |f.keyword|..];
    }
    if before, after :| text == before + f.keyword + after {
      assert FoundAt(text, f.keyword, |before|);
    }
  }

  lemma StepEmitsPieces(parts: seq<Part>, f: Filter, c: Cursor)
    requires CursorIn(parts, c) && c.part < |parts|
    ensures var m := Step(parts, f, c);
      m.Moved? ==>
        && m.scanned <= 1 && |m.emitted| <= m.scanned
        && (forall r :: r in m.emitted ==> IsPiece(r, parts[c.part], f))
        && (m.to.fragment > 0 ==> |m.emitted| == 1 && m.emitted[0].continuation)
  {
    var p := parts[c.part];
    if c.offset < |p.content| {
      var text := TextAt(p.content, c.offset);
      MatchesMeans(f, text);
      if c.fragment <= |text| {
        var left := text[c.fragment..];
        assert forall k :: 0 <= k <= |left| ==> text[c.fragment..c.fragment + k] == left[..k];
      }
    }
  }

  ghost predicate SoFar(parts: seq<Part>, f: Filter, most: int, size: Record -> nat, p: Progress) {
    && WithinLimits(p.t.records, p.t.scanned, most, size) && p.bytes == Encoded(p.t.records, size)
    && forall r :: r in p.t.records ==> exists q :: q in parts && IsPiece(r, q, f)
  }

  lemma OneMoreSoFar(parts: seq<Part>, f: Filter, limit: nat, size: Record -> nat, p: Progress)
    requires CursorIn(parts, p.t.at) && p.t.at.part < |parts| && SoFar(parts, f, limit, size, p) && GoesOn(p, limit)
    requires Step(parts, f, p.t.at).Moved?
    ensures SoFar(parts, f, limit, size, Further(p, Step(parts, f, p.t.at), size))
    ensures var q := Further(p, Step(parts, f, p.t.at), size);
      q.t.at.fragment > 0 ==> q.t.records != [] && q.t.records[|q.t.records| - 1].continuation
  {
    var m := Step(parts, f, p.t.at);
    StepEmitsPieces(parts, f, p.t.at);
    var records := p.t.records + m.emitted;
    if m.emitted == [] {
      assert records == p.t.records;
    } else {
      assert m.emitted == [m.emitted[0]] && records[..|records| - 1] == p.t.records;
      assert records[|records| - 1] == m.emitted[0];
      assert m.emitted[0] in m.emitted && parts[p.t.at.part] in parts;
    }
    assert forall r :: r in records ==> r in p.t.records || r in m.emitted;
  }

  lemma {:induction false} ReadOnSoFar(parts: seq<Part>, f: Filter, limit: nat, size: Record -> nat, p: Progress)
    requires CursorIn(parts, p.t.at) && SoFar(parts, f, limit, size, p)
    ensures var q := ReadOn(parts, f, limit, size, p);
      q.Some? ==>
        && SoFar(parts, f, limit, size, q.value)
        && (q.value.t.at.part < |parts| ==> HasToEnd(q.value.t.records, q.value.t.scanned, limit, size))
    decreases |parts| - p.t.at.part, MAX_SCANNED - p.t.scanned
  {
    if p.t.at.part < |parts| && GoesOn(p, limit) && Step(parts, f, p.t.at).Moved? {
      OneMoreSoFar(parts, f, limit, size, p);
      var m := Step(parts, f, p.t.at);
      if m.to.fragment == 0 {
        ReadOnSoFar(parts, f, limit, size, Further(p, m, size));
      }
    }
  }

  lemma FirstPageIsPage(parts: seq<Part>, f: Filter, start: Cursor, limit: nat, size: Record -> nat)
    requires CursorIn(parts, start)
    ensures var r := FirstPage(parts, f, start, limit, size);
      (r.Ok? ==> IsPage(parts, f, limit, size, r.value)) && (r.Err? ==> r.error == InvalidCursor)
  {
    ReadOnSoFar(parts, f, limit, size, Progress(Trace([], 0, start), 0));
  }

  // The parts are those at the places `picked`, in order: just the wanted ones.
  ghost predicate IsSelection(all: seq<Part>, kind: string, artifact: string, parts: seq<Part>, picked: seq<nat>) {
    && |picked| == |parts| && (forall i :: 0 <= i < |picked| ==> picked[i] < |all| && parts[i] == all[picked[i]])
    && (forall i, j :: 0 <= i < j < |picked| ==> picked[i] < picked[j])
    && forall k: nat :: k in picked <==>
         k < |all| && if kind == "conversation" then all[k].kind == "conversation"
                      else kind == "logs" && all[k].id == artifact && all[k].kind in {"logs", "diagnostics"}
  }

  method Select(all: seq<Part>, kind: string, artifact: string) returns (parts: seq<Part>, ghost picked: seq<nat>)
    ensures parts == Selected(all, kind, artifact) && IsSelection(all, kind, artifact, parts, picked)
  {
    parts, picked := [], [];
    for i := 0 to |all|
      invariant parts == Selected(all[..i], kind, artifact)
      invariant IsSelection(all[..i], kind, artifact, parts, picked)
    {
      assert all[..i + 1][..i] == all[..i];
      if Wanted(all[i], kind, artifact) {
        parts, picked := parts + [all[i]], picked + [i];
      }
    }
    assert all[..|all|] == all;
  }

  method Shorten(remaining: Bytes) returns (take: nat)
    ensures take == Take(remaining)
  {
    take := |remaining|;
    if take > FRAGMENT {
      take := FRAGMENT;
      while take > 0 && !Valid(remaining[..take])
        invariant take <= |remaining| && Cut(remaining, take) == Cut(remaining, FRAGMENT)
      {
        take := take - 1;
      }
    }
  }

  // One turn of the inner loop; `leave` says whether the turn breaks out of it, at the
  // end of a part or inside a line.
  method ReadLine(parts: seq<Part>, f: Filter, c: Cursor) returns (m: Move, leave: bool)
    requires CursorIn(parts, c) && c.part < |parts|
    ensures m == Step(parts, f, c)
    ensures m.Moved? && !leave ==> m.to.part == c.part && m.to.fragment == 0
    ensures m.Moved? && leave && m.to.fragment == 0 ==> m.to.part > c.part || m.to == c
  {
    var part := parts[c.part];
    if c.offset == |part.content| {
      return Moved([], 0, Cursor(c.part + 1, 0, 0)), true;
    }
    var text := TextAt(part.content, c.offset);
    if c.fragment > |text| {
      return Refused, false;
    }
    var emitted := [];
    if Matches(f, text) {
      var take := Shorten(text[c.fragment..]);
      var stop := c.fragment + take;
      emitted := [Record(part.id, part.source, c.offset, c.fragment, text[c.fragment..stop], stop < |text|)];
      if stop < |text| {
        return Moved(emitted, 1, c.(fragment := stop)), true;
      }
    }
    m, leave := Moved(emitted, 1, Cursor(c.part, LineEnd(part.content, c.offset), 0)), false;
  }

  method ReadFrom(parts: seq<Part>, f: Filter, start: Cursor, limit: nat, size: Record -> nat)
    returns (result: Result<Page, ReadError>)
    requires CursorIn(parts, start)
    ensures result.Ok? ==> IsPage(parts, f, limit, size, result.value)
    ensures result.Err? ==> result.error == InvalidCursor
    ensures result == FirstPage(parts, f, start, limit, size)
  {
    FirstPageIsPage(parts, f, start, limit, size);
    var p := Progress(Trace([], 0, start), 0);
    ghost var all := ReadOn(parts, f, limit, size, p);
    while p.t.at.part < |parts| && GoesOn(p, limit)
      invariant CursorIn(parts, p.t.at) && ReadOn(parts, f, limit, size, p) == all
      decreases |parts| - p.t.at.part, MAX_SCANNED - p.t.scanned
    {
      ghost var before := p;
      var leave, m := false, Refused;
      while !leave && GoesOn(p, limit)
        invariant CursorIn(parts, p.t.at) && (!leave ==> p.t.at.part == before.t.at.part)
        invariant all == if leave && p.t.at.fragment > 0 then Some(p) else ReadOn(parts, f, limit, size, p)
        invariant if p == before then !leave else Later(p, before, leave)
        decreases !leave, MAX_SCANNED - p.t.scanned
      {
        m, leave := ReadLine(parts, f, p.t.at);
        if m.Refused? {
          return Err(InvalidCursor);
        }
        p := Further(p, m, size);
      }
      if p.t.at.fragment > 0 {
        break;
      }
    }
    result := Ok(PageOf(parts, p));
  }

  ghost predicate Later(p: Progress, before: Progress, leave: bool) {
    && (p.t.at.part > before.t.at.part || (p.t.at.part == before.t.at.part && p.t.scanned > before.t.scanned))
    && (!leave ==> p.t.at.fragment == 0)
  }

  // A cursor is taken when it belongs to this reading and points into one of its parts.
  ghost predicate IsGood(parts: seq<Part>, s: Supplied, binding: string) {
    && s.binding == binding && 0 <= s.part < |parts|
    && 0 <= s.offset <= |parts[s.part].content| && 0 <= s.fragment <= 16 * 1024 * 1024
  }

  // Reads on from the cursor that is supplied, or from the start.
  ghost predicate StartsAt(start: Cursor, supplied: Option<Supplied>) {
    match supplied
    case None => start == Cursor(0, 0, 0)
    case Some(s) => s.part == start.part && s.offset == start.offset && s.fragment == start.fragment
  }

  method Read(all: seq<Part>, kind: string, artifact: string, f: Filter, limit: int,
              supplied: Option<Supplied>, binding: string, size: Record -> nat)
    returns (result: Result<Page, ReadError>, ghost parts: seq<Part>, ghost picked: seq<nat>)
    ensures |f.keyword| <= 256 ==> IsSelection(all, kind, artifact, parts, picked)
    ensures result == Err(InvalidFilter) <==> |f.keyword| > 256
    ensures result == Err(NotFound) <==> |f.keyword| <= 256 && parts == []
    ensures |f.keyword| <= 256 && parts != [] && supplied.Some? && !IsGood(parts, supplied.value, binding) ==>
        result == Err(InvalidCursor)
    ensures |f.keyword| <= 256 && parts != [] && (supplied.Some? ==> IsGood(parts, supplied.value, binding)) ==>
        exists start ::
          && StartsAt(start, supplied) && CursorIn(parts, start)
          && result == FirstPage(parts, f, start, if limit < 1 then 100 else if limit < 500 then limit else 500, size)
    ensures result.Ok? ==>
        IsPage(parts, f, if limit < 1 then 100 else if limit < 500 then limit else 500, size, result.value)
    ensures var parts := Selected(all, kind, artifact);
      match Opening(parts, f, supplied, binding)
      case Err(e) => result == Err(e)
      case Ok(start) => result == FirstPage(parts, f, start, Limit(limit), size)
  {
    parts, picked := [], [];
    if |f.keyword| > 256 {
      return Err(InvalidFilter), [], [];
    }
    var chosen, places := Select(all, kind, artifact);
    parts, picked := chosen, places;
    if chosen == [] {
      return Err(NotFound), parts, picked;
    }
    var c := START;
    if supplied.Some? {
      var s := supplied.value;
      if !Acceptable(chosen, s, binding) {
        return Err(InvalidCursor), parts, picked;
      }
      c := Cursor(s.part, s.offset, s.fragment);
    }
    assert StartsAt(c, supplied);
    result := ReadFrom(chosen, f, c, Limit(limit), size);
  }
}
