/** The manifest that announces a feedback report: which artifacts will be uploaded, how
    they are numbered within their sources, and which records each of them holds. */
module Manifest {
  import opened Common

  const MAX_ARTIFACTS: nat := 256
  const MAX_ARTIFACT_BYTES: int := 16 * 1024 * 1024
  const MAX_SCREENSHOT_BYTES: int := 10 * 1024 * 1024
  const MAX_REPORT_BYTES: int := 200 * 1024 * 1024
  const MAX_SCREENSHOTS: nat := 5
  const MAX_SAFE: int := 9007199254740991

  datatype Kind = Screenshot | Conversation | Logs | Environment | Diagnostics | Attachments | OtherKind

  // `wellFormed` stands for the checks on the artifact's id, digest and name syntax.
  datatype Artifact = Artifact(
    id: string, kind: Kind, contentType: string, size: int, digest: string, source: string,
    part: int, records: int, first: int, last: int, wellFormed: bool)

  datatype Watermark = Watermark(
    source: string, maxSeq: int, size: int, expected: int, exported: int, truncated: bool)

  datatype Scope = Everything | Basic | DiagnosticsOnly | OtherScope

  // `headerOk` stands for the checks on texts, tokens, dates and versions.
  datatype Manifest = Manifest(
    headerOk: bool, scope: Scope, complete: bool, runs: nat, missing: nat,
    artifacts: seq<Artifact>, watermarks: seq<Watermark>)

  datatype Rejection = InvalidManifest | QuotaExceeded

  predicate Lightweight(m: Manifest) {
    m.scope == Basic || m.scope == DiagnosticsOnly
  }

  // The part number reached so far in one source, the records counted so far, and the
  // last record covered so far.
  function LastPart(arts: seq<Artifact>, source: string): int {
    if arts == [] then 0
    else
      var a := arts[|arts| - 1];
      if a.source == source then a.part else LastPart(arts[..|arts| - 1], source)
  }

  function Records(arts: seq<Artifact>, source: string): int {
    if arts == [] then 0
    else
      var a := arts[|arts| - 1];
      Records(arts[..|arts| - 1], source) + if a.source == source then a.records else 0
  }

  predicate Ranged(a: Artifact) {
    a.first != 0 || a.last != 0
  }

  function LastRecord(arts: seq<Artifact>, source: string): int {
    if arts == [] then 0
    else
      var a := arts[|arts| - 1];
      if a.source == source && Ranged(a) then a.last else LastRecord(arts[..|arts| - 1], source)
  }

  function Screenshots(arts: seq<Artifact>): nat {
    if arts == [] then 0
    else Screenshots(arts[..|arts| - 1]) + if arts[|arts| - 1].kind == Screenshot then 1 else 0
  }

  // The bytes declared for each artifact.
  ghost function Sizes(arts: seq<Artifact>): map<string, nat> {
    if arts == [] then map[]
    else
      var a := arts[|arts| - 1];
      Sizes(arts[..|arts| - 1])[a.id := if a.size < 0 then 0 else a.size]
  }

  predicate KindOk(m: Manifest, a: Artifact) {
    && (Lightweight(m) ==> a.kind == Diagnostics || a.kind == Screenshot)
    && a.kind != OtherKind
    && (if a.kind == Screenshot
        then a.size <= MAX_SCREENSHOT_BYTES && a.contentType in {"image/png", "image/jpeg", "image/webp"}
        else a.contentType == "application/x-ndjson")
  }

  predicate RangeOk(complete: bool, a: Artifact, lastRecord: int) {
    && 0 <= a.first <= MAX_SAFE && 0 <= a.last <= MAX_SAFE
    && (Ranged(a) ==>
          && lastRecord < a.first <= a.last
          && (complete ==> a.first == lastRecord + 1 && a.last - a.first + 1 == a.records))
  }

  // Whether artifact `i` may follow the ones before it.
  predicate ArtifactOk(m: Manifest, i: nat)
    requires i < |m.artifacts|
  {
    var a, before := m.artifacts[i], m.artifacts[..i];
    && a.wellFormed
    && (forall j :: 0 <= j < i ==> m.artifacts[j].id != a.id)
    && 1 <= a.size <= MAX_ARTIFACT_BYTES
    && 0 <= a.records <= MAX_SAFE
    && a.part == LastPart(before, a.source) + 1 && a.part <= MAX_SAFE
    && RangeOk(m.complete, a, LastRecord(before, a.source))
    && KindOk(m, a)
  }

  // Whether the first `n` artifacts may follow one another.
  predicate ArtifactsOk(m: Manifest, n: nat)
    requires n <= |m.artifacts|
  {
    forall i :: 0 <= i < n ==> ArtifactOk(m, i)
  }

  predicate WatermarkOk(m: Manifest, k: Watermark) {
    && (k.expected > 0 ==> k.exported == Records(m.artifacts, k.source))
    && 0 <= k.maxSeq <= MAX_SAFE && 0 <= k.size <= MAX_SAFE
    && 0 <= k.expected <= MAX_SAFE && 0 <= k.exported <= MAX_SAFE
    && (m.complete ==> k.expected == k.exported && !k.truncated)
  }

  predicate HasKind(arts: seq<Artifact>, kind: Kind) {
    exists a :: a in arts && a.kind == kind
  }

  predicate CompleteEnough(m: Manifest) {
    m.complete ==>
      && (!Lightweight(m) ==> HasKind(m.artifacts, Conversation) && HasKind(m.artifacts, Environment))
      && HasKind(m.artifacts, Diagnostics) && m.missing == 0
  }

  predicate WellFormed(m: Manifest) {
    && m.headerOk && 0 < |m.artifacts| <= MAX_ARTIFACTS
    && m.scope != OtherScope
    && (Lightweight(m) ==> m.runs == 0 && m.watermarks == [])
    && ArtifactsOk(m, |m.artifacts|)
    && (forall k :: k in m.watermarks ==> WatermarkOk(m, k))
    && CompleteEnough(m)
  }

  // The running values of the check.
  datatype Tally = Tally(
    seen: set<string>, kinds: set<Kind>, parts: map<string, int>, counts: map<string, int>,
    lastRecords: map<string, int>, screenshots: nat, total: int)

  function Or0(m: map<string, int>, k: string): int {
    if k in m then m[k] else 0
  }

  function Counted(t: Tally, a: Artifact): Tally {
    Tally(t.seen + {a.id}, t.kinds + {a.kind}, t.parts[a.source := a.part],
          t.counts[a.source := Or0(t.counts, a.source) + a.records],
          if Ranged(a) then t.lastRecords[a.source := a.last] else t.lastRecords,
          t.screenshots + (if a.kind == Screenshot then 1 else 0), t.total + a.size)
  }

  ghost predicate Tallies(t: Tally, arts: seq<Artifact>) {
    && (forall id :: id in t.seen <==> exists a :: a in arts && a.id == id)
    && (forall kind :: kind in t.kinds <==> HasKind(arts, kind))
    && (forall s :: Or0(t.parts, s) == LastPart(arts, s))
    && (forall s :: Or0(t.counts, s) == Records(arts, s))
    && (forall s :: Or0(t.lastRecords, s) == LastRecord(arts, s))
    && t.screenshots == Screenshots(arts)
  }

  lemma CountedTallies(t: Tally, arts: seq<Artifact>, a: Artifact)
    requires Tallies(t, arts)
    ensures Tallies(Counted(t, a), arts + [a])
  {
    var all := arts + [a];
    assert all[..|all| - 1] == arts;
    assert forall b :: b in all <==> b in arts || b == a;
    assert HasKind(all, a.kind);
    forall kind
      ensures HasKind(all, kind) <==> HasKind(arts, kind) || kind == a.kind
    {}
  }

  // The bytes to reserve, or why the manifest is refused.
  ghost function Verdict(m: Manifest): Result<nat, Rejection> {
    if !WellFormed(m) then Err(InvalidManifest)
    else if Total(Sizes(m.artifacts)) > MAX_REPORT_BYTES || Screenshots(m.artifacts) > MAX_SCREENSHOTS
      then Err(QuotaExceeded)
    else Ok(Total(Sizes(m.artifacts)))
  }

  // The checks are all made; a manifest that fails any is refused with the same answer,
  // and only one that passes them is held against the quota.
  method Validate(m: Manifest) returns (verdict: Result<nat, Rejection>)
    ensures verdict == Verdict(m)
  {
    var invalid := !m.headerOk || |m.artifacts| == 0 || |m.artifacts| > MAX_ARTIFACTS;
    var lightweight := m.scope == Basic || m.scope == DiagnosticsOnly;
    if m.scope == OtherScope || (lightweight && (m.runs > 0 || |m.watermarks| > 0)) {
      invalid := true;
    }
    var badArtifacts, t := CheckArtifacts(m);
    assert m.artifacts[..|m.artifacts|] == m.artifacts;
    var badWatermarks := CheckWatermarks(m, t);
    invalid := invalid || badArtifacts || badWatermarks;
    if m.complete && ((!lightweight && (Conversation !in t.kinds || Environment !in t.kinds))
                      || Diagnostics !in t.kinds || m.missing > 0) {
      invalid := true;
    }
    if invalid {
      return Err(InvalidManifest);
    }
    if t.total > MAX_REPORT_BYTES || t.screenshots > MAX_SCREENSHOTS {
      return Err(QuotaExceeded);
    }
    verdict := Ok(t.total);
  }

  // What is known after the first `n` artifacts.
  ghost predicate Checked(m: Manifest, n: nat, bad: bool, t: Tally)
    requires n <= |m.artifacts|
  {
    && Tallies(t, m.artifacts[..n])
    && (bad <==> !ArtifactsOk(m, n))
    && (!bad ==> Totals(m.artifacts[..n], t.total))
  }

  lemma CheckedNext(m: Manifest, i: nat, bad: bool, t: Tally)
    requires i < |m.artifacts| && Checked(m, i, bad, t)
    ensures Checked(m, i + 1, bad || !ArtifactOk(m, i), Counted(t, m.artifacts[i]))
  {
    var a := m.artifacts[i];
    assert m.artifacts[..i + 1] == m.artifacts[..i] + [a];
    ArtifactsOkNext(m, i);
    CountedTallies(t, m.artifacts[..i], a);
    if !bad && ArtifactOk(m, i) {
      FreshId(m, i);
      TotalsAppend(m.artifacts[..i], t.total, a);
    }
  }

  method CheckArtifacts(m: Manifest) returns (bad: bool, t: Tally)
    ensures Checked(m, |m.artifacts|, bad, t)
  {
    bad := false;
    t := Tally({}, {}, map[], map[], map[], 0, 0);
    for i := 0 to |m.artifacts|
      invariant Checked(m, i, bad, t)
    {
      var wrong := CheckArtifact(m, i, t);
      CheckedNext(m, i, bad, t);
      bad, t := bad || wrong, Counted(t, m.artifacts[i]);
    }
  }

  lemma ArtifactsOkNext(m: Manifest, i: nat)
    requires i < |m.artifacts|
    ensures ArtifactsOk(m, i + 1) <==> ArtifactsOk(m, i) && ArtifactOk(m, i)
  {}

  method CheckWatermarks(m: Manifest, t: Tally) returns (bad: bool)
    requires Tallies(t, m.artifacts)
    ensures bad <==> exists k :: k in m.watermarks && !WatermarkOk(m, k)
  {
    bad := false;
    for i := 0 to |m.watermarks|
      invariant bad <==> exists k :: k in m.watermarks[..i] && !WatermarkOk(m, k)
    {
      var wrong := CheckWatermark(m, m.watermarks[i], t);
      assert m.watermarks[..i + 1] == m.watermarks[..i] + [m.watermarks[i]];
      assert forall k :: k in m.watermarks[..i + 1] <==> k in m.watermarks[..i] || k == m.watermarks[i];
      bad := bad || wrong;
    }
    assert m.watermarks[..|m.watermarks|] == m.watermarks;
  }

  method CheckArtifact(m: Manifest, i: nat, t: Tally) returns (bad: bool)
    requires i < |m.artifacts| && Tallies(t, m.artifacts[..i])
    ensures bad <==> !ArtifactOk(m, i)
  {
    var a := m.artifacts[i];
    assert a.id in t.seen <==> exists j :: 0 <= j < i && m.artifacts[j].id == a.id by {
      if a.id in t.seen {
        var b :| b in m.artifacts[..i] && b.id == a.id;
        var j :| 0 <= j < i && m.artifacts[..i][j] == b;
        assert m.artifacts[j].id == a.id;
      }
      if j :| 0 <= j < i && m.artifacts[j].id == a.id {
        assert m.artifacts[..i][j] in m.artifacts[..i];
      }
    }
    bad := false;
    if !a.wellFormed || a.id in t.seen || a.size < 1 || a.size > MAX_ARTIFACT_BYTES || a.records < 0
       || a.records > MAX_SAFE || a.part != Or0(t.parts, a.source) + 1 {
      bad := true;
    }
    if a.first < 0 || a.first > MAX_SAFE || a.last < 0 || a.last > MAX_SAFE || a.part > MAX_SAFE {
      bad := true;
    }
    var reached := Or0(t.lastRecords, a.source);
    if a.first != 0 || a.last != 0 {
      if a.first <= reached || a.last < a.first
         || (m.complete && (a.first != reached + 1 || a.last - a.first + 1 != a.records)) {
        bad := true;
      }
    }
    if (m.scope == Basic || m.scope == DiagnosticsOnly) && a.kind != Diagnostics && a.kind != Screenshot {
      bad := true;
    }
    match a.kind
    case OtherKind => bad := true;
    case Screenshot =>
      if a.size > MAX_SCREENSHOT_BYTES
         || (a.contentType != "image/png" && a.contentType != "image/jpeg" && a.contentType != "image/webp") {
        bad := true;
      }
    case _ =>
      if a.contentType != "application/x-ndjson" {
        bad := true;
      }
  }

  method CheckWatermark(m: Manifest, k: Watermark, t: Tally) returns (bad: bool)
    requires Tallies(t, m.artifacts)
    ensures bad <==> !WatermarkOk(m, k)
  {
    bad := false;
    if k.expected > 0 && k.exported != Or0(t.counts, k.source) {
      bad := true;
    }
    if k.maxSeq < 0 || k.maxSeq > MAX_SAFE || k.size < 0 || k.size > MAX_SAFE || k.expected < 0 || k.expected > MAX_SAFE
       || k.exported < 0 || k.exported > MAX_SAFE {
      bad := true;
    }
    if m.complete && k.expected != k.exported {
      bad := true;
    }
    if m.complete && k.truncated {
      bad := true;
    }
  }

  lemma FreshId(m: Manifest, i: nat)
    requires i < |m.artifacts| && ArtifactOk(m, i)
    ensures forall b :: b in m.artifacts[..i] ==> b.id != m.artifacts[i].id
  {}

  ghost predicate Totals(arts: seq<Artifact>, total: int) {
    && (forall a :: a in arts ==> a.size >= 1)
    && (forall a :: a in arts ==> a.id in Sizes(arts))
    && (forall id :: id in Sizes(arts) ==> exists a :: a in arts && a.id == id)
    && total == Total(Sizes(arts))
  }

  lemma TotalsAppend(arts: seq<Artifact>, total: int, a: Artifact)
    requires Totals(arts, total) && a.size >= 1 && forall b :: b in arts ==> b.id != a.id
    ensures Totals(arts + [a], total + a.size)
  {
    var all := arts + [a];
    assert all[..|all| - 1] == arts;
    assert forall b :: b in all ==> b in arts || b == a;
    assert forall b :: b in arts ==> b in all;
    assert a in all;
    TotalWith(Sizes(arts), a.id, a.size);
  }

  // ---- What an accepted manifest promises ----

  function Parts(arts: seq<Artifact>, source: string): nat {
    if arts == [] then 0
    else Parts(arts[..|arts| - 1], source) + if arts[|arts| - 1].source == source then 1 else 0
  }

  // The parts of a source are numbered 1, 2, 3, ... without a gap, in order.
  lemma {:induction false} PartsAreNumbered(m: Manifest, n: nat, source: string)
    requires n <= |m.artifacts| && ArtifactsOk(m, n)
    ensures LastPart(m.artifacts[..n], source) == Parts(m.artifacts[..n], source)
  {
    if n > 0 {
      assert m.artifacts[..n][..n - 1] == m.artifacts[..n - 1];
      assert ArtifactOk(m, n - 1);
      PartsAreNumbered(m, n - 1, source);
    }
  }

  predicate Covers(a: Artifact, source: string) {
    a.source == source && Ranged(a)
  }

  // The records of the artifacts of a source that give a range.
  function RangedRecords(arts: seq<Artifact>, source: string): int {
    if arts == [] then 0
    else
      var a := arts[|arts| - 1];
      RangedRecords(arts[..|arts| - 1], source) + if Covers(a, source) then a.records else 0
  }

  // In a complete manifest the record ranges given for a source are consecutive from record
  // 1 and end at the number of records in the artifacts that give one.
  lemma {:induction false} RangesTileTheSource(m: Manifest, n: nat, source: string)
    requires m.complete && n <= |m.artifacts| && ArtifactsOk(m, n)
    ensures 0 <= LastRecord(m.artifacts[..n], source) == RangedRecords(m.artifacts[..n], source)
    ensures forall i, j :: 0 <= i < j < n && Covers(m.artifacts[i], source) && Covers(m.artifacts[j], source) ==>
        m.artifacts[i].last < m.artifacts[j].first
    ensures forall i :: 0 <= i < n && m.artifacts[i].source == source ==>
        m.artifacts[i].last <= LastRecord(m.artifacts[..n], source)
    ensures (forall i :: 0 <= i < n && m.artifacts[i].source == source ==> Covers(m.artifacts[i], source)) ==>
        LastRecord(m.artifacts[..n], source) == Records(m.artifacts[..n], source)
  {
    if n > 0 {
      assert m.artifacts[..n][..n - 1] == m.artifacts[..n - 1];
      assert ArtifactOk(m, n - 1);
      RangesTileTheSource(m, n - 1, source);
    }
  }

  // ... so that every record up to the last one lies in exactly one artifact.
  lemma {:induction false} RecordHasItsArtifact(m: Manifest, n: nat, source: string, r: int) returns (i: nat)
    requires m.complete && n <= |m.artifacts| && ArtifactsOk(m, n)
    requires 1 <= r <= LastRecord(m.artifacts[..n], source)
    ensures i < n && m.artifacts[i].source == source && m.artifacts[i].first <= r <= m.artifacts[i].last
    ensures forall j | 0 <= j < n && m.artifacts[j].source == source ::
        (m.artifacts[j].first <= r <= m.artifacts[j].last ==> j == i)
  {
    RangesTileTheSource(m, n, source);
    RangesTileTheSource(m, n - 1, source);
    assert m.artifacts[..n][..n - 1] == m.artifacts[..n - 1];
    assert ArtifactOk(m, n - 1);
    if r <= LastRecord(m.artifacts[..n - 1], source) {
      i := RecordHasItsArtifact(m, n - 1, source, r);
    } else {
      i := n - 1;
    }
  }

  // What the rest of the service needs of an accepted manifest: distinct artifacts of
  // positive size, whose sizes add up to what is reserved.
  lemma AcceptedSizes(m: Manifest)
    requires WellFormed(m)
    ensures forall a :: a in m.artifacts ==> a.size >= 1
    ensures forall i, j :: 0 <= i < j < |m.artifacts| ==> m.artifacts[i].id != m.artifacts[j].id
    ensures Total(Sizes(m.artifacts)) >= 1
    ensures forall a :: a in m.artifacts ==> a.id in Sizes(m.artifacts) && Sizes(m.artifacts)[a.id] == a.size
    ensures forall id :: id in Sizes(m.artifacts) ==> exists a :: a in m.artifacts && a.id == id
  {
    forall i | 0 <= i < |m.artifacts|
      ensures m.artifacts[i].size >= 1
    {
      assert ArtifactOk(m, i);
    }
    forall i, j | 0 <= i < j < |m.artifacts|
      ensures m.artifacts[i].id != m.artifacts[j].id
    {
      assert ArtifactOk(m, j);
    }
    SizesHold(m.artifacts);
    var a := m.artifacts[0];
    assert a in m.artifacts;
    TotalWithout(Sizes(m.artifacts), a.id);
  }

  lemma {:induction false} SizesHold(arts: seq<Artifact>)
    requires forall a :: a in arts ==> a.size >= 1
    requires forall i, j :: 0 <= i < j < |arts| ==> arts[i].id != arts[j].id
    ensures forall a :: a in arts ==> a.id in Sizes(arts) && Sizes(arts)[a.id] == a.size
    ensures forall id :: id in Sizes(arts) ==> exists a :: a in arts && a.id == id
  {
    if arts != [] {
      var before := arts[..|arts| - 1];
      SizesHold(before);
      assert arts == before + [arts[|arts| - 1]];
    }
  }
}
