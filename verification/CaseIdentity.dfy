/** Case ids: prefixes of a drift's digest, and the logs in which every case has one.

    In a legal log each detection carries its digest and an id made from it, and every other
    row belongs to a case already detected. From that alone keys and cases are paired, every
    case projects, and the guard holds an asset until its cases are resolved.
 */
module CaseIdentity {
  import opened Model
  import opened StateMachine
  import opened Log
  import opened Projection
  import opened Store

  // ---- Ids from digests ----

  /** A SHA-256 digest in hexadecimal. */
  predicate Digest(key: string) {
    |key| == 64 && forall i :: 0 <= i < |key| ==> '0' <= key[i] <= '9' || 'a' <= key[i] <= 'f'
  }

  function UpperChar(c: char): char {
    if 'a' <= c <= 'z' then (c as int - 32) as char else c
  }

  function Upper(text: string): (upper: string)
    ensures |upper| == |text|
  {
    seq(|text|, i requires 0 <= i < |text| => UpperChar(text[i]))
  }

  /** The case id of a given width. */
  function WideId(key: string, width: nat): string
    requires width <= |key|
  {
    "DR-" + Upper(key)[..width]
  }

  /** The canonical short id: the narrowest of them. */
  function CaseIdFromDedup(key: string): (caseId: string)
    requires |key| >= 8
    ensures caseId == WideId(key, 8)
  {
    "DR-" + Upper(key[..8])
  }

  /** The widths an id can have, narrowest first. */
  predicate Width(w: nat) {
    w % 8 == 0 && 8 <= w <= 64
  }

  predicate OwnId(caseId: string, key: string)
    requires |key| == 64
  {
    exists w: nat :: w <= 64 && Width(w) && caseId == WideId(key, w)
  }

  lemma {:induction false} FullIdNamesKey(a: string, b: string, w: nat)
    requires Digest(a) && Digest(b) && Width(w) && WideId(a, w) == WideId(b, 64)
    ensures a == b
  {
    assert |WideId(a, w)| == 3 + w;
    forall i | 0 <= i < 64 ensures a[i] == b[i] {
      assert WideId(a, w)[3 + i] == UpperChar(a[i]);
      assert WideId(b, 64)[3 + i] == UpperChar(b[i]);
    }
  }

  // ---- Logs that only ingest and advance wrote ----

  function IncidentUrn(caseId: string): string {
    "urn:li:dataRescueIncident:" + caseId
  }

  function DetectionOf(change: SchemaChange, key: string, caseId: string): Log.Request {
    Log.Request(caseId, SchemaChangeDetected(change, IncidentUrn(caseId)), DETECTED, Some(key), change.eventId)
  }

  /** A row of a detection carries its digest and an id made from it; a row of a stage belongs
      to a case that is already there. */
  ghost predicate Legal(before: seq<Row>, row: Row) {
    match row.event.body
    case SystemReset(_) => row.event.state.None?
    case SchemaChangeDetected(_, _) =>
      && row.event.state.Some?
      && row.dedupKey.Some? && Digest(row.dedupKey.value) && OwnId(row.caseId, row.dedupKey.value)
    case _ => row.event.state.Some? && row.dedupKey.None? && CaseIdExists(before, row.caseId)
  }

  ghost predicate LegalLog(rows: seq<Row>) {
    ValidLog(rows) && forall i :: 0 <= i < |rows| ==> Legal(rows[..i], rows[i])
  }

  lemma {:induction false} LegalIsValid(rows: seq<Row>)
    requires LegalLog(rows)
    ensures ValidLog(rows)
  {
  }

  /** What a process may ask the store to append. */
  predicate LegalRequest(rows: seq<Row>, req: Log.Request) {
    match req.body
    case SystemReset(_) => false
    case SchemaChangeDetected(_, _) =>
      req.dedupKey.Some? && Digest(req.dedupKey.value) && OwnId(req.caseId, req.dedupKey.value)
    case _ => req.dedupKey.None? && CaseIdExists(rows, req.caseId)
  }

  lemma {:induction false} LegalAppend(rows: seq<Row>, req: Log.Request, now: int)
    requires LegalLog(rows) && LegalRequest(rows, req)
    ensures LegalLog(AfterAppend(rows, req, now))
  {
    AppendKeepsValid(rows, req, now);
    var after := AfterAppend(rows, req, now);
    assert after == rows || after == rows + [RowFor(rows, req, now)];
    hide ValidLog, CaseIdExists, Digest, OwnId, AppendOutcome, AfterAppend, CurrentScope;
    forall i | 0 <= i < |after| ensures Legal(after[..i], after[i]) {
      if i < |rows| {
        assert after[..i] == rows[..i];
        assert Legal(rows[..i], rows[i]);
      } else {
        assert after[..i] == rows;
      }
    }
  }

  lemma {:induction false} LegalReset(rows: seq<Row>, reason: string, now: int)
    requires LegalLog(rows)
    ensures LegalLog(AfterReset(rows, reason, now))
  {
    ResetKeepsValid(rows, reason, now);
    hide ValidLog, CurrentScope;
    var after := AfterReset(rows, reason, now);
    forall i | 0 <= i < |after| ensures Legal(after[..i], after[i]) {
      assert after[..i] == rows[..i];
      assert i < |rows| ==> Legal(rows[..i], rows[i]);
    }
  }

  // ---- What the queries find ----

  ghost predicate RowOf(rows: seq<Row>, i: int, caseId: string, scope: nat) {
    0 <= i < |rows| && rows[i].caseId == caseId && rows[i].resetScope == scope
  }

  lemma {:induction false} SelectFinds(rows: seq<Row>, caseId: string, floor: nat)
    ensures Select(rows, caseId, floor) != [] <==>
            exists i :: 0 <= i < |rows| && rows[i].caseId == caseId && rows[i].sequence > floor
  {
    if rows != [] {
      var init := rows[..|rows| - 1];
      SelectFinds(init, caseId, floor);
      if i :| 0 <= i < |rows| && rows[i].caseId == caseId && rows[i].sequence > floor {
        assert i < |init| ==> init[i] == rows[i];
      }
    }
  }

  /** An id exists when some row of the current scope has it. */
  lemma {:induction false} ExistsMeans(rows: seq<Row>, caseId: string)
    requires ValidLog(rows)
    ensures CaseIdExists(rows, caseId) <==> exists i :: RowOf(rows, i, caseId, CurrentScope(rows))
  {
    SelectFinds(rows, caseId, CurrentScope(rows));
    forall i | 0 <= i < |rows|
      ensures rows[i].sequence > CurrentScope(rows) <==> rows[i].resetScope == CurrentScope(rows)
    {
      ScopesAgree(rows, i);
    }
    hide ValidLog, CurrentScope, Select;
    if CaseIdExists(rows, caseId) {
      var i :| 0 <= i < |rows| && rows[i].caseId == caseId && rows[i].sequence > CurrentScope(rows);
      assert RowOf(rows, i, caseId, CurrentScope(rows));
    }
  }

  ghost predicate KeyRow(rows: seq<Row>, i: int, key: string, scope: nat) {
    0 <= i < |rows| && rows[i].dedupKey == Some(key) && rows[i].resetScope == scope
  }

  /** A reset row is stamped with a scope that it closes. */
  lemma {:induction false} ResetCloses(rows: seq<Row>, i: nat)
    requires ValidLog(rows) && i < |rows| && rows[i].event.body.SystemReset?
    ensures rows[i].resetScope < CurrentScope(rows)
  {
    var init := rows[..|rows| - 1];
    ScopeIsPast(init);
    RowSequence(rows, i);
    if i < |init| {
      ResetCloses(init, i);
    }
  }

  lemma {:induction false} NoStateNoRows(rows: seq<Row>, caseId: string, scope: nat, i: nat)
    requires CurrentState(rows, caseId, scope).None?
    requires i < |rows| && rows[i].caseId == caseId && rows[i].sequence > scope
    ensures rows[i].event.state.None?
  {
    if i < |rows| - 1 {
      NoStateNoRows(rows[..|rows| - 1], caseId, scope, i);
    }
  }

  predicate IsDetection(row: Row) {
    row.event.body.SchemaChangeDetected?
  }

  /** Before every row of a case, in its scope, comes the case's detection. */
  lemma {:induction false} DetectionComesFirst(rows: seq<Row>, i: nat) returns (j: nat)
    requires LegalLog(rows) && i < |rows| && !rows[i].event.body.SystemReset?
    ensures j <= i && IsDetection(rows[j])
    ensures rows[j].caseId == rows[i].caseId && rows[j].resetScope == rows[i].resetScope
    decreases i
  {
    if IsDetection(rows[i]) {
      j := i;
    } else {
      var before := rows[..i];
      PrefixIsValid(rows, i);
      assert Legal(before, rows[i]);
      ExistsMeans(before, rows[i].caseId);
      hide ValidLog, CurrentScope, CaseIdExists, OwnId, Digest;
      var k :| RowOf(before, k, rows[i].caseId, CurrentScope(before));
      if rows[k].event.body.SystemReset? {
        ResetCloses(before, k);
      }
      j := DetectionComesFirst(rows, k);
    }
  }

  /** In one scope no two detections share a key or a case. */
  lemma {:induction false} DetectionsDiffer(rows: seq<Row>, i: nat, j: nat)
    requires LegalLog(rows) && i < j < |rows| && rows[i].resetScope == rows[j].resetScope
    requires IsDetection(rows[i]) && IsDetection(rows[j])
    ensures rows[i].caseId != rows[j].caseId && rows[i].dedupKey != rows[j].dedupKey
  {
    var before := rows[..j];
    PrefixIsValid(rows, j);
    ScopesAgree(before, i);
    assert Legal(rows[..i], rows[i]) && Legal(before, rows[j]);
    FoundKey(before, rows[j].dedupKey.value, rows[j].resetScope);
    assert before[i] == rows[i];
    hide ValidLog, CurrentScope, OwnId, Digest, CurrentState, FindKey;
    if rows[i].caseId == rows[j].caseId {
      NoStateNoRows(before, rows[j].caseId, rows[j].resetScope, i);
    }
  }

  /** The only key that can hold an id of full width is the key it spells. */
  lemma {:induction false} FullWidthIsOwn(rows: seq<Row>, key: string)
    requires LegalLog(rows) && Digest(key) && CaseIdExists(rows, WideId(key, 64))
    ensures FindKey(rows, key, CurrentScope(rows)).Some?
  {
    ExistsMeans(rows, WideId(key, 64));
    hide ValidLog, CurrentScope, CaseIdExists, Digest, WideId, FindKey;
    var i :| RowOf(rows, i, WideId(key, 64), CurrentScope(rows));
    if rows[i].event.body.SystemReset? {
      ResetCloses(rows, i);
    }
    var j := DetectionComesFirst(rows, i);
    assert Legal(rows[..j], rows[j]);
    var w :| Width(w) && rows[j].caseId == WideId(rows[j].dedupKey.value, w);
    FullIdNamesKey(rows[j].dedupKey.value, key, w);
    FoundKey(rows, key, CurrentScope(rows));
  }

  /** In each scope the detections pair keys with cases one to one, and every row of a case
      comes after its one detection. */
  ghost predicate KeysPairWithCases(rows: seq<Row>) {
    && (forall i, j {:trigger rows[i], rows[j]} :: 0 <= i < |rows| && 0 <= j < |rows|
          && IsDetection(rows[i]) && IsDetection(rows[j]) && rows[i].resetScope == rows[j].resetScope
          ==> (rows[i].dedupKey == rows[j].dedupKey <==> i == j) && (rows[i].caseId == rows[j].caseId <==> i == j))
    && (forall i :: 0 <= i < |rows| && !rows[i].event.body.SystemReset? ==>
          exists j :: 0 <= j <= i && IsDetection(rows[j]) && RowOf(rows, j, rows[i].caseId, rows[i].resetScope))
  }

  lemma {:induction false} OneKeyOneCase(rows: seq<Row>)
    requires LegalLog(rows)
    ensures KeysPairWithCases(rows)
  {
    hide LegalLog;
    forall i, j | 0 <= i < |rows| && 0 <= j < |rows|
        && IsDetection(rows[i]) && IsDetection(rows[j]) && rows[i].resetScope == rows[j].resetScope
      ensures rows[i].dedupKey == rows[j].dedupKey <==> i == j
      ensures rows[i].caseId == rows[j].caseId <==> i == j
    {
      if i < j {
        DetectionsDiffer(rows, i, j);
      } else if j < i {
        DetectionsDiffer(rows, j, i);
      }
    }
    forall i | 0 <= i < |rows| && !rows[i].event.body.SystemReset?
      ensures exists j :: 0 <= j <= i && IsDetection(rows[j]) && RowOf(rows, j, rows[i].caseId, rows[i].resetScope)
    {
      var j := DetectionComesFirst(rows, i);
      assert RowOf(rows, j, rows[i].caseId, rows[i].resetScope);
    }
  }

  /** The selected rows of a case: the first is its detection, and no other is. */
  ghost predicate OneDetection(rows: seq<Row>) {
    forall k :: 0 <= k < |rows| ==> rows[k].event.state.Some? && (IsDetection(rows[k]) <==> k == 0)
  }

  lemma {:induction false} StreamStarts(rows: seq<Row>, n: nat, caseId: string)
    requires LegalLog(rows) && n <= |rows|
    ensures OneDetection(Select(rows[..n], caseId, CurrentScope(rows)))
  {
    if n > 0 {
      var scope := CurrentScope(rows);
      StreamStarts(rows, n - 1, caseId);
      assert rows[..n][..n - 1] == rows[..n - 1];
      var row := rows[n - 1];
      if row.caseId == caseId && row.sequence > scope {
        NextOfStream(rows, n - 1);
      }
    }
  }

  /** A row of the current scope opens its case's stream exactly when it is a detection. */
  lemma {:induction false} NextOfStream(rows: seq<Row>, i: nat)
    requires LegalLog(rows) && i < |rows| && rows[i].sequence > CurrentScope(rows)
    ensures rows[i].event.state.Some?
    ensures IsDetection(rows[i]) <==> Select(rows[..i], rows[i].caseId, CurrentScope(rows)) == []
  {
    var scope := CurrentScope(rows);
    var before := rows[..i];
    PrefixIsValid(rows, i);
    ScopesAgree(rows, i);
    assert Legal(before, rows[i]);
    if rows[i].event.body.SystemReset? {
      ResetCloses(rows, i);
    }
    SelectFinds(before, rows[i].caseId, scope);
    if IsDetection(rows[i]) && Select(before, rows[i].caseId, scope) != [] {
      var k :| 0 <= k < |before| && before[k].caseId == rows[i].caseId && before[k].sequence > scope;
      NoStateNoRows(before, rows[i].caseId, scope, k);
      assert Legal(rows[..k], rows[k]);
      assert rows[k].event.body.SystemReset?;
      ScopesAgree(rows, k);
      ResetCloses(rows, k);
    }
  }

  /** A case that was detected for the asset. */
  ghost predicate CaseOf(rows: seq<Row>, asset: string, caseId: string) {
    && ActiveCase(rows, caseId) && Started(CaseStream(rows, caseId))
    && CaseStream(rows, caseId)[0].body.change.entityUrn == asset
  }

  lemma {:induction false} OpenMeansUnresolved(rows: seq<Row>, asset: string, caseId: string)
    requires LegalLog(rows)
    ensures OpenCase(rows, asset, caseId) <==>
            CaseOf(rows, asset, caseId) && CurrentState(rows, caseId, CurrentScope(rows)) != Some(RESOLVED)
  {
    if ActiveCase(rows, caseId) {
      CasesAreStarted(rows, caseId);
      FoldMeaning(CaseStream(rows, caseId));
      NoResetReflexive(rows);
      hide LegalLog, ValidLog, CaseStream, Fold, CurrentState, NoResetSince, CurrentScope, Started;
      if CaseOf(rows, asset, caseId) {
        LegalIsValid(rows);
        GuardPersists(rows, rows, asset, caseId);
      }
    }
  }

  /** Once a case of the asset is detected, and until a reset, the guard blocks the asset exactly as
      long as some case of it is not RESOLVED; and the detected case stays a case of it. */
  lemma {:induction false} GuardHoldsUntilResolved(rows: seq<Row>, later: seq<Row>, asset: string, caseId: string)
    requires LegalLog(rows) && LegalLog(later) && NoResetSince(rows, later) && CaseOf(rows, asset, caseId)
    ensures CaseOf(later, asset, caseId)
    ensures (exists id :: OpenCase(later, asset, id)) <==>
            !(forall id :: CaseOf(later, asset, id) ==> CurrentState(later, id, CurrentScope(later)) == Some(RESOLVED))
  {
    ScopeStays(rows, later);
    SelectGrows(rows, later, caseId, CurrentScope(rows));
    assert CaseOf(later, asset, caseId) by {
      hide CurrentScope, Select, LegalLog;
      assert CaseStream(later, caseId)[0] == CaseStream(rows, caseId)[0];
    }
    hide LegalLog, OpenCase, CaseOf, CurrentState, CurrentScope;
    forall id
      ensures OpenCase(later, asset, id) <==>
              CaseOf(later, asset, id) && CurrentState(later, id, CurrentScope(later)) != Some(RESOLVED)
    {
      OpenMeansUnresolved(later, asset, id);
    }
  }

  lemma {:induction false} ExistsStays(rows: seq<Row>, later: seq<Row>, caseId: string)
    requires ValidLog(rows) && ValidLog(later) && NoResetSince(rows, later) && CaseIdExists(rows, caseId)
    ensures CaseIdExists(later, caseId)
  {
    ScopeStays(rows, later);
    SelectGrows(rows, later, caseId, CurrentScope(rows));
  }

  /** The log grew by rows of stages of this case. */
  ghost predicate StagesOnly(rows: seq<Row>, after: seq<Row>, caseId: string) {
    && NoResetSince(rows, after)
    && forall i :: |rows| <= i < |after| ==>
         && after[i].caseId == caseId && after[i].dedupKey.None? && after[i].event.state.Some?
         && !after[i].event.body.SchemaChangeDetected?
  }

  lemma {:induction false} StagesKeepLegal(rows: seq<Row>, after: seq<Row>, caseId: string)
    requires LegalLog(rows) && ValidLog(after) && StagesOnly(rows, after, caseId) && CaseIdExists(rows, caseId)
    ensures LegalLog(after)
  {
    forall i | 0 <= i < |after| ensures Legal(after[..i], after[i]) {
      if i < |rows| {
        assert after[..i] == rows[..i];
        assert Legal(rows[..i], rows[i]);
      } else {
        PrefixIsValid(after, i);
        ExistsStays(rows, after[..i], caseId);
      }
    }
  }

  /** Every case that exists can be projected, so listing the cases and asking for the guard never
      meet a stream they cannot; and its stream has one detection, at the front. */
  lemma {:induction false} CasesAreStarted(rows: seq<Row>, caseId: string)
    requires LegalLog(rows) && CaseIdExists(rows, caseId)
    ensures Started(CaseStream(rows, caseId)) && Project(EventsForCase(rows, caseId, 0)).Some?
    ensures forall k :: 0 <= k < |CaseStream(rows, caseId)| ==>
              (CaseStream(rows, caseId)[k].body.SchemaChangeDetected? <==> k == 0)
  {
    assert rows[..|rows|] == rows;
    StreamStarts(rows, |rows|, caseId);
  }
}
