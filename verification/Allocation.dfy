/** Claiming a case id for a delivery: what each look at the log and each append establishes. */
module Allocation {
  import opened Model
  import opened StateMachine
  import opened Log
  import opened Projection
  import opened Store
  import opened Recovery
  import opened CaseIdentity
  import CaseLogs
  import IngestRace
  import Canonical
  import opened AdvanceSteps

  // ---- Answers of an ingest ----

  datatype Response =
    | NotAllowed
    | EventConflict
    | AllocationFailed
    | CaseResponse(caseId: string, snapshot: Snapshot, deduplicated: bool)

  /** What claiming a case id for a key comes to. */
  datatype Claim =
    | Claimed(caseId: string)
    | AlreadyClaimed(caseId: string)
    | IdReused
    | NoIdFree

  /** The steps other processes take meanwhile: before each look-up, probe, id check and append of a
      detection, on any case; and between the stages of an advance, on other cases. */
  type Rivals = nat -> seq<CaseLogs.CaseStep>

  ghost predicate Quiet(rivals: Rivals) {
    forall k :: rivals(k) == []
  }

  lemma {:induction false} QuietBatch(rivals: Rivals, k: nat)
    requires Quiet(rivals)
    ensures rivals(k) == []
  {
  }

  // ---- Advancing while others act ----

  /** What a part of an advance does to the log while others step on other cases: the own stream
      grew, the log is legal, and other cases are as good as they were; if nobody stepped, they are
      as they were. */
  ghost predicate Went(settings: Settings, quiet: bool, rows: seq<Row>, after: seq<Row>, caseId: string) {
    && LegalLog(after) && NoResetSince(rows, after)
    && CaseStream(rows, caseId) <= CaseStream(after, caseId)
    && (CaseLogs.OthersOk(settings, rows, caseId) ==> CaseLogs.OthersOk(settings, after, caseId))
    && (quiet ==> Grew(rows, after, caseId))
  }

  lemma {:induction false} WentNowhere(settings: Settings, quiet: bool, rows: seq<Row>, caseId: string)
    requires LegalLog(rows)
    ensures Went(settings, quiet, rows, rows, caseId)
  {
    LegalIsValid(rows);
    hide LegalLog, ValidLog, CaseStream, CaseLogs.OthersOk, Grew;
    NoResetReflexive(rows);
    GrewReflexive(rows, caseId);
  }

  /** One more stage of the advance. */
  lemma {:induction false} WentOn(settings: Settings, quiet: bool, rows: seq<Row>, middle: seq<Row>, after: seq<Row>,
        caseId: string)
    requires Went(settings, quiet, rows, middle, caseId) && Grew(middle, after, caseId)
    requires Started(CaseStream(middle, caseId))
    ensures Went(settings, quiet, rows, after, caseId)
    ensures LegalLog(after) && ValidLog(after)
  {
    StreamExists(middle, caseId);
    CaseLogs.GrewKeepsOthers(settings, middle, after, caseId);
    hide LegalLog, ValidLog, CaseStream, CaseLogs.OthersOk, CurrentScope;
    StagesKeepLegal(middle, after, caseId);
    NoResetTransitive(rows, middle, after);
    if quiet {
      GrewTransitive(rows, middle, after, caseId);
    }
  }

  /** Others stepped elsewhere. */
  lemma {:induction false} WentElsewhere(settings: Settings, quiet: bool, rows: seq<Row>, middle: seq<Row>,
        after: seq<Row>, caseId: string)
    requires Went(settings, quiet, rows, middle, caseId) && LegalLog(after) && NoResetSince(middle, after)
    requires CaseStream(after, caseId) == CaseStream(middle, caseId) && (quiet ==> after == middle)
    requires CaseLogs.OthersOk(settings, middle, caseId) ==> CaseLogs.OthersOk(settings, after, caseId)
    ensures Went(settings, quiet, rows, after, caseId)
  {
    hide LegalLog, CaseStream, CaseLogs.OthersOk, Grew;
    NoResetTransitive(rows, middle, after);
  }

  lemma {:induction false} WentKeepsStarted(settings: Settings, quiet: bool, rows: seq<Row>, after: seq<Row>,
        caseId: string)
    requires Went(settings, quiet, rows, after, caseId)
    ensures LegalLog(after) && ValidLog(after) && NoResetSince(rows, after)
    ensures CaseStream(rows, caseId) <= CaseStream(after, caseId)
    ensures Started(CaseStream(rows, caseId)) ==> Started(CaseStream(after, caseId))
    ensures CaseLogs.OthersOk(settings, rows, caseId) ==> CaseLogs.OthersOk(settings, after, caseId)
  {
    LegalIsValid(after);
    hide LegalLog, ValidLog, CaseStream, CaseLogs.OthersOk, Grew;
  }

  // ---- Allocation, one probe at a time ----

  lemma {:induction false} FloorStays(rows: seq<Row>, later: seq<Row>, key: string, floor: nat)
    requires LegalLog(rows) && LegalLog(later) && NoResetSince(rows, later) && |key| == 64
    requires FindCaseForDedup(rows, key).None? ==> IngestRace.TakenBelow(rows, key, floor)
    requires FindCaseForDedup(later, key).None?
    ensures FindCaseForDedup(rows, key).None? && IngestRace.TakenBelow(later, key, floor)
  {
    hide ValidLog, CaseIdExists, FindCaseForDedup, IngestRace.TakenBelow;
    if FindCaseForDedup(rows, key).Some? {
      IngestRace.FoundStays(rows, later, key);
    }
    IngestRace.TakenStays(rows, later, key, floor);
  }

  lemma {:induction false} NothingBelowEight(rows: seq<Row>, key: string)
    requires |key| == 64
    ensures IngestRace.TakenBelow(rows, key, 8)
  {
  }

  lemma {:induction false} StillTaken(seen: seq<Row>, rows: seq<Row>, later: seq<Row>, key: string, width: nat)
    requires LegalLog(rows) && LegalLog(later) && NoResetSince(seen, rows) && NoResetSince(rows, later)
    requires |key| == 64 && IngestRace.TakenBelow(rows, key, width)
    ensures NoResetSince(seen, later) && IngestRace.TakenBelow(later, key, width)
  {
    NoResetTransitive(seen, rows, later);
    hide ValidLog, CaseIdExists, IngestRace.TakenBelow, NoResetSince;
    IngestRace.TakenStays(rows, later, key, width);
  }

  lemma {:induction false} FirstFreeStep(rows: seq<Row>, key: string, width: nat)
    requires |key| == 64
    ensures IngestRace.FirstFree(rows, key, width) ==
            if width > 64 then None
            else if !CaseIdExists(rows, WideId(key, width)) then Some(WideId(key, width))
            else IngestRace.FirstFree(rows, key, width + 8)
  {
  }

  lemma {:induction false} OneMoreTaken(rows: seq<Row>, key: string, width: nat)
    requires |key| == 64 && Width(width) && CaseIdExists(rows, WideId(key, width))
    requires IngestRace.TakenBelow(rows, key, width)
    ensures IngestRace.TakenBelow(rows, key, width + 8)
  {
    hide CaseIdExists, WideId;
  }

  lemma {:induction false} AllTaken(rows: seq<Row>, key: string)
    requires LegalLog(rows) && Digest(key) && IngestRace.TakenBelow(rows, key, 72)
    ensures FindCaseForDedup(rows, key).Some?
  {
    assert Width(64);
    FullWidthIsOwn(rows, key);
  }

  lemma {:induction false} NotYetRecorded(rows: seq<Row>, later: seq<Row>, key: string)
    requires NoResetSince(rows, later) && FindCaseForDedup(later, key).None?
    ensures FindCaseForDedup(rows, key).None?
  {
    if FindCaseForDedup(rows, key).Some? {
      IngestRace.FoundStays(rows, later, key);
    }
  }

  lemma {:induction false} NotRecordedBefore(rows: seq<Row>, later: seq<Row>, key: string)
    requires NoResetSince(rows, later)
    ensures FindCaseForDedup(later, key).None? ==> FindCaseForDedup(rows, key).None?
  {
    hide FindCaseForDedup;
    if FindCaseForDedup(later, key).None? {
      NotYetRecorded(rows, later, key);
    }
  }

  function DetectionEvent(change: SchemaChange, caseId: string): Event {
    Event(SchemaChangeDetected(change, IncidentUrn(caseId)), Some(DETECTED))
  }

  /** A key recorded for a case is found for that case and no other. */
  lemma {:induction false} RecordedIsFound(rows: seq<Row>, key: string, caseId: string)
    requires LegalLog(rows) && IngestRace.Recorded(rows, key, caseId, CurrentScope(rows))
    ensures FindCaseForDedup(rows, key) == Some(caseId)
  {
    IngestRace.FoundIsRecorded(rows, key);
    hide LegalLog, CurrentScope, FindCaseForDedup;
    IngestRace.SharedScope(rows, key, caseId, key, FindCaseForDedup(rows, key).value, CurrentScope(rows));
  }

  lemma {:induction false} CheckedMeans(rows: seq<Row>, change: SchemaChange, key: string, caseId: string)
    requires LegalLog(rows)
    ensures var checked := IngestRace.CheckEventId(rows, DetectionOf(change, key, caseId));
            checked.Bound? ==> checked.caseId == caseId && FindCaseForDedup(rows, key) == Some(caseId)
  {
    var req := DetectionOf(change, key, caseId);
    if IngestRace.CheckEventId(rows, req).Bound? {
      IngestRace.BoundIsRecorded(rows, change, key, caseId, Supplied(req.eventId.value));
      hide *;
      RecordedIsFound(rows, key, caseId);
    }
  }

  /** How the append of a detection can end, for a process that holds its id. */
  lemma {:induction false} AppendsDetection(start: seq<Row>, rows: seq<Row>, change: SchemaChange, key: string,
        caseId: string, attempt: nat, now: int)
    requires LegalLog(rows) && Digest(key) && IngestRace.Holds(rows, key, attempt, caseId) && NoResetSince(start, rows)
    ensures var req := DetectionOf(change, key, caseId);
            var after := AfterAppend(rows, req, now);
            && LegalLog(after) && NoResetSince(start, after)
            && match AppendOutcome(rows, req, now)
               case Appended(_) =>
                 && FindCaseForDedup(start, key).None?
                 && FindCaseForDedup(after, key) == Some(caseId)
                 && CaseStream(after, caseId) == [DetectionEvent(change, caseId)]
               case Duplicate(other) => after == rows && FindCaseForDedup(after, key) == Some(other)
               case Conflict(_) => after == rows
               case InvalidTransition => after == rows && FindCaseForDedup(rows, key).None?
                                         && CaseIdExists(rows, caseId)
  {
    var req := DetectionOf(change, key, caseId);
    var after := AfterAppend(rows, req, now);
    IngestRace.LengthOfDigest(key);
    IngestRace.HeldIsOwn(rows, key, attempt, caseId);
    LegalAppend(rows, req, now);
    LegalIsValid(rows);
    IngestRace.KeepsScope(rows, req, now);
    NoResetTransitive(start, rows, after);
    IngestRace.TriedMeans(rows, change, key, caseId, now);
    match AppendOutcome(rows, req, now)
    case Appended(_) =>
      NowDetected(start, rows, change, key, caseId, now);
    case Duplicate(other) =>
      hide *;
      RecordedIsFound(rows, key, other);
    case Conflict(_) =>
    case InvalidTransition =>
  }

  lemma {:induction false} NowDetected(start: seq<Row>, rows: seq<Row>, change: SchemaChange, key: string,
        caseId: string, now: int)
    requires LegalLog(rows) && NoResetSince(start, rows) && !CaseIdExists(rows, caseId)
    requires AppendOutcome(rows, DetectionOf(change, key, caseId), now).Appended?
    requires LegalLog(AfterAppend(rows, DetectionOf(change, key, caseId), now))
    ensures var after := AfterAppend(rows, DetectionOf(change, key, caseId), now);
            && FindCaseForDedup(start, key).None?
            && FindCaseForDedup(after, key) == Some(caseId)
            && CaseStream(after, caseId) == [DetectionEvent(change, caseId)]
  {
    var req := DetectionOf(change, key, caseId);
    var after := AfterAppend(rows, req, now);
    assert FindCaseForDedup(rows, key).None? && after == rows + [RowFor(rows, req, now)];
    NotYetRecorded(start, rows, key);
    AppendExtendsStream(rows, req, now, caseId);
    StreamExists(rows, caseId);
    hide AppendOutcome, LegalLog, CaseStream, FindCaseForDedup, CurrentScope;
    assert KeyRow(after, |rows|, key, CurrentScope(after));
    RecordedIsFound(after, key, caseId);
  }

  /** The append of a detection keeps every case good. */
  lemma {:induction false} DetectionKeepsCases(settings: Settings, rows: seq<Row>, change: SchemaChange, key: string,
        caseId: string, attempt: nat, now: int)
    requires LegalLog(rows) && Digest(key) && IngestRace.Holds(rows, key, attempt, caseId)
    ensures CaseLogs.CasesOk(settings, rows) ==>
            CaseLogs.CasesOk(settings, AfterAppend(rows, DetectionOf(change, key, caseId), now))
  {
    hide LegalLog, CaseLogs.CasesOk, AfterAppend, Digest, OwnId, IngestRace.Holds;
    IngestRace.LengthOfDigest(key);
    IngestRace.HeldIsOwn(rows, key, attempt, caseId);
    CaseLogs.StepKeepsCases(settings, rows, CaseLogs.Detects(change, key, caseId), now);
  }

  /** An absent key, a free id and an event id not bound elsewhere: the append succeeds. */
  lemma {:induction false} QuietAppends(rows: seq<Row>, change: SchemaChange, key: string, caseId: string, now: int)
    requires LegalLog(rows) && |key| == 64 && IngestRace.Available(rows, key) == Some(caseId) && Digest(key)
    requires IngestRace.CheckEventId(rows, DetectionOf(change, key, caseId)).Unbound?
    ensures FindCaseForDedup(rows, key).None? ==> AppendOutcome(rows, DetectionOf(change, key, caseId), now).Appended?
  {
    if FindCaseForDedup(rows, key).None? {
      IngestRace.AtomicAllocationSucceeds(rows, key);
      IngestRace.StateMeansExists(rows, caseId);
      FreshIdIsFresh(rows, CurrentScope(rows));
    }
  }

  /** SHA-256 of a canonical event gives 64 lower-case hexadecimal digits. */
  ghost predicate HexDigests(settings: Settings) {
    forall event :: Digest(settings.eventDigest(event))
  }

  function KeyOf(settings: Settings, change: SchemaChange): string {
    Canonical.DedupKey(settings.eventDigest, change)
  }

  lemma {:induction false} KeyIsDigest(settings: Settings, change: SchemaChange)
    requires HexDigests(settings)
    ensures Digest(KeyOf(settings, change)) && |KeyOf(settings, change)| == 64
  {
    IngestRace.LengthOfDigest(KeyOf(settings, change));
  }

  /** A redelivery resumes a case that can go on and that the process does not own. */
  function Redelivery(settings: Settings, d: Delivery, events: seq<Event>, owned: set<string>): seq<Event>
    requires Started(events)
  {
    if Fold(events).state in RESUMABLE && d.caseId !in owned then Run(settings, d, events, {}) else events
  }

  ghost predicate AnswersFor(rows: seq<Row>, key: string, response: Response) {
    && response.CaseResponse?
    && FindCaseForDedup(rows, key) == Some(response.caseId)
    && Project(EventsForCase(rows, response.caseId, 0)) == Some(response.snapshot)
  }

  /** What an ingest comes to when no other process appends meanwhile. */
  ghost predicate QuietAnswer(settings: Settings, before: seq<Row>, after: seq<Row>, owned: set<string>,
                              change: SchemaChange, adapters: Recovery.Adapters, response: Response)
  {
    var key := KeyOf(settings, change);
    && |key| == 64 && IngestRace.Available(before, key).Some?
    && var caseId := IngestRace.Available(before, key).value;
       if IngestRace.CheckEventId(before, DetectionOf(change, key, caseId)).Clash? then
         response.EventConflict? && after == before
       else
         && response.CaseResponse? && response.caseId == caseId
         && (response.deduplicated <==> FindCaseForDedup(before, key).Some?)
         && (response.deduplicated ==>
             && Started(CaseStream(before, caseId))
             && CaseStream(after, caseId) ==
                Redelivery(settings, Delivery(caseId, change, adapters), CaseStream(before, caseId), owned))
  }

  /** The stream of a case opened and advanced by one ingest. */
  ghost predicate OpenedAndRun(settings: Settings, rows: seq<Row>, d: Delivery) {
    CaseStream(rows, d.caseId) == Run(settings, d, [DetectionEvent(d.change, d.caseId)], {})
  }

  /** The case found for a key is there, and projects. */
  lemma {:induction false} FoundIsStarted(rows: seq<Row>, key: string)
    requires LegalLog(rows) && FindCaseForDedup(rows, key).Some?
    ensures var caseId := FindCaseForDedup(rows, key).value;
            && CaseIdExists(rows, caseId) && Started(CaseStream(rows, caseId))
            && Project(EventsForCase(rows, caseId, 0)).Some?
            && Project(EventsForCase(rows, caseId, 0)).value.view == Fold(CaseStream(rows, caseId))
  {
    var caseId := FindCaseForDedup(rows, key).value;
    IngestRace.FoundIsRecorded(rows, key);
    ExistsMeans(rows, caseId);
    hide LegalLog, CurrentScope, FindCaseForDedup, CaseIdExists, EventsForCase, Fold;
    var i :| KeyRow(rows, i, key, CurrentScope(rows)) && rows[i].caseId == caseId;
    assert RowOf(rows, i, caseId, CurrentScope(rows));
    CasesAreStarted(rows, caseId);
  }

  /** While a case is advanced its key stays with it. */
  lemma {:induction false} AdvanceKeepsKey(rows: seq<Row>, after: seq<Row>, key: string, caseId: string)
    requires LegalLog(rows) && LegalLog(after) && NoResetSince(rows, after)
    requires FindCaseForDedup(rows, key) == Some(caseId)
    ensures FindCaseForDedup(after, key) == Some(caseId)
  {
    IngestRace.FoundIsRecorded(rows, key);
    ScopeStays(rows, after);
    hide FindCaseForDedup, CurrentScope, LegalLog;
    IngestRace.RecordedStays(rows, after, key, caseId, CurrentScope(rows));
    RecordedIsFound(after, key, caseId);
  }

  lemma {:induction false} KnownIsAvailable(rows: seq<Row>, key: string)
    requires |key| == 64 && FindCaseForDedup(rows, key).Some?
    ensures IngestRace.Available(rows, key) == FindCaseForDedup(rows, key)
  {
  }
}
