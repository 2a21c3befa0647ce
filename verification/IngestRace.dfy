/** Any number of API processes ingesting at once, as interleaved atomic steps on one log. */
module IngestRace {
  import opened Model
  import opened StateMachine
  import opened Log
  import opened Projection
  import opened Store
  import opened CaseIdentity

  /** Where a process stands in one ingest. `seen` is how long the log was at its look-up of
      the key. */
  datatype Phase =
    | Idle
    | LookingUp(attempt: nat)
    | Probing(attempt: nat, width: nat, seen: nat)
    | Allocated(attempt: nat, caseId: string)
    | IdChecked(attempt: nat, caseId: string)
    | Answered(caseId: string, scope: nat, deduplicated: bool)
    | Conflicted
    | Unavailable(seen: nat, scope: nat)
    | Reraised

  datatype Process = Process(change: SchemaChange, key: string, phase: Phase)

  datatype System = System(rows: seq<Row>, processes: seq<Process>)

  const ATTEMPTS := 8

  datatype Step =
    | Begin(p: nat, change: SchemaChange, key: string)
    | LookUp(p: nat)
    | Probe(p: nat)
    | CheckId(p: nat)
    | TryAppend(p: nat, now: int)
    | Kill(p: nat)
    | Stage(req: Log.Request, now: int)
    | Reset(reason: string, now: int)

  predicate Finished(phase: Phase) {
    phase.Idle? || phase.Answered? || phase.Conflicted? || phase.Unavailable? || phase.Reraised?
  }

  ghost predicate Enabled(s: System, step: Step) {
    match step
    case Begin(p, _, key) => p < |s.processes| && Finished(s.processes[p].phase) && Digest(key)
    case LookUp(p) => p < |s.processes| && s.processes[p].phase.LookingUp?
    case Probe(p) => p < |s.processes| && s.processes[p].phase.Probing?
    case CheckId(p) => p < |s.processes| && s.processes[p].phase.Allocated?
    case TryAppend(p, _) => p < |s.processes| && s.processes[p].phase.IdChecked?
    case Kill(p) => p < |s.processes|
    case Stage(req, _) => !req.body.SchemaChangeDetected? && LegalRequest(s.rows, req)
    case Reset(_, _) => forall p :: 0 <= p < |s.processes| ==> Finished(s.processes[p].phase)
  }

  /** What the log says of a supplied event id: unbound, bound to this very event, or taken. */
  datatype IdCheck = Unbound | Bound(caseId: string) | Clash

  function CheckEventId(rows: seq<Row>, req: Log.Request): IdCheck {
    if req.eventId.None? then Unbound
    else
      match FindId(rows, Supplied(req.eventId.value), CurrentScope(rows))
      case None => Unbound
      case Some(row) => if StoredEventMatches(row, req) then Bound(row.caseId) else Clash
  }

  function Begun(rows: seq<Row>, change: SchemaChange, key: string): Phase {
    match FindCaseForDedup(rows, key)
    case None => LookingUp(0)
    case Some(caseId) =>
      if CheckEventId(rows, DetectionOf(change, key, caseId)).Clash? then Conflicted
      else Answered(caseId, CurrentScope(rows), true)
  }

  function LookedUp(rows: seq<Row>, key: string, attempt: nat): Phase {
    match FindCaseForDedup(rows, key)
    case Some(caseId) => Allocated(attempt, caseId)
    case None => Probing(attempt, 8, |rows|)
  }

  function Probed(rows: seq<Row>, key: string, phase: Phase): Phase
    requires phase.Probing? && |key| == 64
  {
    if phase.width > 64 then phase
    else if !CaseIdExists(rows, WideId(key, phase.width)) then Allocated(phase.attempt, WideId(key, phase.width))
    else if phase.width + 8 <= 64 then phase.(width := phase.width + 8)
    else Unavailable(phase.seen, CurrentScope(rows))
  }

  function Checked(rows: seq<Row>, change: SchemaChange, key: string, phase: Phase): Phase
    requires phase.Allocated?
  {
    match CheckEventId(rows, DetectionOf(change, key, phase.caseId))
    case Unbound => IdChecked(phase.attempt, phase.caseId)
    case Bound(caseId) => Answered(caseId, CurrentScope(rows), true)
    case Clash => Conflicted
  }

  function Tried(rows: seq<Row>, change: SchemaChange, key: string, phase: Phase, now: int): Phase
    requires phase.IdChecked?
  {
    match AppendOutcome(rows, DetectionOf(change, key, phase.caseId), now)
    case Appended(_) => Answered(phase.caseId, CurrentScope(rows), false)
    case Duplicate(caseId) => Answered(caseId, CurrentScope(rows), true)
    case Conflict(_) => Conflicted
    case InvalidTransition => if phase.attempt == ATTEMPTS - 1 then Reraised else LookingUp(phase.attempt + 1)
  }

  ghost function WithPhase(s: System, p: nat, phase: Phase): System
    requires p < |s.processes|
  {
    s.(processes := s.processes[p := s.processes[p].(phase := phase)])
  }

  /** One step; a step that is not enabled changes nothing. */
  ghost function Perform(s: System, step: Step): System {
    if !Enabled(s, step) then s
    else
      match step
      case Begin(p, change, key) =>
        s.(processes := s.processes[p := Process(change, key, Begun(s.rows, change, key))])
      case LookUp(p) =>
        WithPhase(s, p, LookedUp(s.rows, s.processes[p].key, s.processes[p].phase.attempt))
      case Probe(p) =>
        if |s.processes[p].key| != 64 then s
        else WithPhase(s, p, Probed(s.rows, s.processes[p].key, s.processes[p].phase))
      case CheckId(p) =>
        WithPhase(s, p, Checked(s.rows, s.processes[p].change, s.processes[p].key, s.processes[p].phase))
      case TryAppend(p, now) =>
        var q := s.processes[p];
        WithPhase(s, p, Tried(s.rows, q.change, q.key, q.phase, now))
        .(rows := AfterAppend(s.rows, DetectionOf(q.change, q.key, q.phase.caseId), now))
      case Kill(p) => WithPhase(s, p, Idle)
      case Stage(req, now) => s.(rows := AfterAppend(s.rows, req, now))
      case Reset(reason, now) => s.(rows := AfterReset(s.rows, reason, now))
  }

  ghost function Race(s: System, steps: seq<Step>): (after: System)
    ensures |after.processes| == |s.processes|
  {
    if steps == [] then s else Perform(Race(s, steps[..|steps| - 1]), steps[|steps| - 1])
  }

  // ---- What each process knows ----

  ghost predicate TakenBelow(rows: seq<Row>, key: string, width: nat)
    requires |key| == 64
  {
    forall w: nat :: Width(w) && w < width ==> CaseIdExists(rows, WideId(key, w))
  }

  ghost predicate Recorded(rows: seq<Row>, key: string, caseId: string, scope: nat) {
    exists i :: KeyRow(rows, i, key, scope) && rows[i].caseId == caseId
  }

  /** An id at some attempt: the key's own case, or a width the attempt has earned, with every
      narrower id taken. */
  ghost predicate Holds(rows: seq<Row>, key: string, attempt: nat, caseId: string)
    requires |key| == 64
  {
    || Recorded(rows, key, caseId, CurrentScope(rows))
    || exists w: nat :: Width(w) && w >= 8 * (attempt + 1) && caseId == WideId(key, w) && TakenBelow(rows, key, w)
  }

  /** The key was absent when the process looked it up, and recorded by someone later. */
  ghost predicate Raced(rows: seq<Row>, key: string, seen: nat, scope: nat) {
    exists i :: seen <= i && KeyRow(rows, i, key, scope)
  }

  ghost predicate Knows(rows: seq<Row>, q: Process) {
    match q.phase
    case Idle => true
    case LookingUp(attempt) =>
      && attempt < ATTEMPTS && Digest(q.key)
      && (FindCaseForDedup(rows, q.key).None? ==> TakenBelow(rows, q.key, 8 * (attempt + 1)))
    case Probing(attempt, width, seen) =>
      && attempt < ATTEMPTS && Digest(q.key) && Width(width) && seen <= |rows|
      && (forall i :: 0 <= i < seen ==> !KeyRow(rows, i, q.key, CurrentScope(rows)))
      && TakenBelow(rows, q.key, width) && TakenBelow(rows, q.key, 8 * (attempt + 1))
    case Allocated(attempt, caseId) =>
      attempt < ATTEMPTS && Digest(q.key) && Holds(rows, q.key, attempt, caseId)
    case IdChecked(attempt, caseId) =>
      attempt < ATTEMPTS && Digest(q.key) && Holds(rows, q.key, attempt, caseId)
    case Answered(caseId, scope, _) => Recorded(rows, q.key, caseId, scope)
    case Conflicted => true
    case Unavailable(seen, scope) => Raced(rows, q.key, seen, scope)
    case Reraised => false
  }

  ghost predicate Invariant(s: System) {
    && LegalLog(s.rows)
    && forall p :: 0 <= p < |s.processes| ==> Knows(s.rows, s.processes[p])
  }

  // ---- What a process knows survives what others append ----

  lemma {:induction false} TakenStays(rows: seq<Row>, later: seq<Row>, key: string, width: nat)
    requires ValidLog(rows) && ValidLog(later) && NoResetSince(rows, later)
    requires |key| == 64 && TakenBelow(rows, key, width)
    ensures TakenBelow(later, key, width)
  {
    hide CaseIdExists, ValidLog, NoResetSince;
    forall w: nat | Width(w) && w < width ensures CaseIdExists(later, WideId(key, w)) {
      ExistsStays(rows, later, WideId(key, w));
    }
  }

  lemma {:induction false} RecordedStays(rows: seq<Row>, later: seq<Row>, key: string, caseId: string, scope: nat)
    requires rows <= later && Recorded(rows, key, caseId, scope)
    ensures Recorded(later, key, caseId, scope)
  {
    var i :| KeyRow(rows, i, key, scope) && rows[i].caseId == caseId;
    assert KeyRow(later, i, key, scope);
  }

  lemma {:induction false} FoundIsRecorded(rows: seq<Row>, key: string)
    ensures FindCaseForDedup(rows, key).Some? ==>
              Recorded(rows, key, FindCaseForDedup(rows, key).value, CurrentScope(rows))
    ensures FindCaseForDedup(rows, key).None? ==>
              forall i :: !KeyRow(rows, i, key, CurrentScope(rows))
  {
    FoundKey(rows, key, CurrentScope(rows));
    hide CurrentScope, FindKey;
    var found := FindKey(rows, key, CurrentScope(rows));
    if found.Some? {
      var i :| 0 <= i < |rows| && rows[i] == found.value;
      assert KeyRow(rows, i, key, CurrentScope(rows));
    }
  }

  lemma {:induction false} LookingUpStays(rows: seq<Row>, later: seq<Row>, key: string, attempt: nat)
    requires ValidLog(rows) && ValidLog(later) && NoResetSince(rows, later) && |key| == 64
    requires FindCaseForDedup(rows, key).None? ==> TakenBelow(rows, key, 8 * (attempt + 1))
    ensures FindCaseForDedup(later, key).None? ==> TakenBelow(later, key, 8 * (attempt + 1))
  {
    hide ValidLog, NoResetSince, TakenBelow, FindCaseForDedup;
    if FindCaseForDedup(rows, key).Some? {
      FoundStays(rows, later, key);
    } else {
      TakenStays(rows, later, key, 8 * (attempt + 1));
    }
  }

  lemma {:induction false} UnseenStays(rows: seq<Row>, later: seq<Row>, key: string, seen: nat)
    requires NoResetSince(rows, later) && seen <= |rows|
    requires forall i :: 0 <= i < seen ==> !KeyRow(rows, i, key, CurrentScope(rows))
    ensures forall i :: 0 <= i < seen ==> !KeyRow(later, i, key, CurrentScope(later))
  {
    ScopeStays(rows, later);
    hide CurrentScope;
    forall i | 0 <= i < seen ensures !KeyRow(later, i, key, CurrentScope(later)) {
      assert !KeyRow(rows, i, key, CurrentScope(rows));
    }
  }

  lemma {:induction false} KnowledgeStays(rows: seq<Row>, later: seq<Row>, q: Process)
    requires LegalLog(rows) && LegalLog(later) && NoResetSince(rows, later) && Knows(rows, q)
    ensures Knows(later, q)
  {
    hide LegalLog, ValidLog, NoResetSince, CurrentScope, TakenBelow, Recorded, Raced, Holds, FindCaseForDedup, Digest,
      KeyRow;
    LegalIsValid(rows);
    LegalIsValid(later);
    assert |rows| <= |later| by { LogGrows(rows, later); }
    match q.phase
    case Idle =>
    case LookingUp(attempt) =>
      LengthOfDigest(q.key);
      LookingUpStays(rows, later, q.key, attempt);
    case Probing(attempt, width, seen) =>
      LengthOfDigest(q.key);
      TakenStays(rows, later, q.key, width);
      TakenStays(rows, later, q.key, 8 * (attempt + 1));
      UnseenStays(rows, later, q.key, seen);
    case Allocated(attempt, caseId) =>
      LengthOfDigest(q.key);
      HoldStays(rows, later, q.key, attempt, caseId);
    case IdChecked(attempt, caseId) =>
      LengthOfDigest(q.key);
      HoldStays(rows, later, q.key, attempt, caseId);
    case Answered(caseId, scope, _) =>
      LogGrows(rows, later);
      RecordedStays(rows, later, q.key, caseId, scope);
    case Conflicted =>
    case Unavailable(seen, scope) =>
      LogGrows(rows, later);
      RacedStays(rows, later, q.key, seen, scope);
  }

  lemma {:induction false} LogGrows(rows: seq<Row>, later: seq<Row>)
    requires NoResetSince(rows, later)
    ensures rows <= later && |rows| <= |later|
  {
  }

  lemma {:induction false} LengthOfDigest(key: string)
    requires Digest(key)
    ensures |key| == 64
  {
  }

  lemma {:induction false} FoundStays(rows: seq<Row>, later: seq<Row>, key: string)
    requires NoResetSince(rows, later) && FindCaseForDedup(rows, key).Some?
    ensures FindCaseForDedup(later, key).Some?
  {
    ScopeStays(rows, later);
    FoundIsRecorded(rows, key);
    FoundIsRecorded(later, key);
    hide CurrentScope, FindCaseForDedup;
    RecordedStays(rows, later, key, FindCaseForDedup(rows, key).value, CurrentScope(rows));
  }

  lemma {:induction false} RacedStays(rows: seq<Row>, later: seq<Row>, key: string, seen: nat, scope: nat)
    requires rows <= later && Raced(rows, key, seen, scope)
    ensures Raced(later, key, seen, scope)
  {
    var i :| seen <= i && KeyRow(rows, i, key, scope);
    assert KeyRow(later, i, key, scope);
  }

  lemma {:induction false} HoldStays(rows: seq<Row>, later: seq<Row>, key: string, attempt: nat, caseId: string)
    requires LegalLog(rows) && LegalLog(later) && NoResetSince(rows, later)
    requires |key| == 64 && Holds(rows, key, attempt, caseId)
    ensures Holds(later, key, attempt, caseId)
  {
    ScopeStays(rows, later);
    LegalIsValid(rows);
    LegalIsValid(later);
    hide LegalLog, ValidLog, CurrentScope, TakenBelow, Recorded, WideId, CaseIdExists;
    if Recorded(rows, key, caseId, CurrentScope(rows)) {
      RecordedStays(rows, later, key, caseId, CurrentScope(rows));
    } else {
      var w: nat :| Width(w) && w >= 8 * (attempt + 1) && caseId == WideId(key, w) && TakenBelow(rows, key, w);
      TakenStays(rows, later, key, w);
    }
  }

  // ---- What each step establishes for the process that takes it ----

  lemma {:induction false} BegunKnows(rows: seq<Row>, change: SchemaChange, key: string)
    requires Digest(key)
    ensures Knows(rows, Process(change, key, Begun(rows, change, key)))
  {
    FoundIsRecorded(rows, key);
    hide Digest, Recorded, CheckEventId, CurrentScope, FindCaseForDedup, CaseIdExists;
  }

  lemma {:induction false} LookedUpKnows(rows: seq<Row>, q: Process)
    requires q.phase.LookingUp? && Knows(rows, q)
    ensures Knows(rows, q.(phase := LookedUp(rows, q.key, q.phase.attempt)))
  {
    FoundIsRecorded(rows, q.key);
    LengthOfDigest(q.key);
    hide Digest, Recorded, CurrentScope, FindCaseForDedup, CaseIdExists;
  }

  lemma {:induction false} ProbedKnows(rows: seq<Row>, q: Process)
    requires LegalLog(rows) && q.phase.Probing? && Knows(rows, q) && |q.key| == 64
    ensures Knows(rows, q.(phase := Probed(rows, q.key, q.phase)))
  {
    hide LegalLog, Digest, CurrentScope, CaseIdExists, WideId, FindCaseForDedup, KeyRow, Holds, Raced;
    if !CaseIdExists(rows, WideId(q.key, q.phase.width)) {
      ProbeHolds(rows, q.key, q.phase.attempt, q.phase.width);
    } else if q.phase.width == 64 {
      ProbeRaced(rows, q.key, q.phase.seen);
    }
  }

  lemma {:induction false} ProbeHolds(rows: seq<Row>, key: string, attempt: nat, width: nat)
    requires |key| == 64 && Width(width) && !CaseIdExists(rows, WideId(key, width)) && attempt < ATTEMPTS
    requires TakenBelow(rows, key, width) && TakenBelow(rows, key, 8 * (attempt + 1))
    ensures Holds(rows, key, attempt, WideId(key, width))
  {
    hide CaseIdExists, WideId, Recorded;
    assert width >= 8 * (attempt + 1);
  }

  lemma {:induction false} ProbeRaced(rows: seq<Row>, key: string, seen: nat)
    requires LegalLog(rows) && Digest(key) && CaseIdExists(rows, WideId(key, 64))
    requires forall i :: 0 <= i < seen ==> !KeyRow(rows, i, key, CurrentScope(rows))
    ensures Raced(rows, key, seen, CurrentScope(rows))
  {
    FullWidthIsOwn(rows, key);
    FoundKey(rows, key, CurrentScope(rows));
    hide LegalLog, Digest, CurrentScope, CaseIdExists, WideId, FindKey;
    var i :| 0 <= i < |rows| && rows[i].dedupKey == Some(key) && rows[i].resetScope == CurrentScope(rows);
    assert KeyRow(rows, i, key, CurrentScope(rows));
  }

  /** A bound event id belongs to a row with the same key and case. */
  lemma {:induction false} BoundIsRecorded(rows: seq<Row>, change: SchemaChange, key: string, caseId: string,
        id: EventId)
    requires var row := FindId(rows, id, CurrentScope(rows));
             row.Some? && StoredEventMatches(row.value, DetectionOf(change, key, caseId))
    ensures Recorded(rows, key, caseId, CurrentScope(rows))
    ensures FindId(rows, id, CurrentScope(rows)).value.caseId == caseId
  {
    FoundId(rows, id, CurrentScope(rows));
    hide CurrentScope, FindId, Canonical.SamePayload;
    var found := FindId(rows, id, CurrentScope(rows)).value;
    var i :| 0 <= i < |rows| && rows[i] == found;
    assert KeyRow(rows, i, key, CurrentScope(rows));
  }

  lemma {:induction false} CheckedKnows(rows: seq<Row>, q: Process)
    requires q.phase.Allocated? && Knows(rows, q)
    ensures Knows(rows, q.(phase := Checked(rows, q.change, q.key, q.phase)))
  {
    var req := DetectionOf(q.change, q.key, q.phase.caseId);
    if CheckEventId(rows, req).Bound? {
      BoundIsRecorded(rows, q.change, q.key, q.phase.caseId, Supplied(req.eventId.value));
    }
    hide CurrentScope, FindId, StoredEventMatches, Digest, Recorded, TakenBelow, WideId;
  }

  lemma {:induction false} KeepsScope(rows: seq<Row>, req: Log.Request, now: int)
    requires ValidLog(rows) && !req.body.SystemReset?
    ensures NoResetSince(rows, AfterAppend(rows, req, now))
    ensures CurrentScope(AfterAppend(rows, req, now)) == CurrentScope(rows)
  {
    var after := AfterAppend(rows, req, now);
    assert after == rows || after == rows + [RowFor(rows, req, now)];
    hide AppendOutcome, AfterAppend, ValidLog;
    ScopeStays(rows, after);
  }

  /** How an append of a detection can end, and what each end says of its key and its id. */
  lemma {:induction false} TriedMeans(rows: seq<Row>, change: SchemaChange, key: string, caseId: string, now: int)
    requires LegalLog(rows)
    ensures var req := DetectionOf(change, key, caseId);
            var scope := CurrentScope(rows);
            match AppendOutcome(rows, req, now)
            case Appended(_) =>
              AfterAppend(rows, req, now) == rows + [RowFor(rows, req, now)] && !CaseIdExists(rows, caseId)
            case Duplicate(other) => AfterAppend(rows, req, now) == rows && Recorded(rows, key, other, scope)
            case Conflict(_) => AfterAppend(rows, req, now) == rows
            case InvalidTransition =>
              AfterAppend(rows, req, now) == rows && FindCaseForDedup(rows, key).None? && CaseIdExists(rows, caseId)
  {
    var req := DetectionOf(change, key, caseId);
    var scope := CurrentScope(rows);
    var id := IdFor(rows, req);
    if FindId(rows, id, scope).Some? {
      if StoredEventMatches(FindId(rows, id, scope).value, req) {
        BoundIsRecorded(rows, change, key, caseId, id);
      }
    } else if FindKey(rows, key, scope).Some? {
      FoundIsRecorded(rows, key);
    } else {
      StateMeansExists(rows, caseId);
    }
  }

  /** A case of the current scope exists exactly when it has a current state. */
  lemma {:induction false} StateMeansExists(rows: seq<Row>, caseId: string)
    requires LegalLog(rows)
    ensures CaseIdExists(rows, caseId) <==> CurrentState(rows, caseId, CurrentScope(rows)).Some?
  {
    var scope := CurrentScope(rows);
    SelectFinds(rows, caseId, scope);
    if CaseIdExists(rows, caseId) {
      var i :| 0 <= i < |rows| && rows[i].caseId == caseId && rows[i].sequence > scope;
      NextOfStream(rows, i);
      if CurrentState(rows, caseId, scope).None? {
        NoStateNoRows(rows, caseId, scope, i);
      }
    } else {
      NoRowsNoState(rows, caseId, scope);
    }
  }

  lemma {:induction false} NoRowsNoState(rows: seq<Row>, caseId: string, scope: nat)
    requires forall i :: 0 <= i < |rows| ==> rows[i].caseId != caseId || rows[i].sequence <= scope
    ensures CurrentState(rows, caseId, scope).None?
  {
    if rows != [] {
      NoRowsNoState(rows[..|rows| - 1], caseId, scope);
    }
  }

  /** The heart of the retry bound: a refused append leaves the next attempt a wider floor, and
      the eighth attempt, which holds the full width, is never refused. */
  lemma {:induction false} TriedKnows(rows: seq<Row>, q: Process, now: int)
    requires LegalLog(rows) && q.phase.IdChecked? && Knows(rows, q)
    ensures var req := DetectionOf(q.change, q.key, q.phase.caseId);
            && LegalLog(AfterAppend(rows, req, now))
            && NoResetSince(rows, AfterAppend(rows, req, now))
            && Knows(AfterAppend(rows, req, now), q.(phase := Tried(rows, q.change, q.key, q.phase, now)))
  {
    var caseId := q.phase.caseId;
    var req := DetectionOf(q.change, q.key, caseId);
    CheckedHolds(rows, q);
    hide LegalLog, ValidLog, NoResetSince, CurrentScope, AppendOutcome, AfterAppend, Digest, OwnId, Holds, Knows, Tried;
    HeldIsOwn(rows, q.key, q.phase.attempt, caseId);
    DetectionIsLegal(rows, q.change, q.key, caseId);
    LegalAppend(rows, req, now);
    LegalIsValid(rows);
    KeepsScope(rows, req, now);
    match AppendOutcome(rows, req, now)
    case Appended(_) => AppendedKnows(rows, q, now);
    case Duplicate(_) => DuplicateKnows(rows, q, now);
    case Conflict(_) => ConflictKnows(rows, q, now);
    case InvalidTransition => RefusedKnows(rows, q, now);
  }

  lemma {:induction false} CheckedHolds(rows: seq<Row>, q: Process)
    requires q.phase.IdChecked? && Knows(rows, q)
    ensures q.phase.attempt < ATTEMPTS && Digest(q.key) && |q.key| == 64
    ensures Holds(rows, q.key, q.phase.attempt, q.phase.caseId)
  {
    LengthOfDigest(q.key);
  }

  lemma {:induction false} DetectionIsLegal(rows: seq<Row>, change: SchemaChange, key: string, caseId: string)
    requires Digest(key) && |key| == 64 && OwnId(caseId, key)
    ensures LegalRequest(rows, DetectionOf(change, key, caseId))
  {
  }

  /** A process that appended its detection holds its case. */
  lemma {:induction false} AppendedKnows(rows: seq<Row>, q: Process, now: int)
    requires LegalLog(rows) && q.phase.IdChecked? && Digest(q.key)
    requires AppendOutcome(rows, DetectionOf(q.change, q.key, q.phase.caseId), now).Appended?
    ensures Knows(AfterAppend(rows, DetectionOf(q.change, q.key, q.phase.caseId), now),
                  q.(phase := Tried(rows, q.change, q.key, q.phase, now)))
  {
    TriedMeans(rows, q.change, q.key, q.phase.caseId, now);
    hide LegalLog, CurrentScope, AppendOutcome, AfterAppend, CaseIdExists, Digest;
    var after := AfterAppend(rows, DetectionOf(q.change, q.key, q.phase.caseId), now);
    assert KeyRow(after, |rows|, q.key, CurrentScope(rows));
  }

  /** One that met a duplicate takes the case that has the key. */
  lemma {:induction false} DuplicateKnows(rows: seq<Row>, q: Process, now: int)
    requires LegalLog(rows) && q.phase.IdChecked? && Digest(q.key)
    requires AppendOutcome(rows, DetectionOf(q.change, q.key, q.phase.caseId), now).Duplicate?
    ensures Knows(AfterAppend(rows, DetectionOf(q.change, q.key, q.phase.caseId), now),
                  q.(phase := Tried(rows, q.change, q.key, q.phase, now)))
  {
    TriedMeans(rows, q.change, q.key, q.phase.caseId, now);
    hide LegalLog, CurrentScope, AppendOutcome, AfterAppend, CaseIdExists, Digest, Recorded;
  }

  lemma {:induction false} ConflictKnows(rows: seq<Row>, q: Process, now: int)
    requires q.phase.IdChecked?
    requires AppendOutcome(rows, DetectionOf(q.change, q.key, q.phase.caseId), now).Conflict?
    ensures Knows(AfterAppend(rows, DetectionOf(q.change, q.key, q.phase.caseId), now),
                  q.(phase := Tried(rows, q.change, q.key, q.phase, now)))
  {
    hide CurrentScope, AppendOutcome, AfterAppend;
  }

  /** One that was refused has another attempt, and a wider floor for it. */
  lemma {:induction false} RefusedKnows(rows: seq<Row>, q: Process, now: int)
    requires LegalLog(rows) && q.phase.IdChecked? && Digest(q.key) && |q.key| == 64 && q.phase.attempt < ATTEMPTS
    requires Holds(rows, q.key, q.phase.attempt, q.phase.caseId)
    requires AppendOutcome(rows, DetectionOf(q.change, q.key, q.phase.caseId), now).InvalidTransition?
    ensures Knows(AfterAppend(rows, DetectionOf(q.change, q.key, q.phase.caseId), now),
                  q.(phase := Tried(rows, q.change, q.key, q.phase, now)))
  {
    TriedMeans(rows, q.change, q.key, q.phase.caseId, now);
    hide LegalLog, CurrentScope, FindCaseForDedup, AppendOutcome, AfterAppend, CaseIdExists, Digest, WideId, Holds,
      TakenBelow;
    RefusedWidens(rows, q.key, q.phase.attempt, q.phase.caseId);
  }

  lemma {:induction false} HeldIsOwn(rows: seq<Row>, key: string, attempt: nat, caseId: string)
    requires LegalLog(rows) && |key| == 64 && Holds(rows, key, attempt, caseId)
    ensures OwnId(caseId, key)
  {
    if Recorded(rows, key, caseId, CurrentScope(rows)) {
      var i :| KeyRow(rows, i, key, CurrentScope(rows)) && rows[i].caseId == caseId;
      assert Legal(rows[..i], rows[i]);
      PrefixIsValid(rows, i);
    }
  }

  lemma {:induction false} RefusedWidens(rows: seq<Row>, key: string, attempt: nat, caseId: string)
    requires LegalLog(rows) && Digest(key) && attempt < ATTEMPTS && Holds(rows, key, attempt, caseId)
    requires FindCaseForDedup(rows, key).None? && CaseIdExists(rows, caseId)
    ensures attempt < ATTEMPTS - 1 && TakenBelow(rows, key, 8 * (attempt + 2))
  {
    FoundIsRecorded(rows, key);
    assert !Recorded(rows, key, caseId, CurrentScope(rows));
    var w: nat :| Width(w) && w >= 8 * (attempt + 1) && caseId == WideId(key, w) && TakenBelow(rows, key, w);
    if w == 64 {
      FullWidthIsOwn(rows, key);
    }
    hide LegalLog, CurrentScope, CaseIdExists, WideId, FindCaseForDedup, Digest;
    forall v: nat | Width(v) && v < 8 * (attempt + 2) ensures CaseIdExists(rows, WideId(key, v)) {
      assert v <= w;
    }
  }

  // ---- Every interleaving ----

  lemma {:induction false} OthersKnow(s: System, later: seq<Row>, p: nat, q: Process)
    requires Invariant(s) && p < |s.processes| && LegalLog(later) && NoResetSince(s.rows, later)
    requires Knows(later, q)
    ensures Invariant(System(later, s.processes[p := q]))
  {
    hide LegalLog, NoResetSince, Knows;
    var after := s.processes[p := q];
    forall i | 0 <= i < |after| ensures Knows(later, after[i]) {
      if i != p {
        KnowledgeStays(s.rows, later, s.processes[i]);
      }
    }
  }

  lemma {:induction false} ResetKnows(rows: seq<Row>, reason: string, now: int, q: Process)
    requires Finished(q.phase) && Knows(rows, q)
    ensures Knows(AfterReset(rows, reason, now), q)
  {
    var after := AfterReset(rows, reason, now);
    assert rows <= after;
    hide AfterReset, Recorded, Raced;
    match q.phase
    case Answered(caseId, scope, _) => RecordedStays(rows, after, q.key, caseId, scope);
    case Unavailable(seen, scope) => RacedStays(rows, after, q.key, seen, scope);
    case _ =>
  }

  lemma {:induction false} StepKeepsInvariant(s: System, step: Step)
    requires Invariant(s)
    ensures Invariant(Perform(s, step))
  {
    if Enabled(s, step) {
      hide LegalLog, Knows, Begun, LookedUp, Probed, Checked, Tried, AfterAppend, AfterReset, Digest, LegalRequest;
      LegalIsValid(s.rows);
      match step
      case Begin(p, change, key) =>
        BegunKnows(s.rows, change, key);
      case LookUp(p) =>
        LookedUpKnows(s.rows, s.processes[p]);
      case Probe(p) =>
        if |s.processes[p].key| == 64 {
          ProbedKnows(s.rows, s.processes[p]);
        }
      case CheckId(p) =>
        CheckedKnows(s.rows, s.processes[p]);
      case TryAppend(p, now) =>
        var q := s.processes[p];
        TriedKnows(s.rows, q, now);
        OthersKnow(s, AfterAppend(s.rows, DetectionOf(q.change, q.key, q.phase.caseId), now), p,
                   q.(phase := Tried(s.rows, q.change, q.key, q.phase, now)));
      case Kill(p) =>
        assert Knows(s.rows, s.processes[p].(phase := Idle)) by { IdleKnows(s.rows, s.processes[p]); }
      case Stage(req, now) =>
        LegalAppend(s.rows, req, now);
        StageIsNoReset(s.rows, req);
        KeepsScope(s.rows, req, now);
        forall i | 0 <= i < |s.processes| ensures Knows(AfterAppend(s.rows, req, now), s.processes[i]) {
          KnowledgeStays(s.rows, AfterAppend(s.rows, req, now), s.processes[i]);
        }
      case Reset(reason, now) =>
        LegalReset(s.rows, reason, now);
        forall i | 0 <= i < |s.processes| ensures Knows(AfterReset(s.rows, reason, now), s.processes[i]) {
          ResetKnows(s.rows, reason, now, s.processes[i]);
        }
    }
  }

  lemma {:induction false} IdleKnows(rows: seq<Row>, q: Process)
    ensures Knows(rows, q.(phase := Idle))
  {
  }

  lemma {:induction false} StageIsNoReset(rows: seq<Row>, req: Log.Request)
    requires LegalRequest(rows, req)
    ensures !req.body.SystemReset?
  {
  }

  /** All processes idle on an empty log. */
  ghost predicate Fresh(s: System) {
    s.rows == [] && forall p :: 0 <= p < |s.processes| ==> s.processes[p].phase.Idle?
  }

  lemma {:induction false} RaceKeepsInvariant(s: System, steps: seq<Step>)
    requires Fresh(s)
    ensures Invariant(Race(s, steps))
  {
    hide Perform, Knows;
    if steps != [] {
      RaceKeepsInvariant(s, steps[..|steps| - 1]);
      StepKeepsInvariant(Race(s, steps[..|steps| - 1]), steps[|steps| - 1]);
    } else {
      forall p | 0 <= p < |s.processes| ensures Knows([], s.processes[p]) {
        IdleKnows([], s.processes[p]);
      }
    }
  }

  /** In every interleaving of any number of processes, with kills and resets: no process ever
      runs out of its eight attempts; and a process fails to allocate an id only if its own key
      was recorded by another process after it had looked the key up. */
  lemma {:induction false} EightAttemptsSuffice(s: System, steps: seq<Step>, p: nat)
    requires Fresh(s) && p < |s.processes|
    ensures var after := Race(s, steps);
            var q := after.processes[p];
            && !q.phase.Reraised?
            && (q.phase.Unavailable? ==> Raced(after.rows, q.key, q.phase.seen, q.phase.scope))
  {
    RaceKeepsInvariant(s, steps);
    hide Race;
    assert Knows(Race(s, steps).rows, Race(s, steps).processes[p]);
  }

  /** Wherever the log may be, the last probe fails exactly when the process's own key holds
      an id by now; at its look-up it held none. */
  lemma {:induction false} LastProbeFailsIfRaced(s: System, steps: seq<Step>, p: nat)
    requires Fresh(s) && p < |s.processes|
    requires var q := Race(s, steps).processes[p]; q.phase.Probing? && q.phase.width == 64
    ensures var before := Race(s, steps);
            var q := before.processes[p];
            && |q.key| == 64
            && (Perform(before, Probe(p)).processes[p].phase.Unavailable?
                <==> Recorded(before.rows, q.key, WideId(q.key, 64), CurrentScope(before.rows)))
            && (Recorded(before.rows, q.key, WideId(q.key, 64), CurrentScope(before.rows))
                ==> Raced(before.rows, q.key, q.phase.seen, CurrentScope(before.rows)))
  {
    RaceKeepsInvariant(s, steps);
    hide Race;
    var before := Race(s, steps);
    var q := before.processes[p];
    assert Knows(before.rows, q);
    FullWidthHolder(before.rows, q.key);
    if Recorded(before.rows, q.key, WideId(q.key, 64), CurrentScope(before.rows)) {
      var i :| KeyRow(before.rows, i, q.key, CurrentScope(before.rows));
    }
  }

  /** The id of full width exists exactly when the key it spells was recorded under it. */
  lemma {:induction false} FullWidthHolder(rows: seq<Row>, key: string)
    requires LegalLog(rows) && Digest(key)
    ensures CaseIdExists(rows, WideId(key, 64)) <==> Recorded(rows, key, WideId(key, 64), CurrentScope(rows))
  {
    ExistsMeans(rows, WideId(key, 64));
    hide ValidLog, CurrentScope, CaseIdExists, Digest, WideId, FindKey;
    if i :| RowOf(rows, i, WideId(key, 64), CurrentScope(rows)) {
      if rows[i].event.body.SystemReset? {
        ResetCloses(rows, i);
      }
      var j := DetectionComesFirst(rows, i);
      assert Legal(rows[..j], rows[j]);
      var w :| Width(w) && rows[j].caseId == WideId(rows[j].dedupKey.value, w);
      FullIdNamesKey(rows[j].dedupKey.value, key, w);
      assert KeyRow(rows, j, key, CurrentScope(rows));
    }
    if Recorded(rows, key, WideId(key, 64), CurrentScope(rows)) {
      var i :| KeyRow(rows, i, key, CurrentScope(rows)) && rows[i].caseId == WideId(key, 64);
      assert RowOf(rows, i, WideId(key, 64), CurrentScope(rows));
    }
  }

  /** What one atomic read of the log would allocate. */
  function Available(rows: seq<Row>, key: string): Option<string>
    requires |key| == 64
  {
    match FindCaseForDedup(rows, key)
    case Some(caseId) => Some(caseId)
    case None => FirstFree(rows, key, 8)
  }

  function FirstFree(rows: seq<Row>, key: string, width: nat): Option<string>
    requires |key| == 64
    decreases 72 - width
  {
    if width > 64 then None
    else if !CaseIdExists(rows, WideId(key, width)) then Some(WideId(key, width))
    else FirstFree(rows, key, width + 8)
  }

  lemma {:induction false} FirstFreeMeans(rows: seq<Row>, key: string, width: nat)
    requires LegalLog(rows) && Digest(key) && FindCaseForDedup(rows, key).None?
    requires Width(width) && TakenBelow(rows, key, width)
    ensures var found := FirstFree(rows, key, width);
            && found.Some? && !CaseIdExists(rows, found.value)
            && exists w: nat :: Width(w) && found.value == WideId(key, w) && TakenBelow(rows, key, w)
    decreases 72 - width
  {
    if CaseIdExists(rows, WideId(key, width)) {
      if width == 64 {
        FullWidthIsOwn(rows, key);
      }
      FirstFreeMeans(rows, key, width + 8);
    }
  }

  /** On an atomic read allocation never fails: it finds the key's own case, or the narrowest id
      nobody holds. */
  lemma {:induction false} AtomicAllocationSucceeds(rows: seq<Row>, key: string)
    requires LegalLog(rows) && Digest(key)
    ensures var found := Available(rows, key);
            && found.Some?
            && if FindCaseForDedup(rows, key).Some? then found == FindCaseForDedup(rows, key)
               else !CaseIdExists(rows, found.value)
                    && exists w: nat :: Width(w) && found.value == WideId(key, w) && TakenBelow(rows, key, w)
  {
    hide LegalLog, Digest, CaseIdExists, WideId, FindCaseForDedup;
    if FindCaseForDedup(rows, key).None? {
      FirstFreeMeans(rows, key, 8);
    }
  }

  /** Deliveries answered in one scope share a case exactly when they share a key, whichever
      processes took them and however they interleaved. */
  lemma {:induction false} EqualKeysShareCase(s: System, steps: seq<Step>, p: nat, q: nat)
    requires Fresh(s) && p < |s.processes| && q < |s.processes|
    requires Race(s, steps).processes[p].phase.Answered? && Race(s, steps).processes[q].phase.Answered?
    requires Race(s, steps).processes[p].phase.scope == Race(s, steps).processes[q].phase.scope
    ensures Race(s, steps).processes[p].key == Race(s, steps).processes[q].key
            <==> Race(s, steps).processes[p].phase.caseId == Race(s, steps).processes[q].phase.caseId
  {
    RaceKeepsInvariant(s, steps);
    hide Race;
    var rows := Race(s, steps).rows;
    var a, b := Race(s, steps).processes[p], Race(s, steps).processes[q];
    assert Knows(rows, a) && Knows(rows, b);
    SharedScope(rows, a.key, a.phase.caseId, b.key, b.phase.caseId, a.phase.scope);
  }

  lemma {:induction false} SharedScope(rows: seq<Row>, keyA: string, caseA: string, keyB: string, caseB: string,
        scope: nat)
    requires LegalLog(rows) && Recorded(rows, keyA, caseA, scope) && Recorded(rows, keyB, caseB, scope)
    ensures keyA == keyB <==> caseA == caseB
  {
    var i :| KeyRow(rows, i, keyA, scope) && rows[i].caseId == caseA;
    var j :| KeyRow(rows, j, keyB, scope) && rows[j].caseId == caseB;
    KeyRowsDetect(rows, i);
    KeyRowsDetect(rows, j);
    OneKeyOneCase(rows);
  }

  lemma {:induction false} KeyRowsDetect(rows: seq<Row>, i: nat)
    requires LegalLog(rows) && i < |rows| && rows[i].dedupKey.Some?
    ensures IsDetection(rows[i])
  {
    assert Legal(rows[..i], rows[i]);
    PrefixIsValid(rows, i);
  }

  /** In every interleaving keys and cases pair off one to one in each scope, and every case can
      be projected, from its single detection. */
  lemma {:induction false} RacesKeepOneCasePerKey(s: System, steps: seq<Step>, caseId: string)
    requires Fresh(s)
    ensures KeysPairWithCases(Race(s, steps).rows)
    ensures CaseIdExists(Race(s, steps).rows, caseId) ==> Started(CaseStream(Race(s, steps).rows, caseId))
  {
    RaceKeepsInvariant(s, steps);
    hide Race, LegalLog, KeysPairWithCases;
    OneKeyOneCase(Race(s, steps).rows);
    if CaseIdExists(Race(s, steps).rows, caseId) {
      CasesAreStarted(Race(s, steps).rows, caseId);
    }
  }
}
