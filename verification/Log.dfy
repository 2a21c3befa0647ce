/** The append-only event table and what its queries read.

    Rows are never changed or removed. A reset is itself a row; its sequence number opens a
    new scope for deduplication and for case streams.
 */
module Log {
  import opened Model
  import opened StateMachine
  import Canonical

  /** Callers may name an event; otherwise it gets a fresh id, which never collides. */
  datatype EventId = Supplied(id: string) | Generated(serial: nat)

  datatype Row = Row(
    sequence: nat,
    eventId: EventId,
    caseId: string,
    event: Event,
    dedupKey: Option<string>,
    resetScope: nat,
    createdAt: int)

  datatype Request = Request(
    caseId: string,
    body: Body,
    state: CaseState,
    dedupKey: Option<string>,
    eventId: Option<string>)

  datatype Outcome =
    | Appended(row: Row)
    | Duplicate(caseId: string)
    | Conflict(caseId: string)
    | InvalidTransition

  const SYSTEM_CASE := "__system__"

  function NextSequence(rows: seq<Row>): nat {
    |rows| + 1
  }

  // ---- Queries ----

  /** The largest sequence number of a reset, or 0. */
  function CurrentScope(rows: seq<Row>): (scope: nat) {
    if rows == [] then 0 else
      var rest := CurrentScope(rows[..|rows| - 1]);
      var last := rows[|rows| - 1];
      if last.event.body.SystemReset? && last.sequence > rest then last.sequence else rest
  }

  /** The state of the latest row of a case past `scope` that has a state. */
  function CurrentState(rows: seq<Row>, caseId: string, scope: nat): Option<CaseState> {
    if rows == [] then None else
      var last := rows[|rows| - 1];
      if last.caseId == caseId && last.sequence > scope && last.event.state.Some? then last.event.state
      else CurrentState(rows[..|rows| - 1], caseId, scope)
  }

  function FindId(rows: seq<Row>, eventId: EventId, scope: nat): Option<Row> {
    if rows == [] then None else
      var last := rows[|rows| - 1];
      if last.eventId == eventId && last.resetScope == scope then Some(last)
      else FindId(rows[..|rows| - 1], eventId, scope)
  }

  function FindKey(rows: seq<Row>, dedupKey: string, scope: nat): Option<Row> {
    if rows == [] then None else
      var last := rows[|rows| - 1];
      if last.dedupKey == Some(dedupKey) && last.resetScope == scope then Some(last)
      else FindKey(rows[..|rows| - 1], dedupKey, scope)
  }

  /** The rows of a case with a sequence number past `floor`, in order. */
  function Select(rows: seq<Row>, caseId: string, floor: nat): seq<Row> {
    if rows == [] then [] else
      var rest := Select(rows[..|rows| - 1], caseId, floor);
      var last := rows[|rows| - 1];
      if last.caseId == caseId && last.sequence > floor then rest + [last] else rest
  }

  function EventsForCase(rows: seq<Row>, caseId: string, after: nat): seq<Row> {
    var scope := CurrentScope(rows);
    Select(rows, caseId, if scope > after then scope else after)
  }

  function FindCaseForDedup(rows: seq<Row>, dedupKey: string): Option<string> {
    match FindKey(rows, dedupKey, CurrentScope(rows))
    case None => None
    case Some(row) => Some(row.caseId)
  }

  predicate CaseIdExists(rows: seq<Row>, caseId: string) {
    EventsForCase(rows, caseId, 0) != []
  }

  function Events(rows: seq<Row>): (events: seq<Event>)
    ensures |events| == |rows|
  {
    seq(|rows|, i requires 0 <= i < |rows| => rows[i].event)
  }

  /** The events of a case in the current scope. */
  function CaseStream(rows: seq<Row>, caseId: string): seq<Event> {
    Events(EventsForCase(rows, caseId, 0))
  }

  // ---- Writes ----

  predicate StoredEventMatches(row: Row, req: Request) {
    && row.caseId == req.caseId
    && row.event.state == Some(req.state)
    && row.dedupKey == req.dedupKey
    && Canonical.SamePayload(row.event.body, req.body)
  }

  function IdFor(rows: seq<Row>, req: Request): EventId {
    match req.eventId
    case Some(id) => if id != "" then Supplied(id) else Generated(NextSequence(rows))
    case None => Generated(NextSequence(rows))
  }

  function RowFor(rows: seq<Row>, req: Request, now: int): Row {
    Row(NextSequence(rows), IdFor(rows, req), req.caseId, Event(req.body, Some(req.state)),
        req.dedupKey, CurrentScope(rows), now)
  }

  /** How an append ends: the checks in the order the transaction makes them. */
  function AppendOutcome(rows: seq<Row>, req: Request, now: int): Outcome {
    var scope := CurrentScope(rows);
    var sameId := FindId(rows, IdFor(rows, req), scope);
    if sameId.Some? then
      if StoredEventMatches(sameId.value, req) then Duplicate(sameId.value.caseId)
      else Conflict(sameId.value.caseId)
    else if req.dedupKey.Some? && FindKey(rows, req.dedupKey.value, scope).Some? then
      Duplicate(FindKey(rows, req.dedupKey.value, scope).value.caseId)
    else
      var current := CurrentState(rows, req.caseId, scope);
      if req.body.SchemaChangeDetected? && current.Some? then InvalidTransition
      else if !ValidTransition(current, req.state) then InvalidTransition
      else Appended(RowFor(rows, req, now))
  }

  function AfterAppend(rows: seq<Row>, req: Request, now: int): seq<Row> {
    match AppendOutcome(rows, req, now)
    case Appended(row) => rows + [row]
    case _ => rows
  }

  function AfterReset(rows: seq<Row>, reason: string, now: int): seq<Row> {
    rows + [Row(NextSequence(rows), Generated(NextSequence(rows)), SYSTEM_CASE,
                Event(SystemReset(reason), None), None, CurrentScope(rows), now)]
  }

  // ---- Every reachable table ----

  datatype Operation = AppendOp(req: Request, now: int) | ResetOp(reason: string, now: int)

  function Execute(ops: seq<Operation>): seq<Row> {
    if ops == [] then [] else
      var rows := Execute(ops[..|ops| - 1]);
      match ops[|ops| - 1]
      case AppendOp(req, now) => AfterAppend(rows, req, now)
      case ResetOp(reason, now) => AfterReset(rows, reason, now)
  }

  /** What one row owes to the rows before it. */
  ghost predicate Fits(before: seq<Row>, row: Row) {
    && row.sequence == NextSequence(before)
    && row.resetScope == CurrentScope(before)
    && (row.eventId.Generated? ==> row.eventId.serial == row.sequence)
    && FindId(before, row.eventId, row.resetScope).None?
    && (row.dedupKey.Some? ==> FindKey(before, row.dedupKey.value, row.resetScope).None?)
    && match row.event.state
       case None => row.event.body.SystemReset? && row.dedupKey.None?
       case Some(state) =>
         var current := CurrentState(before, row.caseId, row.resetScope);
         && ValidTransition(current, state)
         && (row.event.body.SchemaChangeDetected? ==> current.None?)
  }

  ghost predicate ValidLog(rows: seq<Row>) {
    rows == [] || (ValidLog(rows[..|rows| - 1]) && Fits(rows[..|rows| - 1], rows[|rows| - 1]))
  }

  /** The search finds a row of the scope with the id exactly when there is one. */
  lemma {:induction false} FoundId(rows: seq<Row>, eventId: EventId, scope: nat)
    ensures FindId(rows, eventId, scope).Some? <==>
            exists i :: 0 <= i < |rows| && rows[i].eventId == eventId && rows[i].resetScope == scope
    ensures var found := FindId(rows, eventId, scope);
            found.Some? ==> found.value in rows && found.value.eventId == eventId && found.value.resetScope == scope
  {
    if rows != [] {
      var init := rows[..|rows| - 1];
      FoundId(init, eventId, scope);
      assert forall i :: 0 <= i < |init| ==> rows[i] == init[i];
    }
  }

  /** And likewise for a dedup key. */
  lemma {:induction false} FoundKey(rows: seq<Row>, key: string, scope: nat)
    ensures FindKey(rows, key, scope).Some? <==>
            exists i :: 0 <= i < |rows| && rows[i].dedupKey == Some(key) && rows[i].resetScope == scope
    ensures var found := FindKey(rows, key, scope);
            found.Some? ==> found.value in rows && found.value.dedupKey == Some(key) && found.value.resetScope == scope
  {
    if rows != [] {
      var init := rows[..|rows| - 1];
      FoundKey(init, key, scope);
      assert forall i :: 0 <= i < |init| ==> rows[i] == init[i];
    }
  }

  lemma {:induction false} PrefixIsValid(rows: seq<Row>, n: nat)
    requires ValidLog(rows) && n <= |rows|
    ensures ValidLog(rows[..n])
    ensures n < |rows| ==> Fits(rows[..n], rows[n])
    decreases |rows|
  {
    if n < |rows| {
      var init := rows[..|rows| - 1];
      if n < |init| {
        PrefixIsValid(init, n);
        assert init[..n] == rows[..n];
      }
    } else {
      assert rows[..n] == rows;
    }
  }

  lemma {:induction false} RowSequence(rows: seq<Row>, i: nat)
    requires ValidLog(rows) && i < |rows|
    ensures rows[i].sequence == i + 1
  {
    PrefixIsValid(rows, i);
    assert Fits(rows[..i], rows[i]);
  }

  lemma {:induction false} ScopeIsPast(rows: seq<Row>)
    requires ValidLog(rows)
    ensures CurrentScope(rows) <= |rows|
  {
    if rows != [] {
      ScopeIsPast(rows[..|rows| - 1]);
    }
  }

  /** Every table that appends and resets can produce is valid. */
  lemma {:induction false} ReachableIsValid(ops: seq<Operation>)
    ensures ValidLog(Execute(ops))
  {
    if ops != [] {
      var rows := Execute(ops[..|ops| - 1]);
      ReachableIsValid(ops[..|ops| - 1]);
      match ops[|ops| - 1]
      case AppendOp(req, now) => AppendKeepsValid(rows, req, now);
      case ResetOp(reason, now) => ResetKeepsValid(rows, reason, now);
    }
  }

  lemma {:induction false} FreshIdIsFresh(rows: seq<Row>, scope: nat)
    requires ValidLog(rows)
    ensures FindId(rows, Generated(NextSequence(rows)), scope).None?
  {
    FoundId(rows, Generated(NextSequence(rows)), scope);
    forall i | 0 <= i < |rows| ensures rows[i].eventId != Generated(NextSequence(rows)) {
      PrefixIsValid(rows, i);
    }
  }

  lemma {:induction false} AppendKeepsValid(rows: seq<Row>, req: Request, now: int)
    requires ValidLog(rows)
    ensures ValidLog(AfterAppend(rows, req, now))
  {
    var after := AfterAppend(rows, req, now);
    if after != rows {
      assert after[..|after| - 1] == rows;
    }
  }

  lemma {:induction false} ResetKeepsValid(rows: seq<Row>, reason: string, now: int)
    requires ValidLog(rows)
    ensures ValidLog(AfterReset(rows, reason, now))
  {
    var after := AfterReset(rows, reason, now);
    assert after[..|after| - 1] == rows;
    FreshIdIsFresh(rows, CurrentScope(rows));
  }

  /** The two notions of scope pick the same rows: past the latest reset by sequence, or
      stamped with the latest reset. */
  lemma {:induction false} ScopesAgree(rows: seq<Row>, i: nat)
    requires ValidLog(rows) && i < |rows|
    ensures rows[i].sequence > CurrentScope(rows) <==> rows[i].resetScope == CurrentScope(rows)
    ensures rows[i].resetScope <= CurrentScope(rows)
  {
    var init := rows[..|rows| - 1];
    ScopeIsPast(init);
    if i < |init| {
      ScopesAgree(init, i);
      RowSequence(rows, i);
    }
    RowSequence(rows, |init|);
  }

  // ---- The states of one case ----

  /** The states a case went through in one scope, picked by the scope its rows are stamped with. */
  function StatesInScope(rows: seq<Row>, caseId: string, scope: nat): seq<CaseState> {
    if rows == [] then [] else
      var rest := StatesInScope(rows[..|rows| - 1], caseId, scope);
      var last := rows[|rows| - 1];
      if last.caseId == caseId && last.resetScope == scope && last.event.state.Some?
      then rest + [last.event.state.value] else rest
  }

  function Last<T>(s: seq<T>): Option<T> {
    if s == [] then None else Some(s[|s| - 1])
  }

  /** The state check, which goes by sequence, sees the last state by stamp. */
  lemma {:induction false} CurrentStateIsLast(rows: seq<Row>, n: nat, caseId: string)
    requires ValidLog(rows) && n <= |rows|
    ensures CurrentState(rows[..n], caseId, CurrentScope(rows))
            == Last(StatesInScope(rows[..n], caseId, CurrentScope(rows)))
  {
    if n > 0 {
      assert rows[..n][..n - 1] == rows[..n - 1];
      CurrentStateIsLast(rows, n - 1, caseId);
      ScopesAgree(rows, n - 1);
    }
  }

  /** In every scope a case's states are a path of the state machine from DETECTED. */
  lemma {:induction false} StatesFormPath(rows: seq<Row>, caseId: string, scope: nat)
    requires ValidLog(rows)
    ensures StatePath(StatesInScope(rows, caseId, scope))
  {
    if rows != [] {
      var init := rows[..|rows| - 1];
      StatesFormPath(init, caseId, scope);
      CurrentStateIsLast(init, |init|, caseId);
      assert init[..|init|] == init;
    }
  }

  // ---- What a query selects ----

  /** The selected rows are those of the case past the floor, all of them, in order. */
  ghost predicate Selects(rows: seq<Row>, caseId: string, floor: nat, selected: seq<Row>, at: seq<nat>) {
    && |at| == |selected|
    && (forall k, l :: 0 <= k < l < |at| ==> at[k] < at[l])
    && (forall k :: 0 <= k < |at| ==> at[k] < |rows| && selected[k] == rows[at[k]]
                                      && rows[at[k]].caseId == caseId && rows[at[k]].sequence > floor)
    && (forall i: nat :: i < |rows| && rows[i].caseId == caseId && rows[i].sequence > floor ==> i in at)
  }

  lemma {:induction false} SelectMeans(rows: seq<Row>, caseId: string, floor: nat) returns (at: seq<nat>)
    ensures Selects(rows, caseId, floor, Select(rows, caseId, floor), at)
  {
    hide Selects;
    if rows == [] {
      at := [];
      NothingSelects(caseId, floor);
    } else {
      var init, last := rows[..|rows| - 1], rows[|rows| - 1];
      assert rows == init + [last];
      var rest := SelectMeans(init, caseId, floor);
      SelectsStep(init, last, caseId, floor, Select(init, caseId, floor), rest);
      if last.caseId == caseId && last.sequence > floor {
        at := rest + [|init|];
      } else {
        at := rest;
      }
    }
  }

  lemma {:induction false} NothingSelects(caseId: string, floor: nat)
    ensures Selects([], caseId, floor, [], [])
  {
  }

  lemma {:induction false} SelectsStep(rows: seq<Row>, last: Row, caseId: string, floor: nat, selected: seq<Row>,
        at: seq<nat>)
    requires Selects(rows, caseId, floor, selected, at)
    ensures last.caseId == caseId && last.sequence > floor ==>
            Selects(rows + [last], caseId, floor, selected + [last], at + [|rows|])
    ensures !(last.caseId == caseId && last.sequence > floor) ==>
            Selects(rows + [last], caseId, floor, selected, at)
  {
    var longer := at + [|rows|];
    assert longer[|at|] == |rows|;
    forall i: nat | i < |rows| && rows[i].caseId == caseId && rows[i].sequence > floor ensures i in longer {
      assert i in at;
    }
  }

  // ---- What an append comes to, by the rows there are ----

  /** The scope is the latest reset, by sequence number. */
  lemma {:induction false} CurrentScopeMeans(rows: seq<Row>)
    ensures forall i :: 0 <= i < |rows| && rows[i].event.body.SystemReset? ==> rows[i].sequence <= CurrentScope(rows)
    ensures CurrentScope(rows) > 0 ==>
      exists i :: 0 <= i < |rows| && rows[i].event.body.SystemReset? && rows[i].sequence == CurrentScope(rows)
  {
    if rows != [] {
      var init := rows[..|rows| - 1];
      CurrentScopeMeans(init);
      assert forall i :: 0 <= i < |init| ==> rows[i] == init[i];
      if CurrentScope(rows) > 0 && CurrentScope(init) == CurrentScope(rows) {
        var i :| 0 <= i < |init| && init[i].event.body.SystemReset? && init[i].sequence == CurrentScope(init);
        assert rows[i] == init[i];
      }
    }
  }

  /** Row i is of the current scope. */
  ghost predicate InScope(rows: seq<Row>, i: int) {
    0 <= i < |rows| && rows[i].resetScope == CurrentScope(rows)
  }

  /** Two payloads are of one event: equal, or detections that agree but for when they were
      observed, the case of the asset and the order of the fields. */
  ghost predicate SameContent(a: Body, b: Body) {
    if a.SchemaChangeDetected? && b.SchemaChangeDetected? then
      && a.incidentUrn == b.incidentUrn
      && a.change.eventId == b.change.eventId
      && a.change.source == b.change.source
      && Canonical.SameUpToCase(a.change.entityUrn, b.change.entityUrn)
      && multiset(a.change.beforeFields) == multiset(b.change.beforeFields)
      && multiset(a.change.afterFields) == multiset(b.change.afterFields)
    else a == b
  }

  /** The request asks again for what the row records. */
  ghost predicate AsksAgain(row: Row, req: Request) {
    && row.caseId == req.caseId
    && row.event.state == Some(req.state)
    && row.dedupKey == req.dedupKey
    && SameContent(row.event.body, req.body)
  }

  ghost predicate Names(req: Request, id: EventId) {
    req.eventId.Some? && req.eventId.value != "" && id == Supplied(req.eventId.value)
  }

  ghost predicate NamedBefore(rows: seq<Row>, req: Request) {
    exists i :: InScope(rows, i) && Names(req, rows[i].eventId)
  }

  ghost predicate KeyedBefore(rows: seq<Row>, req: Request) {
    req.dedupKey.Some? && exists i :: InScope(rows, i) && rows[i].dedupKey == req.dedupKey
  }

  /** Row i is the last of its case in the scope that has a state. */
  ghost predicate LastOfCase(rows: seq<Row>, caseId: string, i: int) {
    && InScope(rows, i) && rows[i].caseId == caseId && rows[i].event.state.Some?
    && forall j :: i < j && InScope(rows, j) && rows[j].caseId == caseId ==> rows[j].event.state.None?
  }

  /** The case is new and starts in DETECTED, or it is not detected anew and stays in its state or
      moves one stage on or into a failure state. */
  ghost predicate Moves(rows: seq<Row>, req: Request) {
    if exists i :: LastOfCase(rows, req.caseId, i) then
      && !req.body.SchemaChangeDetected?
      && forall i :: LastOfCase(rows, req.caseId, i) ==>
           var state := rows[i].event.state.value;
           || req.state == state
           || (state !in {RESOLVED, CONTAINED, FAILED}
               && (req.state in {CONTAINED, FAILED} || Depth(req.state) == Depth(state) + 1))
    else req.state == DETECTED
  }

  /** How an append must end: a row of the scope with the request's id answers it, as a duplicate
      or a conflict; else one with its key; else it is taken if the state may move. */
  ghost predicate EndsAs(rows: seq<Row>, req: Request, now: int, outcome: Outcome) {
    && (forall i :: InScope(rows, i) && Names(req, rows[i].eventId) ==>
          outcome == if AsksAgain(rows[i], req) then Duplicate(rows[i].caseId) else Conflict(rows[i].caseId))
    && (!NamedBefore(rows, req) ==>
        forall i :: InScope(rows, i) && req.dedupKey.Some? && rows[i].dedupKey == req.dedupKey ==>
          outcome == Duplicate(rows[i].caseId))
    && (!NamedBefore(rows, req) && !KeyedBefore(rows, req) ==>
        if !Moves(rows, req) then outcome == InvalidTransition
        else
          && outcome.Appended?
          && outcome.row.sequence == |rows| + 1
          && outcome.row.caseId == req.caseId
          && outcome.row.event == Event(req.body, Some(req.state))
          && outcome.row.dedupKey == req.dedupKey
          && outcome.row.resetScope == CurrentScope(rows)
          && outcome.row.createdAt == now
          && (if req.eventId.Some? && req.eventId.value != "" then Names(req, outcome.row.eventId)
              else outcome.row.eventId.Generated? && forall i :: 0 <= i < |rows| ==>
                     rows[i].eventId != outcome.row.eventId))
  }

  lemma {:induction false} SamePayloadMeans(a: Body, b: Body)
    ensures Canonical.SamePayload(a, b) <==> SameContent(a, b)
  {
    if a.SchemaChangeDetected? && b.SchemaChangeDetected? {
      Canonical.SamePayloadMeaning(a, b);
      Canonical.CaseFoldMeans(a.change.entityUrn, b.change.entityUrn);
    }
  }

  /** In a scope ids and dedup keys are used once. */
  lemma {:induction false} UsedOnce(rows: seq<Row>, i: nat, j: nat)
    requires ValidLog(rows) && i < j < |rows| && rows[i].resetScope == rows[j].resetScope
    ensures rows[i].eventId != rows[j].eventId
    ensures rows[i].dedupKey.None? || rows[i].dedupKey != rows[j].dedupKey
  {
    PrefixIsValid(rows, j);
    assert rows[..j][i] == rows[i];
    FoundId(rows[..j], rows[j].eventId, rows[j].resetScope);
    if rows[j].dedupKey.Some? {
      FoundKey(rows[..j], rows[j].dedupKey.value, rows[j].resetScope);
    }
  }

  lemma {:induction false} OnlyRow(rows: seq<Row>, i: int, j: int)
    requires ValidLog(rows) && 0 <= i < |rows| && 0 <= j < |rows| && rows[i].resetScope == rows[j].resetScope
    requires rows[i].eventId == rows[j].eventId || (rows[i].dedupKey.Some? && rows[i].dedupKey == rows[j].dedupKey)
    ensures i == j
  {
    if i < j {
      UsedOnce(rows, i, j);
    } else if j < i {
      UsedOnce(rows, j, i);
    }
  }

  /** The current state is that of the last row of the case. */
  lemma {:induction false} CurrentStateAt(rows: seq<Row>, caseId: string, n: nat) returns (i: int)
    requires ValidLog(rows) && n <= |rows|
    ensures var state := CurrentState(rows[..n], caseId, CurrentScope(rows));
            if state.None? then
              forall j :: j < n && InScope(rows, j) && rows[j].caseId == caseId ==> rows[j].event.state.None?
            else
              && 0 <= i < n && InScope(rows, i) && rows[i].caseId == caseId && rows[i].event.state == state
              && forall j :: i < j < n && InScope(rows, j) && rows[j].caseId == caseId ==> rows[j].event.state.None?
  {
    hide CurrentScope, ValidLog;
    i := 0;
    if n > 0 {
      assert rows[..n][..n - 1] == rows[..n - 1];
      ScopesAgree(rows, n - 1);
      i := CurrentStateAt(rows, caseId, n - 1);
      if InScope(rows, n - 1) && rows[n - 1].caseId == caseId && rows[n - 1].event.state.Some? {
        i := n - 1;
      }
    }
  }

  lemma {:induction false} MovesMeans(rows: seq<Row>, req: Request)
    requires ValidLog(rows)
    ensures var current := CurrentState(rows, req.caseId, CurrentScope(rows));
            Moves(rows, req) <==>
            !(req.body.SchemaChangeDetected? && current.Some?) && ValidTransition(current, req.state)
  {
    var i := CurrentStateAt(rows, req.caseId, |rows|);
    assert rows[..|rows|] == rows;
    var current := CurrentState(rows, req.caseId, CurrentScope(rows));
    TransitionsMean(current, req.state);
    hide CurrentState, CurrentScope, ValidLog, ValidTransition, InScope;
    if current.Some? {
      assert LastOfCase(rows, req.caseId, i);
    }
  }

  lemma {:induction false} NamedMeans(rows: seq<Row>, req: Request)
    requires ValidLog(rows)
    ensures var found := FindId(rows, IdFor(rows, req), CurrentScope(rows));
            && (found.Some? <==> NamedBefore(rows, req))
            && forall i :: InScope(rows, i) && Names(req, rows[i].eventId) ==> found == Some(rows[i])
  {
    var id := IdFor(rows, req);
    FoundId(rows, id, CurrentScope(rows));
    FreshIdIsFresh(rows, CurrentScope(rows));
    hide FindId, CurrentScope, ValidLog;
    var found := FindId(rows, id, CurrentScope(rows));
    if found.Some? {
      var k :| 0 <= k < |rows| && rows[k].eventId == id && rows[k].resetScope == CurrentScope(rows);
      assert InScope(rows, k) && Names(req, rows[k].eventId);
      var m :| 0 <= m < |rows| && rows[m] == found.value;
      forall i | InScope(rows, i) && Names(req, rows[i].eventId) ensures found == Some(rows[i]) {
        OnlyRow(rows, i, m);
      }
    }
  }

  lemma {:induction false} KeyedMeans(rows: seq<Row>, req: Request)
    requires ValidLog(rows) && req.dedupKey.Some?
    ensures var found := FindKey(rows, req.dedupKey.value, CurrentScope(rows));
            && (found.Some? <==> KeyedBefore(rows, req))
            && forall i :: InScope(rows, i) && rows[i].dedupKey == req.dedupKey ==> found == Some(rows[i])
  {
    FoundKey(rows, req.dedupKey.value, CurrentScope(rows));
    hide FindKey, CurrentScope, ValidLog;
    var found := FindKey(rows, req.dedupKey.value, CurrentScope(rows));
    if found.Some? {
      var k :| 0 <= k < |rows| && rows[k].dedupKey == req.dedupKey && rows[k].resetScope == CurrentScope(rows);
      assert InScope(rows, k);
      var m :| 0 <= m < |rows| && rows[m] == found.value;
      forall i | InScope(rows, i) && rows[i].dedupKey == req.dedupKey ensures found == Some(rows[i]) {
        OnlyRow(rows, i, m);
      }
    }
  }

  /** On a valid log every append ends as it must. */
  lemma {:induction false} AppendMeans(rows: seq<Row>, req: Request, now: int)
    requires ValidLog(rows)
    ensures EndsAs(rows, req, now, AppendOutcome(rows, req, now))
    ensures AfterAppend(rows, req, now) ==
            match AppendOutcome(rows, req, now) case Appended(row) => rows + [row] case _ => rows
  {
    var scope := CurrentScope(rows);
    var outcome := AppendOutcome(rows, req, now);
    NamedMeans(rows, req);
    MovesMeans(rows, req);
    if req.dedupKey.Some? {
      KeyedMeans(rows, req);
    }
    var found := FindId(rows, IdFor(rows, req), scope);
    if found.Some? {
      SamePayloadMeans(found.value.event.body, req.body);
    }
    forall i | 0 <= i < |rows| ensures rows[i].eventId != Generated(NextSequence(rows)) {
      PrefixIsValid(rows, i);
    }
    hide FindId, FindKey, CurrentState, CurrentScope, ValidLog, Moves, SameContent, NamedBefore, KeyedBefore,
      Canonical.SamePayload;
  }
}
