/** The event store: an append-only table, projected to cases when read. */
module Store {
  import opened Model
  import opened StateMachine
  import opened Log
  import opened Projection
  import Canonical

  predicate MoreRecent(a: Snapshot, b: Snapshot) {
    a.updatedAt >= b.updatedAt
  }

  /** The case has rows in the current scope. */
  ghost predicate ActiveCase(rows: seq<Row>, caseId: string) {
    caseId != SYSTEM_CASE && EventsForCase(rows, caseId, 0) != []
  }

  /** The cases are all the active ones, each once, each as its events project, latest first. */
  ghost predicate ListsCases(rows: seq<Row>, cases: seq<Snapshot>) {
    && (forall i, j :: 0 <= i < j < |cases| ==> cases[i].id != cases[j].id)
    && (forall i :: 0 <= i < |cases| ==>
        ActiveCase(rows, cases[i].id) && Project(EventsForCase(rows, cases[i].id, 0)) == Some(cases[i]))
    && (forall id :: ActiveCase(rows, id) ==> exists i :: 0 <= i < |cases| && cases[i].id == id)
    && (forall i, j :: 0 <= i < j < |cases| ==> cases[i].updatedAt >= cases[j].updatedAt)
  }

  /** An unresolved case of the asset. */
  ghost predicate OpenCase(rows: seq<Row>, asset: string, caseId: string) {
    && ActiveCase(rows, caseId)
    && var snapshot := Project(EventsForCase(rows, caseId, 0));
       snapshot.Some? && snapshot.value.view.change.entityUrn == asset && snapshot.value.view.state != RESOLVED
  }

  class EventStore {
    var rows: seq<Row>

    constructor ()
      ensures rows == []
    {
      rows := [];
    }

    /** One transaction: refuse a redelivery, a reused id, a second detection or a forbidden
        transition; otherwise add the row. */
    method Append(req: Request, now: int) returns (outcome: Outcome)
      modifies this
      ensures outcome == AppendOutcome(old(rows), req, now)
      ensures rows == AfterAppend(old(rows), req, now)
      ensures ValidLog(old(rows)) ==> EndsAs(old(rows), req, now, outcome)
      ensures rows == if outcome.Appended? then old(rows) + [outcome.row] else old(rows)
    {
      ghost var before := rows;
      if ValidLog(before) {
        AppendMeans(before, req, now);
      }
      hide EndsAs, ValidLog;
      var scope := CurrentScope(rows);
      var existingById := FindId(rows, IdFor(rows, req), scope);
      if existingById.Some? {
        if StoredEventMatches(existingById.value, req) {
          return Duplicate(existingById.value.caseId);
        }
        return Conflict(existingById.value.caseId);
      }
      if req.dedupKey.Some? {
        var existingByDedup := FindKey(rows, req.dedupKey.value, scope);
        if existingByDedup.Some? {
          return Duplicate(existingByDedup.value.caseId);
        }
      }
      var current := CurrentState(rows, req.caseId, scope);
      if req.body.SchemaChangeDetected? && current.Some? {
        return InvalidTransition;
      }
      if !ValidTransition(current, req.state) {
        return InvalidTransition;
      }
      var row := RowFor(rows, req, now);
      rows := rows + [row];
      return Appended(row);
    }

    method Reset(reason: string, now: int) returns (sequence: nat)
      modifies this
      ensures rows == AfterReset(old(rows), reason, now)
      ensures sequence == |rows| == |old(rows)| + 1 && old(rows) < rows
      ensures var row := rows[|rows| - 1];
              && row.sequence == sequence && row.caseId == "__system__"
              && row.event == Event(SystemReset(reason), None) && row.dedupKey.None? && row.createdAt == now
      ensures ValidLog(old(rows)) ==> CurrentScope(rows) == sequence
      ensures ValidLog(old(rows)) ==> forall id :: CaseStream(rows, id) == [] && !ActiveCase(rows, id)
    {
      ghost var before := rows;
      rows := AfterReset(rows, reason, now);
      sequence := |rows|;
      hide ValidLog, CaseStream, CurrentScope;
      if ValidLog(before) {
        ResetOpensScope(before, reason, now);
        forall id ensures CaseStream(rows, id) == [] && !ActiveCase(rows, id) {
          ResetEmptiesStreams(before, reason, now, id);
          NoStreamNoCase(rows, id);
        }
      }
    }

    method GetCase(caseId: string) returns (snapshot: Option<Snapshot>)
      ensures snapshot == Project(EventsForCase(rows, caseId, 0))
    {
      snapshot := ProjectCase(EventsForCase(rows, caseId, 0));
    }

    /** The current cases, latest first; it raises when some stream cannot be projected. */
    method ListCases() returns (answer: Answer<seq<Snapshot>>)
      ensures answer.Raise? <==>
              exists id :: ActiveCase(rows, id) && Project(EventsForCase(rows, id, 0)).None?
      ensures answer.Reply? ==> ListsCases(rows, answer.value)
    {
      var order, grouped := GroupByCase();
      hide ActiveCase, Project, EventsForCase, ListsCases;
      var snapshots: seq<Snapshot> := [];
      for k := 0 to |order|
        invariant |snapshots| == k
        invariant forall j :: 0 <= j < k ==>
          snapshots[j].id == order[j] && Project(EventsForCase(rows, order[j], 0)) == Some(snapshots[j])
      {
        assert order[k] in order;
        var snapshot := ProjectCase(grouped[order[k]]);
        if snapshot.None? {
          return Raise;
        }
        ProjectedId(rows, order[k]);
        snapshots := snapshots + [snapshot.value];
      }
      forall id | ActiveCase(rows, id)
        ensures Project(EventsForCase(rows, id, 0)).Some?
        ensures exists i :: 0 <= i < |snapshots| && snapshots[i].id == id
      {
        var i :| 0 <= i < |order| && order[i] == id;
        assert snapshots[i].id == id;
      }
      SortedLists(rows, snapshots);
      return Reply(Canonical.Sort(MoreRecent, snapshots));
    }

    /** The rows of every current case, and the cases in order of their first row. */
    method GroupByCase() returns (order: seq<string>, grouped: map<string, seq<Row>>)
      ensures forall a, b :: 0 <= a < b < |order| ==> order[a] != order[b]
      ensures forall id :: id in order <==> ActiveCase(rows, id)
      ensures forall id :: id in order ==> id in grouped && grouped[id] == EventsForCase(rows, id, 0)
    {
      var scope := CurrentScope(rows);
      grouped := map[];
      order := [];
      for i := 0 to |rows|
        invariant forall a, b :: 0 <= a < b < |order| ==> order[a] != order[b]
        invariant forall id :: id in grouped <==> id in order
        invariant forall id :: id in grouped <==> id != SYSTEM_CASE && Select(rows[..i], id, scope) != []
        invariant forall id :: id in grouped ==> grouped[id] == Select(rows[..i], id, scope)
      {
        assert rows[..i + 1][..i] == rows[..i];
        if rows[i].sequence > scope && rows[i].caseId != SYSTEM_CASE {
          var id := rows[i].caseId;
          if id in grouped {
            grouped := grouped[id := grouped[id] + [rows[i]]];
          } else {
            grouped := grouped[id := [rows[i]]];
            order := order + [id];
          }
        }
      }
      assert rows[..|rows|] == rows;
    }

    /** The first case that must block downstream execution of the asset. */
    method BlockedAsset(asset: string) returns (answer: Answer<Option<Snapshot>>)
      ensures answer.Raise? <==>
              exists id :: ActiveCase(rows, id) && Project(EventsForCase(rows, id, 0)).None?
      ensures answer.Reply? ==> (answer.value.Some? <==> exists id :: OpenCase(rows, asset, id))
      ensures answer.Reply? && answer.value.Some? ==> OpenCase(rows, asset, answer.value.value.id)
    {
      var listed := ListCases();
      if listed.Raise? {
        return Raise;
      }
      var cases := listed.value;
      for i := 0 to |cases|
        invariant forall j :: 0 <= j < i ==> !OpenCase(rows, asset, cases[j].id)
      {
        if cases[i].view.change.entityUrn == asset && cases[i].view.state != RESOLVED {
          assert OpenCase(rows, asset, cases[i].id);
          return Reply(Some(cases[i]));
        }
      }
      return Reply(None);
    }
  }

  lemma {:induction false} SelectIsOfCase(rows: seq<Row>, caseId: string, floor: nat)
    ensures forall row :: row in Select(rows, caseId, floor) ==> row.caseId == caseId && row.sequence > floor
  {
    if rows != [] {
      SelectIsOfCase(rows[..|rows| - 1], caseId, floor);
    }
  }

  /** A projected snapshot carries the id of its case. */
  lemma {:induction false} ProjectedId(rows: seq<Row>, caseId: string)
    ensures var snapshot := Project(EventsForCase(rows, caseId, 0));
            snapshot.Some? ==> snapshot.value.id == caseId
  {
    SelectIsOfCase(rows, caseId, CurrentScope(rows));
  }

  ghost predicate DistinctCases(cases: seq<Snapshot>) {
    forall i, j :: 0 <= i < j < |cases| ==> cases[i].id != cases[j].id
  }

  /** Rearranging a list of distinct cases keeps them distinct. */
  lemma {:induction false} DistinctRearranged(cases: seq<Snapshot>, sorted: seq<Snapshot>)
    requires DistinctCases(cases) && multiset(sorted) == multiset(cases)
    ensures DistinctCases(sorted)
  {
    DistinctOnce(cases);
    forall i, j | 0 <= i < j < |sorted| ensures sorted[i].id != sorted[j].id {
      TwicePlaced(sorted, i, j);
      assert sorted[i] in multiset(cases) && sorted[j] in multiset(cases);
    }
  }

  /** Sorting a complete list of cases keeps it one. */
  lemma {:induction false} SortedLists(rows: seq<Row>, cases: seq<Snapshot>)
    requires DistinctCases(cases)
    requires forall i :: 0 <= i < |cases| ==>
      ActiveCase(rows, cases[i].id) && Project(EventsForCase(rows, cases[i].id, 0)) == Some(cases[i])
    requires forall id :: ActiveCase(rows, id) ==> exists i :: 0 <= i < |cases| && cases[i].id == id
    ensures ListsCases(rows, Canonical.Sort(MoreRecent, cases))
  {
    var sorted := Canonical.Sort(MoreRecent, cases);
    assert Canonical.SortedBy(MoreRecent, sorted) && multiset(sorted) == multiset(cases) by {
      Canonical.SortSorts(MoreRecent, cases);
    }
    forall i, j | 0 <= i < j < |sorted| ensures sorted[i].updatedAt >= sorted[j].updatedAt {
      assert MoreRecent(sorted[i], sorted[j]);
    }
    DistinctRearranged(cases, sorted);
    RearrangedLists(rows, cases, sorted);
  }

  /** Rearranging a complete list of cases keeps every case listed, and listed as it is. */
  lemma {:induction false} RearrangedLists(rows: seq<Row>, cases: seq<Snapshot>, sorted: seq<Snapshot>)
    requires multiset(sorted) == multiset(cases)
    requires forall i :: 0 <= i < |cases| ==>
      ActiveCase(rows, cases[i].id) && Project(EventsForCase(rows, cases[i].id, 0)) == Some(cases[i])
    requires forall id :: ActiveCase(rows, id) ==> exists i :: 0 <= i < |cases| && cases[i].id == id
    ensures forall i :: 0 <= i < |sorted| ==>
      ActiveCase(rows, sorted[i].id) && Project(EventsForCase(rows, sorted[i].id, 0)) == Some(sorted[i])
    ensures forall id :: ActiveCase(rows, id) ==> exists i :: 0 <= i < |sorted| && sorted[i].id == id
  {
    hide Project, ActiveCase, EventsForCase;
    forall id | ActiveCase(rows, id) ensures exists i :: 0 <= i < |sorted| && sorted[i].id == id {
      var k :| 0 <= k < |cases| && cases[k].id == id;
      assert cases[k] in multiset(sorted);
    }
    forall i | 0 <= i < |sorted|
      ensures ActiveCase(rows, sorted[i].id) && Project(EventsForCase(rows, sorted[i].id, 0)) == Some(sorted[i])
    {
      assert sorted[i] in multiset(cases);
    }
  }

  lemma {:induction false} DistinctOnce(cases: seq<Snapshot>)
    requires forall i, j :: 0 <= i < j < |cases| ==> cases[i].id != cases[j].id
    ensures forall s :: multiset(cases)[s] <= 1
  {
    if cases != [] {
      assert cases == [cases[0]] + cases[1..];
      DistinctOnce(cases[1..]);
    }
  }

  lemma {:induction false} TwicePlaced(cases: seq<Snapshot>, i: nat, j: nat)
    requires i < j < |cases|
    ensures cases[i] == cases[j] ==> multiset(cases)[cases[i]] >= 2
  {
    assert cases == cases[..j] + [cases[j]] + cases[j + 1..];
    assert cases[i] in cases[..j];
  }

  // ---- How appends and resets change what is read ----

  /** An append past the latest reset extends the stream of its own case and no other. */
  lemma {:induction false} AppendExtendsStream(rows: seq<Row>, req: Request, now: int, caseId: string)
    requires ValidLog(rows) && AppendOutcome(rows, req, now).Appended? && !req.body.SystemReset?
    ensures var after := AfterAppend(rows, req, now);
            && CurrentScope(after) == CurrentScope(rows)
            && CaseStream(after, caseId) ==
               CaseStream(rows, caseId) + if caseId == req.caseId then [Event(req.body, Some(req.state))] else []
  {
    var after := AfterAppend(rows, req, now);
    assert after[..|rows|] == rows;
    ScopeIsPast(rows);
  }

  /** After a reset no case has events. */
  lemma {:induction false} ResetEmptiesStreams(rows: seq<Row>, reason: string, now: int, caseId: string)
    requires ValidLog(rows)
    ensures CaseStream(AfterReset(rows, reason, now), caseId) == []
  {
    var after := AfterReset(rows, reason, now);
    assert after[..|rows|] == rows;
    ScopeIsPast(rows);
    ResetKeepsValid(rows, reason, now);
    NothingSelected(after, |after|, caseId);
    assert after[..|after|] == after;
  }

  lemma {:induction false} NoStreamNoCase(rows: seq<Row>, caseId: string)
    requires CaseStream(rows, caseId) == []
    ensures !ActiveCase(rows, caseId)
  {
  }

  /** A reset opens the scope of its own sequence number. */
  lemma {:induction false} ResetOpensScope(rows: seq<Row>, reason: string, now: int)
    requires ValidLog(rows)
    ensures CurrentScope(AfterReset(rows, reason, now)) == |rows| + 1
  {
    var after := AfterReset(rows, reason, now);
    assert after[..|rows|] == rows;
    ScopeIsPast(rows);
  }

  lemma {:induction false} NothingSelected(rows: seq<Row>, n: nat, caseId: string)
    requires ValidLog(rows) && n <= |rows|
    ensures Select(rows[..n], caseId, |rows|) == []
  {
    if n > 0 {
      assert rows[..n][..n - 1] == rows[..n - 1];
      NothingSelected(rows, n - 1, caseId);
      RowSequence(rows, n - 1);
    }
  }

  // ---- The guard ----

  ghost predicate NoResetSince(rows: seq<Row>, later: seq<Row>) {
    rows <= later && forall i :: |rows| <= i < |later| ==> !later[i].event.body.SystemReset?
  }

  lemma {:induction false} NoResetTransitive(a: seq<Row>, b: seq<Row>, c: seq<Row>)
    requires NoResetSince(a, b) && NoResetSince(b, c)
    ensures NoResetSince(a, c)
  {
    forall i | |a| <= i < |c| ensures !c[i].event.body.SystemReset? {
      assert i < |b| ==> c[i] == b[i];
    }
  }

  lemma {:induction false} NoResetReflexive(rows: seq<Row>)
    ensures NoResetSince(rows, rows)
  {
  }

  lemma {:induction false} ScopeStays(rows: seq<Row>, later: seq<Row>)
    requires NoResetSince(rows, later)
    ensures CurrentScope(later) == CurrentScope(rows)
    decreases |later|
  {
    if |later| > |rows| {
      var init := later[..|later| - 1];
      assert rows <= init;
      ScopeStays(rows, init);
    } else {
      assert later == rows;
    }
  }

  lemma {:induction false} SelectGrows(rows: seq<Row>, later: seq<Row>, caseId: string, floor: nat)
    requires rows <= later
    ensures Select(rows, caseId, floor) <= Select(later, caseId, floor)
    decreases |later|
  {
    if |later| > |rows| {
      SelectGrows(rows, later[..|later| - 1], caseId, floor);
    } else {
      assert later == rows;
    }
  }

  /** Once a case of an asset is detected, then until a reset the case blocks the asset
      exactly as long as its own state is not RESOLVED. */
  lemma {:induction false} GuardPersists(rows: seq<Row>, later: seq<Row>, asset: string, caseId: string)
    requires ValidLog(later) && NoResetSince(rows, later) && caseId != SYSTEM_CASE
    requires Started(CaseStream(rows, caseId)) && CaseStream(rows, caseId)[0].body.change.entityUrn == asset
    ensures Project(EventsForCase(later, caseId, 0)).Some?
    ensures OpenCase(later, asset, caseId) <==>
            CurrentState(later, caseId, CurrentScope(later)) != Some(RESOLVED)
  {
    ScopeStays(rows, later);
    SelectGrows(rows, later, caseId, CurrentScope(rows));
    var events := CaseStream(later, caseId);
    assert events[0] == CaseStream(rows, caseId)[0];
    FoldMeaning(events);
    ProjectedStateIsCurrent(later, caseId);
  }
}
