/** What an ingest comes to when nobody interferes, in terms of the rows there are: which case a
    delivery belongs to, when it is refused, and what a redelivery finds. */
module IngestMeaning {
  import opened Model
  import opened Log
  import opened Projection
  import opened Recovery
  import opened CaseIdentity
  import opened Allocation
  import AdvanceMeaning
  import Canonical
  import CaseHistory
  import IngestRace

  // ---- Which case ----

  /** Capital letters and digits spelled by the first w characters of the key. */
  ghost predicate Spells(text: string, key: string, w: nat) {
    && w <= |key| && |text| == w
    && forall i :: 0 <= i < w ==> Canonical.SameLetter(text[i], key[i]) && !('a' <= text[i] <= 'z')
  }

  ghost predicate IdOfWidth(caseId: string, key: string, w: nat) {
    |caseId| >= 3 && caseId[..3] == "DR-" && Spells(caseId[3..], key, w)
  }

  ghost predicate TakenId(rows: seq<Row>, caseId: string) {
    exists i :: InScope(rows, i) && rows[i].caseId == caseId
  }

  ghost predicate KeyAt(rows: seq<Row>, i: int, key: string) {
    InScope(rows, i) && rows[i].dedupKey == Some(key)
  }

  ghost predicate KeyKnown(rows: seq<Row>, key: string) {
    exists i :: KeyAt(rows, i, key)
  }

  /** The case of the row with the key; without one, the narrowest id of the key that no row of the
      scope holds. */
  ghost predicate BelongsTo(rows: seq<Row>, key: string, caseId: string) {
    if KeyKnown(rows, key) then exists i :: KeyAt(rows, i, key) && rows[i].caseId == caseId
    else
      && !TakenId(rows, caseId)
      && exists w: nat ::
           && w in {8, 16, 24, 32, 40, 48, 56, 64} && IdOfWidth(caseId, key, w)
           && forall v: nat, id :: v in {8, 16, 24, 32, 40, 48, 56, 64} && v < w && IdOfWidth(id, key, v) ==>
                TakenId(rows, id)
  }

  // ---- Whether the event id is free ----

  /** The row records the detection of this very change for this case. */
  ghost predicate Detects(row: Row, change: SchemaChange, key: string, caseId: string) {
    && row.caseId == caseId
    && row.event.state == Some(DETECTED)
    && row.dedupKey == Some(key)
    && row.event.body.SchemaChangeDetected?
    && row.event.body.incidentUrn == "urn:li:dataRescueIncident:" + caseId
    && var recorded := row.event.body.change;
       && recorded.eventId == change.eventId
       && recorded.source == change.source
       && Canonical.SameUpToCase(recorded.entityUrn, change.entityUrn)
       && multiset(recorded.beforeFields) == multiset(change.beforeFields)
       && multiset(recorded.afterFields) == multiset(change.afterFields)
  }

  /** The change's event id names another event of the scope. */
  ghost predicate IdElsewhere(rows: seq<Row>, change: SchemaChange, key: string, caseId: string) {
    change.eventId.Some? && exists i ::
      && InScope(rows, i) && rows[i].eventId == Supplied(change.eventId.value)
      && !Detects(rows[i], change, key, caseId)
  }

  // ---- The answer ----

  /** A conflict leaves the log alone; otherwise the answer is the case, deduplicated iff the key was
      known; and a known case is advanced iff it can go on and the process does not own it. */
  ghost predicate AnsweredAs(settings: Settings, before: seq<Row>, after: seq<Row>, owned: set<string>,
        d: Delivery, key: string, response: Response) {
    if IdElsewhere(before, d.change, key, d.caseId) then response.EventConflict? && after == before
    else
      && response.CaseResponse? && response.caseId == d.caseId
      && (response.deduplicated <==> KeyKnown(before, key))
      && (response.deduplicated ==> GoesOn(settings, d, CaseStream(before, d.caseId), CaseStream(after, d.caseId),
                                           owned))
  }

  ghost predicate GoesOn(settings: Settings, d: Delivery, before: seq<Event>, after: seq<Event>, owned: set<string>) {
    && Started(before)
    && if Fold(before).state in {DETECTED, CONTEXT_GATHERED, CANDIDATES_READY, VALIDATING, PATCH_READY}
          && d.caseId !in owned
       then CaseHistory.Invariant(settings, before) ==> AdvanceMeaning.Advanced(settings, d, before, after)
       else after == before
  }

  ghost predicate IngestedAs(settings: Settings, before: seq<Row>, after: seq<Row>, owned: set<string>,
        change: SchemaChange, adapters: Recovery.Adapters, key: string, response: Response) {
    exists caseId ::
      && BelongsTo(before, key, caseId)
      && AnsweredAs(settings, before, after, owned, Delivery(caseId, change, adapters), key, response)
  }

  // ---- The ids ----

  lemma {:induction false} WideIdSpells(key: string, w: nat)
    requires Digest(key) && w <= 64
    ensures IdOfWidth(WideId(key, w), key, w)
  {
    var id := WideId(key, w);
    assert id[..3] == "DR-" && id[3..] == Upper(key)[..w];
  }

  lemma {:induction false} SpellsOne(a: string, b: string, key: string, w: nat)
    requires Digest(key) && IdOfWidth(a, key, w) && IdOfWidth(b, key, w)
    ensures a == b
  {
    forall i | 0 <= i < w ensures a[3..][i] == b[3..][i] {
      assert Canonical.SameLetter(a[3..][i], key[i]) && Canonical.SameLetter(b[3..][i], key[i]);
    }
    assert a == a[..3] + a[3..] && b == b[..3] + b[3..];
  }

  lemma {:induction false} TakenMeans(rows: seq<Row>, caseId: string)
    requires LegalLog(rows)
    ensures TakenId(rows, caseId) <==> CaseIdExists(rows, caseId)
  {
    LegalIsValid(rows);
    ExistsMeans(rows, caseId);
    hide LegalLog, ValidLog, CaseIdExists, CurrentScope;
    if CaseIdExists(rows, caseId) {
      var i :| RowOf(rows, i, caseId, CurrentScope(rows));
      assert InScope(rows, i) && rows[i].caseId == caseId;
      assert TakenId(rows, caseId);
    } else {
      forall i | InScope(rows, i) ensures rows[i].caseId != caseId {
        assert !RowOf(rows, i, caseId, CurrentScope(rows));
      }
    }
  }

  lemma {:induction false} KnownMeans(rows: seq<Row>, key: string)
    requires LegalLog(rows)
    ensures KeyKnown(rows, key) <==> FindCaseForDedup(rows, key).Some?
    ensures forall i :: KeyAt(rows, i, key) ==> FindCaseForDedup(rows, key) == Some(rows[i].caseId)
  {
    IngestRace.FoundIsRecorded(rows, key);
    hide LegalLog, FindCaseForDedup, CurrentScope;
    forall i | KeyAt(rows, i, key) ensures FindCaseForDedup(rows, key) == Some(rows[i].caseId) {
      assert KeyRow(rows, i, key, CurrentScope(rows));
      RecordedIsFound(rows, key, rows[i].caseId);
    }
    if FindCaseForDedup(rows, key).Some? {
      var i :| KeyRow(rows, i, key, CurrentScope(rows)) && rows[i].caseId == FindCaseForDedup(rows, key).value;
      assert KeyAt(rows, i, key);
    }
  }

  lemma {:induction false} AvailableMeans(rows: seq<Row>, key: string)
    requires LegalLog(rows) && Digest(key) && |key| == 64
    ensures IngestRace.Available(rows, key).Some?
    ensures BelongsTo(rows, key, IngestRace.Available(rows, key).value)
  {
    IngestRace.AtomicAllocationSucceeds(rows, key);
    KnownMeans(rows, key);
    hide LegalLog, Digest, FindCaseForDedup, CaseIdExists, IngestRace.Available, InScope, WideId;
    var caseId := IngestRace.Available(rows, key).value;
    if KeyKnown(rows, key) {
      var i :| KeyAt(rows, i, key);
    } else {
      var w: nat :| Width(w) && caseId == WideId(key, w) && IngestRace.TakenBelow(rows, key, w);
      NarrowestIsGiven(rows, key, w);
    }
  }

  lemma {:induction false} NarrowestIsGiven(rows: seq<Row>, key: string, w: nat)
    requires LegalLog(rows) && Digest(key) && |key| == 64 && Width(w) && !KeyKnown(rows, key)
    requires !CaseIdExists(rows, WideId(key, w)) && IngestRace.TakenBelow(rows, key, w)
    ensures BelongsTo(rows, key, WideId(key, w))
  {
    hide LegalLog, Digest, CaseIdExists, InScope, WideId, IdOfWidth;
    TakenMeans(rows, WideId(key, w));
    WideIdSpells(key, w);
    assert w in {8, 16, 24, 32, 40, 48, 56, 64};
    forall v: nat, id | v in {8, 16, 24, 32, 40, 48, 56, 64} && v < w && IdOfWidth(id, key, v)
      ensures TakenId(rows, id)
    {
      WideIdSpells(key, v);
      SpellsOne(id, WideId(key, v), key, v);
      TakenMeans(rows, id);
      assert Width(v);
    }
  }

  // ---- The event id ----

  lemma {:induction false} ClashMeans(rows: seq<Row>, change: SchemaChange, key: string, caseId: string)
    requires LegalLog(rows)
    ensures IngestRace.CheckEventId(rows, DetectionOf(change, key, caseId)).Clash? <==>
            IdElsewhere(rows, change, key, caseId)
  {
    LegalIsValid(rows);
    if change.eventId.Some? {
      var id := Supplied(change.eventId.value);
      FoundId(rows, id, CurrentScope(rows));
      var found := FindId(rows, id, CurrentScope(rows));
      if found.Some? {
        SamePayloadMeans(found.value.event.body, SchemaChangeDetected(change, IncidentUrn(caseId)));
      }
      hide FindId, CurrentScope, ValidLog, LegalLog, Canonical.SamePayload;
      if found.Some? {
        var m :| 0 <= m < |rows| && rows[m] == found.value;
        assert InScope(rows, m);
        MatchesMeans(found.value, change, key, caseId);
        forall i | InScope(rows, i) && rows[i].eventId == id ensures i == m {
          OnlyRow(rows, i, m);
        }
      }
    }
  }

  lemma {:induction false} MatchesMeans(row: Row, change: SchemaChange, key: string, caseId: string)
    ensures StoredEventMatches(row, DetectionOf(change, key, caseId)) <==> Detects(row, change, key, caseId)
  {
    SamePayloadMeans(row.event.body, SchemaChangeDetected(change, IncidentUrn(caseId)));
    hide Canonical.SamePayload;
  }

  // ---- The whole ----

  lemma {:induction false} GoesOnMeans(settings: Settings, d: Delivery, before: seq<Event>, owned: set<string>)
    requires Started(before)
    ensures GoesOn(settings, d, before, Redelivery(settings, d, before, owned), owned)
  {
    hide Run, Fold, CaseHistory.Invariant, AdvanceMeaning.Advanced;
    if CaseHistory.Invariant(settings, before) {
      AdvanceMeaning.RunAdvanced(settings, d, before);
    }
  }

  /** What the queries and the run say of a quiet ingest is what the rows say. */
  lemma {:induction false} QuietMeans(settings: Settings, before: seq<Row>, after: seq<Row>, owned: set<string>,
        change: SchemaChange, adapters: Recovery.Adapters, response: Response)
    requires LegalLog(before) && HexDigests(settings)
    requires QuietAnswer(settings, before, after, owned, change, adapters, response)
    ensures IngestedAs(settings, before, after, owned, change, adapters, KeyOf(settings, change), response)
  {
    var key := KeyOf(settings, change);
    KeyIsDigest(settings, change);
    hide LegalLog, HexDigests, Digest, KeyOf, FindCaseForDedup, CaseStream, Redelivery, IdElsewhere, KeyKnown,
      BelongsTo, GoesOn, IngestRace.Available, IngestRace.CheckEventId;
    AvailableMeans(before, key);
    var caseId := IngestRace.Available(before, key).value;
    ClashMeans(before, change, key, caseId);
    KnownMeans(before, key);
    var d := Delivery(caseId, change, adapters);
    if response.CaseResponse? && response.deduplicated {
      GoesOnMeans(settings, d, CaseStream(before, caseId), owned);
    }
    assert AnsweredAs(settings, before, after, owned, d, key, response);
  }

  /** A redelivery of a recorded detection is answered with its case, deduplicated, whatever was
      observed when, in whichever case the asset is written and in whichever order the fields come. */
  lemma {:induction false} RedeliveryIsAnswered(settings: Settings, before: seq<Row>, after: seq<Row>,
        owned: set<string>, change: SchemaChange, adapters: Recovery.Adapters, response: Response, i: int)
    requires LegalLog(before)
    requires IngestedAs(settings, before, after, owned, change, adapters, KeyOf(settings, change), response)
    requires InScope(before, i) && Detects(before[i], change, KeyOf(settings, change), before[i].caseId)
    requires change.eventId.Some? ==> before[i].eventId == Supplied(change.eventId.value)
    ensures response.CaseResponse? && response.caseId == before[i].caseId && response.deduplicated
  {
    var key := KeyOf(settings, change);
    LegalIsValid(before);
    KnownMeans(before, key);
    hide LegalLog, ValidLog, KeyOf, FindCaseForDedup, CaseStream, GoesOn, InScope, Detects;
    var caseId :| BelongsTo(before, key, caseId)
                  && AnsweredAs(settings, before, after, owned, Delivery(caseId, change, adapters), key, response);
    DetectsKey(before[i], change, key, before[i].caseId);
    assert KeyAt(before, i, key);
    if IdElsewhere(before, change, key, caseId) {
      var j :| InScope(before, j) && before[j].eventId == Supplied(change.eventId.value)
               && !Detects(before[j], change, key, caseId);
      SameScope(before, i, j);
      OnlyRow(before, i, j);
    }
  }

  lemma {:induction false} DetectsKey(row: Row, change: SchemaChange, key: string, caseId: string)
    requires Detects(row, change, key, caseId)
    ensures row.dedupKey == Some(key)
  {
  }

  lemma {:induction false} SameScope(rows: seq<Row>, i: int, j: int)
    requires InScope(rows, i) && InScope(rows, j)
    ensures 0 <= i < |rows| && 0 <= j < |rows| && rows[i].resetScope == rows[j].resetScope
  {
  }

  lemma {:induction false} RedeliveriesAreAnswered(settings: Settings, before: seq<Row>, after: seq<Row>,
        owned: set<string>, change: SchemaChange, adapters: Recovery.Adapters, response: Response)
    requires LegalLog(before)
    requires IngestedAs(settings, before, after, owned, change, adapters, KeyOf(settings, change), response)
    ensures forall i ::
              && InScope(before, i)
              && Detects(before[i], change, KeyOf(settings, change), before[i].caseId)
              && (change.eventId.Some? ==> before[i].eventId == Supplied(change.eventId.value))
              ==> response.CaseResponse? && response.caseId == before[i].caseId && response.deduplicated
  {
    hide LegalLog, IngestedAs, Detects, KeyOf;
    forall i | && InScope(before, i)
               && Detects(before[i], change, KeyOf(settings, change), before[i].caseId)
               && (change.eventId.Some? ==> before[i].eventId == Supplied(change.eventId.value))
      ensures response.CaseResponse? && response.caseId == before[i].caseId && response.deduplicated
    {
      RedeliveryIsAnswered(settings, before, after, owned, change, adapters, response, i);
    }
  }

  /** A case opened by an ingest was advanced from its detection. */
  lemma {:induction false} OpenedIsAdvanced(settings: Settings, rows: seq<Row>, d: Delivery)
    requires OpenedAndRun(settings, rows, d)
    ensures AdvanceMeaning.Advanced(settings, d,
              [Event(SchemaChangeDetected(d.change, "urn:li:dataRescueIncident:" + d.caseId), Some(DETECTED))],
              CaseStream(rows, d.caseId))
  {
    hide Run, CaseStream, AdvanceMeaning.Advanced, CaseHistory.Invariant;
    var first := DetectionEvent(d.change, d.caseId);
    CaseHistory.DetectionInvariant(settings, first);
    AdvanceMeaning.RunAdvanced(settings, d, [first]);
  }
}
