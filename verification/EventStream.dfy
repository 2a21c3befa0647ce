/** The resumable event stream of one case, and a client that reconnects to it.

    Section 9.2.4 of the WHATWG HTML Standard: a client that reconnects sends the id of the last
    event it received in the `Last-Event-ID` header.
 */
module EventStream {
  import opened Model
  import opened Log
  import opened Projection
  import opened Store

  const SQLITE_MAX_INTEGER := 9223372036854775807

  // ---- Event ids as text ----

  function Digit(n: nat): char
    requires n < 10
  {
    (n + '0' as nat) as char
  }

  function Decimal(n: nat): (text: string)
    ensures text != "" && forall i :: 0 <= i < |text| ==> '0' <= text[i] <= '9'
  {
    if n < 10 then [Digit(n)] else Decimal(n / 10) + [Digit(n % 10)]
  }

  /** Digits only; anything else is no number. */
  function ParseDecimal(text: string): Option<nat> {
    if text == "" then None
    else
      var last := text[|text| - 1];
      if !('0' <= last <= '9') then None
      else if |text| == 1 then Some(last as nat - '0' as nat)
      else
        match ParseDecimal(text[..|text| - 1])
        case None => None
        case Some(n) => Some(10 * n + (last as nat - '0' as nat))
  }

  lemma {:induction false} DecimalParses(n: nat)
    ensures ParseDecimal(Decimal(n)) == Some(n)
  {
    if n >= 10 {
      DecimalParses(n / 10);
      assert Decimal(n)[..|Decimal(n)| - 1] == Decimal(n / 10);
    }
  }

  predicate IsSpace(c: char) {
    c in {' ', '\t', '\n', '\r'}
  }

  function Strip(text: string): string {
    if text != "" && IsSpace(text[0]) then Strip(text[1..])
    else if text != "" && IsSpace(text[|text| - 1]) then Strip(text[..|text| - 1])
    else text
  }

  /** Where a connection starts: the query cursor, else the header's, else the beginning. */
  function SseCursor(after: nat, header: Option<string>): Answer<nat> {
    if after > SQLITE_MAX_INTEGER then Raise
    else if after != 0 then Reply(after)
    else if header.None? || Strip(header.value) == "" then Reply(0)
    else
      match ParseDecimal(Strip(header.value))
      case None => Raise
      case Some(cursor) => if cursor <= SQLITE_MAX_INTEGER then Reply(cursor) else Raise
  }

  /** A client that sends the id it last received resumes right after it. */
  lemma {:induction false} CursorRoundTrip(id: nat)
    ensures SseCursor(0, Some(Decimal(id))) == if id <= SQLITE_MAX_INTEGER then Reply(id) else Raise
  {
    DecimalParses(id);
    var text := Decimal(id);
    hide Decimal, ParseDecimal;
    assert '0' <= text[0] <= '9' && '0' <= text[|text| - 1] <= '9';
    assert Strip(text) == text;
  }

  // ---- What is left after a cursor ----

  function Floor(rows: seq<Row>, cursor: nat): nat {
    if CurrentScope(rows) > cursor then CurrentScope(rows) else cursor
  }

  /** The sequence number of the last event, or 0. */
  function CursorOf(events: seq<Row>): nat {
    if events == [] then 0 else events[|events| - 1].sequence
  }

  function Max(a: nat, b: nat): nat {
    if a > b then a else b
  }

  lemma {:induction false} SelectedAreEarlier(rows: seq<Row>, caseId: string, floor: nat)
    requires ValidLog(rows)
    ensures forall row :: row in Select(rows, caseId, floor) ==> floor < row.sequence <= |rows|
    ensures floor >= |rows| ==> Select(rows, caseId, floor) == []
  {
    if rows != [] {
      SelectedAreEarlier(rows[..|rows| - 1], caseId, floor);
      RowSequence(rows, |rows| - 1);
    }
  }

  /** After the first n events of a case, its cursor selects exactly the rest. */
  lemma {:induction false} CursorSelectsRest(rows: seq<Row>, caseId: string, floor: nat, n: nat)
    requires ValidLog(rows) && n <= |Select(rows, caseId, floor)|
    ensures var all := Select(rows, caseId, floor);
            Select(rows, caseId, Max(floor, CursorOf(all[..n]))) == all[n..]
  {
    var all := Select(rows, caseId, floor);
    if rows != [] {
      var init := rows[..|rows| - 1];
      var last := rows[|rows| - 1];
      var earlier := Select(init, caseId, floor);
      RowSequence(rows, |init|);
      SelectedAreEarlier(init, caseId, floor);
      if n <= |earlier| {
        CursorSelectsRest(init, caseId, floor, n);
        assert all[..n] == earlier[..n];
        if n > 0 {
          assert earlier[n - 1] in earlier;
        }
      } else {
        assert all[..n] == all;
        SelectedAreEarlier(rows, caseId, |rows|);
      }
    }
  }

  // ---- A client and its connections ----

  /** An open connection: its cursor, the rows of the last poll still to send, and the events sent
      but not received. */
  datatype Connection = Connection(cursor: nat, pending: seq<Row>, wire: seq<Row>)

  datatype World = World(rows: seq<Row>, received: seq<Row>, connection: Option<Connection>)

  datatype Step =
    | Append(req: Log.Request, now: int)
    | Connect
    | Poll
    | Send
    | Receive
    | Disconnect

  /** The header a reconnecting client sends. */
  function LastEventId(received: seq<Row>): Option<string> {
    if received == [] then None else Some(Decimal(received[|received| - 1].sequence))
  }

  function Perform(w: World, caseId: string, step: Step): World {
    match step
    case Append(req, now) =>
      if req.body.SystemReset? || |w.rows| >= SQLITE_MAX_INTEGER then w
      else w.(rows := AfterAppend(w.rows, req, now))
    case Connect =>
      if w.connection.Some? || !CaseIdExists(w.rows, caseId) then w
      else
        (match SseCursor(0, LastEventId(w.received))
         case Raise => w
         case Reply(cursor) => w.(connection := Some(Connection(cursor, [], []))))
    case Poll =>
      if w.connection.None? || w.connection.value.pending != [] then w
      else
        var c := w.connection.value;
        w.(connection := Some(c.(pending := EventsForCase(w.rows, caseId, c.cursor))))
    case Send =>
      if w.connection.None? || w.connection.value.pending == [] then w
      else
        var c := w.connection.value;
        w.(connection := Some(Connection(c.pending[0].sequence, c.pending[1..], c.wire + [c.pending[0]])))
    case Receive =>
      if w.connection.None? || w.connection.value.wire == [] then w
      else
        var c := w.connection.value;
        World(w.rows, w.received + [c.wire[0]], Some(c.(wire := c.wire[1..])))
    case Disconnect => w.(connection := None)
  }

  function Steps(w: World, caseId: string, steps: seq<Step>): World {
    if steps == [] then w else Perform(Steps(w, caseId, steps[..|steps| - 1]), caseId, steps[|steps| - 1])
  }

  /** What was received, is on the wire and is still to send are the first events of the case, in
      order; the cursor is at the last one sent. */
  ghost predicate InStep(w: World, caseId: string) {
    && ValidLog(w.rows) && |w.rows| <= SQLITE_MAX_INTEGER
    && var all := EventsForCase(w.rows, caseId, 0);
       match w.connection
       case None => w.received <= all
       case Some(c) =>
         && w.received + c.wire + c.pending <= all
         && c.cursor == CursorOf(w.received + c.wire)
  }

  lemma {:induction false} PollSelectsRest(w: World, caseId: string)
    requires InStep(w, caseId) && w.connection.Some? && w.connection.value.pending == []
    ensures w.received + w.connection.value.wire + EventsForCase(w.rows, caseId, w.connection.value.cursor)
            == EventsForCase(w.rows, caseId, 0)
  {
    var c := w.connection.value;
    var all := EventsForCase(w.rows, caseId, 0);
    var sent := w.received + c.wire;
    assert sent + [] == sent;
    CursorSelectsRest(w.rows, caseId, CurrentScope(w.rows), |sent|);
    assert all[..|sent|] == sent;
    assert all == sent + all[|sent|..];
  }

  lemma {:induction false} AppendKeepsInStep(w: World, caseId: string, req: Log.Request, now: int)
    requires InStep(w, caseId) && !req.body.SystemReset? && |w.rows| < SQLITE_MAX_INTEGER
    ensures InStep(w.(rows := AfterAppend(w.rows, req, now)), caseId)
  {
    var after := AfterAppend(w.rows, req, now);
    AppendKeepsValid(w.rows, req, now);
    assert after == w.rows || after == w.rows + [RowFor(w.rows, req, now)];
    hide AppendOutcome, AfterAppend, ValidLog;
    ScopeStays(w.rows, after);
    SelectGrows(w.rows, after, caseId, CurrentScope(w.rows));
    hide Select, CurrentScope;
    var all, more := EventsForCase(w.rows, caseId, 0), EventsForCase(after, caseId, 0);
    assert all <= more;
  }

  lemma {:induction false} ConnectKeepsInStep(w: World, caseId: string)
    requires InStep(w, caseId) && w.connection.None?
    ensures InStep(Perform(w, caseId, Connect), caseId)
    ensures CaseIdExists(w.rows, caseId) ==> Perform(w, caseId, Connect).connection.Some?
  {
    assert w.received + [] + [] == w.received;
    assert w.received + [] == w.received;
    ReconnectCursor(w.rows, caseId, w.received);
    hide SseCursor, LastEventId, EventsForCase, ValidLog, CaseIdExists;
  }

  /** The header of a client that has the first events of a case leads back to the last of them. */
  lemma {:induction false} ReconnectCursor(rows: seq<Row>, caseId: string, received: seq<Row>)
    requires ValidLog(rows) && |rows| <= SQLITE_MAX_INTEGER && received <= EventsForCase(rows, caseId, 0)
    ensures SseCursor(0, LastEventId(received)) == Reply(CursorOf(received))
  {
    if received != [] {
      var all := EventsForCase(rows, caseId, 0);
      var last := received[|received| - 1];
      SelectedAreEarlier(rows, caseId, Floor(rows, 0));
      assert last == all[|received| - 1];
      assert last in all;
      hide SseCursor, Select, ValidLog;
      CursorRoundTrip(last.sequence);
    }
  }

  lemma {:induction false} SendKeepsInStep(w: World, caseId: string)
    requires InStep(w, caseId) && w.connection.Some? && w.connection.value.pending != []
    ensures InStep(Perform(w, caseId, Send), caseId)
  {
    hide ValidLog, EventsForCase;
    var c := w.connection.value;
    assert w.received + c.wire + c.pending == w.received + (c.wire + [c.pending[0]]) + c.pending[1..];
    assert w.received + (c.wire + [c.pending[0]]) == w.received + c.wire + [c.pending[0]];
  }

  lemma {:induction false} ReceiveKeepsInStep(w: World, caseId: string)
    requires InStep(w, caseId) && w.connection.Some? && w.connection.value.wire != []
    ensures InStep(Perform(w, caseId, Receive), caseId)
  {
    hide ValidLog, EventsForCase;
    var c := w.connection.value;
    assert w.received + c.wire == w.received + [c.wire[0]] + c.wire[1..];
  }

  lemma {:induction false} StepKeepsInStep(w: World, caseId: string, step: Step)
    requires InStep(w, caseId)
    ensures InStep(Perform(w, caseId, step), caseId)
  {
    match step
    case Append(req, now) =>
      if !req.body.SystemReset? && |w.rows| < SQLITE_MAX_INTEGER {
        AppendKeepsInStep(w, caseId, req, now);
      }
    case Connect =>
      if w.connection.None? {
        ConnectKeepsInStep(w, caseId);
      }
    case Poll =>
      if w.connection.Some? && w.connection.value.pending == [] {
        PollSelectsRest(w, caseId);
      }
    case Send =>
      if w.connection.Some? && w.connection.value.pending != [] {
        SendKeepsInStep(w, caseId);
      }
    case Receive =>
      if w.connection.Some? && w.connection.value.wire != [] {
        ReceiveKeepsInStep(w, caseId);
      }
    case Disconnect =>
      if w.connection.Some? {
        var c := w.connection.value;
        assert w.received <= w.received + c.wire + c.pending;
      }
  }

  /** A client that has received nothing, on any log. */
  ghost predicate Starting(w: World) {
    ValidLog(w.rows) && |w.rows| <= SQLITE_MAX_INTEGER && w.received == [] && w.connection.None?
  }

  lemma {:induction false} RunKeepsInStep(w: World, caseId: string, steps: seq<Step>)
    requires Starting(w)
    ensures InStep(Steps(w, caseId, steps), caseId)
  {
    hide Perform;
    if steps != [] {
      RunKeepsInStep(w, caseId, steps[..|steps| - 1]);
      StepKeepsInStep(Steps(w, caseId, steps[..|steps| - 1]), caseId, steps[|steps| - 1]);
    }
  }

  /** Exactly once, in order: for any interleaving of appends, polls, sends, losses and
      reconnects, what the client received is a prefix of the case's events, each once; and when a
      connection has nothing left to send or deliver, it is all of them exactly when a poll finds
      nothing more. */
  lemma {:induction false} ReceivedExactlyOnce(w: World, caseId: string, steps: seq<Step>)
    requires Starting(w)
    ensures var now := Steps(w, caseId, steps);
            var all := EventsForCase(now.rows, caseId, 0);
            && now.received <= all
            && (forall i, j :: 0 <= i < j < |now.received| ==> now.received[i].sequence < now.received[j].sequence)
            && (now.connection.Some? && now.connection.value.pending == [] && now.connection.value.wire == [] ==>
                && Perform(now, caseId, Poll).connection.Some?
                && (now.received == all <==> Perform(now, caseId, Poll).connection.value.pending == []))
  {
    RunKeepsInStep(w, caseId, steps);
    hide Steps, InStep, Perform;
    var now := Steps(w, caseId, steps);
    InStepMeans(now, caseId);
    if now.connection.Some? && now.connection.value.pending == [] && now.connection.value.wire == [] {
      CaughtUp(now, caseId);
    }
  }

  lemma {:induction false} InStepMeans(w: World, caseId: string)
    requires InStep(w, caseId)
    ensures w.received <= EventsForCase(w.rows, caseId, 0)
    ensures forall i, j :: 0 <= i < j < |w.received| ==> w.received[i].sequence < w.received[j].sequence
  {
    var all := EventsForCase(w.rows, caseId, 0);
    if w.connection.Some? {
      assert w.received <= w.received + w.connection.value.wire + w.connection.value.pending;
    }
    SelectIsAscending(w.rows, caseId, Floor(w.rows, 0));
    assert w.received <= all && all == Select(w.rows, caseId, Floor(w.rows, 0));
    assert Ascending(all);
    hide InStep, EventsForCase, Select;
    forall i, j | 0 <= i < j < |w.received| ensures w.received[i].sequence < w.received[j].sequence {
      assert all[i] == w.received[i] && all[j] == w.received[j];
    }
  }

  /** A poll finds nothing more exactly when the client has it all. */
  lemma {:induction false} CaughtUp(w: World, caseId: string)
    requires InStep(w, caseId) && w.connection.Some? && w.connection.value.pending == []
        && w.connection.value.wire == []
    ensures Perform(w, caseId, Poll).connection.Some?
    ensures w.received == EventsForCase(w.rows, caseId, 0) <==> Perform(w, caseId, Poll).connection.value.pending == []
  {
    PollSelectsRest(w, caseId);
    hide EventsForCase;
    var rest := EventsForCase(w.rows, caseId, w.connection.value.cursor);
    assert w.received + [] + rest == w.received + rest;
  }

  ghost predicate Ascending(events: seq<Row>) {
    forall i, j :: 0 <= i < j < |events| ==> events[i].sequence < events[j].sequence
  }

  lemma {:induction false} AscendingLonger(events: seq<Row>, last: Row)
    requires Ascending(events) && forall row :: row in events ==> row.sequence < last.sequence
    ensures Ascending(events + [last])
  {
    var longer := events + [last];
    forall i, j | 0 <= i < j < |longer| ensures longer[i].sequence < longer[j].sequence {
      assert longer[i] == events[i] && events[i] in events;
    }
  }

  lemma {:induction false} SelectIsAscending(rows: seq<Row>, caseId: string, floor: nat)
    requires ValidLog(rows)
    ensures Ascending(Select(rows, caseId, floor))
  {
    if rows != [] {
      var init, last := rows[..|rows| - 1], rows[|rows| - 1];
      SelectIsAscending(init, caseId, floor);
      SelectedAreEarlier(init, caseId, floor);
      RowSequence(rows, |init|);
      AscendingLonger(Select(init, caseId, floor), last);
    }
  }

  // ---- One connection as the server runs it ----

  datatype Frame = Message(row: Row) | KeepAlive

  const MAX_FOLLOW_TICKS := 4800

  function Messages(frames: seq<Frame>): seq<Row> {
    if frames == [] then []
    else
      Messages(frames[..|frames| - 1])
      + if frames[|frames| - 1].Message? then [frames[|frames| - 1].row] else []
  }

  function KeepAlives(frames: seq<Frame>): nat {
    if frames == [] then 0
    else KeepAlives(frames[..|frames| - 1]) + if frames[|frames| - 1].KeepAlive? then 1 else 0
  }

  lemma {:induction false} FrameStep(frames: seq<Frame>, frame: Frame)
    ensures Messages(frames + [frame]) == Messages(frames) + if frame.Message? then [frame.row] else []
    ensures KeepAlives(frames + [frame]) == KeepAlives(frames) + if frame.KeepAlive? then 1 else 0
  {
    assert (frames + [frame])[..|frames|] == frames;
  }

  /** What was sent so far, all of it, up to the cursor. */
  ghost predicate SentUpTo(rows: seq<Row>, caseId: string, from: nat, sent: seq<Row>, cursor: nat) {
    && sent <= EventsForCase(rows, caseId, from)
    && cursor == if sent == [] then from else CursorOf(sent)
  }

  lemma {:induction false} RestAfter(rows: seq<Row>, caseId: string, from: nat, sent: seq<Row>, cursor: nat)
    requires ValidLog(rows) && SentUpTo(rows, caseId, from, sent, cursor)
    ensures sent + EventsForCase(rows, caseId, cursor) == EventsForCase(rows, caseId, from)
  {
    var all := EventsForCase(rows, caseId, from);
    CursorSelectsRest(rows, caseId, Floor(rows, from), |sent|);
    assert all[..|sent|] == sent;
    SelectedAreEarlier(rows, caseId, Floor(rows, from));
    if sent != [] {
      assert sent[|sent| - 1] in all;
    }
    assert all == sent + all[|sent|..];
  }

  lemma {:induction false} SentStays(rows: seq<Row>, later: seq<Row>, caseId: string, from: nat, sent: seq<Row>,
        cursor: nat)
    requires NoResetSince(rows, later) && SentUpTo(rows, caseId, from, sent, cursor)
    ensures SentUpTo(later, caseId, from, sent, cursor)
    ensures EventsForCase(rows, caseId, from) <= EventsForCase(later, caseId, from)
  {
    ScopeStays(rows, later);
    SelectGrows(rows, later, caseId, Floor(rows, from));
  }

  /** The log after these requests were tried in order, each at some time. */
  ghost function AppendAll(rows: seq<Row>, requests: seq<Log.Request>, nows: seq<int>): seq<Row>
    requires |nows| == |requests|
  {
    if requests == [] then rows
    else
      var n := |requests| - 1;
      AfterAppend(AppendAll(rows, requests[..n], nows[..n]), requests[n], nows[n])
  }

  ghost predicate Batched(rows: seq<Row>, requests: seq<Log.Request>, after: seq<Row>) {
    exists nows :: |nows| == |requests| && after == AppendAll(rows, requests, nows)
  }

  /** The logs that the polls saw: the first as it was, each later one after one more batch. */
  ghost predicate Polled(start: seq<Row>, appends: nat -> seq<Log.Request>, logs: seq<seq<Row>>) {
    && logs != [] && logs[0] == start
    && forall k: nat :: 0 < k < |logs| ==> Batched(logs[k - 1], appends(k), logs[k])
  }

  /** A connection that follows polls at tick after tick until the client is gone, at most 4800 times. */
  ghost predicate LastTick(gone: nat -> bool, k: nat) {
    && k <= MAX_FOLLOW_TICKS - 1
    && (forall j: nat :: j < k ==> !gone(j))
    && (gone(k) || k == MAX_FOLLOW_TICKS - 1)
  }

  /** After the poll of tick k all that it saw past the start is sent, with a keep-alive for every
      twenty ticks. */
  ghost predicate SentAt(frames: seq<Frame>, mark: nat, rows: seq<Row>, caseId: string, start: nat, k: nat) {
    && mark <= |frames|
    && Messages(frames[..mark]) == EventsForCase(rows, caseId, start)
    && KeepAlives(frames[..mark]) == k / 20
  }

  lemma {:induction false} MarkStays(frames: seq<Frame>, more: seq<Frame>, mark: nat, rows: seq<Row>, caseId: string,
        start: nat, k: nat)
    requires SentAt(frames, mark, rows, caseId, start, k) && frames <= more
    ensures SentAt(more, mark, rows, caseId, start, k)
  {
    assert more[..mark] == frames[..mark];
  }

  lemma {:induction false} MarkHere(frames: seq<Frame>, rows: seq<Row>, caseId: string, start: nat, k: nat)
    requires Messages(frames) == EventsForCase(rows, caseId, start) && KeepAlives(frames) == k / 20
    ensures SentAt(frames, |frames|, rows, caseId, start, k)
  {
    assert frames[..|frames|] == frames;
  }

  /** The generator behind a connection: poll, send, and unless it follows, stop; otherwise go on
      until the client is gone or the connection is old. `logs` is what the polls saw, `marks` how
      much was sent after each: exactly what the case had after the start, nothing twice. */
  method Stream(store: EventStore, caseId: string, start: nat, follow: bool,
                appends: nat -> seq<Log.Request>, gone: nat -> bool)
                    returns (frames: seq<Frame>, ghost logs: seq<seq<Row>>, ghost marks: seq<nat>)
    requires ValidLog(store.rows) && forall k, req :: req in appends(k) ==> !req.body.SystemReset?
    modifies store
    ensures ValidLog(store.rows) && NoResetSince(old(store.rows), store.rows)
    ensures Polled(old(store.rows), appends, logs) && store.rows == logs[|logs| - 1]
    ensures if follow then LastTick(gone, |logs| - 1) else |logs| == 1
    ensures |marks| == |logs| && marks[|marks| - 1] == |frames|
    ensures forall k: nat :: k < |logs| ==> SentAt(frames, marks[k], logs[k], caseId, start, k)
  {
    hide ValidLog, EventsForCase, NoResetSince, CurrentScope, SentUpTo, SentAt, Batched, Messages, KeepAlives;
    var cursor := start;
    var idleTicks := 0;
    frames := [];
    ghost var began := store.rows;
    NoResetReflexive(began);
    NothingSent(began, caseId, start);
    logs, marks := [began], [];
    while true
      invariant ValidLog(store.rows) && NoResetSince(began, store.rows)
      invariant idleTicks < MAX_FOLLOW_TICKS && KeepAlives(frames) == idleTicks / 20
      invariant SentUpTo(store.rows, caseId, start, Messages(frames), cursor)
      invariant !follow ==> idleTicks == 0
      invariant |logs| == idleTicks + 1 && Polled(began, appends, logs) && logs[idleTicks] == store.rows
      invariant |marks| == idleTicks
      invariant forall k: nat :: k < idleTicks ==> SentAt(frames, marks[k], logs[k], caseId, start, k)
      invariant forall k: nat :: k < idleTicks ==> !gone(k)
      decreases MAX_FOLLOW_TICKS - idleTicks
    {
      ghost var polled, before := store.rows, frames;
      var events := EventsForCase(store.rows, caseId, cursor);
      AllSent(polled, caseId, start, Messages(frames), cursor);
      frames, cursor := SendAll(events, frames, cursor);
      MarksStay(before, frames, marks, logs, caseId, start);
      MarkHere(frames, polled, caseId, start, idleTicks);
      marks := marks + [|frames|];
      if !follow {
        break;
      }
      if gone(idleTicks) {
        break;
      }
      idleTicks := idleTicks + 1;
      if idleTicks >= MAX_FOLLOW_TICKS {
        break;
      }
      if idleTicks % 20 == 0 {
        FrameStep(frames, KeepAlive);
        assert Messages(frames) + [] == Messages(frames);
        MarksStay(frames, frames + [KeepAlive], marks, logs, caseId, start);
        frames := frames + [KeepAlive];
      }
      Meanwhile(store, appends(idleTicks));
      SentStays(polled, store.rows, caseId, start, Messages(frames), cursor);
      NoResetTransitive(began, polled, store.rows);
      logs := logs + [store.rows];
    }
  }

  lemma {:induction false} MarksStay(frames: seq<Frame>, more: seq<Frame>, marks: seq<nat>, logs: seq<seq<Row>>,
        caseId: string, start: nat)
    requires frames <= more && |marks| <= |logs|
    requires forall k: nat :: k < |marks| ==> SentAt(frames, marks[k], logs[k], caseId, start, k)
    ensures forall k: nat :: k < |marks| ==> SentAt(more, marks[k], logs[k], caseId, start, k)
  {
    hide SentAt;
    forall k: nat | k < |marks| ensures SentAt(more, marks[k], logs[k], caseId, start, k) {
      MarkStays(frames, more, marks[k], logs[k], caseId, start, k);
    }
  }

  /** Yield every event, moving the cursor to each. */
  method SendAll(events: seq<Row>, frames: seq<Frame>, cursor: nat) returns (framesAfter: seq<Frame>, cursorAfter: nat)
    ensures frames <= framesAfter
    ensures Messages(framesAfter) == Messages(frames) + events && KeepAlives(framesAfter) == KeepAlives(frames)
    ensures cursorAfter == if events == [] then cursor else CursorOf(events)
  {
    framesAfter, cursorAfter := frames, cursor;
    for i := 0 to |events|
      invariant frames <= framesAfter
      invariant Messages(framesAfter) == Messages(frames) + events[..i] && KeepAlives(framesAfter) == KeepAlives(frames)
      invariant cursorAfter == if i == 0 then cursor else events[i - 1].sequence
    {
      FrameStep(framesAfter, Message(events[i]));
      cursorAfter := events[i].sequence;
      framesAfter := framesAfter + [Message(events[i])];
      assert events[..i + 1] == events[..i] + [events[i]];
    }
    assert events[..|events|] == events;
  }

  /** Sending what a poll found brings the connection up to date with that poll. */
  lemma {:induction false} AllSent(rows: seq<Row>, caseId: string, from: nat, sent: seq<Row>, cursor: nat)
    requires ValidLog(rows) && SentUpTo(rows, caseId, from, sent, cursor)
    ensures var events := EventsForCase(rows, caseId, cursor);
      && sent + events == EventsForCase(rows, caseId, from)
      && SentUpTo(rows, caseId, from, sent + events, if events == [] then cursor else CursorOf(events))
  {
    RestAfter(rows, caseId, from, sent, cursor);
    hide EventsForCase, ValidLog;
    var events := EventsForCase(rows, caseId, cursor);
    assert events == [] ==> sent + events == sent;
    assert events != [] ==> (sent + events)[|sent + events| - 1] == events[|events| - 1];
  }

  lemma {:induction false} NothingSent(rows: seq<Row>, caseId: string, from: nat)
    ensures Messages([]) == [] && KeepAlives([]) == 0 && SentUpTo(rows, caseId, from, [], from)
  {
  }

  /** Others append while the connection sleeps. */
  method Meanwhile(store: EventStore, requests: seq<Log.Request>)
    requires ValidLog(store.rows) && forall req :: req in requests ==> !req.body.SystemReset?
    modifies store
    ensures ValidLog(store.rows) && NoResetSince(old(store.rows), store.rows)
    ensures Batched(old(store.rows), requests, store.rows)
  {
    hide ValidLog, NoResetSince, AppendOutcome, AfterAppend, EndsAs;
    ghost var nows: seq<int> := [];
    NoResetReflexive(store.rows);
    for i := 0 to |requests|
      invariant ValidLog(store.rows) && NoResetSince(old(store.rows), store.rows)
      invariant |nows| == i && store.rows == AppendAll(old(store.rows), requests[..i], nows)
    {
      var now: int := *;
      ghost var before := store.rows;
      AppendKeepsValid(before, requests[i], now);
      OneAppend(before, requests[i], now);
      NoResetTransitive(old(store.rows), before, AfterAppend(before, requests[i], now));
      var outcome := store.Append(requests[i], now);
      assert requests[..i + 1][..i] == requests[..i] && (nows + [now])[..i] == nows;
      nows := nows + [now];
    }
    assert requests[..|requests|] == requests;
  }

  lemma {:induction false} OneAppend(rows: seq<Row>, req: Log.Request, now: int)
    requires !req.body.SystemReset?
    ensures NoResetSince(rows, AfterAppend(rows, req, now))
  {
    assert AfterAppend(rows, req, now) == rows || AfterAppend(rows, req, now) == rows + [RowFor(rows, req, now)];
  }
}
