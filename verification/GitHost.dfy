/** The shared repository as the adapter meets it: branches, pull requests, other people, and
    commands that may fail before or after they take effect. */
module GitHost {
  import opened Model
  import opened Commits

  datatype Pull = Pull(
    url: string,
    headRef: string,
    baseRef: string,
    head: Commit,
    crossRepository: bool,
    draft: bool,
    open: bool)

  datatype Server = Server(base: Commit, branches: map<string, Commit>, pulls: seq<Pull>)

  /** What other people do. They open no pull request on a case branch. */
  datatype Move =
    | AdvanceBase(to: Commit)
    | ForceBase(to: Commit)
    | SetBranch(name: string, head: Commit)
    | DropBranch(name: string)
    | ClosePull(i: nat)
    | EditPull(i: nat, head: Commit, draft: bool)

  function Moved(s: Server, move: Move): Server {
    match move
    case AdvanceBase(to) => if s.base in History(to) then s.(base := to) else s
    case ForceBase(to) => s.(base := to)
    case SetBranch(name, head) => s.(branches := s.branches[name := head])
    case DropBranch(name) => s.(branches := s.branches - {name})
    case ClosePull(i) => if i < |s.pulls| then s.(pulls := s.pulls[i := s.pulls[i].(open := false)]) else s
    case EditPull(i, head, draft) =>
      if i < |s.pulls| then s.(pulls := s.pulls[i := s.pulls[i].(head := head, draft := draft)]) else s
  }

  function AfterMoves(s: Server, moves: seq<Move>): Server {
    if moves == [] then s else Moved(AfterMoves(s, moves[..|moves| - 1]), moves[|moves| - 1])
  }

  /** How one command goes: what others do first, and whether the command works. */
  datatype Fate = Works | FailsBefore | FailsAfter
  datatype Turn = Turn(moves: seq<Move>, fate: Fate)

  /** A state the server was in, and whether a command of the adapter brought it about. */
  datatype Moment = Moment(server: Server, ours: bool)

  /** The open pull requests from a branch name, oldest first. */
  function OpenPulls(pulls: seq<Pull>, branch: string): (found: seq<Pull>)
    ensures forall p :: p in found ==> p in pulls && p.open && p.headRef == branch
    ensures forall p :: p in pulls && p.open && p.headRef == branch ==> p in found
  {
    if pulls == [] then []
    else
      var last := pulls[|pulls| - 1];
      OpenPulls(pulls[..|pulls| - 1], branch) + if last.open && last.headRef == branch then [last] else []
  }

  predicate NoOpenPull(s: Server, branch: string) {
    forall i :: 0 <= i < |s.pulls| && s.pulls[i].open ==> s.pulls[i].headRef != branch
  }

  predicate AtMostOneOpen(s: Server, branch: string) {
    forall i, j :: 0 <= i < j < |s.pulls| && s.pulls[i].open && s.pulls[j].open
                   ==> s.pulls[i].headRef != branch || s.pulls[j].headRef != branch
  }

  // ---- What may follow what ----

  /** Others close pull requests and change them, but open none. */
  ghost predicate OthersStep(s: Server, t: Server) {
    && |t.pulls| == |s.pulls|
    && forall i :: 0 <= i < |s.pulls| ==>
         t.pulls[i].headRef == s.pulls[i].headRef && (t.pulls[i].open ==> s.pulls[i].open)
  }

  /** A push adds a branch or moves one forward and loses no commit of an existing branch; a
      creation opens a draft from the head of a branch of this very repository that has none open. */
  ghost predicate OurStep(baseRef: string, s: Server, t: Server) {
    && t.base == s.base
    && (forall b :: b in s.branches ==> b in t.branches && s.branches[b] in History(t.branches[b]))
    && (t.pulls == s.pulls
        || (t.branches == s.branches && |t.pulls| == |s.pulls| + 1 && t.pulls[..|s.pulls|] == s.pulls
            && Opened(baseRef, s, t.pulls[|s.pulls|])))
  }

  /** A new draft from a branch of the server that has none open. */
  predicate Opened(baseRef: string, s: Server, pull: Pull) {
    && pull.headRef in s.branches && NoOpenPull(s, pull.headRef)
    && pull == Pull(pull.url, pull.headRef, baseRef, s.branches[pull.headRef], false, true, true)
  }

  /** Every branch is still there, with every commit it had. */
  ghost predicate KeepsCommits(s: Server, t: Server) {
    forall b :: b in s.branches ==> b in t.branches && History(s.branches[b]) <= History(t.branches[b])
  }

  ghost predicate LawfulAt(baseRef: string, past: seq<Moment>, k: int) {
    0 < k < |past| ==>
      if past[k].ours then OurStep(baseRef, past[k - 1].server, past[k].server)
      else OthersStep(past[k - 1].server, past[k].server)
  }

  /** The past grew lawfully. */
  ghost predicate Since(baseRef: string, before: seq<Moment>, after: seq<Moment>) {
    before <= after && forall k :: |before| <= k < |after| ==> LawfulAt(baseRef, after, k)
  }

  /** Every branch of `s` stands unmoved at every later moment. */
  ghost predicate BranchesStand(s: Server, before: seq<Moment>, after: seq<Moment>) {
    before <= after
    && forall k :: |before| <= k < |after| ==> s.branches.Items <= after[k].server.branches.Items
  }

  /** Every step of the later past leaves every branch there is where it stands. */
  ghost predicate HeadsStand(before: seq<Moment>, after: seq<Moment>) {
    forall k :: 0 < k && |before| <= k < |after| ==> HeadsKept(after[k - 1].server, after[k].server)
  }

  ghost predicate HeadsKept(s: Server, t: Server) {
    s.branches.Items <= t.branches.Items
  }

  /** So every branch stands at every later moment. */
  lemma {:induction false} HeadStandsAlways(before: seq<Moment>, after: seq<Moment>, k: nat)
    requires before != [] && before <= after && HeadsStand(before, after) && |before| - 1 <= k < |after|
    ensures before[|before| - 1].server.branches.Items <= after[k].server.branches.Items
    decreases k
  {
    if k >= |before| {
      HeadStandsAlways(before, after, k - 1);
      assert HeadsKept(after[k - 1].server, after[k].server);
    }
  }

  lemma {:induction false} SinceTransitive(baseRef: string, a: seq<Moment>, b: seq<Moment>, c: seq<Moment>)
    requires Since(baseRef, a, b) && Since(baseRef, b, c)
    ensures Since(baseRef, a, c)
  {
    forall k | |a| <= k < |c| ensures LawfulAt(baseRef, c, k) {
      if k < |b| {
        assert LawfulAt(baseRef, b, k);
      }
    }
  }

  /** At any time, at most one pull request is open on the branch. */
  lemma {:induction false} AtMostOneAlways(baseRef: string, before: seq<Moment>, after: seq<Moment>, branch: string,
        k: nat)
    requires before != [] && Since(baseRef, before, after) && AtMostOneOpen(before[|before| - 1].server, branch)
    requires |before| - 1 <= k < |after|
    ensures AtMostOneOpen(after[k].server, branch)
    decreases k
  {
    if k >= |before| {
      AtMostOneAlways(baseRef, before, after, branch, k - 1);
      assert LawfulAt(baseRef, after, k);
    }
  }

  lemma {:induction false} NothingOverwritten(baseRef: string, before: seq<Moment>, after: seq<Moment>, k: nat)
    requires before != [] && Since(baseRef, before, after) && |before| <= k < |after| && after[k].ours
    ensures KeepsCommits(after[k - 1].server, after[k].server)
  {
    assert LawfulAt(baseRef, after, k);
    forall b | b in after[k - 1].server.branches
      ensures b in after[k].server.branches
              && History(after[k - 1].server.branches[b]) <= History(after[k].server.branches[b])
    {
      HistoryIsTransitive(after[k].server.branches[b], after[k - 1].server.branches[b]);
    }
  }

  // ---- Kinds of moves ----

  predicate KeepsBranches(moves: seq<Move>) {
    forall i :: 0 <= i < |moves| ==> !moves[i].SetBranch? && !moves[i].DropBranch?
  }

  /** Only moves the base forward and closes pull requests. */
  predicate Friendly(moves: seq<Move>) {
    forall i :: 0 <= i < |moves| ==> moves[i].AdvanceBase? || moves[i].ClosePull?
  }

  /** What friendly moves may change. */
  ghost predicate Advanced(s: Server, t: Server) {
    && s.base in History(t.base) && t.branches == s.branches && |t.pulls| == |s.pulls|
    && forall i :: 0 <= i < |s.pulls| ==> t.pulls[i] == s.pulls[i] || t.pulls[i] == s.pulls[i].(open := false)
  }

  lemma {:induction false} MovesAreOthers(s: Server, moves: seq<Move>)
    ensures OthersStep(s, AfterMoves(s, moves))
    ensures KeepsBranches(moves) ==> AfterMoves(s, moves).branches == s.branches
    ensures Friendly(moves) ==> Advanced(s, AfterMoves(s, moves))
  {
    if moves != [] {
      var init := moves[..|moves| - 1];
      var middle := AfterMoves(s, init);
      MovesAreOthers(s, init);
      var move := moves[|moves| - 1];
      if Friendly(moves) {
        if move.AdvanceBase? && middle.base in History(move.to) {
          HistoryIsTransitive(move.to, middle.base);
        }
      }
    }
  }

  /** The server as it is and was, and the number of commands so far. */
  datatype Snap = Snap(server: Server, past: seq<Moment>, clock: nat)

  /** A command was issued and read the server; it changed nothing. */
  ghost predicate Turned(plan: nat -> Turn, s: Snap, t: Snap) {
    && t.clock == s.clock + 1
    && t.server == AfterMoves(s.server, plan(s.clock).moves)
    && t.past == s.past + [Moment(t.server, false)]
  }

  /** The repository the adapter shares with others, and the adapter's own clone. */
  class Remote {
    var server: Server
    /** Local branches and worktrees of the adapter's clone, by branch name. */
    var slots: set<string>
    /** How many commands were issued, and what each meets. */
    var clock: nat
    const plan: nat -> Turn
    const urls: nat -> string
    ghost var past: seq<Moment>

    constructor (server: Server, plan: nat -> Turn, urls: nat -> string)
      ensures Valid() && this.server == server && past == [Moment(server, false)] && slots == {} && clock == 0
      ensures this.plan == plan && this.urls == urls
    {
      this.server := server;
      this.slots := {};
      this.clock := 0;
      this.plan := plan;
      this.urls := urls;
      this.past := [Moment(server, false)];
    }

    ghost predicate Valid()
      reads this
    {
      past != [] && past[|past| - 1].server == server
    }

    ghost function State(): Snap
      reads this
    {
      Snap(server, past, clock)
    }

    method TakeTurn() returns (fate: Fate)
      requires Valid()
      modifies this
      ensures Valid() && Turned(plan, old(State()), State()) && slots == old(slots) && fate == plan(old(clock)).fate
    {
      var turn := plan(clock);
      var i := 0;
      var start := server;
      while i < |turn.moves|
        invariant i <= |turn.moves| && server == AfterMoves(start, turn.moves[..i])
        invariant slots == old(slots) && clock == old(clock) && past == old(past)
      {
        server := Moved(server, turn.moves[i]);
        assert turn.moves[..i + 1][..i] == turn.moves[..i];
        i := i + 1;
      }
      assert turn.moves[..i] == turn.moves;
      clock := clock + 1;
      past := past + [Moment(server, false)];
      fate := turn.fate;
    }

    method ListPulls(branch: string) returns (answer: Answer<seq<Pull>>)
      requires Valid()
      modifies this
      ensures Valid() && Turned(plan, old(State()), State()) && slots == old(slots)
      ensures answer ==
        if plan(old(clock)).fate != Works then Raise
        else Reply(var found := OpenPulls(server.pulls, branch); if |found| > 100 then found[..100] else found)
    {
      var fate := TakeTurn();
      if fate != Works {
        return Raise;
      }
      var found := OpenPulls(server.pulls, branch);
      return Reply(if |found| > 100 then found[..100] else found);
    }

    method HeadOf(branch: string) returns (answer: Answer<Option<Commit>>)
      requires Valid()
      modifies this
      ensures Valid() && Turned(plan, old(State()), State()) && slots == old(slots)
      ensures answer ==
        if plan(old(clock)).fate != Works then Raise
        else Reply(if branch in server.branches then Some(server.branches[branch]) else None)
    {
      var fate := TakeTurn();
      if fate != Works {
        return Raise;
      }
      return Reply(if branch in server.branches then Some(server.branches[branch]) else None);
    }

    method FetchBase() returns (answer: Answer<Commit>)
      requires Valid()
      modifies this
      ensures Valid() && Turned(plan, old(State()), State()) && slots == old(slots)
      ensures answer == if plan(old(clock)).fate != Works then Raise else Reply(server.base)
    {
      var fate := TakeTurn();
      if fate != Works {
        return Raise;
      }
      return Reply(server.base);
    }

    /** Push without force: a new branch, or a fast-forward of one that appeared meanwhile. */
    method Push(branch: string, commit: Commit) returns (ok: bool)
      requires Valid()
      modifies this
      ensures Valid() && clock == old(clock) + 1 && slots == old(slots)
      ensures var met := AfterMoves(old(server), plan(old(clock)).moves);
              var fate := plan(old(clock)).fate;
              var accepted := fate != FailsBefore
                  && (branch in met.branches ==> met.branches[branch] in History(commit));
              && server == (if accepted then met.(branches := met.branches[branch := commit]) else met)
              && past == old(past) + [Moment(met, false)] + (if accepted then [Moment(server, true)] else [])
              && ok == (accepted && fate == Works)
    {
      var fate := TakeTurn();
      if fate == FailsBefore || (branch in server.branches && server.branches[branch] !in History(commit)) {
        return false;
      }
      server := server.(branches := server.branches[branch := commit]);
      past := past + [Moment(server, true)];
      return fate == Works;
    }

    /** Open a draft from a branch. The server accepts a second one as readily as a first. */
    method CreatePull(headRef: string, baseRef: string) returns (answer: Answer<string>)
      requires Valid()
      modifies this
      ensures Valid() && clock == old(clock) + 1 && slots == old(slots)
      ensures var met := AfterMoves(old(server), plan(old(clock)).moves);
              var fate := plan(old(clock)).fate;
              var accepted := fate != FailsBefore && headRef in met.branches;
              && server == (if accepted then WithDraft(met, urls(|met.pulls|), headRef, baseRef) else met)
              && past == old(past) + [Moment(met, false)] + (if accepted then [Moment(server, true)] else [])
              && answer == if accepted && fate == Works then Reply(urls(|met.pulls|)) else Raise
    {
      var fate := TakeTurn();
      if fate == FailsBefore || headRef !in server.branches {
        return Raise;
      }
      var url := urls(|server.pulls|);
      server := WithDraft(server, url, headRef, baseRef);
      past := past + [Moment(server, true)];
      return if fate == Works then Reply(url) else Raise;
    }

    /** `git worktree add -b`: it may take the slot and still be reported as failed. */
    method AddWorktree(branch: string) returns (ok: bool)
      requires Valid()
      modifies this
      ensures Valid() && Turned(plan, old(State()), State()) && slots <= old(slots) + {branch} && old(slots) <= slots
      ensures ok ==> plan(old(clock)).fate == Works && branch !in old(slots)
      ensures plan(old(clock)).fate == Works && branch !in old(slots) ==> ok
    {
      var fate := TakeTurn();
      if fate == FailsBefore || branch in slots {
        return false;
      }
      slots := slots + {branch};
      return fate == Works;
    }

    /** Best-effort removal of the slot. */
    method RemoveWorktree(branch: string)
      requires Valid()
      modifies this
      ensures Valid() && Turned(plan, old(State()), State())
      ensures slots == if plan(old(clock)).fate != FailsBefore then old(slots) - {branch} else old(slots)
    {
      var fate := TakeTurn();
      if fate != FailsBefore {
        slots := slots - {branch};
      }
    }
  }

  function WithDraft(s: Server, url: string, headRef: string, baseRef: string): Server
    requires headRef in s.branches
  {
    s.(pulls := s.pulls + [Pull(url, headRef, baseRef, s.branches[headRef], false, true, true)])
  }
}
