/** Draft pull requests, created at most once over commands that may fail half-way. */
module DraftPr {
  import opened Model
  import opened Commits
  import opened GitHost

  datatype Config = Config(
    enabled: bool,
    repositoryAllowed: bool,
    pathIsSafe: bool,
    baseBranch: string,
    path: string,
    slug: string -> string,
    sha256: string -> string,
    oid: Commit -> string)

  datatype Job = Job(caseId: string, branch: string, patch: Patch)

  predicate Owned(config: Config, job: Job, commit: Commit, base: Commit) {
    CommitIsOwned(config.oid, commit, job.caseId, job.patch, config.path, base) == Reply(true)
  }

  /** The checks on a listed pull request, short of the ownership of its head. */
  predicate Expected(config: Config, job: Job, pull: Pull, head: Commit) {
    && pull.headRef == job.branch && pull.baseRef == config.baseBranch
    && !pull.crossRepository && pull.draft && pull.head == head
  }

  /** In one reading the pull request is the only open one of the branch, a draft of this very
      repository; in another its head is the branch's head, which the case owns. */
  ghost predicate Confirms(config: Config, job: Job, base: Commit, listed: Server, read: Server, url: string) {
    && job.branch in read.branches
    && var head := read.branches[job.branch];
       && Owned(config, job, head, base)
       && |OpenPulls(listed.pulls, job.branch)| == 1
       && var pull := OpenPulls(listed.pulls, job.branch)[0];
          pull.url == url && Expected(config, job, pull, head)
  }

  /** The branch is this case's or not there; what is open on it is its draft. */
  ghost predicate Tidy(config: Config, job: Job, s: Server) {
    if job.branch in s.branches then
      && Owned(config, job, s.branches[job.branch], s.base)
      && AtMostOneOpen(s, job.branch)
      && forall i :: 0 <= i < |s.pulls| && s.pulls[i].open && s.pulls[i].headRef == job.branch ==>
           Expected(config, job, s.pulls[i], s.branches[job.branch])
    else NoOpenPull(s, job.branch)
  }

  /** The case's branch is there, and tidy. */
  ghost predicate Pushed(config: Config, job: Job, s: Server) {
    job.branch in s.branches && Tidy(config, job, s)
  }

  // ---- What lies ahead of a call ----

  ghost predicate HandsOff(plan: nat -> Turn, from: nat) {
    forall k :: k >= from ==> KeepsBranches(plan(k).moves)
  }

  ghost predicate FriendlyFrom(plan: nat -> Turn, from: nat) {
    forall k :: k >= from ==> Friendly(plan(k).moves)
  }

  ghost predicate CalmFrom(plan: nat -> Turn, from: nat) {
    forall k :: k >= from ==> plan(k).moves == []
  }

  /** These commands work. */
  ghost predicate AllWork(plan: nat -> Turn, from: nat, n: nat) {
    forall k :: from <= k < from + n ==> plan(k).fate == Works
  }

  /** The creation takes effect, whatever is reported of it, and the three readings after it work. */
  ghost predicate Opens(plan: nat -> Turn, from: nat) {
    plan(from).fate != FailsBefore && AllWork(plan, from + 1, 3)
  }

  /** All that has to work for a call to succeed. With a draft open: access, base, listing, head, and
      the head's commit. With the branch pushed: the same with the head read twice and its commit
      fetched, then the opening. Otherwise, after the first five, a worktree, the commit and the push
      as well, then the opening. */
  ghost predicate Goes(config: Config, job: Job, plan: nat -> Turn, s: Server, from: nat) {
    if OpenPulls(s.pulls, job.branch) != [] then AllWork(plan, from, 5)
    else if job.branch in s.branches then AllWork(plan, from, 6) && Opens(plan, from + 6)
    else AllWork(plan, from, 8) && Opens(plan, from + 8)
  }

  lemma {:induction false} FewWork(plan: nat -> Turn, from: nat)
    ensures AllWork(plan, from, 2) <==> plan(from).fate == Works && plan(from + 1).fate == Works
    ensures AllWork(plan, from, 3) <==> AllWork(plan, from, 2) && plan(from + 2).fate == Works
  {
  }

  lemma {:induction false} FirstWorks(plan: nat -> Turn, from: nat)
    ensures AllWork(plan, from, 3) <==> plan(from).fate == Works && AllWork(plan, from + 1, 2)
  {
  }

  /** The five commands that read: two, and three more or two and one. */
  lemma {:induction false} FiveWork(plan: nat -> Turn, from: nat)
    ensures AllWork(plan, from, 5) <==>
            plan(from).fate == Works && plan(from + 1).fate == Works && AllWork(plan, from + 2, 3)
    ensures AllWork(plan, from + 2, 3) <==> AllWork(plan, from + 2, 2) && plan(from + 4).fate == Works
  {
  }

  lemma {:induction false} MoreWork(plan: nat -> Turn, from: nat)
    ensures AllWork(plan, from, 6) <==> AllWork(plan, from, 5) && plan(from + 5).fate == Works
    ensures AllWork(plan, from, 8) <==> AllWork(plan, from, 5) && AllWork(plan, from + 5, 3)
  {
  }

  /** What one turn of the plan does, by what is known of the plan. */
  lemma {:induction false} TurnFacts(plan: nat -> Turn, from: nat, k: nat, s: Server)
    requires k >= from
    ensures var t := AfterMoves(s, plan(k).moves);
            && OthersStep(s, t)
            && (HandsOff(plan, from) ==> t.branches == s.branches)
            && (FriendlyFrom(plan, from) ==> Advanced(s, t))
            && (CalmFrom(plan, from) ==> t == s)
  {
    MovesAreOthers(s, plan(k).moves);
  }

  lemma {:induction false} NoneStaysNone(s: Server, t: Server, branch: string)
    requires OthersStep(s, t) && NoOpenPull(s, branch)
    ensures NoOpenPull(t, branch)
  {
  }

  lemma {:induction false} AdvancedTransitive(a: Server, b: Server, c: Server)
    requires Advanced(a, b) && Advanced(b, c)
    ensures Advanced(a, c)
  {
    HistoryIsTransitive(c.base, b.base);
  }

  /** Friendly moves leave a tidy branch tidy. */
  lemma {:induction false} TidyStays(config: Config, job: Job, s: Server, t: Server)
    requires Tidy(config, job, s) && Advanced(s, t)
    ensures Tidy(config, job, t)
  {
    if job.branch in s.branches {
      OwnershipSurvivesFastForward(config.oid, s.branches[job.branch], job.caseId, job.patch, config.path, s.base,
          t.base);
    }
    hide CommitIsOwned, History;
  }

  lemma {:induction false} OpenPullsOf(pulls: seq<Pull>, branch: string)
    ensures (forall i :: 0 <= i < |pulls| && pulls[i].open ==> pulls[i].headRef != branch)
        <==> OpenPulls(pulls, branch) == []
    ensures (forall i, j :: 0 <= i < j < |pulls| && pulls[i].open && pulls[j].open
                            ==> pulls[i].headRef != branch || pulls[j].headRef != branch)
            ==> |OpenPulls(pulls, branch)| <= 1
  {
    if pulls != [] {
      var init := pulls[..|pulls| - 1];
      OpenPullsOf(init, branch);
      if OpenPulls(pulls, branch) == [] {
        forall i | 0 <= i < |pulls| && pulls[i].open ensures pulls[i].headRef != branch {
          assert i < |init| ==> init[i] == pulls[i];
        }
      }
      if |OpenPulls(pulls, branch)| > 1 {
        assert OpenPulls(init, branch) != [];
        assert OpenPulls(init, branch)[0] in init;
      }
    }
  }

  /** What a listing of a tidy branch shows. */
  lemma {:induction false} TidyListing(config: Config, job: Job, s: Server)
    requires Tidy(config, job, s)
    ensures var listed := OpenPulls(s.pulls, job.branch);
            && |listed| <= 1
            && (job.branch !in s.branches ==> listed == [])
            && (listed != [] ==> Expected(config, job, listed[0], s.branches[job.branch]))
  {
    OpenPullsOf(s.pulls, job.branch);
    hide Expected, Owned, OpenPulls;
    var listed := OpenPulls(s.pulls, job.branch);
    if listed != [] {
      assert listed[0] in listed;
      var i :| 0 <= i < |s.pulls| && s.pulls[i] == listed[0];
    }
  }

  lemma {:induction false} HistoryHasSelf(c: Commit)
    ensures c in History(c)
  {
  }

  // ---- What the parts of the protocol keep ----

  ghost predicate Settled(s: Snap) {
    s.past != [] && s.past[|s.past| - 1].server == s.server
  }

  /** Every part: the past grows lawfully; if others let branches be, so does every step; and if
      others only move the base forward and close drafts, their every step does no more. */
  ghost predicate Acted(config: Config, plan: nat -> Turn, s: Snap, t: Snap) {
    && Settled(t)
    && s.clock <= t.clock
    && Since(config.baseBranch, s.past, t.past)
    && (HandsOff(plan, s.clock) ==>
        HeadsStand(s.past, t.past) && s.server.branches.Items <= t.server.branches.Items)
    && (FriendlyFrom(plan, s.clock) ==>
        s.server.base in History(t.server.base) && OnlyAdvanced(s.past, t.past))
  }

  /** What others did in the later past moved the base forward and closed drafts, no more. */
  ghost predicate OnlyAdvanced(before: seq<Moment>, after: seq<Moment>) {
    forall k :: 0 < k && |before| <= k < |after| && !after[k].ours ==> Advanced(after[k - 1].server, after[k].server)
  }

  /** A part that only reads. */
  ghost predicate Watched(config: Config, plan: nat -> Turn, s: Snap, t: Snap) {
    && Acted(config, plan, s, t)
    && OthersStep(s.server, t.server)
    && (HandsOff(plan, s.clock) ==> t.server.branches == s.server.branches)
    && (FriendlyFrom(plan, s.clock) ==> Advanced(s.server, t.server))
    && (CalmFrom(plan, s.clock) ==> t.server == s.server)
  }

  lemma {:induction false} HeadsStandTransitive(a: seq<Moment>, b: seq<Moment>, c: seq<Moment>)
    requires a <= b <= c && HeadsStand(a, b) && HeadsStand(b, c)
    ensures HeadsStand(a, c)
  {
    hide HeadsKept;
    forall k | 0 < k && |a| <= k < |c| ensures HeadsKept(c[k - 1].server, c[k].server) {
      assert k < |b| ==> c[k] == b[k] && c[k - 1] == b[k - 1];
    }
  }

  lemma {:induction false} OnlyAdvancedTransitive(a: seq<Moment>, b: seq<Moment>, c: seq<Moment>)
    requires a <= b <= c && OnlyAdvanced(a, b) && OnlyAdvanced(b, c)
    ensures OnlyAdvanced(a, c)
  {
    hide Advanced;
    forall k | 0 < k && |a| <= k < |c| && !c[k].ours ensures Advanced(c[k - 1].server, c[k].server) {
      assert k < |b| ==> c[k] == b[k] && c[k - 1] == b[k - 1];
    }
  }

  lemma {:induction false} ActedTransitive(config: Config, plan: nat -> Turn, a: Snap, b: Snap, c: Snap)
    requires Acted(config, plan, a, b) && Acted(config, plan, b, c)
    ensures Acted(config, plan, a, c)
  {
    SinceTransitive(config.baseBranch, a.past, b.past, c.past);
    if FriendlyFrom(plan, a.clock) {
      HistoryIsTransitive(c.server.base, b.server.base);
      OnlyAdvancedTransitive(a.past, b.past, c.past);
    }
    if HandsOff(plan, a.clock) {
      HeadsStandTransitive(a.past, b.past, c.past);
    }
  }

  lemma {:induction false} WatchedTransitive(config: Config, plan: nat -> Turn, a: Snap, b: Snap, c: Snap)
    requires Watched(config, plan, a, b) && Watched(config, plan, b, c)
    ensures Watched(config, plan, a, c)
  {
    ActedTransitive(config, plan, a, b, c);
    if FriendlyFrom(plan, a.clock) {
      AdvancedTransitive(a.server, b.server, c.server);
    }
  }

  lemma {:induction false} TurnIsWatched(config: Config, plan: nat -> Turn, s: Snap, t: Snap)
    requires Settled(s) && Turned(plan, s, t)
    ensures Watched(config, plan, s, t)
  {
    TurnFacts(plan, s.clock, s.clock, s.server);
    assert t.past[|s.past| - 1] == s.past[|s.past| - 1];
    assert LawfulAt(config.baseBranch, t.past, |s.past|);
    HistoryHasSelf(t.server.base);
  }

  lemma {:induction false} CalmIsFriendly(plan: nat -> Turn, from: nat)
    requires CalmFrom(plan, from)
    ensures FriendlyFrom(plan, from) && HandsOff(plan, from)
  {
  }

  // ---- Reading what is open ----

  /** A single listed pull request, as this case would have made it. */
  ghost predicate SoleDraft(config: Config, job: Job, candidates: seq<Pull>, head: Commit, base: Commit, url: string) {
    && |candidates| == 1 && candidates[0].url == url
    && Expected(config, job, candidates[0], head) && Owned(config, job, head, base)
  }

  lemma {:induction false} WatchedReflexive(config: Config, plan: nat -> Turn, s: Snap)
    requires Settled(s)
    ensures Watched(config, plan, s, s)
  {
    HistoryHasSelf(s.server.base);
  }

  lemma {:induction false} LaterIsCalm(config: Config, plan: nat -> Turn, s: Snap, t: Snap)
    requires Watched(config, plan, s, t)
    ensures CalmFrom(plan, s.clock) ==> CalmFrom(plan, t.clock) && t.server == s.server
  {
  }

  /** If nobody else acts, both readings show the branch as it stands: tidy. */
  lemma {:induction false} CalmReads(config: Config, job: Job, plan: nat -> Turn, start: Snap, first: Snap,
        second: Snap)
    requires Watched(config, plan, start, first) && Watched(config, plan, first, second)
    requires first.clock == start.clock + 1
    ensures CalmFrom(plan, start.clock) ==> first.server == start.server && second.server == start.server
    ensures Tidy(config, job, start.server) ==>
      var found := OpenPulls(start.server.pulls, job.branch);
      && |found| <= 1
      && (job.branch !in start.server.branches ==> found == [])
      && (found != [] ==>
          && Expected(config, job, found[0], start.server.branches[job.branch])
          && Owned(config, job, start.server.branches[job.branch], start.server.base))
  {
    if Tidy(config, job, start.server) {
      TidyListing(config, job, start.server);
    }
  }

  lemma {:induction false} NoneListed(config: Config, plan: nat -> Turn, branch: string, first: Snap, now: Snap)
    requires OpenPulls(first.server.pulls, branch) == [] && Watched(config, plan, first, now)
    ensures NoOpenPull(now.server, branch)
  {
    OpenPullsOf(first.server.pulls, branch);
    NoneStaysNone(first.server, now.server, branch);
  }

  lemma {:induction false} OneListed(config: Config, job: Job, base: Commit, plan: nat -> Turn, start: Snap,
        first: Snap, second: Snap, now: Snap,
                  candidates: seq<Pull>, url: string)
    requires Watched(config, plan, start, first) && Watched(config, plan, first, second)
        && Watched(config, plan, start, now) && second.past <= now.past
    requires first.past == start.past + [Moment(first.server, false)]
    requires second.past == first.past + [Moment(second.server, false)]
    requires candidates
        == (var found := OpenPulls(first.server.pulls, job.branch); if |found| > 100 then found[..100] else found)
    requires job.branch in second.server.branches
    requires SoleDraft(config, job, candidates, second.server.branches[job.branch], base, url)
    ensures now.past[|start.past|].server == first.server && now.past[|start.past| + 1].server == second.server
    ensures Confirms(config, job, base, first.server, second.server, url)
    ensures CalmFrom(plan, start.clock) ==> Confirms(config, job, base, now.server, now.server, url)
  {
    hide Owned, OpenPulls, Expected;
  }

  // ---- Opening the draft ----

  /** Moments of this part in which the answer was confirmed; if nobody else acted, it still is. */
  ghost predicate Confirmed(config: Config, job: Job, base: Commit, plan: nat -> Turn, start: Snap, now: Snap,
                            url: string, listed: nat, read: nat)
  {
    && |start.past| <= listed < read < |now.past|
    && Confirms(config, job, base, now.past[listed].server, now.past[read].server, url)
    && (CalmFrom(plan, start.clock) ==> Confirms(config, job, base, now.server, now.server, url))
  }

  /** An attempt to open the draft: where it leads, whether or not it took effect. */
  lemma {:induction false} CreationActs(config: Config, job: Job, plan: nat -> Turn, s: Snap, t: Snap, url: string)
    requires Settled(s) && Settled(t) && NoOpenPull(s.server, job.branch)
    requires t.clock == s.clock + 1
    requires var met := AfterMoves(s.server, plan(s.clock).moves);
             var accepted := plan(s.clock).fate != FailsBefore && job.branch in met.branches;
             && t.server == (if accepted then WithDraft(met, url, job.branch, config.baseBranch) else met)
             && t.past == s.past + [Moment(met, false)] + (if accepted then [Moment(t.server, true)] else [])
    ensures Acted(config, plan, s, t)
    ensures FriendlyFrom(plan, s.clock) && Pushed(config, job, s.server) ==> Tidy(config, job, t.server)
    ensures CalmFrom(plan, s.clock) && Pushed(config, job, s.server) ==>
            && t.server.base == s.server.base
            && OpenPulls(t.server.pulls, job.branch) ==
               if plan(s.clock).fate == FailsBefore then []
               else [Pull(url, job.branch, config.baseBranch, s.server.branches[job.branch], false, true, true)]
  {
    var met := AfterMoves(s.server, plan(s.clock).moves);
    var middle := Snap(met, s.past + [Moment(met, false)], s.clock + 1);
    TurnIsWatched(config, plan, s, middle);
    NoneStaysNone(s.server, met, job.branch);
    hide AfterMoves, Owned;
    if t.server != met {
      HistoryHasSelf(met.base);
      DraftActs(config, plan, middle, t, job.branch, url);
      ActedTransitive(config, plan, s, middle, t);
    }
    if CalmFrom(plan, s.clock) {
      CalmIsFriendly(plan, s.clock);
      OpenPullsOf(s.server.pulls, job.branch);
    }
    if FriendlyFrom(plan, s.clock) && Pushed(config, job, s.server) {
      TidyStays(config, job, s.server, met);
      DraftIsTidy(config, job, met, url);
    }
  }

  lemma {:induction false} DraftIsTidy(config: Config, job: Job, s: Server, url: string)
    requires Pushed(config, job, s) && NoOpenPull(s, job.branch)
    ensures var t := WithDraft(s, url, job.branch, config.baseBranch);
            && Tidy(config, job, t)
            && OpenPulls(t.pulls, job.branch)
                == [Pull(url, job.branch, config.baseBranch, s.branches[job.branch], false, true, true)]
  {
    var t := WithDraft(s, url, job.branch, config.baseBranch);
    assert t.pulls[..|t.pulls| - 1] == s.pulls;
    OpenPullsOf(s.pulls, job.branch);
    hide Owned;
  }

  lemma {:induction false} DraftActs(config: Config, plan: nat -> Turn, s: Snap, t: Snap, branch: string, url: string)
    requires Settled(s) && t.clock == s.clock && branch in s.server.branches && NoOpenPull(s.server, branch)
    requires t.server == WithDraft(s.server, url, branch, config.baseBranch)
        && t.past == s.past + [Moment(t.server, true)]
    ensures Acted(config, plan, s, t)
  {
    forall c | c in s.server.branches ensures s.server.branches[c] in History(s.server.branches[c]) {
      HistoryHasSelf(s.server.branches[c]);
    }
    HistoryHasSelf(s.server.base);
    assert t.server.pulls[..|s.server.pulls|] == s.server.pulls;
    assert t.past[|s.past| - 1] == s.past[|s.past| - 1];
    hide History;
    assert LawfulAt(config.baseBranch, t.past, |s.past|);
  }

  lemma {:induction false} ThenWatched(config: Config, job: Job, base: Commit, plan: nat -> Turn, s: Snap, t: Snap,
        now: Snap)
    requires Acted(config, plan, s, t) && Watched(config, plan, t, now)
    ensures Acted(config, plan, s, now) && |s.past| <= |t.past|
    ensures FriendlyFrom(plan, s.clock) && Tidy(config, job, t.server) ==> Tidy(config, job, now.server)
    ensures CalmFrom(plan, s.clock) ==> CalmFrom(plan, t.clock) && FriendlyFrom(plan, s.clock)
  {
    ActedTransitive(config, plan, s, t, now);
    if CalmFrom(plan, s.clock) {
      CalmIsFriendly(plan, s.clock);
    }
    if FriendlyFrom(plan, s.clock) && Tidy(config, job, t.server) {
      TidyStays(config, job, t.server, now.server);
    }
  }

  // ---- Publishing a new branch ----

  /** The commit would not be empty. */
  predicate Changes(config: Config, job: Job, base: Commit) {
    config.path in base.tree ==> base.tree[config.path] != job.patch.content
  }

  /** Commits for this job read back as they were written. */
  ghost predicate ReadsBack(config: Config, job: Job) {
    && Word(job.caseId) && '\r' !in job.patch.content && Word(job.patch.sha256)
    && forall c :: Word(config.oid(c))
  }

  /** The branch is not there yet, nothing is open on it, and the base is base history. */
  ghost predicate Publishable(config: Config, job: Job, base: Commit, s: Server) {
    ReadsBack(config, job) && job.branch !in s.branches && NoOpenPull(s, job.branch) && base in History(s.base)
  }

  lemma {:induction false} WatchedKeeps(config: Config, job: Job, base: Commit, plan: nat -> Turn, s: Snap, t: Snap)
    requires Watched(config, plan, s, t)
    ensures Acted(config, plan, s, t)
    ensures NoOpenPull(s.server, job.branch) ==> NoOpenPull(t.server, job.branch)
    ensures FriendlyFrom(plan, s.clock) && Publishable(config, job, base, s.server) ==>
            Publishable(config, job, base, t.server) && Tidy(config, job, t.server)
    ensures FriendlyFrom(plan, s.clock) && Tidy(config, job, s.server) ==> Tidy(config, job, t.server)
    ensures CalmFrom(plan, s.clock) ==> t.server == s.server && FriendlyFrom(plan, s.clock)
  {
    if NoOpenPull(s.server, job.branch) {
      NoneStaysNone(s.server, t.server, job.branch);
    }
    if FriendlyFrom(plan, s.clock) && Tidy(config, job, s.server) {
      TidyStays(config, job, s.server, t.server);
    }
    if FriendlyFrom(plan, s.clock) && Publishable(config, job, base, s.server) {
      HistoryIsTransitive(t.server.base, s.server.base);
    }
    if CalmFrom(plan, s.clock) {
      CalmIsFriendly(plan, s.clock);
    }
  }

  /** One more command that only reads, after a part that kept the branch publishable. */
  lemma {:induction false} TurnKeeps(config: Config, job: Job, base: Commit, plan: nat -> Turn, start: Snap,
        s: Snap, t: Snap)
    requires Settled(start) && Watched(config, plan, start, s) && Turned(plan, s, t)
    ensures Watched(config, plan, start, t) && Acted(config, plan, start, t)
    ensures NoOpenPull(start.server, job.branch) ==> NoOpenPull(t.server, job.branch)
    ensures FriendlyFrom(plan, start.clock) && Publishable(config, job, base, start.server) ==>
            Publishable(config, job, base, t.server) && Tidy(config, job, t.server)
    ensures CalmFrom(plan, start.clock) ==> t.server == start.server && FriendlyFrom(plan, start.clock)
  {
    hide Tidy, Publishable, AfterMoves, NoOpenPull;
    TurnIsWatched(config, plan, s, t);
    WatchedTransitive(config, plan, start, s, t);
    WatchedKeeps(config, job, base, plan, start, t);
  }

  /** The push: a new branch with an owned head, or nothing, or - when someone else put the branch
      there meanwhile - at most a fast-forward of it. */
  lemma {:induction false} PushActs(config: Config, job: Job, base: Commit, plan: nat -> Turn, start: Snap, s: Snap,
        t: Snap, commit: Commit, stamp: nat)
    requires Settled(start) && Watched(config, plan, start, s) && Settled(t) && t.clock == s.clock + 1
    requires NoOpenPull(start.server, job.branch) && job.branch !in start.server.branches && Changes(config, job, base)
    requires commit == Created(config.oid, job.caseId, job.patch, config.path, base, stamp)
    requires var met := AfterMoves(s.server, plan(s.clock).moves);
             var fate := plan(s.clock).fate;
             var accepted := fate != FailsBefore
                 && (job.branch in met.branches ==> met.branches[job.branch] in History(commit));
             && t.server == (if accepted then met.(branches := met.branches[job.branch := commit]) else met)
             && t.past == s.past + [Moment(met, false)] + (if accepted then [Moment(t.server, true)] else [])
    ensures Acted(config, plan, start, t)
    ensures NoOpenPull(t.server, job.branch)
    ensures FriendlyFrom(plan, start.clock) && Publishable(config, job, base, start.server) ==>
      && Tidy(config, job, t.server)
      && (plan(s.clock).fate != FailsBefore ==> Pushed(config, job, t.server))
    ensures CalmFrom(plan, start.clock) && Publishable(config, job, base, start.server) ==>
      && t.server.base == start.server.base && job.branch !in AfterMoves(s.server, plan(s.clock).moves).branches
      && (plan(s.clock).fate != FailsBefore ==> Pushed(config, job, t.server))
  {
    var met := AfterMoves(s.server, plan(s.clock).moves);
    var middle := Snap(met, s.past + [Moment(met, false)], s.clock + 1);
    TurnKeeps(config, job, base, plan, start, s, middle);
    hide AfterMoves, Owned, Created, Watched, Turned;
    if FriendlyFrom(plan, start.clock) && Publishable(config, job, base, start.server) {
      CommitIsTidy(config, job, base, met, stamp);
    }
    if |t.past| == |s.past| + 2 {
      if HandsOff(plan, start.clock) {
        WatchedBranches(config, plan, start, middle);
      }
      HeadActs(config, plan, start, middle, t, job.branch, commit);
    } else {
      assert t == middle;
    }
  }

  lemma {:induction false} WatchedBranches(config: Config, plan: nat -> Turn, s: Snap, t: Snap)
    requires Watched(config, plan, s, t) && HandsOff(plan, s.clock)
    ensures t.server.branches == s.server.branches
  {
  }

  /** The commit made on a base of base history is this case's own. */
  lemma {:induction false} CommitIsTidy(config: Config, job: Job, base: Commit, s: Server, stamp: nat)
    requires Publishable(config, job, base, s) && Changes(config, job, base)
    ensures var commit := Created(config.oid, job.caseId, job.patch, config.path, base, stamp);
            Pushed(config, job, s.(branches := s.branches[job.branch := commit]))
  {
    CreatedIsOwned(config.oid, job.caseId, job.patch, config.path, base, stamp, s.base);
    hide CommitIsOwned, Created, History;
  }

  lemma {:induction false} HeadActs(config: Config, plan: nat -> Turn, start: Snap, s: Snap, t: Snap, branch: string,
          commit: Commit)
    requires Acted(config, plan, start, s) && t.clock == s.clock
    requires t.server == s.server.(branches := s.server.branches[branch := commit])
        && t.past == s.past + [Moment(t.server, true)]
    requires branch in s.server.branches ==> s.server.branches[branch] in History(commit)
    requires branch !in start.server.branches
    requires HandsOff(plan, start.clock) ==> s.server.branches == start.server.branches
    ensures Acted(config, plan, start, t)
  {
    forall c | c in s.server.branches ensures s.server.branches[c] in History(t.server.branches[c]) {
      HistoryHasSelf(s.server.branches[c]);
    }
    HistoryHasSelf(commit);
    assert t.past[|s.past| - 1] == s.past[|s.past| - 1];
    hide History;
    assert LawfulAt(config.baseBranch, t.past, |s.past|);
    assert Since(config.baseBranch, s.past, t.past);
    SinceTransitive(config.baseBranch, start.past, s.past, t.past);
    if HandsOff(plan, start.clock) {
      assert start.server.branches.Items <= t.server.branches.Items;
    }
  }

  lemma {:induction false} ThenActed(config: Config, job: Job, base: Commit, plan: nat -> Turn, start: Snap,
        s: Snap, t: Snap,
                  answer: Answer<string>, listed: nat, read: nat)
    requires Acted(config, plan, start, s) && Acted(config, plan, s, t)
    requires answer.Reply? ==> Confirmed(config, job, base, plan, s, t, answer.value, listed, read)
    ensures Acted(config, plan, start, t)
    ensures answer.Reply? ==> Confirmed(config, job, base, plan, start, t, answer.value, listed, read)
    ensures FriendlyFrom(plan, start.clock) ==> FriendlyFrom(plan, s.clock)
    ensures CalmFrom(plan, start.clock) ==> CalmFrom(plan, s.clock) && FriendlyFrom(plan, start.clock)
  {
    ActedTransitive(config, plan, start, s, t);
    hide Confirms;
    if CalmFrom(plan, start.clock) {
      CalmIsFriendly(plan, start.clock);
    }
  }

  /** The clean-up changes nothing that anyone sees. */
  lemma {:induction false} CleanupKeeps(config: Config, job: Job, base: Commit, plan: nat -> Turn, start: Snap,
        s: Snap, t: Snap,
                     answer: Answer<string>, listed: nat, read: nat)
    requires Acted(config, plan, start, s) && Settled(s) && Turned(plan, s, t)
    requires answer.Reply? ==> Confirmed(config, job, base, plan, start, s, answer.value, listed, read)
    ensures Acted(config, plan, start, t)
    ensures FriendlyFrom(plan, start.clock) && Tidy(config, job, s.server) ==> Tidy(config, job, t.server)
    ensures answer.Reply? ==> Confirmed(config, job, base, plan, start, t, answer.value, listed, read)
  {
    TurnIsWatched(config, plan, s, t);
    WatchedKeeps(config, job, base, plan, s, t);
    ActedTransitive(config, plan, start, s, t);
    hide Confirms, Tidy, AfterMoves;
  }

  // ---- One attempt ----

  /** What the job itself must be for an attempt to get anywhere. */
  predicate WellFormed(config: Config, job: Job) {
    config.pathIsSafe && config.repositoryAllowed && config.slug(job.caseId) != ""
    && config.sha256(job.patch.content) == job.patch.sha256
  }

  /** The branch was pushed already; or it can be: its slot is free and the patch changes the base. */
  ghost predicate CanFinish(config: Config, job: Job, s: Server, slots: set<string>) {
    && config.pathIsSafe && config.repositoryAllowed && config.slug(job.caseId) != ""
    && config.sha256(job.patch.content) == job.patch.sha256
    && Tidy(config, job, s)
    && (job.branch !in s.branches ==> ReadsBack(config, job) && job.branch !in slots && Changes(config, job, s.base))
  }

  ghost predicate BaseSeen(base: Commit, start: Snap, now: Snap) {
    exists k :: |start.past| <= k < |now.past| && now.past[k].server.base == base
  }

  function JobOf(config: Config, caseId: string, patch: Patch): Job {
    Job(caseId, "datarescue/" + config.slug(caseId), patch)
  }

  /** The slots of other branches are as they were; the branch's own is not taken where it was free,
      unless the clean-up, the last command, failed before it took effect. */
  ghost predicate FreesSlot(plan: nat -> Turn, branch: string, before: set<string>, after: set<string>, clock: nat) {
    && before - {branch} == after - {branch}
    && (branch in after ==> branch in before || (clock > 0 && plan(clock - 1).fate == FailsBefore))
  }

  /** What an attempt finds before it writes anything. */
  datatype Finding = Failed | Existing(url: string) | Branch(head: Commit) | Missing

  /** One more reading command. */
  lemma {:induction false} TurnReads(config: Config, plan: nat -> Turn, start: Snap, s: Snap, t: Snap)
    requires Settled(start) && Watched(config, plan, start, s) && Turned(plan, s, t)
    ensures Watched(config, plan, start, t)
    ensures CalmFrom(plan, start.clock) ==> t.server == start.server
    ensures FriendlyFrom(plan, start.clock) ==> start.server.base in History(t.server.base)
  {
    TurnIsWatched(config, plan, s, t);
    WatchedTransitive(config, plan, start, s, t);
    hide AfterMoves;
  }

  /** The look for an open draft, on top of the base fetched before it. */
  lemma {:induction false} FoundReads(config: Config, job: Job, base: Commit, plan: nat -> Turn, start: Snap,
        s: Snap, t: Snap, now: Snap,
                   existing: Answer<Option<string>>, listed: nat, read: nat)
    requires Watched(config, plan, start, s) && Watched(config, plan, start, t) && Turned(plan, s, t)
        && base == t.server.base
    requires Watched(config, plan, t, now)
    requires existing.Reply? && existing.value.Some? ==>
      && |t.past| <= listed < read < |now.past|
      && Confirms(config, job, base, now.past[listed].server, now.past[read].server, existing.value.value)
    requires CalmFrom(plan, t.clock) && existing.Reply? && existing.value.Some? ==>
      Confirms(config, job, base, now.server, now.server, existing.value.value)
    ensures Watched(config, plan, start, now) && BaseSeen(base, start, now)
    ensures existing.Reply? && existing.value.Some? ==>
      Confirmed(config, job, base, plan, start, now, existing.value.value, listed, read)
    ensures FriendlyFrom(plan, start.clock) ==> base in History(now.server.base)
    ensures CalmFrom(plan, start.clock) ==>
      CalmFrom(plan, t.clock) && now.server == start.server && base == start.server.base
  {
    WatchedTransitive(config, plan, start, t, now);
    LaterIsCalm(config, plan, start, t);
    hide Confirms, AfterMoves;
    assert now.past[|s.past|] == t.past[|s.past|] == Moment(t.server, false);
  }

  lemma {:induction false} LookedUp(config: Config, job: Job, base: Commit, plan: nat -> Turn, start: Snap, s: Snap,
          t: Snap)
    requires Watched(config, plan, start, s) && Settled(s) && Turned(plan, s, t)
    requires BaseSeen(base, start, s)
    ensures BaseSeen(base, start, t)
    ensures NoOpenPull(s.server, job.branch) ==> NoOpenPull(t.server, job.branch)
    ensures FriendlyFrom(plan, start.clock) && base in History(s.server.base) ==> base in History(t.server.base)
  {
    TurnIsWatched(config, plan, s, t);
    hide AfterMoves;
    if NoOpenPull(s.server, job.branch) {
      NoneStaysNone(s.server, t.server, job.branch);
    }
    var k :| |start.past| <= k < |s.past| && s.past[k].server.base == base;
    assert t.past[k] == s.past[k];
    if FriendlyFrom(plan, start.clock) && base in History(s.server.base) {
      HistoryIsTransitive(t.server.base, s.server.base);
    }
  }

  /** What a reading part hands to the writing part that follows it. */
  lemma {:induction false} InspectedMeans(config: Config, job: Job, base: Commit, plan: nat -> Turn, start: Snap,
        now: Snap)
    requires Watched(config, plan, start, now)
    ensures Acted(config, plan, start, now)
    ensures FriendlyFrom(plan, start.clock) ==> FriendlyFrom(plan, now.clock)
    ensures FriendlyFrom(plan, start.clock) && Tidy(config, job, start.server) ==> Tidy(config, job, now.server)
    ensures base in History(now.server.base) && job.branch !in now.server.branches
            && NoOpenPull(now.server, job.branch) ==>
      (ReadsBack(config, job) ==> Publishable(config, job, base, now.server))
    ensures CalmFrom(plan, start.clock) ==>
      && now.server == start.server && CalmFrom(plan, now.clock) && FriendlyFrom(plan, start.clock)
      && (Tidy(config, job, start.server) && job.branch in start.server.branches && base == start.server.base ==>
          Owned(config, job, start.server.branches[job.branch], base))
  {
    hide Owned;
    LaterIsCalm(config, plan, start, now);
    if CalmFrom(plan, start.clock) {
      CalmIsFriendly(plan, start.clock);
    }
    if FriendlyFrom(plan, start.clock) && Tidy(config, job, start.server) {
      TidyStays(config, job, start.server, now.server);
    }
  }

  lemma {:induction false} BaseStaysSeen(config: Config, base: Commit, plan: nat -> Turn, start: Snap, s: Snap, t: Snap)
    requires BaseSeen(base, start, s) && Acted(config, plan, s, t)
    ensures BaseSeen(base, start, t)
  {
    var k :| |start.past| <= k < |s.past| && s.past[k].server.base == base;
    assert t.past[k] == s.past[k];
  }

  lemma {:induction false} BranchStays(config: Config, plan: nat -> Turn, branch: string, s: Snap, t: Snap)
    requires Watched(config, plan, s, t) && NoOpenPull(s.server, branch)
    ensures Acted(config, plan, s, t) && NoOpenPull(t.server, branch)
    ensures FriendlyFrom(plan, s.clock) ==> t.server.branches == s.server.branches
  {
    NoneStaysNone(s.server, t.server, branch);
  }

  // ---- What a confirmed draft is ----

  /** One draft is open from the case's branch, of this very repository and into the base branch;
      its head is the branch's head, which claims the case and does nothing but put the patch at
      the path, on a commit of base history. */
  ghost predicate ShowsDraft(config: Config, caseId: string, patch: Patch, base: Commit, listed: Server, read: Server,
        url: string) {
    var branch := "datarescue/" + config.slug(caseId);
    && branch in read.branches
    && (exists i :: 0 <= i < |listed.pulls| && listed.pulls[i].url == url && OpenFrom(listed.pulls[i], branch)
                    && listed.pulls[i].baseRef == config.baseBranch && !listed.pulls[i].crossRepository
                    && listed.pulls[i].draft && listed.pulls[i].head == read.branches[branch])
    && (forall i, j :: OpenAt(listed.pulls, i, branch) && OpenAt(listed.pulls, j, branch) ==> i == j)
    && ClaimsCase(config.oid, read.branches[branch], caseId, patch)
    && PatchesOnly(read.branches[branch], patch, config.path, base)
  }

  ghost predicate OpenFrom(pull: Pull, branch: string) {
    pull.open && pull.headRef == branch
  }

  ghost predicate OpenAt(pulls: seq<Pull>, i: int, branch: string) {
    0 <= i < |pulls| && OpenFrom(pulls[i], branch)
  }

  /** Two open pull requests of the branch are both listed. */
  lemma {:induction false} BothListed(pulls: seq<Pull>, branch: string, i: nat, j: nat)
    requires i < j < |pulls| && OpenFrom(pulls[i], branch) && OpenFrom(pulls[j], branch)
    ensures |OpenPulls(pulls, branch)| >= 2
  {
    var init := pulls[..|pulls| - 1];
    if j < |init| {
      BothListed(init, branch, i, j);
    } else {
      assert init[i] in init;
      assert init[i] in OpenPulls(init, branch);
    }
  }

  lemma {:induction false} ConfirmsShows(config: Config, caseId: string, patch: Patch, base: Commit, listed: Server,
        read: Server, url: string)
    requires Confirms(config, JobOf(config, caseId, patch), base, listed, read, url)
    ensures ShowsDraft(config, caseId, patch, base, listed, read, url)
  {
    var branch := "datarescue/" + config.slug(caseId);
    OwnedMeans(config.oid, read.branches[branch], caseId, patch, config.path, base);
    hide CommitIsOwned, ClaimsCase, PatchesOnly;
    var pull := OpenPulls(listed.pulls, branch)[0];
    assert pull in OpenPulls(listed.pulls, branch);
    var k :| 0 <= k < |listed.pulls| && listed.pulls[k] == pull;
    forall i, j | OpenAt(listed.pulls, i, branch) && OpenAt(listed.pulls, j, branch) ensures i == j {
      if i < j {
        BothListed(listed.pulls, branch, i, j);
      } else if j < i {
        BothListed(listed.pulls, branch, j, i);
      }
    }
  }

  /** Two moments of a call, one after the other, show the draft; if nobody else acted, so does the end. */
  ghost predicate Shown(config: Config, caseId: string, patch: Patch, base: Commit, plan: nat -> Turn, start: Snap,
        now: Snap, url: string, listed: nat, read: nat) {
    && |start.past| <= listed < read < |now.past|
    && ShowsDraft(config, caseId, patch, base, now.past[listed].server, now.past[read].server, url)
    && (CalmFrom(plan, start.clock) ==> ShowsDraft(config, caseId, patch, base, now.server, now.server, url))
  }

  lemma {:induction false} ConfirmedIsShown(config: Config, caseId: string, patch: Patch, base: Commit,
        plan: nat -> Turn, start: Snap, now: Snap, url: string, listed: nat, read: nat)
    requires Confirmed(config, JobOf(config, caseId, patch), base, plan, start, now, url, listed, read)
    ensures Shown(config, caseId, patch, base, plan, start, now, url, listed, read)
  {
    hide Confirms, ShowsDraft, JobOf;
    ConfirmsShows(config, caseId, patch, base, now.past[listed].server, now.past[read].server, url);
    if CalmFrom(plan, start.clock) {
      ConfirmsShows(config, caseId, patch, base, now.server, now.server, url);
    }
  }

  class GitHubDraftPRAdapter {
    const config: Config
    const remote: Remote

    constructor (config: Config, remote: Remote)
      ensures this.config == config && this.remote == remote
    {
      this.config := config;
      this.remote := remote;
    }

    /** The open draft of the branch, if there is exactly one and everything about it is as this
        case would have made it; nothing if none is open; otherwise it raises. */
    method FindExistingPr(job: Job, base: Commit) returns (answer: Answer<Option<string>>, ghost listed: nat,
          ghost read: nat)
      requires remote.Valid()
      modifies remote
      ensures remote.Valid() && Watched(config, remote.plan, old(remote.State()), remote.State())
          && remote.slots == old(remote.slots)
      ensures answer == Reply(None) ==> NoOpenPull(remote.server, job.branch)
      ensures answer.Reply? && answer.value.Some? ==>
        && |old(remote.past)| <= listed < read < |remote.past|
        && Confirms(config, job, base, remote.past[listed].server, remote.past[read].server, answer.value.value)
      ensures CalmFrom(remote.plan, old(remote.clock)) && answer.Reply? && answer.value.Some? ==>
        Confirms(config, job, base, remote.server, remote.server, answer.value.value)
      ensures answer == Reply(None) ==> remote.clock == old(remote.clock) + 2
      ensures CalmFrom(remote.plan, old(remote.clock)) && Tidy(config, job, old(remote.server))
              && base == old(remote.server.base) ==>
        var found := OpenPulls(old(remote.server.pulls), job.branch);
        if found == [] then answer == if AllWork(remote.plan, old(remote.clock), 2) then Reply(None) else Raise
        else answer == if AllWork(remote.plan, old(remote.clock), 3) then Reply(Some(found[0].url)) else Raise
    {
      hide Owned, Watched, Tidy, Confirms, OpenPulls, CalmFrom, AllWork, AfterMoves, OthersStep;
      ghost var start := remote.State();
      FewWork(remote.plan, start.clock);
      listed, read := |remote.past|, |remote.past| + 1;
      var candidates := remote.ListPulls(job.branch);
      ghost var first := remote.State();
      TurnIsWatched(config, remote.plan, start, first);
      if candidates.Raise? {
        return Raise, listed, read;
      }
      var head := remote.HeadOf(job.branch);
      ghost var second := remote.State();
      TurnIsWatched(config, remote.plan, first, second);
      WatchedTransitive(config, remote.plan, start, first, second);
      CalmReads(config, job, remote.plan, start, first, second);
      if head.Raise? {
        return Raise, listed, read;
      }
      if head.value.None? {
        if candidates.value != [] {
          return Raise, listed, read;
        }
        NoneListed(config, remote.plan, job.branch, first, second);
        return Reply(None), listed, read;
      }
      answer := CheckListed(job, base, candidates.value, head.value.value);
      ghost var now := remote.State();
      WatchedTransitive(config, remote.plan, first, second, now);
      WatchedTransitive(config, remote.plan, start, second, now);
      LaterIsCalm(config, remote.plan, start, second);
      if answer == Reply(None) {
        NoneListed(config, remote.plan, job.branch, first, now);
      } else if answer.Reply? {
        OneListed(config, job, base, remote.plan, start, first, second, now, candidates.value, answer.value.value);
      }
    }

    /** Hold each listed pull request to what this case would have made; there may be one. */
    method CheckListed(job: Job, base: Commit, candidates: seq<Pull>, head: Commit)
      returns (answer: Answer<Option<string>>)
      requires remote.Valid()
      modifies remote
      ensures remote.Valid() && remote.slots == old(remote.slots) && old(remote.past) <= remote.past
      ensures Watched(config, remote.plan, old(remote.State()), remote.State())
      ensures answer == Reply(None) ==> candidates == []
      ensures answer.Reply? && answer.value.Some? ==> SoleDraft(config, job, candidates, head, base, answer.value.value)
      ensures candidates == [] ==> answer == Reply(None) && remote.clock == old(remote.clock)
      ensures |candidates| == 1 && SoleDraft(config, job, candidates, head, base, candidates[0].url) ==>
        answer == if remote.plan(old(remote.clock)).fate == Works then Reply(Some(candidates[0].url)) else Raise
    {
      hide Owned, Watched;
      ghost var start := remote.State();
      WatchedReflexive(config, remote.plan, start);
      var urls: seq<string> := [];
      for i := 0 to |candidates|
        invariant remote.Valid() && remote.slots == old(remote.slots) && start.past <= remote.past
        invariant Watched(config, remote.plan, start, remote.State())
        invariant |urls| == i
        invariant remote.clock == start.clock + i
        invariant i > 0 ==> remote.plan(start.clock).fate == Works
        invariant forall j :: 0 <= j < i ==>
          urls[j] == candidates[j].url && Expected(config, job, candidates[j], head) && Owned(config, job, head, base)
      {
        var candidate := candidates[i];
        if candidate.headRef != job.branch || candidate.baseRef != config.baseBranch
          || candidate.crossRepository || !candidate.draft
        {
          return Raise;
        }
        if candidate.head != head {
          return Raise;
        }
        ghost var before := remote.State();
        var fetched := remote.TakeTurn();
        TurnIsWatched(config, remote.plan, before, remote.State());
        WatchedTransitive(config, remote.plan, start, before, remote.State());
        if fetched != Works {
          return Raise;
        }
        if !Owned(config, job, candidate.head, base) {
          return Raise;
        }
        urls := urls + [candidate.url];
      }
      if |urls| > 1 {
        return Raise;
      }
      return Reply(if urls == [] then None else Some(urls[0]));
    }

    /** Open the draft, then believe only what a fresh look confirms - also when the opening
        was reported as failed. */
    method CreateOrReconcilePr(job: Job, base: Commit) returns (answer: Answer<string>, ghost listed: nat,
          ghost read: nat)
      requires remote.Valid() && NoOpenPull(remote.server, job.branch)
      modifies remote
      ensures remote.Valid() && Acted(config, remote.plan, old(remote.State()), remote.State())
          && remote.slots == old(remote.slots)
      ensures answer.Reply? ==>
          Confirmed(config, job, base, remote.plan, old(remote.State()), remote.State(), answer.value, listed, read)
      ensures FriendlyFrom(remote.plan, old(remote.clock)) && Pushed(config, job, old(remote.server)) ==>
        Tidy(config, job, remote.server)
      ensures CalmFrom(remote.plan, old(remote.clock)) && Pushed(config, job, old(remote.server))
              && base == old(remote.server.base) ==>
        (answer.Reply? <==> Opens(remote.plan, old(remote.clock)))
      ensures var turn := remote.plan(old(remote.clock));
              var met := AfterMoves(old(remote.server), turn.moves);
              answer.Reply? && turn.fate == Works && job.branch in met.branches ==>
                answer.value == remote.urls(|met.pulls|)
    {
      hide Acted, Watched, Tidy, Pushed, Confirms, AllWork, FriendlyFrom, CalmFrom, OpenPulls, NoOpenPull, AfterMoves,
        WithDraft;
      ghost var start := remote.State();
      var created := remote.CreatePull(job.branch, config.baseBranch);
      ghost var attempted := remote.State();
      CreationActs(config, job, remote.plan, start, attempted,
          remote.urls(|AfterMoves(start.server, remote.plan(start.clock).moves).pulls|));
      var existing: Answer<Option<string>>;
      existing, listed, read := FindExistingPr(job, base);
      ghost var now := remote.State();
      ThenWatched(config, job, base, remote.plan, start, attempted, now);
      if existing.Raise? || existing.value.None? {
        return Raise, listed, read;
      }
      if created.Reply? && existing.value.value != created.value {
        return Raise, listed, read;
      }
      return Reply(existing.value.value), listed, read;
    }

    /** Commit the patch on the base, push the new branch, open its draft; `start` is how things were
        when the branch was known not to be there. */
    method CommitAndOpen(job: Job, base: Commit, ghost start: Snap)
      returns (answer: Answer<string>, ghost listed: nat, ghost read: nat)
      requires remote.Valid() && Settled(start) && Watched(config, remote.plan, start, remote.State())
      requires NoOpenPull(start.server, job.branch) && job.branch !in start.server.branches
      modifies remote
      ensures remote.Valid() && Acted(config, remote.plan, start, remote.State())
      ensures answer.Reply? ==>
          Confirmed(config, job, base, remote.plan, start, remote.State(), answer.value, listed, read)
      ensures FriendlyFrom(remote.plan, start.clock) && Publishable(config, job, base, start.server) ==>
        Tidy(config, job, remote.server)
      ensures CalmFrom(remote.plan, start.clock) && Publishable(config, job, base, start.server)
              && Changes(config, job, base) && base == start.server.base ==>
        (answer.Reply? <==> AllWork(remote.plan, old(remote.clock), 2) && Opens(remote.plan, old(remote.clock) + 2))
      ensures remote.slots == old(remote.slots)
    {
      hide Acted, Watched, Tidy, Pushed, Confirmed, Opens, AllWork, FriendlyFrom, CalmFrom, NoOpenPull, AfterMoves,
        Created, Publishable, Settled, Turned, History, Changes;
      ghost var ready := remote.State();
      FewWork(remote.plan, ready.clock);
      listed, read := 0, 0;
      var committed := remote.TakeTurn();
      ghost var before := remote.State();
      TurnKeeps(config, job, base, remote.plan, start, ready, before);
      if committed != Works || !Changes(config, job, base) {
        return Raise, listed, read;
      }
      var stamp: nat := *;
      var commit := Created(config.oid, job.caseId, job.patch, config.path, base, stamp);
      var pushed := remote.Push(job.branch, commit);
      ghost var after := remote.State();
      ValidIsSettled(remote);
      PushActs(config, job, base, remote.plan, start, before, after, commit, stamp);
      if !pushed {
        return Raise, listed, read;
      }
      answer, listed, read := CreateOrReconcilePr(job, base);
      ThenActed(config, job, base, remote.plan, start, after, remote.State(), answer, listed, read);
    }

    /** The same in a new worktree, which is removed again however it went. */
    method PublishBranch(job: Job, base: Commit) returns (answer: Answer<string>, ghost listed: nat, ghost read: nat)
      requires remote.Valid() && NoOpenPull(remote.server, job.branch) && job.branch !in remote.server.branches
      modifies remote
      ensures remote.Valid() && Acted(config, remote.plan, old(remote.State()), remote.State())
      ensures answer.Reply? ==>
          Confirmed(config, job, base, remote.plan, old(remote.State()), remote.State(), answer.value, listed, read)
      ensures FriendlyFrom(remote.plan, old(remote.clock)) && Publishable(config, job, base, old(remote.server)) ==>
        Tidy(config, job, remote.server)
      ensures CalmFrom(remote.plan, old(remote.clock)) && Publishable(config, job, base, old(remote.server))
              && job.branch !in old(remote.slots) && Changes(config, job, base) && base == old(remote.server.base) ==>
        (answer.Reply? <==>
         AllWork(remote.plan, old(remote.clock), 3) && Opens(remote.plan, old(remote.clock) + 3))
      ensures FreesSlot(remote.plan, job.branch, old(remote.slots), remote.slots, remote.clock)
    {
      hide Acted, Watched, Tidy, Pushed, Confirmed, Opens, AllWork, FriendlyFrom, CalmFrom, NoOpenPull, AfterMoves,
        Publishable, Settled, Turned, History, Changes;
      ghost var start := remote.State();
      ValidIsSettled(remote);
      WatchedReflexive(config, remote.plan, start);
      FirstWorks(remote.plan, start.clock);
      var added := remote.AddWorktree(job.branch);
      ghost var ready := remote.State();
      TurnKeeps(config, job, base, remote.plan, start, start, ready);
      if !added {
        // What the failed command left behind is removed only as far as it is provably ours.
        remote.RemoveWorktree(job.branch);
        TurnKeeps(config, job, base, remote.plan, start, ready, remote.State());
        return Raise, 0, 0;
      }
      answer, listed, read := CommitAndOpen(job, base, start);
      ghost var done := remote.State();
      ValidIsSettled(remote);
      remote.RemoveWorktree(job.branch);
      CleanupKeeps(config, job, base, remote.plan, start, done, remote.State(), answer, listed, read);
    }

    /** What the job must be, access to the repository, and the base as it is now. */
    method FetchAllowedBase(job: Job) returns (fetched: Answer<Commit>, ghost allowed: Snap)
      requires remote.Valid()
      modifies remote
      ensures remote.Valid() && Watched(config, remote.plan, old(remote.State()), remote.State())
          && remote.slots == old(remote.slots)
      ensures fetched.Reply? <==>
        WellFormed(config, job)
        && remote.plan(old(remote.clock)).fate == Works && remote.plan(old(remote.clock) + 1).fate == Works
      ensures fetched.Reply? ==>
        && fetched.value == remote.server.base && remote.clock == old(remote.clock) + 2
        && Watched(config, remote.plan, old(remote.State()), allowed)
        && Turned(remote.plan, allowed, remote.State())
    {
      hide Watched, CalmFrom, AfterMoves, Turned;
      ghost var start := remote.State();
      WatchedReflexive(config, remote.plan, start);
      allowed := start;
      if !config.pathIsSafe || config.slug(job.caseId) == "" || config.sha256(job.patch.content) != job.patch.sha256 {
        return Raise, allowed;
      }
      var access := remote.TakeTurn();
      allowed := remote.State();
      TurnReads(config, remote.plan, start, start, allowed);
      if access != Works || !config.repositoryAllowed {
        return Raise, allowed;
      }
      fetched := remote.FetchBase();
      TurnReads(config, remote.plan, start, allowed, remote.State());
    }

    /** The reading half of an attempt: access, the base, what is open, where the branch is. */
    method Inspect(job: Job) returns (finding: Finding, base: Commit, ghost listed: nat, ghost read: nat)
      requires remote.Valid()
      modifies remote
      ensures remote.Valid() && Watched(config, remote.plan, old(remote.State()), remote.State())
          && remote.slots == old(remote.slots)
      ensures finding.Existing? ==>
        Confirmed(config, job, base, remote.plan, old(remote.State()), remote.State(), finding.url, listed, read)
      ensures finding.Branch? || finding.Missing? ==> NoOpenPull(remote.server, job.branch)
      ensures finding.Branch? ==> job.branch in remote.server.branches
                                  && remote.server.branches[job.branch] == finding.head
      ensures finding.Missing? ==> job.branch !in remote.server.branches
      ensures !finding.Failed? ==> WellFormed(config, job) && BaseSeen(base, old(remote.State()), remote.State())
      ensures !finding.Failed? && FriendlyFrom(remote.plan, old(remote.clock)) ==> base in History(remote.server.base)
      ensures finding.Branch? || finding.Missing? ==> remote.clock == old(remote.clock) + 5
      ensures CalmFrom(remote.plan, old(remote.clock)) ==>
        && (!finding.Failed? ==> base == old(remote.server.base))
        && (WellFormed(config, job) && Tidy(config, job, old(remote.server)) ==>
            && (!finding.Failed? <==> AllWork(remote.plan, old(remote.clock), 5))
            && (finding.Existing? ==> OpenPulls(old(remote.server.pulls), job.branch) != [])
            && (finding.Branch? || finding.Missing? ==> OpenPulls(old(remote.server.pulls), job.branch) == []))
    {
      hide Watched, Tidy, Confirmed, Confirms, AllWork, FriendlyFrom, CalmFrom, NoOpenPull, AfterMoves, Turned,
        History, OpenPulls, BaseSeen;
      ghost var start := remote.State();
      WatchedReflexive(config, remote.plan, start);
      FiveWork(remote.plan, start.clock);
      base, listed, read := remote.server.base, 0, 0;
      var fetched, allowed := FetchAllowedBase(job);
      ghost var based := remote.State();
      if fetched.Raise? {
        return Failed, base, listed, read;
      }
      base := fetched.value;
      LaterIsCalm(config, remote.plan, start, based);
      var existing: Answer<Option<string>>;
      existing, listed, read := FindExistingPr(job, base);
      ghost var found := remote.State();
      FoundReads(config, job, base, remote.plan, start, allowed, based, found, existing, listed, read);
      if existing.Raise? {
        return Failed, base, listed, read;
      }
      if existing.value.Some? {
        return Existing(existing.value.value), base, listed, read;
      }
      var head := remote.HeadOf(job.branch);
      ghost var now := remote.State();
      TurnReads(config, remote.plan, start, found, now);
      LookedUp(config, job, base, remote.plan, start, found, now);
      if head.Raise? {
        return Failed, base, listed, read;
      }
      match head.value
      case Some(commit) => return Branch(commit), base, listed, read;
      case None => return Missing, base, listed, read;
    }

    /** One attempt: reconcile what is there, or publish. */
    method CreateRealDraft(job: Job) returns (answer: Answer<string>, ghost base: Commit, ghost listed: nat,
          ghost read: nat)
      requires remote.Valid()
      modifies remote
      ensures remote.Valid() && Acted(config, remote.plan, old(remote.State()), remote.State())
      ensures answer.Reply? ==>
        && Confirmed(config, job, base, remote.plan, old(remote.State()), remote.State(), answer.value, listed, read)
        && BaseSeen(base, old(remote.State()), remote.State())
      ensures FriendlyFrom(remote.plan, old(remote.clock)) && ReadsBack(config, job)
              && Tidy(config, job, old(remote.server)) ==>
        Tidy(config, job, remote.server)
      ensures CalmFrom(remote.plan, old(remote.clock))
              && CanFinish(config, job, old(remote.server), old(remote.slots)) ==>
        (answer.Reply? <==> Goes(config, job, remote.plan, old(remote.server), old(remote.clock)))
      ensures answer.Reply? ==> WellFormed(config, job)
      ensures FreesSlot(remote.plan, job.branch, old(remote.slots), remote.slots, remote.clock)
    {
      hide Acted, Watched, Tidy, Confirmed, Opens, AllWork, FriendlyFrom, CalmFrom, NoOpenPull, AfterMoves, Turned,
        History, Changes,
        OpenPulls, Owned, ReadsBack, BaseSeen;
      ghost var start := remote.State();
      MoreWork(remote.plan, start.clock);
      var finding, fetched;
      finding, fetched, listed, read := Inspect(job);
      base := fetched;
      ghost var seen := remote.State();
      InspectedMeans(config, job, base, remote.plan, start, seen);
      match finding
      case Failed =>
        return Raise, base, listed, read;
      case Existing(url) =>
        return Reply(url), base, listed, read;
      case Branch(commit) =>
        var checked := remote.TakeTurn();
        ghost var now := remote.State();
        TurnReads(config, remote.plan, start, seen, now);
        InspectedMeans(config, job, base, remote.plan, start, now);
        TurnIsWatched(config, remote.plan, seen, now);
        BranchStays(config, remote.plan, job.branch, seen, now);
        BaseStaysSeen(config, base, remote.plan, start, seen, now);
        if checked != Works || !Owned(config, job, commit, fetched) {
          return Raise, base, listed, read;
        }
        answer, listed, read := CreateOrReconcilePr(job, fetched);
        ThenActed(config, job, base, remote.plan, start, now, remote.State(), answer, listed, read);
        BaseStaysSeen(config, base, remote.plan, start, now, remote.State());
      case Missing =>
        if job.branch in remote.slots {
          return Raise, base, listed, read;
        }
        answer, listed, read := PublishBranch(job, fetched);
        ThenActed(config, job, base, remote.plan, start, seen, remote.State(), answer, listed, read);
        BaseStaysSeen(config, base, remote.plan, start, seen, remote.State());
    }

    /** Create the draft, or report why there is none. */
    method CreateDraft(caseId: string, patch: Patch) returns (result: PullRequest, ghost base: Commit,
          ghost listed: nat, ghost read: nat)
      requires remote.Valid()
      modifies remote
      ensures remote.Valid() && Acted(config, remote.plan, old(remote.State()), remote.State())
      ensures var job := JobOf(config, caseId, patch);
        && result.branch == job.branch == "datarescue/" + config.slug(caseId)
        && (!config.enabled ==> result.integration.status == NOT_RUN && remote.State() == old(remote.State()))
        && (config.enabled ==> result.integration.status == SUCCEEDED || result.integration.status == ERRORED)
        && (result.integration.status == SUCCEEDED ==>
            && result.url.Some? && result.integration.resourceId == result.url
            && Confirmed(config, job, base, remote.plan, old(remote.State()), remote.State(), result.url.value, listed,
                read)
            && Shown(config, caseId, patch, base, remote.plan, old(remote.State()), remote.State(), result.url.value,
                listed, read)
            && BaseSeen(base, old(remote.State()), remote.State()))
        && (FriendlyFrom(remote.plan, old(remote.clock)) && ReadsBack(config, job)
            && Tidy(config, job, old(remote.server)) ==>
            Tidy(config, job, remote.server))
        && (result.integration.status == SUCCEEDED ==>
            && config.pathIsSafe && config.repositoryAllowed && config.slug(caseId) != ""
            && config.sha256(patch.content) == patch.sha256)
        && (result.url.Some? <==> result.integration.status == SUCCEEDED)
        && FreesSlot(remote.plan, job.branch, old(remote.slots), remote.slots, remote.clock)
        && (CalmFrom(remote.plan, old(remote.clock)) && config.enabled
            && CanFinish(config, job, old(remote.server), old(remote.slots)) ==>
            (result.integration.status == SUCCEEDED <==>
             Goes(config, job, remote.plan, old(remote.server), old(remote.clock))))
    {
      hide Acted, Tidy, Confirmed, Shown, Goes, CalmFrom, FriendlyFrom, ReadsBack, BaseSeen, CanFinish;
      var job := JobOf(config, caseId, patch);
      base, listed, read := remote.server.base, 0, 0;
      if !config.enabled {
        StandsStill(config, remote.plan, remote);
        return PullRequest(Integration(NOT_RUN, None, ""), job.branch, None), base, listed, read;
      }
      var answer: Answer<string>;
      answer, base, listed, read := CreateRealDraft(job);
      match answer
      case Raise => return PullRequest(Integration(ERRORED, None, ""), job.branch, None), base, listed, read;
      case Reply(url) =>
        ConfirmedIsShown(config, caseId, patch, base, remote.plan, old(remote.State()), remote.State(), url, listed,
          read);
        return PullRequest(Integration(SUCCEEDED, Some(url), ""), job.branch, Some(url)), base,
          listed, read;
    }

    /** Any number of calls for any cases, one after the other, whatever others do in between:
        each of the adapter's own commands keeps every branch there is and every commit of it; at
        every moment from the first on, at most one pull request is open on a branch that had at
        most one; and every branch that others let be stands where it was. While others only move
        the base forward and close drafts, a branch once pushed stays finishable: a call for it
        that nothing disturbs succeeds, whatever was called before. `states` is how things were
        before the first call and after each. */
    method CreateDrafts(calls: seq<(string, Patch)>) returns (results: seq<PullRequest>, ghost states: seq<Snap>)
      requires remote.Valid()
      modifies remote
      ensures remote.Valid() && |results| == |calls| && |states| == |calls| + 1
      ensures states[0] == old(remote.State()) && states[|calls|] == remote.State()
      ensures forall i | 0 <= i < |calls| ::
        Answers(config, remote.plan, states[i], states[i + 1], calls[i], results[i])
      ensures Since(config.baseBranch, old(remote.past), remote.past)
      ensures forall k | |old(remote.past)| <= k < |remote.past| && remote.past[k].ours ::
        0 < k && KeepsCommits(remote.past[k - 1].server, remote.past[k].server)
      ensures forall branch, k | AtMostOneOpen(old(remote.server), branch) && |old(remote.past)| <= k < |remote.past| ::
        AtMostOneOpen(remote.past[k].server, branch)
      ensures HandsOff(remote.plan, old(remote.clock)) ==>
        BranchesStand(old(remote.server), old(remote.past), remote.past)
      ensures FriendlyFrom(remote.plan, old(remote.clock)) ==> StaysPushed(config, old(remote.State()), remote.State())
      ensures FriendlyFrom(remote.plan, old(remote.clock)) && config.enabled ==>
        forall i | 0 <= i < |calls| :: Finishes(config, remote.plan, states[0], states[i], calls[i], results[i])
    {
      hide Acted, Answers, AtMostOneOpen, HandsOff, BranchesStand, FriendlyFrom, CalmFrom, Goes, Pushed,
        CanFinish, Confirmed, Shown, BaseSeen, Tidy, ReadsBack, StaysPushed, Settled, Finishes;
      ghost var start := remote.State();
      StandsStill(config, remote.plan, remote);
      ValidIsSettled(remote);
      results, states := [], [start];
      for i := 0 to |calls|
        invariant remote.Valid() && |results| == i && |states| == i + 1
        invariant states[0] == start && states[i] == remote.State()
        invariant Acted(config, remote.plan, start, remote.State())
        invariant forall j | 0 <= j < i ::
          Answers(config, remote.plan, states[j], states[j + 1], calls[j], results[j])
        invariant FriendlyFrom(remote.plan, start.clock) && config.enabled ==>
          forall j | 0 <= j < i :: Finishes(config, remote.plan, start, states[j], calls[j], results[j])
      {
        ghost var before, slots := remote.State(), remote.slots;
        var result, base, listed, read := CreateDraft(calls[i].0, calls[i].1);
        CallAnswers(config, remote.plan, before, remote.State(), calls[i], result, base, listed, read);
        if FriendlyFrom(remote.plan, start.clock) && config.enabled {
          CallFinishes(config, remote.plan, start, before, slots, calls[i], result);
        }
        results, states := results + [result], states + [remote.State()];
        ActedTransitive(config, remote.plan, start, before, remote.State());
      }
      ActedIsSafe(config, remote.plan, start, remote.State());
    }
  }

  /** What one call led to and answered: a URL only for a draft shown while it ran. */
  ghost predicate Answers(config: Config, plan: nat -> Turn, s: Snap, t: Snap, call: (string, Patch),
        result: PullRequest) {
    var job := JobOf(config, call.0, call.1);
    && Acted(config, plan, s, t) && result.branch == job.branch
    && (result.integration.status == SUCCEEDED ==>
        && result.url.Some?
        && exists base, listed, read ::
             Shown(config, call.0, call.1, base, plan, s, t, result.url.value, listed, read) && BaseSeen(base, s, t))
  }

  lemma {:induction false} CallAnswers(config: Config, plan: nat -> Turn, s: Snap, t: Snap, call: (string, Patch),
        result: PullRequest, base: Commit, listed: nat, read: nat)
    requires Acted(config, plan, s, t) && result.branch == JobOf(config, call.0, call.1).branch
    requires result.integration.status == SUCCEEDED ==>
             && result.url.Some?
             && Shown(config, call.0, call.1, base, plan, s, t, result.url.value, listed, read)
             && BaseSeen(base, s, t)
    ensures Answers(config, plan, s, t, call, result)
  {
    hide Acted, Shown, BaseSeen;
  }

  /** Every case whose branch was there and tidy at some moment has it there and tidy now. */
  ghost predicate StaysPushed(config: Config, s: Snap, t: Snap) {
    forall job, k :: |s.past| - 1 <= k < |t.past| && 0 <= k && Pushed(config, job, t.past[k].server) ==>
      Pushed(config, job, t.server)
  }

  /** If its branch was pushed at any moment up to its start, a call during which nobody else acts
      succeeds exactly when the commands that matter work and a creation takes effect. */
  ghost predicate Finishes(config: Config, plan: nat -> Turn, s: Snap, before: Snap, call: (string, Patch),
        result: PullRequest) {
    var job := JobOf(config, call.0, call.1);
    CalmFrom(plan, before.clock)
    && config.pathIsSafe && config.repositoryAllowed && config.slug(call.0) != ""
    && config.sha256(call.1.content) == call.1.sha256
    && (exists k :: |s.past| - 1 <= k < |before.past| && 0 <= k && Pushed(config, job, before.past[k].server)) ==>
      (result.integration.status == SUCCEEDED <==> Goes(config, job, plan, before.server, before.clock))
  }

  lemma {:induction false} FriendlyIsHandsOff(plan: nat -> Turn, from: nat)
    requires FriendlyFrom(plan, from)
    ensures HandsOff(plan, from)
  {
  }

  /** One step of the past: others advance, or this adapter acts; either way a pushed branch
      stays pushed, also when the step was made for another case. */
  lemma {:induction false} StepKeepsPushed(config: Config, job: Job, past: seq<Moment>, k: nat)
    requires 0 < k < |past| && LawfulAt(config.baseBranch, past, k)
    requires HeadsKept(past[k - 1].server, past[k].server)
    requires !past[k].ours ==> Advanced(past[k - 1].server, past[k].server)
    requires Pushed(config, job, past[k - 1].server)
    ensures Pushed(config, job, past[k].server)
  {
    var s, t := past[k - 1].server, past[k].server;
    assert (job.branch, s.branches[job.branch]) in s.branches.Items;
    hide Owned, History;
    if !past[k].ours {
      TidyStays(config, job, s, t);
    } else if t.pulls != s.pulls {
      assert forall i :: 0 <= i < |s.pulls| ==> t.pulls[i] == t.pulls[..|s.pulls|][i] == s.pulls[i];
    }
  }

  /** While others are friendly, a branch pushed at one moment is pushed at every later one. */
  lemma {:induction false} PushedAlways(config: Config, job: Job, plan: nat -> Turn, s: Snap, t: Snap, from: nat,
        k: nat)
    requires Settled(s) && Acted(config, plan, s, t) && FriendlyFrom(plan, s.clock)
    requires |s.past| - 1 <= from <= k < |t.past| && Pushed(config, job, t.past[from].server)
    ensures Pushed(config, job, t.past[k].server)
    decreases k
  {
    hide Pushed, Acted, FriendlyFrom, Settled;
    if k > from {
      PushedAlways(config, job, plan, s, t, from, k - 1);
      FriendlyStep(config, plan, s, t, k);
      StepKeepsPushed(config, job, t.past, k);
    }
  }

  /** What one step of a friendly past is. */
  lemma {:induction false} FriendlyStep(config: Config, plan: nat -> Turn, s: Snap, t: Snap, k: nat)
    requires Settled(s) && Acted(config, plan, s, t) && FriendlyFrom(plan, s.clock) && |s.past| <= k < |t.past|
    ensures 0 < k && LawfulAt(config.baseBranch, t.past, k)
    ensures HeadsKept(t.past[k - 1].server, t.past[k].server)
    ensures !t.past[k].ours ==> Advanced(t.past[k - 1].server, t.past[k].server)
  {
    FriendlyIsHandsOff(plan, s.clock);
    hide HandsOff, FriendlyFrom, Advanced, HeadsKept, OurStep, OthersStep;
  }

  lemma {:induction false} CallFinishes(config: Config, plan: nat -> Turn, s: Snap, before: Snap, slots: set<string>,
        call: (string, Patch), result: PullRequest)
    requires Settled(s) && Acted(config, plan, s, before) && FriendlyFrom(plan, s.clock)
    requires CalmFrom(plan, before.clock)
             && CanFinish(config, JobOf(config, call.0, call.1), before.server, slots) ==>
             (result.integration.status == SUCCEEDED <==>
              Goes(config, JobOf(config, call.0, call.1), plan, before.server, before.clock))
    ensures Finishes(config, plan, s, before, call, result)
  {
    hide Acted, FriendlyFrom, CalmFrom, Goes, Tidy;
    var job := JobOf(config, call.0, call.1);
    if k: nat :| |s.past| - 1 <= k < |before.past| && Pushed(config, job, before.past[k].server) {
      ActedIsSettled(config, plan, s, before);
      PushedAlways(config, job, plan, s, before, k, |before.past| - 1);
    }
  }

  lemma {:induction false} ActedIsSettled(config: Config, plan: nat -> Turn, s: Snap, t: Snap)
    requires Acted(config, plan, s, t)
    ensures Settled(t)
  {
  }

  lemma {:induction false} ActedIsSafe(config: Config, plan: nat -> Turn, s: Snap, t: Snap)
    requires Settled(s) && Acted(config, plan, s, t)
    ensures Since(config.baseBranch, s.past, t.past)
    ensures forall k | |s.past| <= k < |t.past| && t.past[k].ours ::
      0 < k && KeepsCommits(t.past[k - 1].server, t.past[k].server)
    ensures forall branch, k | AtMostOneOpen(s.server, branch) && |s.past| <= k < |t.past| ::
      AtMostOneOpen(t.past[k].server, branch)
    ensures HandsOff(plan, s.clock) ==> BranchesStand(s.server, s.past, t.past)
    ensures FriendlyFrom(plan, s.clock) ==> StaysPushed(config, s, t)
  {
    hide AtMostOneOpen, HandsOff, FriendlyFrom, Pushed;
    forall k | |s.past| <= k < |t.past| && t.past[k].ours
      ensures 0 < k && KeepsCommits(t.past[k - 1].server, t.past[k].server)
    {
      NothingOverwritten(config.baseBranch, s.past, t.past, k);
    }
    forall branch, k | AtMostOneOpen(s.server, branch) && |s.past| <= k < |t.past|
      ensures AtMostOneOpen(t.past[k].server, branch)
    {
      AtMostOneAlways(config.baseBranch, s.past, t.past, branch, k);
    }
    if HandsOff(plan, s.clock) {
      forall k | |s.past| <= k < |t.past| ensures s.server.branches.Items <= t.past[k].server.branches.Items {
        HeadStandsAlways(s.past, t.past, k);
      }
    }
    if FriendlyFrom(plan, s.clock) {
      forall job, k | |s.past| - 1 <= k < |t.past| && 0 <= k && Pushed(config, job, t.past[k].server)
        ensures Pushed(config, job, t.server)
      {
        PushedAlways(config, job, plan, s, t, k, |t.past| - 1);
      }
    }
  }

  /** Once its branch was pushed, a case can always be finished, however far others then move the
      base forward and whatever drafts they close: `CreateDraft` succeeds if nothing fails. */
  lemma {:induction false} PushedCanFinish(config: Config, job: Job, s: Server, moves: seq<Move>, slots: set<string>)
    requires config.pathIsSafe && config.repositoryAllowed && config.slug(job.caseId) != ""
        && config.sha256(job.patch.content) == job.patch.sha256
    requires Pushed(config, job, s) && Friendly(moves)
    ensures CanFinish(config, job, AfterMoves(s, moves), slots)
  {
    MovesAreOthers(s, moves);
    TidyStays(config, job, s, AfterMoves(s, moves));
    hide AfterMoves, Tidy;
  }

  lemma {:induction false} StandsStill(config: Config, plan: nat -> Turn, remote: Remote)
    requires remote.Valid()
    ensures Acted(config, plan, remote.State(), remote.State())
  {
    WatchedReflexive(config, plan, remote.State());
  }

  lemma {:induction false} ValidIsSettled(remote: Remote)
    requires remote.Valid()
    ensures Settled(remote.State())
  {
  }
}
