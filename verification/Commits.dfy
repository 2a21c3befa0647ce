/** Commits as a graph of values, and which commits a DataRescue case owns.

    A commit contains its parents, so the graph cannot have a cycle; `oid` stands for the
    commit id that git computes.
 */
module Commits {
  import opened Model

  datatype Commit = Commit(parents: seq<Commit>, message: string, tree: map<string, string>, stamp: nat)

  // ---- History ----

  /** The commits reachable from a commit, itself included. */
  function History(c: Commit): set<Commit>
    decreases c, 0
  {
    {c} + Histories(c.parents)
  }

  function Histories(parents: seq<Commit>): set<Commit>
    decreases parents, 1
  {
    if parents == [] then {} else History(parents[0]) + Histories(parents[1..])
  }

  function Height(c: Commit): nat
    decreases c, 0
  {
    1 + Heights(c.parents)
  }

  function Heights(parents: seq<Commit>): nat
    decreases parents, 1
  {
    if parents == [] then 0 else
      var rest := Heights(parents[1..]);
      if Height(parents[0]) > rest then Height(parents[0]) else rest
  }

  lemma {:induction false} HistoryIsLower(c: Commit, x: Commit)
    requires x in History(c)
    ensures x == c || Height(x) < Height(c)
    decreases c, 0
  {
    if x != c {
      HistoriesAreLower(c.parents, x);
    }
  }

  lemma {:induction false} HistoriesAreLower(parents: seq<Commit>, x: Commit)
    requires x in Histories(parents)
    ensures Height(x) <= Heights(parents)
    decreases parents, 1
  {
    if x in History(parents[0]) {
      HistoryIsLower(parents[0], x);
    } else {
      HistoriesAreLower(parents[1..], x);
    }
  }

  lemma {:induction false} HistoryIsTransitive(c: Commit, b: Commit)
    requires b in History(c)
    ensures History(b) <= History(c)
    decreases c, 0
  {
    if b != c {
      HistoriesAreTransitive(c.parents, b);
    }
  }

  lemma {:induction false} HistoriesAreTransitive(parents: seq<Commit>, b: Commit)
    requires b in Histories(parents)
    ensures History(b) <= Histories(parents)
    decreases parents, 1
  {
    if b in History(parents[0]) {
      HistoryIsTransitive(parents[0], b);
    } else {
      HistoriesAreTransitive(parents[1..], b);
    }
  }

  /** With a single parent, what the commit adds to its parent's history is the commit alone:
      it cannot be in the history of its own parent. */
  lemma {:induction false} SingleParentRange(commit: Commit, parent: Commit)
    requires commit.parents == [parent]
    ensures History(commit) - History(parent) == {commit}
  {
    assert Histories([parent]) == History(parent) + Histories([]);
    assert Heights([parent]) == Height(parent);
    if commit in History(parent) {
      HistoryIsLower(parent, commit);
    }
  }

  // ---- Texts ----

  /** Where `str.splitlines` ends a line. */
  predicate IsBreak(c: char) {
    c in {'\n', '\r', '\U{000B}', '\U{000C}', '\U{001C}', '\U{001D}', '\U{001E}', '\U{0085}', '\U{2028}', '\U{2029}'}
  }

  predicate NoBreak(text: string) {
    forall i :: 0 <= i < |text| ==> !IsBreak(text[i])
  }

  /** The universal-newline translation of text read from a command. */
  function ReadText(text: string): string {
    if text == "" then ""
    else if text[0] == '\r' then
      "\n" + ReadText(if |text| > 1 && text[1] == '\n' then text[2..] else text[1..])
    else text[..1] + ReadText(text[1..])
  }

  function BreakAt(text: string): (n: nat)
    ensures n <= |text| && (n < |text| ==> IsBreak(text[n]))
    ensures forall i :: 0 <= i < n ==> !IsBreak(text[i])
  {
    if text == "" || IsBreak(text[0]) then 0 else 1 + BreakAt(text[1..])
  }

  function Lines(text: string): seq<string> {
    if text == "" then []
    else
      var n := BreakAt(text);
      if n == |text| then [text] else [text[..n]] + Lines(text[n + 1..])
  }

  /** Reading a text back changes it exactly when it has a carriage return. */
  lemma {:induction false} ReadTextKeeps(text: string)
    ensures '\r' !in ReadText(text)
    ensures '\r' !in text ==> ReadText(text) == text
    ensures ReadText(text) == text <==> '\r' !in text
  {
    if text != "" {
      if text[0] == '\r' {
        ReadTextKeeps(if |text| > 1 && text[1] == '\n' then text[2..] else text[1..]);
        assert ReadText(text)[0] != text[0];
      } else {
        ReadTextKeeps(text[1..]);
        assert text == text[..1] + text[1..];
      }
    }
  }

  lemma {:induction false} LinesHaveNoBreak(text: string)
    ensures forall i :: 0 <= i < |Lines(text)| ==> NoBreak(Lines(text)[i])
  {
    if text != "" {
      var n := BreakAt(text);
      assert text[..|text|] == text;
      if n < |text| {
        LinesHaveNoBreak(text[n + 1..]);
      }
    }
  }

  lemma {:induction false} BreakAtEnd(line: string, rest: string)
    requires NoBreak(line) && (rest == "" || IsBreak(rest[0]))
    ensures BreakAt(line + rest) == |line|
  {
    if line == "" {
      assert line + rest == rest;
    } else {
      assert (line + rest)[1..] == line[1..] + rest;
      BreakAtEnd(line[1..], rest);
    }
  }

  lemma {:induction false} LinesCons(line: string, rest: string)
    requires NoBreak(line)
    ensures Lines(line + "\n" + rest) == [line] + Lines(rest)
    ensures line != "" ==> Lines(line) == [line]
  {
    var text := line + ("\n" + rest);
    assert line + "\n" + rest == text;
    BreakAtEnd(line, "\n" + rest);
    assert text[..|line|] == line && text[|line| + 1..] == rest;
    BreakAtEnd(line, "");
    assert line + "" == line;
  }

  // ---- Commit messages ----

  const SUBJECT := "fix(data): recover schema drift for "
  const CASE := "DataRescue-Case: "
  const PATCH := "DataRescue-Patch-SHA256: "
  const BASE := "DataRescue-Base-Commit: "
  const MARK := "DataRescue-"

  function Subject(caseId: string): string {
    SUBJECT + caseId
  }

  /** The lines, joined by newlines. */
  function Joined(lines: seq<string>): string
    requires lines != []
  {
    if |lines| == 1 then lines[0] else lines[0] + "\n" + Joined(lines[1..])
  }

  /** The message the adapter commits with. */
  function CommitMessage(caseId: string, patchSha256: string, baseCommit: string): string {
    Joined([Subject(caseId), "", CASE + caseId, PATCH + patchSha256, BASE + baseCommit])
  }

  /** The values of the lines with this prefix. */
  function Trailers(lines: seq<string>, prefix: string): seq<string> {
    if lines == [] then []
    else (if prefix <= lines[0] then [lines[0][|prefix|..]] else []) + Trailers(lines[1..], prefix)
  }

  predicate Tagged(lines: seq<string>) {
    exists i :: 1 <= i < |lines| && MARK <= lines[i]
  }

  /** `git show --format=%B` prints the message and one more newline. */
  function MessageLines(c: Commit): seq<string> {
    Lines(ReadText(c.message + "\n"))
  }

  // ---- What `git commit -m` makes of a message ----

  /** Git's white space. */
  predicate IsBlank(c: char) {
    c in {' ', '\t', '\n', '\r'}
  }

  function Stripped(line: string): string {
    if line != "" && IsBlank(line[|line| - 1]) then Stripped(line[..|line| - 1]) else line
  }

  function NewlineAt(text: string): (n: nat)
    ensures n <= |text| && (n < |text| ==> text[n] == '\n')
    ensures forall i :: 0 <= i < n ==> text[i] != '\n'
  {
    if text == "" || text[0] == '\n' then 0 else 1 + NewlineAt(text[1..])
  }

  /** The white-space clean-up: no blanks at the end of a line, no empty lines at either end,
      no two in a row, and a newline after every line. `begun` says that a line was kept before,
      `empty` that empty lines were skipped since. */
  function Cleaned(text: string, begun: bool, empty: bool): string
    decreases |text|
  {
    if text == "" then ""
    else
      var n := NewlineAt(text);
      var line := Stripped(text[..n]);
      var rest := if n == |text| then "" else text[n + 1..];
      if line == "" then Cleaned(rest, begun, true)
      else (if begun && empty then "\n" + line else line) + "\n" + Cleaned(rest, true, false)
  }

  /** On one line, and the line does not end in a blank: the clean-up keeps it. */
  predicate Word(text: string) {
    text != "" && NoBreak(text) && !IsBlank(text[|text| - 1])
  }

  lemma {:induction false} NewlineAtEnd(line: string, rest: string)
    requires '\n' !in line
    ensures NewlineAt(line + "\n" + rest) == |line| && NewlineAt(line) == |line|
  {
    var text := line + "\n" + rest;
    if line != "" {
      assert text[1..] == line[1..] + "\n" + rest;
      NewlineAtEnd(line[1..], rest);
    }
  }

  lemma {:induction false} CleanedCons(line: string, rest: string, begun: bool, empty: bool)
    requires '\n' !in line
    ensures Cleaned(line + "\n" + rest, begun, empty) ==
            if Stripped(line) == "" then Cleaned(rest, begun, true)
            else (if begun && empty then "\n" + Stripped(line) else Stripped(line)) + "\n" + Cleaned(rest, true, false)
    ensures Stripped(line) != "" ==>
            Cleaned(line, begun, empty) == (if begun && empty then "\n" + Stripped(line) else Stripped(line)) + "\n"
  {
    var text := line + "\n" + rest;
    NewlineAtEnd(line, rest);
    assert text[..|line|] == line && text[|line| + 1..] == rest;
    assert line[..|line|] == line;
    if Stripped(line) != "" {
      var kept := (if begun && empty then "\n" + Stripped(line) else Stripped(line)) + "\n";
      assert kept + "" == kept;
    }
  }

  lemma {:induction false} WordIsKept(prefix: string, word: string)
    requires Word(word) && NoBreak(prefix)
    ensures Word(prefix + word) && Stripped(prefix + word) == prefix + word && '\n' !in prefix + word
  {
    NoBreakPlus(prefix, word);
    assert (prefix + word)[|prefix + word| - 1] == word[|word| - 1];
    assert forall i :: 0 <= i < |prefix + word| ==> !IsBreak((prefix + word)[i]);
  }

  lemma {:induction false} StrippedIsPrefix(line: string)
    ensures Stripped(line) <= line
    ensures Stripped(line) == line <==> line == "" || !IsBlank(line[|line| - 1])
    ensures line != "" && !IsBlank(line[0]) ==> Stripped(line) != ""
  {
    if line != "" && IsBlank(line[|line| - 1]) {
      StrippedIsPrefix(line[..|line| - 1]);
    }
  }

  /** The clean-up changes nothing in the adapter's message but to end its last line. */
  lemma {:induction false} CleanUpKeeps(caseId: string, sha: string, base: string)
    requires Word(caseId) && Word(sha) && Word(base)
    ensures Cleaned(CommitMessage(caseId, sha, base), false, false) == CommitMessage(caseId, sha, base) + "\n"
  {
    ConstantsHaveNoBreak();
    WordIsKept(SUBJECT, caseId);
    WordIsKept(CASE, caseId);
    WordIsKept(PATCH, sha);
    WordIsKept(BASE, base);
    hide Word, NoBreak, Cleaned, Stripped, Joined;
    CleanedFive(Subject(caseId), CASE + caseId, PATCH + sha, BASE + base);
  }

  predicate Clean(line: string) {
    line != "" && Stripped(line) == line && '\n' !in line
  }

  lemma {:induction false} CleanedFive(l0: string, l2: string, l3: string, l4: string)
    requires Clean(l0) && Clean(l2) && Clean(l3) && Clean(l4)
    ensures var text := Joined([l0, "", l2, l3, l4]);
            Cleaned(text, false, false) == text + "\n"
  {
    hide Cleaned, Stripped, Joined;
    assert Stripped("") == "" by { StrippedIsPrefix(""); }
    FiveLines(l0, l2, l3, l4);
    var rest3 := l3 + "\n" + l4;
    var rest2 := l2 + "\n" + rest3;
    var rest1 := "" + "\n" + rest2;
    CleanedCons(l4, "", true, false);
    CleanedCons(l3, l4, true, false);
    CleanedCons(l2, rest3, true, true);
    CleanedCons("", rest2, true, false);
    CleanedCons(l0, rest1, false, false);
    SameText(l0, l2, l3, l4);
  }

  lemma {:induction false} SameText(l0: string, l2: string, l3: string, l4: string)
    ensures l0 + "\n" + ("\n" + l2 + "\n" + (l3 + "\n" + (l4 + "\n")))
            == l0 + "\n" + ("" + "\n" + (l2 + "\n" + (l3 + "\n" + l4))) + "\n"
  {
    var a := l3 + "\n" + (l4 + "\n");
    var b := l3 + "\n" + l4;
    assert a == b + "\n";
    assert "\n" + l2 + "\n" + a == "" + "\n" + (l2 + "\n" + b) + "\n";
  }

  lemma {:induction false} FiveLines(l0: string, l2: string, l3: string, l4: string)
    ensures Joined([l0, "", l2, l3, l4]) == l0 + "\n" + ("" + "\n" + (l2 + "\n" + (l3 + "\n" + l4)))
  {
    hide Joined;
    JoinedUnfolds([l0, "", l2, l3, l4]);
    JoinedUnfolds(["", l2, l3, l4]);
    JoinedUnfolds([l2, l3, l4]);
    JoinedUnfolds([l3, l4]);
    JoinedUnfolds([l4]);
    assert [l0, "", l2, l3, l4][1..] == ["", l2, l3, l4] && ["", l2, l3, l4][1..] == [l2, l3, l4];
    assert [l2, l3, l4][1..] == [l3, l4] && [l3, l4][1..] == [l4];
  }

  /** A subject that ends in a blank loses it. */
  lemma {:induction false} CleanUpCuts(caseId: string, sha: string, base: string)
    requires NoBreak(caseId) && !Word(caseId)
    ensures var lines := Lines(ReadText(Cleaned(CommitMessage(caseId, sha, base), false, false) + "\n"));
            lines != [] && lines[0] != Subject(caseId)
  {
    ConstantsHaveNoBreak();
    NoBreakPlus(SUBJECT, caseId);
    var l0, l2, l3, l4 := Subject(caseId), CASE + caseId, PATCH + sha, BASE + base;
    StrippedIsPrefix(l0);
    var kept := Stripped(l0);
    assert l0[|l0| - 1] == if caseId == "" then SUBJECT[|SUBJECT| - 1] else caseId[|caseId| - 1];
    assert kept != l0 && kept != "" && NoBreak(kept) && '\n' !in l0;
    CutFirst(l0, l2, l3, l4);
  }

  lemma {:induction false} CutFirst(l0: string, l2: string, l3: string, l4: string)
    requires Stripped(l0) != "" && NoBreak(Stripped(l0)) && '\n' !in l0
    ensures var lines := Lines(ReadText(Cleaned(Joined([l0, "", l2, l3, l4]), false, false) + "\n"));
            lines != [] && lines[0] == Stripped(l0)
  {
    hide Cleaned, Stripped, Lines, ReadText, NoBreak, Joined;
    FiveLines(l0, l2, l3, l4);
    var rest := "" + "\n" + (l2 + "\n" + (l3 + "\n" + l4));
    CleanedCons(l0, rest, false, false);
    var more := Cleaned(rest, true, false) + "\n";
    assert Cleaned(l0 + "\n" + rest, false, false) + "\n" == Stripped(l0) + "\n" + more;
    FirstLine(Stripped(l0), more);
  }

  lemma {:induction false} FirstLine(line: string, rest: string)
    requires NoBreak(line)
    ensures var lines := Lines(ReadText(line + "\n" + rest));
            lines != [] && lines[0] == line
  {
    ReadTextPlus(line, "\n" + rest);
    assert ReadText("\n" + rest) == "\n" + ReadText(rest) by {
      assert ("\n" + rest)[1..] == rest;
    }
    assert line + "\n" + rest == line + ("\n" + rest);
    assert line + ("\n" + ReadText(rest)) == line + "\n" + ReadText(rest);
    LinesCons(line, ReadText(rest));
  }

  lemma {:induction false} ReadTextPlus(line: string, rest: string)
    requires NoBreak(line)
    ensures ReadText(line + rest) == line + ReadText(rest)
  {
    if line == "" {
      assert line + rest == rest;
    } else {
      assert !IsBreak(line[0]);
      assert (line + rest)[1..] == line[1..] + rest;
      ReadTextPlus(line[1..], rest);
    }
  }

  lemma {:induction false} NoBreakPlus(a: string, b: string)
    ensures NoBreak(a + b) <==> NoBreak(a) && NoBreak(b)
  {
    assert forall i :: 0 <= i < |a| ==> (a + b)[i] == a[i];
    assert forall i :: 0 <= i < |b| ==> (a + b)[|a| + i] == b[i];
  }

  lemma {:induction false} SubjectHasNoBreak()
    ensures NoBreak(SUBJECT)
  {
  }

  lemma {:induction false} MarksHaveNoBreak()
    ensures NoBreak(CASE) && NoBreak(BASE)
  {
  }

  lemma {:induction false} PatchMarkHasNoBreak()
    ensures NoBreak(PATCH)
  {
  }

  lemma {:induction false} ConstantsHaveNoBreak()
    ensures NoBreak(SUBJECT) && NoBreak(CASE) && NoBreak(PATCH) && NoBreak(BASE)
  {
    hide NoBreak;
    SubjectHasNoBreak();
    MarksHaveNoBreak();
    PatchMarkHasNoBreak();
  }

  lemma {:induction false} JoinedLines(lines: seq<string>)
    requires lines != [] && forall i :: 0 <= i < |lines| ==> NoBreak(lines[i])
    ensures Lines(ReadText(Joined(lines) + "\n")) == lines
  {
    hide *;
    NoReturn(lines);
    ReadTextKeeps(Joined(lines) + "\n");
    TerminatedLines(lines);
  }

  lemma {:induction false} TerminatedLines(lines: seq<string>)
    requires lines != [] && forall i :: 0 <= i < |lines| ==> NoBreak(lines[i])
    ensures Lines(Joined(lines) + "\n") == lines
  {
    hide *;
    var line := lines[0];
    JoinedUnfolds(lines);
    if |lines| == 1 {
      LinesCons(line, "");
      NoLines();
      assert line + "\n" + "" == line + "\n";
    } else {
      var rest := lines[1..];
      TerminatedLines(rest);
      LinesCons(line, Joined(rest) + "\n");
      assert Joined(lines) + "\n" == line + "\n" + (Joined(rest) + "\n");
      assert lines == [line] + rest;
    }
  }

  lemma {:induction false} NoLines()
    ensures Lines("") == []
  {
  }

  lemma {:induction false} JoinedUnfolds(lines: seq<string>)
    requires lines != []
    ensures Joined(lines) == if |lines| == 1 then lines[0] else lines[0] + "\n" + Joined(lines[1..])
    ensures |lines| == 1 ==> lines == [lines[0]]
  {
  }

  lemma {:induction false} NoReturn(lines: seq<string>)
    requires lines != [] && forall i :: 0 <= i < |lines| ==> NoBreak(lines[i])
    ensures '\r' !in Joined(lines)
  {
    var line := lines[0];
    assert forall i :: 0 <= i < |line| ==> !IsBreak(line[i]);
    if |lines| > 1 {
      NoReturn(lines[1..]);
    }
  }

  /** The lines of the adapter's message, as they are shown. */
  function ShownLines(caseId: string, sha: string, base: string): seq<string> {
    [Subject(caseId), "", CASE + caseId, PATCH + sha, BASE + base, ""]
  }

  /** What the adapter's message reads back as, cleaned up by git and shown again. */
  lemma {:induction false} CreatedLines(caseId: string, sha: string, base: string)
    requires Word(caseId) && Word(sha) && Word(base)
    ensures Lines(ReadText(Cleaned(CommitMessage(caseId, sha, base), false, false) + "\n"))
            == ShownLines(caseId, sha, base)
  {
    ConstantsHaveNoBreak();
    NoBreakPlus(SUBJECT, caseId);
    NoBreakPlus(CASE, caseId);
    NoBreakPlus(PATCH, sha);
    NoBreakPlus(BASE, base);
    assert NoBreak("");
    CleanUpKeeps(caseId, sha, base);
    hide NoBreak, Lines, ReadText, Cleaned, SUBJECT, CASE, PATCH, BASE;
    var l0, l2, l3, l4 := Subject(caseId), CASE + caseId, PATCH + sha, BASE + base;
    JoinedLines([l0, "", l2, l3, l4, ""]);
    FiveLines(l0, l2, l3, l4);
    SixLines(l0, l2, l3, l4);
  }

  lemma {:induction false} SixLines(l0: string, l2: string, l3: string, l4: string)
    ensures Joined([l0, "", l2, l3, l4, ""]) == Joined([l0, "", l2, l3, l4]) + "\n"
  {
    FiveLines(l0, l2, l3, l4);
    hide Joined;
    JoinedUnfolds([l0, "", l2, l3, l4, ""]);
    JoinedUnfolds(["", l2, l3, l4, ""]);
    JoinedUnfolds([l2, l3, l4, ""]);
    JoinedUnfolds([l3, l4, ""]);
    JoinedUnfolds([l4, ""]);
    JoinedUnfolds([""]);
    assert [l0, "", l2, l3, l4, ""][1..] == ["", l2, l3, l4, ""] && ["", l2, l3, l4, ""][1..] == [l2, l3, l4, ""];
    assert [l2, l3, l4, ""][1..] == [l3, l4, ""] && [l3, l4, ""][1..] == [l4, ""] && [l4, ""][1..] == [""];
  }

  // ---- Ownership ----

  function Range(from: Commit, to: Commit): set<Commit> {
    History(to) - History(from)
  }

  /** The paths at which two trees differ. */
  function Changed(before: map<string, string>, after: map<string, string>): set<string> {
    set path | path in before.Keys + after.Keys && (path !in before || path !in after || before[path] != after[path])
  }

  /** `_commit_is_owned`: yes, no, or a command that fails. */
  function CommitIsOwned(oid: Commit -> string, commit: Commit, caseId: string, patch: Patch, path: string,
        base: Commit): Answer<bool> {
    var lines := MessageLines(commit);
    if lines == [] || lines[0] != Subject(caseId) then Reply(false)
    else if |commit.parents| != 1 then Reply(false)
    else
      var parent := commit.parents[0];
      if Tagged(lines)
         && (|| Trailers(lines, CASE) != [caseId]
             || Trailers(lines, PATCH) != [patch.sha256]
             || Trailers(lines, BASE) != [oid(parent)])
      then Reply(false)
      else if parent !in History(base) then Reply(false)
      else if Range(parent, commit) != {commit} then Reply(false)
      else if Changed(parent.tree, commit.tree) != {path} then Reply(false)
      else if path !in commit.tree then Raise
      else Reply(ReadText(commit.tree[path]) == patch.content)
  }

  /** The message is this case's: its subject, and either this case's trailers or none. */
  ghost predicate ClaimsCase(oid: Commit -> string, commit: Commit, caseId: string, patch: Patch) {
    var lines := MessageLines(commit);
    && lines != [] && lines[0] == Subject(caseId) && |commit.parents| == 1
    && (Tagged(lines) ==>
        && Trailers(lines, CASE) == [caseId]
        && Trailers(lines, PATCH) == [patch.sha256]
        && Trailers(lines, BASE) == [oid(commit.parents[0])])
  }

  /** One step on top of base history that does nothing but put the patch at the path. */
  ghost predicate PatchesOnly(commit: Commit, patch: Patch, path: string, base: Commit) {
    && |commit.parents| == 1
    && var parent := commit.parents[0];
       && parent in History(base)
       && path in commit.tree && ReadText(commit.tree[path]) == patch.content
       && commit.tree == parent.tree[path := commit.tree[path]]
       && commit.tree != parent.tree
  }

  lemma {:induction false} ChangedMeans(before: map<string, string>, after: map<string, string>, path: string)
    requires path in after
    ensures Changed(before, after) == {path} <==> after == before[path := after[path]] && after != before
  {
    var patched := before[path := after[path]];
    if Changed(before, after) == {path} {
      assert path in Changed(before, after);
      forall p | p != path ensures (p in before <==> p in after) && (p in before ==> before[p] == after[p]) {
        assert p !in Changed(before, after);
      }
      assert after == patched;
    }
    if after == patched {
      assert forall p :: p in Changed(before, after) ==> p == path;
      assert path !in Changed(before, after) ==> after == before;
    }
  }

  /** A commit is owned exactly when its message claims the case and it only applies the patch
      to a commit of base history. The range check decides nothing more: with one parent it
      cannot fail. */
  lemma {:induction false} OwnedMeans(oid: Commit -> string, commit: Commit, caseId: string, patch: Patch,
        path: string, base: Commit)
    ensures CommitIsOwned(oid, commit, caseId, patch, path, base) == Reply(true) <==>
            ClaimsCase(oid, commit, caseId, patch) && PatchesOnly(commit, patch, path, base)
  {
    if |commit.parents| == 1 {
      assert commit.parents == [commit.parents[0]];
      SingleParentRange(commit, commit.parents[0]);
      if path in commit.tree {
        ChangedMeans(commit.parents[0].tree, commit.tree, path);
      }
    }
    hide MessageLines, Subject, Trailers, Tagged, History, Changed, ReadText;
  }

  /** Ownership survives every fast-forward of the base. */
  lemma {:induction false} OwnershipSurvivesFastForward(oid: Commit -> string, commit: Commit, caseId: string,
        patch: Patch, path: string,
                                     base: Commit, later: Commit)
    requires CommitIsOwned(oid, commit, caseId, patch, path, base) == Reply(true)
    requires base in History(later)
    ensures CommitIsOwned(oid, commit, caseId, patch, path, later) == Reply(true)
  {
    OwnedMeans(oid, commit, caseId, patch, path, base);
    OwnedMeans(oid, commit, caseId, patch, path, later);
    HistoryIsTransitive(later, base);
    hide CommitIsOwned, ClaimsCase, ReadText;
  }

  // ---- The commits the adapter makes ----

  function Created(oid: Commit -> string, caseId: string, patch: Patch, path: string, base: Commit,
        stamp: nat): Commit {
    Commit([base], Cleaned(CommitMessage(caseId, patch.sha256, oid(base)), false, false),
        base.tree[path := patch.content], stamp)
  }

  lemma {:induction false} PrefixKept(prefix: string, value: string)
    ensures prefix <= prefix + value && (prefix + value)[|prefix|..] == value
  {
  }

  lemma {:induction false} PrefixDiffers(a: string, value: string, b: string, k: nat)
    requires k < |a| && k < |b| && a[k] != b[k]
    ensures !(b <= a + value)
  {
    assert (a + value)[k] == a[k];
  }

  lemma {:induction false} TrailersOf(l0: string, l2: string, l3: string, l4: string, prefix: string)
    ensures Trailers([l0, "", l2, l3, l4, ""], prefix) ==
            Trailers([l0], prefix) + Trailers([""], prefix) + Trailers([l2], prefix)
            + Trailers([l3], prefix) + Trailers([l4], prefix) + Trailers([""], prefix)
  {
    hide Trailers;
    TrailersPlus([l0], ["", l2, l3, l4, ""], prefix);
    TrailersPlus([""], [l2, l3, l4, ""], prefix);
    TrailersPlus([l2], [l3, l4, ""], prefix);
    TrailersPlus([l3], [l4, ""], prefix);
    TrailersPlus([l4], [""], prefix);
    assert [l0, "", l2, l3, l4, ""] == [l0] + ["", l2, l3, l4, ""];
    assert ["", l2, l3, l4, ""] == [""] + [l2, l3, l4, ""];
    assert [l2, l3, l4, ""] == [l2] + [l3, l4, ""];
    assert [l3, l4, ""] == [l3] + [l4, ""];
    assert [l4, ""] == [l4] + [""];
  }

  lemma {:induction false} TrailersPlus(a: seq<string>, b: seq<string>, prefix: string)
    requires |a| == 1
    ensures Trailers(a + b, prefix) == Trailers(a, prefix) + Trailers(b, prefix)
  {
    assert (a + b)[1..] == b && a[1..] == [];
  }

  lemma {:induction false} SingleTrailer(line: string, prefix: string, value: string)
    ensures line == prefix + value ==> Trailers([line], prefix) == [value]
    ensures !(prefix <= line) ==> Trailers([line], prefix) == []
  {
    PrefixKept(prefix, value);
    assert [line][1..] == [];
  }

  /** Each trailer of a created message is read back once, with the value it was written with. */
  lemma {:induction false} CreatedTrailers(caseId: string, sha: string, base: string)
    ensures var lines := ShownLines(caseId, sha, base);
            && Trailers(lines, CASE) == [caseId]
            && Trailers(lines, PATCH) == [sha]
            && Trailers(lines, BASE) == [base]
  {
    var l0, l2, l3, l4 := Subject(caseId), CASE + caseId, PATCH + sha, BASE + base;
    SubjectIsNoTrailer(caseId);
    PrefixDiffers(PATCH, sha, CASE, 11);
    PrefixDiffers(BASE, base, CASE, 11);
    PrefixDiffers(CASE, caseId, PATCH, 11);
    PrefixDiffers(BASE, base, PATCH, 11);
    PrefixDiffers(CASE, caseId, BASE, 11);
    PrefixDiffers(PATCH, sha, BASE, 11);
    hide Trailers, Subject;
    OneTrailer(l0, l2, l3, l4, CASE, caseId);
    OneTrailer(l0, l2, l3, l4, PATCH, sha);
    OneTrailer(l0, l2, l3, l4, BASE, base);
  }

  lemma {:induction false} EmptyAround(a: seq<string>, b: seq<string>, c: seq<string>)
    ensures [] + [] + a + b + c + [] == a + b + c
  {
    assert [] + [] + a == a;
  }

  lemma {:induction false} OneTrailer(l0: string, l2: string, l3: string, l4: string, prefix: string, value: string)
    requires !(prefix <= l0) && prefix != ""
    requires l2 == prefix + value || !(prefix <= l2)
    requires l3 == prefix + value || !(prefix <= l3)
    requires l4 == prefix + value || !(prefix <= l4)
    ensures Trailers([l0, "", l2, l3, l4, ""], prefix) ==
            (if l2 == prefix + value then [value] else [])
            + (if l3 == prefix + value then [value] else [])
            + (if l4 == prefix + value then [value] else [])
  {
    hide Trailers;
    TrailersOf(l0, l2, l3, l4, prefix);
    EmptyAround(Trailers([l2], prefix), Trailers([l3], prefix), Trailers([l4], prefix));
    PrefixKept(prefix, value);
    SingleTrailer(l0, prefix, value);
    SingleTrailer("", prefix, value);
    SingleTrailer(l2, prefix, value);
    SingleTrailer(l3, prefix, value);
    SingleTrailer(l4, prefix, value);
  }

  lemma {:induction false} SubjectIsNoTrailer(caseId: string)
    ensures !(CASE <= Subject(caseId)) && !(PATCH <= Subject(caseId)) && !(BASE <= Subject(caseId))
  {
    assert Subject(caseId)[0] == 'f';
    assert CASE[0] == 'D' && PATCH[0] == 'D' && BASE[0] == 'D';
  }

  /** Every commit the adapter makes on a base is accepted by the ownership check, now and after
      any fast-forward of the base - exactly when the case id stays on one line and does not end
      in a blank, which git would strip, and the patch has no carriage return, which reading it
      back would translate. */
  lemma {:induction false} CreatedIsOwned(oid: Commit -> string, caseId: string, patch: Patch, path: string,
        base: Commit, stamp: nat, later: Commit)
    requires base in History(later) && Word(patch.sha256) && Word(oid(base))
    requires path in base.tree ==> base.tree[path] != patch.content
    ensures CommitIsOwned(oid, Created(oid, caseId, patch, path, base, stamp), caseId, patch, path, later)
            == Reply(true)
            <==> Word(caseId) && '\r' !in patch.content
  {
    var c := Created(oid, caseId, patch, path, base, stamp);
    OwnedMeans(oid, c, caseId, patch, path, later);
    ReadTextKeeps(patch.content);
    assert PatchesOnly(c, patch, path, later) <==> '\r' !in patch.content by {
      hide ReadText, History, CommitMessage, Cleaned;
      assert c.tree[path] == patch.content;
      assert c.tree != base.tree;
    }
    hide CommitIsOwned, PatchesOnly, ReadText, Cleaned, Lines, Trailers, Tagged, CommitMessage;
    if Word(caseId) {
      CreatedLines(caseId, patch.sha256, oid(base));
      CreatedTrailers(caseId, patch.sha256, oid(base));
    } else if NoBreak(caseId) {
      CleanUpCuts(caseId, patch.sha256, oid(base));
    } else {
      LinesHaveNoBreak(ReadText(c.message + "\n"));
      NoBreakPlus(SUBJECT, caseId);
    }
  }
}
