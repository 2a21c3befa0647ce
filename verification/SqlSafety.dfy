/** The allowlisted rewrite of the staging model: one dbt default for another. */
module SqlSafety {
  import opened Model

  predicate LetterOrUnderscore(c: char) {
    'A' <= c <= 'Z' || 'a' <= c <= 'z' || c == '_'
  }

  predicate SafeIdentifier(value: string) {
    && 1 <= |value| <= 128
    && LetterOrUnderscore(value[0])
    && forall i :: 0 <= i < |value| ==> LetterOrUnderscore(value[i]) || '0' <= value[i] <= '9'
  }

  const UPPER := "ABCDEFGHIJKLMNOPQRSTUVWXYZ"
  const LOWER := "abcdefghijklmnopqrstuvwxyz"
  const DIGITS := "0123456789"

  /** The text spells consecutive characters from `first` on. */
  ghost predicate Consecutive(text: string, first: char) {
    forall i :: 0 <= i < |text| ==> text[i] as int == first as int + i
  }

  lemma {:induction false} InConsecutive(text: string, first: char, c: char)
    requires Consecutive(text, first)
    ensures c in text <==> first as int <= c as int < first as int + |text|
  {
    if first as int <= c as int < first as int + |text| {
      assert text[c as int - first as int] == c;
    }
  }

  lemma {:induction false} UpperIsConsecutive()
    ensures Consecutive(UPPER, 'A') && |UPPER| == 26
  {
  }

  lemma {:induction false} LowerIsConsecutive()
    ensures Consecutive(LOWER, 'a') && |LOWER| == 26
  {
  }

  lemma {:induction false} DigitsAreConsecutive()
    ensures Consecutive(DIGITS, '0') && |DIGITS| == 10
  {
  }

  lemma {:induction false} CharacterClasses(c: char)
    ensures LetterOrUnderscore(c) <==> c in UPPER || c in LOWER || c == '_'
    ensures '0' <= c <= '9' <==> c in DIGITS
  {
    hide Consecutive;
    UpperIsConsecutive();
    LowerIsConsecutive();
    DigitsAreConsecutive();
    hide UPPER, LOWER, DIGITS;
    InConsecutive(UPPER, 'A', c);
    InConsecutive(LOWER, 'a', c);
    InConsecutive(DIGITS, '0', c);
  }

  /** A safe identifier has 1 to 128 letters, digits and underscores, and no digit first. */
  lemma {:induction false} SafeIdentifierMeans(value: string)
    ensures SafeIdentifier(value) <==>
            && 1 <= |value| <= 128
            && value[0] !in DIGITS
            && forall i :: 0 <= i < |value| ==>
                 value[i] in UPPER || value[i] in LOWER || value[i] in DIGITS || value[i] == '_'
  {
    hide LetterOrUnderscore;
    forall i | 0 <= i < |value|
      ensures LetterOrUnderscore(value[i]) <==> value[i] in UPPER || value[i] in LOWER || value[i] == '_'
      ensures '0' <= value[i] <= '9' <==> value[i] in DIGITS
    {
      CharacterClasses(value[i]);
    }
    if |value| > 0 {
      DigitIsNoLetter(value[0]);
    }
  }

  lemma {:induction false} DigitIsNoLetter(c: char)
    ensures !(LetterOrUnderscore(c) && c in DIGITS)
  {
    CharacterClasses(c);
  }

  // ---- Text operations ----

  ghost predicate Occurs(text: string, pattern: string, i: int) {
    0 <= i <= i + |pattern| <= |text| && text[i..i + |pattern|] == pattern
  }

  /** Occurrences that do not overlap, counted from the left. */
  function Occurrences(text: string, pattern: string): nat
    requires pattern != ""
  {
    if |text| < |pattern| then 0
    else if pattern <= text then 1 + Occurrences(text[|pattern|..], pattern)
    else Occurrences(text[1..], pattern)
  }

  /** The text with the leftmost occurrence replaced. */
  function ReplaceFirst(text: string, pattern: string, replacement: string): string
    requires pattern != ""
  {
    if |text| < |pattern| then text
    else if pattern <= text then replacement + text[|pattern|..]
    else [text[0]] + ReplaceFirst(text[1..], pattern, replacement)
  }

  // ---- The patch ----

  // The statement and the call it makes; the proof looks through each for brackets.
  const STATEMENT := "{% set revenue_column = "
  const CALL := "env_var(\"DATARESCUE_REVENUE_COLUMN\", \""
  const PREFIX := STATEMENT + CALL
  const SUFFIX := "\") %}"

  /** The line that makes `column` the default revenue column. */
  function Default(column: string): string {
    PREFIX + column + SUFFIX
  }

  function RenderDbtPatch(proposal: Proposal, existing: string): Answer<string> {
    if !SafeIdentifier(proposal.sourceField) then Raise
    else if proposal.targetAlias != "revenue" then Raise
    else
      var before := Default("amount");
      var desired := Default(proposal.sourceField);
      var beforeCount := Occurrences(existing, before);
      var desiredCount := Occurrences(existing, desired);
      if beforeCount == 0 && desiredCount == 1 then Reply(existing)
      else if beforeCount != 1 || desiredCount != 0 then Raise
      else
        var patched := ReplaceFirst(existing, before, desired);
        if patched == existing then Raise else Reply(patched)
  }

  // ---- Patterns that cannot overlap ----

  /** A pattern that opens with the only '{' in it and closes with the only '}'. */
  ghost predicate Bracketed(pattern: string) {
    && |pattern| >= 2
    && (forall i :: 0 <= i < |pattern| ==> (pattern[i] == '{' <==> i == 0))
    && (forall i :: 0 <= i < |pattern| ==> (pattern[i] == '}' <==> i == |pattern| - 1))
  }

  lemma {:induction false} OccursAt(text: string, pattern: string, i: int, k: int)
    requires Occurs(text, pattern, i) && 0 <= k < |pattern|
    ensures text[i + k] == pattern[k]
  {
  }

  /** So occurrences of two such patterns are disjoint, unless they are one and the same. */
  lemma {:induction false} BracketedDisjoint(text: string, p: string, i: int, q: string, j: int)
    requires Bracketed(p) && Bracketed(q) && Occurs(text, p, i) && Occurs(text, q, j)
    requires i != j || p != q
    ensures i + |p| <= j || j + |q| <= i
  {
    OccursAt(text, p, i, 0);
    OccursAt(text, q, j, 0);
    OccursAt(text, p, i, |p| - 1);
    OccursAt(text, q, j, |q| - 1);
    if i < j < i + |p| {
      OccursAt(text, p, i, j - i);
    } else if j < i < j + |q| {
      OccursAt(text, q, j, i - j);
    } else if i == j && |p| < |q| {
      OccursAt(text, q, j, |p| - 1);
    } else if i == j && |q| < |p| {
      OccursAt(text, p, i, |q| - 1);
    }
  }

  lemma {:induction false} DefaultIsBracketed(column: string)
    requires SafeIdentifier(column)
    ensures Bracketed(Default(column))
  {
    assert forall i :: 0 <= i < |STATEMENT| ==> (STATEMENT[i] == '{' <==> i == 0) && STATEMENT[i] != '}';
    assert forall i :: 0 <= i < |CALL| ==> CALL[i] != '{' && CALL[i] != '}';
    assert forall i :: 0 <= i < |SUFFIX| ==> SUFFIX[i] != '{' && (SUFFIX[i] == '}' <==> i == |SUFFIX| - 1);
    var text := Default(column);
    forall i | 0 <= i < |text|
      ensures text[i] == '{' <==> i == 0
      ensures text[i] == '}' <==> i == |text| - 1
    {
      if i < |PREFIX| {
        assert text[i] == PREFIX[i];
      } else if i < |PREFIX| + |column| {
        assert text[i] == column[i - |PREFIX|];
      } else {
        assert text[i] == SUFFIX[i - |PREFIX| - |column|];
      }
    }
  }

  lemma {:induction false} DefaultsDiffer(a: string, b: string)
    requires a != b
    ensures Default(a) != Default(b)
  {
    assert Default(a)[|PREFIX|..|PREFIX| + |a|] == a;
    assert Default(b)[|PREFIX|..|PREFIX| + |b|] == b;
    assert |Default(a)| == |PREFIX| + |a| + |SUFFIX| && |Default(b)| == |PREFIX| + |b| + |SUFFIX|;
  }

  // ---- Counting and replacing ----

  lemma {:induction false} OccursInTail(text: string, pattern: string, n: nat, i: int)
    requires n <= |text|
    ensures i >= 0 ==> (Occurs(text[n..], pattern, i) <==> Occurs(text, pattern, n + i))
  {
    if 0 <= i && n + i + |pattern| <= |text| {
      assert text[n..][i..i + |pattern|] == text[n + i..n + i + |pattern|];
    }
  }

  lemma {:induction false} OccursAtStart(text: string, pattern: string)
    ensures Occurs(text, pattern, 0) <==> pattern <= text
  {
  }

  /** Past a position where the pattern does not start, occurrences are those of the tail. */
  lemma {:induction false} OccursAfterMiss(text: string, pattern: string)
    requires text != "" && !(pattern <= text)
    ensures forall i :: Occurs(text, pattern, i) <==> Occurs(text[1..], pattern, i - 1)
  {
    OccursAtStart(text, pattern);
    forall i ensures Occurs(text, pattern, i) <==> Occurs(text[1..], pattern, i - 1) {
      OccursInTail(text, pattern, 1, i - 1);
    }
  }

  lemma {:induction false} CountZero(text: string, pattern: string)
    requires pattern != ""
    ensures Occurrences(text, pattern) == 0 <==> forall i :: !Occurs(text, pattern, i)
    decreases |text|
  {
    if |text| >= |pattern| {
      OccursAtStart(text, pattern);
      if !(pattern <= text) {
        CountZero(text[1..], pattern);
        OccursAfterMiss(text, pattern);
        forall j | Occurs(text[1..], pattern, j) ensures Occurs(text, pattern, j + 1) {
          assert Occurs(text, pattern, j + 1) <==> Occurs(text[1..], pattern, j + 1 - 1);
        }
      }
    }
  }

  ghost predicate OnlyAt(text: string, pattern: string, i: int) {
    Occurs(text, pattern, i) && forall j :: Occurs(text, pattern, j) ==> j == i
  }

  /** Where a bracketed pattern starts the text, any other occurrence lies past it. */
  lemma {:induction false} OccursAfterHit(text: string, pattern: string, j: int)
    requires Bracketed(pattern) && pattern <= text && j != 0
    ensures Occurs(text, pattern, j) <==> Occurs(text[|pattern|..], pattern, j - |pattern|)
  {
    OccursAtStart(text, pattern);
    OccursInTail(text, pattern, |pattern|, j - |pattern|);
    if Occurs(text, pattern, j) {
      BracketedDisjoint(text, pattern, 0, pattern, j);
    }
  }

  /** A bracketed pattern is counted once exactly when it occurs at one place. */
  lemma {:induction false} CountOne(text: string, pattern: string) returns (i: int)
    requires Bracketed(pattern) && Occurrences(text, pattern) == 1
    ensures OnlyAt(text, pattern, i)
    decreases |text|
  {
    OccursAtStart(text, pattern);
    if pattern <= text {
      i := 0;
      CountZero(text[|pattern|..], pattern);
      forall j | Occurs(text, pattern, j) ensures j == 0 {
        if j != 0 {
          OccursAfterHit(text, pattern, j);
        }
      }
    } else {
      var k := CountOne(text[1..], pattern);
      i := k + 1;
      OccursAfterMiss(text, pattern);
      assert Occurs(text[1..], pattern, i - 1);
    }
  }

  /** An only occurrence that is not at the start is the only one of the tail. */
  lemma {:induction false} OnlyAtTail(text: string, pattern: string, i: int)
    requires pattern != "" && OnlyAt(text, pattern, i) && !(pattern <= text)
    ensures 1 <= i <= i + |pattern| <= |text| && OnlyAt(text[1..], pattern, i - 1)
  {
    OccursAtStart(text, pattern);
    OccursAfterMiss(text, pattern);
    forall j | Occurs(text[1..], pattern, j) ensures j == i - 1 {
      assert Occurs(text, pattern, j + 1);
    }
  }

  lemma {:induction false} OnlyAtIsCountOne(text: string, pattern: string, i: int)
    requires Bracketed(pattern) && OnlyAt(text, pattern, i)
    ensures Occurrences(text, pattern) == 1
    decreases |text|
  {
    OccursAtStart(text, pattern);
    if pattern <= text {
      forall j ensures !Occurs(text[|pattern|..], pattern, j) {
        if Occurs(text[|pattern|..], pattern, j) {
          OccursInTail(text, pattern, |pattern|, j);
        }
      }
      CountZero(text[|pattern|..], pattern);
    } else {
      OnlyAtTail(text, pattern, i);
      OnlyAtIsCountOne(text[1..], pattern, i - 1);
    }
  }

  /** The text with the n characters from i on replaced. */
  function Spliced(text: string, i: nat, n: nat, replacement: string): string
    requires i + n <= |text|
  {
    text[..i] + replacement + text[i + n..]
  }

  lemma {:induction false} SplicedLater(text: string, i: nat, n: nat, replacement: string)
    requires 1 <= i && i + n <= |text|
    ensures [text[0]] + Spliced(text[1..], i - 1, n, replacement) == Spliced(text, i, n, replacement)
  {
    assert [text[0]] + text[1..][..i - 1] == text[..i];
    assert text[1..][i - 1 + n..] == text[i + n..];
  }

  lemma {:induction false} ReplacedAtStart(text: string, pattern: string, replacement: string)
    requires pattern != "" && pattern <= text
    ensures ReplaceFirst(text, pattern, replacement) == Spliced(text, 0, |pattern|, replacement)
  {
    assert text[..0] + replacement == replacement;
  }

  lemma {:induction false} ReplacedLater(text: string, pattern: string, replacement: string)
    requires pattern != "" && |pattern| <= |text| && !(pattern <= text)
    ensures ReplaceFirst(text, pattern, replacement) == [text[0]] + ReplaceFirst(text[1..], pattern, replacement)
  {
  }

  /** Replacing the only occurrence changes that one slice. */
  lemma {:induction false} ReplaceChangesSlice(text: string, pattern: string, replacement: string, i: nat)
    requires pattern != "" && OnlyAt(text, pattern, i)
    ensures i + |pattern| <= |text|
    ensures ReplaceFirst(text, pattern, replacement) == Spliced(text, i, |pattern|, replacement)
    decreases |text|
  {
    OccursAtStart(text, pattern);
    if pattern <= text {
      ReplacedAtStart(text, pattern, replacement);
    } else {
      OnlyAtTail(text, pattern, i);
      hide OnlyAt, Occurs, ReplaceFirst, Spliced;
      ReplaceChangesSlice(text[1..], pattern, replacement, i - 1);
      ReplacedLater(text, pattern, replacement);
      SplicedLater(text, i, |pattern|, replacement);
    }
  }

  /** An occurrence clear of a replaced slice was there before, at the matching place. */
  lemma {:induction false} OccursOutsideSlice(text: string, i: int, p: string, q: string, pattern: string, j: int)
    requires Occurs(text, p, i) && Occurs(text[..i] + q + text[i + |p|..], pattern, j)
    requires j + |pattern| <= i || i + |q| <= j
    ensures Occurs(text, pattern, if j + |pattern| <= i then j else j - |q| + |p|)
  {
    var patched := text[..i] + q + text[i + |p|..];
    if j + |pattern| <= i {
      assert patched[j..j + |pattern|] == text[j..j + |pattern|];
    } else {
      var k := j - |q| + |p|;
      assert patched[j..j + |pattern|] == text[k..k + |pattern|];
    }
  }

  /** Swapping one bracketed default for another leaves the new one once and the old one nowhere. */
  lemma {:induction false} SwapCounts(text: string, i: int, p: string, q: string)
    requires Bracketed(p) && Bracketed(q) && p != q
    requires OnlyAt(text, p, i) && Occurrences(text, q) == 0
    ensures OnlyAt(text[..i] + q + text[i + |p|..], q, i)
    ensures Occurrences(text[..i] + q + text[i + |p|..], q) == 1
    ensures Occurrences(text[..i] + q + text[i + |p|..], p) == 0
  {
    var patched := text[..i] + q + text[i + |p|..];
    assert patched[i..i + |q|] == q;
    assert Occurs(patched, q, i);
    CountZero(text, q);
    forall j | Occurs(patched, q, j) ensures j == i {
      if j != i {
        BracketedDisjoint(patched, q, i, q, j);
        OccursOutsideSlice(text, i, p, q, q, j);
      }
    }
    OnlyAtIsCountOne(patched, q, i);
    forall j ensures !Occurs(patched, p, j) {
      if Occurs(patched, p, j) {
        BracketedDisjoint(patched, q, i, p, j);
        OccursOutsideSlice(text, i, p, q, p, j);
      }
    }
    CountZero(patched, p);
  }

  /** One slice of the input, an occurrence of `before`, became `after`. */
  ghost predicate SliceSwapped(existing: string, before: string, after: string, patched: string, i: int) {
    OnlyAt(existing, before, i) && patched == existing[..i] + after + existing[i + |before|..]
  }

  lemma {:induction false} RestoreSlice(existing: string, before: string, after: string, i: int)
    requires Occurs(existing, before, i)
    ensures var patched := existing[..i] + after + existing[i + |before|..];
            patched[..i] + before + patched[i + |after|..] == existing
  {
    var patched := existing[..i] + after + existing[i + |before|..];
    assert patched[i + |after|..] == existing[i + |before|..];
    assert existing == existing[..i] + existing[i..i + |before|] + existing[i + |before|..];
  }

  /** A swap of bracketed patterns, in counts and in how to undo it. */
  lemma {:induction false} SwapIsExact(existing: string, before: string, after: string) returns (i: int)
    requires Bracketed(before) && Bracketed(after) && before != after
    requires Occurrences(existing, before) == 1 && Occurrences(existing, after) == 0
    ensures var patched := ReplaceFirst(existing, before, after);
            && SliceSwapped(existing, before, after, patched, i)
            && Occurrences(patched, after) == 1
            && Occurrences(patched, before) == 0
            && patched != existing
            && ReplaceFirst(patched, after, before) == existing
  {
    i := CountOne(existing, before);
    ReplaceChangesSlice(existing, before, after, i);
    SwapCounts(existing, i, before, after);
    var patched := existing[..i] + after + existing[i + |before|..];
    ReplaceChangesSlice(patched, after, before, i);
    RestoreSlice(existing, before, after, i);
  }

  /** Where the rewrite succeeds: the result has the desired default once and the old one
      nowhere, rendering it again returns it unchanged, and either nothing was changed, or one
      slice was and putting the old default back restores the input. */
  lemma {:induction false} PatchIsExact(proposal: Proposal, existing: string)
    requires RenderDbtPatch(proposal, existing).Reply?
    ensures var before, desired := Default("amount"), Default(proposal.sourceField);
            var patched := RenderDbtPatch(proposal, existing).value;
            && Occurrences(patched, desired) == 1
            && Occurrences(patched, before) == 0
            && RenderDbtPatch(proposal, patched) == Reply(patched)
            && (patched != existing ==>
                && ReplaceFirst(patched, desired, before) == existing
                && exists i :: SliceSwapped(existing, before, desired, patched, i))
  {
    var before, desired := Default("amount"), Default(proposal.sourceField);
    if Occurrences(existing, before) == 1 {
      DefaultIsBracketed("amount");
      DefaultIsBracketed(proposal.sourceField);
      var i := SwapIsExact(existing, before, desired);
    }
  }

  /** A column of 1 to 128 letters, digits and underscores, no digit first, other than the old
      default; the one alias; and a model with one of the two defaults once and the other nowhere. */
  ghost predicate Patchable(column: string, alias: string, existing: string) {
    && 1 <= |column| <= 128
    && column[0] !in DIGITS
    && (forall i :: 0 <= i < |column| ==>
          column[i] in UPPER || column[i] in LOWER || column[i] in DIGITS || column[i] == '_')
    && column != "amount"
    && alias == "revenue"
    && Occurrences(existing, Default("amount")) + Occurrences(existing, Default(column)) == 1
  }

  /** The content has the column's default once and the old one nowhere, and it is the model as it
      was, or with the one slice that held the old default swapped. */
  ghost predicate PatchedFrom(column: string, existing: string, content: string) {
    && Occurrences(content, Default(column)) == 1
    && Occurrences(content, Default("amount")) == 0
    && if Occurrences(existing, Default("amount")) == 0 then content == existing
       else exists i :: SliceSwapped(existing, Default("amount"), Default(column), content, i)
  }

  lemma {:induction false} RenderedIsPatched(proposal: Proposal, existing: string)
    requires RenderDbtPatch(proposal, existing).Reply?
    ensures PatchedFrom(proposal.sourceField, existing, RenderDbtPatch(proposal, existing).value)
  {
    PatchIsExact(proposal, existing);
  }

  /** The rewrite succeeds exactly when the model is patchable. */
  lemma {:induction false} PatchSucceedsExactlyWhen(proposal: Proposal, existing: string)
    ensures RenderDbtPatch(proposal, existing).Reply? <==>
            Patchable(proposal.sourceField, proposal.targetAlias, existing)
  {
    SafeIdentifierMeans(proposal.sourceField);
    hide SafeIdentifier, LetterOrUnderscore;
    SucceedsForSafe(proposal, existing);
  }

  lemma {:induction false} SucceedsForSafe(proposal: Proposal, existing: string)
    ensures RenderDbtPatch(proposal, existing).Reply? <==>
            && SafeIdentifier(proposal.sourceField)
            && proposal.targetAlias == "revenue"
            && proposal.sourceField != "amount"
            && Occurrences(existing, Default("amount")) + Occurrences(existing, Default(proposal.sourceField)) == 1
  {
    if SafeIdentifier(proposal.sourceField) && proposal.sourceField != "amount" {
      var before, desired := Default("amount"), Default(proposal.sourceField);
      DefaultIsBracketed("amount");
      DefaultIsBracketed(proposal.sourceField);
      DefaultsDiffer("amount", proposal.sourceField);
      if Occurrences(existing, before) == 1 && Occurrences(existing, desired) == 0 {
        var i := SwapIsExact(existing, before, desired);
      }
    }
  }
}
