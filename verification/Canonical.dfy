/** Canonical forms of schema-change events: when two deliveries are the same event. */
module Canonical {
  import opened Model

  // ---- Sorting by a total order ----

  ghost predicate TotalPreorder<T(!new)>(le: (T, T) -> bool) {
    && (forall a, b :: le(a, b) || le(b, a))
    && (forall a, b, c :: le(a, b) && le(b, c) ==> le(a, c))
  }

  ghost predicate TotalOrder<T(!new)>(le: (T, T) -> bool) {
    TotalPreorder(le) && forall a, b :: le(a, b) && le(b, a) ==> a == b
  }

  ghost predicate SortedBy<T>(le: (T, T) -> bool, s: seq<T>) {
    forall i, j :: 0 <= i < j < |s| ==> le(s[i], s[j])
  }

  function Insert<T>(le: (T, T) -> bool, x: T, s: seq<T>): seq<T> {
    if s == [] then [x]
    else if le(x, s[0]) then [x] + s
    else [s[0]] + Insert(le, x, s[1..])
  }

  function Sort<T>(le: (T, T) -> bool, s: seq<T>): seq<T> {
    if s == [] then [] else Insert(le, s[0], Sort(le, s[1..]))
  }

  lemma {:induction false} InsertKeepsElements<T(!new)>(le: (T, T) -> bool, x: T, s: seq<T>)
    ensures multiset(Insert(le, x, s)) == multiset(s) + multiset{x}
  {
    if s != [] {
      assert s == [s[0]] + s[1..];
      InsertKeepsElements(le, x, s[1..]);
    }
  }

  lemma {:induction false} InsertSorts<T(!new)>(le: (T, T) -> bool, x: T, s: seq<T>)
    requires TotalPreorder(le) && SortedBy(le, s)
    ensures SortedBy(le, Insert(le, x, s))
  {
    if s != [] {
      assert le(x, s[0]) || le(s[0], x);
      if le(x, s[0]) {
        forall j | 0 <= j < |s| ensures le(x, s[j]) {
          assert le(x, s[0]) && (j > 0 ==> le(s[0], s[j]));
        }
      } else {
        InsertSorts(le, x, s[1..]);
        InsertKeepsElements(le, x, s[1..]);
        var rest := Insert(le, x, s[1..]);
        forall j | 0 <= j < |rest| ensures le(s[0], rest[j]) {
          assert rest[j] in multiset(rest);
          assert rest[j] == x || rest[j] in s[1..];
        }
      }
    }
  }

  lemma {:induction false} SortSorts<T(!new)>(le: (T, T) -> bool, s: seq<T>)
    requires TotalPreorder(le)
    ensures SortedBy(le, Sort(le, s)) && multiset(Sort(le, s)) == multiset(s)
  {
    if s != [] {
      assert s == [s[0]] + s[1..];
      SortSorts(le, s[1..]);
      InsertSorts(le, s[0], Sort(le, s[1..]));
      InsertKeepsElements(le, s[0], Sort(le, s[1..]));
    }
  }

  lemma {:induction false} TailElements<T>(s: seq<T>)
    requires s != []
    ensures multiset(s[1..]) == multiset(s) - multiset{s[0]}
  {
    assert s == [s[0]] + s[1..];
  }

  lemma {:induction false} SameEmpty<T>(a: seq<T>, b: seq<T>)
    requires multiset(a) == multiset(b)
    ensures |a| == |b|
  {
    assert |multiset(a)| == |a| && |multiset(b)| == |b|;
  }

  lemma {:induction false} SameCons<T>(a: seq<T>, b: seq<T>)
    requires a != [] && b != [] && a[0] == b[0] && a[1..] == b[1..]
    ensures a == b
  {
    assert a == [a[0]] + a[1..] && b == [b[0]] + b[1..];
  }

  lemma {:induction false} TailsAgree<T(!new)>(le: (T, T) -> bool, a: seq<T>, b: seq<T>)
    requires SortedBy(le, a) && SortedBy(le, b) && multiset(a) == multiset(b)
    requires a != [] && b != [] && a[0] == b[0]
    ensures SortedBy(le, a[1..]) && SortedBy(le, b[1..]) && multiset(a[1..]) == multiset(b[1..])
  {
    TailElements(a);
    TailElements(b);
  }

  /** Each of two sorted lists of the same elements begins with the least of them. */
  lemma {:induction false} HeadsAgree<T(!new)>(le: (T, T) -> bool, a: seq<T>, b: seq<T>)
    requires TotalOrder(le) && SortedBy(le, a) && SortedBy(le, b)
    requires a != [] && b != [] && multiset(a) == multiset(b)
    ensures a[0] == b[0]
  {
    assert a[0] in multiset(b) && b[0] in multiset(a);
    var i :| 0 <= i < |b| && b[i] == a[0];
    var j :| 0 <= j < |a| && a[j] == b[0];
    assert le(b[0], b[i]) && le(a[0], a[j]) by { HeadIsLeast(le, a, j); HeadIsLeast(le, b, i); }
  }

  lemma {:induction false} HeadIsLeast<T(!new)>(le: (T, T) -> bool, s: seq<T>, i: nat)
    requires TotalOrder(le) && SortedBy(le, s) && i < |s|
    ensures le(s[0], s[i])
  {
    assert le(s[0], s[0]) || i > 0 ==> le(s[0], s[i]);
  }

  lemma {:induction false} SortedIsUnique<T(!new)>(le: (T, T) -> bool, a: seq<T>, b: seq<T>)
    requires TotalOrder(le) && SortedBy(le, a) && SortedBy(le, b)
    requires multiset(a) == multiset(b)
    ensures a == b
  {
    hide TotalOrder, SortedBy;
    SameEmpty(a, b);
    if a != [] {
      HeadsAgree(le, a, b);
      TailsAgree(le, a, b);
      SortedIsUnique(le, a[1..], b[1..]);
      SameCons(a, b);
    }
  }

  /** Sorting by a total order is canonical: equal results mean equal multisets. */
  lemma {:induction false} SortIsCanonical<T(!new)>(le: (T, T) -> bool, a: seq<T>, b: seq<T>)
    requires TotalOrder(le)
    ensures Sort(le, a) == Sort(le, b) <==> multiset(a) == multiset(b)
  {
    SortSorts(le, a);
    SortSorts(le, b);
    if multiset(a) == multiset(b) {
      SortedIsUnique(le, Sort(le, a), Sort(le, b));
    }
  }

  // ---- The orders in use ----

  /** Text order: by the first code point that differs, a prefix first. */
  predicate TextLe(a: string, b: string) {
    a == [] || (b != [] && (a[0] < b[0] || (a[0] == b[0] && TextLe(a[1..], b[1..]))))
  }

  lemma {:induction false} TextLeTotal(a: string, b: string)
    ensures TextLe(a, b) || TextLe(b, a)
    ensures TextLe(a, b) && TextLe(b, a) ==> a == b
  {
    if a != [] && b != [] {
      TextLeTotal(a[1..], b[1..]);
      assert a == [a[0]] + a[1..] && b == [b[0]] + b[1..];
    }
  }

  lemma {:induction false} TextLeTransitive(a: string, b: string, c: string)
    requires TextLe(a, b) && TextLe(b, c)
    ensures TextLe(a, c)
  {
    if a != [] && a[0] == b[0] == c[0] {
      TextLeTransitive(a[1..], b[1..], c[1..]);
    }
  }

  /** One text is a prefix of the other, or is less at the first place where they differ. */
  lemma {:induction false} TextLeMeans(a: string, b: string)
    ensures TextLe(a, b) <==>
            a <= b || exists k :: 0 <= k < |a| && k < |b| && a[..k] == b[..k] && a[k] < b[k]
  {
    if a != [] && b != [] {
      if a[0] == b[0] {
        TextLeMeans(a[1..], b[1..]);
        TailsCompare(a, b);
      } else if a[0] < b[0] {
        assert a[..0] == b[..0];
      } else {
        forall k | 0 <= k < |a| && k < |b| && a[k] < b[k] ensures a[..k] != b[..k] {
          if k > 0 {
            assert a[..k][0] != b[..k][0];
          }
        }
      }
    }
  }

  /** With equal heads, two texts compare as their tails do. */
  lemma {:induction false} TailsCompare(a: string, b: string)
    requires a != [] && b != [] && a[0] == b[0]
    ensures a <= b <==> a[1..] <= b[1..]
    ensures (exists k :: 0 <= k < |a| && k < |b| && a[..k] == b[..k] && a[k] < b[k]) <==>
            (exists k :: 0 <= k < |a| - 1 && k < |b| - 1 && a[1..][..k] == b[1..][..k] && a[1..][k] < b[1..][k])
  {
    assert a == [a[0]] + a[1..] && b == [b[0]] + b[1..];
    forall k | 0 < k < |a| && k < |b| ensures a[..k] == b[..k] <==> a[1..][..k - 1] == b[1..][..k - 1] {
      assert a[..k] == [a[0]] + a[1..][..k - 1] && b[..k] == [b[0]] + b[1..][..k - 1];
      assert a[..k][1..] == a[1..][..k - 1] && b[..k][1..] == b[1..][..k - 1];
    }
    if k :| 0 <= k < |a| && k < |b| && a[..k] == b[..k] && a[k] < b[k] {
      assert k > 0 && a[1..][k - 1] < b[1..][k - 1] && a[1..][..k - 1] == b[1..][..k - 1];
    }
    if k :| 0 <= k < |a| - 1 && k < |b| - 1 && a[1..][..k] == b[1..][..k] && a[1..][k] < b[1..][k] {
      assert a[..k + 1] == b[..k + 1] <==> a[1..][..k + 1 - 1] == b[1..][..k + 1 - 1];
      assert a[k + 1] < b[k + 1];
    }
  }

  predicate FlagLe(a: bool, b: bool) {
    !a || b
  }

  /** The dedup key and the schema comparison sort by (name, type, nullable). */
  predicate NameFirst(a: SchemaField, b: SchemaField) {
    if a.name != b.name then TextLe(a.name, b.name)
    else if a.dataType != b.dataType then TextLe(a.dataType, b.dataType)
    else FlagLe(a.nullable, b.nullable)
  }

  /** Stored payloads sort by a field's serialised text, whose keys come in the order
      (type, name, nullable). */
  predicate TypeFirst(a: SchemaField, b: SchemaField) {
    if a.dataType != b.dataType then TextLe(a.dataType, b.dataType)
    else if a.name != b.name then TextLe(a.name, b.name)
    else FlagLe(a.nullable, b.nullable)
  }

  lemma {:induction false} FieldOrdersAreTotal()
    ensures TotalOrder(NameFirst) && TotalOrder(TypeFirst)
  {
    forall a: SchemaField, b: SchemaField
      ensures NameFirst(a, b) || NameFirst(b, a)
      ensures TypeFirst(a, b) || TypeFirst(b, a)
      ensures NameFirst(a, b) && NameFirst(b, a) ==> a == b
      ensures TypeFirst(a, b) && TypeFirst(b, a) ==> a == b
    {
      TextLeTotal(a.name, b.name);
      TextLeTotal(a.dataType, b.dataType);
    }
    forall a: SchemaField, b: SchemaField, c: SchemaField
      ensures NameFirst(a, b) && NameFirst(b, c) ==> NameFirst(a, c)
      ensures TypeFirst(a, b) && TypeFirst(b, c) ==> TypeFirst(a, c)
    {
      FieldOrdersTransitive(a, b, c);
    }
  }

  lemma {:induction false} FieldOrdersTransitive(a: SchemaField, b: SchemaField, c: SchemaField)
    ensures NameFirst(a, b) && NameFirst(b, c) ==> NameFirst(a, c)
    ensures TypeFirst(a, b) && TypeFirst(b, c) ==> TypeFirst(a, c)
  {
    TextLeTotal(a.name, b.name);
    TextLeTotal(b.name, c.name);
    TextLeTotal(a.dataType, b.dataType);
    TextLeTotal(b.dataType, c.dataType);
    if TextLe(a.name, b.name) && TextLe(b.name, c.name) {
      TextLeTransitive(a.name, b.name, c.name);
    }
    if TextLe(a.dataType, b.dataType) && TextLe(b.dataType, c.dataType) {
      TextLeTransitive(a.dataType, b.dataType, c.dataType);
    }
  }

  // ---- Canonical events ----

  /** Case folding, for ASCII letters. */
  function CaseFold(text: string): (folded: string)
    ensures |folded| == |text|
  {
    seq(|text|, i requires 0 <= i < |text| => FoldChar(text[i]))
  }

  function FoldChar(c: char): char {
    if 'A' <= c <= 'Z' then (c as int + 32) as char else c
  }

  /** The same character, or one is the capital of the other. */
  ghost predicate SameLetter(c: char, d: char) {
    || c == d
    || ('A' <= c <= 'Z' && d as int == c as int + 32)
    || ('A' <= d <= 'Z' && c as int == d as int + 32)
  }

  ghost predicate SameUpToCase(a: string, b: string) {
    |a| == |b| && forall i :: 0 <= i < |a| ==> SameLetter(a[i], b[i])
  }

  lemma {:induction false} CaseFoldMeans(a: string, b: string)
    ensures CaseFold(a) == CaseFold(b) <==> SameUpToCase(a, b)
  {
    if CaseFold(a) == CaseFold(b) {
      forall i | 0 <= i < |a| ensures SameLetter(a[i], b[i]) {
        assert CaseFold(a)[i] == CaseFold(b)[i];
      }
    }
    if SameUpToCase(a, b) {
      forall i | 0 <= i < |a| ensures FoldChar(a[i]) == FoldChar(b[i]) {
        assert SameLetter(a[i], b[i]);
      }
    }
  }

  datatype NormalEvent = NormalEvent(urn: string, before: seq<SchemaField>, after: seq<SchemaField>)

  function Normalized(change: SchemaChange): NormalEvent {
    NormalEvent(CaseFold(change.entityUrn), Sort(NameFirst, change.beforeFields), Sort(NameFirst, change.afterFields))
  }

  /** The dedup key is a digest of the canonical event; `digest` stands for SHA-256 of its text. */
  function DedupKey(digest: NormalEvent -> string, change: SchemaChange): string {
    digest(Normalized(change))
  }

  predicate SameSchema(before: seq<SchemaField>, after: seq<SchemaField>) {
    Sort(NameFirst, before) == Sort(NameFirst, after)
  }

  /** What `_same_event_payload` compares of a detection payload once it has rewritten it. */
  function Comparable(body: Body): Body {
    if body.SchemaChangeDetected? then
      body.(change := body.change.(
        observedAt := 0,
        entityUrn := CaseFold(body.change.entityUrn),
        beforeFields := Sort(TypeFirst, body.change.beforeFields),
        afterFields := Sort(TypeFirst, body.change.afterFields)))
    else body
  }

  predicate SamePayload(existing: Body, incoming: Body) {
    existing == incoming || Comparable(existing) == Comparable(incoming)
  }

  /** Two field lists pass for the same schema exactly when they agree as multisets. */
  lemma {:induction false} SameSchemaIsMultisetEquality(before: seq<SchemaField>, after: seq<SchemaField>)
    ensures SameSchema(before, after) <==> multiset(before) == multiset(after)
  {
    FieldOrdersAreTotal();
    SortIsCanonical(NameFirst, before, after);
  }

  /** Equal dedup keys mean: the same asset up to case, and the same schema on each side. */
  lemma {:induction false} EqualKeysMeanSameDrift(digest: NormalEvent -> string, a: SchemaChange, b: SchemaChange)
    requires Injective(digest)
    ensures DedupKey(digest, a) == DedupKey(digest, b) <==>
            && CaseFold(a.entityUrn) == CaseFold(b.entityUrn)
            && multiset(a.beforeFields) == multiset(b.beforeFields)
            && multiset(a.afterFields) == multiset(b.afterFields)
    ensures DedupKey(digest, a) == DedupKey(digest, b) <==>
            && CaseFold(a.entityUrn) == CaseFold(b.entityUrn)
            && SameSchema(a.beforeFields, b.beforeFields)
            && SameSchema(a.afterFields, b.afterFields)
  {
    SameSchemaIsMultisetEquality(a.beforeFields, b.beforeFields);
    SameSchemaIsMultisetEquality(a.afterFields, b.afterFields);
    assert DedupKey(digest, a) == DedupKey(digest, b) ==> Normalized(a) == Normalized(b);
  }

  /** Matching a redelivered detection is matching everything but when it was observed,
      the case of the asset, and the order of the fields. */
  lemma {:induction false} SamePayloadMeaning(a: Body, b: Body)
    requires a.SchemaChangeDetected? && b.SchemaChangeDetected?
    ensures SamePayload(a, b) <==>
            && a.incidentUrn == b.incidentUrn
            && a.change.eventId == b.change.eventId
            && a.change.source == b.change.source
            && CaseFold(a.change.entityUrn) == CaseFold(b.change.entityUrn)
            && multiset(a.change.beforeFields) == multiset(b.change.beforeFields)
            && multiset(a.change.afterFields) == multiset(b.change.afterFields)
  {
    FieldOrdersAreTotal();
    SortIsCanonical(TypeFirst, a.change.beforeFields, b.change.beforeFields);
    SortIsCanonical(TypeFirst, a.change.afterFields, b.change.afterFields);
  }

  /** It is an equivalence, and payloads it matches have the same dedup key. */
  lemma {:induction false} SamePayloadIsEquivalence(digest: NormalEvent -> string, a: Body, b: Body, c: Body)
    requires a.SchemaChangeDetected? && b.SchemaChangeDetected? && c.SchemaChangeDetected?
    ensures SamePayload(a, a)
    ensures SamePayload(a, b) ==> SamePayload(b, a)
    ensures SamePayload(a, b) && SamePayload(b, c) ==> SamePayload(a, c)
    ensures SamePayload(a, b) ==> DedupKey(digest, a.change) == DedupKey(digest, b.change)
  {
    if SamePayload(a, b) {
      SamePayloadMeaning(a, b);
      SameSchemaIsMultisetEquality(a.change.beforeFields, b.change.beforeFields);
      SameSchemaIsMultisetEquality(a.change.afterFields, b.change.afterFields);
    }
  }
}
