/**
 * The redaction sweep (`src/logging.ts`).
 *
 * The sweep sorts spans and merges them in one pass. What it computes is said here
 * index by index, with no order and no state: an index no span covers keeps its
 * character, and an index some span covers gives one marker when it begins a block
 * and nothing otherwise. Two indices belong to one block when one span holds both.
 */
module Redaction {
  const REDACTED := "[redacted]"

  datatype Span = Span(start: nat, end: nat)

  ghost predicate Covered(spans: set<Span>, i: nat) {
    exists s :: s in spans && s.start <= i < s.end
  }

  /** One span holds both `i` and the index before it. */
  ghost predicate Bridged(spans: set<Span>, i: nat) {
    exists s :: s in spans && s.start < i < s.end
  }

  ghost function Piece(text: string, spans: set<Span>, i: nat): string
    requires i < |text|
  {
    if !Covered(spans, i) then [text[i]] else if Bridged(spans, i) then "" else REDACTED
  }

  /** The specification: the pieces of the first `n` indices, in order. */
  ghost function Redacted(text: string, spans: set<Span>, n: nat): string
    requires n <= |text|
  {
    if n == 0 then "" else Redacted(text, spans, n - 1) + Piece(text, spans, n - 1)
  }

  ghost predicate InText(text: string, spans: set<Span>) {
    forall s :: s in spans ==> s.start < s.end <= |text|
  }

  lemma {:induction false} SamePieces(text: string, a: set<Span>, b: set<Span>, n: nat)
    requires n <= |text|
    requires forall i :: 0 <= i < n ==> Piece(text, a, i) == Piece(text, b, i)
    ensures Redacted(text, a, n) == Redacted(text, b, n)
  {
    if n > 0 {
      SamePieces(text, a, b, n - 1);
    }
  }

  /** Text no span covers is kept, character by character. */
  lemma {:induction false} UncoveredTextIsKept(text: string, spans: set<Span>, a: nat, b: nat)
    requires a <= b <= |text| && forall i :: a <= i < b ==> !Covered(spans, i)
    ensures Redacted(text, spans, b) == Redacted(text, spans, a) + text[a..b]
  {
    if a < b {
      assert !Covered(spans, b - 1);
      UncoveredTextIsKept(text, spans, a, b - 1);
      assert text[a..b] == text[a..b - 1] + [text[b - 1]];
    }
  }

  lemma {:induction false} BridgedTextIsSilent(text: string, spans: set<Span>, a: nat, b: nat)
    requires a <= b <= |text| && forall i :: a <= i < b ==> Bridged(spans, i)
    ensures Redacted(text, spans, b) == Redacted(text, spans, a)
  {
    if a < b {
      BridgedTextIsSilent(text, spans, a, b - 1);
      assert Bridged(spans, b - 1);
    }
  }

  /** A block of covered indices, each bridged to the one before it, becomes exactly one marker. */
  lemma BlockBecomesOneMarker(text: string, spans: set<Span>, a: nat, b: nat)
    requires a < b <= |text| && Covered(spans, a) && !Bridged(spans, a)
    requires forall i :: a < i < b ==> Bridged(spans, i)
    ensures Redacted(text, spans, b) == Redacted(text, spans, a) + REDACTED
  {
    BridgedTextIsSilent(text, spans, a + 1, b);
  }

  // ---- Sorting ----

  predicate Before(a: Span, b: Span) {
    a.start < b.start || (a.start == b.start && a.end >= b.end)
  }

  ghost predicate Ordered(spans: seq<Span>) {
    forall i, j :: 0 <= i < j < |spans| ==> Before(spans[i], spans[j])
  }

  function Inserted(spans: seq<Span>, span: Span): (r: seq<Span>)
    requires Ordered(spans)
    ensures Ordered(r) && |r| == |spans| + 1
    ensures forall s :: s in r <==> s in spans || s == span
  {
    if spans == [] then
      [span]
    else if Before(span, spans[0]) then
      [span] + spans
    else
      var rest := Inserted(spans[1..], span);
      assert forall s :: s in spans <==> s == spans[0] || s in spans[1..];
      assert forall s :: s in rest ==> Before(spans[0], s);
      [spans[0]] + rest
  }

  /** Spans by start, the longest first among equals. */
  function Sorted(spans: seq<Span>): (r: seq<Span>)
    ensures Ordered(r) && |r| == |spans|
    ensures forall s :: s in r <==> s in spans
  {
    if spans == [] then [] else
      assert forall s :: s in spans <==> s == spans[0] || s in spans[1..];
      Inserted(Sorted(spans[1..]), spans[0])
  }

  function Elements(spans: seq<Span>): set<Span> {
    set s | s in spans
  }

  // ---- The sweep ----

  /** Adding a span that lies inside one already there changes no piece. */
  lemma SwallowedSpanChangesNothing(text: string, spans: set<Span>, span: Span, widest: Span, n: nat)
    requires n <= |text| && widest in spans && widest.start <= span.start && span.end <= widest.end
    ensures Redacted(text, spans + {span}, n) == Redacted(text, spans, n)
  {
    forall i | 0 <= i < n
      ensures Piece(text, spans + {span}, i) == Piece(text, spans, i)
    {
      SubsetCovers(spans, spans + {span}, i);
    }
    SamePieces(text, spans + {span}, spans, n);
  }

  lemma SubsetCovers(spans: set<Span>, more: set<Span>, i: nat)
    requires spans <= more
    ensures Covered(spans, i) ==> Covered(more, i)
    ensures Bridged(spans, i) ==> Bridged(more, i)
  {
  }

  /** A later span leaves every piece before `n` alone when it starts past them or is covered up to there. */
  lemma LaterSpanKeepsThePast(text: string, spans: set<Span>, span: Span, n: nat)
    requires n <= |text|
    requires span.start >= n || exists s :: s in spans && s.start <= span.start && s.end == n
    ensures Redacted(text, spans + {span}, n) == Redacted(text, spans, n)
  {
    if span.start < n {
      var widest :| widest in spans && widest.start <= span.start && widest.end == n;
      forall i | 0 <= i < n
        ensures Piece(text, spans + {span}, i) == Piece(text, spans, i)
      {
        SubsetCovers(spans, spans + {span}, i);
        assert span.start <= i ==> widest.start <= i < widest.end;
        assert span.start < i ==> widest.start < i < widest.end;
      }
    } else {
      forall i | 0 <= i < n
        ensures Piece(text, spans + {span}, i) == Piece(text, spans, i)
      {
        SubsetCovers(spans, spans + {span}, i);
      }
    }
    SamePieces(text, spans + {span}, spans, n);
  }

  /** `end` is the furthest end of the spans swept so far, and some span among them reaches it. */
  ghost predicate Reaches(spans: set<Span>, end: nat) {
    && (forall s :: s in spans ==> s.end <= end)
    && (end == 0 || exists s :: s in spans && s.end == end)
  }

  /** A span past everything swept so far keeps the gap before it and begins a block of its own. */
  lemma SeparateSpanAddsAMarker(text: string, spans: set<Span>, span: Span, end: nat)
    requires InText(text, spans + {span}) && Reaches(spans, end) && end <= span.start
    ensures Redacted(text, spans + {span}, span.end) == Redacted(text, spans, end) + text[end..span.start] + REDACTED
  {
    var more := spans + {span};
    assert span in more;
    LaterSpanKeepsThePast(text, spans, span, end);
    UncoveredTextIsKept(text, more, end, span.start);
    BlockBecomesOneMarker(text, more, span.start, span.end);
  }

  /** A span that overlaps the furthest one extends its block and adds nothing. */
  lemma OverlappingSpanAddsNothing(text: string, spans: set<Span>, span: Span, end: nat)
    requires InText(text, spans + {span}) && Reaches(spans, end) && span.start < end < span.end
    requires forall s :: s in spans ==> s.start <= span.start
    ensures Redacted(text, spans + {span}, span.end) == Redacted(text, spans, end)
  {
    assert span in spans + {span};
    LaterSpanKeepsThePast(text, spans, span, end);
    BridgedTextIsSilent(text, spans + {span}, end, span.end);
  }

  lemma ReachesFurther(spans: set<Span>, span: Span, end: nat)
    requires Reaches(spans, end) && span.start < span.end
    ensures Reaches(spans + {span}, if span.end <= end then end else span.end)
  {
    assert span in spans + {span};
    if span.end <= end {
      var widest :| widest in spans && widest.end == end;
      assert widest in spans + {span};
    }
  }

  /** One turn of the sweep: what is appended is what the span adds to the specification. */
  lemma SweepTurn(text: string, spans: set<Span>, span: Span, end: nat)
    requires InText(text, spans + {span}) && Reaches(spans, end) && end <= |text|
    requires forall s :: s in spans ==> s.start <= span.start
    requires span.start < span.end <= |text|
    ensures Redacted(text, spans + {span}, if span.end <= end then end else span.end)
            == if span.end <= end || span.start < end then Redacted(text, spans, end)
               else Redacted(text, spans, end) + text[end..span.start] + REDACTED
  {
    if span.end <= end {
      var widest :| widest in spans && widest.end == end;
      SwallowedSpanChangesNothing(text, spans, span, widest, end);
    } else if span.start >= end {
      SeparateSpanAddsAMarker(text, spans, span, end);
    } else {
      OverlappingSpanAddsNothing(text, spans, span, end);
    }
  }

  /** What the sweep may rely on when it meets span `k` of the sorted list. */
  lemma NextSpan(text: string, spans: seq<Span>, sorted: seq<Span>, k: nat)
    requires InText(text, Elements(spans)) && Ordered(sorted) && k < |sorted|
    requires forall s :: s in sorted <==> s in spans
    ensures Elements(sorted[..k + 1]) == Elements(sorted[..k]) + {sorted[k]}
    ensures InText(text, Elements(sorted[..k]) + {sorted[k]})
    ensures sorted[k].start < sorted[k].end <= |text|
    ensures forall s :: s in Elements(sorted[..k]) ==> s.start <= sorted[k].start
  {
    assert sorted[..k + 1] == sorted[..k] + [sorted[k]];
    assert forall s :: s in sorted[..k] ==> s in sorted;
    assert forall s :: s in sorted ==> s in Elements(spans);
    assert sorted[k] in sorted;
  }

  /** The body of the loop: what it appends for one span, and how far it has come then. */
  method SweepSpan(text: string, redacted: string, end: nat, span: Span, ghost swept: set<Span>) returns (more: string, furthest: nat)
    requires InText(text, swept + {span}) && Reaches(swept, end) && end <= |text| && span.start < span.end <= |text|
    requires forall s :: s in swept ==> s.start <= span.start
    requires redacted == Redacted(text, swept, end)
    ensures furthest <= |text| && Reaches(swept + {span}, furthest)
    ensures more == Redacted(text, swept + {span}, furthest)
  {
    SweepTurn(text, swept, span, end);
    ReachesFurther(swept, span, end);
    if span.end <= end {
      return redacted, end;
    }
    more := redacted;
    if span.start >= end {
      more := more + text[end..span.start] + REDACTED;
    }
    furthest := span.end;
  }

  lemma RestIsKept(text: string, spans: set<Span>, end: nat)
    requires Reaches(spans, end) && end <= |text|
    ensures Redacted(text, spans, |text|) == Redacted(text, spans, end) + text[end..]
  {
    UncoveredTextIsKept(text, spans, end, |text|);
    assert text[end..|text|] == text[end..];
  }

  method Sweep(text: string, spans: seq<Span>) returns (result: string)
    requires InText(text, Elements(spans))
    ensures result == Redacted(text, Elements(spans), |text|)
  {
    var sorted := Sorted(spans);
    var redacted := "";
    var end: nat := 0;
    for k := 0 to |sorted|
      invariant end <= |text| && Reaches(Elements(sorted[..k]), end)
      invariant redacted == Redacted(text, Elements(sorted[..k]), end)
    {
      NextSpan(text, spans, sorted, k);
      redacted, end := SweepSpan(text, redacted, end, sorted[k], Elements(sorted[..k]));
    }
    assert sorted[..|sorted|] == sorted;
    assert Elements(sorted) == Elements(spans);
    RestIsKept(text, Elements(sorted), end);
    result := redacted + text[end..];
  }

  // ---- Finding what to cover ----

  ghost predicate OccursAt(text: string, candidate: string, p: nat) {
    p + |candidate| <= |text| && text[p..p + |candidate|] == candidate
  }

  /** The first occurrence at or after `from`, or -1. */
  method IndexOf(text: string, candidate: string, from: nat) returns (p: int)
    requires candidate != ""
    ensures p == -1 || (from <= p && OccursAt(text, candidate, p))
    ensures forall q :: from <= q && (p == -1 || q < p) ==> !OccursAt(text, candidate, q)
  {
    p := from;
    while p + |candidate| <= |text|
      invariant from <= p
      invariant forall q :: from <= q < p ==> !OccursAt(text, candidate, q)
    {
      if text[p..p + |candidate|] == candidate {
        return;
      }
      p := p + 1;
    }
    p := -1;
  }

  /** Every occurrence, overlapping ones included: the search resumes one character further on. */
  method OccurrencesOf(text: string, candidate: string) returns (spans: seq<Span>)
    requires candidate != ""
    ensures forall p: nat :: Span(p, p + |candidate|) in spans <==> OccursAt(text, candidate, p)
    ensures forall s :: s in spans ==> s.end == s.start + |candidate|
  {
    spans := [];
    var start := IndexOf(text, candidate, 0);
    while start != -1
      invariant start == -1 || (0 <= start && OccursAt(text, candidate, start))
      invariant forall p: nat :: start == -1 || p < start ==> (Span(p, p + |candidate|) in spans <==> OccursAt(text, candidate, p))
      invariant start != -1 ==> forall s :: s in spans ==> s.start < start
      invariant forall s :: s in spans ==> s.end == s.start + |candidate|
      decreases if start == -1 then 0 else 1 + |text| - start
    {
      var next := IndexOf(text, candidate, start + 1);
      spans := spans + [Span(start, start + |candidate|)];
      start := next;
    }
  }

  /** A registered secret, and the form it takes inside a JSON string. */
  datatype Secret = Secret(plain: string, escaped: string)

  function Candidates(secrets: seq<Secret>): seq<string> {
    if secrets == [] then [] else Candidates(secrets[..|secrets| - 1]) + [secrets[|secrets| - 1].plain, secrets[|secrets| - 1].escaped]
  }

  /** The spans of one line: those a credential pattern matched, and every occurrence of every candidate. */
  ghost predicate IsSpanOf(text: string, matched: seq<Span>, candidates: seq<string>, s: Span) {
    s in matched || exists c :: c in candidates && s.end == s.start + |c| && OccursAt(text, c, s.start)
  }

  ghost function SpansOf(text: string, matched: seq<Span>, secrets: seq<Secret>): set<Span> {
    Elements(matched) + set c, p | c in Candidates(secrets) && 0 <= p <= |text| && OccursAt(text, c, p) :: Span(p, p + |c|)
  }

  lemma SpansAreAsSaid(text: string, matched: seq<Span>, secrets: seq<Secret>, s: Span)
    ensures s in SpansOf(text, matched, secrets) <==> IsSpanOf(text, matched, Candidates(secrets), s)
  {
    if c :| c in Candidates(secrets) && s.end == s.start + |c| && OccursAt(text, c, s.start) {
      assert s == Span(s.start, s.start + |c|);
    }
  }

  /** Adds every occurrence of one secret, in both of its forms. */
  method AddSecret(text: string, found: seq<Span>, secret: Secret) returns (more: seq<Span>)
    requires secret.plain != "" && secret.escaped != ""
    ensures forall s :: s in more <==>
              || s in found
              || (s.end == s.start + |secret.plain| && OccursAt(text, secret.plain, s.start))
              || (s.end == s.start + |secret.escaped| && OccursAt(text, secret.escaped, s.start))
  {
    var plain := OccurrencesOf(text, secret.plain);
    var escaped := OccurrencesOf(text, secret.escaped);
    more := found + plain + escaped;
    forall s
      ensures s in plain <==> s.end == s.start + |secret.plain| && OccursAt(text, secret.plain, s.start)
      ensures s in escaped <==> s.end == s.start + |secret.escaped| && OccursAt(text, secret.escaped, s.start)
    {
      OccurrenceSpans(text, secret.plain, plain, s);
      OccurrenceSpans(text, secret.escaped, escaped, s);
    }
  }

  /** The whole redaction of one text. `matched` is what the credential patterns found in it. */
  method RedactText(text: string, matched: seq<Span>, secrets: seq<Secret>) returns (redacted: string)
    requires InText(text, Elements(matched))
    requires forall s :: s in secrets ==> s.plain != "" && s.escaped != ""
    ensures redacted == Redacted(text, SpansOf(text, matched, secrets), |text|)
  {
    var found := matched;
    for k := 0 to |secrets|
      invariant forall s :: s in found <==> IsSpanOf(text, matched, Candidates(secrets[..k]), s)
      invariant forall s :: s in found ==> s.start < s.end <= |text|
    {
      found := AddSecret(text, found, secrets[k]);
      assert secrets[..k + 1][..k] == secrets[..k];
      forall s
        ensures s in found <==> IsSpanOf(text, matched, Candidates(secrets[..k + 1]), s)
      {
        AddedCandidates(text, matched, Candidates(secrets[..k]), secrets[k], s);
      }
    }
    assert secrets[..|secrets|] == secrets;
    forall s ensures s in Elements(found) <==> s in SpansOf(text, matched, secrets) {
      SpansAreAsSaid(text, matched, secrets, s);
    }
    assert Elements(found) == SpansOf(text, matched, secrets);
    redacted := Sweep(text, found);
  }

  lemma OccurrenceSpans(text: string, c: string, spans: seq<Span>, s: Span)
    requires forall p: nat :: Span(p, p + |c|) in spans <==> OccursAt(text, c, p)
    requires forall t :: t in spans ==> t.end == t.start + |c|
    ensures s in spans <==> s.end == s.start + |c| && OccursAt(text, c, s.start)
  {
    if s.end == s.start + |c| {
      assert s == Span(s.start, s.start + |c|);
    }
  }

  lemma AddedCandidates(text: string, matched: seq<Span>, candidates: seq<string>, secret: Secret, s: Span)
    ensures IsSpanOf(text, matched, candidates + [secret.plain, secret.escaped], s) <==>
              || IsSpanOf(text, matched, candidates, s)
              || (s.end == s.start + |secret.plain| && OccursAt(text, secret.plain, s.start))
              || (s.end == s.start + |secret.escaped| && OccursAt(text, secret.escaped, s.start))
  {
    var more := candidates + [secret.plain, secret.escaped];
    assert forall c :: c in more <==> c in candidates || c == secret.plain || c == secret.escaped;
  }

  lemma {:induction false} SecretsAreCandidates(secrets: seq<Secret>, secret: Secret)
    requires secret in secrets
    ensures secret.plain in Candidates(secrets) && secret.escaped in Candidates(secrets)
    decreases |secrets|
  {
    var last := |secrets| - 1;
    if secret != secrets[last] {
      assert secret in secrets[..last];
      SecretsAreCandidates(secrets[..last], secret);
    }
  }

  /** No stretch of text the sweep keeps contains a registered secret, in its plain or its escaped form. */
  lemma KeptTextHoldsNoSecret(text: string, matched: seq<Span>, secrets: seq<Secret>, secret: Secret, a: nat, b: nat)
    requires secret in secrets && secret.plain != "" && secret.escaped != ""
    requires a <= b <= |text| && forall i :: a <= i < b ==> !Covered(SpansOf(text, matched, secrets), i)
    ensures forall p :: !OccursAt(text[a..b], secret.plain, p) && !OccursAt(text[a..b], secret.escaped, p)
  {
    var spans := SpansOf(text, matched, secrets);
    forall s ensures s in spans <==> IsSpanOf(text, matched, Candidates(secrets), s) {
      SpansAreAsSaid(text, matched, secrets, s);
    }
    SecretsAreCandidates(secrets, secret);
    forall p: nat
      ensures !OccursAt(text[a..b], secret.plain, p) && !OccursAt(text[a..b], secret.escaped, p)
    {
      NoOccurrenceInside(text, matched, Candidates(secrets), spans, secret.plain, a, b, p);
      NoOccurrenceInside(text, matched, Candidates(secrets), spans, secret.escaped, a, b, p);
    }
  }

  lemma OccurrenceInSlice(text: string, c: string, a: nat, b: nat, p: nat)
    requires a <= b <= |text| && OccursAt(text[a..b], c, p)
    ensures OccursAt(text, c, a + p)
  {
    var inner, outer := text[a..b][p..p + |c|], text[a + p..a + p + |c|];
    forall k | 0 <= k < |c|
      ensures inner[k] == outer[k]
    {
    }
    assert inner == outer;
  }

  lemma OccurrencesAreCovered(text: string, matched: seq<Span>, candidates: seq<string>, spans: set<Span>, c: string, p: nat)
    requires forall s :: s in spans <==> IsSpanOf(text, matched, candidates, s)
    requires c in candidates && c != "" && OccursAt(text, c, p)
    ensures Covered(spans, p)
  {
    var s := Span(p, p + |c|);
    assert s in spans && s.start <= p < s.end;
  }

  lemma NoOccurrenceInside(text: string, matched: seq<Span>, candidates: seq<string>, spans: set<Span>, c: string, a: nat, b: nat, p: nat)
    requires forall s :: s in spans <==> IsSpanOf(text, matched, candidates, s)
    requires c in candidates && c != ""
    requires a <= b <= |text| && forall i :: a <= i < b ==> !Covered(spans, i)
    ensures !OccursAt(text[a..b], c, p)
  {
    if OccursAt(text[a..b], c, p) {
      OccurrenceInSlice(text, c, a, b, p);
      OccurrencesAreCovered(text, matched, candidates, spans, c, a + p);
    }
  }

  // ---- Registering secrets ----

  datatype Role = AwsAccessKeyId | AwsSecretAccessKey | AwsSessionToken

  predicate IsWhitespace(c: char) {
    || c in {' ', '\t', '\n', '\r', '\U{B}', '\U{C}', '\U{A0}', '\U{1680}', '\U{2028}', '\U{2029}', '\U{202F}', '\U{205F}', '\U{3000}', '\U{FEFF}'}
    || '\U{2000}' <= c <= '\U{200A}'
  }

  predicate IsBlank(s: string) {
    forall i :: 0 <= i < |s| ==> IsWhitespace(s[i])
  }

  /** A blank value is what trimming leaves nothing of: every character one of JavaScript's white space or line terminators, by code. */
  lemma BlanksAreWhatTrimmingRemoves(s: string)
    ensures IsBlank(s) <==> forall c :: c in s ==>
              || 9 <= c as int <= 13
              || c as int in {0x20, 0xA0, 0x1680, 0x2028, 0x2029, 0x202F, 0x205F, 0x3000, 0xFEFF}
              || 0x2000 <= c as int <= 0x200A
  {
    forall c: char
      ensures IsWhitespace(c) <==>
                || 9 <= c as int <= 13
                || c as int in {0x20, 0xA0, 0x1680, 0x2028, 0x2029, 0x202F, 0x205F, 0x3000, 0xFEFF}
                || 0x2000 <= c as int <= 0x200A
    {
    }
    assert forall i :: 0 <= i < |s| ==> s[i] in s;
  }

  datatype RoleOption = NoRole | As(role: Role)

  /** The registered list: a value with no role stays for good, a value with one supersedes its predecessor. */
  class SecretRegistry {
    var secrets: seq<string>
    var roleIndexes: map<Role, nat>
    // Which role, if any, each held value was registered under.
    ghost var owners: seq<RoleOption>

    /** Each role owns at most one held value, and `roleIndexes` says which. */
    ghost predicate Valid()
      reads this
    {
      && |owners| == |secrets|
      && (forall r :: r in roleIndexes ==> roleIndexes[r] < |owners| && owners[roleIndexes[r]] == As(r))
      && (forall i :: 0 <= i < |owners| && owners[i].As? ==> owners[i].role in roleIndexes && roleIndexes[owners[i].role] == i)
      && (forall i :: 0 <= i < |secrets| ==> !IsBlank(secrets[i]))
    }

    constructor ()
      ensures Valid() && secrets == [] && roleIndexes == map[]
    {
      secrets, roleIndexes, owners := [], map[], [];
    }

    method RegisterSecret(secret: string, role: RoleOption)
      requires Valid()
      modifies this
      ensures Valid()
      ensures IsBlank(secret) ==> secrets == old(secrets) && owners == old(owners)
      // Nothing registered for good is ever dropped, and nothing else moves.
      ensures |old(secrets)| <= |secrets| && owners[..|old(owners)|] == old(owners)
      ensures forall i :: 0 <= i < |old(secrets)| && (owners[i].NoRole? || owners[i] != role) ==> secrets[i] == old(secrets)[i]
      // The value is held, and a role holds this value and no earlier one.
      ensures !IsBlank(secret) ==> exists i :: 0 <= i < |secrets| && secrets[i] == secret && owners[i] == role
      ensures !IsBlank(secret) && role.As? ==> forall i :: 0 <= i < |secrets| && owners[i] == role ==> secrets[i] == secret
      // A rotation replaces: the list grows for a permanent value or a role not seen before, and for nothing else.
      ensures |secrets| == |old(secrets)| + (if !IsBlank(secret) && (role.NoRole? || role !in old(owners)) then 1 else 0)
    {
      if IsBlank(secret) {
        return;
      }
      if role.As? && role.role in roleIndexes {
        var held := roleIndexes[role.role];
        secrets := secrets[held := secret];
        assert secrets[held] == secret && owners[held] == role;
        return;
      }
      if role.As? {
        roleIndexes := roleIndexes[role.role := |secrets|];
      }
      secrets := secrets + [secret];
      owners := owners + [role];
      assert secrets[|secrets| - 1] == secret;
    }
  }
}
