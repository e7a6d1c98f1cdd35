/**
 * Whether a secret can appear in the redacted text after all (`src/logging.ts`).
 *
 * Kept text holds none, so an occurrence in the output has to share characters with a
 * marker. A form whose letters can meet the marker's that way clashes with it; the
 * lemmas here say that exactly the clashing forms can appear.
 */
module RedactedOutput {
  import opened Redaction

  /**
   * The stretch `lo..hi` of the form is spelled by the marker from `at` on: what comes
   * before it can only stand before the marker, and what comes after only behind it.
   */
  predicate ClashesAt(form: string, lo: int, hi: int, at: int) {
    && 0 <= lo < hi <= |form|
    && 0 <= at <= at + (hi - lo) <= |REDACTED|
    && form[lo..hi] == REDACTED[at..at + (hi - lo)]
    && (lo > 0 ==> at == 0)
    && (hi < |form| ==> at + (hi - lo) == |REDACTED|)
  }

  /**
   * The form lies within the marker or holds it, or ends as the marker begins, or
   * begins as the marker ends. It can be asked when the secret is registered.
   */
  predicate Clashes(form: string) {
    exists lo, hi, at | 0 <= lo < |form| && 0 < hi <= |form| && 0 <= at < |REDACTED| :: ClashesAt(form, lo, hi, at)
  }

  /** An occurrence that shares a character with a marker is a clash. */
  lemma SharingAMarkerClashes(before: string, after: string, form: string, p: nat)
    requires form != "" && OccursAt(before + REDACTED + after, form, p)
    requires p < |before| + |REDACTED| && p + |form| > |before|
    ensures Clashes(form)
  {
    var output := before + REDACTED + after;
    var lo := if p < |before| then |before| - p else 0;
    var hi := if p + |form| > |before| + |REDACTED| then |before| + |REDACTED| - p else |form|;
    var at := if p < |before| then 0 else p - |before|;
    forall k | lo <= k < hi ensures form[k] == REDACTED[at + (k - lo)] {
      assert form[k] == output[p..p + |form|][k] == output[p + k];
    }
    assert form[lo..hi] == REDACTED[at..at + (hi - lo)];
    assert ClashesAt(form, lo, hi, at);
  }

  /** Covered text ends in a marker. */
  lemma {:induction false} CoveredTextEndsInAMarker(text: string, spans: set<Span>, n: nat) returns (j: nat)
    requires 0 < n <= |text| && Covered(spans, n - 1)
    ensures j < n && Redacted(text, spans, n) == Redacted(text, spans, j) + REDACTED
    decreases n
  {
    if Bridged(spans, n - 1) {
      var s :| s in spans && s.start < n - 1 < s.end;
      assert s.start <= n - 2 < s.end;
      j := CoveredTextEndsInAMarker(text, spans, n - 1);
    } else {
      j := n - 1;
    }
  }

  /** The uncovered stretch that ends at `n`. */
  lemma {:induction false} LastKeptStretch(text: string, spans: set<Span>, n: nat) returns (a: nat)
    requires n <= |text|
    ensures a <= n && (forall i :: a <= i < n ==> !Covered(spans, i)) && (a == 0 || Covered(spans, a - 1))
    decreases n
  {
    if n == 0 || Covered(spans, n - 1) {
      a := n;
    } else {
      a := LastKeptStretch(text, spans, n - 1);
    }
  }

  /** No stretch of kept text holds the form. */
  ghost predicate KeptNowhere(text: string, spans: set<Span>, form: string) {
    forall a: nat, b: nat, p: nat :: a <= b <= |text| && (forall i :: a <= i < b ==> !Covered(spans, i)) ==> !OccursAt(text[a..b], form, p)
  }

  lemma OccursInPrefix(before: string, after: string, form: string, p: nat)
    requires OccursAt(before + after, form, p) && p + |form| <= |before|
    ensures OccursAt(before, form, p)
  {
    assert before[p..p + |form|] == (before + after)[p..p + |form|];
  }

  lemma OccursInSuffix(before: string, after: string, form: string, p: nat)
    requires OccursAt(before + after, form, p) && p >= |before|
    ensures OccursAt(after, form, p - |before|)
  {
    assert after[p - |before|..p - |before| + |form|] == (before + after)[p..p + |form|];
  }

  /** An occurrence that ends with a kept character lies in kept text or meets the marker in front of it. */
  lemma EndingInKeptText(text: string, spans: set<Span>, form: string, n: nat, p: nat)
    requires 0 < n <= |text| && form != "" && KeptNowhere(text, spans, form) && !Covered(spans, n - 1)
    requires OccursAt(Redacted(text, spans, n), form, p) && p + |form| == |Redacted(text, spans, n)|
    ensures Clashes(form)
  {
    var a := LastKeptStretch(text, spans, n);
    UncoveredTextIsKept(text, spans, a, n);
    var head := Redacted(text, spans, a);
    if p >= |head| {
      OccursInSuffix(head, text[a..n], form, p);
    } else {
      var j := CoveredTextEndsInAMarker(text, spans, a);
      assert a < n;
      SharingAMarkerClashes(Redacted(text, spans, j), text[a..n], form, p);
    }
  }

  lemma {:induction false} OutputHoldsOnlyClashes(text: string, spans: set<Span>, form: string, n: nat, p: nat)
    requires n <= |text| && form != "" && KeptNowhere(text, spans, form) && !Clashes(form)
    ensures !OccursAt(Redacted(text, spans, n), form, p)
    decreases n
  {
    if n > 0 && OccursAt(Redacted(text, spans, n), form, p) {
      var before, piece := Redacted(text, spans, n - 1), Piece(text, spans, n - 1);
      if p + |form| <= |before| {
        OccursInPrefix(before, piece, form, p);
        OutputHoldsOnlyClashes(text, spans, form, n - 1, p);
      } else if !Covered(spans, n - 1) {
        EndingInKeptText(text, spans, form, n, p);
      } else {
        assert before + piece == before + REDACTED + "";
        SharingAMarkerClashes(before, "", form, p);
      }
    }
  }

  ghost predicate IsForm(secrets: seq<Secret>, form: string) {
    exists secret :: secret in secrets && (form == secret.plain || form == secret.escaped)
  }

  ghost predicate AllSearchable(secrets: seq<Secret>) {
    forall secret :: secret in secrets ==> secret.plain != "" && secret.escaped != ""
  }

  lemma SecretsAreKeptNowhere(text: string, matched: seq<Span>, secrets: seq<Secret>, form: string)
    requires AllSearchable(secrets) && IsForm(secrets, form)
    ensures KeptNowhere(text, SpansOf(text, matched, secrets), form)
  {
    var spans := SpansOf(text, matched, secrets);
    var secret :| secret in secrets && (form == secret.plain || form == secret.escaped);
    forall a: nat, b: nat, p: nat | a <= b <= |text| && (forall i :: a <= i < b ==> !Covered(spans, i))
      ensures !OccursAt(text[a..b], form, p)
    {
      KeptTextHoldsNoSecret(text, matched, secrets, secret, a, b);
    }
  }

  /**
   * The whole output of a redaction holds no registered secret, in its plain or its
   * escaped form, unless that form clashes with the marker.
   */
  lemma OutputHoldsNoSecret(text: string, matched: seq<Span>, secrets: seq<Secret>, form: string, p: nat)
    requires AllSearchable(secrets) && IsForm(secrets, form) && !Clashes(form)
    ensures !OccursAt(Redacted(text, SpansOf(text, matched, secrets), |text|), form, p)
  {
    SecretsAreKeptNowhere(text, matched, secrets, form);
    OutputHoldsOnlyClashes(text, SpansOf(text, matched, secrets), form, |text|, p);
  }

  // ---- Every clash leaks ----

  /** The form appears in what redacting the text with these secrets registered gives. */
  ghost predicate Leaks(text: string, matched: seq<Span>, secrets: seq<Secret>, form: string) {
    && InText(text, Elements(matched)) && AllSearchable(secrets)
    && exists p: nat :: OccursAt(Redacted(text, SpansOf(text, matched, secrets), |text|), form, p)
  }

  /** A form as long as `form` that lacks the other secret's one character occurs nowhere around it. */
  lemma OccursNowhereAround(before: string, other: char, after: string, form: string, q: nat)
    requires other !in form && |before| < |form| && |after| < |form|
    ensures !OccursAt(before + [other] + after, form, q)
  {
    var text := before + [other] + after;
    assert q <= |before| < q + |form| <= |text| ==> text[q..q + |form|][|before| - q] == text[|before|] == other;
  }

  /** In such text the other secret's one character is all there is to cover. */
  lemma OnlyTheOtherIsCovered(before: string, other: char, after: string, secret: Secret, s: Span)
    requires other !in secret.plain && other !in secret.escaped && other !in before && other !in after
    requires |before| < |secret.plain| <= |secret.escaped| && |after| < |secret.plain|
    ensures var text, secrets := before + [other] + after, [secret, Secret([other], [other])];
            s in SpansOf(text, [], secrets) <==> s == Span(|before|, |before| + 1)
  {
    var text, secrets := before + [other] + after, [secret, Secret([other], [other])];
    CandidatesOfTwo(secret, Secret([other], [other]));
    SpansAreAsSaid(text, [], secrets, s);
    OccursNowhereAround(before, other, after, secret.plain, s.start);
    OccursNowhereAround(before, other, after, secret.escaped, s.start);
    OtherOccursOnce(before, other, after, s.start);
  }

  lemma OtherOccursOnce(before: string, other: char, after: string, q: nat)
    requires other !in before && other !in after
    ensures OccursAt(before + [other] + after, [other], q) <==> q == |before|
  {
    var text := before + [other] + after;
    if q < |text| {
      assert text[q..q + 1] == [text[q]];
    }
  }

  lemma OneSpanCoversOneCharacter(spans: set<Span>, i: nat, j: nat)
    requires spans == {Span(i, i + 1)}
    ensures Covered(spans, j) <==> j == i
    ensures !Bridged(spans, j)
  {
    assert Span(i, i + 1) in spans;
  }

  /** One covered character between kept text becomes a marker between it. */
  lemma OneCharacterIsMarked(text: string, spans: set<Span>, i: nat)
    requires i < |text| && spans == {Span(i, i + 1)}
    ensures Redacted(text, spans, |text|) == text[..i] + REDACTED + text[i + 1..]
  {
    forall j: nat ensures (Covered(spans, j) <==> j == i) && !Bridged(spans, j) {
      OneSpanCoversOneCharacter(spans, i, j);
    }
    calc {
      Redacted(text, spans, |text|);
      { UncoveredTextIsKept(text, spans, i + 1, |text|); }
      Redacted(text, spans, i + 1) + text[i + 1..];
      { BlockBecomesOneMarker(text, spans, i, i + 1); }
      Redacted(text, spans, i) + REDACTED + text[i + 1..];
      { UncoveredTextIsKept(text, spans, 0, i); }
      text[..i] + REDACTED + text[i + 1..];
    }
  }

  /** Redacting text in which only the other secret occurs marks its one character and keeps the rest. */
  lemma OtherSecretIsMarked(before: string, other: char, after: string, secret: Secret)
    requires other !in secret.plain && other !in secret.escaped && other !in before && other !in after
    requires |before| < |secret.plain| <= |secret.escaped| && |after| < |secret.plain|
    ensures var text, secrets := before + [other] + after, [secret, Secret([other], [other])];
            Redacted(text, SpansOf(text, [], secrets), |text|) == before + REDACTED + after
  {
    var text, secrets := before + [other] + after, [secret, Secret([other], [other])];
    forall s ensures s in SpansOf(text, [], secrets) <==> s == Span(|before|, |before| + 1) {
      OnlyTheOtherIsCovered(before, other, after, secret, s);
    }
    assert SpansOf(text, [], secrets) == {Span(|before|, |before| + 1)};
    OneCharacterIsMarked(text, SpansOf(text, [], secrets), |before|);
    assert text[..|before|] == before && text[|before| + 1..] == after;
  }

  lemma CandidatesOfTwo(first: Secret, second: Secret)
    ensures Candidates([first, second]) == [first.plain, first.escaped, second.plain, second.escaped]
  {
    assert [first, second][..1] == [first] && [first][..0] == [];
    assert Candidates([first]) == [first.plain, first.escaped];
  }

  /** The marker between what comes before and after a clashing stretch spells the form. */
  lemma ClashesAreSpelled(form: string, lo: int, hi: int, at: int)
    requires ClashesAt(form, lo, hi, at)
    ensures OccursAt(form[..lo] + REDACTED + form[hi..], form, at)
  {
    var output := form[..lo] + REDACTED + form[hi..];
    forall k | 0 <= k < |form| ensures output[at + k] == form[k] {
      if lo <= k < hi {
        assert form[k] == form[lo..hi][k - lo] == REDACTED[at..at + (hi - lo)][k - lo];
      }
    }
    assert output[at..at + |form|] == form;
  }

  /**
   * A clashing secret does appear for some text: next to another registered secret of
   * one character that it lacks. Escaping never shortens a secret.
   */
  lemma ClashingSecretsLeak(secret: Secret, other: char, lo: int, hi: int, at: int)
    requires ClashesAt(secret.plain, lo, hi, at) && |secret.plain| <= |secret.escaped|
    requires other !in secret.plain && other !in secret.escaped
    ensures Leaks(secret.plain[..lo] + [other] + secret.plain[hi..], [], [secret, Secret([other], [other])], secret.plain)
  {
    OtherSecretIsMarked(secret.plain[..lo], other, secret.plain[hi..], secret);
    ClashesAreSpelled(secret.plain, lo, hi, at);
  }

  lemma LeaksAreClashes(text: string, matched: seq<Span>, secrets: seq<Secret>, secret: Secret)
    requires secret in secrets && Leaks(text, matched, secrets, secret.plain)
    ensures Clashes(secret.plain)
  {
    var p: nat :| OccursAt(Redacted(text, SpansOf(text, matched, secrets), |text|), secret.plain, p);
    assert IsForm(secrets, secret.plain);
    if !Clashes(secret.plain) {
      OutputHoldsNoSecret(text, matched, secrets, secret.plain, p);
    }
  }

  lemma ClashesAreLeaks(secret: Secret, other: char)
    requires |secret.plain| <= |secret.escaped| && other !in secret.plain && other !in secret.escaped
    requires Clashes(secret.plain)
    ensures exists text, matched, secrets :: secret in secrets && Leaks(text, matched, secrets, secret.plain)
  {
    var lo, hi, at :| 0 <= lo < |secret.plain| && 0 < hi <= |secret.plain| && 0 <= at < |REDACTED| && ClashesAt(secret.plain, lo, hi, at);
    ClashingSecretsLeak(secret, other, lo, hi, at);
    LeakIsThere(secret.plain[..lo] + [other] + secret.plain[hi..], [], [secret, Secret([other], [other])], secret);
  }

  lemma LeakIsThere(text: string, matched: seq<Span>, secrets: seq<Secret>, secret: Secret)
    requires secret in secrets && Leaks(text, matched, secrets, secret.plain)
    ensures exists text, matched, secrets :: secret in secrets && Leaks(text, matched, secrets, secret.plain)
  {
  }

  /**
   * A registered secret can appear in the output, for some text, some pattern matches
   * and some other secrets registered beside it, if and only if it clashes with the
   * marker. `other` is any character it lacks.
   */
  lemma SecretsLeakExactlyWhenTheyClash(secret: Secret, other: char)
    requires |secret.plain| <= |secret.escaped| && other !in secret.plain && other !in secret.escaped
    ensures (exists text, matched, secrets :: secret in secrets && Leaks(text, matched, secrets, secret.plain)) <==> Clashes(secret.plain)
  {
    if Clashes(secret.plain) {
      ClashesAreLeaks(secret, other);
    }
    forall text, matched, secrets | secret in secrets && Leaks(text, matched, secrets, secret.plain)
      ensures Clashes(secret.plain)
    {
      LeaksAreClashes(text, matched, secrets, secret);
    }
  }

  /** Text that one span covers whole becomes one marker. */
  lemma WholeTextIsMarked(text: string, spans: set<Span>)
    requires text != "" && Span(0, |text|) in spans
    ensures Redacted(text, spans, |text|) == REDACTED
  {
    BlockBecomesOneMarker(text, spans, 0, |text|);
    assert Redacted(text, spans, 0) == "";
  }

  /** A secret within the marker needs no other: registered alone and logged alone, it is still in what is written. */
  lemma SecretsWithinTheMarkerLeakAlone(secret: Secret, at: nat)
    requires ClashesAt(secret.plain, 0, |secret.plain|, at) && secret.escaped != ""
    ensures Leaks(secret.plain, [], [secret], secret.plain)
  {
    var text, spans := secret.plain, SpansOf(secret.plain, [], [secret]);
    SpansAreAsSaid(text, [], [secret], Span(0, |text|));
    SecretsAreCandidates([secret], secret);
    assert text[0..|text|] == text && OccursAt(text, secret.plain, 0);
    WholeTextIsMarked(text, spans);
    assert OccursAt(REDACTED, secret.plain, at);
  }

  lemma AMarkerCanSpellASecret()
    ensures Clashes("red") && Leaks("red", [], [Secret("red", "red")], "red")
  {
    assert REDACTED[1..1 + (3 - 0)] == "red"[0..3];
    assert ClashesAt("red", 0, 3, 1);
    SecretsWithinTheMarkerLeakAlone(Secret("red", "red"), 1);
  }
}
