/**
 * Word error rate (crates/transcription/src/wer.rs): text normalisation, word-level
 * Levenshtein distance with two rolling rows, per-pair WER and micro-averaged WER.
 * The floating-point rate is kept as the exact fraction num/den it is computed from.
 */
module Wer {
  import opened Text

  // ---------------------------------------------------------------- normalisation

  predicate KeptByNormalize(c: char) { IsAlphanumeric(c) || IsWhitespace(c) }

  /** Lowercase, keep alphanumerics and whitespace, then re-join the words with single spaces. */
  function NormalizeText(text: string): (r: string)
    ensures SingleSpaced(r)
  {
    var words := SplitWhitespace(FilterChars(ToLower(text), KeptByNormalize));
    JoinWordsSingleSpaced(words);
    Join(words, " ")
  }

  function NormalizeWords(text: string): (r: seq<string>)
    ensures forall k :: 0 <= k < |r| ==> IsWord(r[k])
  {
    SplitWhitespace(NormalizeText(text))
  }

  lemma InSuffix(s: string, a: nat, c: char)
    requires a <= |s| && c in s[a..]
    ensures c in s
  {
    var i :| 0 <= i < |s[a..]| && s[a..][i] == c;
    assert s[a + i] == c;
  }

  lemma InPrefix(s: string, a: nat, c: char)
    requires a <= |s| && c in s[..a]
    ensures c in s
  {
    var i :| 0 <= i < a && s[..a][i] == c;
    assert s[i] == c;
  }

  lemma {:induction false} WordCharsFrom(s: string)
    ensures forall k, c :: 0 <= k < |SplitWhitespace(s)| && c in SplitWhitespace(s)[k] ==> c in s
    decreases |s|
  {
    if s != [] {
      var r := SplitWhitespace(s);
      if IsWhitespace(s[0]) {
        WordCharsFrom(s[1..]);
        forall k, c | 0 <= k < |r| && c in r[k] ensures c in s {
          InSuffix(s, 1, c);
        }
      } else {
        var n := WordLength(s);
        WordCharsFrom(s[n..]);
        var rest := SplitWhitespace(s[n..]);
        assert r == [s[..n]] + rest;
        forall k, c | 0 <= k < |r| && c in r[k] ensures c in s {
          if k == 0 {
            assert r[0] == s[..n];
            InPrefix(s, n, c);
          } else {
            assert r[k] == rest[k - 1];
            InSuffix(s, n, c);
          }
        }
      }
    }
  }

  lemma {:induction false} JoinCharsFrom(words: seq<string>)
    ensures forall c :: c in Join(words, " ") ==> c == ' ' || exists k :: 0 <= k < |words| && c in words[k]
  {
    if |words| > 1 {
      JoinCharsFrom(words[1..]);
      forall c | c in Join(words, " ")
        ensures c == ' ' || exists k :: 0 <= k < |words| && c in words[k]
      {
        assert Join(words, " ") == words[0] + " " + Join(words[1..], " ");
        if c in words[0] {
        } else if c in Join(words[1..], " ") && c != ' ' {
          var k :| 0 <= k < |words[1..]| && c in words[1..][k];
          assert c in words[k + 1];
        }
      }
    }
  }

  /** Every character of a normalised text is a space or a lower-case alphanumeric. */
  lemma NormalizeTextChars(text: string)
    ensures forall c :: c in NormalizeText(text) ==> c == ' ' || (IsAlphanumeric(c) && !IsUpper(c))
  {
    var lowered := ToLower(text);
    var kept := FilterChars(lowered, KeptByNormalize);
    var words := SplitWhitespace(kept);
    WordCharsFrom(kept);
    JoinCharsFrom(words);
    FilterCharsOfChars(lowered, KeptByNormalize);
    forall c | c in NormalizeText(text) && c != ' '
      ensures IsAlphanumeric(c) && !IsUpper(c)
    {
      var k :| 0 <= k < |words| && c in words[k];
      var i :| 0 <= i < |words[k]| && words[k][i] == c;
      assert !IsWhitespace(c);
      assert c in kept;
      var p :| 0 <= p < |kept| && kept[p] == c;
      assert KeptByNormalize(kept[p]);
      var q :| 0 <= q < |lowered| && lowered[q] == c;
      assert c == LowerChar(text[q]);
    }
  }

  /** The words of the normalised text are the whitespace-separated runs of the filtered, lowered input. */
  lemma NormalizeWordsDirect(text: string)
    ensures NormalizeWords(text) == SplitWhitespace(FilterChars(ToLower(text), KeptByNormalize))
  {
    SplitJoinWords(SplitWhitespace(FilterChars(ToLower(text), KeptByNormalize)));
  }

  /** Normalisation ignores case. */
  lemma NormalizeIgnoresCase(text: string)
    ensures NormalizeText(ToLower(text)) == NormalizeText(text)
  {
    ToLowerIdempotent(text);
  }

  /** Inserting a character that is neither alphanumeric nor whitespace changes nothing after normalisation. */
  lemma NormalizeIgnoresPunctuation(text: string, i: nat, c: char)
    requires i <= |text|
    requires !IsAlphanumeric(c) && !IsWhitespace(c)
    ensures NormalizeText(text[..i] + [c] + text[i..]) == NormalizeText(text)
  {
    var a, b := text[..i], text[i..];
    assert text == a + b;
    var withC := text[..i] + [c] + text[i..];
    assert withC == (a + [c]) + b;
    ToLowerAppend(a + [c], b);
    ToLowerAppend(a, [c]);
    ToLowerAppend(a, b);
    assert ToLower([c]) == [LowerChar(c)];
    assert LowerChar(c) == c;
    var la, lb := ToLower(a), ToLower(b);
    assert ToLower(withC) == (la + [c]) + lb;
    FilterCharsAppend(la + [c], lb, KeptByNormalize);
    FilterCharsAppend(la, [c], KeptByNormalize);
    FilterCharsAppend(la, lb, KeptByNormalize);
    assert FilterChars([c], KeptByNormalize) == [] by {
      assert [c][1..] == [];
    }
    assert FilterChars(ToLower(withC), KeptByNormalize) == FilterChars(ToLower(text), KeptByNormalize);
  }

  // ---------------------------------------------------------------- edit distance

  function Min(a: nat, b: nat): nat { if a <= b then a else b }

  function Cost(x: string, y: string): nat { if x == y then 0 else 1 }

  /** Edit distance between refWords[..i] and hypWords[..j] (insertions, deletions, substitutions). */
  function Dist(refWords: seq<string>, hypWords: seq<string>, i: nat, j: nat): nat
    requires i <= |refWords| && j <= |hypWords|
    decreases i + j
  {
    if i == 0 then j
    else if j == 0 then i
    else Min(Min(Dist(refWords, hypWords, i - 1, j) + 1, Dist(refWords, hypWords, i, j - 1) + 1),
             Dist(refWords, hypWords, i - 1, j - 1) + Cost(refWords[i - 1], hypWords[j - 1]))
  }

  lemma DistStep(a: seq<string>, b: seq<string>, i: nat, j: nat)
    requires 0 < i <= |a| && 0 < j <= |b|
    ensures Dist(a, b, i, j) == Min(Min(Dist(a, b, i - 1, j) + 1, Dist(a, b, i, j - 1) + 1),
                                    Dist(a, b, i - 1, j - 1) + Cost(a[i - 1], b[j - 1]))
  {
  }

  /** A table cell from the cells above, to the left and diagonally above-left of it. */
  lemma CellValue(a: seq<string>, b: seq<string>, i: nat, j: nat, up: nat, left: nat, diag: nat, cost: nat)
    requires 0 < i <= |a| && 0 < j <= |b|
    requires up == Dist(a, b, i - 1, j) && left == Dist(a, b, i, j - 1) && diag == Dist(a, b, i - 1, j - 1)
    requires cost == if a[i - 1] == b[j - 1] then 0 else 1
    ensures Min(Min(up + 1, left + 1), diag + cost) == Dist(a, b, i, j)
  {
    DistStep(a, b, i, j);
  }

  function EditDistance(refWords: seq<string>, hypWords: seq<string>): nat
  {
    Dist(refWords, hypWords, |refWords|, |hypWords|)
  }

  function Max(a: nat, b: nat): nat { if a >= b then a else b }

  lemma {:induction false} DistUpperBound(a: seq<string>, b: seq<string>, i: nat, j: nat)
    requires i <= |a| && j <= |b|
    ensures Dist(a, b, i, j) <= Max(i, j)
    decreases i + j
  {
    if i > 0 && j > 0 {
      DistUpperBound(a, b, i - 1, j - 1);
    }
  }

  lemma {:induction false} DistLowerBound(a: seq<string>, b: seq<string>, i: nat, j: nat)
    requires i <= |a| && j <= |b|
    ensures Dist(a, b, i, j) >= i - j && Dist(a, b, i, j) >= j - i
    decreases i + j
  {
    if i > 0 && j > 0 {
      DistLowerBound(a, b, i - 1, j);
      DistLowerBound(a, b, i, j - 1);
      DistLowerBound(a, b, i - 1, j - 1);
    }
  }

  lemma {:induction false} DistOfEqualPrefixes(a: seq<string>, b: seq<string>, i: nat)
    requires i <= |a| && i <= |b| && a[..i] == b[..i]
    ensures Dist(a, b, i, i) == 0
  {
    if i > 0 {
      assert a[..i - 1] == b[..i - 1] by { assert a[..i - 1] == a[..i][..i - 1]; assert b[..i - 1] == b[..i][..i - 1]; }
      assert a[i - 1] == a[..i][i - 1] == b[..i][i - 1] == b[i - 1];
      DistOfEqualPrefixes(a, b, i - 1);
    }
  }

  lemma {:induction false} DistZeroMeansEqualPrefixes(a: seq<string>, b: seq<string>, i: nat, j: nat)
    requires i <= |a| && j <= |b| && Dist(a, b, i, j) == 0
    ensures i == j && a[..i] == b[..j]
    decreases i + j
  {
    DistLowerBound(a, b, i, j);
    if i > 0 && j > 0 {
      DistZeroMeansEqualPrefixes(a, b, i - 1, j - 1);
      assert a[..i] == a[..i - 1] + [a[i - 1]];
      assert b[..j] == b[..j - 1] + [b[j - 1]];
    }
  }

  /** Identical word sequences and only those are at distance zero. */
  lemma EditDistanceZeroIff(refWords: seq<string>, hypWords: seq<string>)
    ensures EditDistance(refWords, hypWords) == 0 <==> refWords == hypWords
  {
    if refWords == hypWords {
      DistOfEqualPrefixes(refWords, hypWords, |refWords|);
    }
    if EditDistance(refWords, hypWords) == 0 {
      DistZeroMeansEqualPrefixes(refWords, hypWords, |refWords|, |hypWords|);
      assert refWords == refWords[..|refWords|];
      assert hypWords == hypWords[..|hypWords|];
    }
  }

  /** Against an empty side the distance is the length of the other side; it never exceeds the longer one. */
  lemma EditDistanceBounds(refWords: seq<string>, hypWords: seq<string>)
    ensures hypWords == [] ==> EditDistance(refWords, hypWords) == |refWords|
    ensures refWords == [] ==> EditDistance(refWords, hypWords) == |hypWords|
    ensures EditDistance(refWords, hypWords) <= Max(|refWords|, |hypWords|)
  {
    DistUpperBound(refWords, hypWords, |refWords|, |hypWords|);
  }

  lemma {:induction false} DistOneSubstitution(a: seq<string>, b: seq<string>, k: nat, i: nat)
    requires |a| == |b| && k < |a| && i <= |a|
    requires forall p :: 0 <= p < |a| && p != k ==> a[p] == b[p]
    ensures Dist(a, b, i, i) <= if i > k then 1 else 0
  {
    if i > 0 {
      DistOneSubstitution(a, b, k, i - 1);
    }
  }

  /** Two equally long word sequences differing in exactly one position are at distance 1. */
  lemma OneSubstitution(refWords: seq<string>, hypWords: seq<string>, k: nat)
    requires |refWords| == |hypWords| && k < |refWords| && refWords[k] != hypWords[k]
    requires forall p :: 0 <= p < |refWords| && p != k ==> refWords[p] == hypWords[p]
    ensures EditDistance(refWords, hypWords) == 1
  {
    DistOneSubstitution(refWords, hypWords, k, |refWords|);
    EditDistanceZeroIff(refWords, hypWords);
  }

  /** `levenshtein_words`: two rows of the dynamic-programming table, swapped after each reference word. */
  method LevenshteinWords(refWords: seq<string>, hypWords: seq<string>) returns (d: nat)
    ensures d == EditDistance(refWords, hypWords)
  {
    var m, n := |refWords|, |hypWords|;
    var prev := new nat[n + 1](j => j);
    var curr := new nat[n + 1];
    var i := 1;
    while i <= m
      invariant 1 <= i <= m + 1
      invariant fresh(prev) && fresh(curr)
      invariant prev != curr && prev.Length == n + 1 && curr.Length == n + 1
      invariant forall j {:trigger prev[j]} :: 0 <= j <= n ==> prev[j] == Dist(refWords, hypWords, i - 1, j)
    {
      FillRow(refWords, hypWords, i, prev, curr);
      prev, curr := curr, prev;
      i := i + 1;
    }
    d := prev[n];
  }

  /** One pass of the outer loop: row `i` of the table computed into `curr` from row `i - 1` in `prev`. */
  method FillRow(refWords: seq<string>, hypWords: seq<string>, i: nat, prev: array<nat>, curr: array<nat>)
    requires 1 <= i <= |refWords|
    requires prev != curr && prev.Length == |hypWords| + 1 && curr.Length == |hypWords| + 1
    requires forall k {:trigger prev[k]} :: 0 <= k <= |hypWords| ==> prev[k] == Dist(refWords, hypWords, i - 1, k)
    modifies curr
    ensures forall k {:trigger curr[k]} :: 0 <= k <= |hypWords| ==> curr[k] == Dist(refWords, hypWords, i, k)
  {
    var n := |hypWords|;
    curr[0] := i;
    var j := 1;
    while j <= n
      invariant 1 <= j <= n + 1
      invariant forall k {:trigger curr[k]} :: 0 <= k < j ==> curr[k] == Dist(refWords, hypWords, i, k)
      invariant forall k {:trigger prev[k]} :: 0 <= k <= n ==> prev[k] == Dist(refWords, hypWords, i - 1, k)
    {
      var cost := if refWords[i - 1] == hypWords[j - 1] then 0 else 1;
      var v := Min(Min(prev[j] + 1, curr[j - 1] + 1), prev[j - 1] + cost);
      CellValue(refWords, hypWords, i, j, prev[j], curr[j - 1], prev[j - 1], cost);
      curr[j] := v;
      j := j + 1;
    }
  }

  // ---------------------------------------------------------------- word error rate

  /** The exact value num/den of the `f64` rate. */
  datatype Rate = Rate(num: nat, den: nat)

  /** `(wer, edit_distance, reference_word_count)`. */
  datatype WerResult = WerResult(rate: Rate, edits: nat, refWords: nat)

  const ZeroWer := WerResult(Rate(0, 1), 0, 0)

  /** What `word_error_rate` returns for a reference and a hypothesis. */
  function Wer(reference: string, hypothesis: string): (r: WerResult)
    ensures r.rate.den > 0
  {
    var refWords, hypWords := NormalizeWords(reference), NormalizeWords(hypothesis);
    if refWords == [] then
      (if hypWords == [] then ZeroWer else WerResult(Rate(1, 1), |hypWords|, 0))
    else
      var d := EditDistance(refWords, hypWords);
      WerResult(Rate(d, |refWords|), d, |refWords|)
  }

  method WordErrorRate(reference: string, hypothesis: string) returns (r: WerResult)
    ensures r == Wer(reference, hypothesis)
  {
    var refWords := NormalizeWords(reference);
    var hypWords := NormalizeWords(hypothesis);
    if refWords == [] {
      return if hypWords == [] then ZeroWer else WerResult(Rate(1, 1), |hypWords|, 0);
    }
    var distance := LevenshteinWords(refWords, hypWords);
    r := WerResult(Rate(distance, |refWords|), distance, |refWords|);
  }

  /** Zero edits exactly when both sides normalise to the same words; the rate is then 0. */
  lemma WerZeroIff(reference: string, hypothesis: string)
    ensures Wer(reference, hypothesis).edits == 0 <==> NormalizeWords(reference) == NormalizeWords(hypothesis)
    ensures Wer(reference, hypothesis).edits == 0 ==> Wer(reference, hypothesis).rate.num == 0
  {
    EditDistanceZeroIff(NormalizeWords(reference), NormalizeWords(hypothesis));
  }

  /** Differences of case or inserted punctuation cost no edits. */
  lemma WerIgnoresCaseAndPunctuation(reference: string, i: nat, c: char)
    requires i <= |reference|
    requires !IsAlphanumeric(c) && !IsWhitespace(c)
    ensures Wer(reference, ToLower(reference)).edits == 0
    ensures Wer(reference, reference[..i] + [c] + reference[i..]).edits == 0
  {
    NormalizeIgnoresCase(reference);
    NormalizeIgnoresPunctuation(reference, i, c);
    WerZeroIff(reference, ToLower(reference));
    WerZeroIff(reference, reference[..i] + [c] + reference[i..]);
  }

  /** The rate is edits over reference words, and at most 1 when the hypothesis is no longer than the reference. */
  lemma WerRateBounds(reference: string, hypothesis: string)
    ensures var r := Wer(reference, hypothesis);
      r.refWords == |NormalizeWords(reference)| &&
      (r.refWords > 0 ==> r.rate == Rate(r.edits, r.refWords)) &&
      (0 < |NormalizeWords(hypothesis)| <= |NormalizeWords(reference)| ==> r.rate.num <= r.rate.den)
  {
    EditDistanceBounds(NormalizeWords(reference), NormalizeWords(hypothesis));
  }

  /** One substituted word among two gives rate 1/2. */
  lemma WerOneSubstitutionInTwo(reference: string, hypothesis: string)
    requires |NormalizeWords(reference)| == 2 && |NormalizeWords(hypothesis)| == 2
    requires NormalizeWords(reference)[0] == NormalizeWords(hypothesis)[0]
    requires NormalizeWords(reference)[1] != NormalizeWords(hypothesis)[1]
    ensures Wer(reference, hypothesis) == WerResult(Rate(1, 2), 1, 2)
  {
    OneSubstitution(NormalizeWords(reference), NormalizeWords(hypothesis), 1);
  }

  // ---------------------------------------------------------------- aggregate

  function TotalEdits(pairs: seq<(string, string)>): nat
  {
    if pairs == [] then 0 else TotalEdits(pairs[..|pairs| - 1]) + Wer(pairs[|pairs| - 1].0, pairs[|pairs| - 1].1).edits
  }

  function TotalRefWords(pairs: seq<(string, string)>): nat
  {
    if pairs == [] then 0 else TotalRefWords(pairs[..|pairs| - 1]) + Wer(pairs[|pairs| - 1].0, pairs[|pairs| - 1].1).refWords
  }

  /** The micro-average: totals over all pairs, and all zero when no pair has a reference word. */
  function AggregateSpec(pairs: seq<(string, string)>): WerResult
  {
    var e, w := TotalEdits(pairs), TotalRefWords(pairs);
    if w == 0 then ZeroWer else WerResult(Rate(e, w), e, w)
  }

  method AggregateWer(pairs: seq<(string, string)>) returns (r: WerResult)
    ensures r == AggregateSpec(pairs)
    ensures r.refWords == 0 ==> r == ZeroWer
  {
    var totalEdits, totalRefWords := 0, 0;
    var k := 0;
    while k < |pairs|
      invariant 0 <= k <= |pairs|
      invariant totalEdits == TotalEdits(pairs[..k]) && totalRefWords == TotalRefWords(pairs[..k])
    {
      var w := WordErrorRate(pairs[k].0, pairs[k].1);
      assert pairs[..k + 1][..k] == pairs[..k];
      totalEdits := totalEdits + w.edits;
      totalRefWords := totalRefWords + w.refWords;
      k := k + 1;
    }
    assert pairs[..k] == pairs;
    if totalRefWords == 0 {
      return ZeroWer;
    }
    r := WerResult(Rate(totalEdits, totalRefWords), totalEdits, totalRefWords);
  }

  /** Totals are additive over concatenated batches. */
  lemma {:induction false} TotalsAppend(a: seq<(string, string)>, b: seq<(string, string)>)
    ensures TotalEdits(a + b) == TotalEdits(a) + TotalEdits(b)
    ensures TotalRefWords(a + b) == TotalRefWords(a) + TotalRefWords(b)
    decreases |b|
  {
    if b == [] {
      assert a + b == a;
    } else {
      var init, last := b[..|b| - 1], b[|b| - 1];
      TotalsAppend(a, init);
      assert (a + b)[..|a + b| - 1] == a + init;
      assert (a + b)[|a + b| - 1] == last;
    }
  }

  /** A batch of one pair with reference words aggregates to that pair's WER. */
  lemma AggregateOfOne(reference: string, hypothesis: string)
    requires NormalizeWords(reference) != []
    ensures AggregateSpec([(reference, hypothesis)]) == Wer(reference, hypothesis)
  {
    var batch := [(reference, hypothesis)];
    assert batch[..0] == [];
    assert TotalEdits(batch) == Wer(reference, hypothesis).edits;
    assert TotalRefWords(batch) == Wer(reference, hypothesis).refWords == |NormalizeWords(reference)|;
  }

  /** Pairs without reference words still contribute their edits, but an all-empty batch reports zero. */
  lemma AggregateDropsEditsWithoutReference(hypothesis: string)
    requires NormalizeWords(hypothesis) != []
    ensures Wer("", hypothesis).edits > 0
    ensures AggregateSpec([("", hypothesis)]) == ZeroWer
  {
    var batch := [("", hypothesis)];
    assert batch[..0] == [];
    assert NormalizeText("") == [] by {
      assert ToLower("") == [];
      assert FilterChars("", KeptByNormalize) == [];
      assert SplitWhitespace("") == [];
    }
    assert NormalizeWords("") == [];
    assert TotalRefWords(batch) == 0;
  }
}
