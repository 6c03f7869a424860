/**
 * String helpers shared by the parsers and the handlers: the character classes and the
 * `str` methods (`trim`, `split`, `split_whitespace`, `lines`, `starts_with`, `contains`,
 * `join`, integer parsing) that the Rust code calls. Character classes cover ASCII and
 * Latin-1; code points above U+00FF are treated as neither whitespace nor alphanumeric.
 */
module Text {
  import opened Wrappers

  // ---------------------------------------------------------------- character classes

  /** `char::is_whitespace` restricted to U+0000..U+00FF. */
  predicate IsWhitespace(c: char) {
    c == ' ' || ('\t' <= c <= '\r') || c as int == 0x85 || c as int == 0xA0
  }

  predicate IsAsciiDigit(c: char) { '0' <= c <= '9' }

  predicate IsAsciiLetter(c: char) { ('a' <= c <= 'z') || ('A' <= c <= 'Z') }

  /** `char::is_alphanumeric` restricted to U+0000..U+00FF (Latin-1 letters and numerics included). */
  predicate IsAlphanumeric(c: char) {
    IsAsciiDigit(c) || IsAsciiLetter(c)
    || c as int == 0xAA || c as int == 0xB5 || c as int == 0xBA
    || c as int == 0xB2 || c as int == 0xB3 || c as int == 0xB9
    || (0xBC <= c as int <= 0xBE)
    || (0xC0 <= c as int <= 0xFF && c as int != 0xD7 && c as int != 0xF7)
  }

  predicate IsUpper(c: char) {
    ('A' <= c <= 'Z') || (0xC0 <= c as int <= 0xDE && c as int != 0xD7)
  }

  /** `char::to_lowercase` restricted to U+0000..U+00FF, where it is one character to one. */
  function LowerChar(c: char): (r: char)
    ensures !IsUpper(r)
    ensures IsAlphanumeric(r) <==> IsAlphanumeric(c)
    ensures IsWhitespace(r) <==> IsWhitespace(c)
    ensures !IsUpper(c) ==> r == c
  {
    if IsUpper(c) then (c as int + 32) as char else c
  }

  function ToLower(s: string): (r: string)
    ensures |r| == |s|
    ensures forall i :: 0 <= i < |s| ==> r[i] == LowerChar(s[i])
  {
    if s == [] then [] else [LowerChar(s[0])] + ToLower(s[1..])
  }

  lemma {:induction false} ToLowerAppend(a: string, b: string)
    ensures ToLower(a + b) == ToLower(a) + ToLower(b)
  {
    if a == [] {
      assert a + b == b;
    } else {
      assert (a + b)[1..] == a[1..] + b;
      ToLowerAppend(a[1..], b);
    }
  }

  lemma ToLowerIdempotent(s: string)
    ensures ToLower(ToLower(s)) == ToLower(s)
  {
  }

  // ---------------------------------------------------------------- searching

  predicate StartsWith(s: string, p: string) { |p| <= |s| && s[..|p|] == p }

  predicate OccursAt(s: string, t: string, k: nat) { k + |t| <= |s| && s[k..k + |t|] == t }

  /** The first occurrence of `t` in `s` at or after `from`, as `str::find` does from the start. */
  function FindFrom(s: string, t: string, from: nat): (r: Option<nat>)
    requires from <= |s|
    ensures r.Some? ==> from <= r.value && OccursAt(s, t, r.value)
    ensures r.Some? ==> forall k: nat :: from <= k < r.value ==> !OccursAt(s, t, k)
    ensures r.None? ==> forall k: nat :: from <= k ==> !OccursAt(s, t, k)
    decreases |s| - from
  {
    if OccursAt(s, t, from) then Some(from)
    else if from == |s| then None
    else FindFrom(s, t, from + 1)
  }

  function Find(s: string, t: string): (r: Option<nat>)
    ensures r.Some? ==> OccursAt(s, t, r.value) && forall k: nat :: k < r.value ==> !OccursAt(s, t, k)
    ensures r.None? ==> forall k: nat :: !OccursAt(s, t, k)
  {
    FindFrom(s, t, 0)
  }

  /** An occurrence with none before it is the one `Find` returns. */
  lemma FindFirstAt(s: string, t: string, i: nat)
    requires OccursAt(s, t, i)
    requires forall k: nat :: k < i ==> !OccursAt(s, t, k)
    ensures Find(s, t) == Some(i)
  {
  }

  predicate Contains(s: string, t: string) { Find(s, t).Some? }

  lemma ContainsMeansOccurs(s: string, t: string)
    ensures Contains(s, t) <==> exists k: nat :: OccursAt(s, t, k)
  {
  }

  function IndexOf(s: string, c: char): (r: Option<nat>)
    ensures r.Some? ==> r.value < |s| && s[r.value] == c && c !in s[..r.value]
    ensures r.None? ==> c !in s
  {
    if s == [] then None
    else if s[0] == c then Some(0)
    else match IndexOf(s[1..], c)
      case None => None
      case Some(i) => assert s[1..][..i] == s[1..i + 1]; Some(i + 1)
  }

  // ---------------------------------------------------------------- trimming

  function TrimStart(s: string): (r: string)
    ensures |r| <= |s|
    ensures r == [] || !IsWhitespace(r[0])
  {
    if s != [] && IsWhitespace(s[0]) then TrimStart(s[1..]) else s
  }

  function TrimEnd(s: string): (r: string)
    ensures |r| <= |s|
    ensures r == [] || !IsWhitespace(r[|r| - 1])
  {
    if s != [] && IsWhitespace(s[|s| - 1]) then TrimEnd(s[..|s| - 1]) else s
  }

  /** `TrimStart` removes a prefix made of whitespace only. */
  lemma {:induction false} TrimStartDropsWhitespace(s: string)
    ensures var r := TrimStart(s); r == s[|s| - |r|..] && forall i :: 0 <= i < |s| - |r| ==> IsWhitespace(s[i])
  {
    if s != [] && IsWhitespace(s[0]) {
      TrimStartDropsWhitespace(s[1..]);
    }
  }

  /** `TrimEnd` removes a suffix made of whitespace only. */
  lemma {:induction false} TrimEndDropsWhitespace(s: string)
    ensures var r := TrimEnd(s); r == s[..|r|] && forall i :: |r| <= i < |s| ==> IsWhitespace(s[i])
  {
    if s != [] && IsWhitespace(s[|s| - 1]) {
      TrimEndDropsWhitespace(s[..|s| - 1]);
    }
  }

  /** `str::trim`: the longest slice with no whitespace at either end. */
  function Trim(s: string): (r: string)
    ensures |r| <= |s|
    ensures r == [] || (!IsWhitespace(r[0]) && !IsWhitespace(r[|r| - 1]))
  {
    TrimEndDropsWhitespace(TrimStart(s));
    TrimEnd(TrimStart(s))
  }

  lemma TrimOfBlankFree(s: string)
    requires s == [] || (!IsWhitespace(s[0]) && !IsWhitespace(s[|s| - 1]))
    ensures Trim(s) == s
  {
    assert TrimStart(s) == s;
    assert TrimEnd(s) == s;
  }

  /** `t` is `s` with a whitespace-only prefix and a whitespace-only suffix removed. */
  predicate TrimmedSliceOf(s: string, t: string)
  {
    exists a, b :: 0 <= a <= b <= |s| && t == s[a..b]
      && (forall i :: 0 <= i < a ==> IsWhitespace(s[i]))
      && (forall i :: b <= i < |s| ==> IsWhitespace(s[i]))
  }

  /** `trim` only removes whitespace at the two ends: what remains is a slice of the input. */
  lemma TrimIsSlice(s: string)
    ensures TrimmedSliceOf(s, Trim(s))
  {
    TrimStartDropsWhitespace(s);
    TrimEndDropsWhitespace(TrimStart(s));
    SliceOfSlices(s, TrimStart(s), Trim(s));
  }

  /** A whitespace-free-edged prefix of a suffix, cut off only at whitespace, is a trimmed slice. */
  lemma SliceOfSlices(s: string, t: string, r: string)
    requires |t| <= |s| && t == s[|s| - |t|..] && forall i :: 0 <= i < |s| - |t| ==> IsWhitespace(s[i])
    requires |r| <= |t| && r == t[..|r|] && forall i :: |r| <= i < |t| ==> IsWhitespace(t[i])
    ensures TrimmedSliceOf(s, r)
  {
    var a := |s| - |t|;
    var b := a + |r|;
    assert r == s[a..b] by {
      assert s[a..][..|r|] == s[a..b];
    }
    forall i | b <= i < |s| ensures IsWhitespace(s[i]) {
      assert s[i] == t[i - a];
    }
  }

  /** Trimming twice trims no more than once. */
  lemma TrimIdempotent(s: string)
    ensures Trim(Trim(s)) == Trim(s)
  {
    TrimOfBlankFree(Trim(s));
  }

  predicate IsBlank(s: string) { Trim(s) == [] }

  lemma BlankIffAllWhitespace(s: string)
    ensures IsBlank(s) <==> forall i :: 0 <= i < |s| ==> IsWhitespace(s[i])
  {
    var t := TrimStart(s);
    TrimStartDropsWhitespace(s);
    TrimEndDropsWhitespace(t);
    if !forall i :: 0 <= i < |s| ==> IsWhitespace(s[i]) {
      var i :| 0 <= i < |s| && !IsWhitespace(s[i]);
      assert t[i - (|s| - |t|)] == s[i];
    }
  }

  // ---------------------------------------------------------------- splitting and joining

  /** The pieces joined by `sep`, as `[&str]::join` does. */
  function Join(parts: seq<string>, sep: string): (r: string)
  {
    if |parts| == 0 then [] else if |parts| == 1 then parts[0] else parts[0] + sep + Join(parts[1..], sep)
  }

  lemma JoinCons(x: string, tail: seq<string>, sep: string)
    requires |tail| >= 1
    ensures Join([x] + tail, sep) == x + sep + Join(tail, sep)
  {
    assert ([x] + tail)[1..] == tail;
  }

  /** `str::split` on one character: keeps empty pieces, always at least one piece. */
  function SplitOn(s: string, c: char): (r: seq<string>)
    ensures |r| >= 1
    ensures forall k :: 0 <= k < |r| ==> c !in r[k]
    decreases |s|
  {
    match IndexOf(s, c)
    case None => [s]
    case Some(i) => [s[..i]] + SplitOn(s[i + 1..], c)
  }

  lemma {:induction false} SplitOnJoin(s: string, c: char)
    ensures Join(SplitOn(s, c), [c]) == s
    decreases |s|
  {
    match IndexOf(s, c)
    case None =>
    case Some(i) =>
      var tail := SplitOn(s[i + 1..], c);
      SplitOnJoin(s[i + 1..], c);
      assert SplitOn(s, c) == [s[..i]] + tail;
      JoinCons(s[..i], tail, [c]);
      assert s == s[..i] + [c] + s[i + 1..];
  }

  /** `str::split` on a non-empty string separator, leftmost non-overlapping matches. */
  function SplitOnStr(s: string, sep: string): (r: seq<string>)
    requires |sep| > 0
    ensures |r| >= 1
    decreases |s|
  {
    match Find(s, sep)
    case None => [s]
    case Some(i) => [s[..i]] + SplitOnStr(s[i + |sep|..], sep)
  }

  lemma {:induction false} SplitOnStrJoin(s: string, sep: string)
    requires |sep| > 0
    ensures Join(SplitOnStr(s, sep), sep) == s
    decreases |s|
  {
    match Find(s, sep)
    case None =>
    case Some(i) =>
      var rest := s[i + |sep|..];
      var tail := SplitOnStr(rest, sep);
      SplitOnStrJoin(rest, sep);
      assert SplitOnStr(s, sep) == [s[..i]] + tail;
      JoinCons(s[..i], tail, sep);
      assert OccursAt(s, sep, i);
      assert s == s[..i] + s[i..i + |sep|] + rest;
  }

  /** A word of `split_whitespace`: non-empty and free of whitespace. */
  predicate IsWord(w: string) { |w| > 0 && forall i :: 0 <= i < |w| ==> !IsWhitespace(w[i]) }

  /** Length of the run of non-whitespace characters at the start of `s`. */
  function WordLength(s: string): (n: nat)
    ensures n <= |s|
    ensures forall i :: 0 <= i < n ==> !IsWhitespace(s[i])
    ensures n == |s| || IsWhitespace(s[n])
  {
    if s == [] || IsWhitespace(s[0]) then 0 else 1 + WordLength(s[1..])
  }

  /** `str::split_whitespace`: the maximal runs of non-whitespace characters, in order. */
  function SplitWhitespace(s: string): (r: seq<string>)
    ensures forall k :: 0 <= k < |r| ==> IsWord(r[k])
    decreases |s|
  {
    if s == [] then []
    else if IsWhitespace(s[0]) then SplitWhitespace(s[1..])
    else
      var n := WordLength(s);
      [s[..n]] + SplitWhitespace(s[n..])
  }

  lemma {:induction false} WordLengthOfWord(w: string, tail: string)
    requires IsWord(w)
    requires tail == [] || IsWhitespace(tail[0])
    ensures WordLength(w + tail) == |w|
    decreases |w|
  {
    if |w| > 1 {
      assert (w + tail)[1..] == w[1..] + tail;
      WordLengthOfWord(w[1..], tail);
    } else {
      assert (w + tail)[1..] == tail;
    }
  }

  /** Splitting words joined with single spaces gives the words back. */
  lemma {:induction false} SplitJoinWords(words: seq<string>)
    requires forall k :: 0 <= k < |words| ==> IsWord(words[k])
    ensures SplitWhitespace(Join(words, " ")) == words
  {
    if |words| == 1 {
      var w := words[0];
      WordLengthOfWord(w, []);
      assert w + [] == w;
      assert w[|w|..] == [];
    } else if |words| > 1 {
      var w := words[0];
      var rest := Join(words[1..], " ");
      var s := w + " " + rest;
      assert Join(words, " ") == s;
      WordLengthOfWord(w, " " + rest);
      assert s == w + (" " + rest);
      assert s[..|w|] == w;
      assert s[|w|..] == " " + rest;
      assert (" " + rest)[1..] == rest;
      SplitJoinWords(words[1..]);
      assert words == [w] + words[1..];
    }
  }

  /** A string of words separated by single spaces, without leading or trailing space. */
  predicate SingleSpaced(s: string) {
    forall i :: 0 <= i < |s| && IsWhitespace(s[i]) ==> s[i] == ' ' && 0 < i < |s| - 1 && !IsWhitespace(s[i + 1])
  }

  lemma {:induction false} JoinWordsSingleSpaced(words: seq<string>)
    requires forall k :: 0 <= k < |words| ==> IsWord(words[k])
    ensures SingleSpaced(Join(words, " "))
    ensures |words| > 0 ==> |Join(words, " ")| > 0 && !IsWhitespace(Join(words, " ")[0])
  {
    if |words| > 1 {
      var w := words[0];
      var rest := Join(words[1..], " ");
      JoinWordsSingleSpaced(words[1..]);
      var s := w + " " + rest;
      assert Join(words, " ") == s;
      forall i | 0 <= i < |s| && IsWhitespace(s[i])
        ensures s[i] == ' ' && 0 < i < |s| - 1 && !IsWhitespace(s[i + 1])
      {
        if i > |w| {
          assert s[i] == rest[i - |w| - 1];
          assert s[i + 1] == rest[i - |w|];
        } else if i == |w| {
          assert s[i + 1] == rest[0];
        }
      }
    }
  }

  /** Characters kept by a predicate, in order. */
  function FilterChars(s: string, keep: char -> bool): (r: string)
    ensures |r| <= |s|
    ensures forall i :: 0 <= i < |r| ==> keep(r[i])
  {
    if s == [] then [] else (if keep(s[0]) then [s[0]] else []) + FilterChars(s[1..], keep)
  }

  lemma {:induction false} FilterCharsAppend(a: string, b: string, keep: char -> bool)
    ensures FilterChars(a + b, keep) == FilterChars(a, keep) + FilterChars(b, keep)
  {
    if a != [] {
      assert (a + b)[1..] == a[1..] + b;
      FilterCharsAppend(a[1..], b, keep);
    } else {
      assert a + b == b;
    }
  }

  lemma FilterCharsOfChars(s: string, keep: char -> bool)
    ensures forall c :: c in FilterChars(s, keep) ==> c in s
  {
  }

  // ---------------------------------------------------------------- lines

  /** `str::lines`: split at "\n" (a "\r" just before it is dropped); no line after a final "\n". */
  function Lines(s: string): (r: seq<string>)
    ensures forall k :: 0 <= k < |r| ==> '\n' !in r[k]
    decreases |s|
  {
    if s == [] then []
    else match IndexOf(s, '\n')
      case None => [s]
      case Some(i) =>
        var line := s[..i];
        [if |line| > 0 && line[|line| - 1] == '\r' then line[..|line| - 1] else line] + Lines(s[i + 1..])
  }

  // ---------------------------------------------------------------- numbers

  function DigitValue(c: char): nat requires IsAsciiDigit(c) { (c as int) - ('0' as int) }

  predicate AllDigits(s: string) { forall i :: 0 <= i < |s| ==> IsAsciiDigit(s[i]) }

  /** The decimal value of a digit string, most significant digit first. */
  function DigitsValue(s: string): nat
    requires AllDigits(s)
  {
    if s == [] then 0 else 10 * DigitsValue(s[..|s| - 1]) + DigitValue(s[|s| - 1])
  }

  const USIZE_LIMIT: nat := 0x1_0000_0000_0000_0000

  /** `str::parse::<usize>` on a 64-bit target: an optional '+', then one or more digits, below 2^64. */
  function ParseUsize(s: string): (r: Option<nat>)
    ensures r.Some? ==> r.value < USIZE_LIMIT
    ensures r.Some? ==> |s| > 0
  {
    var digits := if |s| > 0 && s[0] == '+' then s[1..] else s;
    if |digits| > 0 && AllDigits(digits) && DigitsValue(digits) < USIZE_LIMIT then Some(DigitsValue(digits)) else None
  }

  function DigitChar(d: nat): (c: char)
    requires d < 10
    ensures IsAsciiDigit(c) && DigitValue(c) == d
  {
    ('0' as int + d) as char
  }

  /** Decimal rendering of a natural number, as `format!("{}")` prints it. */
  function NatToString(n: nat): (r: string)
    ensures |r| > 0 && AllDigits(r)
    ensures n < 10 ==> |r| == 1
  {
    if n < 10 then [DigitChar(n)] else NatToString(n / 10) + [DigitChar(n % 10)]
  }

  lemma {:induction false} NatToStringRoundTrip(n: nat)
    ensures DigitsValue(NatToString(n)) == n
  {
    if n >= 10 {
      NatToStringRoundTrip(n / 10);
      var r := NatToString(n);
      assert r[..|r| - 1] == NatToString(n / 10);
    }
  }

  function Pow10(k: nat): (r: nat)
    ensures r >= 1
  {
    if k == 0 then 1 else 10 * Pow10(k - 1)
  }

  lemma {:induction false} DigitsValueBound(s: string)
    requires AllDigits(s)
    ensures DigitsValue(s) < Pow10(|s|)
  {
    if s != [] {
      DigitsValueBound(s[..|s| - 1]);
    }
  }

  lemma {:induction false} NatToStringShort(n: nat, width: nat)
    requires width >= 1 && n < Pow10(width)
    ensures |NatToString(n)| <= width
  {
    if n >= 10 {
      var w := width - 1;
      assert Pow10(width) == 10 * Pow10(w);
      assert n / 10 < Pow10(w);
      if w == 0 { assert false; }
      NatToStringShort(n / 10, w);
    }
  }

  lemma {:induction false} NatToStringLength3(n: nat)
    requires 100 <= n < 1000
    ensures |NatToString(n)| == 3
  {
    assert 10 <= n / 10 < 100;
    assert n / 10 / 10 < 10;
  }

  // ---------------------------------------------------------------- replacing and padding

  /** `str::replace` of one character by another. */
  function ReplaceChar(s: string, from: char, to: char): (r: string)
    ensures |r| == |s|
  {
    if s == [] then [] else [if s[0] == from then to else s[0]] + ReplaceChar(s[1..], from, to)
  }

  lemma {:induction false} ReplaceCharAt(s: string, from: char, to: char)
    ensures forall i :: 0 <= i < |s| ==> ReplaceChar(s, from, to)[i] == if s[i] == from then to else s[i]
  {
    if s != [] { ReplaceCharAt(s[1..], from, to); }
  }

  lemma {:induction false} ReplaceCharAbsent(s: string, from: char, to: char)
    requires from !in s
    ensures ReplaceChar(s, from, to) == s
  {
    if s != [] { ReplaceCharAbsent(s[1..], from, to); }
  }

  lemma ReplaceCharKeep(a: string, b: string, from: char, to: char)
    requires from !in a
    ensures ReplaceChar(a + b, from, to) == a + ReplaceChar(b, from, to)
  {
    ReplaceCharAppend(a, b, from, to);
    ReplaceCharAbsent(a, from, to);
  }

  lemma {:induction false} ReplaceCharAppend(a: string, b: string, from: char, to: char)
    ensures ReplaceChar(a + b, from, to) == ReplaceChar(a, from, to) + ReplaceChar(b, from, to)
  {
    if a == [] {
      assert a + b == b;
    } else {
      assert (a + b)[1..] == a[1..] + b;
      ReplaceCharAppend(a[1..], b, from, to);
    }
  }

  lemma IndexOfAfter(x: string, c: char, rest: string)
    requires c !in x
    ensures IndexOf(x + ([c] + rest), c) == Some(|x|)
  {
    var s := x + ([c] + rest);
    assert s[|x|] == c;
    assert s[..|x|] == x;
  }

  lemma SplitOnCons(x: string, c: char, rest: string)
    requires c !in x
    ensures SplitOn(x + ([c] + rest), c) == [x] + SplitOn(rest, c)
  {
    IndexOfAfter(x, c, rest);
    var s := x + ([c] + rest);
    assert s[..|x|] == x;
    assert s[|x| + 1..] == rest;
  }

  lemma SplitOnAbsent(x: string, c: char)
    requires c !in x
    ensures SplitOn(x, c) == [x]
  {
  }

  function Zeros(k: nat): (r: string)
    ensures |r| == k && AllDigits(r)
  {
    if k == 0 then [] else ['0'] + Zeros(k - 1)
  }

  /** Left-pads a digit string with zeros to at least `width` characters, as `{:02}` does. */
  function PadDigits(s: string, width: nat): (r: string)
    ensures |r| >= width && |r| >= |s|
    ensures AllDigits(s) ==> AllDigits(r)
  {
    if |s| >= width then s else Zeros(width - |s|) + s
  }

  lemma {:induction false} DigitsValueOfZeros(k: nat)
    ensures DigitsValue(Zeros(k)) == 0
  {
    if k > 0 {
      DigitsValueOfZeros(k - 1);
      assert Zeros(k) == Zeros(k - 1) + ['0'] by { ZerosSnoc(k); }
      assert Zeros(k)[..k - 1] == Zeros(k - 1);
    }
  }

  lemma ZerosSnoc(k: nat)
    requires k > 0
    ensures Zeros(k) == Zeros(k - 1) + ['0']
  {
    assert forall i :: 0 <= i < k ==> Zeros(k)[i] == '0' by {
      ZerosAreZero(k);
    }
    ZerosAreZero(k - 1);
  }

  lemma {:induction false} ZerosAreZero(k: nat)
    ensures forall i :: 0 <= i < k ==> Zeros(k)[i] == '0'
  {
    if k > 0 { ZerosAreZero(k - 1); }
  }

  lemma {:induction false} DigitsValueLeadingZeros(k: nat, s: string)
    requires AllDigits(s)
    ensures AllDigits(Zeros(k) + s)
    ensures DigitsValue(Zeros(k) + s) == DigitsValue(s)
    decreases |s|
  {
    var z := Zeros(k) + s;
    assert AllDigits(z) by {
      forall i | 0 <= i < |z| ensures IsAsciiDigit(z[i]) {
        if i < k { assert z[i] == Zeros(k)[i]; } else { assert z[i] == s[i - k]; }
      }
    }
    if s == [] {
      assert z == Zeros(k);
      DigitsValueOfZeros(k);
    } else {
      DigitsValueLeadingZeros(k, s[..|s| - 1]);
      assert z[..|z| - 1] == Zeros(k) + s[..|s| - 1];
    }
  }

  lemma PadDigitsValue(s: string, width: nat)
    requires AllDigits(s)
    ensures DigitsValue(PadDigits(s, width)) == DigitsValue(s)
  {
    if |s| < width { DigitsValueLeadingZeros(width - |s|, s); }
  }

  // ---------------------------------------------------------------- encoded length

  /** Bytes of a character in UTF-8. */
  function Utf8Width(c: char): nat
  {
    if (c as int) < 0x80 then 1 else if (c as int) < 0x800 then 2 else if (c as int) < 0x10000 then 3 else 4
  }

  /** `str::len`: the UTF-8 length in bytes. */
  function Utf8Len(s: string): (n: nat)
    ensures n >= |s|
  {
    if s == [] then 0 else Utf8Width(s[0]) + Utf8Len(s[1..])
  }

  // ---------------------------------------------------------------- replacing

  /** `str::replace`: every non-overlapping occurrence of `from`, left to right, becomes `to`. */
  function ReplaceAll(s: string, from: string, to: string): (r: string)
    requires |from| > 0
    decreases |s|
  {
    if s == [] then []
    else if OccursAt(s, from, 0) then to + ReplaceAll(s[|from|..], from, to)
    else [s[0]] + ReplaceAll(s[1..], from, to)
  }

  /** A leading character that cannot start `from` is copied. */
  lemma ReplaceAllCons(c: char, s: string, from: string, to: string)
    requires |from| > 0 && c != from[0]
    ensures ReplaceAll([c] + s, from, to) == [c] + ReplaceAll(s, from, to)
  {
    assert ([c] + s)[1..] == s;
  }

  /** A prefix free of `from`'s first character is copied. */
  lemma {:induction false} ReplaceAllPrefix(p: string, s: string, from: string, to: string)
    requires |from| > 0 && from[0] !in p
    ensures ReplaceAll(p + s, from, to) == p + ReplaceAll(s, from, to)
    decreases |p|
  {
    if p != [] {
      ReplaceAllPrefix(p[1..], s, from, to);
      assert p + s == [p[0]] + (p[1..] + s);
      ReplaceAllCons(p[0], p[1..] + s, from, to);
      var r := ReplaceAll(s, from, to);
      assert [p[0]] + (p[1..] + r) == ([p[0]] + p[1..]) + r;
      assert p == [p[0]] + p[1..];
    } else {
      assert p + s == s;
    }
  }

  /** Without an occurrence of `from` the text is unchanged. */
  lemma {:induction false} ReplaceAllAbsent(s: string, from: string, to: string)
    requires |from| > 0 && !Contains(s, from)
    ensures ReplaceAll(s, from, to) == s
    decreases |s|
  {
    if s != [] {
      assert !OccursAt(s, from, 0);
      forall k: nat ensures !OccursAt(s[1..], from, k) {
        assert !OccursAt(s, from, k + 1);
        if k + |from| <= |s[1..]| {
          assert s[1..][k..k + |from|] == s[k + 1..k + 1 + |from|];
        }
      }
      ReplaceAllAbsent(s[1..], from, to);
    }
  }
}
