/** Python `str` behaviour the scraper relies on: whitespace, lower-casing,
    splitting, stripping, searching, replacing, integer conversion and the
    ordering used by `sorted`. Strings are sequences of code points, as in
    Python 3. */
module Text {

  import opened Base

  /** `str.isspace()` for a single code point: the characters CPython's
      `str.split()` and `str.strip()` treat as whitespace. */
  predicate IsSpace(c: char) {
    || c == ' '
    || ('\t' <= c <= '\r')
    || ('\U{1c}' <= c <= '\U{1f}')
    || c == '\U{85}' || c == '\U{a0}' || c == '\U{1680}'
    || ('\U{2000}' <= c <= '\U{200a}')
    || c == '\U{2028}' || c == '\U{2029}' || c == '\U{202f}'
    || c == '\U{205f}' || c == '\U{3000}'
  }

  predicate IsDigit(c: char) {
    '0' <= c <= '9'
  }

  predicate AllSpace(s: string) {
    forall i :: 0 <= i < |s| ==> IsSpace(s[i])
  }

  predicate NoSpace(s: string) {
    forall i :: 0 <= i < |s| ==> !IsSpace(s[i])
  }

  predicate AllDigits(s: string) {
    forall i :: 0 <= i < |s| ==> IsDigit(s[i])
  }

  // ---------------------------------------------------------------------
  // Lower-casing

  function LowerChar(c: char): char {
    if 'A' <= c <= 'Z' then (c as int + 32) as char else c
  }

  /** `str.lower()` restricted to the ASCII letters. */
  function Lower(s: string): (r: string)
    ensures |r| == |s|
    ensures forall i :: 0 <= i < |s| ==> r[i] == LowerChar(s[i])
  {
    seq(|s|, i requires 0 <= i < |s| => LowerChar(s[i]))
  }

  /** Lower-casing a lower-cased string changes nothing. */
  lemma LowerIdempotent(s: string)
    ensures Lower(Lower(s)) == Lower(s)
  {
    assert forall i :: 0 <= i < |s| ==> LowerChar(LowerChar(s[i])) == LowerChar(s[i]);
  }

  /** The strings that lower-case to "y" are exactly "y" and "Y". */
  lemma LowerIsY(s: string)
    ensures Lower(s) == "y" <==> s == "y" || s == "Y"
  {
    if Lower(s) == "y" {
      assert |s| == 1 && LowerChar(s[0]) == 'y';
      assert s == [s[0]];
    }
  }

  // ---------------------------------------------------------------------
  // Searching

  /** Position of the first `c` in `s` (`|s|` when there is none), as
      `str.find` returns it with -1 read as `|s|`. */
  function FirstIndex(s: string, c: char): (i: nat)
    ensures i <= |s|
    ensures i < |s| ==> s[i] == c
    ensures forall j :: 0 <= j < i ==> s[j] != c
  {
    if s == [] then 0
    else if s[0] == c then 0
    else 1 + FirstIndex(s[1..], c)
  }

  function Count(s: string, c: char): (n: nat)
    ensures n == 0 <==> c !in s
  {
    if s == [] then 0
    else (if s[0] == c then 1 else 0) + Count(s[1..], c)
  }

  lemma CountSplit(s: string, t: string, c: char)
    ensures Count(s + t, c) == Count(s, c) + Count(t, c)
  {
    if s != [] {
      assert (s + t)[0] == s[0];
      assert (s + t)[1..] == s[1..] + t;
      CountSplit(s[1..], t, c);
    } else {
      assert s + t == t;
    }
  }

  /** `s[s.rfind("/") + 1:]`: the text after the last `c`, or all of `s`
      when `c` does not occur. */
  function AfterLast(s: string, c: char): (r: string)
    ensures |r| <= |s| && r == s[|s| - |r|..]
    ensures c !in r
    ensures |r| < |s| ==> s[|s| - |r| - 1] == c
  {
    if s == [] then []
    else if s[|s| - 1] == c then []
    else AfterLast(s[..|s| - 1], c) + [s[|s| - 1]]
  }

  /** `s.startswith(p)` at offset `k`. */
  predicate OccursAt(s: string, p: string, k: nat) {
    k + |p| <= |s| && s[k..k + |p|] == p
  }

  // ---------------------------------------------------------------------
  // Slicing with Python's clamping

  /** `s[:n]` */
  function Head(s: string, n: nat): (r: string)
    ensures |r| == if n <= |s| then n else |s|
    ensures r == s[..|r|]
  {
    if n <= |s| then s[..n] else s
  }

  /** `s[-n:]` for `n > 0` */
  function Tail(s: string, n: nat): (r: string)
    ensures |r| == if n <= |s| then n else |s|
    ensures r == s[|s| - |r|..]
  {
    if n <= |s| then s[|s| - n..] else s
  }

  // ---------------------------------------------------------------------
  // Whitespace splitting and stripping

  /** Drops the leading whitespace. */
  function SkipSpace(s: string): (r: string)
    ensures |r| <= |s| && r == s[|s| - |r|..]
    ensures AllSpace(s[..|s| - |r|])
    ensures r != [] ==> !IsSpace(r[0])
  {
    if s == [] then []
    else if IsSpace(s[0]) then SkipSpace(s[1..])
    else s
  }

  /** The longest prefix without whitespace. */
  function WordPrefix(s: string): (w: string)
    ensures |w| <= |s| && w == s[..|w|]
    ensures NoSpace(w)
    ensures |w| < |s| ==> IsSpace(s[|w|])
  {
    if s == [] || IsSpace(s[0]) then []
    else [s[0]] + WordPrefix(s[1..])
  }

  /** `str.split()`: the whitespace-separated words of `s`. This is the
      reference against which `SplitOnce` is proved. */
  function Words(s: string): (ws: seq<string>)
    ensures forall k :: 0 <= k < |ws| ==> ws[k] != [] && NoSpace(ws[k])
    decreases |s|
  {
    var t := SkipSpace(s);
    if t == [] then []
    else
      var w := WordPrefix(t);
      [w] + Words(t[|w|..])
  }

  /** `str.split(maxsplit=1)`: the first word and, when anything but
      whitespace follows it, the rest of the string from its next
      non-whitespace character (trailing whitespace kept). */
  function SplitOnce(s: string): (parts: seq<string>)
    ensures |parts| <= 2
  {
    var t := SkipSpace(s);
    if t == [] then []
    else
      var w := WordPrefix(t);
      var rest := SkipSpace(t[|w|..]);
      if rest == [] then [w] else [w, rest]
  }

  /** `split(maxsplit=1)` yields as many parts as `split()` does, up to two,
      and both start with the same word. */
  lemma SplitOnceAgreesWithWords(s: string)
    ensures |SplitOnce(s)| == if |Words(s)| < 2 then |Words(s)| else 2
    ensures SplitOnce(s) != [] ==> SplitOnce(s)[0] == Words(s)[0]
  {
    var t := SkipSpace(s);
    if t != [] {
      var w := WordPrefix(t);
      var u := t[|w|..];
      assert Words(s) == [w] + Words(u);
      assert Words(u) == [] <==> SkipSpace(u) == [];
    }
  }

  /** The number of whitespace characters in a row from position `k`. */
  function LeadingSpace(s: string, k: nat): (n: nat)
    requires k <= |s|
    ensures k + n <= |s|
    ensures forall i :: k <= i < k + n ==> IsSpace(s[i])
    ensures k + n < |s| ==> !IsSpace(s[k + n])
    decreases |s| - k
  {
    if k == |s| || !IsSpace(s[k]) then 0 else 1 + LeadingSpace(s, k + 1)
  }

  /** The number of whitespace characters in a row ending just before
      position `k`. */
  function TrailingSpace(s: string, k: nat): (n: nat)
    requires k <= |s|
    ensures n <= k
    ensures forall i :: k - n <= i < k ==> IsSpace(s[i])
    ensures n < k ==> !IsSpace(s[k - n - 1])
  {
    if k == 0 || !IsSpace(s[k - 1]) then 0 else 1 + TrailingSpace(s, k - 1)
  }

  /** `str.strip()`: drops leading and trailing whitespace. */
  function Strip(s: string): (r: string)
    ensures r == [] || (!IsSpace(r[0]) && !IsSpace(r[|r| - 1]))
  {
    var i := LeadingSpace(s, 0);
    if i == |s| then [] else s[i..|s| - TrailingSpace(s, |s|)]
  }

  /** What `Strip` removes is whitespace, from both ends only. */
  lemma StripIsInfix(s: string)
    ensures exists i, j :: 0 <= i <= j <= |s| && Strip(s) == s[i..j] && AllSpace(s[..i]) && AllSpace(s[j..])
  {
    var i := LeadingSpace(s, 0);
    if i == |s| {
      assert Strip(s) == s[i..i] && AllSpace(s[..i]) && AllSpace(s[i..]);
    } else {
      var j := |s| - TrailingSpace(s, |s|);
      assert AllSpace(s[..i]) && AllSpace(s[j..]);
      assert Strip(s) == s[i..j];
    }
  }

  // ---------------------------------------------------------------------
  // Replacing

  /** `s.replace(pat, rep)`: non-overlapping occurrences of `pat`, scanned
      from the left, are replaced by `rep`. */
  function ReplaceAll(s: string, pat: string, rep: string): string
    requires pat != []
    decreases |s|
  {
    if |s| < |pat| then s
    else if s[..|pat|] == pat then rep + ReplaceAll(s[|pat|..], pat, rep)
    else [s[0]] + ReplaceAll(s[1..], pat, rep)
  }

  /** A string in which the pattern does not occur is left unchanged. */
  lemma {:induction false} ReplaceAbsent(s: string, pat: string, rep: string)
    requires pat != []
    requires forall k :: 0 <= k <= |s| - |pat| ==> !OccursAt(s, pat, k)
    ensures ReplaceAll(s, pat, rep) == s
    decreases |s|
  {
    if |s| >= |pat| {
      assert !OccursAt(s, pat, 0);
      forall k | 0 <= k <= |s[1..]| - |pat|
        ensures !OccursAt(s[1..], pat, k)
      {
        assert !OccursAt(s, pat, k + 1);
        assert s[1..][k..k + |pat|] == s[k + 1..k + 1 + |pat|];
      }
      ReplaceAbsent(s[1..], pat, rep);
    }
  }

  /** Each occurrence found at the front is replaced. */
  lemma ReplaceAtFront(s: string, pat: string, rep: string)
    requires pat != []
    ensures ReplaceAll(pat + s, pat, rep) == rep + ReplaceAll(s, pat, rep)
  {
    assert (pat + s)[..|pat|] == pat;
    assert (pat + s)[|pat|..] == s;
  }

  // ---------------------------------------------------------------------
  // Integers in decimal

  function DigitChar(d: nat): (c: char)
    requires d < 10
    ensures IsDigit(c)
  {
    ('0' as int + d) as char
  }

  function DigitValue(c: char): (d: nat)
    requires IsDigit(c)
    ensures d < 10 && DigitChar(d) == c
  {
    c as int - '0' as int
  }

  /** The shortest decimal digits of `n`. */
  function NatToString(n: nat): (s: string)
    ensures s != [] && AllDigits(s)
  {
    if n < 10 then [DigitChar(n)] else NatToString(n / 10) + [DigitChar(n % 10)]
  }

  /** `str(i)` / `f"{i}"` for an integer. */
  function IntToString(i: int): (s: string)
    ensures s != []
  {
    if i < 0 then "-" + NatToString(-i) else NatToString(i)
  }

  /** The value of a non-empty string of decimal digits. */
  function DigitsValue(s: string): nat
    requires AllDigits(s)
  {
    if s == [] then 0 else 10 * DigitsValue(s[..|s| - 1]) + DigitValue(s[|s| - 1])
  }

  /** `int(s)` for decimal strings: surrounding whitespace is ignored, an
      optional sign is allowed, and at least one ASCII digit is needed;
      anything else is Python's `ValueError`, here `None`. */
  function ParseInt(s: string): (r: Option<int>)
    ensures r.Some? ==> Strip(s) != []
  {
    ParseStripped(Strip(s))
  }

  /** The value of already stripped text: an optional sign, then one or
      more digits. */
  function ParseStripped(t: string): (r: Option<int>)
    ensures r.Some? ==> t != []
  {
    var neg := t != [] && t[0] == '-';
    var digits := if t != [] && (t[0] == '-' || t[0] == '+') then t[1..] else t;
    if digits == [] || !AllDigits(digits) then None
    else
      var v: int := DigitsValue(digits);
      Some(if neg then -v else v)
  }

  lemma {:induction false} DigitsOfNat(n: nat)
    ensures DigitsValue(NatToString(n)) == n
  {
    if n >= 10 {
      var s := NatToString(n);
      assert s[..|s| - 1] == NatToString(n / 10);
      DigitsOfNat(n / 10);
    }
  }

  /** `int(str(i)) == i`: formatting an integer and reading it back is the
      identity. */
  lemma IntRoundTrip(i: int)
    ensures ParseInt(IntToString(i)) == Some(i)
  {
    var n: nat := if i < 0 then -i else i;
    var digits := NatToString(n);
    DigitsOfNat(n);
    if i < 0 {
      ParseNegative(digits);
    } else {
      ParseNonNegative(digits);
    }
  }

  lemma ParseNonNegative(digits: string)
    requires digits != [] && AllDigits(digits)
    ensures ParseInt(digits) == Some(DigitsValue(digits))
  {
    StripUnchanged(digits);
  }

  lemma ParseNegative(digits: string)
    requires digits != [] && AllDigits(digits)
    ensures ParseInt("-" + digits) == Some(-(DigitsValue(digits) as int))
  {
    NegativeStripped(digits);
    var t := "-" + digits;
    assert t[0] == '-' && t[1..] == digits;
  }

  lemma NegativeStripped(digits: string)
    requires digits != [] && AllDigits(digits)
    ensures Strip("-" + digits) == "-" + digits
  {
    var s := "-" + digits;
    assert s[|s| - 1] == digits[|digits| - 1];
    StripUnchanged(s);
  }

  /** A string with no whitespace at either end is its own strip. */
  lemma StripUnchanged(s: string)
    requires s != [] && !IsSpace(s[0]) && !IsSpace(s[|s| - 1])
    ensures Strip(s) == s
  {
    assert LeadingSpace(s, 0) == 0;
    assert TrailingSpace(s, |s|) == 0;
  }

  // ---------------------------------------------------------------------
  // Ordering, as Python compares str values

  /** Lexicographic order on code points; a proper prefix is smaller. */
  predicate Less(a: string, b: string) {
    if a == [] then b != []
    else if b == [] then false
    else if a[0] != b[0] then a[0] < b[0]
    else Less(a[1..], b[1..])
  }

  predicate LessEq(a: string, b: string) {
    a == b || Less(a, b)
  }

  lemma {:induction false} LessIrreflexive(a: string)
    ensures !Less(a, a)
  {
    if a != [] { LessIrreflexive(a[1..]); }
  }

  lemma {:induction false} LessTotal(a: string, b: string)
    ensures Less(a, b) || a == b || Less(b, a)
  {
    if a != [] && b != [] && a[0] == b[0] {
      LessTotal(a[1..], b[1..]);
      if a[1..] == b[1..] {
        assert a == [a[0]] + a[1..] && b == [b[0]] + b[1..];
      }
    }
  }

  lemma {:induction false} LessTransitive(a: string, b: string, c: string)
    requires Less(a, b) && Less(b, c)
    ensures Less(a, c)
  {
    if a != [] && a[0] == b[0] && b[0] == c[0] {
      LessTransitive(a[1..], b[1..], c[1..]);
    }
  }

  lemma LessAsymmetric(a: string, b: string)
    requires Less(a, b)
    ensures !Less(b, a)
  {
    if Less(b, a) {
      LessTransitive(a, b, a);
      LessIrreflexive(a);
    }
  }

  // ---------------------------------------------------------------------
  // sorted(...) on strings

  ghost predicate Ascending(s: seq<string>) {
    forall i, j :: 0 <= i < j < |s| ==> LessEq(s[i], s[j])
  }

  ghost predicate StrictlyAscending(s: seq<string>) {
    forall i, j :: 0 <= i < j < |s| ==> Less(s[i], s[j])
  }

  ghost predicate Descending(s: seq<string>) {
    forall i, j :: 0 <= i < j < |s| ==> LessEq(s[j], s[i])
  }

  function Insert(x: string, s: seq<string>): (r: seq<string>)
    requires Ascending(s)
    ensures multiset(r) == multiset(s) + multiset{x}
    ensures Ascending(r)
  {
    if s == [] then [x]
    else if LessEq(x, s[0]) then
      forall j | 0 < j < |s| ensures LessEq(x, s[j]) {
        if x != s[0] && s[0] != s[j] { LessTransitive(x, s[0], s[j]); }
      }
      [x] + s
    else
      var r' := Insert(x, s[1..]);
      LessTotal(x, s[0]);
      assert multiset(r') == multiset(s[1..]) + multiset{x};
      assert s == [s[0]] + s[1..];
      forall j | 0 <= j < |r'| ensures LessEq(s[0], r'[j]) {
        assert r'[j] in multiset(r');
        if r'[j] != x {
          assert r'[j] in s[1..];
        }
      }
      [s[0]] + r'
  }

  /** `sorted(s)`: the ascending arrangement of the same strings. */
  function SortAscending(s: seq<string>): (r: seq<string>)
    ensures multiset(r) == multiset(s)
    ensures Ascending(r)
  {
    if s == [] then []
    else
      assert s == [s[0]] + s[1..];
      Insert(s[0], SortAscending(s[1..]))
  }

  function Reverse<T>(s: seq<T>): (r: seq<T>)
    ensures |r| == |s|
    ensures forall i :: 0 <= i < |s| ==> r[i] == s[|s| - 1 - i]
  {
    if s == [] then [] else Reverse(s[1..]) + [s[0]]
  }

  lemma ReverseMultiset<T>(s: seq<T>)
    ensures multiset(Reverse(s)) == multiset(s)
  {
    if s != [] {
      assert s == [s[0]] + s[1..];
    }
  }

  /** `sorted(s, reverse=True)`. Equal strings are indistinguishable, so the
      reverse of the ascending arrangement is Python's result. */
  function SortDescending(s: seq<string>): (r: seq<string>)
    ensures multiset(r) == multiset(s)
    ensures Descending(r)
  {
    ReverseMultiset(SortAscending(s));
    Reverse(SortAscending(s))
  }

  /** Sorting strings without repetitions gives a strictly ascending
      sequence: every key appears exactly once, in order. */
  lemma SortDistinct(s: seq<string>)
    requires forall i, j :: 0 <= i < j < |s| ==> s[i] != s[j]
    ensures StrictlyAscending(SortAscending(s))
    ensures forall x :: x in SortAscending(s) <==> x in s
  {
    var r := SortAscending(s);
    assert forall x :: x in r <==> x in multiset(r);
    assert forall x :: x in s <==> x in multiset(s);
    DistinctMultiset(s);
    forall i, j | 0 <= i < j < |r| ensures Less(r[i], r[j]) {
      if r[i] == r[j] {
        MultiplicityOfRepeat(r, i, j);
      }
    }
  }

  lemma DistinctMultiset(s: seq<string>)
    requires forall i, j :: 0 <= i < j < |s| ==> s[i] != s[j]
    ensures forall x :: multiset(s)[x] <= 1
  {
    if s != [] {
      assert s == [s[0]] + s[1..];
      DistinctMultiset(s[1..]);
      assert s[0] !in s[1..];
    }
  }

  lemma MultiplicityOfRepeat(r: seq<string>, i: nat, j: nat)
    requires i < j < |r| && r[i] == r[j]
    ensures multiset(r)[r[i]] >= 2
  {
    assert r == r[..i] + [r[i]] + r[i + 1..j] + [r[j]] + r[j + 1..];
  }
}
