/** String and list primitives of the Python runtime that the checker relies on:
    `str.strip`, `str.split`/`str.join` on one separator, `str.isdigit`/`int`,
    the `{:02d}` format, `str.lower` (ASCII part), `str.rfind` and list slicing
    with Python's clamping of out-of-range and negative bounds. */
module Text {

  datatype Option<T> = None | Some(value: T)

  /** Python's `str.isspace()` for a single character. */
  predicate IsSpace(c: char)
  {
    || c == ' ' || ('\t' <= c <= '\r') || ('\U{1c}' <= c <= '\U{1f}')
    || c == '\U{85}' || c == '\U{a0}' || c == '\U{1680}'
    || ('\U{2000}' <= c <= '\U{200a}') || c == '\U{2028}' || c == '\U{2029}'
    || c == '\U{202f}' || c == '\U{205f}' || c == '\U{3000}'
  }

  /** Number of leading whitespace characters. */
  function LeadingSpace(s: string): (i: nat)
    ensures i <= |s|
  {
    if |s| == 0 || !IsSpace(s[0]) then 0 else 1 + LeadingSpace(s[1..])
  }

  /** The characters before `LeadingSpace(s)` are whitespace, the one at it is not. */
  lemma {:induction false} LeadingSpaceSpec(s: string)
    ensures forall k :: 0 <= k < LeadingSpace(s) ==> IsSpace(s[k])
    ensures LeadingSpace(s) < |s| ==> !IsSpace(s[LeadingSpace(s)])
  {
    if |s| > 0 && IsSpace(s[0]) {
      LeadingSpaceSpec(s[1..]);
      assert forall k :: 1 <= k < |s| ==> s[k] == s[1..][k - 1];
    }
  }

  /** Length of `s` once trailing whitespace is removed. */
  function TrailingCut(s: string): (j: nat)
    ensures j <= |s|
  {
    if |s| == 0 || !IsSpace(s[|s| - 1]) then |s| else TrailingCut(s[..|s| - 1])
  }

  /** The characters from `TrailingCut(s)` on are whitespace, the one before it is not. */
  lemma {:induction false} TrailingCutSpec(s: string)
    ensures forall k :: TrailingCut(s) <= k < |s| ==> IsSpace(s[k])
    ensures TrailingCut(s) > 0 ==> !IsSpace(s[TrailingCut(s) - 1])
  {
    if |s| > 0 && IsSpace(s[|s| - 1]) {
      TrailingCutSpec(s[..|s| - 1]);
      assert forall k :: 0 <= k < |s| - 1 ==> s[k] == s[..|s| - 1][k];
    }
  }

  lemma StripBounds(s: string)
    requires LeadingSpace(s) < |s|
    ensures LeadingSpace(s) < TrailingCut(s)
  {
    LeadingSpaceSpec(s);
    TrailingCutSpec(s);
  }

  /** Python's `str.strip()`. */
  function Strip(s: string): (t: string)
    ensures |t| <= |s|
  {
    var i := LeadingSpace(s);
    if i == |s| then [] else StripBounds(s); s[i..TrailingCut(s)]
  }

  /** `Strip(s)` is the longest infix of `s` that neither starts nor ends with
      whitespace, all of whose surroundings are whitespace. */
  lemma StripSpec(s: string)
    ensures var t := Strip(s);
            && LeadingSpace(s) + |t| <= |s|
            && t == s[LeadingSpace(s)..LeadingSpace(s) + |t|]
            && (forall k :: 0 <= k < |s| && !(LeadingSpace(s) <= k < LeadingSpace(s) + |t|) ==> IsSpace(s[k]))
            && (t != [] ==> !IsSpace(t[0]) && !IsSpace(t[|t| - 1]))
  {
    LeadingSpaceSpec(s);
    var i := LeadingSpace(s);
    if i < |s| {
      TrailingCutSpec(s);
      StripBounds(s);
      var j := TrailingCut(s);
      assert Strip(s) == s[i..j];
      assert s[i..j][0] == s[i] && s[i..j][j - i - 1] == s[j - 1];
    }
  }

  /** Stripping twice is stripping once (the scan loop strips a line and the
      extractor strips it again). */
  lemma StripIdempotent(s: string)
    ensures Strip(Strip(s)) == Strip(s)
  {
    StripSpec(s);
    var t := Strip(s);
    if t != [] {
      assert LeadingSpace(t) == 0;
      assert TrailingCut(t) == |t|;
      assert t[0..|t|] == t;
    }
  }

  /** `s.startswith(c)` for a one-character prefix. */
  predicate StartsWith(s: string, c: char)
  {
    |s| > 0 && s[0] == c
  }

  /** Index of the first `c` in `s`, or `|s|` when there is none. */
  function IndexOf(s: string, c: char): (i: nat)
    ensures i <= |s|
    ensures i < |s| ==> s[i] == c
    ensures forall k :: 0 <= k < i ==> s[k] != c
  {
    if |s| == 0 then 0
    else if s[0] == c then 0
    else
      var i := 1 + IndexOf(s[1..], c);
      assert forall k :: 1 <= k < i ==> s[k] == s[1..][k - 1];
      i
  }

  /** `s.rfind(c)`: index of the last `c` in `s`, or -1. */
  function LastIndexOf(s: string, c: char): (i: int)
    ensures -1 <= i < |s|
    ensures i >= 0 ==> s[i] == c
    ensures forall k :: i < k < |s| ==> s[k] != c
  {
    if |s| == 0 then -1
    else if s[|s| - 1] == c then |s| - 1
    else
      var i := LastIndexOf(s[..|s| - 1], c);
      assert forall k :: i < k < |s| - 1 ==> s[k] == s[..|s| - 1][k];
      i
  }

  /** `s.split(sep)` with an explicit one-character separator. */
  function Split(s: string, sep: char): (parts: seq<string>)
    ensures |parts| >= 1
    decreases |s|
  {
    var i := IndexOf(s, sep);
    if i == |s| then [s] else [s[..i]] + Split(s[i + 1..], sep)
  }

  /** `sep.join(parts)`. */
  function Join(parts: seq<string>, sep: char): string
  {
    if |parts| == 0 then []
    else if |parts| == 1 then parts[0]
    else parts[0] + [sep] + Join(parts[1..], sep)
  }

  lemma IndexOfPrefix(a: string, b: string, c: char)
    requires c !in a
    requires |b| > 0 && b[0] == c
    ensures IndexOf(a + b, c) == |a|
  {
    var s := a + b;
    assert s[|a|] == c;
    assert forall k :: 0 <= k < |a| ==> s[k] == a[k];
  }

  /** Splitting what was joined gives the fields back, provided no field holds
      the separator. */
  lemma {:induction false} SplitJoin(parts: seq<string>, sep: char)
    requires |parts| >= 1
    requires forall k :: 0 <= k < |parts| ==> sep !in parts[k]
    ensures Split(Join(parts, sep), sep) == parts
  {
    if |parts| == 1 {
      assert IndexOf(parts[0], sep) == |parts[0]|;
    } else {
      var rest := Join(parts[1..], sep);
      var s := parts[0] + ([sep] + rest);
      assert s == Join(parts, sep);
      IndexOfPrefix(parts[0], [sep] + rest, sep);
      assert s[..|parts[0]|] == parts[0];
      assert s[|parts[0]| + 1..] == rest;
      SplitJoin(parts[1..], sep);
      assert [parts[0]] + parts[1..] == parts;
    }
  }

  /** Joining what was split gives the text back. */
  lemma {:induction false} JoinSplit(s: string, sep: char)
    ensures Join(Split(s, sep), sep) == s
    decreases |s|
  {
    var i := IndexOf(s, sep);
    if i < |s| {
      JoinSplit(s[i + 1..], sep);
      var parts := Split(s, sep);
      assert parts[1..] == Split(s[i + 1..], sep);
      assert s == s[..i] + [sep] + s[i + 1..];
    }
  }

  predicate IsDigitChar(c: char)
  {
    '0' <= c <= '9'
  }

  /** Python's `str.isdigit()` restricted to ASCII digits. */
  predicate IsDigits(s: string)
  {
    |s| > 0 && forall k :: 0 <= k < |s| ==> IsDigitChar(s[k])
  }

  function DigitChar(d: nat): (c: char)
    requires d < 10
    ensures IsDigitChar(c)
  {
    ('0' as int + d) as char
  }

  function DigitOf(c: char): (d: nat)
    requires IsDigitChar(c)
    ensures d < 10
  {
    c as int - '0' as int
  }

  /** The number a string of decimal digits stands for (`int(s)`). */
  function DigitsValue(s: string): nat
    requires forall k :: 0 <= k < |s| ==> IsDigitChar(s[k])
  {
    if |s| == 0 then 0
    else DigitsValue(s[..|s| - 1]) * 10 + DigitOf(s[|s| - 1])
  }

  /** `str(n)` for a natural number. */
  function Decimal(n: nat): (s: string)
    ensures IsDigits(s)
    ensures |s| == 1 <==> n < 10
    decreases n
  {
    if n < 10 then [DigitChar(n)] else Decimal(n / 10) + [DigitChar(n % 10)]
  }

  /** `int(s)` when `s.isdigit()`, and nothing otherwise. */
  function ParseDecimal(s: string): Option<nat>
  {
    if IsDigits(s) then Some(DigitsValue(s)) else None
  }

  /** Rendering a number and reading it back gives the number. */
  lemma {:induction false} DecimalRoundTrip(n: nat)
    ensures DigitsValue(Decimal(n)) == n
    ensures ParseDecimal(Decimal(n)) == Some(n)
    decreases n
  {
    if n >= 10 {
      DecimalRoundTrip(n / 10);
      var s := Decimal(n);
      assert s[..|s| - 1] == Decimal(n / 10);
    }
  }

  /** `f"{n:02d}"`: at least two digits, zero-padded, and it reads back as `n`. */
  function Pad2(n: nat): (s: string)
    ensures IsDigits(s)
    ensures |s| >= 2
    ensures |s| == 2 <==> n < 100
    ensures DigitsValue(s) == n
  {
    DecimalRoundTrip(n);
    if n < 10 then
      var s := ['0'] + Decimal(n);
      assert s[..1] == ['0'];
      s
    else
      assert n >= 100 ==> |Decimal(n / 10)| >= 2;
      Decimal(n)
  }

  /** ASCII part of Python's `str.lower()`. */
  function Lower(c: char): char
  {
    if 'A' <= c <= 'Z' then (c as int + 32) as char else c
  }

  function LowerString(s: string): (t: string)
    ensures |t| == |s|
    ensures forall k :: 0 <= k < |s| ==> t[k] == Lower(s[k])
  {
    seq(|s|, k requires 0 <= k < |s| => Lower(s[k]))
  }

  /** How Python clamps one bound of `s[start:stop]` for a list of length `n`. */
  function SliceBound(i: int, n: nat): (k: nat)
    ensures k <= n
    ensures 0 <= i <= n ==> k == i
  {
    if i < 0 then (if i + n < 0 then 0 else i + n)
    else if i > n then n
    else i
  }

  /** Python's `s[start:stop]`: always defined, negative bounds count from the
      end, out-of-range bounds are clamped, a crossed range is empty. */
  function PySlice<T>(s: seq<T>, start: int, stop: int): (r: seq<T>)
  {
    var lo, hi := SliceBound(start, |s|), SliceBound(stop, |s|);
    if lo < hi then s[lo..hi] else []
  }

  /** The slice is the contiguous run of `s` between the clamped bounds, and it
      is exactly `s[start..stop]` when those are in range. */
  lemma PySliceContiguous<T>(s: seq<T>, start: int, stop: int)
    ensures var lo := SliceBound(start, |s|);
            lo + |PySlice(s, start, stop)| <= |s| &&
            PySlice(s, start, stop) == s[lo..lo + |PySlice(s, start, stop)|]
    ensures 0 <= start <= stop <= |s| ==> PySlice(s, start, stop) == s[start..stop]
    ensures |PySlice(s, start, stop)| == if SliceBound(start, |s|) < SliceBound(stop, |s|)
                                         then SliceBound(stop, |s|) - SliceBound(start, |s|) else 0
  {
  }
}
