/** The key search of `extract_and_validate_private_key`: `re.findall` over the
    WIF pattern, then over the hex pattern, then the stripped whole line, and the
    first candidate that the elliptic-curve library accepts wins.

    The library call `privkey_to_pubkey` is the oracle `derives`: true when the
    call returns, false when it raises. The two checker versions carry this
    function unchanged, so it is modelled once. */
module KeyExtraction {
  import opened Text

  /** The character class `[1-9A-HJ-NP-Za-km-z]` (the Base58 alphabet). */
  predicate IsBase58(c: char)
  {
    || ('1' <= c <= '9') || ('A' <= c <= 'H') || ('J' <= c <= 'N')
    || ('P' <= c <= 'Z') || ('a' <= c <= 'k') || ('m' <= c <= 'z')
  }

  /** The character class `[5KL]`. */
  predicate IsWifLead(c: char)
  {
    c == '5' || c == 'K' || c == 'L'
  }

  /** The character class `[0-9a-fA-F]`. */
  predicate IsHexChar(c: char)
  {
    ('0' <= c <= '9') || ('a' <= c <= 'f') || ('A' <= c <= 'F')
  }

  /** A whole string matched by `[5KL][1-9A-HJ-NP-Za-km-z]{50,51}`. */
  predicate IsWifToken(t: string)
  {
    (|t| == 51 || |t| == 52) && IsWifLead(t[0]) && forall k :: 1 <= k < |t| ==> IsBase58(t[k])
  }

  /** A whole string matched by `[0-9a-fA-F]{64}`. */
  predicate IsHexToken(t: string)
  {
    |t| == 64 && forall k :: 0 <= k < |t| ==> IsHexChar(t[k])
  }

  /** How many Base58 characters follow one another from position `j`, counting
      at most `cap` of them (the greedy `{50,51}` stops at 51). */
  function Base58Run(s: string, j: nat, cap: nat): (r: nat)
    requires j <= |s|
    ensures r <= cap && j + r <= |s|
    decreases cap
  {
    if cap == 0 || j == |s| || !IsBase58(s[j]) then 0 else 1 + Base58Run(s, j + 1, cap - 1)
  }

  /** The run consists of Base58 characters and is maximal below the cap. */
  lemma {:induction false} Base58RunSpec(s: string, j: nat, cap: nat)
    requires j <= |s|
    ensures var r := Base58Run(s, j, cap);
            && (forall k :: j <= k < j + r ==> IsBase58(s[k]))
            && (r < cap && j + r < |s| ==> !IsBase58(s[j + r]))
    decreases cap
  {
    if cap > 0 && j < |s| && IsBase58(s[j]) {
      Base58RunSpec(s, j + 1, cap - 1);
    }
  }

  /** Length of the WIF match that starts at position `i`, 0 when none does. */
  function WifMatchAt(s: string, i: nat): (m: nat)
    requires i <= |s|
    ensures i + m <= |s|
  {
    if i < |s| && IsWifLead(s[i]) then
      var r := Base58Run(s, i + 1, 51);
      if r >= 50 then 1 + r else 0
    else 0
  }

  /** A match found at `i` is a whole WIF token. */
  lemma WifMatchAtSpec(s: string, i: nat)
    requires i <= |s|
    ensures WifMatchAt(s, i) > 0 ==> IsWifToken(s[i..i + WifMatchAt(s, i)])
  {
    if WifMatchAt(s, i) > 0 {
      Base58RunSpec(s, i + 1, 51);
      var t := s[i..i + WifMatchAt(s, i)];
      assert forall k | 1 <= k < |t| :: t[k] == s[i + k];
    }
  }

  /** Number of hex characters in a row from `j`, at most `cap`. */
  function HexRun(s: string, j: nat, cap: nat): (r: nat)
    requires j <= |s|
    ensures r <= cap && j + r <= |s|
    decreases cap
  {
    if cap == 0 || j == |s| || !IsHexChar(s[j]) then 0 else 1 + HexRun(s, j + 1, cap - 1)
  }

  lemma {:induction false} HexRunSpec(s: string, j: nat, cap: nat)
    requires j <= |s|
    ensures forall k :: j <= k < j + HexRun(s, j, cap) ==> IsHexChar(s[k])
    decreases cap
  {
    if cap > 0 && j < |s| && IsHexChar(s[j]) {
      HexRunSpec(s, j + 1, cap - 1);
    }
  }

  /** Length of the hex match that starts at position `i` (64 or 0). */
  function HexMatchAt(s: string, i: nat): (m: nat)
    requires i <= |s|
    ensures i + m <= |s|
  {
    if HexRun(s, i, 64) == 64 then 64 else 0
  }

  lemma HexMatchAtSpec(s: string, i: nat)
    requires i <= |s|
    ensures HexMatchAt(s, i) > 0 ==> IsHexToken(s[i..i + HexMatchAt(s, i)])
  {
    if HexMatchAt(s, i) > 0 {
      HexRunSpec(s, i, 64);
      var t := s[i..i + 64];
      assert forall k | 0 <= k < |t| :: t[k] == s[i + k];
    }
  }

  /** `re.findall(wif_pattern, s[i:])`: leftmost matches, left to right, each
      search resuming where the previous match ended. */
  function WifMatchesFrom(s: string, i: nat): (ms: seq<string>)
    requires i <= |s|
    decreases |s| - i
  {
    if i == |s| then []
    else
      var m := WifMatchAt(s, i);
      if m > 0 then [s[i..i + m]] + WifMatchesFrom(s, i + m)
      else WifMatchesFrom(s, i + 1)
  }

  /** Every WIF match is a whole WIF token. */
  lemma {:induction false} WifMatchesSpec(s: string, i: nat)
    requires i <= |s|
    ensures forall t :: t in WifMatchesFrom(s, i) ==> IsWifToken(t)
    decreases |s| - i
  {
    if i < |s| {
      var m := WifMatchAt(s, i);
      WifMatchAtSpec(s, i);
      if m > 0 {
        WifMatchesSpec(s, i + m);
      } else {
        WifMatchesSpec(s, i + 1);
      }
    }
  }

  /** `re.findall(hex_pattern, s[i:])`. */
  function HexMatchesFrom(s: string, i: nat): (ms: seq<string>)
    requires i <= |s|
    decreases |s| - i
  {
    if i == |s| then []
    else
      var m := HexMatchAt(s, i);
      if m > 0 then [s[i..i + m]] + HexMatchesFrom(s, i + m)
      else HexMatchesFrom(s, i + 1)
  }

  /** Every hex match is a whole 64-digit hex token. */
  lemma {:induction false} HexMatchesSpec(s: string, i: nat)
    requires i <= |s|
    ensures forall t :: t in HexMatchesFrom(s, i) ==> IsHexToken(t)
    decreases |s| - i
  {
    if i < |s| {
      var m := HexMatchAt(s, i);
      HexMatchAtSpec(s, i);
      if m > 0 {
        HexMatchesSpec(s, i + m);
      } else {
        HexMatchesSpec(s, i + 1);
      }
    }
  }

  function WifMatches(line: string): seq<string>
  {
    WifMatchesFrom(line, 0)
  }

  function HexMatches(line: string): seq<string>
  {
    HexMatchesFrom(line, 0)
  }

  /** Position of the first candidate the library accepts, `|cs|` when none is. */
  function FirstDeriving(cs: seq<string>, derives: string -> bool): (k: nat)
    ensures k <= |cs|
  {
    if |cs| == 0 then 0
    else if derives(cs[0]) then 0
    else 1 + FirstDeriving(cs[1..], derives)
  }

  /** No candidate before the position derives, the one at it does. */
  lemma {:induction false} FirstDerivingSpec(cs: seq<string>, derives: string -> bool)
    ensures forall j :: 0 <= j < FirstDeriving(cs, derives) ==> !derives(cs[j])
    ensures FirstDeriving(cs, derives) < |cs| ==> derives(cs[FirstDeriving(cs, derives)])
    ensures (forall c :: c in cs ==> !derives(c)) ==> FirstDeriving(cs, derives) == |cs|
  {
    if |cs| > 0 && !derives(cs[0]) {
      FirstDerivingSpec(cs[1..], derives);
      assert forall j :: 1 <= j < |cs| ==> cs[j] == cs[1..][j - 1];
    }
  }

  /** `extract_and_validate_private_key(line)`, returning `(is_valid, key)`. */
  function Extract(line: string, derives: string -> bool): (r: (bool, string))
  {
    var wif := WifMatches(line);
    var w := FirstDeriving(wif, derives);
    if w < |wif| then (true, wif[w])
    else
      var hex := HexMatches(line);
      var h := FirstDeriving(hex, derives);
      if h < |hex| then (true, hex[h])
      else if derives(Strip(line)) then (true, Strip(line))
      else (false, "")
  }

  /** A valid key is one the library accepts and is a WIF match, a hex match
      or the stripped line; the result is `(False, "")` exactly when no WIF
      match, no hex match and not the stripped line derive. */
  lemma ExtractSpec(line: string, derives: string -> bool)
    ensures var r := Extract(line, derives);
            && (r.0 ==> derives(r.1))
            && (r.0 ==> r.1 in WifMatches(line) || r.1 in HexMatches(line) || r.1 == Strip(line))
            && (!r.0 <==> ((forall c :: c in WifMatches(line) ==> !derives(c))
                           && (forall c :: c in HexMatches(line) ==> !derives(c))
                           && !derives(Strip(line))))
            && (!r.0 ==> r.1 == "")
  {
    var wif := WifMatches(line);
    var hex := HexMatches(line);
    var w := FirstDeriving(wif, derives);
    var h := FirstDeriving(hex, derives);
    FirstDerivingSpec(wif, derives);
    FirstDerivingSpec(hex, derives);
    if w == |wif| {
      assert forall c :: c in wif ==> !derives(c);
      if h == |hex| {
        assert forall c :: c in hex ==> !derives(c);
      }
    }
  }

  /** Every candidate, in the order the search tries them. */
  function Candidates(line: string): seq<string>
  {
    WifMatches(line) + HexMatches(line) + [Strip(line)]
  }

  /** The first deriving element of `a + b` is the first of `a`, or, when no
      element of `a` derives, the first of `b`. */
  lemma {:induction false} FirstDerivingAppend(a: seq<string>, b: seq<string>, derives: string -> bool)
    ensures FirstDeriving(a + b, derives) ==
            if FirstDeriving(a, derives) < |a| then FirstDeriving(a, derives)
            else |a| + FirstDeriving(b, derives)
  {
    if |a| > 0 && !derives(a[0]) {
      assert (a + b)[1..] == a[1..] + b;
      FirstDerivingAppend(a[1..], b, derives);
    } else if |a| == 0 {
      assert a + b == b;
    }
  }

  /** Layered first success: the extractor returns the first of all candidates
      (WIF matches in order, then hex matches in order, then the stripped line)
      that the library accepts, and `(False, "")` when none is accepted. */
  lemma ExtractIsFirstCandidate(line: string, derives: string -> bool)
    ensures var cs := Candidates(line);
            var k := FirstDeriving(cs, derives);
            Extract(line, derives) == if k < |cs| then (true, cs[k]) else (false, "")
  {
    var wif, hex := WifMatches(line), HexMatches(line);
    FirstDerivingAppend(wif + hex, [Strip(line)], derives);
    FirstDerivingAppend(wif, hex, derives);
    var cs := Candidates(line);
    var w := FirstDeriving(wif, derives);
    var h := FirstDeriving(hex, derives);
    if w < |wif| {
      assert cs[w] == wif[w];
    } else if h < |hex| {
      assert cs[|wif| + h] == hex[h];
    } else {
      assert cs[|wif| + |hex|] == Strip(line);
    }
  }

  lemma {:induction false} Base58RunToEnd(s: string, j: nat, cap: nat)
    requires j <= |s|
    requires forall k :: j <= k < |s| ==> IsBase58(s[k])
    ensures Base58Run(s, j, cap) == if cap < |s| - j then cap else |s| - j
    decreases cap
  {
    if cap > 0 && j < |s| {
      Base58RunToEnd(s, j + 1, cap - 1);
    }
  }

  lemma {:induction false} HexRunToEnd(s: string, j: nat, cap: nat)
    requires j <= |s|
    requires forall k :: j <= k < |s| ==> IsHexChar(s[k])
    ensures HexRun(s, j, cap) == if cap < |s| - j then cap else |s| - j
    decreases cap
  {
    if cap > 0 && j < |s| {
      HexRunToEnd(s, j + 1, cap - 1);
    }
  }

  /** A whole WIF token matches itself and nothing else. */
  lemma WifTokenMatchesItself(t: string)
    requires IsWifToken(t)
    ensures WifMatches(t) == [t]
  {
    Base58RunToEnd(t, 1, 51);
    assert WifMatchAt(t, 0) == |t|;
    assert t[0..|t|] == t;
    assert WifMatchesFrom(t, |t|) == [];
  }

  /** A line that is exactly a WIF key the library accepts yields that key. */
  lemma ExtractWholeWif(t: string, derives: string -> bool)
    requires IsWifToken(t) && derives(t)
    ensures Extract(t, derives) == (true, t)
  {
    WifTokenMatchesItself(t);
  }

  /** A whole hex token matches itself. */
  lemma HexTokenMatchesItself(t: string)
    requires IsHexToken(t)
    ensures HexMatches(t) == [t]
  {
    HexRunToEnd(t, 0, 64);
    assert HexMatchAt(t, 0) == 64;
    assert t[0..64] == t;
    assert HexMatchesFrom(t, 64) == [];
  }

  /** A line that is exactly a hex key the library accepts yields that key,
      unless some WIF-shaped run inside it (a hex key without `0` can hold
      one) is accepted first. */
  lemma ExtractWholeHex(t: string, derives: string -> bool)
    requires IsHexToken(t) && derives(t)
    requires forall c :: c in WifMatches(t) ==> !derives(c)
    ensures Extract(t, derives) == (true, t)
  {
    HexTokenMatchesItself(t);
    var wif := WifMatches(t);
    var w := FirstDeriving(wif, derives);
    FirstDerivingSpec(wif, derives);
  }
}
