/**
 * The JavaScript string operations the prompt layer relies on, with the
 * semantics ECMAScript gives them for the inputs that occur here:
 * `String.prototype.trim`, `split` and `join` with a literal separator,
 * `replace` with a global regular expression that matches a literal token,
 * and the decimal rendering of a non-negative integer in a template literal.
 */
module JsStrings {

  /** WhiteSpace and LineTerminator code points, the set `trim` removes. */
  predicate IsWhitespace(c: char) {
    || c == '\t' || c == '\n' || c == '\U{000B}' || c == '\U{000C}' || c == '\r'
    || c == ' ' || c == '\U{00A0}' || c == '\U{1680}'
    || ('\U{2000}' <= c <= '\U{200A}')
    || c == '\U{2028}' || c == '\U{2029}' || c == '\U{202F}' || c == '\U{205F}'
    || c == '\U{3000}' || c == '\U{FEFF}'
  }

  predicate AllWhitespace(s: string) {
    forall i | 0 <= i < |s| :: IsWhitespace(s[i])
  }

  /** `trimStart`: drops the leading whitespace. */
  function TrimStart(s: string): string {
    if s != [] && IsWhitespace(s[0]) then TrimStart(s[1..]) else s
  }

  /** `trimEnd`: drops the trailing whitespace. */
  function TrimEnd(s: string): string {
    if s != [] && IsWhitespace(s[|s| - 1]) then TrimEnd(s[..|s| - 1]) else s
  }

  /** `trim`: the text between the leading and the trailing whitespace. */
  function Trim(s: string): string {
    TrimEnd(TrimStart(s))
  }

  /** `trimStart` drops a whitespace prefix, and no more than that. */
  lemma {:induction false} TrimStartDropsWhitespacePrefix(s: string)
    ensures var r := TrimStart(s);
      && |r| <= |s| && r == s[|s| - |r|..] && AllWhitespace(s[..|s| - |r|])
      && (r == [] || !IsWhitespace(r[0]))
  {
    if s != [] && IsWhitespace(s[0]) {
      TrimStartDropsWhitespacePrefix(s[1..]);
      var r := TrimStart(s);
      assert s[..|s| - |r|] == [s[0]] + s[1..][..|s| - 1 - |r|];
    }
  }

  /** `trimEnd` drops a whitespace suffix, and no more than that. */
  lemma {:induction false} TrimEndDropsWhitespaceSuffix(s: string)
    ensures var r := TrimEnd(s);
      && |r| <= |s| && r == s[..|r|] && AllWhitespace(s[|r|..])
      && (r == [] || !IsWhitespace(r[|r| - 1]))
  {
    if s != [] && IsWhitespace(s[|s| - 1]) {
      var init := s[..|s| - 1];
      TrimEndDropsWhitespaceSuffix(init);
      var r := TrimEnd(s);
      assert s[|r|..] == init[|r|..] + [s[|s| - 1]];
    }
  }

  /**
   * `trim` cuts a whitespace prefix and a whitespace suffix off the text,
   * and what is left neither begins nor ends with whitespace; in
   * particular it is empty exactly when the text is all whitespace.
   */
  lemma TrimDropsOuterWhitespace(s: string)
    ensures |Trim(s)| <= |TrimStart(s)| <= |s|
    ensures var r, i := Trim(s), |s| - |TrimStart(s)|;
      && i + |r| <= |s| && s[i..i + |r|] == r
      && AllWhitespace(s[..i]) && AllWhitespace(s[i + |r|..])
      && (r != [] ==> !IsWhitespace(r[0]) && !IsWhitespace(r[|r| - 1]))
      && (r == [] <==> AllWhitespace(s))
  {
    var t := TrimStart(s);
    var r := TrimEnd(t);
    TrimStartDropsWhitespacePrefix(s);
    TrimEndDropsWhitespaceSuffix(t);
    var i := |s| - |t|;
    assert s[i..i + |r|] == t[..|r|];
    assert s[i + |r|..] == t[|r|..];
    TrimLeavesTheMiddle(s, t, r);
  }

  /**
   * `t` is `s` without leading whitespace and `r` is `t` without trailing
   * whitespace: `r` is empty iff `s` is all whitespace, and otherwise it
   * neither starts nor ends with whitespace.
   */
  lemma TrimLeavesTheMiddle(s: string, t: string, r: string)
    requires |t| <= |s| && t == s[|s| - |t|..] && AllWhitespace(s[..|s| - |t|])
    requires t == [] || !IsWhitespace(t[0])
    requires |r| <= |t| && r == t[..|r|] && AllWhitespace(t[|r|..])
    requires r == [] || !IsWhitespace(r[|r| - 1])
    ensures r == [] <==> AllWhitespace(s)
    ensures r != [] ==> !IsWhitespace(r[0]) && !IsWhitespace(r[|r| - 1])
  {
    var front, back := s[..|s| - |t|], t[|r|..];
    assert s == front + (r + back);
    if r == [] {
      assert t == [];
      assert s == front;
    } else {
      assert r[0] == t[0];
      assert s[|front|] == r[0];
    }
  }

  predicate StartsWith(s: string, p: string) {
    |p| <= |s| && s[..|p|] == p
  }

  /** The number of matches of `p` that a left-to-right scan finds without overlap. */
  function Count(s: string, p: string): nat
    requires p != []
    decreases |s|
  {
    if s == [] then 0
    else if StartsWith(s, p) then 1 + Count(s[|p|..], p)
    else Count(s[1..], p)
  }

  /** `Array.prototype.join`. */
  function Join(parts: seq<string>, sep: string): string {
    if |parts| == 0 then ""
    else if |parts| == 1 then parts[0]
    else parts[0] + sep + Join(parts[1..], sep)
  }

  /** `String.prototype.split` with a non-empty literal separator. */
  function Split(s: string, sep: string): (r: seq<string>)
    requires sep != []
    ensures |r| == Count(s, sep) + 1
    ensures Join(r, sep) == s
    decreases |s|
  {
    if s == [] then [""]
    else if StartsWith(s, sep) then
      var rest := Split(s[|sep|..], sep);
      assert s == sep + s[|sep|..];
      [""] + rest
    else
      var rest := Split(s[1..], sep);
      JoinExtendHead(s[0], rest, sep);
      [[s[0]] + rest[0]] + rest[1..]
  }

  /**
   * `replace(new RegExp(p, 'g'), v)` for a pattern that matches only the
   * literal `p`: every match of the left-to-right scan becomes `v`.
   * The replacement is inserted literally.
   */
  function ReplaceAll(s: string, p: string, v: string): string
    requires p != []
    decreases |s|
  {
    if s == [] then ""
    else if StartsWith(s, p) then v + ReplaceAll(s[|p|..], p, v)
    else [s[0]] + ReplaceAll(s[1..], p, v)
  }

  lemma JoinExtendHead(c: char, parts: seq<string>, sep: string)
    requires parts != []
    ensures Join([[c] + parts[0]] + parts[1..], sep) == [c] + Join(parts, sep)
  {
    var extended := [[c] + parts[0]] + parts[1..];
    assert extended[1..] == parts[1..];
  }

  lemma JoinStartsWithHead(parts: seq<string>, sep: string)
    requires parts != []
    ensures StartsWith(Join(parts, sep), parts[0])
  {
  }

  /** The pieces `split` yields hold no match of the separator. */
  lemma {:induction false} SplitPiecesAreFree(s: string, sep: string)
    requires sep != []
    ensures forall i | 0 <= i < |Split(s, sep)| :: Count(Split(s, sep)[i], sep) == 0
    decreases |s|
  {
    if s == [] {
    } else if StartsWith(s, sep) {
      SplitPiecesAreFree(s[|sep|..], sep);
      var rest := Split(s[|sep|..], sep);
      assert Split(s, sep) == [""] + rest;
    } else {
      SplitPiecesAreFree(s[1..], sep);
      var rest := Split(s[1..], sep);
      var head := [s[0]] + rest[0];
      assert Split(s, sep) == [head] + rest[1..];
      JoinStartsWithHead(rest, sep);
      assert s == [s[0]] + Join(rest, sep);
      assert StartsWith(s, head);
      assert head[1..] == rest[0];
    }
  }

  /**
   * Every match of `p` is replaced: `s` is the text between the matches
   * joined by `p`, none of those pieces holds a match, and the result is
   * the same pieces joined by `v`.
   */
  lemma {:induction false} ReplaceAllReplacesEveryMatch(s: string, p: string, v: string)
    requires p != []
    ensures s == Join(Split(s, p), p)
    ensures forall i | 0 <= i < |Split(s, p)| :: Count(Split(s, p)[i], p) == 0
    ensures ReplaceAll(s, p, v) == Join(Split(s, p), v)
    decreases |s|
  {
    SplitPiecesAreFree(s, p);
    if s == [] {
    } else if StartsWith(s, p) {
      ReplaceAllReplacesEveryMatch(s[|p|..], p, v);
      var rest := Split(s[|p|..], p);
      assert Split(s, p) == [""] + rest;
      assert ([""] + rest)[1..] == rest;
    } else {
      ReplaceAllReplacesEveryMatch(s[1..], p, v);
      var rest := Split(s[1..], p);
      JoinExtendHead(s[0], rest, v);
    }
  }

  /** A text without a match of `p` comes back unchanged. */
  lemma {:induction false} ReplaceAllWithoutMatch(s: string, p: string, v: string)
    requires p != [] && Count(s, p) == 0
    ensures ReplaceAll(s, p, v) == s
    decreases |s|
  {
    if s != [] {
      ReplaceAllWithoutMatch(s[1..], p, v);
    }
  }

  /** No match can begin inside a prefix that lacks the pattern's first character. */
  lemma {:induction false} ScanSkipsPrefix(x: string, y: string, p: string, v: string)
    requires p != [] && p[0] !in x
    ensures ReplaceAll(x + y, p, v) == x + ReplaceAll(y, p, v)
    ensures Count(x + y, p) == Count(y, p)
    decreases |x|
  {
    if x != [] {
      assert (x + y)[0] == x[0] && x[0] in x;
      assert !StartsWith(x + y, p);
      assert p[0] !in x[1..] by { assert forall k | 0 <= k < |x[1..]| :: x[1..][k] == x[k + 1]; }
      assert (x + y)[1..] == x[1..] + y;
      ScanSkipsPrefix(x[1..], y, p, v);
      assert ReplaceAll(x + y, p, v) == [x[0]] + ReplaceAll(x[1..] + y, p, v);
      assert Count(x + y, p) == Count(x[1..] + y, p);
      assert x == [x[0]] + x[1..];
    } else {
      assert x + y == y;
    }
  }

  /**
   * The scan restarts cleanly at a character the pattern does not contain:
   * no match can run across it.
   */
  lemma {:induction false} ScanSplitsAt(x: string, y: string, p: string, v: string)
    requires p != [] && y != [] && y[0] !in p
    ensures ReplaceAll(x + y, p, v) == ReplaceAll(x, p, v) + ReplaceAll(y, p, v)
    ensures Count(x + y, p) == Count(x, p) + Count(y, p)
    decreases |x|
  {
    if x == [] {
      assert x + y == y;
    } else if StartsWith(x + y, p) {
      MatchEndsBefore(x, y, p);
      ScanSplitsAt(x[|p|..], y, p, v);
    } else {
      NoMatchAtFront(x, y, p);
      ScanSplitsAt(x[1..], y, p, v);
    }
  }

  /** A match at the front of `x + y` lies within `x` when `y` begins outside the pattern. */
  lemma MatchEndsBefore(x: string, y: string, p: string)
    requires p != [] && y != [] && y[0] !in p && StartsWith(x + y, p)
    ensures StartsWith(x, p) && (x + y)[|p|..] == x[|p|..] + y
  {
    assert forall k | 0 <= k < |p| :: p[k] == (x + y)[k];
    assert (x + y)[|x|] == y[0];
    assert x[..|p|] == (x + y)[..|p|];
  }

  /** No match at the front of `x + y` means none at the front of `x`. */
  lemma NoMatchAtFront(x: string, y: string, p: string)
    requires x != [] && !StartsWith(x + y, p)
    ensures !StartsWith(x, p) && (x + y)[0] == x[0] && (x + y)[1..] == x[1..] + y
  {
    assert forall k | 0 <= k < |x| :: (x + y)[k] == x[k];
  }

  /**
   * When no match begins at the front of `q + b`, and none begins in the
   * rest of `q` either, the scan passes over all of `q` unchanged.
   */
  lemma ScanPassesFirst(q: string, b: string, p: string, v: string)
    requires p != [] && q != [] && !StartsWith(q + b, p)
    requires ReplaceAll(q[1..] + b, p, v) == q[1..] + ReplaceAll(b, p, v)
    requires Count(q[1..] + b, p) == Count(b, p)
    ensures ReplaceAll(q + b, p, v) == q + ReplaceAll(b, p, v)
    ensures Count(q + b, p) == Count(b, p)
  {
    assert (q + b)[1..] == q[1..] + b;
    assert q == [q[0]] + q[1..];
  }

  /** A match at the front is replaced and the scan resumes right after it. */
  lemma ScanMatchesFront(p: string, y: string, v: string)
    requires p != []
    ensures ReplaceAll(p + y, p, v) == v + ReplaceAll(y, p, v)
    ensures Count(p + y, p) == 1 + Count(y, p)
  {
    assert (p + y)[..|p|] == p;
    assert (p + y)[|p|..] == y;
  }

  /** A text shorter than the pattern, or as long but different, holds no match. */
  lemma ShortTextHasNoMatch(s: string, p: string)
    requires p != [] && (|s| < |p| || (|s| == |p| && s != p))
    ensures Count(s, p) == 0
  {
    if s != [] {
      assert |s[1..]| < |p|;
      ShortTextHasNoMatch(s[1..], p);
    }
  }

  /** With a single-character separator, `split` undoes `join`. */
  lemma {:induction false} SplitJoinRoundTrip(parts: seq<string>, c: char)
    requires parts != []
    requires forall i | 0 <= i < |parts| :: c !in parts[i]
    ensures Split(Join(parts, [c]), [c]) == parts
    decreases |parts|, |parts[0]|
  {
    var s := Join(parts, [c]);
    if |parts| == 1 {
      NoCharSplitsToItself(parts[0], c);
    } else if parts[0] == [] {
      assert s == [c] + Join(parts[1..], [c]);
      assert StartsWith(s, [c]);
      assert s[1..] == Join(parts[1..], [c]);
      SplitJoinRoundTrip(parts[1..], c);
    } else {
      var head := parts[0];
      var shorter := [head[1..]] + parts[1..];
      assert shorter[1..] == parts[1..];
      assert Join(shorter, [c]) == head[1..] + [c] + Join(parts[1..], [c]);
      assert s == [head[0]] + Join(shorter, [c]);
      assert head[0] != c by { assert head[0] == parts[0][0]; }
      assert !StartsWith(s, [c]);
      assert s[1..] == Join(shorter, [c]);
      forall i | 0 <= i < |shorter| ensures c !in shorter[i] {
        if i == 0 { assert shorter[0] == parts[0][1..]; } else { assert shorter[i] == parts[i]; }
      }
      SplitJoinRoundTrip(shorter, c);
      assert [head[0]] + shorter[0] == parts[0];
      assert [[head[0]] + shorter[0]] + shorter[1..] == parts;
    }
  }

  lemma {:induction false} NoCharSplitsToItself(s: string, c: char)
    requires c !in s
    ensures Split(s, [c]) == [s]
    decreases |s|
  {
    if s != [] {
      assert !StartsWith(s, [c]) by { assert s[..1][0] == s[0]; }
      assert c !in s[1..] by { assert forall k | 0 <= k < |s[1..]| :: s[1..][k] == s[k + 1]; }
      NoCharSplitsToItself(s[1..], c);
    }
  }

  /** A text in which a one-character pattern has no match does not hold that character. */
  lemma {:induction false} NoMatchMeansAbsent(s: string, c: char)
    requires Count(s, [c]) == 0
    ensures c !in s
    decreases |s|
  {
    if s != [] {
      assert s[0] != c by { assert !StartsWith(s, [c]); }
      NoMatchMeansAbsent(s[1..], c);
      assert s == [s[0]] + s[1..];
    }
  }

  /** A character other than the separator lands in some piece of the split. */
  lemma {:induction false} SplitKeepsCharacters(s: string, c: char, k: nat)
    requires k < |s| && s[k] != c
    ensures exists i :: 0 <= i < |Split(s, [c])| && s[k] in Split(s, [c])[i]
    decreases |s|
  {
    var r := Split(s, [c]);
    if StartsWith(s, [c]) {
      assert k > 0 by { assert s[0] == c; }
      SplitKeepsCharacters(s[1..], c, k - 1);
      var rest := Split(s[1..], [c]);
      var i :| 0 <= i < |rest| && s[1..][k - 1] in rest[i];
      assert r[i + 1] == rest[i];
    } else {
      var rest := Split(s[1..], [c]);
      assert r[0] == [s[0]] + rest[0];
      if k == 0 {
        assert s[0] in r[0];
      } else {
        SplitKeepsCharacters(s[1..], c, k - 1);
        var i :| 0 <= i < |rest| && s[1..][k - 1] in rest[i];
        if i == 0 {
          assert s[k] in r[0];
        } else {
          assert r[i] == rest[i];
        }
      }
    }
  }

  predicate IsDigit(c: char) {
    '0' <= c <= '9'
  }

  /** The number a string of decimal digits denotes. */
  function DigitsValue(s: string): nat
    requires forall i | 0 <= i < |s| :: IsDigit(s[i])
  {
    if s == [] then 0
    else DigitsValue(s[..|s| - 1]) * 10 + DigitValue(s[|s| - 1])
  }

  function DigitValue(c: char): nat
    requires IsDigit(c)
  {
    c as int - '0' as int
  }

  /** `${n}` for a non-negative integer: its shortest decimal numeral. */
  function NatToString(n: nat): (r: string)
    ensures r != [] && forall i | 0 <= i < |r| :: IsDigit(r[i])
    ensures DigitsValue(r) == n
    ensures r[0] == '0' ==> n == 0
  {
    var last := ['0' + ((n % 10) as char)];
    if n < 10 then last
    else
      var r := NatToString(n / 10) + last;
      assert r[..|r| - 1] == NatToString(n / 10);
      r
  }
}
