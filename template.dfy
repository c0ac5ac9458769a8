/**
 * `fillPromptTemplate` (services/localLlmService.ts, and the identical copy
 * in services/geminiService.ts): for each key of the data record, in
 * insertion order, every `{{key}}` in the running text becomes the value.
 */
module Template {
  import opened JsStrings

  /** Characters of a key that a regular expression reads literally. */
  predicate IsKeyChar(c: char) {
    ('a' <= c <= 'z') || ('A' <= c <= 'Z') || ('0' <= c <= '9') || c == '_'
  }

  /**
   * A key that is an identifier not starting with a digit. A `{` that does
   * not open a `{n}`, `{n,}` or `{n,m}` quantifier is a literal brace in a regular
   * expression (Annex B of ECMAScript), so `{{key}}` then matches only
   * itself; and `for...in` visits such keys in insertion order.
   */
  predicate IsPlainKey(key: string) {
    key != [] && !IsDigit(key[0]) && forall i | 0 <= i < |key| :: IsKeyChar(key[i])
  }

  function Placeholder(key: string): string {
    "{{" + key + "}}"
  }

  /** One property of the `Record<string, string>` handed to the fill. */
  datatype Entry = Entry(key: string, value: string)

  /** The data record: distinct plain keys, in insertion order. */
  predicate IsRecord(data: seq<Entry>) {
    && (forall i | 0 <= i < |data| :: IsPlainKey(data[i].key))
    && (forall i, j | 0 <= i < j < |data| :: data[i].key != data[j].key)
  }

  /** The text after the keys `data` names have been replaced one after the other. */
  function Fill(template: string, data: seq<Entry>): string
    decreases |data|
  {
    if data == [] then template
    else Fill(ReplaceAll(template, Placeholder(data[0].key), data[0].value), data[1..])
  }

  /** The loop of `fillPromptTemplate`, rewriting one string variable key by key. */
  method FillPromptTemplate(template: string, data: seq<Entry>) returns (filled: string)
    requires IsRecord(data)
    ensures filled == Fill(template, data)
  {
    filled := template;
    var i := 0;
    while i < |data|
      invariant 0 <= i <= |data|
      invariant Fill(filled, data[i..]) == Fill(template, data)
    {
      assert data[i..][1..] == data[i + 1..];
      filled := ReplaceAll(filled, Placeholder(data[i].key), data[i].value);
      i := i + 1;
    }
  }

  /** A template that holds none of the data's placeholders comes back unchanged. */
  lemma {:induction false} FillWithoutPlaceholders(template: string, data: seq<Entry>)
    requires forall i | 0 <= i < |data| :: Count(template, Placeholder(data[i].key)) == 0
    ensures Fill(template, data) == template
    decreases |data|
  {
    if data != [] {
      ReplaceAllWithoutMatch(template, Placeholder(data[0].key), data[0].value);
      FillWithoutPlaceholders(template, data[1..]);
    }
  }

  /** A plain key's placeholder begins with another's only when the keys are equal. */
  lemma PlaceholderStartsOnlyWithItself(k: string, other: string)
    requires IsPlainKey(k) && IsPlainKey(other)
    ensures StartsWith(Placeholder(other), Placeholder(k)) ==> k == other
  {
    var s, p := Placeholder(other), Placeholder(k);
    if StartsWith(s, p) {
      assert s[2 + |k|] == '}' by { assert s[..|p|][2 + |k|] == p[2 + |k|]; }
      assert forall j | 0 <= j < |other| :: s[2 + j] == other[j] && IsKeyChar(other[j]);
      assert |other| <= |k|;
      assert s == p by { assert s[..|p|] == s; }
      assert k == p[2..2 + |k|] == s[2..2 + |other|] == other;
    }
  }

  /**
   * The placeholder of one plain key holds no match of another's: filling
   * `goal` cannot touch `{{goals}}`, nor filling `goals` touch `{{goal}}`.
   */
  lemma PlaceholderHoldsNoOtherPlaceholder(k: string, other: string)
    requires IsPlainKey(k) && IsPlainKey(other) && k != other
    ensures Count(Placeholder(other), Placeholder(k)) == 0
  {
    var s, p := Placeholder(other), Placeholder(k);
    PlaceholderStartsOnlyWithItself(k, other);
    assert s[1..] == "{" + other + "}}";
    assert s[1..][1] == other[0];
    var tail := other + "}}";
    assert s[1..][1..] == tail;
    assert '{' !in tail by {
      forall c | c in tail ensures c != '{' {
        var j :| 0 <= j < |tail| && tail[j] == c;
        if j < |other| { assert IsKeyChar(other[j]); }
      }
    }
    ScanSkipsPrefix(tail, [], p, "");
    assert tail + [] == tail;
  }

  /** A plain key's placeholder matches in another plain key's placeholder iff the keys are equal. */
  lemma PlaceholderCount(k: string, other: string)
    requires IsPlainKey(k) && IsPlainKey(other)
    ensures Count(Placeholder(other), Placeholder(k)) == if k == other then 1 else 0
  {
    if k == other {
      ScanMatchesFront(Placeholder(k), [], "");
      assert Placeholder(k) + [] == Placeholder(k);
    } else {
      PlaceholderHoldsNoOtherPlaceholder(k, other);
    }
  }

  /** Matches of a plain key's placeholder in two others' placeholders: one if it is either of them. */
  lemma PlaceholderCountInPair(k: string, k1: string, k2: string)
    requires IsPlainKey(k) && IsPlainKey(k1) && IsPlainKey(k2) && k1 != k2
    ensures Count(Placeholder(k1), Placeholder(k)) + Count(Placeholder(k2), Placeholder(k))
         == if k == k1 || k == k2 then 1 else 0
  {
    PlaceholderCount(k, k1);
    PlaceholderCount(k, k2);
  }

  /**
   * A match of another plain key's placeholder that begins in `x` ends
   * within `x`: it cannot run into the `{{k}}` that follows, whose
   * braces would have to sit where the key's first character is.
   */
  lemma MatchEndsBeforePlaceholder(x: string, k: string, b: string, key: string)
    requires IsPlainKey(k) && IsPlainKey(key) && x != []
    requires StartsWith(x + (Placeholder(k) + b), Placeholder(key))
    ensures StartsWith(x, Placeholder(key))
    ensures (x + (Placeholder(k) + b))[|Placeholder(key)|..] == x[|Placeholder(key)|..] + (Placeholder(k) + b)
  {
    var s, p := x + (Placeholder(k) + b), Placeholder(key);
    assert forall j | 0 <= j < |p| :: s[j] == p[j];
    assert forall j | 2 <= j < |p| :: p[j] != '{' by {
      forall j | 2 <= j < |p| ensures p[j] != '{' {
        if j < 2 + |key| { assert p[j] == key[j - 2] && IsKeyChar(key[j - 2]); }
      }
    }
    assert s[|x|] == '{' && s[|x| + 1] == '{';
    assert IsKeyChar(key[0]) && p[2] == key[0];
    assert |p| <= |x|;
    assert x[..|p|] == s[..|p|];
  }

  /** A text that begins with `{{k}}` begins with a plain key's placeholder only if that key is `k`. */
  lemma PlaceholderFrontNamesItsKey(k: string, b: string, key: string)
    requires IsPlainKey(k) && IsPlainKey(key)
    ensures StartsWith(Placeholder(k) + b, Placeholder(key)) ==> k == key
  {
    var s, p := Placeholder(k) + b, Placeholder(key);
    if StartsWith(s, p) {
      assert forall j | 0 <= j < |p| :: s[j] == p[j];
      assert forall j | 0 <= j < |k| :: s[2 + j] == k[j] && IsKeyChar(k[j]);
      assert forall j | 0 <= j < |key| :: p[2 + j] == key[j] && IsKeyChar(key[j]);
      assert s[2 + |k|] == '}' && p[2 + |key|] == '}';
      assert |k| == |key|;
      assert k == s[2..2 + |k|] == p[2..2 + |key|] == key;
    }
  }

  /** Past the first brace of `{{k}}`, no match of a placeholder can begin before `b`. */
  lemma ScanPassesKey(k: string, b: string, p: string, v: string)
    requires IsPlainKey(k) && |p| >= 2 && p[0] == '{' && p[1] == '{'
    ensures var q := Placeholder(k)[1..];
      && ReplaceAll(q + b, p, v) == q + ReplaceAll(b, p, v)
      && Count(q + b, p) == Count(b, p)
  {
    var q := Placeholder(k);
    assert forall j | 2 <= j < |q| :: q[j] != '{' by {
      forall j | 2 <= j < |q| ensures q[j] != '{' {
        if j < 2 + |k| { assert q[j] == k[j - 2] && IsKeyChar(k[j - 2]); }
      }
    }
    var inner := q[2..];
    assert '{' !in inner;
    ScanSkipsPrefix(inner, b, p, v);
    var t := q[1..] + b;
    assert t[1] == q[2] == k[0] && IsKeyChar(k[0]);
    assert t[1..] == inner + b;
    assert q[1..] == [q[1]] + inner;
  }

  /** No match of another plain key's placeholder begins anywhere inside `{{k}}`. */
  lemma ScanPassesPlaceholder(k: string, b: string, key: string, v: string)
    requires IsPlainKey(k) && IsPlainKey(key) && k != key
    ensures ReplaceAll(Placeholder(k) + b, Placeholder(key), v) == Placeholder(k) + ReplaceAll(b, Placeholder(key), v)
    ensures Count(Placeholder(k) + b, Placeholder(key)) == Count(b, Placeholder(key))
  {
    ScanPassesKey(k, b, Placeholder(key), v);
    PlaceholderFrontNamesItsKey(k, b, key);
    ScanPassesFirst(Placeholder(k), b, Placeholder(key), v);
  }

  /**
   * One key's replacement leaves a `{{k}}` of another plain key in place,
   * and works on the text before it and the text after it on their own.
   */
  lemma {:induction false} ReplaceAroundPlaceholder(a: string, k: string, b: string, key: string, v: string)
    requires IsPlainKey(k) && IsPlainKey(key) && k != key
    ensures ReplaceAll(a + (Placeholder(k) + b), Placeholder(key), v)
         == ReplaceAll(a, Placeholder(key), v) + (Placeholder(k) + ReplaceAll(b, Placeholder(key), v))
    ensures Count(a + (Placeholder(k) + b), Placeholder(key)) == Count(a, Placeholder(key)) + Count(b, Placeholder(key))
    decreases |a|
  {
    var p, rest := Placeholder(key), Placeholder(k) + b;
    if a == [] {
      assert a + rest == rest;
      ScanPassesPlaceholder(k, b, key, v);
    } else if StartsWith(a + rest, p) {
      MatchEndsBeforePlaceholder(a, k, b, key);
      ReplaceAroundPlaceholder(a[|p|..], k, b, key, v);
    } else {
      NoMatchAtFront(a, rest, p);
      ReplaceAroundPlaceholder(a[1..], k, b, key, v);
    }
  }

  /**
   * A placeholder whose key the data does not name survives the fill
   * verbatim wherever it stands, and the text on either side of it is
   * filled as if on its own.
   */
  lemma {:induction false} FillKeepsUnnamedPlaceholder(a: string, k: string, b: string, data: seq<Entry>)
    requires IsPlainKey(k) && IsRecord(data)
    requires forall i | 0 <= i < |data| :: data[i].key != k
    ensures Fill(a + (Placeholder(k) + b), data) == Fill(a, data) + (Placeholder(k) + Fill(b, data))
    decreases |data|
  {
    if data != [] {
      var e := data[0];
      ReplaceAroundPlaceholder(a, k, b, e.key, e.value);
      FillKeepsUnnamedPlaceholder(ReplaceAll(a, Placeholder(e.key), e.value), k, ReplaceAll(b, Placeholder(e.key), e.value), data[1..]);
    }
  }

  /** Filling the first slot of `a {{k1}} b {{k2}} c`. */
  lemma FillFirstSlot(a: string, k1: string, b: string, k2: string, c: string, v1: string)
    requires IsPlainKey(k1) && IsPlainKey(k2) && k1 != k2
    requires '{' !in a && '{' !in b
    requires c != [] && c[0] !in Placeholder(k1) && Count(c, Placeholder(k1)) == 0
    ensures var rest := b + (Placeholder(k2) + c);
      && ReplaceAll(a + (Placeholder(k1) + rest), Placeholder(k1), v1) == a + (v1 + rest)
      && Count(a + (Placeholder(k1) + rest), Placeholder(k1)) == 1
  {
    var p1, p2 := Placeholder(k1), Placeholder(k2);
    PlaceholderHoldsNoOtherPlaceholder(k1, k2);
    ReplaceAllWithoutMatch(p2, p1, v1);
    ReplaceAllWithoutMatch(c, p1, v1);
    ScanSplitsAt(p2, c, p1, v1);
    ScanSkipsPrefix(b, p2 + c, p1, v1);
    ScanMatchesFront(p1, b + (p2 + c), v1);
    ScanSkipsPrefix(a, p1 + (b + (p2 + c)), p1, v1);
  }

  /**
   * Filling the second slot of `a x b {{k2}} c`: the scan restarts at `b`,
   * so whatever stands in the first slot is filled on its own.
   */
  lemma FillSecondSlot(a: string, x: string, b: string, k2: string, c: string, v2: string)
    requires IsPlainKey(k2)
    requires '{' !in a && '{' !in b
    requires b != [] && b[0] !in Placeholder(k2) && Count(c, Placeholder(k2)) == 0
    ensures var p2 := Placeholder(k2);
      && ReplaceAll(a + (x + (b + (p2 + c))), p2, v2) == a + (ReplaceAll(x, p2, v2) + (b + (v2 + c)))
      && Count(a + (x + (b + (p2 + c))), p2) == Count(x, p2) + 1
  {
    var p2 := Placeholder(k2);
    ReplaceAllWithoutMatch(c, p2, v2);
    ScanMatchesFront(p2, c, v2);
    ScanSkipsPrefix(b, p2 + c, p2, v2);
    ScanSplitsAt(x, b + (p2 + c), p2, v2);
    ScanSkipsPrefix(a, x + (b + (p2 + c)), p2, v2);
  }

  /**
   * A template with two slots, `a {{k1}} b {{k2}} c`, filled with `k1`
   * first: the first value lands verbatim except that a `{{k2}}` inside it
   * is filled too, the second lands verbatim, and nothing else changes.
   * `a` and `b` hold no `{`, `b` and `c` begin with a character no
   * placeholder contains, and `c` holds neither placeholder.
   */
  lemma FillTwoSlots(a: string, k1: string, b: string, k2: string, c: string, v1: string, v2: string)
    requires IsPlainKey(k1) && IsPlainKey(k2) && k1 != k2
    requires '{' !in a && '{' !in b
    requires b != [] && b[0] !in Placeholder(k2)
    requires c != [] && c[0] !in Placeholder(k1)
    requires Count(c, Placeholder(k1)) == 0 && Count(c, Placeholder(k2)) == 0
    ensures var t := a + (Placeholder(k1) + (b + (Placeholder(k2) + c)));
      Fill(t, [Entry(k1, v1), Entry(k2, v2)]) == a + (ReplaceAll(v1, Placeholder(k2), v2) + (b + (v2 + c)))
  {
    var p1, p2 := Placeholder(k1), Placeholder(k2);
    var t := a + (p1 + (b + (p2 + c)));
    var once := ReplaceAll(t, p1, v1);
    FillFirstSlot(a, k1, b, k2, c, v1);
    var twice := ReplaceAll(once, p2, v2);
    FillSecondSlot(a, v1, b, k2, c, v2);
    var data := [Entry(k1, v1), Entry(k2, v2)];
    assert data[1..] == [Entry(k2, v2)] && data[1..][1..] == [];
    assert Fill(t, data) == Fill(once, data[1..]) == Fill(twice, []);
  }

  /**
   * Matches of a placeholder in `a x b y c` lie within `x` or within `y`:
   * `a` and `b` hold no `{`, the scan restarts at `b` and at `c`, and `c`
   * holds none.
   */
  lemma CountAcrossSlots(a: string, x: string, b: string, y: string, c: string, p: string)
    requires p != [] && p[0] == '{' && '{' !in a && '{' !in b
    requires b != [] && b[0] !in p && c != [] && c[0] !in p && Count(c, p) == 0
    ensures Count(a + (x + (b + (y + c))), p) == Count(x, p) + Count(y, p)
  {
    ScanSplitsAt(y, c, p, "");
    ScanSkipsPrefix(b, y + c, p, "");
    ScanSplitsAt(x, b + (y + c), p, "");
    ScanSkipsPrefix(a, x + (b + (y + c)), p, "");
  }
}
