/**
 * Shared vocabulary: optional values, results, and the handful of string
 * operations (prefix tests, splitting, trimming, decimal text) that the
 * Rust backend and the TypeScript frontends both rely on.
 */
module Common {

  datatype Option<T> = None | Some(value: T)

  datatype Result<T, E> = Ok(value: T) | Err(error: E)

  /** A string that JavaScript treats as true: present and not empty. */
  predicate Truthy(s: Option<string>) {
    s.Some? && s.value != ""
  }

  /** JavaScript `s || fallback` on an optional string. */
  function OrElse(s: Option<string>, fallback: string): (r: string)
    ensures Truthy(s) ==> r == s.value
    ensures !Truthy(s) ==> r == fallback
  {
    if Truthy(s) then s.value else fallback
  }

  // ---------------------------------------------------------------------
  // Prefixes and substrings

  predicate StartsWith(s: string, p: string) {
    |p| <= |s| && s[..|p|] == p
  }

  /** `s` contains `sub` somewhere (JavaScript `includes`). */
  predicate Contains(s: string, sub: string)
    decreases |s|
  {
    StartsWith(s, sub) || (|s| > 0 && Contains(s[1..], sub))
  }

  lemma {:induction false} ContainsAt(s: string, sub: string, i: nat)
    requires i + |sub| <= |s| && s[i..i + |sub|] == sub
    ensures Contains(s, sub)
    decreases i
  {
    if i > 0 {
      assert s[1..][i - 1..i - 1 + |sub|] == s[i..i + |sub|];
      ContainsAt(s[1..], sub, i - 1);
    }
  }

  /** Rust `trim_start_matches` with a non-empty literal pattern. */
  function TrimStartMatches(s: string, p: string): (r: string)
    requires |p| > 0
    ensures |r| <= |s| && !StartsWith(r, p)
    decreases |s|
  {
    if StartsWith(s, p) then TrimStartMatches(s[|p|..], p) else s
  }

  /** JavaScript `endsWith`. */
  predicate EndsWith(s: string, p: string) {
    |p| <= |s| && s[|s| - |p|..] == p
  }

  /** A number that JavaScript treats as true. */
  predicate NonZero(n: Option<int>) {
    n.Some? && n.value != 0
  }

  // ---------------------------------------------------------------------
  // Membership tests on lists

  /** Some required entry is held (`required.some(p => held.includes(p))`). */
  function AnyHeld(required: seq<string>, held: seq<string>): (b: bool)
    ensures b <==> exists p :: p in required && p in held
  {
    if |required| == 0 then false
    else required[0] in held || AnyHeld(required[1..], held)
  }

  /** Every required entry is held (`required.every(p => held.includes(p))`). */
  function AllHeld(required: seq<string>, held: seq<string>): (b: bool)
    ensures b <==> forall p :: p in required ==> p in held
  {
    if |required| == 0 then true
    else required[0] in held && AllHeld(required[1..], held)
  }

  /** JavaScript `indexOf`: the first position, or -1. */
  function IndexOrMinusOne(xs: seq<string>, x: string): (i: int)
    ensures -1 <= i < |xs|
    ensures i == -1 <==> x !in xs
    ensures i >= 0 ==> xs[i] == x && x !in xs[..i]
  {
    if |xs| == 0 then -1
    else if xs[0] == x then 0
    else
      var j := IndexOrMinusOne(xs[1..], x);
      if j == -1 then -1 else j + 1
  }

  // ---------------------------------------------------------------------
  // Splitting and joining on a separator character

  function IndexOf(s: string, c: char): (i: nat)
    requires c in s
    ensures i < |s| && s[i] == c && c !in s[..i]
  {
    if s[0] == c then 0 else IndexOf(s[1..], c) + 1
  }

  /** JavaScript `split(c)` / Rust `split(c)`: never empty, pieces hold no `c`. */
  function Split(s: string, c: char): (parts: seq<string>)
    ensures |parts| >= 1
    ensures forall k :: 0 <= k < |parts| ==> c !in parts[k]
    decreases |s|
  {
    if c !in s then [s]
    else
      var i := IndexOf(s, c);
      [s[..i]] + Split(s[i + 1..], c)
  }

  function Join(parts: seq<string>, sep: string): string {
    if |parts| == 0 then ""
    else if |parts| == 1 then parts[0]
    else parts[0] + sep + Join(parts[1..], sep)
  }

  lemma {:induction false} JoinAppend(xs: seq<string>, ys: seq<string>, sep: string)
    requires |xs| >= 1 && |ys| >= 1
    ensures Join(xs + ys, sep) == Join(xs, sep) + sep + Join(ys, sep)
    decreases |xs|
  {
    if |xs| > 1 {
      JoinAppend(xs[1..], ys, sep);
      assert (xs + ys)[1..] == xs[1..] + ys;
    }
  }

  /** Splitting and re-joining with the same separator gives the text back. */
  lemma {:induction false} JoinSplit(s: string, c: char)
    ensures Join(Split(s, c), [c]) == s
    decreases |s|
  {
    if c in s {
      var i := IndexOf(s, c);
      var rest := s[i + 1..];
      JoinSplit(rest, c);
      assert Split(s, c) == [s[..i]] + Split(rest, c);
      assert s == s[..i] + [c] + rest;
    }
  }

  /** A separator-free head splits off as the first piece. */
  lemma SplitCons(a: string, c: char, b: string)
    requires c !in a
    ensures Split(a + [c] + b, c) == [a] + Split(b, c)
  {
    var s := a + [c] + b;
    assert s[|a|] == c;
    var i := IndexOf(s, c);
    assert i == |a|;
    assert s[..i] == a && s[i + 1..] == b;
  }

  /** Splitting a join of separator-free pieces gives the pieces back. */
  lemma {:induction false} SplitJoin(parts: seq<string>, c: char)
    requires |parts| >= 1
    requires forall k :: 0 <= k < |parts| ==> c !in parts[k]
    ensures Split(Join(parts, [c]), c) == parts
    decreases |parts|
  {
    if |parts| > 1 {
      SplitJoin(parts[1..], c);
      SplitCons(parts[0], c, Join(parts[1..], [c]));
      assert parts == [parts[0]] + parts[1..];
    }
  }

  // ---------------------------------------------------------------------
  // ASCII whitespace and case

  predicate IsSpace(ch: char) {
    ch == ' ' || ch == '\t' || ch == '\n' || ch == '\r' || ch == '\U{000B}' || ch == '\U{000C}'
  }

  function TrimStart(s: string): (r: string)
    ensures |r| <= |s|
    ensures |r| > 0 ==> !IsSpace(r[0])
    decreases |s|
  {
    if |s| > 0 && IsSpace(s[0]) then TrimStart(s[1..]) else s
  }

  function TrimEnd(s: string): (r: string)
    ensures |r| <= |s|
    ensures |r| > 0 ==> !IsSpace(r[|r| - 1])
    decreases |s|
  {
    if |s| > 0 && IsSpace(s[|s| - 1]) then TrimEnd(s[..|s| - 1]) else s
  }

  /** JavaScript `trim()` / Rust `trim()` restricted to ASCII whitespace. */
  function Trim(s: string): string {
    TrimEnd(TrimStart(s))
  }

  predicate AllSpace(s: string) {
    forall k :: 0 <= k < |s| ==> IsSpace(s[k])
  }

  /** The trimmed text is empty exactly when the text is blank. */
  lemma {:induction false} TrimEmptyIffBlank(s: string)
    ensures Trim(s) == "" <==> AllSpace(s)
  {
    StartBlank(s);
    EndBlank(TrimStart(s));
  }

  lemma {:induction false} StartBlank(s: string)
    ensures TrimStart(s) == "" <==> AllSpace(s)
    decreases |s|
  {
    if |s| > 0 && IsSpace(s[0]) {
      StartBlank(s[1..]);
      assert AllSpace(s) <==> AllSpace(s[1..]) by {
        if AllSpace(s[1..]) {
          forall k | 0 <= k < |s| ensures IsSpace(s[k]) {
            if k > 0 { assert s[k] == s[1..][k - 1]; }
          }
        }
      }
    }
  }

  lemma {:induction false} EndBlank(s: string)
    ensures TrimEnd(s) == "" <==> AllSpace(s)
    decreases |s|
  {
    if |s| > 0 && IsSpace(s[|s| - 1]) {
      var t := s[..|s| - 1];
      EndBlank(t);
      assert AllSpace(s) <==> AllSpace(t) by {
        if AllSpace(t) {
          forall k | 0 <= k < |s| ensures IsSpace(s[k]) {
            if k < |s| - 1 { assert s[k] == t[k]; }
          }
        }
      }
    }
  }

  /** One leading space before a word with no outer whitespace is trimmed away. */
  lemma TrimSpaced(w: string)
    requires |w| > 0 && !IsSpace(w[0]) && !IsSpace(w[|w| - 1])
    ensures Trim(" " + w) == w
  {
    var s := " " + w;
    assert s[1..] == w;
    assert TrimStart(s) == TrimStart(w) == w;
    assert TrimEnd(w) == w;
  }

  function LowerChar(ch: char): char {
    if 'A' <= ch <= 'Z' then (ch as int + 32) as char else ch
  }

  /** `toLowerCase()` on the ASCII letters. */
  function ToLower(s: string): (r: string)
    ensures |r| == |s|
    ensures forall k :: 0 <= k < |s| ==> r[k] == LowerChar(s[k])
  {
    seq(|s|, k requires 0 <= k < |s| => LowerChar(s[k]))
  }

  // ---------------------------------------------------------------------
  // Decimal text

  predicate IsDigit(ch: char) {
    '0' <= ch <= '9'
  }

  predicate AllDigits(s: string) {
    forall k :: 0 <= k < |s| ==> IsDigit(s[k])
  }

  function DigitChar(d: nat): (ch: char)
    requires d < 10
    ensures IsDigit(ch) && ch as int - '0' as int == d
  {
    ('0' as int + d) as char
  }

  /** Decimal rendering of a natural number, without leading zeros. */
  function NatToString(n: nat): (s: string)
    ensures |s| >= 1 && AllDigits(s)
    ensures |s| > 1 ==> s[0] != '0'
    decreases n
  {
    if n < 10 then [DigitChar(n)] else NatToString(n / 10) + [DigitChar(n % 10)]
  }

  function DigitsValue(s: string): nat
    requires AllDigits(s)
    decreases |s|
  {
    if |s| == 0 then 0 else DigitsValue(s[..|s| - 1]) * 10 + (s[|s| - 1] as int - '0' as int)
  }

  /** Reading the decimal text back yields the number. */
  lemma {:induction false} NatToStringValue(n: nat)
    ensures DigitsValue(NatToString(n)) == n
    decreases n
  {
    if n >= 10 {
      NatToStringValue(n / 10);
      var s := NatToString(n);
      assert s[..|s| - 1] == NatToString(n / 10);
    }
  }

  /** Decimal rendering is injective. */
  lemma NatToStringInjective(m: nat, n: nat)
    requires NatToString(m) == NatToString(n)
    ensures m == n
  {
    NatToStringValue(m);
    NatToStringValue(n);
  }

  /** JavaScript `String(i)` for an integer. */
  function IntToString(i: int): string {
    if i < 0 then "-" + NatToString(-i) else NatToString(i)
  }

  /**
   * JavaScript `Number(s)` on integer text (StringToNumber, section 7.1.4.1.1
   * of ECMAScript 2023): surrounding whitespace is ignored, blank text is 0,
   * decimal digits may follow one `+` or `-`; None for NaN.
   */
  function NumberOfString(s: string): (n: Option<int>)
    ensures AllDigits(s) && s != "" ==> n == Some(DigitsValue(s))
    ensures Trim(s) == "" ==> n == Some(0)
  {
    var t := Trim(s);
    assert AllDigits(s) && s != "" ==> t == s by {
      if AllDigits(s) && s != "" {
        assert TrimStart(s) == s;
        assert TrimEnd(s) == s;
      }
    }
    if t == "" then Some(0)
    else if AllDigits(t) then Some(DigitsValue(t))
    else if |t| > 1 && (t[0] == '-' || t[0] == '+') && AllDigits(t[1..]) then
      var v: int := DigitsValue(t[1..]);
      Some(if t[0] == '-' then -v else v)
    else None
  }

  /** `Number(String(i))` is `i`. */
  lemma NumberOfIntText(i: int)
    ensures NumberOfString(IntToString(i)) == Some(i)
  {
    if i < 0 {
      NatToStringValue(-i);
      NegativeText(NatToString(-i), -i);
    } else {
      var d := NatToString(i);
      NatToStringValue(i);
      assert IntToString(i) == d && AllDigits(d) && d != "";
    }
  }

  lemma NegativeText(d: string, n: nat)
    requires AllDigits(d) && d != "" && DigitsValue(d) == n
    ensures NumberOfString("-" + d) == Some(-(n as int))
  {
    SignedNumberText(d);
  }


  /** A leading space does not change what `Number` reads. */
  lemma NumberOfSpaced(w: string)
    requires |w| > 0 && !IsSpace(w[0]) && !IsSpace(w[|w| - 1])
    ensures NumberOfString(" " + w) == NumberOfString(w)
  {
    TrimSpaced(w);
    assert TrimStart(w) == w && TrimEnd(w) == w;
  }

  /** A sign in front of digit text is read as the sign of the number. */
  lemma SignedNumberText(d: string)
    requires AllDigits(d) && d != ""
    ensures NumberOfString("+" + d) == Some(DigitsValue(d))
    ensures NumberOfString("-" + d) == Some(-(DigitsValue(d) as int))
  {
    SignedText('+', d);
    SignedText('-', d);
  }

  lemma SignedText(c: char, d: string)
    requires c == '+' || c == '-'
    requires AllDigits(d) && d != ""
    ensures NumberOfString([c] + d) == Some(if c == '-' then -(DigitsValue(d) as int) else DigitsValue(d))
  {
    var t := [c] + d;
    assert !IsSpace(t[0]) && !IsSpace(t[|t| - 1]);
    TrimUnspaced(t);
    assert t[1..] == d && !IsDigit(t[0]);
  }

  /** Text that neither starts nor ends with whitespace is its own trim. */
  lemma TrimUnspaced(w: string)
    requires |w| > 0 && !IsSpace(w[0]) && !IsSpace(w[|w| - 1])
    ensures Trim(w) == w
  {
  }

  /** Every piece trimmed, in the same positions: a `.map` of trim. */
  function TrimAll(pieces: seq<string>): (trimmed: seq<string>)
    ensures |trimmed| == |pieces| && forall k :: 0 <= k < |pieces| ==> trimmed[k] == Trim(pieces[k])
  {
    if |pieces| == 0 then [] else [Trim(pieces[0])] + TrimAll(pieces[1..])
  }

  /** JavaScript `padStart(2, '0')`. */
  function PadStart2(s: string): (r: string)
    ensures |s| >= 2 ==> r == s
    ensures |s| < 2 ==> |r| == 2 && r[2 - |s|..] == s
  {
    if |s| >= 2 then s else if |s| == 1 then "0" + s else "00"
  }

  /** JavaScript `slice(-2)`: the last two characters (all of a shorter text). */
  function LastTwo(s: string): (r: string)
    ensures |r| == if |s| < 2 then |s| else 2
    ensures r == s[|s| - |r|..]
  {
    if |s| < 2 then s else s[|s| - 2..]
  }

  /** Cancelling a common factor from a strict inequality. */
  lemma MulCancel(k: nat, a: nat, b: nat)
    requires k * a > k * b
    ensures a > b
  {
  }

  /** A quotient is at most `k` when the dividend is below `d * (k + 1)`. */
  lemma DivAtMost(x: nat, d: nat, k: nat)
    requires d > 0 && x < d * (k + 1)
    ensures x / d <= k
  {
    assert d * (x / d) <= x;
    MulCancel(d, k + 1, x / d);
  }

  /** A hexadecimal digit of either case. */
  predicate HexDigit(ch: char) {
    '0' <= ch <= '9' || 'a' <= ch <= 'f' || 'A' <= ch <= 'F'
  }

  /** No value occurs twice. */
  predicate NoDuplicates<T(==)>(xs: seq<T>) {
    forall a, b :: 0 <= a < b < |xs| ==> xs[a] != xs[b]
  }

  /** `xs` is `ys` with some elements dropped, order kept. */
  predicate IsSubsequence<T(==)>(xs: seq<T>, ys: seq<T>)
    decreases |ys|
  {
    |xs| == 0 || (|ys| > 0 && ((xs[0] == ys[0] && IsSubsequence(xs[1..], ys[1..])) || IsSubsequence(xs, ys[1..])))
  }

  /** Dropping the head of `ys` keeps a subsequence of its tail a subsequence. */
  lemma SubsequenceOfTail<T>(xs: seq<T>, ys: seq<T>)
    requires |ys| > 0 && IsSubsequence(xs, ys[1..])
    ensures IsSubsequence(xs, ys)
  {
  }

  function Max(a: int, b: int): int { if a >= b then a else b }
  function Min(a: int, b: int): int { if a <= b then a else b }

  // ---------------------------------------------------------------------
  // Schema validation issues

  /** One validation issue: the field it is attached to and its message. */
  datatype Issue = Issue(path: string, message: string)

  /** One check: no issue when it holds, one issue when it fails. */
  function Check(ok: bool, path: string, message: string): (issues: seq<Issue>)
    ensures ok <==> issues == []
    ensures !ok ==> issues == [Issue(path, message)]
  {
    if ok then [] else [Issue(path, message)]
  }
}
