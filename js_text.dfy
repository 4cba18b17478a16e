/**
 * The JavaScript string and array operations the request handlers are built
 * from: `String.prototype.trim`, `toLowerCase`, `replace(/\s+/g, "-")`,
 * `slice(0, n)`, `filter(Boolean)` over a list of strings, `join` and `split`,
 * and the decimal rendering of an array index inside a template string.
 */
module JsText {

  /** ECMAScript WhiteSpace and LineTerminator code points: what `trim` strips and `\s` matches. */
  predicate IsWhitespace(c: char) {
    c == '\t' || c == '\n' || c == '\U{B}' || c == '\U{C}' || c == '\r' || c == ' '
    || c == '\U{A0}' || c == '\U{1680}' || ('\U{2000}' <= c <= '\U{200A}')
    || c == '\U{2028}' || c == '\U{2029}' || c == '\U{202F}' || c == '\U{205F}'
    || c == '\U{3000}' || c == '\U{FEFF}'
  }

  predicate IsBlank(s: string) {
    forall k :: 0 <= k < |s| ==> IsWhitespace(s[k])
  }

  /** Drops the leading whitespace run. */
  function TrimStart(s: string): (r: string)
    ensures |r| <= |s| && r == s[|s| - |r|..]
    ensures r != [] ==> !IsWhitespace(r[0])
  {
    if s != [] && IsWhitespace(s[0]) then TrimStart(s[1..]) else s
  }

  /** What `TrimStart` drops is whitespace. */
  lemma {:induction false} TrimStartDropsBlank(s: string)
    ensures IsBlank(s[..|s| - |TrimStart(s)|])
  {
    if s != [] && IsWhitespace(s[0]) {
      TrimStartDropsBlank(s[1..]);
      forall k | 0 <= k < |s| - |TrimStart(s)| ensures IsWhitespace(s[k]) {
        if k > 0 { assert s[1..][..|s| - 1 - |TrimStart(s[1..])|][k - 1] == s[k]; }
      }
    }
  }

  /** Drops the trailing whitespace run. */
  function TrimEnd(s: string): (r: string)
    ensures |r| <= |s| && r == s[..|r|]
    ensures r != [] ==> !IsWhitespace(r[|r| - 1])
  {
    if s != [] && IsWhitespace(s[|s| - 1]) then TrimEnd(s[..|s| - 1]) else s
  }

  /** What `TrimEnd` drops is whitespace. */
  lemma {:induction false} TrimEndDropsBlank(s: string)
    ensures IsBlank(s[|TrimEnd(s)|..])
  {
    if s != [] && IsWhitespace(s[|s| - 1]) {
      TrimEndDropsBlank(s[..|s| - 1]);
      forall k | |TrimEnd(s)| <= k < |s| ensures IsWhitespace(s[k]) {
        if k < |s| - 1 { assert s[..|s| - 1][|TrimEnd(s)|..][k - |TrimEnd(s)|] == s[k]; }
      }
    }
  }

  /** `s.trim()` */
  function Trim(s: string): (r: string)
    ensures r != [] ==> !IsWhitespace(r[0]) && !IsWhitespace(r[|r| - 1])
  {
    TrimEnd(TrimStart(s))
  }

  /** `trim` keeps a middle section of its input and removes only whitespace around it. */
  lemma TrimIsInfix(s: string)
    ensures exists a ::
              && 0 <= a <= a + |Trim(s)| <= |s|
              && Trim(s) == s[a..a + |Trim(s)|]
              && IsBlank(s[..a])
              && IsBlank(s[a + |Trim(s)|..])
  {
    var t := TrimStart(s);
    var a := |s| - |t|;
    var r := TrimEnd(t);
    TrimStartDropsBlank(s);
    TrimEndDropsBlank(t);
    assert t == s[a..];
    assert r == t[..|r|] == s[a..a + |r|];
    assert s[a + |r|..] == t[|r|..];
    assert IsBlank(s[..a]) && IsBlank(s[a + |r|..]);
  }

  /** A trimmed string is empty exactly when the input was all whitespace: the `if (!x.trim())` test. */
  lemma TrimEmptyIffBlank(s: string)
    ensures Trim(s) == [] <==> IsBlank(s)
  {
    var t := TrimStart(s);
    var a := |s| - |t|;
    TrimStartDropsBlank(s);
    TrimEndDropsBlank(t);
    if Trim(s) == [] {
      assert IsBlank(t);
      assert a == |s|;
      forall k | 0 <= k < |s| ensures IsWhitespace(s[k]) {
        assert s[..a][k] == s[k];
      }
    }
  }

  /** A string that neither starts nor ends with whitespace is unchanged by `trim`. */
  lemma TrimUnchanged(s: string)
    requires s != [] ==> !IsWhitespace(s[0]) && !IsWhitespace(s[|s| - 1])
    ensures Trim(s) == s
  {
    assert TrimStart(s) == s;
  }

  lemma TrimIdempotent(s: string)
    ensures Trim(Trim(s)) == Trim(s)
  {
    TrimUnchanged(Trim(s));
  }

  /** ASCII lower-casing of one character. */
  function LowerChar(c: char): char {
    if 'A' <= c <= 'Z' then (c as int + 32) as char else c
  }

  /** `s.toLowerCase()` restricted to ASCII letters. */
  function Lower(s: string): (r: string)
    ensures |r| == |s|
    ensures forall k :: 0 <= k < |s| ==> r[k] == LowerChar(s[k])
  {
    seq(|s|, k requires 0 <= k < |s| => LowerChar(s[k]))
  }

  lemma LowerKeepsWhitespace(c: char)
    ensures IsWhitespace(LowerChar(c)) <==> IsWhitespace(c)
  {
  }

  /** `s.replace(/\s+/g, "-")`: every maximal whitespace run becomes one dash. */
  function DashWhitespaceRuns(s: string): (r: string)
    ensures |r| <= |s|
    ensures forall k :: 0 <= k < |r| ==> !IsWhitespace(r[k])
    decreases |s|
  {
    if s == [] then []
    else if IsWhitespace(s[0]) then "-" + DashWhitespaceRuns(TrimStart(s))
    else [s[0]] + DashWhitespaceRuns(s[1..])
  }

  /** Without whitespace there is nothing for the replacement to match. */
  lemma {:induction false} DashWhitespaceRunsNoop(s: string)
    requires forall k :: 0 <= k < |s| ==> !IsWhitespace(s[k])
    ensures DashWhitespaceRuns(s) == s
  {
    if s != [] {
      DashWhitespaceRunsNoop(s[1..]);
    }
  }

  /** A whitespace run ending where a non-whitespace character or the string begins is what `TrimStart` drops. */
  lemma {:induction false} TrimStartRun(w: string, v: string)
    requires IsBlank(w)
    requires v == [] || !IsWhitespace(v[0])
    ensures TrimStart(w + v) == v
  {
    if w != [] {
      assert (w + v)[1..] == w[1..] + v;
      TrimStartRun(w[1..], v);
    }
  }

  /**
   * The replacement's rule: after a whitespace-free part `u`, a whole whitespace
   * run `w` (one that `v` does not continue) becomes exactly one dash.
   */
  lemma {:induction false} DashWhitespaceRun(u: string, w: string, v: string)
    requires forall k :: 0 <= k < |u| ==> !IsWhitespace(u[k])
    requires w != [] && IsBlank(w)
    requires v == [] || !IsWhitespace(v[0])
    ensures DashWhitespaceRuns(u + w + v) == u + "-" + DashWhitespaceRuns(v)
  {
    if u == [] {
      assert u + w + v == w + v;
      TrimStartRun(w, v);
    } else {
      assert (u + w + v)[1..] == u[1..] + w + v;
      DashWhitespaceRun(u[1..], w, v);
      assert u == [u[0]] + u[1..];
    }
  }

  /** `s.slice(0, n)` for a non-negative `n`, on strings and on arrays. */
  function Take<T>(s: seq<T>, n: nat): (r: seq<T>)
    ensures |r| == if |s| <= n then |s| else n
    ensures r == s[..|r|]
  {
    if |s| <= n then s else s[..n]
  }

  /**
   * `[...].filter(Boolean)` over string entries. A falsy entry of the source
   * (`undefined` from `x || undefined`, `""` from `x && "..."`) is written "" here.
   */
  function Compact(xs: seq<string>): (r: seq<string>)
    ensures |r| <= |xs|
    ensures forall k :: 0 <= k < |r| ==> r[k] != ""
  {
    if xs == [] then []
    else if xs[0] == "" then Compact(xs[1..])
    else [xs[0]] + Compact(xs[1..])
  }

  /** A list without falsy entries passes the filter unchanged. */
  lemma {:induction false} CompactKeepsNonEmpty(xs: seq<string>)
    requires forall k :: 0 <= k < |xs| ==> xs[k] != ""
    ensures Compact(xs) == xs
  {
    if xs != [] {
      CompactKeepsNonEmpty(xs[1..]);
    }
  }

  /** `filter(Boolean)` one entry at a time. */
  lemma CompactCons(x: string, xs: seq<string>)
    ensures Compact([x] + xs) == (if x == "" then [] else [x]) + Compact(xs)
  {
    assert ([x] + xs)[1..] == xs;
  }

  /** `filter(Boolean)` distributes over concatenation. */
  lemma {:induction false} CompactAppend(xs: seq<string>, ys: seq<string>)
    ensures Compact(xs + ys) == Compact(xs) + Compact(ys)
  {
    if xs == [] {
      assert xs + ys == ys;
    } else {
      var head := if xs[0] == "" then [] else [xs[0]];
      assert xs + ys == [xs[0]] + (xs[1..] + ys);
      CompactCons(xs[0], xs[1..] + ys);
      assert xs == [xs[0]] + xs[1..];
      CompactCons(xs[0], xs[1..]);
      CompactAppend(xs[1..], ys);
      assert head + (Compact(xs[1..]) + Compact(ys)) == (head + Compact(xs[1..])) + Compact(ys);
    }
  }

  /** `filter(Boolean)` on four entries: each is kept exactly when it is not "". */
  lemma CompactFour(a: string, b: string, c: string, d: string)
    ensures Compact([a, b, c, d]) ==
      (if a == "" then [] else [a]) + ((if b == "" then [] else [b])
      + ((if c == "" then [] else [c]) + (if d == "" then [] else [d])))
  {
    assert [a, b, c, d] == [a] + ([b] + ([c] + [d]));
    assert [d] == [d] + [];
    CompactCons(d, []);
    CompactCons(c, [d]);
    CompactCons(b, [c] + [d]);
    CompactCons(a, [b] + ([c] + [d]));
  }

  /** `filter(Boolean)` on three leading entries followed by the rest of a list. */
  lemma CompactThreeBefore(a: string, b: string, c: string, rest: seq<string>)
    ensures Compact([a, b, c] + rest) ==
      (if a == "" then [] else [a]) + ((if b == "" then [] else [b])
      + ((if c == "" then [] else [c]) + Compact(rest)))
  {
    assert [a, b, c] + rest == [a] + ([b] + ([c] + rest));
    CompactCons(c, rest);
    CompactCons(b, [c] + rest);
    CompactCons(a, [b] + ([c] + rest));
  }

  /** The entry kept when a guard holds, and the falsy entry otherwise (`c && s`, `c || undefined`). */
  function When(guard: bool, s: string): string {
    if guard then s else ""
  }

  /** `xs.join(sep)` */
  function Join(xs: seq<string>, sep: string): (r: string)
    ensures xs == [] ==> r == ""
    ensures |xs| == 1 ==> r == xs[0]
  {
    if xs == [] then ""
    else if |xs| == 1 then xs[0]
    else xs[0] + sep + Join(xs[1..], sep)
  }

  /** `join` one element at a time. */
  lemma JoinCons(x: string, xs: seq<string>, sep: string)
    requires xs != []
    ensures Join([x] + xs, sep) == x + sep + Join(xs, sep)
  {
    assert ([x] + xs)[1..] == xs;
  }

  /** `s.split(c)` for a one-character separator. */
  function Split(s: string, c: char): (r: seq<string>)
    ensures |r| >= 1
  {
    if s == [] then [""]
    else
      var rest := Split(s[1..], c);
      if s[0] == c then [""] + rest else [[s[0]] + rest[0]] + rest[1..]
  }

  /** Splitting a piece free of the separator, followed by the separator, yields that piece first. */
  lemma {:induction false} SplitAfterPiece(w: string, c: char, t: string)
    requires c !in w
    ensures Split(w + [c] + t, c) == [w] + Split(t, c)
  {
    if w == [] {
      assert [c] + t == w + [c] + t;
      assert ([c] + t)[1..] == t;
    } else {
      assert (w + [c] + t)[1..] == w[1..] + [c] + t;
      SplitAfterPiece(w[1..], c, t);
      assert [w[0]] + w[1..] == w;
    }
  }

  lemma {:induction false} SplitPiece(w: string, c: char)
    requires c !in w
    ensures Split(w, c) == [w]
  {
    if w != [] {
      SplitPiece(w[1..], c);
      assert [w[0]] + w[1..] == w;
    }
  }

  /** Joining lines with a separator that none contains, then splitting, gives the lines back. */
  lemma {:induction false} SplitJoin(xs: seq<string>, c: char)
    requires xs != []
    requires forall k :: 0 <= k < |xs| ==> c !in xs[k]
    ensures Split(Join(xs, [c]), c) == xs
  {
    if |xs| == 1 {
      SplitPiece(xs[0], c);
    } else {
      SplitJoin(xs[1..], c);
      SplitAfterPiece(xs[0], c, Join(xs[1..], [c]));
      assert [xs[0]] + xs[1..] == xs;
    }
  }

  /** `t` occurs in `s` as a contiguous piece. */
  predicate Contains(s: string, t: string) {
    exists i :: 0 <= i <= |s| && t <= s[i..]
  }

  /** What sits between two pieces is contained in the whole. */
  lemma ContainsMiddle(u: string, t: string, v: string)
    ensures Contains(u + t + v, t)
  {
    assert t <= (u + t + v)[|u|..];
  }

  predicate IsDigit(c: char) {
    '0' <= c <= '9'
  }

  function DigitChar(d: nat): (c: char)
    requires d < 10
    ensures IsDigit(c) && (c as int) - ('0' as int) == d
  {
    (('0' as int) + d) as char
  }

  /** The decimal rendering of an index in a template string: `${i}`. */
  function NatToString(n: nat): (s: string)
    ensures |s| >= 1
    ensures forall k :: 0 <= k < |s| ==> IsDigit(s[k])
    ensures n < 10 <==> |s| == 1
  {
    if n < 10 then [DigitChar(n)] else NatToString(n / 10) + [DigitChar(n % 10)]
  }

  function DigitValue(c: char): (d: nat)
    requires IsDigit(c)
    ensures d < 10
  {
    (c as int) - ('0' as int)
  }

  /** Reads a string of decimal digits back as a number. */
  function ParseDecimal(s: string): nat
    requires forall k :: 0 <= k < |s| ==> IsDigit(s[k])
  {
    if s == [] then 0
    else ParseDecimal(s[..|s| - 1]) * 10 + DigitValue(s[|s| - 1])
  }

  lemma {:induction false} ParseNatToString(n: nat)
    ensures ParseDecimal(NatToString(n)) == n
  {
    var s := NatToString(n);
    if n >= 10 {
      ParseNatToString(n / 10);
      assert s[..|s| - 1] == NatToString(n / 10);
    }
  }

  /** Distinct indices render as distinct strings. */
  lemma NatToStringInjective(m: nat, n: nat)
    requires m != n
    ensures NatToString(m) != NatToString(n)
  {
    ParseNatToString(m);
    ParseNatToString(n);
  }
}
