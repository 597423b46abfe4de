/** The string operations of JavaScript that the handlers use, defined on `seq<char>`
    (one `char` per Unicode code point). */
module Text {
  import opened Wrappers

  /** ECMAScript WhiteSpace and LineTerminator code points: what `trim` removes,
      what `parseInt` skips and what the regular-expression class `\s` matches. */
  predicate IsSpace(c: char) {
    || c == ' ' || c == '\t' || c == '\n' || c == '\r' || c == '\U{000B}' || c == '\U{000C}'
    || c == '\U{00A0}' || c == '\U{1680}' || ('\U{2000}' <= c <= '\U{200A}')
    || c == '\U{2028}' || c == '\U{2029}' || c == '\U{202F}' || c == '\U{205F}'
    || c == '\U{3000}' || c == '\U{FEFF}'
  }

  /** JavaScript truthiness of a possibly missing string: present and non-empty. */
  predicate Truthy(s: Option<string>) {
    s.Some? && s.value != ""
  }

  /** `a || b` on possibly missing strings. */
  function OrElse(a: Option<string>, b: Option<string>): Option<string> {
    if Truthy(a) then a else b
  }

  /** `a || d` where the fallback `d` is a string literal. */
  function OrDefault(a: Option<string>, d: string): string {
    if Truthy(a) then a.value else d
  }

  // ---------------------------------------------------------------------------
  // trim

  function TrimStart(s: string): (r: string)
    ensures |r| <= |s| && r == s[|s| - |r|..]
    ensures r == [] || !IsSpace(r[0])
    ensures forall i :: 0 <= i < |s| - |r| ==> IsSpace(s[i])
  {
    if |s| > 0 && IsSpace(s[0]) then TrimStart(s[1..]) else s
  }

  function TrimEnd(s: string): (r: string)
    ensures |r| <= |s| && r == s[..|r|]
    ensures r == [] || !IsSpace(r[|r| - 1])
    ensures forall i :: |r| <= i < |s| ==> IsSpace(s[i])
  {
    if |s| > 0 && IsSpace(s[|s| - 1]) then TrimEnd(s[..|s| - 1]) else s
  }

  /** `s.trim()`. */
  function Trim(s: string): string {
    TrimEnd(TrimStart(s))
  }

  /** A string that `trim` leaves alone: it neither starts nor ends with white space. */
  predicate IsTrimmed(s: string) {
    s == [] || (!IsSpace(s[0]) && !IsSpace(s[|s| - 1]))
  }

  lemma {:induction false} TrimStartSpaces(w: string, t: string)
    requires forall i :: 0 <= i < |w| ==> IsSpace(w[i])
    requires t == [] || !IsSpace(t[0])
    ensures TrimStart(w + t) == t
    decreases |w|
  {
    if w != [] {
      assert (w + t)[1..] == w[1..] + t;
      TrimStartSpaces(w[1..], t);
    } else {
      assert w + t == t;
    }
  }

  lemma TrimEndUnchanged(t: string)
    requires t == [] || !IsSpace(t[|t| - 1])
    ensures TrimEnd(t) == t
  {
  }

  /** Trimming removes exactly the leading white space `w` from `w + t` when `t` is trimmed. */
  lemma TrimAfterSpaces(w: string, t: string)
    requires forall i :: 0 <= i < |w| ==> IsSpace(w[i])
    requires IsTrimmed(t)
    ensures Trim(w + t) == t
  {
    TrimStartSpaces(w, t);
  }

  // ---------------------------------------------------------------------------
  // split and join

  /** `s.split(d)` for a one-character separator: never empty, one piece more than
      there are separators. */
  function Split(s: string, d: char): (r: seq<string>)
    ensures |r| >= 1
    ensures forall k :: 0 <= k < |r| ==> d !in r[k]
    decreases |s|
  {
    if s == [] then [""]
    else
      var rest := Split(s[1..], d);
      if s[0] == d then [""] + rest else [[s[0]] + rest[0]] + rest[1..]
  }

  /** `xs.join(sep)`. */
  function Join(xs: seq<string>, sep: string): string
    decreases |xs|
  {
    if |xs| == 0 then "" else if |xs| == 1 then xs[0] else xs[0] + sep + Join(xs[1..], sep)
  }

  /** `xs.reverse()`. */
  function Reverse<T>(xs: seq<T>): (r: seq<T>)
    ensures |r| == |xs|
    ensures forall i :: 0 <= i < |xs| ==> r[i] == xs[|xs| - 1 - i]
    decreases |xs|
  {
    if xs == [] then [] else Reverse(xs[1..]) + [xs[0]]
  }

  /** The last element of a non-empty sequence (`xs.pop()` on the result of a split). */
  function Last<T>(xs: seq<T>): T
    requires |xs| > 0
  {
    xs[|xs| - 1]
  }

  lemma {:induction false} SplitNoSeparator(x: string, d: char)
    requires d !in x
    ensures Split(x, d) == [x]
    decreases |x|
  {
    if x != [] {
      SplitNoSeparator(x[1..], d);
      assert [x[0]] + x[1..] == x;
    }
  }

  lemma {:induction false} SplitAfterPiece(x: string, d: char, s: string)
    requires d !in x
    ensures Split(x + [d] + s, d) == [x] + Split(s, d)
    decreases |x|
  {
    var t := x + [d] + s;
    if x == [] {
      assert t == [d] + s;
      assert t[1..] == s;
    } else {
      assert t[1..] == x[1..] + [d] + s;
      SplitAfterPiece(x[1..], d, s);
      assert [x[0]] + x[1..] == x;
    }
  }

  /** A separator followed by a separator-free text ends the split with that text. */
  lemma {:induction false} SplitAppendPiece(s: string, d: char, t: string)
    requires d !in t
    ensures Split(s + [d] + t, d) == Split(s, d) + [t]
    decreases |s|
  {
    var x := s + [d] + t;
    if s == [] {
      assert x == [d] + t;
      assert x[1..] == t;
      SplitNoSeparator(t, d);
    } else {
      assert x[0] == s[0];
      assert x[1..] == s[1..] + [d] + t;
      SplitAppendPiece(s[1..], d, t);
    }
  }

  /** The last piece of a path-like text whose last separator comes right before `t`. */
  lemma LastPieceAfter(s: string, d: char, t: string)
    requires d !in t
    ensures Last(Split(s + [d] + t, d)) == t
  {
    SplitAppendPiece(s, d, t);
  }

  /** Splitting a join on the same separator gives the pieces back, provided no piece
      contains the separator. */
  lemma {:induction false} SplitJoin(xs: seq<string>, d: char)
    requires |xs| >= 1
    requires forall k :: 0 <= k < |xs| ==> d !in xs[k]
    ensures Split(Join(xs, [d]), d) == xs
    decreases |xs|
  {
    if |xs| == 1 {
      SplitNoSeparator(xs[0], d);
    } else {
      SplitJoin(xs[1..], d);
      SplitAfterPiece(xs[0], d, Join(xs[1..], [d]));
      assert [xs[0]] + xs[1..] == xs;
    }
  }

  lemma JoinCons(a: char, x: string, xs: seq<string>, sep: string)
    ensures Join([[a] + x] + xs, sep) == [a] + Join([x] + xs, sep)
  {
    if |xs| == 0 {
    } else {
      assert ([[a] + x] + xs)[1..] == xs;
      assert ([x] + xs)[1..] == xs;
    }
  }

  // ---------------------------------------------------------------------------
  // replacing characters

  /** `s.replace(/c/g, w)` for a single character `c`. */
  function ReplaceChar(s: string, c: char, w: string): (r: string)
    ensures c !in w ==> c !in r
    decreases |s|
  {
    if s == [] then "" else (if s[0] == c then w else [s[0]]) + ReplaceChar(s[1..], c, w)
  }

  /** The global replace works piece by piece. */
  lemma {:induction false} ReplaceCharAppend(a: string, b: string, c: char, w: string)
    ensures ReplaceChar(a + b, c, w) == ReplaceChar(a, c, w) + ReplaceChar(b, c, w)
    decreases |a|
  {
    if a == [] {
      assert a + b == b;
    } else {
      assert (a + b)[0] == a[0];
      assert (a + b)[1..] == a[1..] + b;
      ReplaceCharAppend(a[1..], b, c, w);
    }
  }

  /** Number of occurrences of `c` in `s`. */
  function CountChar(s: string, c: char): nat
    decreases |s|
  {
    if s == [] then 0 else (if s[0] == c then 1 else 0) + CountChar(s[1..], c)
  }

  /** Replacing every `c` by `w` adds `|w| - 1` characters per occurrence of `c`. */
  lemma {:induction false} ReplaceCharLength(s: string, c: char, w: string)
    ensures |ReplaceChar(s, c, w)| == |s| + CountChar(s, c) * (|w| - 1)
    decreases |s|
  {
    if s != [] {
      ReplaceCharLength(s[1..], c, w);
    }
  }

  /** Replacing every `c` by `w` is the same as splitting at `c` and joining with `w`:
      an independent reference definition of the global replace. */
  lemma {:induction false} ReplaceCharIsSplitJoin(s: string, c: char, w: string)
    ensures ReplaceChar(s, c, w) == Join(Split(s, c), w)
    decreases |s|
  {
    if s != [] {
      var rest := Split(s[1..], c);
      ReplaceCharIsSplitJoin(s[1..], c, w);
      if s[0] == c {
        assert ([""] + rest)[1..] == rest;
      } else {
        JoinCons(s[0], rest[0], rest[1..], w);
        assert [rest[0]] + rest[1..] == rest;
      }
    }
  }

  /** `s.replace(pat, w)` with a string pattern: only the FIRST occurrence is replaced. */
  function ReplaceFirst(s: string, pat: string, w: string): string
    decreases |s|
  {
    if pat <= s then w + s[|pat|..]
    else if s == [] then s
    else [s[0]] + ReplaceFirst(s[1..], pat, w)
  }

  /** A string that starts with the pattern loses exactly that prefix. */
  lemma ReplaceFirstPrefix(pat: string, t: string, w: string)
    ensures ReplaceFirst(pat + t, pat, w) == w + t
  {
    assert pat <= pat + t;
    assert (pat + t)[|pat|..] == t;
  }

  /** Replacing `c` keeps out any character that neither `s` nor `w` contains. */
  lemma {:induction false} ReplaceCharNotIn(s: string, c: char, w: string, x: char)
    requires x !in s && x !in w
    ensures x !in ReplaceChar(s, c, w)
    decreases |s|
  {
    if s != [] {
      assert s[0] != x;
      ReplaceCharNotIn(s[1..], c, w, x);
    }
  }

  // ---------------------------------------------------------------------------
  // searching and case

  /** `hay.includes(needle)`. */
  predicate Contains(hay: string, needle: string)
    decreases |hay|
  {
    needle <= hay || (hay != [] && Contains(hay[1..], needle))
  }

  lemma {:induction false} ContainsAt(hay: string, needle: string, i: nat)
    requires i + |needle| <= |hay| && hay[i..i + |needle|] == needle
    ensures Contains(hay, needle)
    decreases i
  {
    if i > 0 {
      assert hay[1..][i - 1..i - 1 + |needle|] == hay[i..i + |needle|];
      ContainsAt(hay[1..], needle, i - 1);
    }
  }

  function LowerChar(c: char): char {
    if 'A' <= c <= 'Z' then (c as int + 32) as char else c
  }

  /** ASCII lower-casing. */
  function Lower(s: string): (r: string)
    ensures |r| == |s|
    ensures forall i :: 0 <= i < |s| ==> r[i] == LowerChar(s[i])
  {
    seq(|s|, i requires 0 <= i < |s| => LowerChar(s[i]))
  }

  /** The first `n` characters, or all of them: `s.substring(0, n)`. */
  function Prefix(s: string, n: nat): (r: string)
    ensures |r| == if n < |s| then n else |s|
    ensures r <= s
  {
    if n < |s| then s[..n] else s
  }

  // ---------------------------------------------------------------------------
  // numbers

  function DigitChar(d: nat): char
    requires d < 10
  {
    "0123456789"[d]
  }

  /** The decimal rendering of a natural number, as a template literal prints it. */
  function NatToString(n: nat): (r: string)
    ensures |r| >= 1
    ensures forall i :: 0 <= i < |r| ==> '0' <= r[i] <= '9'
    decreases n
  {
    if n < 10 then [DigitChar(n)] else NatToString(n / 10) + [DigitChar(n % 10)]
  }

  /** The value of an alphanumeric digit in bases up to 36; 36 for any other character. */
  function DigitValue(c: char): nat {
    if '0' <= c <= '9' then c as int - '0' as int
    else if 'a' <= c <= 'z' then c as int - 'a' as int + 10
    else if 'A' <= c <= 'Z' then c as int - 'A' as int + 10
    else 36
  }

  /** Length of the longest prefix of `s` made of digits of base `radix`. */
  function DigitRun(s: string, radix: nat): (r: nat)
    ensures r <= |s|
    ensures forall i :: 0 <= i < r ==> DigitValue(s[i]) < radix
    ensures r < |s| ==> DigitValue(s[r]) >= radix
    decreases |s|
  {
    if |s| > 0 && DigitValue(s[0]) < radix then 1 + DigitRun(s[1..], radix) else 0
  }

  /** The number a digit string denotes in base `radix`. */
  function ValueOf(ds: string, radix: nat): nat
    decreases |ds|
  {
    if ds == [] then 0 else ValueOf(ds[..|ds| - 1], radix) * radix + DigitValue(ds[|ds| - 1])
  }

  /** `parseInt(s)` without a radix argument: leading white space is skipped, one sign is
      read, a `0x`/`0X` prefix selects base 16, and the longest run of digits that follows
      is read; `None` stands for `NaN` (no digit at all). */
  function ParseInt(s: string): Option<int> {
    var t := TrimStart(s);
    if |t| > 0 && t[0] == '-' then
      var v := ParseUnsigned(t[1..]);
      if v.Some? then Some(-v.value) else None
    else if |t| > 0 && t[0] == '+' then ParseUnsigned(t[1..])
    else ParseUnsigned(t)
  }

  /** The digits after the sign: hexadecimal after `0x`/`0X`, decimal otherwise. */
  function ParseUnsigned(u: string): Option<int> {
    var hex := |u| >= 2 && u[0] == '0' && (u[1] == 'x' || u[1] == 'X');
    var radix := if hex then 16 else 10;
    var v := if hex then u[2..] else u;
    var k := DigitRun(v, radix);
    if k == 0 then None else Some(ValueOf(v[..k], radix))
  }

  lemma {:induction false} DigitRunAll(r: string)
    requires forall i :: 0 <= i < |r| ==> '0' <= r[i] <= '9'
    ensures DigitRun(r, 10) == |r|
    decreases |r|
  {
    if r != [] {
      DigitRunAll(r[1..]);
    }
  }

  /** A run of decimal digits followed by a non-digit is read up to the non-digit. */
  lemma {:induction false} DigitRunThen(r: string, t: string)
    requires forall i :: 0 <= i < |r| ==> '0' <= r[i] <= '9'
    requires t == [] || DigitValue(t[0]) >= 10
    ensures DigitRun(r + t, 10) == |r|
    decreases |r|
  {
    if r == [] {
      assert r + t == t;
    } else {
      assert (r + t)[1..] == r[1..] + t;
      DigitRunThen(r[1..], t);
    }
  }

  lemma DigitValueOfChar(d: nat)
    requires d < 10
    ensures DigitValue(DigitChar(d)) == d
  {
    assert "0123456789"[d] as int == '0' as int + d by {
      if d == 0 {} else if d == 1 {} else if d == 2 {} else if d == 3 {} else if d == 4 {}
      else if d == 5 {} else if d == 6 {} else if d == 7 {} else if d == 8 {} else {}
    }
  }

  lemma ValueOfSnoc(ds: string, c: char)
    ensures ValueOf(ds + [c], 10) == ValueOf(ds, 10) * 10 + DigitValue(c)
  {
    assert (ds + [c])[..|ds|] == ds;
  }

  lemma {:induction false} ValueOfNatToString(n: nat)
    ensures ValueOf(NatToString(n), 10) == n
    decreases n
  {
    if n < 10 {
      DigitValueOfChar(n);
      ValueOfSnoc([], DigitChar(n));
      assert [] + [DigitChar(n)] == NatToString(n);
    } else {
      ValueOfNatToString(n / 10);
      DigitValueOfChar(n % 10);
      ValueOfSnoc(NatToString(n / 10), DigitChar(n % 10));
    }
  }

  lemma ParseUnsignedNatToString(n: nat)
    ensures ParseUnsigned(NatToString(n)) == Some(n)
  {
    var r := NatToString(n);
    assert !(|r| >= 2 && (r[1] == 'x' || r[1] == 'X'));
    DigitRunAll(r);
    assert r[..|r|] == r;
    ValueOfNatToString(n);
  }

  /** `parseInt` reads back what `NatToString` writes. */
  lemma ParseIntNatToString(n: nat)
    ensures ParseInt(NatToString(n)) == Some(n)
  {
    var r := NatToString(n);
    assert !IsSpace(r[0]);
    assert TrimStart(r) == r;
    assert r[0] != '-' && r[0] != '+';
    ParseUnsignedNatToString(n);
  }

  /** `parseInt` reads a minus sign in front of a decimal number as its negation. */
  lemma ParseIntNegative(n: nat)
    ensures ParseInt("-" + NatToString(n)) == Some(-(n as int))
  {
    var r := NatToString(n);
    var t := "-" + r;
    assert t[0] == '-' && !IsSpace(t[0]);
    assert TrimStart(t) == t;
    assert t[1..] == r;
    ParseUnsignedNatToString(n);
  }
}
