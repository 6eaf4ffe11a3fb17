/**
 * The few pieces of Python's `str` that the server's formatting code relies on:
 * `isspace`, `strip()`, `split('\n')`, `split()`, `lower()`, the substring test `in`,
 * `sep.join(...)`, slicing and `str(int)`.
 *
 * Strings are sequences of Unicode scalar values.  The whitespace set is Python's
 * (`str.isspace`), so `Strip` and `Words` agree with `str.strip()` and `str.split()`.
 * `Lower` folds ASCII letters only; Python's `str.lower()` also folds other scripts.
 */
module PyText {

  /** Python's `str.isspace()` for a single character. */
  predicate IsSpace(c: char) {
    || ('\t' <= c <= '\r')            // \t \n \v \f \r
    || ('\U{1C}' <= c <= '\U{1F}')    // file, group, record and unit separators
    || c == ' ' || c == '\U{85}' || c == '\U{A0}' || c == '\U{1680}'
    || ('\U{2000}' <= c <= '\U{200A}')
    || c == '\U{2028}' || c == '\U{2029}' || c == '\U{202F}' || c == '\U{205F}' || c == '\U{3000}'
  }

  predicate NoSpace(s: string) {
    forall i :: 0 <= i < |s| ==> !IsSpace(s[i])
  }

  predicate AllSpace(s: string) {
    forall i :: 0 <= i < |s| ==> IsSpace(s[i])
  }

  // ---------------------------------------------------------------- strip

  /** `s.lstrip()`. */
  function TrimStart(s: string): (r: string)
    ensures |r| <= |s|
  {
    if s != [] && IsSpace(s[0]) then TrimStart(s[1..]) else s
  }

  /** `s.rstrip()`. */
  function TrimEnd(s: string): (r: string)
    ensures |r| <= |s|
  {
    if s != [] && IsSpace(s[|s| - 1]) then TrimEnd(s[..|s| - 1]) else s
  }

  /** `TrimStart` removes exactly the leading run of whitespace. */
  lemma {:induction false} TrimStartRemovesLeadingSpace(s: string)
    ensures var r := TrimStart(s);
      r == s[|s| - |r|..] && AllSpace(s[..|s| - |r|]) && (r == [] || !IsSpace(r[0]))
    decreases |s|
  {
    if s != [] && IsSpace(s[0]) {
      TrimStartRemovesLeadingSpace(s[1..]);
      var r := TrimStart(s);
      assert s[1..][..|s| - 1 - |r|] == s[1..|s| - |r|];
    }
  }

  /** `TrimEnd` removes exactly the trailing run of whitespace. */
  lemma {:induction false} TrimEndRemovesTrailingSpace(s: string)
    ensures var r := TrimEnd(s);
      r == s[..|r|] && AllSpace(s[|r|..]) && (r == [] || !IsSpace(r[|r| - 1]))
    decreases |s|
  {
    if s != [] && IsSpace(s[|s| - 1]) {
      TrimEndRemovesTrailingSpace(s[..|s| - 1]);
      var r := TrimEnd(s);
      assert s[..|s| - 1][|r|..] == s[|r|..|s| - 1];
      assert s[|r|..] == s[|r|..|s| - 1] + [s[|s| - 1]];
    }
  }

  /** `s.strip()`. */
  function Strip(s: string): string {
    TrimEnd(TrimStart(s))
  }

  /**
   * `Strip(s)` is the slice of `s` between a run of leading and a run of
   * trailing whitespace, and it neither starts nor ends with whitespace.
   */
  lemma StripIsInnerSlice(s: string)
    ensures exists i, j :: 0 <= i <= j <= |s| && Strip(s) == s[i..j]
                          && AllSpace(s[..i]) && AllSpace(s[j..])
    ensures Strip(s) == [] || (!IsSpace(Strip(s)[0]) && !IsSpace(Strip(s)[|Strip(s)| - 1]))
  {
    var t := TrimStart(s);
    var r := TrimEnd(t);
    TrimStartRemovesLeadingSpace(s);
    TrimEndRemovesTrailingSpace(t);
    var i := |s| - |t|;
    var j := i + |r|;
    assert s[i..j] == t[..|r|];
    assert s[j..] == t[|r|..];
  }

  /** `s.strip()` is empty exactly when `s` is all whitespace (Python's `if line.strip():`). */
  lemma StripEmptyIffAllSpace(s: string)
    ensures Strip(s) == [] <==> AllSpace(s)
  {
    var t := TrimStart(s);
    TrimStartRemovesLeadingSpace(s);
    TrimEndRemovesTrailingSpace(t);
    var lead := s[..|s| - |t|];
    assert s == lead + t;
    if Strip(s) == [] {
      assert t[|TrimEnd(t)|..] == t;
      assert AllSpace(lead) && AllSpace(t);
    }
  }

  // ---------------------------------------------------------------- lower

  function LowerChar(c: char): char {
    if 'A' <= c <= 'Z' then (c as int - 'A' as int + 'a' as int) as char else c
  }

  /** `s.lower()` on ASCII letters: same length, each character folded. */
  function Lower(s: string): (r: string)
    ensures |r| == |s|
  {
    seq(|s|, i requires 0 <= i < |s| => LowerChar(s[i]))
  }

  lemma LowerAppend(a: string, b: string)
    ensures Lower(a + b) == Lower(a) + Lower(b)
  {
  }

  // ---------------------------------------------------------------- substring test

  /** `w` occurs in `s` starting at index `i`. */
  predicate OccursAt(s: string, w: string, i: int) {
    0 <= i && i + |w| <= |s| && s[i..i + |w|] == w
  }

  /** Python's `w in s` for two strings: `w` occurs at some index of `s`. */
  predicate Contains(s: string, w: string) {
    exists i | 0 <= i <= |s| - |w| :: OccursAt(s, w, i)
  }

  /**
   * A prefix none of whose characters can start `w` creates no new occurrence
   * of `w`: prefixing an icon to a line leaves every keyword test unchanged.
   */
  lemma ContainsAfterForeignPrefix(p: string, s: string, w: string)
    requires |w| > 0
    requires forall k :: 0 <= k < |p| ==> p[k] != w[0]
    ensures Contains(p + s, w) == Contains(s, w)
  {
    if Contains(p + s, w) {
      var i :| 0 <= i <= |p + s| - |w| && OccursAt(p + s, w, i);
      assert (p + s)[i..i + |w|][0] == (p + s)[i];
      if i < |p| {
        assert false;
      }
      assert (p + s)[i..i + |w|] == s[i - |p|..i - |p| + |w|];
      assert OccursAt(s, w, i - |p|);
    }
    if Contains(s, w) {
      var j :| 0 <= j <= |s| - |w| && OccursAt(s, w, j);
      assert (p + s)[j + |p|..j + |p| + |w|] == s[j..j + |w|];
      assert OccursAt(p + s, w, j + |p|);
    }
  }

  /** A word that starts with a non-space character never occurs in a blank string, whatever its case. */
  lemma NoWordInBlank(s: string, w: string)
    requires |w| > 0 && !IsSpace(w[0]) && AllSpace(s)
    ensures !Contains(Lower(s), w)
  {
  }

  // ---------------------------------------------------------------- join and split

  /** Python's `sep.join(xs)`. */
  function Join(sep: string, xs: seq<string>): string
    decreases |xs|
  {
    if |xs| == 0 then ""
    else if |xs| == 1 then xs[0]
    else xs[0] + sep + Join(sep, xs[1..])
  }

  lemma JoinGluesHead(sep: string, x: string, xs: seq<string>)
    requires |xs| >= 1
    ensures Join(sep, [x + xs[0]] + xs[1..]) == x + Join(sep, xs)
  {
    var ys := [x + xs[0]] + xs[1..];
    assert ys[1..] == xs[1..];
  }

  lemma JoinAppend(sep: string, xs: seq<string>, ys: seq<string>)
    requires |xs| >= 1 && |ys| >= 1
    ensures Join(sep, xs + ys) == Join(sep, xs) + sep + Join(sep, ys)
    decreases |xs|
  {
    if |xs| == 1 {
      assert (xs + ys)[1..] == ys;
    } else {
      assert (xs + ys)[1..] == xs[1..] + ys;
      JoinAppend(sep, xs[1..], ys);
    }
  }

  /** Python's `s.split(sep)` for a one-character separator: never empty. */
  function Split(s: string, sep: char): (r: seq<string>)
    ensures |r| >= 1
    ensures forall i :: 0 <= i < |r| ==> sep !in r[i]
    decreases |s|
  {
    if |s| == 0 then [""]
    else
      var rest := Split(s[1..], sep);
      if s[0] == sep then [""] + rest
      else [[s[0]] + rest[0]] + rest[1..]
  }

  /** Joining the pieces of a split with the separator restores the string. */
  lemma {:induction false} JoinSplit(s: string, sep: char)
    ensures Join([sep], Split(s, sep)) == s
    decreases |s|
  {
    if |s| > 0 {
      var rest := Split(s[1..], sep);
      JoinSplit(s[1..], sep);
      if s[0] == sep {
        assert ([""] + rest)[1..] == rest;
      } else {
        JoinGluesHead([sep], [s[0]], rest);
      }
    }
  }

  lemma {:induction false} SplitAppend(a: string, sep: char, b: string)
    requires sep !in a
    ensures Split(a + [sep] + b, sep) == [a] + Split(b, sep)
    decreases |a|
  {
    if a == [] {
      assert a + [sep] + b == [sep] + b;
      assert ([sep] + b)[1..] == b;
    } else {
      assert (a + [sep] + b)[1..] == a[1..] + [sep] + b;
      SplitAppend(a[1..], sep, b);
      assert [a[0]] + a[1..] == a;
    }
  }

  lemma {:induction false} SplitNoSeparator(a: string, sep: char)
    requires sep !in a
    ensures Split(a, sep) == [a]
    decreases |a|
  {
    if a != [] {
      SplitNoSeparator(a[1..], sep);
      assert [a[0]] + a[1..] == a;
    }
  }

  /** Splitting a join of separator-free pieces gives the pieces back. */
  lemma {:induction false} SplitJoin(xs: seq<string>, sep: char)
    requires |xs| >= 1
    requires forall i :: 0 <= i < |xs| ==> sep !in xs[i]
    ensures Split(Join([sep], xs), sep) == xs
    decreases |xs|
  {
    if |xs| == 1 {
      SplitNoSeparator(xs[0], sep);
    } else {
      SplitJoin(xs[1..], sep);
      SplitAppend(xs[0], sep, Join([sep], xs[1..]));
      assert [xs[0]] + xs[1..] == xs;
    }
  }

  // ---------------------------------------------------------------- split on whitespace

  /** The number of leading non-whitespace characters of `s`. */
  function WordLength(s: string): (n: nat)
    ensures n <= |s| && NoSpace(s[..n]) && (n < |s| ==> IsSpace(s[n]))
  {
    if s == [] || IsSpace(s[0]) then 0
    else
      var n := 1 + WordLength(s[1..]);
      assert s[..n] == [s[0]] + s[1..][..n - 1];
      n
  }

  /**
   * Python's `s.split()` with no separator: the maximal runs of non-whitespace,
   * in order; no word is empty and no word holds whitespace.
   */
  function Words(s: string): (r: seq<string>)
    ensures forall i :: 0 <= i < |r| ==> r[i] != "" && NoSpace(r[i])
    decreases |s|
  {
    var t := TrimStart(s);
    TrimStartRemovesLeadingSpace(s);
    if t == [] then []
    else
      var n := WordLength(t);
      [t[..n]] + Words(t[n..])
  }

  /**
   * `s` cut at every whitespace character, keeping the empty pieces between
   * adjacent separators: one more piece than `s` has whitespace characters.
   */
  function SplitAtSpace(s: string): (r: seq<string>)
    ensures |r| >= 1
  {
    if s == [] then [""]
    else
      var rest := SplitAtSpace(s[1..]);
      if IsSpace(s[0]) then [""] + rest else [[s[0]] + rest[0]] + rest[1..]
  }

  /** The non-empty strings of `xs`, in order. */
  function DropEmpty(xs: seq<string>): seq<string> {
    if xs == [] then [] else (if xs[0] == "" then [] else [xs[0]]) + DropEmpty(xs[1..])
  }

  /** A whitespace-free head extends the first piece and leaves the others alone. */
  lemma {:induction false} SplitAtSpaceAfterWord(w: string, t: string)
    requires NoSpace(w)
    ensures var p := SplitAtSpace(t);
      SplitAtSpace(w + t) == [w + p[0]] + p[1..]
    decreases |w|
  {
    var p := SplitAtSpace(t);
    if w == [] {
      assert w + t == t && w + p[0] == p[0];
      assert [p[0]] + p[1..] == p;
    } else {
      assert NoSpace(w[1..]);
      assert (w + t)[1..] == w[1..] + t;
      SplitAtSpaceAfterWord(w[1..], t);
      assert [w[0]] + (w[1..] + p[0]) == w + p[0];
    }
  }

  /**
   * `Words` is Python's `str.split()`: cutting at every whitespace character
   * and dropping the empty pieces gives exactly the words, so each word is a
   * maximal run of non-whitespace.
   */
  lemma {:induction false} WordsAreSplitAtSpace(s: string)
    ensures Words(s) == DropEmpty(SplitAtSpace(s))
    decreases |s|
  {
    if s == [] {
    } else if IsSpace(s[0]) {
      WordsAreSplitAtSpace(s[1..]);
      var rest := SplitAtSpace(s[1..]);
      assert ([""] + rest)[1..] == rest;
    } else {
      var n := WordLength(s);
      assert Words(s) == [s[..n]] + Words(s[n..]);
      var t := s[n..];
      var p := SplitAtSpace(t);
      assert p[0] == "";
      assert s == s[..n] + t;
      SplitAtSpaceAfterWord(s[..n], t);
      assert s[..n] + p[0] == s[..n];
      assert SplitAtSpace(s) == [s[..n]] + p[1..];
      assert ([s[..n]] + p[1..])[1..] == p[1..];
      assert [""] + p[1..] == p;
      assert ([""] + p[1..])[1..] == p[1..];
      WordsAreSplitAtSpace(t);
    }
  }

  /** A whitespace-free head followed by whitespace, or by nothing, is the first word's whole length. */
  lemma {:induction false} WordLengthOfWord(x: string, t: string)
    requires NoSpace(x) && (t == [] || IsSpace(t[0]))
    ensures WordLength(x + t) == |x|
    decreases |x|
  {
    if x != [] {
      assert NoSpace(x[1..]) && (x + t)[1..] == x[1..] + t;
      WordLengthOfWord(x[1..], t);
    } else {
      assert x + t == t;
    }
  }

  /** Words joined by single spaces split back into the same words. */
  lemma {:induction false} WordsOfJoin(xs: seq<string>)
    requires forall i :: 0 <= i < |xs| ==> xs[i] != "" && NoSpace(xs[i])
    ensures Words(Join(" ", xs)) == xs
    decreases |xs|
  {
    if |xs| == 1 {
      var x := xs[0];
      assert x + "" == x;
      WordLengthOfWord(x, "");
      assert x[..|x|] == x && x[|x|..] == "";
    } else if |xs| > 1 {
      var x, rest := xs[0], Join(" ", xs[1..]);
      var s := x + " " + rest;
      assert s == x + (" " + rest);
      WordLengthOfWord(x, " " + rest);
      assert s[..|x|] == x && s[|x|..] == " " + rest;
      assert TrimStart(s) == s;
      assert TrimStart(" " + rest) == TrimStart(rest) by {
        assert (" " + rest)[1..] == rest;
      }
      WordsOfJoin(xs[1..]);
      assert [x] + xs[1..] == xs;
    }
  }

  function Concat(xs: seq<string>): string {
    if xs == [] then "" else xs[0] + Concat(xs[1..])
  }

  /** Each string behind the same prefix, in order: the bullet lists of the reports. */
  function Prefixed(p: string, xs: seq<string>): (r: seq<string>)
    ensures |r| == |xs| && forall i :: 0 <= i < |xs| ==> r[i] == p + xs[i]
  {
    if xs == [] then [] else [p + xs[0]] + Prefixed(p, xs[1..])
  }

  /** `s` with all of its whitespace removed. */
  function WithoutSpaces(s: string): string {
    if s == [] then "" else (if IsSpace(s[0]) then "" else [s[0]]) + WithoutSpaces(s[1..])
  }

  lemma {:induction false} WithoutSpacesAppend(a: string, b: string)
    ensures WithoutSpaces(a + b) == WithoutSpaces(a) + WithoutSpaces(b)
    decreases |a|
  {
    if a != [] {
      assert (a + b)[1..] == a[1..] + b;
      WithoutSpacesAppend(a[1..], b);
    } else {
      assert a + b == b;
    }
  }

  lemma {:induction false} WithoutSpacesOf(s: string)
    ensures AllSpace(s) ==> WithoutSpaces(s) == ""
    ensures NoSpace(s) ==> WithoutSpaces(s) == s
    decreases |s|
  {
    if s != [] {
      WithoutSpacesOf(s[1..]);
      if AllSpace(s) { assert AllSpace(s[1..]); }
      if NoSpace(s) { assert NoSpace(s[1..]); }
    }
  }

  /** The words of `s` hold exactly the non-whitespace characters of `s`, in order. */
  lemma {:induction false} WordsKeepEveryNonSpace(s: string)
    ensures Concat(Words(s)) == WithoutSpaces(s)
    decreases |s|
  {
    var t := TrimStart(s);
    TrimStartRemovesLeadingSpace(s);
    var lead := s[..|s| - |t|];
    assert s == lead + t;
    WithoutSpacesAppend(lead, t);
    WithoutSpacesOf(lead);
    if t != [] {
      var n := WordLength(t);
      assert t == t[..n] + t[n..];
      WithoutSpacesAppend(t[..n], t[n..]);
      WithoutSpacesOf(t[..n]);
      WordsKeepEveryNonSpace(t[n..]);
      assert ([t[..n]] + Words(t[n..]))[1..] == Words(t[n..]);
    } else {
      assert WithoutSpaces(t) == "";
    }
  }

  // ---------------------------------------------------------------- slicing

  /** Python's `s[:n]` for `n >= 0`: the first `n` characters, or all of `s`. */
  function Take(s: string, n: nat): string {
    if n < |s| then s[..n] else s
  }

  /** Python's `c * n` for a one-character string `c`. */
  function Repeat(c: char, n: nat): string {
    seq(n, _ => c)
  }

  /** Python's `s.replace(old, new)` for single characters. */
  function ReplaceChar(s: string, from: char, to: char): (r: string)
    ensures |r| == |s|
    ensures forall i :: 0 <= i < |s| ==> r[i] == (if s[i] == from then to else s[i])
  {
    if s == [] then ""
    else [if s[0] == from then to else s[0]] + ReplaceChar(s[1..], from, to)
  }

  // ---------------------------------------------------------------- str(int)

  predicate IsDigit(c: char) { '0' <= c <= '9' }

  function DigitChar(d: nat): (c: char)
    requires d < 10
    ensures IsDigit(c)
  {
    "0123456789"[d]
  }

  function DigitValue(c: char): nat
    requires IsDigit(c)
  {
    c as int - '0' as int
  }

  /** Python's `str(n)` for a non-negative integer: decimal digits, no leading zero. */
  function NatToString(n: nat): (r: string)
    ensures |r| >= 1 && forall i :: 0 <= i < |r| ==> IsDigit(r[i])
    ensures r[0] == '0' ==> n == 0
    decreases n
  {
    if n < 10 then [DigitChar(n)] else NatToString(n / 10) + [DigitChar(n % 10)]
  }

  /** Python's `str(i)` for any integer. */
  function IntToString(i: int): string {
    if i < 0 then "-" + NatToString(-i) else NatToString(i)
  }

  /** Reads a string of decimal digits as a number. */
  function ParseNat(s: string): nat
    requires forall i :: 0 <= i < |s| ==> IsDigit(s[i])
  {
    if s == [] then 0 else ParseNat(s[..|s| - 1]) * 10 + DigitValue(s[|s| - 1])
  }

  /** Reads what `IntToString` writes. */
  function ParseInt(s: string): int
    requires IsIntText(s)
  {
    if s[0] == '-' then -(ParseNat(s[1..]) as int) else ParseNat(s)
  }

  lemma {:induction false} ParseNatToString(n: nat)
    ensures ParseNat(NatToString(n)) == n
    decreases n
  {
    var s := NatToString(n);
    if n >= 10 {
      ParseNatToString(n / 10);
      assert s[..|s| - 1] == NatToString(n / 10);
      assert DigitValue(DigitChar(n % 10)) == n % 10;
    } else {
      assert DigitValue(DigitChar(n)) == n;
    }
  }

  predicate IsIntText(s: string) {
    |s| >= 1 && (s[0] == '-' || IsDigit(s[0])) && forall i :: 1 <= i < |s| ==> IsDigit(s[i])
  }

  /** Two texts with the same surroundings are equal when the whole texts are. */
  lemma MiddleDetermined(p: string, x: string, y: string, q: string)
    requires p + x + q == p + y + q
    ensures x == y
  {
    assert |x| == |y|;
    assert (p + x + q)[|p|..|p| + |x|] == x;
    assert (p + y + q)[|p|..|p| + |y|] == y;
  }

  /** `str(i)` loses nothing: reading it back gives `i`, so distinct integers print differently. */
  lemma IntToStringRoundTrip(i: int)
    ensures IsIntText(IntToString(i)) && ParseInt(IntToString(i)) == i
  {
    if i < 0 {
      NegativeRoundTrip(-i);
      assert IntToString(i) == "-" + NatToString(-i);
    } else {
      var d := NatToString(i);
      ParseNatToString(i);
      assert IsDigit(d[0]);
      assert IntToString(i) == d;
    }
  }

  lemma NegativeRoundTrip(n: nat)
    ensures IsIntText("-" + NatToString(n)) && ParseInt("-" + NatToString(n)) == -(n as int)
  {
    var d := NatToString(n);
    var t := "-" + d;
    forall k | 1 <= k < |t| ensures IsDigit(t[k]) {
      assert t[k] == d[k - 1];
    }
    assert t[1..] == d;
    ParseNatToString(n);
  }
}
