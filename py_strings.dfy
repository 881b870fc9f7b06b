/** The Python `str` operations the modelled code relies on: `isspace`,
    `strip`, `split()`, `lower`, the substring test `in`, `join` and `str(int)`. */
module PyStrings {

  /** `str.isspace()` for one character. The same set is used by `split()`,
      `strip()` and the regular-expression class `\s`. */
  const Whitespace: set<char> := {' ', '\t', '\n', '\r', '\U{B}', '\U{C}', '\U{1C}', '\U{1D}', '\U{1E}', '\U{1F}', '\U{85}', '\U{A0}', '\U{1680}', '\U{2000}', '\U{2001}', '\U{2002}', '\U{2003}', '\U{2004}', '\U{2005}', '\U{2006}', '\U{2007}', '\U{2008}', '\U{2009}', '\U{200A}', '\U{2028}', '\U{2029}', '\U{202F}', '\U{205F}', '\U{3000}'}

  predicate IsSpace(c: char) {
    c in Whitespace
  }

  /** Every character is whitespace (Python: `not s.strip()`). */
  predicate Blank(s: string) {
    forall k :: 0 <= k < |s| ==> IsSpace(s[k])
  }

  /** No character is whitespace. */
  predicate NoSpace(s: string) {
    forall k :: 0 <= k < |s| ==> !IsSpace(s[k])
  }

  /** Neither end of `s` is whitespace: what `strip()` produces. */
  predicate IsStripped(s: string) {
    s == "" || (!IsSpace(s[0]) && !IsSpace(s[|s| - 1]))
  }

  /** `s.lstrip()`: drops leading whitespace. */
  function LStrip(s: string): (r: string)
    ensures |r| <= |s|
  {
    if s != "" && IsSpace(s[0]) then LStrip(s[1..]) else s
  }

  /** `s.lstrip()` is the suffix of `s` after a blank prefix, and starts with a
      non-whitespace character. */
  lemma {:induction false} LStripShape(s: string)
    ensures LStrip(s) == s[|s| - |LStrip(s)|..]
    ensures Blank(s[..|s| - |LStrip(s)|])
    ensures LStrip(s) != "" ==> !IsSpace(LStrip(s)[0])
    decreases |s|
  {
    if s != "" && IsSpace(s[0]) {
      LStripShape(s[1..]);
      var r := LStrip(s[1..]);
      assert s[..|s| - |r|] == [s[0]] + s[1..][..|s| - 1 - |r|];
    }
  }

  /** `s.rstrip()`: drops trailing whitespace. */
  function RStrip(s: string): (r: string)
    ensures |r| <= |s|
  {
    if s != "" && IsSpace(s[|s| - 1]) then RStrip(s[..|s| - 1]) else s
  }

  /** `s.rstrip()` is the prefix of `s` before a blank suffix, and ends with a
      non-whitespace character. */
  lemma {:induction false} RStripShape(s: string)
    ensures RStrip(s) == s[..|RStrip(s)|]
    ensures Blank(s[|RStrip(s)|..])
    ensures RStrip(s) != "" ==> !IsSpace(RStrip(s)[|RStrip(s)| - 1])
    decreases |s|
  {
    if s != "" && IsSpace(s[|s| - 1]) {
      RStripShape(s[..|s| - 1]);
      var r := RStrip(s[..|s| - 1]);
      assert s[|r|..] == s[..|s| - 1][|r|..] + [s[|s| - 1]];
    }
  }

  /** `s.strip()`. */
  function Strip(s: string): (r: string)
    ensures |r| <= |s|
  {
    RStrip(LStrip(s))
  }

  /** `s.strip()` is a slice of `s` with no whitespace at either end, and it is empty
      exactly when `s` is blank. */
  lemma StripShape(s: string) returns (a: nat)
    ensures a + |Strip(s)| <= |s| && Strip(s) == s[a..a + |Strip(s)|]
    ensures IsStripped(Strip(s))
    ensures Strip(s) == "" <==> Blank(s)
  {
    var l := LStrip(s);
    var r := RStrip(l);
    LStripShape(s);
    RStripShape(l);
    a := |s| - |l|;
    assert s == s[..a] + l;
    if r == "" {
      assert l == l[|r|..];
    } else {
      assert r[0] == l[0];
      assert !IsSpace(s[a]);
    }
  }

  lemma {:induction false} LStripOfStripped(s: string)
    requires IsStripped(s)
    ensures LStrip(s) == s
  {
  }

  lemma {:induction false} RStripOfStripped(s: string)
    requires IsStripped(s)
    ensures RStrip(s) == s
  {
  }

  /** Stripping is idempotent: the text of a chunk is already stripped. */
  lemma StripIdempotent(s: string)
    ensures Strip(Strip(s)) == Strip(s)
  {
    var _ := StripShape(s);
    var r := Strip(s);
    LStripOfStripped(r);
    RStripOfStripped(r);
  }

  /** Whitespace appended to a stripped string is stripped off again. */
  lemma {:induction false} RStripAppendBlank(x: string, t: string)
    requires IsStripped(x) && Blank(t)
    ensures RStrip(x + t) == RStrip(x)
    decreases |t|
  {
    if t != "" {
      assert (x + t)[..|x + t| - 1] == x + t[..|t| - 1];
      RStripAppendBlank(x, t[..|t| - 1]);
    } else {
      assert x + t == x;
    }
  }

  /** `(x + t).strip() == x` when `x` is stripped and `t` is whitespace. */
  lemma StripAppendBlank(x: string, t: string)
    requires IsStripped(x) && Blank(t)
    ensures Strip(x + t) == x
  {
    if x == "" {
      assert x + t == t;
      var _ := StripShape(t);
    } else {
      assert (x + t)[0] == x[0];
      assert LStrip(x + t) == x + t;
      RStripAppendBlank(x, t);
      RStripOfStripped(x);
    }
  }

  /** The longest prefix of `s` containing no whitespace. */
  function NonSpacePrefix(s: string): (w: string)
    ensures |w| <= |s| && w == s[..|w|] && NoSpace(w)
    ensures |w| < |s| ==> IsSpace(s[|w|])
  {
    if s != "" && !IsSpace(s[0]) then [s[0]] + NonSpacePrefix(s[1..]) else ""
  }

  /** `s.split()`: the maximal runs of non-whitespace characters, in order. */
  function Split(s: string): (words: seq<string>)
    decreases |s|
  {
    var t := LStrip(s);
    if t == "" then []
    else
      var w := NonSpacePrefix(t);
      LStripShape(s);
      assert w != "" by { assert !IsSpace(t[0]); }
      [w] + Split(t[|w|..])
  }

  /** `s.split()` is empty exactly when `s` is blank, and each of its elements is a
      non-empty word without whitespace. */
  lemma {:induction false} SplitShape(s: string)
    ensures Split(s) == [] <==> Blank(s)
    ensures AllWords(Split(s))
    decreases |s|
  {
    var t := LStrip(s);
    LStripShape(s);
    if t == "" {
      assert s == s[..|s| - |t|];
    } else {
      var w := NonSpacePrefix(t);
      assert !Blank(s) by { assert s[|s| - |t|] == t[0]; }
      assert w != "" by { assert !IsSpace(t[0]); }
      SplitShape(t[|w|..]);
      ConsWords(w, Split(t[|w|..]));
    }
  }

  /** Each element is a non-empty run of non-whitespace characters. */
  predicate AllWords(words: seq<string>) {
    forall k :: 0 <= k < |words| ==> words[k] != "" && NoSpace(words[k])
  }

  lemma ConsWords(w: string, rest: seq<string>)
    requires w != "" && NoSpace(w) && AllWords(rest)
    ensures AllWords([w] + rest)
  {
    forall k | 0 <= k < |[w] + rest|
      ensures ([w] + rest)[k] != "" && NoSpace(([w] + rest)[k])
    {
      if k > 0 {
        assert ([w] + rest)[k] == rest[k - 1];
      }
    }
  }

  /** ASCII upper-case letters map to lower case; every other character is kept. */
  function LowerChar(c: char): char {
    if 'A' <= c <= 'Z' then (c as int + 32) as char else c
  }

  /** `s.lower()`, restricted to ASCII letters. */
  function Lower(s: string): (r: string)
    ensures |r| == |s|
    ensures forall k :: 0 <= k < |r| ==> !('A' <= r[k] <= 'Z')
  {
    seq(|s|, k requires 0 <= k < |s| => LowerChar(s[k]))
  }

  lemma LowerIdempotent(s: string)
    ensures Lower(Lower(s)) == Lower(s)
  {
  }

  /** `p` occurs in `s` starting at index `i`. */
  predicate OccursAt(s: string, p: string, i: int) {
    0 <= i && i + |p| <= |s| && s[i..i + |p|] == p
  }

  /** Python's `p in s`: `p` is a substring of `s` (the empty string is in every string). */
  function Contains(s: string, p: string): (b: bool)
    ensures b <==> exists i :: OccursAt(s, p, i)
    decreases |s|
  {
    if p <= s then
      assert OccursAt(s, p, 0);
      true
    else if s == "" then
      false
    else
      var b := Contains(s[1..], p);
      ContainsStep(s, p, b);
      b
  }

  lemma ContainsStep(s: string, p: string, b: bool)
    requires s != "" && !(p <= s)
    requires b <==> exists i :: OccursAt(s[1..], p, i)
    ensures b <==> exists i :: OccursAt(s, p, i)
  {
    if b {
      var i :| OccursAt(s[1..], p, i);
      assert OccursAt(s, p, i + 1);
    } else {
      assert !OccursAt(s, p, 0);
      forall i | OccursAt(s, p, i) ensures i > 0 && OccursAt(s[1..], p, i - 1) {
      }
    }
  }

  /** What occurs in a suffix of `s` occurs in `s`. */
  lemma SuffixContains(s: string, k: nat, p: string)
    requires k <= |s| && Contains(s[k..], p)
    ensures Contains(s, p)
  {
    var i :| OccursAt(s[k..], p, i);
    assert s[k + i..k + i + |p|] == s[k..][i..i + |p|];
    assert OccursAt(s, p, k + i);
  }

  /** A substring of a substring of `c` is a substring of `c`. */
  lemma ContainsTrans(a: string, b: string, c: string)
    requires Contains(b, a) && Contains(c, b)
    ensures Contains(c, a)
  {
    var i :| OccursAt(b, a, i);
    var j :| OccursAt(c, b, j);
    forall k | 0 <= k < |a| ensures c[j + i + k] == a[k] {
      assert a[k] == b[i..i + |a|][k] == b[i + k];
      assert b[i + k] == c[j..j + |b|][i + k];
    }
    assert c[j + i..j + i + |a|] == a;
    assert OccursAt(c, a, j + i);
  }

  /** Both halves of a concatenation are substrings of it. */
  lemma ConcatContains(a: string, b: string)
    ensures Contains(a + b, a) && Contains(a + b, b)
  {
    assert (a + b)[..|a|] == a;
    assert OccursAt(a + b, a, 0);
    assert (a + b)[|a|..|a| + |b|] == b;
    assert OccursAt(a + b, b, |a|);
  }

  /** A string holding a substring that is not blank is not blank either. */
  lemma ContainsNotBlank(s: string, p: string)
    requires Contains(s, p) && !Blank(p)
    ensures !Blank(s)
  {
    var i :| OccursAt(s, p, i);
    var k :| 0 <= k < |p| && !IsSpace(p[k]);
    assert p[k] == s[i + k];
  }

  /** Every word of `s.split()` is a substring of `s`. */
  lemma {:induction false} SplitWordsOccur(s: string)
    ensures forall w :: w in Split(s) ==> Contains(s, w)
    decreases |s|
  {
    var t := LStrip(s);
    LStripShape(s);
    if t != "" {
      var w := NonSpacePrefix(t);
      var a := |s| - |t|;
      assert w != "" by { assert !IsSpace(t[0]); }
      assert OccursAt(s, w, a) by { assert s[a..a + |w|] == t[..|w|]; }
      SplitWordsOccur(t[|w|..]);
      forall x | x in Split(t[|w|..]) ensures Contains(s, x) {
        assert t[|w|..] == s[a + |w|..];
        SuffixContains(s, a + |w|, x);
      }
    }
  }

  /** `sep.join(parts)`. */
  function Join(sep: string, parts: seq<string>): string
    decreases |parts|
  {
    if |parts| == 0 then ""
    else if |parts| == 1 then parts[0]
    else Join(sep, parts[..|parts| - 1]) + sep + parts[|parts| - 1]
  }

  /** Number of occurrences of character `c` in `s`. */
  function CountChar(s: string, c: char): nat {
    if s == "" then 0 else CountChar(s[..|s| - 1], c) + (if s[|s| - 1] == c then 1 else 0)
  }

  lemma {:induction false} CountCharAppend(a: string, b: string, c: char)
    ensures CountChar(a + b, c) == CountChar(a, c) + CountChar(b, c)
    decreases |b|
  {
    if b == "" {
      assert a + b == a;
    } else {
      assert (a + b)[..|a + b| - 1] == a + b[..|b| - 1];
      CountCharAppend(a, b[..|b| - 1], c);
    }
  }

  /** Joining lines that hold no newline with "\n" yields one newline fewer than lines. */
  lemma {:induction false} JoinNewlines(parts: seq<string>)
    requires |parts| >= 1
    requires forall k :: 0 <= k < |parts| ==> CountChar(parts[k], '\n') == 0
    ensures CountChar(Join("\n", parts), '\n') == |parts| - 1
    decreases |parts|
  {
    if |parts| > 1 {
      var init := parts[..|parts| - 1];
      JoinNewlines(init);
      CountCharAppend(Join("\n", init), "\n", '\n');
      CountCharAppend(Join("\n", init) + "\n", parts[|parts| - 1], '\n');
      assert CountChar("\n", '\n') == 1 by {
        assert "\n"[..0] == "";
      }
    }
  }

  /** A join opens with its first part. */
  lemma {:induction false} JoinStartsWith(sep: string, parts: seq<string>)
    requires parts != []
    ensures |parts[0]| <= |Join(sep, parts)| && Join(sep, parts)[..|parts[0]|] == parts[0]
    decreases |parts|
  {
    if |parts| > 1 {
      var init := parts[..|parts| - 1];
      JoinStartsWith(sep, init);
      assert init[0] == parts[0];
    }
  }

  /** Joining newline-free parts with a newline-free separator gives no newline. */
  lemma {:induction false} JoinNoNewline(sep: string, parts: seq<string>)
    requires CountChar(sep, '\n') == 0
    requires forall k :: 0 <= k < |parts| ==> CountChar(parts[k], '\n') == 0
    ensures CountChar(Join(sep, parts), '\n') == 0
    decreases |parts|
  {
    if |parts| > 1 {
      var init := parts[..|parts| - 1];
      JoinNoNewline(sep, init);
      CountCharAppend(Join(sep, init), sep, '\n');
      CountCharAppend(Join(sep, init) + sep, parts[|parts| - 1], '\n');
    }
  }

  /** The summed length of the strings. */
  function TotalLength(parts: seq<string>): nat
    decreases |parts|
  {
    if parts == [] then 0 else |parts[0]| + TotalLength(parts[1..])
  }

  lemma {:induction false} TotalLengthAppend(a: seq<string>, b: seq<string>)
    ensures TotalLength(a + b) == TotalLength(a) + TotalLength(b)
    decreases |a|
  {
    if a == [] {
      assert a + b == b;
    } else {
      assert (a + b)[0] == a[0] && (a + b)[1..] == a[1..] + b;
      TotalLengthAppend(a[1..], b);
    }
  }

  /** A join is as long as its parts plus one separator between each two. */
  lemma {:induction false} JoinLength(sep: string, parts: seq<string>)
    requires parts != []
    ensures |Join(sep, parts)| == TotalLength(parts) + |sep| * (|parts| - 1)
    decreases |parts|
  {
    var n := |parts|;
    if n > 1 {
      JoinLength(sep, parts[..n - 1]);
      assert parts == parts[..n - 1] + [parts[n - 1]];
      TotalLengthAppend(parts[..n - 1], [parts[n - 1]]);
      assert [parts[n - 1]][1..] == [];
      assert |sep| * (n - 2) + |sep| == |sep| * (n - 1);
    }
  }

  function DigitChar(d: int): char
    requires 0 <= d < 10
  {
    "0123456789"[d]
  }

  /** `str(n)` for a non-negative integer: its decimal digits, no leading zeros. */
  function NatToString(n: nat): (r: string)
    ensures r != ""
    ensures forall k :: 0 <= k < |r| ==> '0' <= r[k] <= '9'
    decreases n
  {
    if n < 10 then [DigitChar(n)] else NatToString(n / 10) + [DigitChar(n % 10)]
  }

  /** `str(n)` for any integer. */
  function IntToString(n: int): (r: string)
    ensures r != "" && CountChar(r, '\n') == 0
  {
    var r := if n < 0 then "-" + NatToString(-n) else NatToString(n);
    NoNewlineCount(r);
    r
  }

  lemma {:induction false} NoNewlineCount(s: string)
    requires forall k :: 0 <= k < |s| ==> s[k] != '\n'
    ensures CountChar(s, '\n') == 0
    decreases |s|
  {
    if s != "" {
      NoNewlineCount(s[..|s| - 1]);
    }
  }

  /** Reads a string of decimal digits back as a number. */
  function ParseDigits(s: string): nat
    requires forall k :: 0 <= k < |s| ==> '0' <= s[k] <= '9'
  {
    if s == "" then 0 else ParseDigits(s[..|s| - 1]) * 10 + (s[|s| - 1] as int - '0' as int)
  }

  /** The decimal rendering of a count can be read back as the same count. */
  lemma {:induction false} NatToStringRoundTrip(n: nat)
    ensures ParseDigits(NatToString(n)) == n
    decreases n
  {
    var s := NatToString(n);
    if n >= 10 {
      NatToStringRoundTrip(n / 10);
      assert s[..|s| - 1] == NatToString(n / 10);
    }
  }
}
