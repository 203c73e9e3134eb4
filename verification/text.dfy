/**
 * The handful of Python `str` operations the notification code relies on.
 * Whitespace is what `str.isspace` accepts; case mapping touches only
 * 'A'-'Z' / 'a'-'z'.
 */
module Text {

  /**
   * `c.isspace()`: tab, line feed, vertical tab, form feed, carriage return,
   * the separators 0x1C-0x1F, space, next line (0x85), no-break space, and
   * the Unicode space, line and paragraph separators.
   */
  predicate IsWhitespace(c: char) {
    c == ' ' || (9 <= c as int <= 13) || (28 <= c as int <= 31)
      || c as int == 0x85 || c as int == 0xA0 || c as int == 0x1680
      || (0x2000 <= c as int <= 0x200A) || c as int == 0x2028 || c as int == 0x2029
      || c as int == 0x202F || c as int == 0x205F || c as int == 0x3000
  }

  predicate IsDigit(c: char) { '0' <= c <= '9' }

  predicate IsUpper(c: char) { 'A' <= c <= 'Z' }

  predicate IsLower(c: char) { 'a' <= c <= 'z' }

  /** `str.isalnum` on one ASCII character. */
  predicate IsAlnum(c: char) { IsDigit(c) || IsUpper(c) || IsLower(c) }

  /** A lower-case hexadecimal digit, as produced by `uuid4().hex`. */
  predicate IsLowerHex(c: char) { IsDigit(c) || ('a' <= c <= 'f') }

  /** An upper-case hexadecimal digit. */
  predicate IsUpperHex(c: char) { IsDigit(c) || ('A' <= c <= 'F') }

  function LowerChar(c: char): char {
    if IsUpper(c) then (c as int + 32) as char else c
  }

  function UpperChar(c: char): char {
    if IsLower(c) then (c as int - 32) as char else c
  }

  /** `s.lower()` */
  function ToLower(s: string): (r: string)
    ensures |r| == |s|
    ensures forall i :: 0 <= i < |s| ==> r[i] == LowerChar(s[i])
  {
    seq(|s|, i requires 0 <= i < |s| => LowerChar(s[i]))
  }

  /** `s.upper()` */
  function ToUpper(s: string): (r: string)
    ensures |r| == |s|
    ensures forall i :: 0 <= i < |s| ==> r[i] == UpperChar(s[i])
  {
    seq(|s|, i requires 0 <= i < |s| => UpperChar(s[i]))
  }

  /** `s.capitalize()`: first character upper-cased, the rest lower-cased. */
  function Capitalize(s: string): string {
    if s == [] then [] else [UpperChar(s[0])] + ToLower(s[1..])
  }

  /** `sub` occurs in `s` starting at index `i`. */
  predicate OccursAt(s: string, sub: string, i: int) {
    0 <= i <= |s| - |sub| && s[i..i + |sub|] == sub
  }

  /** Python's `sub in s`. */
  predicate Contains(s: string, sub: string) {
    exists i :: 0 <= i <= |s| - |sub| && OccursAt(s, sub, i)
  }

  predicate EndsWith(s: string, suffix: string) {
    |suffix| <= |s| && s[|s| - |suffix|..] == suffix
  }

  /** `s.rstrip(chars)`, where `drop` tells which characters are in `chars`. */
  function RStripBy(s: string, drop: char -> bool): (r: string)
    ensures r <= s
    ensures r == [] || !drop(r[|r| - 1])
    ensures forall i :: |r| <= i < |s| ==> drop(s[i])
    decreases |s|
  {
    if s != [] && drop(s[|s| - 1]) then RStripBy(s[..|s| - 1], drop) else s
  }

  /** `s.lstrip(chars)` */
  function LStripBy(s: string, drop: char -> bool): (r: string)
    ensures |r| <= |s| && r == s[|s| - |r|..]
    ensures r == [] || !drop(r[0])
    ensures forall i :: 0 <= i < |s| - |r| ==> drop(s[i])
    decreases |s|
  {
    if s != [] && drop(s[0]) then LStripBy(s[1..], drop) else s
  }

  /** `s.strip(chars)` */
  function StripBy(s: string, drop: char -> bool): string {
    LStripBy(RStripBy(s, drop), drop)
  }

  /** `s.rstrip()` */
  function RStrip(s: string): string { RStripBy(s, IsWhitespace) }

  /** `s.strip()` */
  function Strip(s: string): string { StripBy(s, IsWhitespace) }

  /** `s.rstrip(c)` */
  function RStripChar(s: string, c: char): (r: string)
    ensures r <= s
    ensures r == [] || r[|r| - 1] != c
    ensures forall i :: |r| <= i < |s| ==> s[i] == c
    decreases |s|
  {
    if s != [] && s[|s| - 1] == c then RStripChar(s[..|s| - 1], c) else s
  }

  /** `s.lstrip(c)` */
  function LStripChar(s: string, c: char): (r: string)
    ensures |r| <= |s| && r == s[|s| - |r|..]
    ensures r == [] || r[0] != c
    ensures forall i :: 0 <= i < |s| - |r| ==> s[i] == c
    decreases |s|
  {
    if s != [] && s[0] == c then LStripChar(s[1..], c) else s
  }

  /** `s.strip(c)` */
  function StripChar(s: string, c: char): string { LStripChar(RStripChar(s, c), c) }

  /** Stripping a character that neither end holds changes nothing. */
  lemma StripCharKeeps(s: string, c: char)
    requires s == [] || (s[0] != c && s[|s| - 1] != c)
    ensures StripChar(s, c) == s
  {
  }

  /** Neither end of `s` is whitespace. */
  predicate Trimmed(s: string) {
    s == [] || (!IsWhitespace(s[0]) && !IsWhitespace(s[|s| - 1]))
  }

  /** Stripping whitespace off a text that neither begins nor ends with any changes nothing. */
  lemma StripKeeps(s: string)
    requires Trimmed(s)
    ensures Strip(s) == s
  {
  }

  /** `s.split(sep)` for a one-character separator (never an empty list). */
  function Split(s: string, sep: char): (parts: seq<string>)
    ensures |parts| >= 1
    decreases |s|
  {
    if s == [] then [[]]
    else
      var rest := Split(s[1..], sep);
      if s[0] == sep then [[]] + rest else [[s[0]] + rest[0]] + rest[1..]
  }

  /** `sep.join(parts)` */
  function Join(parts: seq<string>, sep: string): string
    decreases |parts|
  {
    if parts == [] then []
    else if |parts| == 1 then parts[0]
    else parts[0] + sep + Join(parts[1..], sep)
  }

  /** Joining the pieces of a split with the same separator gives the string back. */
  lemma {:induction false} JoinSplit(s: string, sep: char)
    ensures Join(Split(s, sep), [sep]) == s
    decreases |s|
  {
    if s != [] {
      var rest := Split(s[1..], sep);
      JoinSplit(s[1..], sep);
      if s[0] == sep {
        assert Split(s, sep) == [[]] + rest;
        assert Join([[]] + rest, [sep]) == [] + [sep] + Join(rest, [sep]);
      } else if |rest| == 1 {
        assert Split(s, sep) == [[s[0]] + rest[0]];
      } else {
        var parts := [[s[0]] + rest[0]] + rest[1..];
        assert Split(s, sep) == parts;
        assert parts[1..] == rest[1..];
        assert Join(rest, [sep]) == rest[0] + [sep] + Join(rest[1..], [sep]);
      }
    }
  }

  /** The first piece of a split is the text before the first separator. */
  lemma {:induction false} SplitFirst(s: string, sep: char)
    ensures Split(s, sep)[0] <= s
    ensures sep !in Split(s, sep)[0]
    ensures |Split(s, sep)[0]| < |s| ==> s[|Split(s, sep)[0]|] == sep
    decreases |s|
  {
    if s != [] && s[0] != sep {
      SplitFirst(s[1..], sep);
    }
  }

  /**
   * A line boundary of `str.splitlines`: line feed, carriage return, vertical
   * tab, form feed, the separators 0x1C-0x1E, next line (0x85) and the
   * Unicode line and paragraph separators.
   */
  predicate IsLineBoundary(c: char) {
    c == '\n' || c == '\r' || c == '\U{0B}' || c == '\U{0C}' || ('\U{1C}' <= c <= '\U{1E}')
      || c == '\U{85}' || c == '\U{2028}' || c == '\U{2029}'
  }

  /** The index of the first line boundary, or the length when there is none. */
  function LineEnd(s: string): (k: nat)
    ensures k <= |s|
    ensures forall i :: 0 <= i < k ==> !IsLineBoundary(s[i])
    ensures k < |s| ==> IsLineBoundary(s[k])
    decreases |s|
  {
    if s == [] || IsLineBoundary(s[0]) then 0 else 1 + LineEnd(s[1..])
  }

  /**
   * `s.splitlines()`: the text cut at every line boundary, a carriage return
   * followed by a line feed counting as one; a boundary at the very end
   * opens no further line, and the empty text has no lines.
   */
  function SplitLines(s: string): (lines: seq<string>)
    ensures s == [] <==> lines == []
    ensures forall i, j :: 0 <= i < |lines| && 0 <= j < |lines[i]| ==> !IsLineBoundary(lines[i][j])
    decreases |s|, 1
  {
    if s == [] then [] else CutLine(s, LineEnd(s))
  }

  /** The number of characters of the boundary at `k`: two for a CR LF pair, one otherwise. */
  function BoundaryWidth(s: string, k: nat): (w: nat)
    requires k < |s|
    ensures 1 <= w <= 2 && k + w <= |s|
    ensures w == 2 <==> s[k] == '\r' && k + 1 < |s| && s[k + 1] == '\n'
  {
    if s[k] == '\r' && k + 1 < |s| && s[k + 1] == '\n' then 2 else 1
  }

  /** The first line of `s`, which ends at `k`, followed by the lines after its boundary. */
  function CutLine(s: string, k: nat): (lines: seq<string>)
    requires s != [] && k == LineEnd(s)
    ensures lines != []
    ensures forall i, j :: 0 <= i < |lines| && 0 <= j < |lines[i]| ==> !IsLineBoundary(lines[i][j])
    decreases |s|, 0
  {
    assert forall j :: 0 <= j < k ==> s[..k][j] == s[j];
    if k == |s| then [s] else [s[..k]] + SplitLines(s[k + BoundaryWidth(s, k)..])
  }

  /** Every line boundary in `s` is a line feed. */
  predicate OnlyLineFeeds(s: string) {
    forall k :: 0 <= k < |s| && IsLineBoundary(s[k]) ==> s[k] == '\n'
  }

  /**
   * On a text whose only boundaries are line feeds and which does not end
   * in one, joining the lines with line feeds gives the text back.
   */
  lemma {:induction false} JoinSplitLines(s: string)
    requires OnlyLineFeeds(s)
    requires s == [] || s[|s| - 1] != '\n'
    ensures Join(SplitLines(s), "\n") == s
    decreases |s|
  {
    if s != [] && LineEnd(s) < |s| {
      var k := LineEnd(s);
      var rest := s[k + 1..];
      AfterLineFeed(s, k);
      JoinSplitLines(rest);
      SplitAround(s, k);
      SplitLinesCons(s[..k], '\n', rest);
      JoinCons(s[..k], SplitLines(rest));
    }
  }

  /** Past the first boundary, which is a line feed, the text keeps both conditions of `JoinSplitLines`. */
  lemma AfterLineFeed(s: string, k: nat)
    requires OnlyLineFeeds(s) && s != [] && s[|s| - 1] != '\n'
    requires k == LineEnd(s) < |s|
    ensures s[k] == '\n' && NoLineBoundary(s[..k])
    ensures OnlyLineFeeds(s[k + 1..]) && s[k + 1..] != [] && s[k + 1..][|s[k + 1..]| - 1] != '\n'
  {
    var rest := s[k + 1..];
    assert forall j :: 0 <= j < k ==> s[..k][j] == s[j];
    forall i | 0 <= i < |rest| && IsLineBoundary(rest[i]) ensures rest[i] == '\n' {
      assert rest[i] == s[k + 1 + i];
    }
  }

  /** Joining a first piece onto further pieces puts one separator between them. */
  lemma JoinCons(first: string, parts: seq<string>)
    requires parts != []
    ensures Join([first] + parts, "\n") == first + "\n" + Join(parts, "\n")
  {
    assert ([first] + parts)[1..] == parts;
  }

  /** A text is the part before an index, the character there and the part after it. */
  lemma SplitAround(s: string, k: nat)
    requires k < |s|
    ensures s[..k] + [s[k]] + s[k + 1..] == s
  {
  }

  /** No character of `s` is a line boundary. */
  predicate NoLineBoundary(s: string) {
    forall j :: 0 <= j < |s| ==> !IsLineBoundary(s[j])
  }

  /** The first boundary of `a + [c] + rest` is `c` when `a` has none. */
  lemma LineEndAfter(a: string, c: char, rest: string)
    requires NoLineBoundary(a) && IsLineBoundary(c)
    ensures LineEnd(a + [c] + rest) == |a|
  {
    var s := a + [c] + rest;
    assert s[|a|] == c;
  }

  /** A text without boundaries is a single line. */
  lemma SplitLinesSingle(a: string)
    requires a != [] && NoLineBoundary(a)
    ensures SplitLines(a) == [a]
  {
    assert SplitLines(a) == CutLine(a, |a|);
  }

  /**
   * A boundary other than a carriage return directly followed by a line
   * feed ends the first line, and the lines after it follow.
   */
  lemma SplitLinesCons(a: string, c: char, rest: string)
    requires NoLineBoundary(a) && IsLineBoundary(c)
    requires c != '\r' || rest == [] || rest[0] != '\n'
    ensures SplitLines(a + [c] + rest) == [a] + SplitLines(rest)
  {
    var s := a + [c] + rest;
    LineEndAfter(a, c, rest);
    assert s[|a|] == c && s[..|a|] == a && s[|a| + 1..] == rest;
    assert BoundaryWidth(s, |a|) == 1;
    assert SplitLines(s) == CutLine(s, |a|);
  }

  /** A carriage return followed by a line feed is one boundary. */
  lemma SplitLinesCrLf(a: string, rest: string)
    requires NoLineBoundary(a)
    ensures SplitLines(a + "\r\n" + rest) == [a] + SplitLines(rest)
  {
    var s := a + "\r\n" + rest;
    assert s == a + ['\r'] + (['\n'] + rest);
    LineEndAfter(a, '\r', ['\n'] + rest);
    assert s[|a|] == '\r' && s[|a| + 1] == '\n' && s[..|a|] == a && s[|a| + 2..] == rest;
    assert BoundaryWidth(s, |a|) == 2;
    assert SplitLines(s) == CutLine(s, |a|);
  }

  /** A lone carriage return ends a line. */
  lemma SplitLinesLoneCr()
    ensures SplitLines("a \rb") == ["a ", "b"]
  {
    assert NoLineBoundary("a ") && NoLineBoundary("b");
    SplitLinesSingle("b");
    assert "a \rb" == "a " + ['\r'] + "b";
    SplitLinesCons("a ", '\r', "b");
  }

  /** A carriage return and a line feed together are a single boundary. */
  lemma SplitLinesCrLfPair()
    ensures SplitLines("a\r\nb") == ["a", "b"]
  {
    assert NoLineBoundary("a") && NoLineBoundary("b");
    SplitLinesSingle("b");
    assert "a\r\nb" == "a" + "\r\n" + "b";
    SplitLinesCrLf("a", "b");
  }

  /** A final boundary opens no further line, but a boundary after it does end an empty line. */
  lemma SplitLinesTrailing()
    ensures SplitLines("a\n") == ["a"]
    ensures SplitLines("\n\n") == ["", ""]
  {
    assert NoLineBoundary("a") && NoLineBoundary([]);
    assert "a\n" == "a" + ['\n'] + [];
    SplitLinesCons("a", '\n', []);
    assert "\n" == [] + ['\n'] + [];
    SplitLinesCons([], '\n', []);
    assert "\n\n" == [] + ['\n'] + "\n";
    SplitLinesCons([], '\n', "\n");
  }

  function DigitChar(d: nat): char
    requires d < 10
  {
    ('0' as int + d) as char
  }

  /** `str(n)` for a natural number. */
  function NatToString(n: nat): (r: string)
    ensures |r| >= 1
    ensures forall i :: 0 <= i < |r| ==> IsDigit(r[i])
    decreases n
  {
    if n < 10 then [DigitChar(n)] else NatToString(n / 10) + [DigitChar(n % 10)]
  }

  /** `int(s)` for a string of decimal digits (the inverse of NatToString). */
  function ParseNat(s: string): nat
    requires forall i :: 0 <= i < |s| ==> IsDigit(s[i])
  {
    if s == [] then 0
    else
      assert IsDigit(s[|s| - 1]);
      ParseNat(s[..|s| - 1]) * 10 + (s[|s| - 1] as int - '0' as int)
  }

  lemma {:induction false} ParseNatToString(n: nat)
    ensures ParseNat(NatToString(n)) == n
    decreases n
  {
    if n >= 10 {
      var s := NatToString(n);
      assert s[..|s| - 1] == NatToString(n / 10);
      ParseNatToString(n / 10);
    }
  }

  /** Two different numbers never print the same. */
  lemma NatToStringInjective(m: nat, n: nat)
    requires NatToString(m) == NatToString(n)
    ensures m == n
  {
    ParseNatToString(m);
    ParseNatToString(n);
  }

  /** `a + s + e` starts with `a` and ends with `s + e`. */
  lemma PrefixAndTail(a: string, s: string, e: string)
    ensures a <= a + s + e && EndsWith(a + s + e, s + e)
  {
    var r := a + s + e;
    assert r[..|a|] == a;
    assert r[|a|..] == s + e;
  }

  /** `a + b + (m + s + e)` starts with `a` and ends with `m + s + e`, hence with `s + e`. */
  lemma PrefixAndLongTail(a: string, b: string, m: string, s: string, e: string)
    ensures a <= a + b + (m + s + e)
    ensures EndsWith(a + b + (m + s + e), m + s + e) && EndsWith(a + b + (m + s + e), s + e)
  {
    var t := m + s + e;
    var r := a + b + t;
    assert r[..|a|] == a;
    assert r[|r| - |t|..] == t;
    assert t[|m|..] == s + e;
    assert r[|r| - |s + e|..] == t[|m|..];
  }

  lemma ContainsTail(s: string, sub: string)
    requires s != []
    ensures Contains(s[1..], sub) ==> Contains(s, sub)
  {
    if Contains(s[1..], sub) {
      var i :| 0 <= i <= |s[1..]| - |sub| && OccursAt(s[1..], sub, i);
      assert s[i + 1..i + 1 + |sub|] == s[1..][i..i + |sub|];
      assert OccursAt(s, sub, i + 1);
    }
  }

  /**
   * `s.replace(pat, rep)`: scan from the left, replacing each occurrence that
   * does not overlap an earlier replaced one.
   */
  function ReplaceAll(s: string, pat: string, rep: string): (r: string)
    requires pat != []
    ensures rep == [] ==> |r| <= |s|
    ensures !Contains(s, pat) ==> r == s
    decreases |s|
  {
    if |s| < |pat| then s
    else if s[..|pat|] == pat then
      assert OccursAt(s, pat, 0);
      rep + ReplaceAll(s[|pat|..], pat, rep)
    else
      ContainsTail(s, pat);
      [s[0]] + ReplaceAll(s[1..], pat, rep)
  }
}
