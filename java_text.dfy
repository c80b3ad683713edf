/**
 * The java.lang.String and java.lang.Double operations the TLE exporter relies on:
 * indexOf, trim, toUpperCase (ASCII letters), split("\\s+") of a trimmed string,
 * String.valueOf of a non-negative int, and Double.parseDouble (as an exact real).
 */
module JavaText {
  import opened Wrappers

  // ---------------------------------------------------------------------------
  // indexOf
  // ---------------------------------------------------------------------------

  /** `pat` occurs in `s` starting at position `i`. */
  predicate OccursAt(s: string, pat: string, i: nat) {
    i + |pat| <= |s| && s[i..i + |pat|] == pat
  }

  /** String.indexOf(pat, from) for 0 <= from <= |s|: the first occurrence at or after `from`, or -1. */
  function IndexOf(s: string, pat: string, from: nat): (r: int)
    requires from <= |s|
    ensures r == -1 || (from <= r <= |s| && OccursAt(s, pat, r))
    ensures r == -1 ==> forall j :: from <= j <= |s| ==> !OccursAt(s, pat, j)
    ensures r != -1 ==> forall j :: from <= j < r ==> !OccursAt(s, pat, j)
    decreases |s| - from
  {
    if OccursAt(s, pat, from) then from
    else if from == |s| then -1
    else IndexOf(s, pat, from + 1)
  }

  /** String.contains(pat). */
  predicate Contains(s: string, pat: string) {
    IndexOf(s, pat, 0) != -1
  }

  lemma ContainsIffOccurs(s: string, pat: string)
    ensures Contains(s, pat) <==> exists j :: 0 <= j <= |s| && OccursAt(s, pat, j)
  {
    if !Contains(s, pat) {
      assert forall j :: 0 <= j <= |s| ==> !OccursAt(s, pat, j);
    }
  }

  // ---------------------------------------------------------------------------
  // trim
  // ---------------------------------------------------------------------------

  /** The characters String.trim() removes: every code point up to U+0020. */
  predicate IsTrimmable(c: char) {
    c <= ' '
  }

  /** Number of trimmable characters at the start of `s`. */
  function LeadingCount(s: string): (n: nat)
    ensures n <= |s|
  {
    if s != [] && IsTrimmable(s[0]) then 1 + LeadingCount(s[1..]) else 0
  }

  /** LeadingCount(s) is the length of the longest trimmable prefix of `s`. */
  lemma {:induction false} LeadingCountIsLongestPrefix(s: string)
    ensures forall i :: 0 <= i < LeadingCount(s) ==> IsTrimmable(s[i])
    ensures LeadingCount(s) < |s| ==> !IsTrimmable(s[LeadingCount(s)])
  {
    if s != [] && IsTrimmable(s[0]) {
      LeadingCountIsLongestPrefix(s[1..]);
      assert forall i :: 0 < i < |s| ==> s[i] == s[1..][i - 1];
    }
  }

  /** Number of trimmable characters at the end of `s`. */
  function TrailingCount(s: string): (n: nat)
    ensures n <= |s|
  {
    if s != [] && IsTrimmable(s[|s| - 1]) then 1 + TrailingCount(s[..|s| - 1]) else 0
  }

  /** TrailingCount(s) is the length of the longest trimmable suffix of `s`. */
  lemma {:induction false} TrailingCountIsLongestSuffix(s: string)
    ensures forall i :: |s| - TrailingCount(s) <= i < |s| ==> IsTrimmable(s[i])
    ensures TrailingCount(s) < |s| ==> !IsTrimmable(s[|s| - 1 - TrailingCount(s)])
  {
    if s != [] && IsTrimmable(s[|s| - 1]) {
      TrailingCountIsLongestSuffix(s[..|s| - 1]);
    }
  }

  /** String.trim(): `s` without its leading and trailing characters up to U+0020. */
  function Trim(s: string): (r: string)
    ensures |r| <= |s|
  {
    var a := LeadingCount(s);
    if a == |s| then []
    else
      LeadingCountIsLongestPrefix(s);
      TrailingCountIsLongestSuffix(s);
      assert !IsTrimmable(s[a]);
      s[a..|s| - TrailingCount(s)]
  }

  /** trim() gives the empty string exactly when every character is trimmable. */
  lemma TrimEmptyIffAllTrimmable(s: string)
    ensures Trim(s) == [] <==> forall i :: 0 <= i < |s| ==> IsTrimmable(s[i])
  {
    LeadingCountIsLongestPrefix(s);
    TrailingCountIsLongestSuffix(s);
    if LeadingCount(s) < |s| {
      assert !IsTrimmable(s[LeadingCount(s)]);
    }
  }

  /** trim() keeps the infix of `s` that starts after the leading trimmable characters. */
  lemma TrimIsInfix(s: string)
    ensures LeadingCount(s) + |Trim(s)| <= |s| && Trim(s) == s[LeadingCount(s)..LeadingCount(s) + |Trim(s)|]
  {
    LeadingCountIsLongestPrefix(s);
    TrailingCountIsLongestSuffix(s);
    if LeadingCount(s) < |s| {
      assert !IsTrimmable(s[LeadingCount(s)]);
    }
  }

  /** What trim() keeps neither starts nor ends with a trimmable character. */
  lemma TrimEnds(s: string)
    ensures Trim(s) != [] ==> !IsTrimmable(Trim(s)[0]) && !IsTrimmable(Trim(s)[|Trim(s)| - 1])
  {
    LeadingCountIsLongestPrefix(s);
    TrailingCountIsLongestSuffix(s);
  }

  /** Every character trim() removes is trimmable. */
  lemma TrimDropsOnlyTrimmable(s: string)
    ensures forall i :: 0 <= i < |s| && !(LeadingCount(s) <= i < LeadingCount(s) + |Trim(s)|) ==> IsTrimmable(s[i])
  {
    LeadingCountIsLongestPrefix(s);
    TrailingCountIsLongestSuffix(s);
  }

  // ---------------------------------------------------------------------------
  // toUpperCase
  // ---------------------------------------------------------------------------

  function ToUpperChar(c: char): (u: char)
    ensures 'a' <= c <= 'z' ==> u as int == c as int - 32
    ensures !('a' <= c <= 'z') ==> u == c
  {
    if 'a' <= c <= 'z' then (c as int - 32) as char else c
  }

  /** String.toUpperCase() on ASCII letters: each letter a-z becomes A-Z, every other character stays. */
  function ToUpper(s: string): (r: string)
    ensures |r| == |s|
    ensures forall i :: 0 <= i < |s| ==> r[i] == ToUpperChar(s[i])
  {
    seq(|s|, i requires 0 <= i < |s| => ToUpperChar(s[i]))
  }

  /** A character that is not an upper-case letter appears after upper-casing only where it was already. */
  lemma ToUpperKeepsAbsent(s: string, c: char)
    requires c !in s && !('A' <= c <= 'Z')
    ensures c !in ToUpper(s)
  {
    var r := ToUpper(s);
    forall i | 0 <= i < |r| ensures r[i] != c {
      assert s[i] in s;
    }
  }

  /** Upper-casing leaves no letter a-z, so doing it twice is doing it once. */
  lemma ToUpperIdempotent(s: string)
    ensures forall i :: 0 <= i < |s| ==> !('a' <= ToUpper(s)[i] <= 'z')
    ensures ToUpper(ToUpper(s)) == ToUpper(s)
  {
  }

  // ---------------------------------------------------------------------------
  // split("\\s+")
  // ---------------------------------------------------------------------------

  /** The class `\s` of java.util.regex: space, tab, line feed, vertical tab, form feed, carriage return. */
  predicate IsRegexSpace(c: char) {
    c == ' ' || c == '\t' || c == '\n' || c as int == 11 || c as int == 12 || c == '\r'
  }

  /** Every character of `\s` is one that trim() removes. */
  lemma RegexSpaceIsTrimmable(c: char)
    requires IsRegexSpace(c)
    ensures IsTrimmable(c)
  {
  }

  predicate NoRegexSpace(t: string) {
    forall i :: 0 <= i < |t| ==> !IsRegexSpace(t[i])
  }

  /** The length of the run of non-`\s` characters that starts `t`. */
  function WordLength(t: string): (n: nat)
    ensures n <= |t|
    ensures t != [] && !IsRegexSpace(t[0]) ==> n >= 1
  {
    if t != [] && !IsRegexSpace(t[0]) then 1 + WordLength(t[1..]) else 0
  }

  /** WordLength passes over non-`\s` characters and stops at `\s` or the end. */
  lemma {:induction false} WordLengthIsRun(t: string)
    ensures forall k :: 0 <= k < WordLength(t) ==> !IsRegexSpace(t[k])
    ensures WordLength(t) < |t| ==> IsRegexSpace(t[WordLength(t)])
  {
    if t != [] && !IsRegexSpace(t[0]) {
      WordLengthIsRun(t[1..]);
    }
  }

  /** A word followed by `\s` (or by nothing) is measured exactly. */
  lemma {:induction false} WordLengthOfWord(w: string, r: string)
    requires NoRegexSpace(w)
    requires r == [] || IsRegexSpace(r[0])
    ensures WordLength(w + r) == |w|
  {
    if w != [] {
      assert (w + r)[0] == w[0];
      assert (w + r)[1..] == w[1..] + r;
      WordLengthOfWord(w[1..], r);
    } else {
      assert w + r == r;
    }
  }

  /** The maximal runs of non-`\s` characters of t, left to right. */
  function Tokens(t: string): seq<string>
    decreases |t|
  {
    if t == [] then []
    else if IsRegexSpace(t[0]) then Tokens(t[1..])
    else
      var n := WordLength(t);
      [t[..n]] + Tokens(t[n..])
  }

  /** Every token is a non-empty run without `\s`. */
  lemma {:induction false} TokensAreWords(t: string)
    ensures forall k :: 0 <= k < |Tokens(t)| ==> Tokens(t)[k] != [] && NoRegexSpace(Tokens(t)[k])
    decreases |t|
  {
    if t != [] {
      if IsRegexSpace(t[0]) {
        TokensAreWords(t[1..]);
      } else {
        var n := WordLength(t);
        var ts, rest := Tokens(t), Tokens(t[n..]);
        TokensAreWords(t[n..]);
        WordLengthIsRun(t);
        assert ts == [t[..n]] + rest;
        forall k | 0 <= k < |ts|
          ensures ts[k] != [] && NoRegexSpace(ts[k])
        {
          if k > 0 {
            assert ts[k] == rest[k - 1];
          } else {
            assert ts[k] == t[..n];
          }
        }
      }
    }
  }

  /**
   * split("\\s+") of a string without leading `\s` (a trimmed string): its maximal
   * runs of non-`\s` characters. The one difference from Java is the empty string,
   * which Java splits into [""] and this into [].
   */
  function SplitWhitespace(s: string): (ts: seq<string>)
    ensures forall k :: 0 <= k < |ts| ==> ts[k] != [] && NoRegexSpace(ts[k])
  {
    TokensAreWords(s);
    Tokens(s)
  }

  /** Leading `\s` produces no token. */
  lemma {:induction false} LeadingSpacesDropped(sep: string, r: string)
    requires AllRegexSpace(sep)
    ensures Tokens(sep + r) == Tokens(r)
  {
    if sep != [] {
      assert (sep + r)[0] == sep[0];
      assert (sep + r)[1..] == sep[1..] + r;
      LeadingSpacesDropped(sep[1..], r);
    } else {
      assert sep + r == r;
    }
  }

  /** A word followed by `\s` (or by nothing) is the first token. */
  lemma FirstWordIsToken(w: string, r: string)
    requires w != [] && NoRegexSpace(w)
    requires r == [] || IsRegexSpace(r[0])
    ensures Tokens(w + r) == [w] + Tokens(r)
  {
    var t := w + r;
    assert t[0] == w[0];
    WordLengthOfWord(w, r);
    assert t[..|w|] == w;
    assert t[|w|..] == r;
  }

  /** A string with no `\s` at all is one token, itself. */
  lemma SplitSingleWord(s: string)
    requires s != [] && NoRegexSpace(s)
    ensures SplitWhitespace(s) == [s]
  {
    FirstWordIsToken(s, []);
    assert s + [] == s;
  }

  predicate AllRegexSpace(t: string) {
    forall i :: 0 <= i < |t| ==> IsRegexSpace(t[i])
  }

  /** The items ws[0], ws[1], ... each followed by its separator seps[k]. */
  function JoinWith(ws: seq<string>, seps: seq<string>): (s: string)
    requires |seps| == |ws|
  {
    if ws == [] then [] else ws[0] + seps[0] + JoinWith(ws[1..], seps[1..])
  }

  lemma SliceShift<T>(p: seq<T>, r: seq<T>, a: nat, b: nat)
    requires a <= b <= |r|
    ensures (p + r)[|p| + a..|p| + b] == r[a..b]
  {
    assert forall k :: 0 <= k < b - a ==> (p + r)[|p| + a..|p| + b][k] == r[a..b][k];
  }

  /**
   * Splitting words joined by non-empty runs of `\s` (the last word may be followed by
   * more `\s`) gives back the words: tokens are exactly the maximal non-`\s` runs.
   */
  lemma {:induction false} SplitJoinedWords(ws: seq<string>, seps: seq<string>)
    requires |seps| == |ws|
    requires forall k :: 0 <= k < |ws| ==> ws[k] != [] && NoRegexSpace(ws[k])
    requires forall k :: 0 <= k < |seps| ==> AllRegexSpace(seps[k])
    requires forall k :: 0 <= k < |seps| - 1 ==> seps[k] != []
    ensures SplitWhitespace(JoinWith(ws, seps)) == ws
  {
    if ws != [] {
      var rest := JoinWith(ws[1..], seps[1..]);
      var r := seps[0] + rest;
      assert JoinWith(ws, seps) == ws[0] + r;
      if seps[0] == [] {
        assert |ws| == 1 && rest == [];
      } else {
        assert r[0] == seps[0][0];
      }
      FirstWordIsToken(ws[0], r);
      LeadingSpacesDropped(seps[0], rest);
      SplitJoinedWords(ws[1..], seps[1..]);
      assert ws == [ws[0]] + ws[1..];
    }
  }

  // ---------------------------------------------------------------------------
  // Line splitting: split("\\r?\\n")
  // ---------------------------------------------------------------------------

  predicate NoNewline(l: string) {
    forall i :: 0 <= i < |l| ==> l[i] != '\n'
  }

  /** The number of characters before the first '\n' (all of them when there is none). */
  function LineLength(t: string): (n: nat)
    ensures n <= |t|
  {
    if t == [] || t[0] == '\n' then 0 else 1 + LineLength(t[1..])
  }

  /** The measured prefix has no '\n', and a '\n' follows it unless it is all of t. */
  lemma {:induction false} LineLengthIsRun(t: string)
    ensures NoNewline(t[..LineLength(t)])
    ensures LineLength(t) < |t| ==> t[LineLength(t)] == '\n'
  {
    if t != [] && t[0] != '\n' {
      LineLengthIsRun(t[1..]);
      assert t[..LineLength(t)] == [t[0]] + t[1..][..LineLength(t[1..])];
    }
  }

  /** A line without '\n', followed by '\n' or by nothing, is measured exactly. */
  lemma {:induction false} LineLengthOfLine(l: string, r: string)
    requires NoNewline(l)
    requires r == [] || r[0] == '\n'
    ensures LineLength(l + r) == |l|
  {
    if l != [] {
      assert (l + r)[0] == l[0];
      assert (l + r)[1..] == l[1..] + r;
      LineLengthOfLine(l[1..], r);
    } else {
      assert l + r == r;
    }
  }

  /** A piece ended by a `\r\n` match loses the '\r' the match takes. */
  function DropCarriageReturn(p: string): (q: string)
    ensures q == p || (p != [] && p[|p| - 1] == '\r' && q == p[..|p| - 1])
  {
    if p != [] && p[|p| - 1] == '\r' then p[..|p| - 1] else p
  }

  /** The pieces between the matches of `\r?\n`, left to right, trailing empty pieces kept. */
  function LinePieces(t: string): (ps: seq<string>)
    ensures |ps| >= 1
    decreases |t|
  {
    var n := LineLength(t);
    if n == |t| then [t] else [DropCarriageReturn(t[..n])] + LinePieces(t[n + 1..])
  }

  /** Java's removal of the trailing empty strings of a split. */
  function DropTrailingEmpty(ps: seq<string>): (r: seq<string>)
    ensures |r| <= |ps| && r == ps[..|r|]
    ensures r != [] ==> r[|r| - 1] != []
    ensures forall k :: |r| <= k < |ps| ==> ps[k] == []
  {
    if ps != [] && ps[|ps| - 1] == [] then DropTrailingEmpty(ps[..|ps| - 1]) else ps
  }

  /**
   * `s.split("\\r?\\n")`: the text between line breaks ("\n" or "\r\n"). With no
   * break at all the result is the whole string, even an empty one; otherwise the
   * trailing empty strings are removed.
   */
  function SplitLines(s: string): (ls: seq<string>)
  {
    var ps := LinePieces(s);
    if |ps| == 1 then ps else DropTrailingEmpty(ps)
  }

  /** No piece holds a '\n'. */
  lemma {:induction false} LinePiecesNoNewline(t: string)
    ensures forall k :: 0 <= k < |LinePieces(t)| ==> NoNewline(LinePieces(t)[k])
    decreases |t|
  {
    var n := LineLength(t);
    LineLengthIsRun(t);
    if n < |t| {
      var ps, rest := LinePieces(t), LinePieces(t[n + 1..]);
      LinePiecesNoNewline(t[n + 1..]);
      assert ps == [DropCarriageReturn(t[..n])] + rest;
      forall k | 0 <= k < |ps|
        ensures NoNewline(ps[k])
      {
        if k > 0 {
          assert ps[k] == rest[k - 1];
        } else {
          assert ps[k] == DropCarriageReturn(t[..n]);
        }
      }
    }
  }

  /** The lines of a split contain no '\n'; when the text has a break, the last line is not empty. */
  lemma SplitLinesShape(s: string)
    ensures forall k :: 0 <= k < |SplitLines(s)| ==> NoNewline(SplitLines(s)[k])
    ensures |LinePieces(s)| > 1 && SplitLines(s) != [] ==> SplitLines(s)[|SplitLines(s)| - 1] != []
  {
    LinePiecesNoNewline(s);
    var ps := LinePieces(s);
    if |ps| > 1 {
      var ls := DropTrailingEmpty(ps);
      forall k | 0 <= k < |ls|
        ensures NoNewline(ls[k])
      {
        assert ls[k] == ps[k];
      }
    }
  }

  /** A line break is "\n" or "\r\n". */
  predicate IsLineBreak(b: string) {
    b == "\n" || b == "\r\n"
  }

  /** A line as a feed carries it: no '\n', and no '\r' that a break could take. */
  predicate IsPlainLine(l: string) {
    NoNewline(l) && (l == [] || l[|l| - 1] != '\r')
  }

  /** The first line of a text is the first piece. */
  lemma FirstLinePiece(l: string, b: string, r: string)
    requires IsPlainLine(l) && IsLineBreak(b)
    ensures LinePieces(l + b + r) == [l] + LinePieces(r)
  {
    var t := l + b + r;
    var c := if b == "\n" then l else l + "\r";
    assert t == c + ("\n" + r);
    assert NoNewline(c) by {
      assert forall i :: 0 <= i < |l| ==> c[i] == l[i];
    }
    LineLengthOfLine(c, "\n" + r);
    assert t[..|c|] == c;
    assert t[|c| + 1..] == r;
    assert DropCarriageReturn(c) == l;
  }

  /** Lines joined by breaks (the last one optionally followed by a break) give those pieces. */
  lemma {:induction false} LinePiecesOfJoined(ls: seq<string>, bs: seq<string>)
    requires |bs| == |ls| > 0
    requires forall k :: 0 <= k < |ls| ==> IsPlainLine(ls[k])
    requires forall k :: 0 <= k < |bs| - 1 ==> IsLineBreak(bs[k])
    requires bs[|bs| - 1] == [] || IsLineBreak(bs[|bs| - 1])
    ensures LinePieces(JoinWith(ls, bs)) == ls + (if bs[|bs| - 1] == [] then [] else [[]])
  {
    var rest := JoinWith(ls[1..], bs[1..]);
    assert JoinWith(ls, bs) == ls[0] + bs[0] + rest;
    if |ls| == 1 {
      assert rest == [];
      if bs[0] == [] {
        assert JoinWith(ls, bs) == ls[0];
        LineLengthOfLine(ls[0], []);
        assert ls[0] + [] == ls[0];
      } else {
        FirstLinePiece(ls[0], bs[0], []);
        LineLengthOfLine([], []);
      }
    } else {
      FirstLinePiece(ls[0], bs[0], rest);
      LinePiecesOfJoined(ls[1..], bs[1..]);
      assert ls == [ls[0]] + ls[1..];
    }
  }

  /**
   * Splitting a text of lines joined by "\n" or "\r\n", the last line non-empty and
   * optionally followed by a break, gives back the lines.
   */
  lemma SplitJoinedLines(ls: seq<string>, bs: seq<string>)
    requires |bs| == |ls| > 0
    requires forall k :: 0 <= k < |ls| ==> IsPlainLine(ls[k])
    requires forall k :: 0 <= k < |bs| - 1 ==> IsLineBreak(bs[k])
    requires bs[|bs| - 1] == [] || IsLineBreak(bs[|bs| - 1])
    requires ls[|ls| - 1] != []
    ensures SplitLines(JoinWith(ls, bs)) == ls
  {
    LinePiecesOfJoined(ls, bs);
    var ps := LinePieces(JoinWith(ls, bs));
    if |ps| > 1 {
      var r := DropTrailingEmpty(ps);
      if bs[|bs| - 1] == [] {
        assert ps == ls;
      } else {
        assert ps == ls + [[]];
        assert ps[|ls|] == [] && ps[|ls| - 1] != [];
        assert r == ps[..|ls|];
      }
    }
  }

  /**
   * Trailing blank lines vanish: "NAME\nLINE1\n\n" splits into the two lines, not into
   * four pieces, so such a feed ends without a third line.
   */
  lemma SplitDropsTrailingBlankLines(l1: string, l2: string)
    requires IsPlainLine(l1) && IsPlainLine(l2) && l2 != []
    ensures SplitLines(l1 + "\n" + l2 + "\n\n") == [l1, l2]
  {
    var e: string := [];
    TwoLinesTwoBreaksPieces(l1, l2);
    var ps := [l1, l2, e, e];
    assert ps[..3] == [l1, l2, e];
    assert [l1, l2, e][..2] == [l1, l2];
    assert DropTrailingEmpty([l1, l2]) == [l1, l2];
    assert DropTrailingEmpty([l1, l2, e]) == [l1, l2];
    assert DropTrailingEmpty(ps) == [l1, l2];
  }

  lemma TwoLinesTwoBreaksPieces(l1: string, l2: string)
    requires IsPlainLine(l1) && IsPlainLine(l2)
    ensures LinePieces(l1 + "\n" + l2 + "\n\n") == [l1, l2, [], []]
  {
    var e: string := [];
    var nl: string := "\n";
    var ls, bs := [l1, l2, e], [nl, nl, nl];
    assert JoinWith(ls[2..], bs[2..]) == nl;
    assert JoinWith(ls[1..], bs[1..]) == l2 + nl + nl;
    assert JoinWith(ls, bs) == l1 + nl + (l2 + nl + nl);
    assert l1 + "\n" + l2 + "\n\n" == l1 + nl + (l2 + nl + nl);
    LinePiecesOfJoined(ls, bs);
  }

  // ---------------------------------------------------------------------------
  // Decimal digits
  // ---------------------------------------------------------------------------

  predicate IsDigit(c: char) {
    '0' <= c <= '9'
  }

  predicate AllDigits(s: string) {
    forall i :: 0 <= i < |s| ==> IsDigit(s[i])
  }

  function DigitChar(d: nat): (c: char)
    requires d < 10
    ensures IsDigit(c) && c as int - '0' as int == d
  {
    ('0' as int + d) as char
  }

  /** The value of an all-digit string, most significant digit first (0 for ""). */
  function DigitsValue(s: string): nat
    requires AllDigits(s)
  {
    if s == [] then 0 else 10 * DigitsValue(s[..|s| - 1]) + (s[|s| - 1] as int - '0' as int)
  }

  /** String.valueOf(n) for a non-negative int: its decimal digits, without leading zeros. */
  function NatToDecimal(n: nat): (s: string)
    ensures s != [] && AllDigits(s)
    ensures |s| == 1 <==> n < 10
    ensures |s| > 1 ==> s[0] != '0'
  {
    if n < 10 then [DigitChar(n)] else NatToDecimal(n / 10) + [DigitChar(n % 10)]
  }

  /** Reading back the digits String.valueOf writes gives the number. */
  lemma {:induction false} DecimalRoundTrip(n: nat)
    ensures DigitsValue(NatToDecimal(n)) == n
  {
    var s := NatToDecimal(n);
    if n >= 10 {
      DecimalRoundTrip(n / 10);
      assert s[..|s| - 1] == NatToDecimal(n / 10);
    }
  }

  /** The first index at or after `i` that is not a digit (or |s|). */
  function DigitRunEnd(s: string, i: nat): (j: nat)
    requires i <= |s|
    ensures i <= j <= |s|
    ensures AllDigits(s[i..j])
    ensures j < |s| ==> !IsDigit(s[j])
    decreases |s| - i
  {
    if i < |s| && IsDigit(s[i]) then
      var j := DigitRunEnd(s, i + 1);
      assert s[i..j] == [s[i]] + s[i + 1..j];
      j
    else i
  }

  function Pow10(n: nat): (p: nat)
    ensures p >= 1
  {
    if n == 0 then 1 else 10 * Pow10(n - 1)
  }

  /** d * 10^e as an exact real. */
  function ScaleByPow10(d: nat, e: int): real {
    if e >= 0 then (d * Pow10(e)) as real else d as real / Pow10(-e) as real
  }

  // ---------------------------------------------------------------------------
  // Double.parseDouble
  // ---------------------------------------------------------------------------

  /** A Java double as the exact real it denotes, or one of the three IEEE special values. */
  datatype JavaDouble = Finite(value: real) | NaN | PositiveInfinity | NegativeInfinity

  /** The tail `s` that may follow a decimal's digits: nothing, or one of the suffixes f, F, d, D. */
  predicate IsTypeSuffix(s: string) {
    s == [] || s == "f" || s == "F" || s == "d" || s == "D"
  }

  /** The exponent part `[eE][+-]?digits` followed by an optional type suffix, as a signed exponent. */
  function ParseExponent(s: string): Option<int> {
    if s == [] || IsTypeSuffix(s) then Some(0)
    else if s[0] != 'e' && s[0] != 'E' then None
    else
      var signLen := if |s| > 1 && (s[1] == '+' || s[1] == '-') then 1 else 0;
      var start := 1 + signLen;
      var end := DigitRunEnd(s, start);
      if end == start || !IsTypeSuffix(s[end..]) then None
      else
        var magnitude: int := DigitsValue(s[start..end]);
        Some(if signLen == 1 && s[1] == '-' then -magnitude else magnitude)
  }

  /** An unsigned decimal: digits, an optional '.', digits (at least one in all), then the exponent part. */
  function ParseUnsignedDecimal(s: string): Option<real> {
    var a := DigitRunEnd(s, 0);
    var fracStart := if a < |s| && s[a] == '.' then a + 1 else a;
    var b := DigitRunEnd(s, fracStart);
    if a + (b - fracStart) == 0 then None
    else
      match ParseExponent(s[b..])
      case None => None
      case Some(e) =>
        var mantissa := DigitsValue(s[..a] + s[fracStart..b]);
        Some(ScaleByPow10(mantissa, e - (b - fracStart)))
  }

  /**
   * Double.parseDouble: trims, takes an optional sign, then "NaN", "Infinity" or a decimal
   * with optional fraction, exponent and f/d suffix. None stands for NumberFormatException.
   * The value is the exact real the decimal denotes (no rounding to a double); hexadecimal
   * floating literals are reported as unparseable.
   */
  function ParseDouble(token: string): (r: Option<JavaDouble>)
    ensures r.Some? ==> Trim(token) != []
  {
    var t := Trim(token);
    var negative := |t| > 0 && t[0] == '-';
    var body := if |t| > 0 && (t[0] == '-' || t[0] == '+') then t[1..] else t;
    if body == "NaN" then Some(NaN)
    else if body == "Infinity" then Some(if negative then NegativeInfinity else PositiveInfinity)
    else
      match ParseUnsignedDecimal(body)
      case None => None
      case Some(v) => Some(Finite(if negative then -v else v))
  }

  /** A non-empty digit string is its own trim. */
  lemma TrimDigits(s: string)
    requires s != [] && AllDigits(s)
    ensures Trim(s) == s
  {
    assert !IsTrimmable(s[0]);
    assert LeadingCount(s) == 0;
    assert !IsTrimmable(s[|s| - 1]);
    assert TrailingCount(s) == 0;
  }

  /** A non-empty digit string reads as the integer it spells. */
  lemma UnsignedDigits(s: string)
    requires s != [] && AllDigits(s)
    ensures ParseUnsignedDecimal(s) == Some(DigitsValue(s) as real)
  {
    var a := DigitRunEnd(s, 0);
    assert a == |s|;
    assert DigitRunEnd(s, a) == a;
    assert s[a..] == [];
    assert ParseExponent(s[a..]) == Some(0);
    assert s[..a] + s[a..a] == s;
  }

  /** Parsing the decimal String.valueOf(n) gives back n. */
  lemma ParseDecimalOfNat(n: nat)
    ensures ParseDouble(NatToDecimal(n)) == Some(Finite(n as real))
  {
    var s := NatToDecimal(n);
    TrimDigits(s);
    assert IsDigit(s[0]);
    assert s != "NaN" && s != "Infinity" by { assert s[0] != 'N' && s[0] != 'I'; }
    UnsignedDigits(s);
    DecimalRoundTrip(n);
  }

  /** A string that neither starts nor ends with a character up to U+0020 is its own trim. */
  lemma TrimUntrimmed(s: string)
    requires s != [] && !IsTrimmable(s[0]) && !IsTrimmable(s[|s| - 1])
    ensures Trim(s) == s
  {
    assert LeadingCount(s) == 0;
    assert TrailingCount(s) == 0;
  }

  /** Finding the end of a digit run inside `r` is the same whether or not `p` stands in front of it. */
  lemma {:induction false} DigitRunEndShift(p: string, r: string, i: nat)
    requires i <= |r|
    ensures DigitRunEnd(p + r, |p| + i) == |p| + DigitRunEnd(r, i)
    decreases |r| - i
  {
    if i < |r| {
      assert (p + r)[|p| + i] == r[i];
      if IsDigit(r[i]) {
        DigitRunEndShift(p, r, i + 1);
      }
    }
  }

  /** The digit run at the start of d + r is d when r does not start with a digit. */
  lemma {:induction false} DigitRunEndOfDigits(d: string, r: string)
    requires AllDigits(d) && (r == [] || !IsDigit(r[0]))
    ensures DigitRunEnd(d + r, 0) == |d|
  {
    if d != [] {
      var s := d + r;
      assert s == [d[0]] + (d[1..] + r);
      assert AllDigits(d[1..]) by {
        assert forall k :: 0 <= k < |d| - 1 ==> d[1..][k] == d[k + 1];
      }
      DigitRunEndOfDigits(d[1..], r);
      DigitRunEndShift([d[0]], d[1..] + r, 0);
      assert IsDigit(s[0]);
    } else {
      assert d + r == r;
    }
  }

  /** Appending one digit l: 10 (x q + y) + l == x (10 q) + (10 y + l). */
  lemma ShiftOneDigit(x: int, y: int, q: int, l: int)
    ensures 10 * (x * q + y) + l == x * (10 * q) + (10 * y + l)
  {
  }

  /** The digits of d1 followed by those of d2 spell d1's value shifted by |d2| places plus d2's. */
  lemma {:induction false} DigitsValueAppend(d1: string, d2: string)
    requires AllDigits(d1) && AllDigits(d2)
    ensures AllDigits(d1 + d2)
    ensures DigitsValue(d1 + d2) == DigitsValue(d1) * Pow10(|d2|) + DigitsValue(d2)
    decreases |d2|
  {
    var s := d1 + d2;
    assert AllDigits(s) by {
      assert forall j :: 0 <= j < |s| ==> s[j] == if j < |d1| then d1[j] else d2[j - |d1|];
    }
    if d2 == [] {
      assert s == d1;
    } else {
      var d2' := d2[..|d2| - 1];
      var last := d2[|d2| - 1] as int - '0' as int;
      assert s[..|s| - 1] == d1 + d2';
      assert s[|s| - 1] == d2[|d2| - 1];
      assert AllDigits(d2');
      DigitsValueAppend(d1, d2');
      var x, y, q := DigitsValue(d1), DigitsValue(d2'), Pow10(|d2'|);
      assert DigitsValue(s) == 10 * (x * q + y) + last;
      assert DigitsValue(d2) == 10 * y + last;
      assert Pow10(|d2|) == 10 * q;
      ShiftOneDigit(x, y, q, last);
    }
  }

  /** The integer digit run of d1 "." d2 ends at the point. */
  lemma IntegerRunOfDecimal(d1: string, d2: string)
    requires AllDigits(d1)
    ensures DigitRunEnd(d1 + "." + d2, 0) == |d1|
  {
    var s := d1 + "." + d2;
    assert s == d1 + ("." + d2);
    assert ("." + d2)[0] == '.';
    DigitRunEndOfDigits(d1, "." + d2);
  }

  /** The fraction digit run of d1 "." d2 runs to the end. */
  lemma FractionRunOfDecimal(d1: string, d2: string)
    requires AllDigits(d2)
    ensures DigitRunEnd(d1 + "." + d2, |d1| + 1) == |d1 + "." + d2|
  {
    DigitRunEndShift(d1 + ".", d2, 0);
    assert d2 + [] == d2;
    DigitRunEndOfDigits(d2, []);
  }

  /** The pieces of d1 "." d2. */
  lemma DecimalPieces(d1: string, d2: string)
    ensures var s := d1 + "." + d2;
      s[|d1|] == '.' && s[..|d1|] == d1 && s[|d1| + 1..|s|] == d2 && s[|s|..] == []
  {
    var s := d1 + "." + d2;
    assert s[..|d1|] == d1;
    SliceShift(d1 + ".", d2, 0, |d2|);
    assert d2[0..|d2|] == d2;
  }

  /** m == a p + b with p > 0 gives m / p == a + b / p. */
  lemma RealShiftedQuotient(m: real, a: real, b: real, p: real)
    requires p > 0.0 && m == a * p + b
    ensures m / p == a + b / p
  {
  }

  lemma NatProductAsReal(x: nat, p: nat)
    ensures (x * p) as real == x as real * p as real
  {
  }

  /** Scaling x 10^n + y down by n places gives x + y / 10^n. */
  lemma ScaleDownShifted(m: nat, x: nat, y: nat, n: nat)
    requires m == x * Pow10(n) + y
    ensures ScaleByPow10(m, 0 - n) == x as real + y as real / Pow10(n) as real
  {
    var p := Pow10(n);
    assert m as real == x as real * p as real + y as real by { NatProductAsReal(x, p); }
    if n == 0 {
      assert p == 1;
      assert ScaleByPow10(m, 0 - n) == m as real;
    } else {
      assert ScaleByPow10(m, 0 - n) == m as real / p as real;
      RealShiftedQuotient(m as real, x as real, y as real, p as real);
    }
  }

  /** d1 "." d2 with digits d1, d2, not both empty, is the mantissa d1 d2 scaled down by |d2| places. */
  lemma DecimalFractionScaled(d1: string, d2: string)
    requires AllDigits(d1) && AllDigits(d2) && |d1| + |d2| > 0
    ensures AllDigits(d1 + d2)
    ensures ParseUnsignedDecimal(d1 + "." + d2) == Some(ScaleByPow10(DigitsValue(d1 + d2), 0 - |d2|))
  {
    var s := d1 + "." + d2;
    IntegerRunOfDecimal(d1, d2);
    FractionRunOfDecimal(d1, d2);
    DecimalPieces(d1, d2);
    assert ParseExponent(s[|s|..]) == Some(0);
    DigitsValueAppend(d1, d2);
    assert s[..|d1|] + s[|d1| + 1..|s|] == d1 + d2;
  }

  /** The mantissa d1 d2 scaled down by |d2| places is d1 + d2 / 10^|d2|. */
  lemma MantissaValue(d1: string, d2: string)
    requires AllDigits(d1) && AllDigits(d2)
    ensures AllDigits(d1 + d2)
    ensures ScaleByPow10(DigitsValue(d1 + d2), 0 - |d2|)
      == DigitsValue(d1) as real + DigitsValue(d2) as real / Pow10(|d2|) as real
  {
    DigitsValueAppend(d1, d2);
    ScaleDownShifted(DigitsValue(d1 + d2), DigitsValue(d1), DigitsValue(d2), |d2|);
  }

  /** d1 "." d2 with digits d1, d2, not both empty, reads as d1 + d2 / 10^|d2|. */
  lemma DecimalFractionValue(d1: string, d2: string)
    requires AllDigits(d1) && AllDigits(d2) && |d1| + |d2| > 0
    ensures var r := ParseUnsignedDecimal(d1 + "." + d2);
      r.Some? && r.value == DigitsValue(d1) as real + DigitsValue(d2) as real / Pow10(|d2|) as real
  {
    DecimalFractionScaled(d1, d2);
    MantissaValue(d1, d2);
  }

  /** A character that may start or end an unsigned decimal without exponent: a digit or '.'. */
  predicate IsDecimalEnd(c: char) {
    c == '.' || IsDigit(c)
  }

  /** Double.parseDouble of a sign followed by an unsigned decimal body of value v is v, negated under '-'. */
  lemma ParseSignedDecimal(sign: string, body: string, v: real)
    requires sign == [] || sign == "+" || sign == "-"
    requires body != [] && IsDecimalEnd(body[0]) && IsDecimalEnd(body[|body| - 1])
    requires var u := ParseUnsignedDecimal(body); u.Some? && u.value == v
    ensures var r := ParseDouble(sign + body);
      r.Some? && r.value == Finite(if sign == "-" then -v else v)
  {
    var t := sign + body;
    assert t[|t| - 1] == body[|body| - 1];
    assert sign == [] ==> t[0] == body[0];
    TrimUntrimmed(t);
    assert (if |t| > 0 && (t[0] == '-' || t[0] == '+') then t[1..] else t) == body;
    assert body != "NaN" && body != "Infinity" by {
      assert body[0] != 'N' && body[0] != 'I';
    }
  }

  /**
   * Double.parseDouble of an optionally signed d1 "." d2 (digits, not both empty) is the
   * exact real d1 + d2 / 10^|d2|, negated under a minus sign.
   */
  lemma ParseDecimalFraction(sign: string, d1: string, d2: string, v: real)
    requires sign == [] || sign == "+" || sign == "-"
    requires AllDigits(d1) && AllDigits(d2) && |d1| + |d2| > 0
    requires v == DigitsValue(d1) as real + DigitsValue(d2) as real / Pow10(|d2|) as real
    ensures var r := ParseDouble(sign + (d1 + "." + d2));
      r.Some? && r.value == Finite(if sign == "-" then -v else v)
  {
    var body := d1 + "." + d2;
    DecimalFractionValue(d1, d2);
    assert IsDecimalEnd(body[0]) && IsDecimalEnd(body[|body| - 1]);
    ParseSignedDecimal(sign, body, v);
  }
}
