/**
 * The .NET string operations the core relies on, on `seq<char>`:
 * `string.Join`, `string.Split(char)`, `Contains`, `StartsWith`,
 * `TrimStart(char)`, `TrimEnd(char)`, ASCII `ToLowerInvariant`,
 * `char.IsWhiteSpace` and decimal rendering of integers.
 */
module Strings {

  predicate StartsWith(s: string, prefix: string) {
    |prefix| <= |s| && s[..|prefix|] == prefix
  }

  /** `s.Contains(t)`: t occurs in s starting at some position. */
  predicate Contains(s: string, t: string)
    decreases |s|
  {
    StartsWith(s, t) || (|s| > 0 && Contains(s[1..], t))
  }

  /** t occurs in s at position i. */
  predicate OccursAt(s: string, t: string, i: int) {
    0 <= i && i + |t| <= |s| && s[i..i + |t|] == t
  }

  /** Contains agrees with the positional definition of a substring. */
  lemma {:induction false} ContainsAt(s: string, t: string)
    ensures Contains(s, t) <==> exists i :: OccursAt(s, t, i)
    decreases |s|
  {
    if StartsWith(s, t) {
      assert OccursAt(s, t, 0);
    }
    if |s| > 0 {
      ContainsAt(s[1..], t);
      if Contains(s[1..], t) {
        var i :| OccursAt(s[1..], t, i);
        assert s[1..][i..i + |t|] == s[i + 1..i + 1 + |t|];
        assert OccursAt(s, t, i + 1);
      }
      if i :| OccursAt(s, t, i) {
        if i > 0 {
          assert s[1..][i - 1..i - 1 + |t|] == s[i..i + |t|];
          assert OccursAt(s[1..], t, i - 1);
        } else {
          assert StartsWith(s, t);
        }
      }
    } else {
      if i :| OccursAt(s, t, i) {
        assert i == 0 && |t| == 0;
        assert StartsWith(s, t);
      }
    }
  }

  /** `string.Join(sep, parts)`: the empty string for no parts. */
  function Join(parts: seq<string>, sep: string): string
    decreases |parts|
  {
    if |parts| == 0 then ""
    else if |parts| == 1 then parts[0]
    else parts[0] + sep + Join(parts[1..], sep)
  }

  /**
   * `s.Split(c)`: the pieces between occurrences of c, in order. There is
   * always at least one piece, no piece contains c, and joining the pieces
   * with c gives s back.
   */
  function SplitOn(s: string, c: char): (r: seq<string>)
    ensures |r| >= 1
    ensures forall i :: 0 <= i < |r| ==> c !in r[i]
    ensures Join(r, [c]) == s
    decreases |s|
  {
    if |s| == 0 then [""]
    else
      var rest := SplitOn(s[1..], c);
      if s[0] == c then
        assert Join([""] + rest, [c]) == "" + [c] + Join(rest, [c]);
        assert s == [c] + s[1..];
        [""] + rest
      else
        var r := [[s[0]] + rest[0]] + rest[1..];
        assert r[1..] == rest[1..];
        assert s == [s[0]] + s[1..];
        assert Join(r, [c]) == [s[0]] + Join(rest, [c]);
        r
  }

  /** A piece free of the separator glues onto the first piece of what follows. */
  lemma {:induction false} SplitOnPrefix(p: string, tail: string, c: char)
    requires c !in p
    ensures SplitOn(p + tail, c) == [p + SplitOn(tail, c)[0]] + SplitOn(tail, c)[1..]
    decreases |p|
  {
    var rest := SplitOn(tail, c);
    if |p| == 0 {
      assert p + tail == tail;
      assert p + rest[0] == rest[0];
    } else {
      assert (p + tail)[1..] == p[1..] + tail;
      SplitOnPrefix(p[1..], tail, c);
      assert [p[0]] + (p[1..] + rest[0]) == p + rest[0];
    }
  }

  /** Splitting the text a Join produced gives back the parts. */
  lemma {:induction false} SplitOnJoin(parts: seq<string>, c: char)
    requires |parts| >= 1
    requires forall i :: 0 <= i < |parts| ==> c !in parts[i]
    ensures SplitOn(Join(parts, [c]), c) == parts
    decreases |parts|
  {
    if |parts| == 1 {
      assert parts[0] + "" == parts[0];
      SplitOnPrefix(parts[0], "", c);
    } else {
      var tail := Join(parts[1..], [c]);
      SplitOnJoin(parts[1..], c);
      assert parts[0] + [c] + tail == parts[0] + ([c] + tail);
      SplitOnPrefix(parts[0], [c] + tail, c);
      assert ([c] + tail)[1..] == tail;
      assert SplitOn([c] + tail, c) == [""] + SplitOn(tail, c);
      assert parts[0] + "" == parts[0];
      assert parts == [parts[0]] + parts[1..];
    }
  }

  /** Appending one part to a Join adds the separator and that part. */
  lemma {:induction false} JoinSnoc(parts: seq<string>, last: string, sep: string)
    requires |parts| >= 1
    ensures Join(parts + [last], sep) == Join(parts, sep) + sep + last
    decreases |parts|
  {
    if |parts| == 1 {
      assert parts + [last] == [parts[0], last];
    } else {
      assert (parts + [last])[1..] == parts[1..] + [last];
      JoinSnoc(parts[1..], last, sep);
    }
  }

  /** Parts and a separator free of c join into a text free of c. */
  lemma {:induction false} JoinWithout(parts: seq<string>, sep: string, c: char)
    requires forall i :: 0 <= i < |parts| ==> c !in parts[i]
    requires c !in sep
    ensures c !in Join(parts, sep)
    decreases |parts|
  {
    if |parts| > 1 {
      JoinWithout(parts[1..], sep, c);
    }
  }

  /** Lines without c, each ended by c, split on c into those lines and a final empty piece. */
  lemma TerminatedLinesSplit(lines: seq<string>, c: char)
    requires |lines| >= 1
    requires forall i :: 0 <= i < |lines| ==> c !in lines[i]
    ensures SplitOn(Join(lines, [c]) + [c], c) == lines + [""]
  {
    var parts := lines + [""];
    JoinSnoc(lines, "", [c]);
    assert Join(lines, [c]) + [c] == Join(parts, [c]);
    assert forall i :: 0 <= i < |parts| ==> c !in parts[i];
    SplitOnJoin(parts, c);
  }

  /** The last piece of `s.Split(c)`, as `Split(c).LastOrDefault()` yields it. */
  function LastPiece(s: string, c: char): (r: string)
    ensures c !in r
  {
    var pieces := SplitOn(s, c);
    assert c !in pieces[|pieces| - 1];
    pieces[|pieces| - 1]
  }

  /**
   * The last piece is the longest suffix without c: it is a suffix of s and
   * either it is all of s or the character before it is c.
   */
  lemma {:induction false} LastPieceIsSuffix(s: string, c: char)
    ensures |LastPiece(s, c)| <= |s|
    ensures s[|s| - |LastPiece(s, c)|..] == LastPiece(s, c)
    ensures |LastPiece(s, c)| < |s| ==> s[|s| - |LastPiece(s, c)| - 1] == c
    decreases |s|
  {
    if |s| > 0 {
      LastPieceIsSuffix(s[1..], c);
      var rest := SplitOn(s[1..], c);
      var r := LastPiece(s, c);
      if s[0] == c {
        assert SplitOn(s, c) == [""] + rest;
      } else if |rest| == 1 {
        assert r == [s[0]] + rest[0];
        assert s == [s[0]] + s[1..];
      } else {
        assert r == rest[|rest| - 1];
      }
    }
  }

  /** The last piece of a + c + b, where b holds no c, is b. */
  lemma LastPieceAfter(a: string, b: string, c: char)
    requires c !in b
    ensures LastPiece(a + [c] + b, c) == b
  {
    var s := a + [c] + b;
    var r := LastPiece(s, c);
    LastPieceIsSuffix(s, c);
    assert forall k :: |s| - |r| <= k < |s| ==> s[k] == r[k - (|s| - |r|)];
    assert forall k :: |s| - |b| <= k < |s| ==> s[k] == b[k - (|s| - |b|)];
    assert s[|s| - |b| - 1] == c;
    assert s[|s| - |b|..] == b;
  }

  /** A string without c is its own last piece. */
  lemma LastPieceWithout(s: string, c: char)
    requires c !in s
    ensures LastPiece(s, c) == s
  {
    LastPieceIsSuffix(s, c);
    assert s[|s| - |s|..] == s;
  }

  /** `s.TrimEnd(c)`: the longest prefix of s that does not end in c. */
  function TrimEnd(s: string, c: char): (r: string)
    ensures |r| <= |s| && r == s[..|r|]
    ensures |r| == 0 || r[|r| - 1] != c
    ensures forall i :: |r| <= i < |s| ==> s[i] == c
    decreases |s|
  {
    if |s| > 0 && s[|s| - 1] == c then
      var t := s[..|s| - 1];
      assert forall i :: 0 <= i < |t| ==> t[i] == s[i];
      TrimEnd(t, c)
    else s
  }

  /** `s.TrimStart(c)`: the longest suffix of s that does not start with c. */
  function TrimStart(s: string, c: char): (r: string)
    ensures |r| <= |s| && r == s[|s| - |r|..]
    ensures |r| == 0 || r[0] != c
    ensures forall i :: 0 <= i < |s| - |r| ==> s[i] == c
    decreases |s|
  {
    if |s| > 0 && s[0] == c then
      var t := s[1..];
      assert forall i :: 0 <= i < |t| ==> t[i] == s[i + 1];
      TrimStart(t, c)
    else s
  }

  /** `char.ToLowerInvariant`, on the ASCII letters. */
  function LowerChar(ch: char): char {
    if 'A' <= ch <= 'Z' then (ch as int + 32) as char else ch
  }

  /** `s.ToLowerInvariant()`, on the ASCII letters. */
  function ToLower(s: string): (r: string)
    ensures |r| == |s|
    ensures forall i :: 0 <= i < |s| ==> r[i] == LowerChar(s[i])
  {
    seq(|s|, i requires 0 <= i < |s| => LowerChar(s[i]))
  }

  /** Lower-casing twice is lower-casing once. */
  lemma ToLowerIdempotent(s: string)
    ensures ToLower(ToLower(s)) == ToLower(s)
  {
  }

  /**
   * `char.IsWhiteSpace`: the Unicode space, line and paragraph separators
   * (categories Zs, Zl, Zp) together with U+0009 to U+000D and U+0085.
   */
  predicate IsWhiteSpace(ch: char) {
    ch == ' ' || ('\t' <= ch <= '\r') || ch == '\U{0085}' || ch == '\U{00A0}'
    || ch == '\U{1680}' || ('\U{2000}' <= ch <= '\U{200A}')
    || ch == '\U{2028}' || ch == '\U{2029}' || ch == '\U{202F}' || ch == '\U{205F}'
    || ch == '\U{3000}'
  }

  /** `string.IsNullOrWhiteSpace` for a non-null string. */
  predicate IsBlank(s: string) {
    forall i :: 0 <= i < |s| ==> IsWhiteSpace(s[i])
  }

  predicate IsDigit(ch: char) {
    '0' <= ch <= '9'
  }

  function DigitChar(d: nat): (ch: char)
    requires d < 10
    ensures IsDigit(ch)
  {
    (48 + d) as char
  }

  function DigitValue(ch: char): (d: nat)
    requires IsDigit(ch)
    ensures d < 10
  {
    ch as int - 48
  }

  /** The decimal rendering of n, as `n.ToString()` writes it. */
  function NatToString(n: nat): (r: string)
    ensures |r| >= 1
    ensures forall i :: 0 <= i < |r| ==> IsDigit(r[i])
    decreases n
  {
    if n < 10 then [DigitChar(n)] else NatToString(n / 10) + [DigitChar(n % 10)]
  }

  /** The value of a string of decimal digits. */
  function ParseNat(s: string): nat
    requires forall i :: 0 <= i < |s| ==> IsDigit(s[i])
    decreases |s|
  {
    if |s| == 0 then 0 else ParseNat(s[..|s| - 1]) * 10 + DigitValue(s[|s| - 1])
  }

  /** Rendering and parsing decimal digits are inverse. */
  lemma {:induction false} ParseNatToString(n: nat)
    ensures ParseNat(NatToString(n)) == n
    decreases n
  {
    if n >= 10 {
      var r := NatToString(n);
      assert r[..|r| - 1] == NatToString(n / 10);
      ParseNatToString(n / 10);
    }
  }

  /** The decimal rendering of an integer, with a leading '-' when negative. */
  function IntToString(i: int): string {
    if i < 0 then "-" + NatToString(-i) else NatToString(i)
  }

  /** Length of the longest prefix of s that holds no character of stop. */
  function PrefixLen(s: string, stop: set<char>): (n: nat)
    ensures n <= |s|
    ensures forall k :: 0 <= k < n ==> s[k] !in stop
    ensures n < |s| ==> s[n] in stop
    decreases |s|
  {
    if |s| == 0 || s[0] in stop then 0 else 1 + PrefixLen(s[1..], stop)
  }

  /** PrefixLen stops exactly at the end of a stop-free head followed by a stop character. */
  lemma PrefixLenOfConcat(a: string, b: string, stop: set<char>)
    requires forall k :: 0 <= k < |a| ==> a[k] !in stop
    requires |b| == 0 || b[0] in stop
    ensures PrefixLen(a + b, stop) == |a|
  {
    assert forall k :: 0 <= k < |a| ==> (a + b)[k] == a[k];
    assert |b| > 0 ==> (a + b)[|a|] == b[0];
  }
}
