/**
 * String operations of the JavaScript runtime that the client and server
 * rely on: String.prototype.trim, split on one character, Array.prototype.join,
 * the UTF-16 `length` that zod's min/max count, and ASCII lower-casing.
 */
module Text {

  /**
   * The characters JavaScript treats as white space: WhiteSpace and
   * LineTerminator of ECMA-262 section 12.2 and 12.3. Both `trim` and the
   * regular-expression class \s use this set.
   */
  predicate IsWhitespace(c: char) {
    || c == '\t' || c == '\n' || c == '\U{000B}' || c == '\U{000C}' || c == '\r' || c == ' '
    || c == '\U{00A0}' || c == '\U{1680}' || ('\U{2000}' <= c <= '\U{200A}')
    || c == '\U{2028}' || c == '\U{2029}' || c == '\U{202F}' || c == '\U{205F}'
    || c == '\U{3000}' || c == '\U{FEFF}'
  }

  predicate NoSurroundingSpace(s: string) {
    |s| == 0 || (!IsWhitespace(s[0]) && !IsWhitespace(s[|s| - 1]))
  }

  /** Drops leading white space. */
  function TrimStart(s: string): (r: string)
    ensures |r| <= |s| && r == s[|s| - |r|..]
    ensures forall i :: 0 <= i < |s| - |r| ==> IsWhitespace(s[i])
    ensures |r| == 0 || !IsWhitespace(r[0])
  {
    if |s| > 0 && IsWhitespace(s[0]) then TrimStart(s[1..]) else s
  }

  /** Drops trailing white space. */
  function TrimEnd(s: string): (r: string)
    ensures |r| <= |s| && r == s[..|r|]
    ensures forall i :: |r| <= i < |s| ==> IsWhitespace(s[i])
    ensures |r| == 0 || !IsWhitespace(r[|r| - 1])
  {
    if |s| > 0 && IsWhitespace(s[|s| - 1]) then TrimEnd(s[..|s| - 1]) else s
  }

  /** String.prototype.trim. */
  function Trim(s: string): string {
    TrimEnd(TrimStart(s))
  }

  /**
   * Trim removes white space and only white space from both ends: the result
   * has no white space at either end, is what remains of `s` after a white
   * space prefix and a white space suffix are cut off.
   */
  lemma TrimSpec(s: string)
    ensures NoSurroundingSpace(Trim(s))
    ensures var a := |s| - |TrimStart(s)|;
            && a + |Trim(s)| <= |s| && Trim(s) == s[a..a + |Trim(s)|]
            && (forall i :: 0 <= i < a ==> IsWhitespace(s[i]))
            && (forall i :: a + |Trim(s)| <= i < |s| ==> IsWhitespace(s[i]))
  {
    TrimEnds(s);
    TrimCuts(s);
  }

  lemma TrimEnds(s: string)
    ensures NoSurroundingSpace(Trim(s))
  {
    var t := TrimStart(s);
    var r := TrimEnd(t);
    if |r| > 0 {
      assert r[0] == t[0];
    }
  }

  lemma TrimCuts(s: string)
    ensures var a := |s| - |TrimStart(s)|;
            && a + |Trim(s)| <= |s| && Trim(s) == s[a..a + |Trim(s)|]
            && (forall i :: 0 <= i < a ==> IsWhitespace(s[i]))
            && (forall i :: a + |Trim(s)| <= i < |s| ==> IsWhitespace(s[i]))
  {
    var t := TrimStart(s);
    var r := TrimEnd(t);
    var a := |s| - |t|;
    TrimSlice(s, t, r, a);
  }

  lemma TrimSlice(s: string, t: string, r: string, a: nat)
    requires |t| <= |s| && a == |s| - |t| && t == s[a..]
    requires |r| <= |t| && r == t[..|r|]
    requires forall i :: |r| <= i < |t| ==> IsWhitespace(t[i])
    ensures a + |r| <= |s| && r == s[a..a + |r|]
    ensures forall i :: a + |r| <= i < |s| ==> IsWhitespace(s[i])
  {
    forall i | a + |r| <= i < |s| ensures IsWhitespace(s[i]) {
      assert s[i] == t[i - a];
    }
  }

  lemma TrimOfTrimmed(s: string)
    requires NoSurroundingSpace(s)
    ensures Trim(s) == s
  {
  }

  /** A leading white space character never survives trimming. */
  lemma {:induction false} TrimAfterSpace(c: char, s: string)
    requires IsWhitespace(c)
    ensures Trim([c] + s) == Trim(s)
  {
    assert ([c] + s)[1..] == s;
  }

  // ------------------------------------------------------------ split, join

  function Count(s: string, c: char): nat {
    if |s| == 0 then 0 else (if s[0] == c then 1 else 0) + Count(s[1..], c)
  }

  /** Array.prototype.join. */
  function Join(parts: seq<string>, sep: string): string {
    if |parts| == 0 then ""
    else if |parts| == 1 then parts[0]
    else parts[0] + sep + Join(parts[1..], sep)
  }

  /**
   * String.prototype.split with a one-character separator: one piece per
   * separator plus one, none containing the separator, and joining the pieces
   * back with the separator gives the original string.
   */
  function Split(s: string, c: char): (r: seq<string>)
    ensures |r| == Count(s, c) + 1
    ensures forall i :: 0 <= i < |r| ==> c !in r[i]
    ensures Join(r, [c]) == s
  {
    if |s| == 0 then [""]
    else
      var rest := Split(s[1..], c);
      if s[0] == c then
        assert [c] + Join(rest, [c]) == s;
        [""] + rest
      else
        var r := [[s[0]] + rest[0]] + rest[1..];
        assert r[1..] == rest[1..];
        assert Join(r, [c]) == [s[0]] + Join(rest, [c]) by {
          if |rest| > 1 {
            assert Join(rest, [c]) == rest[0] + [c] + Join(rest[1..], [c]);
          }
        }
        assert s == [s[0]] + s[1..];
        r
  }

  /** Splitting a string that has no separator gives it back whole. */
  lemma SplitWithoutSeparator(s: string, c: char)
    requires c !in s
    ensures Split(s, c) == [s]
  {
    var r := Split(s, c);
    assert |r| == 1 by { CountAbsent(s, c); }
    assert Join(r, [c]) == r[0];
  }

  lemma {:induction false} CountAbsent(s: string, c: char)
    requires c !in s
    ensures Count(s, c) == 0
  {
    if |s| > 0 {
      assert c !in s[1..];
      CountAbsent(s[1..], c);
    }
  }

  lemma {:induction false} SplitAfterPiece(a: string, b: string, c: char)
    requires c !in a
    ensures Split(a + [c] + b, c) == [a] + Split(b, c)
  {
    var s := a + [c] + b;
    if |a| == 0 {
      assert s == [c] + b;
      assert s[1..] == b;
    } else {
      assert s[1..] == a[1..] + [c] + b;
      assert c !in a[1..];
      SplitAfterPiece(a[1..], b, c);
      assert a == [a[0]] + a[1..];
    }
  }

  /** Joining separator-free pieces and splitting again gives the pieces back. */
  lemma {:induction false} SplitJoin(parts: seq<string>, c: char)
    requires |parts| > 0
    requires forall i :: 0 <= i < |parts| ==> c !in parts[i]
    ensures Split(Join(parts, [c]), c) == parts
  {
    if |parts| == 1 {
      SplitWithoutSeparator(parts[0], c);
    } else {
      SplitJoin(parts[1..], c);
      SplitAfterPiece(parts[0], Join(parts[1..], [c]), c);
      assert parts == [parts[0]] + parts[1..];
    }
  }

  /** Every piece after the first, with one blank in front. */
  function SpaceBefore(parts: seq<string>): (r: seq<string>)
    ensures |r| == |parts|
    ensures forall i :: 0 <= i < |r| ==> r[i] == " " + parts[i]
  {
    if |parts| == 0 then [] else [" " + parts[0]] + SpaceBefore(parts[1..])
  }

  lemma {:induction false} JoinPrefixFirst(x: string, parts: seq<string>, sep: string)
    requires |parts| > 0
    ensures x + Join(parts, sep) == Join([x + parts[0]] + parts[1..], sep)
  {
    var q := [x + parts[0]] + parts[1..];
    assert q[1..] == parts[1..];
  }

  /** Joining with ", " is joining with "," after putting a blank before every later piece. */
  lemma {:induction false} JoinCommaSpace(parts: seq<string>)
    requires |parts| > 0
    ensures Join(parts, ", ") == Join([parts[0]] + SpaceBefore(parts[1..]), ",")
  {
    if |parts| > 1 {
      var rest := parts[1..];
      JoinCommaSpace(rest);
      var q := [rest[0]] + SpaceBefore(rest[1..]);
      JoinPrefixFirst(" ", q, ",");
      assert [" " + rest[0]] + SpaceBefore(rest[1..]) == SpaceBefore(rest);
      var l := [parts[0]] + SpaceBefore(rest);
      assert l[1..] == SpaceBefore(rest);
      assert Join(l, ",") == parts[0] + "," + Join(SpaceBefore(rest), ",");
      assert Join(parts, ", ") == parts[0] + ", " + Join(rest, ", ");
    }
  }

  // ------------------------------------------------------------------ misc

  /** String.prototype.length: the number of UTF-16 code units. */
  function Utf16Length(s: string): (n: nat)
    ensures |s| <= n <= 2 * |s|
  {
    if |s| == 0 then 0 else (if s[0] as int < 0x1_0000 then 1 else 2) + Utf16Length(s[1..])
  }

  function LowerChar(c: char): char {
    if 'A' <= c <= 'Z' then (c as int + 32) as char else c
  }

  /** Lower-casing of the ASCII letters; other characters are left as they are. */
  function LowerAscii(s: string): (r: string)
    ensures |r| == |s|
    ensures forall i :: 0 <= i < |s| ==> r[i] == LowerChar(s[i])
  {
    if |s| == 0 then [] else [LowerChar(s[0])] + LowerAscii(s[1..])
  }
}
