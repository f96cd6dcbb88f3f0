/**
 * The JavaScript string operations the application relies on, over `seq<char>`:
 * white space as `\s` and `trim()` see it, ASCII case mapping, `includes`, `startsWith`,
 * `split` on one character, `replace` of a literal (first occurrence only) and the
 * `replace(/\s+/g, ' ')` normalisation.
 */
module Strings {

  type String = seq<char>

  /** The characters matched by `\s` and removed by `String.prototype.trim`. */
  predicate IsSpace(c: char) {
    c == ' ' || c == '\t' || c == '\n' || c == '\r' || c == '\U{000B}' || c == '\U{000C}'
    || c == '\U{00A0}' || c == '\U{1680}' || ('\U{2000}' <= c <= '\U{200A}')
    || c == '\U{2028}' || c == '\U{2029}' || c == '\U{202F}' || c == '\U{205F}'
    || c == '\U{3000}' || c == '\U{FEFF}'
  }

  function LowerChar(c: char): char {
    if 'A' <= c <= 'Z' then (c as int + 32) as char else c
  }

  function UpperChar(c: char): char {
    if 'a' <= c <= 'z' then (c as int - 32) as char else c
  }

  /** `toLowerCase()`, on the ASCII letters. */
  function ToLower(s: String): (r: String)
    ensures |r| == |s|
    ensures forall i :: 0 <= i < |s| ==> r[i] == LowerChar(s[i])
  {
    seq(|s|, i requires 0 <= i < |s| => LowerChar(s[i]))
  }

  lemma ToLowerIdempotent(s: String)
    ensures ToLower(ToLower(s)) == ToLower(s)
  {
  }

  /** `s.startsWith(p)`. */
  predicate StartsWith(s: String, p: String) {
    |p| <= |s| && s[..|p|] == p
  }

  /** `s.includes(sub)`: `sub` occurs somewhere in `s` (the empty string occurs everywhere). */
  predicate Contains(s: String, sub: String)
    decreases |s|
  {
    StartsWith(s, sub) || (|s| > 0 && Contains(s[1..], sub))
  }

  /** `includes` finds exactly the occurrences that start at some offset. */
  lemma {:induction false} ContainsAt(s: String, sub: String, k: nat)
    requires k + |sub| <= |s| && s[k..k + |sub|] == sub
    ensures Contains(s, sub)
    decreases k
  {
    if k > 0 {
      assert s[1..][k - 1..k - 1 + |sub|] == s[k..k + |sub|];
      ContainsAt(s[1..], sub, k - 1);
    }
  }

  lemma ContainsInfix(a: String, b: String, c: String)
    ensures Contains(a + b + c, b)
  {
    assert (a + b + c)[|a|..|a| + |b|] == b;
    ContainsAt(a + b + c, b, |a|);
  }

  lemma ContainsEmpty(s: String)
    ensures Contains(s, [])
  {
    assert StartsWith(s, []);
  }

  /** A string contains itself, so any search term matches a tool whose field equals it. */
  lemma ContainsSelf(s: String)
    ensures Contains(s, s)
  {
    assert StartsWith(s, s);
  }

  /** A string that lacks some character of `sub` cannot contain `sub`. */
  lemma {:induction false} NotContainsMissingChar(s: String, sub: String, c: char)
    requires c in sub && c !in s
    ensures !Contains(s, sub)
    decreases |s|
  {
    if |s| > 0 {
      NotContainsMissingChar(s[1..], sub, c);
    }
  }

  /** The decimal digits. */
  predicate IsDigit(c: char) {
    '0' <= c <= '9'
  }

  function DigitChar(d: nat): char
    requires d < 10
  {
    ('0' as int + d) as char
  }

  /** `String(n)` for a non-negative integer: its decimal digits, without leading zeros. */
  function NatToString(n: nat): (r: String)
    ensures r != [] && forall i :: 0 <= i < |r| ==> IsDigit(r[i])
    ensures r[0] == '0' ==> n == 0
    decreases n
  {
    if n < 10 then [DigitChar(n)] else NatToString(n / 10) + [DigitChar(n % 10)]
  }

  /** The number a string of decimal digits denotes. */
  function DecimalValue(s: String): int
    requires forall i :: 0 <= i < |s| ==> IsDigit(s[i])
    decreases |s|
  {
    if s == [] then 0 else DecimalValue(s[..|s| - 1]) * 10 + (s[|s| - 1] as int - '0' as int)
  }

  /** A string of digits lacks every character that is not a digit. */
  lemma DigitsLack(s: String, c: char)
    requires !IsDigit(c) && forall i :: 0 <= i < |s| ==> IsDigit(s[i])
    ensures c !in s
  {
  }

  /** Reading the rendered digits back gives the number: the rendering is injective. */
  lemma {:induction false} NatToStringRoundTrip(n: nat)
    ensures DecimalValue(NatToString(n)) == n
    decreases n
  {
    if n >= 10 {
      NatToStringRoundTrip(n / 10);
      var r := NatToString(n);
      assert r[..|r| - 1] == NatToString(n / 10);
    }
  }

  /** `trimStart()`: drops the leading white space and nothing else. */
  function TrimStart(s: String): (r: String)
    ensures |r| <= |s| && r == s[|s| - |r|..]
    ensures r == [] || !IsSpace(r[0])
    ensures forall i :: 0 <= i < |s| - |r| ==> IsSpace(s[i])
    decreases |s|
  {
    if |s| > 0 && IsSpace(s[0]) then TrimStart(s[1..]) else s
  }

  /** `trimEnd()`: drops the trailing white space and nothing else. */
  function TrimEnd(s: String): (r: String)
    ensures |r| <= |s| && r == s[..|r|]
    ensures r == [] || !IsSpace(r[|r| - 1])
    ensures forall i :: |r| <= i < |s| ==> IsSpace(s[i])
    decreases |s|
  {
    if |s| > 0 && IsSpace(s[|s| - 1]) then TrimEnd(s[..|s| - 1]) else s
  }

  /** `trim()`. */
  function Trim(s: String): (r: String)
    ensures |r| <= |s|
    ensures r == [] || (!IsSpace(r[0]) && !IsSpace(r[|r| - 1]))
  {
    TrimEnd(TrimStart(s))
  }

  /** `!s.trim()`: the string is empty or all white space. */
  predicate IsBlank(s: String) {
    Trim(s) == []
  }

  lemma BlankIffAllSpace(s: String)
    ensures IsBlank(s) <==> forall i :: 0 <= i < |s| ==> IsSpace(s[i])
  {
    if forall i :: 0 <= i < |s| ==> IsSpace(s[i]) {
      AllSpaceTrimStart(s);
    } else {
      var i :| 0 <= i < |s| && !IsSpace(s[i]);
      NonSpaceNotBlank(s, i);
    }
  }

  /** A string with a character that is not white space has something left after trimming. */
  lemma NonSpaceNotBlank(s: String, i: nat)
    requires i < |s| && !IsSpace(s[i])
    ensures !IsBlank(s)
  {
    var t := TrimStart(s);
    var off := |s| - |t|;
    assert off <= i;
    assert t[i - off] == s[i];
    var r := TrimEnd(t);
    assert |r| > i - off;
  }

  lemma {:induction false} AllSpaceTrimStart(s: String)
    requires forall i :: 0 <= i < |s| ==> IsSpace(s[i])
    ensures TrimStart(s) == []
    decreases |s|
  {
    if s != [] {
      AllSpaceTrimStart(s[1..]);
    }
  }

  /** Trimming is idempotent: a trimmed string has nothing left to trim. */
  lemma TrimIdempotent(s: String)
    ensures Trim(Trim(s)) == Trim(s)
  {
    var r := Trim(s);
    if r != [] {
      assert TrimStart(r) == r;
      assert TrimEnd(r) == r;
    }
  }

  /** The characters `\s` leaves alone never touch trimming. */
  lemma TrimNoSpace(s: String)
    requires s != [] && !IsSpace(s[0]) && !IsSpace(s[|s| - 1])
    ensures Trim(s) == s
  {
  }

  /** `s.split(sep)` for a one-character separator; `"".split(sep)` is `[""]`. */
  function Split(s: String, sep: char): (parts: seq<String>)
    ensures |parts| >= 1
    ensures forall i :: 0 <= i < |parts| ==> sep !in parts[i]
    decreases |s|
  {
    if s == [] then [[]]
    else
      var rest := Split(s[1..], sep);
      if s[0] == sep then [[]] + rest
      else [[s[0]] + rest[0]] + rest[1..]
  }

  /** `parts.join(sep)`. */
  function Join(parts: seq<String>, sep: char): String
    decreases |parts|
  {
    if parts == [] then []
    else if |parts| == 1 then parts[0]
    else parts[0] + [sep] + Join(parts[1..], sep)
  }

  /** Splitting at the first separator: the text before it, then the pieces of the rest. */
  lemma {:induction false} SplitAtSeparator(a: String, b: String, sep: char)
    requires sep !in a
    ensures Split(a + [sep] + b, sep) == [a] + Split(b, sep)
    decreases |a|
  {
    var s := a + [sep] + b;
    if a == [] {
      assert s == [sep] + b && s[1..] == b;
    } else {
      assert s[1..] == a[1..] + [sep] + b;
      SplitAtSeparator(a[1..], b, sep);
      assert [a[0]] + a[1..] == a;
    }
  }

  /** Splitting and joining again with the same separator gives the string back. */
  lemma {:induction false} JoinSplit(s: String, sep: char)
    ensures Join(Split(s, sep), sep) == s
    decreases |s|
  {
    if s != [] {
      var rest := Split(s[1..], sep);
      JoinSplit(s[1..], sep);
      if s[0] == sep {
        assert Split(s, sep) == [[]] + rest;
      } else {
        var parts := Split(s, sep);
        assert parts == [[s[0]] + rest[0]] + rest[1..];
        if |rest| == 1 {
          assert Join(rest, sep) == rest[0];
        } else {
          assert Join(rest, sep) == rest[0] + [sep] + Join(rest[1..], sep);
          assert parts[1..] == rest[1..];
        }
      }
    }
  }

  /** Joining pieces that do not hold the separator and splitting again gives the pieces back. */
  lemma {:induction false} SplitJoin(parts: seq<String>, sep: char)
    requires parts != [] && forall i :: 0 <= i < |parts| ==> sep !in parts[i]
    ensures Split(Join(parts, sep), sep) == parts
    decreases |parts|
  {
    if |parts| == 1 {
      SplitNoSep(parts[0], sep);
    } else {
      var rest := parts[1..];
      assert forall i :: 0 <= i < |rest| ==> sep !in rest[i] by {
        forall i | 0 <= i < |rest|
          ensures sep !in rest[i]
        {
          assert rest[i] == parts[i + 1];
        }
      }
      SplitJoin(rest, sep);
      SplitAtSeparator(parts[0], Join(rest, sep), sep);
      assert [parts[0]] + rest == parts;
    }
  }

  /** Words of `s.split(' ').filter(Boolean)`: the non-empty pieces between single spaces. */
  function Words(s: String): (r: seq<String>)
    ensures forall i :: 0 <= i < |r| ==> r[i] != [] && ' ' !in r[i]
    ensures forall w :: w in r <==> w in Split(s, ' ') && w != []
  {
    NonEmpty(Split(s, ' '))
  }

  function NonEmpty(parts: seq<String>): (r: seq<String>)
    ensures forall w :: w in r <==> w in parts && w != []
    ensures forall i :: 0 <= i < |r| ==> r[i] != []
    ensures (forall i :: 0 <= i < |parts| ==> ' ' !in parts[i]) ==> forall i :: 0 <= i < |r| ==> ' ' !in r[i]
  {
    if parts == [] then []
    else (if parts[0] != [] then [parts[0]] else []) + NonEmpty(parts[1..])
  }

  /** A list without empty entries is kept whole. */
  lemma {:induction false} NonEmptyOfNonEmpty(parts: seq<String>)
    requires forall i :: 0 <= i < |parts| ==> parts[i] != []
    ensures NonEmpty(parts) == parts
    decreases |parts|
  {
    if parts != [] {
      var rest := parts[1..];
      assert forall i :: 0 <= i < |rest| ==> rest[i] != [] by {
        forall i | 0 <= i < |rest|
          ensures rest[i] != []
        {
          assert rest[i] == parts[i + 1];
        }
      }
      NonEmptyOfNonEmpty(rest);
      assert [parts[0]] + rest == parts;
    }
  }

  /** A string without spaces that is not empty is its own single word. */
  lemma {:induction false} WordsOfWord(s: String)
    requires s != [] && ' ' !in s
    ensures Words(s) == [s]
  {
    SplitNoSep(s, ' ');
    assert NonEmpty([s]) == [s] + NonEmpty([]);
  }

  lemma {:induction false} SplitNoSep(s: String, sep: char)
    requires sep !in s
    ensures Split(s, sep) == [s]
    decreases |s|
  {
    if s != [] {
      SplitNoSep(s[1..], sep);
      assert [s[0]] + s[1..] == s;
    }
  }

  /** `s.replace(pat, rep)` with a string pattern: only the first occurrence is replaced. */
  function ReplaceFirst(s: String, pat: String, rep: String): (r: String)
    decreases |s|
  {
    if StartsWith(s, pat) then rep + s[|pat|..]
    else if s == [] then []
    else [s[0]] + ReplaceFirst(s[1..], pat, rep)
  }

  /** Without an occurrence of the pattern, `replace` changes nothing. */
  lemma {:induction false} ReplaceFirstAbsent(s: String, pat: String, rep: String)
    requires !Contains(s, pat)
    ensures ReplaceFirst(s, pat, rep) == s
    decreases |s|
  {
    if s != [] {
      ReplaceFirstAbsent(s[1..], pat, rep);
    }
  }

  /** The replacement removes one occurrence: the result is the text before it, `rep`, and the text after it. */
  lemma {:induction false} ReplaceFirstSplits(s: String, pat: String, rep: String) returns (k: nat)
    requires Contains(s, pat)
    ensures k + |pat| <= |s| && s[k..k + |pat|] == pat
    ensures ReplaceFirst(s, pat, rep) == s[..k] + rep + s[k + |pat|..]
    decreases |s|
  {
    if StartsWith(s, pat) {
      k := 0;
    } else {
      var k' := ReplaceFirstSplits(s[1..], pat, rep);
      k := k' + 1;
      assert s[k..k + |pat|] == s[1..][k'..k' + |pat|];
      assert s[..k] == [s[0]] + s[1..][..k'];
      assert s[k + |pat|..] == s[1..][k' + |pat|..];
    }
  }

  /** No two adjacent white-space characters. */
  predicate NoSpaceRuns(s: String) {
    forall i :: 0 <= i < |s| - 1 ==> !(IsSpace(s[i]) && IsSpace(s[i + 1]))
  }

  /** The only white space left is the plain space. */
  predicate OnlyPlainSpaces(s: String) {
    forall i :: 0 <= i < |s| ==> IsSpace(s[i]) ==> s[i] == ' '
  }

  /** `s.replace(/\s+/g, ' ')`: every maximal run of white space becomes one space. */
  function CollapseSpaces(s: String): (r: String)
    ensures s == [] <==> r == []
    ensures s != [] && IsSpace(s[0]) ==> r[0] == ' '
    ensures s != [] && !IsSpace(s[0]) ==> r[0] == s[0]
    ensures |r| <= |s|
    ensures NoSpaceRuns(r) && OnlyPlainSpaces(r)
    decreases |s|
  {
    if s == [] then []
    else if IsSpace(s[0]) then [' '] + CollapseSpaces(TrimStart(s[1..]))
    else [s[0]] + CollapseSpaces(s[1..])
  }

  /** A run-free, plain-space string stays so when a slice is taken from it. */
  lemma SliceKeepsNormal(s: String, i: nat, j: nat)
    requires i <= j <= |s|
    requires NoSpaceRuns(s) && OnlyPlainSpaces(s)
    ensures NoSpaceRuns(s[i..j]) && OnlyPlainSpaces(s[i..j])
  {
    var t := s[i..j];
    forall k | 0 <= k < |t| - 1
      ensures !(IsSpace(t[k]) && IsSpace(t[k + 1]))
    {
      assert t[k] == s[i + k] && t[k + 1] == s[i + k + 1];
    }
    forall k | 0 <= k < |t|
      ensures IsSpace(t[k]) ==> t[k] == ' '
    {
      assert t[k] == s[i + k];
    }
  }

  /** `s.substring(0, n)` for a non-negative `n`. */
  function Prefix(s: String, n: nat): (r: String)
    ensures |r| == if |s| < n then |s| else n
    ensures r == s[..|r|]
  {
    if |s| <= n then s else s[..n]
  }

  /**
   * `text.replace(/\s+/g, ' ').trim().substring(0, 4000)`, the page-text normalisation used before
   * a page is sent to the language model.
   */
  function NormalizePageText(text: String): (r: String)
    ensures |r| <= 4000
  {
    Prefix(Trim(CollapseSpaces(text)), 4000)
  }

  /**
   * Normalised page text has no white-space runs, only plain spaces and no leading space; it has no
   * trailing space either unless the 4000-character cut lands just after one.
   */
  lemma NormalizePageTextShape(text: String)
    ensures var r := NormalizePageText(text);
      NoSpaceRuns(r) && OnlyPlainSpaces(r) && (r == [] || !IsSpace(r[0]))
      && (|Trim(CollapseSpaces(text))| <= 4000 ==> r == [] || !IsSpace(r[|r| - 1]))
  {
    var t := Trim(CollapseSpaces(text));
    TrimKeepsNormal(CollapseSpaces(text));
    PrefixKeepsNormal(t, 4000);
    var r := Prefix(t, 4000);
    assert r != [] ==> r[0] == t[0];
  }

  /** Trimming a run-free, plain-space string keeps it so. */
  lemma TrimKeepsNormal(s: String)
    requires NoSpaceRuns(s) && OnlyPlainSpaces(s)
    ensures NoSpaceRuns(Trim(s)) && OnlyPlainSpaces(Trim(s))
  {
    var a := TrimSliceOf(s);
    SliceKeepsNormal(s, a, a + |Trim(s)|);
  }

  lemma PrefixKeepsNormal(s: String, n: nat)
    requires NoSpaceRuns(s) && OnlyPlainSpaces(s)
    ensures NoSpaceRuns(Prefix(s, n)) && OnlyPlainSpaces(Prefix(s, n))
  {
    var r := Prefix(s, n);
    SliceKeepsNormal(s, 0, |r|);
    assert r == s[0..|r|];
  }

  /** A lower-cased string stays lower-case when trimmed. */
  lemma TrimKeepsLower(s: String)
    ensures var t := Trim(ToLower(s)); ToLower(t) == t
  {
    var u := ToLower(s);
    var a := TrimSliceOf(u);
    LowerPiece(s, Trim(u), a);
  }

  /** Lower-casing neither adds nor removes white space at the ends, so a trimmed string stays trimmed. */
  lemma LowerKeepsTrimmed(t: String)
    requires Trim(t) == t
    ensures Trim(ToLower(t)) == ToLower(t)
  {
    var u := ToLower(t);
    if u != [] {
      assert u[0] == LowerChar(t[0]) && u[|u| - 1] == LowerChar(t[|t| - 1]);
      TrimNoSpace(u);
    }
  }

  /** Trimming adds no character. */
  lemma TrimKeepsMissingChar(s: String, c: char)
    requires c !in s
    ensures c !in Trim(s)
  {
    var t := Trim(s);
    var a := TrimSliceOf(s);
    forall j | 0 <= j < |t|
      ensures t[j] != c
    {
      assert t[j] == s[a + j];
    }
  }

  /** Lower-casing turns no character into a character that is not a letter. */
  lemma LowerKeepsMissingChar(t: String, c: char)
    requires c !in t && !('a' <= c <= 'z')
    ensures c !in ToLower(t)
  {
    var u := ToLower(t);
    forall i | 0 <= i < |u|
      ensures u[i] != c
    {
      assert u[i] == LowerChar(t[i]);
    }
  }

  /** Any piece of a lower-cased string is lower-case. */
  lemma LowerPiece(s: String, t: String, a: nat)
    requires a + |t| <= |s| && t == ToLower(s)[a..a + |t|]
    ensures ToLower(t) == t
  {
    var lt := ToLower(t);
    forall i | 0 <= i < |t|
      ensures lt[i] == t[i]
    {
      var c := s[a + i];
      assert t[i] == ToLower(s)[a + i] == LowerChar(c);
      assert LowerChar(LowerChar(c)) == LowerChar(c);
    }
    assert lt == t;
  }

  /** `trim()` keeps one contiguous piece of its input. */
  lemma TrimSliceOf(s: String) returns (a: nat)
    ensures a + |Trim(s)| <= |s| && Trim(s) == s[a..a + |Trim(s)|]
  {
    var u := TrimStart(s);
    a := |s| - |u|;
    var t := TrimEnd(u);
    assert u == s[a..];
    assert t == u[..|t|];
    assert u[..|t|] == s[a..a + |t|];
  }
}
