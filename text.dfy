/**
 * String operations the script applies to keys, party names and column names:
 * Python's str.zfill, str.upper, str.lower and str.strip.  Case mapping and
 * whitespace are modelled for ASCII.
 */
module Text {

  /** Width every circuit id is padded to (resultados2025.py lines 26, 77-78, 153). */
  const CircuitWidth: nat := 5

  function Zeros(n: nat): (r: string)
    ensures |r| == n
    ensures forall i :: 0 <= i < n ==> r[i] == '0'
  {
    seq(n, _ => '0')
  }

  /** A leading '+' or '-', which zfill keeps in front of the padding. */
  predicate HasSign(s: string) {
    |s| > 0 && (s[0] == '+' || s[0] == '-')
  }

  /**
   * Python's `s.zfill(width)`: strings already `width` long or longer are kept as
   * they are, shorter ones get '0's on the left, after a leading sign if any.
   */
  function ZFill(s: string, width: nat): (r: string)
    ensures |r| == if |s| >= width then |s| else width
    ensures |s| >= width ==> r == s
    ensures !HasSign(s) ==> r[|r| - |s|..] == s
    ensures !HasSign(s) ==> forall i :: 0 <= i < |r| - |s| ==> r[i] == '0'
    ensures HasSign(s) ==> r[0] == s[0] && r[|r| - |s| + 1..] == s[1..]
    ensures HasSign(s) ==> forall i :: 1 <= i <= |r| - |s| ==> r[i] == '0'
  {
    if |s| >= width then s
    else if HasSign(s) then [s[0]] + Zeros(width - |s|) + s[1..]
    else Zeros(width - |s|) + s
  }

  /** Padding twice is padding once. */
  lemma {:induction false} ZFillIdempotent(s: string, width: nat)
    ensures ZFill(ZFill(s, width), width) == ZFill(s, width)
  {
  }

  /** "7" becomes "00007"; a sign stays in front: "-7" becomes "-0007". */
  lemma {:induction false} ZFillExamples()
    ensures ZFill("7", CircuitWidth) == "00007"
    ensures ZFill("-7", CircuitWidth) == "-0007"
    ensures ZFill("123456", CircuitWidth) == "123456"
  {
    assert Zeros(4) == "0000";
    assert Zeros(3) == "000";
  }

  predicate IsUpperAscii(c: char) { 'A' <= c <= 'Z' }
  predicate IsLowerAscii(c: char) { 'a' <= c <= 'z' }

  function UpperChar(c: char): (r: char)
    ensures !IsLowerAscii(r)
    ensures IsLowerAscii(c) ==> r as int == c as int - 32
    ensures !IsLowerAscii(c) ==> r == c
  {
    if IsLowerAscii(c) then (c as int - 32) as char else c
  }

  function LowerChar(c: char): (r: char)
    ensures !IsUpperAscii(r)
    ensures IsUpperAscii(c) ==> r as int == c as int + 32
    ensures !IsUpperAscii(c) ==> r == c
  {
    if IsUpperAscii(c) then (c as int + 32) as char else c
  }

  /** `str.upper()` (lines 75-76, 82, 88). */
  function Upper(s: string): (r: string)
    ensures |r| == |s|
    ensures forall i :: 0 <= i < |s| ==> r[i] == UpperChar(s[i])
  {
    seq(|s|, i requires 0 <= i < |s| => UpperChar(s[i]))
  }

  /** `str.lower()` (lines 69-70). */
  function Lower(s: string): (r: string)
    ensures |r| == |s|
    ensures forall i :: 0 <= i < |s| ==> r[i] == LowerChar(s[i])
  {
    seq(|s|, i requires 0 <= i < |s| => LowerChar(s[i]))
  }

  lemma {:induction false} UpperIdempotent(s: string)
    ensures Upper(Upper(s)) == Upper(s)
  {
    assert forall i :: 0 <= i < |s| ==> UpperChar(UpperChar(s[i])) == UpperChar(s[i]);
  }

  /** The characters Python's `str.strip()` removes, restricted to ASCII. */
  predicate IsSpace(c: char) {
    c == ' ' || 9 <= c as int <= 13 || 28 <= c as int <= 31
  }

  function TrimStart(s: string): (r: string)
    ensures |r| <= |s| && r == s[|s| - |r|..]
    ensures forall i :: 0 <= i < |s| - |r| ==> IsSpace(s[i])
    ensures r == [] || !IsSpace(r[0])
  {
    if |s| > 0 && IsSpace(s[0]) then TrimStart(s[1..]) else s
  }

  function TrimEnd(s: string): (r: string)
    ensures |r| <= |s| && r == s[..|r|]
    ensures forall i :: |r| <= i < |s| ==> IsSpace(s[i])
    ensures r == [] || !IsSpace(r[|r| - 1])
  {
    if |s| > 0 && IsSpace(s[|s| - 1]) then TrimEnd(s[..|s| - 1]) else s
  }

  /** `str.strip()`: the longest slice with no space at either end, all of it kept. */
  function Strip(s: string): (r: string)
  {
    TrimStart(TrimEnd(s))
  }

  /** What strip removes is whitespace on both sides of the result, and nothing else. */
  lemma {:induction false} StripSpec(s: string)
    ensures exists i, j :: 0 <= i <= j <= |s| && Strip(s) == s[i..j]
                        && (forall k :: 0 <= k < i ==> IsSpace(s[k]))
                        && (forall k :: j <= k < |s| ==> IsSpace(s[k]))
  {
    var e := TrimEnd(s);
    var r := TrimStart(e);
    var i, j := |e| - |r|, |e|;
    assert r == s[i..j] by {
      assert r == e[i..] && e == s[..j];
    }
    assert forall k :: 0 <= k < i ==> IsSpace(s[k]) by {
      assert forall k :: 0 <= k < i ==> s[k] == e[k];
    }
  }

  /** Nothing with a space at either end is left by strip. */
  lemma {:induction false} StripEnds(s: string)
    ensures Strip(s) == [] || (!IsSpace(Strip(s)[0]) && !IsSpace(Strip(s)[|Strip(s)| - 1]))
  {
    var e := TrimEnd(s);
    var r := TrimStart(e);
    if r != [] {
      assert r[|r| - 1] == e[|e| - 1];
    }
  }

  /** A string with no space at either end is its own strip. */
  lemma {:induction false} StripOfStripped(s: string)
    requires s == [] || (!IsSpace(s[0]) && !IsSpace(s[|s| - 1]))
    ensures Strip(s) == s
  {
  }

  /** Column-name normalisation of lines 69-70: `.str.lower().str.strip()`. */
  function NormalizeColumnName(name: string): (r: string)
  {
    Strip(Lower(name))
  }

  predicate NoUpper(s: string) {
    forall k :: 0 <= k < |s| ==> !IsUpperAscii(s[k])
  }

  /** Strip keeps a string free of upper-case letters. */
  lemma {:induction false} StripNoUpper(s: string)
    requires NoUpper(s)
    ensures NoUpper(Strip(s))
  {
    var e := TrimEnd(s);
    var r := TrimStart(e);
    assert forall k :: 0 <= k < |e| ==> e[k] == s[k];
    assert forall k :: 0 <= k < |r| ==> r[k] == e[|e| - |r| + k];
  }

  lemma {:induction false} LowerOfNoUpper(s: string)
    requires NoUpper(s)
    ensures Lower(s) == s
  {
    assert forall k :: 0 <= k < |s| ==> Lower(s)[k] == s[k];
  }

  /** Normalising a column name a second time changes nothing. */
  lemma {:induction false} NormalizeColumnNameIdempotent(name: string)
    ensures NormalizeColumnName(NormalizeColumnName(name)) == NormalizeColumnName(name)
  {
    var t := NormalizeColumnName(name);
    assert NoUpper(t) by {
      assert NoUpper(Lower(name));
      StripNoUpper(Lower(name));
    }
    LowerOfNoUpper(t);
    StripEnds(Lower(name));
    StripOfStripped(t);
  }
}
