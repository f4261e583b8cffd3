/**
 * The integer formatters of the map labels: Python's `f"{n:,}"` with every ','
 * replaced by '.' (resultados2025.py lines 208, 249) and `f"{n:+}"` (line 212).
 */
module Labels {

  predicate IsDigit(c: char) { '0' <= c <= '9' }

  predicate AllDigits(s: string) {
    forall i :: 0 <= i < |s| ==> IsDigit(s[i])
  }

  function DigitChar(d: nat): (c: char)
    requires d < 10
    ensures IsDigit(c) && c as int - '0' as int == d
  {
    ('0' as int + d) as char
  }

  /** The number a string of decimal digits denotes. */
  function DigitsValue(s: string): nat
    requires AllDigits(s)
  {
    if s == [] then 0
    else DigitsValue(s[..|s| - 1]) * 10 + (s[|s| - 1] as int - '0' as int)
  }

  /** `str(n)` for a natural number: its decimal digits without leading zeros. */
  function Digits(n: nat): (r: string)
    ensures |r| >= 1 && AllDigits(r)
    ensures r[0] == '0' ==> n == 0
    ensures DigitsValue(r) == n
  {
    if n < 10 then [DigitChar(n)]
    else
      var r := Digits(n / 10) + [DigitChar(n % 10)];
      assert r[..|r| - 1] == Digits(n / 10);
      r
  }

  /** Inserts '.' between groups of three digits, counting from the right. */
  function Group3(s: string): (r: string)
    decreases |s|
  {
    if |s| <= 3 then s else Group3(s[..|s| - 3]) + "." + s[|s| - 3..]
  }

  /** `f"{n:,}".replace(",", ".")`. */
  function FormatThousands(n: int): string {
    if n < 0 then "-" + Group3(Digits(-n)) else Group3(Digits(n))
  }

  /** `f"{n:+}"`: the sign always written, "+0" for zero. */
  function FormatSigned(n: int): string {
    (if n < 0 then "-" else "+") + Digits(if n < 0 then -n else n)
  }

  /** `t.replace(".", "")`. */
  function RemoveDots(t: string): string {
    if t == [] then []
    else (if t[0] == '.' then [] else [t[0]]) + RemoveDots(t[1..])
  }

  /** `t.split(".")`. */
  function SplitDots(t: string): (r: seq<string>)
    ensures |r| >= 1
  {
    if t == [] then [""]
    else
      var rest := SplitDots(t[1..]);
      if t[0] == '.' then [""] + rest else [[t[0]] + rest[0]] + rest[1..]
  }

  lemma {:induction false} RemoveDotsAppend(a: string, b: string)
    ensures RemoveDots(a + b) == RemoveDots(a) + RemoveDots(b)
  {
    if a == [] {
      assert a + b == b;
    } else {
      var head := if a[0] == '.' then [] else [a[0]];
      assert (a + b)[0] == a[0] && (a + b)[1..] == a[1..] + b;
      assert RemoveDots(a + b) == head + RemoveDots(a[1..] + b);
      RemoveDotsAppend(a[1..], b);
      assert RemoveDots(a) == head + RemoveDots(a[1..]);
    }
  }

  lemma {:induction false} RemoveDotsNone(a: string)
    requires '.' !in a
    ensures RemoveDots(a) == a
  {
    if a != [] {
      RemoveDotsNone(a[1..]);
    }
  }

  lemma {:induction false} SplitDotsNone(a: string)
    requires '.' !in a
    ensures SplitDots(a) == [a]
  {
    if a != [] {
      SplitDotsNone(a[1..]);
      assert [a[0]] + a[1..] == a;
    }
  }

  lemma {:induction false} SplitDotsAppend(a: string, b: string)
    requires '.' !in b
    ensures SplitDots(a + "." + b) == SplitDots(a) + [b]
  {
    if a == [] {
      assert a + "." + b == "." + b;
      assert ("." + b)[1..] == b;
      SplitDotsNone(b);
    } else {
      assert (a + "." + b)[1..] == a[1..] + "." + b;
      SplitDotsAppend(a[1..], b);
    }
  }

  lemma {:induction false} DigitsHaveNoDot(s: string)
    requires AllDigits(s)
    ensures '.' !in s
  {
    assert forall i :: 0 <= i < |s| ==> s[i] != '.' by {
      assert forall i :: 0 <= i < |s| ==> IsDigit(s[i]);
    }
  }

  /** The two parts Group3 splits a digit string of more than three characters into. */
  lemma {:induction false} DigitsSplit(s: string)
    requires AllDigits(s) && |s| > 3
    ensures AllDigits(s[..|s| - 3]) && AllDigits(s[|s| - 3..])
    ensures '.' !in s[|s| - 3..]
    ensures s == s[..|s| - 3] + s[|s| - 3..]
  {
    var b := s[|s| - 3..];
    assert forall i :: 0 <= i < |b| ==> b[i] == s[|s| - 3 + i];
    DigitsHaveNoDot(b);
  }

  lemma {:induction false} RemoveDotsJoin(g: string, b: string)
    requires '.' !in b
    ensures RemoveDots(g + "." + b) == RemoveDots(g) + b
  {
    var tail := "." + b;
    assert RemoveDots(tail) == b by {
      assert tail[0] == '.' && tail[1..] == b;
      RemoveDotsNone(b);
    }
    assert g + "." + b == g + tail;
    RemoveDotsAppend(g, tail);
  }

  /** Grouping a digit string keeps its digits. */
  lemma {:induction false} Group3Digits(s: string)
    requires AllDigits(s)
    ensures RemoveDots(Group3(s)) == s
    decreases |s|
  {
    if |s| <= 3 {
      DigitsHaveNoDot(s);
      RemoveDotsNone(s);
    } else {
      var a, b := s[..|s| - 3], s[|s| - 3..];
      DigitsSplit(s);
      RemoveDotsJoin(Group3(a), b);
      Group3Digits(a);
    }
  }

  /** The groups of a grouped digit string: the first of 1-3 digits, the others of exactly 3. */
  lemma {:induction false} Group3Groups(s: string)
    requires |s| >= 1 && AllDigits(s)
    ensures 1 <= |SplitDots(Group3(s))[0]| <= 3
    ensures forall i :: 1 <= i < |SplitDots(Group3(s))| ==> |SplitDots(Group3(s))[i]| == 3
    decreases |s|
  {
    if |s| <= 3 {
      DigitsHaveNoDot(s);
      SplitDotsNone(s);
    } else {
      var a, b := s[..|s| - 3], s[|s| - 3..];
      DigitsSplit(s);
      Group3Groups(a);
      SplitDotsAppend(Group3(a), b);
    }
  }

  /** Reads back a label made by FormatThousands. */
  function ParseThousands(t: string): int
    requires AllDigits(RemoveDots(if |t| > 0 && t[0] == '-' then t[1..] else t))
  {
    if |t| > 0 && t[0] == '-' then -(DigitsValue(RemoveDots(t[1..])) as int)
    else DigitsValue(RemoveDots(t))
  }

  /**
   * For n >= 0 the label without its dots is `str(n)`; its dot-separated groups
   * are one of 1-3 digits followed by groups of exactly 3.
   */
  lemma {:induction false} FormatThousandsGroups(n: nat)
    ensures RemoveDots(FormatThousands(n)) == Digits(n)
    ensures 1 <= |SplitDots(FormatThousands(n))[0]| <= 3
    ensures forall i :: 1 <= i < |SplitDots(FormatThousands(n))| ==> |SplitDots(FormatThousands(n))[i]| == 3
  {
    Group3Digits(Digits(n));
    Group3Groups(Digits(n));
  }

  /** The label determines the number: reading it back gives n, negative numbers included. */
  lemma {:induction false} FormatThousandsRoundTrip(n: int)
    ensures AllDigits(RemoveDots(if |FormatThousands(n)| > 0 && FormatThousands(n)[0] == '-'
                                 then FormatThousands(n)[1..] else FormatThousands(n)))
    ensures ParseThousands(FormatThousands(n)) == n
  {
    var t := FormatThousands(n);
    if n < 0 {
      Group3Digits(Digits(-n));
      assert t[1..] == Group3(Digits(-n));
    } else {
      Group3Digits(Digits(n));
      var d := Digits(n);
      assert t != [] && t[0] != '-' by {
        if |d| <= 3 {
          assert t == d;
        } else {
          Group3Prefix(d);
        }
      }
    }
  }

  /** Grouping keeps the first digit in front. */
  lemma {:induction false} Group3Prefix(s: string)
    requires |s| >= 1
    ensures |Group3(s)| >= 1 && Group3(s)[0] == s[0]
    decreases |s|
  {
    if |s| > 3 {
      Group3Prefix(s[..|s| - 3]);
    }
  }

  /** Reads back a label made by FormatSigned. */
  function ParseSigned(t: string): int
    requires |t| >= 1 && AllDigits(t[1..])
  {
    if t[0] == '-' then -(DigitsValue(t[1..]) as int) else DigitsValue(t[1..])
  }

  /** The signed label starts with '-' exactly for negative numbers and reads back to n. */
  lemma {:induction false} FormatSignedRoundTrip(n: int)
    ensures |FormatSigned(n)| >= 2 && AllDigits(FormatSigned(n)[1..])
    ensures FormatSigned(n)[0] == (if n < 0 then '-' else '+')
    ensures ParseSigned(FormatSigned(n)) == n
  {
    var t := FormatSigned(n);
    assert t[1..] == Digits(if n < 0 then -n else n);
  }
}
