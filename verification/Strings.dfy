/** Splitting, joining and printing strings, as Python and Go do alike. */
module Strings {

  function Split(s: string, sep: char): (parts: seq<string>)
    ensures |parts| >= 1
  {
    if s == "" then [""]
    else
      var rest := Split(s[1..], sep);
      if s[0] == sep then [""] + rest else [[s[0]] + rest[0]] + rest[1..]
  }

  function Join(parts: seq<string>, sep: char): string {
    if parts == [] then ""
    else if |parts| == 1 then parts[0]
    else parts[0] + [sep] + Join(parts[1..], sep)
  }

  lemma {:induction false} SplitAtSeparator(a: string, b: string, sep: char)
    ensures Split(a + [sep] + b, sep) == Split(a, sep) + Split(b, sep)
  {
    if a == "" {
      assert a + [sep] + b == [sep] + b;
      assert ([sep] + b)[1..] == b;
    } else {
      assert (a + [sep] + b)[1..] == a[1..] + [sep] + b;
      SplitAtSeparator(a[1..], b, sep);
    }
  }

  lemma {:induction false} SplitWithoutSeparator(s: string, sep: char)
    requires sep !in s
    ensures Split(s, sep) == [s]
  {
    if s != "" {
      SplitWithoutSeparator(s[1..], sep);
      assert s == [s[0]] + s[1..];
    }
  }

  /** No part holds the separator. */
  lemma {:induction false} PartsHoldNoSeparator(s: string, sep: char)
    ensures forall p :: p in Split(s, sep) ==> sep !in p
  {
    if s != "" { PartsHoldNoSeparator(s[1..], sep); }
  }

  lemma {:induction false} JoinOfSplit(s: string, sep: char)
    ensures Join(Split(s, sep), sep) == s
  {
    if s != "" {
      JoinOfSplit(s[1..], sep);
      var rest := Split(s[1..], sep);
      if s[0] == sep {
        assert ([""] + rest)[1..] == rest;
      } else if |rest| > 1 {
        assert ([[s[0]] + rest[0]] + rest[1..])[1..] == rest[1..];
      }
    }
  }

  lemma {:induction false} JoinAtSeparator(front: seq<string>, back: seq<string>, sep: char)
    requires front != [] && back != []
    ensures Join(front + back, sep) == Join(front, sep) + [sep] + Join(back, sep)
  {
    if |front| == 1 {
      assert (front + back)[1..] == back;
    } else {
      assert (front + back)[1..] == front[1..] + back;
      JoinAtSeparator(front[1..], back, sep);
    }
  }

  // ---------- searching ----------

  /** Where c first occurs in s; past the end if nowhere. */
  function IndexOf(s: string, c: char): (i: nat)
    ensures i <= |s| && c !in s[..i] && (i < |s| ==> s[i] == c) && (i < |s| <==> c in s)
  {
    if s == "" || s[0] == c then 0
    else
      var i := 1 + IndexOf(s[1..], c);
      assert s[..i] == [s[0]] + s[1..][..i - 1];
      i
  }

  lemma FirstOccurrence(s: string, c: char, i: nat)
    requires i < |s| && s[i] == c && c !in s[..i]
    ensures IndexOf(s, c) == i
  {
  }

  // ---------- decimal numbers ----------

  function Digit(k: nat): (c: char)
    requires k < 10
    ensures c != '-' && c as int == '0' as int + k
  {
    ('0' as int + k) as char
  }

  function Decimal(n: nat): (s: string)
    ensures s != "" && '-' !in s
  {
    (if n < 10 then "" else Decimal(n / 10)) + [Digit(n % 10)]
  }

  /** Go's %d and Python's str: a sign, then digits. */
  function Printed(n: int): string {
    if n < 0 then "-" + Decimal(-n) else Decimal(n)
  }

  /** The number a numeral stands for. */
  function Value(digits: string): int {
    if digits == "" then 0
    else 10 * Value(digits[..|digits| - 1]) + (digits[|digits| - 1] as int - '0' as int)
  }

  lemma {:induction false} DecimalReadsBack(n: nat)
    ensures Value(Decimal(n)) == n
    ensures forall c :: c in Decimal(n) ==> '0' <= c <= '9'
    ensures n > 0 ==> Decimal(n)[0] != '0'
  {
    var front := if n < 10 then "" else Decimal(n / 10);
    assert Decimal(n) == front + [Digit(n % 10)];
    assert Decimal(n)[..|Decimal(n)| - 1] == front;
    if n >= 10 { DecimalReadsBack(n / 10); }
  }

  /** The sign and the digits of a number. */
  lemma PrintedReadsBack(n: int)
    ensures n >= 0 ==> Value(Printed(n)) == n && '-' !in Printed(n)
    ensures n < 0 ==> Printed(n)[0] == '-' && Value(Printed(n)[1..]) == -n && '-' !in Printed(n)[1..]
  {
    if n >= 0 {
      DecimalReadsBack(n);
    } else {
      DecimalReadsBack(-n);
      assert ("-" + Decimal(-n))[1..] == Decimal(-n);
    }
  }

  lemma {:induction false} DecimalIsInjective(m: nat, n: nat)
    requires Decimal(m) == Decimal(n)
    ensures m == n
  {
    var a, b := Decimal(m), Decimal(n);
    assert a[|a| - 1] == Digit(m % 10) && b[|b| - 1] == Digit(n % 10);
    assert m % 10 == n % 10;
    assert a[..|a| - 1] == if m < 10 then "" else Decimal(m / 10);
    assert b[..|b| - 1] == if n < 10 then "" else Decimal(n / 10);
    if m >= 10 && n >= 10 { DecimalIsInjective(m / 10, n / 10); }
  }
}
