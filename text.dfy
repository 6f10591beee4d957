/**
 * The string primitives of Go's standard library that the core relies on:
 * strings.Split, strings.Join, strings.TrimLeft/TrimRight with a one-character
 * cutset, strconv.Itoa and the syntax accepted by strconv.Atoi.
 */
module Text {

  /** strings.Split(s, string(sep)): the pieces between occurrences of `sep`. */
  function Split(s: string, sep: char): (r: seq<string>)
    ensures |r| >= 1
    ensures forall i :: 0 <= i < |r| ==> sep !in r[i]
  {
    if |s| == 0 then [""]
    else if s[0] == sep then [""] + Split(s[1..], sep)
    else
      var rest := Split(s[1..], sep);
      [[s[0]] + rest[0]] + rest[1..]
  }

  /** strings.Join(parts, sep). */
  function Join(parts: seq<string>, sep: string): string
  {
    if |parts| == 0 then ""
    else if |parts| == 1 then parts[0]
    else parts[0] + sep + Join(parts[1..], sep)
  }

  /** Joining the pieces of a split with the same separator gives the string back. */
  lemma {:induction false} SplitJoin(s: string, sep: char)
    ensures Join(Split(s, sep), [sep]) == s
  {
    if |s| == 0 {
    } else if s[0] == sep {
      SplitJoin(s[1..], sep);
      assert s == [sep] + s[1..];
    } else {
      SplitJoin(s[1..], sep);
      var rest := Split(s[1..], sep);
      if |rest| == 1 {
        assert s == [s[0]] + s[1..];
      } else {
        assert Join(rest, [sep]) == rest[0] + [sep] + Join(rest[1..], [sep]);
        assert s == [s[0]] + s[1..];
      }
    }
  }

  /** A piece without the separator, followed by the separator, splits off as one piece. */
  lemma {:induction false} SplitFirstPiece(a: string, rest: string, sep: char)
    requires sep !in a
    ensures Split(a + [sep] + rest, sep) == [a] + Split(rest, sep)
  {
    if |a| > 0 {
      SplitFirstPiece(a[1..], rest, sep);
      var s := a + [sep] + rest;
      assert s[0] == a[0] && s[0] != sep;
      assert s[1..] == a[1..] + [sep] + rest;
      var r := Split(s[1..], sep);
      assert r[0] == a[1..] && r[1..] == Split(rest, sep);
      assert [a[0]] + a[1..] == a;
    } else {
      assert a + [sep] + rest == [sep] + rest;
    }
  }

  /** A string without the separator splits into itself alone. */
  lemma {:induction false} SplitWhole(a: string, sep: char)
    requires sep !in a
    ensures Split(a, sep) == [a]
  {
    if |a| > 0 {
      SplitWhole(a[1..], sep);
      assert a == [a[0]] + a[1..];
    }
  }

  /**
   * Splitting a join gives the pieces back, as long as there is at least
   * one piece and none holds the separator.
   */
  lemma {:induction false} JoinSplit(parts: seq<string>, sep: char)
    requires |parts| >= 1
    requires forall i :: 0 <= i < |parts| ==> sep !in parts[i]
    ensures Split(Join(parts, [sep]), sep) == parts
  {
    if |parts| == 1 {
      SplitWhole(parts[0], sep);
    } else {
      JoinSplit(parts[1..], sep);
      SplitFirstPiece(parts[0], Join(parts[1..], [sep]), sep);
      assert parts == [parts[0]] + parts[1..];
    }
  }

  /** A split yields more than one piece exactly when the separator occurs. */
  lemma {:induction false} SplitManyPieces(s: string, sep: char)
    ensures |Split(s, sep)| > 1 <==> sep in s
  {
    if |s| > 0 && s[0] != sep {
      SplitManyPieces(s[1..], sep);
      assert sep in s <==> sep in s[1..];
    }
  }

  /** Every piece is the empty string. */
  predicate AllEmpty(parts: seq<string>)
  {
    forall i :: 0 <= i < |parts| ==> parts[i] == ""
  }

  /** The string holds nothing but the separator. */
  predicate OnlySep(s: string, sep: char)
  {
    forall j :: 0 <= j < |s| ==> s[j] == sep
  }

  /** Every piece of a split is empty exactly when the string holds nothing but separators. */
  lemma {:induction false} SplitAllEmpty(s: string, sep: char)
    ensures AllEmpty(Split(s, sep)) <==> OnlySep(s, sep)
  {
    if |s| == 0 {
    } else if s[0] == sep {
      SplitAllEmpty(s[1..], sep);
      var r, t := Split(s, sep), Split(s[1..], sep);
      assert r == [""] + t;
      if AllEmpty(t) {
        forall i | 0 <= i < |r| ensures r[i] == "" {
          if i > 0 { assert r[i] == t[i - 1]; }
        }
      }
      if AllEmpty(r) {
        forall i | 0 <= i < |t| ensures t[i] == "" {
          assert t[i] == r[i + 1];
        }
      }
      if OnlySep(s, sep) {
        forall j | 0 <= j < |s[1..]| ensures s[1..][j] == sep {
          assert s[1..][j] == s[j + 1];
        }
      }
      if OnlySep(s[1..], sep) {
        forall j | 0 <= j < |s| ensures s[j] == sep {
          if j > 0 { assert s[j] == s[1..][j - 1]; }
        }
      }
    } else {
      var r := Split(s, sep);
      assert r[0] != "" by { assert r[0][0] == s[0]; }
    }
  }

  /** strings.TrimLeft(s, string(c)): drop every leading `c`. */
  function TrimLeft(s: string, c: char): (r: string)
    ensures |r| <= |s| && r == s[|s| - |r|..]
    ensures r == [] || r[0] != c
    ensures forall i :: 0 <= i < |s| - |r| ==> s[i] == c
  {
    if |s| > 0 && s[0] == c then TrimLeft(s[1..], c) else s
  }

  /** strings.TrimRight(s, string(c)): drop every trailing `c`. */
  function TrimRight(s: string, c: char): (r: string)
    ensures |r| <= |s| && r == s[..|r|]
    ensures r == [] || r[|r| - 1] != c
    ensures forall i :: |r| <= i < |s| ==> s[i] == c
  {
    if |s| > 0 && s[|s| - 1] == c then TrimRight(s[..|s| - 1], c) else s
  }

  predicate IsDigit(ch: char) { '0' <= ch <= '9' }

  predicate AllDigits(s: string) { forall i :: 0 <= i < |s| ==> IsDigit(s[i]) }

  /**
   * The syntax strconv.Atoi accepts: an optional '+' or '-' followed by one or
   * more decimal digits (the out-of-range case is not modelled).
   */
  predicate AtoiAccepts(s: string)
  {
    if |s| > 0 && (s[0] == '+' || s[0] == '-') then |s| > 1 && AllDigits(s[1..])
    else |s| > 0 && AllDigits(s)
  }

  /** The value of a string of decimal digits. */
  function DigitsValue(s: string): nat
    requires AllDigits(s)
  {
    if |s| == 0 then 0
    else DigitsValue(s[..|s| - 1]) * 10 + (s[|s| - 1] as int - '0' as int)
  }

  /** The value strconv.Atoi gives a string it accepts. */
  function AtoiValue(s: string): int
    requires AtoiAccepts(s)
  {
    if s[0] == '-' then -(DigitsValue(s[1..]) as int)
    else if s[0] == '+' then DigitsValue(s[1..])
    else DigitsValue(s)
  }

  function DigitChar(d: nat): char
    requires d < 10
  {
    ('0' as int + d) as char
  }

  /** The decimal digits of a natural number, without leading zeros. */
  function NatDigits(n: nat): (r: string)
    ensures |r| >= 1 && AllDigits(r)
  {
    if n < 10 then [DigitChar(n)] else NatDigits(n / 10) + [DigitChar(n % 10)]
  }

  /** strconv.Itoa: the decimal rendering of an int, with '-' for negatives. */
  function Itoa(n: int): string
  {
    if n < 0 then "-" + NatDigits(-n) else NatDigits(n)
  }

  lemma {:induction false} NatDigitsValue(n: nat)
    ensures DigitsValue(NatDigits(n)) == n
  {
    if n >= 10 {
      NatDigitsValue(n / 10);
      var s := NatDigits(n);
      assert s[..|s| - 1] == NatDigits(n / 10);
    }
  }

  /** What strconv.Itoa writes, strconv.Atoi reads back unchanged. */
  lemma ItoaAtoi(n: int)
    ensures AtoiAccepts(Itoa(n)) && AtoiValue(Itoa(n)) == n
  {
    if n < 0 {
      NatDigitsValue(-n);
      assert Itoa(n)[1..] == NatDigits(-n);
    } else {
      NatDigitsValue(n);
    }
  }
}
