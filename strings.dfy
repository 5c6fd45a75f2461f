/**
 The string operations of Python's `str` that the notifier uses: the `in`
 operator between two strings, `split` on a one-character separator, ASCII
 `lower`, and `str()` of an integer.
 */
module Strings {

  /** `prefix` is an initial segment of `s`. */
  predicate IsPrefix(prefix: string, s: string) {
    |prefix| <= |s| && s[..|prefix|] == prefix
  }

  /** Python's `sub in s` for two strings: `sub` occurs somewhere in `s`
      (the empty string occurs everywhere). */
  predicate Contains(s: string, sub: string)
    decreases |s|
  {
    IsPrefix(sub, s) || (s != [] && Contains(s[1..], sub))
  }

  /** `sub` occurs in `s` at position `i`. */
  predicate OccursAt(s: string, sub: string, i: int) {
    0 <= i && i + |sub| <= |s| && s[i..i + |sub|] == sub
  }

  /** `Contains` agrees with the direct definition: some position of `s`
      starts a copy of `sub`. */
  lemma {:induction false} ContainsOccurs(s: string, sub: string)
    ensures Contains(s, sub) <==> exists i :: OccursAt(s, sub, i)
  {
    if IsPrefix(sub, s) {
      assert OccursAt(s, sub, 0);
    } else if s != [] {
      ContainsOccurs(s[1..], sub);
      if exists i :: OccursAt(s[1..], sub, i) {
        var i :| OccursAt(s[1..], sub, i);
        assert s[i + 1..i + 1 + |sub|] == s[1..][i..i + |sub|];
        assert OccursAt(s, sub, i + 1);
      }
      if exists i :: OccursAt(s, sub, i) {
        var i :| OccursAt(s, sub, i);
        assert i != 0;
        assert s[1..][i - 1..i - 1 + |sub|] == s[i..i + |sub|];
        assert OccursAt(s[1..], sub, i - 1);
      }
    }
  }

  /** Looking for a one-character string is looking for that character. */
  lemma {:induction false} ContainsChar(s: string, c: char)
    ensures Contains(s, [c]) <==> c in s
  {
    if s != [] {
      ContainsChar(s[1..], c);
      assert s == [s[0]] + s[1..];
      assert IsPrefix([c], s) <==> s[0] == c;
    }
  }

  /** Number of occurrences of `c` in `s`. */
  function Count(s: string, c: char): nat {
    if s == [] then 0 else (if s[0] == c then 1 else 0) + Count(s[1..], c)
  }

  /** Puts `sep` between consecutive parts: the inverse of `Split`. */
  function Join(parts: seq<string>, sep: char): string
    requires |parts| >= 1
  {
    if |parts| == 1 then parts[0] else parts[0] + [sep] + Join(parts[1..], sep)
  }

  /** No part holds the separator. */
  predicate SeparatorFree(parts: seq<string>, sep: char) {
    forall i :: 0 <= i < |parts| ==> sep !in parts[i]
  }

  /** Python's `s.split(sep)` for a one-character separator: the maximal
      separator-free pieces between occurrences of `sep`, empty pieces kept,
      so there is always one piece more than there are separators. */
  function Split(s: string, sep: char): (parts: seq<string>)
    ensures |parts| == Count(s, sep) + 1
    ensures Join(parts, sep) == s
    ensures SeparatorFree(parts, sep)
  {
    if s == [] then [""]
    else
      var rest := Split(s[1..], sep);
      if s[0] == sep then
        assert s == [sep] + s[1..];
        [""] + rest
      else
        var parts := [[s[0]] + rest[0]] + rest[1..];
        assert parts[1..] == rest[1..];
        assert Join(parts, sep) == [s[0]] + Join(rest, sep);
        assert s == [s[0]] + s[1..];
        parts
  }

  /** Splitting a separator-free piece followed by the separator peels off that piece. */
  lemma {:induction false} SplitAfterPiece(w: string, t: string, sep: char)
    requires sep !in w
    ensures Split(w + [sep] + t, sep) == [w] + Split(t, sep)
  {
    if w != [] {
      var s := w + [sep] + t;
      SplitAfterPiece(w[1..], t, sep);
      assert s[1..] == w[1..] + [sep] + t;
      assert s[0] == w[0] && w[0] != sep;
      var rest := Split(s[1..], sep);
      assert rest == [w[1..]] + Split(t, sep);
      assert Split(s, sep) == [[w[0]] + rest[0]] + rest[1..];
      assert [w[0]] + w[1..] == w;
    } else {
      assert w + [sep] + t == [sep] + t;
    }
  }

  /** A separator-free string splits into itself alone. */
  lemma {:induction false} SplitPiece(w: string, sep: char)
    requires sep !in w
    ensures Split(w, sep) == [w]
  {
    if w != [] {
      SplitPiece(w[1..], sep);
    }
  }

  /** `Split` undoes `Join` whenever no part holds the separator. */
  lemma {:induction false} SplitJoin(parts: seq<string>, sep: char)
    requires |parts| >= 1
    requires SeparatorFree(parts, sep)
    ensures Split(Join(parts, sep), sep) == parts
  {
    assert sep !in parts[0];
    if |parts| == 1 {
      SplitPiece(parts[0], sep);
    } else {
      assert SeparatorFree(parts[1..], sep) by {
        forall i | 0 <= i < |parts| - 1 ensures sep !in parts[1..][i] {
          assert parts[1..][i] == parts[i + 1];
        }
      }
      SplitJoin(parts[1..], sep);
      SplitAfterPiece(parts[0], Join(parts[1..], sep), sep);
      assert parts == [parts[0]] + parts[1..];
    }
  }

  /** The first part of a join is a prefix of it, and it is followed by the
      separator when there are further parts. */
  lemma JoinHead(parts: seq<string>, sep: char)
    requires |parts| >= 1
    ensures IsPrefix(parts[0], Join(parts, sep))
    ensures |parts| > 1 ==> Join(parts, sep)[|parts[0]|] == sep
  {
    if |parts| > 1 {
      assert Join(parts, sep) == parts[0] + ([sep] + Join(parts[1..], sep));
    }
  }

  /** Python's `s.split(' ')[0]`: the text before the first single space,
      or all of `s` when it has none. */
  function FirstToken(s: string): (t: string)
    ensures IsPrefix(t, s)
    ensures ' ' !in t
    ensures t == s || s[|t|] == ' '
  {
    var parts := Split(s, ' ');
    JoinHead(parts, ' ');
    parts[0]
  }

  /** Python's `str.lower()` on one character, restricted to ASCII. */
  function LowerChar(c: char): char {
    if 'A' <= c <= 'Z' then (c as int + 32) as char else c
  }

  /** Python's `s.lower()`, restricted to ASCII letters. */
  function Lower(s: string): (r: string)
    ensures |r| == |s|
    ensures forall i :: 0 <= i < |s| ==> r[i] == LowerChar(s[i])
  {
    if s == [] then [] else [LowerChar(s[0])] + Lower(s[1..])
  }

  /** An ASCII lower-case letter comes from itself or from its upper-case form. */
  lemma LowerCharIs(c: char, lo: char, up: char)
    requires 'A' <= up <= 'Z' && lo as int == up as int + 32
    ensures LowerChar(c) == lo <==> c == lo || c == up
  {
  }

  /** `s` spells "alarm" with each letter in either case. */
  predicate IsAlarmInAnyCase(s: string) {
    |s| == 5 && forall i :: 0 <= i < 5 ==> s[i] == "alarm"[i] || s[i] == "ALARM"[i]
  }

  /** `s.lower() == "alarm"` holds exactly for the 32 spellings of "alarm"
      in any mix of upper- and lower-case letters. */
  lemma LowerIsAlarm(s: string)
    ensures Lower(s) == "alarm" <==> IsAlarmInAnyCase(s)
  {
    if |s| == 5 {
      forall i | 0 <= i < 5
        ensures LowerChar(s[i]) == "alarm"[i] <==> s[i] == "alarm"[i] || s[i] == "ALARM"[i]
      {
        LowerCharIs(s[i], "alarm"[i], "ALARM"[i]);
      }
    }
  }

  /** The decimal digit for `d`. */
  function Digit(d: nat): char
    requires d < 10
  {
    ('0' as int + d) as char
  }

  /** Python's `str(n)` for a natural number: its decimal digits, with no
      leading zero except for 0 itself. */
  function NatToDecimal(n: nat): (r: string)
    ensures |r| >= 1
    ensures forall i :: 0 <= i < |r| ==> '0' <= r[i] <= '9'
    ensures r[0] == '0' <==> n == 0
  {
    if n < 10 then [Digit(n)] else NatToDecimal(n / 10) + [Digit(n % 10)]
  }

  /** Python's `int(s)` for a string of decimal digits: the partner of `NatToDecimal`. */
  function DecimalValue(s: string): nat
    requires forall i :: 0 <= i < |s| ==> '0' <= s[i] <= '9'
  {
    if s == [] then 0 else DecimalValue(s[..|s| - 1]) * 10 + (s[|s| - 1] as int - '0' as int)
  }

  /** Reading back the digits of `n` gives `n`. */
  lemma {:induction false} DecimalRoundTrip(n: nat)
    ensures DecimalValue(NatToDecimal(n)) == n
  {
    if n >= 10 {
      DecimalRoundTrip(n / 10);
      var s := NatToDecimal(n);
      assert s[..|s| - 1] == NatToDecimal(n / 10);
    }
  }

  /** The canonical decimal form: digits only, no leading zero unless the
      string is "0". */
  predicate IsCanonicalDecimal(s: string) {
    && |s| >= 1
    && (forall i :: 0 <= i < |s| ==> '0' <= s[i] <= '9')
    && (s[0] == '0' ==> |s| == 1)
  }

  /** Digits that start with a non-zero digit stand for a positive number. */
  lemma {:induction false} LeadingDigitPositive(s: string)
    requires |s| >= 1 && forall i :: 0 <= i < |s| ==> '0' <= s[i] <= '9'
    requires s[0] != '0'
    ensures DecimalValue(s) >= 1
  {
    if |s| > 1 {
      var init := s[..|s| - 1];
      assert init[0] == s[0];
      LeadingDigitPositive(init);
    }
  }

  /** `str(n)` is the only canonical decimal string that reads back as `n`. */
  lemma {:induction false} DecimalUnique(s: string, n: nat)
    requires IsCanonicalDecimal(s)
    requires DecimalValue(s) == n
    ensures s == NatToDecimal(n)
  {
    var last := s[|s| - 1] as int - '0' as int;
    if |s| == 1 {
      assert DecimalValue(s[..0]) == 0;
      assert n == last;
    } else {
      var init := s[..|s| - 1];
      assert init[0] == s[0] && s[0] != '0';
      LeadingDigitPositive(init);
      assert n == DecimalValue(init) * 10 + last;
      assert n / 10 == DecimalValue(init) && n % 10 == last;
      DecimalUnique(init, n / 10);
      assert s == init + [s[|s| - 1]];
    }
  }

  /** Python's `str(i)` for an integer: a minus sign for a negative number,
      then the decimal digits of its magnitude. */
  function IntToDecimal(i: int): (r: string)
    ensures i < 0 <==> |r| > 0 && r[0] == '-'
    ensures i >= 0 ==> r == NatToDecimal(i)
    ensures i < 0 ==> r[1..] == NatToDecimal(-i)
  {
    if i < 0 then "-" + NatToDecimal(-i) else NatToDecimal(i)
  }

  /** Reading back the sign and the digits of `str(i)` gives `i`. */
  lemma IntDecimalRoundTrip(i: int)
    ensures i < 0 ==> DecimalValue(IntToDecimal(i)[1..]) == -i
    ensures i >= 0 ==> DecimalValue(IntToDecimal(i)) == i
  {
    if i < 0 {
      DecimalRoundTrip(-i);
    } else {
      DecimalRoundTrip(i);
    }
  }
}
