/** The few java.lang.String and java.lang.Long operations the telemetry code relies on,
    with the edge cases Java gives them: `split` drops trailing empty strings but keeps
    leading ones, `replace` works left to right on non-overlapping matches, and
    `parseInt`/`Long.toString` are inverse on integer text. */
module JavaLang {

  function Max(a: int, b: int): int { if a >= b then a else b }

  /** Java's `/` on long: truncates toward zero. */
  function Quot(a: int, b: int): (q: int)
    requires b != 0
    ensures a >= 0 && b > 0 ==> q == a / b
  {
    if (a >= 0) == (b > 0) then
      (if a >= 0 then a / b else (-a) / (-b))
    else
      -((if a >= 0 then a else -a) / (if b > 0 then b else -b))
  }

  // ---------------------------------------------------------------- contains

  /** `s.contains(t)`. */
  predicate Contains(s: string, t: string)
    decreases |s|
  {
    |t| <= |s| && (s[..|t|] == t || (0 < |s| && Contains(s[1..], t)))
  }

  /** `s.contains(t)` as the existence of a position where `t` occurs. */
  ghost predicate OccursAt(s: string, t: string, i: int)
  {
    0 <= i && i + |t| <= |s| && s[i..i + |t|] == t
  }

  lemma {:induction false} ContainsIffOccurs(s: string, t: string)
    ensures Contains(s, t) <==> exists i :: OccursAt(s, t, i)
    decreases |s|
  {
    if Contains(s, t) {
      if s[..|t|] == t {
        assert OccursAt(s, t, 0);
      } else {
        ContainsIffOccurs(s[1..], t);
        var i :| OccursAt(s[1..], t, i);
        assert s[1..][i..i + |t|] == s[i + 1..i + 1 + |t|];
        assert OccursAt(s, t, i + 1);
      }
    }
    if exists i :: OccursAt(s, t, i) {
      var i :| OccursAt(s, t, i);
      if 0 < i && s[..|t|] != t {
        assert s[1..][i - 1..i - 1 + |t|] == s[i..i + |t|];
        assert OccursAt(s[1..], t, i - 1);
        ContainsIffOccurs(s[1..], t);
      }
    }
  }

  /** Text that contains `t` holds `t`'s first character. */
  lemma {:induction false} ContainsFirstChar(s: string, t: string)
    requires |t| > 0 && Contains(s, t)
    ensures t[0] in s
    decreases |s|
  {
    if s[..|t|] == t {
      assert s[0] == t[0];
    } else {
      ContainsFirstChar(s[1..], t);
      assert s[1..][..] == s[1..];
    }
  }

  // ---------------------------------------------------------------- split and join

  /** The pieces of `s` between the occurrences of `d`, every piece kept,
      so that `n` delimiters give `n + 1` pieces. */
  function Pieces(s: string, d: char): (r: seq<string>)
    ensures |r| >= 1
    decreases |s|
  {
    if |s| == 0 then [""]
    else
      var rest := Pieces(s[1..], d);
      if s[0] == d then [""] + rest else [[s[0]] + rest[0]] + rest[1..]
  }

  /** The longest prefix of `s` without `d`. */
  function TakeUntil(s: string, d: char): (r: string)
    ensures d !in r
  {
    if |s| == 0 || s[0] == d then "" else [s[0]] + TakeUntil(s[1..], d)
  }

  function DropTrailingEmpty(p: seq<string>): (r: seq<string>)
    ensures |r| <= |p| && r == p[..|r|]
    ensures |r| > 0 ==> r[|r| - 1] != ""
    ensures forall k :: |r| <= k < |p| ==> p[k] == ""
  {
    if |p| == 0 then []
    else if p[|p| - 1] == "" then DropTrailingEmpty(p[..|p| - 1])
    else p
  }

  /** `s.split(d)` for a one-character, non-meta delimiter: with no occurrence of `d` the
      result is `[s]` (even for the empty string); otherwise every piece, trailing empty
      pieces removed. */
  function Split(s: string, d: char): seq<string>
  {
    if d !in s then [s] else DropTrailingEmpty(Pieces(s, d))
  }

  /** The fields joined by `d`, as a row of a CSV file is written. */
  function Join(fields: seq<string>, d: char): string
  {
    if |fields| == 0 then ""
    else if |fields| == 1 then fields[0]
    else fields[0] + [d] + Join(fields[1..], d)
  }

  lemma {:induction false} PiecesWithout(s: string, d: char)
    requires d !in s
    ensures Pieces(s, d) == [s]
    decreases |s|
  {
    if |s| > 0 {
      PiecesWithout(s[1..], d);
      assert [s[0]] + s[1..] == s;
    }
  }

  /** A delimiter between `a` and `b` separates their pieces. */
  lemma {:induction false} PiecesAround(a: string, d: char, b: string)
    ensures Pieces(a + [d] + b, d) == Pieces(a, d) + Pieces(b, d)
    decreases |a|
  {
    var s := a + [d] + b;
    if |a| == 0 {
      assert s[1..] == b;
    } else {
      assert s[1..] == a[1..] + [d] + b;
      PiecesAround(a[1..], d, b);
    }
  }

  lemma {:induction false} NoDelimiterInPieces(s: string, d: char)
    ensures forall k :: 0 <= k < |Pieces(s, d)| ==> d !in Pieces(s, d)[k]
    decreases |s|
  {
    if |s| > 0 {
      NoDelimiterInPieces(s[1..], d);
    }
  }

  lemma {:induction false} FirstPiece(s: string, d: char)
    ensures Pieces(s, d)[0] == TakeUntil(s, d)
    decreases |s|
  {
    if |s| > 0 {
      FirstPiece(s[1..], d);
    }
  }

  /** The first field Java's split returns is the text before the first `d`. */
  lemma SplitFirst(s: string, d: char)
    requires |Split(s, d)| > 0
    ensures Split(s, d)[0] == TakeUntil(s, d)
  {
    if d !in s {
      PiecesWithout(s, d);
      FirstPiece(s, d);
    } else {
      FirstPiece(s, d);
    }
  }

  lemma {:induction false} PiecesOfJoin(fields: seq<string>, d: char)
    requires |fields| > 0
    requires forall k :: 0 <= k < |fields| ==> d !in fields[k]
    ensures Pieces(Join(fields, d), d) == fields
    decreases |fields|
  {
    if |fields| == 1 {
      PiecesWithout(fields[0], d);
    } else {
      PiecesOfJoin(fields[1..], d);
      PiecesWithout(fields[0], d);
      PiecesAround(fields[0], d, Join(fields[1..], d));
    }
  }

  /** Writing fields with `d` between them and reading the line back with Java's split
      gives the same fields, provided no field holds `d` and the last one is not empty. */
  lemma SplitJoin(fields: seq<string>, d: char)
    requires |fields| > 0 && fields[|fields| - 1] != ""
    requires forall k :: 0 <= k < |fields| ==> d !in fields[k]
    ensures Split(Join(fields, d), d) == fields
  {
    PiecesOfJoin(fields, d);
    if |fields| == 1 {
      assert Join(fields, d) == fields[0];
    } else {
      assert Join(fields, d) == fields[0] + [d] + Join(fields[1..], d);
      assert Join(fields, d)[|fields[0]|] == d;
    }
  }

  /** A character that no field holds and that is not the delimiter is not in the line. */
  lemma {:induction false} JoinWithout(fields: seq<string>, d: char, c: char)
    requires c != d
    requires forall k :: 0 <= k < |fields| ==> c !in fields[k]
    ensures c !in Join(fields, d)
    decreases |fields|
  {
    if |fields| > 1 {
      JoinWithout(fields[1..], d, c);
    }
  }

  // ---------------------------------------------------------------- replace

  /** `s.replace(target, replacement)`: left to right, non-overlapping. */
  function Replace(s: string, target: string, replacement: string): string
    requires |target| > 0
    decreases |s|
  {
    if |s| < |target| then s
    else if s[..|target|] == target then replacement + Replace(s[|target|..], target, replacement)
    else [s[0]] + Replace(s[1..], target, replacement)
  }

  /** `s.replaceAll(" ", ",")`: every occurrence of one character by another. */
  function ReplaceChar(s: string, from: char, to: char): (r: string)
    ensures |r| == |s|
    ensures forall k :: 0 <= k < |s| ==> r[k] == if s[k] == from then to else s[k]
  {
    if |s| == 0 then "" else [if s[0] == from then to else s[0]] + ReplaceChar(s[1..], from, to)
  }

  lemma ReplaceCharRemoves(s: string, from: char, to: char)
    requires from != to
    ensures from !in ReplaceChar(s, from, to)
  {
    var r := ReplaceChar(s, from, to);
    assert forall k :: 0 <= k < |r| ==> r[k] != from;
  }

  // ---------------------------------------------------------------- numbers

  predicate IsDigit(c: char) { '0' <= c <= '9' }

  function DigitValue(c: char): nat
    requires IsDigit(c)
  {
    (c as int) - ('0' as int)
  }

  function DigitChar(n: nat): (c: char)
    requires n < 10
    ensures IsDigit(c) && DigitValue(c) == n
  {
    (('0' as int) + n) as char
  }

  predicate AllDigits(s: string)
  {
    forall k :: 0 <= k < |s| ==> IsDigit(s[k])
  }

  /** The value of a run of decimal digits, most significant first. */
  function DigitsValue(s: string): nat
    requires AllDigits(s)
  {
    if |s| == 0 then 0 else DigitsValue(s[..|s| - 1]) * 10 + DigitValue(s[|s| - 1])
  }

  /** Text that `Integer.parseInt`, `Long.parseLong` and `toLong()` accept:
      an optional sign and at least one digit. */
  predicate IsIntLiteral(s: string)
  {
    |s| > 0 &&
    if s[0] == '-' || s[0] == '+' then |s| > 1 && AllDigits(s[1..]) else AllDigits(s)
  }

  function IntValue(s: string): int
    requires IsIntLiteral(s)
  {
    if s[0] == '-' then -(DigitsValue(s[1..]) as int)
    else if s[0] == '+' then DigitsValue(s[1..])
    else DigitsValue(s)
  }

  /** `Long.toString(n)` for `n >= 0`. */
  function NatToString(n: nat): (r: string)
    ensures |r| > 0 && AllDigits(r)
  {
    if n < 10 then [DigitChar(n)] else NatToString(n / 10) + [DigitChar(n % 10)]
  }

  /** `Long.toString(n)`. */
  function IntToString(n: int): (r: string)
    ensures |r| > 0
  {
    if n < 0 then "-" + NatToString(-n) else NatToString(n)
  }

  lemma {:induction false} NatToStringValue(n: nat)
    ensures DigitsValue(NatToString(n)) == n
    decreases n
  {
    if n >= 10 {
      NatToStringValue(n / 10);
      var s := NatToString(n);
      assert s[..|s| - 1] == NatToString(n / 10);
    }
  }

  /** `Long.parseLong(Long.toString(n)) == n`. */
  lemma ParseIntToString(n: int)
    ensures IsIntLiteral(IntToString(n)) && IntValue(IntToString(n)) == n
  {
    if n < 0 {
      NatToStringValue(-n);
      assert IntToString(n)[1..] == NatToString(-n);
    } else {
      NatToStringValue(n);
      assert IsDigit(NatToString(n)[0]);
    }
  }

  /** `Long.toString` writes only digits and a leading minus sign, so never the
      separators of a CSV row or of a clock reading. */
  lemma IntToStringChars(n: int)
    ensures forall k :: 0 <= k < |IntToString(n)| ==> IsDigit(IntToString(n)[k]) || IntToString(n)[k] == '-'
  {
  }

  function Pow10(w: nat): (p: nat)
    ensures p >= 1
  {
    if w == 0 then 1 else 10 * Pow10(w - 1)
  }

  /** `n` written in exactly `width` digits with leading zeros, as SimpleDateFormat
      writes the fields of "HH:mm:ss:SSS". */
  function PadDigits(n: nat, width: nat): (r: string)
    ensures |r| == width && AllDigits(r)
  {
    if width == 0 then "" else PadDigits(n / 10, width - 1) + [DigitChar(n % 10)]
  }

  lemma {:induction false} PadDigitsValue(n: nat, width: nat)
    requires n < Pow10(width)
    ensures DigitsValue(PadDigits(n, width)) == n
    decreases width
  {
    if width > 0 {
      PadDigitsValue(n / 10, width - 1);
      var s := PadDigits(n, width);
      assert s[..|s| - 1] == PadDigits(n / 10, width - 1);
    }
  }
}
