/**
 * The JavaScript string and number primitives the two views rely on:
 * `toLowerCase`, `includes`, `trim`, `split`, `join`, `parseInt` and the
 * conversion of an integer (or NaN) to its decimal text.
 */
module JsText {

  /** A JavaScript number as it occurs in category lists: an integer or NaN. */
  datatype Num = Int(value: int) | NaN

  // ---------------------------------------------------------------- case

  /** `toLowerCase` on one character, restricted to ASCII letters. */
  function LowerChar(c: char): char
  {
    if 'A' <= c <= 'Z' then (c as int - 'A' as int + 'a' as int) as char else c
  }

  /**
   * `String.prototype.toLowerCase`, character by character: no upper-case
   * letter is left, and only upper-case letters change.
   */
  function Lower(s: string): (r: string)
    ensures |r| == |s|
    ensures forall i :: 0 <= i < |r| ==> !('A' <= r[i] <= 'Z')
    ensures forall i :: 0 <= i < |s| ==> 'A' <= s[i] <= 'Z' || r[i] == s[i]
    ensures forall i :: 0 <= i < |s| && 'A' <= s[i] <= 'Z' ==> r[i] as int == s[i] as int + 32
  {
    seq(|s|, i requires 0 <= i < |s| => LowerChar(s[i]))
  }

  // ------------------------------------------------------------ includes

  predicate StartsWith(s: string, prefix: string)
  {
    |prefix| <= |s| && s[..|prefix|] == prefix
  }

  /** `s.includes(sub)`: does `sub` occur somewhere in `s`? Scans start positions left to right. */
  function Includes(s: string, sub: string): (r: bool)
    ensures r ==> |sub| <= |s|
    ensures sub == [] ==> r
  {
    StartsWith(s, sub) || (s != [] && Includes(s[1..], sub))
  }

  /** Reference definition: `sub` occurs in `s` at index `i`. */
  ghost predicate OccursAt(s: string, sub: string, i: int)
  {
    0 <= i <= |s| - |sub| && s[i..i + |sub|] == sub
  }

  /** The scanning `Includes` agrees with "there is an index where `sub` occurs". */
  lemma {:induction false} IncludesIffOccurs(s: string, sub: string)
    ensures Includes(s, sub) <==> exists i :: OccursAt(s, sub, i)
  {
    if Includes(s, sub) {
      if StartsWith(s, sub) {
        assert OccursAt(s, sub, 0);
      } else {
        IncludesIffOccurs(s[1..], sub);
        var i :| OccursAt(s[1..], sub, i);
        assert s[1..][i..i + |sub|] == s[i + 1..i + 1 + |sub|];
        assert OccursAt(s, sub, i + 1);
      }
    }
    if exists i :: OccursAt(s, sub, i) {
      var i :| OccursAt(s, sub, i);
      if i == 0 {
        assert StartsWith(s, sub);
      } else {
        assert s[1..][i - 1..i - 1 + |sub|] == s[i..i + |sub|];
        assert OccursAt(s[1..], sub, i - 1);
        IncludesIffOccurs(s[1..], sub);
      }
    }
  }

  /** A text in which the first character of `sub` never occurs does not include `sub`. */
  lemma {:induction false} IncludesNeedsFirstChar(s: string, sub: string)
    requires sub != [] && sub[0] !in s
    ensures !Includes(s, sub)
  {
    if s != [] {
      assert s[0] != sub[0];
      assert sub[0] !in s[1..];
      IncludesNeedsFirstChar(s[1..], sub);
    }
  }

  /** The empty string occurs in every string. */
  lemma IncludesEmpty(s: string)
    ensures Includes(s, "")
  {
  }

  // ---------------------------------------------------------------- trim

  /** The white space `trim` and `parseInt` skip (the ASCII ones, NBSP, BOM and the line separators). */
  predicate IsSpace(c: char)
  {
    c == ' ' || c == '\t' || c == '\n' || c == '\r' || c == '\U{000B}' || c == '\U{000C}'
    || c == '\U{00A0}' || c == '\U{FEFF}' || c == '\U{2028}' || c == '\U{2029}'
  }

  /** Drops the leading white space: the result is the suffix of `s` after its maximal run of spaces. */
  function TrimStart(s: string): (r: string)
    ensures |r| <= |s| && r == s[|s| - |r|..]
    ensures forall i :: 0 <= i < |s| - |r| ==> IsSpace(s[i])
    ensures r == [] || !IsSpace(r[0])
  {
    if s != [] && IsSpace(s[0]) then TrimStart(s[1..]) else s
  }

  /** Drops the trailing white space: the result is the prefix of `s` before its maximal run of spaces. */
  function TrimEnd(s: string): (r: string)
    ensures |r| <= |s| && r == s[..|r|]
    ensures forall i :: |r| <= i < |s| ==> IsSpace(s[i])
    ensures r == [] || !IsSpace(r[|r| - 1])
  {
    if s != [] && IsSpace(s[|s| - 1]) then TrimEnd(s[..|s| - 1]) else s
  }

  /** `r` occurs in `s` at index `i`, with only white space before and after it. */
  ghost predicate PaddedAt(s: string, r: string, i: int)
  {
    0 <= i && i + |r| <= |s| && s[i..i + |r|] == r
    && (forall k :: 0 <= k < i ==> IsSpace(s[k]))
    && (forall k :: i + |r| <= k < |s| ==> IsSpace(s[k]))
  }

  /** `String.prototype.trim`: `s` without the white space at either end. */
  function Trim(s: string): (r: string)
    ensures exists i :: PaddedAt(s, r, i)
    ensures r == [] || (!IsSpace(r[0]) && !IsSpace(r[|r| - 1]))
  {
    var t := TrimStart(s);
    var r := TrimEnd(t);
    var i := |s| - |t|;
    assert forall k :: i <= k < |s| ==> s[k] == t[k - i];
    assert PaddedAt(s, r, i);
    r
  }

  /** A text that neither starts nor ends with white space is its own trim. */
  lemma TrimUnpadded(s: string)
    requires s == [] || (!IsSpace(s[0]) && !IsSpace(s[|s| - 1]))
    ensures Trim(s) == s
  {
  }

  /** A leading space makes no difference to the trimmed text. */
  lemma TrimLeadingSpace(s: string)
    ensures Trim([' '] + s) == Trim(s)
  {
    assert ([' '] + s)[1..] == s;
  }

  // ---------------------------------------------------------- split/join

  /** How often `c` occurs in `s`. */
  function Count(s: string, c: char): nat
  {
    if s == [] then 0 else (if s[0] == c then 1 else 0) + Count(s[1..], c)
  }

  /**
   * `s.split(sep)` for a one-character separator: the pieces between the
   * separators, one more than there are separators (so `"".split(",")` is `[""]`).
   */
  function Split(s: string, sep: char): (pieces: seq<string>)
    ensures |pieces| == Count(s, sep) + 1
    ensures forall k :: 0 <= k < |pieces| ==> sep !in pieces[k]
  {
    if s == [] then [[]]
    else
      var rest := Split(s[1..], sep);
      if s[0] == sep then [[]] + rest else [[s[0]] + rest[0]] + rest[1..]
  }

  /** `pieces.join(sep)`. */
  function Join(pieces: seq<string>, sep: string): string
  {
    if |pieces| == 0 then []
    else if |pieces| == 1 then pieces[0]
    else pieces[0] + sep + Join(pieces[1..], sep)
  }

  /** Joining the pieces of a split with the separator gives back the text. */
  lemma {:induction false} JoinSplit(s: string, sep: char)
    ensures Join(Split(s, sep), [sep]) == s
  {
    if s != [] {
      var rest := Split(s[1..], sep);
      JoinSplit(s[1..], sep);
      if s[0] == sep {
        assert ([[]] + rest)[1..] == rest;
      } else {
        var pieces := [[s[0]] + rest[0]] + rest[1..];
        assert pieces[1..] == rest[1..];
        if |rest| > 1 {
          assert Join(rest, [sep]) == rest[0] + [sep] + Join(rest[1..], [sep]);
        }
        assert s == [s[0]] + s[1..];
      }
    }
  }

  /** A text without the separator splits into itself alone. */
  lemma {:induction false} SplitWithoutSeparator(s: string, sep: char)
    requires sep !in s
    ensures Split(s, sep) == [s]
  {
    if s != [] {
      SplitWithoutSeparator(s[1..], sep);
      assert s == [s[0]] + s[1..];
    }
  }

  /** Splitting at a first separator: the text before it is the first piece. */
  lemma {:induction false} SplitAtFirst(a: string, b: string, sep: char)
    requires sep !in a
    ensures Split(a + [sep] + b, sep) == [a] + Split(b, sep)
  {
    var s := a + [sep] + b;
    if a == [] {
      assert s[1..] == b;
    } else {
      assert s[1..] == a[1..] + [sep] + b;
      SplitAtFirst(a[1..], b, sep);
      assert [a[0]] + a[1..] == a;
    }
  }

  // ------------------------------------------------------------- digits

  predicate IsDigit(c: char)
  {
    '0' <= c <= '9'
  }

  predicate IsHexDigit(c: char)
  {
    IsDigit(c) || 'a' <= c <= 'f' || 'A' <= c <= 'F'
  }

  function DigitValue(c: char): (v: nat)
    requires IsHexDigit(c)
    ensures v < 16
    ensures IsDigit(c) <==> v < 10
  {
    if IsDigit(c) then c as int - '0' as int
    else if 'a' <= c <= 'f' then c as int - 'a' as int + 10
    else c as int - 'A' as int + 10
  }

  /** `c` is a digit of base `radix` (10 or 16 here). */
  predicate IsDigitOf(c: char, radix: nat)
  {
    IsHexDigit(c) && DigitValue(c) < radix
  }

  /** The longest prefix of `s` made of base-`radix` digits. */
  function DigitRun(s: string, radix: nat): (ds: string)
    ensures |ds| <= |s| && ds == s[..|ds|]
    ensures forall i :: 0 <= i < |ds| ==> IsDigitOf(ds[i], radix)
    ensures |ds| < |s| ==> !IsDigitOf(s[|ds|], radix)
  {
    if s != [] && IsDigitOf(s[0], radix) then [s[0]] + DigitRun(s[1..], radix) else []
  }

  lemma ProductOfNaturals(a: nat, b: nat)
    ensures a * b >= 0
  {
  }

  /** The value of a digit string, most significant digit first. */
  function ValueOf(ds: string, radix: nat): nat
    requires forall i :: 0 <= i < |ds| ==> IsDigitOf(ds[i], radix)
  {
    if ds == [] then 0
    else
      var init, last := ds[..|ds| - 1], ds[|ds| - 1];
      assert IsDigitOf(last, radix);
      assert forall i :: 0 <= i < |init| ==> init[i] == ds[i];
      var high := ValueOf(init, radix);
      ProductOfNaturals(high, radix);
      high * radix + DigitValue(last)
  }

  /**
   * `parseInt(s)` without a radix argument: skip leading white space, take an
   * optional sign, then read the magnitude; NaN if no digit was read.
   */
  function ParseInt(s: string): Num
  {
    var t := TrimStart(s);
    if t != [] && t[0] == '-' then Negate(ParseMagnitude(t[1..]))
    else if t != [] && t[0] == '+' then ParseMagnitude(t[1..])
    else ParseMagnitude(t)
  }

  /**
   * The unsigned part of `parseInt`: base 16 after a `0x`/`0X` prefix, base 10
   * otherwise, up to the first character that is not a digit.
   */
  function ParseMagnitude(body: string): (x: Num)
    ensures x.Int? ==> x.value >= 0
  {
    var hex := |body| >= 2 && body[0] == '0' && (body[1] == 'x' || body[1] == 'X');
    var radix := if hex then 16 else 10;
    var ds := DigitRun(if hex then body[2..] else body, radix);
    if ds == [] then NaN else Int(ValueOf(ds, radix))
  }

  function Negate(x: Num): Num
  {
    match x
    case NaN => NaN
    case Int(i) => Int(-i)
  }

  // -------------------------------------------------------- number text

  function DigitChar(d: nat): (c: char)
    requires d < 10
    ensures IsDigit(c) && DigitValue(c) == d
  {
    ('0' as int + d) as char
  }

  /** The decimal text of a natural number, without leading zeros. */
  function NatToDigits(n: nat): (s: string)
    ensures s != []
    ensures forall i :: 0 <= i < |s| ==> IsDigit(s[i]) && IsDigitOf(s[i], 10)
    ensures ValueOf(s, 10) == n
  {
    if n < 10 then [DigitChar(n)]
    else
      var s := NatToDigits(n / 10) + [DigitChar(n % 10)];
      assert s[..|s| - 1] == NatToDigits(n / 10);
      s
  }

  /** `String(n)` for an integer or NaN (integers below 10^21, where JavaScript switches to exponent form). */
  function NumberToString(x: Num): (s: string)
    ensures s != [] && ',' !in s
    ensures !IsSpace(s[0]) && !IsSpace(s[|s| - 1])
  {
    match x
    case NaN => "NaN"
    case Int(i) => if i < 0 then "-" + NatToDigits(-i) else NatToDigits(i)
  }

  /** A run of digits followed by a non-digit is read up to that character. */
  lemma {:induction false} DigitRunStops(ds: string, rest: string)
    requires forall i :: 0 <= i < |ds| ==> IsDigitOf(ds[i], 10)
    requires rest == [] || !IsDigitOf(rest[0], 10)
    ensures DigitRun(ds + rest, 10) == ds
  {
    if ds != [] {
      assert (ds + rest)[1..] == ds[1..] + rest;
      DigitRunStops(ds[1..], rest);
      assert [ds[0]] + ds[1..] == ds;
    }
  }

  /** A decimal magnitude is read up to the first character that is not a digit. */
  lemma ParseMagnitudeDigits(n: nat, rest: string)
    requires rest == [] || (!IsDigit(rest[0]) && rest[0] != 'x' && rest[0] != 'X')
    ensures ParseMagnitude(NatToDigits(n) + rest) == Int(n)
  {
    var ds := NatToDigits(n);
    assert rest == [] || !IsDigitOf(rest[0], 10);
    DigitRunStops(ds, rest);
    var body := ds + rest;
    if |body| >= 2 {
      assert body[1] == if |ds| >= 2 then ds[1] else rest[0];
    }
  }

  /** Text without leading white space and without a sign is read as a magnitude. */
  lemma ParseIntUnsigned(s: string)
    requires s != [] && !IsSpace(s[0]) && s[0] != '-' && s[0] != '+'
    ensures ParseInt(s) == ParseMagnitude(s)
  {
    assert TrimStart(s) == s;
  }

  /** Text that starts with a minus sign is read as a negated magnitude. */
  lemma ParseIntMinus(m: string)
    ensures ParseInt(['-'] + m) == Negate(ParseMagnitude(m))
  {
    var s := ['-'] + m;
    assert s != [] && s[0] == '-' && !IsSpace(s[0]);
    assert TrimStart(s) == s;
    assert s[1..] == m;
  }

  lemma Reassociate<T>(a: seq<T>, b: seq<T>, c: seq<T>)
    ensures (a + b) + c == a + (b + c)
  {
  }

  /** `parseInt` reads back the text of a natural number. */
  lemma ParseIntNatural(n: nat, rest: string)
    requires rest == [] || (!IsDigit(rest[0]) && rest[0] != 'x' && rest[0] != 'X')
    ensures ParseInt(NatToDigits(n) + rest) == Int(n)
  {
    var s := NatToDigits(n) + rest;
    assert s[0] == NatToDigits(n)[0];
    ParseIntUnsigned(s);
    ParseMagnitudeDigits(n, rest);
  }

  /** `parseInt` reads back the text of a negative number. */
  lemma ParseIntNegative(n: nat, rest: string)
    requires rest == [] || (!IsDigit(rest[0]) && rest[0] != 'x' && rest[0] != 'X')
    ensures ParseInt(['-'] + (NatToDigits(n) + rest)) == Int(-(n as int))
  {
    var m := NatToDigits(n) + rest;
    ParseMagnitudeDigits(n, rest);
    assert ParseMagnitude(m) == Int(n);
    ParseIntMinus(m);
  }

  /** `parseInt` reads back the text of an integer, up to the first character that is not a digit. */
  lemma ParseIntIntToString(i: int, rest: string)
    requires rest == [] || (!IsDigit(rest[0]) && rest[0] != 'x' && rest[0] != 'X')
    ensures ParseInt(NumberToString(Int(i)) + rest) == Int(i)
  {
    if i < 0 {
      var ds := NatToDigits(-i);
      assert NumberToString(Int(i)) == "-" + ds;
      Reassociate(['-'], ds, rest);
      ParseIntNegative(-i, rest);
    } else {
      ParseIntNatural(i, rest);
    }
  }

  /**
   * `parseInt` reads back the text of every number, also when other text that
   * does not start with a digit or an `x` follows it (as in `parseInt("12abc")`).
   */
  lemma ParseIntNumberToString(x: Num, rest: string)
    requires rest == [] || (!IsDigit(rest[0]) && rest[0] != 'x' && rest[0] != 'X')
    ensures ParseInt(NumberToString(x) + rest) == x
  {
    match x
    case NaN =>
      var s := NumberToString(x) + rest;
      assert s[0] == 'N' && TrimStart(s) == s;
    case Int(i) =>
      ParseIntIntToString(i, rest);
  }
}
