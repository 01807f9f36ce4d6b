/** The JavaScript string operations the other modules need: split, join, parseInt and decimal printing. */
module Text {
  import opened Options

  // ---------------------------------------------------------------- split and join

  /** `s.split(sep)` for a one-character separator: never empty, one part per separator and one more. */
  function Split(s: string, sep: char): (parts: seq<string>)
    ensures |parts| >= 1
  {
    if s == [] then [""]
    else
      var rest := Split(s[1..], sep);
      if s[0] == sep then [""] + rest else [[s[0]] + rest[0]] + rest[1..]
  }

  function Join(parts: seq<string>, sep: char): string
    requires |parts| >= 1
  {
    if |parts| == 1 then parts[0] else parts[0] + [sep] + Join(parts[1..], sep)
  }

  lemma {:induction false} SplitPart(part: string, sep: char)
    requires sep !in part
    ensures Split(part, sep) == [part]
  {
    if part != [] {
      assert part[0] in part && part == [part[0]] + part[1..];
      SplitPart(part[1..], sep);
    }
  }

  lemma {:induction false} SplitAt(part: string, rest: string, sep: char)
    requires sep !in part
    ensures Split(part + [sep] + rest, sep) == [part] + Split(rest, sep)
  {
    var s := part + [sep] + rest;
    if part == [] {
      assert s[0] == sep && s[1..] == rest;
    } else {
      assert s[0] == part[0] && s[1..] == part[1..] + [sep] + rest;
      SplitAt(part[1..], rest, sep);
      assert [part[0]] + part[1..] == part;
      assert Split(s, sep) == [[s[0]] + part[1..]] + Split(rest, sep);
    }
  }

  /** Splitting a joined text gives the parts back, provided none of them contains the separator. */
  lemma {:induction false} SplitJoin(parts: seq<string>, sep: char)
    requires |parts| >= 1 && forall p :: p in parts ==> sep !in p
    ensures Split(Join(parts, sep), sep) == parts
    decreases |parts|
  {
    assert parts[0] in parts;
    if |parts| == 1 {
      SplitPart(parts[0], sep);
    } else {
      assert forall p :: p in parts[1..] ==> p in parts;
      SplitJoin(parts[1..], sep);
      SplitAt(parts[0], Join(parts[1..], sep), sep);
    }
  }

  lemma {:induction false} PartsAreFree(s: string, sep: char)
    ensures forall p :: p in Split(s, sep) ==> sep !in p
    ensures |Split(s, sep)| >= 2 <==> sep in s
    decreases |s|
  {
    if s != [] {
      PartsAreFree(s[1..], sep);
      var rest := Split(s[1..], sep);
      assert rest[0] in rest && forall p :: p in rest[1..] ==> p in rest;
      assert s == [s[0]] + s[1..];
    }
  }

  lemma {:induction false} JoinSplit(s: string, sep: char)
    ensures Join(Split(s, sep), sep) == s
    decreases |s|
  {
    if s != [] {
      JoinSplit(s[1..], sep);
      var rest := Split(s[1..], sep);
      if s[0] == sep {
        assert ([""] + rest)[1..] == rest;
      } else {
        assert ([[s[0]] + rest[0]] + rest[1..])[1..] == rest[1..];
      }
    }
  }

  /** Starting with `x` and the separator means that the first part is x. */
  lemma {:induction false} PrefixIsFirstPart(x: string, s: string, sep: char)
    requires sep !in x
    ensures x + [sep] <= s <==> |Split(s, sep)| > 1 && Split(s, sep)[0] == x
    decreases |s|
  {
    PrefixHead(x + [sep], s);
    if s != [] && x != [] && s[0] == x[0] {
      assert x[0] in x && x == [x[0]] + x[1..];
      PrefixIsFirstPart(x[1..], s[1..], sep);
      PrefixTail(x + [sep], s);
      assert (x + [sep])[1..] == x[1..] + [sep];
    } else if s != [] && x == [] {
      assert x + [sep] <= s <==> s[0] == sep;
    } else if s != [] {
      assert x[0] in x && (x + [sep])[0] == x[0];
    }
  }

  lemma PrefixHead(p: string, s: string)
    requires p != []
    ensures p <= s ==> s != [] && s[0] == p[0]
  {}

  lemma PrefixTail(p: string, s: string)
    requires p != [] && s != [] && p[0] == s[0]
    ensures p <= s <==> p[1..] <= s[1..]
  {}

  // ---------------------------------------------------------------- numbers

  /** White space that trim and parseInt skip (the ASCII ones, no-break space and byte-order mark). */
  predicate IsSpace(c: char) {
    c in {' ', '\t', '\n', '\r', '\U{000B}', '\U{000C}', '\U{00A0}', '\U{FEFF}'}
  }

  function SkipSpace(s: string): string {
    if s != [] && IsSpace(s[0]) then SkipSpace(s[1..]) else s
  }

  lemma {:induction false} SkipSpaceEmptyIff(s: string)
    ensures SkipSpace(s) == "" <==> forall i :: 0 <= i < |s| ==> IsSpace(s[i])
    decreases |s|
  {
    if s != [] {
      SkipSpaceEmptyIff(s[1..]);
      assert forall i :: 0 < i < |s| ==> s[i] == s[1..][i-1];
    }
  }

  function DigitValue(c: char): nat {
    if '0' <= c <= '9' then c as int - '0' as int
    else if 'a' <= c <= 'f' then c as int - 'a' as int + 10
    else if 'A' <= c <= 'F' then c as int - 'A' as int + 10
    else 16
  }

  /** The value of the longest prefix of digits, read after `acc`. */
  function Digits(s: string, radix: nat, acc: int): int {
    if s == [] || DigitValue(s[0]) >= radix then acc else Digits(s[1..], radix, acc * radix + DigitValue(s[0]))
  }

  function ParseUnsigned(s: string): Option<int> {
    var hex := |s| >= 2 && s[0] == '0' && (s[1] == 'x' || s[1] == 'X');
    var radix := if hex then 16 else 10;
    var digits := if hex then s[2..] else s;
    if digits == [] || DigitValue(digits[0]) >= radix then None else Some(Digits(digits, radix, 0))
  }

  /** `parseInt(s)`; None is NaN. */
  function ParseInt(s: string): Option<int> {
    var t := SkipSpace(s);
    if t != [] && t[0] == '-' then
      (match ParseUnsigned(t[1..]) case Some(n) => Some(-n) case None => None)
    else
      match ParseUnsigned(if t != [] && t[0] == '+' then t[1..] else t) case Some(n) => Some(n) case None => None
  }

  function DigitChar(d: nat): char
    requires d < 10
  {
    '0' + d as char
  }

  function Decimal(n: nat): string {
    if n < 10 then [DigitChar(n)] else Decimal(n / 10) + [DigitChar(n % 10)]
  }

  predicate AllDigits(s: string) {
    forall i :: 0 <= i < |s| ==> '0' <= s[i] <= '9'
  }

  lemma {:induction false} DecimalDigits(n: nat)
    ensures Decimal(n) != [] && AllDigits(Decimal(n))
  {
    if n >= 10 { DecimalDigits(n / 10); }
  }

  lemma {:induction false} DigitsAppend(s: string, d: nat, acc: nat)
    requires AllDigits(s) && d < 10
    ensures Digits(s + [DigitChar(d)], 10, acc) == Digits(s, 10, acc) * 10 + d
    decreases |s|
  {
    var t := s + [DigitChar(d)];
    if s == [] {
      assert t[1..] == [] && Digits(t[1..], 10, acc * 10 + d) == acc * 10 + d;
    } else {
      assert t[0] == s[0] && t[1..] == s[1..] + [DigitChar(d)];
      DigitsAppend(s[1..], d, acc * 10 + DigitValue(s[0]));
    }
  }

  lemma {:induction false} DigitsOfDecimal(n: nat)
    ensures Digits(Decimal(n), 10, 0) == n
  {
    if n >= 10 {
      DigitsOfDecimal(n / 10);
      DecimalDigits(n / 10);
      DigitsAppend(Decimal(n / 10), n % 10, 0);
    } else {
      var s := [DigitChar(n)];
      assert s[1..] == [] && Digits(s[1..], 10, n) == n;
    }
  }

  /** parseInt reads back every printed number. */
  lemma ParsePrinted(n: nat)
    ensures ParseInt(Decimal(n)) == Some(n)
  {
    DecimalDigits(n);
    DigitsOfDecimal(n);
    var s := Decimal(n);
    assert SkipSpace(s) == s && s[0] != '-' && s[0] != '+';
    assert |s| >= 2 ==> s[1] != 'x' && s[1] != 'X';
  }

  /** A printed number above zero does not start with 0. */
  lemma {:induction false} NoLeadingZero(n: nat)
    requires n > 0
    ensures '1' <= Decimal(n)[0] <= '9'
  {
    if n >= 10 { NoLeadingZero(n / 10); }
  }

  lemma {:induction false} DigitsStop(s: string, rest: string, radix: nat, acc: int)
    requires (forall i :: 0 <= i < |s| ==> DigitValue(s[i]) < radix) && (rest == [] || DigitValue(rest[0]) >= radix)
    ensures Digits(s + rest, radix, acc) == Digits(s, radix, acc)
    decreases |s|
  {
    if s == [] {
      assert s + rest == rest;
    } else {
      assert (s + rest)[1..] == s[1..] + rest;
      DigitsStop(s[1..], rest, radix, acc * radix + DigitValue(s[0]));
    }
  }

  lemma UnsignedFront(n: nat, rest: string)
    requires rest != [] ==> !('0' <= rest[0] <= '9') && (n == 0 ==> rest[0] != 'x' && rest[0] != 'X')
    ensures ParseUnsigned(Decimal(n) + rest) == Some(n) && '0' <= (Decimal(n) + rest)[0] <= '9'
  {
    var d := Decimal(n);
    DecimalDigits(n);
    DigitsOfDecimal(n);
    DigitsStop(d, rest, 10, 0);
    NoHexMark(n, rest);
    assert (d + rest)[0] == d[0];
  }

  lemma NoHexMark(n: nat, rest: string)
    requires n == 0 && rest != [] ==> rest[0] != 'x' && rest[0] != 'X'
    ensures var s := Decimal(n) + rest; !(|s| >= 2 && s[0] == '0' && (s[1] == 'x' || s[1] == 'X'))
  {
    if n > 0 { NoLeadingZero(n); } else { assert Decimal(n) == "0"; }
  }

  /** parseInt reads a number at the front of a text, with a sign or without, and stops at the first character that is
      no digit; only a leading "0x" is read otherwise. */
  lemma ParseFront(n: nat, rest: string)
    requires rest != [] ==> !('0' <= rest[0] <= '9') && (n == 0 ==> rest[0] != 'x' && rest[0] != 'X')
    ensures ParseInt(Decimal(n) + rest) == Some(n)
    ensures var minus := ParseInt("-" + (Decimal(n) + rest)); minus.Some? && minus.value + n == 0
  {
    var s := Decimal(n) + rest;
    UnsignedFront(n, rest);
    assert SkipSpace(s) == s;
    assert SkipSpace("-" + s) == "-" + s && ("-" + s)[1..] == s;
  }

  const HEX_DIGITS := "0123456789abcdef"

  type HexDigit = d: nat | d < 16

  function HexText(digits: seq<HexDigit>): string {
    if digits == [] then "" else [HEX_DIGITS[digits[0]]] + HexText(digits[1..])
  }

  function HexValue(digits: seq<HexDigit>, acc: int): int {
    if digits == [] then acc else HexValue(digits[1..], acc * 16 + digits[0])
  }

  lemma {:induction false} HexDigitsRead(digits: seq<HexDigit>, acc: int)
    ensures Digits(HexText(digits), 16, acc) == HexValue(digits, acc)
    decreases |digits|
  {
    if digits != [] {
      var first, rest := HEX_DIGITS[digits[0]], HexText(digits[1..]);
      DigitRead(digits[0]);
      HexDigitsRead(digits[1..], acc * 16 + digits[0]);
      DigitsFirst(first, rest, 16, acc);
    }
  }

  lemma DigitsFirst(first: char, rest: string, radix: nat, acc: int)
    requires DigitValue(first) < radix
    ensures Digits([first] + rest, radix, acc) == Digits(rest, radix, acc * radix + DigitValue(first))
  {
    assert ([first] + rest)[1..] == rest;
  }

  lemma DigitRead(d: HexDigit)
    ensures DigitValue(HEX_DIGITS[d]) == d
  {
    if d < 10 {
      assert HEX_DIGITS[d] == '0' + d as char;
    } else {
      assert HEX_DIGITS[d] == 'a' + (d - 10) as char;
    }
  }

  /** parseInt reads hexadecimal digits after "0x". */
  lemma ParseHex(digits: seq<HexDigit>)
    requires digits != []
    ensures ParseInt("0x" + HexText(digits)) == Some(HexValue(digits, 0))
  {
    var s := "0x" + HexText(digits);
    DigitRead(digits[0]);
    assert s[0] == '0' && s[1] == 'x' && s[2..] == HexText(digits);
    HexDigitsRead(digits, 0);
  }

  /** parseInt finds no number where a text starts with neither a digit, a sign nor white space. */
  lemma NoNumber(s: string)
    requires s != [] ==> !IsSpace(s[0]) && s[0] != '-' && s[0] != '+' && !('0' <= s[0] <= '9')
    ensures ParseInt(s) == None
  {}

  lemma DecimalInjective(a: nat, b: nat)
    requires Decimal(a) == Decimal(b)
    ensures a == b
  {
    ParsePrinted(a);
    ParsePrinted(b);
  }
}
