/** The canonical text of a create request, `{"amount":%d,"currency":%q,"rail":%q}`, and its decoder. */
module Canonical {
  import opened Wrappers

  // ---------- %d

  const DIGITS := "0123456789"

  function Digits(n: nat): (s: string)
    ensures |s| > 0 && forall c :: c in s ==> c in DIGITS
  {
    if n < 10 then [DIGITS[n]] else Digits(n / 10) + [DIGITS[n % 10]]
  }

  function Decimal(n: int): string {
    if n < 0 then "-" + Digits(-n) else Digits(n)
  }

  function DigitValue(c: char): nat {
    if '0' <= c <= '9' then c as nat - '0' as nat else 0
  }

  function Value(s: string): nat {
    if s == "" then 0 else 10 * Value(s[..|s| - 1]) + DigitValue(s[|s| - 1])
  }

  function ReadDecimal(s: string): int {
    if s != "" && s[0] == '-' then 0 - Value(s[1..]) else Value(s)
  }

  lemma {:induction false} ValueOfDigits(n: nat)
    ensures Value(Digits(n)) == n
  {
    if n >= 10 {
      ValueOfDigits(n / 10);
      assert Digits(n)[..|Digits(n)| - 1] == Digits(n / 10);
    } else {
      assert Digits(n)[..0] == "";
    }
  }

  /** A decimal text starts with a digit exactly when the number is not negative. */
  lemma DigitsStart(n: nat)
    ensures Digits(n)[0] in DIGITS && Digits(n)[0] != '-' && ',' !in Digits(n)
  {
    hide Digits;
    var c := Digits(n)[0];
    assert c in Digits(n);
    assert '-' !in DIGITS;
    assert ',' !in DIGITS;
  }

  lemma DecimalReadsBack(n: int)
    ensures ReadDecimal(Decimal(n)) == n
    ensures ',' !in Decimal(n)
  {
    hide Digits, Value;
    var m: nat := if n < 0 then -n else n;
    ValueOfDigits(m);
    DigitsStart(m);
    if n < 0 {
      assert ("-" + Digits(m))[1..] == Digits(m);
    }
  }

  // ---------- %q

  const HEX := "0123456789abcdef"

  function HexDigits(n: nat, width: nat): (s: string)
    ensures |s| == width
  {
    if width == 0 then "" else HexDigits(n / 16, width - 1) + [HEX[n % 16]]
  }

  function Quoted(c: char, isPrint: char -> bool): string {
    if c == '"' || c == '\\' then ['\\', c]
    else if isPrint(c) then [c]
    else match c as int
      case 7 => "\\a"
      case 8 => "\\b"
      case 12 => "\\f"
      case 10 => "\\n"
      case 13 => "\\r"
      case 9 => "\\t"
      case 11 => "\\v"
      case n =>
        if n < 32 || n == 127 then "\\x" + HexDigits(n, 2)
        else if n < 0x1_0000 then "\\u" + HexDigits(n, 4)
        else "\\U" + HexDigits(n, 8)
  }

  function QuotedAll(s: string, isPrint: char -> bool): string {
    if s == "" then "" else Quoted(s[0], isPrint) + QuotedAll(s[1..], isPrint)
  }

  /** strconv.Quote, for whatever characters the Unicode tables call printable. */
  function Quote(s: string, isPrint: char -> bool): string {
    "\"" + QuotedAll(s, isPrint) + "\""
  }

  // ---------- reading it back

  function HexValue(c: char): nat {
    if '0' <= c <= '9' then c as nat - '0' as nat
    else if 'a' <= c <= 'f' then 10 + (c as nat - 'a' as nat)
    else 0
  }

  function ReadHex(s: string): nat {
    if s == "" then 0 else 16 * ReadHex(s[..|s| - 1]) + HexValue(s[|s| - 1])
  }

  function Pow16(width: nat): nat {
    if width == 0 then 1 else 16 * Pow16(width - 1)
  }

  lemma HexDigitValue(k: nat)
    requires k < 16
    ensures HexValue(HEX[k]) == k
  {
  }

  lemma {:induction false} HexReadsBack(n: nat, width: nat)
    requires n < Pow16(width)
    ensures ReadHex(HexDigits(n, width)) == n
  {
    if width > 0 {
      HexReadsBack(n / 16, width - 1);
      assert HexDigits(n, width)[..width - 1] == HexDigits(n / 16, width - 1);
      HexDigitValue(n % 16);
    }
  }

  function Scalar(n: nat): Option<char> {
    if n < 0xD800 || 0xE000 <= n < 0x11_0000 then Some(n as char) else None
  }

  /** The character at the front of s, and the length of the text that stands for it. */
  function ReadChar(s: string): Option<(char, nat)>
    requires s != ""
  {
    if s[0] != '\\' then Some((s[0], 1))
    else if |s| < 2 then None
    else match s[1]
      case '"' => Some(('"', 2))
      case '\\' => Some(('\\', 2))
      case 'a' => Some((7 as char, 2))
      case 'b' => Some((8 as char, 2))
      case 'f' => Some((12 as char, 2))
      case 'n' => Some((10 as char, 2))
      case 'r' => Some((13 as char, 2))
      case 't' => Some((9 as char, 2))
      case 'v' => Some((11 as char, 2))
      case 'x' => ReadCode(s, 4)
      case 'u' => ReadCode(s, 6)
      case 'U' => ReadCode(s, 10)
      case _ => None
  }

  function ReadCode(s: string, length: nat): Option<(char, nat)>
    requires length >= 2
  {
    if |s| < length then None
    else match Scalar(ReadHex(s[2..length]))
      case None => None
      case Some(c) => Some((c, length))
  }

  lemma CodeReadsBack(c: char, letter: char, width: nat, rest: string)
    requires c as nat < Pow16(width)
    ensures ReadCode(['\\', letter] + HexDigits(c as nat, width) + rest, 2 + width) == Some((c, 2 + width))
  {
    var s := ['\\', letter] + HexDigits(c as nat, width) + rest;
    assert s[2..2 + width] == HexDigits(c as nat, width);
    HexReadsBack(c as nat, width);
  }

  lemma PowersOf16()
    ensures Pow16(2) == 0x100 && Pow16(4) == 0x1_0000 && Pow16(8) == 0x1_0000_0000
  {
    assert Pow16(4) == 16 * 16 * Pow16(2);
    assert Pow16(6) == 16 * 16 * Pow16(4);
    assert Pow16(8) == 16 * 16 * Pow16(6);
  }

  // Others that do not print: by their code, of two, four or eight digits.
  lemma QuotedByCode(c: char, isPrint: char -> bool)
    requires !isPrint(c) && c != '"' && c != '\\' && c as int !in {7, 8, 9, 10, 11, 12, 13}
    ensures Quoted(c, isPrint) ==
      if c as int < 32 || c as int == 127 then "\\x" + HexDigits(c as int, 2)
      else if c as int < 0x1_0000 then "\\u" + HexDigits(c as int, 4)
      else "\\U" + HexDigits(c as int, 8)
  {
    hide HexDigits;
  }

  predicate HasOwnEscape(c: char, isPrint: char -> bool) {
    c == '"' || c == '\\' || isPrint(c) || c as int in {7, 8, 9, 10, 11, 12, 13}
  }

  lemma ShortReadsBack(c: char, isPrint: char -> bool, rest: string)
    requires HasOwnEscape(c, isPrint)
    ensures Quoted(c, isPrint) != "" && Quoted(c, isPrint)[0] != '"'
    ensures ReadChar(Quoted(c, isPrint) + rest) == Some((c, |Quoted(c, isPrint)|))
  {
    hide HexDigits, ReadCode;
  }

  // The letter before a code tells its length.
  lemma ReadsCode(letter: char, s: string)
    requires s != "" && s[0] == '\\' && |s| >= 2 && s[1] == letter && letter in {'x', 'u', 'U'}
    ensures ReadChar(s) == ReadCode(s, if letter == 'x' then 4 else if letter == 'u' then 6 else 10)
  {
    hide ReadCode;
  }

  lemma CodedReadsBack(c: char, isPrint: char -> bool, rest: string)
    requires !HasOwnEscape(c, isPrint)
    ensures Quoted(c, isPrint) != "" && Quoted(c, isPrint)[0] != '"'
    ensures ReadChar(Quoted(c, isPrint) + rest) == Some((c, |Quoted(c, isPrint)|))
  {
    PowersOf16();
    QuotedByCode(c, isPrint);
    hide HexDigits, ReadCode, ReadChar, Quoted, Pow16;
    var (letter, width) :=
      if c as int < 32 || c as int == 127 then ('x', 2) else if c as int < 0x1_0000 then ('u', 4) else ('U', 8);
    var q := ['\\', letter] + HexDigits(c as int, width);
    assert Quoted(c, isPrint) == q;
    CodeReadsBack(c, letter, width, rest);
    ReadsCode(letter, q + rest);
  }

  /** One escaped character reads back, whatever follows it. */
  lemma CharReadsBack(c: char, isPrint: char -> bool, rest: string)
    ensures Quoted(c, isPrint) != "" && Quoted(c, isPrint)[0] != '"'
    ensures ReadChar(Quoted(c, isPrint) + rest) == Some((c, |Quoted(c, isPrint)|))
  {
    hide Quoted, ReadChar;
    if HasOwnEscape(c, isPrint) { ShortReadsBack(c, isPrint, rest); } else { CodedReadsBack(c, isPrint, rest); }
  }

  /** The string up to the closing quote, and what follows. */
  function ReadQuoted(s: string): Option<(string, string)>
    decreases |s|
  {
    if s == "" then None
    else if s[0] == '"' then Some(("", s[1..]))
    else match ReadChar(s)
      case None => None
      case Some((c, length)) =>
        if length == 0 || length > |s| then None
        else match ReadQuoted(s[length..])
          case None => None
          case Some((tail, rest)) => Some(([c] + tail, rest))
  }

  lemma ReadsOneMore(c: char, q: string, after: string, tail: string, rest: string)
    requires q != "" && q[0] != '"' && ReadChar(q + after) == Some((c, |q|))
    requires ReadQuoted(after) == Some((tail, rest))
    ensures ReadQuoted(q + after) == Some(([c] + tail, rest))
  {
    hide ReadChar;
    assert (q + after)[0] == q[0];
    assert (q + after)[|q|..] == after;
  }

  lemma {:induction false} QuotedReadsBack(s: string, isPrint: char -> bool, rest: string)
    ensures ReadQuoted(QuotedAll(s, isPrint) + "\"" + rest) == Some((s, rest))
  {
    hide ReadChar, Quoted;
    if s == "" {
      assert QuotedAll(s, isPrint) + "\"" + rest == "\"" + rest;
      assert ("\"" + rest)[1..] == rest;
    } else {
      var q := Quoted(s[0], isPrint);
      var after := QuotedAll(s[1..], isPrint) + "\"" + rest;
      assert QuotedAll(s, isPrint) + "\"" + rest == q + after;
      CharReadsBack(s[0], isPrint, after);
      QuotedReadsBack(s[1..], isPrint, rest);
      ReadsOneMore(s[0], q, after, s[1..], rest);
      assert [s[0]] + s[1..] == s;
    }
  }

  // ---------- the text

  const AMOUNT := "{\"amount\":"
  const CURRENCY := ",\"currency\":"
  const RAIL := ",\"rail\":"

  /** The text that canonicalHash hashes. */
  function Text(amount: int, currency: string, rail: string, isPrint: char -> bool): string {
    AMOUNT + Decimal(amount) + CURRENCY + Quote(currency, isPrint) + RAIL + Quote(rail, isPrint) + "}"
  }

  /** Up to the first comma, and from there. */
  function SplitAtComma(s: string): (string, string) {
    if s == "" || s[0] == ',' then ("", s)
    else var (a, b) := SplitAtComma(s[1..]); ([s[0]] + a, b)
  }

  lemma {:induction false} SplitsAtComma(a: string, b: string)
    requires ',' !in a && b != "" && b[0] == ','
    ensures SplitAtComma(a + b) == (a, b)
  {
    if a == "" {
      assert a + b == b;
    } else {
      assert (a + b)[0] == a[0];
      assert (a + b)[1..] == a[1..] + b;
      SplitsAtComma(a[1..], b);
      assert [a[0]] + a[1..] == a;
    }
  }

  function Drop(s: string, n: nat): string {
    if n <= |s| then s[n..] else ""
  }

  function Decode(text: string): Option<(int, string, string)> {
    var (amount, afterAmount) := SplitAtComma(Drop(text, |AMOUNT|));
    match ReadQuoted(Drop(afterAmount, |CURRENCY| + 1))
    case None => None
    case Some((currency, afterCurrency)) =>
      match ReadQuoted(Drop(afterCurrency, |RAIL| + 1))
      case None => None
      case Some((rail, _)) => Some((ReadDecimal(amount), currency, rail))
  }

  lemma Skip(prefix: string, rest: string)
    ensures Drop(prefix + rest, |prefix|) == rest
  {
  }

  /** The text determines the amount, the currency and the rail: decoding gives them back. */
  lemma TextReadsBack(amount: int, currency: string, rail: string, isPrint: char -> bool)
    ensures Decode(Text(amount, currency, rail, isPrint)) == Some((amount, currency, rail))
  {
    hide Decimal, ReadDecimal, QuotedAll, ReadQuoted, SplitAtComma;
    var text := Text(amount, currency, rail, isPrint);
    var afterRail := "}";
    var quotedRail := QuotedAll(rail, isPrint) + "\"" + afterRail;
    var afterCurrency := RAIL + "\"" + quotedRail;
    var quotedCurrency := QuotedAll(currency, isPrint) + "\"" + afterCurrency;
    var afterAmount := CURRENCY + "\"" + quotedCurrency;
    assert text == AMOUNT + (Decimal(amount) + afterAmount);
    Skip(AMOUNT, Decimal(amount) + afterAmount);
    DecimalReadsBack(amount);
    SplitsAtComma(Decimal(amount), afterAmount);
    Skip(CURRENCY + "\"", quotedCurrency);
    QuotedReadsBack(currency, isPrint, afterCurrency);
    Skip(RAIL + "\"", quotedRail);
    QuotedReadsBack(rail, isPrint, afterRail);
  }

  /** Two requests with the same text are the same request. */
  lemma TextIsInjective(a: int, c: string, r: string, a': int, c': string, r': string, isPrint: char -> bool)
    requires Text(a, c, r, isPrint) == Text(a', c', r', isPrint)
    ensures a == a' && c == c' && r == r'
  {
    TextReadsBack(a, c, r, isPrint);
    TextReadsBack(a', c', r', isPrint);
  }

  // Nothing to escape.
  predicate IsPlain(s: string, isPrint: char -> bool) {
    forall c :: c in s ==> isPrint(c) && c != '"' && c != '\\'
  }

  lemma PlainChar(c: char, isPrint: char -> bool)
    requires isPrint(c) && c != '"' && c != '\\'
    ensures Quoted(c, isPrint) == [c]
  {
  }

  lemma {:induction false} PlainStays(s: string, isPrint: char -> bool)
    requires IsPlain(s, isPrint)
    ensures QuotedAll(s, isPrint) == s
  {
    hide Quoted;
    if s != "" {
      assert s[0] in s && forall c :: c in s[1..] ==> c in s;
      PlainChar(s[0], isPrint);
      PlainStays(s[1..], isPrint);
      assert QuotedAll(s, isPrint) == [s[0]] + s[1..];
      assert [s[0]] + s[1..] == s;
    }
  }

  /** The text of an order whose currency and rail need no escapes. */
  lemma TextOfPlainOrder(amount: int, currency: string, rail: string, isPrint: char -> bool)
    requires IsPlain(currency, isPrint) && IsPlain(rail, isPrint)
    ensures Text(amount, currency, rail, isPrint) ==
      "{\"amount\":" + Decimal(amount) + (",\"currency\":\"" + currency + "\"") + (",\"rail\":\"" + rail + "\"") + "}"
  {
    PlainStays(currency, isPrint);
    PlainStays(rail, isPrint);
    hide QuotedAll, Decimal;
    Field(CURRENCY, currency);
    Field(RAIL, rail);
    FiveParts(AMOUNT + Decimal(amount), CURRENCY, Quote(currency, isPrint), RAIL, Quote(rail, isPrint));
    assert CURRENCY + "\"" == ",\"currency\":\"" && RAIL + "\"" == ",\"rail\":\"";
  }

  lemma Field(name: string, value: string)
    ensures name + ("\"" + value + "\"") == (name + "\"") + value + "\""
  {
  }

  lemma FiveParts(a: string, b: string, c: string, d: string, e: string)
    ensures a + b + c + d + e + "}" == a + (b + c) + (d + e) + "}"
  {
  }

  /** Digits without a leading zero, and a sign in front of a negative number only. */
  lemma {:induction false} NoLeadingZero(n: nat)
    ensures n > 0 ==> Digits(n)[0] != '0'
    ensures Digits(0) == "0" && Decimal(n) == Digits(n) && (n > 0 ==> Decimal(0 - n) == "-" + Digits(n))
  {
    if n >= 10 { NoLeadingZero(n / 10); }
  }

  /** The escapes of the characters that have one of their own. */
  lemma Escapes(isPrint: char -> bool)
    requires forall c: char :: c < ' ' ==> !isPrint(c)
    ensures Quoted('"', isPrint) == "\\\"" && Quoted('\\', isPrint) == "\\\\"
    ensures Quoted('\n', isPrint) == "\\n" && Quoted('\t', isPrint) == "\\t" && Quoted('\r', isPrint) == "\\r"
    ensures Quoted(7 as char, isPrint) == "\\a" && Quoted(8 as char, isPrint) == "\\b"
    ensures Quoted(11 as char, isPrint) == "\\v" && Quoted(12 as char, isPrint) == "\\f"
  {
    hide HexDigits;
  }

  /** One of each. */
  lemma EscapesByCode(c: char, isPrint: char -> bool)
    requires !isPrint(c) && c as int in {0x1e, 0xe0af, 0x1_00bd}
    ensures Quoted(c, isPrint) ==
      if c as int == 0x1e then "\\x1e" else if c as int == 0xe0af then "\\ue0af" else "\\U000100bd"
  {
    hide HexDigits, Quoted;
    QuotedByCode(c, isPrint);
    Hex2(0x1e);
    Hex4(0xe0af);
    Hex8(0x1_00bd);
  }

  lemma Hex2(n: nat)
    requires n == 0x1e
    ensures HexDigits(n, 2) == "1e"
  {
    HexOf(0x1e, 0x1, 'e');
    HexOf(0x1, 0, '1');
    assert HexDigits(0, 0) == "";
  }

  // The last digit of a code.
  lemma HexOf(n: nat, rest: nat, digit: char)
    requires n / 16 == rest && HEX[n % 16] == digit
    ensures forall width: nat :: width > 0 ==> HexDigits(n, width) == HexDigits(rest, width - 1) + [digit]
  {
  }

  lemma Hex4(n: nat)
    requires n == 0xe0af
    ensures HexDigits(n, 4) == "e0af"
  {
    HexOf(0xe0af, 0xe0a, 'f');
    HexOf(0xe0a, 0xe0, 'a');
    HexOf(0xe0, 0xe, '0');
    HexOf(0xe, 0, 'e');
    assert HexDigits(0, 0) == "";
  }

  lemma Hex8(n: nat)
    requires n == 0x1_00bd
    ensures HexDigits(n, 8) == "000100bd"
  {
    HexOf(0x1_00bd, 0x1_00b, 'd');
    HexOf(0x1_00b, 0x1_00, 'b');
    HexOf(0x1_00, 0x1_0, '0');
    HexOf(0x1_0, 0x1, '0');
    HexOf(0x1, 0, '1');
    HexOf(0, 0, '0');
    assert HexDigits(0, 0) == "";
  }
}
