/** Decimal numerals: how f"{n}" prints a natural number, and how Python's int() reads bytes. */
module Decimal {
  import opened Wrappers

  /** A byte string; a byte is written as the character of its code. */
  type bytes = string

  predicate IsDigit(c: char) {
    '0' <= c <= '9'
  }

  function DigitOf(d: nat): char
    requires d < 10
  {
    '0' + d as char
  }

  function ValueOf(c: char): nat
    requires IsDigit(c)
  {
    c as nat - '0' as nat
  }

  /** f"{n}" */
  function Print(n: nat): bytes {
    if n < 10 then [DigitOf(n)] else Print(n / 10) + [DigitOf(n % 10)]
  }

  predicate IsSpace(c: char) {
    c == ' ' || '\t' <= c <= '\r'
  }

  function StripLeft(s: bytes): (r: bytes)
    ensures |r| <= |s|
  {
    if s != [] && IsSpace(s[0]) then StripLeft(s[1..]) else s
  }

  function StripRight(s: bytes): (r: bytes)
    ensures |r| <= |s|
  {
    if s != [] && IsSpace(s[|s| - 1]) then StripRight(s[..|s| - 1]) else s
  }

  /** Digits, with single underscores allowed between them. */
  function Unsigned(s: bytes): Option<nat> {
    if s == [] || !IsDigit(s[|s| - 1]) then None
    else if |s| == 1 then Some(ValueOf(s[0]))
    else
      var before := if s[|s| - 2] == '_' then s[..|s| - 2] else s[..|s| - 1];
      match Unsigned(before)
      case None => None
      case Some(high) => Some(high * 10 + ValueOf(s[|s| - 1]))
  }

  function Signed(sign: char, n: int): int {
    if sign == '-' then -n else n
  }

  /** int(value); None stands for a ValueError. */
  function Parse(s: bytes): Option<int> {
    var t := StripRight(StripLeft(s));
    if t != [] && (t[0] == '-' || t[0] == '+') then
      match Unsigned(t[1..])
      case None => None
      case Some(n) => Some(Signed(t[0], n))
    else
      match Unsigned(t)
      case None => None
      case Some(n) => Some(n)
  }

  predicate AllDigits(s: bytes) {
    forall i :: 0 <= i < |s| ==> IsDigit(s[i])
  }

  lemma {:induction false} PrintIsDigits(n: nat)
    ensures AllDigits(Print(n)) && Print(n) != []
  {
    if n >= 10 {
      PrintIsDigits(n / 10);
    }
  }

  lemma {:induction false} UnsignedPrint(n: nat)
    ensures Unsigned(Print(n)) == Some(n)
  {
    if n >= 10 {
      var high, s := Print(n / 10), Print(n);
      UnsignedPrint(n / 10);
      PrintIsDigits(n / 10);
      assert s[..|s| - 1] == high && s[|s| - 2] == high[|high| - 1];
    }
  }

  /** int() reads back every printed number. */
  lemma ParsePrint(n: nat)
    ensures Parse(Print(n)) == Some(n)
  {
    PrintIsDigits(n);
    UnsignedPrint(n);
  }

  function Power(k: nat): nat {
    if k == 0 then 1 else 10 * Power(k - 1)
  }

  /** A number below 10^k prints in at most k digits. */
  lemma {:induction false} PrintLength(n: nat, k: nat)
    requires k > 0 && n < Power(k)
    ensures 1 <= |Print(n)| <= k
  {
    if n >= 10 {
      assert k > 1;
      PrintLength(n / 10, k - 1);
    }
  }

  // ----- what int() allows

  /** Blanks, tabs, line and page breaks. */
  predicate White(s: bytes) {
    forall i :: 0 <= i < |s| ==> s[i] in {' ', '\t', '\n', '\U{B}', '\U{C}', '\r'}
  }

  lemma {:induction false} StripLeftSkips(before: bytes, s: bytes)
    requires White(before)
    ensures StripLeft(before + s) == StripLeft(s)
  {
    if before == [] {
      assert before + s == s;
    } else {
      assert (before + s)[1..] == before[1..] + s;
      StripLeftSkips(before[1..], s);
    }
  }

  lemma {:induction false} StripRightSkips(s: bytes, after: bytes)
    requires White(after)
    ensures StripRight(s + after) == StripRight(s)
  {
    if after == [] {
      assert s + after == s;
    } else {
      assert (s + after)[..|s + after| - 1] == s + after[..|after| - 1];
      StripRightSkips(s, after[..|after| - 1]);
    }
  }

  /** White space around a number and a plus sign before it change nothing; a minus sign negates it. */
  lemma ParseSpacedAndSigned(before: bytes, n: nat, after: bytes)
    requires White(before) && White(after)
    ensures Parse(before + Print(n) + after) == Some(n)
    ensures Parse(before + "+" + Print(n) + after) == Some(n)
    ensures Parse(before + "-" + Print(n) + after).Some? && Parse(before + "-" + Print(n) + after).value == -(n as int)
  {
    var digits := Print(n);
    PrintIsDigits(n);
    UnsignedPrint(n);
    hide Print, Unsigned, StripLeft, StripRight;
    assert "+" + digits + after == ['+'] + digits + after && "-" + digits + after == ['-'] + digits + after;
    Stripped(before, digits, after);
    Stripped(before, "+" + digits, after);
    Stripped(before, "-" + digits, after);
    assert ("+" + digits)[1..] == digits && ("-" + digits)[1..] == digits;
    assert before + ("+" + digits) + after == before + "+" + digits + after;
    assert before + ("-" + digits) + after == before + "-" + digits + after;
  }

  lemma Stripped(before: bytes, s: bytes, after: bytes)
    requires White(before) && White(after) && s != [] && !IsSpace(s[0]) && !IsSpace(s[|s| - 1])
    ensures StripRight(StripLeft(before + s + after)) == s
  {
    assert before + s + after == before + (s + after);
    StripLeftSkips(before, s + after);
    assert (s + after)[0] == s[0];
    StripRightSkips(s, after);
  }

  lemma UnsignedStep(s: bytes, before: bytes)
    requires |s| > 1 && IsDigit(s[|s| - 1])
    requires before == if s[|s| - 2] == '_' then s[..|s| - 2] else s[..|s| - 1]
    ensures Unsigned(s) == match Unsigned(before)
                           case None => None
                           case Some(high) => Some(high * 10 + ValueOf(s[|s| - 1]))
  {
  }

  /** A single underscore between digits is skipped. */
  lemma UnderscoreSeparates(high: bytes, last: char)
    requires IsDigit(last) && high != [] && IsDigit(high[|high| - 1])
    ensures Unsigned(high + "_" + [last]) == Unsigned(high + [last])
  {
    var s, t := high + "_" + [last], high + [last];
    hide Unsigned;
    assert s[..|s| - 2] == high && s[|s| - 2] == '_' && s[|s| - 1] == last;
    assert t[..|t| - 1] == high && t[|t| - 2] != '_' && t[|t| - 1] == last;
    UnsignedStep(s, high);
    UnsignedStep(t, high);
  }

  /** One in front, at the end or beside another is refused. */
  lemma StrayUnderscoreFails(high: bytes, last: char)
    requires high == [] || high[|high| - 1] == '_'
    ensures Unsigned(high + "_") == None && Unsigned(high + "_" + [last]) == None
  {
    var s := high + "_" + [last];
    assert s[..|s| - 2] == high && s[|s| - 2] == '_';
    assert Unsigned(high) == None;
    hide StripLeft, StripRight, Print;
  }
}
