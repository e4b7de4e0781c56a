/** Public order numbers: a short block format, then padded base 36, with the
    decoder that shows no two sequence numbers share a rendering. */
module OrderNumbers {
  import opened Prelude

  const ALPHABET := "0123456789ABCDEFGHIJKLMNOPQRSTUVWXYZ"
  const CAPACITY := 26_000

  function Digit(d: nat): char
    requires d < 36
  {
    ALPHABET[d]
  }

  function DigitValue(c: char): nat {
    if '0' <= c <= '9' then (c - '0') as nat
    else if 'A' <= c <= 'Z' then (c - 'A') as nat + 10
    else 0
  }

  lemma DigitsInvert(d: nat)
    requires d < 36
    ensures DigitValue(Digit(d)) == d
    ensures '0' <= Digit(d) <= '9' || 'A' <= Digit(d) <= 'Z'
  {
    assert ALPHABET[0..36] == ALPHABET;
  }

  /** Positional notation without padding; zero is the empty string. */
  function Base36(n: nat): string {
    if n == 0 then "" else Base36(n / 36) + [Digit(n % 36)]
  }

  function Value36(s: string): nat {
    if s == "" then 0 else Value36(s[..|s| - 1]) * 36 + DigitValue(s[|s| - 1])
  }

  function Padded(s: string, width: nat): string
    decreases width - |s|
  {
    if |s| >= width then s else Padded("0" + s, width)
  }

  function Short(block: nat, hundreds: nat, tens: nat, units: nat): string
    requires block < 26 && hundreds < 10 && tens < 10 && units < 10
  {
    [('A' as int + block) as char, Digit(hundreds), Digit(tens), Digit(units)]
  }

  function Block(offset: nat): string
    requires offset < CAPACITY
  {
    var rest := offset % 1_000;
    Short(offset / 1_000, rest / 100, rest / 10 % 10, rest % 10)
  }

  function Format(sequence: int): Result<string> {
    if sequence < 1 then Failure(ValueError)
    else
      var offset := sequence - 1;
      if offset < CAPACITY then Success(Block(offset)) else Success("X" + Padded(Base36(sequence), 6))
  }

  /** Reads a public number back: four characters are a block number, more are base 36. */
  function Parse(number: string): nat {
    if |number| == 4 && 'A' <= number[0] <= 'Z' then
      (number[0] - 'A') as nat * 1_000 + DigitValue(number[1]) * 100 + DigitValue(number[2]) * 10
      + DigitValue(number[3]) + 1
    else if number != "" then Value36(number[1..])
    else 0
  }

  lemma {:induction false} Base36Inverts(n: nat)
    ensures Value36(Base36(n)) == n
  {
    if n > 0 {
      Base36Inverts(n / 36);
      DigitsInvert(n % 36);
    }
  }

  lemma {:induction false} LeadingZero(s: string)
    ensures Value36("0" + s) == Value36(s)
  {
    if s == "" {
      assert ("0" + s)[..0] == "";
      assert Value36("0" + s) == Value36("") * 36 + DigitValue('0');
    } else {
      var n := |s| - 1;
      assert ("0" + s)[..|s|] == "0" + s[..n];
      LeadingZero(s[..n]);
    }
  }

  lemma {:induction false} PaddingKeepsValue(s: string, width: nat)
    ensures Value36(Padded(s, width)) == Value36(s)
    ensures |Padded(s, width)| >= width
    decreases width - |s|
  {
    if |s| < width {
      LeadingZero(s);
      PaddingKeepsValue("0" + s, width);
    }
  }

  lemma ShortParses(block: nat, hundreds: nat, tens: nat, units: nat)
    requires block < 26 && hundreds < 10 && tens < 10 && units < 10
    ensures Parse(Short(block, hundreds, tens, units)) == block * 1_000 + hundreds * 100 + tens * 10 + units + 1
  {
    DigitsInvert(hundreds);
    DigitsInvert(tens);
    DigitsInvert(units);
  }

  lemma ThreeDigits(rest: nat)
    requires rest < 1_000
    ensures rest == rest / 100 * 100 + rest / 10 % 10 * 10 + rest % 10
  {
    assert rest / 10 == rest / 100 * 10 + rest / 10 % 10;
  }

  lemma BlockInverts(offset: nat)
    requires offset < CAPACITY
    ensures Parse(Block(offset)) == offset + 1
  {
    var block, rest := offset / 1_000, offset % 1_000;
    var hundreds, tens, units := rest / 100, rest / 10 % 10, rest % 10;
    assert Block(offset) == Short(block, hundreds, tens, units);
    assert offset == block * 1_000 + rest;
    ThreeDigits(rest);
    ShortParses(block, hundreds, tens, units);
  }

  lemma LongInverts(sequence: int)
    requires CAPACITY < sequence
    ensures Format(sequence).Success? && Parse(Format(sequence).value) == sequence
  {
    var digits := Padded(Base36(sequence), 6);
    Base36Inverts(sequence);
    PaddingKeepsValue(Base36(sequence), 6);
    assert ("X" + digits)[1..] == digits;
    assert Format(sequence) == Success("X" + digits);
  }

  /** The decoder inverts the format on every positive sequence number. */
  lemma ParseInvertsFormat(sequence: int)
    requires sequence >= 1
    ensures Format(sequence).Success? && Parse(Format(sequence).value) == sequence
  {
    hide Parse;
    hide Block;
    hide Base36;
    hide Padded;
    if sequence <= CAPACITY { BlockInverts(sequence - 1); } else { LongInverts(sequence); }
  }

  /** No two sequence numbers share a public number, across both formats. */
  lemma NumbersAreDistinct(a: int, b: int)
    requires Format(a).Success? && Format(a) == Format(b)
    ensures a == b
  {
    ParseInvertsFormat(a);
    ParseInvertsFormat(b);
  }

  /** Digits collected low to high and reversed at the end. */
  method Base36Loop(value: nat) returns (s: string)
    ensures s == Base36(value)
  {
    var rest, digits := value, [];
    while rest > 0
      invariant Base36(value) == Base36(rest) + Reversed(digits)
    {
      var digit := [Digit(rest % 36)];
      assert Reversed(digits + digit) == digit + Reversed(digits) by { ReversedSnoc(digits, digit[0]); }
      rest, digits := rest / 36, digits + digit;
    }
    return Reversed(digits);
  }

  function Reversed(s: string): string {
    if s == "" then "" else Reversed(s[1..]) + [s[0]]
  }

  lemma ReversedSnoc(s: string, c: char)
    ensures Reversed(s + [c]) == [c] + Reversed(s)
  {
    if s != "" {
      assert (s + [c])[1..] == s[1..] + [c];
    }
  }
}
