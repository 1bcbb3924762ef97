/** The pieces of Python string formatting the core relies on: `str()` of an integer,
    `uuid.hex`, `strftime("%H:%M:%S")`, `str.join`, `str.strip` and `str.upper`. */
module PyText {

  predicate IsDigit(c: char) { '0' <= c <= '9' }

  function DigitChar(d: nat): (c: char)
    requires d < 10
    ensures IsDigit(c) && c as int - '0' as int == d
  {
    (d + '0' as int) as char
  }

  function DigitValue(c: char): nat
    requires IsDigit(c)
  {
    c as int - '0' as int
  }

  /** `str(n)` for a non-negative integer: its decimal digits, without leading zeros. */
  function NatToDecimal(n: nat): (s: string)
    ensures |s| >= 1
    ensures forall i :: 0 <= i < |s| ==> IsDigit(s[i])
    decreases n
  {
    if n < 10 then [DigitChar(n)] else NatToDecimal(n / 10) + [DigitChar(n % 10)]
  }

  /** `str(n)` for any integer: a minus sign in front of negative values. */
  function IntToDecimal(n: int): (s: string)
    ensures '_' !in s && |s| >= 1
  {
    if n < 0 then "-" + NatToDecimal(-n) else NatToDecimal(n)
  }

  /** `int(s)` for a string of decimal digits. */
  function ParseDecimal(s: string): nat
    requires forall i :: 0 <= i < |s| ==> IsDigit(s[i])
  {
    if |s| == 0 then 0 else ParseDecimal(s[..|s| - 1]) * 10 + DigitValue(s[|s| - 1])
  }

  /** `int(s)` for an optional minus sign followed by decimal digits. */
  function ParseInt(s: string): int
    requires |s| >= 1
    requires s[0] == '-' ==> forall i :: 1 <= i < |s| ==> IsDigit(s[i])
    requires s[0] != '-' ==> forall i :: 0 <= i < |s| ==> IsDigit(s[i])
  {
    if s[0] == '-' then -(ParseDecimal(s[1..]) as int) else ParseDecimal(s)
  }

  lemma {:induction false} NatDecimalRoundTrip(n: nat)
    ensures ParseDecimal(NatToDecimal(n)) == n
    decreases n
  {
    var s := NatToDecimal(n);
    if n < 10 {
      assert s[..|s| - 1] == [];
    } else {
      assert s[..|s| - 1] == NatToDecimal(n / 10);
      NatDecimalRoundTrip(n / 10);
    }
  }

  lemma {:induction false} IntDecimalRoundTrip(n: int)
    ensures ParseInt(IntToDecimal(n)) == n
  {
    var s := IntToDecimal(n);
    if n < 0 {
      assert s[1..] == NatToDecimal(-n);
      NatDecimalRoundTrip(-n);
    } else {
      NatDecimalRoundTrip(n);
    }
  }

  /** Distinct integers print differently. */
  lemma {:induction false} IntToDecimalInjective(m: int, n: int)
    ensures IntToDecimal(m) == IntToDecimal(n) ==> m == n
  {
    IntDecimalRoundTrip(m);
    IntDecimalRoundTrip(n);
  }

  predicate IsLowerHex(c: char) { '0' <= c <= '9' || 'a' <= c <= 'f' }

  function HexChar(d: nat): (c: char)
    requires d < 16
    ensures IsLowerHex(c)
  {
    if d < 10 then (d + '0' as int) as char else (d - 10 + 'a' as int) as char
  }

  /** The low `width` hexadecimal digits of `n`, most significant first, zero-padded. */
  function HexDigits(n: nat, width: nat): (s: string)
    ensures |s| == width
    ensures forall i :: 0 <= i < |s| ==> IsLowerHex(s[i])
  {
    if width == 0 then [] else HexDigits(n / 16, width - 1) + [HexChar(n % 16)]
  }

  function HexValue(c: char): nat
    requires IsLowerHex(c)
  {
    if c <= '9' then c as int - '0' as int else c as int - 'a' as int + 10
  }

  /** The number a string of hexadecimal digits denotes, most significant first. */
  function ParseHex(s: string): nat
    requires forall i :: 0 <= i < |s| ==> IsLowerHex(s[i])
  {
    if |s| == 0 then 0 else ParseHex(s[..|s| - 1]) * 16 + HexValue(s[|s| - 1])
  }

  function Pow16(k: nat): (p: nat)
    ensures p > 0
  {
    if k == 0 then 1 else 16 * Pow16(k - 1)
  }

  /** Splitting off the last hexadecimal digit: `n mod 16^(k+1)` is `(n div 16) mod 16^k`
      followed by the digit `n mod 16`. */
  lemma ModPow16Step(n: nat, k: nat)
    ensures (n / 16) % Pow16(k) * 16 + n % 16 == n % Pow16(k + 1)
  {
    var p := Pow16(k);
    var q, m := (n / 16) / p, (n / 16) % p;
    assert n / 16 == q * p + m;
    assert n == 16 * (n / 16) + n % 16;
    assert n == (16 * p) * q + (16 * m + n % 16);
    assert 0 <= 16 * m + n % 16 < 16 * p;
    ModUnique(n, 16 * p, q, 16 * m + n % 16);
  }

  /** The remainder is the unique value in range that differs from `n` by a multiple of `d`. */
  lemma ModUnique(n: nat, d: nat, q: nat, r: nat)
    requires d > 0 && n == d * q + r && r < d
    ensures n % d == r
  {
    var q', r' := n / d, n % d;
    assert d * q + r == d * q' + r';
    if q' < q {
      MulAtLeast(d, q - q');
    } else if q < q' {
      MulAtLeast(d, q' - q);
    }
  }

  lemma {:induction false} MulAtLeast(d: nat, k: nat)
    requires k >= 1
    ensures d * k >= d
  {
    if k > 1 {
      MulAtLeast(d, k - 1);
      assert d * k == d * (k - 1) + d;
    }
  }

  lemma {:induction false} Pow16Add(a: nat, b: nat)
    ensures Pow16(a + b) == Pow16(a) * Pow16(b)
  {
    if a > 0 {
      Pow16Add(a - 1, b);
      assert Pow16(a + b) == 16 * Pow16(a - 1 + b);
    }
  }

  /** `HexDigits` writes the low `width` hexadecimal digits of `n`: reading them back gives
      `n` modulo `16^width`. */
  lemma {:induction false} HexDigitsRoundTrip(n: nat, width: nat)
    ensures ParseHex(HexDigits(n, width)) == n % Pow16(width)
  {
    if width > 0 {
      var s := HexDigits(n, width);
      var d := n % 16;
      assert s[..|s| - 1] == HexDigits(n / 16, width - 1);
      assert HexValue(HexChar(d)) == d;
      HexDigitsRoundTrip(n / 16, width - 1);
      ModPow16Step(n, width - 1);
    }
  }

  const UuidBound: nat := 0x1_0000_0000_0000_0000_0000_0000_0000_0000

  /** `uuid.hex`: the 128-bit value of a UUID as 32 lower-case hexadecimal digits. */
  function UuidHex(u: nat): (s: string)
    requires u < UuidBound
    ensures |s| == 32
  {
    HexDigits(u, 32)
  }

  /** A UUID has 32 hexadecimal digits. */
  lemma Pow16UuidBound()
    ensures Pow16(32) == UuidBound
  {
    assert Pow16(4) == 0x1_0000 by {
      assert Pow16(2) == 16 * Pow16(1) == 0x100;
      assert Pow16(4) == 16 * Pow16(3) == 0x100 * Pow16(2);
    }
    Pow16Add(4, 4);
    var p8 := Pow16(8);
    assert p8 == 0x1_0000_0000;
    Pow16Add(8, 8);
    var p16 := Pow16(16);
    assert p16 == 0x1_0000_0000_0000_0000;
    Pow16Add(16, 16);
  }

  /** `uuid.hex` denotes the UUID's value: reading its 32 digits back gives the UUID. */
  lemma UuidHexRoundTrip(u: nat)
    requires u < UuidBound
    ensures ParseHex(UuidHex(u)) == u
  {
    Pow16UuidBound();
    HexDigitsRoundTrip(u, 32);
  }

  function TwoDigits(n: nat): (s: string)
    requires n < 100
    ensures |s| == 2 && IsDigit(s[0]) && IsDigit(s[1])
    ensures DigitValue(s[0]) * 10 + DigitValue(s[1]) == n
  {
    [DigitChar(n / 10), DigitChar(n % 10)]
  }

  /** A wall-clock time of day, as `datetime.now()` supplies it. */
  datatype TimeOfDay = TimeOfDay(hour: nat, minute: nat, second: nat) {
    ghost predicate Valid() { hour < 24 && minute < 60 && second < 60 }
  }

  /** `strftime("%H:%M:%S")`. */
  function ClockStamp(t: TimeOfDay): (s: string)
    requires t.Valid()
    ensures |s| == 8 && s[2] == ':' && s[5] == ':'
  {
    TwoDigits(t.hour) + ":" + TwoDigits(t.minute) + ":" + TwoDigits(t.second)
  }

  /** Reading the fields back from a stamp gives the time it was made from. */
  lemma {:induction false} ClockStampInjective(t: TimeOfDay, u: TimeOfDay)
    requires t.Valid() && u.Valid()
    ensures ClockStamp(t) == ClockStamp(u) ==> t == u
  {
    if ClockStamp(t) == ClockStamp(u) {
      var a, b := ClockStamp(t), ClockStamp(u);
      assert a[0..2] == TwoDigits(t.hour) && b[0..2] == TwoDigits(u.hour);
      assert a[3..5] == TwoDigits(t.minute) && b[3..5] == TwoDigits(u.minute);
      assert a[6..8] == TwoDigits(t.second) && b[6..8] == TwoDigits(u.second);
    }
  }

  /** `sep.join(parts)`. */
  function Join(parts: seq<string>, sep: string): string
  {
    if |parts| == 0 then ""
    else if |parts| == 1 then parts[0]
    else parts[0] + sep + Join(parts[1..], sep)
  }

  /** With a non-empty separator, the joined text is empty exactly for no parts or one empty part. */
  lemma {:induction false} JoinEmpty(parts: seq<string>, sep: string)
    requires sep != ""
    ensures Join(parts, sep) == "" <==> parts == [] || parts == [""]
  {
    if |parts| >= 2 {
      assert |Join(parts, sep)| >= |sep|;
    }
  }

  /** The characters `str.isspace` accepts, restricted to the ASCII range. */
  predicate IsSpace(c: char) {
    c == ' ' || 9 <= c as int <= 13 || 28 <= c as int <= 31
  }

  /** `str.lstrip()`: what is left after removing leading whitespace. */
  function LStrip(s: string): (r: string)
    ensures |r| <= |s| && r == s[|s| - |r|..]
    ensures forall k :: 0 <= k < |s| - |r| ==> IsSpace(s[k])
    ensures r == [] || !IsSpace(r[0])
  {
    if |s| > 0 && IsSpace(s[0]) then LStrip(s[1..]) else s
  }

  /** `str.rstrip()`: what is left after removing trailing whitespace. */
  function RStrip(s: string): (r: string)
    ensures |r| <= |s| && r == s[..|r|]
    ensures forall k :: |r| <= k < |s| ==> IsSpace(s[k])
    ensures r == [] || !IsSpace(r[|r| - 1])
  {
    if |s| > 0 && IsSpace(s[|s| - 1]) then RStrip(s[..|s| - 1]) else s
  }

  /** `str.strip()`. */
  function Strip(s: string): string
  {
    RStrip(LStrip(s))
  }

  /** The stripped text is the slice of `s` that starts where the leading whitespace ends; only
      whitespace lies outside it and none at its ends. */
  lemma {:induction false} StripIsTrimmedSlice(s: string) returns (i: nat, j: nat)
    ensures i <= j <= |s| && Strip(s) == s[i..j]
    ensures forall k :: 0 <= k < i ==> IsSpace(s[k])
    ensures forall k :: j <= k < |s| ==> IsSpace(s[k])
    ensures i < j ==> !IsSpace(s[i]) && !IsSpace(s[j - 1])
  {
    var l := LStrip(s);
    var r := RStrip(l);
    i := |s| - |l|;
    j := i + |r|;
    forall k | j <= k < |s|
      ensures IsSpace(s[k])
    {
      assert s[k] == l[k - i];
    }
    assert r == s[i..j] by {
      forall m | 0 <= m < |r|
        ensures r[m] == s[i + m]
      {
        assert r[m] == l[m];
      }
    }
  }

  /** Stripping twice is stripping once. */
  lemma {:induction false} StripIdempotent(s: string)
    ensures Strip(Strip(s)) == Strip(s)
  {
    var r := Strip(s);
    var i, j := StripIsTrimmedSlice(s);
    assert LStrip(r) == r;
    assert RStrip(r) == r;
  }

  function UpperChar(c: char): char {
    if 'a' <= c <= 'z' then (c as int - 'a' as int + 'A' as int) as char else c
  }

  /** `str.upper()` on the ASCII letters. */
  function Upper(s: string): (r: string)
    ensures |r| == |s|
  {
    seq(|s|, i requires 0 <= i < |s| => UpperChar(s[i]))
  }

  /** Only "A" and "a" upper-case to "A". */
  lemma {:induction false} UpperIsA(s: string)
    ensures Upper(s) == "A" <==> s == "A" || s == "a"
  {
    if Upper(s) == "A" {
      assert |s| == 1;
      assert Upper(s)[0] == UpperChar(s[0]) == 'A';
      assert s == [s[0]];
    }
  }
}
