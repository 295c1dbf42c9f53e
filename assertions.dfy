/** `Assertions.AreEqual`, the one primitive test bodies use to signal failure,
    and the decimal rendering C# applies to the `int` values it interpolates
    into the failure message. */
module Assertions {
  import opened Base

  /** `int.ToString()`: decimal digits, with a leading '-' for negative values. */
  function IntToString(i: int): (s: string)
    ensures |s| >= 1
    ensures i < 0 <==> s[0] == '-'
  {
    if i < 0 then "-" + NatToString(-i) else NatToString(i)
  }

  function NatToString(n: nat): (s: string)
    ensures |s| >= 1
    ensures forall k :: 0 <= k < |s| ==> '0' <= s[k] <= '9'
  {
    if n < 10 then [Digit(n)] else NatToString(n / 10) + [Digit(n % 10)]
  }

  function Digit(d: nat): (c: char)
    requires d < 10
    ensures '0' <= c <= '9'
  {
    "0123456789"[d]
  }

  function DigitValue(c: char): nat
  {
    if '0' <= c <= '9' then (c - '0') as nat else 0
  }

  /** Reads back a string of decimal digits. */
  function ParseNat(s: string): nat
  {
    if s == [] then 0 else ParseNat(s[..|s| - 1]) * 10 + DigitValue(s[|s| - 1])
  }

  /** Rendering loses nothing: the digits read back as the number, so two
      different values never render alike in a failure message. */
  lemma {:induction false} NatToStringRoundTrip(n: nat)
    ensures ParseNat(NatToString(n)) == n
  {
    var s := NatToString(n);
    if n >= 10 {
      NatToStringRoundTrip(n / 10);
      assert s[..|s| - 1] == NatToString(n / 10);
    }
  }

  /** Reads back an optionally signed decimal numeral. */
  function ParseInt(s: string): int
  {
    if |s| > 0 && s[0] == '-' then -(ParseNat(s[1..]) as int) else ParseNat(s)
  }

  /** The same for every `int`, negative values included: distinct values
      render distinctly. */
  lemma IntToStringRoundTrip(i: int)
    ensures ParseInt(IntToString(i)) == i
  {
    var s := IntToString(i);
    if i < 0 {
      assert s[1..] == NatToString(-i);
      NatToStringRoundTrip(-i);
    } else {
      NatToStringRoundTrip(i);
    }
  }

  /** `AreEqual(value, expected)`: returns normally when the values are equal and
      otherwise throws an exception whose message is the rendering of `value`,
      then " != ", then the rendering of `expected`. `show` is the `ToString`
      used by the string interpolation. */
  function AreEqual<T(==)>(value: T, expected: T, show: T -> string): (r: Completion)
    ensures r.Returns? <==> value == expected
    ensures r.Throws? ==>
      var (v, e) := (show(value), show(expected));
      |r.message| == |v| + 4 + |e| &&
      r.message[..|v|] == v && r.message[|v|..|v| + 4] == " != " && r.message[|v| + 4..] == e
  {
    if value == expected then Returns else Throws(show(value) + " != " + show(expected))
  }

  /** The two calls the sample test class makes: `AreEqual(1, 1)` passes and
      `AreEqual(1, 2)` fails with the message "1 != 2". */
  lemma AreEqualOnSampleValues()
    ensures AreEqual(1, 1, IntToString) == Returns
    ensures AreEqual(1, 2, IntToString) == Throws("1 != 2")
  {
    assert IntToString(1) == "1";
    assert IntToString(2) == "2";
  }
}
