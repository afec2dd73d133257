/** The two hand-written number parsers, in the machine arithmetic they run in. */
module NumberParsing {
  import opened Basics
  import opened Decimal

  const TWO_TO_64 := 0x1_0000_0000_0000_0000

  /** The number a caller wants from s: its mathematical value, when that lies in the range. */
  function Wanted(s: string, min: uint64, max: uint64): Option<uint64> {
    if s != "" && AllDigits(s) && min as nat <= Value(s) <= max as nat then Some(Value(s) as uint64) else None
  }

  // `configuration::parse`.

  /** One more character: the wrap-around sum, and the test that is meant to catch it. */
  function Shift(res: uint64, c: char, max: uint64): Option<uint64> {
    if !IsDigit(c) then None
    else
      var tmp := ((res as nat * 10 + DigitValue(c)) % TWO_TO_64) as uint64;
      if tmp >= res && tmp <= max then Some(tmp) else None
  }

  /** The accumulator after all of s, if no character was refused. */
  function Accumulate(s: string, max: uint64): Option<uint64> {
    if s == "" then Some(0)
    else match Accumulate(s[..|s| - 1], max)
      case None => None
      case Some(res) => Shift(res, s[|s| - 1], max)
  }

  function Parsed(s: string, min: uint64, max: uint64): Option<uint64> {
    if s == "" then None
    else match Accumulate(s, max)
      case Some(res) => if res >= min then Some(res) else None
      case None => None
  }

  lemma {:induction false} RefusalIsFinal(s: string, max: uint64, k: nat)
    requires k <= |s| && Accumulate(s[..k], max) == None
    ensures Accumulate(s, max) == None
  {
    if k < |s| {
      assert s[..|s| - 1][..k] == s[..k];
      RefusalIsFinal(s[..|s| - 1], max, k);
    } else {
      assert s[..k] == s;
    }
  }

  /** The loop of `configuration::parse`; at every limit its callers use, the right answer. */
  method Parse(s: string, min: uint64, max: uint64) returns (n: Option<uint64>)
    ensures n == Parsed(s, min, max)
    ensures 9 * max as nat + 9 < TWO_TO_64 ==> n == Wanted(s, min, max)
  {
    if 9 * max as nat + 9 < TWO_TO_64 {
      ParsedIsWanted(s, min, max);
    }
    if s == "" {
      return None;
    }
    var res: uint64 := 0;
    for i := 0 to |s|
      invariant Accumulate(s[..i], max) == Some(res)
    {
      assert s[..i + 1][..i] == s[..i];
      assert Accumulate(s[..i + 1], max) == Shift(res, s[i], max);
      if '0' <= s[i] <= '9' {
        var tmp := ((res as nat * 10 + (s[i] as int - '0' as int)) % TWO_TO_64) as uint64;
        if tmp >= res && tmp <= max {
          res := tmp;
        } else {
          RefusalIsFinal(s, max, i + 1);
          return None;
        }
      } else {
        RefusalIsFinal(s, max, i + 1);
        return None;
      }
    }
    assert s[..|s|] == s;
    return if res >= min then Some(res) else None;
  }

  /** Whatever the limit, a digit string worth no more than it is read in full. */
  lemma {:induction false} SmallNumbersAreRead(s: string, max: uint64)
    requires AllDigits(s) && Value(s) <= max as nat
    ensures Accumulate(s, max) == Some(Value(s) as uint64)
  {
    if s != "" {
      PrefixIsWorthLess(s, |s| - 1);
      SmallNumbersAreRead(s[..|s| - 1], max);
    }
  }

  /** Below the threshold a sum that wrapped is always smaller than what it came from. */
  lemma {:induction false} AcceptedIsExact(s: string, max: uint64)
    requires 9 * max as nat + 9 < TWO_TO_64 && Accumulate(s, max).Some?
    ensures AllDigits(s) && Value(s) == Accumulate(s, max).value as nat <= max as nat
  {
    if s != "" {
      AcceptedIsExact(s[..|s| - 1], max);
      var res := Accumulate(s[..|s| - 1], max).value;
      WrappedSumIsSmaller(res as nat, DigitValue(s[|s| - 1]), max as nat);
    }
  }

  lemma WrappedSumIsSmaller(res: nat, d: nat, max: nat)
    requires 9 * max + 9 < TWO_TO_64 && res <= max && d < 10
    ensures (res * 10 + d) % TWO_TO_64 >= res ==> (res * 10 + d) % TWO_TO_64 == res * 10 + d
  {
    assert res * 10 + d < 2 * TWO_TO_64;
    if res * 10 + d >= TWO_TO_64 {
      assert (res * 10 + d) % TWO_TO_64 == res * 10 + d - TWO_TO_64;
    }
  }

  lemma ParsedIsWanted(s: string, min: uint64, max: uint64)
    requires 9 * max as nat + 9 < TWO_TO_64
    ensures Parsed(s, min, max) == Wanted(s, min, max)
  {
    if Accumulate(s, max).Some? {
      AcceptedIsExact(s, max);
    } else if AllDigits(s) && Value(s) <= max as nat {
      SmallNumbersAreRead(s, max);
    }
  }

  /** The smallest limit at which a wrapped sum slips through: floor(2^64 / 9). */
  const THRESHOLD: uint64 := 2049638230412172401

  lemma ThresholdWraps()
    ensures (THRESHOLD as nat * 10 + 7) % TWO_TO_64 == THRESHOLD as nat
    ensures THRESHOLD as nat * 10 + 7 > TWO_TO_64
  {
  }

  /** Its digits followed by a 7 wrap around to the threshold itself. */
  lemma SlipThrough(max: uint64)
    requires THRESHOLD <= max
    ensures var s := Text(THRESHOLD as nat) + "7";
            Parsed(s, 0, max) == Some(THRESHOLD) && Wanted(s, 0, max) == None
  {
    var t := Text(THRESHOLD as nat);
    var s := t + "7";
    ValueOfText(THRESHOLD as nat);
    SmallNumbersAreRead(t, max);
    assert s[..|s| - 1] == t && s[|s| - 1] == '7' && DigitValue('7') == 7;
    ThresholdWraps();
    assert Accumulate(s, max) == Shift(THRESHOLD, '7', max) == Some(THRESHOLD);
    assert AllDigits(s) && Value(s) == THRESHOLD as nat * 10 + 7;
  }

  /** Exactly which limits `configuration::parse` is right for: 9 * max + 9 must not reach 2^64. */
  lemma ParseIsExactlyRight(max: uint64)
    ensures (forall s, min :: Parsed(s, min, max) == Wanted(s, min, max)) <==> 9 * max as nat + 9 < TWO_TO_64
  {
    if 9 * max as nat + 9 < TWO_TO_64 {
      forall s, min ensures Parsed(s, min, max) == Wanted(s, min, max) {
        ParsedIsWanted(s, min, max);
      }
    } else {
      SlipThrough(max);
    }
  }

  // `address::parse_port`.

  function PortStep(n: uint32, c: char): Option<uint32> {
    if !IsDigit(c) then None
    else
      var sum := ((n as nat * 10 + DigitValue(c)) % 0x1_0000_0000) as uint32;
      if sum <= 65535 then Some(sum) else None
  }

  function PortAfter(s: string): Option<uint32> {
    if s == "" then Some(0)
    else match PortAfter(s[..|s| - 1])
      case None => None
      case Some(n) => PortStep(n, s[|s| - 1])
  }

  lemma {:induction false} PortAfterIsExact(s: string)
    ensures PortAfter(s) == if AllDigits(s) && Value(s) <= 65535 then Some(Value(s) as uint32) else None
  {
    if s != "" {
      var t := s[..|s| - 1];
      PortAfterIsExact(t);
      assert AllDigits(s) <==> AllDigits(t) && IsDigit(s[|s| - 1]);
    }
  }

  lemma {:induction false} PortRefusalIsFinal(s: string, k: nat)
    requires k <= |s| && PortAfter(s[..k]) == None
    ensures PortAfter(s) == None
  {
    if k < |s| {
      assert s[..|s| - 1][..k] == s[..k];
      PortRefusalIsFinal(s[..|s| - 1], k);
    } else {
      assert s[..k] == s;
    }
  }

  /** A port text: digits worth 1 to 65535, leading zeros allowed. */
  function PortOf(s: string): Option<uint32> {
    if AllDigits(s) && 1 <= Value(s) <= 65535 then Some(Value(s) as uint32) else None
  }

  /** `parse_port` accepts exactly the digit strings worth 1 to 65535. */
  method ParsePort(s: string) returns (port: Option<uint32>)
    ensures port == PortOf(s)
  {
    PortAfterIsExact(s);
    var n: uint32 := 0;
    var i := 0;
    while i < |s|
      invariant 0 <= i <= |s| && n <= 65535
      invariant PortAfter(s[..i]) == Some(n)
    {
      assert s[..i + 1][..i] == s[..i];
      assert PortAfter(s[..i + 1]) == PortStep(n, s[i]);
      if '0' <= s[i] <= '9' {
        n := ((n as nat * 10 + (s[i] as int - '0' as int)) % 0x1_0000_0000) as uint32;
        if n <= 65535 {
          i := i + 1;
        } else {
          PortRefusalIsFinal(s, i + 1);
          return None;
        }
      } else {
        PortRefusalIsFinal(s, i + 1);
        return None;
      }
    }
    assert s[..|s|] == s;
    if n > 0 {
      return Some(n);
    }
    return None;
  }

  /** It inverts decimal printing of the ports it accepts. */
  lemma PortRoundTrip(port: uint32)
    ensures PortOf(Text(port as nat)) == if 1 <= port <= 65535 then Some(port) else None
  {
    ValueOfText(port as nat);
  }
}
