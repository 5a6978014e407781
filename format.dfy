/** The text formats the dashboard labels are written with (ui.py).

    Python's `str(n)` on an integer becomes `Str`, the format spec `{:0>w}` ("fill with
    '0', align right, minimum width w") becomes `PadLeft(Str(n), '0', w)`, and every label
    format is a concatenation of those with fixed prefixes and suffixes.  Floating-point
    arithmetic and float formatting are not modelled: rounded values enter as integers and
    `.6f` / `.1f` renderings enter as already formatted strings. */
module Format {

  /** `chr(0176)` in ui.py: CircuitPython reads the literal as decimal 176, U+00B0. */
  const Degree: char := '\U{B0}'

  /** `"{0:.6f}".format(0)`, the fallback coordinate text. */
  const ZeroFixed6: string := "0.000000"

  predicate IsDigit(c: char) { '0' <= c <= '9' }

  predicate IsDigits(s: string) { forall i :: 0 <= i < |s| ==> IsDigit(s[i]) }

  function DigitChar(d: int): (c: char)
    requires 0 <= d < 10
    ensures IsDigit(c) && c as int - '0' as int == d
  {
    ('0' as int + d) as char
  }

  /** The decimal value of a string of digits; leading zeros are allowed. */
  function DigitsValue(s: string): nat
    requires IsDigits(s)
    decreases |s|
  {
    if s == [] then 0
    else DigitsValue(s[..|s| - 1]) * 10 + (s[|s| - 1] as int - '0' as int)
  }

  /** `str(n)` for a non-negative integer: its decimal digits without leading zeros. */
  function NatStr(n: nat): string
    decreases n
  {
    if n < 10 then [DigitChar(n)] else NatStr(n / 10) + [DigitChar(n % 10)]
  }

  /** `str(n)` for any integer. */
  function Str(n: int): string
  {
    if n < 0 then "-" + NatStr(-n) else NatStr(n)
  }

  /** An optional minus sign followed by at least one digit. */
  predicate IsDecimal(s: string) {
    if |s| >= 1 && s[0] == '-' then |s| >= 2 && IsDigits(s[1..]) else |s| >= 1 && IsDigits(s)
  }

  /** Reads back what `Str` writes. */
  function ParseInt(s: string): int
    requires IsDecimal(s)
  {
    if s[0] == '-' then 0 - DigitsValue(s[1..]) else DigitsValue(s)
  }

  /** `s` is a decimal rendering of `n`. */
  predicate Shows(s: string, n: int) { IsDecimal(s) && ParseInt(s) == n }

  /** The digits of a number: at least one, and no leading zero unless the number is 0. */
  lemma {:induction false} NatStrShape(n: nat)
    ensures |NatStr(n)| >= 1 && IsDigits(NatStr(n))
    ensures |NatStr(n)| > 1 ==> NatStr(n)[0] != '0'
    decreases n
  {
    if n >= 10 {
      NatStrShape(n / 10);
    }
  }

  /** `Str` writes a decimal numeral, signed exactly when the number is negative. */
  lemma StrShape(n: int)
    ensures IsDecimal(Str(n))
    ensures n >= 0 <==> IsDigits(Str(n))
  {
    if n < 0 {
      NatStrShape(-n);
      assert Str(n)[1..] == NatStr(-n);
      assert !IsDigit(Str(n)[0]);
    } else {
      NatStrShape(n);
    }
  }

  lemma {:induction false} NatStrValue(n: nat)
    ensures IsDigits(NatStr(n)) && DigitsValue(NatStr(n)) == n
    decreases n
  {
    NatStrShape(n);
    if n >= 10 {
      var r := NatStr(n);
      assert r[..|r| - 1] == NatStr(n / 10);
      NatStrValue(n / 10);
    }
  }

  /** `ParseInt` inverts `Str`: the decimal rendering of an integer loses nothing. */
  lemma StrRoundTrip(n: int)
    ensures Shows(Str(n), n)
  {
    StrShape(n);
    if n < 0 {
      assert Str(n)[1..] == NatStr(-n);
      NatStrValue(-n);
    } else {
      NatStrValue(n);
    }
  }

  /** Different integers render differently. */
  lemma StrInjective(m: int, n: int)
    requires Str(m) == Str(n)
    ensures m == n
  {
    StrRoundTrip(m);
    StrRoundTrip(n);
  }

  function Repeat(c: char, n: nat): string
  {
    if n == 0 then [] else Repeat(c, n - 1) + [c]
  }

  lemma {:induction false} RepeatShape(c: char, n: nat)
    ensures |Repeat(c, n)| == n
    ensures forall i :: 0 <= i < n ==> Repeat(c, n)[i] == c
  {
    if n > 0 {
      RepeatShape(c, n - 1);
    }
  }

  function Max(a: int, b: int): int { if a < b then b else a }

  /** Python's `"{:" + fill + ">" + width + "}".format(s)`: right-aligns `s` in a field of
      `width` characters filled with `fill`, and never truncates. */
  function PadLeft(s: string, fill: char, width: int): string
  {
    if width <= |s| then s else Repeat(fill, width - |s|) + s
  }

  /** The padded text is `width` long or `s` itself, ends with `s`, and is `fill` before. */
  lemma PadLeftShape(s: string, fill: char, width: int)
    ensures var r := PadLeft(s, fill, width);
      |r| == Max(|s|, width) && r[|r| - |s|..] == s &&
      forall i :: 0 <= i < |r| - |s| ==> r[i] == fill
  {
    if width > |s| {
      RepeatShape(fill, width - |s|);
    }
  }

  lemma {:induction false} ZerosValue(n: nat)
    ensures IsDigits(Repeat('0', n)) && DigitsValue(Repeat('0', n)) == 0
    decreases n
  {
    RepeatShape('0', n);
    if n > 0 {
      RepeatShape('0', n - 1);
      assert Repeat('0', n)[..n - 1] == Repeat('0', n - 1);
      ZerosValue(n - 1);
    }
  }

  lemma {:induction false} LeadingZerosValue(z: nat, s: string)
    requires IsDigits(s)
    ensures IsDigits(Repeat('0', z) + s)
    ensures DigitsValue(Repeat('0', z) + s) == DigitsValue(s)
    decreases |s|
  {
    var t := Repeat('0', z) + s;
    RepeatShape('0', z);
    if s == [] {
      assert t == Repeat('0', z);
      ZerosValue(z);
    } else {
      assert t[..|t| - 1] == Repeat('0', z) + s[..|s| - 1];
      LeadingZerosValue(z, s[..|s| - 1]);
    }
  }

  /** Zero-padding a non-negative number keeps its value: `{:0>w}` only adds leading zeros. */
  lemma ZeroPadValue(n: int, width: int)
    ensures n >= 0 ==> IsDigits(PadLeft(Str(n), '0', width))
    ensures n >= 0 ==> DigitsValue(PadLeft(Str(n), '0', width)) == n
  {
    if n >= 0 {
      var digits := Str(n);
      assert digits == NatStr(n);
      NatStrValue(n);
      if width > |digits| {
        assert PadLeft(digits, '0', width) == Repeat('0', width - |digits|) + digits;
        LeadingZerosValue(width - |digits|, digits);
      }
    }
  }

  function Pow10(k: nat): nat { if k == 0 then 1 else 10 * Pow10(k - 1) }

  /** A number below 10^k has at most k digits. */
  lemma {:induction false} StrLength(n: int, k: nat)
    requires k >= 1
    ensures 0 <= n < Pow10(k) ==> |Str(n)| <= k
    decreases k
  {
    if 10 <= n < Pow10(k) {
      assert k >= 2;
      assert n / 10 < Pow10(k - 1);
      StrLength(n / 10, k - 1);
    }
  }

  // The label formats.  Their properties are stated by the lemma after each one.

  /** `"{:0>2}".format(n)` (set_time, set_speed_value). */
  function Pad2(n: int): string
  {
    PadLeft(Str(n), '0', 2)
  }

  /** Two-digit padding is at least two characters, exactly two below 100, and keeps the
      value of a non-negative number. */
  lemma Pad2Value(n: int)
    ensures |Pad2(n)| == Max(|Str(n)|, 2)
    ensures 0 <= n < 100 ==> |Pad2(n)| == 2
    ensures n >= 0 ==> IsDigits(Pad2(n)) && DigitsValue(Pad2(n)) == n
  {
    PadLeftShape(Str(n), '0', 2);
    ZeroPadValue(n, 2);
    StrLength(n, 2);
  }

  /** set_counter: `"{:0>6}".format(count)`. */
  function CounterText(count: int): string
  {
    PadLeft(Str(count), '0', 6)
  }

  /** The counter text is at least six characters, exactly six below 10^6, and keeps the
      value of a non-negative count. */
  lemma CounterTextValue(count: int)
    ensures |CounterText(count)| >= 6
    ensures count >= 0 ==> IsDigits(CounterText(count)) && DigitsValue(CounterText(count)) == count
    ensures 0 <= count < 1000000 ==> |CounterText(count)| == 6
  {
    PadLeftShape(Str(count), '0', 6);
    ZeroPadValue(count, 6);
    assert Pow10(6) == 1000000;
    StrLength(count, 6);
  }

  /** set_time: `"{:0>2}".format(hours) + ":{:0>2}".format(minutes)`. */
  function TimeText(hours: int, minutes: int): string
  {
    Pad2(hours) + ":" + Pad2(minutes)
  }

  /** For hours and minutes of at most two digits the time text is exactly "HH:MM", and
      both numbers can be read back from it. */
  lemma TimeTextRoundTrip(hours: int, minutes: int)
    requires 0 <= hours < 100 && 0 <= minutes < 100
    ensures var r := TimeText(hours, minutes);
      |r| == 5 && r[2] == ':' &&
      IsDigits(r[..2]) && DigitsValue(r[..2]) == hours &&
      IsDigits(r[3..]) && DigitsValue(r[3..]) == minutes
  {
    Pad2Value(hours);
    Pad2Value(minutes);
    var r := TimeText(hours, minutes);
    assert r[..2] == Pad2(hours);
    assert r[3..] == Pad2(minutes);
  }

  /** set_sat_num: `"SAT:{}".format(n)`. */
  function SatText(satellites: int): string
  {
    "SAT:" + Str(satellites)
  }

  lemma SatTextRoundTrip(satellites: int)
    ensures var r := SatText(satellites);
      |r| >= 5 && r[..4] == "SAT:" && Shows(r[4..], satellites)
  {
    StrRoundTrip(satellites);
    assert SatText(satellites)[4..] == Str(satellites);
  }

  /** set_fix_quality: `"FQU:{}".format(n)`. */
  function FixQualityText(quality: int): string
  {
    "FQU:" + Str(quality)
  }

  lemma FixQualityTextRoundTrip(quality: int)
    ensures var r := FixQualityText(quality);
      |r| >= 5 && r[..4] == "FQU:" && Shows(r[4..], quality)
  {
    StrRoundTrip(quality);
    assert FixQualityText(quality)[4..] == Str(quality);
  }

  /** set_bme_values, temperature: `str(round(temp)) + chr(0176)`; `rounded` is `round(temp)`. */
  function TempText(rounded: int): string
  {
    Str(rounded) + [Degree]
  }

  lemma TempTextRoundTrip(rounded: int)
    ensures var r := TempText(rounded);
      |r| >= 2 && r[|r| - 1] == Degree && Shows(r[..|r| - 1], rounded)
  {
    StrRoundTrip(rounded);
    var r := TempText(rounded);
    assert r[..|r| - 1] == Str(rounded);
  }

  /** set_bme_values, humidity: `"{}".format(round(humi)) + "%"`. */
  function HumiText(rounded: int): string
  {
    Str(rounded) + "%"
  }

  lemma HumiTextRoundTrip(rounded: int)
    ensures var r := HumiText(rounded);
      |r| >= 2 && r[|r| - 1] == '%' && Shows(r[..|r| - 1], rounded)
  {
    StrRoundTrip(rounded);
    var r := HumiText(rounded);
    assert r[..|r| - 1] == Str(rounded);
  }

  /** set_bme_values, pressure: `"{}".format(round(press * 0.75))`, no unit suffix;
      `mmHg` is the rounded product. */
  function PressText(mmHg: int): string
  {
    Str(mmHg)
  }

  lemma PressTextRoundTrip(mmHg: int)
    ensures Shows(PressText(mmHg), mmHg)
  {
    StrRoundTrip(mmHg);
  }

  /** set_speed_value: `"{:0>2}".format(round(speed * 1.852))`; `kmh` is the rounded speed. */
  function SpeedText(kmh: int): string
  {
    Pad2(kmh)
  }

  /** A speed below 100 km/h takes exactly the two digits of the speed display. */
  lemma SpeedTextValue(kmh: int)
    ensures |SpeedText(kmh)| >= 2
    ensures kmh >= 0 ==> IsDigits(SpeedText(kmh)) && DigitsValue(SpeedText(kmh)) == kmh
    ensures 0 <= kmh < 100 ==> |SpeedText(kmh)| == 2
  {
    Pad2Value(kmh);
  }

  /** set_altitude: `"ALT:{0:.1f}".format(altitude)`; `fixed1` is the `.1f` rendering. */
  function AltText(fixed1: string): string
  {
    "ALT:" + fixed1
  }

  lemma AltTextShape(fixed1: string)
    ensures var r := AltText(fixed1);
      |r| == 4 + |fixed1| && r[..4] == "ALT:" && r[4..] == fixed1
  {
  }

  /** set_coord_stat, latitude: `"LAT:{0:.6f}".format(lat) + chr(0176)`. */
  function LatText(fixed6: string): string
  {
    "LAT:" + fixed6 + [Degree]
  }

  lemma LatTextShape(fixed6: string)
    ensures var r := LatText(fixed6);
      |r| == 5 + |fixed6| && r[..4] == "LAT:" && r[4..|r| - 1] == fixed6 && r[|r| - 1] == Degree
  {
  }

  /** set_coord_stat, longitude: `"LON:{0:.6f}".format(lon) + chr(0176)`. */
  function LonText(fixed6: string): string
  {
    "LON:" + fixed6 + [Degree]
  }

  lemma LonTextShape(fixed6: string)
    ensures var r := LonText(fixed6);
      |r| == 5 + |fixed6| && r[..4] == "LON:" && r[4..|r| - 1] == fixed6 && r[|r| - 1] == Degree
  {
  }

  /** The status text main.py hands to set_sys_stat: `"RAM:" + str(mem_free()) + "B"`. */
  function RamStatus(freeBytes: int): string
  {
    "RAM:" + Str(freeBytes) + "B"
  }

  lemma RamStatusRoundTrip(freeBytes: int)
    ensures var r := RamStatus(freeBytes);
      |r| >= 6 && r[..4] == "RAM:" && r[|r| - 1] == 'B' && Shows(r[4..|r| - 1], freeBytes)
  {
    StrRoundTrip(freeBytes);
    var r := RamStatus(freeBytes);
    assert r[4..|r| - 1] == Str(freeBytes);
  }

  /** main.py calls `set_counter(9856)` on every rendered tick. */
  lemma CounterOfConstant()
    ensures CounterText(9856) == "009856"
  {
    assert NatStr(9856) == "9856" by {
      assert NatStr(9) == "9";
      assert NatStr(98) == NatStr(9) + ['8'];
      assert NatStr(985) == NatStr(98) + ['5'];
    }
    assert Repeat('0', 2) == "00" by {
      assert Repeat('0', 1) == Repeat('0', 0) + ['0'];
    }
    assert PadLeft("9856", '0', 6) == Repeat('0', 2) + "9856";
  }

  /** UTC 22:05 is shown with the +3 offset and no wrap-around as "25:05". */
  lemma TimeWithoutWrap()
    ensures TimeText(22 + 3, 5) == "25:05"
  {
    assert Pad2(25) == "25" by {
      assert NatStr(25) == NatStr(2) + ['5'];
    }
    assert Pad2(5) == "05" by {
      assert Str(5) == "5";
      assert Repeat('0', 1) == Repeat('0', 0) + ['0'];
      assert PadLeft("5", '0', 2) == Repeat('0', 1) + "5";
    }
  }
}
