/** The format utilities: a byte count as "<size with one decimal> <unit>"
    and a second count as "m:ss". Both treat a falsy argument as absent. */
module Formatting {
  import opened Text
  import opened JsValues

  const Units: seq<string> := ["B", "KB", "MB", "GB"]

  function Pow1024(k: nat): (p: nat)
    ensures p >= 1
  {
    if k == 0 then 1 else 1024 * Pow1024(k - 1)
  }

  lemma Pow1024Values()
    ensures Pow1024(1) == 1024 && Pow1024(2) == 1048576
    ensures Pow1024(3) == 1073741824
  {
  }

  /** The unit the division loop settles on, as a closed form: the smallest
      unit whose next power of 1024 exceeds the byte count, capped at GB. */
  function SizeUnit(bytes: int): (k: nat)
    ensures k < |Units|
    ensures k < 3 ==> bytes < Pow1024(k + 1)
    ensures k > 0 ==> bytes >= Pow1024(k)
  {
    Pow1024Values();
    if bytes < 1024 then 0
    else if bytes < 1048576 then 1
    else if bytes < 1073741824 then 2
    else 3
  }

  /** `x.toFixed(1)` for an exactly representable `x` below 10^21: the nearest
      multiple of 0.1, ties going to the larger magnitude, with the sign
      written separately. */
  function ToFixed1(x: real): string
  {
    if x < 0.0 then "-" + Fixed1Magnitude(-x) else Fixed1Magnitude(x)
  }

  function Fixed1Magnitude(y: real): string
    requires y >= 0.0
  {
    var tenths := (y * 10.0 + 0.5).Floor;
    NatToString(tenths / 10) + "." + [DigitChar(tenths % 10)]
  }

  /** What `toFixed(1)` promises: a minus sign exactly for a negative
      argument, then the magnitude rounded to one decimal. (Stated apart from
      the function so that evaluating it on constants stays cheap.) */
  lemma ToFixed1Rounds(x: real)
    ensures var r := ToFixed1(x);
      && |r| >= 3
      && (r[0] == '-' <==> x < 0.0)
      && (x >= 0.0 ==> RoundsToTenth(r, x))
      && (x < 0.0 ==> RoundsToTenth(r[1..], -x))
  {
    if x < 0.0 {
      MagnitudeRounds(-x);
      assert ToFixed1(x)[1..] == Fixed1Magnitude(-x);
    } else {
      MagnitudeRounds(x);
      var r := Fixed1Magnitude(x);
      assert r[0] == r[..|r| - 2][0];
    }
  }

  lemma MagnitudeRounds(y: real)
    requires y >= 0.0
    ensures RoundsToTenth(Fixed1Magnitude(y), y)
  {
    var tenths := (y * 10.0 + 0.5).Floor;
    var whole := NatToString(tenths / 10);
    var r := whole + "." + [DigitChar(tenths % 10)];
    NatToStringValue(tenths / 10);
    assert r[..|r| - 2] == whole;
    assert r[0] == whole[0];
  }

  /** `m` is a number with one decimal: digits without a leading zero (other
      than a lone `0`), a point and one digit. Read as a count of tenths it is
      the multiple of 0.1 nearest to `y`, and a tie goes to the larger one. */
  ghost predicate RoundsToTenth(m: string, y: real)
  {
    && |m| >= 3 && m[|m| - 2] == '.'
    && (m[0] == '0' ==> |m| == 3)
    && AllRadixDigits(m[..|m| - 2], 10) && IsRadixDigit(m[|m| - 1], 10)
    && var v := DigitsValue(m[..|m| - 2], 10) * 10 + CharDigit(m[|m| - 1]);
       v as real - 0.5 <= y * 10.0 < v as real + 0.5
  }

  /** What `formatFileSize(bytes)` returns; `None` when it throws, which is
      when a truthy non-number reaches `toFixed`. */
  function FileSizeText(bytes: JsValue): (r: Option<string>)
    ensures r.None? <==> Truthy(bytes) && !bytes.Num?
    ensures !Truthy(bytes) ==> r == Some("Unknown size")
  {
    if !Truthy(bytes) then Some("Unknown size")
    else if bytes.Num? then
      var k := SizeUnit(bytes.n);
      Some(ToFixed1(bytes.n as real / Pow1024(k) as real) + " " + Units[k])
    else None
  }

  /** `formatFileSize`: divides by 1024 while the size is at least 1024 and a
      larger unit remains. The loop keeps `size * 1024^unitIndex == bytes`. */
  method FormatFileSize(bytes: JsValue) returns (text: Option<string>)
    ensures text == FileSizeText(bytes)
  {
    if !Truthy(bytes) {
      return Some("Unknown size");
    }
    if !bytes.Num? {
      return None;
    }
    var size: real := bytes.n as real;
    var unitIndex: nat := 0;
    while size >= 1024.0 && unitIndex < |Units| - 1
      invariant unitIndex <= 3
      invariant size * Pow1024(unitIndex) as real == bytes.n as real
      invariant unitIndex > 0 ==> bytes.n >= Pow1024(unitIndex)
      decreases 3 - unitIndex
    {
      size := size / 1024.0;
      unitIndex := unitIndex + 1;
    }
    ScaledUnit(bytes.n, size, unitIndex);
    text := Some(ToFixed1(size) + " " + Units[unitIndex]);
  }

  /** Where the loop stops is the closed-form unit, and the size it holds
      is the byte count scaled to that unit. */
  lemma ScaledUnit(bytes: int, size: real, k: nat)
    requires k <= 3
    requires size * Pow1024(k) as real == bytes as real
    requires k > 0 ==> bytes >= Pow1024(k)
    requires size < 1024.0 || k == 3
    ensures k == SizeUnit(bytes)
    ensures size == bytes as real / Pow1024(k) as real
  {
    Pow1024Values();
    var p := Pow1024(k) as real;
    if k < 3 {
      assert Pow1024(k + 1) as real == 1024.0 * p;
      ScaleMonotone(size, 1024.0, p);
    }
  }

  /** Multiplying by a positive factor keeps the order of two reals. */
  lemma ScaleMonotone(a: real, b: real, p: real)
    requires p > 0.0
    ensures a < b <==> a * p < b * p
    ensures a <= b <==> a * p <= b * p
  {
    assert b * p - a * p == (b - a) * p;
  }

  /** For a positive count the scaled size (before `toFixed` rounds it) lies
      in [1, 1024) in the chosen unit, except that gigabytes are never scaled
      further. Rounding can still print "1024.0": 1048535 bytes scale to
      1023.96 KB. */
  lemma ScaledSizeInRange(bytes: int)
    requires bytes > 0
    ensures var k := SizeUnit(bytes); var x := bytes as real / Pow1024(k) as real;
      && (k < 3 ==> x < 1024.0)
      && (k > 0 ==> x >= 1.0)
      && x > 0.0
  {
    var k := SizeUnit(bytes);
    var p := Pow1024(k) as real;
    var x := bytes as real / p;
    assert x * p == bytes as real;
    ScaleMonotone(x, 1024.0, p);
    ScaleMonotone(1.0, x, p);
    ScaleMonotone(x, 0.0, p);
    if k < 3 {
      assert Pow1024(k + 1) as real == 1024.0 * p;
    }
  }

  /** The text for a nonzero count is the scaled size with one decimal, a
      space and the unit's name; a negative count keeps its minus sign. */
  lemma SizeTextReadsBack(bytes: int)
    requires bytes != 0
    ensures var k := SizeUnit(bytes); var t := FileSizeText(Num(bytes)).value;
      var x := bytes as real / Pow1024(k) as real; var m := t[..|t| - |Units[k]| - 1];
      && |t| >= |Units[k]| + 4
      && t[|m|..] == " " + Units[k]
      && (m[0] == '-' <==> bytes < 0)
      && (bytes > 0 ==> RoundsToTenth(m, x))
      && (bytes < 0 ==> RoundsToTenth(m[1..], -x))
  {
    var k := SizeUnit(bytes);
    var x := bytes as real / Pow1024(k) as real;
    ToFixed1Rounds(x);
    SizeTextAt(bytes, k, x);
    UnitSuffix(ToFixed1(x), Units[k]);
    ScaledSign(bytes, Pow1024(k));
  }

  lemma UnitSuffix(m: string, unit: string)
    ensures var t := m + " " + unit; |t| == |m| + |unit| + 1 && t[..|t| - |unit| - 1] == m && t[|m|..] == " " + unit
  {
  }

  lemma ScaledSign(bytes: int, p: nat)
    requires p >= 1
    ensures bytes as real / p as real < 0.0 <==> bytes < 0
  {
    var x := bytes as real / p as real;
    assert x * p as real == bytes as real;
    if x < 0.0 {
      assert x * p as real < 0.0;
    } else {
      assert x * p as real >= 0.0;
    }
  }

  /** A byte count that is a whole number `m` of some unit below GB, with
      `m` in 1..1023, prints as "m.0 <unit>". */
  lemma WholeUnitSize(m: nat, k: nat)
    requires 1 <= m < 1024 && k < 3
    ensures FileSizeText(Num(m * Pow1024(k))) == Some(NatToString(m) + ".0 " + Units[k])
  {
    var p := Pow1024(k);
    WholeUnitIndex(m, k);
    WholeQuotient(m, p);
    WholeToFixed(m);
    SizeTextAt(m * p, k, m as real);
    assert NatToString(m) + ".0" + " " + Units[k] == NatToString(m) + ".0 " + Units[k];
  }

  /** The text for a nonzero byte count, once its unit and scaled size are known. */
  lemma SizeTextAt(bytes: int, k: nat, x: real)
    requires bytes != 0 && SizeUnit(bytes) == k
    requires bytes as real / Pow1024(k) as real == x
    ensures FileSizeText(Num(bytes)) == Some(ToFixed1(x) + " " + Units[k])
  {
  }

  lemma WholeQuotient(m: nat, p: nat)
    requires m >= 1 && p >= 1
    ensures m * p >= 1
    ensures (m * p) as real / p as real == m as real
  {
    assert (m * p) as real == m as real * p as real;
    assert m * p >= p by {
      assert m * p == (m - 1) * p + p;
    }
  }

  lemma WholeUnitIndex(m: nat, k: nat)
    requires 1 <= m < 1024 && k < 3
    ensures SizeUnit(m * Pow1024(k)) == k
  {
    Pow1024Values();
    if k == 0 {
      assert Pow1024(k) == 1;
    } else if k == 1 {
      assert Pow1024(k) == 1024;
    } else {
      assert Pow1024(k) == 1048576;
    }
  }

  lemma WholeToFixed(m: nat)
    ensures ToFixed1(m as real) == NatToString(m) + ".0"
  {
    assert m as real >= 0.0;
    WholeMagnitude(m, m * 10);
  }

  lemma WholeMagnitude(m: nat, tenths: int)
    requires tenths == m * 10
    ensures Fixed1Magnitude(m as real) == NatToString(m) + ".0"
  {
    WholeTenths(m);
    assert [DigitChar(0)] == "0";
  }

  lemma WholeTenths(m: nat)
    ensures (m as real * 10.0 + 0.5).Floor == m * 10
    ensures (m * 10) / 10 == m && (m * 10) % 10 == 0
  {
  }

  /** Every falsy argument is "Unknown size", 0 included. */
  lemma FalsySizes()
    ensures FileSizeText(Num(0)) == Some("Unknown size")
    ensures FileSizeText(Undefined) == Some("Unknown size")
    ensures FileSizeText(Null) == Some("Unknown size")
    ensures FileSizeText(Str("")) == Some("Unknown size")
  {
  }

  lemma OneKilobyte()
    ensures FileSizeText(Num(1024)) == Some("1.0 KB")
  {
    Pow1024Values();
    WholeUnitSize(1, 1);
    assert NatToString(1) + ".0 " + Units[1] == "1.0 KB";
  }

  /** The size of the first demonstration rendition. */
  lemma FiftyMegabytes()
    ensures FileSizeText(Num(52428800)) == Some("50.0 MB")
  {
    Pow1024Values();
    WholeUnitSize(50, 2);
    assert NatToString(50) == "50" by {
      assert NatToString(5) == "5";
    }
    assert NatToString(50) + ".0 " + Units[2] == "50.0 MB";
  }

  /** The largest count still printed in bytes. */
  lemma LargestByteCount()
    ensures FileSizeText(Num(1023)) == Some("1023.0 B")
  {
    WholeUnitSize(1023, 0);
    assert NatToString(1023) == "1023" by {
      assert NatToString(102) == "102" by {
        assert NatToString(10) == "10";
      }
    }
    assert NatToString(1023) + ".0 " + Units[0] == "1023.0 B";
  }

  /** Rounding can carry the scaled size up to 1024: 1048535 bytes are
      1023.96 KB, printed as "1024.0 KB" rather than "1.0 MB". */
  lemma RoundsUpTo1024()
    ensures SizeUnit(1048535) == 1
    ensures FileSizeText(Num(1048535)) == Some("1024.0 KB")
  {
    Pow1024Values();
    var x := 1048535 as real / 1024 as real;
    SizeTextAt(1048535, 1, x);
    FixedAt1024(x);
    assert "1024.0" + " " + Units[1] == "1024.0 KB";
  }

  lemma FixedAt1024(x: real)
    requires x == 1048535 as real / 1024 as real
    ensures ToFixed1(x) == "1024.0"
  {
    assert (x * 10.0 + 0.5).Floor == 10240;
    assert NatToString(1024) == "1024" by {
      assert NatToString(102) == "102" by {
        assert NatToString(10) == "10";
      }
    }
    assert [DigitChar(0)] == "0";
    assert Fixed1Magnitude(x) == NatToString(1024) + "." + "0";
  }

  // ---------------------------------------------------------------------------
  // Durations

  /** JavaScript's `%` truncates toward zero: the remainder takes the sign of
      the dividend. */
  function TruncatedRemainder(a: int, d: int): int
    requires d > 0
  {
    if a >= 0 then a % d else -((-a) % d)
  }

  /** `s.padStart(2, '0')` */
  function PadStart2(s: string): string
  {
    if |s| < 2 then ['0'] + s else s
  }

  /** `formatDuration(seconds)`; `None` stands for undefined or null and `0`
      is falsy too. Minutes are `Math.floor(seconds / 60)` (Dafny's division
      by a positive divisor floors) and are never wrapped into hours. */
  function DurationText(seconds: Option<int>): (r: string)
    ensures r == "Unknown" <==> seconds.None? || seconds == Some(0)
    ensures seconds.Some? && seconds.value != 0 ==> ':' in r
  {
    match seconds
    case None => "Unknown"
    case Some(s) =>
      if s == 0 then "Unknown"
      else
        var minutes := IntToString(s / 60);
        var r := minutes + ":" + PadStart2(IntToString(TruncatedRemainder(s, 60)));
        assert r[|minutes|] == ':';
        assert ':' !in "Unknown";
        r
  }

  /** For a positive count the text reads back as minutes, a colon, and
      exactly two digits of seconds below 60, and those give the count. */
  lemma DurationReadsBack(s: int)
    requires s > 0
    ensures var text := DurationText(Some(s)); var colon := |text| - 3;
      && colon >= 1 && text[colon] == ':'
      && (text[0] == '0' ==> colon == 1)
      && AllRadixDigits(text[..colon], 10) && AllRadixDigits(text[colon + 1..], 10)
      && DigitsValue(text[colon + 1..], 10) < 60
      && DigitsValue(text[..colon], 10) * 60 + DigitsValue(text[colon + 1..], 10) == s
  {
    var minutes := NatToString(s / 60);
    var secs := PadStart2(NatToString(s % 60));
    var text := DurationText(Some(s));
    assert text == minutes + ":" + secs;
    NatToStringValue(s / 60);
    NatToStringValue(s % 60);
    if s % 60 < 10 {
      assert NatToString(s % 60) == [DigitChar(s % 60)];
      assert secs == ['0', DigitChar(s % 60)];
      assert secs[..1] == ['0'];
      assert DigitsValue(secs, 10) == s % 60;
    } else {
      assert |NatToString(s % 60)| == 2 by {
        assert NatToString((s % 60) / 10) == [DigitChar((s % 60) / 10)];
      }
    }
    assert |secs| == 2;
    ColonSplit(minutes, secs);
  }

  /** Where the pieces of `minutes:ss` sit. */
  lemma ColonSplit(minutes: string, secs: string)
    requires |minutes| >= 1 && |secs| == 2
    ensures var text := minutes + ":" + secs; var colon := |text| - 3;
      && colon == |minutes| && text[colon] == ':' && text[0] == minutes[0]
      && text[..colon] == minutes && text[colon + 1..] == secs
  {
    var text := minutes + ":" + secs;
    assert text[..|minutes|] == minutes;
    assert text[|minutes| + 1..] == secs;
  }

  lemma DurationExamples()
    ensures DurationText(Some(225)) == "3:45"
    ensures DurationText(Some(125)) == "2:05"
    ensures DurationText(Some(0)) == "Unknown"
    ensures DurationText(None) == "Unknown"
  {
    assert NatToString(45) == "45" by {
      assert NatToString(4) == "4";
    }
  }
}
