/** The rendition classifiers: three threshold ladders over the height that
    `parseInt` reads from a quality string, each short-circuited by an
    "audio" format. */
module Quality {
  import opened Text

  /** The global `parseInt(s)` with no radix: skip leading whitespace, take
      one optional sign, read hexadecimal digits after a `0x`/`0X` prefix and
      decimal digits otherwise, and stop at the first non-digit. `None` is
      NaN: no digit was read. */
  function ParseInt(s: string): Option<int>
  {
    var t := TrimStart(s);
    if t != [] && t[0] == '-' then
      match ParseUnsigned(t[1..])
      case None => None
      case Some(m) => Some(-m)
    else if t != [] && t[0] == '+' then ParseUnsigned(t[1..])
    else ParseUnsigned(t)
  }

  /** The digits after the sign, with the radix the prefix selects. */
  function ParseUnsigned(u: string): Option<int>
  {
    if |u| >= 2 && u[0] == '0' && (u[1] == 'x' || u[1] == 'X') then ReadDigits(u[2..], 16)
    else ReadDigits(u, 10)
  }

  function ReadDigits(u: string, radix: nat): Option<int>
  {
    var digits := DigitPrefix(u, radix);
    if digits == [] then None else Some(DigitsValue(digits, radix))
  }

  /** What `parseInt(s)` reads once leading whitespace is skipped: nothing
      from an empty rest or one that starts with neither a digit nor a sign,
      a negative number only after a minus sign, and the leading decimal
      digits when the rest starts with a digit and no hex prefix. */
  lemma ParseIntCases(s: string)
    ensures var t := TrimStart(s); var r := ParseInt(s);
      && (t == [] ==> r.None?)
      && (t != [] && !IsRadixDigit(t[0], 10) && t[0] != '-' && t[0] != '+' ==> r.None?)
      && (r.Some? && r.value < 0 ==> t[0] == '-')
      && (t != [] && IsRadixDigit(t[0], 10) && !(|t| >= 2 && t[0] == '0' && (t[1] == 'x' || t[1] == 'X')) ==>
            r == Some(DigitsValue(DigitPrefix(t, 10), 10)))
  {
    var t := TrimStart(s);
    if t == [] || (!IsRadixDigit(t[0], 10) && t[0] != '-' && t[0] != '+') {
      NoLeadingDigit(t);
      assert ParseInt(s) == ParseUnsigned(t);
    } else if t[0] == '+' {
      assert ParseInt(s) == ParseUnsigned(t[1..]);
    } else if t[0] != '-' {
      assert ParseInt(s) == ParseUnsigned(t);
    }
  }

  lemma NoLeadingDigit(u: string)
    requires u == [] || !IsRadixDigit(u[0], 10)
    ensures ParseUnsigned(u).None?
  {
    assert DigitPrefix(u, 10) == [];
  }

  /** `height >= bound`; every comparison with NaN is false. */
  predicate AtLeast(height: Option<int>, bound: int)
  {
    height.Some? && height.value >= bound
  }

  /** `format && format.includes('audio')`: the empty string is falsy. */
  predicate IsAudioFormat(format: string)
  {
    format != "" && Includes(format, "audio")
  }

  /** `getQualityBadge`: five rungs, with "quality-360p" as the floor for
      everything below 480 and for NaN. */
  function QualityBadge(quality: string, format: string): (r: string)
    ensures IsAudioFormat(format) ==> r == "quality-audio"
    ensures !IsAudioFormat(format) ==> var h := ParseInt(quality);
      && (r == "quality-4k" <==> AtLeast(h, 2160))
      && (r == "quality-1080p" <==> AtLeast(h, 1080) && !AtLeast(h, 2160))
      && (r == "quality-720p" <==> AtLeast(h, 720) && !AtLeast(h, 1080))
      && (r == "quality-480p" <==> AtLeast(h, 480) && !AtLeast(h, 720))
      && (r == "quality-360p" <==> !AtLeast(h, 480))
  {
    if IsAudioFormat(format) then "quality-audio"
    else
      var height := ParseInt(quality);
      if AtLeast(height, 2160) then "quality-4k"
      else if AtLeast(height, 1080) then "quality-1080p"
      else if AtLeast(height, 720) then "quality-720p"
      else if AtLeast(height, 480) then "quality-480p"
      else "quality-360p"
  }

  /** `getQualityLabel`: six rungs, with an "SD 360p" rung for 360..479 and
      "Standard Quality" below 360 and for NaN. */
  function QualityLabel(quality: string, format: string): (r: string)
    ensures IsAudioFormat(format) ==> r == "Audio Only"
    ensures !IsAudioFormat(format) ==> var h := ParseInt(quality);
      && (r == "4K Ultra HD" <==> AtLeast(h, 2160))
      && (r == "Full HD 1080p" <==> AtLeast(h, 1080) && !AtLeast(h, 2160))
      && (r == "HD 720p" <==> AtLeast(h, 720) && !AtLeast(h, 1080))
      && (r == "SD 480p" <==> AtLeast(h, 480) && !AtLeast(h, 720))
      && (r == "SD 360p" <==> AtLeast(h, 360) && !AtLeast(h, 480))
      && (r == "Standard Quality" <==> !AtLeast(h, 360))
  {
    if IsAudioFormat(format) then "Audio Only"
    else
      var height := ParseInt(quality);
      if AtLeast(height, 2160) then "4K Ultra HD"
      else if AtLeast(height, 1080) then "Full HD 1080p"
      else if AtLeast(height, 720) then "HD 720p"
      else if AtLeast(height, 480) then "SD 480p"
      else if AtLeast(height, 360) then "SD 360p"
      else "Standard Quality"
  }

  /** `getQualityIcon`: gem, crown and star from 720 up, a play icon below. */
  function QualityIcon(quality: string, format: string): (r: string)
    ensures IsAudioFormat(format) ==> r == "fas fa-music"
    ensures !IsAudioFormat(format) ==> var h := ParseInt(quality);
      && (r == "fas fa-gem" <==> AtLeast(h, 2160))
      && (r == "fas fa-crown" <==> AtLeast(h, 1080) && !AtLeast(h, 2160))
      && (r == "fas fa-star" <==> AtLeast(h, 720) && !AtLeast(h, 1080))
      && (r == "fas fa-play" <==> !AtLeast(h, 720))
  {
    if IsAudioFormat(format) then "fas fa-music"
    else
      var height := ParseInt(quality);
      if AtLeast(height, 2160) then "fas fa-gem"
      else if AtLeast(height, 1080) then "fas fa-crown"
      else if AtLeast(height, 720) then "fas fa-star"
      else "fas fa-play"
  }

  // ---------------------------------------------------------------------------
  // How the three ladders relate

  /** The badge a label belongs to: the label ladder refines the badge ladder,
      splitting its floor into "SD 360p" and "Standard Quality". */
  function BadgeOfLabel(caption: string): string
  {
    if caption == "Audio Only" then "quality-audio"
    else if caption == "4K Ultra HD" then "quality-4k"
    else if caption == "Full HD 1080p" then "quality-1080p"
    else if caption == "HD 720p" then "quality-720p"
    else if caption == "SD 480p" then "quality-480p"
    else "quality-360p"
  }

  /** The icon a badge carries: the icon ladder is the badge ladder with the
      480 and 360 rungs merged. */
  function IconOfBadge(badge: string): string
  {
    if badge == "quality-audio" then "fas fa-music"
    else if badge == "quality-4k" then "fas fa-gem"
    else if badge == "quality-1080p" then "fas fa-crown"
    else if badge == "quality-720p" then "fas fa-star"
    else "fas fa-play"
  }

  lemma LaddersAgree(quality: string, format: string)
    ensures BadgeOfLabel(QualityLabel(quality, format)) == QualityBadge(quality, format)
    ensures IconOfBadge(QualityBadge(quality, format)) == QualityIcon(quality, format)
  {
  }

  /** An audio format decides all three answers, whatever the quality says. */
  lemma AudioShortCircuit(quality: string, other: string, format: string)
    requires IsAudioFormat(format)
    ensures QualityBadge(quality, format) == QualityBadge(other, format) == "quality-audio"
    ensures QualityLabel(quality, format) == QualityLabel(other, format) == "Audio Only"
    ensures QualityIcon(quality, format) == QualityIcon(other, format) == "fas fa-music"
  {
  }

  /** An unparseable quality falls to the bottom rung of every ladder. */
  lemma NaNIsBottom(quality: string, format: string)
    requires !IsAudioFormat(format) && ParseInt(quality).None?
    ensures QualityBadge(quality, format) == "quality-360p"
    ensures QualityLabel(quality, format) == "Standard Quality"
    ensures QualityIcon(quality, format) == "fas fa-play"
  {
  }

  // ---------------------------------------------------------------------------
  // parseInt reads back what a template literal wrote

  lemma {:induction false} DigitPrefixOfDigits(digits: string, rest: string)
    requires AllRadixDigits(digits, 10)
    requires rest == [] || !IsRadixDigit(rest[0], 10)
    ensures DigitPrefix(digits + rest, 10) == digits
  {
    if digits != [] {
      assert (digits + rest)[1..] == digits[1..] + rest;
      DigitPrefixOfDigits(digits[1..], rest);
    } else {
      assert digits + rest == rest;
    }
  }

  /** `parseInt(`${n}${suffix}`)` is `n` for every integer `n`, as long as
      the suffix neither continues the digits nor turns "0" into a hex prefix. */
  lemma RenderedIntParses(n: int, suffix: string)
    requires suffix == [] || (!IsRadixDigit(suffix[0], 10) && suffix[0] != 'x' && suffix[0] != 'X')
    ensures ParseInt(IntToString(n) + suffix) == Some(n)
  {
    var m: nat := if n < 0 then -n else n;
    RenderedNatParses(m, suffix);
    var u := NatToString(m) + suffix;
    assert CharDigit(u[0]) < 10;
    if n < 0 {
      assert IntToString(n) + suffix == "-" + u;
      NegativeParses(u, m);
    } else {
      assert IntToString(n) + suffix == u;
      UnsignedParses(u, m);
    }
  }

  lemma NegativeParses(u: string, m: int)
    requires ParseUnsigned(u) == Some(m)
    ensures ParseInt("-" + u) == Some(-m)
  {
    var s := "-" + u;
    assert TrimStart(s) == s;
    assert s[1..] == u;
  }

  lemma UnsignedParses(u: string, m: int)
    requires ParseUnsigned(u) == Some(m)
    requires u != [] && CharDigit(u[0]) < 10
    ensures ParseInt(u) == Some(m)
  {
    assert !IsJsWhitespace(u[0]);
    assert TrimStart(u) == u;
  }

  lemma RenderedNatParses(m: nat, suffix: string)
    requires suffix == [] || (!IsRadixDigit(suffix[0], 10) && suffix[0] != 'x' && suffix[0] != 'X')
    ensures ParseUnsigned(NatToString(m) + suffix) == Some(m)
  {
    var digits := NatToString(m);
    NatToStringValue(m);
    DigitPrefixOfDigits(digits, suffix);
    var u := digits + suffix;
    if |u| >= 2 && u[0] == '0' {
      assert u[1] == suffix[0];
    }
  }

  lemma Parse360p()
    ensures ParseInt("360p") == Some(360)
  {
    assert NatToString(360) == "360" by {
      assert NatToString(36) == "36" by {
        assert NatToString(3) == "3";
      }
    }
    assert IntToString(360) + "p" == "360p";
    RenderedIntParses(360, "p");
  }

  /** Words have no leading digit: both are NaN. */
  lemma ParseWords()
    ensures ParseInt("abc").None?
    ensures ParseInt("audio").None?
  {
    assert TrimStart("abc") == "abc";
    assert TrimStart("audio") == "audio";
  }

  /** "360p" is where the badge and label ladders part: the badge floors it,
      the label has a rung of its own. */
  lemma LaddersDivergeAt360()
    ensures QualityBadge("360p", "mp4") == "quality-360p"
    ensures QualityLabel("360p", "mp4") == "SD 360p"
    ensures QualityIcon("360p", "mp4") == "fas fa-play"
  {
    Parse360p();
    assert !IsAudioFormat("mp4") by {
      MissingCharExcludes("mp4", "audio", 0);
    }
  }

  lemma Parse2160p()
    ensures ParseInt("2160p") == Some(2160)
  {
    assert NatToString(2160) == "2160" by {
      assert NatToString(216) == "216" by {
        assert NatToString(21) == "21" by {
          assert NatToString(2) == "2";
        }
      }
    }
    assert IntToString(2160) + "p" == "2160p";
    RenderedIntParses(2160, "p");
  }

  /** 2160 is the inclusive lower bound of the top rung of all three ladders. */
  lemma TopRungAt2160()
    ensures QualityBadge("2160p", "mp4") == "quality-4k"
    ensures QualityLabel("2160p", "mp4") == "4K Ultra HD"
    ensures QualityIcon("2160p", "mp4") == "fas fa-gem"
  {
    Parse2160p();
    assert !IsAudioFormat("mp4") by {
      MissingCharExcludes("mp4", "audio", 0);
    }
  }

  /** A MIME-like format naming audio wins over a quality that parses as 128. */
  lemma AudioMimeWins()
    ensures QualityBadge("128k", "audio/mp3") == "quality-audio"
    ensures QualityLabel("128k", "audio/mp3") == "Audio Only"
    ensures QualityIcon("128k", "audio/mp3") == "fas fa-music"
  {
    var format := "audio/mp3";
    assert format[..5] == "audio";
    assert Includes(format, "audio");
  }
}
