/** Display configuration (pkgs/lcars-desktop/src/display.c and display.h):
    parsing a "WIDTHxHEIGHT" resolution string with `strtol`, the fixed table
    of supported modes, and the configuration record. */
module Display {
  import opened Wrappers
  import CNum

  /** The width and height `display_parse_resolution` stores on success. */
  datatype Size = Size(width: int, height: int)

  /** `display_parse_resolution`; None where it returns -1. The width is
      `strtol` of the whole string; the character where it stopped must be
      'x' or 'X'; the height is `strtol` of the rest, whose trailing text is
      ignored; both must be positive. A null string (None) fails. */
  function ParseResolution(resolution: Option<string>): (r: Option<Size>)
    ensures r.Some? ==> r.value.width > 0 && r.value.height > 0
  {
    if resolution.None? then None
    else
      var s := resolution.value;
      var w := CNum.Strtol(s);
      // `*endptr` is the terminating NUL when strtol consumed everything.
      if w.end == |s| || (s[w.end] != 'x' && s[w.end] != 'X') then None
      else
        var h := CNum.Strtol(s[w.end + 1..]);
        if w.value <= 0 || h.value <= 0 then None
        else Some(Size(w.value, h.value))
  }

  /** A resolution string as the mode table writes it. */
  function FormatResolution(width: nat, height: nat): string {
    CNum.DecimalString(width) + "x" + CNum.DecimalString(height)
  }

  /** Digits, the separator, digits and any text that does not start with
      a digit: the two digit runs give the size, which must be positive. */
  lemma ParseDigits(s: string, ws: string, sep: char, hs: string, rest: string)
    requires ws != [] && CNum.AllDigits(ws) && hs != [] && CNum.AllDigits(hs)
    requires sep == 'x' || sep == 'X'
    requires rest == [] || !CNum.IsDigit(rest[0])
    requires s == ws + [sep] + hs + rest
    ensures ParseResolution(Some(s)) ==
      var w, h := CNum.DecimalValue(ws), CNum.DecimalValue(hs);
      if w > 0 && h > 0 then Some(Size(w, h)) else None
  {
    SplitAtSeparator(s, ws, sep, hs + rest);
    CNum.StrtolOfDigits(ws, [sep] + (hs + rest));
    CNum.StrtolOfDigits(hs, rest);
  }

  /** Where the separator and the text after it sit in `ws + [sep] + tail`. */
  lemma SplitAtSeparator(s: string, ws: string, sep: char, tail: string)
    requires s == ws + [sep] + tail
    ensures s == ws + ([sep] + tail)
    ensures |ws| < |s| && s[|ws|] == sep && s[|ws| + 1..] == tail
  {
  }

  /** Writing a positive size and parsing it back gives the size, whatever
      non-digit text follows the height. */
  lemma ParseFormatRoundTrip(width: nat, height: nat, rest: string)
    requires width > 0 && height > 0
    requires rest == [] || !CNum.IsDigit(rest[0])
    ensures ParseResolution(Some(FormatResolution(width, height) + rest)) == Some(Size(width, height))
  {
    CNum.DecimalRoundTrip(width);
    CNum.DecimalRoundTrip(height);
    ParseDigits(FormatResolution(width, height) + rest,
      CNum.DecimalString(width), 'x', CNum.DecimalString(height), rest);
  }

  /** The decimal values of the two halves of "1920x1080". */
  lemma FullHdDigits()
    ensures CNum.DecimalValue("1920") == 1920 && CNum.DecimalValue("1080") == 1080
  {
    assert "1920"[..3] == "192" && "192"[..2] == "19" && "19"[..1] == "1" && "1"[..0] == "";
    assert "1080"[..3] == "108" && "108"[..2] == "10" && "10"[..1] == "1";
  }

  /** "1920x1080" is 1920 by 1080. */
  lemma ParseFullHd()
    ensures ParseResolution(Some("1920x1080")) == Some(Size(1920, 1080))
  {
    assert "1920x1080" == "1920" + ['x'] + "1080" + "";
    ParseDigits("1920x1080", "1920", 'x', "1080", "");
    FullHdDigits();
  }

  /** The character right after the width digits must be the separator. */
  /** After the width digits, any character other than 'x' or 'X' (and not
      a further digit) makes the whole string fail, whatever follows it. */
  lemma WrongSeparator(ws: string, c: char, rest: string)
    requires ws != [] && CNum.AllDigits(ws)
    requires !CNum.IsDigit(c) && c != 'x' && c != 'X'
    ensures ParseResolution(Some(ws + [c] + rest)) == None
  {
    assert ws + [c] + rest == ws + ([c] + rest);
    CNum.StrtolOfDigits(ws, [c] + rest);
    assert (ws + [c] + rest)[|ws|] == c;
  }

  /** For instance, "1920y1080" fails. */
  lemma ParseRejectsSeparator()
    ensures ParseResolution(Some("1920y1080")) == None
  {
    assert "1920y1080" == "1920" + ['y'] + "1080";
    WrongSeparator("1920", 'y', "1080");
  }

  /** A width that is not positive fails, including a missing one. */
  lemma ParseRejectsZeroWidth()
    ensures ParseResolution(Some("0x600")) == None
    ensures ParseResolution(Some("x600")) == None
    ensures ParseResolution(None) == None
  {
    ZeroWidth();
    MissingWidth("x600");
  }

  lemma ZeroWidth()
    ensures ParseResolution(Some("0x600")) == None
  {
    assert "0x600" == "0" + ['x'] + "600" + "";
    ParseDigits("0x600", "0", 'x', "600", "");
    assert CNum.DecimalValue("0") == 0 by {
      assert "0"[..0] == "";
    }
  }

  /** Text that starts with the separator has width 0, and fails. */
  lemma MissingWidth(s: string)
    requires s != [] && (s[0] == 'x' || s[0] == 'X')
    ensures ParseResolution(Some(s)) == None
  {
    assert CNum.Strtol(s).end == 0 by {
      assert CNum.SkipSpaces(s, 0) == 0;
    }
  }

  /** A width that does not start with a digit is missing. */
  lemma ParseRejectsLetters()
    ensures ParseResolution(Some("abcx600")) == None
  {
    NoLeadingNumber("abcx600");
  }

  /** Text that starts with neither a space, a sign, a digit nor the
      separator has no width, and fails. */
  lemma NoLeadingNumber(s: string)
    requires s != [] && !CNum.IsSpace(s[0]) && !CNum.IsDigit(s[0]) && s[0] != '+' && s[0] != '-'
    requires s[0] != 'x' && s[0] != 'X'
    ensures ParseResolution(Some(s)) == None
  {
    assert CNum.Strtol(s).end == 0 by {
      assert CNum.SkipSpaces(s, 0) == 0;
    }
  }

  /** The table `display_get_modes` returns (without its NULL terminator). */
  const Modes: seq<string> := [
    "1920x1080", "1680x1050", "1600x900", "1440x900", "1366x768",
    "1280x1024", "1280x800", "1280x720", "1024x768", "800x600"]

  /** Every mode in the table is a valid resolution string. */
  lemma ModesParse()
    ensures forall i :: 0 <= i < |Modes| ==> ParseResolution(Some(Modes[i])).Some?
  {
    var halves := [("1920", "1080"), ("1680", "1050"), ("1600", "900"), ("1440", "900"),
                   ("1366", "768"), ("1280", "1024"), ("1280", "800"), ("1280", "720"),
                   ("1024", "768"), ("800", "600")];
    forall i | 0 <= i < |Modes|
      ensures ParseResolution(Some(Modes[i])).Some?
    {
      var (ws, hs) := halves[i];
      assert Modes[i] == ws + ['x'] + hs + "";
      ParseDigits(Modes[i], ws, 'x', hs, "");
      CNum.LeadingNonZeroIsPositive(ws);
      CNum.LeadingNonZeroIsPositive(hs);
    }
  }

  /** `display_set_mode`: 0 exactly when the string equals an entry of the
      table, else -1. */
  method SetMode(mode: string) returns (rc: int)
    ensures rc == 0 || rc == -1
    ensures rc == 0 <==> mode in Modes
  {
    var i := 0;
    while i < |Modes|
      invariant 0 <= i <= |Modes|
      invariant mode !in Modes[..i]
    {
      if Modes[i] == mode {
        return 0;
      }
      i := i + 1;
    }
    assert Modes[..i] == Modes;
    return -1;
  }

  /** `struct display_config`. */
  class DisplayConfig {
    var resolution: string
    var width: int
    var height: int
    var refreshRate: int

    constructor (resolution: string, refreshRate: int, size: Size)
      ensures this.resolution == resolution && this.refreshRate == refreshRate
      ensures width == size.width && height == size.height
    {
      this.resolution := resolution;
      this.refreshRate := refreshRate;
      width, height := size.width, size.height;
    }
  }

  /** `display_config_create`: null when the resolution does not parse;
      otherwise a new record holding the string, the parsed size and the
      refresh rate unchanged. */
  method CreateConfig(resolution: string, refreshRate: int) returns (config: DisplayConfig?)
    ensures config == null <==> ParseResolution(Some(resolution)).None?
    ensures config != null ==>
      fresh(config) && config.resolution == resolution && config.refreshRate == refreshRate &&
      Size(config.width, config.height) == ParseResolution(Some(resolution)).value
  {
    var parsed := ParseResolution(Some(resolution));
    if parsed.None? {
      return null;
    }
    config := new DisplayConfig(resolution, refreshRate, parsed.value);
  }
}
