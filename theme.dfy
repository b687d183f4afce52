/** The theme resolver (pkgs/lcars-desktop/src/theme.c and theme.h).
    A mode name selects a palette of seven hex colour strings; a slot is
    looked up by its key string, and its hex string is decoded into
    normalised red, green, blue and alpha channels the way `hex_to_rgb`
    does with `sscanf("%x")`. */
module Theme {
  import opened Wrappers
  import CNum

  /** The seven colour slots of `struct theme_data`. */
  datatype Slot = Primary | Secondary | Accent | Background | Text | Warning | Danger

  /** The key string that names a slot. */
  function KeyOf(s: Slot): string {
    match s
    case Primary => "primary"
    case Secondary => "secondary"
    case Accent => "accent"
    case Background => "background"
    case Text => "text"
    case Warning => "warning"
    case Danger => "danger"
  }

  /** The slot a key names, if any: the `strcmp` chain of `theme_get_color`. */
  function SlotOfKey(key: string): (r: Option<Slot>)
    ensures r.Some? ==> KeyOf(r.value) == key
    ensures r.None? ==> forall s: Slot :: KeyOf(s) != key
  {
    if key == "primary" then Some(Primary)
    else if key == "secondary" then Some(Secondary)
    else if key == "accent" then Some(Accent)
    else if key == "background" then Some(Background)
    else if key == "text" then Some(Text)
    else if key == "warning" then Some(Warning)
    else if key == "danger" then Some(Danger)
    else None
  }

  predicate IsHexDigit(c: char) {
    '0' <= c <= '9' || 'a' <= c <= 'f' || 'A' <= c <= 'F'
  }

  function HexDigitValue(c: char): (d: nat)
    requires IsHexDigit(c)
    ensures d < 16
  {
    if '0' <= c <= '9' then (c as int) - ('0' as int)
    else if 'a' <= c <= 'f' then (c as int) - ('a' as int) + 10
    else (c as int) - ('A' as int) + 10
  }

  /** A colour as every palette writes it: '#' and six hex digits. */
  predicate IsHexColor(s: string) {
    |s| == 7 && s[0] == '#' && forall k :: 1 <= k < 7 ==> IsHexDigit(s[k])
  }

  type HexColor = s: string | IsHexColor(s) witness "#000000"

  /** The byte written by the two hex digits at `i` and `i + 1`. */
  function ByteAt(s: HexColor, i: nat): (b: nat)
    requires 1 <= i <= 5
    ensures b < 256
  {
    16 * HexDigitValue(s[i]) + HexDigitValue(s[i + 1])
  }

  /** The seven slot values of a theme. */
  datatype Palette = Palette(
    primary: HexColor, secondary: HexColor, accent: HexColor, background: HexColor,
    text: HexColor, warning: HexColor, danger: HexColor)
  {
    function SlotColor(s: Slot): HexColor {
      match s
      case Primary => primary
      case Secondary => secondary
      case Accent => accent
      case Background => background
      case Text => text
      case Warning => warning
      case Danger => danger
    }
  }

  // LCARS_COLOR_PRIMARY, _SECONDARY, _ACCENT and _BACKGROUND come from
  // config.h, which is not part of this model: they are left opaque here,
  // known only to be '#' and six hex digits.
  const LcarsColorPrimary: HexColor
  const LcarsColorSecondary: HexColor
  const LcarsColorAccent: HexColor
  const LcarsColorBackground: HexColor

  /** The modes `theme_create` recognises. */
  const KnownModes: seq<string> := ["starfleet", "section31", "borg", "terran", "holodeck"]

  const StarfleetPalette: Palette := Palette(
    LcarsColorPrimary, LcarsColorSecondary, LcarsColorAccent, LcarsColorBackground,
    "#FFFFFF", "#FFCC99", "#CC6666")

  const Section31Palette: Palette :=
    Palette("#333333", "#1a1a1a", "#666666", "#000000", "#cccccc", "#990000", "#ff0000")
  const BorgPalette: Palette :=
    Palette("#00FF00", "#008800", "#004400", "#000000", "#00FF00", "#FFFF00", "#FF0000")
  const TerranPalette: Palette :=
    Palette("#FFD700", "#8B4513", "#FF6347", "#000000", "#FFD700", "#FF4500", "#DC143C")
  const HolodeckPalette: Palette :=
    Palette("#00BFFF", "#87CEEB", "#B0E0E6", "#001133", "#FFFFFF", "#FFD700", "#FF6347")

  /** The palettes `theme_create` knows. */
  datatype Mode = Starfleet | Section31 | Borg | Terran | Holodeck

  /** The `strcmp` chain of `theme_create`: any unknown name, the empty one
      included, selects starfleet. */
  function ModeOf(name: string): Mode {
    if name == "starfleet" then Starfleet
    else if name == "section31" then Section31
    else if name == "borg" then Borg
    else if name == "terran" then Terran
    else if name == "holodeck" then Holodeck
    else Starfleet
  }

  function PaletteOf(m: Mode): Palette {
    match m
    case Starfleet => StarfleetPalette
    case Section31 => Section31Palette
    case Borg => BorgPalette
    case Terran => TerranPalette
    case Holodeck => HolodeckPalette
  }

  /** The slots `theme_create(mode)` fills in. */
  function PaletteFor(mode: string): Palette {
    PaletteOf(ModeOf(mode))
  }

  lemma UnknownModeIsStarfleet(mode: string)
    requires mode !in KnownModes
    ensures PaletteFor(mode) == PaletteFor("starfleet")
  {
    assert ModeOf(mode) == Starfleet by {
      assert mode != KnownModes[0] && mode != KnownModes[1] && mode != KnownModes[2];
      assert mode != KnownModes[3] && mode != KnownModes[4];
    }
  }

  /** The four palettes that do not depend on config.h. */
  lemma FixedPalettes()
    ensures PaletteFor("section31") ==
      Palette("#333333", "#1a1a1a", "#666666", "#000000", "#cccccc", "#990000", "#ff0000")
    ensures PaletteFor("borg") ==
      Palette("#00FF00", "#008800", "#004400", "#000000", "#00FF00", "#FFFF00", "#FF0000")
    ensures PaletteFor("terran") ==
      Palette("#FFD700", "#8B4513", "#FF6347", "#000000", "#FFD700", "#FF4500", "#DC143C")
    ensures PaletteFor("holodeck") ==
      Palette("#00BFFF", "#87CEEB", "#B0E0E6", "#001133", "#FFFFFF", "#FFD700", "#FF6347")
  {
    SelectsSection31();
    SelectsBorg();
    SelectsTerran();
    SelectsHolodeck();
  }

  lemma SelectsSection31()
    ensures PaletteFor("section31") == Section31Palette
  {
    assert "section31"[1] != "starfleet"[1];
  }

  lemma SelectsBorg()
    ensures PaletteFor("borg") == BorgPalette
  {
    assert |"borg"| != |"starfleet"| && |"borg"| != |"section31"|;
  }

  lemma SelectsTerran()
    ensures PaletteFor("terran") == TerranPalette
  {
    assert |"terran"| != |"starfleet"| && |"terran"| != |"section31"| && |"terran"| != |"borg"|;
  }

  lemma SelectsHolodeck()
    ensures PaletteFor("holodeck") == HolodeckPalette
  {
    assert |"holodeck"| != |"starfleet"| && |"holodeck"| != |"section31"| && |"holodeck"| != |"borg"|;
    assert "holodeck"[0] != "terran"[0];
  }

  /** `theme_get_color` on a snapshot of the theme (None for a null theme):
      the slot the key names, and "#000000" for a null theme, a null key or
      a key that names no slot. */
  function ColorOf(theme: Option<Palette>, key: Option<string>): (hex: HexColor)
    ensures forall s: Slot :: theme.Some? && key == Some(KeyOf(s)) ==> hex == theme.value.SlotColor(s)
    ensures theme.None? || key.None? || (forall s: Slot :: key.value != KeyOf(s)) ==> hex == "#000000"
  {
    if theme.None? || key.None? then "#000000"
    else
      match SlotOfKey(key.value)
      case Some(s) => theme.value.SlotColor(s)
      case None => "#000000"
  }

  // ----- hex_to_rgb -----

  predicate AllHex(ds: string) {
    forall k :: 0 <= k < |ds| ==> IsHexDigit(ds[k])
  }

  /** The end of the maximal run of hex digits that starts at `i`. */
  function HexRunEnd(s: string, i: nat): (j: nat)
    requires i <= |s|
    ensures i <= j <= |s|
    ensures forall k :: i <= k < j ==> IsHexDigit(s[k])
    ensures j == |s| || !IsHexDigit(s[j])
    decreases |s| - i
  {
    if i < |s| && IsHexDigit(s[i]) then HexRunEnd(s, i + 1) else i
  }

  function Pow16(n: nat): (p: nat)
    ensures p >= 1
  {
    if n == 0 then 1 else 16 * Pow16(n - 1)
  }

  /** The number written by the hex digits `ds`, most significant first; it
      has no more than `|ds|` hex digits. */
  function HexValue(ds: string): (v: nat)
    requires AllHex(ds)
    ensures v < Pow16(|ds|)
  {
    if ds == [] then 0 else HexValue(ds[..|ds| - 1]) * 16 + HexDigitValue(ds[|ds| - 1])
  }

  /** What `hex_to_rgb` hands to `sscanf`: the text after at most one '#'. */
  function AfterHash(hex: string): (t: string)
    ensures hex == t || hex == ['#'] + t
  {
    if |hex| > 0 && hex[0] == '#' then hex[1..] else hex
  }

  /** The inputs on which `sscanf("%x")` reads exactly the maximal run of hex
      digits: no leading space or sign, no "0x" prefix, and at most eight
      digits, so that the value fits an `unsigned int`. */
  predicate ScanfSafe(hex: string) {
    var t := AfterHash(hex);
    (t == [] || (!CNum.IsSpace(t[0]) && t[0] != '+' && t[0] != '-')) &&
    !(|t| >= 2 && t[0] == '0' && (t[1] == 'x' || t[1] == 'X')) &&
    HexRunEnd(t, 0) <= 8
  }

  /** A colour with its channels; cairo takes each as a `double`. */
  datatype Rgba = Rgba(r: real, g: real, b: real, a: real)

  predicate InUnit(x: real) {
    0.0 <= x <= 1.0
  }

  /** A byte as a channel value, `byte / 255.0`. */
  function Channel(byte: nat): (x: real)
    requires byte < 256
    ensures InUnit(x)
  {
    byte as real / 255.0
  }

  /** `hex_to_rgb`; None where it returns -1. Red, green and blue are bytes
      2, 1 and 0 of the value `sscanf` read; the length is never checked. */
  function HexToRgb(hex: string): (c: Option<Rgba>)
    requires ScanfSafe(hex)
    ensures c.None? <==> AfterHash(hex) == [] || !IsHexDigit(AfterHash(hex)[0])
    ensures c.Some? ==> InUnit(c.value.r) && InUnit(c.value.g) && InUnit(c.value.b) && c.value.a == 1.0
  {
    var t := AfterHash(hex);
    var n := HexRunEnd(t, 0);
    if n == 0 then None
    else
      var v := HexValue(t[..n]);
      Some(Rgba(Channel((v / 65536) % 256), Channel((v / 256) % 256), Channel(v % 256), 1.0))
  }

  lemma {:induction false} HexRunEndAt(s: string, i: nat, j: nat)
    requires i <= j <= |s|
    requires forall k :: i <= k < j ==> IsHexDigit(s[k])
    requires j == |s| || !IsHexDigit(s[j])
    ensures HexRunEnd(s, i) == j
    decreases j - i
  {
    if i < j {
      HexRunEndAt(s, i + 1, j);
    }
  }

  /** The value of six hex digits, split into its three bytes. */
  lemma SixDigitValue(t: string)
    requires |t| == 6 && AllHex(t)
    ensures HexValue(t) ==
      (16 * HexDigitValue(t[0]) + HexDigitValue(t[1])) * 65536 +
      (16 * HexDigitValue(t[2]) + HexDigitValue(t[3])) * 256 +
      (16 * HexDigitValue(t[4]) + HexDigitValue(t[5]))
  {
    var d := i requires 0 <= i < 6 => HexDigitValue(t[i]);
    assert t[..5][..4] == t[..4] && t[..4][..3] == t[..3];
    assert t[..3][..2] == t[..2] && t[..2][..1] == t[..1] && t[..1][..0] == [];
    assert HexValue(t[..1]) == d(0);
    assert HexValue(t[..2]) == d(0) * 16 + d(1);
    assert HexValue(t[..3]) == (d(0) * 16 + d(1)) * 16 + d(2);
    assert HexValue(t[..4]) == ((d(0) * 16 + d(1)) * 16 + d(2)) * 16 + d(3);
    assert HexValue(t[..5]) == (((d(0) * 16 + d(1)) * 16 + d(2)) * 16 + d(3)) * 16 + d(4);
  }

  /** Bytes 2, 1 and 0 of a value built from three bytes. */
  lemma ByteSplit(hi: nat, mid: nat, lo: nat)
    requires hi < 256 && mid < 256 && lo < 256
    ensures var v := hi * 65536 + mid * 256 + lo;
      (v / 65536) % 256 == hi && (v / 256) % 256 == mid && v % 256 == lo
  {
    var v := hi * 65536 + mid * 256 + lo;
    assert v / 65536 == hi;
    assert v / 256 == hi * 256 + mid;
  }

  /** Every palette colour is accepted by `hex_to_rgb`, which decodes its
      three digit pairs into red, green and blue, with alpha 1. */
  lemma HexColorDecodes(s: HexColor)
    ensures ScanfSafe(s)
    ensures HexToRgb(s) == Some(Rgba(Channel(ByteAt(s, 1)), Channel(ByteAt(s, 3)), Channel(ByteAt(s, 5)), 1.0))
  {
    var t := AfterHash(s);
    assert t == s[1..];
    HexRunEndAt(t, 0, 6);
    assert t[..6] == t;
    SixDigitValue(t);
    ByteSplit(ByteAt(s, 1), ByteAt(s, 3), ByteAt(s, 5));
  }

  /** `sscanf` stops at the first non-hex character and nothing checks the
      length: "#FF" is blue, "#GG" is rejected, and only one '#' is skipped. */
  lemma HexToRgbExamples()
    ensures ScanfSafe("#FF") && HexToRgb("#FF") == Some(Rgba(0.0, 0.0, 1.0, 1.0))
    ensures ScanfSafe("#GG") && HexToRgb("#GG") == None
    ensures ScanfSafe("##FF") && HexToRgb("##FF") == None
    ensures ScanfSafe("") && HexToRgb("") == None
  {
    var t := AfterHash("#FF");
    assert t == "FF";
    HexRunEndAt(t, 0, 2);
    assert t[..2] == t && t[..2][..1] == "F" && t[..1][..0] == [];
  }

  // ----- the channel getters -----

  /** The decoded colour of a key, or None when `hex_to_rgb` fails. */
  function Decoded(theme: Option<Palette>, key: Option<string>): Option<Rgba> {
    var hex := ColorOf(theme, key);
    HexColorDecodes(hex);
    HexToRgb(hex)
  }

  /** `theme_get_red`: 0.0 when decoding fails. */
  function Red(theme: Option<Palette>, key: Option<string>): (x: real)
    ensures InUnit(x)
  {
    match Decoded(theme, key)
    case Some(c) => c.r
    case None => 0.0
  }

  /** `theme_get_green`: 0.0 when decoding fails. */
  function Green(theme: Option<Palette>, key: Option<string>): (x: real)
    ensures InUnit(x)
  {
    match Decoded(theme, key)
    case Some(c) => c.g
    case None => 0.0
  }

  /** `theme_get_blue`: 0.0 when decoding fails. */
  function Blue(theme: Option<Palette>, key: Option<string>): (x: real)
    ensures InUnit(x)
  {
    match Decoded(theme, key)
    case Some(c) => c.b
    case None => 0.0
  }

  /** `theme_get_alpha`: 1.0 when decoding fails and 1.0 when it succeeds. */
  function Alpha(theme: Option<Palette>, key: Option<string>): (x: real)
    ensures x == 1.0
  {
    match Decoded(theme, key)
    case Some(c) => c.a
    case None => 1.0
  }

  /** The four getters on a slot's key give the slot's digit pairs as
      channels, and full alpha. */
  lemma GettersDecodeSlot(p: Palette, s: Slot)
    ensures var hex := p.SlotColor(s);
      Red(Some(p), Some(KeyOf(s))) == Channel(ByteAt(hex, 1)) &&
      Green(Some(p), Some(KeyOf(s))) == Channel(ByteAt(hex, 3)) &&
      Blue(Some(p), Some(KeyOf(s))) == Channel(ByteAt(hex, 5)) &&
      Alpha(Some(p), Some(KeyOf(s))) == 1.0
  {
    HexColorDecodes(p.SlotColor(s));
  }

  /** A null theme, a null key or a key that names no slot reads as opaque
      black. */
  lemma FallbackIsOpaqueBlack(theme: Option<Palette>, key: Option<string>)
    requires theme.None? || key.None? || forall s: Slot :: key.value != KeyOf(s)
    ensures Red(theme, key) == 0.0 && Green(theme, key) == 0.0 && Blue(theme, key) == 0.0
    ensures Alpha(theme, key) == 1.0
  {
    var black: HexColor := "#000000";
    HexColorDecodes(black);
    assert ByteAt(black, 1) == 0 && ByteAt(black, 3) == 0 && ByteAt(black, 5) == 0;
  }

  /** `struct theme_data`: the mode name and the seven slot strings, which
      `theme_create` and `theme_set_mode` write in place. */
  class ThemeData {
    var mode: string
    var primary: HexColor
    var secondary: HexColor
    var accent: HexColor
    var background: HexColor
    var text: HexColor
    var warning: HexColor
    var danger: HexColor

    /** The seven slots as a value. */
    function Slots(): Palette
      reads this
    {
      Palette(primary, secondary, accent, background, text, warning, danger)
    }

    /** `theme_create(mode)`: the mode is stored verbatim, recognised or not,
        and the slots are those of its palette. */
    constructor (mode: string)
      ensures this.mode == mode && Slots() == PaletteFor(mode)
    {
      var p := PaletteFor(mode);
      this.mode := mode;
      primary, secondary, accent, background := p.primary, p.secondary, p.accent, p.background;
      text, warning, danger := p.text, p.warning, p.danger;
    }

    /** The copy at the end of `theme_set_mode`: the mode and the seven slot
        pointers of `other` move into this record. */
    method CopyFrom(other: ThemeData)
      requires other != this
      modifies this
      ensures mode == other.mode && Slots() == other.Slots()
    {
      mode := other.mode;
      primary, secondary, accent, background := other.primary, other.secondary, other.accent, other.background;
      text, warning, danger := other.text, other.warning, other.danger;
    }
  }

  /** What the getters read from a theme pointer: None for a null one. */
  function Snapshot(theme: ThemeData?): (p: Option<Palette>)
    reads theme
    ensures p.None? <==> theme == null
  {
    if theme == null then None else Some(theme.Slots())
  }

  /** `theme_set_mode`: -1 and no change for a null theme or mode; otherwise
      0, with the mode and all seven slots replaced by those of a theme
      created for `mode`. */
  method SetMode(theme: ThemeData?, mode: Option<string>) returns (rc: int)
    modifies theme
    ensures rc == -1 <==> theme == null || mode.None?
    ensures rc == 0 || rc == -1
    ensures rc == -1 ==> theme == null || unchanged(theme)
    ensures rc == 0 ==> theme.mode == mode.value && theme.Slots() == PaletteFor(mode.value)
  {
    if theme == null || mode.None? {
      return -1;
    }
    var created := new ThemeData(mode.value);
    theme.CopyFrom(created);
    return 0;
  }
}
