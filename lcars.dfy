/** The LCARS drawing routines (pkgs/lcars-desktop/src/lcars.c). The cairo
    context is a `Canvas` holding the log of what has been painted: each
    filled shape and each piece of text, with the colour key it was drawn
    in and the colour the theme getters give for that key. Shapes keep
    their geometry: plain rectangles, and rounded rectangles as the four
    quarter arcs `draw_rounded_rect` adds to the path. */
module Lcars {
  import opened Wrappers
  import CNum
  import Theme
  import Widgets

  // ----- paths -----

  /** A `cairo_arc` call: centre, radius, and start and end angle in
      degrees (cairo turns positive angles from the x axis towards y). */
  datatype Arc = Arc(cx: int, cy: int, radius: int, startDeg: int, endDeg: int)

  /** The cosine and sine of a multiple of 90 degrees. */
  function Cos(deg: int): int {
    var d := deg % 360;
    if d == 0 then 1 else if d == 180 then -1 else 0
  }

  function Sin(deg: int): int {
    var d := deg % 360;
    if d == 90 then 1 else if d == 270 then -1 else 0
  }

  datatype Point = Point(x: int, y: int)

  /** Where an arc whose angles are multiples of 90 degrees starts and ends. */
  function StartOf(a: Arc): Point {
    Point(a.cx + a.radius * Cos(a.startDeg), a.cy + a.radius * Sin(a.startDeg))
  }

  function EndOf(a: Arc): Point {
    Point(a.cx + a.radius * Cos(a.endDeg), a.cy + a.radius * Sin(a.endDeg))
  }

  /** The arcs `draw_rounded_rect` adds between `cairo_new_sub_path` and
      `cairo_close_path`: top right, bottom right, bottom left, top left. */
  function RoundedRectArcs(x: int, y: int, width: int, height: int, radius: int): seq<Arc> {
    [ Arc(x + width - radius, y + radius, radius, -90, 0),
      Arc(x + width - radius, y + height - radius, radius, 0, 90),
      Arc(x + radius, y + height - radius, radius, 90, 180),
      Arc(x + radius, y + radius, radius, 180, 270) ]
  }

  /** The outline of a rounded rectangle: each arc turns a quarter circle
      clockwise on screen, each straight piece between two arcs (and the
      piece `cairo_close_path` adds) runs along one side of the rectangle,
      and when the radius fits, every arc's circle lies inside the
      rectangle. */
  lemma RoundedRectOutline(x: int, y: int, width: int, height: int, radius: int)
    ensures var arcs := RoundedRectArcs(x, y, width, height, radius);
      |arcs| == 4 &&
      (forall i :: 0 <= i < 4 ==> arcs[i].endDeg == arcs[i].startDeg + 90 && arcs[i].radius == radius) &&
      // right side, x == x + width
      EndOf(arcs[0]) == Point(x + width, y + radius) && StartOf(arcs[1]) == Point(x + width, y + height - radius) &&
      // bottom side, y == y + height
      EndOf(arcs[1]) == Point(x + width - radius, y + height) && StartOf(arcs[2]) == Point(x + radius, y + height) &&
      // left side, x == x
      EndOf(arcs[2]) == Point(x, y + height - radius) && StartOf(arcs[3]) == Point(x, y + radius) &&
      // top side, y == y, closing the path
      EndOf(arcs[3]) == Point(x + radius, y) && StartOf(arcs[0]) == Point(x + width - radius, y)
    ensures 0 <= radius && 2 * radius <= width && 2 * radius <= height ==>
      forall a :: a in RoundedRectArcs(x, y, width, height, radius) ==>
        x <= a.cx - a.radius && a.cx + a.radius <= x + width &&
        y <= a.cy - a.radius && a.cy + a.radius <= y + height
  {
    var arcs := RoundedRectArcs(x, y, width, height, radius);
    assert Cos(-90) == 0 && Sin(-90) == -1;
    assert Cos(270) == 0 && Sin(270) == -1;
    assert Cos(180) == -1 && Sin(180) == 0;
    assert Cos(90) == 0 && Sin(90) == 1;
  }

  // ----- the log -----

  /** The shape a `cairo_fill` fills. */
  datatype Shape = Rect(box: Widgets.Box) | RoundRect(arcs: seq<Arc>)

  /** The colour key a piece was drawn with and the theme it was looked up
      in; `Color()` is what the four theme getters give for them, the
      colour `cairo_set_source_rgba` receives. */
  datatype Paint = Paint(key: string, theme: Option<Theme.Palette>) {
    function Color(): (c: Theme.Rgba)
      ensures Theme.InUnit(c.r) && Theme.InUnit(c.g) && Theme.InUnit(c.b) && c.a == 1.0
    {
      Theme.Rgba(Theme.Red(theme, Some(key)), Theme.Green(theme, Some(key)),
                 Theme.Blue(theme, Some(key)), Theme.Alpha(theme, Some(key)))
    }
  }

  datatype Cmd =
    | Fill(shape: Shape, paint: Paint)
    | ShowText(origin: Point, font: string, text: string, paint: Paint)

  /** A slot's key paints with the slot's own colour. */
  lemma SlotPaintColor(p: Theme.Palette, s: Theme.Slot)
    ensures var hex := p.SlotColor(s);
      Paint(Theme.KeyOf(s), Some(p)).Color() ==
        Theme.Rgba(Theme.Channel(Theme.ByteAt(hex, 1)), Theme.Channel(Theme.ByteAt(hex, 3)),
                   Theme.Channel(Theme.ByteAt(hex, 5)), 1.0)
  {
    Theme.GettersDecodeSlot(p, s);
  }

  // ----- the drawing routines, as what they add to the log -----

  /** `lcars_draw_panel`: one rounded rectangle of radius 10. */
  function PanelCmds(theme: Option<Theme.Palette>, x: int, y: int, width: int, height: int, key: string): seq<Cmd> {
    [Fill(RoundRect(RoundedRectArcs(x, y, width, height, 10)), Paint(key, theme))]
  }

  /** `pango_layout_get_size` of a label, in Pango units. */
  datatype Extent = Extent(width: int, height: int)

  /** Pango units per device unit. */
  const PangoScale := 1024

  /** Where `lcars_draw_button` moves to before showing the label: the
      label's size is scaled down to device units, and the space left in
      the button is halved, each with C's truncating `/`. */
  function LabelOrigin(x: int, y: int, width: int, height: int, layout: Extent): Point {
    var textWidth := CNum.CDiv(layout.width, PangoScale);
    var textHeight := CNum.CDiv(layout.height, PangoScale);
    Point(x + CNum.CDiv(width - textWidth, 2), y + CNum.CDiv(height - textHeight, 2))
  }

  /** The label is centred to within one unit: the space before it and the
      space after it differ by at most one, on each axis, whether or not
      the label fits. */
  lemma LabelCentred(x: int, y: int, width: int, height: int, layout: Extent)
    ensures var o := LabelOrigin(x, y, width, height, layout);
      var tw, th := CNum.CDiv(layout.width, PangoScale), CNum.CDiv(layout.height, PangoScale);
      var before, after := o.x - x, (x + width) - (o.x + tw);
      var above, below := o.y - y, (y + height) - (o.y + th);
      -1 <= after - before <= 1 && -1 <= below - above <= 1
  {
  }

  /** The font `lcars_draw_button` shows labels in. */
  const ButtonFont := "LCARS 12"

  /** `lcars_draw_button`: the rounded background in `key`, then the label
      in the text colour at `LabelOrigin`. */
  function ButtonCmds(theme: Option<Theme.Palette>, x: int, y: int, width: int, height: int, radius: int,
                      key: string, caption: string, layout: Extent): seq<Cmd> {
    [ Fill(RoundRect(RoundedRectArcs(x, y, width, height, radius)), Paint(key, theme)),
      ShowText(LabelOrigin(x, y, width, height, layout), ButtonFont, caption, Paint("text", theme)) ]
  }

  /** The font description `lcars_draw_text` builds with `snprintf`. */
  function FontName(size: int): string {
    "LCARS " + CNum.IntString(size)
  }

  /** `lcars_draw_text`: the text with its top left corner at `(x, y)`. */
  function TextCmds(theme: Option<Theme.Palette>, x: int, y: int, key: string, text: string, size: int): seq<Cmd> {
    [ShowText(Point(x, y), FontName(size), text, Paint(key, theme))]
  }

  /** The width of the filled part of a status bar: `width * value`
      truncated toward zero. */
  function FillWidth(width: int, value: real): int {
    CNum.Trunc(width as real * value)
  }

  /** For a value in [0, 1] the fill never passes the end of the track,
      and is the whole track at 1 and nothing at 0. */
  lemma FillWithinTrack(width: int, value: real)
    requires width >= 0 && 0.0 <= value <= 1.0
    ensures 0 <= FillWidth(width, value) <= width
    ensures value == 1.0 ==> FillWidth(width, value) == width
    ensures value == 0.0 ==> FillWidth(width, value) == 0
  {
    assert 0.0 <= width as real * value <= width as real;
  }

  /** A larger value never fills less of a track of the same width. */
  lemma FillMonotone(width: int, a: real, b: real)
    requires width >= 0 && a <= b
    ensures FillWidth(width, a) <= FillWidth(width, b)
  {
    assert width as real * a <= width as real * b;
  }

  /** `lcars_draw_status_bar`: the track in the background colour, then,
      only when the fill width is positive, the fill in `key`; both share
      x, y, height and the radius `height / 2`. The value is not clamped. */
  function StatusBarCmds(theme: Option<Theme.Palette>, x: int, y: int, width: int, height: int,
                         value: real, key: string): seq<Cmd> {
    var radius := CNum.CDiv(height, 2);
    var track := Fill(RoundRect(RoundedRectArcs(x, y, width, height, radius)), Paint("background", theme));
    var fill := FillWidth(width, value);
    if fill > 0 then [track, Fill(RoundRect(RoundedRectArcs(x, y, fill, height, radius)), Paint(key, theme))]
    else [track]
  }

  /** A value outside [0, 1] is drawn as given: above 1 the fill passes the
      end of the track. */
  lemma StatusBarNotClamped(theme: Option<Theme.Palette>)
    ensures StatusBarCmds(theme, 0, 0, 100, 20, 1.5, "accent")[1].shape ==
            RoundRect(RoundedRectArcs(0, 0, 150, 20, 10))
  {
    assert FillWidth(100, 1.5) == 150;
  }

  // ----- the main interface -----

  /** The labels of the seven buttons, top to bottom. */
  const ButtonLabels: seq<string> :=
    ["LCARS MAIN", "SYSTEMS", "SENSORS", "TACTICAL", "OPERATIONS", "SECURITY", "RED ALERT"]

  /** The colour keys of the seven buttons, top to bottom. */
  const ButtonKeys: seq<string> :=
    ["accent", "accent", "accent", "accent", "accent", "warning", "danger"]

  /** The three structural bands: top bar, left sidebar, bottom bar. */
  function Bands(width: int, height: int): seq<Widgets.Box> {
    [Widgets.Box(0, 0, width, 60), Widgets.Box(0, 60, 200, height - 60), Widgets.Box(200, height - 60, width - 200, 60)]
  }

  function BandCmds(theme: Option<Theme.Palette>, width: int, height: int): seq<Cmd> {
    var b := Bands(width, height);
    var p := Paint("primary", theme);
    [Fill(Rect(b[0]), p), Fill(Rect(b[1]), p), Fill(Rect(b[2]), p)]
  }

  function PanelsCmds(theme: Option<Theme.Palette>, width: int, height: int): seq<Cmd> {
    PanelCmds(theme, width - 300, 80, 280, 200, "secondary") +
    PanelCmds(theme, 220, 80, width - 540, height - 200, "accent") +
    PanelCmds(theme, 220, height - 100, 300, 40, "secondary")
  }

  /** The region of the k-th button, counting from 0 at the top. */
  function ButtonBox(k: int): Widgets.Box {
    Widgets.Box(20, 80 + 60 * k, 160, 40)
  }

  /** The k-th button of the main interface: radius 10, the k-th key and
      label, and the label size `measure` gives (what Pango reports). */
  function ButtonRow(theme: Option<Theme.Palette>, measure: string -> Extent, k: nat): seq<Cmd>
    requires k < 7
  {
    var b := ButtonBox(k);
    ButtonCmds(theme, b.x, b.y, b.width, b.height, 10, ButtonKeys[k], ButtonLabels[k], measure(ButtonLabels[k]))
  }

  /** The first n buttons, top to bottom. */
  function ButtonRows(theme: Option<Theme.Palette>, measure: string -> Extent, n: nat): seq<Cmd>
    requires n <= 7
  {
    if n == 0 then [] else ButtonRows(theme, measure, n - 1) + ButtonRow(theme, measure, n - 1)
  }

  function ButtonsCmds(theme: Option<Theme.Palette>, measure: string -> Extent): seq<Cmd> {
    ButtonRows(theme, measure, 7)
  }

  function TitleCmds(theme: Option<Theme.Palette>, width: int): seq<Cmd> {
    TextCmds(theme, 20, 40, "text", "STARFLEET OS", 18) +
    TextCmds(theme, width - 200, 40, "text", "LCARS INTERFACE", 16)
  }

  function StatusBarsCmds(theme: Option<Theme.Palette>, width: int): seq<Cmd> {
    StatusBarCmds(theme, width - 280, 100, 240, 20, 0.75, "accent") +
    StatusBarCmds(theme, width - 280, 140, 240, 20, 0.50, "accent") +
    StatusBarCmds(theme, width - 280, 180, 240, 20, 0.90, "accent") +
    StatusBarCmds(theme, width - 280, 220, 240, 20, 0.30, "warning")
  }

  /** `lcars_draw_main_interface`: bands, panels, buttons, titles and
      status bars, in that order. */
  function MainInterfaceCmds(theme: Option<Theme.Palette>, width: int, height: int,
                             measure: string -> Extent): seq<Cmd> {
    BandCmds(theme, width, height) + PanelsCmds(theme, width, height) + ButtonsCmds(theme, measure) +
    TitleCmds(theme, width) + StatusBarsCmds(theme, width)
  }

  /** The bands are filled in the primary colour; once the screen is at
      least 120 high no two of them overlap. */
  lemma BandsDisjoint(theme: Option<Theme.Palette>, width: int, height: int, px: int, py: int)
    requires height >= 120
    ensures forall i :: 0 <= i < 3 ==> BandCmds(theme, width, height)[i].paint.key == "primary"
    ensures forall i, j :: 0 <= i < j < 3 ==>
      !(Bands(width, height)[i].Covers(px, py) && Bands(width, height)[j].Covers(px, py))
  {
    var b := Bands(width, height);
    Widgets.SeparatedBoxesAreDisjoint(b[0], b[1], px, py);
    Widgets.SeparatedBoxesAreDisjoint(b[0], b[2], px, py);
    Widgets.SeparatedBoxesAreDisjoint(b[1], b[2], px, py);
  }

  /** The k-th pair of a sequence of pairs followed by one more pair. */
  lemma PairOfAppend(prev: seq<Cmd>, row: seq<Cmd>, k: nat)
    requires |prev| % 2 == 0 && |row| == 2 && 2 * k + 2 <= |prev| + 2
    ensures (prev + row)[2 * k..2 * k + 2] == if 2 * k < |prev| then prev[2 * k..2 * k + 2] else row
  {
    if 2 * k < |prev| {
      assert 2 * k + 2 <= |prev|;
    } else {
      assert 2 * k == |prev|;
    }
  }

  /** The commands for the first n buttons come in pairs, the k-th pair
      being the k-th button: its radius-10 background at `ButtonBox(k)` in
      the k-th key, then its label in the text colour. */
  lemma ButtonsLayout(theme: Option<Theme.Palette>, measure: string -> Extent, n: nat)
    requires n <= 7
    ensures |ButtonRows(theme, measure, n)| == 2 * n
    ensures forall k :: 0 <= k < n ==> ButtonRows(theme, measure, n)[2 * k..2 * k + 2] == ButtonRow(theme, measure, k)
  {
    var rows := ButtonList(theme, measure)[..n];
    ButtonRowsConcat(theme, measure, n);
    forall k | 0 <= k < n
      ensures |rows[k]| == 2
    {
    }
    ConcatPairs(rows);
    forall k | 0 <= k < n
      ensures ButtonRows(theme, measure, n)[2 * k..2 * k + 2] == ButtonRow(theme, measure, k)
    {
      assert rows[k] == ButtonList(theme, measure)[k];
    }
  }

  /** The seven buttons' command pairs, top to bottom. */
  function ButtonList(theme: Option<Theme.Palette>, measure: string -> Extent): (rows: seq<seq<Cmd>>)
    ensures |rows| == 7
    ensures forall k :: 0 <= k < 7 ==> rows[k] == ButtonRow(theme, measure, k)
  {
    seq(7, k requires 0 <= k < 7 => ButtonRow(theme, measure, k))
  }

  /** Pieces drawn one after another. */
  function Concat(rows: seq<seq<Cmd>>): seq<Cmd> {
    if |rows| == 0 then [] else Concat(rows[..|rows| - 1]) + rows[|rows| - 1]
  }

  lemma {:induction false} ButtonRowsConcat(theme: Option<Theme.Palette>, measure: string -> Extent, n: nat)
    requires n <= 7
    ensures ButtonRows(theme, measure, n) == Concat(ButtonList(theme, measure)[..n])
  {
    if n > 0 {
      ButtonRowsConcat(theme, measure, n - 1);
      var rows := ButtonList(theme, measure);
      assert rows[..n][..n - 1] == rows[..n - 1];
    }
  }

  /** Pieces of two commands each lie side by side in pairs. */
  lemma {:induction false} ConcatPairs(rows: seq<seq<Cmd>>)
    requires forall k :: 0 <= k < |rows| ==> |rows[k]| == 2
    ensures |Concat(rows)| == 2 * |rows|
    ensures forall k :: 0 <= k < |rows| ==> Concat(rows)[2 * k..2 * k + 2] == rows[k]
  {
    if |rows| > 0 {
      var n := |rows|;
      ConcatPairs(rows[..n - 1]);
      var prev, row := Concat(rows[..n - 1]), rows[n - 1];
      assert |prev| == 2 * (n - 1);
      forall k | 0 <= k < n
        ensures (prev + row)[2 * k..2 * k + 2] == rows[k]
      {
        PairOfAppend(prev, row, k);
        if k < n - 1 {
          assert rows[..n - 1][k] == rows[k];
        }
      }
    }
  }

  /** No point lies in two of the seven buttons. */
  lemma ButtonsDisjoint(px: int, py: int)
    ensures forall i, j :: 0 <= i < j < 7 ==> !(ButtonBox(i).Covers(px, py) && ButtonBox(j).Covers(px, py))
  {
    forall i, j | 0 <= i < j < 7
      ensures !(ButtonBox(i).Covers(px, py) && ButtonBox(j).Covers(px, py))
    {
      Widgets.SeparatedBoxesAreDisjoint(ButtonBox(i), ButtonBox(j), px, py);
    }
  }

  /** Each status bar of the main interface is filled over a part of its
      240-wide track: 180, 120, 216 and 72. */
  lemma MainStatusBarFills()
    ensures FillWidth(240, 0.75) == 180 && FillWidth(240, 0.50) == 120
    ensures FillWidth(240, 0.90) == 216 && FillWidth(240, 0.30) == 72
  {
    assert 240.0 * 0.75 == 180.0;
    assert 240.0 * 0.90 == 216.0;
    assert 240.0 * 0.30 == 72.0;
  }

  /** The four status bars of the main interface: 240 by 20 tracks at
      x = width - 280, y = 100, 140, 180, 220, each followed by a fill of
      180, 120, 216 and 72 in accent, accent, accent and warning; track and
      fill both have radius 10. */
  lemma MainStatusBarsLayout(theme: Option<Theme.Palette>, width: int)
    ensures var x, track := width - 280, Paint("background", theme);
      StatusBarsCmds(theme, width) == [
        Fill(RoundRect(RoundedRectArcs(x, 100, 240, 20, 10)), track),
        Fill(RoundRect(RoundedRectArcs(x, 100, 180, 20, 10)), Paint("accent", theme)),
        Fill(RoundRect(RoundedRectArcs(x, 140, 240, 20, 10)), track),
        Fill(RoundRect(RoundedRectArcs(x, 140, 120, 20, 10)), Paint("accent", theme)),
        Fill(RoundRect(RoundedRectArcs(x, 180, 240, 20, 10)), track),
        Fill(RoundRect(RoundedRectArcs(x, 180, 216, 20, 10)), Paint("accent", theme)),
        Fill(RoundRect(RoundedRectArcs(x, 220, 240, 20, 10)), track),
        Fill(RoundRect(RoundedRectArcs(x, 220, 72, 20, 10)), Paint("warning", theme))]
  {
    MainStatusBarFills();
    assert CNum.CDiv(20, 2) == 10;
  }

  /** The main interface draws 30 pieces: 3 bands, 3 panels, 7 buttons of
      two pieces each, 2 titles and 4 status bars of two pieces each. */
  lemma MainInterfaceCount(theme: Option<Theme.Palette>, width: int, height: int, measure: string -> Extent)
    ensures |MainInterfaceCmds(theme, width, height, measure)| == 30
    ensures MainInterfaceCmds(theme, width, height, measure)[..3] == BandCmds(theme, width, height)
  {
    var bands, panels, titles := BandCmds(theme, width, height), PanelsCmds(theme, width, height), TitleCmds(theme, width);
    var buttons, bars := ButtonsCmds(theme, measure), StatusBarsCmds(theme, width);
    ButtonsLayout(theme, measure, 7);
    StatusBarsCount(theme, width);
    assert |bands| == 3 && |panels| == 3 && |buttons| == 14 && |titles| == 2 && |bars| == 8;
    PrefixOfAppend(bands + panels + buttons + titles, bars, 3);
    PrefixOfAppend(bands + panels + buttons, titles, 3);
    PrefixOfAppend(bands + panels, buttons, 3);
    PrefixOfAppend(bands, panels, 3);
  }

  lemma PrefixOfAppend(a: seq<Cmd>, b: seq<Cmd>, k: nat)
    requires k <= |a|
    ensures (a + b)[..k] == a[..k]
  {
  }

  /** Each of the four status bars has a track and a fill. */
  lemma StatusBarsCount(theme: Option<Theme.Palette>, width: int)
    ensures |StatusBarsCmds(theme, width)| == 8
  {
    MainStatusBarFills();
  }

  // ----- the cairo context -----

  lemma Assoc(a: seq<Cmd>, b: seq<Cmd>, c: seq<Cmd>)
    ensures (a + b) + c == a + (b + c)
  {
  }

  /** The cairo context, as the log of what it has painted. */
  class Canvas {
    var log: seq<Cmd>

    constructor ()
      ensures log == []
    {
      log := [];
    }

    /** `lcars_draw_panel`. */
    method DrawPanel(x: int, y: int, width: int, height: int, theme: Theme.ThemeData?, key: string)
      modifies this
      ensures theme == null || unchanged(theme)
      ensures log == old(log) + PanelCmds(Theme.Snapshot(theme), x, y, width, height, key)
    {
      var paint := Paint(key, Theme.Snapshot(theme));
      log := log + [Fill(RoundRect(RoundedRectArcs(x, y, width, height, 10)), paint)];
    }

    /** `lcars_draw_button`; `layout` is the size Pango reports for the label. */
    method DrawButton(x: int, y: int, width: int, height: int, radius: int, theme: Theme.ThemeData?,
                      key: string, caption: string, layout: Extent)
      modifies this
      ensures theme == null || unchanged(theme)
      ensures log == old(log) + ButtonCmds(Theme.Snapshot(theme), x, y, width, height, radius, key, caption, layout)
    {
      var palette := Theme.Snapshot(theme);
      log := log + [Fill(RoundRect(RoundedRectArcs(x, y, width, height, radius)), Paint(key, palette))];
      var textWidth := CNum.CDiv(layout.width, PangoScale);
      var textHeight := CNum.CDiv(layout.height, PangoScale);
      var origin := Point(x + CNum.CDiv(width - textWidth, 2), y + CNum.CDiv(height - textHeight, 2));
      assert origin == LabelOrigin(x, y, width, height, layout);
      log := log + [ShowText(origin, ButtonFont, caption, Paint("text", palette))];
    }

    /** `lcars_draw_text`. */
    method DrawText(x: int, y: int, theme: Theme.ThemeData?, key: string, text: string, size: int)
      modifies this
      ensures theme == null || unchanged(theme)
      ensures log == old(log) + TextCmds(Theme.Snapshot(theme), x, y, key, text, size)
    {
      var font := "LCARS " + CNum.IntString(size);
      log := log + [ShowText(Point(x, y), font, text, Paint(key, Theme.Snapshot(theme)))];
    }

    /** `lcars_draw_status_bar`. */
    method DrawStatusBar(x: int, y: int, width: int, height: int, value: real, theme: Theme.ThemeData?, key: string)
      modifies this
      ensures theme == null || unchanged(theme)
      ensures log == old(log) + StatusBarCmds(Theme.Snapshot(theme), x, y, width, height, value, key)
    {
      var palette := Theme.Snapshot(theme);
      var radius := CNum.CDiv(height, 2);
      log := log + [Fill(RoundRect(RoundedRectArcs(x, y, width, height, radius)), Paint("background", palette))];
      var valueWidth := CNum.Trunc(width as real * value);
      if valueWidth > 0 {
        log := log + [Fill(RoundRect(RoundedRectArcs(x, y, valueWidth, height, radius)), Paint(key, palette))];
      }
    }

    /** `lcars_draw_main_interface`; `measure` gives the size Pango reports
        for each button label. */
    method DrawMainInterface(width: int, height: int, theme: Theme.ThemeData?, measure: string -> Extent)
      modifies this
      ensures theme == null || unchanged(theme)
      ensures log == old(log) + MainInterfaceCmds(Theme.Snapshot(theme), width, height, measure)
    {
      ghost var palette := Theme.Snapshot(theme);
      DrawBands(width, height, theme);
      ghost var done := BandCmds(palette, width, height);
      // The secondary source set here is replaced inside every routine
      // below before anything is filled, so it paints nothing.
      DrawPanels(width, height, theme);
      Assoc(old(log), done, PanelsCmds(palette, width, height));
      done := done + PanelsCmds(palette, width, height);
      DrawButtons(theme, measure);
      Assoc(old(log), done, ButtonsCmds(palette, measure));
      done := done + ButtonsCmds(palette, measure);
      DrawText(20, 40, theme, "text", "STARFLEET OS", 18);
      DrawText(width - 200, 40, theme, "text", "LCARS INTERFACE", 16);
      Assoc(old(log) + done, TextCmds(palette, 20, 40, "text", "STARFLEET OS", 18),
        TextCmds(palette, width - 200, 40, "text", "LCARS INTERFACE", 16));
      Assoc(old(log), done, TitleCmds(palette, width));
      done := done + TitleCmds(palette, width);
      DrawStatusBars(width, theme);
      Assoc(old(log), done, StatusBarsCmds(palette, width));
    }

    /** The three structural bands, in primary. */
    method DrawBands(width: int, height: int, theme: Theme.ThemeData?)
      modifies this
      ensures theme == null || unchanged(theme)
      ensures log == old(log) + BandCmds(Theme.Snapshot(theme), width, height)
    {
      var primary := Paint("primary", Theme.Snapshot(theme));
      log := log + [Fill(Rect(Widgets.Box(0, 0, width, 60)), primary)];
      log := log + [Fill(Rect(Widgets.Box(0, 60, 200, height - 60)), primary)];
      log := log + [Fill(Rect(Widgets.Box(200, height - 60, width - 200, 60)), primary)];
    }

    /** The three panels. */
    method DrawPanels(width: int, height: int, theme: Theme.ThemeData?)
      modifies this
      ensures theme == null || unchanged(theme)
      ensures log == old(log) + PanelsCmds(Theme.Snapshot(theme), width, height)
    {
      ghost var palette := Theme.Snapshot(theme);
      DrawPanel(width - 300, 80, 280, 200, theme, "secondary");
      ghost var p1 := PanelCmds(palette, width - 300, 80, 280, 200, "secondary");
      DrawPanel(220, 80, width - 540, height - 200, theme, "accent");
      ghost var p2 := PanelCmds(palette, 220, 80, width - 540, height - 200, "accent");
      Assoc(old(log), p1, p2);
      DrawPanel(220, height - 100, 300, 40, theme, "secondary");
      ghost var p3 := PanelCmds(palette, 220, height - 100, 300, 40, "secondary");
      Assoc(old(log), p1 + p2, p3);
    }

    /** The seven buttons, top to bottom. */
    method DrawButtons(theme: Theme.ThemeData?, measure: string -> Extent)
      modifies this
      ensures theme == null || unchanged(theme)
      ensures log == old(log) + ButtonsCmds(Theme.Snapshot(theme), measure)
    {
      ghost var palette := Theme.Snapshot(theme);
      DrawButton(20, 80, 160, 40, 10, theme, "accent", "LCARS MAIN", measure("LCARS MAIN"));
      assert log == old(log) + ButtonRows(palette, measure, 1);
      DrawButton(20, 140, 160, 40, 10, theme, "accent", "SYSTEMS", measure("SYSTEMS"));
      Assoc(old(log), ButtonRows(palette, measure, 1), ButtonRow(palette, measure, 1));
      DrawButton(20, 200, 160, 40, 10, theme, "accent", "SENSORS", measure("SENSORS"));
      Assoc(old(log), ButtonRows(palette, measure, 2), ButtonRow(palette, measure, 2));
      DrawButton(20, 260, 160, 40, 10, theme, "accent", "TACTICAL", measure("TACTICAL"));
      Assoc(old(log), ButtonRows(palette, measure, 3), ButtonRow(palette, measure, 3));
      DrawButton(20, 320, 160, 40, 10, theme, "accent", "OPERATIONS", measure("OPERATIONS"));
      Assoc(old(log), ButtonRows(palette, measure, 4), ButtonRow(palette, measure, 4));
      DrawButton(20, 380, 160, 40, 10, theme, "warning", "SECURITY", measure("SECURITY"));
      Assoc(old(log), ButtonRows(palette, measure, 5), ButtonRow(palette, measure, 5));
      DrawButton(20, 440, 160, 40, 10, theme, "danger", "RED ALERT", measure("RED ALERT"));
      Assoc(old(log), ButtonRows(palette, measure, 6), ButtonRow(palette, measure, 6));
    }

    /** The four status bars. */
    method DrawStatusBars(width: int, theme: Theme.ThemeData?)
      modifies this
      ensures theme == null || unchanged(theme)
      ensures log == old(log) + StatusBarsCmds(Theme.Snapshot(theme), width)
    {
      ghost var palette := Theme.Snapshot(theme);
      DrawStatusBar(width - 280, 100, 240, 20, 0.75, theme, "accent");
      ghost var b := StatusBarCmds(palette, width - 280, 100, 240, 20, 0.75, "accent");
      DrawStatusBar(width - 280, 140, 240, 20, 0.50, theme, "accent");
      ghost var piece := StatusBarCmds(palette, width - 280, 140, 240, 20, 0.50, "accent");
      Assoc(old(log), b, piece);
      b := b + piece;
      DrawStatusBar(width - 280, 180, 240, 20, 0.90, theme, "accent");
      piece := StatusBarCmds(palette, width - 280, 180, 240, 20, 0.90, "accent");
      Assoc(old(log), b, piece);
      b := b + piece;
      DrawStatusBar(width - 280, 220, 240, 20, 0.30, theme, "warning");
      piece := StatusBarCmds(palette, width - 280, 220, 240, 20, 0.30, "warning");
      Assoc(old(log), b, piece);
    }
  }
}
