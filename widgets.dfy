/** The LCARS widget records (pkgs/lcars-desktop/src/widgets.c and
    widgets.h): buttons with a hit test and a callback slot, panels, text
    widgets and status bars. A record that `malloc` would return is a
    `class` whose fields the operations update in place; a null record is a
    null reference. */
module Widgets {
  import opened Wrappers

  /** A code the program stores where C keeps a function pointer or a
      `void *`; what it points to lies outside this model. */
  type Handle = nat

  /** An axis-aligned region with integer corners, as the widgets store it. */
  datatype Box = Box(x: int, y: int, width: int, height: int) {
    /** The half-open region `[x, x + width) x [y, y + height)`. */
    predicate Covers(px: int, py: int) {
      x <= px < x + width && y <= py < y + height
    }
  }

  /** Two boxes that one of them ends before the other begins, along either
      axis, share no point. */
  lemma SeparatedBoxesAreDisjoint(a: Box, b: Box, px: int, py: int)
    requires a.x + a.width <= b.x || b.x + b.width <= a.x ||
             a.y + a.height <= b.y || b.y + b.height <= a.y
    ensures !(a.Covers(px, py) && b.Covers(px, py))
  {
  }

  /** The button states of `lcars_button_t.state`. */
  const StateNormal := 0
  const StateHover := 1
  const StatePressed := 2

  /** What `lcars_button_click` does: call `callback` with `data`. */
  datatype Invocation = Invocation(callback: Handle, data: Option<Handle>)

  /** `lcars_button_t`. */
  class Button {
    var x: int
    var y: int
    var width: int
    var height: int
    var radius: int
    var caption: string
    var colorKey: string
    var state: int
    var callback: Option<Handle>
    var userData: Option<Handle>

    /** The region the button reacts to. */
    function Bounds(): Box
      reads this
    {
      Box(x, y, width, height)
    }

    /** `lcars_button_create`: copies the geometry, label (`caption`) and colour key;
        the button starts normal, with no callback and no user data. */
    constructor (x: int, y: int, width: int, height: int, radius: int, caption: string, colorKey: string)
      ensures Bounds() == Box(x, y, width, height) && this.radius == radius
      ensures this.caption == caption && this.colorKey == colorKey
      ensures state == StateNormal && callback.None? && userData.None?
    {
      this.x, this.y, this.width, this.height := x, y, width, height;
      this.radius := radius;
      this.caption, this.colorKey := caption, colorKey;
      state := StateNormal;
      callback, userData := None, None;
    }
  }

  /** `lcars_button_contains`: 1 for a point of the half-open region of a
      non-null button, 0 for every other point and for a null button. */
  function Contains(button: Button?, x: int, y: int): (r: int)
    reads button
    ensures r == 0 || r == 1
    ensures r == 1 <==> button != null && button.Bounds().Covers(x, y)
  {
    if button == null then 0
    else if x >= button.x && x < button.x + button.width &&
            y >= button.y && y < button.y + button.height then 1
    else 0
  }

  /** A button without width or height contains no point. */
  lemma EmptyButtonContainsNothing(button: Button, x: int, y: int)
    requires button.width <= 0 || button.height <= 0
    ensures Contains(button, x, y) == 0
  {
  }

  /** `lcars_button_set_callback`: on a non-null button both the callback
      and the user data are replaced (either may be null); nothing else of
      the button changes, and a null button is ignored. */
  method SetCallback(button: Button?, callback: Option<Handle>, userData: Option<Handle>)
    modifies button
    ensures button != null ==> button.callback == callback && button.userData == userData
    ensures button != null ==>
      button.Bounds() == old(button.Bounds()) && button.radius == old(button.radius) &&
      button.caption == old(button.caption) && button.colorKey == old(button.colorKey) &&
      button.state == old(button.state)
  {
    if button != null {
      button.callback := callback;
      button.userData := userData;
    }
  }

  /** `lcars_button_click`: the call it makes, if any. The callback is
      invoked once, with the user data, exactly when the button is non-null
      and has a callback; the button itself is not changed. */
  method Click(button: Button?) returns (call: Option<Invocation>)
    ensures call.Some? <==> button != null && button.callback.Some?
    ensures call.Some? ==> call.value.callback == button.callback.value && call.value.data == button.userData
  {
    if button != null && button.callback.Some? {
      call := Some(Invocation(button.callback.value, button.userData));
    } else {
      call := None;
    }
  }

  /** The panel styles documented for `lcars_panel_create`. */
  datatype PanelStyle = Rectangular | Rounded | Elbow

  function StyleCode(style: PanelStyle): int {
    match style
    case Rectangular => 0
    case Rounded => 1
    case Elbow => 2
  }

  /** The documented style a stored code stands for, if any. */
  function StyleOfCode(code: int): (style: Option<PanelStyle>)
    ensures style.Some? ==> StyleCode(style.value) == code
    ensures style.None? ==> code < 0 || code > 2
  {
    if code == 0 then Some(Rectangular)
    else if code == 1 then Some(Rounded)
    else if code == 2 then Some(Elbow)
    else None
  }

  /** Every documented style survives being stored as its code. */
  lemma StyleCodeRoundTrip(style: PanelStyle)
    ensures StyleOfCode(StyleCode(style)) == Some(style)
  {
  }

  /** The text alignments documented for `lcars_text_create`. */
  datatype Alignment = Left | Center | Right

  function AlignmentCode(alignment: Alignment): int {
    match alignment
    case Left => 0
    case Center => 1
    case Right => 2
  }

  /** The documented alignment a stored code stands for, if any. */
  function AlignmentOfCode(code: int): (alignment: Option<Alignment>)
    ensures alignment.Some? ==> AlignmentCode(alignment.value) == code
    ensures alignment.None? ==> code < 0 || code > 2
  {
    if code == 0 then Some(Left)
    else if code == 1 then Some(Center)
    else if code == 2 then Some(Right)
    else None
  }

  /** Every documented alignment survives being stored as its code. */
  lemma AlignmentCodeRoundTrip(alignment: Alignment)
    ensures AlignmentOfCode(AlignmentCode(alignment)) == Some(alignment)
  {
  }

  /** `lcars_panel_t`. The style is stored as given, documented or not. */
  class Panel {
    var x: int
    var y: int
    var width: int
    var height: int
    var colorKey: string
    var style: int

    /** `lcars_panel_create`. */
    constructor (x: int, y: int, width: int, height: int, colorKey: string, style: int)
      ensures this.x == x && this.y == y && this.width == width && this.height == height
      ensures this.colorKey == colorKey && this.style == style
    {
      this.x, this.y, this.width, this.height := x, y, width, height;
      this.colorKey, this.style := colorKey, style;
    }
  }

  /** `lcars_text_t`. The alignment is stored as given. */
  class TextWidget {
    var x: int
    var y: int
    var text: string
    var size: int
    var colorKey: string
    var alignment: int

    /** `lcars_text_create`. */
    constructor (x: int, y: int, text: string, size: int, colorKey: string, alignment: int)
      ensures this.x == x && this.y == y && this.text == text && this.size == size
      ensures this.colorKey == colorKey && this.alignment == alignment
    {
      this.x, this.y, this.text, this.size := x, y, text, size;
      this.colorKey, this.alignment := colorKey, alignment;
    }
  }

  predicate InUnit(v: real) {
    0.0 <= v <= 1.0
  }

  /** The value `lcars_status_bar_set_value` stores: below 0 becomes 0,
      above 1 becomes 1, and a value in range is kept. */
  function Clamp01(value: real): (v: real)
    ensures InUnit(v)
    ensures InUnit(value) ==> v == value
  {
    if value < 0.0 then 0.0 else if value > 1.0 then 1.0 else value
  }

  /** The clamped value is the point of [0, 1] nearest to the given one. */
  lemma ClampIsNearest(value: real, other: real)
    requires InUnit(other)
    ensures var d, e := Clamp01(value) - value, other - value;
      (if d < 0.0 then -d else d) <= (if e < 0.0 then -e else e)
  {
  }

  /** Clamping twice is clamping once. */
  lemma ClampIdempotent(value: real)
    ensures Clamp01(Clamp01(value)) == Clamp01(value)
  {
  }

  /** Clamping never reverses the order of two values. */
  lemma ClampMonotone(a: real, b: real)
    requires a <= b
    ensures Clamp01(a) <= Clamp01(b)
  {
  }

  /** `lcars_status_bar_t`; the C `float` value is a real here. */
  class StatusBar {
    var x: int
    var y: int
    var width: int
    var height: int
    var value: real
    var colorKey: string
    var caption: Option<string>

    /** `lcars_status_bar_create`: the value is stored as given, without
        clamping; the label (`caption`) is absent when none is given. */
    constructor (x: int, y: int, width: int, height: int, value: real, colorKey: string, caption: Option<string>)
      ensures this.x == x && this.y == y && this.width == width && this.height == height
      ensures this.value == value && this.colorKey == colorKey && this.caption == caption
    {
      this.x, this.y, this.width, this.height := x, y, width, height;
      this.value, this.colorKey, this.caption := value, colorKey, caption;
    }
  }

  /** `lcars_status_bar_set_value`: a non-null bar holds the clamped value
      afterwards, so its value is in [0, 1] whatever it held before; no
      other field changes, and a null bar is ignored. */
  method SetValue(bar: StatusBar?, value: real)
    modifies bar
    ensures bar != null ==> bar.value == Clamp01(value) && InUnit(bar.value)
    ensures bar != null ==>
      bar.x == old(bar.x) && bar.y == old(bar.y) && bar.width == old(bar.width) &&
      bar.height == old(bar.height) && bar.colorKey == old(bar.colorKey) && bar.caption == old(bar.caption)
  {
    if bar != null {
      bar.value := if value < 0.0 then 0.0 else (if value > 1.0 then 1.0 else value);
    }
  }
}
