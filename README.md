# Starfleet OS core logic, modelled in Dafny

This project models the deterministic logic of three parts of the Starfleet OS repository and proves properties of it.

- **LCARS desktop shell** (`pkgs/lcars-desktop/src`):
  - the theme resolver: mode to seven-slot palette, slot lookup by key, `sscanf("%x")` hex decoding, the channel getters, and switching mode in place;
  - resolution parsing with `strtol`, and the table of supported display modes;
  - the widget records: buttons with their hit test and callback slot, panels, text widgets, status bars with clamping;
  - the drawing routines, with the cairo context modelled as a log of filled shapes and text;
  - the command-line scan at the start of `main`.
- **Fleet health dashboard client** (`pkgs/fleet-health-monitor/public/js/dashboard.js`):
  - the node and alert lists that the socket handlers update;
  - the 60-sample metric window;
  - the summary, the node and alert filters, the chart slice, and the threshold classifiers.
- **Hardware scanner** (`pkgs/assimilation-tools/scripts/hardware_scan.py`):
  - the `ip addr` parser and the lsusb/lspci line filters;
  - the `/proc/meminfo` token pick;
  - the scan-type section selection and the text report.

Each source file is one module:

| module | file |
|---|---|
| `Theme` | `theme.dfy` |
| `Display` | `display.dfy` |
| `Widgets` | `widgets.dfy` |
| `Lcars` | `lcars.dfy` |
| `Cli` | `cli.dfy` |
| `Dashboard` | `dashboard.dfy` |
| `Hardware` | `hardware.dfy` |

Supporting modules:

- `CNum` (`cnum.dfy`) models the C library conversions the shell uses: `isspace`, `strtol`, `atoi`, truncating `/`, and float-to-int truncation.
- `Seqs` (`seqs.dfy`) defines "is a subsequence of", which the filter properties use.
- `Wrappers` (`wrappers.dfy`) defines `Option`.

**Records the C code updates in place are classes.** These are `Theme.ThemeData`, `Display.DisplayConfig`, the widget records, `Lcars.Canvas` and `Dashboard.DashboardState`. A null pointer is a null reference, or `None` where the value is a string.

**Loops in the source are methods with loop invariants.** Each method is proved equal to a recursive specification function. The properties are then proved about that function.

**Outside input is a parameter.**
- Pango's text size and the random metric draws are parameters.
- A command's output is its list of lines, `None` when the command exits with a non-zero status (a `SubprocessError`). A command that is not installed is not modelled; see "## Left out".
- A missing file is `None`.

## Model

| member | source | states |
|---|---|---|
| `CNum.DecimalValue` | pkgs/lcars-desktop/src/display.c:38 | The number written by n decimal digits is below 10^n. |
| `CNum.Strtol` | pkgs/lcars-desktop/src/display.c:37-43 | `strtol` stops within the string. When it read nothing, the value is 0 and `end` is the start. Otherwise `end` is just past a maximal run of digits. |
| `CNum.DecimalString` | pkgs/lcars-desktop/src/display.c:54-63 | A number written in decimal is a non-empty run of digits. |
| `CNum.DecimalRoundTrip` | pkgs/lcars-desktop/src/display.c:38 | Reading back a decimal numeral gives the number. |
| `CNum.LeadingNonZeroIsPositive` | pkgs/lcars-desktop/src/display.c:44 | Digits that do not start with 0 denote a positive number. |
| `CNum.StrtolOfDigits` | pkgs/lcars-desktop/src/display.c:38-43 | A string that starts with digits converts to exactly those digits, and `end` is just past them. |
| `CNum.IntStringRoundTrip` | pkgs/lcars-desktop/src/lcars.c:148 | `strtol` reads back every integer that `%d` writes, and consumes all of it. |
| `CNum.AtoiNonNumeric` | pkgs/lcars-desktop/src/main.c:212 | `atoi` of text that starts with no space, sign or digit is 0. |
| `CNum.CDiv` | pkgs/lcars-desktop/src/lcars.c:127 | C's `/` truncates toward zero: the quotient times the divisor is within one divisor of the dividend, on the side of zero. |
| `CNum.Trunc` | pkgs/lcars-desktop/src/lcars.c:183 | The float-to-int conversion truncates toward zero. |
| `Theme.SlotOfKey` | pkgs/lcars-desktop/src/theme.c:150-166 | Exactly the seven slot names are keys, and each names its own slot (both directions). |
| `Theme.UnknownModeIsStarfleet` | pkgs/lcars-desktop/src/theme.c:41-90 | Any mode other than the five known names yields the starfleet slots. |
| `Theme.FixedPalettes` | pkgs/lcars-desktop/src/theme.c:49-80 | section31, borg, terran and holodeck each yield their seven hex literals. |
| `Theme.ColorOf` | pkgs/lcars-desktop/src/theme.c:145-167 | `theme_get_color` gives the slot a key names. It gives "#000000" for a null theme, a null key or any other key. |
| `Theme.HexToRgb` | pkgs/lcars-desktop/src/theme.c:9-29 | `hex_to_rgb` fails exactly when no hex digit follows the optional single '#'. On success r, g and b lie in [0, 1] and a is 1. |
| `Theme.HexColorDecodes` | pkgs/lcars-desktop/src/theme.c:20-27 | A six-digit colour decodes to its three digit pairs over 255, with alpha 1. |
| `Theme.HexToRgbExamples` | pkgs/lcars-desktop/src/theme.c:19-21 | The length is not checked: "#FF" is pure blue. "#GG" and "##FF" fail, since only one '#' is skipped. |
| `Theme.Red` | pkgs/lcars-desktop/src/theme.c:109-116 | The red getter lies in [0, 1]. |
| `Theme.Green` | pkgs/lcars-desktop/src/theme.c:118-125 | The green getter lies in [0, 1]. |
| `Theme.Blue` | pkgs/lcars-desktop/src/theme.c:127-134 | The blue getter lies in [0, 1]. |
| `Theme.Alpha` | pkgs/lcars-desktop/src/theme.c:136-143 | The alpha getter is 1.0 whether decoding succeeds or fails. |
| `Theme.GettersDecodeSlot` | pkgs/lcars-desktop/src/theme.c:109-143 | The four getters on a slot's key give that slot's colour channels and full alpha. |
| `Theme.FallbackIsOpaqueBlack` | pkgs/lcars-desktop/src/theme.c:145-148 | A null theme, a null key or an unknown key reads as opaque black (0, 0, 0, 1). |
| `Theme.ThemeData.constructor` | pkgs/lcars-desktop/src/theme.c:32-92 | `theme_create` stores the mode verbatim, recognised or not, and the slots of its palette. |
| `Theme.ThemeData.CopyFrom` | pkgs/lcars-desktop/src/theme.c:190-198 | The mode and all seven slot strings of the temporary theme move into the target record. |
| `Theme.Snapshot` | pkgs/lcars-desktop/src/theme.h:7-16 | The slots the getters read are absent exactly for a null theme. |
| `Theme.SetMode` | pkgs/lcars-desktop/src/theme.c:169-204 | `theme_set_mode` returns -1 exactly for a null theme or mode, and then changes nothing. Otherwise it returns 0, and the mode and all seven slots equal those of `theme_create(mode)`. |
| `Display.ParseResolution` | pkgs/lcars-desktop/src/display.c:32-49 | A successful parse gives a positive width and height. |
| `Display.ParseDigits` | pkgs/lcars-desktop/src/display.c:37-48 | Digits, 'x' or 'X', digits, then any trailing text that does not start with a digit give the two digit values. They succeed exactly when both are positive. |
| `Display.ParseFormatRoundTrip` | pkgs/lcars-desktop/src/display.c:32-49 | Writing a positive size as "WxH" and parsing it back gives the size, whatever non-digit text follows. |
| `Display.ParseFullHd` | pkgs/lcars-desktop/src/display.c:32-48 | "1920x1080" is 1920 by 1080. |
| `Display.WrongSeparator` | pkgs/lcars-desktop/src/display.c:38-41 | For any non-empty run of width digits followed by a character that is neither a digit, 'x' nor 'X', and anything after it, parsing fails. |
| `Display.ParseRejectsSeparator` | pkgs/lcars-desktop/src/display.c:38-41 | "1920y1080" fails: the separator must follow the width digits. |
| `Display.ParseRejectsZeroWidth` | pkgs/lcars-desktop/src/display.c:33-46 | "0x600", "x600" and a null string fail. |
| `Display.ParseRejectsLetters` | pkgs/lcars-desktop/src/display.c:38-41 | "abcx600" fails. |
| `Display.ModesParse` | pkgs/lcars-desktop/src/display.c:51-63 | Every mode in the table parses. |
| `Display.SetMode` | pkgs/lcars-desktop/src/display.c:69-80 | `display_set_mode` returns 0 exactly when the string is one of the ten modes, and -1 otherwise. |
| `Display.DisplayConfig.constructor` | pkgs/lcars-desktop/src/display.h:7-12 | The record holds the resolution string, the width, the height and the refresh rate. |
| `Display.CreateConfig` | pkgs/lcars-desktop/src/display.c:7-23 | `display_config_create` gives null exactly when parsing fails. Otherwise the new record holds the string, the parsed size and the refresh rate unchanged. |
| `Widgets.SeparatedBoxesAreDisjoint` | pkgs/lcars-desktop/src/widgets.c:101-102 | Half-open boxes separated along one axis share no point. |
| `Widgets.Button.constructor` | pkgs/lcars-desktop/src/widgets.c:57-76 | A new button copies its geometry, label and colour key. It starts in state 0, with no callback and no user data. |
| `Widgets.Contains` | pkgs/lcars-desktop/src/widgets.c:96-103 | The hit test is 0 or 1. It is 1 exactly for a non-null button and a point with x ≤ px < x+w and y ≤ py < y+h. |
| `Widgets.EmptyButtonContainsNothing` | pkgs/lcars-desktop/src/widgets.c:101-102 | A button with no width or no height contains no point. |
| `Widgets.SetCallback` | pkgs/lcars-desktop/src/widgets.c:88-93 | On a non-null button, the callback and the user data are both replaced and nothing else changes. A null button is ignored. |
| `Widgets.Click` | pkgs/lcars-desktop/src/widgets.c:106-110 | A click invokes the callback once, with the user data, exactly when the button and its callback are non-null. |
| `Widgets.StyleOfCode` | pkgs/lcars-desktop/src/widgets.h:69 | A code names a style exactly when it is 0, 1 or 2, and the style maps back to the code. |
| `Widgets.StyleCodeRoundTrip` | pkgs/lcars-desktop/src/widgets.h:69 | Each documented panel style survives being stored as its code. |
| `Widgets.AlignmentOfCode` | pkgs/lcars-desktop/src/widgets.h:90 | A code names an alignment exactly when it is 0, 1 or 2, and the alignment maps back to the code. |
| `Widgets.AlignmentCodeRoundTrip` | pkgs/lcars-desktop/src/widgets.h:90 | Each documented text alignment survives being stored as its code. |
| `Widgets.Panel.constructor` | pkgs/lcars-desktop/src/widgets.c:113-128 | `lcars_panel_create` stores every argument, the style unchecked. |
| `Widgets.TextWidget.constructor` | pkgs/lcars-desktop/src/widgets.c:139-154 | `lcars_text_create` stores every argument, the alignment unchecked. |
| `Widgets.Clamp01` | pkgs/lcars-desktop/src/widgets.c:197-201 | The stored value lies in [0, 1], and a value already in range is kept. |
| `Widgets.ClampIsNearest` | pkgs/lcars-desktop/src/widgets.c:197-201 | The clamped value is the point of [0, 1] nearest the given one. |
| `Widgets.ClampIdempotent` | pkgs/lcars-desktop/src/widgets.c:197-201 | Clamping twice is clamping once. |
| `Widgets.ClampMonotone` | pkgs/lcars-desktop/src/widgets.c:197-201 | Clamping keeps the order of two values. |
| `Widgets.StatusBar.constructor` | pkgs/lcars-desktop/src/widgets.c:166-183 | `lcars_status_bar_create` stores the value unclamped. The label is absent when none is given. |
| `Widgets.SetValue` | pkgs/lcars-desktop/src/widgets.c:197-201 | A non-null bar then holds the clamped value, which is in [0, 1], and no other field changes. A null bar is ignored. |
| `Lcars.RoundedRectOutline` | pkgs/lcars-desktop/src/lcars.c:13-22 | The four quarter arcs sit at (x+w-r, y+r), (x+w-r, y+h-r), (x+r, y+h-r), (x+r, y+r). Each turns 90 degrees, the straight pieces between them run along the four sides, and the path closes. When 2r fits, every arc lies inside the rectangle. |
| `Lcars.Paint.Color` | pkgs/lcars-desktop/src/lcars.c:84-89 | The source colour set from the theme getters has channels in [0, 1] and alpha 1. |
| `Lcars.SlotPaintColor` | pkgs/lcars-desktop/src/lcars.c:84-89 | Painting with a slot's key uses that slot's decoded colour. |
| `Lcars.LabelCentred` | pkgs/lcars-desktop/src/lcars.c:122-127 | With C's truncating `/`, the label origin leaves margins that differ by at most one on each axis. |
| `Lcars.FillWithinTrack` | pkgs/lcars-desktop/src/lcars.c:183-187 | For a value in [0, 1] the fill width lies between 0 and the track width. It is the whole track at 1 and empty at 0. |
| `Lcars.FillMonotone` | pkgs/lcars-desktop/src/lcars.c:183 | A larger value never fills less. |
| `Lcars.StatusBarNotClamped` | pkgs/lcars-desktop/src/lcars.c:183-187 | The drawing routine does not clamp: at 1.5, a 100-wide track gets a 150-wide fill. |
| `Lcars.BandsDisjoint` | pkgs/lcars-desktop/src/lcars.c:33-41 | The three bands are filled in primary, and for height ≥ 120 no point lies in two of them. |
| `Lcars.ButtonsLayout` | pkgs/lcars-desktop/src/lcars.c:61-67 | The buttons come as pairs of commands. The k-th pair is a radius-10 background at (20, 80+60k, 160, 40) in the k-th key, then the k-th label in the text colour. |
| `Lcars.ButtonsDisjoint` | pkgs/lcars-desktop/src/lcars.c:61-67 | No point lies in two of the seven buttons. |
| `Lcars.MainStatusBarFills` | pkgs/lcars-desktop/src/lcars.c:74-77 | The four main-interface bars fill 180, 120, 216 and 72 of their 240-wide tracks. |
| `Lcars.MainStatusBarsLayout` | pkgs/lcars-desktop/src/lcars.c:74-77 | The status bars are exactly four tracks at (width-280, 100/140/180/220, 240, 20), each with its fill, in accent, accent, accent, warning, radius 10. |
| `Lcars.MainInterfaceCount` | pkgs/lcars-desktop/src/lcars.c:24-78 | The main interface paints 30 pieces, the three bands first. |
| `Lcars.StatusBarsCount` | pkgs/lcars-desktop/src/lcars.c:74-77 | Each of the four status bars paints a track and a non-empty fill. |
| `Lcars.Canvas.DrawPanel` | pkgs/lcars-desktop/src/lcars.c:80-94 | The panel call appends one radius-10 rounded fill in the key's colour, and leaves the theme unchanged. |
| `Lcars.Canvas.DrawButton` | pkgs/lcars-desktop/src/lcars.c:96-134 | The button call appends the rounded background, then the label at `LabelOrigin` in the text colour. |
| `Lcars.Canvas.DrawText` | pkgs/lcars-desktop/src/lcars.c:136-160 | The text call appends the text at (x, y) in the font "LCARS <size>". |
| `Lcars.Canvas.DrawStatusBar` | pkgs/lcars-desktop/src/lcars.c:162-190 | The status-bar call appends the track in background. It adds the fill only when `trunc(width*value) > 0`, both with radius height/2. |
| `Lcars.Canvas.DrawMainInterface` | pkgs/lcars-desktop/src/lcars.c:24-78 | The main interface appends bands, panels, buttons, titles and status bars, in that order. |
| `Lcars.Canvas.DrawBands` | pkgs/lcars-desktop/src/lcars.c:33-41 | The bands call appends the top bar (0, 0, width, 60), the sidebar (0, 60, 200, height-60) and the bottom bar (200, height-60, width-200, 60), all in primary. |
| `Lcars.Canvas.DrawPanels` | pkgs/lcars-desktop/src/lcars.c:52-58 | The panels call appends the three panels in secondary, accent and secondary, at their fixed places. |
| `Lcars.Canvas.DrawButtons` | pkgs/lcars-desktop/src/lcars.c:61-67 | The buttons call appends the seven buttons, top to bottom, as `Lcars.ButtonsLayout` lays them out. |
| `Lcars.Canvas.DrawStatusBars` | pkgs/lcars-desktop/src/lcars.c:74-77 | The status-bars call appends the four bars that `Lcars.MainStatusBarsLayout` lists. |
| `Cli.ParseArguments` | pkgs/lcars-desktop/src/main.c:202-214 | The argv loop ends with exactly the settings of the recursive scan `Cli.Scan`. |
| `Cli.NoFlagsGiveDefaults` | pkgs/lcars-desktop/src/main.c:202-204 | Without flags, the settings are starfleet, 1920x1080 and 60. |
| `Cli.NoFlagsKeepCurrent` | pkgs/lcars-desktop/src/main.c:206-214 | Arguments that are not flags change nothing. |
| `Cli.TrailingArgumentIgnored` | pkgs/lcars-desktop/src/main.c:207-211 | A flag in the last position has no value and changes nothing. |
| `Cli.ValuesComeFromArguments` | pkgs/lcars-desktop/src/main.c:206-214 | Every final value is the default or the argument right after a matching flag. |
| `Cli.ScanAppend` | pkgs/lcars-desktop/src/main.c:206-214 | After an aligned prefix, the rest is scanned with the settings the prefix left. |
| `Cli.ConsumedValueSkipped` | pkgs/lcars-desktop/src/main.c:206-213 | For any aligned prefix, any flag, any value (a flag or not) and any rest, the flag sets its field from the value and scanning resumes after the value, so the value is never examined as a flag. |
| `Cli.FlagUntouched` | pkgs/lcars-desktop/src/main.c:206-213 | A scan that never meets a flag leaves that flag's field as it was. |
| `Cli.LaterFlagWins` | pkgs/lcars-desktop/src/main.c:206-213 | For each of `--mode`, `--resolution` and `--refresh`, a later occurrence overwrites whatever the arguments before it set, and its value stands when the flag does not come again. |
| `Cli.NonNumericRefreshIsZero` | pkgs/lcars-desktop/src/main.c:212 | A non-numeric `--refresh` value gives 0. |
| `Dashboard.IndexOfId` | pkgs/fleet-health-monitor/public/js/dashboard.js:375 | `findIndex` gives the first record with the id, or none. |
| `Dashboard.Where` | pkgs/fleet-health-monitor/public/js/dashboard.js:587-589 | A filter keeps exactly the records that pass the test, and is never longer than its input. |
| `Dashboard.WhereKeepsOrder` | pkgs/fleet-health-monitor/public/js/dashboard.js:587-589 | A filter keeps the order of what it keeps. |
| `Dashboard.WhereCountUpdate` | pkgs/fleet-health-monitor/public/js/dashboard.js:518 | Replacing one element changes the filtered count by what the old and the new element contribute. |
| `Dashboard.ShownFilters` | pkgs/fleet-health-monitor/public/js/dashboard.js:581-636 | The node and alert views keep order. For a filter other than 'all', they show exactly the nodes of that type and the alerts of that level. |
| `Dashboard.MergeFields` | pkgs/fleet-health-monitor/public/js/dashboard.js:377 | The object spread has every property of both sides, and the update's value wins. |
| `Dashboard.UpsertedSpec` | pkgs/fleet-health-monitor/public/js/dashboard.js:373-380 | A known id is merged in place at its first index, and no other node changes. An unknown id is appended. Afterwards the id is found with every property of the update. |
| `Dashboard.DashboardState.OnNodeUpdate` | pkgs/fleet-health-monitor/public/js/dashboard.js:373-380 | The `node-update` handler leaves the list `Upserted` describes, and the alerts and every metric series (and `present`) unchanged, so `WindowValid` holds afterwards exactly when it held before. |
| `Dashboard.DashboardState.OnAlert` | pkgs/fleet-health-monitor/public/js/dashboard.js:387-389 | An incoming alert is prepended; the nodes, `present` and every metric series are unchanged, so `WindowValid` is kept. |
| `Dashboard.AcknowledgedSpec` | pkgs/fleet-health-monitor/public/js/dashboard.js:831-847 | Only the first alert with the id changes, and it becomes acknowledged. The active count drops by one exactly when that alert was active. Without a match nothing changes. |
| `Dashboard.DashboardState.AcknowledgeAlert` | pkgs/fleet-health-monitor/public/js/dashboard.js:836-838 | The state after `acknowledgeAlert` is `Acknowledged(old alerts, id)`; the nodes, `present` and every metric series are unchanged, so `WindowValid` is kept. |
| `Dashboard.DashboardState.TriggerRedAlert` | pkgs/fleet-health-monitor/public/js/dashboard.js:877-888 | The red alert is prepended; the nodes, `present` and every metric series are unchanged, so `WindowValid` is kept. |
| `Dashboard.RedAlertHeadsSummary` | pkgs/fleet-health-monitor/public/js/dashboard.js:877-888 | A new red alert is active and heads the summary panel. |
| `Dashboard.AlertSummarySpec` | pkgs/fleet-health-monitor/public/js/dashboard.js:518-543 | The panel lists the first at most five active alerts, in order. A "+ N more alerts" line appears exactly when more than five are active, and N reads back as the count minus 5. |
| `Dashboard.NodeCountsBounded` | pkgs/fleet-health-monitor/public/js/dashboard.js:506-512 | Active equals online, and online, offline and warning add up to at most the number of nodes. |
| `Dashboard.HealthClassMatchesStatus` | pkgs/fleet-health-monitor/public/js/dashboard.js:936-948 | The health class always matches the health status: the thresholds are the same. |
| `Dashboard.HealthStatusMonotone` | pkgs/fleet-health-monitor/public/js/dashboard.js:936-941 | A higher score never gives a worse status. |
| `Dashboard.MeterClassMonotone` | pkgs/fleet-health-monitor/public/js/dashboard.js:950-954 | A higher reading never gives a milder meter class. |
| `Dashboard.NetworkPercent` | pkgs/fleet-health-monitor/public/js/dashboard.js:573 | The network meter is at most 100%, and kbps/10 up to 1000 KB/s. |
| `Dashboard.NetworkMeterThresholds` | pkgs/fleet-health-monitor/public/js/dashboard.js:950-954 | The network meter is danger exactly from 900 KB/s, and warning exactly from 700 to below 900. |
| `Dashboard.MetricLabel` | pkgs/fleet-health-monitor/public/js/dashboard.js:956-965 | Any key other than the five metrics is returned unchanged. |
| `Dashboard.MetricLabelsDistinct` | pkgs/fleet-health-monitor/public/js/dashboard.js:956-965 | The five metrics get five different labels, none of them a metric key. |
| `Dashboard.SlideWindow` | pkgs/fleet-health-monitor/public/js/dashboard.js:463-478 | One push and conditional shift keeps the newest min(n+1, 60) samples, in order, ending with the new one. |
| `Dashboard.DashboardState.GenerateMetrics` | pkgs/fleet-health-monitor/public/js/dashboard.js:453-478 | The series are created on first use, and every series slides by the sample. All six keep equal length, at most 60. |
| `Dashboard.HealthScoreRange` | pkgs/fleet-health-monitor/public/js/dashboard.js:481-487 | For the generator's ranges the score lies in [-11.2, 85], and both ends are reached. |
| `Dashboard.SliceFromEnd` | pkgs/fleet-health-monitor/public/js/dashboard.js:684-685 | `slice(-d)` always gives a suffix. |
| `Dashboard.SliceFromEndSpec` | pkgs/fleet-health-monitor/public/js/dashboard.js:683-685 | A whole d in 1..n gives the last d. Any d in [0, 1), 0 included, gives the whole series. |
| `Dashboard.ChartSpec` | pkgs/fleet-health-monitor/public/js/dashboard.js:674-723 | Labels and points have equal length and are the newest entries. A time range of 0 shows the whole series. |
| `Hardware.LStripSpec` | pkgs/assimilation-tools/scripts/hardware_scan.py:93 | `lstrip` removes exactly the leading whitespace. |
| `Hardware.RStripSpec` | pkgs/assimilation-tools/scripts/hardware_scan.py:93 | `rstrip` removes exactly the trailing whitespace. |
| `Hardware.StripSpec` | pkgs/assimilation-tools/scripts/hardware_scan.py:66 | `strip()` is empty exactly for a blank line. Otherwise it is the piece of the line between leading and trailing whitespace. |
| `Hardware.IndexOf` | pkgs/assimilation-tools/scripts/hardware_scan.py:95 | Gives the first occurrence of a character, or none. |
| `Hardware.ColonField` | pkgs/assimilation-tools/scripts/hardware_scan.py:95-96 | `split(":", 2)[1]` exists exactly when the line has a colon, and holds no colon. |
| `Hardware.ColonFieldOf` | pkgs/assimilation-tools/scripts/hardware_scan.py:95-97 | The field is the text between the first colon and the next colon or the end. |
| `Hardware.ScanNetwork` | pkgs/assimilation-tools/scripts/hardware_scan.py:84-101 | The `scan_network` loop gives the fold `ParseIpAddr` of the lines, or the one error interface when `ip addr` fails. |
| `Hardware.InterfacesFollowHeaders` | pkgs/assimilation-tools/scripts/hardware_scan.py:90-98 | There is one interface per header line, named by it, in input order. |
| `Hardware.NoHeaderNoInterface` | pkgs/assimilation-tools/scripts/hardware_scan.py:91-93 | Without a header line, there is no interface: indented lines before any interface are dropped. |
| `Hardware.HeaderBlock` | pkgs/assimilation-tools/scripts/hardware_scan.py:91-98 | A header followed by indented lines adds one interface whose details are those lines stripped, in order. |
| `Hardware.StripAll` | pkgs/assimilation-tools/scripts/hardware_scan.py:93 | Each detail is its line stripped. |
| `Hardware.NonBlankSpec` | pkgs/assimilation-tools/scripts/hardware_scan.py:65-80 | The device filter keeps exactly the non-blank lines, unchanged and in order. |
| `Hardware.NonBlankLines` | pkgs/assimilation-tools/scripts/hardware_scan.py:65-68 | The device loop gives `NonBlank` of the lines. |
| `Hardware.ScanUsbDevices` | pkgs/assimilation-tools/scripts/hardware_scan.py:60-70 | The result is the non-blank lsusb lines, or the single USB error line. |
| `Hardware.ScanPciDevices` | pkgs/assimilation-tools/scripts/hardware_scan.py:72-82 | The result is the non-blank lspci lines, or the single PCI error line. |
| `Hardware.PutSpec` | pkgs/assimilation-tools/scripts/hardware_scan.py:51-53 | Assigning a dict key keeps the order of the keys. An existing key keeps its place, and a new one goes last. Other entries are unchanged. |
| `Hardware.LookupPut` | pkgs/assimilation-tools/scripts/hardware_scan.py:51-53 | After `d[key] = v`, the key reads v and every other key reads what it did before. |
| `Hardware.SecondTokenIsToken` | pkgs/assimilation-tools/scripts/hardware_scan.py:51 | `split()[1]`, when present, is a non-empty run of non-spaces. |
| `Hardware.TokenOfSpec` | pkgs/assimilation-tools/scripts/hardware_scan.py:51 | A token is the leading non-space run. |
| `Hardware.SecondTokenOf` | pkgs/assimilation-tools/scripts/hardware_scan.py:51-53 | "MemTotal:   16384 kB" yields "16384": the second whitespace-separated token. |
| `Hardware.GetSystemInfo` | pkgs/assimilation-tools/scripts/hardware_scan.py:28-58 | The meminfo loop gives `SystemInfo`. Without /proc/meminfo both memory entries are "unknown". |
| `Hardware.MemInfoTakesLastLine` | pkgs/assimilation-tools/scripts/hardware_scan.py:47-56 | On well-formed meminfo the loop does not fail. memory_total and memory_free hold the second token of the last line with their prefix, or their earlier value. |
| `Hardware.ScanHardware` | pkgs/assimilation-tools/scripts/hardware_scan.py:103-132 | `scan_hardware` gives `Scan`: system info always, usb for full/quick/usb, pci for full/quick/pci, network for full/network, dmi and lshw for full only. |
| `Hardware.EntryLines` | pkgs/assimilation-tools/scripts/hardware_scan.py:148-149 | There is one "key: value" line per entry, in order. |
| `Hardware.DetailLines` | pkgs/assimilation-tools/scripts/hardware_scan.py:164-165 | Interface details are indented by two spaces. |
| `Hardware.ReportOpensWithSystemInfo` | pkgs/assimilation-tools/scripts/hardware_scan.py:147-149 | The text starts with the system banner, followed by one "key: value" line per entry, in order. |
| `Hardware.FormatText` | pkgs/assimilation-tools/scripts/hardware_scan.py:145-176 | The text branch of `format_output` is `"\n".join` of `ReportLines`. |
| `Hardware.AppendSection` | pkgs/assimilation-tools/scripts/hardware_scan.py:151-154 | A present section adds its header, then its lines. |
| `Hardware.AppendInterface` | pkgs/assimilation-tools/scripts/hardware_scan.py:163-165 | An interface adds its name line, then its indented details. |
| `Hardware.HeadersAppend` | pkgs/assimilation-tools/scripts/hardware_scan.py:151-174 | The section headers of a concatenation are those of each part, in order. |
| `Hardware.ReportHeaders` | pkgs/assimilation-tools/scripts/hardware_scan.py:151-174 | The report carries the headers of the present sections, in the fixed order USB, PCI, Network, DMI, Hardware. |
| `Hardware.PartHeaders` | pkgs/assimilation-tools/scripts/hardware_scan.py:147-174 | The system part of the report has no section header, and each section part carries its own header exactly when the section is present. |
| `Hardware.ReportSections` | pkgs/assimilation-tools/scripts/hardware_scan.py:103-176 | For each scan type, the report has exactly that type's sections, in the fixed order. |
| `Hardware.ScanPresence` | pkgs/assimilation-tools/scripts/hardware_scan.py:109-130 | A scan fills in USB for full, quick and usb; PCI for full, quick and pci; network for full and network; DMI and lshw only for full. |

## Left out

- **Wayland, EGL/GL, the dispatch loop and the rest of `main`** (pkgs/lcars-desktop/src/main.c outside lines 202-214): these are foreign library calls. `protocols.c`, `compositor.c` and `input.c` are not part of this model.
- **Cairo and Pango**: the model keeps only what they are told to draw, as a log. Pango's measured label size is a parameter. `cairo_save`/`restore` and the first `cairo_set_source_rgba` in `lcars_draw_main_interface` paint nothing and are not logged.
- **Allocation and freeing**: `malloc` failure, `strdup` failure, the destroy functions and the free-before-recreate order inside `theme_set_mode` are not modelled. The model covers the successful path; a null result only arises from a null argument or a failed parse.
- **`config.h` colours**: the four `LCARS_COLOR_*` starfleet colours are opaque six-digit hex constants.
- Theme.HexToRgb: its precondition `ScanfSafe` limits inputs to at most eight hex digits, no leading whitespace, no sign and no `0x` after the '#'. This is weaker than `sscanf`, which also accepts those. Every palette colour satisfies it.
- **Integer overflow**: `strtol`, `atoi` and C `int` arithmetic are unbounded integers here. Wrap-around and `LONG_MAX` saturation are not modelled.
- **Floating point**: the C `float` status value, the `double` channels and JavaScript numbers are reals. Rounding, NaN and infinities are not modelled.
- Dashboard.DataPoints: it and `Dashboard.ChartFor` require a positive refresh rate. A zero or negative rate, where JavaScript divides to Infinity or NaN, is not modelled.
- **DOM, Chart.js, fetch, sockets and timers in dashboard.js**: the handlers are modelled as state changes. Rendering is modelled as the list each view shows. The fleet-health chart series and the meter widths and texts are not modelled beyond their classes and the network percentage.
- **Dates and randomness**: `Math.random` draws and `Date.now()` are parameters of a sample or of the red alert. Chart labels are the raw timestamps, without `toLocaleTimeString` formatting.
- **Object identity**: alerts and nodes are values. Aliasing between the objects in `state.alerts` and elsewhere is not modelled, and neither is the key order of an object spread.
- Dashboard.AlertsShown: calling `renderAlerts` with a `null` data-filter attribute is not modelled. Only string filters are.
- Dashboard.NodesShown: calling `renderNodes` with a `null` data-filter attribute (dashboard.js:135-142) is not modelled either. Only string filters are.
- **Subprocesses and files in hardware_scan.py**: `subprocess`, `argparse`, writing the output file, and the JSON and YAML branches of `format_output` are left out. Command output is given already split into lines, so `splitlines` is not modelled.
- Hardware.BaseInfo: a failing `uname -r` gives "unknown" for the kernel. `None` for its output stands only for a `SubprocessError` (a non-zero exit). When `uname` is not installed, `check_output` raises `FileNotFoundError`, an `OSError` that `except subprocess.SubprocessError` does not catch. The script then ends with a traceback, which is not modelled.
- Hardware.ScanUsbDevices: `None` for the `lsusb` output stands only for a `SubprocessError`, which gives the error line. A missing `lsusb` raises `FileNotFoundError`, which nothing catches, and the program ends; that is not modelled.
- Hardware.ScanPciDevices: likewise, `None` stands only for a `SubprocessError` from `lspci`. A missing `lspci` ends the program, which is not modelled.
- Hardware.ScanNetwork: likewise, `None` stands only for a `SubprocessError` from `ip addr`. A missing `ip` ends the program, which is not modelled.
- Hardware.ScanHardware: in a full scan, `None` for the `dmidecode` or `lshw` output stands only for a `SubprocessError`, which gives the DMI or hardware error line. When either program is not installed, the `FileNotFoundError` escapes `scan_hardware` and the program ends with a traceback instead of printing the error line; that is not modelled. The same holds for the three device scans above.
- Hardware.Lookup: dict keys are assumed unique. `Lookup` reads the first entry with a key, and `Put` keeps each key once.
- Hardware.MemInfo: a `MemTotal:`/`MemFree:` line without a second token raises `IndexError`, which propagates. The model gives None for the whole system info, and `Scan` then gives None.
- **server.js and usb_assimilate.py**: not part of this model.
