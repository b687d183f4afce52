/** The hardware scanner's report (pkgs/assimilation-tools/scripts/hardware_scan.py):
    the `ip addr` parser, the lsusb/lspci line filters, the /proc/meminfo
    token pick, the scan-type section selection and the text report. What
    the subprocesses print and the host facts `platform` reports are
    inputs: a command's output is its list of lines, None when the command
    fails. */
module Hardware {
  import opened Wrappers
  import Seqs

  // ----- Python string helpers -----

  /** The characters `str.isspace` accepts, as inclusive ranges. */
  const SpaceRanges: seq<(char, char)> := [
    (' ', ' '), ('\t', '\r'), ('\U{1c}', '\U{1f}'), ('\U{85}', '\U{85}'), ('\U{a0}', '\U{a0}'),
    ('\U{1680}', '\U{1680}'), ('\U{2000}', '\U{200a}'), ('\U{2028}', '\U{2029}'), ('\U{202f}', '\U{202f}'),
    ('\U{205f}', '\U{205f}'), ('\U{3000}', '\U{3000}')]

  predicate InRanges(c: char, ranges: seq<(char, char)>) {
    |ranges| > 0 && (ranges[0].0 <= c <= ranges[0].1 || InRanges(c, ranges[1..]))
  }

  /** `str.isspace` for one character, as `strip()` and `split()` use it. */
  predicate IsSpace(c: char) {
    InRanges(c, SpaceRanges)
  }

  /** `s.lstrip()`. */
  function LStrip(s: string): string {
    if |s| > 0 && IsSpace(s[0]) then LStrip(s[1..]) else s
  }

  /** `s.rstrip()`. */
  function RStrip(s: string): string {
    if |s| > 0 && IsSpace(s[|s| - 1]) then RStrip(s[..|s| - 1]) else s
  }

  /** `s.strip()`. */
  function Strip(s: string): string {
    RStrip(LStrip(s))
  }

  /** `lstrip` removes the leading whitespace and nothing more. */
  lemma {:induction false} LStripSpec(s: string)
    ensures var r := LStrip(s);
      |r| <= |s| && r == s[|s| - |r|..] && (r == [] || !IsSpace(r[0])) &&
      forall i :: 0 <= i < |s| - |r| ==> IsSpace(s[i])
  {
    if |s| > 0 && IsSpace(s[0]) {
      LStripSpec(s[1..]);
    }
  }

  /** `rstrip` removes the trailing whitespace and nothing more. */
  lemma {:induction false} RStripSpec(s: string)
    ensures var r := RStrip(s);
      |r| <= |s| && r == s[..|r|] && (r == [] || !IsSpace(r[|r| - 1])) &&
      forall i :: |r| <= i < |s| ==> IsSpace(s[i])
  {
    if |s| > 0 && IsSpace(s[|s| - 1]) {
      RStripSpec(s[..|s| - 1]);
    }
  }

  /** A line is blank when it holds nothing but whitespace. */
  predicate Blank(s: string) {
    forall i :: 0 <= i < |s| ==> IsSpace(s[i])
  }

  /** `s.strip()` is empty exactly for a blank line; otherwise it is a
      piece of the line that starts and ends with a non-space, and only
      whitespace is removed around it. */
  lemma StripSpec(s: string)
    ensures Strip(s) == [] <==> Blank(s)
    ensures Strip(s) != [] ==> !IsSpace(Strip(s)[0]) && !IsSpace(Strip(s)[|Strip(s)| - 1])
    ensures var i := |s| - |LStrip(s)|;
      (0 <= i && i + |Strip(s)| <= |s| && s[i..i + |Strip(s)|] == Strip(s) &&
       (forall k :: 0 <= k < i ==> IsSpace(s[k])) && (forall k :: i + |Strip(s)| <= k < |s| ==> IsSpace(s[k])))
  {
    var l := LStrip(s);
    LStripSpec(s);
    RStripSpec(l);
    var i := |s| - |l|;
    var r := RStrip(l);
    assert s[i..i + |r|] == r;
    forall k | i + |r| <= k < |s|
      ensures IsSpace(s[k])
    {
      assert s[k] == l[k - i];
    }
    if r != [] {
      assert !IsSpace(s[i]);
    }
  }

  /** `s.startswith(prefix)`. */
  predicate StartsWith(s: string, prefix: string) {
    |prefix| <= |s| && s[..|prefix|] == prefix
  }

  /** The first position of `c` in `s`. */
  function IndexOf(s: string, c: char): (r: Option<nat>)
    ensures r.Some? ==> r.value < |s| && s[r.value] == c && c !in s[..r.value]
    ensures r.None? ==> c !in s
  {
    if |s| == 0 then None
    else if s[0] == c then Some(0)
    else match IndexOf(s[1..], c)
      case Some(i) =>
        assert s[..i + 1] == [s[0]] + s[1..][..i];
        Some(i + 1)
      case None => None
  }

  /** `line.split(":", 2)[1]` when the split has at least two parts: the
      text between the first colon and the second one, or the end. */
  function ColonField(line: string): (f: Option<string>)
    ensures f.None? <==> ':' !in line
    ensures f.Some? ==> ':' !in f.value
  {
    match IndexOf(line, ':')
    case None => None
    case Some(i) =>
      var rest := line[i + 1..];
      match IndexOf(rest, ':')
      case None => Some(rest)
      case Some(j) => Some(rest[..j])
  }

  /** The field is found wherever it sits: after a colon-free head and
      before the end or the next colon. */
  lemma ColonFieldOf(head: string, field: string, tail: string)
    requires ':' !in head && ':' !in field
    requires tail == [] || tail[0] == ':'
    ensures ColonField(head + ":" + field + tail) == Some(field)
  {
    var line := head + ":" + field + tail;
    SplitAfter(line, head, ':', field + tail);
    IndexOfAt(line, ':', |head|);
    var rest := field + tail;
    if tail != [] {
      SplitAfter(rest, field, ':', tail[1..]);
      IndexOfAt(rest, ':', |field|);
    } else {
      assert rest == field;
      assert ':' !in rest;
    }
  }

  /** Where the separator and the text after it sit in `a + [c] + b`. */
  lemma SplitAfter(s: string, a: string, c: char, b: string)
    requires s == a + [c] + b
    ensures |a| < |s| && s[..|a|] == a && s[|a|] == c && s[|a| + 1..] == b
  {
  }

  /** `IndexOf` finds the first occurrence. */
  lemma IndexOfAt(s: string, c: char, i: nat)
    requires i < |s| && s[i] == c && c !in s[..i]
    ensures IndexOf(s, c) == Some(i)
  {
    assert s[i] in s;
    var r := IndexOf(s, c).value;
    forall j | 0 <= j < i
      ensures s[j] != c
    {
      assert s[j] == s[..i][j];
    }
    forall j | 0 <= j < r
      ensures s[j] != c
    {
      assert s[j] == s[..r][j];
    }
  }

  // ----- ip addr -----

  /** One interface of `scan_network`'s result. */
  datatype Interface = Interface(name: string, details: seq<string>)

  /** A line of `ip addr` output that belongs to the interface above it. */
  predicate Indented(line: string) {
    StartsWith(line, " ")
  }

  /** A line that starts a new interface. */
  predicate Header(line: string) {
    !Indented(line) && ColonField(line).Some?
  }

  /** The interface a header line names. */
  function NameOf(line: string): string
    requires Header(line)
  {
    Strip(ColonField(line).value)
  }

  /** One line of the `scan_network` loop: an indented line is added,
      stripped, to the latest interface (and dropped when there is none);
      a header line starts a new interface; any other line is ignored. */
  function Step(interfaces: seq<Interface>, line: string): seq<Interface> {
    if Indented(line) then
      if |interfaces| > 0 then
        var last := interfaces[|interfaces| - 1];
        interfaces[..|interfaces| - 1] + [last.(details := last.details + [Strip(line)])]
      else interfaces
    else if Header(line) then interfaces + [Interface(NameOf(line), [])]
    else interfaces
  }

  /** The interfaces `scan_network` builds from the lines of `ip addr`. */
  function ParseIpAddr(lines: seq<string>): seq<Interface> {
    if |lines| == 0 then [] else Step(ParseIpAddr(lines[..|lines| - 1]), lines[|lines| - 1])
  }

  /** The result when `ip addr` fails. */
  const NetworkError := [Interface("Error", ["Could not scan network interfaces"])]

  /** `scan_network`. */
  method ScanNetwork(output: Option<seq<string>>) returns (interfaces: seq<Interface>)
    ensures interfaces == if output.None? then NetworkError else ParseIpAddr(output.value)
  {
    if output.None? {
      return NetworkError;
    }
    var lines := output.value;
    interfaces := [];
    var currentIf: Option<string> := None;
    var i := 0;
    while i < |lines|
      invariant i <= |lines|
      invariant interfaces == ParseIpAddr(lines[..i])
      invariant currentIf.Some? <==> |interfaces| > 0
    {
      var line := lines[i];
      if StartsWith(line, " ") {
        if currentIf.Some? {
          var last := interfaces[|interfaces| - 1];
          interfaces := interfaces[..|interfaces| - 1] + [last.(details := last.details + [Strip(line)])];
        }
      } else {
        var parts := ColonField(line);
        if parts.Some? {
          currentIf := Some(Strip(parts.value));
          interfaces := interfaces + [Interface(currentIf.value, [])];
        }
      }
      assert lines[..i + 1][..i] == lines[..i];
      i := i + 1;
    }
    assert lines[..|lines|] == lines;
  }

  /** The names of the header lines, in order: a reference for the
      interface list independent of the loop. */
  function HeaderNames(lines: seq<string>): seq<string> {
    if |lines| == 0 then []
    else
      var last := lines[|lines| - 1];
      HeaderNames(lines[..|lines| - 1]) + (if Header(last) then [NameOf(last)] else [])
  }

  function Names(interfaces: seq<Interface>): seq<string> {
    if |interfaces| == 0 then [] else Names(interfaces[..|interfaces| - 1]) + [interfaces[|interfaces| - 1].name]
  }

  lemma {:induction false} NamesLength(interfaces: seq<Interface>)
    ensures |Names(interfaces)| == |interfaces|
  {
    if |interfaces| > 0 {
      NamesLength(interfaces[..|interfaces| - 1]);
    }
  }

  /** Changing only the details of the last interface keeps the names. */
  lemma NamesKeepLast(interfaces: seq<Interface>, details: seq<string>)
    requires |interfaces| > 0
    ensures var n := |interfaces|;
      Names(interfaces[..n - 1] + [interfaces[n - 1].(details := details)]) == Names(interfaces)
  {
    var n := |interfaces|;
    var t := interfaces[..n - 1] + [interfaces[n - 1].(details := details)];
    assert t[..n - 1] == interfaces[..n - 1];
  }

  /** There is one interface per header line, named by it, in input order:
      indented lines and colon-free lines never add or rename one. */
  lemma {:induction false} InterfacesFollowHeaders(lines: seq<string>)
    ensures Names(ParseIpAddr(lines)) == HeaderNames(lines)
  {
    if |lines| > 0 {
      var pre := lines[..|lines| - 1];
      var line := lines[|lines| - 1];
      var acc := ParseIpAddr(pre);
      InterfacesFollowHeaders(pre);
      if Indented(line) && |acc| > 0 {
        NamesKeepLast(acc, acc[|acc| - 1].details + [Strip(line)]);
      } else if !Indented(line) && Header(line) {
        assert (acc + [Interface(NameOf(line), [])])[..|acc|] == acc;
      }
    }
  }

  /** Without a header line there is no interface: indented lines seen
      before any interface are dropped. */
  lemma NoHeaderNoInterface(lines: seq<string>)
    requires forall k :: 0 <= k < |lines| ==> !Header(lines[k])
    ensures ParseIpAddr(lines) == []
  {
    NoHeaderNames(lines);
    InterfacesFollowHeaders(lines);
    NamesLength(ParseIpAddr(lines));
  }

  lemma {:induction false} NoHeaderNames(lines: seq<string>)
    requires forall k :: 0 <= k < |lines| ==> !Header(lines[k])
    ensures HeaderNames(lines) == []
  {
    if |lines| > 0 {
      NoHeaderNames(lines[..|lines| - 1]);
    }
  }

  /** Every line of a block, stripped. */
  function StripAll(block: seq<string>): (r: seq<string>)
    ensures |r| == |block| && forall k :: 0 <= k < |block| ==> r[k] == Strip(block[k])
  {
    if |block| == 0 then [] else StripAll(block[..|block| - 1]) + [Strip(block[|block| - 1])]
  }

  /** A header followed by indented lines adds exactly one interface,
      named by the header, whose details are those lines stripped, in order. */
  lemma {:induction false} HeaderBlock(pre: seq<string>, header: string, block: seq<string>)
    requires Header(header)
    requires forall k :: 0 <= k < |block| ==> Indented(block[k])
    ensures ParseIpAddr(pre + [header] + block) == ParseIpAddr(pre) + [Interface(NameOf(header), StripAll(block))]
  {
    var lines := pre + [header] + block;
    if |block| == 0 {
      assert lines[..|lines| - 1] == pre;
    } else {
      var shorter := block[..|block| - 1];
      HeaderBlock(pre, header, shorter);
      assert lines[..|lines| - 1] == pre + [header] + shorter;
      assert StripAll(block) == StripAll(shorter) + [Strip(block[|block| - 1])];
    }
  }

  // ----- lsusb / lspci -----

  /** The lines that are not blank, in order. */
  function NonBlank(lines: seq<string>): seq<string> {
    if |lines| == 0 then []
    else if Strip(lines[0]) != [] then [lines[0]] + NonBlank(lines[1..])
    else NonBlank(lines[1..])
  }

  /** The filter keeps exactly the non-blank lines, unchanged and in order. */
  lemma {:induction false} NonBlankSpec(lines: seq<string>)
    ensures Seqs.SubsequenceOf(NonBlank(lines), lines)
    ensures forall l :: l in NonBlank(lines) <==> l in lines && !Blank(l)
  {
    if |lines| > 0 {
      NonBlankSpec(lines[1..]);
      StripSpec(lines[0]);
      if Strip(lines[0]) != [] {
        assert NonBlank(lines)[1..] == NonBlank(lines[1..]);
      }
      forall l | l in lines
        ensures l in lines[1..] || l == lines[0]
      {
        var k :| 0 <= k < |lines| && lines[k] == l;
        if k > 0 {
          assert lines[1..][k - 1] == l;
        }
      }
      forall l | l in NonBlank(lines)
        ensures !Blank(l)
      {
        if l !in NonBlank(lines[1..]) {
          assert l == lines[0];
        }
      }
    }
  }

  /** The device loop of `scan_usb_devices` and `scan_pci_devices`. */
  method NonBlankLines(lines: seq<string>) returns (devices: seq<string>)
    ensures devices == NonBlank(lines)
  {
    devices := [];
    var i := 0;
    while i < |lines|
      invariant i <= |lines|
      invariant devices + NonBlank(lines[i..]) == NonBlank(lines)
    {
      assert lines[i..][1..] == lines[i + 1..];
      if Strip(lines[i]) != [] {
        devices := devices + [lines[i]];
      }
      i := i + 1;
    }
  }

  const UsbError := "Error: Could not scan USB devices"
  const PciError := "Error: Could not scan PCI devices"

  /** The devices a scan reports: the non-blank lines, or one error line
      when the command fails. */
  function Devices(output: Option<seq<string>>, error: string): seq<string> {
    if output.None? then [error] else NonBlank(output.value)
  }

  /** `scan_usb_devices`. */
  method ScanUsbDevices(output: Option<seq<string>>) returns (devices: seq<string>)
    ensures devices == Devices(output, UsbError)
  {
    if output.None? {
      return [UsbError];
    }
    devices := NonBlankLines(output.value);
  }

  /** `scan_pci_devices`. */
  method ScanPciDevices(output: Option<seq<string>>) returns (devices: seq<string>)
    ensures devices == Devices(output, PciError)
  {
    if output.None? {
      return [PciError];
    }
    devices := NonBlankLines(output.value);
  }

  // ----- system information -----

  /** One `key: value` pair of the `info` dict, which keeps insertion order. */
  datatype Entry = Entry(key: string, value: string)

  /** `d[key]`, None when the key is missing. */
  function Lookup(d: seq<Entry>, key: string): Option<string> {
    if |d| == 0 then None
    else if d[0].key == key then Some(d[0].value)
    else Lookup(d[1..], key)
  }

  predicate HasKey(d: seq<Entry>, key: string) {
    exists k :: 0 <= k < |d| && d[k].key == key
  }

  /** `d[key] = value`: an existing key keeps its place and takes the new
      value, a new key goes last. */
  function Put(d: seq<Entry>, key: string, value: string): seq<Entry> {
    if |d| == 0 then [Entry(key, value)]
    else if d[0].key == key then [Entry(key, value)] + d[1..]
    else [d[0]] + Put(d[1..], key, value)
  }

  /** After `d[key] = value` the key maps to the value, every other key
      keeps its value, and the keys keep their order: the list grows by one
      entry exactly when the key is new. */
  lemma {:induction false} PutSpec(d: seq<Entry>, key: string, value: string)
    ensures HasKey(d, key) ==> |Put(d, key, value)| == |d|
    ensures !HasKey(d, key) ==> Put(d, key, value) == d + [Entry(key, value)]
    ensures forall k :: 0 <= k < |d| ==> Put(d, key, value)[k].key == d[k].key
    ensures forall k :: 0 <= k < |d| && d[k].key != key ==> Put(d, key, value)[k] == d[k]
  {
    if |d| > 0 && d[0].key != key {
      PutSpec(d[1..], key, value);
      if HasKey(d, key) {
        var k :| 0 <= k < |d| && d[k].key == key;
        assert d[1..][k - 1].key == key;
      }
      if !HasKey(d, key) {
        assert !HasKey(d[1..], key) by {
          forall k | 0 <= k < |d| - 1
            ensures d[1..][k].key != key
          {
            assert d[1..][k] == d[k + 1];
          }
        }
      }
    }
  }

  /** The host facts `platform` and `datetime` report. */
  datatype HostFacts = HostFacts(hostname: string, platform: string, processor: string,
                                 architecture: string, pythonVersion: string, timestamp: string)

  /** The dict literal of `get_system_info` and the kernel entry: the
      stripped output of `uname -r`, or "unknown" when it fails. */
  function BaseInfo(host: HostFacts, uname: Option<string>): seq<Entry> {
    [Entry("hostname", host.hostname), Entry("platform", host.platform),
     Entry("processor", host.processor), Entry("architecture", host.architecture),
     Entry("python_version", host.pythonVersion), Entry("timestamp", host.timestamp),
     Entry("kernel", if uname.None? then "unknown" else Strip(uname.value))]
  }

  /** `line.split()[1]`: the second whitespace-separated token, None where
      Python raises IndexError. */
  function SecondToken(line: string): Option<string> {
    var second := LStrip(SkipToken(LStrip(line)));
    if second == [] then None else Some(TokenOf(second))
  }

  /** What follows the leading token of `s`. */
  function SkipToken(s: string): string {
    if |s| > 0 && !IsSpace(s[0]) then SkipToken(s[1..]) else s
  }

  /** The leading token of `s`. */
  function TokenOf(s: string): string {
    if |s| > 0 && !IsSpace(s[0]) then [s[0]] + TokenOf(s[1..]) else []
  }

  /** A found second token is a non-empty run of non-spaces. */
  lemma SecondTokenIsToken(line: string)
    requires SecondToken(line).Some?
    ensures var t := SecondToken(line).value; t != [] && forall k :: 0 <= k < |t| ==> !IsSpace(t[k])
  {
    var second := LStrip(SkipToken(LStrip(line)));
    LStripSpec(SkipToken(LStrip(line)));
    TokenOfSpec(second);
  }

  lemma {:induction false} TokenOfSpec(s: string)
    ensures var t := TokenOf(s);
      (|t| <= |s| && t == s[..|t|] &&
       (forall k :: 0 <= k < |t| ==> !IsSpace(t[k])) && (s != [] && !IsSpace(s[0]) ==> t != []))
  {
    if |s| > 0 && !IsSpace(s[0]) {
      TokenOfSpec(s[1..]);
    }
  }

  /** A line laid out as leading spaces, a token, spaces, a token and then
      the end or a space yields the second token. */
  lemma SecondTokenOf(lead: string, first: string, gap: string, second: string, rest: string)
    requires Blank(lead) && Blank(gap) && gap != []
    requires first != [] && second != []
    requires forall k :: 0 <= k < |first| ==> !IsSpace(first[k])
    requires forall k :: 0 <= k < |second| ==> !IsSpace(second[k])
    requires rest == [] || IsSpace(rest[0])
    ensures SecondToken(lead + first + gap + second + rest) == Some(second)
  {
    var line := lead + first + gap + second + rest;
    var afterLead := first + (gap + (second + rest));
    assert line == lead + afterLead;
    assert afterLead[0] == first[0];
    LStripPast(lead, afterLead);
    assert (gap + (second + rest))[0] == gap[0];
    SkipTokenPast(first, gap + (second + rest));
    assert (second + rest)[0] == second[0];
    LStripPast(gap, second + rest);
    TokenOfPast(second, rest);
  }

  lemma {:induction false} LStripPast(spaces: string, s: string)
    requires Blank(spaces) && (s == [] || !IsSpace(s[0]))
    ensures LStrip(spaces + s) == s
  {
    if |spaces| > 0 {
      assert (spaces + s)[1..] == spaces[1..] + s;
      LStripPast(spaces[1..], s);
    }
  }

  lemma {:induction false} SkipTokenPast(token: string, s: string)
    requires forall k :: 0 <= k < |token| ==> !IsSpace(token[k])
    requires s == [] || IsSpace(s[0])
    ensures SkipToken(token + s) == s
  {
    if |token| > 0 {
      assert (token + s)[1..] == token[1..] + s;
      SkipTokenPast(token[1..], s);
    }
  }

  lemma {:induction false} TokenOfPast(token: string, s: string)
    requires forall k :: 0 <= k < |token| ==> !IsSpace(token[k])
    requires s == [] || IsSpace(s[0])
    ensures TokenOf(token + s) == token
  {
    if |token| > 0 {
      assert (token + s)[1..] == token[1..] + s;
      TokenOfPast(token[1..], s);
    }
  }

  /** The meminfo loop: each `MemTotal:` or `MemFree:` line sets its entry
      to the line's second token; None where a line has no second token,
      an IndexError the program does not catch. */
  function MemInfo(info: seq<Entry>, lines: seq<string>): Option<seq<Entry>>
    decreases |lines|
  {
    if |lines| == 0 then Some(info)
    else if StartsWith(lines[0], "MemTotal:") then
      match SecondToken(lines[0])
      case None => None
      case Some(t) => MemInfo(Put(info, "memory_total", t), lines[1..])
    else if StartsWith(lines[0], "MemFree:") then
      match SecondToken(lines[0])
      case None => None
      case Some(t) => MemInfo(Put(info, "memory_free", t), lines[1..])
    else MemInfo(info, lines[1..])
  }

  /** `get_system_info`: `meminfo` is the file's lines, None when it does
      not exist (both memory entries are then "unknown"). */
  function SystemInfo(host: HostFacts, uname: Option<string>, meminfo: Option<seq<string>>): Option<seq<Entry>> {
    var base := BaseInfo(host, uname);
    if meminfo.None? then Some(base + [Entry("memory_total", "unknown"), Entry("memory_free", "unknown")])
    else MemInfo(base, meminfo.value)
  }

  /** `get_system_info`, with its meminfo loop. */
  method GetSystemInfo(host: HostFacts, uname: Option<string>, meminfo: Option<seq<string>>)
    returns (info: Option<seq<Entry>>)
    ensures info == SystemInfo(host, uname, meminfo)
  {
    var d := BaseInfo(host, uname);
    if meminfo.None? {
      var base, total, free := d, Entry("memory_total", "unknown"), Entry("memory_free", "unknown");
      d := Put(d, "memory_total", "unknown");
      d := Put(d, "memory_free", "unknown");
      assert !HasKey(base, "memory_total");
      PutSpec(base, "memory_total", "unknown");
      assert !HasKey(base + [total], "memory_free");
      PutSpec(base + [total], "memory_free", "unknown");
      assert base + [total] + [free] == base + [total, free];
      return Some(d);
    }
    var lines := meminfo.value;
    var i := 0;
    while i < |lines|
      invariant i <= |lines|
      invariant MemInfo(d, lines[i..]) == SystemInfo(host, uname, meminfo)
    {
      var line := lines[i];
      assert lines[i..][1..] == lines[i + 1..];
      if StartsWith(line, "MemTotal:") {
        var t := SecondToken(line);
        if t.None? {
          return None;
        }
        d := Put(d, "memory_total", t.value);
      } else if StartsWith(line, "MemFree:") {
        var t := SecondToken(line);
        if t.None? {
          return None;
        }
        d := Put(d, "memory_free", t.value);
      }
      i := i + 1;
    }
    info := Some(d);
  }

  /** The second token of the last line that starts with `prefix`, looking
      from the end: a reference for what the loop leaves in an entry. */
  function LastToken(lines: seq<string>, prefix: string): Option<string> {
    if |lines| == 0 then None
    else if StartsWith(lines[|lines| - 1], prefix) then SecondToken(lines[|lines| - 1])
    else LastToken(lines[..|lines| - 1], prefix)
  }

  /** Every `MemTotal:`/`MemFree:` line has a second token. */
  predicate MemLinesWellFormed(lines: seq<string>) {
    forall k :: 0 <= k < |lines| && (StartsWith(lines[k], "MemTotal:") || StartsWith(lines[k], "MemFree:")) ==>
      SecondToken(lines[k]).Some?
  }

  /** `LastToken` seen from the front: the last match in the rest, else the
      first line if it matches. */
  lemma {:induction false} LastTokenCons(line: string, rest: seq<string>, prefix: string)
    requires forall k :: 0 <= k < |rest| && StartsWith(rest[k], prefix) ==> SecondToken(rest[k]).Some?
    ensures LastToken([line] + rest, prefix) ==
      if LastToken(rest, prefix).Some? || !StartsWith(line, prefix) then LastToken(rest, prefix)
      else SecondToken(line)
    decreases |rest|
  {
    var all := [line] + rest;
    if |rest| > 0 {
      assert all[..|all| - 1] == [line] + rest[..|rest| - 1];
      assert all[|all| - 1] == rest[|rest| - 1];
      LastTokenCons(line, rest[..|rest| - 1], prefix);
    } else {
      assert all == [line];
    }
  }

  /** On a well-formed meminfo the loop does not fail, and memory_total
      holds the second token of the last `MemTotal:` line, or what it held
      before when there is none; likewise memory_free. */
  lemma {:induction false} MemInfoTakesLastLine(info: seq<Entry>, lines: seq<string>)
    requires MemLinesWellFormed(lines)
    ensures MemInfo(info, lines).Some?
    ensures var r := MemInfo(info, lines).value;
      Lookup(r, "memory_total") ==
        (if LastToken(lines, "MemTotal:").Some? then LastToken(lines, "MemTotal:") else Lookup(info, "memory_total")) &&
      Lookup(r, "memory_free") ==
        (if LastToken(lines, "MemFree:").Some? then LastToken(lines, "MemFree:") else Lookup(info, "memory_free"))
    decreases |lines|
  {
    if |lines| > 0 {
      var line, rest := lines[0], lines[1..];
      assert lines == [line] + rest;
      assert MemLinesWellFormed(rest) by {
        forall k | 0 <= k < |rest| ensures rest[k] == lines[k + 1] { }
      }
      LastTokenCons(line, rest, "MemTotal:");
      LastTokenCons(line, rest, "MemFree:");
      if StartsWith(line, "MemTotal:") {
        assert !StartsWith(line, "MemFree:") by { assert line[3] == 'T'; }
        var t := SecondToken(line).value;
        MemInfoTakesLastLine(Put(info, "memory_total", t), rest);
        LookupPut(info, "memory_total", t, "memory_total");
        LookupPut(info, "memory_total", t, "memory_free");
      } else if StartsWith(line, "MemFree:") {
        var t := SecondToken(line).value;
        MemInfoTakesLastLine(Put(info, "memory_free", t), rest);
        LookupPut(info, "memory_free", t, "memory_total");
        LookupPut(info, "memory_free", t, "memory_free");
      } else {
        MemInfoTakesLastLine(info, rest);
      }
    }
  }

  /** Looking up after `d[key] = value`: the key gives the new value,
      every other key what it gave before. */
  lemma {:induction false} LookupPut(d: seq<Entry>, key: string, value: string, other: string)
    ensures Lookup(Put(d, key, value), other) == if other == key then Some(value) else Lookup(d, other)
  {
    if |d| > 0 && d[0].key != key {
      LookupPut(d[1..], key, value, other);
    }
  }

  // ----- scan selection -----

  /** The `--scan` choices. */
  datatype ScanType = Full | Quick | NetworkScan | UsbScan | PciScan

  /** Everything the scan reads from outside: host facts and the output of
      each command, None where the command fails. */
  datatype Probe = Probe(host: HostFacts, uname: Option<string>, meminfo: Option<seq<string>>,
                         lsusb: Option<seq<string>>, lspci: Option<seq<string>>, ipAddr: Option<seq<string>>,
                         dmidecode: Option<string>, lshw: Option<string>)

  /** The `results` dict of `scan_hardware`; a missing section is None. */
  datatype Results = Results(systemInfo: seq<Entry>, usbDevices: Option<seq<string>>,
                             pciDevices: Option<seq<string>>, network: Option<seq<Interface>>,
                             dmiInfo: Option<string>, lshw: Option<string>)

  const DmiError := "Error: Could not get DMI information"
  const LshwError := "Error: Could not get hardware information"

  /** Which scan types include which sections. */
  predicate ScansUsb(t: ScanType) { t == Full || t == Quick || t == UsbScan }
  predicate ScansPci(t: ScanType) { t == Full || t == Quick || t == PciScan }
  predicate ScansNetwork(t: ScanType) { t == Full || t == NetworkScan }

  /** The result of `scan_hardware`; None where `get_system_info` raises. */
  function Scan(t: ScanType, probe: Probe): Option<Results> {
    match SystemInfo(probe.host, probe.uname, probe.meminfo)
    case None => None
    case Some(info) =>
      Some(Results(info,
        if ScansUsb(t) then Some(Devices(probe.lsusb, UsbError)) else None,
        if ScansPci(t) then Some(Devices(probe.lspci, PciError)) else None,
        if ScansNetwork(t) then Some(if probe.ipAddr.None? then NetworkError else ParseIpAddr(probe.ipAddr.value)) else None,
        if t == Full then Some(probe.dmidecode.GetOr(DmiError)) else None,
        if t == Full then Some(probe.lshw.GetOr(LshwError)) else None))
  }

  /** `scan_hardware`: system information always, then the sections the
      scan type selects. */
  method ScanHardware(t: ScanType, probe: Probe) returns (results: Option<Results>)
    ensures results == Scan(t, probe)
  {
    var info := GetSystemInfo(probe.host, probe.uname, probe.meminfo);
    if info.None? {
      return None;
    }
    var r := Results(info.value, None, None, None, None, None);
    if t == Full || t == Quick || t == UsbScan {
      var devices := ScanUsbDevices(probe.lsusb);
      r := r.(usbDevices := Some(devices));
    }
    if t == Full || t == Quick || t == PciScan {
      var devices := ScanPciDevices(probe.lspci);
      r := r.(pciDevices := Some(devices));
    }
    if t == Full || t == NetworkScan {
      var interfaces := ScanNetwork(probe.ipAddr);
      r := r.(network := Some(interfaces));
    }
    if t == Full {
      r := r.(dmiInfo := Some(if probe.dmidecode.None? then DmiError else probe.dmidecode.value));
      r := r.(lshw := Some(if probe.lshw.None? then LshwError else probe.lshw.value));
    }
    results := Some(r);
  }

  // ----- the text report -----

  const SystemBanner := "=== System Information ==="
  const UsbHeader := "\n=== USB Devices ==="
  const PciHeader := "\n=== PCI Devices ==="
  const NetworkHeader := "\n=== Network Interfaces ==="
  const DmiHeader := "\n=== DMI Information ==="
  const LshwHeader := "\n=== Hardware Information ==="

  function EntryLines(info: seq<Entry>): (r: seq<string>)
    ensures |r| == |info| && forall k :: 0 <= k < |info| ==> r[k] == info[k].key + ": " + info[k].value
  {
    if |info| == 0 then [] else EntryLines(info[..|info| - 1]) + [info[|info| - 1].key + ": " + info[|info| - 1].value]
  }

  function DetailLines(details: seq<string>): (r: seq<string>)
    ensures |r| == |details| && forall k :: 0 <= k < |details| ==> r[k] == "  " + details[k]
  {
    if |details| == 0 then [] else DetailLines(details[..|details| - 1]) + ["  " + details[|details| - 1]]
  }

  /** The lines of one interface: its name, then its details indented by
      two spaces. */
  function InterfaceLines(f: Interface): seq<string> {
    ["Interface: " + f.name] + DetailLines(f.details)
  }

  function NetworkLines(interfaces: seq<Interface>): seq<string> {
    if |interfaces| == 0 then []
    else NetworkLines(interfaces[..|interfaces| - 1]) + InterfaceLines(interfaces[|interfaces| - 1])
  }

  /** A section: its header and lines, or nothing when it is missing. */
  function Section(header: string, lines: Option<seq<string>>): seq<string> {
    if lines.None? then [] else [header] + lines.value
  }

  /** The `output` list of the text branch of `format_output`. */
  function ReportLines(r: Results): seq<string> {
    [SystemBanner] + EntryLines(r.systemInfo) +
    Section(UsbHeader, r.usbDevices) + Section(PciHeader, r.pciDevices) +
    Section(NetworkHeader, if r.network.None? then None else Some(NetworkLines(r.network.value))) +
    Section(DmiHeader, if r.dmiInfo.None? then None else Some([r.dmiInfo.value])) +
    Section(LshwHeader, if r.lshw.None? then None else Some([r.lshw.value]))
  }

  /** `"\n".join(lines)`. */
  function Join(lines: seq<string>): string {
    if |lines| == 0 then "" else if |lines| == 1 then lines[0] else lines[0] + "\n" + Join(lines[1..])
  }

  /** The joined text begins with the first line. */
  lemma {:induction false} JoinStartsWithFirst(lines: seq<string>)
    requires |lines| > 0
    ensures |lines[0]| <= |Join(lines)| && Join(lines)[..|lines[0]|] == lines[0]
  {
  }

  /** The report text always opens with the system banner, followed by one
      `key: value` line per system entry, in order. */
  lemma ReportOpensWithSystemInfo(r: Results)
    ensures StartsWith(Join(ReportLines(r)), SystemBanner)
    ensures |ReportLines(r)| > |r.systemInfo| && forall k :: 0 <= k < |r.systemInfo| ==>
      ReportLines(r)[k + 1] == r.systemInfo[k].key + ": " + r.systemInfo[k].value
  {
    JoinStartsWithFirst(ReportLines(r));
  }

  /** The text branch of `format_output`: the sections are appended to
      `output` in a fixed order, each only when present, and the lines are
      joined with newlines. */
  method FormatText(r: Results) returns (text: string)
    ensures text == Join(ReportLines(r))
  {
    var output := AppendEntries([SystemBanner], r.systemInfo);
    ghost var expected := [SystemBanner] + EntryLines(r.systemInfo);
    if r.usbDevices.Some? {
      output := AppendSection(output, UsbHeader, r.usbDevices.value);
    }
    expected := expected + Section(UsbHeader, r.usbDevices);
    assert output == expected;
    if r.pciDevices.Some? {
      output := AppendSection(output, PciHeader, r.pciDevices.value);
    }
    expected := expected + Section(PciHeader, r.pciDevices);
    assert output == expected;
    if r.network.Some? {
      output := AppendNetwork(output, r.network.value);
    }
    expected := expected + Section(NetworkHeader, if r.network.None? then None else Some(NetworkLines(r.network.value)));
    assert output == expected;
    if r.dmiInfo.Some? {
      output := AppendSection(output, DmiHeader, [r.dmiInfo.value]);
    }
    expected := expected + Section(DmiHeader, if r.dmiInfo.None? then None else Some([r.dmiInfo.value]));
    assert output == expected;
    if r.lshw.Some? {
      output := AppendSection(output, LshwHeader, [r.lshw.value]);
    }
    expected := expected + Section(LshwHeader, if r.lshw.None? then None else Some([r.lshw.value]));
    assert output == expected;
    text := Join(output);
  }

  /** Appends one `key: value` line per entry. */
  method AppendEntries(output: seq<string>, info: seq<Entry>) returns (r: seq<string>)
    ensures r == output + EntryLines(info)
  {
    r := output;
    var i := 0;
    while i < |info|
      invariant i <= |info|
      invariant r == output + EntryLines(info[..i])
    {
      r := r + [info[i].key + ": " + info[i].value];
      assert info[..i + 1][..i] == info[..i];
      i := i + 1;
    }
    assert info[..i] == info;
  }

  /** Appends a header and then each line of a list. */
  method AppendSection(output: seq<string>, header: string, lines: seq<string>) returns (r: seq<string>)
    ensures r == output + ([header] + lines)
  {
    r := output + [header];
    var i := 0;
    while i < |lines|
      invariant i <= |lines|
      invariant r == output + [header] + lines[..i]
    {
      r := r + [lines[i]];
      assert lines[..i + 1] == lines[..i] + [lines[i]];
      i := i + 1;
    }
    assert lines[..i] == lines;
  }

  /** Appends the network header and each interface's lines. */
  method AppendNetwork(output: seq<string>, interfaces: seq<Interface>) returns (r: seq<string>)
    ensures r == output + ([NetworkHeader] + NetworkLines(interfaces))
  {
    r := output + [NetworkHeader];
    var j := 0;
    while j < |interfaces|
      invariant j <= |interfaces|
      invariant r == output + [NetworkHeader] + NetworkLines(interfaces[..j])
    {
      r := AppendInterface(r, interfaces[j]);
      assert interfaces[..j + 1][..j] == interfaces[..j];
      j := j + 1;
    }
    assert interfaces[..j] == interfaces;
  }

  /** Appends an interface's name line and its indented details. */
  method AppendInterface(output: seq<string>, f: Interface) returns (r: seq<string>)
    ensures r == output + InterfaceLines(f)
  {
    r := output + ["Interface: " + f.name];
    var k := 0;
    while k < |f.details|
      invariant k <= |f.details|
      invariant r == output + ["Interface: " + f.name] + DetailLines(f.details[..k])
    {
      r := r + ["  " + f.details[k]];
      assert f.details[..k + 1][..k] == f.details[..k];
      k := k + 1;
    }
    assert f.details[..k] == f.details;
  }

  // ----- sections of the report -----

  /** A section header: a report line that begins with a newline. */
  predicate IsHeader(line: string) {
    |line| > 0 && line[0] == '\n'
  }

  function Headers(lines: seq<string>): seq<string> {
    if |lines| == 0 then []
    else (if IsHeader(lines[0]) then [lines[0]] else []) + Headers(lines[1..])
  }

  lemma {:induction false} HeadersAppend(a: seq<string>, b: seq<string>)
    ensures Headers(a + b) == Headers(a) + Headers(b)
  {
    if |a| > 0 {
      assert (a + b)[0] == a[0] && (a + b)[1..] == a[1..] + b;
      HeadersAppend(a[1..], b);
    } else {
      assert a + b == b;
    }
  }

  lemma {:induction false} NoHeaders(lines: seq<string>)
    requires forall k :: 0 <= k < |lines| ==> !IsHeader(lines[k])
    ensures Headers(lines) == []
  {
    if |lines| > 0 {
      NoHeaders(lines[1..]);
    }
  }

  /** The headers a scan type's report carries, in report order. */
  function SectionsFor(t: ScanType): seq<string> {
    match t
    case Full => [UsbHeader, PciHeader, NetworkHeader, DmiHeader, LshwHeader]
    case Quick => [UsbHeader, PciHeader]
    case NetworkScan => [NetworkHeader]
    case UsbScan => [UsbHeader]
    case PciScan => [PciHeader]
  }

  /** No command output line pretends to be a section header. */
  predicate PlainOutput(probe: Probe) {
    (probe.lsusb.Some? ==> forall k :: 0 <= k < |probe.lsusb.value| ==> !IsHeader(probe.lsusb.value[k])) &&
    (probe.lspci.Some? ==> forall k :: 0 <= k < |probe.lspci.value| ==> !IsHeader(probe.lspci.value[k])) &&
    (probe.dmidecode.Some? ==> !IsHeader(probe.dmidecode.value)) &&
    (probe.lshw.Some? ==> !IsHeader(probe.lshw.value))
  }

  /** No line of the results is itself a section header. */
  predicate PlainResults(r: Results) {
    (forall k :: 0 <= k < |EntryLines(r.systemInfo)| ==> !IsHeader(EntryLines(r.systemInfo)[k])) &&
    (r.usbDevices.Some? ==> forall k :: 0 <= k < |r.usbDevices.value| ==> !IsHeader(r.usbDevices.value[k])) &&
    (r.pciDevices.Some? ==> forall k :: 0 <= k < |r.pciDevices.value| ==> !IsHeader(r.pciDevices.value[k])) &&
    (r.dmiInfo.Some? ==> !IsHeader(r.dmiInfo.value)) &&
    (r.lshw.Some? ==> !IsHeader(r.lshw.value))
  }

  function HeaderIf(header: string, present: bool): seq<string> {
    if present then [header] else []
  }

  /** The report's section headers are those of the present sections, in
      the fixed order USB, PCI, Network, DMI, Hardware. */
  lemma ReportHeaders(r: Results)
    requires PlainResults(r)
    ensures Headers(ReportLines(r)) ==
      HeaderIf(UsbHeader, r.usbDevices.Some?) + HeaderIf(PciHeader, r.pciDevices.Some?) +
      HeaderIf(NetworkHeader, r.network.Some?) + HeaderIf(DmiHeader, r.dmiInfo.Some?) + HeaderIf(LshwHeader, r.lshw.Some?)
  {
    var head := [SystemBanner] + EntryLines(r.systemInfo);
    var usb := Section(UsbHeader, r.usbDevices);
    var pci := Section(PciHeader, r.pciDevices);
    var net := Section(NetworkHeader, if r.network.None? then None else Some(NetworkLines(r.network.value)));
    var dmi := Section(DmiHeader, if r.dmiInfo.None? then None else Some([r.dmiInfo.value]));
    var lshw := Section(LshwHeader, if r.lshw.None? then None else Some([r.lshw.value]));
    var hu, hp, hn := HeaderIf(UsbHeader, r.usbDevices.Some?), HeaderIf(PciHeader, r.pciDevices.Some?),
      HeaderIf(NetworkHeader, r.network.Some?);
    var hd, hl := HeaderIf(DmiHeader, r.dmiInfo.Some?), HeaderIf(LshwHeader, r.lshw.Some?);
    PartHeaders(r);
    HeadersOfParts(head, usb, pci, net, dmi, lshw);
    assert Headers(head + usb + pci + net + dmi + lshw) == hu + hp + hn + hd + hl by {
      assert Headers(head) + hu == hu;
    }
    assert ReportLines(r) == head + usb + pci + net + dmi + lshw;
  }

  /** Each part of the report of plain results carries only its own
      header, and the system part none. */
  lemma PartHeaders(r: Results)
    requires PlainResults(r)
    ensures Headers([SystemBanner] + EntryLines(r.systemInfo)) == []
    ensures Headers(Section(UsbHeader, r.usbDevices)) == HeaderIf(UsbHeader, r.usbDevices.Some?)
    ensures Headers(Section(PciHeader, r.pciDevices)) == HeaderIf(PciHeader, r.pciDevices.Some?)
    ensures Headers(Section(NetworkHeader, if r.network.None? then None else Some(NetworkLines(r.network.value))))
      == HeaderIf(NetworkHeader, r.network.Some?)
    ensures Headers(Section(DmiHeader, if r.dmiInfo.None? then None else Some([r.dmiInfo.value])))
      == HeaderIf(DmiHeader, r.dmiInfo.Some?)
    ensures Headers(Section(LshwHeader, if r.lshw.None? then None else Some([r.lshw.value])))
      == HeaderIf(LshwHeader, r.lshw.Some?)
  {
    NoHeaders([SystemBanner] + EntryLines(r.systemInfo));
    SectionHeaders(UsbHeader, r.usbDevices);
    SectionHeaders(PciHeader, r.pciDevices);
    if r.network.Some? {
      NetworkLinesPlain(r.network.value);
    }
    SectionHeaders(NetworkHeader, if r.network.None? then None else Some(NetworkLines(r.network.value)));
    SectionHeaders(DmiHeader, if r.dmiInfo.None? then None else Some([r.dmiInfo.value]));
    SectionHeaders(LshwHeader, if r.lshw.None? then None else Some([r.lshw.value]));
  }

  /** The headers of six consecutive parts, part by part. */
  lemma HeadersOfParts(a: seq<string>, b: seq<string>, c: seq<string>, d: seq<string>, e: seq<string>, f: seq<string>)
    ensures Headers(a + b + c + d + e + f) == Headers(a) + Headers(b) + Headers(c) + Headers(d) + Headers(e) + Headers(f)
  {
    HeadersAppend(a, b);
    HeadersAppend(a + b, c);
    HeadersAppend(a + b + c, d);
    HeadersAppend(a + b + c + d, e);
    HeadersAppend(a + b + c + d + e, f);
  }

  /** The report of each scan type has exactly its sections, in the fixed
      order USB, PCI, Network, DMI, Hardware. */
  lemma ReportSections(t: ScanType, probe: Probe)
    requires PlainOutput(probe) && Scan(t, probe).Some?
    ensures Headers(ReportLines(Scan(t, probe).value)) == SectionsFor(t)
  {
    var r := Scan(t, probe).value;
    ScanPlain(t, probe);
    ReportHeaders(r);
    ScanPresence(t, probe);
    SectionsPresent(t, r);
  }

  /** Command output without header lines gives results without them. */
  lemma ScanPlain(t: ScanType, probe: Probe)
    requires PlainOutput(probe) && Scan(t, probe).Some?
    ensures PlainResults(Scan(t, probe).value)
  {
    SystemKeysPlain(probe);
    DevicesPlain(probe.lsusb, UsbError);
    DevicesPlain(probe.lspci, PciError);
  }

  /** Which sections a successful scan of each type fills in. */
  lemma ScanPresence(t: ScanType, probe: Probe)
    requires Scan(t, probe).Some?
    ensures var r := Scan(t, probe).value;
      r.usbDevices.Some? == ScansUsb(t) && r.pciDevices.Some? == ScansPci(t) &&
      r.network.Some? == ScansNetwork(t) && r.dmiInfo.Some? == (t == Full) && r.lshw.Some? == (t == Full)
  {
  }

  /** The headers of the present sections, per scan type. */
  lemma SectionsPresent(t: ScanType, r: Results)
    requires r.usbDevices.Some? == ScansUsb(t) && r.pciDevices.Some? == ScansPci(t)
    requires r.network.Some? == ScansNetwork(t) && r.dmiInfo.Some? == (t == Full) && r.lshw.Some? == (t == Full)
    ensures HeaderIf(UsbHeader, r.usbDevices.Some?) + HeaderIf(PciHeader, r.pciDevices.Some?) +
      HeaderIf(NetworkHeader, r.network.Some?) + HeaderIf(DmiHeader, r.dmiInfo.Some?) + HeaderIf(LshwHeader, r.lshw.Some?)
      == SectionsFor(t)
  {
  }

  lemma SectionHeaders(header: string, lines: Option<seq<string>>)
    requires IsHeader(header)
    requires lines.Some? ==> forall k :: 0 <= k < |lines.value| ==> !IsHeader(lines.value[k])
    ensures Headers(Section(header, lines)) == if lines.None? then [] else [header]
  {
    if lines.Some? {
      NoHeaders(lines.value);
      assert Section(header, lines)[1..] == lines.value;
    }
  }

  lemma DevicesPlain(output: Option<seq<string>>, error: string)
    requires error != [] && error[0] == 'E'
    requires output.Some? ==> forall k :: 0 <= k < |output.value| ==> !IsHeader(output.value[k])
    ensures forall k :: 0 <= k < |Devices(output, error)| ==> !IsHeader(Devices(output, error)[k])
  {
    if output.Some? {
      NonBlankSpec(output.value);
      forall k | 0 <= k < |Devices(output, error)|
        ensures !IsHeader(Devices(output, error)[k])
      {
        var l := Devices(output, error)[k];
        assert l in output.value;
      }
    }
  }

  lemma {:induction false} NetworkLinesPlain(interfaces: seq<Interface>)
    ensures forall k :: 0 <= k < |NetworkLines(interfaces)| ==> !IsHeader(NetworkLines(interfaces)[k])
  {
    if |interfaces| > 0 {
      NetworkLinesPlain(interfaces[..|interfaces| - 1]);
      var f := interfaces[|interfaces| - 1];
      assert forall k :: 0 <= k < |InterfaceLines(f)| ==> InterfaceLines(f)[k][0] == (if k == 0 then 'I' else ' ');
    }
  }

  /** The keys `get_system_info` can produce. */
  predicate SystemKey(key: string) {
    key in {"hostname", "platform", "processor", "architecture", "python_version", "timestamp",
            "kernel", "memory_total", "memory_free"}
  }

  predicate KeysKnown(d: seq<Entry>) {
    forall k :: 0 <= k < |d| ==> SystemKey(d[k].key)
  }

  lemma {:induction false} MemInfoKeysKnown(info: seq<Entry>, lines: seq<string>)
    requires KeysKnown(info) && MemInfo(info, lines).Some?
    ensures KeysKnown(MemInfo(info, lines).value)
    decreases |lines|
  {
    if |lines| > 0 {
      var line := lines[0];
      if StartsWith(line, "MemTotal:") {
        PutKeysKnown(info, "memory_total", SecondToken(line).value);
        MemInfoKeysKnown(Put(info, "memory_total", SecondToken(line).value), lines[1..]);
      } else if StartsWith(line, "MemFree:") {
        PutKeysKnown(info, "memory_free", SecondToken(line).value);
        MemInfoKeysKnown(Put(info, "memory_free", SecondToken(line).value), lines[1..]);
      } else {
        MemInfoKeysKnown(info, lines[1..]);
      }
    }
  }

  lemma PutKeysKnown(d: seq<Entry>, key: string, value: string)
    requires KeysKnown(d) && SystemKey(key)
    ensures KeysKnown(Put(d, key, value))
  {
    PutSpec(d, key, value);
    if HasKey(d, key) {
    } else {
      assert Put(d, key, value) == d + [Entry(key, value)];
    }
  }

  lemma SystemKeysPlain(probe: Probe)
    requires SystemInfo(probe.host, probe.uname, probe.meminfo).Some?
    ensures var info := SystemInfo(probe.host, probe.uname, probe.meminfo).value;
      forall k :: 0 <= k < |EntryLines(info)| ==> !IsHeader(EntryLines(info)[k])
  {
    var base := BaseInfo(probe.host, probe.uname);
    assert KeysKnown(base);
    if probe.meminfo.Some? {
      MemInfoKeysKnown(base, probe.meminfo.value);
    }
    var info := SystemInfo(probe.host, probe.uname, probe.meminfo).value;
    assert KeysKnown(info);
    forall k | 0 <= k < |info|
      ensures !IsHeader(EntryLines(info)[k])
    {
      assert EntryLines(info)[k][0] == info[k].key[0];
    }
  }

}
