/** The command-line scan at the start of `main` in
    pkgs/lcars-desktop/src/main.c: `--mode`, `--resolution` and `--refresh`
    each take the argument after them, when there is one; everything else is
    skipped. */
module Cli {
  import CNum

  /** What the scan leaves in `mode`, `resolution` and `refresh_rate`. */
  datatype Settings = Settings(mode: string, resolution: string, refreshRate: int)

  /** The values before any argument is read. */
  const Defaults := Settings("starfleet", "1920x1080", 60)

  /** The three arguments that take a value. */
  predicate IsFlag(arg: string) {
    arg == "--mode" || arg == "--resolution" || arg == "--refresh"
  }

  /** The field a flag sets, set from the argument after it. */
  function SetFlag(current: Settings, flag: string, value: string): Settings
    requires IsFlag(flag)
  {
    if flag == "--mode" then current.(mode := value)
    else if flag == "--resolution" then current.(resolution := value)
    else current.(refreshRate := CNum.Atoi(value))
  }

  /** The settings after scanning `argv` from position `i` with `current`
      in hand: a flag with a value after it sets its field and the scan
      resumes after the value; any other argument, and a flag in the last
      position, is passed over. */
  function ScanFrom(argv: seq<string>, i: nat, current: Settings): Settings
    decreases |argv| - i
  {
    if i >= |argv| then current
    else if argv[i] == "--mode" && i + 1 < |argv| then
      ScanFrom(argv, i + 2, current.(mode := argv[i + 1]))
    else if argv[i] == "--resolution" && i + 1 < |argv| then
      ScanFrom(argv, i + 2, current.(resolution := argv[i + 1]))
    else if argv[i] == "--refresh" && i + 1 < |argv| then
      ScanFrom(argv, i + 2, current.(refreshRate := CNum.Atoi(argv[i + 1])))
    else ScanFrom(argv, i + 1, current)
  }

  /** The settings `main` starts the server with; `argv[0]`, the program
      name, is never read. */
  function Scan(argv: seq<string>): Settings {
    ScanFrom(argv, 1, Defaults)
  }

  /** The loop of `main`, with `argc == |argv|`. */
  method ParseArguments(argv: seq<string>) returns (mode: string, resolution: string, refreshRate: int)
    ensures Settings(mode, resolution, refreshRate) == Scan(argv)
  {
    mode := "starfleet";
    resolution := "1920x1080";
    refreshRate := 60;
    var i := 1;
    while i < |argv|
      invariant 1 <= i
      invariant ScanFrom(argv, i, Settings(mode, resolution, refreshRate)) == Scan(argv)
      decreases |argv| - i
    {
      if argv[i] == "--mode" && i + 1 < |argv| {
        i := i + 1;
        mode := argv[i];
      } else if argv[i] == "--resolution" && i + 1 < |argv| {
        i := i + 1;
        resolution := argv[i];
      } else if argv[i] == "--refresh" && i + 1 < |argv| {
        i := i + 1;
        refreshRate := CNum.Atoi(argv[i]);
      }
      i := i + 1;
    }
  }

  /** With no flag after the program name, the defaults stand. */
  lemma {:induction false} NoFlagsKeepCurrent(argv: seq<string>, i: nat, current: Settings)
    requires forall k :: i <= k < |argv| ==> !IsFlag(argv[k])
    ensures ScanFrom(argv, i, current) == current
    decreases |argv| - i
  {
    if i < |argv| {
      NoFlagsKeepCurrent(argv, i + 1, current);
    }
  }

  lemma NoFlagsGiveDefaults(argv: seq<string>)
    requires forall k :: 1 <= k < |argv| ==> !IsFlag(argv[k])
    ensures Scan(argv) == Defaults
  {
    NoFlagsKeepCurrent(argv, 1, Defaults);
  }

  /** An argument reached in the last position changes nothing, flag or
      not: a flag there has no value to take. */
  lemma TrailingArgumentIgnored(argv: seq<string>, current: Settings)
    requires |argv| >= 1
    ensures ScanFrom(argv, |argv| - 1, current) == current
  {
  }

  /** Every value the scan ends with is the one in hand or was taken from
      the argument right after a matching flag. */
  lemma {:induction false} ValuesComeFromArguments(argv: seq<string>, i: nat, current: Settings)
    ensures var r := ScanFrom(argv, i, current);
      (r.mode == current.mode || exists k :: i <= k < |argv| - 1 && argv[k] == "--mode" && argv[k + 1] == r.mode) &&
      (r.resolution == current.resolution ||
        exists k :: i <= k < |argv| - 1 && argv[k] == "--resolution" && argv[k + 1] == r.resolution) &&
      (r.refreshRate == current.refreshRate ||
        exists k :: i <= k < |argv| - 1 && argv[k] == "--refresh" && CNum.Atoi(argv[k + 1]) == r.refreshRate)
    decreases |argv| - i
  {
    if i < |argv| {
      if argv[i] == "--mode" && i + 1 < |argv| {
        ValuesComeFromArguments(argv, i + 2, current.(mode := argv[i + 1]));
      } else if argv[i] == "--resolution" && i + 1 < |argv| {
        ValuesComeFromArguments(argv, i + 2, current.(resolution := argv[i + 1]));
      } else if argv[i] == "--refresh" && i + 1 < |argv| {
        ValuesComeFromArguments(argv, i + 2, current.(refreshRate := CNum.Atoi(argv[i + 1])));
      } else {
        ValuesComeFromArguments(argv, i + 1, current);
      }
    }
  }

  /** The scan of `argv` from `i` ends exactly at its end: no flag in it
      would take its value from arguments that follow. */
  predicate EndsAligned(argv: seq<string>, i: nat)
    decreases |argv| - i
  {
    if i >= |argv| then i == |argv|
    else if IsFlag(argv[i]) then i + 1 < |argv| && EndsAligned(argv, i + 2)
    else EndsAligned(argv, i + 1)
  }

  /** Arguments after an aligned prefix are scanned with the settings the
      prefix leaves, as if they came alone. */
  lemma {:induction false} ScanAppend(a: seq<string>, b: seq<string>, i: nat, current: Settings)
    requires EndsAligned(a, i)
    ensures ScanFrom(a + b, i, current) == ScanFrom(a + b, |a|, ScanFrom(a, i, current))
    decreases |a| - i
  {
    if i < |a| {
      var ab := a + b;
      assert ab[i] == a[i];
      if IsFlag(a[i]) {
        assert ab[i + 1] == a[i + 1];
        ScanAppend(a, b, i + 2, SetFlag(current, a[i], a[i + 1]));
      } else {
        ScanAppend(a, b, i + 1, current);
      }
    }
  }

  /** A flag's value is consumed, never read as a flag: after an aligned
      prefix, a flag and the argument after it (a flag or not) set the
      flag's field, and the scan goes on after both. */
  lemma ConsumedValueSkipped(a: seq<string>, flag: string, value: string, b: seq<string>, i: nat, current: Settings)
    requires EndsAligned(a, i) && IsFlag(flag)
    ensures ScanFrom(a + [flag, value] + b, i, current) ==
      ScanFrom(a + [flag, value] + b, |a| + 2, SetFlag(ScanFrom(a, i, current), flag, value))
  {
    var argv := a + [flag, value] + b;
    assert argv == a + ([flag, value] + b);
    ScanAppend(a, [flag, value] + b, i, current);
    assert argv[|a|] == flag && argv[|a| + 1] == value;
  }

  /** The field a flag sets is left alone by a scan that never meets that
      flag. */
  lemma {:induction false} FlagUntouched(argv: seq<string>, i: nat, current: Settings, flag: string)
    requires forall k :: i <= k < |argv| ==> argv[k] != flag
    ensures var r := ScanFrom(argv, i, current);
      (flag == "--mode" ==> r.mode == current.mode) &&
      (flag == "--resolution" ==> r.resolution == current.resolution) &&
      (flag == "--refresh" ==> r.refreshRate == current.refreshRate)
    decreases |argv| - i
  {
    if i < |argv| {
      if argv[i] == "--mode" && i + 1 < |argv| {
        FlagUntouched(argv, i + 2, current.(mode := argv[i + 1]), flag);
      } else if argv[i] == "--resolution" && i + 1 < |argv| {
        FlagUntouched(argv, i + 2, current.(resolution := argv[i + 1]), flag);
      } else if argv[i] == "--refresh" && i + 1 < |argv| {
        FlagUntouched(argv, i + 2, current.(refreshRate := CNum.Atoi(argv[i + 1])), flag);
      } else {
        FlagUntouched(argv, i + 1, current, flag);
      }
    }
  }

  /** A later `--mode`, `--resolution` or `--refresh` overwrites whatever
      the arguments before it set, and stands when the flag does not come
      again. */
  lemma LaterFlagWins(a: seq<string>, flag: string, value: string, b: seq<string>, i: nat, current: Settings)
    requires EndsAligned(a, i) && IsFlag(flag) && flag !in b
    ensures var r := ScanFrom(a + [flag, value] + b, i, current);
      (flag == "--mode" ==> r.mode == value) &&
      (flag == "--resolution" ==> r.resolution == value) &&
      (flag == "--refresh" ==> r.refreshRate == CNum.Atoi(value))
  {
    var argv := a + [flag, value] + b;
    ConsumedValueSkipped(a, flag, value, b, i, current);
    forall k | |a| + 2 <= k < |argv|
      ensures argv[k] != flag
    {
      assert argv[k] == b[k - |a| - 2];
    }
    FlagUntouched(argv, |a| + 2, SetFlag(ScanFrom(a, i, current), flag, value), flag);
  }

  /** `--refresh` goes through `atoi`: text that is not a number gives 0. */
  lemma NonNumericRefreshIsZero(value: string)
    requires value == [] || (!CNum.IsSpace(value[0]) && !CNum.IsDigit(value[0]) && value[0] != '+' && value[0] != '-')
    ensures Scan(["lcars", "--refresh", value]).refreshRate == 0
  {
    CNum.AtoiNonNumeric(value);
    var argv := ["lcars", "--refresh", value];
    assert argv[1] == "--refresh" && argv[2] == value;
    assert ScanFrom(argv, 1, Defaults) == ScanFrom(argv, 3, Defaults.(refreshRate := CNum.Atoi(value)));
  }
}
