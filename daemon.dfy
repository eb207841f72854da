// The start-up and policy helpers of main.c: number formatting, power-level
// clamping, calibration and region selection, the radio probe, the fallible
// step sequence of fmtx_init, the mixer poll, the name-owner callback and the
// tail of main.

module Daemon {
  import opened FmtxRecord
  import opened Audio
  import opened Signals
  import opened Properties

  // ---------------------------------------------------------------------------
  // "%u" formatting

  function DigitChar(d: nat): (c: char)
    requires d < 10
    ensures '0' <= c <= '9' && c as int - '0' as int == d
  {
    ('0' as int + d) as char
  }

  /** The decimal text of `n`, as g_snprintf's "%u" writes it. */
  function Decimal(n: nat): (t: string)
    ensures |t| >= 1 && forall i :: 0 <= i < |t| ==> '0' <= t[i] <= '9'
    ensures n >= 10 ==> t[0] != '0'
    decreases n
  {
    if n < 10 then [DigitChar(n)] else Decimal(n / 10) + [DigitChar(n % 10)]
  }

  /** The value of a string of decimal digits. */
  function DecimalValue(t: string): (n: nat)
    requires forall i :: 0 <= i < |t| ==> '0' <= t[i] <= '9'
    decreases |t|
  {
    if |t| == 0 then 0
    else DecimalValue(t[..|t| - 1]) * 10 + (t[|t| - 1] as int - '0' as int)
  }

  /** Reading back the written number gives the number. */
  lemma {:induction false} DecimalRoundTrip(n: nat)
    ensures DecimalValue(Decimal(n)) == n
    decreases n
  {
    if n >= 10 {
      var t := Decimal(n);
      assert t[..|t| - 1] == Decimal(n / 10);
      DecimalRoundTrip(n / 10);
    }
  }

  function Pow10(k: nat): (p: nat)
    ensures p >= 1
  {
    if k == 0 then 1 else 10 * Pow10(k - 1)
  }

  /** A number below 10^k has at most k digits. */
  lemma {:induction false} DecimalShort(n: nat, k: nat)
    requires 1 <= k && n < Pow10(k)
    ensures |Decimal(n)| <= k
    decreases k
  {
    if n >= 10 {
      assert n / 10 < Pow10(k - 1);
      DecimalShort(n / 10, k - 1);
    }
  }

  /** A number of at least 10^k has more than k digits. */
  lemma {:induction false} DecimalLong(n: nat, k: nat)
    requires Pow10(k) <= n
    ensures |Decimal(n)| > k
    decreases k
  {
    if k > 0 {
      assert n / 10 >= Pow10(k - 1);
      DecimalLong(n / 10, k - 1);
    }
  }

  /** The size of the `char buf[10]` the levels are formatted into. */
  const LEVEL_BUF_SIZE: nat := 10

  /** `g_snprintf(buf, sizeof(buf), "%u", n)` with `char buf[10]`: at most
      nine digits fit before the NUL. */
  function LevelText(n: nat): (t: string)
    ensures |t| <= LEVEL_BUF_SIZE - 1 && t <= Decimal(n)
  {
    var d := Decimal(n);
    if |d| < LEVEL_BUF_SIZE then d else d[..LEVEL_BUF_SIZE - 1]
  }

  /** Levels below 10^9 are written in full; a ten-digit level loses its
      last digit, so the chip reads a tenth of it. */
  lemma {:induction false} LevelTextCut(n: nat)
    ensures n < Pow10(9) ==> LevelText(n) == Decimal(n)
    ensures Pow10(9) <= n < Pow10(10) ==> LevelText(n) == Decimal(n / 10)
  {
    if n < Pow10(9) {
      DecimalShort(n, 9);
    } else if n < Pow10(10) {
      DecimalShort(n / 10, 9);
      DecimalLong(n / 10, 8);
      var d := Decimal(n);
      assert d == Decimal(n / 10) + [DigitChar(n % 10)];
      assert d[..9] == Decimal(n / 10);
    }
  }

  // ---------------------------------------------------------------------------
  // fmtx_set_power_level

  /** The lowest power level written to the chip. */
  const MIN_POWER_LEVEL: int := 88

  /** A level above max_power_level is refused; a lower one is raised to
      88; `ioOk` says whether power_level can be opened and written. */
  function SetPowerLevelSpec(s: Fmtx, level: int, ioOk: bool): (r: Outcome<Status>)
    ensures s.cfg.maxPowerLevel < level ==> r == Outcome(s, Rejected)
    ensures s.cfg.maxPowerLevel >= level && !ioOk ==> r == Outcome(s, Failed)
    ensures s.cfg.maxPowerLevel >= level && ioOk ==>
      r.ret == Applied &&
      r.obj.cfg == s.cfg.(powerLevel := if level < MIN_POWER_LEVEL then MIN_POWER_LEVEL else level) &&
      r.obj.cfg.powerLevel >= MIN_POWER_LEVEL &&
      r.obj == s.(cfg := r.obj.cfg,
                  trace := s.trace + [Write(FMTX_SYSFS_NODE + "power_level", LevelText(r.obj.cfg.powerLevel) + "\0")])
  {
    if s.cfg.maxPowerLevel < level then Outcome(s, Rejected)
    else
      var lv := if level < MIN_POWER_LEVEL then MIN_POWER_LEVEL else level;
      if !ioOk then Outcome(s, Failed)
      else Outcome(Emit(s.(cfg := s.cfg.(powerLevel := lv)), Write(FMTX_SYSFS_NODE + "power_level", LevelText(lv) + "\0")),
                   Applied)
  }

  method SetPowerLevel(obj: FmtxObject, level: int, ioOk: bool) returns (rv: Status)
    requires obj.Valid()
    modifies obj
    ensures obj.Valid()
    ensures Outcome(obj.rec, rv) == SetPowerLevelSpec(old(obj.rec), level, ioOk)
  {
    if obj.rec.cfg.maxPowerLevel < level {
      return Rejected;
    }
    var lv := level;
    if lv < MIN_POWER_LEVEL {
      lv := MIN_POWER_LEVEL;
    }
    if !ioOk {
      return Failed;
    }
    obj.rec := obj.rec.(cfg := obj.rec.cfg.(powerLevel := lv));
    obj.Record(Write(FMTX_SYSFS_NODE + "power_level", LevelText(lv) + "\0"));
    rv := Applied;
  }

  /** The floor is applied after the ceiling check, so a calibrated maximum
      below 88 still gives 88. */
  lemma {:induction false} PowerFloorBeatsCeiling(s: Fmtx, level: int)
    requires s.cfg.maxPowerLevel < MIN_POWER_LEVEL && level <= s.cfg.maxPowerLevel
    ensures SetPowerLevelSpec(s, level, true).ret == Applied
    ensures SetPowerLevelSpec(s, level, true).obj.cfg.powerLevel > s.cfg.maxPowerLevel
  {
  }

  // ---------------------------------------------------------------------------
  // fmtx_get_cal_power_level

  /** The calibration store: not available, the "fmtx_pwl" block not
      readable, or the unsigned level fields of its three records. */
  datatype CalBlock = CalUnavailable | BlockUnreadable | Levels(pl0: uint32, pl1: uint32, pl2: uint32)

  /** An unsigned int returned as a 32-bit two's-complement int. */
  function AsCInt(u: uint32): (i: int)
    ensures -0x8000_0000 <= i < 0x8000_0000
    ensures i % 0x1_0000_0000 == u
  {
    if u < 0x8000_0000 then u else u - 0x1_0000_0000
  }

  /** memcmp of the first bytes: the standard starts with the given name. */
  predicate HasPrefix(standard: string, name: string)
  {
    |name| <= |standard| && standard[..|name|] == name
  }

  /** The records are picked by position; the standard names stored in the
      block are not looked at. */
  function CalPowerLevel(standard: string, cal: CalBlock): (level: int)
    ensures cal == CalUnavailable ==> level == -1
    ensures cal == BlockUnreadable ==> level == 0
    ensures cal.Levels? && HasPrefix(standard, "fcc") ==> level == AsCInt(cal.pl0)
    ensures cal.Levels? && !HasPrefix(standard, "fcc") && HasPrefix(standard, "etsi") ==> level == AsCInt(cal.pl1)
    ensures cal.Levels? && !HasPrefix(standard, "fcc") && !HasPrefix(standard, "etsi") ==>
      level == if HasPrefix(standard, "anfr") then AsCInt(cal.pl2) else 0
  {
    match cal
    case CalUnavailable => -1
    case BlockUnreadable => 0
    case Levels(pl0, pl1, pl2) =>
      if HasPrefix(standard, "fcc") then AsCInt(pl0)
      else if HasPrefix(standard, "etsi") then AsCInt(pl1)
      else if HasPrefix(standard, "anfr") then AsCInt(pl2)
      else 0
  }

  // ---------------------------------------------------------------------------
  // The region code

  /** What a region code selects: the calibration standard whose power level
      applies, the pre-emphasis in microseconds, and the tuning step. */
  datatype Region = Region(calStandard: string, preemphasis: nat, step: uint32)

  const BAND_MIN: uint32 := 88100
  const BAND_MAX: uint32 := 107900

  function RegionOf(std: int): (r: Option<Region>)
    ensures r.Some? <==> 2 <= std <= 5
    ensures r.Some? ==> r.value.calStandard == (if std <= 3 then "etsi" else "fcc")
    ensures r.Some? ==> r.value.preemphasis == (if std % 2 == 0 then 50 else 75)
    ensures r.Some? ==> r.value.step == (if std <= 3 then 100 else 200)
  {
    if std == 2 then Some(Region("etsi", 50, 100))
    else if std == 3 then Some(Region("etsi", 75, 100))
    else if std == 4 then Some(Region("fcc", 50, 200))
    else if std == 5 then Some(Region("fcc", 75, 200))
    else None
  }

  /** Codes 2 and 3 take the second calibration record, 4 and 5 the first;
      the third ("anfr") record is never used. */
  lemma {:induction false} RegionPowerLevel(std: int, a: uint32, b: uint32, c: uint32)
    requires RegionOf(std).Some?
    ensures CalPowerLevel(RegionOf(std).value.calStandard, Levels(a, b, c)) ==
      if std <= 3 then AsCInt(b) else AsCInt(a)
  {
    if std <= 3 {
      assert "etsi"[..3] != "fcc" by { assert "etsi"[0] != "fcc"[0]; }
      assert HasPrefix("etsi", "etsi");
    } else {
      assert HasPrefix("fcc", "fcc");
    }
  }

  // ---------------------------------------------------------------------------
  // The radio probe

  function RadioPath(i: nat): string
  {
    "/dev/radio" + Decimal(i)
  }

  /** The probe loop of fmtx_init. `opens[i]` is what open() returns for
      /dev/radio<i>; a descriptor is accepted only when it is positive.
      Returns the last descriptor stored in dev_radio, whether one was
      accepted, and the paths tried. */
  method ProbeRadio(opens: seq<int>) returns (dev: int, found: bool, tried: seq<string>)
    requires |opens| == 2
    ensures found <==> opens[0] > 0 || opens[1] > 0
    ensures dev == if opens[0] > 0 then opens[0] else opens[1]
    ensures tried == if opens[0] > 0 then [RadioPath(0)] else [RadioPath(0), RadioPath(1)]
  {
    var i := 0;
    tried := [];
    found := false;
    dev := -1;
    while true
      invariant 0 <= i < 2
      invariant !found
      invariant tried == (if i == 0 then [] else [RadioPath(0)])
      invariant i == 1 ==> opens[0] <= 0
      decreases 2 - i
    {
      tried := tried + [RadioPath(i)];
      dev := opens[i];
      if dev > 0 {
        found := true;
        return;
      }
      i := i + 1;
      if i == 2 {
        return;
      }
    }
  }

  // ---------------------------------------------------------------------------
  // fmtx_init

  /** What the environment does during fmtx_init: whether each of the three
      set-up files can be opened and written, what open() returns for the
      two radio devices, the saved frequency (None: gconf reports an error),
      the first byte of the SystemInfo region value (None: no proxy, or the
      call fails), the calibration store, and whether the pre-emphasis,
      power-level and RDS writes succeed. */
  datatype InitEnv = InitEnv(
    pilotFrequencyOk: bool,
    pilotEnabledOk: bool,
    rdsPiOk: bool,
    radioOpens: seq<int>,
    savedFrequency: Option<int>,
    regionCode: Option<int>,
    cal: CalBlock,
    preemphasisOk: bool,
    powerOk: bool,
    rdsPsOk: bool,
    rdsTextOk: bool)

  /** `unsigned int f = gconf_client_get_int(...)`: the int is taken modulo
      2^32. */
  function ToUInt32(x: int): (u: uint32)
    ensures 0 <= x < 0x1_0000_0000 ==> u == x
    ensures (u - x) % 0x1_0000_0000 == 0
  {
    x % 0x1_0000_0000
  }

  /** The set-up writes: "19000" with its NUL, then "1" and "6099" without. */
  const PILOT_FREQUENCY_WRITE: Effect := Write(FMTX_SYSFS_NODE + "pilot_frequency", "19000\0")
  const PILOT_ENABLED_WRITE: Effect := Write(FMTX_SYSFS_NODE + "pilot_enabled", "1")
  const RDS_PI_WRITE: Effect := Write(FMTX_SYSFS_NODE + "rds_pi", "6099")

  /** fmtx_set_preemphasis_level: the level, formatted as the power level
      is, and its NUL, if the file can be written. */
  function SetPreemphasis(s: Fmtx, level: nat, ioOk: bool): (r: Fmtx)
    ensures r == s.(trace := r.trace)
    ensures r.trace == s.trace + if ioOk then [Write(FMTX_SYSFS_NODE + "region_preemphasis", LevelText(level) + "\0")] else []
  {
    if ioOk then Emit(s, Write(FMTX_SYSFS_NODE + "region_preemphasis", LevelText(level) + "\0")) else s
  }

  /** The region step of fmtx_init: a known code sets the power ceiling, the
      pre-emphasis (whose result is ignored), the step and the band; any
      other answer makes the device "n/a" and leaves the defaults. */
  function ApplyRegion(s: Fmtx, env: InitEnv): (r: Fmtx)
    requires Wf(s)
    ensures Wf(r)
    ensures r == s.(cfg := r.cfg, state := r.state, trace := r.trace)
    ensures r.cfg.devRadio == s.cfg.devRadio && r.cfg.frequency == s.cfg.frequency
    ensures env.regionCode.Some? && RegionOf(env.regionCode.value).Some? ==>
      r.state == s.state && r.cfg.freqMin == BAND_MIN && r.cfg.freqMax == BAND_MAX &&
      r.cfg.freqStep == RegionOf(env.regionCode.value).value.step &&
      r.cfg.maxPowerLevel == CalPowerLevel(RegionOf(env.regionCode.value).value.calStandard, env.cal)
    ensures !(env.regionCode.Some? && RegionOf(env.regionCode.value).Some?) ==> r == s.(state := NotAvailable)
  {
    if env.regionCode.Some? && RegionOf(env.regionCode.value).Some? then
      var reg := RegionOf(env.regionCode.value).value;
      var s1 := SetPreemphasis(s.(cfg := s.cfg.(maxPowerLevel := CalPowerLevel(reg.calStandard, env.cal))),
                               reg.preemphasis, env.preemphasisOk);
      s1.(cfg := s1.cfg.(freqStep := reg.step, freqMin := BAND_MIN, freqMax := BAND_MAX))
    else s.(state := NotAvailable)
  }

  /** Power at the ceiling, station name "Nokia   " and text " ", whose
      results are all ignored. */
  function InitRds(s: Fmtx, env: InitEnv): (r: Fmtx)
    ensures r == s.(cfg := r.cfg, trace := r.trace)
    ensures r.cfg == s.cfg.(powerLevel := r.cfg.powerLevel, rdsPs := r.cfg.rdsPs, rdsText := r.cfg.rdsText)
  {
    var s1 := SetPowerLevelSpec(s, s.cfg.maxPowerLevel, env.powerOk).obj;
    var s2 := SetRdsStationNameSpec(s1, Some("Nokia   "), env.rdsPsOk).obj;
    SetRdsTextSpec(s2, Some(" "), env.rdsTextOk).obj
  }

  /** The saved frequency, or freq_min when it is refused, then a disable. */
  function InitFinishSpec(s: Fmtx, f: uint32): (r: Outcome<Status>)
    requires Wf(s)
    ensures Wf(r.obj) && r.obj.cfg.devRadio == s.cfg.devRadio
    ensures s.state != Enabled ==> r.obj.state != Enabled
    ensures s.cfg.devRadio >= 0 && s.state != Enabled ==> r.ret == Applied
    ensures r.ret == Applied && s.state != NotAvailable ==> r.obj.state == Disabled && !r.obj.active
    ensures s.state == NotAvailable ==> r.obj.state == NotAvailable
  {
    var tuned := SetFrequencySpec(s, f, false);
    if tuned.ret == Failed then Outcome(tuned.obj, Failed)
    else
      var s1 := if tuned.ret == Rejected then SetFrequencySpec(tuned.obj, tuned.obj.cfg.freqMin, false).obj
                else tuned.obj;
      var off := EnableSpec(s1, false, false);
      Outcome(off.obj, if off.ret == Failed then Failed else Applied)
  }

  /** The record after the set-up writes and the probe. */
  function Probed(s: Fmtx, env: InitEnv): (r: Fmtx)
    requires |env.radioOpens| == 2
    ensures r == s.(cfg := r.cfg, trace := r.trace)
    ensures r.cfg == s.cfg.(devRadio := if env.radioOpens[0] > 0 then env.radioOpens[0] else env.radioOpens[1])
  {
    var s1 := Emit(Emit(Emit(s, PILOT_FREQUENCY_WRITE), PILOT_ENABLED_WRITE), RDS_PI_WRITE);
    s1.(cfg := s1.cfg.(devRadio := if env.radioOpens[0] > 0 then env.radioOpens[0] else env.radioOpens[1]))
  }

  /** fmtx_init on the record the signal connection left. No set frequency
      call in it tunes (the state is never "enabled" there), so the tuner
      outcome is fixed. */
  function InitSpec(s: Fmtx, env: InitEnv): (r: Outcome<Status>)
    requires Wf(s) && |env.radioOpens| == 2
    ensures Wf(r.obj) && r.ret in {Applied, Failed}
    ensures s.state != Enabled ==> r.obj.state != Enabled
    ensures !env.pilotFrequencyOk ==> r == Outcome(s, Failed)
  {
    if !env.pilotFrequencyOk then Outcome(s, Failed)
    else if !env.pilotEnabledOk then Outcome(Emit(s, PILOT_FREQUENCY_WRITE), Failed)
    else if !env.rdsPiOk then Outcome(Emit(Emit(s, PILOT_FREQUENCY_WRITE), PILOT_ENABLED_WRITE), Failed)
    else
      var s1 := Probed(s, env);
      if s1.cfg.devRadio <= 0 then Outcome(s1.(state := Error), Failed)
      else if env.savedFrequency.None? then Outcome(s1, Failed)
      else InitFinishSpec(InitRds(ApplyRegion(s1, env), env), ToUInt32(env.savedFrequency.value))
  }

  /** Initialisation succeeds exactly when the three set-up files are
      written, a radio device opens and the saved frequency can be read; it
      then leaves the transmitter disabled, or "n/a" for an unknown region. */
  lemma {:induction false} InitOutcome(s: Fmtx, env: InitEnv)
    requires Wf(s) && |env.radioOpens| == 2 && s.state == Initializing
    ensures var r := InitSpec(s, env);
      (r.ret == Applied <==>
         env.pilotFrequencyOk && env.pilotEnabledOk && env.rdsPiOk &&
         (env.radioOpens[0] > 0 || env.radioOpens[1] > 0) && env.savedFrequency.Some?) &&
      (r.ret == Applied ==> r.obj.state in {Disabled, NotAvailable} && r.obj.cfg.devRadio > 0) &&
      (r.ret == Applied && r.obj.state == Disabled ==> !r.obj.active)
  {
    if env.pilotFrequencyOk && env.pilotEnabledOk && env.rdsPiOk {
      var s1 := Probed(s, env);
      if s1.cfg.devRadio > 0 && env.savedFrequency.Some? {
        var s2 := InitRds(ApplyRegion(s1, env), env);
        assert s2.state in {Initializing, NotAvailable} && s2.cfg.devRadio > 0;
      }
    }
  }

  /** A failed probe is the only step of initialisation that sets
      "error". */
  lemma {:induction false} InitErrorState(s: Fmtx, env: InitEnv)
    requires Wf(s) && |env.radioOpens| == 2 && s.state == Initializing
    ensures InitSpec(s, env).obj.state == Error <==>
      env.pilotFrequencyOk && env.pilotEnabledOk && env.rdsPiOk &&
      env.radioOpens[0] <= 0 && env.radioOpens[1] <= 0
  {
    if env.pilotFrequencyOk && env.pilotEnabledOk && env.rdsPiOk {
      var s1 := Probed(s, env);
      if s1.cfg.devRadio > 0 && env.savedFrequency.Some? {
        var s2 := InitRds(ApplyRegion(s1, env), env);
        assert s2.state in {Initializing, NotAvailable};
      }
    }
  }

  /** With a known region, the saved frequency is kept when it lies on the
      region's grid; otherwise the bottom of the band is used. */
  lemma {:induction false} InitFrequency(s: Fmtx, env: InitEnv)
    requires Wf(s) && |env.radioOpens| == 2 && s.state == Initializing
    requires InitSpec(s, env).ret == Applied
    requires env.regionCode.Some? && RegionOf(env.regionCode.value).Some?
    ensures var f := ToUInt32(env.savedFrequency.value);
      InitSpec(s, env).obj.cfg.frequency ==
        if OnGrid(BAND_MIN, BAND_MAX, RegionOf(env.regionCode.value).value.step, f) then f else BAND_MIN
  {
    var s2 := InitRds(ApplyRegion(Probed(s, env), env), env);
    var f := ToUInt32(env.savedFrequency.value);
    assert s2.cfg.freqMin == BAND_MIN && s2.cfg.freqMax == BAND_MAX && s2.cfg.devRadio > 0;
    var tuned := SetFrequencySpec(s2, f, false);
    GridStep(BAND_MIN, s2.cfg.freqStep, BAND_MIN, BAND_MIN);
    assert OnGridOf(tuned.obj, BAND_MIN);
  }

  /** With an unknown region the band keeps its initial bounds, so the
      stored frequency ends up as freq_min, which is 0 on a fresh record. */
  lemma {:induction false} InitUnknownRegion(s: Fmtx, env: InitEnv)
    requires Wf(s) && |env.radioOpens| == 2 && s.state == Initializing
    requires InitSpec(s, env).ret == Applied
    requires !(env.regionCode.Some? && RegionOf(env.regionCode.value).Some?)
    requires s.cfg.freqMin == s.cfg.freqMax
    ensures InitSpec(s, env).obj.state == NotAvailable
    ensures InitSpec(s, env).obj.cfg.frequency == s.cfg.freqMin
  {
    var s2 := InitRds(ApplyRegion(Probed(s, env), env), env);
    assert s2.state == NotAvailable && s2.cfg.freqMin == s.cfg.freqMin == s2.cfg.freqMax;
    var tuned := SetFrequencySpec(s2, ToUInt32(env.savedFrequency.value), false);
    assert (s2.cfg.freqMin - s2.cfg.freqMin) % s2.cfg.freqStep == 0;
    assert OnGridOf(tuned.obj, s2.cfg.freqMin);
  }

  method SetPreemphasisLevel(obj: FmtxObject, level: nat, ioOk: bool)
    modifies obj
    ensures obj.rec == SetPreemphasis(old(obj.rec), level, ioOk)
  {
    if ioOk {
      obj.Record(Write(FMTX_SYSFS_NODE + "region_preemphasis", LevelText(level) + "\0"));
    }
  }

  method SetRegion(obj: FmtxObject, env: InitEnv)
    requires obj.Valid()
    modifies obj
    ensures obj.Valid()
    ensures obj.rec == ApplyRegion(old(obj.rec), env)
  {
    if env.regionCode.None? || RegionOf(env.regionCode.value).None? {
      obj.rec := obj.rec.(state := NotAvailable);
      return;
    }
    var reg := RegionOf(env.regionCode.value).value;
    obj.rec := obj.rec.(cfg := obj.rec.cfg.(maxPowerLevel := CalPowerLevel(reg.calStandard, env.cal)));
    SetPreemphasisLevel(obj, reg.preemphasis, env.preemphasisOk);
    obj.rec := obj.rec.(cfg := obj.rec.cfg.(freqStep := reg.step));
    obj.rec := obj.rec.(cfg := obj.rec.cfg.(freqMin := BAND_MIN, freqMax := BAND_MAX));
  }

  method InitFinish(obj: FmtxObject, f: uint32) returns (rv: Status)
    requires obj.Valid()
    modifies obj
    ensures obj.Valid()
    ensures Outcome(obj.rec, rv) == InitFinishSpec(old(obj.rec), f)
  {
    var fd := SetFrequency(obj, f, false);
    if fd == Failed {
      return Failed;
    }
    if fd == Rejected {
      var _ := SetFrequency(obj, obj.rec.cfg.freqMin, false);
    }
    var off := Enable(obj, false, false);
    rv := if off == Failed then Failed else Applied;
  }

  method Init(obj: FmtxObject, env: InitEnv) returns (rv: Status)
    requires obj.Valid() && |env.radioOpens| == 2
    modifies obj
    ensures obj.Valid()
    ensures Outcome(obj.rec, rv) == InitSpec(old(obj.rec), env)
  {
    if !env.pilotFrequencyOk {
      return Failed;
    }
    obj.Record(PILOT_FREQUENCY_WRITE);
    if !env.pilotEnabledOk {
      return Failed;
    }
    obj.Record(PILOT_ENABLED_WRITE);
    if !env.rdsPiOk {
      return Failed;
    }
    obj.Record(RDS_PI_WRITE);
    var dev, found, _ := ProbeRadio(env.radioOpens);
    obj.rec := obj.rec.(cfg := obj.rec.cfg.(devRadio := dev));
    if !found {
      obj.rec := obj.rec.(state := Error);
      return Failed;
    }
    if env.savedFrequency.None? {
      return Failed;
    }
    var f := ToUInt32(env.savedFrequency.value);
    SetRegion(obj, env);
    var _ := SetPowerLevel(obj, obj.rec.cfg.maxPowerLevel, env.powerOk);
    var _ := SetRdsStationName(obj, Some("Nokia   "), env.rdsPsOk);
    var _ := SetRdsText(obj, Some(" "), env.rdsTextOk);
    rv := InitFinish(obj, f);
  }

  // ---------------------------------------------------------------------------
  // check_mixer

  /** The one-second mixer poll: `idx` is the enum item the "FMTX Function"
      element reports. The pilot is re-evaluated only on a change, and the
      poll always asks to run again. */
  function CheckMixerSpec(s: Fmtx, idx: uint32, tuneOk: bool): (r: Outcome<bool>)
    requires Wf(s)
    ensures r.ret
    ensures !s.cond.mixerElem ==> r.obj == s
    ensures s.cond.mixerElem ==> r.obj.cond == s.cond.(mixerInited := idx != 0)
    ensures s.cond.mixerElem && s.cond.mixerInited == (idx != 0) ==> r.obj == s
    ensures Safe(s) ==> Safe(r.obj)
  {
    if !s.cond.mixerElem then Outcome(s, true)
    else
      var s1 := s.(cond := s.cond.(mixerInited := idx != 0));
      Outcome(if s1.cond.mixerInited != s.cond.mixerInited then TogglePilotSpec(s1, tuneOk) else s1, true)
  }

  /** Polling again with the same reading changes nothing. */
  lemma {:induction false} CheckMixerSettles(s: Fmtx, idx: uint32, tuneOk: bool)
    requires Wf(s)
    ensures var r := CheckMixerSpec(s, idx, tuneOk).obj;
      Wf(r) && CheckMixerSpec(r, idx, tuneOk).obj == r
  {
    var r := CheckMixerSpec(s, idx, tuneOk).obj;
    assert r.cfg == s.cfg;
  }

  method CheckMixer(obj: FmtxObject, idx: uint32, tuneOk: bool) returns (again: bool)
    requires obj.Valid()
    modifies obj
    ensures obj.Valid()
    ensures Outcome(obj.rec, again) == CheckMixerSpec(old(obj.rec), idx, tuneOk)
  {
    var was := obj.rec.cond.mixerInited;
    if obj.rec.cond.mixerElem {
      obj.rec := obj.rec.(cond := obj.rec.cond.(mixerInited := idx != 0));
      if obj.rec.cond.mixerInited != was {
        TogglePilot(obj, tuneOk);
      }
    }
    again := true;
  }

  // ---------------------------------------------------------------------------
  // nameownerchanged_cb

  const OHM_NAME: string := "org.freedesktop.ohm"

  /** A new owner of the policy service's name is told the current state;
      the callback's result is FALSE either way. */
  function NameOwnerChangedSpec(s: Fmtx, name: string): (r: Outcome<bool>)
    ensures !r.ret
    ensures name == OHM_NAME ==> r.obj == s.(trace := s.trace + [Info(Connected(s.state))])
    ensures name != OHM_NAME ==> r.obj == s
  {
    if name == OHM_NAME then EmitInfoSpec(s) else Outcome(s, false)
  }

  // ---------------------------------------------------------------------------
  // main

  /** The tail of main after the signals are connected and the mixer
      element looked up: unless the state is already "error", initialise;
      on success send the info signal and arm the exit timer unless
      transmitting. The result says whether the main loop runs. */
  function LaunchSpec(s: Fmtx, env: InitEnv): (r: Outcome<bool>)
    requires Wf(s) && |env.radioOpens| == 2
    ensures Wf(r.obj)
    ensures s.state != Enabled ==> r.obj.state != Enabled
    ensures s.state == Error ==> r == Outcome(s, false)
    ensures r.ret ==> r.obj.state == Enabled || r.obj.timers.exit
  {
    if s.state == Error then Outcome(s, false)
    else
      var init := InitSpec(s, env);
      if init.ret == Failed then Outcome(init.obj, false)
      else
        var s1 := EmitInfoSpec(init.obj).obj;
        Outcome(if s1.state != Enabled then ArmTimer(s1, ExitTimer) else s1, true)
  }

  /** From a record not yet initialised, the main loop runs exactly when
      initialisation succeeds; the transmitter is then off and the exit
      timer armed, so an unused daemon ends after a minute. */
  lemma {:induction false} LaunchArmsExit(s: Fmtx, env: InitEnv)
    requires Wf(s) && |env.radioOpens| == 2 && s.state in {Initializing, Error}
    ensures var r := LaunchSpec(s, env);
      (r.ret <==> s.state == Initializing && env.pilotFrequencyOk && env.pilotEnabledOk && env.rdsPiOk &&
                  (env.radioOpens[0] > 0 || env.radioOpens[1] > 0) && env.savedFrequency.Some?) &&
      (r.ret ==> r.obj.state in {Disabled, NotAvailable} && r.obj.timers.exit &&
                 r.obj.trace[|r.obj.trace| - 2..] == [Info("0"), Arm(ExitTimer, EXIT_DELAY_MS)])
  {
    if s.state == Initializing {
      InitOutcome(s, env);
    }
  }

  /** main from the registered object on: connect the signals, record
      whether the mixer element was found, then launch. */
  function StartupSpec(s: Fmtx, bus: BusEnv, mixerFound: bool, env: InitEnv, tuneOk: bool): (r: Outcome<bool>)
    requires Wf(s) && |env.radioOpens| == 2
    ensures Wf(r.obj)
    ensures r.ret ==> r.obj.state == Enabled || r.obj.timers.exit
  {
    var s1 := ConnectSignalsSpec(s, bus, tuneOk);
    LaunchSpec(s1.(cond := s1.cond.(mixerElem := mixerFound)), env)
  }

  /** From the fresh record, the main loop runs exactly when every proxy is
      created and initialisation succeeds, and it then runs with the exit
      timer armed. */
  lemma {:induction false} StartupArmsExit(bus: BusEnv, mixerFound: bool, env: InitEnv, tuneOk: bool)
    requires |env.radioOpens| == 2
    ensures var r := StartupSpec(InitialObject(), bus, mixerFound, env, tuneOk);
      (r.ret <==> !ProxyFailed(bus) && env.pilotFrequencyOk && env.pilotEnabledOk && env.rdsPiOk &&
                  (env.radioOpens[0] > 0 || env.radioOpens[1] > 0) && env.savedFrequency.Some?) &&
      (r.ret ==> r.obj.state in {Disabled, NotAvailable} && r.obj.timers.exit)
  {
    var s := InitialObject();
    ConnectSignalsOutcome(s, bus, tuneOk);
    var s1 := ConnectSignalsSpec(s, bus, tuneOk);
    LaunchArmsExit(s1.(cond := s1.cond.(mixerElem := mixerFound)), env);
  }

  method Launch(obj: FmtxObject, env: InitEnv) returns (runs: bool)
    requires obj.Valid() && |env.radioOpens| == 2
    modifies obj
    ensures obj.Valid()
    ensures Outcome(obj.rec, runs) == LaunchSpec(old(obj.rec), env)
  {
    if obj.rec.state == Error {
      return false;
    }
    var rc := Init(obj, env);
    if rc == Failed {
      return false;
    }
    var _ := EmitInfo(obj);
    if obj.rec.state != Enabled {
      obj.AddTimeout(ExitTimer);
    }
    runs := true;
  }

  method Startup(obj: FmtxObject, bus: BusEnv, mixerFound: bool, env: InitEnv, tuneOk: bool) returns (runs: bool)
    requires obj.Valid() && |env.radioOpens| == 2
    modifies obj
    ensures obj.Valid()
    ensures Outcome(obj.rec, runs) == StartupSpec(old(obj.rec), bus, mixerFound, env, tuneOk)
  {
    ConnectSignals(obj, bus, tuneOk);
    obj.rec := obj.rec.(cond := obj.rec.cond.(mixerElem := mixerFound));
    runs := Launch(obj, env);
  }
}
