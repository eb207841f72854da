// The transmitter state machine of audio.c: tuning on the frequency grid,
// enabling and disabling, the pilot tone "chirp" with its auto-resume, and the
// idle and pilot timer callbacks.

module Audio {
  import opened FmtxRecord

  // ---------------------------------------------------------------------------
  // The frequency grid

  /** `f` is one of freq_min, freq_min + step, freq_min + 2*step, ... and not
      above freq_max. */
  predicate OnGrid(min: uint32, max: uint32, step: uint32, f: int)
    requires step > 0
  {
    min <= f <= max && (f - min) % step == 0
  }

  predicate OnGridOf(s: Fmtx, f: int)
    requires Wf(s)
  {
    OnGrid(s.cfg.freqMin, s.cfg.freqMax, s.cfg.freqStep, f)
  }

  lemma {:induction false} MulAtLeast(a: int, step: int)
    requires a >= 1 && step > 0
    ensures a * step >= step
  {
    assert a * step == (a - 1) * step + step;
  }

  /** Euclidean remainder is unique. */
  lemma {:induction false} ModUnique(x: int, step: int, q: int, d: int)
    requires step > 0 && x == q * step + d && 0 <= d < step
    ensures x % step == d
  {
    var q', r := x / step, x % step;
    assert x == q' * step + r;
    assert q * step - q' * step == (q - q') * step;
    assert (q - q') * step == r - d;
    if q' < q {
      MulAtLeast(q - q', step);
    } else if q' > q {
      assert (q' - q) * step == d - r;
      MulAtLeast(q' - q, step);
    }
  }

  /** One step along the grid lands on the grid and jumps over no grid point. */
  lemma {:induction false} GridStep(min: int, step: int, f: int, g: int)
    requires step > 0 && min <= f && (f - min) % step == 0
    ensures (f + step - min) % step == 0
    ensures f < g < f + step ==> (g - min) % step != 0
  {
    var q := (f - min) / step;
    assert f - min == q * step;
    ModUnique(f + step - min, step, q + 1, 0);
    if f < g < f + step {
      ModUnique(g - min, step, q, g - f);
    }
  }

  /** The loop of fmtx_set_frequency: walk the grid from freq_min until the
      requested value is met or freq_max is passed. */
  method ScanGrid(min: uint32, max: uint32, step: uint32, frequency: uint32) returns (f: uint32)
    requires step > 0 && max + step < 0x1_0000_0000 && min <= max
    ensures f <= max <==> OnGrid(min, max, step, frequency)
    ensures f <= max ==> f == frequency
    ensures f > max ==> f <= max + step
  {
    f := min;
    while f <= max
      invariant min <= f <= max + step
      invariant (f - min) % step == 0
      invariant !(min <= frequency < f && (frequency - min) % step == 0)
      decreases max + step - f
    {
      if frequency == f {
        break;
      }
      GridStep(min, step, f, frequency);
      f := f + step;
    }
  }

  // ---------------------------------------------------------------------------
  // fmtx_set_frequency

  /** Store `frequency` if it lies exactly on the grid (no snapping), save it,
      and re-tune when transmitting; `tuneOk` is what the tuner ioctls do. */
  function SetFrequencySpec(s: Fmtx, frequency: uint32, tuneOk: bool): (r: Outcome<Status>)
    requires Wf(s)
    ensures r.obj == s.(cfg := r.obj.cfg, trace := r.obj.trace)
    ensures r.obj.state == s.state
    ensures r.obj.cfg == s.cfg.(frequency := r.obj.cfg.frequency)
    ensures s.cfg.devRadio < 0 ==> r == Outcome(s, Failed)
    ensures s.cfg.devRadio >= 0 && !OnGridOf(s, frequency) ==> r == Outcome(s, Rejected)
    ensures s.cfg.devRadio >= 0 && OnGridOf(s, frequency) ==>
      r.obj.cfg.frequency == frequency &&
      r.ret == (if s.state != Enabled || tuneOk then Applied else Failed) &&
      r.obj.trace == s.trace + [SaveFrequency(frequency)] +
                     (if s.state == Enabled then [Tune(frequency, tuneOk)] else [])
  {
    if s.cfg.devRadio < 0 then Outcome(s, Failed)
    else if s.cfg.freqMax < s.cfg.freqMin then Outcome(s, Rejected)
    else if !OnGridOf(s, frequency) then Outcome(s, Rejected)
    else
      var s1 := Emit(s.(cfg := s.cfg.(frequency := frequency)), SaveFrequency(frequency));
      if s.state != Enabled then Outcome(s1, Applied)
      else Outcome(Emit(s1, Tune(frequency, tuneOk)), if tuneOk then Applied else Failed)
  }

  /** fmtx_set_mute: the ioctl's failure is only reported. */
  method SetMute(obj: FmtxObject, on: bool)
    modifies obj
    ensures obj.rec == Emit(old(obj.rec), Mute(on))
  {
    obj.Record(Mute(on));
  }

  method SetFrequency(obj: FmtxObject, frequency: uint32, tuneOk: bool) returns (rv: Status)
    requires obj.Valid()
    modifies obj
    ensures obj.Valid()
    ensures Outcome(obj.rec, rv) == SetFrequencySpec(old(obj.rec), frequency, tuneOk)
  {
    if obj.rec.cfg.devRadio < 0 {
      return Failed;
    }
    if obj.rec.cfg.freqMax < obj.rec.cfg.freqMin {
      return Rejected;
    }
    var f := ScanGrid(obj.rec.cfg.freqMin, obj.rec.cfg.freqMax, obj.rec.cfg.freqStep, frequency);
    if f > obj.rec.cfg.freqMax {
      return Rejected;
    }
    obj.rec := obj.rec.(cfg := obj.rec.cfg.(frequency := f));
    obj.Record(SaveFrequency(f));
    if obj.rec.state != Enabled {
      return Applied;
    }
    obj.Record(Tune(f, tuneOk));
    rv := if tuneOk then Applied else Failed;
  }

  // ---------------------------------------------------------------------------
  // The pilot tone

  /** The four tone parameters written to sysfs: frequency, deviation,
      off time and on time. */
  datatype Tone = Tone(frequency: string, deviation: string, offTime: string, onTime: string)

  const CHIRP: Tone := Tone("1760", "6750", "2000", "50")
  const SILENT: Tone := Tone("0", "0", "0", "0")

  function ToneWrites(t: Tone): (w: seq<Effect>)
  {
    [SysfsWrite("tone_frequency", t.frequency), SysfsWrite("tone_deviation", t.deviation),
     SysfsWrite("tone_off_time", t.offTime), SysfsWrite("tone_on_time", t.onTime)]
  }

  /** The four fire-and-forget tone writes; they are recorded even when
      the sysfs file cannot be opened, as SysfsWrite says. */
  function WriteTone(s: Fmtx, t: Tone): (r: Fmtx)
    ensures r == s.(trace := r.trace)
    ensures |r.trace| == |s.trace| + 4 && r.trace[..|s.trace|] == s.trace
    ensures r.trace[|r.trace| - 4..] == ToneWrites(t)
  {
    s.(trace := s.trace + ToneWrites(t))
  }

  /** The chirp branch of fmtx_toggle_pilot: the tone on, and the pilot
      timer armed unless it already is. */
  function Chirp(s: Fmtx): (r: Fmtx)
    ensures r == s.(timers := s.timers.(pilot := true), trace := r.trace)
    ensures r.trace == s.trace + ToneWrites(CHIRP) + (if s.timers.pilot then [] else [Arm(PilotTimer, PILOT_DELAY_MS)])
  {
    var s1 := WriteTone(s, CHIRP);
    if s1.timers.pilot then s1 else ArmTimer(s1, PilotTimer)
  }

  /** The transmitter is on but the audio route is not fully engaged. */
  predicate ShouldChirp(s: Fmtx)
  {
    s.state == Enabled && !(s.cond.mixerInited && s.cond.paRunning)
  }

  /** The daemon switched itself off earlier, audio is playing and nothing
      blocks transmission any more. */
  predicate AutoResume(s: Fmtx)
  {
    s.active && s.cond.paRunning && !s.cond.offline && !s.cond.hpConnected && !s.cond.callActive
  }

  /** fmtx_enable(TRUE) switches a transmitter on exactly when the device
      is available, nothing blocks it, a radio is open and the stored
      frequency lies on the grid. */
  predicate SwitchOnSucceeds(s: Fmtx)
    requires Wf(s)
  {
    s.state != NotAvailable && !s.cond.offline && !s.cond.hpConnected &&
    s.cfg.devRadio >= 0 && OnGridOf(s, s.cfg.frequency)
  }

  /** The effects of a successful switch-on from `s` to `r`: unmute, store
      the frequency, save the flag as TRUE, the pilot (the chirp when the
      audio route is not engaged, silence last when it is), and the re-tune
      at the very end. */
  predicate SwitchedOn(s: Fmtx, r: Fmtx, tuneOk: bool)
  {
    var t := r.trace; var f := s.cfg.frequency;
    |s.trace| + 9 <= |t| &&
    t[|s.trace|..|s.trace| + 3] == [Mute(false), SaveFrequency(f), SaveEnabled(true)] &&
    t[|t| - 2..] == [SaveFrequency(f), Tune(f, tuneOk)] &&
    (!(s.cond.mixerInited && s.cond.paRunning) ==>
      t[|s.trace| + 3..|s.trace| + 7] == ToneWrites(CHIRP) && r.timers.pilot) &&
    (s.cond.mixerInited && s.cond.paRunning ==> t[|t| - 6..|t| - 2] == ToneWrites(SILENT))
  }

  /** The frequency save fmtx_set_frequency makes on a transmitter that is
      not on: one, when a radio is open and the frequency is on the grid. */
  function Resaved(s: Fmtx): seq<Effect>
    requires Wf(s)
  {
    if s.cfg.devRadio >= 0 && OnGridOf(s, s.cfg.frequency) then [SaveFrequency(s.cfg.frequency)] else []
  }

  // fmtx_enable, the code after its `out:` label, and fmtx_toggle_pilot call
  // one another. The measure is 6 * active + a constant: fmtx_enable(FALSE)
  // clears `active` before it toggles the pilot, and the pilot toggle clears
  // it before it calls fmtx_enable(TRUE).

  function EnableSpec(s: Fmtx, enable: bool, tuneOk: bool): (r: Outcome<Status>)
    requires Wf(s)
    ensures r.obj.cfg == s.cfg && r.obj.cond == s.cond && r.obj.exited == s.exited && r.obj.timers.exit == s.timers.exit
    ensures Safe(s) ==> Safe(r.obj)
    ensures s.trace <= r.obj.trace
    ensures s.state == NotAvailable ==> r == Outcome(s, Rejected)
    ensures enable && s.state == Enabled ==> r == Outcome(s, Applied)
    ensures enable && r.ret == Applied ==> r.obj.state == Enabled
    ensures enable ==> (r.obj.state == Enabled <==> s.state == Enabled || SwitchOnSucceeds(s))
    ensures enable && s.state !in {NotAvailable, Enabled} && (s.cond.offline || s.cond.hpConnected) ==>
      r == Outcome(Emit(s, Mute(true)).(state := Disabled), Rejected)
    ensures enable && s.state !in {NotAvailable, Enabled} && !s.cond.offline && !s.cond.hpConnected ==>
      r.ret == (if s.cfg.devRadio < 0 then Failed
                else if OnGridOf(s, s.cfg.frequency) then Applied else Rejected)
    ensures !enable && s.state != NotAvailable ==>
      r.ret == Applied && r.obj.state == Disabled && !r.obj.active && !r.obj.timers.idle
    ensures !s.active ==> !r.obj.active
    ensures enable && !s.active ==> r.obj.timers.idle == s.timers.idle
    decreases if s.active then 11 else 5
  {
    if s.state == NotAvailable then Outcome(s, Rejected)
    else if enable then
      if s.state == Enabled then Outcome(s, Applied) else SwitchOn(s, tuneOk)
    else SwitchOff(s, tuneOk)
  }

  /** The enable branch of fmtx_enable from a state other than "enabled":
      refused while offline or with headphones in, otherwise unmute and
      tune first (the state is not yet "enabled", so this only stores and
      saves the frequency), and only then switch on. */
  function SwitchOn(s: Fmtx, tuneOk: bool): (r: Outcome<Status>)
    requires Wf(s) && s.state !in {NotAvailable, Enabled}
    ensures r.obj.cfg == s.cfg && r.obj.cond == s.cond && r.obj.exited == s.exited && r.obj.timers.exit == s.timers.exit
    ensures Safe(s) ==> Safe(r.obj)
    ensures s.trace <= r.obj.trace
    ensures r.obj.state == Enabled <==> r.ret == Applied
    ensures !s.active ==> !r.obj.active && r.obj.timers.idle == s.timers.idle
    ensures s.cond.offline || s.cond.hpConnected ==>
      r == Outcome(Emit(s, Mute(true)).(state := Disabled), Rejected)
    ensures !s.cond.offline && !s.cond.hpConnected ==>
      r.ret == (if s.cfg.devRadio < 0 then Failed
                else if OnGridOf(s, s.cfg.frequency) then Applied else Rejected)
    decreases if s.active then 10 else 4
  {
    if s.cond.offline || s.cond.hpConnected then
      Outcome(Emit(s, Mute(true)).(state := Disabled), Rejected)
    else
      var tuned := SetFrequencySpec(Emit(s, Mute(false)), s.cfg.frequency, tuneOk);
      if tuned.ret != Applied then Outcome(Emit(tuned.obj, Mute(true)), tuned.ret)
      else SwitchOnTuned(s, tuned.obj, tuneOk)
  }

  /** The rest of the enable branch once the first tune step succeeded. */
  function SwitchOnTuned(s: Fmtx, tuned: Fmtx, tuneOk: bool): (r: Outcome<Status>)
    requires Wf(s) && Wf(tuned) && tuned.cfg == s.cfg && tuned.cond == s.cond && tuned.exited == s.exited
    requires tuned.timers == s.timers && tuned.active == s.active && s.trace <= tuned.trace
    ensures r.ret == Applied && r.obj.state == Enabled
    ensures r.obj.cfg == s.cfg && r.obj.cond == s.cond && r.obj.exited == s.exited && r.obj.timers.exit == s.timers.exit
    ensures !s.cond.offline && !s.cond.hpConnected ==> Safe(r.obj)
    ensures s.trace <= r.obj.trace
    ensures !s.active ==> !r.obj.active && r.obj.timers.idle == s.timers.idle
    decreases if s.active then 9 else 3
  {
    EnableOut(tuned.(state := Enabled), true, tuneOk)
  }

  /** The disable branch of fmtx_enable. */
  function SwitchOff(s: Fmtx, tuneOk: bool): (r: Outcome<Status>)
    requires Wf(s) && s.state != NotAvailable
    ensures r.obj.cfg == s.cfg && r.obj.cond == s.cond && r.obj.exited == s.exited && r.obj.timers.exit == s.timers.exit
    ensures Safe(r.obj)
    ensures s.trace <= r.obj.trace
    ensures r.ret == Applied && r.obj.state == Disabled && !r.obj.active && !r.obj.timers.idle
    ensures s.state == Disabled ==> r == Outcome(CancelTimer(s.(active := false), IdleTimer), Applied)
    decreases if s.active then 10 else 4
  {
    var s1 := CancelTimer(s.(active := false), IdleTimer);
    if s.state != Disabled then EnableOut(Emit(s1, Mute(true)).(state := Disabled), false, tuneOk)
    else Outcome(s1, Applied)
  }

  /** Save the flag, toggle the pilot and re-tune; the re-tune's result is
      ignored. */
  function EnableOut(s: Fmtx, enable: bool, tuneOk: bool): (r: Outcome<Status>)
    requires Wf(s)
    ensures r.ret == Applied
    ensures r.obj.cfg == s.cfg && r.obj.cond == s.cond && r.obj.exited == s.exited && r.obj.timers.exit == s.timers.exit
    ensures Safe(s) ==> Safe(r.obj)
    ensures s.state == Enabled ==> r.obj.state == Enabled
    ensures !s.active ==>
      r.obj.state == s.state && !r.obj.active && r.obj.timers.idle == s.timers.idle
    ensures s.trace + [SaveEnabled(enable)] <= r.obj.trace
    decreases if s.active then 8 else 2
  {
    var s1 := TogglePilotSpec(Emit(s, SaveEnabled(enable)), tuneOk);
    Outcome(SetFrequencySpec(s1, s1.cfg.frequency, tuneOk).obj, Applied)
  }

  /** The auto-resume of fmtx_toggle_pilot, after it has cancelled the idle
      timer and cleared `active`: switch on again and queue the change and
      info signals. */
  function Resume(s: Fmtx, tuneOk: bool): (r: Fmtx)
    requires Wf(s) && !s.active
    ensures r.cfg == s.cfg && r.cond == s.cond && r.exited == s.exited && r.timers.exit == s.timers.exit
    ensures Safe(s) ==> Safe(r)
    ensures r.state == Enabled <==> s.state == Enabled || SwitchOnSucceeds(s)
    ensures !r.active && r.timers.idle == s.timers.idle
    ensures s.trace <= r.trace
    decreases 6
  {
    Notify(EnableSpec(s, true, tuneOk).obj)
  }

  /** `g_idle_add(emit_changed)` then `g_idle_add(emit_info)`. */
  function Notify(s: Fmtx): (r: Fmtx)
  {
    s.(trace := s.trace + [QueueChanged, QueueInfo])
  }

  function TogglePilotSpec(s: Fmtx, tuneOk: bool): (r: Fmtx)
    requires Wf(s)
    ensures r.cfg == s.cfg && r.cond == s.cond && r.exited == s.exited && r.timers.exit == s.timers.exit
    ensures Safe(s) ==> Safe(r)
    ensures s.state == Enabled ==> r.state == Enabled
    ensures !s.active ==> r.state == s.state && !r.active && r.timers.idle == s.timers.idle
    ensures s.trace <= r.trace
    ensures ShouldChirp(s) ==> r == Chirp(s)
    ensures !ShouldChirp(s) ==>
      |s.trace| + 4 <= |r.trace| && r.trace[|r.trace| - 4..] == ToneWrites(SILENT)
    ensures !ShouldChirp(s) && !AutoResume(s) ==> r == WriteTone(s, SILENT)
    ensures !ShouldChirp(s) && AutoResume(s) ==>
      !r.active && !r.timers.idle && (r.state == Enabled <==> s.state == Enabled || SwitchOnSucceeds(s))
    decreases if s.active then 7 else 1
  {
    if !ShouldChirp(s) then
      var s1 := if AutoResume(s) then Resume(CancelTimer(s, IdleTimer).(active := false), tuneOk) else s;
      WriteTone(s1, SILENT)
    else
      Chirp(s)
  }

  method Enable(obj: FmtxObject, enable: bool, tuneOk: bool) returns (rv: Status)
    requires obj.Valid()
    modifies obj
    ensures obj.Valid()
    ensures Outcome(obj.rec, rv) == EnableSpec(old(obj.rec), enable, tuneOk)
    decreases if obj.rec.active then 11 else 5
  {
    if obj.rec.state == NotAvailable {
      return Rejected;
    }
    if enable {
      if obj.rec.state == Enabled {
        return Applied;
      }
      rv := SwitchOnTx(obj, tuneOk);
    } else {
      rv := SwitchOffTx(obj, tuneOk);
    }
  }

  /** The enable branch of fmtx_enable from a state other than "enabled". */
  method SwitchOnTx(obj: FmtxObject, tuneOk: bool) returns (rv: Status)
    requires obj.Valid() && obj.rec.state !in {NotAvailable, Enabled}
    modifies obj
    ensures obj.Valid()
    ensures Outcome(obj.rec, rv) == SwitchOn(old(obj.rec), tuneOk)
    decreases if obj.rec.active then 10 else 4
  {
    if obj.rec.cond.offline || obj.rec.cond.hpConnected {
      SetMute(obj, true);
      obj.rec := obj.rec.(state := Disabled);
      return Rejected;
    }
    SetMute(obj, false);
    rv := SetFrequency(obj, obj.rec.cfg.frequency, tuneOk);
    if rv != Applied {
      SetMute(obj, true);
      return;
    }
    rv := SwitchOnTunedTx(obj, old(obj.rec), tuneOk);
  }

  method SwitchOnTunedTx(obj: FmtxObject, ghost s: Fmtx, tuneOk: bool) returns (rv: Status)
    requires obj.Valid() && Wf(s)
    requires obj.rec.cfg == s.cfg && obj.rec.cond == s.cond && obj.rec.exited == s.exited
    requires obj.rec.timers == s.timers && obj.rec.active == s.active && s.trace <= obj.rec.trace
    modifies obj
    ensures obj.Valid()
    ensures Outcome(obj.rec, rv) == SwitchOnTuned(s, old(obj.rec), tuneOk)
    decreases if obj.rec.active then 9 else 3
  {
    obj.rec := obj.rec.(state := Enabled);
    rv := EnableTail(obj, true, tuneOk);
  }

  /** The disable branch of fmtx_enable. */
  method SwitchOffTx(obj: FmtxObject, tuneOk: bool) returns (rv: Status)
    requires obj.Valid() && obj.rec.state != NotAvailable
    modifies obj
    ensures obj.Valid()
    ensures Outcome(obj.rec, rv) == SwitchOff(old(obj.rec), tuneOk)
    decreases if obj.rec.active then 10 else 4
  {
    var wasOn := obj.rec.state != Disabled;
    obj.rec := obj.rec.(active := false);
    obj.RemoveTimeout(IdleTimer);
    if wasOn {
      SetMute(obj, true);
      obj.rec := obj.rec.(state := Disabled);
      rv := EnableTail(obj, false, tuneOk);
      return;
    }
    rv := Applied;
  }

  /** The `out:` part of fmtx_enable. */
  method EnableTail(obj: FmtxObject, enable: bool, tuneOk: bool) returns (rv: Status)
    requires obj.Valid()
    modifies obj
    ensures obj.Valid()
    ensures Outcome(obj.rec, rv) == EnableOut(old(obj.rec), enable, tuneOk)
    decreases if obj.rec.active then 8 else 2
  {
    obj.Record(SaveEnabled(enable));
    TogglePilot(obj, tuneOk);
    var _ := SetFrequency(obj, obj.rec.cfg.frequency, tuneOk);
    rv := Applied;
  }

  method WriteToneParams(obj: FmtxObject, t: Tone)
    modifies obj
    ensures obj.rec == WriteTone(old(obj.rec), t)
  {
    obj.WriteSysfs("tone_frequency", t.frequency);
    obj.WriteSysfs("tone_deviation", t.deviation);
    obj.WriteSysfs("tone_off_time", t.offTime);
    obj.WriteSysfs("tone_on_time", t.onTime);
  }

  method TogglePilot(obj: FmtxObject, tuneOk: bool)
    requires obj.Valid()
    modifies obj
    ensures obj.Valid()
    ensures obj.rec == TogglePilotSpec(old(obj.rec), tuneOk)
    decreases if obj.rec.active then 7 else 1
  {
    if obj.rec.state != Enabled || (obj.rec.cond.mixerInited && obj.rec.cond.paRunning) {
      if obj.rec.active && obj.rec.cond.paRunning && !obj.rec.cond.offline &&
         !obj.rec.cond.hpConnected && !obj.rec.cond.callActive
      {
        obj.RemoveTimeout(IdleTimer);
        obj.rec := obj.rec.(active := false);
        ResumeTx(obj, tuneOk);
      }
      WriteToneParams(obj, SILENT);
    } else {
      StartChirp(obj);
    }
  }

  method ResumeTx(obj: FmtxObject, tuneOk: bool)
    requires obj.Valid() && !obj.rec.active
    modifies obj
    ensures obj.Valid()
    ensures obj.rec == Resume(old(obj.rec), tuneOk)
    decreases 6
  {
    var _ := Enable(obj, true, tuneOk);
    obj.Record(QueueChanged);
    obj.Record(QueueInfo);
  }

  method StartChirp(obj: FmtxObject)
    modifies obj
    ensures obj.rec == Chirp(old(obj.rec))
  {
    WriteToneParams(obj, CHIRP);
    if !obj.rec.timers.pilot {
      obj.AddTimeout(PilotTimer);
    }
  }

  // ---------------------------------------------------------------------------
  // Timer and PulseAudio callbacks

  /** idle_timeout_cb: give up on resuming and schedule the process exit.
      The idle handle is zeroed without g_source_remove, since returning
      FALSE already removes the source. */
  function IdleTimeoutSpec(s: Fmtx): (r: Outcome<bool>)
    ensures !r.ret
    ensures !r.obj.active && !r.obj.timers.idle && r.obj.timers.exit
    ensures r.obj == s.(active := false, timers := r.obj.timers, trace := r.obj.trace)
    ensures r.obj.timers.pilot == s.timers.pilot
    ensures r.obj.trace == s.trace + [Arm(ExitTimer, EXIT_DELAY_MS)]
  {
    Outcome(ArmTimer(SetSlot(s.(active := false), IdleTimer, false), ExitTimer), false)
  }

  method IdleTimeout(obj: FmtxObject) returns (keep: bool)
    requires obj.Valid()
    modifies obj
    ensures obj.Valid()
    ensures Outcome(obj.rec, keep) == IdleTimeoutSpec(old(obj.rec))
  {
    obj.rec := obj.rec.(active := false, timers := obj.rec.timers.(idle := false));
    obj.AddTimeout(ExitTimer);
    keep := false;
  }

  /** The forced switch-off shared by the pilot timer and the headphone,
      call and USB callbacks: disable, queue the signals, remember that the
      daemon did it (`active`), and give the user five minutes (the idle
      timer, armed unless it already is) before giving up. */
  function Suspend(s: Fmtx, tuneOk: bool): (r: Fmtx)
    requires Wf(s) && s.state == Enabled
    ensures r.cfg == s.cfg && r.cond == s.cond && r.exited == s.exited && r.timers.exit == s.timers.exit
    ensures r.state == Disabled && r.active && r.timers.idle && Safe(r)
    ensures s.trace <= r.trace
  {
    var d := Notify(EnableSpec(s, false, tuneOk).obj).(active := true);
    if d.timers.idle then d else ArmTimer(d, IdleTimer)
  }

  method SuspendTx(obj: FmtxObject, tuneOk: bool)
    requires obj.Valid() && obj.rec.state == Enabled
    modifies obj
    ensures obj.Valid()
    ensures obj.rec == Suspend(old(obj.rec), tuneOk)
  {
    var _ := Enable(obj, false, tuneOk);
    obj.Record(QueueChanged);
    obj.Record(QueueInfo);
    obj.rec := obj.rec.(active := true);
    if !obj.rec.timers.idle {
      obj.AddTimeout(IdleTimer);
    }
  }

  /** pilot_timeout_cb: after 50 s of chirping the daemon switches itself
      off and waits, with `active` set, for the route to be engaged. */
  function PilotTimeoutSpec(s: Fmtx, tuneOk: bool): (r: Outcome<bool>)
    requires Wf(s)
    ensures !r.ret && !r.obj.timers.pilot
    ensures r.obj.cfg == s.cfg && r.obj.cond == s.cond
    ensures Safe(s) ==> Safe(r.obj)
    ensures s.trace <= r.obj.trace
    ensures !s.active && ShouldChirp(s) ==>
      r.obj.state == Disabled && r.obj.active && r.obj.timers.idle
    ensures !(!s.active && ShouldChirp(s)) ==> r.obj == SetSlot(s, PilotTimer, false)
  {
    var s1 := if !s.active && ShouldChirp(s) then Suspend(s, tuneOk) else s;
    Outcome(SetSlot(s1, PilotTimer, false), false)
  }

  method PilotTimeout(obj: FmtxObject, tuneOk: bool) returns (keep: bool)
    requires obj.Valid()
    modifies obj
    ensures obj.Valid()
    ensures Outcome(obj.rec, keep) == PilotTimeoutSpec(old(obj.rec), tuneOk)
  {
    if !obj.rec.active && (!obj.rec.cond.mixerInited || !obj.rec.cond.paRunning) && obj.rec.state == Enabled {
      SuspendTx(obj, tuneOk);
    }
    obj.rec := obj.rec.(timers := obj.rec.timers.(pilot := false));
    keep := false;
  }

  /** context_sink_info_cb: a sink report (not the end-of-list marker)
      stores whether the sink is running and re-evaluates the pilot. */
  function SinkInfoSpec(s: Fmtx, eol: bool, running: bool, tuneOk: bool): (r: Fmtx)
    requires Wf(s)
    ensures eol ==> r == s
    ensures !eol ==> r.cond == s.cond.(paRunning := running) && r.cfg == s.cfg
    ensures Safe(s) ==> Safe(r)
    ensures !eol ==> var t := s.(cond := s.cond.(paRunning := running));
      (ShouldChirp(t) ==> r == Chirp(t)) &&
      (!ShouldChirp(t) ==> |r.trace| >= 4 && r.trace[|r.trace| - 4..] == ToneWrites(SILENT)) &&
      (!ShouldChirp(t) && !AutoResume(t) ==> r == WriteTone(t, SILENT)) &&
      (!ShouldChirp(t) && AutoResume(t) ==>
        !r.active && (r.state == Enabled <==> s.state == Enabled || SwitchOnSucceeds(t)))
  {
    if eol then s else TogglePilotSpec(s.(cond := s.cond.(paRunning := running)), tuneOk)
  }

  method SinkInfo(obj: FmtxObject, eol: bool, running: bool, tuneOk: bool)
    requires obj.Valid()
    modifies obj
    ensures obj.Valid()
    ensures obj.rec == SinkInfoSpec(old(obj.rec), eol, running, tuneOk)
  {
    if !eol {
      obj.rec := obj.rec.(cond := obj.rec.cond.(paRunning := running));
      TogglePilot(obj, tuneOk);
    }
  }

  // ---------------------------------------------------------------------------
  // Properties

  /** The loop's membership test is the arithmetic one: freq_min plus a
      whole number of steps, not above freq_max. */
  lemma {:induction false} OnGridMeansSteps(min: uint32, max: uint32, step: uint32, f: int)
    requires step > 0
    ensures OnGrid(min, max, step, f) <==> min <= f <= max && exists k: nat :: f == min + k * step
  {
    if OnGrid(min, max, step, f) {
      var k: nat := (f - min) / step;
      assert f - min == k * step + (f - min) % step;
      assert f == min + k * step;
    }
    if min <= f <= max && exists k: nat :: f == min + k * step {
      var k: nat :| f == min + k * step;
      ModUnique(f - min, step, k, 0);
    }
  }

  /** Whether a frequency is accepted does not depend on the tuner: with a
      device present, an off-grid value is refused and leaves the record
      alone, and an on-grid one is stored. */
  lemma {:induction false} SetFrequencyExact(s: Fmtx, frequency: uint32, tuneOk: bool)
    requires Wf(s) && s.cfg.devRadio >= 0
    ensures SetFrequencySpec(s, frequency, tuneOk).ret == Rejected <==> !OnGridOf(s, frequency)
    ensures SetFrequencySpec(s, frequency, tuneOk).obj.cfg.frequency == frequency <==>
      OnGridOf(s, frequency) || s.cfg.frequency == frequency
  {
  }

  /** Switching on while the mixer is not initialised starts the chirp and
      arms the pilot timer. */
  lemma {:induction false} SwitchOnChirps(s: Fmtx, tuneOk: bool)
    requires Wf(s) && s.state !in {NotAvailable, Enabled} && !s.cond.offline && !s.cond.hpConnected
    requires s.cfg.devRadio >= 0 && OnGridOf(s, s.cfg.frequency) && !s.cond.mixerInited
    ensures SwitchOn(s, tuneOk).obj.state == Enabled && SwitchOn(s, tuneOk).obj.timers.pilot
  {
    var tuned := SetFrequencySpec(Emit(s, Mute(false)), s.cfg.frequency, tuneOk);
    assert SwitchOn(s, tuneOk) == EnableOut(tuned.obj.(state := Enabled), true, tuneOk);
    var s2 := Emit(tuned.obj.(state := Enabled), SaveEnabled(true));
    assert ShouldChirp(s2);
    assert TogglePilotSpec(s2, tuneOk).timers.pilot;
  }

  // The effects fmtx_enable has on the outside world, step by step.

  /** What fmtx_enable(FALSE) does before its `out:` part, on a transmitter
      that is not "disabled". */
  function OffHead(s: Fmtx): (r: Fmtx)
    requires Wf(s)
    ensures Wf(r) && r.state == Disabled && !r.active && r.cfg == s.cfg
    ensures r.trace == CancelTimer(s, IdleTimer).trace + [Mute(true)]
  {
    Emit(CancelTimer(s.(active := false), IdleTimer), Mute(true)).(state := Disabled)
  }

  lemma {:induction false} DisableUnfolds(s: Fmtx, tuneOk: bool)
    requires Wf(s) && s.state !in {NotAvailable, Disabled}
    ensures EnableSpec(s, false, tuneOk) == EnableOut(OffHead(s), false, tuneOk)
  {
    assert EnableSpec(s, false, tuneOk) == SwitchOff(s, tuneOk);
  }

  /** The `out:` part of a switch-off: the flag, silence, the save. */
  lemma {:induction false} OffTailEffects(s: Fmtx, tuneOk: bool)
    requires Wf(s) && s.state == Disabled && !s.active
    ensures EnableOut(s, false, tuneOk).obj.trace ==
      s.trace + [SaveEnabled(false)] + ToneWrites(SILENT) + Resaved(s)
  {
    var s1 := Emit(s, SaveEnabled(false));
    assert TogglePilotSpec(s1, tuneOk) == WriteTone(s1, SILENT);
  }

  /** Switching off a transmitter that is on (or never was switched off):
      the idle timer is cancelled, the device muted, the flag saved as
      FALSE, the pilot tone silenced, and the frequency stored again. */
  lemma {:induction false} DisableEffects(s: Fmtx, tuneOk: bool)
    requires Wf(s) && s.state !in {NotAvailable, Disabled}
    ensures EnableSpec(s, false, tuneOk).obj.trace ==
      CancelTimer(s, IdleTimer).trace + [Mute(true), SaveEnabled(false)] + ToneWrites(SILENT) + Resaved(s)
  {
    DisableUnfolds(s, tuneOk);
    OffTailEffects(OffHead(s), tuneOk);
    assert Resaved(OffHead(s)) == Resaved(s);
  }

  /** What fmtx_enable(TRUE) does before its `out:` part when nothing stops
      it: unmute, store and save the frequency, and switch the state on. */
  function OnHead(s: Fmtx, tuneOk: bool): (r: Fmtx)
    requires Wf(s) && s.state != Enabled && SwitchOnSucceeds(s)
    ensures Wf(r) && r.state == Enabled && r.cfg == s.cfg && r.cond == s.cond
    ensures r.trace == s.trace + [Mute(false), SaveFrequency(s.cfg.frequency)]
  {
    SetFrequencySpec(Emit(s, Mute(false)), s.cfg.frequency, tuneOk).obj.(state := Enabled)
  }

  lemma {:induction false} EnableUnfolds(s: Fmtx, tuneOk: bool)
    requires Wf(s) && s.state != Enabled && SwitchOnSucceeds(s)
    ensures EnableSpec(s, true, tuneOk) == EnableOut(OnHead(s, tuneOk), true, tuneOk)
  {
    var tuned := SetFrequencySpec(Emit(s, Mute(false)), s.cfg.frequency, tuneOk);
    assert EnableSpec(s, true, tuneOk) == SwitchOn(s, tuneOk);
    assert SwitchOn(s, tuneOk) == SwitchOnTuned(s, tuned.obj, tuneOk);
  }

  /** The pilot toggle right after the switch-on: the chirp, or with the
      route engaged silence last; the transmitter stays enabled. */
  lemma {:induction false} OnPilotEffects(s: Fmtx, tuneOk: bool)
    requires Wf(s) && s.state == Enabled
    ensures var p := TogglePilotSpec(s, tuneOk);
      p.state == Enabled && p.cfg == s.cfg && |s.trace| + 4 <= |p.trace| && p.trace[..|s.trace|] == s.trace &&
      (ShouldChirp(s) ==> p.trace[|s.trace|..|s.trace| + 4] == ToneWrites(CHIRP) && p.timers.pilot) &&
      (!ShouldChirp(s) ==> p.trace[|p.trace| - 4..] == ToneWrites(SILENT))
  {
    if ShouldChirp(s) {
      assert TogglePilotSpec(s, tuneOk) == Chirp(s);
    }
  }

  /** The `out:` part after a successful switch-on ends with the re-tune. */
  lemma {:induction false} OnTailEffects(s: Fmtx, tuneOk: bool)
    requires Wf(s) && s.state == Enabled && s.cfg.devRadio >= 0 && OnGridOf(s, s.cfg.frequency)
    ensures var r := EnableOut(s, true, tuneOk).obj; var f := s.cfg.frequency;
      var p := TogglePilotSpec(Emit(s, SaveEnabled(true)), tuneOk);
      r.trace == p.trace + [SaveFrequency(f), Tune(f, tuneOk)] && r.timers == p.timers
  {
    var p := TogglePilotSpec(Emit(s, SaveEnabled(true)), tuneOk);
    assert p.state == Enabled && p.cfg == s.cfg;
  }

  /** A successful switch-on, as the effects it has. */
  lemma {:induction false} EnableEffects(s: Fmtx, tuneOk: bool)
    requires Wf(s) && s.state != Enabled && SwitchOnSucceeds(s)
    ensures SwitchedOn(s, EnableSpec(s, true, tuneOk).obj, tuneOk)
  {
    EnableUnfolds(s, tuneOk);
    var s2 := OnHead(s, tuneOk);
    var s3 := Emit(s2, SaveEnabled(true));
    OnPilotEffects(s3, tuneOk);
    OnTailEffects(s2, tuneOk);
    assert ShouldChirp(s3) <==> !(s.cond.mixerInited && s.cond.paRunning);
    SwitchedOnShape(s, TogglePilotSpec(s3, tuneOk), EnableSpec(s, true, tuneOk).obj, tuneOk);
  }

  /** The trace arithmetic behind EnableEffects, on the traces alone. */
  lemma {:induction false} SwitchedOnShape(s: Fmtx, p: Fmtx, r: Fmtx, tuneOk: bool)
    requires var f := s.cfg.frequency; var h := s.trace + [Mute(false), SaveFrequency(f), SaveEnabled(true)];
      |h| + 4 <= |p.trace| && p.trace[..|h|] == h &&
      (!(s.cond.mixerInited && s.cond.paRunning) ==> p.trace[|h|..|h| + 4] == ToneWrites(CHIRP) && p.timers.pilot) &&
      (s.cond.mixerInited && s.cond.paRunning ==> p.trace[|p.trace| - 4..] == ToneWrites(SILENT)) &&
      r.trace == p.trace + [SaveFrequency(f), Tune(f, tuneOk)] && r.timers == p.timers
    ensures SwitchedOn(s, r, tuneOk)
  {
    var n := |s.trace|;
    assert r.trace[n..n + 3] == p.trace[..n + 3][n..];
    assert r.trace[n + 3..n + 7] == p.trace[n + 3..n + 7];
    assert r.trace[|r.trace| - 6..|r.trace| - 2] == p.trace[|p.trace| - 4..];
  }

  /** After auto-resume with the mixer not yet initialised, the inner
      enable writes the chirp and arms the pilot timer, and the outer
      toggle then overwrites the tone with zeros: the transmitter is on,
      the pilot timer is armed, and the last tone written is silence. */
  lemma {:induction false} ResumeOverwritesChirp(s: Fmtx, tuneOk: bool)
    requires Wf(s) && s.cfg.devRadio >= 0 && OnGridOf(s, s.cfg.frequency)
    requires s.state == Disabled && AutoResume(s) && !s.cond.mixerInited
    ensures TogglePilotSpec(s, tuneOk).state == Enabled
    ensures TogglePilotSpec(s, tuneOk).timers.pilot
    ensures var t := TogglePilotSpec(s, tuneOk).trace; t[|t| - 4..] == ToneWrites(SILENT)
  {
    var s1 := CancelTimer(s, IdleTimer).(active := false);
    SwitchOnChirps(s1, tuneOk);
    assert Resume(s1, tuneOk) == Notify(SwitchOn(s1, tuneOk).obj);
    assert TogglePilotSpec(s, tuneOk) == WriteTone(Resume(s1, tuneOk), SILENT);
  }
}
