// The decision logic of the D-Bus signal callbacks in dbus.c: device mode,
// headphone jack, USB mode and call state, and the error and offline effects
// of connecting them. What HAL and MCE answer is a parameter; `tuneOk` is
// what the tuner ioctls do if a callback re-enables transmission.

module Signals {
  import opened FmtxRecord
  import opened Audio

  /** MCE_NORMAL_MODE, MCE_CALL_STATE_ACTIVE and the USB mode of a
      disconnected cable. */
  const NORMAL_MODE: string := "normal"
  const CALL_ACTIVE: string := "active"
  const USB_IDLE: string := "b_idle"

  /** The auto-resume the headphone, USB and call callbacks share, once
      their own gate holds: cancel the idle timer, clear `active`, enable and
      queue the signals. */
  function ResumeAfter(s: Fmtx, tuneOk: bool): (r: Fmtx)
    requires Wf(s)
    ensures r.cfg == s.cfg && r.cond == s.cond && !r.active && !r.timers.idle
    ensures Safe(s) ==> Safe(r)
    ensures s.trace <= r.trace
    ensures r.state == Enabled <==> s.state == Enabled || SwitchOnSucceeds(s)
  {
    Resume(CancelTimer(s, IdleTimer).(active := false), tuneOk)
  }

  // ---------------------------------------------------------------------------
  // sig_device_mode_ind_cb

  function DeviceModeSpec(s: Fmtx, mode: string, tuneOk: bool): (r: Fmtx)
    requires Wf(s)
    ensures r.cond == s.cond.(offline := mode != NORMAL_MODE) && r.cfg == s.cfg
    ensures Safe(s) || mode != NORMAL_MODE ==> Safe(r)
    ensures s.trace <= r.trace
    ensures s.state == Enabled && mode != NORMAL_MODE ==> r.state == Disabled && !r.active
    ensures s.state != Enabled || mode == NORMAL_MODE ==> r == s.(cond := r.cond)
  {
    var s1 := s.(cond := s.cond.(offline := mode != NORMAL_MODE));
    if mode != NORMAL_MODE && s.state == Enabled then
      Notify(EnableSpec(s1, false, tuneOk).obj)
    else s1
  }

  method DeviceModeChanged(obj: FmtxObject, mode: string, tuneOk: bool)
    requires obj.Valid()
    modifies obj
    ensures obj.Valid()
    ensures obj.rec == DeviceModeSpec(old(obj.rec), mode, tuneOk)
  {
    if mode == NORMAL_MODE {
      obj.rec := obj.rec.(cond := obj.rec.cond.(offline := false));
    } else {
      obj.rec := obj.rec.(cond := obj.rec.cond.(offline := true));
      if obj.rec.state == Enabled {
        var _ := Enable(obj, false, tuneOk);
        obj.Record(QueueChanged);
        obj.Record(QueueInfo);
      }
    }
  }

  // ---------------------------------------------------------------------------
  // platform_soc_audio_logicaldev_input_cb

  /** `jack` is what HAL reports for "input.jack.type": None when the proxy
      or the call fails (then only an error is logged), otherwise whether
      the list of connected jack types is non-empty. */
  function HeadphoneSpec(s: Fmtx, jack: Option<bool>, tuneOk: bool): (r: Fmtx)
    requires Wf(s)
    ensures jack.None? ==> r == s
    ensures jack.Some? ==> r.cond == s.cond.(hpConnected := jack.value) && r.cfg == s.cfg
    ensures Safe(s) || jack == Some(true) ==> Safe(r)
    ensures s.trace <= r.trace
    ensures jack == Some(true) && s.state == Enabled ==>
      r.state == Disabled && r.active && r.timers.idle &&
      s.trace + [ErrorSignal("fmtx_ni_cable_error")] <= r.trace
    ensures jack == Some(true) && s.state != Enabled ==> r == s.(cond := r.cond)
    ensures jack == Some(false) && !(s.active && !s.cond.usbConnected && !s.cond.callActive) ==>
      r == s.(cond := r.cond)
    ensures jack == Some(false) && s.active && !s.cond.usbConnected && !s.cond.callActive ==>
      !r.active && !r.timers.idle &&
      (r.state == Enabled <==> s.state == Enabled || SwitchOnSucceeds(s.(cond := r.cond)))
  {
    match jack
    case None => s
    case Some(connected) =>
      var s1 := s.(cond := s.cond.(hpConnected := connected));
      if connected then
        if s.state == Enabled then Suspend(Emit(s1, ErrorSignal("fmtx_ni_cable_error")), tuneOk)
        else s1
      else if s.active && !s.cond.usbConnected && !s.cond.callActive then ResumeAfter(s1, tuneOk)
      else s1
  }

  method HeadphoneChanged(obj: FmtxObject, jack: Option<bool>, tuneOk: bool)
    requires obj.Valid()
    modifies obj
    ensures obj.Valid()
    ensures obj.rec == HeadphoneSpec(old(obj.rec), jack, tuneOk)
  {
    if jack.None? {
      return;
    }
    if jack.value {
      obj.rec := obj.rec.(cond := obj.rec.cond.(hpConnected := true));
      if obj.rec.state == Enabled {
        obj.Record(ErrorSignal("fmtx_ni_cable_error"));
        SuspendTx(obj, tuneOk);
      }
    } else {
      obj.rec := obj.rec.(cond := obj.rec.cond.(hpConnected := false));
      if obj.rec.active && !obj.rec.cond.usbConnected && !obj.rec.cond.callActive {
        ResumeAfterTx(obj, tuneOk);
      }
    }
  }

  method ResumeAfterTx(obj: FmtxObject, tuneOk: bool)
    requires obj.Valid()
    modifies obj
    ensures obj.Valid()
    ensures obj.rec == ResumeAfter(old(obj.rec), tuneOk)
  {
    obj.RemoveTimeout(IdleTimer);
    obj.rec := obj.rec.(active := false);
    ResumeTx(obj, tuneOk);
  }

  // ---------------------------------------------------------------------------
  // usb_device_1d6b_2_musb_hdrc_cb

  /** The callback as written: after the forced disable it arms the idle
      timer only `if (obj->idle_timeout)`, a handle the disable has just
      zeroed, so the idle timer is never armed here. */
  function UsbModeAsWritten(s: Fmtx, usbMode: Option<string>, tuneOk: bool): (r: Fmtx)
    requires Wf(s)
    ensures usbMode.None? ==> r == s
    ensures usbMode.Some? ==>
      r.cond == s.cond.(usbConnected := usbMode.value != USB_IDLE) && r.cfg == s.cfg
    ensures Safe(s) ==> Safe(r)
    ensures s.trace <= r.trace
    ensures usbMode.Some? && usbMode.value != USB_IDLE && s.state == Enabled ==>
      r.state == Disabled && r.active && !r.timers.idle &&
      s.trace + [ErrorSignal("fmtx_ni_usb_error")] <= r.trace
    ensures usbMode.Some? && usbMode.value != USB_IDLE && s.state != Enabled ==> r == s.(cond := r.cond)
  {
    match usbMode
    case None => s
    case Some(mode) =>
      if mode == USB_IDLE then UsbIdle(s, tuneOk)
      else
        var s1 := s.(cond := s.cond.(usbConnected := true));
        if s.state == Enabled then
          var d := Notify(EnableSpec(Emit(s1, ErrorSignal("fmtx_ni_usb_error")), false, tuneOk).obj).(active := true);
          if d.timers.idle then ArmTimer(d, IdleTimer) else d
        else s1
  }

  /** A USB cable plugged in while transmitting leaves the daemon switched
      off with `active` set and no idle timer, so nothing will clear
      `active` until the cable is removed; the headphone callback in the
      same situation, and the USB callback with the guard inverted, arm it. */
  lemma {:induction false} UsbAsWrittenNeverArmsIdle(s: Fmtx, mode: string, tuneOk: bool)
    requires Wf(s) && s.state == Enabled && mode != USB_IDLE
    ensures var r := UsbModeAsWritten(s, Some(mode), tuneOk);
      r.state == Disabled && r.active && !r.timers.idle
    ensures HeadphoneSpec(s, Some(true), tuneOk).timers.idle
    ensures UsbModeSpec(s, Some(mode), tuneOk).timers.idle
  {
    var s1 := Emit(s.(cond := s.cond.(usbConnected := true)), ErrorSignal("fmtx_ni_usb_error"));
    assert !EnableSpec(s1, false, tuneOk).obj.timers.idle;
  }

  /** `b_idle`: the cable is out. Auto-resume when neither headphones nor a
      call block it. */
  function UsbIdle(s: Fmtx, tuneOk: bool): (r: Fmtx)
    requires Wf(s)
    ensures r.cond == s.cond.(usbConnected := false) && r.cfg == s.cfg
    ensures Safe(s) ==> Safe(r)
    ensures s.trace <= r.trace
    ensures !(s.active && !s.cond.hpConnected && !s.cond.callActive) ==> r == s.(cond := r.cond)
    ensures s.active && !s.cond.hpConnected && !s.cond.callActive ==>
      !r.active && !r.timers.idle &&
      (r.state == Enabled <==> s.state == Enabled || SwitchOnSucceeds(s))
  {
    var s1 := s.(cond := s.cond.(usbConnected := false));
    if s.active && !s.cond.hpConnected && !s.cond.callActive then ResumeAfter(s1, tuneOk) else s1
  }

  /** The callback with the guard the headphone and call callbacks use,
      `if (!obj->idle_timeout)`. */
  function UsbModeSpec(s: Fmtx, usbMode: Option<string>, tuneOk: bool): (r: Fmtx)
    requires Wf(s)
    ensures usbMode.None? ==> r == s
    ensures usbMode.Some? ==>
      r.cond == s.cond.(usbConnected := usbMode.value != USB_IDLE) && r.cfg == s.cfg
    ensures Safe(s) ==> Safe(r)
    ensures s.trace <= r.trace
    ensures usbMode.Some? && usbMode.value != USB_IDLE && s.state == Enabled ==>
      r.state == Disabled && r.active && r.timers.idle &&
      s.trace + [ErrorSignal("fmtx_ni_usb_error")] <= r.trace
    ensures usbMode.Some? && usbMode.value != USB_IDLE && s.state != Enabled ==> r == s.(cond := r.cond)
  {
    match usbMode
    case None => s
    case Some(mode) =>
      if mode == USB_IDLE then UsbIdle(s, tuneOk)
      else
        var s1 := s.(cond := s.cond.(usbConnected := true));
        if s.state == Enabled then Suspend(Emit(s1, ErrorSignal("fmtx_ni_usb_error")), tuneOk)
        else s1
  }

  /** The two differ only in that one decision. */
  lemma {:induction false} UsbModeDiffersOnlyInIdleTimer(s: Fmtx, usbMode: Option<string>, tuneOk: bool)
    requires Wf(s)
    ensures UsbModeSpec(s, usbMode, tuneOk) ==
      var w := UsbModeAsWritten(s, usbMode, tuneOk);
      if usbMode.Some? && usbMode.value != USB_IDLE && s.state == Enabled then ArmTimer(w, IdleTimer) else w
  {
    if usbMode.Some? && usbMode.value != USB_IDLE && s.state == Enabled {
      var s1 := Emit(s.(cond := s.cond.(usbConnected := true)), ErrorSignal("fmtx_ni_usb_error"));
      assert !EnableSpec(s1, false, tuneOk).obj.timers.idle;
    }
  }

  method UsbModeChanged(obj: FmtxObject, usbMode: Option<string>, tuneOk: bool)
    requires obj.Valid()
    modifies obj
    ensures obj.Valid()
    ensures obj.rec == UsbModeAsWritten(old(obj.rec), usbMode, tuneOk)
  {
    if usbMode.None? {
      return;
    }
    if usbMode.value == USB_IDLE {
      obj.rec := obj.rec.(cond := obj.rec.cond.(usbConnected := false));
      if obj.rec.active && !obj.rec.cond.hpConnected && !obj.rec.cond.callActive {
        ResumeAfterTx(obj, tuneOk);
      }
    } else {
      obj.rec := obj.rec.(cond := obj.rec.cond.(usbConnected := true));
      if obj.rec.state == Enabled {
        UsbPluggedTx(obj, tuneOk);
      }
    }
  }

  /** The plug-in branch of UsbModeChanged, on a transmitter that is on. */
  method UsbPluggedTx(obj: FmtxObject, tuneOk: bool)
    requires obj.Valid() && obj.rec.state == Enabled
    modifies obj
    ensures obj.Valid()
    ensures obj.rec == Notify(EnableSpec(Emit(old(obj.rec), ErrorSignal("fmtx_ni_usb_error")), false, tuneOk).obj).(active := true)
    ensures !obj.rec.timers.idle
  {
    obj.Record(ErrorSignal("fmtx_ni_usb_error"));
    var _ := Enable(obj, false, tuneOk);
    obj.Record(QueueChanged);
    obj.Record(QueueInfo);
    obj.rec := obj.rec.(active := true);
    if obj.rec.timers.idle {
      // The re-arm `if (obj->idle_timeout)` asks for: the disable has
      // just cleared the slot, so this branch is never taken.
      assert false;
    }
  }

  // ---------------------------------------------------------------------------
  // sig_call_state_ind_cb

  function CallStateSpec(s: Fmtx, callState: string, tuneOk: bool): (r: Fmtx)
    requires Wf(s)
    ensures r.cond == s.cond.(callActive := callState == CALL_ACTIVE) && r.cfg == s.cfg
    ensures Safe(s) ==> Safe(r)
    ensures s.trace <= r.trace
    ensures callState == CALL_ACTIVE && s.state == Enabled ==>
      r.state == Disabled && r.active && r.timers.idle
    ensures callState == CALL_ACTIVE && s.state != Enabled ==> r == s.(cond := r.cond)
    ensures callState != CALL_ACTIVE && !(s.active && !s.cond.usbConnected && !s.cond.hpConnected) ==>
      r == s.(cond := r.cond)
    ensures callState != CALL_ACTIVE && s.active && !s.cond.usbConnected && !s.cond.hpConnected ==>
      !r.active && !r.timers.idle &&
      (r.state == Enabled <==> s.state == Enabled || SwitchOnSucceeds(s))
  {
    var s1 := s.(cond := s.cond.(callActive := callState == CALL_ACTIVE));
    if callState == CALL_ACTIVE then
      if s.state == Enabled then Suspend(s1, tuneOk) else s1
    else if s.active && !s.cond.usbConnected && !s.cond.hpConnected then ResumeAfter(s1, tuneOk)
    else s1
  }

  method CallStateChanged(obj: FmtxObject, callState: string, tuneOk: bool)
    requires obj.Valid()
    modifies obj
    ensures obj.Valid()
    ensures obj.rec == CallStateSpec(old(obj.rec), callState, tuneOk)
  {
    if callState == CALL_ACTIVE {
      obj.rec := obj.rec.(cond := obj.rec.cond.(callActive := true));
      if obj.rec.state == Enabled {
        SuspendTx(obj, tuneOk);
      }
    } else {
      obj.rec := obj.rec.(cond := obj.rec.cond.(callActive := false));
      if obj.rec.active && !obj.rec.cond.usbConnected && !obj.rec.cond.hpConnected {
        ResumeAfterTx(obj, tuneOk);
      }
    }
  }

  // ---------------------------------------------------------------------------
  // connect_dbus_signals

  /** What the bus does while the signals are connected: whether each proxy
      can be created, the answer to the initial headphone query, the
      device-mode query (None: the call failed) and the initial USB query. */
  datatype BusEnv = BusEnv(
    hpProxy: bool,
    jack: Option<bool>,
    mceSignalProxy: bool,
    mceRequestProxy: bool,
    mode: Option<string>,
    usbProxy: bool,
    usbMode: Option<string>)

  /** A proxy the connection sequence needed could not be created. */
  predicate ProxyFailed(env: BusEnv)
  {
    !env.hpProxy || !env.mceSignalProxy || !env.mceRequestProxy ||
    (env.mode.Some? && !env.usbProxy)
  }

  function ConnectSignalsSpec(s: Fmtx, env: BusEnv, tuneOk: bool): (r: Fmtx)
    requires Wf(s)
    ensures r.cfg == s.cfg
    ensures s.trace <= r.trace
    ensures !env.hpProxy ==> r == s.(state := Error)
    ensures (env.hpProxy && env.mceSignalProxy && env.mceRequestProxy && env.mode.Some? &&
             env.mode.value != NORMAL_MODE) ==> r.cond.offline
  {
    if !env.hpProxy then s.(state := Error)
    else
      var s1 := HeadphoneSpec(s, env.jack, tuneOk);
      if !env.mceSignalProxy || !env.mceRequestProxy then s1.(state := Error)
      else match env.mode
        case None => s1
        case Some(mode) =>
          var s2 := if mode != NORMAL_MODE then s1.(cond := s1.cond.(offline := true)) else s1;
          if !env.usbProxy then s2.(state := Error)
          else UsbModeAsWritten(s2, env.usbMode, tuneOk)
  }

  /** On the fresh record the daemon connects the signals to, the record
      ends in the error state exactly when a proxy it reached could not be
      created; a mode other than "normal" in the initial query marks the
      device offline. */
  lemma {:induction false} ConnectSignalsOutcome(s: Fmtx, env: BusEnv, tuneOk: bool)
    requires Wf(s) && s.state == Initializing && !s.active
    ensures ConnectSignalsSpec(s, env, tuneOk).state == (if ProxyFailed(env) then Error else Initializing)
    ensures (env.hpProxy && env.mceSignalProxy && env.mceRequestProxy &&
             env.mode.Some? && env.mode.value != NORMAL_MODE) ==>
            ConnectSignalsSpec(s, env, tuneOk).cond.offline
  {
    var s1 := HeadphoneSpec(s, env.jack, tuneOk);
    assert s1.state == Initializing && !s1.active;
  }

  method ConnectSignals(obj: FmtxObject, env: BusEnv, tuneOk: bool)
    requires obj.Valid()
    modifies obj
    ensures obj.Valid()
    ensures obj.rec == ConnectSignalsSpec(old(obj.rec), env, tuneOk)
  {
    if !env.hpProxy {
      obj.rec := obj.rec.(state := Error);
      return;
    }
    HeadphoneChanged(obj, env.jack, tuneOk);
    if !env.mceSignalProxy || !env.mceRequestProxy {
      obj.rec := obj.rec.(state := Error);
      return;
    }
    if env.mode.None? {
      return;
    }
    if env.mode.value != NORMAL_MODE {
      obj.rec := obj.rec.(cond := obj.rec.cond.(offline := true));
    }
    if !env.usbProxy {
      obj.rec := obj.rec.(state := Error);
      return;
    }
    UsbModeChanged(obj, env.usbMode, tuneOk);
  }
}
