// The D-Bus facing part of fmtx-object.c: the info signal, the RDS setters,
// and the property get/set handlers with their result-to-error mapping and
// the exit-timer rule.

module Properties {
  import opened FmtxRecord
  import opened Audio

  // ---------------------------------------------------------------------------
  // Signals

  /** The "connected" value of the info signal. */
  function Connected(st: TxState): (c: string)
    ensures c == "1" <==> st == Enabled
    ensures c == "0" <==> st != Enabled
  {
    if st == Enabled then "1" else "0"
  }

  /** emit_info: sends the info signal now; as an idle callback it returns
      FALSE, so it runs once. */
  function EmitInfoSpec(s: Fmtx): (r: Outcome<bool>)
    ensures !r.ret
    ensures r.obj == s.(trace := s.trace + [Info(Connected(s.state))])
  {
    Outcome(Emit(s, Info(Connected(s.state))), false)
  }

  method EmitInfo(obj: FmtxObject) returns (again: bool)
    modifies obj
    ensures Outcome(obj.rec, again) == EmitInfoSpec(old(obj.rec))
  {
    obj.Record(Info(if obj.rec.state == Enabled then "1" else "0"));
    again := false;
  }

  /** exit_timeout_cb: releases the mixer, PulseAudio, gconf and the bus and
      ends the process. */
  method ExitTimeout(obj: FmtxObject)
    modifies obj
    ensures obj.rec == old(obj.rec).(exited := true)
  {
    obj.rec := obj.rec.(exited := true);
  }

  // ---------------------------------------------------------------------------
  // fmtx_set_rds_text

  /** `text` is None for a NULL pointer; `ioOk` says whether opening and
      writing rds_radio_text succeed. The limit is on the text's bytes, and
      the bytes and their NUL are written. */
  function SetRdsTextSpec(s: Fmtx, text: Option<string>, ioOk: bool): (r: Outcome<Status>)
    ensures r.ret == Applied <==> text.Some? && |Utf8(text.value)| <= FMTX_MAX_RDS_TEXT && ioOk
    ensures r.ret == Rejected <==> text.None? || |Utf8(text.value)| > FMTX_MAX_RDS_TEXT
    ensures r.ret != Applied ==> r.obj == s
    ensures r.ret == Applied ==>
      r.obj == s.(cfg := s.cfg.(rdsText := text.value),
                  trace := s.trace + [Write(FMTX_SYSFS_NODE + "rds_radio_text", Utf8(text.value) + "\0")])
  {
    if text.None? || |Utf8(text.value)| > FMTX_MAX_RDS_TEXT then Outcome(s, Rejected)
    else if !ioOk then Outcome(s, Failed)
    else
      var t := text.value;
      Outcome(Emit(s.(cfg := s.cfg.(rdsText := t)), Write(FMTX_SYSFS_NODE + "rds_radio_text", Utf8(t) + "\0")),
              Applied)
  }

  method SetRdsText(obj: FmtxObject, text: Option<string>, ioOk: bool) returns (rv: Status)
    requires obj.Valid()
    modifies obj
    ensures obj.Valid()
    ensures Outcome(obj.rec, rv) == SetRdsTextSpec(old(obj.rec), text, ioOk)
  {
    rv := Rejected;
    if text.Some? {
      var bytes := Utf8(text.value);
      if |bytes| <= FMTX_MAX_RDS_TEXT {
        if !ioOk {
          rv := Failed;
        } else {
          obj.rec := obj.rec.(cfg := obj.rec.cfg.(rdsText := text.value));
          obj.Record(Write(FMTX_SYSFS_NODE + "rds_radio_text", bytes + "\0"));
          rv := Applied;
        }
      }
    }
  }

  /** A string of copies of one character has that many times its bytes. */
  lemma {:induction false} Utf8Repeat(t: string, c: char)
    requires forall i :: 0 <= i < |t| ==> t[i] == c
    ensures |Utf8(t)| == |t| * |Utf8Char(c)|
    decreases |t|
  {
    if |t| > 0 {
      var k := |Utf8Char(c)|;
      var m := |t| - 1;
      Utf8Repeat(t[1..], c);
      assert Utf8(t) == Utf8Char(c) + Utf8(t[1..]);
      assert |Utf8(t)| == k + m * k;
      assert (m + 1) * k == k + m * k;
    }
  }

  /** The limit counts bytes: an ASCII text of 64 characters is accepted,
      forty accented letters (eighty bytes) are not. */
  lemma {:induction false} RdsTextLimitInBytes(s: Fmtx)
    ensures SetRdsTextSpec(s, Some(seq(64, _ => 'a')), true).ret == Applied
    ensures SetRdsTextSpec(s, Some(seq(40, _ => '\U{E9}')), true).ret == Rejected
  {
    Utf8Repeat(seq(64, _ => 'a'), 'a');
    Utf8Repeat(seq(40, _ => '\U{E9}'), '\U{E9}');
  }

  // ---------------------------------------------------------------------------
  // fmtx_set_rds_station_name

  /** The 9 bytes written to rds_ps_name: the first eight bytes of the
      name, padded with spaces when it is shorter, then a NUL. */
  function StationNamePayload(ps: string): (p: seq<char>)
    ensures |p| == 9 && p[8] == '\0'
    ensures forall i :: 0 <= i < 8 ==> p[i] == if i < |Utf8(ps)| then Utf8(ps)[i] else ' '
  {
    var b := Utf8(ps);
    if |b| >= 8 then b[..8] + "\0" else b + Spaces(8 - |b|) + "\0"
  }

  function Spaces(n: nat): (sp: string)
    ensures |sp| == n && forall i :: 0 <= i < n ==> sp[i] == ' '
  {
    if n == 0 then "" else Spaces(n - 1) + " "
  }

  /** The buffer fill of fmtx_set_rds_station_name: strncpy of at most eight
      bytes (NUL-filling the rest), the do-while space padding from
      `strlen`, and the terminating NUL. */
  method FillStationName(ps: string) returns (payload: seq<char>)
    ensures payload == StationNamePayload(ps)
  {
    var b := Utf8(ps);
    var buf := new char[9];
    var i := 0;
    while i < 8
      invariant 0 <= i <= 8
      invariant forall j :: 0 <= j < i ==> buf[j] == if j < |b| then b[j] else '\0'
    {
      buf[i] := if i < |b| then b[i] else '\0';
      i := i + 1;
    }
    if |b| < 8 {
      var p := |b|;
      buf[p] := ' ';
      p := p + 1;
      while p != 8
        invariant |b| < p <= 8
        invariant forall j :: 0 <= j < |b| ==> buf[j] == b[j]
        invariant forall j :: |b| <= j < p ==> buf[j] == ' '
        decreases 8 - p
      {
        buf[p] := ' ';
        p := p + 1;
      }
    }
    buf[8] := '\0';
    payload := buf[..];
    assert forall j :: 0 <= j < 9 ==> payload[j] == StationNamePayload(ps)[j];
  }

  /** `ps` is None for a NULL pointer; `ioOk` says whether opening and
      writing rds_ps_name succeed. The stored name is the whole input, not
      the eight characters sent to the chip. */
  function SetRdsStationNameSpec(s: Fmtx, ps: Option<string>, ioOk: bool): (r: Outcome<Status>)
    ensures r.ret == Applied <==> ps.Some? && ioOk
    ensures r.ret == Rejected <==> ps.None?
    ensures r.ret != Applied ==> r.obj == s
    ensures r.ret == Applied ==>
      r.obj == s.(cfg := s.cfg.(rdsPs := ps.value),
                  trace := s.trace + [Write(FMTX_SYSFS_NODE + "rds_ps_name", StationNamePayload(ps.value))])
  {
    if ps.None? then Outcome(s, Rejected)
    else if !ioOk then Outcome(s, Failed)
    else
      Outcome(Emit(s.(cfg := s.cfg.(rdsPs := ps.value)),
                   Write(FMTX_SYSFS_NODE + "rds_ps_name", StationNamePayload(ps.value))),
              Applied)
  }

  method SetRdsStationName(obj: FmtxObject, ps: Option<string>, ioOk: bool) returns (rv: Status)
    requires obj.Valid()
    modifies obj
    ensures obj.Valid()
    ensures Outcome(obj.rec, rv) == SetRdsStationNameSpec(old(obj.rec), ps, ioOk)
  {
    if ps.None? {
      return Rejected;
    }
    var payload := FillStationName(ps.value);
    if !ioOk {
      return Failed;
    }
    obj.rec := obj.rec.(cfg := obj.rec.cfg.(rdsPs := ps.value));
    obj.Record(Write(FMTX_SYSFS_NODE + "rds_ps_name", payload));
    rv := Applied;
  }

  /** Names shorter than eight bytes are padded, longer ones cut: the chip
      always sees exactly eight bytes, and for an ASCII name those are its
      first eight characters. */
  lemma {:induction false} StationNamePadding(ps: string)
    ensures |Utf8(ps)| <= 8 ==> StationNamePayload(ps)[..|Utf8(ps)|] == Utf8(ps)
    ensures |Utf8(ps)| >= 8 ==> StationNamePayload(ps)[..8] == Utf8(ps)[..8]
    ensures forall i :: |Utf8(ps)| <= i < 8 ==> StationNamePayload(ps)[i] == ' '
    ensures (forall i :: 0 <= i < |ps| ==> ps[i] as int < 0x80) && |ps| >= 8 ==>
      StationNamePayload(ps)[..8] == ps[..8]
  {
    var p := StationNamePayload(ps);
    var b := Utf8(ps);
    if |b| <= 8 {
      assert forall i :: 0 <= i < |b| ==> p[..|b|][i] == b[i];
    } else {
      assert forall i :: 0 <= i < 8 ==> p[..8][i] == b[..8][i];
    }
  }

  /** The cut is by bytes, so it can split a character: after seven ASCII
      letters, a two-byte character puts only its lead byte on the chip. */
  lemma {:induction false} StationNameSplitsCharacter(ps: string)
    requires |ps| == 8 && forall i :: 0 <= i < 7 ==> ps[i] as int < 0x80
    requires 0x80 <= ps[7] as int < 0x800
    ensures StationNamePayload(ps)[..7] == ps[..7]
    ensures StationNamePayload(ps)[7] == Byte(0xC0 + ps[7] as int / 0x40)
  {
    var head, tail := ps[..7], ps[7..];
    assert ps == head + tail;
    Utf8Append(head, tail);
    assert tail[1..] == "";
    assert Utf8(tail) == Utf8Char(ps[7]);
    var b := Utf8(ps);
    assert b == head + Utf8Char(ps[7]);
    assert StationNamePayload(ps)[..8] == b[..8];
  }

  // ---------------------------------------------------------------------------
  // Property values and errors

  /** A D-Bus property value: an unsigned integer, or a string that may be
      NULL. */
  datatype PropValue = UInt(n: uint32) | Str(text: Option<string>)

  /** g_value_get_uint and g_value_get_string on a value of the other kind
      give 0 and NULL. */
  function AsUInt(v: PropValue): (n: uint32)
    ensures v.UInt? ==> n == v.n
    ensures v.Str? ==> n == 0
  {
    if v.UInt? then v.n else 0
  }

  function AsString(v: PropValue): (t: Option<string>)
    ensures v.Str? ==> t == v.text
    ensures v.UInt? ==> t.None?
  {
    if v.Str? then v.text else None
  }

  datatype ErrorCode = ErrFailed | ErrInvalidArgs | ErrAccessDenied

  datatype DBusError = DBusError(code: ErrorCode, message: string)

  /** g_set_error on a GError that is already set keeps the first error. */
  function FirstError(e: Option<DBusError>, code: ErrorCode, message: string): (r: Option<DBusError>)
    ensures r.Some?
    ensures e.Some? ==> r == e
    ensures e.None? ==> r == Some(DBusError(code, message))
  {
    if e.Some? then e else Some(DBusError(code, message))
  }

  /** The property names the get handler answers. The set handler's
      read-only names are spelled differently ("frequency_min" and so on). */
  const READABLE: set<string> :=
    {"version", "frequency", "freq_max", "freq_min", "freq_step", "startable", "state", "rds_ps", "rds_text"}
  const READ_ONLY: set<string> := {"version", "frequency_min", "frequency_max", "frequency_step"}
  const WRITABLE: set<string> := {"frequency", "state", "rds_ps", "rds_text"}

  /** The `startable` text: the headphone message wins over the offline one. */
  function StartableText(offline: bool, hpConnected: bool): (text: string)
    ensures text == "true" <==> !offline && !hpConnected
    ensures hpConnected ==> text == "Headphones are connected"
    ensures offline && !hpConnected ==> text == "Device is in offline mode"
  {
    if hpConnected then "Headphones are connected"
    else if offline then "Device is in offline mode"
    else "true"
  }

  function PropertyValue(s: Fmtx, name: string): (v: Option<PropValue>)
    ensures v.Some? <==> name in READABLE
    ensures name == "frequency" ==> v == Some(UInt(s.cfg.frequency))
    ensures name == "state" ==> v == Some(Str(Some(StateName(s.state))))
    ensures name == "startable" ==> v == Some(Str(Some(StartableText(s.cond.offline, s.cond.hpConnected))))
  {
    if name == "version" then Some(UInt(1))
    else if name == "frequency" then Some(UInt(s.cfg.frequency))
    else if name == "freq_max" then Some(UInt(s.cfg.freqMax))
    else if name == "freq_min" then Some(UInt(s.cfg.freqMin))
    else if name == "freq_step" then Some(UInt(s.cfg.freqStep))
    else if name == "startable" then Some(Str(Some(StartableText(s.cond.offline, s.cond.hpConnected))))
    else if name == "state" then Some(Str(Some(StateName(s.state))))
    else if name == "rds_ps" then Some(Str(Some(s.cfg.rdsPs)))
    else if name == "rds_text" then Some(Str(Some(s.cfg.rdsText)))
    else None
  }

  /** After every property access the exit timer runs again unless the
      transmitter is on or the daemon is waiting to resume it. */
  function RearmExit(s: Fmtx): (r: Fmtx)
    ensures r.timers.exit <==> s.timers.exit || (s.state != Enabled && !s.active)
    ensures r == s.(timers := r.timers, trace := r.trace)
    ensures r.timers.idle == s.timers.idle && r.timers.pilot == s.timers.pilot
  {
    if s.state != Enabled && !s.active then ArmTimer(s, ExitTimer) else s
  }

  // ---------------------------------------------------------------------------
  // dbus_glib_marshal_fmtx_object_get

  datatype GetReply = GetReply(ok: bool, value: Option<PropValue>, error: Option<DBusError>)

  function GetSpec(s: Fmtx, name: string): (r: Outcome<GetReply>)
    ensures r.obj == s.(timers := r.obj.timers, trace := r.obj.trace)
    ensures r.obj.timers == s.timers.(exit := s.state != Enabled && !s.active)
    ensures r.ret.ok <==> name in READABLE
    ensures r.ret.ok ==> r.ret.value == PropertyValue(s, name) && r.ret.error.None?
    ensures !r.ret.ok ==> r.ret.error == Some(DBusError(ErrInvalidArgs, "Property does not exist"))
  {
    var s1 := RearmExit(CancelTimer(s, ExitTimer));
    var v := PropertyValue(s, name);
    Outcome(s1, if v.Some? then GetReply(true, v, None)
                else GetReply(false, None, Some(DBusError(ErrInvalidArgs, "Property does not exist"))))
  }

  method GetProperty(obj: FmtxObject, name: string) returns (reply: GetReply)
    requires obj.Valid()
    modifies obj
    ensures obj.Valid()
    ensures Outcome(obj.rec, reply) == GetSpec(old(obj.rec), name)
  {
    obj.RemoveTimeout(ExitTimer);
    var rv := false;
    var v: Option<PropValue> := None;
    if name == "version" {
      v, rv := Some(UInt(1)), true;
    }
    if name == "frequency" {
      v, rv := Some(UInt(obj.rec.cfg.frequency)), true;
    }
    if name == "freq_max" {
      v, rv := Some(UInt(obj.rec.cfg.freqMax)), true;
    }
    if name == "freq_min" {
      v, rv := Some(UInt(obj.rec.cfg.freqMin)), true;
    }
    if name == "freq_step" {
      v, rv := Some(UInt(obj.rec.cfg.freqStep)), true;
    }
    if name == "startable" {
      var text := "";
      var startable;
      if obj.rec.cond.offline {
        text, startable := "Device is in offline mode", false;
      } else {
        startable := true;
      }
      if obj.rec.cond.hpConnected {
        text, startable := "Headphones are connected", false;
      }
      if startable {
        text := "true";
      }
      v, rv := Some(Str(Some(text))), true;
    }
    if name == "state" {
      v, rv := Some(Str(Some(StateName(obj.rec.state)))), true;
    }
    if name == "rds_ps" {
      v, rv := Some(Str(Some(obj.rec.cfg.rdsPs))), true;
    }
    if name == "rds_text" {
      v, rv := Some(Str(Some(obj.rec.cfg.rdsText))), true;
    }
    if obj.rec.state != Enabled && !obj.rec.active {
      obj.AddTimeout(ExitTimer);
    }
    if rv {
      reply := GetReply(true, v, None);
    } else {
      reply := GetReply(false, None, Some(DBusError(ErrInvalidArgs, "Property does not exist")));
    }
  }

  // ---------------------------------------------------------------------------
  // dbus_glib_marshal_fmtx_object_set

  /** What one property branch of the set handler leaves behind: whether the
      name matched, the boolean result, and the error set so far. */
  datatype Handled = Handled(found: bool, ok: bool, error: Option<DBusError>)

  /** The mapping of a 0/1/2 result code to the reply, shared by the
      frequency and RDS branches: 2 succeeds and queues the changed signal,
      1 is FAILED and 0 is INVALID_ARGS. */
  function StatusReply(s: Fmtx, st: Status, failure: string, invalid: string): (r: Outcome<Handled>)
    ensures r.ret.found && (r.ret.ok <==> st == Applied)
    ensures st == Applied ==> r == Outcome(Emit(s, QueueChanged), Handled(true, true, None))
    ensures st == Failed ==> r == Outcome(s, Handled(true, false, Some(DBusError(ErrFailed, failure))))
    ensures st == Rejected ==> r == Outcome(s, Handled(true, false, Some(DBusError(ErrInvalidArgs, invalid))))
  {
    match st
    case Applied => Outcome(Emit(s, QueueChanged), Handled(true, true, None))
    case Failed => Outcome(s, Handled(true, false, Some(DBusError(ErrFailed, failure))))
    case Rejected => Outcome(s, Handled(true, false, Some(DBusError(ErrInvalidArgs, invalid))))
  }

  /** The error a "state" request starts with: a failed initialisation. */
  function InitError(s: Fmtx): (e: Option<DBusError>)
    ensures e.Some? <==> s.state == Error
  {
    if s.state == Error then Some(DBusError(ErrFailed, "Device initialization failed")) else None
  }

  /** The "state" branch. */
  function SetStateSpec(s: Fmtx, v: string, tuneOk: bool): (r: Outcome<Handled>)
    requires Wf(s)
    ensures r.ret.found
    ensures r.obj.cfg == s.cfg && r.obj.cond == s.cond && r.obj.timers.exit == s.timers.exit
    ensures Safe(s) ==> Safe(r.obj)
    ensures v !in {"enabled", "disabled"} ==>
      r == Outcome(s, Handled(true, false, FirstError(InitError(s), ErrInvalidArgs, "Unknown state")))
  {
    if v == "enabled" then EnableRequest(s, tuneOk)
    else if v == "disabled" then DisableRequest(s, tuneOk)
    else StateReply(s, Rejected, FirstError(InitError(s), ErrInvalidArgs, "Unknown state"))
  }

  /** `state = "enabled"`: the offline and headphone errors are recorded
      (the first one set wins), and fmtx_enable runs regardless. */
  function EnableRequest(s: Fmtx, tuneOk: bool): (r: Outcome<Handled>)
    requires Wf(s)
    ensures r.ret.found
    ensures r.obj.cfg == s.cfg && r.obj.cond == s.cond && r.obj.timers.exit == s.timers.exit
    ensures Safe(s) ==> Safe(r.obj)
    ensures r.ret.ok <==> EnableSpec(s, true, tuneOk).ret == Applied
    ensures r.ret.ok ==> r.obj.state == Enabled
    ensures s.state == Error ==> r.ret.error == InitError(s)
    ensures s.state != Error && s.cond.offline ==>
      r.ret.error == Some(DBusError(ErrFailed, "Device is in offline mode"))
    ensures s.state != Error && !s.cond.offline && s.cond.hpConnected ==>
      r.ret.error == Some(DBusError(ErrFailed, "Headphones are connected"))
    ensures !r.ret.ok ==> r.ret.error.Some?
  {
    var e0 := InitError(s);
    var e1 := if s.cond.offline then FirstError(e0, ErrFailed, "Device is in offline mode") else e0;
    var e2 := if s.cond.hpConnected then FirstError(e1, ErrFailed, "Headphones are connected") else e1;
    var res := EnableSpec(s, true, tuneOk);
    StateReply(res.obj, res.ret, e2)
  }

  /** `state = "disabled"`: fmtx_enable(FALSE), which always succeeds unless
      the device is not available, and the pilot timer is cancelled. */
  function DisableRequest(s: Fmtx, tuneOk: bool): (r: Outcome<Handled>)
    requires Wf(s)
    ensures r.ret.found
    ensures r.obj.cfg == s.cfg && r.obj.cond == s.cond && r.obj.timers.exit == s.timers.exit
    ensures Safe(s) ==> Safe(r.obj)
    ensures r.ret.ok <==> s.state != NotAvailable
    ensures !r.obj.timers.pilot
    ensures r.ret.ok ==> r.obj.state == Disabled && !r.obj.timers.idle
    ensures r.ret.error == if s.state == NotAvailable then Some(DBusError(ErrFailed, "Failed to change fmtx state"))
                           else InitError(s)
  {
    var res := EnableSpec(s, false, tuneOk);
    StateReply(CancelTimer(res.obj, PilotTimer), res.ret, InitError(s))
  }

  /** `res == 2` queues the changed and info signals; anything else adds
      "Failed to change fmtx state" unless an error is already set. */
  function StateReply(s: Fmtx, res: Status, e: Option<DBusError>): (r: Outcome<Handled>)
    ensures r.ret.found && (r.ret.ok <==> res == Applied)
    ensures res == Applied ==> r == Outcome(Notify(s), Handled(true, true, e))
    ensures res != Applied ==>
      r == Outcome(s, Handled(true, false, FirstError(e, ErrFailed, "Failed to change fmtx state")))
  {
    if res == Applied then Outcome(Notify(s), Handled(true, true, e))
    else Outcome(s, Handled(true, false, FirstError(e, ErrFailed, "Failed to change fmtx state")))
  }

  /** The "frequency" branch: fmtx_set_frequency and its reply. */
  function FrequencyBranch(s: Fmtx, f: uint32, tuneOk: bool): (r: Outcome<Handled>)
    requires Wf(s)
    ensures Wf(r.obj) && r.ret.found
    ensures r.obj.timers == s.timers && r.obj.state == s.state && r.obj.active == s.active
    ensures Safe(s) ==> Safe(r.obj)
    ensures var t := SetFrequencySpec(s, f, tuneOk);
      (r.ret.ok <==> t.ret == Applied) &&
      (t.ret == Applied ==> r.ret.error == None && r.obj.cfg.frequency == f && r.obj == Emit(t.obj, QueueChanged)) &&
      (t.ret == Failed ==> r.ret.error == Some(DBusError(ErrFailed, "Frequency could not be set")) && r.obj == t.obj) &&
      (t.ret == Rejected ==> r.ret.error == Some(DBusError(ErrInvalidArgs, "Frequency is not currently allowed")) &&
                             r.obj == s)
  {
    var o := SetFrequencySpec(s, f, tuneOk);
    StatusReply(o.obj, o.ret, "Frequency could not be set", "Frequency is not currently allowed")
  }

  /** The "rds_ps" branch: fmtx_set_rds_station_name and its reply. */
  function StationNameBranch(s: Fmtx, v: Option<string>, ioOk: bool): (r: Outcome<Handled>)
    requires Wf(s)
    ensures Wf(r.obj) && r.ret.found
    ensures r.obj.timers == s.timers && r.obj.state == s.state && r.obj.active == s.active
    ensures Safe(s) ==> Safe(r.obj)
    ensures r.ret.ok <==> v.Some? && ioOk
    ensures v.None? ==> r.ret.error == Some(DBusError(ErrInvalidArgs, "Invalid RDS station name")) && r.obj == s
    ensures v.Some? && !ioOk ==>
      r.ret.error == Some(DBusError(ErrFailed, "RDS station name could not be set")) && r.obj == s
    ensures r.ret.ok ==>
      r.ret.error == None && r.obj.cfg.rdsPs == v.value &&
      r.obj == Emit(SetRdsStationNameSpec(s, v, ioOk).obj, QueueChanged)
  {
    var o := SetRdsStationNameSpec(s, v, ioOk);
    StatusReply(o.obj, o.ret, "RDS station name could not be set", "Invalid RDS station name")
  }

  /** The "rds_text" branch: fmtx_set_rds_text and its reply. */
  function RdsTextBranch(s: Fmtx, v: Option<string>, ioOk: bool): (r: Outcome<Handled>)
    requires Wf(s)
    ensures Wf(r.obj) && r.ret.found
    ensures r.obj.timers == s.timers && r.obj.state == s.state && r.obj.active == s.active
    ensures Safe(s) ==> Safe(r.obj)
    ensures r.ret.ok <==> v.Some? && |Utf8(v.value)| <= FMTX_MAX_RDS_TEXT && ioOk
    ensures v.None? || |Utf8(v.value)| > FMTX_MAX_RDS_TEXT ==>
      r.ret.error == Some(DBusError(ErrInvalidArgs, "Invalid RDS text")) && r.obj == s
    ensures v.Some? && |Utf8(v.value)| <= FMTX_MAX_RDS_TEXT && !ioOk ==>
      r.ret.error == Some(DBusError(ErrFailed, "RDS text could not be set")) && r.obj == s
    ensures r.ret.ok ==>
      r.ret.error == None && r.obj.cfg.rdsText == v.value &&
      r.obj == Emit(SetRdsTextSpec(s, v, ioOk).obj, QueueChanged)
  {
    var o := SetRdsTextSpec(s, v, ioOk);
    StatusReply(o.obj, o.ret, "RDS text could not be set", "Invalid RDS text")
  }

  /** The branches of the set handler, on the record after the exit timer
      was cancelled; `ioOk` is whether the RDS file can be opened and
      written. */
  function HandleSet(s: Fmtx, name: string, value: PropValue, tuneOk: bool, ioOk: bool): (r: Outcome<Handled>)
    requires Wf(s)
    requires name == "state" ==> AsString(value).Some?
    ensures Wf(r.obj)
    ensures r.ret.found <==> name in READ_ONLY + WRITABLE
    ensures r.obj.timers.exit == s.timers.exit
    ensures Safe(s) ==> Safe(r.obj)
    ensures name in READ_ONLY ==>
      r == Outcome(s, Handled(true, false, Some(DBusError(ErrAccessDenied, "Property is read only"))))
    ensures name !in READ_ONLY + WRITABLE ==> r == Outcome(s, Handled(false, false, None))
    ensures name == "frequency" ==> r == FrequencyBranch(s, AsUInt(value), tuneOk)
    ensures name == "rds_ps" ==> r == StationNameBranch(s, AsString(value), ioOk)
    ensures name == "rds_text" ==> r == RdsTextBranch(s, AsString(value), ioOk)
  {
    if name in READ_ONLY then
      Outcome(s, Handled(true, false, Some(DBusError(ErrAccessDenied, "Property is read only"))))
    else if name == "frequency" then FrequencyBranch(s, AsUInt(value), tuneOk)
    else if name == "state" then SetStateSpec(s, AsString(value).value, tuneOk)
    else if name == "rds_ps" then StationNameBranch(s, AsString(value), ioOk)
    else if name == "rds_text" then RdsTextBranch(s, AsString(value), ioOk)
    else
      Outcome(s, Handled(false, false, None))
  }

  datatype SetReply = SetReply(ok: bool, error: Option<DBusError>)

  /** The set handler. Setting "state" needs a string value: the handler
      compares it with g_str_equal, which does not accept NULL. */
  function SetSpec(s: Fmtx, name: string, value: PropValue, tuneOk: bool, ioOk: bool): (r: Outcome<SetReply>)
    requires Wf(s)
    requires name == "state" ==> AsString(value).Some?
    ensures Wf(r.obj)
    ensures r.obj.timers.exit <==> r.obj.state != Enabled && !r.obj.active
    ensures Safe(s) ==> Safe(r.obj)
    ensures name in READ_ONLY ==>
      r.ret == SetReply(false, Some(DBusError(ErrAccessDenied, "Property is read only"))) &&
      r.obj == RearmExit(CancelTimer(s, ExitTimer))
    ensures name !in READ_ONLY + WRITABLE ==>
      r.ret == SetReply(false, Some(DBusError(ErrInvalidArgs, "Property does not exist"))) &&
      r.obj == RearmExit(CancelTimer(s, ExitTimer))
    ensures name == "state" ==>
      (r.ret.ok <==> SetStateSpec(CancelTimer(s, ExitTimer), AsString(value).value, tuneOk).ret.ok)
  {
    var s1 := CancelTimer(s, ExitTimer);
    var h := HandleSet(s1, name, value, tuneOk, ioOk);
    Outcome(RearmExit(h.obj),
            SetReply(h.ret.ok, if h.ret.found then h.ret.error
                               else FirstError(h.ret.error, ErrInvalidArgs, "Property does not exist")))
  }

  /** Setting "frequency": the reply follows fmtx_set_frequency's result
      code, a new value is stored and announced, and the exit rule is
      applied to the record afterwards. */
  lemma {:induction false} SetFrequencyReply(s: Fmtx, value: PropValue, tuneOk: bool, ioOk: bool)
    requires Wf(s)
    ensures var r := SetSpec(s, "frequency", value, tuneOk, ioOk);
      var t := SetFrequencySpec(CancelTimer(s, ExitTimer), AsUInt(value), tuneOk);
      (r.ret.ok <==> t.ret == Applied) &&
      (t.ret == Applied ==>
         r.ret.error == None && r.obj.cfg.frequency == AsUInt(value) &&
         r.obj == RearmExit(Emit(t.obj, QueueChanged))) &&
      (t.ret == Failed ==>
         r.ret.error == Some(DBusError(ErrFailed, "Frequency could not be set")) && r.obj == RearmExit(t.obj)) &&
      (t.ret == Rejected ==>
         r.ret.error == Some(DBusError(ErrInvalidArgs, "Frequency is not currently allowed")) &&
         r.obj == RearmExit(CancelTimer(s, ExitTimer)))
  {
    var s1 := CancelTimer(s, ExitTimer);
    assert HandleSet(s1, "frequency", value, tuneOk, ioOk) == FrequencyBranch(s1, AsUInt(value), tuneOk);
  }

  /** Setting "rds_ps": success exactly for a string when the file can be
      written; the name is then stored and announced. */
  lemma {:induction false} SetStationNameReply(s: Fmtx, value: PropValue, tuneOk: bool, ioOk: bool)
    requires Wf(s)
    ensures var r := SetSpec(s, "rds_ps", value, tuneOk, ioOk); var v := AsString(value);
      var s1 := CancelTimer(s, ExitTimer);
      (r.ret.ok <==> v.Some? && ioOk) &&
      (v.None? ==>
         r.ret.error == Some(DBusError(ErrInvalidArgs, "Invalid RDS station name")) && r.obj == RearmExit(s1)) &&
      (v.Some? && !ioOk ==>
         r.ret.error == Some(DBusError(ErrFailed, "RDS station name could not be set")) && r.obj == RearmExit(s1)) &&
      (r.ret.ok ==>
         r.ret.error == None && r.obj.cfg.rdsPs == v.value &&
         r.obj == RearmExit(Emit(SetRdsStationNameSpec(s1, v, ioOk).obj, QueueChanged)))
  {
    var s1 := CancelTimer(s, ExitTimer);
    assert HandleSet(s1, "rds_ps", value, tuneOk, ioOk) == StationNameBranch(s1, AsString(value), ioOk);
  }

  /** Setting "rds_text": success exactly for a string of at most 64 bytes
      when the file can be written; the text is then stored and announced. */
  lemma {:induction false} SetRdsTextReply(s: Fmtx, value: PropValue, tuneOk: bool, ioOk: bool)
    requires Wf(s)
    ensures var r := SetSpec(s, "rds_text", value, tuneOk, ioOk); var v := AsString(value);
      var s1 := CancelTimer(s, ExitTimer);
      (r.ret.ok <==> v.Some? && |Utf8(v.value)| <= FMTX_MAX_RDS_TEXT && ioOk) &&
      (v.None? || |Utf8(v.value)| > FMTX_MAX_RDS_TEXT ==>
         r.ret.error == Some(DBusError(ErrInvalidArgs, "Invalid RDS text")) && r.obj == RearmExit(s1)) &&
      (v.Some? && |Utf8(v.value)| <= FMTX_MAX_RDS_TEXT && !ioOk ==>
         r.ret.error == Some(DBusError(ErrFailed, "RDS text could not be set")) && r.obj == RearmExit(s1)) &&
      (r.ret.ok ==>
         r.ret.error == None && r.obj.cfg.rdsText == v.value &&
         r.obj == RearmExit(Emit(SetRdsTextSpec(s1, v, ioOk).obj, QueueChanged)))
  {
    var s1 := CancelTimer(s, ExitTimer);
    assert HandleSet(s1, "rds_text", value, tuneOk, ioOk) == RdsTextBranch(s1, AsString(value), ioOk);
  }

  method SetState(obj: FmtxObject, v: string, tuneOk: bool) returns (h: Handled)
    requires obj.Valid()
    modifies obj
    ensures obj.Valid()
    ensures Outcome(obj.rec, h) == SetStateSpec(old(obj.rec), v, tuneOk)
  {
    if v == "enabled" {
      h := RequestEnable(obj, tuneOk);
    } else if v == "disabled" {
      h := RequestDisable(obj, tuneOk);
    } else {
      var err := if obj.rec.state == Error then Some(DBusError(ErrFailed, "Device initialization failed")) else None;
      err := FirstError(err, ErrInvalidArgs, "Unknown state");
      h := Handled(true, false, FirstError(err, ErrFailed, "Failed to change fmtx state"));
    }
  }

  method RequestEnable(obj: FmtxObject, tuneOk: bool) returns (h: Handled)
    requires obj.Valid()
    modifies obj
    ensures obj.Valid()
    ensures Outcome(obj.rec, h) == EnableRequest(old(obj.rec), tuneOk)
  {
    var err := if obj.rec.state == Error then Some(DBusError(ErrFailed, "Device initialization failed")) else None;
    if obj.rec.cond.offline {
      err := FirstError(err, ErrFailed, "Device is in offline mode");
    }
    if obj.rec.cond.hpConnected {
      err := FirstError(err, ErrFailed, "Headphones are connected");
    }
    var res := Enable(obj, true, tuneOk);
    h := FinishState(obj, res, err);
  }

  method RequestDisable(obj: FmtxObject, tuneOk: bool) returns (h: Handled)
    requires obj.Valid()
    modifies obj
    ensures obj.Valid()
    ensures Outcome(obj.rec, h) == DisableRequest(old(obj.rec), tuneOk)
  {
    var err := if obj.rec.state == Error then Some(DBusError(ErrFailed, "Device initialization failed")) else None;
    var res := Enable(obj, false, tuneOk);
    obj.RemoveTimeout(PilotTimer);
    h := FinishState(obj, res, err);
  }

  method FinishState(obj: FmtxObject, res: Status, err: Option<DBusError>) returns (h: Handled)
    modifies obj
    ensures Outcome(obj.rec, h) == StateReply(old(obj.rec), res, err)
  {
    if res == Applied {
      obj.Record(QueueChanged);
      obj.Record(QueueInfo);
      h := Handled(true, true, err);
    } else {
      h := Handled(true, false, FirstError(err, ErrFailed, "Failed to change fmtx state"));
    }
  }

  /** A 0/1/2 result code as the reply of its property branch. */
  method ReplyTo(obj: FmtxObject, st: Status, failure: string, invalid: string) returns (h: Handled)
    modifies obj
    ensures Outcome(obj.rec, h) == StatusReply(old(obj.rec), st, failure, invalid)
  {
    if st == Applied {
      obj.Record(QueueChanged);
      h := Handled(true, true, None);
    } else if st == Failed {
      h := Handled(true, false, Some(DBusError(ErrFailed, failure)));
    } else {
      h := Handled(true, false, Some(DBusError(ErrInvalidArgs, invalid)));
    }
  }

  method HandleProperty(obj: FmtxObject, name: string, value: PropValue, tuneOk: bool, ioOk: bool)
    returns (h: Handled)
    requires obj.Valid()
    requires name == "state" ==> AsString(value).Some?
    modifies obj
    ensures obj.Valid()
    ensures Outcome(obj.rec, h) == HandleSet(old(obj.rec), name, value, tuneOk, ioOk)
  {
    h := Handled(false, false, None);
    if name in READ_ONLY {
      h := Handled(true, false, Some(DBusError(ErrAccessDenied, "Property is read only")));
    } else if name == "frequency" {
      var st := SetFrequency(obj, AsUInt(value), tuneOk);
      h := ReplyTo(obj, st, "Frequency could not be set", "Frequency is not currently allowed");
    } else if name == "state" {
      h := SetState(obj, AsString(value).value, tuneOk);
    } else if name == "rds_ps" {
      var st := SetRdsStationName(obj, AsString(value), ioOk);
      h := ReplyTo(obj, st, "RDS station name could not be set", "Invalid RDS station name");
    } else if name == "rds_text" {
      var st := SetRdsText(obj, AsString(value), ioOk);
      h := ReplyTo(obj, st, "RDS text could not be set", "Invalid RDS text");
    }
  }

  method SetProperty(obj: FmtxObject, name: string, value: PropValue, tuneOk: bool, ioOk: bool)
    returns (reply: SetReply)
    requires obj.Valid()
    requires name == "state" ==> AsString(value).Some?
    modifies obj
    ensures obj.Valid()
    ensures Outcome(obj.rec, reply) == SetSpec(old(obj.rec), name, value, tuneOk, ioOk)
  {
    obj.RemoveTimeout(ExitTimer);
    var h := HandleProperty(obj, name, value, tuneOk, ioOk);
    if obj.rec.state != Enabled && !obj.rec.active {
      obj.AddTimeout(ExitTimer);
    }
    if !h.found {
      h := h.(error := FirstError(h.error, ErrInvalidArgs, "Property does not exist"));
    }
    reply := SetReply(h.ok, h.error);
  }
}
