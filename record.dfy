// The transmitter daemon's one object: the FmtxObject record, the hardware and
// persistence effects it causes, and the armed-or-not timer slots.

module FmtxRecord {

  /** The C `unsigned int` the frequency fields are declared with. */
  type uint32 = x: int | 0 <= x < 0x1_0000_0000

  /** Inclusive maximum length of the RDS radio text. */
  const FMTX_MAX_RDS_TEXT: nat := 64

  /** Directory of the transmitter chip's sysfs control files. */
  const FMTX_SYSFS_NODE: string := "/sys/bus/i2c/devices/2-0063/"

  /** Delays handed to the GLib timer facility, in milliseconds. */
  const IDLE_DELAY_MS: nat := 300000
  const PILOT_DELAY_MS: nat := 50000
  const EXIT_DELAY_MS: nat := 60000

  datatype Option<T> = None | Some(value: T)

  /** The `state` string of the record, as a closed enumeration. */
  datatype TxState = Initializing | Error | NotAvailable | Disabled | Enabled

  /** The text the record holds for each state ("n/a" is NotAvailable). */
  function StateName(st: TxState): (name: string)
  {
    match st
    case Initializing => "initializing"
    case Error => "error"
    case NotAvailable => "n/a"
    case Disabled => "disabled"
    case Enabled => "enabled"
  }

  /** Result codes of the fallible operations: 0, 1 and 2 in the C code. */
  datatype Status =
    | Rejected  // 0: input not allowed, or device not available
    | Failed    // 1: talking to the hardware failed
    | Applied   // 2: done

  /** The three timer slots of the record. */
  datatype Timer = IdleTimer | PilotTimer | ExitTimer

  function DelayMs(t: Timer): nat
  {
    match t
    case IdleTimer => IDLE_DELAY_MS
    case PilotTimer => PILOT_DELAY_MS
    case ExitTimer => EXIT_DELAY_MS
  }

  /** Everything the daemon does outside its own record, in order. */
  datatype Effect =
    | Mute(on: bool)                       // mute control ioctl on the radio device
    | Tune(khz: uint32, ok: bool)          // tuner ioctls, and whether they succeeded
    | SaveFrequency(khz: uint32)           // gconf /system/fmtx/frequency
    | SaveEnabled(on: bool)                // gconf /system/fmtx/enabled
    | Write(path: string, bytes: seq<char>) // a write to a sysfs file, one char per byte
    | Arm(timer: Timer, ms: nat)           // g_timeout_add
    | Cancel(timer: Timer)                 // g_source_remove
    | QueueChanged                         // g_idle_add(emit_changed)
    | QueueInfo                            // g_idle_add(emit_info)
    | Info(connected: string)              // the "info" signal, emitted now
    | ErrorSignal(name: string)            // the "error" signal

  /** Values set at start-up or by explicit requests. */
  datatype Settings = Settings(
    powerLevel: int,
    maxPowerLevel: int,
    frequency: uint32,
    freqMax: uint32,
    freqMin: uint32,
    freqStep: uint32,
    rdsPs: string,
    rdsText: string,
    devRadio: int)

  /** The environmental flags the callbacks store. */
  datatype Conditions = Conditions(
    offline: bool,
    hpConnected: bool,
    paRunning: bool,
    callActive: bool,
    usbConnected: bool,
    mixerInited: bool,
    mixerElem: bool)   // whether the "FMTX Function" mixer element was found

  /** The three timer handles, as armed flags (a handle of 0 is unarmed). */
  datatype Timers = Timers(idle: bool, pilot: bool, exit: bool)

  /** The FmtxObject record. `active` is set when the daemon itself turned
      transmission off and may resume it. */
  datatype Fmtx = Fmtx(
    cfg: Settings,
    cond: Conditions,
    state: TxState,
    active: bool,
    timers: Timers,
    exited: bool,        // exit_timeout_cb has run and the process is gone
    trace: seq<Effect>)

  /** What every reachable record satisfies: a positive grid step, and a
      grid walk `f += freq_step` that cannot wrap around 32 bits. */
  predicate Wf(s: Fmtx)
  {
    s.cfg.freqStep > 0 && s.cfg.freqMax + s.cfg.freqStep < 0x1_0000_0000
  }

  /** Transmission is never on while it is physically disallowed. */
  predicate Safe(s: Fmtx)
  {
    s.state == Enabled ==> !s.cond.offline && !s.cond.hpConnected
  }

  /** The record as `fmtx_object_init` leaves it; the fields it does not set
      (`usb_connected`, `exit_timeout`) are zero, as GObject clears instances. */
  function InitialObject(): (s: Fmtx)
    ensures Wf(s) && Safe(s)
    ensures s.state == Initializing && s.cfg.freqStep == 100 && s.cfg.devRadio == -1
    ensures s.timers == Timers(false, false, false) && !s.active
  {
    Fmtx(Settings(0, 0, 0, 0, 0, 100, "", "", -1),
         Conditions(false, false, false, false, false, false, false),
         Initializing, false, Timers(false, false, false), false, [])
  }

  /** The result of an operation on the record: the new record and what the
      C function returns. */
  datatype Outcome<R> = Outcome(obj: Fmtx, ret: R)

  function Emit(s: Fmtx, e: Effect): (r: Fmtx)
  {
    s.(trace := s.trace + [e])
  }

  function Armed(s: Fmtx, t: Timer): bool
  {
    match t
    case IdleTimer => s.timers.idle
    case PilotTimer => s.timers.pilot
    case ExitTimer => s.timers.exit
  }

  function SetSlot(s: Fmtx, t: Timer, armed: bool): (r: Fmtx)
    ensures Armed(r, t) == armed
    ensures r == s.(timers := r.timers)
  {
    match t
    case IdleTimer => s.(timers := s.timers.(idle := armed))
    case PilotTimer => s.(timers := s.timers.(pilot := armed))
    case ExitTimer => s.(timers := s.timers.(exit := armed))
  }

  /** `slot = g_timeout_add(...)`: the slot is overwritten, armed or not. */
  function ArmTimer(s: Fmtx, t: Timer): (r: Fmtx)
    ensures Armed(r, t)
    ensures r == s.(timers := r.timers, trace := s.trace + [Arm(t, DelayMs(t))])
  {
    Emit(SetSlot(s, t, true), Arm(t, DelayMs(t)))
  }

  /** `if (slot) { g_source_remove(slot); slot = 0; }` */
  function CancelTimer(s: Fmtx, t: Timer): (r: Fmtx)
    ensures !Armed(r, t)
    ensures r == s.(timers := r.timers, trace := r.trace)
    ensures r.trace == if Armed(s, t) then s.trace + [Cancel(t)] else s.trace
  {
    if Armed(s, t) then Emit(SetSlot(s, t, false), Cancel(t)) else s
  }

  /** One byte, as the char with that code. */
  function Byte(x: int): (c: char)
    requires 0 <= x < 0x100
    ensures c as int == x
  {
    x as char
  }

  /** The UTF-8 encoding of one character. D-Bus strings are UTF-8, and
      `strlen`, `strncpy` and write(2) count and copy their bytes. */
  function Utf8Char(c: char): (b: string)
    ensures 1 <= |b| <= 4 && forall i :: 0 <= i < |b| ==> b[i] as int < 0x100
    ensures c as int < 0x80 <==> b == [c]
  {
    var n := c as int;
    if n < 0x80 then [c]
    else if n < 0x800 then [Byte(0xC0 + n / 0x40), Byte(0x80 + n % 0x40)]
    else if n < 0x1_0000 then [Byte(0xE0 + n / 0x1000), Byte(0x80 + n / 0x40 % 0x40), Byte(0x80 + n % 0x40)]
    else [Byte(0xF0 + n / 0x4_0000), Byte(0x80 + n / 0x1000 % 0x40), Byte(0x80 + n / 0x40 % 0x40),
          Byte(0x80 + n % 0x40)]
  }

  /** The bytes of a string, one char per byte; ASCII text is its own
      encoding. */
  function Utf8(s: string): (b: string)
    ensures |b| >= |s|
    ensures (forall i :: 0 <= i < |s| ==> s[i] as int < 0x80) ==> b == s
    decreases |s|
  {
    if |s| == 0 then "" else Utf8Char(s[0]) + Utf8(s[1..])
  }

  /** Encoding goes character by character, so it distributes over
      concatenation. */
  lemma {:induction false} Utf8Append(a: string, b: string)
    ensures Utf8(a + b) == Utf8(a) + Utf8(b)
    decreases |a|
  {
    if |a| > 0 {
      assert (a + b)[1..] == a[1..] + b;
      Utf8Append(a[1..], b);
    } else {
      assert a + b == b;
    }
  }

  /** The bytes `WRITE_FMTX_SYSFS(file, val, ...)` hands to write(2):
      `sizeof(val)` of a string literal, so the text and its NUL. The macro
      ignores the results of open and write, so the effect is recorded
      whether or not the write reached the chip; the writes whose failure
      the setters report are recorded only when they succeed
      (fmtx-object.h:13-24). */
  function SysfsWrite(file: string, val: string): (e: Effect)
    ensures e.Write? && e.path == FMTX_SYSFS_NODE + file
    ensures |e.bytes| == |val| + 1 && e.bytes[..|val|] == val && e.bytes[|val|] == '\0'
  {
    Write(FMTX_SYSFS_NODE + file, val + "\0")
  }

  /** The daemon's one FmtxObject. Its record is updated in place, field by
      field, as the C code assigns `obj->field`. */
  class FmtxObject {
    var rec: Fmtx

    ghost predicate Valid()
      reads this
    {
      Wf(rec)
    }

    /** fmtx_object_init. */
    constructor ()
      ensures Valid() && rec == InitialObject()
    {
      rec := InitialObject();
    }

    /** Appends one effect to the trace. */
    method Record(e: Effect)
      modifies this
      ensures rec == Emit(old(rec), e)
    {
      rec := rec.(trace := rec.trace + [e]);
    }

    /** WRITE_FMTX_SYSFS: the outcome is only reported with perror, so
        nothing but the trace changes. */
    method WriteSysfs(file: string, val: string)
      modifies this
      ensures rec == Emit(old(rec), SysfsWrite(file, val))
    {
      rec := rec.(trace := rec.trace + [SysfsWrite(file, val)]);
    }

    /** `slot = g_timeout_add(...)` into slot `t`. */
    method AddTimeout(t: Timer)
      modifies this
      ensures rec == ArmTimer(old(rec), t)
    {
      match t {
        case IdleTimer => rec := rec.(timers := rec.timers.(idle := true));
        case PilotTimer => rec := rec.(timers := rec.timers.(pilot := true));
        case ExitTimer => rec := rec.(timers := rec.timers.(exit := true));
      }
      rec := rec.(trace := rec.trace + [Arm(t, DelayMs(t))]);
    }

    /** `if (slot) { g_source_remove(slot); slot = 0; }` for slot `t`. */
    method RemoveTimeout(t: Timer)
      modifies this
      ensures rec == CancelTimer(old(rec), t)
    {
      if Armed(rec, t) {
        match t {
          case IdleTimer => rec := rec.(timers := rec.timers.(idle := false));
          case PilotTimer => rec := rec.(timers := rec.timers.(pilot := false));
          case ExitTimer => rec := rec.(timers := rec.timers.(exit := false));
        }
        Record(Cancel(t));
      }
    }
  }
}
