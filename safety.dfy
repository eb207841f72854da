// The daemon as a whole: every callback the main loop can run, applied to the
// record in any order, keeps the transmitter off while the device is offline
// or headphones are plugged in.

module Safety {
  import opened FmtxRecord
  import opened Audio
  import opened Signals
  import opened Properties
  import opened Daemon

  /** One callback run by the main loop. The timer events may come in any
      state, also when their timer is not armed and after the exit timer
      has fired: the main loop runs only some of these sequences, so an
      invariant kept over all of them is kept over the ones it runs. */
  datatype Event =
    | DeviceMode(mode: string)
    | Headphone(jack: Option<bool>)
    | UsbMode(usbMode: Option<string>)
    | CallState(callState: string)
    | SinkChanged(eol: bool, running: bool)
    | MixerPoll(idx: uint32)
    | IdleFires
    | PilotFires
    | ExitFires
    | NameOwner(name: string)
    | GetProp(name: string)
    | SetProp(name: string, value: PropValue, ioOk: bool)

  /** An event together with what the tuner does while it runs. */
  datatype Input = Input(event: Event, tuneOk: bool)

  /** The "state" property is always set to a string. */
  predicate Admissible(e: Event)
  {
    e.SetProp? && e.name == "state" ==> AsString(e.value).Some?
  }

  function Step(s: Fmtx, i: Input): (r: Fmtx)
    requires Wf(s) && Admissible(i.event)
    ensures Wf(r)
    ensures Safe(s) ==> Safe(r)
  {
    match i.event
    case DeviceMode(_) => ConditionStep(s, i)
    case Headphone(_) => ConditionStep(s, i)
    case UsbMode(_) => ConditionStep(s, i)
    case CallState(_) => ConditionStep(s, i)
    case SinkChanged(_, _) => ConditionStep(s, i)
    case MixerPoll(_) => ConditionStep(s, i)
    case IdleFires => TimerStep(s, i)
    case PilotFires => TimerStep(s, i)
    case ExitFires => TimerStep(s, i)
    case NameOwner(_) => BusStep(s, i)
    case GetProp(_) => BusStep(s, i)
    case SetProp(_, _, _) => BusStep(s, i)
  }

  /** The signal, PulseAudio and mixer callbacks. */
  function ConditionStep(s: Fmtx, i: Input): (r: Fmtx)
    requires Wf(s)
    ensures Wf(r)
    ensures Safe(s) ==> Safe(r)
  {
    var t := i.tuneOk;
    match i.event
    case DeviceMode(mode) => DeviceModeSpec(s, mode, t)
    case Headphone(jack) => HeadphoneSpec(s, jack, t)
    case UsbMode(usbMode) => UsbModeAsWritten(s, usbMode, t)
    case CallState(callState) => CallStateSpec(s, callState, t)
    case SinkChanged(eol, running) => SinkInfoSpec(s, eol, running, t)
    case MixerPoll(idx) => CheckMixerSpec(s, idx, t).obj
    case _ => s
  }

  /** The three timers firing. */
  function TimerStep(s: Fmtx, i: Input): (r: Fmtx)
    requires Wf(s)
    ensures Wf(r)
    ensures Safe(s) ==> Safe(r)
  {
    match i.event
    case IdleFires => IdleTimeoutSpec(s).obj
    case PilotFires => PilotTimeoutSpec(s, i.tuneOk).obj
    case ExitFires => s.(exited := true)
    case _ => s
  }

  /** The bus: a new owner of the policy service, and property access. */
  function BusStep(s: Fmtx, i: Input): (r: Fmtx)
    requires Wf(s) && Admissible(i.event)
    ensures Wf(r)
    ensures Safe(s) ==> Safe(r)
  {
    match i.event
    case NameOwner(name) => NameOwnerChangedSpec(s, name).obj
    case GetProp(name) => GetSpec(s, name).obj
    case SetProp(name, value, ioOk) => SetSpec(s, name, value, i.tuneOk, ioOk).obj
    case _ => s
  }

  /** The record after the inputs, in order. */
  function Run(s: Fmtx, inputs: seq<Input>): (r: Fmtx)
    requires Wf(s) && forall k :: 0 <= k < |inputs| ==> Admissible(inputs[k].event)
    decreases |inputs|
  {
    if |inputs| == 0 then s else Run(Step(s, inputs[0]), inputs[1..])
  }

  /** Safety is an invariant of every run. */
  lemma {:induction false} RunSafe(s: Fmtx, inputs: seq<Input>)
    requires Wf(s) && Safe(s) && forall k :: 0 <= k < |inputs| ==> Admissible(inputs[k].event)
    ensures Wf(Run(s, inputs)) && Safe(Run(s, inputs))
    decreases |inputs|
  {
    if |inputs| > 0 {
      RunSafe(Step(s, inputs[0]), inputs[1..]);
    }
  }

  /** Start-up never switches the transmitter on. */
  lemma {:induction false} StartupSafe(bus: BusEnv, mixerFound: bool, env: InitEnv, tuneOk: bool)
    requires |env.radioOpens| == 2
    ensures var r := StartupSpec(InitialObject(), bus, mixerFound, env, tuneOk).obj;
      Wf(r) && r.state != Enabled
  {
    ConnectSignalsOutcome(InitialObject(), bus, tuneOk);
  }

  /** From the daemon's start, whatever the environment later does, the
      transmitter is never on while the device is offline or headphones are
      plugged in. */
  lemma {:induction false} DaemonSafe(bus: BusEnv, mixerFound: bool, env: InitEnv, tuneOk: bool, inputs: seq<Input>)
    requires |env.radioOpens| == 2
    requires forall k :: 0 <= k < |inputs| ==> Admissible(inputs[k].event)
    ensures var s := StartupSpec(InitialObject(), bus, mixerFound, env, tuneOk).obj;
      Wf(s) && Safe(Run(s, inputs))
  {
    StartupSafe(bus, mixerFound, env, tuneOk);
    RunSafe(StartupSpec(InitialObject(), bus, mixerFound, env, tuneOk).obj, inputs);
  }
}
