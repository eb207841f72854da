# fmtx-middleware: a verified model of the FM-transmitter daemon's decision engine

`fmtxd` is the daemon behind the FM transmitter of the Nokia N900 (Maemo
Leste). It owns one `FmtxObject` record, published on D-Bus as
`com.nokia.FMTx`. It decides when the transmitter may be on. The
transmitter is switched off while the device is offline, while headphones are
plugged in, while a USB cable is attached and during a call. After a forced
switch-off by headphones, a USB cable or a call it is switched back on by
itself when the last of those blockers goes away; going offline switches it
off for good, until a client enables it again. While the audio route is not
engaged it plays a pilot "chirp" and gives up after 50 seconds. It ends the
process a minute after the last client lost interest.

This project models that engine in Dafny.

- `record.dfy` (module `FmtxRecord`) models:
  - the record, with closed enumerations for the `state` string and for the 0/1/2 result codes;
  - the three timer handles, as armed flags;
  - the hardware and persistence side effects, as an append-only trace of `Effect`s;
  - the class `FmtxObject`, whose single field `rec` the operations update in place.
- `audio.dfy` (module `Audio`) models audio.c:
  - `fmtx_set_frequency` with its grid-walk loop, and `fmtx_enable`;
  - `fmtx_toggle_pilot`, which is mutually recursive with `fmtx_enable`;
  - the idle and pilot timer callbacks, and the PulseAudio sink callback.
- `signals.dfy` (module `Signals`) models dbus.c: the device-mode, headphone,
  USB and call callbacks, and the error and offline effects of `connect_dbus_signals`.
- `properties.dfy` (module `Properties`) models fmtx-object.c:
  - `emit_info`, `exit_timeout_cb` and the two RDS setters;
  - the station-name buffer fill, kept as the buffer loop;
  - the D-Bus property get and set handlers, with their error mapping and their exit-timer rule.
- `daemon.dfy` (module `Daemon`) models main.c:
  - power-level clamping, calibration selection and the region table;
  - the `/dev/radio` probe loop and the step sequence of `fmtx_init`;
  - `check_mixer`, `nameownerchanged_cb` and the tail of `main`.
- `safety.dfy` (module `Safety`) puts every callback behind one event type. It
  proves the daemon's central promise for any sequence of events after
  start-up: the transmitter is never "enabled" while the device is offline or
  headphones are connected.

Each C function that updates the record becomes a method that takes the
`FmtxObject` and updates its `rec` field, plus a specification function on the
record value. The method's `ensures` says
that the new record and the return value are what the function gives for the
old record. The function's own `ensures` and the lemmas beside it state what
the daemon promises.

Inputs from the outside world become parameters:

- whether a sysfs file can be opened and written (`ioOk` and the `InitEnv` flags);
- whether the tuner ioctls succeed (`tuneOk`);
- the answers of HAL, MCE, SystemInfo and gconf (`Option` values);
- the calibration block (`CalBlock`);
- what `open` returns for `/dev/radio0` and `/dev/radio1`.

Behaviour of the code worth knowing:

- A frequency is accepted only if it lies exactly on the grid
  `freq_min + k * freq_step`, up to `freq_max`. It is not snapped to the
  nearest channel (`Audio.ScanGrid`, `Audio.OnGridMeansSteps`).
- The pilot chirp plays when the transmitter is enabled and the audio route is
  *not* fully engaged (mixer initialised and sink running). Otherwise silence
  is written (`Audio.ShouldChirp`, `Audio.TogglePilotSpec`).
- D-Bus strings are UTF-8, and the C code counts and copies their bytes. The
  model keeps strings as characters and writes their bytes, one char per byte
  (`FmtxRecord.Utf8`): the RDS text limit of 64 is a limit on bytes, and the
  station name is cut after eight bytes, which can split a character.
- The power level is formatted into a ten-byte buffer, so at most nine digits
  reach the chip (`Daemon.LevelText`).
- The get handler answers `freq_min`, `freq_max` and `freq_step`. The set
  handler's read-only list spells them `frequency_min`, `frequency_max` and
  `frequency_step`. Setting `freq_min` is therefore reported as "Property does
  not exist", not "Property is read only" (`Properties.READABLE`,
  `Properties.READ_ONLY`).

## Model

| member | source | states |
|---|---|---|
| FmtxRecord.InitialObject | fmtx-object.c:403-427 | the record the constructor builds: "initializing", step 100, no radio device (-1), no timer armed, `active` clear, and it is well formed and safe |
| FmtxRecord.ArmTimer | audio.c:216-218 | `g_timeout_add` into a slot: that slot is armed, the Arm effect with the slot's delay is appended, nothing else changes |
| FmtxRecord.CancelTimer | audio.c:157-161 | `if (slot) { g_source_remove; slot = 0 }`: the slot ends unarmed, and a Cancel effect appears exactly when it was armed |
| FmtxRecord.SysfsWrite | fmtx-object.h:13-24 | `WRITE_FMTX_SYSFS` writes `sizeof` a string literal: the text followed by its NUL, to the chip's sysfs directory |
| FmtxRecord.Utf8Char | fmtx-object.c:46-127 | the UTF-8 bytes of one character: one to four, ASCII alone is one byte |
| FmtxRecord.Utf8 | fmtx-object.c:46-127 | the bytes of a string are at least as many as its characters, and ASCII text is its own encoding |
| FmtxRecord.Utf8Append | fmtx-object.c:46-127 | encoding distributes over concatenation |
| FmtxRecord.FmtxObject.constructor | fmtx-object.c:403-427 | the new object holds the initial record |
| FmtxRecord.FmtxObject.AddTimeout | audio.c:216-218 | the record afterwards is `ArmTimer` of the record before |
| FmtxRecord.FmtxObject.RemoveTimeout | audio.c:192-196 | the record afterwards is `CancelTimer` of the record before |
| Audio.ScanGrid | audio.c:75-86 | the walk from freq_min by freq_step stops at or below freq_max exactly when the request is on the grid, and then on the request itself |
| Audio.OnGridMeansSteps | audio.c:75-86 | the grid test is "freq_min plus a whole number of steps, not above freq_max", both directions |
| Audio.SetFrequencySpec | audio.c:62-112 | no device: 1 and no change. Off the grid (or max below min): 0 and no change. On the grid: the value is stored and saved, and it is re-tuned only when the state is "enabled", returning 2 unless tuning fails |
| Audio.SetFrequency | audio.c:62-112 | the record and result are those of SetFrequencySpec |
| Audio.SetFrequencyExact | audio.c:72-88 | with a device present, refusal happens exactly for off-grid values, and the stored frequency changes only to an on-grid request |
| Audio.SetMute | audio.c:49-60 | a Mute effect is appended and nothing else changes (the ioctl's failure is only logged) |
| Audio.EnableSpec | audio.c:114-178 | "n/a": 0 and no change. Enable while enabled: 2 and no change. Enable while offline or with headphones in: muted, "disabled", 0. Otherwise 2, 0 or 1 as the tune step decides, and the state ends "enabled" exactly when it was or the switch-on can succeed (available, not offline, no headphones, a radio open and the frequency on the grid). Disable: always 2, "disabled", `active` clear, idle timer cancelled. Safety is kept, and the settings, conditions and exit timer are untouched |
| Audio.SwitchOn | audio.c:124-149 | the enable path from a state other than "enabled": refused while offline or with headphones in, otherwise the outcome of the first tune step; it ends "enabled" exactly when it returns 2 |
| Audio.SwitchOff | audio.c:152-175 | the disable path: always 2, "disabled", `active` clear and no idle timer. An already disabled record only loses the idle timer |
| Audio.SwitchOnTuned | audio.c:142-149 | a switch-on whose tune step succeeded returns 2, ends "enabled", keeps the settings and conditions, and is safe when neither offline nor headphones |
| Audio.SwitchOnTunedTx | audio.c:142-149 | the record and result afterwards are those of SwitchOnTuned |
| Audio.EnableOut | audio.c:142-149 | after `out:` the result is 2, the enabled flag is saved first, and an enabled transmitter stays enabled |
| Audio.EnableTail | audio.c:142-149 | the record and result afterwards are those of EnableOut |
| Audio.Enable | audio.c:114-178 | the record and result are those of EnableSpec |
| Audio.SwitchOnTx | audio.c:122-149 | the record and result afterwards are those of SwitchOn |
| Audio.SwitchOffTx | audio.c:152-175 | the record and result afterwards are those of SwitchOff |
| Audio.DisableEffects | audio.c:152-175 | disabling a transmitter that is on cancels the idle timer, mutes, saves "disabled", writes the silent tone and re-saves the frequency when a radio is open and it is on the grid, in that order |
| Audio.EnableEffects | audio.c:122-149 | a successful switch-on unmutes, saves the frequency and "enabled", chirps and arms the pilot timer unless the route is engaged (then the last tone is silence), and ends by saving and tuning the frequency |
| Audio.WriteTone | audio.c:203-213 | exactly the four tone parameter writes are appended, in the order frequency, deviation, off time, on time |
| Audio.WriteToneParams | audio.c:203-213 | the record afterwards is WriteTone of the record before |
| Audio.Chirp | audio.c:210-218 | the chirp writes 1760/6750/2000/50 and arms the pilot timer only if it was unarmed |
| Audio.StartChirp | audio.c:210-218 | the record afterwards is Chirp of the record before |
| Audio.TogglePilotSpec | audio.c:180-220 | the chirp plays exactly when the state is "enabled" and the route is not fully engaged. Otherwise the last four writes are zeros, preceded by an auto-resume when `active`, sink running and no blocker; that resume clears `active` and the idle timer and ends "enabled" exactly when it was or the switch-on can succeed. Safety is kept |
| Audio.Resume | audio.c:186-202 | the auto-resume leaves `active` clear and the idle timer as it was, keeps safety, and ends "enabled" exactly when the transmitter was on or the switch-on can succeed |
| Audio.ResumeTx | audio.c:186-202 | the record afterwards is Resume of the record before |
| Audio.TogglePilot | audio.c:180-220 | the record afterwards is that of TogglePilotSpec |
| Audio.SwitchOnChirps | audio.c:133-147 | switching on with the mixer not initialised starts the chirp and arms the pilot timer |
| Audio.ResumeOverwritesChirp | audio.c:186-206 | after an auto-resume with the mixer not initialised, the transmitter is on and the pilot timer armed, yet the last tone written is silence: the outer toggle overwrites the inner one's chirp |
| Audio.IdleTimeoutSpec | audio.c:16-23 | `active` and the idle slot are cleared, the exit timer is armed, the pilot timer is untouched, and the callback returns FALSE |
| Audio.IdleTimeout | audio.c:16-23 | the record and result are those of IdleTimeoutSpec |
| Audio.Suspend | audio.c:29-42 | the forced switch-off: "disabled", `active` set, idle timer armed (kept if armed already), safety holds |
| Audio.SuspendTx | audio.c:33-41 | the record afterwards is Suspend of the record before |
| Audio.PilotTimeoutSpec | audio.c:25-47 | when not `active`, enabled and the route not engaged: suspended with `active` and the idle timer. Otherwise only the pilot slot is cleared. Always FALSE with no pilot timer left |
| Audio.PilotTimeout | audio.c:25-47 | the record and result are those of PilotTimeoutSpec |
| Audio.SinkInfoSpec | audio.c:223-232 | the end-of-list marker changes nothing; a sink report stores whether the sink runs and re-evaluates the pilot: the chirp when it should play, otherwise the last writes are silence, with an auto-resume exactly when its conditions hold, which then ends "enabled" exactly when it was or the switch-on can succeed. Safety is kept |
| Audio.SinkInfo | audio.c:223-232 | the record afterwards is that of SinkInfoSpec |
| Signals.ResumeAfter | dbus.c:162-174 | the shared auto-resume clears `active` and the idle timer, keeps safety and the settings, and switches the transmitter back on exactly when it was on or the switch-on can succeed |
| Signals.ResumeAfterTx | dbus.c:162-174 | the record afterwards is ResumeAfter of the record before |
| Signals.DeviceModeSpec | dbus.c:9-26 | `offline` becomes "mode is not normal". Going offline while enabled disables and clears `active`. Any other case changes only the flag. Going offline always leaves the record safe |
| Signals.DeviceModeChanged | dbus.c:9-26 | the record afterwards is that of DeviceModeSpec |
| Signals.HeadphoneSpec | dbus.c:100-178 | a failed query changes nothing. Headphones in while enabled: the cable error signal, then "disabled", `active`, idle timer. Headphones out: auto-resume only when `active` and neither USB nor a call blocks, and it then switches the transmitter back on exactly when the switch-on can succeed. Plugging in always leaves the record safe |
| Signals.HeadphoneChanged | dbus.c:100-178 | the record afterwards is that of HeadphoneSpec |
| Signals.UsbModeAsWritten | dbus.c:29-98 | the USB callback as written: a failed query changes nothing, `usb_connected` is "mode is not b_idle", and plugging in while enabled gives the USB error signal, then "disabled" with `active` set and no idle timer, because the `if (obj->idle_timeout)` re-arm is never taken. Safety is kept |
| Signals.UsbAsWrittenNeverArmsIdle | dbus.c:77-91 | as written, plugging USB in while enabled leaves "disabled" with `active` set and no idle timer |
| Signals.UsbIdle | dbus.c:56-72 | `b_idle` clears `usb_connected` and auto-resumes only when `active` and neither headphones nor a call block it; the resume switches the transmitter back on exactly when it was on or the switch-on can succeed |
| Signals.UsbModeSpec | dbus.c:29-98 | the corrected reference callback: as written, except that plugging in while enabled ends with an armed idle timer. Safety is kept |
| Signals.UsbModeDiffersOnlyInIdleTimer | dbus.c:86-90 | the corrected callback is the written one plus arming the idle timer in the plug-in-while-enabled case |
| Signals.UsbModeChanged | dbus.c:29-98 | the record afterwards is that of UsbModeAsWritten, the code as it stands |
| Signals.UsbPluggedTx | dbus.c:77-91 | the plug-in branch records the USB error, disables, queues the signals and sets `active`, and leaves no idle timer |
| Signals.CallStateSpec | dbus.c:210-245 | `call_active` follows the call state. A call while enabled gives "disabled", `active` and an idle timer. A call's end auto-resumes only when `active` and neither USB nor headphones block it, and then switches the transmitter back on exactly when it was on or the switch-on can succeed. Safety is kept |
| Signals.CallStateChanged | dbus.c:210-245 | the record afterwards is that of CallStateSpec |
| Signals.ConnectSignalsOutcome | dbus.c:247-337 | on a fresh record the state ends "error" exactly when a proxy the sequence reached could not be created; a mode other than "normal" marks the device offline |
| Signals.ConnectSignalsSpec | dbus.c:247-337 | connect_dbus_signals: the settings are untouched and effects are only appended; without the headphone proxy only the state changes, to "error"; once the MCE proxies exist, a mode other than "normal" leaves the device offline |
| Signals.ConnectSignals | dbus.c:247-337 | the record afterwards is that of ConnectSignalsSpec |
| Properties.EmitInfoSpec | fmtx-object.c:13-34 | the info signal carries "1" exactly when the state is "enabled"; the callback returns FALSE |
| Properties.EmitInfo | fmtx-object.c:13-34 | the record and result are those of EmitInfoSpec |
| Properties.ExitTimeout | fmtx-object.c:36-44 | the process is marked as gone and nothing else changes |
| Properties.SetRdsTextSpec | fmtx-object.c:46-80 | 2 exactly for a text of at most 64 bytes (UTF-8) that can be written; 0 for NULL or too long; nothing changes unless 2; on 2 the text is stored and its bytes written with their NUL |
| Properties.SetRdsText | fmtx-object.c:46-80 | the record and result are those of SetRdsTextSpec |
| Properties.Utf8Repeat | fmtx-object.c:52 | a run of one character takes that many times its byte length |
| Properties.RdsTextLimitInBytes | fmtx-object.c:52 | 64 ASCII letters are accepted and 40 accented letters (80 bytes) are refused |
| Properties.StationNamePayload | fmtx-object.c:92-105 | nine bytes: the name's first eight UTF-8 bytes, space-padded, then NUL |
| Properties.FillStationName | fmtx-object.c:92-105 | the `strncpy`, the do-while padding loop and the NUL fill the buffer with StationNamePayload |
| Properties.StationNamePadding | fmtx-object.c:92-105 | names shorter than eight bytes are kept and padded with spaces; longer ones are cut to eight bytes; an ASCII name keeps its first eight characters |
| Properties.StationNameSplitsCharacter | fmtx-object.c:92-105 | after seven ASCII letters a two-byte character contributes only its lead byte to the name |
| Properties.SetRdsStationNameSpec | fmtx-object.c:82-127 | 0 for NULL, 1 if the file cannot be written, 2 otherwise; on 2 the whole name is stored and the nine-byte payload written |
| Properties.SetRdsStationName | fmtx-object.c:82-127 | the record and result are those of SetRdsStationNameSpec |
| Properties.FirstError | fmtx-object.c:291-332 | a second `g_set_error` keeps the first error |
| Properties.StartableText | fmtx-object.c:181-203 | "true" exactly when neither offline nor headphones; the headphone message wins over the offline one |
| Properties.PropertyValue | fmtx-object.c:146-224 | a value exists exactly for the nine readable names; frequency, state and startable give the record's values |
| Properties.RearmExit | fmtx-object.c:226-227 | the exit timer is armed afterwards exactly when it was, or the state is not "enabled" and `active` is clear |
| Properties.GetSpec | fmtx-object.c:129-236 | the exit timer is cancelled and re-armed exactly when not enabled and not `active`. Success is exactly for readable names, with their value. Otherwise "Property does not exist" |
| Properties.GetProperty | fmtx-object.c:129-236 | the record and reply are those of GetSpec |
| Properties.StatusReply | fmtx-object.c:264-285 | result 2 succeeds and queues "changed", 1 gives FAILED with the branch's message, 0 gives INVALID_ARGS |
| Properties.ReplyTo | fmtx-object.c:264-285 | the record and reply afterwards are those of StatusReply |
| Properties.SetStateSpec | fmtx-object.c:287-335 | an unknown state value gives "Unknown state" unless an initialisation error came first; safety is kept |
| Properties.SetState | fmtx-object.c:287-335 | the record and reply afterwards are those of SetStateSpec |
| Properties.EnableRequest | fmtx-object.c:295-306 | success exactly when fmtx_enable(TRUE) returns 2, and then "enabled". The reported error is "Device initialization failed", "Device is in offline mode" or "Headphones are connected", first set wins |
| Properties.RequestEnable | fmtx-object.c:291-306 | the record and reply afterwards are those of EnableRequest |
| Properties.DisableRequest | fmtx-object.c:309-318 | success exactly when the device is available, and then "disabled" with no idle timer; the pilot timer is cancelled whatever fmtx_enable returns |
| Properties.RequestDisable | fmtx-object.c:309-318 | the record and reply afterwards are those of DisableRequest |
| Properties.StateReply | fmtx-object.c:324-332 | result 2 queues "changed" and "info"; anything else adds "Failed to change fmtx state" unless an error is set |
| Properties.FinishState | fmtx-object.c:324-332 | the record and reply afterwards are those of StateReply |
| Properties.HandleSet | fmtx-object.c:254-379 | a name matches exactly when it is read-only or writable; read-only names are refused with ACCESS_DENIED and no change; "frequency", "rds_ps" and "rds_text" answer as their branches; safety is kept |
| Properties.HandleProperty | fmtx-object.c:254-379 | the record and reply afterwards are those of HandleSet |
| Properties.FrequencyBranch | fmtx-object.c:264-285 | 2 succeeds with the new frequency stored and "changed" queued; 1 gives FAILED "Frequency could not be set" and 0 INVALID_ARGS "Frequency is not currently allowed", with the record left as fmtx_set_frequency left it |
| Properties.StationNameBranch | fmtx-object.c:337-357 | success exactly for a string when the file can be written, storing the name and queueing "changed"; NULL gives INVALID_ARGS "Invalid RDS station name", a write failure FAILED "RDS station name could not be set", both with no change |
| Properties.RdsTextBranch | fmtx-object.c:359-379 | success exactly for a string of at most 64 bytes when the file can be written, storing the text and queueing "changed"; NULL or too long gives INVALID_ARGS "Invalid RDS text", a write failure FAILED "RDS text could not be set", both with no change |
| Properties.SetSpec | fmtx-object.c:238-389 | afterwards the exit timer is armed exactly when not enabled and not `active`. Read-only and unknown names give their errors with no other change. Setting state succeeds exactly when the state request does; the frequency and RDS replies are stated by the three lemmas below. Safety is kept |
| Properties.SetFrequencyReply | fmtx-object.c:238-389 | setting "frequency": the reply is success, FAILED "Frequency could not be set" or INVALID_ARGS "Frequency is not currently allowed" as fmtx_set_frequency returns 2, 1 or 0; on success the value is stored and "changed" queued; the exit rule applies afterwards |
| Properties.SetStationNameReply | fmtx-object.c:238-389 | setting "rds_ps": success exactly for a string that can be written, storing the name; otherwise INVALID_ARGS for NULL or FAILED for the write, with no change but the exit rule |
| Properties.SetRdsTextReply | fmtx-object.c:238-389 | setting "rds_text": success exactly for a string of at most 64 bytes that can be written, storing the text; otherwise INVALID_ARGS or FAILED, with no change but the exit rule |
| Properties.SetProperty | fmtx-object.c:238-389 | the record and reply are those of SetSpec |
| Daemon.Decimal | main.c:102 | `%u` of a number: decimal digits, no leading zero |
| Daemon.DecimalRoundTrip | main.c:102 | the decimal text reads back as the number |
| Daemon.LevelText | main.c:93-102 | `g_snprintf` into `buf[10]`: at most nine characters, a prefix of the decimal text |
| Daemon.LevelTextCut | main.c:93-102 | levels below 10^9 are written in full; ten-digit levels lose their last digit |
| Daemon.SetPowerLevelSpec | main.c:90-124 | above max_power_level: 0 and no change. Write failure: 1 and no change. Success: 2, power_level = max(level, 88), and its decimal text, cut to what the ten-byte buffer holds, is written with its NUL |
| Daemon.SetPowerLevel | main.c:90-124 | the record and result are those of SetPowerLevelSpec |
| Daemon.PowerFloorBeatsCeiling | main.c:96-100 | a calibrated maximum below 88 still yields power level 88, above the maximum |
| Daemon.AsCInt | main.c:80-87 | the unsigned calibration level returned as `int` is the two's-complement reading of the same 32 bits |
| Daemon.CalPowerLevel | main.c:53-88 | -1 without the calibration store, 0 for an unreadable block; otherwise the first, second or third record for "fcc", "etsi", "anfr" by prefix, and 0 for any other standard |
| Daemon.RegionOf | main.c:257-286 | codes 2 to 5 exactly are known: 2 and 3 are "etsi" with step 100, 4 and 5 "fcc" with step 200, even codes 50 µs and odd codes 75 µs pre-emphasis |
| Daemon.RegionPowerLevel | main.c:257-281 | region codes 2 and 3 take the second calibration record, 4 and 5 the first, and the third is never used |
| Daemon.ProbeRadio | main.c:209-229 | only `/dev/radio0` and `/dev/radio1` are tried, a device is accepted exactly when one descriptor is positive, and dev_radio ends as the last descriptor seen |
| Daemon.Probed | main.c:159-229 | the set-up writes and the probe change only the settings and the trace, and dev_radio becomes the `/dev/radio0` descriptor when it is positive, otherwise the `/dev/radio1` one |
| Daemon.InitRds | main.c:299-305 | the power, station-name and text set-up, whose results are ignored, change only those three settings and the trace |
| Daemon.ToUInt32 | main.c:231 | the saved gconf int taken as `unsigned int` agrees with it modulo 2^32 |
| Daemon.SetPreemphasis | main.c:20-51 | the level and its NUL are written to region_preemphasis when the file can be written; nothing else changes |
| Daemon.SetPreemphasisLevel | main.c:20-51 | the record afterwards is SetPreemphasis of the record before |
| Daemon.ApplyRegion | main.c:255-298 | a known code sets the power ceiling from calibration, the step, and the band 88100 to 107900. Any other answer sets "n/a" and changes nothing else |
| Daemon.SetRegion | main.c:255-298 | the record afterwards is ApplyRegion of the record before |
| Daemon.InitFinishSpec | main.c:303-318 | with a device and not enabled the sequence returns 2; it ends "disabled" with `active` clear, or stays "n/a" |
| Daemon.InitFinish | main.c:303-318 | the record and result afterwards are those of InitFinishSpec |
| Daemon.InitSpec | main.c:146-324 | the result is 2 or 1, an enabled transmitter is never produced, and the first write failing returns 1 with nothing changed |
| Daemon.InitOutcome | main.c:146-324 | initialisation returns 2 exactly when the three set-up files are written, a radio device opens and the saved frequency is read; it then leaves "disabled" or "n/a" with a device |
| Daemon.InitErrorState | main.c:209-229 | initialisation ends "error" exactly when the set-up writes succeed and neither radio device opens |
| Daemon.InitFrequency | main.c:307-313 | with a known region the saved frequency is kept when on the region's grid, and 88100 is used otherwise |
| Daemon.InitUnknownRegion | main.c:297-313 | on a record whose band is still empty, as the fresh record's is: with an unknown region the state is "n/a" and the stored frequency becomes freq_min |
| Daemon.Init | main.c:146-324 | the record and result are those of InitSpec |
| Daemon.CheckMixerSpec | main.c:326-347 | the poll always returns TRUE. Without the mixer element nothing changes. Otherwise mixer_inited becomes (idx != 0), and no change happens when that value is unchanged. Safety is kept |
| Daemon.CheckMixerSettles | main.c:326-347 | polling again with the same reading changes nothing |
| Daemon.CheckMixer | main.c:326-347 | the record and result are those of CheckMixerSpec |
| Daemon.NameOwnerChangedSpec | main.c:135-144 | info is emitted exactly for "org.freedesktop.ohm", and the callback returns FALSE |
| Daemon.LaunchSpec | main.c:533-543 | unless the state is "error" (then nothing runs and nothing changes), initialise; an enabled transmitter is never produced from one that was off, and when the main loop runs the transmitter is on or the exit timer is armed |
| Daemon.Launch | main.c:533-543 | the record and result afterwards are those of LaunchSpec |
| Daemon.StartupSpec | main.c:518-543 | connect the signals, record the mixer element, then launch: the record stays well formed, and when the main loop runs the transmitter is on or the exit timer is armed |
| Daemon.LaunchArmsExit | main.c:533-543 | from a record not yet initialised the main loop runs exactly when initialisation succeeds, and then with the transmitter off, the exit timer armed and last effects info "0" and the 60 s exit timer |
| Daemon.StartupArmsExit | main.c:518-543 | from the fresh record the main loop runs exactly when all proxies are created and initialisation succeeds, and then with the exit timer armed |
| Daemon.Startup | main.c:518-543 | the record and result are those of StartupSpec |
| Safety.Step | dbus.c:9-245 | every callback, the USB one as written, keeps the record well formed and safe |
| Safety.ConditionStep | dbus.c:9-245 | the device-mode, headphone, USB (as written), call, sink and mixer callbacks keep the record well formed and safe |
| Safety.TimerStep | audio.c:16-47 | the idle, pilot and exit timers firing keep the record well formed and safe |
| Safety.BusStep | fmtx-object.c:129-389 | a new owner of the policy service and property get and set keep the record well formed and safe |
| Safety.RunSafe | audio.c:120-132 | the transmitter is never on while offline or with headphones, for any sequence of callbacks as they are written |
| Safety.StartupSafe | main.c:518-543 | start-up never produces "enabled" |
| Safety.DaemonSafe | main.c:518-543 | from start-up on, whatever callbacks follow, the transmitter is never on while offline or with headphones connected |

## Left out

- D-Bus, HAL, MCE and SystemInfo proxy creation and calls, and the custom marshaller. Their answers are the `Option` and boolean parameters of the callbacks, `BusEnv` and `InitEnv`.
- The GLib main loop. Timer handles are armed flags, and a timer firing is a callback the environment runs (`Safety.Event`).
- `emit_changed` and the idle-queued signals. They are recorded as `QueueChanged` and `QueueInfo` effects, without modelling a later delivery.
- The PulseAudio connection and subscription plumbing (audio.c:234-300) and the ALSA mixer setup and element search (main.c:350-399). These are foreign libraries. Whether the "FMTX Function" element exists is a parameter of `Daemon.StartupSpec`.
- gconf persistence. Saves are trace effects only. A gconf save error is only logged by the code and is not modelled.
- Calibration reading and its `memcpy`. The three level fields are inputs, and a block shorter than three records (which leaves levels uninitialised) is not represented.
- The frequency-to-tuner-unit conversion with `rint` and long double: floating point. Tuning is one `Tune` effect with its success flag.
- Locale and session-bus file parsing, daemonizing and the `RequestName` registration in `main` (main.c:402-531). This is process bootstrap, and its failures exit the process.
- `exit_timeout_cb` tears the process down. It is modelled as a terminal `exited` flag.
- `dbus_glib_marshal_fmtx_object_get_all` always returns FALSE and has no effect on the record.
- The "Unknown return code" branches of the set handler cannot be reached: the setters return only 0, 1 or 2, as `Status` encodes.
- Strings are modelled without their terminating NUL, and they carry no NUL inside (D-Bus strings cannot). Writes that send the NUL show it explicitly as `"\0"`. Written payloads are byte strings, one char per byte.
- The operational model (the methods, `Safety.Step` and `Safety.RunSafe`) uses the USB callback as written; the corrected `Signals.UsbModeSpec` is a reference for the finding below only.
- `frequency` is a signed `int` in the struct but is only ever assigned grid values, so it is modelled as a 32-bit unsigned field. A `%u`-formatted level is always at least 50, so its signedness does not matter.
- `Properties.SetSpec`, `Properties.HandleSet`, `Properties.HandleProperty`, `Properties.SetProperty` and `Safety.Admissible` (and through it `Safety.Step`, `Safety.Run`, `Safety.RunSafe` and `Safety.DaemonSafe`) require a string value when "state" is set. The C code hands what `g_value_get_string` returns to `g_str_equal`, and a NULL there crashes the daemon, so the model does not define that case. The safety theorem therefore covers the runs without that crash.
- `Audio.EnableSpec`, `Audio.TogglePilotSpec`, `Audio.Resume`: one `tuneOk` flag stands for every tuner ioctl a callback makes, so a callback that tunes twice (a resume nested in a pilot toggle, say) cannot have the first succeed and the later one fail. Only the success flags of the `Tune` effects depend on this; the re-tune's result is ignored and no property rests on it.
- fmtx_client.c, the command-line client, is not part of this model.

## Findings

| source | as written | input that shows it | evidently intended | confidence | as-written member | corrected member |
|---|---|---|---|---|---|---|
| dbus.c:86-90 | after the forced disable the USB callback arms the idle timer only `if (obj->idle_timeout)`; the disable has just zeroed that handle, so the timer is never armed | state "enabled", a USB mode other than `b_idle` reported: `active` is set and no idle timer runs, so the daemon never gives up waiting while the cable stays in, and property access never re-arms the exit timer | `if (!obj->idle_timeout)`, as in the headphone (dbus.c:152) and call (dbus.c:223) callbacks | not executed | Signals.UsbModeAsWritten, Signals.UsbModeChanged, Signals.UsbAsWrittenNeverArmsIdle | Signals.UsbModeSpec, Signals.UsbModeDiffersOnlyInIdleTimer |
