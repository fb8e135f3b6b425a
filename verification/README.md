# UPower device monitor — a Dafny model

This project models the power-device monitor of the `dinfo` status bar. The
monitor asks the UPower service on the system D-Bus for its power devices
(batteries, mice, headsets). It builds one snapshot record per device: name,
charge percentage and a display icon. It keeps the list in a lock-protected
store and rebuilds the whole list whenever UPower signals that a device was
added or removed. The unit-name renderings of `src/units.rs` are modelled too.

Every D-Bus exchange is an input value. A property read or method call is an
`Outcome` (`Ok(value)` or `Err(message)`). The bus's answers during one build
pass form a `BusState`: per-device replies keyed by object path, plus a
function answering method calls such as BlueZ's `GetAll`.

- `results.dfy`: `Option` and `Outcome`. `Outcome` works with `:-`, which
  mirrors Rust's `?`.
- `dbus.dfy`: the bus boundary types. A zvariant value is represented by the
  text its `Display` renders.
- `helpers.dfy`: icon resolution. UPower's `IconName` comes first. The BlueZ
  `Icon` property, read through `org.freedesktop.DBus.Properties.GetAll`, is
  asked only for the generic "battery-missing-symbolic" icon on devices whose
  native path starts with `/org/bluez`.
- `devices.dfy`: the `Device` record, its fail-fast builder, and the
  `poll_self` stub.
- `upower_object.dfy`: the object's state and its default, construction with
  degraded returns, the enumeration filter `parse_devices`, the rebuild pass,
  the read-by-copy and the `devices-changed` signal.
- `watcher.dfy`: the task spawned after a successful construction. It is a
  state machine folded over a finite trace of events: a stream item (with the
  bus answers for the pass it triggers), a stream end, or a consumer read. The
  log of effects records every list replacement, signal emission and read.
  Invariants over that log state the concurrency guarantees: reads see whole
  generations, and every emission follows a replacement.
- `units.dfy`: speed, temperature and precipitation unit renderings.

Two behaviours of the code are worth knowing, and the model keeps both:

- The resolved icon can be empty. The code returns UPower's `IconName`
  unchanged whenever it is not the fallback, so an empty name passes through
  (`Helpers.IconMayBeEmpty`). BlueZ's `Icon` text is not checked either.
- The code reads the native path twice. The first read decides the BlueZ
  test; the second supplies the `GetAll` address. The two reads may differ,
  and the model keeps them apart (`IconReplies.bluezCheckPath` and
  `IconReplies.nativePath`).

## Model

| member | source | states |
|---|---|---|
| Helpers.IsBluez | src/upower/helpers.rs:14-22 | true exactly when the native-path read succeeds and the path's first characters are `/org/bluez`; a failed read gives false |
| Helpers.GetBluezIcon | src/upower/helpers.rs:25-46 | BlueZ `GetAll` on `org.bluez.Device1` at the path: a failed call or undecodable body is an error carrying that error; otherwise `Some` of the rendered `Icon` entry exactly when the map has the key, `None` when it lacks it |
| Helpers.GetIcon | src/upower/helpers.rs:50-87 | a failed `icon_name` read gives the fallback; any other UPower icon is returned as is; the fallback stays unless the device is under BlueZ, the second native-path read succeeds and BlueZ's lookup finds an `Icon`, which is then returned |
| Helpers.IconProvenance | src/upower/helpers.rs:50-87 | the resolved icon is UPower's value, the fallback, or BlueZ's `Icon` text, and BlueZ's only for a fallback icon on a BlueZ device |
| Helpers.BluezOnlyForFallback | src/upower/helpers.rs:59 | for any icon read other than the fallback, the native-path replies and BlueZ's answers cannot change the result |
| Helpers.BluezPhoneScenario | src/upower/helpers.rs:59-72 | fallback from UPower for `/org/bluez/...` plus a BlueZ `Icon` value that renders as `phone-symbolic` resolves to `phone-symbolic` |
| Helpers.NonBluezScenario | src/upower/helpers.rs:59-86 | fallback from UPower for a path outside BlueZ stays the fallback |
| Helpers.IconMayBeEmpty | src/upower/helpers.rs:84-86 | an empty UPower icon name is returned unchanged |
| Devices.NewDevice | src/upower/mod.rs:25-34 | the build succeeds exactly when the proxy, `model` and `percentage` reads succeed; its error is the first failing one's; a success carries the model as name, the percentage read, the resolved icon, and a change stream on its own path |
| Devices.ModelFailureShortCircuits | src/upower/mod.rs:28-29 | after a failed `model` read the build fails with that error, whatever `percentage` would answer |
| Devices.PollSelf | src/upower/mod.rs:36-38 | the stub leaves the device unchanged |
| UPowerObject.Default | src/upower/gobject/imp.rs:15-22 | the default object is inert: not initialised, no devices, no connection |
| UPowerObject.GetDevices | src/upower/gobject/imp.rs:25-28 | a read returns the stored list |
| UPowerObject.Signals | src/upower/gobject/imp.rs:39-46 | the class declares one signal, `devices-changed`, without parameters |
| UPowerObject.ParseDevices | src/upower/gobject/mod.rs:160-175 | a device is in the list exactly when some enumerated path built it, and the list has one entry per successful build |
| UPowerObject.ParseDevicesAppend | src/upower/gobject/mod.rs:163-172 | the list for `a + b` is the list for `a` followed by the list for `b`: input order is kept |
| UPowerObject.ParseDevicesAllSucceed | src/upower/gobject/mod.rs:163-174 | when every build succeeds the list is the built devices, position for position |
| UPowerObject.ParseDevicesLoop | src/upower/gobject/mod.rs:160-175 | the skip-and-push loop computes the enumeration list |
| UPowerObject.KeptLength | src/upower/gobject/mod.rs:164-171 | failed builds are skipped, never inserted: the kept count equals the number of successes |
| UPowerObject.New | src/upower/gobject/mod.rs:23-64 | monitoring comes up exactly when connect, proxy creation and enumeration all succeed; otherwise the inert default with no task; on success the enumeration list is stored, the connection kept and the task spawned |
| UPowerObject.UpdateDevices | src/upower/gobject/mod.rs:71-92 | a pass replaces the whole list, with the empty list when re-enumeration fails, then emits `devices-changed` exactly once |
| Watcher.Start | src/upower/gobject/mod.rs:55-117 | the loop starts, with both streams live, only after a successful construction and two successful subscriptions |
| Watcher.Step | src/upower/gobject/mod.rs:127-151 | an item on a live stream runs one pass; the end of a live stream only marks it finished; items or ends of finished streams change nothing; a read changes nothing but the log |
| Watcher.Run | src/upower/gobject/mod.rs:113-153 | the object stays consistent over any trace: a live object keeps its connection, so the task's `expect` never fails, and an inert one stays inert |
| Watcher.RunLogConsistent | src/upower/gobject/mod.rs:85-91 | every read returns the list stored last, never a mixture; every emission directly follows a replacement and names the declared signal |
| Watcher.FrozenWhenNotRunning | src/upower/gobject/mod.rs:94-117 | with no running loop (never spawned, a failed subscription, or both streams ended) the list and task never change and every read returns the same list |
| Watcher.FinishedIffEnded | src/upower/gobject/mod.rs:113-117 | a stream counts as finished exactly when its end was seen, so the loop exits only once both streams have ended |
| Watcher.OneEmitPerItem | src/upower/gobject/mod.rs:127-151 | in any phase of the loop, while no stream ends, the run emits `devices-changed` once per item on a still-live stream, and never for an item on a finished stream or for a read |
| Watcher.LifetimeLogConsistent | src/upower/gobject/mod.rs:23-153 | from construction on, over any trace, every read returns the list stored last and every emission directly follows a replacement and names the declared signal |
| Watcher.PhaseTransitions | src/upower/gobject/mod.rs:113-151 | losing one stream leaves monitoring on the other, losing both halts it, and items keep the phase |
| Watcher.InitFailureIsPermanent | src/upower/gobject/mod.rs:28-53 | a failed connect, proxy creation or initial enumeration leaves the object inert for ever, every read returning the empty list |
| Watcher.SubscriptionFailureFreezesSnapshot | src/upower/gobject/mod.rs:94-107 | a failed subscription returns before any pass: the list stays the one construction stored and nothing is emitted |
| Watcher.StableAfterHalt | src/upower/gobject/mod.rs:114-117 | after both streams end, repeated reads return identical lists |
| Watcher.AddedDeviceScenario | src/upower/gobject/mod.rs:128-134 | two stored devices, an added item, three paths that all build: three devices stored and one emission |
| Watcher.EnumerationFailureEmptiesList | src/upower/gobject/mod.rs:75-91 | a failed re-enumeration during a pass stores the empty list and still emits |
| Units.Stringify | src/units.rs:12-19 | Kmh, Ms, Mph, Knots label as `km/h`, `m/s`, `mp/h`, `kn` |
| Units.SpeedToString | src/units.rs:21-28 | Kmh, Ms, Mph, Knots name as `kmh`, `ms`, `mph`, `kn` |
| Units.SpeedRenderingsAgreeOnlyOnKnots | src/units.rs:12-28 | the two speed renderings coincide for knots and for no other speed |
| Units.SpeedRenderingsInjective | src/units.rs:12-28 | each speed rendering maps different speeds to different strings |
| Units.TemperatureToString | src/units.rs:38-43 | Celsius renders as `°C`, Fahrenheit as `°F` |
| Units.PrecipitationToString | src/units.rs:54-59 | Inch renders as `inch`, Mm as `mm` |
| Units.OtherRenderingsInjective | src/units.rs:38-59 | the temperature and precipitation renderings tell their variants apart |
| Units.NewUnits | src/units.rs:70-72 | the unit set holds exactly the three given choices |

## Left out

- D-Bus and zbus I/O (connections, proxies, `call_method`, message decoding):
  each exchange is an `Outcome` input, so the model says what the monitor does
  with any reply, not what the bus answers.
- The text rendering of a zvariant `Value`: it belongs to the variant library,
  so a value is represented by its rendered text (`DBus.ValueText`).
- Helpers.BluezPhoneScenario: assumes an `Icon` value whose rendering is
  `phone-symbolic`. The source returns `value.to_string()`, and for a string
  value that rendering may carry quote marks, so the scenario does not promise
  that a BlueZ string `phone-symbolic` is shown without them.
- Concurrency machinery (`async_lock::Mutex`, the `RefCell` borrow held across
  an await, `spawn_future_local`, `select!`/`fuse`/`pin_mut`): replaced by one
  sequential trace. A trace lists the stream deliveries and reads in the order
  they happen, and each list replacement is atomic.
- `select!`'s choice between two ready streams: a trace fixes one order, and
  every order is a possible trace.
- Events that arrive between construction and the task's subscriptions: the
  trace starts once the task subscribed, so such events are not modelled.
- Dropping the object and cancelling its task: the model has no destruction.
- The per-device percentage-change stream: it is never drained, so a device
  keeps only a token naming its own path (`Devices.PercentageStream`).
- The `f64` percentage: kept as an opaque `real`, since nothing compares or
  computes with it. A NaN read from the bus has no `real` counterpart.
- Diagnostic `println!`/`eprintln!` output, including the messages naming the
  lost stream: logging has no effect on state.
- The user interface, weather fetch, clock and application start-up
  (`src/main.rs`, `src/ui_elements.rs`, `src/weather.rs` and the clock,
  weather and global state objects): they are not part of the monitor.
