/** The per-device snapshot record and its builder (src/upower/mod.rs). */
module Devices {
  import opened Results
  import opened DBus
  import opened Helpers

  /** The percentage-change subscription a device carries; it is created but never
      drained, so only the device path it listens on is kept. */
  datatype PercentageStream = PercentageStream(devicePath: string)

  /** One power device as seen at build time. The percentage is the bus's
      floating-point value, kept opaque: nothing computes with it. */
  datatype Device = Device(
    name: string,
    percentage: real,
    iconName: string,
    percentageChanged: PercentageStream)

  /** Builds the record for the device at `path` from the bus's replies. The reads
      run in order proxy, `model`, `percentage`, and the first failure is the
      build's error; icon resolution cannot fail. */
  function NewDevice(path: string, bus: BusState): (d: Outcome<Device>)
    ensures var r := bus.device(path);
      && (d.Ok? <==> r.proxy.Ok? && r.model.Ok? && r.percentage.Ok?)
      && (r.proxy.Err? ==> d == Err(r.proxy.error))
      && (r.proxy.Ok? && r.model.Err? ==> d == Err(r.model.error))
      && (r.proxy.Ok? && r.model.Ok? && r.percentage.Err? ==> d == Err(r.percentage.error))
    ensures d.Ok? ==>
      && d.value.name == bus.device(path).model.value
      && d.value.percentage == bus.device(path).percentage.value
      && d.value.iconName == GetIcon(bus.device(path).icon, bus.call)
      && d.value.percentageChanged.devicePath == path
  {
    var r := bus.device(path);
    var _ :- r.proxy;
    var name :- r.model;
    var percentage :- r.percentage;
    var iconName := GetIcon(r.icon, bus.call);
    Ok(Device(name, percentage, iconName, PercentageStream(path)))
  }

  /** The reserved push-update hook; it does nothing yet, so the device is unchanged. */
  function PollSelf(d: Device): (d': Device)
    ensures d' == d
  {
    d
  }

  /** The error of a failed build names the first failing read: a failed `model`
      read fails the build whatever `percentage` would have answered. */
  lemma ModelFailureShortCircuits(path: string, bus: BusState, bus': BusState)
    requires bus.device(path).proxy.Ok? && bus.device(path).model.Err?
    requires bus'.device(path).proxy == bus.device(path).proxy
    requires bus'.device(path).model == bus.device(path).model
    ensures NewDevice(path, bus) == NewDevice(path, bus') == Err(bus.device(path).model.error)
  {
  }
}
