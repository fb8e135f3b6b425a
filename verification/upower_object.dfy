/** The UPower registry object: its state (src/upower/gobject/imp.rs), its
    construction, enumeration and rebuild pass (src/upower/gobject/mod.rs). */
module UPowerObject {
  import opened Results
  import opened DBus
  import opened Devices

  /** The object's state: whether monitoring came up, the snapshot store, and
      the bus connection once it is established. */
  datatype UPower = UPower(
    initSuccess: bool,
    devices: seq<Device>,
    connection: Option<Connection>)

  /** The inert state: monitoring never came up and nothing is stored. */
  predicate Inert(u: UPower) {
    !u.initSuccess && u.devices == [] && u.connection == None
  }

  /** The state every field's default gives a freshly built object. */
  function Default(): (u: UPower)
    ensures Inert(u)
  {
    UPower(false, [], None)
  }

  /** A copy of the stored snapshot, taken under the store's lock. */
  function GetDevices(u: UPower): (ds: seq<Device>)
    ensures ds == u.devices
  {
    u.devices
  }

  // ---------------------------------------------------------------- signals

  const DevicesChanged: string := "devices-changed"

  /** A signal declaration: its name and parameter types. */
  datatype SignalDecl = SignalDecl(name: string, parameters: seq<string>)

  /** The signals the object class declares. */
  function Signals(): (s: seq<SignalDecl>)
    ensures |s| == 1 && s[0].name == DevicesChanged && s[0].parameters == []
  {
    [SignalDecl(DevicesChanged, [])]
  }

  /** What the object does that a consumer can observe: a whole-list replacement
      of the store, a signal emission, or a consumer's read of the store. */
  datatype Effect =
    | Stored(devices: seq<Device>)
    | Emitted(signal: string)
    | Read(devices: seq<Device>)

  // ------------------------------------------------------------ enumeration

  /** The successful builds, in order; failed builds leave no trace. */
  function Kept(builds: seq<Outcome<Device>>): (ds: seq<Device>)
    ensures |ds| <= |builds|
    ensures forall d :: d in ds <==> exists i :: 0 <= i < |builds| && builds[i] == Ok(d)
  {
    if builds == [] then []
    else
      var rest := Kept(builds[1..]);
      match builds[0]
      case Ok(d) => [d] + rest
      case Err(_) => rest
  }

  /** Indices of the successful builds. */
  function OkIndices(builds: seq<Outcome<Device>>): set<int> {
    set i | 0 <= i < |builds| && builds[i].Ok?
  }

  /** Keeping distributes over concatenation, so the kept devices keep the
      relative order of their builds. */
  lemma {:induction false} KeptAppend(a: seq<Outcome<Device>>, b: seq<Outcome<Device>>)
    ensures Kept(a + b) == Kept(a) + Kept(b)
    decreases |a|
  {
    if a == [] {
      assert a + b == b;
    } else {
      assert (a + b)[0] == a[0];
      assert (a + b)[1..] == a[1..] + b;
      KeptAppend(a[1..], b);
    }
  }

  /** The successful indices of a sequence with one more build at its end. */
  lemma OkIndicesSnoc(builds: seq<Outcome<Device>>)
    requires builds != []
    ensures var n := |builds| - 1;
      OkIndices(builds) == OkIndices(builds[..n]) + (if builds[n].Ok? then {n} else {})
  {
  }

  /** As many devices are kept as builds succeeded. */
  lemma {:induction false} KeptLength(builds: seq<Outcome<Device>>)
    ensures |Kept(builds)| == |OkIndices(builds)|
    decreases |builds|
  {
    if builds != [] {
      var n := |builds| - 1;
      var front := builds[..n];
      assert builds == front + [builds[n]];
      KeptLength(front);
      KeptAppend(front, [builds[n]]);
      assert |Kept([builds[n]])| == (if builds[n].Ok? then 1 else 0) by {
        assert [builds[n]][1..] == [];
      }
      OkIndicesSnoc(builds);
      assert n !in OkIndices(front);
    }
  }

  /** Attempts to build every enumerated path, in enumeration order. */
  function BuildAll(paths: seq<string>, bus: BusState): (builds: seq<Outcome<Device>>)
    ensures |builds| == |paths|
    ensures forall i :: 0 <= i < |paths| ==> builds[i] == NewDevice(paths[i], bus)
  {
    seq(|paths|, i requires 0 <= i < |paths| => NewDevice(paths[i], bus))
  }

  /** The device list for the enumerated `paths`: a path contributes its device
      exactly when its build succeeds, and the list holds one device per
      successful build. */
  function ParseDevices(paths: seq<string>, bus: BusState): (ds: seq<Device>)
    ensures forall d :: d in ds <==> exists i :: 0 <= i < |paths| && NewDevice(paths[i], bus) == Ok(d)
    ensures |ds| == |set i | 0 <= i < |paths| && NewDevice(paths[i], bus).Ok?|
  {
    var builds := BuildAll(paths, bus);
    KeptLength(builds);
    assert OkIndices(builds) == set i | 0 <= i < |paths| && NewDevice(paths[i], bus).Ok?;
    Kept(builds)
  }

  /** Enumerating `a` then `b` gives `a`'s devices followed by `b`'s. */
  lemma ParseDevicesAppend(a: seq<string>, b: seq<string>, bus: BusState)
    ensures ParseDevices(a + b, bus) == ParseDevices(a, bus) + ParseDevices(b, bus)
  {
    assert BuildAll(a + b, bus) == BuildAll(a, bus) + BuildAll(b, bus);
    KeptAppend(BuildAll(a, bus), BuildAll(b, bus));
  }

  /** One more path adds its device at the end exactly when its build succeeds. */
  lemma ParseDevicesSnoc(paths: seq<string>, path: string, bus: BusState)
    ensures ParseDevices(paths + [path], bus) ==
      ParseDevices(paths, bus) + (if NewDevice(path, bus).Ok? then [NewDevice(path, bus).value] else [])
  {
    ParseDevicesAppend(paths, [path], bus);
    assert BuildAll([path], bus) == [NewDevice(path, bus)];
    assert BuildAll([path], bus)[1..] == [];
  }

  /** When every build succeeds, the list is the built devices in path order. */
  lemma {:induction false} ParseDevicesAllSucceed(paths: seq<string>, bus: BusState)
    requires forall i :: 0 <= i < |paths| ==> NewDevice(paths[i], bus).Ok?
    ensures |ParseDevices(paths, bus)| == |paths|
    ensures forall i :: 0 <= i < |paths| ==> ParseDevices(paths, bus)[i] == NewDevice(paths[i], bus).value
    decreases |paths|
  {
    if paths != [] {
      var n := |paths| - 1;
      assert paths == paths[..n] + [paths[n]];
      ParseDevicesAllSucceed(paths[..n], bus);
      ParseDevicesSnoc(paths[..n], paths[n], bus);
    }
  }

  /** The enumeration loop: builds each path in turn, skips the failures and
      appends the successes. */
  method ParseDevicesLoop(paths: seq<string>, bus: BusState) returns (devices: seq<Device>)
    ensures devices == ParseDevices(paths, bus)
  {
    devices := [];
    var i := 0;
    while i < |paths|
      invariant 0 <= i <= |paths|
      invariant devices == ParseDevices(paths[..i], bus)
    {
      var build := NewDevice(paths[i], bus);
      ParseDevicesSnoc(paths[..i], paths[i], bus);
      assert paths[..i + 1] == paths[..i] + [paths[i]];
      match build {
        case Err(_) =>
        case Ok(d) => devices := devices + [d];
      }
      i := i + 1;
    }
    assert paths[..i] == paths;
  }

  // ------------------------------------------------------------ construction

  /** Replies to the construction sequence: connecting to the system bus, creating
      the UPower service proxy, the initial enumeration, and the bus during the
      initial device builds. */
  datatype InitReplies = InitReplies(
    connect: Outcome<Connection>,
    proxy: Outcome<()>,
    enumerate: Outcome<seq<string>>,
    bus: BusState)

  /** A constructed object, whether the reconciliation task was spawned, and what
      construction did to the store. */
  datatype Created = Created(obj: UPower, spawned: bool, log: seq<Effect>)

  /** Constructs the object. Any failure among connect, proxy creation and the
      initial enumeration yields the inert default with no task; otherwise the
      built list is stored, the connection kept, the flag set and the task spawned. */
  function New(init: InitReplies): (c: Created)
    ensures c.obj.initSuccess <==> init.connect.Ok? && init.proxy.Ok? && init.enumerate.Ok?
    ensures c.spawned == c.obj.initSuccess
    ensures !c.obj.initSuccess ==> c.obj == Default() && c.log == []
    ensures c.obj.initSuccess ==>
      && c.obj.devices == ParseDevices(init.enumerate.value, init.bus)
      && c.obj.connection == Some(init.connect.value)
      && c.log == [Stored(c.obj.devices)]
  {
    var obj := Default();
    match init.connect
    case Err(_) => Created(obj, false, [])
    case Ok(connection) =>
      match init.proxy
      case Err(_) => Created(obj, false, [])
      case Ok(_) =>
        match init.enumerate
        case Err(_) => Created(obj, false, [])
        case Ok(paths) =>
          var devices := ParseDevices(paths, init.bus);
          var obj := obj.(devices := devices);
          var obj := obj.(connection := Some(connection));
          var obj := obj.(initSuccess := true);
          Created(obj, true, [Stored(devices)])
  }

  // ------------------------------------------------------------ rebuild pass

  /** Replies during one rebuild pass: the re-enumeration and the bus answering the builds. */
  datatype Pass = Pass(enumerate: Outcome<seq<string>>, bus: BusState)

  /** The object after a pass, and the pass's effects in order. */
  datatype Updated = Updated(obj: UPower, effects: seq<Effect>)

  /** One rebuild pass. The task reaches the connection through `expect`, so a
      missing connection would abort it; callers guarantee it is there. The
      whole list is replaced, by an empty one when re-enumeration fails, and then
      exactly one `devices-changed` is emitted. */
  function UpdateDevices(u: UPower, pass: Pass): (out: Updated)
    requires u.connection.Some?
    ensures out.obj.initSuccess == u.initSuccess && out.obj.connection == u.connection
    ensures pass.enumerate.Err? ==> out.obj.devices == []
    ensures pass.enumerate.Ok? ==> out.obj.devices == ParseDevices(pass.enumerate.value, pass.bus)
    ensures out.effects == [Stored(out.obj.devices), Emitted(DevicesChanged)]
  {
    var paths := match pass.enumerate case Ok(d) => d case Err(_) => [];
    var devices := ParseDevices(paths, pass.bus);
    Updated(u.(devices := devices), [Stored(devices), Emitted(DevicesChanged)])
  }
}
