/** The system-bus boundary of the power-device monitor.

    Nothing here talks to a bus: every reply the monitor could receive is an
    input value. A property read is an `Outcome` of its value; a method call is
    answered by a function from the call to the reply message. */
module DBus {
  import opened Results

  /** An established connection to the system bus; only its identity matters. */
  datatype Connection = Connection(uniqueName: string)

  /** A value inside a D-Bus variant, represented by the text its `Display`
      implementation renders. The rendering itself belongs to the variant
      library and is not modelled. */
  datatype Variant = Variant(text: string)

  /** The text a variant is turned into by `to_string`. */
  function ValueText(v: Variant): string {
    v.text
  }

  /** A reply message whose body decodes to a string-keyed property map, or
      fails to decode. */
  datatype Message = Message(body: Outcome<map<string, Variant>>)

  /** A method call addressed to a named service, object path and interface. */
  datatype MethodCall = MethodCall(
    destination: Option<string>,
    path: string,
    iface: Option<string>,
    member: string,
    argument: string)

  /** Replies to the reads the icon resolver issues on one UPower device proxy, in the
      order it issues them: `icon_name`, then `native_path` inside the BlueZ test,
      then `native_path` again to address BlueZ. The two native-path reads are
      separate calls and may answer differently. */
  datatype IconReplies = IconReplies(
    iconName: Outcome<string>,
    bluezCheckPath: Outcome<string>,
    nativePath: Outcome<string>)

  /** Replies to everything a device build asks of one device object path:
      creating the proxy, reading `model` and `percentage`, and resolving the icon. */
  datatype DeviceReplies = DeviceReplies(
    proxy: Outcome<()>,
    model: Outcome<string>,
    percentage: Outcome<real>,
    icon: IconReplies)

  /** How the bus answers during one enumeration pass: per-device replies keyed by
      object path, and replies to explicit method calls (the BlueZ `GetAll`). */
  datatype BusState = BusState(
    device: string -> DeviceReplies,
    call: MethodCall -> Outcome<Message>)
}
