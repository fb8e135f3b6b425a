/** Icon resolution for one UPower device (src/upower/helpers.rs).

    UPower's own `IconName` is preferred. When it is the generic
    "battery-missing-symbolic" and the device's native path lies under BlueZ's
    object namespace, BlueZ's `org.bluez.Device1` property bag is asked for its
    `Icon` entry through `org.freedesktop.DBus.Properties.GetAll` (the standard
    properties interface of the D-Bus Specification). No failure escapes. */
module Helpers {
  import opened Results
  import opened DBus

  /** The icon used whenever nothing better is known. */
  const Fallback: string := "battery-missing-symbolic"

  /** Object-path namespace of the BlueZ service. */
  const BluezPrefix: string := "/org/bluez"

  /** Rust's `str::starts_with` for a string prefix. */
  predicate StartsWith(s: string, prefix: string) {
    |prefix| <= |s| && s[..|prefix|] == prefix
  }

  /** Whether the native-path read names a BlueZ device; a failed read counts as "no". */
  function IsBluez(nativePath: Outcome<string>): (b: bool)
    ensures nativePath.Err? ==> !b
    ensures nativePath.Ok? ==>
      (b <==> |BluezPrefix| <= |nativePath.value| &&
              forall i :: 0 <= i < |BluezPrefix| ==> nativePath.value[i] == BluezPrefix[i])
  {
    match nativePath
    case Ok(path) => StartsWith(path, BluezPrefix)
    case Err(_) => false
  }

  /** The `GetAll("org.bluez.Device1")` call on BlueZ's properties interface at a path. */
  function GetAllCall(nativePath: string): MethodCall {
    MethodCall(Some("org.bluez"), nativePath, Some("org.freedesktop.DBus.Properties"),
               "GetAll", "org.bluez.Device1")
  }

  /** Asks BlueZ for the `Icon` property of the device at `nativePath`. */
  function GetBluezIcon(call: MethodCall -> Outcome<Message>, nativePath: string): (r: Outcome<Option<string>>)
    ensures var reply := call(GetAllCall(nativePath));
      && (r.Err? <==> reply.Err? || reply.value.body.Err?)
      && (reply.Err? ==> r == Err(reply.error))
      && (reply.Ok? && reply.value.body.Err? ==> r == Err(reply.value.body.error))
      && (r.Ok? ==> var props := reply.value.body.value;
            (r.value.Some? <==> "Icon" in props) &&
            ("Icon" in props ==> r.value.value == ValueText(props["Icon"])))
  {
    var message :- call(GetAllCall(nativePath));
    var reply :- message.body;
    if "Icon" in reply then Ok(Some(ValueText(reply["Icon"]))) else Ok(None)
  }

  /** The resolved icon for a device whose reads answer as `r`, with BlueZ answering
      method calls as `call`. Every failure is absorbed into a fallback. */
  function GetIcon(r: IconReplies, call: MethodCall -> Outcome<Message>): (icon: string)
    // a failed icon_name read yields the fallback at once
    ensures r.iconName.Err? ==> icon == Fallback
    // any other UPower icon is kept and BlueZ plays no part
    ensures r.iconName.Ok? && r.iconName.value != Fallback ==> icon == r.iconName.value
    // the fallback from a device outside BlueZ stays the fallback
    ensures r.iconName == Ok(Fallback) && !IsBluez(r.bluezCheckPath) ==> icon == Fallback
    // a BlueZ device whose second native-path read fails keeps the fallback
    ensures r.iconName == Ok(Fallback) && IsBluez(r.bluezCheckPath) && r.nativePath.Err? ==>
      icon == Fallback
    // otherwise BlueZ's Icon wins when the lookup finds one, else the fallback stays
    ensures r.iconName == Ok(Fallback) && IsBluez(r.bluezCheckPath) && r.nativePath.Ok? ==>
      var found := GetBluezIcon(call, r.nativePath.value);
      icon == (if found.Ok? && found.value.Some? then found.value.value else Fallback)
  {
    match r.iconName
    case Err(_) => Fallback
    case Ok(iconName) =>
      if iconName == Fallback && IsBluez(r.bluezCheckPath) then
        match r.nativePath
        case Err(_) => Fallback
        case Ok(nativePath) =>
          match GetBluezIcon(call, nativePath)
          case Ok(Some(icon)) => icon
          case Ok(None) => iconName
          case Err(_) => iconName
      else
        iconName
  }

  /** BlueZ supplied `icon`: the second native-path read succeeded and the `GetAll`
      reply at that path decoded to a property map whose `Icon` renders as `icon`. */
  predicate BluezSupplied(r: IconReplies, call: MethodCall -> Outcome<Message>, icon: string) {
    && r.nativePath.Ok?
    && var reply := call(GetAllCall(r.nativePath.value));
    && reply.Ok?
    && reply.value.body.Ok?
    && "Icon" in reply.value.body.value
    && ValueText(reply.value.body.value["Icon"]) == icon
  }

  /** The resolved icon is UPower's own value, the fallback, or BlueZ's `Icon`
      text; and it comes from BlueZ only when UPower offered the fallback for a
      device under BlueZ's namespace. */
  lemma IconProvenance(r: IconReplies, call: MethodCall -> Outcome<Message>)
    ensures var icon := GetIcon(r, call);
      || r.iconName == Ok(icon)
      || icon == Fallback
      || (r.iconName == Ok(Fallback) && IsBluez(r.bluezCheckPath) && BluezSupplied(r, call, icon))
  {
  }

  /** BlueZ is consulted only for the fallback: for any other icon read, neither
      native-path reply nor anything BlueZ answers can change the result. */
  lemma BluezOnlyForFallback(r: IconReplies, r': IconReplies,
                             call: MethodCall -> Outcome<Message>, call': MethodCall -> Outcome<Message>)
    requires r.iconName == r'.iconName
    requires r.iconName != Ok(Fallback)
    ensures GetIcon(r, call) == GetIcon(r', call')
  {
  }

  /** Scenario: UPower reports the fallback for `/org/bluez/...` and BlueZ answers
      with an `Icon` value that renders as `phone-symbolic`, so that text is shown. */
  lemma BluezPhoneScenario(call: MethodCall -> Outcome<Message>)
    requires call(GetAllCall("/org/bluez/hci0/dev_AA_BB")) ==
             Ok(Message(Ok(map["Icon" := Variant("phone-symbolic")])))
    ensures GetIcon(IconReplies(Ok(Fallback), Ok("/org/bluez/hci0/dev_AA_BB"),
                                Ok("/org/bluez/hci0/dev_AA_BB")), call) == "phone-symbolic"
  {
    assert StartsWith("/org/bluez/hci0/dev_AA_BB", BluezPrefix);
  }

  /** Scenario: a device outside BlueZ keeps the fallback, whatever BlueZ would say. */
  lemma NonBluezScenario(call: MethodCall -> Outcome<Message>)
    ensures GetIcon(IconReplies(Ok(Fallback), Ok("/sys/devices/BAT0"), Ok("/sys/devices/BAT0")), call)
            == Fallback
  {
    assert !StartsWith("/sys/devices/BAT0", BluezPrefix) by {
      assert "/sys/devices/BAT0"[1] != BluezPrefix[1];
    }
  }

  /** An empty `IconName` from UPower is passed through unchanged: the resolver
      guarantees a fallback only for failures, not a non-empty result. */
  lemma IconMayBeEmpty(call: MethodCall -> Outcome<Message>)
    ensures GetIcon(IconReplies(Ok(""), Err("unused"), Err("unused")), call) == ""
  {
  }
}
