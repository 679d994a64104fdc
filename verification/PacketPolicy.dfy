/** Who may send which packet to which device, judged from one database row. */
module PacketPolicy {
  import opened Wrappers
  import opened DeviceAccess

  const DEVICE_COMMANDS := {
    "input", "display", "clipboard", "device", "account", "sd", "ringer", "wifi", "bluetooth",
    "group", "shell", "forward", "logcat", "connect", "browser", "store", "screen", "fs"
  }

  predicate StartsWith(s: string, prefix: string) {
    |prefix| <= |s| && s[..|prefix|] == prefix
  }

  function FirstDot(s: string): Option<nat> {
    if s == "" then None
    else if s[0] == '.' then Some(0)
    else match FirstDot(s[1..])
      case None => None
      case Some(i) => Some(i + 1)
  }

  lemma {:induction false} FirstDotIsInside(s: string)
    ensures FirstDot(s).Some? ==> FirstDot(s).value < |s|
  {
    if s != "" && s[0] != '.' {
      FirstDotIsInside(s[1..]);
    }
  }

  /** What stands before the first dot; without a dot, all but the last character. */
  function Family(event: string): string {
    FirstDotIsInside(event);
    match FirstDot(event)
    case Some(i) => event[..i]
    case None => if event == "" then "" else event[..|event| - 1]
  }

  /** A family, a dot and the rest. */
  lemma {:induction false} FamilyBeforeDot(family: string, rest: string)
    requires '.' !in family
    ensures FirstDot(family + "." + rest) == Some(|family|) && Family(family + "." + rest) == family
  {
    var event := family + "." + rest;
    if family != "" {
      FamilyBeforeDot(family[1..], rest);
      assert event[1..] == family[1..] + "." + rest;
    }
    assert event[..|family|] == family;
  }

  predicate IsDeviceCommand(event: string) {
    event != "device.note" && Family(event) in DEVICE_COMMANDS
  }

  predicate IsIos(channel: string) {
    StartsWith(channel, "ios:")
  }

  predicate IsInput(event: string) {
    StartsWith(event, "input.")
  }

  /** Touches and their stop make sense only inside a gesture. */
  predicate NeedsGesture(event: string) {
    (StartsWith(event, "input.touch") || event == "input.gestureStop") && event != "input.touchReset"
  }

  /** Every event of a device family is a command, except for the notes. */
  lemma CommandsByFamily(family: string, rest: string)
    requires '.' !in family
    ensures IsDeviceCommand(family + "." + rest) <==> family in DEVICE_COMMANDS && !(family == "device" && rest == "note")
  {
    FamilyBeforeDot(family, rest);
    FamilyBeforeDot("device", "note");
    if family + "." + rest == "device.note" {
      assert "device.note" == "device" + "." + "note";
      assert rest == (family + "." + rest)[|family| + 1..];
    }
  }

  /** Every touch needs a gesture, except for the reset, and so does the stop; the start does not. */
  lemma OnlyTouchesAndStopsNeed(rest: string)
    ensures NeedsGesture("input.touch" + rest) <==> rest != "Reset"
    ensures NeedsGesture("input.gestureStop") && !NeedsGesture("input.gestureStart")
  {
    var event := "input.touch" + rest;
    assert event[..11] == "input.touch" && event[11..] == rest;
    assert "input.touchReset" == "input.touch" + "Reset";
    assert "input.gestureStop"[6] == 'g' && "input.touchReset"[6] == 't';
    assert "input.gestureStart"[6] == 'g' && "input.touch"[6] == 't';
  }

  predicate SerialChar(c: char) {
    || 'A' <= c <= 'Z' || 'a' <= c <= 'z' || '0' <= c <= '9'
    || c in "_.:[]-"
  }

  predicate IsValidSerial(s: string) {
    1 <= |s| <= 128 && forall i | 0 <= i < |s| :: SerialChar(s[i])
  }

  datatype User = User(email: string, admin: bool)

  predicate OwnedBy(device: Device, user: User) {
    device.owner.Some? && (device.owner.value.email == Some(user.email) || user.admin)
  }

  predicate AllowsIos(event: string, channel: string, device: Device, user: User, groups: set<string>) {
    && device.platform == Some("iOS") && Usable(device, channel, groups)
    && (|| user.admin
        || (device.owner.Some? && device.owner.value.email == Some(user.email))
        || (event == "group.invite" && device.owner.None?))
  }

  /** Everything one row has to show for a packet to pass. */
  predicate Permits(event: string, channel: string, device: Device, user: User, groups: set<string>) {
    && (IsDeviceCommand(event) ==> Usable(device, channel, groups))
    && (IsIos(channel) ==> AllowsIos(event, channel, device, user, groups))
    && (IsInput(event) ==> OwnedBy(device, user))
  }

  /** The device is not there for the user: it has another channel, is absent or not ready, in no group of the
      user's, or left to a machine. */
  predicate OutOfReach(device: Device, channel: string, groups: set<string>) {
    || device.channel != Some(channel) || !device.present || !device.ready
    || device.group in {None, Some("")} || (forall g | g in groups :: device.group != Some(g))
    || device.usage == Some("automation")
  }

  predicate IsOwner(device: Device, user: User) {
    match device.owner
    case None => false
    case Some(owner) => owner.email == Some(user.email)
  }

  /** Exactly who is refused: whoever the device is out of reach for; on an iPhone, whoever is neither its owner
      nor an administrator, but for an invitation to a device without owner; an input to a device without owner,
      and one from anybody else than its owner or an administrator. */
  lemma RefusedIff(event: string, channel: string, device: Device, user: User, groups: set<string>)
    requires IsIos(channel) || IsDeviceCommand(event)
    ensures !Permits(event, channel, device, user, groups) <==>
      || OutOfReach(device, channel, groups)
      || (IsIos(channel) && device.platform != Some("iOS"))
      || (IsIos(channel) && !user.admin && !IsOwner(device, user) && !(event == "group.invite" && device.owner.None?))
      || (IsInput(event) && device.owner.None?)
      || (IsInput(event) && !user.admin && !IsOwner(device, user))
  {
    hide IsIos, IsDeviceCommand, IsInput;
    assert Usable(device, channel, groups) <==> !OutOfReach(device, channel, groups);
  }

  /** Whatever reaches the guard needs a row that is ready. */
  lemma PermittedIsReady(event: string, channel: string, device: Device, user: User, groups: set<string>)
    requires Permits(event, channel, device, user, groups) && (IsIos(channel) || IsDeviceCommand(event))
    ensures device.ready && device.channel == Some(channel)
  {
  }

  /** What an input needs, whichever input it is. */
  predicate PermitsInput(channel: string, device: Device, user: User, groups: set<string>) {
    && Usable(device, channel, groups)
    && (IsIos(channel) ==> device.platform == Some("iOS"))
    && OwnedBy(device, user)
  }

  lemma PermissionsAreReady(channel: string, device: Device, user: User, groups: set<string>)
    requires PermitsInput(channel, device, user, groups)
    ensures device.ready
  {
  }

  lemma InputFamily(event: string)
    requires IsInput(event)
    ensures IsDeviceCommand(event) && event != "group.invite"
  {
    assert event[..6] == "input.";
    assert event[0] == 'i' && event[1] == 'n' && event[2] == 'p' && event[3] == 'u' && event[4] == 't' && event[5] == '.';
    assert FirstDot(event[5..]) == Some(0);
    assert event[4..][1..] == event[5..] && FirstDot(event[4..]) == Some(1);
    assert event[3..][1..] == event[4..] && FirstDot(event[3..]) == Some(2);
    assert event[2..][1..] == event[3..] && FirstDot(event[2..]) == Some(3);
    assert event[1..][1..] == event[2..] && FirstDot(event[1..]) == Some(4);
    assert FirstDot(event) == Some(5);
    assert event[..5] == event[..6][..5] == "input";
  }

  /** A permission for one input is one for every input. */
  lemma InputsAreAlike(event: string, channel: string, device: Device, user: User, groups: set<string>)
    requires IsInput(event)
    ensures Permits(event, channel, device, user, groups) <==> PermitsInput(channel, device, user, groups)
  {
    InputFamily(event);
  }
}
