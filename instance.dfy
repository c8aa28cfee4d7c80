/** The canonical instance record and its two connection helpers
    (inventory/inventoryengine/instance.go). */
module Instances {
  import opened Wrappers

  /** `time.Time`, as an instant on an integer clock; 0 is Go's zero time. */
  type Time = int

  /** One observed compute instance. `tags` is a Go map; `nil` and the empty
      map read alike, so both are `map[]`. */
  datatype Instance = Instance(
    account: string,
    ami: string,
    cloudProvider: string,
    env: string,
    id: string,
    keypairName: string,
    launchTime: Time,
    name: string,
    notes: string,
    os: string,
    privateIp: string,
    publicIp: string,
    region: string,
    size: string,
    skip: bool,
    sshKey: string,
    sshPort: string,
    state: string,
    subnet: string,
    tags: map<string, string>,
    user: string,
    vpc: string)

  /** Go's zero value `Instance{}`. */
  const ZeroInstance: Instance :=
    Instance("", "", "", "", "", "", 0, "", "", "", "", "", "", "", false, "", "", "", "", map[], "", "")

  const NoAddressMessage := "no Private or Public IP address.  Is the instance being terminated?"
  const DefaultSshPort := "22"

  /** The address to connect to: the public IP if there is one, otherwise
      the private IP, otherwise an error. */
  function GetConnectionAddress(instance: Instance): (r: Result<string>)
    ensures instance.publicIp != "" ==> r == Ok(instance.publicIp)
    ensures instance.publicIp == "" && instance.privateIp != "" ==> r == Ok(instance.privateIp)
    ensures r.Err? <==> instance.publicIp == "" && instance.privateIp == ""
    ensures r.Err? ==> r.message == NoAddressMessage
    ensures r.Ok? ==> r.value != ""
  {
    if |instance.publicIp| == 0 && |instance.privateIp| == 0 then Err(NoAddressMessage)
    else if |instance.publicIp| == 0 then Ok(instance.privateIp)
    else Ok(instance.publicIp)
  }

  /** The first non-empty string of a preference list. */
  function FirstNonEmpty(candidates: seq<string>): (r: Option<string>)
    ensures r.Some? ==> r.value != "" && r.value in candidates
    ensures r.None? <==> forall j :: 0 <= j < |candidates| ==> candidates[j] == ""
  {
    if candidates == [] then None
    else if candidates[0] != "" then Some(candidates[0])
    else FirstNonEmpty(candidates[1..])
  }

  /** Address selection is "the first non-empty address, public before
      private": the preference order, independent of the nested ifs. */
  lemma AddressIsFirstNonEmpty(instance: Instance)
    ensures match FirstNonEmpty([instance.publicIp, instance.privateIp])
            case Some(a) => GetConnectionAddress(instance) == Ok(a)
            case None => GetConnectionAddress(instance).Err?
  {
    var c := [instance.publicIp, instance.privateIp];
    if instance.publicIp == "" {
      assert c[1..] == [instance.privateIp];
      assert FirstNonEmpty(c) == FirstNonEmpty([instance.privateIp]);
      if instance.privateIp == "" {
        assert [instance.privateIp][1..] == [];
        assert FirstNonEmpty([instance.privateIp]) == FirstNonEmpty([]) == None;
      }
    }
  }

  /** The SSH port to use: the instance's own, or "22" when it has none. */
  function GetPort(instance: Instance): (r: string)
    ensures r != ""
    ensures instance.sshPort != "" ==> r == instance.sshPort
    ensures instance.sshPort == "" ==> r == DefaultSshPort
  {
    if instance.sshPort != "" then instance.sshPort else DefaultSshPort
  }
}
