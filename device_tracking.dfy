/** The device bookkeeping of the BlueZ bridge as functions on its state:
    the effect of each device event on the known, connected and headset
    paths, on the recorded connected headset and on what is published. */
module DeviceTracking {
  import opened Classifier
  import opened Properties

  /** A D-Bus object path; it is never empty, which is what lets the empty
      string mean "no connected headset". */
  type Path = p: string | p != "" witness "/"

  datatype State = State(
    devices: set<Path>,           // devices_
    connected: set<Path>,         // connected_
    headsets: set<Path>,          // headsets_
    connectedHeadset: string,     // connected_headset_, "" when none
    published: seq<Published>)    // every updateProperty / setProperties call

  /** A freshly constructed bridge: nothing known and nothing published. */
  const Initial: State := State({}, {}, {}, "", [])

  function Publish(s: State, name: string, value: Variant): State
  {
    s.(published := s.published + [Update(name, value)])
  }

  /** The recorded connected headset after check_headset(isConnected, isHeadset)
      for `path`, given the one recorded before. */
  function HeadsetMark(path: Path, isConnected: bool, isHeadset: bool, current: string): string
  {
    if !isHeadset then current
    else if isConnected then path
    else if path == current then ""
    else current
  }

  /** What check_headset publishes: Headset = isConnected, when it publishes. */
  function HeadsetEcho(path: Path, isConnected: bool, isHeadset: bool, current: string): seq<Published>
  {
    if isHeadset && (isConnected || path == current) then [Update("Headset", Bool(isConnected))] else []
  }

  /** The check_headset closure: a connected headset becomes the recorded one
      and Headset is published true; a disconnected headset publishes false
      and clears the record only when it is the recorded one. */
  function CheckHeadset(s: State, path: Path, isConnected: bool, isHeadset: bool): (t: State)
    ensures t.devices == s.devices && t.connected == s.connected && t.headsets == s.headsets
    ensures !isHeadset ==> t == s
    ensures isHeadset && isConnected ==> t.connectedHeadset == path
    ensures isHeadset && !isConnected && path != s.connectedHeadset ==> t == s
    ensures isHeadset && !isConnected && path == s.connectedHeadset ==> t.connectedHeadset == ""
    ensures t.connectedHeadset == HeadsetMark(path, isConnected, isHeadset, s.connectedHeadset)
    ensures t.published == s.published + HeadsetEcho(path, isConnected, isHeadset, s.connectedHeadset)
  {
    if !isHeadset then s
    else if isConnected then Publish(s.(connectedHeadset := path), "Headset", Bool(isConnected))
    else if path == s.connectedHeadset then Publish(s, "Headset", Bool(isConnected)).(connectedHeadset := "")
    else s
  }

  /** The on_connected closure: record the connection state of `path`, publish
      whether any device at all is connected, then let check_headset react. */
  function OnConnected(s: State, path: Path, isConnected: bool): (t: State)
    ensures t.connected == if isConnected then s.connected + {path} else s.connected - {path}
    ensures t.devices == s.devices && t.headsets == s.headsets
    ensures t.connectedHeadset == HeadsetMark(path, isConnected, path in s.headsets, s.connectedHeadset)
    ensures t.published == s.published + [Update("Connected", Bool(|t.connected| > 0))]
                             + HeadsetEcho(path, isConnected, path in s.headsets, s.connectedHeadset)
  {
    var connected := if isConnected then s.connected + {path} else s.connected - {path};
    var u := Publish(s.(connected := connected), "Connected", Bool(|connected| > 0));
    CheckHeadset(u, path, isConnected, path in u.headsets)
  }

  /** The on_uuid closure: `path` is a headset exactly when one of its UUIDs
      is the Headset class; check_headset then reacts with the path's current
      connection state. */
  function OnUuids(s: State, path: Path, uuids: seq<string>): (t: State)
    ensures path in t.headsets <==> exists u :: u in uuids && IsHeadset(u)
    ensures t.headsets - {path} == s.headsets - {path}
    ensures t.devices == s.devices && t.connected == s.connected
    ensures t.connectedHeadset == HeadsetMark(path, path in s.connected, AnyHeadset(uuids), s.connectedHeadset)
    ensures t.published == s.published + HeadsetEcho(path, path in s.connected, AnyHeadset(uuids), s.connectedHeadset)
  {
    var isHeadset := AnyHeadset(uuids);
    var u := s.(headsets := if isHeadset then s.headsets + {path} else s.headsets - {path});
    CheckHeadset(u, path, path in u.connected, isHeadset)
  }

  /** The processProperty dispatcher: only "Connected" and "UUIDs" matter. */
  function ProcessProperty(s: State, path: Path, name: string, value: Variant): (t: State)
    ensures name != "Connected" && name != "UUIDs" ==> t == s
    ensures name == "Connected" ==> t == OnConnected(s, path, ToBool(value))
    ensures name == "UUIDs" ==> t == OnUuids(s, path, ToStringList(value))
    ensures t.devices == s.devices
    ensures t.connected - {path} == s.connected - {path} && t.headsets - {path} == s.headsets - {path}
  {
    if name == "Connected" then OnConnected(s, path, ToBool(value))
    else if name == "UUIDs" then OnUuids(s, path, ToStringList(value))
    else s
  }

  /** The GetProperties completion of a device: every (name, value) pair of
      the reply, in the reply's order, goes through processProperty. */
  function ProcessProperties(s: State, path: Path, props: seq<(string, Variant)>): (t: State)
    ensures t.devices == s.devices
    ensures t.connected - {path} == s.connected - {path} && t.headsets - {path} == s.headsets - {path}
    ensures (forall i :: 0 <= i < |props| ==> props[i].0 != "Connected" && props[i].0 != "UUIDs") ==> t == s
    decreases |props|
  {
    if props == [] then s
    else
      var last := props[|props| - 1];
      ProcessProperty(ProcessProperties(s, path, props[..|props| - 1]), path, last.0, last.1)
  }

  /** removeDevice: forget `path` everywhere; republish Connected only when it
      was connected, and clear Headset only when it was the recorded headset. */
  function RemoveDevice(s: State, path: Path): (t: State)
    ensures t.devices == s.devices - {path}
    ensures t.connected == s.connected - {path} && t.headsets == s.headsets - {path}
    ensures t.connectedHeadset ==
              if path in s.headsets && path == s.connectedHeadset then "" else s.connectedHeadset
    ensures t.published == s.published
              + (if path in s.connected then [Update("Connected", Bool(|t.connected| > 0))] else [])
              + (if path in s.headsets && path == s.connectedHeadset then [Update("Headset", Bool(false))] else [])
  {
    var u := s.(devices := s.devices - {path});
    var u := if path in u.connected
             then Publish(u.(connected := u.connected - {path}), "Connected", Bool(|u.connected - {path}| > 0))
             else u;
    var wasHeadset := path in u.headsets;
    var u := u.(headsets := u.headsets - {path});
    if wasHeadset && path == u.connectedHeadset
    then Publish(u, "Headset", Bool(false)).(connectedHeadset := "")
    else u
  }

  /** addDevice: drop whatever an earlier device at `path` contributed, then
      know the path again, connected to nothing until its properties arrive. */
  function AddDevice(s: State, path: Path): (t: State)
    ensures t.devices == s.devices + {path}
    ensures t.connected == s.connected - {path} && t.headsets == s.headsets - {path}
    ensures t.connectedHeadset == RemoveDevice(s, path).connectedHeadset
    ensures t.published == RemoveDevice(s, path).published
  {
    var u := RemoveDevice(s, path);
    u.(devices := u.devices + {path})
  }

  /** The set of paths in a device listing. */
  function Listed(devs: seq<Path>): (r: set<Path>)
    ensures forall p :: p in r <==> p in devs
    decreases |devs|
  {
    if devs == [] then {} else Listed(devs[..|devs| - 1]) + {devs[|devs| - 1]}
  }

  /** The ListDevices completion: addDevice for each listed path in turn. */
  function ListDevices(s: State, devs: seq<Path>): (t: State)
    ensures t.devices == s.devices + Listed(devs)
    ensures t.connected == s.connected - Listed(devs)
    ensures t.headsets == s.headsets - Listed(devs)
    decreases |devs|
  {
    if devs == [] then s
    else
      var init, last := devs[..|devs| - 1], devs[|devs| - 1];
      var u := ListDevices(s, init);
      assert Listed(devs) == Listed(init) + {last};
      assert u.connected - {last} == s.connected - Listed(devs);
      assert u.headsets - {last} == s.headsets - Listed(devs);
      AddDevice(u, last)
  }

  /** Listing one more path is one more addDevice. */
  lemma ListDevicesStep(s: State, devs: seq<Path>, i: nat)
    requires i < |devs|
    ensures ListDevices(s, devs[..i + 1]) == AddDevice(ListDevices(s, devs[..i]), devs[i])
  {
    assert devs[..i + 1][..i] == devs[..i];
  }

  /** reset_manager: the service is gone, so the namespace is given its
      defaults again; the device bookkeeping is left as it was. */
  function ResetManager(s: State): (t: State)
    ensures t.devices == s.devices && t.connected == s.connected && t.headsets == s.headsets
    ensures t.connectedHeadset == s.connectedHeadset
    ensures t.published == s.published + [SetAll(Defaults)]
  {
    s.(published := s.published + [SetAll(Defaults)])
  }

  /** The adapter's GetProperties reply, passed on unchanged with setProperties. */
  function AdapterProperties(s: State, props: map<string, Variant>): (t: State)
    ensures t.published == s.published + [SetAll(props)]
    ensures t.(published := s.published) == s
  {
    s.(published := s.published + [SetAll(props)])
  }

  /** An adapter PropertyChanged signal, passed on unchanged with updateProperty. */
  function AdapterPropertyChanged(s: State, name: string, value: Variant): (t: State)
    ensures t.published == s.published + [Update(name, value)]
    ensures t.(published := s.published) == s
  {
    Publish(s, name, value)
  }
}
