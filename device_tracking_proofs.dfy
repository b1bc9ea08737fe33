/** What the device bookkeeping guarantees: the invariants every event keeps,
    how the Connected flag is recounted, what a service loss shows, and the
    behaviour of the last-connected-headset rule. */
module DeviceTrackingProofs {
  import opened Classifier
  import opened Properties
  import opened DeviceTracking

  /** The recorded connected headset, while it is still a headset, is connected. */
  ghost predicate Coherent(s: State)
  {
    s.connectedHeadset != "" && s.connectedHeadset in s.headsets ==> s.connectedHeadset in s.connected
  }

  /** The namespace shows Connected true exactly when some device is
      connected, and Headset true exactly when connected_headset_ holds a path. */
  ghost predicate Synced(s: State)
  {
    ShownFlag(s.published, "Connected") == Some(|s.connected| > 0) &&
    ShownFlag(s.published, "Headset") == Some(s.connectedHeadset != "")
  }

  lemma InitialConsistent()
    ensures Coherent(Initial) && Synced(Initial)
  {
    ShownInitially();
  }

  /** What check_headset publishes keeps Connected and tracks the recorded headset. */
  lemma EchoFlags(log: seq<Published>, path: Path, isConnected: bool, isHeadset: bool, current: string)
    ensures ShownFlag(log + HeadsetEcho(path, isConnected, isHeadset, current), "Connected")
            == ShownFlag(log, "Connected")
    ensures ShownFlag(log, "Headset") == Some(current != "") ==>
              ShownFlag(log + HeadsetEcho(path, isConnected, isHeadset, current), "Headset")
              == Some(HeadsetMark(path, isConnected, isHeadset, current) != "")
  {
    if isHeadset && (isConnected || path == current) {
      ShownLatestFlag(log, "Headset", isConnected);
      ShownFlagFrame(log, Update("Headset", Bool(isConnected)), "Connected");
    } else {
      assert log + HeadsetEcho(path, isConnected, isHeadset, current) == log;
    }
  }

  // ---------------------------------------------------------------------
  // Connected is a recount of the connected set, not a toggle.
  // ---------------------------------------------------------------------

  /** After a Connected update the namespace shows whether any device is
      connected: true while another device is still connected, false once
      the last one has gone. */
  lemma ConnectedRecount(s: State, path: Path, isConnected: bool)
    ensures var t := OnConnected(s, path, isConnected);
      ShownFlag(t.published, "Connected") == Some(|t.connected| > 0)
    ensures (exists q :: q in s.connected && q != path) ==>
              ShownFlag(OnConnected(s, path, isConnected).published, "Connected") == Some(true)
    ensures !isConnected && s.connected <= {path} ==>
              ShownFlag(OnConnected(s, path, isConnected).published, "Connected") == Some(false)
  {
    var t := OnConnected(s, path, isConnected);
    var log := s.published + [Update("Connected", Bool(|t.connected| > 0))];
    ShownLatestFlag(s.published, "Connected", |t.connected| > 0);
    EchoFlags(log, path, isConnected, path in s.headsets, s.connectedHeadset);
    if q :| q in s.connected && q != path {
      assert q in t.connected;
    }
    if !isConnected && s.connected <= {path} {
      assert t.connected == {};
    }
  }

  // ---------------------------------------------------------------------
  // Every device event keeps both invariants.
  // ---------------------------------------------------------------------

  lemma OnConnectedPreserves(s: State, path: Path, isConnected: bool)
    ensures Coherent(s) ==> Coherent(OnConnected(s, path, isConnected))
    ensures Synced(s) ==> Synced(OnConnected(s, path, isConnected))
  {
    var t := OnConnected(s, path, isConnected);
    var log := s.published + [Update("Connected", Bool(|t.connected| > 0))];
    ShownFlagFrame(s.published, Update("Connected", Bool(|t.connected| > 0)), "Headset");
    ConnectedRecount(s, path, isConnected);
    EchoFlags(log, path, isConnected, path in s.headsets, s.connectedHeadset);
  }

  lemma OnUuidsPreserves(s: State, path: Path, uuids: seq<string>)
    ensures Coherent(s) ==> Coherent(OnUuids(s, path, uuids))
    ensures Synced(s) ==> Synced(OnUuids(s, path, uuids))
  {
    EchoFlags(s.published, path, path in s.connected, AnyHeadset(uuids), s.connectedHeadset);
  }

  lemma ProcessPropertyPreserves(s: State, path: Path, name: string, value: Variant)
    ensures Coherent(s) ==> Coherent(ProcessProperty(s, path, name, value))
    ensures Synced(s) ==> Synced(ProcessProperty(s, path, name, value))
  {
    if name == "Connected" {
      OnConnectedPreserves(s, path, ToBool(value));
    } else if name == "UUIDs" {
      OnUuidsPreserves(s, path, ToStringList(value));
    }
  }

  lemma {:induction false} ProcessPropertiesPreserves(s: State, path: Path, props: seq<(string, Variant)>)
    ensures Coherent(s) ==> Coherent(ProcessProperties(s, path, props))
    ensures Synced(s) ==> Synced(ProcessProperties(s, path, props))
    decreases |props|
  {
    if props != [] {
      var last := props[|props| - 1];
      ProcessPropertiesPreserves(s, path, props[..|props| - 1]);
      ProcessPropertyPreserves(ProcessProperties(s, path, props[..|props| - 1]), path, last.0, last.1);
    }
  }

  /** removeDevice republishes Connected only for a connected path, and then
      as the recount of the remaining connected devices. */
  lemma RemoveDeviceConnected(s: State, path: Path)
    ensures var t := RemoveDevice(s, path);
      if path in s.connected
      then ShownFlag(t.published, "Connected") == Some(|t.connected| > 0)
      else ShownFlag(t.published, "Connected") == ShownFlag(s.published, "Connected")
  {
    var t := RemoveDevice(s, path);
    var log := s.published + (if path in s.connected then [Update("Connected", Bool(|t.connected| > 0))] else []);
    if path in s.connected {
      ShownLatestFlag(s.published, "Connected", |t.connected| > 0);
    } else {
      assert log == s.published;
    }
    if path in s.headsets && path == s.connectedHeadset {
      ShownFlagFrame(log, Update("Headset", Bool(false)), "Connected");
    } else {
      assert t.published == log;
    }
  }

  lemma RemoveDevicePreserves(s: State, path: Path)
    ensures Coherent(s) ==> Coherent(RemoveDevice(s, path))
    ensures Synced(s) ==> Synced(RemoveDevice(s, path))
  {
    var t := RemoveDevice(s, path);
    RemoveDeviceConnected(s, path);
    var log := s.published + (if path in s.connected then [Update("Connected", Bool(|t.connected| > 0))] else []);
    if path in s.connected {
      ShownFlagFrame(s.published, Update("Connected", Bool(|t.connected| > 0)), "Headset");
    } else {
      assert log == s.published;
    }
    if path in s.headsets && path == s.connectedHeadset {
      ShownLatestFlag(log, "Headset", false);
    } else {
      assert t.published == log;
    }
  }

  lemma AddDevicePreserves(s: State, path: Path)
    ensures Coherent(s) ==> Coherent(AddDevice(s, path))
    ensures Synced(s) ==> Synced(AddDevice(s, path))
  {
    RemoveDevicePreserves(s, path);
  }

  lemma {:induction false} ListDevicesPreserves(s: State, devs: seq<Path>)
    ensures Coherent(s) ==> Coherent(ListDevices(s, devs))
    ensures Synced(s) ==> Synced(ListDevices(s, devs))
    decreases |devs|
  {
    if devs != [] {
      ListDevicesPreserves(s, devs[..|devs| - 1]);
      AddDevicePreserves(ListDevices(s, devs[..|devs| - 1]), devs[|devs| - 1]);
    }
  }

  /** Adapter properties pass through without disturbing the device flags,
      as long as they do not themselves carry a Connected or Headset value. */
  lemma AdapterPreserves(s: State, props: map<string, Variant>, name: string, value: Variant)
    ensures Coherent(s) ==> Coherent(AdapterProperties(s, props)) && Coherent(AdapterPropertyChanged(s, name, value))
    ensures Synced(s) && "Connected" !in props && "Headset" !in props ==> Synced(AdapterProperties(s, props))
    ensures Synced(s) && name != "Connected" && name != "Headset" ==> Synced(AdapterPropertyChanged(s, name, value))
  {
    if "Connected" !in props && "Headset" !in props {
      ShownFlagFrame(s.published, SetAll(props), "Connected");
      ShownFlagFrame(s.published, SetAll(props), "Headset");
    }
    if name != "Connected" && name != "Headset" {
      ShownFlagFrame(s.published, Update(name, value), "Connected");
      ShownFlagFrame(s.published, Update(name, value), "Headset");
    }
  }

  // ---------------------------------------------------------------------
  // Service loss.
  // ---------------------------------------------------------------------

  /** After reset_manager the namespace shows exactly its defaults, and the
      device bookkeeping is untouched; the flags then agree with that
      bookkeeping only when no device was connected and no headset recorded. */
  lemma ResetShowsDefaults(s: State)
    ensures var t := ResetManager(s);
      (forall name :: name in Defaults ==> Shown(t.published)[name] == Defaults[name]) &&
      Shown(t.published)["Address"] == Str(AddressDefault) &&
      ShownFlag(t.published, "Connected") == Some(false) &&
      ShownFlag(t.published, "Headset") == Some(false) &&
      ShownFlag(t.published, "Enabled") == Some(false) &&
      ShownFlag(t.published, "Visible") == Some(false)
    ensures var t := ResetManager(s);
      Coherent(t) == Coherent(s) &&
      (Synced(t) <==> s.connected == {} && s.connectedHeadset == "")
  {
    ShownAfterDefaults(s.published);
  }

  // ---------------------------------------------------------------------
  // Runs of events, as the adapter and the service watch deliver them.
  // ---------------------------------------------------------------------

  datatype Event =
    | DeviceCreated(path: Path)
    | DeviceRemoved(path: Path)
    | DevicesListed(paths: seq<Path>)
    | DeviceReply(path: Path, props: seq<(string, Variant)>)
    | DeviceChanged(path: Path, name: string, value: Variant)
    | AdapterReply(adapterProps: map<string, Variant>)
    | AdapterChanged(adapterName: string, adapterValue: Variant)
    | ServiceLost

  ghost function Step(s: State, e: Event): State
  {
    match e
    case DeviceCreated(path) => AddDevice(s, path)
    case DeviceRemoved(path) => RemoveDevice(s, path)
    case DevicesListed(paths) => ListDevices(s, paths)
    case DeviceReply(path, props) => ProcessProperties(s, path, props)
    case DeviceChanged(path, name, value) => ProcessProperty(s, path, name, value)
    case AdapterReply(props) => AdapterProperties(s, props)
    case AdapterChanged(name, value) => AdapterPropertyChanged(s, name, value)
    case ServiceLost => ResetManager(s)
  }

  ghost function Run(s: State, events: seq<Event>): State
    decreases |events|
  {
    if events == [] then s else Step(Run(s, events[..|events| - 1]), events[|events| - 1])
  }

  /** An event that neither resets the namespace nor publishes an adapter
      value under a device flag's name. */
  ghost predicate Quiet(e: Event)
  {
    !e.ServiceLost? &&
    (e.AdapterReply? ==> "Connected" !in e.adapterProps && "Headset" !in e.adapterProps) &&
    (e.AdapterChanged? ==> e.adapterName != "Connected" && e.adapterName != "Headset")
  }

  lemma StepPreserves(s: State, e: Event)
    ensures Coherent(s) ==> Coherent(Step(s, e))
    ensures Synced(s) && Quiet(e) ==> Synced(Step(s, e))
  {
    match e
    case DeviceCreated(path) => AddDevicePreserves(s, path);
    case DeviceRemoved(path) => RemoveDevicePreserves(s, path);
    case DevicesListed(paths) => ListDevicesPreserves(s, paths);
    case DeviceReply(path, props) => ProcessPropertiesPreserves(s, path, props);
    case DeviceChanged(path, name, value) => ProcessPropertyPreserves(s, path, name, value);
    case AdapterReply(props) => AdapterPreserves(s, props, "", Other);
    case AdapterChanged(name, value) => AdapterPreserves(s, map[], name, value);
    case ServiceLost => ResetShowsDefaults(s);
  }

  /** Whatever happens, the recorded headset stays coherent; and from a
      synced start, quiet events keep the flags equal to the bookkeeping. */
  lemma {:induction false} RunPreserves(s: State, events: seq<Event>)
    ensures Coherent(s) ==> Coherent(Run(s, events))
    ensures Synced(s) && (forall i :: 0 <= i < |events| ==> Quiet(events[i])) ==> Synced(Run(s, events))
    decreases |events|
  {
    if events != [] {
      var init := events[..|events| - 1];
      RunPreserves(s, init);
      StepPreserves(Run(s, init), events[|events| - 1]);
    }
  }

  // ---------------------------------------------------------------------
  // The sets name only known devices, while events name known devices.
  // ---------------------------------------------------------------------

  /** Every connected path and every headset path is in the device table. */
  ghost predicate Tracked(s: State)
  {
    s.connected <= s.devices && s.headsets <= s.devices
  }

  /** A device reply or property change for a path the table knows. */
  ghost predicate KnownPaths(s: State, e: Event)
  {
    (e.DeviceReply? || e.DeviceChanged?) ==> e.path in s.devices
  }

  lemma StepTracked(s: State, e: Event)
    ensures Tracked(s) && KnownPaths(s, e) ==> Tracked(Step(s, e))
  {
    match e
    case DeviceReply(path, props) =>
      var t := ProcessProperties(s, path, props);
      if Tracked(s) && path in s.devices {
        assert t.devices == s.devices;
        assert forall q :: q in t.connected ==> q == path || q in t.connected - {path};
        assert forall q :: q in t.headsets ==> q == path || q in t.headsets - {path};
      }
    case DeviceChanged(path, name, value) =>
      var t := ProcessProperty(s, path, name, value);
      assert t.connected - {path} == s.connected - {path};
    case _ =>
  }

  /** A run whose device events all name known paths keeps the sets inside
      the device table. */
  lemma {:induction false} RunTracked(s: State, events: seq<Event>)
    ensures Tracked(s) && (forall i :: 0 <= i < |events| ==> KnownPaths(Run(s, events[..i]), events[i]))
            ==> Tracked(Run(s, events))
    decreases |events|
  {
    if events != [] {
      var init := events[..|events| - 1];
      if Tracked(s) && (forall i :: 0 <= i < |events| ==> KnownPaths(Run(s, events[..i]), events[i])) {
        forall i | 0 <= i < |init|
          ensures KnownPaths(Run(s, init[..i]), init[i])
        {
          assert init[..i] == events[..i];
          assert KnownPaths(Run(s, events[..i]), events[i]);
        }
        RunTracked(s, init);
        assert events[..|events| - 1] == init;
        StepTracked(Run(s, init), events[|events| - 1]);
      }
    }
  }

  /** A GetProperties reply that arrives after its device was removed puts
      the removed path back into the connected set. */
  lemma LateReplyUntracks()
    ensures var s := RemoveDevice(AddDevice(Initial, Dev1), Dev1);
      var t := ProcessProperties(s, Dev1, [("Connected", Bool(true))]);
      Tracked(s) && Dev1 !in t.devices && Dev1 in t.connected && !Tracked(t)
  {
    var s := RemoveDevice(AddDevice(Initial, Dev1), Dev1);
    assert [("Connected", Bool(true))][..0] == [];
  }

  /** Removing a connected headset whose UUID list no longer names the
      Headset class keeps it as the recorded headset: removeDevice clears the
      record only when the path was still a headset. Headset stays shown
      true for a device the table no longer knows. */
  lemma RecordOutlivesDevice()
    ensures var s1 := Connect(Initial, Dev1);
      var s2 := OnUuids(s1, Dev1, []);
      var s3 := RemoveDevice(s2, Dev1);
      Dev1 !in s3.devices && s3.connected == {} && s3.connectedHeadset == Dev1 &&
      ShownFlag(s3.published, "Connected") == Some(false) &&
      ShownFlag(s3.published, "Headset") == Some(true)
  {
    InitialConsistent();
    var s1 := Connect(Initial, Dev1);
    ConnectHeadset(Initial, Dev1);
    var s2 := OnUuids(s1, Dev1, []);
    OnUuidsPreserves(s1, Dev1, []);
    assert s2.connectedHeadset == Dev1 && Dev1 !in s2.headsets;
    RemoveDevicePreserves(s2, Dev1);
  }

  /** For a device that has already had events, the order of a reply's
      entries matters: Connected=false before an empty UUID list clears the
      recorded headset, the reverse order keeps it. */
  lemma ReplyOrderMatters()
    ensures var s := Connect(Initial, Dev1);
      ProcessProperties(s, Dev1, [("Connected", Bool(false)), ("UUIDs", StrList([]))]).connectedHeadset == ""
      && ProcessProperties(s, Dev1, [("UUIDs", StrList([])), ("Connected", Bool(false))]).connectedHeadset == Dev1
  {
    var s := Connect(Initial, Dev1);
    ConnectHeadset(Initial, Dev1);
    ProcessPair(s, Dev1, ("Connected", Bool(false)), ("UUIDs", StrList([])));
    ProcessPair(s, Dev1, ("UUIDs", StrList([])), ("Connected", Bool(false)));
  }

  // ---------------------------------------------------------------------
  // A device's first GetProperties reply.
  // ---------------------------------------------------------------------

  lemma ProcessPair(s: State, path: Path, first: (string, Variant), second: (string, Variant))
    ensures ProcessProperties(s, path, [first, second])
            == ProcessProperty(ProcessProperty(s, path, first.0, first.1), path, second.0, second.1)
  {
    var props := [first, second];
    assert props[..1] == [first] && props[..1][..0] == [];
  }

  /** A device added and then given its Connected state and UUIDs ends up
      connected exactly when the reply says so, a headset exactly when one of
      its UUIDs is, and the recorded headset when both hold; the order of the
      two properties in the reply does not change that. */
  lemma FreshDeviceReply(s: State, path: Path, isConnected: bool, uuids: seq<string>)
    ensures var a := AddDevice(s, path);
      var t := ProcessProperties(a, path, [("Connected", Bool(isConnected)), ("UUIDs", StrList(uuids))]);
      var t' := ProcessProperties(a, path, [("UUIDs", StrList(uuids)), ("Connected", Bool(isConnected))]);
      (path in t.connected <==> isConnected) &&
      (path in t.headsets <==> exists u :: u in uuids && IsHeadset(u)) &&
      (isConnected && AnyHeadset(uuids) ==> t.connectedHeadset == path) &&
      t.devices == s.devices + {path} &&
      t.connected == t'.connected && t.headsets == t'.headsets &&
      t.connectedHeadset == t'.connectedHeadset
  {
    var a := AddDevice(s, path);
    ProcessPair(a, path, ("Connected", Bool(isConnected)), ("UUIDs", StrList(uuids)));
    ProcessPair(a, path, ("UUIDs", StrList(uuids)), ("Connected", Bool(isConnected)));
    var h := AnyHeadset(uuids);
    var c1 := OnConnected(a, path, isConnected);
    var t := OnUuids(c1, path, uuids);
    var u2 := OnUuids(a, path, uuids);
    var t' := OnConnected(u2, path, isConnected);
    assert path !in a.headsets && path !in a.connected;
    assert c1.connectedHeadset == a.connectedHeadset;
    assert t.connectedHeadset == HeadsetMark(path, isConnected, h, a.connectedHeadset);
    assert u2.connectedHeadset == HeadsetMark(path, false, h, a.connectedHeadset);
    assert t'.connectedHeadset == HeadsetMark(path, isConnected, h, u2.connectedHeadset);
  }

  // ---------------------------------------------------------------------
  // The last-connected-headset rule.
  // ---------------------------------------------------------------------

  const Dev1: Path := "/org/bluez/hci0/dev_1"
  const Dev2: Path := "/org/bluez/hci0/dev_2"
  const HeadsetClass: string := "00001108-0000-1000-8000-00805f9b34fb"

  ghost function Connect(s: State, path: Path): State
  {
    OnConnected(OnUuids(AddDevice(s, path), path, [HeadsetClass]), path, true)
  }

  lemma HeadsetClassMatches()
    ensures AnyHeadset([HeadsetClass])
  {
    assert HeadsetClass[..8] == HeadsetUuid;
    assert HeadsetClass in [HeadsetClass];
  }

  /** A set that agrees with `a` away from `p` and holds `p` is `a + {p}`. */
  lemma Readded(a: set<Path>, b: set<Path>, p: Path)
    requires b - {p} == a - {p} && p in b
    ensures b == a + {p}
  {
    assert forall q :: q in b <==> q in b - {p} || q == p;
  }

  /** Adding a device and connecting it as a headset puts it in both sets. */
  lemma ConnectSets(s: State, path: Path)
    ensures Connect(s, path).connected == s.connected + {path}
    ensures Connect(s, path).headsets == s.headsets + {path}
  {
    var a := AddDevice(s, path);
    var h := OnUuids(a, path, [HeadsetClass]);
    var c := OnConnected(h, path, true);
    assert h.connected == a.connected;
    assert path in h.headsets by {
      HeadsetClassMatches();
    }
    assert h.headsets - {path} == s.headsets - {path};
    Readded(s.headsets, h.headsets, path);
    assert c.headsets == h.headsets;
    assert c.connected == (s.connected - {path}) + {path};
    Readded(s.connected, c.connected, path);
  }

  /** A headset-class device that is added and connects becomes the recorded
      headset, from any state; the flags stay in sync when they were. */
  lemma ConnectHeadset(s: State, path: Path)
    ensures var t := Connect(s, path);
      (Synced(s) ==> Synced(t)) && t.connected == s.connected + {path} && t.headsets == s.headsets + {path} &&
      t.connectedHeadset == path
  {
    var a := AddDevice(s, path);
    var h := OnUuids(a, path, [HeadsetClass]);
    assert Synced(s) ==> Synced(Connect(s, path)) by {
      AddDevicePreserves(s, path);
      OnUuidsPreserves(a, path, [HeadsetClass]);
      OnConnectedPreserves(h, path, true);
    }
    assert path in h.headsets by {
      HeadsetClassMatches();
    }
    ConnectSets(s, path);
  }

  /** Two headsets connect one after the other; the flags stay true while one
      is connected and drop when the last-connected one leaves last. */
  lemma TwoHeadsetsScenario()
    ensures var s1 := Connect(Initial, Dev1);
      var s2 := Connect(s1, Dev2);
      var s3 := OnConnected(s2, Dev1, false);
      var s4 := OnConnected(s3, Dev2, false);
      ShownFlag(s1.published, "Connected") == Some(true) && ShownFlag(s1.published, "Headset") == Some(true) &&
      ShownFlag(s2.published, "Connected") == Some(true) && ShownFlag(s2.published, "Headset") == Some(true) &&
      ShownFlag(s3.published, "Connected") == Some(true) && ShownFlag(s3.published, "Headset") == Some(true) &&
      ShownFlag(s4.published, "Connected") == Some(false) && ShownFlag(s4.published, "Headset") == Some(false)
  {
    InitialConsistent();
    var s1 := Connect(Initial, Dev1);
    ConnectHeadset(Initial, Dev1);
    var s2 := Connect(s1, Dev2);
    ConnectHeadset(s1, Dev2);
    var s3 := OnConnected(s2, Dev1, false);
    OnConnectedPreserves(s2, Dev1, false);
    assert s3.connected == {Dev2} && s3.connectedHeadset == Dev2;
    var s4 := OnConnected(s3, Dev2, false);
    OnConnectedPreserves(s3, Dev2, false);
    assert s4.connected == {} && s4.connectedHeadset == "";
  }

  /** Headset is not a count: when the last-connected headset leaves first,
      Headset drops to false although the other headset is still connected. */
  lemma HeadsetIsNotACount()
    ensures var s2 := Connect(Connect(Initial, Dev1), Dev2);
      var s3 := OnConnected(s2, Dev2, false);
      Dev1 in s3.connected && Dev1 in s3.headsets &&
      ShownFlag(s3.published, "Connected") == Some(true) &&
      ShownFlag(s3.published, "Headset") == Some(false)
  {
    InitialConsistent();
    var s1 := Connect(Initial, Dev1);
    ConnectHeadset(Initial, Dev1);
    var s2 := Connect(s1, Dev2);
    ConnectHeadset(s1, Dev2);
    var s3 := OnConnected(s2, Dev2, false);
    OnConnectedPreserves(s2, Dev2, false);
    assert s3.connected == {Dev1} && s3.connectedHeadset == "";
  }

  /** reset_manager does not drop the connected set: a device that was
      connected when the service went away keeps Connected true after the
      service returns, even once every device seen since has disconnected. */
  lemma ResetKeepsConnectedDevices(s: State)
    requires Dev1 in s.connected
    ensures var r := ResetManager(s);
      var t := OnConnected(OnConnected(AddDevice(r, Dev2), Dev2, true), Dev2, false);
      ShownFlag(r.published, "Connected") == Some(false) &&
      ShownFlag(t.published, "Connected") == Some(true)
  {
    var r := ResetManager(s);
    ResetShowsDefaults(s);
    var c := OnConnected(AddDevice(r, Dev2), Dev2, true);
    assert Dev1 in c.connected;
    ConnectedRecount(c, Dev2, false);
  }

  /** A connected headset whose UUID list stops naming the Headset class and
      which then disconnects leaves Headset shown true: neither update
      touches the recorded headset, because check_headset ignores non-headsets. */
  lemma HeadsetOutlivesItsUuids()
    ensures var s1 := Connect(Initial, Dev1);
      var s2 := OnUuids(s1, Dev1, []);
      var s3 := OnConnected(s2, Dev1, false);
      s3.connected == {} && s3.headsets == {} &&
      ShownFlag(s3.published, "Connected") == Some(false) &&
      ShownFlag(s3.published, "Headset") == Some(true)
  {
    InitialConsistent();
    var s1 := Connect(Initial, Dev1);
    ConnectHeadset(Initial, Dev1);
    var s2 := OnUuids(s1, Dev1, []);
    OnUuidsPreserves(s1, Dev1, []);
    var s3 := OnConnected(s2, Dev1, false);
    OnConnectedPreserves(s2, Dev1, false);
    assert s3.connected == {} && s3.connectedHeadset == Dev1;
  }
}
