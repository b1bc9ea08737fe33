/** The BlueZ Bridge object: its device table, connected and headset sets,
    recorded connected headset, and what it has published to its namespace,
    updated in place by the adapter's and devices' events. */
module BlueZ {
  import opened Classifier
  import opened Properties
  import DT = DeviceTracking

  class Bridge {
    var devices: set<DT.Path>
    var connected: set<DT.Path>
    var headsets: set<DT.Path>
    var connectedHeadset: string
    var published: seq<Published>

    /** The bridge's state as a value, for the functions that specify it. */
    function Snapshot(): DT.State
      reads this
    {
      DT.State(devices, connected, headsets, connectedHeadset, published)
    }

    /** A bridge before any event: no devices, nothing published, so its
        namespace shows the defaults it was constructed with. */
    constructor ()
      ensures Snapshot() == DT.Initial
    {
      devices, connected, headsets := {}, {}, {};
      connectedHeadset := "";
      published := [];
    }

    /** updateProperty: one value for one name goes to the namespace. */
    method UpdateProperty(name: string, value: Variant)
      modifies this
      ensures published == old(published) + [Update(name, value)]
      ensures devices == old(devices) && connected == old(connected) && headsets == old(headsets)
      ensures connectedHeadset == old(connectedHeadset)
    {
      published := published + [Update(name, value)];
    }

    /** setProperties: a whole map of values goes to the namespace. */
    method SetProperties(props: map<string, Variant>)
      modifies this
      ensures published == old(published) + [SetAll(props)]
      ensures devices == old(devices) && connected == old(connected) && headsets == old(headsets)
      ensures connectedHeadset == old(connectedHeadset)
    {
      published := published + [SetAll(props)];
    }

    /** The check_headset closure of a device at `path`. */
    method CheckHeadset(path: DT.Path, isConnected: bool, isHeadset: bool)
      modifies this
      ensures Snapshot() == DT.CheckHeadset(old(Snapshot()), path, isConnected, isHeadset)
    {
      if !isHeadset {
        return;
      }
      if isConnected {
        connectedHeadset := path;
        UpdateProperty("Headset", Bool(isConnected));
      } else if path == connectedHeadset {
        UpdateProperty("Headset", Bool(isConnected));
        connectedHeadset := "";
      }
    }

    /** The on_connected closure of a device at `path`. */
    method OnConnected(path: DT.Path, isConnected: bool)
      modifies this
      ensures Snapshot() == DT.OnConnected(old(Snapshot()), path, isConnected)
      ensures path in connected <==> isConnected
    {
      if isConnected {
        connected := connected + {path};
      } else {
        connected := connected - {path};
      }
      UpdateProperty("Connected", Bool(|connected| > 0));
      CheckHeadset(path, isConnected, path in headsets);
    }

    /** The on_uuid closure of a device at `path`. */
    method OnUuids(path: DT.Path, uuids: seq<string>)
      modifies this
      ensures Snapshot() == DT.OnUuids(old(Snapshot()), path, uuids)
      ensures path in headsets <==> exists u :: u in uuids && IsHeadset(u)
    {
      var isHeadset := AnyHeadset(uuids);
      if isHeadset {
        headsets := headsets + {path};
      } else {
        headsets := headsets - {path};
      }
      CheckHeadset(path, path in connected, isHeadset);
    }

    /** The processProperty closure of a device at `path`. */
    method ProcessProperty(path: DT.Path, name: string, value: Variant)
      modifies this
      ensures Snapshot() == DT.ProcessProperty(old(Snapshot()), path, name, value)
    {
      if name == "Connected" {
        OnConnected(path, ToBool(value));
      } else if name == "UUIDs" {
        OnUuids(path, ToStringList(value));
      }
    }

    /** The completion of a device's GetProperties call: every entry of the
        reply goes through processProperty, in order. */
    method OnDeviceProperties(path: DT.Path, props: seq<(string, Variant)>)
      modifies this
      ensures Snapshot() == DT.ProcessProperties(old(Snapshot()), path, props)
    {
      for i := 0 to |props|
        invariant Snapshot() == DT.ProcessProperties(old(Snapshot()), path, props[..i])
      {
        assert props[..i + 1][..i] == props[..i];
        ProcessProperty(path, props[i].0, props[i].1);
      }
      assert props[..|props|] == props;
    }

    /** removeDevice: forget the device at `path`. */
    method RemoveDevice(path: DT.Path)
      modifies this
      ensures Snapshot() == DT.RemoveDevice(old(Snapshot()), path)
      ensures path !in devices && path !in connected && path !in headsets
    {
      devices := devices - {path};
      if path in connected {
        connected := connected - {path};
        UpdateProperty("Connected", Bool(|connected| > 0));
      }
      var wasHeadset := path in headsets;
      headsets := headsets - {path};
      if wasHeadset && path == connectedHeadset {
        UpdateProperty("Headset", Bool(false));
        connectedHeadset := "";
      }
    }

    /** addDevice: start tracking the device at `path` afresh. */
    method AddDevice(path: DT.Path)
      modifies this
      ensures Snapshot() == DT.AddDevice(old(Snapshot()), path)
      ensures path in devices && path !in connected && path !in headsets
    {
      RemoveDevice(path);
      devices := devices + {path};
    }

    /** The completion of the adapter's ListDevices call: addDevice for each
        listed device, in order. */
    method OnDevicesListed(devs: seq<DT.Path>)
      modifies this
      ensures Snapshot() == DT.ListDevices(old(Snapshot()), devs)
    {
      ghost var start := Snapshot();
      for i := 0 to |devs|
        invariant Snapshot() == DT.ListDevices(start, devs[..i])
      {
        DT.ListDevicesStep(start, devs, i);
        AddDevice(devs[i]);
      }
      assert devs[..|devs|] == devs;
    }

    /** The adapter's GetProperties reply, handed on with setProperties. */
    method OnAdapterProperties(props: map<string, Variant>)
      modifies this
      ensures Snapshot() == DT.AdapterProperties(old(Snapshot()), props)
    {
      SetProperties(props);
    }

    /** An adapter PropertyChanged signal, handed on with updateProperty. */
    method OnAdapterPropertyChanged(name: string, value: Variant)
      modifies this
      ensures Snapshot() == DT.AdapterPropertyChanged(old(Snapshot()), name, value)
    {
      UpdateProperty(name, value);
    }

    /** reset_manager, when the BlueZ service goes away: the namespace's
        reset_properties publishes the defaults; nothing else changes. */
    method ResetManager()
      modifies this
      ensures Snapshot() == DT.ResetManager(old(Snapshot()))
    {
      SetProperties(Defaults);
    }
  }
}
