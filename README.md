# BlueZ device tracking of the statefs Bluetooth provider

This project models the `Bridge` of the statefs BlueZ provider
(`src/bluez/provider_bluez.cpp`). The Bridge turns the per-device property
events of BlueZ into the `Connected` and `Headset` flags of the
`Bluetooth` namespace. When the BlueZ service goes away, it puts the
namespace back to its defaults.

The model has five modules:

- `Classifier` (classifier.dfy) holds `isHeadset` and the `std::any_of` over
  a device's UUID list. It also gives the 128-bit Base-UUID form of a service
  class (Bluetooth Core Specification, Vol 3, Part B, section 2.5.1). Over
  that form, the test on the first eight characters picks out exactly the
  Headset class 0x1108.
- `Properties` (properties.dfy) defines the values the bridge passes to its
  namespace. Every `updateProperty` or `setProperties` call is one entry of a
  publish log. Nothing is de-duplicated. `Shown` gives what the namespace
  shows after a log, starting from the defaults it is constructed with.
- `DeviceTracking` (device_tracking.dfy) gives each operation as a function
  on a `State` value: the closures `check_headset`, `on_connected`, `on_uuid`
  and `processProperty`, the GetProperties completion, `addDevice`,
  `removeDevice`, the ListDevices completion, the adapter pass-through and
  `reset_manager`.
- `DeviceTrackingProofs` (device_tracking_proofs.dfy) states what these
  operations guarantee:
  - `Coherent`: the recorded headset, while it is still a headset, is
    connected.
  - `Synced`: `Connected` shows whether any device is connected, and
    `Headset` shows whether `connected_headset_` holds a path.
  - `Tracked`: the connected and headset sets name only paths in the
    device table. A run keeps it while every device reply and property
    change names a known path.
  - Every device event keeps both invariants. Any run of events keeps
    `Coherent`; a run without a service loss or an adapter value named
    `Connected`/`Headset` keeps `Synced`.
  - After a service loss every default is shown again.
  - Scenario lemmas show the last-connected-headset rule.
- `BlueZ` (bridge.dfy) is the `Bridge` as a class. Its fields are updated in
  place. Each method is proved to produce exactly the state given by the
  matching `DeviceTracking` function.

Behaviour of the code as written, each proved as a lemma:

- `Connected` is a recount. After every `Connected` event it is published
  as "the connected set is non-empty" (`ConnectedRecount`).
- `Headset` follows the last connected headset and is not a count. When
  that headset disconnects, `Headset` drops to false even if another
  headset is still connected (`HeadsetIsNotACount`).
- A connected headset can lose the Headset class from its UUID list and
  then disconnect. `Headset` then stays shown true, because `check_headset`
  ignores a device that is not a headset (`HeadsetOutlivesItsUuids`).
- Removing such a device leaves it as the recorded headset.
  `removeDevice` clears `connected_headset_` only when `headsets_.erase`
  removed the path (provider_bluez.cpp:174). `Headset` then stays shown true
  for a device the table no longer knows, with `Connected` shown false
  (`RecordOutlivesDevice`).
- A GetProperties reply that arrives after its device was removed puts the
  removed path back into the connected set, outside the device table
  (`LateReplyUntracks`).
- For a device that has already had events, the order of a reply's entries
  matters: `Connected`=false before an empty UUID list clears the record,
  the reverse order keeps it (`ReplyOrderMatters`).

Expectations one might have of such a bridge that the code does not meet;
the model follows the code:

- **Service loss.** One might expect a service loss to drop all device
  records. `reset_manager` only publishes the defaults. `devices_`,
  `connected_`, `headsets_` and `connected_headset_` stay as they were. A
  device that was connected when the service went away can therefore keep
  `Connected` true later (`ResetKeepsConnectedDevices`).
- **De-duplication.** One might expect only changed values to be
  published. Whenever the code publishes, it does so without comparing with
  the last published value. Any de-duplication happens inside the external
  namespace, so the log records every call. Not every event publishes:
  on_uuid publishes only through check_headset (provider_bluez.cpp:136-144),
  processProperty ignores every name but `Connected` and `UUIDs` (:146-153),
  and removeDevice of a path that is neither connected nor the recorded
  headset publishes nothing (:167-178).
- **Stale completions.** One might expect a late GetProperties completion
  for a removed device to be dropped. The code has no such check: the
  completion (:156-160) is applied to a path that has since been removed.
  The PropertyChanged connection (:161-164) goes away with the device proxy
  when `devices_.erase` (:170) drops it. The model's `DeviceChanged` event
  accepts any path, so it over-approximates what the code can receive; the
  invariant lemmas hold for every path, so they cover the code's events too.
- **Headset aggregation.** One might expect `Headset` to count connected
  headsets. The code uses the last-connected rule above.

## Model

| member | source | states |
|---|---|---|
| `Classifier.Left` | src/bluez/provider_bluez.cpp:101 | `QString::left`: the result is a prefix of the string, of length n, or the whole string when it is shorter |
| `Classifier.IsHeadset` | src/bluez/provider_bluez.cpp:98-103 | a UUID is a headset iff `"00001108"` is a prefix of it; a string shorter than 8 characters never is |
| `Classifier.AnyHeadset` | src/bluez/provider_bluez.cpp:137 | `any_of` over the UUID list: true iff some UUID in the list is a headset |
| `Classifier.HeadsetServiceClass` | src/bluez/provider_bluez.cpp:98 | for every 16- or 32-bit service class alias, its Base-UUID string is classified as a headset iff the alias is 0x1108 |
| `Properties.ToBool` | src/bluez/provider_bluez.cpp:149 | `QVariant::toBool`: a boolean is itself; a string is true unless it is empty, `"0"` or `"false"`, compared case-sensitively (see Left out); a string list or other value is false |
| `Properties.ToStringList` | src/bluez/provider_bluez.cpp:151 | `QVariant::toStringList`: a string list is itself, a single string is a one-element list, anything else is the empty list |
| `Properties.FlagReadsBack` | src/bluez/provider_bluez.cpp:149 | a value that stands for a flag (a boolean, or the string `"0"`/`"1"`) reads back with `toBool` as that flag |
| `Properties.DefaultsTable` | src/bluez/provider_bluez.cpp:183-188 | `defaults_` holds exactly Enabled, Visible, Connected, Address and Headset; every flag among them is false and Address is `00:00:00:00:00:00` |
| `Properties.Shown` | src/bluez/provider_bluez.cpp:190-194 | what the namespace shows always includes every default property |
| `Properties.ShownInitially` | src/bluez/provider_bluez.cpp:190-194 | before any publication the namespace shows the defaults: flags false, Address `00:00:00:00:00:00` |
| `Properties.ShownAfterDefaults` | src/bluez/provider_bluez.cpp:198-201 | after `setProperties(defaults_)` every default is shown again, whatever the log held before |
| `DeviceTracking.CheckHeadset` | src/bluez/provider_bluez.cpp:111-125 | a non-headset changes nothing; a connected headset becomes the recorded one and Headset=true is published; a disconnected headset publishes false and clears the record only if it is the recorded one, otherwise nothing; the sets never change |
| `DeviceTracking.OnConnected` | src/bluez/provider_bluez.cpp:127-134 | `path` is inserted into or erased from the connected set; Connected = (set non-empty) is published; then the check_headset effect follows, judged by the path's headset membership |
| `DeviceTracking.OnUuids` | src/bluez/provider_bluez.cpp:136-144 | afterwards `path` is a headset iff some UUID in the list is a headset; other paths' membership is unchanged; then the check_headset effect follows, judged by the path's connection state |
| `DeviceTracking.ProcessProperty` | src/bluez/provider_bluez.cpp:146-153 | `Connected` goes to on_connected (value read as bool), `UUIDs` to on_uuid (value read as string list); any other name changes nothing and publishes nothing |
| `DeviceTracking.ProcessProperties` | src/bluez/provider_bluez.cpp:156-160 | a GetProperties reply changes only the given path's memberships, never the device table; a reply without `Connected` or `UUIDs` changes nothing |
| `DeviceTracking.RemoveDevice` | src/bluez/provider_bluez.cpp:167-178 | `path` leaves the device table and both sets; Connected is republished only if `path` was connected; Headset=false is published and the record cleared only if `path` was a headset and the recorded one |
| `DeviceTracking.AddDevice` | src/bluez/provider_bluez.cpp:105-165 | removes first, so earlier contributions of `path` are dropped; afterwards `path` is known, and is neither connected nor a headset |
| `DeviceTracking.ListDevices` | src/bluez/provider_bluez.cpp:86-90 | after a device listing, every listed path is known, and is neither connected nor a headset; other paths keep their memberships |
| `DeviceTracking.ResetManager` | src/bluez/provider_bluez.cpp:60-64 | a service loss publishes exactly `setProperties(Defaults)` and leaves the device table, both sets and the recorded headset untouched |
| `DeviceTracking.AdapterProperties` | src/bluez/provider_bluez.cpp:76-79 | the adapter's property reply is passed on as one `setProperties`; nothing else changes |
| `DeviceTracking.AdapterPropertyChanged` | src/bluez/provider_bluez.cpp:81-84 | an adapter property change is passed on as one `updateProperty`; nothing else changes |
| `DeviceTrackingProofs.InitialConsistent` | src/bluez/provider_bluez.cpp:183-194 | a new bridge over a new namespace is coherent and synced: both flags show false and nothing is connected |
| `DeviceTrackingProofs.ConnectedRecount` | src/bluez/provider_bluez.cpp:127-132 | after any Connected event, Connected shows (connected set non-empty): true while another device stays connected, false when the last one goes |
| `DeviceTrackingProofs.OnConnectedPreserves` | src/bluez/provider_bluez.cpp:127-134 | a Connected event keeps the coherence of the recorded headset and keeps both flags in sync with the bookkeeping |
| `DeviceTrackingProofs.OnUuidsPreserves` | src/bluez/provider_bluez.cpp:136-144 | a UUIDs event keeps coherence and keeps both flags in sync |
| `DeviceTrackingProofs.ProcessPropertyPreserves` | src/bluez/provider_bluez.cpp:146-153 | any device property event keeps coherence and sync |
| `DeviceTrackingProofs.ProcessPropertiesPreserves` | src/bluez/provider_bluez.cpp:156-160 | a whole GetProperties reply keeps coherence and sync |
| `DeviceTrackingProofs.RemoveDeviceConnected` | src/bluez/provider_bluez.cpp:171-172 | removing a connected device shows Connected as the recount of the remaining devices; removing any other device leaves the flag as it was |
| `DeviceTrackingProofs.RemoveDevicePreserves` | src/bluez/provider_bluez.cpp:167-178 | removing a device keeps coherence and sync |
| `DeviceTrackingProofs.AddDevicePreserves` | src/bluez/provider_bluez.cpp:105-109 | adding a device keeps coherence and sync |
| `DeviceTrackingProofs.ListDevicesPreserves` | src/bluez/provider_bluez.cpp:86-90 | a device listing keeps coherence and sync |
| `DeviceTrackingProofs.AdapterPreserves` | src/bluez/provider_bluez.cpp:76-84 | adapter values keep coherence, and keep sync when they carry no Connected or Headset entry |
| `DeviceTrackingProofs.ResetShowsDefaults` | src/bluez/provider_bluez.cpp:183-188 | after a service loss the namespace shows each of the five defaults again (flags false, Address `00:00:00:00:00:00`); coherence is unchanged; the flags agree with the bookkeeping iff nothing was connected and no headset was recorded |
| `DeviceTrackingProofs.StepPreserves` | src/bluez/provider_bluez.cpp:81-95 | each event the adapter, the devices or the service watch deliver keeps coherence; every event except a service loss or an adapter value named Connected/Headset keeps sync |
| `DeviceTrackingProofs.RunPreserves` | src/bluez/provider_bluez.cpp:65-96 | coherence holds after any sequence of events; sync holds after any sequence without service loss or adapter values named Connected/Headset |
| `DeviceTrackingProofs.StepTracked` | src/bluez/provider_bluez.cpp:105-178 | an event whose device reply or property change names a known path keeps the connected and headset sets inside the device table |
| `DeviceTrackingProofs.RunTracked` | src/bluez/provider_bluez.cpp:65-178 | a run of events, each naming a known path where it names a device, keeps the sets inside the device table |
| `DeviceTrackingProofs.LateReplyUntracks` | src/bluez/provider_bluez.cpp:156-160 | a reply arriving after removeDevice puts the removed path back into the connected set, outside the device table |
| `DeviceTrackingProofs.RecordOutlivesDevice` | src/bluez/provider_bluez.cpp:174-177 | a connected headset whose UUIDs stop naming the Headset class, once removed, is still the recorded headset: Headset shown true, Connected shown false, path no longer known |
| `DeviceTrackingProofs.ReplyOrderMatters` | src/bluez/provider_bluez.cpp:157-159 | for a connected recorded headset, Connected=false then an empty UUID list clears the record; the reverse order keeps it |
| `DeviceTrackingProofs.FreshDeviceReply` | src/bluez/provider_bluez.cpp:155-160 | a newly added device's first reply leaves it connected iff the reply says so, a headset iff one of its UUIDs is, and the recorded headset when both hold; swapping the order of the two entries gives the same sets and the same recorded headset |
| `DeviceTrackingProofs.ConnectHeadset` | src/bluez/provider_bluez.cpp:111-143 | from any state, a headset-class device that is added and connects joins both sets and becomes the recorded headset; flags that were in sync stay in sync |
| `DeviceTrackingProofs.TwoHeadsetsScenario` | src/bluez/provider_bluez.cpp:111-134 | two headsets connect, the first and then the second disconnect: both flags stay true until the last one goes, then both are false |
| `DeviceTrackingProofs.HeadsetIsNotACount` | src/bluez/provider_bluez.cpp:116-123 | when the last-connected of two headsets disconnects first, Headset drops to false while the other headset is still connected |
| `DeviceTrackingProofs.ResetKeepsConnectedDevices` | src/bluez/provider_bluez.cpp:60-64 | a device connected at service loss still counts later: after the reset shows Connected false, another device connecting and disconnecting leaves Connected true |
| `DeviceTrackingProofs.HeadsetOutlivesItsUuids` | src/bluez/provider_bluez.cpp:136-143 | a connected headset that loses its Headset UUID and then disconnects leaves Headset shown true with nothing connected |
| `BlueZ.Bridge.constructor` | src/bluez/provider_bluez.cpp:41-46 | a new bridge knows no device and has published nothing |
| `BlueZ.Bridge.UpdateProperty` | src/bluez/provider_bluez.cpp:118 | an `updateProperty(name, value)` call appends exactly that update to the publish log; the device table, both sets and the recorded headset are unchanged |
| `BlueZ.Bridge.SetProperties` | src/bluez/provider_bluez.cpp:78 | a `setProperties(map)` call appends exactly that map to the publish log; the device table, both sets and the recorded headset are unchanged |
| `BlueZ.Bridge.CheckHeadset` | src/bluez/provider_bluez.cpp:111-125 | the in-place check_headset produces exactly `DeviceTracking.CheckHeadset` of the old state |
| `BlueZ.Bridge.OnConnected` | src/bluez/provider_bluez.cpp:127-134 | the in-place on_connected produces `DeviceTracking.OnConnected` of the old state; afterwards `path` is connected iff the event says so |
| `BlueZ.Bridge.OnUuids` | src/bluez/provider_bluez.cpp:136-144 | the in-place on_uuid produces `DeviceTracking.OnUuids` of the old state; afterwards `path` is a headset iff one of its UUIDs is |
| `BlueZ.Bridge.ProcessProperty` | src/bluez/provider_bluez.cpp:146-153 | the dispatcher produces `DeviceTracking.ProcessProperty` of the old state |
| `BlueZ.Bridge.OnDeviceProperties` | src/bluez/provider_bluez.cpp:156-160 | the loop over a GetProperties reply produces `DeviceTracking.ProcessProperties` of the old state |
| `BlueZ.Bridge.RemoveDevice` | src/bluez/provider_bluez.cpp:167-178 | produces `DeviceTracking.RemoveDevice` of the old state; `path` is then in no table or set |
| `BlueZ.Bridge.AddDevice` | src/bluez/provider_bluez.cpp:105-165 | produces `DeviceTracking.AddDevice` of the old state; `path` is then known, and is neither connected nor a headset |
| `BlueZ.Bridge.OnDevicesListed` | src/bluez/provider_bluez.cpp:86-90 | the loop over a device listing produces `DeviceTracking.ListDevices` of the old state |
| `BlueZ.Bridge.OnAdapterProperties` | src/bluez/provider_bluez.cpp:76-79 | produces `DeviceTracking.AdapterProperties` of the old state |
| `BlueZ.Bridge.OnAdapterPropertyChanged` | src/bluez/provider_bluez.cpp:81-84 | produces `DeviceTracking.AdapterPropertyChanged` of the old state |
| `BlueZ.Bridge.ResetManager` | src/bluez/provider_bluez.cpp:60-64 | produces `DeviceTracking.ResetManager` of the old state: the defaults are published and nothing else changes |

## Left out

- D-Bus proxies, `sync`/`async` calls and Qt signal wiring (provider_bluez.cpp:50-59, 65, 69-96) are left out because they are transport machinery. Their effects are method calls: a completion or a signal is a call of the matching `Bridge` method.
- `ServiceWatch` is left out: its code is not part of this model. A service loss is a call of `ResetManager`.
- `setup_manager` is left out because it only builds proxies. So is the proxy replacement in `defaultAdapterChanged`. When the default adapter changes, the code keeps the device bookkeeping, and so does the model.
- `devices_` maps each path to its D-Bus proxy. The model keeps only the set of paths, because the proxy is transport.
- The raw-name aliasing `Powered`→`Enabled` and `Discoverable`→`Visible` is left out. So is the conversion of booleans to namespace strings (provider_bluez.cpp:190-194). Both happen inside the external namespace classes. The log records what the bridge passes on. `AsFlag` reads a published boolean, or a default `"0"`/`"1"`, as a flag.
- Qt's conversion table for `QVariant` is cut down to booleans, strings and string lists. The string-to-bool test compares with `"false"` case-sensitively, where Qt ignores case.
- `Properties.ToBool`, `Properties.ToStringList`: the variant kind `Other` stands for every other QVariant kind. It is read as false and as the empty list, but Qt gives true for a non-zero number and turns a `QVariantList` of strings into that list. BlueZ sends `Connected` as a boolean and `UUIDs` as a string list, so neither case arises.
- A `QVariantMap` reply is taken as a sequence of entries in the given order. Qt iterates it in ascending key order, so the code always handles `Connected` before `UUIDs`. `FreshDeviceReply` shows that for a newly added device the order of the two does not change the resulting sets or the recorded headset. For a device that has already had events the order matters (`ReplyOrderMatters`). Accepting both orders over-approximates the code; the invariant lemmas hold for every order.
- The `qDebug` logging is left out.
- Paths are assumed non-empty (`DeviceTracking.Path`), because D-Bus object paths never are. This lets `""` stand for "no connected headset". For an empty path with no headset recorded, the code's `path == connected_headset_` (provider_bluez.cpp:120) would hold and publish Headset=false; the model cannot express that call.
- `Provider` and the `init_provider` singleton guard (provider_bluez.cpp:204-241) are left out because they are startup glue.
- `src/bluez/dbus_types.hpp` is left out because it only registers Qt metatypes.
- `examples/inout/inout-reader.cpp` is left out because it is a demo that logs property changes.
- `src/ofono/provider_ofono.hpp` is left out: it holds declarations whose bodies are not part of this model.
- `DeviceInfo`/`Devices` in `src/bluez/provider_bluez.hpp` are left out: their methods are declared without bodies. The category state machine described for them is therefore not modelled.
