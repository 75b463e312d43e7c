// The device records and the device table of the DirectInput gamepad
// backend: GUID construction on a record, the button and hat updates that
// write a record's state arrays, lookup by index, duplicate detection and
// registration in `enumDevicesCallback`, and removal with a left shift.

module GamepadDevices {
  import opened Wrappers
  import opened GamepadGuid
  import opened GamepadState

  /** A Windows GUID as DirectInput reports it. */
  datatype WinGuid = WinGuid(data1: bv32, data2: bv16, data3: bv16, data4: seq<bv8>)

  /** What DirectInput reports about one attached device. */
  datatype DeviceInstance = DeviceInstance(guidInstance: WinGuid, guidProduct: WinGuid, productName: seq<bv8>)

  /** The bindings a controller mapping installs on a device. */
  datatype Mapping = Mapping(buttonBindings: seq<Option<Binding>>, hatBindings: seq<Option<Binding>>)

  /** The application's callbacks: which are registered, and the calls made so far. */
  class EventSink {
    const callbacks: Callbacks
    var events: seq<Event>

    constructor (callbacks: Callbacks)
      ensures this.callbacks == callbacks && events == []
    {
      this.callbacks := callbacks;
      events := [];
    }
  }

  /** One device record with its private DirectInput data. */
  class DeviceRecord {
    const deviceID: nat
    const guidInstance: WinGuid
    const description: Option<seq<bv8>>
    const vendorID: bv16
    const productID: bv16
    var guid: Guid
    const buttonStates: array<bool>
    const hatStates: array<bv8>
    var buttonBindings: seq<Option<Binding>>
    var hatBindings: seq<Option<Binding>>

    /** A fresh record: all buttons up, all hats centred, no bindings yet. */
    constructor (deviceID: nat, guidInstance: WinGuid, description: Option<seq<bv8>>,
                 vendorID: bv16, productID: bv16, numButtons: nat, numHats: nat)
      ensures this.deviceID == deviceID && this.guidInstance == guidInstance
      ensures this.description == description && this.vendorID == vendorID && this.productID == productID
      ensures fresh(buttonStates) && fresh(hatStates)
      ensures buttonStates[..] == seq(numButtons, _ => false) && hatStates[..] == seq(numHats, _ => HatCentered)
      ensures buttonBindings == [] && hatBindings == []
    {
      this.deviceID := deviceID;
      this.guidInstance := guidInstance;
      this.description := description;
      this.vendorID := vendorID;
      this.productID := productID;
      guid := RawGuid([]);
      buttonStates := new bool[numButtons](_ => false);
      hatStates := new bv8[numHats](_ => HatCentered);
      buttonBindings := [];
      hatBindings := [];
    }

    /** `buildGuid`: the XInput tag, or the standard fields with the description checksum. */
    method BuildGuid(isXInput: bool)
      modifies this`guid
      ensures guid == DeviceGuid(description, vendorID, productID, isXInput)
    {
      if isXInput {
        guid := XInputGuid();
      } else {
        var crc := ComputeDescriptionCrc(description);
        guid := StandardGuid(UsbBus, crc, vendorID, 0, productID, 0, 1, HidDriver, 0);
      }
    }

    /** Installs a mapping's bindings. */
    method AssignBindings(m: Mapping)
      modifies this`buttonBindings, this`hatBindings
      ensures buttonBindings == m.buttonBindings && hatBindings == m.hatBindings
    {
      buttonBindings := m.buttonBindings;
      hatBindings := m.hatBindings;
    }

    /** `updateButtonValue`: store the new state and fire callbacks only on a change. */
    method UpdateButtonValue(buttonIndex: nat, down: bool, sink: EventSink)
      requires buttonIndex < buttonStates.Length && buttonIndex < |buttonBindings|
      modifies buttonStates, sink`events
      ensures buttonStates[..] == ButtonUpdate(old(buttonStates[..]), buttonIndex, down, buttonBindings[buttonIndex], deviceID, sink.callbacks).0
      ensures sink.events == old(sink.events)
              + ButtonUpdate(old(buttonStates[..]), buttonIndex, down, buttonBindings[buttonIndex], deviceID, sink.callbacks).1
    {
      if down != buttonStates[buttonIndex] {
        buttonStates[buttonIndex] := down;
        sink.events := sink.events + ButtonEvents(deviceID, buttonBindings[buttonIndex], down, sink.callbacks);
      }
    }

    /**
     * `updateHatValue`: convert the POV reading, store it, and run the four
     * direction blocks (bindings `hatIndex` to `hatIndex + 3`) against the
     * previous state.
     */
    method UpdateHatValue(hatIndex: nat, value: Dword, sink: EventSink)
      requires hatIndex < hatStates.Length
      requires BindingsReadable(hatStates[hatIndex], PovToHat(value), hatBindings, hatIndex)
      modifies hatStates, sink`events
      ensures hatStates[..] == old(hatStates[..])[hatIndex := PovToHat(value)]
      ensures sink.events == old(sink.events)
              + HatEvents(deviceID, old(hatStates[hatIndex]), PovToHat(value), hatBindings, hatIndex, sink.callbacks)
    {
      var lastValue := hatStates[hatIndex];
      var v := PovToHat(value);
      hatStates[hatIndex] := v;
      UpdateHatDirections(lastValue, v, hatIndex, sink);
    }

    /** `updateHatValueXInput`: the same blocks for hat 0 with bindings 0 to 3. */
    method UpdateHatValueXInput(value: bv8, sink: EventSink)
      requires 0 < hatStates.Length
      requires BindingsReadable(hatStates[0], value, hatBindings, 0)
      modifies hatStates, sink`events
      ensures hatStates[..] == old(hatStates[..])[0 := value]
      ensures sink.events == old(sink.events) + HatEvents(deviceID, old(hatStates[0]), value, hatBindings, 0, sink.callbacks)
    {
      var lastValue := hatStates[0];
      hatStates[0] := value;
      UpdateHatDirections(lastValue, value, 0, sink);
    }

    /** The up, right, down and left blocks, each appending what it fires. */
    method UpdateHatDirections(lastValue: bv8, value: bv8, base: nat, sink: EventSink)
      requires BindingsReadable(lastValue, value, hatBindings, base)
      modifies sink`events
      ensures sink.events == old(sink.events) + HatEvents(deviceID, lastValue, value, hatBindings, base, sink.callbacks)
    {
      var up := DirectionEvents(deviceID, 0, lastValue, value, hatBindings, base, sink.callbacks);
      var right := DirectionEvents(deviceID, 1, lastValue, value, hatBindings, base, sink.callbacks);
      var down := DirectionEvents(deviceID, 2, lastValue, value, hatBindings, base, sink.callbacks);
      var left := DirectionEvents(deviceID, 3, lastValue, value, hatBindings, base, sink.callbacks);
      AppendFour(sink, up, right, down, left);
    }
  }

  /** Four blocks appending in turn add their concatenation. */
  method AppendFour(sink: EventSink, a: seq<Event>, b: seq<Event>, c: seq<Event>, d: seq<Event>)
    modifies sink`events
    ensures sink.events == old(sink.events) + (a + b + c + d)
  {
    sink.events := sink.events + a;
    sink.events := sink.events + b;
    sink.events := sink.events + c;
    sink.events := sink.events + d;
  }

  /** No two records share a DirectInput instance GUID. */
  predicate DistinctInstances(s: seq<DeviceRecord>)
  {
    forall i, j :: 0 <= i < j < |s| ==> s[i].guidInstance != s[j].guidInstance
  }

  /**
   * Device IDs rise strictly along the table and stay below the next ID to
   * hand out, so no two attached devices ever share one.
   */
  predicate IdsIncreasing(s: seq<DeviceRecord>, next: nat)
  {
    && (forall i, j :: 0 <= i < j < |s| ==> s[i].deviceID < s[j].deviceID)
    && (forall i :: 0 <= i < |s| ==> s[i].deviceID < next)
  }

  /** `s` with the element at `i` removed and the rest kept in order. */
  function Without<T>(s: seq<T>, i: nat): (r: seq<T>)
    requires i < |s|
    ensures |r| == |s| - 1
    ensures forall j {:trigger r[j]} :: 0 <= j < |r| ==> r[j] == if j < i then s[j] else s[j + 1]
  {
    s[..i] + s[i + 1..]
  }

  /** Removal loses exactly the removed element. */
  lemma WithoutMultiset<T>(s: seq<T>, i: nat)
    requires i < |s|
    ensures multiset(Without(s, i)) + multiset{s[i]} == multiset(s)
  {
    assert s == s[..i] + [s[i]] + s[i + 1..];
  }

  /** Removal keeps instance GUIDs distinct. */
  lemma WithoutKeepsDistinct(s: seq<DeviceRecord>, i: nat)
    requires i < |s| && DistinctInstances(s)
    ensures DistinctInstances(Without(s, i))
  {
    var r := Without(s, i);
    forall a, b | 0 <= a < b < |r|
      ensures r[a].guidInstance != r[b].guidInstance
    {
      var a', b' := if a < i then a else a + 1, if b < i then b else b + 1;
      assert r[a] == s[a'] && r[b] == s[b'] && a' < b';
    }
  }

  /** Removal keeps device IDs increasing. */
  lemma WithoutKeepsIdsIncreasing(s: seq<DeviceRecord>, i: nat, next: nat)
    requires i < |s| && IdsIncreasing(s, next)
    ensures IdsIncreasing(Without(s, i), next)
  {
    var r := Without(s, i);
    forall a, b | 0 <= a < b < |r|
      ensures r[a].deviceID < r[b].deviceID
    {
      var a', b' := if a < i then a else a + 1, if b < i then b else b + 1;
      assert r[a] == s[a'] && r[b] == s[b'] && a' < b';
    }
    forall a | 0 <= a < |r|
      ensures r[a].deviceID < next
    {
      assert r[a] == s[if a < i then a else a + 1];
    }
  }

  /** The list of attached devices: `devices`, `numDevices` and `nextDeviceID`. */
  class DeviceTable {
    var devices: array<DeviceRecord>
    var numDevices: nat
    var nextDeviceID: nat

    ghost predicate Valid()
      reads this, devices
    {
      numDevices <= devices.Length && DistinctInstances(devices[..numDevices])
      && IdsIncreasing(devices[..numDevices], nextDeviceID)
    }

    /** The attached devices in order. */
    function Contents(): seq<DeviceRecord>
      reads this, devices
      requires numDevices <= devices.Length
    {
      devices[..numDevices]
    }

    constructor ()
      ensures Valid() && Contents() == [] && nextDeviceID == 0
    {
      devices := new DeviceRecord[0];
      numDevices := 0;
      nextDeviceID := 0;
    }

    /** `Gamepad_deviceAtIndex`: the device at an index, or null past the end. */
    function DeviceAtIndex(deviceIndex: nat): (r: Option<DeviceRecord>)
      reads this, devices
      requires numDevices <= devices.Length
      ensures r.None? <==> deviceIndex >= |Contents()|
      ensures r.Some? ==> r.value == Contents()[deviceIndex]
    {
      if deviceIndex >= numDevices then None else Some(devices[deviceIndex])
    }

    /** The duplicate check of `enumDevicesCallback`: is this instance already attached? */
    method FindInstance(g: WinGuid) returns (found: bool)
      requires numDevices <= devices.Length
      ensures found <==> InstanceAttached(g, Contents())
    {
      var deviceIndex := 0;
      while deviceIndex < numDevices
        invariant deviceIndex <= numDevices
        invariant forall i :: 0 <= i < deviceIndex ==> devices[i].guidInstance != g
      {
        if devices[deviceIndex].guidInstance == g {
          assert Contents()[deviceIndex].guidInstance == g;
          return true;
        }
        deviceIndex := deviceIndex + 1;
      }
      return false;
    }

    /** `removeDevice`: report the removal, then shift the later devices left. */
    method RemoveDevice(deviceIndex: nat, sink: EventSink)
      requires Valid() && deviceIndex < numDevices
      modifies this, devices, sink`events
      ensures Valid() && devices == old(devices) && nextDeviceID == old(nextDeviceID)
      ensures numDevices == old(numDevices) - 1
      ensures Contents() == Without(old(Contents()), deviceIndex)
      ensures sink.events == old(sink.events)
              + (if sink.callbacks.remove then [Removed(old(devices[deviceIndex]).deviceID)] else [])
    {
      ghost var before := Contents();
      if sink.callbacks.remove {
        sink.events := sink.events + [Removed(devices[deviceIndex].deviceID)];
      }
      numDevices := numDevices - 1;
      ShiftLeft(devices, deviceIndex, numDevices);
      assert Contents() == Without(before, deviceIndex);
      WithoutKeepsDistinct(before, deviceIndex);
      WithoutKeepsIdsIncreasing(before, deviceIndex, nextDeviceID);
    }

    /**
     * The `realloc` and store that attach a record at the end, followed by
     * `assignDeviceBindings` and the attach callback.
     */
    method Attach(rec: DeviceRecord, m: Mapping, sink: EventSink)
      requires Valid()
      requires forall i :: 0 <= i < |Contents()| ==> Contents()[i].guidInstance != rec.guidInstance
      requires forall i :: 0 <= i < |Contents()| ==> Contents()[i].deviceID < rec.deviceID
      requires rec.deviceID < nextDeviceID
      modifies this, rec`buttonBindings, rec`hatBindings, sink`events
      ensures Valid() && nextDeviceID == old(nextDeviceID)
      ensures Contents() == old(Contents()) + [rec]
      ensures rec.buttonBindings == m.buttonBindings && rec.hatBindings == m.hatBindings
      ensures sink.events == old(sink.events) + (if sink.callbacks.attach then [Attached(rec.deviceID)] else [])
    {
      ghost var before := Contents();
      var grown := Grown(devices[..numDevices], rec);
      devices := grown;
      numDevices := numDevices + 1;
      assert Contents() == before + [rec];
      rec.AssignBindings(m);
      if sink.callbacks.attach {
        sink.events := sink.events + [Attached(rec.deviceID)];
      }
    }

    /**
     * `enumDevicesCallback`: skip XInput devices when XInput is available and
     * devices already attached; otherwise take the next device ID, build the
     * record and its GUID, and attach it only when a mapping exists.
     */
    method EnumDevice(instance: DeviceInstance, xInputAvailable: bool, isXInputProduct: bool,
                      findMapping: Guid -> Option<Mapping>, numButtons: nat, numHats: nat, sink: EventSink)
      requires Valid()
      modifies this, sink`events
      ensures Valid()
      ensures (xInputAvailable && isXInputProduct) || InstanceAttached(instance.guidInstance, old(Contents()))
              ==> Contents() == old(Contents()) && nextDeviceID == old(nextDeviceID) && sink.events == old(sink.events)
      ensures !(xInputAvailable && isXInputProduct) && !InstanceAttached(instance.guidInstance, old(Contents()))
              ==> nextDeviceID == old(nextDeviceID) + 1
      ensures Contents() == old(Contents())
              || (|Contents()| == |old(Contents())| + 1 && Contents()[..|old(Contents())|] == old(Contents()))
      ensures |Contents()| > |old(Contents())| ==>
                var rec := Contents()[|old(Contents())|];
                && Registered(rec, old(nextDeviceID), instance)
                && fresh(rec) && fresh(rec.buttonStates) && fresh(rec.hatStates)
                && rec.buttonStates.Length == numButtons && rec.hatStates.Length == numHats
                && rec.buttonStates[..] == seq(numButtons, _ => false)
                && rec.hatStates[..] == seq(numHats, _ => HatCentered)
                && findMapping(rec.guid).Some?
                && rec.buttonBindings == findMapping(rec.guid).value.buttonBindings
                && rec.hatBindings == findMapping(rec.guid).value.hatBindings
                && sink.events == old(sink.events) + (if sink.callbacks.attach then [Attached(rec.deviceID)] else [])
      ensures !(xInputAvailable && isXInputProduct) && !InstanceAttached(instance.guidInstance, old(Contents()))
              ==> var ids := SplitData1(instance.guidProduct.data1);
                  (|Contents()| == |old(Contents())| + 1
                   <==> findMapping(DeviceGuid(Some(instance.productName), ids.0, ids.1, false)).Some?)
      ensures Contents() == old(Contents()) ==> sink.events == old(sink.events)
    {
      if xInputAvailable && isXInputProduct {
        return;
      }
      var duplicate := FindInstance(instance.guidInstance);
      if duplicate {
        return;
      }
      var rec := NewRecord(nextDeviceID, instance, numButtons, numHats);
      nextDeviceID := nextDeviceID + 1;
      var deviceMap := findMapping(rec.guid);
      if deviceMap.None? {
        return;
      }
      Attach(rec, deviceMap.value, sink);
    }
  }

  /** Is some record in `s` for this DirectInput instance? */
  predicate InstanceAttached(g: WinGuid, s: seq<DeviceRecord>)
  {
    exists i :: 0 <= i < |s| && s[i].guidInstance == g
  }

  /** What `enumDevicesCallback` stores in a new record before the mapping lookup. */
  ghost predicate Registered(rec: DeviceRecord, deviceID: nat, instance: DeviceInstance)
    reads rec
  {
    var ids := SplitData1(instance.guidProduct.data1);
    && rec.deviceID == deviceID && rec.guidInstance == instance.guidInstance
    && rec.description == Some(instance.productName)
    && rec.vendorID == ids.0 && rec.productID == ids.1
    && rec.guid == DeviceGuid(Some(instance.productName), ids.0, ids.1, false)
  }

  /**
   * A new record with its ID, identity, vendor and product IDs and GUID, and
   * the zeroed state arrays `calloc` gives: every button up, every hat centred.
   */
  method NewRecord(deviceID: nat, instance: DeviceInstance, numButtons: nat, numHats: nat) returns (rec: DeviceRecord)
    ensures fresh(rec) && fresh(rec.buttonStates) && fresh(rec.hatStates)
    ensures Registered(rec, deviceID, instance)
    ensures rec.buttonStates.Length == numButtons && rec.hatStates.Length == numHats
    ensures rec.buttonStates[..] == seq(numButtons, _ => false) && rec.hatStates[..] == seq(numHats, _ => HatCentered)
  {
    var ids := SplitData1(instance.guidProduct.data1);
    rec := new DeviceRecord(deviceID, instance.guidInstance, Some(instance.productName), ids.0, ids.1, numButtons, numHats);
    rec.BuildGuid(false);
  }

  /** The loop of `removeDevice`: entries `from + 1 .. n` move one place left. */
  method ShiftLeft(a: array<DeviceRecord>, from: nat, n: nat)
    requires from <= n < a.Length
    modifies a
    ensures a[..n] == Without(old(a[..n + 1]), from)
    ensures a[n..] == old(a[n..])
  {
    ghost var before := a[..];
    var i := from;
    while i < n
      invariant from <= i <= n
      invariant forall j :: 0 <= j < from ==> a[j] == before[j]
      invariant forall j :: from <= j < i ==> a[j] == before[j + 1]
      invariant forall j :: i <= j < a.Length ==> a[j] == before[j]
    {
      a[i] := a[i + 1];
      i := i + 1;
    }
    assert forall j :: 0 <= j < n ==> a[..n][j] == Without(before[..n + 1], from)[j];
  }

  /** A fresh array holding `s` followed by `rec`. */
  method Grown(s: seq<DeviceRecord>, rec: DeviceRecord) returns (grown: array<DeviceRecord>)
    ensures fresh(grown) && grown[..] == s + [rec]
  {
    grown := new DeviceRecord[|s| + 1](_ => rec);
    var i := 0;
    while i < |s|
      invariant i <= |s|
      invariant forall j :: 0 <= j < i ==> grown[j] == s[j]
      invariant grown[|s|] == rec
    {
      grown[i] := s[i];
      i := i + 1;
    }
  }
}
