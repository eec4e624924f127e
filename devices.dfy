/** The device-change entries the builder sends to vSphere: the four
    builders of the create path, and the devices read back from a VM. */
module Devices {
  import opened Wrappers
  import opened Text

  /** A distributed-switch port connection, as get_switch_port builds it. */
  datatype Port = Port(switchUuid: string, portgroupKey: string)

  datatype SharedBus = NoSharing
  datatype DiskMode = Persistent

  datatype ConnectInfo = ConnectInfo(allowGuestControl: bool, connected: bool, startConnected: bool)

  /** A device the builder creates from scratch. */
  datatype Device =
    | ParaVirtualScsi(key: int, busNumber: nat, sharedBus: SharedBus)
    | VirtualDisk(key: int, fileName: string, diskMode: DiskMode, thinProvisioned: bool,
                  controllerKey: int, unitNumber: int, capacityInKB: nat)
    | VirtualCdrom(key: int, isoFileName: string, connectable: ConnectInfo,
                   controllerKey: int, unitNumber: int)
    | Vmxnet3(key: int, deviceLabel: string, summary: string, port: Port, addressType: string)

  /** A device read back from an existing VM: the parts of it the builder
      reads (key, label, summary) or changes (port backing, start-connected). */
  datatype VmDevice = VmDevice(key: int, deviceLabel: string, summary: string,
                               port: Option<Port>, startConnected: bool)

  /** An entry of a deviceChange list: an added device (with
      `fileOperation: :create` when it is a disk) or an edited one. */
  datatype SpecEntry = Add(device: Device, createFile: bool) | Edit(existing: VmDevice)

  const CreateNicLabel := "Network Adapter 1"
  const ScsiKey := 100
  const CdromControllerKey := 200

  /** get_switch_port: the network of that name in the datacenter; the
      lookup of `.config` on nil aborts when there is none. */
  function SwitchPort(portgroup: string, networks: map<string, Port>): (r: Result<Port, Error>)
    ensures r.Ok? <==> portgroup in networks
    ensures r.Ok? ==> r.value == networks[portgroup]
    ensures r.Err? ==> r.error == PortgroupNotFound(portgroup)
  {
    if portgroup in networks then Ok(networks[portgroup]) else Err(PortgroupNotFound(portgroup))
  }

  /** `find`/`detect` by label: the first device carrying it. */
  function FindByLabel(devs: seq<VmDevice>, wanted: string): (r: Option<VmDevice>)
    ensures r.None? <==> forall j :: 0 <= j < |devs| ==> devs[j].deviceLabel != wanted
    ensures r.Some? ==> r.value.deviceLabel == wanted
    ensures r.Some? ==>
      exists i :: 0 <= i < |devs| && devs[i] == r.value && forall j :: 0 <= j < i ==> devs[j].deviceLabel != wanted
    decreases |devs|
  {
    if devs == [] then None
    else if devs[0].deviceLabel == wanted then Some(devs[0])
    else
      var r := FindByLabel(devs[1..], wanted);
      assert forall j :: 1 <= j < |devs| ==> devs[1..][j - 1] == devs[j];
      r
  }

  function ParavirtualScsiController(): SpecEntry
  {
    Add(ParaVirtualScsi(ScsiKey, 0, NoSharing), false)
  }

  function DiskConfig(datastore: string, controllerKey: int, size: nat, index: nat): SpecEntry
  {
    Add(VirtualDisk(index, "[" + datastore + "]", Persistent, false, controllerKey, index, size), true)
  }

  function IsoPath(isoStore: string, hostname: string): string
  {
    "[" + isoStore + "] " + hostname + ".iso"
  }

  function CdromConfig(isoStore: string, hostname: string): SpecEntry
  {
    Add(VirtualCdrom(-2, IsoPath(isoStore, hostname), ConnectInfo(true, true, true), CdromControllerKey, 0), false)
  }

  function NetworkConfig(portgroup: string, networks: map<string, Port>): Result<SpecEntry, Error>
  {
    match SwitchPort(portgroup, networks)
    case Err(e) => Err(e)
    case Ok(port) => Ok(Add(Vmxnet3(0, CreateNicLabel, portgroup, port, "generated"), false))
  }

  /** The deviceChange list of `vm_cfg` in the create branch: the four
      builders in order, then the second disk when one was asked for. */
  function CreateDeviceChanges(datastore: string, sda: nat, sdb: Option<nat>, isoStore: string,
                               hostname: string, portgroup: string, networks: map<string, Port>)
    : Result<seq<SpecEntry>, Error>
  {
    match NetworkConfig(portgroup, networks)
    case Err(e) => Err(e)
    case Ok(nic) =>
      var base := [ParavirtualScsiController(), DiskConfig(datastore, ScsiKey, sda, 0),
                   CdromConfig(isoStore, hostname), nic];
      if sdb.Some? then Ok(base + [DiskConfig(datastore, ScsiKey, sdb.value, 1)]) else Ok(base)
  }

  // ---------------------------------------------------------------------
  // Invariants of a device list

  predicate IsAddedDisk(e: SpecEntry) { e.Add? && e.device.VirtualDisk? }

  predicate IsAddedScsi(e: SpecEntry) { e.Add? && e.device.ParaVirtualScsi? }

  /** Every disk added hangs off a SCSI controller that the same list adds. */
  predicate DisksOnListedController(es: seq<SpecEntry>)
  {
    forall i :: 0 <= i < |es| && IsAddedDisk(es[i]) ==>
      exists j :: 0 <= j < |es| && IsAddedScsi(es[j]) && es[j].device.key == es[i].device.controllerKey
  }

  /** No two added disks share a controller and a unit number. */
  predicate DistinctDiskUnits(es: seq<SpecEntry>)
  {
    forall i, j ::
      (0 <= i < j < |es| && IsAddedDisk(es[i]) && IsAddedDisk(es[j]) &&
       es[i].device.controllerKey == es[j].device.controllerKey) ==>
      es[i].device.unitNumber != es[j].device.unitNumber
  }

  // ---------------------------------------------------------------------
  // Properties

  /** The create-branch list, entry by entry: controller 100 on bus 0, the
      persistent, thick primary disk at unit 0, the CD-ROM on the host's ISO,
      the vmxnet3 NIC on the looked-up port, and the unit-1 disk last
      exactly when a second disk was asked for. The lookup of the portgroup
      is its only failure. */
  lemma CreateDeviceLayout(datastore: string, sda: nat, sdb: Option<nat>, isoStore: string,
                           hostname: string, portgroup: string, networks: map<string, Port>)
    ensures var r := CreateDeviceChanges(datastore, sda, sdb, isoStore, hostname, portgroup, networks);
      (r.Ok? <==> portgroup in networks) &&
      (r.Err? ==> r.error == PortgroupNotFound(portgroup)) &&
      (r.Ok? ==>
        var es := r.value;
        |es| == (if sdb.Some? then 5 else 4) &&
        es[0] == Add(ParaVirtualScsi(100, 0, NoSharing), false) &&
        es[1] == Add(VirtualDisk(0, "[" + datastore + "]", Persistent, false, 100, 0, sda), true) &&
        es[2] == Add(VirtualCdrom(-2, "[" + isoStore + "] " + hostname + ".iso",
                                  ConnectInfo(true, true, true), 200, 0), false) &&
        es[3] == Add(Vmxnet3(0, "Network Adapter 1", portgroup, networks[portgroup], "generated"), false) &&
        (sdb.Some? ==>
          es[4] == Add(VirtualDisk(1, "[" + datastore + "]", Persistent, false, 100, 1, sdb.value), true)))
  {
  }

  /** The create-branch list keeps both invariants: its disks sit on the
      controller it adds, at distinct units. */
  lemma CreateDevicesWellFormed(datastore: string, sda: nat, sdb: Option<nat>, isoStore: string,
                                hostname: string, portgroup: string, networks: map<string, Port>)
    requires CreateDeviceChanges(datastore, sda, sdb, isoStore, hostname, portgroup, networks).Ok?
    ensures var es := CreateDeviceChanges(datastore, sda, sdb, isoStore, hostname, portgroup, networks).value;
      DisksOnListedController(es) && DistinctDiskUnits(es) &&
      (|set i | 0 <= i < |es| && IsAddedDisk(es[i])| == if sdb.Some? then 2 else 1)
  {
    var es := CreateDeviceChanges(datastore, sda, sdb, isoStore, hostname, portgroup, networks).value;
    assert IsAddedScsi(es[0]) && es[0].device.key == ScsiKey;
    forall i | 0 <= i < |es| && IsAddedDisk(es[i])
      ensures exists j :: 0 <= j < |es| && IsAddedScsi(es[j]) && es[j].device.key == es[i].device.controllerKey
    {
      assert i == 1 || i == 4;
    }
    if sdb.Some? {
      assert (set i | 0 <= i < |es| && IsAddedDisk(es[i])) == {1, 4};
    } else {
      assert (set i | 0 <= i < |es| && IsAddedDisk(es[i])) == {1};
    }
  }
}
